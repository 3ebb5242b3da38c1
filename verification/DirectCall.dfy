/** What a run of the program rewritten by TableRewrite does: with the selected id every block of the table
    fallback makes the call that the input makes there, and any other id traps without a call. */
module DirectCall {
  import opened Ptx
  import opened TableRewrite

  // --- The output as one list of lines per input line ---

  function Blank(n: nat): (out: seq<seq<Line>>)
    ensures |out| == n && forall i :: 0 <= i < n ==> out[i] == []
  {
    if n == 0 then [] else Blank(n - 1) + [[]]
  }

  function Emit(lines: seq<Line>, id: nat, symbol: string, i: nat, k: nat): (out: seq<seq<Line>>)
    requires i <= |lines|
    ensures |out| == |lines| - i
    decreases |lines| - i
  {
    if i == |lines| then [] else
      match BlockEnd(lines, i)
      case None => [[lines[i]]] + Emit(lines, id, symbol, i + 1, k)
      case Some(e) => [NewBlock(k, lines[i].src, id, symbol)] + Blank(e - i) + Emit(lines, id, symbol, e + 1, k + 1)
  }

  function Out(lines: seq<Line>, id: nat, symbol: string): (out: seq<seq<Line>>)
    ensures |out| == |lines|
  {
    Emit(lines, id, symbol, 0, 0)
  }

  lemma {:induction false} FlattenConcat(a: seq<seq<Line>>, b: seq<seq<Line>>)
    ensures Flatten(a + b) == Flatten(a) + Flatten(b)
  {
    if b == [] {
      assert a + b == a;
    } else {
      FlattenConcat(a, b[..|b| - 1]);
      assert (a + b)[..|a + b| - 1] == a + b[..|b| - 1];
    }
  }

  lemma {:induction false} FlattenBlank(n: nat)
    ensures Flatten(Blank(n)) == []
  {
    if n > 0 {
      FlattenBlank(n - 1);
      assert Blank(n)[..n - 1] == Blank(n - 1);
    }
  }

  lemma FlattenOne(line: seq<Line>)
    ensures Flatten([line]) == line
  {
    assert [line][..0] == [];
  }

  lemma {:induction false} EmitFlattens(lines: seq<Line>, id: nat, symbol: string, i: nat, k: nat)
    requires i <= |lines|
    ensures Flatten(Emit(lines, id, symbol, i, k)) == Rewrite(lines, id, symbol, i, k)
    decreases |lines| - i
  {
    hide BlockEnd, NewBlock, Flatten, Blank;
    if i < |lines| {
      match BlockEnd(lines, i)
      case None =>
        EmitFlattens(lines, id, symbol, i + 1, k);
        FlattenOne([lines[i]]);
        FlattenConcat([[lines[i]]], Emit(lines, id, symbol, i + 1, k));
      case Some(e) =>
        var block := NewBlock(k, lines[i].src, id, symbol);
        EmitFlattens(lines, id, symbol, e + 1, k + 1);
        FlattenOne(block);
        FlattenBlank(e - i);
        FlattenConcat([block], Blank(e - i));
        FlattenConcat([block] + Blank(e - i), Emit(lines, id, symbol, e + 1, k + 1));
    } else {
      FlattenBlank(0);
      assert Blank(0) == [];
    }
  }

  lemma OutFlattens(lines: seq<Line>, id: nat, symbol: string)
    ensures Flatten(Out(lines, id, symbol)) == Rewritten(lines, id, symbol)
  {
    EmitFlattens(lines, id, symbol, 0, 0);
  }

  // Entry h of a list is the replaced block number n, and the entries for the rest of its lines are empty.
  predicate HeadIn(lines: seq<Line>, id: nat, symbol: string, out: seq<seq<Line>>, at: nat, h: nat, n: nat)
    requires h < |lines|
  {
    && BlockEnd(lines, h).Some? && at + BlockEnd(lines, h).value - h < |out|
    && out[at] == NewBlock(n, lines[h].src, id, symbol)
    && out[at + 1..at + 1 + BlockEnd(lines, h).value - h] == Blank(BlockEnd(lines, h).value - h)
  }

  // Line j is copied, or it lies in the replaced block that starts at h; out is the output for the lines from i on.
  predicate PlacedIn(lines: seq<Line>, id: nat, symbol: string, out: seq<seq<Line>>, i: nat, j: nat, h: nat, n: nat)
    requires i <= h <= j < |lines| && |out| == |lines| - i
  {
    match BlockEnd(lines, h)
    case None => h == j && out[j - i] == [lines[j]]
    case Some(e) => j <= e && HeadIn(lines, id, symbol, out, h - i, h, n)
  }

  lemma PlacedShifts(lines: seq<Line>, id: nat, symbol: string, front: seq<seq<Line>>, out: seq<seq<Line>>,
                     i: nat, j: nat, h: nat, n: nat)
    requires |front| <= i <= h <= j < |lines| && |out| == |lines| - i && PlacedIn(lines, id, symbol, out, i, j, h, n)
    ensures PlacedIn(lines, id, symbol, front + out, i - |front|, j, h, n)
  {
    hide BlockEnd, NewBlock, Blank;
    if BlockEnd(lines, h).Some? {
      var m, at := BlockEnd(lines, h).value - h, h - i;
      assert (front + out)[|front| + at + 1..|front| + at + 1 + m] == out[at + 1..at + 1 + m];
    }
  }

  // The scan for blocks, started at i, comes by line h.
  predicate Reached(lines: seq<Line>, i: nat, h: nat)
    decreases h - i
  {
    i == h || (i < h && i < |lines|
              && Reached(lines, if BlockEnd(lines, i).Some? then BlockEnd(lines, i).value + 1 else i + 1, h))
  }

  // The blocks it replaces on the way.
  function BlocksBefore(lines: seq<Line>, i: nat, h: nat): nat
    decreases h - i
  {
    if i >= h then 0
    else if BlockEnd(lines, i).Some? then 1 + BlocksBefore(lines, BlockEnd(lines, i).value + 1, h)
    else BlocksBefore(lines, i + 1, h)
  }

  /** As many replacements are counted as the scan replaces blocks. */
  lemma {:induction false} ReplacementsCountBlocks(lines: seq<Line>, i: nat)
    ensures Replacements(lines, i) == BlocksBefore(lines, i, |lines|)
    decreases |lines| - i
  {
    hide BlockEnd;
    if i < |lines| {
      ReplacementsCountBlocks(lines, if BlockEnd(lines, i).Some? then BlockEnd(lines, i).value + 1 else i + 1);
    }
  }

  lemma {:induction false} LaterBlocksCount(lines: seq<Line>, i: nat, h: nat, h': nat)
    requires h < h' && Reached(lines, i, h) && Reached(lines, i, h') && BlockEnd(lines, h).Some?
    ensures BlocksBefore(lines, i, h) < BlocksBefore(lines, i, h')
    decreases h - i
  {
    hide BlockEnd;
    if i < h {
      LaterBlocksCount(lines, if BlockEnd(lines, i).Some? then BlockEnd(lines, i).value + 1 else i + 1, h, h');
    }
  }

  lemma {:induction false} Shape(lines: seq<Line>, id: nat, symbol: string, i: nat, k: nat, j: nat)
    returns (h: nat, n: nat)
    requires i <= j < |lines|
    ensures i <= h <= j && Reached(lines, i, h) && n == k + BlocksBefore(lines, i, h)
    ensures PlacedIn(lines, id, symbol, Emit(lines, id, symbol, i, k), i, j, h, n)
    decreases |lines| - i
  {
    hide BlockEnd, NewBlock, HeadIn, PlacedIn;
    match BlockEnd(lines, i) {
      case None =>
        if i < j {
          h, n := Shape(lines, id, symbol, i + 1, k, j);
          PlacedShifts(lines, id, symbol, [[lines[i]]], Emit(lines, id, symbol, i + 1, k), i + 1, j, h, n);
        } else {
          h, n := i, k;
          FirstPlaced(lines, id, symbol, i, k, j);
        }
      case Some(e) =>
        if e < j {
          h, n := Shape(lines, id, symbol, e + 1, k + 1, j);
          var front := [NewBlock(k, lines[i].src, id, symbol)] + Blank(e - i);
          PlacedShifts(lines, id, symbol, front, Emit(lines, id, symbol, e + 1, k + 1), e + 1, j, h, n);
        } else {
          h, n := i, k;
          FirstPlaced(lines, id, symbol, i, k, j);
        }
    }
  }

  lemma {:induction false} FirstPlaced(lines: seq<Line>, id: nat, symbol: string, i: nat, k: nat, j: nat)
    requires i <= j < |lines|
    requires if BlockEnd(lines, i).Some? then j <= BlockEnd(lines, i).value else i == j
    ensures PlacedIn(lines, id, symbol, Emit(lines, id, symbol, i, k), i, j, i, k)
  {
    hide BlockEnd, NewBlock, Blank;
    if BlockEnd(lines, i).Some? {
      FirstHead(lines, id, symbol, i, k);
    }
  }

  lemma {:induction false} FirstHead(lines: seq<Line>, id: nat, symbol: string, i: nat, k: nat)
    requires i < |lines| && BlockEnd(lines, i).Some?
    ensures HeadIn(lines, id, symbol, Emit(lines, id, symbol, i, k), 0, i, k)
  {
    hide BlockEnd, NewBlock, Blank;
    var e := BlockEnd(lines, i).value;
    assert Emit(lines, id, symbol, i, k)[1..1 + e - i] == Blank(e - i);
  }

  // What the output holds for a line: the line, a replaced block, or nothing.
  predicate IsHead(lines: seq<Line>, id: nat, symbol: string, h: nat, n: nat)
    requires h < |lines|
  {
    Reached(lines, 0, h) && n == BlocksBefore(lines, 0, h) && HeadIn(lines, id, symbol, Out(lines, id, symbol), h, h, n)
  }

  lemma EntryOf(lines: seq<Line>, id: nat, symbol: string, j: nat) returns (h: nat, n: nat)
    requires j < |lines|
    ensures h <= j && Reached(lines, 0, h)
    ensures BlockEnd(lines, h).None? ==> h == j && Out(lines, id, symbol)[j] == [lines[j]]
    ensures BlockEnd(lines, h).Some? ==> IsHead(lines, id, symbol, h, n) && j <= BlockEnd(lines, h).value
    ensures h < j ==> Out(lines, id, symbol)[j] == []
  {
    hide BlockEnd, NewBlock, Emit;
    h, n := Shape(lines, id, symbol, 0, 0, j);
    if h < j {
      var out, e := Out(lines, id, symbol), BlockEnd(lines, h).value;
      assert out[j] == out[h + 1..h + 1 + (e - h)][j - (h + 1)];
    }
  }

  /** No block is missed: one that starts at line i is replaced, or lies inside a replaced one that starts before. */
  lemma BlocksAreReplaced(lines: seq<Line>, id: nat, symbol: string, i: nat, e: nat) returns (h: nat, n: nat, last: nat)
    requires IsBlock(lines, i, e)
    ensures h <= i <= last && IsFirstBlock(lines, h, last)
    ensures Out(lines, id, symbol)[h] == NewBlock(n, lines[h].src, id, symbol)
  {
    hide IsBlock, IsFirstBlock, BlockEnd, NewBlock, Blank, Reached;
    BlockEndIsFirst(lines, i);
    h, n := Shape(lines, id, symbol, 0, 0, i);
    BlockEndIsFirst(lines, h);
    last := BlockEnd(lines, h).value;
  }

  // --- When the rewrite can be trusted ---

  // The program uses no name that the rewrite makes up.
  predicate Native(line: Line) {
    match line
    case Label(name) => name.Source?
    case PredBra(_, target) => target.Source?
    case BraUni(target) => target.Source?
    case Branch(_, target) => target.Source?
    case _ => true
  }

  // The lines of a call through the register, as the compiler prints them.
  predicate CallLine(line: Line, reg: Name) {
    line.CallHead? || line == Operand(reg) || line.Inert? || line.Comment? || line.CloseBrace?
  }

  predicate AtMostOneCall(lines: seq<Line>, from: nat, e: nat)
    requires e < |lines|
  {
    forall j, k :: from <= j < k <= e ==> !(lines[j].CallHead? && lines[k].CallHead?)
  }

  // One call statement follows the table load, and the load's address registers are distinct.
  predicate ProperBlock(lines: seq<Line>, h: nat)
    requires BlockEnd(lines, h).Some?
  {
    var e := BlockEnd(lines, h).value;
    && lines[h + 1].dst != lines[h + 2].dst
    && (forall j :: h + 5 <= j <= e ==> CallLine(lines[j], lines[h + 4].dst))
    && AtMostOneCall(lines, h + 5, e)
  }

  predicate Live(dead: set<Name>, x: Name) {
    x.Source? && x !in dead
  }

  // The same registers but for the dead ones and those the rewrite makes up.
  ghost predicate Agree(dead: set<Name>, r: Regs, t: Regs) {
    && (forall x: Name :: Live(dead, x) ==> r.Pred(x) == t.Pred(x))
    && (forall x: Name :: Live(dead, x) ==> r.Val(x) == t.Val(x))
  }

  // What the line does rests on live registers only.
  ghost predicate ReadsLive(w: World, dead: set<Name>, line: Line) {
    match line
    case Setp(_, _, src, _) => Live(dead, src)
    case PredBra(pred, _) => Live(dead, pred)
    case Cvt(_, src) => Live(dead, src)
    case MulWide8(_, src) => Live(dead, src)
    case AddS64(_, table, offset) => Live(dead, table) && Live(dead, offset)
    case LdGlobal(_, addr) => Live(dead, addr)
    case Operand(reg) => Live(dead, reg)
    case Plain(text) => forall r, t :: Agree(dead, r, t) ==> Agree(dead, w.effect(text, r), w.effect(text, t))
    case Branch(text, _) => forall r, t :: Agree(dead, r, t) ==> w.taken(text, r) == w.taken(text, t)
    case _ => true
  }

  // The five registers of a replaced block are dead outside of it, and the id it looks up is live.
  ghost predicate Contained(lines: seq<Line>, dead: set<Name>, h: nat)
    requires BlockEnd(lines, h).Some?
  {
    && Live(dead, lines[h].src)
    && lines[h].dst in dead && lines[h + 1].dst in dead && lines[h + 2].dst in dead
    && lines[h + 3].dst in dead && lines[h + 4].dst in dead
  }

  ghost predicate Sound(lines: seq<Line>, id: nat, symbol: string, w: World, dead: set<Name>) {
    && (forall i :: 0 <= i < |lines| ==> Native(lines[i]))
    && (forall h :: 0 <= h < |lines| && BlockEnd(lines, h).Some? ==> ProperBlock(lines, h) && Contained(lines, dead, h))
    && (forall i :: 0 <= i < |lines| && Out(lines, id, symbol)[i] == [lines[i]] ==> ReadsLive(w, dead, lines[i]))
  }

  // --- Labels ---

  lemma BlockHasNoLabel(lines: seq<Line>, h: nat, j: nat)
    requires BlockEnd(lines, h).Some? && ProperBlock(lines, h) && h <= j <= BlockEnd(lines, h).value
    ensures !lines[j].Label?
  {
    if h + 5 <= j {
      assert CallLine(lines[j], lines[h + 4].dst);
    }
  }

  // A replaced block has no label of the input.
  lemma NewBlockLabels(k: nat, src: Name, id: nat, symbol: string, j: nat)
    requires j < NEW_LINES && NewBlock(k, src, id, symbol)[j].Label?
    ensures NewBlock(k, src, id, symbol)[j].name == if j == 7 then CallLabel(k, id) else DoneLabel(k)
    ensures j == 7 || j == 16
  {
  }

  lemma NoEarlierLabel(lines: seq<Line>, id: nat, symbol: string, name: Name, i: nat, k: nat)
    requires name.Source? && i <= |lines| && k < Pos(Out(lines, id, symbol), i)
    requires forall j :: 0 <= j < i ==> lines[j] != Label(name)
    ensures k < |Flatten(Out(lines, id, symbol))| && Flatten(Out(lines, id, symbol))[k] != Label(name)
  {
    hide Flatten, NewBlock, BlockEnd, Emit;
    var out := Out(lines, id, symbol);
    FlattenMonotone(out, i, |lines|);
    var b, j := FlattenOrigin(out, k);
    if i <= b {
      FlattenMonotone(out, i, b);
    }
    var h, n := EntryOf(lines, id, symbol, b);
    if BlockEnd(lines, h).Some? && out[b][j].Label? {
      NewBlockLabels(n, lines[b].src, id, symbol, j);
    }
  }

  lemma LabelCopied(lines: seq<Line>, id: nat, symbol: string, w: World, dead: set<Name>, i: nat)
    requires Sound(lines, id, symbol, w, dead) && i < |lines| && lines[i].Label?
    ensures Out(lines, id, symbol)[i] == [lines[i]]
  {
    hide NewBlock, Emit, HeadIn;
    var h, n := EntryOf(lines, id, symbol, i);
    if BlockEnd(lines, h).Some? {
      BlockHasNoLabel(lines, h, i);
    }
  }

  // A label of the input is found at the corresponding place.
  lemma TargetLifts(lines: seq<Line>, id: nat, symbol: string, w: World, dead: set<Name>, name: Name)
    requires Sound(lines, id, symbol, w, dead) && name.Source?
    ensures LabelLifts(lines, Out(lines, id, symbol), name)
  {
    hide Flatten, Emit, Sound, Out;
    var out, i := Out(lines, id, symbol), Find(lines, name);
    FlattenAll(out);
    FlattenMonotone(out, i, |lines|);
    if i < |lines| {
      LabelCopied(lines, id, symbol, w, dead, i);
      CopiedLineAt(lines, out, i);
    }
    forall k | 0 <= k < Pos(out, i) ensures Flatten(out)[k] != Label(name) {
      NoEarlierLabel(lines, id, symbol, name, i, k);
    }
    FindIs(Flatten(out), name, Pos(out, i));
  }

  // --- A replaced block in the output ---

  lemma {:induction false} BlankTakesNoPlace(out: seq<seq<Line>>, i: nat, n: nat)
    requires i + n <= |out| && out[i..i + n] == Blank(n)
    ensures Pos(out, i + n) == Pos(out, i)
  {
    hide Pos;
    if n > 0 {
      assert out[i..i + n][..n - 1] == out[i..i + n - 1];
      assert Blank(n)[..n - 1] == Blank(n - 1);
      BlankTakesNoPlace(out, i, n - 1);
      FlattenAt(out, i + n - 1);
      assert out[i + n - 1] == out[i..i + n][n - 1];
    }
  }

  lemma BlockPlaced(lines: seq<Line>, id: nat, symbol: string, h: nat, n: nat)
    requires h < |lines| && IsHead(lines, id, symbol, h, n)
    ensures var out, at := Out(lines, id, symbol), Pos(Out(lines, id, symbol), h);
            && Pos(out, BlockEnd(lines, h).value + 1) == at + NEW_LINES <= |Flatten(out)|
            && Flatten(out)[at..at + NEW_LINES] == NewBlock(n, lines[h].src, id, symbol)
  {
    hide Pos, Flatten, Blank, BlockEnd, NewBlock, Emit, Reached, BlocksBefore;
    var out, e := Out(lines, id, symbol), BlockEnd(lines, h).value;
    FlattenAt(out, h);
    BlankTakesNoPlace(out, h + 1, e - h);
    assert h + 1 + (e - h) == e + 1;
  }

  // A made-up label is not found before its block.
  lemma NoEarlierFresh(lines: seq<Line>, id: nat, symbol: string, name: Name, h: nat, n: nat, k: nat)
    requires (forall i :: 0 <= i < |lines| ==> Native(lines[i]))
    requires h < |lines| && IsHead(lines, id, symbol, h, n) && (name == CallLabel(n, id) || name == DoneLabel(n))
    requires k < Pos(Out(lines, id, symbol), h)
    ensures k < |Flatten(Out(lines, id, symbol))| && Flatten(Out(lines, id, symbol))[k] != Label(name)
  {
    hide Flatten, NewBlock, BlockEnd, Emit, Reached, BlocksBefore, HeadIn;
    var out := Out(lines, id, symbol);
    FlattenMonotone(out, h, |lines|);
    var b, j := FlattenOrigin(out, k);
    if h <= b {
      FlattenMonotone(out, h, b);
    }
    var h', n' := EntryOf(lines, id, symbol, b);
    if BlockEnd(lines, h').Some? && out[b][j].Label? {
      HeadEntry(lines, id, symbol, h', n');
      NewBlockLabels(n', lines[b].src, id, symbol, j);
      LaterBlocksCount(lines, 0, h', h);
    }
  }

  lemma HeadEntry(lines: seq<Line>, id: nat, symbol: string, h: nat, n: nat)
    requires h < |lines| && IsHead(lines, id, symbol, h, n)
    ensures BlockEnd(lines, h).Some? && Out(lines, id, symbol)[h] == NewBlock(n, lines[h].src, id, symbol)
  {
    hide Reached, BlocksBefore, NewBlock, BlockEnd, Emit;
  }

  // Where the two labels of a replaced block are found: inside that block.
  lemma FreshFound(lines: seq<Line>, id: nat, symbol: string, h: nat, n: nat)
    requires (forall i :: 0 <= i < |lines| ==> Native(lines[i]))
    requires h < |lines| && IsHead(lines, id, symbol, h, n)
    ensures var out, at := Out(lines, id, symbol), Pos(Out(lines, id, symbol), h);
            && Find(Flatten(out), CallLabel(n, id)) == at + 7
            && Find(Flatten(out), DoneLabel(n)) == at + 16
  {
    hide Flatten, Pos, BlockEnd, Emit, IsHead, Find;
    HeadEntry(lines, id, symbol, h, n);
    var out, at, block := Out(lines, id, symbol), Pos(Out(lines, id, symbol), h), NewBlock(n, lines[h].src, id, symbol);
    var q := Flatten(out);
    BlockPlaced(lines, id, symbol, h, n);
    forall name, k | name in [CallLabel(n, id), DoneLabel(n)] && 0 <= k < at ensures q[k] != Label(name) {
      NoEarlierFresh(lines, id, symbol, name, h, n, k);
    }
    forall j | 0 <= j < NEW_LINES ensures q[at + j] == block[j] {
      assert q[at + j] == q[at..at + NEW_LINES][j];
    }
    FindInside(q, CallLabel(n, id), at, block, 7);
    FindInside(q, DoneLabel(n), at, block, 16);
  }

  lemma {:induction false} FindInside(q: seq<Line>, name: Name, at: nat, block: seq<Line>, j: nat)
    requires at + |block| <= |q| && q[at..at + |block|] == block && j < |block|
    requires forall k :: 0 <= k < at ==> q[k] != Label(name)
    requires block[j] == Label(name) && forall k :: 0 <= k < j ==> block[k] != Label(name)
    ensures Find(q, name) == at + j
  {
    hide Find;
    forall k | at <= k < at + |block| ensures q[k] == block[k - at] {
      assert q[k] == q[at..at + |block|][k - at];
    }
    FindIs(q, name, at + j);
  }

  // --- Running a replaced block ---

  // A program that holds replaced block number n at a place, and whose jumps to its two labels land in it.
  predicate HoldsBlock(q: seq<Line>, at: nat, n: nat, src: Name, id: nat, symbol: string) {
    && at + NEW_LINES <= |q| && q[at..at + NEW_LINES] == NewBlock(n, src, id, symbol)
    && Find(q, CallLabel(n, id)) == at + 7 && Find(q, DoneLabel(n)) == at + 16
  }

  lemma BlockLine(q: seq<Line>, at: nat, n: nat, src: Name, id: nat, symbol: string, j: nat)
    requires HoldsBlock(q, at, n, src, id, symbol) && j < NEW_LINES
    ensures at + NEW_LINES <= |q| && q[at + j] == NewBlock(n, src, id, symbol)[j]
  {
    hide Find, NewBlock;
    assert q[at + j] == q[at..at + NEW_LINES][j];
  }

  lemma {:induction false} BlockSilent(q: seq<Line>, w: World, t: State, at: nat, n: nat, src: Name, id: nat,
                                       symbol: string)
    requires HoldsBlock(q, at, n, src, id, symbol) && t.status.Running?
    requires t.pc == at || t.pc == at + 7 || t.pc == at + 12 || t.pc == at + 16
    ensures Run(q, w, t, 3) == t.(pc := t.pc + 3)
  {
    hide HoldsBlock, Run;
    BlockLine(q, at, n, src, id, symbol, t.pc - at);
    BlockLine(q, at, n, src, id, symbol, t.pc - at + 1);
    BlockLine(q, at, n, src, id, symbol, t.pc - at + 2);
    SilentRun(q, w, t, 3);
  }

  lemma BlockStep(q: seq<Line>, w: World, t: State, at: nat, n: nat, src: Name, id: nat, symbol: string)
    requires HoldsBlock(q, at, n, src, id, symbol) && t.status.Running? && at <= t.pc < at + NEW_LINES
    ensures Step(q, w, t) == Land(q, t, Effect(w, t, NewBlock(n, src, id, symbol)[t.pc - at]))
  {
    hide Find, NewBlock, Effect, Land;
    BlockLine(q, at, n, src, id, symbol, t.pc - at);
  }

  lemma {:induction false} GuardCompares(q: seq<Line>, w: World, t: State, n: nat, src: Name, id: nat, symbol: string)
    requires HoldsBlock(q, t.pc, n, src, id, symbol) && t.status.Running?
    ensures Run(q, w, t, 4) == t.(pc := t.pc + 4, regs := t.regs.SetPred(FreshPred(n), t.regs.Val(src) == id))
  {
    hide HoldsBlock, Run, Step;
    BlockSilent(q, w, t, t.pc, n, src, id, symbol);
    BlockStep(q, w, t.(pc := t.pc + 3), t.pc, n, src, id, symbol);
    RunLast(q, w, t, 3);
  }

  // With the selected id the guard jumps to the call.
  lemma {:induction false} GuardPasses(q: seq<Line>, w: World, t: State, n: nat, src: Name, id: nat, symbol: string)
    requires HoldsBlock(q, t.pc, n, src, id, symbol) && t.status.Running? && t.regs.Val(src) == id
    ensures Run(q, w, t, 5) == t.(pc := t.pc + 7, regs := t.regs.SetPred(FreshPred(n), true))
  {
    hide Run, Step, Find, NewBlock;
    GuardCompares(q, w, t, n, src, id, symbol);
    var u := Run(q, w, t, 4);
    BlockStep(q, w, u, t.pc, n, src, id, symbol);
    GuardLines(n, src, id, symbol);
    RunLast(q, w, t, 4);
  }

  lemma GuardLines(n: nat, src: Name, id: nat, symbol: string)
    ensures NewBlock(n, src, id, symbol)[4] == PredBra(FreshPred(n), CallLabel(n, id))
    ensures NewBlock(n, src, id, symbol)[5] == Trap
    ensures NewBlock(n, src, id, symbol)[10] == CallHead
    ensures NewBlock(n, src, id, symbol)[11] == Callee(symbol)
    ensures NewBlock(n, src, id, symbol)[15] == BraUni(DoneLabel(n))
  {
  }

  // The call statement: five steps to just behind its target.
  lemma {:induction false} CallStatement(q: seq<Line>, w: World, t: State, at: nat, n: nat, src: Name, id: nat,
                                         symbol: string)
    requires HoldsBlock(q, at, n, src, id, symbol) && t.status.Running? && t.pc == at + 7
    ensures Run(q, w, t, 5) == t.(pc := at + 12, open := false, calls := t.calls + [w.address(symbol)])
  {
    hide HoldsBlock, Run, Step, NewBlock;
    BlockSilent(q, w, t, at, n, src, id, symbol);
    GuardLines(n, src, id, symbol);
    var u := t.(pc := at + 10);
    BlockStep(q, w, u, at, n, src, id, symbol);
    var v := u.(pc := at + 11, open := true);
    BlockStep(q, w, v, at, n, src, id, symbol);
    RunLast(q, w, t, 3);
    RunLast(q, w, t, 4);
  }

  // The way out: seven steps to the line behind the block.
  lemma {:induction false} CallLeaves(q: seq<Line>, w: World, t: State, at: nat, n: nat, src: Name, id: nat,
                                      symbol: string)
    requires HoldsBlock(q, at, n, src, id, symbol) && t.status.Running? && t.pc == at + 12
    ensures Run(q, w, t, 7) == t.(pc := at + NEW_LINES)
  {
    hide Run, Step, NewBlock, Find;
    BlockSilent(q, w, t, at, n, src, id, symbol);
    GuardLines(n, src, id, symbol);
    var u := t.(pc := at + 15);
    BlockStep(q, w, u, at, n, src, id, symbol);
    RunLast(q, w, t, 3);
    var v := u.(pc := at + 16);
    BlockSilent(q, w, v, at, n, src, id, symbol);
    RunAdd(q, w, t, 4, 3);
  }

  /** With the selected id a replaced block calls the function and goes on behind itself, in 17 steps. */
  lemma {:induction false} MatchCalls(q: seq<Line>, w: World, t: State, n: nat, src: Name, id: nat, symbol: string)
    requires HoldsBlock(q, t.pc, n, src, id, symbol) && t.status.Running? && t.regs.Val(src) == id
    ensures Run(q, w, t, 17) == t.(pc := t.pc + NEW_LINES, regs := t.regs.SetPred(FreshPred(n), true), open := false,
                                   calls := t.calls + [w.address(symbol)])
  {
    hide Run, HoldsBlock;
    GuardPasses(q, w, t, n, src, id, symbol);
    var u := Run(q, w, t, 5);
    CallStatement(q, w, u, t.pc, n, src, id, symbol);
    var v := Run(q, w, u, 5);
    CallLeaves(q, w, v, t.pc, n, src, id, symbol);
    RunAdd(q, w, t, 5, 5);
    RunAdd(q, w, t, 10, 7);
  }

  /** With any other id it traps, without a call. */
  lemma {:induction false} MismatchTraps(q: seq<Line>, w: World, t: State, n: nat, src: Name, id: nat, symbol: string)
    requires HoldsBlock(q, t.pc, n, src, id, symbol) && t.status.Running? && t.regs.Val(src) != id
    ensures Run(q, w, t, 6).status == Trapped && Run(q, w, t, 6).calls == t.calls
  {
    hide Run, HoldsBlock, Step, NewBlock;
    GuardCompares(q, w, t, n, src, id, symbol);
    GuardLines(n, src, id, symbol);
    var u := Run(q, w, t, 4);
    BlockStep(q, w, u, t.pc, n, src, id, symbol);
    RunLast(q, w, t, 4);
    BlockStep(q, w, Run(q, w, t, 5), t.pc, n, src, id, symbol);
    RunLast(q, w, t, 5);
  }

  // --- Running the block it replaces ---

  // The call statement after the table load calls what the register holds, once.
  lemma {:induction false} IndirectCall(p: seq<Line>, w: World, s: State, stop: nat, reg: Name,
                                        sawCall: bool, sawTarget: bool)
    requires stop <= |p| && s.status.Running? && FindCallEnd(p, s.pc, stop, reg, sawCall, sawTarget).Some?
    requires forall j :: s.pc <= j <= FindCallEnd(p, s.pc, stop, reg, sawCall, sawTarget).value ==>
               CallLine(p[j], reg) && !(sawCall && p[j].CallHead?)
    requires AtMostOneCall(p, s.pc, FindCallEnd(p, s.pc, stop, reg, sawCall, sawTarget).value)
    requires (sawTarget ==> sawCall) && s.open == (sawCall && !sawTarget)
    ensures var e := FindCallEnd(p, s.pc, stop, reg, sawCall, sawTarget).value;
            Run(p, w, s, e + 1 - s.pc) == s.(pc := e + 1, open := false,
                                             calls := if sawTarget then s.calls else s.calls + [s.regs.Val(reg)])
    decreases stop - s.pc
  {
    hide Run, Step;
    var e := FindCallEnd(p, s.pc, stop, reg, sawCall, sawTarget).value;
    var call := sawCall || p[s.pc].CallHead?;
    var target := sawTarget || (call && p[s.pc] == Operand(reg));
    assert CallLine(p[s.pc], reg);
    var t := State(s.pc + 1, s.regs, call && !target,
                   if target && !sawTarget then s.calls + [s.regs.Val(reg)] else s.calls, s.status);
    StepAt(p, w, s, p[s.pc]);
    assert Step(p, w, s) == t;
    RunFirst(p, w, s, e - s.pc);
    if target && p[s.pc].CloseBrace? {
      RunNone(p, w, t);
    } else {
      IndirectCall(p, w, t, stop, reg, call, target);
    }
  }

  lemma {:induction false} RunFirst(p: seq<Line>, w: World, s: State, n: nat)
    ensures Run(p, w, s, n + 1) == Run(p, w, Step(p, w, s), n)
  {
  }

  lemma {:induction false} RunNone(p: seq<Line>, w: World, s: State)
    ensures Run(p, w, s, 0) == s
  {
  }

  // The registers after one of the five address lines.
  function Assigned(w: World, line: Line, r: Regs): Regs {
    match line
    case Cvt(dst, src) => r.SetVal(dst, r.Val(src))
    case MulWide8(dst, src) => r.SetVal(dst, r.Val(src) * 8)
    case MovTable(dst) => r.SetVal(dst, w.tableBase)
    case AddS64(dst, table, offset) => r.SetVal(dst, r.Val(table) + r.Val(offset))
    case LdGlobal(dst, addr) => r.SetVal(dst, w.load(r.Val(addr)))
    case _ => r
  }

  function AddressRegs(w: World, lines: seq<Line>, h: nat, r: Regs): Regs
    requires h + 5 <= |lines|
  {
    Assigned(w, lines[h + 4], Assigned(w, lines[h + 3], Assigned(w, lines[h + 2],
      Assigned(w, lines[h + 1], Assigned(w, lines[h], r)))))
  }

  predicate IsAddressLine(line: Line) {
    line.Cvt? || line.MulWide8? || line.MovTable? || line.AddS64? || line.LdGlobal?
  }

  lemma AssignStep(w: World, lines: seq<Line>, s: State)
    requires s.pc < |lines| && IsAddressLine(lines[s.pc]) && s.status.Running?
    ensures Step(lines, w, s) == s.(pc := s.pc + 1, regs := Assigned(w, lines[s.pc], s.regs))
  {
  }

  lemma {:induction false} AssignRun(w: World, lines: seq<Line>, s: State)
    requires AddressLines(lines, s.pc) && s.status.Running?
    ensures Run(lines, w, s, 5) == s.(pc := s.pc + 5, regs := AddressRegs(w, lines, s.pc, s.regs))
  {
    hide Run, Assigned, Step;
    var s1 := s.(pc := s.pc + 1, regs := Assigned(w, lines[s.pc], s.regs));
    var s2 := s1.(pc := s1.pc + 1, regs := Assigned(w, lines[s1.pc], s1.regs));
    var s3 := s2.(pc := s2.pc + 1, regs := Assigned(w, lines[s2.pc], s2.regs));
    var s4 := s3.(pc := s3.pc + 1, regs := Assigned(w, lines[s3.pc], s3.regs));
    AssignStep(w, lines, s);
    AssignStep(w, lines, s1);
    AssignStep(w, lines, s2);
    AssignStep(w, lines, s3);
    AssignStep(w, lines, s4);
    RunFirst(lines, w, s, 4);
    RunFirst(lines, w, s1, 3);
    RunFirst(lines, w, s2, 2);
    RunTwo(lines, w, s3);
  }

  // They load the table's entry for the id.
  lemma AddressLoads(w: World, lines: seq<Line>, h: nat, r: Regs)
    requires AddressLines(lines, h) && lines[h + 1].dst != lines[h + 2].dst
    ensures AddressRegs(w, lines, h, r).Val(lines[h + 4].dst) == w.Entry(r.Val(lines[h].src))
  {
  }

  /** The block of the input calls the table's entry for the id, and goes on behind itself. */
  lemma {:induction false} BlockCallsEntry(w: World, lines: seq<Line>, s: State)
    requires BlockEnd(lines, s.pc).Some? && ProperBlock(lines, s.pc) && s.status.Running? && !s.open
    ensures var e := BlockEnd(lines, s.pc).value;
            Run(lines, w, s, e + 1 - s.pc)
            == s.(pc := e + 1, regs := AddressRegs(w, lines, s.pc, s.regs), open := false,
                  calls := s.calls + [w.Entry(s.regs.Val(lines[s.pc].src))])
  {
    hide Run, FindCallEnd, AddressRegs;
    var e, reg := BlockEnd(lines, s.pc).value, lines[s.pc + 4].dst;
    var stop := if |lines| <= s.pc + 5 + CALL_WINDOW then |lines| else s.pc + 5 + CALL_WINDOW;
    AssignRun(w, lines, s);
    AddressLoads(w, lines, s.pc, s.regs);
    IndirectCall(lines, w, Run(lines, w, s, 5), stop, reg, false, false);
    RunAdd(lines, w, s, 5, e + 1 - (s.pc + 5));
  }

  // --- Runs of the input and of the output ---

  lemma {:induction false} NothingReachedInside(lines: seq<Line>, i: nat, h: nat, h': nat)
    requires h < h' && Reached(lines, i, h) && Reached(lines, i, h') && BlockEnd(lines, h).Some?
    ensures BlockEnd(lines, h).value < h'
    decreases h - i
  {
    hide BlockEnd;
    if i < h {
      NothingReachedInside(lines, if BlockEnd(lines, i).Some? then BlockEnd(lines, i).value + 1 else i + 1, h, h');
    }
  }

  lemma {:induction false} ReachedNext(lines: seq<Line>, i: nat, h: nat)
    requires Reached(lines, i, h) && h < |lines|
    ensures Reached(lines, i, if BlockEnd(lines, h).Some? then BlockEnd(lines, h).value + 1 else h + 1)
    decreases h - i
  {
    hide BlockEnd;
    if i < h {
      ReachedNext(lines, if BlockEnd(lines, i).Some? then BlockEnd(lines, i).value + 1 else i + 1, h);
    }
  }

  // A line that the scan comes by is copied, or starts a replaced block.
  lemma {:induction false} ReachedEntry(lines: seq<Line>, id: nat, symbol: string, h: nat)
    requires Reached(lines, 0, h) && h < |lines|
    ensures BlockEnd(lines, h).None? ==> Out(lines, id, symbol)[h] == [lines[h]]
    ensures BlockEnd(lines, h).Some? ==> IsHead(lines, id, symbol, h, BlocksBefore(lines, 0, h))
  {
    hide BlockEnd, Reached, BlocksBefore, Emit, NewBlock, HeadIn, Out;
    var h', n := EntryOf(lines, id, symbol, h);
    if h' < h {
      NothingReachedInside(lines, 0, h', h);
    }
  }

  // The output stands where the input stands, with the same live registers and the same calls made.
  ghost predicate Follows(lines: seq<Line>, id: nat, symbol: string, dead: set<Name>, s: State, t: State) {
    && s.pc <= |lines| && t.pc == Pos(Out(lines, id, symbol), s.pc)
    && Agree(dead, s.regs, t.regs)
    && t.open == s.open && t.calls == s.calls && t.status == s.status
  }

  // Outside of the blocks that are replaced, or stopped.
  predicate Outside(lines: seq<Line>, s: State) {
    s.status.Running? ==> Reached(lines, 0, s.pc)
  }

  // At the start of a replaced block.
  predicate AtBlock(lines: seq<Line>, s: State) {
    s.status.Running? && s.pc < |lines| && Reached(lines, 0, s.pc) && BlockEnd(lines, s.pc).Some?
  }

  // A block that is entered looks up the selected id, and no call statement is left half read.
  predicate LooksUp(lines: seq<Line>, id: nat, s: State) {
    AtBlock(lines, s) ==> s.regs.Val(lines[s.pc].src) == id && !s.open
  }

  ghost predicate SameOutcome(dead: set<Name>, o: Outcome, o': Outcome) {
    match o
    case Fall(r, open, calls) => o'.Fall? && Agree(dead, r, o'.regs) && o'.open == open && o'.calls == calls
    case _ => o' == o
  }

  lemma SetPredAgrees(dead: set<Name>, r: Regs, t: Regs, p: Name, b: bool)
    requires Agree(dead, r, t)
    ensures Agree(dead, r.SetPred(p, b), t.SetPred(p, b))
  {
  }

  lemma SetValAgrees(dead: set<Name>, r: Regs, t: Regs, x: Name, v: int)
    requires Agree(dead, r, t)
    ensures Agree(dead, r.SetVal(x, v), t.SetVal(x, v))
  {
  }

  lemma EffectAgrees(w: World, dead: set<Name>, s: State, t: State, line: Line)
    requires ReadsLive(w, dead, line) && Agree(dead, s.regs, t.regs) && t.open == s.open && t.calls == s.calls
    ensures SameOutcome(dead, Effect(w, s, line), Effect(w, t, line))
  {
    hide Regs.SetVal, Regs.SetPred;
    match line
    case Setp(cmp, pred, src, imm) => SetPredAgrees(dead, s.regs, t.regs, pred, cmp.Eq? == (s.regs.Val(src) == imm));
    case Cvt(dst, src) => SetValAgrees(dead, s.regs, t.regs, dst, s.regs.Val(src));
    case MulWide8(dst, src) => SetValAgrees(dead, s.regs, t.regs, dst, s.regs.Val(src) * 8);
    case MovTable(dst) => SetValAgrees(dead, s.regs, t.regs, dst, w.tableBase);
    case AddS64(dst, table, offset) => SetValAgrees(dead, s.regs, t.regs, dst, s.regs.Val(table) + s.regs.Val(offset));
    case LdGlobal(dst, addr) => SetValAgrees(dead, s.regs, t.regs, dst, w.load(s.regs.Val(addr)));
    case _ =>
  }

  lemma GotoIsNative(w: World, s: State, line: Line)
    requires Native(line) && Effect(w, s, line).Goto?
    ensures Effect(w, s, line).target.Source?
  {
  }

  // Landing after a copied line.
  lemma LandFollows(lines: seq<Line>, id: nat, symbol: string, dead: set<Name>, s: State, t: State,
                    o: Outcome, o': Outcome)
    requires Follows(lines, id, symbol, dead, s, t) && s.pc < |lines| && SameOutcome(dead, o, o')
    requires Pos(Out(lines, id, symbol), s.pc + 1) == Pos(Out(lines, id, symbol), s.pc) + 1
    requires o.Goto? ==> LabelLifts(lines, Out(lines, id, symbol), o.target)
    ensures Follows(lines, id, symbol, dead, Land(lines, s, o), Land(Flatten(Out(lines, id, symbol)), t, o'))
  {
    hide Flatten, Find, Agree, Out;
    if o.Goto? {
      FlattenAll(Out(lines, id, symbol));
    }
  }

  // A compare lies outside of the replaced blocks.
  lemma {:induction false} CompareReached(lines: seq<Line>, id: nat, symbol: string, w: World, dead: set<Name>, i: nat)
    requires Sound(lines, id, symbol, w, dead) && i < |lines| && lines[i].Setp?
    ensures Reached(lines, 0, i)
  {
    hide Reached, BlockEnd, Out, NewBlock, HeadIn, ReadsLive, Native, Contained;
    var h, n := EntryOf(lines, id, symbol, i);
    if BlockEnd(lines, h).Some? {
      BlockHasNoCompare(lines, h, i);
    }
  }

  lemma BlockHasNoCompare(lines: seq<Line>, h: nat, j: nat)
    requires BlockEnd(lines, h).Some? && ProperBlock(lines, h) && h <= j <= BlockEnd(lines, h).value
    ensures !lines[j].Setp?
  {
    if h + 5 <= j {
      assert CallLine(lines[j], lines[h + 4].dst);
    }
  }

  // So does a label.
  lemma {:induction false} LabelReached(lines: seq<Line>, id: nat, symbol: string, w: World, dead: set<Name>, i: nat)
    requires Sound(lines, id, symbol, w, dead) && i < |lines| && lines[i].Label?
    ensures Reached(lines, 0, i)
  {
    hide Reached, BlockEnd, Out, NewBlock, HeadIn, ReadsLive, Native, Contained;
    var h, n := EntryOf(lines, id, symbol, i);
    if BlockEnd(lines, h).Some? {
      BlockHasNoLabel(lines, h, i);
    }
  }

  lemma {:induction false} LandsOutside(lines: seq<Line>, id: nat, symbol: string, w: World, dead: set<Name>,
                                        s: State, o: Outcome)
    requires Sound(lines, id, symbol, w, dead) && s.status.Running? && s.pc < |lines| && Reached(lines, 0, s.pc)
    requires BlockEnd(lines, s.pc).None?
    ensures Outside(lines, Land(lines, s, o))
  {
    hide Reached, BlockEnd, Sound;
    match o
    case Fall(_, _, _) => ReachedNext(lines, 0, s.pc);
    case Goto(target) =>
      if Find(lines, target) < |lines| {
        LabelReached(lines, id, symbol, w, dead, Find(lines, target));
      }
    case Halt(_) =>
  }

  lemma {:induction false} CopiedLine(lines: seq<Line>, id: nat, symbol: string, w: World, dead: set<Name>, i: nat)
    requires Sound(lines, id, symbol, w, dead) && i < |lines| && Reached(lines, 0, i) && BlockEnd(lines, i).None?
    ensures Native(lines[i]) && ReadsLive(w, dead, lines[i])
    ensures var out := Out(lines, id, symbol);
            && Pos(out, i + 1) == Pos(out, i) + 1 <= |Flatten(out)| && Flatten(out)[Pos(out, i)] == lines[i]
  {
    hide Native, ReadsLive, Pos, Flatten, Out, BlockEnd, Reached;
    ReachedEntry(lines, id, symbol, i);
    CopiedLineAt(lines, Out(lines, id, symbol), i);
  }

  // A copied line does the same in both programs.
  lemma {:induction false} CopiedStepFollows(lines: seq<Line>, id: nat, symbol: string, w: World, dead: set<Name>,
                                             s: State, t: State)
    requires Sound(lines, id, symbol, w, dead) && Follows(lines, id, symbol, dead, s, t)
    requires s.status.Running? && s.pc < |lines| && Reached(lines, 0, s.pc) && BlockEnd(lines, s.pc).None?
    ensures Follows(lines, id, symbol, dead, Step(lines, w, s), Step(Flatten(Out(lines, id, symbol)), w, t))
    ensures Outside(lines, Step(lines, w, s))
  {
    hide Flatten, Find, Agree, Out, BlockEnd, Reached, Effect, Land, LabelLifts, Outside, Pos, Sound, ReadsLive, Native,
         SameOutcome;
    var out, line := Out(lines, id, symbol), lines[s.pc];
    CopiedLine(lines, id, symbol, w, dead, s.pc);
    EffectAgrees(w, dead, s, t, line);
    var o := Effect(w, s, line);
    if o.Goto? {
      GotoIsNative(w, s, line);
      TargetLifts(lines, id, symbol, w, dead, o.target);
    }
    LandFollows(lines, id, symbol, dead, s, t, o, Effect(w, t, line));
    LandsOutside(lines, id, symbol, w, dead, s, o);
  }

  // The output holds the replaced block where the input has the block it replaces.
  lemma BlockHeld(lines: seq<Line>, id: nat, symbol: string, w: World, dead: set<Name>, h: nat)
    requires Sound(lines, id, symbol, w, dead) && h < |lines| && Reached(lines, 0, h) && BlockEnd(lines, h).Some?
    ensures var out, at, n := Out(lines, id, symbol), Pos(Out(lines, id, symbol), h), BlocksBefore(lines, 0, h);
            && HoldsBlock(Flatten(out), at, n, lines[h].src, id, symbol)
            && Pos(out, BlockEnd(lines, h).value + 1) == at + NEW_LINES
  {
    hide Flatten, Pos, Out, BlockEnd, Reached, BlocksBefore, NewBlock, Find, IsHead;
    var n := BlocksBefore(lines, 0, h);
    ReachedEntry(lines, id, symbol, h);
    BlockPlaced(lines, id, symbol, h, n);
    FreshFound(lines, id, symbol, h, n);
  }

  lemma AssignedAgrees(w: World, dead: set<Name>, line: Line, r: Regs)
    requires IsAddressLine(line) && line.dst in dead
    ensures Agree(dead, r, Assigned(w, line, r))
  {
  }

  lemma AgreeTrans(dead: set<Name>, r: Regs, r': Regs, r'': Regs)
    requires Agree(dead, r, r') && Agree(dead, r', r'')
    ensures Agree(dead, r, r'')
  {
  }

  lemma AddressRegsAgree(w: World, lines: seq<Line>, dead: set<Name>, h: nat, r: Regs)
    requires BlockEnd(lines, h).Some? && Contained(lines, dead, h)
    ensures Agree(dead, r, AddressRegs(w, lines, h, r))
  {
    hide Agree, Assigned, FindCallEnd;
    var r1 := Assigned(w, lines[h], r);
    var r2 := Assigned(w, lines[h + 1], r1);
    var r3 := Assigned(w, lines[h + 2], r2);
    var r4 := Assigned(w, lines[h + 3], r3);
    AssignedAgrees(w, dead, lines[h], r);
    AssignedAgrees(w, dead, lines[h + 1], r1);
    AssignedAgrees(w, dead, lines[h + 2], r2);
    AssignedAgrees(w, dead, lines[h + 3], r3);
    AssignedAgrees(w, dead, lines[h + 4], r4);
    AgreeTrans(dead, r, r1, r2);
    AgreeTrans(dead, r, r2, r3);
    AgreeTrans(dead, r, r3, r4);
    AgreeTrans(dead, r, r4, Assigned(w, lines[h + 4], r4));
  }

  lemma BlockRegsAgree(w: World, lines: seq<Line>, dead: set<Name>, h: nat, r: Regs, t: Regs, n: nat)
    requires BlockEnd(lines, h).Some? && Contained(lines, dead, h) && Agree(dead, r, t)
    ensures Agree(dead, AddressRegs(w, lines, h, r), t.SetPred(FreshPred(n), true))
    ensures r.Val(lines[h].src) == t.Val(lines[h].src)
  {
    hide BlockEnd, AddressRegs;
    AddressRegsAgree(w, lines, dead, h, r);
  }

  /** At a block that looks up the selected id, both programs make the one call of the table's entry and go on
      at corresponding places. */
  lemma BlockFollows(lines: seq<Line>, id: nat, symbol: string, w: World, dead: set<Name>, s: State, t: State)
    requires Sound(lines, id, symbol, w, dead) && Follows(lines, id, symbol, dead, s, t)
    requires AtBlock(lines, s) && LooksUp(lines, id, s) && w.Entry(id) == w.address(symbol)
    ensures var s' := Run(lines, w, s, BlockEnd(lines, s.pc).value + 1 - s.pc);
            && Follows(lines, id, symbol, dead, s', Run(Flatten(Out(lines, id, symbol)), w, t, 17))
            && Outside(lines, s') && s'.calls == s.calls + [w.Entry(id)]
  {
    hide Run, Flatten, Pos, Agree, Out, BlockEnd, Reached, BlocksBefore, AddressRegs, HoldsBlock, World.Entry,
         ProperBlock, Contained;
    var h, n := s.pc, BlocksBefore(lines, 0, s.pc);
    assert ProperBlock(lines, h) && Contained(lines, dead, h);
    BlockHeld(lines, id, symbol, w, dead, h);
    BlockRegsAgree(w, lines, dead, h, s.regs, t.regs, n);
    BlockCallsEntry(w, lines, s);
    MatchCalls(Flatten(Out(lines, id, symbol)), w, t, n, lines[h].src, id, symbol);
    ReachedNext(lines, 0, h);
  }

  /** At a block that looks up another id, the output traps without a call. */
  lemma {:induction false} OtherIdTraps(lines: seq<Line>, id: nat, symbol: string, w: World, dead: set<Name>,
                                        s: State, t: State)
    requires Sound(lines, id, symbol, w, dead) && Follows(lines, id, symbol, dead, s, t)
    requires AtBlock(lines, s) && s.regs.Val(lines[s.pc].src) != id
    ensures Run(Rewritten(lines, id, symbol), w, t, 6).status == Trapped
    ensures Run(Rewritten(lines, id, symbol), w, t, 6).calls == s.calls
  {
    hide Run, Flatten, Pos, Out, BlockEnd, Reached, BlocksBefore, HoldsBlock, Rewritten;
    BlockHeld(lines, id, symbol, w, dead, s.pc);
    assert Live(dead, lines[s.pc].src);
    OutFlattens(lines, id, symbol);
    MismatchTraps(Rewritten(lines, id, symbol), w, t, BlocksBefore(lines, 0, s.pc), lines[s.pc].src, id, symbol);
  }

  // --- Whole runs ---

  // A line of a block that is replaced falls through.
  lemma BlockLineFalls(w: World, lines: seq<Line>, h: nat, s: State)
    requires h < |lines| && BlockEnd(lines, h).Some? && ProperBlock(lines, h)
    requires s.status.Running? && h <= s.pc <= BlockEnd(lines, h).value
    ensures Step(lines, w, s).pc == s.pc + 1 && Step(lines, w, s).status.Running?
  {
    if h + 5 <= s.pc {
      assert CallLine(lines[s.pc], lines[h + 4].dst);
    }
  }

  lemma {:induction false} InsideBlock(w: World, lines: seq<Line>, s: State, n: nat)
    requires BlockEnd(lines, s.pc).Some? && ProperBlock(lines, s.pc) && s.status.Running?
    requires s.pc + n <= BlockEnd(lines, s.pc).value + 1
    ensures Run(lines, w, s, n).pc == s.pc + n && Run(lines, w, s, n).status.Running?
  {
    hide BlockEnd, ProperBlock, Step, Run;
    if n > 0 {
      InsideBlock(w, lines, s, n - 1);
      BlockLineFalls(w, lines, s.pc, Run(lines, w, s, n - 1));
      RunLast(lines, w, s, n - 1);
    } else {
      RunNone(lines, w, s);
    }
  }

  // The lines of one move of the input: a whole block, or one line.
  function MoveLength(lines: seq<Line>, s: State): (n: nat)
    ensures n > 0
  {
    if AtBlock(lines, s) then BlockEnd(lines, s.pc).value + 1 - s.pc else 1
  }

  // The moves of the input are followed by moves of the output.
  lemma MoveFollows(lines: seq<Line>, id: nat, symbol: string, w: World, dead: set<Name>, s: State, t: State)
    returns (k: nat)
    requires Sound(lines, id, symbol, w, dead) && Follows(lines, id, symbol, dead, s, t) && Outside(lines, s)
    requires LooksUp(lines, id, s) && w.Entry(id) == w.address(symbol)
    ensures var s' := Run(lines, w, s, MoveLength(lines, s));
            && Follows(lines, id, symbol, dead, s', Run(Flatten(Out(lines, id, symbol)), w, t, k)) && Outside(lines, s')
  {
    hide Run, Flatten, Pos, Agree, Out, BlockEnd, Reached, World.Entry, Sound;
    var q := Flatten(Out(lines, id, symbol));
    if AtBlock(lines, s) {
      k := 17;
      BlockFollows(lines, id, symbol, w, dead, s, t);
    } else {
      k := 1;
      RunOne(lines, w, s);
      RunOne(q, w, t);
      if s.status.Running? && s.pc < |lines| {
        CopiedStepFollows(lines, id, symbol, w, dead, s, t);
      } else {
        FlattenAll(Out(lines, id, symbol));
      }
    }
  }

  // Every block entered in the first n steps looks up the selected id.
  ghost predicate AllLookUp(lines: seq<Line>, id: nat, w: World, s: State, n: nat) {
    forall j :: 0 <= j < n ==> LooksUp(lines, id, Run(lines, w, s, j))
  }

  lemma {:induction false} AllLookUpRest(lines: seq<Line>, id: nat, w: World, s: State, c: nat, n: nat)
    requires c <= n && AllLookUp(lines, id, w, s, n)
    ensures AllLookUp(lines, id, w, Run(lines, w, s, c), n - c)
  {
    hide Run, LooksUp;
    forall j | 0 <= j < n - c ensures LooksUp(lines, id, Run(lines, w, Run(lines, w, s, c), j)) {
      RunAdd(lines, w, s, c, j);
      assert LooksUp(lines, id, Run(lines, w, s, c + j));
    }
  }

  // A run does not end inside a block where it is outside of the blocks.
  lemma {:induction false} WholeMove(lines: seq<Line>, id: nat, symbol: string, w: World, dead: set<Name>, s: State,
                                     n: nat)
    requires Sound(lines, id, symbol, w, dead) && 0 < n && Outside(lines, Run(lines, w, s, n))
    ensures MoveLength(lines, s) <= n
  {
    hide Run, BlockEnd, Reached, ReadsLive, Contained, Out;
    if AtBlock(lines, s) && n < MoveLength(lines, s) {
      InsideBlock(w, lines, s, n);
      NothingReachedInside(lines, 0, s.pc, s.pc + n);
    }
  }

  /** Wherever a run of the input is outside of the replaced blocks, the output comes to the corresponding place
      with the same live registers, having made the same calls, provided the blocks on the way look up the selected id
      and its table entry is the function called instead. */
  lemma {:induction false} RunsFollow(lines: seq<Line>, id: nat, symbol: string, w: World, dead: set<Name>,
                                      s: State, t: State, n: nat)
    returns (m: nat)
    requires Sound(lines, id, symbol, w, dead) && Follows(lines, id, symbol, dead, s, t) && Outside(lines, s)
    requires w.Entry(id) == w.address(symbol)
    requires AllLookUp(lines, id, w, s, n) && Outside(lines, Run(lines, w, s, n))
    ensures Follows(lines, id, symbol, dead, Run(lines, w, s, n), Run(Rewritten(lines, id, symbol), w, t, m))
    decreases n
  {
    hide Run, Flatten, Out, Follows, Outside, Sound, AllLookUp, LooksUp, MoveLength, World.Entry, Rewritten;
    var q := Rewritten(lines, id, symbol);
    OutFlattens(lines, id, symbol);
    m := 0;
    RunNone(lines, w, s);
    RunNone(q, w, t);
    if n > 0 {
      var c := MoveLength(lines, s);
      WholeMove(lines, id, symbol, w, dead, s, n);
      FirstLooksUp(lines, id, w, s, n);
      var k := MoveFollows(lines, id, symbol, w, dead, s, t);
      AllLookUpRest(lines, id, w, s, c, n);
      RunAdd(lines, w, s, c, n - c);
      m := RunsFollow(lines, id, symbol, w, dead, Run(lines, w, s, c), Run(q, w, t, k), n - c);
      RunAdd(q, w, t, k, m);
      m := k + m;
    }
  }

  lemma FirstLooksUp(lines: seq<Line>, id: nat, w: World, s: State, n: nat)
    requires 0 < n && AllLookUp(lines, id, w, s, n)
    ensures LooksUp(lines, id, s)
  {
    hide Run, LooksUp;
    RunNone(lines, w, s);
    assert LooksUp(lines, id, Run(lines, w, s, 0));
  }
}
