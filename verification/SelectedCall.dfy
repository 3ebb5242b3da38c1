/** The two rewrites of nccl/prober.py in the order they are applied: first the dispatch redirect, then the
    table rewrite of its output. */
module SelectedCall {
  import opened Ptx
  import DispatchRedirect
  import TableRewrite
  import DirectCall

  // A program and its rewrite agree where they start.
  lemma StartFollows(lines: seq<Line>, id: nat, symbol: string, dead: set<Name>, s: State)
    requires s.pc == 0
    ensures DirectCall.Follows(lines, id, symbol, dead, s, s) && DirectCall.Outside(lines, s)
  {
  }

  // Where the selected run stands once it has been sent to the fallback, in the redirected program.
  function AtFallback(lines: seq<Line>, id: nat, w: World, s: State, b: nat): State
    requires s.pc < b < |lines| && DispatchRedirect.FitsFirst(lines, id, s.pc, b)
  {
    var fallback := if lines[s.pc].cmp.Eq? then lines[b + 1].target else lines[b].target;
    var landed := Jump(lines, Run(lines, w, s, b - s.pc), fallback);
    Lift(DispatchRedirect.Out(lines, id), landed)
  }

  // --- The compared register keeps the id ---

  // A line that does not write a register.
  ghost predicate KeepsVal(w: World, line: Line, x: Name) {
    match line
    case Cvt(dst, _) => dst != x
    case MulWide8(dst, _) => dst != x
    case MovTable(dst) => dst != x
    case AddS64(dst, _, _) => dst != x
    case LdGlobal(dst, _) => dst != x
    case Plain(text) => forall r: Regs :: w.effect(text, r).Val(x) == r.Val(x)
    case _ => true
  }

  // None of the next n lines writes the register.
  ghost predicate Keeps(q: seq<Line>, w: World, s: State, x: Name, n: nat) {
    forall j :: 0 <= j < n ==>
      var t := Run(q, w, s, j); t.status.Running? && t.pc < |q| ==> KeepsVal(w, q[t.pc], x)
  }

  // A block that is entered looks up that register, outside of any call statement.
  predicate BlockUses(q: seq<Line>, t: State, x: Name) {
    DirectCall.AtBlock(q, t) ==> q[t.pc].src == x && !t.open
  }

  // So do the blocks entered in the next n steps.
  ghost predicate BlocksUse(q: seq<Line>, w: World, s: State, x: Name, n: nat) {
    forall j :: 0 <= j < n ==> BlockUses(q, Run(q, w, s, j), x)
  }

  lemma BlockLooksUp(q: seq<Line>, id: nat, t: State, x: Name)
    requires BlockUses(q, t, x) && t.regs.Val(x) == id
    ensures DirectCall.LooksUp(q, id, t)
  {
  }

  lemma StepKeepsVal(q: seq<Line>, w: World, s: State, x: Name)
    requires s.status.Running? && s.pc < |q| ==> KeepsVal(w, q[s.pc], x)
    ensures Step(q, w, s).regs.Val(x) == s.regs.Val(x)
  {
    hide Find;
  }

  lemma {:induction false} RunKeepsVal(q: seq<Line>, w: World, s: State, x: Name, n: nat)
    requires Keeps(q, w, s, x, n)
    ensures Run(q, w, s, n).regs.Val(x) == s.regs.Val(x)
  {
    hide Step, KeepsVal;
    if n > 0 {
      RunKeepsVal(q, w, s, x, n - 1);
      assert Run(q, w, s, n - 1).status.Running? && Run(q, w, s, n - 1).pc < |q|
        ==> KeepsVal(w, q[Run(q, w, s, n - 1).pc], x);
      StepKeepsVal(q, w, Run(q, w, s, n - 1), x);
      RunLast(q, w, s, n - 1);
    }
  }

  // So every block looks up the id that the register held at the start.
  lemma BlocksLookUp(q: seq<Line>, id: nat, w: World, s: State, x: Name, n: nat)
    requires s.regs.Val(x) == id && Keeps(q, w, s, x, n) && BlocksUse(q, w, s, x, n + 1)
    ensures DirectCall.AllLookUp(q, id, w, s, n + 1)
  {
    hide Run, KeepsVal, BlockUses, DirectCall.LooksUp;
    forall j | 0 <= j < n + 1 ensures DirectCall.LooksUp(q, id, Run(q, w, s, j)) {
      assert Keeps(q, w, s, x, j);
      RunKeepsVal(q, w, s, x, j);
      BlockLooksUp(q, id, Run(q, w, s, j), x);
    }
  }

  // --- The selected run ---

  // A run of the input that stands at a compare which sees the selected id, and falls through to the branch b chosen
  // for it, while the redirected program is fit for the table rewrite.
  ghost predicate Selected(lines: seq<Line>, id: nat, symbol: string, w: World, dead: set<Name>, s: State, b: nat) {
    && DispatchRedirect.Clean(lines, id, w) && s.pc < b < |lines|
    && DispatchRedirect.FitsFirst(lines, id, s.pc, b) && s.regs.Val(lines[s.pc].src) == id
    && DispatchRedirect.FallsThrough(lines, id, w, s, b - s.pc)
    && DirectCall.Sound(DispatchRedirect.Redirected(lines, id), id, symbol, w, dead)
  }

  // From the compare to the block that the fallback comes to n lines on, nothing writes the compared register, and the
  // blocks look up that register.
  ghost predicate FallbackUsesCompared(lines: seq<Line>, id: nat, w: World, s: State, b: nat, n: nat)
    requires s.pc < b < |lines| && DispatchRedirect.FitsFirst(lines, id, s.pc, b)
  {
    var q, u, x := DispatchRedirect.Redirected(lines, id), Lift(DispatchRedirect.Out(lines, id), s), lines[s.pc].src;
    && Keeps(q, w, u, x, b - s.pc + 2 + n) && BlocksUse(q, w, u, x, b - s.pc + 2 + n + 1)
    && DirectCall.AtBlock(q, Run(q, w, AtFallback(lines, id, w, s, b), n))
  }

  // The compare itself lies outside of the replaced blocks.
  lemma CompareIsOutside(lines: seq<Line>, id: nat, symbol: string, w: World, dead: set<Name>, s: State, b: nat)
    requires Selected(lines, id, symbol, w, dead, s, b)
    ensures DirectCall.Outside(DispatchRedirect.Redirected(lines, id), Lift(DispatchRedirect.Out(lines, id), s))
  {
    hide DirectCall.Sound, DispatchRedirect.FallsThrough, DispatchRedirect.OutAfter, DispatchRedirect.Clean,
         Pos, Flatten, DirectCall.Reached;
    var out, q := DispatchRedirect.Out(lines, id), DispatchRedirect.Redirected(lines, id);
    DispatchRedirect.ChosenFitsFirst(lines, id, s.pc);
    DispatchRedirect.OthersKept(lines, id, w, s.pc);
    CopiedLineAt(lines, out, s.pc);
    DirectCall.CompareReached(q, id, symbol, w, dead, Pos(out, s.pc));
  }

  /** A run whose dispatch compare sees the selected id calls the table's entry for the id it saw: the branch is sent to
      the fallback label, and where the fallback, n lines on, comes to its block, both rewrites together make exactly
      that one call. */
  lemma SelectedRunCallsTableEntry(lines: seq<Line>, id: nat, symbol: string, w: World, dead: set<Name>,
                                   s: State, t: State, b: nat, n: nat)
    returns (m: nat)
    requires Selected(lines, id, symbol, w, dead, s, b) && FallbackUsesCompared(lines, id, w, s, b, n)
    requires DirectCall.Follows(DispatchRedirect.Redirected(lines, id), id, symbol, dead,
                                Lift(DispatchRedirect.Out(lines, id), s), t)
    requires w.Entry(id) == w.address(symbol)
    ensures var q := DispatchRedirect.Redirected(lines, id);
            Run(TableRewrite.Rewritten(q, id, symbol), w, t, m).calls
            == Run(q, w, AtFallback(lines, id, w, s, b), n).calls + [w.Entry(s.regs.Val(lines[s.pc].src))]
  {
    hide Run, Jump, World.Entry, DispatchRedirect.FallsThrough, DispatchRedirect.Redirected, DispatchRedirect.Out,
         DirectCall.Sound, DirectCall.Follows, DirectCall.AtBlock, DirectCall.Outside, DispatchRedirect.Clean,
         DirectCall.LooksUp, TableRewrite.Rewritten, AtFallback, Keeps, BlocksUse;
    var q, u := DispatchRedirect.Redirected(lines, id), Lift(DispatchRedirect.Out(lines, id), s);
    var r, k := TableRewrite.Rewritten(q, id, symbol), b - s.pc + 2 + n;
    CompareIsOutside(lines, id, symbol, w, dead, s, b);
    BlocksLookUp(q, id, w, u, lines[s.pc].src, k);
    ReachesBlock(lines, id, w, s, b, n);
    var at := Run(q, w, u, k);
    OutsideAtBlock(q, at);
    assert DirectCall.AllLookUp(q, id, w, u, k);
    m := DirectCall.RunsFollow(q, id, symbol, w, dead, u, t, k);
    assert DirectCall.LooksUp(q, id, at);
    DirectCall.BlockFollows(q, id, symbol, w, dead, at, Run(r, w, t, m));
    DirectCall.OutFlattens(q, id, symbol);
    CallsFollow(q, id, symbol, dead, Run(q, w, at, DirectCall.MoveLength(q, at)), Run(r, w, Run(r, w, t, m), 17));
    RunAdd(r, w, t, m, 17);
    m := m + 17;
  }

  /** The same from the start of the program: a run that comes to such a compare, having entered no block with another
      id before, makes that call in the program that both rewrites leave. */
  lemma SelectedRunFromTheStart(lines: seq<Line>, id: nat, symbol: string, w: World, dead: set<Name>,
                                start: State, k: nat, s: State, b: nat, n: nat)
    returns (m: nat)
    requires Selected(lines, id, symbol, w, dead, s, b) && FallbackUsesCompared(lines, id, w, s, b, n)
    requires var q := DispatchRedirect.Redirected(lines, id);
             && start.pc == 0 && Run(q, w, start, k) == Lift(DispatchRedirect.Out(lines, id), s)
             && DirectCall.AllLookUp(q, id, w, start, k)
    requires w.Entry(id) == w.address(symbol)
    ensures var q := DispatchRedirect.Redirected(lines, id);
            Run(TableRewrite.Rewritten(q, id, symbol), w, start, m).calls
            == Run(q, w, AtFallback(lines, id, w, s, b), n).calls + [w.Entry(s.regs.Val(lines[s.pc].src))]
  {
    hide Run, World.Entry, DispatchRedirect.FallsThrough, DispatchRedirect.Redirected, DispatchRedirect.Out,
         DirectCall.Sound, DirectCall.Follows, DirectCall.Outside, DirectCall.AllLookUp, TableRewrite.Rewritten,
         AtFallback,
         FallbackUsesCompared, DispatchRedirect.Clean;
    var q := DispatchRedirect.Redirected(lines, id);
    var r := TableRewrite.Rewritten(q, id, symbol);
    StartFollows(q, id, symbol, dead, start);
    CompareIsOutside(lines, id, symbol, w, dead, s, b);
    var m1 := DirectCall.RunsFollow(q, id, symbol, w, dead, start, start, k);
    var m2 := SelectedRunCallsTableEntry(lines, id, symbol, w, dead, s, Run(r, w, start, m1), b, n);
    RunAdd(r, w, start, m1, m2);
    m := m1 + m2;
  }

  lemma {:induction false} ReachesBlock(lines: seq<Line>, id: nat, w: World, s: State, b: nat, n: nat)
    requires DispatchRedirect.Clean(lines, id, w) && s.pc < b < |lines|
    requires DispatchRedirect.FitsFirst(lines, id, s.pc, b) && s.regs.Val(lines[s.pc].src) == id
    requires DispatchRedirect.FallsThrough(lines, id, w, s, b - s.pc)
    ensures var q, u := DispatchRedirect.Redirected(lines, id), Lift(DispatchRedirect.Out(lines, id), s);
            Run(q, w, u, b - s.pc + 2 + n) == Run(q, w, AtFallback(lines, id, w, s, b), n)
  {
    hide Run, Lift, DispatchRedirect.FallsThrough, DispatchRedirect.Redirected, DispatchRedirect.Clean;
    DispatchRedirect.SelectedRunsGoToFallback(lines, id, w, s, b);
    RunAdd(DispatchRedirect.Redirected(lines, id), w, Lift(DispatchRedirect.Out(lines, id), s), b - s.pc + 2, n);
  }

  lemma OutsideAtBlock(q: seq<Line>, s: State)
    requires DirectCall.AtBlock(q, s)
    ensures DirectCall.Outside(q, s)
    ensures DirectCall.MoveLength(q, s) == TableRewrite.BlockEnd(q, s.pc).value + 1 - s.pc
  {
  }

  lemma CallsFollow(q: seq<Line>, id: nat, symbol: string, dead: set<Name>, s: State, t: State)
    requires DirectCall.Follows(q, id, symbol, dead, s, t)
    ensures t.calls == s.calls
  {
  }
}
