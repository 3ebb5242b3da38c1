/** A small-step semantics for the lines of PTX that nccl/prober.py reads and writes: compares of the 16-bit
    funcId, branches, labels, the table address computation and the multi-line call statement. Every
    other line is opaque: it falls through after an arbitrary but fixed effect on the registers. */
module Ptx {
  // Register and label names: those of the input, and those the table rewrite makes up.
  datatype Name = Source(text: string) | FreshPred(k: nat) | CallLabel(k: nat, id: nat) | DoneLabel(k: nat)

  datatype Cmp = Eq | Ne

  datatype Line =
    | Setp(cmp: Cmp, pred: Name, src: Name, imm: nat)   // setp.{eq,ne}.s16 %pN, %rsN, imm;
    | PredBra(pred: Name, target: Name)                 // @%pN bra target;
    | BraUni(target: Name)                              // bra.uni target;
    | Label(name: Name)                                 // name:
    | Cvt(dst: Name, src: Name)                         // cvt.u32.u16 dst, src;
    | MulWide8(dst: Name, src: Name)                    // mul.wide.u32 dst, src, 8;
    | MovTable(dst: Name)                               // mov.u64 dst, ncclDevFuncTable;
    | AddS64(dst: Name, table: Name, offset: Name)      // add.s64 dst, table, offset;
    | LdGlobal(dst: Name, addr: Name)                   // ld.global.u64 dst, [addr];
    | CallHead                                          // a line starting with "call"
    | Operand(reg: Name)                                // a call statement's line holding one register
    | Callee(symbol: string)                            // a call statement's line holding a function name
    | CloseBrace                                        // a line starting with "}"
    | Trap                                              // trap;
    | Exit                                              // ret; or exit;
    | Branch(text: string, target: Name)                // any other branch
    | Comment                                           // a line starting with "//"
    | Inert                                             // an opening brace, a declaration, call punctuation
    | Plain(text: string)                               // anything else

  datatype Regs = Regs(preds: map<Name, bool>, vals: map<Name, int>) {
    predicate Pred(p: Name) {
      p in preds && preds[p]
    }

    function Val(r: Name): int {
      if r in vals then vals[r] else 0
    }

    function SetPred(p: Name, b: bool): Regs {
      Regs(preds[p := b], vals)
    }

    function SetVal(r: Name, v: int): Regs {
      Regs(preds, vals[r := v])
    }
  }

  // The world around a program: what opaque lines do, global memory, when opaque branches are
  // taken, where the function table starts and where each function of the module lies.
  datatype World = World(effect: (string, Regs) -> Regs, taken: (string, Regs) -> bool,
                         load: int -> int, tableBase: int, address: string -> int)
  {
    // The function that the table names for an id.
    function Entry(id: int): int {
      load(tableBase + 8 * id)
    }
  }

  datatype Status = Running | Finished | Trapped | Stuck

  // `open` holds inside a call statement whose target has not been read yet; `calls` lists the addresses called.
  datatype State = State(pc: nat, regs: Regs, open: bool, calls: seq<int>, status: Status)

  // The first line carrying a label, or the length of the program.
  function Find(p: seq<Line>, name: Name): (i: nat)
    ensures i <= |p|
    ensures i < |p| ==> p[i] == Label(name)
    ensures forall j :: 0 <= j < i ==> p[j] != Label(name)
  {
    if p == [] then 0
    else if p[0] == Label(name) then 0
    else
      var i := Find(p[1..], name);
      assert forall j :: 1 <= j < i + 1 ==> p[j] == p[1..][j - 1];
      i + 1
  }

  // A missing label leaves no place to go on from.
  function Jump(p: seq<Line>, s: State, target: Name): State {
    if Find(p, target) < |p| then s.(pc := Find(p, target)) else s.(pc := |p|, status := Stuck)
  }

  function Next(s: State): State {
    s.(pc := s.pc + 1)
  }

  // What a line does, apart from where the program then stands: fall through, go to a label, or stop.
  datatype Outcome = Fall(regs: Regs, open: bool, calls: seq<int>) | Goto(target: Name) | Halt(status: Status)

  function Effect(w: World, s: State, line: Line): Outcome {
    var r := s.regs;
    match line
    case Setp(cmp, pred, src, imm) => Fall(r.SetPred(pred, cmp.Eq? == (r.Val(src) == imm)), s.open, s.calls)
    case PredBra(pred, target) => if r.Pred(pred) then Goto(target) else Fall(r, s.open, s.calls)
    case BraUni(target) => Goto(target)
    case Branch(text, target) => if w.taken(text, r) then Goto(target) else Fall(r, s.open, s.calls)
    case Cvt(dst, src) => Fall(r.SetVal(dst, r.Val(src)), s.open, s.calls)
    case MulWide8(dst, src) => Fall(r.SetVal(dst, r.Val(src) * 8), s.open, s.calls)
    case MovTable(dst) => Fall(r.SetVal(dst, w.tableBase), s.open, s.calls)
    case AddS64(dst, table, offset) => Fall(r.SetVal(dst, r.Val(table) + r.Val(offset)), s.open, s.calls)
    case LdGlobal(dst, addr) => Fall(r.SetVal(dst, w.load(r.Val(addr))), s.open, s.calls)
    case CallHead => Fall(r, true, s.calls)
    case Operand(reg) => Fall(r, false, if s.open then s.calls + [r.Val(reg)] else s.calls)
    case Callee(f) => Fall(r, false, if s.open then s.calls + [w.address(f)] else s.calls)
    case Trap => Halt(Trapped)
    case Exit => Halt(Finished)
    case Plain(text) => Fall(w.effect(text, r), s.open, s.calls)
    case Label(_) => Fall(r, s.open, s.calls)
    case CloseBrace => Fall(r, s.open, s.calls)
    case Comment => Fall(r, s.open, s.calls)
    case Inert => Fall(r, s.open, s.calls)
  }

  // Labels are looked up in the whole program p.
  function Land(p: seq<Line>, s: State, o: Outcome): State {
    match o
    case Fall(regs, open, calls) => State(s.pc + 1, regs, open, calls, s.status)
    case Goto(target) => Jump(p, s, target)
    case Halt(status) => s.(status := status)
  }

  function Step(p: seq<Line>, w: World, s: State): State {
    if !s.status.Running? then s
    else if s.pc >= |p| then s.(status := Finished)
    else Land(p, s, Effect(w, s, p[s.pc]))
  }

  function Run(p: seq<Line>, w: World, s: State, n: nat): State
    decreases n
  {
    if n == 0 then s else Run(p, w, Step(p, w, s), n - 1)
  }

  lemma {:induction false} RunAdd(p: seq<Line>, w: World, s: State, m: nat, n: nat)
    ensures Run(p, w, s, m + n) == Run(p, w, Run(p, w, s, m), n)
    decreases m
  {
    if m > 0 {
      RunAdd(p, w, Step(p, w, s), m - 1, n);
    }
  }

  lemma {:induction false} RunLast(p: seq<Line>, w: World, s: State, n: nat)
    ensures Run(p, w, s, n + 1) == Step(p, w, Run(p, w, s, n))
  {
    RunAdd(p, w, s, n, 1);
    assert Run(p, w, Run(p, w, s, n), 1) == Run(p, w, Step(p, w, Run(p, w, s, n)), 0);
  }

  // --- Programs assembled from one list of lines per input line ---

  function Flatten(out: seq<seq<Line>>): seq<Line> {
    if out == [] then [] else Flatten(out[..|out| - 1]) + out[|out| - 1]
  }

  // Where the lines for entry i start.
  function Pos(out: seq<seq<Line>>, i: nat): nat
    requires i <= |out|
  {
    |Flatten(out[..i])|
  }

  lemma {:induction false} FlattenAt(out: seq<seq<Line>>, i: nat)
    requires i < |out|
    ensures Pos(out, i + 1) == Pos(out, i) + |out[i]| <= |Flatten(out)|
    ensures Flatten(out)[Pos(out, i)..Pos(out, i + 1)] == out[i]
    ensures Flatten(out)[..Pos(out, i)] == Flatten(out[..i])
  {
    var n := |out| - 1;
    assert out[..i + 1][..i] == out[..i];
    if i == n {
      assert out[..n + 1] == out;
    } else {
      FlattenAt(out[..n], i);
      assert out[..n][..i] == out[..i] && out[..n][..i + 1] == out[..i + 1];
    }
  }

  lemma {:induction false} FlattenMonotone(out: seq<seq<Line>>, i: nat, j: nat)
    requires i <= j <= |out|
    ensures Pos(out, i) <= Pos(out, j) <= |Flatten(out)|
  {
    if i < j {
      FlattenMonotone(out, i, j - 1);
      FlattenAt(out, j - 1);
    } else {
      assert out[..|out|] == out;
      if j < |out| {
        FlattenAt(out, j);
      }
    }
  }

  lemma {:induction false} FlattenAll(out: seq<seq<Line>>)
    ensures Pos(out, |out|) == |Flatten(out)|
  {
    assert out[..|out|] == out;
  }

  // Every line of the flattened program comes from some entry.
  lemma {:induction false} FlattenOrigin(out: seq<seq<Line>>, k: nat) returns (i: nat, j: nat)
    requires k < |Flatten(out)|
    ensures i < |out| && j < |out[i]| && k == Pos(out, i) + j && Flatten(out)[k] == out[i][j]
  {
    var n := |out| - 1;
    if k >= |Flatten(out[..n])| {
      i, j := n, k - |Flatten(out[..n])|;
    } else {
      i, j := FlattenOrigin(out[..n], k);
      assert out[..n][..i] == out[..i];
    }
  }

  // The same state at the corresponding place of a program with lines out[i] for line i.
  function Lift(out: seq<seq<Line>>, s: State): State
    requires s.pc <= |out|
  {
    s.(pc := Pos(out, s.pc))
  }

  // A jump to the label lands at corresponding places.
  predicate LabelLifts(lines: seq<Line>, out: seq<seq<Line>>, name: Name)
    requires |out| == |lines|
  {
    && Find(Flatten(out), name) == Pos(out, Find(lines, name))
    && (Find(lines, name) < |lines| <==> Find(Flatten(out), name) < |Flatten(out)|)
  }

  // The two programs land at corresponding places after a line that takes one place in both.
  lemma {:induction false} LandLifts(lines: seq<Line>, out: seq<seq<Line>>, s: State, o: Outcome)
    requires |out| == |lines| && s.pc < |lines| && Pos(out, s.pc + 1) == Pos(out, s.pc) + 1
    requires o.Goto? ==> LabelLifts(lines, out, o.target)
    ensures Land(lines, s, o).pc <= |lines|
    ensures Land(Flatten(out), Lift(out, s), o) == Lift(out, Land(lines, s, o))
  {
    hide Flatten, Find;
    if o.Goto? {
      FlattenAll(out);
    }
  }

  lemma {:induction false} CopiedLineAt(lines: seq<Line>, out: seq<seq<Line>>, i: nat)
    requires |out| == |lines| && i < |lines| && out[i] == [lines[i]]
    ensures Pos(out, i + 1) == Pos(out, i) + 1 <= |Flatten(out)|
    ensures Flatten(out)[Pos(out, i)] == lines[i]
  {
    FlattenAt(out, i);
    assert Flatten(out)[Pos(out, i)] == Flatten(out)[Pos(out, i)..Pos(out, i + 1)][0];
  }

  // A line that is copied does the same in both programs.
  lemma {:induction false} CopiedLineLifts(lines: seq<Line>, out: seq<seq<Line>>, w: World, s: State)
    requires |out| == |lines| && s.status.Running? && s.pc < |lines| && out[s.pc] == [lines[s.pc]]
    requires Effect(w, s, lines[s.pc]).Goto? ==> LabelLifts(lines, out, Effect(w, s, lines[s.pc]).target)
    ensures Step(lines, w, s).pc <= |lines|
    ensures Step(Flatten(out), w, Lift(out, s)) == Lift(out, Step(lines, w, s))
  {
    hide Flatten, Find, Pos, Land, LabelLifts;
    CopiedLineAt(lines, out, s.pc);
    LandLifts(lines, out, s, Effect(w, s, lines[s.pc]));
    assert Effect(w, Lift(out, s), lines[s.pc]) == Effect(w, s, lines[s.pc]);
  }

  // The first occurrence of a label is where the scan stops.
  lemma {:induction false} FindIs(p: seq<Line>, name: Name, i: nat)
    requires i <= |p| && (i < |p| ==> p[i] == Label(name))
    requires forall j :: 0 <= j < i ==> p[j] != Label(name)
    ensures Find(p, name) == i
  {
  }

  lemma {:induction false} RunTwo(p: seq<Line>, w: World, s: State)
    ensures Run(p, w, s, 2) == Step(p, w, Step(p, w, s))
  {
    assert Run(p, w, s, 2) == Run(p, w, Step(p, w, s), 1) == Run(p, w, Step(p, w, Step(p, w, s)), 0);
  }

  lemma {:induction false} RunOne(p: seq<Line>, w: World, s: State)
    ensures Run(p, w, s, 1) == Step(p, w, s)
  {
    assert Run(p, w, s, 1) == Run(p, w, Step(p, w, s), 0);
  }

  lemma StepAt(p: seq<Line>, w: World, s: State, line: Line)
    requires s.status.Running? && s.pc < |p| && p[s.pc] == line
    ensures Step(p, w, s) == Land(p, s, Effect(w, s, line))
  {
  }

  // Lines that only take up a place.
  predicate Silent(line: Line) {
    line.Comment? || line.Inert? || line.CloseBrace? || line.Label?
  }

  lemma SilentStep(p: seq<Line>, w: World, s: State)
    requires s.status.Running? && s.pc < |p| && Silent(p[s.pc])
    ensures Step(p, w, s) == Next(s)
  {
  }

  // A comment does nothing.
  lemma {:induction false} CommentThen(p: seq<Line>, w: World, s: State, line: Line)
    requires s.status.Running? && s.pc + 1 < |p| && p[s.pc] == Comment && p[s.pc + 1] == line
    ensures Run(p, w, s, 2) == Land(p, Next(s), Effect(w, s, line))
  {
    hide Step, Run, Land;
    SilentStep(p, w, s);
    StepAt(p, w, Next(s), line);
    RunTwo(p, w, s);
  }

  lemma RunFirst(p: seq<Line>, w: World, s: State, n: nat)
    requires n > 0
    ensures Run(p, w, s, n) == Run(p, w, Step(p, w, s), n - 1)
  {
  }

  lemma {:induction false} SilentRun(p: seq<Line>, w: World, s: State, n: nat)
    requires s.status.Running? && s.pc + n <= |p|
    requires forall j :: s.pc <= j < s.pc + n ==> Silent(p[j])
    ensures Run(p, w, s, n) == s.(pc := s.pc + n)
    decreases n
  {
    if n > 0 {
      hide Step, Run, Silent;
      RunFirst(p, w, s, n);
      SilentStep(p, w, s);
      SilentRun(p, w, Next(s), n - 1);
    }
  }
}
