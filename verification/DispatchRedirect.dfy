/** `redirect_direct_dispatch_to_fallback` of nccl/prober.py: the branch that an NCCL kernel takes on a known
    funcId is rewritten so that the selected funcId goes to the table fallback. */
module DispatchRedirect {
  import opened Arithmetic
  import opened Options
  import opened Ptx

  const WINDOW := 80

  // A compare of the function id with the selected one.
  predicate IsDispatch(line: Line, id: nat) {
    line.Setp? && line.pred.Source? && line.imm == id
  }

  // The eq shape: a branch on the compare, directly followed by the jump to the fallback.
  predicate EqBranchAt(lines: seq<Line>, k: nat, pred: Name)
    requires k + 1 < |lines|
  {
    lines[k].PredBra? && lines[k + 1].BraUni? && lines[k].pred == pred && lines[k].target != lines[k + 1].target
  }

  // The ne shape: the branch on the compare already goes to the fallback.
  predicate NeBranchAt(lines: seq<Line>, k: nat, pred: Name)
    requires k < |lines|
  {
    lines[k].PredBra? && lines[k].pred == pred
  }

  // The first such branch at or after k and before stop.
  function FindEq(lines: seq<Line>, k: nat, stop: int, pred: Name): (r: Option<nat>)
    requires stop <= |lines| - 1
    ensures r.Some? ==> k <= r.value < stop && EqBranchAt(lines, r.value, pred)
    decreases stop - k
  {
    if k >= stop then None
    else if EqBranchAt(lines, k, pred) then Some(k)
    else FindEq(lines, k + 1, stop, pred)
  }

  function FindNe(lines: seq<Line>, k: nat, stop: int, pred: Name): (r: Option<nat>)
    requires stop <= |lines|
    ensures r.Some? ==> k <= r.value < stop && NeBranchAt(lines, r.value, pred)
    decreases stop - k
  {
    if k >= stop then None
    else if NeBranchAt(lines, k, pred) then Some(k)
    else FindNe(lines, k + 1, stop, pred)
  }

  // The branch line that the compare at idx redirects, if any.
  function Chosen(lines: seq<Line>, id: nat, idx: nat): (r: Option<nat>)
    requires idx < |lines|
    ensures r.Some? ==>
      && IsDispatch(lines[idx], id)
      && idx < r.value < |lines| && NeBranchAt(lines, r.value, lines[idx].pred)
      && (lines[idx].cmp.Eq? ==> r.value + 1 < |lines| && EqBranchAt(lines, r.value, lines[idx].pred))
  {
    if !IsDispatch(lines[idx], id) then None
    else if lines[idx].cmp.Eq? then FindEq(lines, idx + 1, Min(idx + WINDOW, |lines| - 1), lines[idx].pred)
    else FindNe(lines, idx + 1, Min(idx + WINDOW, |lines|), lines[idx].pred)
  }

  // --- What is redirected, line by line ---

  // Branch b fits the compare at idx: it is on the predicate that the compare sets for the id, less than 80 lines on;
  // behind an eq compare a jump to another label directly follows it.
  ghost predicate Fits(lines: seq<Line>, id: nat, idx: nat, b: nat)
    requires idx < |lines|
  {
    var compare := lines[idx];
    && compare.Setp? && compare.pred.Source? && compare.imm == id
    && idx < b < idx + 80 && b < |lines| && lines[b].PredBra? && lines[b].pred == compare.pred
    && (compare.cmp.Eq? ==> b + 1 < |lines| && lines[b + 1].BraUni? && lines[b + 1].target != lines[b].target)
  }

  ghost predicate FitsFirst(lines: seq<Line>, id: nat, idx: nat, b: nat)
    requires idx < |lines|
  {
    Fits(lines, id, idx, b) && forall k :: idx < k < b ==> !Fits(lines, id, idx, k)
  }

  lemma {:induction false} FindEqIsFirst(lines: seq<Line>, k: nat, stop: int, pred: Name)
    requires stop <= |lines| - 1
    ensures match FindEq(lines, k, stop, pred)
            case None => forall j :: k <= j < stop ==> !EqBranchAt(lines, j, pred)
            case Some(b) => forall j :: k <= j < b ==> !EqBranchAt(lines, j, pred)
    decreases stop - k
  {
    if k < stop && !EqBranchAt(lines, k, pred) {
      FindEqIsFirst(lines, k + 1, stop, pred);
    }
  }

  lemma {:induction false} FindNeIsFirst(lines: seq<Line>, k: nat, stop: int, pred: Name)
    requires stop <= |lines|
    ensures match FindNe(lines, k, stop, pred)
            case None => forall j :: k <= j < stop ==> !NeBranchAt(lines, j, pred)
            case Some(b) => forall j :: k <= j < b ==> !NeBranchAt(lines, j, pred)
    decreases stop - k
  {
    if k < stop && !NeBranchAt(lines, k, pred) {
      FindNeIsFirst(lines, k + 1, stop, pred);
    }
  }

  /** The compare at idx redirects exactly the first branch that fits it, and none if none fits. */
  lemma ChosenFitsFirst(lines: seq<Line>, id: nat, idx: nat)
    requires idx < |lines|
    ensures forall b: nat :: Chosen(lines, id, idx) == Some(b) <==> FitsFirst(lines, id, idx, b)
    ensures Chosen(lines, id, idx).None? <==> forall b: nat :: !Fits(lines, id, idx, b)
  {
    hide FindEq, FindNe;
    if IsDispatch(lines[idx], id) {
      var pred := lines[idx].pred;
      FindEqIsFirst(lines, idx + 1, Min(idx + WINDOW, |lines| - 1), pred);
      FindNeIsFirst(lines, idx + 1, Min(idx + WINDOW, |lines|), pred);
      forall b: nat
        ensures Fits(lines, id, idx, b)
                <==> if lines[idx].cmp.Eq? then idx < b < Min(idx + WINDOW, |lines| - 1) && EqBranchAt(lines, b, pred)
                     else idx < b < Min(idx + WINDOW, |lines|) && NeBranchAt(lines, b, pred)
      {
      }
    }
  }

  // The label that the selected id is sent to.
  function Fallback(lines: seq<Line>, idx: nat, b: nat): Name
    requires idx < b < |lines| && lines[idx].Setp? && lines[b].PredBra?
    requires lines[idx].cmp.Eq? ==> b + 1 < |lines| && lines[b + 1].BraUni?
  {
    if lines[idx].cmp.Eq? then lines[b + 1].target else lines[b].target
  }

  // The two lines that take the place of the branch: the old one as a comment, and the redirected one.
  function Replacement(lines: seq<Line>, idx: nat, b: nat): seq<Line>
    requires idx < b < |lines| && lines[idx].Setp? && lines[b].PredBra?
    requires lines[idx].cmp.Eq? ==> b + 1 < |lines| && lines[b + 1].BraUni?
  {
    if lines[idx].cmp.Eq? then [Comment, PredBra(lines[b].pred, Fallback(lines, idx, b))]
    else [Comment, BraUni(Fallback(lines, idx, b))]
  }

  function Singletons(lines: seq<Line>): (out: seq<seq<Line>>)
    ensures |out| == |lines| && forall i :: 0 <= i < |lines| ==> out[i] == [lines[i]]
  {
    seq(|lines|, i requires 0 <= i < |lines| => [lines[i]])
  }

  // The lines for each input line after the compares before n have been handled.
  function OutAfter(lines: seq<Line>, id: nat, n: nat): (out: seq<seq<Line>>)
    requires n <= |lines|
    ensures |out| == |lines|
  {
    if n == 0 then Singletons(lines) else
      match Chosen(lines, id, n - 1)
      case None => OutAfter(lines, id, n - 1)
      case Some(b) => OutAfter(lines, id, n - 1)[b := Replacement(lines, n - 1, b)]
  }

  function Redirected(lines: seq<Line>, id: nat): seq<Line> {
    Flatten(OutAfter(lines, id, |lines|))
  }

  function Redirects(lines: seq<Line>, id: nat, n: nat): nat
    requires n <= |lines|
  {
    if n == 0 then 0 else Redirects(lines, id, n - 1) + if Chosen(lines, id, n - 1).Some? then 1 else 0
  }

  method ScanForBranch(lines: seq<Line>, id: nat, idx: nat) returns (r: Option<nat>)
    requires idx < |lines| && IsDispatch(lines[idx], id)
    ensures r == Chosen(lines, id, idx)
    ensures match r
            case Some(b) => FitsFirst(lines, id, idx, b)
            case None => forall b: nat :: !Fits(lines, id, idx, b)
  {
    hide Fits;
    ChosenFitsFirst(lines, id, idx);
    var pred := lines[idx].pred;
    var k := idx + 1;
    if lines[idx].cmp.Eq? {
      var stop := Min(idx + WINDOW, |lines| - 1);
      while k < stop
        invariant FindEq(lines, idx + 1, stop, pred) == FindEq(lines, k, stop, pred)
      {
        if EqBranchAt(lines, k, pred) {
          return Some(k);
        }
        k := k + 1;
      }
    } else {
      var stop := Min(idx + WINDOW, |lines|);
      while k < stop
        invariant FindNe(lines, idx + 1, stop, pred) == FindNe(lines, k, stop, pred)
      {
        if NeBranchAt(lines, k, pred) {
          return Some(k);
        }
        k := k + 1;
      }
    }
    r := None;
  }

  method RedirectDirectDispatchToFallback(lines: seq<Line>, functionId: Option<nat>)
    returns (result: seq<Line>, redirects: nat)
    ensures functionId.None? ==> result == lines && redirects == 0
    ensures functionId.Some? ==>
      && result == Redirected(lines, functionId.value)
      && redirects == Redirects(lines, functionId.value, |lines|)
  {
    if functionId.None? {
      return lines, 0;
    }
    hide FindEq, FindNe, Replacement, Flatten, Singletons;
    var id := functionId.value;
    var out := Singletons(lines);
    redirects := 0;
    for idx := 0 to |lines|
      invariant out == OutAfter(lines, id, idx) && redirects == Redirects(lines, id, idx)
    {
      if IsDispatch(lines[idx], id) {
        var branch := ScanForBranch(lines, id, idx);
        if branch.Some? {
          out := out[branch.value := Replacement(lines, idx, branch.value)];
          redirects := redirects + 1;
        }
      }
    }
    result := Flatten(out);
  }

  // No compare from idx on, and before n, redirects branch b.
  ghost predicate NoneFits(lines: seq<Line>, id: nat, b: nat, idx: nat, n: nat)
    requires n <= |lines|
  {
    forall i :: idx <= i < n ==> !FitsFirst(lines, id, i, b)
  }

  // What takes the place of branch b: for an eq compare a branch on the same predicate to the label of the jump behind
  // it, for an ne compare a jump to its own label.
  ghost predicate IsRedirection(lines: seq<Line>, id: nat, idx: nat, b: nat, two: seq<Line>)
    requires idx < |lines|
  {
    && Fits(lines, id, idx, b)
    && two == [Comment, if lines[idx].cmp.Eq? then PredBra(lines[b].pred, lines[b + 1].target)
                        else BraUni(lines[b].target)]
  }

  lemma ReplacementIsRedirection(lines: seq<Line>, id: nat, idx: nat, b: nat)
    requires idx < |lines| && Chosen(lines, id, idx) == Some(b)
    ensures IsRedirection(lines, id, idx, b, Replacement(lines, idx, b))
  {
    hide Chosen;
    ChosenFitsFirst(lines, id, idx);
  }

  ghost predicate LineTold(lines: seq<Line>, id: nat, b: nat, n: nat, out: seq<Line>)
    requires n <= |lines| && b < |lines|
  {
    && (NoneFits(lines, id, b, 0, n) ==> out == [lines[b]])
    && (forall idx :: 0 <= idx < n && FitsFirst(lines, id, idx, b) && NoneFits(lines, id, b, idx + 1, n) ==>
          IsRedirection(lines, id, idx, b, out))
  }

  lemma LineKept(lines: seq<Line>, id: nat, b: nat, n: nat, out: seq<Line>)
    requires b < |lines| && n < |lines| && LineTold(lines, id, b, n, out) && !FitsFirst(lines, id, n, b)
    ensures LineTold(lines, id, b, n + 1, out)
  {
    hide FitsFirst, IsRedirection;
    assert NoneFits(lines, id, b, 0, n + 1) ==> NoneFits(lines, id, b, 0, n);
    forall idx | 0 <= idx < n && FitsFirst(lines, id, idx, b) && NoneFits(lines, id, b, idx + 1, n + 1)
      ensures IsRedirection(lines, id, idx, b, out)
    {
      assert NoneFits(lines, id, b, idx + 1, n);
    }
  }

  lemma LineReplaced(lines: seq<Line>, id: nat, b: nat, n: nat, two: seq<Line>)
    requires b < |lines| && n < |lines| && FitsFirst(lines, id, n, b) && IsRedirection(lines, id, n, b, two)
    ensures LineTold(lines, id, b, n + 1, two)
  {
    hide FitsFirst, IsRedirection;
  }

  lemma OutNext(lines: seq<Line>, id: nat, b: nat, n: nat)
    requires b < |lines| && n < |lines|
    ensures OutAfter(lines, id, n + 1)[b]
            == if Chosen(lines, id, n) == Some(b) then Replacement(lines, n, b) else OutAfter(lines, id, n)[b]
  {
    hide Chosen, Replacement;
  }

  lemma ChosenFits(lines: seq<Line>, id: nat, idx: nat, b: nat)
    requires idx < |lines|
    ensures Chosen(lines, id, idx) == Some(b) <==> FitsFirst(lines, id, idx, b)
  {
    hide FitsFirst, Chosen;
    ChosenFitsFirst(lines, id, idx);
  }

  lemma {:induction false} NothingReplaced(lines: seq<Line>, id: nat, b: nat)
    requires b < |lines|
    ensures LineTold(lines, id, b, 0, OutAfter(lines, id, 0)[b])
  {
    hide FitsFirst, IsRedirection;
  }

  lemma {:induction false} OutLine(lines: seq<Line>, id: nat, b: nat, n: nat)
    requires b < |lines| && n <= |lines|
    ensures LineTold(lines, id, b, n, OutAfter(lines, id, n)[b])
  {
    hide FitsFirst, Chosen, Replacement, IsRedirection, LineTold, OutAfter;
    if n == 0 {
      NothingReplaced(lines, id, b);
    } else {
      OutLine(lines, id, b, n - 1);
      OutNext(lines, id, b, n - 1);
      ChosenFits(lines, id, n - 1, b);
      if Chosen(lines, id, n - 1) == Some(b) {
        ReplacementIsRedirection(lines, id, n - 1, b);
        LineReplaced(lines, id, b, n - 1, Replacement(lines, n - 1, b));
      } else {
        LineKept(lines, id, b, n - 1, OutAfter(lines, id, n - 1)[b]);
      }
    }
  }

  /** The output line by line, told by the shape of the input: a branch that fits some compare first is commented out
      and redirected for the last such compare, and every other line is kept. */
  lemma RedirectedLines(lines: seq<Line>, id: nat) returns (out: seq<seq<Line>>)
    ensures |out| == |lines| && Redirected(lines, id) == Flatten(out)
    ensures forall b :: 0 <= b < |lines| ==> LineTold(lines, id, b, |lines|, out[b])
  {
    hide LineTold, Flatten;
    out := OutAfter(lines, id, |lines|);
    forall b | 0 <= b < |lines| ensures LineTold(lines, id, b, |lines|, out[b]) {
      OutLine(lines, id, b, |lines|);
    }
  }

  ghost predicate SomeFits(lines: seq<Line>, id: nat, idx: nat)
    requires idx < |lines|
  {
    exists b: nat :: Fits(lines, id, idx, b)
  }

  // The compares before n that some branch fits.
  ghost function Fitting(lines: seq<Line>, id: nat, n: nat): set<nat>
    requires n <= |lines|
  {
    set idx: nat | 0 <= idx < n && SomeFits(lines, id, idx)
  }

  lemma SomeFitsChosen(lines: seq<Line>, id: nat, idx: nat)
    requires idx < |lines|
    ensures SomeFits(lines, id, idx) <==> Chosen(lines, id, idx).Some?
  {
    hide Fits, FitsFirst, Chosen;
    ChosenFitsFirst(lines, id, idx);
  }

  /** And as many redirects are counted as there are compares that some branch fits. */
  lemma {:induction false} RedirectsCountFits(lines: seq<Line>, id: nat, n: nat)
    requires n <= |lines|
    ensures Redirects(lines, id, n) == |Fitting(lines, id, n)|
  {
    hide SomeFits, Chosen;
    if n == 0 {
      assert Fitting(lines, id, n) == {};
    } else {
      RedirectsCountFits(lines, id, n - 1);
      SomeFitsChosen(lines, id, n - 1);
      if SomeFits(lines, id, n - 1) {
        assert Fitting(lines, id, n) == Fitting(lines, id, n - 1) + {n - 1};
      } else {
        assert Fitting(lines, id, n) == Fitting(lines, id, n - 1);
      }
    }
  }

  // --- When the rewrite can be trusted ---

  // A line that leaves a predicate register alone and that control only enters from the line above.
  ghost predicate KeepsPred(w: World, line: Line, pred: Name) {
    && !line.Label?
    && (line.Setp? ==> line.pred != pred)
    && (line.Plain? ==> forall r: Regs :: w.effect(line.text, r).Pred(pred) == r.Pred(pred))
  }

  // The predicate is not redefined between a compare and the branch chosen for it, and nothing jumps in between.
  ghost predicate Clean(lines: seq<Line>, id: nat, w: World) {
    forall idx, k :: 0 <= idx < |lines| && Chosen(lines, id, idx).Some? && idx < k < Chosen(lines, id, idx).value
      ==> KeepsPred(w, lines[k], lines[idx].pred)
  }

  // Then at most one compare chooses a given branch.
  lemma OneChooser(lines: seq<Line>, id: nat, w: World, i: nat, j: nat)
    requires Clean(lines, id, w) && i < j < |lines|
    requires Chosen(lines, id, i).Some?
    ensures Chosen(lines, id, i) != Chosen(lines, id, j)
  {
    if j < Chosen(lines, id, i).value {
      assert KeepsPred(w, lines[j], lines[i].pred);
    }
  }

  // What the output holds for input line b.
  lemma {:induction false} OutAt(lines: seq<Line>, id: nat, w: World, n: nat, b: nat)
    requires Clean(lines, id, w) && n <= |lines| && b < |lines|
    ensures (forall idx :: 0 <= idx < n ==> Chosen(lines, id, idx) != Some(b))
      ==> OutAfter(lines, id, n)[b] == [lines[b]]
    ensures forall idx :: 0 <= idx < n && Chosen(lines, id, idx) == Some(b) ==>
              OutAfter(lines, id, n)[b] == Replacement(lines, idx, b)
  {
    hide Replacement, Chosen, KeepsPred;
    if n > 0 {
      OutAt(lines, id, w, n - 1, b);
      if Chosen(lines, id, n - 1) == Some(b) {
        forall idx | 0 <= idx < n - 1 ensures Chosen(lines, id, idx) != Some(b) {
          if Chosen(lines, id, idx).Some? {
            OneChooser(lines, id, w, idx, n - 1);
          }
        }
      } else {
        assert OutAfter(lines, id, n)[b] == OutAfter(lines, id, n - 1)[b];
      }
    }
  }

  // An input line is kept, or it is a chosen branch.
  lemma OutShape(lines: seq<Line>, id: nat, w: World, b: nat) returns (idx: int)
    requires Clean(lines, id, w) && b < |lines|
    ensures -1 <= idx < |lines|
    ensures idx == -1 ==> OutAfter(lines, id, |lines|)[b] == [lines[b]]
    ensures idx >= 0 ==>
      Chosen(lines, id, idx) == Some(b) && OutAfter(lines, id, |lines|)[b] == Replacement(lines, idx, b)
  {
    OutAt(lines, id, w, |lines|, b);
    idx := -1;
    if exists i :: 0 <= i < |lines| && Chosen(lines, id, i) == Some(b) {
      idx :| 0 <= idx < |lines| && Chosen(lines, id, idx) == Some(b);
    }
  }

  // --- Runs of the input and of the output ---

  function Out(lines: seq<Line>, id: nat): (out: seq<seq<Line>>)
    ensures |out| == |lines|
  {
    OutAfter(lines, id, |lines|)
  }

  // Nothing before the place of line i carries a label that the input does not carry before line i.
  lemma NoEarlierLabel(lines: seq<Line>, id: nat, w: World, name: Name, i: nat, k: nat)
    requires Clean(lines, id, w) && i <= |lines| && k < Pos(Out(lines, id), i)
    requires forall j :: 0 <= j < i ==> lines[j] != Label(name)
    ensures k < |Redirected(lines, id)| && Redirected(lines, id)[k] != Label(name)
  {
    var out := Out(lines, id);
    FlattenMonotone(out, i, |lines|);
    var b, j := FlattenOrigin(out, k);
    if i <= b {
      FlattenMonotone(out, i, b);
    }
    var chosen := OutShape(lines, id, w, b);
  }

  // Labels keep their order, so a target is found at the corresponding place.
  lemma {:induction false} FindLifts(lines: seq<Line>, id: nat, w: World, name: Name)
    requires Clean(lines, id, w)
    ensures Find(Redirected(lines, id), name) == Pos(Out(lines, id), Find(lines, name))
    ensures Find(lines, name) < |lines| <==> Find(Redirected(lines, id), name) < |Redirected(lines, id)|
  {
    var out, q, i := Out(lines, id), Redirected(lines, id), Find(lines, name);
    FlattenAll(out);
    FlattenMonotone(out, i, |lines|);
    if i < |lines| {
      var chosen := OutShape(lines, id, w, i);
      FlattenAt(out, i);
      assert q[Pos(out, i)] == q[Pos(out, i)..Pos(out, i + 1)][0];
    }
    forall k | 0 <= k < Pos(out, i) ensures q[k] != Label(name) {
      NoEarlierLabel(lines, id, w, name, i, k);
    }
    FindIs(q, name, Pos(out, i));
  }

  lemma TargetLifts(lines: seq<Line>, id: nat, w: World, name: Name)
    requires Clean(lines, id, w)
    ensures LabelLifts(lines, Out(lines, id), name)
  {
    hide Clean, Find;
    FindLifts(lines, id, w, name);
  }

  // A kept line does the same in both programs.
  lemma KeptLineLifts(lines: seq<Line>, id: nat, w: World, s: State)
    requires Clean(lines, id, w) && s.status.Running? && s.pc < |lines|
    requires Out(lines, id)[s.pc] == [lines[s.pc]]
    ensures Step(lines, w, s).pc <= |lines|
    ensures Step(Redirected(lines, id), w, Lift(Out(lines, id), s)) == Lift(Out(lines, id), Step(lines, w, s))
  {
    hide Step, Lift, Effect, LabelLifts;
    var o := Effect(w, s, lines[s.pc]);
    if o.Goto? {
      TargetLifts(lines, id, w, o.target);
    }
    CopiedLineLifts(lines, Out(lines, id), w, s);
  }

  lemma ReplacedLines(lines: seq<Line>, id: nat, w: World, idx: nat, b: nat)
    requires Clean(lines, id, w) && idx < |lines| && Chosen(lines, id, idx) == Some(b)
    ensures var q, at := Redirected(lines, id), Pos(Out(lines, id), b);
            && at + 1 < |q| && Pos(Out(lines, id), b + 1) == at + 2
            && q[at] == Comment && q[at + 1] == Replacement(lines, idx, b)[1]
  {
    var out, q := Out(lines, id), Redirected(lines, id);
    OutAt(lines, id, w, |lines|, b);
    FlattenAt(out, b);
    var two := q[Pos(out, b)..Pos(out, b + 1)];
    assert q[Pos(out, b)] == two[0] && q[Pos(out, b) + 1] == two[1];
  }

  // The two lines that replace a branch: a comment that does nothing, then the redirected branch.
  lemma {:induction false} ReplacedBranchRuns(lines: seq<Line>, id: nat, w: World, idx: nat, s: State)
    requires Clean(lines, id, w) && idx < |lines| && Chosen(lines, id, idx) == Some(s.pc) && s.status.Running?
    ensures var q, l := Redirected(lines, id), Lift(Out(lines, id), s);
            && Pos(Out(lines, id), s.pc + 1) == l.pc + 2
            && Run(q, w, l, 2) == Land(q, Next(l), Effect(w, l, Replacement(lines, idx, s.pc)[1]))
  {
    ReplacedLines(lines, id, w, idx, s.pc);
    CommentThen(Redirected(lines, id), w, Lift(Out(lines, id), s), Replacement(lines, idx, s.pc)[1]);
  }

  // The branch that a compare redirects is a branch on its predicate.
  lemma BranchStep(lines: seq<Line>, id: nat, w: World, idx: nat, s: State)
    requires idx < |lines| && Chosen(lines, id, idx) == Some(s.pc) && s.status.Running?
    ensures s.pc < |lines| && lines[s.pc].PredBra?
    ensures Step(lines, w, s) == if s.regs.Pred(lines[idx].pred) then Jump(lines, s, lines[s.pc].target) else Next(s)
  {
    StepAt(lines, w, s, lines[s.pc]);
  }

  lemma {:induction false} NotTakenFalls(lines: seq<Line>, id: nat, w: World, idx: nat, s: State)
    requires Clean(lines, id, w) && idx < |lines| && Chosen(lines, id, idx) == Some(s.pc) && s.status.Running?
    requires lines[idx].cmp.Eq? && !s.regs.Pred(lines[idx].pred)
    ensures Run(Redirected(lines, id), w, Lift(Out(lines, id), s), 2) == Lift(Out(lines, id), Next(s))
  {
    ReplacedBranchRuns(lines, id, w, idx, s);
  }

  lemma {:induction false} TakenGoesToFallback(lines: seq<Line>, id: nat, w: World, idx: nat, s: State)
    requires Clean(lines, id, w) && idx < |lines| && Chosen(lines, id, idx) == Some(s.pc) && s.status.Running?
    requires lines[idx].cmp.Ne? || s.regs.Pred(lines[idx].pred)
    ensures Run(Redirected(lines, id), w, Lift(Out(lines, id), s), 2)
            == Lift(Out(lines, id), Jump(lines, s, Fallback(lines, idx, s.pc)))
  {
    ReplacedBranchRuns(lines, id, w, idx, s);
    FindLifts(lines, id, w, Fallback(lines, idx, s.pc));
    FlattenAll(Out(lines, id));
  }

  // --- Runs with another funcId ---

  // Between a compare that found another id and its branch, the predicate says so.
  ghost predicate OtherId(lines: seq<Line>, id: nat, s: State) {
    forall idx :: 0 <= idx < |lines| && Chosen(lines, id, idx).Some? && idx < s.pc <= Chosen(lines, id, idx).value
      ==> s.regs.Pred(lines[idx].pred) == lines[idx].cmp.Ne?
  }

  // The compare about to run, if any, sees another id than the selected one.
  ghost predicate SeesOtherId(lines: seq<Line>, id: nat, s: State) {
    s.status.Running? && s.pc < |lines| && Chosen(lines, id, s.pc).Some? ==> s.regs.Val(lines[s.pc].src) != id
  }

  lemma EffectKeepsPred(w: World, s: State, line: Line, pred: Name)
    requires KeepsPred(w, line, pred)
    ensures Effect(w, s, line).Fall? ==> Effect(w, s, line).regs.Pred(pred) == s.regs.Pred(pred)
  {
  }

  lemma OtherIdStep(lines: seq<Line>, id: nat, w: World, s: State)
    requires Clean(lines, id, w) && OtherId(lines, id, s) && SeesOtherId(lines, id, s)
    ensures OtherId(lines, id, Step(lines, w, s))
  {
    if s.status.Running? && s.pc < |lines| {
      var t := Step(lines, w, s);
      forall idx | 0 <= idx < |lines| && Chosen(lines, id, idx).Some? && idx < t.pc <= Chosen(lines, id, idx).value
        ensures t.regs.Pred(lines[idx].pred) == lines[idx].cmp.Ne?
      {
        OtherIdStepAt(lines, id, w, s, idx);
      }
    }
  }

  // Control does not jump in between a compare and its branch.
  lemma NoEntry(lines: seq<Line>, id: nat, w: World, idx: nat, k: nat)
    requires Clean(lines, id, w) && idx < |lines| && Chosen(lines, id, idx).Some?
    requires idx < k <= Chosen(lines, id, idx).value
    ensures !lines[k].Label?
  {
    if k < Chosen(lines, id, idx).value {
      assert KeepsPred(w, lines[k], lines[idx].pred);
    }
  }

  lemma OtherIdStepAt(lines: seq<Line>, id: nat, w: World, s: State, idx: nat)
    requires Clean(lines, id, w) && OtherId(lines, id, s) && SeesOtherId(lines, id, s)
    requires s.status.Running? && s.pc < |lines| && idx < |lines|
    requires Chosen(lines, id, idx).Some? && idx < Step(lines, w, s).pc <= Chosen(lines, id, idx).value
    ensures Step(lines, w, s).regs.Pred(lines[idx].pred) == lines[idx].cmp.Ne?
  {
    var t, o := Step(lines, w, s), Effect(w, s, lines[s.pc]);
    match o
    case Fall(_, _, _) =>
      if idx < s.pc {
        assert KeepsPred(w, lines[s.pc], lines[idx].pred);
        EffectKeepsPred(w, s, lines[s.pc], lines[idx].pred);
      }
    case Goto(target) =>
      NoEntry(lines, id, w, idx, t.pc);
    case Halt(_) =>
  }

  // One step of the input is one step of the output, or two where a branch was redirected.
  lemma OtherIdStepLifts(lines: seq<Line>, id: nat, w: World, s: State) returns (k: nat)
    requires Clean(lines, id, w) && OtherId(lines, id, s) && s.pc <= |lines|
    ensures 1 <= k <= 2 && Step(lines, w, s).pc <= |lines|
    ensures Run(Redirected(lines, id), w, Lift(Out(lines, id), s), k) == Lift(Out(lines, id), Step(lines, w, s))
  {
    var q, l := Redirected(lines, id), Lift(Out(lines, id), s);
    k := 1;
    RunOne(q, w, l);
    if s.status.Running? && s.pc < |lines| {
      var idx := OutShape(lines, id, w, s.pc);
      if idx == -1 {
        KeptLineLifts(lines, id, w, s);
      } else {
        k := 2;
        ReplacedBranchAgrees(lines, id, w, idx, s);
      }
    } else {
      FlattenAll(Out(lines, id));
    }
  }

  lemma {:induction false} ReplacedBranchAgrees(lines: seq<Line>, id: nat, w: World, idx: nat, s: State)
    requires Clean(lines, id, w) && OtherId(lines, id, s) && s.status.Running?
    requires idx < |lines| && Chosen(lines, id, idx) == Some(s.pc)
    ensures Step(lines, w, s).pc <= |lines|
    ensures Run(Redirected(lines, id), w, Lift(Out(lines, id), s), 2) == Lift(Out(lines, id), Step(lines, w, s))
  {
    hide Step, Run, Clean, Redirected, Out, Lift;
    assert s.regs.Pred(lines[idx].pred) == lines[idx].cmp.Ne?;
    BranchStep(lines, id, w, idx, s);
    if lines[idx].cmp.Ne? {
      TakenGoesToFallback(lines, id, w, idx, s);
    } else {
      NotTakenFalls(lines, id, w, idx, s);
    }
  }

  // No dispatch compare of the first n steps sees the selected id.
  ghost predicate SeesOtherIds(lines: seq<Line>, id: nat, w: World, s: State, n: nat) {
    forall j :: 0 <= j < n ==> SeesOtherId(lines, id, Run(lines, w, s, j))
  }

  lemma {:induction false} OtherIdStays(lines: seq<Line>, id: nat, w: World, s: State, n: nat)
    requires Clean(lines, id, w) && OtherId(lines, id, s) && SeesOtherIds(lines, id, w, s, n)
    ensures OtherId(lines, id, Run(lines, w, s, n))
  {
    hide Step;
    if n > 0 {
      OtherIdStays(lines, id, w, s, n - 1);
      OtherIdStep(lines, id, w, Run(lines, w, s, n - 1));
      RunLast(lines, w, s, n - 1);
    }
  }

  /** A run in which every dispatch compare sees another funcId is, comments aside, the same run of the
      rewritten program: the same registers, calls and outcome at corresponding places, step by step. */
  lemma {:induction false} OtherRunsUnchanged(lines: seq<Line>, id: nat, w: World, s: State, n: nat) returns (m: nat)
    requires Clean(lines, id, w) && OtherId(lines, id, s) && s.pc <= |lines|
    requires SeesOtherIds(lines, id, w, s, n)
    ensures n <= m <= 2 * n && Run(lines, w, s, n).pc <= |lines|
    ensures Run(Redirected(lines, id), w, Lift(Out(lines, id), s), m) == Lift(Out(lines, id), Run(lines, w, s, n))
    decreases n
  {
    hide Step, Clean, Lift, Redirected, Out, OtherId, SeesOtherId;
    m := 0;
    if n > 0 {
      m := OtherRunsUnchanged(lines, id, w, s, n - 1);
      OtherIdStays(lines, id, w, s, n - 1);
      var k := OtherIdStepLifts(lines, id, w, Run(lines, w, s, n - 1));
      RunAdd(Redirected(lines, id), w, Lift(Out(lines, id), s), m, k);
      RunLast(lines, w, s, n - 1);
      m := m + k;
    }
  }

  // --- Runs with the selected funcId ---

  // A line that is not a predicated branch is kept.
  lemma OthersKept(lines: seq<Line>, id: nat, w: World, b: nat)
    requires Clean(lines, id, w) && b < |lines| && !lines[b].PredBra?
    ensures Out(lines, id)[b] == [lines[b]]
  {
    var idx := OutShape(lines, id, w, b);
  }

  // An eq branch that is not taken falls to the jump behind it.
  lemma {:induction false} NotTakenGoesToFallback(lines: seq<Line>, id: nat, w: World, idx: nat, s: State)
    requires Clean(lines, id, w) && idx < |lines| && Chosen(lines, id, idx) == Some(s.pc) && s.status.Running?
    requires lines[idx].cmp.Eq? && !s.regs.Pred(lines[idx].pred)
    ensures Run(Redirected(lines, id), w, Lift(Out(lines, id), s), 3)
            == Lift(Out(lines, id), Jump(lines, s, Fallback(lines, idx, s.pc)))
  {
    NotTakenFalls(lines, id, w, idx, s);
    OthersKept(lines, id, w, s.pc + 1);
    KeptLineLifts(lines, id, w, Next(s));
    StepAt(lines, w, Next(s), BraUni(Fallback(lines, idx, s.pc)));
    RunLast(Redirected(lines, id), w, Lift(Out(lines, id), s), 2);
  }

  /** Whatever the predicate says, the rewritten branch ends at the fallback label with registers and calls
      as they were: in two steps, or in three through the jump that follows it. */
  lemma RedirectedBranchGoesToFallback(lines: seq<Line>, id: nat, w: World, idx: nat, s: State) returns (m: nat)
    requires Clean(lines, id, w) && idx < |lines| && FitsFirst(lines, id, idx, s.pc) && s.status.Running?
    ensures 2 <= m <= 3
    ensures var fallback := if lines[idx].cmp.Eq? then lines[s.pc + 1].target else lines[s.pc].target;
            Run(Redirected(lines, id), w, Lift(Out(lines, id), s), m) == Lift(Out(lines, id), Jump(lines, s, fallback))
  {
    ChosenFitsFirst(lines, id, idx);
    if lines[idx].cmp.Eq? && !s.regs.Pred(lines[idx].pred) {
      NotTakenGoesToFallback(lines, id, w, idx, s);
      m := 3;
    } else {
      TakenGoesToFallback(lines, id, w, idx, s);
      m := 2;
    }
  }

  // The input falls through n lines from s, none of which is redirected.
  ghost predicate FallsThrough(lines: seq<Line>, id: nat, w: World, s: State, n: nat) {
    && s.pc + n < |lines|
    && (forall j :: 0 <= j <= n ==> Run(lines, w, s, j).pc == s.pc + j && Run(lines, w, s, j).status.Running?)
    && (forall k :: s.pc <= k < s.pc + n ==> Out(lines, id)[k] == [lines[k]])
  }

  lemma {:induction false} FallThroughLifts(lines: seq<Line>, id: nat, w: World, s: State, n: nat)
    requires Clean(lines, id, w) && FallsThrough(lines, id, w, s, n)
    ensures Run(Redirected(lines, id), w, Lift(Out(lines, id), s), n) == Lift(Out(lines, id), Run(lines, w, s, n))
    decreases n
  {
    assert Run(lines, w, s, 0) == s;
    if n > 0 {
      hide Step, Redirected, Out, Lift;
      var t := Step(lines, w, s);
      KeptLineLifts(lines, id, w, s);
      RunOne(lines, w, s);
      assert Run(lines, w, s, 1).pc == s.pc + 1;
      forall j | 0 <= j <= n - 1 ensures Run(lines, w, t, j).pc == t.pc + j && Run(lines, w, t, j).status.Running? {
        assert Run(lines, w, s, j + 1) == Run(lines, w, t, j);
      }
      FallThroughLifts(lines, id, w, t, n - 1);
    }
  }

  lemma {:induction false} FallThroughEnd(lines: seq<Line>, id: nat, w: World, s: State, n: nat)
    requires FallsThrough(lines, id, w, s, n)
    ensures Run(lines, w, s, n).pc == s.pc + n && Run(lines, w, s, n).status.Running?
  {
  }

  lemma {:induction false} ChosenRunsGoToFallback(lines: seq<Line>, id: nat, w: World, s: State, b: nat)
    requires Clean(lines, id, w) && s.pc < b < |lines|
    requires Chosen(lines, id, s.pc) == Some(b) && s.regs.Val(lines[s.pc].src) == id
    requires FallsThrough(lines, id, w, s, b - s.pc)
    ensures Run(Redirected(lines, id), w, Lift(Out(lines, id), s), b - s.pc + 2)
            == Lift(Out(lines, id), Jump(lines, Run(lines, w, s, b - s.pc), Fallback(lines, s.pc, b)))
  {
    hide Step, Run, Clean, Redirected, Out, Jump, Lift, FallsThrough;
    var n := b - s.pc;
    var at := Run(lines, w, s, n);
    FallThroughLifts(lines, id, w, s, n);
    FallThroughEnd(lines, id, w, s, n);
    PredSurvives(lines, id, w, s, n);
    TakenGoesToFallback(lines, id, w, s.pc, at);
    RunAdd(Redirected(lines, id), w, Lift(Out(lines, id), s), n, 2);
  }

  /** A run whose compare sees the selected funcId arrives, in the rewritten program, at the fallback label, with
      the registers and calls that the input has at the branch. */
  lemma {:induction false} SelectedRunsGoToFallback(lines: seq<Line>, id: nat, w: World, s: State, b: nat)
    requires Clean(lines, id, w) && s.pc < b < |lines|
    requires FitsFirst(lines, id, s.pc, b) && s.regs.Val(lines[s.pc].src) == id
    requires FallsThrough(lines, id, w, s, b - s.pc)
    ensures var fallback := if lines[s.pc].cmp.Eq? then lines[b + 1].target else lines[b].target;
            Run(Redirected(lines, id), w, Lift(Out(lines, id), s), b - s.pc + 2)
            == Lift(Out(lines, id), Jump(lines, Run(lines, w, s, b - s.pc), fallback))
  {
    hide Chosen, Step, Run, Clean, Redirected, Out, Jump, Lift, FallsThrough;
    ChosenFitsFirst(lines, id, s.pc);
    ChosenRunsGoToFallback(lines, id, w, s, b);
  }

  /** Such a run of the input leaves the fallback aside: it takes the other branch of an eq compare, and falls
      through an ne compare. */
  lemma {:induction false} SelectedRunsWereDirect(lines: seq<Line>, id: nat, w: World, s: State, b: nat)
    requires Clean(lines, id, w) && s.pc < b < |lines|
    requires FitsFirst(lines, id, s.pc, b) && s.regs.Val(lines[s.pc].src) == id
    requires FallsThrough(lines, id, w, s, b - s.pc)
    ensures var at := Run(lines, w, s, b - s.pc);
            Step(lines, w, at) == if lines[s.pc].cmp.Eq? then Jump(lines, at, lines[b].target) else Next(at)
  {
    hide Chosen, Run, FallsThrough, Clean, Step, Jump;
    ChosenFitsFirst(lines, id, s.pc);
    var at := Run(lines, w, s, b - s.pc);
    PredSurvives(lines, id, w, s, b - s.pc);
    FallThroughEnd(lines, id, w, s, b - s.pc);
    BranchStep(lines, id, w, s.pc, at);
  }

  lemma PredSurvivesStep(lines: seq<Line>, id: nat, w: World, idx: nat, t: State)
    requires Clean(lines, id, w) && idx < |lines| && Chosen(lines, id, idx).Some?
    requires idx < t.pc < Chosen(lines, id, idx).value && t.status.Running?
    requires Step(lines, w, t).pc == t.pc + 1 && Step(lines, w, t).status.Running?
    ensures Step(lines, w, t).regs.Pred(lines[idx].pred) == t.regs.Pred(lines[idx].pred)
  {
    assert KeepsPred(w, lines[t.pc], lines[idx].pred);
    EffectKeepsPred(w, t, lines[t.pc], lines[idx].pred);
    StepAt(lines, w, t, lines[t.pc]);
  }

  lemma CompareSets(lines: seq<Line>, id: nat, w: World, s: State)
    requires s.pc < |lines| && Chosen(lines, id, s.pc).Some? && s.status.Running?
    requires s.regs.Val(lines[s.pc].src) == id
    ensures Step(lines, w, s).regs.Pred(lines[s.pc].pred) == lines[s.pc].cmp.Eq?
  {
  }

  // After the compare the predicate tells that the selected id was seen, up to the branch.
  lemma {:induction false} PredSurvives(lines: seq<Line>, id: nat, w: World, s: State, n: nat)
    requires Clean(lines, id, w) && s.pc < |lines| && Chosen(lines, id, s.pc).Some?
    requires 0 < n <= Chosen(lines, id, s.pc).value - s.pc && FallsThrough(lines, id, w, s, n)
    requires s.regs.Val(lines[s.pc].src) == id
    ensures Run(lines, w, s, n).regs.Pred(lines[s.pc].pred) == lines[s.pc].cmp.Eq?
  {
    hide Step;
    RunLast(lines, w, s, n - 1);
    assert Run(lines, w, s, 0) == s && Run(lines, w, s, 0).status.Running?;
    assert Run(lines, w, s, n - 1).pc == s.pc + n - 1 && Run(lines, w, s, n - 1).status.Running?;
    assert Run(lines, w, s, n).pc == s.pc + n && Run(lines, w, s, n).status.Running?;
    if n == 1 {
      CompareSets(lines, id, w, s);
    } else {
      PredSurvives(lines, id, w, s, n - 1);
      PredSurvivesStep(lines, id, w, s.pc, Run(lines, w, s, n - 1));
    }
  }
}
