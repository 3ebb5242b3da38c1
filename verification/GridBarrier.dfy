/** The counter and sense barrier across the CTAs of one launch (latency.probe, end of ptp_metrics),
    as a transition system over every interleaving of thread 0 of each CTA.

    The host zeroes both words when a module is loaded; launches on one rank are sequential, so each
    launch finds the counter as the previous one left it and the sense word at any value. */
module GridBarrier {
  import opened Limits
  import opened Words

  type Count = n: nat | n < TWO32

  // `found` is what the atomic add returned; `gaveUp` tells the last poll from a changed sense.
  datatype Cta =
    | Entering
    | Read(sense: Count)
    | Added(sense: Count, found: Count)
    | Waiting(sense: Count, misses: nat)
    | Releasing
    | Published
    | Left(released: bool, gaveUp: bool)

  // `last` is history: the CTA whose add completed the count, or -1.
  datatype State = State(counter: Count, sense: Count, ctas: seq<Cta>, last: int)

  function Enter(n: nat, counter: Count, sense: Count): State {
    State(counter, sense, seq(n, _ => Entering), -1)
  }

  // One access by CTA c; a CTA that has left takes no more steps.
  function Step(s: State, c: nat): State
    requires c < |s.ctas|
  {
    match s.ctas[c]
    case Entering => s.(ctas := s.ctas[c := Read(s.sense)])
    case Read(sense) =>
      State((s.counter + 1) % TWO32, s.sense, s.ctas[c := Added(sense, s.counter)],
            if s.counter == |s.ctas| - 1 then c else s.last)
    case Added(sense, found) =>
      // the last arrival, by the count it found, releases; every other one waits
      s.(ctas := s.ctas[c := if found == (|s.ctas| - 1) % TWO32 then Releasing else Waiting(sense, 0)])
    case Releasing => s.(counter := 0, ctas := s.ctas[c := Published])
    case Published => s.(sense := (s.sense + 1) % TWO32, ctas := s.ctas[c := Left(true, false)])
    case Waiting(sense, misses) =>
      s.(ctas := s.ctas[c := if s.sense != sense then Left(false, false)
                             else if misses + 1 < POLL_LIMIT then Waiting(sense, misses + 1)
                             else Left(false, true)])
    case Left(_, _) => s
  }

  function Run(s: State, schedule: seq<nat>): (t: State)
    requires forall i :: 0 <= i < |schedule| ==> schedule[i] < |s.ctas|
    ensures |t.ctas| == |s.ctas|
  {
    if schedule == [] then s else Step(Run(s, schedule[..|schedule| - 1]), schedule[|schedule| - 1])
  }

  // --- Counting arrivals and releases ---

  predicate Arrived(c: Cta) {
    !c.Entering? && !c.Read?
  }

  // The CTA whose add found the others already counted.
  predicate IsLast(c: Cta, n: nat) {
    (c.Added? && c.found == n - 1) || c.Releasing? || c.Published? || (c.Left? && c.released)
  }

  function Arrivals(ctas: seq<Cta>): (n: nat)
    ensures n <= |ctas|
  {
    if ctas == [] then 0 else Arrivals(ctas[..|ctas| - 1]) + if Arrived(ctas[|ctas| - 1]) then 1 else 0
  }

  lemma {:induction false} ArrivalsUpdate(ctas: seq<Cta>, c: nat, to: Cta)
    requires c < |ctas|
    ensures Arrivals(ctas[c := to]) ==
            Arrivals(ctas) + (if Arrived(to) then 1 else 0) - (if Arrived(ctas[c]) then 1 else 0)
  {
    var n := |ctas| - 1;
    if c == n {
      assert ctas[c := to][..n] == ctas[..n];
    } else {
      assert ctas[c := to][..n] == ctas[..n][c := to];
      ArrivalsUpdate(ctas[..n], c, to);
    }
  }

  lemma {:induction false} AllArrived(ctas: seq<Cta>)
    ensures Arrivals(ctas) == |ctas| <==> forall c :: 0 <= c < |ctas| ==> Arrived(ctas[c])
  {
    if ctas != [] {
      var n := |ctas| - 1;
      AllArrived(ctas[..n]);
      assert forall c :: 0 <= c < n ==> ctas[..n][c] == ctas[c];
    }
  }

  lemma {:induction false} NoneArrived(n: nat)
    ensures Arrivals(seq(n, _ => Entering)) == 0
  {
    if n > 0 {
      NoneArrived(n - 1);
      assert seq<Cta>(n, _ => Entering)[..n - 1] == seq<Cta>(n - 1, _ => Entering);
    }
  }

  // How far the release has gone: nobody has completed the count, the count is full, the counter is zero
  // again, the sense has changed.
  datatype Stage = Filling | Full | Zeroed | Opened

  function StageOf(s: State): Stage {
    if !(0 <= s.last < |s.ctas|) then Filling else
      match s.ctas[s.last]
      case Published => Zeroed
      case Left(_, _) => Opened
      case _ => Full
  }

  // What is true of one CTA at each stage.
  ghost predicate CtaInv(s: State, c: nat, start: Count)
    requires c < |s.ctas|
  {
    var cta := s.ctas[c];
    && (IsLast(cta, |s.ctas|) <==> c == s.last)
    && (cta.Read? || cta.Waiting? || cta.Added? ==> cta.sense == start)
    && (cta.Added? ==> cta.found < |s.ctas|)
    && (cta == Left(false, false) ==> StageOf(s).Opened?)
    && (cta.Left? && cta.released ==> !cta.gaveUp)
  }

  ghost predicate Inv(s: State, start: Count) {
    && 0 < |s.ctas| < TWO32
    && -1 <= s.last < |s.ctas|
    && (s.last >= 0 <==> Arrivals(s.ctas) == |s.ctas|)
    && (forall c :: 0 <= c < |s.ctas| ==> CtaInv(s, c, start))
    && s.counter == (if StageOf(s).Filling? || StageOf(s).Full? then Arrivals(s.ctas) else 0)
    && s.sense == (if StageOf(s).Opened? then (start + 1) % TWO32 else start)
  }

  lemma StageStep(s: State, c: nat, start: Count)
    requires Inv(s, start) && c < |s.ctas|
    ensures var from, to := StageOf(s), StageOf(Step(s, c));
            to == from || (from.Filling? && to.Full?) || (from.Full? && to.Zeroed?) || (from.Zeroed? && to.Opened?)
    ensures Step(s, c).last == s.last || (s.last == -1 && Step(s, c).last == c && s.ctas[c].Read?)
    ensures StageOf(s) != StageOf(Step(s, c)) ==> Step(s, c).last == c
  {
    assert CtaInv(s, c, start);
    ArrivalsUpdate(s.ctas, c, Step(s, c).ctas[c]);
  }

  lemma CtaStep(s: State, c: nat, start: Count, d: nat)
    requires Inv(s, start) && c < |s.ctas| && d < |s.ctas|
    ensures CtaInv(Step(s, c), d, start)
  {
    assert CtaInv(s, c, start) && CtaInv(s, d, start);
    StageStep(s, c, start);
    AllArrived(s.ctas);
  }

  lemma StepKeepsInv(s: State, c: nat, start: Count)
    requires Inv(s, start) && c < |s.ctas|
    ensures Inv(Step(s, c), start)
  {
    var t := Step(s, c);
    ArrivalsUpdate(s.ctas, c, t.ctas[c]);
    AllArrived(s.ctas);
    assert CtaInv(s, c, start);
    forall d | 0 <= d < |s.ctas| ensures CtaInv(t, d, start) {
      CtaStep(s, c, start, d);
    }
  }

  lemma {:induction false} RunKeepsInv(s: State, schedule: seq<nat>, start: Count)
    requires Inv(s, start) && forall i :: 0 <= i < |schedule| ==> schedule[i] < |s.ctas|
    ensures Inv(Run(s, schedule), start)
  {
    if schedule != [] {
      RunKeepsInv(s, schedule[..|schedule| - 1], start);
      StepKeepsInv(Run(s, schedule[..|schedule| - 1]), schedule[|schedule| - 1], start);
    }
  }

  lemma EnterInv(n: nat, start: Count)
    requires 0 < n < TWO32
    ensures Inv(Enter(n, 0, start), start)
  {
    NoneArrived(n);
  }

  predicate AllLeft(s: State) {
    forall c :: 0 <= c < |s.ctas| ==> s.ctas[c].Left?
  }

  /** No CTA leaves because the sense changed before all of them have arrived. */
  lemma {:induction false} LeavingMeansAllArrived(n: nat, start: Count, schedule: seq<nat>, c: nat)
    requires 0 < n < TWO32 && c < n && forall i :: 0 <= i < |schedule| ==> schedule[i] < n
    ensures var s := Run(Enter(n, 0, start), schedule);
            s.ctas[c].Left? && !s.ctas[c].gaveUp ==> forall d :: 0 <= d < n ==> Arrived(s.ctas[d])
  {
    EnterInv(n, start);
    RunKeepsInv(Enter(n, 0, start), schedule, start);
    var s := Run(Enter(n, 0, start), schedule);
    assert CtaInv(s, c, start);
    AllArrived(s.ctas);
  }

  /** At no point of any run have two CTAs released the barrier. Once all have left, exactly one has, the counter is
      zero again and the sense has moved by one, so the next launch enters as this one did. */
  lemma ExactlyOneReleases(n: nat, start: Count, schedule: seq<nat>) returns (who: nat)
    requires 0 < n < TWO32 && forall i :: 0 <= i < |schedule| ==> schedule[i] < n
    ensures var s := Run(Enter(n, 0, start), schedule);
            && (forall c, d :: 0 <= c < n && 0 <= d < n && s.ctas[c] == s.ctas[d] == Left(true, false) ==> c == d)
            && (AllLeft(s) ==>
                  && who < n && s.ctas[who] == Left(true, false)
                  && s.counter == 0 && s.sense == (start + 1) % TWO32)
  {
    EnterInv(n, start);
    RunKeepsInv(Enter(n, 0, start), schedule, start);
    var s := Run(Enter(n, 0, start), schedule);
    forall c | 0 <= c < n && s.ctas[c] == Left(true, false) ensures c == s.last {
      assert CtaInv(s, c, start);
    }
    who := 0;
    if AllLeft(s) {
      AllArrived(s.ctas);
      who := s.last;
      assert CtaInv(s, who, start);
    }
  }

  // One launch after another: each enters with the two words the one before has left.
  datatype Launch = Launch(n: nat, schedule: seq<nat>)
  datatype Memory = Memory(counter: Count, sense: Count)

  predicate WellFormed(l: Launch) {
    0 < l.n < TWO32 && forall i :: 0 <= i < |l.schedule| ==> l.schedule[i] < l.n
  }

  function Last(l: Launch, w: Memory): State
    requires WellFormed(l)
  {
    Run(Enter(l.n, w.counter, w.sense), l.schedule)
  }

  function LeftBehind(launches: seq<Launch>): Memory
    requires forall i :: 0 <= i < |launches| ==> WellFormed(launches[i])
  {
    if launches == [] then Memory(0, 0) else
      var s := Last(launches[|launches| - 1], LeftBehind(launches[..|launches| - 1]));
      Memory(s.counter, s.sense)
  }

  predicate Completed(launches: seq<Launch>)
    requires forall i :: 0 <= i < |launches| ==> WellFormed(launches[i])
  {
    launches == [] ||
    (&& Completed(launches[..|launches| - 1])
     && AllLeft(Last(launches[|launches| - 1], LeftBehind(launches[..|launches| - 1]))))
  }

  lemma OneLaunchResets(l: Launch, sense: Count)
    requires WellFormed(l) && AllLeft(Last(l, Memory(0, sense)))
    ensures Last(l, Memory(0, sense)).counter == 0 && Last(l, Memory(0, sense)).sense == (sense + 1) % TWO32
  {
    var who := ExactlyOneReleases(l.n, sense, l.schedule);
  }

  lemma NextModulo(k: nat)
    ensures (k % TWO32 + 1) % TWO32 == (k + 1) % TWO32
  {
  }

  /** Any number of completed launches, of any grid sizes, leaves the counter at zero and the sense at the number
      of launches, modulo 2^32. */
  lemma {:induction false} LaunchesReset(launches: seq<Launch>)
    requires forall i :: 0 <= i < |launches| ==> WellFormed(launches[i])
    requires Completed(launches)
    ensures LeftBehind(launches) == Memory(0, |launches| % TWO32)
  {
    if launches != [] {
      var before, l := launches[..|launches| - 1], launches[|launches| - 1];
      LaunchesReset(before);
      assert LeftBehind(before) == Memory(0, |before| % TWO32);
      OneLaunchResets(l, |before| % TWO32);
      NextModulo(|before|);
    }
  }
}
