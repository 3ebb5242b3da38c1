/** The four times of a handshake as clock readings: for every report of a timely run, which accesses read its t1, t2,
    t3 and t4, and what the offset computed from them is worth. */
module HandshakeClocks {
  import opened Limits
  import opened Words
  import opened Handshake

  // --- Which access of a run does what ---

  // Action i is this access of a side, made in round g.
  predicate Makes(acts: seq<Action>, i: nat, side: Side, g: nat, op: Op) {
    && i < |acts| && acts[i].side == side
    && var p := After(acts[..i]).Get(side); p.round == g && OpAt(side, p.pc) == op
  }

  predicate Sends(acts: seq<Action>, i: nat, g: nat, slot: Slot) {
    Makes(acts, i, slot.Sender(), g, Send(slot))
  }

  // A poll that finds the message of its slot.
  predicate Hears(acts: seq<Action>, i: nat, g: nat, slot: Slot) {
    && Makes(acts, i, slot.Receiver(), g, Wait(slot))
    && After(acts[..i]).At(Loc(g % SAMPLES, slot)).kind == slot.Kind()
  }

  // The follower's reading after it has stored its delay request.
  predicate ReadsT3(acts: seq<Action>, i: nat, g: nat) {
    Makes(acts, i, Follower, g, ReadClock)
  }

  // --- Where the words of a round come from ---

  ghost predicate Stored(acts: seq<Action>, g: nat, slot: Slot) {
    exists i: nat :: Sends(acts, i, g, slot)
  }

  ghost predicate SentAt(acts: seq<Action>, g: nat, slot: Slot, now: Word) {
    exists i: nat :: Sends(acts, i, g, slot) && acts[i].now == now
  }

  ghost predicate HeardAt(acts: seq<Action>, g: nat, slot: Slot, now: Word) {
    exists i: nat :: Hears(acts, i, g, slot) && acts[i].now == now
  }

  ghost predicate ReadAt(acts: seq<Action>, g: nat, now: Word) {
    exists i: nat :: ReadsT3(acts, i, g) && acts[i].now == now
  }

  // A message was stored; the follow-up carries the clock at that store, the delay response the one at an earlier load.
  ghost predicate SentTold(acts: seq<Action>, g: nat, slot: Slot) {
    var sent := After(acts).sent;
    Msg(g, slot) in sent ==>
      && Stored(acts, g, slot)
      && (slot.FollowUp? ==> SentAt(acts, g, FollowUp, sent[Msg(g, FollowUp)]))
      && (slot.DelayResp? ==> HeardAt(acts, g, DelayReq, sent[Msg(g, DelayResp)]))
  }

  // A side that is past a wait keeps its clock at the load that heard the message.
  ghost predicate WhenTold(acts: seq<Action>, slot: Slot) {
    var p := After(acts).Get(slot.Receiver());
    p.pc > WaitPos(slot) ==> slot in p.when && HeardAt(acts, p.round, slot, p.when[slot])
  }

  ghost predicate ReadTold(acts: seq<Action>) {
    var p := After(acts).follower;
    p.pc > 5 ==> ReadAt(acts, p.round, p.t3)
  }

  ghost predicate UsedTold(acts: seq<Action>, g: nat) {
    var used := After(acts).used;
    g in used ==> HeardAt(acts, g, Sync, used[g].t2) && ReadAt(acts, g, used[g].t3)
  }

  ghost predicate Told(acts: seq<Action>) {
    && Bounded(After(acts)) && ReadTold(acts)
    && (forall slot :: WhenTold(acts, slot))
    && (forall g, slot :: SentTold(acts, g, slot))
    && (forall g :: UsedTold(acts, g))
  }

  // --- One more action ---

  lemma {:induction false} AfterOne(acts: seq<Action>, a: Action)
    ensures After(acts + [a]) == Apply(After(acts), a)
  {
    hide Apply;
    assert (acts + [a])[..|acts + [a]| - 1] == acts;
  }

  lemma {:induction false} StepDoes(acts: seq<Action>, a: Action)
    requires Bounded(After(acts))
    ensures Does(After(acts), After(acts + [a]), a, OpAt(a.side, After(acts).Get(a.side).pc))
  {
    hide Does, OpAt;
    AfterOne(acts, a);
    ApplyDoes(After(acts), a);
  }

  lemma MakesStays(acts: seq<Action>, a: Action, i: nat, side: Side, g: nat, op: Op)
    requires Makes(acts, i, side, g, op)
    ensures Makes(acts + [a], i, side, g, op) && (acts + [a])[..i] == acts[..i] && (acts + [a])[i] == acts[i]
  {
    hide After, OpAt;
    assert (acts + [a])[..i] == acts[..i];
  }

  lemma SentStays(acts: seq<Action>, a: Action, g: nat, slot: Slot)
    ensures Stored(acts, g, slot) ==> Stored(acts + [a], g, slot)
    ensures forall now :: SentAt(acts, g, slot, now) ==> SentAt(acts + [a], g, slot, now)
  {
    hide After, OpAt;
    forall i: nat | Sends(acts, i, g, slot) ensures Sends(acts + [a], i, g, slot) && (acts + [a])[i] == acts[i] {
      MakesStays(acts, a, i, slot.Sender(), g, Send(slot));
    }
  }

  lemma HeardStays(acts: seq<Action>, a: Action, g: nat, slot: Slot, now: Word)
    requires HeardAt(acts, g, slot, now)
    ensures HeardAt(acts + [a], g, slot, now)
  {
    hide After, OpAt;
    var i: nat :| Hears(acts, i, g, slot) && acts[i].now == now;
    MakesStays(acts, a, i, slot.Receiver(), g, Wait(slot));
    assert Hears(acts + [a], i, g, slot);
  }

  lemma ReadStays(acts: seq<Action>, a: Action, g: nat, now: Word)
    requires ReadAt(acts, g, now)
    ensures ReadAt(acts + [a], g, now)
  {
    hide After, OpAt;
    var i: nat :| ReadsT3(acts, i, g) && acts[i].now == now;
    MakesStays(acts, a, i, Follower, g, ReadClock);
    assert ReadsT3(acts + [a], i, g);
  }

  // The new action is the last one.
  lemma {:induction false} MakesNow(acts: seq<Action>, a: Action)
    ensures var p := After(acts).Get(a.side); Makes(acts + [a], |acts|, a.side, p.round, OpAt(a.side, p.pc))
    ensures (acts + [a])[..|acts|] == acts && (acts + [a])[|acts|] == a
  {
    hide After, OpAt;
    assert (acts + [a])[..|acts|] == acts;
  }

  // How one access makes a side's registers what they are.
  lemma WhenStep(s: State, t: State, a: Action, op: Op, slot: Slot)
    requires Bounded(s) && Does(s, t, a, op)
    ensures var p, q := s.Get(slot.Receiver()), t.Get(slot.Receiver());
            q.pc > WaitPos(slot) ==>
              && q.round == p.round
              && (if p.pc > WaitPos(slot) then slot in p.when ==> slot in q.when && q.when[slot] == p.when[slot]
                  else && a.side == slot.Receiver() && op == Wait(slot) && slot in q.when && q.when[slot] == a.now
                       && s.At(Loc(p.round % SAMPLES, slot)).kind == slot.Kind())
  {
    hide Reg;
  }

  lemma {:induction false} WhenToldStep(acts: seq<Action>, a: Action, slot: Slot)
    requires Bounded(After(acts)) && WhenTold(acts, slot)
    ensures WhenTold(acts + [a], slot)
  {
    var s, t := After(acts), After(acts + [a]);
    var op := OpAt(a.side, s.Get(a.side).pc);
    StepDoes(acts, a);
    WhenStep(s, t, a, op, slot);
    MakesNow(acts, a);
    hide After, OpAt, Apply, Does, Makes, HeardAt;
    var p, q := s.Get(slot.Receiver()), t.Get(slot.Receiver());
    if q.pc > WaitPos(slot) {
      if p.pc > WaitPos(slot) {
        HeardStays(acts, a, p.round, slot, p.when[slot]);
      } else {
        assert Hears(acts + [a], |acts|, p.round, slot);
        HeardNow(acts + [a], |acts|, p.round, slot);
      }
    }
  }

  lemma HeardNow(acts: seq<Action>, i: nat, g: nat, slot: Slot)
    requires Hears(acts, i, g, slot)
    ensures HeardAt(acts, g, slot, acts[i].now)
  {
  }

  lemma ReadStep(s: State, t: State, a: Action, op: Op)
    requires Bounded(s) && Does(s, t, a, op)
    ensures var p, q := s.follower, t.follower;
            q.pc > 5 ==>
              q.round == p.round && if p.pc > 5 then q.t3 == p.t3
                                    else a.side.Follower? && op.ReadClock? && q.t3 == a.now
  {
  }

  lemma {:induction false} ReadToldStep(acts: seq<Action>, a: Action)
    requires Bounded(After(acts)) && ReadTold(acts)
    ensures ReadTold(acts + [a])
  {
    var s, t := After(acts), After(acts + [a]);
    var op := OpAt(a.side, s.Get(a.side).pc);
    StepDoes(acts, a);
    ReadStep(s, t, a, op);
    MakesNow(acts, a);
    hide After, OpAt, Apply, Does, Makes;
    if t.follower.pc > 5 {
      if s.follower.pc > 5 {
        ReadStays(acts, a, s.follower.round, s.follower.t3);
      } else {
        assert ReadsT3(acts + [a], |acts|, s.follower.round);
      }
    }
  }

  lemma SentStep(s: State, t: State, a: Action, op: Op, g: nat, slot: Slot)
    requires Bounded(s) && Does(s, t, a, op) && Msg(g, slot) in t.sent
    ensures var p := s.Get(a.side);
            if a.side == slot.Sender() && op == Send(slot) && p.round == g then
              && (slot.FollowUp? ==> t.sent[Msg(g, slot)] == a.now)
              && (slot.DelayResp? ==> p.pc > WaitPos(DelayReq) && t.sent[Msg(g, slot)] == Reg(p.when, DelayReq))
            else Msg(g, slot) in s.sent && t.sent[Msg(g, slot)] == s.sent[Msg(g, slot)]
  {
  }

  lemma {:induction false} SentNow(acts: seq<Action>, a: Action, slot: Slot)
    requires var p := After(acts).Get(a.side); a.side == slot.Sender() && OpAt(a.side, p.pc) == Send(slot)
    ensures Stored(acts + [a], After(acts).Get(a.side).round, slot)
    ensures SentAt(acts + [a], After(acts).Get(a.side).round, slot, a.now)
  {
    MakesNow(acts, a);
    hide After, OpAt, Makes;
    assert Sends(acts + [a], |acts|, After(acts).Get(a.side).round, slot);
  }

  lemma {:induction false} SentToldStep(acts: seq<Action>, a: Action, g: nat, slot: Slot)
    requires Bounded(After(acts)) && WhenTold(acts, DelayReq) && SentTold(acts, g, slot)
    ensures SentTold(acts + [a], g, slot)
  {
    hide After, OpAt, Does, Stored, SentAt, HeardAt, Bounded;
    var s, t := After(acts), After(acts + [a]);
    var op := OpAt(a.side, s.Get(a.side).pc);
    StepDoes(acts, a);
    if Msg(g, slot) in t.sent {
      SentStep(s, t, a, op, g, slot);
      if a.side == slot.Sender() && op == Send(slot) && s.Get(a.side).round == g {
        SentNow(acts, a, slot);
        if slot.DelayResp? {
          HeardStays(acts, a, g, DelayReq, s.leader.when[DelayReq]);
        }
      } else {
        SentStays(acts, a, g, slot);
        if slot.DelayResp? {
          HeardStays(acts, a, g, DelayReq, s.sent[Msg(g, slot)]);
        }
      }
    }
  }

  lemma UsedStep(s: State, t: State, a: Action, op: Op, g: nat)
    requires Bounded(s) && Does(s, t, a, op) && g in t.used
    ensures var p := s.follower;
            if a.side.Follower? && op == Send(Report) && p.round == g then
              p.pc > 5 && p.pc > WaitPos(Sync) && t.used[g].t2 == Reg(p.when, Sync) && t.used[g].t3 == p.t3
            else g in s.used && t.used[g] == s.used[g]
  {
  }

  lemma {:induction false} UsedToldStep(acts: seq<Action>, a: Action, g: nat)
    requires Bounded(After(acts)) && WhenTold(acts, Sync) && ReadTold(acts) && UsedTold(acts, g)
    ensures UsedTold(acts + [a], g)
  {
    var s, t := After(acts), After(acts + [a]);
    var op := OpAt(a.side, s.Get(a.side).pc);
    StepDoes(acts, a);
    hide After, OpAt, Apply, Does, HeardAt, ReadAt;
    if g in t.used {
      UsedStep(s, t, a, op, g);
      HeardStays(acts, a, g, Sync, t.used[g].t2);
      ReadStays(acts, a, g, t.used[g].t3);
    }
  }

  lemma {:induction false} BoundedStep(acts: seq<Action>, a: Action)
    requires Bounded(After(acts))
    ensures Bounded(After(acts + [a]))
  {
    AfterOne(acts, a);
    ApplyDoes(After(acts), a);
    hide After, Apply, OpAt;
  }

  // In every run, whatever is given up, the words of a round are clock readings of that round.
  lemma {:induction false} WordsAreReadings(acts: seq<Action>)
    ensures Told(acts)
  {
    if acts != [] {
      hide After, HeardAt, ReadAt, WhenTold, SentTold, UsedTold, ReadTold;
      var front, a := acts[..|acts| - 1], acts[|acts| - 1];
      assert acts == front + [a];
      WordsAreReadings(front);
      BoundedStep(front, a);
      ReadToldStep(front, a);
      forall slot: Slot ensures WhenTold(acts, slot) {
        assert WhenTold(front, slot);
        WhenToldStep(front, a, slot);
      }
      forall g: nat, slot: Slot ensures SentTold(acts, g, slot) {
        assert SentTold(front, g, slot) && WhenTold(front, DelayReq);
        SentToldStep(front, a, g, slot);
      }
      forall g: nat ensures UsedTold(acts, g) {
        assert UsedTold(front, g) && WhenTold(front, Sync);
        UsedToldStep(front, a, g);
      }
    }
  }

  // --- How long a wait lasts ---

  // A poll that does not find the message of its slot.
  predicate Misses(s: State, a: Action) {
    var p := s.Get(a.side);
    match OpAt(a.side, p.pc)
    case Wait(slot) => s.At(Loc(p.round % SAMPLES, slot)).kind != slot.Kind()
    case _ => false
  }

  predicate MissesAt(s: State, a: Action, side: Side, g: nat, pc: nat) {
    a.side == side && s.Get(side).round == g && s.Get(side).pc == pc && Misses(s, a)
  }

  function MissedPolls(acts: seq<Action>, side: Side, g: nat, pc: nat): nat {
    if acts == [] then 0 else
      var front := acts[..|acts| - 1];
      MissedPolls(front, side, g, pc) + if MissesAt(After(front), acts[|acts| - 1], side, g, pc) then 1 else 0
  }

  predicate Ahead(p: Proc, g: nat, pc: nat) {
    g > p.round || (g == p.round && pc > p.pc)
  }

  // A side counts the polls it has missed at its place, and has missed none further on.
  ghost predicate CountsMisses(acts: seq<Action>, side: Side) {
    var p := After(acts).Get(side);
    && p.misses == MissedPolls(acts, side, p.round, p.pc) && p.misses < 1048576
    && (forall g: nat, pc: nat :: Ahead(p, g, pc) ==> MissedPolls(acts, side, g, pc) == 0)
  }

  lemma AdvanceMoves(p: Proc, side: Side)
    ensures var q := Advance(p, side); q.misses == 0 && Ahead(p, q.round, q.pc)
  {
  }

  lemma PollMoves(p: Proc, side: Side, slot: Slot, cell: Cell, now: Word)
    requires p.misses < 1048576
    ensures var q := AfterPoll(p, side, slot, cell, now);
            if cell.kind != slot.Kind() && p.misses < 1048575 then q == p.(misses := p.misses + 1)
            else q.misses == 0 && Ahead(p, q.round, q.pc)
  {
  }

  // One access of a side stays and counts a miss, or moves on.
  lemma MoveCounts(s: State, a: Action)
    requires s.Get(a.side).misses < 1048576
    ensures var p, q := s.Get(a.side), Apply(s, a).Get(a.side);
            if Misses(s, a) && p.misses < 1048575 then q == p.(misses := p.misses + 1)
            else q.misses == 0 && Ahead(p, q.round, q.pc)
  {
    hide OpAt, Advance, AfterPoll, Payload, FollowerTimes, Reg;
    var p := s.Get(a.side);
    AdvanceMoves(p, a.side);
    AdvanceMoves(p.(t3 := a.now), a.side);
    match OpAt(a.side, p.pc)
    case Wait(slot) => PollMoves(p, a.side, slot, s.At(Loc(p.round % SAMPLES, slot)), a.now);
    case _ => MoveIsAdvance(s, a);
  }

  lemma ExecAdvances(s: State, a: Action, op: Op)
    requires !op.Wait?
    ensures var p, q := s.Get(a.side), Exec(s, a, op).Get(a.side);
            q == Advance(p, a.side) || q == Advance(p.(t3 := a.now), a.side)
  {
    hide Advance, Payload, FollowerTimes, Reg;
  }

  lemma MoveIsAdvance(s: State, a: Action)
    requires !OpAt(a.side, s.Get(a.side).pc).Wait?
    ensures var p, q := s.Get(a.side), Apply(s, a).Get(a.side);
            q == Advance(p, a.side) || q == Advance(p.(t3 := a.now), a.side)
  {
    hide OpAt, Exec, Advance;
    ExecAdvances(s, a, OpAt(a.side, s.Get(a.side).pc));
  }

  lemma ExecLeaves(s: State, a: Action, op: Op, side: Side)
    requires side != a.side
    ensures Exec(s, a, op).Get(side) == s.Get(side)
  {
    hide Advance, AfterPoll, Payload, FollowerTimes, Reg;
  }

  lemma OtherStays(s: State, a: Action, side: Side)
    requires side != a.side
    ensures Apply(s, a).Get(side) == s.Get(side)
  {
    hide OpAt, Exec;
    ExecLeaves(s, a, OpAt(a.side, s.Get(a.side).pc), side);
  }

  lemma {:induction false} MissedPollsOne(acts: seq<Action>, a: Action, side: Side, g: nat, pc: nat)
    ensures MissedPolls(acts + [a], side, g, pc)
            == MissedPolls(acts, side, g, pc) + if MissesAt(After(acts), a, side, g, pc) then 1 else 0
  {
    hide After, MissesAt;
    assert (acts + [a])[..|acts + [a]| - 1] == acts;
  }

  lemma CountsMissesStep(acts: seq<Action>, a: Action, side: Side)
    requires CountsMisses(acts, side)
    ensures CountsMisses(acts + [a], side)
  {
    var s, more := After(acts), acts + [a];
    AfterOne(acts, a);
    if a.side == side {
      MoveCounts(s, a);
    } else {
      OtherStays(s, a, side);
    }
    hide After, Apply, Misses, MissedPolls;
    var p, q := s.Get(side), Apply(s, a).Get(side);
    MissedPollsOne(acts, a, side, q.round, q.pc);
    forall g: nat, pc: nat | Ahead(q, g, pc) ensures MissedPolls(more, side, g, pc) == 0 {
      MissedPollsOne(acts, a, side, g, pc);
      assert Ahead(p, g, pc);
    }
  }

  lemma {:induction false} MissesAreCounted(acts: seq<Action>, side: Side)
    ensures CountsMisses(acts, side)
  {
    if acts != [] {
      hide CountsMisses;
      MissesAreCounted(acts[..|acts| - 1], side);
      CountsMissesStep(acts[..|acts| - 1], acts[|acts| - 1], side);
      assert acts == acts[..|acts| - 1] + [acts[|acts| - 1]];
    }
  }

  /** In every run a wait is given up exactly by its 1048576th poll in vain. */
  lemma {:induction false} WaitsEndAfterAllPolls(acts: seq<Action>, a: Action)
    ensures var p := After(acts).Get(a.side);
            GivesUp(After(acts), a)
            <==> Misses(After(acts), a) && MissedPolls(acts, a.side, p.round, p.pc) == 1048575
  {
    MissesAreCounted(acts, a.side);
    hide After, MissedPolls;
  }

  // --- Main results ---

  // The four accesses whose clock readings are the t1, t2, t3 and t4 of a report.
  ghost predicate AreTimes(acts: seq<Action>, g: nat, i1: nat, i2: nat, i3: nat, i4: nat, times: Times) {
    && Sends(acts, i1, g, FollowUp) && Hears(acts, i2, g, Sync) && ReadsT3(acts, i3, g) && Hears(acts, i4, g, DelayReq)
    && times == Times(acts[i1].now, acts[i2].now, acts[i3].now, acts[i4].now)
  }

  lemma PairedTimes(acts: seq<Action>, g: nat) returns (i1: nat, i2: nat, i3: nat, i4: nat)
    requires g in After(acts).used && RoundPairs(After(acts), g)
    ensures AreTimes(acts, g, i1, i2, i3, i4, After(acts).used[g])
  {
    hide After, OpAt;
    WordsAreReadings(acts);
    assert SentTold(acts, g, FollowUp) && SentTold(acts, g, DelayResp) && UsedTold(acts, g);
    var u := After(acts).used[g];
    i1 :| Sends(acts, i1, g, FollowUp) && acts[i1].now == u.t1;
    i2 :| Hears(acts, i2, g, Sync) && acts[i2].now == u.t2;
    i3 :| ReadsT3(acts, i3, g) && acts[i3].now == u.t3;
    i4 :| Hears(acts, i4, g, DelayReq) && acts[i4].now == u.t4;
  }

  /** Every report is computed from four clock readings of its own round, until some side steps a whole launch beyond
      the first wait given up: the leader's at the store of the follow-up, the follower's at the load that heard the
      sync and after the store of its delay request, and the leader's at the load that heard that request. */
  lemma ReportsUseReadingsOfTheirRound(acts: seq<Action>, limit: nat, g: nat)
    returns (i1: nat, i2: nat, i3: nat, i4: nat)
    requires WithinRounds(acts, limit + SAMPLES) && PatientBelow(acts, limit) && g in After(acts).used
    ensures AreTimes(acts, g, i1, i2, i3, i4, After(acts).used[g])
  {
    RoundsPairUntilNextLaunch(acts, limit, g);
    i1, i2, i3, i4 := PairedTimes(acts, g);
  }

  lemma {:induction false} FrontIsTimely(acts: seq<Action>, limit: nat, n: nat)
    requires n <= |acts| && WithinRounds(acts, limit + SAMPLES) && PatientBelow(acts, limit)
    ensures WithinRounds(acts[..n], limit + SAMPLES) && PatientBelow(acts[..n], limit)
    decreases |acts|
  {
    hide After;
    if n < |acts| {
      FrontIsTimely(acts[..|acts| - 1], limit, n);
      assert acts[..|acts| - 1][..n] == acts[..n];
    } else {
      assert acts[..n] == acts;
    }
  }

  lemma {:induction false} RoundAt(acts: seq<Action>, limit: nat, i: nat)
    requires i < |acts| && WithinRounds(acts, limit)
    ensures After(acts[..i]).Get(acts[i].side).round < limit
    decreases |acts|
  {
    if i < |acts| - 1 {
      RoundAt(acts[..|acts| - 1], limit, i);
      assert acts[..|acts| - 1][..i] == acts[..i];
    }
  }

  /** What a side hears was stored before, in the same round, by the other side: the delays are those of messages. */
  lemma HeardWasStored(acts: seq<Action>, limit: nat, i: nat, g: nat, slot: Slot) returns (j: nat)
    requires WithinRounds(acts, limit + SAMPLES) && PatientBelow(acts, limit) && Hears(acts, i, g, slot)
    ensures j < i && Sends(acts, j, g, slot)
  {
    var front := acts[..i];
    FrontIsTimely(acts, limit, i);
    RoundAt(acts, limit + SAMPLES, i);
    TimelyReachable(front, limit);
    WordsAreReadings(front);
    OpsArePlaced(slot.Receiver(), After(front).Get(slot.Receiver()).pc);
    AwaitedIsOwn(After(front), limit, slot);
    hide After, OpAt, TimelyInv;
    assert SentTold(front, g, slot);
    j :| Sends(front, j, g, slot);
    assert front[..j] == acts[..j];
  }

  // Every access reads its side's clock at a root time. The leader's is the root clock; the follower's is theta ahead.
  ghost predicate Clocked(acts: seq<Action>, root: nat -> int, theta: int) {
    forall i :: 0 <= i < |acts| ==>
      acts[i].now == ClockOffset.Reading(root(i), if acts[i].side.Leader? then 0 else theta)
  }

  /** What a stored offset is worth: it misses the clock's lead by half the asymmetry of the two delays between those
      four accesses, and rounding. */
  lemma StoredOffsetsMeasureTheClock(acts: seq<Action>, limit: nat, g: nat, root: nat -> int, theta: int)
    returns (i1: nat, i2: nat, i3: nat, i4: nat)
    requires WithinRounds(acts, limit + SAMPLES) && PatientBelow(acts, limit) && g in After(acts).direct
    requires Clocked(acts, root, theta)
    ensures g in After(acts).used && AreTimes(acts, g, i1, i2, i3, i4, After(acts).used[g])
    ensures var asymmetry := (root(i2) - root(i1)) - (root(i4) - root(i3));
            -TWO63 <= 2 * theta + asymmetry < TWO63 ==>
              -1 <= 2 * (Signed(After(acts).direct[g]) - theta) - asymmetry <= 1
  {
    RoundsPairUntilNextLaunch(acts, limit, g);
    i1, i2, i3, i4 := PairedTimes(acts, g);
    OffsetOfReadings(acts, g, root, theta, i1, i2, i3, i4, After(acts).used[g]);
  }

  /** The same over any number of launches in which no wait is given up, for every round both sides have finished. */
  lemma CompletedRoundsMeasureTheClock(acts: seq<Action>, g: nat, root: nat -> int, theta: int)
    returns (i1: nat, i2: nat, i3: nat, i4: nat)
    requires Patient(acts) && g < After(acts).leader.round && g < After(acts).follower.round
    requires Clocked(acts, root, theta)
    ensures g in After(acts).used && AreTimes(acts, g, i1, i2, i3, i4, After(acts).used[g])
    ensures g in After(acts).direct && g in After(acts).inverse
    ensures Add(After(acts).direct[g], After(acts).inverse[g]) == 0
    ensures var asymmetry := (root(i2) - root(i1)) - (root(i4) - root(i3));
            -TWO63 <= 2 * theta + asymmetry < TWO63 ==>
              -1 <= 2 * (Signed(After(acts).direct[g]) - theta) - asymmetry <= 1
  {
    CompletedRoundsPair(acts, g);
    i1, i2, i3, i4 := PairedTimes(acts, g);
    OffsetOfReadings(acts, g, root, theta, i1, i2, i3, i4, After(acts).used[g]);
  }

  lemma OffsetOfReadings(acts: seq<Action>, g: nat, root: nat -> int, theta: int,
                         i1: nat, i2: nat, i3: nat, i4: nat, times: Times)
    requires AreTimes(acts, g, i1, i2, i3, i4, times) && Clocked(acts, root, theta)
    ensures var asymmetry := (root(i2) - root(i1)) - (root(i4) - root(i3));
            -TWO63 <= 2 * theta + asymmetry < TWO63 ==> -1 <= 2 * (Signed(times.Offset()) - theta) - asymmetry <= 1
  {
    hide After, OpAt;
    var r1, r2, r3, r4 := root(i1), root(i2), root(i3), root(i4);
    if -TWO63 <= 2 * theta + (r2 - r1) - (r4 - r3) < TWO63 {
      ClockOffset.OffsetError(r1, r2, r3, r4, theta);
    }
  }
}
