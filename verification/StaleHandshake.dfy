/** Why the handshake's pairing ends a launch after the first wait that is given up: matching looks only at the kind
    nibble, so a follower's sample can then pair with the leader's sample of a later launch. */
module StaleHandshake {
  import opened Handshake
  import opened Limits

  // The leader alone, in its first k rounds: it sends a request, and gives up waiting for the response.
  ghost predicate LeaderAlone(s: State, k: nat) {
    && s.leader.round == k && s.leader.pc == 0 && s.leader.misses == 0
    && s.follower == Fresh && s.used == map[]
    && (forall loc: Loc :: loc.slot != ConnReq ==> s.At(loc) == Zero)
    && (forall m :: m in s.sent ==> m.slot.ConnReq?)
  }

  // In the middle of such a round, after n polls in vain.
  ghost predicate LeaderWaiting(s: State, k: nat, n: nat) {
    && s.leader.round == k && s.leader.pc == 1 && s.leader.misses == n
    && s.follower == Fresh && s.used == map[]
    && (forall loc: Loc :: loc.slot != ConnReq ==> s.At(loc) == Zero)
    && (forall m :: m in s.sent ==> m.slot.ConnReq?)
  }

  const TICK := Action(Leader, 7)

  lemma {:induction false} AfterOne(acts: seq<Action>, a: Action)
    ensures After(acts + [a]) == Apply(After(acts), a)
  {
    assert (acts + [a])[..|acts + [a]| - 1] == acts;
  }

  lemma RequestSent(s: State, k: nat)
    requires LeaderAlone(s, k)
    ensures LeaderWaiting(Apply(s, TICK), k, 0)
  {
  }

  lemma PolledInVain(s: State, k: nat, n: nat)
    requires LeaderWaiting(s, k, n) && n < POLL_LIMIT
    ensures if n + 1 < POLL_LIMIT then LeaderWaiting(Apply(s, TICK), k, n + 1) else LeaderAlone(Apply(s, TICK), k + 1)
  {
  }

  lemma {:induction false} GivesUpRound(acts: seq<Action>, k: nat, n: nat) returns (more: seq<Action>)
    requires LeaderWaiting(After(acts), k, n) && n < POLL_LIMIT
    ensures LeaderAlone(After(more), k + 1)
    decreases POLL_LIMIT - n
  {
    hide After, Apply, LeaderAlone, LeaderWaiting;
    more := acts + [TICK];
    AfterOne(acts, TICK);
    PolledInVain(After(acts), k, n);
    if n + 1 < POLL_LIMIT {
      more := GivesUpRound(more, k, n + 1);
    }
  }

  lemma {:induction false} LeaderGivesUp(k: nat) returns (acts: seq<Action>)
    ensures LeaderAlone(After(acts), k)
  {
    if k == 0 {
      acts := [];
    } else {
      hide After, Apply, LeaderAlone, LeaderWaiting;
      var before := LeaderGivesUp(k - 1);
      AfterOne(before, TICK);
      RequestSent(After(before), k - 1);
      acts := GivesUpRound(before + [TICK], k - 1, 0);
    }
  }

  // The leader in round 20, the first of the second launch, and the follower still in round 0: each has come to a
  // place in its program, the given messages of both rounds' common slots are there, and no follow-up of round 0 is.
  ghost predicate Skewed(s: State, lead: nat, follow: nat) {
    && s.leader.round == SAMPLES && s.leader.pc == lead && s.follower.round == 0 && s.follower.pc == follow
    && (forall m :: m in s.sent && m.slot.FollowUp? ==> m.round == SAMPLES)
  }

  // The message of a slot is there for its receiver.
  predicate There(s: State, slot: Slot) {
    s.At(Loc(0, slot)).kind == slot.Kind()
  }

  ghost predicate FollowUpThere(s: State) {
    Msg(SAMPLES, FollowUp) in s.sent && s.At(Loc(0, FollowUp)) == Cell(112, s.sent[Msg(SAMPLES, FollowUp)])
  }

  ghost predicate FollowUpHeard(s: State) {
    && Msg(SAMPLES, FollowUp) in s.sent && FollowUp in s.follower.value
    && s.follower.value[FollowUp] == s.sent[Msg(SAMPLES, FollowUp)]
  }

  const TOCK := Action(Follower, 7)

  // Both sides have moved on to these places, and what the follower has heard stays.
  ghost predicate Moved(s: State, t: State, lead: nat, follow: nat) {
    Skewed(t, lead, follow) && (FollowUpHeard(s) ==> FollowUpHeard(t))
  }

  lemma SendMoves(s: State, a: Action, slot: Slot, lead: nat, follow: nat)
    requires Skewed(s, lead, follow) && OpAt(a.side, if a.side.Leader? then lead else follow) == Send(slot)
    requires slot != FollowUp && slot != Report
    ensures if a.side.Leader? then Moved(s, Apply(s, a), lead + 1, follow) else Moved(s, Apply(s, a), lead, follow + 1)
    ensures There(Apply(s, a), slot)
  {
  }

  lemma HearMoves(s: State, a: Action, slot: Slot, lead: nat, follow: nat)
    requires Skewed(s, lead, follow) && OpAt(a.side, if a.side.Leader? then lead else follow) == Wait(slot)
    requires There(s, slot) && slot != FollowUp
    ensures if a.side.Leader? then Moved(s, Apply(s, a), lead + 1, follow) else Moved(s, Apply(s, a), lead, follow + 1)
  {
  }

  lemma ReadMoves(s: State, lead: nat, slot: Slot)
    requires Skewed(s, lead, 5) && There(s, slot)
    ensures Moved(s, Apply(s, TOCK), lead, 6) && There(Apply(s, TOCK), slot)
  {
  }

  lemma Connect(acts: seq<Action>) returns (more: seq<Action>)
    requires LeaderAlone(After(acts), SAMPLES)
    ensures Skewed(After(more), 2, 2)
  {
    var s := After(acts);
    var s1 := Apply(s, TICK);
    assert Skewed(s1, 1, 0) && There(s1, ConnReq);
    hide Apply, LeaderAlone, There, FollowUpHeard;
    HearMoves(s1, TOCK, ConnReq, 1, 0);
    SendMoves(Apply(s1, TOCK), TOCK, ConnResp, 1, 1);
    HearMoves(Apply(Apply(s1, TOCK), TOCK), TICK, ConnResp, 1, 2);
    more := acts + [TICK] + [TOCK] + [TOCK] + [TICK];
    AfterOne(acts, TICK);
    AfterOne(acts + [TICK], TOCK);
    AfterOne(acts + [TICK] + [TOCK], TOCK);
    AfterOne(acts + [TICK] + [TOCK] + [TOCK], TICK);
  }

  lemma FollowUpSent(acts: seq<Action>) returns (more: seq<Action>)
    requires Skewed(After(acts), 2, 2)
    ensures Skewed(After(more), 4, 2) && There(After(more), Sync) && FollowUpThere(After(more))
  {
    more := acts + [TICK] + [TICK];
    AfterOne(acts, TICK);
    AfterOne(acts + [TICK], TICK);
    assert Skewed(Apply(After(acts), TICK), 3, 2);
  }

  lemma FollowUpTaken(acts: seq<Action>) returns (more: seq<Action>)
    requires Skewed(After(acts), 4, 2) && There(After(acts), Sync) && FollowUpThere(After(acts))
    ensures Skewed(After(more), 4, 4) && FollowUpHeard(After(more))
  {
    more := acts + [TOCK] + [TOCK];
    AfterOne(acts, TOCK);
    AfterOne(acts + [TOCK], TOCK);
    assert Skewed(Apply(After(acts), TOCK), 4, 3) && FollowUpThere(Apply(After(acts), TOCK));
  }

  lemma DelayRequested(acts: seq<Action>) returns (more: seq<Action>)
    requires Skewed(After(acts), 4, 4) && FollowUpHeard(After(acts))
    ensures Skewed(After(more), 5, 6) && FollowUpHeard(After(more))
  {
    hide Apply, There, FollowUpHeard, Skewed;
    var s := After(acts);
    SendMoves(s, TOCK, DelayReq, 4, 4);
    ReadMoves(Apply(s, TOCK), 4, DelayReq);
    HearMoves(Apply(Apply(s, TOCK), TOCK), TICK, DelayReq, 4, 6);
    more := acts + [TOCK] + [TOCK] + [TICK];
    AfterOne(acts, TOCK);
    AfterOne(acts + [TOCK], TOCK);
    AfterOne(acts + [TOCK] + [TOCK], TICK);
  }

  lemma DelayAnswered(acts: seq<Action>) returns (more: seq<Action>)
    requires Skewed(After(acts), 5, 6) && FollowUpHeard(After(acts))
    ensures Skewed(After(more), 6, 7) && FollowUpHeard(After(more))
  {
    hide Apply, There, FollowUpHeard, Skewed;
    var s := After(acts);
    SendMoves(s, TICK, DelayResp, 5, 6);
    HearMoves(Apply(s, TICK), TOCK, DelayResp, 6, 6);
    more := acts + [TICK] + [TOCK];
    AfterOne(acts, TICK);
    AfterOne(acts + [TICK], TOCK);
  }

  lemma ReportSent(s: State)
    requires Skewed(s, 6, 7) && FollowUpHeard(s)
    ensures 0 in Apply(s, TOCK).used && Msg(SAMPLES, FollowUp) in Apply(s, TOCK).sent
    ensures Apply(s, TOCK).used[0].t1 == Apply(s, TOCK).sent[Msg(SAMPLES, FollowUp)]
    ensures Msg(0, FollowUp) !in Apply(s, TOCK).sent
    ensures Apply(s, TOCK).leader.round == SAMPLES && Apply(s, TOCK).follower.round == 0
  {
  }

  lemma DoesGrow(s: State, t: State, a: Action, op: Op)
    requires Bounded(s) && Does(s, t, a, op)
    ensures Bounded(t) && s.leader.round <= t.leader.round && s.follower.round <= t.follower.round
  {
  }

  lemma {:induction false} BoundedReachable(acts: seq<Action>)
    ensures Bounded(After(acts))
  {
    if acts != [] {
      hide Apply, Does, OpAt;
      var s, a := After(acts[..|acts| - 1]), acts[|acts| - 1];
      BoundedReachable(acts[..|acts| - 1]);
      ApplyDoes(s, a);
      DoesGrow(s, Apply(s, a), a, OpAt(a.side, s.Get(a.side).pc));
    }
  }

  // Rounds never go back, so a run stayed below where it ends.
  lemma {:induction false} AllBelow(acts: seq<Action>, limit: nat)
    requires After(acts).leader.round < limit && After(acts).follower.round < limit
    ensures WithinRounds(acts, limit)
  {
    if acts != [] {
      hide Apply, Does, OpAt;
      var s, a := After(acts[..|acts| - 1]), acts[|acts| - 1];
      BoundedReachable(acts[..|acts| - 1]);
      ApplyDoes(s, a);
      DoesGrow(s, Apply(s, a), a, OpAt(a.side, s.Get(a.side).pc));
      AllBelow(acts[..|acts| - 1], limit);
    }
  }

  /** One round more than RoundsPairUntilNextLaunch allows is enough to break the pairing. In this run the first wait is
      given up in round 0, and the leader moves on to round 20, the first of its second launch. The follower, late in
      round 0, then reports on a t1 that the leader sent in round 20; it never sent one in round 0. */
  lemma LaterLaunchCanPair() returns (acts: seq<Action>)
    ensures WithinRounds(acts, SAMPLES + 1) && PatientBelow(acts, 0) && !RoundPairs(After(acts), 0)
    ensures var s := After(acts);
            && 0 in s.used && Msg(0, FollowUp) !in s.sent
            && Msg(SAMPLES, FollowUp) in s.sent && s.used[0].t1 == s.sent[Msg(SAMPLES, FollowUp)]
  {
    hide After, Apply, Skewed, There, FollowUpThere, FollowUpHeard;
    acts := LeaderGivesUp(SAMPLES);
    acts := Connect(acts);
    acts := FollowUpSent(acts);
    acts := FollowUpTaken(acts);
    acts := DelayRequested(acts);
    acts := DelayAnswered(acts);
    ReportSent(After(acts));
    AfterOne(acts, TOCK);
    acts := acts + [TOCK];
    AllBelow(acts, SAMPLES + 1);
    AnyoneIsPatientBelowZero(acts);
  }
}
