/** The two-step PTP handshake of latency.probe (probe ptp_metrics) between leader CTA i of rank 0 and
    CTA 0 of follower rank i, as a transition system over every interleaving of the two.

    Both sides walk the same rounds: round g is sample g % 20 of launch g / 20, because launches on
    one rank are sequential. Each sample owns seven 16-byte slots, four in the follower's buffer and
    three in the leader's. Matching looks only at the kind nibble of a message, never at a run id.
    Memory is sequentially consistent and v2 accesses are atomic. */
module Handshake {
  import opened Limits
  import opened Words
  import ClockOffset

  datatype Side = Leader | Follower

  // The seven slots of a sample, named after the message they carry.
  datatype Slot = ConnReq | ConnResp | Sync | FollowUp | DelayReq | DelayResp | Report
  {
    // The kind nibble by which its receiver recognises the message.
    function Kind(): nat {
      match this
      case ConnReq => 80
      case ConnResp => 96
      case Sync => 16
      case FollowUp => 112
      case DelayReq => 32
      case DelayResp => 128
      case Report => 48
    }

    function Sender(): Side {
      if this in {ConnResp, DelayReq, Report} then Follower else Leader
    }

    function Receiver(): Side {
      if Sender().Leader? then Follower else Leader
    }
  }

  // One access of a sample's program. `ReadClock` is the follower's separate reading of t3.
  datatype Op = Send(slot: Slot) | Wait(slot: Slot) | ReadClock | StoreOffset | Clear(slot: Slot)

  const LEADER_OPS := 11
  const FOLLOWER_OPS := 13

  function Ops(side: Side): nat {
    if side.Leader? then LEADER_OPS else FOLLOWER_OPS
  }

  function OpAt(side: Side, pc: nat): Op {
    if side.Leader? then
      match pc
      case 0 => Send(ConnReq)
      case 1 => Wait(ConnResp)
      case 2 => Send(Sync)
      case 3 => Send(FollowUp)
      case 4 => Wait(DelayReq)
      case 5 => Send(DelayResp)
      case 6 => Wait(Report)
      case 7 => StoreOffset
      case 8 => Clear(ConnResp)
      case 9 => Clear(DelayReq)
      case _ => Clear(Report)
    else
      match pc
      case 0 => Wait(ConnReq)
      case 1 => Send(ConnResp)
      case 2 => Wait(Sync)
      case 3 => Wait(FollowUp)
      case 4 => Send(DelayReq)
      case 5 => ReadClock
      case 6 => Wait(DelayResp)
      case 7 => Send(Report)
      case 8 => StoreOffset
      case 9 => Clear(ConnReq)
      case 10 => Clear(Sync)
      case 11 => Clear(FollowUp)
      case _ => Clear(DelayResp)
  }

  // A slot as matching sees it: the kind nibble of the first word, and the second word.
  datatype Cell = Cell(kind: nat, time: Word)

  const Zero := Cell(0, 0)

  datatype Loc = Loc(sample: nat, slot: Slot)

  // One side: its place, the polls it has missed, and its registers by slot: the word that a received
  // message carried (`value`) and its own clock at the load (`when`).
  datatype Proc = Proc(round: nat, pc: nat, misses: nat, value: map<Slot, Word>, when: map<Slot, Word>, t3: Word)

  const Fresh := Proc(0, 0, 0, map[], map[], 0)

  // The history of one round and slot.
  datatype Msg = Msg(round: nat, slot: Slot)

  // What the follower computed a report from.
  datatype Times = Times(t1: Word, t2: Word, t3: Word, t4: Word) {
    function Offset(): Word {
      ClockOffset.Offset(t1, t2, t3, t4)
    }
  }

  // `mem` is the slot memory of this pair, zero where absent. The rest is history: the word each message
  // carried, what each report was computed from, and the offset each side stored in each round.
  datatype State = State(mem: map<Loc, Cell>, leader: Proc, follower: Proc,
                         sent: map<Msg, Word>, used: map<nat, Times>,
                         direct: map<nat, Word>, inverse: map<nat, Word>)
  {
    function At(loc: Loc): Cell {
      if loc in mem then mem[loc] else Zero
    }

    function Get(side: Side): Proc {
      if side.Leader? then leader else follower
    }

    function With(side: Side, p: Proc): State {
      if side.Leader? then this.(leader := p) else this.(follower := p)
    }
  }

  const Start := State(map[], Fresh, Fresh, map[], map[], map[], map[])

  function Reg(m: map<Slot, Word>, slot: Slot): Word {
    if slot in m then m[slot] else 0
  }

  // t1 travels in the follow-up, t2 is read at the sync, t4 travels in the delay response.
  function FollowerTimes(p: Proc): Times {
    Times(Reg(p.value, FollowUp), Reg(p.when, Sync), p.t3, Reg(p.value, DelayResp))
  }

  // The word a message carries: t4 as the leader read it at the delay request, the follower's offset,
  // and otherwise the sender's clock. t1 is that of the follow-up, read after the sync was stored.
  function Payload(p: Proc, slot: Slot, now: Word): Word {
    match slot
    case DelayResp => Reg(p.when, DelayReq)
    case Report => FollowerTimes(p).Offset()
    case _ => now
  }

  function NextRound(p: Proc): Proc {
    p.(round := p.round + 1, pc := 0, misses := 0)
  }

  // The end of the program is the sample's bar.sync.
  function Advance(p: Proc, side: Side): Proc {
    if p.pc + 1 < Ops(side) then p.(pc := p.pc + 1, misses := 0) else NextRound(p)
  }

  // One poll: a match is consumed; the last miss gives the round up.
  function AfterPoll(p: Proc, side: Side, slot: Slot, cell: Cell, now: Word): Proc {
    if cell.kind == slot.Kind() then
      Advance(p.(value := p.value[slot := cell.time], when := p.when[slot := now]), side)
    else if p.misses + 1 < POLL_LIMIT then
      p.(misses := p.misses + 1)
    else
      NextRound(p)
  }

  // One access by one side; `now` is what its clock reads if the access reads it.
  datatype Action = Action(side: Side, now: Word)

  function Apply(s: State, a: Action): State {
    Exec(s, a, OpAt(a.side, s.Get(a.side).pc))
  }

  function Exec(s: State, a: Action, op: Op): State {
    var p := s.Get(a.side);
    match op
    case Send(slot) =>
      var word := Payload(p, slot, a.now);
      s.With(a.side, Advance(p, a.side)).(
        mem := s.mem[Loc(p.round % SAMPLES, slot) := Cell(slot.Kind(), word)],
        sent := s.sent[Msg(p.round, slot) := word],
        used := if slot.Report? then s.used[p.round := FollowerTimes(p)] else s.used)
    case Wait(slot) =>
      s.With(a.side, AfterPoll(p, a.side, slot, s.At(Loc(p.round % SAMPLES, slot)), a.now))
    case ReadClock =>
      s.With(a.side, Advance(p.(t3 := a.now), a.side))
    case StoreOffset =>
      if a.side.Leader? then
        s.(leader := Advance(p, Leader), inverse := s.inverse[p.round := Neg(Reg(p.value, Report))])
      else
        s.(follower := Advance(p, Follower), direct := s.direct[p.round := FollowerTimes(p).Offset()])
    case Clear(slot) =>
      s.With(a.side, Advance(p, a.side)).(mem := s.mem[Loc(p.round % SAMPLES, slot) := Zero])
  }

  function After(acts: seq<Action>): State {
    if acts == [] then Start else Apply(After(acts[..|acts| - 1]), acts[|acts| - 1])
  }

  // --- Progress within a round ---

  // 0 before the round, past the program after it, otherwise the place in it.
  function Phase(s: State, side: Side, g: nat): nat {
    var p := s.Get(side);
    if g < p.round then Ops(side) else if g > p.round then 0 else p.pc
  }

  // Where a slot's message is stored by its sender, awaited and cleared by its receiver.
  function SendPos(slot: Slot): nat {
    match slot
    case ConnReq => 0
    case ConnResp => 1
    case Sync => 2
    case FollowUp => 3
    case DelayReq => 4
    case DelayResp => 5
    case Report => 7
  }

  function WaitPos(slot: Slot): nat {
    match slot
    case ConnReq => 0
    case ConnResp => 1
    case Sync => 2
    case FollowUp => 3
    case DelayReq => 4
    case DelayResp => 6
    case Report => 6
  }

  function ClearPos(slot: Slot): nat {
    match slot
    case ConnReq => 9
    case ConnResp => 8
    case Sync => 10
    case FollowUp => 11
    case DelayReq => 9
    case DelayResp => 12
    case Report => 10
  }

  // An op at the place where its slot is sent, awaited or cleared.
  ghost predicate Placed(op: Op, side: Side, pc: nat) {
    match op
    case Send(slot) => slot.Sender() == side && SendPos(slot) == pc
    case Wait(slot) => slot.Receiver() == side && WaitPos(slot) == pc
    case ReadClock => side.Follower? && pc == 5
    case StoreOffset => pc == if side.Leader? then 7 else 8
    case Clear(slot) => slot.Receiver() == side && ClearPos(slot) == pc
  }

  lemma OpsArePlaced(side: Side, pc: nat)
    requires pc < Ops(side)
    ensures Placed(OpAt(side, pc), side, pc)
  {
  }

  // The places in order: everything is sent before it can be awaited, and awaited before it is cleared.
  lemma PositionsOrdered(slot: Slot)
    ensures SendPos(slot) < Ops(slot.Sender()) && WaitPos(slot) < ClearPos(slot) < Ops(slot.Receiver())
  {
  }

  // An access field by field: what it does to the moving side, to the memory and to the logs.
  ghost predicate Does(s: State, t: State, a: Action, op: Op) {
    var p, q := s.Get(a.side), t.Get(a.side);
    var loc := Loc(p.round % SAMPLES, if op.Send? || op.Wait? || op.Clear? then op.slot else Report);
    var hears := op.Wait? && s.At(loc).kind == op.slot.Kind();
    var times := Times(Reg(p.value, FollowUp), Reg(p.when, Sync), p.t3, Reg(p.value, DelayResp));
    var word := if op == Send(DelayResp) then Reg(p.when, DelayReq)
                else if op == Send(Report) then times.Offset() else a.now;
    && Placed(op, a.side, p.pc) && p.pc < Ops(a.side)
    && (if a.side.Leader? then t.follower == s.follower else t.leader == s.leader)
    && (if op.Wait? && !hears then Waits(p, q) else Advances(p, q, a.side))
    && q.value == (if hears then p.value[op.slot := s.At(loc).time] else p.value)
    && q.when == (if hears then p.when[op.slot := a.now] else p.when)
    && q.t3 == (if op.ReadClock? then a.now else p.t3)
    && t.mem == (if op.Send? then s.mem[loc := Cell(op.slot.Kind(), word)]
                 else if op.Clear? then s.mem[loc := Zero] else s.mem)
    && t.sent == (if op.Send? then s.sent[Msg(p.round, op.slot) := word] else s.sent)
    && t.used == (if op == Send(Report) then s.used[p.round := times] else s.used)
    && t.inverse == (if op.StoreOffset? && a.side.Leader?
                     then s.inverse[p.round := Neg(Reg(p.value, Report))] else s.inverse)
    && t.direct == (if op.StoreOffset? && a.side.Follower?
                    then s.direct[p.round := times.Offset()] else s.direct)
  }

  ghost predicate Advances(p: Proc, q: Proc, side: Side) {
    if p.pc + 1 < Ops(side) then q.round == p.round && q.pc == p.pc + 1 else q.round == p.round + 1 && q.pc == 0
  }

  // A missed poll, the last of which gives the round up.
  ghost predicate Waits(p: Proc, q: Proc) {
    if p.misses + 1 < POLL_LIMIT then q.round == p.round && q.pc == p.pc else q.round == p.round + 1 && q.pc == 0
  }

  lemma AdvanceDoes(p: Proc, side: Side)
    ensures var q := Advance(p, side); Advances(p, q, side) && q.value == p.value && q.when == p.when && q.t3 == p.t3
  {
  }

  lemma SendDoes(s: State, a: Action, slot: Slot)
    requires Placed(Send(slot), a.side, s.Get(a.side).pc) && s.Get(a.side).pc < Ops(a.side)
    ensures Does(s, Exec(s, a, Send(slot)), a, Send(slot))
  {
    hide Advance;
    var p := s.Get(a.side);
    AdvanceDoes(p, a.side);
    assert Exec(s, a, Send(slot)).Get(a.side) == Advance(p, a.side);
  }

  lemma PollDoes(p: Proc, side: Side, slot: Slot, cell: Cell, now: Word)
    ensures var q := AfterPoll(p, side, slot, cell, now); var hears := cell.kind == slot.Kind();
            && (if hears then Advances(p, q, side) else Waits(p, q))
            && q.value == (if hears then p.value[slot := cell.time] else p.value)
            && q.when == (if hears then p.when[slot := now] else p.when)
            && q.t3 == p.t3
  {
  }

  lemma WaitDoes(s: State, a: Action, slot: Slot)
    requires Placed(Wait(slot), a.side, s.Get(a.side).pc) && s.Get(a.side).pc < Ops(a.side)
    ensures Does(s, Exec(s, a, Wait(slot)), a, Wait(slot))
  {
    hide AfterPoll, Payload, FollowerTimes;
    var p := s.Get(a.side);
    var cell := s.At(Loc(p.round % SAMPLES, slot));
    PollDoes(p, a.side, slot, cell, a.now);
    assert Exec(s, a, Wait(slot)) == s.With(a.side, AfterPoll(p, a.side, slot, cell, a.now));
  }

  lemma ReadDoes(s: State, a: Action)
    requires Placed(ReadClock, a.side, s.Get(a.side).pc) && s.Get(a.side).pc < Ops(a.side)
    ensures Does(s, Exec(s, a, ReadClock), a, ReadClock)
  {
  }

  lemma StoreDoes(s: State, a: Action)
    requires Placed(StoreOffset, a.side, s.Get(a.side).pc) && s.Get(a.side).pc < Ops(a.side)
    ensures Does(s, Exec(s, a, StoreOffset), a, StoreOffset)
  {
  }

  lemma ClearDoes(s: State, a: Action, slot: Slot)
    requires Placed(Clear(slot), a.side, s.Get(a.side).pc) && s.Get(a.side).pc < Ops(a.side)
    ensures Does(s, Exec(s, a, Clear(slot)), a, Clear(slot))
  {
    hide Advance, Payload, FollowerTimes;
    var p := s.Get(a.side);
    AdvanceDoes(p, a.side);
    assert Exec(s, a, Clear(slot)).Get(a.side) == Advance(p, a.side);
  }

  lemma ApplyDoes(s: State, a: Action)
    requires s.Get(a.side).pc < Ops(a.side)
    ensures Does(s, Apply(s, a), a, OpAt(a.side, s.Get(a.side).pc))
  {
    OpsArePlaced(a.side, s.Get(a.side).pc);
    match OpAt(a.side, s.Get(a.side).pc)
    case Send(slot) => SendDoes(s, a, slot);
    case Wait(slot) => WaitDoes(s, a, slot);
    case ReadClock => ReadDoes(s, a);
    case StoreOffset => StoreDoes(s, a);
    case Clear(slot) => ClearDoes(s, a, slot);
  }

  // --- What holds of one round and slot ---

  // A slot of round g that shows its kind carries the word sent in round g.
  ghost predicate Content(s: State, g: nat, slot: Slot) {
    var cell := s.At(Loc(g % SAMPLES, slot));
    cell.kind == slot.Kind() ==> Msg(g, slot) in s.sent && cell.time == s.sent[Msg(g, slot)]
  }

  // What a side has heard in its current round is what was sent in that round.
  ghost predicate Heard(s: State, slot: Slot) {
    var p := s.Get(slot.Receiver());
    p.pc > WaitPos(slot) ==>
      slot in p.value && Msg(p.round, slot) in s.sent && p.value[slot] == s.sent[Msg(p.round, slot)]
  }

  // A word is only logged once its send has been taken.
  ghost predicate Logged(s: State, g: nat, slot: Slot) {
    Msg(g, slot) in s.sent ==> Phase(s, slot.Sender(), g) > SendPos(slot)
  }

  // What the follower reported in round g uses the leader's own t1 and t4 of that round.
  ghost predicate ReportPaired(s: State, g: nat) {
    && (Msg(g, Report) in s.sent ==> g in s.used && s.sent[Msg(g, Report)] == s.used[g].Offset())
    && (g in s.used ==>
          && Msg(g, FollowUp) in s.sent && s.used[g].t1 == s.sent[Msg(g, FollowUp)]
          && Msg(g, DelayResp) in s.sent && s.used[g].t4 == s.sent[Msg(g, DelayResp)]
          && Phase(s, Follower, g) > SendPos(Report))
  }

  // Both ranks store the offset of that report, the leader negated.
  ghost predicate OffsetsPaired(s: State, g: nat) {
    && (g in s.direct ==> g in s.used && s.direct[g] == s.used[g].Offset())
    && (g in s.inverse ==> g in s.used && s.inverse[g] == Neg(s.used[g].Offset()))
  }

  // Once reported, the follower's registers do not change before it stores the offset.
  ghost predicate Kept(s: State) {
    s.follower.pc > SendPos(Report) ==>
      s.follower.round in s.used && s.used[s.follower.round] == FollowerTimes(s.follower)
  }

  ghost predicate Bounded(s: State) {
    s.leader.pc < LEADER_OPS && s.follower.pc < FOLLOWER_OPS
  }

  ghost predicate Paired(s: State) {
    && Bounded(s) && Kept(s)
    && (forall slot :: Heard(s, slot))
    && (forall g, slot :: Logged(s, g, slot))
    && (forall g :: ReportPaired(s, g) && OffsetsPaired(s, g))
  }

  lemma LoggedStep(s: State, t: State, a: Action, op: Op, g: nat, slot: Slot)
    requires Bounded(s) && Does(s, t, a, op) && Logged(s, g, slot)
    ensures Bounded(t) && Logged(t, g, slot)
  {
  }

  // A send is taken once, so a logged word stays.
  lemma SentStays(s: State, t: State, a: Action, op: Op, m: Msg)
    requires Bounded(s) && Does(s, t, a, op) && Logged(s, m.round, m.slot) && m in s.sent
    ensures m in t.sent && t.sent[m] == s.sent[m]
  {
  }

  lemma HeardStep(s: State, t: State, a: Action, op: Op, slot: Slot)
    requires Bounded(s) && Does(s, t, a, op) && Heard(s, slot)
    requires op == Wait(slot) ==> Content(s, s.Get(slot.Receiver()).round, slot)
    requires Logged(s, s.Get(slot.Receiver()).round, slot)
    ensures Heard(t, slot)
  {
    var m := Msg(s.Get(slot.Receiver()).round, slot);
    if m in s.sent {
      SentStays(s, t, a, op, m);
    }
  }

  lemma ContentStep(s: State, t: State, a: Action, op: Op, g: nat, slot: Slot)
    requires Bounded(s) && Does(s, t, a, op) && Content(s, g, slot) && Logged(s, g, slot)
    requires var r := s.Get(a.side).round; r % SAMPLES == g % SAMPLES ==> r == g
    ensures Content(t, g, slot)
  {
    if Msg(g, slot) in s.sent {
      SentStays(s, t, a, op, Msg(g, slot));
    }
  }

  lemma ReportStep(s: State, t: State, a: Action, op: Op, g: nat)
    requires Paired(s) && Does(s, t, a, op)
    ensures ReportPaired(t, g)
  {
    assert ReportPaired(s, g) && Heard(s, FollowUp) && Heard(s, DelayResp);
    assert Logged(s, g, FollowUp) && Logged(s, g, DelayResp) && Logged(s, g, Report);
    if Msg(g, FollowUp) in s.sent {
      SentStays(s, t, a, op, Msg(g, FollowUp));
    }
    if Msg(g, DelayResp) in s.sent {
      SentStays(s, t, a, op, Msg(g, DelayResp));
    }
  }

  lemma OffsetsStep(s: State, t: State, a: Action, op: Op, g: nat)
    requires Paired(s) && Does(s, t, a, op)
    ensures OffsetsPaired(t, g)
  {
    assert ReportPaired(s, g) && OffsetsPaired(s, g) && Heard(s, Report);
    assert ReportPaired(s, s.leader.round) && Logged(s, g, Report);
  }

  lemma KeptStep(s: State, t: State, a: Action, op: Op)
    requires Paired(s) && Does(s, t, a, op)
    ensures Kept(t)
  {
  }

  // Pairing survives a step as long as what the moving side hears is of its own round.
  lemma PairedStep(s: State, t: State, a: Action, op: Op)
    requires Paired(s) && Does(s, t, a, op)
    requires op.Wait? ==> Content(s, s.Get(a.side).round, op.slot)
    ensures Paired(t)
  {
    forall slot: Slot ensures Heard(t, slot) {
      assert Heard(s, slot) && Logged(s, s.Get(slot.Receiver()).round, slot);
      HeardStep(s, t, a, op, slot);
    }
    forall g: nat, slot: Slot ensures Logged(t, g, slot) {
      assert Logged(s, g, slot);
      LoggedStep(s, t, a, op, g, slot);
    }
    forall g: nat ensures ReportPaired(t, g) && OffsetsPaired(t, g) {
      ReportStep(s, t, a, op, g);
      OffsetsStep(s, t, a, op, g);
    }
    KeptStep(s, t, a, op);
    LoggedStep(s, t, a, op, 0, ConnReq);
  }

  // --- Waits given up in the last launch only ---

  predicate GivesUp(s: State, a: Action) {
    var p := s.Get(a.side);
    match OpAt(a.side, p.pc)
    case Wait(slot) =>
      s.At(Loc(p.round % SAMPLES, slot)).kind != slot.Kind() && p.misses + 1 >= POLL_LIMIT
    case _ => false
  }

  // Every move is made in a round below the limit.
  predicate WithinRounds(acts: seq<Action>, limit: nat) {
    acts == [] ||
    (&& WithinRounds(acts[..|acts| - 1], limit)
     && After(acts[..|acts| - 1]).Get(acts[|acts| - 1].side).round < limit)
  }

  // No wait of a round below the limit is given up.
  predicate PatientBelow(acts: seq<Action>, limit: nat) {
    acts == [] ||
    (&& PatientBelow(acts[..|acts| - 1], limit)
     && var s, a := After(acts[..|acts| - 1]), acts[|acts| - 1];
        s.Get(a.side).round < limit ==> !GivesUp(s, a))
  }

  // Whoever got past a wait of round g was sent the message, and whoever got past a send has sent it.
  ghost predicate Answered(s: State, g: nat, slot: Slot) {
    && (Phase(s, slot.Receiver(), g) > WaitPos(slot) ==> Msg(g, slot) in s.sent)
    && (Phase(s, slot.Sender(), g) > SendPos(slot) ==> Msg(g, slot) in s.sent)
  }

  // A slot belongs to round g from its clearing in the round that used it before, to its next use.
  ghost predicate Open(s: State, g: nat, slot: Slot) {
    && (g < SAMPLES || Phase(s, slot.Receiver(), g - SAMPLES) > ClearPos(slot))
    && Msg(g + SAMPLES, slot) !in s.sent
  }

  ghost predicate Owned(s: State, g: nat, slot: Slot) {
    Open(s, g, slot) ==> Content(s, g, slot)
  }

  // The follower only sends in a round whose request was sent.
  ghost predicate Requested(s: State, g: nat, slot: Slot) {
    Msg(g, slot) in s.sent && slot.Sender().Follower? ==> Msg(g, ConnReq) in s.sent
  }

  ghost predicate Ended(p: Proc, limit: nat) {
    p.round <= limit && (p.round == limit ==> p.pc == 0)
  }

  ghost predicate TimelyInv(s: State, limit: nat) {
    && Paired(s)
    && Ended(s.leader, limit + SAMPLES) && Ended(s.follower, limit + SAMPLES)
    && (forall g, slot :: 0 <= g < limit ==> Answered(s, g, slot))
    && (forall g, slot :: 0 <= g < limit + SAMPLES ==> Owned(s, g, slot))
    && (forall g, slot :: Requested(s, g, slot))
  }

  // A move that may be made: below the end, and not giving up below the limit.
  ghost predicate Timely(s: State, t: State, a: Action, op: Op, limit: nat) {
    && Does(s, t, a, op) && op == OpAt(a.side, s.Get(a.side).pc)
    && s.Get(a.side).round < limit + SAMPLES
    && (s.Get(a.side).round < limit ==> !GivesUp(s, a))
  }

  // The sender of a slot is not a whole launch ahead of a receiver that still awaits it.
  lemma NotYetReused(s: State, limit: nat, slot: Slot)
    requires TimelyInv(s, limit)
    requires var p := s.Get(slot.Receiver()); p.pc == WaitPos(slot) && p.round < limit + SAMPLES
    ensures Msg(s.Get(slot.Receiver()).round + SAMPLES, slot) !in s.sent
  {
    var g := s.Get(slot.Receiver()).round;
    assert Logged(s, g + SAMPLES, slot) && Requested(s, g + SAMPLES, slot) && Logged(s, g + SAMPLES, ConnReq);
    assert Logged(s, g, Report) && (g < limit ==> Answered(s, g, Report));
  }

  // So what it can hear there was sent in its own round.
  lemma AwaitedIsOwn(s: State, limit: nat, slot: Slot)
    requires TimelyInv(s, limit)
    requires var p := s.Get(slot.Receiver()); p.pc == WaitPos(slot) && p.round < limit + SAMPLES
    ensures Content(s, s.Get(slot.Receiver()).round, slot)
  {
    hide Content, Paired;
    NotYetReused(s, limit, slot);
    PositionsOrdered(slot);
    assert Owned(s, s.Get(slot.Receiver()).round, slot);
  }

  lemma AnsweredStep(s: State, t: State, a: Action, op: Op, limit: nat, g: nat, slot: Slot)
    requires Bounded(s) && Timely(s, t, a, op, limit) && g < limit && Answered(s, g, slot)
    requires op == Wait(slot) && s.Get(a.side).round == g ==> Content(s, g, slot)
    ensures Answered(t, g, slot)
  {
    PositionsOrdered(slot);
  }

  lemma RequestedStep(s: State, t: State, a: Action, op: Op, limit: nat, g: nat, slot: Slot)
    requires Paired(s) && Timely(s, t, a, op, limit) && Requested(s, g, slot)
    ensures Requested(t, g, slot)
  {
    assert Heard(s, ConnReq);
  }

  lemma EndedStep(s: State, t: State, a: Action, op: Op, limit: nat)
    requires Bounded(s) && Timely(s, t, a, op, limit)
    requires Ended(s.leader, limit + SAMPLES) && Ended(s.follower, limit + SAMPLES)
    ensures Ended(t.leader, limit + SAMPLES) && Ended(t.follower, limit + SAMPLES)
  {
  }

  // A send never lands in a slot that belongs to another round.
  lemma SendIsOwn(s: State, limit: nat, g: nat, slot: Slot)
    requires TimelyInv(s, limit) && g < limit + SAMPLES
    requires var p := s.Get(slot.Sender());
             p.pc == SendPos(slot) && p.round % SAMPLES == g % SAMPLES && p.round != g && p.round < limit + SAMPLES
    requires Open(s, g, slot)
    ensures s.Get(slot.Sender()).round == g + SAMPLES
  {
    var m := s.Get(slot.Sender()).round;
    PositionsOrdered(slot);
    SameSample(g, m);
    if m > g + SAMPLES {
      PassedWasSent(s, limit, g + SAMPLES, slot);
    } else if m < g {
      HeardWasSent(s, limit, m, slot);
    }
  }

  lemma PassedWasSent(s: State, limit: nat, g: nat, slot: Slot)
    requires TimelyInv(s, limit) && g < limit && Phase(s, slot.Sender(), g) > SendPos(slot)
    ensures Msg(g, slot) in s.sent
  {
    assert Answered(s, g, slot);
  }

  lemma HeardWasSent(s: State, limit: nat, g: nat, slot: Slot)
    requires TimelyInv(s, limit) && g < limit && Phase(s, slot.Receiver(), g) > WaitPos(slot)
    ensures Phase(s, slot.Sender(), g) > SendPos(slot)
  {
    assert Answered(s, g, slot) && Logged(s, g, slot);
  }

  lemma SameSample(g: nat, m: nat)
    requires g % SAMPLES == m % SAMPLES && g != m
    ensures m <= g - SAMPLES || m == g + SAMPLES || m >= g + 2 * SAMPLES
  {
  }

  // An access that does not touch the slot of round g leaves what it carries.
  lemma UntouchedContent(s: State, t: State, a: Action, op: Op, g: nat, slot: Slot)
    requires Bounded(s) && Does(s, t, a, op) && Content(s, g, slot) && Logged(s, g, slot)
    requires !(s.Get(a.side).round % SAMPLES == g % SAMPLES && (op == Send(slot) || op == Clear(slot)))
    ensures Content(t, g, slot)
  {
    if Msg(g, slot) in s.sent {
      SentStays(s, t, a, op, Msg(g, slot));
    }
  }

  // Its own send and its clear leave it owned too.
  lemma TouchedContent(s: State, t: State, a: Action, op: Op, g: nat, slot: Slot)
    requires Bounded(s) && Does(s, t, a, op)
    requires s.Get(a.side).round % SAMPLES == g % SAMPLES
    requires op == Clear(slot) || (op == Send(slot) && s.Get(a.side).round == g)
    ensures Content(t, g, slot)
  {
  }

  // The receiver only gets past its clear of the round before by clearing.
  lemma ClearOpens(s: State, t: State, a: Action, op: Op, limit: nat, g: nat, slot: Slot)
    requires Bounded(s) && Timely(s, t, a, op, limit) && g < limit
    requires Phase(t, slot.Receiver(), g) > ClearPos(slot)
    ensures Phase(s, slot.Receiver(), g) > ClearPos(slot) || (op == Clear(slot) && s.Get(a.side).round == g)
  {
    PositionsOrdered(slot);
  }

  // While a slot is open for a round, no send for another round reaches it.
  lemma OwnedIsUntouched(s: State, t: State, a: Action, op: Op, limit: nat, g: nat, slot: Slot)
    requires TimelyInv(s, limit) && Timely(s, t, a, op, limit) && g < limit + SAMPLES
    requires Open(s, g, slot) && Open(t, g, slot) && s.Get(a.side).round != g
    ensures !(s.Get(a.side).round % SAMPLES == g % SAMPLES && op == Send(slot))
  {
    if op == Send(slot) && s.Get(a.side).round % SAMPLES == g % SAMPLES {
      SendIsOwn(s, limit, g, slot);
    }
  }

  // A slot opens by a clear, and is open until then only if it was before.
  lemma OpenStep(s: State, t: State, a: Action, op: Op, limit: nat, g: nat, slot: Slot)
    requires Bounded(s) && Timely(s, t, a, op, limit) && g < limit + SAMPLES && Open(t, g, slot)
    ensures Open(s, g, slot) || (op == Clear(slot) && s.Get(a.side).round % SAMPLES == g % SAMPLES)
  {
    hide OpAt, GivesUp, Phase, Placed;
    if g >= SAMPLES {
      ClearOpens(s, t, a, op, limit, g - SAMPLES, slot);
    }
  }

  lemma OwnedStep(s: State, t: State, a: Action, op: Op, limit: nat, g: nat, slot: Slot)
    requires TimelyInv(s, limit) && Timely(s, t, a, op, limit) && g < limit + SAMPLES
    ensures Owned(t, g, slot)
  {
    hide TimelyInv, OpAt, Content, GivesUp, Open, Does;
    OwnedParts(s, limit, g, slot);
    if Open(t, g, slot) {
      var r := s.Get(a.side).round;
      OpenStep(s, t, a, op, limit, g, slot);
      if r % SAMPLES == g % SAMPLES && (op == Clear(slot) || (op == Send(slot) && r == g)) {
        TouchedContent(s, t, a, op, g, slot);
      } else {
        if r != g {
          OwnedIsUntouched(s, t, a, op, limit, g, slot);
        }
        UntouchedContent(s, t, a, op, g, slot);
      }
    }
  }

  lemma OwnedParts(s: State, limit: nat, g: nat, slot: Slot)
    requires TimelyInv(s, limit) && g < limit + SAMPLES
    ensures Bounded(s) && Logged(s, g, slot) && Owned(s, g, slot)
  {
  }

  lemma TimelyStep(s: State, a: Action, limit: nat)
    requires TimelyInv(s, limit) && s.Get(a.side).round < limit + SAMPLES
    requires s.Get(a.side).round < limit ==> !GivesUp(s, a)
    ensures TimelyInv(Apply(s, a), limit)
  {
    var t, op := Apply(s, a), OpAt(a.side, s.Get(a.side).pc);
    ApplyDoes(s, a);
    hide Apply, Does, Content, OpAt;
    if op.Wait? {
      WaitIsPlaced(s, t, a, op);
      AwaitedIsOwn(s, limit, op.slot);
    }
    PairedStep(s, t, a, op);
    EndedStep(s, t, a, op, limit);
    forall g: nat, slot: Slot | g < limit ensures Answered(t, g, slot) {
      assert Answered(s, g, slot);
      AnsweredStep(s, t, a, op, limit, g, slot);
    }
    forall g: nat, slot: Slot | g < limit + SAMPLES ensures Owned(t, g, slot) {
      OwnedStep(s, t, a, op, limit, g, slot);
    }
    forall g: nat, slot: Slot ensures Requested(t, g, slot) {
      assert Requested(s, g, slot);
      RequestedStep(s, t, a, op, limit, g, slot);
    }
  }

  lemma WaitIsPlaced(s: State, t: State, a: Action, op: Op)
    requires Does(s, t, a, op) && op.Wait?
    ensures op.slot.Receiver() == a.side && s.Get(a.side).pc == WaitPos(op.slot)
  {
  }

  lemma TimelyStart(limit: nat)
    ensures TimelyInv(Start, limit)
  {
  }

  lemma {:induction false} TimelyReachable(acts: seq<Action>, limit: nat)
    requires WithinRounds(acts, limit + SAMPLES) && PatientBelow(acts, limit)
    ensures TimelyInv(After(acts), limit)
  {
    hide TimelyInv, Apply;
    if acts == [] {
      TimelyStart(limit);
    } else {
      TimelyReachable(acts[..|acts| - 1], limit);
      TimelyStep(After(acts[..|acts| - 1]), acts[|acts| - 1], limit);
    }
  }

  // What a round has in common on both sides: t1 and t4 of every report, and the offset in it.
  ghost predicate RoundPairs(s: State, g: nat) {
    && (g in s.used ==>
          && Msg(g, FollowUp) in s.sent && s.used[g].t1 == s.sent[Msg(g, FollowUp)]
          && Msg(g, DelayResp) in s.sent && s.used[g].t4 == s.sent[Msg(g, DelayResp)])
    && (g in s.direct ==> g in s.used && s.direct[g] == s.used[g].Offset())
    && (g in s.inverse ==> g in s.used && s.inverse[g] == Neg(s.used[g].Offset()))
    && (g in s.direct && g in s.inverse ==> s.inverse[g] == Neg(s.direct[g]))
  }

  lemma PairedRounds(s: State, g: nat)
    requires Paired(s)
    ensures RoundPairs(s, g)
  {
    assert ReportPaired(s, g) && OffsetsPaired(s, g);
  }

  /** From zeroed slots, pairing holds until some side steps a whole launch beyond the first wait that was given up:
      with no wait below a round given up, and no move twenty rounds or more beyond that round, every report uses
      the t1 and t4 that the leader sent in that very launch and sample, the follower stores the offset of its
      report, and the leader stores the exact negation of the offset in every report it consumes. */
  lemma {:induction false} RoundsPairUntilNextLaunch(acts: seq<Action>, limit: nat, g: nat)
    requires WithinRounds(acts, limit + SAMPLES) && PatientBelow(acts, limit)
    ensures RoundPairs(After(acts), g)
  {
    hide RoundPairs;
    TimelyReachable(acts, limit);
    PairedRounds(After(acts), g);
  }

  /** In particular within one launch, whatever waits are given up. */
  lemma {:induction false} SamplesPairWithinLaunch(acts: seq<Action>, g: nat)
    requires WithinRounds(acts, SAMPLES)
    ensures RoundPairs(After(acts), g)
  {
    AnyoneIsPatientBelowZero(acts);
    RoundsPairUntilNextLaunch(acts, 0, g);
  }

  lemma {:induction false} AnyoneIsPatientBelowZero(acts: seq<Action>)
    ensures PatientBelow(acts, 0)
  {
    if acts != [] {
      AnyoneIsPatientBelowZero(acts[..|acts| - 1]);
    }
  }

  // --- Any number of launches, no wait given up ---

  predicate Patient(acts: seq<Action>) {
    acts == [] ||
    (Patient(acts[..|acts| - 1]) && !GivesUp(After(acts[..|acts| - 1]), acts[|acts| - 1]))
  }

  // Whoever got past a wait of round g has been sent the message.
  ghost predicate InStep(s: State, g: nat, slot: Slot) {
    Phase(s, slot.Receiver(), g) > WaitPos(slot) ==> Phase(s, slot.Sender(), g) > SendPos(slot)
  }

  // Sent and not yet cleared.
  predicate Outstanding(s: State, g: nat, slot: Slot) {
    Phase(s, slot.Sender(), g) > SendPos(slot) && Phase(s, slot.Receiver(), g) <= ClearPos(slot)
  }

  // The slot that round g uses is occupied exactly while a message of round g is outstanding.
  ghost predicate Occupied(s: State, g: nat, slot: Slot) {
    var cell := s.At(Loc(g % SAMPLES, slot));
    if Outstanding(s, g, slot) then cell.kind == slot.Kind() else cell == Zero
  }

  function First(s: State): nat {
    if s.leader.round <= s.follower.round then s.leader.round else s.follower.round
  }

  ghost predicate PatientInv(s: State) {
    && Paired(s)
    && s.leader.round <= s.follower.round + 1 && s.follower.round <= s.leader.round + 1
    && (forall g, slot :: InStep(s, g, slot))
    && (forall g, slot :: First(s) <= g < First(s) + SAMPLES ==> Occupied(s, g, slot) && Content(s, g, slot))
  }

  lemma InStepStep(s: State, t: State, a: Action, op: Op, g: nat, slot: Slot)
    requires Bounded(s) && Does(s, t, a, op) && !GivesUp(s, a) && op == OpAt(a.side, s.Get(a.side).pc)
    requires InStep(s, g, slot) && Occupied(s, s.Get(a.side).round, slot)
    ensures InStep(t, g, slot)
  {
    PositionsOrdered(slot);
  }

  lemma SentStep(s: State, t: State, a: Action, op: Op, g: nat, slot: Slot)
    requires Bounded(s) && Does(s, t, a, op) && !GivesUp(s, a) && op == OpAt(a.side, s.Get(a.side).pc)
    ensures Phase(t, slot.Sender(), g) > SendPos(slot) <==>
            Phase(s, slot.Sender(), g) > SendPos(slot) || (s.Get(a.side).round == g && op == Send(slot))
  {
    PositionsOrdered(slot);
  }

  lemma ClearedStep(s: State, t: State, a: Action, op: Op, g: nat, slot: Slot)
    requires Bounded(s) && Does(s, t, a, op) && !GivesUp(s, a) && op == OpAt(a.side, s.Get(a.side).pc)
    ensures Phase(t, slot.Receiver(), g) > ClearPos(slot) <==>
            Phase(s, slot.Receiver(), g) > ClearPos(slot) || (s.Get(a.side).round == g && op == Clear(slot))
  {
    PositionsOrdered(slot);
  }

  lemma OutstandingStep(s: State, t: State, a: Action, op: Op, g: nat, slot: Slot)
    requires Bounded(s) && Does(s, t, a, op) && !GivesUp(s, a) && op == OpAt(a.side, s.Get(a.side).pc)
    requires InStep(s, g, slot)
    ensures Outstanding(t, g, slot) <==>
            if s.Get(a.side).round == g && op == Send(slot) then true
            else if s.Get(a.side).round == g && op == Clear(slot) then false
            else Outstanding(s, g, slot)
  {
    SentStep(s, t, a, op, g, slot);
    ClearedStep(s, t, a, op, g, slot);
    PositionsOrdered(slot);
  }

  lemma OccupiedStep(s: State, t: State, a: Action, op: Op, g: nat, slot: Slot)
    requires Does(s, t, a, op) && Occupied(s, g, slot)
    requires s.Get(a.side).round % SAMPLES == g % SAMPLES ==> s.Get(a.side).round == g
    requires Outstanding(t, g, slot) <==>
             if s.Get(a.side).round == g && op == Send(slot) then true
             else if s.Get(a.side).round == g && op == Clear(slot) then false
             else Outstanding(s, g, slot)
    ensures Occupied(t, g, slot)
  {
  }

  // A side finishes a round only after the other has entered it, so they stay within one round.
  lemma RoundsStep(s: State, t: State, a: Action, op: Op)
    requires Bounded(s) && Does(s, t, a, op) && !GivesUp(s, a) && op == OpAt(a.side, s.Get(a.side).pc)
    requires InStep(s, s.leader.round, Report) && InStep(s, s.follower.round, DelayResp)
    requires s.leader.round <= s.follower.round + 1 && s.follower.round <= s.leader.round + 1
    ensures t.leader.round <= t.follower.round + 1 && t.follower.round <= t.leader.round + 1
    ensures First(s) <= First(t) <= First(s) + 1
  {
  }

  // Within a window of twenty rounds each sample's slots belong to one round.
  lemma WindowDistinct(first: nat, r: nat, g: nat)
    requires first <= r < first + SAMPLES && first <= g < first + SAMPLES && r % SAMPLES == g % SAMPLES
    ensures r == g
  {
  }

  lemma PatientStep(s: State, a: Action)
    requires PatientInv(s) && !GivesUp(s, a)
    ensures PatientInv(Apply(s, a))
  {
    var t, op := Apply(s, a), OpAt(a.side, s.Get(a.side).pc);
    var r := s.Get(a.side).round;
    ApplyDoes(s, a);
    forall slot: Slot ensures Content(s, r, slot) && Occupied(s, r, slot) && InStep(s, r, slot) {
    }
    PairedStep(s, t, a, op);
    assert InStep(s, s.leader.round, Report) && InStep(s, s.follower.round, DelayResp);
    RoundsStep(s, t, a, op);
    forall g: nat, slot: Slot ensures InStep(t, g, slot) {
      assert InStep(s, g, slot);
      InStepStep(s, t, a, op, g, slot);
    }
    forall g: nat, slot: Slot | First(t) <= g < First(t) + SAMPLES ensures Occupied(t, g, slot) && Content(t, g, slot) {
      if g < First(s) + SAMPLES {
        WindowStep(s, t, a, op, g, slot);
      } else {
        WindowSlides(s, t, a, op, g, slot);
      }
    }
  }

  lemma WindowStep(s: State, t: State, a: Action, op: Op, g: nat, slot: Slot)
    requires PatientInv(s) && Does(s, t, a, op) && !GivesUp(s, a) && op == OpAt(a.side, s.Get(a.side).pc)
    requires First(s) <= g < First(s) + SAMPLES
    ensures Occupied(t, g, slot) && Content(t, g, slot)
  {
    var r := s.Get(a.side).round;
    if r % SAMPLES == g % SAMPLES {
      WindowDistinct(First(s), r, g);
    }
    assert Logged(s, g, slot) && InStep(s, g, slot) && Occupied(s, g, slot) && Content(s, g, slot);
    ContentStep(s, t, a, op, g, slot);
    OutstandingStep(s, t, a, op, g, slot);
    OccupiedStep(s, t, a, op, g, slot);
  }

  lemma TwentyRoundsOn(f: nat)
    ensures (f + SAMPLES) % SAMPLES == f % SAMPLES
  {
  }

  // When both sides have left round f, its slots are all zero and become those of round f + 20.
  lemma WindowSlides(s: State, t: State, a: Action, op: Op, g: nat, slot: Slot)
    requires PatientInv(s) && Does(s, t, a, op) && !GivesUp(s, a) && op == OpAt(a.side, s.Get(a.side).pc)
    requires First(t) == First(s) + 1 && g == First(s) + SAMPLES
    ensures Occupied(t, g, slot) && Content(t, g, slot)
  {
    hide Does, PatientInv, GivesUp, OpAt, Occupied, Content, First, Bounded;
    WindowStep(s, t, a, op, First(s), slot);
    RoundsStayClose(s, t, a, op, slot);
    LeftBehind(t, First(s), slot);
    TwentyRoundsOn(First(s));
    FarAhead(t, g, slot);
  }

  lemma RoundsStayClose(s: State, t: State, a: Action, op: Op, slot: Slot)
    requires PatientInv(s) && Does(s, t, a, op) && !GivesUp(s, a) && op == OpAt(a.side, s.Get(a.side).pc)
    ensures Bounded(t) && t.leader.round <= First(t) + 1 && t.follower.round <= First(t) + 1
  {
    PairedParts(s, slot);
    LoggedStep(s, t, a, op, 0, slot);
    RoundsStep(s, t, a, op);
  }

  lemma PairedParts(s: State, slot: Slot)
    requires PatientInv(s)
    ensures Bounded(s) && Logged(s, 0, slot)
    ensures InStep(s, s.leader.round, Report) && InStep(s, s.follower.round, DelayResp)
  {
    assert Logged(s, 0, slot);
  }

  lemma LeftBehind(t: State, g: nat, slot: Slot)
    requires Bounded(t) && g < First(t) && Occupied(t, g, slot)
    ensures t.At(Loc(g % SAMPLES, slot)) == Zero
  {
    PositionsOrdered(slot);
  }

  lemma FarAhead(t: State, g: nat, slot: Slot)
    requires t.leader.round < g && t.follower.round < g && t.At(Loc(g % SAMPLES, slot)) == Zero
    ensures Occupied(t, g, slot) && Content(t, g, slot)
  {
  }

  lemma {:induction false} PatientReachable(acts: seq<Action>)
    requires Patient(acts)
    ensures PatientInv(After(acts))
  {
    if acts != [] {
      PatientReachable(acts[..|acts| - 1]);
      PatientStep(After(acts[..|acts| - 1]), acts[|acts| - 1]);
    }
  }

  /** Over any number of launches in which no wait is given up: whenever the leader starts a sample, all
      seven of its slots are zero again. */
  lemma {:induction false} SlotsAreZeroOnReuse(acts: seq<Action>, slot: Slot)
    requires Patient(acts) && After(acts).leader.pc == 0
    ensures After(acts).At(Loc(After(acts).leader.round % SAMPLES, slot)) == Cell(0, 0)
  {
    PatientReachable(acts);
    hide Paired, Patient;
    var s := After(acts);
    var g := s.leader.round;
    assert Occupied(s, g, slot) && InStep(s, g, slot) && InStep(s, g, ConnReq);
    assert Phase(s, Follower, g) == 0;
  }

  /** And whenever the follower starts a sample they are zero too, but for the request that may
      already open it. */
  lemma {:induction false} InboxIsZeroOnReuse(acts: seq<Action>, slot: Slot)
    requires Patient(acts) && After(acts).follower.pc == 0 && slot != ConnReq
    ensures After(acts).At(Loc(After(acts).follower.round % SAMPLES, slot)) == Cell(0, 0)
  {
    PatientReachable(acts);
    var s := After(acts);
    var g := s.follower.round;
    assert Occupied(s, g, slot) && InStep(s, g, slot) && InStep(s, g, ConnResp);
    assert Phase(s, Leader, g) <= 1;
  }

  // Every finished round has left its offset on both sides.
  ghost predicate Finished(s: State, g: nat) {
    && (Phase(s, Follower, g) > 8 ==> g in s.direct)
    && (Phase(s, Leader, g) > 7 ==> g in s.inverse)
  }

  lemma FinishedStep(s: State, t: State, a: Action, op: Op, g: nat)
    requires Bounded(s) && Does(s, t, a, op) && !GivesUp(s, a) && op == OpAt(a.side, s.Get(a.side).pc)
    requires Finished(s, g)
    ensures Finished(t, g)
  {
  }

  lemma {:induction false} FinishedReachable(acts: seq<Action>, g: nat)
    requires Patient(acts)
    ensures Finished(After(acts), g)
  {
    if acts != [] {
      var s, a := After(acts[..|acts| - 1]), acts[|acts| - 1];
      FinishedReachable(acts[..|acts| - 1], g);
      PatientReachable(acts[..|acts| - 1]);
      ApplyDoes(s, a);
      FinishedStep(s, Apply(s, a), a, OpAt(a.side, s.Get(a.side).pc), g);
    }
  }

  /** Over any number of launches in which no wait is given up: in every round both sides have finished, the
      follower computed its offset from the t1 and t4 the leader sent in that launch and sample,
      both sides stored an offset, and the leader's is the negation of the follower's. */
  lemma {:induction false} CompletedRoundsPair(acts: seq<Action>, g: nat)
    requires Patient(acts)
    requires g < After(acts).leader.round && g < After(acts).follower.round
    ensures var s := After(acts);
            && g in s.used && Msg(g, FollowUp) in s.sent && Msg(g, DelayResp) in s.sent
            && s.used[g].t1 == s.sent[Msg(g, FollowUp)] && s.used[g].t4 == s.sent[Msg(g, DelayResp)]
            && g in s.direct && s.direct[g] == s.used[g].Offset()
            && g in s.inverse && s.inverse[g] == Neg(s.direct[g]) && Add(s.direct[g], s.inverse[g]) == 0
  {
    PatientReachable(acts);
    FinishedReachable(acts, g);
    assert ReportPaired(After(acts), g) && OffsetsPaired(After(acts), g);
    NegCancels(After(acts).direct[g]);
  }
}
