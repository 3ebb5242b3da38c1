/** The control flow of one thread through the calibration block of latency.probe (probe ptp_metrics), basic block by
    basic block: whatever the thread's role and whichever waits time out, it passes the same CTA barriers and comes
    to an end. */
module CalibrationFlow {
  import opened Limits

  // A thread of a one-dimensional launch: its rank and the number of ranks, its CTA and its index there.
  datatype Thread = Thread(rank: nat, devices: nat, cta: nat, tid: nat)

  // The basic blocks, named after the labels that start them or the messages they have just seen.
  datatype Block =
    | Start | LowDevices | SampleLoop
    | LeaderPath | WaitConnResp | HaveConnResp | WaitDelayReq | HaveDelayReq | WaitReport | HaveReport
    | FollowerPath | WaitConnReq | HaveConnReq | WaitSync | HaveSync | WaitFollowUp | HaveFollowUp
    | WaitDelayResp | HaveDelayResp
    | SyncLocal | EnterBarrier | BarrierRelease | BarrierWait | AfterBarrier
    | Done | DoneCta | DoneWarp | SaveLoop | Exit

  // `barriers` counts the bar.sync executed, `offsets` the slots of the rank's offset table written.
  datatype State = State(block: Block, sample: nat, misses: nat, saved: nat, barriers: nat, offsets: set<nat>)

  const INITIAL := State(Start, 0, 0, 0, 0, {})

  function Goto(s: State, b: Block): State {
    s.(block := b)
  }

  // Enter a wait with a fresh poll counter.
  function Await(s: State, b: Block): State {
    s.(block := b, misses := 0)
  }

  // One poll: the awaited value is there, or the counter goes up and its limit gives the wait up.
  function Polled(s: State, found: bool, have: Block, giveUp: Block): State {
    if found then Goto(s, have)
    else if s.misses + 1 < POLL_LIMIT then s.(misses := s.misses + 1)
    else Goto(s, giveUp)
  }

  // One basic block. `found` is what the memory decides: a poll finds its message, an arrival is the last, the sense
  // has changed.
  function Step(t: Thread, s: State, found: bool): State {
    match s.block
    case Start => Goto(s, if t.devices < 2 then Exit else LowDevices)
    case LowDevices => Goto(s, if t.devices > 8 then Exit else SampleLoop)
    case SampleLoop => Goto(s, if t.rank == 0 then LeaderPath else FollowerPath)
    case LeaderPath =>
      if t.tid == 0 && t.cta != 0 && t.cta < t.devices then Await(s, WaitConnResp) else Goto(s, SyncLocal)
    case WaitConnResp => Polled(s, found, HaveConnResp, SyncLocal)
    case HaveConnResp => Await(s, WaitDelayReq)
    case WaitDelayReq => Polled(s, found, HaveDelayReq, SyncLocal)
    case HaveDelayReq => Await(s, WaitReport)
    case WaitReport => Polled(s, found, HaveReport, SyncLocal)
    case HaveReport => s.(block := SyncLocal, offsets := s.offsets + {t.cta})
    case FollowerPath => if t.cta != 0 || t.tid != 0 then Goto(s, SyncLocal) else Await(s, WaitConnReq)
    case WaitConnReq => Polled(s, found, HaveConnReq, SyncLocal)
    case HaveConnReq => Await(s, WaitSync)
    case WaitSync => Polled(s, found, HaveSync, SyncLocal)
    case HaveSync => Await(s, WaitFollowUp)
    case WaitFollowUp => Polled(s, found, HaveFollowUp, SyncLocal)
    case HaveFollowUp => Await(s, WaitDelayResp)
    case WaitDelayResp => Polled(s, found, HaveDelayResp, SyncLocal)
    case HaveDelayResp => s.(block := SyncLocal, offsets := s.offsets + {0})
    case SyncLocal =>
      s.(barriers := s.barriers + 1, sample := s.sample + 1,
         block := if s.sample + 1 < SAMPLES then SampleLoop else if t.tid != 0 then AfterBarrier else EnterBarrier)
    case EnterBarrier => if found then Goto(s, BarrierRelease) else Await(s, BarrierWait)
    case BarrierRelease => Goto(s, AfterBarrier)
    case BarrierWait => Polled(s, found, AfterBarrier, AfterBarrier)
    case AfterBarrier => s.(barriers := s.barriers + 1, block := Done)
    case Done => Goto(s, if t.tid % 32 != 0 then Exit else DoneCta)
    case DoneCta => Goto(s, if t.cta != 0 then Exit else DoneWarp)
    case DoneWarp => if t.tid / 32 != 0 then Goto(s, Exit) else s.(block := SaveLoop, saved := 0)
    case SaveLoop => s.(saved := s.saved + 1, block := if s.saved + 1 < RECORDS then SaveLoop else Exit)
    case Exit => s
  }

  function Run(t: Thread, found: nat -> bool, n: nat): State {
    if n == 0 then INITIAL else Step(t, Run(t, found, n - 1), found(n - 1))
  }

  predicate Calibrates(t: Thread) {
    2 <= t.devices <= 8
  }

  predicate Waits(b: Block) {
    b.WaitConnResp? || b.WaitDelayReq? || b.WaitReport? || b.WaitConnReq? || b.WaitSync? || b.WaitFollowUp?
    || b.WaitDelayResp? || b.BarrierWait?
  }

  // How far a block is from the end of its sample, or of the whole block behind the samples.
  function Rank(b: Block): (r: nat)
    ensures r <= 30
  {
    match b
    case Start => 30
    case LowDevices => 29
    case SampleLoop => 28
    case LeaderPath => 27
    case FollowerPath => 26
    case WaitConnReq => 25
    case HaveConnReq => 24
    case WaitSync => 23
    case HaveSync => 22
    case WaitFollowUp => 21
    case HaveFollowUp => 20
    case WaitDelayResp => 19
    case HaveDelayResp => 18
    case WaitConnResp => 17
    case HaveConnResp => 16
    case WaitDelayReq => 15
    case HaveDelayReq => 14
    case WaitReport => 13
    case HaveReport => 12
    case SyncLocal => 11
    case EnterBarrier => 10
    case BarrierRelease => 9
    case BarrierWait => 8
    case AfterBarrier => 7
    case Done => 6
    case DoneCta => 5
    case DoneWarp => 4
    case SaveLoop => 3
    case Exit => 0
  }

  // Blocks inside a sample, and those of the two roles.
  predicate Sampling(b: Block) { Rank(SyncLocal) <= Rank(b) <= Rank(SampleLoop) }
  predicate Leading(b: Block) {
    b.WaitConnResp? || b.HaveConnResp? || b.WaitDelayReq? || b.HaveDelayReq? || b.WaitReport? || b.HaveReport?
  }

  predicate Following(b: Block) {
    || b.FollowerPath? || b.WaitConnReq? || b.HaveConnReq? || b.WaitSync? || b.HaveSync?
    || b.WaitFollowUp? || b.HaveFollowUp? || b.WaitDelayResp? || b.HaveDelayResp?
  }

  // The CTA barriers passed by the time a block is entered.
  function Passed(t: Thread, b: Block, sample: nat): nat {
    if Rank(b) > Rank(SampleLoop) then 0
    else if Sampling(b) then sample
    else if Rank(b) > Rank(Done) then SAMPLES
    else if b.Exit? && !Calibrates(t) then 0
    else SAMPLES + 1
  }

  ghost predicate CountInv(t: Thread, s: State) {
    && s.barriers == Passed(t, s.block, s.sample)
    && (Rank(s.block) > Rank(SampleLoop) ==> s.sample == 0)
    && (s.block.LowDevices? ==> t.devices >= 2)
    && (Sampling(s.block) ==> s.sample < SAMPLES)
    && s.sample <= SAMPLES
    && (Rank(s.block) <= Rank(SampleLoop) && !s.block.Exit? ==> Calibrates(t))
  }

  predicate LoopInv(s: State) {
    && (Waits(s.block) ==> s.misses < POLL_LIMIT)
    && (s.block.SaveLoop? ==> s.saved < RECORDS)
  }

  ghost predicate OffsetInv(t: Thread, s: State) {
    && (Leading(s.block) ==> t.rank == 0 && 0 < t.cta < t.devices && t.tid == 0)
    && (s.block.LeaderPath? ==> t.rank == 0)
    && (Following(s.block) ==> t.rank != 0 && (s.block.FollowerPath? || (t.cta == 0 && t.tid == 0)))
    && s.offsets <= {if t.rank == 0 then t.cta else 0}
    && (t.rank == 0 ==> 0 !in s.offsets)
  }

  predicate Saves(t: Thread) {
    t.cta == 0 && t.tid == 0
  }

  ghost predicate SaveInv(t: Thread, s: State) {
    && (s.block.DoneCta? ==> t.tid % 32 == 0)
    && (s.block.DoneWarp? ==> t.tid % 32 == 0 && t.cta == 0)
    && (s.block.SaveLoop? ==> Saves(t) && s.saved < RECORDS)
    && (Rank(s.block) <= Rank(SampleLoop) && !s.block.Exit? ==> Calibrates(t))
    && (s.block.LowDevices? ==> t.devices >= 2)
    && (s.block.Exit? ==> s.saved == if Calibrates(t) && Saves(t) then RECORDS else 0)
    && (!s.block.SaveLoop? && !s.block.Exit? ==> s.saved == 0)
  }

  lemma StepCountsRole(t: Thread, s: State, found: bool)
    requires CountInv(t, s) && (Leading(s.block) || Following(s.block))
    ensures CountInv(t, Step(t, s, found))
  {
    hide Waits;
  }

  lemma StepCountsSampling(t: Thread, s: State, found: bool)
    requires CountInv(t, s) && (s.block.SampleLoop? || s.block.LeaderPath? || s.block.SyncLocal?)
    ensures CountInv(t, Step(t, s, found))
  {
    hide Waits, Polled;
  }

  lemma StepCountsEntry(t: Thread, s: State, found: bool)
    requires CountInv(t, s) && (s.block.Start? || s.block.LowDevices?)
    ensures CountInv(t, Step(t, s, found))
  {
    hide Waits, Polled;
  }

  lemma StepCountsAfter(t: Thread, s: State, found: bool)
    requires CountInv(t, s) && Rank(s.block) < Rank(SyncLocal)
    ensures CountInv(t, Step(t, s, found))
  {
    hide Waits;
  }

  lemma BlocksAreCovered(b: Block)
    ensures Leading(b) || Following(b) || b.SampleLoop? || b.LeaderPath? || b.SyncLocal? || b.Start? || b.LowDevices?
            || Rank(b) < Rank(SyncLocal)
  {
  }

  lemma StepCounts(t: Thread, s: State, found: bool)
    requires CountInv(t, s)
    ensures CountInv(t, Step(t, s, found))
  {
    hide Step, CountInv, Rank, Leading, Following;
    BlocksAreCovered(s.block);
    if Leading(s.block) || Following(s.block) {
      StepCountsRole(t, s, found);
    } else if s.block.SampleLoop? || s.block.LeaderPath? || s.block.SyncLocal? {
      StepCountsSampling(t, s, found);
    } else if s.block.Start? || s.block.LowDevices? {
      StepCountsEntry(t, s, found);
    } else {
      StepCountsAfter(t, s, found);
    }
  }

  lemma StepLoopsWaiting(t: Thread, s: State, found: bool)
    requires LoopInv(s) && Waits(s.block)
    ensures LoopInv(Step(t, s, found))
  {
  }

  lemma StepLoopsMoving(t: Thread, s: State, found: bool)
    requires LoopInv(s) && !Waits(s.block)
    ensures LoopInv(Step(t, s, found))
  {
    hide Polled;
  }

  lemma StepLoops(t: Thread, s: State, found: bool)
    requires LoopInv(s)
    ensures LoopInv(Step(t, s, found))
  {
    hide Step, LoopInv, Waits;
    if Waits(s.block) {
      StepLoopsWaiting(t, s, found);
    } else {
      StepLoopsMoving(t, s, found);
    }
  }

  // Where a step comes from, as far as the roles go.
  lemma StepIntoLeading(t: Thread, s: State, found: bool)
    ensures var b := Step(t, s, found).block;
            && (Leading(b) ==> Leading(s.block) || (s.block.LeaderPath? && t.tid == 0 && 0 < t.cta < t.devices))
            && (b.LeaderPath? ==> s.block.SampleLoop? && t.rank == 0)
  {
  }

  lemma StepIntoFollowing(t: Thread, s: State, found: bool)
    ensures var b := Step(t, s, found).block;
            Following(b) ==> if b.FollowerPath? then s.block.SampleLoop? && t.rank != 0
                             else Following(s.block) && (!s.block.FollowerPath? || (t.cta == 0 && t.tid == 0))
  {
  }

  lemma StepStores(t: Thread, s: State, found: bool)
    ensures Step(t, s, found).offsets
            == s.offsets + if s.block.HaveReport? then {t.cta} else if s.block.HaveDelayResp? then {0} else {}
  {
  }

  lemma StepOffsets(t: Thread, s: State, found: bool)
    requires OffsetInv(t, s)
    ensures OffsetInv(t, Step(t, s, found))
  {
    hide Step;
    StepIntoLeading(t, s, found);
    StepIntoFollowing(t, s, found);
    StepStores(t, s, found);
  }

  lemma StepSaves(t: Thread, s: State, found: bool)
    requires SaveInv(t, s)
    ensures SaveInv(t, Step(t, s, found))
  {
  }

  // --- Progress ---

  const WIDTH: nat := 1048577
  const SPAN: nat := 31 * WIDTH

  // Samples left, then blocks left, then polls or records left in a loop.
  function Measure(s: State): int {
    (SAMPLES - s.sample) * SPAN + Rank(s.block) * WIDTH + LoopLeft(s)
  }

  function LoopLeft(s: State): int {
    if Waits(s.block) then POLL_LIMIT - s.misses else if s.block.SaveLoop? then RECORDS - s.saved else 0
  }

  // Every block goes to a later sample, to a later block of the sample, or once more round its loop.
  lemma StepAdvances(t: Thread, s: State, found: bool)
    requires LoopInv(s) && !s.block.Exit?
    ensures var n := Step(t, s, found);
            || (n.sample == s.sample + 1 && s.block.SyncLocal?)
            || (n.sample == s.sample && Rank(n.block) < Rank(s.block))
            || (n.sample == s.sample && n.block == s.block && LoopLeft(n) < LoopLeft(s))
  {
  }

  lemma LoopLeftBounds(s: State)
    requires LoopInv(s)
    ensures 0 <= LoopLeft(s) < WIDTH
  {
  }

  lemma MeasureIsNat(t: Thread, s: State)
    requires CountInv(t, s) && LoopInv(s)
    ensures 0 <= Measure(s)
  {
    hide LoopLeft, LoopInv, Rank;
    LoopLeftBounds(s);
  }

  lemma StepDecreases(t: Thread, s: State, found: bool)
    requires LoopInv(s) && !s.block.Exit?
    ensures Measure(Step(t, s, found)) < Measure(s)
  {
    StepLoops(t, s, found);
    StepAdvances(t, s, found);
    LoopLeftBounds(s);
    LoopLeftBounds(Step(t, s, found));
    hide Step, LoopInv, Rank, LoopLeft;
  }

  // --- Every run ---

  ghost predicate Inv(t: Thread, s: State) {
    CountInv(t, s) && LoopInv(s) && OffsetInv(t, s) && SaveInv(t, s)
  }

  lemma {:induction false} RunInv(t: Thread, found: nat -> bool, n: nat)
    ensures Inv(t, Run(t, found, n))
  {
    hide Step, CountInv, LoopInv, OffsetInv, SaveInv;
    if n == 0 {
      InitialInv(t);
    } else {
      var s := Run(t, found, n - 1);
      RunInv(t, found, n - 1);
      StepCounts(t, s, found(n - 1));
      StepLoops(t, s, found(n - 1));
      StepOffsets(t, s, found(n - 1));
      StepSaves(t, s, found(n - 1));
    }
  }

  lemma InitialInv(t: Thread)
    ensures Inv(t, INITIAL)
  {
  }

  // A run that has not ended after n blocks has used up n of its measure.
  lemma {:induction false} RunSpends(t: Thread, found: nat -> bool, n: nat)
    ensures Run(t, found, n).block.Exit? || Measure(Run(t, found, n)) + n <= Measure(INITIAL)
  {
    hide Step, Measure, OffsetInv, SaveInv, CountInv, LoopInv;
    if n > 0 {
      RunSpends(t, found, n - 1);
      RunInv(t, found, n - 1);
      if Run(t, found, n - 1).block.Exit? {
        ExitStays(t, Run(t, found, n - 1), found(n - 1));
      } else {
        StepDecreases(t, Run(t, found, n - 1), found(n - 1));
      }
    }
  }

  lemma ExitStays(t: Thread, s: State, found: bool)
    requires s.block.Exit?
    ensures Step(t, s, found) == s
  {
  }

  const BOUND: nat := 20 * SPAN + 30 * WIDTH + 1

  /** Whatever the memory answers, a thread is through the block after a bounded number of steps. It has then passed
      21 CTA barriers, or none where the number of devices is not supported, whatever its role and its time-outs. It
      has stored offsets in no slot but its own, which on rank 0 is never slot 0, and the one saving thread has saved
      all records. */
  lemma {:induction false} EveryThreadPassesTheSameBarriers(t: Thread, found: nat -> bool, n: nat)
    requires n >= BOUND
    ensures var s := Run(t, found, n);
            && s.block.Exit?
            && s.barriers == (if Calibrates(t) then SAMPLES + 1 else 0)
            && s.offsets <= {if t.rank == 0 then t.cta else 0} && (t.rank == 0 ==> 0 !in s.offsets)
            && s.saved == if Calibrates(t) && Saves(t) then RECORDS else 0
  {
    hide Run, Step;
    RunSpends(t, found, n);
    RunInv(t, found, n);
    MeasureIsNat(t, Run(t, found, n));
  }

  /** Who takes which role: on rank 0 thread 0 of each CTA from 1 to the number of devices leads, on any other rank
      thread 0 of CTA 0 follows, and all others go straight to the end of the sample. */
  lemma {:induction false} RolesAreTaken(t: Thread, found: nat -> bool)
    requires Calibrates(t)
    ensures Run(t, found, 4).block
            == if t.rank == 0 && t.tid == 0 && 0 < t.cta < t.devices then WaitConnResp
               else if t.rank != 0 && t.tid == 0 && t.cta == 0 then WaitConnReq
               else SyncLocal
  {
    assert Run(t, found, 1).block == LowDevices;
    assert Run(t, found, 2).block == SampleLoop;
    assert Run(t, found, 3).block == if t.rank == 0 then LeaderPath else FollowerPath;
  }

  // --- The grid barrier and the waits ---

  // How often a run comes to the grid barrier in its first n blocks.
  function Arrivals(t: Thread, found: nat -> bool, n: nat): nat {
    if n == 0 then 0
    else Arrivals(t, found, n - 1) + if Run(t, found, n - 1).block.EnterBarrier? then 1 else 0
  }

  // Thread 0 of a CTA that is past the grid barrier, and only such a thread is ever at it.
  ghost predicate ArrivedInv(t: Thread, s: State, arrivals: nat) {
    && (s.block.EnterBarrier? ==> t.tid == 0)
    && arrivals == if t.tid == 0 && Calibrates(t) && Rank(s.block) < Rank(EnterBarrier) then 1 else 0
  }

  lemma ArrivedStep(t: Thread, s: State, found: bool, arrivals: nat)
    requires CountInv(t, s) && ArrivedInv(t, s, arrivals)
    ensures ArrivedInv(t, Step(t, s, found), arrivals + if s.block.EnterBarrier? then 1 else 0)
  {
    hide Passed, Sampling, Waits;
  }

  lemma NotArrived(t: Thread)
    ensures ArrivedInv(t, INITIAL, 0)
  {
  }

  lemma {:induction false} ArrivedReachable(t: Thread, found: nat -> bool, n: nat)
    ensures ArrivedInv(t, Run(t, found, n), Arrivals(t, found, n))
  {
    hide Step, ArrivedInv, CountInv, OffsetInv, SaveInv, LoopInv;
    if n == 0 {
      NotArrived(t);
    } else {
      ArrivedReachable(t, found, n - 1);
      RunInv(t, found, n - 1);
      ArrivedStep(t, Run(t, found, n - 1), found(n - 1), Arrivals(t, found, n - 1));
    }
  }

  /** A CTA takes part in the grid barrier exactly once, by its thread 0. */
  lemma {:induction false} ThreadZeroArrivesOnce(t: Thread, found: nat -> bool, n: nat)
    requires n >= BOUND
    ensures Arrivals(t, found, n) == if t.tid == 0 && Calibrates(t) then 1 else 0
  {
    EveryThreadPassesTheSameBarriers(t, found, n);
    ArrivedReachable(t, found, n);
    hide Run, Arrivals;
  }

  // A wait begins without a missed poll.
  lemma WaitsBegin(t: Thread, s: State, found: bool)
    requires Waits(Step(t, s, found).block) && Step(t, s, found).block != s.block
    ensures Step(t, s, found).misses == 0
  {
  }

  lemma WaitGoesOn(t: Thread, s: State)
    requires Waits(s.block) && s.misses < 1048576
    ensures if s.misses < 1048575 then Step(t, s, false) == s.(misses := s.misses + 1)
            else Step(t, s, false).block == if s.block.BarrierWait? then AfterBarrier else SyncLocal
  {
  }

  // A wait that is entered at block k of a run.
  predicate Enters(t: Thread, found: nat -> bool, k: nat) {
    Waits(Run(t, found, k).block) && k > 0 && Run(t, found, k - 1).block != Run(t, found, k).block
  }

  lemma RunNext(t: Thread, found: nat -> bool, n: nat)
    ensures Run(t, found, n + 1) == Step(t, Run(t, found, n), found(n))
  {
    hide Step;
  }

  lemma {:induction false} EntersFresh(t: Thread, found: nat -> bool, k: nat)
    requires Enters(t, found, k)
    ensures Waits(Run(t, found, k).block) && Run(t, found, k).misses == 0
  {
    hide Run, Step, Waits;
    RunNext(t, found, k - 1);
    WaitsBegin(t, Run(t, found, k - 1), found(k - 1));
  }

  lemma {:induction false} StillWaits(t: Thread, found: nat -> bool, k: nat, j: nat)
    requires Enters(t, found, k) && j < 1048576 && forall i :: k <= i < k + j ==> !found(i)
    ensures Waits(Run(t, found, k).block) && Run(t, found, k + j) == Run(t, found, k).(misses := j)
  {
    hide Run, Step, Waits, Enters;
    EntersFresh(t, found, k);
    if j > 0 {
      StillWaits(t, found, k, j - 1);
      WaitGoesOn(t, Run(t, found, k + j - 1));
      RunNext(t, found, k + j - 1);
    }
  }

  /** A wait that nothing answers lasts 1048576 polls, and then goes to the end of the sample or of the barrier. */
  lemma {:induction false} UnansweredWaitsLast(t: Thread, found: nat -> bool, k: nat, j: nat)
    requires Enters(t, found, k) && j < 1048576 && forall i :: k <= i < k + 1048576 ==> !found(i)
    ensures Run(t, found, k + j).block == Run(t, found, k).block
    ensures Run(t, found, k + 1048576).block
            == if Run(t, found, k).block.BarrierWait? then AfterBarrier else SyncLocal
  {
    hide Run, Step, Waits, Enters;
    StillWaits(t, found, k, j);
    StillWaits(t, found, k, 1048575);
    WaitGoesOn(t, Run(t, found, k + 1048575));
    RunNext(t, found, k + 1048575);
  }
}
