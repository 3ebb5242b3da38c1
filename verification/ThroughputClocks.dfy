/** The decoded throughput records as clock differences: which two events of its leader thread each delta, duration and
    total of a workgroup comes from. */
module ThroughputClocks {
  import opened Arithmetic
  import opened Words
  import opened Options
  import opened ThroughputLog

  lemma LowBits(n: int)
    ensures n % TWO64 % TWO32 == n % TWO32
  {
    var q := n / TWO64;
    assert n == (q * TWO32) * TWO32 + n % TWO64;
  }

  lemma Sums(a: int, n: int)
    ensures (a + n % TWO32) % TWO32 == (a + n) % TWO32
  {
    var q := n / TWO32;
    assert a + n == q * TWO32 + (a + n % TWO32);
  }

  /** A 32-bit cell keeps a timer difference modulo 2^32: added to the start it gives the low half of the clock again,
      and a difference below 2^32 is kept as it is. */
  lemma DeltaIsDifference(now: Word, start: Word)
    ensures Delta(now, start) == (now - start) % TWO32
    ensures (start + Delta(now, start)) % TWO32 == now % TWO32
    ensures 0 <= now - start < TWO32 ==> Delta(now, start) == now - start
  {
    LowBits(now - start);
    Sums(start, now - start);
    assert start + (now - start) == now;
  }

  // --- The events of one thread ---

  // The thread whose index is its workgroup times the workgroup's width, as 32-bit words.
  predicate IsLeader(t: Thread) {
    t.source == t.group * t.width % 0x1_0000_0000
  }

  lemma LeaderLeads(t: Thread)
    ensures IsLeader(t) <==> t.Leads()
  {
  }

  function Receipts(events: seq<Event>, i: nat): nat {
    if events == [] then 0 else
      var e := events[|events| - 1];
      Receipts(events[..|events| - 1], i) + if e.thread == i && e.hook.Recv? then 1 else 0
  }

  // Thread i enters the kernel at a, returns at z, and only receives in between.
  ghost predicate Spans(events: seq<Event>, i: nat, a: nat, z: nat) {
    && a < z < |events|
    && events[a].thread == i && events[a].hook.Init? && events[z].thread == i && events[z].hook.Flush?
    && (forall e :: 0 <= e < |events| && events[e].thread == i && e != a && e != z ==>
          a < e < z && events[e].hook.Recv?)
  }

  // The first receipts of thread i, up to event n, are the clocks of its receive events less the clock at a.
  ghost predicate DeltasTell(events: seq<Event>, i: nat, a: nat, n: nat, deltas: seq<Cell>)
    requires a < n <= |events|
  {
    && |deltas| == Receipts(events[..n], i)
    && (forall e :: a < e < n && events[e].thread == i && events[e].hook.Recv? ==>
          var k := Receipts(events[..e], i);
          k < |deltas| && deltas[k] == (events[e].now - events[a].now) % TWO32)
  }

  lemma {:induction false} PrefixStep(threads: seq<Thread>, events: seq<Event>, i: nat, n: nat)
    requires i < |threads| && n < |events|
    ensures LifeOf(threads, events[..n + 1], i)
            == if events[n].thread == i
               then LifeStep(threads[i], LifeOf(threads, events[..n], i), events[n].hook, events[n].now)
               else LifeOf(threads, events[..n], i)
    ensures Receipts(events[..n + 1], i)
            == Receipts(events[..n], i) + if events[n].thread == i && events[n].hook.Recv? then 1 else 0
  {
    hide LifeStep;
    LifeLast(threads, events[..n], events[n], i);
    assert events[..n + 1] == events[..n] + [events[n]];
    assert events[..n + 1][..n] == events[..n];
  }

  lemma {:induction false} BeforeInit(threads: seq<Thread>, events: seq<Event>, i: nat, a: nat, z: nat, n: nat)
    requires i < |threads| && Spans(events, i, a, z) && n <= a
    ensures LifeOf(threads, events[..n], i) == Life(Fresh, 0, [], 0) && Receipts(events[..n], i) == 0
  {
    if n > 0 {
      BeforeInit(threads, events, i, a, z, n - 1);
      PrefixStep(threads, events, i, n - 1);
    }
  }

  lemma {:induction false} WhileRunning(threads: seq<Thread>, events: seq<Event>, i: nat, a: nat, z: nat, n: nat)
    requires i < |threads| && threads[i].Leads() && Spans(events, i, a, z) && a < n <= z
    ensures var life := LifeOf(threads, events[..n], i);
            life.phase.Running? && life.start == events[a].now && DeltasTell(events, i, a, n, life.deltas)
  {
    hide LifeOf, Receipts, Thread.Leads, Delta;
    PrefixStep(threads, events, i, n - 1);
    if n == a + 1 {
      BeforeInit(threads, events, i, a, z, a);
    } else {
      WhileRunning(threads, events, i, a, z, n - 1);
      DeltaIsDifference(events[n - 1].now, events[a].now);
    }
  }

  lemma {:induction false} AfterFlush(threads: seq<Thread>, events: seq<Event>, i: nat, a: nat, z: nat, n: nat)
    requires i < |threads| && threads[i].Leads() && Spans(events, i, a, z) && z < n <= |events|
    ensures var life := LifeOf(threads, events[..n], i);
            && life.phase.Exited? && life.duration == (events[z].now - events[a].now) % TWO32
            && DeltasTell(events, i, a, n, life.deltas)
  {
    hide LifeOf, Receipts, Thread.Leads, Delta;
    PrefixStep(threads, events, i, n - 1);
    if n == z + 1 {
      WhileRunning(threads, events, i, a, z, z);
      DeltaIsDifference(events[z].now, events[a].now);
    } else {
      AfterFlush(threads, events, i, a, z, n - 1);
    }
  }

  // --- The decoded launches ---

  // One leader for each workgroup, and workgroups below four.
  ghost predicate OneLeaderEach(threads: seq<Thread>) {
    && (forall i :: 0 <= i < |threads| && IsLeader(threads[i]) ==> threads[i].group < 4)
    && (forall i, j :: 0 <= i < j < |threads| && IsLeader(threads[i]) && IsLeader(threads[j]) ==>
          threads[i].group != threads[j].group)
  }

  lemma LeadersLead(threads: seq<Thread>)
    ensures forall i :: 0 <= i < |threads| ==> (IsLeader(threads[i]) <==> threads[i].Leads())
    ensures OneLeaderEach(threads) <==> OneLeaderPerGroup(threads)
  {
    hide IsLeader, Thread.Leads;
    forall i | 0 <= i < |threads| ensures IsLeader(threads[i]) <==> threads[i].Leads() {
      LeaderLeads(threads[i]);
    }
  }

  ghost predicate EveryLeaderSpans(threads: seq<Thread>, events: seq<Event>) {
    forall i :: 0 <= i < |threads| && IsLeader(threads[i]) ==> exists a: nat, z: nat :: Spans(events, i, a, z)
  }

  // What a launch tells of a leader's events: the total and the duration modulo 2^32, and for each of the first receive
  // events, in order, the time since the thread entered the kernel.
  ghost predicate LaunchTells(l: Launch, events: seq<Event>, i: nat, workgroup: nat, a: nat, z: nat) {
    && Spans(events, i, a, z)
    && l.workgroup == workgroup && l.capacity == 1022 && l.total == Receipts(events, i) % TWO32
    && l.duration == (events[z].now - events[a].now) % TWO32
    && |l.accepted| == Min(l.total, 1022)
    && forall e :: a < e < z && events[e].thread == i && Receipts(events[..e], i) < |l.accepted| ==>
         var k := Receipts(events[..e], i);
         l.accepted[k] == Arrival(k, (events[e].now - events[a].now) % TWO32)
  }

  ghost predicate Tells(l: Launch, events: seq<Event>, i: nat, workgroup: nat) {
    exists a: nat, z: nat :: LaunchTells(l, events, i, workgroup, a, z)
  }

  // It comes from leader i, whose workgroup is numbered from first on.
  ghost predicate ToldBy(l: Launch, threads: seq<Thread>, events: seq<Event>, first: nat, i: nat) {
    i < |threads| && IsLeader(threads[i]) && Tells(l, events, i, first + threads[i].group)
  }

  ghost predicate ToldBySome(l: Launch, threads: seq<Thread>, events: seq<Event>, first: nat) {
    exists i: nat :: ToldBy(l, threads, events, first, i)
  }

  // A leader with a launch to show.
  predicate Received(threads: seq<Thread>, events: seq<Event>, i: nat)
    requires i < |threads|
  {
    IsLeader(threads[i]) && Receipts(events, i) % TWO32 != 0
  }

  ghost predicate TellsOf(launches: seq<Launch>, threads: seq<Thread>, events: seq<Event>, first: nat, i: nat) {
    exists l :: l in launches && ToldBy(l, threads, events, first, i)
  }

  lemma {:induction false} ExpectedTells(threads: seq<Thread>, events: seq<Event>, i: nat, a: nat, z: nat,
                                         workgroup: nat)
    requires i < |threads| && IsLeader(threads[i]) && Spans(events, i, a, z)
    ensures var r := Expected(LifeOf(threads, events, i), workgroup);
            if Receipts(events, i) % TWO32 == 0 then r == []
            else |r| == 1 && LaunchTells(r[0], events, i, workgroup, a, z)
  {
    hide LifeOf, Receipts, IsLeader, Thread.Leads, Numbered;
    LeaderLeads(threads[i]);
    AfterFlush(threads, events, i, a, z, |events|);
    assert events[..|events|] == events;
  }

  // The launch that is expected for one workgroup, if any, is told by its leader.
  lemma GroupTells(threads: seq<Thread>, events: seq<Event>, first: nat, g: nat)
    requires OneLeaderEach(threads) && EveryLeaderSpans(threads, events) && g < WORKGROUPS
    ensures var r := Expected(GroupLife(threads, events, g), first + g);
            && (forall l :: l in r ==> ToldBySome(l, threads, events, first))
            && (forall i :: 0 <= i < |threads| && Received(threads, events, i) && threads[i].group == g ==>
                  TellsOf(r, threads, events, first, i))
  {
    hide LifeOf, Receipts, Expected, LaunchTells, IsLeader, Thread.Leads;
    LeadersLead(threads);
    match LeaderAmong(threads, g, |threads|)
    case None => NothingExpected(first + g);
    case Some(i) =>
      var a: nat, z: nat :| Spans(events, i, a, z);
      ExpectedTells(threads, events, i, a, z, first + g);
      var r := Expected(LifeOf(threads, events, i), first + g);
      if r != [] {
        assert Tells(r[0], events, i, first + g);
        assert ToldBy(r[0], threads, events, first, i);
      }
  }

  lemma NothingExpected(workgroup: nat)
    ensures Expected(Life(Fresh, 0, [], 0), workgroup) == []
  {
  }

  lemma {:induction false} GroupsTell(threads: seq<Thread>, events: seq<Event>, first: nat, n: nat)
    requires OneLeaderEach(threads) && EveryLeaderSpans(threads, events) && n <= WORKGROUPS
    ensures var r := ExpectedGroups(threads, events, first, n);
            && (forall l :: l in r ==> ToldBySome(l, threads, events, first))
            && (forall i :: 0 <= i < |threads| && Received(threads, events, i) && threads[i].group < n ==>
                  TellsOf(r, threads, events, first, i))
  {
    hide GroupLife, Receipts, Expected, ToldBy, ToldBySome, IsLeader, OneLeaderEach, EveryLeaderSpans;
    if n > 0 {
      GroupsTell(threads, events, first, n - 1);
      GroupTells(threads, events, first, n - 1);
    }
  }

  lemma SpansExit(threads: seq<Thread>, events: seq<Event>)
    requires EveryLeaderSpans(threads, events)
    ensures AllExited(threads, events)
  {
    hide LifeOf, IsLeader, Thread.Leads;
    LeadersLead(threads);
    forall i | 0 <= i < |threads| && IsLeader(threads[i]) ensures LifeOf(threads, events, i).phase.Exited? {
      var a: nat, z: nat :| Spans(events, i, a, z);
      AfterFlush(threads, events, i, a, z, |events|);
      assert events[..|events|] == events;
    }
  }

  /** For any interleaving in which each leader enters, receives any number of times and returns: every decoded launch
      tells its leader's clock differences, and every leader whose receipts are not a multiple of 2^32 has one. */
  lemma {:induction false} DecodedLaunchesTellTheClocks(threads: seq<Thread>, events: seq<Event>, block: nat,
                                                        base: Option<nat>)
    requires OneLeaderEach(threads) && InRange(threads, events) && |events| < TWO64
    requires EveryLeaderSpans(threads, events)
    ensures var first := if base.Some? then base.value else block * 4;
            var r := Decode(Run(threads, events).cells, block, base);
            && (forall l :: l in r ==> ToldBySome(l, threads, events, first))
            && (forall i :: 0 <= i < |threads| && Received(threads, events, i) ==>
                  TellsOf(r, threads, events, first, i))
  {
    hide Run, Decode, EveryLeaderSpans, ExpectedGroups, Receipts, ToldBySome, TellsOf, IsLeader;
    LeadersLead(threads);
    SpansExit(threads, events);
    DecodingGivesTheArrivals(threads, events, block, base);
    GroupsTell(threads, events, if base.Some? then base.value else block * WORKGROUPS, WORKGROUPS);
  }
}
