/** The arrival log of throughput.probe, shared by the leader threads of up to four workgroups, against its
    decoder in analysis/throughput.py: every interleaving of the hooks decodes to the plain list of arrivals. */
module ThroughputLog {
  import opened Arithmetic
  import opened Words
  import opened Options

  const WORKGROUPS: nat := 4
  const HEADER: nat := 2
  const SLICE: nat := 1024
  const CAPACITY: nat := 1022
  const STREAM: nat := 4096

  type Cell = n: int | 0 <= n < TWO32

  function Low32(n: int): Cell {
    n % TWO32
  }

  // The timer difference that a 32-bit cell keeps.
  function Delta(now: Word, start: Word): Cell {
    Low32(Sub(now, start))
  }

  // --- One thread ---

  // What the receive hook captures: the workgroup, the thread's index in it, and the workgroup's width.
  datatype Thread = Thread(group: Cell, source: Cell, width: Cell) {
    predicate Leads() {
      source == Low32(group * width)
    }

    function Slice(): nat {
      if group >= WORKGROUPS then 3 else group
    }
  }

  // The registers that live from hook to hook: start time, arrivals, slice.
  datatype Regs = Regs(start: Word, count: Word, slice: Word)

  function AfterRecv(t: Thread, r: Regs): Regs {
    if t.Leads() then Regs(r.start, Add(r.count, 1), t.Slice()) else r
  }

  function CellsAfterRecv(cells: seq<Cell>, t: Thread, r: Regs, now: Word): (c: seq<Cell>)
    requires |cells| == STREAM
    ensures |c| == STREAM
  {
    if t.Leads() && r.count < CAPACITY
    then cells[t.Slice() * SLICE + HEADER + r.count := Delta(now, r.start)]
    else cells
  }

  function CellsAfterFlush(cells: seq<Cell>, r: Regs, now: Word): (c: seq<Cell>)
    requires |cells| == STREAM
    ensures |c| == STREAM
  {
    if r.count == 0 || Low32(r.slice) >= WORKGROUPS then cells
    else cells[Low32(r.slice) * SLICE := Delta(now, r.start)][Low32(r.slice) * SLICE + 1 := Low32(r.count)]
  }

  // A thread's registers, and the stream of the CTA that its hooks write in place.
  class Hooks {
    var nr0: Word
    var nr1: Word
    var nr2: Word

    ghost function Registers(): Regs reads this {
      Regs(nr0, nr1, nr2)
    }

    method Init(now: Word)
      modifies this
      ensures Registers() == Regs(now, 0, 0)
    {
      nr0, nr1, nr2 := now, 0, 0;
    }

    method Recv(cells: array<Cell>, t: Thread, now: Word)
      requires cells.Length == STREAM
      modifies this, cells
      ensures Registers() == AfterRecv(t, old(Registers()))
      ensures cells[..] == CellsAfterRecv(old(cells[..]), t, old(Registers()), now)
    {
      if t.source != Low32(t.group * t.width) {
        return;
      }
      var slice: nat := t.group;
      if slice >= 4 {
        slice := 3;
      }
      nr2 := slice;
      if nr1 < 1022 {
        cells[slice * 1024 + (nr1 + 2)] := Low32(Sub(now, nr0));
      }
      nr1 := Add(nr1, 1);
    }

    method Flush(cells: array<Cell>, now: Word)
      requires cells.Length == STREAM
      modifies cells
      ensures cells[..] == CellsAfterFlush(old(cells[..]), Registers(), now)
    {
      if nr1 == 0 {
        return;
      }
      var total, slice := Low32(nr1), Low32(nr2);
      if slice >= 4 {
        return;
      }
      var duration := Low32(Sub(now, nr0));
      cells[slice * 1024] := duration;
      cells[slice * 1024 + 1] := total;
    }
  }

  // --- All threads of a CTA, every interleaving ---

  datatype Phase = Fresh | Running | Exited
  datatype Hook = Init | Recv | Flush
  datatype Event = Event(thread: nat, hook: Hook, now: Word)

  datatype State = State(phases: seq<Phase>, regs: seq<Regs>, cells: seq<Cell>)

  predicate WellFormed(threads: seq<Thread>, s: State) {
    |s.phases| == |threads| && |s.regs| == |threads| && |s.cells| == STREAM
  }

  function Start(n: nat): State {
    State(seq(n, _ => Fresh), seq(n, _ => Regs(0, 0, 0)), seq(STREAM, _ => 0))
  }

  // A thread enters the kernel, receives, and returns; hooks out of that order do not occur.
  function Step(threads: seq<Thread>, s: State, e: Event): (r: State)
    requires WellFormed(threads, s) && e.thread < |threads|
    ensures WellFormed(threads, r)
  {
    var i := e.thread;
    match (e.hook, s.phases[i])
    case (Init, Fresh) => s.(phases := s.phases[i := Running], regs := s.regs[i := Regs(e.now, 0, 0)])
    case (Recv, Running) => s.(regs := s.regs[i := AfterRecv(threads[i], s.regs[i])],
                               cells := CellsAfterRecv(s.cells, threads[i], s.regs[i], e.now))
    case (Flush, Running) => s.(phases := s.phases[i := Exited], cells := CellsAfterFlush(s.cells, s.regs[i], e.now))
    case _ => s
  }

  predicate InRange(threads: seq<Thread>, events: seq<Event>) {
    forall k :: 0 <= k < |events| ==> events[k].thread < |threads|
  }

  function Run(threads: seq<Thread>, events: seq<Event>): (s: State)
    requires InRange(threads, events)
    ensures WellFormed(threads, s)
  {
    if events == [] then Start(|threads|)
    else Step(threads, Run(threads, events[..|events| - 1]), events[|events| - 1])
  }

  // --- The plain list of arrivals of one thread ---

  datatype Life = Life(phase: Phase, start: Word, deltas: seq<Cell>, duration: Cell)

  function LifeStep(t: Thread, life: Life, hook: Hook, now: Word): Life {
    match (hook, life.phase)
    case (Init, Fresh) => Life(Running, now, [], 0)
    case (Recv, Running) => if t.Leads() then life.(deltas := life.deltas + [Delta(now, life.start)]) else life
    case (Flush, Running) => life.(phase := Exited, duration := Delta(now, life.start))
    case _ => life
  }

  function LifeOf(threads: seq<Thread>, events: seq<Event>, i: nat): (l: Life)
    requires i < |threads|
    ensures |l.deltas| <= |events|
  {
    if events == [] then Life(Fresh, 0, [], 0) else
      var e, before := events[|events| - 1], LifeOf(threads, events[..|events| - 1], i);
      if e.thread == i then LifeStep(threads[i], before, e.hook, e.now) else before
  }

  // What cell k of a slice holds for its leader: duration, total, and the first arrivals.
  function CellOf(life: Life, k: nat): Cell {
    if k >= HEADER then if k - HEADER < |life.deltas| then life.deltas[k - HEADER] else 0
    else if !life.phase.Exited? || |life.deltas| == 0 then 0
    else if k == 0 then life.duration
    else Low32(|life.deltas|)
  }

  // One leader for each workgroup, and workgroups below four.
  ghost predicate OneLeaderPerGroup(threads: seq<Thread>) {
    && (forall i :: 0 <= i < |threads| && threads[i].Leads() ==> threads[i].group < WORKGROUPS)
    && (forall i, j :: 0 <= i < j < |threads| && threads[i].Leads() && threads[j].Leads() ==>
          threads[i].group != threads[j].group)
  }

  // The registers tell the thread's life.
  ghost predicate RegsTell(t: Thread, phase: Phase, r: Regs, life: Life) {
    && phase == life.phase
    && (phase.Fresh? ==> life.deltas == [])
    && (phase.Running? ==> r.start == life.start && r.count == |life.deltas|)
    && (life.deltas != [] ==> t.Leads() && (phase.Running? ==> r.slice == t.Slice()))
  }

  // --- Slices ---

  function Part(cells: seq<Cell>, g: nat): (part: seq<Cell>)
    requires |cells| == STREAM && g < WORKGROUPS
    ensures |part| == SLICE && forall k :: 0 <= k < SLICE ==> part[k] == cells[g * SLICE + k]
  {
    cells[g * SLICE..(g + 1) * SLICE]
  }

  // A store into one slice leaves the others alone.
  lemma StoreStaysInSlice(cells: seq<Cell>, g: nat, k: nat, v: Cell, g': nat)
    requires |cells| == STREAM && g < WORKGROUPS && k < SLICE && g' < WORKGROUPS
    ensures Part(cells[g * SLICE + k := v], g') == if g == g' then Part(cells, g)[k := v] else Part(cells, g')
  {
  }

  // The leader of workgroup g, if it has one among the first n threads.
  function LeaderAmong(threads: seq<Thread>, g: nat, n: nat): (r: Option<nat>)
    requires n <= |threads|
    ensures r.Some? ==> r.value < n && threads[r.value].Leads() && threads[r.value].Slice() == g
    ensures r.None? ==> forall i :: 0 <= i < n && threads[i].Leads() ==> threads[i].Slice() != g
  {
    if n == 0 then None
    else if threads[n - 1].Leads() && threads[n - 1].Slice() == g then Some(n - 1)
    else LeaderAmong(threads, g, n - 1)
  }

  // The life of the workgroup's leader; a workgroup without one has no arrivals.
  function GroupLife(threads: seq<Thread>, events: seq<Event>, g: nat): (l: Life)
    ensures |l.deltas| <= |events|
  {
    match LeaderAmong(threads, g, |threads|)
    case None => Life(Fresh, 0, [], 0)
    case Some(i) => LifeOf(threads, events, i)
  }

  ghost predicate PartTells(part: seq<Cell>, life: Life) {
    |part| == SLICE && forall k :: 0 <= k < SLICE ==> part[k] == CellOf(life, k)
  }

  ghost predicate Tells(threads: seq<Thread>, s: State, events: seq<Event>) {
    && WellFormed(threads, s)
    && (forall i :: 0 <= i < |threads| ==> RegsTell(threads[i], s.phases[i], s.regs[i], LifeOf(threads, events, i)))
    && (forall g :: 0 <= g < WORKGROUPS ==> PartTells(Part(s.cells, g), GroupLife(threads, events, g)))
  }

  // --- One hook ---

  lemma RecvTells(part: seq<Cell>, t: Thread, r: Regs, life: Life, now: Word)
    requires PartTells(part, life) && life.phase.Running? && t.Leads()
    requires r.start == life.start && r.count == |life.deltas|
    ensures PartTells(if r.count < CAPACITY then part[HEADER + r.count := Delta(now, r.start)] else part,
                      LifeStep(t, life, Recv, now))
  {
    hide Delta, Thread.Leads;
  }

  lemma FlushTells(part: seq<Cell>, t: Thread, r: Regs, life: Life, now: Word)
    requires PartTells(part, life) && life.phase.Running? && r.start == life.start && r.count == |life.deltas|
    ensures PartTells(if r.count == 0 then part else part[0 := Delta(now, r.start)][1 := Low32(r.count)],
                      LifeStep(t, life, Flush, now))
  {
    hide Delta, Low32;
  }

  lemma {:induction false} RegsStep(threads: seq<Thread>, s: State, events: seq<Event>, e: Event, i: nat)
    requires InRange(threads, events) && e.thread < |threads| && Tells(threads, s, events) && i < |threads|
    requires |events| < TWO64 - 1
    ensures RegsTell(threads[i], Step(threads, s, e).phases[i], Step(threads, s, e).regs[i],
                     LifeOf(threads, events + [e], i))
  {
    hide Delta, PartTells, Thread.Leads, Thread.Slice, CellsAfterRecv, CellsAfterFlush;
    LifeLast(threads, events, e, i);
    assert RegsTell(threads[i], s.phases[i], s.regs[i], LifeOf(threads, events, i));
  }

  lemma {:induction false} LifeLast(threads: seq<Thread>, events: seq<Event>, e: Event, i: nat)
    requires i < |threads|
    ensures LifeOf(threads, events + [e], i)
            == if e.thread == i then LifeStep(threads[i], LifeOf(threads, events, i), e.hook, e.now)
               else LifeOf(threads, events, i)
  {
    hide LifeStep;
    assert (events + [e])[..|events + [e]| - 1] == events;
  }

  /** Whatever workgroup a thread captured, its stores stay in its own slice. */
  lemma RecvStaysInSlice(cells: seq<Cell>, t: Thread, r: Regs, now: Word, g: nat)
    requires |cells| == STREAM && g < WORKGROUPS
    ensures Part(CellsAfterRecv(cells, t, r, now), g)
            == if t.Leads() && r.count < CAPACITY && t.Slice() == g
               then Part(cells, g)[HEADER + r.count := Delta(now, r.start)]
               else Part(cells, g)
  {
    hide Delta, Thread.Leads, Part;
    if t.Leads() && r.count < CAPACITY {
      StoreStaysInSlice(cells, t.Slice(), HEADER + r.count, Delta(now, r.start), g);
    }
  }

  lemma FlushStaysInSlice(cells: seq<Cell>, r: Regs, now: Word, g: nat)
    requires |cells| == STREAM && g < WORKGROUPS
    ensures Part(CellsAfterFlush(cells, r, now), g)
            == if r.count != 0 && Low32(r.slice) == g then Part(cells, g)[0 := Delta(now, r.start)][1 := Low32(r.count)]
               else Part(cells, g)
  {
    hide Delta, Low32, Part;
    if r.count != 0 && Low32(r.slice) < WORKGROUPS {
      StoreStaysInSlice(cells, Low32(r.slice), 0, Delta(now, r.start), g);
      StoreStaysInSlice(cells[Low32(r.slice) * SLICE := Delta(now, r.start)], Low32(r.slice), 1, Low32(r.count), g);
    }
  }

  lemma CellsStep(threads: seq<Thread>, s: State, events: seq<Event>, e: Event, g: nat)
    requires InRange(threads, events) && e.thread < |threads| && Tells(threads, s, events) && g < WORKGROUPS
    ensures Part(Step(threads, s, e).cells, g) == PartAfter(threads, s, e, g)
  {
    hide Delta, PartTells, Thread.Leads, Thread.Slice, LifeOf, CellsAfterRecv, CellsAfterFlush, Part, AfterRecv,
         GroupLife, Low32;
    var i := e.thread;
    assert RegsTell(threads[i], s.phases[i], s.regs[i], LifeOf(threads, events, i));
    SliceIsLow(threads[i]);
    SliceBelowFour(threads[i]);
    RecvStaysInSlice(s.cells, threads[i], s.regs[i], e.now, g);
    FlushStaysInSlice(s.cells, s.regs[i], e.now, g);
  }

  lemma SliceIsLow(t: Thread)
    ensures Low32(t.Slice()) == t.Slice()
  {
  }

  lemma SliceBelowFour(t: Thread)
    ensures t.Slice() < WORKGROUPS
  {
  }

  // What the hook makes of slice g.
  function PartAfter(threads: seq<Thread>, s: State, e: Event, g: nat): seq<Cell>
    requires WellFormed(threads, s) && e.thread < |threads| && g < WORKGROUPS
  {
    var t, r, part := threads[e.thread], s.regs[e.thread], Part(s.cells, g);
    if !s.phases[e.thread].Running? || t.Slice() != g then part
    else match e.hook
      case Init => part
      case Recv => if t.Leads() && r.count < CAPACITY then part[HEADER + r.count := Delta(e.now, r.start)] else part
      case Flush => if r.count == 0 then part else part[0 := Delta(e.now, r.start)][1 := Low32(r.count)]
  }

  lemma InitTells(part: seq<Cell>, life: Life, now: Word)
    requires PartTells(part, life) && life.phase.Fresh? && life.deltas == []
    ensures PartTells(part, Life(Running, now, [], 0))
  {
  }

  lemma PartStep(threads: seq<Thread>, s: State, events: seq<Event>, e: Event, g: nat)
    requires OneLeaderPerGroup(threads) && InRange(threads, events) && e.thread < |threads|
    requires Tells(threads, s, events) && g < WORKGROUPS
    ensures PartTells(PartAfter(threads, s, e, g), GroupLife(threads, events + [e], g))
  {
    hide Delta, LifeOf, PartTells;
    var i, part := e.thread, Part(s.cells, g);
    assert PartTells(part, GroupLife(threads, events, g));
    assert RegsTell(threads[i], s.phases[i], s.regs[i], LifeOf(threads, events, i));
    LifeLast(threads, events, e, i);
    match LeaderAmong(threads, g, |threads|) {
      case None =>
      case Some(l) =>
        LifeLast(threads, events, e, l);
        if l == i && s.phases[i].Fresh? {
          InitTells(part, LifeOf(threads, events, i), e.now);
        }
        if l == i && s.phases[i].Running? && e.hook.Recv? {
          RecvTells(part, threads[i], s.regs[i], LifeOf(threads, events, i), e.now);
        }
        if l == i && s.phases[i].Running? && e.hook.Flush? {
          FlushTells(part, threads[i], s.regs[i], LifeOf(threads, events, i), e.now);
        }
    }
  }

  lemma StepTells(threads: seq<Thread>, s: State, events: seq<Event>, e: Event)
    requires OneLeaderPerGroup(threads) && InRange(threads, events) && e.thread < |threads|
    requires Tells(threads, s, events) && |events| < TWO64 - 1
    ensures Tells(threads, Step(threads, s, e), events + [e])
  {
    hide RegsTell, PartTells, Part, LifeOf, GroupLife, OneLeaderPerGroup;
    forall i | 0 <= i < |threads|
      ensures RegsTell(threads[i], Step(threads, s, e).phases[i], Step(threads, s, e).regs[i],
                       LifeOf(threads, events + [e], i))
    {
      RegsStep(threads, s, events, e, i);
    }
    forall g | 0 <= g < WORKGROUPS
      ensures PartTells(Part(Step(threads, s, e).cells, g), GroupLife(threads, events + [e], g))
    {
      CellsStep(threads, s, events, e, g);
      PartStep(threads, s, events, e, g);
    }
  }

  lemma StartTells(threads: seq<Thread>)
    ensures Tells(threads, Start(|threads|), [])
  {
  }

  /** In every interleaving of the hooks of all threads, each slice holds the list of its leader's arrivals. */
  lemma {:induction false} SlicesTellArrivals(threads: seq<Thread>, events: seq<Event>)
    requires OneLeaderPerGroup(threads) && InRange(threads, events) && |events| < TWO64
    ensures Tells(threads, Run(threads, events), events)
  {
    hide Tells, Step, OneLeaderPerGroup;
    if events == [] {
      StartTells(threads);
    } else {
      var front, e := events[..|events| - 1], events[|events| - 1];
      SlicesTellArrivals(threads, front);
      StepTells(threads, Run(threads, front), front, e);
      assert front + [e] == events;
    }
  }

  // --- The decoder ---

  datatype Arrival = Arrival(sequence: nat, delta: Cell)
  datatype Launch = Launch(workgroup: nat, accepted: seq<Arrival>, total: Cell, duration: Cell, capacity: nat)

  function Numbered(deltas: seq<Cell>): (r: seq<Arrival>)
    ensures |r| == |deltas| && forall k :: 0 <= k < |r| ==> r[k] == Arrival(k, deltas[k])
  {
    if deltas == [] then [] else Numbered(deltas[..|deltas| - 1]) + [Arrival(|deltas| - 1, deltas[|deltas| - 1])]
  }

  // The launch decoded from a slice that starts at a cell, unless its header has no arrivals.
  function DecodeGroup(cells: seq<Cell>, size: nat, workgroup: nat, start: nat): (r: seq<Launch>)
    requires HEADER < size && start + size <= |cells|
  {
    var total := cells[start + 1];
    if total == 0 then [] else
      var payload := cells[start + HEADER..start + HEADER + Min(total, size - HEADER)];
      [Launch(workgroup, Numbered(payload), total, cells[start], size - HEADER)]
  }

  // Where the slice of a workgroup starts.
  function StartOf(w: nat, size: nat): nat {
    w * size
  }

  lemma StartNext(w: nat, size: nat)
    ensures StartOf(w + 1, size) == StartOf(w, size) + size
  {
  }

  function DecodeGroups(cells: seq<Cell>, size: nat, base: nat, n: nat): seq<Launch>
    requires HEADER < size && StartOf(n, size) <= |cells|
  {
    if n == 0 then [] else
      StartNext(n - 1, size);
      DecodeGroups(cells, size, base, n - 1) + DecodeGroup(cells, size, base + n - 1, StartOf(n - 1, size))
  }

  function Decode(cells: seq<Cell>, block: nat, base: Option<nat>): seq<Launch> {
    var size := |cells| / WORKGROUPS;
    if size <= HEADER then []
    else DecodeGroups(cells, size, if base.Some? then base.value else block * WORKGROUPS, WORKGROUPS)
  }

  method NumberRecords(payload: seq<Cell>) returns (accepted: seq<Arrival>)
    ensures accepted == Numbered(payload)
  {
    accepted := [];
    for sequence := 0 to |payload|
      invariant accepted == Numbered(payload[..sequence])
    {
      assert payload[..sequence + 1][..sequence] == payload[..sequence];
      accepted := accepted + [Arrival(sequence, payload[sequence])];
    }
    assert payload[..|payload|] == payload;
  }

  lemma SlicesFit(w: nat, size: nat, cells: nat)
    requires w <= WORKGROUPS && size == cells / WORKGROUPS
    ensures StartOf(w, size) <= cells
  {
    Scale(w, WORKGROUPS, size);
  }

  // One round of the loop over the workgroups.
  method DecodeSlice(cells: seq<Cell>, size: nat, workgroup: nat, start: nat) returns (decoded: seq<Launch>)
    requires HEADER < size && start + size <= |cells|
    ensures decoded == DecodeGroup(cells, size, workgroup, start)
  {
    hide Numbered;
    var duration, total := cells[start], cells[start + 1];
    if total <= 0 {
      return [];
    }
    var capacity := size - HEADER;
    var limit := Min(total, capacity);
    var accepted := NumberRecords(cells[start + HEADER..start + HEADER + limit]);
    decoded := [Launch(workgroup, accepted, total, duration, capacity)];
  }

  lemma {:induction false} NoGroups(cells: seq<Cell>, size: nat, base: nat)
    requires HEADER < size
    ensures StartOf(0, size) <= |cells| && DecodeGroups(cells, size, base, 0) == []
  {
  }

  lemma NextGroup(cells: seq<Cell>, size: nat, base: nat, w: nat)
    requires HEADER < size && StartOf(w + 1, size) <= |cells|
    ensures StartOf(w, size) + size <= |cells|
    ensures DecodeGroups(cells, size, base, w + 1)
            == DecodeGroups(cells, size, base, w) + DecodeGroup(cells, size, base + w, StartOf(w, size))
  {
    hide DecodeGroup, StartOf;
    StartNext(w, size);
  }

  method DecodeSlices(cells: seq<Cell>, size: nat, first: nat) returns (decoded: seq<Launch>)
    requires HEADER < size && size == |cells| / WORKGROUPS
    ensures StartOf(WORKGROUPS, size) <= |cells| && decoded == DecodeGroups(cells, size, first, WORKGROUPS)
  {
    hide DecodeGroup, DecodeGroups, StartOf;
    decoded := [];
    NoGroups(cells, size, first);
    for w := 0 to WORKGROUPS
      invariant StartOf(w, size) <= |cells| && decoded == DecodeGroups(cells, size, first, w)
    {
      SlicesFit(w + 1, size, |cells|);
      NextGroup(cells, size, first, w);
      var records := DecodeSlice(cells, size, first + w, StartOf(w, size));
      decoded := decoded + records;
    }
  }

  method ThroughputWorkgroupCellRecords(cells: seq<Cell>, block: nat, base: Option<nat>) returns (decoded: seq<Launch>)
    ensures decoded == Decode(cells, block, base)
  {
    decoded := [];
    if |cells| < WORKGROUPS * HEADER {
      return;
    }
    var size := |cells| / WORKGROUPS;
    if size <= HEADER {
      return;
    }
    hide DecodeGroups, StartOf;
    decoded := DecodeSlices(cells, size, if base.Some? then base.value else block * WORKGROUPS);
  }

  // --- Log and decoder together ---

  // What the decoder should return for one workgroup, from the plain list of its leader's arrivals.
  function Expected(life: Life, workgroup: nat): seq<Launch> {
    var total := Low32(|life.deltas|);
    if total == 0 then []
    else [Launch(workgroup, Numbered(life.deltas[..Min(total, CAPACITY)]), total, life.duration, CAPACITY)]
  }

  function ExpectedGroups(threads: seq<Thread>, events: seq<Event>, base: nat, n: nat): seq<Launch> {
    if n == 0 then []
    else ExpectedGroups(threads, events, base, n - 1) + Expected(GroupLife(threads, events, n - 1), base + n - 1)
  }

  // Every leader has returned from the kernel.
  ghost predicate AllExited(threads: seq<Thread>, events: seq<Event>) {
    forall i :: 0 <= i < |threads| && threads[i].Leads() ==> LifeOf(threads, events, i).phase.Exited?
  }

  lemma Low32AtMost(n: nat)
    ensures Low32(n) <= n
  {
  }

  lemma PartDecodes(cells: seq<Cell>, g: nat, life: Life, workgroup: nat)
    requires |cells| == STREAM && g < WORKGROUPS && PartTells(Part(cells, g), life)
    requires life.phase.Exited? || life.deltas == []
    ensures DecodeGroup(cells, SLICE, workgroup, g * SLICE) == Expected(life, workgroup)
  {
    hide Low32, Numbered;
    var part, start := Part(cells, g), g * SLICE;
    assert part[0] == cells[start] && part[1] == cells[start + 1];
    Low32AtMost(|life.deltas|);
    if life.deltas != [] {
      var limit := Min(Low32(|life.deltas|), CAPACITY);
      var payload := cells[start + HEADER..start + HEADER + limit];
      forall k | 0 <= k < limit ensures payload[k] == life.deltas[k] {
        assert payload[k] == part[HEADER + k];
      }
      assert payload == life.deltas[..limit];
    } else {
      ZeroLow32();
    }
  }

  lemma ZeroLow32()
    ensures Low32(0) == 0
  {
  }

  lemma {:induction false} GroupsDecode(threads: seq<Thread>, events: seq<Event>, base: nat, n: nat)
    requires OneLeaderPerGroup(threads) && InRange(threads, events) && |events| < TWO64 && AllExited(threads, events)
    requires n <= WORKGROUPS
    ensures DecodeGroups(Run(threads, events).cells, SLICE, base, n) == ExpectedGroups(threads, events, base, n)
  {
    hide Run, PartTells, DecodeGroup, Expected, LifeOf, RegsTell;
    if n > 0 {
      GroupsDecode(threads, events, base, n - 1);
      SlicesTellArrivals(threads, events);
      assert PartTells(Part(Run(threads, events).cells, n - 1), GroupLife(threads, events, n - 1));
      PartDecodes(Run(threads, events).cells, n - 1, GroupLife(threads, events, n - 1), base + n - 1);
    }
  }

  /** For any interleaving of the hooks into a zeroed stream, decoding after all leaders have returned gives, workgroup
      by workgroup, the plain list of arrivals. */
  lemma {:induction false} DecodingGivesTheArrivals(threads: seq<Thread>, events: seq<Event>, block: nat,
                                                    base: Option<nat>)
    requires OneLeaderPerGroup(threads) && InRange(threads, events) && |events| < TWO64 && AllExited(threads, events)
    ensures Decode(Run(threads, events).cells, block, base)
            == ExpectedGroups(threads, events, if base.Some? then base.value else block * WORKGROUPS, WORKGROUPS)
  {
    hide Run;
    GroupsDecode(threads, events, if base.Some? then base.value else block * WORKGROUPS, WORKGROUPS);
  }

  // The true total, the first min(n, 1022) deltas, and nothing for an idle workgroup.
  predicate Exact(life: Life, launches: seq<Launch>, workgroup: nat) {
    if life.deltas == [] then launches == []
    else
      && |launches| == 1 && launches[0].workgroup == workgroup && launches[0].total == |life.deltas|
      && launches[0].accepted == Numbered(life.deltas[..Min(|life.deltas|, CAPACITY)])
      && launches[0].duration == life.duration && launches[0].capacity == CAPACITY
  }

  /** What is decoded for a workgroup is exact if and only if it had fewer than 2^32 arrivals. */
  lemma ExactBelowTwoTo32(life: Life, workgroup: nat)
    ensures Exact(life, Expected(life, workgroup), workgroup) <==> |life.deltas| < TWO32
  {
    hide Numbered;
  }
}
