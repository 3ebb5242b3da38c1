/** The offline aggregation of analysis/throughput.py: captured and dropped arrivals, time bins, and the public
    workgroup ids. */
module ThroughputAnalysis {
  import opened Arithmetic
  import opened Options
  import ThroughputLog

  const BIN_NS: nat := 8000
  const WORKGROUPS := ThroughputLog.WORKGROUPS

  // --- One workgroup's summary over its launches ---

  // What a trace says of one workgroup's part in one launch; old traces know no total and no duration.
  datatype Launch = Launch(deltas: seq<nat>, total: Option<nat>, duration: Option<int>, capacity: nat)

  datatype Totals = Totals(captured: nat, dropped: nat, droppedUnknown: bool, durationTicks: int, bins: map<nat, nat>)

  const NONE := Totals(0, 0, false, 0, map[])

  function Bin(delta: nat): nat {
    delta / BIN_NS
  }

  function Largest(deltas: seq<nat>): nat
    requires deltas != []
  {
    if |deltas| == 1 then deltas[0] else Max(Largest(deltas[..|deltas| - 1]), deltas[|deltas| - 1])
  }

  function Count(bins: map<nat, nat>, bin: nat): nat {
    if bin in bins then bins[bin] else 0
  }

  function Binned(bins: map<nat, nat>, deltas: seq<nat>): map<nat, nat> {
    if deltas == [] then bins else
      var before, bin := Binned(bins, deltas[..|deltas| - 1]), Bin(deltas[|deltas| - 1]);
      before[bin := Count(before, bin) + 1]
  }

  function Dropped(l: Launch): nat {
    if l.total.Some? then Max(0, l.total.value - Min(l.total.value, l.capacity)) else 0
  }

  function Duration(l: Launch): int {
    if l.duration.Some? && l.duration.value > 0 then l.duration.value
    else if l.deltas != [] then Largest(l.deltas)
    else 0
  }

  function Added(t: Totals, l: Launch): Totals {
    Totals(t.captured + |l.deltas|, t.dropped + Dropped(l),
           t.droppedUnknown || (l.total.None? && |l.deltas| >= l.capacity),
           t.durationTicks + Duration(l), Binned(t.bins, l.deltas))
  }

  function AddedAll(launches: seq<Launch>): Totals {
    if launches == [] then NONE else Added(AddedAll(launches[..|launches| - 1]), launches[|launches| - 1])
  }

  method MaxOf(deltas: seq<nat>) returns (m: nat)
    requires deltas != []
    ensures m == Largest(deltas)
    ensures m in deltas && forall k :: 0 <= k < |deltas| ==> deltas[k] <= m
  {
    m := deltas[0];
    assert deltas[..1] == [deltas[0]];
    for i := 1 to |deltas|
      invariant m == Largest(deltas[..i])
      invariant m in deltas && forall k :: 0 <= k < i ==> deltas[k] <= m
    {
      assert deltas[..i + 1][..i] == deltas[..i];
      if deltas[i] > m {
        m := deltas[i];
      }
    }
    assert deltas[..|deltas|] == deltas;
  }

  class ThroughputAggregate {
    var captured: nat
    var dropped: nat
    var droppedUnknown: bool
    var durationTicks: int
    var binCounts: map<nat, nat>

    ghost function Value(): Totals reads this {
      Totals(captured, dropped, droppedUnknown, durationTicks, binCounts)
    }

    constructor ()
      ensures Value() == NONE
    {
      captured, dropped, droppedUnknown, durationTicks, binCounts := 0, 0, false, 0, map[];
    }

    method AddLaunch(l: Launch)
      modifies this
      ensures Value() == Added(old(Value()), l)
    {
      hide Binned, Largest;
      var count := |l.deltas|;
      captured := captured + count;
      if l.total.Some? {
        dropped := dropped + Max(0, l.total.value - Min(l.total.value, l.capacity));
      } else if count >= l.capacity {
        droppedUnknown := true;
      }
      if l.duration.Some? && l.duration.value > 0 {
        durationTicks := durationTicks + l.duration.value;
      } else if l.deltas != [] {
        var longest := MaxOf(l.deltas);
        durationTicks := durationTicks + longest;
      }
      CountBins(l.deltas);
    }

    method CountBins(deltas: seq<nat>)
      modifies `binCounts
      ensures binCounts == Binned(old(binCounts), deltas)
    {
      for i := 0 to |deltas|
        invariant binCounts == Binned(old(binCounts), deltas[..i])
      {
        assert deltas[..i + 1][..i] == deltas[..i];
        var bin := Bin(deltas[i]);
        binCounts := binCounts[bin := Count(binCounts, bin) + 1];
      }
      assert deltas[..|deltas|] == deltas;
    }
  }

  /** Deltas share a bin exactly if they lie in the same interval of 8000 ns. */
  lemma BinsAreIntervals(delta: nat, bin: nat)
    ensures Bin(delta) == bin <==> 8000 * bin <= delta < 8000 * (bin + 1)
  {
  }

  lemma {:induction false} LargestIsMaximum(deltas: seq<nat>)
    requires deltas != []
    ensures Largest(deltas) in deltas && forall k :: 0 <= k < |deltas| ==> deltas[k] <= Largest(deltas)
  {
    if |deltas| > 1 {
      LargestIsMaximum(deltas[..|deltas| - 1]);
    }
  }

  // The ticks of a launch: its duration if that is known and positive, or else its last arrival.
  ghost predicate TicksOf(l: Launch, ticks: int) {
    if l.duration.Some? && l.duration.value > 0 then ticks == l.duration.value
    else if l.deltas != [] then ticks in l.deltas && forall k :: 0 <= k < |l.deltas| ==> l.deltas[k] <= ticks
    else ticks == 0
  }

  function TickSum(ticks: seq<int>): int {
    if ticks == [] then 0 else TickSum(ticks[..|ticks| - 1]) + ticks[|ticks| - 1]
  }

  /** The duration of a summary is the sum of its launches' ticks. */
  lemma {:induction false} DurationsAddUp(launches: seq<Launch>) returns (ticks: seq<int>)
    ensures |ticks| == |launches| && forall i :: 0 <= i < |launches| ==> TicksOf(launches[i], ticks[i])
    ensures AddedAll(launches).durationTicks == TickSum(ticks)
  {
    hide Largest, Binned;
    ticks := [];
    if launches != [] {
      var front, last := launches[..|launches| - 1], launches[|launches| - 1];
      var before := DurationsAddUp(front);
      if last.deltas != [] {
        LargestIsMaximum(last.deltas);
      }
      ticks := before + [Duration(last)];
      assert ticks[..|ticks| - 1] == before;
    }
  }

  // --- Conservation ---

  // A launch with a known total holds as many deltas as fit.
  predicate Filled(l: Launch) {
    l.total.Some? && |l.deltas| == Min(l.total.value, l.capacity)
  }

  function Arrivals(launches: seq<Launch>): nat {
    if launches == [] then 0 else
      Arrivals(launches[..|launches| - 1]) + match launches[|launches| - 1].total case Some(n) => n case None => 0
  }

  /** Over any launches with known totals nothing is lost: what was captured and what was dropped add up to what
      arrived, and the loss is known exactly. */
  lemma {:induction false} CapturedAndDroppedAreAllArrivals(launches: seq<Launch>)
    requires forall i :: 0 <= i < |launches| ==> Filled(launches[i])
    ensures AddedAll(launches).captured + AddedAll(launches).dropped == Arrivals(launches)
    ensures !AddedAll(launches).droppedUnknown
  {
    if launches != [] {
      CapturedAndDroppedAreAllArrivals(launches[..|launches| - 1]);
      assert Filled(launches[|launches| - 1]);
    }
  }

  // What a known total says was lost.
  function Lost(launches: seq<Launch>): nat {
    if launches == [] then 0 else
      var l := launches[|launches| - 1];
      Lost(launches[..|launches| - 1])
      + if l.total.Some? && l.total.value > l.capacity then l.total.value - l.capacity else 0
  }

  /** Dropped arrivals are those beyond the capacity of launches with a known total; the loss is reported as unknown
      exactly if a launch without one is full. */
  lemma {:induction false} LossIsTold(launches: seq<Launch>)
    ensures AddedAll(launches).dropped == Lost(launches)
    ensures AddedAll(launches).droppedUnknown <==>
            exists i :: 0 <= i < |launches| && launches[i].total.None? && |launches[i].deltas| >= launches[i].capacity
  {
    hide Binned, Duration;
    if launches != [] {
      var front := launches[..|launches| - 1];
      LossIsTold(front);
      assert forall i :: 0 <= i < |front| ==> launches[i] == front[i];
    }
  }

  function ToLaunch(l: ThroughputLog.Launch): Launch {
    Launch(seq(|l.accepted|, i requires 0 <= i < |l.accepted| => l.accepted[i].delta),
           Some(l.total), Some(l.duration), l.capacity)
  }

  lemma DecodedGroupIsFilled(cells: seq<ThroughputLog.Cell>, size: nat, workgroup: nat, start: nat)
    requires ThroughputLog.HEADER < size && start + size <= |cells|
    ensures forall l :: l in ThroughputLog.DecodeGroup(cells, size, workgroup, start) ==> Filled(ToLaunch(l))
  {
    hide ThroughputLog.Numbered;
  }

  // Every launch that the cell decoder returns is one of those.
  lemma {:induction false} DecodedGroupsAreFilled(cells: seq<ThroughputLog.Cell>, size: nat, base: nat, n: nat)
    requires ThroughputLog.HEADER < size && ThroughputLog.StartOf(n, size) <= |cells|
    ensures forall l :: l in ThroughputLog.DecodeGroups(cells, size, base, n) ==> Filled(ToLaunch(l))
  {
    hide ThroughputLog.DecodeGroup, Filled, ToLaunch;
    if n > 0 {
      ThroughputLog.StartNext(n - 1, size);
      DecodedGroupsAreFilled(cells, size, base, n - 1);
      DecodedGroupIsFilled(cells, size, base + n - 1, ThroughputLog.StartOf(n - 1, size));
    }
  }

  lemma DecodedLaunchesAreFilled(cells: seq<ThroughputLog.Cell>, block: nat, base: Option<nat>)
    ensures forall l :: l in ThroughputLog.Decode(cells, block, base) ==> Filled(ToLaunch(l))
  {
    hide ThroughputLog.DecodeGroups, Filled, ToLaunch;
    var size := |cells| / ThroughputLog.WORKGROUPS;
    if size > ThroughputLog.HEADER {
      DecodedGroupsAreFilled(cells, size, if base.Some? then base.value else block * ThroughputLog.WORKGROUPS,
                             ThroughputLog.WORKGROUPS);
    }
  }

  // --- Bins ---

  // The deltas of all launches, as the emitted CSV rows list them.
  function Rows(launches: seq<Launch>): seq<nat> {
    if launches == [] then [] else Rows(launches[..|launches| - 1]) + launches[|launches| - 1].deltas
  }

  function RowsInBin(rows: seq<nat>, bin: nat): nat {
    if rows == [] then 0 else RowsInBin(rows[..|rows| - 1], bin) + if Bin(rows[|rows| - 1]) == bin then 1 else 0
  }

  lemma {:induction false} RowsConcat(a: seq<nat>, b: seq<nat>, bin: nat)
    ensures RowsInBin(a + b, bin) == RowsInBin(a, bin) + RowsInBin(b, bin)
  {
    if b == [] {
      assert a + b == a;
    } else {
      assert (a + b)[..|a + b| - 1] == a + b[..|b| - 1];
      RowsConcat(a, b[..|b| - 1], bin);
    }
  }

  lemma {:induction false} BinnedCounts(bins: map<nat, nat>, deltas: seq<nat>, bin: nat)
    ensures Count(Binned(bins, deltas), bin) == Count(bins, bin) + RowsInBin(deltas, bin)
    ensures bin in Binned(bins, deltas) <==> bin in bins || RowsInBin(deltas, bin) > 0
  {
    hide Bin;
    if deltas != [] {
      BinnedCounts(bins, deltas[..|deltas| - 1], bin);
    }
  }

  /** A bin counts the CSV rows whose bin index it is, and is there exactly if some row has that index. */
  lemma {:induction false} BinsGroupTheRows(launches: seq<Launch>, bin: nat)
    ensures Count(AddedAll(launches).bins, bin) == RowsInBin(Rows(launches), bin)
    ensures bin in AddedAll(launches).bins <==> RowsInBin(Rows(launches), bin) > 0
  {
    if launches != [] {
      var front, last := launches[..|launches| - 1], launches[|launches| - 1];
      BinsGroupTheRows(front, bin);
      BinnedCounts(AddedAll(front).bins, last.deltas, bin);
      RowsConcat(Rows(front), last.deltas, bin);
    }
  }

  // The counts of all bins below a bound.
  function Sum(bins: map<nat, nat>, bound: nat): nat {
    if bound == 0 then 0 else Sum(bins, bound - 1) + Count(bins, bound - 1)
  }

  lemma {:induction false} SumBinned(bins: map<nat, nat>, deltas: seq<nat>, bound: nat)
    requires forall k :: 0 <= k < |deltas| ==> Bin(deltas[k]) < bound
    ensures Sum(Binned(bins, deltas), bound) == Sum(bins, bound) + |deltas|
  {
    hide Bin;
    if deltas != [] {
      var front, bin := deltas[..|deltas| - 1], Bin(deltas[|deltas| - 1]);
      SumBinned(bins, front, bound);
      SumUpdated(Binned(bins, front), bin, bound);
    }
  }

  lemma {:induction false} SumUpdated(bins: map<nat, nat>, bin: nat, bound: nat)
    ensures Sum(bins[bin := Count(bins, bin) + 1], bound) == Sum(bins, bound) + if bin < bound then 1 else 0
  {
    if bound > 0 {
      SumUpdated(bins, bin, bound - 1);
    }
  }

  /** The bins together count every captured arrival. */
  lemma {:induction false} BinsSumToCaptured(launches: seq<Launch>, bound: nat)
    requires forall i, k :: 0 <= i < |launches| && 0 <= k < |launches[i].deltas| ==> Bin(launches[i].deltas[k]) < bound
    ensures Sum(AddedAll(launches).bins, bound) == AddedAll(launches).captured == |Rows(launches)|
  {
    hide Bin;
    if launches == [] {
      SumNone(bound);
    } else {
      BinsSumToCaptured(launches[..|launches| - 1], bound);
      SumBinned(AddedAll(launches[..|launches| - 1]).bins, launches[|launches| - 1].deltas, bound);
    }
  }

  lemma {:induction false} SumNone(bound: nat)
    ensures Sum(map[], bound) == 0
  {
    if bound > 0 {
      SumNone(bound - 1);
    }
  }

  // --- All workgroups of a trace root ---

  datatype Key = Key(trace: string, rank: int, workgroup: nat)
  datatype Item = Item(key: Key, launch: Launch)
  datatype Row = Row(key: Key, sequence: nat, delta: nat, bin: nat)

  // A launch without records and without a total is skipped.
  predicate Kept(item: Item) {
    item.launch.deltas != [] || (item.launch.total.Some? && item.launch.total.value != 0)
  }

  function LaunchesOf(items: seq<Item>, key: Key): seq<Launch> {
    if items == [] then [] else
      var before, last := LaunchesOf(items[..|items| - 1], key), items[|items| - 1];
      if Kept(last) && last.key == key then before + [last.launch] else before
  }

  function ItemRows(key: Key, deltas: seq<nat>): seq<Row> {
    if deltas == [] then [] else
      var last := deltas[|deltas| - 1];
      ItemRows(key, deltas[..|deltas| - 1]) + [Row(key, |deltas| - 1, last, Bin(last))]
  }

  function AllRows(items: seq<Item>): seq<Row> {
    if items == [] then [] else
      AllRows(items[..|items| - 1]) + ItemRows(items[|items| - 1].key, items[|items| - 1].launch.deltas)
  }

  method EmitRows(item: Item, rows: seq<Row>) returns (more: seq<Row>)
    ensures more == rows + ItemRows(item.key, item.launch.deltas)
  {
    var deltas := item.launch.deltas;
    more := rows;
    for i := 0 to |deltas|
      invariant more == rows + ItemRows(item.key, deltas[..i])
    {
      assert deltas[..i + 1][..i] == deltas[..i];
      more := more + [Row(item.key, i, deltas[i], Bin(deltas[i]))];
    }
    assert deltas[..|deltas|] == deltas;
  }

  function Totalled(items: seq<Item>, key: Key): Totals {
    AddedAll(LaunchesOf(items, key))
  }

  lemma TotalledLast(items: seq<Item>, item: Item, key: Key)
    ensures Totalled(items + [item], key)
            == if Kept(item) && item.key == key then Added(Totalled(items, key), item.launch) else Totalled(items, key)
  {
    hide Added, Kept;
    assert (items + [item])[..|items + [item]| - 1] == items;
    var before := LaunchesOf(items, key);
    assert (before + [item.launch])[..|before + [item.launch]| - 1] == before;
  }

  // One aggregate object for each key, holding the key's launches so far.
  ghost predicate Aggregated(aggregates: map<Key, ThroughputAggregate>, items: seq<Item>)
    reads aggregates.Values
  {
    && (forall key :: key in aggregates ==> aggregates[key].Value() == Totalled(items, key))
    && (forall key :: key !in aggregates ==> Totalled(items, key) == NONE)
    && (forall k, k' :: k in aggregates && k' in aggregates && k != k' ==> aggregates[k] != aggregates[k'])
  }

  method AddItem(aggregates: map<Key, ThroughputAggregate>, ghost items: seq<Item>, item: Item)
    returns (more: map<Key, ThroughputAggregate>)
    requires Aggregated(aggregates, items)
    modifies aggregates.Values
    ensures Aggregated(more, items + [item])
    ensures forall key :: key in more ==> if key in aggregates then more[key] == aggregates[key] else fresh(more[key])
  {
    hide Totalled, Kept, Added;
    more := aggregates;
    forall key ensures Totalled(items + [item], key)
                       == if Kept(item) && item.key == key then Added(Totalled(items, key), item.launch)
                          else Totalled(items, key)
    {
      TotalledLast(items, item, key);
    }
    if Kept(item) {
      if item.key !in more {
        var aggregate := new ThroughputAggregate();
        more := more[item.key := aggregate];
      }
      more[item.key].AddLaunch(item.launch);
    }
  }

  lemma {:induction false} RowsNext(items: seq<Item>, item: Item)
    ensures AllRows(items + [item]) == AllRows(items) + ItemRows(item.key, item.launch.deltas)
  {
    hide ItemRows;
    assert (items + [item])[..|items + [item]| - 1] == items;
  }

  method ReadThroughputRoot(items: seq<Item>) returns (aggregates: map<Key, ThroughputAggregate>, rows: seq<Row>)
    ensures Aggregated(aggregates, items) && rows == AllRows(items)
    ensures forall key :: key in aggregates ==> fresh(aggregates[key])
  {
    hide Totalled, AllRows, ItemRows;
    aggregates, rows := map[], [];
    NoItems();
    for i := 0 to |items|
      invariant Aggregated(aggregates, items[..i]) && rows == AllRows(items[..i])
      invariant forall key :: key in aggregates ==> fresh(aggregates[key])
    {
      assert items[..i + 1] == items[..i] + [items[i]];
      RowsNext(items[..i], items[i]);
      rows := EmitRows(items[i], rows);
      aggregates := AddItem(aggregates, items[..i], items[i]);
    }
    assert items[..|items|] == items;
  }

  lemma NoItems()
    ensures AllRows([]) == [] && forall key :: Totalled([], key) == NONE
  {
  }

  // The arrivals that the items of a key tell of, by their total or, where that is unknown, by their deltas.
  function ArrivalsTold(items: seq<Item>, key: Key): nat {
    if items == [] then 0 else
      var last := items[|items| - 1];
      ArrivalsTold(items[..|items| - 1], key)
      + if last.key != key then 0 else if last.launch.total.Some? then last.launch.total.value else |last.launch.deltas|
  }

  function ArrivalsKept(launches: seq<Launch>): nat {
    if launches == [] then 0 else
      var last := launches[|launches| - 1];
      ArrivalsKept(launches[..|launches| - 1]) + if last.total.Some? then last.total.value else |last.deltas|
  }

  lemma {:induction false} LaunchesLast(items: seq<Item>, item: Item, key: Key)
    ensures LaunchesOf(items + [item], key)
            == LaunchesOf(items, key) + if Kept(item) && item.key == key then [item.launch] else []
  {
    hide Kept;
    assert (items + [item])[..|items + [item]| - 1] == items;
  }

  lemma {:induction false} KeptTold(launches: seq<Launch>, l: Launch)
    ensures ArrivalsKept(launches + [l])
            == ArrivalsKept(launches) + if l.total.Some? then l.total.value else |l.deltas|
  {
    assert (launches + [l])[..|launches + [l]| - 1] == launches;
  }

  lemma KeptTells(item: Item)
    ensures var l := item.launch;
            if Kept(item) then l.deltas != [] || (l.total.Some? && l.total.value > 0)
            else l.deltas == [] && (l.total.Some? ==> l.total.value == 0)
  {
  }

  ghost predicate AllTell(launches: seq<Launch>) {
    forall i :: 0 <= i < |launches| ==>
      launches[i].deltas != [] || (launches[i].total.Some? && launches[i].total.value > 0)
  }

  lemma AllTellNext(launches: seq<Launch>, l: Launch)
    requires AllTell(launches) && (l.deltas != [] || (l.total.Some? && l.total.value > 0))
    ensures AllTell(launches + [l])
  {
  }

  /** The launches that are skipped tell of no arrival, and no launch that is kept tells of none. */
  lemma {:induction false} SkippedLaunchesAreIdle(items: seq<Item>, key: Key)
    ensures ArrivalsKept(LaunchesOf(items, key)) == ArrivalsTold(items, key)
    ensures AllTell(LaunchesOf(items, key))
  {
    if items != [] {
      hide Kept, LaunchesOf, ArrivalsKept, AllTell;
      var front, last := items[..|items| - 1], items[|items| - 1];
      SkippedLaunchesAreIdle(front, key);
      assert items == front + [last];
      LaunchesLast(front, last, key);
      KeptTells(last);
      if Kept(last) && last.key == key {
        KeptTold(LaunchesOf(front, key), last.launch);
        AllTellNext(LaunchesOf(front, key), last.launch);
      } else {
        assert LaunchesOf(items, key) == LaunchesOf(front, key);
      }
    }
  }

  function RowsOf(rows: seq<Row>, key: Key): seq<nat> {
    if rows == [] then [] else
      RowsOf(rows[..|rows| - 1], key) + if rows[|rows| - 1].key == key then [rows[|rows| - 1].delta] else []
  }

  lemma {:induction false} RowsOfConcat(a: seq<Row>, b: seq<Row>, key: Key)
    ensures RowsOf(a + b, key) == RowsOf(a, key) + RowsOf(b, key)
  {
    if b == [] {
      assert a + b == a;
    } else {
      assert (a + b)[..|a + b| - 1] == a + b[..|b| - 1];
      RowsOfConcat(a, b[..|b| - 1], key);
    }
  }

  lemma {:induction false} RowsOfItem(key: Key, deltas: seq<nat>, other: Key)
    ensures RowsOf(ItemRows(key, deltas), other) == if key == other then deltas else []
  {
    if deltas != [] {
      var rows := ItemRows(key, deltas);
      RowsOfItem(key, deltas[..|deltas| - 1], other);
      assert rows[..|rows| - 1] == ItemRows(key, deltas[..|deltas| - 1]);
    }
  }

  /** The CSV rows of a workgroup are the arrivals that its aggregate was fed. */
  lemma {:induction false} RowsMatchAggregates(items: seq<Item>, key: Key)
    ensures RowsOf(AllRows(items), key) == Rows(LaunchesOf(items, key))
  {
    if items != [] {
      var front, last := items[..|items| - 1], items[|items| - 1];
      RowsMatchAggregates(front, key);
      RowsOfItem(last.key, last.launch.deltas, key);
      RowsOfConcat(AllRows(front), ItemRows(last.key, last.launch.deltas), key);
    }
  }

  // --- Workgroup ids ---

  function WorkgroupBaseForWarp(block: nat, blocks: nat, warps: nat, warp: nat): nat {
    if warp == 0 then block * WORKGROUPS
    else (blocks + (block * Max(0, warps - 1) + (warp - 1))) * WORKGROUPS
  }

  function IdOf(block: nat, blocks: nat, warps: nat, warp: nat, slice: nat): nat {
    WorkgroupBaseForWarp(block, blocks, warps, warp) + slice
  }

  datatype Place = Place(block: nat, warp: nat, slice: nat)

  predicate Fits(p: Place, blocks: nat, warps: nat) {
    p.block < blocks && p.warp < warps && p.slice < WORKGROUPS
  }

  // Where an id comes from.
  function PlaceOf(id: nat, blocks: nat, warps: nat): Place
    requires warps > 0
  {
    var stream := id / WORKGROUPS;
    if stream < blocks then Place(stream, 0, id % WORKGROUPS)
    else if warps == 1 then Place(stream, 0, id % WORKGROUPS)
    else Place((stream - blocks) / (warps - 1), 1 + (stream - blocks) % (warps - 1), id % WORKGROUPS)
  }

  // The streams of the warps other than the first follow those of all first warps.
  lemma ExtraStream(block: nat, blocks: nat, d: nat, r: nat)
    requires block < blocks && r < d
    ensures (block * d + r) / d == block && (block * d + r) % d == r
    ensures blocks + (block * d + r) < blocks * (d + 1)
  {
    Digits(block, r, d);
    Scale(block + 1, blocks, d);
  }

  /** Ids of different places differ, and stay below four times the number of warps. */
  lemma IdsAreDistinct(p: Place, blocks: nat, warps: nat)
    requires Fits(p, blocks, warps)
    ensures var id := IdOf(p.block, blocks, warps, p.warp, p.slice);
            PlaceOf(id, blocks, warps) == p && id < WORKGROUPS * (blocks * warps)
  {
    if p.warp == 0 {
      StreamOf(p.block, p.slice);
      Scale(1, warps, blocks);
    } else {
      ExtraStream(p.block, blocks, warps - 1, p.warp - 1);
      var stream := blocks + (p.block * (warps - 1) + (p.warp - 1));
      StreamOf(stream, p.slice);
      assert IdOf(p.block, blocks, warps, p.warp, p.slice) == stream * WORKGROUPS + p.slice;
    }
  }

  lemma StreamOf(stream: nat, slice: nat)
    requires slice < WORKGROUPS
    ensures (stream * WORKGROUPS + slice) / WORKGROUPS == stream && (stream * WORKGROUPS + slice) % WORKGROUPS == slice
  {
  }

  /** Every id below that bound is used. */
  lemma IdsTile(id: nat, blocks: nat, warps: nat)
    requires warps > 0 && id < WORKGROUPS * (blocks * warps)
    ensures var p := PlaceOf(id, blocks, warps);
            Fits(p, blocks, warps) && IdOf(p.block, blocks, warps, p.warp, p.slice) == id
  {
    var stream := id / WORKGROUPS;
    assert stream < blocks * warps;
    if stream >= blocks && warps > 1 {
      var d, extra := warps - 1, stream - blocks;
      assert blocks * warps == blocks + blocks * d;
      assert extra == (extra / d) * d + extra % d;
      if extra / d >= blocks {
        Scale(blocks, extra / d, d);
      }
    }
  }

  // --- Blocks with different numbers of warps ---

  // The number of the stream that an id belongs to.
  function StreamFor(block: nat, blocks: nat, warps: nat, warp: nat): nat {
    if warp == 0 then block else blocks + (block * Max(0, warps - 1) + (warp - 1))
  }

  predicate InTable(p: Place, warps: seq<nat>) {
    p.block < |warps| && p.warp < warps[p.block] && p.slice < WORKGROUPS
  }

  function TableId(p: Place, warps: seq<nat>): nat
    requires InTable(p, warps)
  {
    IdOf(p.block, |warps|, warps[p.block], p.warp, p.slice)
  }

  // The streams of the later warps of block b are those from b * (warps - 1) up to (b + 1) * (warps - 1).
  predicate Apart(a: nat, b: nat, warps: seq<nat>)
    requires a < |warps| && b < |warps|
  {
    || warps[a] <= 1 || warps[b] <= 1
    || (a + 1) * (warps[a] - 1) <= b * (warps[b] - 1) || (b + 1) * (warps[b] - 1) <= a * (warps[a] - 1)
  }

  ghost predicate NoClash(warps: seq<nat>) {
    forall p: Place, q: Place :: InTable(p, warps) && InTable(q, warps) && p != q
      ==> TableId(p, warps) != TableId(q, warps)
  }

  lemma IdIsStreamAndSlice(p: Place, warps: seq<nat>)
    requires InTable(p, warps)
    ensures TableId(p, warps) / WORKGROUPS == StreamFor(p.block, |warps|, warps[p.block], p.warp)
    ensures TableId(p, warps) % WORKGROUPS == p.slice
  {
    StreamOf(StreamFor(p.block, |warps|, warps[p.block], p.warp), p.slice);
  }

  lemma ExtraStreamRange(p: Place, warps: seq<nat>)
    requires InTable(p, warps) && p.warp > 0
    ensures var d := warps[p.block] - 1; var x := p.block * d + (p.warp - 1);
            && StreamFor(p.block, |warps|, warps[p.block], p.warp) == |warps| + x
            && p.block * d <= x < (p.block + 1) * d
  {
    var d := warps[p.block] - 1;
    assert (p.block + 1) * d == p.block * d + d;
  }

  lemma ApartIdsDiffer(p: Place, q: Place, warps: seq<nat>)
    requires InTable(p, warps) && InTable(q, warps) && p != q
    requires p.block != q.block ==> Apart(p.block, q.block, warps)
    ensures TableId(p, warps) != TableId(q, warps)
  {
    hide TableId, Apart;
    IdIsStreamAndSlice(p, warps);
    IdIsStreamAndSlice(q, warps);
    if (p.block, p.warp) != (q.block, q.warp) {
      StreamsDiffer(p, q, warps);
    }
  }

  lemma StreamsDiffer(p: Place, q: Place, warps: seq<nat>)
    requires InTable(p, warps) && InTable(q, warps) && (p.block, p.warp) != (q.block, q.warp)
    requires p.block != q.block ==> Apart(p.block, q.block, warps)
    ensures StreamFor(p.block, |warps|, warps[p.block], p.warp) != StreamFor(q.block, |warps|, warps[q.block], q.warp)
  {
    if p.warp > 0 && q.warp > 0 {
      ExtraStreamRange(p, warps);
      ExtraStreamRange(q, warps);
      hide StreamFor;
    }
  }

  // Where two blocks are not apart, a stream belongs to both.
  lemma SharedId(a: nat, b: nat, warps: seq<nat>) returns (p: Place, q: Place)
    requires a < b < |warps| && !Apart(a, b, warps)
    ensures InTable(p, warps) && InTable(q, warps) && p != q && TableId(p, warps) == TableId(q, warps)
  {
    var da, db := warps[a] - 1, warps[b] - 1;
    var x := Max(a * da, b * db);
    assert (a + 1) * da == a * da + da && (b + 1) * db == b * db + db;
    p, q := Place(a, 1 + (x - a * da), 0), Place(b, 1 + (x - b * db), 0);
    assert StreamFor(a, |warps|, warps[a], p.warp) == |warps| + x == StreamFor(b, |warps|, warps[b], q.warp);
    SharedStream(p, q, warps);
  }

  lemma SharedStream(p: Place, q: Place, warps: seq<nat>)
    requires InTable(p, warps) && InTable(q, warps) && p.slice == q.slice
    requires StreamFor(p.block, |warps|, warps[p.block], p.warp) == StreamFor(q.block, |warps|, warps[q.block], q.warp)
    ensures TableId(p, warps) == TableId(q, warps)
  {
    hide TableId, StreamFor;
    IdIsStreamAndSlice(p, warps);
    IdIsStreamAndSlice(q, warps);
  }

  /** For blocks with any numbers of warps, no two places share an id if and only if, for every two blocks, one has at
      most one warp, or their ranges of later streams do not overlap. */
  lemma IdsClashExactly(warps: seq<nat>)
    ensures NoClash(warps) <==> forall a, b :: 0 <= a < b < |warps| ==> Apart(a, b, warps)
  {
    hide Apart, InTable, TableId;
    if NoClash(warps) {
      forall a, b | 0 <= a < b < |warps| ensures Apart(a, b, warps) {
        if !Apart(a, b, warps) {
          var p, q := SharedId(a, b, warps);
        }
      }
    }
    if forall a, b :: 0 <= a < b < |warps| ==> Apart(a, b, warps) {
      forall p: Place, q: Place | InTable(p, warps) && InTable(q, warps) && p != q
        ensures TableId(p, warps) != TableId(q, warps)
      {
        PlacesAreApart(p, q, warps);
        ApartIdsDiffer(p, q, warps);
      }
    }
  }

  lemma PlacesAreApart(p: Place, q: Place, warps: seq<nat>)
    requires InTable(p, warps) && InTable(q, warps)
    requires forall a, b :: 0 <= a < b < |warps| ==> Apart(a, b, warps)
    ensures p.block < |warps| && q.block < |warps|
    ensures p.block != q.block ==> Apart(p.block, q.block, warps)
  {
    if p.block > q.block {
      assert Apart(q.block, p.block, warps);
    }
  }

  // With an equal number of warps in every block none do.
  lemma EvenWarpsNeverClash(blocks: nat, n: nat)
    ensures NoClash(seq(blocks, _ => n))
  {
    hide NoClash;
    var even: seq<nat> := seq(blocks, _ => n);
    forall a, b | 0 <= a < b < |even| ensures Apart(a, b, even) {
      if n > 1 {
        Scale(a + 1, b, n - 1);
      }
    }
    IdsClashExactly(even);
  }

  // Uneven numbers can clash: a block of three warps before one of two does, the other way round does not.
  lemma UnevenWarpsClash()
    ensures NoClash([2, 3]) && !NoClash([3, 2])
    ensures IdOf(0, 2, 3, 2, 0) == IdOf(1, 2, 2, 1, 0)
  {
    hide NoClash;
    IdsClashExactly([2, 3]);
    IdsClashExactly([3, 2]);
    assert Apart(0, 1, [2, 3]) && !Apart(0, 1, [3, 2]);
  }
}
