/** Offset closure in analysis/ptp_alignment.py: pair offsets derived from root-relative samples, the residuals
    that judge them, and the interpolated percentiles of the summaries, over reals. */
module PtpAlignment {
  import opened Arithmetic
  import opened Options

  // --- Root-relative offsets ---

  datatype Pair = Pair(src: nat, dst: nat)
  type Offsets = map<Pair, seq<int>>

  function Get(offsets: Offsets, src: nat, dst: nat): seq<int> {
    if Pair(src, dst) in offsets then offsets[Pair(src, dst)] else []
  }

  function Negated(values: seq<int>): (r: seq<int>)
    ensures |r| == |values| && forall i :: 0 <= i < |r| ==> r[i] == -values[i]
  {
    seq(|values|, i requires 0 <= i < |values| => -values[i])
  }

  function Zeros(n: nat): (r: seq<int>)
    ensures |r| == n && forall i :: 0 <= i < n ==> r[i] == 0
  {
    seq(n, _ => 0)
  }

  // What was measured between the root and a rank, or the negated inverse when only that was.
  function Measured(offsets: Offsets, root: nat, rank: nat): seq<int> {
    if Get(offsets, root, rank) != [] then Get(offsets, root, rank) else Negated(Get(offsets, rank, root))
  }

  // The longest measured series of a rank below n.
  function Longest(offsets: Offsets, root: nat, n: nat): nat {
    if n == 0 then 0
    else Max(Longest(offsets, root, n - 1), if n - 1 == root then 0 else |Measured(offsets, root, n - 1)|)
  }

  // A rank's series of clock offsets to the root; empty where there is none.
  function Series(offsets: Offsets, devices: nat, root: nat, rank: nat): seq<int> {
    if rank == root then Zeros(Longest(offsets, root, devices)) else Measured(offsets, root, rank)
  }

  function Difference(a: seq<int>, b: seq<int>): (r: seq<int>)
    ensures |r| == Min(|a|, |b|) && forall i :: 0 <= i < |r| ==> r[i] == b[i] - a[i]
  {
    seq(Min(|a|, |b|), i requires 0 <= i < Min(|a|, |b|) => b[i] - a[i])
  }

  // The derived table: every ordered pair of distinct ranks whose two series are not empty.
  ghost predicate IsDerived(offsets: Offsets, devices: nat, root: nat, derived: Offsets) {
    forall p :: (p in derived <==> InTable(offsets, devices, root, p))
      && (p in derived ==>
            derived[p] == Difference(Series(offsets, devices, root, p.src), Series(offsets, devices, root, p.dst)))
  }

  predicate InTable(offsets: Offsets, devices: nat, root: nat, p: Pair) {
    && p.src < devices && p.dst < devices && p.src != p.dst
    && Series(offsets, devices, root, p.src) != [] && Series(offsets, devices, root, p.dst) != []
  }

  method NegatedSeries(values: seq<int>) returns (r: seq<int>)
    ensures r == Negated(values)
  {
    r := [];
    for i := 0 to |values|
      invariant |r| == i && forall k :: 0 <= k < i ==> r[k] == -values[k]
    {
      r := r + [-values[i]];
    }
  }

  // The series by rank; a rank below n is there exactly if its series is not empty.
  ghost predicate HoldsSeries(offsets: Offsets, root: nat, n: nat, series: map<nat, seq<int>>) {
    && (forall rank: nat :: rank in series <==> rank < n && rank != root && Measured(offsets, root, rank) != [])
    && (forall rank: nat :: rank in series ==> series[rank] == Measured(offsets, root, rank))
  }

  method RootSeries(offsets: Offsets, devices: nat, root: nat) returns (series: map<nat, seq<int>>, longest: nat)
    ensures HoldsSeries(offsets, root, devices, series) && longest == Longest(offsets, root, devices)
  {
    series, longest := map[], 0;
    for rank := 0 to devices
      invariant HoldsSeries(offsets, root, rank, series) && longest == Longest(offsets, root, rank)
    {
      if rank != root {
        var direct := Get(offsets, root, rank);
        if direct != [] {
          series := series[rank := direct];
          longest := Max(longest, |direct|);
        } else {
          var inverse := Get(offsets, rank, root);
          if inverse != [] {
            var negated := NegatedSeries(inverse);
            series := series[rank := negated];
            longest := Max(longest, |negated|);
          }
        }
      }
    }
  }

  method Subtract(a: seq<int>, b: seq<int>) returns (r: seq<int>)
    ensures r == Difference(a, b)
  {
    r := [];
    for i := 0 to Min(|a|, |b|)
      invariant |r| == i && forall k :: 0 <= k < i ==> r[k] == b[k] - a[k]
    {
      r := r + [b[i] - a[i]];
    }
  }

  // The table after the source ranks before src, and for src the destinations before dst.
  ghost predicate PartlyDerived(offsets: Offsets, devices: nat, root: nat, src: nat, dst: nat, derived: Offsets) {
    forall p :: (p in derived <==> InTable(offsets, devices, root, p) && (p.src < src || (p.src == src && p.dst < dst)))
      && (p in derived ==>
            derived[p] == Difference(Series(offsets, devices, root, p.src), Series(offsets, devices, root, p.dst)))
  }

  // The series of every rank, the root's included.
  ghost predicate AllSeries(offsets: Offsets, devices: nat, root: nat, series: map<nat, seq<int>>) {
    && (forall rank: nat :: rank in series ==> series[rank] == Series(offsets, devices, root, rank))
    && (forall rank: nat :: rank < devices && Series(offsets, devices, root, rank) != [] ==> rank in series)
  }

  // The offsets of one more pair.
  lemma NextPair(offsets: Offsets, devices: nat, root: nat, src: nat, dst: nat, derived: Offsets)
    requires src < devices && dst < devices && PartlyDerived(offsets, devices, root, src, dst, derived)
    ensures var p, a, b := Pair(src, dst), Series(offsets, devices, root, src), Series(offsets, devices, root, dst);
            PartlyDerived(offsets, devices, root, src, dst + 1,
                          if src != dst && a != [] && b != [] then derived[p := Difference(a, b)] else derived)
  {
    hide Series, Difference;
  }

  method DeriveRootRelativeOffsets(offsets: Offsets, devices: nat, root: nat) returns (derived: Offsets)
    ensures IsDerived(offsets, devices, root, derived)
  {
    hide Measured, Longest, InTable;
    var series, longest := RootSeries(offsets, devices, root);
    series := series[root := Zeros(longest)];
    assert AllSeries(offsets, devices, root, series);
    derived := map[];
    NothingDerived(offsets, devices, root);
    for src := 0 to devices
      invariant PartlyDerived(offsets, devices, root, src, 0, derived)
    {
      hide Series, PartlyDerived;
      for dst := 0 to devices
        invariant PartlyDerived(offsets, devices, root, src, dst, derived)
      {
        NextPair(offsets, devices, root, src, dst, derived);
        if src != dst && src in series && dst in series {
          var difference := Subtract(series[src], series[dst]);
          if difference != [] {
            derived := derived[Pair(src, dst) := difference];
          }
        }
      }
      RowDone(offsets, devices, root, src, derived);
    }
    AllDone(offsets, devices, root, derived);
  }

  lemma NothingDerived(offsets: Offsets, devices: nat, root: nat)
    ensures PartlyDerived(offsets, devices, root, 0, 0, map[])
  {
    hide InTable;
  }

  lemma RowDone(offsets: Offsets, devices: nat, root: nat, src: nat, derived: Offsets)
    requires PartlyDerived(offsets, devices, root, src, devices, derived)
    ensures PartlyDerived(offsets, devices, root, src + 1, 0, derived)
  {
    hide Series;
  }

  lemma AllDone(offsets: Offsets, devices: nat, root: nat, derived: Offsets)
    requires PartlyDerived(offsets, devices, root, devices, 0, derived)
    ensures IsDerived(offsets, devices, root, derived)
  {
    hide Series;
  }

  // --- Residuals ---

  function ClosureResiduals(offsets: Offsets, src: nat, mid: nat, dst: nat): (r: seq<int>) {
    var direct, first, second := Get(offsets, src, dst), Get(offsets, src, mid), Get(offsets, mid, dst);
    var count := Min(|direct|, Min(|first|, |second|));
    seq(count, i requires 0 <= i < count => direct[i] - (first[i] + second[i]))
  }

  function ReciprocalResiduals(offsets: Offsets, first: nat, second: nat): (r: seq<int>) {
    var forward, backward := Get(offsets, first, second), Get(offsets, second, first);
    var count := Min(|forward|, |backward|);
    seq(count, i requires 0 <= i < count => forward[i] + backward[i])
  }

  /** Derived offsets close exactly over every ordered distinct triple, at as many samples as the shortest of the
      three series has. */
  lemma DerivedOffsetsClose(offsets: Offsets, devices: nat, root: nat, derived: Offsets, src: nat, mid: nat, dst: nat)
    requires IsDerived(offsets, devices, root, derived)
    requires src < devices && mid < devices && dst < devices && src != mid && mid != dst && src != dst
    ensures var s, m := Series(offsets, devices, root, src), Series(offsets, devices, root, mid);
            var d := Series(offsets, devices, root, dst);
            ClosureResiduals(derived, src, mid, dst) == Zeros(Min(|s|, Min(|m|, |d|)))
  {
    hide Measured, Longest;
    assert Pair(src, dst) in derived <==> InTable(offsets, devices, root, Pair(src, dst));
    assert Pair(src, mid) in derived <==> InTable(offsets, devices, root, Pair(src, mid));
    assert Pair(mid, dst) in derived <==> InTable(offsets, devices, root, Pair(mid, dst));
  }

  /** The offsets of the two directions of a pair cancel. */
  lemma DerivedOffsetsAreReciprocal(offsets: Offsets, devices: nat, root: nat, derived: Offsets,
                                    first: nat, second: nat)
    requires IsDerived(offsets, devices, root, derived)
    requires first < devices && second < devices && first != second
    ensures var a, b := Series(offsets, devices, root, first), Series(offsets, devices, root, second);
            ReciprocalResiduals(derived, first, second) == Zeros(Min(|a|, |b|))
  {
    hide Measured, Longest;
    assert Pair(first, second) in derived <==> InTable(offsets, devices, root, Pair(first, second));
    assert Pair(second, first) in derived <==> InTable(offsets, devices, root, Pair(second, first));
  }

  lemma {:induction false} LongestCovers(offsets: Offsets, root: nat, n: nat, rank: nat)
    requires rank < n && rank != root
    ensures |Measured(offsets, root, rank)| <= Longest(offsets, root, n)
  {
    hide Measured;
    if rank < n - 1 {
      LongestCovers(offsets, root, n - 1, rank);
    }
  }

  lemma RootSeriesIsKept(offsets: Offsets, devices: nat, root: nat, derived: Offsets, rank: nat)
    requires IsDerived(offsets, devices, root, derived) && root < devices && rank < devices && rank != root
    ensures Get(derived, root, rank) == Measured(offsets, root, rank)
  {
    hide Longest, Measured;
    LongestCovers(offsets, root, devices, rank);
    assert Pair(root, rank) in derived <==> InTable(offsets, devices, root, Pair(root, rank));
  }

  /** The root's offsets to a rank are exactly what was measured. Where only the other direction was, each is minus the
      offset measured there. */
  lemma RootOffsetsAreTheMeasured(offsets: Offsets, devices: nat, root: nat, derived: Offsets, rank: nat)
    requires IsDerived(offsets, devices, root, derived) && root < devices && rank < devices && rank != root
    ensures var direct, inverse := Get(offsets, root, rank), Get(offsets, rank, root);
            var r := Get(derived, root, rank);
            if direct != [] then r == direct
            else |r| == |inverse| && forall k :: 0 <= k < |r| ==> r[k] == -inverse[k]
  {
    hide IsDerived;
    RootSeriesIsKept(offsets, devices, root, derived, rank);
  }

  /** Between two other ranks the offset is the difference of the root's, at as many samples as both have. */
  lemma PairOffsetsAreDifferences(offsets: Offsets, devices: nat, root: nat, derived: Offsets, src: nat, dst: nat)
    requires IsDerived(offsets, devices, root, derived) && root < devices && src < devices && dst < devices
    requires src != dst && src != root && dst != root
    ensures var r, a, b := Get(derived, src, dst), Get(derived, root, src), Get(derived, root, dst);
            |r| == Min(|a|, |b|) && forall k :: 0 <= k < |r| ==> r[k] == b[k] - a[k]
  {
    hide Longest, Measured;
    RootSeriesIsKept(offsets, devices, root, derived, src);
    RootSeriesIsKept(offsets, devices, root, derived, dst);
    assert Pair(src, dst) in derived <==> InTable(offsets, devices, root, Pair(src, dst));
  }

  lemma {:induction false} SameLongest(a: Offsets, b: Offsets, root: nat, n: nat)
    requires forall rank :: 0 <= rank < n && rank != root ==> |Measured(a, root, rank)| == |Measured(b, root, rank)|
    ensures Longest(a, root, n) == Longest(b, root, n)
  {
    hide Measured;
    if n > 0 {
      SameLongest(a, b, root, n - 1);
    }
  }

  /** A consistent table is left alone: deriving from a derived table gives that table again. */
  lemma DerivingTwiceIsDerivingOnce(offsets: Offsets, devices: nat, root: nat, derived: Offsets, again: Offsets)
    requires IsDerived(offsets, devices, root, derived) && IsDerived(derived, devices, root, again) && root < devices
    ensures again == derived
  {
    hide Longest, Measured, Difference;
    forall rank | 0 <= rank < devices && rank != root
      ensures Measured(derived, root, rank) == Measured(offsets, root, rank)
    {
      MeasuredAgain(offsets, devices, root, derived, rank);
    }
    SameLongest(derived, offsets, root, devices);
    forall p: Pair
      ensures p in again <==> p in derived
      ensures p in again ==> again[p] == derived[p]
    {
      if p.src < devices && p.dst < devices {
        assert Series(derived, devices, root, p.src) == Series(offsets, devices, root, p.src);
        assert Series(derived, devices, root, p.dst) == Series(offsets, devices, root, p.dst);
      }
      assert InTable(derived, devices, root, p) <==> InTable(offsets, devices, root, p);
    }
  }

  lemma MeasuredAgain(offsets: Offsets, devices: nat, root: nat, derived: Offsets, rank: nat)
    requires IsDerived(offsets, devices, root, derived) && root < devices && rank < devices && rank != root
    ensures Measured(derived, root, rank) == Measured(offsets, root, rank)
  {
    RootSeriesIsKept(offsets, devices, root, derived, rank);
    assert Pair(rank, root) in derived <==> InTable(offsets, devices, root, Pair(rank, root));
  }

  // --- Percentiles ---

  predicate Ascending(values: seq<int>) {
    forall i, j :: 0 <= i <= j < |values| ==> values[i] <= values[j]
  }

  function Position(count: nat, pct: real): real {
    (count - 1) as real * pct / 100.0
  }

  function Ceiling(x: real): int {
    if x.Floor as real == x then x.Floor else x.Floor + 1
  }

  // Facts about products of reals, one to a lemma.
  lemma NonNegativeProduct(a: real, b: real)
    requires a >= 0.0 && b >= 0.0
    ensures a * b >= 0.0
  {
  }

  lemma PositiveProduct(a: real, b: real)
    requires a > 0.0 && b > 0.0
    ensures a * b > 0.0
  {
  }

  lemma Quotient(x: real, n: real)
    requires n > 0.0
    ensures x / n * n == x
  {
  }

  lemma ProductOfDifference(n: real, a: real, b: real)
    ensures n * (b - a) == n * b - n * a
  {
  }

  lemma MulMonotone(n: real, a: real, b: real)
    requires n >= 0.0 && a <= b
    ensures n * a <= n * b
  {
    NonNegativeProduct(n, b - a);
    ProductOfDifference(n, a, b);
  }

  // A step of fraction f from a to b, seen from either end.
  lemma Interpolation(a: real, b: real, f: real)
    ensures a * (1.0 - f) + b * f == a + (b - a) * f
    ensures a * (1.0 - f) + b * f == b - (b - a) * (1.0 - f)
  {
  }

  lemma FloorAndCeiling(x: real, n: int)
    requires 0.0 <= x <= n as real
    ensures 0 <= x.Floor <= Ceiling(x) <= n
  {
  }

  lemma PositionInRange(count: nat, pct: real)
    requires count > 0 && 0.0 <= pct <= 100.0
    ensures 0.0 <= Position(count, pct) <= (count - 1) as real
    ensures 0 <= Position(count, pct).Floor <= Ceiling(Position(count, pct)) < count
  {
    var n := (count - 1) as real;
    NonNegativeProduct(n, pct);
    MulMonotone(n, pct, 100.0);
    Hundredth(n, n * pct);
    FloorAndCeiling(Position(count, pct), count - 1);
  }

  lemma Hundredth(n: real, x: real)
    requires 0.0 <= x <= n * 100.0
    ensures 0.0 <= x / 100.0 <= n
  {
  }

  // Nothing for an empty list, where the analyzer returns NaN.
  function Percentile(values: seq<int>, pct: real): Option<real>
    requires 0.0 <= pct <= 100.0
  {
    if values == [] then None
    else if |values| == 1 then Some(values[0] as real)
    else
      PositionInRange(|values|, pct);
      Some(Interpolated(values, Position(|values|, pct)))
  }

  // A fraction f of the way from a to b.
  function Mixed(a: real, b: real, f: real): real {
    a * (1.0 - f) + b * f
  }

  // The value at a real position between two neighbours.
  function Interpolated(values: seq<int>, position: real): real
    requires 0 <= position.Floor <= Ceiling(position) < |values|
  {
    var low, high := position.Floor, Ceiling(position);
    if low == high then values[low] as real
    else
      var fraction := position - low as real;
      Mixed(values[low] as real, values[high] as real, fraction)
  }

  lemma BetweenTwo(a: real, b: real, f: real)
    requires a <= b && 0.0 <= f <= 1.0
    ensures a <= Mixed(a, b, f) <= b
  {
    Interpolation(a, b, f);
    NonNegativeProduct(b - a, f);
    NonNegativeProduct(b - a, 1.0 - f);
  }

  /** A percentile lies between the two sorted values next to its position. */
  lemma StaysBetweenNeighbours(values: seq<int>, position: real)
    requires Ascending(values) && 0 <= position.Floor <= Ceiling(position) < |values|
    ensures values[position.Floor] as real <= Interpolated(values, position) <= values[Ceiling(position)] as real
  {
    var low, high := position.Floor, Ceiling(position);
    if low != high {
      hide Mixed;
      BetweenTwo(values[low] as real, values[high] as real, position - low as real);
    }
  }

  lemma SameInterval(a: real, b: real, f: real, g: real)
    requires a <= b && 0.0 <= f <= g <= 1.0
    ensures Mixed(a, b, f) <= Mixed(a, b, g)
  {
    Interpolation(a, b, f);
    Interpolation(a, b, g);
    MulMonotone(b - a, f, g);
  }

  lemma InterpolatedMonotone(values: seq<int>, p: real, q: real)
    requires Ascending(values) && 0 <= p.Floor <= Ceiling(p) < |values| && 0 <= q.Floor <= Ceiling(q) < |values|
    requires p <= q
    ensures Interpolated(values, p) <= Interpolated(values, q)
  {
    hide Mixed;
    StaysBetweenNeighbours(values, p);
    StaysBetweenNeighbours(values, q);
    if Ceiling(p) <= q.Floor {
      assert values[Ceiling(p)] <= values[q.Floor];
    } else {
      assert p.Floor == q.Floor && Ceiling(p) == Ceiling(q) == p.Floor + 1;
      SameInterval(values[p.Floor] as real, values[Ceiling(q)] as real, p - p.Floor as real, q - q.Floor as real);
    }
  }

  lemma PositionMonotone(count: nat, pct: real, pct': real)
    requires count > 0 && pct <= pct'
    ensures Position(count, pct) <= Position(count, pct')
  {
    var n := (count - 1) as real;
    MulMonotone(n, pct, pct');
    assert Position(count, pct) == (n * pct) / 100.0 && Position(count, pct') == (n * pct') / 100.0;
  }

  /** Percentiles grow with the percentage. */
  lemma PercentileMonotone(values: seq<int>, pct: real, pct': real)
    requires Ascending(values) && values != [] && 0.0 <= pct <= pct' <= 100.0
    ensures Percentile(values, pct).value <= Percentile(values, pct').value
  {
    hide Interpolated;
    if |values| > 1 {
      PositionInRange(|values|, pct);
      PositionInRange(|values|, pct');
      PositionMonotone(|values|, pct, pct');
      InterpolatedMonotone(values, Position(|values|, pct), Position(|values|, pct'));
    }
  }

  lemma PercentileEnds(values: seq<int>)
    requires values != []
    ensures Percentile(values, 0.0) == Some(values[0] as real)
    ensures Percentile(values, 100.0) == Some(values[|values| - 1] as real)
  {
    assert Position(|values|, 100.0) == (|values| - 1) as real;
    assert Position(|values|, 0.0) == 0.0;
  }

  lemma PositionOf(n: real, p: real)
    requires n > 0.0
    ensures n * (p * 100.0 / n) / 100.0 == p
  {
    Quotient(p * 100.0, n);
  }

  lemma RatioInRange(n: real, p: real)
    requires n > 0.0 && 0.0 <= p <= n
    ensures 0.0 <= p * 100.0 / n <= 100.0
  {
    var q := p * 100.0 / n;
    Quotient(p * 100.0, n);
    if q < 0.0 {
      PositiveProduct(n, -q);
    } else if q > 100.0 {
      PositiveProduct(n, q - 100.0);
    }
  }

  /** A percentage that falls a fraction f beyond the k-th of the n - 1 equal steps gives the value that fraction of the
      way from the k-th sorted value to the next. */
  lemma PercentileIsLinear(values: seq<int>, k: nat, f: real)
    requires k + 1 < |values| && 0.0 <= f <= 1.0
    ensures var pct := (k as real + f) * 100.0 / (|values| - 1) as real;
            && 0.0 <= pct <= 100.0
            && Percentile(values, pct) == Some(values[k] as real + f * (values[k + 1] - values[k]) as real)
  {
    var n, p := (|values| - 1) as real, k as real + f;
    RatioInRange(n, p);
    PositionOf(n, p);
    var pct := p * 100.0 / n;
    PositionInRange(|values|, pct);
    assert Position(|values|, pct) == p;
    InterpolatedAt(values, k, f);
  }

  lemma MixedIsLinear(a: real, b: real, f: real)
    ensures Mixed(a, b, f) == a + f * (b - a)
    ensures f == 0.0 ==> a + f * (b - a) == a
    ensures f == 1.0 ==> a + f * (b - a) == b
  {
  }

  lemma InterpolatedAt(values: seq<int>, k: nat, f: real)
    requires k + 1 < |values| && 0.0 <= f <= 1.0
    ensures var p := k as real + f;
            && 0 <= p.Floor <= Ceiling(p) < |values|
            && Interpolated(values, p) == values[k] as real + f * (values[k + 1] - values[k]) as real
  {
    hide Mixed;
    var p := k as real + f;
    MixedIsLinear(values[k] as real, values[k + 1] as real, f);
    if f == 1.0 {
      assert p.Floor == k + 1 == Ceiling(p);
    } else {
      assert p.Floor == k && (f > 0.0 ==> Ceiling(p) == k + 1);
    }
  }

  // --- Summaries ---

  function Inserted(x: int, sorted: seq<int>): (r: seq<int>)
    ensures multiset(r) == multiset(sorted) + multiset{x}
  {
    if sorted == [] then [x]
    else if x <= sorted[0] then [x] + sorted
    else
      assert sorted == [sorted[0]] + sorted[1..];
      [sorted[0]] + Inserted(x, sorted[1..])
  }

  function Sorted(values: seq<int>): (r: seq<int>)
    ensures multiset(r) == multiset(values) && |r| == |values|
  {
    if values == [] then [] else
      assert values == values[..|values| - 1] + [values[|values| - 1]];
      var r := Inserted(values[|values| - 1], Sorted(values[..|values| - 1]));
      assert |multiset(r)| == |r|;
      r
  }

  lemma AscendsWith(x: int, r: seq<int>)
    requires Ascending(r) && r != [] && x <= r[0]
    ensures Ascending([x] + r)
  {
    forall i, j | 0 <= i <= j < |r| + 1 ensures ([x] + r)[i] <= ([x] + r)[j] {
      if i == 0 && j > 0 {
        assert r[0] <= r[j - 1];
      }
    }
  }

  lemma TailAscends(sorted: seq<int>)
    requires Ascending(sorted) && sorted != []
    ensures Ascending(sorted[1..]) && (|sorted| > 1 ==> sorted[0] <= sorted[1])
  {
  }

  lemma {:induction false} InsertedAscends(x: int, sorted: seq<int>)
    requires Ascending(sorted)
    ensures Ascending(Inserted(x, sorted))
    ensures Inserted(x, sorted)[0] == if sorted == [] || x <= sorted[0] then x else sorted[0]
  {
    if sorted == [] {
      assert Inserted(x, sorted) == [x];
    } else if x <= sorted[0] {
      AscendsWith(x, sorted);
    } else {
      TailAscends(sorted);
      InsertedAscends(x, sorted[1..]);
      var r := Inserted(x, sorted[1..]);
      assert Inserted(x, sorted) == [sorted[0]] + r;
      hide Inserted, Ascending;
      AscendsWith(sorted[0], r);
    }
  }

  lemma {:induction false} SortedAscends(values: seq<int>)
    ensures Ascending(Sorted(values))
  {
    if values != [] {
      SortedAscends(values[..|values| - 1]);
      InsertedAscends(values[|values| - 1], Sorted(values[..|values| - 1]));
    }
  }

  function Sum(values: seq<int>): int {
    if values == [] then 0 else Sum(values[..|values| - 1]) + values[|values| - 1]
  }

  function Abs(x: int): nat {
    if x < 0 then -x else x
  }

  function MaxAbs(values: seq<int>): nat {
    if values == [] then 0 else Max(MaxAbs(values[..|values| - 1]), Abs(values[|values| - 1]))
  }

  datatype Summary = Summary(count: nat, mean: real, min: int, p50: real, p95: real, p99: real, max: int, maxAbs: nat)

  function Summarize(values: seq<int>): Summary
    requires values != []
  {
    var ordered := Sorted(values);
    Summary(|values|, Sum(values) as real / |values| as real, ordered[0],
            Percentile(ordered, 50.0).value, Percentile(ordered, 95.0).value, Percentile(ordered, 99.0).value,
            ordered[|ordered| - 1], MaxAbs(values))
  }

  lemma {:induction false} SumBounds(values: seq<int>, low: int, high: int)
    requires forall i :: 0 <= i < |values| ==> low <= values[i] <= high
    ensures low * |values| <= Sum(values) <= high * |values|
  {
    if values != [] {
      var front := values[..|values| - 1];
      SumBounds(front, low, high);
      assert low * |values| == low * |front| + low;
      assert high * |values| == high * |front| + high;
    }
  }

  lemma {:induction false} MaxAbsIsLargest(values: seq<int>)
    ensures forall i :: 0 <= i < |values| ==> Abs(values[i]) <= MaxAbs(values)
    ensures values != [] ==> exists i :: 0 <= i < |values| && Abs(values[i]) == MaxAbs(values)
  {
    if values != [] {
      var front := values[..|values| - 1];
      MaxAbsIsLargest(front);
      if MaxAbs(values) == Abs(values[|values| - 1]) {
        assert Abs(values[|values| - 1]) == MaxAbs(values);
      } else {
        assert MaxAbs(values) == MaxAbs(front) && front != [];
        var i :| 0 <= i < |front| && Abs(front[i]) == MaxAbs(front);
        assert Abs(values[i]) == MaxAbs(values);
      }
    }
  }

  lemma InBoth(values: seq<int>, ordered: seq<int>, i: nat)
    requires multiset(ordered) == multiset(values) && i < |values|
    ensures exists j :: 0 <= j < |ordered| && ordered[j] == values[i]
  {
    assert values[i] in multiset(values);
    assert values[i] in ordered;
  }

  lemma {:induction false} SortedBounds(values: seq<int>, i: nat)
    requires i < |values|
    ensures Sorted(values)[0] <= values[i] <= Sorted(values)[|values| - 1]
  {
    SortedAscends(values);
    InBoth(values, Sorted(values), i);
  }

  lemma MeanBetween(sum: int, count: nat, low: int, high: int)
    requires count > 0 && low * count <= sum <= high * count
    ensures low as real <= sum as real / count as real <= high as real
  {
    var n, mean := count as real, sum as real / count as real;
    RealProduct(low, count);
    RealProduct(high, count);
    Quotient(sum as real, n);
    Cancel(low as real, mean, n);
    Cancel(mean, high as real, n);
  }

  lemma RealProduct(a: int, b: int)
    ensures (a * b) as real == a as real * b as real
  {
  }

  lemma Cancel(a: real, b: real, n: real)
    requires a * n <= b * n && n > 0.0
    ensures a <= b
  {
    if b < a {
      PositiveProduct(n, a - b);
      ProductOfDifference(n, b, a);
    }
  }

  lemma {:induction false} SumIsAdditive(a: seq<int>, b: seq<int>)
    ensures Sum(a + b) == Sum(a) + Sum(b)
    ensures forall x :: Sum([x]) == x
  {
    if b == [] {
      assert a + b == a;
    } else {
      SumIsAdditive(a, b[..|b| - 1]);
      assert (a + b)[..|a + b| - 1] == a + b[..|b| - 1];
    }
  }

  lemma {:induction false} MeanIsQuotient(values: seq<int>)
    requires values != []
    ensures Summarize(values).mean == Sum(values) as real / |values| as real
  {
    hide Percentile, Sorted, Sum, MaxAbs;
  }

  lemma QuotientTimes(q: real, x: real, n: real)
    requires n > 0.0 && q == x / n
    ensures q * n == x
  {
    Quotient(x, n);
  }

  lemma {:induction false} MeanTimesCount(values: seq<int>)
    requires values != []
    ensures Summarize(values).mean * |values| as real == Sum(values) as real
  {
    hide Sum, Summarize;
    MeanIsQuotient(values);
    QuotientTimes(Summarize(values).mean, Sum(values) as real, |values| as real);
  }

  /** What the columns of a summary are, for every nonempty list: its length, the mean, and the extremes and percentiles
      of the list in ascending order. */
  lemma SummaryTells(values: seq<int>) returns (ordered: seq<int>)
    requires values != []
    ensures Ascending(ordered) && multiset(ordered) == multiset(values) && |ordered| == |values|
    ensures var s := Summarize(values);
            && s.count == |values| && s.mean * |values| as real == Sum(values) as real
            && s.min == ordered[0] && s.max == ordered[|values| - 1]
            && s.p50 == Percentile(ordered, 50.0).value && s.p95 == Percentile(ordered, 95.0).value
            && s.p99 == Percentile(ordered, 99.0).value
  {
    hide Sum, MaxAbs, Interpolated;
    ordered := Sorted(values);
    SortedAscends(values);
    MeanTimesCount(values);
    hide Sorted, Ascending;
  }

  /** The columns of a summary are ordered, for every nonempty list; the mean lies between the extremes, and the
      largest absolute value is that of an extreme. */
  lemma SummaryIsOrdered(values: seq<int>)
    requires values != []
    ensures var s := Summarize(values);
            && s.min as real <= s.p50 <= s.p95 <= s.p99 <= s.max as real
            && s.min as real <= s.mean <= s.max as real
            && s.maxAbs == Max(Abs(s.min), Abs(s.max))
  {
    hide Sorted, Percentile, Sum, MaxAbs;
    var ordered := Sorted(values);
    SortedAscends(values);
    PercentileEnds(ordered);
    PercentileMonotone(ordered, 0.0, 50.0);
    PercentileMonotone(ordered, 50.0, 95.0);
    PercentileMonotone(ordered, 95.0, 99.0);
    PercentileMonotone(ordered, 99.0, 100.0);
    forall i | 0 <= i < |values| ensures ordered[0] <= values[i] <= ordered[|values| - 1] {
      SortedBounds(values, i);
    }
    SumBounds(values, ordered[0], ordered[|values| - 1]);
    MeanBetween(Sum(values), |values|, ordered[0], ordered[|values| - 1]);
    LargestIsExtreme(values, ordered);
  }

  lemma {:induction false} LargestIsExtreme(values: seq<int>, ordered: seq<int>)
    requires values != [] && |ordered| == |values| && multiset(ordered) == multiset(values)
    requires forall i :: 0 <= i < |values| ==> ordered[0] <= values[i] <= ordered[|values| - 1]
    ensures MaxAbs(values) == Max(Abs(ordered[0]), Abs(ordered[|values| - 1]))
  {
    hide MaxAbs;
    MaxAbsIsLargest(values);
    InBoth(ordered, values, 0);
    InBoth(ordered, values, |values| - 1);
  }
}
