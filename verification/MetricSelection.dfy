/** The PM metrics of memory.cc: which of the supported metrics are kept so that one replay pass suffices, and how
    the samples of a launch become one value or one error for each kept metric. */
module MetricSelection {
  import opened Options

  type Status = int
  const ERROR_NOT_SUPPORTED: Status := 27
  const ERROR_UNKNOWN: Status := 999

  // --- What the profiler library does, as functions of its arguments ---

  // Building a configuration for a list of metrics fails, or gives a host object, an image and a pass count.
  datatype Built = NotBuilt(image: seq<nat>) | Built(host: nat, image: seq<nat>, passes: nat)
  type Builder = seq<string> -> Built

  predicate SinglePass(build: Builder, metrics: seq<string>) {
    build(metrics).Built? && build(metrics).passes == 1
  }

  // --- The greedy choice ---

  function Greedy(build: Builder, metrics: seq<string>): seq<string> {
    if metrics == [] then [] else
      var selected, last := Greedy(build, metrics[..|metrics| - 1]), metrics[|metrics| - 1];
      if SinglePass(build, selected + [last]) then selected + [last] else selected
  }

  function Skipped(build: Builder, metrics: seq<string>): seq<string> {
    if metrics == [] then [] else
      var front, last := metrics[..|metrics| - 1], metrics[|metrics| - 1];
      if SinglePass(build, Greedy(build, front) + [last]) then Skipped(build, front) else Skipped(build, front) + [last]
  }

  // The metrics marked as unsupported, on top of those already marked.
  function Marked(unsupported: map<string, Status>, metrics: seq<string>): map<string, Status> {
    if metrics == [] then unsupported
    else Marked(unsupported, metrics[..|metrics| - 1])[metrics[|metrics| - 1] := ERROR_NOT_SUPPORTED]
  }

  lemma {:induction false} MarkedDomain(unsupported: map<string, Status>, metrics: seq<string>, m: string)
    ensures m in Marked(unsupported, metrics) <==> m in unsupported || m in metrics
    ensures m in metrics ==> Marked(unsupported, metrics)[m] == 27
    ensures m in unsupported && m !in metrics ==> Marked(unsupported, metrics)[m] == unsupported[m]
  {
    if metrics != [] {
      MarkedDomain(unsupported, metrics[..|metrics| - 1], m);
      assert metrics == metrics[..|metrics| - 1] + [metrics[|metrics| - 1]];
    }
  }

  /** What the loop keeps needs a single pass. */
  lemma {:induction false} GreedyIsSinglePass(build: Builder, metrics: seq<string>)
    ensures Greedy(build, metrics) == [] || SinglePass(build, Greedy(build, metrics))
  {
    if metrics != [] {
      GreedyIsSinglePass(build, metrics[..|metrics| - 1]);
    }
  }

  lemma AppendedCounts(a: seq<string>, m: string)
    ensures multiset(a + [m]) == multiset(a) + multiset{m}
  {
  }

  /** Every metric is kept or marked, none twice, and both in the order of the request. */
  lemma {:induction false} GreedySplits(build: Builder, metrics: seq<string>)
    ensures multiset(Greedy(build, metrics)) + multiset(Skipped(build, metrics)) == multiset(metrics)
  {
    if metrics != [] {
      hide SinglePass;
      var front, last := metrics[..|metrics| - 1], metrics[|metrics| - 1];
      assert metrics == front + [last];
      GreedySplits(build, front);
      AppendedCounts(front, last);
      AppendedCounts(Greedy(build, front), last);
      AppendedCounts(Skipped(build, front), last);
    }
  }

  predicate NeedsSeveralPasses(build: Builder, metrics: seq<string>) {
    metrics != [] && build(metrics).Built? && build(metrics).passes > 1
  }

  // What is left of the supported metrics, and what is marked.
  function Chosen(build: Builder, metrics: seq<string>): seq<string> {
    if NeedsSeveralPasses(build, metrics) then Greedy(build, metrics) else metrics
  }

  function Rejected(build: Builder, metrics: seq<string>): seq<string> {
    if NeedsSeveralPasses(build, metrics) then Skipped(build, metrics) else []
  }

  /** The choice needs one pass: metrics that do so together are all kept and none is marked, and where they need more,
      what is kept needs one. */
  lemma ChosenNeedOnePass(build: Builder, metrics: seq<string>)
    ensures SinglePass(build, metrics) ==> Chosen(build, metrics) == metrics && Rejected(build, metrics) == []
    ensures metrics != [] && build(metrics).Built? && build(metrics).passes > 0 ==>
              Chosen(build, metrics) == [] || SinglePass(build, Chosen(build, metrics))
  {
    GreedyIsSinglePass(build, metrics);
  }

  predicate Covers(metrics: seq<string>, others: seq<string>) {
    forall m :: m in others ==> m in metrics
  }

  // Adding metrics never makes a configuration possible, and never lowers its pass count.
  ghost predicate PassesGrow(build: Builder) {
    && (forall xs: seq<string>, ys: seq<string> ::
          xs != [] && Covers(ys, xs) && build(ys).Built? ==> build(xs).Built? && build(xs).passes <= build(ys).passes)
    && (forall xs: seq<string> :: xs != [] && build(xs).Built? ==> build(xs).passes > 0)
  }

  /** If adding metrics never lowers the pass count, the choice is inclusion-maximal: no single-pass configuration
      has all that was kept and a metric that was not. */
  lemma {:induction false} GreedyIsMaximal(build: Builder, metrics: seq<string>, m: string, bigger: seq<string>)
    requires PassesGrow(build)
    requires m in metrics && m !in Greedy(build, metrics)
    requires m in bigger && Covers(bigger, Greedy(build, metrics))
    ensures !SinglePass(build, bigger)
  {
    var front, last := metrics[..|metrics| - 1], metrics[|metrics| - 1];
    var selected := Greedy(build, front);
    assert metrics == front + [last];
    if m == last {
      assert !SinglePass(build, selected + [m]);
      assert Covers(bigger, selected + [m]);
    } else {
      GreedyIsMaximal(build, front, m, bigger);
    }
  }

  // --- Samples ---

  // What one metric comes to in one sample.
  datatype Eval = Value(value: real) | Error(status: Status)
  type Evaluator = (nat, string) -> Eval

  // What decoding the samples of a launch comes to.
  datatype Decoded =
    | DecodeFailed(status: Status)
    | InfoFailed(status: Status)
    | Samples(total: nat, populated: nat, completed: nat)

  function Hits(eval: Evaluator, m: string, n: nat): nat {
    if n == 0 then 0 else Hits(eval, m, n - 1) + if eval(n - 1, m).Value? then 1 else 0
  }

  function Total(eval: Evaluator, m: string, n: nat): real {
    if n == 0 then 0.0 else Total(eval, m, n - 1) + if eval(n - 1, m).Value? then eval(n - 1, m).value else 0.0
  }

  // The samples that have a value for a metric.
  ghost function WithValue(eval: Evaluator, m: string, n: nat): set<nat> {
    set k: nat | 0 <= k < n && eval(k, m).Value?
  }

  lemma {:induction false} HitsCountSamples(eval: Evaluator, m: string, n: nat)
    ensures Hits(eval, m, n) == |WithValue(eval, m, n)|
  {
    if n == 0 {
      assert WithValue(eval, m, n) == {};
    } else {
      HitsCountSamples(eval, m, n - 1);
      if eval(n - 1, m).Value? {
        assert WithValue(eval, m, n) == WithValue(eval, m, n - 1) + {n - 1};
      } else {
        assert WithValue(eval, m, n) == WithValue(eval, m, n - 1);
      }
    }
  }

  lemma {:induction false} NoHitsNoTotal(eval: Evaluator, m: string, n: nat)
    requires Hits(eval, m, n) == 0
    ensures Total(eval, m, n) == 0.0
  {
    if n > 0 {
      NoHitsNoTotal(eval, m, n - 1);
    }
  }

  predicate FoundAt(s: string, t: string, i: nat) {
    i + |t| <= |s| && s[i..i + |t|] == t
  }

  predicate Contains(s: string, t: string) {
    exists i :: 0 <= i <= |s| && FoundAt(s, t, i)
  }

  // Metrics that are averaged over the samples; all others are summed.
  predicate Averaged(m: string) {
    Contains(m, ".avg") || Contains(m, "pct_of_peak") || Contains(m, "throughput")
  }

  function Result(eval: Evaluator, m: string, n: nat): real
    requires Hits(eval, m, n) > 0
  {
    if Averaged(m) then Total(eval, m, n) / (Hits(eval, m, n) as real) else Total(eval, m, n)
  }

  // While samples are read: how often each metric had a value, the sums so far, and the errors noted.
  datatype Tally = Tally(counts: map<string, nat>, values: map<string, real>, errors: map<string, Status>)

  // Metric m after n samples: its sum and count once it had a value, else its last error.
  ghost predicate Tallied(eval: Evaluator, t: Tally, m: string, n: nat) {
    && (m in t.counts <==> m in t.values)
    && (m in t.counts <==> Hits(eval, m, n) > 0)
    && (m in t.counts ==> t.counts[m] == Hits(eval, m, n) && t.values[m] == Total(eval, m, n))
    && (m !in t.counts && n > 0 ==> m in t.errors && eval(n - 1, m) == Error(t.errors[m]))
    && (n == 0 ==> m !in t.errors)
  }

  ghost predicate SameBut(m: string, before: Tally, after: Tally) {
    after.counts - {m} == before.counts - {m} && after.values - {m} == before.values - {m}
    && after.errors - {m} == before.errors - {m}
  }

  // The metrics before j after n + 1 samples, the others after n; nothing is recorded for any other metric.
  ghost predicate AllTallied(eval: Evaluator, t: Tally, metrics: seq<string>, j: nat, n: nat) {
    && (forall p :: 0 <= p < |metrics| ==> Tallied(eval, t, metrics[p], if p < j then n + 1 else n))
    && (forall m :: m in t.counts || m in t.values || m in t.errors ==> m in metrics)
  }

  predicate Distinct(metrics: seq<string>) {
    forall i, j :: 0 <= i < j < |metrics| ==> metrics[i] != metrics[j]
  }

  lemma OtherKeys<V>(before: map<string, V>, after: map<string, V>, m: string, k: string)
    requires after - {m} == before - {m}
    ensures k != m ==> (k in after <==> k in before) && (k in after ==> after[k] == before[k])
  {
    if k != m {
      assert k in after <==> k in after - {m};
      assert k in before <==> k in before - {m};
      assert k in after ==> (after - {m})[k] == after[k] && (before - {m})[k] == before[k];
    }
  }

  lemma OthersStay(before: Tally, after: Tally, m: string, k: string)
    requires SameBut(m, before, after) && k != m
    ensures (k in after.counts <==> k in before.counts) && (k in after.counts ==> after.counts[k] == before.counts[k])
    ensures (k in after.values <==> k in before.values) && (k in after.values ==> after.values[k] == before.values[k])
    ensures (k in after.errors <==> k in before.errors) && (k in after.errors ==> after.errors[k] == before.errors[k])
  {
    OtherKeys(before.counts, after.counts, m, k);
    OtherKeys(before.values, after.values, m, k);
    OtherKeys(before.errors, after.errors, m, k);
  }

  lemma AllTalliedAt(eval: Evaluator, t: Tally, metrics: seq<string>, j: nat, n: nat, p: nat)
    requires AllTallied(eval, t, metrics, j, n) && j <= p < |metrics|
    ensures Tallied(eval, t, metrics[p], n)
  {
  }

  lemma AllTalliedNext(eval: Evaluator, before: Tally, after: Tally, metrics: seq<string>, j: nat, n: nat)
    requires Distinct(metrics) && j < |metrics| && AllTallied(eval, before, metrics, j, n)
    requires Tallied(eval, after, metrics[j], n + 1) && SameBut(metrics[j], before, after)
    ensures AllTallied(eval, after, metrics, j + 1, n)
  {
    hide SameBut, Hits, Total;
    forall p | 0 <= p < |metrics| ensures Tallied(eval, after, metrics[p], if p < j + 1 then n + 1 else n) {
      if p != j {
        assert Tallied(eval, before, metrics[p], if p < j then n + 1 else n);
        OthersStay(before, after, metrics[j], metrics[p]);
      }
    }
    forall m | m in after.counts || m in after.values || m in after.errors ensures m in metrics {
      if m != metrics[j] {
        OthersStay(before, after, metrics[j], m);
      }
    }
  }

  lemma AllTalliedDone(eval: Evaluator, t: Tally, metrics: seq<string>, n: nat)
    requires AllTallied(eval, t, metrics, |metrics|, n)
    ensures AllTallied(eval, t, metrics, 0, n + 1)
  {
    hide Tallied;
  }

  function FinishedValue(m: string, sum: real, count: nat): real {
    if count != 0 && Averaged(m) then sum / (count as real) else sum
  }

  // The averages are taken, and a metric that had a value has no error.
  ghost predicate IsFinished(t: Tally, values: map<string, real>, errors: map<string, Status>) {
    && values.Keys == t.values.Keys && errors == t.errors - t.counts.Keys
    && forall m :: m in values && m in t.counts ==> values[m] == FinishedValue(m, t.values[m], t.counts[m])
  }

  // What n samples leave of one kept metric: its sum or average, or, without any value, its last error.
  ghost predicate EvaluatedOne(eval: Evaluator, values: map<string, real>, errors: map<string, Status>,
                               m: string, n: nat)
  {
    && (m in values <==> Hits(eval, m, n) > 0)
    && (m in values ==> values[m] == Result(eval, m, n))
    && (m in errors <==> n > 0 && Hits(eval, m, n) == 0)
    && (m in errors ==> eval(n - 1, m) == Error(errors[m]))
  }

  ghost predicate Evaluated(eval: Evaluator, values: map<string, real>, errors: map<string, Status>,
                            metrics: seq<string>, n: nat)
  {
    && (forall m :: m in metrics ==> EvaluatedOne(eval, values, errors, m, n))
    && (forall m :: m in values || m in errors ==> m in metrics)
  }

  lemma TalliedIn(eval: Evaluator, t: Tally, metrics: seq<string>, n: nat, m: string)
    requires AllTallied(eval, t, metrics, 0, n) && m in metrics
    ensures Tallied(eval, t, m, n)
  {
    var p :| 0 <= p < |metrics| && metrics[p] == m;
    AllTalliedAt(eval, t, metrics, 0, n, p);
  }

  lemma FinishedOne(eval: Evaluator, t: Tally, values: map<string, real>, errors: map<string, Status>,
                    m: string, n: nat)
    requires Tallied(eval, t, m, n) && IsFinished(t, values, errors)
    ensures EvaluatedOne(eval, values, errors, m, n)
  {
    hide Hits, Total, Averaged;
  }

  lemma FinishedIsEvaluated(eval: Evaluator, t: Tally, values: map<string, real>, errors: map<string, Status>,
                            metrics: seq<string>, n: nat)
    requires AllTallied(eval, t, metrics, 0, n) && IsFinished(t, values, errors)
    ensures Evaluated(eval, values, errors, metrics, n)
  {
    hide Tallied, EvaluatedOne;
    forall m | m in metrics ensures EvaluatedOne(eval, values, errors, m, n) {
      TalliedIn(eval, t, metrics, n, m);
      FinishedOne(eval, t, values, errors, m, n);
    }
  }

  // --- Which values are means ---

  predicate Around(front: string, word: string, back: string, s: string) {
    s == front + word + back
  }

  // A name with a word in it.
  ghost predicate Includes(s: string, word: string) {
    exists front: string, back: string :: Around(front, word, back, s)
  }

  lemma ContainsIsIncludes(s: string, word: string)
    ensures Contains(s, word) <==> Includes(s, word)
  {
    if Contains(s, word) {
      var i :| 0 <= i <= |s| && FoundAt(s, word, i);
      assert Around(s[..i], word, s[i + |word|..], s);
    }
    if Includes(s, word) {
      var front, back :| Around(front, word, back, s);
      assert s[|front|..|front| + |word|] == word;
      assert FoundAt(s, word, |front|);
    }
  }

  /** The value left for a metric is the mean of the samples that had one if its name has .avg, pct_of_peak or
      throughput in it, and otherwise their sum. */
  lemma {:induction false} ValuesAreMeansOrSums(eval: Evaluator, values: map<string, real>, errors: map<string,
                                                Status>, m: string, n: nat)
    requires EvaluatedOne(eval, values, errors, m, n) && m in values
    ensures Hits(eval, m, n) == |WithValue(eval, m, n)| > 0
    ensures if Includes(m, ".avg") || Includes(m, "pct_of_peak") || Includes(m, "throughput")
            then values[m] * Hits(eval, m, n) as real == Total(eval, m, n)
            else values[m] == Total(eval, m, n)
  {
    hide Contains, Includes, Hits, Total;
    HitsCountSamples(eval, m, n);
    ContainsIsIncludes(m, ".avg");
    ContainsIsIncludes(m, "pct_of_peak");
    ContainsIsIncludes(m, "throughput");
    if Averaged(m) {
      QuotientTimes(values[m], Total(eval, m, n), Hits(eval, m, n) as real);
    }
  }

  lemma QuotientTimes(q: real, x: real, n: real)
    requires n > 0.0 && q == x / n
    ensures q * n == x
  {
  }

  // --- The plugin state ---

  class State {
    var requestedMetrics: seq<string>
    var supportedMetrics: seq<string>
    var unsupportedMetrics: map<string, Status>
    var hostObject: Option<nat>
    var configImage: seq<nat>
    var values: map<string, real>
    var evalErrors: map<string, Status>
    var totalSamples: nat
    var populatedSamples: nat
    var completedSamples: nat

    method BuildConfigImage(build: Builder, metrics: seq<string>) returns (ok: bool, passes: nat)
      modifies `hostObject, `configImage
      ensures ok == build(metrics).Built? && configImage == build(metrics).image
      ensures ok ==> hostObject == Some(build(metrics).host) && passes == build(metrics).passes
      ensures !ok ==> hostObject == None && passes == 0
    {
      var built := build(metrics);
      configImage := built.image;
      match built
      case NotBuilt(_) => hostObject, ok, passes := None, false, 0;
      case Built(host, _, n) => hostObject, ok, passes := Some(host), true, n;
    }

    method KeepSinglePass(build: Builder) returns (selected: seq<string>)
      modifies `unsupportedMetrics
      ensures selected == Greedy(build, supportedMetrics)
      ensures unsupportedMetrics == Marked(old(unsupportedMetrics), Skipped(build, supportedMetrics))
    {
      selected := [];
      for i := 0 to |supportedMetrics|
        invariant selected == Greedy(build, supportedMetrics[..i])
        invariant unsupportedMetrics == Marked(old(unsupportedMetrics), Skipped(build, supportedMetrics[..i]))
      {
        assert supportedMetrics[..i + 1][..i] == supportedMetrics[..i];
        var metric := supportedMetrics[i];
        var candidate := selected + [metric];
        var test := build(candidate);
        if test.Built? && test.passes == 1 {
          selected := candidate;
        } else {
          ghost var skipped := Skipped(build, supportedMetrics[..i]);
          assert (skipped + [metric])[..|skipped + [metric]| - 1] == skipped;
          unsupportedMetrics := unsupportedMetrics[metric := ERROR_NOT_SUPPORTED];
        }
      }
      assert supportedMetrics[..|supportedMetrics|] == supportedMetrics;
    }

    // The configuration in place is the one for a list of metrics.
    ghost predicate Configured(build: Builder, metrics: seq<string>) reads this {
      build(metrics).Built? && hostObject == Some(build(metrics).host) && configImage == build(metrics).image
    }

    /** With all metrics in at most one pass nothing changes; otherwise the greedy choice is kept, the others are
        marked, and the configuration in place is the one for what was kept. */
    method CreateConfigImage(build: Builder) returns (ok: bool)
      modifies `supportedMetrics, `unsupportedMetrics, `hostObject, `configImage
      ensures ok <==> old(supportedMetrics) == [] || build(old(supportedMetrics)).Built?
      ensures supportedMetrics == Chosen(build, old(supportedMetrics))
      ensures unsupportedMetrics == Marked(old(unsupportedMetrics), Rejected(build, old(supportedMetrics)))
      ensures ok && old(supportedMetrics) != [] ==>
                if supportedMetrics == [] then hostObject == None else Configured(build, supportedMetrics)
    {
      hide Greedy, Skipped;
      if supportedMetrics == [] {
        return true;
      }
      var built, passes := BuildConfigImage(build, supportedMetrics);
      if !built {
        return false;
      }
      if passes > 1 {
        GreedyIsSinglePass(build, supportedMetrics);
        hostObject, configImage := None, [];
        var selected := KeepSinglePass(build);
        supportedMetrics := selected;
        if supportedMetrics == [] {
          return true;
        }
        built, passes := BuildConfigImage(build, supportedMetrics);
        if !built {
          return false;
        }
      }
      ok := true;
    }

    ghost function Current(counts: map<string, nat>): Tally reads this {
      Tally(counts, values, evalErrors)
    }

    method TallyOne(eval: Evaluator, counts: map<string, nat>, m: string, n: nat) returns (more: map<string, nat>)
      requires Tallied(eval, Current(counts), m, n)
      modifies `values, `evalErrors
      ensures Tallied(eval, Current(more), m, n + 1)
      ensures SameBut(m, old(Current(counts)), Current(more))
    {
      if m !in values {
        NoHitsNoTotal(eval, m, n);
      }
      more := counts;
      match eval(n, m)
      case Value(v) =>
        values := values[m := (if m in values then values[m] else 0.0) + v];
        more := more[m := (if m in more then more[m] else 0) + 1];
      case Error(status) =>
        if m !in more {
          evalErrors := evalErrors[m := status];
        }
    }

    method TallySample(eval: Evaluator, counts: map<string, nat>, n: nat) returns (more: map<string, nat>)
      requires Distinct(supportedMetrics) && AllTallied(eval, Current(counts), supportedMetrics, 0, n)
      modifies `values, `evalErrors
      ensures AllTallied(eval, Current(more), supportedMetrics, 0, n + 1)
    {
      hide Tallied, SameBut, AllTallied;
      more := counts;
      for j := 0 to |supportedMetrics|
        invariant AllTallied(eval, Current(more), supportedMetrics, j, n)
      {
        ghost var before := Current(more);
        AllTalliedAt(eval, before, supportedMetrics, j, n, j);
        more := TallyOne(eval, more, supportedMetrics[j], n);
        AllTalliedNext(eval, before, Current(more), supportedMetrics, j, n);
      }
      AllTalliedDone(eval, Current(more), supportedMetrics, n);
    }

    method TallySamples(eval: Evaluator, n: nat) returns (counts: map<string, nat>)
      requires Distinct(supportedMetrics) && values == map[] && evalErrors == map[]
      modifies `values, `evalErrors
      ensures AllTallied(eval, Current(counts), supportedMetrics, 0, n)
    {
      counts := map[];
      for i := 0 to n
        invariant AllTallied(eval, Current(counts), supportedMetrics, 0, i)
      {
        counts := TallySample(eval, counts, i);
      }
    }

    method FinishOne(m: string, count: nat)
      requires m in values
      modifies `values, `evalErrors
      ensures values == old(values)[m := FinishedValue(m, old(values[m]), count)] && evalErrors == old(evalErrors) - {m}
    {
      if count != 0 && Averaged(m) {
        values := values[m := values[m] / (count as real)];
      }
      evalErrors := evalErrors - {m};
    }

    method FinishMetrics(counts: map<string, nat>)
      requires values.Keys == counts.Keys
      modifies `values, `evalErrors
      ensures IsFinished(old(Current(counts)), values, evalErrors)
    {
      hide FinishedValue;
      ghost var start := Current(counts);
      var keys := counts.Keys;
      while keys != {}
        invariant keys <= counts.Keys && values.Keys == counts.Keys
        invariant forall m :: m in evalErrors <==> m in start.errors && (m !in counts || m in keys)
        invariant forall m :: m in evalErrors ==> evalErrors[m] == start.errors[m]
        invariant forall m :: m in values ==>
          values[m] == if m in keys then start.values[m] else FinishedValue(m, start.values[m], counts[m])
        decreases |keys|
      {
        var m :| m in keys;
        keys := keys - {m};
        FinishOne(m, counts[m]);
      }
      assert evalErrors == start.errors - counts.Keys;
    }

    method AllFail(status: Status)
      modifies `evalErrors
      requires evalErrors == map[]
      ensures evalErrors.Keys == (set m | m in supportedMetrics)
      ensures forall m :: m in evalErrors ==> evalErrors[m] == status
    {
      for i := 0 to |supportedMetrics|
        invariant evalErrors.Keys == (set m | m in supportedMetrics[..i])
        invariant forall m :: m in evalErrors ==> evalErrors[m] == status
      {
        evalErrors := evalErrors[supportedMetrics[i] := status];
      }
    }

    /** What a launch leaves of the kept metrics: with completed samples a value or an error for each, as the samples
        have it; one common error where the data cannot be read; nothing without counter data. */
    method EvaluatePmMetrics(eval: Evaluator, decoded: Decoded, hasCounterData: bool)
      requires Distinct(supportedMetrics)
      modifies `values, `evalErrors, `totalSamples, `populatedSamples, `completedSamples
      ensures supportedMetrics == [] || !hasCounterData ==> values == map[] && evalErrors == map[]
      ensures supportedMetrics != [] && hasCounterData ==>
        match decoded
        case Samples(total, populated, completed) =>
          && (totalSamples, populatedSamples, completedSamples) == (total, populated, completed)
          && (completed > 0 ==> Evaluated(eval, values, evalErrors, supportedMetrics, completed))
          && (completed == 0 ==> AllFailed(999))
        case DecodeFailed(status) => AllFailed(status)
        case InfoFailed(status) => AllFailed(status)
    {
      values, evalErrors := map[], map[];
      totalSamples, populatedSamples, completedSamples := 0, 0, 0;
      if supportedMetrics == [] || !hasCounterData {
        return;
      }
      match decoded
      case DecodeFailed(status) => AllFail(status);
      case InfoFailed(status) => AllFail(status);
      case Samples(total, populated, completed) =>
        totalSamples, populatedSamples, completedSamples := total, populated, completed;
        if completed == 0 {
          AllFail(ERROR_UNKNOWN);
          return;
        }
        var counts := TallySamples(eval, completed);
        ghost var tally := Current(counts);
        SameKeys(eval, tally, supportedMetrics, completed);
        FinishMetrics(counts);
        FinishedIsEvaluated(eval, tally, values, evalErrors, supportedMetrics, completed);
    }

    // No value, and the same error for each kept metric.
    ghost predicate AllFailed(status: Status) reads this {
      && values == map[] && evalErrors.Keys == (set m | m in supportedMetrics)
      && forall m :: m in evalErrors ==> evalErrors[m] == status
    }
  }

  lemma SameKeys(eval: Evaluator, t: Tally, metrics: seq<string>, n: nat)
    requires AllTallied(eval, t, metrics, 0, n)
    ensures t.values.Keys == t.counts.Keys
  {
    hide Hits, Total;
    forall m | m in metrics
      ensures m in t.values <==> m in t.counts
    {
      TalliedIn(eval, t, metrics, n, m);
    }
  }

  // --- What the raw-metrics field says of a metric ---

  datatype Cell = HasValue(value: real) | Unsupported(status: Status) | EvalError(status: Status) | Missing

  function CellOf(values: map<string, real>, unsupported: map<string, Status>, errors: map<string, Status>,
                  m: string): Cell
  {
    if m in values then HasValue(values[m])
    else if m in unsupported then Unsupported(unsupported[m])
    else if m in errors then EvalError(errors[m])
    else Missing
  }

  /** After selection and evaluation no requested metric is missing, and what is said of it is right: a value exactly
      for a kept metric that some sample gave a value, and the status of unsupported for one that was not kept. */
  lemma {:induction false} EveryMetricIsAccountedFor(build: Builder, supported: seq<string>,
                                                     unsupported: map<string, Status>,
                                                     eval: Evaluator, n: nat,
                                                     values: map<string, real>, errors: map<string, Status>, m: string)
    requires Distinct(supported) && (forall k :: k in supported ==> k !in unsupported) && n > 0
    requires Evaluated(eval, values, errors, Chosen(build, supported), n)
    requires m in supported || m in unsupported
    ensures var marked := Marked(unsupported, Rejected(build, supported));
            match CellOf(values, marked, errors, m)
            case HasValue(v) => m in Chosen(build, supported) && Hits(eval, m, n) > 0 && v == Result(eval, m, n)
            case EvalError(status) =>
              m in Chosen(build, supported) && Hits(eval, m, n) == 0 && eval(n - 1, m) == Error(status)
            case Unsupported(status) => m !in Chosen(build, supported)
            case Missing => false
  {
    hide Hits, Result, Chosen, Rejected, Marked;
    MarkedDomain(unsupported, Rejected(build, supported), m);
    ChosenOrRejected(build, supported, m);
  }

  // A metric is kept or marked, and not both.
  lemma ChosenOrRejected(build: Builder, metrics: seq<string>, m: string)
    requires Distinct(metrics)
    ensures m in Chosen(build, metrics) || m in Rejected(build, metrics) <==> m in metrics
    ensures !(m in Chosen(build, metrics) && m in Rejected(build, metrics))
  {
    hide Greedy, Skipped;
    GreedySplits(build, metrics);
    OnceIn(metrics, m);
    assert m in Greedy(build, metrics) <==> multiset(Greedy(build, metrics))[m] > 0;
    assert m in Skipped(build, metrics) <==> multiset(Skipped(build, metrics))[m] > 0;
    assert (multiset(Greedy(build, metrics)) + multiset(Skipped(build, metrics)))[m] == multiset(metrics)[m];
  }

  lemma {:induction false} OnceIn(metrics: seq<string>, m: string)
    requires Distinct(metrics)
    ensures multiset(metrics)[m] == if m in metrics then 1 else 0
  {
    if metrics != [] {
      var front, last := metrics[..|metrics| - 1], metrics[|metrics| - 1];
      OnceIn(front, m);
      assert metrics == front + [last];
      assert last !in front;
    }
  }
}
