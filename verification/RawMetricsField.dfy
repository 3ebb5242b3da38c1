/** The raw-metrics field that memory.cc prints into a row, against the parser of analysis/common.py: every requested
    metric comes back with what was said of it, in the order of the request. */
module RawMetricsField {
  import opened MetricSelection
  import opened Options
  import opened RawMetrics
  import MergedRow

  // How numbers and profiler statuses are printed.
  datatype Printer = Printer(number: real -> string, status: Status -> string)

  // The sampling data printed behind the metrics.
  datatype Sampling = Sampling(backend: string, total: nat, populated: nat, completed: nat,
                               overflow: bool, interval: nat, duration: real)

  function CellText(p: Printer, cell: MetricSelection.Cell): string {
    match cell
    case HasValue(value) => p.number(value)
    case Unsupported(status) => "UNSUPPORTED:" + p.status(status)
    case EvalError(status) => "EVAL_ERROR:" + p.status(status)
    case Missing => "MISSING"
  }

  type Cells = string -> MetricSelection.Cell

  function MetricEntries(p: Printer, requested: seq<string>, cells: Cells): (entries: seq<Entry>)
    ensures |entries| == |requested|
    ensures forall i :: 0 <= i < |entries| ==> entries[i] == Entry(requested[i], CellText(p, cells(requested[i])))
  {
    seq(|requested|, i requires 0 <= i < |requested| => Entry(requested[i], CellText(p, cells(requested[i]))))
  }

  // A failed launch adds its result.
  function SamplingEntries(p: Printer, s: Sampling, failed: Option<nat>): seq<Entry> {
    [Entry("cupti_backend", s.backend),
     Entry("pm_samples_total", Decimal(s.total)),
     Entry("pm_samples_populated", Decimal(s.populated)),
     Entry("pm_samples_completed", Decimal(s.completed)),
     Entry("pm_overflow", if s.overflow then "1" else "0"),
     Entry("pm_interval", Decimal(s.interval)),
     Entry("event_duration_s", p.number(s.duration))]
    + match failed case None => [] case Some(code) => [Entry("launch_result", "CUDA_" + Decimal(code))]
  }

  // Printed with an equals sign always.
  function Printed(entries: seq<Entry>): (parts: seq<string>)
    ensures |parts| == |entries|
    ensures forall i :: 0 <= i < |entries| ==> parts[i] == entries[i].key + "=" + entries[i].value
  {
    seq(|entries|, i requires 0 <= i < |entries| => entries[i].key + "=" + entries[i].value)
  }

  function FieldText(p: Printer, requested: seq<string>, cells: Cells, s: Sampling, failed: Option<nat>): string {
    Joined(Printed(MetricEntries(p, requested, cells))) + ";" + Joined(Printed(SamplingEntries(p, s, failed)))
  }

  lemma PrintedAppend(entries: seq<Entry>, e: Entry)
    ensures Joined(Printed(entries + [e]))
            == Joined(Printed(entries)) + (if entries == [] then "" else ";") + e.key + "=" + e.value
  {
    assert Printed(entries + [e]) == Printed(entries) + [e.key + "=" + e.value];
    if entries == [] {
      JoinedOne(e.key + "=" + e.value);
    } else {
      JoinedLast(Printed(entries), e.key + "=" + e.value);
    }
  }

  method PrintMetrics(p: Printer, requested: seq<string>, cells: Cells) returns (text: string)
    ensures text == Joined(Printed(MetricEntries(p, requested, cells)))
  {
    hide Joined, CellText;
    text := "";
    NothingPrinted();
    ghost var entries := MetricEntries(p, requested, cells);
    for i := 0 to |requested|
      invariant text == Joined(Printed(entries[..i]))
    {
      PrintedAppend(entries[..i], entries[i]);
      assert entries[..i + 1] == entries[..i] + [entries[i]];
      if i != 0 {
        text := text + ";";
      }
      text := text + requested[i] + "=" + CellText(p, cells(requested[i]));
    }
    assert entries[..|requested|] == entries;
  }

  lemma NothingPrinted()
    ensures Joined(Printed([])) == ""
  {
  }

  method PrintEntries(entries: seq<Entry>) returns (text: string)
    ensures text == Joined(Printed(entries))
  {
    hide Joined;
    text := "";
    NothingPrinted();
    for i := 0 to |entries|
      invariant text == Joined(Printed(entries[..i]))
    {
      PrintedAppend(entries[..i], entries[i]);
      assert entries[..i + 1] == entries[..i] + [entries[i]];
      if i != 0 {
        text := text + ";";
      }
      text := text + entries[i].key + "=" + entries[i].value;
    }
    assert entries[..|entries|] == entries;
  }

  method RawMetricsOfLaunch(p: Printer, requested: seq<string>, cells: Cells, s: Sampling, failed: Option<nat>)
    returns (text: string)
    ensures text == FieldText(p, requested, cells, s, failed)
  {
    var metrics := PrintMetrics(p, requested, cells);
    var rest := PrintEntries(SamplingEntries(p, s, failed));
    text := metrics + ";" + rest;
  }

  // --- Reading it back ---

  predicate Readable(text: string) {
    text != "" && Without(text, ';')
  }

  // The names of the sampling entries.
  function SamplingNames(): seq<string> {
    ["cupti_backend", "pm_samples_total", "pm_samples_populated", "pm_samples_completed", "pm_overflow", "pm_interval",
     "event_duration_s", "launch_result"]
  }

  // Names and texts without separators, and no name twice.
  ghost predicate Fit(p: Printer, requested: seq<string>, cells: Cells, s: Sampling) {
    && MetricSelection.Distinct(requested)
    && (forall m :: m in requested ==> IsName(m) && m !in SamplingNames() && Readable(CellText(p, cells(m))))
    && Readable(s.backend) && Readable(p.number(s.duration))
  }

  lemma FirstNames()
    ensures IsName("cupti_backend") && IsName("pm_samples_total") && IsName("pm_overflow") && IsName("pm_interval")
  {
  }

  lemma LastNames()
    ensures IsName("pm_samples_populated") && IsName("pm_samples_completed")
    ensures IsName("event_duration_s") && IsName("launch_result")
  {
  }

  lemma NamesDiffer()
    ensures forall i, j :: 0 <= i < j < 8 ==> SamplingNames()[i] != SamplingNames()[j]
  {
    assert "pm_samples_populated"[11] != "pm_samples_completed"[11];
    assert "pm_overflow"[3] != "pm_interval"[3];
    assert "cupti_backend"[0] != "launch_result"[0];
    assert "pm_samples_total"[0] != "event_duration_s"[0];
  }

  lemma SamplingNamed(p: Printer, s: Sampling, failed: Option<nat>)
    ensures var e := SamplingEntries(p, s, failed);
            |e| <= 8 && forall i :: 0 <= i < |e| ==> e[i].key == SamplingNames()[i] && IsName(e[i].key)
  {
    hide Decimal, IsName;
    FirstNames();
    LastNames();
  }

  lemma SamplingReadable(p: Printer, s: Sampling, failed: Option<nat>)
    requires Readable(s.backend) && Readable(p.number(s.duration))
    ensures var e := SamplingEntries(p, s, failed); forall i :: 0 <= i < |e| ==> Readable(e[i].value)
  {
    hide Decimal;
  }

  // All entries of a field.
  function FieldEntries(p: Printer, requested: seq<string>, cells: Cells, s: Sampling, failed: Option<nat>): seq<Entry>
  {
    MetricEntries(p, requested, cells) + SamplingEntries(p, s, failed)
  }

  predicate Entries(entries: seq<Entry>) {
    && RawMetrics.Distinct(entries)
    && forall i :: 0 <= i < |entries| ==> IsName(entries[i].key) && Readable(entries[i].value)
  }

  lemma EntriesAreFit(p: Printer, requested: seq<string>, cells: Cells, s: Sampling, failed: Option<nat>)
    requires Fit(p, requested, cells, s)
    ensures Entries(MetricEntries(p, requested, cells)) && Entries(SamplingEntries(p, s, failed))
    ensures Entries(FieldEntries(p, requested, cells, s, failed))
  {
    hide SamplingEntries, SamplingNames, IsName, Readable, CellText;
    SamplingNamed(p, s, failed);
    SamplingReadable(p, s, failed);
    NamesDiffer();
    assert |SamplingNames()| == 8 by {
      CountNames();
    }
    var metrics, rest := MetricEntries(p, requested, cells), SamplingEntries(p, s, failed);
    forall i, j | 0 <= i < |metrics| && 0 <= j < |rest| ensures metrics[i].key != rest[j].key {
      assert requested[i] in requested && SamplingNames()[j] in SamplingNames();
    }
    JoinedEntries(metrics, rest);
  }

  lemma CountNames()
    ensures |SamplingNames()| == 8
  {
  }

  lemma JoinedEntries(a: seq<Entry>, b: seq<Entry>)
    requires Entries(a) && Entries(b)
    requires forall i, j :: 0 <= i < |a| && 0 <= j < |b| ==> a[i].key != b[j].key
    ensures Entries(a + b)
  {
    hide IsName, Readable;
  }

  // Such entries print as the parser's own printer prints them, and parse back.
  lemma PrintedAreParts(entries: seq<Entry>)
    requires Entries(entries)
    ensures Printed(entries) == Parts(entries) && Clean(entries) && NAMELESS !in entries
    ensures forall i :: 0 <= i < |entries| ==> Without(Parts(entries)[i], ';')
  {
    forall i | 0 <= i < |entries| ensures Without(Parts(entries)[i], ';') {
      PartIsClean(entries[i].key, entries[i].value);
    }
  }

  lemma SplitParts(entries: seq<Entry>)
    requires Entries(entries)
    ensures Split(Joined(Printed(entries))) == if entries == [] then [""] else Parts(entries)
  {
    hide Split, Joined, Without, Entries;
    PrintedAreParts(entries);
    if entries == [] {
      NothingPrinted();
      assert Split("") == [""] by {
        SplitNothing();
      }
    } else {
      SplitJoined(Parts(entries));
    }
  }

  lemma SplitNothing()
    ensures Split("") == [""]
  {
  }

  // Parts that parse to nothing may stand in front.
  lemma {:induction false} NothingInFront(nothing: seq<string>, parts: seq<string>)
    requires ParsedParts(nothing) == []
    ensures ParsedParts(nothing + parts) == ParsedParts(parts)
  {
    hide ParsedParts, KeyOf, ValueOf, Set;
    if parts == [] {
      assert nothing + parts == nothing;
      NoParts();
    } else {
      var front, last := parts[..|parts| - 1], parts[|parts| - 1];
      NothingInFront(nothing, front);
      ParsedAppend(front, last);
      ParsedAppend(nothing + front, last);
      assert nothing + parts == (nothing + front) + [last];
      assert parts == front + [last];
    }
  }

  lemma NoParts()
    ensures ParsedParts([]) == [] && ParsedParts([""]) == []
  {
  }

  /** The printed field parses back to its entries: each requested metric with the text of what was said of it, in the
      order of the request, then the sampling data. */
  lemma PrintedMetricsParse(p: Printer, requested: seq<string>, cells: Cells, s: Sampling, failed: Option<nat>)
    requires Fit(p, requested, cells, s)
    ensures Parsed(FieldText(p, requested, cells, s, failed)) == FieldEntries(p, requested, cells, s, failed)
    ensures forall i :: 0 <= i < |requested| ==>
              i < |Parsed(FieldText(p, requested, cells, s, failed))|
              && Parsed(FieldText(p, requested, cells, s, failed))[i]
                 == Entry(requested[i], CellText(p, cells(requested[i])))
  {
    hide Split, Joined, ParsedParts, Parts, Printed, Entries, CellText, SamplingEntries, Clean, Named;
    var metrics, rest := MetricEntries(p, requested, cells), SamplingEntries(p, s, failed);
    var all := FieldEntries(p, requested, cells, s, failed);
    EntriesAreFit(p, requested, cells, s, failed);
    SplitConcat(Joined(Printed(metrics)), Joined(Printed(rest)));
    SplitParts(metrics);
    SplitParts(rest);
    SamplingIsNotEmpty(p, s, failed);
    PrintedAreParts(all);
    PrintedPartsParse(all);
    NamedIsAll(all);
    PartsConcat(metrics, rest);
    if requested == [] {
      NoParts();
      NothingInFront([""], Parts(rest));
      assert metrics + rest == rest;
    }
  }

  /** Read back, the sampling data are those of the launch; a failed launch, and only such a one, shows its result. */
  lemma SamplingReadsBack(p: Printer, requested: seq<string>, cells: Cells, s: Sampling, failed: Option<nat>)
    requires Fit(p, requested, cells, s)
    ensures var d := Parsed(FieldText(p, requested, cells, s, failed));
            && Entry("cupti_backend", s.backend) in d && Entry("event_duration_s", p.number(s.duration)) in d
            && MergedRow.Shows(d, "pm_samples_total", s.total)
            && MergedRow.Shows(d, "pm_samples_populated", s.populated)
            && MergedRow.Shows(d, "pm_samples_completed", s.completed) && MergedRow.Shows(d, "pm_interval", s.interval)
            && MergedRow.Shows(d, "pm_overflow", if s.overflow then 1 else 0)
            && |d| == |requested| + (if failed.Some? then 8 else 7)
            && (failed.Some? ==> Entry("launch_result", "CUDA_" + Decimal(failed.value)) in d)
  {
    hide Parsed, FieldText, Decimal, CellText, MergedRow.Number, MergedRow.IsNumeral, Fit;
    PrintedMetricsParse(p, requested, cells, s, failed);
    SamplingIn(p, s, failed);
    MergedRow.DecimalReadsBack(s.total);
    MergedRow.DecimalReadsBack(s.populated);
    MergedRow.DecimalReadsBack(s.completed);
    MergedRow.DecimalReadsBack(s.interval);
    MergedRow.DecimalReadsBack(if s.overflow then 1 else 0);
  }

  lemma SamplingIn(p: Printer, s: Sampling, failed: Option<nat>)
    ensures var d := SamplingEntries(p, s, failed);
            && Entry("cupti_backend", s.backend) in d && Entry("event_duration_s", p.number(s.duration)) in d
            && Entry("pm_samples_total", Decimal(s.total)) in d
            && Entry("pm_samples_populated", Decimal(s.populated)) in d
            && Entry("pm_samples_completed", Decimal(s.completed)) in d
            && Entry("pm_interval", Decimal(s.interval)) in d
            && Entry("pm_overflow", Decimal(if s.overflow then 1 else 0)) in d
            && |d| == (if failed.Some? then 8 else 7)
            && (failed.Some? ==> Entry("launch_result", "CUDA_" + Decimal(failed.value)) in d)
  {
    assert Decimal(0) == "0" && Decimal(1) == "1";
    hide Decimal;
    var d := SamplingEntries(p, s, failed);
    assert forall i :: 0 <= i < 7 ==> d[i] in d;
    if failed.Some? {
      assert d[7] in d;
    }
  }

  lemma SamplingIsNotEmpty(p: Printer, s: Sampling, failed: Option<nat>)
    ensures SamplingEntries(p, s, failed) != []
  {
  }

  lemma PartsConcat(a: seq<Entry>, b: seq<Entry>)
    ensures Parts(a + b) == Parts(a) + Parts(b)
  {
    hide Part;
  }
}
