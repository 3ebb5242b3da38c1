/** What the merge of analysis/memory.py leaves in a row, told from the probe's records: their sums, and what each
    column and each raw metric reads back as. */
module MergedRow {
  import opened RawMetrics

  // --- Decimal numbers ---

  predicate IsDigit(c: char) {
    '0' <= c <= '9'
  }

  // At least one digit, and no leading zero but for zero itself.
  predicate IsNumeral(text: string) {
    text != "" && (forall i :: 0 <= i < |text| ==> IsDigit(text[i])) && (|text| > 1 ==> text[0] != '0')
  }

  function Number(text: string): int {
    if text == "" then 0 else 10 * Number(text[..|text| - 1]) + (text[|text| - 1] as int - '0' as int)
  }

  lemma DigitReadsBack(k: nat)
    requires k < 10
    ensures IsDigit("0123456789"[k]) && "0123456789"[k] as int - '0' as int == k
  {
  }

  /** A number is printed as a numeral that reads back as it. */
  lemma {:induction false} DecimalReadsBack(n: nat)
    ensures IsNumeral(Decimal(n)) && Number(Decimal(n)) == n
    ensures n > 0 ==> Decimal(n)[0] != '0'
  {
    var digit := "0123456789"[n % 10];
    DigitReadsBack(n % 10);
    if n < 10 {
      assert Decimal(n) == [digit];
      assert [digit][..0] == "";
    } else {
      DecimalReadsBack(n / 10);
      var front := Decimal(n / 10);
      assert Decimal(n) == front + [digit];
      assert (front + [digit])[..|front + [digit]| - 1] == front;
    }
  }

  // --- The records of a launch ---

  function Sum(records: seq<Record>, bytes: Record -> nat): nat {
    if records == [] then 0 else Sum(records[..|records| - 1], bytes) + bytes(records[|records| - 1])
  }

  function LdGlobal(r: Record): nat { r.ldGlobal }

  function StGlobal(r: Record): nat { r.stGlobal }

  function CpAsync(r: Record): nat { r.cpAsync }

  method AddRecords(row: ProbeByteRow, records: seq<Record>)
    requires row.Value() == Totals(0, 0, 0, 0)
    modifies row
    ensures row.Value() == Totals(|records|, Sum(records, LdGlobal), Sum(records, StGlobal), Sum(records, CpAsync))
  {
    for i := 0 to |records|
      invariant row.Value() == Totals(i, Sum(records[..i], LdGlobal), Sum(records[..i], StGlobal),
                                      Sum(records[..i], CpAsync))
    {
      assert records[..i + 1][..i] == records[..i];
      row.Add(records[i]);
    }
    assert records[..|records|] == records;
  }

  // --- The merged row ---

  const MERGED := {"dram_read_Bps", "dram_write_Bps", "xbar_read_Bps", "xbar_write_Bps", "xbar_metric", "xbar_value",
                   "raw_metrics"}

  // A raw metric that reads back as a number.
  ghost predicate Shows(d: Dict, name: string, n: nat) {
    exists text :: Entry(name, text) in d && IsNumeral(text) && Number(text) == n
  }

  /** The columns of a merged row: what is read is loads and asynchronous copies, what is written is stores, both as
      rates over the row's duration and the read bytes as a number. Every other column is left alone. */
  lemma MergedColumns(fields: Fields, t: Totals, rate: Rate)
    ensures var r, duration := MergedFields(fields, t, rate), Get(fields, "duration_s");
            && MERGED <= r.Keys
            && r["dram_read_Bps"] == r["xbar_read_Bps"] == rate(t.ldGlobal + t.cpAsync, duration)
            && r["dram_write_Bps"] == r["xbar_write_Bps"] == rate(t.stGlobal, duration)
            && r["xbar_metric"] == "fabricperf_probe_read_bytes"
            && IsNumeral(r["xbar_value"]) && Number(r["xbar_value"]) == t.ldGlobal + t.cpAsync
            && (forall k :: k !in MERGED ==> (k in r <==> k in fields) && (k in r ==> r[k] == fields[k]))
  {
    hide Decimal, Merged, ProbeEntries, Number, IsNumeral;
    DecimalReadsBack(t.ldGlobal + t.cpAsync);
  }

  lemma MergedHolds(raw: string, entries: seq<Entry>, e: Entry)
    requires Clean(entries) && e in entries && e.key != ""
    ensures e in Parsed(Merged(raw, entries))
  {
    hide Parsed, Merged, SetAll, Named;
    MergedParses(raw, entries);
    SetAllHolds(Parsed(raw), entries, e);
    NamedIsAll(SetAll(Parsed(raw), entries));
  }

  lemma {:induction false} EntryShows(raw: string, entries: seq<Entry>, name: string, n: nat)
    requires Clean(entries) && Entry(name, Decimal(n)) in entries && name != ""
    ensures Shows(Parsed(Merged(raw, entries)), name, n)
  {
    hide Parsed, Merged, Decimal, Number, IsNumeral;
    MergedHolds(raw, entries, Entry(name, Decimal(n)));
    DecimalReadsBack(n);
  }

  lemma CountEntries(t: Totals)
    ensures var e := ProbeEntries(t);
            && Entry("fabricperf_probe_backend", "neutrino_probe") in e && Entry("probe_merge_key", "launch_index") in e
            && Entry("probe_records", Decimal(t.records)) in e
            && Entry("probe_ld_global_bytes", Decimal(t.ldGlobal)) in e
  {
    hide Decimal;
    var e := ProbeEntries(t);
    assert e[0] in e && e[1] in e && e[2] in e && e[3] in e;
  }

  lemma ByteEntries(t: Totals)
    ensures var e := ProbeEntries(t);
            && Entry("probe_st_global_bytes", Decimal(t.stGlobal)) in e
            && Entry("probe_cp_async_bytes", Decimal(t.cpAsync)) in e
            && Entry("probe_read_bytes", Decimal(t.ldGlobal + t.cpAsync)) in e
            && Entry("probe_write_bytes", Decimal(t.stGlobal)) in e
  {
    hide Decimal;
    var e := ProbeEntries(t);
    assert e[4] in e && e[5] in e && e[6] in e && e[7] in e;
  }

  /** The raw metrics of a merged row, parsed back: where the bytes come from, how many records there were, and the
      bytes of each kind. */
  lemma MergedMetrics(fields: Fields, t: Totals, rate: Rate)
    ensures var d := Parsed(RawOf(MergedFields(fields, t, rate)));
            && Entry("fabricperf_probe_backend", "neutrino_probe") in d && Entry("probe_merge_key", "launch_index") in d
            && Shows(d, "probe_records", t.records)
            && Shows(d, "probe_ld_global_bytes", t.ldGlobal) && Shows(d, "probe_st_global_bytes", t.stGlobal)
            && Shows(d, "probe_cp_async_bytes", t.cpAsync)
            && Shows(d, "probe_read_bytes", t.ldGlobal + t.cpAsync) && Shows(d, "probe_write_bytes", t.stGlobal)
  {
    hide Parsed, Merged, Decimal, Shows, Clean, ProbeEntries;
    var raw, entries := RawOf(fields), ProbeEntries(t);
    ProbeEntriesAreClean(t);
    CountEntries(t);
    ByteEntries(t);
    assert RawOf(MergedFields(fields, t, rate)) == Merged(raw, entries);
    MergedHolds(raw, entries, Entry("fabricperf_probe_backend", "neutrino_probe"));
    MergedHolds(raw, entries, Entry("probe_merge_key", "launch_index"));
    EntryShows(raw, entries, "probe_records", t.records);
    EntryShows(raw, entries, "probe_ld_global_bytes", t.ldGlobal);
    EntryShows(raw, entries, "probe_st_global_bytes", t.stGlobal);
    EntryShows(raw, entries, "probe_cp_async_bytes", t.cpAsync);
    EntryShows(raw, entries, "probe_read_bytes", t.ldGlobal + t.cpAsync);
    EntryShows(raw, entries, "probe_write_bytes", t.stGlobal);
  }
}
