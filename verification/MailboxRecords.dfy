/** The rows the receive hook saves (latency.probe, maps sr_latency and sr_latency_debug) against
    the two analyzers that decode them (analysis/latency.py and analysis/mailbox_debug.py).

    The maps declare 64-bit fields, which the readers take as signed words and 32-bit fields as unsigned ones, as
    latency.py ("qII") and ptp_alignment.py ("qq") unpack them. */
module MailboxRecords {
  import opened Limits
  import opened Words
  import opened MailboxWords
  import opened Mailbox
  import opened MailboxHistory
  import ClockOffset

  const INVALID_SENTINEL: int := TWO63 - 1
  const TWO16 := 0x1_0000
  const TWO31 := 0x8000_0000

  // The source ranks whose number plus one stays clear of bit 31, and the virtual blocks the hook accepts.
  type Peer = n: nat | n < 0x7FFF
  type Vblock = n: nat | n < 4096

  // The metadata words are built from disjoint bit fields, so shift and or are multiply and add.
  lemma DisjointFieldsAdd(high: bv32, low: bv32)
    requires high < 0x8000 && low < 0x1_0000
    ensures (high << 16) | low == high * 0x1_0000 + low
    ensures ((high << 16) | low) | 0x8000_0000 == high * 0x1_0000 + low + 0x8000_0000
  {
  }

  datatype LatencyRow = LatencyRow(latency: Word, vblock: nat, step: nat)

  datatype DebugRow = DebugRow(latency: Word, meta: Word, step: Word, tag: Word,
                               senderTime: Word, offset: Word, corrected: Word, localTime: Word)

  // Source peer plus one in bits 16.., the virtual block below, the invalid flag in bit 31.
  function Channel(src: Peer, vblock: Vblock, invalid: bool): (c: nat)
    ensures c < TWO32
  {
    (src + 1) * TWO16 + vblock + if invalid then TWO31 else 0
  }

  // Poll count above, channel word below.
  function Meta(misses: nat, channel: nat): Word {
    Wrap(misses * TWO32 + channel)
  }

  // The hook start minus the sender's root time moved to this receiver's clock.
  function SavedLatency(h: Hit, offset: Word): Word {
    Sub(h.now, Add(h.seen.y, offset))
  }

  function SavedLatencyRow(h: Hit, src: Peer, vblock: Vblock, offset: Word): LatencyRow {
    LatencyRow(SavedLatency(h, offset), Channel(src, vblock, h.Invalid()), h.step % TWO32)
  }

  function SavedDebugRow(h: Hit, src: Peer, vblock: Vblock, offset: Word): DebugRow {
    DebugRow(SavedLatency(h, offset), Meta(h.misses, Channel(src, vblock, h.Invalid())),
             h.step, h.seen.x, h.seen.y, offset, Add(h.seen.y, offset), h.now)
  }

  // --- analysis/latency.py ---

  // The source peer, or -1 when unknown, and the virtual block.
  function SplitLatencyChannel(row: LatencyRow): (int, nat) {
    var raw := row.vblock % TWO31;
    if raw >= TWO16 then (raw / TWO16 - 1, raw % TWO16) else (-1, raw)
  }

  predicate IsInvalidLatencyRecord(row: LatencyRow) {
    Signed(row.latency) == INVALID_SENTINEL || row.vblock / TWO31 % 2 != 0
  }

  predicate IsUnwrittenLatencyRecord(row: LatencyRow) {
    row.latency == 0 && row.step == 0 && row.vblock == 0
  }

  // --- analysis/mailbox_debug.py ---

  // A row as the reader returns it.
  datatype DebugRecord = DebugRecord(latency: int, meta: int, step: int, tag: int,
                                     senderTime: int, offset: int, corrected: int, localTime: int)

  function Read(row: DebugRow): DebugRecord {
    DebugRecord(Signed(row.latency), Signed(row.meta), Signed(row.step), Signed(row.tag),
                Signed(row.senderTime), Signed(row.offset), Signed(row.corrected), Signed(row.localTime))
  }

  datatype MetaParts = MetaParts(polls: nat, src: int, vblock: nat)

  // Python's shifts floor and its masks take residues, for negative words too.
  function DecodeMeta(meta: int): MetaParts {
    var packed := meta % TWO32 % TWO31;
    var packedSrc := packed / TWO16;
    MetaParts(meta / TWO32 % TWO32, if packedSrc > 0 then packedSrc - 1 else -1, packed % TWO16)
  }

  predicate DecodeInvalid(meta: int, latency: int) {
    latency == INVALID_SENTINEL || meta / TWO31 % 2 != 0
  }

  datatype TagParts = TagParts(step: int, runId: nat, kind: nat)

  function DecodeTag(tag: int): TagParts {
    TagParts(tag / TWO32, tag / 256 % RUN_IDS, tag % 256)
  }

  predicate IsUnwrittenDebugRecord(r: DebugRecord) {
    && r.latency == 0 && r.meta == 0 && r.step == 0 && r.tag == 0
    && r.senderTime == 0 && r.offset == 0 && r.corrected == 0 && r.localTime == 0
  }

  predicate KindMismatch(r: DebugRecord) {
    DecodeTag(r.tag).kind != KIND
  }

  predicate StepMismatch(r: DebugRecord) {
    DecodeTag(r.tag).step != r.step
  }

  // Counted over the valid records only.
  predicate RecomputeMismatch(r: DebugRecord) {
    !DecodeInvalid(r.meta, r.latency) && r.localTime - r.corrected != r.latency
  }

  function Count(records: seq<DebugRecord>, bad: DebugRecord -> bool): nat {
    if records == [] then 0 else (if bad(records[0]) then 1 else 0) + Count(records[1..], bad)
  }

  lemma {:induction false} CountIsZero(records: seq<DebugRecord>, bad: DebugRecord -> bool)
    ensures Count(records, bad) == 0 <==> forall r :: r in records ==> !bad(r)
  {
    if records != [] {
      CountIsZero(records[1..], bad);
      assert records == [records[0]] + records[1..];
    }
  }

  // --- Agreement ---

  /** latency.py recovers source, virtual block, flag and the low half of the step of any saved row, except that a
      latency of exactly 2^63 - 1 also reads as invalid; no saved row looks unwritten. */
  lemma SavedLatencyRowsDecode(h: Hit, src: Peer, vblock: Vblock, offset: Word)
    ensures var row := SavedLatencyRow(h, src, vblock, offset);
            && SplitLatencyChannel(row) == (src, vblock)
            && (IsInvalidLatencyRecord(row) <==> h.Invalid() || Signed(SavedLatency(h, offset)) == TWO63 - 1)
            && !IsUnwrittenLatencyRecord(row)
            && row.step < TWO32 && (h.step - row.step) % TWO32 == 0
  {
    ChannelParts(src, vblock, h.Invalid());
    StepRemainder(h.step);
    hide SavedLatency, Channel;
  }

  lemma StepRemainder(step: Word)
    ensures (step - step % TWO32) % TWO32 == 0
  {
    assert step - step % TWO32 == step / TWO32 * TWO32;
  }

  /** mailbox_debug.py recovers the same source, virtual block and flag, and the poll count. */
  lemma SavedDebugRowsDecode(h: Hit, src: Peer, vblock: Vblock, offset: Word)
    requires h.misses < POLL_LIMIT
    ensures var r := Read(SavedDebugRow(h, src, vblock, offset));
            && DecodeMeta(r.meta) == MetaParts(h.misses, src, vblock)
            && (DecodeInvalid(r.meta, r.latency)
                <==> IsInvalidLatencyRecord(SavedLatencyRow(h, src, vblock, offset)))
            && !IsUnwrittenDebugRecord(r)
  {
    var c := Channel(src, vblock, h.Invalid());
    ChannelParts(src, vblock, h.Invalid());
    MetaFields(h.misses, c);
  }

  lemma MetaFields(misses: nat, c: nat)
    requires misses < POLL_LIMIT && c < TWO32
    ensures Signed(Meta(misses, c)) == misses * TWO32 + c
    ensures (misses * TWO32 + c) / TWO32 == misses && (misses * TWO32 + c) % TWO32 == c
    ensures (misses * TWO32 + c) / TWO31 == 2 * misses + c / TWO31
  {
  }

  lemma ChannelParts(src: Peer, vblock: Vblock, invalid: bool)
    ensures var c := Channel(src, vblock, invalid);
            && TWO16 <= c < TWO32
            && (c / TWO31 == if invalid then 1 else 0)
            && c % TWO31 == (src + 1) * TWO16 + vblock
            && (c % TWO31) / TWO16 == src + 1 && (c % TWO31) % TWO16 == vblock
  {
  }

  lemma LowBits(n: int)
    ensures n % TWO32 % TWO31 == n % TWO31
  {
    var q := n / TWO32;
    assert n == (2 * q) * TWO31 + n % TWO32;
  }

  lemma ChannelDigits(n: nat)
    ensures n / TWO16 * TWO16 + n % TWO16 == n
    ensures n >= TWO16 <==> n / TWO16 > 0
  {
  }

  /** latency.py reads a channel word as the number it packs, whatever a row holds: 2^16 times the source plus one, the
      source being -1 where that is zero, and the virtual block. */
  lemma ChannelsArePacked(row: LatencyRow)
    ensures var (src, vblock) := SplitLatencyChannel(row);
            vblock < 0x1_0000 && (src + 1) * 0x1_0000 + vblock == row.vblock % 0x8000_0000
  {
    ChannelDigits(row.vblock % TWO31);
  }

  /** So does mailbox_debug.py, and it takes the poll count from the high half of the metadata word. */
  lemma MetaIsPacked(meta: int)
    ensures var parts := DecodeMeta(meta);
            && parts.vblock < 0x1_0000 && (parts.src + 1) * 0x1_0000 + parts.vblock == meta % 0x8000_0000
            && parts.polls == meta / 0x1_0000_0000 % 0x1_0000_0000
  {
    LowBits(meta);
    ChannelDigits(meta % TWO31);
  }

  /** A row is taken for unwritten exactly if it is zero-filled. */
  lemma UnwrittenIsZeroFill(row: LatencyRow, debug: DebugRow)
    ensures IsUnwrittenLatencyRecord(row) <==> row == LatencyRow(0, 0, 0)
    ensures IsUnwrittenDebugRecord(Read(debug)) <==> debug == DebugRow(0, 0, 0, 0, 0, 0, 0, 0)
  {
  }

  // Reading a word as signed moves its high half by 2^32, and leaves its low half alone.
  lemma SignedHalves(w: Word)
    ensures Signed(w) / TWO32 == if w / TWO32 < TWO31 then w / TWO32 else w / TWO32 - TWO32
    ensures Signed(w) % 256 == w % 256 && Signed(w) / 256 % RUN_IDS == w / 256 % RUN_IDS
  {
  }

  // A step is its own sign-extended low half exactly when it fits a signed 32-bit word.
  lemma LowHalfIsStep(step: Word)
    ensures var low := step % TWO32;
            (if low < TWO31 then low else low - TWO32) == Signed(step) <==> -TWO31 <= Signed(step) < TWO31
  {
    assert step == step / TWO32 * TWO32 + step % TWO32;
  }

  /** A saved row's tag shows its own kind and run id always, and its own step exactly when that fits a signed 32-bit
      word. */
  lemma SavedTagsAgree(h: Hit, src: Peer, vblock: Vblock, offset: Word)
    requires h.seen.x == Tag(h.step, h.runId)
    ensures var r := Read(SavedDebugRow(h, src, vblock, offset));
            && !KindMismatch(r)
            && DecodeTag(r.tag).runId == h.runId % RUN_IDS
            && (StepMismatch(r) <==> !(-TWO31 <= Signed(h.step) < TWO31))
  {
    hide Tag;
    TagFields(h.step, h.runId);
    SignedHalves(Tag(h.step, h.runId));
    LowHalfIsStep(h.step);
  }

  // The first step that the analyzer reports although the row is sound.
  lemma FirstStepReported(h: Hit, src: Peer, vblock: Vblock, offset: Word)
    requires h.seen.x == Tag(h.step, h.runId)
    ensures h.step < TWO31 ==> !StepMismatch(Read(SavedDebugRow(h, src, vblock, offset)))
    ensures h.step == TWO31 ==> StepMismatch(Read(SavedDebugRow(h, src, vblock, offset)))
  {
    hide StepMismatch;
    SavedTagsAgree(h, src, vblock, offset);
  }

  // The analyzer recomputes a latency over unbounded integers, so it agrees with the probe's wrapping
  // subtraction exactly when the signed difference fits 64 bits.
  lemma RecomputeAgrees(h: Hit, src: Peer, vblock: Vblock, offset: Word)
    ensures var r := Read(SavedDebugRow(h, src, vblock, offset));
            RecomputeMismatch(r) <==>
              !DecodeInvalid(r.meta, r.latency) && !(-TWO63 <= r.localTime - r.corrected < TWO63)
  {
    var row := SavedDebugRow(h, src, vblock, offset);
    var a, b := row.localTime, row.corrected;
    var d := Signed(a) - Signed(b);
    var q := (if a < TWO63 then 0 else 1) - (if b < TWO63 then 0 else 1);
    SameResidue(d, a - b, q);
    SignedOfWrap(d);
  }

  // The debug rows of one receiving rank, for the slot of one source and virtual block, as read.
  function DebugRecords(rows: seq<Row>, src: Peer, vblock: Vblock, offset: Word): (records: seq<DebugRecord>)
    ensures |records| == |rows|
    ensures forall i :: 0 <= i < |rows| ==> records[i] == Read(SavedDebugRow(rows[i].hit, src, vblock, offset))
  {
    seq(|rows|, i requires 0 <= i < |rows| => Read(SavedDebugRow(rows[i].hit, src, vblock, offset)))
  }

  lemma {:induction false} RunRowMatches(acts: seq<Action>, i: nat)
    requires Legal(acts) && i < |After(acts).rows|
    ensures var h := After(acts).rows[i].hit; h.misses < POLL_LIMIT && h.seen.x == Tag(h.step, h.runId)
  {
    Reachable(acts);
    assert HitInv(After(acts), After(acts).rows[i].hit);
  }

  /** Over every mailbox run the analyzer counts no kind mismatch, and no step mismatch exactly when
      every received step fits a signed 32-bit word. */
  lemma {:induction false} RunsHaveNoTagMismatch(acts: seq<Action>, src: Peer, vblock: Vblock, offset: Word)
    requires Legal(acts)
    ensures var rows := After(acts).rows; var records := DebugRecords(rows, src, vblock, offset);
            && Count(records, KindMismatch) == 0
            && (Count(records, StepMismatch) == 0 <==>
                  forall i :: 0 <= i < |rows| ==> -TWO31 <= Signed(rows[i].hit.step) < TWO31)
  {
    hide Legal, After, Tag, SavedDebugRow, Read, DecodeTag;
    var rows := After(acts).rows;
    var records := DebugRecords(rows, src, vblock, offset);
    forall i | 0 <= i < |rows|
      ensures !KindMismatch(records[i])
      ensures StepMismatch(records[i]) <==> !(-TWO31 <= Signed(rows[i].hit.step) < TWO31)
    {
      RunRowMatches(acts, i);
      SavedTagsAgree(rows[i].hit, src, vblock, offset);
    }
    CountIsZero(records, KindMismatch);
    CountIsZero(records, StepMismatch);
    if Count(records, StepMismatch) == 0 {
      forall i | 0 <= i < |rows| ensures -TWO31 <= Signed(rows[i].hit.step) < TWO31 {
        assert records[i] in records;
      }
    }
  }

  /** Every row of every run, decoded by mailbox_debug.py, gives back the hook's poll count, source and
      virtual block, and its run id modulo 2^24; the invalid flag is the hook's own. */
  lemma {:induction false} RunRowsDecode(acts: seq<Action>, i: nat, src: Peer, vblock: Vblock, offset: Word)
    requires Legal(acts) && i < |After(acts).rows|
    ensures var h := After(acts).rows[i].hit; var r := Read(SavedDebugRow(h, src, vblock, offset));
            && DecodeMeta(r.meta) == MetaParts(h.misses, src, vblock)
            && DecodeTag(r.tag).runId == h.runId % RUN_IDS
            && (r.latency != TWO63 - 1 ==> (DecodeInvalid(r.meta, r.latency) <==> h.Invalid()))
  {
    hide Legal, After, Channel, Meta, Tag, DecodeMeta, DecodeTag;
    var h := After(acts).rows[i].hit;
    RunRowMatches(acts, i);
    SavedDebugRowsDecode(h, src, vblock, offset);
    SavedLatencyRowsDecode(h, src, vblock, offset);
    SavedTagsAgree(h, src, vblock, offset);
  }

  // --- What a latency is worth ---

  // Every hook reads its rank's clock at a root time: the start of a receive hook, and the time a send hook stores.
  ghost predicate Clocked(acts: seq<Action>, root: nat -> int, sender: ClockOffset.Rank, receiver: ClockOffset.Rank) {
    forall j :: 0 <= j < |acts| ==>
      && (acts[j].Begin? ==> acts[j].now == ClockOffset.Reading(root(j), receiver.Theta()))
      && (acts[j].StoreTime? ==>
            acts[j].time == ClockOffset.PublishedTime(ClockOffset.Reading(root(j), sender.Theta()), sender.Slot0()))
  }

  /** Over every run, an unflagged row between two calibrated ranks differs from the true root time between the latest
      time store before its load and the begin of its hook by no more than the two ranks' offset errors. */
  lemma UnflaggedLatencyIsTrue(acts: seq<Action>, i: nat, root: nat -> int,
                               sender: ClockOffset.Rank, receiver: ClockOffset.Rank)
    returns (k: nat, p: nat, v: nat, e: nat)
    requires Legal(acts) && i < |After(acts).rows| && !After(acts).rows[i].hit.Invalid()
    requires sender.InRange() && receiver.InRange() && Clocked(acts, root, sender, receiver)
    ensures SavedAt(acts, k, p, v, i, After(acts).rows[i])
    ensures e < p && acts[e].StoreTime? && TimeStores(acts[..e]) + 1 == TimeStores(acts[..p])
    ensures var latency := Signed(SavedLatency(After(acts).rows[i].hit, receiver.Slot0()));
            var bound := sender.DoubleBound() + receiver.DoubleBound();
            2 * ClockOffset.Abs(root(k) - root(e)) + bound < TWO64 ==>
              2 * ClockOffset.Abs(latency - (root(k) - root(e))) <= bound
  {
    hide Legal, After, TimeStores, TagStores;
    k, p, v, e := UnflaggedRowsCarryTheLatestStore(acts, i);
    if 2 * ClockOffset.Abs(root(k) - root(e)) + sender.DoubleBound() + receiver.DoubleBound() < TWO64 {
      ClockOffset.CalibratedLatencyError(root(e), root(k), sender, receiver);
    }
  }
}
