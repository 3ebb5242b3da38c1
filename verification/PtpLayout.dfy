/** Where the probes of latency.probe put their messages and diagnostics, against the buffers that latency.c
    allocates and the slots that analysis/ptp_alignment.py decodes. */
module PtpLayout {
  import opened Arithmetic
  import opened Limits
  import Handshake

  const LEADER_SPACES: nat := 3
  const FOLLOWER_SPACES: nat := 5
  const MESSAGE_SLOTS: nat := 4096
  const VBLOCKS: nat := 4096
  const SLOT_BYTES: nat := 16
  const MAX_RANKS: nat := 8
  const MAX_CHANNEL: nat := 16
  const COMPACT_DSTS: nat := 7

  // --- What latency.c requests, in bytes ---

  function SequenceSlots(n: nat): nat { SAMPLES * n + MESSAGE_SLOTS }
  function LeaderBytes(n: nat): nat { SequenceSlots(n) * n * LEADER_SPACES * SLOT_BYTES }
  function FollowerBytes(n: nat): nat { SequenceSlots(n) * FOLLOWER_SPACES * SLOT_BYTES }
  function MailboxBytes(n: nat): nat { n * VBLOCKS * SLOT_BYTES }
  function ResultBytes(): nat { RECORDS * SLOT_BYTES }

  // --- What latency.probe addresses, in bytes from the start of a rank's buffer ---

  // The sequence number of a sample of a leader rank.
  function Sequence(leader: nat, sample: nat): nat { sample + leader * SAMPLES }

  // Message k of follower `rank` in the leader's buffer.
  function LeaderOffset(n: nat, leader: nat, sample: nat, rank: nat, k: nat): nat {
    (n * Sequence(leader, sample) + rank) * 3 * SLOT_BYTES + k * SLOT_BYTES
  }

  // Message k of a leader in the follower's own buffer.
  function FollowerOffset(leader: nat, sample: nat, k: nat): nat {
    Sequence(leader, sample) * 5 * SLOT_BYTES + k * SLOT_BYTES
  }

  // The mailbox of a source rank and vblock in the receiver's buffer.
  function MailboxOffset(source: nat, vblock: nat): nat {
    (source * 4096 + vblock) * SLOT_BYTES
  }

  predicate Mail(n: nat, leader: nat, sample: nat, rank: nat, k: nat) {
    2 <= n <= MAX_RANKS && leader < n && sample < SAMPLES && rank < n && k < 3
  }

  /** No two messages of a leader's buffer share a byte. */
  lemma LeaderMailIsApart(n: nat, leader: nat, sample: nat, rank: nat, k: nat,
                          leader': nat, sample': nat, rank': nat, k': nat)
    requires Mail(n, leader, sample, rank, k) && Mail(n, leader', sample', rank', k')
    requires LeaderOffset(n, leader, sample, rank, k) < LeaderOffset(n, leader', sample', rank', k') + SLOT_BYTES
    requires LeaderOffset(n, leader', sample', rank', k') < LeaderOffset(n, leader, sample, rank, k) + SLOT_BYTES
    ensures (leader, sample, rank, k) == (leader', sample', rank', k')
  {
    var s, s' := Sequence(leader, sample), Sequence(leader', sample');
    var i, i' := n * s + rank, n * s' + rank';
    assert i * 3 + k == i' * 3 + k';
    DigitsInjective(i, k, i', k', 3);
    DigitsInjective(s, rank, s', rank', n);
    DigitsInjective(leader, sample, leader', sample', SAMPLES);
  }

  lemma FollowerMailIsApart(leader: nat, sample: nat, k: nat, leader': nat, sample': nat, k': nat)
    requires sample < SAMPLES && sample' < SAMPLES && k < 4 && k' < 4
    requires FollowerOffset(leader, sample, k) < FollowerOffset(leader', sample', k') + SLOT_BYTES
    requires FollowerOffset(leader', sample', k') < FollowerOffset(leader, sample, k) + SLOT_BYTES
    ensures (leader, sample, k) == (leader', sample', k')
  {
    var s, s' := Sequence(leader, sample), Sequence(leader', sample');
    assert s * 5 + k == s' * 5 + k';
    DigitsInjective(s, k, s', k', 5);
    DigitsInjective(leader, sample, leader', sample', SAMPLES);
  }

  lemma MailboxesAreApart(source: nat, vblock: nat, source': nat, vblock': nat)
    requires vblock < VBLOCKS && vblock' < VBLOCKS
    requires MailboxOffset(source, vblock) < MailboxOffset(source', vblock') + SLOT_BYTES
    requires MailboxOffset(source', vblock') < MailboxOffset(source, vblock) + SLOT_BYTES
    ensures (source, vblock) == (source', vblock')
  {
    DigitsInjective(source, vblock, source', vblock', 4096);
  }

  /** Every message lies inside the buffer that was allocated for it, and no index leaves 31 bits on the way. */
  lemma LeaderMailFits(n: nat, leader: nat, sample: nat, rank: nat, k: nat)
    requires Mail(n, leader, sample, rank, k)
    ensures LeaderOffset(n, leader, sample, rank, k) + SLOT_BYTES <= LeaderBytes(n)
    ensures (n * Sequence(leader, sample) + rank) * 3 < 0x8000_0000
  {
    var s := Sequence(leader, sample);
    assert s < SAMPLES * n;
    var i := n * s + rank;
    Scale(s + 1, SAMPLES * n, n);
    assert i < SAMPLES * n * n;
    Scale(SAMPLES * n, SequenceSlots(n), n);
    Scale(n, 8, SAMPLES * n);
  }

  lemma FollowerMailFits(n: nat, leader: nat, sample: nat, k: nat)
    requires 2 <= n <= MAX_RANKS && leader < n && sample < SAMPLES && k < 4
    ensures FollowerOffset(leader, sample, k) + SLOT_BYTES <= FollowerBytes(n)
  {
  }

  lemma MailboxFits(n: nat, source: nat, vblock: nat)
    requires 1 <= n <= MAX_CHANNEL && source < n && vblock < VBLOCKS
    ensures MailboxOffset(source, vblock) + SLOT_BYTES <= MailboxBytes(n)
  {
  }

  /** How much of each buffer is used: behind the last message the leader's has 4096 unused slots for each of its three
      kinds and each rank, the follower's one slot and 4096 for each of its five, and the mailboxes end with theirs. */
  lemma BuffersEndBehindTheirMail(n: nat)
    requires 2 <= n <= 8
    ensures LeaderOffset(n, n - 1, 19, n - 1, 2) + 16 + 4096 * n * 48 == LeaderBytes(n)
    ensures FollowerOffset(n - 1, 19, 3) + 16 + 16 + 4096 * 80 == FollowerBytes(n)
    ensures MailboxOffset(n - 1, 4095) + 16 == MailboxBytes(n)
  {
    assert n == 2 || n == 3 || n == 4 || n == 5 || n == 6 || n == 7 || n == 8;
  }

  // --- Diagnostic slots ---

  predicate Pair(src: nat, dst: nat) {
    src < MAX_RANKS && dst < MAX_RANKS && src != dst
  }

  // The slot that leader and follower save a sample in: the destination is counted without the source.
  function PackSlot(src: nat, dst: nat, sample: nat): nat
    requires src != dst
  {
    (src * 7 + (if dst < src then dst else dst - 1)) * 20 + sample
  }

  // `decode_ptp_slot` with its default layout.
  datatype Decoded = Decoded(src: nat, dst: nat, sample: nat)

  function DecodePtpSlot(slot: nat): Decoded {
    var pair, src, compact := slot / SAMPLES, slot / SAMPLES / COMPACT_DSTS, slot / SAMPLES % COMPACT_DSTS;
    Decoded(src, if compact < src then compact else compact + 1, slot % SAMPLES)
  }

  /** Packing and decoding are inverse between the ordered pairs of eight ranks with twenty samples and the 1120
      diagnostic slots. */
  lemma PackedSlotDecodes(src: nat, dst: nat, sample: nat)
    requires Pair(src, dst) && sample < SAMPLES
    ensures PackSlot(src, dst, sample) < RECORDS
    ensures DecodePtpSlot(PackSlot(src, dst, sample)) == Decoded(src, dst, sample)
    ensures PackSlot(src, dst, sample) * SLOT_BYTES + SLOT_BYTES <= ResultBytes()
  {
  }

  lemma DecodedSlotPacks(slot: nat)
    requires slot < RECORDS
    ensures var d := DecodePtpSlot(slot);
            Pair(d.src, d.dst) && d.sample < SAMPLES && PackSlot(d.src, d.dst, d.sample) == slot
  {
  }

  // --- Message words ---

  type Bits = bv64

  const KIND_MASK: Bits := 240

  // A message word: ids in the bits above the lowest sixteen, and a constant that carries the kind.
  function Message(ids: Bits, code: Bits): Bits {
    (ids << 16) | code
  }

  /** The kind nibble of a message is that of its code, whatever the ids. */
  lemma KindOfMessage(ids: Bits, code: Bits)
    ensures Message(ids, code) & KIND_MASK == code & KIND_MASK
  {
  }

  /** The mask picks the second nibble of a word; ids and code are read back from a message. */
  lemma MessageFields(ids: Bits, code: Bits)
    ensures code & KIND_MASK == ((code >> 4) & 15) << 4
    ensures ids < 0x1_0000_0000_0000 && code < 0x1_0000 ==>
              Message(ids, code) >> 16 == ids && Message(ids, code) & 0xFFFF == code
  {
  }

  // A report carries the follower's latency above its kind.
  function ReportWord(latency: Bits): Bits {
    (latency << 8) | 48
  }

  lemma KindOfReport(latency: Bits)
    ensures ReportWord(latency) & KIND_MASK == 48 == ReportWord(latency) & 0xFF
  {
  }

  // The code that the probe ors into the word of a slot's message.
  function Code(slot: Handshake.Slot): Bits {
    match slot
    case ConnReq => 80
    case ConnResp => 96
    case Sync => 16
    case FollowUp => 368
    case DelayReq => 32
    case DelayResp => 896
    case Report => 48
  }

  // The first word of a slot's message; the payload is its ids, or the latency of a report.
  function FirstWord(slot: Handshake.Slot, payload: Bits): Bits {
    if slot.Report? then ReportWord(payload) else Message(payload, Code(slot))
  }

  /** Masked with 240, the first word of a message shows the kind by which the handshake recognises its slot, whatever
      the payload. No two slots share a kind, and none has that of an empty slot. */
  lemma SlotsShowTheirKind(slot: Handshake.Slot, other: Handshake.Slot, payload: Bits)
    ensures (FirstWord(slot, payload) & KIND_MASK) as int == slot.Kind() != 0
    ensures slot != other ==> slot.Kind() != other.Kind()
    ensures FirstWord(slot, payload) & 15 == 0
  {
    LowNibble(payload, Code(slot));
    hide Message, ReportWord;
    KindOfMessage(payload, Code(slot));
    KindOfReport(payload);
    CodeKind(slot);
  }

  lemma LowNibble(ids: Bits, code: Bits)
    ensures Message(ids, code) & 15 == code & 15 && ReportWord(ids) & 15 == 0
  {
  }

  lemma CodeKind(slot: Handshake.Slot)
    ensures (Code(slot) & KIND_MASK) as int == slot.Kind() && Code(slot) & 15 == 0
  {
    match slot
    case ConnReq => assert (80 as Bits) & KIND_MASK == 80;
    case ConnResp => assert (96 as Bits) & KIND_MASK == 96;
    case Sync => assert (16 as Bits) & KIND_MASK == 16;
    case FollowUp => assert (368 as Bits) & KIND_MASK == 112;
    case DelayReq => assert (32 as Bits) & KIND_MASK == 32;
    case DelayResp => assert (896 as Bits) & KIND_MASK == 128;
    case Report => assert (48 as Bits) & KIND_MASK == 48;
  }

  /** The leader reads the follower's latency back if and only if it fits 56 bits without a sign: a negative latency is
      saved as another number on rank 0. */
  lemma ReportedLatencySurvives(latency: Bits)
    ensures ReportWord(latency) >> 8 == latency <==> latency < 0x0100_0000_0000_0000
  {
  }
}
