/** The tag word of the mailbox. */
module MailboxWords {
  import opened Words

  const KIND := 160
  const RUN_IDS := 0x100_0000

  type RunId = n: nat | n < TWO32

  // High 32 bits: FIFO step. Bits 8..31: run id. Low byte: message kind.
  function Tag(step: Word, runId: RunId): Word {
    step % TWO32 * TWO32 + runId % RUN_IDS * 256 + KIND
  }

  // The probe shifts and ors: the fields are disjoint, so that is multiplying and adding them.
  lemma TagBits(step: bv64, runId: bv64)
    ensures (step << 32) | ((runId & 0xFF_FFFF) << 8) | 160
            == (step & 0xFFFF_FFFF) * 0x1_0000_0000 + (runId & 0xFF_FFFF) * 256 + 160
  {
  }

  lemma TagFields(step: Word, runId: RunId)
    ensures Tag(step, runId) % 256 == 160
    ensures Tag(step, runId) / 256 % 0x100_0000 == runId % 0x100_0000
    ensures Tag(step, runId) / TWO32 == step % TWO32
    ensures Tag(step, runId) != 0
  {
  }
}
