# FabricPerf, modelled and proved in Dafny

FabricPerf times GPU fabric traffic with PTX probes that talk through shared memory, and decodes their traces
offline. This project models its concurrent protocols, its PTX rewriting, its handle exchange, its metric selection
and its trace formats, and proves what they promise. `dafny verify dfyconfig.toml` checks all of it.

| module | models |
|---|---|
| `Mailbox`, `MailboxWords`, `MailboxHistory`, `MailboxRecords` | the lock-free timestamp mailbox of the send and receive hooks, and the rows it leaves for the two analyzers |
| `Handshake`, `HandshakeClocks`, `StaleHandshake`, `ClockOffset` | the two-step PTP handshake (clauses 11.2 and 11.3 of IEEE 1588-2008) between a leader CTA and a follower rank, and its offset arithmetic |
| `GridBarrier`, `CalibrationFlow`, `PtpLayout` | the counter and sense barrier, the control flow of one calibrating thread, and the addresses of all messages |
| `Ptx`, `DispatchRedirect`, `TableRewrite`, `DirectCall`, `SelectedCall` | a small-step semantics of PTX lines, the two rewrites of nccl/prober.py and what runs of the rewritten programs do |
| `ThroughputLog`, `ThroughputClocks`, `ThroughputAnalysis` | the saturating arrival log, its decoder, and the aggregation of decoded launches |
| `HandleExchange` | the exchange of fabric handles through a shared directory |
| `MetricSelection`, `Csv` | PM metric selection and evaluation, and the CSV writer against section 2 of RFC 4180 |
| `PtpAlignment` | derived offsets, residuals and percentiles |
| `RawMetrics`, `RawMetricsField`, `MergedRow` | the raw-metrics field: its parser and printer, the probe-byte merge, what memory.cc prints into it, and what a merged row tells |
| `Words`, `Arithmetic`, `Options`, `Limits` | 64-bit words that wrap, mixed-radix digits, optional values, shared constants |

A protocol is a transition system: a list of actions, one memory access each, in any order. A claim about "every run" or
"every interleaving" is a lemma over all such lists. Code that works by assignment is a method proved against a
function, and the promises are lemmas about that function.

Assumptions, all stated in the models:

- Memory is sequentially consistent, and 16-byte v2 accesses are atomic.
- Each mailbox slot has one writer thread per source and virtual block. Grids and blocks are one-dimensional. Launches
  on one rank are sequential.
- The generated readers return 64-bit map fields as signed integers and 32-bit ones as unsigned, as latency.py ("qII")
  and ptp_alignment.py ("qq") unpack them.
- Source ranks are below 32767. Names that the table rewrite makes up do not occur in the PTX it is given.

What the proofs found about the code:

- A clear that lands between the two stores of a send does not always give a flagged or missing row: such a send's row is
  unflagged exactly if its load overlapped the next send, with a nonzero time and at least two missed polls
  (`Mailbox.HurtRowsAreFlaggedUnlessOverlapped`; a run that does it is `Mailbox.UnpacedClearCanLookValid`). With paced
  sends it never is (`Mailbox.PacedRowsAreExact`).
- mailbox_debug.py counts a step mismatch on sound rows exactly for steps that do not fit a signed 32-bit word, 2^31
  being the first (`MailboxRecords.SavedTagsAgree`).
- The handshake pairs messages of one launch and sample until some side steps a whole launch beyond the first wait that
  was given up (`Handshake.RoundsPairUntilNextLaunch`). One round more can pair a sample with a later launch
  (`StaleHandshake.LaterLaunchCanPair`).
- The leader's copy of a reported latency is right exactly when it fits 56 bits unsigned, so a negative latency is saved
  wrong on rank 0 (`PtpLayout.ReportedLatencySurvives`).
- A file of CSV rows reads back as those rows if and only if no field holds a NUL, where the writer cuts it
  (`Csv.FilesReadBackExactly`).
- The throughput header keeps the arrival count modulo 2^32 (`ThroughputLog.ExactBelowTwoTo32`).
- Merging probe bytes twice differs from merging once exactly when the field has an entry with empty name and value
  (`RawMetrics.MergingARowTwice`).
- Where blocks differ in their number of warps, workgroup ids clash exactly if the ranges of later streams of two blocks
  overlap: three warps before two clash, two before three do not (`ThroughputAnalysis.IdsClashExactly`).

## Model

| member | source | states |
|---|---|---|
| `Mailbox.UnflaggedRowsCarryMatchedOrNextTime` | latency.probe:455-505 | In every interleaving an unflagged row carries the time of the send whose tag matched, or of the next send if that one was between its stores; never an older one |
| `Mailbox.RowsOfOneReaderAdvance` | latency.probe:455-505 | Each receiver thread consumes sends in order and none twice, whatever the other threads do |
| `Mailbox.PacedRowsAreExact` | latency.probe:561-569 | If no send starts before the previous message is cleared, unflagged rows are exact, and a send that had a clear between its stores only yields flagged rows |
| `Mailbox.HurtRowsAreFlaggedUnlessOverlapped` | latency.probe:467-497 | In every run a row that matched a send with a clear between its stores is flagged if and only if its load did not overlap the next send, or missed at most one poll, or the next send's time is zero |
| `Mailbox.UnpacedClearCanLookValid` | latency.probe:491-492 | So the claim that such a row is always flagged fails: a run of three sends with an unflagged one |
| `Mailbox.Reachable` | latency.probe:455-569 | The invariants of slot, hits and order, for every reachable state |
| `Mailbox.HitKept` | latency.probe:455-569 | What a matched hook holds is not disturbed by any later step |
| `MailboxHistory.RowsTellTheirHook` | latency.probe:435-505 | Row i is the i-th save: its step, run id and start are those of the reader's last begin before the load that matched, its misses the polls in vain in between, its pair the slot at that load |
| `MailboxHistory.UnflaggedRowsCarryTheLatestStore` | latency.probe:455-569 | An unflagged row carries the time of the latest time store before its load, whatever the interleaving |
| `MailboxHistory.HurtSendsMetAClear` | latency.probe:491-492 | The hurt sends are those with a clear taken between their two stores |
| `MailboxHistory.HooksGiveUpAfterAllPolls` | latency.probe:455-465 | A hook gives up exactly by its 1048576th poll in vain since its begin |
| `MailboxWords.TagFields` | latency.probe:446-454 | The tag word holds kind, run id modulo 2^24 and the low 32 bits of the step, and is never zero |
| `MailboxWords.TagBits` | latency.probe:446-454 | Shifting and or-ing its fields is multiplying and adding them |
| `MailboxRecords.SavedLatencyRowsDecode` | analysis/latency.py:173-217 | latency.py recovers source, virtual block and flag of every saved row, and takes none for unwritten |
| `MailboxRecords.SavedDebugRowsDecode` | analysis/mailbox_debug.py:77-94 | mailbox_debug.py recovers the same and the poll count, and takes no saved row for unwritten |
| `MailboxRecords.ChannelsArePacked` | analysis/latency.py:201-217 | Read as source and virtual block, a channel word is the number they pack, for any word |
| `MailboxRecords.MetaIsPacked` | analysis/mailbox_debug.py:82-89 | So is the low half of a metadata word, and its high half is the poll count |
| `MailboxRecords.UnwrittenIsZeroFill` | analysis/mailbox_debug.py:77-79 | Exactly the zero-filled rows are taken for unwritten |
| `MailboxRecords.SavedTagsAgree` | analysis/mailbox_debug.py:97-102 | No kind mismatch; a step mismatch exactly for steps that do not fit a signed 32-bit word, since the tag is read signed |
| `MailboxRecords.FirstStepReported` | analysis/mailbox_debug.py:194-194 | No sound row with a step below 2^31 is reported, and every one with step 2^31 is |
| `MailboxRecords.RecomputeAgrees` | analysis/mailbox_debug.py:193-199 | The recomputed latency differs exactly when the record is valid and the signed difference leaves 64 bits |
| `MailboxRecords.RunsHaveNoTagMismatch` | analysis/mailbox_debug.py:193-199 | Over every mailbox run the analyzer counts no kind mismatch, and no step mismatch if and only if all steps fit a signed 32-bit word |
| `MailboxRecords.RunRowsDecode` | latency.probe:491-505 | Every row of every run decodes to the hook's poll count, source, block, run id and flag |
| `MailboxRecords.DisjointFieldsAdd` | latency.probe:491-496 | Shifting and or-ing the channel fields is multiplying and adding them |
| `MailboxRecords.UnflaggedLatencyIsTrue` | latency.probe:435-497 | Over every run whose hooks read their ranks' clocks, an unflagged latency between two calibrated ranks differs from the true time between the latest store before its load and the begin of its hook by no more than both ranks' offset errors |
| `ClockOffset.HalveTruncates` | latency.probe:283-289 | Adding the sign bit and shifting is halving toward zero, for every word |
| `ClockOffset.OffsetError` | latency.probe:280-289 | The stored offset misses the clock's lead by half the delay asymmetry, within half a tick, for delays of either sign |
| `ClockOffset.PathLatencyError` | latency.probe:285-289 | The reported latency is the mean of the two delays, truncated, whatever the clock's lead |
| `ClockOffset.LatencyError` | latency.probe:485-487 | A saved mailbox latency is the true difference plus the receiver's clock error minus the sender's |
| `ClockOffset.CalibratedLatencyError` | latency.probe:545-550 | End to end: a latency between two calibrated ranks, the root included, is off by no more than both ranks' offset errors |
| `ClockOffset.BoundedLatencyError` | latency.probe:485-487 | The same bound from any two bounds on stored offsets |
| `Handshake.ApplyDoes` | latency.probe:81-321 | Every access of the two programs, field by field |
| `Handshake.RoundsPairUntilNextLaunch` | latency.probe:81-321 | With no wait below a round given up, and no move twenty rounds or more beyond it, reports use the leader's t1 and t4 of that very launch and sample, and the leader stores the exact negation of what it consumed |
| `Handshake.TimelyStep` | latency.probe:81-321 | One access keeps every slot owned by the round that may hear it |
| `Handshake.SamplesPairWithinLaunch` | latency.probe:81-321 | So within one launch, whatever waits are given up |
| `Handshake.SlotsAreZeroOnReuse` | latency.probe:188-191 | Over any number of launches without a wait given up, all seven slots are zero when the leader reuses a sample |
| `Handshake.InboxIsZeroOnReuse` | latency.probe:317-321 | So they are when the follower does, but for the request that opens the sample |
| `Handshake.CompletedRoundsPair` | latency.probe:81-321 | Over any number of such launches the follower's t1 and t4 are the leader's of that launch and sample, both sides store an offset, and the leader's is the negation |
| `HandshakeClocks.WordsAreReadings` | latency.probe:81-321 | In every run, whatever is given up: which access read each word that is sent or kept |
| `HandshakeClocks.ReportsUseReadingsOfTheirRound` | latency.probe:119-134 | Every timely report is computed from four clock readings of its own round: the leader's at the store of the follow-up and at the load that hears the delay request, the follower's at the load that hears the sync and after the store of its delay request |
| `HandshakeClocks.HeardWasStored` | latency.probe:227-241 | What a side hears was stored before, in the same round, by the other |
| `HandshakeClocks.StoredOffsetsMeasureTheClock` | latency.probe:280-300 | A stored offset misses the follower's lead by half the asymmetry of the two delays between those four accesses, and rounding |
| `HandshakeClocks.CompletedRoundsMeasureTheClock` | latency.probe:280-300 | So over any number of launches without a wait given up, for every round that both sides have finished |
| `HandshakeClocks.WaitsEndAfterAllPolls` | latency.probe:105-115 | A wait is given up exactly by its 1048576th poll in vain |
| `Handshake.PairedStep` | latency.probe:81-321 | Pairing survives a step of either side that hears a message of its own round |
| `Handshake.PatientStep` | latency.probe:81-321 | Rounds stay within one of each other, and a slot is occupied exactly while its message is outstanding |
| `StaleHandshake.LaterLaunchCanPair` | latency.probe:105-115 | One round beyond that condition is enough for a report to use a t1 of a later launch: a run of 21 rounds |
| `GridBarrier.LeavingMeansAllArrived` | latency.probe:348-357 | A CTA that leaves because the sense changed leaves after all CTAs have arrived |
| `GridBarrier.ExactlyOneReleases` | latency.probe:332-346 | Never do two CTAs release; once all have left exactly one has, and the counter is zero |
| `GridBarrier.LaunchesReset` | latency.c:1006-1010 | From zeroed words, any number of completed launches leaves the counter zero and the sense at their number modulo 2^32 |
| `CalibrationFlow.EveryThreadPassesTheSameBarriers` | latency.probe:68-398 | Every thread, whatever its role and time-outs, ends after a bounded number of blocks with 21 bar.sync passed, or none for an unsupported device count; rank 0 never writes offset slot 0 |
| `CalibrationFlow.ThreadZeroArrivesOnce` | latency.probe:328-358 | Each CTA comes to the grid barrier exactly once, by its thread 0 |
| `CalibrationFlow.UnansweredWaitsLast` | latency.probe:105-115 | A wait that nothing answers lasts 1048576 polls and then goes to the end of the sample or of the barrier |
| `CalibrationFlow.StepDecreases` | latency.probe:68-398 | A measure over samples, blocks and remaining polls falls at every block |
| `CalibrationFlow.RunInv` | latency.probe:68-398 | The barriers passed at each block, the offset slots written and the records saved, along every run |
| `CalibrationFlow.RolesAreTaken` | latency.probe:75-196 | Which threads lead and which follow; all others go straight to the end of the sample |
| `PtpLayout.LeaderMailIsApart` | latency.probe:91-95 | No two messages in a leader's buffer share a byte, for 2 to 8 ranks |
| `PtpLayout.FollowerMailIsApart` | latency.probe:204-206 | Nor do two in a follower's buffer |
| `PtpLayout.MailboxesAreApart` | latency.probe:440-445 | Nor two mailboxes |
| `PtpLayout.LeaderMailFits` | latency.c:607-618 | Every leader message lies in the allocated buffer, and its index fits 31 bits |
| `PtpLayout.FollowerMailFits` | latency.c:615-616 | Every follower message does |
| `PtpLayout.MailboxFits` | latency.c:617-619 | Every mailbox does, for every world size that is accepted |
| `PtpLayout.BuffersEndBehindTheirMail` | latency.c:607-619 | How many slots of each buffer lie unused behind its last message |
| `PtpLayout.PackedSlotDecodes` | analysis/ptp_alignment.py:126-141 | The analyzer decodes every diagnostic slot the probes pack, and the slot lies in the result buffer |
| `PtpLayout.DecodedSlotPacks` | latency.probe:304-315 | Every one of the 1120 slots is packed from what it decodes to |
| `PtpLayout.KindOfMessage` | latency.probe:33-48 | The ids in a message word never reach its kind nibble |
| `PtpLayout.MessageFields` | latency.probe:33-48 | The mask picks the second nibble; ids and code are read back from a message word |
| `PtpLayout.SlotsShowTheirKind` | latency.probe:33-48 | The first word of each slot's message, masked, is the kind the handshake recognises it by, and no two slots share one |
| `PtpLayout.ReportedLatencySurvives` | latency.probe:165-165 | The leader recovers a reported latency if and only if it is below 2^56 unsigned |
| `DispatchRedirect.RedirectDirectDispatchToFallback` | nccl/prober.py:1072-1119 | The method computes the rewritten lines and the number of redirects |
| `DispatchRedirect.ScanForBranch` | nccl/prober.py:1092-1118 | The scan finds the first branch of the right shape within its window |
| `DispatchRedirect.ChosenFitsFirst` | nccl/prober.py:1086-1112 | A compare redirects exactly the first branch on its predicate less than 80 lines on, behind an eq compare one with a jump elsewhere directly behind it, and none if there is none |
| `DispatchRedirect.RedirectedLines` | nccl/prober.py:1083-1119 | Such a branch becomes a comment and a branch to the fallback label; all other lines are kept |
| `DispatchRedirect.RedirectsCountFits` | nccl/prober.py:1104-1117 | As many redirects are counted as compares that some branch fits |
| `DispatchRedirect.OutAt` | nccl/prober.py:1098-1117 | Each output line is the input line, or the comment and branch that replace it |
| `DispatchRedirect.FindLifts` | nccl/prober.py:1072-1119 | A jump target is found at the corresponding place of the output |
| `DispatchRedirect.OtherRunsUnchanged` | nccl/prober.py:1072-1119 | A run whose compares see another funcId is the same run of the output, step by step up to comments |
| `DispatchRedirect.RedirectedBranchGoesToFallback` | nccl/prober.py:1098-1117 | Whatever the predicate, a redirected branch ends at the fallback label with registers and calls unchanged |
| `DispatchRedirect.SelectedRunsGoToFallback` | nccl/prober.py:1072-1119 | A run that sees the selected funcId arrives at the fallback label, in both shapes |
| `DispatchRedirect.SelectedRunsWereDirect` | nccl/prober.py:1075-1079 | The same run of the input passes the fallback by |
| `TableRewrite.FindIndirectCallEnd` | nccl/prober.py:992-1004 | The loop finds the brace that closes the call through the register |
| `TableRewrite.BlockEndIsFirst` | nccl/prober.py:992-1042 | A block is found exactly where five address lines are followed by a closed call of what they load, within 32 lines, and ends at the first such brace |
| `TableRewrite.RewriteTableFallbackToDirectCall` | nccl/prober.py:1007-1069 | The loop emits the copied lines and the replaced blocks, and counts them |
| `DirectCall.OutFlattens` | nccl/prober.py:1017-1069 | The emitted program is one list of lines for each input line |
| `DirectCall.Shape` | nccl/prober.py:1019-1068 | Every input line is copied, or lies in exactly one replaced block with its running number |
| `DirectCall.BlocksAreReplaced` | nccl/prober.py:1019-1068 | Every such block is replaced, or lies inside one that starts before |
| `DirectCall.ReplacementsCountBlocks` | nccl/prober.py:1067-1069 | As many replacements are counted as blocks are replaced |
| `DirectCall.FreshFound` | nccl/prober.py:1047-1049 | The two made-up labels of a block are found inside that block, so blocks do not mix |
| `DirectCall.TargetLifts` | nccl/prober.py:1007-1069 | Labels of the input are found at the corresponding place |
| `DirectCall.IndirectCall` | nccl/prober.py:992-1004 | What the scan accepts as a call statement calls the register's value exactly once |
| `DirectCall.BlockCallsEntry` | nccl/prober.py:1020-1042 | The block of the input calls the table's entry for the id |
| `DirectCall.MatchCalls` | nccl/prober.py:1050-1066 | With the selected id the replacement makes the direct call and goes on behind itself |
| `DirectCall.MismatchTraps` | nccl/prober.py:1054-1056 | With any other id it traps without a call |
| `DirectCall.OtherIdTraps` | nccl/prober.py:1054-1056 | So does a run of the whole output that comes to a block with another id |
| `DirectCall.BlockFollows` | nccl/prober.py:1050-1068 | At a block with the selected id both programs make the same call and go on at corresponding places |
| `DirectCall.CopiedStepFollows` | nccl/prober.py:1022-1023 | A copied line does the same in both programs, up to the registers of the replaced blocks |
| `DirectCall.RunsFollow` | nccl/prober.py:1007-1069 | Wherever a run of the input is outside the replaced blocks, the output comes to the corresponding place with the same calls made |
| `SelectedCall.BlocksLookUp` | nccl/prober.py:1020-1023 | If nothing writes the compared register, every block that uses it looks up the id the compare saw |
| `SelectedCall.SelectedRunCallsTableEntry` | nccl/prober.py:1196-1197 | Both rewrites together make a run whose compare sees the selected funcId call exactly the table's entry for the id it saw |
| `SelectedCall.SelectedRunFromTheStart` | nccl/prober.py:1196-1197 | The same from the start of the program |
| `ThroughputLog.Hooks.Init` | throughput.probe:10-14 | The start of a thread's log |
| `ThroughputLog.Hooks.Recv` | throughput.probe:41-77 | The receive hook on registers and cells in place |
| `ThroughputLog.Hooks.Flush` | throughput.probe:87-112 | The flush hook in place |
| `ThroughputLog.RecvStaysInSlice` | throughput.probe:50-73 | A receive stores in its own slice only, whatever group was captured |
| `ThroughputLog.FlushStaysInSlice` | throughput.probe:92-109 | So does a flush |
| `ThroughputLog.SlicesTellArrivals` | throughput.probe:41-112 | In every interleaving of all threads each slice holds the list of its leader's arrivals |
| `ThroughputLog.ThroughputWorkgroupCellRecords` | analysis/throughput.py:176-213 | The decoder's loops, for streams of any length |
| `ThroughputLog.DecodingGivesTheArrivals` | analysis/throughput.py:176-213 | Decoding after the flush gives, workgroup by workgroup, the plain list of arrivals |
| `ThroughputLog.ExactBelowTwoTo32` | throughput.probe:95-95 | The decoded total and deltas are exact if and only if there were fewer than 2^32 arrivals |
| `ThroughputClocks.DeltaIsDifference` | throughput.probe:59-61 | A cell keeps the clock difference modulo 2^32, and exactly where it is smaller |
| `ThroughputClocks.DecodedLaunchesTellTheClocks` | analysis/throughput.py:176-213 | For any interleaving: delta k of a decoded launch is the clock of its leader's k-th receive event less that of its init event, the duration that of its flush event less it, all modulo 2^32, and every leader that received is told |
| `ThroughputAnalysis.ThroughputAggregate.AddLaunch` | analysis/throughput.py:46-72 | One launch added to a summary, field by field |
| `ThroughputAnalysis.MaxOf` | analysis/throughput.py:68-69 | The largest delta of a launch without a duration |
| `ThroughputAnalysis.DurationsAddUp` | analysis/throughput.py:66-69 | The ticks of a summary add up its launches' durations, or last arrivals where no duration is known |
| `ThroughputAnalysis.BinsAreIntervals` | analysis/throughput.py:71-72 | Deltas share a bin exactly if they lie in the same interval of 8000 ns |
| `ThroughputAnalysis.ReadThroughputRoot` | analysis/throughput.py:311-341 | One aggregate object for each key holds exactly that key's launches, and the rows are emitted in order |
| `ThroughputAnalysis.CapturedAndDroppedAreAllArrivals` | analysis/throughput.py:60-65 | Over any launches with known totals, captured and dropped add up to all arrivals |
| `ThroughputAnalysis.LossIsTold` | analysis/throughput.py:60-65 | Dropped are the arrivals beyond the capacity of launches with a known total; the loss is unknown exactly if a launch without one is full |
| `ThroughputAnalysis.SkippedLaunchesAreIdle` | analysis/throughput.py:311-341 | What is skipped tells of no arrival, and what is kept of at least one |
| `ThroughputAnalysis.DecodedLaunchesAreFilled` | analysis/throughput.py:200-212 | Every decoded launch is one of those |
| `ThroughputAnalysis.BinsGroupTheRows` | analysis/throughput.py:71-72 | A bin counts exactly the rows whose index it is |
| `ThroughputAnalysis.BinsSumToCaptured` | analysis/throughput.py:71-72 | The bins together count every captured arrival |
| `ThroughputAnalysis.RowsMatchAggregates` | analysis/throughput.py:311-341 | The emitted rows of a workgroup are the deltas its aggregate was fed |
| `ThroughputAnalysis.IdsAreDistinct` | analysis/throughput.py:131-141 | Workgroup ids of different places differ and stay below four times the warps |
| `ThroughputAnalysis.IdsTile` | analysis/throughput.py:131-141 | Every id below that bound is used |
| `ThroughputAnalysis.IdsClashExactly` | analysis/throughput.py:131-141 | For any warp counts, no two places share an id if and only if, for every two blocks, one has at most one warp or their ranges of later streams do not overlap |
| `ThroughputAnalysis.EvenWarpsNeverClash` | analysis/throughput.py:140-141 | Equal warp counts never clash |
| `ThroughputAnalysis.UnevenWarpsClash` | analysis/throughput.py:140-141 | Three warps before two clash, two before three do not |
| `HandleExchange.PublishedFilesAreWhole` | latency.c:432-464 | In every interleaving of all ranks' writes a published file is the whole handle its rank created |
| `HandleExchange.NoTempIsLeft` | latency.c:432-464 | In every interleaving a temporary file is one that its rank is still writing: none is left by a rank that is done or has failed |
| `HandleExchange.EveryExchangeCanComplete` | latency.c:432-493 | From the empty directory all ranks can publish, and all files then hold the created handles |
| `HandleExchange.PollOnce` | latency.c:509-521 | One poll over all ranks, reading into the tables in place |
| `HandleExchange.PollTells` | latency.c:509-524 | A poll is ready exactly if all files are read in full, and otherwise broken exactly if the first rank that is not ready has a path too long |
| `HandleExchange.PollHandles` | latency.c:496-532 | It succeeds in the first poll that reads everything, and polls at most timeout/10 + 1 times |
| `HandleExchange.SuccessfulTablesAreTheCreatedHandles` | latency.c:486-532 | A rank that succeeds holds every rank's own three handles, so all that succeed hold equal tables |
| `HandleExchange.CompleteDirectoryIsReady` | latency.c:467-483 | Once all ranks have published, a poll that reads the directory as it is succeeds |
| `MetricSelection.State.CreateConfigImage` | memory.cc:883-936 | Nothing changes in one pass; otherwise the greedy choice is kept, the rest marked, and its configuration is in place |
| `MetricSelection.State.KeepSinglePass` | memory.cc:901-919 | The greedy loop |
| `MetricSelection.GreedyIsSinglePass` | memory.cc:912-913 | What is kept needs a single pass |
| `MetricSelection.ChosenNeedOnePass` | memory.cc:883-936 | Metrics that need one pass together are all kept; where they need more, what is kept needs one |
| `MetricSelection.GreedySplits` | memory.cc:912-918 | Every metric is kept or marked, and none both |
| `MetricSelection.GreedyIsMaximal` | memory.cc:901-919 | If adding metrics never lowers the pass count, no single-pass configuration contains the choice and a metric left out |
| `MetricSelection.MarkedDomain` | memory.cc:915-915 | The marked metrics, on top of those marked before |
| `MetricSelection.State.EvaluatePmMetrics` | memory.cc:1134-1233 | Each kept metric ends with its sum or average over the samples that had a value, or with its last error, or all with one common error |
| `MetricSelection.AllTalliedNext` | memory.cc:1199-1217 | One metric of one sample, with all others untouched |
| `MetricSelection.FinishedIsEvaluated` | memory.cc:1220-1232 | Averaging and dropping stale errors gives exactly one of value and error |
| `MetricSelection.ValuesAreMeansOrSums` | memory.cc:1221-1229 | A value is the mean of the samples that had one if the name has .avg, pct_of_peak or throughput in it, and their sum otherwise |
| `MetricSelection.EveryMetricIsAccountedFor` | memory.cc:1288-1308 | After selection and evaluation no requested metric is reported missing, and what is reported is right |
| `RawMetricsField.RawMetricsOfLaunch` | memory.cc:1285-1318 | The printing loop over the requested metrics, and the sampling data behind them |
| `RawMetricsField.PrintedMetricsParse` | memory.cc:1285-1354 | The analyzer parses the field back to each requested metric with what was said of it, in order, and the sampling data |
| `RawMetricsField.SamplingReadsBack` | memory.cc:1310-1354 | The sampling data read back as the numbers of the launch, and exactly a failed launch shows its result |
| `Csv.CsvEscape` | memory.cc:1243-1258 | The escaping loop |
| `Csv.EscapedTells` | memory.cc:1243-1258 | A field is quoted exactly if it has a comma, quote, CR or LF, and then grows by the quotes in it and two |
| `Csv.UpToNulTells` | memory.cc:1356-1363 | A field is written up to its first NUL |
| `Csv.CsvFile.WriteRow` | memory.cc:1356-1363 | The row appended to the file |
| `Csv.ReadRecordBack` | memory.cc:1356-1363 | Whatever text the grammar allows for a list of fields, the reader returns those fields |
| `Csv.WrittenRowsReadBack` | memory.cc:1243-1363 | Any file of written rows reads back as exactly those rows |
| `Csv.FilesReadBackExactly` | memory.cc:1243-1363 | A file reads back as its rows if and only if no field holds a NUL |
| `Csv.ReadRecordIsGrammar` | memory.cc:1243-1258 | What the reader accepts is text that the grammar allows for what it returns |
| `PtpAlignment.DeriveRootRelativeOffsets` | analysis/ptp_alignment.py:285-323 | The derived table: all ordered pairs of ranks with a series, and their differences |
| `PtpAlignment.RootSeries` | analysis/ptp_alignment.py:296-309 | The series by rank, measured or negated inverse |
| `PtpAlignment.DerivedOffsetsClose` | analysis/ptp_alignment.py:326-340 | All closure residuals are zero, for ragged series too, at as many samples as the shortest has |
| `PtpAlignment.DerivedOffsetsAreReciprocal` | analysis/ptp_alignment.py:343-352 | All reciprocal residuals are zero |
| `PtpAlignment.RootOffsetsAreTheMeasured` | analysis/ptp_alignment.py:297-306 | The root's series to a rank is the one measured; where only the other direction was, each entry is minus the entry there |
| `PtpAlignment.PairOffsetsAreDifferences` | analysis/ptp_alignment.py:311-322 | Between two other ranks the series is the difference of the root's, at as many samples as both have |
| `PtpAlignment.DerivingTwiceIsDerivingOnce` | analysis/ptp_alignment.py:285-323 | A derived table is derived to itself |
| `PtpAlignment.PercentileMonotone` | analysis/ptp_alignment.py:81-93 | Percentiles grow with the percentage |
| `PtpAlignment.StaysBetweenNeighbours` | analysis/ptp_alignment.py:87-93 | A percentile lies between its neighbouring sorted values |
| `PtpAlignment.PercentileIsLinear` | analysis/ptp_alignment.py:87-93 | A percentage a fraction beyond the k-th of n - 1 equal steps gives the value that fraction of the way from the k-th sorted value to the next |
| `PtpAlignment.SummaryTells` | analysis/ptp_alignment.py:103-114 | Count, mean, and the extremes and percentiles of the list in ascending order |
| `PtpAlignment.SummaryIsOrdered` | analysis/ptp_alignment.py:96-114 | min <= p50 <= p95 <= p99 <= max, the mean lies between, and max_abs is that of an extreme |
| `RawMetrics.ParseRawMetrics` | analysis/common.py:112-128 | The parsing loop, with the order of first appearance |
| `RawMetrics.FormatRawMetrics` | analysis/common.py:131-144 | The printing loop, for the order the parser gave |
| `RawMetrics.PrintedFieldParses` | analysis/common.py:112-144 | A printed dictionary parses back to itself exactly when it has no entry with empty name and value |
| `RawMetrics.ParsedFieldPrints` | analysis/common.py:112-144 | A canonical field is printed back unchanged |
| `RawMetrics.MergeProbeBytesIntoRow` | analysis/memory.py:96-124 | The merge updates the row in place |
| `RawMetrics.ProbeByteRow.Add` | analysis/memory.py:40-49 | One record added to a launch's totals |
| `MergedRow.AddRecords` | analysis/memory.py:149-154 | The records of a launch added in a loop: their number and the sums of their bytes |
| `MergedRow.DecimalReadsBack` | analysis/common.py:219-226 | A number is printed as a numeral without leading zeros that reads back as it |
| `MergedRow.MergedColumns` | analysis/memory.py:103-113 | Loads and asynchronous copies are what is read, stores what is written, as rates over the duration and as a number; other columns stay |
| `MergedRow.MergedMetrics` | analysis/memory.py:115-123 | Parsed back, the raw metrics show the number of records and the bytes of each kind |
| `RawMetrics.MergeIsIdempotent` | analysis/memory.py:115-123 | Merging twice is merging once if and only if the field has no entry with empty name and value |
| `RawMetrics.MergingARowTwice` | analysis/memory.py:96-124 | The same for the whole row |
| `RawMetrics.MergeKeepsOthers` | analysis/memory.py:115-123 | Every other metric keeps its value and its place among the others |

## Left out

- CUDA driver, CUPTI and MPI calls, virtual memory mapping and symbol writes: foreign. Handles, pass counts, sample values and
  poll results are parameters of the models.
- GPU weak-memory ordering and 16-byte tearing: memory is taken as sequentially consistent and v2 accesses as atomic.
- Cleanup on failure paths of `prepare_buffers_locked`: partial state is kept by design.
- The mutex held between launch hooks in memory.cc, which rests on a calling contract of Neutrino that is not part of this
  model.
- The live table rewrite, which delegates to `cuda_probe`, is not part of this model; `rewrite_table_fallback_to_direct_call`
  is modelled instead.
- `hoist_generated_decls`, the probe builders and the snippet emitters of nccl/prober.py: easy members.
- PTX text: lines are modelled by what the rewrites' patterns read of them. Every other line has an arbitrary fixed effect on
  the registers, may branch to a fixed label, and makes no call that the model records. Memory is not part of that effect.
- DispatchRedirect.OtherRunsUnchanged: assumes that the predicate is not redefined and control does not enter between a
  compare and the branch chosen for it (`Clean`), the condition under which the rewrite means anything.
- DirectCall.RunsFollow: assumes that the call statement of a block has the form the compiler prints, that a block's address
  registers are dead outside it, and that the table's entry for the id is the function called instead (`Sound`).
- SelectedCall.SelectedRunCallsTableEntry: assumes that nothing writes the compared register between the compare and the
  fallback's block, and that the block looks up that register (`FallbackUsesCompared`).
- RawMetricsField.PrintedMetricsParse: assumes metric names without separators that differ from each other and from the
  names of the sampling data, and printed texts without semicolons (`Fit`).
- ThroughputLog.DecodingGivesTheArrivals: assumes one leader for each workgroup, workgroups below four and fewer than 2^64
  events; two groups clamped to slice 3 would overwrite each other.
- The partitioned, metadata and legacy layouts of analysis/throughput.py, which only older traces have.
- Rates, averages per second and the printing of floating-point numbers: `avg_pps`, `peak_bin_pps`, `double_field`.
  `RawMetrics.MergeProbeBytesIntoRow` takes the printed rate as a function.
- PtpAlignment.SummaryIsOrdered: the standard deviation is not modelled, and means and percentiles are over reals.
- Csv.WrittenRowsReadBack: records end in a line feed, as the writer prints them, where RFC 4180 has CRLF, and plain text may
  hold any character but comma, quote, CR and LF.
- HandleExchange.PollHandles: milliseconds are unbounded integers; the source's `int` would overflow for timeouts within
  10 ms of 2^31.
- HandleExchange.ReadHandle: opening and reading a file is one step, since a published file is never written again.
- Guards of the mailbox hooks on rank and virtual block, environment parsing, rank inference, target selection from kernel
  names, command line, build scripts and table printing: easy members.
- The accounting loops of analysis/latency.py and the percentile columns of analysis/mailbox_debug.py: sums over the records
  whose decoding `MailboxRecords` covers.
- `ProbeByteStats.add`: the same dictionary of objects as in `ThroughputAnalysis.ReadThroughputRoot`.
