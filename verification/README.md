# Verification of kafka-tb

kafka-tb consumes money commands from Kafka, applies them to TigerBeetle and
publishes results, dead letters and change events back to Kafka. This project
models the parts of it that carry its promises and proves them with Dafny 4.11:

    dafny verify dfyconfig.toml

What is promised, and where it is proved:

| promise | file |
|---|---|
| Amounts: the 64-bit fast paths are indistinguishable from the 128-bit reference, and text round-trips. | `Amount.dfy` |
| Payload depth: the byte scanner measures the true nesting of a JSON text. | `JsonDepth.dfy` |
| Offsets: only a finished prefix is ever offered for commit, and forgetting committed records changes no answer. | `Offsets.dfy`, `History.dfy` |
| Sink: a record is published exactly if it has an outcome, and what is published tells it; a pass finishes exactly the acknowledged prefix; retries never overtake and end only for a reason; a batch rewinds exactly what it left unfinished. | `Sink.dfy` |
| Consumer group: no record below a committed offset is ever without its outcome, every publication of it acknowledged, in any run. | `Group.dfy`, `SinkRuns.dfy` |
| Change data capture: no restart skips an event, in any run; recovery is exact, and exactly what can make it fall behind. | `Cdc.dfy`, `CdcExact.dfy`, `CdcJob.dfy` |
| Publication accounting: every failure reaches a Wait or a Flush. | `Emitter.dfy` |
| Batches: commands come out of the decoder closed, chains stay whole and apart, outcome windows tile the reply. | `Decode.dfy`, `Send.dfy` |
| Packing: one operation per batch, queue order kept, nothing sent or answered twice. | `Packing.dfy` |
| Shutdown: every command answered at most once, no applied command reported as closed, and shutdown ends. | `Shutdown.dfy`, `BatcherRuns.dfy` |

`Extremes.dfy` holds the least and greatest element of a finite set of integers,
`Options.dfy` the value that may be absent.

## How it is modelled

Code that changes state in place is a class or a method with loops
(`OffsetTracker.Offsets`, `Sink.Sink`, `Emit.Emitter`, `Packing.Worker`,
`CdcJob.Output`, `CdcJob.Run`, the amount loops, the result mapping). Each of
these methods is proved against functions on values, and the lemmas are about
those functions.

What this process does not control is an environment parameter, and every
contract holds for all of its values: `Sink.Turn` and `Sink.World` (answers,
acknowledgements, deadlines, cancellation, panics), `CdcJob.Weather` and
`CdcJob.Delivery` (which records of a produce call land, where, in which
order, and which acknowledgements are lost), `Packing.Worker.world` (how each
TigerBeetle call ends), `Packing.Input` (what the loop's select picks).

Concurrency is a step system: `ConsumerGroup`, `Cdc`, `Emit` and `Shutdown`
each have a `State`, a `Step`, an `Enabled` predicate and an `Apply` function.
A theorem about runs quantifies over every sequence of states and enabled
steps from the initial state. The code is tied to these machines: the methods
of `CdcJob` carry the run of `Cdc` that they perform, those of `SinkRuns` the
run of `ConsumerGroup`, and those of `BatcherRuns` the run of `Shutdown`, so
what is proved of runs holds of the code. The runs of `SinkRuns` invent
nothing: what they publish is what the code hands to the broker
(`Sink.handed`), and what is acknowledged in them is exactly what the
environment acknowledges (`Sink.Turn.ack`), so a sink that marked a record
without waiting, or handed nothing off, would have no such run.
`ConsumerGroup.StepsRunTheTracker` connects the group's steps to the tracker's
own operations.

Integers are unbounded except where width matters: amounts are `uint64` and
`uint128`, with every product and sum proved free of wrap-around.

## Where the code, its comments and these claims part

- Recovery (`internal/cdc/cursor.go:30-37`) takes the highest checkpoint among
  the partition tails. Tails need not be the maxima of their partitions: after
  a lost acknowledgement of a closing record the same window is republished,
  and its later records claim a lower checkpoint. The proofs rely only on every
  claim being true, never on tails being maxima.
- `MarkCommitted` takes any offset, and deletes finished records. A mark that
  lowers the watermark can make that show, with work in progress and on a
  drained partition alike: `History.LoweringUncoversDeletedRecord` gives a
  sequence of operations for each, and `History.PruningShowsExactly` says, for
  every sequence of operations, exactly when `Commitable` differs. `Pending`
  never does (`History.PendingIsUnmoved`), and in runs of the code, whose marks
  end commits that began with `Commitable`, nothing does
  (`History.PruningIsInvisible`).
- After stop closes, the applied commands are in queue order but need not be a
  prefix of the queue: `Packing.Overtaken` runs the worker into such a state,
  and `Packing.PrefixExactly` gives the exact condition.
- Recovery can fall behind a completed window: a record landing late, somebody
  else's record, or a deleted partition may take away the last tail that
  claims it. `CdcExact.FallsBehindExactly` says exactly when; nothing is
  skipped even then.
- `internal/cdc/message.go:59` refers to a file publisher.go, which the
  repository does not hold; it is not part of this model.

## Model

| member | source | states |
|---|---|---|
| Amount.ParseAmount | internal/model/amount.go:51-72 | on every string and scale, value or rejection is that of the reference arithmetic |
| Amount.ParseMeaning | internal/model/amount.go:34-88 | a string is accepted exactly when it spells digits, at most `scale` decimals and a value of at most 2^128-1, and is then worth exactly its decimal value |
| Amount.RejectionMeaning | internal/model/amount.go:51-88 | each reason for a rejection is given exactly when it is the first that holds: scale, emptiness, a part missing at the dot, a character that is neither digit nor first dot, too many decimals, too great a value |
| Amount.BigReadsScaled | internal/model/amount.go:74-88 | concatenating integer part, fraction and padding zeros reads as integer part times 10^scale plus the scaled fraction |
| Amount.ParseUint64 | internal/model/amount.go:90-123 | the fast path succeeds exactly when the scaled value is at most 2^64-1, and then computes it, with no intermediate wrap-around |
| Amount.AtoiUint64 | internal/model/amount.go:125-138 | succeeds exactly when the digits' value fits in 64 bits, whatever the leading zeros |
| Amount.MulChecked | internal/model/amount.go:98-123 | the division guard lets through exactly the products that fit in 64 bits |
| Amount.IsDigits | internal/model/amount.go:200-207 | true exactly for non-empty strings of ASCII digits |
| Amount.InitPow10U64 | internal/model/amount.go:18-32 | the table holds the exact powers of ten up to 10^18, none wrapped |
| Amount.FormatAmount | internal/model/amount.go:140-161 | both paths print the reference text |
| Amount.FormatUint64 | internal/model/amount.go:174-198 | the fast path prints the reference text and never outgrows its 38-byte buffer |
| Amount.AppendFraction | internal/model/amount.go:174-198 | counting digits and appending zeros pads the remainder to exactly `scale` digits |
| Amount.ParseOfFormat | internal/model/amount.go:51-172 | parsing the printed form of any 128-bit value gives the value back, at every scale |
| Amount.FormatOfParse | internal/model/amount.go:51-172 | printing the parse of an accepted string gives its canonical form with exactly `scale` decimals |
| Amount.EqualAmountsEqualCanonical | internal/model/amount.go:51-172 | two accepted strings are the same amount exactly when their canonical forms are the same text |
| JsonDepth.CheckDepth | internal/codec/jsonc/decoder.go:268-294 | a valid JSON text passes exactly when its nesting depth is at most the limit; any payload passes exactly when its peak is |
| JsonDepth.PeakIsDepth | internal/codec/jsonc/decoder.go:268-294 | on every valid JSON text, strings and escapes included, the scanner's peak is the nesting depth of the value |
| JsonDepth.ScanJson | internal/codec/jsonc/decoder.go:273-292 | scanning a value returns to the depth it began at, outside strings, having peaked at its depth |
| OffsetTracker.Offsets.Track | internal/sink/offsets.go:59-89 | registers the record as in progress, reviving a forgotten partition with clean state |
| OffsetTracker.Offsets.Done | internal/sink/offsets.go:91-106 | moves a tracked record to finished; anything else, tombstones included, is left alone |
| OffsetTracker.Offsets.Commitable | internal/sink/offsets.go:108-143 | for each partition, and for no other, where its finished prefix ends, if that is new and the record before it is known to be finished, with that record's epoch |
| OffsetTracker.Offsets.Pending | internal/sink/offsets.go:145-175 | for each live partition with unfinished records, and for no other, the least unfinished offset, with the epoch of the record before it whenever that is still there, and -1 otherwise |
| OffsetTracker.CommitableSays | internal/sink/offsets.go:108-143 | what is commitable is the end of each finished prefix that is new and whose last record is known, with that record's epoch |
| OffsetTracker.PendingSays | internal/sink/offsets.go:145-175 | what is pending is the first unfinished record of each live partition, with its predecessor's epoch while it is known |
| OffsetTracker.Offsets.MarkCommitted | internal/sink/offsets.go:177-197 | moves the watermarks and deletes exactly the finished records below them |
| OffsetTracker.Offsets.Forget | internal/sink/offsets.go:199-213 | leaves a tombstone |
| OffsetTracker.TombstoneIsMissing | internal/sink/offsets.go:59-213 | under every operation a tombstone behaves as a missing partition does, and both give the same answers |
| OffsetTracker.MinOffset | internal/sink/offsets.go:257-265 | the least key, 0 for an empty map |
| OffsetTracker.MaxOffset | internal/sink/offsets.go:267-275 | the greatest key, 0 for an empty map |
| History.PruningIsInvisible | internal/sink/offsets.go:108-197 | in every run of the code, whatever happens while a commit is under way, the pruning tracker and one that deletes nothing have the same Commitable and the same Pending offsets, epochs equal or -1 |
| History.PendingIsUnmoved | internal/sink/offsets.go:145-197 | after every sequence of operations, marks of any kind included, the two have the same Pending offsets, epochs equal or -1 |
| History.PruningShowsExactly | internal/sink/offsets.go:108-197 | after every sequence of operations the two answer Commitable alike for a partition exactly when no uncommitted watermark has lost the record before it |
| History.ForwardMarksAgree | internal/sink/offsets.go:108-197 | after every sequence in which no mark lowers a watermark the two have the same Commitable |
| History.MarkKeepsAgreement | internal/sink/offsets.go:177-197 | a mark at any offset leaves two agreeing partitions alike exactly when, with work in progress, it is not below the first unfinished offset or the record before that is still there; drained, when it is past the last finished record or that is still there |
| History.LoweringUncoversDeletedRecord | internal/sink/offsets.go:177-197 | two sequences of operations, one leaving work in progress and one drained, after which a lowering mark makes the trackers differ |
| History.CommitMarksForward | internal/sink/sink.go:707-763 | a mark of what Commitable answered lowers no watermark, whatever was tracked, finished or forgotten in between |
| History.CodeRunWellFormed | internal/sink/offsets.go:59-207 | in every tracker the code can have, watermarks are at least -1 and offsets not negative |
| History.CodeMarkIsForward | internal/sink/sink.go:707-763 | in every run of the code no mark lowers a watermark |
| History.NothingUnfinishedBelow | internal/sink/offsets.go:108-143 | every tracked record below a commitable offset is finished, gaps or not, and the offset is above the last mark |
| History.CommitableIsLongestPrefix | internal/sink/offsets.go:108-143 | on contiguous offsets Commitable is exactly the longest finished prefix not yet committed |
| Sink.Sink.Pass | internal/sink/sink.go:337-431 | marks finished exactly the leading records whose publications were all acknowledged; hands off, for exactly the longest prefix of records with an outcome, what tells each one's outcome; an error belongs to the first unfinished record |
| Sink.Sink.Prepare | internal/sink/sink.go:356-398 | submits in order and stops at the first stop condition or refusal |
| Sink.Sink.Publish | internal/sink/sink.go:398-425 | hands off exactly the publications of the longest prefix that has any, in order; the failure reported is that of the next record |
| Sink.Sink.Confirm | internal/sink/sink.go:433-475 | marks exactly the longest acknowledged prefix and reports the failure of the record after it |
| Sink.Sink.AwaitAll | internal/sink/sink.go:442-471 | the first publication not acknowledged decides how the wait ends |
| Sink.Sink.Collect | internal/sink/sink.go:412-425 | a record reaches publication exactly when it was awaited, was not refused and did not come back failed; what it is given then tells its outcome, and the error otherwise is its own |
| Sink.Sink.Finish | internal/sink/sink.go:637-705 | the loop over outcomes hands off results and an entry for each rejected event, or a poison entry; a panic keeps what was handed off and adds a poison entry |
| Sink.FinishTells | internal/sink/sink.go:637-705 | a record is published if and only if it is neither refused nor failed, and its publications tell its outcome: results first, then rejected events in order, cut where a panic came, and a poison entry only for poison or a panic |
| Sink.HandedTells | internal/sink/sink.go:398-425 | what a pass hands off is, record by record, what tells each record's outcome |
| Sink.RejectsExactly | internal/sink/sink.go:684-693 | one DLQ entry for each rejected event, in event order, and none for the others |
| Sink.PublicationsAboutRecord | internal/sink/sink.go:618-705 | a record that reaches publication always has something to publish, and only about itself, even after a panic |
| Sink.HandedCovers | internal/sink/sink.go:398-425 | each published record has a publication handed off and nothing else has |
| Sink.HandedInOffsetOrder | internal/sink/sink.go:398-425 | publications are handed off in offset order, poison records in their place |
| Sink.SubmissionEnds | internal/sink/sink.go:375-425 | a record that was not submitted neither publishes nor fails the pass |
| Sink.Sink.RunPartition | internal/sink/sink.go:279-325 | always returns; each pass starts where the last stopped finishing; exactly the finished records are marked; what is handed off is what the passes hand off; true means all are finished, and false that it was cancelled, that the clock reached the deadline or would with one more pause, or that a pass neither moved nor failed, and that none of these was so before any pass it made |
| Sink.TriesUntilDeadline | internal/sink/sink.go:313-324 | a run that nobody cancels and whose passes fail keeps trying until the clock runs out |
| Sink.TriesExactly | internal/sink/sink.go:313-324 | a record that keeps failing is tried exactly as often as retry pauses fit before the deadline |
| Sink.Sink.RunPass | internal/sink/sink.go:289-325 | one pass extends the run by the records it finished and hands off what its publishing prefix calls for; its error is that of the first record it did not finish |
| Sink.FinishedBefore | internal/sink/sink.go:289-325 | every record a run has moved past was driven to a final outcome with every publication acknowledged |
| Sink.NoOvertaking | internal/sink/sink.go:289-398 | a record is submitted only when every earlier one of its partition is finished, or was submitted or decided as poison in the same pass |
| Sink.Sink.AbandonBatch | internal/sink/sink.go:526-548 | rewinds exactly the partitions with an unfinished record, each to its first one, and leaves nothing pending |
| Sink.Sink.ProcessBatch | internal/sink/sink.go:202-258 | every record tracked, each partition driven by its own run, which stops only for a reason, exactly the finished records marked; unless cancelled, what is left is rewound, and the next batch starts with nothing pending if this one did |
| Sink.NothingLeft | internal/sink/sink.go:210-258 | a batch all of whose runs finished leaves nothing pending |
| Sink.RewindsToFirstUnfinished | internal/sink/sink.go:249-258 | a partition of the batch is rewound exactly if its run left a record unfinished, and then to the first one it left |
| Sink.RewindsNothingElse | internal/sink/sink.go:249-258 | a partition the poll held nothing of is not rewound |
| Sink.Sink.Commit | internal/sink/sink.go:707-763 | sends what is commitable only after a successful flush, and marks it only if every partition succeeded |
| Sink.GroupByPartition | internal/sink/sink.go:260-277 | every record is in its partition's only group, in arrival order |
| Sink.ArrivalOrder | internal/sink/sink.go:260-277 | a partition's group is all of its records in the order they arrived |
| Sink.TrackedSpan | internal/sink/offsets.go:59-89 | the span kept of a partition runs from the least offset tracked to the greatest |
| ConsumerGroup.NoRecordLost | internal/sink/sink.go:210-475 | in every run, every record below the broker's committed offset, or below any offset a commit is about to take, was handed off with a final outcome and every publication of that hand-off was acknowledged |
| ConsumerGroup.FinalIsDelivered | internal/sink/sink.go:618-705 | such a record was neither refused nor failed; its results and the DLQ entry of every rejected event, as far as they were handed off before a panic, are in the log and acknowledged, and so is its own DLQ entry if it was poison or its handling panicked |
| ConsumerGroup.HandOffsTell | internal/sink/sink.go:637-705 | in every run, every hand-off is of a record neither refused nor failed, and what is in the log of it tells its outcome, whole and in order |
| ConsumerGroup.PoisonHasCause | internal/sink/sink.go:637-705 | in every run, a record's own DLQ entry is in the log only if the record was handed off as poison or its handling panicked |
| ConsumerGroup.InvKeeps | internal/sink/sink.go:526-784 | every step of polling, publishing, confirming, abandoning, beginning, landing and ending a commit, revoking, reviving and crashing keeps the invariant |
| ConsumerGroup.FlightsKeep | internal/sink/sink.go:707-763 | whatever happens while a commit is under way, it carries only safe offsets and takes no partition back |
| ConsumerGroup.SendingIsSafe | internal/sink/offsets.go:108-143 | a member's commitable offset has only final records below it and is not below what it sent before |
| ConsumerGroup.HeldNeverGoesBack | internal/sink/sink.go:707-784 | the broker's offset of a partition never goes backwards, whoever commits |
| ConsumerGroup.SentNeverGoesBack | internal/sink/sink.go:526-763 | what a member takes for a commit of a partition never goes backwards across rewinds and revivals until it is assigned anew |
| ConsumerGroup.AbandonKeeps | internal/sink/sink.go:526-548 | rewinding a partition to its first unfinished record keeps every skipped record final |
| ConsumerGroup.StepsRunTheTracker | internal/sink/offsets.go:59-207 | every step does to its member's tracker what the tracker's own operations do, and nothing to any other's |
| ConsumerGroup.PendingIsLeft | internal/sink/sink.go:210-258 | in every run, what a member's tracker has pending of a partition is exactly what is left of its batch there |
| ConsumerGroup.SendingIsCommitable | internal/sink/sink.go:726-736 | what a member's commit takes is exactly what its tracker's Commitable hands out |
| SinkRuns.PassOnGroup | internal/sink/sink.go:337-475 | pass is a run of the group in which exactly what the code hands to the broker is published, exactly what the broker acknowledges of it is acknowledged, and each record the code marks is confirmed on those acknowledgements |
| SinkRuns.RunPartitionOnGroup | internal/sink/sink.go:279-325 | runPartition is a run of the group, however often it retries: its publications are what the code hands to the broker, its acknowledgements those the broker gives in each pass, and it ends only where it has to |
| SinkRuns.AckedByExactly | internal/sink/sink.go:433-475 | the acknowledgements of such a run are those of a publication of a published record that the broker acknowledged, each at that publication's place in the log |
| SinkRuns.ProcessBatchOnGroup | internal/sink/sink.go:202-258 | processBatch is a run: the polls, each partition's passes, and the abandonment if there is one; the same publications and acknowledgements, every rewound partition read again from the offset named, and unless cancelled nothing in hand at the end |
| SinkRuns.AbandonBatchOnGroup | internal/sink/sink.go:526-548 | abandonBatch is one step: each rewound partition is read again from the offset named, and no other is moved |
| SinkRuns.CommitOnGroup | internal/sink/sink.go:707-763 | commit is a run: the offsets are taken, the broker accepts some of them, and they are marked only if it accepted all |
| SinkRuns.FollowKeepsInv | internal/sink/sink.go:210-763 | a run the code performs from a state with the invariant ends with it, so what it commits is safe |
| Cdc.NoEventSkipped | internal/cdc/job.go:125-253 | in every run with crashes, lost acks and partial landings, every checkpoint in the topic, every recovered cursor and the running cursor are true: all events up to it have been published |
| Cdc.SafeKeeps | internal/cdc/job.go:211-253 | every step keeps all claims true, those in flight included |
| Cdc.WindowComplete | internal/cdc/job.go:211-228 | when all of a window's events are published the topic is complete up to its last one |
| Cdc.ResumeIsTrue | internal/cdc/cursor.go:22-98 | the highest checkpoint among the tails is a point the topic is complete to |
| CdcExact.RecoveryIsExact | internal/cdc/job.go:182-207 | right after a completed window a fresh Resume returns exactly the job's cursor, whatever earlier attempts left behind or land late, others write and retention deletes, as long as no such step takes away the last tail that claims what was reached |
| CdcExact.CompletedWindowsAreNotReplayed | internal/cdc/cursor.go:69-97 | at every moment of such a run, the job up or down, recovery is behind neither the cursor nor a window whose closing record has landed |
| CdcExact.FallsBehindExactly | internal/cdc/cursor.go:69-97 | in every state, a late landing, a foreign record or a deletion leaves recovery at what was reached or later if and only if it is harmless: another partition's tail claims it, or the landed record does, or the deletion spares a tail that does |
| CdcExact.ResumesFrom | internal/cdc/cursor.go:22-98 | a restart resumes at a checkpoint or later exactly if some partition's tail claims as much |
| CdcExact.HeadsAreHarmless | internal/cdc/cursor.go:100-140 | deleting the head of a partition is always harmless |
| CdcExact.IntrusionKeeps | internal/cdc/cursor.go:100-140 | a harmless late landing, foreign record or deletion keeps recovery exact |
| CdcExact.FullAnswerReaches | internal/cdc/job.go:146-149 | an answer as long as the limit allows reaches every checkpoint an earlier attempt can have claimed |
| CdcJob.Run | internal/cdc/job.go:105-209 | the loop performs a run of the state machine; it takes every turn up to the first cancelled or refused one, each from where the one before left the cursor, which moves by RunTurn's rule and never back; every event up to it is published; it refuses exactly if a turn it reaches is answered out of order |
| CdcJob.RunTurn | internal/cdc/job.go:107-114 | the answer is the events after the cursor, as many as asked for and there; the cursor moves to its last event exactly when it came in order and both steps go through, and nothing else moves it |
| CdcJob.GoodTurnAdvances | internal/cdc/job.go:169-207 | whatever failed or idled before it, a turn that asks, is answered in order and delivers moves the cursor forward, and past every event if it asks for all |
| CdcJob.Publish | internal/cdc/job.go:211-253 | a run of the state machine; succeeds exactly when every record can be encoded and both produce calls deliver, and then returns the window's last event |
| CdcJob.PublishClosing | internal/cdc/job.go:244-252 | the closing record goes out only once the rest is acknowledged |
| CdcJob.EncodeRest | internal/cdc/job.go:229-238 | the first step holds every event but the last, each claiming the window's start |
| CdcJob.Ascending | internal/cdc/job.go:255-279 | finds the first place where strict ascent breaks, if there is one |
| CdcJob.ScanTails | internal/cdc/cursor.go:69-97 | in whatever order partitions deliver, returns the greatest checkpoint among the tails, and nothing exactly when some partition was never heard from |
| CdcJob.Output.Produce | internal/cdc/job.go:32-42 | any landing of a produce call is a run of the state machine; success exactly when every record landed and was acknowledged |
| CdcJob.FollowIsSafe | internal/cdc/job.go:105-253 | a run performed by the code from a safe state ends in a safe state |
| CdcJob.Source.GetChangeEvents | internal/cdc/job.go:18-27 | the answer required of the source: a strictly ascending prefix of what follows the cursor |
| CdcJob.WindowUnique | internal/cdc/job.go:18-27 | source, cursor and length determine the answer |
| Emit.Emitter.Flush | internal/emit/emitter.go:238-264 | fails exactly when a tracked failure is unclaimed, counts them, names the earliest, and resets tracking |
| Emit.Emitter.AddFailure | internal/emit/emitter.go:216-226 | adds the failure under its own publication, last in the order |
| Emit.Emitter.TakeFailure | internal/emit/emitter.go:228-236 | removes that publication's failure and no other |
| Emit.NoFailureUnreported | internal/emit/emitter.go:70-98 | in every interleaving, a failure is still tracked, or was returned by a Wait, or was reported by a Flush |
| Emit.ReportedOnce | internal/emit/emitter.go:238-264 | in every interleaving, what a Flush reports no earlier Flush has reported and no Wait has finished claiming |
| Emit.FlushNamesEarliest | internal/emit/emitter.go:251-261 | the failure named appeared before every other one still unclaimed |
| Emit.FlushFindsAName | internal/emit/emitter.go:251-261 | whenever something is unclaimed the scan of the order finds it |
| Emit.WaitsClearOnlyTheirOwn | internal/emit/emitter.go:228-236 | a Wait, however late, clears at most its own publication's failure |
| Send.BatchChains | internal/tbx/batcher.go:395-413 | a sent batch decomposes into exactly its commands' own chains, and ends in none open |
| Send.ClosingKeepsBoundaries | internal/tbx/batcher.go:399-404 | clearing the last linked flag moves no chain boundary inside the command |
| Decode.DecodeEvents | internal/codec/jsonc/decoder.go:104-127 | accepts exactly a non-empty list within the limit whose events all convert; each id and event is then at its own place, unchanged but that the last is not linked; otherwise names the reason, and the first event refused |
| Decode.Convert | internal/codec/jsonc/decoder.go:116-123 | fills events and ids in place up to the first event refused |
| Decode.ClearLinked | internal/codec/jsonc/decoder.go:248-251 | clears the low flag bit of that event and changes nothing else |
| Decode.DecodeMessage | internal/codec/jsonc/decoder.go:86-102 | one known operation and none of the other's events; every rejection has its reason |
| Decode.DecodeForBatcher | internal/codec/jsonc/decoder.go:104-127 | a decoded command is never refused for its size, and in whatever batch it is sent its events go out unchanged |
| Send.EventsDependOnCommandOnly | internal/tbx/batcher.go:395-404 | in any batch, at any place, the events sent for a command are its own with the last chain closed |
| Send.Assemble | internal/tbx/batcher.go:395-405 | the buffer is the commands' events in order, and each offset is where its command begins |
| Send.SendBatch | internal/tbx/batcher.go:380-446 | every command gets one answer: its own window of the reply, a count mismatch, or ErrClosed; on a reply of the right length the submitter of the k-th event is told the k-th reply, at the event's place and under its id: applied exactly if created or there already, with the rejection's name otherwise |
| Send.MapResults | internal/tbx/outcome.go:32-88 | refuses exactly a wrong length or a window outside the batch; otherwise each outcome has its own index and id and its reply's timestamp, is ok exactly for a created or existing one, and names a rejection |
| Send.EverySubmitterTold | internal/tbx/batcher.go:413-446 | in any batch answered as the reply dictates, each event's outcome is what the reply at its position says |
| Send.WindowFits | internal/tbx/outcome.go:41-44 | the offsets the batcher computes always lie inside the batch |
| Send.WindowsTileReply | internal/tbx/batcher.go:413-419 | put end to end, the commands' outcomes are the positional mapping of the whole reply |
| Send.WrongLengthAnswersNobody | internal/tbx/outcome.go:35-40 | a reply of the wrong length gives every command an error; one of the right length gives every command outcomes |
| Packing.Worker.constructor | internal/tbx/batcher.go:309-316 | an empty batch, nothing armed, nothing seen |
| Packing.Worker.Flush | internal/tbx/batcher.go:323-332 | sends and answers exactly the batch, disarms the timer, leaves it empty |
| Packing.Worker.MakeRoom | internal/tbx/batcher.go:343-352 | flushes exactly when the operation changes or the command does not fit |
| Packing.Worker.OnJob | internal/tbx/batcher.go:342-362 | which batches a command taken off the queue causes to be sent, and which batch it joins |
| Packing.Worker.OnTick | internal/tbx/batcher.go:363-365 | the linger timer sends the whole batch |
| Packing.Worker.OnStop | internal/tbx/batcher.go:336-341 | sends the batch, refuses everything still queued, and leaves |
| Packing.Worker.Refuse | internal/tbx/batcher.go:369-378 | one drained command, answered with ErrClosed |
| Packing.Worker.Run | internal/tbx/batcher.go:309-367 | for every sequence of commands, ticks and signals: the batches sent are exactly where the inputs cut the commands; whatever was received before a tick has been sent; single-operation batches of whole commands within the limit; every command told its own batch's answer once in order, refused, or still in the batch; applied commands in queue order and gap-free while stop is open, the timer armed exactly when the batch is not empty |
| Packing.Worker.Take | internal/tbx/batcher.go:334-366 | one turn of the loop cuts the commands as its input says |
| Packing.CutKeepsAll | internal/tbx/batcher.go:303-308 | cutting neither loses, repeats nor reorders a command |
| Packing.TickCuts | internal/tbx/batcher.go:363-365 | nothing received before a tick is left waiting after it |
| Packing.CutsOnlyHere | internal/tbx/batcher.go:343-365 | a batch ends only where it is full, where the next command is of another operation or does not fit, or at a tick |
| Packing.WrittenInTurn | internal/tbx/batcher.go:413-446 | each command of each batch is told what that batch's answers have at its place |
| Packing.QueueOrder | internal/tbx/batcher.go:303-367 | applied commands are a subsequence of the queue, none more often than queued; a gap-free prefix while stop is open; every command taken is in the batch or answered once, in order |
| Packing.PrefixExactly | internal/tbx/batcher.go:448-480 | the applied commands are a prefix of those sent exactly when no batch is answered after one was given up |
| Packing.Overtaken | internal/tbx/batcher.go:323-341 | a run of the worker, for any two commands of different operations, in which the first is given up, the second applied, and the applied commands are not a prefix of those sent |
| Packing.AppliedIsSubsequence | internal/tbx/batcher.go:323-341 | applied commands keep the order in which they were sent |
| Packing.SubsequenceCounts | internal/tbx/batcher.go:303-308 | a subsequence holds no command more often than the whole |
| Packing.WrittenInOrder | internal/tbx/batcher.go:413-419 | results are written once per sent command, in queue order |
| Shutdown.AnsweredAtMostOnce | internal/tbx/batcher.go:288-291 | in every interleaving neither a command's channel nor its late watcher's is written twice, and a rejected submission's never |
| Shutdown.DirectIsAnswered | internal/tbx/batcher.go:172-193 | a command whose caller holds its channel has been answered when the loop has ended or, without a loop, when Close has settled |
| Shutdown.LateIsToldOnce | internal/tbx/batcher.go:195-232 | a late command's channel has one result exactly when its watcher is done |
| Shutdown.LateIsTold | internal/tbx/batcher.go:200-232 | once finished is closed the watcher can always finish, and an answer already there wins over ErrClosed |
| Shutdown.AppliedIsNeverRefused | internal/tbx/batcher.go:200-232 | a command of a batch TigerBeetle answered is never told ErrClosed, by anyone |
| Shutdown.WritesNeverBlock | internal/tbx/batcher.go:141-144 | whoever has a command to answer finds room in its channel |
| Shutdown.ShutdownCanMove | internal/tbx/batcher.go:255-291 | after stop the loop, and then the settlers, can always move until they are through |
| Shutdown.ShutdownIsBounded | internal/tbx/batcher.go:255-291 | from the moment stop closes, whatever the submitters do, the loop and the settlers make no more moves than a measure of that moment's state |
| Shutdown.NothingLeftMeansFinished | internal/tbx/batcher.go:288-301 | when neither has a move left, finished is closed |
| Shutdown.FineKeeps | internal/tbx/batcher.go:145-309 | every step of submitters, loop, settlers and watchers keeps conservation, the order of shutdown and truthfulness |
| Shutdown.LoopConserved | internal/tbx/batcher.go:309-386 | a move of the loop keeps every command in one place until its channel is written once |
| Shutdown.LoopTruthful | internal/tbx/batcher.go:309-386 | a move of the loop never refuses an applied command |
| Shutdown.SettlerConserved | internal/tbx/batcher.go:274-291 | two settlers at once never answer a command twice and lose none |
| BatcherRuns.JobOnMachine | internal/tbx/batcher.go:342-362 | taking a command is a run of the shutdown machine's loop, with the same batch, queue, stop signal and results on both sides |
| BatcherRuns.TickOnMachine | internal/tbx/batcher.go:363-365 | the linger timer's flush is such a run |
| BatcherRuns.StopOnMachine | internal/tbx/batcher.go:336-341 | the stop branch is such a run and ends the loop with the queue empty |
| BatcherRuns.SendRuns | internal/tbx/batcher.go:323-332 | a batch sent, or given up, is such a run, and tells each command of it what the worker tells it |

## Left out

- The registry, configuration, metrics, logging, the command-line programs and
  the easyjson files: wiring, finite tables or generated code.
- Kafka clients and TigerBeetle are environment; franz-go keeps hand-off order,
  and the broker accepts a commit only from the member it regards as owner.
- Clocks, backoff growth, jitter and log levels: deadlines and cancellation are
  choices of the environment. The backoff period appears only where
  RunPartition's termination needs it.
- `CommitLag` and `InFlight` (internal/sink/offsets.go:215-255): gauges.
- Identifier and duration parsing and `errorName`: thin or cosmetic; a
  rejection's name is carried as a string.
- Amount.ParseAmount: strings of 2^31 bytes and more, where the length would not fit its 32-bit cast.
- Amount.FormatAmount: `%0*s` is left padding with zeros.
- JsonDepth.CheckDepth: negative limits, which configuration refuses, are left unspecified.
- Sink.Sink.Finish: a panic in the metric counter of a blocked record, which would make it poison, is not modelled.
- Sink.Sink.ProcessBatch: the partitions' goroutines run one after the other; their interleavings are steps of ConsumerGroup. A panic that escapes a goroutine counts as its run being cut short there.
- The sink's main loop (internal/sink/sink.go:151-200): polling, the commit
  ticker and the final commit.
- ConsumerGroup.HeldNeverGoesBack: a commit request is accepted while its commit is under way and the partition's owner has not changed since it began, or not at all.
- ConsumerGroup.NoRecordLost: offsets are compared with the group's starting position; records below it are not the group's.
- CdcExact.RecoveryIsExact: assumes that every start recovers from the topic and that answers are as long as a batch size that does not change allows; safety needs neither.
- CdcJob.Run: the source it calls appends only at its end, while the state machine lets events appear anywhere above the last one returned.
- `tailOffsets` (internal/cdc/cursor.go:100-140): listing offsets; the tails are given.
- Send.SendBatch: transfers and accounts are one kind of event; reuse of the assembly buffers is not modelled, each batch starts from an empty one.
- Packing.Worker.Run: `call` repeats an attempt until it is answered or stop is closed; only how it ends is modelled, and a failed attempt that was applied anyway counts as not applied.
- Shutdown.AppliedIsNeverRefused: applied means that TigerBeetle's answer was received; an attempt that failed after being applied relies on idempotent ids instead.
- `Submit` and the size checks of `SubmitAsync` (internal/tbx/batcher.go:146-151, 234-253): one comparison each.
- Close called twice, or concurrently with Start, which its documentation excludes.
