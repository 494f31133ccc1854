# USBRadioPlus verification model

A Dafny model of the concurrent protocols and long-lived state machines of the USBRadioPlus radio channel driver, and
proofs about every run of them. `dafny verify dfyconfig.toml` checks the whole project.

| part | files |
|---|---|
| newest-audio handoff between callback and controller | `Ring`, `Handoff`, `HandoffTheorems`, `HandoffChannel` |
| bookkeeping shared by several parts | `Wrappers`, `Digits` |
| seqlock snapshots (site cache, loudness meter) | `Seqlock`, `Snapshots`, `SeqlockCells` |
| remote command tickets | `RemoteTickets`, `RemoteTicketTheorems`, `RemoteQueue` |
| comment-preserving configuration editor | `ConfigText`, `ConfigEditor`, `ConfigLaws`, `ConfigRemoveLaws`, `ConfigGlueLaws`, `ConfigDocument` |
| filter-graph compiler | `StageOrder`, `FilterGraph`, `GraphCompiler`, `GraphRuns`, `GraphChains`, `GraphLabels`, `GraphFixed` |
| exact decimal conversion | `FixedPoint`, `ScalarSettings` |
| receive publication, delivery and echo | `Pcm`, `StatusJournal`, `Publisher`, `Delivery`, `DeliveryTheorems`, `Echo`, `Controller` |
| spare-pin ownership and hardware lifecycle | `HardwareSite`, `OutputState`, `OutputTheorems`, `OutputRuns`, `OutputLines`, `HardwareLifecycle`, `LifecycleTheorems`, `HardwareService` |

How things are modelled:

- A concurrent protocol is a program counter per endpoint over sequentially consistent atomic operations; a run is any
  sequence of turns, and the theorems speak of the state after an arbitrary run. Logical positions are unbounded and
  kept beside the stored indexes.
- A device, converter or ring call answers as the argument of the step says, so a theorem about all runs covers every
  pattern of failures. Opening a device drives the byte it is given with PTT deasserted.
- Pin masks are the sets of their pins; `&`, `|` and `& !` are intersection, union and difference.
- Classes hold the fields the source updates in place. Their methods are proved equal to steps of the state machines,
  about which the theorems are proved.
- A filter graph is a list of labelled nodes; evaluation consumes and produces labels and fails on a label that is
  missing or produced twice. Filters are uninterpreted, except that `anull` passes its input on, `asplit` copies it and
  `anullsink` drops it. Settings are reals.

Where code and documentation or expectation differ, the model follows the code and says so:

- `set_value` edits the first matching line of the first matching section, while `explicit_values` keeps the last
  assignment of all of them. `ConfigLaws.SetThenGet` gives the exact condition under which a set can be read back.
- An insertion into a last section without a final newline glues two lines together (`rust/core/src/config_document.rs:264-266`);
  what stood there may come to assign another value or another name. Each law of `ConfigGlueLaws` states for all texts
  exactly when it still holds, and `ConfigGlueLaws.UnfinishedTextInput` is an input on which they fail.
- A new section whose name has blanks around it is written with them, and its header reads as the trimmed name: the key
  goes to another section than the caller named (`ConfigGlueLaws.UntrimmedSectionInput`).
- A completion is claimed after the generation and source checks, so a success may follow a retirement, although a
  retired generation is documented never to report one (`rust/driver/src/remote_base.rs:182`).
  `RemoteTicketTheorems.RetirementAfterChecksMaySucceed` is such a run, and
  `RemoteTicketTheorems.SuccessAfterWithdrawalExactly` states exactly when it can happen.
- `pop` compares indexes it loaded one after the other and does not look at the generation again before it reports an
  empty ring, so a replacement in between can make it return nothing although a value waits
  (`HandoffTheorems.EmptyAnswerMayBeStale`). `HandoffTheorems.PopGivesUpWithReason` says what such an answer means.
- A detached request refused by a full queue is recorded as stopped, not as busy (`RemoteTicketTheorems.FullQueueRecordsStopped`).

## Model

| member | source | states |
|---|---|---|
| `Ring.IndexIsRemainder` | rust/asl3/src/handoff.rs:208-210 | The index of a position is its remainder by the number of slots |
| `Ring.NextIndexOfPosition` | rust/asl3/src/handoff.rs:208-214 | Stepping the stored index keeps it the remainder of the next logical position |
| `Ring.DistanceOfPositions` | rust/asl3/src/handoff.rs:208-218 | The distance of two stored indexes is the distance of the logical positions behind them, as long as these are less than one lap apart |
| `Handoff.SplitExactly` | rust/asl3/src/handoff.rs:66-88 | Which slot counts a handoff accepts |
| `Handoff.InitialInv` | rust/asl3/src/handoff.rs:68-88 | A freshly split handoff with at least two slots satisfies the invariant |
| `Handoff.ProducerStepKeepsInv` | rust/asl3/src/handoff.rs:101-148 | Every atomic operation of `push`, `publish` and `finish_drop` keeps the invariant that ties slots, indexes, claim bit, generation and counters to the history of pushes and pops |
| `Handoff.ConsumerStepKeepsInv` | rust/asl3/src/handoff.rs:157-195 | Every atomic operation of `pop` and `release_claim` keeps the same invariant |
| `HandoffTheorems.CopiedSlotIsExact` | rust/asl3/src/handoff.rs:157-186 | In every interleaving, past the generation recheck the claimed slot holds exactly the value accepted at the consumer's logical position; no uninitialised slot is ever copied |
| `HandoffTheorems.ClaimedSlotIsNotWritten` | rust/asl3/src/handoff.rs:101-129 | From the recheck until the release no producer operation writes the claimed slot or moves the consumer |
| `HandoffTheorems.StaleSnapshotIsConservative` | rust/asl3/src/handoff.rs:101-110 | However stale the consumer index `push` decided on, the slot it writes holds no waiting value |
| `HandoffTheorems.PoppedValuesAreASubsequence` | rust/asl3/src/handoff.rs:101-195 | Over any run the popped values are the pushed values at strictly increasing places |
| `HandoffTheorems.Conservation` | rust/asl3/src/handoff.rs:101-206 | With the producer idle: pushes = pops + discarded + available, at most slots - 1 values wait, and memory holds exactly the latest accepted ones, oldest first |
| `HandoffTheorems.OutcomesAnswerEveryPush` | rust/asl3/src/handoff.rs:101-148 | Exactly the pushes answered `DroppedDuringRead` never reached a slot |
| `HandoffTheorems.DroppedExactlyWhenConsumerInterferes` | rust/asl3/src/handoff.rs:111-129 | The exchange fails exactly when the claim bit is set at that moment or the consumer has moved since the reload |
| `HandoffTheorems.PushAlone` | rust/asl3/src/handoff.rs:101-148 | A push without a concurrent consumer operation ends within nine operations and keeps its value as the newest, unless the ring is full and its oldest value is claimed |
| `HandoffTheorems.PopAlone` | rust/asl3/src/handoff.rs:157-195 | A pop without a concurrent producer operation returns and releases the oldest waiting value in eight operations |
| `HandoffTheorems.PopReturnsAlone` | rust/asl3/src/handoff.rs:157-189 | A pop at any point of its way, also behind a failed recheck, goes on until it has returned and released the oldest waiting value, if the producer stands still outside a replacement |
| `HandoffTheorems.InterferedPopTriesAgain` | rust/asl3/src/handoff.rs:176-179 | A pop whose recheck failed takes back its claim and returns the oldest waiting value after eight further operations |
| `HandoffTheorems.PopGivesUpWithReason` | rust/asl3/src/handoff.rs:158-168 | In every run a pop that ends without a value found a replacement under way, or the ring has been empty at some moment since it began; while the generation stands it gives up exactly on an empty ring |
| `HandoffTheorems.EmptyAnswerMayBeStale` | rust/asl3/src/handoff.rs:163-168 | A run in which a pop returns nothing although a value waits: the ring was replaced between its two index loads |
| `HandoffTheorems.PopIsPaidForByTheProducer` | rust/asl3/src/handoff.rs:158-177 | Each retry of `pop` is paid for by a generation increment of the producer, and every operation lowers a measure unless the producer moves |
| `HandoffChannel.Channel.ProducerTurn` | rust/asl3/src/handoff.rs:101-148 | One atomic operation of `push` on the shared object, equal to the producer step of the state machine |
| `HandoffChannel.Channel.ConsumerTurn` | rust/asl3/src/handoff.rs:157-195 | One atomic operation of `pop` on the shared object, equal to the consumer step |
| `HandoffChannel.Channel.Execute` | rust/asl3/src/handoff.rs:101-195 | Executing any interleaving on the object gives the state of the modelled run |
| `HandoffChannel.Channel.Push` | rust/asl3/src/handoff.rs:101-129 | An uninterrupted push on the object, its outcome and its final state |
| `HandoffChannel.Channel.Pop` | rust/asl3/src/handoff.rs:157-195 | An uninterrupted pop on the object: nothing during a replacement or on an empty ring, else the oldest waiting value, released |
| `Seqlock.ReadsAreCoherent` | rust/driver/src/hardware_site.rs:305-391 | With one writer and any readers interleaved word by word, a successful read returns the words of exactly one publication (or the initial state) that was current at some instant of the read |
| `Seqlock.VersionIsCurrentWhenLoaded` | rust/driver/src/hardware_site.rs:346-391 | The version a read reports was the current one when its sequence number was loaded |
| `Seqlock.ReadsAreBounded` | rust/driver/src/hardware_site.rs:346-391 | A read ends within its three attempts whatever the writer does |
| `Seqlock.ReadAlone` | rust/driver/src/hardware_site.rs:346-391 | With the writer idle the first attempt succeeds |
| `Seqlock.DisturbedReadRecovers` | rust/driver/src/hardware_site.rs:346-391 | A read that the writer has disturbed in its first or second attempt tries again and, with the writer idle from then on, returns the current words; a disturbed third attempt ends busy |
| `Seqlock.GivesUpAfterThreeAttempts` | rust/driver/src/hardware_site.rs:346-391 | An attempt is repeated exactly when a store was under way or completed during it, and the third such attempt is the last |
| `Snapshots.SiteRoundTrip` | rust/driver/src/hardware_site.rs:307-391 | The eighteen words decode to the snapshot that was published, with its timestamp replaced |
| `Snapshots.SiteReadReturnsOnePublish` | rust/driver/src/hardware_site.rs:305-391 | A coherent site read decodes to one published snapshot |
| `SeqlockCells.Cells.Execute` | rust/driver/src/hardware_site.rs:305-391 | Executing any interleaving on the cells gives the state of the modelled run |
| `Snapshots.LoudnessRoundTrip` | rust/core/src/loudness_meter.rs:66-107 | A loudness snapshot survives its words exactly when its measurements are finite or absent |
| `Snapshots.UnmeasuredEpochIsFresh` | rust/core/src/loudness_meter.rs:79-107 | The epoch of a reader that gave up is the current one or the one being stored |
| `SeqlockCells.Cells.Publish` | rust/core/src/loudness_meter.rs:66-77 | A publication word by word stores exactly the given words under the next even sequence number |
| `RemoteTickets.StepKeepsInv` | rust/driver/src/remote_base.rs:82-302 | Every step of submission, queues, worker, poll, revocation and retirement keeps: one owner of each completion claim, one publication, one taking, queues that list each queued request once |
| `RemoteTicketTheorems.CompletedAtMostOnce` | rust/driver/src/remote_base.rs:91-147 | A result slot is filled at most once and what was put in is taken at most once |
| `RemoteTicketTheorems.QueuesAreBounded` | rust/driver/src/remote_base.rs:202-302 | Queues stay within their slots and list each request whose work is queued exactly once |
| `RemoteTicketTheorems.RevocationIsTerminal` | rust/driver/src/remote_base.rs:124-147 | A revoked source never becomes valid again, and a retired generation never accepts again |
| `RemoteTicketTheorems.NoSuccessAfterRevocation` | rust/driver/src/remote_base.rs:183-192 | Revocation or retirement before the worker's checks makes success impossible in every continuation |
| `RemoteTicketTheorems.SuccessAfterWithdrawalExactly` | rust/driver/src/remote_base.rs:182-192 | Once the generation is retired or the source revoked, some continuation delivers a success if and only if one is published already, or the worker has a success in hand behind its last check and can still claim, or has claimed, or the source was revoked in a live generation and only the last generation check is still to come |
| `RemoteTicketTheorems.RetirementAfterChecksMaySucceed` | rust/driver/src/remote_base.rs:182-192 | The run in which this happens: a request passes its three checks, the generation is retired with nothing claimed yet, and the worker still delivers the success |
| `RemoteTicketTheorems.PollAfterPublication` | rust/driver/src/remote_base.rs:136-142 | Once the result is published, any interleaving with three polling operations of the holder ends with the one result taken |
| `RemoteTicketTheorems.UninterruptedPollTakes` | rust/driver/src/remote_base.rs:136-142 | A single whole poll after retirement takes the one result, unless the worker has claimed and not yet published |
| `RemoteTicketTheorems.ClaimedWorkIsPublished` | rust/driver/src/remote_base.rs:91-110 | A claimed completion is published within two of the worker's own steps |
| `RemoteTicketTheorems.AbandonedWorkIsAnswered` | rust/driver/src/remote_base.rs:194-199 | Work that is gone, completed or dropped, has left a result: any interleaving with three polling operations ends with it taken |
| `RemoteTicketTheorems.PollingCompletes` | rust/driver/src/remote_base.rs:136-142 | From any retired state, three polling operations of the holder get the request completed in any interleaving, by whomever |
| `RemoteTicketTheorems.WorkerPublishes` | rust/driver/src/remote_base.rs:91-110 | A completed request is published once the worker, if it holds the claim, has made its own two steps, whatever comes in between |
| `RemoteTicketTheorems.RetiredRequestsBecomeTerminal` | rust/driver/src/remote_base.rs:136-147 | From every reachable retired state every held request reaches exactly one result for a caller that keeps polling, with worker, revocations and other callers interleaved in any way |
| `RemoteTicketTheorems.SlowWorkerDoesNotDelay` | rust/driver/src/remote_base.rs:136-147 | Unless the worker has claimed the completion, five polling operations after retirement take a result although the worker makes no step at all |
| `RemoteTicketTheorems.RevokingEventsExcludeSuccess` | rust/driver/src/remote_base.rs:118-147 | Telling the source invalid, dropping the ticket and retiring the generation, each before the worker's source check, make success impossible in every continuation |
| `RemoteTicketTheorems.LeaseFollowsItsEvents` | rust/driver/src/remote_base.rs:118-147 | What a state report and the drop of a ticket do to the lease |
| `RemoteTicketTheorems.UrgentIsAdmitted` | rust/driver/src/remote_base.rs:248-281 | An urgent command is queued exactly when no other urgent one is, however full the ordinary queue; a detached request never takes that slot |
| `RemoteTicketTheorems.DroppedWorkIsStopped` | rust/driver/src/remote_base.rs:194-199 | Work that is dropped is completed as stopped unless it was completed before |
| `RemoteTicketTheorems.AbandonedIsDropped` | rust/driver/src/remote_base.rs:194-199 | Work abandoned in a queue leaves it and is dropped |
| `RemoteTicketTheorems.DetachedErrorIsRecorded` | rust/driver/src/remote_base.rs:91-110 | The code recorded for a failed detached request, and none for a request with a ticket |
| `RemoteTicketTheorems.FirstErrorIsKept` | rust/driver/src/remote_base.rs:91-110 | The first error of a detached request is never overwritten |
| `RemoteTicketTheorems.FullQueueRecordsStopped` | rust/driver/src/remote_base.rs:248-281 | A detached request refused by a full queue is recorded as stopped, because dropping the refused work completes it |
| `RemoteQueue.CommandPort.Admit` | rust/driver/src/remote_base.rs:229-281 | Submission: every refusal in the order of the checks, and the ticket that is created: urgent exactly if asked for and not detached, with the source as given |
| `RemoteQueue.CommandPort.Queue` | rust/driver/src/remote_base.rs:248-281 | Busy exactly when the queue of that urgency is full; the refused work is given back |
| `RemoteQueue.CommandPort.Next` | rust/driver/src/remote_base.rs:283-293 | Urgent work first, and from each queue the oldest |
| `RemoteQueue.CommandPort.CompleteWork` | rust/driver/src/remote_base.rs:183-199 | What an uninterrupted completion leaves in the slot, in each case of acceptance, source and earlier claim |
| `RemoteQueue.CommandPort.TakeCompletion` | rust/driver/src/remote_base.rs:136-142 | What an uninterrupted poll returns |
| `RemoteQueue.CommandPort.RetireGeneration` | rust/driver/src/remote_base.rs:300-302 | Retirement ends acceptance and nothing else |
| `ConfigText.SplitThenConcat` | rust/core/src/config_document.rs:374-380 | Splitting a text into lines loses nothing |
| `ConfigText.ConcatThenSplit` | rust/core/src/config_document.rs:374-380 | Joined lines split back into the same lines |
| `ConfigText.WrittenLineReadsBack` | rust/core/src/config_document.rs:356-372 | The line written for an assignment reads back as that assignment with its cleaned value |
| `ConfigText.HeaderIgnoresEnding` | rust/core/src/config_document.rs:348-354 | A section header reads the same with and without its line ending |
| `ConfigText.AssignsExactly` | rust/core/src/config_document.rs:356-372 | A line assigns exactly when what stands before its first equals sign is, blanks aside, a valid name |
| `ConfigText.TrimmedExactly` | rust/core/src/config_document.rs:348-371 | Trimming takes away all blanks in front and behind and nothing else |
| `ConfigText.CleanedExactly` | rust/core/src/config_document.rs:366-371 | A value is what stands before the first comment character, blanks aside |
| `ConfigText.HeaderExactly` | rust/core/src/config_document.rs:348-354 | A line is a header exactly when its first visible character opens a bracket that is closed again around something visible |
| `ConfigText.EndingExactly` | rust/core/src/config_document.rs:382-389 | A line ending is the longest of the three |
| `ConfigText.SameLetterExactly` | rust/core/src/config_document.rs:127 | Names are compared without the case of the letters A to Z, and of no other character |
| `ConfigGlueLaws.SetSucceedsExactly` | rust/core/src/config_document.rs:235-284 | A set succeeds exactly with a valid section, name and value and a section that is present or creatable; the first objection is reported |
| `ConfigLaws.SetThenGet` | rust/core/src/config_document.rs:122-135 | After a successful `set_value`, `explicit_values` maps the name to the value exactly when `Settles` holds of the text before, for every text |
| `ConfigLaws.CleanSetSettles` | rust/core/src/config_document.rs:235-285 | `Settles` holds for a trimmed value without comment characters in a newline-terminated text where one header at most opens the section and one line of it at most assigns the name; other sections may use the same name |
| `ConfigGlueLaws.SetKeepsOtherValues` | rust/core/src/config_document.rs:235-285 | A set keeps every other key of the section and every other section, names told apart without case, if and only if it lands on its own line in a section of the text, or the unfinished last line it is glued to is blank, a header, a comment, or one that assigns nothing different with the new text behind it, or it creates a section whose name is trimmed or whose trimmed name means one that had this value anyway |
| `ConfigGlueLaws.CreationWritesTrimmedSection` | rust/core/src/config_document.rs:269-284 | Creating a section under an untrimmed name writes the key into the section of the trimmed name; every other key of every section is kept |
| `ConfigGlueLaws.UntrimmedSectionInput` | rust/core/src/config_document.rs:269-284 | Setting x in a section called ` local ` of an empty text gives x to `local`, a section nobody set |
| `ConfigGlueLaws.OtherSpellingsFollowLaterLines` | rust/core/src/config_document.rs:235-285 | Under another spelling of the name a set leaves what lines behind the edit assign in the section, and nothing else |
| `ConfigGlueLaws.GluedInsertionChangesAnotherName` | rust/core/src/config_document.rs:264-266 | A glued insertion without that condition changes a name that nobody set: the one the last line assigns, or the one that the last line and the inserted key make up together |
| `ConfigGlueLaws.UnfinishedTextInput` | rust/core/src/config_document.rs:264-266 | Setting x behind an unfinished `foo` writes `foox = 1` |
| `ConfigGlueLaws.SetKeepsOtherLines` | rust/core/src/config_document.rs:235-285 | Every line but the edited one is kept character for character, a created section follows the former text behind a blank line, if and only if the edit lands on its own line |
| `ConfigRemoveLaws.RemoveThenGet` | rust/core/src/config_document.rs:288-307 | `remove_value` answers true exactly when the section assigns the name in some spelling; it takes out exactly that line, keeps every other value, and leaves under the name what later lines assign |
| `ConfigGlueLaws.SetThenRemoveRestores` | rust/core/src/config_document.rs:239-307 | Removing a key that a set inserted restores the text character for character, even with repeated sections, if and only if the key was inserted on its own line |
| `ConfigGlueLaws.SetTwiceIsSetOnce` | rust/core/src/config_document.rs:235-285 | The last of two sets of a key wins and leaves no trace of the first if and only if the first landed on its own line, in a section that was there or whose name is trimmed |
| `ConfigDocument.Document.ReadValues` | rust/core/src/config_document.rs:122-135 | The reading loop computes the assignments of the section, later ones replacing earlier ones |
| `ConfigDocument.Document.SetValue` | rust/core/src/config_document.rs:235-285 | The editing loop performs the edit of `SetText`, or refuses and leaves the text alone |
| `ConfigDocument.Document.RemoveValue` | rust/core/src/config_document.rs:288-307 | The removing loop performs the edit of `RemoveText`, or refuses and leaves the text alone |
| `StageOrder.ParseOrder` | rust/core/src/stage_order.rs:101-120 | The parsing loops compute `Parse`, the first error in source order included |
| `StageOrder.ParseAcceptsExactly` | rust/core/src/stage_order.rs:101-120 | A text is accepted as given stages exactly when it is short enough, its tokens name these stages, none comes twice and every enabled stage is among them |
| `StageOrder.TokenNamesStage` | rust/core/src/stage_order.rs:31-48 | A token names a stage exactly when, blanks aside, it is its name in any mixture of cases |
| `StageOrder.PrintThenParse` | rust/core/src/stage_order.rs:22-48 | Every usable order is read back from its own names, because six names always fit the length limit |
| `StageOrder.RequireEnabledExact` | rust/core/src/stage_order.rs:128-135 | The check succeeds exactly when every enabled stage is in the order, and names a missing one otherwise |
| `StageOrder.ValidatedOrderAppliesEachOnce` | rust/core/src/processing_profile.rs:481-519 | The chain validates exactly when every enabled stage is applied exactly once and no other stage at all |
| `FilterGraph.WellWiredIsLinear` | rust/core/src/ffmpeg_graph.rs:181-281 | In a graph that computes a signal each label is produced once and consumed once, `in` is only consumed and `out` only produced |
| `FilterGraph.ConsumedAfterProduced` | rust/core/src/ffmpeg_graph.rs:181-281 | A node consumes only labels that earlier nodes produced |
| `GraphLabels.TextsTellLabelsApart` | rust/core/src/ffmpeg_graph.rs:85-127 | No two labels are written alike, so wiring by text is wiring by label |
| `GraphRuns.SidechainRuns` | rust/core/src/ffmpeg_graph.rs:513-541 | The emitted sidechain nodes combine the signal with the filtered copy of itself |
| `GraphRuns.ThreeBandRuns` | rust/core/src/ffmpeg_graph.rs:543-584 | The emitted crossover, three compressors and mixer deliver the three-band effect |
| `GraphRuns.BandpassRuns` | rust/core/src/ffmpeg_graph.rs:586-612 | The emitted band-pass nodes deliver the band in each of the four cases of open edges |
| `GraphChains.StageDelivers` | rust/core/src/ffmpeg_graph.rs:284-428 | The nodes of each stage, run from any state with fresh labels, deliver that stage's effect |
| `GraphChains.Emitter.AppendStages` | rust/core/src/ffmpeg_graph.rs:219-229 | The stage loop composes exactly the enabled stages, in the configured order |
| `GraphChains.OrderedChain` | rust/core/src/ffmpeg_graph.rs:181-281 | Fails exactly on a three-band stage that is on with its upper crossover at or above half the sample rate; otherwise the graph computes input gain, enabled stages in order, pre-emphasis, output gain, band-pass and peak limiter |
| `GraphChains.DynamicsAtRate` | rust/core/src/ffmpeg_graph.rs:149-164 | Local and link dynamics: no tail, and no input gain for local receive |
| `GraphFixed.ReceiveFilter` | rust/core/src/ffmpeg_graph.rs:84-108 | The receive filter is the band-pass, then the high-pass PL filter if that is chosen |
| `GraphFixed.DecodedToneNotch` | rust/core/src/ffmpeg_graph.rs:111-134 | Four notches in a row for 50 to 300 Hz, refused otherwise |
| `GraphFixed.DcsFilter` | rust/core/src/ffmpeg_graph.rs:140-146 | The compensation gain is applied to normal DCS only |
| `FixedPoint.ScaledIsExact` | rust/core/src/remote_configuration.rs:315-336 | A text is read as n exactly when it is well formed, its exact value times 10^places is n, and n fits 32 bits |
| `FixedPoint.WellFormedExactly` | rust/core/src/remote_configuration.rs:315-323 | Well formed are digits, at least one, alone or with a point and at most as many further digits as there are places |
| `FixedPoint.PrintThenScaled` | rust/core/src/remote_configuration.rs:315-336 | Printing n in fixed point and reading it back gives n |
| `ScalarSettings.Rescale` | rust/driver/src/remote_request.rs:97-108 | An operand is rescaled to v exactly when both denote the same number; nothing is rounded |
| `ScalarSettings.Scalar` | rust/driver/src/remote_request.rs:85-132 | An operand is accepted as v exactly when it denotes v at the setting's scale within 64 bits, range and choices (for DCS: when v's octal digits spell it); otherwise the right rejection code |
| `ScalarSettings.SetsOne` | rust/driver/src/remote_request.rs:85-132 | An operand sets at most one value |
| `ScalarSettings.EntryRoundTrip` | rust/driver/src/remote_request.rs:85-132 | Entering a permitted value at the declared scale sets it |
| `ScalarSettings.DcsEntry` | rust/core/src/station_config.rs:709-727 | A number printed with at least three places parses as a DCS code exactly when its digits are the octal digits of that code |
| `ScalarSettings.DcsEntryRoundTrip` | rust/core/src/station_config.rs:703-727 | A code is set by entering the octal digits it is printed with |
| `Pcm.NormaliseThenQuantise` | rust/asl3/src/pcm.rs:107-127 | A sixteen-bit sample survives the trip through floating point |
| `Pcm.QuantiseIsNearest` | rust/asl3/src/pcm.rs:115-127 | The chosen sample is a nearest one, so quantisation saturates and never wraps |
| `Pcm.QuantiseTies` | rust/asl3/src/pcm.rs:113-127 | Ties go to the even sample, and what is no number becomes silence |
| `Pcm.FrameAssembler.Append` | rust/asl3/src/pcm.rs:147-155 | Appends the whole span or, on overflow, nothing |
| `Pcm.FrameAssembler.Take` | rust/asl3/src/pcm.rs:158-169 | One whole frame from the front, or nothing |
| `Pcm.FrameAssembler.TakePadded` | rust/asl3/src/pcm.rs:176-187 | One frame in any case, completed with silence |
| `StatusJournal.PushRecords` | rust/asl3/src/adapter.rs:172-192 | The ring always holds the latest sixteen events under their sequence numbers |
| `Publisher.ReceivePublisher.ConvertSpan` | rust/asl3/src/adapter.rs:354-387 | In advanced mode the span is quantised as it is; else the loop ends whatever the converter answers, with the result, the answers asked for and the queue of `Convert` |
| `Publisher.ConversionIsItsAnswers` | rust/asl3/src/adapter.rs:361-384 | A conversion that succeeds has used exactly its span and queued everything the answers wrote, in order; one that fails queued what came before the refused answer and reports why that one was refused |
| `Publisher.ReceivePublisher.Publish` | rust/asl3/src/adapter.rs:311-347 | A block completes a frame exactly when 960 samples have come together, never more than one; in advanced mode it always succeeds and frame k holds samples 960k to 960k + 960 of the stream, silent if unkeyed |
| `Publisher.SplitDoesNotMatter` | rust/asl3/src/adapter.rs:314-347 | Publishers that accepted the same samples in different blocks published the same frames, one for each 960 |
| `Delivery.CallDeliversNext` | rust/asl3/src/adapter.rs:740-792 | A call delivers the first thing owed, taking at most one packet |
| `Delivery.TraceIsGroups` | rust/asl3/src/adapter.rs:740-792 | The trace of any run is the concatenation of one group per packet: an edge if the state changed, the events still owed, one voice frame |
| `DeliveryTheorems.EdgesAlternate` | rust/asl3/src/adapter.rs:752-763 | Key and unkey alternate over every run |
| `DeliveryTheorems.KeysCarryTheirTones` | rust/asl3/src/adapter.rs:752-763 | Over any run there is one key action for each packet with which the receiver becomes keyed, carrying that packet's tone, and the latest qualification is that of the packet taken last |
| `DeliveryTheorems.EdgesAlternateAcrossReload` | rust/asl3/src/adapter.rs:906-936 | They alternate across a reload too |
| `DeliveryTheorems.OneVoicePerPacket` | rust/asl3/src/adapter.rs:783-790 | Every packet taken yields exactly its own frame, in order |
| `DeliveryTheorems.VoicesOfRun` | rust/asl3/src/adapter.rs:783-790 | The voice operations of a run are the frames of the packets taken, in order |
| `DeliveryTheorems.StatusesOfRun` | rust/asl3/src/adapter.rs:764-781 | The notices of a run are the history at the delivered numbers, and the event number counts exactly the delivered and the discarded |
| `DeliveryTheorems.DeliveredOnceInOrder` | rust/asl3/src/adapter.rs:764-781 | No event is delivered twice or after a later one |
| `DeliveryTheorems.DeliveredExactly` | rust/asl3/src/adapter.rs:764-781 | An event is delivered exactly when the first packet taken after it was built with at most fifteen newer events |
| `DeliveryTheorems.DroppedPacketsLoseNoCarriedStatus` | rust/asl3/src/adapter.rs:322-344 | Through the handoff, whatever it drops: a fresh controller that takes what the handoff returns sends as notices the history at exactly the numbers that some returned packet still carries, once and in order, and counts the rest as discarded |
| `Controller.ControllerState.Deliver` | rust/asl3/src/adapter.rs:740-792 | The phase loop performs one call of the delivery machine and feeds the echo with each voice frame; it ends |
| `Controller.ControllerState.WriteProgram` | rust/asl3/src/adapter.rs:796-833 | What the ring is given, what is reported and what the echo does, in each case of interface, source and answer |
| `Controller.ControllerState.SetEchoEnabled` | rust/asl3/src/adapter.rs:875-879 | Switches the echo in the 8 kHz mode only |
| `Controller.ControllerState.CaptureReload` | rust/asl3/src/adapter.rs:906-918 | State is captured exactly when nothing is pending or waiting |
| `Controller.ControllerState.RestoreReload` | rust/asl3/src/adapter.rs:924-936 | The captured state replaces this generation's, unless it belongs to the other interface |
| `Echo.ReceiveKeepsWhole` | rust/asl3/src/adapter.rs:542-555 | Recordings are whole frames within the capacity: a frame fits entirely or not at all |
| `Echo.WriteKeepsWhole` | rust/asl3/src/adapter.rs:796-833 | Playback stays on frame boundaries inside the recording, and a playing write submits one frame of it |
| `Echo.HearingTakesEffect` | rust/asl3/src/adapter.rs:542-555 | What hearing a frame does in each state: keyed frames are recorded while they fit, and the first other frame starts the playback of what was recorded |
| `Echo.WriteTakesEffect` | rust/asl3/src/adapter.rs:796-833 | What a write submits and reports: the next frame of the recording while it plays, else the controller's own samples |
| `Echo.SwitchTakesEffect` | rust/asl3/src/adapter.rs:527-540 | Switching on starts an empty recording; a recorder that is off hears and plays nothing |
| `Echo.HeardIsPlayed` | rust/asl3/src/adapter.rs:542-564 | From the receiver to the program: keyed frames, then an unkeyed one, then successful writes play exactly what was heard as far as it fitted |
| `Echo.PlayedIsRecorded` | rust/asl3/src/adapter.rs:527-564 | Over any run of receiving, writing, switching and reloading, failed writes included, what was played since the last switch and what is left are together exactly what was recorded since then, in order |
| `Echo.SwitchStartsAnew` | rust/asl3/src/adapter.rs:872-936 | After a switch nothing of the former recording is played, wherever it comes in a run; a reload of the same interface hands the recorder over |
| `Echo.PlaysToTheEnd` | rust/asl3/src/adapter.rs:557-564 | A recording of n frames is played by n successful writes, and then the recorder is empty and recording |
| `Echo.LegacyEcho.Hear` | rust/asl3/src/adapter.rs:542-555 | Recording and the start of playback in the buffer, which stays zero behind the recording |
| `Echo.LegacyEcho.FinishFrame` | rust/asl3/src/adapter.rs:557-564 | Playback advances by one frame; at the end the buffer is zeroed |
| `Echo.LegacyEcho.Enable` | rust/asl3/src/adapter.rs:527-541 | Switching the echo clears recording and playback |
| `OutputLines.TokenCounter.Take` | rust/driver/src/hardware_site.rs:7-14 | Takes the next token, or 0 once they are used up |
| `HardwareSite.TokensAreNeverReused` | rust/driver/src/hardware_site.rs:7-14 | Two tokens of one counter are equal only once they are used up, and then both are 0, which disables ownership |
| `HardwareSite.BindKeepsOwned` | rust/driver/src/hardware_site.rs:150-171 | A bind moves only pins that change owner: released ones to their safe level, taken ones to their initial level; it keeps the safe levels it was given and takes the next token; a refused bind changes nothing |
| `HardwareSite.BindAcceptedExactly` | rust/driver/src/hardware_site.rs:159-182 | Which bindings are accepted, and the error for every other |
| `HardwareSite.RequestAcceptedExactly` | rust/driver/src/hardware_site.rs:184-205 | Which requests are accepted, and the error for every other |
| `HardwareSite.ApplyKeepsOwned` | rust/driver/src/hardware_site.rs:184-205 | A request sets exactly the claimed pins it names |
| `HardwareSite.ReserveKeepsOwned` | rust/driver/src/hardware_site.rs:207-216 | A reservation succeeds exactly when no site claims one of the pins |
| `HardwareSite.RetireKeepsOwned` | rust/driver/src/hardware_site.rs:233-244 | Retirement moves only claimed pins, and those to their safe level |
| `HardwareSite.RestoreKeepsOwned` | rust/driver/src/hardware_site.rs:250-255 | Safe levels are restored exactly for available, unreserved, unclaimed pins and kept for claimed ones; ownership is kept if and only if each level added is already driven |
| `HardwareSite.OrdinaryKeepsOwned` | rust/driver/src/hardware_site.rs:226-231 | An ordinary command supersedes the safe level of an unclaimed pin |
| `OutputLines.SiteBankState.Bind` | rust/driver/src/hardware_site.rs:150-182 | The method performs the bind, and takes a token only for an acceptable one |
| `OutputLines.SiteBankState.Apply` | rust/driver/src/hardware_site.rs:184-205 | The method performs the request or refuses it |
| `OutputTheorems.SiteBindKeepsPrepared` | rust/driver/src/hardware_host.rs:2984-3012 | No pulse of the old owner survives into the new ownership |
| `OutputTheorems.OrdinaryKeepsPrepared` | rust/driver/src/hardware_host.rs:3025-3095 | Ordinary commands keep the ownership invariant, whatever the device answers |
| `OutputTheorems.SelectChannelKeepsPrepared` | rust/driver/src/hardware_host.rs:3133-3153 | Channel selection reserves its pins before it drives them |
| `OutputTheorems.ServiceRadioKeepsPrepared` | rust/driver/src/hardware_host.rs:3167-3206 | Radio programming drives only reserved pins |
| `OutputTheorems.RetireSiteMakesSafe` | rust/driver/src/hardware_host.rs:2882-2887 | Retirement changes only claimed pins and the encoder pin, and leaves every retained safe level driven |
| `OutputTheorems.PreparePrepares` | rust/driver/src/hardware_host.rs:2933-2982 | Rebuilding for freshly opened devices starts without claims, keeps the safe levels that still apply, and reserves the pins of radio signalling |
| `OutputTheorems.RestoreKeepsInv` | rust/driver/src/hardware_host.rs:3106-3131 | Restoring the state of a stopped service keeps the invariant |
| `OutputTheorems.BindEncoderPrepares` | rust/driver/src/hardware_host.rs:2836-2853 | Taking over the encoder pin reserves it and releases its safe level |
| `OutputTheorems.SetEncoderTakesEffect` | rust/driver/src/hardware_host.rs:2823-2835 | The encoder pin stands high while active or, inverted, while idle |
| `OutputTheorems.SiteBindTakesEffect` | rust/driver/src/hardware_host.rs:2984-3012 | A takeover is the bind of the bank with the pulses on former and new pins ended; any other is counted and moves nothing; it fails only where pulses could not be ended |
| `OutputTheorems.SitePublishTakesEffect` | rust/driver/src/hardware_host.rs:3014-3023 | A request is performed on its bank, or counted |
| `OutputTheorems.OrdinaryRefusedExactly` | rust/driver/src/hardware_host.rs:3025-3095 | When an ordinary command fails, is counted as rejected, or passes |
| `OutputTheorems.SelectChannelRefusedExactly` | rust/driver/src/hardware_host.rs:3133-3153 | When a channel is refused |
| `OutputTheorems.ConfigureRadioTakesEffect` | rust/driver/src/hardware_host.rs:3155-3165 | Radio settings are taken over exactly when no site claims an RTX pin, and are then due for programming |
| `OutputTheorems.ClipPulseTakesEffect` | rust/driver/src/hardware_host.rs:3208-3236 | The clip indicator is a pulse on its pins |
| `OutputTheorems.OrdinaryTakesEffect` | rust/driver/src/hardware_host.rs:3025-3095 | An accepted ordinary command sets, clears or pulses exactly its pin, ends other pulses on it and supersedes its safe level |
| `OutputTheorems.ChannelStandsInverted` | rust/driver/src/hardware_host.rs:3133-3153 | The selected channel stands inverted on the four upper data pins and no other pin moves |
| `OutputTheorems.RadioIsProgrammedOnce` | rust/driver/src/hardware_host.rs:3167-3206 | Programming drives the transmit pin by the transmit state; without a receive frequency only the end of a transmission clears transmit and power; nothing else moves, and it is not repeated while nothing changes |
| `OutputTheorems.ServiceRadioFailsExactly` | rust/driver/src/hardware_host.rs:3167-3206 | When servicing the radio fails; a failure changes nothing |
| `OutputTheorems.RestoredStateIsTheSnapshot` | rust/driver/src/hardware_host.rs:3097-3131 | State saved from one service and restored into the next keeps the levels, safe levels and radio settings of each bank that the station has |
| `OutputTheorems.PrepareKeepsSafeLevels` | rust/driver/src/hardware_host.rs:2933-2982 | Rebuilding ends every claim and keeps exactly the safe levels of pins still available and not reserved |
| `OutputRuns.OwnershipOverRuns` | rust/driver/src/hardware_host.rs:2822-3244 | After any run: claims within outputs and disjoint from reservations, no pulse on a claimed pin, safe levels only where they apply and driven while unclaimed |
| `OutputRuns.StepMovesOnly` | rust/driver/src/hardware_host.rs:2822-3244 | Site requests move only claimed pins, retirement only claimed pins and the encoder pin, and everything else never a claimed pin |
| `OutputRuns.StaleTokenIsRejectedForever` | rust/driver/src/hardware_host.rs:2984-3023 | Once a bank has moved on from a token, every later request or binding that carries it is rejected without effect |
| `OutputLines.HardwareOutputs.SiteBind` | rust/driver/src/hardware_host.rs:2984-3012 | The method performs the takeover, pulse cancellation included, and keeps the ownership invariant |
| `OutputLines.HardwareOutputs.SitePublish` | rust/driver/src/hardware_host.rs:3014-3023 | The method performs the request or counts a rejection, and keeps the ownership invariant |
| `OutputLines.HardwareOutputs.Apply` | rust/driver/src/hardware_host.rs:3025-3095 | The method performs an ordinary command and keeps the ownership invariant, whatever the device answers |
| `OutputLines.HardwareOutputs.SelectChannel` | rust/driver/src/hardware_host.rs:3133-3153 | The method selects the channel on reserved pins and keeps the ownership invariant |
| `OutputLines.HardwareOutputs.ConfigureRemoteRadio` | rust/driver/src/hardware_host.rs:3155-3165 | The method reserves the RTX pins, marks the settings dirty and keeps the ownership invariant |
| `OutputLines.HardwareOutputs.ServiceRemoteRadio` | rust/driver/src/hardware_host.rs:3167-3206 | The method programs the radio exactly when settings or transmit state changed, and keeps the ownership invariant |
| `OutputLines.HardwareOutputs.RetireSite` | rust/driver/src/hardware_host.rs:2882-2887 | The method retires both banks after idling the encoder and leaves the lines at rest |
| `OutputLines.HardwareOutputs.BindEncoder` | rust/driver/src/hardware_host.rs:2836-2853 | The method takes the encoder pin over and keeps the ownership invariant |
| `OutputLines.HardwareOutputs.PrepareSite` | rust/driver/src/hardware_host.rs:2933-2982 | The method rebuilds both banks; when it succeeds the lines are prepared, and when it fails they still satisfy the ownership invariant |
| `LifecycleTheorems.ClosingByteIsSafe` | rust/driver/src/hardware_host.rs:2774-2789 | The byte a closing parallel port is left with has PTT deasserted by polarity, the encoder idle and every other pin at its safe level |
| `LifecycleTheorems.CloseOutputsCloses` | rust/driver/src/hardware_host.rs:2738-2806 | Whatever fails, the devices left over are exactly the open ones, and a bank given up was left safe |
| `LifecycleTheorems.OpenAtOutputsOpens` | rust/driver/src/hardware_host.rs:2690-2736 | All devices are opened, at the levels of their lines with PTT deasserted, exactly when all are found; otherwise none stays open, and a handle dropped on the way leaves its bank safe |
| `LifecycleTheorems.LoopTurnKeeps` | rust/driver/src/hardware_host.rs:3340-3438 | A turn of the worker's loop keeps the ownership of devices, under any failures |
| `LifecycleTheorems.ServingTurn` | rust/driver/src/hardware_host.rs:3398-3438 | A cycle that fails retires the outputs and lets the worker close its devices next, unless the engine is native; any other goes on serving; the commands were carried out either way |
| `LifecycleTheorems.CommandsInTurn` | rust/driver/src/hardware_host.rs:3398-3415 | The commands of a cycle are carried out one after the other |
| `LifecycleTheorems.RetiringTurn` | rust/driver/src/hardware_host.rs:3341-3361 | Closing is tried again until every device is closed |
| `LifecycleTheorems.ReopeningTurn` | rust/driver/src/hardware_host.rs:3363-3396 | Devices are opened as soon as all are found, and served once the outputs are prepared |
| `LifecycleTheorems.FailedCycleRecovers` | rust/driver/src/hardware_host.rs:3340-3438 | After a failed cycle, and as soon as the devices answer, every bank is left safe and all devices are opened and served again |
| `LifecycleTheorems.BindingDecidesTheStop` | rust/driver/src/hardware_host.rs:2375-2408 | After a successful stop each pin of the last binding of its bank stands at the safe level which that binding gave |
| `LifecycleTheorems.StopDrivesClaims` | rust/driver/src/hardware_host.rs:2375-2408 | A successful stop leaves the claimed pins of a serving worker at the safe levels kept for them |
| `LifecycleTheorems.PolledStopCompletes` | rust/driver/src/hardware_host.rs:2415-2429 | Polling asks the worker to end, and succeeds after its turn with every bank left safe |
| `LifecycleTheorems.StartLeavesWorkerAlone` | rust/driver/src/hardware_host.rs:2282-2284 | A start leaves a running service alone |
| `LifecycleTheorems.StartClosesLeftovers` | rust/driver/src/hardware_host.rs:2278-2281 | A start closes what is left open first, and fails until that succeeds |
| `LifecycleTheorems.InitialLinesAreConfigured` | rust/driver/src/hardware_host.rs:2888-2931 | Without restored state a start drives the configured levels and programs the configured radio |
| `LifecycleTheorems.PendingWaitsForStart` | rust/driver/src/hardware_host.rs:2505-2515 | Restored state waits for the next start that succeeds |
| `LifecycleTheorems.StartUsesRestoredState` | rust/driver/src/hardware_host.rs:2285-2293 | A start after a restoration drives the restored levels and keeps the restored safe levels that still apply |
| `LifecycleTheorems.FinishKeeps` | rust/driver/src/hardware_host.rs:3469-3500 | A worker that ends gives every device up safely or hands back exactly those it could not close |
| `LifecycleTheorems.StartKeeps` | rust/driver/src/hardware_host.rs:2278-2367 | A start under any failures keeps the ownership of devices |
| `LifecycleTheorems.DevicesAreNeverMisused` | rust/driver/src/hardware_host.rs:2278-2429 | In every run: at most one owner, no call through a closed handle, no handle closed twice, and nothing opened before every bank was left safe |
| `LifecycleTheorems.SuccessfulStopIsSafe` | rust/driver/src/hardware_host.rs:2375-2408 | After any run, a stop that succeeds leaves no handle open, and each bank with PTT deasserted, claimed pins at their safe levels and every retained safe level high, claimed or not |
| `LifecycleTheorems.FailedStopKeepsOwner` | rust/driver/src/hardware_host.rs:2375-2408 | A stop that fails keeps every open device with its owner for a retry |
| `LifecycleTheorems.StartSucceedsWhenDevicesAnswer` | rust/driver/src/hardware_host.rs:2278-2367 | A stopped service starts when every device answers, and then owns all of its devices |
| `LifecycleTheorems.StopSucceedsWhenDevicesAnswer` | rust/driver/src/hardware_host.rs:2375-2408 | As soon as the devices answer again, one more stop succeeds |
| `HardwareService.StoppedIsSafe` | rust/driver/src/hardware_host.rs:2375-2408 | The object after a successful stop: every bank left safe |
| `HardwareService.HardwareService.Start` | rust/driver/src/hardware_host.rs:2278-2367 | The method performs a start |
| `HardwareService.HardwareService.Stop` | rust/driver/src/hardware_host.rs:2375-2408 | The method performs a stop; it succeeds exactly when no device is left over |
| `HardwareService.HardwareService.PollStop` | rust/driver/src/hardware_host.rs:2415-2429 | The method asks a running worker to end without waiting |
| `HardwareService.HardwareService.CloseDevices` | rust/driver/src/hardware_host.rs:2738-2806 | The method attempts both banks, gives a closed parallel port up and keeps a failed one |
| `HardwareService.HardwareService.OpenDevices` | rust/driver/src/hardware_host.rs:2690-2736 | The method opens every device, or gives back the one it found before the failure |
| `HardwareService.HardwareService.Loop` | rust/driver/src/hardware_host.rs:3340-3438 | The method performs one turn of the loop: retiring, opening or serving |
| `HardwareService.HardwareService.End` | rust/driver/src/hardware_host.rs:3469-3500 | The method retires the outputs and hands back devices it could not close |
| `HardwareService.HardwareService.WorkerTurn` | rust/driver/src/hardware_host.rs:3299-3501 | The method performs one turn of the worker and keeps the service invariant |

## Left out

- Weak memory orderings and the wrap-around of 64-bit generations, sequence numbers and discard counters: steps are sequentially consistent and counters unbounded (site tokens alone run out as in the source).
- Thread creation, parking, time-outs and panics; the clip indicator's hold time is left open, so its pulse may start at any time.
- The external remote engine, so the worker is the one without it; EEPROM access, input polling, sidetone and statistics of the hardware worker, which touch no output.
- Restoring state onto a running hardware worker, and dropping a service whose retirement still fails.
- The loudness computation, FFmpeg's filters, and the printing of filter parameters, which rounds them: a stage's effect is a term over its settings.
- GraphChains.OrderedChain: validation of the numeric settings is not modelled; the theorem holds for any chain, validated or not.
- Publisher.ReceivePublisher.Publish: in the 8 kHz mode the number of frames, their padding and what each conversion queues are proved, but no law about the stream of converted samples over many blocks, because padding may fall between them.
- HardwareSite.BindKeepsOwned: input masks, submitted and serviced levels and the time of observations are not part of the bank state.
- Controller.ControllerState.Deliver: DTMF handling and radio control messages are single-branch updates of other fields.
- Message texts of errors, the scoping of sections by channel, and the remaining keys of the configuration files.
