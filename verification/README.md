# Verified model of the durable stream workers

The system carries bank transactions through replicated workers that may be killed at any moment and promises the
answer of a sequential run. This project models, in Dafny, the parts that promise rests on and proves them for every
input, every run and every reachable state. `dafny verify dfyconfig.toml` checks all of it.

- **Durable state.** `Dedup`, `Inbox`, `Outbox`, `Sequencer` are the pieces a worker keeps; `Engine` is the protocol on
  values (log records, replay, what the log means); `Disk` the snapshot files and the log as single file operations;
  `Handler` and `Loop` the classes that drive them; `Runner` the step machine of several threads and crashes; `Link`
  a producer and a consumer joined by a queue, `LinkPayloads` what travels over it. `Encoding`, `WalCodec` and
  `LineBatch` are the byte formats.
- **End of stream in a filter group.** `BatchBuffer`, `EofCoordinator`, `FilterState` and `Filter` are the classes;
  `FilterCluster` the machine of N replicas over a network that duplicates, delays and reorders; `FilterRuns` its
  invariant; `FilterTheorems` what follows; `FilterProgress`, `FilterCompletion` and `FilterFinish` why the group can
  always finish; `FilterDeliveries` exactly when the flush can be ordered early; `FilterSharedQueue` shared and personal
  queues; `FilterRouting` the four configurations and `Pipeline` what they let through, against the reference.
- **File splitter.** `LineSplitter`, `FileSplitter` (on values), `FileBatches` (what comes out), `FileDelivery`
  (redelivered chunks), `FileSplitterState` (objects, copies and in-place runs), `FileRuns` (a file among
  others) and `FileEnds` (the end of a client).
- **Election.** `Election` is one monitor under its lock, `ElectionRuns` its threads, crashes and restarts.
- **Fast against simple.** `Q2` and `Q4`.

Classes that the system updates in place are classes here, and each method is proved against a function on values
that the theorems are about. A crash forgets memory and keeps files; a log append is atomic in runs with several
crashes. The worker's business logic is an arbitrary deterministic function, and ids of different inputs of a client
are assumed different (proved for the ids the runner builds). In a filter group recovery is exact except for the
answer tally, which falls back to any tally held before, as only snapshots store it.

Where code and comments disagree the code is modelled:

- The log is reopened for appending without cutting a torn tail. `WalCodec.AppendAfterTornTail` says exactly when the
  next record is read back all the same; a torn InputDone is read with a byte of the next record
  (`WalCodec.TornTailThenAppendMisreads`). Reading a torn log once is exact.
- `_packet_size` says it must equal the packet size. Both edges of the splitter are addressed, but all files except
  account files are reckoned with the plain header, eight bytes less (`FileBatches.LimitKeptExactlyForAccounts`).
- `_dispatch_chunk` explains its last branch by chunks already committed; it also takes, and drops, every chunk with
  new bytes that does not start at the expected offset (`FileDelivery.NewBytesAreDroppedExactly`).
- Equal largest amounts without row numbers are decided by arrival order (`Q2.OrderMattersExactlyForUnnumberedTies`).
- The coordinator's own FLUSH_ACK handler adds a repeated acknowledgement again (`EofCoordination.RepeatedAckCountsAgain`);
  the filter replicas count acknowledgements elsewhere, once per sender.
- Two monitors can win the same epoch (`ElectionRuns.IsolatedMonitorsShareAnEpoch`), and do exactly when they have heard
  equally high epochs (`ElectionRuns.SharedEpochExactly`).
- Broadcast mode is documented for replicas that share one input queue. A batch redelivered to another replica is then
  counted twice, and the flush can be ordered too early (`FilterSharedQueue.SharedQueueMissesABatch`; exactly when:
  `FilterSharedQueue.SharedQueueExactly`). With a personal queue per replica it cannot
  (`FilterSharedQueue.PersonalQueuesFlushLast`).
- The reference results strip the currency, the filters do not (`Pipeline.Q2GetsTheDollars`, `Pipeline.Q4GetsTheKept`);
  and the two windows of Q3 share the timestamp 2022/09/06, which the filter sends to both queues and the reference
  counts in the first (`Pipeline.Q3SplitsAtOneTimestamp`).

## Model

| member | source | states |
|---|---|---|
| Dedup.DeduplicationTracker.IsDuplicate | src/common/fault_tolerance/inbox/deduplication_tracker.py:23-24 | reads the tracker value: at most the highest number and not a recorded gap |
| Dedup.DeduplicationTracker.Observe | src/common/fault_tolerance/inbox/deduplication_tracker.py:26-33 | new highest number with the skipped ones recorded as gaps unless the jump exceeds the cap; a late number closes its gap |
| Dedup.DuplicateIff | src/common/fault_tolerance/inbox/deduplication_tracker.py:23-33 | for every history, a number is a duplicate exactly when it is 0, was observed, or was jumped over by more than the cap |
| Dedup.ExactWithinCap | src/common/fault_tolerance/inbox/deduplication_tracker.py:23-33 | when no jump exceeds the cap, a number of 1 or more is a duplicate exactly when it was observed |
| Dedup.StaysDuplicate | src/common/fault_tolerance/inbox/deduplication_tracker.py:26-33 | a duplicate stays a duplicate whatever is observed next |
| Dedup.InOrderTracker | src/common/fault_tolerance/inbox/deduplication_tracker.py:26-33 | observing 0, 1, 2, … keeps no gap |
| Inboxes.Inbox.Classify | src/common/fault_tolerance/inbox/inbox.py:24-32 | DONE, APPLIED or NEW from the two dictionaries, without changing them |
| Inboxes.Inbox.MarkApplied | src/common/fault_tolerance/inbox/inbox.py:34-37 | the whole new inbox: only the applied set of that client grows |
| Inboxes.Inbox.MarkDone | src/common/fault_tolerance/inbox/inbox.py:39-50 | the whole new inbox: the key leaves the applied set and its tracker observes the number |
| Inboxes.MarkAppliedStatus | src/common/fault_tolerance/inbox/inbox.py:24-37 | marking a NEW key makes it APPLIED and changes the status of no other key |
| Inboxes.MarkDoneStatus | src/common/fault_tolerance/inbox/inbox.py:39-50 | the key becomes DONE and no key at all goes back from DONE to APPLIED or to NEW |
| Outboxes.Outbox.Add | src/common/fault_tolerance/outbox/outbox.py:18-19 | the whole new outbox |
| Outboxes.Outbox.RemoveInput | src/common/fault_tolerance/outbox/outbox.py:24-30 | the whole new outbox; a client left without inputs disappears |
| Outboxes.Outbox.AllPending | src/common/fault_tolerance/outbox/outbox.py:32-38 | lists the outputs of every waiting input exactly once, input by input |
| Outboxes.RemovedWaiting | src/common/fault_tolerance/outbox/outbox.py:24-30 | exactly that input stops waiting; the entries of all others stay |
| Sequencing.SenderSequencer.Stamp | src/common/fault_tolerance/handler/sender_sequencer.py:47-102 | the loop over outputs yields, position by position, the entry numbered by its lane counter plus the draws before it; counters unchanged |
| Sequencing.SenderSequencer.Observe | src/common/fault_tolerance/handler/sender_sequencer.py:108-124 | counters move past every parsed id and never back |
| Sequencing.ParseInvertsOutputId | src/common/fault_tolerance/handler/sender_sequencer.py:150-160 | parsing a built id gives back lane and number exactly when the edge name is colon-free (colons in node names are refused), and is ignored otherwise |
| Sequencing.StampingIsConsecutive | src/common/fault_tolerance/handler/sender_sequencer.py:47-124 | after any consecutive history, stamping and observing any list of outputs leaves every (client, edge, shard) lane numbered 0, 1, 2, … and the counters just past it |
| Sequencing.DistinctIds | src/common/fault_tolerance/handler/sender_sequencer.py:47-102 | in a consecutive history no two output ids are equal |
| Sequencing.AdvancesIffColonFree | src/common/fault_tolerance/handler/sender_sequencer.py:47-124 | stamping twice gives two different ids exactly when the edge name has no colon |
| Engine.StatusNeverGoesBack | src/common/fault_tolerance/handler/persistent_state_handler.py:161-181 | replaying any record never moves any key back along NEW, APPLIED, DONE |
| Engine.SuffixOverSnapshot | src/common/fault_tolerance/handler/persistent_state_handler.py:72-88 | a snapshot taken after `taken` records, followed by a replay that starts at any earlier record, is the fold of the whole log |
| Engine.CommitIsReplay | src/common/fault_tolerance/handler/persistent_state_handler.py:125-133 | committing live equals replaying the InputDone record, also when two threads commit the same input |
| Engine.StatusMeaning | src/common/fault_tolerance/inbox/inbox.py:24-50 | the status of every key, exactly, from the log alone, including the numbers lost to an oversized jump |
| Engine.AppliedAtMostOnce | src/common/fault_tolerance/handler/persistent_state_handler.py:103-123 | each key enters the worker state at most once: the state is the fold of the changes of distinct keys |
| Engine.OutboxMeaning | src/common/fault_tolerance/outbox/outbox.py:18-30 | an input waits in the outbox exactly when it is applied and not done, with the bytes that were logged |
| Engine.NumberingMeaning | src/common/fault_tolerance/handler/persistent_state_handler.py:107-117 | the outputs of the whole log are numbered without gap or repeat and the rebuilt counters stand just past them |
| StateDisk.SnapshotStepKeepsDurable | src/common/fault_tolerance/snapshot/last_state.py:28-48 | each single file operation of snapshot and rotation leaves a directory that recovers the whole log |
| StateDisk.SnapshotCrashSafe | src/common/fault_tolerance/handler/persistent_state_handler.py:140-159 | a crash between any two of the renames and the rotation recovers the same memory |
| StateDisk.DurableRecovers | src/common/fault_tolerance/snapshot/last_state.py:28-37 | recovery from a durable directory gives the fold of every record ever appended |
| Handling.LastState.Load | src/common/fault_tolerance/snapshot/last_state.py:28-37 | the current snapshot, else the previous one, else nothing |
| Handling.LastState.Commit | src/common/fault_tolerance/snapshot/last_state.py:39-48 | the three file operations in order, each recorded as a possible crash point |
| Handling.Wal.Append | src/common/fault_tolerance/wal/wal.py:29-34 | one more record at the end of the log file |
| Handling.Wal.Rotate | src/common/fault_tolerance/wal/wal.py:47-52 | the log moves aside and an empty one is opened, each recorded as a possible crash point |
| Handling.PersistentStateHandler.Recover | src/common/fault_tolerance/handler/persistent_state_handler.py:72-88 | memory becomes the fold of every record ever appended, which is what the directory recovers to, and the inputs applied since the snapshot are counted |
| Handling.PersistentStateHandler.ReplayAll | src/common/fault_tolerance/handler/persistent_state_handler.py:83-88 | the replay loop is the fold over the records and counts the inputs applied anew |
| Handling.PersistentStateHandler.ApplyOne | src/common/fault_tolerance/handler/persistent_state_handler.py:161-183 | one record replayed, skipped when the memory already reflects it; says whether it counted |
| Handling.PersistentStateHandler.Handle | src/common/fault_tolerance/handler/persistent_state_handler.py:93-123 | instruction, new memory, new log and count since the snapshot for each status; every directory content on the way recovers the old or the new memory |
| Handling.PersistentStateHandler.CommitDone | src/common/fault_tolerance/handler/persistent_state_handler.py:125-138 | new memory, log and directory: a snapshot and an empty log when enough inputs were applied since the last one, otherwise one more record; every directory content on the way recovers the old or the new memory |
| Handling.PersistentStateHandler.SnapshotNow | src/common/fault_tolerance/handler/persistent_state_handler.py:140-159 | memory and log unchanged and the whole new directory; every directory content on the way recovers that memory |
| Loop.WorkerRunner.Process | src/common/fault_tolerance/handler/worker_runner.py:67-93 | acknowledged exactly when every output found its publisher; what was published, what was logged and the final status |
| Loop.WorkerRunner.RecoverAndRepublish | src/common/fault_tolerance/handler/worker_runner.py:54-65 | exactly the outputs of applied-but-not-done inputs are listed and published, in that order, up to the first without publisher |
| Loop.WorkerRunner.Publish | src/common/fault_tolerance/handler/worker_runner.py:125-133 | publishes in order and stops at a destination without publisher |
| Loop.RunnerIdsAreInjective | src/common/fault_tolerance/handler/worker_runner.py:67-123 | the ids the runner builds for data and aborts tell inputs of a client apart |
| Engine.RecountedIs | src/common/fault_tolerance/handler/persistent_state_handler.py:72-88 | replaying the log file over a snapshot applies anew exactly the inputs applied since the snapshot |
| Runner.RecoveryIsTheFoldOfTheLog | src/common/fault_tolerance/handler/persistent_state_handler.py:72-183 | over every run of several threads handling, publishing, committing, snapshotting and crashing anywhere, recovery is the fold of all records ever appended and live memory equals it |
| Runner.EffectsHappenOnce | src/common/fault_tolerance/handler/persistent_state_handler.py:103-123 | over every run the recovered worker state is the fold of the changes of distinct inputs |
| Runner.WriteAheadOrdering | src/common/fault_tolerance/handler/worker_runner.py:67-93 | over every run, a published output is in a logged InputApplied; a committed and acknowledged input is durably DONE and all its outputs were published |
| Runner.OutputNumbersOverRuns | src/common/fault_tolerance/handler/sender_sequencer.py:47-124 | over every run with crashes, logged output numbers of each lane are 0, 1, 2, … and all output ids differ |
| Runner.RepublishesExactly | src/common/fault_tolerance/outbox/outbox.py:32-38 | the listing holds an entry exactly when it is an output of an applied-but-not-done input |
| Runner.SnapshotsWhenDue | src/common/fault_tolerance/handler/persistent_state_handler.py:135-138 | over every run a snapshot is under way only when enough inputs were applied since the last one |
| Runner.RestartRepublishes | src/common/fault_tolerance/handler/worker_runner.py:54-65 | in every reachable state a restart queues exactly those outputs, byte for byte |
| Runner.StepKeepsInv | src/common/fault_tolerance/handler/persistent_state_handler.py:72-183 | every step of every thread, and a crash, keeps the invariant |
| Link.ExactlyOnceLink | src/common/fault_tolerance/handler/worker_runner.py:54-93 | producer and consumer crashing at will over a FIFO queue with redelivery: at every moment the consumer has applied exactly 0 … k-1 of the lane, data and aborts alike, each once |
| Link.SameNumberSameBytes | src/common/fault_tolerance/handler/sender_sequencer.py:47-124 | two publications with the same number in a lane are the same entry |
| Link.PacketHasTheKey | src/common/fault_tolerance/handler/sender_sequencer.py:74-101 | every key of the lane that the consumer applies, data or abort, is read from an addressed packet that the producer logged for it: client, sender, number and the kind of its message type |
| Sequencing.StampedConveys | src/common/fault_tolerance/handler/sender_sequencer.py:47-101 | entry i carries output i: destination, input id and, on an addressed edge, message type and payload under the client, the edge's sender id and the number of its id, on the shard given or hashed from the payload; on a plain edge body and shard unchanged |
| LinkPayloads.LogHoldsGiven | src/common/fault_tolerance/handler/persistent_state_handler.py:93-123 | over every run the logged packets of a lane carry, in order, the message types and payloads of the outputs the business function gave for it at first handlings |
| LinkPayloads.PacketsCarryGiven | src/common/fault_tolerance/handler/sender_sequencer.py:74-101 | whichever copy of packet n of a lane arrives, it carries the n-th of them |
| LinkPayloads.ChangesFollowGiven | src/common/fault_tolerance/handler/worker_runner.py:54-93 | the n-th change the consumer applied for the lane follows from the n-th output the producer's business function gave for it, with both ends crashing at will |
| Link.HeadStatus | src/common/fault_tolerance/inbox/inbox.py:24-32 | the message at the head of the queue, data or abort, is classified NEW exactly when it is the next number, APPLIED when it is the one in hand, DONE when it is an earlier one |
| Link.ProducerStep | src/common/fault_tolerance/handler/worker_runner.py:54-93 | no producer step, crash or republication lets a number overtake a smaller one |
| WalCodec.DecodeInvertsEncode | src/common/fault_tolerance/wal/reader.py:72-121 | decoding inverts encoding for every record the writer accepts |
| WalCodec.ReadEntryAt | src/common/fault_tolerance/outbox/outbox_entry.py:25-71 | an outbox entry, shard included, reads back from any place it stands at |
| WalCodec.ReadAll | src/common/fault_tolerance/wal/reader.py:38-70 | the reading loop yields the decoded whole records |
| WalCodec.TornTailReads | src/common/fault_tolerance/wal/reader.py:38-63 | any byte prefix of a log reads back as exactly its whole records |
| WalCodec.FileReadsBack | src/common/fault_tolerance/wal/writer.py:54-98 | a whole log reads back as the records written |
| WalCodec.AppendAtBoundary | src/common/fault_tolerance/wal/writer.py:91-98 | appending after a whole log adds exactly that record |
| WalCodec.ReadsExactly | src/common/fault_tolerance/wal/reader.py:38-70 | the reader on any bytes whatsoever: it returns these records if and only if the file starts with them as the writer writes them and no whole record follows |
| WalCodec.EncodeInvertsDecode | src/common/fault_tolerance/wal/reader.py:72-121 | a payload decodes to a record only if it is that record's encoding |
| WalCodec.AppendAfterTornTail | src/common/fault_tolerance/wal/writer.py:48-52 | after any whole records and any torn bytes, an appended record reads back behind them if and only if the torn bytes and the record start with the record and no whole record follows |
| WalCodec.WritesExactly | src/common/fault_tolerance/wal/writer.py:54-98 | the writer accepts exactly the records that some payload decodes to |
| WalCodec.WriteReadsBack | src/common/fault_tolerance/wal/writer.py:54-98 | what the writer accepts after whole records reads back behind them |
| WalCodec.TornTailThenAppendMisreads | src/common/fault_tolerance/wal/writer.py:48-52 | an InputDone torn one byte short, then any record: the reader returns that InputDone with the next record's type as low byte, drops the rest (records under 16 MiB), and returns the appended record exactly when it is the InputDone with low byte 2 |
| Encoding.ReadSizedAt | src/common/fault_tolerance/_encoding.py:18-50 | a length-prefixed field reads back from any place it stands at |
| LineBatches.DeserializeInvertsSerialize | src/common/message_protocol/internal/line_batch_serializer.py:27-87 | deserializing inverts serializing for every batch the serializer accepts |
| LineBatches.SerializeInvertsDeserialize | src/common/message_protocol/internal/line_batch_serializer.py:61-90 | bytes are read as a batch only if they are its serialization, so exactly the readable batches are accepted |
| LineBatches.BatchSize | src/common/message_protocol/internal/line_batch_serializer.py:27-58 | the serialized size of a batch |
| LineBatches.ReadByteItems | src/common/message_protocol/internal/line_batch_serializer.py:144-156 | the item loop reads exactly the items, or fails |
| BatchBuffers.BatchBuffer.Append | src/common/batch_buffer.py:23-33 | new buffers and flushed batch are those of the one-payload append; counters stay true |
| BatchBuffers.BatchBuffer.SimulateAppend | src/common/batch_buffer.py:61-79 | the loop on copies computes the one-by-one append; the byte count is the true size |
| BatchBuffers.BatchBuffer.PlanAppend | src/common/batch_buffer.py:81-89 | predicts exactly the batches the one-by-one append flushes, changing nothing |
| BatchBuffers.BatchBuffer.ApplyAppend | src/common/batch_buffer.py:91-105 | keeps exactly the remainder of the one-by-one append |
| BatchBuffers.BatchBuffer.PlanDrain | src/common/batch_buffer.py:107-117 | lists every matching buffer once, joined |
| BatchBuffers.BatchBuffer.Flush | src/common/batch_buffer.py:35-46 | returns every matching buffer once, joined, and removes exactly those |
| BatchBuffers.BatchBuffer.Discard | src/common/batch_buffer.py:48-55 | removes exactly the matching buffers |
| BatchBuffers.AppendAllIsGreedy | src/common/batch_buffer.py:23-33 | batches and remainder are the old buffer and the payloads in order; each batch ends at the first payload that reaches a limit |
| BatchBuffers.GreedyIsUnique | src/common/batch_buffer.py:61-79 | only one grouping has that property |
| BatchBuffers.AppendKeepsLimits | src/common/batch_buffer.py:91-105 | nothing lost, duplicated or reordered; what is kept has fewer payloads and fewer bytes than the limits, every batch reaches one of them |
| BatchBuffers.AppendAllPlus | src/common/batch_buffer.py:61-105 | appending in two goes flushes and keeps what appending at once does |
| EofCoordination.EofCoordinator.UpstreamEof | src/common/eof_coordinator.py:281-303 | new view of the client and action; all other clients untouched |
| EofCoordination.EofCoordinator.ProcessControlMessage | src/common/eof_coordinator.py:323-350 | the same for each of the five control messages |
| EofCoordination.EofCoordinator.ProcessedAnswer | src/common/eof_coordinator.py:411-480 | duplicate answers ignored; a full round ends in FLUSH_ORDER or a retry and clears the tally |
| EofCoordination.EofCoordinator.FlushAck | src/common/eof_coordinator.py:511-561 | the last acknowledgement returns the accumulated total and clears the leader state |
| EofCoordination.AnnouncedOnce | src/common/eof_coordinator.py:354-409 | the first announcement is answered to its sender, later ones are ignored until cleanup; requests are answered with the count of the moment, or not at all before an announcement |
| EofCoordination.AcksAddUp | src/common/eof_coordinator.py:511-566 | acknowledgements of n-1 different replicas, in any order, add up: only the last flushes, with the sum, and the client is forgotten |
| EofCoordination.RepeatedAckCountsAgain | src/common/eof_coordinator.py:511-561 | a repeated acknowledgement adds its count again; it is harmless exactly when it reports nothing |
| EofCoordination.EofCoordinator.CleanupLeaderState | src/common/eof_coordinator.py:264-277 | leader state of that client cleared, other clients untouched |
| FilterStates.FilterState.ApplyChange | src/workers/filter/filter_state.py:304-338 | every kind of change, compound ones included, turns each client's view into the specified one and leaves the other clients alone |
| FilterStates.FilterState.ApplyData | src/workers/filter/filter_state.py:340-359 | counters and buffers of the client advance by the change; nothing for a closed client |
| FilterStates.FilterState.ApplyFlushAck | src/workers/filter/filter_state.py:361-371 | counts of a sender are added once |
| FilterStates.FilterState.ApplyClose | src/workers/filter/filter_state.py:373-383 | everything about the client is dropped and it is marked closed |
| FilterStates.FilterState.PlanData | src/workers/filter/filter_state.py:235-244 | the batches per destination that applying the appends flushes |
| FilterStates.FilterState.PlanDrain | src/workers/filter/filter_state.py:246-252 | the leftover batch of every destination of the client |
| Filters.FilterWorker.DataProcessPayload | src/workers/filter/filters.py:563-609 | change and stamped batches of a DATA batch, built by the loops over transactions and routes |
| Filters.FilterWorker.HandleUpstreamEof | src/workers/filter/filters.py:755-803 | announcement to all replicas, or for a single replica drain, end of stream and close |
| Filters.FilterWorker.HandleEofReceived | src/workers/filter/filters.py:862-895 | change and answer; moving the coordinator before the change is logged does not alter what applying it gives |
| Filters.FilterWorker.HandleFlushOrder | src/workers/filter/filters.py:897-944 | ignored by closed clients and leaders; otherwise drain, acknowledge with own totals and close |
| Filters.FilterWorker.HandleFlushAck | src/workers/filter/filters.py:1024-1079 | the last acknowledgement drains, emits the cross-replica totals and closes |
| Filters.ObeysAsCoordinated | src/common/eof_coordinator.py:482-509 | an open replica obeys a flush order exactly when its coordinator says so: when it does not lead |
| Filters.FilterWorker.EofOutputs | src/workers/filter/filters.py:611-657 | one end of stream per destination with the total of its logical output |
| Filters.AppendsAt | src/workers/filter/filters.py:563-609 | the payloads collected for a destination are those of the transactions routed to it, in order |
| Filters.CountsAt | src/workers/filter/filters.py:563-609 | the count of a logical output is the number of routes to it |
| FilterRouting.RoutesAreAnnounced | src/workers/filter/filters.py:501-545 | in every configuration each route leads to a destination that gets an end of stream, under the logical output whose total it carries |
| Pipeline.GoesExactly | src/workers/filter/filters.py:502-545 | for every configuration and destination, exactly which transactions are sent there, on the fields of the transaction |
| Pipeline.RoutedIsDue | src/workers/filter/filters.py:563-609 | a destination gets each transaction it is due once, serialized, in order |
| Pipeline.Q2GetsTheDollars | src/workers/filter/filters.py:512-522 | the rows that reach the Q2 sum workers are those of the reference scan, in order, if and only if no dollar currency has blanks around it |
| Pipeline.Q2EndToEnd | scripts/reference_results.py:142-171 | then the three Q2 stages behind the filter find what the reference scan of the file finds |
| Pipeline.Q4GetsTheKept | src/workers/filter/filters.py:523-545 | the rows that pass the dollar and the date filter towards Q4 are those the reference keeps, in order, if and only if no kept transaction has blanks around its currency |
| Pipeline.SourcesStayTogether | src/workers/filter/filters.py:401-411 | all transactions of a source account reach the same Q4 queue |
| Pipeline.Q1GetsSmallDollars | src/workers/filter/filters.py:508-522 | the gateway gets exactly the dollar transactions below 50 |
| Pipeline.Q3SplitsAtOneTimestamp | src/workers/filter/filters.py:523-535 | the average queue gets the first window; the candidates are those of the reference, and the one timestamp that both windows share |
| FilterRuns.StepKeepsInv | src/workers/filter/filters.py:755-944 | every delivery, duplicate, abort and crash of any replica keeps the group invariant |
| FilterRuns.HonestAnswer | src/common/eof_coordinator.py:354-409 | a reported count never exceeds what its sender has ever counted |
| FilterRuns.AnswerSound | src/common/eof_coordinator.py:411-480 | a tally never exceeds what its responders have counted, and FLUSH_ORDER follows only a sum that reaches the announced total |
| FilterRuns.DestinationStep | src/workers/filter/filters.py:563-609 | per destination, stamped batches followed by the buffer are exactly the payloads routed so far |
| FilterRuns.LastAckTotal | src/workers/filter/filters.py:1024-1079 | with the last acknowledgement every other replica has drained and the totals are the sums over all replicas |
| FilterTheorems.CountedInAll | src/workers/filter/filters.py:563-609 | summing over replicas is summing over the batches counted, and again over those counted again |
| FilterTheorems.NoneAgain | src/workers/filter/filters.py:563-609 | nothing is counted again exactly when no batch with transactions is counted by two replicas |
| FilterTheorems.PersonalQueuesCountOnce | src/workers/filter/filters.py:127-137 | when every batch is delivered to one replica only, however often, no batch is counted by two |
| FilterDeliveries.FlushWithoutExactly | src/common/eof_coordinator.py:354-480 | for any restriction on where batches may be delivered: a run of N > 1 replicas that orders the flush with given batches uncounted exists if and only if the other batches, counted once by each replica they may reach, add up to the announced total |
| FilterDeliveries.FlushesLastExactly | src/common/eof_coordinator.py:411-480 | no run orders the flush before everything is counted if and only if no batch with transactions can be made up for by the others |
| FilterSharedQueue.SharedQueueExactly | src/workers/filter/filters.py:134-137 | with one shared queue and an honest total T, no run of n replicas orders the flush early if and only if n(T - |b|) < T for every batch b with transactions |
| FilterSharedQueue.PersonalQueuesFlushLast | src/workers/filter/filters.py:127-133 | with personal queues and an honest total no run orders the flush early |
| FilterSharedQueue.SharedQueueMissesABatch | src/workers/filter/filters.py:134-137 | two replicas, two batches of one transaction and a shared queue: a run orders the flush, with an honest total, before the second batch is counted |
| FilterTheorems.FlushOrderComesLast | src/common/eof_coordinator.py:411-480 | in every reachable state of N replicas with an honest total, once FLUSH_ORDER is broadcast the transactions nobody counted are at most as many as were counted again; so none, if no batch was counted by two replicas |
| FilterTheorems.ClosesLast | src/workers/filter/filters.py:897-944 | the same once a replica has closed a client that was not aborted there |
| FilterRuns.AbortForgets | src/workers/filter/filters.py:547-549 | the first abort leaves nothing of the client at the replica and sends the others nothing |
| FilterProgress.RunKeepsChain | src/workers/filter/filters.py:755-944 | in every reachable state what a replica has seen shows on the network: announcements, answers, flush orders and acknowledgements are never lost |
| FilterCompletion.RequestAnswersExactly | src/common/eof_coordinator.py:382-409 | a request makes a replica with a pending end of stream send one message, to the replica that announced it, with exactly the number of transactions it has counted |
| FilterCompletion.RoundDecides | src/common/eof_coordinator.py:382-480 | a round from an empty tally, requests to all and their answers to the leader, sends FLUSH_ORDER to all if the open replicas have counted the total and PROCESSED_REQUEST to all if not, and empties the tally |
| FilterFinish.CanFinish | src/workers/filter/filters.py:755-1079 | from every reachable state without an abort, whatever was repeated, reordered or lost in crashes, a run goes on to the end: every replica drained and the end of stream stamped for every destination with its exact total |
| FilterTheorems.EofTotalsAreExact | src/workers/filter/filters.py:1024-1079 | the end of stream is stamped once, by the leader, when all replicas have drained: each routed transaction is in exactly one batch, each total is the number of transactions in all batches of all replicas for that output, and, with two replicas or more, an honest upstream total and no batch counted by two replicas, equals the number routed from upstream |
| LineSplitting.LineSplitter.Push | src/workers/common/line_splitter.py:17-36 | lines and new state, or a refusal that changes nothing |
| LineSplitting.LineSplitter.Finish | src/workers/common/line_splitter.py:38-46 | the last line without newline, if any |
| LineSplitting.SplitMore | src/workers/common/line_splitter.py:25-28 | more bytes only change the last field |
| LineSplitting.TooLongStays | src/workers/common/line_splitter.py:29-32 | the lines of a longer content are within the limit exactly when those before and those after the cut are |
| FileSplitting.ChunkingDoesNotMatter | src/workers/file_splitter/file_splitter_state.py:216-301 | for every way of cutting a file into chunks, success, outputs, counters and final state are those of its content |
| FileBatches.FileBatchesAreExact | src/workers/file_splitter/file_splitter_state.py:226-301 | for every accepted file, the empty one included, the batches' lines are the data lines in order, line j of a batch is file line first+j, batches are numbered from 0 and cut only where the next line would not fit, and the end of stream carries the number of data lines (of batches for accounts) |
| FileBatches.HeaderLineEndings | src/workers/file_splitter/file_splitter_state.py:228-240 | a header line means the same with the carriage return of a CRLF file and without it, and only one is dropped |
| FileBatches.RefusedExactly | src/workers/file_splitter/file_splitter_state.py:228-240 | a file is refused exactly when a line is too long or its first line is no CSV row |
| FileBatches.MutedFile | src/workers/file_splitter/file_splitter_state.py:228-232 | where accounts are disabled an account file emits nothing |
| FileBatches.SizesAgree | src/workers/file_splitter/file_splitter_state.py:319-328 | the reckoned packet size is packet header plus serialized batch |
| FileBatches.SentPacketFitsExactly | src/workers/file_splitter/file_splitter_state.py:242-253 | the sent packet is eight bytes over the reckoned one except for account files; a batch of two lines or more keeps the limit exactly when it is of an account file or those bytes were left |
| FileBatches.LimitKeptExactlyForAccounts | src/workers/file_splitter/file_splitter_state.py:242-253 | every batch of two lines or more keeps every limit exactly for account files |
| FileBatches.SentPacketOverLimit | src/workers/file_splitter/file_splitter_state.py:319-328 | outside account files, for every header and two data lines there is a limit that the sent packet exceeds by eight bytes |
| FileDelivery.RedeliveryIsHarmless | src/workers/file_splitter/file_splitter.py:192-216 | in-order delivery with any redeliveries leaves the file as if each byte had come once |
| FileDelivery.SameOutputsDespiteRedelivery | src/workers/file_splitter/file_splitter.py:192-216 | so the outputs are those of the content |
| FileDelivery.NewBytesAreDroppedExactly | src/workers/file_splitter/file_splitter.py:192-209 | a chunk that brings new bytes is acknowledged and lost exactly when it does not start at the expected offset |
| FileDelivery.EarlyChunkIsDropped | src/workers/file_splitter/file_splitter.py:206-209 | such a chunk beyond the end of the file |
| FileDelivery.StraddlingChunkIsDropped | src/workers/file_splitter/file_splitter.py:206-209 | such a chunk that starts before the end and goes beyond it |
| FileSplitterStates.FileState.CopyOf | src/workers/file_splitter/file_splitter_state.py:344-364 | the copy is equal and shares no mutable object |
| FileSplitterStates.FileSplitterState.Simulate | src/workers/file_splitter/file_splitter_state.py:132-156 | returns the outputs of the change and leaves the whole state as it was |
| FileSplitterStates.FileSplitterState.ApplyChange | src/workers/file_splitter/file_splitter_state.py:188-211 | for all four kinds of change the whole state, every other file included, becomes the one the values give |
| FileSplitterStates.FileSplitterState.ApplyChunk | src/workers/file_splitter/file_splitter_state.py:188-196 | the real file reaches the state the simulated copy reached, and no other file changes |
| FileSplitterStates.FileSplitterState.FinishAndRemove | src/workers/file_splitter/file_splitter_state.py:303-308 | the file is finished in place and forgotten, and no other file changes |
| FileSplitterStates.FileSplitterState.Live | src/workers/file_splitter/file_splitter_state.py:132-211 | a run of simulating and applying changes on the objects is the fold over the changes: final state and all outputs |
| FileSplitterStates.FileSplitterState.Replay | src/workers/file_splitter/file_splitter_state.py:188-211 | applying the logged changes without simulating reaches the same state |
| FileSplitterStates.RunInTwoParts | src/workers/file_splitter/file_splitter_state.py:158-211 | a run may be cut at a snapshot and the rest replayed |
| FileRuns.FileEmitsItsContent | src/workers/file_splitter/file_splitter_state.py:132-308 | in any successful run, with any changes of other files and clients in between, a file that is not an account file, or is a disabled one, emits exactly the outputs of its content |
| FileRuns.AccountFileEmitsItsContent | src/workers/file_splitter/file_splitter_state.py:255-301 | an account file emits in any such run the batches of its content, and its end of stream carries the number of account batches of its client since the client's last account end of stream |
| FileRuns.CountersTrackBatches | src/workers/file_splitter/file_splitter_state.py:188-301 | over any successful run the account counter of a client is the number of its account batches since its last account end of stream or abort |
| FileRuns.TotalsOverRuns | src/workers/file_splitter/file_splitter_state.py:280-301 | every account end of stream emitted by any change of any run carries that number |
| FileEnds.OpenFilesAreHeld | src/workers/file_splitter/file_splitter_state.py:188-215 | over every run the state holds the files with a chunk and no end since, in the order of their first chunks, and counts chunks and ends |
| FileEnds.ClientEndIsFileEnds | src/workers/file_splitter/file_splitter_state.py:148-151 | the end of a client's stream emits and leaves behind what ending its open files one by one does, in the order of their first chunks |
| FileEnds.ClientIsGone | src/workers/file_splitter/file_splitter_state.py:201-210 | after it, or an abort, no file of the client is held and the others are as before |
| FileEnds.ClientEndEmitsContent | src/workers/file_splitter/file_splitter_state.py:132-308 | a file ended by the end of its client emits exactly the outputs of its content, its last part among the outputs of that end |
| FileEnds.ClientEndEmitsAccounts | src/workers/file_splitter/file_splitter_state.py:255-301 | the same for an account file, with the total of the client's account batches since its last account end of stream |
| FileRuns.AloneInRun | src/workers/file_splitter/file_splitter_state.py:188-308 | at every point of a run the state and outputs of a file are those of its own chunks |
| FileSplitterStates.Batcher.RunChunk | src/workers/file_splitter/file_splitter_state.py:216-224 | with or without an output list, the same state and the same outputs |
| FileSplitterStates.Batcher.RunLine | src/workers/file_splitter/file_splitter_state.py:228-240 | header, muted and data lines |
| FileSplitterStates.Batcher.RunAccumulate | src/workers/file_splitter/file_splitter_state.py:242-253 | flush before overflow, then append in place |
| FileSplitterStates.Batcher.RunFlush | src/workers/file_splitter/file_splitter_state.py:255-278 | one batch out, counters advanced, a new list |
| FileSplitterStates.Batcher.RunFinish | src/workers/file_splitter/file_splitter_state.py:280-301 | last line, last batch, end of stream, account counter dropped |
| FileSplitterStates.SimulatedIsApplied | src/workers/file_splitter/file_splitter_state.py:132-211 | a change can be simulated exactly when it can be applied |
| Elections.ElectionHandler.SetEpoch | src/monitor/election/election_handler.py:334-339 | disk before memory, refused out of range |
| Elections.ElectionHandler.BeginElection | src/monitor/election/election_handler.py:62-71 | generation advances, no leader runs |
| Elections.ElectionHandler.RecordOk | src/monitor/election/election_handler.py:101-109 | the epoch rises to that of the OK, on disk first |
| Elections.ElectionHandler.BecomeLeader | src/monitor/election/election_handler.py:225-251 | cancelled, exhausted or won, and the whole new state |
| Elections.ElectionHandler.HandleMessage | src/monitor/election/election_handler.py:277-332 | new state, reply and whether to start an election, for every message |
| Elections.ElectionHandler.Stop | src/monitor/election/election_handler.py:212-223 | stopped, and any running election is cancelled |
| Elections.EpochStore.Save | src/monitor/election/epoch_store.py:36-59 | the stored epoch is replaced, or refused out of range |
| Elections.EpochStore.Load | src/monitor/election/epoch_store.py:13-34 | 0 when nothing is stored, an error out of range |
| Elections.HighestAnnouncementWins | src/monitor/election/election_handler.py:281-317 | any list of announcements leaves (epoch, leader) at the lexicographic maximum of the admissible ones |
| Elections.AnyOrder | src/monitor/election/election_handler.py:281-317 | so their order and repetition do not matter |
| Elections.LeadershipOnlyRisesOverTime | src/monitor/election/election_handler.py:277-332 | while a leader runs, (epoch, leader) never decreases under any messages |
| ElectionRuns.EpochsNeverDecrease | src/monitor/election/election_handler.py:334-339 | over every run with messages, crashes in the middle of a save and restarts, the epoch never decreases |
| ElectionRuns.FinishesExactly | src/monitor/election/election_handler.py:85-90 | an election can end exactly when every other monitor 1 … count has been asked once, in order |
| ElectionRuns.WinsExactly | src/monitor/election/election_handler.py:55-114 | read off the steps of the run: an election wins exactly when no monitor with a higher id sent its own OK to the question put to it, no announcement was accepted since it began, the monitor was not stopped and epochs are left; the new epoch is above every epoch ever stored and every OK |
| ElectionRuns.NoEpochWonTwice | src/monitor/election/election_handler.py:225-251 | a monitor never wins an epoch twice, whatever crashes come in between |
| ElectionRuns.EpochIsHighestHeard | src/monitor/election/election_handler.py:334-339 | the epoch in memory and on disk is the highest of the epoch found on disk, the epochs of messages and OKs, and own wins, crashes in the middle of a save included |
| ElectionRuns.WonEpochIs | src/monitor/election/election_handler.py:225-251 | the epoch won is one above that |
| ElectionRuns.SharedEpochExactly | src/monitor/election/election_handler.py:225-251 | two monitors win the same epoch exactly when the highest epochs they have heard are equal; who has heard of an epoch wins above it |
| ElectionRuns.IsolatedMonitorsShareAnEpoch | src/monitor/election/election_handler.py:55-114 | monitors 1 and 2 that do not reach each other both win epoch 1 |
| Q2.Q2Processor.Accept | src/workers/aggregator/processors.py:29-41 | the whole new table; the same comparison serves sum, aggregator and joiner |
| Q2.ComputeMaxima | scripts/reference_results.py:155-165 | the loop over the file is the scan of its dollar rows |
| Q2.ScanIsLargest | scripts/reference_results.py:142-171 | the scan keeps exactly the banks of the file, under their normalized ids, each with a row of the bank that no row of it exceeds |
| Q2.ReducedPicks | src/workers/sum/processors.py:25-36 | a processor holds, for each bank, the row that beats all others it accepted, in whatever order they came |
| Q2.StageKeepsMaxima | src/workers/aggregator/processors.py:29-41 | what a stage sends on has the maxima of what it received |
| Q2.TreeEqualsScan | src/workers/joiner/processors.py:25-37 | however rows are spread over sum workers, partials over aggregators and theirs to the joiner, the joiner ends with the rows of the sequential scan |
| Q2.OrderMattersExactlyForUnnumberedTies | src/workers/sum/processors.py:69-78 | all orders of any list of rows give the same maxima exactly when, for each bank, its rows of largest amount are all equal, or all numbered and those with the least number equal |
| Q2.UnnumberedTie | src/workers/sum/processors.py:69-78 | of two different unnumbered rows of equal amount the first to arrive wins |
| Q4.ComputeQ4 | scripts/reference_results.py:207-286 | the pruned computation returns exactly the accounts of pairs with more than five joined row pairs, each once, in the order in which the two passes over the kept rows first meet them, for every transaction list |
| Q4.TargetsOnFile | scripts/reference_results.py:207-244 | the targets of a source are the normalized bank and account pairs of the kept transactions from it |
| Q4.QualifySources | scripts/reference_results.py:225-244 | early qualification marks exactly the sources with more than five distinct targets |
| Q4.CountRows | scripts/reference_results.py:246-262 | the two tables count the rows of qualifying sources |
| Q4.CountPairs | scripts/reference_results.py:264-284 | skipping qualified pairs loses nothing: the tally tracks the true totals of all pairs |
| Q4.KeysDiffer | scripts/reference_results.py:267-275 | the key a*stride+b identifies the pair |
| Q4.WeightIsPaths | scripts/reference_results.py:264-279 | the summed products are the numbers of joined row pairs |

## Left out
- RabbitMQ, sockets, gateway, client, rates service, container recovery and logging: input and output only.
- JSON, pickle, base64, UTF-8, CSV parsing and hashing: bytes stand for texts, and the CSV parser, the partition hash and the transaction serializer are arbitrary functions.
- Exceptions raised by the file system or the network in the middle of an operation, and damaged files: a worker only stops.
- Liveness: that a group can still finish from every state is proved, not that it does so under fair delivery.
- ABORT packets that a filter sends downstream: one per edge and shard, outside the group's machine.
- Publication order between the data, control and response threads of a worker: group results are about stamped outputs.
- Several upstream end-of-stream messages for one client in a filter group: one is modelled, redelivered at will.
- The flush_order mode of the coordinator, used by other workers.
- The forwarded sum inside PROCESSED_ANSWER and the per-client forwarded counter: reported, never read.
- Dictionary order: loops over dictionaries visit keys in an arbitrary order, except for the splitter's files.
- Other worker loops (sum, aggregator, joiner, ingestor, Q5) and the Q3 barrier log: they repeat the handler and coordinator patterns.
- Floating point: amounts are real numbers; averages and conversions are not modelled.
- Q4 workers: only the reference computation is modelled.
- FileSplitterStates.FileSplitterState.ApplyChange: a change that fails while being applied leaves a sound state that is not described further; a change that was simulated does not fail.
- FileSplitterStates.FileSplitterState.Simulate: serialization of emitted batches is not part of the run, so a batch the serializer would refuse is not an error here.
- Inboxes.Inbox.MarkDone: trackers are values inside the inbox, not objects of their own.
- Sequencing.ParseInvertsOutputId: numbers in ids are runs of ASCII digits; other texts that int() accepts are not modelled.
- FileDelivery.RedeliveryIsHarmless: two paths of a client with the same checksum share a sender id in the system; the model takes one file alone.
- Link.ExactlyOnceLink: the broker hands a message that was returned back before any other (one message in flight per consumer, the default).
- Sequencing.SenderSequencer.Observe: an id whose number is no run of digits is skipped where the system raises; the sequencer never builds one.
- FilterTheorems.EofTotalsAreExact: a single replica closes on the upstream end of stream without comparing totals, so the equality with upstream is stated for two replicas or more.
- FilterCluster.OnCrash: a crash in the middle of a broadcast is covered because the network never has to deliver what was sent.
- Elections.ElectionHandler.BecomeLeader: sending the announcement afterwards is not modelled; monitors get arbitrary messages.
