# Collaboration service: verified model

A Dafny model of the stateful heart of the collaboration service, with proofs over all inputs and all runs. Where workers,
consumers, transactions and requests overlap, runs interleave their statements; where a result holds of operations one after
the other only, it says so, and another says what overlapping does to it. Tables are maps or sequences of rows, a Redis
stream with its consumer group is a small step machine, and the service methods are Dafny methods proved against functions on
the tables they change.

- **Event pipeline.** `Outbox` (rows, leases, backoff, pruning), `OutboxRuns` (any number of workers, interleaved command by
  command, crashing anywhere), `OutboxWorker` (the worker cycle as written, every command a step of that machine with others
  acting in between), `ConsumerGroup` (stream, pending list, acknowledgements and dead letters under any number of
  consumers; one machine with the order of steps of the event bus or of the stricter `RedisStreamConsumer`),
  `ConsumerRetries` (retry bound), `EventConsumers` (both consumers as written, every command interleaved with arbitrary
  activity of others), `StreamFields`, `Notifications`, `Pipeline` (all of it together, end to end) and `AuthDlq`.
- **Board.** `BoardColumns` (column order and its staging through negative positions, one row update at a time),
  `TaskProgress` (progress, finalization gate, replacing subtasks), `DoubleRounding` (progress in doubles), `BoardTasks`
  (the five task operations and the project summary), `BoardRuns` (what serial runs of them keep), `BoardEffects` (when
  they succeed and what they do to a task, the approval clock and the project), `BoardCounterexamples` (serial runs that
  end where an invariant would not), `BoardService` (the operations as the services run them), `BoardOverlaps` (requests
  that overlap) and `OverlapCounterexamples` (what they can break).
- **Time-driven machines.** `CircuitBreaker`, `RateLimiter` and `ProfileCache`, each a class that refines a machine without
  pruning, cleanup or cache.
- **Contracts and numbering.** `Contracts` (contract and amendment life cycle over serial runs), `ContractRules` (who may
  take which step and when), `ContractService` (its operations on the tables), `ContractOverlaps` (requests that overlap),
  `AmendmentNumbers` and `FileVersions` (concurrent transactions).
- **Search.** `LikeSearch`, with the matcher of `LIKE` from section 9.7.1 of the PostgreSQL documentation.
- **Aggregations.** `Assignments`, `StorageTree`, `StorageService` and `StoragePurge`.

## Assumptions

- Streams are not trimmed, and the group of the event bus exists before the first publish
  (src/modules/collab/events/redis-streams.event-bus.ts:107-113 creates it at the end of the stream).
- Each SQL statement and each Redis command takes effect at once. A Redis command may take effect without its reply
  arriving. Such outcomes, crashes, row locks of others and handler results are parameters or arbitrary choices, so the proofs
  hold for all of them.
- Transactions run at the default isolation level of PostgreSQL: a statement sees what is committed when it starts, and
  writers of the same row wait for each other.
- The clock, generated identifiers, the templates, the digest function, case folding and event schemas are parameters.
- Circuit breaker and rate limiter see a clock that never runs backwards.
- Request validation has run: positions are not negative, percentages are percentages, generated identifiers are new.

## What the proofs say about the code

- Moving a column down to an occupied position 0 does not work. Stage and parking value meet at -1, so the statement aborts
  on the migration's unique index (drizzle/0000_daffy_captain_midlands.sql:268). src/db/schema.ts does not declare that index;
  without it the first column stays in front at position -1. Every other move is right (`MoveTaskColumnToPosition`), and
  with another parking value every move would be (`ParkingBelowRepairsTheMove`).
- A task in a final column has no open subtask only below 200 subtasks, since rounded progress decides: with 199 of 200 done
  it is 100. `GateIsExactBelowTwoHundred` is the exact bound; requests are limited to 50 subtasks.
- Blocking and unblocking bypass the gate (`BlockingKeepsGateExactlyWhen`, `UnblockingKeepsGateExactlyWhen`): an open task
  can be unblocked into the done column, and its project counts as completed at 0 percent. The approval-timeout job does not
  refresh the project summary (`TimeoutJobKeepsSummaryExactlyWhen`).
- The approval clock of a task starts when it is moved to the client (`OverdueExactlyWhen`). A task created there has none, so
  every update puts its timeout off (`CreatedWithClientWaitsFromItsLastChange`).
- Requests that overlap can break the board. `updateTask` computes progress, completion and the block patch from what it reads
  before its transaction, and transactions summarize the project without seeing each other: see the four runs in
  `OverlapCounterexamples`, and the exact conditions in `BoardOverlaps`. A commit that finds its task as it was read, and the
  project as it was summarized, is as good as a serial one.
- Contract requests check the status before their transaction and do not look again: a late draft save can undo a signature
  (`LateDraftUndoesASignature`), a late signature request can freeze an old text (`LateRequestFreezesAnOldText`).
- A stream entry whose payload is the JSON `null` makes the event bus throw each time it is reclaimed, and is never
  dead-lettered (`NullEntriesStayPending`).
- The rate limiter's fixed windows admit up to `2 * maxAttempts - 1` requests in an interval of one window, and no more.
- `POWER(2, attempts)` overflows from 1024 attempts on, so marking such a row failed raises an error and the row waits for
  its lease to expire (`Outbox.OutboxTable.MarkFailed`).
- In `RedisStreamConsumer` the acknowledgement after a successful handler is inside the error handling: when it fails at the
  last allowed delivery, a handled event is dead-lettered as well, even one whose acknowledgement took effect
  (`HandledEntryCanBeDeadLettered`).
- The version of a deleted file can be given out again (`DeletedVersionIsReusedExactlyWhen`).
- The project searches do not escape their query (`UnescapedSearchIsLiteralExactlyWhen`).

## Model

| member | source | states |
|---|---|---|
| Pipeline.NoEventIsLost | src/modules/collab/events/redis-streams.event-bus.ts:148-287 | In every reachable state of any number of workers and consumers, with crashes anywhere, a committed event is in an unpublished outbox row, or undelivered in the stream, or pending in the group, or handled, or dead-lettered |
| Pipeline.AtMostOneNotification | src/modules/collab/notification/activity-notification.repository.ts:7-10 | However often an event is published, redelivered or dispatched locally, there is at most one row per event and recipient, and only for committed events |
| Pipeline.NotificationsArePermanent | src/modules/collab/notification/activity-notification.repository.ts:7-10 | No step of the pipeline rewrites or removes a notification |
| Pipeline.AcknowledgedMeansNotified | src/modules/collab/events/redis-streams.event-bus.ts:206-240 | An event that is acknowledged and not dead-lettered was delivered, and everyone resolved at a successful delivery has a row |
| Pipeline.DeliveryRecordsRecipients | src/modules/collab/notification/activity-notification.handler.ts:21-48 | A successful delivery stores a row for everyone the recipient rules resolve from the members at that moment, and these are the people the previous promise is about |
| Pipeline.LocalDispatchNotifies | src/modules/collab/events/redis-streams.event-bus.ts:69-83 | So does the local dispatch of `emit` when its insert succeeds |
| Pipeline.StepKeeps | src/modules/collab/events/redis-streams.event-bus.ts:69-83 | Every step, including the local dispatch of `emit`, keeps the joint invariant of outbox, stream, group and notification table |
| Outbox.BackoffGrowsToItsCap | src/modules/collab/events/collab-outbox.repository.ts:101-120 | The retry delay starts at five seconds, doubles with every retry, never shrinks and is exactly five minutes from the sixth retry on |
| Outbox.OutboxTable.CreateEvent | src/modules/collab/events/collab-outbox.repository.ts:12-29 | The new row can be claimed from now on unless it is locked, and what can be claimed of the other rows, at any time, is what it was |
| Outbox.OutboxTable.ClaimPending | src/modules/collab/events/collab-outbox.repository.ts:31-68 | Claims the oldest claimable unlocked rows up to the limit, oldest first; they get status, token and claim time, all else stays |
| Outbox.OutboxTable.CountPending | src/modules/collab/events/collab-outbox.repository.ts:70-79 | The loop counts the rows that are due or in the hands of a worker |
| Outbox.PendingCoversClaimable | src/modules/collab/events/collab-outbox.repository.ts:70-79 | Whatever can be claimed counts as pending, what counts and cannot be claimed is locked or leased, and a count of zero means every row is published or waits for its retry |
| Outbox.OutboxTable.MarkPublished | src/modules/collab/events/collab-outbox.repository.ts:81-99 | Publishes exactly the given rows that still hold the token, reports those and touches nothing else |
| Outbox.OutboxTable.MarkFailed | src/modules/collab/events/collab-outbox.repository.ts:101-120 | Reschedules the row with backoff only if it still holds the token, counts the attempt and keeps at most 1000 characters of the error; fails exactly when the power expression overflows |
| Outbox.OutboxTable.PrunePublished | src/jobs/prune-collab-outbox.ts:29-53 | Removes only published rows at least as old as the retention in days, reports how many, and leaves none of them except those locked during the last batch |
| OutboxRuns.StepKeeps | src/modules/collab/events/collab-outbox.repository.ts:31-120 | Every interleaved worker step keeps leases well formed, makes the latest claim the holder and keeps every report backed by a stream copy |
| OutboxRuns.CommittedEventsCanBeClaimed | src/modules/collab/events/collab-outbox.repository.ts:12-29 | A committed event can be claimed from its commit on, with the payload committed |
| OutboxRuns.NothingLeavesTheOutboxUnpublished | src/modules/collab/events/collab-outbox.repository.ts:31-120 | In every reachable state a row is processing exactly when token and claim time are set, and a published or pruned row has a stream copy carrying its payload |
| OutboxRuns.TakenOverWorkerIsFenced | src/modules/collab/events/collab-outbox.repository.ts:81-120 | A worker whose lease on a row was taken over changes nothing in that row when it later marks it published or failed |
| OutboxRuns.CopiesNeverExceedClaims | src/jobs/run-collab-outbox.ts:30-48 | The stream holds at most one copy of a row per claim of it |
| OutboxRuns.UnpublishedRowsStayClaimable | src/modules/collab/events/collab-outbox.repository.ts:31-68 | Whatever happened to its workers, an unpublished row can be claimed once its lease is over, or its delay if it has none, and is only passed over for older rows |
| OutboxRuns.OnlyDueRowsAreClaimed | src/modules/collab/events/collab-outbox.repository.ts:31-68 | In every reachable state a claim gets no row that is locked, published, waiting for its retry, or under a lease that is not over |
| OutboxRuns.ClaimsAreATimeoutApart | src/modules/collab/events/collab-outbox.repository.ts:31-68 | Over every run: as long as the worker that claimed a row has not marked it, the next claim of the row comes at least a timeout later |
| OutboxRuns.RetriesWaitForTheBackoff | src/modules/collab/events/collab-outbox.repository.ts:101-120 | Over every run: after a failed attempt the next claim of the row comes no earlier than the backoff of that attempt |
| OutboxRuns.AttemptsAreFailures | src/modules/collab/events/collab-outbox.repository.ts:101-120 | In every reachable state a row's attempts number the marks by its holder that failed it |
| OutboxWorker.Pipeline | src/jobs/run-collab-outbox.ts:30-48 | Others act between any two XADDs; what becomes of each is a parameter. Every command that reaches Redis has its copy in the stream under its own number, in order and without a throw all of them; reported are exactly those answered, and none when the pipeline throws |
| OutboxWorker.OthersKeepRows | src/modules/collab/events/collab-outbox.repository.ts:31-120 | No step of anybody else changes a row of a cycle, except to claim it anew or to prune it when published |
| OutboxWorker.SharedOutbox.MarkPublished | src/modules/collab/events/collab-outbox.repository.ts:81-99 | The statement is the machine's step in whatever state it finds: it publishes the reported rows still held, and a row claimed by a later cycle stays exactly as it is |
| OutboxWorker.SharedOutbox.MarkFailed | src/modules/collab/events/collab-outbox.repository.ts:101-120 | The same for the failure of one row |
| OutboxWorker.ConfirmBatch | src/jobs/run-collab-outbox.ts:50-101 | With all statements under way together, in any order and among those of others: each row that was marked ends as its report says or was claimed by a later cycle, and exactly the rows still held are counted; an overflow may reject with other marks still under way |
| OutboxWorker.RunCollabOutbox | src/jobs/run-collab-outbox.ts:11-105 | One whole cycle against any activity of others is a run of the interleaved machine; it says which rows are claimed, that each payload that reached Redis is in the stream, that exactly the answered ones are reported, how each row ends unless a later cycle has claimed it, what the three counts are, and which marks a rejection leaves under way |
| ConsumerGroup.NoEntryIsLost | cima-contracts/src/event-consumer.ts:193-385 | For both consumers: each entry is undelivered, pending, or settled; acknowledged events were handled or dead-lettered |
| ConsumerGroup.AcksOnlySettledEntries | cima-contracts/src/event-consumer.ts:248-339 | The only step that takes an entry off the pending list is an XACK that takes effect, by the consumer at work on it, and the entry is settled by then |
| ConsumerGroup.StepKeeps | src/modules/collab/events/redis-streams.event-bus.ts:148-287 | Every command of every consumer, with or without its reply, keeps the invariant; nothing handled, dead-lettered or acknowledged is undone, and delivery counts never fall |
| ConsumerGroup.HandledEntryCanBeDeadLettered | cima-contracts/src/event-consumer.ts:317-337 | A run of the strict consumer ends with an entry that is handled, acknowledged and dead-lettered: the reply to its acknowledgement was lost |
| ConsumerGroup.NullEntriesStayPending | src/modules/collab/events/redis-streams.event-bus.ts:215-231 | On the event bus a JSON `null` is never handled, dead-lettered or acknowledged; once delivered it is pending for good, and a consumer that comes to it can only lose its batch |
| ConsumerRetries.HandlerRunsAreBounded | cima-contracts/src/event-consumer.ts:315-337 | With one consumer, no crash and no failed lookup, the handler runs at most `maxRetries` times per entry, plus once for every acknowledgement of it without effect and every dead-letter write of it without a reply |
| ConsumerRetries.HandlerBoundIsReached | src/modules/collab/events/redis-streams.event-bus.ts:230-239 | For every `maxRetries` and every number of such faults, some run of the event bus reaches the bound |
| ConsumerRetries.RunsWithinAllowance | src/modules/collab/events/redis-streams.event-bus.ts:206-240 | Along any such run, handler runs are paid for by the allowance an entry's delivery count leaves |
| EventConsumers.ProcessMessagesStrict | cima-contracts/src/event-consumer.ts:248-339 | The handlers of every event worked on run once, in order; each message is acknowledged or left, and left are only events whose handlers failed or whose acknowledgement was not answered, below the retry limit or with an unreadable count; a throw needs an unanswered command, and this consumer has acknowledged nothing behind it |
| EventConsumers.ProcessStrict | cima-contracts/src/event-consumer.ts:252-337 | One message of the strict consumer is a run of the group machine from a fresh head to the outcome reported |
| EventConsumers.DeliverStrict | cima-contracts/src/event-consumer.ts:315-337 | The decision by verdict and count: left exactly below the limit, dead-lettered when non-retryable or exhausted; the count is the entry's deliveries when its lookup succeeds, else one; others act before every command |
| EventConsumers.AckHandled | cima-contracts/src/event-consumer.ts:317-337 | An acknowledgement without a reply takes the error path: the entry is left while retries remain and dead-lettered otherwise |
| EventConsumers.SendToDlqAndAck | cima-contracts/src/event-consumer.ts:329-384 | An entry acknowledged here is in the dead-letter queue; a write without a reply throws and acknowledges nothing |
| EventConsumers.PollStrict | cima-contracts/src/event-consumer.ts:193-246 | A round claims once and reads once; both batches, if their replies arrive, are worked off as promised for batches, the new one holds the next entries in line, and failures while reclaiming are swallowed |
| EventConsumers.ProcessBus | src/modules/collab/events/redis-streams.event-bus.ts:206-240 | One message of the event bus is a run of the group machine to the outcome reported; it is left only when a retry is due |
| EventConsumers.DeliverBus | src/modules/collab/events/redis-streams.event-bus.ts:230-239 | Delivered events are acknowledged, others left exactly below the limit and dead-lettered from it on, by the delivery count or one when it cannot be read |
| EventConsumers.ProcessMessagesBus | src/modules/collab/events/redis-streams.event-bus.ts:206-212 | The same promise as for the strict consumer's batch; a throw may also come from a JSON `null` |
| EventConsumers.XAutoClaim | src/modules/collab/events/redis-streams.event-bus.ts:186-204 | Claimed entries were pending from the cursor on, stay pending, belong to the claimer and count one more delivery; a lost reply leaves them claimed and unread |
| EventConsumers.XReadGroup | src/modules/collab/events/redis-streams.event-bus.ts:148-178 | Delivers the next undelivered entries, in order, as many as there are up to the batch size; a lost reply leaves them delivered and unread |
| EventConsumers.RecoverPendingMessages | src/modules/collab/events/redis-streams.event-bus.ts:186-204 | The claims follow the cursor from the start, each batch is worked off before the next claim, and without a throw it ends only on an empty claim, a cursor that stands still, or when the bus is stopped |
| EventConsumers.PollBus | src/modules/collab/events/redis-streams.event-bus.ts:148-178 | A round recovers as above and then reads; the batch read holds the next entries in line and is worked off as promised for batches; a throw needs an unanswered command or a JSON `null`, and one while recovering skips the read |
| StreamFields.ParseStreamFields | cima-contracts/src/event-consumer.ts:400-406 | The loop computes the map of the field list |
| StreamFields.FieldMapReadsLastPair | cima-contracts/src/event-consumer.ts:400-406 | A key is found exactly when a pair has it, and then with the value of its last pair; a trailing lone key is ignored |
| StreamFields.PublishedEntriesAreRecognised | src/modules/collab/events/redis-streams.event-bus.ts:215-231 | What workers publish and what shutdown sends is recognised as event and as sentinel by both consumers |
| StreamFields.EventsAre | cima-contracts/src/event-consumer.ts:252-337 | Which field lists each consumer takes for an event: the reusable one goes by the last `payload` pair and the sentinel, the bus by whatever follows the first field that reads `payload` |
| Notifications.ResolveRecipients | src/modules/collab/notification/activity-notification.handler.ts:55-75 | Exactly the members the visibility rules admit: named recipients, or everyone the channel allows, without the actor and the excluded |
| Notifications.RecipientsExactly | src/modules/collab/notification/activity-notification.handler.ts:50-75 | Who is notified: with names given exactly the members named, otherwise for external activity everybody and for internal activity everybody but the clients, never the actor or an excluded person; each row carries the event's own data |
| Notifications.InternalActivityStaysInternal | src/modules/collab/notification/activity-notification.handler.ts:62-74 | Internal activity without named recipients notifies no client and not the actor |
| Notifications.InsertKeepsOneRowPerKey | src/db/schema.ts:351 | The insert that ignores conflicts keeps the index unique, keeps every earlier row, and afterwards every key asked for is there |
| Notifications.ReinsertIsNoOp | src/modules/collab/notification/activity-notification.repository.ts:7-10 | Inserting keys that are all there changes nothing |
| Notifications.NotificationTable.Create | src/modules/collab/notification/activity-notification.repository.ts:7-10 | Appends exactly the rows that do not conflict and returns them |
| Notifications.PersistActivityNotification | src/modules/collab/notification/activity-notification.handler.ts:21-48 | Inserts one row per resolved recipient, ignoring those already notified |
| AuthDlq.EntriesReadBack | src/modules/collab/events/auth-events-dlq.ts:140-165 | Reading an entry gives back the record that was written, exactly so unless an optional text is empty, and it goes back to the stream it came from |
| AuthDlq.ForeignEntryReadsAsDefaults | src/modules/collab/events/auth-events-dlq.ts:140-165 | An entry without any of the fields reads as the defaults |
| AuthDlq.Queues.AppendAuthEventToDlq | src/modules/collab/events/auth-events-dlq.ts:31-79 | A reported entry is in the queue with the record's fields; one that was not reported may be |
| AuthDlq.Queues.Find | src/modules/collab/events/auth-events-dlq.ts:96-130 | Finds an entry exactly when there is one |
| AuthDlq.Queues.ReplayAuthEventDlqEntry | src/modules/collab/events/auth-events-dlq.ts:96-130 | For every fate of its two commands: the result, and the queue changes only by this entry's removal and only with its payload back in its stream; a missing entry or payload changes nothing |
| AuthDlq.Queues.AutoReplay | src/modules/collab/events/auth-events-dlq.ts:170-201 | Whatever fails in a round, each entry is still queued or its payload is back in its stream; those of the newest with a payload whose commands succeed are gone from the queue, and entries without a payload stay |
| BoardColumns.EveryPrefixKeepsTheIndex | drizzle/0000_daffy_captain_midlands.sql:268 | After every single row update of a statement, in whatever order the rows come, positions of a project stay distinct |
| BoardColumns.ColumnTable.Update | drizzle/0000_daffy_captain_midlands.sql:268 | A statement takes full effect or none; safe shifts always succeed and clashing ones always fail under the index |
| BoardColumns.ColumnTable.CreateTaskColumnAtPosition | src/modules/collab/board/board-column.repository.ts:13-38 | Always succeeds; columns at or behind the position move back by one, the new one takes it |
| BoardColumns.ColumnTable.MoveTaskColumnToPosition | src/modules/collab/board/board-column.repository.ts:77-134 | With the index or without it, the move succeeds with the intended board if and only if it is not a move down to an occupied position 0; then it aborts unchanged under the index and strands the first column without it |
| BoardColumns.ColumnTable.MoveUp | src/modules/collab/board/board-column.repository.ts:88-108 | Staging and restore bring the columns passed over one position down |
| BoardColumns.ColumnTable.MoveDown | src/modules/collab/board/board-column.repository.ts:109-128 | Staging and restore bring the columns passed over one position up, unless one of them meets the parked column |
| BoardColumns.CreateInsertsIntoTheList | src/modules/collab/board/board-column.repository.ts:13-38 | In board order, creation is insertion into the list where the position falls, for gapped positions too |
| BoardColumns.CreateKeepsBoards | src/modules/collab/board/board-column.repository.ts:13-38 | Creation keeps positions distinct and non-negative and leaves other projects alone |
| BoardColumns.MoveIsRemoveThenInsert | src/modules/collab/board/board-column.repository.ts:77-134 | In board order, a move takes the column out of the list and inserts it where the target falls among the others |
| BoardColumns.MoveKeepsBoards | src/modules/collab/board/board-column.repository.ts:77-134 | A move keeps positions distinct and non-negative and leaves other projects alone |
| BoardColumns.PositionIsIndexWithoutGaps | src/modules/collab/board/board-column.repository.ts:77-134 | On a board without gaps the target position is the target index |
| BoardColumns.OrderIsUnique | src/modules/collab/board/board-column.repository.ts:77-134 | A board has exactly one order, so the two list results say where every column ends |
| BoardColumns.StrandedColumnStaysFirst | src/modules/collab/board/board-column.repository.ts:109-128 | At target 0 without the index the moved column ends second, behind a column left at position -1 |
| BoardColumns.SecondCannotBecomeFirst | src/modules/collab/board/board-column.repository.ts:109-128 | Two columns created one after the other: what moving the second to the front should give and what it leaves |
| BoardColumns.ParkingBelowRepairsTheMove | src/modules/collab/board/board-column.repository.ts:77-134 | With the column parked below every staged position, no statement can fail and the move gives the intended board for every target |
| TaskProgress.ProgressIsMonotone | src/modules/collab/domain/project-aggregate.ts:37-46 | Derived progress is a percentage and never falls when a subtask is completed |
| TaskProgress.ProgressIsNearest | src/modules/collab/domain/project-aggregate.ts:37-46 | Derived progress is the percentage of completed subtasks rounded to the nearest whole number, halves upwards |
| TaskProgress.FullProgressExactly | src/modules/collab/domain/project-aggregate.ts:37-46 | Rounded progress is 100 if and only if at most one in two hundred subtasks is open |
| TaskProgress.GateIsExactBelowTwoHundred | src/modules/collab/domain/project-aggregate.ts:37-46 | "Progress 100 means all complete" holds of a task of a given size if and only if it has fewer than 200 subtasks |
| TaskProgress.GateHolds | src/modules/collab/board/board-task-progress.ts:11-36 | Fails exactly for a final column with unfinished rounded progress; otherwise completion time and final column go together, a final task is at 100 and an earlier completion time survives; without subtasks elsewhere the progress given is kept, but 100 becomes 0 |
| DoubleRounding.GateIsTheSameInDoubles | src/modules/collab/domain/project-aggregate.ts:37-46 | Computed in doubles, progress is 100 exactly when at most one in two hundred subtasks is open, so the gate decides alike |
| DoubleRounding.DoublesDifferOnlyAtTies | src/modules/collab/domain/project-aggregate.ts:37-46 | Computed in doubles, progress is the exact one, except where the exact quotient is a half and it may be one lower |
| TaskProgress.UpsertReplacesTheSet | src/modules/collab/board/board-subtask.repository.ts:25-82 | After an accepted replacement the task has one row per input, known ids are kept and overwritten, dropped ones are gone, other tasks are untouched |
| TaskProgress.InsertedRows | src/modules/collab/board/board-subtask.repository.ts:25-82 | Which rows the insert loop has stored after each input, under which ids |
| TaskProgress.InsertedCounts | src/modules/collab/board/board-subtask.repository.ts:25-82 | Stored and completed rows number as many as inputs and completed inputs |
| BoardTasks.ReasonIsNonBlank | src/modules/collab/board/board-task-patches.ts:22-26 | A task moved to the blocked column never gets a blank reason |
| BoardRuns.DerivedProgressStaysTrue | src/modules/collab/board/board-task.service.ts:147-262 | Over every run of create, update, block, unblock and timeout, one after the other, a task with stored subtasks shows the progress computed from them |
| BoardRuns.StepKeepsDerived | src/modules/collab/board/board-task.service.ts:32-114 | Each of the five operations keeps it, failed ones too |
| BoardRuns.SkippingTheRefreshIsSound | src/modules/collab/board/board-task.service.ts:227-262 | An update of neither column, progress nor subtasks leaves the project aggregate as it was |
| BoardRuns.SummaryStaysExact | src/modules/collab/project/project.repository.ts:25-65 | Over every run of the four request operations, one after the other, the stored summary is the aggregate of the stored tasks |
| BoardRuns.AverageBounds | src/modules/collab/project/project.repository.ts:25-65 | The project progress lies between the lowest and the highest task score |
| BoardRuns.AggregateIsPercentage | src/modules/collab/project/project.repository.ts:25-65 | The project progress is always between 0 and 100 |
| BoardRuns.TimeoutJobKeepsSummaryExactlyWhen | src/jobs/check-approval-sla.ts:24-51 | The timeout job keeps the summary exact if and only if it moves nothing, or a task stays in review and the points lost vanish in the rounding |
| BoardCounterexamples.TimeoutJobCanLeaveSummaryStale | src/jobs/check-approval-sla.ts:24-51 | A run of valid operations from an empty board after which the project shows 75 percent in review and is at 10 percent in progress |
| BoardRuns.WrittenTaskIsGated | src/modules/collab/board/board-task.service.ts:181-262 | Whatever state a task was in, a successful creation or update leaves it gated and the other tasks alone |
| BoardRuns.GateStaysShut | src/modules/collab/board/board-task-progress.ts:11-36 | Over runs of creations, updates and timeouts, one after the other, completion time is set exactly in a final column, and a final task is at 100 |
| BoardRuns.SlaKeepsGated | src/jobs/check-approval-sla.ts:24-51 | The timeout job moves tasks between columns that are not final, so it keeps the gate |
| BoardRuns.FinalTaskHasNoOpenSubtask | src/modules/collab/board/board-task-progress.ts:11-36 | A gated final task with fewer than 200 stored subtasks has all of them completed |
| BoardRuns.BlockingKeepsGateExactlyWhen | src/modules/collab/board/board-task-blocking.service.ts:51-57 | Blocking bypasses the gate and keeps it if and only if the task was not completed |
| BoardCounterexamples.CompletedTaskCanBeBlocked | src/modules/collab/board/board-task-blocking.service.ts:51-57 | A run from an empty board to a blocked task that still has its completion time |
| BoardRuns.UnblockingKeepsGateExactlyWhen | src/modules/collab/board/board-task-blocking.service.ts:144-151 | Unblocking keeps it if and only if the target is final and the task completed at 100, or neither |
| BoardCounterexamples.UnfinishedTaskCanBeUnblockedIntoDone | src/modules/collab/board/board-task-blocking.service.ts:144-151 | A run from an empty board to a done task with an open subtask, in a project that counts as completed at 0 percent |
| BoardRuns.CompletedProjectIsAtHundred | src/modules/collab/project/project.repository.ts:27-60 | A synced project that counts as completed is at 100, and all its tasks are done with a completion time |
| BoardRuns.BlockDataStaysConsistent | src/modules/collab/board/board-task-patches.ts:15-43 | Over every run of the five operations, one after the other, the block fields are null outside the blocked column, and a task moved in keeps reason, type and time until it leaves |
| BoardRuns.PatchedBlockData | src/modules/collab/board/board-task-patches.ts:15-43 | What a column change does to the block fields of any task |
| BoardRuns.CreatedBlockedTaskHasNoBlockData | src/modules/collab/board/board-task.service.ts:57-70 | A task created in the blocked column has no block data, so entering by a move is needed above |
| BoardRuns.EmptyBoardIsInOrder | src/modules/collab/project/project.repository.ts:25-65 | A new project meets every invariant the runs start from |
| BoardEffects.CreateSucceedsExactlyWhen | src/modules/collab/board/board-task.service.ts:32-114 | A creation succeeds if and only if its column is there and admits it and its subtasks are its own; what the row then says |
| BoardEffects.UpdateSucceedsExactlyWhen | src/modules/collab/board/board-task.service.ts:147-186 | An update succeeds if and only if task and columns are there, the new column admits the task with the subtasks it then has, and those given are its own |
| BoardEffects.MoveSucceedsExactlyWhen | src/modules/collab/board/board-task-blocking.service.ts:28-151 | When blocking and unblocking succeed, and to which column an unblocked task goes |
| BoardEffects.UpdateStoresProgress | src/modules/collab/board/board-task-progress.ts:13-23 | Outside a final column a task without subtasks keeps its progress unless the update names one, which is then stored; 100 becomes 0 |
| BoardEffects.CreateStoresProgress | src/modules/collab/board/board-task-progress.ts:13-23 | Such a task is created with the progress given, unless that is 100 |
| BoardEffects.UpdateRecordsTheCause | src/modules/collab/board/board-task-patches.ts:15-43 | Into the blocked column: reason, type, time and person are recorded; within it only what is given changes; out of it all four go; elsewhere they stay |
| BoardEffects.MovesKeepTheWork | src/modules/collab/board/board-task-blocking.service.ts:51-151 | Blocking, unblocking and the timeout change where a task stands and why, not its title, progress or completion, and no other task |
| BoardEffects.UpdateChangesWhatItNames | src/modules/collab/board/board-task.service.ts:226-241 | Title, column and visibility change exactly as named, and going to the client makes a task visible |
| BoardEffects.ApprovalStarts | src/modules/collab/board/board-task-patches.ts:39-41 | A move or an unblocking to the client starts the approval clock |
| BoardEffects.OverdueExactlyWhen | src/jobs/check-approval-sla.ts:36-37 | Over every run in which a task stays with the client, whatever else happens, it is overdue from exactly one timeout after it went there |
| BoardEffects.CreatedWithClientWaitsFromItsLastChange | src/jobs/check-approval-sla.ts:36-37 | The clock of a task created with the client starts anew with every update |
| BoardEffects.StatusExactly | src/modules/collab/project/project.repository.ts:51-56 | The project status by its meaning: all tasks done, one with the client, all pending, or in progress |
| BoardEffects.AverageIsNearest | src/modules/collab/project/project.repository.ts:32-44 | The project progress is the average of the scores rounded to the nearest whole number, halves upwards |
| BoardEffects.OneColumnProject | src/modules/collab/project/project.repository.ts:27-56 | What a project shows whose tasks stand in one column without subtasks, for each column |
| BoardEffects.SubtasksDecideTheScore | src/modules/collab/project/project.repository.ts:33-35 | A task with subtasks contributes the progress of its subtasks, wherever it stands |
| BoardEffects.RequestsRefreshTheSummary | src/modules/collab/project/project.repository.ts:25-65 | Creations, moves and updates of column, progress or subtasks leave the project with the summary of its tasks, whatever it showed before |
| BoardService.ProjectBoard.ReplaceSubtasks | src/modules/collab/board/board-subtask.repository.ts:25-82 | Deletes and writes rows to the specified set, or fails for the specified reason and leaves all rows |
| BoardService.ProjectBoard.SyncProjectStatusAndProgress | src/modules/collab/project/project.repository.ts:25-65 | The counted and averaged status and progress are the specified aggregate |
| BoardService.ProjectBoard.CheckClientApprovalSla | src/jobs/check-approval-sla.ts:24-90 | Of one project, moves overdue unlocked tasks up to what the other projects leave of the limit, all of them when that is enough, and reports each once |
| BoardService.ProjectBoard.CommitUpdate | src/modules/collab/board/board-task.service.ts:212-262 | The transaction of an update writes what was computed from the read to the rows as they are by then, and refreshes the summary when asked, or rolls back |
| BoardService.ProjectBoard.Perform | src/modules/collab/board/board-task.service.ts:32-262 | Each of the five operations, when nothing comes between its statements, ends in the state of the board machine's step or is rolled back |
| BoardTasks.UpdateIsReadThenWrite | src/modules/collab/board/board-task.service.ts:153-262 | An update that nothing comes between is its read and its late write |
| BoardOverlaps.UndisturbedRunsAreSerial | src/modules/collab/board/board-task.service.ts:147-262 | However requests overlap, reading before their transactions and summarizing before they commit: if each commits on a board on which it would read and summarize the same, the board is one that the operations reach one after the other, in the order of their commits |
| BoardOverlaps.SerialIsARun | src/modules/collab/board/board-task.service.ts:147-262 | Every operation that nothing comes between is among the overlapping runs |
| BoardOverlaps.LateWriteKeepsDerivedExactlyWhen | src/modules/collab/board/board-task.service.ts:181-246 | A late write keeps derived progress if and only if the update brings its own subtasks or the progress computed from the read is still that of the stored ones |
| BoardOverlaps.LateWriteKeepsGateExactlyWhen | src/modules/collab/board/board-task.service.ts:181-241 | A late write leaves its task gated if and only if the update names a column or the task's column is final now exactly when it was when read |
| BoardOverlaps.LateWriteKeepsBlockDataExactlyWhen | src/modules/collab/board/board-task.service.ts:188-241 | A late write keeps the block data consistent if and only if column, block data and patch fit as listed, case by case |
| BoardOverlaps.UnchangedTaskKeepsEverything | src/modules/collab/board/board-task.service.ts:153-246 | It keeps all three when task and subtasks are as they were read |
| BoardOverlaps.CompletionMeansHundred | src/modules/collab/board/board-task-progress.ts:11-36 | Over every overlapping run of all five operations, progress of tasks and project is a percentage and a task with a completion time is at 100 |
| BoardOverlaps.EmptyBoardIsBounded | src/modules/collab/project/project.repository.ts:25-65 | A new project with no request open satisfies what CompletionMeansHundred starts from |
| OverlapCounterexamples.RenameCanOverwriteProgress | src/modules/collab/board/board-task.service.ts:153-241 | A run from an empty board: a rename that read an open subtask sets the progress of a finished checklist back to 0 |
| OverlapCounterexamples.MoveCanFinishAnOpenTask | src/modules/collab/board/board-task.service.ts:153-241 | A run from an empty board to a done task at 100 with a completion time and an open subtask |
| OverlapCounterexamples.MoveCanKeepBlockData | src/modules/collab/board/board-task.service.ts:188-241 | A run from an empty board to a task outside the blocked column with its block data |
| OverlapCounterexamples.CrossingSummariesGoStale | src/modules/collab/project/project.repository.ts:25-65 | A run from an empty board: two creations summarize before either commits, and the project counts as completed with a task pending |
| CircuitBreaker.OpenRefusesUntilCooldown | src/shared/circuit-breaker.ts:26-38 | From opening until the cooldown ends every check is refused and nothing recorded meanwhile has an effect |
| CircuitBreaker.CooldownEndsInProbe | src/shared/circuit-breaker.ts:26-38 | The first check from the end of the cooldown on is let through, as a probe; outside of a cooldown every check is let through and changes nothing |
| CircuitBreaker.LeavingClosedExactlyWhen | src/shared/circuit-breaker.ts:71-82 | A closed breaker leaves that state if and only if a failure meets a bad window |
| CircuitBreaker.ClosedRunsRecordEverything | src/shared/circuit-breaker.ts:40-57 | Over every run that stays closed the breaker has recorded all failures and all successes of the run, in order |
| CircuitBreaker.OpensExactlyWhen | src/shared/circuit-breaker.ts:40-82 | Over every run since the breaker was new or last closed: one more event opens it if and only if it is a failure and the events of the window are bad, counted in the run itself |
| CircuitBreaker.OpensOnlyOnABadWindow | src/shared/circuit-breaker.ts:71-82 | Every run that leaves the closed state met, while closed, a failure in a window that was bad by the events of the run, opened there and at no bad failure before |
| CircuitBreaker.TripsExactlyWhen | src/shared/circuit-breaker.ts:71-82 | A bad window has at least `minRequests` outcomes and a failure share at or above the threshold, stated without division |
| DoubleRounding.HalfIsExactInDoubles | src/shared/circuit-breaker.ts:71-82 | Computed in doubles, the rate reaches the threshold of one half exactly when the exact rate does |
| CircuitBreaker.ProbeDecides | src/shared/circuit-breaker.ts:40-57 | A successful probe closes with a clean slate, a failed one reopens for a full cooldown |
| CircuitBreaker.PruningAgrees | src/shared/circuit-breaker.ts:65-69 | Pruned lists keep agreeing with the full log from the window's start on |
| CircuitBreaker.SimpleCircuitBreaker.CleanOldMetrics | src/shared/circuit-breaker.ts:65-69 | Keeps exactly the outcomes later than the window's start |
| CircuitBreaker.SimpleCircuitBreaker.CheckCall | src/shared/circuit-breaker.ts:26-38 | Decides as the machine over the full unpruned log does |
| CircuitBreaker.SimpleCircuitBreaker.RecordSuccess | src/shared/circuit-breaker.ts:40-49 | Changes state as the machine over the full unpruned log does |
| CircuitBreaker.SimpleCircuitBreaker.RecordFailure | src/shared/circuit-breaker.ts:51-57 | Changes state as the machine over the full unpruned log does |
| CircuitBreaker.SimpleCircuitBreaker.CheckFailureRate | src/shared/circuit-breaker.ts:71-82 | Opens exactly a half-open breaker or a closed one whose full log has a bad window |
| RateLimiter.MemoryLimiter.CleanupExpired | src/shared/middlewares/rate-limit.middleware.ts:22-30 | Removes expired records only, and all of them once the interval has passed |
| RateLimiter.MemoryLimiter.CheckMemoryLimit | src/shared/middlewares/rate-limit.middleware.ts:32-47 | Decides as a bucket that is never cleaned up would, and leaves the other buckets alone |
| RateLimiter.SlidingBound | src/shared/middlewares/rate-limit.middleware.ts:32-47 | Any half-open interval of one window length admits at most `2 * maxAttempts - 1` requests of a bucket |
| RateLimiter.SlidingBoundIsReached | src/shared/middlewares/rate-limit.middleware.ts:32-47 | For every limit and every window of at least two milliseconds some request sequence reaches that bound |
| RateLimiter.FixedWindowBound | src/shared/middlewares/rate-limit.middleware.ts:32-47 | A window, counted from the request that opens it, admits at most `maxAttempts` |
| RateLimiter.AdmissionsFitTheRoom | src/shared/middlewares/rate-limit.middleware.ts:32-47 | From any record on, admissions in an interval fit the room the record leaves in it |
| ProfileCache.WantedIsEachSubjectOnce | src/shared/identity-snapshot-store.ts:81-89 | A lookup asks for every non-empty subject once, in order of first mention |
| ProfileCache.IdentityStore.PurgeExpiredProfileCache | src/shared/identity-snapshot-store.ts:65-71 | Drops exactly the expired entries |
| ProfileCache.IdentityStore.FromCache | src/shared/identity-snapshot-store.ts:91-102 | What it answers is what the table holds; what it does not answer is left as missing, in order |
| ProfileCache.IdentityStore.FromTable | src/shared/identity-snapshot-store.ts:108-121 | Completes the answer to the table restricted to cached and fetched subjects |
| ProfileCache.IdentityStore.GetUserProfilesFromSnapshots | src/shared/identity-snapshot-store.ts:81-127 | Returns exactly the table restricted to the subjects asked for, whatever the cache holds, with the missing ones exactly the rest; an unreadable table is reported and never invents a profile; the replica counts as unavailable exactly when it fails and the cache does not answer for everybody; every row fetched is cached for five minutes |
| ProfileCache.IdentityStore.UpsertUserIdentitySnapshot | src/shared/identity-snapshot-store.ts:134-169 | Writes the row and then the cache, or neither |
| ProfileCache.IdentityStore.DeleteUserIdentitySnapshot | src/shared/identity-snapshot-store.ts:171-176 | Drops the cache entry in any case and the row when the table is writable |
| ProfileCache.IdentityStore.AnonymizeUserPII | src/shared/identity-snapshot-store.ts:178-217 | In one transaction removes the snapshot and replaces the subject's e-mail in every stamped table; nobody else's row changes |
| Contracts.ContractOnlyAdvances | src/modules/collab/contract/contract.service.ts:51-182 | Over every run of operations one after the other a contract's status only advances, a pending one keeps terms, text and digest, and a signed one never changes |
| Contracts.SignedTextIsTheRequestedText | src/modules/collab/contract/contract.service.ts:120-142 | Over such runs a frozen text is the template applied to the terms stored and the project name at the signature request, and terms, text and digest are still the same |
| Contracts.OnlyTheClientSigns | src/modules/collab/contract/contract.service.ts:144-174 | A contract becomes signed only by a client member of the active project, under his own name |
| ContractRules.DraftIsSavedExactlyWhen | src/modules/collab/contract/contract.service.ts:51-118 | A draft is saved if and only if an administrator saves it while there is no contract or a draft, and what it then holds |
| ContractRules.StoredTermsSayTheSame | src/modules/collab/contract/contract.service.ts:66-88 | The terms stored are those given, each optional text trimmed or, when it says nothing, absent |
| ContractRules.SignatureIsRequestedExactlyWhen | src/modules/collab/contract/contract.service.ts:120-142 | The same for requesting the signature |
| ContractRules.ContractIsSignedExactlyWhen | src/modules/collab/contract/contract.service.ts:144-190 | The same for signing |
| ContractRules.ContractIsShownExactlyWhen | src/modules/collab/contract/contract.service.ts:37-49 | The contract is shown to everybody who may enter the project, a stored text as it is |
| ContractRules.DraftCanBeSigned | src/modules/collab/contract/contract.service.ts:120-190 | From any draft in a project with a client, request and signature complete the life cycle |
| ContractRules.AmendmentIsDraftedExactlyWhen | src/modules/collab/contract/amendment.service.ts:35-79 | When an amendment is drafted, by whom, and with which number and terms |
| ContractRules.AmendmentIsAskedForExactlyWhen | src/modules/collab/contract/amendment.service.ts:81-123 | The same for one a member asks for |
| ContractRules.AmendmentSignatureIsRequestedExactlyWhen | src/modules/collab/contract/amendment.service.ts:125-164 | The same for requesting its signature |
| ContractRules.AmendmentIsSignedExactlyWhen | src/modules/collab/contract/amendment.service.ts:166-204 | The same for signing it |
| Contracts.ShownTextIsTheSignedText | src/modules/collab/contract/contract.service.ts:37-49 | The text a client is shown is the text that signing stores, even for a row without one |
| Contracts.AmendmentsBelongToSignedContracts | src/modules/collab/contract/amendment.service.ts:35-79 | Over such runs every amendment belongs to the signed contract of its project; it has a text unless it is a draft, and its digest matches |
| Contracts.AmendmentOnlyAdvances | src/modules/collab/contract/amendment.service.ts:35-203 | Over such runs an amendment's status only advances and a signed one never changes |
| Contracts.FrozenAmendmentIsTheRequestedText | src/modules/collab/contract/amendment.service.ts:125-164 | Over such runs a frozen amendment is the template applied to its terms, its contract and the project name at its signature request |
| Contracts.StepKeeps | src/modules/collab/contract/contract.repository.ts:19-72 | Every operation, refused or not, keeps the joint invariant of contracts and amendments |
| ContractService.ContractTables.PerformAll | src/modules/collab/contract/contract.service.ts:51-182 | Any sequence of the seven operations, one after the other, and of project changes is a run of the life cycle |
| ContractOverlaps.UndisturbedRunsAreSerial | src/modules/collab/contract/contract.service.ts:51-182 | However requests overlap, checking their guards before their transactions: if each commits on tables on which it would plan the same, the tables are those of a run of the life cycle, in the order of the commits |
| ContractOverlaps.LateWriteKeepsContractExactlyWhen | src/modules/collab/contract/contract.repository.ts:19-72 | A late write keeps a contract within its life cycle if and only if a draft overwrites a draft, a text is frozen on a draft or again as it is, and a signature finds no other one and no other text |
| ContractOverlaps.DigestsAlwaysMatch | src/modules/collab/contract/contract.repository.ts:19-72 | Over every overlapping run the digest of each contract and amendment is that of its text |
| ContractOverlaps.LateRequestFreezesAnOldText | src/modules/collab/contract/contract.service.ts:120-142 | A run in which a draft saved between the guards and the update leaves a contract up for signature with a text that is not that of its terms |
| ContractOverlaps.LateDraftUndoesASignature | src/modules/collab/contract/contract.service.ts:51-118 | A run in which a draft save that passed its guards earlier turns a signed contract into an unsigned draft |
| ContractService.ContractTables.GetNextAmendmentNumber | src/modules/collab/contract/contract.repository.ts:99-107 | One more than the highest number among the contract's amendments |
| AmendmentNumbers.NumbersAreGapless | src/modules/collab/contract/contract.repository.ts:99-117 | Over every interleaving of any number of transactions the live numbers of a contract are exactly 1..n |
| AmendmentNumbers.RefusedExactlyWhenOvertaken | src/db/schema.ts:588 | The unique index refuses an insert if and only if another transaction committed since its own read |
| AmendmentNumbers.UndisturbedTransactionAddsTheNextNumber | src/db/schema.ts:588 | A transaction that nobody overtakes and nobody blocks adds the next number |
| FileVersions.NoUploadIsRefusedItsVersion | src/modules/collab/file/file.repository.ts:7-16 | With the lock held to commit no upload ever meets its version taken, whatever the lock's hash and the interleaving, deletions included |
| FileVersions.CommittedVersionIsTheLatest | src/modules/collab/board/board-task-interaction.service.ts:133-157 | A committed file is above every live version of its project and name, is the only change, and the index holds |
| FileVersions.DeletedVersionIsReusedExactlyWhen | src/modules/collab/file/file.repository.ts:18-26 | A deleted version is given out again if and only if it was the latest and its predecessor is live, or it was the first |
| FileVersions.SharedFiles.UploadFileMetadata | src/modules/collab/file/file-upload.service.ts:79-98 | The transaction of either upload path against any activity of others, waiting for locks and for uncommitted rows with its storage path: a committed file is the latest live version of its name, and only a registered storage path makes the insert fail; it is rolled back only when, at its last try, others hold the lock or an uncommitted row with its path, or its id is in use |
| FileVersions.SharedFiles.FindLatestVersion | src/modules/collab/file/file.repository.ts:18-26 | Finds a row with the highest live version exactly when there is one |
| FileVersions.SharedFiles.DeleteFileById | src/modules/collab/file/file.repository.ts:54-56 | The index stays in force, other names keep their versions, and the next version of the name changes only when the latest one goes |
| Text.TrimCutsTheBlankEnds | src/modules/collab/contract/contract.service.ts:66-88 | Trimming removes all blanks at both ends and nothing else |
| Text.StoredTextIsNonBlank | src/modules/collab/contract/contract.service.ts:66-88 | An optional text is stored exactly when it is not blank |
| Text.SpacesTabsAndLineEndsAreBlank | src/modules/collab/contract/contract.service.ts:66-88 | Spaces, tabs and line ends are blank, and no printable ASCII character is |
| LikeSearch.MatchMeansSplits | src/modules/collab/board/board-task.repository.ts:64-69 | The matcher agrees with the declarative meaning of LIKE: the text splits into pieces the tokens allow (section 9.7.1 of the PostgreSQL documentation) |
| LikeSearch.ThreePassesEscapeOnce | src/modules/collab/board/board-task.repository.ts:64-68 | The three replacements together escape each special character exactly once |
| LikeSearch.EscapedSearchIsLiteral | src/modules/collab/board/board-task.repository.ts:64-69 | For every text and query the pattern matches if and only if the query occurs literally in the text |
| LikeSearch.CaseBlindSearchIsLiteral | src/modules/collab/board/board-task.repository.ts:64-77 | The same when case does not count, whatever folding of ordinary characters the database uses |
| LikeSearch.LowerFoldsEachCharacter | src/modules/collab/board/board-task.repository.ts:64-77 | Folding is one character for one and leaves the special characters alone |
| LikeSearch.SearchSelectsExactly | src/modules/collab/board/board-task.repository.ts:58-77 | A search selects exactly the visible tasks of the project whose title or description contains the trimmed query |
| LikeSearch.UnescapedSearchIsLiteralExactlyWhen | src/modules/collab/project/project.repository.ts:89 | The project search by client name, which does not escape, finds the folded query literally in all texts if and only if it has no special character |
| LikeSearch.FoldedNeedleIsIlike | src/modules/collab/project/project.repository.ts:124-153 | The project search that folds text and query itself is the same comparison, so the same holds of it |
| Assignments.BuildMemberAssignmentMaps | src/modules/collab/shared/mappers.ts:64-91 | The loops give each user the number of different tasks he is on, and the first e-mail seen |
| Assignments.LoopsAgreeWithTheQuery | src/modules/collab/board/board-task.repository.ts:173-198 | Loops over the loaded rows and the grouping query over the tables give every user the same count |
| Assignments.TasksOfAMember | src/modules/collab/board/board-task.repository.ts:173-198 | What is counted of a user: the tasks of the project, visible as asked, that have him as primary or additional assignee |
| Assignments.GroupSize | src/modules/collab/board/board-task.repository.ts:173-198 | A group counts different tasks |
| Assignments.CountsAddUpToTheAssignments | src/modules/collab/board/board-task.repository.ts:173-198 | All counts together are the number of different assignments |
| Assignments.LastRowOfAUserCounts | src/modules/collab/shared/mappers.ts:93-95 | The count map holds, per user, the count of his last row |
| StorageTree.FoldersAddUpToTheProject | src/modules/collab/admin-storage/admin-storage.service.ts:101-154 | The folders of a project add up to it, for files and bytes |
| StorageTree.ProjectsAddUpToTheClient | src/modules/collab/admin-storage/admin-storage.service.ts:157-160 | The projects of a client add up to him |
| StorageTree.ClientsAddUpToEverything | src/modules/collab/admin-storage/admin-storage.service.ts:157-160 | The clients add up to all files of known projects |
| StorageTree.NothingIsLost | src/modules/collab/admin-storage/admin-storage.service.ts:96-154 | Active plus purged files and bytes are all files of known projects |
| StorageTree.FoldersHoldTheirFiles | src/modules/collab/admin-storage/admin-storage.service.ts:101-154 | Each folder lists all its files and totals its active ones; all standard folders are there |
| StorageTree.ItemsSayWhatTheyAre | src/modules/collab/admin-storage/admin-storage.service.ts:101-154 | Every file is listed with its project's name, in its own folder, and marked as a signed contract exactly when it is one |
| StorageTree.FolderLabelsDiffer | src/modules/collab/admin-storage/admin-storage.service.ts:30-55 | No two folders go by the same name |
| StorageTree.EachProjectHasOneOwner | src/modules/collab/admin-storage/admin-storage.service.ts:64-94 | Each project belongs to its client, or to the house when it has none, and each client has one key |
| StorageTree.EachProjectIsListedOnce | src/modules/collab/admin-storage/admin-storage.service.ts:64-94 | Each project is listed once, under its own client and no other |
| StorageService.GetStorageTree | src/modules/collab/admin-storage/admin-storage.service.ts:55-175 | The whole report, built by nested loops over mutable summaries, shows the specified sizes for every project, client and in the summary |
| StorageService.BuildProjects | src/modules/collab/admin-storage/admin-storage.service.ts:64-94 | One summary per project, one client per key, each project listed under its own client |
| StorageService.ClientIsNamedAfterHisFirstProject | src/modules/collab/admin-storage/admin-storage.service.ts:64-94 | A client goes by the name in his first project, or by that of the house when it has none |
| StorageService.AddFiles | src/modules/collab/admin-storage/admin-storage.service.ts:101-154 | After the loop every project and the four running totals show the specified sizes |
| StorageService.ClientSummary.Consolidate | src/modules/collab/admin-storage/admin-storage.service.ts:157-160 | The client's totals are the sums over his projects |
| StoragePurge.PurgingMovesTheFreedBytes | src/modules/collab/admin-storage/admin-storage.service.ts:229-284 | What a batch frees moves from the active totals to the purged ones, and nothing else moves |
| StoragePurge.SecondRunFindsNothing | src/modules/collab/admin-storage/admin-storage.service.ts:229-284 | The same batch again purges nothing and keeps the same signed contracts |
| StoragePurge.SignedContractsAreKept | src/modules/collab/admin-storage/admin-storage.service.ts:229-284 | A signed contract is only purged by a batch that forces it |
| StoragePurge.KeptIsWhatForceWouldTake | src/modules/collab/admin-storage/admin-storage.service.ts:234-256 | The signed contracts counted as kept are what the same batch would take in addition if it forced them |
| StoragePurge.WithoutFiltersEverythingGoes | src/modules/collab/admin-storage/admin-storage.service.ts:234-256 | Without filters a batch takes every unpurged file of a known project, except signed contracts it does not force |
| StoragePurge.EachFilterNarrows | src/modules/collab/admin-storage/admin-storage.repository.ts:71-110 | Each filter takes away exactly the files that do not meet it |
| StoragePurge.FileRows.FindFilesToPurge | src/modules/collab/admin-storage/admin-storage.service.ts:234-256 | Selects exactly the unpurged files in scope and counts the signed contracts it keeps |
| StoragePurge.FileRows.MarkFilesAsPurged | src/modules/collab/admin-storage/admin-storage.repository.ts:112-127 | Marks exactly the rows with the given ids |
| StoragePurge.FileRows.PurgeBatch | src/modules/collab/admin-storage/admin-storage.service.ts:229-284 | Marks exactly the selected files and reports their number, bytes and the kept contracts |

## Left out

- TaskProgress.GateHolds: progress is the exact quotient rounded half up; the code rounds a quotient of doubles. What that
  changes is `DoublesDifferOnlyAtTies` (23 of 40 gives 57, not 58); the gate decides alike (`GateIsTheSameInDoubles`).
- TaskProgress.ProgressIsMonotone: the same exact quotient.
- CircuitBreaker.TripsExactlyWhen: the failure rate is a real number, not a double; for the threshold of one half that the
  repository uses everywhere this is the same (`HalfIsExactInDoubles`).
- DoubleRounding.DoublesDifferOnlyAtTies: rounding to doubles enters by the two guarantees it gives for the numbers that
  occur, not by its bits.
- BoardService.ProjectBoard.CheckClientApprovalSla: one project at a time. The statement covers all projects under one limit
  of 100 tasks; what other projects take of it is a parameter.
- BoardColumns.ColumnTable.MoveTaskColumnToPosition: one creation or move of columns at a time.
- BoardRuns.DerivedProgressStaysTrue: operations one after the other; requests that overlap are in `BoardOverlaps`.
- BoardRuns.GateStaysShut: operations one after the other, likewise.
- BoardRuns.SummaryStaysExact: operations one after the other, likewise.
- BoardRuns.BlockDataStaysConsistent: operations one after the other, likewise.
- BoardService.ProjectBoard.Perform: nothing comes between the statements of an operation; `CommitUpdate` is the late write.
- BoardOverlaps.UndisturbedRunsAreSerial: an update reads its task in one step and its subtasks in another, columns do not
  change, and a request has one time stamp.
- Contracts.StepKeeps: operations one after the other; requests that overlap are in `ContractOverlaps`.
- ContractService.ContractTables.PerformAll: operations one after the other, likewise.
- ContractOverlaps.UndisturbedRunsAreSerial: a request reads all it needs in one step; that two amendments may ask for the
  same number is in `AmendmentNumbers`.
- ProfileCache.IdentityStore.GetUserProfilesFromSnapshots: lookups and writes do not overlap, so a lookup never caches a row
  another request deletes between its read and its cache write.
- OutboxWorker.RunCollabOutbox: an SQL statement whose connection fails is a crash of the cycle, not an error it goes on from;
  marks still under way after a rejection take effect as steps of the machine, outside of the method.
- Stream trimming by `MAXLEN` and a group created after the first publish; both can lose events.
- Times of the poison-pill check, `setTimeout` races, connection life cycles and shutdown.
- Logging, metrics, tracing, audit rows and health files.
- HTTP routing, controllers, request schemas, manifests, seeds and start-up scripts.
- RSA signing, key sets, token verification and the digest itself, which is any function.
- Wording of the contract templates and currency formatting: templates are any functions behind their fixed titles.
- Role guards other than project access; permission to block or unblock; the comment an unblocking may leave.
- Chat, typing indicators, notification listing and reading, briefs and change requests.
- Task columns without influence on the properties: description, priority, deadline, assignees, position.
- Texts of notifications; of an event only its channel, recipients and exclusions are modelled.
- Which of several identity events is the newest: the upsert does not check it.
- `resolveWriteLimit` and the Redis path of the rate limiter.
- Purging a single file and removing binaries from storage; default columns of a new project.
- The listing of the authentication dead-letter queue beyond "its newest entries".
