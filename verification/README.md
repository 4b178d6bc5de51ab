# Verified model of the order pipeline

This project models the parts of the repository on which its delivery guarantees rest, and proves those
guarantees for every input, every schedule and every run. It covers four state machines that share one
abstraction of Kafka: append-only logs per topic and partition, a committed offset per group, and remote steps
that can succeed (`Acked`), fail (`Lost`), or fail after having taken effect (`Landed`).

1. **Consumer delivery protocol.** A message goes from its source topic through in-process retries to the retry
   topic, where it is parked, requeued and rescheduled, and ends handled or on the dead-letter topic; its offset is
   committed only once an outcome exists. `DeliveryProtocol` is the state machine, with every lane interleaving at
   every await, failing writes, throws and crashes. `Conservation`, `AtMostOnce`, `Journeys` and `RequeueBound` are
   invariants of all its runs, and `Duplicates` states the laws on duplicates by the payload's `eventId` field.
   `Runners` holds the two runners as the code writes them, and proves that each call is a run of that machine.
   `RetryJourney` bounds a fault-free journey, `RetryTopic`, `Backoff` and `Idempotency` are the parts.
2. **Transactional outbox.** `Outbox` is the table and the relay, with a fault oracle for every remote step;
   `OutboxQueue` and `OutboxRuns` prove what holds over runs with inserts, failing polls and restarts, `OutboxProcess`
   what one process commits under any faults;
   `RelayLoop` is the polling loop; `OrderStore` fills the table.
3. **Customer read model.** `Changelog` is the replayed map.
4. **In-memory broker.** `InMemoryBroker` (offsets, sequence, hand-off), `DispatchPool` (bounded concurrency),
   `KeyPartition` (the 32-bit key hash).

`EndToEnd` and `ViewHistory` join 2 and 3: from placing an order to what the customer view shows, once everything is
published and at any moment before. `CommitOrder` proves over all runs, restarts included, that nothing overtakes in the
committed log: a payment follows its order, an update follows both. `Prelude` holds shared helpers.

Objects that the code updates in place are classes here, and each of their methods is proved to perform one step of a
specification function; the lemmas are about runs of that function. `dafny verify dfyconfig.toml` checks everything.

## What the code does where its documentation says otherwise

The model follows the code. Each difference is proved, with the exact condition where there is one.

- The idempotency filter is documented as LRU (`packages/infra/src/idempotency.ts:14`, `docs/adr/0002-idempotent-consumer-eventid.md:33`).
  Marking an id again does not move it, so eviction is by first insertion: `Idempotency.InsertionOrderVersusLru`,
  `Idempotency.ReMarkedIdIsEvictedFirst`.
- A comment promises serial dispatch for `concurrency <= 1` (`packages/broker/src/adapters/in-memory.ts:250`). Such a limit
  bounds nothing: `DispatchPool.BoundedExactlyFromTwo`.
- The in-memory broker emulates offsets per partition (`packages/broker/src/adapters/in-memory.ts:59-60`), but it reads the next
  offset before it awaits the codec. Two produces that begin before either finishes share an offset:
  `InMemoryBroker.OverlapSharesOffset`; a partition counts 0, 1, 2, ... exactly when no stored produce was undercut by another:
  `InMemoryBroker.OffsetsCountIffNoneUndercut`.
- The requeue hops of a parked message are said to be bounded by `maxDeliveries` (`apps/consumer/src/retry-runner.ts:81`). A requeue
  leaves the count alone (`RetryTopic.RequeueIsTransparent`), and what bounds the hops is time. The comment holds in every
  environment exactly when the ladder delay has no more started seconds than `maxDeliveries`:
  `RetryJourney.MaxDeliveriesBoundsRequeuesIff`; one delivery on a ladder of a minute makes sixty requeues:
  `RetryJourney.OneDeliverySixtyRequeues`.
- `README.md:180` speaks of two outbox rows per order; there are three: `OrderStore.OrderStore.CreateOrderWithOutbox`.
- A poll that returns 0 may have committed: a mark or hook failure after the commit reaches the abort, which then
  has no effect (`packages/infra/src/outbox.ts:190-203`). Exactly when: `OutboxRuns.ZeroHidesCommitIff` for transactions,
  `OutboxRuns.ZeroHidesSendIff` row by row.
- A republished block is harmless to a latest-wins reader within one process, but not always across a restart. When
  a row's mark fails, a newer row of the same key is marked, and the process restarts, the older row is published last:
  `OutboxRuns.StaleRepublication`. When a restarted relay brings such a reader up to date is exact for every reachable state:
  `OutboxRuns.CatchesUpIff`. As long as all restarts so far were safe, the condition can be read off the table alone:
  `OutboxRuns.CatchesUpIffRestartSafe`.
- An order that fails after the aggregate has been updated is rolled back in the database and stays in the
  aggregate (`apps/web/src/order-store.ts:64-74`): `OrderStore.AggregateIsExactIffNoLateFailure`, `EndToEnd.PublishedViewIsExactIff`.
- The DELETE route can remove a record newer than its own tombstone: `Changelog.LocalDelete`.

## Model

| member | source | states |
|---|---|---|
| Conservation.NothingIsLost | apps/consumer/src/handler-runner.ts:78-228 | In every run from empty partitions, with crashes, redeliveries and failing or half-failing writes anywhere: a record below its lane's committed offset has had its handler complete (for it or for its event id), or is on the dead-letter topic, or has a copy at or above the committed offset of a retry partition that no runner has settled. |
| Conservation.RunsKeepInv | apps/consumer/src/retry-runner.ts:84-252 | The invariant behind it survives every step: committed is position or position + 1, the filter holds only completed ids, and every settled or committed record is accounted for. |
| Conservation.SendCopyKeepsCovered | packages/infra/src/retry-topic.ts:104-149 | Scheduling or requeueing settles the original only when its copy is there to be found; an unacknowledged produce settles nothing. |
| Conservation.SendToDlqKeepsCovered | apps/consumer/src/pipeline-shared.ts:105-126 | A dead-letter write that is not acknowledged leaves the message unsettled, so that its offset cannot be committed without a dead letter. |
| Conservation.CrashKeepsInv | packages/broker/src/adapters/confluent.ts:298-308 | Losing the filter and rewinding every lane to its committed offset loses no message. |
| Conservation.SkippedOnlyIfCompleted | apps/consumer/src/retry-runner.ts:145-166 | In every run, a delivery is skipped as a duplicate only if the handler has completed for its event id. |
| Conservation.CrashRedelivers | packages/broker/src/adapters/confluent.ts:298-308 | A crash keeps logs and committed offsets and forgets the filter, and every lane delivers next what lies at its committed offset. |
| Duplicates.NothingIsLost | apps/consumer/src/pipeline-shared.ts:20-29 | Conservation by the payload: a record below its committed offset had its own handler complete, or a stored record with the same text in its field `eventId` had, or it is on the dead-letter topic, or a copy is waiting. |
| Duplicates.SkippedOnlyIfSameEventHandled | apps/consumer/src/handler-runner.ts:109-131 | In every run, a payload is skipped only if it has a string field `eventId` and a handler has completed for a stored record whose `eventId` is the same text. |
| Duplicates.UnidentifiedIsNeverSkipped | apps/consumer/src/handler-runner.ts:112 | Where no filter is wired nothing is skipped, and a payload without that field is never skipped, whatever the filter holds; the filter is not asked. |
| Duplicates.GuardForgetsTheExpired | packages/infra/src/idempotency.ts:40-48 | In every run: a due, valid payload with the field is skipped exactly when the filter holds its id within the time-to-live; when its handler begins instead, the filter has forgotten the id, and no other. |
| Duplicates.FilterStaysDistinct | packages/infra/src/idempotency.ts:38-59 | In every run the filter holds each id once. |
| Duplicates.KnownIdIsTheField | apps/consumer/src/pipeline-shared.ts:21-29 | A known event id is the text of the field `eventId`, and a payload without it is unknown. |
| Duplicates.EventIdIsTheField | apps/consumer/src/pipeline-shared.ts:21-29 | The event id of an object is the text of its `eventId`, whatever its other fields are. |
| AtMostOnce.HandledOncePerWindow | apps/consumer/src/handler-runner.ts:109-131 | In every run where no two handlers of one id overlap, with the time-to-live off: within a process, two completions of one id have at least maxSize completions of other ids between them, and the filter remembers exactly the last maxSize completed ids. |
| AtMostOnce.OverlapCompletesTwice | apps/consumer/src/handler-runner.ts:109-226 | The condition is needed: from empty partitions, an event published on two source partitions and delivered on both before either handler ends is handled twice. |
| Journeys.CopiesAreFaithful | packages/infra/src/retry-topic.ts:104-149 | In every run, each stored copy and each dead letter carries the value and key of the record it descends from; a copy of a source record reads back a retry count equal to its number of schedules, between 1 and max(1, maxDeliveries), and names the source topic. |
| Journeys.HandlerStartsAfterTheLadder | apps/consumer/src/retry-runner.ts:84-112 | In every run, the handler of a due delivery with retry count j starts no earlier than the first j ladder delays after the source-side schedule. |
| Journeys.OnlyAcceptedMessagesAreHandled | apps/consumer/src/retry-runner.ts:65-68 | In every run, also on the retry topic, a handler works only on a payload that the schema of its source topic accepts. |
| Journeys.HistoryIsJustified | packages/infra/src/dlq.ts:44-64 | In every run, each dead letter names a stored record by topic, partition and offset and carries its key, value and delivery count; it was rejected by validation, or exhausted, on the retry topic at maxDeliveries, on a source topic where no scheduler is wired. Each completion names a stored record and its event id. |
| Journeys.WithoutSchedulerNothingIsCopied | apps/consumer/src/handler-runner.ts:171-191 | In every run where no scheduler is wired, each stored record stands where it was published: no copy is ever made. |
| Journeys.ScheduleIsFaithful | packages/infra/src/retry-topic.ts:104-124 | Rescheduling a due message keeps all of that: count one higher, next delivery at least one more ladder delay later, the original topic carried over. |
| Runners.Runner.HandleSource | apps/consumer/src/handler-runner.ts:58-228 | The source-side runner, statement by statement: its effect on logs, offsets, dead letters, filter, completions and clock is the closed form of one delivery; a delivery that reaches the handler completes if and only if one of the first max(1, sourceAttempts) calls succeeds; the call resolves exactly when an outcome exists and the commit was acknowledged. |
| Runners.Runner.HandleRetry | apps/consumer/src/retry-runner.ts:59-263 | The same for the retry-topic runner and its retryAttempts, with parking and requeueing first. |
| Runners.Runner.HandleDue | apps/consumer/src/retry-runner.ts:114-252 | A due delivery: validation against the original topic, duplicate guard, handler with up to max(1, retryAttempts) calls, reschedule or dead letter, commit. |
| Runners.Runner.AttemptSource | apps/consumer/src/handler-runner.ts:156-226 | Exhausted attempts go to the retry topic if a scheduler is wired, otherwise to the dead-letter topic; success marks the id before the commit. |
| Runners.Runner.AttemptRetry | apps/consumer/src/retry-runner.ts:181-252 | Exhausted attempts are rescheduled below maxDeliveries and dead-lettered from there on; success marks the id before the commit. |
| Runners.Runner.SafeDeadLetter | apps/consumer/src/pipeline-shared.ts:105-126 | Writes a dead letter with topic, partition, offset, key, attempts and original value; anything but an acknowledged write is rethrown. |
| Runners.Runner.CommitOffset | packages/broker/src/adapters/confluent.ts:298-305 | Commits offset + 1; the driver moves on only when the commit is acknowledged. |
| Runners.DeliveryIsARun | apps/consumer/src/retry-runner.ts:84-252 | What a runner does with one delivery, whatever its handler, the broker and the clock do, is a run of the delivery protocol in which the commit follows only an outcome; so every property of runs holds of the runners. |
| Runners.OffsetMovesIffSettled | apps/consumer/src/retry-runner.ts:108-252 | Offset + 1 is committed exactly when an outcome exists and the commit takes effect; the driver moves on exactly when the call resolves. |
| Runners.AttemptsDecideCompletion | apps/consumer/src/pipeline-shared.ts:50-99 | A delivery that reaches the handler leaves exactly one completion, of its own record, if one of the first max(1, attempts) handler calls succeeds, and none otherwise. |
| Runners.OnlyHandlersComplete | apps/consumer/src/retry-runner.ts:84-166 | A parked, rejected or skipped delivery completes nothing. |
| Runners.ValidatedAgainst | apps/consumer/src/retry-runner.ts:68-117 | A due message is rejected exactly when the schema of its topic refuses it: on the retry topic the topic named in its header, or the default one. |
| Runners.ParksAtMostASecond | apps/consumer/src/retry-runner.ts:84-112 | A retry-topic message is parked exactly when it is not due, until it is due or for a second, whichever comes first. |
| Runners.StepsAreEffect | apps/consumer/src/handler-runner.ts:156-220 | The protocol steps of a delivery before its commit amount to the runner's effects, and end settled exactly when an outcome exists. |
| RetryJourney.Follow | apps/consumer/src/retry-runner.ts:84-246 | A fault-free journey through validation, duplicate guard, handler, parking and rescheduling ends, after at most max(1, maxDeliveries) due deliveries, each preceded by at most one requeue per started second of its ladder delay and no earlier than the ladder allows; handler calls are at most max(1, sourceAttempts) + max(1, maxDeliveries) * max(1, retryAttempts); a dead letter means that every delivery and attempt was used. |
| RetryJourney.Deliver | apps/consumer/src/retry-runner.ts:84-246 | One due delivery, from its scheduled copy: rejected exactly when validation fails, skipped exactly when its id is known, otherwise handled, rescheduled or dead-lettered; the last only at the last permitted delivery. |
| RetryJourney.WaitUntilDue | apps/consumer/src/retry-runner.ts:70-112 | Parking ends: the number of requeues is at most the started seconds left, and exactly that many when nothing is late; the message comes out due with its count and due time unchanged. |
| RetryJourney.MaxDeliveriesBoundsRequeuesIff | apps/consumer/src/retry-runner.ts:77-83 | A bound such as maxDeliveries holds for the requeues before a due delivery, in every environment, if and only if the ladder delay has no more started seconds than that. |
| RetryJourney.OneDeliverySixtyRequeues | apps/consumer/src/retry-runner.ts:77-83 | The failing input: one permitted delivery, a delay of one minute, sixty requeues. |
| RequeueBound.RequeuesAreBounded | apps/consumer/src/retry-runner.ts:84-112 | In every run with any faults, a copy of a source record has been requeued at most once per started second of the ladder delay it was last scheduled with, and scheduled at most max(1, maxDeliveries) times; hops made and hops left never exceed what the schedule needed. |
| RequeueBound.RunsKeepInv | packages/infra/src/retry-topic.ts:104-149 | Every step of every run keeps that: each hop has slept a second or the rest of the wait, whatever fails in between. |
| RetryTopic.NextDelay | packages/infra/src/retry-topic.ts:50-53 | The delay ladder: its k-th step after k deliveries, its last step from there on, 0 for an empty ladder. |
| RetryTopic.ParkDelay | packages/infra/src/retry-topic.ts:84-86 | Zero exactly when due; otherwise the time to the due instant. |
| RetryTopic.CountRoundTrip | packages/infra/src/retry-topic.ts:63-68 | Parsing a printed count gives the count back, whatever text follows the digits. |
| RetryTopic.SignedCount | packages/infra/src/retry-topic.ts:63-68 | A count text denotes its number: leading blanks are skipped, a sign counts, what follows the digits is ignored. |
| RetryTopic.ForeignHeaders | packages/infra/src/retry-topic.ts:59-82 | Headers of any producer: a list by its first value, counts and instants never below 0, missing or unreadable ones as 0. |
| RetryTopic.ScheduledHeadersReadBack | packages/infra/src/retry-topic.ts:59-82 | The headers written by schedule read back as count + 1 and the instant that was written. |
| RetryTopic.RequeueIsTransparent | packages/infra/src/retry-topic.ts:133-149 | A requeued copy reads back the same count and due time as the message it was made from. |
| RetryTopic.OriginalTopicIsStable | packages/infra/src/retry-topic.ts:118-121 | The original topic named by a copy is named by every later copy of it. |
| RetryTopic.CopyNamesItsSource | packages/infra/src/retry-topic.ts:118-121 | A copy of a source message names the topic it was read from, whatever header it came with; on the retry topic a copy names what the message named, and the retry topic itself where it named nothing. |
| Backoff.WithRetry | packages/infra/src/retry.ts:27-53 | Returns the first success or the last of max(1, attempts) errors; one notice and one sleep per failure but the last, numbered 1, 2, ..., with the backoff of that attempt. |
| Backoff.FirstBackoffIsBase | packages/infra/src/retry.ts:43-44 | The first backoff is the base, or the cap if that is less. |
| Backoff.BackoffIsExponential | packages/infra/src/retry.ts:43-44 | Each further backoff is the factor times the one before, up to the cap, for factors of at least 1. |
| Backoff.JitterTakesShare | packages/infra/src/retry.ts:45 | Without jitter the delay is that backoff, with jitter the drawn share of it, never more. |
| Backoff.Round | packages/infra/src/retry.ts:47 | The reported delay is within half a millisecond of the delay, halves upwards. |
| Backoff.TotalSleepIsBounded | packages/infra/src/retry.ts:43-48 | The sleeps add up to at most the sum of the capped backoffs, hence to at most attempts - 1 times the cap (`TimesIsProduct`: as a product). |
| Idempotency.IdempotencyFilter.IsDuplicate | packages/infra/src/idempotency.ts:40-48 | Answers whether the id is live, and forgets it exactly when its time-to-live has passed. |
| Idempotency.IdempotencyFilter.Mark | packages/infra/src/idempotency.ts:50-57 | Records the id in place or at the end, and drops the oldest insertion when the map has outgrown maxSize. |
| Idempotency.SizeNeverExceedsCapacity | packages/infra/src/idempotency.ts:50-57 | For every history, at most maxSize ids, all distinct. |
| Idempotency.RefinesInsertionLog | packages/infra/src/idempotency.ts:36-57 | With the time-to-live off, the live ids are exactly the last maxSize entries of a log of insertions that forgets nothing, and a query answers membership in them. |
| Idempotency.InsertionsAreSpaced | packages/infra/src/idempotency.ts:50-57 | In that log an id recurs only after maxSize other insertions. |
| Idempotency.PositiveAnswerMeansRecentMark | packages/infra/src/idempotency.ts:40-48 | A positive answer means that the id was marked, no longer ago than the time-to-live. |
| Idempotency.QueryForgetsExactlyTheExpired | packages/infra/src/idempotency.ts:40-48 | A query for an expired id removes it and keeps the order of the others; any other query changes nothing. |
| Idempotency.AnswersExactlyTheRecentMarks | packages/infra/src/idempotency.ts:40-57 | While nothing has been evicted and the clock does not go back, an id is a duplicate if and only if its last mark is within the time-to-live. |
| Idempotency.InsertionOrderVersusLru | packages/infra/src/idempotency.ts:50-57 | The map agrees with an LRU map after a mark if and only if the id was not live or was already the youngest. |
| Idempotency.ReMarkedIdIsEvictedFirst | packages/infra/src/idempotency.ts:52-55 | A full map forgets its oldest insertion even when that id was marked again just before. |
| Outbox.OutboxStore.PeekPending | packages/infra/src/outbox.ts:75-94 | The first `limit` unpublished rows in id order, less those that do not parse: the limit comes first. |
| Outbox.OutboxStore.InsertPending | packages/infra/src/outbox.ts:65-73 | Appends one unpublished row under a new, larger id. |
| Outbox.OutboxStore.MarkPublished | packages/infra/src/outbox.ts:96-102 | Marks exactly the rows with the given ids and changes nothing else. |
| OutboxRuns.PendingAreQueuedOrStuck | packages/infra/src/outbox.ts:104-107 | What countPending counts: the rows that this process has still to publish, and the stuck ones, which do not parse or were dispatched and not marked. |
| Outbox.OutboxRelay.RunOnce | packages/infra/src/outbox.ts:158-204 | One poll under any faults, in both modes: table, dispatched ids, committed log, hook calls and return value as specified by `Publish`. |
| Outbox.OutboxRelay.RunTransaction | packages/infra/src/outbox.ts:165-203 | Transactional mode: commit, then remember, mark and call the hooks; a failure after the commit returns 0 and undoes nothing. |
| Outbox.OutboxRelay.RunRows | packages/infra/src/outbox.ts:170-183 | Row by row: each row is remembered, marked and passed to the hook before the next is sent; the first failure stops the batch. |
| OutboxQueue.PollShape | packages/infra/src/outbox.ts:158-204 | Whatever fails, in either mode, a poll commits a prefix of the queue, remembers a prefix of that, marks only remembered rows, and calls the hook in order for marked rows. |
| OutboxRuns.NothingIsLost | packages/infra/src/outbox.ts:158-204 | From the empty table on, over any inserts, faults and restarts: marked rows are in the committed log, so every parseable row is pending or in the log; dispatched ids are committed; hooks are called at most once per row in this process, in id order, only for committed and marked rows. |
| OutboxRuns.RunsAreSound | packages/infra/src/outbox.ts:96-102 | The invariant behind it holds throughout every run. |
| OutboxProcess.PublishesOnceInOrder | packages/infra/src/outbox.ts:158-204 | Within one process under any faults, also writes that land unseen: the first occurrences of what it commits are exactly a prefix of the parseable rows pending at start or inserted since, everything beyond is still queued, and between polls a latest-wins reader sees what it would if each row of that prefix had been published once. |
| OutboxProcess.NeverGoesBack | packages/infra/src/outbox.ts:158-204 | At any later point of the process that prefix has only grown. |
| CommitOrder.NothingOvertakes | packages/infra/src/outbox.ts:158-204 | In every run, with any faults and any number of restarts: when a record is committed, every parseable row written before it has been committed. |
| CommitOrder.FirstsAreTheTable | packages/infra/src/outbox.ts:158-204 | So across all restarts the first publications are exactly a prefix of the parseable rows of the table, in the order in which they were written. |
| CommitOrder.PaymentFollowsItsOrder | apps/web/src/order-store.ts:52-57 | In every run of the web process: a record on `payments.completed` is the payment of a committed order, and that order stands before it in the log on `orders.created`, under the same key. |
| CommitOrder.UpdateFollowsItsOrder | apps/web/src/order-store.ts:52-71 | In every run of the web process: a record on `customers` is the update of a committed order, keyed by its customer, and the order and its payment stand before it in the log. |
| OutboxRuns.PublishedArePrefix | packages/infra/src/outbox.ts:158-204 | When no write lands unseen, what is committed is itself that prefix, without repetitions and with strictly increasing ids, and the rest is still queued. |
| OutboxRuns.LogGrowsByWholeBatches | packages/infra/src/outbox.ts:185-197 | In transactional mode, over every run with any faults and restarts, the log has grown by whole batches, one for each transaction that took effect, and by nothing else. |
| OutboxRuns.ZeroHidesCommitIff | packages/infra/src/outbox.ts:190-203 | A transactional poll returns 0 although its batch is committed if and only if the commit took effect unseen, or was acknowledged and then the marking or a hook failed. |
| OutboxRuns.ZeroHidesSendIff | packages/infra/src/outbox.ts:174-203 | Row by row, a poll returns 0 although it has committed something if and only if the first send took effect and some row was not sent, marked and accepted. |
| OutboxRuns.InsertCommutesWithPublish | packages/infra/src/outbox.ts:158-183 | A row inserted while a poll is under way changes nothing for that poll. |
| OutboxRuns.ConvergesDespiteRepublication | packages/infra/src/outbox.ts:185-203 | Over any run whose restarts are restart-safe, with any faults and republished blocks: whenever nothing is left to publish, the last log record of each topic and key is its newest row. |
| OutboxRuns.RestartKeepsAlignedIffSafe | packages/infra/src/outbox.ts:139-146 | A restart keeps the log and queue aligned with the table if and only if no marked row is newer than the last pending row of its topic and key. |
| OutboxRuns.CatchesUpIff | packages/infra/src/outbox.ts:158-204 | Restart in any reachable state, whatever led there, and poll without faults until the queue is empty: latest-wins readers are up to date if and only if, on every topic and key, the last pending row is the newest, or none is pending and the log ends in the newest. |
| OutboxRuns.CatchesUpIffRestartSafe | packages/infra/src/outbox.ts:158-204 | In runs whose restarts so far were all safe the second part holds by itself: up to date if and only if the table is restart-safe. |
| OutboxRuns.StaleRepublication | packages/infra/src/outbox.ts:192-193 | The failing case: after an unsafe restart and one clean poll nothing is pending, and the last record of the key is the older row; the table is restart-safe again, and no later restart mends the log. |
| OutboxRuns.StuckStateIsReachable | packages/infra/src/outbox.ts:192-202 | A commit followed by a failing mark leads there: committed, dispatched, still pending. |
| OutboxRuns.UnsafeStateIsReachable | packages/infra/src/outbox.ts:158-204 | A newer row of that key, published and marked, makes the table unsafe to restart from. |
| OutboxRuns.BatchSize | packages/infra/src/outbox.ts:75-94 | The next batch is a prefix of the queue of at most the batch size: all of it, or at least the batch size less the stuck rows. |
| OutboxRuns.CleanPoll | packages/infra/src/outbox.ts:165-198 | A fault-free poll, in either mode, commits, remembers and marks its whole batch, calls the hook once for each of its rows, in order, and returns their number. |
| OutboxRuns.Drains | packages/infra/src/outbox.ts:158-198 | With s stuck rows and batch size B > s, n fault-free polls publish the queue in order, at least n(B - s) rows of it or all; so u rows are gone after ceil(u / (B - s)) polls. |
| OutboxRuns.BlockedForever | packages/infra/src/outbox.ts:76-84 | A full batch of stuck rows at the head blocks the relay for good: in this process nothing is published any more, whatever is inserted. |
| RelayLoop.AtMostOneRunInFlight | packages/infra/src/outbox.ts:206-220 | In every schedule of ticks, completions and disposal, at most one poll is in flight. |
| RelayLoop.DisposalIsFinal | packages/infra/src/outbox.ts:227-231 | From the disposer's call on no poll begins; once it has resolved none is in flight, and that stays so. |
| RelayLoop.DisposerResolvesIffIdle | packages/infra/src/outbox.ts:227-231 | A waiting disposer can resolve exactly when nothing is in flight. |
| RelayLoop.TimerKeepsRunning | packages/infra/src/outbox.ts:211-225 | While the timer is on, a tick begins a poll exactly when no tick is suspended, and an idle loop can always get there. |
| RelayLoop.TimerIsOnIffStarted | packages/infra/src/outbox.ts:222-231 | In every schedule, the timer is on if and only if the relay has started and has not been disposed. |
| RelayLoop.StartupEndsWithTimerOrThrow | packages/infra/src/outbox.ts:222-225 | `start` polls at once; when that poll has settled, resuming starts the timer, or fails without one if it threw. |
| RelayLoop.SecondTickPollsAgain | packages/infra/src/outbox.ts:211-225 | After a first poll that returned, the next tick begins a second poll; after one that threw, the startup has failed. |
| RelayLoop.DisposeStops | packages/infra/src/outbox.ts:227-231 | Disposing of a started relay stops it and its timer, and waits for the poll in flight. |
| RelayLoop.Loops.OnTick | packages/infra/src/outbox.ts:211-216 | A tick does nothing while one is running or after the disposer was called; otherwise it starts the next poll. |
| RelayLoop.Loops.OnResume | packages/infra/src/outbox.ts:217-225 | After its poll has settled, the tick clears `running`; the first one also starts the timer, unless it threw (as `StartupEndsWithTimerOrThrow` says of the step). |
| OrderStore.OrderStore.CreateOrderWithOutbox | apps/web/src/order-store.ts:40-77 | Success adds the order and exactly three adjacent rows with the right topics, keys and payloads; failure anywhere adds no row and no order; the aggregate changes on success and on failures after line 64. |
| OrderStore.AggregateCountsLateFailures | apps/web/src/order-store.ts:62-64 | Over any calls, a customer's aggregate accounts for the committed orders and for the calls that failed late. |
| OrderStore.AggregateIsExactIffNoLateFailure | apps/web/src/order-store.ts:59-75 | The aggregate agrees with the committed orders if and only if no call of that customer failed late. |
| OrderStore.KthOrderCarriesRunningTotals | packages/domain/src/aggregation/customer-state.ts:14-51 | With no late failure before it, the k-th committed order's changelog payload has its drawn event id, orderCount k, the sum of the first k payments, and the times of its order and payment. |
| OrderStore.FailureLeavesAggregateUntilUpdated | apps/web/src/order-store.ts:43-75 | A duplicate order and a failure at the order row or at one of the two event rows leave everything as it was; a failure at the changelog row or the commit keeps the updated aggregate. |
| Changelog.CustomerStore.Apply | apps/customer-view/src/customer-store.ts:7-17 | Refuses an unkeyed record, deletes on a tombstone, otherwise overwrites. |
| Changelog.CustomerStore.Delete | apps/customer-view/src/customer-store.ts:27-29 | Removes the customer and reports whether there was one. |
| Changelog.CustomerStore.ApplyAll | apps/customer-view/src/customer-store.ts:7-17 | Applying a log record by record holds its replay. |
| Changelog.ReplayFromIsLatestWins | apps/customer-view/src/customer-store.ts:7-17 | From any starting map, replay shows for each key what its newest record says, and what was there if it has none. |
| Changelog.SameViewIffSameVisible | apps/customer-view/src/customer-store.ts:7-17 | Two logs give one map if and only if they agree on what each key shows. |
| Changelog.InterleavingIndependence | packages/broker/src/adapters/in-memory.ts:45-52 | Any two orders in which the keyed partitions of a topic can be consumed give one map. |
| Changelog.CompactionIndependence | apps/customer-view/src/customer-store.ts:12-16 | Compaction that drops only superseded records, and tombstones with nothing older left, does not change the map. |
| Changelog.RedeliveryConverges | apps/customer-view/src/customer-store.ts:7-17 | On one partition, deliveries that go back to any already applied offset, any number of times, end in the map of the log once the furthest offset is reached again. |
| Changelog.PartitionedRedeliveryConverges | packages/broker/src/adapters/confluent.ts:298-308 | With partitions that interleave in any way and are each rewound on their own, any number of times, the map is that of reading each record once, in any order. |
| Changelog.LocalDelete | apps/customer-view/src/app.ts:62-71 | After the DELETE route, the view at a later moment is the replay of the log if and only if the local delete removed no record newer than the tombstone, or a still newer one has arrived. |
| EndToEnd.PublishedViewShowsAggregate | apps/web/src/order-store.ts:59-70 | Over any calls, any polls with any faults and any safe restarts of the process, once nothing is left to publish: the customer view has exactly the customers with a committed order, and shows the totals of the process that placed the newest one, as it placed it: its committed orders and its late failures. |
| EndToEnd.PublishedViewIsExactIff | apps/web/src/order-store.ts:20-75 | Then the view agrees with what that process committed if and only if no call of the customer had failed late in it; without orders of earlier processes the same decides agreement with the database, and without late failures it is decided by whether earlier processes had committed orders of the customer. |
| ViewHistory.ViewIsAlwaysAPastState | apps/web/src/order-store.ts:59-70 | In every run, with any faults, late failures and restarts: a customer in the view is shown exactly as some committed order of the customer left the aggregate. |
| ViewHistory.ViewFollowsTheOrders | packages/infra/src/outbox.ts:158-204 | Within one process under any faults, without late failures of the customer: between polls the view shows orderCount m and the sum of the first m payments, m being the number of the customer's changelog payloads published. |
| ViewHistory.ViewNeverGoesBack | packages/infra/src/outbox.ts:158-204 | That m never goes back: what has been published of a customer only grows. |
| ViewHistory.PublishedIsTheLog | packages/infra/src/outbox.ts:158-204 | When nothing lands unseen the log repeats nothing, so that m counts the customer's changelog records in it. |
| EndToEnd.InsertsAreThreeRows | apps/web/src/order-store.ts:52-70 | The outbox events of a committed call leave exactly the rows that the order store's transaction leaves. |
| InMemoryBroker.InMemoryBrokerAdapter.CreateTopic | packages/broker/src/adapters/in-memory.ts:92-98 | A topic that exists keeps its partition count; others are untouched. |
| InMemoryBroker.InMemoryBrokerAdapter.BeginProduce | packages/broker/src/adapters/in-memory.ts:109-129 | An unknown topic is an error; otherwise the partition is the given one or the key's, and the offset the largest there plus one. |
| InMemoryBroker.InMemoryBrokerAdapter.FinishProduce | packages/broker/src/adapters/in-memory.ts:137-147 | After the codec: next sequence number, push, hand-off to every listening subscription. |
| InMemoryBroker.InMemoryBrokerAdapter.Consume | packages/broker/src/adapters/in-memory.ts:152-183 | A new subscription listens from the present sequence and is handed the matching history if it reads from the beginning. |
| InMemoryBroker.InMemoryBrokerAdapter.DisposeSubscription | packages/broker/src/adapters/in-memory.ts:185-188 | Disposal detaches this subscription and no other. |
| InMemoryBroker.InMemoryBrokerAdapter.Disconnect | packages/broker/src/adapters/in-memory.ts:85-90 | Disconnecting drops topics and records and detaches every subscription; the sequence goes on. |
| InMemoryBroker.ExactlyOnceHandOff | packages/broker/src/adapters/in-memory.ts:152-189 | In every run, also with overlapping produces: stored sequence numbers strictly increase, and an attached subscription has been handed exactly the stored records it is for, each once, in sequence order. |
| InMemoryBroker.StoredAsProduced | packages/broker/src/adapters/in-memory.ts:131-147 | In every run, also with overlapping produces: each stored record carries the topic, partition, key and value given to its own produce. |
| InMemoryBroker.DetachedGetsNothing | packages/broker/src/adapters/in-memory.ts:85-90 | A disposed or disconnected subscription is handed nothing more. |
| InMemoryBroker.OffsetsCountIffNoneUndercut | packages/broker/src/adapters/in-memory.ts:126-143 | In every run, whatever happens on other partitions: a partition holds the offsets 0, 1, 2, ... if and only if no stored produce to it was undercut, that is, no other one finished between its beginning and its end. |
| InMemoryBroker.OffsetsAreDense | packages/broker/src/adapters/in-memory.ts:126-143 | In particular it does when produces to that partition do not overlap. |
| InMemoryBroker.RunsAreExact | packages/broker/src/adapters/in-memory.ts:126-143 | As long as a partition counts, every produce in progress there holds the number of records that were stored when it began. |
| InMemoryBroker.OverlapSharesOffset | packages/broker/src/adapters/in-memory.ts:126-143 | The failing input: after any history, two produces to one partition begin before either finishes; they store one offset twice under different sequence numbers, and the partition no longer counts. |
| DispatchPool.SubscriptionPool.EnqueueDispatch | packages/broker/src/adapters/in-memory.ts:253-268 | Starts the record while a slot is free, queues it otherwise; without a pool it starts at once. |
| DispatchPool.SubscriptionPool.Finish | packages/broker/src/adapters/in-memory.ts:270-281 | A settled dispatch, resolved or rejected, hands its slot to the head of the queue or gives it up. |
| DispatchPool.PoolIsBoundedAndWorkConserving | packages/broker/src/adapters/in-memory.ts:253-281 | For limits of at least two, in every interleaving: in flight are min(limit, unfinished); records start once each, first in first out; with nothing in flight all have started and the queue is empty. |
| DispatchPool.ArrivalsAreTheEnqueued | packages/broker/src/adapters/in-memory.ts:253-268 | The history of arrivals is the enqueued records in order, so nothing is started that was not enqueued. |
| DispatchPool.WithoutPoolAllStartAtOnce | packages/broker/src/adapters/in-memory.ts:254-260 | With a limit up to one, the default, every record starts when it arrives and none is queued. |
| DispatchPool.SettleEndsItsOwn | packages/broker/src/adapters/in-memory.ts:270-281 | A settlement ends the dispatch that settled and no other, and starts the head of the queue in its place. |
| DispatchPool.BoundedExactlyFromTwo | packages/broker/src/adapters/in-memory.ts:248-260 | A limit bounds the handlers in flight if and only if it is at least two. |
| KeyPartition.PartitionForKey | packages/broker/src/adapters/in-memory.ts:45-52 | For every key and positive partition count, the wrapping loop gives the signed 32-bit value of the key's base-31 polynomial, reduced by the Euclidean remainder, so the result is a partition; a missing key gives 0. |
| KeyPartition.ToInt32 | packages/broker/src/adapters/in-memory.ts:49 | The signed 32-bit value: in range, and congruent to the number modulo 2^32. |
| KeyPartition.PolynomialAppend | packages/broker/src/adapters/in-memory.ts:48-50 | One more character takes the polynomial times 31 plus its code unit. |
| KeyPartition.HashOfAbc | packages/broker/src/adapters/in-memory.ts:45-52 | The key "abc" hashes to 96354 and takes the first of three partitions. |
| KeyPartition.WrapAbsorbs | packages/broker/src/adapters/in-memory.ts:49 | Wrapping to 32 bits before the next hash step is invisible after it. |
| KeyPartition.DoubleRemainderIsEuclidean | packages/broker/src/adapters/in-memory.ts:51 | The double truncating remainder is the Euclidean remainder for either sign. |

## Left out

- Conservation.NothingIsLost: "handled" means that a handler has completed for the record or for another record with the same known event id, because that is what the duplicate guard equates.
- AtMostOnce.HandledOncePerWindow: one process, time-to-live off, as in the code's defaults; a crash empties the filter, and the window starts again.
- Journeys.CopiesAreFaithful: the dead letter's error text, error type, time of failure and headers are not modelled.
- Runners.Runner.HandleSource: one delivery at a time; interleaving with other lanes is in the state machine, not in the class. The filter appears as the entries of `Idempotency.IdempotencyFilter`, not as a shared object.
- RetryTopic.ScheduledHeadersReadBack: ISO texts stand for the instants they denote; counts of 10^21 and above, which print in exponent form, and instants outside the range of `Date`, for which `toISOString` throws, are not modelled. Blanks in numeric headers are space, tab, line feed and carriage return.
- RetryTopic.NextDelay: delays are whole milliseconds and `priorDeliveries` is an integer.
- Backoff.TotalSleepIsBounded: non-negative base, cap and factor; arithmetic over reals.
- Backoff.BackoffIsExponential: factors of at least 1; with a smaller factor a backoff held at the cap says nothing of the next one.
- Idempotency.AnswersExactlyTheRecentMarks: before any eviction only; afterwards `RefinesInsertionLog` describes the map.
- OutboxRuns.PublishedArePrefix: a write that takes effect and still fails is excluded here, since it is published again; `OutboxProcess.PublishesOnceInOrder` includes it.
- OutboxProcess.PublishesOnceInOrder: about the log between polls; inside a republished block a reader sees the block's rows once more.
- InMemoryBroker.OffsetsCountIffNoneUndercut: a broker that is disconnected while a produce to the partition waits for its codec is excluded; other disconnections start the count again.
- RetryJourney.Follow: one message and no faults; the bounds on requeues and schedules that hold with faults are in `RequeueBound`.
- RequeueBound.RequeuesAreBounded: the clock does not go back and starts at the epoch or later.
- ViewHistory.ViewFollowsTheOrders: between polls, as above; a customer with a late failure is covered by `ViewIsAlwaysAPastState`.
- OutboxRuns.Drains: "stuck" rows are pending rows that do not parse or were dispatched and not marked.
- Duplicates.SkippedOnlyIfSameEventHandled: a payload whose `eventId` is the text "unknown" counts as one without the field, as in the code.
- EndToEnd.PublishedViewShowsAggregate: one web process at a time. Records of other producers and tombstones on the topic are not part of it.
- OrderStore.OrderStore.CreateOrderWithOutbox: line items, status and created-at of the order row, and a rollback that itself fails.
- InMemoryBroker.ExactlyOnceHandOff: up to the dispatcher; records already queued in a pool still start after disposal, and a dispatch that rejects is only logged.
- SQLite is an atomic table, Kafka transactions are append-on-commit with a nondeterministic outcome; a poll whose `peekPending` throws changes nothing.
- Rebalancing and several consumers in one group; the offset committed is offset + 1 and a throw makes the driver redeliver, and nothing else of the Confluent adapter is used.
- JSON and Avro codecs, Zod schemas (an arbitrary predicate of topic and value), trace headers, telemetry, metrics and logging.
- The disposer of the relay is called at most once.
- HTTP servers, server-sent events, configuration, shutdown signals, the web UI, sample generators and the notification handler, which is an arbitrary may-fail oracle.
