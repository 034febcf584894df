# Payment gateway: a verified model

A payment is created by an HTTP request, decided by a worker or by a webhook, and announced to the rest of
the system through an outbox and an at-least-once bus. Everything that touches it can be repeated, delayed,
duplicated or killed half way. This project models that machinery in Dafny and proves what survives.

## How it is modelled

**Tables and transactions.** `Tables.Db` is the database as a value and `Tables.Commit(db, tx)` the effect of
one committed transaction. `Store.PaymentStore` is the imperative form: repositories and services that read,
patch, append and flag rows step by step, each method proved to leave exactly the state `Commit` says,
including the roll-backs. `Journal` proves what every transaction keeps in whatever order they commit.

**The running system.** `Protocol.World` is the tables, the bus, the idempotency cache and any number of
handlers with program counters: payment workers, retry relays, outbox publishers, webhooks and API requests.
One action is one transaction, one read, one publish, one gateway call or one reply. Actions interleave
freely, a handler may crash between any two of them, and a message can be delivered again, also concurrently,
until it is acknowledged. A webhook's unlocked read and its version-guarded commit are two actions. The Redis
lock is not consulted, so nothing proved about the lifecycle depends on it. `Safety` has the invariant,
`Guarantees`, `Retries`, `Relays`, `Progress` and `Idempotency` the promises for all histories.

**Handlers alone.** `Workers` and `PaymentsApi` hold the worker, the retry relay and `POST /payments` as
sequential imperative code, and prove that a handler that meets no other is one particular run of the
protocol, ending in the same tables.

**Components.** `OutboxPublisher`, `RateLimiter`, `Breakers` and `Leases` are classes with the original's
fields and loops, proved against a simple account of the past: what becomes of each row of a batch
(`OutboxBatches`), the full log of accepted timestamps, the sequence of completions, the clients' own belief
about their lease. `OutboxProgress` follows the outbox from poll to poll. `Backoff` is arithmetic.

**History variables.** A message's `origin` (the outbox row it descends from), a retry row's `ticket` (the
value the worker's own increment produced), `charges` and `crashes`, and the classes' ghost logs record the
past; no step depends on them. So do the reason in an `Exhausted` and in a `HookFailed` journal entry: the
original keeps the first in the payment's failure reason and the second in the stored webhook, not in the entry,
and `Guarantees.CausesAreRecorded` proves that they are found there.

## Where the code and its documentation differ

- The documentation says webhooks follow the dominance SUCCESS > FAILED > PROCESSING > PENDING. The code never
  changes a decided payment, so a SUCCESS webhook does not override FAILED; and a webhook whose event id is taken
  or whose read was overtaken, by another change or by the payment's creation, leaves an open payment as it is. `Guarantees.DominanceExactly` proves that the dominance fails in exactly
  these cases; `Counterexamples.SuccessDoesNotOverrideFailed` and `Counterexamples.OvertakenWebhookChangesNothing`
  reach one world of each.
- The documentation ties a DLQ record to FAILED. A webhook may have made the payment SUCCESS meanwhile: the
  record implies that the payment is decided and the budget used up (`Guarantees.DlqOnlyAfterDecision`), and
  FAILED exactly when nobody had made it SUCCESS by the time the worker gave up
  (`Guarantees.DlqMeansFailedUnlessSettled`). `Counterexamples.DlqRecordOfSuccess` reaches a record about a SUCCESS payment.
- The outbox is described as eventually publishing every row. A healthy row gets out at last exactly if fewer
  than fifty pending rows that always fail are before it and none whose failure can never be noted, whatever
  arrives or happens behind it (`OutboxProgress.PublishedEventuallyExactly`). A single row of the second kind is
  enough, for it ends every batch that gets to it. `OutboxProgress.RowFiftyOneStarves` and
  `OutboxProgress.RowOneStarves` are outboxes in which a healthy row never gets out for either reason.
- The status read before a gateway call is not repeated, so a decided payment can still be charged: exactly when
  some worker has read it as PROCESSING and has not called yet (`Retries.DecidedIsChargedInHistory`), as in
  `Counterexamples.DecidedPaymentIsCharged`. Such calls are within the bound of `Retries.GatewayCallsAreBounded`.

## Assumptions

Transactions are atomic at READ COMMITTED, unique keys are enforced, and a row read with FOR UPDATE stays put
until its transaction ends. A message is acknowledged only after its handler resolves. Ids are row numbers,
so a fresh uuid is the next number, and outbox rows are in `createdAt` order. Configuration values are integers, with breaker
threshold at least 1, window at least 1 ms and base delay at least 1 ms. There is one clock; adding to the
sorted set and renewing its expiry happen together; tokens and sorted-set members are fresh. Where the outbox is
followed from poll to poll, a poll is one whose claim succeeds, and a row in question fares alike in all of them.

## Model

| member | source | states |
|---|---|---|
| Domain.GuardChainIsTerminalTest | src/modules/webhook/services/webhook.service.ts:49-65 | the webhook's three guards together let a call through exactly when the payment is not decided; precedence alone would let SUCCESS over FAILED |
| Domain.MoveTables | src/modules/payment/services/paymentStateMachine.service.ts:4-37 | exactly which moves the transition table, the webhook rule and the precedence order allow, for every pair of statuses |
| Journal.CommitEvolves | src/modules/payment/repositories/payment.repository.ts:42-66 | every transaction, with any arguments and any honest stale read, only moves rows forward: decisions stay, counters grow, nothing is deleted |
| Journal.CommitKeepsJournal | src/workers/payment.worker.ts:42-188 | every transaction keeps the event list an exact journal of status, version, reference, failure reason and outbox rows; the reason of a give-up or a webhook failure is a history variable of its entry |
| Journal.MovesAreSanctioned | src/modules/payment/services/paymentStateMachine.service.ts:4-37 | every status change obeys the transition table, except that a webhook may take PENDING straight to its target |
| Journal.LegalJournalShape | src/modules/payment/services/paymentStateMachine.service.ts:4-9 | a journal has one to three entries, starts with the creation, and only its last entry decides |
| Journal.JournalAccounts | src/modules/webhook/services/webhook.service.ts:67-117 | version at most 2; one initiation row; one success or failed row exactly when decided so; one notification exactly on SUCCESS; one audit row exactly when a success or a webhook was last |
| Guarantees.FirstDecisionStands | src/modules/payment/repositories/payment.repository.ts:58-64 | once SUCCESS or FAILED, status, version, reference and reason never change, in any interleaving and without the lock |
| Guarantees.JournalIsExact | src/modules/payment/services/payment.service.ts:33-69 | at every moment the event list replays to status, reference and (with the entries' history variables) failure reason, counts the version, and the payment's non-retry outbox rows are exactly those of its events, in order |
| Guarantees.CausesAreRecorded | src/modules/webhook/services/webhook.service.ts:42-46 | in every history those history variables equal stored columns: a webhook failure's reason that of its webhook row, a give-up's cause that in the payment's failure reason |
| Guarantees.StaleReadConflicts | src/modules/webhook/services/webhook.service.ts:48-76 | a webhook that read an open payment that has been decided since fails the version guard and writes nothing |
| Guarantees.WebhooksTakeEffectOnce | prisma/schema.prisma:80-90 | in every history an event id enters the journals at most once, only with its webhook row, and every webhook row is processed |
| Guarantees.WebhookIsAllOrNothing | src/modules/webhook/services/webhook.service.ts:41-76 | a webhook transaction is refused exactly for a taken event id or a version conflict, and then leaves no trace that would suppress its redelivery |
| Guarantees.CommittedWebhookDecides | src/modules/webhook/services/webhook.service.ts:48-82 | after a committed webhook whose payment existed when read, the payment is decided from then on |
| Guarantees.DominanceExactly | src/modules/webhook/services/webhookConflict.service.ts:5-8 | for any honest read, fresh or overtaken, a webhook leaves the dominant status if and only if it is not a SUCCESS meeting FAILED, and not one with a taken event id or an overtaken read on an open payment |
| Guarantees.GivenUpIsFailedUnlessSettled | src/workers/payment.worker.ts:137-154 | from the step on which a worker gives up, at every later moment, the payment is decided, and FAILED exactly when nobody had made it SUCCESS by then |
| Guarantees.DlqMeansFailedUnlessSettled | src/workers/payment.worker.ts:137-161 | every DLQ record in every history goes back to a worker's giving up on that payment with that attempt and reason, and its payment is FAILED exactly when it was not SUCCESS at that step |
| Counterexamples.SuccessDoesNotOverrideFailed | src/modules/webhook/services/webhook.service.ts:57-63 | a reachable world with a processed SUCCESS webhook about a FAILED payment |
| Counterexamples.OvertakenWebhookChangesNothing | src/modules/webhook/services/webhook.service.ts:48-76 | a reachable world where a SUCCESS webhook that read PENDING is refused and the payment stays PROCESSING |
| Counterexamples.DlqRecordOfSuccess | src/workers/payment.worker.ts:137-161 | a reachable world with a DLQ record about a SUCCESS payment |
| Counterexamples.DecidedPaymentIsCharged | src/workers/payment.worker.ts:62-67 | a reachable world in which the next step calls the gateway for a SUCCESS payment |
| Guarantees.PublishedRowsWereSent | src/modules/outbox/services/outboxPublisher.service.ts:15-35 | with any number of publishers, a row marked published has a message about its payment with its payload on the bus, and stays published |
| Guarantees.InitiationsTraceBack | src/modules/retry/consumers/retry.consumer.ts:22-44 | every initiation message descends from a committed payment's outbox row, directly or through a relay, or from a manual replay |
| Protocol.HandlersByTopic | src/workers/retry.worker.ts:11-21 | each payload goes to its own topic, and a delivery starts exactly the handler that consumes that topic, about the message's payment |
| Guarantees.FailedPublishIsNoted | src/modules/outbox/services/outboxPublisher.service.ts:31-34 | a publish or mark that fails costs the row one attempt and leaves the error, and loses no message |
| Guarantees.DlqOnlyAfterDecision | src/workers/payment.worker.ts:137-163 | a DLQ record is about a payment already decided, with a retry count at or above the maximum |
| Guarantees.NoPaymentStranded | src/workers/payment.worker.ts:28-188 | at every moment an undecided payment has an unpublished carrier row or an unacknowledged carrier message, through every crash, duplicate and race |
| Safety.NextKeeps | src/infrastructure/kafka/kafka.consumer.ts:29-36 | every action of every handler, every crash, failed publish and redelivery keeps the system invariant |
| Safety.HistoryInv | src/workers/payment.worker.ts:28-188 | the invariant holds in every world of every history |
| Safety.HistoryGrew | src/modules/payment/repositories/payment.repository.ts:42-66 | along a history nothing recorded in a table or on the bus is lost or undone |
| Retries.RetriesAreBounded | src/workers/payment.worker.ts:127-169 | a payment gets at most max(MAX_RETRY_ATTEMPTS - 1, 0) retry rows however workers interleave |
| Retries.RetriesArePaired | src/modules/retry/services/retryScheduler.service.ts:16-38 | retry rows and retry outbox rows are the same list, in order and with equal contents, each order naming its own row |
| Relays.RelayedExactlyWhenProcessed | src/modules/retry/consumers/retry.consumer.ts:29-41 | in every history the record of an acknowledged retry order is processed, and the initiation of a processed record's payment, descended from the record's own order, is on the bus |
| Retries.HistoryTickets | src/workers/payment.worker.ts:127-135 | counted attempts of a payment are pairwise different, and each scheduled retry used up one below the maximum |
| Retries.HistoryAccounts | src/workers/payment.worker.ts:62-170 | while a payment is open its gateway calls are exactly its retries, plus the workers that have called and not yet committed, plus those lost in a crash there |
| Retries.DecidedCallsWereCleared | src/workers/payment.worker.ts:62-67 | once a payment is decided, no step raises calls made and calls already cleared by a status read, taken together |
| Retries.DecidedIsChargedExactly | src/workers/payment.worker.ts:62-67 | from a decided payment some run makes another gateway call for it if and only if a worker has passed its status read and not called yet |
| Retries.DecidedIsChargedInHistory | src/workers/payment.worker.ts:62-67 | that condition at every moment of every history, and from the decision on never more calls than were cleared by then |
| Retries.GatewayCallsAreBounded | src/workers/payment.worker.ts:62-67 | with at most c workers at once between the status read and the commit, at most max(MAX_RETRY_ATTEMPTS - 1, 0) + c gateway calls, plus one per crash after a call |
| Retries.GatewayCallsUnderLock | src/workers/payment.worker.ts:31-67 | with mutual exclusion and no crash there, at most max(1, MAX_RETRY_ATTEMPTS) gateway calls |
| Progress.FaultFreeCosts | src/workers/payment.worker.ts:41-115 | every fault-free action, whatever the gateway answers, lowers a measure of carrier stages and retry budget |
| Progress.OpenCanMove | src/modules/outbox/services/outboxPublisher.service.ts:11-37 | while a payment is open some fault-free action is enabled |
| Progress.FaultFreeRunsSettle | src/modules/retry/services/retryScheduler.service.ts:10-39 | a fault-free run from any moment of any history is bounded, and when it cannot go on every payment is decided |
| Progress.CanSettle | src/workers/payment.worker.ts:28-170 | from every sound state a fault-free run exists that decides every payment |
| Idempotency.OnePaymentPerKey | src/modules/payment/services/payment.service.ts:33-69 | keys and payments correspond one to one, each with one creation entry and one initiation row, and a cached reply names its key's payment |
| Idempotency.RepliesAgree | src/api/controllers/payment.controller.ts:23-32 | all 201 replies ever sent for one key agree on id, amount, currency, metadata, correlation id and creation time |
| Idempotency.TrimIsNormal | src/api/middlewares/idempotency.middleware.ts:8-13 | trimming drops only blanks at the two ends, leaves none there, and is idempotent |
| Idempotency.BlankCodes | src/api/middlewares/idempotency.middleware.ts:9-13 | exactly which characters trimming takes for blanks |
| PaymentsApi.IdempotencyCache.GetCachedResponse | src/infrastructure/redis/idempotencyCache.service.ts:6-15 | a hit exactly while the entry has not expired |
| PaymentsApi.IdempotencyCache.SetCachedResponse | src/infrastructure/redis/idempotencyCache.service.ts:17-27 | the entry is readable for exactly 24 hours |
| PaymentsApi.IdempotencyCache.DeleteCachedResponse | src/infrastructure/redis/idempotencyCache.service.ts:29-31 | removes the key's entry and no other |
| PaymentsApi.Api.Create | src/api/middlewares/idempotency.middleware.ts:7-38 | cache, then table, then creation: tables, cache and reply are those of `Post`, and the cache stays faithful to the table |
| PaymentsApi.CreatesExactlyWhenNew | src/api/middlewares/idempotency.middleware.ts:17-33 | a request adds one payment, entry, outbox row and key exactly when its key is neither blank nor taken and the amount is positive |
| PaymentsApi.NewPurchaseIsAsAsked | src/modules/payment/services/payment.service.ts:34-80 | the reply, the stored row, the snapshot and the cached entry of a new key all show the purchase as requested |
| PaymentsApi.AnswersAreCached | src/api/middlewares/idempotency.middleware.ts:17-28 | when a request is refused, and that every answer is in the cache afterwards: a hit word for word, a known key with its stored snapshot, each for another day |
| PaymentsApi.ResponseShowsRow | src/modules/payment/services/payment.service.ts:71-80 | a reply shows the payment's row column by column |
| PaymentsApi.RepeatIsReplay | src/api/middlewares/idempotency.middleware.ts:13-29 | once a key was answered, every later request with it gets a 201 for the same purchase and writes no table, whatever happened in between and whatever the cache lost |
| PaymentsApi.SoloRequestIsPost | src/api/controllers/payment.controller.ts:15-33 | a request that meets no other is a run of the protocol with the tables and reply of `Post` |
| Store.PaymentStore.FindById | src/modules/payment/repositories/payment.repository.ts:5-7 | the row if there is one |
| Store.PaymentStore.UpdateStatus | src/modules/payment/repositories/payment.repository.ts:42-66 | sets exactly the named columns and bumps the version exactly when the version still matches, else changes nothing |
| Store.PaymentStore.Enqueue | src/modules/outbox/repositories/outbox.repository.ts:5-22 | appends one unpublished row |
| Store.PaymentStore.MarkPublished | src/modules/outbox/repositories/outbox.repository.ts:35-40 | the row is published without error, nothing else changes |
| Store.PaymentStore.MarkFailure | src/modules/outbox/repositories/outbox.repository.ts:42-47 | one more attempt and the error cut to 2000 characters, nothing else changes |
| Store.PaymentStore.BeginProcessing | src/workers/payment.worker.ts:42-60 | PENDING becomes PROCESSING with its event and row, column by column; otherwise nothing |
| Store.PaymentStore.SettleSuccess | src/workers/payment.worker.ts:70-104 | true exactly if the payment was still PROCESSING, and then SUCCESS with its reference, no reason, its event and its three rows; otherwise nothing |
| Store.PaymentStore.MarkExhausted | src/workers/payment.worker.ts:138-154 | a PROCESSING payment becomes FAILED with the prefixed reason, its event and row; any other is left alone |
| Store.PaymentStore.MarkPermanentFailure | src/workers/payment.worker.ts:172-188 | a PROCESSING payment becomes FAILED with the reason, its event and row; any other is left alone |
| Store.PaymentStore.IncrementRetryCount | src/workers/payment.worker.ts:127-132 | one more counted attempt, version untouched |
| Store.PaymentStore.ScheduleRetry | src/modules/retry/services/retryScheduler.service.ts:10-39 | the retry row and its order together |
| Store.PaymentStore.MarkRelayed | src/modules/retry/consumers/retry.consumer.ts:36-41 | an existing record becomes processed, and nothing else changes |
| Store.PaymentStore.ApplyWebhook | src/modules/webhook/services/webhook.service.ts:41-123 | commits exactly if the event id is new and, when it applies, the version read still stands; otherwise everything is rolled back |
| Store.PaymentStore.HandleStructured | src/modules/webhook/services/webhook.service.ts:35-126 | uninterrupted: a known id changes nothing; a new one decides an open payment with its reference and reason, journal entry and outbox rows, and leaves any other alone |
| Store.PaymentStore.CreatePayment | src/modules/payment/services/payment.service.ts:22-81 | four inserts or none, and the reply read back; a taken key or an amount that is not positive leaves nothing |
| Workers.PaymentWorker.HandlePaymentInitiated | src/workers/payment.worker.ts:28-116 | without the lock nothing happens; with it the tables are those of the handled delivery, any retry added is due after the exact backoff of its attempt, a DLQ record is sent exactly on giving up, and the lease that was free when taken is given back, unless somebody else holds it by then |
| Workers.PaymentWorker.ProcessLocked | src/workers/payment.worker.ts:41-112 | what the handler does between lock and release, with the due instant of any retry |
| Workers.PaymentWorker.HandleGatewayFailure | src/workers/payment.worker.ts:118-170 | whatever became of the payment during the call: permanent failures decide; transient ones count, then give up or reschedule, with row and order due at the same instant, the exact backoff of the attempt away |
| Workers.FailureLeavesDecisions | src/workers/payment.worker.ts:118-188 | dealing with a failed charge changes nothing of a payment that is not PROCESSING but the retry count, decides one that is unless it is rescheduled, and each transient failure yields exactly one retry row or one DLQ record |
| Workers.PaymentWorker.ExecuteRetryRelay | src/modules/retry/consumers/retry.consumer.ts:22-44 | publishes the initiation no earlier than its due time, then marks the record |
| Workers.HandlingDecidesOrReschedules | src/workers/payment.worker.ts:41-170 | one handled delivery decides an open payment as the verdict says, or leaves it processing with one more attempt, retry row and order |
| Workers.SoloRunIsHandler | src/workers/payment.worker.ts:28-170 | a delivery that meets no other is a run of the protocol ending in the sequential handler's tables, with its message acknowledged and exactly the handler's DLQ record, if any, added to the bus |
| OutboxPublisher.Publisher.ClaimBatch | src/modules/outbox/repositories/outbox.repository.ts:24-33 | the oldest unpublished rows, up to the limit |
| OutboxPublisher.Publisher.PublishRow | src/modules/outbox/services/outboxPublisher.service.ts:16-34 | by fate: the message of the row's own payment and payload is sent or not, the row is marked, or charged an attempt, or untouched |
| OutboxPublisher.Publisher.PublishPendingBatch | src/modules/outbox/services/outboxPublisher.service.ts:11-37 | the batch's rows are dealt with in order by their fates, up to a failure that cannot be noted; the count is that of newly marked rows |
| OutboxBatches.BatchOfFifty | src/modules/outbox/services/outboxPublisher.service.ts:12-13 | a batch is the fifty oldest unpublished rows, or all of them |
| OutboxBatches.NotedOnTheRow | src/modules/outbox/repositories/outbox.repository.ts:35-47 | a noted failure costs one attempt and leaves the error cut to 2000 characters, a success clears it, and nothing else about the row changes |
| OutboxBatches.SendsExactly | src/modules/outbox/services/outboxPublisher.service.ts:17-28 | a batch sends, in order, one message for each row that gets as far as the broker, about its payment and with its payload, and nothing else |
| OutboxPublisher.Publisher.RunLoop | src/modules/outbox/services/outboxPublisher.service.ts:39-49 | the outbox is that after so many batches, every row marked was sent, and below any position with k < 50 always failing rows and no pending row whose failure cannot be noted, ceil(h / (50 - k)) polls leave none of h healthy ones |
| OutboxBatches.BatchIsAtLeastOnce | src/modules/outbox/services/outboxPublisher.service.ts:15-35 | whatever the fates of its rows, a batch only moves rows forward, marks none whose message it has not sent, and sends only what waiting rows call for |
| OutboxBatches.PendingComplete | src/modules/outbox/repositories/outbox.repository.ts:24-33 | the rows eligible for a batch are exactly the unpublished ones |
| OutboxBatches.DealtPointwise | src/modules/outbox/services/outboxPublisher.service.ts:15-35 | each row of the batch is dealt with once, by its own fate, every other row is untouched |
| OutboxBatches.ReachedWereSent | src/modules/outbox/services/outboxPublisher.service.ts:17-30 | every row that gets as far as the broker, so every row a batch marks, has its message among the sends |
| OutboxProgress.ClaimsOldest | src/modules/outbox/repositories/outbox.repository.ts:24-33 | of the unpublished rows below any position a batch takes all that fit |
| OutboxProgress.ProgressBelow | src/modules/outbox/services/outboxPublisher.service.ts:11-37 | below any position the rows that fail stay, noted or not; of h healthy ones, with k < 50 failing and none that cannot be noted, at least min(50 - k, h) leave, whatever happens behind |
| OutboxProgress.BatchProgress | src/modules/outbox/services/outboxPublisher.service.ts:11-37 | with k < 50 failing, n healthy and no unnotable rows pending a batch completes, marks at least min(50 - k, n) healthy rows, and its count is theirs |
| OutboxProgress.BatchStallsExactly | src/modules/outbox/services/outboxPublisher.service.ts:12-35 | a batch marks nothing exactly when every row it gets to fails, all fifty or those up to the first that cannot be noted, and then the next batch is the same |
| OutboxProgress.DrainedAfter | src/modules/outbox/services/outboxPublisher.service.ts:39-49 | with h healthy, k < 50 failing and no unnotable rows pending below a position, after ceil(h / (50 - k)) polls no healthy row is left there, whatever arrives or happens behind |
| OutboxProgress.PublishedEventuallyExactly | src/modules/outbox/services/outboxPublisher.service.ts:11-49 | a healthy row is published after some number of polls if and only if fewer than fifty pending rows that always fail and no pending row whose failure can never be noted are before it |
| OutboxProgress.RowFiftyOneStarves | src/modules/outbox/services/outboxPublisher.service.ts:12-13 | of 52 rows with rows 1 to 50 always refused, row 0 leaves with the first poll and row 51 never does |
| OutboxProgress.RowOneStarves | src/modules/outbox/services/outboxPublisher.service.ts:31-33 | of two rows of which row 0 can be neither published nor noted, row 1 never leaves |
| RateLimiter.SlidingWindow.Allow | src/infrastructure/redis/rateLimiter.service.ts:7-35 | allowed exactly when the full log has fewer than max entries in the window; the hint of a rejection is exact; the key holds exactly the window's entries and, after an accepted call, is forgotten a second after the window |
| RateLimiter.ExpiryIsHarmless | src/infrastructure/redis/rateLimiter.service.ts:32-32 | the key's expiry never drops an entry still in the window |
| RateLimiter.HintIsExact | src/infrastructure/redis/rateLimiter.service.ts:25-28 | the hint lies in (0, w] and a later call is admitted exactly from that instant on |
| RateLimiter.EveryWindowIsBounded | src/infrastructure/redis/rateLimiter.service.ts:12-34 | an ascending log that was within the bound at each entry is within it in every window (t - w, t] |
| RateLimiter.WindowBound | src/infrastructure/redis/rateLimiter.service.ts:17-32 | with at most c calls between check and add, every window holds at most max + c - 1 accepted calls, and max when c is 1 |
| RateLimiter.ChecksPassExactly | src/infrastructure/redis/rateLimiter.service.ts:17-29 | with interleaved calls, a check passes exactly when fewer than max of the passes in its window have added their entry |
| Breakers.CircuitBreaker.Begin | src/modules/gateway/services/circuitBreaker.service.ts:18-25 | the part of `execute` before the call: admitted or rejected, half-open after the reset time |
| Breakers.CircuitBreaker.End | src/modules/gateway/services/circuitBreaker.service.ts:26-44 | the part after it; while closed the counter stays the reflected walk of the period's completions |
| Breakers.CounterIsWorstSuffix | src/modules/gateway/services/circuitBreaker.service.ts:31-36 | the counter is the largest excess of failures over successes in any block of completions ending now |
| Breakers.ClosedCounterIsWalk | src/modules/gateway/services/circuitBreaker.service.ts:28-36 | in any interleaving, while closed the counter is the reflected walk of the completions since the breaker was last freshly closed |
| Breakers.OpensAtFirstBadBlock | src/modules/gateway/services/circuitBreaker.service.ts:36-42 | in any closed period of any interleaving, the breaker opens exactly at the first completion where some block of the period ending there has failures exceeding successes by the threshold |
| Breakers.BreakerStates | src/modules/gateway/services/circuitBreaker.service.ts:17-45 | over all interleavings: closed exactly below the threshold, a failure while half open opens again, a rejection changes nothing |
| Breakers.BreakerMoves | src/modules/gateway/services/circuitBreaker.service.ts:17-45 | in any interleaving, what every start and every completion does to state, counter and stamp; a success while half open closes and forgives everything |
| Breakers.OpensOnlyAtLaterBlock | src/modules/gateway/services/circuitBreaker.service.ts:28-42 | from such a closing, or the start, on the breaker stays closed while no block of the completions since has failures exceeding successes by the threshold, and opens with the first |
| Breakers.ShutUntilReset | src/modules/gateway/services/circuitBreaker.service.ts:18-25 | after an opening the circuit stays open, or the reset time has passed |
| Breakers.AdmittedOnlyAfterReset | src/modules/gateway/services/circuitBreaker.service.ts:19-23 | a call admitted after an opening at T starts later than T + resetTimeoutMs |
| Breakers.GatewayClient.GetBreaker | src/modules/gateway/services/gatewayClient.service.ts:14-23 | one breaker, created closed on first use |
| Breakers.GatewayClient.Charge | src/modules/gateway/services/gatewayClient.service.ts:28-68 | the verdict field by field and the circuit after a charge, for every outcome and an open circuit |
| Breakers.VerdictShape | src/modules/gateway/services/gatewaySimulator.service.ts:65-76 | success, transaction id and absence of an error go together; only an issuer decline that reached the gateway is permanent; each outcome is reported with its own id, flag, reason or message |
| Leases.PaymentLocks.AcquirePaymentLock | src/infrastructure/redis/distributedLock.service.ts:6-16 | succeeds exactly if nobody holds the lease |
| Leases.PaymentLocks.ReleasePaymentLock | src/infrastructure/redis/distributedLock.service.ts:18-28 | deletes the lease exactly if the token holds it |
| Leases.PaymentLocks.ExtendPaymentLock | src/infrastructure/redis/distributedLock.service.ts:30-41 | renews the lease exactly if the token holds it |
| Leases.PaymentLocks.TryLockPayment | src/modules/payment/services/paymentLock.service.ts:14-24 | acquires, and starts a timer only on success |
| Leases.PaymentLocks.Tick | src/modules/payment/services/paymentLock.service.ts:22-24 | the timer's callback extends its own lease |
| Leases.PaymentLocks.Release | src/modules/payment/services/paymentLock.service.ts:28-31 | clears the timer, then releases |
| Leases.PaymentLocks.AcquireWithPatience | src/workers/payment.worker.ts:31-39 | no lock exactly if the lease was held at all 18 attempts; else the first free attempt took it |
| Leases.BeliefIsTrue | src/infrastructure/redis/distributedLock.service.ts:6-41 | a client that still counts on its lease, from its own successful calls only, does hold it |
| Leases.AtMostOneHolder | src/infrastructure/redis/distributedLock.service.ts:14-15 | at most one client per payment counts on an unexpired lease |
| Leases.StaleTokensAreHarmless | src/infrastructure/redis/distributedLock.service.ts:20-38 | a stale release or extend, or a failed acquire, changes nothing, and no call touches another payment's lease |
| Leases.ReleaseFrees | src/infrastructure/redis/distributedLock.service.ts:18-28 | a release by the holder frees the lease at once, and the next acquire takes it |
| Leases.RenewedLeaseIsKept | src/modules/payment/services/paymentLock.service.ts:21-24 | renewals each late by less than ttl - floor(ttl/2) keep the lease, whatever others do |
| Leases.HolderUntilOverdue | src/modules/payment/services/paymentLock.service.ts:21-31 | the holder holds up to that lateness, and a lease never renewed is free at it |
| Backoff.JitterBounds | src/modules/retry/services/exponentialBackoff.service.ts:7-7 | jitter at least 0, at most a fifth of the raw delay, below two seconds |
| Backoff.DelayBounds | src/modules/retry/services/exponentialBackoff.service.ts:4-9 | the delay is between the capped raw delay and the cap, and at most six fifths of the raw delay |
| Backoff.DelayIsExact | src/modules/retry/services/exponentialBackoff.service.ts:4-9 | for retry n the delay is the whole part of base * 2^n and the drawn share of a fifth of it or two seconds, capped at 900000 |
| Backoff.DelaysGrow | src/modules/retry/services/exponentialBackoff.service.ts:4-9 | whatever the draws a later retry waits no less, and longer while below the cap |
| Backoff.TotalWaitBound | src/workers/payment.worker.ts:134-169 | retries 1 to MAX - 1 one at a time wait in total at most 6/5 * base * (2^MAX - 2), and at most MAX - 1 caps |

## Left out

- Mutual exclusion by the lock, exactly-once charging, exactly-once DLQ records, a single half-open probe and byte-identical replies: not claimed, because the code does not provide them.
- Retries.GatewayCallsUnderLock: takes mutual exclusion in the gateway section as a premise; the lease provides it only while the holder's renewals are on time, and a gateway call can outlast its lease.
- Breakers.GatewayClient.Charge: the class method meets no other call between begin and end; interleaved calls are covered by the event sequences of `Breakers.Run`.
- Workers.PaymentWorker.HandlePaymentInitiated: nobody else acts during the method; interleavings are covered by the protocol.
- Store.PaymentStore.HandleStructured: nobody else acts during the method; `Store.PaymentStore.ApplyWebhook` and the protocol cover a payment that moves between read and commit.
- OutboxPublisher.Publisher.RunLoop: no new rows arrive during the method; `OutboxProgress` states the same bounds with rows arriving. In the protocol a publisher's claim of a batch is row by row.
- Idempotency.RepliesAgree: says nothing of status, reference, reason, retry count and `updatedAt`, which may differ between replies.
- RateLimiter.WindowBound: assumes a clock that does not go back.
- Backoff.DelayBounds: exact integers and reals, not floating point; beyond 2^53 the original's arithmetic rounds.
- Waiting times of handlers in the protocol: a retry may be relayed at any time there; only the relay's own method waits.
- The text of an audit or journal entry's payload beyond what the events and payload types carry, `updatedAt`, `publishedAt`, message headers and the stored amount's rounding to four decimals.
- JSON and HTTP parsing, request validation, authentication and webhook signatures, metrics, logging and tracing.
- The DLQ, audit, notification and webhook-bus consumers, which only log or insert one row.
- Helpers without callers: `updateStatusSimple`, `WebhookDedupService`, `markProcessed`.
- Probabilities and latencies of the simulated gateway: every verdict is an arbitrary choice.
