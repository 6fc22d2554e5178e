# Verified model of the asynchronous payment pipeline

A payment enters through the HTTP API, travels through a transactional outbox and a
RabbitMQ retry topology to a worker, is charged at an external provider behind a retry
loop and a circuit breaker, falls back to lease-based reconciliation when the provider's
answer is unknown, and ends with a webhook to the client.  This project models those
pieces and proves what holds in every run, with any number of API calls, relays,
consumers and reconcilers at work at once.

`dafny verify dfyconfig.toml` checks everything.

## How the model is built

* `Model.dfy`, `Transactions.dfy`: rows, events, provider messages, and the effect of every
  database transaction as a function on the committed database.  Fresh ids and clock
  readings are arguments.
* `Storage.dfy`, `PaymentService.dfy`, `PaymentProcessor.dfy`, `WebhookProcessor.dfy`,
  `OutboxRelay.dfy`, `ReconciliationWorker.dfy`, `Consumer.dfy`, `ProviderClient.dfy`,
  `CircuitBreaker.dfy`, `MockProvider.dfy`: the classes and loops of the services, each
  method proved against those functions or against a relation on its trace.  What other
  transactions commit in between is an arbitrary database state handed to the method; a
  commit may be acknowledged, lost with or without effect.
* `Broker.dfy`, `System.dfy`: the step machine.  Every transaction is one step; provider
  and webhook calls lie between steps.  Workers may crash, or lose their connection and
  work on while the message is delivered anew; publications may raise and still arrive,
  commits may take effect unacknowledged, clocks read anything.
* `Invariant.dfy`, `Preservation.dfy`, `Evolution.dfy`: the inductive invariant and the
  proof that every step keeps it and only moves rows forward.
* `Theorems.dfy`, `Creation.dfy`, `Leases.dfy`, `Exclusivity.dfy`, `Starvation.dfy`,
  `RelayExactness.dfy`, `RelayProgress.dfy`, `RetryBound.dfy`, `WebhookBound.dfy`: the
  results over all runs.
* `Witness.dfy`: two concrete runs, one of a payment that succeeds and one in which two
  reconcilers meet on one payment.

## Findings

* `process_batch` does not always return the number of payments it moved to a final
  status: a commit that takes effect but whose acknowledgement is lost raises, and the
  payment is not counted.  `Reconciliation.CountExactIff` says exactly when the count is
  right, `Reconciliation.CountCanFallShort` is a batch where it is not.
* A call admitted by the circuit breaker in one CLOSED period may end in a later CLOSED
  period and then counts there.  `CircuitBreakers.LateFinisherMatters` says exactly when
  a late finisher changes the breaker, `CircuitBreakers.OldCallReopens` is a history in
  which it opens the breaker again.
* The repository's README (line 337) says that the lease prevents simultaneous
  reconciliation of one payment by several workers.  It does so only while every worker is
  done before its lease runs out.  `Witness.LeasesOverlap` is a run in which two workers
  have renewed leases on one payment at once; `Exclusivity.InTimeExcludes` and
  `Exclusivity.OverlapNeedsOverrun` say that this needs a worker that is overrun by a claim
  after its lease has expired; `Exclusivity.JoinedIff` says exactly when a worker can be
  joined by another.  Without trusting any clock, a persist takes effect only if nobody
  claimed or persisted the payment since its own claim (`Leases.Fencing`).

## Model

| member | source | states |
|---|---|---|
| Theorems.NoLostWork | app/worker/consumer.py:31-106 | In every reachable state a PENDING payment's process event, and an unsent final payment's webhook event, is still unpublished or has a copy in payments.new, a retry queue, the DLQ or with a consumer that will not drop it; for an UNKNOWN payment that is not under manual review a claim step that takes it is enabled on every clock on which it is stale and unleased |
| Theorems.ProviderAgreement | app/worker/payment_processor.py:119-169 | In every run SUCCEEDED (FAILED) means the provider's record for that payment is approved (declined), with the same provider payment id and for the payment's own amount and currency |
| Theorems.ProviderPaymentsDistinct | app/models/payment.py:107-111 | Two final payments never carry the same provider payment id, so its unique constraint is never violated |
| Theorems.ProviderNeverConflicts | mock-provider/app/main.py:193-206 | Every request a worker ever posted is for an existing payment, its amount and currency, and cannot meet the 409 branch: a known key always has the identical payload |
| Theorems.WorkerNeverRefused | mock-provider/app/main.py:151-206 | No POST the client makes for a request of a worker takes the provider's 422 branch or its 409 branch |
| Theorems.RecordsWriteOnce | mock-provider/app/main.py:193-227 | Over any stretch of any run a provider record is never changed or removed |
| Theorems.StatusMachine | app/worker/payment_processor.py:99-169 | Between any two moments of a run the status only moves PENDING to anything or UNKNOWN to final; final results are frozen; a sent or reviewed payment never changes; the public status never goes back |
| Theorems.PublicStatusTruthful | app/schemas/payment.py:28-34 | What a client sees is what happened: success for a payment the provider approved, failure for one it declined, pending until the payment is settled |
| Theorems.OneEventOfEachKind | app/services/payment_reconciliation.py:269-309 | Exactly one process event per payment; exactly one webhook event when it is final and none before, its id being the stored one; result fields are set exactly when final |
| Theorems.WebhookErrorsUnreachable | app/worker/webhook_processor.py:64-139 | For webhook events that came through the outbox, no permanent-error branch of loading or marking is ever taken |
| Theorems.WebhooksConsistent | app/worker/webhook_processor.py:41-109 | All webhook requests ever sent for one payment carry the same URL, event id and payload, and these are the payment's own: id, status, amount, currency, metadata and processing time |
| Theorems.SystemRefinesBroker | app/integrations/rabbitmq/topology.py:15-51 | Every step of the whole system is, seen from the broker, a broker step, a phase change of one delivery, or nothing; first publications carry attempt 1 |
| Theorems.HandlingBound | app/worker/consumer.py:82-106 | In every run an event published P times with F faulty handlings is handled at most 3P + 3F times |
| Theorems.FaultsAreHandlings | app/worker/consumer.py:88-106 | F counts no handling twice: in every run the faults of an event are at most its handlings, less those under way and sound |
| Theorems.DeadLetters | app/worker/consumer.py:31-86 | In every run a copy enters the dead-letter queue only because its handling failed for good, or failed for the third time |
| WebhookBound.RequestBound | app/worker/webhook_processor.py:41-62 | In every run the webhook requests sent for an event are no more than its handlings, and so at most 3P + 3F |
| RetryBound.StepPays | app/worker/consumer.py:82-106 | Handlings plus growth of the potential (4 minus attempt over live copies) are paid for by three per publication and three per fault |
| Broker.ShapesKept | app/integrations/rabbitmq/publisher.py:17-31 | Every broker step keeps attempts within 1 to 3, retry.1 for second attempts and retry.2 for third ones |
| Broker.RetryNeverRaisesValueError | app/integrations/rabbitmq/publisher.py:23-29 | A retry always has attempt 2 or 3, so routing never raises and picks the queue of that attempt |
| Broker.CopiesMove | app/integrations/rabbitmq/topology.py:15-51 | No copy outside the dead-letter queue is stuck: each place has its step, and the step leads where the topology says |
| Broker.FailedCopiesMove | app/worker/consumer.py:82-106 | A failed handling can be dead-lettered after the third attempt and retried before it, through retry.1 and retry.2 in turn, acknowledged or requeued by the fate of the publication |
| Preservation.StepKeeps | app/worker/payment_processor.py:47-79 | The joint invariant over database, broker, relays, calls, leases and provider is kept by every step of the system |
| Preservation.RunKeeps | app/worker/payment_processor.py:47-79 | The joint invariant holds in every state of every run |
| Preservation.RetryKeeps | app/worker/consumer.py:88-106 | Handing an event over to a retry copy, whether the publish is confirmed, lost, or raises after arriving, never leaves the event without a copy |
| Preservation.BatchCommitted | app/services/outbox_relay.py:33-40 | Committing a batch marks only events that reached the broker and disturbs no other open batch |
| Evolution.RunEvolves | app/repositories/payment.py:38-49 | From any state of a run to any later one rows only evolve forward, outbox rows are never rewritten, records never change |
| Creation.CreationLinearises | app/services/payment.py:33-104 | Each step answers one call as an atomic get-or-create by key, or leaves the key store unchanged |
| Creation.OneCreationPerKey | app/services/payment.py:66-104 | Among racing calls with one key at most one reports a creation; reported payments own the key; conflict means a different stored request; the key violation is never re-raised |
| PaymentCreation.PaymentService.CreatePayment | app/services/payment.py:33-90 | With arbitrary commits of others around its transactions the call is one atomic get-or-create on the state its last transaction found; result and database are fixed by who owns the key there and by the fate of the commit, and an acknowledged commit is never an error |
| PaymentCreation.CallRefinesSteps | app/services/payment.py:33-90 | Read, insert and second read of a call are each one API step of the system, with the same database and result |
| Leases.Fencing | app/repositories/payment.py:51-145 | Whatever the clocks read: a persist that took effect came after its token's claim with no claim or persist of the payment in between |
| Exclusivity.OverlapNeedsOverrun | app/services/payment_reconciliation.py:70-102 | Whatever the clocks read: two tasks are active on one payment only if a claim took the payment from one of them while active, on a clock at or past the expiry of its last acknowledged renewal |
| Exclusivity.InTimeExcludes | README.md:337 | If no claimer's clock is ahead and every task is over before the expiry of its last acknowledged renewal, no two tasks are ever active on one payment |
| Exclusivity.JoinedIff | app/repositories/payment.py:62-121 | By a given time a task that is active and holds the lease can be joined by another one on its payment if and only if its lease has run out by then and the staleness time since the last write has passed |
| Exclusivity.TakenIffClaimable | app/repositories/payment.py:62-70 | A claim can take a payment, whoever works on it, if and only if it is stale and its lease has run out on the claimer's clock |
| Witness.LeasesOverlap | app/services/payment_reconciliation.py:129-190 | A concrete run, on one clock, after which two tasks with renewed leases are active on one payment |
| Leases.PersistsOnce | app/services/payment_reconciliation.py:221-311 | No token persists the same payment twice |
| Leases.PersistIsLogged | app/services/payment_reconciliation.py:233-311 | A persist that finds its lease gives it up and either settles the payment with a webhook event or costs it exactly one attempt; any other persist changes nothing |
| Leases.AttemptBudget | app/services/payment_reconciliation.py:250-267 | Attempts never exceed the budget, manual review is required exactly when they reach it, and such a payment is never claimable, leased or changed again |
| Starvation.NoStarvation | app/repositories/payment.py:60-93 | With one advancing clock a stale unleased UNKNOWN payment with r unresolved ones ahead is claimed within r / batch_size + 1 further claims, whatever else happens |
| Starvation.ClaimTakesFromAhead | app/repositories/payment.py:71-93 | A claim that misses a claimable payment removes a whole batch from those ahead of it |
| Starvation.StepTouches | app/models/payment.py:119-124 | Every write of a payment row, by any part of the system, stamps it with the current clock |
| RelayExactness.PublishedExactlyOnce | app/services/outbox_relay.py:26-46 | However many relays run and fail, an event has reached the broker once per failed transaction that had published it, and once more exactly if it is marked or an open transaction has published it; so without such failures at most once, and exactly once if marked |
| RelayExactness.MarkedOnlyIfSent | app/services/outbox_relay.py:26-46 | A committed publication mark was set by a transaction that had itself published the event, confirmed by the broker, and had been open since |
| RelayExactness.OpenBatchesDisjoint | app/repositories/outbox.py:19-42 | Two open batches never share a row |
| RelayProgress.EventSelected | app/repositories/outbox.py:23-34 | With one clock stamping the rows, an unpublished event with r ahead of it is selected before the relays have committed more than r / limit batches and those open now, whatever its kind and whatever fails |
| OutboxRelays.OutboxRelay.ProcessBatch | app/services/outbox_relay.py:26-46 | The batch is the first unpublished unlocked rows; on success they are published in order and marked; a failure at i leaves the table and delivers rows 0..i-1 and possibly i |
| OutboxRelays.BatchRefinesSteps | app/services/outbox_relay.py:26-46 | A batch is an opening, its publications and a commit or failure of the system's relay steps, with the same table and the same copies in the queue |
| OutboxRelays.MarksOfBatch | app/repositories/outbox.py:40-42 | A committed batch marks its rows, each with its own publication time, and no other row |
| Transactions.OldestUnpublished | app/repositories/outbox.py:23-34 | A batch holds unpublished unlocked rows, and one it leaves out, of whatever kind, comes after every row of a full batch by creation time and id |
| Transactions.StalestUnknown | app/repositories/payment.py:60-77 | A claim holds stale unleased UNKNOWN payments that need no review, and one it leaves out comes after every row of a full batch by update time and id |
| Selection.SelectFirst | app/repositories/outbox.py:23-34 | Computes the first n candidates in (time, id) order |
| Selection.FirstIsUnique | app/repositories/payment.py:71-75 | The (time, id) order and the limit determine the batch |
| Storage.PaymentRepository.ClaimReconciliationBatch | app/repositories/payment.py:51-93 | Claims exactly the first claimable rows not locked by others and writes token, expiry and update time to them and no other row |
| Storage.PaymentRepository.RenewReconciliationLease | app/repositories/payment.py:95-121 | Extends the lease, and says so, exactly when the token still holds an unexpired lease |
| Storage.PaymentRepository.GetClaimedPaymentForUpdate | app/repositories/payment.py:123-145 | Yields the row exactly when the token still holds an unexpired lease on an unreviewed UNKNOWN payment |
| Storage.OutboxRepository.GetUnpublishedBatch | app/repositories/outbox.py:19-38 | Refuses an empty limit, otherwise selects the first unpublished rows that are not locked |
| PaymentProcessing.PaymentEventProcessor.Process | app/worker/payment_processor.py:47-79 | Whatever others commit during the provider call, outcome and database are those of the load, the end of the call and the fate of the write; Done means the payment has left PENDING |
| PaymentProcessing.OnlyPendingIsCalled | app/worker/payment_processor.py:47-97 | The provider is called for pending payments only; a payment past PENDING is done, a missing one or an event of another kind a permanent failure |
| PaymentProcessing.ReplyDecides | app/worker/payment_processor.py:57-79 | From the last HTTP reply to the row: an answer settles the pending payment and stores its webhook event, an open outcome makes it UNKNOWN, a request not taken is retried and a rejected one is not |
| PaymentProcessing.CallDecides | app/worker/payment_processor.py:57-172 | The same from every end of the call and for a payment in any state when it is written |
| PaymentProcessing.ProcessRefinesSteps | app/worker/payment_processor.py:47-172 | Each such run is a load step, a step for the end of the call and a step for the write of the system, with the same outcome and database |
| PaymentProcessing.PaymentEventProcessor.MarkUnknown | app/worker/payment_processor.py:99-117 | Moves exactly a PENDING payment to UNKNOWN, or leaves everything |
| PaymentProcessing.PaymentEventProcessor.ApplyProviderResult | app/worker/payment_processor.py:119-172 | Settles exactly a PENDING payment together with its webhook event, or leaves everything |
| WebhookProcessing.WebhookEventProcessor.Process | app/worker/webhook_processor.py:41-62 | Outcome, request and database are those of the load, the reply and the fate of the mark; Done means the webhook is marked sent, after a 2xx answer if this call posted it |
| WebhookProcessing.PostedIff | app/worker/webhook_processor.py:64-109 | A webhook is posted exactly for a final payment whose event this is and that was not marked sent, and tells that payment field by field; a sent one is done, any other a permanent failure |
| WebhookProcessing.CodeDecides | app/clients/webhook.py:32-67 | No answer, 408, 429 and 5xx are retried, other answers but 2xx are not; after a 2xx the sending time is written, and done exactly if that is acknowledged or was done before |
| WebhookProcessing.ProcessRefinesSteps | app/worker/webhook_processor.py:41-139 | Each such run is a load step, a post step that logs the request and a mark step of the system, with the same outcome and database |
| WebhookProcessing.WebhookEventProcessor.MarkSent | app/worker/webhook_processor.py:111-139 | Writes the sending time only to a final, unsent payment whose webhook event this is |
| Reconciliation.PaymentReconciliationWorker.ProcessBatch | app/services/payment_reconciliation.py:70-102 | With arbitrary interference and swallowed exceptions the process writes exactly the one change of each visit that persists, leaves the database as its last transaction does, and returns a count that never exceeds the settlements and equals them if and only if no resolving commit lost its acknowledgement |
| Reconciliation.PaymentReconciliationWorker.PersistResolution | app/services/payment_reconciliation.py:221-315 | The new database is the fenced resolution and exactly its one change is written; true exactly when the payment was settled and the commit acknowledged |
| Reconciliation.CountExactIff | app/services/payment_reconciliation.py:70-102 | The returned count never overstates and is exact if and only if no resolving commit lost its acknowledgement |
| Reconciliation.CountCanFallShort | app/services/payment_reconciliation.py:96-102 | A concrete call of the batch whose one visit settles its payment and which returns zero |
| Reconciliation.ChangeIsResolutionOrAttempt | app/services/payment_reconciliation.py:250-311 | What a visit writes settles an UNKNOWN payment as the provider says or costs it one attempt, the last of which requires manual review; either way the lease is given up |
| Reconciliation.VisitWritesIff | app/services/payment_reconciliation.py:76-94 | A visit writes exactly if it finds its lease unexpired when it renews and when it persists, both are not undone, and the lookup does not crash |
| Reconciliation.ResolutionStoresEvent | app/services/payment_reconciliation.py:285-309 | The webhook event stored with a resolution is for that payment, with first attempt and the time of processing |
| Reconciliation.ClaimIsStep | app/services/payment_reconciliation.py:129-156 | A claim whose commit takes effect is one claim step of the system |
| Reconciliation.VisitRefinesSteps | app/services/payment_reconciliation.py:76-94 | The renewal, lookup and persist of a visit are each one reconciliation step of the system, with the same database and task, and the persist is logged exactly when the visit writes |
| Reconciliation.LookupYieldsRecord | app/services/payment_reconciliation.py:192-219 | The lookup yields an answer exactly when a 2xx reply carries it, and then it is the provider's record |
| Consumer.PaymentQueueConsumer.Handle | app/worker/consumer.py:31-80 | The ordered effects on the broker are those of the body, the outcome and the fate of the retry publication |
| Consumer.SettledOnce | app/worker/consumer.py:31-106 | Every delivery is settled exactly once and last; it is acknowledged only when processing is done or a retry copy with the next attempt is confirmed |
| Consumer.FailureDecides | app/worker/consumer.py:31-106 | Done is acknowledged; what is no event, fails for good or fails for the third time is rejected; any other failure publishes the next attempt to its queue and acknowledges or requeues |
| Consumer.HandlerRefinesSteps | app/worker/consumer.py:82-106 | The handler's effects on the queues are a settle step, or a retry step followed by an ack or a nack, of the system |
| CircuitBreakers.BreakerSound | app/resilience/circuit_breaker.py:42-198 | For every interleaving of starts and ends: one probe in flight exactly when HALF_OPEN, an opening time exactly when not CLOSED, and the failure count is the trailing run of outages, below the threshold, while CLOSED and the threshold otherwise |
| CircuitBreakers.DefensiveBranchesUnreachable | app/resilience/circuit_breaker.py:49-77 | A probe that ends always finds HALF_OPEN and leaves it; open without an opening time never occurs |
| CircuitBreakers.ClosesIff | app/resilience/circuit_breaker.py:73-92 | In every history the breaker closes exactly when a probe ends with a success or a permanent reply |
| CircuitBreakers.OpensIff | app/resilience/circuit_breaker.py:97-167 | It opens exactly when a probe ends otherwise, or an outage while CLOSED makes the current run of outages as long as the threshold |
| CircuitBreakers.AdmittedWhen | app/resilience/circuit_breaker.py:42-71 | Every call is admitted while CLOSED; otherwise only the first one a recovery timeout or more after the breaker last became OPEN |
| CircuitBreakers.ProbesPaced | app/resilience/circuit_breaker.py:49-69 | While not CLOSED only probes are admitted, the k-th starts no earlier than k recovery timeouts after the opening, so n of them need n timeouts |
| CircuitBreakers.LateFinisherMatters | app/resilience/circuit_breaker.py:91-131 | In every history an ordinary call that ends after its CLOSED period changes the breaker if and only if the breaker has closed again since, is CLOSED, and the ending counts there; it opens it exactly as the outage that reaches the threshold |
| CircuitBreakers.OldCallReopens | app/resilience/circuit_breaker.py:115-131 | A history in which an outage of a call from an earlier CLOSED period opens the breaker anew |
| CircuitBreakers.CircuitBreaker.BeforeCall | app/resilience/circuit_breaker.py:42-71 | Admits, refuses or turns one call into the probe as the state machine says |
| CircuitBreakers.CircuitBreaker.AfterCall | app/resilience/circuit_breaker.py:179-198 | Records each way a call can end as the state machine says |
| ProviderClient.ProcessPayment | app/clients/payment_provider.py:81-158 | The loop produces a trace in which every POST but the last is retryable and followed by its wait, the last POST decides the outcome, and giving up early means the next attempt could not start in time; falling through never happens |
| ProviderClient.TraceShape | app/clients/payment_provider.py:84-158 | At most max_attempts POSTs of one request under one key; all but the last are connect failures, 429 or 503; ambiguous exactly if some reply left the outcome open or the deadline cut it off; unavailable only if no request was taken |
| ProviderClient.LastReplyDecides | app/clients/payment_provider.py:89-156 | The last reply alone decides: unavailable for no connection, 429 or 503; ambiguous for a broken exchange, 408, another 5xx or an invalid 2xx; paid for a valid 2xx; rejected otherwise |
| ProviderClient.GivesUpOnlyExhausted | app/clients/payment_provider.py:190-252 | The client gives up only after the last permitted attempt or when the next one could not start in time; every POST has the remaining time up to the request timeout |
| ProviderClient.SleepIsAsAsked | app/clients/payment_provider.py:230-255 | A wait is what Retry-After asks for, else the random draw from zero to the doubling interval under its cap |
| ProviderClient.LookupDecides | app/clients/payment_provider.py:160-188 | A lookup finds exactly what a valid 2xx reply carries; 404 is not found; other replies below 500 reject it; the rest leaves it open |
| ProviderClient.TimeBudget | app/clients/payment_provider.py:190-211 | With exact sleeps the call ends by start + total timeout and every wait leaves positive budget; otherwise it is late by less than the last overrun |
| ProviderClient.SleepBound | app/clients/payment_provider.py:230-255 | Without Retry-After n waits total at most base * (2^n - 1) and at most n * max_delay |
| MockProvider.Provider.Arrive | mock-provider/app/main.py:151-186 | A request is refused exactly when its key is not its payment's or its scenario fails before processing; every other joins the one entry of its key, made if absent, keeping counts exact |
| MockProvider.Provider.Acquire | mock-provider/app/main.py:192-192 | The lock goes to one waiting request; nobody else of that key is in the critical section |
| MockProvider.Provider.Process | mock-provider/app/main.py:193-230 | Records are write-once, a repeated request gets the recorded response, a different payload the conflict; every well-formed answer, and nothing else, enters the log of answers |
| MockProvider.Provider.Release | mock-provider/app/main.py:192-231 | Leaving the critical section frees the lock and keeps the table in order |
| MockProvider.Provider.Leave | mock-provider/app/main.py:231-235 | The identity test always succeeds; the entry is removed exactly with its last user; other keys are untouched |
| MockProvider.Provider.GetByKey | mock-provider/app/main.py:126-137 | A lookup agrees with every answer ever given for the key, and finds a response exactly when the key was processed, even if its answer got lost |
| MockProvider.MutualExclusion | mock-provider/app/main.py:191-192 | At most one request per key is in the critical section |
| MockProvider.NoIdleEntry | mock-provider/app/main.py:178-186 | The table has an entry exactly for keys with live requests, all of which share it, and it counts them |
| MockProvider.AnswersAgree | mock-provider/app/main.py:206-250 | Every well-formed answer ever given for a key is the same |
| Witness.PaymentSucceeds | app/worker/payment_processor.py:47-79 | A concrete run from the API call to SUCCEEDED with its webhook event stored |

## Left out

- Drivers (httpx, FastStream, SQLAlchemy, asyncpg): a call is a nondeterministic outcome, a transaction one atomic step, SKIP LOCKED ignores rows of other open transactions, `nack` requeues to payments.new, `reject` moves to the DLQ.
- Fingerprints: JSON encoding and SHA-256 are taken to be injective; the stored fingerprint is the request itself.
- ProviderClient.TimeBudget: a Retry-After value is a non-negative number; the header's text forms and the "nan" that `float()` accepts are not covered. The transport timeout handed to each POST is checked, its firing is one of the failures a POST may end in.
- Starvation.NoStarvation: assumes one strictly advancing clock and that no claimable row is locked by a concurrent claim; the code promises no bound without that.
- RelayProgress.EventSelected: assumes that one strictly advancing clock stamps new outbox rows; the code promises no bound without that.
- CircuitBreakers.BreakerSound: exceptions outside `Exception` and `CancelledError` pass the service's breaker unrecorded and do not occur in the model.
- Queue order, message TTL durations and prefetch: copies of one queue may be delivered in any order and at any time after expiry.
- The provider's scenario switches beyond which of them fail before, or garble the answer after, a record is written; its delays; loss of its memory on restart.
- Liveness of the provider, the broker and the webhook target: safety and explicit bounds only.
- API routing, authentication, health checks, settings, logging, migrations, worker start and shutdown, webhook capture endpoints: no deep property.
