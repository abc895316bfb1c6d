# Verified model of the payment hub

This project models the parts of the payment hub that write shared state, and proves what
they promise: the payment lifecycle with its four concurrent writers, provider routing with
its cache, the per-tenant rate limiter, two layers of idempotency, API keys and the
encryption envelope for personal data. `dafny verify dfyconfig.toml` checks all of it.

## Structure

| file | content |
|---|---|
| `StateMachine.dfy` | the status table, its readers, histories of stored statuses |
| `Arithmetic.dfy`, `Options.dfy` | shared definitions |
| `Rows.dfy` | a payment row with its events and refund rows, and every write made to it |
| `Listing.dfy` | listing order and pages |
| `Payments.dfy` | the shared store and the 21 small steps of all actors; runs |
| `Invariant.dfy` | the system invariant, kept by every step |
| `Interleaved.dfy`, `Conservation.dfy` | results for every interleaving |
| `Creation.dfy`, `Reading.dfy` | what a creation leaves behind and what the reading calls answer, in field values |
| `Ledger.dfy` | when overlapping calls keep the status table and the refund ledger |
| `Isolation.dfy` | tenant isolation as noninterference |
| `Serial.dfy` | results for runs whose worker and refund calls are atomic |
| `Races.dfy` | concrete overlapping runs that break the serial results |
| `Calls.dfy`, `Services.dfy` | one call from start to end; the services as classes that update the tables in place |
| `Reconciliation.dfy` | scheduler, worker and draining of the backlog |
| `Routing.dfy`, `Registry.dfy` | provider selection |
| `Throttler.dfy` | the fixed-window rate limiter |
| `Idempotency.dfy` | the response cache in front of creation |
| `ApiKeys.dfy` | prefix-indexed key validation |
| `Pii.dfy` | hexadecimal, splitting, the encryption envelope |

The protocol is a function from a state and an action to a state. An action carries the
inputs of one step: provider reply, new ids, clock reading, the row a query returned. A step
that is not enabled changes nothing, so every sequence of actions is a run. The state also
records, for the specifications, each payment's history of stored statuses, the provider
calls made, and the answers given.

Three granularities are used, and each result says which one it holds for.

* **Interleaved** (`Invariant`, `Interleaved`, `Creation`, `Reading`, `Conservation`, `Ledger`,
  `Isolation`): every small step is separate, any number of calls overlap, and a call may
  crash after any step.
* **Serial** (`Serial`): the read, check and transaction of a refund, a webhook job or a
  reconciliation are one step. Creation and webhook intake stay interleaved, and a crash
  between a webhook transaction and its mark is still possible.
* **One call** (`Calls`, `Services`, `Reconciliation`, `Idempotency`): a call runs from start
  to end. The class methods are proved equal to a run of the small steps, so everything above
  applies to them.

## Assumptions

* A rejected transaction did not commit; each transaction is atomic and unique indexes hold.
* A provider's charge result carries a non-empty external id. Ids are compared, never read.
* Metrics calls do not throw and the audit log swallows its errors, so the catch block of
  creation is reached only by a failed charge or a failed update transaction.
* External ids are taken as distinct per provider only where a statement says so.
* For tenant isolation row ids and calls are globally distinct, and an external id of a
  provider was issued for one organization. (The fake provider derives its external ids from
  the idempotency key alone, so it meets this only if organizations do not share keys.)
* Rows with equal creation time are listed in a fixed order. The query sorts by creation time
  alone, so the results about listings and pages rest on this.
* The payment method is in lower case, and a provider that a row names is registered.
* The random parts of API keys are distinct and at least eight characters long; the password
  hash and the body hash are collision free.
* The cipher opens what it sealed and keeps the length; UTF-8 decoding undoes encoding and
  does not lengthen; `Pii.LawsHoldTogether` shows that these laws are consistent.
* Clocks need not be monotone, except that the repeat of a cached request must not precede
  the requests made in between.

## Where code and documentation disagree, or a claim is false

* Every worker updates its row by id from an older read, so "each status change is an edge"
  fails when calls overlap: `Races.CapturedCanFallBack` is such a run.
  `Interleaved.StaleCommitLegalIff` and `Interleaved.StaleRefundLegalIff` say exactly when one
  stale write is legal, and `Ledger.RunLegalIff` exactly when a whole run is.
* "Every refund row but the last is below the amount" fails when refunds overlap, although
  the status then only goes from refunded to refunded: `Races.FullRefundTwice` is such a run.
  `Ledger.RefundCommitKeepsBoundIff` says exactly when one transaction keeps the bound,
  `Ledger.RunBelowIff` exactly when a whole run does, and `Ledger.GuardedRunsKeepLedger` that
  repeating the guard inside the transactions would be enough in every interleaving.
* The comment above the transition table leaves out the edge from pending to captured that
  the table has (src/modules/payments/payment-state.machine.ts:8-24). The table is modelled.
* Creation reads the provider word "refunded" as pending, the workers read it as refunded
  (src/modules/payments/payments.service.ts:387-396, src/modules/webhooks/webhook.processor.ts:17-24).
* A refund amount of 0 is falsy for the status and the refund row but not for the event
  payload (src/modules/payments/payments.service.ts:295-325), so "the event announces the
  row's amount" is false for it. `Ledger.PayloadIsRowIff` is the exact condition, and
  `Ledger.RefundsInLog` says how the rows are told from the log all the same.
* The header comment of the interceptor promises a conflict for a changed body, but neither
  the interceptor nor `RoutingService.selectProvider` is used anywhere in `src`; creation
  alone ignores the body. The results in `Idempotency` and `Routing` are about those classes.
* A creation that failed at the provider is not cached, yet every later request with its key
  is answered with the failed payment as a success, or conflicts with such an answer, because
  the row already exists (`Idempotency.RetryAfterFailure`).
* Start-up accepts any 64 characters as an encryption key; `Pii.KeyUsableIff` says when the
  key works. A text that already carries the prefix is stored as it is and never comes back
  from decryption: `Pii.RoundTripIff` gives the exact condition.
* The registry's comment describes a selection by method; the code takes country and currency
  only (src/modules/providers/provider.registry.ts:6-28).

## Model

| member | source | states |
|---|---|---|
| StateMachine.WorkersReadNames | src/modules/webhooks/webhook.processor.ts:17-24 | a worker stores a status iff the provider's word is its name in lower case; no other word is read, and none as partially refunded |
| StateMachine.CreationReadsNames | src/modules/payments/payments.service.ts:387-396 | creation stores a status iff the word is its name, but refunded and every unknown word as pending |
| StateMachine.ReadingsAgree | src/modules/payments/payments.service.ts:387-396 | creation and the workers read a word alike iff it is neither refunded nor unknown, and whatever creation reads is reachable from pending |
| StateMachine.EdgesClimb | src/modules/payments/payment-state.machine.ts:18-41 | the transition table is acyclic: every edge climbs a rank of at most four |
| StateMachine.LegalHistoryClimbs | src/modules/payments/payment-state.machine.ts:43-55 | along any history that passes the transition check the rank never falls, and stays only with the status |
| StateMachine.ChangesBounded | src/modules/payments/payment-state.machine.ts:18-55 | a legal history has at most as many strict changes as rank gained |
| StateMachine.TerminalAbsorbs | src/modules/payments/payment-state.machine.ts:57-59 | in a legal history nothing follows a terminal status but itself |
| StateMachine.StaleWriteLegalIff | src/modules/payments/payment-state.machine.ts:43-55 | for every snapshot, current status and checked target: the write is legal iff the row has not moved, is already there, or stayed in the phase that the write leaves |
| Rows.BlankKeys | src/modules/payments/payments.service.ts:58-62 | a key with a letter or digit is never refused as blank, one of spaces, tabs and line ends always is |
| Listing.OrderLists | src/modules/payments/payments.service.ts:223-231 | the listing order names each selected row exactly once |
| Reading.FindAllAnswers | src/modules/payments/payments.service.ts:210-237 | a list holds the asked page of the organization's payments with the asked status, each once, by falling creation time, with their exact number and the least number of pages |
| Reading.ListMeans | src/modules/payments/payments.service.ts:218-231 | every datum of a list is the organization's and has the asked status, and none stands before a newer one |
| Reading.ListsDescend | src/modules/payments/payments.service.ts:214-231 | no row of an earlier page is older than a row of a later page of the same table |
| Reading.EveryListIsNewestFirst | src/modules/payments/payments.service.ts:223-231 | interleaved: every list ever answered holds payments of the asker only, by falling creation time |
| Reading.FindOneAnswers | src/modules/payments/payments.service.ts:242-256 | a single read answers the stored row to its own organization and not found to everyone else |
| Listing.PagesPartition | src/modules/payments/payments.service.ts:214-236 | pages one to the reported count, concatenated, are the whole list in order; all but the last are full, the last is not empty, later ones are |
| Invariant.StepKeepsInv | src/modules/payments/payments.service.ts:53-333 | interleaved: every step of every actor keeps the system invariant (well-formed rows, unique keys, one charge per key, snapshots only of settled rows, answers that name stored rows) |
| Invariant.RunKeepsInv | src/modules/payments/payments.service.ts:53-333 | interleaved: so does every run, from any state that satisfies it |
| Invariant.Reachable | src/modules/payments/payments.service.ts:53-333 | interleaved: every state of every run from the empty store satisfies the invariant |
| Invariant.RefundCallIs | src/modules/payments/payments.service.ts:295-300 | interleaved: after the provider refunded, the transition check passes whatever was asked |
| Interleaved.StepWrites | src/modules/webhooks/webhook.processor.ts:74-86 | interleaved: the complete list of ways a step can change a stored row, each with what the row was before |
| Interleaved.RowsPersist | src/modules/payments/payments.service.ts:114-137 | interleaved: rows are never deleted; organization, key, amount and a set external id stay; log, refund rows and history only grow |
| Interleaved.CreateWritesAreLegal | src/modules/payments/payments.service.ts:158-202 | interleaved: both unchecked status writes of creation find the row pending, without external id, with the created event alone, and so are legal |
| Interleaved.OnlyCreationTouchesUnsettled | src/modules/payments/reconciliation.service.ts:90-93 | interleaved: no step of another actor changes a row that has no external id |
| Interleaved.OncePerKey | src/modules/payments/payments.service.ts:68-154 | interleaved: per organization and key at most one row, at most one provider charge and only for a stored row, and one payment id in all successful answers |
| Creation.SettledAsBrought | src/modules/payments/payments.service.ts:114-192 | interleaved: once a creation has committed, its answer and its row hold organization, key, amount, provider and instant of the call, the external id of the provider's reply, and the status its word names; the row keeps all but the status for ever |
| Creation.NotificationFindsIt | src/modules/webhooks/webhook.processor.ts:49-72 | interleaved, distinct external ids: a worker takes up a notification under that provider and external id on exactly this payment, unless the status check refuses the word |
| Interleaved.StatusAndEventTogether | src/modules/payments/reconciliation.service.ts:111-124 | interleaved: each stored status comes with exactly one new event that announces it, except in the catch block |
| Interleaved.StatusIsNewestEvent | src/modules/payments/payments.service.ts:158-202 | interleaved: the status is the one its newest event announces, except for rows failed by the catch block, which have one event and no external id |
| Interleaved.FailedForever | src/modules/payments/payments.service.ts:193-204 | interleaved: a row failed by the catch block is never written again |
| Interleaved.HistoryMeans | src/modules/payments/payment-state.machine.ts:18-41 | the inductive row condition means: no return to pending, and no refunded status without an earlier captured one |
| Interleaved.RefundsFollowCapture | src/modules/payments/payments.service.ts:274-333 | interleaved: refund rows and refunded statuses appear only after captured was stored, nothing returns to pending, and the history starts pending and ends in the current status |
| Interleaved.StaleCommitLegalIff | src/modules/webhooks/webhook.processor.ts:72-86 | interleaved: a worker's write is an edge or a repeat iff the row still fits the snapshot |
| Interleaved.StaleRefundLegalIff | src/modules/payments/payments.service.ts:302-333 | interleaved: a refund's write is legal iff the payment is still refundable or already has that status |
| Interleaved.RefundCheckNeverThrows | src/modules/payments/payments.service.ts:300 | interleaved: in every reachable state the check after the provider's refund passes |
| Conservation.RunKeepsIntake | src/modules/webhooks/webhooks.controller.ts:55-84 | interleaved: the intake invariant holds through every run |
| Conservation.NotificationOnce | src/modules/webhooks/webhooks.controller.ts:55-84 | interleaved: per provider and external id at most one inbound row and at most one queued job, and a job only for a stored row |
| Conservation.JobsPersist | src/modules/webhooks/webhooks.controller.ts:76-84 | interleaved: a queued job keeps its data whatever is delivered later |
| Conservation.RunBalances | src/modules/payments/payments.service.ts:289-333 | interleaved: over any run the refunds carried out but neither recorded nor in flight grow by exactly those that crashes hit between the provider's refund and its transaction |
| Conservation.RefundsConserved | src/modules/payments/payments.service.ts:289-333 | interleaved: provider refunds equal refund rows plus refunds in flight plus those lost to crashes; without a crash the first two are all, whatever overlaps; rows and refund events are equal in number |
| Ledger.PayloadIsRowIff | src/modules/payments/payments.service.ts:308-325 | the event payload is the refund row's amount iff 0 was not asked of a payment that is not 0 |
| Ledger.RefundsInLog | src/modules/payments/payments.service.ts:302-333 | interleaved: event by event the log tells the refund rows: the same amount, or the full amount beside a payload of 0 |
| Ledger.RefundCommitKeepsBoundIff | src/modules/payments/payments.service.ts:274-333 | interleaved: a refund's transaction keeps every row but the last below the amount iff no stored row reaches it, which the guard, repeated on a ledger in order, ensures; a full row always leaves the payment refunded |
| Ledger.RunLegalIff | src/modules/webhooks/webhook.processor.ts:72-86 | interleaved: all histories follow the table iff every worker commit of the run fits the row it finds and every refund commit finds it refundable or already there |
| Ledger.RunBelowIff | src/modules/payments/payments.service.ts:302-333 | interleaved: all payments keep the row bound iff no refund's transaction of the run finds a row that reaches the amount |
| Ledger.GuardedRunsKeepLedger | src/modules/payments/payments.service.ts:274-333 | interleaved: if refund commits find the payment refundable and worker commits fit, then histories are legal, the row bound holds, and a full last row means refunded |
| Ledger.UndisturbedRunsKeepLedger | src/modules/payments/payments.service.ts:266-333 | interleaved: the same for every run in which each commit finds the status that its call read |
| Isolation.OthersAreInvisible | src/modules/payments/payments.service.ts:68-73 | interleaved, all actors: a step for one organization, by the API, a webhook or a reconciliation, leaves what another can see unchanged |
| Isolation.OwnStepsAgree | src/modules/payments/payments.service.ts:68-129 | interleaved, all actors: one step taken in two states that its organization cannot tell apart leaves it unable to tell them apart |
| Isolation.RunsAgree | src/modules/payments/payments.service.ts:68-333 | interleaved, all actors: the same for a run and the run with the other organizations' steps deleted |
| Isolation.TenantIsolation | src/modules/payments/payments.service.ts:68-333 | interleaved, all actors, an external id issued for one organization: an organization's rows, answers, notifications and jobs equal those of the run in which nothing happened for the others |
| Serial.CallEffect | src/modules/payments/reconciliation.service.ts:79-129 | each atomic call, expanded into its small steps, changes exactly the one row that its description names |
| Serial.CallsKeepSerial | src/modules/webhooks/webhook.processor.ts:40-99 | serial: the serial row invariant (legal history, refund ledger, one webhook event) holds through every run |
| Serial.SerialHistoryIsLegal | src/modules/payments/payment-state.machine.ts:18-59 | serial: every history is legal, has at most four strict changes, and ends at its first terminal status |
| Serial.SerialTerminalStays | src/modules/payments/payment-state.machine.ts:37-41 | serial: a terminal payment keeps its status through every continuation |
| Serial.SerialRefundLedger | src/modules/payments/payments.service.ts:289-333 | serial: provider refunds, refund rows and refund events are equal in number; every row but the last is below the amount; a row that reaches it leaves the payment refunded |
| Serial.SerialRefundOutcome | src/modules/payments/payments.service.ts:261-355 | serial: a refund call adds one row of the stated size iff the payment is refundable and the provider agrees, ends refunded iff that row reaches the amount, and otherwise changes no row |
| Serial.SerialWebhookOutcome | src/modules/webhooks/webhook.processor.ts:40-92 | serial: a job changes only the payment that bears its provider and external id, gives it the status the word names if the table allows, and leaves a captured payment reported refunded as refunded |
| Serial.SerialReconcileOutcome | src/modules/payments/reconciliation.service.ts:79-129 | serial: the same for a reconciliation, on a payment with an external id |
| Serial.SerialWebhookOnce | src/modules/webhooks/webhook.processor.ts:49-99 | serial: a payment gets at most one webhook event, and running its job again changes no row |
| Serial.SerialJobOnce | src/modules/webhooks/webhooks.controller.ts:75-84 | serial, distinct external ids: a job appends at most one event in all, to the one payment it names, and was queued once |
| Races.CapturedCanFallBack | src/modules/payments/reconciliation.service.ts:111-115 | a run in which a captured payment is overwritten as authorized |
| Races.FullRefundTwice | src/modules/payments/payments.service.ts:266-333 | a run in which a payment of 100 is refunded 100 twice: the status repeats refunded, and the row bound is broken |
| Calls.FreshCreate | src/modules/payments/payments.service.ts:89-204 | one call: a fresh create stores one row, settled or failed, charges once and answers accordingly |
| Calls.StaleCreate | src/modules/payments/payments.service.ts:58-77 | one call: any other create stores and charges nothing and only answers |
| Calls.CreateEffect | src/modules/payments/payments.service.ts:53-205 | one call: five small steps equal one case distinction, for every truthful lookup |
| Calls.RefundCallEffect | src/modules/payments/payments.service.ts:261-355 | one call: a refund's three steps equal one update and one answer |
| Calls.ReconcileCallEffect | src/modules/payments/reconciliation.service.ts:79-129 | one call: a reconciliation's three steps equal one row update |
| Calls.DeliveryEffect | src/modules/webhooks/webhook.processor.ts:40-99 | one call: a delivery that throws changes nothing; any other updates its row and marks the inbound row |
| Calls.ReceptionEffect | src/modules/webhooks/webhooks.controller.ts:55-90 | one call: a duplicate changes nothing; any other notification stores one row and queues one job |
| Services.PaymentsService.Create | src/modules/payments/payments.service.ts:53-205 | does what the run of the five steps does; a new row and its answer hold the fields of the call and the provider's external id, a failed one neither external id nor answer, and any other outcome changes no row |
| Services.PaymentsService.ChargeNew | src/modules/payments/payments.service.ts:142-204 | leaves the settled row with the reply's external id and named status, or the failed row with its failure code |
| Services.PaymentsService.Refund | src/modules/payments/payments.service.ts:261-355 | does what the three refund steps do: not found, not refundable or provider error with no change, or one row of the stated amount and the status it implies |
| Services.PaymentsService.FindOne | src/modules/payments/payments.service.ts:242-256 | answers the organization's own row or not found |
| Services.PaymentsService.FindAll | src/modules/payments/payments.service.ts:210-237 | answers the asked page, newest first, of the organization's payments with the asked status, with exact total, page, limit and page count, for the default page and limit, too |
| Services.Sorted | src/modules/payments/payments.service.ts:224-229 | taking the first remaining row again and again yields the listing order |
| Services.NewestStep | src/modules/payments/payments.service.ts:224-229 | the first row in listing order is followed by the listing of the rest |
| Services.WebhooksController.Handle | src/modules/webhooks/webhooks.controller.ts:35-91 | does what the intake steps do: a duplicate or refused insert changes nothing, any other notification stores one row and queues one job with its word |
| Services.WebhookProcessor.Process | src/modules/webhooks/webhook.processor.ts:40-99 | does what the delivery steps do: throws iff no payment bears provider and external id or no edge leads to the status the word names; otherwise the payment has that status, the inbound row is marked, and a captured payment reported refunded ends refunded and terminal |
| Reconciliation.AddBulkHolds | src/modules/payments/reconciliation.service.ts:62-72 | after a bulk insertion by job id the queue holds exactly the old and the new payments, none twice |
| Reconciliation.ReconciliationService.SchedulePendingReconciliation | src/modules/payments/reconciliation.service.ts:43-73 | queues at most a hundred distinct payments that are pending, have an external id and are more than 1 800 000 ms old, and all of them if they are fewer |
| Reconciliation.ReconciliationService.ReconcileOne | src/modules/payments/reconciliation.service.ts:79-129 | does what the three reconciliation steps do: the status the word names, with its event, if the table allows, else no change |
| Reconciliation.ReconcileIsIdempotent | src/modules/payments/reconciliation.service.ts:97-124 | the same provider reply a second time changes neither status nor log |
| Reconciliation.RoundEffect | src/modules/payments/reconciliation.service.ts:48-129 | a round of jobs gives each payment of the batch the reported status, removes exactly the batch from the stale set, and touches no other row |
| Reconciliation.RoundsEffect | src/modules/payments/reconciliation.service.ts:43-129 | after k rounds exactly max(0, n - 100k) of n stale payments remain |
| Reconciliation.BacklogDrains | src/modules/payments/reconciliation.service.ts:43-129 | the backlog is empty iff there were at least ceil(n/100) rounds; then all are resolved, and rows that were not stale are untouched |
| Reconciliation.BacklogDrainsInHundreds | src/modules/payments/reconciliation.service.ts:43-129 | no payment pending for more than half an hour is left iff a hundred times the rounds is at least their number |
| Throttler.TenantThrottlerGuard.CanActivate | src/common/guards/tenant-throttler.guard.ts:40-54 | increments the counter of the tenant's window of ttl seconds, sets the expiry of a new one ttl + 5 seconds ahead, touches no other, and refuses above the limit |
| Throttler.TenantThrottlerGuard.Serve | src/common/guards/tenant-throttler.guard.ts:40-54 | serving a trace gives the accept decisions and counters that the trace functions define |
| Throttler.CountersCount | src/common/guards/tenant-throttler.guard.ts:45-48 | after any trace each counter equals the number of attempts in its window, and its expiry lies after the window |
| Throttler.AcceptsFirstAttempts | src/common/guards/tenant-throttler.guard.ts:45-52 | on any trace a request is accepted iff fewer than the limit came before it in its window, however late the expiry was set and even if it never was |
| Throttler.AcceptedIff | src/common/guards/tenant-throttler.guard.ts:40-52 | the same in milliseconds: accepted iff fewer than the limit were made before it in its window of ttl * 1000 ms |
| Throttler.OneWindow | src/common/guards/tenant-throttler.guard.ts:40-52 | a window of ttl * 1000 ms accepts exactly the smaller of the limit and the attempts made in that interval |
| Throttler.RateBound | src/common/guards/tenant-throttler.guard.ts:40-52 | in any half-open span of k * ttl * 1000 ms at most (k+1) times the limit is accepted |
| Registry.RegisteredInPlace | src/modules/providers/provider.registry.ts:14-20 | registering an id again replaces its provider without moving it; a new id goes last; ids stay distinct |
| Registry.ProviderRegistry.Register | src/modules/providers/provider.registry.ts:14-20 | the in-place update is the specified one |
| Registry.ProviderRegistry.Get | src/modules/providers/provider.registry.ts:22-26 | returns the provider registered under the id, or throws iff there is none |
| Registry.ProviderRegistry.SelectFor | src/modules/providers/provider.registry.ts:28-33 | returns the earliest provider that serves country and currency, or throws iff none does |
| Routing.RoutingService.SelectProvider | src/modules/providers/routing.service.ts:33-82 | keeps a live cache entry or stores the queried ids for 300 000 ms, and answers the choice on the cached list |
| Routing.RoutingService.InvalidateRoute | src/modules/providers/routing.service.ts:85-88 | removes exactly the entry of that key |
| Routing.PickIsFirst | src/modules/providers/routing.service.ts:55-69 | the loop picks the first listed id that is healthy or unknown and registered, or nothing iff there is none |
| Routing.ChoiceIsOptimal | src/modules/providers/routing.service.ts:55-81 | the answer is the provider of a qualifying active route that no qualifying route outranks; if none qualifies, the earliest registered provider that serves country and currency |
| Routing.ChoiceInFields | src/modules/providers/routing.service.ts:55-81 | the same in fields: active route, breaker closed or unknown, provider registered; else a provider with both country and currency, or none iff there is none |
| Routing.CacheOrigin | src/modules/providers/routing.service.ts:39-53 | each cached list was read by one earlier lookup and not invalidated since |
| Routing.BoundedStaleness | src/modules/providers/routing.service.ts:38-88 | every answer equals the cache-free answer on the table as of a lookup at most five minutes earlier and after every invalidation of the key, with health and registry as now |
| Idempotency.SharedEntryIff | src/common/interceptors/idempotency.interceptor.ts:42 | two requests share a cache entry iff tenant and key agree, colons in the key included |
| Idempotency.IdempotencyInterceptor.Handle | src/common/interceptors/idempotency.interceptor.ts:32-93 | replay, conflict, pass-through and store, with creation behind it, as the specification says |
| Idempotency.HandledNames | src/modules/payments/payments.service.ts:68-204 | a successful creation answers for its own organization and key and names a stored row |
| Idempotency.AfterKeeps | src/common/interceptors/idempotency.interceptor.ts:46-91 | through every run each entry holds a success for its own tenant and key that names a stored row |
| Idempotency.OnePaymentPerKey | src/common/interceptors/idempotency.interceptor.ts:42-91 | over any run, any expiry and any lost entry, all successes for a tenant and key name one payment |
| Idempotency.RepeatWithinLifetime | src/common/interceptors/idempotency.interceptor.ts:49-70 | within 24 hours and whatever comes between, the same body gets the very same answer, another body conflicts, and neither changes anything |
| Idempotency.RepeatAfterLifetime | src/common/interceptors/idempotency.interceptor.ts:73-83 | 24 hours later the entry answers no more and the request is handed on |
| Idempotency.RetryAfterFailure | src/common/interceptors/idempotency.interceptor.ts:49-84 | a failure is not cached; every later request for the key is answered with the failed payment as a success, or with a conflict if such an answer is cached for another body; it charges nothing and changes no row |
| ApiKeys.ApiKeyService.Create | src/modules/tenants/api-key.service.ts:47-87 | stores one active row with hash, prefix and expiry and returns the raw key, prefix and expiry in plain characters and milliseconds, or is refused iff the id is taken |
| ApiKeys.ApiKeyService.Revoke | src/modules/tenants/api-key.service.ts:92-113 | deactivates exactly the tenant's row with that id and stores the time, and reports not found iff there is none |
| ApiKeys.ApiKeyService.Validate | src/modules/tenants/api-key.service.ts:139-173 | answers the tenant of the first row with that prefix that bears the key, is active, unexpired and of an active tenant, and stamps that row alone |
| ApiKeys.RunIsIndexable | src/modules/tenants/api-key.service.ts:52-69 | after any run each stored prefix is the one validation would cut from the hashed key |
| ApiKeys.IndexRefinesScan | src/modules/tenants/api-key.service.ts:139-173 | after any run the prefix-indexed lookup of any text equals the scan of all rows |
| ApiKeys.KeyHasOneRow | src/modules/tenants/api-key.service.ts:60-69 | after any run a created key has exactly one row, active iff its tenant has not revoked it, with the time of the last revocation |
| ApiKeys.KeyLife | src/modules/tenants/api-key.service.ts:139-173 | after any run a key validates to its tenant iff it has no expiry or the clock is before it, it is not revoked and the tenant is active; other keys never matter |
| ApiKeys.KeyLifeInDays | src/modules/tenants/api-key.service.ts:56-58 | a key created for d days validates exactly before d times 86 400 000 ms have passed; without days, or with 0, it never expires |
| ApiKeys.KeysOnlyExpire | src/modules/tenants/api-key.service.ts:145-168 | a key that validates now did at every earlier instant on the same rows and tenants |
| ApiKeys.ExpiredForEver | src/modules/tenants/api-key.service.ts:145-168 | after its expiry a key never validates again, whatever is done |
| ApiKeys.RevokedForEver | src/modules/tenants/api-key.service.ts:92-101 | nor after its revocation |
| Pii.HexRoundTrip | src/common/services/pii.service.ts:53-66 | reading printed hexadecimal gives the bytes back |
| Pii.HexReprintsIff | src/common/services/pii.service.ts:63-66 | printing what was read gives a text back iff it is an even number of lower-case digits |
| Pii.HexIgnoresCase | src/common/services/pii.service.ts:63-66 | capital hexadecimal digits read as small ones do |
| Pii.SplitCount | src/common/services/pii.service.ts:60-61 | splitting gives one part more than there are colons |
| Pii.EnvelopeParts | src/common/services/pii.service.ts:53-63 | the printed form carries the prefix and splits into exactly iv, tag and data |
| Pii.KeyUsableIff | src/common/services/pii.service.ts:26-39 | a configured text of 64 characters gives a usable key iff all are hexadecimal digits |
| Pii.KeyLoaded | src/common/services/pii.service.ts:26-39 | no or an empty setting means no key, and start-up fails iff any other has not 64 characters |
| Pii.EncryptSeals | src/common/services/pii.service.ts:42-54 | with no key or the prefix the text passes, a key of another length is refused, and otherwise the result carries the prefix and its parts read back as iv and sealed pair |
| Pii.EncryptTwice | src/common/services/pii.service.ts:41-54 | encrypting an encrypted text changes nothing |
| Pii.RoundTripIff | src/common/services/pii.service.ts:42-72 | decryption gives the text back iff no key is set, or the key has 32 bytes and the text lacks the prefix |
| Pii.DecryptOpens | src/common/services/pii.service.ts:57-72 | an envelope decrypts to what the cipher opens, and to an error if the cipher does not authenticate it or the key has not 32 bytes |
| Pii.FormatErrorIff | src/common/services/pii.service.ts:60-61 | the format error is thrown iff a key is set and a prefixed text does not have four colons |

## Left out

- Refunds beyond the amount: the code does not bound the sum of refunds, so no such bound is stated.
- Convergence through webhooks: the first notification of a charge wins and later ones are dropped, so none is stated.
- The card-number guard (src/common/guards/pci.guard.ts): a scan without state.
- Provider HTTP calls, body building, error mappers and webhook signatures: a provider is an oracle for a status and an external id; signature checking comes before the modelled intake.
- Circuit breaker internals: health is a function of the provider at the moment of the lookup.
- Queue internals: attempts, backoff and rate limits are not modelled, since any retry is just another step. Kept completed jobs, which make the queue ignore a payment's next job until they are evicted, are outside the draining result; it takes each job of a round to run before the next round.
- The draining result keeps the staleness threshold fixed, so payments that become stale meanwhile are not counted.
- Customer rows: the upsert inside the insert transaction writes a table that nothing here reads.
- Metrics, audit rows and the pending gauge; the gauge leaks when a step after its increment throws.
- Authentication, tenant resolution, roles: the organization is given; the rate limiter and the interceptor are modelled for a resolved tenant.
- Row fields that are stored but never tested (currency, country, method, description, metadata, failure message) and the serialization of amounts as text.
- Routing.RoutingService.SelectProvider: cache keys are triples rather than joined texts, so a colon inside a country or currency code is not modelled.
- Throttler.RateBound: time is an exact integer of milliseconds and the window length a whole number of seconds; rounding of floating-point division is not modelled, nor is the no-op store that never counts.
- Services.PaymentsService.FindAll: page and limit are positive, as the validated query makes them.
- Idempotency.IdempotencyInterceptor.Handle: the stored entry is a value rather than JSON text, and the write that the interceptor does not wait for either takes place before the next request or is lost.
- The label of an API key, and the listing of keys.
- ApiKeys.ApiKeyService.Validate: the rows come in a fixed order, and the stamp is written before the answer.
- Pii.RoundTripIff: texts are sequences of Unicode scalar values, so a text with a lone surrogate is not modelled; the search hash is left out.
