# PayGate: a verified model

PayGate is a payment service in front of a gateway that can act and then lose its reply. This project
models its payment and refund protocol in Dafny and proves what every run of it keeps: no more money
goes back than was paid, no charge the customer paid is marked failed, the stored events rebuild the
stored payment, and concurrent writers never overwrite one another.

`dafny verify dfyconfig.toml` checks the whole project.

## How it is built

- `PaymentDomain`, `EventLog` — the payment as a value, its transitions, and the event log they write.
  `Aggregate` holds the same payment as an object whose methods change it in place.
- `Timestamps` — instants in memory count nanoseconds, columns hold whole microseconds: what a column keeps.
- `Store`, `Repositories` — what one save does to the rows of a payment, and the Postgres and in-memory
  repositories as objects.
- `Gateway`, `Commands`, `Handlers` — the gateway as its port promises it, and what the command handlers
  decide between two calls, as functions and as methods on the payment object.
- `Protocol`, `Invariants`, `Sessions`, `Steps`, `Theorems`, `Witnesses` — one payment, its gateway and any
  number of concurrent runs as a state machine. Every run is split at each query, save and gateway call
  and may stop for good at any of them. The invariant, one lemma per step that keeps it, the theorems
  over whole behaviours, and behaviours that show where a guarantee ends and that the theorems speak of
  refunds that really happen.
- `Causes` — over the same behaviours, why the stored payment says what it says: who asked for a refund, a
  cancellation or an expiry, when the payment was paid, and which refunds are sent again.
- `Webhooks`, `ReconcilePass`, `Outbox`, `Base64Url`, `Strings`, `Cursor`, `Calendar`, `Pagination`, `Idempotency`,
  `Attempts`, `ApiKeys`, `CachedViews`, `FlexAmount`, `Midtrans` — the smaller protocols, loops and codecs
  around it. `MapSum` and `Outcomes` are shared.

## What is assumed of the gateway

They are guards on the steps of `Protocol` and `Gateway`, where a reader can see each one:

- re-sending a refund under its key is safe, and a decline moved no money and is final for that key;
- a charge error that is not an unknown outcome created nothing (`Midtrans` says for which replies the
  adapter itself bears this out);
- a settled or failed transaction stays so, and no charge lands after the reconciler's grace period;
- notifications and lookups report true states, and a cancel that answers without error leaves the
  transaction closed and unpaid.

Nothing is assumed about which refunds the gateway reports, nor about the amounts it reports. No lock is
relied on: the reconciler's and the expiry job's are locks with a time limit that their holder may have
lost.

## Where code and documentation differ

- docs/events.md says `payment.initiated` is written when the payment is stored, before the gateway call.
  The code charges first and saves afterwards (internal/application/command/create_payment.go:93-165); the
  model follows the code.
- fake.PaymentRepo (internal/testsupport/fake/fake.go:43-66) stands in for Postgres in the repository's tests but
  keeps nanoseconds, which the TIMESTAMPTZ columns cannot; `Theorems.SavesRefineMemory` states their agreement up
  to that cut, and when it is exact. For the same reason the paid time an event carries and the stored one
  differ (`Theorems.LogRebuildsPayment`).
- internal/domain/payment/repository.go:14 calls the reference filter a prefix match. The query passes it
  to LIKE unescaped; `Pagination.PrefixMatchIffNoWildcards` says exactly when the two agree.
- internal/adapter/outbound/gateway/midtrans/adapter.go:259 says a refused refund is a 4xx. The branch is
  the default one; `Midtrans.RefusedRefundsAreRefusalsIff` says for which replies the comment holds, and
  `Midtrans.DefiniteErrorsAreRefusalsIff` for which a definite charge error (charge.go:54-67 in the
  same directory) refused the charge.

## Model

| member | source | states |
|---|---|---|
| Theorems.RefundsSafe | internal/application/command/refund_payment.go:85-144 | In every behaviour, with any number of refund handlers, webhooks and reconcilers and with lost replies: the gateway's ledger totals at most the stored refunds that are not FAILED, which total at most the amount paid; every ledger entry is a stored refund with its exact amount; every SUCCEEDED refund is in the ledger; a FAILED one is not in it now or in any later world |
| Theorems.ChargesSafe | internal/application/command/reconcile.go:109-152 | A payment stored FAILED has a gateway transaction that is failed, or absent for good, in every later world, and never settles; a payment in a paid status has settled money for good; among closed unpaid statuses only CANCELLED and EXPIRED can coexist with settled money |
| Witnesses.CancelledCanHideMoney | internal/application/command/cancel_payment.go:30-66 | For every payment there is a behaviour (the gateway cancel fails, the local one goes on, the customer pays) that ends CANCELLED with settled money, so the exception in ChargesSafe is real |
| Witnesses.ExpiredCanHideMoney | internal/application/command/force_expire.go:25-45 | The same for EXPIRED through force-expiry |
| Witnesses.RefundReachesLedger | internal/application/command/refund_payment.go:85-144 | For every payment whose method allows refunds there is a behaviour that ends REFUNDED, with a SUCCEEDED refund of the full amount stored and in the gateway's ledger |
| Witnesses.LostReplyIsSwept | internal/application/command/reconcile.go:173-204 | And one in which the gateway pays the refund out, its reply is lost, and the reconciler re-sends it under its key: again SUCCEEDED, and paid once (for every retry age of at least a microsecond below the give-up age) |
| Causes.RefundsAnswerRequests | internal/application/command/refund_payment.go:52-92 | In every behaviour, every stored refund answers a request that some run was started with, by an admin or by the payment's own service; requestedBy says which, reference and reason are the request's, and the amount too unless it asked for all that was left. So no other service's request ever becomes a refund |
| Causes.PaidWhenHandled | internal/application/command/process_callback.go:66-79 | In every behaviour, the step that makes a stored payment paid is the handling of a notification or the settling of its charge, and the stored paid time is the moment of that step, to the microsecond |
| Causes.PaidAtOnce | internal/application/command/create_payment.go:144-151 | A payment first stored as paid was settled by the gateway's answer to its charge; its paid time is the moment of that answer, whenever it was saved, and its transaction the one answered |
| Causes.CancelledByOwner | internal/application/command/cancel_payment.go:33-44 | A stored payment becomes CANCELLED only by a run that its own service started |
| Causes.GatewayCancelledByOwner | internal/application/command/cancel_payment.go:38-58 | Another service's cancel command reaches neither the gateway nor the store: its run stops |
| Causes.ExpiredOnTime | internal/adapter/outbound/postgres/expiry_job.go:65-81 | A stored payment becomes EXPIRED only by an admin's command, or by the job once its deadline has passed |
| Causes.SweepRespectsAges | internal/application/command/reconcile.go:173-204 | A pass sends a refund again exactly if it is PENDING and retryAfter <= age < giveUpAfter by the clock the pass read, and the gateway's answer then takes effect; any other refund it passes over, with gateway and payment left as they were |
| Causes.SentAgainInWindow | internal/application/command/reconcile.go:20-26 | In every behaviour, whenever a pass changes anything at the gateway, the refund it sent was pending and inside the retry window when the pass looked it up, so nothing is sent again once the gateway may have forgotten its key |
| Causes.RecordedAfterReload | internal/application/command/refund_payment.go:127-144 | If nobody saves between the reload after a conflict and the second save, the gateway's answer is stored: a lost race loses no outcome |
| Theorems.CommitsSawTheStore | internal/adapter/outbound/postgres/payment_repo.go:375-403 | Serialisability: when a run's save commits, the row and the refunds its two load queries returned were of one version, and that version is what is stored at the commit |
| Theorems.TornLoadsConflict | internal/adapter/outbound/postgres/db/payment.sql.go:305-314 | A load whose row and refunds are of different versions is harmless: in that and every later world any save at its version changes nothing and answers CONFLICT (or the transaction failed earlier) |
| Theorems.LoadedWithoutRefundsHasNone | internal/adapter/outbound/postgres/payment_repo.go:182-196 | A payment loaded without refunds (expiry job, charge reconciliation) commits only if it has none |
| Theorems.LogRebuildsPayment | internal/adapter/outbound/postgres/payment_repo.go:107-140 | Whatever saves failed part-way: replaying the stored events rebuilds the stored status, gateway transaction ID and every refund's amount and status exactly, and the paid time up to the microsecond its column holds, exactly if and only if it is a whole one; sequence numbers are 1..n; the outbox rows were inserted for the same events in the same order (an order of insertion only: the rows of one save share their created_at, by which the worker orders them, so it cannot be read back); the log is legal and at most 3 + 2 per refund long |
| Theorems.SavesRefineMemory | internal/testsupport/fake/fake.go:43-66 | On every reachable store, every save a command makes has the effect of the in-memory repository's whole-payment replacement: same version, events, in-memory aggregate and error code, and the same payment up to the microseconds its columns hold; the stored payment is the saved one exactly if and only if all its instants are whole microseconds |
| Theorems.TablesRefineMemory | internal/adapter/outbound/postgres/payment_repo.go:31-144 | Over whole behaviours: the in-memory repository, fed with the saves that took effect, stays in step with the tables, whatever saves failed, lost their reply or lost a race |
| Theorems.StatusAndRefundsAgree | internal/domain/payment/refund.go:40-60 | In every reachable store: unpaid statuses have no refunds and no paid time; COMPLETED means none succeeded; PARTIALLY_REFUNDED means 0 < succeeded < amount; REFUNDED means succeeded = amount and nothing pending; reserved + refundable = amount, within int64; references are distinct |
| Theorems.HeldPaymentsStayWithinAmount | internal/domain/payment/refund.go:40-60 | Also the payment a run holds after a torn load reserves at most the amount paid, so the int64 sums cannot overflow |
| Theorems.MethodsRespected | internal/application/command/refund_payment.go:71-94 | In every behaviour a method without refunds never has one; a method without partial refunds is never PARTIALLY_REFUNDED and has at most one refund that is not FAILED, for the full amount |
| Theorems.RefundsStay | internal/adapter/outbound/postgres/db/refund.sql.go:106-119 | A stored refund is never removed and its id, reference, amount, reason, requester and creation time, as stored, never change, whatever runs interleave |
| Theorems.RetriesReplay | internal/application/command/refund_payment.go:56-69 | Retrying a refund is safe: once a refund is stored, a request with its reference, at any later time, finds it instead of reserving another; with another amount it is refused as an idempotency conflict |
| Theorems.TablesChangeBySaves | internal/adapter/outbound/postgres/payment_repo.go:31-144 | Every step leaves the tables alone or does to them exactly what Save does with the payment that step saves |
| Theorems.SavesFit | internal/adapter/outbound/postgres/payment_repo.go:250-257 | Every aggregate that reaches Save in a reachable world carries PaymentInitiated exactly if no row exists, and at a matching version keeps the terms and covers the stored refunds, so the upsert neither deletes nor edits |
| Theorems.SavedAtLoadedVersion | internal/adapter/outbound/postgres/payment_repo.go:70-91 | What a command does in memory never changes the version its load returned, so Save checks against what was read |
| Theorems.BehaviourGrows | internal/application/command/reconcile.go:66-107 | Time, committed versions, ledger, declined keys and final gateway states only grow along any behaviour, whatever runs interleave; no lock is relied on |
| Steps.BehaviourSound | internal/application/command/reconcile.go:87-107 | The protocol's invariant (store, gateway, creator and every run) holds in every world of every behaviour |
| Steps.StepKeeps | internal/application/command/reconcile.go:87-209 | Each of the protocol's steps keeps that invariant: environment, create, load, refund, webhook, reconciler, cancel, expiry |
| Steps.ReserveKeeps | internal/application/command/refund_payment.go:93-109 | Reserving a refund by its save keeps the invariant for every other run, however the save ends |
| Steps.RecordKeeps | internal/application/command/refund_payment.go:127-144 | So does recording a refund's outcome, and waiting to load again on a conflict |
| Steps.CallChargeKeeps | internal/application/command/create_payment.go:93-130 | So does the charge call, whether it answers, refuses, or lands and loses its reply |
| Steps.CancelChargeKeeps | internal/application/command/reconcile.go:130-140 | So does cancelling a pending charge whose reply was lost, before it is failed |
| Steps.SweepOneKeeps | internal/application/command/reconcile.go:173-204 | So does re-sending a refund under its key, whatever comes back |
| Sessions.HandleNotificationSound | internal/application/command/process_callback.go:31-101 | Applying a true notification to a loaded payment yields a payment the gateway bears out and whose log stays legal |
| Sessions.SettleChargeSound | internal/application/command/reconcile.go:122-152 | So does settling a charge by a true finding |
| Sessions.ReserveSound | internal/application/command/refund_payment.go:50-94 | So does deciding a refund request: within what is refundable and what the method supports |
| Sessions.RecordReplySound | internal/application/command/refund_payment.go:111-144 | So does recording a true refund answer, also on a payment loaded again |
| Aggregate.Payment.MarkPending | internal/domain/payment/aggregate.go:93-105 | In place: only from INITIATED; records the gateway transaction, raising exactly one event; otherwise INVALID_STATE and nothing changes; the value transition it equals is shown legal for the log by the row EventLog.MarkPendingTracks |
| EventLog.MarkPendingTracks | internal/domain/payment/aggregate.go:93-105 | The transition keeps the unsaved events a legal continuation of the stored log that replays to the new state, and keeps status, paid time and refunds consistent |
| Aggregate.Payment.MarkCompleted | internal/domain/payment/aggregate.go:107-118 | In place: only from PENDING or PROCESSING; sets the paid time, raising exactly one event; otherwise INVALID_STATE and nothing changes; the value transition it equals is shown legal for the log by the row EventLog.MarkCompletedTracks |
| EventLog.MarkCompletedTracks | internal/domain/payment/aggregate.go:107-118 | The transition keeps the unsaved events a legal continuation of the stored log that replays to the new state, and keeps status, paid time and refunds consistent |
| Aggregate.Payment.MarkFailed | internal/domain/payment/aggregate.go:120-130 | In place: from any non-terminal status, raising exactly one event; otherwise INVALID_STATE and nothing changes; the value transition it equals is shown legal for the log by the row EventLog.MarkFailedTracks |
| EventLog.MarkFailedTracks | internal/domain/payment/aggregate.go:120-130 | The transition keeps the unsaved events a legal continuation of the stored log that replays to the new state, and keeps status, paid time and refunds consistent |
| Aggregate.Payment.MarkExpired | internal/domain/payment/aggregate.go:132-142 | In place: only from INITIATED or PENDING, raising exactly one event; otherwise INVALID_STATE and nothing changes; the value transition it equals is shown legal for the log by the row EventLog.MarkExpiredTracks |
| EventLog.MarkExpiredTracks | internal/domain/payment/aggregate.go:132-142 | The transition keeps the unsaved events a legal continuation of the stored log that replays to the new state, and keeps status, paid time and refunds consistent |
| Aggregate.Payment.Cancel | internal/domain/payment/aggregate.go:144-154 | In place: only from PENDING or PROCESSING, raising exactly one event; otherwise INVALID_STATE and nothing changes; the value transition it equals is shown legal for the log by the row EventLog.CancelTracks |
| EventLog.CancelTracks | internal/domain/payment/aggregate.go:144-154 | The transition keeps the unsaved events a legal continuation of the stored log that replays to the new state, and keeps status, paid time and refunds consistent |
| EventLog.NewTracks | internal/domain/payment/aggregate.go:54-91 | A new payment's only event opens a legal log that replays to it |
| Aggregate.Payment.PopEvents | internal/domain/payment/aggregate.go:157-161 | Hands out the pending events in order and leaves none |
| Aggregate.Payment.RefundedAmount | internal/domain/payment/refund.go:40-49 | The loop over int64 equals the mathematical total of succeeded refunds; no step overflows |
| Aggregate.Payment.RefundableAmount | internal/domain/payment/refund.go:51-60 | What is reserved plus the result is the amount paid; the result is between 0 and the amount; no step overflows |
| Aggregate.Payment.FindRefund | internal/domain/payment/refund.go:62-70 | Finds the refund with the id exactly if there is one |
| Aggregate.Payment.RefundByReference | internal/domain/payment/refund.go:72-81 | Finds a refund with the reference exactly if there is one |
| Aggregate.Payment.RequestRefund | internal/domain/payment/refund.go:83-115 | In place: reserves a new PENDING refund and raises RefundRequested, or refuses for wrong status, missing, known or non-positive or excessive input in the code's order and changes nothing; never reserves more than the amount |
| Aggregate.Payment.CompleteRefund | internal/domain/payment/refund.go:117-150 | In place: a PENDING refund becomes SUCCEEDED, the payment REFUNDED exactly when the confirmed total reaches the amount, and the event carries that total; a SUCCEEDED one is left alone, a FAILED one refused, an unknown one not found |
| Aggregate.Payment.FailRefund | internal/domain/payment/refund.go:152-169 | In place: a PENDING refund becomes FAILED and its amount refundable again; any other is refused unchanged |
| EventLog.RequestRefundTracks | internal/domain/payment/refund.go:83-115 | Requesting keeps log and state consistent, with room for the new refund |
| EventLog.CompleteRefundTracks | internal/domain/payment/refund.go:117-150 | Completing does, and the event's running total is right |
| EventLog.FailRefundTracks | internal/domain/payment/refund.go:152-169 | Failing does |
| EventLog.LegalLogShape | internal/domain/payment/refund.go:83-169 | Every legal log has one PaymentInitiated, first; at most one closing payment event; per refund one request before at most one settlement; each RefundCompleted carries the running sum; a REFUNDED event is last; at most 3 + 2 per refund events |
| EventLog.LegalCounts | internal/domain/payment/aggregate.go:93-155 | Counting a legal log's events agrees with what replaying it rebuilds: opened once, acknowledged at most once, closed exactly if terminal, each refund requested once and settled exactly if not PENDING |
| EventLog.CompletedCarriesTotal | internal/domain/payment/refund.go:139-150 | RefundCompleted carries the sum of completed refunds up to it, says REFUNDED exactly when that reaches the amount, and then ends the log |
| EventLog.LegalTotals | internal/domain/payment/refund.go:40-49 | The running sum of completed refunds in the events is the total of SUCCEEDED refunds after replay |
| EventLog.SettledAfterRequested | internal/domain/payment/refund.go:117-169 | A refund's settling event comes after its request |
| EventLog.SettleConsistent | internal/domain/payment/refund.go:135-150 | Settling a pending refund keeps status and refunds in agreement |
| PaymentDomain.RefundedHasNothingPending | internal/domain/payment/refund.go:139-150 | REFUNDED leaves no refund pending, so such a payment cannot change again |
| PaymentDomain.PendingIsReserved | internal/domain/payment/refund.go:51-60 | A pending refund's amount is reserved on top of what has succeeded |
| Handlers.ApplyCharge | internal/application/command/create_payment.go:110-165 | On a new payment object: nothing is stored exactly if its contents were rejected; unknown leaves it as it was, a definite error fails it, an answer records the transaction and then a settlement, paid at that moment, or a decline; with exactly the events of each case |
| Handlers.PrepareRefund | internal/application/command/refund_payment.go:50-94 | Another service's request is NOT_FOUND and changes nothing; then, in the code's order, a missing reference, the replay of the refund with the same reference or a conflict over its amount, method capability, full refunds only, status, and what is left; otherwise one PENDING refund is added with the request's reference, reason and requester, for the amount asked or, for 0, exactly what is refundable |
| Handlers.RecordReply | internal/application/command/refund_payment.go:111-125 | In place: the pending refund with the id becomes SUCCEEDED with the gateway's refund id, or FAILED with its reason, at that moment; every other refund stays as it was; NOT_FOUND exactly for an unknown id |
| Handlers.ApplyRefundNotifications | internal/application/command/process_callback.go:118-145 | The loop completes exactly the pending refunds reported under their key with a matching or unreadable amount, each by the first such report; every other refund stays as it was, and it says whether any changed |
| Handlers.HandleNotification | internal/application/command/process_callback.go:45-101 | In place from loaded payment to save: a settlement completes an open payment with that moment as its paid time, a failure fails it with the gateway's status, an INITIATED one first records the transaction; anything else leaves status, transaction and paid time alone; equals the function proved confluent in Webhooks |
| Handlers.SettleCharge | internal/application/command/reconcile.go:122-152 | An INITIATED payment in place: paid at that moment exactly for a settled finding, otherwise FAILED with the code's reason, with the transaction recorded unless none was created; refused on any other status |
| Handlers.SweepRefunds | internal/application/command/reconcile.go:173-208 | The loop leaves a refund that is not pending, younger than retryAfter or of age giveUpAfter or more exactly as it was, whatever the answers; the others take their answer, at its time, or wait if it is unknown; it says whether anything changed |
| Handlers.CancelOwn | internal/application/command/cancel_payment.go:33-58 | NOT_FOUND for another service's payment and INVALID_STATE unless it is PENDING or PROCESSING, changing nothing; otherwise CANCELLED, and the gateway is asked exactly if it has a transaction |
| Handlers.ExpireOverdue | internal/adapter/outbound/postgres/expiry_job.go:65-81 | Expires exactly an INITIATED or PENDING payment without a deadline that is still to come; otherwise nothing changes |
| Repositories.PostgresRepo.Save | internal/adapter/outbound/postgres/payment_repo.go:31-144 | Statement by statement on payment, refund, event and outbox rows, with a failure possible before or after the events are drained and a commit whose reply is lost: same tables, aggregate and error as Store.Save; other payments untouched; the refund constraints keep holding |
| Repositories.PostgresRepo.PersistRest | internal/adapter/outbound/postgres/payment_repo.go:93-144 | The statements after the payment row: refund upserts, events, outbox and commit come to Store.Write for every ending, a constraint violation included |
| Repositories.PostgresRepo.PersistRow | internal/adapter/outbound/postgres/db/payment.sql.go:246-255 | Newness is read off the pending PaymentInitiated; a taken reference is ALREADY_EXISTS, a stale version CONFLICT |
| Repositories.UpsertRefunds | internal/adapter/outbound/postgres/db/refund.sql.go:106-119 | Upserting one refund after another reaches the merged refunds, or meets a violated constraint exactly when the merged result violates it |
| Repositories.InsertEvents | internal/adapter/outbound/postgres/payment_repo.go:107-127 | The events are appended numbered on from the last sequence number |
| Repositories.MemoryRepo.Save | internal/testsupport/fake/fake.go:43-66 | The in-memory save: ALREADY_EXISTS for an unknown payment with a taken reference, CONFLICT on another version, else replaces the payment and takes its events |
| Repositories.ViolationStays | internal/adapter/outbound/postgres/db/refund.sql.go:106-119 | A constraint violated half-way through the upserts is still violated at the end |
| Store.SaveNumbers | internal/adapter/outbound/postgres/db/payment_event.sql.go:15-19 | However a save ends, sequence numbers stay 1..n and the log gains all of the aggregate's events or none |
| Store.SaveWrites | internal/adapter/outbound/postgres/payment_repo.go:81-127 | Such a save leaves exactly the aggregate's state, refunds and events if the aggregate covers the stored refunds |
| Store.UpsertReplacesIffCovers | internal/adapter/outbound/postgres/db/refund.sql.go:106-119 | The partial-column upsert equals replacing the refund list if and only if the aggregate keeps every stored refund with its frozen columns |
| Store.SaveRefinesMemory | internal/testsupport/fake/fake.go:43-66 | Where a save fits its tables and tables and memory are in step, the Postgres save and the in-memory save leave them in step and agree on aggregate and error code |
| Store.StoredExactlyIff | internal/adapter/outbound/postgres/payment_repo.go:70-105 | Such a save stores the very payment if and only if every instant of it and of its refunds is a whole microsecond |
| Webhooks.WebhooksConfluent | internal/application/command/process_callback.go:45-101 | Two delivery sequences of the same notifications of one gateway history, in any order, with any repetitions and times, leave the same payment status, transaction ID, refund statuses and gateway refund IDs |
| Webhooks.DeliveriesReachResult | internal/application/command/process_callback.go:118-145 | That common result is the one read off the set of notifications alone |
| Webhooks.RepeatSavesNothing | internal/application/command/process_callback.go:87-91 | A notification delivered before, however long ago, changes and saves nothing |
| ReconcilePass.Reconciler.ReconcileCharge | internal/application/command/reconcile.go:109-152 | In place on the store, read off the lookup: settled gives COMPLETED with that transaction, paid at that moment; failed, or pending and cancelled, FAILED with that transaction; not found FAILED; an error, an unknown status or a pending charge that cannot be cancelled changes nothing |
| ReconcilePass.FindsAsTheProtocolDoes | internal/application/command/reconcile.go:122-144 | For every lookup answer a pass settles with the finding that the protocol's lookup and cancel steps reach, and leaves the charge exactly where they stop |
| ReconcilePass.Reconciler.RunOnce | internal/application/command/reconcile.go:87-107 | The loop reconciles exactly the payments of its batch |
| ReconcilePass.PassSettles | internal/application/command/reconcile.go:109-152 | A pass settles exactly the charges of its batch that the gateway's answers decide, each as its own lookup says (paid only if that reports it settled), and touches nothing else |
| ReconcilePass.ProgressIff | internal/adapter/outbound/postgres/db/payment.sql.go:186-197 | The exact condition for progress, for every store, batch size and gateway answers: whichever batch the query returns, a pass shrinks the set of decidable charges, if and only if some decidable charge has fewer than a batch of undecidable ones that are no younger; otherwise the query may return a batch that changes nothing |
| ReconcilePass.PassesSettleAll | internal/application/command/reconcile.go:87-152 | Every pass settles at least one more of the charges for which that condition holds, while one is left, so after as many passes as there were of them all are settled |
| ReconcilePass.SettledInTimeIff | internal/adapter/outbound/postgres/db/payment.sql.go:186-197 | For each decidable charge: every run of as many passes as there were decidable charges leaves it as its lookup says (paid exactly if settled, with that transaction) if and only if fewer than a batch of undecidable charges are no younger than it |
| ReconcilePass.StarvingRun | internal/adapter/outbound/postgres/db/payment.sql.go:186-197 | Otherwise there are runs of every length that leave it unsettled |
| ReconcilePass.FewUndecidable | internal/adapter/outbound/postgres/db/payment.sql.go:186-197 | If fewer charges are undecidable than fill a batch, the condition holds of every decidable charge |
| Outbox.Table.RunOnce | internal/adapter/outbound/postgres/outbox_worker.go:50-93 | One batch in place: acknowledged rows become PUBLISHED, the others, delivered or not, count a failure and back off; a worker that stops, or a lost commit, changes no row, but what the broker received it keeps |
| Outbox.PublishedOnlyAcknowledged | internal/adapter/outbound/rabbitmq/event_publisher.go:92-119 | With any number of workers, crashes, rollbacks and lost confirms: a row is PUBLISHED only after an acknowledged publish; beyond one, every delivery belongs to a batch that rolled back or that committed the row as failed because its confirm was lost; there are at most as many of the latter as committed failures, and at most six deliveries that were not rolled back |
| Outbox.RepeatsIff | internal/adapter/outbound/postgres/outbox_worker.go:50-93 | When a row is about to be published, the broker already has its message if and only if an earlier delivery was rolled back or committed as a failure |
| Outbox.LostConfirmDeliversTwice | internal/adapter/outbound/rabbitmq/event_publisher.go:111-114 | The second cause is real: a behaviour without any rollback in which the confirm is lost, the failure commits, and a later batch delivers the message again |
| Outbox.FailedAfterSix | internal/adapter/outbound/postgres/db/outbox.sql.go:80-105 | FAILED holds exactly when six committed batches failed to publish the row, never more; the sixth starts at least 450 seconds after the first |
| Outbox.StepKeeps | internal/adapter/outbound/postgres/db/outbox.sql.go:16-24 | Claiming with SKIP LOCKED, publishing, committing and rolling back keep the rows, the open batches and the acknowledgement counts in agreement |
| Base64Url.RoundTrip | internal/application/query/cursor.go:49-52 | Base64url without padding: decoding undoes encoding on every byte string (sections 3.2 and 5 of RFC 4648) |
| Cursor.InstantRoundTrip | internal/application/query/cursor.go:49-72 | Parsing an RFC 3339 timestamp undoes formatting it, to the nanosecond, with trailing zeros of the fraction dropped |
| Cursor.FieldsInOrder | internal/application/query/cursor.go:49-72 | The text holds year, month, day, hour, minute and second in that order, in decimal, with the separators of RFC 3339 |
| Cursor.IdRoundTrip | internal/application/query/cursor.go:49-72 | Parsing a UUID's text undoes formatting it |
| Cursor.CursorRoundTrip | internal/application/query/cursor.go:49-76 | Every cursor is non-empty and decodes to exactly the row it was made from |
| Pagination.ListPaginated | internal/testsupport/fake/fake.go:178-218 | The loop returns selected rows up to the limit (50 if none is given) whose instants, as numbers, only ever fall, and whose ids fall among equal instants; no selected row left out is younger than a listed one, or as young with a larger id |
| Pagination.ListPage | internal/application/query/cursor.go:23-47 | A page is refused exactly for an undecodable cursor, with INVALID_INPUT; otherwise it holds the newest rows after the cursor, in falling instants and ids, and next_cursor is set exactly when more are left and names the last row shown |
| Pagination.NewerFirstMeans | internal/testsupport/fake/fake.go:212-218 | One row comes before another exactly if its instant, as a number of nanoseconds, is larger, or equal and its id larger |
| Calendar.EarlierIff | internal/testsupport/fake/fake.go:213-216 | Comparing calendar fields from the year down is comparing instants by their number of nanoseconds in the Gregorian calendar, leap years included |
| Pagination.SelectedIff | internal/adapter/outbound/postgres/payment_repo.go:289-322 | A row passes a filter exactly if it has every value the filter names, was created within its time range, both ends included, and lies after its position |
| Pagination.NothingListedTwice | internal/application/query/cursor.go:20-47 | However the store changes between requests, over the pages of a walk together the instants only ever fall, and ids among equal instants, so no payment comes twice |
| Pagination.WalkListsEachOnce | internal/application/query/cursor.go:20-47 | A walk followed to its end lists every payment that was stored and matching at each request exactly once |
| Pagination.ListedWasStored | internal/application/query/cursor.go:23-47 | Only payments stored and matching when their page was made are listed |
| Pagination.WalkEndsInTime | internal/application/query/cursor.go:29-41 | On a store that stands still a walk lists exactly the matching payments, and ends after exactly as many pages as they fill |
| Pagination.PrefixMatchIffNoWildcards | internal/adapter/outbound/postgres/payment_repo.go:304-308 | The reference filter, documented as a prefix match, goes to LIKE unescaped: it is one, on every reference, if and only if it contains no %, _ or backslash |
| Idempotency.AnswerMeans | internal/adapter/inbound/http/middleware/idempotency.go:90-110 | A replay is answered exactly for a live finished record with the same fingerprint, and with its response; a mismatch exactly for a live readable record with another one |
| Idempotency.Service.Begin | internal/adapter/inbound/http/middleware/idempotency.go:75-111 | Claims a free key for a minute, or for the TTL if that is shorter; otherwise answers from what it then reads: replay for the same fingerprint once done, in flight while processing, gone or unreadable, mismatch for another fingerprint; changes nothing unless it claimed |
| Idempotency.Service.SetNX | internal/adapter/inbound/http/middleware/idempotency.go:83-89 | Sets the key exactly if no live entry holds it |
| Idempotency.Service.Complete | internal/adapter/inbound/http/middleware/idempotency.go:113-125 | Stores the response for the full TTL |
| Idempotency.Service.Release | internal/adapter/inbound/http/middleware/idempotency.go:127-130 | Frees the key |
| Idempotency.ReplaysAreGenuine | internal/adapter/inbound/http/middleware/idempotency.go:105-125 | Over every interleaving, cache failures and late runs included, a replayed response is one that a run with the same fingerprint produced and, having claimed the key, stored through Complete less than a TTL before the replay |
| Idempotency.OneRunAtATime | internal/adapter/inbound/http/payment_handler.go:60-117 | While the cache answers and runs end before their claim expires: at most one run per key is active, and none while a stored response can still be replayed |
| Idempotency.OnlyClaimantsWrite | internal/adapter/inbound/http/payment_handler.go:60-117 | Over every interleaving, only a run that acquired the key overwrites or frees an entry that is still live: one that runs without it, because the cache failed, never does |
| Idempotency.ClaimsAreShort | internal/adapter/inbound/http/middleware/idempotency.go:47-54 | Over every interleaving a claim ends within a minute, so a crashed run blocks its key no longer |
| Idempotency.StoredResponseIsStable | internal/adapter/inbound/http/middleware/idempotency.go:113-125 | Under the same conditions a stored response stays until it expires, so every identical request answered in that time gets it |
| Idempotency.LateReleaseAdmitsAnother | internal/adapter/inbound/http/middleware/idempotency.go:51-54 | The condition on late runs is needed: a behaviour without cache failures in which a late release lets two runs be active at once |
| Attempts.Table.Record | internal/adapter/outbound/postgres/attempt_recorder.go:51-60 | The bounded retry in place: the call is recorded exactly if one of its three tries met no rival, its number is the next one, and numbers stay 1..n; failing took at least three other rows |
| Attempts.NumbersAreContiguous | internal/adapter/outbound/postgres/db/attempt.sql.go:15-26 | Over every interleaving of calls a payment's attempt numbers are exactly 1..n |
| Attempts.FailingTakesThreeRivals | internal/adapter/outbound/postgres/attempt_recorder.go:51-60 | A call that fails on numbering saw at least three other, distinct calls commit between its start and its end |
| Attempts.FreeIffNothingCommitted | internal/adapter/outbound/postgres/db/attempt.sql.go:39-41 | A number picked earlier violates the unique index exactly if another row was committed since |
| ApiKeys.ParseHashes | internal/pkg/apikey/apikey.go:35-56 | The loop accepts a list exactly if every entry is blank or reads service, colon, 64 hexadecimal digits with blanks around them, the service neither empty nor holding a colon, and no hash is given to two services; it returns exactly the given hashes, in lower case, with their services |
| ApiKeys.ServicesHaveNoColon | internal/pkg/apikey/apikey.go:42-46 | No service name it returns is empty or contains a colon |
| ApiKeys.ParseUndoesJoin | internal/pkg/apikey/apikey.go:32-56 | Parsing a comma-joined list of service:hash entries, with any blanks around their parts and hashes in either case, succeeds exactly if the list is free of conflicts, and then yields precisely its entries |
| CachedViews.ReferenceKeysInjective | internal/application/ports/cache.go:19-23 | For colon-free services a by-reference key determines service and reference |
| CachedViews.ReferenceKeysCollideIff | internal/application/ports/cache.go:21-23 | In general two services share a key exactly when they are equal or one's name goes on from the other's with a colon |
| CachedViews.PaymentKeysInjective | internal/application/ports/cache.go:19-23 | Payment keys determine the payment and never equal a by-reference key |
| CachedViews.HitsAreOwnPastVersions | internal/application/query/get_payment_by_ref.go:35-53 | However slowly readers fill the cache, and whichever API keys are configured when, a hit by id is a version that very payment once had, and a hit by reference is of the asker's own caller and reference, though no owner is checked |
| CachedViews.Queries.Load | internal/application/query/get_payment.go:62-86 | Read-through: a hit is returned as cached, a miss reads the store and fills the entry, a cache that is down changes nothing |
| CachedViews.Queries.GetPayment | internal/application/query/get_payment.go:50-60 | With the cache up or down: an admin gets any payment that is cached or stored and a service its own, exactly the cached view if there is one; another service's payment gets the same answer as a missing one |
| CachedViews.Queries.GetByReference | internal/application/query/get_payment_by_ref.go:27-56 | Missing parameters are INVALID_INPUT; a hit is returned as it is; a miss finds the asker's payment with the reference exactly if there is one, and fills the entry |
| FlexAmount.RoundedIsNearest | internal/adapter/outbound/gateway/midtrans/adapter.go:107-114 | The modelled rounding of a whole number is at least as near as any other double (section 4.3.1 of IEEE 754-2019) |
| FlexAmount.TiesGoToEven | internal/adapter/outbound/gateway/midtrans/adapter.go:107-114 | Where two doubles are equally near, the one with the even significand is taken |
| FlexAmount.UnchangedIffDouble | internal/adapter/outbound/gateway/midtrans/adapter.go:107-114 | A whole number survives rounding if and only if it has a significand of at most 53 bits |
| FlexAmount.AmountIsExactIffDouble | internal/adapter/outbound/gateway/midtrans/adapter.go:107-114 | Reading "n.00" gives n if and only if n is a double, for every n whose double fits an int64 |
| FlexAmount.AmountsUpToTwoTo53 | internal/application/command/process_callback.go:134-138 | Every amount up to 2^53 is read back exactly, so a truthful refund notification of it never counts as a mismatch |
| FlexAmount.TwoTo53IsTheLimit | internal/adapter/outbound/gateway/midtrans/adapter.go:107-114 | 2^53 + 1 is read as 2^53 |

## Left out

- HTTP routing, request decoding, authentication middleware and generated models: no state of their own.
- The Midtrans request bodies, signatures and payload decoding; the gateway is modelled by its port, plus
  the classification of replies in `Midtrans`.
- RabbitMQ, Redis and pgx clients: abstract publish, key-value and transaction steps that may fail.
- `UpdateStatus` of both repositories: it bypasses the version check, and no command calls it.
- Customer data, metadata, descriptions and gateway payloads: carried, never inspected.
- The 32-bit width of the stored version and sequence columns: versions and sequence numbers are unbounded.
- Refund objects are values inside the payment; handlers look them up by id instead of holding a pointer,
  so pointer aliasing between a refund and its payment is not captured.
- The protocol follows one payment; other payments appear only as a reference that is already taken. That
  the gateway is charged once per reference is not claimed: two racing creates can both charge.
- `Repositories.PostgresRepo.Save`: failures are placed before the events are drained, after it, or at the
  commit, which is all a caller can tell apart; the loads are steps of `Protocol`, not methods.
- `Theorems.TornLoadsConflict`: with a transaction that fails before it reaches the version check the
  answer is an internal error instead of CONFLICT, as in the code.
- `Theorems.SavesRefineMemory`: the instants a command compares in memory keep their nanoseconds; those a query
  compares are cut, as the driver cuts its parameters. Time zones are not modelled.
- `Webhooks.WebhooksConfluent`: deliveries one after the other with no other writer in between; their
  interleavings with every other run are covered by the protocol theorems, without confluence.
- `ReconcilePass.PassesSettleAll`: the charge half of a pass with fixed gateway answers; the refund half
  gives up on a refund after a time limit, so it promises no such progress.
- `Outbox.Table.RunOnce`: batch size and the order of claimed rows, which no property uses. Every event the
  domain raises has a routing key, so the publisher's silent skip of unroutable events is left out.
- `Idempotency.OneRunAtATime`: its two conditions are on the environment; the lemma after it shows that late
  runs break the claim, and failing open while the cache is down is the handler's documented choice.
- `Pagination.ListPage`: the stored rows' instants and a filter's bounds are taken as given (the driver cuts the
  bounds to microseconds); ids compare as numbers; the lower-case hexadecimal text the in-memory repository
  compares has the same order. Timestamps are UTC and of years 0 to 9999.
- `Cursor.CursorRoundTrip`: parsing accepts only what the encoder writes; the other spellings Go's parsers take
  (offsets, upper case, braces) matter for no cursor the service hands out.
- `CachedViews.HitsAreOwnPastVersions`: that a cached view equals the stored payment is not claimed; a slow
  reader can cache an old view again after it was dropped. JSON encoding is taken as lossless.
- `FlexAmount.AmountIsExactIffDouble`: texts of digits with ".00", which is how whole amounts arrive; other
  fractions, signs and exponents are not read. A float of 2^63 or more has no int64 Go specifies.
- SHA-256 and UUID generation: opaque, fresh where the code draws them.
- Clock readings: a handler reads the clock once for everything it does between two calls, where the code may
  read it again a moment later; `Handlers.SweepRefunds` and the protocol keep the pass's reading for
  ages apart from the later ones.
- `Causes.RefundsAnswerRequests`: that the amount of a request for 0 is all that was left is stated of the command
  (`Handlers.PrepareRefund`), where what was left is known.
- Configuration loading, logging, telemetry, migrations and the command-line entry points.
