# A verified model of the sandbox payment gateway

This project models the part of the gateway that moves money and the protocols
around it, and proves what they promise.

- **Money, fees, double entry** (`Monetary`, `Fees`, `Ledger`, `Cards`): 64-bit
  minor units with overflow as an error, half-away-from-zero percentages,
  the fee schedule and its cumulative reversal, balanced ledger transactions,
  the card checksum.
- **The engine** (`Gateway`, `Effects`, `Changes`, `Books`, `Invariants`,
  `Runs`): orders, payments, refunds, ledger, events, deliveries and jobs as
  tables. `Plan` says which single-row statements a request performs on what it
  reads, or why it is refused; `Apply` commits all of them or none. `Changes`
  states independently, table by table, what each accepted request does, and
  exactly when a request is accepted. `Runs` holds the theorems over every
  sequence of requests.
- **The services** (`Services`): the same operations as methods over objects,
  with `mark_*` methods, a transaction that executes statements, a transaction
  builder and loops, each proved to do to the database exactly what `Apply` says.
- **Concurrency** (`Concurrency`): any number of those transactions interleaved
  at lock, sum, statement, commit and abort granularity, under READ COMMITTED
  with row locks and the unique key on merchant accounts. Every reachable state
  of the tables is that of a serial run, so every theorem of `Runs` holds there,
  and every serial run is reached. The transactions never deadlock, and an
  acceptable request gets to its commit while nobody holds what it needs.
- **Idempotency keys** (`Idempotency`, `KeyStore`): acquire in two statements,
  execute, complete or release, requests dying anywhere, purge at any time.
- **Job queue and webhook deliveries** (`JobQueue`, `DeliveryMirror`,
  `JobProgress`, `JobStore`): workers that tick, claim, execute, reschedule, crash
  and are reaped, the delivery row that mirrors its job, and that no job is lost.
- **Authentication cache** (`AuthCaching`), **pagination** (`Pagination`) and
  **webhook signatures** (`Signing`).

`dafny verify dfyconfig.toml` checks the whole project.

## Results that carry a condition

- *Idempotency is at most once* between purges exactly when the request budget
  does not exceed the lifetime of a key and whatever commits gets recorded, that
  is, a committing handler answers below 500 and within the recording limit.
  `complete` and `release` name no owner, so a request may otherwise outlive its
  row; and an answer that is not recorded releases the key after the work was
  committed. The two runs that charge twice are spelled out. The first half alone
  decides whether recording only hits a request's own row and whether two live
  requests can run handlers under one key. With the default
  times (30 s and 24 h) the first half holds.
- *No live worker loses a job to a reaper* exactly when a full batch, executed
  job by job, fits into the lease. With the defaults (10 jobs of at most a 10 s
  send in 5 minutes) it does.
- *The CHECK on attempts trips for a delivery job* exactly when a reaper returned
  it after its seventh attempt, given batches that fit into the lease; such a job
  then stays pending for good, and any claim that picks it up is refused as a
  whole. A job that no reaper has returned never trips it, whatever the lease, and
  the same holds of everything said about its delivery row.
- *A job other than a webhook trips it without a reaper* exactly when its
  `max_attempts` is zero, or below seven and some handler for it asks for
  retries, because the ladder does not look at `max_attempts`; the run that does
  so is given for every such limit. The engine enqueues two kinds with three
  attempts. The server registers no handler for them, so for now they die at their
  first attempt, and that they then never trip it unreaped is proved as well.
  It would begin with a handler that returns a retryable error.
- *Executions* of a job are counted when they begin, those a crash cuts off
  included.
- *Pagination is complete* for a fixed table exactly when no page boundary falls
  inside a group of rows created at the same instant. The same holds of the rows
  there at the start while others are inserted, as long as none of them is older
  than the cursor the client then holds; they may land among rows it has already
  read. With distinct creation times it is complete. A page never hides its extra
  row exactly when the limit is below 200.
- *A revoked key is never served again* once it is invalidated with no earlier
  read of it under way. A request that read the key before the revocation and
  stores it after the invalidation brings it back, until the TTL counted from that
  request's clock reading is over.
- *Signature drift* is measured correctly up to 64-bit wrap-around of
  `now - timestamp`; the wrapping distances are named.
- *Touches of one key are spaced by the interval* when calls come in the order of
  their clock readings; in any order, a touch that comes too early is granted
  exactly when the table no longer remembers the key, and for every capacity a run
  in which that happens is given.
- *The table of touches is not bounded by the capacity*: at its bound it grows
  exactly when an unknown key comes while everything it remembers is within the
  interval, and for every capacity and every size a run reaches that size.

## Where code and comments differ

The model follows the code.

- `crates/queue/worker.rs` says a panicking handler is caught; nothing catches
  it, so a panic is the death of the worker here.
- `crates/store/src/tx.rs` ranks ledger accounts as locked rows; the code never
  locks them, and only the insertion of a merchant account can make a posting wait.
- `crates/api/auth.rs` calls the table of touches bounded; it
  grows past its capacity (see above). The table of decisions is bounded.
- `crates/api/auth.rs` says invalidating a key closes the window after its
  revocation; a read still under way reopens it (see above).
- `crates/domain/src/money.rs` calls the rounding half-up; it is half away from
  zero, which differs for negative amounts.

## Model

| member | source | states |
|---|---|---|
| Monetary.PercentIsNearest | crates/domain/src/money.rs:167-187 | with a positive denominator `percent` is the one nearest integer, ties away from zero, overflows exactly when that does not fit, and its 128-bit intermediate never wraps |
| Monetary.PercentIsOdd | crates/domain/src/money.rs:167-195 | the percentage of the negated amount is the negated percentage, overflow included: one of the two overflows alone exactly when the other is the smallest 64-bit number |
| Monetary.PercentIsMonotone | crates/domain/src/money.rs:167-187 | for a non-negative amount a larger numerator never gives a smaller share |
| Monetary.NearestIsUnique | crates/domain/src/money.rs:175-181 | at most one integer is nearest with ties away from zero, so the rounding rule determines the result |
| Monetary.AddThenSub | crates/domain/src/money.rs:141-165 | addition is refused exactly on a currency mismatch or overflow, and subtraction undoes it |
| Fees.FeeExists | crates/engine/fees.rs:22-59 | every non-negative amount has a fee and no step overflows: 2 % rounded plus 300 for INR or 30 elsewhere, on that base 18 % tax rounded for INR and none elsewhere, total their sum |
| Fees.FeeIsThePublishedOne | crates/engine/fees.rs:22-59 | those numbers hold of the fee that captures charge and refunds give back |
| Fees.SliceIsExact | crates/engine/refund.rs:232-254 | a refund slice returns per component the difference of two cumulative shares, never negative, never above the fee, and it and its total fit 64 bits |
| Fees.SlicesTelescope | crates/engine/refund.rs:13-21 | any sequence of positive slices returns exactly the shares owed at its two ends |
| Fees.FullRefundReturnsTheFee | crates/engine/refund.rs:13-21 | refunding everything, however sliced, returns exactly base and tax of the fee |
| Fees.RoundingDoesNotAccumulate | crates/engine/refund.rs:13-21 | after any slices each component is within half a minor unit of the exact proportional share |
| Ledger.SignRules | crates/domain/src/ledger/ledger_entry.rs:25-56 | credits and debits take positive amounts only and give equal and opposite entries |
| Ledger.New | crates/domain/src/ledger/ledger_transaction.rs:90-116 | the map-accumulating constructor decides as `Validate` does, whatever order the map yields its currencies in |
| Ledger.ValidateMeaning | crates/domain/src/ledger/ledger_transaction.rs:86-116 | accepted exactly with two entries or more, every running total in 64 bits and every currency at zero; otherwise the number of entries, the overflow, or exactly the non-zero totals sorted by code |
| Ledger.CreditedEqualsDebited | crates/domain/src/ledger/ledger_transaction.rs:141-149 | an accepted transaction credits what it debits, per currency |
| Ledger.BooksSumToZero | crates/store/src/ledger.rs:182-235 | posting only accepted transactions keeps every currency's total at zero |
| Cards.LuhnValid | crates/domain/src/card.rs:145-164 | the right-to-left loop computes the positional checksum of Annex B of ISO/IEC 7812-1 |
| Cards.TwoDigitsMore | crates/domain/src/card.rs:145-164 | the formula from the right: a check digit counts as it is, the digit before it as the digit sum of its double, the rest as it would without them |
| Cards.ExactlyOneDigitIsValid | crates/domain/src/card.rs:145-164 | at any position exactly one digit makes the number valid |
| Cards.SubstitutionIsDetected | crates/domain/src/card.rs:145-164 | every single-digit substitution in a valid number is rejected |
| Cards.TranspositionIsDetected | crates/domain/src/card.rs:145-164 | an adjacent transposition passes exactly for equal digits and for 0 with 9 |
| Cards.AcceptedCards | crates/domain/src/card.rs:103-133 | a card is accepted exactly with 12 to 19 digits, a valid checksum and an existing month, separators ignored; otherwise the first of these to fail is the error; the last four digits are kept |
| Cards.CardsLastToTheirMonth | crates/domain/src/card.rs:135-142 | a card is valid up to and including its month |
| Effects.CapturePostings | crates/engine/ledger.rs:30-79 | capturing a positive amount posts the capture and fee transactions, and every build succeeds |
| Effects.RefundPostings | crates/engine/ledger.rs:120-180 | refunding within the payment posts the refund and, if any, the fee return, and every build succeeds |
| Effects.FanOutEffect | crates/engine/event.rs:47-66 | the statements of a fan-out add one delivery and one matching job per delivery, in order |
| Effects.FanOutServesSubscribers | crates/engine/event.rs:47-66 | a fan-out writes a delivery and a job, due at once with seven attempts, for exactly the endpoints that are active and whose list is empty or names the event as it is called on the wire |
| Changes.RequestsAreDecidedByAccepts | crates/engine/payment.rs:112-361 | on sound tables a request is accepted exactly under a checkable condition (for an order that is minimum amount, number of notes, receipt length and a receipt new to the merchant), and then makes exactly the stated change to every table |
| Changes.RefusedRequestsSayWhy | crates/engine/payment.rs:112-257 | every refused request gets exactly one named error, the first thing wrong with it, card errors and forbidden transitions included |
| Changes.SettleSucceeds | crates/engine/payment.rs:307-361 | settlement succeeds whenever both status machines allow it |
| Books.CaptureMatchesRow | crates/engine/ledger.rs:30-79 | what a capture posts to each account is what the captured row stands for |
| Books.RefundMatchesRows | crates/engine/ledger.rs:120-180 | what a refund posts to each account is the difference between the row after and before |
| Books.FullyRefundedIsNeutral | crates/engine/refund.rs:13-21 | a fully refunded payment stands for nothing in any account |
| Invariants.InvKept | crates/engine/payment.rs:112-361 | every request, accepted or refused, keeps row constraints, unique receipts, refund sums, single settlement, closed books, exact events and an exact outbox |
| Invariants.InvAlways | crates/engine/refund.rs:75-201 | all of these hold after any sequence of requests whatever |
| Invariants.AnnouncedIsNew | crates/engine/event.rs:36-69 | a request announces exactly what it newly makes happen |
| Invariants.SumAppend | crates/store/src/refund.rs:105-123 | a refund adds its amount to the sum of its own payment, unless it failed |
| Runs.BalancesFollowPaymentRows | crates/store/src/ledger.rs:241-259 | after any run every account's entries sum to a closed form of the payment rows, and each currency to zero |
| Runs.SlicingDoesNotMatter | crates/engine/refund.rs:13-21 | two runs with the same payment rows have the same balances |
| Runs.EverythingRefundedLeavesNothing | crates/engine/ledger.rs:104-180 | with everything captured refunded, every account is at zero |
| Runs.AtMostOnePaymentSettles | crates/domain/src/order.rs:10-71 | at most one payment of an order settles, the order is paid exactly then, and `amount_paid` is the amount or zero |
| Runs.ReceiptsNameOneOrder | migrations/20260726094843_orders.up.sql:33-38 | in every run a merchant's receipt names at most one order; creating another under it changes nothing and, if valid otherwise, is the conflict of the unique index |
| Runs.RefundsNeverExceedThePayment | crates/engine/refund.rs:3-11 | refunds sum to `amount_refunded`, never exceed the payment, and it is Refunded exactly when they reach it |
| Runs.RefundsFailOnlyByValidation | crates/engine/refund.rs:97-187 | `mark_refunded`, the fee computation and the ledger never make a refund fail |
| Runs.LosingCaptureChangesNothing | crates/engine/payment.rs:264-295 | a capture on an order that is already paid is refused and changes no table |
| Runs.RowsFollowTheirMachines | crates/domain/src/payment_status.rs:34-60 | requests move rows along the two status machines only (payments from authorized to captured to refunded, orders from created and attempted to paid), keep their identity and only append to logs |
| Runs.OutboxIsExact | crates/engine/event.rs:1-69 | every capture, paid order, authorization, decline and refund has exactly one event and no event lacks its change; webhook jobs are the deliveries one for one |
| Runs.EveryEventIsFannedOut | crates/engine/event.rs:36-69 | every event has exactly the deliveries of its fan-out over the endpoints given to its own request, the one accepted at its place in the run |
| Runs.EveryEventReachesItsSubscribers | crates/engine/event.rs:47-66 | in every run each event has reached exactly the endpoints, of those its accepted request was given, that were active and had asked for it by its name or for everything |
| Runs.DeliveriesAreTheReceivers | crates/store/src/webhook_endpoint.rs:20-28 | a fan-out has exactly one delivery per endpoint that is active and whose list is empty or names the event as it is called on the wire |
| Gateway.StatusMachines | crates/domain/src/payment_status.rs:34-60 | the moves of both machines are exactly those listed, an order status is terminal exactly without a move, and only an authorized payment is capturable |
| Services.Order.MarkPaid | crates/domain/src/order.rs:62-66 | moves to Paid with the amount only from Attempted, otherwise reports the transition and changes nothing |
| Services.Payment.MarkRefunded | crates/domain/src/payment.rs:86-90 | moves to Refunded with the total only from Captured, otherwise reports the transition and changes nothing |
| Services.EmitEvent | crates/engine/event.rs:36-69 | executes the planned statements: the event, and a delivery and a job for exactly the active endpoints that asked for it by name or for everything |
| Services.PostCaptureEntries | crates/engine/ledger.rs:30-79 | builder by builder, executes exactly the planned postings or fails with the planned error |
| Services.PostRefundEntries | crates/engine/ledger.rs:120-180 | likewise for a refund and its conditional fee return |
| Services.Settle | crates/engine/payment.rs:307-361 | both aggregates move, then ledger, then both events, as planned |
| Services.CreateOrderFor | crates/engine/order.rs:49-80 | the stored tables are `Apply` of the old ones, and the error is the planned one: amount, notes, receipt length, then the repeated receipt |
| Services.CreatePaymentFor | crates/engine/payment.rs:112-261 | the same, over all six outcomes, with nothing stored on any early return |
| Services.CapturePaymentFor | crates/engine/payment.rs:264-295 | the same for a manual capture |
| Services.SumRefunds | crates/store/src/refund.rs:111-123 | sums the non-failed refunds of one payment |
| Services.RefundPaymentFor | crates/engine/refund.rs:75-201 | the same for a refund, guard included |
| Concurrency.EveryExecutionIsSerial | crates/engine/payment.rs:112-361 | in every interleaving with aborts the committed tables are those of the committed requests run one after another in commit order |
| Concurrency.EveryRunIsExecuted | crates/engine/payment.rs:112-361 | the converse: the tables of every run, one request after the other, are reached by an execution without aborts |
| Concurrency.AcceptedRequestsGetThrough | crates/engine/refund.rs:75-201 | in every reachable state an acceptable request of any kind can be brought to its commit without an abort and beside whatever else is open, as long as nobody holds a row or an account key it needs |
| Concurrency.RefusedRequestsGoAway | crates/engine/payment.rs:112-135 | under the same condition a request that is not acceptable ends by itself and leaves tables, locks and open transactions as they were |
| Concurrency.AcceptedRequestsCanCommit | crates/store/src/tx.rs:15-25 | whatever is open, some continuation commits the request, and without an abort if nothing is open |
| Concurrency.KnowledgeSurvives | crates/store/src/refund.rs:105-123 | what a transaction read under its locks, row and refund sum, is still true after any other commit, that of an order included |
| Concurrency.ConcurrentRefundsStayWithin | crates/engine/refund.rs:3-11 | interleaved refunds of one payment never exceed it and set its total and status exactly |
| Concurrency.ConcurrentRefundsFailOnlyByValidation | crates/engine/refund.rs:97-187 | in any interleaving a refund that holds its payment is refused at the sum by validation only |
| Concurrency.ConcurrentCapturesSettleOnce | crates/engine/payment.rs:264-295 | interleaved creates and captures settle one order at most once |
| Concurrency.ConcurrentBalances | crates/store/src/ledger.rs:1-14 | every reachable state keeps every balance at its closed form |
| Concurrency.StatementsOnlyWaitForAccounts | crates/store/src/ledger.rs:133-176 | updates never wait; only claiming a merchant account's unique key can |
| Concurrency.OneInserterPerAccount | crates/store/src/ledger.rs:133-176 | in every reachable state at most one open transaction has inserted an account that is not committed yet |
| Concurrency.WaitingIsOrdered | crates/store/src/tx.rs:27-44 | whoever holds a lock wants only locks of higher rank |
| Concurrency.WaitingNeverCloses | crates/store/src/tx.rs:3-13 | no chain of waiting transactions closes or exceeds four |
| Concurrency.SomebodyCanAlwaysGoOn | crates/store/src/tx.rs:3-13 | while a transaction is open, some transaction can take its next step |
| Idempotency.AtMostOnceIffTimelyAndTidy | crates/api/middleware/idempotency.rs:99-221 | in every run a key's request commits at most once between purges, exactly when the request budget does not exceed the key lifetime and whatever commits is recorded |
| Idempotency.DoubleChargeHappens | crates/store/src/idempotency.rs:108-155 | the run that commits twice when a request outlives its key |
| Idempotency.ReleasedChargeHappens | crates/api/middleware/idempotency.rs:179-200 | the run that commits twice when a committing handler's answer is not recorded |
| Idempotency.RecordTouchesOwnRow | crates/store/src/idempotency.rs:108-146 | in every run `complete` and `release` only hit the row their own request inserted, still in progress, exactly when the request budget does not exceed the key lifetime; otherwise a run hits the row of a successor at work |
| Idempotency.OneHandlerPerKey | crates/store/src/idempotency.rs:46-76 | in every run no two live requests run handlers under one key, exactly under the same condition |
| Idempotency.SelectByTheRow | crates/store/src/idempotency.rs:79-105 | the SELECT says in flight exactly of a row in progress, mismatch exactly of a recorded answer to another hash, a replay exactly of one to the same |
| Idempotency.WorkInProgressIsInFlight | crates/store/src/idempotency.rs:93-94 | in every run, while the request owning the row has yet to record, anybody else with that key is told it is in flight, whatever it asks for |
| Idempotency.RecordingKeepsTheAnswer | crates/api/middleware/idempotency.rs:179-221 | in every run, recording an answer below 500 that fits completes the row with it, and any other answer frees the key; the caller gets the answer, without its body if too large |
| Idempotency.SelectReplaysTheOwner | crates/store/src/idempotency.rs:79-105 | when the SELECT leads to a replay, the answer is the status and body that the request owning the row answered to the same key and hash; if whatever commits is recorded, the key's commits since its last purge are exactly that request's one commit, or none if it committed nothing |
| Idempotency.ReplaysAreTheOriginal | crates/store/src/idempotency.rs:79-105 | every replay in any run came from such a SELECT and repeats its row's owner as of that step |
| KeyStore.Store.Acquire | crates/store/src/idempotency.rs:47-106 | inserts exactly when the key is free; otherwise changes nothing and answers in flight for a row in progress, the recorded answer for the same hash and mismatch for another |
| KeyStore.Store.PurgeExpired | crates/store/src/idempotency.rs:149-155 | keeps exactly the rows that have not expired and counts the others |
| KeyStore.Store.Guarded | crates/api/middleware/idempotency.rs:99-221 | the handler executes exactly for the inserting request; an answer below 500 and within the limit completes its row, any other frees the key, and one too large loses its body; everybody else is answered from the row |
| KeyStore.RecordedAnswersStand | crates/store/src/idempotency.rs:93-105 | a recorded answer is what every same-hash retry is told, and other hashes mismatch |
| JobQueue.NextRetryAt | crates/queue/scheduler.rs:38-48 | a retry exists exactly below seven attempts and is never in the past |
| JobQueue.LeaseSafeIffBatchFits | crates/queue/worker.rs:99-142 | no live worker loses a job to a reaper, in every run, exactly when a batch fits into the lease |
| JobQueue.RunningJobsWereDue | crates/store/src/job.rs:136-139 | in every run, whatever the lease, a running job was leased no earlier than its `run_at` |
| JobQueue.LeasedWhenDue | crates/store/src/job.rs:121-154 | a step leases a job only if it was pending, due and below its limit, and counts one attempt |
| JobQueue.OneLiveWorkerPerJob | crates/store/src/job.rs:110-154 | no job is ever in the hands of two live workers, if batches fit into the lease or no reaper has returned that job |
| JobQueue.JobsComeToAnEnd | crates/store/src/job.rs:156-241 | if batches fit into the lease or no reaper has returned the job, every change of its row uses up its measure, so there are at most twice `max_attempts` and one of them; completed and dead jobs stay untouched, and executions begun, interrupted ones included, never exceed attempts nor attempts their maximum |
| JobQueue.UnreapedJobsNeverTrip | crates/store/src/job.rs:121-154 | whatever the lease, an unreaped delivery job is pending with at most six attempts, never trips the CHECK and begins at most seven executions, interrupted ones included |
| JobQueue.AttemptsCheckTripsIffReapedAtMax | crates/store/src/job.rs:121-154 | with batches within the lease, a pending delivery job trips the CHECK exactly if it was reaped after its last attempt, and even a reaped one begins at most seven executions, interrupted ones included |
| JobQueue.ShortLimitsTripToo | crates/queue/worker.rs:177-184 | rescheduling a retryable failure leaves a job the CHECK refuses exactly at its own limit when that is shorter than the ladder |
| JobQueue.UnreapedTripsIff | crates/queue/worker.rs:177-184 | for every limit, some run leaves an unreaped job that is not a webhook where every claim of it is refused, exactly when the limit is zero, or below seven with a handler that may ask for retries and a worker that claims |
| JobQueue.OtherJobsDieAtOnce | crates/queue/worker.rs:147-158 | with no handler but the one for webhooks any other unreaped job is attempted at most once and never trips the CHECK; with batches within the lease it does exactly if it was reaped after its last attempt |
| DeliveryMirror.DeliveryRowMirrorsItsJob | crates/webhooks/worker.rs:1-160 | whatever the lease, the delivery row of a job never reaped shows that job: same attempt while claimed, one ahead while pending, due with the job at first and then both next times the ladder's interval for that attempt after the worker's and the handler's clock readings, delivered and given up exactly with completed and dead and then without a next time |
| DeliveryMirror.ReadingsAreTheLastAttempt | crates/queue/worker.rs:144-186 | those readings are written when the handler of the job returns and by nothing else |
| DeliveryMirror.RetriesWaitTheirTime | crates/queue/scheduler.rs:15-48 | an unreaped delivery job is leased for its next attempt no earlier than 1, 5, 30 minutes, 2, 6 or 24 hours after its last one started |
| JobProgress.UnfinishedJobsCanComplete | crates/queue/worker.rs:99-186 | in every reachable state, whatever workers hold and however many have died, an unfinished job with an attempt left and a handler can still be completed by its next attempt and its delivery delivered |
| JobProgress.BatchesCanBeWorkedOff | crates/queue/worker.rs:133-142 | in every reachable state a worker about to start on a job can complete everything it has in hand, job after job, and is then idle again |
| JobProgress.LostWritesLoseNothingElse | crates/queue/worker.rs:104-108 | a reap or a final write that fails changes no row, and the worker goes on as after one that succeeded |
| JobStore.Store.SelectDue | crates/store/src/job.rs:136-142 | picks pending jobs with `run_at` not after now, up to the limit, and leaves none out while there is room or while a later one is taken |
| JobStore.Store.ClaimBatch | crates/store/src/job.rs:121-154 | leases exactly those, to this worker from now with one more attempt, or nothing when one of them has no attempt left |
| JobStore.Store.ReapStaleLeases | crates/store/src/job.rs:222-241 | makes pending again exactly the running jobs locked before the deadline, changes nothing else about them, and counts them |
| JobStore.Store.Deliver | crates/webhooks/worker.rs:92-160 | delivered or given up without a next time, or failed, one attempt ahead, and next due after the wait for this attempt |
| JobStore.Store.Execute | crates/queue/worker.rs:144-186 | completes, kills or reschedules the job as its handler decided, after 1, 5, 30 minutes, 2, 6 or 24 hours from its start |
| JobStore.Store.Tick | crates/queue/worker.rs:100-142 | after a tick every claimed job is as its handler decided, every other job as the reaper left it, and the claimed ones were the oldest due |
| AuthCaching.AuthCache.Lookup | crates/api/auth.rs:343-352 | answers only from an unexpired entry of an enabled cache |
| AuthCaching.AuthCache.Store | crates/api/auth.rs:354-377 | stores under the TTL and stays within capacity; every other entry stays while there is room, expired ones go when there is none, and all of them when that makes none |
| AuthCaching.AuthCache.InvalidateKey | crates/api/auth.rs:379-388 | forgets every decision and touch of one key and no other decision |
| AuthCaching.AuthCache.InvalidateAll | crates/api/auth.rs:390-400 | forgets everything |
| AuthCaching.AuthCache.ShouldTouch | crates/api/auth.rs:416-437 | a remembered key is granted exactly when the interval since its last touch is over, an unknown one always; the grant is recorded, and others are dropped only from a full table and past their interval |
| AuthCaching.CachedAnswersAreRecent | crates/api/auth.rs:577-636 | whatever is revoked or read late, an answer from the cache to a request that began at t was the database's own at some instant after t minus the TTL; capacity holds |
| AuthCaching.RevocationIsFinal | crates/api/auth.rs:379-388 | after revocation and invalidation, with no earlier read under way, the key is never served again |
| AuthCaching.InvalidationForgets | crates/api/auth.rs:379-400 | invalidating a key, or everything, brings about that condition exactly when no request under way has read the key from the database; what is cached of other keys stays |
| AuthCaching.LateStoreRevivesTheKey | crates/api/auth.rs:577-636 | otherwise, in any run, a request that stores its earlier read after the invalidation has the revoked key served to another one with that hash, exactly if that one read the clock before the TTL from the first one's reading was over |
| AuthCaching.GrantsAreSpaced | crates/api/auth.rs:416-437 | with calls in time order two granted touches are at least the interval apart |
| AuthCaching.EarlyExactlyWhenForgotten | crates/api/auth.rs:416-437 | in any order, a touch that comes too early is granted exactly when the table no longer remembers the key |
| AuthCaching.LateCallerIsGrantedEarly | crates/api/auth.rs:429-437 | for every capacity, the run in which a late caller is granted too early |
| AuthCaching.FullTableGrowsIff | crates/api/auth.rs:429-435 | a table of touches at its bound grows exactly for an unknown key while everything it remembers is within the interval |
| AuthCaching.TouchTableIsUnbounded | crates/api/auth.rs:429-435 | for every capacity and every n, n keys touched at one instant are all remembered |
| Pagination.Finish | crates/api/pagination.rs:106-128 | trims in place to the page, and `next_before` is set exactly when more was fetched |
| Pagination.ListedRows | crates/engine/order.rs:86-95 | whatever limit is asked for, the newest rows before the cursor, at least one of them if there is any and 200 at most |
| Pagination.BackstopKeepsTheExtraRow | crates/engine/order.rs:20-26 | a page size always reports `has_more` truthfully exactly when it is below the clamp |
| Pagination.AcceptedLimitsAreSafe | crates/api/pagination.rs:52-66 | limits are accepted exactly from 1 to the maximum and resolve to themselves, no limit to the default, and with sizes below the clamp every resolved limit reports `has_more` truthfully |
| Pagination.CompleteIffNoTieSplit | crates/api/pagination.rs:20-28 | following the cursor yields every row, once and in order, exactly when no page boundary splits a tie; otherwise rows are lost |
| Pagination.PaginationIsComplete | crates/api/pagination.rs:12-28 | with distinct creation times the crawl is all the rows, once and in order |
| Pagination.InsertionsOnlyGainNewer | crates/api/pagination.rs:12-16 | rows inserted between two requests, anywhere in the order but none older than the cursor then held, change no page still to be read |
| Pagination.FetchAll | crates/api/pagination.rs:139-142 | over a table where nothing older than the cursor then held comes or goes between requests, the client's loop terminates with every row it set out to read exactly when no page boundary splits a tie, and so whenever the times are distinct |
| Pagination.FetchAllWhileGrowing | crates/api/pagination.rs:12-16 | the same stated for arbitrary insertions between requests |
| Signing.ParseHeader | crates/crypto/src/signing.rs:107-127 | the overwriting loop reads the last `t`, which must be a number, and the last `v1`, and otherwise reports a malformed header |
| Signing.ParseShow | crates/crypto/src/signing.rs:59-62 | printing and parsing any 64-bit timestamp is the identity |
| Signing.BuiltHeaderReadsBack | crates/crypto/src/signing.rs:58-62 | a built header reads back as its timestamp and signature |
| Signing.HeaderOnTheWire | crates/crypto/src/signing.rs:47-62 | the header carries the timestamp and, in lower-case hexadecimal, the keyed hash of timestamp, dot and payload |
| Signing.UnknownFieldsAreIgnored | crates/crypto/src/signing.rs:111-121 | appending an unknown field changes nothing |
| Signing.AcceptedHeaders | crates/crypto/src/signing.rs:74-104 | accepted exactly with the computed signature, in either letter case, and a timestamp within tolerance |
| Signing.RefusedHeaders | crates/crypto/src/signing.rs:74-104 | a refused header is unreadable, too far from now, or not the hash of timestamp, dot and payload, and the error says which |
| Signing.Verify | crates/crypto/src/signing.rs:74-104 | parses, checks the drift, decodes and compares in the order of the source, with its errors |
| Signing.BuiltHeaderVerifies | crates/crypto/src/signing.rs:58-104 | what was built verifies at every moment within tolerance |
| Signing.SignedMessageIsUnambiguous | crates/crypto/src/signing.rs:47-55 | the signed bytes determine timestamp and payload |

## Left out

- SQL text, sqlx, HTTP routing, JSON payloads, tracing, error envelopes: tables are maps and sequences that keep the row CHECKs, unique keys and row locks.
- UUIDs: an identifier is the number of its request and a position; request numbers are never reused, which stands for uniqueness.
- Cryptographic primitives: the keyed hash is a parameter; encryption, API key hashing and card fingerprints do not occur.
- Order notes beyond their number, card brands, attempt latency and error descriptions: stored and returned, never decided on.
- Services.CreateOrderFor: the receipt's limit counts characters here and UTF-8 bytes in the code.
- Disputes, settlements, risk-review resolution and order expiry: their jobs are enqueued here, nothing more is written in the repository.
- Reference types and ids on ledger transactions, and platform account seeding: the four accounts of each currency exist.
- The refund reason's limit counts characters here and UTF-8 bytes in the code.
- The balance query's cast to 64 bits and the plain 64-bit sum in `total_credited`: sums are unbounded integers.
- Foreign-key share locks: taken only on rows the transaction has itself locked, or that nothing here locks.
- Lock waits that end in an error, deadlock detection and statement timeouts: an abort at any point covers them.
- Idempotency.AtMostOnceIffTimelyAndTidy: takes the clock as monotone and a dropped request as executing no further statement; a `complete` or `release` that fails is a request that dies before it.
- KeyStore.Store.Guarded: a recorded body is kept as it is, which is exact for JSON answers; the code stores null for a body that does not parse as JSON.
- Idempotency keys on requests without the header, and request fingerprints: a hash stands for the request.
- JobQueue.LeaseSafeIffBatchFits: a batch is bounded as a whole, set-up time plus the bound per job times the number claimed, on one clock shared by all workers.
- DeliveryMirror.DeliveryRowMirrorsItsJob: leaves out delivery jobs whose payload or rows are missing, which die without touching the delivery row, and failures to record an attempt.
- AuthCaching.CachedAnswersAreRecent: scopes travel inside the resolved value; lookups that fail or time out store nothing and are no step.
- Pagination: RFC 3339 printing and parsing of cursors; a time that cannot be printed would end the crawl early. The default page size is used unvalidated, as in the code.
- Signing.AcceptedHeaders: uses wrapping arithmetic for the drift, as an optimised build does; a debug build would panic at those distances. Timing of the comparison is not modelled.
- Cards.LuhnValid: the 32-bit sum cannot overflow for card-length numbers and is unbounded here.
- Services: rows read under a lock become fresh objects; the pool, clocks and endpoint list are arguments.
