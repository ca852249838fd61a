# StockRush ledger: a Dafny model

StockRush sells limited stock in flash sales. Its correctness boundary is a set of PostgreSQL transactions
(`internal/store`) that any number of API clients and expiry workers run at once over shared rows. The stock
counters and the sale's remaining allocation are cached sums over the reservation table, kept in step by
conditional updates spread over several files. This project models those transactions and proves what they
keep, whatever the interleaving. The token bucket limiter and the public demo budget are modelled beside them.

The model has three layers.

- **Tables and effects.** `Tables`, `Journal` and `Ledger` hold the rows, the event log and the effect of each
  committed transaction, together with one invariant `Inv` over all tables. `LedgerProofs` shows that every effect
  keeps it.
- **Statements, locks and interleavings.** `Statements` and `Scripts` list the SQL statements of each transaction
  and show what the list amounts to when it runs alone. `Locking` models READ COMMITTED row versions and row locks.
  `Machine` lets any number of transactions advance one statement at a time, wait, read stale values and abort
  anywhere; a conditional UPDATE that matches no committed row misses without waiting. `MachineProofs` carries the
  rely/guarantee argument; `Safety`, `Limits`, `ExactlyOnce`, `PaymentsOnce`, `Checks`, `Demo`, `Rush`, `Progress` and
  `Allocation` the promises over whole runs.
- **Operations.** `StoreClass.Store` is the store as a class whose methods follow the source's statement order, one
  call at a time, with a rollback on every early return and a commit on every stored refusal. `Operations` and
  `Expiry` hold the functions those methods are proved against and what follows from them; `Answers` says column by
  column what each request is answered and leaves behind; `Alone` shows that the interleaved machine reaches the
  same tables and answers.

`RateLimit`, `RateService`, `PublicBudget`, `BudgetReference` and `PublicCalls` are independent of the tables.

Results that correct a first impression of the code:

- The second sold-out branch of Reserve commits a sale decrement with no reservation behind it. Allocation is
  conserved only together with these lost units. `AllocationExactlyWhen` gives the exact condition for one call and
  `NothingIsLostExactlyWhen` for all runs: the remaining allocations of a product's sales must be within its stock,
  which CreateSale does not check. `DemoRunsAreExact` shows that demo runs never get there.
- The limiter's bound holds exactly when `burst <= 600 * perSec`, which the configuration does not enforce
  (`internal/config/config.go:87-92`): beyond that, evicting idle clients refills a bucket early.
- The public budget is a true sliding window exactly when the limit is one or no transaction waits longer than a day
  less a minute for the advisory lock.
- A public call is two transactions, and other calls may purge between them. Every public reservation has its own
  budget admission exactly when no time passes in between (`AdmittedExactlyWhen`); `RepeatAfterPurge` is the witness,
  and `OnlyLateOnesAreUnadmitted` bounds the excess for all histories.
- TransitionReservation accepts paid and expired as targets, which no HTTP handler passes
  (`internal/httpserver/router.go:201-206`); such a call would move the state without the stock and break the ledger.
- `Restored` in the expiry report counts rows; it is the number of units exactly when all quantities are one.
- `docs/architecture.md:47` draws the payment_failed edge from confirmed only; the code takes it from pending too,
  and the model follows the code. An order unknown to SimulatePayment fails the payment row's foreign key before the
  lookup that would report it as missing.

`dafny verify dfyconfig.toml` checks the whole project.

## Model

| member | source | states |
|---|---|---|
| Fingerprint.SameReservationRequest | internal/store/reservation.go:142-185 | Equal user and equal fingerprint text hold if and only if sale, user and quantity are equal, for all strings, NUL characters included |
| Fingerprint.FingerprintAloneIsAmbiguous | internal/store/reservation.go:182-185 | Without the user comparison two different requests share a fingerprint text |
| Fingerprint.SamePaymentRequest | internal/store/payment.go:33-57 | The payment fingerprint texts are equal if and only if order and outcome are |
| Journal.EachStateEnteredOnce | internal/domain/domain.go:109-116 | In a log that replays, a reservation has entered exactly the states on its path and each of them once; cancelled, expired and paid exclude each other |
| Journal.SwapReplaysExactlyWhen | db/migrations/001_init.sql:93-102 | Two neighbouring events read the other way round give the same counters and states if and only if they belong to different reservations; otherwise the log is not legal |
| Tables.ActiveIsUnreleased | internal/store/reservation.go:80-84 | The quantity sum of Reserve counts every unit of the user in the sale that is neither cancelled nor expired, paid ones included |
| Tables.SaleIsSumOverUsers | internal/store/reservation.go:80-84 | For every reservation table the active units of a sale are the sum over its users of what each of them holds |
| LedgerProofs.OpenKeepsInv | internal/store/reservation.go:88-139 | A committed reservation keeps the whole invariant: ledger sums, allocation, purchase limit, orders, keys, log, payments |
| LedgerProofs.RefuseKeepsInv | internal/store/reservation.go:171-180 | A stored refusal keeps the invariant |
| LedgerProofs.RefuseAndLoseKeepsInv | internal/store/reservation.go:88-103 | The second sold-out branch keeps the invariant, with its units counted as lost |
| LedgerProofs.GuardNeverMisses | internal/store/reservation.go:226-233 | The units of every pending or confirmed reservation are covered by the product's reserved counter |
| LedgerProofs.MoveKeepsInv | internal/store/reservation.go:203-241 | Confirming, cancelling and expiring keep the invariant |
| LedgerProofs.PayKeepsInv | internal/store/payment.go:68-122 | A new payment callback keeps the invariant; an order gets a succeeded payment exactly when its reservation becomes paid, never a second one |
| LedgerProofs.AddProductKeepsInv | internal/store/catalog.go:30-63 | A new product with its stock keeps the invariant and the replay of the log |
| LedgerProofs.EditProductKeepsInv | internal/store/catalog.go:93-121 | Setting the stock level, with expected_total recomputed around reserved and sold units, keeps the ledger |
| LedgerProofs.AddSaleKeepsInv | internal/store/catalog.go:131-151 | A new sale starts conserved, with nothing active and nothing lost |
| LedgerProofs.SetSaleStateKeepsInv | internal/store/catalog.go:177-189 | Changing a sale's state keeps the invariant |
| LedgerProofs.PurgeKeepsInv | internal/store/demo.go:32-34 | Deleting any set of replay rows keeps the invariant |
| Scripts.OpenScriptIsOpen | internal/store/reservation.go:48-139 | If Reserve's statements all hit, the database guards held at the start and the statements add up to one atomic reservation |
| Scripts.RefuseScriptIsRefuse | internal/store/reservation.go:171-180 | Claim and stored refusal add up to one committed refusal of a new key |
| Scripts.LoseScriptIsLose | internal/store/reservation.go:88-103 | Claim, sale decrement and stored refusal add up to a refusal that keeps the units |
| Scripts.MoveScriptIsMove | internal/store/reservation.go:219-236 | The statements of confirm and cancel add up to one lifecycle edge |
| Scripts.PayScriptIsPay | internal/store/payment.go:44-117 | The statements of a payment callback add up to one payment effect for each outcome |
| Scripts.ExpireScriptIsExpireAll | internal/store/expiration.go:24-76 | Marking the whole batch and then restoring row by row equals expiring the reservations one after another, and no statement misses |
| Scripts.ExpireKeepsInv | internal/store/expiration.go:58-76 | A batch keeps the invariant |
| Locking.SerialStep | internal/store/reservation.go:88-97 | A statement executed under its row lock has the effect it would have on any tables with the same locked rows |
| Locking.SerialStable | internal/store/reservation.go:88-97 | Commits of others do not disturb what a transaction has done under its locks |
| Locking.CommitIsSerial | internal/store/reservation.go:136-138 | Publishing at commit equals running all of the transaction's statements at once on the committed tables |
| Locking.PublishKeepsOthers | internal/store/reservation.go:136-138 | A commit leaves every row locked by another transaction as it was |
| MachineProofs.TxnStable | internal/store/reservation.go:59-87 | What an open transaction knows, the stale quantity sum as an upper bound included, survives every commit of others |
| MachineProofs.MoverNeverMisses | internal/store/expiration.go:58-66 | In every interleaving the next statement of confirm, cancel, expire and pay finds its row with enough reserved units |
| MachineProofs.CommitRefines | internal/store/reservation.go:136-180 | However its statements were interleaved, a transaction commits as one atomic effect whose guard holds at commit time |
| MachineProofs.CommitKeepsInv | internal/store/reservation.go:136-180 | Every commit keeps the invariant of the tables |
| MachineProofs.TablesStay | internal/store/reservation.go:42-46 | Until its commit a transaction changes no committed table and, apart from a replay, tells nothing |
| MachineProofs.StepKeepsGood | internal/store/reservation.go:35-140 | Every step of every transaction, aborts, catalog changes and purges included, keeps the invariant of the whole system |
| MachineProofs.RunsKeepGood | internal/store/reservation.go:35-140 | So does every run, of any length and any number of transactions |
| Safety.PurchaseLimitHolds | internal/store/reservation.go:59-87 | In every state of every run the active quantity per sale and user is at most max_quantity_per_user |
| Limits.ToldUnitsStayWithinLimit | internal/store/reservation.go:59-87 | In every state of every run the units of a user's successes in a sale, as callers were told, less those the event log cancels or expires, equal the active quantity and are at most max_quantity_per_user |
| Safety.LedgerAgrees | internal/store/reservation.go:96-97 | In every state of every run reserved and sold are the sums over the reservations, add up with available to expected_total, and none is negative |
| Safety.SaleNeverOversells | internal/store/reservation.go:88-103 | In every state of every run remaining, active and lost units add up to the allocation, so active units never exceed it |
| Safety.LogReplays | internal/store/reservation.go:128-128 | In every state of every run the event log in commit order folds to exactly the counters and reservation states in the tables, and a reservation is restored or sold at most once |
| Safety.OnePaymentEffect | internal/store/payment.go:45-122 | In every state of every run an order has a succeeded payment if and only if its reservation is paid, and never two |
| Safety.ClaimedKeysAreComplete | internal/store/reservation.go:131-180 | Every committed idempotency row has its answer, so IDEMPOTENCY_IN_PROGRESS is unreachable |
| Safety.GuardsNeverMiss | internal/store/payment.go:82-88 | In every run the guarded updates of cancel, expire and pay hit, which makes the unchecked row count of cancel harmless |
| Safety.WorkersAreDisjoint | internal/store/expiration.go:24-33 | Two expiry workers, or a worker and a cancel or payment, never work on the same reservation |
| Safety.ExpiryTakesOnlyDue | internal/store/expiration.go:24-33 | In every run a committing worker changes at most its limit of reservations, each still pending and with expires_at not after the worker's time, and it expires them |
| Safety.PurgeIsExact | internal/store/demo.go:32-34 | A purge forgets exactly the replay rows with expires_at before now |
| Safety.ClosedSaleGainsNothing | internal/store/catalog.go:177-189 | From the moment a sale is not active it gains no reservation until it is activated again, however many Reserve transactions were under way |
| ExactlyOnce.ReserveIsExactlyOnce | internal/store/reservation.go:48-57 | Over every interleaving: between purges the first caller of a key gets the real answer, repeats get the same reservation as duplicate or the same refusal, other requests a conflict; reservations correspond one to one to non-duplicate successes |
| ExactlyOnce.StoryIsToldOnce | internal/store/reservation.go:142-169 | What replayReservation answers from a stored row is determined by the first answer and by whether the request is the same |
| PaymentsOnce.PaymentIsExactlyOnce | internal/store/payment.go:44-63 | Over every interleaving a payment key settles at most once, for the order and outcome asked for; every repeat gets the row in the table, every other order or outcome a conflict |
| PaymentsOnce.CommitPayments | internal/store/payment.go:45-117 | Only a payment callback commits a payment, and only under a key that has none |
| Alone.ReserveAlone | internal/store/reservation.go:35-140 | The two layers agree: from a quiet state the interleaved machine can take one Reserve to exactly the tables and the answer of the operation, for every branch, replay and rollback included |
| Alone.MoveAlone | internal/store/reservation.go:203-241 | The machine can take every legal confirm and cancel to exactly its lifecycle edge |
| Alone.SelectedAlone | internal/store/expiration.go:15-82 | The machine's worker can take exactly the batch ExpireBatch selects, to the same tables |
| Alone.PayAlone | internal/store/payment.go:26-122 | The machine can take every acceptable callback to exactly its payment effect and answer |
| Alone.ProductAlone | internal/store/catalog.go:30-121 | The machine accepts every product change the database does, and writes exactly its columns |
| Alone.SaleAlone | internal/store/catalog.go:131-189 | The same for new sales and sale states |
| Alone.PayReplayAlone | internal/store/payment.go:48-63 | The machine can answer a repeated payment key from the stored row |
| Alone.PlanRuns | internal/store/reservation.go:88-139 | With nobody else about, a plan none of whose statements misses is carried out, committed and answered |
| Allocation.BackedSalesLoseNothing | internal/store/reservation.go:88-103 | In every run without restocking or further sales of a product, if the remaining allocations of its sales are within its available stock at the start, they stay so and no unit is ever lost |
| Allocation.UnbackedSalesCanLose | internal/store/reservation.go:96-103 | Otherwise, with the sales open, some run of Reserve calls alone loses a unit |
| Allocation.NothingIsLostExactlyWhen | internal/store/catalog.go:131-151 | For open sales of a product, no interleaving ever loses a unit if and only if their remaining allocations together are within the available stock |
| Allocation.UnitsCanBeLost | internal/store/catalog.go:131-151 | A sale larger than its product's stock, which CreateSale permits, has such a losing run of the machine |
| Checks.CleanExactlyWhen | internal/store/invariants.go:11-46 | The report is empty if and only if all seven counts are zero |
| Checks.ReportedExactlyWhen | internal/store/invariants.go:11-46 | A violation is reported if and only if its query counts that many rows and at least one |
| Checks.BadStockIsCounted | internal/store/invariants.go:13-17 | The three counter queries count something if and only if some row's columns do not add up or are negative |
| Checks.OverLimitIsCounted | internal/store/invariants.go:19-23 | The limit query counts something if and only if some user's units not given back exceed the sale's limit |
| Checks.BadOrderIsCounted | internal/store/invariants.go:25-31 | The order and payment queries count something if and only if some order is orphaned, some order of a paid, cancelled or expired reservation differs from it, or some succeeded payment belongs to an expired reservation |
| Checks.InvIsClean | internal/store/invariants.go:11-32 | The invariant implies all seven checks |
| Checks.ChecksStayClean | internal/store/invariants.go:10-46 | CheckInvariants returns the empty list in every state of every run |
| Demo.DemoTablesHaveInv | internal/store/demo.go:75-109 | The tables left by ResetDemo satisfy the invariant with nothing lost |
| Demo.StockNeverMisses | internal/store/reservation.go:96-103 | In a demo run the inventory update always hits after the sale update did: the second sold-out branch is unreachable |
| Demo.DemoRunsStayLevel | internal/store/demo.go:95-109 | Every demo run keeps the remaining allocation equal to the available stock and loses nothing |
| Demo.OrdersCountReservations | internal/store/demo.go:138-146 | There are as many orders as reservations and no duplicate order |
| Demo.DuplicatesAreFound | internal/store/demo.go:144-146 | The duplicate query finds something if and only if two orders share a reservation |
| Demo.PassesExactlyWhen | internal/store/demo.go:147-147 | On tables that satisfy the invariant InvariantPass is true if and only if the sale's allocation is the product's expected total and its remaining stock the available one |
| Demo.PassMeans | internal/store/demo.go:147-147 | On any tables InvariantPass is true if and only if no counter is negative, orders match reservations one to one, and both sums are the allocation |
| Demo.RestockBreaksPass | internal/store/demo.go:147-147 | In a demo InvariantPass turns false exactly with a restock that changes the available level |
| Demo.DemoRunsAreExact | internal/store/demo.go:124-148 | InvariantPass is true in every state of every run from ResetDemo |
| Rush.ExactlyTheStockIsSold | README.md:5-5 | After ResetDemo(S), N distinct buyers interleaved in any way get exactly min(N, S) reservations and N - min(N, S) sold-out answers |
| Rush.RushKeeps | internal/store/reservation.go:80-103 | Every step of a rush keeps remaining + successes = S, and a sold-out answer is only given at remaining 0 |
| Progress.LeaderGoesOn | internal/store/reservation.go:88-97 | The buyer nobody blocks on the sale and inventory rows always has an enabled step, which brings it closer to its commit |
| Progress.EveryRushCanFinish | README.md:5-5 | Every rush, wherever it has got to, extends without aborts and new buyers to one in which all are answered and exactly min(N, S) hold a reservation |
| RateLimit.Limiter.RemoveIdle | internal/ratelimit/limiter.go:52-58 | Exactly the buckets last used before the given time are gone |
| RateLimit.Limiter.Allow | internal/ratelimit/limiter.go:27-50 | Allowed if and only if there is room for the client and a whole token; the buckets change as in the specification the bounds are proved of |
| RateLimit.RoomKeepsCredit | internal/ratelimit/limiter.go:32-37 | Under burst <= 600 * perSec eviction changes no client's credit |
| RateLimit.AllowedExactlyWhen | internal/ratelimit/limiter.go:27-50 | A call is allowed if and only if its client has or finds a place in the map and at least one token |
| RateLimit.DecideSpends | internal/ratelimit/limiter.go:27-50 | An allowed call costs its own client one unit of credit and nobody else anything |
| RateLimit.RateIsBounded | internal/ratelimit/limiter.go:27-58 | Over every history, one client's allowed calls in [t1, t2] are at most burst + perSec * (t2 - t1) |
| RateLimit.EvictionRefillsEarly | internal/ratelimit/limiter.go:32-37 | With burst > 600 * perSec there is a history that breaks the bound |
| RateLimit.BoundHoldsExactlyWhen | internal/config/config.go:87-92 | The bound holds for all histories if and only if burst <= 600 * perSec |
| RateService.CreditIsBank | internal/ratelimit/limiter.go:41-49 | With no more clients than the map holds, each bucket carries exactly the tokens of a reference that knows the calls alone |
| RateService.ReferenceDecides | internal/ratelimit/limiter.go:27-50 | Such a call is allowed if and only if that reference has a whole token for its client |
| RateService.KeepingToTheRateIsServed | internal/ratelimit/limiter.go:27-50 | With no more clients than the map holds and burst at least one, a client whose calls are at least 1/perSec apart is never refused |
| PublicBudget.ActionTable.Admit | internal/store/demo.go:15-53 | A key of the last 24 hours is repeated for free, any other is admitted if and only if fewer than maxPerMinute actions are younger than a minute; both purges happen, and a refusal rolls them back |
| PublicBudget.WindowInvariant | internal/store/demo.go:29-50 | With lock waits up to a day less a minute every half-open minute of created_at values holds at most maxPerMinute admissions, in whatever order the lock was taken |
| PublicBudget.LimitOfOne | internal/store/demo.go:29-50 | With a limit of one that holds for any waits |
| PublicBudget.LateComerIsAdmitted | internal/store/demo.go:32-50 | A longer wait admits one action too many after a purge |
| PublicBudget.SlidingWindowExactlyWhen | internal/store/demo.go:29-50 | The budget is a sliding window for all histories if and only if the limit is one or no wait exceeds a day less a minute |
| PublicBudget.RepeatsAreFree | internal/store/demo.go:35-50 | A repeat of a stored key is never refused, adds no row and counts in no window |
| BudgetReference.RefusedOnlyWhenUsedUp | internal/store/demo.go:41-46 | Over every history, whatever the waits, a visit is refused only if at least max earlier visits were admitted that started within the minute before it |
| BudgetReference.VerdictsAreTheReference | internal/store/demo.go:29-50 | While the lock is taken in starting order, every verdict is that of a reference on the visits alone: repeat within a day, otherwise admitted if and only if fewer than max admissions lie in the last minute |
| PublicCalls.PurgesAreCoupled | internal/store/demo.go:32-34 | A purge that removes a key's replay row leaves no action row, of any key, admitted before that replay row was written |
| PublicCalls.OnlyLateOnesAreUnadmitted | internal/store/demo.go:24-63 | However calls interleave and however long they take, reservations of a key exceed its admissions at most by those that came after the purge of its action row |
| PublicCalls.RepeatAfterPurge | internal/store/demo.go:32-63 | For every limit and every positive gap between the two transactions of a call there is a history in which one admission leads to two reservations |
| PublicCalls.AdmittedExactlyWhen | internal/store/demo.go:24-63 | Over all interleaved histories every new public reservation has its own admission if and only if no time passes between a call's budget transaction and its Reserve |
| PublicCalls.EachReservationIsAdmitted | internal/store/demo.go:32-63 | For calls that do not overlap every new public reservation has its own admission, however long the calls take |
| Operations.ReserveKeepsInv | internal/store/reservation.go:35-140 | Reserve alone keeps the invariant for every request |
| Answers.InvalidExactly | internal/store/reservation.go:36-40 | Exactly the requests with an empty or too long user or key, no sale, or a quantity outside 1..100 are invalid, and they change nothing |
| Answers.ReserveAnswersExactly | internal/store/reservation.go:62-104 | For a new key each refusal is given if and only if its condition on the columns is the first to fail, and a reservation is created if and only if none fails |
| Answers.CreatedWrites | internal/store/reservation.go:88-135 | Every column written by a success: both counters, reservation, order with price times quantity, key with its answer and expiry, event |
| Answers.RefusedWrites | internal/store/reservation.go:171-180 | A refusal writes its key row and nothing else, except the sale's units on the second sold-out branch |
| Answers.WrapIsInt64 | internal/store/reservation.go:125-125 | The order amount is exact where it fits in 64 bits and otherwise off by a multiple of 2^64 |
| Answers.TrimIsExact | internal/store/reservation.go:36-37 | Trimming removes white space from both ends and leaves none there |
| Answers.DemoSaleIsOpen | internal/store/demo.go:95-109 | Right after ResetDemo a request gets a reservation if and only if it asks for one unit from a minute before the reset until a year after it |
| Operations.ReserveReplays | internal/store/reservation.go:142-180 | After an answered request a repeat gets the same answer and changes nothing; another user, sale or quantity under the key gets a conflict and changes nothing |
| Operations.LostAfterHandle | internal/store/reservation.go:96-103 | A call loses units exactly when it reaches the second sold-out branch, and then exactly its quantity |
| Operations.AllocationExactlyWhen | internal/store/reservation.go:88-103 | remaining_stock plus active quantity equals allocated_stock after Reserve if and only if the request did not pass the sale update and then find the stock short |
| Operations.PaymentsKeepInv | internal/store/payment.go:26-122 | SimulatePayment alone keeps the invariant for every request |
| Answers.PayInvalidExactly | internal/store/payment.go:27-32 | A callback is invalid if and only if order or key is blank or the outcome is not successful, failed or delayed after trimming and lower-casing; whatever is not settled changes nothing |
| Answers.LowerIsExact | internal/store/payment.go:28-28 | Lower-casing turns every capital into its small letter and leaves the rest |
| Answers.KnownKeyAnswers | internal/store/payment.go:48-63 | A known key is answered with its payment if and only if the stored order and outcome are the ones sent, otherwise with a conflict |
| Answers.UnknownOrderFails | internal/store/payment.go:44-66 | A new key for an order that does not exist is an internal error and changes nothing |
| Answers.SuccessfulPays | internal/store/payment.go:77-98 | The text "successful" takes a confirmed reservation and its order to paid and its units from reserved to sold; in any other state it is refused |
| Answers.FailedMarksOrder | internal/store/payment.go:99-107 | The text "failed" marks the order of a pending or confirmed reservation and leaves reservation and stock alone; in any other state it is refused |
| Answers.DelayedWaits | internal/store/payment.go:76-117 | The text "delayed" adds a waiting payment and its event in every state |
| Operations.PaymentsReplay | internal/store/payment.go:48-63 | After a settled payment a repeat gets the same payment, any other order or outcome under the key a conflict, and neither changes anything |
| Expiry.SelectedTakesDue | internal/store/expiration.go:24-33 | The rows a batch changes were pending with expires_at not after its time, come earliest first and expire; every other row stays, and an unfilled batch leaves no due row |
| Expiry.BatchGivesBack | internal/store/expiration.go:58-76 | Per product and per sale exactly the units of the rows taken go back, their orders expire, and no other column changes |
| Expiry.BatchShrinksDue | internal/store/expiration.go:24-33 | A batch takes exactly min(limit, due) rows off the due ones |
| Expiry.RoundsDrain | internal/store/expiration.go:15-82 | With nothing else running, after k batches max(0, n - k * limit) rows are due, so ceil(n / limit) batches drain all |
| Expiry.BatchRestoresUnits | internal/store/expiration.go:58-66 | A batch moves exactly the expired units of each product from reserved to available |
| Expiry.RestoredIsUnitsExactlyWhen | internal/store/expiration.go:80-81 | The reported Restored equals the units given back if and only if all quantities are one |
| StoreClass.Store.SumQuantity | internal/store/reservation.go:80-84 | The loop adds up exactly the quantities the filter selects |
| StoreClass.Store.ScreenRequest | internal/store/reservation.go:62-87 | The reads lead to the first applicable refusal, or to none |
| StoreClass.Store.Take | internal/store/reservation.go:88-140 | Both decrements and the inserts commit, the first miss commits a refusal, the second a refusal that keeps the units, a failed insert rolls everything back |
| StoreClass.Store.Reserve | internal/store/reservation.go:35-140 | The class refines the Reserve function on the tables and keeps the invariant |
| StoreClass.Store.TransitionReservation | internal/store/reservation.go:203-241 | Which edges are taken, and every column afterwards; cancelling returns the units to stock and sale; the ledger survives if and only if the call did not move a reservation to paid or expired |
| StoreClass.Store.SelectDue | internal/store/expiration.go:24-33 | The batch is due, distinct, earliest first, no later than what it leaves, and as large as the limit allows |
| StoreClass.Store.ExpireBatch | internal/store/expiration.go:15-82 | On the columns: only pending rows with expires_at not after `at` change, earliest first, all of them if the batch is not full; their units go back per product and sale; the guard never fails; a bad batch size changes nothing |
| StoreClass.Store.Settle | internal/store/payment.go:76-117 | An accepted callback is exactly one payment effect; the reconciliation guard never fails |
| StoreClass.Store.SimulatePayment | internal/store/payment.go:26-122 | The class refines the payment function, keeps the invariant, and everything but a settled payment leaves all tables unchanged |
| StoreClass.Store.CreateProduct | internal/store/catalog.go:30-63 | Which inputs are invalid, which fail in the database, and the product and inventory rows of a success |
| StoreClass.Store.UpdateProduct | internal/store/catalog.go:93-121 | Which edits are invalid, unknown or fail in the database; given fields are set and the others kept, and a new level recomputes the expected total around reserved and sold units |
| StoreClass.Store.CreateSale | internal/store/catalog.go:131-151 | Which inputs are invalid or fail in the database, and the new row, scheduled or draft by its start, whatever the product's stock |
| StoreClass.Store.ChangeSaleState | internal/store/catalog.go:177-189 | Unsupported states and unknown sales change nothing; otherwise the state is the one asked for and nothing else changes |
| StoreClass.Store.ResetDemo | internal/store/demo.go:75-111 | Leaves exactly one product with its stock and one active sale open from a minute ago for a year, or refuses and changes nothing |
| StoreClass.Store.CountExcessive | internal/store/invariants.go:19-23 | Counts exactly the groups over their limit |
| StoreClass.Store.CheckInvariants | internal/store/invariants.go:10-46 | Reports exactly the positive counts in order, and nothing in a valid store |

## Left out

- HTTP routing, authentication, JSON, metrics, configuration loading, migrations, command-line tools and the web frontend.
- List and get queries, which only project rows; names, descriptions and created_at/updated_at columns are not stored in the model.
- Deadlock detection, timeouts and retries: an abort may happen at any step, and progress is claimed only for a rush of Reserve transactions.
- SHA-256 is taken as collision free, generated ids as new, and a sale id as having one spelling; malformed UUID text, which the database rejects, is not modelled.
- Text lengths count characters, not bytes; trimming covers ASCII white space, U+0085 and U+00A0; case folding is ASCII only.
- The limiter and the budget use real numbers for floating point and timestamps; the limiter's clock does not go backwards.
- ResetDemo as a step of interleaved runs: its TRUNCATE excludes all other transactions, so it appears as a starting state and as a method of the class.
- UpdateProduct and the purge of replay rows are single steps of the interleaved machine.
- The interleaved expiry worker may pick any unlocked due rows up to its limit, which includes the ones ORDER BY picks; the order itself is stated for `StoreClass.Store.SelectDue`.
- A refused payment call is, in the interleaved machine, a transaction that aborts; its answer is stated in `StoreClass.Store.SimulatePayment`.
- StockSet and UnitsLost entries of the journal are history that the program does not store in domain_events; event metadata is reduced to the quantity.
- DemoStatus reads several queries; InvariantPass is evaluated on one snapshot.
- ReservePublicDemo's choice of the active FLASH-100 sale: the reservation behind an admission is an outcome of the call in `PublicCalls`.
- Safety.LogReplays: the log is read in commit order, because domain_events has only `created_at`, the start of the writing transaction, to sort by; sorted that way a payment that began before a confirmation and locked after it comes first, and by `Journal.SwapReplaysExactlyWhen` such a pair of events of one reservation does not replay, while swapping events of different reservations changes nothing.
- Safety.LogReplays: the product of a reservation.created event is taken from the reservation row, because the event itself stores no product id.
- Journal.SwapReplaysExactlyWhen: leaves out the stock levels set by the catalog, which domain_events does not record.
- PublicCalls.AdmittedExactlyWhen: the budget transaction has one time, its start, as in the other results on replay rows; waiting for the advisory lock is treated in `PublicBudget.SlidingWindowExactlyWhen`.
- Allocation.UnbackedSalesCanLose: assumes fewer than 10^100 stored keys and reservations, because each losing buyer needs a user and a key of its own within the length limits of a request.
