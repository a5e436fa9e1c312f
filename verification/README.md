# Order platform: verified reservation protocol

This project models the order and inventory core of the order platform in Dafny and proves its three
promises (no overselling, no duplicate orders, no inconsistent inventory) for every interleaving of any
number of transactions. Check everything with `dafny verify dfyconfig.toml`.

## How the model is built

- **Domain kernel** (`Values`, `Sums`, `Merging`, `Moves`, `Domain`, `Reservation`, `Outstanding`).
  `InventoryItem`, `Order` and `OrderReservationService` are classes that change their fields in place, as the
  source does. Reserving and releasing an order are specified without loops: `FaultOf` says, with prefix sums of
  line quantities, why a line cannot be moved; `Verdict` is the first such fault; `After` is every row shifted by
  its product's summed demand. `Move` is `Reserve` or `Release`, so each fact is stated once for both.
- **Atomic meaning** (`Serial`, `Money`, `History`). `Db` holds the committed stock rows, orders and idempotency
  rows. `CreateOrder`, `CancelOrder` and `AdjustStock` say what one transaction does when run alone and at once;
  `Replay` runs a list of them one after the other. `LeftBy` is `Replay`, except that a second cancellation of one
  order still sees it as PENDING, which is what a rival that read it earlier does; `History` proves what every such
  history satisfies, and that `LeftBy` is `Replay` exactly when no order is cancelled twice.
- **Requests** (`Requests`). What creating and cancelling an order mean, told once more from the request, the
  catalog's own fields and the rows alone: `UnitsWanted` and `CostOf` recurse over the items, and `CreationOk` and
  `CancellationOk` give every outcome with its exact condition. The atomic specification is proved to be that.
- **Protocol** (`Protocol`, `Refinement`, `Completeness`, `Guarantees`). Any number of transactions run
  statement by statement on one committed database: creations (key lookup, product check, row locks taken one at
  a time in any order, reserve, order insert, one versioned UPDATE per row, key insert, commit), cancellations
  (unlocked order read, row locks, release, save, commit), and adjusting transactions that read rows with or
  without a lock, as often as they like, call `reserve`/`release` on them, save them and rely on the version check.
  Row locks last until commit or rollback, private writes are invisible to others, a locking read, a versioned
  UPDATE and a key insert wait for another holder, and a versioned UPDATE compares with the latest committed
  version: the Read Committed level of PostgreSQL 16 (sections 13.2.1 and 13.3.2 of its manual). Any transaction
  may give up at any point. Nothing is assumed of a run. The main theorem is `Refinement.Serialisable`: the
  committed database equals `Replay` of the committed transactions in commit order if and only if no order was
  cancelled twice. `Refinement.HistoryExplains` holds always, and the other guarantees are read off it. `Completeness`
  is the converse: every atomic transaction, with its exact outcome, can be run statement by statement once no one
  else holds its rows or is about to store its key, so the histories without a repeated cancellation are exactly the
  serial ones (`Completeness.HistoriesAreSerial`).
- **Witnesses** (`RivalCancels`, `KeyRaces`). Two concrete runs that show what the code does not promise.
- **Use cases** (`UseCases`). The use cases and repositories run imperatively on a `Session`. Other transactions
  commit stock, orders and keys before the locking read and between it and the writes; a session on a database that
  honours row locks keeps its locked rows from them. Each run is tied to the same atomic `CreateOrder` and
  `CancelOrder` that the protocol refines.
- **Order tables** (`OrderTables`). The order repository over its two tables, and its loading and saving.
- **Jobs** (`Jobs`, `JobStories`). The worker as a method that records every job table it commits, and the asynchronous protocol
  (submit, dispatch, repeated delivery, crash, completion, failure) running over the transaction protocol with any
  other clients beside it. `JobStories` reads off the events what each job ordered and which error it records, and
  shows that every job can run to its end.

Identifiers are natural numbers that are only compared, a new order's id is fresh, money is a number of cents, and
the product table does not change during a run.

## Results about the code worth knowing

- A cancellation reads the order's status without a lock. Two cancellations of one order that both read it before
  either commits release its units twice; `RivalCancels.RivalsReleaseTwice` is such a run. This is the only way in
  which a run is not serialisable: a commit is one atomic transaction on the database of that moment unless it
  cancels an order that is no longer PENDING (`Guarantees.OnlyCommitsWrite`), and the whole run is serialisable if
  and only if no order was cancelled twice (`Refinement.Serialisable`). Callers ensure that by not letting two
  cancellations of one order overlap once they have read it (`Refinement.CalmRunsAreSerialisable`). No oversell,
  the stock ledger, at most one order per key and everything about creations and jobs hold in all runs.
- A duplicate request that missed the key lookup can be refused for stock although its key's order has just been
  committed: `KeyRaces.DuplicateRefused` is such a run, and `Guarantees.RefusalIsAtomicIffKeyStillFree` says
  exactly when it happens.
- The rollback of a failed reservation can itself raise, and then leaves units reserved, if a product it undoes
  started with a negative `reserved`, and only then (`Reservation.OrderReservationService.Undo`,
  `Reservation.RollbackCanFail`). The protocol never produces such a row (`Guarantees.NoOversell`).
- Merging the lines of one product hides a line whose own quantity is not positive, and changes the verdict in no
  other case (`Moves.LineSplittingIrrelevant`).
- `OrderRepository.save` never rewrites the customer of an existing row, so loading after saving gives the saved
  customer back if and only if the order was new or the stored customer was already the same
  (`OrderTables.OrderRepository.SaveThenGet`).
- The version check never fires on the creation and cancellation paths, because the rows are locked first
  (`Guarantees.LocksMakeVersionsRedundant`, `UseCases.CreateOrderUseCase.Execute`).

## Model

| member | source | states |
|---|---|---|
| Domain.InventoryItem.Reserve | app/domain/models.py:34-41 | takes a positive amount that is available, else raises the right error with the stock left and changes nothing |
| Domain.InventoryItem.Release | app/domain/models.py:43-48 | gives back a positive amount that is reserved, else raises and changes nothing |
| Domain.MoveThenBack | app/domain/models.py:30-48 | a call succeeds exactly for amounts between 1 and what is available or reserved, keeps 0 <= reserved <= quantity, and its opposite undoes it |
| Domain.Order.TotalAmount | app/domain/models.py:57-73 | the loop computes the sum of price times quantity over the frozen lines |
| Domain.Order.Confirm | app/domain/models.py:75-81 | only a PENDING order becomes CONFIRMED; otherwise an error and no change |
| Domain.Order.Cancel | app/domain/models.py:83-89 | only a PENDING order becomes CANCELLED; otherwise an error and no change |
| Domain.FirstCallDecides | app/domain/models.py:75-89 | over any sequence of confirm and cancel calls only the first one on a PENDING order has an effect |
| Moves.ClearIff | app/domain/services.py:29-42 | an order goes through if and only if all products are known, all quantities positive and no product's summed quantity exceeds its room |
| Moves.AfterIsSound | app/domain/services.py:16-42 | moving a whole order keeps every row within 0 <= reserved <= quantity |
| Moves.ReleaseUndoesReserve | app/domain/services.py:44-56 | after a successful reserve of an order its release restores every row, and never fails if and only if no product of the order started with a negative `reserved` |
| Moves.LineOrderIrrelevant | app/domain/services.py:31-42 | permuting lines changes neither verdict, final rows nor total |
| Moves.LineSplittingIrrelevant | app/domain/services.py:31-42 | merging the lines of each product never changes the final rows, nor the total when each product has one price; an order goes through if and only if its merged form does and every single line is positive |
| Merging.MergedKeepsSums | app/domain/models.py:71-73 | merging leaves one line per product, with every product's demand unchanged, and the total too when each product has one price |
| Reservation.OrderReservationService.Reserve | app/domain/services.py:16-42 | succeeds exactly when no line is faulty and then shifts every shared item by its summed demand; a shortage names the first line whose prefix sum exceeds stock and is undone, other errors leave the earlier lines reserved; all outcomes are stated for all inputs |
| Reservation.OrderReservationService.Undo | app/domain/services.py:38-42 | no release of the rollback loop fails, and all items, aliased or not, get their original rows back, if and only if the undone products started at zero or more; else which error is raised and which rows are left |
| Reservation.OrderReservationService.Refuse | app/domain/services.py:38-42 | a shortage restores all items and is raised again, unless the rollback raises; any other error leaves the earlier lines reserved |
| Reservation.RollbackCanFail | app/domain/services.py:38-42 | an input on which the rollback raises: the caller sees its error instead of the shortage and the units stay reserved |
| Reservation.ShortageChangesNothing | app/domain/services.py:35-42 | for products that start at zero or more the error is the first fault, and a shortage leaves every item as it was |
| Reservation.OrderReservationService.Release | app/domain/services.py:44-56 | releases the lines before the first faulty one and reports that fault |
| Outstanding.ReleaseThroughInterference | app/domain/services.py:16-56 | after any sequence of other reserves and releases an outstanding order can release, removing exactly its own units |
| Outstanding.CanTake | app/domain/services.py:16-42 | beside any outstanding orders another one can reserve if and only if its units fit with all that is owed |
| Money.ParsePrinted | app/use_cases/create_order.py:104-109 | parsing the printed total gives the total back, for every two-decimal amount |
| Money.PrintedShape | app/use_cases/create_order.py:172 | the printed total ends in a point and two decimal digits, has a sign below zero and no leading zero |
| Serial.AtomicKeeps | app/use_cases/create_order.py:89-178 | every atomic transaction keeps all rows sound and every stored key truthful, and only extends what was committed |
| Serial.HistoryKeeps | app/use_cases/create_order.py:89-178 | so does every history, repeated cancellations included; quantities and committed lines never change and versions never fall |
| Serial.CancelAgain | app/use_cases/cancel_order.py:46-67 | cancelling a cancelled order once more, as a rival that read it earlier does, releases its lines again and changes nothing else |
| Requests.CreateOrderMeans | app/use_cases/create_order.py:89-178 | the atomic creation, in every case with its exact condition, from the request, the catalog and the rows: empty, replayed, product not on sale, first item that does not fit and why, or created with the items' units, prices, cost, customer and key row |
| Requests.CancelOrderMeans | app/use_cases/cancel_order.py:46-67 | the atomic cancellation, in every case with its exact condition, from the order and the rows: unknown, not PENDING, first line that cannot be released and why, or CANCELLED with exactly its units released |
| History.AtomicRow | app/repositories/inventory_repository.py:83-104 | one transaction changes a row by the successful domain calls of each of its saves and one version per save, or not at all |
| History.AppliedIff | app/domain/models.py:34-48 | a sequence of calls on one row succeeds if and only if each asks for what is left at its turn |
| History.LedgerHolds | app/repositories/inventory_repository.py:83-104 | in every history each row is the fold of the calls of its saves, its version counts the saves, and its reservation is the base plus all net effects |
| History.NewOrdersAreAll | app/repositories/order_repository.py:73-82 | the orders created in a run are new, pairwise different, and with the base orders all there are |
| History.KeysUsedOnce | app/infrastructure/models.py:115 | two committed creations never carry the same key |
| History.KeysOwned | app/use_cases/create_order.py:165-176 | a committed keyed creation's key was not in the base and names its order |
| History.StatusesExplained | app/use_cases/cancel_order.py:46-67 | each order's status is explained by the base and the history: only a PENDING order was ever cancelled, and it stays CANCELLED |
| History.SerialIffNoCancelTwice | app/use_cases/cancel_order.py:46-67 | a history is a serial run of its transactions if and only if it cancels no order twice |
| History.NothingToCancel | app/domain/models.py:83-89 | from a base without PENDING orders no cancellation ever commits and no PENDING order ever appears |
| Refinement.StatementOk | app/use_cases/create_order.py:89-178 | every statement of a transaction keeps its invariant: locked rows are as read, private rows are the read rows moved as a whole |
| Refinement.CreateIsAtomic | app/use_cases/create_order.py:120-178 | committing a creation is the atomic creation on the database of that moment, with that result |
| Refinement.CancelIsAtomic | app/use_cases/cancel_order.py:46-67 | committing a cancellation is the atomic cancellation of the order as it was read, and the atomic cancellation on the database of that moment if and only if the order is still PENDING |
| Refinement.AdjustIsAtomic | app/repositories/inventory_repository.py:43-57 | committing a transaction that relied on the version check is its saves, in turn, applied atomically to the current rows |
| Refinement.OtherAfterCommit | app/repositories/inventory_repository.py:59-71 | a commit by one transaction leaves the invariant of every other transaction intact, another cancellation of the same order included |
| Refinement.StepKeeps | app/api/dependencies.py:16-27 | every step of any transaction, including rollback, keeps the global invariant |
| Refinement.Serialisable | app/api/dependencies.py:16-27 | for all interleavings the committed database is that of the committed transactions run one at a time in commit order, if and only if no order was cancelled by two of them |
| Refinement.HistoryExplains | app/api/dependencies.py:16-27 | with no condition, the committed database is that of the history in which a repeated cancellation sees its order as PENDING |
| Refinement.CalmRunsAreSerialisable | app/repositories/order_repository.py:62-71 | if no two cancellations that have read the same order are under way together, no order is cancelled twice and the run is serialisable |
| Completeness.CreationCanRun | app/use_cases/create_order.py:89-178 | from every reachable state in which no one else holds its rows or is about to store its key, a creation can run to exactly the atomic creation's commit, replay or error, leaving everyone else as they were |
| Completeness.CancellationCanRun | app/use_cases/cancel_order.py:46-67 | so can every cancellation, to exactly the atomic cancellation's commit or error |
| Completeness.AdjustmentCanRun | app/repositories/inventory_repository.py:43-57 | so can every sequence of lock-free saves that succeeds atomically, read by read and call by call |
| Completeness.HistoriesAreSerial | app/api/dependencies.py:16-27 | the histories of runs in which no order is cancelled twice are exactly the serial histories, in both directions |
| Guarantees.NoOversell | app/domain/models.py:30-48 | in every reachable state all committed and all private rows keep 0 <= reserved <= quantity with the original quantity |
| Guarantees.RowsAreLedgers | app/repositories/inventory_repository.py:73-104 | with locking and lock-free transactions mixed, each committed row is the fold of the successful calls in commit order, one version per save |
| Guarantees.NoLostReservation | tests/integration/test_concurrency.py:203-255 | in a run of creations reserved equals its start value plus the units that the committed requests asked for, which are the line quantities of exactly the orders committed since |
| Guarantees.OrdersMatchRequests | app/use_cases/create_order.py:112-131 | every committed creation asked only for active products, and its order repeats its items one by one at the catalog's prices, for its customer |
| Guarantees.ResultsMatchRequests | app/use_cases/create_order.py:158-163 | a creation that returned its own order returned its id, the cost of its items and CONFIRMED |
| Guarantees.LookupDecides | app/use_cases/create_order.py:91-109 | in every reachable state the lookup finishes a creation if and only if its key is stored, with the key's order, status and frozen total, holding and writing nothing, as the atomic replay; empty orders abort and all others go on |
| Guarantees.ProductsDecide | app/use_cases/create_order.py:112-131 | the first product missing or inactive aborts a creation and is named; else its order is built as asked |
| Guarantees.OrderReadDecides | app/use_cases/cancel_order.py:46-51 | only a PENDING order goes on, as CANCELLED with its lines; the others abort with their error |
| Guarantees.BookingDecides | app/use_cases/create_order.py:134-137 | booking aborts with the committed stock's own verdict, leaving nothing, or moves every row by the order's units |
| Guarantees.KeyWriteDecides | app/use_cases/create_order.py:165-176 | the loser of a race for a key aborts as a duplicate and leaves nothing; anyone else goes on |
| Guarantees.WaitsForHolders | app/repositories/inventory_repository.py:59-71 | a statement waits if and only if it locks or updates a row that another live transaction holds, or writes a key another live one has written; lock-free reads never wait |
| Guarantees.GivingUpLeavesNothing | app/api/dependencies.py:21-27 | any live transaction may roll back at any moment, which leaves the database, the history and everyone else as they were |
| Guarantees.AtMostOneOrderPerKey | app/use_cases/create_order.py:95-109 | at most one order is committed per non-empty key, and it is the one the key names |
| Guarantees.OrderExistsIffReturned | app/api/dependencies.py:21-27 | an order exists exactly when its own creation returned it; failures and replays leave none |
| Guarantees.OnlyCommitsWrite | app/api/dependencies.py:21-27 | a step changes the committed database only if it is a commit, which extends it, and is one atomic transaction on it if and only if it does not cancel an order that is no longer PENDING |
| Guarantees.LocksMakeVersionsRedundant | app/repositories/inventory_repository.py:59-71 | a locking transaction's snapshot equals the committed row and its versioned update never fails |
| Guarantees.ConflictIffStale | tests/integration/test_optimistic_locking.py:96-129 | a lock-free save fails exactly when the row it would replace is not the row it read, so a snapshot is saved at most once |
| Guarantees.SavesFollowTheirReads | app/repositories/inventory_repository.py:83-100 | every committed write was computed from the row it replaces: the settled lines of an order, or each save's calls in turn with one version each |
| Guarantees.CommitBumpsEachProductOnce | app/repositories/inventory_repository.py:83-104 | a committed order raises the version of exactly its distinct products by one |
| Guarantees.DatabaseOnlyGrows | app/repositories/inventory_repository.py:83-95 | between any two states of a run versions never fall, and orders, frozen lines and keys stay |
| Guarantees.RefusalIsTrue | app/use_cases/create_order.py:134-135 | when a transaction reserves or releases its lines in memory, the verdict, with its error, is the verdict of the committed stock |
| Guarantees.RefusalIsAtomicIffKeyStillFree | app/use_cases/create_order.py:95-135 | a creation refused for its lines is the atomic creation's refusal at that moment if and only if its key has not been committed meanwhile |
| Guarantees.ReleasedExactlyWhenCancelled | app/use_cases/cancel_order.py:51-58 | in every run an order was released by a committed cancellation exactly when it went from PENDING to CANCELLED, and by only one if no two cancellations that have read it overlap |
| Guarantees.AcknowledgedAreCommitted | app/api/dependencies.py:21-27 | every creation that returned its order and every finished cancellation stays in the committed history |
| Guarantees.CancellationsRefused | app/domain/models.py:83-89 | from a store without PENDING orders every cancellation is refused before it reads or writes stock |
| Guarantees.RepliesAgree | tests/integration/test_idempotency.py:83-107 | all finished creations with one key returned the same order, status and total, which is what the key stores |
| Guarantees.ReplayIsFaithful | app/use_cases/create_order.py:104-109 | reading back any stored key gives its order's id, status and the sum of its frozen lines |
| RivalCancels.RivalsReleaseTwice | app/repositories/order_repository.py:62-71 | a run in which two cancellations in flight release one order's units twice, as no serial run does |
| KeyRaces.DuplicateRefused | app/use_cases/create_order.py:95-135 | a run in which a duplicate request is refused for stock when its key already names a committed order |
| OrderTables.OrderRepository.Save | app/repositories/order_repository.py:73-95 | inserts, or updates the status and replaces all items; other orders' rows stay, no item row is orphaned, and tables that stored a map of orders store the map with this order saved |
| OrderTables.OrderRepository.GetById | app/repositories/order_repository.py:62-71 | loads the stored scalars and exactly the order's items, in any order |
| OrderTables.OrderRepository.SaveThenGet | app/repositories/order_repository.py:62-95 | after saving, loading gives the status, the same items and total, and the same customer if and only if the row was new or already had it; all other rows of both tables are as before |
| OrderTables.TwoReadings | app/repositories/order_repository.py:62-71 | two loads of one order agree up to item order |
| OrderTables.SaveRefines | app/repositories/order_repository.py:73-95 | replacing one order's rows in both tables is saving that order in the protocol's order map |
| UseCases.InventoryRepository.GetByProductIds | app/repositories/inventory_repository.py:59-71 | one item per requested product that has a row, with that row's values, and exactly those rows are added to the session's locks if the database honours them |
| UseCases.InventoryRepository.Save | app/repositories/inventory_repository.py:73-100 | inserts a missing row; an existing row is written with the item's values and the next version if and only if its version is the item's, else the lock error and no change |
| UseCases.InventoryRepository.SaveBoth | tests/integration/test_optimistic_locking.py:96-129 | of two items that hold the same version of one row the second saved is always refused, and the row is what the first left |
| UseCases.InventoryRepository.SaveMany | app/repositories/inventory_repository.py:102-104 | saves all items if and only if every existing row still has its item's version, each row once; a conflict leaves exactly the rows saved before it in the session |
| UseCases.CheckProducts | app/use_cases/create_order.py:112-118 | passes if and only if every requested product is in the catalog and active, else names the product of the least item that is missing or inactive |
| UseCases.CreateOrderUseCase.ExecuteOnce | app/use_cases/create_order.py:89-178 | on a database that honours row locks, whatever others commit, one attempt is the atomic creation; in terms of the request alone: a fresh order repeats the items at catalog prices, every row gains the units wanted at write time, the total is their cost; a stored key is replayed; each refusal names its first cause |
| UseCases.CreateOrderUseCase.Place | app/use_cases/create_order.py:120-178 | from the locking read on, the outcome is the verdict of the stock as read, and success writes the settled rows, the confirmed order and the key over what others committed |
| UseCases.CreateOrderUseCase.Execute | app/use_cases/create_order.py:69-87 | at most three attempts, only lock errors are tried again, the lock error comes only after the third, and exactly one attempt is made while locks are honoured |
| UseCases.HandleCreate | app/api/dependencies.py:38-44 | a request commits one creation as it asked for it and returns its result, or returns the stored key's result or an error and commits nothing of its own |
| UseCases.CancelOrderUseCase.Execute | app/use_cases/cancel_order.py:46-67 | whatever others commit, changes of the order included, it is the atomic cancellation of the order as it was read, in terms of its lines and the rows: on the stock at write time, or refused on the stock as read |
| UseCases.UndisturbedCancel | app/use_cases/cancel_order.py:46-67 | if no one else changes the order meanwhile, that is the atomic cancellation of the committed database |
| UseCases.HandleCancel | app/api/dependencies.py:16-27 | a cancellation request commits that one atomic cancellation, or nothing of its own |
| Jobs.Worker.ProcessOrder | app/worker/tasks.py:123-157 | commits PROCESSING first, then COMPLETED with the placed order, or FAILED with exactly the exception's message or the recording's error; nothing else of the row changes and a missing job commits nothing |
| Jobs.ProcessOrderIsStory | app/worker/tasks.py:123-157 | the tables ProcessOrder commits are those of the events start, order and complete or fail, with any steps of any transactions in between |
| Jobs.EventKeeps | app/worker/tasks.py:123-157 | every event of jobs, deliveries, workers and transactions keeps the joint invariant |
| JobStories.FailureIsRecorded | app/worker/tasks.py:147-153 | in every story a job's error is exactly the message of its last failure, none if it never failed, and all its deliveries work on the request it was submitted with |
| JobStories.DeliveryMayStop | app/worker/tasks.py:133-153 | a worker may be lost at any moment without a trace, and may fail with any message outside its order transaction, which leaves its job FAILED with that message |
| JobStories.DeliveryCanRun | app/worker/tasks.py:123-157 | a sent job can be delivered, first or again, and worked on to its end: COMPLETED with the order the atomic creation creates or replays, or FAILED with the message if that is refused |
| JobStories.JobCanRun | app/api/routes/jobs.py:37-52 | so can a new job from its submission on, in every world of every story |
| Jobs.JobsTellTheTruth | app/worker/tasks.py:138-153 | in every reachable state a COMPLETED job names a committed CONFIRMED order, without a key the one it asked for, and a FAILED job has an error |
| Jobs.RedeliveryIsIdempotent | app/worker/tasks.py:54-94 | any number of deliveries of a keyed job commits at most one order under the key, and all that complete record it |
| Jobs.StatusMovesStepByStep | app/api/routes/jobs.py:37-52 | with one delivery per job every single event moves a status at most one step along PENDING, PROCESSING, then COMPLETED or FAILED |
| Jobs.StatusOnlyMovesForward | app/api/routes/jobs.py:37-52 | with one delivery per job no status ever goes back between any two moments, and COMPLETED and FAILED are final |

## Left out

- HTTP routes, schemas, health checks, middleware, logging, metrics, Kafka, Celery and Redis transport, migrations and deployment: input, output and configuration.
- SQLAlchemy session internals (identity map, autoflush, synchronisation of bulk updates): replaced by private writes and row locks. In particular a save of an order replaces its item rows in one go; two overlapping saves of one order, each deleting the item rows it loaded, are not modelled row by row.
- Deadlock freedom and progress under contention: the locking query has no ordering and any transaction may give up at any step; what is claimed is safety, and that a transaction whose rows and key no one else holds can run to its end (`Completeness`).
- Timestamps, identifier generation, product changes and deletion of rows: opaque, fresh, constant and absent.
- JSON text and other spellings of a decimal number: the stored body is a record whose total is read in the two-decimal form the code writes; Decimal's 28-digit context is not modelled.
- Item order after loading: compared as multisets, since the items query has no ordering.
- Atomicity across retries after a real version conflict: the session is not rolled back between attempts, and the conflict is unreachable under row locks. On a database that ignores row locks only the bound on attempts and the commit boundary are stated.
- Guarantees.ReleasedExactlyWhenCancelled: that only one commit released an order assumes that no two cancellations which have read it overlap, because the order row is read without a lock; RivalCancels.RivalsReleaseTwice shows that it is needed. The rest holds in every run.
- Guarantees.RefusalIsTrue: speaks of the stock only; a request that loses the race for its key may be refused for stock although its key's order has been committed meanwhile (Guarantees.RefusalIsAtomicIffKeyStillFree gives the exact condition).
- Jobs.StatusMovesStepByStep: assumes one delivery per job, because the worker does not check the current status; a FAILED job may still have a committed order, because the order commits before the job is updated.
- Jobs.StatusOnlyMovesForward: assumes one delivery per job, for the same reason.
- Completeness.AdjustmentCanRun: every item of a log entry is saved at least once, as in every log the protocol writes.
- UseCases.CreateOrderUseCase.ExecuteOnce: other transactions' commits are gathered at two points, before the locking read and between it and the writes; arbitrary interleavings are the subject of the protocol.
- UseCases: orders are kept as one map of records; OrderTables.OrderRepository.Save relates that map to the two tables.
