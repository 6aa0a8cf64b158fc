# CartNova: verified model of the order and inventory workflow

CartNova's order service, inventory service and notification service share two Kafka topics, three databases
and one idea: local transactions plus idempotent event handling instead of a distributed transaction. This
project models that code in Dafny and proves what it does and does not guarantee.

| Modules | What they model |
|---|---|
| `Basics`, `Inventory`, `InventoryRepository` | the reservation transaction on its own: the specification, its exact outcome, the stock ledger, and the repository object whose loop meets it |
| `Interleaving`, `InterleavingProgress` | many such transactions at once, statement by statement, under PostgreSQL's Read Committed isolation (PostgreSQL documentation, sections 13.2.1 and 13.3.2): row locks, uncommitted writes, aborts at any point |
| `Events`, `Delivery`, `Services` | the JSON payloads and their field tags, an at-least-once partitioned log, and the two services call by call |
| `OrderTotals`, `OrderRepository`, `InventoryService`, `OrderService` | the order total, and the services as objects; their handlers make exactly the calls of `Services` |
| `Saga`, `SagaPaths`, `SagaRequests` | any number of workers, consumers, admins and shoppers interleaved call by call, with crashes between any two calls, redelivery and partition hand-over |
| `SagaDelivery`, `SagaEffects`, `SagaStock`, `SagaExclusive`, `SagaOrigins`, `SagaConfirms`, `SagaTwice`, `SagaAnswers`, `SagaOutcome` | the theorems about every run of the saga, and what it decides when nothing fails |
| `SagaReports`, `SagaCounts`, `SagaLoss`, `SagaClaims`, `SagaRefusals` | what is lost, reported twice or given up in the saga, and by which steps exactly |
| `SagaGoroutines` | the goroutines of `ConsumeOrders` and the handler's calls, simulated by workers of the saga while the rest of it goes on |
| `OrderConsumption`, `ConsumptionOutcomes`, `WorkerPool`, `PoolCallers` | the goroutines, channels and cancellation of `ConsumeOrders` and of the generic worker pool, and the pool's callers |
| `ProductService`, `CacheRaces` | cache-aside product reads, call by call and interleaved access by access |
| `Notifications`, `NotificationGroup`, `NotificationContents`, `NotificationLosses` | the notification consumer as an object, several members of its group interleaved, what they write and what they lose |
| `Hub`, `HubBroadcasts`, `Migrations` | the WebSocket hub and the migration runner |

Verify with `dafny verify dfyconfig.toml`.

A schedule is always an arbitrary sequence of actions, and an action that cannot be taken changes nothing, so
each theorem about `Run(schedule)` holds in every reachable state. Faults are parameters: they say which calls
fail, and which take effect although their answer is lost.

Why the pieces fit together: the saga takes a reservation as one atomic step. `Interleaving.Serializability` is
what allows this, since every committed transaction equals the sequential one in commit order, and a
transaction that does not commit changes nothing; the saga lets any reservation fail or lose its answer. A saga
worker handles its messages first in, first out and stops at the first failure; `SagaGoroutines` proves that the
goroutines of one `ConsumeOrders` are such workers, while shoppers, admins, consumers, hand-over and other instances
act at any moment, also between two calls of a handler. `SagaRequests` does the same for the API calls of the order
service, and `NotificationContents` for the members of the notification group. A call whose answer is lost is, for the saga, the call
followed by a crash.

## What turned out to be false

- "Every reserved order is reported" fails between the last two calls of the inventory worker: the offset is
  committed before the result is published. `SagaLoss.FailedPublishLoses` is a run without any crash that loses a
  result. `SagaLoss.LostExactly` is the exact condition: a result is lost if and only if a worker that has committed
  and not published crashes, or its publish does not succeed. The loss is final, the stock stays reserved and the
  order is never confirmed (`SagaLoss.LostStaysReserved`, `SagaLoss.LossLeavesUnconfirmed`).
- "Every result changes its order's status" fails in the order consumer, which marks the event as processed first.
  `SagaClaims.FailedWriteLoses` is such a run, and `SagaClaims.LostExactly` is the exact condition, for the status
  write and for the status event.
- "Each message is reported once" fails when partitions change hands too early: `SagaConfirms.OverlapReportsTwice` is a
  run that reports one message twice. `SagaCounts.CommitsAccounted` is the exact account for every run and any
  hand-over: results published, due and lost are the commits of workers that reserved the message. So a second report
  becomes possible if and only if such a commit repeats one that was not lost (`SagaCounts.ReportedTwiceExactly`); with
  exclusive hand-over there is only one (`SagaCounts.ExclusiveCommitsOnce`).
- "A confirmed order is reserved" holds if and only if admins set neither CREATED nor CONFIRMED; the other four statuses
  are harmless (`SagaStock.ConfirmedReservedExactly`). In `SagaStock.AdminCreatedConfirmsUnreserved` the status event is
  read as a new, empty order; in `SagaStock.AdminConfirmsUnreserved` the admin confirms before anything is reserved.
- "No order is confirmed twice" holds if and only if admins may not set CREATED and hand-over is exclusive
  (`SagaTwice.ConfirmedOnceExactly`, with a run for either half).
- A status event does not name its order to the notification service: the user id travels under `order_id`
  (`Events.NoticeOfStatus`), and the name is right exactly when the two numbers coincide.
- "The cache shows the current product after an update and its deletion" fails for a slow reader
  (`CacheRaces.SlowReaderRestoresOldRow`). `CacheRaces.DeletionFreshExactly` is the exact condition: it holds until the
  next write if and only if no reader between its database read and its fill carries an outdated row. Deleting a
  category also leaves old rows behind (`ProductService.CategoryDeletedBehindCache`, with the exact condition).
- "Submit and Close never panic" holds if and only if every Submit has returned when Close is called, none comes
  later, and Close is called once (`PoolCallers.SafeExactly`); `PoolCallers.WaitingSubmitPanics` is a run that panics.
- "A reservation that cannot be completed is not acknowledged" (docs/failure-scenarios.md) fails: the code publishes a
  failure event for any error and commits the offset. In `SagaRefusals.RefusalAcknowledged` a single failing call of the
  database does it. `SagaRefusals.AcknowledgedUnreservedExactly` is the exact condition, in every run: an unreserved order
  lies below a committed offset at some moment if and only if a worker whose own reservation was refused commits it.
- "Each event has its notification" fails in the notification consumer, which marks the event first.
  `NotificationLosses.LostExactly` is the exact condition, for the notification and for its push.

## Model

| member | source | states |
|---|---|---|
| Inventory.ExactOutcome | internal/inventory/repository.go:35-98 | a reservation succeeds if and only if every distinct product not yet held by the order has a row with 0 < first-line quantity <= available, and then exactly those first-line quantities move and nothing else |
| Inventory.FailureSpreads | internal/inventory/repository.go:42-95 | a prefix of lines that fails makes the whole order fail with that prefix's error, whatever follows |
| Inventory.OrderIndependence | internal/inventory/repository.go:42-97 | with distinct products, any permutation of the lines gives the same success or failure and the same final tables |
| Inventory.StableIdempotence | internal/inventory/repository.go:42-58 | repeating a committed reservation after any run of other transactions succeeds and changes nothing, even without stock |
| Inventory.ReserveGrows | internal/inventory/repository.go:77-94 | a committed reservation keeps every earlier reservation and inventory row, holds every line of its order, and keeps the CHECK constraints |
| Inventory.FailsExactly | internal/inventory/repository.go:43-94 | a reservation fails if and only if some line is the first that cannot be served, and the error says why: not-found for a missing row, insufficient-stock for too little, a check violation for a quantity that is not positive |
| Inventory.Ledger | migrations/inventory/001_inventory.sql:1-16 | after any run, available is not negative, reserved is the sum of the product's reservations, and available plus reserved is all the stock ever added |
| Inventory.NeverOversold | internal/inventory/repository.go:22-98 | reservations of a product never exceed the stock ever added |
| InventoryRepository.Repository.ReserveOrder | internal/inventory/repository.go:35-98 | the loop over a working copy commits exactly the sequential outcome; any error leaves every table unchanged, except that a commit whose answer is lost leaves the whole outcome; without faults the error is the specified one |
| InventoryRepository.Repository.CreateOrUpdate | internal/inventory/repository.go:22-33 | the upsert adds to the available quantity or inserts the row and returns the row it left; it takes effect unless the call fails or the quantity is negative, also when its answer is lost |
| InventoryRepository.Repository.MarkEventProcessed | internal/inventory/repository.go:113-123 | true exactly for the call that inserted the id; the id is in the table also when the answer is lost |
| Interleaving.Serializability | internal/inventory/repository.go:22-98 | for any interleaving of statements with arbitrary aborts, the committed tables are those of the committed transactions run one after another in commit order, and each succeeds there |
| Interleaving.NoConcurrentDuplicate | migrations/inventory/001_inventory.sql:15 | two open transactions have never both inserted the same (order, product) |
| Interleaving.LedgerAlways | internal/inventory/repository.go:22-98 | the stock ledger holds of the committed tables in every interleaved state, and reservations never exceed stock added |
| Interleaving.FailureIsJustified | internal/inventory/repository.go:43-94 | a failing line would fail in the sequential transaction over the tables committed at that moment, with the same error, if and only if nobody has meanwhile committed that (order, product); a unique violation occurs only in the latter case |
| Interleaving.CommitIsSequential | internal/inventory/repository.go:97 | a finished transaction's own view is the sequential result over the tables committed when it commits, although those may have changed since it began |
| InterleavingProgress.CommitTakesEffect | internal/inventory/repository.go:97 | for every schedule and every finished open transaction, committing makes its sequential outcome over the committed tables the new committed tables, adds exactly its operation to the history, and leaves the other transactions alone |
| InterleavingProgress.AloneExactly | internal/inventory/repository.go:35-98 | in every reachable state, for an operation whose rows no other open transaction has locked: some number of its statements and a commit, run on their own, end in its sequential outcome if and only if it has one |
| InterleavingProgress.AbortLeavesNothing | internal/inventory/repository.go:35-40 | a transaction that is begun, runs any number of statements and is aborted leaves the state exactly as it was |
| Events.CreatedRoundTrip | internal/order/service.go:77-81 | order id, user id and every line published with a new order are what the inventory service decodes |
| Events.ResultRoundTrip | internal/inventory/model.go:20-24 | the misplaced tag cancels out between the inventory and order services: order, user and reason survive |
| Events.ResultReadable | internal/notification/service.go:54-57 | a result or notice payload is unreadable if and only if it is no object or one of the fields read has another type; a missing field reads as zero |
| Events.OrderReadable | internal/inventory/service.go:125-128 | the same for a new order, all of whose lines must be readable |
| Events.NoticeOfStatus | internal/notification/service.go:11-15 | the notification service reads new orders intact but shows the user id as the order number of a status event, right if and only if the two are equal |
| Events.ResultReadAsOrder | internal/order/service.go:114-117 | a status payload read as a new order names the user id as order and has no lines |
| Delivery.FetchKeeps | internal/events/events.go:78-90 | fetching in offset order keeps everything before the fetch position finished or held |
| Delivery.CommitKeeps | internal/events/events.go:92-94 | committing past the finished head of a FIFO skips no message of any partition |
| Services.CallWorkerEvolves | internal/inventory/service.go:120-166 | whatever call a worker makes, logs only grow, reservations and processed ids are never removed, orders keep their user and lines |
| Services.CallConsumerEvolves | internal/order/service.go:147-198 | the same for every call of the order-status consumer |
| InventoryService.Service.ProcessOrderEvent | internal/inventory/service.go:120-150 | the handler makes exactly the calls of the saga's worker in their order and stops at the first error or lost answer; when it ends well the offset is committed and one result is published that matches the reservation's outcome and error; it ends well unless a call fails or the payload is unreadable |
| InventoryService.RefusalText | internal/inventory/repository.go:11-12 | the text published with a refusal is "inventory not found" if and only if the first line in trouble has no row, and "insufficient stock" if and only if its row has too little |
| InventoryService.Service.Conclude | internal/inventory/service.go:142-149 | after a reservation: mark, commit the offset, then publish, each only if the one before worked |
| InventoryService.Service.PublishResult | internal/inventory/service.go:156-166 | one result event under a fresh id is appended, also when the answer is lost, or nothing changes |
| InventoryService.Service.AddStock | internal/inventory/service.go:32-37 | positive product and quantity only; then the upsert |
| OrderRepository.Repository.Create | internal/order/repository.go:21-61 | a new order and its lines appear together or not at all; the caller's slice is filled in place with the ids, and reading the order back returns exactly that slice while every other order reads as before; on an error the order is there only if the commit's answer was lost |
| OrderRepository.SelectAppended | internal/order/repository.go:77-95 | appending the lines of a new order changes what is read for that order only |
| OrderRepository.Repository.UpdateStatus | internal/order/repository.go:123-136 | only the status of that order changes, and no stored total; not-found exactly for a missing order |
| OrderRepository.Repository.MarkEventProcessed | internal/order/repository.go:138-148 | true exactly for the call that inserted the id; the id is in the table also when the answer is lost |
| OrderService.Service.Create | internal/order/service.go:35-90 | success stores one new order with exactly the requested lines at the looked-up prices, its total is the sum of what its single units cost, and the published event is decoded by the inventory service to exactly these lines; a failure leaves an order behind only if the publish failed or the commit's answer was lost, and an event only if the publish's answer was lost; which error for which request |
| OrderService.Service.Price | internal/order/service.go:47-70 | the loop prices every line and sums the total, or fails at the first bad line: a product or quantity that is not positive, or a product without an answer |
| OrderTotals.TotalIsUnitSum | internal/order/service.go:45-70 | the total of the lines is the sum of the prices of all units, counted one by one |
| OrderTotals.TotalPermuted | internal/order/service.go:45-70 | the order of the lines does not change the total |
| OrderTotals.OneUnitMore | internal/order/service.go:69 | one more unit of any line adds exactly its price |
| OrderTotals.NoUnits | internal/order/service.go:69 | a line of quantity 0 adds nothing |
| OrderService.NegativePrice | migrations/order/001_orders.sql:10-16 | once quantities are checked, the database can refuse an order only because of a negative price |
| OrderService.Service.UpdateStatus | internal/order/service.go:100-126 | an allowed status is written to that order only and one status event is published; the new state after each kind of failure; which calls fail without faults |
| OrderService.ParsesItsName | internal/order/status.go:7-18 | an accepted status text is exactly the name of its status |
| OrderService.EventNamedAfterStatus | internal/order/service.go:128-145 | the event type published for a status is "Order" and the status text in title case, for all six |
| OrderService.Service.Handle | internal/order/service.go:149-196 | one message makes exactly the calls of the saga's consumer and stops at the first error or lost answer; handled to its end, a new failure event leaves its order CANCELLED and appends one OrderCancelled event, a new reserved event gives CONFIRMED and OrderConfirmed, any other message changes no order, and the offset is the next one |
| OrderService.Service.Apply | internal/order/service.go:177-196 | after a claimed event: status write, status event, offset, each only if the one before worked; CANCELLED and OrderCancelled for a failure, CONFIRMED and OrderConfirmed otherwise |
| OrderService.Service.ConsumeInventoryEvents | internal/order/service.go:147-198 | the loop leaves the world of handling the messages one after another, each to its end except the one it stopped at |
| Saga.StepEvolves | internal/inventory/service.go:120-166 | no step of any participant removes a logged event, a reservation or a processed id |
| SagaDelivery.NoOrderSkipped | internal/inventory/service.go:58-100 | in every run with crashes and hand-over, each message below a committed offset is not OrderCreated, or its lines are all reserved, or a failure event for its order is in the inventory topic |
| SagaDelivery.NoResultSkipped | internal/order/service.go:154-196 | in every run, the id of each result event below a committed offset is in processed_events |
| SagaEffects.EffectsAtMostOnce | internal/order/service.go:166-192 | in every run each inventory event id causes at most one status write and at most one status event, and every status event carries the order and the status of a write for the same event |
| SagaAnswers.WritesAnswerResults | internal/order/service.go:177-184 | in every run each status write of a consumer has its result event in the inventory topic and names that event's order; it is CANCELLED if and only if the event is InventoryReservationFailed and CONFIRMED if and only if it is InventoryReserved |
| SagaAnswers.NoticesAnswerResults | internal/order/service.go:186-192 | the same for each status event a consumer publishes: OrderCancelled or OrderConfirmed, for the order of the result |
| SagaAnswers.NextResultIsAnswered | internal/order/service.go:149-196 | in every reachable state a new consumer can take over a partition and answer the first result after the committed offset, which sets the status and moves the offset past it |
| SagaOutcome.StockDecides | internal/order/service.go:35-90 | from any reachable state with empty topics, placing an order can be carried through: it ends CONFIRMED with exactly the sequential outcome reserved if the reservation succeeds, else CANCELLED with the stock untouched, and the status event with the reason is in the topic |
| SagaRequests.CreateIsPlaceAndSend | internal/order/service.go:75-88 | what a successful Create leaves behind is the saga's Place and Send |
| SagaRequests.UpdateIsAdminAndSend | internal/order/service.go:110-124 | what a successful UpdateStatus leaves behind is the saga's Admin and Send |
| SagaStock.ConfirmedIsReserved | internal/order/service.go:177-184 | in every run where no admin sets CREATED or CONFIRMED, an order that reads CONFIRMED has for each of its products a committed reservation with the quantity of that product's first line |
| SagaStock.ReservationsAreWanted | internal/inventory/repository.go:88-91 | in those runs every reservation belongs to a stored order and has exactly the quantity of its first line for the product |
| SagaStock.ConfirmedReservedExactly | internal/order/service.go:100-123 | for any set of statuses that admins may set: every confirmed order is reserved in every run if and only if the set contains neither CREATED nor CONFIRMED |
| SagaStock.AdminCreatedConfirmsUnreserved | internal/order/service.go:114-121 | a concrete run in which an admin's CREATED leads to a confirmed order with nothing reserved |
| SagaStock.AdminConfirmsUnreserved | internal/order/service.go:114-121 | a concrete run in which an admin confirms an order before its message is even published; nothing is reserved |
| SagaCounts.CommitsAccounted | internal/inventory/service.go:142-149 | in every run, with any hand-over, the InventoryReserved events published for a message, those about to be published and those lost add up to the commits of workers that reserved it |
| SagaCounts.ReportedOnceExactly | internal/inventory/service.go:142-149 | at every moment of a run at most one result of a message is published or due if and only if no such commit repeats one that was not lost |
| SagaCounts.ReportedTwiceExactly | internal/inventory/service.go:145-149 | from some moment of a run the pending publishes alone make a second result of a message if and only if such a commit repeats one that was not lost |
| SagaCounts.ExclusiveCommitsOnce | internal/inventory/service.go:142-149 | with each partition owned by one worker at a time, a message is committed at most once by a worker that reserved it, and is below the committed offset from then on |
| SagaExclusive.HandOver | internal/events/events.go:78-94 | after any exclusive run a partition of which its owner holds no message can be handed to any worker: the run stays exclusive, and the new owner starts at the committed offset |
| SagaCounts.ReservedAtMostOnce | internal/inventory/service.go:142-149 | with each partition owned by one worker at a time, a message yields at most one InventoryReserved event over all crashes and redeliveries |
| SagaOrigins.OriginsAreTopic | internal/inventory/service.go:156-166 | the ids for which the history records a message are exactly those of the InventoryReserved events in the topic |
| SagaCounts.OneResultPerMessage | internal/inventory/service.go:149 | every InventoryReserved event in the topic has an OrderCreated message of its order behind it, and different events have different messages |
| SagaConfirms.ConfirmedAtMostOnce | internal/order/service.go:166-184 | without admin CREATED and with exclusive hand-over, no two consumer writes confirm the same order |
| SagaTwice.ConfirmedOnceExactly | internal/order/service.go:100-123 | for any set of statuses that admins may set, with or without exclusive hand-over: no two consumer writes confirm the same order in any run if and only if the set does not contain CREATED and hand-over is exclusive |
| SagaTwice.AdminConfirmsTwice | internal/order/service.go:114-121 | a concrete run with one worker and one consumer, without crash or hand-over, in which CREATED set twice confirms one order twice |
| SagaTwice.OverlapConfirmsTwice | internal/inventory/service.go:142-149 | a concrete run without any admin in which overlapping owners lead to two confirmations of one order |
| SagaConfirms.ConfirmedTwiceNeeds | internal/order/service.go:166-184 | in every run, whatever admins and hand-overs do, two consumer writes confirm the same order only if two OrderCreated messages name it or a commit for one of its messages repeats one that was not lost |
| SagaConfirms.OverlapReportsTwice | internal/inventory/service.go:142-149 | a concrete run with overlapping owners in which one message is reported as reserved twice; it breaks the exclusive hand-over |
| SagaReports.NothingElseIsLost | internal/inventory/service.go:120-150 | in every run, with any hand-over, each message below a committed offset is not OrderCreated, or its order was refused, or its result was published, or a live worker is about to publish it, or a worker crashed or failed to publish it after the commit |
| SagaLoss.LostExactly | internal/inventory/service.go:145-149 | with exclusive hand-over, a committed message that is due a report never gets one if and only if its worker crashed, or its publish did not succeed, between the commit and the publish |
| SagaLoss.LossIsFinal | internal/inventory/service.go:145-149 | a message that is committed, unreported and about to be reported by nobody stays so in every continuation |
| SagaLoss.LostStaysReserved | internal/inventory/service.go:130-149 | the lost message is an OrderCreated event whose lines are all reserved from then on |
| SagaLoss.LossLeavesUnconfirmed | internal/order/service.go:177-184 | after a loss, no consumer write ever confirms the order of the message |
| SagaLoss.FailedPublishLoses | internal/inventory/service.go:145-149 | a concrete run without crash or hand-over: the order is stored, its stock reserved, its message committed, and the inventory topic stays empty |
| SagaClaims.LostExactly | internal/order/service.go:166-192 | in every run, a marked result event has no status write and nobody about to make it if and only if a consumer crashed or failed between marking and writing; the same for the status event of a written one |
| SagaClaims.StopsExactly | internal/order/service.go:182-192 | the failures meant are a failing call, an order that does not exist, and a partition that does not exist |
| SagaClaims.FailedWriteLoses | internal/order/service.go:166-184 | a concrete run in which a reserved order stays CREATED because its status write failed after the event was marked |
| SagaRefusals.AcknowledgedUnreservedExactly | docs/failure-scenarios.md:15-17 | in every run, with any hand-over, a message whose order is not reserved is below a committed offset at some moment if and only if at some step a worker that saw its reservation refused commits it unreserved |
| SagaRefusals.PassesExactly | internal/inventory/service.go:130-140 | a step acknowledges the message of an unreserved order if and only if its worker has published the failure and its commit takes effect |
| SagaRefusals.GivenUpWasRefused | internal/inventory/service.go:133-140 | such a worker's reservation was refused earlier in the run: the transaction failed on the tables, its call failed, or its answer was lost |
| SagaRefusals.RefusalAcknowledged | internal/inventory/service.go:133-140 | a concrete run with enough stock: one failing call of the database, and the message is acknowledged with nothing reserved and a failure published |
| SagaGoroutines.HandlerRuns | internal/inventory/service.go:120-150 | the calls of the handler object, made by a worker of the saga, leave the world the object leaves and the worker where the object ends |
| SagaGoroutines.GoroutinesAreWorkers | internal/inventory/service.go:54-101 | on every schedule of fetchers and processors interleaved, move by move and handler call by call, with arbitrary steps of shoppers, admins, stock, consumers, hand-over and other instances, each pair is a worker of the saga that holds and handles the same messages in the same order and is gone once its processor stops |
| SagaGoroutines.GoroutinesRun | internal/inventory/service.go:43-118 | on such a schedule the goroutines go through a run of `OrderConsumption`, so its theorems hold of them |
| SagaGoroutines.SagaRuns | internal/inventory/service.go:43-118 | and the saga's side extends any run of the saga, so the theorems about every run hold of it |
| OrderConsumption.NoPanicNoNil | internal/inventory/service.go:43-118 | on every schedule nobody sends on or closes a closed channel, and ConsumeOrders never returns nil |
| OrderConsumption.ContextErrorMeansCancelled | internal/inventory/service.go:88-117 | the bare context error is returned only if the parent was cancelled and no worker reported a fetch error or failed on a message |
| OrderConsumption.HandledInOrder | internal/inventory/service.go:58-100 | each worker handles a prefix of what it fetched, in order, and nothing after the message it failed on |
| OrderConsumption.NeverStuck | internal/inventory/service.go:61-118 | until the call returns, the goroutines are blocked only when some worker waits for its broker or its handler |
| ConsumptionOutcomes.ReturnedErrorIsReal | internal/inventory/service.go:61-118 | a returned error is a fetch error that its worker reported or the failure of a message its worker handled, and when the call has returned the workers are cancelled |
| ConsumptionOutcomes.FailureIsReturned | internal/inventory/service.go:88-117 | any worker can handle any messages in the order fetched, and a failure on the next one is then returned |
| ConsumptionOutcomes.FetchErrorIsReturned | internal/inventory/service.go:58-84 | and so is a fetch error |
| ConsumptionOutcomes.CancellationIsReturned | internal/inventory/service.go:43-118 | for any number of workers, a cancelled parent can make the call return the bare context error |
| WorkerPool.Conservation | internal/concurrency/worker_pool.go:29-71 | on every schedule each submitted job is queued, in a handler or handled, exactly once; nobody sends on the closed error channel, which closes only after every worker has exited |
| WorkerPool.StartedInOrder | internal/concurrency/worker_pool.go:64-71 | on every schedule the handlers start in the order of submission: the jobs submitted are those started and then those queued |
| WorkerPool.ErrorConservation | internal/concurrency/worker_pool.go:39-49 | without cancellation the failed jobs are, with multiplicity, those whose errors have been read, wait in the channel, or are about to be sent |
| WorkerPool.JobsGetThrough | internal/concurrency/worker_pool.go:26-71 | any jobs can be submitted, with or without using the buffer, handled in that order, and the error of each that fails read |
| WorkerPool.CancellationEnds | internal/concurrency/worker_pool.go:29-62 | a cancelled context can end every worker without Close, and then the error channel is closed |
| PoolCallers.SafeExactly | internal/concurrency/worker_pool.go:64-76 | Submit and Close cannot panic at any moment of a run if and only if every Submit has returned when Close is called, none comes later, and Close is called once |
| PoolCallers.WaitingSubmitPanics | internal/concurrency/worker_pool.go:64-76 | a concrete run: a Submit that is waiting when Close is called sends on the closed channel |
| PoolCallers.PoolRunsInside | internal/concurrency/worker_pool.go:64-71 | whatever the callers of Submit and Close do, the pool goes through a run of the pool machine, so conservation holds |
| WorkerPool.CloseMeansHandled | internal/concurrency/worker_pool.go:73-76 | without cancellation, the handled jobs are the submitted jobs when Close returns |
| WorkerPool.StepUsesWork | internal/concurrency/worker_pool.go:30-62 | after Close and without cancellation every step that does something lowers a measure over jobs, handlers, pending errors and workers |
| WorkerPool.StuckMeansBlocked | internal/concurrency/worker_pool.go:42-48 | the pool is stuck if and only if every live worker is blocked on the full error channel, or all is finished |
| WorkerPool.CloseEventuallyReturns | internal/concurrency/worker_pool.go:73-76 | no schedule goes on beyond the measure, and where it ends Close has returned, if at most as many handlers failed as there are workers or the error channel is read |
| ProductService.Service.Create | internal/product/service.go:26-46 | the trimmed, active row under a new id, never one that the cache already knows, so coherence is kept; every error |
| ProductService.Service.GetByID | internal/product/service.go:48-71 | a live entry is the answer and stays; otherwise the answer is the database's and a row found fills the cache for five minutes; over a coherent cache the answer is that of a direct read |
| ProductService.Service.Update | internal/product/service.go:77-102 | the whole new state and every error; a coherent cache stays coherent if and only if the deletion worked, or there was no entry, or the entry already held the new row |
| ProductService.Service.Delete | internal/product/service.go:104-110 | the whole new state and every error; coherence survives if and only if the cache deletion worked or there was no entry |
| ProductService.CategoryDeletedBehindCache | migrations/product/001_products.sql:12 | deleting a category keeps the cache coherent if and only if no cached product was in it |
| ProductService.Trim | internal/product/service.go:78-89 | nothing is left exactly of blank text, and what is left has no blank ends |
| ProductService.TrimCuts | internal/product/service.go:35-36 | what is left is one stretch of the text, and everything around it is blank |
| ProductService.AcceptedStores | internal/product/service.go:88-94 | name and description are stored trimmed and each in its own field, price and category as given, the status trimmed and raised to capitals or ACTIVE if empty |
| ProductService.RejectionExactly | internal/product/service.go:27-32 | a request is refused for a blank name, or else for a negative price, and for nothing else |
| CacheRaces.HitsWereTrue | internal/product/service.go:50-68 | on every interleaving, also with failed deletions, each hit is a row the database held when the filling read ran, served less than five minutes after its fill |
| CacheRaces.ServedFiveMinutes | internal/product/service.go:66 | a filled entry answers the next lookup if and only if less than five minutes have passed |
| CacheRaces.ReadsLastWrite | internal/product/service.go:59-62 | a read of the database after a write gets the row written, or none after a deletion |
| CacheRaces.FreshExactly | internal/product/service.go:48-71 | in every reachable state, all hits on an id in every continuation up to its next write show the row a direct read returns if and only if its live entry and every row that readers carry are current now |
| CacheRaces.DeletionFreshExactly | internal/product/service.go:112-116 | after a deletion all hits up to the next write are current if and only if no reader between its database read and its fill carries an outdated row |
| CacheRaces.OldReaderIsServed | internal/product/service.go:59-68 | from any reachable state in which a reader carries an outdated row, some continuation serves it |
| CacheRaces.SlowReaderRestoresOldRow | internal/product/service.go:59-68 | a concrete run in which an old row is served after the update and its cache deletion both succeeded |
| Notifications.Service.MarkProcessed | internal/notification/repository.go:24-34 | an atomic insert if absent: success with true exactly for the first call with the id, also when an earlier answer was lost |
| Notifications.Service.ProcessEvent | internal/notification/service.go:53-71 | exactly the notification the event calls for is stored, and pushed only if the store answered; a new order is told to the user who placed it, under its own number; which error in which case |
| Notifications.PlacedNotice | internal/notification/service.go:64-76 | the event of a placed order calls for a notification to the user who placed it, with its order number and the text of a creation |
| Notifications.StatusNoticeOf | internal/notification/service.go:53-93 | the event of a status calls for a notification to user 0 that shows a user's number as the order's, with the text of its type and reason; result events call for none |
| Notifications.DecimalDenotes | internal/notification/service.go:76 | the numeral in a text denotes the number |
| Notifications.PlacedIsTold | internal/notification/service.go:26-71 | after a run without faults every placed order passed has been stored and pushed for the user who placed it |
| Notifications.Service.HandleNext | internal/notification/service.go:33-49 | however its calls end, every offset below the committed ones has its id marked, and no event id has two notifications |
| Notifications.Service.ConsumeOrderEvents | internal/notification/service.go:26-51 | one run, ended by any fault, keeps the above and never adds a notification for an id marked before it; a run without faults does exactly what replaying its messages does |
| NotificationGroup.OneNotification | internal/notification/service.go:26-71 | over any interleaving of group members, crashes, redeliveries and hand-overs, each event id has at most one notification, the one its event calls for, pushed at most once |
| NotificationGroup.NothingSkipped | internal/notification/service.go:33-49 | in all those runs, the id of every event below a committed offset is marked |
| NotificationContents.JournalIsFaithful | internal/notification/service.go:53-71 | in every reachable state of the group each notification has an event in the topic: if it announced a placed order, the notification names that order and goes to the user who placed it; if it carried a status payload, it goes to user 0 |
| NotificationContents.PushedIsFaithful | internal/notification/service.go:69 | the same for everything pushed |
| NotificationContents.MemberIsConsumer | internal/notification/service.go:33-49 | an uninterrupted member does to the group's books what the consumer object does |
| NotificationContents.NextIsHandled | internal/notification/service.go:26-51 | in every reachable state a new member can take over a partition and handle the first message after the committed offset, if it can be read |
| NotificationContents.PublishedIsHandled | internal/notification/service.go:26-51 | an event published behind everything committed can be handled next, by a new member |
| NotificationLosses.LostExactly | internal/notification/service.go:33-71 | in every run of the group, a marked event has no notification and nobody about to write it if and only if a member stopped between marking and writing or found nothing to say; a notification is neither pushed nor about to be if and only if a member stopped between writing and pushing |
| NotificationLosses.DueLostExactly | internal/notification/service.go:33-71 | if every readable event with this id calls for a notification, it is lost exactly by a member that stopped between marking and writing |
| NotificationLosses.StopsExactly | internal/notification/service.go:53-57 | the only call that stops a member by itself is at a claimed event whose payload cannot be read |
| NotificationLosses.LossIsFinal | internal/notification/service.go:33-41 | what is lost stays lost in every continuation |
| Notifications.OneForEach | internal/notification/service.go:26-71 | a run without faults from the start creates and pushes exactly one notification for each event passed whose message is not empty, and nothing else |
| Hub.Hub.Add | internal/notification/hub.go:19-27 | the hub's pairs gain exactly (user, connection), with no empty inner map |
| Hub.Hub.Remove | internal/notification/hub.go:29-39 | the hub's pairs lose exactly (user, connection), with no empty inner map |
| Hub.Hub.Broadcast | internal/notification/hub.go:41-60 | uninterrupted, each of the user's connections is written once, exactly the failing ones are closed and removed, and other users are untouched |
| Hub.PairsDetermine | internal/notification/hub.go:10-13 | without empty inner maps the set of pairs determines the nested map |
| Hub.HubRefinesPairs | internal/notification/hub.go:19-60 | on every interleaving of Add, Remove and the snapshot, write and removal steps of broadcasts, the nested map is the plain set of pairs without empty inner maps |
| HubBroadcasts.UninterruptedBroadcast | internal/notification/hub.go:41-60 | from any reachable state, a broadcast nobody interrupts writes each connection of its user once and leaves exactly the pairs of other users and those whose write worked |
| Hub.WritesGoToRegistered | internal/notification/hub.go:47-59 | every connection a broadcast writes to was registered for its user at some earlier moment |
| Migrations.SortedSorts | internal/database/postgres.go:34-41 | the files are put in order, none lost and none added |
| Migrations.LeqExactly | internal/database/postgres.go:41 | the order used is the lexicographic one: a beginning of the other, or smaller at the first difference |
| Migrations.NamesExactly | internal/database/postgres.go:34-40 | the files taken are exactly the entries that are no directory and whose name ends in .sql |
| Migrations.Database.RunMigrations | internal/database/postgres.go:28-86 | a run stopped anywhere has applied a prefix of what was pending, in ascending order of name and only .sql files of the directory not recorded before; all of it on success; without faults it succeeds if and only if every pending name fits the version column |
| Migrations.Database.ApplyFile | internal/database/postgres.go:52-82 | a file is executed and recorded together or not at all, also when the commit's answer is lost; a recorded file is skipped |
| Migrations.MigrationsInOrder | internal/database/postgres.go:28-86 | after any sequence of runs stopped anywhere, what has been applied is a prefix of the sorted .sql files, each at most once, an earlier one always lexicographically smaller; a success applies all, and nothing changes from then on |

## Left out

- HTTP handlers, the gateway, the WebSocket transport, JWT and password hashing, logging, configuration and the wiring in `cmd/`: plumbing over libraries. `cmd/inventory-service/main.go:58` calls `ConsumeOrders` with an older signature; the model follows internal/inventory/service.go:43.
- gRPC transport and its value encoding: product lookup is a function that may have no answer, the user check a boolean.
- Kafka, PostgreSQL, MongoDB and Redis themselves: append-only partitioned logs with committed offsets, tables with the declared constraints and row locks, an atomic insert if absent, a map with expiry. A publish appends once or fails; broker retries that append twice are not modelled.
- `publishStatusEvent` (called at internal/order/service.go:190) is not defined in the repository; it is taken to publish one event of the given type with the result payload.
- Event ids are assumed fresh, order and product ids never reused; a counter stands for the UUIDs.
- Rounding of prices and totals (float64, NUMERIC(12,2)) and overflow of 32-bit stock columns: reals and unbounded integers.
- Liveness across services (every order eventually confirmed or cancelled) and freedom from database deadlock: the code does not give them; a deadlock victim is an abort at any statement.
- Goroutines of `ConsumeOrders` that outlive its return: `OrderConsumption.NeverStuck` speaks of the time before the call returns.
- SagaGoroutines.GoroutinesAreWorkers: takes from the broker that a fetch returns the next message of a partition the worker owns, and that a worker that has ended is assigned no partition.
- The reservation status column: only RESERVED is ever written, so reservations are a map from (order, product) to quantity. Stock is never released on cancellation, so there is no release to model.
- JSON text: payloads are trees with the field tags in use; case-insensitive key matching and number formats are not modelled.
- WorkerPool.Conservation: does not cover a second `Start` of the same pool.
- Notifications.Service.ConsumeOrderEvents: covers one consumer at a time, with any number of crashes and restarts; several members at once are `NotificationGroup`. The generated notification id and time are left out, and pushing is recorded instead of calling the hub.
- Migrations.Database.RunMigrations: the effect of a migration's statements is its entry in the list of applied files; files with their own transaction commands are not modelled, nor two runners at once.
- ProductService.Service.Update: white space and case are those of ASCII text; timestamps are left out. `GetAll` and categories other than the effect of deleting one are left out.
- Reads for display (`FindByUserID`, `Get`, notification history), user and category management, product search and the `examples/` programs: they would only add easy members.
