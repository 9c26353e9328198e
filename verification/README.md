# EventSphere: seat inventory, bookings, replica and rate limit

EventSphere sells seats. The inventory service keeps one row per event (capacity, reserved, confirmed,
version) and a table of reservations; any number of sessions read, compute and flush version-checked
updates against it. The API service books, charges, confirms, cancels and expires orders by calling the
inventory service and exchanging messages with it. This project models both, and proves what they
guarantee over every interleaving, crash and redelivery.

## How it is built

| files | what they hold |
|---|---|
| `Inventory.dfy`, `CommitLog.dfy` | the tables, each repository call as one atomic change, replay of a log of calls, the ledger, the version column as a witness, capacity over whole logs |
| `Engine.dfy`, `Serialisability.dfy`, `EngineTheorems.dfy`, `Apart.dfy`, `FillRuns.dfy` | the concurrent database: sessions in flight, row locks, stale flushes, commit, rollback; the invariant; serialisability, no oversell; sessions that stay off an event; exact fill |
| `Session.dfy`, `Repository.dfy`, `InventoryService.dfy` | the source's classes: a session, the repository methods with the retry loop, one transaction per service call, the sweep; other sessions act at every await |
| `Settlement.dfy` | repeated confirm, release and expire calls; the sweep as a batch; draining |
| `Lease.dfy`, `LockedRuns.dfy` | the Redis lease lock alone, and in front of the database |
| `Orders.dfy`, `OrderInvariants.dfy`, `OrderTheorems.dfy`, `OrderHistory.dfy`, `SerialOrders.dfy`, `OrderWitnesses.dfy` | the order protocol: handlers in flight, crashes, messages delivered late and again; what always holds, which step each message, status and ticket comes from, what holds when the handlers of one order do not overlap, and runs from the empty system that show it can be met, and where more than that fails |
| `Concurrent.dfy` | both services together: the order protocol with every inventory call a transaction of the concurrent database, simulating the protocol with calls made alone |
| `ApiProcess.dfy`, `BookingService.dfy`, `OrderStatusWorker.dfy` | the API service's handlers as imperative code over that protocol |
| `Replica.dfy`, `Consumer.dfy`, `EventService.dfy` | the capacity replica, the consumer that feeds it, and the service that publishes seat counts |
| `RateLimit.dfy` | the fixed-window rate limiter over real time |

A run is a sequence of steps from the empty state; a step that is not enabled changes nothing, so a lemma
about `Run(START, steps)` speaks of every run. The imperative classes keep a ghost `trace` with
`state == Run(START, trace)`, so those lemmas apply to every state their methods pass through. Their
`elsewhere` field is what everybody else does at each await; a clause under `elsewhere == []` says what the
method does when nobody interferes.
Where a ghost field `own` (for a database session, `begun`) stands beside the
trace it lists what this process itself did, so a contract that names it says exactly which steps a call
takes, whoever else acts; the ghost results `moment`, `asked` and `saving` are the positions in the trace at
which a call read, asked or saved.

## Assumptions

- All reads of one inventory transaction are one snapshot. `confirm`, `release` and the sweep read a
  reservation and then the event's row, and `Reservation` has no version column, so the version check alone
  does not cover a change between the two reads. `reserve`, `adjust_capacity` and `initialize_inventory` read
  the row only and need no such assumption.
- An UPDATE of an event's row carries `WHERE version = expected`, raises the version by one, and keeps the row
  locked until its transaction ends. A flush on a locked row waits. The mapper sends no UPDATE when no
  attribute changed, and inserts a new row with version 1.
- Reservation, order and event ids and lock tokens are fresh. A new reservation is numbered after the
  transaction that makes it, an order after its booking.
- Redis commands are atomic: SET NX PX, the compare-and-delete script, INCR, EXPIRE. A key is there up to its
  expiry time and gone after it. Redis and the API process read the same clock.
- A process that dies while it waits for an inventory call is found dead when the answer comes.
- A published message may be handled any number of times, at any later time, or never. The order protocol
  makes its inventory calls alone; `Concurrent.Simulates` proves that nothing is lost by that: with the calls as
  transactions among any others, the two services are always as some run of the protocol leaves them.
- The payment gateway may answer either way at every delivery.

## Where the code and its documentation differ

- `BaseKafkaConsumer` says a message whose handler raised is skipped without committing and so comes back on
  restart. A commit covers the whole position, so the next message that succeeds commits past it.
  `Replica.SkippedUpdateIsLost` is a run in which an update is lost for good, `Replica.PassedForGood` the
  general law, and `Replica.RecoversIff` the exact condition under which a restart repairs the replica.
- The comment on the orders index says a retried booking is safe. An empty `Idempotency-Key` is skipped by the
  lookup but not by the index: the retry takes seats for no order. `BookingService.RetryAfterSuccess` says
  that this is the only key for which that happens.
- `confirm` succeeds silently on a released or expired reservation, so a late payment produces a CONFIRMED
  order without seats: `OrderWitnesses.LatePaymentOversells`. The client of that call drops the status in the
  answer, so the handler cannot notice. `SerialOrders.AlwaysSeatedIff` says exactly which steps cost a CONFIRMED
  order its seats, `SerialOrders.ConfirmedSeatsBalance` exactly when the CONFIRMED orders fit the count.
- The rate limiter's minute is chosen by a clock reading taken before the INCR. An INCR that arrives in the
  next minute can find its counter gone: `RateLimit.LateIncrOverfills`. `RateLimit.MinuteAdmitsIff` says exactly
  when a minute admits what it should.
- `EventService.update` publishes after it commits. A failed publish is not made good by repeating the
  request: `EventService.RepeatPublishesNothing`.

## Model

| member | source | states |
|---|---|---|
| EngineTheorems.Serialisable | services/inventory/app/core/database.py:14-25 | For every interleaving of any number of transactions, the tables equal the committed calls run one at a time in commit order, each of them taking effect, and every log entry belongs to exactly one transaction, a committed one: stale, failed and crashed attempts leave no trace |
| EngineTheorems.OutcomesAreSequential | services/inventory/app/repositories/inventory_repository.py:41-127 | What a transaction reports is what its calls do alone at a moment of its lifetime: a failed call fails on the state it read, a committed one writes on the state it commits to, a stale one saw the version move between its read and its flush |
| EngineTheorems.MatchingVersionMeansUnchanged | services/inventory/app/models.py:38-40 | While a transaction's expected version still matches, the event's row and all of its reservations are exactly what it read |
| EngineTheorems.NothingToDoIsStable | services/inventory/app/repositories/inventory_repository.py:100-116 | A confirm or release that found nothing to do has nothing to do at any later commit, so a session that wrote nothing is also sequential at its end |
| EngineTheorems.ReservationStays | services/inventory/app/repositories/inventory_repository.py:71-127 | Along the log a reservation stays in the table with the event, order, quantity and expiry it was made with, and its status only moves forward: from PENDING anywhere, from CONFIRMED to RELEASED or EXPIRED, from these nowhere |
| EngineTheorems.NoOversell | services/inventory/app/repositories/inventory_repository.py:41-127 | In every reachable state, with no lock assumed: both counters are the sums over PENDING and CONFIRMED reservations and are never negative, the seats taken never exceed the greatest capacity ever set, and availability is never negative if the capacity is never lowered |
| FillRuns.ExactFill | tests/integration/test_inventory_concurrency.py:55-78 | However N one-seat reservations on a fresh event of C seats interleave with each other and with anything on other events, if each ends in success or sold-out then exactly min(N, C) succeed, and the counters say so |
| FillRuns.SoldOutMeansFull | services/inventory/app/repositories/inventory_repository.py:66-69 | In such a run a sold-out answer is only given when every seat of the event is held |
| Serialisability.MergeIsReplay | services/inventory/app/core/database.py:19-22 | Installing one transaction's private rows at commit gives the same tables as running its calls on the current ones, although others committed since it read |
| Serialisability.MatchMeansSame | services/inventory/app/models.py:38-40 | The step lemma behind the flush: a matching version means the slice read is the slice stored |
| Serialisability.ExecKeepsInv | services/inventory/app/core/database.py:14-25 | Every begin, flush, commit and rollback keeps the engine's invariant on private copies, row locks, the log and reported endings |
| Inventory.ApplyKeepsConsistent | services/inventory/app/repositories/inventory_repository.py:71-125 | Ledger conservation, call by call: reserved and confirmed counts stay the sums over the reservation table |
| Inventory.WritesOneEvent | services/inventory/app/models.py:38-40 | A writing call changes one event only and raises that event's version by exactly one |
| Inventory.ApplyIsLocal | services/inventory/app/repositories/inventory_repository.py:62-126 | What a call does depends on its event's row and reservations alone |
| Inventory.ReserveMeans | services/inventory/app/repositories/inventory_repository.py:49-80 | Column by column: the four reasons to refuse a reservation, each exactly when it applies; otherwise one PENDING row is stored with the event, order, quantity and expiry asked for, and as many seats move to `reserved`, the version going up by one |
| Inventory.ConfirmMeans | services/inventory/app/repositories/inventory_repository.py:96-109 | A confirm moves a PENDING reservation's seats from `reserved` to `confirmed` and its status to CONFIRMED, and nothing else; it leaves any other reservation alone and fails exactly on an unknown one |
| Inventory.ReleaseMeans | services/inventory/app/repositories/inventory_repository.py:111-127 | A release takes the seats off the counter that holds them and changes the status, and nothing else; it leaves a dead reservation alone and fails exactly on an unknown one |
| Inventory.AdjustMeans | services/inventory/app/repositories/inventory_repository.py:41-47 | A capacity change moves the capacity of that row and nothing else, nothing at all if it is in place, and fails exactly on an event without a row |
| Inventory.InitializeMeans | services/inventory/app/repositories/inventory_repository.py:32-39 | A new row starts with no seats taken; an existing one is left alone |
| CommitLog.VersionIsWitness | services/inventory/app/models.py:38-40 | Along any log a version never falls, and if it did not move then neither did the row or any of its reservations |
| CommitLog.TakenWithinHighest | services/inventory/app/repositories/inventory_repository.py:41-71 | Seats taken stay between 0 and the greatest capacity ever set, whatever the capacity changes |
| CommitLog.AvailableNeverNegative | services/inventory/app/models.py:42-44 | Availability goes negative only through a capacity cut |
| CommitLog.HighestIsSet | services/inventory/app/repositories/inventory_repository.py:32-47 | The bound of the capacity theorems is no less than every capacity set for that event, and is one of them or 0 |
| CommitLog.NeverLoweredAt | services/inventory/app/repositories/inventory_repository.py:41-47 | "Never lowered", place by place in the log: no change sets less than the capacity then in force, and none starts below 0 |
| Session.Session.Flush | services/inventory/app/models.py:20-23 | The flush waits for the row's holder, then succeeds exactly when the version is the expected one; otherwise the transaction ends as stale |
| Repository.InventoryRepository.TryReserve | services/inventory/app/repositories/inventory_repository.py:62-89 | One attempt either holds a flushed PENDING reservation of exactly the event, order, quantity and expiry asked for, or was refused for a reason true of a fresh read, or lost its row to another commit made during the attempt |
| Repository.InventoryRepository.Reserve | services/inventory/app/repositories/inventory_repository.py:49-94 | The retry loop: InvalidQuantity exactly for quantity <= 0, then nothing happens; success is one new PENDING reservation ready to commit; NotFound and CapacityExceeded come from a read made during the call; at most max_retries sessions are opened; each lost one was overtaken, in its own read-to-flush window and these windows are disjoint, by a different transaction that committed a write of this row; Conflict names max_retries of them |
| Repository.InventoryRepository.Confirm | services/inventory/app/repositories/inventory_repository.py:96-109 | Confirm flushes what the atomic call does to the snapshot, or is a no-op there, or reports NotFound true of the snapshot, or lets the stale error escape; alone, it fails exactly on an unknown reservation |
| Repository.InventoryRepository.Release | services/inventory/app/repositories/inventory_repository.py:111-127 | The same for release and expire; on success the reservation is RELEASED or EXPIRED in what the session holds |
| Repository.InventoryRepository.AdjustCapacity | services/inventory/app/repositories/inventory_repository.py:41-47 | The same for a capacity change; writing the value already there emits no UPDATE; alone, it fails exactly on an event without a row |
| Repository.InventoryRepository.InitializeInventory | services/inventory/app/repositories/inventory_repository.py:32-39 | The same for a new row; an existing row is left alone and a lost insert race is a key violation; alone, it succeeds |
| Repository.FindExpiredPending | services/inventory/app/repositories/inventory_repository.py:129-138 | Returns distinct reservations, each PENDING with its expiry before now, and all of these or exactly as many as the limit |
| Repository.LostMeansRisen | services/inventory/app/repositories/inventory_repository.py:84-89 | A stale flush means the version rose strictly during the attempt |
| EngineTheorems.Overtaker | services/inventory/app/repositories/inventory_repository.py:84-89 | One loser, one other winner: a transaction lost to a stale row was overtaken by another that committed a write of that row between its read and its flush and had not ended when the attempt began |
| InventoryService.CommitInstalls | services/inventory/app/core/database.py:19-22 | A commit appends the session's calls to the log, the tables become their effect on what was committed before, and the ledger still balances |
| InventoryService.InventoryService.ReserveSeats | services/inventory/app/services/inventory_service.py:58-82 | Lock, then transaction: on success the new reservation is the last committed call, is stored PENDING with the event, order and quantity asked for, and expires 600 seconds after a moment of the call; on failure no session of this call committed anything, NotFound and CapacityExceeded are true of tables read during the call, and Conflict is reported exactly when all 5 attempts were lost, each to a different transaction; the call opens no other transaction; a call that does not get the lock touches nothing and met another client's live lease at every try; alone with the lease free, it answers what the tables say and does what the call does on them; the client always leaves its critical section |
| InventoryService.InventoryService.AdjustCapacity | services/inventory/app/services/inventory_service.py:44-48 | Lock, then one transaction: the change is the last committed call, or the capacity read was that already and nothing was committed; NotFound is what the call raises on tables read during it, Stale means its row was lost; without the lock as above; alone with the lease free, it succeeds on an event with a row, is NotFound on any other, and does what the call does |
| InventoryService.InventoryService.InitializeInventory | services/inventory/app/services/inventory_service.py:39-42 | One transaction: the new row is the last committed call, or the event had one in the tables that were read; the only failure is a lost insert race; alone it succeeds and does what the call does |
| InventoryService.InventoryService.ConfirmReservation | services/inventory/app/services/inventory_service.py:84-89 | One transaction. The answer is the status that it left in the tables it read, be it CONFIRMED by this call or the one found; the stored status is that one or one it can have become, and is not PENDING; what was committed is this confirm, or nothing. NotFound is true of the tables that were read, Stale means the row was lost, and then nothing was committed. Alone: the answer is the stored status, or NotFound exactly for an unknown reservation |
| InventoryService.InventoryService.ReleaseReservation | services/inventory/app/services/inventory_service.py:91-96 | The same for release: the answer is exactly the status stored afterwards, RELEASED or EXPIRED |
| InventoryService.InventoryService.SweepExpiredReservations | services/inventory/app/services/inventory_service.py:98-114 | One transaction commits the expiry of exactly the reservations it returns, all of them PENDING and past their time in the tables just before that commit whoever else acts, or nothing when a row moved; what it returns is a page of the tables it read during the call, all that were expired then or a full page of them |
| InventoryService.StatusLeft | services/inventory/app/repositories/inventory_repository.py:96-127 | After a confirm or release that read earlier tables, and found nothing to do there or was the last to commit, the stored status is one that the answered status can have become, and repeating the call changes nothing |
| InventoryService.NextOfPage | services/inventory/app/services/inventory_service.py:110-111 | Within the sweep's transaction each release finds its reservation still PENDING and writes |
| Settlement.RepeatsChangeNothing | services/inventory/app/repositories/inventory_repository.py:96-127 | For any sequence of confirm, release and expire calls over any reservations, deleting every later repeat of an earlier call gives the same tables |
| Settlement.SeatsReturnOnce | services/inventory/app/repositories/inventory_repository.py:111-127 | Over any such sequence availability rises by exactly the seats of the reservations that died, each counted once |
| Settlement.SweepEffect | services/inventory/app/services/inventory_service.py:108-114 | A sweep moves exactly the listed reservations to EXPIRED and lowers each event's reserved count by exactly their quantities |
| Settlement.SweepsDrain | services/inventory/app/workers/reservation_reaper.py:36-48 | With no new holds, n expired ones are gone after ceil(n/100) sweeps and not before |
| Lease.AtMostOneWithinLease | services/inventory/app/services/locking.py:54-75 | Over any schedule of sets, ticks, releases and failed releases, of two clients inside the critical section of one key at least one has outlived its lease |
| Lease.OthersKeepTheirLease | services/inventory/app/services/locking.py:54-75 | Nobody else's step takes a running lease away; only the clock ends it |
| Lease.KeyStays | services/inventory/app/services/locking.py:16-22 | A stored key, whether or not the client that set it has left, is only ever deleted by a release with its own token and only replaced once its time is up |
| Lease.RedisLock.Acquire | services/inventory/app/services/locking.py:54-67 | The client tries, and sleeps for the retry delay after every failed try and at no other time, up to the number of attempts; it enters with a full lease at the first try that meets no live key, or names every failed try, each of which met another client's live lease |
| Lease.RedisLock.Release | services/inventory/app/services/locking.py:69-75 | The client leaves and no other does; the key is deleted exactly if the script works and the key is live and still holds this client's token; nobody within its lease loses it |
| LockedRuns.FirstTrySucceeds | services/inventory/app/services/inventory_service.py:44-74 | If an event is written by reserve and adjust only, under its lock and finishing within the lease, then in no run is a flush on that event ever stale or made to wait, whatever sessions write other events, leased or not |
| LockedRuns.LeasedCallGoesThrough | services/inventory/app/services/inventory_service.py:58-82 | And calls do get done: from any database at rest a client that enters, calls, commits and leaves has added exactly its call |
| LockedRuns.UnleasedWriterOvertakes | services/inventory/app/services/inventory_service.py:84-96 | That needs every writer to take the lock: a confirm or release, which take none, makes a leased reservation's flush stale |
| LockedRuns.OvertakenRun | services/inventory/app/services/inventory_service.py:84-96 | A run from the empty database in which that happens |
| LockedRuns.AloneIsAtomic | services/inventory/app/core/database.py:14-25 | A transaction of one writing call with nobody else in flight is that call |
| OrderTheorems.CrossServiceSafety | services/api/app/workers/order_status_worker.py:21-60 | Under every interleaving, crash and redelivery a CANCELLED order's reservation is RELEASED or EXPIRED, an EXPIRED order's is EXPIRED, a CONFIRMED order's is not PENDING, and the reservation is the order's own |
| Concurrent.Simulates | services/inventory/app/services/inventory_service.py:58-114 | With every inventory call opened, flushed and committed as a transaction among any others, any of them stale, retried or rolled back: the API service and the committed tables are always as some run of the order protocol with calls made alone leaves them |
| Concurrent.CommitIsStep | services/inventory/app/core/database.py:19-22 | A commit of an inventory call, made on what its session read earlier, does to both services exactly what the call made alone at that moment does; a capacity change that found its value in place does nothing |
| Concurrent.CallGoesThrough | services/inventory/app/services/inventory_service.py:58-96 | The simulation is not idle: with no other session open, a call that would write is opened, sent and committed, and the three moves are that one step of the order protocol |
| Concurrent.PageHeld | services/inventory/app/services/inventory_service.py:106-114 | A sweep's page is still PENDING and past its time when the sweep commits |
| Concurrent.SystemSafety | services/api/app/workers/order_status_worker.py:21-60 | So cross-service safety, one order per key, the ledger and the capacity bound hold together at every moment of the concurrent system |
| OrderTheorems.OneOrderPerKey | services/api/app/models/order.py:26-32 | At most one order per user and supplied key, however many requests race |
| OrderTheorems.OrphansNeverConfirmed | services/api/app/services/booking_service.py:71-84 | A reservation whose order was never stored is never CONFIRMED, and no order has two reservations |
| OrderTheorems.TicketIssuedOnce | services/api/app/workers/order_status_worker.py:25-38 | An order whose payment messages are handled one at a time is issued at most one ticket over any run, and only after inventory answered a confirm call for it |
| OrderTheorems.PaidMeansAnswered | services/api/app/workers/order_status_worker.py:30-38 | In every run, whatever overlaps, an order that is past its confirmation or has a ticket had a confirm call for its reservation answered at an earlier step |
| OrderHistory.EverythingHasItsCause | services/api/app/workers/order_status_worker.py:21-60 | In every run: a CONFIRMED order, and any order with a ticket, was announced and charged with success; a CANCELLED one was charged without success or someone asked to cancel it; an EXPIRED one was told of by a message about its very own reservation |
| OrderHistory.TicketWasPaid | services/api/app/workers/order_status_worker.py:30-38 | Whoever got a ticket or is CONFIRMED was charged with success at an earlier step of the run, after its own booking had announced it |
| OrderHistory.MessageHasStep | services/api/app/services/booking_service.py:86-94 | Every message of a run was published by a step of it: ORDER_CREATED only by the booking that stored the order, PAYMENT_PROCESSED only by a charge of an announced order, RESERVATION_EXPIRED only by the reaper for a reservation of its page |
| OrderHistory.OrderAfter | services/api/app/services/booking_service.py:74-84 | Step by step, an order is made only by its own booking's insert, PENDING and under a key that was free; afterwards only its status moves, only by the three stores, each to its own status |
| OrderHistory.TablesAfter | services/api/app/workers/order_status_worker.py:26-43 | Step by step, the tables move by the inventory calls of that step's handler and by nothing else, and the log gains exactly those that wrote |
| OrderTheorems.OverlappingPaymentsIssueTwice | services/api/app/workers/order_status_worker.py:25-38 | Serial delivery is needed: two payment handlers that both read PENDING issue two tickets |
| OrderWitnesses.TwoTicketsRun | services/api/app/workers/order_status_worker.py:25-38 | A run from the empty system in which that happens |
| OrderInvariants.ExecKeepsInv | services/api/app/workers/order_status_worker.py:21-75 | Every step of the order protocol keeps the cross-service invariant |
| SerialOrders.ConfirmedOrderHasSeats | services/api/app/workers/order_status_worker.py:30-33 | With handlers of this order not overlapping, when it is CONFIRMED its reservation is CONFIRMED if and only if its confirmation was not answered with a dead reservation and no cancellation has released it |
| SerialOrders.AlwaysSeatedIff | services/api/app/workers/order_status_worker.py:30-33 | With handlers of this order not overlapping, it has its seats at every moment at which it is CONFIRMED if and only if no step stores its confirmation on a dead answer and none releases its reservation while it is CONFIRMED |
| SerialOrders.CarefulOrderHasSeats | services/api/app/workers/order_status_worker.py:30-33 | A CONFIRMED order has its seats if its handlers did not overlap, no confirm call for it met a dead reservation, no cancellation of it died between release and commit, and none is there now |
| OrderWitnesses.CarefulRun | services/api/app/workers/order_status_worker.py:25-38 | A run from the empty system that meets these conditions: the order ends CONFIRMED with its seat and one ticket |
| SerialOrders.ConfirmedSeatsBalance | services/inventory/app/repositories/inventory_repository.py:96-109 | In every run, whatever overlaps: the quantities of all CONFIRMED orders of an event, plus the CONFIRMED reservations without a CONFIRMED order, equal its confirmed count plus the CONFIRMED orders without seats; so the orders fit the count if and only if the last are no more than the second |
| SerialOrders.ConfirmedOrdersFit | services/inventory/app/repositories/inventory_repository.py:96-109 | End-to-end no oversell: if the CONFIRMED orders of an event meet those conditions, the quantities of all of them sum to at most its confirmed count, hence at most the greatest capacity ever set; other orders may be handled anyhow |
| OrderWitnesses.LatePaymentOversells | services/inventory/app/repositories/inventory_repository.py:100-101 | A run from the empty system, no handlers overlapping, in which a payment after the sweep confirms an order whose seat is on sale again |
| SerialOrders.OverlapLosesSeats | services/api/app/services/booking_service.py:111-122 | Overlap is what the hypothesis excludes: a payment and a cancellation that both read PENDING can leave a CONFIRMED order with its seats released and neither exception recorded |
| OrderWitnesses.OverlapRun | services/api/app/services/booking_service.py:111-122 | A run from the empty system in which that happens |
| SerialOrders.CrashedCancelLosesSeats | services/api/app/services/booking_service.py:120-122 | A cancellation that dies between release and commit leaves a CONFIRMED order without seats |
| OrderWitnesses.CrashedCancelRun | services/api/app/services/booking_service.py:120-122 | A run from the empty system, no handlers overlapping, in which that happens and the seat is on sale again |
| BookingService.BookingService.BookTickets | services/api/app/services/booking_service.py:51-99 | Whoever else acts: a key that has an order at the lookup is answered with an order of that user and key, and nothing is done; an unknown event likewise is refused; otherwise the handler takes exactly the steps of one booking, and success is its own new order, with the event, quantity, key and reservation of the call, announced; a taken key means someone has an order under it by then; a refusal is what the reserve call raises on the tables at the moment it is made. Alone, the whole is one `Attempt` |
| BookingService.RetryAfterSuccess | services/api/app/services/booking_service.py:59-63 | Retrying a booking that succeeded is a replay, and costs no seats, if and only if the key is not the empty text |
| BookingService.BookingService.CancelOrder | services/api/app/services/booking_service.py:111-122 | At the moment it reads, it refuses exactly an order that the user does not have, or one CANCELLED or EXPIRED, and then does nothing; otherwise it takes exactly the three steps of a cancellation, and the order ends CANCELLED with its seats given back; alone the outcome is `Cancelled` |
| BookingService.CancelledMeans | services/api/app/services/booking_service.py:120-122 | A cancellation alone makes the order CANCELLED and its reservation RELEASED unless it was dead already, by one inventory call; no other order or reservation changes and nothing is published |
| OrderStatusWorker.OrderStatusWorker.HandlePaymentProcessed | services/api/app/workers/order_status_worker.py:21-49 | The message is handled exactly if the order is PENDING at the moment it is read, and then the handler takes exactly its own three or four steps, whoever else acts; a handled success has a ticket issued and a reservation that is not PENDING, a handled failure a CANCELLED order with dead seats; alone the outcome is `Paid`, or nothing |
| OrderStatusWorker.PaidMeans | services/api/app/workers/order_status_worker.py:26-43 | A payment handled alone gives the order its final status, confirms a PENDING reservation on success and releases a live one on failure, by one inventory call; one ticket goes out exactly on success and nothing else is published; no other order or reservation changes |
| OrderStatusWorker.StoredAndIssued | services/api/app/workers/order_status_worker.py:30-43 | From any world: the store moves one order, to a status that the payment's result alone decides, and neither it nor the ticket touches inventory or any topic of the protocol but the tickets |
| OrderStatusWorker.OrderStatusWorker.HandleReservationExpired | services/api/app/workers/order_status_worker.py:52-60 | The notice is handled exactly if the order is PENDING at the moment it is read, and then the handler takes exactly its two steps and leaves an EXPIRED order whose reservation is EXPIRED; alone the outcome is `Lapsed`, or nothing |
| OrderStatusWorker.LapsedMeans | services/api/app/workers/order_status_worker.py:52-60 | An expiry notice handled alone moves that order to EXPIRED and nothing else anywhere |
| OrderStatusWorker.OrderStatusWorker.Reap | services/inventory/app/workers/reservation_reaper.py:37-47 | One pass, exactly if at the moment of the transaction the page is of PENDING reservations past their time: the sweep, then one message per reservation in order, and no other step; once through, all of the page is EXPIRED and its orders' handlers can be told |
| OrderStatusWorker.ReapedMeans | services/inventory/app/workers/reservation_reaper.py:37-47 | A pass alone makes exactly the page, all of it PENDING and past its time, EXPIRED, sends exactly its messages, and touches no order |
| ApiProcess.Process.Await | services/api/app/workers/order_status_worker.py:25-49 | Whatever the other handlers do during an await, this one's progress is untouched, nothing stored or published is taken back, and what this handler relies on still holds |
| Replica.OnePass | services/inventory/app/workers/event_sync_consumer.py:16-30 | On a log that begins each event with its creation, one uninterrupted pass ends at the seat count last published |
| Replica.Converges | services/shared/kafka/consumer.py:77-95 | With any crashes, rewinds, failed offset commits and other inventory calls, as long as no handler raises over a message about this event: whenever the consumer has caught up with its furthest delivery the capacity is the last one delivered, and with the log drained it is the last published |
| Replica.NeverInvented | services/inventory/app/repositories/inventory_repository.py:32-47 | Over any run, handler faults included, a capacity is one that was published for that event |
| Replica.AtLeastOnceOrSkipped | services/shared/kafka/consumer.py:85-95 | Over any run every offset below the position was handled or skipped, and an offset is committed only by a handler that returned |
| Replica.RecoversIff | services/shared/kafka/consumer.py:85-95 | After any run, a restart and a faultless drain bring the capacity to the last published seat count if and only if it is there already, or the creation is still to be redelivered, or the row exists and anything about the event is |
| Replica.RedeliveredIsRun | services/shared/kafka/consumer.py:77-95 | That restart and drain is a continuation of the run |
| Replica.PassedForGood | services/shared/kafka/consumer.py:85-95 | If nothing about an event lies at or after the committed offset, no continuation without new messages about it changes its capacity |
| Replica.SkippedUpdateIsLost | services/shared/kafka/consumer.py:23-32 | A run in which a skipped update is never applied, however often the consumer restarts |
| Consumer.BaseKafkaConsumer.HandleMessage | services/inventory/app/workers/event_sync_consumer.py:16-30 | The dispatch writes exactly what the inventory call for that message does, and returns exactly when it does not raise |
| Consumer.BaseKafkaConsumer.Process | services/shared/kafka/consumer.py:85-95 | One delivery is one `Deliver` step of the replica machine |
| Consumer.BaseKafkaConsumer.Consume | services/shared/kafka/consumer.py:77-83 | The loop delivers each message once and in order, up to the stop or the end, whatever goes wrong with each; without faults every capacity is that of one pass over what was read; with a drained log and a past without faults over an event its capacity is the last published |
| EventService.EventService.Create | services/api/app/services/event_service.py:26-37 | The row is added and, exactly if the publish goes through, one creation message follows whatever was published meanwhile; alone, event and log agree exactly if it went through; with others in between, exactly if also nothing was published about the event first and its seat count is still this one |
| EventService.EventService.Update | services/api/app/services/event_service.py:49-65 | Whoever else acts: the commit changes the columns of the request that differ from what it was shown, on the row as stored by then; a message is published exactly for a changed seat count that is delivered, and nothing otherwise; alone, an event in agreement stays so exactly if nothing had to be published or the publish went through; with others in between, exactly if theirs is not the stored value |
| EventService.LastSeatsWin | services/api/app/services/event_service.py:53-56 | The seat count that is compared and published is the last one that the request assigns |
| EventService.WrittenMeans | services/api/app/services/event_service.py:53-56 | A save that meets the row it was shown stores the request; one that meets a row changed since overwrites the columns of the request that differ and keeps what others stored in the rest |
| EventService.RepeatPublishesNothing | services/api/app/services/event_service.py:53-63 | Repeating an update publishes nothing, so a failed publish is not repaired by a retry |
| EventService.CapacityIsSeats | services/inventory/app/workers/event_sync_consumer.py:16-30 | For a drained run in which no handler raised over this event's messages the replica's capacity equals the event's seat count if and only if the log's last word agrees with the event |
| RateLimit.MinuteAdmitsIff | services/api/app/core/rate_limit.py:47-60 | Over any run, per client and minute: at least min(requests, limit) are admitted, and exactly that many if and only if the limit is not positive, the requests fit it, or none of these requests came more than 60 seconds after their counter's EXPIRE took effect |
| RateLimit.MinuteAdmitsLimit | services/api/app/core/rate_limit.py:47-60 | If this client's requests of this minute are all counted within it, exactly min(requests, limit) are admitted, the first ones counted |
| RateLimit.PromptNeverExpired | services/api/app/core/rate_limit.py:51-54 | The 60-second expiry set after the first hit never resets a counter inside its own minute |
| RateLimit.MarkHasExpire | services/api/app/core/rate_limit.py:53-54 | The time from which a counter's 60 seconds run is that of an EXPIRE of the run for that very counter |
| RateLimit.ExactIffNoneExpired | services/api/app/core/rate_limit.py:52-54 | Over any run, per client and minute: every request is told its true place if and only if none found its counter run out |
| RateLimit.SpanBound | services/api/app/core/rate_limit.py:28-37 | Any span of k minutes admits a client at most (k+1) times the limit, unless one of this client's requests in those minutes found its counter run out |
| RateLimit.BurstMeetsBound | services/api/app/core/rate_limit.py:28-37 | That bound is reached, for every limit and every k > 0, by a run in which every request is counted at once |
| RateLimit.LateIncrOverfills | services/api/app/core/rate_limit.py:49-54 | An INCR delayed past its minute finds the counter gone, and the minute admits more than the limit |
| RateLimit.RateLimitMiddleware.Dispatch | services/api/app/core/rate_limit.py:41-65 | A request is counted in the minute of the clock reading it starts with; exactly the request told 1 sends that very counter's EXPIRE, unless the process dies, and nothing else is sent; it is refused exactly when its reply exceeds the limit, hence never while its place in its client's minute is within the limit, and always beyond it unless a request of this client in this minute found its counter run out; a served one is told how many are left; exempt paths touch nothing |

## Left out

- EngineTheorems.NoOversell: the bound is the greater of 0 and every capacity set, because `InitializeInventory` accepts a negative capacity, under which nothing is sold and availability is negative from the start.
- InventoryService.InventoryService.AdjustCapacity: an adjust that found its value already there is sequential at its read; a commit by another session may change the capacity before it returns.
- Session.Session.Flush: when the row is held, the holder has its chance to commit during the await and is otherwise taken to roll back, so an endless wait or a deadlock is not modelled beyond the rollback it ends in.
- Split reads in confirm and release at a weaker isolation level: see the first assumption.
- Integer columns are 32 bits wide in the database and unbounded here; an overflow would be a rejected statement.
- Prices: an order's total is its quantity times the event's price, and nothing here depends on it.
- `ORDER_CANCELLED`, e-mail notification and logging: nothing in these services reacts to them in a way that changes inventory or orders.
- Crashes inside the imperative handlers: the handlers here run to their end; crashes at every point are steps of the order machine and of the replica machine.
- `EventService.delete`, search, pagination, authentication and token rotation: no part in the properties here.
- The status-code mapping of the RPC layer and its client: an RPC here takes effect and returns, fails without effect, or takes effect and its reply is lost.
- Several partitions of one topic: one partition is modelled; the broker's commit covers each the same way.
- Request fields are already validated (positive seat counts and quantities at the HTTP boundary); the inventory's own quantity check is modelled.
