/** The booking protocol across the two services: handlers of the API service that read an order, call
  * the inventory service, store and publish, with any number of them in flight, any of them crashing
  * between any two of these, and messages delivered late, again, or not at all.
  * The inventory is its serial store: `EngineTheorems.Serialisable` says that is what concurrent calls see. */
module Orders {
  import opened Inventory
  import opened CommitLog
  import Settlement

  type UserId = nat
  type TaskId = nat

  datatype OrderStatus = PendingOrder | ConfirmedOrder | CancelledOrder | ExpiredOrder

  /** The `Idempotency-Key` header: absent, or any text, the empty one included. */
  datatype Key = NoKey | Key(text: string)

  /** One row of `orders`. */
  datatype Order = Order(user: UserId, event: EventId, hold: HoldId, quantity: int, status: OrderStatus, key: Key)

  /** Published facts. Once published, a message may be handled any number of times, at any later time. */
  datatype Message =
    | OrderCreated(order: OrderId)
    | PaymentProcessed(order: OrderId, success: bool)
    | ReservationExpired(order: OrderId, hold: HoldId)

  /** A handler in flight, by what it will do next. Order ids are the number of the booking that makes them. */
  datatype Task =
    | Reserving(user: UserId, event: EventId, quantity: int, key: Key)              // book_tickets, lookup done
    | Inserting(user: UserId, event: EventId, quantity: int, key: Key, hold: HoldId) // seats reserved
    | Announcing(order: OrderId)                       // order committed
    | Paying(order: OrderId, success: bool)            // payment handler, order read as PENDING
    | Settling(order: OrderId, success: bool, seen: Status) // inventory answered with a hold in status `seen`
    | Issuing(order: OrderId)                          // order stored as CONFIRMED
    | Cancelling(order: OrderId)                       // cancel_order, order read
    | Dropping(order: OrderId)                         // reservation released
    | Lapsing(order: OrderId)                          // expiry handler, order read as PENDING
    | Reaping(holds: seq<HoldId>)                      // page swept, messages still to publish

  /** `issued` are the TICKET_ISSUED messages in publishing order. `late` and `torn` record history: orders
    * confirmed although inventory answered with a dead reservation, and orders whose cancellation
    * released the reservation while the order was stored as CONFIRMED. */
  datatype World = World(
    db: Store, log: seq<Op>, orders: map<OrderId, Order>, tasks: map<TaskId, Task>, mail: set<Message>,
    issued: seq<OrderId>, late: set<OrderId>, torn: set<OrderId>, next: nat)

  /** What inventory puts into a new reservation: its id, which must be new, and its expiry. */
  datatype Grant = Grant(hold: HoldId, expiresAt: int)

  const START := World(EMPTY, [], map[], map[], {}, [], {}, {}, 0)

  datatype Step =
    | Stock(event: EventId, capacity: int, create: bool)   // capacity replica updates
    | StartBooking(user: UserId, event: EventId, quantity: int, key: Key)
    | CallReserve(k: TaskId, grant: Grant)
    | Insert(k: TaskId)
    | Announce(k: TaskId)
    | Charge(order: OrderId, success: bool)                // payment worker; may charge one order many times
    | StartPayment(order: OrderId, success: bool)
    | CallSettle(k: TaskId)
    | StoreSettled(k: TaskId)
    | Issue(k: TaskId)
    | StartCancel(order: OrderId)
    | CallRelease(k: TaskId)
    | StoreCancelled(k: TaskId)
    | Sweep(page: seq<HoldId>, now: int)                   // the reaper's transaction, all of a page or none
    | PublishExpired(k: TaskId)
    | StartLapse(order: OrderId, hold: HoldId)
    | StoreLapsed(k: TaskId)
    | Crash(k: TaskId)                                     // also: an error, or an RPC whose reply is lost

  /** An inventory call made alone. */
  function Call(w: World, op: Op): World {
    if Apply(w.db, op).Wrote? then w.(db := Next(w.db, op), log := w.log + [op]) else w
  }

  /** `op` was called once on the tables of `w`, and is in the log if it wrote. */
  predicate Called(w: World, w': World, op: Op) {
    w'.db == Next(w.db, op) && w'.log == w.log + (if Apply(w.db, op).Wrote? then [op] else [])
  }

  function Spawn(w: World, task: Task): World { w.(tasks := w.tasks[w.next := task], next := w.next + 1) }

  function Finish(w: World, k: TaskId): World { w.(tasks := w.tasks - {k}) }

  function Become(w: World, k: TaskId, task: Task): World { w.(tasks := w.tasks[k := task]) }

  function SetStatus(w: World, o: OrderId, status: OrderStatus): World {
    if o in w.orders then w.(orders := w.orders[o := w.orders[o].(status := status)]) else w
  }

  /** The unique index on (user, idempotency key), which leaves NULL keys unconstrained. */
  predicate KeyTaken(w: World, user: UserId, key: Key) {
    key.Key? && exists o :: o in w.orders && w.orders[o].user == user && w.orders[o].key == key
  }

  /** The lookup before booking skips an absent key and the empty text alike. */
  predicate Replayed(w: World, user: UserId, key: Key) { KeyTaken(w, user, key) && key.text != "" }

  predicate Is(w: World, o: OrderId, status: OrderStatus) { o in w.orders && w.orders[o].status == status }

  /** One step; a step that is not enabled leaves the world alone. */
  function Exec(w: World, step: Step): World {
    match step
    case Stock(e, c, create) => Call(w, if create then Initialize(e, c) else Adjust(e, c))
    case StartBooking(user, e, q, key) => if Replayed(w, user, key) then w else Spawn(w, Reserving(user, e, q, key))
    case Charge(o, success) =>
      if OrderCreated(o) in w.mail then w.(mail := w.mail + {PaymentProcessed(o, success)}) else w
    case StartPayment(o, success) =>
      if PaymentProcessed(o, success) in w.mail && Is(w, o, PendingOrder) then Spawn(w, Paying(o, success)) else w
    case StartCancel(o) =>
      if o in w.orders && w.orders[o].status != CancelledOrder && w.orders[o].status != ExpiredOrder
      then Spawn(w, Cancelling(o)) else w
    case Sweep(page, now) => if Sweepable(w.db, page, now) then Spawn(Expire(w, page), Reaping(page)) else w
    case StartLapse(o, id) =>
      if ReservationExpired(o, id) in w.mail && Is(w, o, PendingOrder) then Spawn(w, Lapsing(o)) else w
    case Crash(k) => Finish(w, k)
    case CallReserve(k, grant) => if k in w.tasks && w.tasks[k].Reserving? then Reserved(w, k, grant) else w
    case Insert(k) => if k in w.tasks && w.tasks[k].Inserting? then Inserted(w, k) else w
    case Announce(k) =>
      if k in w.tasks && w.tasks[k].Announcing?
      then Finish(w.(mail := w.mail + {OrderCreated(w.tasks[k].order)}), k) else w
    case CallSettle(k) => if k in w.tasks && w.tasks[k].Paying? then Settled(w, k) else w
    case StoreSettled(k) => if k in w.tasks && w.tasks[k].Settling? then Stored(w, k) else w
    case Issue(k) =>
      if k in w.tasks && w.tasks[k].Issuing? then Finish(w.(issued := w.issued + [w.tasks[k].order]), k) else w
    case CallRelease(k) => if k in w.tasks && w.tasks[k].Cancelling? then Dropped(w, k) else w
    case StoreCancelled(k) =>
      if k in w.tasks && w.tasks[k].Dropping? then Finish(SetStatus(w, w.tasks[k].order, CancelledOrder), k) else w
    case PublishExpired(k) => if k in w.tasks && w.tasks[k].Reaping? then Told(w, k) else w
    case StoreLapsed(k) =>
      if k in w.tasks && w.tasks[k].Lapsing? then Finish(SetStatus(w, w.tasks[k].order, ExpiredOrder), k) else w
  }

  /** A page of the expiry query: any selection of reservations PENDING and past their time. */
  predicate Sweepable(db: Store, page: seq<HoldId>, now: int) {
    0 < |page| <= Settlement.PAGE && Settlement.Distinct(page)
    && forall i :: 0 <= i < |page| ==> Settlement.Expirable(db, now, page[i])
  }

  function Expire(w: World, page: seq<HoldId>): World {
    var ops := Settlement.ExpireAll(page);
    w.(db := ReplayFrom(w.db, ops), log := w.log + ops)
  }

  /** The reaper publishes for the first reservation it still has to, and goes on to the next. */
  function Told(w: World, k: TaskId): World
    requires k in w.tasks && w.tasks[k].Reaping?
  {
    var holds := w.tasks[k].holds;
    if holds == [] || holds[0] !in w.db.holds then w
    else
      var w' := w.(mail := w.mail + {ReservationExpired(w.db.holds[holds[0]].order, holds[0])});
      if |holds| == 1 then Finish(w', k) else Become(w', k, Reaping(holds[1..]))
  }

  /** The reserve RPC: the order does not exist yet, so a refusal leaves nothing behind. */
  function Reserved(w: World, k: TaskId, grant: Grant): World
    requires k in w.tasks && w.tasks[k].Reserving?
  {
    var t := w.tasks[k];
    var op := Reserve(t.event, grant.hold, k, t.quantity, grant.expiresAt);
    if Apply(w.db, op).Wrote?
    then Become(Call(w, op), k, Inserting(t.user, t.event, t.quantity, t.key, grant.hold))
    else Finish(w, k)
  }

  /** The order INSERT: a lost race on the key is an integrity error, and the reservation stays behind. */
  function Inserted(w: World, k: TaskId): World
    requires k in w.tasks && w.tasks[k].Inserting?
  {
    var t := w.tasks[k];
    if KeyTaken(w, t.user, t.key) then Finish(w, k)
    else
      var order := Order(t.user, t.event, t.hold, t.quantity, PendingOrder, t.key);
      Become(w.(orders := w.orders[k := order]), k, Announcing(k))
  }

  /** The confirm or release RPC of the payment handler; an unknown reservation raises. */
  function Settled(w: World, k: TaskId): World
    requires k in w.tasks && w.tasks[k].Paying?
  {
    var t := w.tasks[k];
    if t.order !in w.orders || w.orders[t.order].hold !in w.db.holds then Finish(w, k)
    else
      var id := w.orders[t.order].hold;
      var w' := Call(w, if t.success then Confirm(id) else Release(id, false));
      if id in w'.db.holds then Become(w', k, Settling(t.order, t.success, w'.db.holds[id].status)) else Finish(w', k)
  }

  /** The payment handler's commit: it overwrites whatever status is stored. */
  function Stored(w: World, k: TaskId): World
    requires k in w.tasks && w.tasks[k].Settling?
  {
    var t := w.tasks[k];
    if t.success then
      Become(SetStatus(w, t.order, ConfirmedOrder), k, Issuing(t.order))
        .(late := if t.seen.Dead() then w.late + {t.order} else w.late)
    else Finish(SetStatus(w, t.order, CancelledOrder), k)
  }

  /** The release RPC of a cancellation. */
  function Dropped(w: World, k: TaskId): World
    requires k in w.tasks && w.tasks[k].Cancelling?
  {
    var o := w.tasks[k].order;
    if o !in w.orders || w.orders[o].hold !in w.db.holds then Finish(w, k)
    else
      Become(Call(w, Release(w.orders[o].hold, false)), k, Dropping(o))
        .(torn := if Is(w, o, ConfirmedOrder) then w.torn + {o} else w.torn)
  }

  function Run(w: World, steps: seq<Step>): World {
    if steps == [] then w else Exec(Run(w, steps[..|steps| - 1]), steps[|steps| - 1])
  }

  // ----- what holds in every interleaving -----

  /** `db'` comes after `db`: reservations stay, and only their status moves, forward. */
  ghost predicate Later(db: Store, db': Store) {
    forall id :: id in db.holds ==>
      id in db'.holds && db'.holds[id] == db.holds[id].(status := db'.holds[id].status)
      && Reaches(db.holds[id].status, db'.holds[id].status)
  }

  /** Orders stay, and only their status moves. */
  ghost predicate Kept(orders: map<OrderId, Order>, orders': map<OrderId, Order>) {
    forall o :: o in orders ==> o in orders' && orders'[o] == orders[o].(status := orders'[o].status)
  }

  /** The order names its reservation, made for it with the same event and quantity. */
  predicate Linked(db: Store, o: OrderId, order: Order) {
    order.hold in db.holds && db.holds[order.hold].order == o
    && db.holds[order.hold].event == order.event && db.holds[order.hold].quantity == order.quantity
  }

  /** The cross-service rules on statuses. */
  predicate StatusesAgree(order: OrderStatus, hold: Status) {
    && (order == CancelledOrder ==> hold.Dead())
    && (order == ExpiredOrder ==> hold == Expired)
    && (order == ConfirmedOrder ==> hold != Pending)
  }

  ghost predicate OrdersOk(w: World) {
    forall o :: o in w.orders ==>
      o < w.next && Linked(w.db, o, w.orders[o])
        && StatusesAgree(w.orders[o].status, w.db.holds[w.orders[o].hold].status)
  }

  /** The status of the reservation behind order `o`. */
  function HoldOf(db: Store, orders: map<OrderId, Order>, o: OrderId): Status
    requires o in orders && orders[o].hold in db.holds
  {
    db.holds[orders[o].hold].status
  }

  predicate Known(db: Store, orders: map<OrderId, Order>, o: OrderId) { o in orders && orders[o].hold in db.holds }

  /** What a handler in flight may rely on. */
  ghost predicate TaskOk(db: Store, orders: map<OrderId, Order>, k: TaskId, task: Task) {
    match task
    case Reserving(_, _, _, _) => k !in orders && forall id :: id in db.holds ==> db.holds[id].order != k
    case Inserting(user, e, q, key, id) => k !in orders && Linked(db, k, Order(user, e, id, q, PendingOrder, key))
    case Announcing(o) => Known(db, orders, o)
    case Paying(o, _) => Known(db, orders, o)
    case Settling(o, success, seen) =>
      Known(db, orders, o) && seen != Pending && Reaches(seen, HoldOf(db, orders, o)) && (!success ==> seen.Dead())
    case Issuing(o) => Known(db, orders, o) && HoldOf(db, orders, o) != Pending
    case Cancelling(o) => Known(db, orders, o)
    case Dropping(o) => Known(db, orders, o) && HoldOf(db, orders, o).Dead()
    case Lapsing(o) => Known(db, orders, o) && HoldOf(db, orders, o) == Expired
    case Reaping(holds) => forall i :: 0 <= i < |holds| ==> holds[i] in db.holds && db.holds[holds[i]].status == Expired
  }

  ghost predicate TasksOk(w: World) {
    forall k :: k in w.tasks ==> k < w.next && TaskOk(w.db, w.orders, k, w.tasks[k])
  }

  ghost predicate MessageOk(db: Store, orders: map<OrderId, Order>, m: Message) {
    match m
    case OrderCreated(o) => o in orders
    case PaymentProcessed(o, _) => o in orders
    case ReservationExpired(o, id) => id in db.holds && db.holds[id].order == o && db.holds[id].status == Expired
  }

  ghost predicate MailOk(w: World) { forall m :: m in w.mail ==> MessageOk(w.db, w.orders, m) }

  /** One reservation per order number; a CONFIRMED one has its order. */
  ghost predicate HoldsOk(w: World) {
    && (forall id :: id in w.db.holds ==> w.db.holds[id].order < w.next)
    && (forall a, b :: a in w.db.holds && b in w.db.holds && w.db.holds[a].order == w.db.holds[b].order ==> a == b)
    && (forall id :: id in w.db.holds && w.db.holds[id].status == Confirmed ==>
          w.db.holds[id].order in w.orders && w.orders[w.db.holds[id].order].hold == id)
  }

  predicate SameKey(a: Order, b: Order) { a.user == b.user && a.key.Key? && a.key == b.key }

  ghost predicate KeysOk(w: World) {
    forall a, b :: a in w.orders && b in w.orders && SameKey(w.orders[a], w.orders[b]) ==> a == b
  }

  ghost predicate IssuedOk(w: World) {
    forall i :: 0 <= i < |w.issued| ==>
        Known(w.db, w.orders, w.issued[i]) && HoldOf(w.db, w.orders, w.issued[i]) != Pending
  }

  ghost predicate LogOk(w: World) { w.db == Replay(w.log) && Effective(EMPTY, w.log) }

  ghost predicate Inv(w: World) {
    LogOk(w) && OrdersOk(w) && TasksOk(w) && MailOk(w) && HoldsOk(w) && KeysOk(w) && IssuedOk(w)
  }
}
