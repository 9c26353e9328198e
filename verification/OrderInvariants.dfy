/** Every step of the booking protocol keeps its invariant. */
module OrderInvariants {
  import opened Inventory
  import opened CommitLog
  import opened Orders
  import Settlement

  lemma CallLater(db: Store, op: Op)
    ensures Later(db, Next(db, op))
  {
  }

  /** Nothing is ever taken back: reservations and orders stay, and numbers are not reused. */
  ghost predicate Grows(w: World, w': World) {
    Later(w.db, w'.db) && Kept(w.orders, w'.orders) && w.next <= w'.next
  }

  /** At most task `k` is new or changed, and only it may have made a new order or reservation. */
  ghost predicate OnlyTask(w: World, w': World, k: TaskId) {
    && (forall j :: j in w'.tasks && j != k ==> j in w.tasks && w'.tasks[j] == w.tasks[j])
    && (forall o :: o in w'.orders ==> o in w.orders || o == k)
    && (forall id :: id in w'.db.holds ==> id in w.db.holds || w'.db.holds[id].order == k)
  }

  lemma TaskKept(w: World, w': World, k: TaskId, j: TaskId, task: Task)
    requires Grows(w, w') && OnlyTask(w, w', k) && j != k && TaskOk(w.db, w.orders, j, task)
    ensures TaskOk(w'.db, w'.orders, j, task)
  {
  }

  lemma TasksKept(w: World, w': World, k: TaskId)
    requires TasksOk(w) && Grows(w, w') && OnlyTask(w, w', k)
    requires k in w'.tasks ==> k < w'.next && TaskOk(w'.db, w'.orders, k, w'.tasks[k])
    ensures TasksOk(w')
  {
    forall j | j in w'.tasks ensures j < w'.next && TaskOk(w'.db, w'.orders, j, w'.tasks[j]) {
      if j != k { TaskKept(w, w', k, j, w.tasks[j]); }
    }
  }

  /** An order that is unchanged stays in step with its reservation. */
  lemma OrdersKept(w: World, w': World, k: OrderId)
    requires OrdersOk(w) && Grows(w, w')
    requires forall o :: o in w'.orders && o != k ==> o in w.orders && w'.orders[o] == w.orders[o]
    requires k in w'.orders ==> k < w'.next && Linked(w'.db, k, w'.orders[k])
                                && StatusesAgree(w'.orders[k].status, w'.db.holds[w'.orders[k].hold].status)
    ensures OrdersOk(w')
  {
  }

  lemma OrdersSame(w: World, w': World)
    requires OrdersOk(w) && Grows(w, w') && w'.orders == w.orders
    ensures OrdersOk(w')
  {
  }

  lemma MailKept(w: World, w': World, mail: set<Message>)
    requires MailOk(w) && Grows(w, w') && w'.mail == w.mail + mail
    requires forall m :: m in mail ==> MessageOk(w'.db, w'.orders, m)
    ensures MailOk(w')
  {
    forall m | m in w'.mail ensures MessageOk(w'.db, w'.orders, m) {
      if m in w.mail { assert MessageOk(w.db, w.orders, m); }
    }
  }

  lemma IssuedKept(w: World, w': World)
    requires IssuedOk(w) && Grows(w, w') && w'.issued == w.issued
    ensures IssuedOk(w')
  {
  }

  lemma KeysKept(w: World, w': World)
    requires KeysOk(w) && Kept(w.orders, w'.orders) && w'.orders.Keys == w.orders.Keys
    ensures KeysOk(w')
  {
    forall a, b | a in w'.orders && b in w'.orders && SameKey(w'.orders[a], w'.orders[b]) ensures a == b {
      assert SameKey(w.orders[a], w.orders[b]);
    }
  }

  /** No new reservation, and none newly CONFIRMED. */
  lemma HoldsKept(w: World, w': World)
    requires HoldsOk(w) && Grows(w, w') && w'.db.holds.Keys == w.db.holds.Keys
    requires forall id :: id in w'.db.holds && w'.db.holds[id].status == Confirmed ==>
        w.db.holds[id].status == Confirmed
    ensures HoldsOk(w')
  {
  }

  lemma CallLogOk(w: World, op: Op)
    requires LogOk(w)
    ensures LogOk(Call(w, op))
  {
    assert (w.log + [op])[..|w.log|] == w.log;
  }

  // ----- steps that change neither tables nor orders -----

  lemma SpawnKeepsInv(w: World, task: Task)
    requires Inv(w) && TaskOk(w.db, w.orders, w.next, task)
    ensures Inv(Spawn(w, task))
  {
    var w' := Spawn(w, task);
    TasksKept(w, w', w.next);
  }

  lemma FinishKeepsInv(w: World, k: TaskId, mail: set<Message>)
    requires Inv(w) && forall m :: m in mail ==> MessageOk(w.db, w.orders, m)
    ensures Inv(Finish(w.(mail := w.mail + mail), k))
  {
    var w' := Finish(w.(mail := w.mail + mail), k);
    MailKept(w, w', mail);
    TasksKept(w, w', k);
  }

  lemma IssueKeepsInv(w: World, k: TaskId)
    requires Inv(w) && k in w.tasks && w.tasks[k].Issuing?
    ensures Inv(Exec(w, Issue(k)))
  {
    var o := w.tasks[k].order;
    TaskIsOk(w, k);
    IssueOne(w, o);
    DropTask(w.(issued := w.issued + [o]), k);
  }

  lemma IssueOne(w: World, o: OrderId)
    requires Inv(w) && Known(w.db, w.orders, o) && HoldOf(w.db, w.orders, o) != Pending
    ensures Inv(w.(issued := w.issued + [o]))
  {
    var w' := w.(issued := w.issued + [o]);
    assert IssuedOk(w');
  }

  /** A handler that is done, or dies. */
  lemma DropTask(w: World, k: TaskId)
    requires Inv(w)
    ensures Inv(Finish(w, k))
  {
    TasksKept(w, Finish(w, k), k);
  }

  lemma TaskIsOk(w: World, k: TaskId)
    requires TasksOk(w) && k in w.tasks
    ensures k < w.next && TaskOk(w.db, w.orders, k, w.tasks[k])
  {
  }

  // ----- inventory calls -----

  /** A call that neither reserves nor confirms. */
  lemma QuietCall(db: Store, op: Op)
    requires !op.Reserve? && !op.Confirm?
    ensures Next(db, op).holds.Keys == db.holds.Keys
    ensures forall id :: id in db.holds && Next(db, op).holds[id].status == Confirmed ==>
        db.holds[id].status == Confirmed
  {
  }

  lemma QuietCallKeepsInv(w: World, op: Op)
    requires Inv(w) && !op.Reserve? && !op.Confirm?
    ensures Inv(Call(w, op))
  {
    CallLogOk(w, op);
    CallLater(w.db, op);
    QuietCall(w.db, op);
    var w' := Call(w, op);
    assert w'.db == Next(w.db, op) && w' == w.(db := w'.db, log := w'.log);
    NewStoreKeepsInv(w, w'.db, w'.log);
  }

  /** Only the inventory's tables change, and no reservation is new or newly CONFIRMED. */
  lemma NewStoreKeepsInv(w: World, db: Store, log: seq<Op>)
    requires Inv(w) && Later(w.db, db) && LogOk(w.(db := db, log := log)) && db.holds.Keys == w.db.holds.Keys
    requires forall id :: id in db.holds && db.holds[id].status == Confirmed ==> w.db.holds[id].status == Confirmed
    ensures Inv(w.(db := db, log := log))
  {
    var w' := w.(db := db, log := log);
    TasksKept(w, w', w.next);
    OrdersSame(w, w');
    MailSame(w, w');
    IssuedKept(w, w');
    HoldsKept(w, w');
  }

  // ----- the other steps -----

  /** What a sweep does to the reservations: its page becomes EXPIRED, the others stay as they are. */
  lemma SweepMeans(w: World, page: seq<HoldId>, now: int)
    requires LogOk(w) && Sweepable(w.db, page, now)
    ensures LogOk(Expire(w, page)) && Later(w.db, Expire(w, page).db)
    ensures var db := Expire(w, page).db;
            db.holds.Keys == w.db.holds.Keys
            && forall id :: id in w.db.holds ==>
                 db.holds[id] == if id in page then w.db.holds[id].(status := Expired) else w.db.holds[id]
  {
    ReplayConsistent(w.log);
    Settlement.SweepEffect(w.db, page);
    ReplayConcat(EMPTY, w.log, Settlement.ExpireAll(page));
    forall id | id in page ensures id in w.db.holds && w.db.holds[id].status == Pending {
      assert exists i :: 0 <= i < |page| && page[i] == id;
    }
  }

  lemma SweepKeepsInv(w: World, page: seq<HoldId>, now: int)
    requires Inv(w)
    ensures Inv(Exec(w, Sweep(page, now)))
  {
    if Sweepable(w.db, page, now) {
      ExpireKeepsInv(w, page, now);
      PageExpired(w, page, now);
      SpawnKeepsInv(Expire(w, page), Reaping(page));
    }
  }

  lemma ExpireKeepsInv(w: World, page: seq<HoldId>, now: int)
    requires Inv(w) && Sweepable(w.db, page, now)
    ensures Inv(Expire(w, page))
  {
    SweepMeans(w, page, now);
    NewStoreKeepsInv(w, Expire(w, page).db, Expire(w, page).log);
  }

  lemma PageExpired(w: World, page: seq<HoldId>, now: int)
    requires LogOk(w) && Sweepable(w.db, page, now)
    ensures TaskOk(Expire(w, page).db, w.orders, w.next, Reaping(page))
  {
    SweepMeans(w, page, now);
    forall i | 0 <= i < |page| ensures page[i] in w.db.holds { assert Settlement.Expirable(w.db, now, page[i]); }
  }

  lemma ReserveKeepsInv(w: World, k: TaskId, grant: Grant)
    requires Inv(w) && k in w.tasks && w.tasks[k].Reserving?
    ensures Inv(Reserved(w, k, grant))
  {
    var t := w.tasks[k];
    var op := Reserve(t.event, grant.hold, k, t.quantity, grant.expiresAt);
    assert TaskOk(w.db, w.orders, k, t) && k < w.next;
    if Apply(w.db, op).Wrote? {
      CallLogOk(w, op);
      CallLater(w.db, op);
      NewHoldKeepsInv(w, k, Next(w.db, op), w.log + [op], grant.hold);
    } else {
      DropTask(w, k);
    }
  }

  /** One new PENDING reservation for the order that task `k` will insert. */
  lemma NewHoldKeepsInv(w: World, k: TaskId, db: Store, log: seq<Op>, id: HoldId)
    requires Inv(w) && k in w.tasks && w.tasks[k].Reserving? && Later(w.db, db) && LogOk(w.(db := db, log := log))
    requires id !in w.db.holds && db.holds.Keys == w.db.holds.Keys + {id}
    requires forall x :: x in w.db.holds ==> db.holds[x] == w.db.holds[x]
    requires var t, h := w.tasks[k], db.holds[id];
             h.event == t.event && h.order == k && h.quantity == t.quantity && h.status == Pending
    ensures var t := w.tasks[k];
            Inv(Become(w.(db := db, log := log), k, Inserting(t.user, t.event, t.quantity, t.key, id)))
  {
    var t := w.tasks[k];
    assert TaskOk(w.db, w.orders, k, t) && k < w.next;
    var w' := Become(w.(db := db, log := log), k, Inserting(t.user, t.event, t.quantity, t.key, id));
    TasksKept(w, w', k);
    OrdersSame(w, w');
    MailSame(w, w');
    IssuedKept(w, w');
    NewHoldOk(w, w', k, id);
  }

  lemma NewHoldOk(w: World, w': World, k: TaskId, id: HoldId)
    requires HoldsOk(w) && w'.orders == w.orders && w'.next == w.next && k < w.next
    requires id !in w.db.holds && w'.db.holds.Keys == w.db.holds.Keys + {id}
    requires forall x :: x in w.db.holds ==> w'.db.holds[x] == w.db.holds[x] && w.db.holds[x].order != k
    requires w'.db.holds[id].order == k && w'.db.holds[id].status == Pending
    ensures HoldsOk(w')
  {
  }

  lemma InsertKeepsInv(w: World, k: TaskId)
    requires Inv(w) && k in w.tasks && w.tasks[k].Inserting?
    ensures Inv(Inserted(w, k))
  {
    if KeyTaken(w, w.tasks[k].user, w.tasks[k].key) {
      DropTask(w, k);
    } else {
      NewOrderKeepsInv(w, k);
    }
  }

  /** The order that task `k` inserts. */
  function OrderOf(w: World, k: TaskId): Order
    requires k in w.tasks && w.tasks[k].Inserting?
  {
    var t := w.tasks[k];
    Order(t.user, t.event, t.hold, t.quantity, PendingOrder, t.key)
  }

  lemma NewOrderKeepsInv(w: World, k: TaskId)
    requires Inv(w) && k in w.tasks && w.tasks[k].Inserting? && !KeyTaken(w, w.tasks[k].user, w.tasks[k].key)
    ensures Inv(Inserted(w, k))
  {
    TaskIsOk(w, k);
    AddOrder(w, k, OrderOf(w, k));
    var w1 := w.(orders := w.orders[k := OrderOf(w, k)]);
    TasksWithOrder(w, Inserted(w, k), k, OrderOf(w, k));
    assert Inserted(w, k) == Become(w1, k, Announcing(k));
  }

  /** All of the invariant but the handlers, with one order more. */
  lemma AddOrder(w: World, k: OrderId, order: Order)
    requires Inv(w) && k !in w.orders && k < w.next && Linked(w.db, k, order) && order.status == PendingOrder
    requires !KeyTaken(w, order.user, order.key)
    ensures var w' := w.(orders := w.orders[k := order]);
            LogOk(w') && OrdersOk(w') && MailOk(w') && HoldsOk(w') && KeysOk(w') && IssuedOk(w')
  {
    var w' := w.(orders := w.orders[k := order]);
    OrderAdded(w, w', k, order);
    OrdersKept(w, w', k);
    MailSame(w, w');
    IssuedKept(w, w');
    NewOrderOk(w, w', k);
  }

  lemma OrderAdded(w: World, w': World, k: OrderId, order: Order)
    requires k !in w.orders && w' == w.(orders := w.orders[k := order])
    ensures Grows(w, w') && w'.orders.Keys == w.orders.Keys + {k} && forall o :: o in w.orders ==>
        w'.orders[o] == w.orders[o]
  {
  }

  lemma MailSame(w: World, w': World)
    requires MailOk(w) && Grows(w, w') && w'.mail == w.mail
    ensures MailOk(w')
  {
    forall m | m in w'.mail ensures MessageOk(w'.db, w'.orders, m) { assert MessageOk(w.db, w.orders, m); }
  }

  lemma TasksWithOrder(w: World, w': World, k: TaskId, order: Order)
    requires TasksOk(w) && k in w.tasks && k < w.next && k !in w.orders && order.hold in w.db.holds
    requires w'.tasks == w.tasks[k := Announcing(k)] && w'.orders == w.orders[k := order] && w'.db == w.db
    requires w'.next == w.next
    ensures TasksOk(w')
  {
    TasksKept(w, w', k);
  }

  lemma NewOrderOk(w: World, w': World, k: TaskId)
    requires HoldsOk(w) && KeysOk(w) && k !in w.orders && w'.db == w.db && w'.next == w.next
    requires w'.orders.Keys == w.orders.Keys + {k} && forall o :: o in w.orders ==> w'.orders[o] == w.orders[o]
    requires !KeyTaken(w, w'.orders[k].user, w'.orders[k].key)
    ensures HoldsOk(w') && KeysOk(w')
  {
    forall a, b | a in w'.orders && b in w'.orders && SameKey(w'.orders[a], w'.orders[b]) ensures a == b {
      assert a in w.orders && b in w.orders ==> SameKey(w.orders[a], w.orders[b]);
    }
  }

  lemma SettleKeepsInv(w: World, k: TaskId)
    requires Inv(w) && k in w.tasks && w.tasks[k].Paying?
    ensures Inv(Settled(w, k))
  {
    var t := w.tasks[k];
    TaskIsOk(w, k);
    var op := SettleOp(w, t);
    if t.success { ConfirmCallKeepsInv(w, t.order); } else { QuietCallKeepsInv(w, op); }
    SettledIs(w, k);
    BecomeKeepsInv(Call(w, op), k, Settling(t.order, t.success, Call(w, op).db.holds[op.id].status));
  }

  /** The call of a payment handler. */
  function SettleOp(w: World, t: Task): Op
    requires t.Paying? && t.order in w.orders
  {
    var id := w.orders[t.order].hold;
    if t.success then Confirm(id) else Release(id, false)
  }

  lemma SettledIs(w: World, k: TaskId)
    requires k in w.tasks && w.tasks[k].Paying? && Known(w.db, w.orders, w.tasks[k].order)
    ensures var t := w.tasks[k];
            var w1 := Call(w, SettleOp(w, t));
            && k in w1.tasks && SettleOp(w, t).id in w1.db.holds
            && var task := Settling(t.order, t.success, w1.db.holds[SettleOp(w, t).id].status);
               Settled(w, k) == Become(w1, k, task) && TaskOk(w1.db, w1.orders, k, task)
  {
    SettledStatus(w.db, w.orders[w.tasks[k].order].hold, w.tasks[k].success);
  }

  lemma SettledStatus(db: Store, id: HoldId, success: bool)
    requires id in db.holds
    ensures var op := if success then Confirm(id) else Release(id, false);
            id in Next(db, op).holds && Next(db, op).holds[id].status != Pending
            && (!success ==> Next(db, op).holds[id].status.Dead())
  {
  }

  lemma BecomeKeepsInv(w: World, k: TaskId, task: Task)
    requires Inv(w) && k in w.tasks && TaskOk(w.db, w.orders, k, task)
    ensures Inv(Become(w, k, task))
  {
    TasksKept(w, Become(w, k, task), k);
  }

  /** Confirming the reservation of an existing order. */
  lemma ConfirmCallKeepsInv(w: World, o: OrderId)
    requires Inv(w) && o in w.orders
    ensures Inv(Call(w, Confirm(w.orders[o].hold)))
  {
    var op := Confirm(w.orders[o].hold);
    CallLogOk(w, op);
    CallLater(w.db, op);
    var w' := Call(w, op);
    assert w'.db == Next(w.db, op) && w' == w.(db := w'.db, log := w'.log);
    TasksKept(w, w', w.next);
    OrdersSame(w, w');
    MailSame(w, w');
    IssuedKept(w, w');
    ConfirmedHoldOk(w, w', o);
  }

  lemma ConfirmedHoldOk(w: World, w': World, o: OrderId)
    requires HoldsOk(w) && OrdersOk(w) && o in w.orders && w'.orders == w.orders && w'.next == w.next
    requires w'.db == Next(w.db, Confirm(w.orders[o].hold))
    ensures HoldsOk(w')
  {
    assert Linked(w.db, o, w.orders[o]);
  }

  /** Overwriting an order's status in step with its reservation. */
  lemma SetStatusKeepsInv(w: World, o: OrderId, status: OrderStatus)
    requires Inv(w) && o in w.orders && StatusesAgree(status, w.db.holds[w.orders[o].hold].status)
    ensures Inv(SetStatus(w, o, status))
  {
    var w' := SetStatus(w, o, status);
    StatusGrows(w, o, status);
    StatusTasksOk(w, o, status);
    OrdersKept(w, w', o);
    MailSame(w, w');
    IssuedKept(w, w');
    KeysKept(w, w');
    HoldsKept(w, w');
  }

  lemma StatusGrows(w: World, o: OrderId, status: OrderStatus)
    requires o in w.orders
    ensures Grows(w, SetStatus(w, o, status))
  {
  }

  lemma StatusTasksOk(w: World, o: OrderId, status: OrderStatus)
    requires TasksOk(w) && o in w.orders
    ensures TasksOk(SetStatus(w, o, status))
  {
    var w' := SetStatus(w, o, status);
    assert w.next !in w'.tasks;
    TasksKept(w, w', w.next);
  }

  lemma StoreKeepsInv(w: World, k: TaskId)
    requires Inv(w) && k in w.tasks && w.tasks[k].Settling?
    ensures Inv(Stored(w, k))
  {
    var t := w.tasks[k];
    TaskIsOk(w, k);
    var w1 := SetStatus(w, t.order, if t.success then ConfirmedOrder else CancelledOrder);
    SetStatusKeepsInv(w, t.order, if t.success then ConfirmedOrder else CancelledOrder);
    if t.success {
      BecomeKeepsInv(w1, k, Issuing(t.order));
      LateIsHistory(Become(w1, k, Issuing(t.order)), if t.seen.Dead() then w.late + {t.order} else w.late);
    } else {
      DropTask(w1, k);
    }
  }

  lemma LateIsHistory(w: World, late: set<OrderId>)
    requires Inv(w)
    ensures Inv(w.(late := late))
  {
  }

  lemma TornIsHistory(w: World, torn: set<OrderId>)
    requires Inv(w)
    ensures Inv(w.(torn := torn))
  {
  }

  lemma DropKeepsInv(w: World, k: TaskId)
    requires Inv(w) && k in w.tasks && w.tasks[k].Cancelling?
    ensures Inv(Dropped(w, k))
  {
    var o := w.tasks[k].order;
    TaskIsOk(w, k);
    var id := w.orders[o].hold;
    var w1 := Call(w, Release(id, false));
    QuietCallKeepsInv(w, Release(id, false));
    SettledStatus(w.db, id, false);
    BecomeKeepsInv(w1, k, Dropping(o));
    TornIsHistory(Become(w1, k, Dropping(o)), if Is(w, o, ConfirmedOrder) then w.torn + {o} else w.torn);
  }

  lemma StoreStatusKeepsInv(w: World, k: TaskId, status: OrderStatus)
    requires Inv(w) && k in w.tasks
    requires (w.tasks[k].Dropping? && status == CancelledOrder) || (w.tasks[k].Lapsing? && status == ExpiredOrder)
    ensures Inv(Finish(SetStatus(w, w.tasks[k].order, status), k))
  {
    TaskIsOk(w, k);
    SetStatusKeepsInv(w, w.tasks[k].order, status);
    DropTask(SetStatus(w, w.tasks[k].order, status), k);
  }

  lemma OrderIsKnown(w: World, o: OrderId)
    requires OrdersOk(w) && o in w.orders
    ensures Known(w.db, w.orders, o)
  {
    assert Linked(w.db, o, w.orders[o]);
  }

  lemma NumberIsNew(w: World)
    requires OrdersOk(w) && HoldsOk(w)
    ensures w.next !in w.orders && forall id :: id in w.db.holds ==> w.db.holds[id].order != w.next
  {
  }

  lemma StartKeepsInv(w: World, step: Step)
    requires Inv(w) && (step.StartBooking? || step.StartPayment? || step.StartCancel? || step.StartLapse?)
    ensures Inv(Exec(w, step))
  {
    match step
    case StartBooking(user, e, q, key) =>
      NumberIsNew(w);
      SpawnKeepsInv(w, Reserving(user, e, q, key));
    case StartPayment(o, success) =>
      if Is(w, o, PendingOrder) {
        OrderIsKnown(w, o);
        SpawnKeepsInv(w, Paying(o, success));
      }
    case StartCancel(o) =>
      if o in w.orders {
        OrderIsKnown(w, o);
        SpawnKeepsInv(w, Cancelling(o));
      }
    case StartLapse(o, id) =>
      if ReservationExpired(o, id) in w.mail && Is(w, o, PendingOrder) {
        NoticeIsTrue(w, o, id);
        SpawnKeepsInv(w, Lapsing(o));
      }
  }

  /** An expiry notice names the order's own reservation, and it is EXPIRED. */
  lemma NoticeIsTrue(w: World, o: OrderId, id: HoldId)
    requires OrdersOk(w) && MailOk(w) && HoldsOk(w) && o in w.orders && ReservationExpired(o, id) in w.mail
    ensures Known(w.db, w.orders, o) && HoldOf(w.db, w.orders, o) == Expired
  {
    assert MessageOk(w.db, w.orders, ReservationExpired(o, id));
    assert Linked(w.db, o, w.orders[o]);
  }

  lemma AnnounceKeepsInv(w: World, k: TaskId)
    requires Inv(w) && k in w.tasks && w.tasks[k].Announcing?
    ensures Inv(Exec(w, Announce(k)))
  {
    assert TaskOk(w.db, w.orders, k, w.tasks[k]);
    FinishKeepsInv(w, k, {OrderCreated(w.tasks[k].order)});
  }

  lemma PublishExpiredKeepsInv(w: World, k: TaskId)
    requires Inv(w) && k in w.tasks && w.tasks[k].Reaping?
    ensures Inv(Exec(w, PublishExpired(k)))
  {
    if w.tasks[k].holds != [] {
      ReapingOk(w, k);
      FirstNoticeKeepsInv(w, k);
    }
  }

  lemma FirstNoticeKeepsInv(w: World, k: TaskId)
    requires Inv(w) && k in w.tasks && w.tasks[k].Reaping? && w.tasks[k].holds != []
    requires var holds := w.tasks[k].holds;
             && holds[0] in w.db.holds && TaskOk(w.db, w.orders, k, Reaping(holds[1..]))
             && MessageOk(w.db, w.orders, ReservationExpired(w.db.holds[holds[0]].order, holds[0]))
    ensures Inv(Exec(w, PublishExpired(k)))
  {
    var holds := w.tasks[k].holds;
    var mail := {ReservationExpired(w.db.holds[holds[0]].order, holds[0])};
    PublishKeepsInv(w, mail);
    ToldKeepsInv(w.(mail := w.mail + mail), k);
    ToldIs(w, k);
  }

  lemma ToldIs(w: World, k: TaskId)
    requires k in w.tasks && w.tasks[k].Reaping? && w.tasks[k].holds != [] && w.tasks[k].holds[0] in w.db.holds
    ensures var holds := w.tasks[k].holds;
            var w1 := w.(mail := w.mail + {ReservationExpired(w.db.holds[holds[0]].order, holds[0])});
            Exec(w, PublishExpired(k)) == if |holds| == 1 then Finish(w1, k) else Become(w1, k, Reaping(holds[1..]))
  {
  }

  lemma ToldKeepsInv(w: World, k: TaskId)
    requires Inv(w) && k in w.tasks && w.tasks[k].Reaping? && w.tasks[k].holds != []
    requires TaskOk(w.db, w.orders, k, Reaping(w.tasks[k].holds[1..]))
    ensures Inv(if |w.tasks[k].holds| == 1 then Finish(w, k) else Become(w, k, Reaping(w.tasks[k].holds[1..])))
  {
    if |w.tasks[k].holds| == 1 { DropTask(w, k); } else { BecomeKeepsInv(w, k, Reaping(w.tasks[k].holds[1..])); }
  }

  lemma ReapingOk(w: World, k: TaskId)
    requires TasksOk(w) && k in w.tasks && w.tasks[k].Reaping? && w.tasks[k].holds != []
    ensures var holds := w.tasks[k].holds;
            && k < w.next && holds[0] in w.db.holds
            && MessageOk(w.db, w.orders, ReservationExpired(w.db.holds[holds[0]].order, holds[0]))
            && TaskOk(w.db, w.orders, k, Reaping(holds[1..]))
  {
    assert TaskOk(w.db, w.orders, k, w.tasks[k]);
  }

  lemma PublishKeepsInv(w: World, mail: set<Message>)
    requires Inv(w) && forall m :: m in mail ==> MessageOk(w.db, w.orders, m)
    ensures Inv(w.(mail := w.mail + mail))
  {
    MailKept(w, w.(mail := w.mail + mail), mail);
  }

  lemma ChargeKeepsInv(w: World, o: OrderId, success: bool)
    requires Inv(w)
    ensures Inv(Exec(w, Charge(o, success)))
  {
    if OrderCreated(o) in w.mail {
      assert MessageOk(w.db, w.orders, OrderCreated(o));
      PublishKeepsInv(w, {PaymentProcessed(o, success)});
    }
  }

  /** The steps of a booking and of its payment. */
  lemma BookingKeepsInv(w: World, step: Step)
    requires Inv(w)
    requires step.CallReserve? || step.Insert? || step.Announce? || step.Charge? || step.CallSettle?
        || step.StoreSettled? || step.Issue?
    ensures Inv(Exec(w, step))
  {
    match step
    case CallReserve(k, grant) => if k in w.tasks && w.tasks[k].Reserving? { ReserveKeepsInv(w, k, grant); }
    case Insert(k) => if k in w.tasks && w.tasks[k].Inserting? { InsertKeepsInv(w, k); }
    case Announce(k) => if k in w.tasks && w.tasks[k].Announcing? { AnnounceKeepsInv(w, k); }
    case Charge(o, success) => ChargeKeepsInv(w, o, success);
    case CallSettle(k) => if k in w.tasks && w.tasks[k].Paying? { SettleKeepsInv(w, k); }
    case StoreSettled(k) => if k in w.tasks && w.tasks[k].Settling? { StoreKeepsInv(w, k); }
    case Issue(k) => if k in w.tasks && w.tasks[k].Issuing? { IssueKeepsInv(w, k); }
  }

  /** The steps of cancellations and expiries. */
  lemma EndingKeepsInv(w: World, step: Step)
    requires Inv(w)
    requires step.CallRelease? || step.StoreCancelled? || step.Sweep? || step.PublishExpired? || step.StoreLapsed?
    ensures Inv(Exec(w, step))
  {
    match step
    case CallRelease(k) => if k in w.tasks && w.tasks[k].Cancelling? { DropKeepsInv(w, k); }
    case StoreCancelled(k) => if k in w.tasks && w.tasks[k].Dropping? { StoreStatusKeepsInv(w, k, CancelledOrder); }
    case Sweep(page, now) => SweepKeepsInv(w, page, now);
    case PublishExpired(k) => if k in w.tasks && w.tasks[k].Reaping? { PublishExpiredKeepsInv(w, k); }
    case StoreLapsed(k) => if k in w.tasks && w.tasks[k].Lapsing? { StoreStatusKeepsInv(w, k, ExpiredOrder); }
  }

  lemma ExecKeepsInv(w: World, step: Step)
    requires Inv(w)
    ensures Inv(Exec(w, step))
  {
    match step
    case Stock(e, c, create) => QuietCallKeepsInv(w, if create then Initialize(e, c) else Adjust(e, c));
    case Crash(k) => DropTask(w, k);
    case StartBooking(_, _, _, _) => StartKeepsInv(w, step);
    case StartPayment(_, _) => StartKeepsInv(w, step);
    case StartCancel(_) => StartKeepsInv(w, step);
    case StartLapse(_, _) => StartKeepsInv(w, step);
    case CallRelease(_) => EndingKeepsInv(w, step);
    case StoreCancelled(_) => EndingKeepsInv(w, step);
    case Sweep(_, _) => EndingKeepsInv(w, step);
    case PublishExpired(_) => EndingKeepsInv(w, step);
    case StoreLapsed(_) => EndingKeepsInv(w, step);
    case _ => BookingKeepsInv(w, step);
  }

  lemma {:induction false} Reachable(steps: seq<Step>)
    ensures Inv(Run(START, steps))
  {
    if steps != [] {
      Reachable(steps[..|steps| - 1]);
      ExecKeepsInv(Run(START, steps[..|steps| - 1]), steps[|steps| - 1]);
    }
  }
}
