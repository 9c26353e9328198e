/** When a CONFIRMED order really has its seats. Order rows carry no version and `confirm` quietly accepts
  * a dead reservation, so this needs handlers of one order not to overlap; and even then it has two
  * exceptions, which are shown to be the only ones. Every hypothesis is about the order in question. */
module SerialOrders {
  import opened Inventory
  import opened CommitLog
  import opened Orders
  import opened OrderInvariants

  /** The handlers that read an order, call inventory and overwrite the order's status. */
  predicate Handles(task: Task, o: OrderId) {
    match task
    case Paying(o', _) => o' == o
    case Settling(o', _, _) => o' == o
    case Cancelling(o') => o' == o
    case Dropping(o') => o' == o
    case Lapsing(o') => o' == o
    case _ => false
  }

  predicate InFlight(w: World, o: OrderId) { exists k :: k in w.tasks && Handles(w.tasks[k], o) }

  /** No handler of order `o` starts while another one of it is in flight. */
  predicate MayStart(w: World, step: Step, o: OrderId) {
    match step
    case StartPayment(x, _) => x == o ==> !InFlight(w, o)
    case StartCancel(x) => x == o ==> !InFlight(w, o)
    case StartLapse(x, _) => x == o ==> !InFlight(w, o)
    case _ => true
  }

  predicate SerialHandlers(steps: seq<Step>, o: OrderId) {
    steps == [] ||
    (SerialHandlers(steps[..|steps| - 1], o) && MayStart(Run(START, steps[..|steps| - 1]), steps[|steps| - 1], o))
  }

  /** The order as a handler in flight finds it. */
  ghost predicate HandlerOk(w: World, task: Task) {
    match task
    case Paying(o, _) => Is(w, o, PendingOrder)
    case Settling(o, success, seen) =>
      Is(w, o, PendingOrder) && Known(w.db, w.orders, o) && (seen == Confirmed ==>
        HoldOf(w.db, w.orders, o) == Confirmed)
    case Cancelling(o) => Is(w, o, PendingOrder) || Is(w, o, ConfirmedOrder)
    case Dropping(o) => Is(w, o, PendingOrder) || (Is(w, o, ConfirmedOrder) && o in w.torn)
    case Lapsing(o) => Is(w, o, PendingOrder)
    case _ => true
  }

  /** The exceptions are settled orders without seats; a CONFIRMED order that is none has its seats. */
  ghost predicate SeatOk(w: World, o: OrderId) {
    && (o in w.late || o in w.torn ==>
          o in w.orders && w.orders[o].status != PendingOrder && Known(w.db, w.orders, o)
            && HoldOf(w.db, w.orders, o).Dead())
    && (Is(w, o, ConfirmedOrder) && o !in w.late && o !in w.torn ==>
          Known(w.db, w.orders, o) && HoldOf(w.db, w.orders, o) == Confirmed)
  }

  ghost predicate Serial(w: World, o: OrderId) {
    && (forall j, k :: j in w.tasks && k in w.tasks && Handles(w.tasks[j], o) && Handles(w.tasks[k], o) ==> j == k)
    && (forall k :: k in w.tasks && Handles(w.tasks[k], o) ==> HandlerOk(w, w.tasks[k]))
    && SeatOk(w, o)
  }

  // ----- steps that leave an order alone -----

  /** The reservation behind `o`, if it was settled, and the order itself are as before, and so is its history. */
  ghost predicate Untouched(w: World, w': World, o: OrderId) {
    && o in w.orders && o in w'.orders && w'.orders[o] == w.orders[o]
    && Known(w.db, w.orders, o) && Known(w'.db, w'.orders, o)
    && (HoldOf(w.db, w.orders, o) != Pending ==> HoldOf(w'.db, w'.orders, o) == HoldOf(w.db, w.orders, o))
    && (o in w'.late <==> o in w.late) && (o in w'.torn <==> o in w.torn)
  }

  /** No handler of `o` is new or changed. */
  predicate SameHandlers(w: World, w': World, o: OrderId) {
    forall j :: j in w'.tasks && Handles(w'.tasks[j], o) ==> j in w.tasks && w'.tasks[j] == w.tasks[j]
  }

  ghost predicate Aside(w: World, w': World, o: OrderId) {
    && SameHandlers(w, w', o)
    && (o in w.orders ==> Untouched(w, w', o))
    && (o !in w.orders ==> (o in w'.orders ==> w'.orders[o].status == PendingOrder) && o !in w'.late && o !in w'.torn)
  }

  lemma HandlerOfKnown(w: World, o: OrderId, k: TaskId)
    requires Inv(w) && k in w.tasks && Handles(w.tasks[k], o)
    ensures Known(w.db, w.orders, o)
  {
    assert TaskOk(w.db, w.orders, k, w.tasks[k]);
  }

  lemma AsideKeepsSerial(w: World, w': World, o: OrderId)
    requires Inv(w) && Serial(w, o) && Aside(w, w', o)
    ensures Serial(w', o)
  {
    forall k | k in w'.tasks && Handles(w'.tasks[k], o) ensures HandlerOk(w', w'.tasks[k]) {
      HandlerOfKnown(w, o, k);
      assert HandlerOk(w, w.tasks[k]);
    }
  }

  /** After a step of `o`'s own handler `k`, the only one there is. */
  lemma OwnKeepsSerial(w': World, o: OrderId, k: TaskId)
    requires forall j :: j in w'.tasks && Handles(w'.tasks[j], o) ==> j == k && HandlerOk(w', w'.tasks[k])
    requires SeatOk(w', o)
    ensures Serial(w', o)
  {
  }

  /** A call on one reservation leaves the orders behind the others alone. */
  lemma CallElsewhere(w: World, op: Op, o: OrderId)
    requires Inv(w) && (o in w.orders && (op.Confirm? || op.Release?) ==> op.id != w.orders[o].hold)
    ensures o in w.orders ==> Untouched(w, Call(w, op), o)
  {
    if o in w.orders { assert Linked(w.db, o, w.orders[o]); }
  }

  lemma DistinctHolds(w: World, a: OrderId, b: OrderId)
    requires Inv(w) && a in w.orders && b in w.orders && a != b
    ensures w.orders[a].hold != w.orders[b].hold
  {
    assert Linked(w.db, a, w.orders[a]) && Linked(w.db, b, w.orders[b]);
  }

  lemma SameStoreAside(w: World, w': World, o: OrderId)
    requires Inv(w) && Serial(w, o) && w'.db == w.db && SameHandlers(w, w', o)
    requires (o in w'.orders <==> o in w.orders) && (o in w.orders ==> w'.orders[o] == w.orders[o])
    requires (o in w'.late <==> o in w.late) && (o in w'.torn <==> o in w.torn)
    ensures Serial(w', o)
  {
    if o in w.orders { assert Linked(w.db, o, w.orders[o]); }
    AsideKeepsSerial(w, w', o);
  }

  // ----- each step -----

  lemma StartKeepsSerial(w: World, task: Task, o: OrderId)
    requires Inv(w) && Serial(w, o) && HandlerOk(w, task) && (Handles(task, o) ==> !InFlight(w, o))
    ensures Serial(Spawn(w, task), o)
  {
    var w' := Spawn(w, task);
    if Handles(task, o) {
      OwnKeepsSerial(w', o, w.next);
    } else {
      assert w.next !in w.tasks;
      SameStoreAside(w, w', o);
    }
  }

  lemma StartStepKeepsSerial(w: World, step: Step, o: OrderId)
    requires Inv(w) && Serial(w, o) && MayStart(w, step, o)
    requires step.StartBooking? || step.StartPayment? || step.StartCancel? || step.StartLapse?
    ensures Serial(Exec(w, step), o)
  {
    if Exec(w, step) != w {
      var task := Exec(w, step).tasks[w.next];
      Started(w, step, o);
      StartKeepsSerial(w, task, o);
    }
  }

  /** A handler that starts finds its order as it should be. */
  lemma Started(w: World, step: Step, o: OrderId)
    requires step.StartBooking? || step.StartPayment? || step.StartCancel? || step.StartLapse?
    requires MayStart(w, step, o) && Exec(w, step) != w
    ensures var w' := Exec(w, step);
            && w.next in w'.tasks && w' == Spawn(w, w'.tasks[w.next]) && HandlerOk(w, w'.tasks[w.next])
            && (Handles(w'.tasks[w.next], o) ==> !InFlight(w, o))
  {
  }

  lemma StoreKeepsSerial(w: World, k: TaskId, o: OrderId)
    requires Inv(w) && Serial(w, o) && k in w.tasks && w.tasks[k].Settling?
    ensures Serial(Stored(w, k), o)
  {
    var t := w.tasks[k];
    assert TaskOk(w.db, w.orders, k, t);
    if t.order == o {
      assert Handles(t, o) && HandlerOk(w, t);
      OwnKeepsSerial(Stored(w, k), o, k);
    } else {
      SameStoreAside(w, Stored(w, k), o);
    }
  }

  lemma SettleKeepsSerial(w: World, k: TaskId, o: OrderId)
    requires Inv(w) && Serial(w, o) && k in w.tasks && w.tasks[k].Paying?
    ensures Serial(Settled(w, k), o)
  {
    var t := w.tasks[k];
    assert TaskOk(w.db, w.orders, k, t);
    if t.order == o { SettleOwn(w, k); } else { SettleOther(w, k, o); }
  }

  lemma SettleOwn(w: World, k: TaskId)
    requires k in w.tasks && w.tasks[k].Paying? && Known(w.db, w.orders, w.tasks[k].order)
    requires Serial(w, w.tasks[k].order)
    ensures Serial(Settled(w, k), w.tasks[k].order)
  {
    var t := w.tasks[k];
    assert Handles(t, t.order) && HandlerOk(w, t);
    SettledStatus(w.db, w.orders[t.order].hold, t.success);
    OwnKeepsSerial(Settled(w, k), t.order, k);
  }

  /** A call for another order. */
  lemma CallAside(w: World, w': World, x: OrderId, op: Op, k: TaskId, o: OrderId)
    requires Inv(w) && Serial(w, o) && x in w.orders && x != o && (op.Confirm? || op.Release?)
    requires op.id == w.orders[x].hold
    requires w'.db == Next(w.db, op) && w'.orders == w.orders && (o in w'.late <==> o in w.late)
    requires (o in w'.torn <==> o in w.torn)
    requires k in w'.tasks && w'.tasks == w.tasks[k := w'.tasks[k]] && !Handles(w'.tasks[k], o)
    ensures Serial(w', o)
  {
    if o in w.orders {
      DistinctHolds(w, x, o);
      CallElsewhere(w, op, o);
    }
    AsideKeepsSerial(w, w', o);
  }

  lemma SettleOther(w: World, k: TaskId, o: OrderId)
    requires Inv(w) && Serial(w, o) && k in w.tasks && w.tasks[k].Paying? && w.tasks[k].order != o
    requires Known(w.db, w.orders, w.tasks[k].order)
    ensures Serial(Settled(w, k), o)
  {
    SettledIs(w, k);
    CallAside(w, Settled(w, k), w.tasks[k].order, SettleOp(w, w.tasks[k]), k, o);
  }

  lemma DropKeepsSerial(w: World, k: TaskId, o: OrderId)
    requires Inv(w) && Serial(w, o) && k in w.tasks && w.tasks[k].Cancelling?
    ensures Serial(Dropped(w, k), o)
  {
    TaskIsOk(w, k);
    var x := w.tasks[k].order;
    if x == o {
      DropOwn(w, k);
    } else {
      CallAside(w, Dropped(w, k), x, Release(w.orders[x].hold, false), k, o);
    }
  }

  lemma DropOwn(w: World, k: TaskId)
    requires k in w.tasks && w.tasks[k].Cancelling? && Known(w.db, w.orders, w.tasks[k].order)
    requires Serial(w, w.tasks[k].order)
    ensures Serial(Dropped(w, k), w.tasks[k].order)
  {
    var o := w.tasks[k].order;
    assert Handles(w.tasks[k], o) && HandlerOk(w, w.tasks[k]);
    SettledStatus(w.db, w.orders[o].hold, false);
    OwnKeepsSerial(Dropped(w, k), o, k);
  }

  lemma StatusKeepsSerial(w: World, k: TaskId, status: OrderStatus, o: OrderId)
    requires Inv(w) && Serial(w, o) && k in w.tasks && (w.tasks[k].Dropping? || w.tasks[k].Lapsing?)
    requires status == CancelledOrder || status == ExpiredOrder
    ensures Serial(Finish(SetStatus(w, w.tasks[k].order, status), k), o)
  {
    var t := w.tasks[k];
    assert TaskOk(w.db, w.orders, k, t);
    var w' := Finish(SetStatus(w, t.order, status), k);
    if t.order == o {
      assert Handles(t, o);
      OwnKeepsSerial(w', o, k);
    } else {
      SameStoreAside(w, w', o);
    }
  }

  lemma SweepKeepsSerial(w: World, page: seq<HoldId>, now: int, o: OrderId)
    requires Inv(w) && Serial(w, o)
    ensures Serial(Exec(w, Sweep(page, now)), o)
  {
    if Sweepable(w.db, page, now) {
      if o in w.orders { SweptUntouched(w, page, now, o); }
      SweptHandlers(w, page, now, o);
      AsideKeepsSerial(w, Exec(w, Sweep(page, now)), o);
    }
  }

  lemma SweptHandlers(w: World, page: seq<HoldId>, now: int, o: OrderId)
    requires TasksOk(w)
    ensures SameHandlers(w, Exec(w, Sweep(page, now)), o)
  {
    assert w.next !in w.tasks;
  }

  lemma SweptUntouched(w: World, page: seq<HoldId>, now: int, o: OrderId)
    requires LogOk(w) && OrdersOk(w) && Sweepable(w.db, page, now) && o in w.orders
    ensures Untouched(w, Exec(w, Sweep(page, now)), o)
  {
    OrderIsKnown(w, o);
    SweptHold(w, page, now, w.orders[o].hold);
    PageIsPending(w.db, page, now, w.orders[o].hold);
    StillUntouched(w, Exec(w, Sweep(page, now)), page, o);
  }

  lemma SweptHold(w: World, page: seq<HoldId>, now: int, id: HoldId)
    requires LogOk(w) && Sweepable(w.db, page, now) && id in w.db.holds
    ensures var w' := Exec(w, Sweep(page, now));
            && w'.orders == w.orders && w'.late == w.late && w'.torn == w.torn
            && id in w'.db.holds && (id !in page ==> w'.db.holds[id] == w.db.holds[id])
  {
    SweepMeans(w, page, now);
  }

  lemma StillUntouched(w: World, w': World, page: seq<HoldId>, o: OrderId)
    requires Known(w.db, w.orders, o) && w'.orders == w.orders && w'.late == w.late && w'.torn == w.torn
    requires w.orders[o].hold in w'.db.holds && (w.orders[o].hold in page ==> HoldOf(w.db, w.orders, o) == Pending)
    requires w.orders[o].hold !in page ==> w'.db.holds[w.orders[o].hold] == w.db.holds[w.orders[o].hold]
    ensures Untouched(w, w', o)
  {
  }

  lemma PageIsPending(db: Store, page: seq<HoldId>, now: int, id: HoldId)
    requires Sweepable(db, page, now)
    ensures id in page ==> id in db.holds && db.holds[id].status == Pending
  {
    if id in page { assert exists i :: 0 <= i < |page| && page[i] == id; }
  }

  lemma StockKeepsSerial(w: World, op: Op, o: OrderId)
    requires Inv(w) && Serial(w, o) && (op.Initialize? || op.Adjust?)
    ensures Serial(Call(w, op), o)
  {
    CallElsewhere(w, op, o);
    AsideKeepsSerial(w, Call(w, op), o);
  }

  lemma ReserveKeepsSerial(w: World, k: TaskId, grant: Grant, o: OrderId)
    requires Inv(w) && Serial(w, o) && k in w.tasks && w.tasks[k].Reserving?
    ensures Serial(Reserved(w, k, grant), o)
  {
    var t := w.tasks[k];
    var op := Reserve(t.event, grant.hold, k, t.quantity, grant.expiresAt);
    if Apply(w.db, op).Wrote? {
      CallElsewhere(w, op, o);
      AsideKeepsSerial(w, Reserved(w, k, grant), o);
    } else {
      SameStoreAside(w, Finish(w, k), o);
    }
  }

  lemma InsertKeepsSerial(w: World, k: TaskId, o: OrderId)
    requires Inv(w) && Serial(w, o) && k in w.tasks && w.tasks[k].Inserting?
    ensures Serial(Inserted(w, k), o)
  {
    TaskIsOk(w, k);
    if o in w.orders { OrderIsKnown(w, o); }
    InsertedAside(w, k, o);
    AsideKeepsSerial(w, Inserted(w, k), o);
  }

  lemma InsertedAside(w: World, k: TaskId, o: OrderId)
    requires k in w.tasks && w.tasks[k].Inserting? && k !in w.orders && SeatOk(w, o)
    requires (o in w.orders ==> Known(w.db, w.orders, o))
    ensures Aside(w, Inserted(w, k), o)
  {
  }

  /** Messages, tickets and crashes. */
  lemma MessageKeepsSerial(w: World, step: Step, o: OrderId)
    requires Inv(w) && Serial(w, o)
    requires (step.Charge? || step.Announce? || step.Issue? || step.Crash? || step.PublishExpired?)
    ensures Serial(Exec(w, step), o)
  {
    MessageSame(w, step, o);
    SameStoreAside(w, Exec(w, step), o);
  }

  lemma MessageSame(w: World, step: Step, o: OrderId)
    requires step.Charge? || step.Announce? || step.Issue? || step.Crash? || step.PublishExpired?
    ensures var w' := Exec(w, step);
            w'.db == w.db && w'.orders == w.orders && w'.late == w.late && w'.torn == w.torn && SameHandlers(w, w', o)
  {
  }

  lemma ExecKeepsSerial(w: World, step: Step, o: OrderId)
    requires Inv(w) && Serial(w, o) && MayStart(w, step, o)
    ensures Serial(Exec(w, step), o)
  {
    match step
    case Stock(e, c, create) => StockKeepsSerial(w, if create then Initialize(e, c) else Adjust(e, c), o);
    case StartBooking(_, _, _, _) => StartStepKeepsSerial(w, step, o);
    case StartPayment(_, _) => StartStepKeepsSerial(w, step, o);
    case StartCancel(_) => StartStepKeepsSerial(w, step, o);
    case StartLapse(_, _) => StartStepKeepsSerial(w, step, o);
    case Sweep(page, now) => SweepKeepsSerial(w, page, now, o);
    case CallReserve(k, grant) => if k in w.tasks && w.tasks[k].Reserving? { ReserveKeepsSerial(w, k, grant, o); }
    case Insert(k) => if k in w.tasks && w.tasks[k].Inserting? { InsertKeepsSerial(w, k, o); }
    case CallSettle(k) => if k in w.tasks && w.tasks[k].Paying? { SettleKeepsSerial(w, k, o); }
    case StoreSettled(k) => if k in w.tasks && w.tasks[k].Settling? { StoreKeepsSerial(w, k, o); }
    case CallRelease(k) => if k in w.tasks && w.tasks[k].Cancelling? { DropKeepsSerial(w, k, o); }
    case StoreCancelled(k) => if k in w.tasks && w.tasks[k].Dropping? { StatusKeepsSerial(w, k, CancelledOrder, o); }
    case StoreLapsed(k) => if k in w.tasks && w.tasks[k].Lapsing? { StatusKeepsSerial(w, k, ExpiredOrder, o); }
    case _ => MessageKeepsSerial(w, step, o);
  }

  lemma {:induction false} SerialReachable(steps: seq<Step>, o: OrderId)
    requires SerialHandlers(steps, o)
    ensures Inv(Run(START, steps)) && Serial(Run(START, steps), o)
  {
    Reachable(steps);
    if steps != [] {
      var before := steps[..|steps| - 1];
      SerialReachable(before, o);
      ExecKeepsSerial(Run(START, before), steps[|steps| - 1], o);
    }
  }

  /** Which CONFIRMED orders have their seats: all but those whose confirmation was answered with a dead
    * reservation (`late`), and those whose reservation a cancellation released while they were CONFIRMED
    * and which it has not stored as CANCELLED (`torn`). The handlers do not look: the client of the
    * confirm call drops the status in the answer, and cancelling a CONFIRMED order is allowed. */
  lemma ConfirmedOrderHasSeats(steps: seq<Step>, o: OrderId)
    requires SerialHandlers(steps, o) && Is(Run(START, steps), o, ConfirmedOrder)
    ensures var w := Run(START, steps);
            Known(w.db, w.orders, o) && (HoldOf(w.db, w.orders, o) == Confirmed <==> o !in w.late && o !in w.torn)
  {
    SerialReachable(steps, o);
  }

  // ----- exactly which steps take the seats of a CONFIRMED order -----

  ghost predicate Seated(w: World, o: OrderId) {
    Is(w, o, ConfirmedOrder) ==> Known(w.db, w.orders, o) && HoldOf(w.db, w.orders, o) == Confirmed
  }

  /** Storing CONFIRMED on a dead reservation's answer, or releasing the reservation of a CONFIRMED order. */
  predicate Loses(w: World, step: Step, o: OrderId) {
    match step
    case StoreSettled(k) => k in w.tasks && w.tasks[k].Settling? && w.tasks[k].order == o && w.tasks[k].success
        && w.tasks[k].seen.Dead()
    case CallRelease(k) => k in w.tasks && w.tasks[k] == Cancelling(o) && Is(w, o, ConfirmedOrder)
    case _ => false
  }

  lemma LosesMeansUnseated(w: World, step: Step, o: OrderId)
    requires Inv(w) && Loses(w, step, o)
    ensures !Seated(Exec(w, step), o)
  {
    assert TaskOk(w.db, w.orders, step.k, w.tasks[step.k]);
    if step.CallRelease? { SettledStatus(w.db, w.orders[o].hold, false); }
  }

  lemma HistoryMarks(w: World, step: Step, o: OrderId)
    requires !Loses(w, step, o)
    ensures o in Exec(w, step).late ==> o in w.late
    ensures o in Exec(w, step).torn ==> o in w.torn
  {
  }

  predicate NeverLoses(steps: seq<Step>, o: OrderId) {
    forall i :: 0 <= i < |steps| ==> !Loses(Run(START, steps[..i]), steps[i], o)
  }

  ghost predicate AlwaysSeated(steps: seq<Step>, o: OrderId) {
    forall n :: 0 <= n <= |steps| ==> Seated(Run(START, steps[..n]), o)
  }

  lemma NeverLosesPrefix(steps: seq<Step>, n: nat, o: OrderId)
    requires n <= |steps| && NeverLoses(steps, o)
    ensures NeverLoses(steps[..n], o)
  {
    forall i | 0 <= i < n ensures !Loses(Run(START, steps[..n][..i]), steps[..n][i], o) {
      assert steps[..n][..i] == steps[..i];
    }
  }

  lemma {:induction false} NoLossNoMark(steps: seq<Step>, o: OrderId)
    requires NeverLoses(steps, o)
    ensures o !in Run(START, steps).late && o !in Run(START, steps).torn
  {
    if steps != [] {
      var n := |steps| - 1;
      NeverLosesPrefix(steps, n, o);
      NoLossNoMark(steps[..n], o);
      LastUnmarked(steps, n, o);
    }
  }

  lemma LastUnmarked(steps: seq<Step>, n: nat, o: OrderId)
    requires n + 1 == |steps| && !Loses(Run(START, steps[..n]), steps[n], o)
    requires o !in Run(START, steps[..n]).late && o !in Run(START, steps[..n]).torn
    ensures o !in Run(START, steps).late && o !in Run(START, steps).torn
  {
    HistoryMarks(Run(START, steps[..n]), steps[n], o);
  }

  lemma {:induction false} SerialPrefix(steps: seq<Step>, n: nat, o: OrderId)
    requires n <= |steps| && SerialHandlers(steps, o)
    ensures SerialHandlers(steps[..n], o)
  {
    if n < |steps| {
      SerialPrefix(steps[..|steps| - 1], n, o);
      assert steps[..|steps| - 1][..n] == steps[..n];
    } else {
      assert steps[..n] == steps;
    }
  }

  lemma SeatedAt(steps: seq<Step>, n: nat, o: OrderId)
    requires n <= |steps| && SerialHandlers(steps, o) && NeverLoses(steps, o)
    ensures Seated(Run(START, steps[..n]), o)
  {
    SerialPrefix(steps, n, o);
    NeverLosesPrefix(steps, n, o);
    NoLossNoMark(steps[..n], o);
    SerialReachable(steps[..n], o);
  }

  lemma UnseatedAt(steps: seq<Step>, i: nat, o: OrderId)
    requires i < |steps| && Loses(Run(START, steps[..i]), steps[i], o)
    ensures !Seated(Run(START, steps[..i + 1]), o)
  {
    Reachable(steps[..i]);
    LosesMeansUnseated(Run(START, steps[..i]), steps[i], o);
    assert steps[..i + 1][..i] == steps[..i];
  }

  /** Exactly: when the handlers of an order do not overlap, it has its seats at every moment at which it is
    * CONFIRMED if and only if no step stores its confirmation on a dead answer and none releases its
    * reservation while it is CONFIRMED. */
  lemma AlwaysSeatedIff(steps: seq<Step>, o: OrderId)
    requires SerialHandlers(steps, o)
    ensures AlwaysSeated(steps, o) <==> NeverLoses(steps, o)
  {
    if NeverLoses(steps, o) {
      forall n | 0 <= n <= |steps| ensures Seated(Run(START, steps[..n]), o) { SeatedAt(steps, n, o); }
    } else {
      var i :| 0 <= i < |steps| && Loses(Run(START, steps[..i]), steps[i], o);
      UnseatedAt(steps, i, o);
    }
  }

  // ----- conditions on a run under which a CONFIRMED order has its seats in the end -----

  /** A payment success whose confirm call meets a reservation that is released or expired already. */
  predicate MeetsDead(w: World, step: Step, o: OrderId) {
    step.CallSettle? && step.k in w.tasks && w.tasks[step.k] == Paying(o, true)
    && Known(w.db, w.orders, o) && HoldOf(w.db, w.orders, o).Dead()
  }

  predicate DropInFlight(w: World, o: OrderId) { exists k :: k in w.tasks && w.tasks[k] == Dropping(o) }

  /** A cancellation of a CONFIRMED order dying between its release call and its commit. */
  predicate Tears(w: World, step: Step, o: OrderId) {
    step.Crash? && step.k in w.tasks && w.tasks[step.k] == Dropping(o) && Is(w, o, ConfirmedOrder)
  }

  /** Order `o` is handled by one handler at a time, never paid for after its reservation died, and no
    * cancellation of it is cut in half. */
  predicate Careful(steps: seq<Step>, o: OrderId) {
    steps == [] ||
    (Careful(steps[..|steps| - 1], o) &&
     var w, last := Run(START, steps[..|steps| - 1]), steps[|steps| - 1];
     MayStart(w, last, o) && !MeetsDead(w, last, o) && !Tears(w, last, o))
  }

  /** No dead answer is waiting to be stored, and a torn CONFIRMED order still has its cancellation in flight. */
  ghost predicate Clean(w: World, o: OrderId) {
    && o !in w.late
    && (forall k :: k in w.tasks && w.tasks[k].Settling? && w.tasks[k].order == o && w.tasks[k].success ==>
          !w.tasks[k].seen.Dead())
    && (o in w.torn && Is(w, o, ConfirmedOrder) ==> DropInFlight(w, o))
  }

  /** What a step does not do to `o` unless it is one of its own handlers' last three. */
  ghost predicate NotOwn(w: World, w': World, o: OrderId) {
    && (o in w'.late ==> o in w.late) && (o in w'.torn ==> o in w.torn)
    && (forall k :: k in w'.tasks && w'.tasks[k].Settling? && w'.tasks[k].order == o ==>
          k in w.tasks && w'.tasks[k] == w.tasks[k])
    && (Is(w', o, ConfirmedOrder) ==> Is(w, o, ConfirmedOrder))
    && (Is(w', o, ConfirmedOrder) && DropInFlight(w, o) ==> DropInFlight(w', o))
  }

  lemma NotOwnClean(w: World, w': World, o: OrderId)
    requires Clean(w, o) && NotOwn(w, w', o)
    ensures Clean(w', o)
  {
  }

  lemma KeepsDrop(w: World, w': World, o: OrderId)
    requires forall k :: k in w.tasks && w.tasks[k] == Dropping(o) ==> k in w'.tasks && w'.tasks[k] == w.tasks[k]
    ensures DropInFlight(w, o) ==> DropInFlight(w', o)
  {
  }

  /** A call, seen from an order that is not its own: tables change, handlers and orders do not. */
  lemma TablesClean(w: World, db: Store, log: seq<Op>, o: OrderId)
    requires Clean(w, o)
    ensures Clean(w.(db := db, log := log), o)
  {
    KeepsDrop(w, w.(db := db, log := log), o);
    NotOwnClean(w, w.(db := db, log := log), o);
  }

  /** A new handler that has not called inventory yet, or is none of an order. */
  lemma SpawnClean(w: World, task: Task, o: OrderId)
    requires w.next !in w.tasks && Clean(w, o) && !task.Settling?
    ensures Clean(Spawn(w, task), o)
  {
    KeepsDrop(w, Spawn(w, task), o);
    NotOwnClean(w, Spawn(w, task), o);
  }

  lemma SweepClean(w: World, page: seq<HoldId>, now: int, o: OrderId)
    requires TasksOk(w) && Clean(w, o)
    ensures Clean(Exec(w, Sweep(page, now)), o)
  {
    if Sweepable(w.db, page, now) {
      assert w.next !in w.tasks;
      TablesClean(w, Expire(w, page).db, Expire(w, page).log, o);
      SpawnClean(Expire(w, page), Reaping(page), o);
    }
  }

  /** A handler other than a cancellation moves on to something other than a store, or is done; orders stay. */
  lemma TaskClean(w: World, w': World, k: TaskId, o: OrderId)
    requires Clean(w, o) && k in w.tasks && !w.tasks[k].Dropping?
    requires w'.tasks == w.tasks - {k} || (k in w'.tasks && w'.tasks == w.tasks[k := w'.tasks[k]]
        && !w'.tasks[k].Settling?)
    requires w'.late == w.late && w'.torn == w.torn && (Is(w', o, ConfirmedOrder) ==> Is(w, o, ConfirmedOrder))
    ensures Clean(w', o)
  {
    KeepsDrop(w, w', o);
    NotOwnClean(w, w', o);
  }

  lemma MailClean(w: World, mail: set<Message>, o: OrderId)
    requires Clean(w, o)
    ensures Clean(w.(mail := mail), o)
  {
    KeepsDrop(w, w.(mail := mail), o);
    NotOwnClean(w, w.(mail := mail), o);
  }

  lemma QuietClean(w: World, step: Step, o: OrderId)
    requires TasksOk(w) && Clean(w, o)
    requires step.Stock? || step.Charge? || step.Sweep?
    ensures Clean(Exec(w, step), o)
  {
    match step
    case Stock(e, c, create) =>
      var w' := Call(w, if create then Initialize(e, c) else Adjust(e, c));
      TablesClean(w, w'.db, w'.log, o);
    case Charge(x, success) => MailClean(w, w.mail + {PaymentProcessed(x, success)}, o);
    case Sweep(page, now) => SweepClean(w, page, now, o);
  }

  lemma ReserveClean(w: World, k: TaskId, grant: Grant, o: OrderId)
    requires Clean(w, o) && k in w.tasks && w.tasks[k].Reserving?
    ensures Clean(Reserved(w, k, grant), o)
  {
    TaskClean(w, Reserved(w, k, grant), k, o);
  }

  lemma InsertClean(w: World, k: TaskId, o: OrderId)
    requires Clean(w, o) && k in w.tasks && w.tasks[k].Inserting? && TaskOk(w.db, w.orders, k, w.tasks[k])
    ensures Clean(Inserted(w, k), o)
  {
    TaskClean(w, Inserted(w, k), k, o);
  }

  lemma AnnounceClean(w: World, k: TaskId, o: OrderId)
    requires Clean(w, o) && k in w.tasks && w.tasks[k].Announcing?
    ensures Clean(Exec(w, Announce(k)), o)
  {
    TaskClean(w, Exec(w, Announce(k)), k, o);
  }

  lemma IssueClean(w: World, k: TaskId, o: OrderId)
    requires Clean(w, o) && k in w.tasks && w.tasks[k].Issuing?
    ensures Clean(Exec(w, Issue(k)), o)
  {
    TaskClean(w, Exec(w, Issue(k)), k, o);
  }

  lemma NoticeClean(w: World, k: TaskId, o: OrderId)
    requires Clean(w, o) && k in w.tasks && w.tasks[k].Reaping?
    ensures Clean(Told(w, k), o)
  {
    if Told(w, k) != w { TaskClean(w, Told(w, k), k, o); }
  }

  lemma BookClean(w: World, step: Step, o: OrderId)
    requires TasksOk(w) && Clean(w, o)
    requires step.CallReserve? || step.Insert? || step.Announce? || step.Issue? || step.PublishExpired?
    ensures Clean(Exec(w, step), o)
  {
    match step
    case CallReserve(k, grant) => if k in w.tasks && w.tasks[k].Reserving? { ReserveClean(w, k, grant, o); }
    case Insert(k) =>
      if k in w.tasks && w.tasks[k].Inserting? {
        TaskIsOk(w, k);
        InsertClean(w, k, o);
      }
    case Announce(k) => if k in w.tasks && w.tasks[k].Announcing? { AnnounceClean(w, k, o); }
    case Issue(k) => if k in w.tasks && w.tasks[k].Issuing? { IssueClean(w, k, o); }
    case PublishExpired(k) => if k in w.tasks && w.tasks[k].Reaping? { NoticeClean(w, k, o); }
  }

  lemma StartClean(w: World, step: Step, o: OrderId)
    requires TasksOk(w) && Clean(w, o)
    requires step.StartBooking? || step.StartPayment? || step.StartCancel? || step.StartLapse?
    ensures Clean(Exec(w, step), o)
  {
    assert w.next !in w.tasks;
    match step
    case StartBooking(user, e, q, key) => SpawnClean(w, Reserving(user, e, q, key), o);
    case StartPayment(x, success) => SpawnClean(w, Paying(x, success), o);
    case StartCancel(x) => SpawnClean(w, Cancelling(x), o);
    case StartLapse(x, _) => SpawnClean(w, Lapsing(x), o);
  }

  lemma CrashClean(w: World, k: TaskId, o: OrderId)
    requires Clean(w, o) && !Tears(w, Crash(k), o)
    ensures Clean(Exec(w, Crash(k)), o)
  {
    if Is(w, o, ConfirmedOrder) { KeepsDrop(w, Exec(w, Crash(k)), o); }
    NotOwnClean(w, Exec(w, Crash(k)), o);
  }

  lemma SettleClean(w: World, k: TaskId, o: OrderId)
    requires Inv(w) && Clean(w, o) && k in w.tasks && w.tasks[k].Paying? && !MeetsDead(w, CallSettle(k), o)
    ensures Clean(Settled(w, k), o)
  {
    TaskIsOk(w, k);
    SettledAnswer(w, k, o);
    SettledClean(w, Settled(w, k), k, o);
  }

  /** The answer to a payment's call: of a reservation that is not dead already, a confirm makes no dead one. */
  lemma SettledAnswer(w: World, k: TaskId, o: OrderId)
    requires k in w.tasks && w.tasks[k].Paying? && Known(w.db, w.orders, w.tasks[k].order)
    requires !MeetsDead(w, CallSettle(k), o)
    ensures var w', t := Settled(w, k), w.tasks[k];
            && k in w'.tasks && w'.tasks == w.tasks[k := w'.tasks[k]] && w'.tasks[k].Settling?
            && w'.tasks[k].order == t.order && w'.tasks[k].success == t.success
            && (t.order == o && t.success ==> !w'.tasks[k].seen.Dead())
            && w'.orders == w.orders && w'.late == w.late && w'.torn == w.torn
  {
    SettledStatus(w.db, w.orders[w.tasks[k].order].hold, w.tasks[k].success);
  }

  lemma SettledClean(w: World, w': World, k: TaskId, o: OrderId)
    requires Clean(w, o) && k in w.tasks && w.tasks[k].Paying?
    requires k in w'.tasks && w'.tasks == w.tasks[k := w'.tasks[k]] && w'.tasks[k].Settling?
    requires w'.tasks[k].order == o && w'.tasks[k].success ==> !w'.tasks[k].seen.Dead()
    requires w'.orders == w.orders && w'.late == w.late && w'.torn == w.torn
    ensures Clean(w', o)
  {
    KeepsDrop(w, w', o);
  }

  lemma StoreClean(w: World, k: TaskId, o: OrderId)
    requires Inv(w) && Serial(w, o) && Clean(w, o) && k in w.tasks && w.tasks[k].Settling?
    ensures Clean(Stored(w, k), o)
  {
    if w.tasks[k].order == o {
      assert Handles(w.tasks[k], o) && HandlerOk(w, w.tasks[k]);
      StoreOwnClean(w, k);
    } else {
      StoreOtherClean(w, k, o);
    }
  }

  lemma StoreOwnClean(w: World, k: TaskId)
    requires k in w.tasks && w.tasks[k].Settling? && Clean(w, w.tasks[k].order)
    requires SeatOk(w, w.tasks[k].order) && Is(w, w.tasks[k].order, PendingOrder)
    ensures Clean(Stored(w, k), w.tasks[k].order)
  {
    assert w.tasks[k].order !in w.torn;
  }

  lemma StoreOtherClean(w: World, k: TaskId, o: OrderId)
    requires Clean(w, o) && k in w.tasks && w.tasks[k].Settling? && w.tasks[k].order != o
    ensures Clean(Stored(w, k), o)
  {
    KeepsDrop(w, Stored(w, k), o);
    NotOwnClean(w, Stored(w, k), o);
  }

  lemma DropClean(w: World, k: TaskId, o: OrderId)
    requires Inv(w) && Clean(w, o) && k in w.tasks && w.tasks[k].Cancelling?
    ensures Clean(Dropped(w, k), o)
  {
    TaskIsOk(w, k);
    DroppedClean(w, Dropped(w, k), k, o);
  }

  lemma DroppedClean(w: World, w': World, k: TaskId, o: OrderId)
    requires Clean(w, o) && k in w.tasks && w.tasks[k].Cancelling?
    requires w'.tasks == w.tasks[k := Dropping(w.tasks[k].order)]
    requires w'.orders == w.orders && w'.late == w.late && (o in w'.torn ==> o in w.torn || w.tasks[k].order == o)
    ensures Clean(w', o)
  {
    KeepsDrop(w, w', o);
    assert w'.tasks[k] == Dropping(w.tasks[k].order);
  }

  lemma StatusClean(w: World, k: TaskId, status: OrderStatus, o: OrderId)
    requires Clean(w, o) && k in w.tasks && (w.tasks[k].Dropping? || w.tasks[k].Lapsing?)
    requires w.tasks[k].order in w.orders
    requires status != ConfirmedOrder
    ensures Clean(Finish(SetStatus(w, w.tasks[k].order, status), k), o)
  {
    var w' := Finish(SetStatus(w, w.tasks[k].order, status), k);
    if w.tasks[k].order != o { KeepsDrop(w, w', o); }
    NotOwnClean(w, w', o);
  }

  lemma StoreStatusClean(w: World, step: Step, o: OrderId)
    requires TasksOk(w) && Clean(w, o) && (step.StoreCancelled? || step.StoreLapsed?)
    ensures Clean(Exec(w, step), o)
  {
    if step.k in w.tasks { TaskIsOk(w, step.k); }
    match step
    case StoreCancelled(k) => if k in w.tasks && w.tasks[k].Dropping? { StatusClean(w, k, CancelledOrder, o); }
    case StoreLapsed(k) => if k in w.tasks && w.tasks[k].Lapsing? { StatusClean(w, k, ExpiredOrder, o); }
  }

  lemma ExecKeepsClean(w: World, step: Step, o: OrderId)
    requires Inv(w) && Serial(w, o) && Clean(w, o) && !MeetsDead(w, step, o) && !Tears(w, step, o)
    ensures Clean(Exec(w, step), o)
  {
    match step
    case CallSettle(k) => if k in w.tasks && w.tasks[k].Paying? { SettleClean(w, k, o); }
    case StoreSettled(k) => if k in w.tasks && w.tasks[k].Settling? { StoreClean(w, k, o); }
    case CallRelease(k) => if k in w.tasks && w.tasks[k].Cancelling? { DropClean(w, k, o); }
    case StoreCancelled(_) => StoreStatusClean(w, step, o);
    case StoreLapsed(_) => StoreStatusClean(w, step, o);
    case Crash(k) => CrashClean(w, k, o);
    case StartBooking(_, _, _, _) => StartClean(w, step, o);
    case StartPayment(_, _) => StartClean(w, step, o);
    case StartCancel(_) => StartClean(w, step, o);
    case StartLapse(_, _) => StartClean(w, step, o);
    case Stock(_, _, _) => QuietClean(w, step, o);
    case Charge(_, _) => QuietClean(w, step, o);
    case Sweep(_, _) => QuietClean(w, step, o);
    case _ => BookClean(w, step, o);
  }

  lemma {:induction false} CarefulReachable(steps: seq<Step>, o: OrderId)
    requires Careful(steps, o)
    ensures SerialHandlers(steps, o) && Inv(Run(START, steps)) && Serial(Run(START, steps), o)
    ensures Clean(Run(START, steps), o)
  {
    if steps != [] {
      var before := steps[..|steps| - 1];
      CarefulReachable(before, o);
      ExecKeepsClean(Run(START, before), steps[|steps| - 1], o);
    }
    SerialReachable(steps, o);
  }

  /** A carefully handled CONFIRMED order has its seats, unless its cancellation is under way right now. */
  lemma CarefulOrderHasSeats(steps: seq<Step>, o: OrderId)
    requires Careful(steps, o) && Is(Run(START, steps), o, ConfirmedOrder) && !DropInFlight(Run(START, steps), o)
    ensures var w := Run(START, steps); Known(w.db, w.orders, o) && HoldOf(w.db, w.orders, o) == Confirmed
  {
    CarefulReachable(steps, o);
  }

  // ----- end to end: no oversell -----

  /** The quantities of the orders in `ids`. */
  ghost function OrderSeats(orders: map<OrderId, Order>, ids: set<OrderId>): int
    requires ids <= orders.Keys
    decreases |ids|
  {
    if ids == {} then 0
    else
      var o :| o in ids;
      orders[o].quantity + OrderSeats(orders, ids - {o})
  }

  /** All CONFIRMED orders of an event. */
  ghost function ConfirmedOrders(w: World, e: EventId): set<OrderId> {
    set o | o in w.orders && w.orders[o].event == e && w.orders[o].status == ConfirmedOrder
  }

  /** Those among them whose reservation is not CONFIRMED. */
  ghost function Seatless(w: World, e: EventId): set<OrderId> {
    set o | o in ConfirmedOrders(w, e) && !(Known(w.db, w.orders, o) && HoldOf(w.db, w.orders, o) == Confirmed)
  }

  /** CONFIRMED reservations of an event whose order is not CONFIRMED: paid for, but the order's commit is
    * still to come or was lost in a crash. */
  ghost function Unclaimed(w: World, e: EventId): set<HoldId> {
    set id | id in w.db.holds && w.db.holds[id].event == e && w.db.holds[id].status == Confirmed
             && !Is(w, w.db.holds[id].order, ConfirmedOrder)
  }

  lemma {:induction false} OrderSeatsRemove(orders: map<OrderId, Order>, ids: set<OrderId>, o: OrderId)
    requires ids <= orders.Keys && o in ids
    ensures OrderSeats(orders, ids) == orders[o].quantity + OrderSeats(orders, ids - {o})
    decreases |ids|
  {
    var x :| x in ids && OrderSeats(orders, ids) == orders[x].quantity + OrderSeats(orders, ids - {x});
    if x != o {
      OrderSeatsRemove(orders, ids - {x}, o);
      OrderSeatsRemove(orders, ids - {o}, x);
      assert ids - {x} - {o} == ids - {o} - {x};
    }
  }

  lemma {:induction false} OrderSeatsSplit(orders: map<OrderId, Order>, a: set<OrderId>, b: set<OrderId>)
    requires a + b <= orders.Keys && a !! b
    ensures OrderSeats(orders, a + b) == OrderSeats(orders, a) + OrderSeats(orders, b)
    decreases |a|
  {
    if a == {} {
      assert a + b == b;
    } else {
      var o :| o in a;
      OrderSeatsRemove(orders, a + b, o);
      OrderSeatsRemove(orders, a, o);
      assert a + b - {o} == (a - {o}) + b;
      OrderSeatsSplit(orders, a - {o}, b);
    }
  }

  lemma {:induction false} TotalSplit(holds: map<HoldId, Hold>, a: set<HoldId>, b: set<HoldId>, e: EventId, st: Status)
    requires a + b <= holds.Keys && a !! b
    ensures Total(holds, a + b, e, st) == Total(holds, a, e, st) + Total(holds, b, e, st)
    decreases |a|
  {
    if a == {} {
      assert a + b == b;
    } else {
      var id :| id in a;
      TotalRemove(holds, a + b, id, e, st);
      TotalRemove(holds, a, id, e, st);
      assert a + b - {id} == (a - {id}) + b;
      TotalSplit(holds, a - {id}, b, e, st);
    }
  }

  lemma {:induction false} TotalOfNone(holds: map<HoldId, Hold>, ids: set<HoldId>, e: EventId, st: Status)
    requires ids <= holds.Keys && forall id :: id in ids ==> holds[id].Share(e, st) == 0
    ensures Total(holds, ids, e, st) == 0
    decreases |ids|
  {
    if ids != {} {
      var id :| id in ids;
      TotalRemove(holds, ids, id, e, st);
      TotalOfNone(holds, ids - {id}, e, st);
    }
  }

  ghost predicate Paired(w: World, e: EventId, ids: set<OrderId>, holds: set<HoldId>) {
    && ids <= w.orders.Keys && holds <= w.db.holds.Keys
    && (forall o :: o in ids ==>
          w.orders[o].event == e && w.orders[o].hold in holds && HoldOf(w.db, w.orders, o) == Confirmed)
    && (forall id :: id in holds ==> w.db.holds[id].order in ids && w.orders[w.db.holds[id].order].hold == id)
  }

  /** Orders and their CONFIRMED reservations, one for one, hold the same seats. */
  lemma {:induction false} SeatsOfPairs(w: World, e: EventId, ids: set<OrderId>, holds: set<HoldId>)
    requires Inv(w) && Paired(w, e, ids, holds)
    ensures OrderSeats(w.orders, ids) == Total(w.db.holds, holds, e, Confirmed)
    decreases |ids|
  {
    if ids == {} {
      assert holds == {};
    } else {
      var o :| o in ids;
      var id := w.orders[o].hold;
      assert Linked(w.db, o, w.orders[o]);
      forall x | x in ids - {o} ensures w.orders[x].hold in holds - {id} { DistinctHolds(w, o, x); }
      SeatsOfPairs(w, e, ids - {o}, holds - {id});
      OrderSeatsRemove(w.orders, ids, o);
      TotalRemove(w.db.holds, holds, id, e, Confirmed);
    }
  }

  /** The CONFIRMED reservations of `e`, split into those of CONFIRMED orders and the unclaimed ones. */
  lemma ConfirmedCountSplits(w: World, e: EventId, claimed: set<HoldId>)
    requires Inv(w) && e in w.db.rows
    requires claimed == set id | id in w.db.holds && w.db.holds[id].event == e && w.db.holds[id].status == Confirmed
                                 && Is(w, w.db.holds[id].order, ConfirmedOrder)
    ensures w.db.rows[e].confirmed == Total(w.db.holds, claimed, e, Confirmed) + Total(w.db.holds, Unclaimed(w, e), e,
            Confirmed)
  {
    ReplayConsistent(w.log);
    var rest := w.db.holds.Keys - claimed - Unclaimed(w, e);
    TotalSplit(w.db.holds, claimed, Unclaimed(w, e), e, Confirmed);
    TotalSplit(w.db.holds, claimed + Unclaimed(w, e), rest, e, Confirmed);
    assert claimed + Unclaimed(w, e) + rest == w.db.holds.Keys;
    TotalOfNone(w.db.holds, rest, e, Confirmed);
  }

  /** The seats of all CONFIRMED orders against the confirmed count, exactly, in every run whatever overlaps:
    * they differ by the seats of the orders without seats and of the reservations without a CONFIRMED order. */
  lemma ConfirmedSeatsBalance(steps: seq<Step>, e: EventId)
    requires e in Run(START, steps).db.rows
    ensures var w := Run(START, steps);
            && Seatless(w, e) <= w.orders.Keys
            && OrderSeats(w.orders, ConfirmedOrders(w, e)) + Total(w.db.holds, Unclaimed(w, e), e, Confirmed)
               == w.db.rows[e].confirmed + OrderSeats(w.orders, Seatless(w, e))
            && (OrderSeats(w.orders, ConfirmedOrders(w, e)) <= w.db.rows[e].confirmed
                <==> OrderSeats(w.orders, Seatless(w, e)) <= Total(w.db.holds, Unclaimed(w, e), e, Confirmed))
  {
    var w := Run(START, steps);
    Reachable(steps);
    var seated := ConfirmedOrders(w, e) - Seatless(w, e);
    var claimed := set id | id in w.db.holds && w.db.holds[id].event == e && w.db.holds[id].status == Confirmed
                            && Is(w, w.db.holds[id].order, ConfirmedOrder);
    SeatedArePaired(w, e, seated, claimed);
    SeatsOfPairs(w, e, seated, claimed);
    ConfirmedCountSplits(w, e, claimed);
    assert seated + Seatless(w, e) == ConfirmedOrders(w, e);
    OrderSeatsSplit(w.orders, seated, Seatless(w, e));
  }

  lemma SeatedArePaired(w: World, e: EventId, seated: set<OrderId>, claimed: set<HoldId>)
    requires Inv(w) && seated == ConfirmedOrders(w, e) - Seatless(w, e)
    requires claimed == set id | id in w.db.holds && w.db.holds[id].event == e && w.db.holds[id].status == Confirmed
                                 && Is(w, w.db.holds[id].order, ConfirmedOrder)
    ensures Paired(w, e, seated, claimed)
  {
    forall o | o in seated
      ensures w.orders[o].event == e && w.orders[o].hold in claimed && HoldOf(w.db, w.orders, o) == Confirmed
    {
      assert Linked(w.db, o, w.orders[o]);
    }
    forall id | id in claimed ensures w.db.holds[id].order in seated && w.orders[w.db.holds[id].order].hold == id {
      assert Linked(w.db, w.db.holds[id].order, w.orders[w.db.holds[id].order]);
    }
  }

  /** End-to-end no oversell: if the CONFIRMED orders of an event were carefully handled and none of them is
    * being cancelled right now, the quantities of all of them sum to at most the confirmed count, hence to
    * at most the greatest capacity the event ever had. Other orders and events may be handled anyhow. */
  lemma ConfirmedOrdersFit(steps: seq<Step>, e: EventId)
    requires e in Run(START, steps).db.rows
    requires forall o :: o in ConfirmedOrders(Run(START, steps), e) ==>
        Careful(steps, o) && !DropInFlight(Run(START, steps), o)
    ensures var w := Run(START, steps);
            && OrderSeats(w.orders, ConfirmedOrders(w, e)) <= w.db.rows[e].confirmed
            && w.db.rows[e].confirmed <= Highest(w.log, e)
  {
    var w := Run(START, steps);
    Reachable(steps);
    forall o ensures o !in Seatless(w, e) {
      if o in ConfirmedOrders(w, e) { CarefulOrderHasSeats(steps, o); }
    }
    assert Seatless(w, e) == {};
    ConfirmedSeatsBalance(steps, e);
    ReplayConsistent(w.log);
    forall id | id in Unclaimed(w, e) ensures w.db.holds[id].quantity > 0 {}
    TotalNonNegative(w.db.holds, Unclaimed(w, e), e, Confirmed);
    CountersNonNegative(w.db, e);
    TakenWithinHighest(w.log, e);
  }

  // ----- the hypothesis and the exceptions are needed -----

  /** Overlapping handlers break it without either exception. Whatever the rest of the system looks like,
    * if a payment and a cancellation have both read the order as PENDING, this order of their steps leaves
    * it CONFIRMED with its seats given back, and neither handler had reason to notice. */
  lemma OverlapLosesSeats(w: World, k: TaskId, j: TaskId, o: OrderId)
    requires Is(w, o, PendingOrder) && Known(w.db, w.orders, o) && HoldOf(w.db, w.orders, o) == Pending
    requires k in w.tasks && w.tasks[k] == Paying(o, true) && j in w.tasks && w.tasks[j] == Cancelling(o)
    ensures var w' := Exec(Exec(Exec(Exec(w, CallSettle(k)), CallRelease(j)), StoreCancelled(j)), StoreSettled(k));
            && Is(w', o, ConfirmedOrder) && Known(w'.db, w'.orders, o) && HoldOf(w'.db, w'.orders, o) == Released
            && w'.late == w.late && w'.torn == w.torn
  {
    var w1 := Exec(w, CallSettle(k));
    ConfirmCall(w, k, o);
    ReleaseCall(w1, j, o);
    StoresOverlap(Exec(w1, CallRelease(j)), k, j, o);
  }

  lemma StoresOverlap(w: World, k: TaskId, j: TaskId, o: OrderId)
    requires Known(w.db, w.orders, o) && HoldOf(w.db, w.orders, o) == Released && k != j
    requires k in w.tasks && w.tasks[k] == Settling(o, true, Confirmed) && j in w.tasks && w.tasks[j] == Dropping(o)
    ensures var w' := Exec(Exec(w, StoreCancelled(j)), StoreSettled(k));
            && Is(w', o, ConfirmedOrder) && Known(w'.db, w'.orders, o) && HoldOf(w'.db, w'.orders, o) == Released
            && w'.late == w.late && w'.torn == w.torn
  {
    var w1 := Exec(w, StoreCancelled(j));
    assert w1 == Finish(SetStatus(w, o, CancelledOrder), j);
    assert k in w1.tasks && w1.tasks[k] == Settling(o, true, Confirmed);
    assert Exec(w1, StoreSettled(k)) == Stored(w1, k);
  }

  lemma ConfirmCall(w: World, k: TaskId, o: OrderId)
    requires Known(w.db, w.orders, o) && HoldOf(w.db, w.orders, o) == Pending && k in w.tasks
    requires w.tasks[k] == Paying(o, true)
    ensures var w' := Exec(w, CallSettle(k));
            && Known(w'.db, w'.orders, o) && HoldOf(w'.db, w'.orders, o) == Confirmed
            && w' == w.(db := w'.db, log := w'.log, tasks := w.tasks[k := Settling(o, true, Confirmed)])
  {
  }

  lemma ReleaseCall(w: World, j: TaskId, o: OrderId)
    requires Known(w.db, w.orders, o) && HoldOf(w.db, w.orders, o) == Confirmed && j in w.tasks
    requires w.tasks[j] == Cancelling(o)
    requires Is(w, o, PendingOrder)
    ensures var w' := Exec(w, CallRelease(j));
            && Known(w'.db, w'.orders, o) && HoldOf(w'.db, w'.orders, o) == Released
            && w' == w.(db := w'.db, log := w'.log, tasks := w.tasks[j := Dropping(o)])
  {
  }

  /** A cancellation that dies between its release call and its commit leaves a CONFIRMED order without
    * seats, handlers overlapping or not. */
  lemma CrashedCancelLosesSeats(w: World, j: TaskId, o: OrderId)
    requires Is(w, o, ConfirmedOrder) && j in w.tasks && w.tasks[j] == Cancelling(o)
    requires Known(w.db, w.orders, o) && HoldOf(w.db, w.orders, o) == Confirmed
    ensures var w' := Exec(Exec(w, CallRelease(j)), Crash(j));
            && Is(w', o, ConfirmedOrder) && Known(w'.db, w'.orders, o) && HoldOf(w'.db, w'.orders, o) == Released
            && o in w'.torn && j !in w'.tasks
  {
  }
}
