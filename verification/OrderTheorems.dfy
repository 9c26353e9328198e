/** What the booking protocol guarantees in every interleaving, with crashes and redeliveries anywhere. */
module OrderTheorems {
  import opened Inventory
  import opened Orders
  import opened OrderInvariants

  /** Cross-service safety, under every interleaving, crash and redelivery: each order's reservation is
    * its own; a CANCELLED order's is released or expired, an EXPIRED order's is expired, a CONFIRMED
    * order's is not pending. (That it is confirmed does not hold in general: see `SerialOrders`.) */
  lemma CrossServiceSafety(steps: seq<Step>, o: OrderId)
    requires o in Run(START, steps).orders
    ensures var w := Run(START, steps);
            && Linked(w.db, o, w.orders[o])
            && (w.orders[o].status == CancelledOrder ==> HoldOf(w.db, w.orders, o).Dead())
            && (w.orders[o].status == ExpiredOrder ==> HoldOf(w.db, w.orders, o) == Expired)
            && (w.orders[o].status == ConfirmedOrder ==> HoldOf(w.db, w.orders, o) != Pending)
  {
    Reachable(steps);
  }

  /** At most one order per user and supplied key, however many requests race. */
  lemma OneOrderPerKey(steps: seq<Step>, a: OrderId, b: OrderId)
    requires var w := Run(START, steps);
             a in w.orders && b in w.orders && w.orders[a].user == w.orders[b].user
             && w.orders[a].key.Key? && w.orders[a].key == w.orders[b].key
    ensures a == b
  {
    Reachable(steps);
    assert SameKey(Run(START, steps).orders[a], Run(START, steps).orders[b]);
  }

  /** A reservation whose order was never stored (a crash, or a lost insert race) is never CONFIRMED, and
    * no two reservations belong to one order. */
  lemma OrphansNeverConfirmed(steps: seq<Step>, id: HoldId)
    requires id in Run(START, steps).db.holds
    ensures var w := Run(START, steps);
            && (w.db.holds[id].status == Confirmed ==>
                  w.db.holds[id].order in w.orders && w.orders[w.db.holds[id].order].hold == id)
            && (forall x :: x in w.db.holds && w.db.holds[x].order == w.db.holds[id].order ==> x == id)
  {
    Reachable(steps);
  }

  // ----- TICKET_ISSUED at most once -----

  predicate IsPay(task: Task, o: OrderId) {
    match task
    case Paying(o', _) => o' == o
    case Settling(o', _, _) => o' == o
    case Issuing(o') => o' == o
    case _ => false
  }

  predicate PayInFlight(w: World, o: OrderId) { exists k :: k in w.tasks && IsPay(w.tasks[k], o) }

  /** Payment messages of order `o` are handled one at a time: they share a key, hence a partition. */
  predicate SerialPayments(steps: seq<Step>, o: OrderId) {
    steps == [] ||
    (SerialPayments(steps[..|steps| - 1], o) &&
     (steps[|steps| - 1].StartPayment? && steps[|steps| - 1].order == o ==>
       !PayInFlight(Run(START, steps[..|steps| - 1]), o)))
  }

  ghost predicate Once(w: World, o: OrderId) {
    && (forall j, k :: j in w.tasks && k in w.tasks && IsPay(w.tasks[j], o) && IsPay(w.tasks[k], o) ==> j == k)
    && (forall k :: k in w.tasks && IsPay(w.tasks[k], o) ==> o !in w.issued)
    && (forall k :: k in w.tasks && w.tasks[k] == Issuing(o) ==> !Is(w, o, PendingOrder))
    && (o in w.issued ==> !Is(w, o, PendingOrder))
    && IssuedOnce(w.issued, o)
  }

  predicate IssuedOnce(issued: seq<OrderId>, o: OrderId) {
    forall i, j :: 0 <= i < j < |issued| ==> !(issued[i] == o && issued[j] == o)
  }

  /** What a step leaves alone if it neither starts, stores nor publishes a payment. */
  ghost predicate NoPayment(w: World, w': World) {
    && w'.issued == w.issued
    && (forall k, o :: k in w'.tasks && IsPay(w'.tasks[k], o) ==> k in w.tasks && IsPay(w.tasks[k], o))
    && (forall k :: k in w'.tasks && w'.tasks[k].Issuing? ==> k in w.tasks && w.tasks[k].Issuing?)
    && (forall o :: Is(w', o, PendingOrder) ==> Is(w, o, PendingOrder) || o !in w.orders)
  }

  lemma ReserveStep(w: World, k: TaskId, grant: Grant)
    ensures NoPayment(w, Exec(w, CallReserve(k, grant)))
  {
  }

  lemma InsertStep(w: World, k: TaskId)
    requires TasksOk(w)
    ensures NoPayment(w, Exec(w, Insert(k)))
  {
    if k in w.tasks && w.tasks[k].Inserting? {
      TaskIsOk(w, k);
      InsertedUnpaid(w, Inserted(w, k), k);
    }
  }

  lemma InsertedUnpaid(w: World, w': World, k: TaskId)
    requires w'.issued == w.issued && k !in w.orders
    requires w'.tasks == w.tasks - {k} || w'.tasks == w.tasks[k := Announcing(k)]
    requires w'.orders == w.orders || (k in w'.orders && w'.orders == w.orders[k := w'.orders[k]])
    ensures NoPayment(w, w')
  {
  }

  lemma SettleStep(w: World, k: TaskId)
    ensures NoPayment(w, Exec(w, CallSettle(k)))
  {
  }

  lemma ReleaseStep(w: World, k: TaskId)
    ensures NoPayment(w, Exec(w, CallRelease(k)))
  {
  }

  lemma StatusStep(w: World, step: Step)
    requires step.StoreCancelled? || step.StoreLapsed?
    ensures NoPayment(w, Exec(w, step))
  {
  }

  lemma CallStep(w: World, step: Step)
    requires step.Stock? || step.Sweep? || step.Charge?
    ensures NoPayment(w, Exec(w, step))
  {
  }

  lemma TaskStep(w: World, step: Step)
    requires step.StartBooking? || step.StartCancel? || step.StartLapse? || step.Announce? || step.PublishExpired?
        || step.Crash?
    ensures NoPayment(w, Exec(w, step))
  {
  }

  lemma NoPaymentStep(w: World, step: Step)
    requires Inv(w) && !step.StartPayment? && !step.StoreSettled? && !step.Issue?
    ensures NoPayment(w, Exec(w, step))
  {
    match step
    case CallReserve(k, grant) => ReserveStep(w, k, grant);
    case Insert(k) => InsertStep(w, k);
    case CallSettle(k) => SettleStep(w, k);
    case CallRelease(k) => ReleaseStep(w, k);
    case StoreCancelled(_) => StatusStep(w, step);
    case StoreLapsed(_) => StatusStep(w, step);
    case Stock(_, _, _) => CallStep(w, step);
    case Sweep(_, _) => CallStep(w, step);
    case Charge(_, _) => CallStep(w, step);
    case _ => TaskStep(w, step);
  }

  lemma OnceKept(w: World, w': World, o: OrderId)
    requires Inv(w) && Once(w, o) && NoPayment(w, w')
    ensures Once(w', o)
  {
    forall k | k in w'.tasks && w'.tasks[k] == Issuing(o) ensures !Is(w', o, PendingOrder) {
      assert IsPay(w'.tasks[k], o);
      assert TaskOk(w.db, w.orders, k, w.tasks[k]) && IsPay(w.tasks[k], o);
    }
  }

  lemma StartKeepsOnce(w: World, p: OrderId, success: bool, o: OrderId)
    requires Inv(w) && Once(w, o) && (p == o ==> !PayInFlight(w, o))
    ensures Once(Exec(w, StartPayment(p, success)), o)
  {
    if PaymentProcessed(p, success) in w.mail && Is(w, p, PendingOrder) {
      assert w.next !in w.tasks;
      SpawnOnce(w, Spawn(w, Paying(p, success)), p, success, o);
    }
  }

  lemma SpawnOnce(w: World, w': World, p: OrderId, success: bool, o: OrderId)
    requires Once(w, o) && (p == o ==> !PayInFlight(w, o) && Is(w, o, PendingOrder)) && w.next !in w.tasks
    requires w'.tasks == w.tasks[w.next := Paying(p, success)] && w'.issued == w.issued && w'.orders == w.orders
    ensures Once(w', o)
  {
    forall k | k in w'.tasks && IsPay(w'.tasks[k], o) ensures o !in w'.issued && (k != w.next ==> p != o) {
      assert k != w.next ==> k in w.tasks && IsPay(w.tasks[k], o);
    }
  }

  lemma StoreKeepsOnce(w: World, k: TaskId, o: OrderId)
    requires Inv(w) && Once(w, o) && k in w.tasks && w.tasks[k].Settling?
    ensures Once(Stored(w, k), o)
  {
    var t := w.tasks[k];
    var w' := Stored(w, k);
    assert TaskOk(w.db, w.orders, k, t);
    assert IsPay(t, t.order);
    assert Is(w', o, PendingOrder) ==> Is(w, o, PendingOrder) && o != t.order;
    forall j | j in w'.tasks && IsPay(w'.tasks[j], o) ensures j in w.tasks && IsPay(w.tasks[j], o) {
    }
  }

  lemma IssueKeepsOnce(w: World, k: TaskId, o: OrderId)
    requires Once(w, o) && k in w.tasks && w.tasks[k].Issuing?
    ensures Once(Exec(w, Issue(k)), o)
  {
    var p := w.tasks[k].order;
    assert IsPay(w.tasks[k], p);
    assert p == o ==> o !in w.issued;
    IssuedMore(w.issued, p, o);
    IssueIs(w, k);
    IssueOnce(w, Finish(w.(issued := w.issued + [p]), k), k, o);
  }

  lemma IssueIs(w: World, k: TaskId)
    requires k in w.tasks && w.tasks[k].Issuing?
    ensures Exec(w, Issue(k)) == Finish(w.(issued := w.issued + [w.tasks[k].order]), k)
  {
  }

  lemma IssuedMore(issued: seq<OrderId>, p: OrderId, o: OrderId)
    requires IssuedOnce(issued, o) && (p == o ==> o !in issued)
    ensures IssuedOnce(issued + [p], o)
  {
    assert o !in issued ==> forall i :: 0 <= i < |issued| ==> issued[i] != o;
  }

  lemma IssueOnce(w: World, w': World, k: TaskId, o: OrderId)
    requires Once(w, o) && k in w.tasks && w.tasks[k].Issuing? && w'.tasks == w.tasks - {k} && w'.orders == w.orders
    requires w'.issued == w.issued + [w.tasks[k].order] && IssuedOnce(w'.issued, o)
    ensures Once(w', o)
  {
    assert IsPay(w.tasks[k], w.tasks[k].order);
    forall j | j in w'.tasks && IsPay(w'.tasks[j], o) ensures o !in w'.issued {
      assert j in w.tasks && IsPay(w.tasks[j], o);
    }
  }

  lemma ExecKeepsOnce(w: World, step: Step, o: OrderId)
    requires Inv(w) && Once(w, o)
    requires step.StartPayment? && step.order == o ==> !PayInFlight(w, o)
    ensures Once(Exec(w, step), o)
  {
    match step
    case StartPayment(p, success) => StartKeepsOnce(w, p, success, o);
    case StoreSettled(k) => if k in w.tasks && w.tasks[k].Settling? { StoreKeepsOnce(w, k, o); }
    case Issue(k) => if k in w.tasks && w.tasks[k].Issuing? { IssueKeepsOnce(w, k, o); }
    case _ => OtherKeepsOnce(w, step, o);
  }

  lemma OtherKeepsOnce(w: World, step: Step, o: OrderId)
    requires Inv(w) && Once(w, o) && !step.StartPayment? && !step.StoreSettled? && !step.Issue?
    ensures Once(Exec(w, step), o)
  {
    NoPaymentStep(w, step);
    OnceKept(w, Exec(w, step), o);
  }

  // ----- and only after a confirm call was answered -----

  /** Past its confirm call, or through. */
  predicate PaidTask(task: Task,
                     o: OrderId) { task == Issuing(o) || (task.Settling? && task.order == o && task.success) }

  predicate PaidFor(w: World, o: OrderId) { (exists k :: k in w.tasks && PaidTask(w.tasks[k], o)) || o in w.issued }

  /** The `i`-th step is a confirm call for order `o` that inventory answered. */
  predicate ConfirmAnswered(steps: seq<Step>, i: nat, o: OrderId)
    requires i < |steps|
  {
    steps[i].CallSettle? &&
    var w, k := Run(START, steps[..i]), steps[i].k;
    && k in w.tasks && w.tasks[k] == Paying(o, true) && Known(w.db, w.orders, o)
    && Exec(w, steps[i]).db == Next(w.db, Confirm(w.orders[o].hold))
    && k in Exec(w, steps[i]).tasks && PaidTask(Exec(w, steps[i]).tasks[k], o)
  }

  predicate Answered(steps: seq<Step>, o: OrderId) { exists i :: 0 <= i < |steps| && ConfirmAnswered(steps, i, o) }

  lemma AnsweredStays(steps: seq<Step>, step: Step, o: OrderId)
    requires Answered(steps, o)
    ensures Answered(steps + [step], o)
  {
    var i :| 0 <= i < |steps| && ConfirmAnswered(steps, i, o);
    assert (steps + [step])[..i] == steps[..i];
    assert ConfirmAnswered(steps + [step], i, o);
  }

  lemma SettleAnswers(w: World, k: TaskId, o: OrderId)
    requires k in w.tasks && w.tasks[k].Paying? && PaidFor(Exec(w, CallSettle(k)), o) && !PaidFor(w, o)
    ensures var w' := Exec(w, CallSettle(k));
            && w.tasks[k] == Paying(o, true) && Known(w.db, w.orders, o)
            && w'.db == Next(w.db, Confirm(w.orders[o].hold)) && k in w'.tasks && PaidTask(w'.tasks[k], o)
  {
  }

  lemma StorePaid(w: World, k: TaskId, o: OrderId)
    requires k in w.tasks && w.tasks[k].Settling? && PaidFor(Stored(w, k), o)
    ensures PaidFor(w, o)
  {
    assert PaidTask(w.tasks[k], o) || PaidFor(w, o) by {
      if o !in w.issued {
        var j :| j in Stored(w, k).tasks && PaidTask(Stored(w, k).tasks[j], o);
        assert j in w.tasks;
        assert j != k ==> PaidTask(w.tasks[j], o);
      }
    }
  }

  lemma IssuePaid(w: World, k: TaskId, o: OrderId)
    requires k in w.tasks && w.tasks[k].Issuing? && PaidFor(Exec(w, Issue(k)), o)
    ensures PaidFor(w, o)
  {
    assert PaidTask(w.tasks[k], w.tasks[k].order);
  }

  /** What no payment step does. */
  ghost predicate NoneMorePaid(w: World, w': World) {
    w'.issued == w.issued && forall k, o :: k in w'.tasks && PaidTask(w'.tasks[k], o) ==>
      k in w.tasks && PaidTask(w.tasks[k], o)
  }

  lemma BookingPaid(w: World, step: Step)
    requires step.StartBooking? || step.CallReserve? || step.Insert? || step.Announce? || step.Crash? || step.Charge?
    ensures NoneMorePaid(w, Exec(w, step))
  {
  }

  lemma OtherPaid(w: World, step: Step)
    requires step.Stock? || step.Sweep? || step.PublishExpired? || step.StartPayment? || step.StartCancel?
        || step.StartLapse?
    ensures NoneMorePaid(w, Exec(w, step))
  {
  }

  lemma StatusPaid(w: World, step: Step)
    requires step.CallRelease? || step.StoreCancelled? || step.StoreLapsed?
    ensures NoneMorePaid(w, Exec(w, step))
  {
  }

  lemma PaidStep(w: World, step: Step, o: OrderId)
    requires PaidFor(Exec(w, step), o) && !PaidFor(w, o)
    ensures step.CallSettle? && step.k in w.tasks && w.tasks[step.k].Paying?
  {
    match step
    case CallSettle(_) =>
    case StoreSettled(k) => if k in w.tasks && w.tasks[k].Settling? { StorePaid(w, k, o); }
    case Issue(k) => if k in w.tasks && w.tasks[k].Issuing? { IssuePaid(w, k, o); }
    case StartBooking(_, _, _, _) => BookingPaid(w, step);
    case CallReserve(_, _) => BookingPaid(w, step);
    case Insert(_) => BookingPaid(w, step);
    case Announce(_) => BookingPaid(w, step);
    case Crash(_) => BookingPaid(w, step);
    case Charge(_, _) => BookingPaid(w, step);
    case CallRelease(_) => StatusPaid(w, step);
    case StoreCancelled(_) => StatusPaid(w, step);
    case StoreLapsed(_) => StatusPaid(w, step);
    case _ => OtherPaid(w, step);
  }

  /** In every run, whatever overlaps: whoever is past a confirmation, and every order with a ticket, has had a
    * confirm call answered by inventory before. */
  lemma {:induction false} PaidMeansAnswered(steps: seq<Step>, o: OrderId)
    requires PaidFor(Run(START, steps), o)
    ensures Answered(steps, o)
  {
    if steps != [] {
      var before, last := steps[..|steps| - 1], steps[|steps| - 1];
      assert before + [last] == steps;
      var w := Run(START, before);
      if PaidFor(w, o) {
        PaidMeansAnswered(before, o);
        AnsweredStays(before, last, o);
      } else {
        PaidStep(w, last, o);
        SettleAnswers(w, last.k, o);
        assert ConfirmAnswered(steps, |steps| - 1, o);
      }
    }
  }

  /** Over any run with duplicated and contradictory payment messages, crashes between call, commit and
    * publish, and cancellations at any moment: an order whose payment messages are handled one at a time is
    * issued at most one ticket, and only after inventory answered a confirm call for it. */
  lemma TicketIssuedOnce(steps: seq<Step>, o: OrderId)
    requires SerialPayments(steps, o)
    ensures IssuedOnce(Run(START, steps).issued, o)
    ensures o in Run(START, steps).issued ==> Answered(steps, o)
  {
    SerialIsOnce(steps, o);
    if o in Run(START, steps).issued { PaidMeansAnswered(steps, o); }
  }

  lemma {:induction false} SerialIsOnce(steps: seq<Step>, o: OrderId)
    requires SerialPayments(steps, o)
    ensures Once(Run(START, steps), o)
  {
    if steps != [] {
      var before := steps[..|steps| - 1];
      SerialIsOnce(before, o);
      Reachable(before);
      ExecKeepsOnce(Run(START, before), steps[|steps| - 1], o);
    }
  }

  lemma PaidThrough(w: World, k: TaskId, o: OrderId)
    requires Known(w.db, w.orders, o) && k in w.tasks && w.tasks[k] == Paying(o, true)
    ensures var w' := Exec(Exec(Exec(w, CallSettle(k)), StoreSettled(k)), Issue(k));
            && w'.issued == w.issued + [o] && Known(w'.db, w'.orders, o) && w'.tasks == w.tasks - {k}
  {
    SettledIs(w, k);
    StoredThrough(w, Exec(w, CallSettle(k)), k, o);
  }

  lemma StoredThrough(w: World, w1: World, k: TaskId, o: OrderId)
    requires k in w1.tasks && w1.tasks == w.tasks[k := w1.tasks[k]] && w1.tasks[k].Settling?
    requires w1.tasks[k].order == o && w1.tasks[k].success && Known(w1.db, w1.orders, o) && w1.issued == w.issued
    ensures var w' := Exec(Exec(w1, StoreSettled(k)), Issue(k));
            && w'.issued == w.issued + [o] && Known(w'.db, w'.orders, o) && w'.tasks == w.tasks - {k}
  {
    var w2 := Exec(w1, StoreSettled(k));
    assert w2.tasks == w.tasks[k := Issuing(o)] && w2.issued == w.issued;
  }

  /** Serial delivery is needed: two payment handlers that have both read the order as PENDING issue two
    * tickets, even one after the other from there. */
  lemma OverlappingPaymentsIssueTwice(w: World, j: TaskId, k: TaskId, o: OrderId)
    requires Known(w.db, w.orders, o) && j != k
    requires j in w.tasks && w.tasks[j] == Paying(o, true) && k in w.tasks && w.tasks[k] == Paying(o, true)
    ensures var w1 := Exec(Exec(Exec(w, CallSettle(j)), StoreSettled(j)), Issue(j));
            var w2 := Exec(Exec(Exec(w1, CallSettle(k)), StoreSettled(k)), Issue(k));
            w2.issued == w.issued + [o, o]
  {
    PaidThrough(w, j, o);
    var w1 := Exec(Exec(Exec(w, CallSettle(j)), StoreSettled(j)), Issue(j));
    PaidThrough(w1, k, o);
    assert w.issued + [o] + [o] == w.issued + [o, o];
  }
}
