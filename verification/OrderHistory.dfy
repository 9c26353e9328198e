/** Where everything in the booking protocol comes from: which step publishes a message, moves an order,
  * sends a ticket or calls inventory, and so what must have happened before a status or a ticket. */
module OrderHistory {
  import opened Inventory
  import opened CommitLog
  import opened Orders
  import opened OrderInvariants
  import Settlement

  predicate HasTask(w: World, k: TaskId, task: Task) { k in w.tasks && w.tasks[k] == task }

  // ----- messages -----

  /** The step publishes `m`: ORDER_CREATED only the booking that stored the order, PAYMENT_PROCESSED only a
    * charge of an announced order, RESERVATION_EXPIRED only the reaper, for the next of its page. */
  predicate Publishes(w: World, step: Step, m: Message) {
    match m
    case OrderCreated(o) => step.Announce? && HasTask(w, step.k, Announcing(o))
    case PaymentProcessed(o, success) => step == Charge(o, success) && OrderCreated(o) in w.mail
    case ReservationExpired(o, id) =>
      step.PublishExpired? && step.k in w.tasks && w.tasks[step.k].Reaping? && w.tasks[step.k].holds != []
      && w.tasks[step.k].holds[0] == id && id in w.db.holds && w.db.holds[id].order == o
  }

  lemma MailAfter(w: World, step: Step, m: Message)
    ensures m in Exec(w, step).mail <==> m in w.mail || Publishes(w, step, m)
  {
    if step.PublishExpired? { ToldAfter(w, step.k, m); }
  }

  lemma ToldAfter(w: World, k: TaskId, m: Message)
    ensures m in Exec(w, PublishExpired(k)).mail <==> m in w.mail || Publishes(w, PublishExpired(k), m)
  {
  }

  /** Every message of a run was published by some step of it. */
  lemma {:induction false} MessageHasStep(steps: seq<Step>, m: Message) returns (i: nat)
    requires m in Run(START, steps).mail
    ensures i < |steps| && Publishes(Run(START, steps[..i]), steps[i], m)
  {
    var before := steps[..|steps| - 1];
    MailAfter(Run(START, before), steps[|steps| - 1], m);
    if m in Run(START, before).mail {
      i := MessageHasStep(before, m);
      assert before[..i] == steps[..i];
    } else {
      i := |before|;
    }
  }

  // ----- orders and tickets -----

  /** The status of order `o` after a step: only the three stores move it, each to a status of its own. */
  function StatusAfter(w: World, step: Step, o: OrderId): OrderStatus
    requires o in w.orders
  {
    match step
    case StoreSettled(k) =>
      if k in w.tasks && w.tasks[k].Settling? && w.tasks[k].order == o
      then (if w.tasks[k].success then ConfirmedOrder else CancelledOrder) else w.orders[o].status
    case StoreCancelled(k) => if HasTask(w, k, Dropping(o)) then CancelledOrder else w.orders[o].status
    case StoreLapsed(k) => if HasTask(w, k, Lapsing(o)) then ExpiredOrder else w.orders[o].status
    case _ => w.orders[o].status
  }

  /** An order is made by its own booking's insert, PENDING and under a key that was free, and afterwards
    * only its status moves. */
  lemma OrderAfter(w: World, step: Step, o: OrderId)
    requires TasksOk(w)
    ensures o in w.orders ==>
              o in Exec(w, step).orders && Exec(w, step).orders[o] == w.orders[o].(status := StatusAfter(w, step, o))
    ensures o !in w.orders && o in Exec(w, step).orders ==>
              var order := Exec(w, step).orders[o];
              step == Insert(o) && order.status == PendingOrder && !KeyTaken(w, order.user, order.key)
              && HasTask(w, o, Inserting(order.user, order.event, order.quantity, order.key, order.hold))
  {
    if step.Insert? { InsertAfter(w, step.k, o); } else { StoreAfter(w, step, o); }
  }

  lemma InsertAfter(w: World, k: TaskId, o: OrderId)
    requires TasksOk(w)
    ensures o in w.orders ==> o in Exec(w, Insert(k)).orders && Exec(w, Insert(k)).orders[o] == w.orders[o]
    ensures o !in w.orders && o in Exec(w, Insert(k)).orders ==>
              var order := Exec(w, Insert(k)).orders[o];
              k == o && order.status == PendingOrder && !KeyTaken(w, order.user, order.key)
              && HasTask(w, o, Inserting(order.user, order.event, order.quantity, order.key, order.hold))
  {
    if k in w.tasks { assert TaskOk(w.db, w.orders, k, w.tasks[k]); }
  }

  lemma StoreAfter(w: World, step: Step, o: OrderId)
    requires !step.Insert?
    ensures o in Exec(w, step).orders <==> o in w.orders
    ensures o in w.orders ==> Exec(w, step).orders[o] == w.orders[o].(status := StatusAfter(w, step, o))
  {
  }

  /** Tickets are published by `Issue`, for the order of its task. */
  lemma IssuedAfter(w: World, step: Step)
    ensures Exec(w, step).issued == w.issued +
              (if step.Issue? && step.k in w.tasks && w.tasks[step.k].Issuing? then [w.tasks[step.k].order] else [])
  {
  }

  /** A confirmation on a dead reservation is recorded by the store, a release of a CONFIRMED order's seats by
    * the call, and by nothing else. */
  lemma LossesAfter(w: World, step: Step)
    ensures Exec(w, step).late == w.late +
              (if step.StoreSettled? && step.k in w.tasks && w.tasks[step.k].Settling?
                  && w.tasks[step.k].success && w.tasks[step.k].seen.Dead() then {w.tasks[step.k].order} else {})
    ensures Exec(w, step).torn == w.torn +
              (if step.CallRelease? && step.k in w.tasks && w.tasks[step.k].Cancelling?
                  && Known(w.db, w.orders, w.tasks[step.k].order)
                  && Is(w, w.tasks[step.k].order, ConfirmedOrder) then {w.tasks[step.k].order} else {})
  {
    match step
    case StoreSettled(_) =>
    case CallRelease(_) =>
    case CallReserve(_, _) =>
    case CallSettle(_) =>
    case _ =>
  }

  // ----- inventory calls -----

  /** The calls that a step makes, in order. */
  function CallsOf(w: World, step: Step): seq<Op> {
    match step
    case Stock(e, c, create) => [if create then Initialize(e, c) else Adjust(e, c)]
    case CallReserve(k, grant) =>
      if k in w.tasks && w.tasks[k].Reserving?
      then [Reserve(w.tasks[k].event, grant.hold, k, w.tasks[k].quantity, grant.expiresAt)] else []
    case CallSettle(k) =>
      if k in w.tasks && w.tasks[k].Paying? && Known(w.db, w.orders, w.tasks[k].order)
      then [SettleOp(w, w.tasks[k])] else []
    case CallRelease(k) =>
      if k in w.tasks && w.tasks[k].Cancelling? && Known(w.db, w.orders, w.tasks[k].order)
      then [Release(w.orders[w.tasks[k].order].hold, false)] else []
    case Sweep(page, now) => if Sweepable(w.db, page, now) then Settlement.ExpireAll(page) else []
    case _ => []
  }

  /** The tables move by these calls and by nothing else, and the log gains those that wrote. */
  lemma TablesAfter(w: World, step: Step)
    ensures Exec(w, step).db == ReplayFrom(w.db, CallsOf(w, step))
    ensures !step.Sweep? && CallsOf(w, step) != [] ==> Called(w, Exec(w, step), CallsOf(w, step)[0])
    ensures step.Sweep? || CallsOf(w, step) == [] ==> Exec(w, step).log == w.log + CallsOf(w, step)
  {
    var ops := CallsOf(w, step);
    if !step.Sweep? && ops != [] {
      OneCall(w, step);
      assert ops[..|ops| - 1] == [];
    }
  }

  lemma OneCall(w: World, step: Step)
    requires !step.Sweep? && CallsOf(w, step) != []
    ensures |CallsOf(w, step)| == 1 && Called(w, Exec(w, step), CallsOf(w, step)[0])
  {
  }

  // ----- what must have happened before -----

  predicate Charged(w: World, o: OrderId, success: bool) {
    PaymentProcessed(o, success) in w.mail && OrderCreated(o) in w.mail
  }

  predicate Expiry(w: World, o: OrderId) { o in w.orders && ReservationExpired(o, w.orders[o].hold) in w.mail }

  /** The cause of what a handler in flight is about to store. */
  predicate TaskCaused(w: World, task: Task, cancelled: set<OrderId>) {
    match task
    case Paying(o, success) => Charged(w, o, success)
    case Settling(o, success, _) => Charged(w, o, success)
    case Issuing(o) => Charged(w, o, true)
    case Cancelling(o) => o in cancelled
    case Dropping(o) => o in cancelled
    case Lapsing(o) => Expiry(w, o)
    case _ => true
  }

  predicate StatusCaused(w: World, o: OrderId, cancelled: set<OrderId>)
    requires o in w.orders
  {
    match w.orders[o].status
    case PendingOrder => true
    case ConfirmedOrder => Charged(w, o, true)
    case CancelledOrder => Charged(w, o, false) || o in cancelled
    case ExpiredOrder => Expiry(w, o)
  }

  ghost predicate Caused(w: World, cancelled: set<OrderId>) {
    && (forall o, success :: PaymentProcessed(o, success) in w.mail ==> OrderCreated(o) in w.mail)
    && (forall k :: k in w.tasks ==> TaskCaused(w, w.tasks[k], cancelled))
    && (forall o :: o in w.orders ==> StatusCaused(w, o, cancelled))
    && (forall i :: 0 <= i < |w.issued| ==> Charged(w, w.issued[i], true))
  }

  /** The orders that someone asked to cancel. */
  function Asked(steps: seq<Step>): set<OrderId> {
    set i | 0 <= i < |steps| && steps[i].StartCancel? :: steps[i].order
  }

  /** How a task comes to be what it is after a step, if it was not that before. */
  predicate Advances(w: World, step: Step, k: TaskId, task: Task) {
    match task
    case Paying(o, success) => step == StartPayment(o, success) && PaymentProcessed(o, success) in w.mail
    case Settling(o, success, _) => HasTask(w, k, Paying(o, success))
    case Issuing(o) => k in w.tasks && w.tasks[k].Settling? && w.tasks[k].order == o && w.tasks[k].success
    case Cancelling(o) => step == StartCancel(o)
    case Dropping(o) => HasTask(w, k, Cancelling(o))
    case Lapsing(o) =>
      step.StartLapse? && step.order == o && ReservationExpired(o, step.hold) in w.mail && o in w.orders
    case _ => true
  }

  lemma TaskAfter(w: World, step: Step, k: TaskId)
    requires k in Exec(w, step).tasks
    ensures HasTask(w, k, Exec(w, step).tasks[k]) || Advances(w, step, k, Exec(w, step).tasks[k])
  {
    match step
    case CallReserve(_, _) => CallTask(w, step, k);
    case CallSettle(_) => CallTask(w, step, k);
    case CallRelease(_) => CallTask(w, step, k);
    case _ => OtherTask(w, step, k);
  }

  lemma CallTask(w: World, step: Step, k: TaskId)
    requires k in Exec(w, step).tasks && (step.CallReserve? || step.CallSettle? || step.CallRelease?)
    ensures HasTask(w, k, Exec(w, step).tasks[k]) || Advances(w, step, k, Exec(w, step).tasks[k])
  {
  }

  lemma OtherTask(w: World, step: Step, k: TaskId)
    requires k in Exec(w, step).tasks && !step.CallReserve? && !step.CallSettle? && !step.CallRelease?
    ensures HasTask(w, k, Exec(w, step).tasks[k]) || Advances(w, step, k, Exec(w, step).tasks[k])
  {
  }

  /** Messages stay, and orders keep their reservations. */
  ghost predicate Stays(w: World, w': World) { w.mail <= w'.mail && Kept(w.orders, w'.orders) }

  lemma StaysAfter(w: World, step: Step)
    requires TasksOk(w)
    ensures Stays(w, Exec(w, step))
  {
    forall o | o in w.orders
      ensures o in Exec(w, step).orders
              && Exec(w, step).orders[o] == w.orders[o].(status := Exec(w, step).orders[o].status)
    {
      OrderAfter(w, step, o);
    }
    forall m | m in w.mail ensures m in Exec(w, step).mail { MailAfter(w, step, m); }
  }

  lemma TaskStaysCaused(w: World, w': World, task: Task, cancelled: set<OrderId>, cancelled': set<OrderId>)
    requires Stays(w, w') && cancelled <= cancelled' && TaskCaused(w, task, cancelled)
    ensures TaskCaused(w', task, cancelled')
  {
  }

  /** The notice a handler of an expiry was started by is about the order's own reservation. */
  lemma NoticeIsOwn(w: World, o: OrderId, id: HoldId)
    requires Inv(w) && ReservationExpired(o, id) in w.mail && o in w.orders
    ensures Expiry(w, o)
  {
    assert MessageOk(w.db, w.orders, ReservationExpired(o, id));
    assert Linked(w.db, o, w.orders[o]);
  }

  function AskedBy(step: Step): set<OrderId> { if step.StartCancel? then {step.order} else {} }

  lemma TaskCausedAfter(w: World, step: Step, k: TaskId, cancelled: set<OrderId>)
    requires Inv(w) && Caused(w, cancelled) && k in Exec(w, step).tasks
    ensures TaskCaused(Exec(w, step), Exec(w, step).tasks[k], cancelled + AskedBy(step))
  {
    var w', task := Exec(w, step), Exec(w, step).tasks[k];
    TaskAfter(w, step, k);
    StaysAfter(w, step);
    if !HasTask(w, k, task) { AdvanceCaused(w, step, k, task, cancelled); }
    TaskStaysCaused(w, w', task, cancelled + AskedBy(step), cancelled + AskedBy(step));
  }

  lemma AdvanceCaused(w: World, step: Step, k: TaskId, task: Task, cancelled: set<OrderId>)
    requires Inv(w) && Caused(w, cancelled) && Advances(w, step, k, task)
    ensures TaskCaused(w, task, cancelled + AskedBy(step))
  {
    match task
    case Lapsing(o) => NoticeIsOwn(w, o, step.hold);
    case _ => if k in w.tasks { assert TaskCaused(w, w.tasks[k], cancelled); }
  }

  lemma StatusCausedAfter(w: World, step: Step, o: OrderId, cancelled: set<OrderId>)
    requires Inv(w) && Caused(w, cancelled) && o in Exec(w, step).orders
    ensures StatusCaused(Exec(w, step), o, cancelled)
  {
    OrderAfter(w, step, o);
    StaysAfter(w, step);
    if o in w.orders { StatusStaysCaused(w, Exec(w, step), step, o, cancelled); }
  }

  lemma StatusStaysCaused(w: World, w': World, step: Step, o: OrderId, cancelled: set<OrderId>)
    requires Caused(w, cancelled) && Stays(w, w') && o in w.orders && o in w'.orders
    requires w'.orders[o] == w.orders[o].(status := StatusAfter(w, step, o))
    ensures StatusCaused(w', o, cancelled)
  {
    assert StatusCaused(w, o, cancelled);
    if StatusAfter(w, step, o) != w.orders[o].status { assert TaskCaused(w, w.tasks[step.k], cancelled); }
  }

  lemma CausedAfter(w: World, step: Step, cancelled: set<OrderId>)
    requires Inv(w) && Caused(w, cancelled)
    ensures Caused(Exec(w, step), cancelled + AskedBy(step))
  {
    var w' := Exec(w, step);
    StaysAfter(w, step);
    IssuedAfter(w, step);
    forall o, success | PaymentProcessed(o, success) in w'.mail ensures OrderCreated(o) in w'.mail {
      MailAfter(w, step, PaymentProcessed(o, success));
    }
    forall k | k in w'.tasks ensures TaskCaused(w', w'.tasks[k], cancelled + AskedBy(step)) {
      TaskCausedAfter(w, step, k, cancelled);
    }
    forall o | o in w'.orders ensures StatusCaused(w', o, cancelled + AskedBy(step)) {
      StatusCausedAfter(w, step, o, cancelled);
    }
    forall i | 0 <= i < |w'.issued| ensures Charged(w', w'.issued[i], true) {
      if i < |w.issued| {
        assert Charged(w, w.issued[i], true) && w'.issued[i] == w.issued[i];
      } else {
        assert TaskCaused(w, w.tasks[step.k], cancelled);
      }
    }
  }

  /** No status and no ticket without its cause. A CONFIRMED order, and any order a ticket went out for, was
    * announced and then charged with success; a CANCELLED one was charged without success, or someone asked
    * to cancel it; an EXPIRED one was told so about its very own reservation. */
  lemma {:induction false} EverythingHasItsCause(steps: seq<Step>)
    ensures Caused(Run(START, steps), Asked(steps))
  {
    if steps != [] {
      var before, step := steps[..|steps| - 1], steps[|steps| - 1];
      EverythingHasItsCause(before);
      Reachable(before);
      CausedAfter(Run(START, before), step, Asked(before));
      assert Asked(steps) == Asked(before) + AskedBy(step) by { AskedMore(before, step, steps); }
    }
  }

  lemma AskedMore(before: seq<Step>, step: Step, steps: seq<Step>)
    requires steps == before + [step]
    ensures Asked(steps) == Asked(before) + AskedBy(step)
  {
    forall o | o in Asked(before) ensures o in Asked(steps) {
      var i :| 0 <= i < |before| && before[i].StartCancel? && before[i].order == o;
      assert steps[i].order == o;
    }
    forall o | o in AskedBy(step) ensures o in Asked(steps) { assert steps[|before|].order == o; }
    forall o | o in Asked(steps) ensures o in Asked(before) + AskedBy(step) {
      var i :| 0 <= i < |steps| && steps[i].StartCancel? && steps[i].order == o;
      if i < |before| { assert before[i].order == o; }
    }
  }

  /** Whoever got a ticket, or is CONFIRMED, was charged with success in an earlier step, and was announced by
    * its own booking in a step before that. */
  lemma TicketWasPaid(steps: seq<Step>, o: OrderId) returns (announced: nat, charged: nat)
    requires o in Run(START, steps).issued || Is(Run(START, steps), o, ConfirmedOrder)
    ensures announced < charged < |steps| && steps[charged] == Charge(o, true)
    ensures steps[announced].Announce? && HasTask(Run(START, steps[..announced]), steps[announced].k, Announcing(o))
  {
    var w := Run(START, steps);
    EverythingHasItsCause(steps);
    assert Charged(w, o, true) by {
      if o in w.issued {
        var i :| 0 <= i < |w.issued| && w.issued[i] == o;
        assert Charged(w, w.issued[i], true);
      } else {
        assert StatusCaused(w, o, Asked(steps));
      }
    }
    charged := MessageHasStep(steps, PaymentProcessed(o, true));
    announced := MessageHasStep(steps[..charged], OrderCreated(o));
    assert steps[..charged][..announced] == steps[..announced];
  }
}
