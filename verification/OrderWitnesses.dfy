/** Runs of the order protocol, from the empty system: one in which all goes well, and several in which a
  * promise one might expect is broken. Each ends in a state of the kind that a general lemma of
  * `SerialOrders` or `OrderTheorems` is about. */
module OrderWitnesses {
  import opened Inventory
  import opened Orders
  import opened OrderTheorems
  import opened SerialOrders
  import Settlement

  predicate Leads(steps: seq<Step>, w: World) { Run(START, steps) == w }

  lemma Extend(steps: seq<Step>, w: World, step: Step)
    requires Leads(steps, w)
    ensures Leads(steps + [step], Exec(w, step))
    ensures SerialHandlers(steps, 0) && MayStart(w, step, 0) ==> SerialHandlers(steps + [step], 0)
    ensures Careful(steps, 0) && MayStart(w, step, 0) && !MeetsDead(w, step, 0) && !Tears(w, step, 0) ==>
              Careful(steps + [step], 0)
  {
    assert (steps + [step])[..|steps + [step]| - 1] == steps;
  }

  // ----- an event of one seat, booked as order 0 with reservation 1, and charged -----

  const PLACED := Order(5, 0, 1, 1, PendingOrder, NoKey)
  const HELD := Hold(0, 0, 1, Pending, 600)

  function Stocked(): World {
    START.(db := Store(map[0 := Row(1, 0, 0, 1)], map[]), log := [Initialize(0, 1)])
  }

  function Booked(): World {
    START.(db := Store(map[0 := Row(1, 1, 0, 2)], map[1 := HELD]), log := [Initialize(0, 1), Reserve(0, 1, 0, 1, 600)],
           orders := map[0 := PLACED], tasks := map[0 := Announcing(0)], next := 1)
  }

  function Charged(): World {
    Booked().(tasks := map[], mail := {OrderCreated(0), PaymentProcessed(0, true)})
  }

  lemma BookingWorlds() returns (w1: World, w2: World)
    ensures w1 == Exec(Stocked(), StartBooking(5, 0, 1, NoKey)) && w2 == Exec(w1, CallReserve(0, Grant(1, 600)))
    ensures Exec(w2, Insert(0)) == Booked()
  {
    w1 := Exec(Stocked(), StartBooking(5, 0, 1, NoKey));
    assert w1 == Stocked().(tasks := map[0 := Reserving(5, 0, 1, NoKey)], next := 1);
    w2 := Exec(w1, CallReserve(0, Grant(1, 600)));
    assert w2.db == Booked().db && w2.log == Booked().log;
    assert w2.tasks == map[0 := Inserting(5, 0, 1, NoKey, 1)] && w2.next == 1;
    assert Exec(w2, Insert(0)).orders == Booked().orders && Exec(w2, Insert(0)).tasks == Booked().tasks;
  }

  lemma BookingRun() returns (steps: seq<Step>)
    ensures Leads(steps, Booked()) && SerialHandlers(steps, 0) && Careful(steps, 0)
  {
    steps := [];
    Extend(steps, START, Stock(0, 1, true));
    steps := steps + [Stock(0, 1, true)];
    assert Exec(START, Stock(0, 1, true)) == Stocked();
    var w1, w2 := BookingWorlds();
    Extend(steps, Stocked(), StartBooking(5, 0, 1, NoKey));
    steps := steps + [StartBooking(5, 0, 1, NoKey)];
    Extend(steps, w1, CallReserve(0, Grant(1, 600)));
    steps := steps + [CallReserve(0, Grant(1, 600))];
    Extend(steps, w2, Insert(0));
    steps := steps + [Insert(0)];
  }

  lemma ChargedRun() returns (steps: seq<Step>)
    ensures Leads(steps, Charged()) && SerialHandlers(steps, 0) && Careful(steps, 0)
  {
    steps := BookingRun();
    var w1 := Exec(Booked(), Announce(0));
    assert w1 == Booked().(mail := {OrderCreated(0)}, tasks := map[]);
    Extend(steps, Booked(), Announce(0));
    steps := steps + [Announce(0)];
    Extend(steps, w1, Charge(0, true));
    steps := steps + [Charge(0, true)];
    assert Exec(w1, Charge(0, true)).mail == Charged().mail;
  }

  // ----- a payment after the sweep -----

  /** The payment has gone through, but the sweep came first. */
  function Swept(): World {
    Charged().(db := Store(map[0 := Row(1, 0, 0, 3)], map[1 := HELD.(status := Expired)]),
               log := Booked().log + [Release(1, true)], tasks := map[1 := Reaping([1])], next := 2)
  }

  lemma SweptRun() returns (steps: seq<Step>)
    ensures Leads(steps, Swept()) && SerialHandlers(steps, 0)
  {
    steps := ChargedRun();
    SweepOfOne(Charged());
    Extend(steps, Charged(), Sweep([1], 601));
    steps := steps + [Sweep([1], 601)];
    assert Exec(Charged(), Sweep([1], 601)).tasks == Swept().tasks;
  }

  lemma SweepOfOne(w: World)
    requires w.db == Booked().db && w.log == Booked().log
    ensures Sweepable(w.db, [1], 601) && Expire(w, [1]).db == Swept().db && Expire(w, [1]).log == Swept().log
  {
    var ops := Settlement.ExpireAll([1]);
    assert ops == [Release(1, true)] && ops[..0] == [];
  }

  lemma LateWorlds() returns (w1: World, w2: World, w3: World)
    ensures w1 == Exec(Swept(), StartPayment(0, true)) && w2 == Exec(w1, CallSettle(2))
    ensures w3 == Exec(w2, StoreSettled(2))
    ensures w3.orders == map[0 := PLACED.(status := ConfirmedOrder)] && w3.db == Swept().db
  {
    w1 := Exec(Swept(), StartPayment(0, true));
    assert w1 == Swept().(tasks := w1.tasks, next := 3) && 2 in w1.tasks && w1.tasks[2] == Paying(0, true);
    w2 := Exec(w1, CallSettle(2));
    DeadConfirm(w1);
    w3 := Exec(w2, StoreSettled(2));
  }

  lemma DeadConfirm(w: World)
    requires w.db == Swept().db && w.orders == Swept().orders && 2 in w.tasks && w.tasks[2] == Paying(0, true)
    ensures Exec(w, CallSettle(2)) == w.(tasks := w.tasks[2 := Settling(0, true, Expired)])
  {
  }

  /** The one order of event 0 is CONFIRMED, its reservation is dead, and its seat is on sale again. */
  ghost predicate Oversold(w: World) {
    && Is(w, 0, ConfirmedOrder) && Known(w.db, w.orders, 0) && HoldOf(w.db, w.orders, 0).Dead()
    && 0 in w.db.rows && w.db.rows[0].Available() == w.db.rows[0].capacity
    && OrderSeats(w.orders, ConfirmedOrders(w, 0)) > w.db.rows[0].confirmed
  }

  lemma OneOrderOversold(w: World)
    requires w.orders == map[0 := PLACED.(status := ConfirmedOrder)] && 1 in w.db.holds && w.db.holds[1].status.Dead()
    requires 0 in w.db.rows && w.db.rows[0].confirmed == 0 && w.db.rows[0].reserved == 0
    ensures Oversold(w)
  {
    assert ConfirmedOrders(w, 0) == {0};
    OrderSeatsRemove(w.orders, {0}, 0);
    assert {0} - {0} == {};
  }

  /** A payment that succeeds after the sweep: not refused, although its handlers do not overlap. */
  lemma LatePaymentOversells() returns (steps: seq<Step>)
    ensures SerialHandlers(steps, 0) && Oversold(Run(START, steps))
  {
    steps := SweptRun();
    var w1, w2, w3 := LateWorlds();
    assert !InFlight(Swept(), 0);
    Extend(steps, Swept(), StartPayment(0, true));
    steps := steps + [StartPayment(0, true)];
    Extend(steps, w1, CallSettle(2));
    steps := steps + [CallSettle(2)];
    Extend(steps, w2, StoreSettled(2));
    steps := steps + [StoreSettled(2)];
    OneOrderOversold(w3);
  }

  // ----- a payment handler at work -----

  function PayingWorld(): World { Charged().(tasks := map[1 := Paying(0, true)], next := 2) }

  lemma PayingRun() returns (steps: seq<Step>)
    ensures Leads(steps, PayingWorld()) && SerialHandlers(steps, 0) && Careful(steps, 0)
  {
    steps := ChargedRun();
    Extend(steps, Charged(), StartPayment(0, true));
    steps := steps + [StartPayment(0, true)];
    assert Exec(Charged(), StartPayment(0, true)).tasks == PayingWorld().tasks;
  }

  /** Two payment handlers that both read PENDING: order 0 gets two tickets. */
  lemma TwoTicketsRun() returns (steps: seq<Step>)
    ensures Run(START, steps).issued == [0, 0]
  {
    steps := PayingRun();
    Extend(steps, PayingWorld(), StartPayment(0, true));
    steps := steps + [StartPayment(0, true)];
    var w := Exec(PayingWorld(), StartPayment(0, true));
    assert w.tasks == map[1 := Paying(0, true), 2 := Paying(0, true)] && w.issued == [];
    OverlappingPaymentsIssueTwice(w, 1, 2, 0);
    steps := Through(steps, w, 1);
    steps := Through(steps, Exec(Exec(Exec(w, CallSettle(1)), StoreSettled(1)), Issue(1)), 2);
    assert [] + [0, 0] == [0, 0];
  }

  lemma Through(steps: seq<Step>, w: World, k: TaskId) returns (longer: seq<Step>)
    requires Leads(steps, w)
    ensures Leads(longer, Exec(Exec(Exec(w, CallSettle(k)), StoreSettled(k)), Issue(k)))
  {
    Extend(steps, w, CallSettle(k));
    Extend(steps + [CallSettle(k)], Exec(w, CallSettle(k)), StoreSettled(k));
    longer := steps + [CallSettle(k)] + [StoreSettled(k)];
    Extend(longer, Exec(Exec(w, CallSettle(k)), StoreSettled(k)), Issue(k));
    longer := longer + [Issue(k)];
  }

  /** A payment and a cancellation that both read PENDING: the order ends CONFIRMED without its seat. */
  lemma OverlapRun() returns (steps: seq<Step>)
    ensures var w := Run(START, steps);
            Is(w, 0, ConfirmedOrder) && Known(w.db, w.orders, 0) && HoldOf(w.db, w.orders, 0) == Released
            && 0 !in w.late && 0 !in w.torn
  {
    steps := PayingRun();
    Extend(steps, PayingWorld(), StartCancel(0));
    steps := steps + [StartCancel(0)];
    var w := Exec(PayingWorld(), StartCancel(0));
    assert w.tasks == map[1 := Paying(0, true), 2 := Cancelling(0)] && w.late == {} && w.torn == {};
    OverlapLosesSeats(w, 1, 2, 0);
    steps := Interleaved(steps, w);
  }

  lemma Interleaved(steps: seq<Step>, w: World) returns (longer: seq<Step>)
    requires Leads(steps, w)
    ensures Leads(longer, Exec(Exec(Exec(Exec(w, CallSettle(1)), CallRelease(2)), StoreCancelled(2)), StoreSettled(1)))
  {
    longer := steps;
    Extend(longer, w, CallSettle(1));
    longer := longer + [CallSettle(1)];
    Extend(longer, Exec(w, CallSettle(1)), CallRelease(2));
    longer := longer + [CallRelease(2)];
    Extend(longer, Exec(Exec(w, CallSettle(1)), CallRelease(2)), StoreCancelled(2));
    longer := longer + [StoreCancelled(2)];
    Extend(longer, Exec(Exec(Exec(w, CallSettle(1)), CallRelease(2)), StoreCancelled(2)), StoreSettled(1));
    longer := longer + [StoreSettled(1)];
  }

  // ----- a cancellation of a CONFIRMED order -----

  /** Order 0 is paid for and confirmed, and its cancellation has begun. */
  function CancellingWorld(): World {
    Charged().(db := Store(map[0 := Row(1, 0, 1, 3)], map[1 := HELD.(status := Confirmed)]),
               log := Booked().log + [Confirm(1)], orders := map[0 := PLACED.(status := ConfirmedOrder)],
               tasks := map[1 := Issuing(0), 2 := Cancelling(0)], next := 3)
  }

  /** The confirm call has been answered. */
  function AnsweredWorld(): World {
    Charged().(db := CancellingWorld().db, log := CancellingWorld().log,
               tasks := map[1 := Settling(0, true, Confirmed)], next := 2)
  }

  lemma ConfirmStep()
    ensures Exec(PayingWorld(), CallSettle(1)) == AnsweredWorld()
  {
    var w1 := Exec(PayingWorld(), CallSettle(1));
    assert w1.db == CancellingWorld().db && w1.log == CancellingWorld().log;
    assert w1.tasks == map[1 := Settling(0, true, Confirmed)];
  }

  /** The order is stored as CONFIRMED, its ticket still to come. */
  function StoredWorld(): World {
    AnsweredWorld().(orders := map[0 := PLACED.(status := ConfirmedOrder)], tasks := map[1 := Issuing(0)])
  }

  lemma StoreStep()
    ensures Exec(AnsweredWorld(), StoreSettled(1)) == StoredWorld()
  {
    var w2 := Exec(AnsweredWorld(), StoreSettled(1));
    assert w2.tasks == map[1 := Issuing(0)] && w2.orders == StoredWorld().orders;
  }

  lemma CancelStep()
    ensures Exec(StoredWorld(), StartCancel(0)) == CancellingWorld() && !InFlight(StoredWorld(), 0)
  {
    assert Exec(StoredWorld(), StartCancel(0)).tasks == CancellingWorld().tasks;
  }

  /** A cancellation that dies between its release call and its commit, with no handlers overlapping: the
    * order stays CONFIRMED and its seat is on sale again. */
  lemma CrashedCancelRun() returns (steps: seq<Step>)
    ensures SerialHandlers(steps, 0) && Oversold(Run(START, steps))
  {
    steps := CancellingRun();
    var w := CancellingWorld();
    Extend(steps, w, CallRelease(2));
    steps := steps + [CallRelease(2)];
    Extend(steps, Exec(w, CallRelease(2)), Crash(2));
    steps := steps + [Crash(2)];
    CancelledSeat();
    OneOrderOversold(Exec(Exec(w, CallRelease(2)), Crash(2)));
  }

  lemma StoredRun() returns (steps: seq<Step>)
    ensures Leads(steps, StoredWorld()) && SerialHandlers(steps, 0) && Careful(steps, 0)
  {
    steps := PayingRun();
    ConfirmStep();
    Extend(steps, PayingWorld(), CallSettle(1));
    steps := steps + [CallSettle(1)];
    StoreStep();
    Extend(steps, AnsweredWorld(), StoreSettled(1));
    steps := steps + [StoreSettled(1)];
  }

  lemma CancellingRun() returns (steps: seq<Step>)
    ensures Leads(steps, CancellingWorld()) && SerialHandlers(steps, 0)
  {
    steps := StoredRun();
    CancelStep();
    Extend(steps, StoredWorld(), StartCancel(0));
    steps := steps + [StartCancel(0)];
  }

  /** And what ought to happen can: booked, charged and confirmed with care, order 0 has its seat and its ticket. */
  lemma CarefulRun() returns (steps: seq<Step>)
    ensures Careful(steps, 0)
    ensures var w := Run(START, steps);
            && Is(w, 0, ConfirmedOrder) && Known(w.db, w.orders, 0) && HoldOf(w.db, w.orders, 0) == Confirmed
            && !DropInFlight(w, 0) && w.issued == [0] && w.tasks == map[]
            && w.db.rows == map[0 := Row(1, 0, 1, 3)]
  {
    steps := StoredRun();
    Extend(steps, StoredWorld(), Issue(1));
    steps := steps + [Issue(1)];
    assert Exec(StoredWorld(), Issue(1)).tasks == map[];
  }

  /** The seat is released, and then the handler dies. */
  function ReleasedWorld(): World {
    CancellingWorld().(db := Store(map[0 := Row(1, 0, 0, 4)], map[1 := HELD.(status := Released)]),
                       log := CancellingWorld().log + [Release(1, false)],
                       tasks := map[1 := Issuing(0), 2 := Dropping(0)], torn := {0})
  }

  lemma ReleaseStep()
    ensures Exec(CancellingWorld(), CallRelease(2)) == ReleasedWorld()
  {
    ReleaseTables();
    assert Exec(CancellingWorld(), CallRelease(2)) == Dropped(CancellingWorld(), 2);
    assert Dropped(CancellingWorld(), 2).tasks == ReleasedWorld().tasks;
  }

  lemma ReleaseTables()
    ensures Apply(CancellingWorld().db, Release(1, false)) == Wrote(ReleasedWorld().db)
  {
  }

  lemma CancelledSeat()
    ensures var w' := Exec(Exec(CancellingWorld(), CallRelease(2)), Crash(2));
            w'.orders == map[0 := PLACED.(status := ConfirmedOrder)] && w'.db == ReleasedWorld().db
  {
    ReleaseStep();
    assert Exec(ReleasedWorld(), Crash(2)) == Finish(ReleasedWorld(), 2);
  }
}
