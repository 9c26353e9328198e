/** `BookingService`: booking with an idempotency key, and cancellation. */
module BookingService {
  import opened Wrappers
  import opened Inventory
  import opened Orders
  import opened OrderInvariants
  import opened ApiProcess

  datatype Problem = UnknownEvent | NoSeats(error: Error) | KeyConflict | UnknownOrder | NotCancellable

  /** A booking attempt past the lookup, with nobody else acting. Without seats it changes nothing. With
    * seats it makes one reservation; the order follows unless its key is taken, and then the reservation
    * is left behind without one. */
  predicate Attempt(w: World, w': World, user: UserId, event: EventId, quantity: int, key: Key, grant: Grant,
                    r: Result<OrderId, Problem>)
  {
    var k := w.next;
    var op := Reserve(event, grant.hold, k, quantity, grant.expiresAt);
    && Called(w, w', op) && w'.issued == w.issued && w'.late == w.late && w'.torn == w.torn
    && match Apply(w.db, op)
       case Wrote(_) =>
         if KeyTaken(w, user, key) then r == Failure(KeyConflict) && w'.orders == w.orders && w'.mail == w.mail
         else r == Success(k) && w'.orders == w.orders[k := Order(user, event, grant.hold, quantity, PendingOrder, key)]
              && w'.mail == w.mail + {OrderCreated(k)}
       case Raised(error) => r == Failure(NoSeats(error)) && w'.orders == w.orders && w'.mail == w.mail
       case Unchanged => false
  }

  /** The steps of booking `k` that ends with `r`: each next one only if the one before went through. */
  function BookSteps(user: UserId, event: EventId, quantity: int, key: Key, grant: Grant, k: TaskId,
                     r: Result<OrderId, Problem>): seq<Step>
  {
    [StartBooking(user, event, quantity, key)] + FillSteps(k, grant, r)
  }

  function FillSteps(k: TaskId, grant: Grant, r: Result<OrderId, Problem>): seq<Step> {
    [CallReserve(k, grant)] +
    match r
    case Success(_) => [Insert(k), Announce(k)]
    case Failure(NoSeats(_)) => []
    case Failure(_) => [Insert(k)]
  }

  /** Retrying a booking that succeeded under a key. The retry is a replay, and so costs no seats, exactly
    * when the key is not the empty text; with the empty text, while seats last, it takes `quantity` more
    * seats for no order. */
  lemma RetryAfterSuccess(w: World, w': World, w'': World, user: UserId, event: EventId, quantity: int, text: string,
                          grant: Grant, again: Grant, o: OrderId, r: Result<OrderId, Problem>)
    requires Attempt(w, w', user, event, quantity, Key(text), grant, Success(o))
    requires if Replayed(w', user, Key(text)) then w'' == w'
             else Attempt(w', w'', user, event, quantity, Key(text), again, r)
    requires event in w'.db.rows && w'.db.rows[event].Available() >= quantity && again.hold !in w'.db.holds
    ensures Replayed(w', user, Key(text)) <==> text != ""
    ensures event in w''.db.rows && w''.orders == w'.orders
    ensures w''.db.rows[event].reserved == w'.db.rows[event].reserved + (if text == "" then quantity else 0)
  {
    assert o in w'.orders && w'.orders[o].user == user && w'.orders[o].key == Key(text);
  }

  class BookingService {
    const process: Process

    constructor (process: Process)
      ensures this.process == process
    {
      this.process := process;
    }

    /** Reserves, then inserts the order, then announces it. A key that at the lookup, at `moment`, already has
      * an order returns that order and changes nothing, unless the key is the empty text: the lookup skips
      * it, so the retry reserves seats again, and only then does the unique index refuse the second order.
      * The reserve call is made at `asked`. */
    method BookTickets(user: UserId, event: EventId, eventExists: bool, quantity: int, key: Key, grant: Grant)
      returns (r: Result<OrderId, Problem>, ghost moment: nat, ghost asked: nat)
      requires process.Valid()
      modifies process
      ensures process.Valid() && Grows(old(process.world), process.world)
      ensures |old(process.trace)| <= moment <= asked <= |process.trace| && old(process.trace) <= process.trace
      ensures Replayed(process.At(moment), user, key) ==>
                process.own == old(process.own) && r.Success? && HasKey(process.At(moment), r.value, user, key)
      ensures !Replayed(process.At(moment), user, key) && !eventExists ==>
                process.own == old(process.own) && r == Failure(UnknownEvent)
      ensures !Replayed(process.At(moment), user, key) && eventExists ==> (
        var k := process.At(moment).next;
        && process.own == old(process.own) + BookSteps(user, event, quantity, key, grant, k, r)
        && Booked(process.world, process.At(asked), user, event, quantity, key, grant, k, r))
      ensures r.Success? ==> HasKey(process.world, r.value, user, key)
      // alone:
      ensures old(process.elsewhere) == [] && Replayed(old(process.world), user, key) ==>
                r.Success? && r.value in old(process.world.orders) && process.world == old(process.world)
      ensures old(process.elsewhere) == [] && !Replayed(old(process.world), user, key) && !eventExists ==>
                r == Failure(UnknownEvent) && process.world == old(process.world)
      ensures old(process.elsewhere) == [] && !Replayed(old(process.world), user, key) && eventExists ==>
                Attempt(old(process.world), process.world, user, event, quantity, key, grant, r)
    {
      ghost var since := process.world;
      moment := process.Look();
      asked := moment;
      if key.Key? && key.text != "" && KeyTaken(process.world, user, key) {
        var o :| o in process.world.orders && process.world.orders[o].user == user
            && process.world.orders[o].key == key;
        return Success(o), moment, asked;
      }
      if !eventExists { return Failure(UnknownEvent), moment, asked; }
      ghost var read := process.trace;
      r, asked := Book(user, event, quantity, key, grant, since);
      assert process.trace[..moment] == read;
    }

    /** The part after the lookup has found nothing. */
    method Book(user: UserId, event: EventId, quantity: int, key: Key, grant: Grant, ghost since: World)
      returns (r: Result<OrderId, Problem>, ghost asked: nat)
      requires process.Valid() && !Replayed(process.world, user, key) && Grows(since, process.world)
      modifies process
      ensures process.Valid() && Grows(since, process.world)
      ensures |old(process.trace)| <= asked <= |process.trace| && old(process.trace) <= process.trace
      ensures process.own == old(process.own) + BookSteps(user, event, quantity, key, grant, old(process.world.next), r)
      ensures Booked(process.world, process.At(asked), user, event, quantity, key, grant, old(process.world.next), r)
      ensures old(process.elsewhere) == [] ==>
                Attempt(old(process.world), process.world, user, event, quantity, key, grant, r)
    {
      var k := process.world.next;
      ghost var read := process.world;
      AloneAttempt(read, user, event, quantity, key, grant);
      process.Take(StartBooking(user, event, quantity, key), since);
      assert process.world.tasks[k] == Reserving(user, event, quantity, key);
      r, asked := Fill(k, grant, since);
    }

    /** The reserve call, and what follows it. */
    method Fill(k: TaskId, grant: Grant, ghost since: World) returns (r: Result<OrderId, Problem>, ghost asked: nat)
      requires process.Valid() && k in process.world.tasks && process.world.tasks[k].Reserving?
      requires k < process.world.next && Grows(since, process.world)
      modifies process
      ensures process.Valid() && Grows(since, process.world)
      ensures |old(process.trace)| <= asked <= |process.trace| && old(process.trace) <= process.trace
      ensures process.own == old(process.own) + FillSteps(k, grant, r)
      ensures var t := old(process.world.tasks[k]);
              Booked(process.world, process.At(asked), t.user, t.event, t.quantity, t.key, grant, k, r)
      ensures old(process.elsewhere) == [] ==> (process.world, r) == FillAlone(old(process.world), k, grant)
    {
      process.Await(k, since);
      var w := process.world;
      ghost var read := process.trace;
      asked := |read|;
      assert read[..asked] == read;
      process.Take(CallReserve(k, grant), since);
      AfterReserve(w, k, grant);
      RefusedWith(w, k, grant);
      if k !in process.world.tasks {
        r := Failure(NoSeats(RefusalOf(w, k, grant)));
      } else {
        r := Finish(k, since);
      }
      assert process.trace[..asked] == read;
    }

    /** Inserts and announces the order whose seats are reserved. */
    method Finish(k: TaskId, ghost since: World) returns (r: Result<OrderId, Problem>)
      requires process.Valid() && k in process.world.tasks && process.world.tasks[k].Inserting?
      requires k < process.world.next
      requires Grows(since, process.world)
      modifies process
      ensures process.Valid() && Grows(since, process.world) && old(process.trace) <= process.trace
      ensures process.own == old(process.own) + if r.Success? then [Insert(k), Announce(k)] else [Insert(k)]
      ensures r.Success? ==> (
        var t := old(process.world.tasks[k]);
        && r.value == k && k in process.world.orders && OrderCreated(k) in process.world.mail
        && process.world.orders[k] == Order(t.user, t.event, t.hold, t.quantity, process.world.orders[k].status, t.key))
      ensures r.Failure? ==> (
        && r.error == KeyConflict && k !in process.world.orders
        && KeyTaken(process.world, old(process.world.tasks[k]).user, old(process.world.tasks[k]).key))
      ensures old(process.elsewhere) == [] ==> (process.world, r) == FinishAlone(old(process.world), k)
    {
      process.Await(k, since);
      ghost var w := process.world;
      process.Take(Insert(k), since);
      AfterInsert(w, k);
      if k !in process.world.tasks { return Failure(KeyConflict); }
      ghost var stored := process.world;
      AwaitAnnounce(k, since, stored);
      return Success(k);
    }

    method AwaitAnnounce(k: TaskId, ghost since: World, ghost stored: World)
      requires process.Valid() && process.world == stored && Grows(since, stored)
      requires k in stored.tasks && stored.tasks[k] == Announcing(k) && k < stored.next && k in stored.orders
      modifies process
      ensures process.Valid() && Grows(since, process.world) && OrderCreated(k) in process.world.mail
      ensures k in process.world.orders
      ensures process.world.orders[k] == stored.orders[k].(status := process.world.orders[k].status)
      ensures old(process.trace) <= process.trace && process.own == old(process.own) + [Announce(k)]
      ensures old(process.elsewhere) == [] ==> process.world == Exec(stored, Announce(k))
    {
      GrowsReflexive(stored);
      process.Await(k, stored);
      process.Take(Announce(k), stored);
      GrowsTransitive(since, stored, process.world);
    }

    /** Releases the order's seats, then stores CANCELLED over whatever status is there, provided the order was
      * the caller's and open when read, at `moment`. */
    method CancelOrder(order: OrderId, user: UserId) returns (r: Result<(), Problem>, ghost moment: nat)
      requires process.Valid()
      modifies process
      ensures process.Valid() && Grows(old(process.world), process.world)
      ensures |old(process.trace)| <= moment <= |process.trace| && old(process.trace) <= process.trace
      ensures r == Failure(UnknownOrder) <==> !Owns(process.At(moment), order, user)
      ensures r == Failure(NotCancellable) <==>
                Owns(process.At(moment), order, user)
                && process.At(moment).orders[order].status in {CancelledOrder, ExpiredOrder}
      ensures r.Failure? ==> r.error in {UnknownOrder, NotCancellable}
      ensures process.own == old(process.own) + if r.Success? then DropSteps(order, process.At(moment).next) else []
      ensures r.Success? ==> GivenUp(process.world, order) && process.world.orders[order].user == user
      ensures old(process.elsewhere) == [] ==> (
                && process.At(moment) == old(process.world)
                && process.world == if r.Failure? then old(process.world) else Cancelled(old(process.world), order))
    {
      ghost var since := process.world;
      moment := process.Look();
      ghost var read := process.trace;
      if order !in process.world.orders || process.world.orders[order].user != user {
        return Failure(UnknownOrder), moment;
      }
      var status := process.world.orders[order].status;
      if status == CancelledOrder || status == ExpiredOrder { return Failure(NotCancellable), moment; }
      GiveUp(order, since);
      assert process.trace[..moment] == read;
      r := Success(());
    }

    /** The cancellation of an order read as open. */
    method GiveUp(order: OrderId, ghost since: World)
      requires process.Valid() && Grows(since, process.world)
      requires order in process.world.orders && !Closed(process.world, order)
      modifies process
      ensures process.Valid() && Grows(since, process.world) && GivenUp(process.world, order)
      ensures process.world.orders[order].user == old(process.world.orders[order].user)
      ensures old(process.elsewhere) == [] ==> process.world == Cancelled(old(process.world), order)
      ensures old(process.trace) <= process.trace
      ensures process.own == old(process.own) + DropSteps(order, old(process.world.next))
    {
      var k := process.world.next;
      ghost var seen := process.world;
      GrowsReflexive(seen);
      process.Take(StartCancel(order), seen);
      Drop(k, order, seen);
      GrowsTransitive(since, seen, process.world);
    }

    /** The call and the store of a cancellation. */
    method Drop(k: TaskId, order: OrderId, ghost since: World)
      requires process.Valid() && k in process.world.tasks && process.world.tasks[k] == Cancelling(order)
      requires k < process.world.next && Grows(since, process.world)
      modifies process
      ensures process.Valid() && Grows(since, process.world) && GivenUp(process.world, order)
      ensures old(process.elsewhere) == [] ==>
                process.world == Exec(Exec(old(process.world), CallRelease(k)), StoreCancelled(k))
      ensures old(process.trace) <= process.trace
      ensures process.own == old(process.own) + [CallRelease(k), StoreCancelled(k)]
    {
      process.Await(k, since);
      ghost var w := process.world;
      process.Take(CallRelease(k), since);
      AfterDrop(w, k);
      process.Await(k, since);
      AfterDropStore(process.world, k);
      process.Take(StoreCancelled(k), since);
    }
  }

  predicate HasKey(w: World, o: OrderId, user: UserId, key: Key) {
    o in w.orders && w.orders[o].user == user && w.orders[o].key == key
  }

  /** What booking `k`, past its lookup, leaves in `w` when it answers `r`, whoever else acts: the new order with
    * its reservation, announced; or a key that someone has taken; or what the reserve call raised on the tables
    * it found. */
  predicate Booked(w: World, asked: World, user: UserId, event: EventId, quantity: int, key: Key, grant: Grant,
                   k: TaskId, r: Result<OrderId, Problem>)
  {
    match r
    case Success(o) =>
      && o == k && o in w.orders && OrderCreated(o) in w.mail
      && w.orders[o] == Order(user, event, grant.hold, quantity, w.orders[o].status, key)
    case Failure(KeyConflict) => KeyTaken(w, user, key) && k !in w.orders
    case Failure(NoSeats(error)) =>
      Apply(asked.db, Reserve(event, grant.hold, k, quantity, grant.expiresAt)) == Raised(error)
    case _ => false
  }

  function DropSteps(order: OrderId, k: TaskId): seq<Step> {
    [StartCancel(order), CallRelease(k), StoreCancelled(k)]
  }

  predicate Owns(w: World, order: OrderId, user: UserId) { order in w.orders && w.orders[order].user == user }

  predicate Closed(w: World, order: OrderId) { Is(w, order, CancelledOrder) || Is(w, order, ExpiredOrder) }

  /** CANCELLED, with its seats given back. */
  predicate GivenUp(w: World, order: OrderId) {
    Is(w, order, CancelledOrder) && Known(w.db, w.orders, order) && HoldOf(w.db, w.orders, order).Dead()
  }

  /** The whole of a cancellation, with nobody else acting. */
  function Cancelled(w: World, order: OrderId): World {
    var k := w.next;
    Exec(Exec(Exec(w, StartCancel(order)), CallRelease(k)), StoreCancelled(k))
  }

  /** A cancellation alone: the order is CANCELLED, its reservation RELEASED unless it was dead already,
    * by one inventory call, no other order or reservation changes and nothing is published. Whether the
    * order was CONFIRMED is on record. */
  lemma CancelledMeans(w: World, order: OrderId)
    requires OrdersOk(w) && order in w.orders && !Closed(w, order)
    ensures var w', was := Cancelled(w, order), w.orders[order];
            && w'.orders == w.orders[order := was.(status := CancelledOrder)]
            && was.hold in w.db.holds && Called(w, w', Release(was.hold, false))
            && w'.issued == w.issued && w'.mail == w.mail && w'.late == w.late
            && w'.torn == if was.status == ConfirmedOrder then w.torn + {order} else w.torn
    ensures var id := w.orders[order].hold;
            Cancelled(w, order).db.holds
                 == w.db.holds[id := if w.db.holds[id].status.Dead() then w.db.holds[id]
                                     else w.db.holds[id].(status := Released)]
  {
    OrderIsKnown(w, order);
    var k := w.next;
    var w1 := Exec(w, StartCancel(order));
    assert w1 == w.(tasks := w.tasks[k := Cancelling(order)], next := k + 1);
    AfterDrop(w1, k);
    var w2 := Exec(w1, CallRelease(k));
    assert w2.orders == w1.orders && w2.issued == w.issued && w2.mail == w.mail && w2.late == w.late;
  }

  lemma AfterDrop(w: World, k: TaskId)
    requires k in w.tasks && w.tasks[k].Cancelling? && Known(w.db, w.orders, w.tasks[k].order)
    ensures var w' := Exec(w, CallRelease(k));
            k in w'.tasks && w'.tasks[k] == Dropping(w.tasks[k].order) && w'.next == w.next
  {
  }

  lemma AfterDropStore(w: World, k: TaskId)
    requires k in w.tasks && w.tasks[k].Dropping? && TaskOk(w.db, w.orders, k, w.tasks[k])
    ensures GivenUp(Exec(w, StoreCancelled(k)), w.tasks[k].order)
  {
  }

  function FinishAlone(w: World, k: TaskId): (World, Result<OrderId, Problem>) {
    var w1 := Exec(w, Insert(k));
    if k !in w1.tasks then (w1, Failure(KeyConflict)) else (Exec(w1, Announce(k)), Success(k))
  }

  function FillAlone(w: World, k: TaskId, grant: Grant): (World, Result<OrderId, Problem>)
    requires k in w.tasks && w.tasks[k].Reserving?
  {
    var w1 := Exec(w, CallReserve(k, grant));
    if k !in w1.tasks then (w1, Failure(NoSeats(RefusalOf(w, k, grant)))) else FinishAlone(w1, k)
  }

  lemma AfterReserve(w: World, k: TaskId, grant: Grant)
    requires k in w.tasks && w.tasks[k].Reserving?
    ensures var w', t := Exec(w, CallReserve(k, grant)), w.tasks[k];
            k in w'.tasks ==>
              w'.tasks[k] == Inserting(t.user, t.event, t.quantity, t.key, grant.hold) && w'.next == w.next
  {
  }

  lemma RefusedWith(w: World, k: TaskId, grant: Grant)
    requires k in w.tasks && w.tasks[k].Reserving?
    ensures var t := w.tasks[k];
            k !in Exec(w, CallReserve(k, grant)).tasks ==>
              Apply(w.db, Reserve(t.event, grant.hold, k, t.quantity, grant.expiresAt))
                == Raised(RefusalOf(w, k, grant))
  {
  }

  lemma AfterInsert(w: World, k: TaskId)
    requires k in w.tasks && w.tasks[k].Inserting?
    ensures var w', t := Exec(w, Insert(k)), w.tasks[k];
            && (k in w'.tasks <==> !KeyTaken(w, t.user, t.key))
            && (k in w'.tasks ==> w'.tasks[k] == Announcing(k) && k in w'.orders
                                  && w'.orders[k] == Order(t.user, t.event, t.hold, t.quantity, PendingOrder, t.key))
  {
  }

  /** With nobody else acting, the steps of a booking amount to an `Attempt`. */
  lemma AloneAttempt(w: World, user: UserId, event: EventId, quantity: int, key: Key, grant: Grant)
    requires !Replayed(w, user, key)
    ensures var k := w.next;
            var w1 := Exec(w, StartBooking(user, event, quantity, key));
            && k in w1.tasks && w1.tasks[k] == Reserving(user, event, quantity, key) && w1.next == k + 1
            && var end := FillAlone(w1, k, grant);
               Attempt(w, end.0, user, event, quantity, key, grant, end.1)
  {
    var k := w.next;
    var w1 := Exec(w, StartBooking(user, event, quantity, key));
    var w2 := Exec(w1, CallReserve(k, grant));
    AfterReserve(w1, k, grant);
    if k in w2.tasks { AfterInsert(w2, k); }
    assert KeyTaken(w2, user, key) <==> KeyTaken(w, user, key);
  }

  /** The error the reserve RPC raised for task `k`. */
  function RefusalOf(w: World, k: TaskId, grant: Grant): Error
    requires k in w.tasks && w.tasks[k].Reserving?
  {
    match Apply(w.db, Reserve(w.tasks[k].event, grant.hold, k, w.tasks[k].quantity, grant.expiresAt))
    case Raised(error) => error
    case _ => NotFound
  }
}
