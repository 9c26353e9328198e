/** `order_status_worker` and `reservation_reaper`: what one handled message or one sweep does. */
module OrderStatusWorker {
  import opened Inventory
  import opened CommitLog
  import Settlement
  import opened Orders
  import opened OrderInvariants
  import opened ApiProcess

  class OrderStatusWorker {
    const process: Process

    constructor (process: Process)
      ensures this.process == process
    {
      this.process := process;
    }

    /** A payment result. An order that is not PENDING when read, at `moment`, is left alone, which makes
      * replays harmless; otherwise inventory is called, the answer is ignored, and the order is overwritten. */
    method HandlePaymentProcessed(order: OrderId, success: bool) returns (handled: bool, ghost moment: nat)
      requires process.Valid() && PaymentProcessed(order, success) in process.world.mail
      modifies process
      ensures process.Valid() && Grows(old(process.world), process.world)
      ensures old(process.world.issued) <= process.world.issued
      ensures |old(process.trace)| <= moment <= |process.trace| && old(process.trace) <= process.trace
      ensures handled <==> Is(process.At(moment), order, PendingOrder)
      ensures process.own == old(process.own) +
                             (if handled then PaySteps(order, success, process.At(moment).next) else [])
      ensures old(process.elsewhere) == [] ==>
                && (handled <==> Is(old(process.world), order, PendingOrder))
                && process.world == if handled then Paid(old(process.world), order, success) else old(process.world)
      ensures handled ==> Known(process.world.db, process.world.orders, order)
      ensures handled && success ==>
          HoldOf(process.world.db, process.world.orders, order) != Pending && order in process.world.issued
      ensures handled && !success ==>
                HoldOf(process.world.db, process.world.orders, order).Dead() && Is(process.world, order, CancelledOrder)
    {
      ghost var since := process.world;
      moment := process.Look();
      ghost var read := process.trace;
      if order !in process.world.orders || process.world.orders[order].status != PendingOrder {
        return false, moment;
      }
      Pay(order, success, since);
      assert process.trace[..moment] == read;
      handled := true;
    }

    /** The handler of a payment whose order was read as PENDING. */
    method Pay(order: OrderId, success: bool, ghost since: World)
      requires process.Valid() && PaymentProcessed(order, success) in process.world.mail
      requires Is(process.world, order, PendingOrder) && Grows(since, process.world)
      modifies process
      ensures process.Valid() && Grows(since, process.world) && old(process.world.issued) <= process.world.issued
      ensures Known(process.world.db, process.world.orders, order)
      ensures success ==>
          HoldOf(process.world.db, process.world.orders, order) != Pending && order in process.world.issued
      ensures !success ==>
          HoldOf(process.world.db, process.world.orders, order).Dead() && Is(process.world, order, CancelledOrder)
      ensures old(process.elsewhere) == [] ==> process.world == Paid(old(process.world), order, success)
      ensures old(process.trace) <= process.trace
      ensures process.own == old(process.own) + PaySteps(order, success, old(process.world.next))
    {
      var k := process.world.next;
      AfterStartPayment(process.world, order, success);
      process.Take(StartPayment(order, success), since);
      Settle(k, order, success, since);
    }

    /** The inventory call, the store and the ticket of a payment handler. */
    method Settle(k: TaskId, order: OrderId, success: bool, ghost since: World)
      requires process.Valid() && k in process.world.tasks && process.world.tasks[k] == Paying(order, success)
      requires k < process.world.next && Grows(since, process.world)
      modifies process
      ensures process.Valid() && Grows(since, process.world) && old(process.world.issued) <= process.world.issued
      ensures Known(process.world.db, process.world.orders, order)
      ensures success ==>
          HoldOf(process.world.db, process.world.orders, order) != Pending && order in process.world.issued
      ensures !success ==>
          HoldOf(process.world.db, process.world.orders, order).Dead() && Is(process.world, order, CancelledOrder)
      ensures old(process.elsewhere) == [] ==> process.world == PaidFrom(old(process.world), k, success)
      ensures old(process.trace) <= process.trace
      ensures process.own == old(process.own) + [CallSettle(k)] + StoreSteps(k, success)
    {
      process.Await(k, since);
      AfterSettle(process.world, k);
      process.Take(CallSettle(k), since);
      StoreResult(k, order, success, since);
    }

    /** The store and the ticket, once inventory has answered. */
    method StoreResult(k: TaskId, order: OrderId, success: bool, ghost since: World)
      requires process.Valid() && k in process.world.tasks && process.world.tasks[k].Settling?
      requires process.world.tasks[k].order == order && process.world.tasks[k].success == success
      requires k < process.world.next && Grows(since, process.world)
      modifies process
      ensures process.Valid() && Grows(since, process.world) && old(process.world.issued) <= process.world.issued
      ensures Known(process.world.db, process.world.orders, order)
      ensures success ==>
          HoldOf(process.world.db, process.world.orders, order) != Pending && order in process.world.issued
      ensures !success ==>
          HoldOf(process.world.db, process.world.orders, order).Dead() && Is(process.world, order, CancelledOrder)
      ensures old(process.elsewhere) == [] ==>
                process.world == (var w := Exec(old(process.world), StoreSettled(k));
                                  if success then Exec(w, Issue(k)) else w)
      ensures old(process.trace) <= process.trace && process.own == old(process.own) + StoreSteps(k, success)
    {
      process.Await(k, since);
      AfterStore(process.world, k);
      process.Take(StoreSettled(k), since);
      if success { IssueTicket(k, order, since); }
    }

    /** The publish after a committed confirmation. */
    method IssueTicket(k: TaskId, order: OrderId, ghost since: World)
      requires process.Valid() && k in process.world.tasks && process.world.tasks[k] == Issuing(order)
      requires k < process.world.next && Grows(since, process.world)
      modifies process
      ensures process.Valid() && Grows(since, process.world) && old(process.world.issued) <= process.world.issued
      ensures Known(process.world.db, process.world.orders, order)
      ensures HoldOf(process.world.db, process.world.orders, order) != Pending && order in process.world.issued
      ensures old(process.elsewhere) == [] ==> process.world == Exec(old(process.world), Issue(k))
      ensures old(process.trace) <= process.trace && process.own == old(process.own) + [Issue(k)]
    {
      process.Await(k, since);
      ghost var w := process.world;
      process.Take(Issue(k), since);
      assert process.world.issued[|w.issued|] == order;
    }

    /** An expiry notice: an order PENDING when read, at `moment`, becomes EXPIRED, any other is left alone. */
    method HandleReservationExpired(order: OrderId, hold: HoldId) returns (handled: bool, ghost moment: nat)
      requires process.Valid() && ReservationExpired(order, hold) in process.world.mail
      modifies process
      ensures process.Valid() && Grows(old(process.world), process.world)
      ensures |old(process.trace)| <= moment <= |process.trace| && old(process.trace) <= process.trace
      ensures handled <==> Is(process.At(moment), order, PendingOrder)
      ensures process.own == old(process.own) +
                             (if handled then LapseSteps(order, hold, process.At(moment).next) else [])
      ensures handled ==> Is(process.world, order, ExpiredOrder) && Known(process.world.db, process.world.orders, order)
                          && HoldOf(process.world.db, process.world.orders, order) == Expired
      ensures old(process.elsewhere) == [] ==>
                && (handled <==> Is(old(process.world), order, PendingOrder))
                && process.world == if handled then Lapsed(old(process.world), order, hold) else old(process.world)
    {
      ghost var since := process.world;
      moment := process.Look();
      ghost var read := process.trace;
      if order !in process.world.orders || process.world.orders[order].status != PendingOrder {
        return false, moment;
      }
      Lapse(order, hold, since);
      assert process.trace[..moment] == read;
      handled := true;
    }

    /** The handler of an expiry notice whose order was read as PENDING. */
    method Lapse(order: OrderId, hold: HoldId, ghost since: World)
      requires process.Valid() && ReservationExpired(order, hold) in process.world.mail
      requires Is(process.world, order, PendingOrder) && Grows(since, process.world)
      modifies process
      ensures process.Valid() && Grows(since, process.world)
      ensures Is(process.world, order, ExpiredOrder) && Known(process.world.db, process.world.orders, order)
              && HoldOf(process.world.db, process.world.orders, order) == Expired
      ensures old(process.elsewhere) == [] ==> process.world == Lapsed(old(process.world), order, hold)
      ensures old(process.trace) <= process.trace
      ensures process.own == old(process.own) + LapseSteps(order, hold, old(process.world.next))
    {
      var k := process.world.next;
      AfterStartLapse(process.world, order, hold);
      process.Take(StartLapse(order, hold), since);
      process.Await(k, since);
      AfterLapse(process.world, k);
      process.Take(StoreLapsed(k), since);
    }

    /** One pass of the reaper over a page the query returned: the sweep is one transaction, nothing if the
      * page is empty or, at `moment`, has moved since; then one message per reservation, in order. Once it is
      * through, each of the page is EXPIRED and its order's handler can be told. */
    method Reap(page: seq<HoldId>, now: int) returns (released: bool, ghost moment: nat)
      requires process.Valid()
      modifies process
      ensures process.Valid() && Grows(old(process.world), process.world)
      ensures |old(process.trace)| <= moment <= |process.trace| && old(process.trace) <= process.trace
      ensures released <==> Sweepable(process.At(moment).db, page, now)
      ensures process.own == old(process.own) +
                             (if released then ReapSteps(page, now, process.At(moment).next) else [])
      ensures released ==> AllTold(process.world, page)
      ensures old(process.elsewhere) == [] ==>
                && (released <==> Sweepable(old(process.world.db), page, now))
                && process.world == if released then Reaped(old(process.world), page, now) else old(process.world)
    {
      ghost var since := process.world;
      moment := process.Look();
      ghost var read := process.trace;
      if !Sweepable(process.world.db, page, now) { return false, moment; }
      SweepAndTell(page, now, since);
      assert process.trace[..moment] == read;
      released := true;
    }

    /** A page that is still as it was read: the sweep, then the messages. */
    method SweepAndTell(page: seq<HoldId>, now: int, ghost since: World)
      requires process.Valid() && Grows(since, process.world) && Sweepable(process.world.db, page, now)
      modifies process
      ensures process.Valid() && Grows(since, process.world) && AllTold(process.world, page)
      ensures old(process.elsewhere) == [] ==> process.world == Reaped(old(process.world), page, now)
      ensures old(process.trace) <= process.trace
      ensures process.own == old(process.own) + ReapSteps(page, now, old(process.world.next))
    {
      var k := process.world.next;
      AfterSweep(process.world, page, now);
      process.Take(Sweep(page, now), since);
      TellAll(k, page, since);
    }

    /** The publishing loop after a committed sweep. */
    method TellAll(k: TaskId, page: seq<HoldId>, ghost since: World)
      requires process.Valid() && k in process.world.tasks && process.world.tasks[k] == Reaping(page) && page != []
      requires k < process.world.next && Grows(since, process.world)
      modifies process
      ensures process.Valid() && Grows(since, process.world) && AllTold(process.world, page)
      ensures old(process.elsewhere) == [] ==> process.world == ToldMany(old(process.world), k, |page|)
      ensures old(process.trace) <= process.trace && process.own == old(process.own) + Tellings(k, |page|)
    {
      ghost var swept := process.world;
      Reachable(process.trace);
      assert TaskOk(swept.db, swept.orders, k, Reaping(page));
      TellLoop(k, page);
      GrowsTransitive(since, swept, process.world);
      ToldEach(swept, process.world, page);
    }

    /** One message per reservation of the page. */
    method TellLoop(k: TaskId, page: seq<HoldId>)
      requires process.Valid() && k in process.world.tasks && process.world.tasks[k] == Reaping(page) && page != []
      requires k < process.world.next && AllKnown(process.world.db, page)
      modifies process
      ensures process.Valid() && Grows(old(process.world), process.world)
      ensures Notices(old(process.world.db), page) <= process.world.mail
      ensures old(process.elsewhere) == [] ==> process.world == ToldMany(old(process.world), k, |page|)
      ensures old(process.trace) <= process.trace && process.own == old(process.own) + Tellings(k, |page|)
    {
      ghost var swept := process.world;
      GrowsReflexive(swept);
      for i := 0 to |page|
        invariant process.Valid() && Grows(swept, process.world) && k < process.world.next
        invariant i < |page| ==> k in process.world.tasks && process.world.tasks[k] == Reaping(page[i..])
        invariant Notices(swept.db, page[..i]) <= process.world.mail
        invariant old(process.elsewhere) == [] ==> process.elsewhere == [] && process.world == ToldMany(swept, k, i)
        invariant old(process.trace) <= process.trace && process.own == old(process.own) + Tellings(k, i)
      {
        TellNext(k, page, i, swept);
      }
      assert page[..|page|] == page;
    }

    method TellNext(k: TaskId, page: seq<HoldId>, i: nat, ghost swept: World)
      requires process.Valid() && Grows(swept, process.world) && k < process.world.next && i < |page|
      requires k in process.world.tasks && process.world.tasks[k] == Reaping(page[i..])
      requires AllKnown(swept.db, page) && Notices(swept.db, page[..i]) <= process.world.mail
      modifies process
      ensures process.Valid() && Grows(swept, process.world) && k < process.world.next
      ensures i + 1 < |page| ==> k in process.world.tasks && process.world.tasks[k] == Reaping(page[i + 1..])
      ensures Notices(swept.db, page[..i + 1]) <= process.world.mail
      ensures old(process.elsewhere) == [] ==>
          process.elsewhere == [] && process.world == Exec(old(process.world), PublishExpired(k))
      ensures old(process.trace) <= process.trace && process.own == old(process.own) + [PublishExpired(k)]
    {
      process.Await(k, swept);
      ToldNext(process.world, swept, k, page, i);
      process.Take(PublishExpired(k), swept);
      assert page[..i + 1][..i] == page[..i];
    }
  }

  // ----- the steps of each handler, in the order it takes them -----

  function PaySteps(order: OrderId, success: bool, k: TaskId): seq<Step> {
    [StartPayment(order, success), CallSettle(k)] + StoreSteps(k, success)
  }

  function StoreSteps(k: TaskId, success: bool): seq<Step> {
    [StoreSettled(k)] + if success then [Issue(k)] else []
  }

  function LapseSteps(order: OrderId, hold: HoldId, k: TaskId): seq<Step> {
    [StartLapse(order, hold), StoreLapsed(k)]
  }

  function ReapSteps(page: seq<HoldId>, now: int, k: TaskId): seq<Step> {
    [Sweep(page, now)] + Tellings(k, |page|)
  }

  function Tellings(k: TaskId, n: nat): seq<Step> {
    if n == 0 then [] else Tellings(k, n - 1) + [PublishExpired(k)]
  }

  predicate AllKnown(db: Store, page: seq<HoldId>) { forall i :: 0 <= i < |page| ==> page[i] in db.holds }

  /** The messages about a page. */
  function Notices(db: Store, page: seq<HoldId>): set<Message>
    requires AllKnown(db, page)
  {
    if page == [] then {} else Notices(db, page[..|page| - 1]) + {NoticeOf(db, page[|page| - 1])}
  }

  function NoticeOf(db: Store, hold: HoldId): Message
    requires hold in db.holds
  {
    ReservationExpired(db.holds[hold].order, hold)
  }

  /** The page is EXPIRED, and a message about each of it is out. */
  predicate AllTold(w: World, page: seq<HoldId>) {
    forall i :: 0 <= i < |page| ==>
      page[i] in w.db.holds && w.db.holds[page[i]].status == Expired && NoticeOf(w.db, page[i]) in w.mail
  }

  lemma {:induction false} InNotices(db: Store, page: seq<HoldId>, i: nat)
    requires AllKnown(db, page) && i < |page|
    ensures NoticeOf(db, page[i]) in Notices(db, page)
  {
    if i < |page| - 1 { InNotices(db, page[..|page| - 1], i); }
  }

  lemma ToldEach(swept: World, w: World, page: seq<HoldId>)
    requires Grows(swept, w) && AllKnown(swept.db, page) && Notices(swept.db, page) <= w.mail
    requires forall i :: 0 <= i < |page| ==> swept.db.holds[page[i]].status == Expired
    ensures AllTold(w, page)
  {
    forall i | 0 <= i < |page|
      ensures page[i] in w.db.holds && w.db.holds[page[i]].status == Expired && NoticeOf(w.db, page[i]) in w.mail
    {
      InNotices(swept.db, page, i);
    }
  }

  /** The next message of the loop, about `page[i]`. */
  lemma ToldNext(w: World, swept: World, k: TaskId, page: seq<HoldId>, i: nat)
    requires i < |page| && k in w.tasks && w.tasks[k] == Reaping(page[i..]) && Grows(swept, w)
    requires page[i] in swept.db.holds
    ensures var w' := Exec(w, PublishExpired(k));
            && w'.mail == w.mail + {NoticeOf(swept.db, page[i])} && w'.next == w.next
            && (i + 1 < |page| ==> k in w'.tasks && w'.tasks[k] == Reaping(page[i + 1..]))
  {
    OneTold(w, k, page, i);
  }

  // ----- whole handlers, with nobody else acting -----

  function PaidFrom(w: World, k: TaskId, success: bool): World {
    var w' := Exec(Exec(w, CallSettle(k)), StoreSettled(k));
    if success then Exec(w', Issue(k)) else w'
  }

  function Paid(w: World, order: OrderId, success: bool): World {
    PaidFrom(Exec(w, StartPayment(order, success)), w.next, success)
  }

  function SettledHold(h: Hold, success: bool): Hold {
    if success then (if h.status == Pending then h.(status := Confirmed) else h)
    else (if h.status.Dead() then h else h.(status := Released))
  }

  /** A handled payment, alone: the order gets its final status; its reservation is confirmed if it was
    * PENDING or released if it was live, by one inventory call; a ticket goes out exactly on success and
    * nothing else is published; no other order or reservation changes. */
  lemma PaidMeans(w: World, order: OrderId, success: bool)
    requires OrdersOk(w) && Is(w, order, PendingOrder) && PaymentProcessed(order, success) in w.mail
    ensures var w', was := Paid(w, order, success), w.orders[order];
            && w'.orders == w.orders[order := was.(status := if success then ConfirmedOrder else CancelledOrder)]
            && was.hold in w.db.holds
            && Called(w, w', if success then Confirm(was.hold) else Release(was.hold, false))
            && w'.db.holds == w.db.holds[was.hold := SettledHold(w.db.holds[was.hold], success)]
            && w'.mail == w.mail && w'.torn == w.torn
            && w'.issued == (if success then w.issued + [order] else w.issued)
            && w'.late == (if success && w.db.holds[was.hold].status.Dead() then w.late + {order} else w.late)
  {
    OrderIsKnown(w, order);
    var k := w.next;
    var w1 := Exec(w, StartPayment(order, success));
    assert w1 == w.(tasks := w.tasks[k := Paying(order, success)], next := k + 1);
    SettledHolds(w1, k);
    StoredAndIssued(Exec(w1, CallSettle(k)), k);
  }

  /** The store moves one order, to CONFIRMED or CANCELLED by the payment's result alone, and neither the
    * store nor the ticket touches inventory or any topic but TICKET_ISSUED. */
  lemma StoredAndIssued(w: World, k: TaskId)
    requires k in w.tasks && w.tasks[k].Settling? && w.tasks[k].order in w.orders
    ensures var w1, t := Exec(w, StoreSettled(k)), w.tasks[k];
            var w' := if t.success then Exec(w1, Issue(k)) else w1;
            && w'.db == w.db && w'.log == w.log && w'.mail == w1.mail == w.mail && w'.torn == w.torn
            && w'.orders == w.orders[t.order := w.orders[t.order].(
                                       status := if t.success then ConfirmedOrder else CancelledOrder)]
            && w1.issued == w.issued && w'.issued == (if t.success then w.issued + [t.order] else w.issued)
            && w'.late == (if t.success && t.seen.Dead() then w.late + {t.order} else w.late)
            && w'.tasks == w.tasks - {k} && w'.next == w.next
  {
    var w1, t := Exec(w, StoreSettled(k)), w.tasks[k];
    if t.success { assert k in w1.tasks && w1.tasks[k] == Issuing(t.order); }
  }

  lemma SettledHolds(w: World, k: TaskId)
    requires k in w.tasks && w.tasks[k].Paying? && Known(w.db, w.orders, w.tasks[k].order)
    ensures var w', id := Exec(w, CallSettle(k)), w.orders[w.tasks[k].order].hold;
            var h := SettledHold(w.db.holds[id], w.tasks[k].success);
            && w'.db.holds == w.db.holds[id := h]
            && Called(w, w', if w.tasks[k].success then Confirm(id) else Release(id, false))
            && w' == w.(db := w'.db, log := w'.log,
                  tasks := w.tasks[k := Settling(w.tasks[k].order, w.tasks[k].success, h.status)])
  {
  }

  function Lapsed(w: World, order: OrderId, hold: HoldId): World {
    Exec(Exec(w, StartLapse(order, hold)), StoreLapsed(w.next))
  }

  /** An expiry notice, alone, moves one order to EXPIRED, and nothing else. */
  lemma LapsedMeans(w: World, order: OrderId, hold: HoldId)
    requires Is(w, order, PendingOrder) && ReservationExpired(order, hold) in w.mail
    ensures var w' := Lapsed(w, order, hold);
            && w'.orders == w.orders[order := w.orders[order].(status := ExpiredOrder)]
            && w'.db == w.db && w'.log == w.log && w'.mail == w.mail
            && w'.issued == w.issued && w'.late == w.late && w'.torn == w.torn
  {
    AfterStartLapse(w, order, hold);
  }

  function ToldMany(w: World, k: TaskId, n: nat): World {
    if n == 0 then w else Exec(ToldMany(w, k, n - 1), PublishExpired(k))
  }

  function Reaped(w: World, page: seq<HoldId>, now: int): World {
    ToldMany(Exec(w, Sweep(page, now)), w.next, |page|)
  }

  /** A pass alone: the page becomes EXPIRED in one transaction and no other reservation changes; exactly its
    * messages go out; no order is touched. */
  lemma ReapedMeans(w: World, page: seq<HoldId>, now: int)
    requires LogOk(w) && Sweepable(w.db, page, now)
    ensures var w' := Reaped(w, page, now);
            && w'.orders == w.orders && w'.issued == w.issued && w'.late == w.late && w'.torn == w.torn
            && w'.db == ReplayFrom(w.db, Settlement.ExpireAll(page)) && w'.log == w.log + Settlement.ExpireAll(page)
            && w'.db.holds.Keys == w.db.holds.Keys
            && (forall id :: id in w.db.holds ==>
                  w'.db.holds[id] == if id in page then w.db.holds[id].(status := Expired) else w.db.holds[id])
            && w'.mail == w.mail + Notices(w.db, page)
  {
    var swept := Exec(w, Sweep(page, now));
    SweptTables(w, page, now);
    ReapedMail(swept, w.next, page);
    SameNotices(w.db, swept.db, page);
  }

  /** What may be swept: 1 to 100 different reservations, all PENDING with their expiry before now. */
  lemma PageIsDue(db: Store, page: seq<HoldId>, now: int)
    ensures Sweepable(db, page, now) <==>
              (0 < |page| <= 100 && (forall i, j :: 0 <= i < j < |page| ==> page[i] != page[j]) &&
               forall i :: 0 <= i < |page| ==>
                 page[i] in db.holds && db.holds[page[i]].status == Pending && db.holds[page[i]].expiresAt < now)
  {
    if Sweepable(db, page, now) {
      forall i | 0 <= i < |page|
        ensures page[i] in db.holds && db.holds[page[i]].status == Pending && db.holds[page[i]].expiresAt < now
      {
        assert Settlement.Expirable(db, now, page[i]);
      }
    }
  }

  /** The sweep's part of a pass. */
  lemma SweptTables(w: World, page: seq<HoldId>, now: int)
    requires LogOk(w) && Sweepable(w.db, page, now)
    ensures var swept := Exec(w, Sweep(page, now));
            && w.next in swept.tasks && swept.tasks[w.next] == Reaping(page)
            && swept.orders == w.orders && swept.issued == w.issued && swept.mail == w.mail
            && swept.late == w.late && swept.torn == w.torn
            && swept.db == ReplayFrom(w.db, Settlement.ExpireAll(page))
            && swept.log == w.log + Settlement.ExpireAll(page)
            && swept.db.holds.Keys == w.db.holds.Keys && AllKnown(w.db, page)
            && (forall id :: id in w.db.holds ==>
                  swept.db.holds[id] == if id in page then w.db.holds[id].(status := Expired) else w.db.holds[id])
  {
    SweepMeans(w, page, now);
  }

  /** The messages' part of it. */
  lemma ReapedMail(swept: World, k: TaskId, page: seq<HoldId>)
    requires k in swept.tasks && swept.tasks[k] == Reaping(page) && AllKnown(swept.db, page)
    ensures var w' := ToldMany(swept, k, |page|);
            && w'.db == swept.db && w'.orders == swept.orders && w'.issued == swept.issued
            && w'.log == swept.log && w'.late == swept.late && w'.torn == swept.torn
            && w'.mail == swept.mail + Notices(swept.db, page)
  {
    ToldManyMeans(swept, k, page, |page|);
    assert page[..|page|] == page;
  }

  lemma {:induction false} SameNotices(db: Store, db': Store, page: seq<HoldId>)
    requires AllKnown(db, page) && AllKnown(db', page)
    requires forall i :: 0 <= i < |page| ==> db.holds[page[i]].order == db'.holds[page[i]].order
    ensures Notices(db, page) == Notices(db', page)
  {
    if page != [] { SameNotices(db, db', page[..|page| - 1]); }
  }

  lemma {:induction false} ToldManyMeans(w: World, k: TaskId, page: seq<HoldId>, n: nat)
    requires n <= |page| && k in w.tasks && w.tasks[k] == Reaping(page) && AllKnown(w.db, page)
    ensures var w' := ToldMany(w, k, n);
            && w'.db == w.db && w'.orders == w.orders && w'.issued == w.issued
            && w'.log == w.log && w'.late == w.late && w'.torn == w.torn
            && (n < |page| ==> k in w'.tasks && w'.tasks[k] == Reaping(page[n..]))
            && w'.mail == w.mail + Notices(w.db, page[..n])
  {
    if n > 0 {
      ToldManyMeans(w, k, page, n - 1);
      assert page[..n][..n - 1] == page[..n - 1];
      OneTold(ToldMany(w, k, n - 1), k, page, n - 1);
    } else {
      assert page[0..] == page;
    }
  }

  lemma OneTold(w: World, k: TaskId, page: seq<HoldId>, i: nat)
    requires i < |page| && k in w.tasks && w.tasks[k] == Reaping(page[i..]) && page[i] in w.db.holds
    ensures var w' := Exec(w, PublishExpired(k));
            && w'.db == w.db && w'.orders == w.orders && w'.issued == w.issued
            && w'.log == w.log && w'.late == w.late && w'.torn == w.torn
            && w'.mail == w.mail + {NoticeOf(w.db, page[i])}
            && (i + 1 < |page| ==> k in w'.tasks && w'.tasks[k] == Reaping(page[i + 1..]))
  {
    assert page[i..][0] == page[i] && page[i..][1..] == page[i + 1..];
  }

  lemma AfterSweep(w: World, page: seq<HoldId>, now: int)
    requires Sweepable(w.db, page, now)
    ensures var w' := Exec(w, Sweep(page, now));
            w.next in w'.tasks && w'.tasks[w.next] == Reaping(page) && w'.next == w.next + 1
  {
  }

  lemma AfterStartLapse(w: World, order: OrderId, hold: HoldId)
    requires ReservationExpired(order, hold) in w.mail && Is(w, order, PendingOrder)
    ensures var w' := Exec(w, StartLapse(order, hold));
            w.next in w'.tasks && w'.tasks[w.next] == Lapsing(order) && w'.next == w.next + 1
  {
  }

  lemma AfterLapse(w: World, k: TaskId)
    requires k in w.tasks && w.tasks[k].Lapsing? && Known(w.db, w.orders, w.tasks[k].order)
    ensures var w', o := Exec(w, StoreLapsed(k)), w.tasks[k].order;
            && w'.db == w.db && Is(w', o, ExpiredOrder) && Known(w'.db, w'.orders, o)
            && HoldOf(w'.db, w'.orders, o) == HoldOf(w.db, w.orders, o)
  {
  }

  lemma AfterStartPayment(w: World, order: OrderId, success: bool)
    requires PaymentProcessed(order, success) in w.mail && Is(w, order, PendingOrder)
    ensures var w' := Exec(w, StartPayment(order, success));
            w.next in w'.tasks && w'.tasks[w.next] == Paying(order, success) && w'.next == w.next + 1
  {
  }

  lemma AfterSettle(w: World, k: TaskId)
    requires k in w.tasks && w.tasks[k].Paying? && Known(w.db, w.orders, w.tasks[k].order)
    ensures var w', t := Exec(w, CallSettle(k)), w.tasks[k];
            k in w'.tasks && w'.tasks[k].Settling? && w'.tasks[k].order == t.order
              && w'.tasks[k].success == t.success && w'.next == w.next
  {
    var id := w.orders[w.tasks[k].order].hold;
    SettledStatus(w.db, id, w.tasks[k].success);
  }

  lemma AfterStore(w: World, k: TaskId)
    requires k in w.tasks && w.tasks[k].Settling? && Known(w.db, w.orders, w.tasks[k].order)
    ensures var w', t := Exec(w, StoreSettled(k)), w.tasks[k];
            && w'.next == w.next && w'.issued == w.issued
              && Is(w', t.order, if t.success then ConfirmedOrder else CancelledOrder)
            && w'.db == w.db && (t.success ==> k in w'.tasks && w'.tasks[k] == Issuing(t.order))
  {
  }
}
