/** The inventory service's two tables and the operations of `InventoryRepository`,
  * each as one atomic change of a store. Every other module is built on these:
  * the concurrent engine is shown to refine them, the order protocol calls them. */
module Inventory {

  type EventId = nat
  type OrderId = nat
  type HoldId = nat

  datatype Status = Pending | Confirmed | Released | Expired {
    /** RELEASED and EXPIRED are never left again. */
    predicate Dead() { Released? || Expired? }
  }

  /** One row of `event_inventory`. */
  datatype Row = Row(capacity: int, reserved: int, confirmed: int, version: nat) {
    function Available(): int { capacity - reserved - confirmed }
    function Taken(): int { reserved + confirmed }
  }

  /** One row of `reservations`. */
  datatype Hold = Hold(event: EventId, order: OrderId, quantity: int, status: Status, expiresAt: int) {
    /** The seats this hold contributes to the counter of event `e` that tracks status `st`. */
    function Share(e: EventId, st: Status): int {
      if event == e && status == st then quantity else 0
    }
  }

  datatype Store = Store(rows: map<EventId, Row>, holds: map<HoldId, Hold>)

  const EMPTY := Store(map[], map[])

  datatype Error =
    | InvalidQuantity | NotFound | CapacityExceeded | DuplicateKey
    | Stale | Conflict | LockUnavailable

  /** One repository call. `Reserve` carries the identifier that the new row will get. */
  datatype Op =
    | Initialize(event: EventId, capacity: int)
    | Adjust(event: EventId, capacity: int)
    | Reserve(event: EventId, id: HoldId, order: OrderId, quantity: int, expiresAt: int)
    | Confirm(id: HoldId)
    | Release(id: HoldId, expired: bool)

  datatype Outcome = Wrote(store: Store) | Unchanged | Raised(error: Error)

  /** The attribute assignments of a call, before the mapper touches the version column. */
  function Assign(db: Store, op: Op): Outcome {
    match op
    case Initialize(e, c) =>
      if e in db.rows then Unchanged
      else Wrote(db.(rows := db.rows[e := Row(c, 0, 0, 0)]))
    case Adjust(e, c) =>
      if e !in db.rows then Raised(NotFound)
      else if db.rows[e].capacity == c then Unchanged
      else Wrote(db.(rows := db.rows[e := db.rows[e].(capacity := c)]))
    case Reserve(e, id, order, q, expiresAt) =>
      if q <= 0 then Raised(InvalidQuantity)
      else if e !in db.rows then Raised(NotFound)
      else if db.rows[e].Available() < q then Raised(CapacityExceeded)
      else if id in db.holds then Raised(DuplicateKey)
      else Wrote(Store(db.rows[e := db.rows[e].(reserved := db.rows[e].reserved + q)],
                       db.holds[id := Hold(e, order, q, Pending, expiresAt)]))
    case Confirm(id) =>
      if id !in db.holds then Raised(NotFound)
      else
        var h := db.holds[id];
        if h.status != Pending then Unchanged
        else Wrote(Store(
          if h.event !in db.rows then db.rows
          else var w := db.rows[h.event];
               db.rows[h.event := w.(reserved := w.reserved - h.quantity, confirmed := w.confirmed + h.quantity)],
          db.holds[id := h.(status := Confirmed)]))
    case Release(id, expired) =>
      if id !in db.holds then Raised(NotFound)
      else
        var h := db.holds[id];
        if h.status.Dead() then Unchanged
        else Wrote(Store(
          if h.event !in db.rows then db.rows
          else var w := db.rows[h.event];
               db.rows[h.event := if h.status == Pending then w.(reserved := w.reserved - h.quantity)
                                  else w.(confirmed := w.confirmed - h.quantity)],
          db.holds[id := h.(status := if expired then Expired else Released)]))
  }

  /** The event whose row a writing call changes. */
  function Target(db: Store, op: Op): (e: EventId)
    requires Assign(db, op).Wrote?
  {
    match op
    case Initialize(e, _) => e
    case Adjust(e, _) => e
    case Reserve(e, _, _, _, _) => e
    case Confirm(id) => db.holds[id].event
    case Release(id, _) => db.holds[id].event
  }

  /** The mapper's part of an UPDATE or INSERT: the version column moves up by one. */
  function Bump(db: Store, e: EventId): Store {
    if e in db.rows then db.(rows := db.rows[e := db.rows[e].(version := db.rows[e].version + 1)]) else db
  }

  /** A whole call executed alone. */
  function Apply(db: Store, op: Op): Outcome {
    match Assign(db, op)
    case Wrote(after) => Wrote(Bump(after, Target(db, op)))
    case other => other
  }

  function Next(db: Store, op: Op): Store {
    match Apply(db, op)
    case Wrote(after) => after
    case _ => db
  }

  /** 0 stands for "no row". */
  function VersionAt(db: Store, e: EventId): nat {
    if e in db.rows then db.rows[e].version else 0
  }

  // ----- what each call does, to the last column -----

  /** A row after a write: the new counters, and a version up by one. */
  function Written(row: Row, capacity: int, reserved: int, confirmed: int): Row {
    Row(capacity, reserved, confirmed, row.version + 1)
  }

  /** A new row starts empty, at version 1, and an existing one is left alone. */
  lemma InitializeMeans(db: Store, e: EventId, c: int)
    ensures Apply(db, Initialize(e, c))
         == if e in db.rows then Unchanged else Wrote(Store(db.rows[e := Row(c, 0, 0, 1)], db.holds))
  {
  }

  /** A capacity change moves the capacity and nothing else. */
  lemma AdjustMeans(db: Store, e: EventId, c: int)
    ensures e !in db.rows <==> Apply(db, Adjust(e, c)) == Raised(NotFound)
    ensures e in db.rows ==>
              var r := db.rows[e];
              Apply(db, Adjust(e, c))
                == if r.capacity == c then Unchanged
                   else Wrote(Store(db.rows[e := Written(r, c, r.reserved, r.confirmed)], db.holds))
  {
  }

  /** A reservation is refused for the first of four reasons; otherwise it stores a PENDING row with the
    * event, order, quantity and expiry of the call, and moves as many seats to `reserved`. */
  lemma ReserveMeans(db: Store, e: EventId, id: HoldId, order: OrderId, q: int, expiresAt: int)
    ensures var outcome := Apply(db, Reserve(e, id, order, q, expiresAt));
            var seated := q > 0 && e in db.rows && db.rows[e].Available() >= q;
            && (q <= 0 <==> outcome == Raised(InvalidQuantity))
            && (q > 0 && e !in db.rows <==> outcome == Raised(NotFound))
            && (q > 0 && e in db.rows && db.rows[e].Available() < q <==> outcome == Raised(CapacityExceeded))
            && (seated && id in db.holds <==> outcome == Raised(DuplicateKey))
            && (seated && id !in db.holds ==>
                  var r := db.rows[e];
                  outcome == Wrote(Store(db.rows[e := Written(r, r.capacity, r.reserved + q, r.confirmed)],
                                         db.holds[id := Hold(e, order, q, Pending, expiresAt)])))
  {
  }

  /** A confirm moves a PENDING reservation's seats between the counters and changes its status, nothing else
    * of it; any other reservation is left alone. */
  lemma ConfirmMeans(db: Store, id: HoldId)
    ensures id !in db.holds <==> Apply(db, Confirm(id)) == Raised(NotFound)
    ensures id in db.holds && db.holds[id].status != Pending ==> Apply(db, Confirm(id)) == Unchanged
    ensures id in db.holds && db.holds[id].status == Pending ==>
              var h := db.holds[id];
              var rows := if h.event !in db.rows then db.rows
                          else
                            var r := db.rows[h.event];
                            db.rows[h.event :=
                                      Written(r, r.capacity, r.reserved - h.quantity, r.confirmed + h.quantity)];
              Apply(db, Confirm(id)) == Wrote(Store(rows, db.holds[id := h.(status := Confirmed)]))
  {
  }

  /** A release takes the seats off the counter that holds them. */
  lemma ReleaseMeans(db: Store, id: HoldId, expired: bool)
    ensures id !in db.holds <==> Apply(db, Release(id, expired)) == Raised(NotFound)
    ensures id in db.holds && db.holds[id].status.Dead() ==> Apply(db, Release(id, expired)) == Unchanged
    ensures id in db.holds && !db.holds[id].status.Dead() ==>
              var h := db.holds[id];
              var rows := if h.event !in db.rows then db.rows
                          else
                            var r := db.rows[h.event];
                            db.rows[h.event := Written(r, r.capacity, r.reserved - h.Share(h.event, Pending),
                                                       r.confirmed - h.Share(h.event, Confirmed))];
              Apply(db, Release(id, expired))
                == Wrote(Store(rows, db.holds[id := h.(status := if expired then Expired else Released)]))
  {
  }

  /** Which statuses a reservation can have later. */
  predicate Reaches(a: Status, b: Status) {
    a == b || a == Pending || (a == Confirmed && b.Dead())
  }

  // ----- the ledger -----

  /** Seats held by `ids` for event `e` in status `st`. */
  ghost function Total(holds: map<HoldId, Hold>, ids: set<HoldId>, e: EventId, st: Status): int
    requires ids <= holds.Keys
    decreases |ids|
  {
    if ids == {} then 0
    else
      var id :| id in ids;
      holds[id].Share(e, st) + Total(holds, ids - {id}, e, st)
  }

  ghost function Seats(db: Store, e: EventId, st: Status): int {
    Total(db.holds, db.holds.Keys, e, st)
  }

  lemma {:induction false} TotalRemove(holds: map<HoldId, Hold>, ids: set<HoldId>, id: HoldId, e: EventId, st: Status)
    requires ids <= holds.Keys && id in ids
    ensures Total(holds, ids, e, st) == holds[id].Share(e, st) + Total(holds, ids - {id}, e, st)
    decreases |ids|
  {
    var x :| x in ids && Total(holds, ids, e, st) == holds[x].Share(e, st) + Total(holds, ids - {x}, e, st);
    if x != id {
      TotalRemove(holds, ids - {x}, id, e, st);
      TotalRemove(holds, ids - {id}, x, e, st);
      assert ids - {x} - {id} == ids - {id} - {x};
    }
  }

  lemma {:induction false} TotalSame(h: map<HoldId, Hold>, h': map<HoldId, Hold>, ids: set<HoldId>, e: EventId,
                                     st: Status)
    requires ids <= h.Keys && ids <= h'.Keys
    requires forall id :: id in ids ==> h[id].Share(e, st) == h'[id].Share(e, st)
    ensures Total(h, ids, e, st) == Total(h', ids, e, st)
    decreases |ids|
  {
    if ids != {} {
      var id :| id in ids;
      TotalRemove(h, ids, id, e, st);
      TotalRemove(h', ids, id, e, st);
      TotalSame(h, h', ids - {id}, e, st);
    }
  }

  /** Writing one reservation moves each sum by exactly the difference of its shares. */
  lemma TotalUpdate(h: map<HoldId, Hold>, id: HoldId, v: Hold, e: EventId, st: Status)
    ensures Total(h[id := v], h[id := v].Keys, e, st)
         == Total(h, h.Keys, e, st) - (if id in h then h[id].Share(e, st) else 0) + v.Share(e, st)
  {
    var h' := h[id := v];
    TotalRemove(h', h'.Keys, id, e, st);
    assert h'.Keys - {id} == h.Keys - {id};
    TotalSame(h, h', h.Keys - {id}, e, st);
    if id in h {
      TotalRemove(h, h.Keys, id, e, st);
    } else {
      assert h.Keys - {id} == h.Keys;
    }
  }

  lemma {:induction false} TotalNonNegative(h: map<HoldId, Hold>, ids: set<HoldId>, e: EventId, st: Status)
    requires ids <= h.Keys && forall id :: id in ids ==> h[id].quantity > 0
    ensures Total(h, ids, e, st) >= 0
    decreases |ids|
  {
    if ids != {} {
      var id :| id in ids;
      TotalRemove(h, ids, id, e, st);
      TotalNonNegative(h, ids - {id}, e, st);
    }
  }

  /** Both counters of every event are the sums over the reservation table. */
  ghost predicate Ledger(db: Store) {
    forall e :: e in db.rows ==> Balanced(db, e)
  }

  /** The foreign key, the quantity check and the version counter's start. */
  ghost predicate Sound(db: Store) {
    && (forall id :: id in db.holds ==> db.holds[id].event in db.rows && db.holds[id].quantity > 0)
    && (forall e :: e in db.rows ==> db.rows[e].version >= 1)
  }

  ghost predicate Consistent(db: Store) { Sound(db) && Ledger(db) }

  lemma {:induction false} NoOtherSeats(h: map<HoldId, Hold>, ids: set<HoldId>, e: EventId, st: Status)
    requires ids <= h.Keys && forall id :: id in ids ==> h[id].event != e
    ensures Total(h, ids, e, st) == 0
    decreases |ids|
  {
    if ids != {} {
      var id :| id in ids;
      TotalRemove(h, ids, id, e, st);
      NoOtherSeats(h, ids - {id}, e, st);
    }
  }

  /** Ledger conservation: a call moves the counters by exactly what it moves the sums. */
  lemma ApplyKeepsConsistent(db: Store, op: Op)
    requires Consistent(db)
    ensures Consistent(Next(db, op))
  {
    if Apply(db, op).Wrote? {
      NextIsSound(db, op);
      forall e | e in Next(db, op).rows ensures Balanced(Next(db, op), e) {
        match op
        case Initialize(_, _) => InitializeBalances(db, op, e);
        case Adjust(_, _) => assert Balanced(db, e);
        case Reserve(_, id, _, _, _) => WriteBalances(db, op, id, e);
        case Confirm(id) => WriteBalances(db, op, id, e);
        case Release(id, _) => WriteBalances(db, op, id, e);
      }
    }
  }

  lemma NextIsSound(db: Store, op: Op)
    requires Sound(db)
    ensures Sound(Next(db, op))
  {
  }

  /** Both counters of event `e` are its sums. */
  ghost predicate Balanced(db: Store, e: EventId)
    requires e in db.rows
  {
    db.rows[e].reserved == Seats(db, e, Pending) && db.rows[e].confirmed == Seats(db, e, Confirmed)
  }

  lemma InitializeBalances(db: Store, op: Op, e: EventId)
    requires Consistent(db) && op.Initialize? && Apply(db, op).Wrote? && e in Next(db, op).rows
    ensures Balanced(Next(db, op), e)
  {
    if e in db.rows {
      assert Balanced(db, e);
    } else {
      NoOtherSeats(db.holds, db.holds.Keys, e, Pending);
      NoOtherSeats(db.holds, db.holds.Keys, e, Confirmed);
    }
  }

  /** A call that writes one reservation. */
  lemma WriteBalances(db: Store, op: Op, id: HoldId, e: EventId)
    requires Consistent(db) && Apply(db, op).Wrote? && e in Next(db, op).rows
    requires (op.Reserve? || op.Confirm? || op.Release?) && op.id == id
    ensures Balanced(Next(db, op), e)
  {
    var h := Next(db, op).holds[id];
    assert Balanced(db, e);
    WrittenHold(db, op);
    TotalUpdate(db.holds, id, h, e, Pending);
    TotalUpdate(db.holds, id, h, e, Confirmed);
    CountersMove(db, op, e);
  }

  lemma WrittenHold(db: Store, op: Op)
    requires Apply(db, op).Wrote? && (op.Reserve? || op.Confirm? || op.Release?)
    ensures op.id in Next(db, op).holds && Next(db, op).holds == db.holds[op.id := Next(db, op).holds[op.id]]
  {
  }

  /** The counters move by the difference of the reservation's shares. */
  lemma CountersMove(db: Store, op: Op, e: EventId)
    requires Sound(db) && Apply(db, op).Wrote? && (op.Reserve? || op.Confirm? || op.Release?) && e in db.rows
    ensures var db' := Next(db, op);
            && e in db'.rows && op.id in db'.holds
            && db'.rows[e].reserved == db.rows[e].reserved + db'.holds[op.id].Share(e, Pending)
                 - (if op.id in db.holds then db.holds[op.id].Share(e, Pending) else 0)
            && db'.rows[e].confirmed == db.rows[e].confirmed + db'.holds[op.id].Share(e, Confirmed)
                 - (if op.id in db.holds then db.holds[op.id].Share(e, Confirmed) else 0)
  {
  }

  /** In a consistent store neither counter is ever negative. */
  lemma CountersNonNegative(db: Store, e: EventId)
    requires Consistent(db) && e in db.rows
    ensures db.rows[e].reserved >= 0 && db.rows[e].confirmed >= 0
  {
    TotalNonNegative(db.holds, db.holds.Keys, e, Pending);
    TotalNonNegative(db.holds, db.holds.Keys, e, Confirmed);
  }

  // ----- locality: a call reads and writes one event only -----

  predicate Belongs(db: Store, id: HoldId, e: EventId) { id in db.holds && db.holds[id].event == e }

  /** `a` and `b` hold the same row and the same reservations for event `e`. */
  ghost predicate SameSlice(a: Store, b: Store, e: EventId) {
    && (e in a.rows <==> e in b.rows)
    && (e in a.rows ==> a.rows[e] == b.rows[e])
    && (forall id :: Belongs(a, id, e) <==> Belongs(b, id, e))
    && (forall id :: Belongs(a, id, e) ==> a.holds[id] == b.holds[id])
  }

  lemma SameSlicesSameStore(a: Store, b: Store)
    requires forall e :: SameSlice(a, b, e)
    ensures a == b
  {
    assert a.rows.Keys == b.rows.Keys by {
      forall e ensures e in a.rows <==> e in b.rows { assert SameSlice(a, b, e); }
    }
    forall e | e in a.rows ensures a.rows[e] == b.rows[e] { assert SameSlice(a, b, e); }
    forall id ensures id in a.holds <==> id in b.holds {
      if id in a.holds { assert SameSlice(a, b, a.holds[id].event) && Belongs(a, id, a.holds[id].event); }
      if id in b.holds { assert SameSlice(a, b, b.holds[id].event) && Belongs(b, id, b.holds[id].event); }
    }
    assert a.holds.Keys == b.holds.Keys;
    forall id | id in a.holds ensures a.holds[id] == b.holds[id] {
      assert SameSlice(a, b, a.holds[id].event) && Belongs(a, id, a.holds[id].event);
    }
    assert a.rows == b.rows && a.holds == b.holds;
  }

  /** A call that writes changes only its target event, whose version it raises by exactly one. */
  lemma WritesOneEvent(db: Store, op: Op, e: EventId)
    requires Sound(db) && Apply(db, op).Wrote?
    ensures e != Target(db, op) ==> SameSlice(db, Next(db, op), e)
    ensures VersionAt(Next(db, op), e) == VersionAt(db, e) + (if e == Target(db, op) then 1 else 0)
  {
  }

  /** Writing the same row, and at most the same reservation, on both sides keeps two slices equal. */
  lemma SliceAfterWrite(a: Store, b: Store, a': Store, b': Store, e: EventId, id: HoldId, v: Hold)
    requires SameSlice(a, b, e)
    requires (a'.holds == a.holds && b'.holds == b.holds)
             || (a'.holds == a.holds[id := v] && b'.holds == b.holds[id := v])
    requires (e in a'.rows <==> e in b'.rows) && (e in a'.rows ==> a'.rows[e] == b'.rows[e])
    ensures SameSlice(a', b', e)
  {
    forall x ensures Belongs(a', x, e) <==> Belongs(b', x, e) {
      assert Belongs(a, x, e) <==> Belongs(b, x, e);
    }
    forall x | Belongs(a', x, e) ensures a'.holds[x] == b'.holds[x] {
      assert x != id || a'.holds == a.holds ==> Belongs(a, x, e);
    }
  }

  /** What a call does depends on its target event's slice alone. */
  lemma ApplyIsLocal(a: Store, b: Store, op: Op)
    requires Apply(a, op).Wrote? && SameSlice(a, b, Target(a, op))
    requires op.Reserve? ==> op.id !in b.holds
    ensures Apply(b, op).Wrote? && Target(b, op) == Target(a, op)
    ensures SameSlice(Next(a, op), Next(b, op), Target(a, op))
  {
    var e, a', b' := Target(a, op), Next(a, op), Next(b, op);
    match op
    case Initialize(_, _) => SliceAfterWrite(a, b, a', b', e, 0, Hold(e, 0, 0, Pending, 0));
    case Adjust(_, _) => SliceAfterWrite(a, b, a', b', e, 0, Hold(e, 0, 0, Pending, 0));
    case Reserve(_, id, _, _, _) => SliceAfterWrite(a, b, a', b', e, id, a'.holds[id]);
    case Confirm(id) => assert Belongs(a, id, e); SliceAfterWrite(a, b, a', b', e, id, a'.holds[id]);
    case Release(id, _) => assert Belongs(a, id, e); SliceAfterWrite(a, b, a', b', e, id, a'.holds[id]);
  }
}
