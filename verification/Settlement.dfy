/** Confirm, release and expire calls in sequence: what repeating them does (nothing), what they give
  * back to the pool, and the expiry sweep as a batch of them. */
module Settlement {
  import opened Inventory
  import opened CommitLog

  predicate IsSettle(op: Op) { op.Confirm? || op.Release? }

  predicate AllSettle(ops: seq<Op>) { forall i :: 0 <= i < |ops| ==> IsSettle(ops[i]) }

  // ----- repeats -----

  /** `ops` without the calls that repeat an earlier one. */
  function WithoutRepeats(ops: seq<Op>): seq<Op> {
    if ops == [] then []
    else
      var rest := WithoutRepeats(ops[..|ops| - 1]);
      if ops[|ops| - 1] in ops[..|ops| - 1] then rest else rest + [ops[|ops| - 1]]
  }

  /** Once made, a settling call has nothing left to do, and later settling calls do not change that. */
  lemma SettledStays(db: Store, op: Op, later: Op)
    requires IsSettle(op) && IsSettle(later)
    ensures Next(Next(db, op), op) == Next(db, op)
    ensures Next(db, op) == db ==> Next(Next(db, later), op) == Next(db, later)
  {
  }

  lemma {:induction false} EarlierCallsSettled(db: Store, ops: seq<Op>, i: nat)
    requires AllSettle(ops) && i < |ops|
    ensures Next(ReplayFrom(db, ops), ops[i]) == ReplayFrom(db, ops)
  {
    var before, last := ops[..|ops| - 1], ops[|ops| - 1];
    if i < |before| {
      EarlierCallsSettled(db, before, i);
      SettledStays(ReplayFrom(db, before), before[i], last);
    } else {
      SettledStays(ReplayFrom(db, before), last, last);
    }
  }

  /** At-least-once delivery is harmless here: deleting every later repeat of a call, wherever it comes
    * and whatever reservations are involved, leaves the same tables. */
  lemma {:induction false} RepeatsChangeNothing(db: Store, ops: seq<Op>)
    requires AllSettle(ops)
    ensures ReplayFrom(db, WithoutRepeats(ops)) == ReplayFrom(db, ops)
  {
    if ops != [] {
      var before, last := ops[..|ops| - 1], ops[|ops| - 1];
      RepeatsChangeNothing(db, before);
      if i :| 0 <= i < |before| && before[i] == last {
        EarlierCallsSettled(db, before, i);
      } else {
        assert (WithoutRepeats(before) + [last])[..|WithoutRepeats(before)|] == WithoutRepeats(before);
      }
    }
  }

  // ----- seats given back -----

  /** The seats one reservation gave back to event `e` between `h` and `h'`. */
  function FreedShare(h: Hold, h': Hold, e: EventId): int {
    if h.event == e && !h.status.Dead() && h'.status.Dead() then h.quantity else 0
  }

  /** Seats of event `e` whose reservation is live in `db` and dead in `after`, each counted once. */
  ghost function Freed(db: Store, after: Store, ids: set<HoldId>, e: EventId): int
    requires ids <= db.holds.Keys && ids <= after.holds.Keys
    decreases |ids|
  {
    if ids == {} then 0
    else
      var id :| id in ids;
      FreedShare(db.holds[id], after.holds[id], e) + Freed(db, after, ids - {id}, e)
  }

  /** Same reservations apart from their status, and none comes back from the dead. */
  ghost predicate Progress(db: Store, after: Store) {
    && db.holds.Keys == after.holds.Keys
    && (forall id :: id in db.holds ==> after.holds[id] == db.holds[id].(status := after.holds[id].status))
    && (forall id :: id in db.holds && db.holds[id].status.Dead() ==> after.holds[id].status.Dead())
    && (forall id :: id in db.holds && after.holds[id].status == Pending ==> db.holds[id].status == Pending)
    && (forall e :: e in db.rows ==> e in after.rows && after.rows[e].capacity == db.rows[e].capacity)
  }

  lemma {:induction false} SettlingProgresses(db: Store, ops: seq<Op>)
    requires AllSettle(ops)
    ensures Progress(db, ReplayFrom(db, ops))
  {
    if ops != [] {
      SettlingProgresses(db, ops[..|ops| - 1]);
      ProgressMore(db, ReplayFrom(db, ops[..|ops| - 1]), ops[|ops| - 1]);
    }
  }

  lemma ProgressMore(db: Store, mid: Store, op: Op)
    requires Progress(db, mid) && IsSettle(op)
    ensures Progress(db, Next(mid, op))
  {
    OneProgress(mid, op);
  }

  lemma OneProgress(db: Store, op: Op)
    requires IsSettle(op)
    ensures Progress(db, Next(db, op))
  {
  }

  lemma {:induction false} FreedIsDifference(db: Store, after: Store, ids: set<HoldId>, e: EventId)
    requires Progress(db, after) && ids <= db.holds.Keys
    ensures Freed(db, after, ids, e)
         == Total(db.holds, ids, e, Pending) + Total(db.holds, ids, e, Confirmed)
          - Total(after.holds, ids, e, Pending) - Total(after.holds, ids, e, Confirmed)
    decreases |ids|
  {
    if ids != {} {
      var id :| id in ids && Freed(db, after, ids, e) == FreedShare(db.holds[id], after.holds[id], e) + Freed(db,
              after, ids - {id}, e);
      FreedIsDifference(db, after, ids - {id}, e);
      TotalRemove(db.holds, ids, id, e, Pending);
      TotalRemove(db.holds, ids, id, e, Confirmed);
      TotalRemove(after.holds, ids, id, e, Pending);
      TotalRemove(after.holds, ids, id, e, Confirmed);
      FreedShareIs(db.holds[id], after.holds[id], e);
    }
  }

  lemma FreedShareIs(h: Hold, h': Hold, e: EventId)
    requires h' == h.(status := h'.status) && (h.status.Dead() ==> h'.status.Dead())
    ensures FreedShare(h, h', e) == h.Share(e, Pending) + h.Share(e, Confirmed) - h'.Share(e, Pending) - h'.Share(e,
            Confirmed)
  {
  }

  lemma {:induction false} ReplayFromConsistent(db: Store, ops: seq<Op>)
    requires Consistent(db)
    ensures Consistent(ReplayFrom(db, ops))
  {
    if ops != [] {
      ReplayFromConsistent(db, ops[..|ops| - 1]);
      ApplyKeepsConsistent(ReplayFrom(db, ops[..|ops| - 1]), ops[|ops| - 1]);
    }
  }

  /** Whatever calls are made, in whatever order and however often, availability rises by exactly the
    * seats of the reservations that died on the way: each reservation gives its seats back once. */
  lemma SeatsReturnOnce(db: Store, ops: seq<Op>, e: EventId)
    requires Consistent(db) && AllSettle(ops) && e in db.rows
    ensures var after := ReplayFrom(db, ops);
            && Progress(db, after)
            && after.rows[e].Available() == db.rows[e].Available() + Freed(db, after, db.holds.Keys, e)
  {
    SettlingProgresses(db, ops);
    ReplayFromConsistent(db, ops);
    FreedIsDifference(db, ReplayFrom(db, ops), db.holds.Keys, e);
  }

  // ----- the expiry sweep -----

  const PAGE := 100

  predicate Expirable(db: Store, now: int, id: HoldId) {
    id in db.holds && db.holds[id].status == Pending && db.holds[id].expiresAt < now
  }

  ghost function ExpirableIds(db: Store, now: int): set<HoldId> {
    set id | id in db.holds && Expirable(db, now, id)
  }

  predicate Distinct(ids: seq<HoldId>) { forall i, j :: 0 <= i < j < |ids| ==> ids[i] != ids[j] }

  /** A result of `find_expired_pending`: the query names no order, so any such page may come back. */
  ghost predicate IsPage(db: Store, now: int, limit: nat, ids: seq<HoldId>) {
    && Distinct(ids)
    && (forall i :: 0 <= i < |ids| ==> Expirable(db, now, ids[i]))
    && |ids| == if |ExpirableIds(db, now)| <= limit then |ExpirableIds(db, now)| else limit
  }

  function ExpireAll(ids: seq<HoldId>): (ops: seq<Op>)
    ensures |ops| == |ids| && forall i :: 0 <= i < |ids| ==> ops[i] == Release(ids[i], true)
  {
    seq(|ids|, i requires 0 <= i < |ids| => Release(ids[i], true))
  }

  /** The quantities of the listed reservations that belong to event `e`. */
  function PageSeats(db: Store, ids: seq<HoldId>, e: EventId): int
    requires forall i :: 0 <= i < |ids| ==> ids[i] in db.holds
  {
    if ids == [] then 0 else PageSeats(db, ids[..|ids| - 1], e) + db.holds[ids[|ids| - 1]].Share(e,
            db.holds[ids[|ids| - 1]].status)
  }

  /** From `db` to `after` every reservation of `ids`, and no other, became EXPIRED; each event's reserved
    * count fell by exactly the seats swept from it; nothing else of any row moved but the version. */
  predicate Swept(db: Store, after: Store, ids: seq<HoldId>)
    requires forall i :: 0 <= i < |ids| ==> ids[i] in db.holds
  {
    && after.holds.Keys == db.holds.Keys && after.rows.Keys == db.rows.Keys
    && (forall id :: id in db.holds ==>
          after.holds[id] == if id in ids then db.holds[id].(status := Expired) else db.holds[id])
    && (forall e :: e in db.rows ==>
          after.rows[e].reserved == db.rows[e].reserved - PageSeats(db, ids, e)
          && after.rows[e].confirmed == db.rows[e].confirmed && after.rows[e].capacity == db.rows[e].capacity)
  }

  /** A sweep alone does just that, each of its calls taking effect. */
  lemma {:induction false} SweepEffect(db: Store, ids: seq<HoldId>)
    requires Sound(db) && Distinct(ids)
    requires forall i :: 0 <= i < |ids| ==> ids[i] in db.holds && db.holds[ids[i]].status == Pending
    ensures Effective(db, ExpireAll(ids)) && Swept(db, ReplayFrom(db, ExpireAll(ids)), ids)
  {
    if ids != [] {
      var before := ids[..|ids| - 1];
      SweepEffect(db, before);
      assert ExpireAll(ids)[..|ids| - 1] == ExpireAll(before);
      SweepOneMore(db, ReplayFrom(db, ExpireAll(before)), ids);
    }
  }

  lemma SweepOneMore(db: Store, mid: Store, ids: seq<HoldId>)
    requires Sound(db) && Distinct(ids) && ids != []
    requires forall i :: 0 <= i < |ids| ==> ids[i] in db.holds && db.holds[ids[i]].status == Pending
    requires Swept(db, mid, ids[..|ids| - 1])
    ensures var op := Release(ids[|ids| - 1], true); Apply(mid, op).Wrote? && Swept(db, Next(mid, op), ids)
  {
    var before, last := ids[..|ids| - 1], ids[|ids| - 1];
    LastApart(ids);
    assert mid.holds[last] == db.holds[last];
    ExpireOne(mid, last);
    forall e | e in db.rows ensures PageSeats(db, ids, e) == PageSeats(db, before, e) + db.holds[last].Share(e,
            Pending) {
    }
  }

  lemma LastApart(ids: seq<HoldId>)
    requires Distinct(ids) && ids != []
    ensures var before, last := ids[..|ids| - 1], ids[|ids| - 1];
            last !in before && forall id :: id in ids <==> id in before || id == last
  {
    forall id ensures id in ids <==> id in ids[..|ids| - 1] || id == ids[|ids| - 1] {
      assert ids == ids[..|ids| - 1] + [ids[|ids| - 1]];
    }
  }

  /** What the expiry of one PENDING reservation does. */
  lemma ExpireOne(db: Store, id: HoldId)
    requires id in db.holds && db.holds[id].status == Pending && db.holds[id].event in db.rows
    ensures var h, after := db.holds[id], Next(db, Release(id, true));
            && Apply(db, Release(id, true)).Wrote? && after.holds == db.holds[id := h.(status := Expired)]
            && after.rows.Keys == db.rows.Keys
            && forall e :: e in db.rows ==>
                 after.rows[e].reserved == db.rows[e].reserved - h.Share(e, Pending)
                 && after.rows[e].confirmed == db.rows[e].confirmed && after.rows[e].capacity == db.rows[e].capacity
  {
  }

  /** Stores left by one sweep after another, with no new holds and none expiring in between. */
  ghost predicate SweepRun(dbs: seq<Store>, pages: seq<seq<HoldId>>, now: int) {
    |dbs| == |pages| + 1 &&
    forall i :: 0 <= i < |pages| ==>
      IsPage(dbs[i], now, PAGE, pages[i]) && dbs[i + 1] == ReplayFrom(dbs[i], ExpireAll(pages[i]))
  }

  lemma SweepShrinks(db: Store, now: int, ids: seq<HoldId>)
    requires Sound(db) && IsPage(db, now, PAGE, ids)
    ensures Sound(ReplayFrom(db, ExpireAll(ids)))
    ensures |ExpirableIds(ReplayFrom(db, ExpireAll(ids)), now)| == |ExpirableIds(db, now)| - |ids|
  {
    SoundKept(db, ExpireAll(ids));
    var swept := set i | 0 <= i < |ids| :: ids[i];
    DistinctSize(ids);
    SweptGone(db, now, ids);
    assert swept <= ExpirableIds(db, now);
  }

  lemma SweptGone(db: Store, now: int, ids: seq<HoldId>)
    requires Sound(db) && IsPage(db, now, PAGE, ids)
    ensures ExpirableIds(ReplayFrom(db, ExpireAll(ids)), now)
         == ExpirableIds(db, now) - set i | 0 <= i < |ids| :: ids[i]
  {
    SweepEffect(db, ids);
    var after := ReplayFrom(db, ExpireAll(ids));
    var swept := set i | 0 <= i < |ids| :: ids[i];
    forall id ensures id in ids <==> id in swept {
      if id in ids { var i :| 0 <= i < |ids| && ids[i] == id; }
    }
    forall id ensures id in ExpirableIds(after, now) <==> id in ExpirableIds(db, now) && id !in swept {
      StillExpirable(db, after, now, ids, id);
    }
  }

  lemma StillExpirable(db: Store, after: Store, now: int, ids: seq<HoldId>, id: HoldId)
    requires (forall i :: 0 <= i < |ids| ==> ids[i] in db.holds) && Swept(db, after, ids)
    ensures Expirable(after, now, id) <==> Expirable(db, now, id) && id !in ids
  {
    if id in db.holds {
      assert after.holds[id] == if id in ids then db.holds[id].(status := Expired) else db.holds[id];
    }
  }

  lemma {:induction false} SoundKept(db: Store, ops: seq<Op>)
    requires Sound(db)
    ensures Sound(ReplayFrom(db, ops))
  {
    if ops != [] { SoundKept(db, ops[..|ops| - 1]); }
  }

  lemma {:induction false} DistinctSize(ids: seq<HoldId>)
    requires Distinct(ids)
    ensures |set i | 0 <= i < |ids| :: ids[i]| == |ids|
  {
    if ids != [] {
      var before := ids[..|ids| - 1];
      DistinctSize(before);
      assert (set i | 0 <= i < |ids| :: ids[i]) == (set i | 0 <= i < |before| :: before[i]) + {ids[|ids| - 1]};
    }
  }

  /** Drain: each sweep takes a full page while one is left, so n expired holds are gone after exactly
    * ceil(n / PAGE) sweeps and not before. */
  lemma {:induction false} SweepsDrain(dbs: seq<Store>, pages: seq<seq<HoldId>>, now: int)
    requires SweepRun(dbs, pages, now) && Sound(dbs[0])
    ensures var n, left := |ExpirableIds(dbs[0], now)|, |ExpirableIds(dbs[|pages|], now)|;
            && left == (if PAGE * |pages| >= n then 0 else n - PAGE * |pages|)
            && (left == 0 <==> |pages| >= (n + PAGE - 1) / PAGE)
    ensures Sound(dbs[|pages|])
  {
    if pages != [] {
      var k := |pages| - 1;
      SweepsDrain(dbs[..|dbs| - 1], pages[..k], now);
      SweepShrinks(dbs[k], now, pages[k]);
    }
  }
}
