/** Sessions that stay off an event: whatever they do elsewhere, they neither write nor lock its row. */
module Apart {
  import opened Inventory
  import opened Engine
  import opened Serialisability

  /** Made on `db`, the call does not write event `e`. */
  predicate Avoids(db: Store, op: Op, e: EventId) {
    match op
    case Initialize(f, _) => f != e || e in db.rows
    case Adjust(f, _) => f != e
    case Reserve(f, _, _, _, _) => f != e
    case Confirm(id) => id in db.holds ==> db.holds[id].event != e
    case Release(id, _) => id in db.holds ==> db.holds[id].event != e
  }

  predicate AvoidsAll(db: Store, ops: seq<Op>, e: EventId) {
    forall i :: 0 <= i < |ops| ==> Avoids(db, ops[i], e)
  }

  lemma AvoidsTarget(db: Store, op: Op, e: EventId)
    requires Avoids(db, op, e) && Apply(db, op).Wrote?
    ensures Target(db, op) != e
  {
  }

  lemma AvoidsStays(db: Store, op: Op, later: Op, e: EventId)
    requires Avoids(db, op, e) && Avoids(db, later, e)
    ensures Avoids(Next(db, op), later, e)
  {
  }

  /** A session off `e`: what it has still to send avoids `e`, and it has not locked `e`. */
  predicate Off(x: Tx, e: EventId) { e !in x.touched && AvoidsAll(x.work, x.todo, e) }

  lemma OffStep(x: Tx, e: EventId)
    requires Off(x, e) && x.todo != []
    ensures Off(x.(todo := x.todo[1..]), e)
    ensures Apply(x.work, x.todo[0]).Wrote? ==> Off(Flushed(x), e) && Target(x.work, x.todo[0]) != e
  {
    assert Avoids(x.work, x.todo[0], e);
    if Apply(x.work, x.todo[0]).Wrote? {
      AvoidsTarget(x.work, x.todo[0], e);
      forall i | 0 <= i < |x.todo[1..]| ensures Avoids(Next(x.work, x.todo[0]), x.todo[1..][i], e) {
        assert x.todo[1..][i] == x.todo[i + 1];
        AvoidsStays(x.work, x.todo[0], x.todo[i + 1], e);
      }
    }
  }

  /** What a flush makes of the state: the session's record moves on, perhaps with its row locked, or the
    * session ends, or it waits. */
  lemma FlushCases(s: State, t: TxId)
    requires t in s.txs && s.txs[t].todo != []
    ensures var x, s' := s.txs[t], Exec(s, Flush(t));
            match Apply(x.work, x.todo[0])
            case Raised(error) => s' == End(s, t, Failed(x.todo[0], error, x.start, x.done))
            case Unchanged => s' == s.(txs := s.txs[t := x.(todo := x.todo[1..])])
            case Wrote(_) => (
              var e := Target(x.work, x.todo[0]);
              if e in x.touched then x.touched + {e} == x.touched && s' == s.(txs := s.txs[t := Flushed(x)])
              else if e in s.locks then s' == s
              else if VersionAt(s.db, e) != VersionAt(x.work, e) then s' == End(s, t, Lost(e, x.start, |s.log|))
              else s' == s.(txs := s.txs[t := Flushed(x)], locks := s.locks[e := t]))
  {
    var x := s.txs[t];
    if Apply(x.work, x.todo[0]).Wrote? {
      var e := Target(x.work, x.todo[0]);
      assert e in x.touched ==> x.touched + {e} == x.touched;
    }
  }
}
