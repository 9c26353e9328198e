/** The repository's headline test, for any numbers and any interleaving: N one-seat requests on a fresh event
  * of C seats. Sessions on other events may do as they like meanwhile. */
module FillRuns {
  import opened Inventory
  import opened CommitLog
  import opened Engine
  import opened Serialisability
  import opened EngineTheorems
  import opened Apart

  predicate FillOp(op: Op, e: EventId, c: int) {
    op == Initialize(e, c) || (op.Reserve? && op.event == e && op.quantity == 1)
  }

  /** A session either makes one call, initialising `e` or asking for one seat of it, or stays off `e`. */
  predicate FillBegin(db: Store, ops: seq<Op>, e: EventId, c: int) {
    (|ops| == 1 && FillOp(ops[0], e, c)) || AvoidsAll(db, ops, e)
  }

  predicate FillRun(steps: seq<Step>, e: EventId, c: int) {
    steps == [] ||
    (FillRun(steps[..|steps| - 1], e, c) &&
     (steps[|steps| - 1].Begin? ==> FillBegin(Run(START, steps[..|steps| - 1]).db, steps[|steps| - 1].ops, e, c)))
  }

  /** The calls begin with one for a seat of `e`. */
  predicate Asked(ops: seq<Op>, e: EventId) { ops != [] && ops[0].Reserve? && ops[0].event == e }

  /** A session that committed a reservation of a seat of `e`. */
  predicate Won(s: State, t: TxId, e: EventId) {
    t in s.ended && s.ended[t].Committed? && Asked(s.ended[t].ops, e)
  }

  /** A session that was told there are not enough seats of `e`. */
  predicate SoldOut(s: State, t: TxId, e: EventId) {
    t in s.ended && s.ended[t].Failed? && s.ended[t].error == CapacityExceeded
    && s.ended[t].op.Reserve? && s.ended[t].op.event == e
  }

  function HoldsOf(db: Store, e: EventId): set<HoldId> { set id | id in db.holds && db.holds[id].event == e }

  /** One PENDING seat per reservation of `e`, never more than there are. */
  predicate Shape(db: Store, e: EventId, c: int) {
    if e in db.rows
    then db.rows[e].capacity == c && db.rows[e].confirmed == 0 && db.rows[e].reserved == |HoldsOf(db, e)|
         && (|HoldsOf(db, e)| <= c || |HoldsOf(db, e)| == 0)
    else HoldsOf(db, e) == {}
  }

  /** A session of the first kind: its one call is still to send or has been sent. */
  predicate Filler(x: Tx, e: EventId, c: int) {
    || (x.done == [] && x.work == x.snap && |x.todo| <= 1 && (x.todo != [] ==> FillOp(x.todo[0], e, c)))
    || (x.todo == [] && |x.done| == 1 && FillOp(x.done[0], e, c))
  }

  predicate NoneReserved(ops: seq<Op>, e: EventId) {
    forall i :: 0 <= i < |ops| && ops[i].Reserve? ==> ops[i].event != e
  }

  predicate FillTx(x: Tx, e: EventId, c: int) { Filler(x, e, c) || (Off(x, e) && NoneReserved(x.done, e)) }

  predicate Looked(db: Store, snap: Store, e: EventId, c: int) {
    Shape(snap, e, c) && |HoldsOf(snap, e)| <= |HoldsOf(db, e)|
  }

  ghost predicate FillState(s: State, e: EventId, c: int) {
    && Shape(s.db, e, c)
    && (forall t :: t in s.txs ==> FillTx(s.txs[t], e, c) && Looked(s.db, s.txs[t].snap, e, c))
    && (forall t :: t in HoldsOf(s.db, e) <==> Won(s, t, e))
    && (forall t :: SoldOut(s, t, e) ==> |HoldsOf(s.db, e)| >= c)
  }

  // ----- steps -----

  /** Ending session `t` otherwise than with a seat, or with the news that there is none left. */
  lemma EndKeepsFill(s: State, t: TxId, how: Ending, e: EventId, c: int)
    requires FillState(s, e, c) && t !in s.ended && !how.Committed?
    requires how.Failed? && how.error == CapacityExceeded && how.op.Reserve? && how.op.event == e ==>
        |HoldsOf(s.db, e)| >= c
    ensures FillState(End(s, t, how), e, c)
  {
    var s' := End(s, t, how);
    forall u ensures (u in HoldsOf(s'.db, e) <==> Won(s', u, e)) && (SoldOut(s', u, e) ==> |HoldsOf(s'.db, e)| >= c) {
      assert u in HoldsOf(s.db, e) <==> Won(s, u, e);
      if u != t { assert SoldOut(s, u, e) <==> SoldOut(s', u, e); }
    }
  }

  lemma MoveKeepsFill(s: State, t: TxId, x: Tx, locks: map<EventId, TxId>, e: EventId, c: int)
    requires FillState(s, e, c) && t in s.txs && FillTx(x, e, c) && x.snap == s.txs[t].snap
    ensures FillState(s.(txs := s.txs[t := x], locks := locks), e, c)
  {
    var s' := s.(txs := s.txs[t := x], locks := locks);
    forall u ensures (u in HoldsOf(s'.db, e) <==> Won(s', u, e)) && (SoldOut(s', u, e) ==> |HoldsOf(s'.db, e)| >= c) {
      assert u in HoldsOf(s.db, e) <==> Won(s, u, e);
      assert SoldOut(s', u, e) ==> SoldOut(s, u, e);
    }
  }

  lemma BeginKeepsFill(s: State, ops: seq<Op>, e: EventId, c: int)
    requires FillState(s, e, c) && FillBegin(s.db, ops, e, c) && s.next !in s.txs
    ensures FillState(Exec(s, Begin(ops)), e, c)
  {
    var s' := Exec(s, Begin(ops));
    forall u ensures (u in HoldsOf(s'.db, e) <==> Won(s', u, e)) && (SoldOut(s', u, e) ==> |HoldsOf(s'.db, e)| >= c) {
      assert u in HoldsOf(s.db, e) <==> Won(s, u, e);
      assert SoldOut(s', u, e) ==> SoldOut(s, u, e);
    }
  }

  /** A session moves on within its kind. */
  lemma FlushedFillTx(x: Tx, e: EventId, c: int)
    requires FillTx(x, e, c) && x.todo != []
    ensures FillTx(x.(todo := x.todo[1..]), e, c)
    ensures Apply(x.work, x.todo[0]).Wrote? ==> FillTx(Flushed(x), e, c)
  {
    if Filler(x, e, c) {
      assert x.todo[1..] == [] && x.done + [x.todo[0]] == [x.todo[0]];
    } else {
      OffStep(x, e);
      assert Avoids(x.work, x.todo[0], e);
    }
  }

  /** A refusal is only given when every seat is held. */
  lemma RefusalMeansFull(db: Store, x: Tx, e: EventId, c: int)
    requires FillTx(x, e, c) && Looked(db, x.snap, e, c) && x.todo != []
    requires x.todo[0].Reserve? && x.todo[0].event == e && Apply(x.work, x.todo[0]) == Raised(CapacityExceeded)
    ensures |HoldsOf(db, e)| >= c
  {
  }

  lemma FlushKeepsFill(s: State, t: TxId, e: EventId, c: int)
    requires FillState(s, e, c) && t in s.txs && s.txs[t].todo != [] && t !in s.ended
    ensures FillState(Exec(s, Flush(t)), e, c)
  {
    var x := s.txs[t];
    FlushCases(s, t);
    FlushedFillTx(x, e, c);
    match Apply(x.work, x.todo[0])
    case Raised(error) =>
      if error == CapacityExceeded && x.todo[0].Reserve? && x.todo[0].event == e { RefusalMeansFull(s.db, x, e, c); }
      EndKeepsFill(s, t, Failed(x.todo[0], error, x.start, x.done), e, c);
    case Unchanged => MoveKeepsFill(s, t, x.(todo := x.todo[1..]), s.locks, e, c);
    case Wrote(_) =>
      var f := Target(x.work, x.todo[0]);
      MoveKeepsFill(s, t, Flushed(x), s.locks, e, c);
      MoveKeepsFill(s, t, Flushed(x), s.locks[f := t], e, c);
      EndKeepsFill(s, t, Lost(f, x.start, |s.log|), e, c);
  }

  /** The tables after one fill call, and whose seat it is. */
  lemma FillCallShape(db: Store, op: Op, t: TxId, e: EventId, c: int)
    requires Shape(db, e, c) && FillOp(op, e, c) && (op.Reserve? ==> op.id == t) && Apply(db, op).Wrote?
    ensures Shape(Next(db, op), e, c) && |HoldsOf(db, e)| <= |HoldsOf(Next(db, op), e)|
    ensures HoldsOf(Next(db, op), e) == if op.Reserve? then HoldsOf(db, e) + {t} else HoldsOf(db, e)
  {
    var db' := Next(db, op);
    if op.Reserve? {
      assert HoldsOf(db', e) == HoldsOf(db, e) + {t} && t !in HoldsOf(db, e);
    } else {
      assert HoldsOf(db', e) == HoldsOf(db, e);
    }
  }

  lemma SliceShape(a: Store, b: Store, e: EventId, c: int)
    requires SameSlice(a, b, e) && Shape(b, e, c)
    ensures HoldsOf(a, e) == HoldsOf(b, e) && Shape(a, e, c)
  {
    forall id ensures id in HoldsOf(a, e) <==> id in HoldsOf(b, e) {
      assert Belongs(a, id, e) <==> Belongs(b, id, e);
    }
    assert HoldsOf(a, e) == HoldsOf(b, e);
  }

  /** What a commit does to the seats of `e`: the session's own, if it asked for one, and nothing else. */
  lemma CommitShape(s: State, t: TxId, e: EventId, c: int)
    requires Inv(s) && FillState(s, e, c) && t in s.txs && s.txs[t].todo == []
    ensures var db', done := Merge(s.db, s.txs[t]), s.txs[t].done;
            && Shape(db', e, c) && |HoldsOf(s.db, e)| <= |HoldsOf(db', e)|
            && HoldsOf(db', e) == if Asked(done, e) then HoldsOf(s.db, e) + {t} else HoldsOf(s.db, e)
  {
    var x := s.txs[t];
    assert Private(s.log, s.next, t, x) && FillTx(x, e, c);
    if Off(x, e) && NoneReserved(x.done, e) {
      CanMerge(s, t);
      UntouchedSlice(s.db, x, t, e);
      SliceShape(Merge(s.db, x), s.db, e, c);
    } else {
      MergeIsReplay(s, t);
      FillerShape(s.db, x, t, e, c);
    }
  }

  lemma FillerShape(db: Store, x: Tx, t: TxId, e: EventId, c: int)
    requires Shape(db, e, c) && Filler(x, e, c) && x.todo == [] && FreshIds(x.done, t) && Effective(db, x.done)
    ensures var db', done := ReplayFrom(db, x.done), x.done;
            && Shape(db', e, c) && |HoldsOf(db, e)| <= |HoldsOf(db', e)|
            && HoldsOf(db', e) == if Asked(done, e) then HoldsOf(db, e) + {t} else HoldsOf(db, e)
  {
    if x.done != [] {
      assert x.done[..0] == [] && x.done == [x.done[0]];
      FillCallShape(db, x.done[0], t, e, c);
    }
  }

  lemma CommitKeepsFill(s: State, t: TxId, e: EventId, c: int)
    requires Inv(s) && FillState(s, e, c) && t in s.txs && s.txs[t].todo == []
    ensures FillState(Exec(s, Commit(t)), e, c)
  {
    CommitShape(s, t, e, c);
    assert t !in s.ended;
    CommitFill(s, Exec(s, Commit(t)), t, e, c);
  }

  /** Seats of `e` after session `t` has ended, with one for it if it asked for one. */
  predicate Seated(s: State, s': State, t: TxId, e: EventId)
    requires t in s.txs
  {
    HoldsOf(s'.db, e) == if Asked(s.txs[t].done, e) then HoldsOf(s.db, e) + {t} else HoldsOf(s.db, e)
  }

  lemma CommitFill(s: State, s': State, t: TxId, e: EventId, c: int)
    requires FillState(s, e, c) && t in s.txs && t !in s.ended && s'.txs == s.txs - {t}
    requires s'.ended == s.ended[t := Committed(s.txs[t].done, s.txs[t].start, |s.log|)]
    requires Shape(s'.db, e, c) && |HoldsOf(s.db, e)| <= |HoldsOf(s'.db, e)| && Seated(s, s', t, e)
    ensures FillState(s', e, c)
  {
    CommitWon(s, s', t, e);
    forall u | SoldOut(s', u, e) ensures |HoldsOf(s'.db, e)| >= c {
      assert SoldOut(s, u, e);
    }
  }

  lemma CommitWon(s: State, s': State, t: TxId, e: EventId)
    requires forall u :: u in HoldsOf(s.db, e) <==> Won(s, u, e)
    requires t in s.txs && t !in s.ended && Seated(s, s', t, e)
    requires s'.ended == s.ended[t := Committed(s.txs[t].done, s.txs[t].start, |s.log|)]
    ensures forall u :: u in HoldsOf(s'.db, e) <==> Won(s', u, e)
  {
    forall u ensures u in HoldsOf(s'.db, e) <==> Won(s', u, e) {
      if u != t { assert Won(s', u, e) <==> Won(s, u, e); }
    }
  }

  lemma {:induction false} FillReached(steps: seq<Step>, e: EventId, c: int)
    requires FillRun(steps, e, c)
    ensures FillState(Run(START, steps), e, c)
  {
    if steps == [] {
      assert HoldsOf(EMPTY, e) == {};
    } else {
      var before, last := steps[..|steps| - 1], steps[|steps| - 1];
      FillReached(before, e, c);
      FillStep(before, last, e, c);
    }
  }

  lemma FillStep(before: seq<Step>, step: Step, e: EventId, c: int)
    requires var s := Run(START, before); FillState(s, e, c) && (step.Begin? ==> FillBegin(s.db, step.ops, e, c))
    ensures FillState(Exec(Run(START, before), step), e, c)
  {
    Serialisable(before);
    var s := Run(START, before);
    match step
    case Begin(ops) =>
      NextIsFree(s);
      BeginKeepsFill(s, ops, e, c);
    case Flush(t) => if t in s.txs && s.txs[t].todo != [] { FlushKeepsFill(s, t, e, c); }
    case Commit(t) => if t in s.txs && s.txs[t].todo == [] { CommitKeepsFill(s, t, e, c); }
    case Rollback(t) => if t in s.txs { EndKeepsFill(s, t, Abandoned, e, c); }
  }

  lemma NextIsFree(s: State)
    requires TxsOk(s)
    ensures s.next !in s.txs
  {
    forall t | t in s.txs ensures t < s.next { assert Private(s.log, s.next, t, s.txs[t]); }
  }

  // ----- the result -----

  /** A sold-out answer is only given when every seat is held, and held seats are not given up here. */
  lemma SoldOutMeansFull(steps: seq<Step>, e: EventId, c: int, t: TxId)
    requires FillRun(steps, e, c) && SoldOut(Run(START, steps), t, e)
    ensures |HoldsOf(Run(START, steps).db, e)| >= c
  {
    FillReached(steps, e, c);
  }

  /** Exact fill. However N one-seat requests on a fresh event of C seats interleave with each other and with
    * anything on other events, if each final attempt ends in success or sold-out then exactly min(N, C)
    * succeed: no lost update, no oversell. `final` holds the last attempt of each request; attempts lost to
    * a stale row are not in it. */
  lemma ExactFill(steps: seq<Step>, e: EventId, c: int, final: set<TxId>)
    requires FillRun(steps, e, c) && e in Run(START, steps).db.rows
    requires forall t :: t in final ==> Won(Run(START, steps), t, e) || SoldOut(Run(START, steps), t, e)
    requires forall t :: Won(Run(START, steps), t, e) ==> t in final
    ensures var s := Run(START, steps);
            var winners := set t | t in final && Won(s, t, e);
            var seats := if c < 0 then 0 else c;
            && |winners| == (if |final| <= seats then |final| else seats)
            && s.db.rows[e].reserved == |winners| && s.db.rows[e].Available() == c - |winners|
  {
    FillReached(steps, e, c);
    FillCount(Run(START, steps), e, c, final);
  }

  lemma FillCount(s: State, e: EventId, c: int, final: set<TxId>)
    requires FillState(s, e, c) && e in s.db.rows
    requires forall t :: t in final ==> Won(s, t, e) || SoldOut(s, t, e)
    requires forall t :: Won(s, t, e) ==> t in final
    ensures var winners := set t | t in final && Won(s, t, e);
            var seats := if c < 0 then 0 else c;
            && |winners| == (if |final| <= seats then |final| else seats)
            && s.db.rows[e].reserved == |winners| && s.db.rows[e].Available() == c - |winners|
  {
    var winners := set t | t in final && Won(s, t, e);
    assert winners == HoldsOf(s.db, e);
    SubsetSize(winners, final);
    if t :| t in final && t !in winners {
      assert SoldOut(s, t, e);
    } else {
      assert winners == final;
    }
  }

  lemma {:induction false} SubsetSize<T>(a: set<T>, b: set<T>)
    requires a <= b
    ensures |a| <= |b|
  {
    if a != {} {
      var x :| x in a;
      SubsetSize(a - {x}, b - {x});
    }
  }
}
