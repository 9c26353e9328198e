/** Every run of `Engine` keeps its invariant; hence concurrent executions are sequential ones. */
module Serialisability {
  import opened Inventory
  import opened CommitLog
  import opened Engine

  // ----- a private copy differs from its snapshot only where it may -----

  /** Calls never drop a reservation or move it to another event, and create only the session's own. */
  lemma {:induction false} HoldsKept(db: Store, ops: seq<Op>, t: TxId)
    requires FreshIds(ops, t)
    ensures forall id :: id in db.holds ==> id in ReplayFrom(db, ops).holds
    ensures forall id :: id in db.holds ==> ReplayFrom(db, ops).holds[id].event == db.holds[id].event
    ensures forall id :: id in ReplayFrom(db, ops).holds ==> id in db.holds || id == t
  {
    if ops != [] {
      HoldsKept(db, ops[..|ops| - 1], t);
      assert ops[|ops| - 1].Reserve? ==> ops[|ops| - 1].id == t;
    }
  }

  /** Calls that write within `touched`, run from a store agreeing on `touched`: they write again,
    * with the same result there and no effect elsewhere. */
  lemma {:induction false} Transfer(a: Store, b: Store, ops: seq<Op>, touched: set<EventId>, t: TxId)
    requires Sound(b) && WritesWithin(a, ops, touched) && FreshIds(ops, t) && t !in b.holds
    requires forall e :: e in touched ==> SameSlice(a, b, e)
    ensures Effective(b, ops) && Sound(ReplayFrom(b, ops))
    ensures t in ReplayFrom(b, ops).holds ==> t in ReplayFrom(a, ops).holds
    ensures forall e :: e in touched ==> SameSlice(ReplayFrom(a, ops), ReplayFrom(b, ops), e)
    ensures forall e :: e !in touched ==> SameSlice(b, ReplayFrom(b, ops), e)
  {
    if ops != [] {
      var ops', op := ops[..|ops| - 1], ops[|ops| - 1];
      Transfer(a, b, ops', touched, t);
      var a', b' := ReplayFrom(a, ops'), ReplayFrom(b, ops');
      ApplyIsLocal(a', b', op);
      SoundStep(b', op);
      IdStep(a', b', op, t);
      forall e | e in touched ensures SameSlice(Next(a', op), Next(b', op), e) {
        if e != Target(a', op) { SliceStep(a', b', op, e); }
      }
      forall e | e !in touched ensures SameSlice(b, Next(b', op), e) {
        OtherSlice(b', op, e);
        SliceTransitive(b, b', Next(b', op), e);
      }
    }
  }

  lemma SoundStep(db: Store, op: Op)
    requires Sound(db)
    ensures Sound(Next(db, op))
  {
  }

  lemma IdStep(a: Store, b: Store, op: Op, t: TxId)
    requires Apply(a, op).Wrote? && (t in b.holds ==> t in a.holds)
    ensures t in Next(b, op).holds ==> t in Next(a, op).holds
  {
  }

  /** Two calls on another event leave equal slices equal. */
  lemma SliceStep(a: Store, b: Store, op: Op, e: EventId)
    requires Apply(a, op).Wrote? && Apply(b, op).Wrote? && Target(a, op) == Target(b, op) != e
    requires SameSlice(a, b, e)
    ensures SameSlice(Next(a, op), Next(b, op), e)
  {
    OtherSlice(a, op, e);
    OtherSlice(b, op, e);
    SliceSymmetric(a, Next(a, op), e);
    SliceTransitive(Next(a, op), a, b, e);
    SliceTransitive(Next(a, op), b, Next(b, op), e);
  }

  lemma SliceSymmetric(a: Store, b: Store, e: EventId)
    requires SameSlice(a, b, e)
    ensures SameSlice(b, a, e)
  {
    forall id | Belongs(b, id, e) ensures b.holds[id] == a.holds[id] { assert Belongs(a, id, e); }
  }

  lemma OtherSlice(db: Store, op: Op, e: EventId)
    requires Apply(db, op).Wrote? && Target(db, op) != e
    ensures SameSlice(db, Next(db, op), e)
  {
  }

  /** Installing the locked slices over the current tables is the same as running the calls on them. */
  lemma MergeIsReplay(s: State, t: TxId)
    requires Inv(s) && t in s.txs
    ensures Effective(s.db, s.txs[t].done)
    ensures Merge(s.db, s.txs[t]) == ReplayFrom(s.db, s.txs[t].done)
  {
    var x := s.txs[t];
    assert Private(s.log, s.next, t, x) && Held(s.db, s.locks, t, x);
    var m, r := Merge(s.db, x), ReplayFrom(s.db, x.done);
    ReplayConsistent(s.log);
    Transfer(x.snap, s.db, x.done, x.touched, t);
    CanMerge(s, t);
    forall e ensures SameSlice(m, r, e) {
      if e in x.touched {
        MergedSlice(s.db, x, t, e);
        SliceTransitive(m, x.work, r, e);
      } else {
        UntouchedSlice(s.db, x, t, e);
        SliceTransitive(m, s.db, r, e);
      }
    }
    SameSlicesSameStore(m, r);
  }

  /** What makes the merge work: a private copy keeps every reservation in its event and adds only the session's
    * own, and the locked events are still as they were read. */
  ghost predicate Mergeable(db: Store, x: Tx, t: TxId) {
    && (forall id :: id in x.snap.holds ==> id in x.work.holds && x.work.holds[id].event == x.snap.holds[id].event)
    && (forall id :: id in x.work.holds ==> id in x.snap.holds || id == t)
    && t !in db.holds && (forall e :: e in x.touched ==> SameSlice(x.snap, db, e))
  }

  lemma CanMerge(s: State, t: TxId)
    requires TxsOk(s) && t in s.txs
    ensures Mergeable(s.db, s.txs[t], t)
  {
    var x := s.txs[t];
    assert Private(s.log, s.next, t, x) && Held(s.db, s.locks, t, x);
    HoldsKept(x.snap, x.done, t);
  }

  lemma MergedSlice(db: Store, x: Tx, t: TxId, e: EventId)
    requires Mergeable(db, x, t) && e in x.touched
    ensures SameSlice(Merge(db, x), x.work, e)
  {
    var m := Merge(db, x);
    forall id ensures Belongs(m, id, e) <==> Belongs(x.work, id, e) {
      assert Belongs(db, id, e) ==> Belongs(x.snap, id, e) && Belongs(x.work, id, e);
      if Belongs(x.work, id, e) { assert InTouched(x, id); }
    }
    forall id | Belongs(m, id, e) ensures m.holds[id] == x.work.holds[id] {
      assert Belongs(x.work, id, e);
    }
  }

  lemma UntouchedSlice(db: Store, x: Tx, t: TxId, e: EventId)
    requires Mergeable(db, x, t) && e !in x.touched
    ensures SameSlice(Merge(db, x), db, e)
  {
    var m := Merge(db, x);
    forall id ensures Belongs(m, id, e) <==> Belongs(db, id, e) {
      assert id in db.holds && InTouched(x, id) ==> Belongs(x.snap, id, x.work.holds[id].event);
    }
    forall id | Belongs(m, id, e) ensures m.holds[id] == db.holds[id] {
      assert Belongs(db, id, e) && !InTouched(x, id);
    }
  }

  // ----- each kind of step keeps the invariant -----

  lemma BeginKeepsInv(s: State, ops: seq<Op>)
    requires Inv(s)
    ensures Inv(Exec(s, Begin(ops)))
  {
    if FreshIds(ops, s.next) {
      var s' := Exec(s, Begin(ops));
      BeginTxsOk(s, ops);
      EndsKept(s, s');
    }
  }

  lemma BeginTxsOk(s: State, ops: seq<Op>)
    requires Inv(s) && FreshIds(ops, s.next)
    ensures TxsOk(Exec(s, Begin(ops)))
  {
    var s' := Exec(s, Begin(ops));
    assert s.log[..|s.log|] == s.log;
    forall t | t in s'.txs ensures Private(s'.log, s'.next, t, s'.txs[t]) && Held(s'.db, s'.locks, t, s'.txs[t]) {
      if t in s.txs { PrivateGrows(s.log, s.log, s.next, s'.next, t, s.txs[t]); }
    }
  }

  lemma EndsKept(s: State, s': State)
    requires EndsOk(s) && s.log <= s'.log && s.next <= s'.next && s'.ended == s.ended
    requires forall t :: t in s'.txs ==> t in s.txs || t >= s.next
    ensures EndsOk(s')
  {
    forall u | u in s'.ended ensures u < s'.next && u !in s'.txs && EndOk(s'.log, u, s'.ended[u]) {
      EndOkGrows(s.log, s'.log, u, s.ended[u]);
    }
  }

  /** One more ending, true of the log. */
  lemma EndsAfter(s: State, s': State, t: TxId, how: Ending)
    requires EndsOk(s) && s.log <= s'.log && s.next == s'.next && t < s.next && EndOk(s'.log, t, how)
    requires s'.ended == s.ended[t := how] && s'.txs == s.txs - {t}
    ensures EndsOk(s')
  {
    forall u | u in s'.ended ensures u < s'.next && u !in s'.txs && EndOk(s'.log, u, s'.ended[u]) {
      if u != t { EndOkGrows(s.log, s'.log, u, s.ended[u]); }
    }
  }

  /** A private copy stays explained by the log while the log grows. */
  lemma PrivateGrows(log: seq<Op>, log': seq<Op>, next: TxId, next': TxId, t: TxId, x: Tx)
    requires Private(log, next, t, x) && log <= log' && next <= next'
    ensures Private(log', next', t, x)
  {
    assert log'[..x.start] == log[..x.start];
  }

  /** Ending a transaction without installing anything. */
  lemma EndKeepsInv(s: State, t: TxId, how: Ending)
    requires Inv(s) && t in s.txs && EndOk(s.log, t, how)
    ensures Inv(End(s, t, how))
  {
    EndTxsOk(s, t, how);
    EndLocksOk(s, t, how);
    assert Private(s.log, s.next, t, s.txs[t]);
    EndsAfter(s, End(s, t, how), t, how);
  }

  lemma EndTxsOk(s: State, t: TxId, how: Ending)
    requires TxsOk(s) && t in s.txs
    ensures TxsOk(End(s, t, how))
  {
    var s' := End(s, t, how);
    forall u | u in s'.txs ensures Held(s'.db, s'.locks, u, s'.txs[u]) { UnlockOthers(s.db, s.locks, t, u, s.txs[u]); }
  }

  lemma EndLocksOk(s: State, t: TxId, how: Ending)
    requires LocksOk(s)
    ensures LocksOk(End(s, t, how))
  {
  }

  lemma UnlockOthers(db: Store, locks: map<EventId, TxId>, t: TxId, u: TxId, x: Tx)
    requires Held(db, locks, u, x) && u != t
    ensures Held(db, Unlock(locks, t), u, x)
  {
  }

  /** Replacing one in-flight transaction by a sound one, perhaps with one more free row locked. */
  lemma AdvanceKeepsInv(s: State, t: TxId, x: Tx, locks: map<EventId, TxId>)
    requires Inv(s) && t in s.txs && s.txs[t].touched <= x.touched
    requires Private(s.log, s.next, t, x) && Held(s.db, locks, t, x)
    requires forall e :: e in s.locks ==> e in locks && locks[e] == s.locks[e]
    requires forall e :: e in locks && e !in s.locks ==> locks[e] == t && e in x.touched
    ensures Inv(s.(txs := s.txs[t := x], locks := locks))
  {
    var s' := s.(txs := s.txs[t := x], locks := locks);
    AdvanceTxsOk(s, t, x, locks);
    AdvanceLocksOk(s, t, x, locks);
    EndsKept(s, s');
  }

  lemma AdvanceTxsOk(s: State, t: TxId, x: Tx, locks: map<EventId, TxId>)
    requires TxsOk(s) && Private(s.log, s.next, t, x) && Held(s.db, locks, t, x)
    requires forall e :: e in s.locks ==> e in locks && locks[e] == s.locks[e]
    ensures TxsOk(s.(txs := s.txs[t := x], locks := locks))
  {
    var s' := s.(txs := s.txs[t := x], locks := locks);
    forall u | u in s'.txs ensures Private(s'.log, s'.next, u, s'.txs[u]) && Held(s'.db, s'.locks, u, s'.txs[u]) {
      if u != t {
        assert Private(s.log, s.next, u, s.txs[u]) && Held(s.db, s.locks, u, s.txs[u]);
        HeldKept(s.db, s.locks, locks, u, s.txs[u]);
      }
    }
  }

  lemma HeldKept(db: Store, locks: map<EventId, TxId>, locks': map<EventId, TxId>, t: TxId, x: Tx)
    requires Held(db, locks, t, x) && forall e :: e in locks ==> e in locks' && locks'[e] == locks[e]
    ensures Held(db, locks', t, x)
  {
  }

  lemma AdvanceLocksOk(s: State, t: TxId, x: Tx, locks: map<EventId, TxId>)
    requires LocksOk(s) && t in s.txs && s.txs[t].touched <= x.touched
    requires forall e :: e in s.locks ==> e in locks && locks[e] == s.locks[e]
    requires forall e :: e in locks && e !in s.locks ==> locks[e] == t && e in x.touched
    ensures LocksOk(s.(txs := s.txs[t := x], locks := locks))
  {
  }

  lemma TodoTail(ops: seq<Op>, t: TxId)
    requires ops != [] && FreshIds(ops, t)
    ensures FreshIds(ops[1..], t) && FreshIds([ops[0]], t)
  {
    forall i | 0 <= i < |ops[1..]| && ops[1..][i].Reserve? ensures ops[1..][i].id == t {
      assert ops[1..][i] == ops[i + 1];
    }
  }

  /** A version that still matches means nothing of the event changed since the read. */
  lemma MatchMeansSame(s: State, t: TxId, e: EventId)
    requires Inv(s) && t in s.txs && e !in s.txs[t].touched
    ensures VersionAt(s.txs[t].work, e) <= VersionAt(s.db, e)
    ensures VersionAt(s.txs[t].work, e) == VersionAt(s.db, e) ==> SameSlice(s.txs[t].snap, s.db, e)
    ensures VersionAt(s.txs[t].work, e) == VersionAt(Replay(s.log[..s.txs[t].start]), e)
  {
    var x := s.txs[t];
    assert Private(s.log, s.next, t, x);
    VersionIsWitness(s.log, x.start, e);
    assert SameSlice(x.snap, x.work, e);
  }

  lemma FlushKeepsInv(s: State, t: TxId)
    requires Inv(s)
    ensures Inv(Exec(s, Flush(t)))
  {
    if t !in s.txs || s.txs[t].todo == [] { return; }
    var x := s.txs[t];
    assert Private(s.log, s.next, t, x) && Held(s.db, s.locks, t, x);
    TodoTail(x.todo, t);
    match Apply(x.work, x.todo[0])
    case Raised(error) => EndKeepsInv(s, t, Failed(x.todo[0], error, x.start, x.done));
    case Unchanged => AdvanceKeepsInv(s, t, x.(todo := x.todo[1..]), s.locks);
    case Wrote(after) => FlushWriteKeepsInv(s, t);
  }

  /** The transaction record after its next call is flushed. */
  function Flushed(x: Tx): Tx
    requires x.todo != [] && Apply(x.work, x.todo[0]).Wrote?
  {
    x.(todo := x.todo[1..], work := Next(x.work, x.todo[0]), done := x.done + [x.todo[0]],
       touched := x.touched + {Target(x.work, x.todo[0])})
  }

  lemma FlushWriteKeepsInv(s: State, t: TxId)
    requires Inv(s) && t in s.txs && s.txs[t].todo != [] && Apply(s.txs[t].work, s.txs[t].todo[0]).Wrote?
    ensures Inv(FlushWrite(s, t, Next(s.txs[t].work, s.txs[t].todo[0]), Target(s.txs[t].work, s.txs[t].todo[0])))
  {
    var x := s.txs[t];
    var e := Target(x.work, x.todo[0]);
    if e in x.touched {
      FlushOwnRow(s, t, e);
    } else if e !in s.locks {
      if VersionAt(s.db, e) != VersionAt(x.work, e) {
        LostOk(s, t, e);
        EndKeepsInv(s, t, Lost(e, x.start, |s.log|));
      } else {
        FlushFreeRow(s, t, e);
      }
    }
  }

  /** What the session's next record must be for it to move on. */
  lemma NextRecord(s: State, t: TxId)
    requires TxsOk(s) && t in s.txs && s.txs[t].todo != [] && Apply(s.txs[t].work, s.txs[t].todo[0]).Wrote?
    ensures Private(s.log, s.next, t, Flushed(s.txs[t])) && Held(s.db, s.locks, t, s.txs[t])
  {
    assert Private(s.log, s.next, t, s.txs[t]) && Held(s.db, s.locks, t, s.txs[t]);
    PrivateStep(s.log, s.next, t, s.txs[t]);
  }

  lemma OwnRecord(s: State, t: TxId, e: EventId)
    requires TxsOk(s) && t in s.txs && s.txs[t].todo != [] && Apply(s.txs[t].work, s.txs[t].todo[0]).Wrote?
    requires e == Target(s.txs[t].work, s.txs[t].todo[0]) && e in s.txs[t].touched
    ensures Flushed(s.txs[t]).touched == s.txs[t].touched
    ensures Private(s.log, s.next, t, Flushed(s.txs[t])) && Held(s.db, s.locks, t, Flushed(s.txs[t]))
  {
    NextRecord(s, t);
    SameTouched(s.txs[t], e);
    SameHeld(s.db, s.locks, t, s.txs[t], Flushed(s.txs[t]));
  }

  lemma SameTouched(x: Tx, e: EventId)
    requires x.todo != [] && Apply(x.work, x.todo[0]).Wrote? && e == Target(x.work, x.todo[0]) && e in x.touched
    ensures Flushed(x).touched == x.touched && Flushed(x).snap == x.snap
  {
    assert x.touched + {e} == x.touched;
  }

  lemma SameHeld(db: Store, locks: map<EventId, TxId>, t: TxId, x: Tx, x': Tx)
    requires Held(db, locks, t, x) && x'.snap == x.snap && x'.touched == x.touched
    ensures Held(db, locks, t, x')
  {
  }

  lemma FlushOwnRow(s: State, t: TxId, e: EventId)
    requires Inv(s) && t in s.txs && s.txs[t].todo != [] && Apply(s.txs[t].work, s.txs[t].todo[0]).Wrote?
    requires e == Target(s.txs[t].work, s.txs[t].todo[0]) && e in s.txs[t].touched
    ensures Flushed(s.txs[t]).touched == s.txs[t].touched
    ensures Inv(s.(txs := s.txs[t := Flushed(s.txs[t])], locks := s.locks))
  {
    OwnRecord(s, t, e);
    AdvanceKeepsInv(s, t, Flushed(s.txs[t]), s.locks);
  }

  lemma FreeRecord(s: State, t: TxId, e: EventId)
    requires TxsOk(s) && t in s.txs && s.txs[t].todo != [] && Apply(s.txs[t].work, s.txs[t].todo[0]).Wrote?
    requires e == Target(s.txs[t].work, s.txs[t].todo[0]) && e !in s.locks && SameSlice(s.txs[t].snap, s.db, e)
    ensures Private(s.log, s.next, t, Flushed(s.txs[t])) && Held(s.db, s.locks[e := t], t, Flushed(s.txs[t]))
  {
    NextRecord(s, t);
    LockedOk(s.db, s.locks, t, s.txs[t], e, Flushed(s.txs[t]));
  }

  lemma FlushFreeRow(s: State, t: TxId, e: EventId)
    requires Inv(s) && t in s.txs && s.txs[t].todo != [] && Apply(s.txs[t].work, s.txs[t].todo[0]).Wrote?
    requires e == Target(s.txs[t].work, s.txs[t].todo[0])
    requires e !in s.txs[t].touched && e !in s.locks && VersionAt(s.db, e) == VersionAt(s.txs[t].work, e)
    ensures Inv(s.(txs := s.txs[t := Flushed(s.txs[t])], locks := s.locks[e := t]))
  {
    MatchMeansSame(s, t, e);
    FreeRecord(s, t, e);
    AdvanceKeepsInv(s, t, Flushed(s.txs[t]), s.locks[e := t]);
  }

  lemma LockedOk(db: Store, locks: map<EventId, TxId>, t: TxId, x: Tx, e: EventId, x': Tx)
    requires Held(db, locks, t, x) && e !in locks && SameSlice(x.snap, db, e)
    requires x'.snap == x.snap && x'.touched == x.touched + {e}
    ensures Held(db, locks[e := t], t, x')
  {
  }

  lemma LostOk(s: State, t: TxId, e: EventId)
    requires Inv(s) && t in s.txs && e !in s.txs[t].touched && VersionAt(s.db, e) != VersionAt(s.txs[t].work, e)
    ensures EndOk(s.log, t, Lost(e, s.txs[t].start, |s.log|))
  {
    LostGap(s, t, e);
    Began(s, t);
    assert s.log[..|s.log|] == s.log;
  }

  /** What a session read is what the log had made of the tables then. */
  lemma Began(s: State, t: TxId)
    requires TxsOk(s) && t in s.txs
    ensures s.txs[t].start <= |s.log| && s.txs[t].snap == Replay(s.log[..s.txs[t].start])
  {
    assert Private(s.log, s.next, t, s.txs[t]);
  }

  /** The version read is the committed one at the read, and it has risen since. */
  lemma LostGap(s: State, t: TxId, e: EventId)
    requires Inv(s) && t in s.txs && e !in s.txs[t].touched && VersionAt(s.db, e) != VersionAt(s.txs[t].work, e)
    ensures VersionAt(s.txs[t].snap, e) < VersionAt(s.db, e)
  {
    assert Private(s.log, s.next, t, s.txs[t]);
    assert SameSlice(s.txs[t].snap, s.txs[t].work, e);
    VersionIsWitness(s.log, s.txs[t].start, e);
  }

  /** The private part of a transaction after one more flushed call. */
  lemma PrivateStep(log: seq<Op>, next: TxId, t: TxId, x: Tx)
    requires Private(log, next, t, x) && x.todo != [] && Apply(x.work, x.todo[0]).Wrote?
    ensures Private(log, next, t, Flushed(x))
  {
    var op := x.todo[0];
    var touched := x.touched + {Target(x.work, op)};
    TodoTail(x.todo, t);
    assert (x.done + [op])[..|x.done + [op]| - 1] == x.done;
    WritesWithinGrows(x.snap, x.done, x.touched, touched);
    forall e | e !in touched ensures SameSlice(x.snap, Next(x.work, op), e) {
      OtherSlice(x.work, op, e);
      SliceTransitive(x.snap, x.work, Next(x.work, op), e);
    }
  }

  lemma {:induction false} WritesWithinGrows(db: Store, ops: seq<Op>, small: set<EventId>, big: set<EventId>)
    requires small <= big && WritesWithin(db, ops, small)
    ensures WritesWithin(db, ops, big)
  {
    if ops != [] { WritesWithinGrows(db, ops[..|ops| - 1], small, big); }
  }

  /** The tables and the log just after `t` installs its changes, before its locks go. */
  function Installed(s: State, t: TxId): State
    requires t in s.txs
  {
    s.(db := Merge(s.db, s.txs[t]), log := s.log + s.txs[t].done)
  }

  /** A commit appends its calls to the log; the other transactions' locked events are untouched by it. */
  lemma CommitKeepsInv(s: State, t: TxId)
    requires Inv(s)
    ensures Inv(Exec(s, Commit(t)))
  {
    if t !in s.txs || s.txs[t].todo != [] { return; }
    var how := Committed(s.txs[t].done, s.txs[t].start, |s.log|);
    InstalledOk(s, t);
    InstalledIds(s, t);
    CommitTxsOk(s, t, how);
    EndLocksOk(Installed(s, t), t, how);
    EndsAfter(s, Exec(s, Commit(t)), t, how);
  }

  lemma InstalledOk(s: State, t: TxId)
    requires Inv(s) && t in s.txs
    ensures LogOk(Installed(s, t)) && t < s.next
    ensures EndOk(Installed(s, t).log, t, Committed(s.txs[t].done, s.txs[t].start, |s.log|))
  {
    var x := s.txs[t];
    assert Private(s.log, s.next, t, x);
    MergeIsReplay(s, t);
    LogGrows(s.log, x.done);
    CommittedOk(s.log, x.done, x.start, t);
  }

  lemma CommittedOk(log: seq<Op>, ops: seq<Op>, start: nat, t: TxId)
    requires start <= |log| && FreshIds(ops, t)
    ensures EndOk(log + ops, t, Committed(ops, start, |log|))
  {
    assert (log + ops)[|log|..|log| + |ops|] == ops;
  }

  lemma LogGrows(log: seq<Op>, ops: seq<Op>)
    requires Effective(EMPTY, log) && Effective(Replay(log), ops)
    ensures Effective(EMPTY, log + ops) && Replay(log + ops) == ReplayFrom(Replay(log), ops)
  {
    ReplayConcat(EMPTY, log, ops);
  }

  lemma InstalledIds(s: State, t: TxId)
    requires Inv(s) && t in s.txs
    ensures forall id :: id in Installed(s, t).db.holds ==> id < s.next
  {
    assert Private(s.log, s.next, t, s.txs[t]);
    MergeIsReplay(s, t);
    HoldsKept(s.db, s.txs[t].done, t);
  }

  lemma CommitTxsOk(s: State, t: TxId, how: Ending)
    requires Inv(s) && t in s.txs
    ensures TxsOk(End(Installed(s, t), t, how))
  {
    var s1 := Installed(s, t);
    var s' := End(s1, t, how);
    forall u | u in s'.txs
      ensures Private(s'.log, s'.next, u, s'.txs[u]) && Held(s'.db, s'.locks, u, s'.txs[u])
    {
      PrivateGrows(s.log, s'.log, s.next, s'.next, u, s.txs[u]);
      HeldAfterCommit(s, t, u);
      UnlockOthers(s'.db, s.locks, t, u, s.txs[u]);
    }
  }

  lemma HeldAfterCommit(s: State, t: TxId, u: TxId)
    requires Inv(s) && t in s.txs && u in s.txs && u != t
    ensures Held(Merge(s.db, s.txs[t]), s.locks, u, s.txs[u])
  {
    var x, y := s.txs[t], s.txs[u];
    assert Held(s.db, s.locks, u, y) && Held(s.db, s.locks, t, x);
    CanMerge(s, t);
    MergedIds(s, t, u);
    assert forall e :: e in y.touched ==> e !in x.touched;
    StillHeld(s.db, x, t, s.locks, u, y);
  }

  /** A commit adds no reservation numbered after another session. */
  lemma MergedIds(s: State, t: TxId, u: TxId)
    requires Inv(s) && t in s.txs && u !in s.db.holds && u != t
    ensures u !in Merge(s.db, s.txs[t]).holds
  {
    assert Private(s.log, s.next, t, s.txs[t]);
    MergeIsReplay(s, t);
    HoldsKept(s.db, s.txs[t].done, t);
  }

  lemma StillHeld(db: Store, x: Tx, t: TxId, locks: map<EventId, TxId>, u: TxId, y: Tx)
    requires Mergeable(db, x, t) && Held(db, locks, u, y) && u !in Merge(db, x).holds
    requires forall e :: e in y.touched ==> e !in x.touched
    ensures Held(Merge(db, x), locks, u, y)
  {
    forall e | e in y.touched ensures SameSlice(y.snap, Merge(db, x), e) {
      UntouchedSlice(db, x, t, e);
      SliceSymmetric(Merge(db, x), db, e);
      SliceTransitive(y.snap, db, Merge(db, x), e);
    }
  }

  lemma EndOkGrows(log: seq<Op>, log': seq<Op>, u: TxId, how: Ending)
    requires log <= log' && EndOk(log, u, how)
    ensures EndOk(log', u, how)
  {
    match how
    case Committed(ops, _, at) => assert log'[at..at + |ops|] == log[at..at + |ops|];
    case Failed(_, _, start, _) => assert log'[..start] == log[..start];
    case Lost(_, start, seen) => assert log'[..start] == log[..start] && log'[..seen] == log[..seen];
    case Abandoned =>
  }

  lemma ExecKeepsInv(s: State, step: Step)
    requires Inv(s)
    ensures Inv(Exec(s, step))
  {
    match step
    case Begin(ops) => BeginKeepsInv(s, ops);
    case Flush(t) => FlushKeepsInv(s, t);
    case Commit(t) => CommitKeepsInv(s, t);
    case Rollback(t) => if t in s.txs { EndKeepsInv(s, t, Abandoned); }
  }

  lemma {:induction false} RunKeepsInv(s: State, steps: seq<Step>)
    requires Inv(s)
    ensures Inv(Run(s, steps))
  {
    if steps != [] {
      RunKeepsInv(s, steps[..|steps| - 1]);
      ExecKeepsInv(Run(s, steps[..|steps| - 1]), steps[|steps| - 1]);
    }
  }
}
