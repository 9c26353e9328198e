/** Runs of the atomic operations: replaying a log of calls in commit order, and what every
  * such run keeps. `Engine` shows that concurrent executions are exactly such runs. */
module CommitLog {
  import opened Inventory

  /** The store after running `ops` one after another, each alone. */
  function ReplayFrom(db: Store, ops: seq<Op>): Store {
    if ops == [] then db else Next(ReplayFrom(db, ops[..|ops| - 1]), ops[|ops| - 1])
  }

  function Replay(ops: seq<Op>): Store { ReplayFrom(EMPTY, ops) }

  /** Every call of `ops` writes when its turn comes. */
  predicate Effective(db: Store, ops: seq<Op>) {
    ops == [] ||
    (Effective(db, ops[..|ops| - 1]) && Apply(ReplayFrom(db, ops[..|ops| - 1]), ops[|ops| - 1]).Wrote?)
  }

  lemma {:induction false} ReplayConcat(db: Store, a: seq<Op>, b: seq<Op>)
    ensures ReplayFrom(db, a + b) == ReplayFrom(ReplayFrom(db, a), b)
    ensures Effective(db, a + b) <==> Effective(db, a) && Effective(ReplayFrom(db, a), b)
  {
    if b == [] {
      assert a + b == a;
    } else {
      var b' := b[..|b| - 1];
      ReplayConcat(db, a, b');
      assert (a + b)[..|a + b| - 1] == a + b';
    }
  }

  lemma {:induction false} ReplayConsistent(ops: seq<Op>)
    ensures Consistent(Replay(ops))
  {
    if ops != [] {
      ReplayConsistent(ops[..|ops| - 1]);
      ApplyKeepsConsistent(Replay(ops[..|ops| - 1]), ops[|ops| - 1]);
    }
  }

  // ----- the version column as a witness -----

  /** Between two points of one log a version never falls, and if it did not move then neither the
    * event's row nor any of its reservations changed. */
  lemma {:induction false} VersionIsWitness(log: seq<Op>, k: nat, e: EventId)
    requires k <= |log| && Effective(EMPTY, log)
    ensures VersionAt(Replay(log[..k]), e) <= VersionAt(Replay(log), e)
    ensures VersionAt(Replay(log[..k]), e) == VersionAt(Replay(log), e) ==>
              SameSlice(Replay(log[..k]), Replay(log), e)
  {
    if k == |log| {
      assert log[..k] == log;
    } else {
      var before := log[..|log| - 1];
      VersionIsWitness(before, k, e);
      assert before[..k] == log[..k];
      ReplayConsistent(before);
      WritesOneEvent(Replay(before), log[|log| - 1], e);
      SliceTransitive(Replay(log[..k]), Replay(before), Replay(log), e);
    }
  }

  lemma SliceTransitive(a: Store, b: Store, c: Store, e: EventId)
    ensures SameSlice(a, b, e) && SameSlice(b, c, e) ==> SameSlice(a, c, e)
  {
    if SameSlice(a, b, e) && SameSlice(b, c, e) {
      forall id ensures Belongs(a, id, e) <==> Belongs(c, id, e) {
        assert Belongs(a, id, e) <==> Belongs(b, id, e);
        assert Belongs(b, id, e) <==> Belongs(c, id, e);
      }
      forall id | Belongs(a, id, e) ensures a.holds[id] == c.holds[id] {
        assert Belongs(b, id, e);
      }
    }
  }

  // ----- capacity over whole runs -----

  /** The greatest capacity the log ever gives to event `e`, and at least 0. */
  function Highest(log: seq<Op>, e: EventId): int {
    if log == [] then 0
    else
      var h := Highest(log[..|log| - 1], e);
      match log[|log| - 1]
      case Initialize(e0, c) => if e0 == e && c > h then c else h
      case Adjust(e0, c) => if e0 == e && c > h then c else h
      case _ => h
  }

  /** The call sets the capacity of `e`. */
  predicate Sets(op: Op, e: EventId) { (op.Initialize? || op.Adjust?) && op.event == e }

  /** `Highest` is at least every capacity set for that event, and is one of them or 0. */
  lemma {:induction false} HighestIsSet(log: seq<Op>, e: EventId)
    ensures Highest(log, e) >= 0
    ensures forall i :: 0 <= i < |log| && Sets(log[i], e) ==> log[i].capacity <= Highest(log, e)
    ensures Highest(log, e) == 0 || exists i :: 0 <= i < |log| && Sets(log[i], e) && log[i].capacity == Highest(log, e)
  {
    if log != [] {
      var before := log[..|log| - 1];
      HighestIsSet(before, e);
      assert forall i :: 0 <= i < |before| ==> before[i] == log[i];
      if Highest(log, e) == Highest(before, e) && Highest(before, e) != 0 {
        var i :| 0 <= i < |before| && Sets(before[i], e) && before[i].capacity == Highest(before, e);
        assert Sets(log[i], e);
      } else if Highest(log, e) != 0 {
        assert Sets(log[|log| - 1], e);
      }
    }
  }

  /** `NeverLowered`, place by place: no change of the capacity is below the one in force, which starts at 0
    * or above. */
  lemma {:induction false} NeverLoweredAt(log: seq<Op>, e: EventId)
    ensures NeverLowered(log, e) <==>
              forall i :: 0 <= i < |log| && Sets(log[i], e) ==>
                (if log[i].Initialize? then log[i].capacity >= 0
                 else e in Replay(log[..i]).rows ==> Replay(log[..i]).rows[e].capacity <= log[i].capacity)
  {
    if log != [] {
      var before := log[..|log| - 1];
      NeverLoweredAt(before, e);
      assert forall i :: 0 <= i < |before| ==> before[i] == log[i] && before[..i] == log[..i];
      if NeverLowered(log, e) {
        forall i | 0 <= i < |log| && Sets(log[i], e)
          ensures if log[i].Initialize? then log[i].capacity >= 0
                  else e in Replay(log[..i]).rows ==> Replay(log[..i]).rows[e].capacity <= log[i].capacity
        {
          if i < |before| { assert Sets(before[i], e) && before[..i] == log[..i]; }
        }
      } else if NeverLowered(before, e) {
        assert Sets(log[|log| - 1], e);
      } else {
        var i :| 0 <= i < |before| && Sets(before[i], e) &&
                 !(if before[i].Initialize? then before[i].capacity >= 0
                   else e in Replay(before[..i]).rows ==> Replay(before[..i]).rows[e].capacity <= before[i].capacity);
        assert Sets(log[i], e) && before[..i] == log[..i];
      }
    }
  }

  /** No capacity of event `e` is ever below one it had before. */
  predicate NeverLowered(log: seq<Op>, e: EventId) {
    log == [] ||
    (NeverLowered(log[..|log| - 1], e) &&
     (match log[|log| - 1]
      case Adjust(e0, c) => e0 != e || (e in Replay(log[..|log| - 1]).rows ==>
          Replay(log[..|log| - 1]).rows[e].capacity <= c)
      case Initialize(e0, c) => e0 != e || c >= 0
      case _ => true))
  }

  /** How one call moves an existing row: only `Adjust` changes the capacity, only `Reserve` takes
    * more seats, and never beyond the capacity. */
  lemma RowStep(db: Store, op: Op, e: EventId)
    requires Sound(db) && e in db.rows
    ensures e in Next(db, op).rows
    ensures Next(db, op).rows[e].capacity == if op.Adjust? && op.event == e then op.capacity else db.rows[e].capacity
    ensures Next(db, op).rows[e].Taken() <= db.rows[e].Taken()
         || (op.Reserve? && op.event == e && Next(db, op).rows[e].Taken() <= db.rows[e].capacity)
  {
  }

  /** Seats taken never exceed the greatest capacity ever set, whatever the capacity changes. */
  lemma {:induction false} TakenWithinHighest(log: seq<Op>, e: EventId)
    requires Effective(EMPTY, log) && e in Replay(log).rows
    ensures Replay(log).rows[e].capacity <= Highest(log, e)
    ensures 0 <= Replay(log).rows[e].Taken() <= Highest(log, e)
  {
    var before := log[..|log| - 1];
    ReplayConsistent(log);
    CountersNonNegative(Replay(log), e);
    ReplayConsistent(before);
    HighestNonNegative(before, e);
    if e in Replay(before).rows { TakenWithinHighest(before, e); }
    WithinStep(Replay(before), log, e);
  }

  lemma WithinStep(db: Store, log: seq<Op>, e: EventId)
    requires log != [] && Sound(db) && e in Next(db, log[|log| - 1]).rows && Highest(log[..|log| - 1], e) >= 0
    requires e in db.rows ==>
        db.rows[e].capacity <= Highest(log[..|log| - 1], e) && db.rows[e].Taken() <= Highest(log[..|log| - 1], e)
    ensures var db' := Next(db, log[|log| - 1]);
            db'.rows[e].capacity <= Highest(log, e) && db'.rows[e].Taken() <= Highest(log, e)
  {
    if e in db.rows { RowStep(db, log[|log| - 1], e); } else { NewRow(db, log[|log| - 1], e); }
  }

  lemma NewRow(db: Store, op: Op, e: EventId)
    requires e !in db.rows && e in Next(db, op).rows
    ensures op.Initialize? && op.event == e && Next(db, op).rows[e].capacity == op.capacity
    ensures Next(db, op).rows[e].Taken() == 0
  {
  }

  lemma {:induction false} HighestNonNegative(log: seq<Op>, e: EventId)
    ensures Highest(log, e) >= 0
  {
    if log != [] { HighestNonNegative(log[..|log| - 1], e); }
  }

  /** Seats go negative only through a capacity cut: with none, availability never does. */
  lemma {:induction false} AvailableNeverNegative(log: seq<Op>, e: EventId)
    requires Effective(EMPTY, log) && NeverLowered(log, e) && e in Replay(log).rows
    ensures Replay(log).rows[e].Available() >= 0
  {
    var before, op := log[..|log| - 1], log[|log| - 1];
    var db := Replay(before);
    ReplayConsistent(before);
    if e in db.rows {
      AvailableNeverNegative(before, e);
      RowStep(db, op, e);
    }
  }
}
