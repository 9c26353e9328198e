/** The database as the inventory service uses it: any number of sessions in flight, each reading a
  * snapshot, flushing version-checked updates that lock the row until commit, then committing or
  * rolling back (`session_scope`). The lease lock plays no part here. */
module Engine {
  import opened Inventory
  import opened CommitLog

  type TxId = nat

  /** One transaction. `snap` is what it read, `work` adds its own flushed changes, `todo` are the
    * calls still to flush, `done` the flushed calls that wrote, `touched` the events it has locked.
    * `start` is the length of the commit log at its read. */
  datatype Tx = Tx(start: nat, snap: Store, todo: seq<Op>, work: Store, done: seq<Op>, touched: set<EventId>)

  datatype Ending =
    | Committed(ops: seq<Op>, start: nat, at: nat)  // read after `start` log entries; `ops` stand in the log from `at`
    | Failed(op: Op, error: Error, start: nat, done: seq<Op>)  // `op` raised after this session's own `done`
    | Lost(event: EventId, start: nat, seen: nat)   // between log lengths `start` and `seen` the row's version moved
    | Abandoned                                     // rolled back or crashed

  /** The committed tables, the in-flight transactions, the row locks, the log of committed calls,
    * the next transaction number and how past transactions ended. */
  datatype State = State(
    db: Store, txs: map<TxId, Tx>, locks: map<EventId, TxId>, log: seq<Op>, next: TxId, ended: map<TxId, Ending>)

  const START := State(EMPTY, map[], map[], [], 0, map[])

  datatype Step =
    | Begin(ops: seq<Op>)   // open a session and read; a reservation's new id is the session's number
    | Flush(t: TxId)        // send the next call's UPDATE/INSERT
    | Commit(t: TxId)
    | Rollback(t: TxId)     // explicit rollback, an exception, or a crash

  /** Reservation ids are fresh uuids; the model numbers them after the transaction that makes them. */
  predicate FreshIds(ops: seq<Op>, t: TxId) {
    forall i :: 0 <= i < |ops| && ops[i].Reserve? ==> ops[i].id == t
  }

  function Unlock(locks: map<EventId, TxId>, t: TxId): map<EventId, TxId> {
    locks - set e | e in locks && locks[e] == t
  }

  function End(s: State, t: TxId, how: Ending): State
  {
    s.(txs := s.txs - {t}, locks := Unlock(s.locks, t), ended := s.ended[t := how])
  }

  /** The flush of a call that writes: waits while another session holds the row, is stale if the
    * row's version moved since the read, otherwise locks the row and keeps the change private. */
  function FlushWrite(s: State, t: TxId, after: Store, e: EventId): State
    requires t in s.txs && s.txs[t].todo != []
  {
    var x := s.txs[t];
    if e in x.touched then
      s.(txs := s.txs[t := x.(todo := x.todo[1..], work := after, done := x.done + [x.todo[0]])])
    else if e in s.locks then s
    else if VersionAt(s.db, e) != VersionAt(x.work, e) then End(s, t, Lost(e, x.start, |s.log|))
    else
      s.(txs := s.txs[t := x.(todo := x.todo[1..], work := after, done := x.done + [x.todo[0]],
                              touched := x.touched + {e})],
         locks := s.locks[e := t])
  }

  /** What the commit of `x` leaves in the tables: its own copy of the events it locked. */
  function Merge(db: Store, x: Tx): Store {
    Store(
      (db.rows - x.touched) + (x.work.rows - (x.work.rows.Keys - x.touched)),
      db.holds + (x.work.holds - set id | id in x.work.holds && !InTouched(x, id)))
  }

  predicate InTouched(x: Tx, id: HoldId) { id in x.work.holds && x.work.holds[id].event in x.touched }

  /** One step; a step that is not enabled leaves the state alone. */
  function Exec(s: State, step: Step): State {
    match step
    case Begin(ops) =>
      if !FreshIds(ops, s.next) then s
      else s.(txs := s.txs[s.next := Tx(|s.log|, s.db, ops, s.db, [], {})], next := s.next + 1)
    case Flush(t) =>
      if t !in s.txs || s.txs[t].todo == [] then s
      else
        var x := s.txs[t];
        (match Apply(x.work, x.todo[0])
         case Raised(error) => End(s, t, Failed(x.todo[0], error, x.start, x.done))
         case Unchanged => s.(txs := s.txs[t := x.(todo := x.todo[1..])])
         case Wrote(after) => FlushWrite(s, t, after, Target(x.work, x.todo[0])))
    case Commit(t) =>
      if t !in s.txs || s.txs[t].todo != [] then s
      else
        var x := s.txs[t];
        End(s.(db := Merge(s.db, x), log := s.log + x.done), t, Committed(x.done, x.start, |s.log|))
    case Rollback(t) =>
      if t !in s.txs then s else End(s, t, Abandoned)
  }

  function Run(s: State, steps: seq<Step>): State {
    if steps == [] then s else Exec(Run(s, steps[..|steps| - 1]), steps[|steps| - 1])
  }

  // ----- the invariant -----

  /** Every call of `ops` writes in its turn, on an event of `touched`. */
  predicate WritesWithin(db: Store, ops: seq<Op>, touched: set<EventId>) {
    ops == [] ||
    (WritesWithin(db, ops[..|ops| - 1], touched) &&
     Apply(ReplayFrom(db, ops[..|ops| - 1]), ops[|ops| - 1]).Wrote? &&
     Target(ReplayFrom(db, ops[..|ops| - 1]), ops[|ops| - 1]) in touched)
  }

  /** The committed tables are the log's sequential replay. */
  ghost predicate LogOk(s: State) { s.db == Replay(s.log) && Effective(EMPTY, s.log) }

  /** A transaction's private copy is a sequential run from a past committed state. */
  ghost predicate Private(log: seq<Op>, next: TxId, t: TxId, x: Tx) {
    && x.start <= |log| && x.snap == Replay(log[..x.start])
    && x.work == ReplayFrom(x.snap, x.done) && WritesWithin(x.snap, x.done, x.touched)
    && FreshIds(x.done, t) && FreshIds(x.todo, t) && t < next
    && (forall e :: e !in x.touched ==> SameSlice(x.snap, x.work, e))
  }

  /** The events a transaction locked are still as it read them. */
  ghost predicate Held(db: Store, locks: map<EventId, TxId>, t: TxId, x: Tx) {
    && t !in db.holds
    && (forall e :: e in x.touched ==> e in locks && locks[e] == t && SameSlice(x.snap, db, e))
  }

  /** What an ended transaction reports is true of the sequential log. */
  ghost predicate EndOk(log: seq<Op>, t: TxId, how: Ending) {
    match how
    case Committed(ops, start, at) =>
      start <= at && at + |ops| <= |log| && log[at..at + |ops|] == ops && FreshIds(ops, t)
    case Failed(op, error, start, done) =>
      start <= |log| && Apply(ReplayFrom(Replay(log[..start]), done), op) == Raised(error)
    case Lost(e, start, seen) =>
      start < seen <= |log| && VersionAt(Replay(log[..start]), e) < VersionAt(Replay(log[..seen]), e)
    case Abandoned => true
  }

  ghost predicate TxsOk(s: State) {
    forall t :: t in s.txs ==> Private(s.log, s.next, t, s.txs[t]) && Held(s.db, s.locks, t, s.txs[t])
  }

  ghost predicate LocksOk(s: State) {
    forall e :: e in s.locks ==> s.locks[e] in s.txs && e in s.txs[s.locks[e]].touched
  }

  ghost predicate EndsOk(s: State) {
    forall t :: t in s.ended ==> t < s.next && t !in s.txs && EndOk(s.log, t, s.ended[t])
  }

  ghost predicate Inv(s: State) {
    LogOk(s) && TxsOk(s) && LocksOk(s) && EndsOk(s) && forall id :: id in s.db.holds ==> id < s.next
  }
}
