/** `InventoryService`: one transaction per operation (`session_scope`), the lease lock around the two
  * operations that take it, and the expiry sweep as one transaction over a page of reservations. */
module InventoryService {
  import opened Wrappers
  import opened Inventory
  import opened CommitLog
  import opened Engine
  import opened Serialisability
  import opened EngineTheorems
  import opened Session
  import opened Repository
  import Settlement
  import Lease

  const MAX_RETRIES := 5      // optimistic_retry_attempts
  const HOLD_SECONDS := 600   // reservation_ttl_seconds

  /** What the tables are when the last thing that happened is the commit of `ops`. */
  lemma CommitInstalls(steps: seq<Step>, t: TxId)
    requires var s := Run(START, steps); t in s.txs && s.txs[t].todo == []
    ensures var s := Run(START, steps);
            var s' := Exec(s, Commit(t));
            && s'.log == s.log + s.txs[t].done
            && s'.db == ReplayFrom(s.db, s.txs[t].done) && Effective(s.db, s.txs[t].done)
            && Consistent(s'.db)
  {
    Serialisable(steps);
    var s := Run(START, steps);
    MergeIsReplay(s, t);
    ReplayConsistent(s.log);
    Settlement.ReplayFromConsistent(s.db, s.txs[t].done);
  }

  /** Where the commit puts the session's calls, and what was there just before. */
  lemma CommitLeaves(steps: seq<Step>, t: TxId)
    requires var s := Run(START, steps); t in s.txs && s.txs[t].todo == []
    ensures var s, x := Run(START, steps), Run(START, steps).txs[t];
            var s' := Exec(s, Commit(t));
            && s'.log == s.log + x.done && s'.log[..|s.log|] == s.log && s'.log[|s.log|..] == x.done
            && s.db == Replay(s.log) && Effective(s.db, x.done) && s'.db == ReplayFrom(s.db, x.done)
            && t in s'.ended && s'.ended[t] == Committed(x.done, x.start, |s.log|)
            && forall e :: e in x.touched ==> SameSlice(x.snap, s.db, e)
  {
    CommitInstalls(steps, t);
    LockedSlices(steps, t);
  }

  lemma TablesSound(steps: seq<Step>)
    ensures Sound(Run(START, steps).db)
  {
    Serialisable(steps);
    ReplayConsistent(Run(START, steps).log);
  }

  /** The events a session has locked are still as it read them. */
  lemma LockedSlices(steps: seq<Step>, t: TxId)
    requires t in Run(START, steps).txs
    ensures var s := Run(START, steps);
            s.db == Replay(s.log) && forall e :: e in s.txs[t].touched ==> SameSlice(s.txs[t].snap, s.db, e)
  {
    Serialisable(steps);
    assert Held(Run(START, steps).db, Run(START, steps).locks, t, Run(START, steps).txs[t]);
  }

  /** A confirm or release that writes leaves the status that its name says, whatever the tables were. */
  lemma WrittenStatus(a: Store, b: Store, op: Op)
    requires (op.Confirm? || op.Release?) && Apply(a, op).Wrote? && Apply(b, op).Wrote?
    ensures op.id in Next(a, op).holds && op.id in Next(b, op).holds
    ensures Next(a, op).holds[op.id].status == Next(b, op).holds[op.id].status && Apply(Next(b, op), op) == Unchanged
  {
  }

  /** After a confirm or release that read the tables of `start`, and found nothing to do or was the last to
    * commit, the stored status is one that the status it left can have become. */
  lemma StatusLeft(log: seq<Op>, start: nat, op: Op)
    requires start <= |log| && (op.Confirm? || op.Release?) && !Apply(Replay(log[..start]), op).Raised?
    requires Apply(Replay(log[..start]), op).Wrote? ==>
               |log| > 0 && log[|log| - 1..] == [op] && Effective(Replay(log[..|log| - 1]), [op])
    ensures var read := Next(Replay(log[..start]), op);
            && op.id in read.holds && op.id in Replay(log).holds
            && Reaches(read.holds[op.id].status, Replay(log).holds[op.id].status)
            && Apply(Replay(log), op) == Unchanged
  {
    if Apply(Replay(log[..start]), op).Wrote? {
      assert log[|log| - 1] == op && [op][..0] == [];
      WrittenStatus(Replay(log[..start]), Replay(log[..|log| - 1]), op);
    } else {
      NothingToDoIsStable(log, start, op);
      ReservationStays(log, start, op.id);
    }
  }

  lemma TablesAre(steps: seq<Step>)
    ensures Run(START, steps).db == Replay(Run(START, steps).log)
  {
    Serialisable(steps);
  }

  /** What a session read is what the log had made of the tables at the time. */
  lemma Snapshot(steps: seq<Step>, t: TxId)
    requires t in Run(START, steps).txs
    ensures var s := Run(START, steps); s.txs[t].start <= |s.log| && s.txs[t].snap == Replay(s.log[..s.txs[t].start])
  {
    Serialisable(steps);
    var s := Run(START, steps);
    assert Private(s.log, s.next, t, s.txs[t]);
  }

  class InventoryService {
    const session: Session
    const repo: InventoryRepository
    const lock: Lease.RedisLock

    constructor (session: Session, lock: Lease.RedisLock)
      requires session.Valid()
      ensures this.session == session && this.lock == lock && Valid()
    {
      this.session, this.lock := session, lock;
      repo := new InventoryRepository(session);
    }

    ghost predicate Valid()
      reads session
    {
      repo.session == session && session.Valid()
    }

    /** The end of `session_scope` on success. `ops` is exactly what this session adds to the log. */
    method CommitScope(ghost ops: seq<Op>)
      requires Valid() && session.tx in session.state.txs
      requires session.state.txs[session.tx].todo == [] && session.state.txs[session.tx].done == ops
      modifies session`state, session`trace, session`now, session`elsewhere, session`work
      ensures Valid() && session.tx == old(session.tx) && session.work == old(session.work)
      ensures old(session.state.log) <= session.state.log && Committing(ops, |old(session.state.log)|)
      ensures session.tx in session.state.ended && session.state.ended[session.tx].Committed?
              && session.state.ended[session.tx].ops == ops
      ensures ReadAt(session.state.ended[session.tx]) == old(session.state.txs[session.tx].start) <= |session.state.log|
      ensures AsRead() == old(session.state.txs[session.tx].snap)
      ensures old(session.trace) <= session.trace
      // no other session has changed the events this one locked since it read them
      ensures forall e :: e in old(session.state.txs[session.tx].touched) ==>
                SameSlice(old(session.state.txs[session.tx].snap), Replay(Before(ops)), e)
      ensures old(session.elsewhere) == [] ==> session.state.log == old(session.state.log) + ops
      ensures old(session.elsewhere) == [] ==> session.state.db == ReplayFrom(old(session.state.db), ops)
      ensures old(session.now) <= session.now
    {
      session.Await();
      CommitLeaves(session.trace, session.tx);
      Snapshot(session.trace, session.tx);
      ghost var log := session.state.log;
      session.Take(Commit(session.tx));
      assert Before(ops) == log;
      assert session.state.log[..ReadAt(session.state.ended[session.tx])]
          == log[..old(session.state.txs[session.tx].start)];
    }

    /** The log without the `ops` it ends with. */
    ghost function Before(ops: seq<Op>): seq<Op>
      reads session
      requires |ops| <= |session.state.log|
    {
      session.state.log[..|session.state.log| - |ops|]
    }

    /** What the committed tables were when this call's session, which has ended, read them. */
    ghost function AsRead(): Store
      reads session
    {
      if session.tx !in session.state.ended then EMPTY
      else
        var start := ReadAt(session.state.ended[session.tx]);
        if 0 <= start <= |session.state.log| then Replay(session.state.log[..start]) else EMPTY
    }

    /** The log ends with `ops`, added after at least `since` other entries, and the tables are what
      * those calls make, one after another, of the tables just before. */
    ghost predicate Committing(ops: seq<Op>, since: nat)
      reads session
    {
      var log := session.state.log;
      && |log| >= |ops| + since && log[|log| - |ops|..] == ops
      && Effective(Replay(log[..|log| - |ops|]), ops)
      && session.state.db == ReplayFrom(Replay(log[..|log| - |ops|]), ops)
    }

    /** This call's session, which has ended, read after at least `since` commits. */
    predicate ReadSince(since: nat)
      reads session
    {
      session.tx in session.state.ended && since <= ReadAt(session.state.ended[session.tx]) <= |session.state.log|
    }

    /** It lost its row to another session, after reading no earlier than that. */
    predicate LostRow(since: nat)
      reads session
    {
      session.tx in session.state.ended && session.state.ended[session.tx].Lost?
      && session.state.ended[session.tx].start >= since
    }

    /** This call's session read after at least `since` commits, and committed what `op` does to what it read:
      * that one call, or nothing if there was nothing to change. */
    ghost predicate Did(op: Op, since: nat)
      reads session
    {
      && ReadSince(since) && session.state.ended[session.tx].Committed?
      && !Apply(AsRead(), op).Raised?
      && if Apply(AsRead(), op).Wrote? then Committing([op], since) else Committing([], since)
    }

    /** This call's session read after at least `since` commits, and ended without committing anything: either
      * `op` raises `error` on what it read, or the row moved underneath, which is reported as `ifMoved`. */
    ghost predicate Refused(op: Op, error: Error, ifMoved: Error, since: nat)
      reads session
    {
      RefusedSince(since, op, error) || (LostRow(since) && error == ifMoved)
    }

    /** The answer to a confirm or release: the status its session left, be it written by this call or found
      * as it was. The stored one can only have moved on from there, and repeating the call changes nothing. */
    ghost predicate Answered(op: Op, status: Status, since: nat)
      requires op.Confirm? || op.Release?
      reads session
    {
      && Did(op, since)
      && op.id in Next(AsRead(), op).holds && status == Next(AsRead(), op).holds[op.id].status
      && op.id in session.state.db.holds && Reaches(status, session.state.db.holds[op.id].status)
      && Apply(session.state.db, op) == Unchanged
    }

    /** What the lock was met with by a call that did not get it: another client's live lease, each time. */
    ghost predicate LockedOut(event: EventId, token: Lease.Token, refused: seq<nat>)
      reads lock
    {
      |refused| == (if lock.retryAttempts <= 0 then 0 else lock.retryAttempts)
      && lock.Refusals(lock.trace, refused, event, token)
    }

    /** Nobody else acts, and the lease is free. */
    predicate Free(event: EventId)
      reads session, lock
    {
      session.elsewhere == [] && lock.retryAttempts > 0 && !Lease.Live(lock.locks, event)
    }

    /** What a reservation call `op` leaves behind, of the state `was` it started from. On success the new
      * PENDING reservation is the last thing in the log. Otherwise none of the sessions this call opened
      * committed anything: `lost` are those that lost their row, each to another transaction in `winners`,
      * and the last one raised. A conflict names MAX_RETRIES of each. */
    ghost predicate Reserving(was: State, op: Op, r: Result<HoldId, Error>, lost: seq<TxId>, winners: seq<TxId>)
      requires op.Reserve?
      reads session
    {
      && was.log <= session.state.log && Overtaken(session.state, op.event, lost, winners, |was.log|)
      && (forall i :: 0 <= i < |lost| ==> lost[i] !in was.ended && winners[i] !in was.ended)
      && |lost| <= MAX_RETRIES && (r == Failure(Conflict) <==> |lost| == MAX_RETRIES)
      && (r == Failure(InvalidQuantity) <==> op.quantity <= 0)
      && (r == Failure(InvalidQuantity) ==> session.state == was)
      && (r.Success? ==> Committing([op], |was.log|) && r.value == op.id)
      && (r.Success? ==> op.id in session.state.db.holds && session.state.db.holds[op.id]
                         == Hold(op.event, op.order, op.quantity, Pending, op.expiresAt))
      && (r == Failure(NotFound) || r == Failure(CapacityExceeded) ==> RefusedSince(|was.log|, op, r.error))
      && (r.Failure? ==> r.error in {InvalidQuantity, Conflict, NotFound, CapacityExceeded})
    }

    /** The transactions that a reservation call opens: those it lost, and the one that settled it. */
    function Tried(r: Result<HoldId, Error>, lost: seq<TxId>): seq<TxId>
      reads session
    {
      lost + if r.Success? || r.error in {NotFound, CapacityExceeded} then [session.tx] else []
    }

    /** This call's last session raised `error` on tables it read after `since` commits. */
    ghost predicate RefusedSince(since: nat, op: Op, error: Error)
      reads session
    {
      && ReadSince(since) && Apply(AsRead(), op) == Raised(error)
      && session.state.ended[session.tx] == Failed(op, error, ReadAt(session.state.ended[session.tx]), [])
    }

    /** The call asks for these seats, and sets an expiry of HOLD_SECONDS from some moment of it. */
    predicate Asks(op: Op, event: EventId, order: OrderId, quantity: int, began: int)
      reads session
    {
      && op.Reserve? && op == Reserve(event, op.id, order, quantity, op.expiresAt)
      && began + HOLD_SECONDS <= op.expiresAt <= session.now + HOLD_SECONDS
    }

    /** Books seats under the event's lease. A call that does not get the lease changes nothing, and names the
      * `refused` moments. Alone and with the lease free, it answers and does what the call does on the tables. */
    method ReserveSeats(event: EventId, order: OrderId, quantity: int, token: Lease.Token, scriptFails: bool)
      returns (r: Result<HoldId, Error>, ghost op: Op, ghost lost: seq<TxId>, ghost winners: seq<TxId>,
               ghost refused: seq<nat>)
      requires Valid() && lock.Valid() && token !in lock.locks.inside && token !in lock.locks.spent
      modifies session, lock
      ensures session.begun == old(session.begun) + if r == Failure(LockUnavailable) then [] else Tried(r, lost)
      ensures Valid() && lock.Valid() && token !in lock.locks.inside
      ensures r == Failure(LockUnavailable) ==> session.state == old(session.state) && LockedOut(event, token, refused)
      ensures r != Failure(LockUnavailable) ==> Asks(op, event, order, quantity, old(session.now))
      ensures r != Failure(LockUnavailable) ==> op.Reserve? && Reserving(old(session.state), op, r, lost, winners)
      ensures old(Free(event)) ==> r != Failure(LockUnavailable)
      ensures old(Free(event)) && quantity > 0 ==> op.Reserve? && op.expiresAt == old(session.now) + HOLD_SECONDS
      ensures old(Free(event)) && quantity > 0 ==>
          op.Reserve? && r == repo.Answer(old(session.state.db), event, quantity, op.id)
      ensures old(Free(event)) && quantity > 0 ==> session.state.db == Next(old(session.state.db), op)
    {
      op, lost, winners := Confirm(0), [], [];
      var acquired;
      acquired, refused := lock.Acquire(event, token);
      if !acquired { return Failure(LockUnavailable), op, lost, winners, refused; }
      r, op, lost, winners := ReserveScope(event, order, quantity);
      Leave(token, scriptFails);
    }

    /** The end of the critical section. */
    method Leave(token: Lease.Token, scriptFails: bool)
      requires lock.Valid() && token in lock.locks.inside
      modifies lock
      ensures lock.Valid() && token !in lock.locks.inside
    {
      lock.Await(token);
      lock.Release(token, scriptFails);
    }

    /** The transaction inside the lease. */
    method ReserveScope(event: EventId, order: OrderId, quantity: int)
      returns (r: Result<HoldId, Error>, ghost op: Op, ghost lost: seq<TxId>, ghost winners: seq<TxId>)
      requires Valid()
      modifies session
      ensures session.begun == old(session.begun) + Tried(r, lost)
      ensures Valid() && r != Failure(LockUnavailable)
      ensures Asks(op, event, order, quantity, old(session.now)) && Reserving(old(session.state), op, r, lost, winners)
      ensures old(session.elsewhere) == [] && quantity > 0 ==> (
        && op.expiresAt == old(session.now) + HOLD_SECONDS
        && r == repo.Answer(old(session.state.db), event, quantity, op.id)
        && session.state.db == Next(old(session.state.db), op))
    {
      r, op, lost, winners := repo.Reserve(event, order, quantity, HOLD_SECONDS, MAX_RETRIES);
      if r.Success? { CommitReserved(op, event, lost, winners, |old(session.state.log)|); }
    }

    /** The commit after a reservation that was flushed. */
    method CommitReserved(ghost op: Op, event: EventId, ghost lost: seq<TxId>, ghost winners: seq<TxId>,
                          ghost since: nat)
      requires Valid() && repo.Ready(op) && session.state.txs[session.tx].done == [op]
      requires Overtaken(session.state, event, lost, winners, since)
      modifies session`state, session`trace, session`now, session`elsewhere, session`work
      ensures Valid() && session.tx == old(session.tx) && old(session.state.log) <= session.state.log
      ensures old(session.now) <= session.now
      ensures Committing([op], |old(session.state.log)|) && Overtaken(session.state, event, lost, winners, since)
      ensures old(session.elsewhere) == [] ==> session.state.db == Next(old(session.state.db), op)
    {
      ghost var flushed := session.trace;
      CommitScope([op]);
      OvertakenKept(flushed, session.trace, event, lost, winners, since);
      assert [op][..0] == [];
    }

    /** Sets an event's capacity under its lease: success is this very change committed, or the value found in
      * place already. */
    method AdjustCapacity(event: EventId, capacity: int, token: Lease.Token, scriptFails: bool)
      returns (r: Result<(), Error>, ghost refused: seq<nat>)
      requires Valid() && lock.Valid() && token !in lock.locks.inside && token !in lock.locks.spent
      modifies session, lock
      ensures session.begun == old(session.begun) + if r == Failure(LockUnavailable) then [] else [session.tx]
      ensures Valid() && lock.Valid() && token !in lock.locks.inside
      ensures old(session.state.log) <= session.state.log
      ensures r.Success? ==> Did(Adjust(event, capacity), |old(session.state.log)|)
      ensures r == Failure(LockUnavailable) ==> session.state == old(session.state) && LockedOut(event, token, refused)
      ensures r.Failure? && r.error != LockUnavailable ==>
          r.error in {NotFound, Stale} && Refused(Adjust(event, capacity), r.error, Stale, |old(session.state.log)|)
      ensures old(Free(event)) ==> (
        if event in old(session.state.db.rows) then r.Success? else r == Failure(NotFound))
      ensures old(Free(event)) ==> session.state.db == Next(old(session.state.db), Adjust(event, capacity))
    {
      var acquired;
      acquired, refused := lock.Acquire(event, token);
      if !acquired { return Failure(LockUnavailable), refused; }
      r := AdjustScope(event, capacity);
      Leave(token, scriptFails);
    }

    method AdjustScope(event: EventId, capacity: int) returns (r: Result<(), Error>)
      requires Valid()
      modifies session
      ensures session.begun == old(session.begun) + [session.tx]
      ensures Valid() && old(session.state.log) <= session.state.log
      ensures r.Failure? ==>
          r.error in {NotFound, Stale} && Refused(Adjust(event, capacity), r.error, Stale, |old(session.state.log)|)
      ensures r.Success? ==> Did(Adjust(event, capacity), |old(session.state.log)|)
      ensures old(session.elsewhere) == [] ==> (
        && (if event in old(session.state.db.rows) then r.Success? else r == Failure(NotFound))
        && session.state.db == Next(old(session.state.db), Adjust(event, capacity)))
    {
      r := repo.AdjustCapacity(event, capacity);
      if r.Success? { CommitReady(Adjust(event, capacity), |old(session.state.log)|); }
    }

    /** Commits a call that is flushed or had nothing to change. */
    method CommitReady(ghost op: Op, ghost since: nat)
      requires Valid() && repo.Ready(op)
      requires since <= session.state.txs[session.tx].start && since <= |session.state.log|
      modifies session`state, session`trace, session`now, session`elsewhere, session`work
      ensures Valid() && old(session.state.log) <= session.state.log && session.work == old(session.work)
      ensures Did(op, since) && AsRead() == old(session.state.txs[session.tx].snap)
      ensures old(session.elsewhere) == [] && old(session.state.txs[session.tx].snap) == old(session.state.db) ==>
                session.state.db == Next(old(session.state.db), op)
    {
      ghost var done := session.state.txs[session.tx].done;
      CommitScope(done);
      assert [op][..0] == [];
    }

    /** Creates an event's inventory; repeating it never touches an existing row. No lease. */
    method InitializeInventory(event: EventId, capacity: int) returns (r: Result<(), Error>)
      requires Valid()
      modifies session
      ensures session.begun == old(session.begun) + [session.tx]
      ensures Valid() && old(session.state.log) <= session.state.log
      ensures r.Failure? ==> (
        && r.error == DuplicateKey
        && Refused(Initialize(event, capacity), DuplicateKey, DuplicateKey, |old(session.state.log)|)
        && session.state.ended[session.tx].Lost?)
      ensures r.Success? ==> Did(Initialize(event, capacity), |old(session.state.log)|)
      ensures old(session.elsewhere) == [] ==>
                r.Success? && session.state.db == Next(old(session.state.db), Initialize(event, capacity))
    {
      r := repo.InitializeInventory(event, capacity);
      if r.Success? { CommitReady(Initialize(event, capacity), |old(session.state.log)|); }
    }

    /** Confirms a reservation. Success says only that the reservation is not PENDING any more: on a released
      * or expired one the call quietly does nothing, and answers with that status. A moved row escapes as a
      * stale error. */
    method ConfirmReservation(id: HoldId) returns (r: Result<Status, Error>)
      requires Valid()
      modifies session
      ensures session.begun == old(session.begun) + [session.tx]
      ensures Valid() && old(session.state.log) <= session.state.log
      ensures r.Failure? ==>
                r.error in {NotFound, Stale} && Refused(Confirm(id), r.error, Stale, |old(session.state.log)|)
      ensures r.Success? ==> Answered(Confirm(id), r.value, |old(session.state.log)|)
      ensures r.Success? ==> session.state.db.holds[id].status != Pending && r.value != Pending
      ensures old(session.elsewhere) == [] ==> (
        && session.state.db == Next(old(session.state.db), Confirm(id))
        && r == (if id in session.state.db.holds then Success(session.state.db.holds[id].status)
                 else Failure(NotFound)))
    {
      var done := repo.Confirm(id);
      match done
      case Failure(error) => r := Failure(error);
      case Success(_) =>
        r := Success(session.work.holds[id].status);
        SettleScope(Confirm(id), |old(session.state.log)|);
    }

    /** Releases (or expires) a reservation; afterwards it is dead, by this call or an earlier one. */
    method ReleaseReservation(id: HoldId, expired: bool) returns (r: Result<Status, Error>)
      requires Valid()
      modifies session
      ensures session.begun == old(session.begun) + [session.tx]
      ensures Valid() && old(session.state.log) <= session.state.log
      ensures r.Failure? ==>
                r.error in {NotFound, Stale} && Refused(Release(id, expired), r.error, Stale, |old(session.state.log)|)
      ensures r.Success? ==> Answered(Release(id, expired), r.value, |old(session.state.log)|)
      ensures r.Success? ==> session.state.db.holds[id].status == r.value && r.value.Dead()
      ensures old(session.elsewhere) == [] ==> (
        && session.state.db == Next(old(session.state.db), Release(id, expired))
        && r == (if id in session.state.db.holds then Success(session.state.db.holds[id].status)
                 else Failure(NotFound)))
    {
      var done := repo.Release(id, expired);
      match done
      case Failure(error) => r := Failure(error);
      case Success(_) =>
        r := Success(session.work.holds[id].status);
        SettleScope(Release(id, expired), |old(session.state.log)|);
    }

    /** Commits a confirm or release that flushed, or that had nothing to do. */
    method SettleScope(ghost op: Op, ghost since: nat)
      requires Valid() && (op.Confirm? || op.Release?) && repo.Ready(op)
      requires since <= session.state.txs[session.tx].start && since <= |session.state.log|
      requires op.id in session.work.holds
      modifies session`state, session`trace, session`now, session`elsewhere, session`work
      ensures Valid() && old(session.state.log) <= session.state.log && session.work == old(session.work)
      ensures Answered(op, old(session.work).holds[op.id].status, since)
      ensures old(session.elsewhere) == [] && old(session.state.txs[session.tx].snap) == old(session.state.db) ==>
                session.state.db == Next(old(session.state.db), op)
    {
      CommitReady(op, since);
      TablesAre(session.trace);
      ghost var log, start := session.state.log, ReadAt(session.state.ended[session.tx]);
      assert AsRead() == Replay(log[..start]) == old(session.state.txs[session.tx].snap);
      StatusLeft(log, start, op);
      assert Next(AsRead(), op) == old(session.work);
    }

    /** The state of a sweep that has released the first `i` reservations of its page. */
    ghost predicate Sweeping(page: seq<HoldId>, snap: Store, i: nat)
      reads session
    {
      && i <= |page| && session.tx in session.state.txs
      && session.Open(Settlement.ExpireAll(page)[i..])
      && var x := session.state.txs[session.tx];
         && x.snap == snap && x.done == Settlement.ExpireAll(page)[..i] && x.work == ReplayFrom(snap, x.done)
         && forall k :: 0 <= k < i ==> page[k] in snap.holds && snap.holds[page[k]].event in x.touched
    }

    /** Releases one reservation of the page within the sweep's session. */
    method SweepOne(page: seq<HoldId>, i: nat, ghost snap: Store) returns (ok: bool)
      requires Valid() && i < |page| && Sweeping(page, snap, i) && Sound(snap) && Settlement.Distinct(page)
      requires forall k :: 0 <= k < |page| ==> page[k] in snap.holds && snap.holds[page[k]].status == Pending
      modifies session`state, session`trace, session`now, session`elsewhere, session`work
      ensures Valid() && session.tx == old(session.tx) && old(session.state.log) <= session.state.log
      ensures old(session.now) <= session.now
      ensures ok ==> Sweeping(page, snap, i + 1)
                     && session.state.txs[session.tx].start == old(session.state.txs[session.tx].start)
      ensures !ok ==> LostRow(old(session.state.txs[session.tx].start))
      ensures old(session.elsewhere) == [] && old(session.state.db) == snap ==>
                ok && session.elsewhere == [] && session.state.db == snap && session.state.log == old(session.state.log)
    {
      NextOfPage(snap, page, i);
      UntouchedVersions(session.trace, session.tx);
      var r := repo.ReleaseLoaded(page[i], true);
      ok := r.Success?;
    }

    /** The whole page within the sweep's session. */
    method SweepPage(page: seq<HoldId>, ghost snap: Store) returns (ok: bool)
      requires Valid() && Sweeping(page, snap, 0) && Sound(snap) && Settlement.Distinct(page)
      requires forall k :: 0 <= k < |page| ==> page[k] in snap.holds && snap.holds[page[k]].status == Pending
      modifies session`state, session`trace, session`now, session`elsewhere, session`work
      ensures Valid() && old(session.state.log) <= session.state.log && old(session.now) <= session.now
      ensures ok ==> Sweeping(page, snap, |page|)
                     && session.state.txs[session.tx].start == old(session.state.txs[session.tx].start)
      ensures !ok ==> LostRow(old(session.state.txs[session.tx].start))
      ensures old(session.elsewhere) == [] && old(session.state.db) == snap ==>
                ok && session.elsewhere == [] && session.state.db == snap && session.state.log == old(session.state.log)
    {
      ok := true;
      var i := 0;
      while i < |page|
        invariant 0 <= i <= |page| && Valid() && old(session.state.log) <= session.state.log
        invariant old(session.now) <= session.now
        invariant Sweeping(page, snap, i) && ok
        invariant session.state.txs[session.tx].start == old(session.state.txs[session.tx].start)
        invariant old(session.elsewhere) == [] && old(session.state.db) == snap ==>
                    session.elsewhere == [] && session.state.db == snap && session.state.log == old(session.state.log)
      {
        ok := SweepOne(page, i, snap);
        if !ok { return; }
        i := i + 1;
      }
    }

    /** Commits a sweep whose whole page is released: until this very commit all of it was PENDING. */
    method CommitSweep(page: seq<HoldId>, ghost snap: Store, ghost asOf: int)
      requires Valid() && Sweeping(page, snap, |page|) && asOf <= session.now
      requires forall k :: 0 <= k < |page| ==> Settlement.Expirable(snap, asOf, page[k])
      modifies session`state, session`trace, session`now, session`elsewhere, session`work
      ensures Valid() && old(session.state.log) <= session.state.log
      ensures Committing(Settlement.ExpireAll(page), |old(session.state.log)|)
      ensures ReadSince(old(session.state.txs[session.tx].start)) && AsRead() == snap && old(session.now) <= session.now
      ensures forall k :: 0 <= k < |page| ==>
                Settlement.Expirable(Replay(Before(Settlement.ExpireAll(page))), session.now, page[k])
      ensures old(session.elsewhere) == [] ==>
                session.state.db == ReplayFrom(old(session.state.db), Settlement.ExpireAll(page))
    {
      CommitScope(Settlement.ExpireAll(page));
      forall k | 0 <= k < |page|
        ensures Settlement.Expirable(Replay(Before(Settlement.ExpireAll(page))), session.now, page[k])
      {
        assert Belongs(snap, page[k], snap.holds[page[k]].event);
      }
    }

    /** One transaction over one page of expired holds: all of them, PENDING and past their time until this
      * very commit, become EXPIRED; or, if any of their rows moved since the read, none does and the stale
      * error escapes. The page is full, or holds everything that was expired in the tables it was read from
      * at the time `asOf` of the call. */
    method SweepExpiredReservations() returns (r: Result<seq<HoldId>, Error>, ghost asOf: int)
      requires Valid()
      modifies session
      ensures session.begun == old(session.begun) + [session.tx]
      ensures Valid() && old(session.state.log) <= session.state.log
      ensures r.Success? ==> ReadSince(|old(session.state.log)|) && old(session.now) <= asOf <= session.now
                             && Settlement.IsPage(AsRead(), asOf, Settlement.PAGE, r.value)
      ensures r.Success? ==> Committing(Settlement.ExpireAll(r.value), |old(session.state.log)|)
      ensures r.Success? ==> forall i :: 0 <= i < |r.value| ==>
                Settlement.Expirable(Replay(Before(Settlement.ExpireAll(r.value))), session.now, r.value[i])
      ensures r.Failure? ==> r.error == Stale && LostRow(|old(session.state.log)|)
      ensures old(session.elsewhere) == [] ==>
                r.Success? && Settlement.IsPage(old(session.state.db), old(session.now), Settlement.PAGE, r.value) &&
                session.state.db == ReplayFrom(old(session.state.db), Settlement.ExpireAll(r.value))
    {
      var page := LoadPage();
      asOf := session.now;
      var ok := SweepScope(page, session.work, asOf);
      r := if ok then Success(page) else Failure(Stale);
    }

    /** The releases of a page just read, and the commit. */
    method SweepScope(page: seq<HoldId>, ghost snap: Store, ghost asOf: int) returns (ok: bool)
      requires Valid() && Sweeping(page, snap, 0) && Sound(snap) && asOf == session.now
      requires Settlement.IsPage(snap, asOf, Settlement.PAGE, page)
      modifies session`state, session`trace, session`now, session`elsewhere, session`work
      ensures Valid() && old(session.state.log) <= session.state.log && asOf <= session.now
      ensures ok ==> ReadSince(old(session.state.txs[session.tx].start)) && AsRead() == snap
      ensures ok ==> Committing(Settlement.ExpireAll(page), |old(session.state.log)|)
      ensures ok ==> forall i :: 0 <= i < |page| ==>
                Settlement.Expirable(Replay(Before(Settlement.ExpireAll(page))), session.now, page[i])
      ensures !ok ==> LostRow(old(session.state.txs[session.tx].start))
      ensures old(session.elsewhere) == [] && old(session.state.db) == snap ==>
                ok && session.state.db == ReplayFrom(snap, Settlement.ExpireAll(page))
    {
      ok := SweepPage(page, snap);
      if ok { CommitSweep(page, snap, asOf); }
    }

    /** Opens the sweep's session and reads its page. */
    method LoadPage() returns (page: seq<HoldId>)
      requires Valid()
      modifies session
      ensures session.begun == old(session.begun) + [session.tx]
      ensures Valid() && old(session.state.log) <= session.state.log && Sound(session.work)
      ensures Settlement.IsPage(session.work, session.now, Settlement.PAGE, page)
      ensures Sweeping(page, session.work, 0) && session.work == session.state.db && old(session.now) <= session.now
      ensures session.state.txs[session.tx].start == |session.state.log|
      ensures old(session.elsewhere) == [] ==>
                session.elsewhere == [] && session.state.db == old(session.state.db) && session.now == old(session.now)
    {
      session.Await();
      page := FindExpiredPending(session.state.db, session.now, Settlement.PAGE);
      TablesSound(session.trace);
      session.Read(Settlement.ExpireAll(page));
    }
  }

  /** The `i`-th release of a page finds its reservation still PENDING. */
  lemma NextOfPage(snap: Store, page: seq<HoldId>, i: nat)
    requires i < |page| && Sound(snap) && Settlement.Distinct(page)
    requires forall k :: 0 <= k < |page| ==> page[k] in snap.holds && snap.holds[page[k]].status == Pending
    ensures var ops := Settlement.ExpireAll(page);
            var work := ReplayFrom(snap, ops[..i]);
            && page[i] in work.holds && work.holds[page[i]] == snap.holds[page[i]]
              && Apply(work, Release(page[i], true)).Wrote?
            && ops[i..][0] == Release(page[i], true) && ops[i..][1..] == ops[i + 1..]
            && ops[..i] + [Release(page[i], true)] == ops[..i + 1]
            && ReplayFrom(snap, ops[..i + 1]) == Next(work, Release(page[i], true))
  {
    PageOps(page, i);
    PageStore(snap, page, i);
    OneMoreOp(snap, Settlement.ExpireAll(page), i);
  }

  lemma PageOps(page: seq<HoldId>, i: nat)
    requires i < |page|
    ensures var ops := Settlement.ExpireAll(page);
            && ops[..i] == Settlement.ExpireAll(page[..i]) && ops[i] == Release(page[i], true)
            && ops[i..][0] == Release(page[i], true) && ops[i..][1..] == ops[i + 1..]
            && ops[..i] + [Release(page[i], true)] == ops[..i + 1]
  {
  }

  lemma PageStore(snap: Store, page: seq<HoldId>, i: nat)
    requires i < |page| && Sound(snap) && Settlement.Distinct(page)
    requires forall k :: 0 <= k < |page| ==> page[k] in snap.holds && snap.holds[page[k]].status == Pending
    ensures var work := ReplayFrom(snap, Settlement.ExpireAll(page[..i]));
            && page[i] in work.holds && work.holds[page[i]] == snap.holds[page[i]]
              && Apply(work, Release(page[i], true)).Wrote?
  {
    Settlement.SweepEffect(snap, page[..i]);
    assert page[i] !in page[..i];
  }

  lemma OneMoreOp(db: Store, ops: seq<Op>, i: nat)
    requires i < |ops|
    ensures ReplayFrom(db, ops[..i + 1]) == Next(ReplayFrom(db, ops[..i]), ops[i])
  {
    assert ops[..i + 1][..i] == ops[..i];
  }

  /** In a session's copy, the version of every event it has not written is the one it read. */
  lemma UntouchedVersions(steps: seq<Step>, t: TxId)
    requires t in Run(START, steps).txs
    ensures var x := Run(START, steps).txs[t];
            forall e :: e !in x.touched ==> VersionAt(x.work, e) == VersionAt(x.snap, e)
  {
    Serialisable(steps);
    var s := Run(START, steps);
    assert Private(s.log, s.next, t, s.txs[t]);
    forall e | e !in s.txs[t].touched ensures VersionAt(s.txs[t].work, e) == VersionAt(s.txs[t].snap, e) {
      assert SameSlice(s.txs[t].snap, s.txs[t].work, e);
    }
  }
}
