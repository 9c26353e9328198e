/** `InventoryRepository` as the source writes it: each method reads through a session, branches on what
  * it read, assigns to the mapped objects and flushes. Its specification is the atomic call of
  * `Inventory` that `Engine` executes for the same transaction. */
module Repository {
  import opened Wrappers
  import opened Inventory
  import opened CommitLog
  import opened Engine
  import opened Serialisability
  import opened EngineTheorems
  import opened Session
  import Settlement

  /** A lost transaction that read no earlier than `before` saw the version rise since then. */
  lemma LostMeansRisen(before: seq<Step>, after: seq<Step>, t: TxId, e: EventId, start: nat)
    requires Run(START, before).log <= Run(START, after).log && |Run(START, before).log| <= start
    requires t in Run(START, after).ended && Run(START, after).ended[t] == Lost(e, start, |Run(START, after).log|)
    ensures VersionAt(Run(START, before).db, e) < VersionAt(Run(START, after).db, e)
  {
    Serialisable(before);
    LostVersions(after, t, e, start);
    var log, log' := Run(START, before).log, Run(START, after).log;
    assert log'[..|log|] == log;
    VersionsRise(log', |log|, start, e);
  }

  lemma LostVersions(steps: seq<Step>, t: TxId, e: EventId, start: nat)
    requires t in Run(START, steps).ended && Run(START, steps).ended[t] == Lost(e, start, |Run(START, steps).log|)
    ensures var s := Run(START, steps);
            start <= |s.log| && Effective(EMPTY, s.log) && VersionAt(Replay(s.log[..start]), e) < VersionAt(s.db, e)
  {
    Serialisable(steps);
    var s := Run(START, steps);
    assert EndOk(s.log, t, s.ended[t]) && s.log[..|s.log|] == s.log;
  }

  lemma VersionsRise(log: seq<Op>, i: nat, j: nat, e: EventId)
    requires i <= j <= |log| && Effective(EMPTY, log)
    ensures VersionAt(Replay(log[..i]), e) <= VersionAt(Replay(log[..j]), e)
  {
    EffectiveParts(EMPTY, log, j);
    VersionIsWitness(log[..j], i, e);
    assert log[..j][..i] == log[..i];
  }

  /** The attempts `lost` and, one for each, the transactions that overtook them: the windows between their
    * reads and flushes come one after another, none before `since`, and no transaction is named twice. */
  ghost predicate Overtaken(s: State, e: EventId, lost: seq<TxId>, winners: seq<TxId>, since: nat) {
    && |lost| == |winners|
    && (forall i :: 0 <= i < |lost| ==> OvertakenBy(s, e, lost[i], winners[i], since))
    && (forall i, j :: 0 <= i < j < |lost| ==> s.ended[lost[i]].seen <= s.ended[lost[j]].start)
    && (forall i, j :: 0 <= i < j < |lost| ==> lost[i] != lost[j] && winners[i] != winners[j])
  }

  ghost predicate OvertakenBy(s: State, e: EventId, t: TxId, u: TxId, since: nat) {
    && t in s.ended && s.ended[t].Lost? && s.ended[t].event == e
    && since <= s.ended[t].start && s.ended[t].seen <= |s.log|
    && CommittedWithin(s, u, e, s.ended[t].start, s.ended[t].seen)
  }

  lemma OvertakenByKept(s: State, s': State, e: EventId, t: TxId, u: TxId, since: nat)
    requires Grown(s, s') && OvertakenBy(s, e, t, u, since)
    ensures OvertakenBy(s', e, t, u, since)
  {
    var how := s.ended[t];
    var i :| how.start <= i < how.seen && i < |s.log| && CommittedAt(s.ended[u], i) && WritesAt(s.log, i, e);
    assert s'.log[..i] == s.log[..i] && WritesAt(s'.log, i, e);
  }

  lemma OvertakenKept(before: seq<Step>, after: seq<Step>, e: EventId, lost: seq<TxId>, winners: seq<TxId>, since: nat)
    requires before <= after && Overtaken(Run(START, before), e, lost, winners, since)
    ensures Overtaken(Run(START, after), e, lost, winners, since)
  {
    HistoryGrows(before, after);
    forall i | 0 <= i < |lost| ensures OvertakenBy(Run(START, after), e, lost[i], winners[i], since) {
      OvertakenByKept(Run(START, before), Run(START, after), e, lost[i], winners[i], since);
    }
  }

  /** One more lost attempt, begun after the earlier ones had ended, brings one more winner. */
  lemma OvertakenMore(before: seq<Step>, after: seq<Step>, e: EventId, lost: seq<TxId>, winners: seq<TxId>,
                      since: nat, t: TxId)
    returns (u: TxId)
    requires before <= after && Overtaken(Run(START, before), e, lost, winners, since)
    requires var s, s' := Run(START, before), Run(START, after);
             && since <= |s.log| && t !in s.ended && t in s'.ended && s'.ended[t].Lost? && s'.ended[t].event == e
             && |s.log| <= s'.ended[t].start && s'.ended[t].seen == |s'.log|
    ensures Overtaken(Run(START, after), e, lost + [t], winners + [u], since)
    ensures u !in Run(START, before).ended
  {
    var s, s' := Run(START, before), Run(START, after);
    var how := s'.ended[t];
    u := Overtaker(before, after, t, e, how.start, how.seen);
    OvertakenKept(before, after, e, lost, winners, since);
    HistoryGrows(before, after);
    forall i | 0 <= i < |lost| ensures lost[i] != t && winners[i] != u && s'.ended[lost[i]].seen <= how.start {
      Earlier(s, s', e, lost[i], winners[i], since);
    }
    OnePairMore(s', e, lost, winners, since, t, u);
  }

  /** An earlier pair ended before, and its window ends no later than the log did then. */
  lemma Earlier(s: State, s': State, e: EventId, t: TxId, u: TxId, since: nat)
    requires Grown(s, s') && OvertakenBy(s, e, t, u, since)
    ensures t in s.ended && u in s.ended && t in s'.ended && s'.ended[t].Lost? && s'.ended[t].seen <= |s.log|
  {
  }

  lemma OnePairMore(s: State, e: EventId, lost: seq<TxId>, winners: seq<TxId>, since: nat, t: TxId, u: TxId)
    requires Overtaken(s, e, lost, winners, since) && OvertakenBy(s, e, t, u, since)
    requires forall i :: 0 <= i < |lost| ==>
        lost[i] != t && winners[i] != u && s.ended[lost[i]].seen <= s.ended[t].start
    ensures Overtaken(s, e, lost + [t], winners + [u], since)
  {
  }

  /** Numbers of ended transactions are never given out again. */
  lemma NumbersNotReused(steps: seq<Step>)
    ensures forall t :: t in Run(START, steps).ended ==> t < Run(START, steps).next
  {
    Serialisable(steps);
  }

  /** The length of the log at the read of a transaction that ended; of one that was abandoned nothing is kept. */
  function ReadAt(how: Ending): int {
    match how
    case Committed(_, start, _) => start
    case Failed(_, _, start, _) => start
    case Lost(_, start, _) => start
    case Abandoned => -1
  }

  /** A transaction record after its next call went through, writing or not. */
  function Advanced(x: Tx): Tx
    requires x.todo != []
  {
    if Apply(x.work, x.todo[0]).Wrote? then Flushed(x) else x.(todo := x.todo[1..])
  }

  predicate Unmoved(db: Store, work: Store, e: EventId) { VersionAt(db, e) == VersionAt(work, e) }

  class InventoryRepository {
    const session: Session

    constructor (session: Session)
      ensures this.session == session
    {
      this.session := session;
    }

    /** The session has read, for one call that it has not sent yet. */
    predicate Fresh(op: Op)
      reads session
    {
      && session.Open([op])
      && var x := session.state.txs[session.tx];
         x.done == [] && x.touched == {} && x.work == x.snap && x.start <= |session.state.log|
    }

    /** What a method that has not raised leaves behind: its one call either flushed, or found nothing
      * to change in what the session read; either way the session is ready to commit. */
    predicate Ready(op: Op)
      reads session
    {
      && session.Open([])
      && var x := session.state.txs[session.tx];
         if Apply(x.snap, op).Wrote? then x.done == [op] && x.work == Next(x.snap, op)
         else Apply(x.snap, op) == Unchanged && x.done == [] && x.work == x.snap
    }

    /** The session ended because the call raises `error` on the committed store it read. */
    predicate Refused(op: Op, error: Error)
      reads session
    {
      session.tx in session.state.ended &&
      match session.state.ended[session.tx]
      case Failed(op', error', start, done) =>
        op' == op && error' == error && done == [] && start <= |session.state.log|
        && Apply(Replay(session.state.log[..start]), op) == Raised(error)
      case _ => false
    }

    /** What confirm, release, adjust and initialize promise, of tables read after at least `since` commits: the
      * call is flushed or was a no-op on what was read; or it raised what it raises alone; or the row moved
      * underneath and it reports that. */
    predicate Settled(op: Op, r: Result<(), Error>, ifMoved: Error, since: nat)
      reads session
    {
      match r
      case Success(_) => Ready(op) && session.state.txs[session.tx].start >= since
      case Failure(error) =>
        session.tx in session.state.ended && ReadAt(session.state.ended[session.tx]) >= since
        && (Refused(op, error) || (session.state.ended[session.tx].Lost? && error == ifMoved))
    }

    /** Nobody else has acted since `was`, nor will they. */
    predicate Undisturbed(was: State)
      reads session
    {
      session.elsewhere == [] && session.state.db == was.db && session.state.log == was.log
    }

    /** The session read `db`. */
    predicate Saw(db: Store)
      reads session
    {
      session.tx in session.state.txs && session.state.txs[session.tx].snap == db
    }

    /** Opens a session and reads, for a call whose arguments are known beforehand. */
    method Load(op: Op)
      requires session.Valid() && !op.Reserve?
      modifies session
      ensures session.begun == old(session.begun) + [session.tx]
      ensures session.Valid() && Fresh(op) && old(session.trace) <= session.trace && old(session.now) <= session.now
      ensures old(session.state.log) <= session.state.log
      ensures session.work == session.state.db && session.state.txs[session.tx].start == |session.state.log|
      ensures old(session.elsewhere) == [] ==> Undisturbed(old(session.state))
    {
      session.Await();
      session.Read([op]);
    }

    /** An exception leaves the session before anything was sent; `session_scope` rolls it back. */
    method Raise(op: Op, error: Error)
      requires session.Valid() && Fresh(op) && Apply(session.work, op) == Raised(error)
      modifies session`state, session`trace
      ensures session.Valid() && session.state.log == old(session.state.log)
      ensures session.state.db == old(session.state.db)
      ensures old(session.trace) <= session.trace && Refused(op, error)
      ensures session.state.ended[session.tx].start == old(session.state.txs[session.tx].start)
    {
      session.Take(Step.Flush(session.tx));
      FailedAt(session.trace, session.tx);
    }

    /** Ends a call that found nothing to change. */
    method Skip(op: Op)
      requires session.Valid() && Fresh(op) && Apply(session.work, op) == Unchanged
      modifies session`state, session`trace
      ensures session.Valid() && Ready(op) && session.state.log == old(session.state.log)
      ensures session.state.db == old(session.state.db)
      ensures session.state.txs[session.tx].snap == old(session.state.txs[session.tx].snap)
      ensures session.state.txs[session.tx].start == old(session.state.txs[session.tx].start)
      ensures old(session.trace) <= session.trace && session.work == old(session.work)
    {
      session.Take(Step.Flush(session.tx));
    }

    /** Assigns to the mapped objects, as in `after`, and flushes. */
    method Change(op: Op, e: EventId, after: Store, ifMoved: Error) returns (r: Result<(), Error>)
      requires session.Valid() && Fresh(op) && Assign(session.work, op) == Wrote(after) && Target(session.work, op) == e
      modifies session`state, session`trace, session`now, session`elsewhere, session`work
      ensures session.Valid() && session.tx == old(session.tx) && old(session.now) <= session.now
      ensures old(session.state.log) <= session.state.log && old(session.trace) <= session.trace
      ensures r.Success? ==> Ready(op) && Saw(old(session.work)) && session.work == Next(old(session.work), op)
                             && session.state.txs[session.tx].done == [op]
                             && session.state.txs[session.tx].start == old(session.state.txs[session.tx].start)
      ensures r.Failure? ==> (
        r.error == ifMoved && session.tx in session.state.ended &&
        session.state.ended[session.tx] == Lost(e, old(session.state.txs[session.tx].start), |session.state.log|))
      ensures old(session.elsewhere) == [] && old(session.work) == old(session.state.db) ==>
                r.Success? && Undisturbed(old(session.state))
    {
      session.work := after;
      var flushed := session.Flush(e);
      r := if flushed then Success(()) else Failure(ifMoved);
    }

    /** Opens a session and reads, for a reservation whose new id is chosen now. */
    method LoadReserve(event: EventId, order: OrderId, quantity: int, ttl: nat) returns (op: Op)
      requires session.Valid()
      modifies session
      ensures session.begun == old(session.begun) + [session.tx]
      ensures session.Valid() && Fresh(op) && old(session.trace) <= session.trace && old(session.now) <= session.now
      ensures old(session.state.log) <= session.state.log && session.tx !in old(session.state.ended)
      ensures session.work == session.state.db && session.state.txs[session.tx].start == |session.state.log|
      ensures op == Op.Reserve(event, session.tx, order, quantity, session.now + ttl)
      ensures session.tx !in session.work.holds
      ensures old(session.elsewhere) == [] ==> Undisturbed(old(session.state)) && session.now == old(session.now)
    {
      NumbersNotReused(session.trace);
      session.Await();
      IdsBelowNext(session.trace);
      op := Op.Reserve(event, session.state.next, order, quantity, session.now + ttl);
      session.Read([op]);
    }

    /** What a reservation call alone answers. */
    function Answer(db: Store, event: EventId, quantity: int, id: HoldId): Result<HoldId, Error> {
      if event !in db.rows then Failure(NotFound)
      else if db.rows[event].Available() < quantity then Failure(CapacityExceeded)
      else Success(id)
    }

    /** One attempt of the retry loop: read, check, add the seats and the reservation, flush. */
    method TryReserve(event: EventId, order: OrderId, quantity: int, ttl: nat) returns (r: Result<HoldId, Error>,
                      op: Op)
      requires session.Valid() && quantity > 0
      modifies session
      ensures session.begun == old(session.begun) + [session.tx]
      ensures session.Valid() && old(session.state.log) <= session.state.log && old(session.now) <= session.now
      ensures old(session.trace) <= session.trace && session.tx !in old(session.state.ended)
      ensures op.Reserve? && op == Op.Reserve(event, session.tx, order, quantity, op.expiresAt)
              && old(session.now) + ttl <= op.expiresAt <= session.now + ttl
      ensures r.Success? ==> r.value == session.tx && Ready(op) && session.state.txs[session.tx].done == [op]
      ensures r.Success? ==> session.state.txs[session.tx].start >= |old(session.state.log)|
      ensures r.Success? ==> (
        && session.tx in session.work.holds
        && session.work.holds[session.tx] == Hold(event, order, quantity, Pending, op.expiresAt))
      ensures r.Failure? ==> r.error in {NotFound, CapacityExceeded, Stale}
      ensures r == Failure(Stale) ==>
                session.tx in session.state.ended && session.state.ended[session.tx].Lost?
                && session.state.ended[session.tx].event == event
                && |old(session.state.log)| <= session.state.ended[session.tx].start
                && session.state.ended[session.tx].seen == |session.state.log|
      ensures r.Failure? && r.error != Stale ==>
                Refused(op, r.error) && session.state.ended[session.tx].start >= |old(session.state.log)|
      ensures old(session.elsewhere) == [] ==> (
        && Undisturbed(old(session.state)) && r == Answer(old(session.state.db), event, quantity, session.tx)
        && op.expiresAt == old(session.now) + ttl && (r.Success? ==> Saw(old(session.state.db))))
    {
      op := LoadReserve(event, order, quantity, ttl);
      var work := session.work;
      if event !in work.rows {
        Raise(op, NotFound);
        return Failure(NotFound), op;
      }
      var row := work.rows[event];
      if row.Available() < quantity {
        Raise(op, CapacityExceeded);
        return Failure(CapacityExceeded), op;
      }
      row := row.(reserved := row.reserved + quantity);
      var hold := Hold(event, order, quantity, Pending, op.expiresAt);
      var sent := Change(op, event, Store(work.rows[event := row], work.holds[op.id := hold]), Stale);
      r := if sent.Success? then Success(op.id) else Failure(Stale);
    }

    /** Books `quantity` seats against what is available, retrying from a fresh read whenever another
      * session's commit moved the row first. At most `maxRetries` sessions are opened. `lost` are the
      * attempts lost to a stale row, one after the other; `winners[i]` committed a write of this very row
      * between the read and the flush of `lost[i]`. All these are different transactions, so a conflict
      * means that at least `maxRetries` others made progress during the call. */
    method Reserve(event: EventId, order: OrderId, quantity: int, ttl: nat, maxRetries: int)
      returns (r: Result<HoldId, Error>, ghost op: Op, ghost lost: seq<TxId>, ghost winners: seq<TxId>)
      requires session.Valid()
      modifies session
      ensures session.begun == old(session.begun) + lost +
                                (if r.Success? || r.error in {NotFound, CapacityExceeded} then [session.tx] else [])
      ensures session.Valid() && old(session.state.log) <= session.state.log && old(session.trace) <= session.trace
      ensures old(session.now) <= session.now
      ensures Overtaken(session.state, event, lost, winners, |old(session.state.log)|)
      ensures forall i :: 0 <= i < |lost| ==>
          lost[i] !in old(session.state.ended) && winners[i] !in old(session.state.ended)
      ensures r == Failure(Conflict) ==> |lost| == if maxRetries <= 0 then 0 else maxRetries
      ensures r == Failure(InvalidQuantity) ==> session.state == old(session.state) && lost == []
      ensures r.Success? || r.error in {NotFound, CapacityExceeded} ==> |lost| < maxRetries && session.tx !in lost
      ensures quantity <= 0 <==> r == Failure(InvalidQuantity)
      ensures op.Reserve? && op == Op.Reserve(event, op.id, order, quantity, op.expiresAt)
              && old(session.now) + ttl <= op.expiresAt <= session.now + ttl
      ensures r.Success? || r.error in {NotFound, CapacityExceeded} ==> op.id == session.tx
      ensures r.Success? ==> r.value == session.tx && Ready(op) && session.state.txs[session.tx].done == [op]
      ensures r.Success? ==> session.state.txs[session.tx].start >= |old(session.state.log)|
      ensures r.Success? ==> (
        && session.tx in session.work.holds
        && session.work.holds[session.tx] == Hold(event, order, quantity, Pending, op.expiresAt))
      ensures r.Failure? ==> r.error in {InvalidQuantity, NotFound, CapacityExceeded, Conflict}
      ensures r == Failure(NotFound) || r == Failure(CapacityExceeded) ==>
                Refused(op, r.error) && session.state.ended[session.tx].start >= |old(session.state.log)|
      ensures old(session.elsewhere) == [] && quantity > 0 && maxRetries > 0 ==> (
        && Undisturbed(old(session.state)) && lost == []
          && r == Answer(old(session.state.db), event, quantity, session.tx)
        && op.expiresAt == old(session.now) + ttl && (r.Success? ==> Saw(old(session.state.db))))
    {
      op, lost, winners := Op.Reserve(event, session.tx, order, quantity, session.now + ttl), [], [];
      if quantity <= 0 { return Failure(InvalidQuantity), op, lost, winners; }
      var attempt := 0;
      while attempt < maxRetries
        invariant session.Valid() && old(session.state.log) <= session.state.log && old(session.now) <= session.now
        invariant 0 <= attempt && (attempt <= maxRetries || attempt == 0)
        invariant old(session.trace) <= session.trace && attempt == |lost|
        invariant session.begun == old(session.begun) + lost
        invariant op.Reserve? && op == Op.Reserve(event, op.id, order, quantity, op.expiresAt)
                  && old(session.now) + ttl <= op.expiresAt <= session.now + ttl
        invariant Overtaken(session.state, event, lost, winners, |old(session.state.log)|)
        invariant forall i :: 0 <= i < |lost| ==>
            lost[i] !in old(session.state.ended) && winners[i] !in old(session.state.ended)
        invariant old(session.elsewhere) == [] ==> attempt == 0 && session.state == old(session.state)
                                                   && session.elsewhere == [] && session.now == old(session.now)
      {
        ghost var before := session.trace;
        r, op := TryReserve(event, order, quantity, ttl);
        OvertakenKept(before, session.trace, event, lost, winners, |old(session.state.log)|);
        if r != Failure(Stale) { return; }
        HistoryGrows(old(session.trace), before);
        ghost var winner := OvertakenMore(before, session.trace, event, lost, winners, |old(session.state.log)|,
              session.tx);
        lost, winners := lost + [session.tx], winners + [winner];
        attempt := attempt + 1;
      }
      return Failure(Conflict), op, lost, winners;
    }

    /** PENDING to CONFIRMED, moving the seats between the counters; silently nothing otherwise. */
    method Confirm(id: HoldId) returns (r: Result<(), Error>)
      requires session.Valid()
      modifies session
      ensures session.begun == old(session.begun) + [session.tx]
      ensures session.Valid() && old(session.state.log) <= session.state.log && old(session.trace) <= session.trace
      ensures Settled(Op.Confirm(id), r, Stale, |old(session.state.log)|)
      ensures r.Failure? ==> r.error in {NotFound, Stale}
      ensures r.Success? ==> id in session.work.holds && session.work.holds[id].status != Pending
      ensures old(session.elsewhere) == [] ==> (
        && Undisturbed(old(session.state)) && (r.Success? <==> id in old(session.state.db.holds)) && r != Failure(Stale)
        && (r.Success? ==> Saw(old(session.state.db))))
    {
      var op := Op.Confirm(id);
      Load(op);
      var work := session.work;
      if id !in work.holds {
        Raise(op, NotFound);
        return Failure(NotFound);
      }
      var hold := work.holds[id];
      if hold.status != Pending {
        Skip(op);
        return Success(());
      }
      var rows := work.rows;
      if hold.event in rows {
        var row := rows[hold.event];
        row := row.(reserved := row.reserved - hold.quantity);
        row := row.(confirmed := row.confirmed + hold.quantity);
        rows := rows[hold.event := row];
      }
      r := Change(op, hold.event, Store(rows, work.holds[id := hold.(status := Confirmed)]), Stale);
    }

    /** Gives a live reservation's seats back; RELEASED and EXPIRED ones are left alone. The reservation
      * is taken from the session's identity map, so the sweep can call this many times in one session. */
    method ReleaseLoaded(id: HoldId, expired: bool) returns (r: Result<(), Error>)
      requires session.Valid() && session.tx in session.state.txs && session.Open(session.state.txs[session.tx].todo)
      requires session.state.txs[session.tx].todo != []
      requires session.state.txs[session.tx].todo[0] == Op.Release(id, expired)
      modifies session`state, session`trace, session`now, session`elsewhere, session`work
      ensures session.Valid() && session.tx == old(session.tx) && old(session.state.log) <= session.state.log
      ensures old(session.trace) <= session.trace && old(session.now) <= session.now
      ensures r.Success? ==> (
        && session.Open(old(session.state.txs[session.tx].todo)[1..])
        && Apply(old(session.work), Op.Release(id, expired)) != Raised(NotFound)
        && session.state.txs[session.tx] == Advanced(old(session.state.txs[session.tx])))
      ensures r.Failure? ==> (
        && session.tx in session.state.ended
        && match session.state.ended[session.tx]
           case Failed(op, error, start, done) =>
             r.error == error == NotFound && op == Op.Release(id, expired)
               && start == old(session.state.txs[session.tx].start)
             && done == old(session.state.txs[session.tx].done)
           case Lost(_, start, _) => r.error == Stale && start == old(session.state.txs[session.tx].start)
           case _ => false)
      ensures r == Failure(NotFound) <==> id !in old(session.work).holds
      ensures (id in old(session.work.holds)
          && old(session.work.holds[id].event) in old(session.state.txs[session.tx].touched))
              ==> r.Success?
      ensures old(session.elsewhere) == [] ==> (
        && session.elsewhere == [] && session.now == old(session.now)
        && session.state.db == old(session.state.db) && session.state.log == old(session.state.log)
        && ((id in old(session.work.holds)
              && Unmoved(old(session.state.db), old(session.work), old(session.work.holds[id].event)))
              ==> r.Success?))
    {
      if id !in session.work.holds {
        session.Take(Step.Flush(session.tx));
        return Failure(NotFound);
      }
      var hold := session.work.holds[id];
      if hold.status != Pending && hold.status != Confirmed {
        session.Take(Step.Flush(session.tx));
        return Success(());
      }
      r := GiveBack(id, hold, expired);
    }

    /** The seats of a live reservation go back to its event, and it becomes EXPIRED or RELEASED. */
    method GiveBack(id: HoldId, hold: Hold, expired: bool) returns (r: Result<(), Error>)
      requires session.Valid() && session.tx in session.state.txs && session.Open(session.state.txs[session.tx].todo)
      requires session.state.txs[session.tx].todo != []
      requires session.state.txs[session.tx].todo[0] == Op.Release(id, expired)
      requires id in session.work.holds && hold == session.work.holds[id] && !hold.status.Dead()
      modifies session`state, session`trace, session`now, session`elsewhere, session`work
      ensures session.Valid() && session.tx == old(session.tx) && old(session.state.log) <= session.state.log
      ensures old(session.trace) <= session.trace && old(session.now) <= session.now
      ensures r.Success? ==> session.Open(old(session.state.txs[session.tx].todo)[1..])
                             && session.state.txs[session.tx] == Flushed(old(session.state.txs[session.tx]))
      ensures r.Failure? ==>
          r.error == Stale && session.tx in session.state.ended && session.state.ended[session.tx].Lost?
          && session.state.ended[session.tx].start == old(session.state.txs[session.tx].start)
      ensures hold.event in old(session.state.txs[session.tx].touched) ==> r.Success?
      ensures old(session.elsewhere) == [] ==>
                Undisturbed(old(session.state)) && session.now == old(session.now)
                && (Unmoved(old(session.state.db), old(session.work), hold.event) ==> r.Success?)
    {
      var work := session.work;
      var rows := work.rows;
      if hold.event in rows {
        var row := rows[hold.event];
        if hold.status == Pending {
          row := row.(reserved := row.reserved - hold.quantity);
        } else {
          row := row.(confirmed := row.confirmed - hold.quantity);
        }
        rows := rows[hold.event := row];
      }
      var after := Store(rows, work.holds[id := hold.(status := if expired then Expired else Released)]);
      assert Assign(work, Op.Release(id, expired)) == Wrote(after);
      session.work := after;
      var flushed := session.Flush(hold.event);
      r := if flushed then Success(()) else Failure(Stale);
    }

    method Release(id: HoldId, expired: bool) returns (r: Result<(), Error>)
      requires session.Valid()
      modifies session
      ensures session.begun == old(session.begun) + [session.tx]
      ensures session.Valid() && old(session.state.log) <= session.state.log && old(session.trace) <= session.trace
      ensures Settled(Op.Release(id, expired), r, Stale, |old(session.state.log)|)
      ensures r.Failure? ==> r.error in {NotFound, Stale}
      ensures r.Success? ==> id in session.work.holds && session.work.holds[id].status.Dead()
      ensures old(session.elsewhere) == [] ==> (
        && Undisturbed(old(session.state)) && (r.Success? <==> id in old(session.state.db.holds)) && r != Failure(Stale)
        && (r.Success? ==> Saw(old(session.state.db))))
    {
      Load(Op.Release(id, expired));
      r := ReleaseLoaded(id, expired);
      if r == Failure(NotFound) { FailedAt(session.trace, session.tx); }
    }

    /** Sets the capacity; writing the value already there emits no UPDATE and moves no version. */
    method AdjustCapacity(event: EventId, capacity: int) returns (r: Result<(), Error>)
      requires session.Valid()
      modifies session
      ensures session.begun == old(session.begun) + [session.tx]
      ensures session.Valid() && old(session.state.log) <= session.state.log && old(session.trace) <= session.trace
      ensures Settled(Op.Adjust(event, capacity), r, Stale, |old(session.state.log)|)
      ensures r.Failure? ==> r.error in {NotFound, Stale}
      ensures r.Success? ==> event in session.work.rows && session.work.rows[event].capacity == capacity
      ensures old(session.elsewhere) == [] ==> (
        && Undisturbed(old(session.state)) && (r.Success? <==>
          event in old(session.state.db.rows)) && r != Failure(Stale)
        && (r.Success? ==> Saw(old(session.state.db))))
    {
      var op := Op.Adjust(event, capacity);
      Load(op);
      var work := session.work;
      if event !in work.rows {
        Raise(op, NotFound);
        return Failure(NotFound);
      }
      var row := work.rows[event];
      if row.capacity == capacity {
        Skip(op);
        return Success(());
      }
      r := Change(op, event, work.(rows := work.rows[event := row.(capacity := capacity)]), Stale);
    }

    /** Inserts the event's row unless it exists. Losing the insert race is a key violation. */
    method InitializeInventory(event: EventId, capacity: int) returns (r: Result<(), Error>)
      requires session.Valid()
      modifies session
      ensures session.begun == old(session.begun) + [session.tx]
      ensures session.Valid() && old(session.state.log) <= session.state.log && old(session.trace) <= session.trace
      ensures Settled(Op.Initialize(event, capacity), r, DuplicateKey, |old(session.state.log)|)
      ensures r.Failure? ==> r.error == DuplicateKey
      ensures r.Success? ==> event in session.work.rows
      ensures old(session.elsewhere) == [] ==>
          Undisturbed(old(session.state)) && r.Success? && Saw(old(session.state.db))
    {
      var op := Op.Initialize(event, capacity);
      Load(op);
      var work := session.work;
      if event in work.rows {
        Skip(op);
        return Success(());
      }
      r := Change(op, event, work.(rows := work.rows[event := Row(capacity, 0, 0, 0)]), DuplicateKey);
    }
  }

  /** The expiry query on a snapshot: pending reservations past their time, in whatever order. */
  method FindExpiredPending(db: Store, now: int, limit: nat) returns (page: seq<HoldId>)
    ensures Settlement.IsPage(db, now, limit, page)
    ensures forall i :: 0 <= i < |page| ==>
              page[i] in db.holds && db.holds[page[i]].status == Pending && db.holds[page[i]].expiresAt < now
    ensures |page| < limit ==>
              forall id :: id in db.holds && db.holds[id].status == Pending && db.holds[id].expiresAt < now ==>
                id in page
  {
    var found := set id | id in db.holds && db.holds[id].status == Pending && db.holds[id].expiresAt < now;
    assert found == Settlement.ExpirableIds(db, now);
    page := [];
    var left := found;
    while |page| < limit && left != {}
      invariant |page| <= limit && |page| + |left| == |found| && left <= found
      invariant forall i :: 0 <= i < |page| ==> page[i] in found && page[i] !in left
      invariant forall id :: id in found ==> id in left || id in page
      invariant Settlement.Distinct(page)
    {
      var id :| id in left;
      page, left := page + [id], left - {id};
    }
  }

  /** A transaction that failed on its first call read a committed store on which the call raises. */
  lemma FailedAt(steps: seq<Step>, t: TxId)
    requires t in Run(START, steps).ended && Run(START, steps).ended[t].Failed?
    ensures var s := Run(START, steps);
            var how := s.ended[t];
            how.start <= |s.log| && Apply(ReplayFrom(Replay(s.log[..how.start]), how.done), how.op) == Raised(how.error)
  {
    Serialisable(steps);
    var s := Run(START, steps);
    assert EndOk(s.log, t, s.ended[t]);
  }

  lemma IdsBelowNext(steps: seq<Step>)
    ensures Run(START, steps).next !in Run(START, steps).db.holds
  {
    Serialisable(steps);
  }
}
