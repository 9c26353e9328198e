/** One database session of the inventory service, written as the source runs it: between any two
  * awaits the other sessions take whatever steps they like. `trace` records the whole run, so every
  * theorem about runs of `Engine` applies to every state these methods pass through. */
module Session {
  import opened Inventory
  import opened Engine
  import opened Serialisability
  import opened EngineTheorems
  import opened Apart

  /** What happens elsewhere during one await. */
  datatype Elsewhere = Elsewhere(steps: seq<Step>, elapsed: nat)

  /** Transaction `mine` and its locks are in `s'` as they were in `s`. */
  predicate Same(s: State, s': State, mine: TxId) {
    && (mine in s'.txs <==> mine in s.txs) && (mine in s.txs ==> s'.txs[mine] == s.txs[mine])
    && (forall e :: e in s.locks && s.locks[e] == mine ==> e in s'.locks && s'.locks[e] == mine)
    && (mine in s.ended ==> mine in s'.ended && s'.ended[mine] == s.ended[mine])
  }

  lemma EndOther(s: State, t: TxId, how: Ending, mine: TxId)
    requires t != mine
    ensures Same(s, End(s, t, how), mine)
  {
  }

  /** Another session's step leaves this transaction and its locks alone. */
  lemma ForeignStep(s: State, step: Step, mine: TxId)
    requires (step.Begin? || step.t != mine) && mine < s.next
    ensures Same(s, Exec(s, step), mine)
  {
    match step
    case Begin(_) =>
    case Flush(t) => if t in s.txs && s.txs[t].todo != [] { ForeignFlush(s, t, mine); }
    case Commit(t) =>
      if t in s.txs && s.txs[t].todo == [] {
        EndOther(s.(db := Merge(s.db, s.txs[t]), log := s.log + s.txs[t].done), t,
                 Committed(s.txs[t].done, s.txs[t].start, |s.log|), mine);
      }
    case Rollback(t) => EndOther(s, t, Abandoned, mine);
  }

  lemma ForeignFlush(s: State, t: TxId, mine: TxId)
    requires t in s.txs && s.txs[t].todo != [] && t != mine
    ensures Same(s, Exec(s, Flush(t)), mine)
  {
    var x := s.txs[t];
    FlushCases(s, t);
    match Apply(x.work, x.todo[0])
    case Raised(error) => EndOther(s, t, Failed(x.todo[0], error, x.start, x.done), mine);
    case Unchanged =>
    case Wrote(_) => EndOther(s, t, Lost(Target(x.work, x.todo[0]), x.start, |s.log|), mine);
  }

  class Session {
    var state: State                // the database, shared with every other session
    var elsewhere: seq<Elsewhere>   // what the rest of the system does at this session's awaits, in turn
    var now: int                    // wall clock
    var tx: TxId                    // this session's current transaction
    var work: Store                 // its identity map: what it read, with its own changes
    ghost var trace: seq<Step>      // all steps taken so far, by anyone
    ghost var begun: seq<TxId>     // the transactions this session has begun, in order

    ghost predicate Valid()
      reads this
    {
      state == Run(START, trace)
    }

    /** The transaction is in flight with `todo` still to flush, and `work` is its view. */
    predicate Open(todo: seq<Op>)
      reads this
    {
      tx in state.txs && state.txs[tx].todo == todo && state.txs[tx].work == work
    }

    constructor (database: State, ghost history: seq<Step>, elsewhere: seq<Elsewhere>, now: int)
      requires database == Run(START, history)
      ensures Valid() && state == database && trace == history && begun == []
      ensures this.elsewhere == elsewhere && this.now == now
    {
      state, trace, begun, tx, work := database, history, [], 0, EMPTY;
      this.elsewhere, this.now := elsewhere, now;
    }

    method Take(step: Step)
      requires Valid()
      modifies this`state, this`trace
      ensures Valid() && state == Exec(old(state), step) && trace == old(trace) + [step]
    {
      state := Exec(state, step);
      trace := trace + [step];
      assert trace[..|trace| - 1] == old(trace);
    }

    /** An await: any number of steps by anyone else. */
    method Await()
      requires Valid()
      modifies this`state, this`trace, this`now, this`elsewhere
      ensures Valid() && old(trace) <= trace
      ensures old(state.log) <= state.log && old(now) <= now && old(state.next) <= state.next
      ensures tx in old(state.txs) ==> tx in state.txs && state.txs[tx] == old(state.txs[tx])
      ensures tx in old(state.ended) ==> tx in state.ended && state.ended[tx] == old(state.ended[tx])
      ensures forall e :: e in old(state.locks) && old(state.locks[e]) == tx ==>
          e in state.locks && state.locks[e] == tx
      ensures old(elsewhere) == [] ==> state == old(state) && elsewhere == [] && now == old(now)
    {
      if elsewhere == [] { return; }
      NumbersInUse(trace, tx);
      var steps := elsewhere[0].steps;
      now, elsewhere := now + elsewhere[0].elapsed, elsewhere[1..];
      for i := 0 to |steps|
        invariant Valid() && old(trace) <= trace && old(state.log) <= state.log && old(now) <= now
        invariant old(state.next) <= state.next
        invariant tx in old(state.txs) ==> tx in state.txs && state.txs[tx] == old(state.txs[tx])
        invariant tx in old(state.ended) ==> tx in state.ended && state.ended[tx] == old(state.ended[tx])
        invariant forall e :: e in old(state.locks) && old(state.locks[e]) == tx ==>
            e in state.locks && state.locks[e] == tx
      {
        if steps[i].Begin? || steps[i].t != tx {
          if tx < state.next { ForeignStep(state, steps[i], tx); }
          LogOnlyGrows(state, steps[i]);
          Take(steps[i]);
        }
      }
    }

    /** The session's first read: a snapshot, for the calls it is about to make. */
    method Read(ops: seq<Op>)
      requires Valid() && FreshIds(ops, state.next)
      modifies this`state, this`trace, this`tx, this`work, this`begun
      ensures Valid() && tx == old(state.next) && Open(ops) && trace == old(trace) + [Begin(ops)]
      ensures begun == old(begun) + [tx]
      ensures state == Exec(old(state), Begin(ops)) && work == state.db == old(state.db) && state.log == old(state.log)
    {
      tx, work := state.next, state.db;
      begun := begun + [tx];
      state := Exec(state, Begin(ops));
      trace := trace + [Begin(ops)];
      assert trace[..|trace| - 1] == old(trace);
    }

    /** No other session holds row `e`. */
    predicate Unblocked(e: EventId)
      reads this
    {
      e in state.locks ==> state.locks[e] == tx
    }

    /** Sends the pending UPDATE or INSERT of row `e`: waits until no other session holds the row, then
      * succeeds if and only if the row's version is still the expected one. */
    method Flush(e: EventId) returns (ok: bool)
      requires Valid() && tx in state.txs && state.txs[tx].todo != []
      requires Assign(state.txs[tx].work, state.txs[tx].todo[0]) == Wrote(work)
      requires e == Target(state.txs[tx].work, state.txs[tx].todo[0])
      modifies this`state, this`trace, this`now, this`elsewhere, this`work
      ensures Valid() && old(state.log) <= state.log && old(now) <= now && old(trace) <= trace
      ensures ok ==> Open(old(state.txs[tx].todo)[1..]) &&
                     state.txs[tx] == Flushed(old(state.txs[tx]))
      ensures ok && e !in old(state.txs[tx].touched) ==> VersionAt(state.db, e) == VersionAt(old(state.txs[tx].work), e)
      ensures !ok ==> tx in state.ended && state.ended[tx] == Lost(e, old(state.txs[tx].start), |state.log|)
      ensures old(elsewhere) == [] ==>
          elsewhere == [] && now == old(now) && state.db == old(state.db) && state.log == old(state.log)
      ensures e in old(state.txs[tx].touched) ==> ok
      ensures old(elsewhere) == [] && VersionAt(old(state.db), e) == VersionAt(old(state.txs[tx].work), e) ==> ok
    {
      Await();
      Unblock(e);
      ok := FlushNow(e);
      work := Bump(work, e);
    }

    /** If another session holds the row it finishes first: it had its chance to commit during the await. */
    method Unblock(e: EventId)
      requires Valid() && tx in state.txs
      modifies this`state, this`trace
      ensures Valid() && Unblocked(e) && old(trace) <= trace
      ensures tx in state.txs && state.txs[tx] == old(state.txs[tx])
      ensures state.db == old(state.db) && state.log == old(state.log)
    {
      if e in state.locks && state.locks[e] != tx {
        HolderIsOpen(trace, e);
        Take(Rollback(state.locks[e]));
      }
    }

    /** The statement itself, on a row that nobody else holds. */
    method FlushNow(e: EventId) returns (ok: bool)
      requires Valid() && tx in state.txs && state.txs[tx].todo != [] && Unblocked(e)
      requires Apply(state.txs[tx].work, state.txs[tx].todo[0]).Wrote?
      requires e == Target(state.txs[tx].work, state.txs[tx].todo[0])
      modifies this`state, this`trace
      ensures Valid() && old(trace) <= trace && state.db == old(state.db) && state.log == old(state.log)
      ensures ok <==>
          (e in old(state.txs[tx].touched) || VersionAt(state.db, e) == VersionAt(old(state.txs[tx].work), e))
      ensures ok ==> tx in state.txs && state.txs[tx] == Flushed(old(state.txs[tx]))
      ensures !ok ==> tx in state.ended && state.ended[tx] == Lost(e, old(state.txs[tx].start), |state.log|)
    {
      OwnLock(trace, tx, e);
      FlushCases(state, tx);
      Take(Step.Flush(tx));
      ok := tx in state.txs;
    }
  }

  /** A held row is held by an open session. */
  lemma HolderIsOpen(steps: seq<Step>, e: EventId)
    requires e in Run(START, steps).locks
    ensures Run(START, steps).locks[e] in Run(START, steps).txs
  {
    Serialisable(steps);
  }

  /** A session that holds a row has written it. */
  lemma OwnLock(steps: seq<Step>, t: TxId, e: EventId)
    requires t in Run(START, steps).txs
    ensures var s := Run(START, steps); e in s.locks && s.locks[e] == t ==> e in s.txs[t].touched
  {
    Serialisable(steps);
  }

  lemma NumbersInUse(steps: seq<Step>, t: TxId)
    ensures var s := Run(START, steps);
            && (t in s.txs || t in s.ended ==> t < s.next)
            && forall e :: e in s.locks && s.locks[e] == t ==> t < s.next
  {
    Serialisable(steps);
    var s := Run(START, steps);
    if t in s.txs { assert Private(s.log, s.next, t, s.txs[t]); }
  }

  lemma LogOnlyGrows(s: State, step: Step)
    ensures s.log <= Exec(s, step).log && s.next <= Exec(s, step).next
  {
  }
}
