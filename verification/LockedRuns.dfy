/** What the lease lock adds on top of the version check: when every writer of an event takes its lease
  * and finishes within it, no flush on that event is ever stale. And why that needs every writer: confirm
  * and release take no lease. Nothing in `EngineTheorems` depends on this module. */
module LockedRuns {
  import opened Inventory
  import opened CommitLog
  import opened Engine
  import opened Serialisability
  import opened EngineTheorems
  import opened Apart
  import Lease

  /** Database and lock server together; `holder` is the lease token under which a transaction writes the
    * event in question. */
  datatype World = World(db: State, lease: Lease.Locks, holder: map<TxId, Lease.Token>)

  datatype Move =
    | Enter(token: Lease.Token, key: EventId)    // SET NX PX on any event's key
    | Open(token: Lease.Token, op: Op)           // session_scope inside the critical section of the event
    | Elsewhere(ops: seq<Op>)                    // any session that stays off the event, leased or not
    | Work(step: Step)                           // flush, commit or rollback
    | Exit(token: Lease.Token)                   // the finally block
    | Wait(elapsed: nat)

  /** Only the two operations that take the lease. */
  predicate TakesLease(op: Op) { op.Reserve? || op.Adjust? }

  predicate Busy(w: World, token: Lease.Token) {
    exists t :: t in w.db.txs && t in w.holder && w.holder[t] == token
  }

  /** Time may pass only while every open critical section of the event stays within its lease: this is the
    * hypothesis that each commits before its lease expires. */
  predicate InTime(w: World, d: nat) {
    forall t :: t in w.db.txs && t in w.holder && w.holder[t] in w.lease.inside ==>
      w.lease.now + d <= w.lease.inside[w.holder[t]].until
  }

  /** A client inside the critical section of `e`, within its lease and not busy yet, with a call on `e`. */
  predicate MayOpen(w: World, e: EventId, tok: Lease.Token, op: Op) {
    tok in w.lease.inside && w.lease.inside[tok].key == e && w.lease.now <= w.lease.inside[tok].until
    && TakesLease(op) && op.event == e && !Busy(w, tok) && FreshIds([op], w.db.next)
  }

  /** Runs in which event `e` is written under its lease only; the other events are open to anything. */
  function Exec(w: World, ttl: nat, e: EventId, move: Move): World {
    match move
    case Enter(tok, key) => w.(lease := Lease.Exec(w.lease, ttl, Lease.Try(tok, key)))
    case Open(tok, op) =>
      if MayOpen(w, e, tok, op)
      then w.(db := Engine.Exec(w.db, Begin([op])), holder := w.holder[w.db.next := tok]) else w
    case Elsewhere(ops) => if AvoidsAll(w.db.db, ops, e) then w.(db := Engine.Exec(w.db, Begin(ops))) else w
    case Work(step) => if step.Begin? then w else w.(db := Engine.Exec(w.db, step))
    case Exit(tok) => if Busy(w, tok) then w else w.(lease := Lease.Exec(w.lease, ttl, Lease.Leave(tok)))
    case Wait(d) => if InTime(w, d) then w.(lease := Lease.Exec(w.lease, ttl, Lease.Tick(d))) else w
  }

  function Run(w: World, ttl: nat, e: EventId, moves: seq<Move>): World {
    if moves == [] then w else Exec(Run(w, ttl, e, moves[..|moves| - 1]), ttl, e, moves[|moves| - 1])
  }

  predicate OneCall(x: Tx, e: EventId) {
    && x.touched <= {e}
    && (x.todo == [] || (|x.todo| == 1 && TakesLease(x.todo[0]) && x.todo[0].event == e && x.touched == {}))
  }

  predicate Current(db: Store, x: Tx, e: EventId) {
    VersionAt(x.work, e) == VersionAt(db, e) + (if e in x.touched then 1 else 0)
  }

  /** Within its lease of `e`. */
  predicate Leased(lease: Lease.Locks, tok: Lease.Token, e: EventId) {
    tok in lease.inside && lease.inside[tok].key == e && lease.now <= lease.inside[tok].until
  }

  /** A transaction on `e` is within its lease, has one call, and has read the current row. */
  predicate Sole(w: World, t: TxId, e: EventId)
    requires t in w.db.txs
  {
    && t in w.holder && Leased(w.lease, w.holder[t], e)
    && OneCall(w.db.txs[t], e) && Current(w.db.db, w.db.txs[t], e)
  }

  predicate Away(w: World, t: TxId, e: EventId)
    requires t in w.db.txs
  {
    t !in w.holder && Off(w.db.txs[t], e)
  }

  ghost predicate NoLoss(s: State,
                         e: EventId) { forall t :: t in s.ended && s.ended[t].Lost? ==> s.ended[t].event != e }

  ghost predicate SolesOk(w: World, e: EventId) {
    && (forall t :: t in w.db.txs ==> t < w.db.next && (Sole(w, t, e) || Away(w, t, e)))
    && (forall t :: t in w.holder ==> t < w.db.next)
    && (forall t, u :: t in w.db.txs && u in w.db.txs && t in w.holder && u in w.holder ==>
          (w.holder[t] == w.holder[u] ==> t == u))
  }

  ghost predicate Quiet(w: World, e: EventId) {
    Lease.Inv(w.lease) && SolesOk(w, e) && LocksOk(w.db) && NoLoss(w.db, e)
  }

  /** At most one transaction is on `e`. */
  lemma OnlyOne(w: World, e: EventId, t: TxId, u: TxId)
    requires Lease.Inv(w.lease) && SolesOk(w, e) && t in w.db.txs && u in w.db.txs && t != u && Sole(w, t, e)
    ensures Away(w, u, e)
  {
  }

  /** The lock server moves on without ending the lease of anyone busy on `e`. */
  lemma LeaseKeepsQuiet(w: World, lease: Lease.Locks, e: EventId)
    requires Quiet(w, e) && Lease.Inv(lease)
    requires forall t :: t in w.db.txs && t in w.holder && Leased(w.lease, w.holder[t], e) ==>
        Leased(lease, w.holder[t], e)
    ensures Quiet(w.(lease := lease), e)
  {
    var w' := w.(lease := lease);
    forall t | t in w'.db.txs ensures t < w'.db.next && (Sole(w', t, e) || Away(w', t, e)) {
      if Sole(w, t, e) { assert Sole(w', t, e); } else { assert Away(w', t, e); }
    }
  }

  lemma EnterKeepsQuiet(w: World, ttl: nat, tok: Lease.Token, key: EventId, e: EventId)
    requires Quiet(w, e)
    ensures Quiet(Exec(w, ttl, e, Enter(tok, key)), e)
  {
    Lease.ExecKeepsInv(w.lease, ttl, Lease.Try(tok, key));
    LeaseKeepsQuiet(w, Lease.Exec(w.lease, ttl, Lease.Try(tok, key)), e);
  }

  lemma ExitKeepsQuiet(w: World, ttl: nat, tok: Lease.Token, e: EventId)
    requires Quiet(w, e)
    ensures Quiet(Exec(w, ttl, e, Exit(tok)), e)
  {
    if !Busy(w, tok) {
      Lease.ExecKeepsInv(w.lease, ttl, Lease.Leave(tok));
      forall t | t in w.db.txs && t in w.holder ensures w.holder[t] != tok {}
      LeaseKeepsQuiet(w, Lease.Exec(w.lease, ttl, Lease.Leave(tok)), e);
    }
  }

  lemma WaitKeepsQuiet(w: World, ttl: nat, d: nat, e: EventId)
    requires Quiet(w, e)
    ensures Quiet(Exec(w, ttl, e, Wait(d)), e)
  {
    if InTime(w, d) {
      Lease.ExecKeepsInv(w.lease, ttl, Lease.Tick(d));
      LeaseKeepsQuiet(w, Lease.Exec(w.lease, ttl, Lease.Tick(d)), e);
    }
  }

  /** The database moves on: what `e`'s sessions rely on is as before, and one session `t` may be new, changed
    * or gone. */
  lemma DbKeepsSoles(w: World, db: State, holder: map<TxId, Lease.Token>, t: TxId, e: EventId)
    requires SolesOk(w, e) && w.db.next <= db.next && VersionAt(db.db, e) == VersionAt(w.db.db, e)
    requires forall u :: u in db.txs && u != t ==> u in w.db.txs && db.txs[u] == w.db.txs[u]
    requires forall u :: u != t ==> (u in holder <==> u in w.holder) && (u in holder ==> holder[u] == w.holder[u])
    requires t in holder ==> t < db.next
    requires var w' := World(db, w.lease, holder); t in db.txs ==> t < db.next && (Sole(w', t, e) || Away(w', t, e))
    requires t in db.txs && t in holder ==>
        forall u :: u in w.db.txs && u in w.holder && u != t ==> w.holder[u] != holder[t]
    ensures SolesOk(World(db, w.lease, holder), e)
  {
    var w' := World(db, w.lease, holder);
    forall u | u in w'.db.txs ensures u < w'.db.next && (Sole(w', u, e) || Away(w', u, e)) {
      if u != t { assert Sole(w, u, e) || Away(w, u, e); }
    }
  }

  lemma OpenKeepsQuiet(w: World, ttl: nat, tok: Lease.Token, op: Op, e: EventId)
    requires Quiet(w, e)
    ensures Quiet(Exec(w, ttl, e, Open(tok, op)), e)
  {
    if MayOpen(w, e, tok, op) {
      var w' := Exec(w, ttl, e, Open(tok, op));
      forall u | u in w.db.txs && u in w.holder ensures w.holder[u] != tok {}
      DbKeepsSoles(w, w'.db, w'.holder, w.db.next, e);
    }
  }

  lemma ElsewhereKeepsQuiet(w: World, ttl: nat, ops: seq<Op>, e: EventId)
    requires Quiet(w, e)
    ensures Quiet(Exec(w, ttl, e, Elsewhere(ops)), e)
  {
    if AvoidsAll(w.db.db, ops, e) {
      var w' := Exec(w, ttl, e, Elsewhere(ops));
      assert w.db.next !in w.holder;
      DbKeepsSoles(w, w'.db, w.holder, w.db.next, e);
    }
  }

  /** One session's record moves on, perhaps with a row newly locked. */
  lemma MoveKeepsQuiet(w: World, t: TxId, x: Tx, locks: map<EventId, TxId>, f: EventId, e: EventId)
    requires Quiet(w, e) && t in w.db.txs && w.db.txs[t].touched <= x.touched
    requires locks == w.db.locks || (locks == w.db.locks[f := t] && f in x.touched)
    requires if Sole(w, t, e) then OneCall(x, e) && Current(w.db.db, x, e) else Off(x, e)
    ensures Quiet(w.(db := w.db.(txs := w.db.txs[t := x], locks := locks)), e)
  {
    var db := w.db.(txs := w.db.txs[t := x], locks := locks);
    DbKeepsSoles(w, db, w.holder, t, e);
    MoveLocksOk(w.db, t, x, locks, f);
    assert NoLoss(db, e);
  }

  lemma MoveLocksOk(s: State, t: TxId, x: Tx, locks: map<EventId, TxId>, f: EventId)
    requires LocksOk(s) && t in s.txs && s.txs[t].touched <= x.touched
    requires locks == s.locks || (locks == s.locks[f := t] && f in x.touched)
    ensures LocksOk(s.(txs := s.txs[t := x], locks := locks))
  {
  }

  lemma EndKeepsQuiet(w: World, t: TxId, how: Ending, e: EventId)
    requires Quiet(w, e) && t in w.db.txs && (how.Lost? ==> how.event != e)
    ensures Quiet(w.(db := End(w.db, t, how)), e)
  {
    DbKeepsSoles(w, End(w.db, t, how), w.holder, t, e);
    EndLocksOk(w.db, t, how);
    assert NoLoss(End(w.db, t, how), e);
  }

  /** The heart of it: a leased call that writes finds its row free and its version where it was read. */
  lemma SoleFlush(w: World, t: TxId, e: EventId)
    requires Quiet(w, e) && t in w.db.txs && Sole(w, t, e) && w.db.txs[t].todo != []
    requires Apply(w.db.txs[t].work, w.db.txs[t].todo[0]).Wrote?
    ensures var x := w.db.txs[t];
            && Target(x.work, x.todo[0]) == e && e !in x.touched && e !in w.db.locks
            && VersionAt(w.db.db, e) == VersionAt(x.work, e)
  {
    forall u | u in w.db.txs && u != t ensures e !in w.db.txs[u].touched { OnlyOne(w, e, t, u); }
  }

  lemma SoleFlushed(db: Store, x: Tx, e: EventId)
    requires OneCall(x, e) && x.todo != [] && Apply(x.work, x.todo[0]).Wrote? && Target(x.work, x.todo[0]) == e
    requires VersionAt(db, e) == VersionAt(x.work, e)
    ensures OneCall(Flushed(x), e) && Current(db, Flushed(x), e)
  {
    assert x.todo[1..] == [];
  }

  lemma FlushKeepsQuiet(w: World, ttl: nat, t: TxId, e: EventId)
    requires Quiet(w, e)
    ensures Quiet(Exec(w, ttl, e, Work(Flush(t))), e)
  {
    if t in w.db.txs && w.db.txs[t].todo != [] {
      FlushCases(w.db, t);
      if Sole(w, t, e) { SoleFlushKeepsQuiet(w, ttl, t, e); } else { AwayFlushKeepsQuiet(w, ttl, t, e); }
    }
  }

  lemma SoleFlushKeepsQuiet(w: World, ttl: nat, t: TxId, e: EventId)
    requires Quiet(w, e) && t in w.db.txs && w.db.txs[t].todo != [] && Sole(w, t, e)
    ensures Quiet(Exec(w, ttl, e, Work(Flush(t))), e)
  {
    var x := w.db.txs[t];
    FlushCases(w.db, t);
    match Apply(x.work, x.todo[0])
    case Raised(error) => EndKeepsQuiet(w, t, Failed(x.todo[0], error, x.start, x.done), e);
    case Unchanged => MoveKeepsQuiet(w, t, x.(todo := x.todo[1..]), w.db.locks, e, e);
    case Wrote(_) =>
      SoleFlush(w, t, e);
      SoleFlushed(w.db.db, x, e);
      MoveKeepsQuiet(w, t, Flushed(x), w.db.locks[e := t], e, e);
  }

  lemma AwayFlushKeepsQuiet(w: World, ttl: nat, t: TxId, e: EventId)
    requires Quiet(w, e) && t in w.db.txs && w.db.txs[t].todo != [] && !Sole(w, t, e)
    ensures Quiet(Exec(w, ttl, e, Work(Flush(t))), e)
  {
    var x := w.db.txs[t];
    assert Away(w, t, e);
    FlushCases(w.db, t);
    OffStep(x, e);
    match Apply(x.work, x.todo[0])
    case Raised(error) => EndKeepsQuiet(w, t, Failed(x.todo[0], error, x.start, x.done), e);
    case Unchanged => MoveKeepsQuiet(w, t, x.(todo := x.todo[1..]), w.db.locks, e, e);
    case Wrote(_) => AwayWrite(w, ttl, t, Target(x.work, x.todo[0]), e);
  }

  lemma AwayWrite(w: World, ttl: nat, t: TxId, f: EventId, e: EventId)
    requires Quiet(w, e) && t in w.db.txs && w.db.txs[t].todo != [] && !Sole(w, t, e) && f != e
    requires Apply(w.db.txs[t].work, w.db.txs[t].todo[0]).Wrote? && f == Target(w.db.txs[t].work, w.db.txs[t].todo[0])
    requires Off(Flushed(w.db.txs[t]), e)
    ensures Quiet(Exec(w, ttl, e, Work(Flush(t))), e)
  {
    var x := w.db.txs[t];
    FlushCases(w.db, t);
    if f !in x.touched && f !in w.db.locks && VersionAt(w.db.db, f) != VersionAt(x.work, f) {
      EndKeepsQuiet(w, t, Lost(f, x.start, |w.db.log|), e);
    } else if f !in x.touched && f !in w.db.locks {
      MoveKeepsQuiet(w, t, Flushed(x), w.db.locks[f := t], f, e);
    } else if f in x.touched {
      MoveKeepsQuiet(w, t, Flushed(x), w.db.locks, f, e);
    }
  }

  lemma MergeElsewhere(db: Store, x: Tx, e: EventId)
    requires e !in x.touched
    ensures VersionAt(Merge(db, x), e) == VersionAt(db, e)
  {
  }

  lemma CommitKeepsQuiet(w: World, ttl: nat, t: TxId, e: EventId)
    requires Quiet(w, e)
    ensures Quiet(Exec(w, ttl, e, Work(Commit(t))), e)
  {
    if t in w.db.txs && w.db.txs[t].todo == [] {
      var db := Exec(w, ttl, e, Work(Commit(t))).db;
      EndLocksOk(Installed(w.db, t), t, db.ended[t]);
      assert NoLoss(db, e);
      if Sole(w, t, e) { SoleCommitted(w, db, t, e); } else {
        MergeElsewhere(w.db.db, w.db.txs[t], e);
        DbKeepsSoles(w, db, w.holder, t, e);
      }
    }
  }

  /** Once the one transaction on `e` is gone, all others are away from it. */
  lemma SoleCommitted(w: World, db: State, t: TxId, e: EventId)
    requires Lease.Inv(w.lease) && SolesOk(w, e) && t in w.db.txs && Sole(w, t, e)
    requires db.txs == w.db.txs - {t} && db.next == w.db.next
    ensures SolesOk(w.(db := db), e)
  {
    var w' := w.(db := db);
    forall u | u in w'.db.txs ensures u < w'.db.next && (Sole(w', u, e) || Away(w', u, e)) {
      OnlyOne(w, e, t, u);
      assert Away(w', u, e);
    }
  }

  lemma {:induction false} RunKeepsQuiet(w: World, ttl: nat, e: EventId, moves: seq<Move>)
    requires Quiet(w, e)
    ensures Quiet(Run(w, ttl, e, moves), e)
  {
    if moves != [] {
      var before := moves[..|moves| - 1];
      RunKeepsQuiet(w, ttl, e, before);
      MoveQuiet(Run(w, ttl, e, before), ttl, e, moves[|moves| - 1]);
    }
  }

  lemma MoveQuiet(w: World, ttl: nat, e: EventId, move: Move)
    requires Quiet(w, e)
    ensures Quiet(Exec(w, ttl, e, move), e)
  {
    match move
    case Enter(tok, key) => EnterKeepsQuiet(w, ttl, tok, key, e);
    case Open(tok, op) => OpenKeepsQuiet(w, ttl, tok, op, e);
    case Elsewhere(ops) => ElsewhereKeepsQuiet(w, ttl, ops, e);
    case Exit(tok) => ExitKeepsQuiet(w, ttl, tok, e);
    case Wait(d) => WaitKeepsQuiet(w, ttl, d, e);
    case Work(step) =>
      match step
      case Begin(_) =>
      case Flush(t) => FlushKeepsQuiet(w, ttl, t, e);
      case Commit(t) => CommitKeepsQuiet(w, ttl, t, e);
      case Rollback(t) => if t in w.db.txs { EndKeepsQuiet(w, t, Abandoned, e); }
  }

  /** A flush that is about to write `e` finds the row its own or free, and its version where it was read. */
  predicate Succeeds(s: State, t: TxId, e: EventId)
    requires t in s.txs
  {
    var x := s.txs[t];
    x.todo != [] && Apply(x.work, x.todo[0]).Wrote? && Target(x.work, x.todo[0]) == e ==>
      e !in s.locks && VersionAt(x.work, e) == VersionAt(s.db, e)
  }

  /** First try succeeds. From any database at rest, if event `e` is written by lease-taking calls only and
    * each of its critical sections ends within its lease, then in no run is any flush on `e` stale or made
    * to wait, whatever goes on on other events, leased or not. */
  lemma FirstTrySucceeds(db: State, now: int, ttl: nat, e: EventId, moves: seq<Move>)
    requires AtRest(db) && NoLoss(db, e)
    ensures var w := Run(World(db, Lease.Locks(now, map[], map[], {}), map[]), ttl, e, moves);
            NoLoss(w.db, e) && forall t :: t in w.db.txs ==> Succeeds(w.db, t, e)
  {
    var w := Run(World(db, Lease.Locks(now, map[], map[], {}), map[]), ttl, e, moves);
    RunKeepsQuiet(World(db, Lease.Locks(now, map[], map[], {}), map[]), ttl, e, moves);
    forall t | t in w.db.txs ensures Succeeds(w.db, t, e) { QuietSucceeds(w, t, e); }
  }

  lemma QuietSucceeds(w: World, t: TxId, e: EventId)
    requires Quiet(w, e) && t in w.db.txs
    ensures Succeeds(w.db, t, e)
  {
    var x := w.db.txs[t];
    if x.todo != [] && Apply(x.work, x.todo[0]).Wrote? {
      if Sole(w, t, e) { SoleFlush(w, t, e); } else { OffStep(x, e); }
    }
  }

  /** The hypothesis on callers is needed. A confirm (or release) takes no lease: if one of them has
    * flushed on event `e` while a leased reservation that read earlier has yet to flush, then once the
    * confirm commits the reservation's flush is stale, however well its lease is kept. */
  lemma UnleasedWriterOvertakes(s: State, t: TxId, u: TxId, op: Op)
    requires Inv(s) && t in s.txs && u in s.txs && (op.Confirm? || op.Release?)
    requires s.txs[u].todo == [] && s.txs[u].done == [op]
    requires s.txs[t].todo != [] && s.txs[t].done == [] && s.txs[t].touched == {} && TakesLease(s.txs[t].todo[0])
    requires Apply(s.txs[t].work, s.txs[t].todo[0]).Wrote? && s.txs[u].touched == {s.txs[t].todo[0].event}
    ensures var s' := Engine.Exec(Engine.Exec(s, Commit(u)), Flush(t));
            t in s'.ended && s'.ended[t] == Lost(s.txs[t].todo[0].event, s.txs[t].start, |s.log| + 1)
  {
    RowOvertaken(s, t, u, op, s.txs[t].todo[0].event);
    FlushOvertaken(Engine.Exec(s, Commit(u)), t);
  }

  lemma RowOvertaken(s: State, t: TxId, u: TxId, op: Op, e: EventId)
    requires Inv(s) && t in s.txs && u in s.txs && t != u && s.txs[t].touched == {}
    requires s.txs[u].todo == [] && s.txs[u].done == [op] && s.txs[u].touched == {e}
    ensures var s1 := Engine.Exec(s, Commit(u));
            && t in s1.txs && s1.txs[t] == s.txs[t] && e !in s1.locks && |s1.log| == |s.log| + 1
            && VersionAt(s1.db, e) != VersionAt(s.txs[t].work, e)
  {
    ConfirmMoves(s, u, op, e);
    MatchMeansSame(s, t, e);
    HeldLock(s, u, e);
    CommitFrees(s, u, t, e);
  }

  lemma HeldLock(s: State, u: TxId, e: EventId)
    requires TxsOk(s) && u in s.txs && e in s.txs[u].touched
    ensures e in s.locks && s.locks[e] == u
  {
    assert Held(s.db, s.locks, u, s.txs[u]);
  }

  lemma CommitFrees(s: State, u: TxId, t: TxId, e: EventId)
    requires u in s.txs && s.txs[u].todo == [] && t in s.txs && t != u && e in s.locks && s.locks[e] == u
    ensures var s1 := Engine.Exec(s, Commit(u));
            && t in s1.txs && s1.txs[t] == s.txs[t] && e !in s1.locks
            && s1.db == Merge(s.db, s.txs[u]) && s1.log == s.log + s.txs[u].done
  {
  }

  lemma FlushOvertaken(s: State, t: TxId)
    requires t in s.txs && s.txs[t].todo != [] && Apply(s.txs[t].work, s.txs[t].todo[0]).Wrote?
    requires var e := Target(s.txs[t].work, s.txs[t].todo[0]);
             e !in s.txs[t].touched && e !in s.locks && VersionAt(s.db, e) != VersionAt(s.txs[t].work, e)
    ensures var s' := Engine.Exec(s, Flush(t));
            t in s'.ended && s'.ended[t] == Lost(Target(s.txs[t].work, s.txs[t].todo[0]), s.txs[t].start, |s.log|)
  {
  }

  lemma ConfirmMoves(s: State, u: TxId, op: Op, e: EventId)
    requires Inv(s) && u in s.txs && s.txs[u].done == [op] && s.txs[u].touched == {e}
    ensures VersionAt(Merge(s.db, s.txs[u]), e) == VersionAt(s.db, e) + 1
  {
    var x := s.txs[u];
    assert Private(s.log, s.next, u, x) && Held(s.db, s.locks, u, x);
    MergeIsReplay(s, u);
    assert SameSlice(x.snap, s.db, e);
    assert [op][..0] == [] && ReplayFrom(s.db, [op][..0]) == s.db && ReplayFrom(x.snap, [op][..0]) == x.snap;
    ReplayConsistent(s.log);
    Transfer(x.snap, s.db, x.done, {e}, u);
    WritesOneEvent(s.db, op, e);
    ApplyIsLocal(x.snap, s.db, op);
  }

  // ----- such a state is reached -----

  function Begun(s: State, op: Op): State {
    s.(txs := map[s.next := Tx(|s.log|, s.db, [op], s.db, [], {})], next := s.next + 1)
  }

  function Sent(s: State, op: Op): State
    requires Apply(s.db, op).Wrote?
  {
    var e := Target(s.db, op);
    s.(txs := map[s.next := Tx(|s.log|, s.db, [], Next(s.db, op), [op], {e})],
       locks := map[e := s.next], next := s.next + 1)
  }

  predicate AtRest(s: State) { s.txs == map[] && s.locks == map[] }

  lemma BeginAlone(s: State, op: Op)
    requires AtRest(s) && FreshIds([op], s.next)
    ensures Engine.Exec(s, Begin([op])) == Begun(s, op)
  {
    assert Engine.Exec(s, Begin([op])).txs == Begun(s, op).txs;
  }

  lemma FlushAlone(s: State, op: Op)
    requires AtRest(s) && Apply(s.db, op).Wrote?
    ensures Engine.Exec(Begun(s, op), Flush(s.next)) == Sent(s, op)
  {
    var s1, t, e := Begun(s, op), s.next, Target(s.db, op);
    var x := s1.txs[t];
    assert x.todo[1..] == [] && x.done + [x.todo[0]] == [op] && x.touched + {e} == {e};
    assert Engine.Exec(s1, Flush(t)) == FlushWrite(s1, t, Next(s.db, op), e);
    assert Engine.Exec(s1, Flush(t)).txs == Sent(s, op).txs;
  }

  /** A transaction of one writing call with nobody else in flight is that call. */
  lemma AloneIsAtomic(s: State, op: Op)
    requires Inv(s) && AtRest(s) && Apply(s.db, op).Wrote? && FreshIds([op], s.next)
    ensures var s' := Engine.Exec(Engine.Exec(Engine.Exec(s, Begin([op])), Flush(s.next)), Commit(s.next));
            s' == State(Next(s.db, op), map[], map[], s.log + [op], s.next + 1,
                        s.ended[s.next := Committed([op], |s.log|, |s.log|)])
  {
    BeginAlone(s, op);
    FlushAlone(s, op);
    Serialisability.ExecKeepsInv(s, Begin([op]));
    Serialisability.ExecKeepsInv(Begun(s, op), Flush(s.next));
    CommitAlone(s, op);
  }

  lemma CommitAlone(s: State, op: Op)
    requires AtRest(s) && Apply(s.db, op).Wrote? && Inv(Sent(s, op))
    ensures Engine.Exec(Sent(s, op), Commit(s.next))
            == State(Next(s.db, op), map[], map[], s.log + [op], s.next + 1,
                  s.ended[s.next := Committed([op], |s.log|, |s.log|)])
  {
    var s2 := Sent(s, op);
    MergeIsReplay(s2, s.next);
    assert [op][..0] == [];
    var s3 := Engine.Exec(s2, Commit(s.next));
    assert s3.txs == map[] && s3.locks == map[];
  }

  lemma MoveMore(w: World, ttl: nat, e: EventId, moves: seq<Move>, move: Move)
    ensures Run(w, ttl, e, moves + [move]) == Exec(Run(w, ttl, e, moves), ttl, e, move)
  {
    assert (moves + [move])[..|moves|] == moves;
  }

  /** And it does get done: from any database at rest a client enters, calls, commits and leaves, and its call
    * is the one that was added. */
  lemma LeasedCallGoesThrough(db: State, now: int, ttl: nat, tok: Lease.Token, op: Op) returns (moves: seq<Move>)
    requires Inv(db) && AtRest(db) && TakesLease(op) && Apply(db.db, op).Wrote? && FreshIds([op], db.next)
    ensures var w := Run(World(db, Lease.Locks(now, map[], map[], {}), map[]), ttl, op.event, moves);
            && AtRest(w.db) && w.db.db == Next(db.db, op) && w.db.log == db.log + [op]
            && w.lease == Lease.Locks(now, map[], map[], {tok})
  {
    var w, e, t := World(db, Lease.Locks(now, map[], map[], {}), map[]), op.event, db.next;
    moves := [Enter(tok, e)];
    MoveMore(w, ttl, e, [], Enter(tok, e));
    assert [] + moves == moves;
    var inside := Lease.Locks(now, map[e := Lease.Entry(tok, now + ttl)], map[tok := Lease.Visit(e, now + ttl)], {});
    assert Run(w, ttl, e, moves) == World(db, inside, map[]);
    moves := CallInside(w, ttl, moves, inside, tok, op);
    MoveMore(w, ttl, e, moves, Exit(tok));
    moves := moves + [Exit(tok)];
    assert Lease.Exec(inside, ttl, Lease.Leave(tok)).keys == map[];
    assert Lease.Exec(inside, ttl, Lease.Leave(tok)).inside == map[];
  }

  /** The transaction of a client inside its critical section. */
  lemma CallInside(w: World, ttl: nat, before: seq<Move>, inside: Lease.Locks, tok: Lease.Token, op: Op)
    returns (moves: seq<Move>)
    requires Inv(w.db) && AtRest(w.db) && TakesLease(op) && Apply(w.db.db, op).Wrote? && FreshIds([op], w.db.next)
    requires Run(w, ttl, op.event, before) == World(w.db, inside, map[]) && Leased(inside, tok, op.event)
    ensures var t := w.db.next;
            Run(w, ttl, op.event, moves)
              == World(State(Next(w.db.db, op), map[], map[], w.db.log + [op], t + 1,
                             w.db.ended[t := Committed([op], |w.db.log|, |w.db.log|)]), inside, map[t := tok])
  {
    var e, t := op.event, w.db.next;
    AloneIsAtomic(w.db, op);
    MoveMore(w, ttl, e, before, Open(tok, op));
    moves := before + [Open(tok, op)];
    OpenInside(w.db, ttl, inside, tok, op);
    MoveMore(w, ttl, e, moves, Work(Flush(t)));
    moves := moves + [Work(Flush(t))];
    MoveMore(w, ttl, e, moves, Work(Commit(t)));
    moves := moves + [Work(Commit(t))];
  }

  lemma OpenInside(db: State, ttl: nat, inside: Lease.Locks, tok: Lease.Token, op: Op)
    requires AtRest(db) && TakesLease(op) && FreshIds([op], db.next) && Leased(inside, tok, op.event)
    ensures Exec(World(db, inside, map[]), ttl, op.event, Open(tok, op))
            == World(Engine.Exec(db, Begin([op])), inside, map[db.next := tok])
  {
    assert MayOpen(World(db, inside, map[]), op.event, tok, op);
  }

  predicate Leads(steps: seq<Step>, s: State) { Engine.Run(START, steps) == s }

  lemma Extend(steps: seq<Step>, s: State, step: Step)
    requires Leads(steps, s)
    ensures Leads(steps + [step], Engine.Exec(s, step))
  {
    assert (steps + [step])[..|steps + [step]| - 1] == steps;
  }

  lemma ExtendAlone(steps: seq<Step>, s: State, op: Op) returns (longer: seq<Step>)
    requires Leads(steps, s) && AtRest(s) && Apply(s.db, op).Wrote? && FreshIds([op], s.next)
    ensures Leads(longer, State(Next(s.db, op), map[], map[], s.log + [op], s.next + 1,
                                s.ended[s.next := Committed([op], |s.log|, |s.log|)]))
  {
    Serialisable(steps);
    AloneIsAtomic(s, op);
    Extend(steps, s, Begin([op]));
    longer := steps + [Begin([op])];
    Extend(longer, Engine.Exec(s, Begin([op])), Flush(s.next));
    longer := longer + [Flush(s.next)];
    Extend(longer, Engine.Exec(Engine.Exec(s, Begin([op])), Flush(s.next)), Commit(s.next));
    longer := longer + [Commit(s.next)];
  }

  const FIRST := Reserve(0, 1, 7, 1, 600)
  const SECOND := Reserve(0, 2, 8, 1, 600)

  /** An event of two seats with one of them held. */
  function OneHeld(): State {
    State(Store(map[0 := Row(2, 1, 0, 2)], map[1 := Hold(0, 7, 1, Pending, 600)]), map[], map[],
          [Initialize(0, 2), FIRST], 2, map[0 := Committed([Initialize(0, 2)], 0, 0), 1 := Committed([FIRST], 1, 1)])
  }

  lemma OneHeldRun() returns (steps: seq<Step>)
    ensures Leads(steps, OneHeld())
  {
    assert Leads([], START);
    steps := ExtendAlone([], START, Initialize(0, 2));
    var s := State(Store(map[0 := Row(2, 0, 0, 1)], map[]), map[], map[], [Initialize(0, 2)], 1,
                   map[0 := Committed([Initialize(0, 2)], 0, 0)]);
    assert Leads(steps, s);
    steps := ExtendAlone(steps, s, FIRST);
    assert Leads(steps, OneHeld());
  }

  /** Transaction 2 has read for a second reservation, and transaction 3 has flushed a confirm of the first. */
  function Overtaking(): State {
    var db := OneHeld().db;
    var reader := Tx(2, db, [SECOND], db, [], {});
    var writer := Tx(2, db, [], Next(db, Confirm(1)), [Confirm(1)], {0});
    OneHeld().(txs := map[2 := reader, 3 := writer], locks := map[0 := 3], next := 4)
  }

  lemma OvertakingSteps()
    ensures Engine.Exec(Engine.Exec(Engine.Exec(OneHeld(), Begin([SECOND])), Begin([Confirm(1)])),
            Flush(3)) == Overtaking()
  {
    var db := OneHeld().db;
    var s1 := Engine.Exec(OneHeld(), Begin([SECOND]));
    assert s1 == OneHeld().(txs := map[2 := Tx(2, db, [SECOND], db, [], {})], next := 3);
    var s2 := Engine.Exec(s1, Begin([Confirm(1)]));
    assert s2.txs == map[2 := Tx(2, db, [SECOND], db, [], {}), 3 := Tx(2, db, [Confirm(1)], db, [], {})];
    ConfirmFlush(s2);
  }

  lemma ConfirmFlush(s: State)
    requires var db := OneHeld().db;
             s == OneHeld().(txs := map[2 := Tx(2, db, [SECOND], db, [], {}), 3 := Tx(2, db, [Confirm(1)], db, [], {})],
                             next := 4)
    ensures Engine.Exec(s, Flush(3)) == Overtaking()
  {
    var x := s.txs[3];
    assert x.todo[1..] == [] && x.done + [x.todo[0]] == [Confirm(1)] && x.touched + {0} == {0};
    assert Apply(x.work, Confirm(1)).Wrote? && Target(x.work, Confirm(1)) == 0;
    assert Engine.Exec(s, Flush(3)) == FlushWrite(s, 3, Next(x.work, Confirm(1)), 0);
    assert Engine.Exec(s, Flush(3)).txs == Overtaking().txs;
  }

  lemma OvertakingRun() returns (steps: seq<Step>)
    ensures Leads(steps, Overtaking())
  {
    steps := OneHeldRun();
    OvertakingSteps();
    Extend(steps, OneHeld(), Begin([SECOND]));
    steps := steps + [Begin([SECOND])];
    Extend(steps, Engine.Exec(OneHeld(), Begin([SECOND])), Begin([Confirm(1)]));
    steps := steps + [Begin([Confirm(1)])];
    Extend(steps, Engine.Exec(Engine.Exec(OneHeld(), Begin([SECOND])), Begin([Confirm(1)])), Flush(3));
    steps := steps + [Flush(3)];
  }

  lemma SecondWrites()
    ensures Apply(OneHeld().db, SECOND).Wrote?
  {
  }

  /** A run from the empty database in which a confirm, which takes no lease, makes the flush of a
    * reservation stale. */
  lemma OvertakenRun() returns (steps: seq<Step>)
    ensures var s := Engine.Run(START, steps); 2 in s.ended && s.ended[2] == Lost(0, 2, 3)
  {
    steps := OvertakingRun();
    Serialisable(steps);
    SecondWrites();
    UnleasedWriterOvertakes(Overtaking(), 2, 3, Confirm(1));
    Extend(steps, Overtaking(), Commit(3));
    steps := steps + [Commit(3)];
    Extend(steps, Engine.Exec(Overtaking(), Commit(3)), Flush(2));
    steps := steps + [Flush(2)];
  }
}
