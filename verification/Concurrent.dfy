/** The two services together: the order protocol of `Orders`, with every inventory call a transaction of the
  * concurrent database of `Engine`, opened, flushed and committed step by step among all the others. It
  * simulates the order protocol with calls made alone, so what holds there holds here. */
module Concurrent {
  import opened Wrappers
  import opened Inventory
  import opened CommitLog
  import opened Orders
  import opened OrderInvariants
  import Engine
  import Serialisability
  import EngineTheorems
  import Settlement
  import Apart
  import ApiProcess
  import InventoryService
  import LockedRuns
  import OrderTheorems

  type TxId = Engine.TxId

  /** What a transaction is for. */
  datatype Call =
    | ReserveCall(k: TaskId, expiresAt: int)
    | SettleCall(k: TaskId)
    | ReleaseCall(k: TaskId)
    | StockCall(event: EventId, capacity: int, create: bool)
    | SweepCall(page: seq<HoldId>, now: int)

  /** The database with its sessions, the API service (whose `db` and `log` are not used), and what each
    * session was opened for. */
  datatype System = System(db: Engine.State, api: World, calls: map<TxId, Call>)

  const BEGIN := System(Engine.START, START, map[])

  datatype Move =
    | Api(step: Step)     // a step of the API service that is not an inventory call
    | Open(call: Call)    // the inventory service opens a session for a call; also: tries it again
    | Send(t: TxId)       // a flush
    | Finish(t: TxId)     // the commit, and the answer
    | Abort(t: TxId)      // the session is rolled back or dies; the caller may try again or give up

  /** The order protocol's view of the system: the tables as committed. */
  function View(s: System): World { s.api.(db := s.db.db, log := s.db.log) }

  predicate IsCall(step: Step) {
    step.Stock? || step.CallReserve? || step.CallSettle? || step.CallRelease? || step.Sweep?
  }

  function TaskOf(call: Call): Option<TaskId> {
    match call
    case ReserveCall(k, _) => Some(k)
    case SettleCall(k) => Some(k)
    case ReleaseCall(k) => Some(k)
    case _ => None
  }

  predicate InFlight(s: System, t: TxId) { t in s.calls && t in s.db.txs }

  /** No session is open on behalf of task `k`. */
  predicate Idle(s: System, k: TaskId) {
    forall t :: t in s.calls ==> !(InFlight(s, t) && TaskOf(s.calls[t]) == Some(k))
  }

  /** The step's task waits for an answer. */
  predicate Waits(s: System, step: Step) { exists k :: k in s.api.tasks && ApiProcess.Of(step, k) && !Idle(s, k) }

  predicate Callable(w: World, call: Call) {
    match call
    case ReserveCall(k, _) => k in w.tasks && w.tasks[k].Reserving?
    case SettleCall(k) => k in w.tasks && w.tasks[k].Paying? && w.tasks[k].order in w.orders
    case ReleaseCall(k) => k in w.tasks && w.tasks[k].Cancelling? && w.tasks[k].order in w.orders
    case StockCall(_, _, _) => true
    case SweepCall(_, _) => true
  }

  /** The one repository call of a session that is no sweep. */
  function OpOf(w: World, call: Call, t: TxId): Op
    requires Callable(w, call) && !call.SweepCall?
  {
    match call
    case ReserveCall(k, expiresAt) => Reserve(w.tasks[k].event, t, k, w.tasks[k].quantity, expiresAt)
    case SettleCall(k) =>
      var id := w.orders[w.tasks[k].order].hold;
      if w.tasks[k].success then Confirm(id) else Release(id, false)
    case ReleaseCall(k) => Release(w.orders[w.tasks[k].order].hold, false)
    case StockCall(e, c, create) => if create then Initialize(e, c) else Adjust(e, c)
  }

  function OpsOf(w: World, call: Call, t: TxId): seq<Op>
    requires Callable(w, call)
  {
    if call.SweepCall? then Settlement.ExpireAll(call.page) else [OpOf(w, call, t)]
  }

  predicate MayOpen(s: System, call: Call) {
    && Callable(View(s), call)
    && (TaskOf(call).Some? ==> Idle(s, TaskOf(call).value))
    && (call.SweepCall? ==> Sweepable(s.db.db, call.page, call.now))
  }

  /** The caller goes on with what inventory answered. */
  function Answered(api: World, call: Call, t: TxId, db: Store): World {
    match call
    case ReserveCall(k, _) =>
      if k in api.tasks && api.tasks[k].Reserving? then
        var b := api.tasks[k];
        Become(api, k, Inserting(b.user, b.event, b.quantity, b.key, t))
      else api
    case SettleCall(k) =>
      if k in api.tasks && api.tasks[k].Paying? && Known(db, api.orders, api.tasks[k].order) then
        var p := api.tasks[k];
        Become(api, k, Settling(p.order, p.success, HoldOf(db, api.orders, p.order)))
      else api
    case ReleaseCall(k) =>
      if k in api.tasks && api.tasks[k].Cancelling? then
        var o := api.tasks[k].order;
        Become(api, k, Dropping(o)).(torn := if Is(api, o, ConfirmedOrder) then api.torn + {o} else api.torn)
      else api
    case StockCall(_, _, _) => api
    case SweepCall(page, _) => Spawn(api, Reaping(page))
  }

  /** A step whose task waits for inventory does not happen: a caller that dies meanwhile is one that is found
    * dead when the answer comes. */
  function Exec(s: System, move: Move): System {
    match move
    case Api(step) =>
      if IsCall(step) || Waits(s, step) then s
      else s.(api := Orders.Exec(View(s), step))
    case Open(call) =>
      if MayOpen(s, call)
      then s.(db := Engine.Exec(s.db, Engine.Begin(OpsOf(View(s), call, s.db.next))),
            calls := s.calls[s.db.next := call])
      else s
    case Send(t) => s.(db := Engine.Exec(s.db, Engine.Flush(t)))
    case Abort(t) => s.(db := Engine.Exec(s.db, Engine.Rollback(t)))
    case Finish(t) =>
      if InFlight(s, t) && s.db.txs[t].todo == [] then
        var db := Engine.Exec(s.db, Engine.Commit(t));
        s.(db := db, api := Answered(s.api, s.calls[t], t, db.db))
      else s
  }

  function Run(s: System, moves: seq<Move>): System {
    if moves == [] then s else Exec(Run(s, moves[..|moves| - 1]), moves[|moves| - 1])
  }

  // ----- the invariant -----

  /** A session of one call: to be sent, sent, or found to have nothing to change. */
  predicate OneCall(x: Engine.Tx, op: Op) {
    || (x.todo == [op] && x.done == [] && x.work == x.snap)
    || (x.todo == [] && x.done == [op])
    || (x.todo == [] && x.done == [] && Apply(x.snap, op) == Unchanged)
  }

  /** A sweep's session: the first reservations of its page released, the others still to be. */
  ghost predicate Sweeping(x: Engine.Tx, page: seq<HoldId>, now: int) {
    var i := |x.done|;
    && i <= |page| && x.done == Settlement.ExpireAll(page)[..i] && x.todo == Settlement.ExpireAll(page)[i..]
    && Sweepable(x.snap, page, now)
    && forall j :: 0 <= j < i ==> x.snap.holds[page[j]].event in x.touched
  }

  ghost predicate CallOk(w: World, call: Call, t: TxId, x: Engine.Tx) {
    Callable(w, call) && if call.SweepCall? then Sweeping(x, call.page, call.now) else OneCall(x, OpOf(w, call, t))
  }

  /** Two sessions open on behalf of one task. */
  predicate SameTask(s: System, t: TxId, u: TxId) {
    InFlight(s, t) && InFlight(s, u) && TaskOf(s.calls[t]).Some? && TaskOf(s.calls[t]) == TaskOf(s.calls[u])
  }

  ghost predicate CallsOk(s: System) {
    && (forall t :: t in s.calls ==> t < s.db.next)
    && (forall t :: InFlight(s, t) ==> CallOk(View(s), s.calls[t], t, s.db.txs[t]))
    && (forall t, u :: SameTask(s, t, u) ==> t == u)
  }

  ghost predicate SysInv(s: System) { Engine.Inv(s.db) && Inv(View(s)) && CallsOk(s) }

  /** For session `t`, the world `w'` is as good as `w`: its task and order are as they were. */
  predicate SameCaller(w: World, w': World, call: Call) {
    TaskOf(call).Some? && TaskOf(call).value in w.tasks ==>
      var k := TaskOf(call).value;
      k in w'.tasks && w'.tasks[k] == w.tasks[k]
  }

  lemma CallKept(w: World, w': World, call: Call, t: TxId, x: Engine.Tx)
    requires CallOk(w, call, t, x) && SameCaller(w, w', call) && Kept(w.orders, w'.orders)
    ensures CallOk(w', call, t, x)
  {
  }

  // ----- moves of the API service -----

  lemma NoCallNoStore(w: World, step: Step)
    requires !IsCall(step)
    ensures Orders.Exec(w, step).db == w.db && Orders.Exec(w, step).log == w.log
  {
  }

  lemma ApiMove(s: System, step: Step)
    requires SysInv(s) && !IsCall(step) && !Waits(s, step)
    ensures var s' := s.(api := Orders.Exec(View(s), step));
            SysInv(s') && View(s') == Orders.Exec(View(s), step)
  {
    NoCallNoStore(View(s), step);
    ExecKeepsInv(View(s), step);
    ApiProcess.StepGrows(View(s), step);
    ApiCalls(s, step);
  }

  lemma ApiCalls(s: System, step: Step)
    requires CallsOk(s) && Inv(View(s)) && !Waits(s, step)
    requires Kept(View(s).orders, Orders.Exec(View(s), step).orders)
    ensures CallsOk(s.(api := Orders.Exec(View(s), step)))
  {
    var s' := s.(api := Orders.Exec(View(s), step));
    forall t | InFlight(s', t) ensures CallOk(View(s'), s'.calls[t], t, s'.db.txs[t]) {
      assert InFlight(s, t);
      ApiSameCaller(s, step, t);
      CallKept(View(s), View(s'), s.calls[t], t, s.db.txs[t]);
    }
    FewerInFlight(s, s');
  }

  lemma ApiSameCaller(s: System, step: Step, t: TxId)
    requires Inv(View(s)) && InFlight(s, t) && !Waits(s, step)
    ensures SameCaller(View(s), Orders.Exec(View(s), step), s.calls[t])
  {
    var call := s.calls[t];
    if TaskOf(call).Some? && TaskOf(call).value in s.api.tasks {
      var k := TaskOf(call).value;
      assert k in View(s).tasks && !ApiProcess.Of(step, k);
      ApiProcess.ForeignTask(View(s), step, k);
    }
  }

  // ----- moves that the order protocol does not see -----

  /** Only sessions move: what is committed stays. */
  lemma Unseen(s: System, db: Engine.State, calls: map<TxId, Call>)
    requires SysInv(s) && Engine.Inv(db) && db.db == s.db.db && db.log == s.db.log
    requires CallsOk(System(db, s.api, calls))
    ensures SysInv(System(db, s.api, calls)) && View(System(db, s.api, calls)) == View(s)
  {
  }

  function Opened(s: System, call: Call): Engine.State
    requires Callable(View(s), call)
  {
    var t := s.db.next;
    s.db.(txs := s.db.txs[t := Engine.Tx(|s.db.log|, s.db.db, OpsOf(View(s), call, t), s.db.db, [], {})], next := t + 1)
  }

  lemma BeginOpens(s: System, call: Call)
    requires Callable(View(s), call)
    ensures Engine.Exec(s.db, Engine.Begin(OpsOf(View(s), call, s.db.next))) == Opened(s, call)
  {
  }

  lemma OpenMove(s: System, call: Call)
    requires SysInv(s) && MayOpen(s, call)
    ensures var s' := Exec(s, Open(call)); SysInv(s') && View(s') == View(s)
  {
    var t, ops := s.db.next, OpsOf(View(s), call, s.db.next);
    BeginOpens(s, call);
    BeginInv(s.db, ops);
    OpenedCalls(s, call);
    Unseen(s, Opened(s, call), s.calls[t := call]);
  }

  lemma BeginInv(db: Engine.State, ops: seq<Op>)
    requires Engine.Inv(db)
    ensures Engine.Inv(Engine.Exec(db, Engine.Begin(ops)))
  {
    Serialisability.ExecKeepsInv(db, Engine.Begin(ops));
  }

  lemma OpenedCalls(s: System, call: Call)
    requires CallsOk(s) && MayOpen(s, call)
    ensures CallsOk(System(Opened(s, call), s.api, s.calls[s.db.next := call]))
  {
    var t := s.db.next;
    var s' := System(Opened(s, call), s.api, s.calls[t := call]);
    assert !InFlight(s, t);
    OpenedOk(View(s), call, t, s'.db.txs[t]);
    forall u | InFlight(s', u) ensures CallOk(View(s'), s'.calls[u], u, s'.db.txs[u]) {
      if u != t { assert InFlight(s, u); }
    }
    OpenedOnce(s, s', call);
  }

  lemma OpenedOnce(s: System, s': System, call: Call)
    requires CallsOk(s) && (TaskOf(call).Some? ==> Idle(s, TaskOf(call).value))
    requires s'.calls == s.calls[s.db.next := call] && s'.db.txs.Keys == s.db.txs.Keys + {s.db.next}
    ensures forall u, v :: SameTask(s', u, v) ==> u == v
  {
    forall u, v | SameTask(s', u, v) ensures u == v {
      assert u != s.db.next && v != s.db.next ==> SameTask(s, u, v);
      assert u != s.db.next ==> InFlight(s, u);
      assert v != s.db.next ==> InFlight(s, v);
    }
  }

  lemma OpenedOk(w: World, call: Call, t: TxId, x: Engine.Tx)
    requires Callable(w, call) && x.todo == OpsOf(w, call, t) && x.done == [] && x.work == x.snap
    requires call.SweepCall? ==> Sweepable(x.snap, call.page, call.now)
    ensures CallOk(w, call, t, x)
  {
    if call.SweepCall? {
      assert Settlement.ExpireAll(call.page)[0..] == Settlement.ExpireAll(call.page);
    }
  }

  /** One session is replaced, or gone. */
  predicate OthersSame(db: Engine.State, db': Engine.State, t: TxId) {
    && db'.next == db.next
    && forall u :: u in db'.txs ==> u in db.txs && (u != t ==> db'.txs[u] == db.txs[u])
  }

  lemma SessionCalls(s: System, db: Engine.State, t: TxId)
    requires CallsOk(s) && OthersSame(s.db, db, t) && db.db == s.db.db && db.log == s.db.log
    requires t in db.txs && t in s.calls ==> CallOk(View(s), s.calls[t], t, db.txs[t])
    ensures CallsOk(s.(db := db))
  {
    var s' := s.(db := db);
    forall u | InFlight(s', u) ensures CallOk(View(s'), s'.calls[u], u, s'.db.txs[u]) {
      assert InFlight(s, u);
    }
    FewerInFlight(s, s');
  }

  lemma FewerInFlight(s: System, s': System)
    requires CallsOk(s) && s'.calls == s.calls && s'.db.txs.Keys <= s.db.txs.Keys
    ensures forall u, v :: SameTask(s', u, v) ==> u == v
  {
    forall u, v | SameTask(s', u, v) ensures u == v {
      assert SameTask(s, u, v);
    }
  }

  /** What the database may become without the order protocol seeing it. */
  ghost predicate NextDb(s: System, db: Engine.State, t: TxId) {
    && Engine.Inv(db) && OthersSame(s.db, db, t) && db.db == s.db.db && db.log == s.db.log
    && (t in db.txs && t in s.calls ==> CallOk(View(s), s.calls[t], t, db.txs[t]))
  }

  lemma SessionMove(s: System, db: Engine.State, t: TxId)
    requires SysInv(s) && NextDb(s, db, t)
    ensures SysInv(s.(db := db)) && View(s.(db := db)) == View(s)
  {
    SessionCalls(s, db, t);
    Unseen(s, db, s.calls);
  }

  lemma AbortMove(s: System, t: TxId)
    requires SysInv(s)
    ensures var s' := Exec(s, Abort(t)); SysInv(s') && View(s') == View(s)
  {
    AbortNext(s, t);
    SessionMove(s, Engine.Exec(s.db, Engine.Rollback(t)), t);
  }

  lemma AbortNext(s: System, t: TxId)
    requires Engine.Inv(s.db)
    ensures NextDb(s, Engine.Exec(s.db, Engine.Rollback(t)), t)
  {
    Serialisability.ExecKeepsInv(s.db, Engine.Rollback(t));
  }

  lemma OneCallSent(x: Engine.Tx, op: Op)
    requires OneCall(x, op) && x.todo != []
    ensures Apply(x.work, x.todo[0]) == Unchanged ==> OneCall(x.(todo := x.todo[1..]), op)
    ensures Apply(x.work, x.todo[0]).Wrote? ==> OneCall(Serialisability.Flushed(x), op)
  {
    assert x.todo[1..] == [] && x.done + [x.todo[0]] == [op];
  }

  lemma SweepSent(log: seq<Op>, next: TxId, t: TxId, x: Engine.Tx, page: seq<HoldId>, now: int)
    requires Engine.Private(log, next, t, x) && Sweeping(x, page, now) && x.todo != []
    ensures Apply(x.work, x.todo[0]).Wrote? && Sweeping(Serialisability.Flushed(x), page, now)
  {
    var i := |x.done|;
    ReplayConsistent(log[..x.start]);
    InventoryService.NextOfPage(x.snap, page, i);
  }

  lemma SendMove(s: System, t: TxId)
    requires SysInv(s)
    ensures var s' := Exec(s, Send(t)); SysInv(s') && View(s') == View(s)
  {
    var db := Engine.Exec(s.db, Engine.Flush(t));
    if t in s.db.txs && s.db.txs[t].todo != [] {
      SendNext(s, t);
      SessionMove(s, db, t);
    } else {
      NothingToSend(s, t);
    }
  }

  lemma NothingToSend(s: System, t: TxId)
    requires !(t in s.db.txs && s.db.txs[t].todo != [])
    ensures Exec(s, Send(t)) == s
  {
  }

  lemma SendNext(s: System, t: TxId)
    requires SysInv(s) && t in s.db.txs && s.db.txs[t].todo != []
    ensures NextDb(s, Engine.Exec(s.db, Engine.Flush(t)), t)
  {
    FlushInv(s.db, t);
    FlushedSession(s, t);
  }

  lemma FlushInv(db: Engine.State, t: TxId)
    requires Engine.Inv(db)
    ensures Engine.Inv(Engine.Exec(db, Engine.Flush(t)))
    ensures !(t in db.txs && db.txs[t].todo != []) ==> Engine.Exec(db, Engine.Flush(t)) == db
  {
    Serialisability.ExecKeepsInv(db, Engine.Flush(t));
  }

  lemma FlushedSession(s: System, t: TxId)
    requires TxsAndCalls(s) && t in s.db.txs && s.db.txs[t].todo != []
    ensures var db := Engine.Exec(s.db, Engine.Flush(t));
            && OthersSame(s.db, db, t) && db.db == s.db.db && db.log == s.db.log
            && (t in db.txs && t in s.calls ==> CallOk(View(s), s.calls[t], t, db.txs[t]))
  {
    FlushOthers(s.db, t);
    Apart.FlushCases(s.db, t);
    if t in s.calls { SentOk(s, t); }
  }

  ghost predicate TxsAndCalls(s: System) { Engine.TxsOk(s.db) && CallsOk(s) }

  lemma FlushOthers(db: Engine.State, t: TxId)
    requires t in db.txs && db.txs[t].todo != []
    ensures var db' := Engine.Exec(db, Engine.Flush(t)); OthersSame(db, db', t) && db'.db == db.db && db'.log == db.log
  {
    Apart.FlushCases(db, t);
  }

  /** A session that has sent its next call is still as its purpose says. */
  lemma SentOk(s: System, t: TxId)
    requires TxsAndCalls(s) && t in s.db.txs && s.db.txs[t].todo != [] && t in s.calls
    ensures var x := s.db.txs[t];
            && CallOk(View(s), s.calls[t], t, x)
            && (Apply(x.work, x.todo[0]) == Unchanged ==> CallOk(View(s), s.calls[t], t, x.(todo := x.todo[1..])))
            && (Apply(x.work, x.todo[0]).Wrote? ==> CallOk(View(s), s.calls[t], t, Serialisability.Flushed(x)))
  {
    var x, call := s.db.txs[t], s.calls[t];
    assert InFlight(s, t) && CallOk(View(s), call, t, x);
    if call.SweepCall? {
      assert Engine.Private(s.db.log, s.db.next, t, x);
      SweepSent(s.db.log, s.db.next, t, x, call.page, call.now);
    } else {
      OneCallSent(x, OpOf(View(s), call, t));
    }
  }

  // ----- commits -----

  /** The step of the order protocol that a commit amounts to. */
  function StepOf(call: Call, t: TxId): Step {
    match call
    case ReserveCall(k, expiresAt) => CallReserve(k, Grant(t, expiresAt))
    case SettleCall(k) => CallSettle(k)
    case ReleaseCall(k) => CallRelease(k)
    case StockCall(e, c, create) => Stock(e, c, create)
    case SweepCall(page, now) => Sweep(page, now)
  }

  /** What the commit of a session of one call does to the tables: what that call does to them alone. */
  lemma OneCallCommits(db: Engine.State, t: TxId, op: Op)
    requires Engine.Inv(db) && t in db.txs && db.txs[t].todo == [] && OneCall(db.txs[t], op)
    ensures var db' := Engine.Exec(db, Engine.Commit(t));
            if db.txs[t].done == [op] then
              Apply(db.db, op).Wrote? && db'.db == Next(db.db, op) && db'.log == db.log + [op]
            else db.txs[t].done == [] && db'.db == db.db && db'.log == db.log && Apply(db.txs[t].snap, op) == Unchanged
  {
    CommitTables(db, t);
    ReplayOne(db.db, op);
  }

  lemma ReplayOne(db: Store, op: Op)
    ensures ReplayFrom(db, [op]) == Next(db, op) && (Effective(db, [op]) <==> Apply(db, op).Wrote?)
    ensures ReplayFrom(db, []) == db
  {
    assert [op][..0] == [];
  }

  /** A settling call that found nothing to do still finds nothing to do. */
  lemma IdleStays(db: Engine.State, t: TxId, op: Op)
    requires Engine.Inv(db) && t in db.txs && Apply(db.txs[t].snap, op) == Unchanged
    requires (op.Confirm? || op.Release? || op.Reserve?)
    ensures Apply(db.db, op) == Unchanged
  {
    Serialisability.Began(db, t);
    if !op.Reserve? { EngineTheorems.NothingToDoIsStable(db.log, db.txs[t].start, op); }
  }

  /** The commit of a reserve, confirm or release is that call alone. */
  lemma CommitAlone(db: Engine.State, t: TxId, op: Op, w: World)
    requires Engine.Inv(db) && t in db.txs && db.txs[t].todo == [] && OneCall(db.txs[t], op)
    requires w.db == db.db && w.log == db.log && (op.Confirm? || op.Release? || op.Reserve?)
    ensures var db' := Engine.Exec(db, Engine.Commit(t));
            w.(db := db'.db, log := db'.log) == Orders.Call(w, op) && (op.Reserve? ==> Apply(db.db, op).Wrote?)
  {
    OneCallCommits(db, t, op);
    if db.txs[t].done == [] { IdleStays(db, t, op); }
    var db' := Engine.Exec(db, Engine.Commit(t));
    CallFrom(w, op, db'.db, db'.log);
  }

  /** A call that wrote what it writes alone, or had nothing to change, is `Call`. */
  lemma CallFrom(w: World, op: Op, db: Store, log: seq<Op>)
    requires (Apply(w.db, op).Wrote? && db == Next(w.db, op) && log == w.log + [op])
             || (Apply(w.db, op) == Unchanged && db == w.db && log == w.log)
    ensures w.(db := db, log := log) == Orders.Call(w, op) && (op.Reserve? ==> Apply(w.db, op).Wrote?)
  {
  }

  lemma FinishView(s: System, t: TxId)
    requires InFlight(s, t) && s.db.txs[t].todo == []
    ensures var db := Engine.Exec(s.db, Engine.Commit(t));
            View(Exec(s, Finish(t))) == Answered(s.api, s.calls[t], t, db.db).(db := db.db, log := db.log)
  {
  }

  lemma CallIsOk(s: System, t: TxId)
    requires CallsOk(s) && InFlight(s, t)
    ensures CallOk(View(s), s.calls[t], t, s.db.txs[t])
  {
  }

  /** A commit is the call made alone on the tables as they are then, or for a capacity already in place
    * nothing at all. */
  lemma CommitIsStep(s: System, t: TxId)
    requires SysInv(s) && InFlight(s, t) && s.db.txs[t].todo == []
    ensures var s' := Exec(s, Finish(t));
            View(s') == Orders.Exec(View(s), StepOf(s.calls[t], t)) || (View(s') == View(s) && s.calls[t].StockCall?)
  {
    CallIsOk(s, t);
    FinishView(s, t);
    CallerKnown(View(s), s.calls[t]);
    CommitAnswer(s.db, t, View(s), s.api, s.calls[t]);
  }

  /** What the commit leaves and the caller makes of it. */
  lemma CommitAnswer(db: Engine.State, t: TxId, w: World, api: World, call: Call)
    requires Engine.Inv(db) && t in db.txs && db.txs[t].todo == [] && CallOk(w, call, t, db.txs[t])
    requires w == api.(db := w.db, log := w.log) && w.db == db.db && w.log == db.log
    requires call.SettleCall? || call.ReleaseCall? ==> Known(w.db, w.orders, w.tasks[call.k].order)
    ensures var db' := Engine.Exec(db, Engine.Commit(t));
            AnswerIsStep(w, api, call, t, db'.db, db'.log)
  {
    if call.SweepCall? {
      SweepCommit(db, t, w, api, call);
    } else if call.StockCall? {
      StockCommit(db, t, w, api, call);
    } else {
      TaskCommit(db, t, w, api, call);
    }
  }

  predicate AnswerIsStep(w: World, api: World, call: Call, t: TxId, db: Store, log: seq<Op>) {
    var w' := Answered(api, call, t, db).(db := db, log := log);
    w' == Orders.Exec(w, StepOf(call, t)) || (w' == w && call.StockCall?)
  }

  lemma SweepCommit(db: Engine.State, t: TxId, w: World, api: World, call: Call)
    requires Engine.Inv(db) && t in db.txs && db.txs[t].todo == [] && CallOk(w, call, t, db.txs[t]) && call.SweepCall?
    requires w == api.(db := w.db, log := w.log) && w.db == db.db && w.log == db.log
    ensures var db' := Engine.Exec(db, Engine.Commit(t)); AnswerIsStep(w, api, call, t, db'.db, db'.log)
  {
    SweepAlone(db, t, call.page, call.now, w);
    var db' := Engine.Exec(db, Engine.Commit(t));
    SpawnedView(w, api, call.page, db'.db, db'.log);
  }

  lemma SpawnedView(w: World, api: World, page: seq<HoldId>, db: Store, log: seq<Op>)
    requires w == api.(db := w.db, log := w.log)
    ensures Spawn(api, Reaping(page)).(db := db, log := log) == Spawn(w, Reaping(page)).(db := db, log := log)
  {
  }

  lemma StockCommit(db: Engine.State, t: TxId, w: World, api: World, call: Call)
    requires Engine.Inv(db) && t in db.txs && db.txs[t].todo == [] && CallOk(w, call, t, db.txs[t]) && call.StockCall?
    requires w == api.(db := w.db, log := w.log) && w.db == db.db && w.log == db.log
    ensures var db' := Engine.Exec(db, Engine.Commit(t)); AnswerIsStep(w, api, call, t, db'.db, db'.log)
  {
    OneCallCommits(db, t, OpOf(w, call, t));
    var db' := Engine.Exec(db, Engine.Commit(t));
    StockAnswer(w, call, OpOf(w, call, t), db'.db, db'.log);
  }

  lemma TaskCommit(db: Engine.State, t: TxId, w: World, api: World, call: Call)
    requires Engine.Inv(db) && t in db.txs && db.txs[t].todo == [] && CallOk(w, call, t, db.txs[t])
    requires TaskOf(call).Some?
    requires w == api.(db := w.db, log := w.log) && w.db == db.db && w.log == db.log
    requires call.SettleCall? || call.ReleaseCall? ==> Known(w.db, w.orders, w.tasks[call.k].order)
    ensures var db' := Engine.Exec(db, Engine.Commit(t)); AnswerIsStep(w, api, call, t, db'.db, db'.log)
  {
    CommitAlone(db, t, OpOf(w, call, t), w);
    var db' := Engine.Exec(db, Engine.Commit(t));
    CallAnswer(w, api, call, t, db'.db, db'.log);
  }

  lemma CallerKnown(w: World, call: Call)
    requires TasksOk(w) && OrdersOk(w) && Callable(w, call)
    ensures call.SettleCall? || call.ReleaseCall? ==> Known(w.db, w.orders, w.tasks[call.k].order)
  {
    if call.SettleCall? || call.ReleaseCall? { OrderIsKnown(w, w.tasks[call.k].order); }
  }

  lemma StockAnswer(w: World, call: Call, op: Op, db: Store, log: seq<Op>)
    requires call.StockCall? && op == OpOf(w, call, 0)
    requires (Apply(w.db, op).Wrote? && db == Next(w.db, op) && log == w.log + [op]) || (db == w.db && log == w.log)
    ensures w.(db := db, log := log) == Orders.Exec(w, Stock(call.event, call.capacity, call.create))
        || w.(db := db, log := log) == w
  {
  }

  lemma CallAnswer(w: World, api: World, call: Call, t: TxId, db: Store, log: seq<Op>)
    requires w == api.(db := w.db, log := w.log) && Callable(w, call) && !call.StockCall? && !call.SweepCall?
    requires w.(db := db, log := log) == Orders.Call(w, OpOf(w, call, t))
    requires call.ReserveCall? ==> Apply(w.db, OpOf(w, call, t)).Wrote?
    requires call.SettleCall? || call.ReleaseCall? ==> Known(w.db, w.orders, w.tasks[call.k].order)
    ensures Answered(api, call, t, db).(db := db, log := log) == Orders.Exec(w, StepOf(call, t))
  {
    match call
    case ReserveCall(_, _) => ReserveAnswer(w, api, call, t, db, log);
    case SettleCall(_) => SettleAnswer(w, api, call, t, db, log);
    case ReleaseCall(_) => ReleaseAnswer(w, api, call, t, db, log);
  }

  lemma ReserveAnswer(w: World, api: World, call: Call, t: TxId, db: Store, log: seq<Op>)
    requires w == api.(db := w.db, log := w.log) && call.ReserveCall? && Callable(w, call)
    requires Apply(w.db, OpOf(w, call, t)).Wrote? && w.(db := db, log := log) == Orders.Call(w, OpOf(w, call, t))
    ensures Answered(api, call, t, db).(db := db, log := log) == Orders.Exec(w, StepOf(call, t))
  {
    assert Orders.Exec(w, StepOf(call, t)) == Reserved(w, call.k, Grant(t, call.expiresAt));
  }

  lemma SettleAnswer(w: World, api: World, call: Call, t: TxId, db: Store, log: seq<Op>)
    requires w == api.(db := w.db, log := w.log) && call.SettleCall? && Callable(w, call)
    requires Known(w.db, w.orders, w.tasks[call.k].order)
    requires w.(db := db, log := log) == Orders.Call(w, OpOf(w, call, t))
    ensures Answered(api, call, t, db).(db := db, log := log) == Orders.Exec(w, StepOf(call, t))
  {
    assert Orders.Exec(w, StepOf(call, t)) == Settled(w, call.k);
    CallLater(w.db, OpOf(w, call, t));
    assert db == Next(w.db, OpOf(w, call, t));
  }

  lemma ReleaseAnswer(w: World, api: World, call: Call, t: TxId, db: Store, log: seq<Op>)
    requires w == api.(db := w.db, log := w.log) && call.ReleaseCall? && Callable(w, call)
    requires Known(w.db, w.orders, w.tasks[call.k].order)
    requires w.(db := db, log := log) == Orders.Call(w, OpOf(w, call, t))
    ensures Answered(api, call, t, db).(db := db, log := log) == Orders.Exec(w, StepOf(call, t))
  {
    assert Orders.Exec(w, StepOf(call, t)) == Dropped(w, call.k);
  }

  /** The page of a sweep is as it was read until the sweep commits. */
  lemma PageHeld(db: Engine.State, t: TxId, page: seq<HoldId>, now: int)
    requires Engine.TxsOk(db) && t in db.txs && db.txs[t].todo == [] && Sweeping(db.txs[t], page, now)
    ensures Sweepable(db.db, page, now) && db.txs[t].done == Settlement.ExpireAll(page)
  {
    var x := db.txs[t];
    assert Engine.Held(db.db, db.locks, t, x);
    assert |x.todo| == |page| - |x.done|;
    forall i | 0 <= i < |page| ensures Settlement.Expirable(db.db, now, page[i]) {
      assert Settlement.Expirable(x.snap, now, page[i]);
      StillExpirable(x.snap, db.db, now, page[i]);
    }
  }

  lemma StillExpirable(snap: Store, db: Store, now: int, id: HoldId)
    requires Settlement.Expirable(snap, now, id) && SameSlice(snap, db, snap.holds[id].event)
    ensures Settlement.Expirable(db, now, id)
  {
    assert Belongs(snap, id, snap.holds[id].event);
  }

  /** The commit of a sweep is the sweep. */
  lemma SweepAlone(db: Engine.State, t: TxId, page: seq<HoldId>, now: int, w: World)
    requires Engine.Inv(db) && t in db.txs && db.txs[t].todo == [] && Sweeping(db.txs[t], page, now)
    requires w.db == db.db && w.log == db.log
    ensures var db' := Engine.Exec(db, Engine.Commit(t));
            Spawn(w, Reaping(page)).(db := db'.db, log := db'.log) == Orders.Exec(w, Sweep(page, now))
  {
    PageHeld(db, t, page, now);
    CommitTables(db, t);
    SweptWorld(w, page, now);
  }

  lemma CommitTables(db: Engine.State, t: TxId)
    requires Engine.Inv(db) && t in db.txs && db.txs[t].todo == []
    ensures var db' := Engine.Exec(db, Engine.Commit(t));
            && db'.db == ReplayFrom(db.db, db.txs[t].done) && db'.log == db.log + db.txs[t].done
            && Effective(db.db, db.txs[t].done)
  {
    Serialisability.MergeIsReplay(db, t);
  }

  lemma SweptWorld(w: World, page: seq<HoldId>, now: int)
    requires Sweepable(w.db, page, now)
    ensures var ops := Settlement.ExpireAll(page);
            Spawn(w, Reaping(page)).(db := ReplayFrom(w.db, ops), log := w.log + ops)
            == Orders.Exec(w, Sweep(page, now))
  {
  }

  /** The caller that is answered is the only one that moves. */
  lemma AnswerSameCaller(s: System, t: TxId, u: TxId, db: Store)
    requires CallsOk(s) && TasksOk(View(s)) && InFlight(s, t) && InFlight(s, u) && t != u
    ensures SameCaller(s.api, Answered(s.api, s.calls[t], t, db), s.calls[u])
  {
    assert !SameTask(s, u, t);
    assert s.api.next !in View(s).tasks;
  }

  lemma AnswerKeepsOrders(api: World, call: Call, t: TxId, db: Store)
    ensures Answered(api, call, t, db).orders == api.orders
  {
  }

  lemma FinishCalls(s: System, t: TxId)
    requires CallsOk(s) && TasksOk(View(s)) && InFlight(s, t) && s.db.txs[t].todo == []
    ensures CallsOk(Exec(s, Finish(t)))
  {
    var s' := Exec(s, Finish(t));
    FinishView(s, t);
    AnswerKeepsOrders(s.api, s.calls[t], t, s'.db.db);
    forall u | InFlight(s', u) ensures CallOk(View(s'), s'.calls[u], u, s'.db.txs[u]) {
      assert InFlight(s, u) && u != t;
      AnswerSameCaller(s, t, u, s'.db.db);
      CallKept(View(s), View(s'), s.calls[u], u, s.db.txs[u]);
    }
    FewerInFlight(s, s');
  }

  lemma FinishWorld(s: System, t: TxId)
    requires SysInv(s) && InFlight(s, t) && s.db.txs[t].todo == []
    ensures Inv(View(Exec(s, Finish(t))))
  {
    CommitIsStep(s, t);
    ExecKeepsInv(View(s), StepOf(s.calls[t], t));
  }

  lemma FinishDatabase(s: System, t: TxId)
    requires Engine.Inv(s.db) && InFlight(s, t) && s.db.txs[t].todo == []
    ensures Engine.Inv(Exec(s, Finish(t)).db)
  {
    Serialisability.ExecKeepsInv(s.db, Engine.Commit(t));
  }

  lemma FinishMove(s: System, t: TxId)
    requires SysInv(s) && InFlight(s, t) && s.db.txs[t].todo == []
    ensures SysInv(Exec(s, Finish(t)))
  {
    FinishDatabase(s, t);
    FinishWorld(s, t);
    FinishCalls(s, t);
  }

  // ----- the simulation -----

  /** Every move is one step of the order protocol, or none that it can see. */
  lemma MoveSimulates(s: System, move: Move) returns (steps: seq<Step>)
    requires SysInv(s)
    ensures SysInv(Exec(s, move)) && |steps| <= 1
    ensures View(Exec(s, move)) == if steps == [] then View(s) else Orders.Exec(View(s), steps[0])
  {
    steps := [];
    match move
    case Api(step) =>
      if !IsCall(step) && !Waits(s, step) {
        ApiMove(s, step);
        steps := [step];
      }
    case Open(call) => if MayOpen(s, call) { OpenMove(s, call); }
    case Send(t) => SendMove(s, t);
    case Abort(t) => AbortMove(s, t);
    case Finish(t) =>
      if InFlight(s, t) && s.db.txs[t].todo == [] {
        CommitIsStep(s, t);
        FinishMove(s, t);
        if View(Exec(s, move)) != View(s) { steps := [StepOf(s.calls[t], t)]; }
      }
  }

  lemma DbMove(s: System, move: Move) returns (steps: seq<Engine.Step>)
    ensures |steps| <= 1 && Exec(s, move).db == if steps == [] then s.db else Engine.Exec(s.db, steps[0])
  {
    steps := [];
    match move
    case Api(_) =>
    case Open(call) => if MayOpen(s, call) { steps := [Engine.Begin(OpsOf(View(s), call, s.db.next))]; }
    case Send(t) => steps := [Engine.Flush(t)];
    case Abort(t) => steps := [Engine.Rollback(t)];
    case Finish(t) => if InFlight(s, t) && s.db.txs[t].todo == [] { steps := [Engine.Commit(t)]; }
  }

  lemma StartSystem()
    ensures SysInv(BEGIN) && View(BEGIN) == START
  {
    EngineTheorems.StartInv();
    Reachable([]);
  }

  /** Simulation. Whatever the two services do, with any number of handlers and of database sessions in flight
    * among each other: the API service and the committed tables are as some run of the order protocol with
    * inventory calls made alone leaves them. */
  lemma {:induction false} Simulates(moves: seq<Move>) returns (steps: seq<Step>)
    ensures SysInv(Run(BEGIN, moves)) && View(Run(BEGIN, moves)) == Orders.Run(START, steps)
  {
    steps := [];
    if moves == [] {
      StartSystem();
    } else {
      var before := moves[..|moves| - 1];
      steps := Simulates(before);
      var more := MoveSimulates(Run(BEGIN, before), moves[|moves| - 1]);
      if more != [] {
        assert (steps + more)[..|steps|] == steps;
        steps := steps + more;
      }
    }
  }

  /** And the database is as some run of its own leaves it. */
  lemma {:induction false} DatabaseRun(moves: seq<Move>) returns (steps: seq<Engine.Step>)
    ensures Run(BEGIN, moves).db == Engine.Run(Engine.START, steps)
  {
    steps := [];
    if moves != [] {
      var before := moves[..|moves| - 1];
      steps := DatabaseRun(before);
      var more := DbMove(Run(BEGIN, before), moves[|moves| - 1]);
      if more != [] {
        assert (steps + more)[..|steps|] == steps;
        steps := steps + more;
      }
    }
  }

  // ----- calls do go through -----

  /** With no other session open, a call that would write is opened, sent and committed, and the whole is the
    * one step of the order protocol. */
  lemma CallGoesThrough(s: System, call: Call)
    requires SysInv(s) && LockedRuns.AtRest(s.db) && MayOpen(s, call) && !call.SweepCall?
    requires Apply(s.db.db, OpOf(View(s), call, s.db.next)).Wrote?
    ensures var t, op := s.db.next, OpOf(View(s), call, s.db.next);
            var s' := Exec(Exec(Exec(s, Open(call)), Send(t)), Finish(t));
            && View(s') == Orders.Exec(View(s), StepOf(call, t))
            && LockedRuns.AtRest(s'.db) && s'.db.log == s.db.log + [op] && s'.db.db == Next(s.db.db, op)
  {
    var t := s.db.next;
    CallSent(s, call);
    OpenMove(s, call);
    SendMove(Exec(s, Open(call)), t);
    SentCommits(s.db, Exec(Exec(s, Open(call)), Send(t)), call, t, OpOf(View(s), call, t));
  }

  lemma CallSent(s: System, call: Call)
    requires LockedRuns.AtRest(s.db) && MayOpen(s, call) && !call.SweepCall?
    requires Apply(s.db.db, OpOf(View(s), call, s.db.next)).Wrote?
    ensures Exec(Exec(s, Open(call)), Send(s.db.next))
            == System(LockedRuns.Sent(s.db, OpOf(View(s), call, s.db.next)), s.api, s.calls[s.db.next := call])
  {
    LockedRuns.BeginAlone(s.db, OpOf(View(s), call, s.db.next));
    LockedRuns.FlushAlone(s.db, OpOf(View(s), call, s.db.next));
  }

  lemma SentCommits(db: Engine.State, s: System, call: Call, t: TxId, op: Op)
    requires SysInv(s) && LockedRuns.AtRest(db) && Apply(db.db, op).Wrote? && t == db.next
    requires s.db == LockedRuns.Sent(db, op) && t in s.calls && s.calls[t] == call
    ensures var s' := Exec(s, Finish(t));
            && View(s') == Orders.Exec(View(s), StepOf(call, t))
            && LockedRuns.AtRest(s'.db) && s'.db.log == db.log + [op] && s'.db.db == Next(db.db, op)
  {
    SentTables(db, s, t, op);
    CommitIsStep(s, t);
  }

  lemma SentTables(db: Engine.State, s: System, t: TxId, op: Op)
    requires Engine.Inv(s.db) && LockedRuns.AtRest(db) && Apply(db.db, op).Wrote? && t == db.next
    requires s.db == LockedRuns.Sent(db, op) && t in s.calls
    ensures InFlight(s, t) && s.db.txs[t].todo == [] && View(s).log == db.log
    ensures var s' := Exec(s, Finish(t));
            LockedRuns.AtRest(s'.db) && View(s').log == s'.db.log == db.log + [op] && s'.db.db == Next(db.db, op)
  {
    LockedRuns.CommitAlone(db, op);
    FinishTables(s, t);
  }

  lemma FinishTables(s: System, t: TxId)
    requires InFlight(s, t) && s.db.txs[t].todo == []
    ensures Exec(s, Finish(t)).db == Engine.Exec(s.db, Engine.Commit(t))
    ensures View(Exec(s, Finish(t))).log == Exec(s, Finish(t)).db.log
  {
  }

  /** Cross-service safety over the concurrent database: the rules on orders and their reservations, the
    * ledger, and the capacity bound, all at once and at every moment. */
  lemma SystemSafety(moves: seq<Move>)
    ensures var s := Run(BEGIN, moves);
            && (forall o :: o in s.api.orders ==>
                  Linked(s.db.db, o, s.api.orders[o])
                  && StatusesAgree(s.api.orders[o].status, s.db.db.holds[s.api.orders[o].hold].status))
            && (forall a, b :: a in s.api.orders && b in s.api.orders && SameKey(s.api.orders[a], s.api.orders[b]) ==>
                  a == b)
            && (forall e :: e in s.db.db.rows ==>
                  && s.db.db.rows[e].reserved == Seats(s.db.db, e, Pending) >= 0
                  && s.db.db.rows[e].confirmed == Seats(s.db.db, e, Confirmed) >= 0
                  && s.db.db.rows[e].Taken() <= Highest(s.db.log, e))
  {
    var s := Run(BEGIN, moves);
    var steps := Simulates(moves);
    forall o | o in s.api.orders
      ensures Linked(s.db.db, o, s.api.orders[o])
              && StatusesAgree(s.api.orders[o].status, s.db.db.holds[s.api.orders[o].hold].status)
    {
      OrderTheorems.CrossServiceSafety(steps, o);
    }
    forall a, b | a in s.api.orders && b in s.api.orders && SameKey(s.api.orders[a], s.api.orders[b]) ensures a == b {
      OrderTheorems.OneOrderPerKey(steps, a, b);
    }
    var db := DatabaseRun(moves);
    forall e | e in s.db.db.rows
      ensures s.db.db.rows[e].reserved == Seats(s.db.db, e, Pending) >= 0
              && s.db.db.rows[e].confirmed == Seats(s.db.db, e, Confirmed) >= 0
              && s.db.db.rows[e].Taken() <= Highest(s.db.log, e)
    {
      EngineTheorems.NoOversell(db, e);
    }
  }
}
