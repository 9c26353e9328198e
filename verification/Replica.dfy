/** The inventory service's copy of each event's seat count, fed by a consumer that can crash, rewind to
  * its committed offset and skip messages whose handler raises.
  * One partition's log is modelled: messages of one event share a key, hence a partition. */
module Replica {
  import opened Wrappers
  import opened Inventory

  datatype Message = Created(event: EventId, seats: int) | Updated(event: EventId, seats: int) | Unrecognised {
    predicate About(e: EventId) { !Unrecognised? && event == e }
  }

  /** What goes wrong while one message is processed: nothing, the handler raises and its transaction is
    * rolled back, or the offset commit raises after the handler's effect. A NotFound is not a fault
    * of this kind: it follows from the store. */
  datatype Fault = NoFault | Raises | CommitFails

  /** `high` is one past the greatest offset ever delivered; `done` and `skipped` are the offsets whose
    * handler has returned, and has raised, at some delivery. These three only record history. */
  datatype Replica = Replica(log: seq<Message>, db: Store, position: nat, committed: nat,
                             high: nat, done: set<nat>, skipped: set<nat>)

  const START := Replica([], EMPTY, 0, 0, 0, {}, {})

  datatype Step =
    | Publish(message: Message)
    | Deliver(fault: Fault)
    | Restart               // crash, or a rebalance: back to the committed offset
    | Elsewhere(op: Op)     // the other calls on the same tables

  /** `event_sync_consumer._handle_message`. */
  function Handled(db: Store, m: Message): Outcome {
    match m
    case Created(e, seats) => Apply(db, Initialize(e, seats))
    case Updated(e, seats) => Apply(db, Adjust(e, seats))
    case Unrecognised => Unchanged
  }

  /** `BaseKafkaConsumer._process`: the commit, which follows the handler, covers the position and so
    * everything before it, skipped messages included. */
  function Processed(r: Replica, fault: Fault): Replica
    requires r.position < |r.log|
  {
    var p := r.position;
    var r' := r.(position := p + 1, high := if r.high < p + 1 then p + 1 else r.high);
    var outcome := Handled(r.db, r.log[p]);
    if fault.Raises? || outcome.Raised? then r'.(skipped := r.skipped + {p})
    else r'.(db := if outcome.Wrote? then outcome.store else r.db, done := r.done + {p},
             committed := if fault.CommitFails? then r.committed else p + 1)
  }

  function Exec(r: Replica, step: Step): Replica {
    match step
    case Publish(m) => r.(log := r.log + [m])
    case Deliver(fault) => if r.position < |r.log| then Processed(r, fault) else r
    case Restart => r.(position := r.committed)
    case Elsewhere(op) => if op.Initialize? || op.Adjust? then r else r.(db := Next(r.db, op))
  }

  function Run(r: Replica, steps: seq<Step>): Replica {
    if steps == [] then r else Exec(Run(r, steps[..|steps| - 1]), steps[|steps| - 1])
  }

  // ----- seat counts -----

  function Capacity(db: Store, e: EventId): Option<int> {
    if e in db.rows then Some(db.rows[e].capacity) else None
  }

  /** The seat count last published for `e`. */
  function Latest(log: seq<Message>, e: EventId): Option<int> {
    if log == [] then None
    else
      var m := log[|log| - 1];
      if m.About(e) then Some(m.seats) else Latest(log[..|log| - 1], e)
  }

  /** What one uninterrupted pass over `log` makes of a capacity. */
  function Told(capacity: Option<int>, log: seq<Message>, e: EventId): Option<int> {
    if log == [] then capacity
    else
      var before, m := Told(capacity, log[..|log| - 1], e), log[|log| - 1];
      if m.About(e) && m.Created? == before.None? then Some(m.seats) else before
  }

  /** The first message about `e`, and no other, is its creation. */
  predicate Orderly(log: seq<Message>, e: EventId) {
    forall i :: 0 <= i < |log| && log[i].About(e) ==> (log[i].Created? <==> Latest(log[..i], e).None?)
  }

  lemma OrderlyPrefix(log: seq<Message>, k: nat, e: EventId)
    requires k <= |log| && Orderly(log, e)
    ensures Orderly(log[..k], e)
  {
    forall i | 0 <= i < k && log[..k][i].About(e)
      ensures log[..k][i].Created? <==> Latest(log[..k][..i], e).None?
    {
      assert log[..k][..i] == log[..i];
    }
  }

  /** On an orderly log, one uninterrupted pass from nothing ends at the seat count last published. */
  lemma {:induction false} OnePass(log: seq<Message>, e: EventId)
    requires Orderly(log, e)
    ensures Told(None, log, e) == Latest(log, e)
  {
    if log != [] {
      OrderlyPrefix(log, |log| - 1, e);
      OnePass(log[..|log| - 1], e);
    }
  }

  lemma {:induction false} ToldConcat(capacity: Option<int>, a: seq<Message>, b: seq<Message>, e: EventId)
    ensures Told(capacity, a + b, e) == Told(Told(capacity, a, e), b, e)
    ensures Latest(a + b, e) == if Latest(b, e).Some? then Latest(b, e) else Latest(a, e)
  {
    if b == [] {
      assert a + b == a;
    } else {
      ToldConcat(capacity, a, b[..|b| - 1], e);
      assert (a + b)[..|a + b| - 1] == a + b[..|b| - 1];
    }
  }

  /** The handler of one message does to a capacity what `Told` says; the other calls do nothing to it. */
  lemma HandlerTells(db: Store, m: Message, e: EventId)
    ensures Handled(db, m).Wrote? ==> Capacity(Handled(db, m).store, e) == Told(Capacity(db, e), [m], e)
    ensures !Handled(db, m).Wrote? ==> Capacity(db, e) == Told(Capacity(db, e), [m], e)
  {
    assert Told(Capacity(db, e), [m][..0], e) == Capacity(db, e);
  }

  lemma OthersKeepCapacity(db: Store, op: Op, e: EventId)
    requires !op.Initialize? && !op.Adjust?
    ensures Capacity(Next(db, op), e) == Capacity(db, e)
  {
  }

  // ----- crashes and rewinds, no handler fault -----

  /** The message at the position is about `e`. */
  predicate Faces(r: Replica, e: EventId) { r.position < |r.log| && r.log[r.position].About(e) }

  /** No handler raises over a message about `e`; over others they may. */
  predicate Calm(steps: seq<Step>, e: EventId) {
    steps == [] ||
    (Calm(steps[..|steps| - 1], e) &&
     (steps[|steps| - 1] == Deliver(Raises) ==> !Faces(Run(START, steps[..|steps| - 1]), e)))
  }

  predicate Offsets(r: Replica) { r.committed <= r.position <= r.high <= |r.log| }

  /** The capacity of `e` is what was last published for it as of some point not before the position. */
  ghost predicate Follows(r: Replica, e: EventId, j: nat) {
    r.position <= j <= r.high <= |r.log| && Capacity(r.db, e) == Latest(r.log[..j], e)
  }

  lemma {:induction false} LatestGrows(log: seq<Message>, i: nat, j: nat, e: EventId)
    requires i <= j <= |log| && Latest(log[..i], e).Some?
    ensures Latest(log[..j], e).Some?
  {
    assert log[..j] == log[..i] + log[i..j];
    ToldConcat(None, log[..i], log[i..j], e);
  }

  lemma {:induction false} OffsetsHold(steps: seq<Step>)
    ensures Offsets(Run(START, steps))
  {
    if steps != [] { OffsetsHold(steps[..|steps| - 1]); }
  }

  lemma DeliverFollows(r: Replica, fault: Fault, e: EventId, j: nat) returns (j': nat)
    requires Offsets(r) && r.position < |r.log| && (fault == Raises ==> !Faces(r, e))
    requires Follows(r, e, j) && Orderly(r.log, e)
    ensures Follows(Processed(r, fault), e, j')
  {
    var p := r.position;
    var m := r.log[p];
    ProcessedCapacity(r, fault, e);
    if m.About(e) {
      j' := AboutFollows(r.log, Capacity(r.db, e), p, j, e);
    } else {
      SameLatest(r.log, p, e);
      j' := if j == p then p + 1 else j;
    }
  }

  /** What one delivery makes of the capacity of `e`. */
  lemma ProcessedCapacity(r: Replica, fault: Fault, e: EventId)
    requires r.position < |r.log| && (fault == Raises ==> !Faces(r, e))
    ensures Capacity(Processed(r, fault).db, e) == ToldOne(Capacity(r.db, e), r.log[r.position], e)
  {
    HandlerTells(r.db, r.log[r.position], e);
    ToldOneIs(Capacity(r.db, e), r.log[r.position], e);
  }

  /** One message, as `Told` takes it. */
  function ToldOne(capacity: Option<int>, m: Message, e: EventId): Option<int> {
    if m.About(e) && m.Created? == capacity.None? then Some(m.seats) else capacity
  }

  lemma ToldOneIs(capacity: Option<int>, m: Message, e: EventId)
    ensures Told(capacity, [m], e) == ToldOne(capacity, m, e)
  {
    assert Told(capacity, [m][..0], e) == capacity;
  }

  lemma SameLatest(log: seq<Message>, p: nat, e: EventId)
    requires p < |log| && !log[p].About(e)
    ensures Latest(log[..p + 1], e) == Latest(log[..p], e)
  {
    assert log[..p + 1][..p] == log[..p];
  }

  /** A message about `e`: an update is followed from here on, a creation was followed already. */
  lemma AboutFollows(log: seq<Message>, capacity: Option<int>, p: nat, j: nat, e: EventId) returns (j': nat)
    requires p <= j <= |log| && p < |log| && log[p].About(e) && Orderly(log, e) && capacity == Latest(log[..j], e)
    ensures p + 1 <= j' <= |log| && (j' == j || j' == p + 1) && ToldOne(capacity, log[p], e) == Latest(log[..j'], e)
  {
    assert log[..p + 1][..p] == log[..p];
    assert log[p].Created? <==> Latest(log[..p], e).None?;
    j' := if j == p || log[p].Updated? then p + 1 else j;
    if j != p { RowIsThere(log, p, j, e); }
  }

  lemma RowIsThere(log: seq<Message>, p: nat, j: nat, e: EventId)
    requires p < j <= |log| && log[p].About(e)
    ensures Latest(log[..j], e).Some?
  {
    assert log[..p + 1][..p] == log[..p];
    LatestGrows(log, p + 1, j, e);
  }

  lemma {:induction false} RunFollows(steps: seq<Step>, e: EventId) returns (j: nat)
    requires Calm(steps, e) && Orderly(Run(START, steps).log, e)
    ensures Follows(Run(START, steps), e, j)
  {
    if steps == [] {
      j := 0;
    } else {
      var before, last := steps[..|steps| - 1], steps[|steps| - 1];
      var r, r' := Run(START, before), Run(START, steps);
      assert r.log == r'.log[..|r.log|];
      OrderlyPrefix(r'.log, |r.log|, e);
      OffsetsHold(before);
      j := RunFollows(before, e);
      match last
      case Publish(m) => assert r'.log[..j] == r.log[..j];
      case Deliver(fault) => if r.position < |r.log| { j := DeliverFollows(r, fault, e, j); }
      case Restart =>
      case Elsewhere(op) => if !op.Initialize? && !op.Adjust? { OthersKeepCapacity(r.db, op, e); }
    }
  }

  /** Convergence. Whatever crashes, rewinds, failed offset commits and other calls a run holds, as long
    * as no handler raises over a message about `e`: at every moment the capacity is one published between the
    * position and the furthest delivery, so it is the last of those delivered whenever the consumer has caught up with
    * its own past, and the last published once the log is drained. */
  lemma Converges(steps: seq<Step>, e: EventId)
    requires Calm(steps, e) && Orderly(Run(START, steps).log, e)
    ensures var r := Run(START, steps);
            && Offsets(r)
            && (r.position == r.high ==> Capacity(r.db, e) == Latest(r.log[..r.position], e))
            && (r.position == |r.log| ==> Capacity(r.db, e) == Latest(r.log, e))
  {
    OffsetsHold(steps);
    var j := RunFollows(steps, e);
    CaughtUp(Run(START, steps), e, j);
  }

  lemma CaughtUp(r: Replica, e: EventId, j: nat)
    requires Offsets(r) && Follows(r, e, j)
    ensures r.position == r.high ==> Capacity(r.db, e) == Latest(r.log[..r.position], e)
    ensures r.position == |r.log| ==> Capacity(r.db, e) == Latest(r.log, e)
  {
    assert r.log[..|r.log|] == r.log;
  }

  // ----- handler faults -----

  /** A capacity is always one that was published for its event. */
  lemma {:induction false} NeverInvented(steps: seq<Step>, e: EventId) returns (i: nat)
    ensures var r := Run(START, steps);
            Capacity(r.db, e).Some? ==>
              i < |r.log| && r.log[i].About(e) && Capacity(r.db, e) == Some(r.log[i].seats)
  {
    i := 0;
    if steps != [] {
      var before, last := steps[..|steps| - 1], steps[|steps| - 1];
      var r := Run(START, before);
      i := NeverInvented(before, e);
      match last
      case Deliver(fault) =>
        if r.position < |r.log| {
          HandlerTells(r.db, r.log[r.position], e);
          assert [r.log[r.position]][..0] == [];
          if Capacity(Exec(r, last).db, e) != Capacity(r.db, e) { i := r.position; }
        }
      case Elsewhere(op) => if !op.Initialize? && !op.Adjust? { OthersKeepCapacity(r.db, op, e); }
      case _ =>
    }
  }

  /** Every offset below the position was handled or skipped, and the commit was made by a handled one. */
  predicate Accounted(r: Replica) {
    && (forall i :: 0 <= i < r.position ==> i in r.done || i in r.skipped)
    && (r.committed > 0 ==> r.committed - 1 in r.done)
  }

  lemma DeliverAccounted(r: Replica, fault: Fault)
    requires Accounted(r) && r.position < |r.log|
    ensures Accounted(Processed(r, fault))
  {
  }

  /** At-least-once, as far as it goes: what lies below the position, and so below the committed offset, has
    * been handled at least once or was skipped. */
  lemma {:induction false} AtLeastOnceOrSkipped(steps: seq<Step>)
    ensures Offsets(Run(START, steps)) && Accounted(Run(START, steps))
  {
    OffsetsHold(steps);
    if steps != [] {
      var before, last := steps[..|steps| - 1], steps[|steps| - 1];
      AtLeastOnceOrSkipped(before);
      var r := Run(START, before);
      if last.Deliver? && r.position < |r.log| { DeliverAccounted(r, last.fault); }
    }
  }

  /** A restart followed by `n` deliveries that meet no fault. */
  function Redelivered(r: Replica, n: nat): Replica {
    if n == 0 then Exec(r, Restart) else Exec(Redelivered(r, n - 1), Deliver(NoFault))
  }

  lemma {:induction false} RecoveryTells(r: Replica, n: nat, e: EventId)
    requires r.committed + n <= |r.log|
    ensures Reread(r, Redelivered(r, n), n, e)
  {
    if n == 0 {
      assert r.log[r.committed..r.committed] == [];
    } else {
      RecoveryTells(r, n - 1, e);
      DeliveryExtends(r, Redelivered(r, n - 1), n - 1, e);
    }
  }

  /** `r'` has been told the `n` messages of `r` from its committed offset on. */
  ghost predicate Reread(r: Replica, r': Replica, n: nat, e: EventId)
    requires r.committed + n <= |r.log|
  {
    && r'.log == r.log && r'.position == r.committed + n
    && Capacity(r'.db, e) == Told(Capacity(r.db, e), r.log[r.committed..r.committed + n], e)
  }

  lemma DeliveryExtends(r: Replica, r': Replica, n: nat, e: EventId)
    requires r.committed + n < |r.log| && Reread(r, r', n, e)
    ensures Reread(r, Exec(r', Deliver(NoFault)), n + 1, e)
  {
    var c, m := r.committed, r.log[r.committed + n];
    DeliveryTells(r', e);
    ToldConcat(Capacity(r.db, e), r.log[c..c + n], [m], e);
    assert r.log[c..c + n] + [m] == r.log[c..c + n + 1];
  }

  function RecoverySteps(n: nat): seq<Step> {
    if n == 0 then [Restart] else RecoverySteps(n - 1) + [Deliver(NoFault)]
  }

  /** It is a continuation of the run so far. */
  lemma {:induction false} RedeliveredIsRun(steps: seq<Step>, n: nat)
    ensures Run(START, steps + RecoverySteps(n)) == Redelivered(Run(START, steps), n)
  {
    if n == 0 {
      RunOneMore(steps, Restart);
    } else {
      RedeliveredIsRun(steps, n - 1);
      Longer(steps, RecoverySteps(n - 1), Deliver(NoFault));
    }
  }

  lemma Longer(steps: seq<Step>, fewer: seq<Step>, step: Step)
    ensures Run(START, steps + (fewer + [step])) == Exec(Run(START, steps + fewer), step)
  {
    RunOneMore(steps + fewer, step);
    assert steps + (fewer + [step]) == steps + fewer + [step];
  }

  lemma RunOneMore(steps: seq<Step>, step: Step)
    ensures Run(START, steps + [step]) == Exec(Run(START, steps), step)
  {
    assert (steps + [step])[..|steps|] == steps;
  }

  lemma DeliveryTells(r: Replica, e: EventId)
    requires r.position < |r.log|
    ensures var r' := Exec(r, Deliver(NoFault));
            && r'.log == r.log && r'.position == r.position + 1
            && Capacity(r'.db, e) == Told(Capacity(r.db, e), [r.log[r.position]], e)
  {
    HandlerTells(r.db, r.log[r.position], e);
  }

  predicate Mentioned(log: seq<Message>, e: EventId) { exists i :: 0 <= i < |log| && log[i].About(e) }

  predicate CreatedIn(log: seq<Message>,
                      e: EventId) { exists i :: 0 <= i < |log| && log[i].About(e) && log[i].Created? }

  lemma {:induction false} LatestIffMentioned(log: seq<Message>, e: EventId)
    ensures Latest(log, e).Some? <==> Mentioned(log, e)
  {
    if log != [] {
      LatestIffMentioned(log[..|log| - 1], e);
      if Mentioned(log, e) && !log[|log| - 1].About(e) {
        var i :| 0 <= i < |log| && log[i].About(e);
        assert log[..|log| - 1][i].About(e);
      }
    }
  }

  /** A row that is there takes the last update it is told of. */
  lemma {:induction false} ToldSome(x: int, log: seq<Message>, e: EventId)
    requires !CreatedIn(log, e)
    ensures Told(Some(x), log, e) == if Latest(log, e).Some? then Latest(log, e) else Some(x)
    ensures Told(None, log, e) == None
  {
    if log != [] {
      var before := log[..|log| - 1];
      assert forall i :: 0 <= i < |before| ==> before[i] == log[i];
      ToldSome(x, log[..|log| - 1], e);
      assert !log[|log| - 1].About(e) || !log[|log| - 1].Created?;
    }
  }

  /** A creation at or after `c` is the first message about `e` in the whole log. */
  lemma CreatedLate(log: seq<Message>, c: nat, e: EventId)
    requires c <= |log| && Orderly(log, e) && CreatedIn(log[c..], e)
    ensures Latest(log[..c], e) == None && Orderly(log[c..], e) && Latest(log, e) == Latest(log[c..], e)
  {
    var rest := log[c..];
    var i :| 0 <= i < |rest| && rest[i].About(e) && rest[i].Created?;
    assert log[c + i] == rest[i];
    assert Latest(log[..c + i], e).None?;
    if Latest(log[..c], e).Some? { LatestGrows(log, c, c + i, e); }
    assert log == log[..c] + rest;
    ToldConcat(None, log[..c], rest, e);
    OrderlySuffix(log, c, e);
  }

  lemma OrderlySuffix(log: seq<Message>, c: nat, e: EventId)
    requires c <= |log| && Orderly(log, e) && Latest(log[..c], e).None?
    ensures Orderly(log[c..], e)
  {
    forall k | 0 <= k < |log[c..]| && log[c..][k].About(e)
      ensures log[c..][k].Created? <==> Latest(log[c..][..k], e).None?
    {
      assert log[..c + k] == log[..c] + log[c..][..k];
      ToldConcat(None, log[..c], log[c..][..k], e);
    }
  }

  /** Starting with a row, being told of an orderly log that begins with the creation ends at the same
    * place as starting without, or leaves the row alone because there was nothing but the creation. */
  lemma {:induction false} ToldAgain(x: int, log: seq<Message>, e: EventId)
    requires Orderly(log, e) && CreatedIn(log, e)
    ensures Told(Some(x), log, e) == Latest(log, e) || (Told(Some(x), log, e) == Some(x) && OnlyCreation(log, e))
  {
    var before, m := log[..|log| - 1], log[|log| - 1];
    OrderlyPrefix(log, |log| - 1, e);
    LatestIffMentioned(before, e);
    if m.About(e) {
      if m.Created? {
        assert forall i :: 0 <= i < |before| ==> before[i] == log[i];
        assert !CreatedIn(before, e);
        ToldSome(x, before, e);
      } else {
        ToldIsSome(x, before, e);
      }
    } else {
      var i :| 0 <= i < |log| && log[i].About(e) && log[i].Created?;
      assert before[i].About(e);
      ToldAgain(x, before, e);
    }
  }

  lemma {:induction false} ToldIsSome(x: int, log: seq<Message>, e: EventId)
    ensures Told(Some(x), log, e).Some?
  {
    if log != [] { ToldIsSome(x, log[..|log| - 1], e); }
  }

  predicate OnlyCreation(log: seq<Message>, e: EventId) {
    forall i :: 0 <= i < |log| && log[i].About(e) ==> log[i].Created?
  }

  /** A capacity that is out of date catches up with `rest` just when it is told of the creation, or the
    * row exists and it is told of anything. */
  lemma ToldIff(log: seq<Message>, c: nat, capacity: Option<int>, i: nat, e: EventId)
    requires c <= |log| && Orderly(log, e)
    requires capacity.Some? ==> i < |log| && log[i].About(e) && capacity == Some(log[i].seats)
    ensures Told(capacity, log[c..], e) == Latest(log, e) <==> CatchesUp(log, c, capacity, e)
  {
    var rest := log[c..];
    assert log == log[..c] + rest;
    ToldConcat(None, log[..c], rest, e);
    LatestIffMentioned(rest, e);
    if CreatedIn(rest, e) {
      CreatedLate(log, c, e);
      OnePass(rest, e);
      if capacity.Some? {
        ToldAgain(capacity.value, rest, e);
        PublishedOnce(log, c, i, e);
      }
    } else {
      ToldSome(if capacity.Some? then capacity.value else 0, rest, e);
    }
  }

  predicate CatchesUp(log: seq<Message>, c: nat, capacity: Option<int>, e: EventId)
    requires c <= |log|
  {
    capacity == Latest(log, e) || CreatedIn(log[c..], e) || (capacity.Some? && Mentioned(log[c..], e))
  }

  /** A restart and then the whole log from the committed offset, without a fault. */
  function Recovered(r: Replica): Replica
    requires Offsets(r)
  {
    Redelivered(r, |r.log| - r.committed)
  }

  lemma RecoveredTells(r: Replica, e: EventId)
    requires Offsets(r)
    ensures Recovered(r).position == |Recovered(r).log|
    ensures Capacity(Recovered(r).db, e) == Told(Capacity(r.db, e), r.log[r.committed..], e)
  {
    var n := |r.log| - r.committed;
    RecoveryTells(r, n, e);
    assert r.log[r.committed..r.committed + n] == r.log[r.committed..];
  }

  /** Recovery, exactly. After any run, with any handler faults, a restart and a drain without faults
    * brings the capacity to the last published seat count if and only if it already is there, or the
    * creation is still to be redelivered, or the row exists and anything about the event is. */
  lemma RecoversIff(steps: seq<Step>, e: EventId)
    requires Orderly(Run(START, steps).log, e)
    ensures Offsets(Run(START, steps))
    ensures var r := Run(START, steps);
            Capacity(Recovered(r).db, e) == Latest(r.log, e) <==> CatchesUp(r.log, r.committed, Capacity(r.db, e), e)
  {
    OffsetsHold(steps);
    var i := NeverInvented(steps, e);
    var r := Run(START, steps);
    RecoveredTells(r, e);
    ToldIff(r.log, r.committed, Capacity(r.db, e), i, e);
  }

  /** If nothing but the creation was published for `e`, that is the one seat count there is. */
  lemma PublishedOnce(log: seq<Message>, c: nat, i: nat, e: EventId)
    requires c <= |log| && i < |log| && log[i].About(e) && Latest(log[..c], e).None?
    ensures OnlyCreation(log[c..], e) && Orderly(log[c..], e) ==> Latest(log[c..], e) == Some(log[i].seats)
  {
    LatestIffMentioned(log[..c], e);
    assert forall k :: 0 <= k < c ==> log[..c][k] == log[k];
    if OnlyCreation(log[c..], e) && Orderly(log[c..], e) {
      SoleMessage(log[c..], i - c, e);
    }
  }

  lemma {:induction false} SoleMessage(log: seq<Message>, i: nat, e: EventId)
    requires i < |log| && log[i].About(e) && OnlyCreation(log, e) && Orderly(log, e)
    ensures Latest(log, e) == Some(log[i].seats)
  {
    var last := log[|log| - 1];
    if i < |log| - 1 {
      var before := log[..|log| - 1];
      OrderlyPrefix(log, |log| - 1, e);
      assert before[i].About(e);
      assert OnlyCreation(before, e);
      SoleMessage(before, i, e);
    }
  }

  /** A skipped message is forgotten once a later one is committed: if nothing about `e` lies at or after
    * the committed offset, and nothing new is published about it, no continuation changes its capacity. */
  lemma {:induction false} PassedForGood(r: Replica, more: seq<Step>, e: EventId)
    requires r.committed <= r.position <= |r.log| && !Mentioned(r.log[r.committed..], e)
    requires forall i :: 0 <= i < |more| && more[i].Publish? ==> !more[i].message.About(e)
    ensures var r' := Run(r, more);
            && r.committed <= r'.committed <= r'.position <= |r'.log|
            && !Mentioned(r'.log[r.committed..], e)
            && Capacity(r'.db, e) == Capacity(r.db, e)
  {
    if more != [] {
      var before, last := more[..|more| - 1], more[|more| - 1];
      PassedForGood(r, before, e);
      var r1 := Run(r, before);
      match last
      case Publish(m) =>
        assert (r1.log + [m])[r.committed..] == r1.log[r.committed..] + [m];
      case Deliver(fault) =>
        if r1.position < |r1.log| {
          var m := r1.log[r1.position];
          assert m == r1.log[r.committed..][r1.position - r.committed];
          HandlerTells(r1.db, m, e);
          assert [m][..0] == [];
        }
      case Restart =>
      case Elsewhere(op) => if !op.Initialize? && !op.Adjust? { OthersKeepCapacity(r1.db, op, e); }
    }
  }

  /** The consumer's class comment promises that a message whose handler raised is redelivered on restart.
    * Here an update is skipped, a later message is committed, and no continuation, however many restarts
    * it has, ever applies the update. */
  lemma SkippedUpdateIsLost(more: seq<Step>)
    requires forall i :: 0 <= i < |more| && more[i].Publish? ==> !more[i].message.About(0)
    ensures var r := Run(START, SKIPPING);
            Latest(r.log, 0) == Some(20) && Capacity(Run(r, more).db, 0) == Some(10)
  {
    SkippingRun();
    PassedForGood(Run(START, SKIPPING), more, 0);
  }

  const PUBLISHING := [Publish(Created(0, 10)), Publish(Updated(0, 20)), Publish(Created(1, 5))]
  const SKIPPING := PUBLISHING + [Deliver(NoFault), Deliver(Raises), Deliver(NoFault)]

  lemma SkippingRun()
    ensures var r := Run(START, SKIPPING);
            && r.log == [Created(0, 10), Updated(0, 20), Created(1, 5)] && r.committed == 3 && r.position == 3
            && Latest(r.log, 0) == Some(20) && Capacity(r.db, 0) == Some(10)
  {
    PublishingRun();
    var s4, s5 := PUBLISHING + [Deliver(NoFault)], PUBLISHING + [Deliver(NoFault), Deliver(Raises)];
    assert s4[..3] == PUBLISHING && s5[..4] == s4 && SKIPPING[..5] == s5;
    var r3 := Run(START, PUBLISHING);
    var r4 := Processed(r3, NoFault);
    assert Run(START, s4) == r4 && r4.db.rows == map[0 := Row(10, 0, 0, 1)];
    var r5 := Processed(r4, Raises);
    assert Run(START, s5) == r5;
    assert Run(START, SKIPPING) == Processed(r5, NoFault);
    assert r3.log[..2] == [r3.log[0], r3.log[1]];
  }

  lemma PublishingRun()
    ensures Run(START, PUBLISHING) == START.(log := [Created(0, 10), Updated(0, 20), Created(1, 5)])
  {
    var s1 := [Publish(Created(0, 10))];
    var s2 := s1 + [Publish(Updated(0, 20))];
    assert s1[..0] == [] && s2[..1] == s1 && PUBLISHING[..2] == s2;
    assert Run(START, s1).log == [Created(0, 10)];
    assert Run(START, s2).log == [Created(0, 10), Updated(0, 20)];
  }
}
