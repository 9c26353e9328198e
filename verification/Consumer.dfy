/** `BaseKafkaConsumer` with the event sync handler: deliver, handle, commit; log and go on when the
  * handler or the commit raises. `trace` records the whole run, so the theorems of `Replica` apply. */
module Consumer {
  import opened Wrappers
  import opened Inventory
  import opened Replica

  class BaseKafkaConsumer {
    var log: seq<Message>          // the partition
    var db: Store                  // the inventory service's tables
    var position: nat
    var committed: nat             // kept by the broker
    var stopping: bool
    ghost var high: nat
    ghost var done: set<nat>
    ghost var skipped: set<nat>
    ghost var trace: seq<Step>

    ghost function State(): Replica
      reads this
    {
      Replica(log, db, position, committed, high, done, skipped)
    }

    ghost predicate Valid()
      reads this
    {
      State() == Run(START, trace)
    }

    constructor ()
      ensures Valid() && State() == START && !stopping
    {
      log, db, position, committed, stopping := [], EMPTY, 0, 0, false;
      high, done, skipped, trace := 0, {}, {}, [];
    }

    /** One more step of the history, taken from `was`. */
    ghost method Record(step: Step, was: Replica)
      requires was == Run(START, trace) && State() == Exec(was, step)
      modifies this`trace
      ensures Valid() && trace == old(trace) + [step]
    {
      assert (trace + [step])[..|trace|] == trace;
      trace := trace + [step];
    }

    /** A message reaches the partition. */
    method Append(m: Message)
      requires Valid()
      modifies this`log, this`trace
      ensures Valid() && State() == Exec(old(State()), Publish(m))
    {
      ghost var was := State();
      log := log + [m];
      Record(Publish(m), was);
    }

    /** `_handle_message`: writes the capacity, and says whether it returned. */
    method HandleMessage(m: Message, fault: Fault) returns (returned: bool)
      modifies this`db
      ensures returned <==> !fault.Raises? && !Handled(old(db), m).Raised?
      ensures db == if returned && Handled(old(db), m).Wrote? then Handled(old(db), m).store else old(db)
    {
      if fault.Raises? { return false; }
      match m
      case Created(e, seats) =>
        if e !in db.rows { db := db.(rows := db.rows[e := Row(seats, 0, 0, 1)]); }
        return true;
      case Updated(e, seats) =>
        if e !in db.rows { return false; }
        var row := db.rows[e];
        if row.capacity != seats {
          row := row.(capacity := seats, version := row.version + 1);
          db := db.(rows := db.rows[e := row]);
        }
        return true;
      case Unrecognised =>
        return true;
    }

    /** `_process`, for the message at the position. */
    method Process(fault: Fault)
      requires Valid() && position < |log|
      modifies this
      ensures Valid() && State() == Exec(old(State()), Deliver(fault)) && position == old(position) + 1
      ensures log == old(log)
      ensures stopping == old(stopping) && trace == old(trace) + [Deliver(fault)]
    {
      ghost var was := State();
      ProcessedIs(was, fault);
      var offset := position;
      position := position + 1;
      high := if high < position then position else high;
      var returned := HandleMessage(log[offset], fault);
      if returned {
        if !fault.CommitFails? { committed := position; }
        done := done + {offset};
      } else {
        skipped := skipped + {offset};
      }
      Record(Deliver(fault), was);
    }

    /** `Processed`, by what the handler did. */
    lemma ProcessedIs(r: Replica, fault: Fault)
      requires r.position < |r.log|
      ensures var outcome, p := Handled(r.db, r.log[r.position]), r.position + 1;
              var returned := !fault.Raises? && !outcome.Raised?;
              Processed(r, fault) == Replica(
                r.log, if returned && outcome.Wrote? then outcome.store else r.db, p,
                if returned && !fault.CommitFails? then p else r.committed, if r.high < p then p else r.high,
                if returned then r.done + {r.position} else r.done,
                if returned then r.skipped else r.skipped + {r.position})
    {
    }

    /** What the capacity of `e` will be once this consumer has read on with no fault. */
    ghost function Heading(e: EventId): Option<int>
      reads this
      requires position <= |log|
    {
      Told(Capacity(db, e), log[position..], e)
    }

    lemma HeadingKept(r: Replica, r': Replica, e: EventId)
      requires r.position < |r.log| && r' == Exec(r, Deliver(NoFault))
      ensures Told(Capacity(r'.db, e), r'.log[r'.position..], e) == Told(Capacity(r.db, e), r.log[r.position..], e)
    {
      var m := r.log[r.position];
      HandlerTells(r.db, m, e);
      assert r.log[r.position..] == [m] + r.log[r.position + 1..];
      ToldConcat(Capacity(r.db, e), [m], r.log[r.position + 1..], e);
    }

    /** One round of the loop: without a fault it changes nothing of where the capacities are heading. */
    method ProcessNext(fault: Fault)
      requires Valid() && position < |log|
      modifies this
      ensures Valid() && position == old(position) + 1 && log == old(log) && stopping == old(stopping)
      ensures trace == old(trace) + [Deliver(fault)]
      ensures fault == NoFault ==> forall e :: Heading(e) == Told(Capacity(old(db), e), log[old(position)..], e)
    {
      ghost var r := State();
      Process(fault);
      if fault == NoFault { forall e { HeadingKept(r, State(), e); } }
    }

    /** What goes wrong with the `i`-th message of a call. */
    function FaultAt(faults: seq<Fault>, i: nat): Fault { if i < |faults| then faults[i] else NoFault }

    /** The steps of a call that reads `n` messages. */
    function Deliveries(faults: seq<Fault>, n: nat): (steps: seq<Step>)
      ensures |steps| == n && forall i :: 0 <= i < n ==> steps[i] == Deliver(FaultAt(faults, i))
    {
      if n == 0 then [] else Deliveries(faults, n - 1) + [Deliver(FaultAt(faults, n - 1))]
    }

    /** `run`, up to the moment `stop` is called, after `stopAfter` messages. The message fetched when the
      * flag is seen is not processed; the others are, each once and in order. Without faults the capacities
      * are those of one pass over what was read; with a drained log and a calm past they are the last published. */
    method Consume(faults: seq<Fault>, stopAfter: nat)
      requires Valid() && !stopping
      modifies this
      ensures Valid() && log == old(log) && position <= |log| && committed <= position
      ensures position == (if old(position) + stopAfter < |log| then old(position) + stopAfter else |log|)
      ensures stopping <==> old(position) + stopAfter <= |log|
      ensures old(position) <= |log| && trace == old(trace) + Deliveries(faults, position - old(position))
      ensures faults == [] ==> forall e :: Heading(e) == Told(Capacity(old(db), e), log[old(position)..], e)
      ensures forall e :: Calm(trace, e) && Orderly(log, e) && position == |log| ==> Capacity(db, e) == Latest(log, e)
    {
      OffsetsHold(trace);
      ghost var start, was, past := position, db, trace;
      var n := 0;
      stopping := stopAfter == 0;
      while !stopping && position < |log|
        invariant Valid() && log == old(log) && start <= position <= |log| && n == position - start <= stopAfter
        invariant stopping <==> n == stopAfter
        invariant trace == past + Deliveries(faults, n)
        invariant faults == [] ==> forall e :: Heading(e) == Told(Capacity(was, e), log[start..], e)
        decreases |log| - position
      {
        ProcessNext(FaultAt(faults, n));
        n := n + 1;
        stopping := n == stopAfter;
      }
      OffsetsHold(trace);
      forall e | Calm(trace, e) && Orderly(log, e) && position == |log| ensures Capacity(db, e) == Latest(log, e) {
        Converges(trace, e);
      }
    }

    /** The process dies and another takes over at the committed offset. */
    method Recover()
      requires Valid()
      modifies this
      ensures Valid() && State() == Exec(old(State()), Restart) && !stopping
    {
      ghost var was := State();
      position, stopping := committed, false;
      Record(Restart, was);
    }
  }
}
