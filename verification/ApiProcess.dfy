/** The API service's handlers as the source writes them: read, call the inventory service, store,
  * publish, with everyone else acting at each await. `trace` records the whole run, so the theorems on
  * runs of `Orders` apply to every state these methods pass through. */
module ApiProcess {
  import opened Inventory
  import opened Orders
  import opened OrderInvariants

  /** Whether a step is one of task `k`'s own, or its crash. */
  predicate Of(step: Step, k: TaskId) {
    match step
    case CallReserve(j, _) => j == k
    case Insert(j) => j == k
    case Announce(j) => j == k
    case CallSettle(j) => j == k
    case StoreSettled(j) => j == k
    case Issue(j) => j == k
    case CallRelease(j) => j == k
    case StoreCancelled(j) => j == k
    case PublishExpired(j) => j == k
    case StoreLapsed(j) => j == k
    case Crash(j) => j == k
    case _ => false
  }

  lemma GrowsTransitive(a: World, b: World, c: World)
    requires Grows(a, b) && Grows(b, c)
    ensures Grows(a, c)
  {
  }

  lemma GrowsReflexive(w: World)
    ensures Grows(w, w)
  {
  }

  /** A handler that starts is a new one. */
  lemma StartTask(w: World, step: Step, k: TaskId)
    requires Starts(step) && k < w.next
    ensures k in Exec(w, step).tasks <==> k in w.tasks
    ensures k in w.tasks ==> Exec(w, step).tasks[k] == w.tasks[k]
  {
  }

  predicate Starts(step: Step) {
    step.StartBooking? || step.StartPayment? || step.StartCancel? || step.StartLapse? || step.Sweep?
  }

  predicate Calls(step: Step) {
    step.CallReserve? || step.CallSettle? || step.CallRelease? || step.Insert? || step.Stock?
  }

  lemma CallTask(w: World, step: Step, k: TaskId)
    requires !Of(step, k) && Calls(step)
    ensures k in Exec(w, step).tasks <==> k in w.tasks
    ensures k in w.tasks ==> Exec(w, step).tasks[k] == w.tasks[k]
  {
  }

  lemma OtherTask(w: World, step: Step, k: TaskId)
    requires !Of(step, k) && !Starts(step) && !Calls(step)
    ensures k in Exec(w, step).tasks <==> k in w.tasks
    ensures k in w.tasks ==> Exec(w, step).tasks[k] == w.tasks[k]
  {
  }

  lemma ForeignTask(w: World, step: Step, k: TaskId)
    requires !Of(step, k) && k < w.next
    ensures k in Exec(w, step).tasks <==> k in w.tasks
    ensures k in w.tasks ==> Exec(w, step).tasks[k] == w.tasks[k]
  {
    if Starts(step) {
      StartTask(w, step, k);
    } else if Calls(step) {
      CallTask(w, step, k);
    } else {
      OtherTask(w, step, k);
    }
  }

  lemma StepMail(w: World, step: Step)
    ensures w.mail <= Exec(w, step).mail && w.issued <= Exec(w, step).issued && w.next <= Exec(w, step).next
  {
  }

  lemma InsertOrders(w: World, k: TaskId)
    requires TasksOk(w)
    ensures Kept(w.orders, Exec(w, Insert(k)).orders)
  {
    if k in w.tasks { assert TaskOk(w.db, w.orders, k, w.tasks[k]); }
  }

  /** Apart from an insert, a step changes at most the status of orders. */
  lemma StatusOrders(w: World, step: Step)
    requires !step.Insert?
    ensures Kept(w.orders, Exec(w, step).orders)
  {
  }

  lemma StepStore(w: World, step: Step)
    requires LogOk(w)
    ensures Later(w.db, Exec(w, step).db)
  {
    match step
    case Stock(e, c, create) => CallLater(w.db, if create then Initialize(e, c) else Adjust(e, c));
    case Sweep(page, now) => if Sweepable(w.db, page, now) { SweepMeans(w, page, now); }
    case CallReserve(k, grant) =>
      if k in w.tasks && w.tasks[k].Reserving? {
        CallLater(w.db, Reserve(w.tasks[k].event, grant.hold, k, w.tasks[k].quantity, grant.expiresAt));
      }
    case CallSettle(k) => SettleStore(w, k);
    case CallRelease(k) => DropStore(w, k);
    case _ => SameStore(w, step);
  }

  lemma SettleStore(w: World, k: TaskId)
    ensures Later(w.db, Exec(w, CallSettle(k)).db)
  {
    if k in w.tasks && w.tasks[k].Paying? && w.tasks[k].order in w.orders {
      var id := w.orders[w.tasks[k].order].hold;
      CallLater(w.db, if w.tasks[k].success then Confirm(id) else Release(id, false));
    }
  }

  lemma DropStore(w: World, k: TaskId)
    ensures Later(w.db, Exec(w, CallRelease(k)).db)
  {
    if k in w.tasks && w.tasks[k].Cancelling? && w.tasks[k].order in w.orders {
      CallLater(w.db, Release(w.orders[w.tasks[k].order].hold, false));
    }
  }

  lemma SameStore(w: World, step: Step)
    requires !step.Stock? && !step.Sweep? && !step.CallReserve? && !step.CallSettle? && !step.CallRelease?
    ensures Exec(w, step).db == w.db
  {
  }

  lemma StepGrows(w: World, step: Step)
    requires Inv(w)
    ensures Grows(w, Exec(w, step)) && w.mail <= Exec(w, step).mail && w.issued <= Exec(w, step).issued
  {
    StepStore(w, step);
    if step.Insert? { InsertOrders(w, step.k); } else { StatusOrders(w, step); }
    StepMail(w, step);
  }

  class Process {
    var world: World
    var elsewhere: seq<seq<Step>>   // what everyone else does at this handler's awaits, in turn
    ghost var trace: seq<Step>      // all steps taken so far, by anyone
    ghost var own: seq<Step>        // those of this process, in order

    ghost predicate Valid()
      reads this
    {
      world == Run(START, trace)
    }

    constructor (world: World, ghost history: seq<Step>, elsewhere: seq<seq<Step>>)
      requires world == Run(START, history)
      ensures Valid() && this.world == world && this.elsewhere == elsewhere && trace == history && own == []
    {
      this.world, this.elsewhere, trace, own := world, elsewhere, history, [];
    }

    /** The world after the first `moment` steps. */
    ghost function At(moment: nat): World
      reads this
      requires moment <= |trace|
    {
      Run(START, trace[..moment])
    }

    /** One step of this process. `since` is any earlier world the caller still wants to speak of. */
    method Take(step: Step, ghost since: World)
      requires Valid() && Grows(since, world)
      modifies this`world, this`trace, this`own
      ensures Valid() && world == Exec(old(world), step) && Grows(since, world) && old(world.next) <= world.next
      ensures old(world.mail) <= world.mail && old(world.issued) <= world.issued
      ensures trace == old(trace) + [step] && own == old(own) + [step]
    {
      own := own + [step];
      Happen(step, since);
    }

    /** One step of whomever. */
    method Happen(step: Step, ghost since: World)
      requires Valid() && Grows(since, world)
      modifies this`world, this`trace
      ensures Valid() && world == Exec(old(world), step) && Grows(since, world) && old(world.next) <= world.next
      ensures old(world.mail) <= world.mail && old(world.issued) <= world.issued
      ensures trace == old(trace) + [step]
    {
      Reachable(trace);
      StepGrows(world, step);
      GrowsTransitive(since, world, Exec(world, step));
      world := Exec(world, step);
      trace := trace + [step];
      assert trace[..|trace| - 1] == old(trace);
    }

    /** The first read of a handler, at `moment`. */
    method Look() returns (ghost moment: nat)
      requires Valid()
      modifies this`world, this`trace, this`elsewhere
      ensures Valid() && Grows(old(world), world) && old(world.mail) <= world.mail && old(world.issued) <= world.issued
      ensures old(trace) <= trace && moment == |trace| && At(moment) == world
      ensures old(elsewhere) == [] ==> world == old(world) && elsewhere == []
    {
      GrowsReflexive(world);
      Await(world.next, world);
      moment := |trace|;
      assert trace[..moment] == trace;
    }

    /** Everyone else acts; this process's task `k`, if it has one, is as it left it. */
    method Await(k: TaskId, ghost since: World)
      requires Valid() && Grows(since, world)
      modifies this`world, this`trace, this`elsewhere
      ensures Valid() && Grows(since, world) && old(world.next) <= world.next
      ensures old(world.mail) <= world.mail && old(world.issued) <= world.issued && old(trace) <= trace
      ensures k < old(world.next) && k in old(world.tasks) ==>
                k in world.tasks && world.tasks[k] == old(world.tasks[k])
                  && TaskOk(world.db, world.orders, k, world.tasks[k])
      ensures old(elsewhere) == [] ==> world == old(world) && elsewhere == []
    {
      if elsewhere != [] {
        var steps := elsewhere[0];
        elsewhere := elsewhere[1..];
        for i := 0 to |steps|
          invariant Valid() && Grows(since, world) && old(world.next) <= world.next
          invariant old(world.mail) <= world.mail && old(world.issued) <= world.issued && old(trace) <= trace
          invariant k < old(world.next) && k in old(world.tasks) ==>
              k in world.tasks && world.tasks[k] == old(world.tasks[k])
        {
          if !Of(steps[i], k) {
            if k < world.next { ForeignTask(world, steps[i], k); }
            Happen(steps[i], since);
          }
        }
      }
      Reachable(trace);
    }
  }
}
