/** What every concurrent run of the inventory database guarantees, from the empty database on and
  * over every interleaving of reads, flushes, commits and rollbacks. */
module EngineTheorems {
  import opened Inventory
  import opened CommitLog
  import opened Engine
  import opened Serialisability

  lemma StartInv()
    ensures Inv(START) && Traced(0, START.ended)
  {
  }

  // ----- the log is made of the committed transactions, and of nothing else -----

  predicate CommittedAt(how: Ending, i: int) {
    how.Committed? && how.at <= i < how.at + |how.ops|
  }

  predicate Owned(ended: map<TxId, Ending>, i: int) {
    exists t :: t in ended && CommittedAt(ended[t], i)
  }

  /** Each of the first `n` log entries belongs to exactly one transaction, one that ended in a commit. */
  ghost predicate Traced(n: nat, ended: map<TxId, Ending>) {
    && (forall i :: 0 <= i < n ==> Owned(ended, i))
    && (forall i, t, u :: t in ended && u in ended && CommittedAt(ended[t], i) && CommittedAt(ended[u], i) ==> t == u)
    && (forall t, i :: t in ended && CommittedAt(ended[t], i) ==> i < n)
  }

  lemma TracedAfter(n: nat, ended: map<TxId, Ending>, t: TxId, how: Ending, n': nat)
    requires Traced(n, ended) && t !in ended
    requires if how.Committed? then how.at == n && n' == n + |how.ops| else n' == n
    ensures Traced(n', ended[t := how])
  {
    var ended' := ended[t := how];
    forall i | 0 <= i < n' ensures Owned(ended', i) {
      if i < n {
        assert Owned(ended, i);
        var u :| u in ended && CommittedAt(ended[u], i);
        assert u in ended' && CommittedAt(ended'[u], i);
      } else {
        assert t in ended' && CommittedAt(ended'[t], i);
      }
    }
  }

  /** From `s` to `s'` transaction `t` ends, and only a commit grows the log. */
  predicate EndedAs(s: State, s': State, t: TxId, how: Ending) {
    && s'.ended == s.ended[t := how]
    && (if how.Committed? then how.at == |s.log| && |s'.log| == |s.log| + |how.ops| else s'.log == s.log)
  }

  /** A step ends at most one transaction. */
  lemma StepEnds(s: State, step: Step)
    requires EndsOk(s)
    ensures var s' := Exec(s, step);
            || (s'.ended == s.ended && s'.log == s.log)
            || (!step.Begin? && step.t !in s.ended && step.t in s'.ended && EndedAs(s, s', step.t, s'.ended[step.t]))
  {
  }

  /** Serialisability. However the sessions interleave, the tables are what the committed calls produce
    * when run one at a time in commit order, each taking effect; every log entry comes from one
    * committed transaction, so stale and rolled-back attempts leave no trace. */
  lemma {:induction false} Serialisable(steps: seq<Step>)
    ensures var s := Run(START, steps);
            Inv(s) && s.db == Replay(s.log) && Effective(EMPTY, s.log) && Traced(|s.log|, s.ended)
  {
    StartInv();
    if steps != [] {
      var before := steps[..|steps| - 1];
      Serialisable(before);
      var s, step := Run(START, before), steps[|steps| - 1];
      ExecKeepsInv(s, step);
      StepEnds(s, step);
      var s' := Exec(s, step);
      if s'.ended != s.ended { TracedAfter(|s.log|, s.ended, step.t, s'.ended[step.t], |s'.log|); }
    }
  }

  /** Conservation and safety in every reachable state: both counters are the sums over the reservation
    * table, and the seats taken never exceed the greatest capacity ever set. No lock is assumed. */
  lemma NoOversell(steps: seq<Step>, e: EventId)
    requires e in Run(START, steps).db.rows
    ensures var s := Run(START, steps);
            && s.db.rows[e].reserved == Seats(s.db, e, Pending) >= 0
            && s.db.rows[e].confirmed == Seats(s.db, e, Confirmed) >= 0
            && s.db.rows[e].Taken() <= Highest(s.log, e)
            && (NeverLowered(s.log, e) ==> s.db.rows[e].Available() >= 0)
  {
    var s := Run(START, steps);
    Serialisable(steps);
    ReplayConsistent(s.log);
    CountersNonNegative(s.db, e);
    TakenWithinHighest(s.log, e);
    if NeverLowered(s.log, e) { AvailableNeverNegative(s.log, e); }
  }

  /** What a transaction reports at its end is what its call does alone, at a moment within its
    * lifetime: a failed call fails on the state it read, a committed one writes on the state it
    * commits to, and a lost one really was overtaken by a commit on its event. */
  lemma OutcomesAreSequential(steps: seq<Step>, t: TxId)
    requires t in Run(START, steps).ended
    ensures var s := Run(START, steps);
            && EndOk(s.log, t, s.ended[t])
            && (s.ended[t].Committed? ==> Effective(Replay(s.log[..s.ended[t].at]), s.ended[t].ops))
  {
    var s := Run(START, steps);
    Serialisable(steps);
    assert EndOk(s.log, t, s.ended[t]);
    if s.ended[t].Committed? { CommittedEffective(s.log, s.ended[t].ops, s.ended[t].at); }
  }

  lemma CommittedEffective(log: seq<Op>, ops: seq<Op>, at: nat)
    requires Effective(EMPTY, log) && at + |ops| <= |log| && log[at..at + |ops|] == ops
    ensures Effective(Replay(log[..at]), ops)
  {
    EffectiveParts(EMPTY, log, at);
    EffectiveParts(Replay(log[..at]), log[at..], |ops|);
    assert log[at..][..|ops|] == ops;
  }

  lemma EffectiveParts(db: Store, log: seq<Op>, k: nat)
    requires k <= |log| && Effective(db, log)
    ensures Effective(db, log[..k]) && Effective(ReplayFrom(db, log[..k]), log[k..])
  {
    assert log == log[..k] + log[k..];
    ReplayConcat(db, log[..k], log[k..]);
  }

  /** The version column as a witness: while a session's expected version still matches, the event's
    * row and every one of its reservations are exactly what the session read. */
  lemma MatchingVersionMeansUnchanged(steps: seq<Step>, t: TxId, e: EventId)
    requires t in Run(START, steps).txs
    ensures var s := Run(START, steps);
            VersionAt(s.txs[t].snap, e) == VersionAt(s.db, e) ==> SameSlice(s.txs[t].snap, s.db, e)
  {
    var s := Run(START, steps);
    Serialisable(steps);
    assert Private(s.log, s.next, t, s.txs[t]) && Held(s.db, s.locks, t, s.txs[t]);
    VersionIsWitness(s.log, s.txs[t].start, e);
  }

  // ----- a stale flush means somebody else's commit -----

  /** The call at place `i` of the log writes event `e`. */
  predicate WritesAt(log: seq<Op>, i: nat, e: EventId)
    requires i < |log|
  {
    Apply(Replay(log[..i]), log[i]).Wrote? && Target(Replay(log[..i]), log[i]) == e
  }

  lemma {:induction false} RiseHasWrite(log: seq<Op>, start: nat, seen: nat, e: EventId) returns (i: nat)
    requires start <= seen <= |log| && Effective(EMPTY, log)
    requires VersionAt(Replay(log[..start]), e) < VersionAt(Replay(log[..seen]), e)
    ensures start <= i < seen && WritesAt(log, i, e)
  {
    LastWrite(log, seen, e);
    if WritesAt(log, seen - 1, e) {
      i := seen - 1;
    } else {
      i := RiseHasWrite(log, start, seen - 1, e);
    }
  }

  /** A call of the log either writes `e` or leaves its version alone. */
  lemma LastWrite(log: seq<Op>, k: nat, e: EventId)
    requires 0 < k <= |log| && Effective(EMPTY, log)
    ensures WritesAt(log, k - 1, e) || VersionAt(Replay(log[..k]), e) == VersionAt(Replay(log[..k - 1]), e)
  {
    EffectiveAt(log, k);
    ReplayConsistent(log[..k - 1]);
    WritesOneEvent(Replay(log[..k - 1]), log[k - 1], e);
  }

  lemma EffectiveAt(log: seq<Op>, k: nat)
    requires 0 < k <= |log| && Effective(EMPTY, log)
    ensures Apply(Replay(log[..k - 1]), log[k - 1]).Wrote? && Replay(log[..k]) == Next(Replay(log[..k - 1]), log[k - 1])
  {
    EffectiveParts(EMPTY, log, k);
    assert log[..k][..k - 1] == log[..k - 1];
  }

  ghost predicate Grown(s: State, s': State) {
    s.log <= s'.log && forall t :: t in s.ended ==> t in s'.ended && s'.ended[t] == s.ended[t]
  }

  lemma StepGrown(a: State, s: State, step: Step)
    requires Grown(a, s) && EndsOk(s)
    ensures Grown(a, Exec(s, step))
  {
    StepEnds(s, step);
    StepLogGrows(s, step);
  }

  lemma StepLogGrows(s: State, step: Step)
    ensures s.log <= Exec(s, step).log
  {
  }

  /** Histories only grow: what ended stays as it ended, what was logged stays in place. */
  lemma {:induction false} HistoryGrows(before: seq<Step>, after: seq<Step>)
    requires before <= after
    ensures Grown(Run(START, before), Run(START, after))
  {
    if before != after {
      var mid := after[..|after| - 1];
      HistoryGrows(before, mid);
      Serialisable(mid);
      StepGrown(Run(START, before), Run(START, mid), after[|after| - 1]);
    }
  }

  /** `u` committed a write of event `e` at a place of the log within `[start, seen)`. */
  predicate CommittedWithin(s: State, u: TxId, e: EventId, start: nat, seen: nat) {
    u in s.ended && s.ended[u].Committed? &&
    exists i :: start <= i < seen && i < |s.log| && CommittedAt(s.ended[u], i) && WritesAt(s.log, i, e)
  }

  /** One loser, one other winner: an attempt lost to a stale row was overtaken by a transaction that
    * committed a write of that row between the attempt's read and its flush, and that had not ended when
    * the attempt began. */
  lemma Overtaker(before: seq<Step>, after: seq<Step>, t: TxId, e: EventId, start: nat, seen: nat) returns (u: TxId)
    requires before <= after && t in Run(START, after).ended && Run(START, after).ended[t] == Lost(e, start, seen)
    requires |Run(START, before).log| <= start
    ensures CommittedWithin(Run(START, after), u, e, start, seen) && u !in Run(START, before).ended && u != t
  {
    Serialisable(before);
    Serialisable(after);
    HistoryGrows(before, after);
    var s, s' := Run(START, before), Run(START, after);
    assert EndOk(s'.log, t, s'.ended[t]);
    var i := RiseHasWrite(s'.log, start, seen, e);
    assert Owned(s'.ended, i);
    u :| u in s'.ended && CommittedAt(s'.ended[u], i);
    NotYet(|s.log|, s.ended, u, s'.ended[u], i);
  }

  lemma NotYet(n: nat, ended: map<TxId, Ending>, u: TxId, how: Ending, i: nat)
    requires Traced(n, ended) && i >= n && CommittedAt(how, i) && (u in ended ==> ended[u] == how)
    ensures u !in ended
  {
  }

  /** A confirm or release that found nothing to do still finds nothing to do at any later commit, so
    * sessions that end without writing are sequential at their commit point too. */
  lemma {:induction false} NothingToDoIsStable(log: seq<Op>, k: nat, op: Op)
    requires k <= |log| && (op.Confirm? || op.Release?) && Apply(Replay(log[..k]), op) == Unchanged
    ensures Apply(Replay(log), op) == Unchanged
  {
    if k == |log| {
      assert log[..k] == log;
    } else {
      var before := log[..|log| - 1];
      assert before[..k] == log[..k];
      NothingToDoIsStable(before, k, op);
      IdleKept(Replay(before), log[|log| - 1], op);
    }
  }

  lemma IdleKept(db: Store, other: Op, op: Op)
    requires (op.Confirm? || op.Release?) && Apply(db, op) == Unchanged
    ensures Apply(Next(db, other), op) == Unchanged
  {
  }

  lemma HoldKept(db: Store, op: Op, id: HoldId)
    requires id in db.holds
    ensures id in Next(db, op).holds && Reaches(db.holds[id].status, Next(db, op).holds[id].status)
    ensures Next(db, op).holds[id] == db.holds[id].(status := Next(db, op).holds[id].status)
  {
  }

  /** Along the log a reservation stays in the table with the event, order, quantity and expiry it was made
    * with, and its status only ever moves forward. */
  lemma {:induction false} ReservationStays(log: seq<Op>, k: nat, id: HoldId)
    requires k <= |log| && id in Replay(log[..k]).holds
    ensures id in Replay(log).holds && Reaches(Replay(log[..k]).holds[id].status, Replay(log).holds[id].status)
    ensures Replay(log).holds[id] == Replay(log[..k]).holds[id].(status := Replay(log).holds[id].status)
  {
    if k == |log| {
      assert log[..k] == log;
    } else {
      var before := log[..|log| - 1];
      assert before[..k] == log[..k];
      ReservationStays(before, k, id);
      HoldKept(Replay(before), log[|log| - 1], id);
    }
  }
}
