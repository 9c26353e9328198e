/** The Redis lease lock: set-if-absent with an expiry, compare-and-delete, bounded retry. */
module Lease {

  type Key = nat
  type Token = nat

  /** A stored key: who set it, and when Redis drops it. */
  datatype Entry = Entry(token: Token, until: int)

  /** A client inside its critical section, with the end of the lease it was granted. */
  datatype Visit = Visit(key: Key, until: int)

  /** `spent` are tokens that have left; every `acquire` call draws a fresh one. */
  datatype Locks = Locks(now: int, keys: map<Key, Entry>, inside: map<Token, Visit>, spent: set<Token>)

  datatype Step =
    | Try(token: Token, key: Key)   // SET key token NX PX ttl
    | Leave(token: Token)           // the compare-and-delete script
    | Drop(token: Token)            // the script call failed and the failure was only logged
    | Tick(elapsed: nat)

  /** Redis drops a key once the clock is past its time, not at it. */
  predicate Live(s: Locks, key: Key) { key in s.keys && s.now <= s.keys[key].until }

  function Exec(s: Locks, ttl: nat, step: Step): Locks {
    match step
    case Try(t, k) =>
      if t in s.inside || t in s.spent || Live(s, k) then s
      else s.(keys := s.keys[k := Entry(t, s.now + ttl)], inside := s.inside[t := Visit(k, s.now + ttl)])
    case Leave(t) =>
      if t !in s.inside then s
      else
        var k := s.inside[t].key;
        s.(keys := if Live(s, k) && s.keys[k].token == t then s.keys - {k} else s.keys,
           inside := s.inside - {t}, spent := s.spent + {t})
    case Drop(t) =>
      if t !in s.inside then s else s.(inside := s.inside - {t}, spent := s.spent + {t})
    case Tick(d) => s.(now := s.now + d)
  }

  function Run(s: Locks, ttl: nat, steps: seq<Step>): Locks {
    if steps == [] then s else Exec(Run(s, ttl, steps[..|steps| - 1]), ttl, steps[|steps| - 1])
  }

  /** A client within its lease is the one its key names. */
  ghost predicate Inv(s: Locks) {
    && (forall t :: t in s.inside && s.now <= s.inside[t].until ==>
          s.inside[t].key in s.keys && s.keys[s.inside[t].key] == Entry(t, s.inside[t].until))
    && (forall t :: t in s.inside ==> t !in s.spent)
    && (forall k :: k in s.keys ==> s.keys[k].token in s.inside || s.keys[k].token in s.spent)
  }

  lemma ExecKeepsInv(s: Locks, ttl: nat, step: Step)
    requires Inv(s)
    ensures Inv(Exec(s, ttl, step))
  {
  }

  lemma {:induction false} RunKeepsInv(s: Locks, ttl: nat, steps: seq<Step>)
    requires Inv(s)
    ensures Inv(Run(s, ttl, steps))
  {
    if steps != [] {
      RunKeepsInv(s, ttl, steps[..|steps| - 1]);
      ExecKeepsInv(Run(s, ttl, steps[..|steps| - 1]), ttl, steps[|steps| - 1]);
    }
  }

  /** Lease safety: over any schedule of tries, ticks, releases and failed releases, if two clients are
    * inside the critical section of one key then at least one has outlived its lease. */
  lemma AtMostOneWithinLease(now: int, ttl: nat, steps: seq<Step>, t: Token, u: Token)
    requires var s := Run(Locks(now, map[], map[], {}), ttl, steps);
             t in s.inside && u in s.inside && t != u && s.inside[t].key == s.inside[u].key
    ensures var s := Run(Locks(now, map[], map[], {}), ttl, steps);
            s.inside[t].until < s.now || s.inside[u].until < s.now
  {
    RunKeepsInv(Locks(now, map[], map[], {}), ttl, steps);
  }

  /** No release takes a lease away from anyone else: after another client's step, whoever was within
    * its lease still holds its key, unless it was the clock that ran the lease out. */
  lemma OthersKeepTheirLease(s: Locks, ttl: nat, step: Step, t: Token)
    requires Inv(s) && t in s.inside && s.now <= s.inside[t].until
    requires step.Leave? || step.Drop? ==> step.token != t
    ensures var s' := Exec(s, ttl, step);
            && t in s'.inside && s'.inside[t] == s.inside[t]
            && s'.keys[s.inside[t].key] == Entry(t, s.inside[t].until)
            && (Live(s', s.inside[t].key) <==> s'.now <= s.inside[t].until)
            && (s'.now > s.inside[t].until ==> step.Tick?)
  {
  }

  /** A stored key, whoever set it and even if that client has left, is only ever removed by a release with
    * its own token, and only replaced once its time is up. */
  lemma KeyStays(s: Locks, ttl: nat, step: Step, key: Key)
    requires key in s.keys
    ensures var s' := Exec(s, ttl, step);
            (key in s'.keys && s'.keys[key] == s.keys[key])
            || step == Leave(s.keys[key].token)
            || (step.Try? && step.key == key && s.keys[key].until < s.now)
  {
  }

  // ----- RedisLock -----

  /** `RedisLock`, with the shared Redis state and what the other clients do while this one waits. */
  class RedisLock {
    const ttl: nat
    const retryAttempts: int
    const retryDelay: nat
    var locks: Locks
    var elsewhere: seq<seq<Step>>
    ghost const began: Locks
    ghost var trace: seq<Step>      // every step since `began`, by anyone
    ghost var own: seq<Step>        // those of this client, in order

    ghost predicate Valid()
      reads this
    {
      Inv(locks) && locks == Run(began, ttl, trace)
    }

    constructor (locks: Locks, ttl: nat, retryAttempts: int, retryDelay: nat, elsewhere: seq<seq<Step>>)
      requires Inv(locks)
      ensures Valid() && this.locks == locks && this.ttl == ttl && this.retryAttempts == retryAttempts
      ensures this.retryDelay == retryDelay && this.elsewhere == elsewhere && trace == own == []
    {
      this.locks, this.ttl, this.elsewhere := locks, ttl, elsewhere;
      this.retryAttempts, this.retryDelay := retryAttempts, retryDelay;
      began, trace, own := locks, [], [];
    }

    /** One step of this client. */
    method Take(step: Step)
      requires Valid()
      modifies this`locks, this`trace, this`own
      ensures Valid() && locks == Exec(old(locks), ttl, step)
      ensures trace == old(trace) + [step] && own == old(own) + [step]
    {
      own := own + [step];
      Happen(step);
    }

    /** One step of whomever. */
    method Happen(step: Step)
      requires Valid()
      modifies this`locks, this`trace
      ensures Valid() && locks == Exec(old(locks), ttl, step) && trace == old(trace) + [step]
    {
      ExecKeepsInv(locks, ttl, step);
      locks := Exec(locks, ttl, step);
      trace := trace + [step];
      assert trace[..|trace| - 1] == old(trace);
    }

    /** Sleeping between tries, or doing the protected work: the others never use this client's token. */
    method Await(mine: Token)
      requires Valid()
      modifies this`locks, this`trace, this`elsewhere
      ensures Valid() && (mine in locks.inside <==> mine in old(locks.inside)) && old(trace) <= trace
      ensures mine in old(locks.inside) ==> locks.inside[mine] == old(locks.inside[mine])
      ensures (mine in locks.spent <==> mine in old(locks.spent)) && old(locks.now) <= locks.now
      ensures old(elsewhere) == [] ==> locks == old(locks) && elsewhere == []
    {
      if elsewhere == [] { return; }
      var steps := elsewhere[0];
      elsewhere := elsewhere[1..];
      for i := 0 to |steps|
        invariant Valid() && (mine in locks.inside <==> mine in old(locks.inside)) && old(trace) <= trace
        invariant mine in old(locks.inside) ==> locks.inside[mine] == old(locks.inside[mine])
        invariant (mine in locks.spent <==> mine in old(locks.spent)) && old(locks.now) <= locks.now
      {
        if steps[i].Tick? || steps[i].token != mine { Happen(steps[i]); }
      }
    }

    /** At each of these moments of the history, `key` was another client's live lease. */
    ghost predicate Refusals(history: seq<Step>, moments: seq<nat>, key: Key, token: Token) {
      && (forall i, j :: 0 <= i < j < |moments| ==> moments[i] < moments[j])
      && (forall i :: 0 <= i < |moments| ==> moments[i] < |history| && HeldByOther(history[..moments[i]], key, token))
    }

    ghost predicate HeldByOther(history: seq<Step>, key: Key, token: Token) {
      var s := Run(began, ttl, history);
      Live(s, key) && s.keys[key].token != token
    }

    lemma RefusalsKept(history: seq<Step>, longer: seq<Step>, moments: seq<nat>, key: Key, token: Token)
      requires history <= longer && Refusals(history, moments, key, token)
      ensures Refusals(longer, moments, key, token)
    {
      forall i | 0 <= i < |moments| ensures HeldByOther(longer[..moments[i]], key, token) {
        assert longer[..moments[i]] == history[..moments[i]];
      }
    }

    /** Enters the critical section of `key`, or gives up after `retryAttempts` tries, sleeping `retryDelay`
      * after every failed one. `refused` are the moments of the failed tries, each of which met another
      * client's live lease. */
    method Acquire(key: Key, token: Token) returns (acquired: bool, ghost refused: seq<nat>)
      requires Valid() && token !in locks.inside && token !in locks.spent
      modifies this
      ensures Valid() && token !in locks.spent && old(trace) <= trace
      ensures own == old(own) + Tries(key, token, retryDelay, |refused|) + if acquired then [Try(token, key)] else []
      ensures locks.now >= old(locks.now) + Slept(retryDelay, |refused|)
      ensures acquired ==> token in locks.inside && locks.inside[token] == Visit(key, locks.now + ttl)
                           && key in locks.keys && locks.keys[key] == Entry(token, locks.now + ttl)
                             && |refused| < retryAttempts
      ensures !Live(old(locks), key) && retryAttempts > 0 ==>
                acquired && locks == Exec(old(locks), ttl, Try(token, key))
      ensures !acquired ==> token !in locks.inside && |refused| == (if retryAttempts <= 0 then 0 else retryAttempts)
      ensures Refusals(trace, refused, key, token) && forall i :: 0 <= i < |refused| ==> |old(trace)| <= refused[i]
    {
      acquired, refused := false, [];
      var attempt := 0;
      while attempt < retryAttempts
        invariant Valid() && token !in locks.inside && token !in locks.spent
        invariant locks.now >= old(locks.now) + Slept(retryDelay, attempt)
        invariant own == old(own) + Tries(key, token, retryDelay, attempt)
        invariant old(trace) <= trace && 0 <= attempt == |refused| && (attempt <= retryAttempts || attempt == 0)
        invariant attempt == 0 ==> locks == old(locks)
        invariant attempt > 0 ==> Live(old(locks), key)
        invariant Refusals(trace, refused, key, token) && forall i :: 0 <= i < |refused| ==> |old(trace)| <= refused[i]
      {
        acquired, refused := Attempt(key, token, refused);
        if acquired { return; }
        attempt := attempt + 1;
      }
    }

    /** One try, and the sleep if it fails. */
    method Attempt(key: Key, token: Token, ghost before: seq<nat>) returns (acquired: bool, ghost refused: seq<nat>)
      requires Valid() && token !in locks.inside && token !in locks.spent && Refusals(trace, before, key, token)
      modifies this
      ensures Valid() && token !in locks.spent && old(trace) <= trace && Refusals(trace, refused, key, token)
      ensures acquired <==> !Live(old(locks), key)
      ensures acquired ==> (
        && locks == Exec(old(locks), ttl, Try(token, key)) && own == old(own) + [Try(token, key)] && refused == before
        && token in locks.inside && locks.inside[token] == Visit(key, locks.now + ttl)
        && key in locks.keys && locks.keys[key] == Entry(token, locks.now + ttl) && locks.now == old(locks.now))
      ensures !acquired ==> (
        && token !in locks.inside && refused == before + [|old(trace)|]
        && own == old(own) + [Try(token, key), Tick(retryDelay)] && locks.now >= old(locks.now) + retryDelay)
    {
      acquired, refused := TryOnce(key, token, before);
      if !acquired { Sleep(key, token, refused); }
    }

    /** The time that `n` sleeps take. */
    function Slept(delay: nat, n: nat): nat { if n == 0 then 0 else Slept(delay, n - 1) + delay }

    lemma {:induction false} SleptIs(delay: nat, n: nat)
      ensures Slept(delay, n) == n * delay
    {
      if n > 0 { SleptIs(delay, n - 1); }
    }

    /** What a client that is refused `n` times does. */
    function Tries(key: Key, token: Token, delay: nat, n: nat): seq<Step> {
      if n == 0 then [] else Tries(key, token, delay, n - 1) + [Try(token, key), Tick(delay)]
    }

    /** The sleep after a failed try, with everyone else at work. */
    method Sleep(key: Key, token: Token, ghost refused: seq<nat>)
      requires Valid() && token !in locks.inside && token !in locks.spent && Refusals(trace, refused, key, token)
      modifies this
      ensures Valid() && token !in locks.inside && token !in locks.spent && old(trace) <= trace
      ensures own == old(own) + [Tick(retryDelay)] && locks.now >= old(locks.now) + retryDelay
      ensures Refusals(trace, refused, key, token)
    {
      ghost var was := trace;
      Take(Tick(retryDelay));
      Await(token);
      RefusalsKept(was, trace, refused, key, token);
    }

    /** One SET NX PX. */
    method TryOnce(key: Key, token: Token, ghost before: seq<nat>) returns (acquired: bool, ghost refused: seq<nat>)
      requires Valid() && token !in locks.inside && token !in locks.spent && Refusals(trace, before, key, token)
      modifies this`locks, this`trace, this`own
      ensures Valid() && token !in locks.spent && locks.now == old(locks.now) && old(trace) <= trace
      ensures locks == Exec(old(locks), ttl, Try(token, key)) && own == old(own) + [Try(token, key)]
      ensures acquired <==> !Live(old(locks), key)
      ensures acquired ==> token in locks.inside && locks.inside[token] == Visit(key, locks.now + ttl)
                           && key in locks.keys && locks.keys[key] == Entry(token, locks.now + ttl) && refused == before
      ensures !acquired ==> token !in locks.inside && refused == before + [|old(trace)|]
      ensures Refusals(trace, refused, key, token)
    {
      ghost var was := trace;
      NotYetOwned(token, key);
      Take(Try(token, key));
      RefusalsKept(was, trace, before, key, token);
      acquired := token in locks.inside;
      refused := before;
      if !acquired {
        assert trace[..|was|] == was;
        refused := before + [|was|];
      }
    }

    /** A key held under a token of one's own means one is inside, or has been. */
    lemma NotYetOwned(token: Token, key: Key)
      requires Inv(locks) && token !in locks.inside && token !in locks.spent
      ensures key in locks.keys ==> locks.keys[key].token != token
    {
    }

    /** Leaves the critical section: deletes the key only if it still holds this client's token. A failure of
      * the script is swallowed, and the key stays until its time. */
    method Release(token: Token, scriptFails: bool)
      requires Valid() && token in locks.inside
      modifies this`locks, this`trace, this`own
      ensures Valid() && locks.now == old(locks.now)
      ensures own == old(own) + [if scriptFails then Drop(token) else Leave(token)]
      ensures locks.inside == old(locks.inside) - {token} && locks.spent == old(locks.spent) + {token}
      ensures var k := old(locks.inside[token].key);
              locks.keys == if !scriptFails && Live(old(locks), k) && old(locks.keys[k].token) == token
                            then old(locks.keys) - {k} else old(locks.keys)
      ensures forall u :: u in old(locks.inside) && u != token && locks.now <= old(locks.inside[u].until) ==>
                u in locks.inside && locks.inside[u] == old(locks.inside[u]) &&
                locks.inside[u].key in locks.keys && locks.keys[locks.inside[u].key] == Entry(u, locks.inside[u].until)
    {
      Take(if scriptFails then Drop(token) else Leave(token));
    }
  }
}
