/** `RedisRateLimitMiddleware`: one counter per client and wall-clock minute, created by its first INCR
  * and given 60 seconds to live by a separate EXPIRE, which comes later or, after a crash, never.
  * The clock read that picks the minute comes before the INCR, and time may pass between the two. */
module RateLimit {
  import opened Wrappers

  type Id = string

  datatype Key = Key(id: Id, window: int)

  /** `mark` is when the counter's EXPIRE took effect; without one the counter never runs out. */
  datatype Entry = Entry(count: nat, mark: Option<real>)

  const LIFE := 60.0

  /** One counted request: its clock reading, when the INCR took effect, the INCR's reply, and the mark of
    * the counter it found, if it found one that had a mark. */
  datatype Hit = Hit(id: Id, stamp: real, at: real, current: nat, mark: Option<real>) {
    function Counter(): Key { Key(id, Window(stamp)) }
    predicate Prompt() { Window(at) == Window(stamp) }

    /** The EXPIRE of its counter had taken effect more than 60 seconds before. */
    predicate Expired() { mark.Some? && at > mark.value + LIFE }
  }

  /** `owed` are counters whose EXPIRE is still to be sent. Entries past their time are absent to Redis;
    * they are kept here as history, and so are the `hits`. */
  datatype Redis = Redis(now: real, keys: map<Key, Entry>, owed: set<Key>, hits: seq<Hit>)

  datatype Step = Incr(id: Id, stamp: real, at: real) | Expire(key: Key, at: real)

  function Window(t: real): (w: int)
    ensures 60.0 * (w as real) <= t < 60.0 * ((w + 1) as real)
  {
    (t / 60.0).Floor
  }

  /** Redis drops a key once the clock is past its time, not at it. */
  predicate Live(s: Redis, key: Key) {
    key in s.keys && (s.keys[key].mark.None? || s.now <= s.keys[key].mark.value + LIFE)
  }

  /** One command; time never runs backwards, and a clock reading is never ahead of its command. */
  function Exec(s: Redis, step: Step): Redis {
    if step.at < s.now then s
    else
      var s := s.(now := step.at);
      match step
      case Incr(id, stamp, at) => if stamp > at then s else Counted(s, id, stamp)
      case Expire(key, at) =>
        if key !in s.owed then s
        else s.(owed := s.owed - {key},
                keys := if Live(s, key) then s.keys[key := s.keys[key].(mark := Some(at))] else s.keys)
  }

  function Reply(s: Redis, key: Key): (n: nat)
    ensures n >= 1
  {
    if Live(s, key) then s.keys[key].count + 1 else 1
  }

  function MarkOf(s: Redis, key: Key): Option<real> { if key in s.keys then s.keys[key].mark else None }

  function Counted(s: Redis, id: Id, stamp: real): Redis {
    var key := Key(id, Window(stamp));
    s.(keys := s.keys[key := Entry(Reply(s, key), if Live(s, key) then s.keys[key].mark else None)],
       owed := if Reply(s, key) == 1 then s.owed + {key} else s.owed,
       hits := s.hits + [Hit(id, stamp, s.now, Reply(s, key), MarkOf(s, key))])
  }

  function Run(s: Redis, steps: seq<Step>): Redis {
    if steps == [] then s else Exec(Run(s, steps[..|steps| - 1]), steps[|steps| - 1])
  }

  function Fresh(now: real): Redis { Redis(now, map[], {}, []) }

  // ----- counting -----

  function Requests(hits: seq<Hit>, key: Key): nat {
    if hits == [] then 0
    else Requests(hits[..|hits| - 1], key) + if hits[|hits| - 1].Counter() == key then 1 else 0
  }

  function Admitted(hits: seq<Hit>, key: Key, limit: int): nat {
    if hits == [] then 0
    else
      var last := hits[|hits| - 1];
      Admitted(hits[..|hits| - 1], key, limit) + if last.Counter() == key && last.current <= limit then 1 else 0
  }

  /** Admitted requests of one client stamped in `[from, to)`. */
  function AdmittedBetween(hits: seq<Hit>, id: Id, from: real, to: real, limit: int): nat {
    if hits == [] then 0
    else
      var last := hits[|hits| - 1];
      AdmittedBetween(hits[..|hits| - 1], id, from, to, limit)
      + if last.id == id && from <= last.stamp < to && last.current <= limit then 1 else 0
  }

  /** Each reply to this client in this minute is the request's place among the minute's requests. */
  ghost predicate Exact(hits: seq<Hit>, key: Key) {
    forall i :: 0 <= i < |hits| && hits[i].Counter() == key ==> hits[i].current == Requests(hits[..i + 1], key)
  }

  /** No request of this client in this minute found its counter run out. */
  predicate NoneExpired(hits: seq<Hit>, key: Key) {
    forall i :: 0 <= i < |hits| && hits[i].Counter() == key ==> !hits[i].Expired()
  }

  /** Every request of this client in this minute was counted within the minute. */
  predicate AllPrompt(hits: seq<Hit>, key: Key) {
    forall i :: 0 <= i < |hits| && hits[i].Counter() == key ==> hits[i].Prompt()
  }

  function Least(a: int, b: int): int { if a < b then a else b }

  function NotBelowZero(a: int): nat { if a < 0 then 0 else a }

  lemma ExactPrefix(hits: seq<Hit>, n: nat, key: Key)
    requires n <= |hits| && Exact(hits, key)
    ensures Exact(hits[..n], key)
  {
    forall i | 0 <= i < n
        && hits[..n][i].Counter() == key ensures hits[..n][i].current == Requests(hits[..n][..i + 1], key) {
      assert hits[..n][..i + 1] == hits[..i + 1];
    }
  }

  lemma PlaceKept(hits: seq<Hit>, h: Hit, i: nat, key: Key)
    requires i < |hits|
    ensures (hits + [h])[i] == hits[i] && Requests((hits + [h])[..i + 1], key) == Requests(hits[..i + 1], key)
  {
    assert (hits + [h])[..i + 1] == hits[..i + 1];
  }

  lemma LastPlace(hits: seq<Hit>, h: Hit, key: Key)
    requires h.Counter() == key
    ensures Requests((hits + [h])[..|hits| + 1], key) == Requests(hits, key) + 1
  {
    assert (hits + [h])[..|hits| + 1] == hits + [h] && (hits + [h])[..|hits|] == hits;
  }

  lemma ExactOneMore(hits: seq<Hit>, h: Hit, key: Key)
    requires Exact(hits, key) && (h.Counter() == key ==> h.current == Requests(hits, key) + 1)
    ensures Exact(hits + [h], key)
  {
    var longer := hits + [h];
    forall i | 0 <= i < |longer|
        && longer[i].Counter() == key ensures longer[i].current == Requests(longer[..i + 1], key) {
      if i < |hits| { PlaceKept(hits, h, i, key); } else { LastPlace(hits, h, key); }
    }
  }

  lemma OneMore(hits: seq<Hit>, h: Hit, key: Key)
    ensures Requests(hits + [h], key) == Requests(hits, key) + if h.Counter() == key then 1 else 0
    ensures forall limit :: Admitted(hits + [h], key, limit)
              == Admitted(hits, key, limit) + if h.Counter() == key && h.current <= limit then 1 else 0
    ensures NoneExpired(hits + [h], key) <==> NoneExpired(hits, key) && (h.Counter() == key ==> !h.Expired())
  {
    var longer := hits + [h];
    assert longer[..|hits|] == hits && longer[|hits|] == h;
    assert forall i :: 0 <= i < |hits| ==> hits[i] == longer[i];
  }

  // ----- the counters over whole runs -----

  /** A counter exists for what was counted and never runs ahead; as long as it has not run out in use, and
    * no longer, it and every reply are right. */
  ghost predicate Inv(s: Redis, key: Key) {
    && (key in s.keys <==> Requests(s.hits, key) > 0)
    && (key in s.keys ==> 1 <= s.keys[key].count <= Requests(s.hits, key))
    && (NoneExpired(s.hits, key) ==>
          Exact(s.hits, key) && (key in s.keys ==> s.keys[key].count == Requests(s.hits, key)))
    && (!NoneExpired(s.hits, key) ==> !Exact(s.hits, key))
  }

  lemma CountedKeepsInv(s: Redis, id: Id, stamp: real, key: Key)
    requires Inv(s, key)
    ensures Inv(Counted(s, id, stamp), key)
  {
    var s' := Counted(s, id, stamp);
    var h := s'.hits[|s.hits|];
    OneMore(s.hits, h, key);
    if Exact(s'.hits, key) {
      ExactPrefix(s'.hits, |s.hits|, key);
      assert s'.hits[..|s.hits|] == s.hits && s'.hits[..|s.hits| + 1] == s'.hits;
      assert h.Counter() == key ==> h.current == Requests(s'.hits, key);
    }
    if NoneExpired(s'.hits, key) { ExactOneMore(s.hits, h, key); }
  }

  lemma {:induction false} RunKeepsInv(now: real, steps: seq<Step>, key: Key)
    ensures Inv(Run(Fresh(now), steps), key)
  {
    if steps != [] {
      RunKeepsInv(now, steps[..|steps| - 1], key);
      var s, step := Run(Fresh(now), steps[..|steps| - 1]), steps[|steps| - 1];
      if step.Incr? && step.at >= s.now
          && step.stamp <= step.at { CountedKeepsInv(s.(now := step.at), step.id, step.stamp, key); }
    }
  }

  /** Over any run, whatever the other clients do: every request of one client in one minute is told its true
    * place if and only if none of them came more than 60 seconds after their counter's EXPIRE took effect. */
  lemma ExactIffNoneExpired(now: real, steps: seq<Step>, key: Key)
    ensures var hits := Run(Fresh(now), steps).hits; Exact(hits, key) <==> NoneExpired(hits, key)
  {
    RunKeepsInv(now, steps, key);
  }

  /** How many are admitted at a positive limit. Once the counter has run out in use, admissions are ahead of
    * it by at least one, for the rounds it has forgotten. */
  ghost predicate Tally(s: Redis, key: Key, limit: int) {
    var n, a := Requests(s.hits, key), Admitted(s.hits, key, limit);
    && (n <= limit ==> a == n)
    && (n > limit ==> a >= limit)
    && (NoneExpired(s.hits, key) ==> a == Least(n, limit))
    && (!NoneExpired(s.hits, key) ==> key in s.keys && a > Least(s.keys[key].count, limit) && (n > limit ==> a > limit))
  }

  lemma CountedKeepsTally(s: Redis, id: Id, stamp: real, key: Key, limit: int)
    requires Inv(s, key) && Tally(s, key, limit) && limit > 0
    ensures Tally(Counted(s, id, stamp), key, limit)
  {
    var s' := Counted(s, id, stamp);
    OneMore(s.hits, s'.hits[|s.hits|], key);
  }

  lemma {:induction false} RunKeepsTally(now: real, steps: seq<Step>, key: Key, limit: int)
    requires limit > 0
    ensures Tally(Run(Fresh(now), steps), key, limit)
  {
    if steps != [] {
      RunKeepsTally(now, steps[..|steps| - 1], key, limit);
      RunKeepsInv(now, steps[..|steps| - 1], key);
      var s, step := Run(Fresh(now), steps[..|steps| - 1]), steps[|steps| - 1];
      if step.Incr? && step.at >= s.now && step.stamp <= step.at {
        CountedKeepsTally(s.(now := step.at), step.id, step.stamp, key, limit);
      }
    }
  }

  lemma {:induction false} NothingAtNoLimit(now: real, steps: seq<Step>, key: Key, limit: int)
    requires limit <= 0
    ensures Admitted(Run(Fresh(now), steps).hits, key, limit) == 0
  {
    if steps != [] {
      NothingAtNoLimit(now, steps[..|steps| - 1], key, limit);
      var s, step := Run(Fresh(now), steps[..|steps| - 1]), steps[|steps| - 1];
      if step.Incr? && step.at >= s.now && step.stamp <= step.at {
        OneMore(s.hits, Run(Fresh(now), steps).hits[|s.hits|], key);
      }
    }
  }

  /** Rate bound, per client and minute, exactly: over any run the minute admits at least the smaller of its
    * requests and the limit, and it admits no more than that if and only if there is nothing to admit, all
    * its requests fit, or none of them found their counter run out. */
  lemma MinuteAdmitsIff(now: real, steps: seq<Step>, key: Key, limit: int)
    ensures var hits := Run(Fresh(now), steps).hits;
            var due := Least(Requests(hits, key), NotBelowZero(limit));
            && Admitted(hits, key, limit) >= due
            && (Admitted(hits, key, limit) == due
                <==> (limit <= 0 || Requests(hits, key) <= limit || NoneExpired(hits, key)))
  {
    if limit <= 0 { NothingAtNoLimit(now, steps, key, limit); } else { RunKeepsTally(now, steps, key, limit); }
  }

  // ----- when a counter runs out -----

  /** A counter's mark is set no earlier than its minute begins. */
  ghost predicate Marked(s: Redis) {
    forall k :: k in s.keys ==>
      && 60.0 * (k.window as real) <= s.now
      && (s.keys[k].mark.Some? ==> 60.0 * (k.window as real) <= s.keys[k].mark.value)
  }

  predicate PromptLives(hits: seq<Hit>) { forall i :: 0 <= i < |hits| && hits[i].Prompt() ==> !hits[i].Expired() }

  lemma CountedMarked(s: Redis, id: Id, stamp: real)
    requires Marked(s) && stamp <= s.now && PromptLives(s.hits)
    ensures Marked(Counted(s, id, stamp)) && PromptLives(Counted(s, id, stamp).hits)
  {
  }

  /** The expiry never resets a counter inside its own minute: a request counted in the minute it was stamped
    * with never finds its counter run out. */
  lemma {:induction false} PromptNeverExpired(now: real, steps: seq<Step>)
    ensures Marked(Run(Fresh(now), steps)) && PromptLives(Run(Fresh(now), steps).hits)
  {
    if steps != [] {
      PromptNeverExpired(now, steps[..|steps| - 1]);
      var s, step := Run(Fresh(now), steps[..|steps| - 1]), steps[|steps| - 1];
      if step.Incr? && step.at >= s.now
          && step.stamp <= step.at { CountedMarked(s.(now := step.at), step.id, step.stamp); }
    }
  }

  /** Marks are EXPIRE commands of the run, for the same counter and at that time. */
  ghost predicate MarksAreExpires(s: Redis, steps: seq<Step>) {
    && (forall k :: k in s.keys && s.keys[k].mark.Some? ==> Expire(k, s.keys[k].mark.value) in steps)
    && (forall i :: 0 <= i < |s.hits| && s.hits[i].mark.Some? ==>
          Expire(s.hits[i].Counter(), s.hits[i].mark.value) in steps)
  }

  lemma {:induction false} MarkHasExpire(now: real, steps: seq<Step>)
    ensures MarksAreExpires(Run(Fresh(now), steps), steps)
  {
    if steps != [] {
      var before, last := steps[..|steps| - 1], steps[|steps| - 1];
      MarkHasExpire(now, before);
      assert forall x :: x in before ==> x in steps;
      assert last in steps;
    }
  }

  /** If every request of a client and minute is counted within that minute, the minute admits exactly the
    * smaller of its requests and the limit: the first ones to be counted. */
  lemma MinuteAdmitsLimit(now: real, steps: seq<Step>, key: Key, limit: int)
    requires AllPrompt(Run(Fresh(now), steps).hits, key)
    ensures var hits := Run(Fresh(now), steps).hits;
            && NoneExpired(hits, key) && Exact(hits, key)
            && Admitted(hits, key, limit) == Least(Requests(hits, key), NotBelowZero(limit))
  {
    PromptNeverExpired(now, steps);
    RunKeepsInv(now, steps, key);
    MinuteAdmitsIff(now, steps, key, limit);
  }

  /** A request stamped in one minute and counted in the next finds its counter gone: with a limit of one,
    * this minute admits two. */
  lemma LateIncrOverfills()
    ensures var hits := Run(Fresh(0.0), [Incr("a", 0.0, 0.0), Expire(Key("a", 0), 0.0), Incr("a", 59.0, 61.0)]).hits;
            Admitted(hits, Key("a", 0), 1) == 2 && |hits| == 2 && hits[1].Expired()
  {
    var s1 := [Incr("a", 0.0, 0.0)];
    var s2 := s1 + [Expire(Key("a", 0), 0.0)];
    var s3 := [Incr("a", 0.0, 0.0), Expire(Key("a", 0), 0.0), Incr("a", 59.0, 61.0)];
    assert s1[..0] == [] && s2[..1] == s1 && s3[..2] == s2;
    assert Window(0.0) == 0 && Window(59.0) == 0;
    var r1, r2, r3 := Run(Fresh(0.0), s1), Run(Fresh(0.0), s2), Run(Fresh(0.0), s3);
    assert r1.hits == [Hit("a", 0.0, 0.0, 1, None)];
    assert r2.keys[Key("a", 0)] == Entry(1, Some(0.0));
    assert r3.hits == r1.hits + [Hit("a", 59.0, 61.0, 1, Some(0.0))];
    assert r3.hits[..1] == r1.hits;
    assert r1.hits[..0] == [];
  }

  // ----- spans that are not aligned -----

  /** Admitted requests of one client in the `n` minutes from `first` on. */
  function AdmittedMinutes(hits: seq<Hit>, id: Id, first: int, n: nat, limit: int): nat {
    if n == 0 then 0
    else AdmittedMinutes(hits, id, first, n - 1, limit) + Admitted(hits, Key(id, first + n - 1), limit)
  }

  lemma {:induction false} MinutesOfOneMore(hits: seq<Hit>, id: Id, first: int, n: nat, limit: int)
    requires hits != []
    ensures var last := hits[|hits| - 1];
            AdmittedMinutes(hits, id, first, n, limit) == AdmittedMinutes(hits[..|hits| - 1], id, first, n, limit)
              + if last.id == id && first <= Window(last.stamp) < first + n && last.current <= limit then 1 else 0
  {
    if n > 0 { MinutesOfOneMore(hits, id, first, n - 1, limit); }
  }

  lemma {:induction false} SpanWithinMinutes(hits: seq<Hit>, id: Id, from: real, k: nat, limit: int)
    ensures AdmittedBetween(hits, id, from, from + 60.0 * (k as real), limit)
            <= AdmittedMinutes(hits, id, Window(from), k + 1, limit)
  {
    if hits == [] {
      NoHits(id, Window(from), k + 1, limit);
    } else {
      SpanWithinMinutes(hits[..|hits| - 1], id, from, k, limit);
      MinutesOfOneMore(hits, id, Window(from), k + 1, limit);
      InSpan(from, hits[|hits| - 1].stamp, k);
    }
  }

  lemma {:induction false} NoHits(id: Id, first: int, n: nat, limit: int)
    ensures AdmittedMinutes([], id, first, n, limit) == 0
  {
    if n > 0 { NoHits(id, first, n - 1, limit); }
  }

  lemma InSpan(from: real, t: real, k: nat)
    ensures from <= t < from + 60.0 * (k as real) ==> Window(from) <= Window(t) < Window(from) + k + 1
  {
  }

  /** In the `n` minutes from `first` on, no request of this client found its counter run out. */
  predicate NoneExpiredIn(hits: seq<Hit>, id: Id, first: int, n: nat) {
    forall w :: first <= w < first + n ==> NoneExpired(hits, Key(id, w))
  }

  lemma {:induction false} MinutesBound(now: real, steps: seq<Step>, id: Id, first: int, n: nat, limit: int)
    requires NoneExpiredIn(Run(Fresh(now), steps).hits, id, first, n)
    ensures AdmittedMinutes(Run(Fresh(now), steps).hits, id, first, n, limit) <= n * NotBelowZero(limit)
  {
    if n > 0 {
      MinutesBound(now, steps, id, first, n - 1, limit);
      MinuteAdmitsIff(now, steps, Key(id, first + n - 1), limit);
      assert n * NotBelowZero(limit) == (n - 1) * NotBelowZero(limit) + NotBelowZero(limit);
    }
  }

  /** Rate bound, any span: `k` minutes starting anywhere admit at most `k + 1` times the limit, unless one of
    * this client's requests in them found its counter run out. */
  lemma SpanBound(now: real, steps: seq<Step>, id: Id, from: real, k: nat, limit: int)
    requires NoneExpiredIn(Run(Fresh(now), steps).hits, id, Window(from), k + 1)
    ensures AdmittedBetween(Run(Fresh(now), steps).hits, id, from, from + 60.0 * (k as real), limit)
            <= (k + 1) * NotBelowZero(limit)
  {
    SpanWithinMinutes(Run(Fresh(now), steps).hits, id, from, k, limit);
    MinutesBound(now, steps, id, Window(from), k + 1, limit);
  }

  /** What every run keeps. */
  ghost predicate Sane(s: Redis) { Marked(s) && PromptLives(s.hits) && forall key :: Inv(s, key) }

  lemma SaneIncr(s: Redis, id: Id, t: real)
    requires Sane(s) && s.now <= t
    ensures Sane(Exec(s, Incr(id, t, t)))
  {
    CountedMarked(s.(now := t), id, t);
    forall key ensures Inv(Exec(s, Incr(id, t, t)), key) {
      assert Inv(s, key);
      CountedKeepsInv(s.(now := t), id, t, key);
    }
  }

  /** A request counted at once, of a client prompt so far in this minute, is told its place. */
  lemma PromptIncr(s: Redis, id: Id, t: real)
    requires Sane(s) && s.now <= t && AllPrompt(s.hits, Key(id, Window(t)))
    ensures var s', key := Exec(s, Incr(id, t, t)), Key(id, Window(t));
            && s'.now == t
            && s'.hits == s.hits + [Hit(id, t, t, Requests(s.hits, key) + 1, MarkOf(s, key))]
  {
    var key := Key(id, Window(t));
    assert Inv(s, key);
    assert NoneExpired(s.hits, key);
    if key in s.keys { StillLive(s, key, t); }
  }

  lemma StillLive(s: Redis, key: Key, t: real)
    requires Marked(s) && key in s.keys && Window(t) == key.window
    ensures Live(s.(now := t), key)
  {
  }

  /** `n` hits at one time. */
  function Again(s: Redis, id: Id, t: real, n: nat): Redis {
    if n == 0 then s else Exec(Again(s, id, t, n - 1), Incr(id, t, t))
  }

  /** `limit` hits in the last second of minute 0 and as many at the start of each of the next `k`. */
  function Burst(id: Id, limit: nat, k: nat): Redis {
    if k == 0 then Again(Fresh(0.0), id, 59.0, limit) else Again(Burst(id, limit, k - 1), id, 60.0 * (k as real), limit)
  }

  /** Every hit so far is `id`'s, stamped since second 59, counted at once and admitted. */
  predicate AllIn(s: Redis, id: Id, limit: int) {
    forall i :: 0 <= i < |s.hits| ==>
      s.hits[i].id == id && 59.0 <= s.hits[i].stamp <= s.now && s.hits[i].current <= limit && s.hits[i].Prompt()
  }

  lemma {:induction false} CountAll(hits: seq<Hit>, id: Id, from: real, to: real, limit: int)
    requires forall i :: 0 <= i < |hits| ==> hits[i].id == id && from <= hits[i].stamp < to && hits[i].current <= limit
    ensures AdmittedBetween(hits, id, from, to, limit) == |hits|
  {
    if hits != [] {
      assert forall i :: 0 <= i < |hits| - 1 ==> hits[..|hits| - 1][i] == hits[i];
      CountAll(hits[..|hits| - 1], id, from, to, limit);
    }
  }

  /** `s'` has counted `n` more requests than `s`, all in minute `w`. */
  ghost predicate Plus(s: Redis, s': Redis, id: Id, w: int, n: nat) {
    && |s'.hits| == |s.hits| + n
    && forall v :: Requests(s'.hits, Key(id, v)) == Requests(s.hits, Key(id, v)) + if v == w then n else 0
  }

  lemma PlusOne(s: Redis, s1: Redis, s2: Redis, h: Hit, n: nat)
    requires Plus(s, s1, h.id, Window(h.stamp), n) && s2.hits == s1.hits + [h]
    ensures Plus(s, s2, h.id, Window(h.stamp), n + 1)
  {
    forall v { OneMore(s1.hits, h, Key(h.id, v)); }
  }

  lemma AllInOneMore(s: Redis, s': Redis, h: Hit, limit: int)
    requires AllIn(s, h.id, limit) && s'.hits == s.hits + [h] && s.now <= s'.now
    requires 59.0 <= h.stamp <= s'.now && h.current <= limit && h.Prompt()
    ensures AllIn(s', h.id, limit)
  {
  }

  /** `s'` follows `s` by `n` hits at time `t`, all admitted. */
  ghost predicate After(s: Redis, s': Redis, id: Id, t: real, n: nat, limit: nat) {
    Sane(s') && s'.now <= t && AllIn(s', id, limit) && Plus(s, s', id, Window(t), n)
  }

  lemma {:induction false} AgainAdmits(s: Redis, id: Id, t: real, n: nat, limit: nat)
    requires Sane(s) && s.now <= t && AllIn(s, id, limit) && Requests(s.hits, Key(id, Window(t))) == 0
    requires 59.0 <= t && n <= limit
    ensures After(s, Again(s, id, t, n), id, t, n, limit)
  {
    if n > 0 {
      AgainAdmits(s, id, t, n - 1, limit);
      OnceMore(s, Again(s, id, t, n - 1), id, t, n - 1, limit);
    }
  }

  lemma OnceMore(s: Redis, s1: Redis, id: Id, t: real, n: nat, limit: nat)
    requires After(s, s1, id, t, n, limit) && Requests(s.hits, Key(id, Window(t))) == 0 && 59.0 <= t && n < limit
    ensures After(s, Exec(s1, Incr(id, t, t)), id, t, n + 1, limit)
  {
    var s2 := Exec(s1, Incr(id, t, t));
    SaneIncr(s1, id, t);
    PromptIncr(s1, id, t);
    var h := Hit(id, t, t, n + 1, MarkOf(s1, Key(id, Window(t))));
    PlusOne(s, s1, s2, h, n);
    AllInOneMore(s1, s2, h, limit);
  }

  ghost predicate Filled(s: Redis, id: Id, limit: nat, k: nat) {
    && Sane(s) && s.now <= (if k == 0 then 59.0 else 60.0 * (k as real)) && AllIn(s, id, limit)
    && |s.hits| == (k + 1) * limit && forall w :: w > k ==> Requests(s.hits, Key(id, w)) == 0
  }

  lemma FilledOneMore(s: Redis, s': Redis, id: Id, limit: nat, k: nat, t: real)
    requires Filled(s, id, limit, k) && t == 60.0 * ((k + 1) as real) && Window(t) == k + 1
    requires After(s, s', id, t, limit, limit)
    ensures Filled(s', id, limit, k + 1)
  {
    assert (k + 2) * limit == (k + 1) * limit + limit;
  }

  lemma MinuteStarts(k: nat)
    ensures Window(60.0 * (k as real)) == k
  {
  }

  lemma FirstBurst(id: Id, limit: nat)
    ensures Filled(Again(Fresh(0.0), id, 59.0, limit), id, limit, 0)
  {
    assert Window(59.0) == 0;
    AgainAdmits(Fresh(0.0), id, 59.0, limit, limit);
  }

  lemma {:induction false} BurstAdmits(id: Id, limit: nat, k: nat)
    ensures Filled(Burst(id, limit, k), id, limit, k)
  {
    if k == 0 {
      FirstBurst(id, limit);
    } else {
      BurstAdmits(id, limit, k - 1);
      MinuteMore(Burst(id, limit, k - 1), id, limit, k - 1);
    }
  }

  lemma MinuteMore(s: Redis, id: Id, limit: nat, k: nat)
    requires Filled(s, id, limit, k)
    ensures Filled(Again(s, id, 60.0 * ((k + 1) as real), limit), id, limit, k + 1)
  {
    var t := 60.0 * ((k + 1) as real);
    MinuteStarts(k + 1);
    NotYet(s, id, limit, k, t);
    AgainAdmits(s, id, t, limit, limit);
    FilledOneMore(s, Again(s, id, t, limit), id, limit, k, t);
  }

  /** The next minute is still to come. */
  lemma NotYet(s: Redis, id: Id, limit: nat, k: nat, t: real)
    requires Filled(s, id, limit, k) && t == 60.0 * ((k + 1) as real) && Window(t) == k + 1
    ensures s.now <= t && Requests(s.hits, Key(id, Window(t))) == 0 && 59.0 <= t
  {
  }

  lemma {:induction false} AgainIsRun(steps: seq<Step>, id: Id, t: real, n: nat) returns (longer: seq<Step>)
    ensures Run(Fresh(0.0), longer) == Again(Run(Fresh(0.0), steps), id, t, n)
  {
    longer := steps;
    if n > 0 {
      var fewer := AgainIsRun(steps, id, t, n - 1);
      longer := fewer + [Incr(id, t, t)];
      assert longer[..|longer| - 1] == fewer;
    }
  }

  lemma {:induction false} BurstIsRun(id: Id, limit: nat, k: nat) returns (steps: seq<Step>)
    ensures Run(Fresh(0.0), steps) == Burst(id, limit, k)
  {
    if k == 0 {
      steps := AgainIsRun([], id, 59.0, limit);
    } else {
      steps := BurstIsRun(id, limit, k - 1);
      steps := AgainIsRun(steps, id, 60.0 * (k as real), limit);
    }
  }

  /** The bound is met, for every limit and every number of minutes: in some run limit-many requests at second
    * 59 and at the start of each following minute are all admitted, each counted at once. */
  lemma BurstMeetsBound(id: Id, limit: nat, k: nat) returns (steps: seq<Step>)
    requires k > 0
    ensures var s := Run(Fresh(0.0), steps);
            AllIn(s, id, limit)
              && AdmittedBetween(s.hits, id, 59.0, 59.0 + 60.0 * (k as real), limit) == (k + 1) * limit
  {
    steps := BurstIsRun(id, limit, k);
    BurstAdmits(id, limit, k);
    CountAll(Burst(id, limit, k).hits, id, 59.0, 59.0 + 60.0 * (k as real), limit);
  }

  // ----- dispatch -----

  datatype Response = Refused | Served(remaining: Option<int>)

  class RateLimitMiddleware {
    const limit: int
    var redis: Redis
    var elsewhere: seq<seq<Step>>    // what other requests do at this one's awaits
    ghost const began: real
    ghost var trace: seq<Step>       // every command since `began`, by anyone
    ghost var own: seq<Step>         // those of this middleware, in order

    ghost predicate Valid()
      reads this
    {
      redis == Run(Fresh(began), trace)
    }

    constructor (limit: int, now: real, elsewhere: seq<seq<Step>>)
      ensures Valid() && redis == Fresh(now) && own == [] && this.limit == limit && this.elsewhere == elsewhere
    {
      this.limit, redis, began, trace, own := limit, Fresh(now), now, [], [];
      this.elsewhere := elsewhere;
    }

    /** A command of this middleware. */
    method Send(step: Step)
      requires Valid()
      modifies this`redis, this`trace, this`own
      ensures Valid() && redis == Exec(old(redis), step) && trace == old(trace) + [step] && own == old(own) + [step]
    {
      own := own + [step];
      Happen(step);
    }

    /** A command of whomever. */
    method Happen(step: Step)
      requires Valid()
      modifies this`redis, this`trace
      ensures Valid() && redis == Exec(old(redis), step) && trace == old(trace) + [step]
    {
      redis := Exec(redis, step);
      trace := trace + [step];
      assert trace[..|trace| - 1] == old(trace);
    }

    method Await()
      requires Valid()
      modifies this`redis, this`trace, this`elsewhere
      ensures Valid() && old(redis.now) <= redis.now && old(redis.hits) <= redis.hits && old(trace) <= trace
      ensures old(elsewhere) == [] ==> elsewhere == [] && redis == old(redis) && trace == old(trace)
    {
      if elsewhere == [] { return; }
      var steps := elsewhere[0];
      elsewhere := elsewhere[1..];
      for i := 0 to |steps|
        invariant Valid() && old(redis.now) <= redis.now && old(redis.hits) <= redis.hits && old(trace) <= trace
      {
        Happen(steps[i]);
      }
    }

    /** INCR, by the clock reading `stamp`. Its reply never exceeds its place in this client's minute, and is
      * that place as long as no request of this client in this minute found its counter run out. */
    method Count(id: Id, stamp: real, at: real) returns (current: nat)
      requires Valid() && stamp <= at && redis.now <= at
      modifies this`redis, this`trace, this`own
      ensures trace == old(trace) + [Incr(id, stamp, at)] && own == old(own) + [Incr(id, stamp, at)]
      ensures Valid() && redis.now == at && |redis.hits| == |old(redis.hits)| + 1 && old(redis.hits) <= redis.hits
      ensures var hit := redis.hits[|redis.hits| - 1];
              hit.id == id && hit.stamp == stamp && hit.at == at && hit.current == current
      ensures 0 < current <= Requests(redis.hits, Key(id, Window(stamp)))
      ensures NoneExpired(redis.hits, Key(id, Window(stamp))) ==>
          current == Requests(redis.hits, Key(id, Window(stamp)))
    {
      Send(Incr(id, stamp, at));
      RunKeepsInv(began, trace, Key(id, Window(stamp)));
      assert redis.hits[..|redis.hits|] == redis.hits;
      current := redis.hits[|redis.hits| - 1].current;
    }

    /** One request. `delay` is how long the INCR takes to reach Redis, `crashes` whether the process dies
      * before its EXPIRE. The request is counted in the minute of the clock reading it starts with, and the first
      * of its minute sends that very counter's EXPIRE, unless it dies; it sends nothing else. A counted request is
      * never refused while its place in its client's minute is within the limit; and it is refused beyond the
      * limit unless a request of this client in this minute found its counter run out. Other clients' requests
      * play no part. */
    method Dispatch(id: Id, exempt: bool, delay: real, crashes: bool)
      returns (r: Response, ghost counted: seq<Hit>, ghost sent: real)
      requires Valid() && delay >= 0.0
      modifies this
      ensures Valid() && old(redis.hits) <= counted <= redis.hits && old(trace) <= trace
      ensures exempt ==> r == Served(None) && redis == old(redis) && own == old(own)
      ensures !exempt ==> |counted| > |old(redis.hits)| && counted[|counted| - 1].id == id
      // when it is counted, and what it sends:
      ensures !exempt ==> (
                var hit := counted[|counted| - 1];
                && hit.stamp == old(redis.now) && hit.at >= hit.stamp + delay && hit.at <= sent <= redis.now
                && own == old(own) + [Incr(id, hit.stamp, hit.at)] + FirstOnly(hit, crashes, sent)
                && r == ReplyTo(hit.current))
      ensures !exempt && old(elsewhere) == [] ==> (
                var hit := counted[|counted| - 1];
                && hit.at == sent == old(redis.now) + delay
                && trace == old(trace) + [Incr(id, hit.stamp, hit.at)] + FirstOnly(hit, crashes, sent))
      // what it is answered:
      ensures !exempt ==>
                var n := Requests(counted, counted[|counted| - 1].Counter());
                if r.Refused? then n > limit
                else r.remaining.Some? && 0 <= r.remaining.value < limit && r.remaining.value >= limit - n
      ensures !exempt && NoneExpired(counted, counted[|counted| - 1].Counter()) ==>
                var n := Requests(counted, counted[|counted| - 1].Counter());
                r == if n > limit then Refused else Served(Some(limit - n))
    {
      if exempt { return Served(None), redis.hits, redis.now; }
      var current;
      current, counted, sent := Ask(id, delay, crashes);
      if current > limit { return Refused, counted, sent; }
      return Served(Some(if limit - current < 0 then 0 else limit - current)), counted, sent;
    }

    /** The INCR, and the EXPIRE if it is due. */
    method Ask(id: Id, delay: real, crashes: bool) returns (current: nat, ghost counted: seq<Hit>, ghost sent: real)
      requires Valid() && delay >= 0.0
      modifies this
      ensures Valid() && old(redis.hits) <= counted <= redis.hits && old(trace) <= trace
      ensures |counted| > |old(redis.hits)|
      ensures var hit := counted[|counted| - 1];
              && hit.id == id && hit.stamp == old(redis.now) && hit.at >= hit.stamp + delay && hit.current == current
              && hit.at <= sent <= redis.now
              && own == old(own) + [Incr(id, hit.stamp, hit.at)] + FirstOnly(hit, crashes, sent)
              && 0 < current <= Requests(counted, hit.Counter())
              && (NoneExpired(counted, hit.Counter()) ==> current == Requests(counted, hit.Counter()))
      ensures old(elsewhere) == [] ==> (
                var hit := counted[|counted| - 1];
                && hit.at == sent == old(redis.now) + delay
                && trace == old(trace) + [Incr(id, hit.stamp, hit.at)] + FirstOnly(hit, crashes, sent))
    {
      var stamp := redis.now;
      Await();
      current := Count(id, stamp, if redis.now < stamp + delay then stamp + delay else redis.now);
      counted := redis.hits;
      sent := ExpireFirst(id, stamp, current, crashes, counted[|counted| - 1]);
    }

    /** The EXPIRE follows an INCR that made the counter, some time later. */
    method ExpireFirst(id: Id, stamp: real, current: nat, crashes: bool, ghost hit: Hit) returns (ghost sent: real)
      requires Valid() && hit.id == id && hit.stamp == stamp && hit.current == current
      modifies this
      ensures Valid() && old(redis.hits) <= redis.hits && old(trace) <= trace && old(redis.now) <= sent <= redis.now
      ensures own == old(own) + FirstOnly(hit, crashes, sent)
      ensures old(elsewhere) == [] ==> sent == old(redis.now) && trace == old(trace) + FirstOnly(hit, crashes, sent)
    {
      Await();
      sent := redis.now;
      if current == 1 && !crashes { Send(Expire(Key(id, Window(stamp)), redis.now)); }
    }

    /** The EXPIRE of the request that made its counter. */
    function FirstOnly(hit: Hit, crashes: bool, sent: real): seq<Step> {
      if hit.current == 1 && !crashes then [Expire(hit.Counter(), sent)] else []
    }

    /** The response to an INCR's reply. */
    function ReplyTo(current: nat): Response {
      if current > limit then Refused else Served(Some(limit - current))
    }
  }
}
