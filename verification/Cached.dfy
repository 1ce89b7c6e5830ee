/** The `cached` decorator over a cache manager, called by one thread after another. */
module Cached {
  import opened Values
  import opened MemoryCache
  import opened CacheManager

  /** Calls that may be made do not collide on a key, or agree where they do. */
  ghost predicate KeysDetermine<Args(!new)>(f: Args -> Outcome, keyOf: Args -> Key, made: Args -> bool) {
    forall a, b :: made(a) && made(b) && keyOf(a) == keyOf(b) ==> f(a) == f(b)
  }

  /** Whatever is stored under the key of a call is what the call returns. */
  ghost predicate Faithful<Args(!new)>(m: Store, f: Args -> Outcome, keyOf: Args -> Key, made: Args -> bool) {
    forall a :: made(a) && keyOf(a) in m ==> f(a) == Returned(m[keyOf(a)].value)
  }

  ghost predicate FaithfulShared<Args(!new)>(l2: Shared, f: Args -> Outcome, keyOf: Args -> Key, made: Args -> bool) {
    forall a :: made(a) && keyOf(a) in l2 ==> f(a) == Returned(l2[keyOf(a)].value)
  }

  ghost predicate FaithfulLevels<Args(!new)>(l1: Option<Store>, l2: Shared,
                                             f: Args -> Outcome, keyOf: Args -> Key, made: Args -> bool) {
    (l1.Some? ==> Faithful(l1.value, f, keyOf, made)) && FaithfulShared(l2, f, keyOf, made)
  }

  // ---------------------------------------------------------------- one call

  // What a manager has in its two levels.
  datatype Levels = Levels(l1: Option<Store>, l2: Shared)

  // A call of the wrapped function; `outcome` is how the function ends if it has to run.
  datatype Invocation = Invocation(key: Key, start: Time, finish: Time, outcome: Outcome)

  /** A function that raises stores nothing; any other result goes to the levels, None included. */
  function AfterCall(s: Levels, c: Invocation, p: Policy, given: Option<Time>, up: bool, upAfter: bool): Levels {
    var r := Fetch(s.l1, s.l2, up, c.key, c.start, p);
    var ttl := Resolved(p, c.key, given);
    if r.value.Some? then Levels(r.l1, s.l2)
    else match c.outcome
      case Returned(value) => Levels(StoredNear(r.l1, c.key, value, ttl, c.finish, p),
                                     StoredFar(s.l2, upAfter, c.key, value, ttl, c.finish))
      case Raised(_) => Levels(r.l1, s.l2)
  }

  /**
   The wrapper: a lookup at `now`; on a miss the function runs until `done` and its value is stored
   under the lifetime asked for, on every level that is there and answers.  `up` and `upAfter` say
   whether the shared level answers the lookup and the store.
   */
  method CallCached<Args(!new)>(cache: EnhancedCacheManager, f: Args -> Outcome, keyOf: Args -> Key,
                                ghost made: Args -> bool, args: Args, ttl: Option<Time>,
                                now: Time, done: Time, up: bool, upAfter: bool)
      returns (outcome: Outcome)
    requires cache.Valid() && KeysDetermine(f, keyOf, made) && made(args)
    requires FaithfulLevels(cache.Near(), cache.Far(), f, keyOf, made)
    modifies cache, cache.l1, cache.l2
    ensures cache.Valid() && outcome == f(args) && FaithfulLevels(cache.Near(), cache.Far(), f, keyOf, made)
    ensures Levels(cache.Near(), cache.Far()) ==
            AfterCall(Levels(old(cache.Near()), old(cache.Far())), Invocation(keyOf(args), now, done, f(args)),
                      cache.policy, ttl, cache.Reaches(up), cache.Reaches(upAfter))
    ensures var before := Levels(old(cache.Near()), old(cache.Far()));
            var found := Fetch(before.l1, before.l2, cache.Reaches(up), keyOf(args), now, cache.policy).value;
            if found.Some? then cache.Far() == old(cache.Far())
            else f(args).Returned? ==>
              forall asked :: Asks(cache.policy, keyOf(args), ttl, asked) && asked > 0.0 ==>
                && NearReports(cache.Near(), keyOf(args), f(args).value, done, asked)
                && (cache.Reaches(upAfter) && f(args).value.Some? ==>
                      FarReports(cache.Far(), keyOf(args), f(args).value, done, asked))
  {
    var cached := cache.Get(keyOf(args), now, up);
    if cached.Some? {
      return Returned(cached);
    }
    outcome := f(args);
    if outcome.Returned? {
      var _ := cache.Set(keyOf(args), outcome.value, ttl, done, upAfter);
    }
  }

  // ---------------------------------------------------------------- how often the function runs

  // A manager, and the lifetime the decorator gives for each key.  `shared` says that there is a
  // shared level, which then answers always and loses nothing.
  datatype Setting = Setting(memory: bool, shared: bool, policy: Policy, given: Key -> Option<Time>)

  function After(calls: seq<Invocation>, m: Setting): Levels {
    if calls == [] then Levels(if m.memory then Some(map[]) else None, map[]) else
      var c := calls[|calls| - 1];
      AfterCall(After(calls[..|calls| - 1], m), c, m.policy, m.given(c.key), m.shared, m.shared)
  }

  predicate Hits(s: Levels, k: Key, now: Time, m: Setting) {
    Fetch(s.l1, s.l2, m.shared, k, now, m.policy).value.Some?
  }

  /** One call ends before the next starts. */
  ghost predicate Sequential(calls: seq<Invocation>) {
    && (forall i :: 0 <= i < |calls| ==> calls[i].start <= calls[i].finish)
    && (forall i, j :: 0 <= i < j < |calls| ==> calls[i].finish <= calls[j].start)
  }

  /** The calls of a key that had to run the function. */
  function Executions(calls: seq<Invocation>, k: Key, m: Setting): seq<Invocation> {
    if calls == [] then [] else
      var n := |calls| - 1;
      var c := calls[n];
      if c.key == k && !Hits(After(calls[..n], m), k, c.start, m)
      then Executions(calls[..n], k, m) + [c] else Executions(calls[..n], k, m)
  }

  /** The function neither raised nor returned None. */
  predicate Useful(c: Invocation) {
    c.outcome.Returned? && c.outcome.value.Some?
  }

  lemma {:induction false} MemoryIsKept(calls: seq<Invocation>, m: Setting)
    ensures After(calls, m).l1.Some? == m.memory
  {
    if calls != [] {
      MemoryIsKept(calls[..|calls| - 1], m);
    }
  }

  /** A call of another key changes nothing for this one. */
  lemma OtherCall(s: Levels, c: Invocation, k: Key, now: Time, m: Setting)
    requires c.key != k
    ensures Hits(AfterCall(s, c, m.policy, m.given(c.key), m.shared, m.shared), k, now, m) == Hits(s, k, now, m)
  {
  }

  /** A hit, with its copy into memory, hides no later hit. */
  lemma HitCall(s: Levels, c: Invocation, now: Time, m: Setting)
    requires Hits(s, c.key, c.start, m) && c.start <= now && Hits(s, c.key, now, m)
    ensures Hits(AfterCall(s, c, m.policy, m.given(c.key), m.shared, m.shared), c.key, now, m)
  {
  }

  /** After a miss and the execution, the key is a hit for the lifetime asked for, if there is a value. */
  lemma MissCall(s: Levels, c: Invocation, now: Time, m: Setting, ttl: Time)
    requires !Hits(s, c.key, c.start, m) && c.start <= c.finish <= now < c.finish + ttl
    requires Asks(m.policy, c.key, m.given(c.key), ttl) && (s.l1.Some? || m.shared)
    ensures Hits(AfterCall(s, c, m.policy, m.given(c.key), m.shared, m.shared), c.key, now, m) <==> Useful(c)
  {
    AskedIsResolved(m.policy, c.key, m.given(c.key));
  }

  lemma SequentialInit(calls: seq<Invocation>)
    requires Sequential(calls) && calls != []
    ensures var n := |calls| - 1;
            && Sequential(calls[..n]) && calls[n].start <= calls[n].finish
            && forall i :: 0 <= i < n ==> calls[..n][i].finish <= calls[n].start
  {
  }

  /** Within one lifetime of the last execution's start the key is a hit if and only if that execution was useful. */
  lemma {:induction false} FreshIffUseful(calls: seq<Invocation>, k: Key, m: Setting, ttl: Time, now: Time)
    requires Sequential(calls) && (m.memory || m.shared) && Asks(m.policy, k, m.given(k), ttl)
    requires Executions(calls, k, m) != [] && forall i :: 0 <= i < |calls| ==> calls[i].finish <= now
    requires var e := Executions(calls, k, m); now < e[|e| - 1].start + ttl
    ensures var e := Executions(calls, k, m); Hits(After(calls, m), k, now, m) <==> Useful(e[|e| - 1])
  {
    var n := |calls| - 1;
    var c, s := calls[n], After(calls[..n], m);
    MemoryIsKept(calls[..n], m);
    SequentialInit(calls);
    if c.key != k {
      FreshIffUseful(calls[..n], k, m, ttl, now);
      OtherCall(s, c, k, now, m);
    } else if Hits(s, k, c.start, m) {
      FreshIffUseful(calls[..n], k, m, ttl, c.start);
      FreshIffUseful(calls[..n], k, m, ttl, now);
      HitCall(s, c, now, m);
    } else {
      MissCall(s, c, now, m, ttl);
    }
  }

  ghost predicate Apart(e: seq<Invocation>, ttl: Time) {
    forall i :: 0 < i < |e| && Useful(e[i - 1]) ==> e[i].start >= e[i - 1].start + ttl
  }

  lemma ApartAppend(e: seq<Invocation>, c: Invocation, ttl: Time)
    requires Apart(e, ttl)
    requires e != [] && Useful(e[|e| - 1]) ==> c.start >= e[|e| - 1].start + ttl
    ensures Apart(e + [c], ttl)
  {
    var e' := e + [c];
    forall i | 0 < i < |e'| && Useful(e'[i - 1]) ensures e'[i].start >= e'[i - 1].start + ttl {
      assert e'[i - 1] == e[i - 1] && e'[i] == if i < |e| then e[i] else c;
    }
  }

  /** After a useful execution of a key, the next one starts at least one lifetime later. */
  lemma {:induction false} ExecutionsAreApart(calls: seq<Invocation>, k: Key, m: Setting, ttl: Time)
    requires Sequential(calls) && (m.memory || m.shared) && Asks(m.policy, k, m.given(k), ttl)
    ensures Apart(Executions(calls, k, m), ttl)
  {
    if calls != [] {
      var n := |calls| - 1;
      var c, e := calls[n], Executions(calls[..n], k, m);
      SequentialInit(calls);
      ExecutionsAreApart(calls[..n], k, m, ttl);
      if c.key == k && !Hits(After(calls[..n], m), k, c.start, m) {
        if e != [] && c.start < e[|e| - 1].start + ttl { FreshIffUseful(calls[..n], k, m, ttl, c.start); }
        ApartAppend(e, c, ttl);
      }
    }
  }

  lemma {:induction false} Spread(e: seq<Invocation>, ttl: Time, a: nat, b: nat)
    requires a <= b < |e| && forall i :: a < i <= b ==> e[i].start >= e[i - 1].start + ttl
    ensures e[b].start - e[a].start >= (b - a) as real * ttl
    decreases b - a
  {
    if a < b {
      Spread(e, ttl, a, b - 1);
      assert (b - a) as real == (b - 1 - a) as real + 1.0;
      assert ((b - 1 - a) as real + 1.0) * ttl == (b - 1 - a) as real * ttl + ttl;
    }
  }

  lemma ApartSpreads(e: seq<Invocation>, ttl: Time, a: nat, b: nat)
    requires Apart(e, ttl) && a <= b < |e| && forall i :: a <= i < b ==> Useful(e[i])
    ensures (b - a) as real * ttl <= e[b].start - e[a].start
  {
    forall i | a < i <= b ensures e[i].start >= e[i - 1].start + ttl { assert Useful(e[i - 1]); }
    Spread(e, ttl, a, b);
  }

  /**
   n executions for one key whose starts lie within a window of length W satisfy (n - 1) * ttl <= W,
   if all but the last were useful.
   */
  lemma RecomputationRate(calls: seq<Invocation>, k: Key, m: Setting, ttl: Time, first: nat, n: nat, window: Time)
    requires Sequential(calls) && (m.memory || m.shared) && Asks(m.policy, k, m.given(k), ttl) && n > 0
    requires first + n <= |Executions(calls, k, m)|
    requires var e := Executions(calls, k, m);
             && e[first + n - 1].start - e[first].start <= window
             && forall i :: first <= i < first + n - 1 ==> Useful(e[i])
    ensures (n - 1) as real * ttl <= window
  {
    ExecutionsAreApart(calls, k, m, ttl);
    ApartSpreads(Executions(calls, k, m), ttl, first, first + n - 1);
  }
}
