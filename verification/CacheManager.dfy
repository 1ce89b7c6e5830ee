/** The two-level manager: an optional in-memory level in front of an optional shared level. */
module CacheManager {
  import opened Values
  import opened MemoryCache

  // An entry of the shared level; without an expiry it stays until deleted.
  datatype SharedEntry = SharedEntry(value: Any, expires: Option<Time>)
  type Shared = map<Key, SharedEntry>

  predicate SharedLive(m: Shared, k: Key, now: Time) {
    k in m && (m[k].expires.Some? ==> now < m[k].expires.value)
  }

  function LiveKeys(m: Shared, now: Time): set<Key> {
    set k | k in m && SharedLive(m, k, now)
  }

  function SharedLookup(m: Shared, k: Key, now: Time): Any {
    if SharedLive(m, k, now) then m[k].value else None
  }

  /** `if ttl: setex(...) else: set(...)`. */
  function SharedPut(m: Shared, k: Key, v: Any, ttl: Time, now: Time): Shared {
    m[k := SharedEntry(v, if ttl == 0.0 then None else Some(now + ttl))]
  }

  /** The client refuses None, and the server a negative lifetime. */
  predicate Storable(v: Any, ttl: Time) {
    v.Some? && ttl >= 0.0
  }

  /** The server every process talks to.  `up` says whether it answers this request. */
  class RedisCacheBackend {
    var store: Shared
    const enabled: bool

    constructor (enabled: bool)
      ensures store == map[] && this.enabled == enabled
    {
      store := map[];
      this.enabled := enabled;
    }

    /** Whatever goes wrong reads as a miss. */
    method Get(key: Key, now: Time, up: bool) returns (value: Any)
      ensures value == if enabled && up then SharedLookup(store, key, now) else None
    {
      if !enabled || !up || key !in store { return None; }
      var entry := store[key];
      if entry.expires.Some? && entry.expires.value <= now { return None; }
      return entry.value;
    }

    /**
     `setex` with a lifetime, `set` without.  After a success every later lookup of the key reports the
     value until the lifetime is over, for ever if it is zero; every other lookup reports what it did.
     */
    method Set(key: Key, value: Any, ttl: Time, now: Time, up: bool) returns (success: bool)
      modifies this
      ensures success <==> enabled && up && value.Some? && ttl >= 0.0
      ensures success ==> forall t :: now <= t ==>
                SharedLookup(store, key, t) == if ttl == 0.0 || t < now + ttl then value else None
      ensures forall k, t :: k != key || !success ==> SharedLookup(store, k, t) == SharedLookup(old(store), k, t)
      ensures store == StoredFar(old(store), enabled && up, key, value, ttl, now)
    {
      if !enabled || !up { return false; }
      if value.None? { return false; }
      if ttl != 0.0 {
        if ttl < 0.0 { return false; }
        store := store[key := SharedEntry(value, Some(now + ttl))];
      } else {
        store := store[key := SharedEntry(value, None)];
      }
      return true;
    }

    method Delete(key: Key, up: bool) returns (success: bool)
      modifies this
      ensures success == (enabled && up)
      ensures store == if success then old(store) - {key} else old(store)
    {
      success := enabled && up;
      if success { store := store - {key}; }
    }

    /** The server neither lists nor counts expired keys. */
    method ClearAll(now: Time, up: bool) returns (count: nat)
      modifies this
      ensures store == if enabled && up then map[] else old(store)
      ensures count == if enabled && up then |LiveKeys(old(store), now)| else 0
    {
      if !enabled || !up { return 0; }
      count := |LiveKeys(store, now)|;
      store := map[];
    }
  }

  // ---------------------------------------------------------------- the configured lifetimes

  // `strategy` lists the configured (pattern, ttl) pairs in their order.
  datatype Policy = Policy(strategy: seq<(string, Time)>, memoryDefault: Time)

  /** Position of the first pattern that occurs in the key, or the length of the list. */
  function FirstMatch(strategy: seq<(string, Time)>, key: Key): nat {
    if strategy == [] || Contains(key, strategy[0].0) then 0 else 1 + FirstMatch(strategy[1..], key)
  }

  lemma {:induction false} FirstMatchIsFirst(strategy: seq<(string, Time)>, key: Key)
    ensures var n := FirstMatch(strategy, key);
            && n <= |strategy|
            && (n < |strategy| ==> Contains(key, strategy[n].0))
            && forall i :: 0 <= i < n ==> !Contains(key, strategy[i].0)
  {
    if strategy != [] && !Contains(key, strategy[0].0) {
      FirstMatchIsFirst(strategy[1..], key);
    }
  }

  /** `dict.get(name, fallback)` of the strategy table. */
  function Configured(strategy: seq<(string, Time)>, name: string, fallback: Time): Time {
    if strategy == [] then fallback
    else if strategy[0].0 == name then strategy[0].1 else Configured(strategy[1..], name, fallback)
  }

  /** What the table of lifetimes says for a key: the first pattern that occurs in it, else "default", else 300. */
  ghost predicate TableSays(strategy: seq<(string, Time)>, key: Key, ttl: Time) {
    || (exists i :: 0 <= i < |strategy| && Contains(key, strategy[i].0) && strategy[i].1 == ttl
                    && forall j :: 0 <= j < i ==> !Contains(key, strategy[j].0))
    || ((forall i :: 0 <= i < |strategy| ==> !Contains(key, strategy[i].0)) && DefaultSays(strategy, ttl))
  }

  ghost predicate DefaultSays(strategy: seq<(string, Time)>, ttl: Time) {
    || (exists i :: 0 <= i < |strategy| && strategy[i].0 == "default" && strategy[i].1 == ttl
                    && forall j :: 0 <= j < i ==> strategy[j].0 != "default")
    || ((forall i :: 0 <= i < |strategy| ==> strategy[i].0 != "default") && ttl == 300.0)
  }

  lemma {:induction false} ConfiguredDefault(strategy: seq<(string, Time)>)
    ensures DefaultSays(strategy, Configured(strategy, "default", 300.0))
  {
    if strategy != [] && strategy[0].0 != "default" {
      ConfiguredDefault(strategy[1..]);
      var ttl := Configured(strategy[1..], "default", 300.0);
      if i :| 0 <= i < |strategy[1..]| && strategy[1..][i].0 == "default" && strategy[1..][i].1 == ttl
              && forall j :: 0 <= j < i ==> strategy[1..][j].0 != "default" {
        assert strategy[i + 1].0 == "default" && strategy[i + 1].1 == ttl;
        assert forall j :: 0 <= j < i + 1 ==> strategy[j].0 != "default" by {
          assert forall j :: 0 < j < i + 1 ==> strategy[j] == strategy[1..][j - 1];
        }
      } else {
        assert forall i :: 0 < i < |strategy| ==> strategy[i] == strategy[1..][i - 1];
      }
    }
  }

  lemma TtlForTable(p: Policy, key: Key)
    ensures TableSays(p.strategy, key, TtlFor(p, key))
  {
    FirstMatchIsFirst(p.strategy, key);
    ConfiguredDefault(p.strategy);
  }

  /** The table says one thing. */
  lemma TableIsFunctional(strategy: seq<(string, Time)>, key: Key, a: Time, b: Time)
    requires TableSays(strategy, key, a) && TableSays(strategy, key, b)
    ensures a == b
  {
  }

  /** The lifetime a `set` asks for: the one given, else what the table says. */
  ghost predicate Asks(p: Policy, key: Key, given: Option<Time>, ttl: Time) {
    if given.Some? then ttl == given.value else TableSays(p.strategy, key, ttl)
  }

  lemma AskedIsResolved(p: Policy, key: Key, given: Option<Time>)
    ensures Asks(p, key, given, Resolved(p, key, given))
    ensures forall ttl :: Asks(p, key, given, ttl) ==> ttl == Resolved(p, key, given)
  {
    TtlForTable(p, key);
    forall ttl | Asks(p, key, given, ttl) ensures ttl == Resolved(p, key, given) {
      if given.None? { TableIsFunctional(p.strategy, key, ttl, TtlFor(p, key)); }
    }
  }

  function TtlFor(p: Policy, key: Key): Time {
    var n := FirstMatch(p.strategy, key);
    FirstMatchIsFirst(p.strategy, key);
    if n < |p.strategy| then p.strategy[n].1 else Configured(p.strategy, "default", 300.0)
  }

  method GetTtlForKey(p: Policy, key: Key) returns (ttl: Time)
    ensures TableSays(p.strategy, key, ttl) && ttl == TtlFor(p, key)
  {
    FirstMatchIsFirst(p.strategy, key);
    TtlForTable(p, key);
    for i := 0 to |p.strategy|
      invariant i <= FirstMatch(p.strategy, key)
    {
      if Contains(key, p.strategy[i].0) {
        return p.strategy[i].1;
      }
    }
    return Configured(p.strategy, "default", 300.0);
  }

  function Resolved(p: Policy, key: Key, ttl: Option<Time>): Time {
    if ttl.Some? then ttl.value else TtlFor(p, key)
  }

  /** How long a copy from the shared level stays in memory. */
  function BackfillTtl(p: Policy, key: Key): Time {
    Effective(Some(TtlFor(p, key)), p.memoryDefault)
  }

  // ---------------------------------------------------------------- operations on the two levels

  datatype Level = InMemory | InShared | Nowhere
  datatype Fetched = Fetched(l1: Option<Store>, value: Any, level: Level)

  /** Memory first, then the shared level if it answers; what is found there is copied into memory. */
  function Fetch(l1: Option<Store>, l2: Shared, up: bool, k: Key, now: Time, p: Policy): Fetched {
    var looked := if l1.Some? then Some(Looked(l1.value, k, now)) else None;
    var near := if l1.Some? then Lookup(l1.value, k, now) else None;
    if near.Some? then Fetched(looked, near, InMemory)
    else
      var far := if up then SharedLookup(l2, k, now) else None;
      if far.None? then Fetched(looked, None, Nowhere)
      else if looked.None? then Fetched(None, far, InShared)
      else Fetched(Some(looked.value[k := Entry(far, now + BackfillTtl(p, k))]), far, InShared)
  }

  function StoredNear(l1: Option<Store>, k: Key, v: Any, ttl: Time, now: Time, p: Policy): Option<Store> {
    if l1.None? then None else Some(l1.value[k := Entry(v, now + Effective(Some(ttl), p.memoryDefault))])
  }

  function StoredFar(l2: Shared, up: bool, k: Key, v: Any, ttl: Time, now: Time): Shared {
    if up && Storable(v, ttl) then SharedPut(l2, k, v, ttl, now) else l2
  }

  function ErasedNear(l1: Option<Store>, k: Key): Option<Store> {
    if l1.None? then None else Some(l1.value - {k})
  }

  function ErasedFar(l2: Shared, up: bool, k: Key): Shared {
    if up then l2 - {k} else l2
  }

  // What each level reports from now on, for a value stored there.
  ghost predicate NearReports(l1: Option<Store>, k: Key, v: Any, now: Time, ttl: Time) {
    l1.Some? ==> forall t :: Lookup(l1.value, k, t) == if t < now + ttl then v else None
  }

  ghost predicate FarReports(l2: Shared, k: Key, v: Any, now: Time, ttl: Time) {
    forall t :: SharedLookup(l2, k, t) == if t < now + ttl then v else None
  }

  /** A copy made by a lookup lives in memory exactly as long as the table of lifetimes says. */
  lemma CopyLastsAsTableSays(l1: Option<Store>, l2: Shared, k: Key, now: Time, p: Policy, ttl: Time)
    requires TableSays(p.strategy, k, ttl) && ttl > 0.0 && Fetch(l1, l2, true, k, now, p).level == InShared
    ensures var r := Fetch(l1, l2, true, k, now, p);
            && r.value == SharedLookup(l2, k, now) && NearReports(r.l1, k, r.value, now, ttl)
            && (l1.Some? ==> forall later :: Fetch(r.l1, l2, false, k, later, p).value ==
                                             if later < now + ttl then r.value else None)
  {
    TtlForTable(p, k);
    TableIsFunctional(p.strategy, k, ttl, TtlFor(p, k));
  }

  /** What `set` stores is reported under the lifetime asked for, on both levels, and nothing else changes. */
  lemma StoredIsReported(l1: Option<Store>, l2: Shared, up: bool, k: Key, v: Any, given: Option<Time>, now: Time,
                         p: Policy, ttl: Time)
    requires Asks(p, k, given, ttl) && ttl > 0.0
    ensures var l1', l2' := StoredNear(l1, k, v, Resolved(p, k, given), now, p),
                            StoredFar(l2, up, k, v, Resolved(p, k, given), now);
            && (l1'.Some? <==> l1.Some?) && NearReports(l1', k, v, now, ttl)
            && (if up && v.Some? then FarReports(l2', k, v, now, ttl) else l2' == l2)
            && (l1.Some? ==>
                  forall other, t :: other != k ==> Lookup(l1'.value, other, t) == Lookup(l1.value, other, t))
            && (forall other, t :: other != k ==> SharedLookup(l2', other, t) == SharedLookup(l2, other, t))
  {
    AskedIsResolved(p, k, given);
  }

  class EnhancedCacheManager {
    const policy: Policy
    const l1: MemoryCacheBackend?
    const l2: RedisCacheBackend?
    var hits: nat
    var misses: nat
    var sets: nat
    var deletes: nat
    var l1Hits: nat
    var l2Hits: nat

    ghost predicate Valid()
      reads this
    {
      hits == l1Hits + l2Hits && (l1 != null ==> l1.defaultTtl == policy.memoryDefault)
    }

    ghost function Near(): Option<Store>
      reads l1
    {
      if l1 == null then None else Some(l1.cache)
    }

    ghost function Far(): Shared
      reads l2
    {
      if l2 == null then map[] else l2.store
    }

    predicate Reaches(up: bool) {
      l2 != null && l2.enabled && up
    }

    /** A memory level, a shared level, or both, as the backend setting says. */
    constructor (policy: Policy, useMemory: bool, shared: RedisCacheBackend?)
      ensures Valid() && this.policy == policy && l2 == shared
      ensures Near() == if useMemory then Some(map[]) else None
      ensures l1 != null ==> fresh(l1)
      ensures hits == misses == sets == deletes == 0
    {
      this.policy := policy;
      l2 := shared;
      hits, misses, sets, deletes, l1Hits, l2Hits := 0, 0, 0, 0, 0, 0;
      if useMemory { l1 := new MemoryCacheBackend(policy.memoryDefault); } else { l1 := null; }
    }

    method Get(key: Key, now: Time, up: bool) returns (value: Any)
      requires Valid()
      modifies this, l1
      ensures Valid() && Far() == old(Far())
      ensures var r := Fetch(old(Near()), old(Far()), Reaches(up), key, now, policy);
              && value == r.value && Near() == r.l1
              && l1Hits == old(l1Hits) + (if r.level == InMemory then 1 else 0)
              && l2Hits == old(l2Hits) + (if r.level == InShared then 1 else 0)
              && misses == old(misses) + (if r.level == Nowhere then 1 else 0)
      ensures sets == old(sets) && deletes == old(deletes)
      ensures l2Hits > old(l2Hits) ==> forall ttl :: TableSays(policy.strategy, key, ttl) && ttl > 0.0 ==>
                NearReports(Near(), key, value, now, ttl)
    {
      ghost var near, far := Near(), Far();
      forall ttl | TableSays(policy.strategy, key, ttl) && ttl > 0.0
                   && Fetch(near, far, Reaches(up), key, now, policy).level == InShared
        ensures NearReports(Fetch(near, far, Reaches(up), key, now, policy).l1, key,
                            Fetch(near, far, Reaches(up), key, now, policy).value, now, ttl)
      {
        CopyLastsAsTableSays(near, far, key, now, policy, ttl);
      }
      if l1 != null {
        value := l1.Get(key, now);
        if value.Some? {
          hits, l1Hits := hits + 1, l1Hits + 1;
          return;
        }
      }
      if l2 != null && l2.enabled {
        value := l2.Get(key, now, up);
        if value.Some? {
          hits, l2Hits := hits + 1, l2Hits + 1;
          if l1 != null {
            var ttl := GetTtlForKey(policy, key);
            var _ := l1.Set(key, value, Some(ttl), now);
          }
          return;
        }
      }
      misses := misses + 1;
      return None;
    }

    method Set(key: Key, value: Any, ttl: Option<Time>, now: Time, up: bool) returns (success: bool)
      requires Valid()
      modifies this, l1, l2
      ensures Valid()
      ensures Near() == StoredNear(old(Near()), key, value, Resolved(policy, key, ttl), now, policy)
      ensures Far() == StoredFar(old(Far()), Reaches(up), key, value, Resolved(policy, key, ttl), now)
      ensures success <==> (l2 != null && l2.enabled ==> up && Storable(value, Resolved(policy, key, ttl)))
      ensures sets == old(sets) + (if success then 1 else 0)
      ensures hits == old(hits) && misses == old(misses) && deletes == old(deletes)
      ensures forall asked :: Asks(policy, key, ttl, asked) && asked > 0.0 ==>
                && NearReports(Near(), key, value, now, asked)
                && (Reaches(up) && value.Some? ==> FarReports(Far(), key, value, now, asked))
    {
      forall asked | Asks(policy, key, ttl, asked) && asked > 0.0
        ensures asked == Resolved(policy, key, ttl)
      {
        AskedIsResolved(policy, key, ttl);
      }
      var t;
      if ttl.None? { t := GetTtlForKey(policy, key); } else { t := ttl.value; }
      success := true;
      if l1 != null {
        success := l1.Set(key, value, Some(t), now);
      }
      if l2 != null && l2.enabled {
        var ok := l2.Set(key, value, t, now, up);
        success := ok && success;
      }
      if success { sets := sets + 1; }
    }

    /** Both levels are erased even when the memory level never had the key, although that makes the result False. */
    method Delete(key: Key, up: bool) returns (success: bool)
      requires Valid()
      modifies this, l1, l2
      ensures Valid()
      ensures Near() == ErasedNear(old(Near()), key) && Far() == ErasedFar(old(Far()), Reaches(up), key)
      ensures success <==> (old(Near()).Some? ==> key in old(Near()).value) && (l2 != null && l2.enabled ==> up)
      ensures deletes == old(deletes) + (if success then 1 else 0)
      ensures hits == old(hits) && misses == old(misses) && sets == old(sets)
    {
      success := true;
      if l1 != null {
        success := l1.Delete(key);
      }
      if l2 != null && l2.enabled {
        var ok := l2.Delete(key, up);
        success := ok && success;
      }
      if success { deletes := deletes + 1; }
    }

    /** `clear('*')`. */
    method ClearAll(now: Time, up: bool) returns (count: nat)
      requires Valid()
      modifies l1, l2
      ensures Valid()
      ensures Near() == (if old(Near()).Some? then Some(map[]) else None)
      ensures Far() == if Reaches(up) then map[] else old(Far())
      ensures count == (if old(Near()).Some? then |old(Near()).value| else 0)
                       + (if Reaches(up) then |LiveKeys(old(Far()), now)| else 0)
    {
      count := 0;
      if l1 != null {
        var n := l1.Clear("*");
        count := count + n;
      }
      if l2 != null && l2.enabled {
        var n := l2.ClearAll(now, up);
        count := count + n;
      }
    }
  }
}
