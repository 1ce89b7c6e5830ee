/** The in-memory backend: entries expire lazily, when somebody happens to look at them. */
module MemoryCache {
  import opened Values

  datatype Entry = Entry(value: Any, expires: Time)
  type Store = map<Key, Entry>

  predicate Live(m: Store, k: Key, now: Time) {
    k in m && m[k].expires > now
  }

  /** What a lookup reports: nothing, or the value stored (which may itself be None). */
  function Lookup(m: Store, k: Key, now: Time): Any {
    if Live(m, k, now) then m[k].value else None
  }

  /** `ttl or default`: both None and 0 select the default. */
  function Effective(ttl: Option<Time>, default: Time): Time {
    if ttl.None? || ttl.value == 0.0 then default else ttl.value
  }

  /** A lookup drops the entry it finds expired. */
  function Looked(m: Store, k: Key, now: Time): Store {
    if k in m && m[k].expires <= now then m - {k} else m
  }

  function Swept(m: Store, now: Time): Store {
    map k | k in m && m[k].expires > now :: m[k]
  }

  /** `pattern.replace('*', '')`. */
  function WithoutStars(pattern: string): string {
    if pattern == "" then ""
    else (if pattern[0] == '*' then "" else [pattern[0]]) + WithoutStars(pattern[1..])
  }

  predicate Matches(pattern: string, k: Key) {
    pattern == "*" || Contains(k, WithoutStars(pattern))
  }

  function Cleared(m: Store, pattern: string): Store {
    map k | k in m && !Matches(pattern, k) :: m[k]
  }

  // ---------------------------------------------------------------- what a pattern matches

  lemma ConcatAssociates(a: string, b: string, c: string)
    ensures (a + b) + c == a + (b + c)
  {
  }

  lemma {:induction false} WithoutStarsOfConcat(a: string, b: string)
    ensures WithoutStars(a + b) == WithoutStars(a) + WithoutStars(b)
  {
    if a == "" {
      assert a + b == b;
    } else {
      var head := if a[0] == '*' then "" else [a[0]];
      WithoutStarsOfConcat(a[1..], b);
      assert (a + b)[1..] == a[1..] + b && (a + b)[0] == a[0];
      ConcatAssociates(head, WithoutStars(a[1..]), WithoutStars(b));
    }
  }

  lemma {:induction false} WithoutStarsKeeps(a: string)
    requires '*' !in a
    ensures WithoutStars(a) == a
  {
    if a != "" {
      WithoutStarsKeeps(a[1..]);
    }
  }

  lemma OneStar(a: string, b: string)
    requires '*' !in a && '*' !in b
    ensures WithoutStars(a + "*" + b) == a + b
  {
    var front := a + "*";
    assert WithoutStars(front) == a by {
      WithoutStarsOfConcat(a, "*");
      WithoutStarsKeeps(a);
      OnlyStarsLeaveNothing("*");
      assert a + "" == a;
    }
    assert WithoutStars(b) == b by { WithoutStarsKeeps(b); }
    WithoutStarsOfConcat(front, b);
  }

  /** Stars stand for nothing in particular: `a*b` matches the keys that contain `ab`, wherever it stands. */
  lemma StarsAreDropped(a: string, b: string, k: Key)
    requires '*' !in a && '*' !in b && a + b != ""
    ensures Matches(a + "*" + b, k) <==> Contains(k, a + b)
  {
    OneStar(a, b);
    assert |a + "*" + b| > 1;
  }

  /** So a pattern of stars alone, or an empty one, clears everything. */
  lemma OnlyStarsMatchAll(pattern: string, k: Key)
    requires forall i :: 0 <= i < |pattern| ==> pattern[i] == '*'
    ensures Matches(pattern, k)
  {
    OnlyStarsLeaveNothing(pattern);
    assert "" <= k[0..];
  }

  lemma {:induction false} OnlyStarsLeaveNothing(pattern: string)
    requires forall i :: 0 <= i < |pattern| ==> pattern[i] == '*'
    ensures WithoutStars(pattern) == ""
  {
    if pattern != "" {
      OnlyStarsLeaveNothing(pattern[1..]);
    }
  }

  class MemoryCacheBackend {
    var cache: Store
    const defaultTtl: Time

    constructor (defaultTtl: Time)
      ensures cache == map[] && this.defaultTtl == defaultTtl
    {
      cache := map[];
      this.defaultTtl := defaultTtl;
    }

    method Get(key: Key, now: Time) returns (value: Any)
      modifies this
      ensures cache == Looked(old(cache), key, now) && value == Lookup(old(cache), key, now)
      ensures forall k :: k in cache <==> k in old(cache) && (k != key || old(cache)[k].expires > now)
      ensures forall k :: k in cache ==> cache[k] == old(cache)[k]
    {
      if key in cache {
        var entry := cache[key];
        if entry.expires > now {
          return entry.value;
        } else {
          cache := cache - {key};
        }
      }
      return None;
    }

    method Set(key: Key, value: Any, ttl: Option<Time>, now: Time) returns (success: bool)
      modifies this
      ensures success && cache == old(cache)[key := Entry(value, now + Effective(ttl, defaultTtl))]
      ensures ttl.Some? && ttl.value != 0.0 ==>
                forall t :: Lookup(cache, key, t) == if t < now + ttl.value then value else None
      ensures ttl.None? || ttl.value == 0.0 ==>
                forall t :: Lookup(cache, key, t) == if t < now + defaultTtl then value else None
    {
      var t := if ttl.Some? && ttl.value != 0.0 then ttl.value else defaultTtl;
      cache := cache[key := Entry(value, now + t)];
      return true;
    }

    method Delete(key: Key) returns (success: bool)
      modifies this
      ensures cache == old(cache) - {key} && success == (key in old(cache))
    {
      if key in cache {
        cache := cache - {key};
        return true;
      }
      assert cache == cache - {key};
      return false;
    }

    method Clear(pattern: string) returns (count: nat)
      modifies this
      ensures cache == Cleared(old(cache), pattern) && count == |old(cache)| - |cache|
      ensures forall k :: k in cache <==> k in old(cache) && !Matches(pattern, k)
    {
      if pattern == "*" {
        count := |cache|;
        cache := map[];
        return;
      }
      var doomed := set k | k in cache && Contains(k, WithoutStars(pattern));
      cache, count := Drop(cache, doomed);
    }

    method Exists(key: Key, now: Time) returns (found: bool)
      modifies this
      ensures cache == Looked(old(cache), key, now) && found == Live(old(cache), key, now)
      ensures forall k :: k in cache <==> k in old(cache) && (k != key || old(cache)[k].expires > now)
      ensures forall k :: k in cache ==> cache[k] == old(cache)[k]
    {
      if key in cache {
        if cache[key].expires > now {
          return true;
        } else {
          cache := cache - {key};
        }
      }
      return false;
    }

    method Cleanup(now: Time) returns (count: nat)
      modifies this
      ensures cache == Swept(old(cache), now) && count == |old(cache)| - |cache|
      ensures forall k :: k in cache <==> k in old(cache) && old(cache)[k].expires > now
      ensures forall k :: k in cache ==> cache[k] == old(cache)[k]
    {
      var doomed := set k | k in cache && cache[k].expires <= now;
      cache, count := Drop(cache, doomed);
    }
  }

  lemma DropOne(m: Store, done: set<Key>, k: Key)
    requires k in m && k !in done
    ensures (m - done) - {k} == m - (done + {k})
    ensures |m - (done + {k})| == |m - done| - 1
  {
    assert (m - done).Keys == (m - (done + {k})).Keys + {k};
  }

  /** Deletes the listed keys one by one. */
  method Drop(m: Store, doomed: set<Key>) returns (m': Store, count: nat)
    requires doomed <= m.Keys
    ensures m' == m - doomed && count == |m| - |m'|
  {
    m', count := m, |doomed|;
    var rest := doomed;
    ghost var done: set<Key> := {};
    while rest != {}
      invariant rest == doomed - done && done <= doomed
      invariant m' == m - done && |m'| + count == |m| + |rest|
      decreases |rest|
    {
      var k :| k in rest;
      DropOne(m, done, k);
      m' := m' - {k};
      rest, done := rest - {k}, done + {k};
    }
  }

  // ---------------------------------------------------------------- runs

  datatype Op =
    | Get(key: Key, at: Time)
    | Exists(key: Key, at: Time)
    | Cleanup(at: Time)
    | Set(key: Key, value: Any, ttl: Option<Time>, at: Time)
    | Delete(key: Key, at: Time)
    | Clear(pattern: string, at: Time)

  function Step(m: Store, op: Op, default: Time): Store {
    match op
    case Get(k, t) => Looked(m, k, t)
    case Exists(k, t) => Looked(m, k, t)
    case Cleanup(t) => Swept(m, t)
    case Set(k, v, ttl, t) => m[k := Entry(v, t + Effective(ttl, default))]
    case Delete(k, _) => m - {k}
    case Clear(p, _) => Cleared(m, p)
  }

  function Exec(ops: seq<Op>, default: Time): Store {
    if ops == [] then map[] else Step(Exec(ops[..|ops| - 1], default), ops[|ops| - 1], default)
  }

  /** The clock never goes back. */
  ghost predicate Monotone(ops: seq<Op>) {
    forall i, j :: 0 <= i < j < |ops| ==> ops[i].at <= ops[j].at
  }

  /** The last `set` of the key, unless a `delete` or `clear` of it came later. */
  function LastSet(ops: seq<Op>, k: Key): Option<Op> {
    if ops == [] then None else
      var op := ops[|ops| - 1];
      if op.Set? && op.key == k then Some(op)
      else if (op.Delete? && op.key == k) || (op.Clear? && Matches(op.pattern, k)) then None
      else LastSet(ops[..|ops| - 1], k)
  }

  /** What a map with exact expiry would hold for the key at the given time. */
  function Dictated(ops: seq<Op>, k: Key, now: Time, default: Time): Option<Any> {
    match LastSet(ops, k)
    case None => None
    case Some(op) =>
      if !op.Set? then None
      else if op.ttl.Some? && op.ttl.value != 0.0 then (if now < op.at + op.ttl.value then Some(op.value) else None)
      else if now < op.at + default then Some(op.value) else None
  }

  function Observed(m: Store, k: Key, now: Time): Option<Any> {
    if Live(m, k, now) then Some(m[k].value) else None
  }

  /**
   Lazy expiry refines a timed map: after any run on a monotone clock a key is reported live,
   with a value, exactly when the run dictates so, now and at every later time.
   */
  lemma {:induction false} LazyExpiryRefinesTimedMap(ops: seq<Op>, k: Key, now: Time, default: Time)
    requires Monotone(ops) && forall i :: 0 <= i < |ops| ==> ops[i].at <= now
    ensures Observed(Exec(ops, default), k, now) == Dictated(ops, k, now, default)
  {
    if ops != [] {
      LazyExpiryRefinesTimedMap(ops[..|ops| - 1], k, now, default);
    }
  }

  predicate Quiet(op: Op) {
    op.Get? || op.Exists? || op.Cleanup?
  }

  function WithoutQuiet(ops: seq<Op>): seq<Op> {
    if ops == [] then [] else
      var rest := WithoutQuiet(ops[..|ops| - 1]);
      if Quiet(ops[|ops| - 1]) then rest else rest + [ops[|ops| - 1]]
  }

  lemma LastSetAppend(ops: seq<Op>, op: Op, k: Key)
    ensures LastSet(ops + [op], k) ==
            if op.Set? && op.key == k then Some(op)
            else if (op.Delete? && op.key == k) || (op.Clear? && Matches(op.pattern, k)) then None
            else LastSet(ops, k)
  {
    assert (ops + [op])[..|ops|] == ops;
  }

  lemma {:induction false} LastSetIgnoresQuiet(ops: seq<Op>, k: Key)
    ensures LastSet(WithoutQuiet(ops), k) == LastSet(ops, k)
  {
    if ops != [] {
      var n := |ops| - 1;
      LastSetIgnoresQuiet(ops[..n], k);
      assert ops == ops[..n] + [ops[n]];
      LastSetAppend(ops[..n], ops[n], k);
      if !Quiet(ops[n]) { LastSetAppend(WithoutQuiet(ops[..n]), ops[n], k); }
    }
  }

  lemma {:induction false} WithoutQuietKeepsOrder(ops: seq<Op>, bound: Time)
    requires Monotone(ops) && forall i :: 0 <= i < |ops| ==> ops[i].at <= bound
    ensures Monotone(WithoutQuiet(ops)) && forall i :: 0 <= i < |WithoutQuiet(ops)| ==> WithoutQuiet(ops)[i].at <= bound
  {
    if ops != [] {
      WithoutQuietKeepsOrder(ops[..|ops| - 1], ops[|ops| - 1].at);
    }
  }

  /** Dropping every `get`, `exists` and `cleanup` from a run changes no later lookup. */
  lemma ReadsAreInvisible(ops: seq<Op>, k: Key, now: Time, default: Time)
    requires Monotone(ops) && forall i :: 0 <= i < |ops| ==> ops[i].at <= now
    ensures Observed(Exec(ops, default), k, now) == Observed(Exec(WithoutQuiet(ops), default), k, now)
  {
    LazyExpiryRefinesTimedMap(ops, k, now, default);
    WithoutQuietKeepsOrder(ops, now);
    LazyExpiryRefinesTimedMap(WithoutQuiet(ops), k, now, default);
    LastSetIgnoresQuiet(ops, k);
  }
}
