/**
 The `coalesced_cached` decorator: cache lookup, then the coalescer, whose primary runs the
 function and stores its value.  Any number of requests interleave, and the cache may lose
 entries, or copy them between its levels, at any moment.
 */
module Memoised {
  import opened Values
  import opened MemoryCache
  import opened CacheManager
  import opened Cached
  import Coalescer
  import SingleFlight

  // `f` is the plain function, and `made` selects the arguments it is called with.
  datatype Memo<!Args> = Memo(
    f: Args -> Outcome, keyOf: Args -> Key, made: Args -> bool, ttl: Option<Time>, policy: Policy)

  // A request got a cached value, or missed and is about to enter the coalescer, or has entered it.
  datatype Request<Args> =
    | Hit(args: Args, value: Any)
    | Missed(args: Args)
    | Inside(args: Args, call: nat, stored: bool)

  datatype System<Args> = System(co: Coalescer.World, l1: Option<Store>, l2: Shared, requests: seq<Request<Args>>)

  datatype Move<Args> =
    | Look(args: Args, now: Time, up: bool)
    | Begin(r: nat)
    | Store(r: nat, now: Time, up: bool)
    | Advance(r: nat, action: Coalescer.Action)
    | Disturb(l1: Option<Store>, l2: Shared)

  predicate CanAdvance<Args(!new)>(m: Memo<Args>, s: System<Args>, r: nat, a: Coalescer.Action) {
    && r < |s.requests| && s.requests[r].Inside?
    && !a.Enter? && a.i == s.requests[r].call && Coalescer.Enabled(s.co, a)
    && (a.Publish? ==>
          && a.outcome == m.f(s.requests[r].args)
          && (a.outcome.Returned? ==> s.requests[r].stored))
  }

  /** Each entry's value was already cached for its key. */
  ghost predicate NothingNew(l1: Option<Store>, l2: Shared, l1': Option<Store>, l2': Shared) {
    && (l1'.Some? ==> forall k :: k in l1'.value ==>
          || (l1.Some? && k in l1.value && l1'.value[k].value == l1.value[k].value)
          || (k in l2 && l1'.value[k].value == l2[k].value))
    && (forall k :: k in l2' ==> k in l2 && l2'[k].value == l2[k].value)
  }

  ghost predicate Can<Args(!new)>(m: Memo<Args>, s: System<Args>, v: Move<Args>) {
    match v
    case Look(args, _, _) => m.made(args)
    case Begin(r) => r < |s.requests| && s.requests[r].Missed?
    case Store(r, _, _) =>
      && r < |s.requests| && s.requests[r].Inside? && !s.requests[r].stored
      && s.requests[r].call < |s.co.calls| && s.co.calls[s.requests[r].call].phase.Running?
      && m.f(s.requests[r].args).Returned?
    case Advance(r, a) => CanAdvance(m, s, r, a)
    case Disturb(l1, l2) => NothingNew(s.l1, s.l2, l1, l2)
  }

  ghost function Do<Args(!new)>(m: Memo<Args>, s: System<Args>, v: Move<Args>): System<Args>
    requires Can(m, s, v)
  {
    match v
    case Look(args, now, up) =>
      var r := Fetch(s.l1, s.l2, up, m.keyOf(args), now, m.policy);
      s.(l1 := r.l1, requests := s.requests + [if r.value.Some? then Hit(args, r.value) else Missed(args)])
    case Begin(r) =>
      var args := s.requests[r].args;
      s.(co := Coalescer.Next(s.co, Coalescer.Enter(m.keyOf(args))),
         requests := s.requests[r := Inside(args, |s.co.calls|, false)])
    case Store(r, now, up) =>
      var args := s.requests[r].args;
      var k, ttl := m.keyOf(args), Resolved(m.policy, m.keyOf(args), m.ttl);
      System(s.co, StoredNear(s.l1, k, m.f(args).value, ttl, now, m.policy),
             StoredFar(s.l2, up, k, m.f(args).value, ttl, now), s.requests[r := s.requests[r].(stored := true)])
    case Advance(r, a) => s.(co := Coalescer.Next(s.co, a))
    case Disturb(l1, l2) => s.(l1 := l1, l2 := l2)
  }

  ghost predicate Allowed<Args(!new)>(m: Memo<Args>, s: System<Args>, run: seq<Move<Args>>)
    decreases |run|
  {
    run == [] || (Can(m, s, run[0]) && Allowed(m, Do(m, s, run[0]), run[1..]))
  }

  ghost function AfterRun<Args(!new)>(m: Memo<Args>, s: System<Args>, run: seq<Move<Args>>): System<Args>
    requires Allowed(m, s, run)
    decreases |run|
  {
    if run == [] then s else AfterRun(m, Do(m, s, run[0]), run[1..])
  }

  /** What a request has come to, if it is over. */
  function AnswerOf<Args>(s: System<Args>, r: nat): Option<Coalescer.Answer>
    requires r < |s.requests|
  {
    match s.requests[r]
    case Hit(_, v) => Some(Coalescer.Got(Returned(v)))
    case Missed(_) => None
    case Inside(_, c, _) =>
      if c < |s.co.calls| && s.co.calls[c].phase.Left? then Some(s.co.calls[c].phase.answer) else None
  }

  /** Every request that is over got what the plain function gives, or timed out. */
  ghost predicate Right<Args(!new)>(m: Memo<Args>, s: System<Args>) {
    forall r :: 0 <= r < |s.requests| && AnswerOf(s, r).Some? ==>
      AnswerOf(s, r).value == Coalescer.Got(m.f(s.requests[r].args)) || AnswerOf(s, r).value == Coalescer.TimeoutError
  }

  // ---------------------------------------------------------------- the invariant

  ghost predicate CacheFaithful<Args(!new)>(m: Memo<Args>, s: System<Args>) {
    FaithfulLevels(s.l1, s.l2, m.f, m.keyOf, m.made)
  }

  ghost predicate LogFaithful<Args(!new)>(m: Memo<Args>, co: Coalescer.World) {
    forall j, a :: 0 <= j < |co.log| && m.made(a) && m.keyOf(a) == co.log[j].event.key ==> co.log[j].outcome == m.f(a)
  }

  ghost predicate CallFaithful<Args(!new)>(m: Memo<Args>, c: Coalescer.Call, a: Args) {
    && (c.phase.Published? ==> c.phase.outcome == m.f(a))
    && (c.phase.Left? ==> c.phase.answer == Coalescer.Got(m.f(a)) || c.phase.answer == Coalescer.TimeoutError)
  }

  ghost predicate CallsFaithful<Args(!new)>(m: Memo<Args>, co: Coalescer.World) {
    forall i, a :: 0 <= i < |co.calls| && m.made(a) && m.keyOf(a) == co.calls[i].key ==> CallFaithful(m, co.calls[i], a)
  }

  ghost predicate RequestFaithful<Args(!new)>(m: Memo<Args>, s: System<Args>, q: Request<Args>) {
    && m.made(q.args)
    && (q.Hit? ==> m.f(q.args) == Returned(q.value))
    && (q.Inside? ==> q.call < |s.co.calls| && s.co.calls[q.call].key == m.keyOf(q.args))
  }

  ghost predicate RequestsFaithful<Args(!new)>(m: Memo<Args>, s: System<Args>) {
    forall r :: 0 <= r < |s.requests| ==> RequestFaithful(m, s, s.requests[r])
  }

  ghost predicate Good<Args(!new)>(m: Memo<Args>, s: System<Args>) {
    && Coalescer.Inv(s.co) && CacheFaithful(m, s) && LogFaithful(m, s.co)
    && CallsFaithful(m, s.co) && RequestsFaithful(m, s)
  }

  /** The acting call's new phase is right for every argument that shares its key. */
  lemma AdvanceCall<Args(!new)>(m: Memo<Args>, s: System<Args>, r: nat, a: Coalescer.Action, x: Args)
    requires KeysDetermine(m.f, m.keyOf, m.made) && Coalescer.Inv(s.co) && LogFaithful(m, s.co)
    requires RequestsFaithful(m, s) && CanAdvance(m, s, r, a)
    requires m.made(x) && m.keyOf(x) == s.co.calls[a.i].key && CallFaithful(m, s.co.calls[a.i], x)
    ensures CallFaithful(m, Coalescer.Next(s.co, a).calls[a.i], x)
    ensures a.Publish? ==> a.outcome == m.f(x)
  {
    var own := s.requests[r].args;
    assert RequestFaithful(m, s, s.requests[r]);
    assert m.f(x) == m.f(own);
    if a.Read? {
      SingleFlight.ReadAgrees(s.co, a.i);
    }
  }

  lemma AdvanceFaithful<Args(!new)>(m: Memo<Args>, s: System<Args>, r: nat, a: Coalescer.Action)
    requires KeysDetermine(m.f, m.keyOf, m.made)
    requires Good(m, s) && CanAdvance(m, s, r, a)
    ensures LogFaithful(m, Coalescer.Next(s.co, a)) && CallsFaithful(m, Coalescer.Next(s.co, a))
  {
    forall x | m.made(x) && m.keyOf(x) == s.co.calls[a.i].key
      ensures CallFaithful(m, Coalescer.Next(s.co, a).calls[a.i], x) && (a.Publish? ==> a.outcome == m.f(x))
    {
      assert CallFaithful(m, s.co.calls[a.i], x);
      AdvanceCall(m, s, r, a, x);
    }
    AdvanceFrames(m, s.co, a);
  }

  lemma AdvanceFrames<Args(!new)>(m: Memo<Args>, co: Coalescer.World, a: Coalescer.Action)
    requires !a.Enter? && Coalescer.Enabled(co, a) && LogFaithful(m, co) && CallsFaithful(m, co)
    requires co.calls[a.i].event.key == co.calls[a.i].key
    requires forall x :: m.made(x) && m.keyOf(x) == co.calls[a.i].key ==>
               CallFaithful(m, Coalescer.Next(co, a).calls[a.i], x) && (a.Publish? ==> a.outcome == m.f(x))
    ensures LogFaithful(m, Coalescer.Next(co, a)) && CallsFaithful(m, Coalescer.Next(co, a))
  {
    assert forall i :: 0 <= i < |co.calls| && i != a.i ==> Coalescer.Next(co, a).calls[i] == co.calls[i];
  }

  lemma EnterFaithful<Args(!new)>(m: Memo<Args>, co: Coalescer.World, k: Key)
    requires LogFaithful(m, co) && CallsFaithful(m, co)
    ensures LogFaithful(m, Coalescer.Next(co, Coalescer.Enter(k)))
    ensures CallsFaithful(m, Coalescer.Next(co, Coalescer.Enter(k)))
  {
    var co' := Coalescer.Next(co, Coalescer.Enter(k));
    assert forall i :: 0 <= i < |co.calls| ==> co'.calls[i] == co.calls[i];
  }

  lemma BeginRequests<Args(!new)>(m: Memo<Args>, s: System<Args>, r: nat)
    requires RequestsFaithful(m, s) && Can(m, s, Begin(r))
    ensures RequestsFaithful(m, Do(m, s, Begin(r)))
  {
    var s' := Do(m, s, Begin(r));
    assert RequestFaithful(m, s, s.requests[r]);
    forall i | 0 <= i < |s.requests| ensures RequestFaithful(m, s', s'.requests[i]) {
      assert RequestFaithful(m, s, s.requests[i]);
    }
  }

  lemma BeginFaithful<Args(!new)>(m: Memo<Args>, s: System<Args>, r: nat)
    requires Good(m, s) && Can(m, s, Begin(r))
    ensures Good(m, Do(m, s, Begin(r)))
  {
    var k := m.keyOf(s.requests[r].args);
    Coalescer.EnterInv(s.co, k);
    EnterFaithful(m, s.co, k);
    BeginRequests(m, s, r);
  }

  lemma StoreFaithful<Args(!new)>(m: Memo<Args>, s: System<Args>, v: Move<Args>)
    requires KeysDetermine(m.f, m.keyOf, m.made)
    requires CacheFaithful(m, s) && RequestsFaithful(m, s) && Can(m, s, v) && v.Store?
    ensures CacheFaithful(m, Do(m, s, v)) && RequestsFaithful(m, Do(m, s, v))
  {
    var s' := Do(m, s, v);
    assert RequestFaithful(m, s, s.requests[v.r]);
    forall i | 0 <= i < |s.requests| ensures RequestFaithful(m, s', s'.requests[i]) {
      assert RequestFaithful(m, s, s.requests[i]);
    }
  }

  lemma DisturbFaithful<Args(!new)>(m: Memo<Args>, s: System<Args>, v: Move<Args>)
    requires CacheFaithful(m, s) && RequestsFaithful(m, s) && Can(m, s, v) && v.Disturb?
    ensures CacheFaithful(m, Do(m, s, v)) && RequestsFaithful(m, Do(m, s, v))
  {
    var s' := Do(m, s, v);
    forall i | 0 <= i < |s.requests| ensures RequestFaithful(m, s', s'.requests[i]) {
      assert RequestFaithful(m, s, s.requests[i]);
    }
  }

  lemma AdvanceRequests<Args(!new)>(m: Memo<Args>, s: System<Args>, v: Move<Args>)
    requires RequestsFaithful(m, s) && Can(m, s, v) && v.Advance?
    ensures RequestsFaithful(m, Do(m, s, v))
  {
    var s' := Do(m, s, v);
    forall i | 0 <= i < |s.requests| ensures RequestFaithful(m, s', s'.requests[i]) {
      assert RequestFaithful(m, s, s.requests[i]);
    }
  }

  lemma LookFaithful<Args(!new)>(m: Memo<Args>, s: System<Args>, v: Move<Args>)
    requires CacheFaithful(m, s) && RequestsFaithful(m, s) && Can(m, s, v) && v.Look?
    ensures CacheFaithful(m, Do(m, s, v)) && RequestsFaithful(m, Do(m, s, v))
  {
    var s' := Do(m, s, v);
    forall r | 0 <= r < |s'.requests| ensures RequestFaithful(m, s', s'.requests[r]) {
      if r < |s.requests| { assert RequestFaithful(m, s, s.requests[r]); }
    }
  }

  lemma MoveFaithful<Args(!new)>(m: Memo<Args>, s: System<Args>, v: Move<Args>)
    requires KeysDetermine(m.f, m.keyOf, m.made)
    requires Good(m, s) && Can(m, s, v)
    ensures Good(m, Do(m, s, v))
  {
    match v
    case Look(_, _, _) => LookFaithful(m, s, v);
    case Begin(r) => BeginFaithful(m, s, r);
    case Store(_, _, _) => StoreFaithful(m, s, v);
    case Advance(r, a) =>
      Coalescer.StepInv(s.co, a);
      AdvanceFaithful(m, s, r, a);
      AdvanceRequests(m, s, v);
    case Disturb(_, _) => DisturbFaithful(m, s, v);
  }

  lemma GoodIsRight<Args(!new)>(m: Memo<Args>, s: System<Args>)
    requires CallsFaithful(m, s.co) && RequestsFaithful(m, s)
    ensures Right(m, s)
  {
    forall r | 0 <= r < |s.requests| && AnswerOf(s, r).Some?
      ensures AnswerOf(s, r).value in [Coalescer.Got(m.f(s.requests[r].args)), Coalescer.TimeoutError]
    {
      assert RequestFaithful(m, s, s.requests[r]);
      if s.requests[r].Inside? { assert CallFaithful(m, s.co.calls[s.requests[r].call], s.requests[r].args); }
    }
  }

  lemma {:induction false} RunFaithful<Args(!new)>(m: Memo<Args>, s: System<Args>, run: seq<Move<Args>>)
    requires KeysDetermine(m.f, m.keyOf, m.made)
    requires Good(m, s) && Allowed(m, s, run)
    ensures Good(m, AfterRun(m, s, run))
    decreases |run|
  {
    if run != [] {
      MoveFaithful(m, s, run[0]);
      RunFaithful(m, Do(m, s, run[0]), run[1..]);
    }
  }

  ghost function Fresh<Args(!new)>(useMemory: bool): System<Args> {
    System(Coalescer.START, if useMemory then Some(map[]) else None, map[], [])
  }

  ghost predicate AlwaysRight<Args(!new)>(m: Memo<Args>, useMemory: bool) {
    forall run :: Allowed(m, Fresh(useMemory), run) ==> Right(m, AfterRun(m, Fresh(useMemory), run))
  }

  /** Memoisation and coalescing are transparent: a request gets the plain call's outcome or times out. */
  lemma MemoisedAgreesWithPlain<Args(!new)>(m: Memo<Args>, useMemory: bool)
    requires KeysDetermine(m.f, m.keyOf, m.made)
    ensures AlwaysRight(m, useMemory)
  {
    forall run | Allowed(m, Fresh(useMemory), run) ensures Right(m, AfterRun(m, Fresh(useMemory), run)) {
      Coalescer.StartInv();
      RunFaithful(m, Fresh(useMemory), run);
      GoodIsRight(m, AfterRun(m, Fresh(useMemory), run));
    }
  }

  // ---------------------------------------------------------------- colliding keys

  lemma Prepend<Args(!new)>(m: Memo<Args>, s: System<Args>, v: Move<Args>, rest: seq<Move<Args>>)
    requires Can(m, s, v) && Allowed(m, Do(m, s, v), rest)
    ensures Allowed(m, s, [v] + rest) && AfterRun(m, s, [v] + rest) == AfterRun(m, Do(m, s, v), rest)
  {
    assert ([v] + rest)[1..] == rest;
  }

  // Two requests in the coalescer under one key: the first is the primary, about to publish.
  function Paired<Args>(a: Args, b: Args, k: Key, stored: bool, l1: Option<Store>, l2: Shared): System<Args> {
    var e := Coalescer.Event(k, 0);
    System(Coalescer.World(Coalescer.Tables({k}, map[k := e], map[], map[k := 1], 2, {}),
                           [Coalescer.Call(k, e, true, Coalescer.Running),
                            Coalescer.Call(k, e, false, Coalescer.Waiting)], []),
           l1, l2, [Inside(a, 0, stored), Inside(b, 1, false)])
  }

  /** Both requests miss in the empty cache and enter. */
  lemma ReachPaired<Args(!new)>(m: Memo<Args>, useMemory: bool, a: Args, b: Args, rest: seq<Move<Args>>)
    requires m.made(a) && m.made(b) && m.keyOf(a) == m.keyOf(b)
    requires var s := Fresh<Args>(useMemory); Allowed(m, Paired(a, b, m.keyOf(a), false, s.l1, s.l2), rest)
    ensures var s := Fresh<Args>(useMemory);
            var run := [Look(a, 0.0, true)] + ([Look(b, 0.0, true)] + ([Begin(0)] + ([Begin(1)] + rest)));
            Allowed(m, s, run) && AfterRun(m, s, run) == AfterRun(m, Paired(a, b, m.keyOf(a), false, s.l1, s.l2), rest)
  {
    var s := Fresh<Args>(useMemory);
    var s1 := Do(m, s, Look(a, 0.0, true));
    var s2 := Do(m, s1, Look(b, 0.0, true));
    assert s2 == System(Coalescer.START, s.l1, s.l2, [Missed(a), Missed(b)]);
    var s3 := Do(m, s2, Begin(0));
    var s4 := Do(m, s3, Begin(1));
    assert s4 == Paired(a, b, m.keyOf(a), false, s.l1, s.l2);
    Prepend(m, s3, Begin(1), rest);
    Prepend(m, s2, Begin(0), [Begin(1)] + rest);
    Prepend(m, s1, Look(b, 0.0, true), [Begin(0)] + ([Begin(1)] + rest));
    Prepend(m, s, Look(a, 0.0, true), [Look(b, 0.0, true)] + ([Begin(0)] + ([Begin(1)] + rest)));
  }

  /** The primary publishes its outcome, and the waiter takes it. */
  lemma PairedShare<Args(!new)>(m: Memo<Args>, a: Args, b: Args, stored: bool, l1: Option<Store>, l2: Shared)
      returns (rest: seq<Move<Args>>)
    requires m.f(a).Returned? ==> stored
    ensures var s := Paired(a, b, m.keyOf(a), stored, l1, l2);
            && Allowed(m, s, rest)
            && var s' := AfterRun(m, s, rest);
               |s'.requests| == 2 && s'.requests[1].args == b && AnswerOf(s', 1) == Some(Coalescer.Got(m.f(a)))
  {
    var s := Paired(a, b, m.keyOf(a), stored, l1, l2);
    var publish := Advance(0, Coalescer.Publish(0, m.f(a)));
    var wake := Advance(1, Coalescer.Wake(1));
    var read := Advance(1, Coalescer.Read(1));
    var s1 := Do(m, s, publish);
    var s2 := Do(m, s1, wake);
    var s3 := Do(m, s2, read);
    Prepend(m, s2, read, []);
    Prepend(m, s1, wake, [read] + []);
    Prepend(m, s, publish, [wake] + ([read] + []));
    rest := [publish] + ([wake] + ([read] + []));
  }

  /** Two calls that share a key but differ in outcome: some interleaving gives one the other's outcome. */
  lemma CollisionGoesWrong<Args(!new)>(m: Memo<Args>, useMemory: bool, a: Args, b: Args)
    requires m.made(a) && m.made(b) && m.keyOf(a) == m.keyOf(b) && m.f(a) != m.f(b)
    ensures !AlwaysRight(m, useMemory)
  {
    var s := Fresh<Args>(useMemory);
    var s0 := Paired(a, b, m.keyOf(a), false, s.l1, s.l2);
    var tail;
    if m.f(a).Returned? {
      var store := Store(0, 0.0, true);
      var s1 := Do(m, s0, store);
      assert s1 == Paired(a, b, m.keyOf(a), true, s1.l1, s1.l2);
      tail := PairedShare(m, a, b, true, s1.l1, s1.l2);
      Prepend(m, s0, store, tail);
      tail := [store] + tail;
    } else {
      tail := PairedShare(m, a, b, false, s.l1, s.l2);
    }
    ReachPaired(m, useMemory, a, b, tail);
    var run := [Look(a, 0.0, true)] + ([Look(b, 0.0, true)] + ([Begin(0)] + ([Begin(1)] + tail)));
    assert !Right(m, AfterRun(m, s, run));
  }

  /** Transparency holds exactly when the cache key determines the outcome on the calls made. */
  lemma RightIffKeysDetermine<Args(!new)>(m: Memo<Args>, useMemory: bool)
    ensures AlwaysRight(m, useMemory) <==> KeysDetermine(m.f, m.keyOf, m.made)
  {
    if KeysDetermine(m.f, m.keyOf, m.made) {
      MemoisedAgreesWithPlain(m, useMemory);
    } else {
      var a, b :| m.made(a) && m.made(b) && m.keyOf(a) == m.keyOf(b) && m.f(a) != m.f(b);
      CollisionGoesWrong(m, useMemory, a, b);
    }
  }

  // ---------------------------------------------------------------- what the wrapper caches

  /** The move neither stores the key nor disturbs what memory holds for it; lookups come no later than `t`. */
  ghost predicate LeavesNear<Args(!new)>(m: Memo<Args>, s: System<Args>, v: Move<Args>, k: Key, t: Time) {
    match v
    case Look(a, now, _) => m.keyOf(a) == k ==> now <= t
    case Store(r, _, _) => r < |s.requests| ==> m.keyOf(s.requests[r].args) != k
    case Disturb(l1, _) =>
      && (l1.Some? <==> s.l1.Some?)
      && (l1.Some? && s.l1.Some? ==>
            (k in l1.value <==> k in s.l1.value) && (k in l1.value && k in s.l1.value ==> l1.value[k] == s.l1.value[k]))
    case _ => true
  }

  ghost predicate AllLeaveNear<Args(!new)>(m: Memo<Args>, s: System<Args>, run: seq<Move<Args>>, k: Key, t: Time)
    requires Allowed(m, s, run)
    decreases |run|
  {
    run == [] || (LeavesNear(m, s, run[0], k, t) && AllLeaveNear(m, Do(m, s, run[0]), run[1..], k, t))
  }

  /** Memory holds this entry of the key until it ends, and nothing else. */
  predicate NearHolds<Args>(s: System<Args>, k: Key, e: Entry, t: Time) {
    && s.l1.Some? && (k in s.l1.value ==> s.l1.value[k] == e) && (t < e.expires ==> k in s.l1.value)
  }

  lemma NearStep<Args(!new)>(m: Memo<Args>, s: System<Args>, v: Move<Args>, k: Key, e: Entry, t: Time)
    requires Can(m, s, v) && LeavesNear(m, s, v, k, t) && NearHolds(s, k, e, t) && e.value.Some?
    requires t < e.expires || k !in s.l2
    ensures NearHolds(Do(m, s, v), k, e, t) && (k !in s.l2 ==> k !in Do(m, s, v).l2)
  {
  }

  lemma {:induction false} NearRun<Args(!new)>(m: Memo<Args>, s: System<Args>, run: seq<Move<Args>>, k: Key,
                                               e: Entry, t: Time)
    requires Allowed(m, s, run) && AllLeaveNear(m, s, run, k, t) && NearHolds(s, k, e, t) && e.value.Some?
    requires t < e.expires || k !in s.l2
    ensures NearHolds(AfterRun(m, s, run), k, e, t) && (k !in s.l2 ==> k !in AfterRun(m, s, run).l2)
    decreases |run|
  {
    if run != [] {
      NearStep(m, s, run[0], k, e, t);
      NearRun(m, Do(m, s, run[0]), run[1..], k, e, t);
    }
  }

  lemma StoreFillsNear<Args(!new)>(m: Memo<Args>, s: System<Args>, store: Move<Args>, ttl: Time, t: Time)
    requires Can(m, s, store) && store.Store? && s.l1.Some? && ttl > 0.0
    requires var args := s.requests[store.r].args; Asks(m.policy, m.keyOf(args), m.ttl, ttl)
    ensures var args := s.requests[store.r].args;
            NearHolds(Do(m, s, store), m.keyOf(args), Entry(m.f(args).value, store.now + ttl), t)
  {
    AskedIsResolved(m.policy, m.keyOf(s.requests[store.r].args), m.ttl);
  }

  /**
   The wrapper caches in memory.  In any run, let a request store a value under the lifetime asked for,
   and let nothing store or disturb that key afterwards.  Then for exactly that long a lookup of an
   argument with the key is a hit on the value; with memory alone it is a miss from then on.
   */
  lemma StoredIsHit<Args(!new)>(m: Memo<Args>, s: System<Args>, store: Move<Args>, rest: seq<Move<Args>>,
                                a: Args, t: Time, up: bool, ttl: Time)
    requires Can(m, s, store) && store.Store? && s.l1.Some? && m.f(s.requests[store.r].args).value.Some?
    requires Asks(m.policy, m.keyOf(s.requests[store.r].args), m.ttl, ttl) && ttl > 0.0
    requires m.made(a) && m.keyOf(a) == m.keyOf(s.requests[store.r].args)
    requires Allowed(m, Do(m, s, store), rest) && AllLeaveNear(m, Do(m, s, store), rest, m.keyOf(a), t)
    requires t < store.now + ttl || (!store.up && m.keyOf(a) !in s.l2)
    ensures var s' := AfterRun(m, Do(m, s, store), rest);
            var v := m.f(s.requests[store.r].args).value;
            Do(m, s', Look(a, t, up)).requests ==
            s'.requests + [if t < store.now + ttl then Hit(a, v) else Missed(a)]
  {
    var k, v := m.keyOf(a), m.f(s.requests[store.r].args).value;
    var e := Entry(v, store.now + ttl);
    StoreFillsNear(m, s, store, ttl, t);
    NearRun(m, Do(m, s, store), rest, k, e, t);
  }

  /** The move neither stores the key nor takes it from the shared level. */
  ghost predicate LeavesFar<Args(!new)>(m: Memo<Args>, s: System<Args>, v: Move<Args>, k: Key) {
    match v
    case Store(r, _, _) => r < |s.requests| ==> m.keyOf(s.requests[r].args) != k
    case Disturb(_, l2) => k in s.l2 ==> k in l2 && l2[k] == s.l2[k]
    case _ => true
  }

  ghost predicate AllLeaveFar<Args(!new)>(m: Memo<Args>, s: System<Args>, run: seq<Move<Args>>, k: Key)
    requires Allowed(m, s, run)
    decreases |run|
  {
    run == [] || (LeavesFar(m, s, run[0], k) && AllLeaveFar(m, Do(m, s, run[0]), run[1..], k))
  }

  /** The shared level holds this value of the key, and memory no other one. */
  predicate FarHolds<Args>(s: System<Args>, k: Key, v: Any, until: Time) {
    && k in s.l2 && s.l2[k] == SharedEntry(v, Some(until))
    && (s.l1.Some? && k in s.l1.value ==> s.l1.value[k].value == v)
  }

  lemma FarStep<Args(!new)>(m: Memo<Args>, s: System<Args>, v: Move<Args>, k: Key, value: Any, until: Time)
    requires Can(m, s, v) && LeavesFar(m, s, v, k) && FarHolds(s, k, value, until)
    ensures FarHolds(Do(m, s, v), k, value, until)
  {
  }

  lemma {:induction false} FarRun<Args(!new)>(m: Memo<Args>, s: System<Args>, run: seq<Move<Args>>, k: Key,
                                              value: Any, until: Time)
    requires Allowed(m, s, run) && AllLeaveFar(m, s, run, k) && FarHolds(s, k, value, until)
    ensures FarHolds(AfterRun(m, s, run), k, value, until)
    decreases |run|
  {
    if run != [] {
      FarStep(m, s, run[0], k, value, until);
      FarRun(m, Do(m, s, run[0]), run[1..], k, value, until);
    }
  }

  lemma StoreFillsFar<Args(!new)>(m: Memo<Args>, s: System<Args>, store: Move<Args>, ttl: Time)
    requires Can(m, s, store) && store.Store? && store.up && m.f(s.requests[store.r].args).value.Some? && ttl > 0.0
    requires var args := s.requests[store.r].args; Asks(m.policy, m.keyOf(args), m.ttl, ttl)
    ensures var args := s.requests[store.r].args;
            FarHolds(Do(m, s, store), m.keyOf(args), m.f(args).value, store.now + ttl)
  {
    AskedIsResolved(m.policy, m.keyOf(s.requests[store.r].args), m.ttl);
  }

  /**
   The wrapper caches on the shared level.  If it answered the store, a lookup that it answers is a hit
   on the value for as long as the lifetime asked for, whatever becomes of memory; and without a memory
   level it is a miss from then on.
   */
  lemma StoredIsShared<Args(!new)>(m: Memo<Args>, s: System<Args>, store: Move<Args>, rest: seq<Move<Args>>,
                                   a: Args, t: Time, ttl: Time)
    requires Can(m, s, store) && store.Store? && store.up && m.f(s.requests[store.r].args).value.Some?
    requires Asks(m.policy, m.keyOf(s.requests[store.r].args), m.ttl, ttl) && ttl > 0.0
    requires m.made(a) && m.keyOf(a) == m.keyOf(s.requests[store.r].args)
    requires Allowed(m, Do(m, s, store), rest) && AllLeaveFar(m, Do(m, s, store), rest, m.keyOf(a))
    ensures var s' := AfterRun(m, Do(m, s, store), rest);
            var after, v := Do(m, s', Look(a, t, true)).requests, m.f(s.requests[store.r].args).value;
            && (t < store.now + ttl ==> after == s'.requests + [Hit(a, v)])
            && (store.now + ttl <= t && s'.l1.None? ==> after == s'.requests + [Missed(a)])
  {
    StoreFillsFar(m, s, store, ttl);
    FarRun(m, Do(m, s, store), rest, m.keyOf(a), m.f(s.requests[store.r].args).value, store.now + ttl);
  }

  // ---------------------------------------------------------------- nothing is published before it is stored

  /** Each request that entered has a call of its own, and a value it has published it has stored before. */
  ghost predicate StoredFirst<Args(!new)>(s: System<Args>) {
    && (forall r :: 0 <= r < |s.requests| && s.requests[r].Inside? ==> s.requests[r].call < |s.co.calls|)
    && (forall r, q :: 0 <= r < q < |s.requests| && s.requests[r].Inside? && s.requests[q].Inside? ==>
          s.requests[r].call != s.requests[q].call)
    && (forall r :: 0 <= r < |s.requests| && s.requests[r].Inside? ==>
          var c := s.co.calls[s.requests[r].call];
          c.phase.Published? && c.phase.outcome.Returned? ==> s.requests[r].stored)
  }

  lemma BeginStoredFirst<Args(!new)>(m: Memo<Args>, s: System<Args>, r: nat)
    requires StoredFirst(s) && Can(m, s, Begin(r))
    ensures StoredFirst(Do(m, s, Begin(r)))
  {
    var s' := Do(m, s, Begin(r));
    assert forall i :: 0 <= i < |s.co.calls| ==> s'.co.calls[i] == s.co.calls[i];
    assert forall i :: 0 <= i < |s.requests| && i != r ==> s'.requests[i] == s.requests[i];
  }

  lemma AdvanceStoredFirst<Args(!new)>(m: Memo<Args>, s: System<Args>, r: nat, a: Coalescer.Action)
    requires StoredFirst(s) && Can(m, s, Advance(r, a))
    ensures StoredFirst(Do(m, s, Advance(r, a)))
  {
    var s' := Do(m, s, Advance(r, a));
    assert forall i :: 0 <= i < |s.co.calls| && i != a.i ==> s'.co.calls[i] == s.co.calls[i];
  }

  lemma MoveStoredFirst<Args(!new)>(m: Memo<Args>, s: System<Args>, v: Move<Args>)
    requires StoredFirst(s) && Can(m, s, v)
    ensures StoredFirst(Do(m, s, v))
  {
    if v.Begin? { BeginStoredFirst(m, s, v.r); }
    if v.Advance? { AdvanceStoredFirst(m, s, v.r, v.action); }
  }

  /** In every run a request whose call has published a value has stored it before. */
  lemma {:induction false} PublishedIsStored<Args(!new)>(m: Memo<Args>, s: System<Args>, run: seq<Move<Args>>)
    requires Allowed(m, s, run) && StoredFirst(s)
    ensures StoredFirst(AfterRun(m, s, run))
    decreases |run|
  {
    if run != [] {
      MoveStoredFirst(m, s, run[0]);
      PublishedIsStored(m, Do(m, s, run[0]), run[1..]);
    }
  }
}
