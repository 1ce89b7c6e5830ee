/**
 Several processes, each with its own manager and configuration, in front of one shared level.  All
 read one clock that never goes back; the shared level may fail to answer at any request.
 */
module Fleet {
  import opened Values
  import opened MemoryCache
  import opened CacheManager

  // Whether a manager has a memory level, and the lifetimes its process has loaded.
  datatype Manager = Manager(memory: bool, policy: Policy)
  type Team = seq<Manager>

  datatype Fleet = Fleet(l1s: seq<Option<Store>>, l2: Shared)

  datatype Deed =
    | Write(m: nat, key: Key, value: Any, ttl: Option<Time>, at: Time, up: bool)
    | Read(m: nat, key: Key, at: Time, up: bool)
    | Erase(m: nat, key: Key, at: Time, up: bool)
    | Wipe(m: nat, at: Time, up: bool)
    | Sweep(m: nat, at: Time, up: bool)

  /** A deed of a manager with this policy. */
  function Apply(f: Fleet, d: Deed, p: Policy): Fleet
    requires d.m < |f.l1s|
  {
    var l1 := f.l1s[d.m];
    match d
    case Write(m, k, v, ttl, t, up) =>
      Fleet(f.l1s[m := StoredNear(l1, k, v, Resolved(p, k, ttl), t, p)],
            StoredFar(f.l2, up, k, v, Resolved(p, k, ttl), t))
    case Read(m, k, t, up) => f.(l1s := f.l1s[m := Fetch(l1, f.l2, up, k, t, p).l1])
    case Erase(m, k, _, up) => Fleet(f.l1s[m := ErasedNear(l1, k)], ErasedFar(f.l2, up, k))
    case Wipe(m, _, up) =>
      Fleet(f.l1s[m := if l1.None? then None else Some(map[])], if up then map[] else f.l2)
    case Sweep(m, t, _) => f.(l1s := f.l1s[m := if l1.None? then None else Some(Swept(l1.value, t))])
  }

  /** A sweep keeps the live entries of one memory level, drops the others, and touches nothing else. */
  lemma SweepDropsExpired(f: Fleet, m: nat, t: Time, up: bool, p: Policy)
    requires m < |f.l1s| && f.l1s[m].Some?
    ensures var after := Apply(f, Sweep(m, t, up), p);
            && |after.l1s| == |f.l1s| && after.l2 == f.l2 && after.l1s[m].Some?
            && (forall i :: 0 <= i < |f.l1s| && i != m ==> after.l1s[i] == f.l1s[i])
            && (forall k :: k in after.l1s[m].value <==> k in f.l1s[m].value && t < f.l1s[m].value[k].expires)
            && (forall k :: k in after.l1s[m].value ==> after.l1s[m].value[k] == f.l1s[m].value[k])
  {
  }

  /** All levels start empty. */
  function Start(team: Team): Fleet {
    Fleet(seq(|team|, i requires 0 <= i < |team| => if team[i].memory then Some(map[]) else None), map[])
  }

  /** The lifetime a write asks for, as its manager resolves it. */
  function LifetimeOf(team: Team, d: Deed): Time {
    if d.Write? && d.m < |team| then Resolved(team[d.m].policy, d.key, d.ttl) else 0.0
  }

  /** What a write asks for: the lifetime given, else what its manager's table says for the key. */
  ghost predicate AsksFor(team: Team, d: Deed, ttl: Time) {
    d.Write? && d.m < |team| && Asks(team[d.m].policy, d.key, d.ttl, ttl)
  }

  lemma LifetimeIsAsked(team: Team, d: Deed)
    requires d.Write? && d.m < |team|
    ensures AsksFor(team, d, LifetimeOf(team, d))
    ensures forall ttl :: AsksFor(team, d, ttl) ==> ttl == LifetimeOf(team, d)
  {
    AskedIsResolved(team[d.m].policy, d.key, d.ttl);
  }

  function Expiry(team: Team, d: Deed): Time {
    d.at + LifetimeOf(team, d)
  }

  /** A run: known managers, a clock that never goes back, and positive lifetimes. */
  ghost predicate Proper(team: Team, run: seq<Deed>) {
    && (forall i :: 0 <= i < |run| ==> run[i].m < |team|)
    && (forall i, j :: 0 <= i < j < |run| ==> run[i].at <= run[j].at)
    && (forall i :: 0 <= i < |run| && run[i].Write? ==> LifetimeOf(team, run[i]) > 0.0)
  }

  lemma ProperPrefix(team: Team, run: seq<Deed>, n: nat)
    requires Proper(team, run) && n <= |run|
    ensures Proper(team, run[..n])
  {
    assert forall i :: 0 <= i < n ==> run[..n][i] == run[i];
  }

  ghost function Exec(team: Team, run: seq<Deed>): (f: Fleet)
    requires Proper(team, run)
    ensures |f.l1s| == |team|
    decreases |run|
  {
    if run == [] then Start(team) else
      var n := |run| - 1;
      ProperPrefix(team, run, n);
      Apply(Exec(team, run[..n]), run[n], team[run[n].m].policy)
  }

  /** What the i-th deed, a read, reports. */
  ghost function Reported(team: Team, run: seq<Deed>, i: nat): Any
    requires Proper(team, run) && i < |run| && run[i].Read?
  {
    ProperPrefix(team, run, i);
    var f := Exec(team, run[..i]);
    Fetch(f.l1s[run[i].m], f.l2, run[i].up, run[i].key, run[i].at, team[run[i].m].policy).value
  }

  lemma ExecAppend(team: Team, run: seq<Deed>, d: Deed)
    requires Proper(team, run + [d])
    ensures Proper(team, run) && d.m < |team|
    ensures Exec(team, run + [d]) == Apply(Exec(team, run), d, team[d.m].policy)
  {
    ProperPrefix(team, run + [d], |run|);
    assert (run + [d])[..|run|] == run && (run + [d])[|run|] == d;
  }

  // ---------------------------------------------------------------- where a value comes from

  /** The j-th deed, not before the `from`-th, stored this value for the key. */
  predicate Wrote(run: seq<Deed>, from: int, j: int, k: Key, v: Any) {
    0 <= j < |run| && from <= j && run[j].Write? && run[j].key == k && run[j].value == v
  }

  /** A shared entry ends when the write behind it said. */
  ghost predicate FarSource(team: Team, run: seq<Deed>, k: Key, e: SharedEntry) {
    exists j :: Wrote(run, 0, j, k, e.value) && e.expires == Some(Expiry(team, run[j]))
  }

  /** A memory entry ends at most one backfill lifetime later than that. */
  ghost predicate NearSource(team: Team, run: seq<Deed>, k: Key, e: Entry, backfill: Time) {
    exists j :: Wrote(run, 0, j, k, e.value) && e.expires <= Expiry(team, run[j]) + backfill
  }

  lemma SourceGrows(team: Team, run: seq<Deed>, d: Deed, k: Key, backfill: Time)
    ensures forall e :: FarSource(team, run, k, e) ==> FarSource(team, run + [d], k, e)
    ensures forall e :: NearSource(team, run, k, e, backfill) ==> NearSource(team, run + [d], k, e, backfill)
  {
    var run' := run + [d];
    forall e | FarSource(team, run, k, e) ensures FarSource(team, run', k, e) {
      var j :| Wrote(run, 0, j, k, e.value) && e.expires == Some(Expiry(team, run[j]));
      assert Wrote(run', 0, j, k, e.value) && run'[j] == run[j];
    }
    forall e | NearSource(team, run, k, e, backfill) ensures NearSource(team, run', k, e, backfill) {
      var j :| Wrote(run, 0, j, k, e.value) && e.expires <= Expiry(team, run[j]) + backfill;
      assert Wrote(run', 0, j, k, e.value) && run'[j] == run[j];
    }
  }

  /** Every entry of the key, on both levels, traces back to a write. */
  ghost predicate FarTraced(team: Team, run: seq<Deed>, k: Key, l2: Shared) {
    k in l2 ==> FarSource(team, run, k, l2[k])
  }

  ghost predicate NearTraced(team: Team, run: seq<Deed>, k: Key, l1: Option<Store>, backfill: Time) {
    l1.Some? && k in l1.value ==> NearSource(team, run, k, l1.value[k], backfill)
  }

  /** A deed leaves the shared level traced. */
  lemma FarStep(team: Team, run: seq<Deed>, d: Deed, k: Key, f: Fleet)
    requires FarTraced(team, run, k, f.l2) && d.m < |team| == |f.l1s|
    requires d.Write? ==> LifetimeOf(team, d) > 0.0
    ensures FarTraced(team, run + [d], k, Apply(f, d, team[d.m].policy).l2)
  {
    SourceGrows(team, run, d, k, 0.0);
    if d.Write? && d.key == k && d.up {
      assert Wrote(run + [d], 0, |run|, k, d.value);
    }
  }

  /** A deed leaves the acting manager's memory traced, if its memory and the shared level were. */
  lemma NearStep(team: Team, run: seq<Deed>, d: Deed, k: Key, f: Fleet)
    requires FarTraced(team, run, k, f.l2) && d.m < |team| == |f.l1s|
    requires d.Write? ==> LifetimeOf(team, d) > 0.0
    requires BackfillTtl(team[d.m].policy, k) > 0.0
    requires NearTraced(team, run, k, f.l1s[d.m], BackfillTtl(team[d.m].policy, k))
    ensures NearTraced(team, run + [d], k, Apply(f, d, team[d.m].policy).l1s[d.m], BackfillTtl(team[d.m].policy, k))
  {
    var p := team[d.m].policy;
    SourceGrows(team, run, d, k, BackfillTtl(p, k));
    var run' := run + [d];
    if d.Write? && d.key == k {
      assert Wrote(run', 0, |run|, k, d.value);
    } else if d.Read? && d.key == k && Fetch(f.l1s[d.m], f.l2, d.up, k, d.at, p).level == InShared {
      var e := f.l2[k];
      var j :| Wrote(run, 0, j, k, e.value) && e.expires == Some(Expiry(team, run[j]));
      assert Wrote(run', 0, j, k, e.value) && run'[j] == run[j];
    }
  }

  lemma {:induction false} AllTraced(team: Team, run: seq<Deed>, m: nat, k: Key)
    requires Proper(team, run) && m < |team| && BackfillTtl(team[m].policy, k) > 0.0
    ensures var f := Exec(team, run);
            FarTraced(team, run, k, f.l2) && NearTraced(team, run, k, f.l1s[m], BackfillTtl(team[m].policy, k))
    decreases |run|
  {
    if run != [] {
      var n := |run| - 1;
      ProperPrefix(team, run, n);
      AllTraced(team, run[..n], m, k);
      var f := Exec(team, run[..n]);
      assert run == run[..n] + [run[n]];
      FarStep(team, run[..n], run[n], k, f);
      SourceGrows(team, run[..n], run[n], k, BackfillTtl(team[m].policy, k));
      if run[n].m == m { NearStep(team, run[..n], run[n], k, f); }
    }
  }

  lemma HitHasSource(team: Team, run: seq<Deed>, i: nat) returns (j: nat)
    requires Proper(team, run) && i < |run| && run[i].Read?
    requires BackfillTtl(team[run[i].m].policy, run[i].key) > 0.0
    requires Reported(team, run, i).Some?
    ensures j < i && Wrote(run, 0, j, run[i].key, Reported(team, run, i))
    ensures run[j].at <= run[i].at < Expiry(team, run[j]) + BackfillTtl(team[run[i].m].policy, run[i].key)
  {
    var k, m, t := run[i].key, run[i].m, run[i].at;
    var p := team[m].policy;
    ProperPrefix(team, run, i);
    AllTraced(team, run[..i], m, k);
    var f := Exec(team, run[..i]);
    var r := Fetch(f.l1s[m], f.l2, run[i].up, k, t, p);
    if r.level == InMemory {
      var e := f.l1s[m].value[k];
      j :| Wrote(run[..i], 0, j, k, e.value) && e.expires <= Expiry(team, run[..i][j]) + BackfillTtl(p, k);
    } else {
      var e := f.l2[k];
      j :| Wrote(run[..i], 0, j, k, e.value) && e.expires == Some(Expiry(team, run[..i][j]));
    }
  }

  /**
   Two-level staleness bound.  A hit at time t reports a value that some `set` stored at a time
   s <= t, asking for a lifetime T, and t < s + T + the lifetime the reading manager's table says for
   the key.  Copies made from copies cannot push this further.
   */
  lemma StalenessBound(team: Team, run: seq<Deed>, i: nat, copied: Time) returns (j: nat, asked: Time)
    requires Proper(team, run) && i < |run| && run[i].Read?
    requires TableSays(team[run[i].m].policy.strategy, run[i].key, copied) && copied > 0.0
    requires Reported(team, run, i).Some?
    ensures j < i && Wrote(run, 0, j, run[i].key, Reported(team, run, i)) && AsksFor(team, run[j], asked)
    ensures run[j].at <= run[i].at < run[j].at + asked + copied
  {
    var p, k := team[run[i].m].policy, run[i].key;
    TtlForTable(p, k);
    TableIsFunctional(p.strategy, k, copied, TtlFor(p, k));
    j := HitHasSource(team, run, i);
    asked := LifetimeOf(team, run[j]);
    LifetimeIsAsked(team, run[j]);
  }

  /** What the last of three deeds reports. */
  lemma ThreeDeeds(team: Team, d0: Deed, d1: Deed, d2: Deed)
    requires d0.m < |team| && d1.m < |team| && d2.m < |team|
    requires Proper(team, [d0, d1, d2]) && d2.Read?
    ensures var f := Apply(Apply(Start(team), d0, team[d0.m].policy), d1, team[d1.m].policy);
            Reported(team, [d0, d1, d2], 2) ==
            Fetch(f.l1s[d2.m], f.l2, d2.up, d2.key, d2.at, team[d2.m].policy).value
  {
    var r0: seq<Deed> := [];
    var run := [d0, d1, d2];
    assert run[..2] == r0 + [d0] + [d1] && run[0] == d0 && run[1] == d1 && run[2] == d2;
    ProperPrefix(team, run, 2);
    ExecAppend(team, r0 + [d0], d1);
    ExecAppend(team, r0, d0);
  }

  /** The bound is tight: every time below it sees, in some run of two managers, a hit on the old value. */
  lemma StalenessBoundIsTight(k: Key, v: Value, s: Time, ttl: Time, t: Time,
                              writer: Policy, reader: Policy, copied: Time)
      returns (team: Team, run: seq<Deed>)
    requires ttl > 0.0 && TableSays(reader.strategy, k, copied) && copied > 0.0
    requires s <= t < s + ttl + copied
    ensures team == [Manager(true, writer), Manager(true, reader)]
    ensures |run| == 3 && run[0] == Write(0, k, Some(v), Some(ttl), s, true)
    ensures run[2].Read? && run[2].m == 1 && run[2].key == k && run[2].at == t
    ensures Proper(team, run) && Reported(team, run, 2) == Some(v)
  {
    TtlForTable(reader, k);
    TableIsFunctional(reader.strategy, k, copied, TtlFor(reader, k));
    team := [Manager(true, writer), Manager(true, reader)];
    var earliest := (t - copied + s + ttl) / 2.0;
    var b := if t < s + ttl then t else if earliest < s then s else earliest;
    var d0, d1, d2 := Write(0, k, Some(v), Some(ttl), s, true), Read(1, k, b, true), Read(1, k, t, false);
    run := [d0, d1, d2];
    ThreeDeeds(team, d0, d1, d2);
  }

  // ---------------------------------------------------------------- how a run goes on

  /** Deeds that can follow at this time: known managers, a clock that never goes back, positive lifetimes. */
  predicate Onward(team: Team, now: Time, after: seq<Deed>)
    decreases |after|
  {
    after == [] ||
    (var e := after[0];
     && e.m < |team| && now <= e.at && (e.Write? ==> LifetimeOf(team, e) > 0.0)
     && Onward(team, e.at, after[1..]))
  }

  /** What the deed stores for the key. */
  function Stores(d: Deed, k: Key): set<Any> {
    if d.Write? && d.key == k then {d.value} else {}
  }

  /** A lookup of the key by the manager, or by anybody from the horizon on. */
  predicate Watched(e: Deed, k: Key, m: nat, horizon: Option<Time>) {
    e.Read? && e.key == k && (e.m == m || (horizon.Some? && horizon.value <= e.at))
  }

  /** As the run goes on, every watched lookup that hits reports a recent value, or one stored meanwhile. */
  predicate NothingOlder(team: Team, f: Fleet, after: seq<Deed>, k: Key, m: nat, horizon: Option<Time>,
                         recent: set<Any>)
    requires |f.l1s| == |team|
    decreases |after|
  {
    if after == [] || after[0].m >= |team| then true else
      var e, p := after[0], team[after[0].m].policy;
      && (Watched(e, k, m, horizon) ==>
            Fetch(f.l1s[e.m], f.l2, e.up, k, e.at, p).value in {None} + recent)
      && NothingOlder(team, Apply(f, e, p), after[1..], k, m, horizon, recent + Stores(e, k))
  }

  // ---------------------------------------------------------------- what an override leaves behind

  /** A set, a delete or a clear of the key. */
  predicate Touches(d: Deed, k: Key) {
    (d.Write? && d.key == k) || (d.Erase? && d.key == k) || d.Wipe?
  }

  /** The shared level has carried it out: it answered, and was not asked to store None. */
  predicate Answered(d: Deed) {
    d.up && (d.Write? ==> d.value.Some?)
  }

  /** The deed leaves no older value of the key on the shared level that lives at the given time. */
  predicate Harmless(d: Deed, l2: Shared, k: Key, until: Time) {
    Answered(d) || !SharedLive(l2, k, until) || (d.Write? && d.value == l2[k].value)
  }

  predicate EndedBy(e: SharedEntry, until: Time) {
    e.expires.Some? && e.expires.value <= until
  }

  /** The shared entry of the key is recent, or over. */
  predicate FarSettled(recent: set<Any>, k: Key, l2: Shared, until: Time) {
    k in l2 ==> l2[k].value in recent || EndedBy(l2[k], until)
  }

  /** The memory entry of the key is recent. */
  predicate NearSettled(recent: set<Any>, k: Key, l1: Option<Store>) {
    l1.Some? && k in l1.value ==> l1.value[k].value in recent
  }

  predicate EndsBy(l1: Option<Store>, k: Key, horizon: Time) {
    l1.Some? && k in l1.value ==> l1.value[k].expires <= horizon
  }

  /** Every memory holds recent values of the key, or copies that end soon. */
  ghost predicate AllEnding(recent: set<Any>, k: Key, f: Fleet, horizon: Option<Time>) {
    horizon.Some? ==>
      forall m :: 0 <= m < |f.l1s| ==> NearSettled(recent, k, f.l1s[m]) || EndsBy(f.l1s[m], k, horizon.value)
  }

  lemma FarSettledStep(f: Fleet, e: Deed, k: Key, recent: set<Any>, until: Time, p: Policy)
    requires e.m < |f.l1s| && FarSettled(recent, k, f.l2, until)
    ensures FarSettled(recent + Stores(e, k), k, Apply(f, e, p).l2, until)
  {
  }

  /** A lookup that falls through to a live shared entry late enough finds a recent value. */
  lemma NearSettledStep(f: Fleet, e: Deed, k: Key, m: nat, recent: set<Any>, until: Time, p: Policy)
    requires e.m < |f.l1s| && m < |f.l1s| && FarSettled(recent, k, f.l2, until) && NearSettled(recent, k, f.l1s[m])
    requires e.m == m && e.Read? && e.key == k && Fetch(f.l1s[m], f.l2, e.up, k, e.at, p).level == InShared ==>
               until <= e.at
    ensures NearSettled(recent + Stores(e, k), k, Apply(f, e, p).l1s[m])
  {
  }

  lemma SettledReports(l1: Option<Store>, l2: Shared, up: bool, k: Key, t: Time, recent: set<Any>,
                       until: Time, p: Policy)
    requires FarSettled(recent, k, l2, until) && (Fetch(l1, l2, up, k, t, p).level == InShared ==> until <= t)
    requires NearSettled(recent, k, l1) || EndsBy(l1, k, t)
    ensures Fetch(l1, l2, up, k, t, p).value in {None} + recent
  {
  }

  lemma EndingStep(f: Fleet, e: Deed, k: Key, recent: set<Any>, until: Time, horizon: Option<Time>, p: Policy)
    requires e.m < |f.l1s| && until <= e.at && FarSettled(recent, k, f.l2, until) && AllEnding(recent, k, f, horizon)
    ensures AllEnding(recent + Stores(e, k), k, Apply(f, e, p), horizon)
  {
  }

  /** What holds when the deed is done. */
  lemma StartsSettled(d: Deed, k: Key, f: Fleet, until: Time, p: Policy)
    requires d.m < |f.l1s| && Touches(d, k) && Harmless(d, f.l2, k, until)
    requires d.Write? ==> Resolved(p, d.key, d.ttl) > 0.0
    ensures FarSettled(Stores(d, k), k, Apply(f, d, p).l2, until)
    ensures NearSettled(Stores(d, k), k, Apply(f, d, p).l1s[d.m])
  {
  }

  lemma {:induction false} SettledGoesOn(team: Team, f: Fleet, now: Time, after: seq<Deed>, k: Key, m: nat,
                                         horizon: Option<Time>, recent: set<Any>, until: Time)
    requires |f.l1s| == |team| && m < |team| && Onward(team, now, after) && until <= now
    requires FarSettled(recent, k, f.l2, until) && NearSettled(recent, k, f.l1s[m]) && AllEnding(recent, k, f, horizon)
    ensures NothingOlder(team, f, after, k, m, horizon, recent)
    decreases |after|
  {
    if after != [] {
      var e, p := after[0], team[after[0].m].policy;
      if Watched(e, k, m, horizon) { SettledReports(f.l1s[e.m], f.l2, e.up, k, e.at, recent, until, p); }
      FarSettledStep(f, e, k, recent, until, p);
      NearSettledStep(f, e, k, m, recent, until, p);
      EndingStep(f, e, k, recent, until, horizon, p);
      SettledGoesOn(team, Apply(f, e, p), e.at, after[1..], k, m, horizon, recent + Stores(e, k), until);
    }
  }

  // ---------------------------------------------------------------- exactly when an override sticks

  /** However the run goes on, the manager never again reports a value older than the deed. */
  ghost predicate Sticks(team: Team, f: Fleet, d: Deed, k: Key)
    requires d.m < |team| == |f.l1s|
  {
    var f' := Apply(f, d, team[d.m].policy);
    forall after :: Onward(team, d.at, after) ==> NothingOlder(team, f', after, k, d.m, None, Stores(d, k))
  }

  /** A deed that can follow the run. */
  ghost predicate Follows(team: Team, before: seq<Deed>, d: Deed) {
    && Proper(team, before) && d.m < |team| && (d.Write? ==> LifetimeOf(team, d) > 0.0)
    && forall i :: 0 <= i < |before| ==> before[i].at <= d.at
  }

  /** The shared level never holds None, and a manager keeps its memory level. */
  lemma {:induction false} Shaped(team: Team, run: seq<Deed>, m: nat, k: Key)
    requires Proper(team, run) && m < |team|
    ensures k in Exec(team, run).l2 ==> Exec(team, run).l2[k].value.Some?
    ensures Exec(team, run).l1s[m].Some? == team[m].memory
    decreases |run|
  {
    if run != [] {
      ProperPrefix(team, run, |run| - 1);
      Shaped(team, run[..|run| - 1], m, k);
    }
  }

  /** An unanswered deed leaves the shared level as it was. */
  lemma UnansweredKeeps(f: Fleet, d: Deed, p: Policy)
    requires d.m < |f.l1s| && !Answered(d)
    ensures Apply(f, d, p).l2 == f.l2
  {
  }

  lemma OneLookup(team: Team, f: Fleet, now: Time, look: Deed, k: Key, recent: set<Any>)
    requires look.m < |team| == |f.l1s| && look.Read? && look.key == k && now <= look.at
    requires Fetch(f.l1s[look.m], f.l2, look.up, k, look.at, team[look.m].policy).value !in {None} + recent
    ensures Onward(team, now, [look]) && !NothingOlder(team, f, [look], k, look.m, None, recent)
  {
  }

  lemma FirstThen(team: Team, f: Fleet, e: Deed, after: seq<Deed>, k: Key, m: nat, recent: set<Any>)
    requires e.m < |team| == |f.l1s| && Onward(team, e.at, after) && (e.Write? ==> LifetimeOf(team, e) > 0.0)
    requires !NothingOlder(team, Apply(f, e, team[e.m].policy), after, k, m, None, recent + Stores(e, k))
    ensures Onward(team, e.at, [e] + after) && !NothingOlder(team, f, [e] + after, k, m, None, recent)
  {
    assert ([e] + after)[1..] == after;
  }

  /** The manager forgets what it has in memory, which the shared level misses, and looks the key up again. */
  lemma Resurfaces(team: Team, f: Fleet, d: Deed, k: Key)
    requires d.m < |team| == |f.l1s| && Touches(d, k) && !Harmless(d, f.l2, k, d.at) && f.l2[k].value.Some?
    ensures !Sticks(team, f, d, k)
  {
    var forget, look := Erase(d.m, k, d.at, false), Read(d.m, k, d.at, true);
    var p := team[d.m].policy;
    var f1 := Apply(f, d, p);
    var f2 := Apply(f1, forget, p);
    UnansweredKeeps(f, d, p);
    assert Fetch(f2.l1s[d.m], f2.l2, true, k, d.at, p).value == f.l2[k].value;
    OneLookup(team, f2, d.at, look, k, Stores(d, k) + Stores(forget, k));
    FirstThen(team, f1, forget, [look], k, d.m, Stores(d, k));
  }

  /**
   Exactly when an override sticks.  After a set, delete or clear of a key, with any value and
   answered or not, the manager never again reports an older value of the key, however the run goes
   on, if and only if the shared level carried it out, or holds no live entry of another value.
   */
  lemma SticksIffHarmless(team: Team, before: seq<Deed>, d: Deed, k: Key)
    requires Follows(team, before, d) && Touches(d, k)
    ensures Sticks(team, Exec(team, before), d, k) <==> Harmless(d, Exec(team, before).l2, k, d.at)
  {
    var f, p := Exec(team, before), team[d.m].policy;
    if Harmless(d, f.l2, k, d.at) {
      StartsSettled(d, k, f, d.at, p);
      forall after | Onward(team, d.at, after)
        ensures NothingOlder(team, Apply(f, d, p), after, k, d.m, None, Stores(d, k))
      {
        SettledGoesOn(team, Apply(f, d, p), d.at, after, k, d.m, None, Stores(d, k), d.at);
      }
    } else {
      Shaped(team, before, d.m, k);
      Resurfaces(team, f, d, k);
    }
  }

  // ---------------------------------------------------------------- while the manager leaves the key alone

  /** How long the manager's own memory keeps what the deed stored there. */
  function KeptUntil(team: Team, d: Deed): Time {
    if d.Write? && d.value.Some? && d.m < |team| && team[d.m].memory then Expiry(team, d) else d.at
  }

  /** The manager does no more to the key than look it up. */
  predicate Leaves(after: seq<Deed>, m: nat, k: Key) {
    forall i :: 0 <= i < |after| && after[i].m == m ==> !Touches(after[i], k)
  }

  ghost predicate SticksUndisturbed(team: Team, f: Fleet, d: Deed, k: Key)
    requires d.m < |team| == |f.l1s|
  {
    var f' := Apply(f, d, team[d.m].policy);
    forall after :: Onward(team, d.at, after) && Leaves(after, d.m, k) ==>
      NothingOlder(team, f', after, k, d.m, None, Stores(d, k))
  }

  /** What the deed stored is still in memory, or its time is over. */
  predicate Held(l1: Option<Store>, k: Key, d: Deed, until: Time, now: Time) {
    || until <= now
    || (d.Write? && d.value.Some? && l1.Some? && k in l1.value && l1.value[k] == Entry(d.value, until))
  }

  lemma HeldLooksLate(l1: Option<Store>, l2: Shared, up: bool, k: Key, d: Deed, until: Time,
                      now: Time, t: Time, p: Policy)
    requires Held(l1, k, d, until, now) && now <= t && Fetch(l1, l2, up, k, t, p).level == InShared
    ensures until <= t
  {
  }

  lemma HeldStep(f: Fleet, e: Deed, k: Key, d: Deed, until: Time, now: Time, p: Policy)
    requires e.m < |f.l1s| && d.m < |f.l1s| && (e.m == d.m ==> !Touches(e, k)) && now <= e.at
    requires Held(f.l1s[d.m], k, d, until, now)
    ensures Held(Apply(f, e, p).l1s[d.m], k, d, until, e.at)
  {
  }

  lemma StartsHeld(team: Team, d: Deed, k: Key, f: Fleet)
    requires d.m < |f.l1s| == |team| && Touches(d, k) && (d.Write? ==> LifetimeOf(team, d) > 0.0)
    requires f.l1s[d.m].Some? == team[d.m].memory
    ensures Held(Apply(f, d, team[d.m].policy).l1s[d.m], k, d, KeptUntil(team, d), d.at)
  {
  }

  lemma {:induction false} LastingGoesOn(team: Team, f: Fleet, now: Time, after: seq<Deed>, k: Key, d: Deed,
                                         recent: set<Any>, until: Time)
    requires |f.l1s| == |team| && d.m < |team| && Onward(team, now, after) && Leaves(after, d.m, k)
    requires Held(f.l1s[d.m], k, d, until, now)
    requires FarSettled(recent, k, f.l2, until) && NearSettled(recent, k, f.l1s[d.m])
    ensures NothingOlder(team, f, after, k, d.m, None, recent)
    decreases |after|
  {
    if after != [] {
      var e, p := after[0], team[after[0].m].policy;
      if e.m == d.m && Fetch(f.l1s[e.m], f.l2, e.up, k, e.at, p).level == InShared {
        HeldLooksLate(f.l1s[e.m], f.l2, e.up, k, d, until, now, e.at, p);
      }
      if Watched(e, k, d.m, None) { SettledReports(f.l1s[e.m], f.l2, e.up, k, e.at, recent, until, p); }
      FarSettledStep(f, e, k, recent, until, p);
      NearSettledStep(f, e, k, d.m, recent, until, p);
      HeldStep(f, e, k, d, until, now, p);
      LastingGoesOn(team, Apply(f, e, p), e.at, after[1..], k, d, recent + Stores(e, k), until);
    }
  }

  /** The manager looks the key up once its memory has let go of it. */
  lemma ResurfacesLater(team: Team, f: Fleet, d: Deed, k: Key)
    requires d.m < |team| == |f.l1s| && Touches(d, k) && (d.Write? ==> LifetimeOf(team, d) > 0.0)
    requires !Harmless(d, f.l2, k, KeptUntil(team, d)) && f.l2[k].value.Some?
    requires f.l1s[d.m].Some? == team[d.m].memory
    ensures !SticksUndisturbed(team, f, d, k)
  {
    var look, p := Read(d.m, k, KeptUntil(team, d), true), team[d.m].policy;
    var f1 := Apply(f, d, p);
    UnansweredKeeps(f, d, p);
    assert Fetch(f1.l1s[d.m], f1.l2, true, k, look.at, p).value == f.l2[k].value;
    OneLookup(team, f1, d.at, look, k, Stores(d, k));
    assert Leaves([look], d.m, k);
  }

  /**
   Exactly when an override lasts as long as its manager leaves the key alone: if and only if the
   shared level carried it out, or holds no entry of another value that outlives what the manager's
   memory stored.
   */
  lemma LastsIffNotOutlived(team: Team, before: seq<Deed>, d: Deed, k: Key)
    requires Follows(team, before, d) && Touches(d, k)
    ensures SticksUndisturbed(team, Exec(team, before), d, k)
            <==> Harmless(d, Exec(team, before).l2, k, KeptUntil(team, d))
  {
    var f, p, until := Exec(team, before), team[d.m].policy, KeptUntil(team, d);
    Shaped(team, before, d.m, k);
    if Harmless(d, f.l2, k, until) {
      StartsSettled(d, k, f, until, p);
      StartsHeld(team, d, k, f);
      forall after | Onward(team, d.at, after) && Leaves(after, d.m, k)
        ensures NothingOlder(team, Apply(f, d, p), after, k, d.m, None, Stores(d, k))
      {
        LastingGoesOn(team, Apply(f, d, p), d.at, after, k, d, Stores(d, k), until);
      }
    } else {
      ResurfacesLater(team, f, d, k);
    }
  }

  // ---------------------------------------------------------------- convergence

  /** No write of the key so far asked for more than `cap`, and no manager copies for longer. */
  ghost predicate Capped(team: Team, run: seq<Deed>, k: Key, cap: Time) {
    && (forall m :: 0 <= m < |team| ==> BackfillTtl(team[m].policy, k) <= cap)
    && (forall i :: 0 <= i < |run| && run[i].Write? && run[i].key == k ==> LifetimeOf(team, run[i]) <= cap)
  }

  lemma {:induction false} OldEntriesEnd(team: Team, run: seq<Deed>, k: Key, now: Time, cap: Time)
    requires Proper(team, run) && Capped(team, run, k, cap)
    requires forall i :: 0 <= i < |run| ==> run[i].at <= now
    ensures forall m :: 0 <= m < |team| ==> EndsBy(Exec(team, run).l1s[m], k, now + cap)
    decreases |run|
  {
    if run != [] {
      var n := |run| - 1;
      ProperPrefix(team, run, n);
      assert forall i :: 0 <= i < n ==> run[..n][i] == run[i];
      OldEntriesEnd(team, run[..n], k, now, cap);
    }
  }

  /**
   Convergence.  After an override that sticks its manager reports no older value of the key; and once
   the longest lifetime used or configured for the key so far has passed since, no manager does.
   */
  lemma Convergence(team: Team, before: seq<Deed>, d: Deed, after: seq<Deed>, k: Key, cap: Time)
    requires Follows(team, before, d) && Touches(d, k) && Onward(team, d.at, after)
    requires Harmless(d, Exec(team, before).l2, k, d.at) && Capped(team, before, k, cap)
    ensures var f' := Apply(Exec(team, before), d, team[d.m].policy);
            NothingOlder(team, f', after, k, d.m, Some(d.at + cap), Stores(d, k))
  {
    var f, p := Exec(team, before), team[d.m].policy;
    OldEntriesEnd(team, before, k, d.at, cap);
    StartsSettled(d, k, f, d.at, p);
    SettledGoesOn(team, Apply(f, d, p), d.at, after, k, d.m, Some(d.at + cap), Stores(d, k), d.at);
  }

  // ---------------------------------------------------------------- instances

  // A manager of two levels has set the key to a value with this lifetime, at time 0.
  function Stored(k: Key, v: Value, ttl: Time): Deed {
    Write(0, k, Some(v), Some(ttl), 0.0, true)
  }

  lemma AfterStored(k: Key, v: Value, ttl: Time, p: Policy)
    requires ttl > 0.0
    ensures var team, run := [Manager(true, p)], [Stored(k, v, ttl)];
            Proper(team, run) && Exec(team, run).l2 == map[k := SharedEntry(Some(v), Some(ttl))]
  {
    assert [Stored(k, v, ttl)][..0] == [];
  }

  /** A delete that the shared level misses at once does not stick. */
  lemma MissedDeleteIsUndone(k: Key, v: Value, ttl: Time, p: Policy)
    requires ttl > 0.0
    ensures var team, run, d := [Manager(true, p)], [Stored(k, v, ttl)], Erase(0, k, 0.0, false);
            && Proper(team, run)
            && !Sticks(team, Exec(team, run), d, k) && !SticksUndisturbed(team, Exec(team, run), d, k)
  {
    AfterStored(k, v, ttl, p);
    SticksIffHarmless([Manager(true, p)], [Stored(k, v, ttl)], Erase(0, k, 0.0, false), k);
    LastsIffNotOutlived([Manager(true, p)], [Stored(k, v, ttl)], Erase(0, k, 0.0, false), k);
  }

  /** Nor does setting None, although the shared level answers: it refuses None. */
  lemma NoneDoesNotOverride(k: Key, v: Value, ttl: Time, p: Policy)
    requires ttl > 0.0
    ensures var team, run, d := [Manager(true, p)], [Stored(k, v, ttl)], Write(0, k, None, Some(ttl), 0.0, true);
            && Proper(team, run)
            && !Sticks(team, Exec(team, run), d, k) && !SticksUndisturbed(team, Exec(team, run), d, k)
  {
    AfterStored(k, v, ttl, p);
    SticksIffHarmless([Manager(true, p)], [Stored(k, v, ttl)], Write(0, k, None, Some(ttl), 0.0, true), k);
    LastsIffNotOutlived([Manager(true, p)], [Stored(k, v, ttl)], Write(0, k, None, Some(ttl), 0.0, true), k);
  }

  /** A set of another value that the shared level misses lasts exactly if its lifetime is not the shorter one. */
  lemma MissedSetLastsIffLonger(k: Key, v: Value, ttl: Time, v': Value, ttl': Time, p: Policy)
    requires ttl > 0.0 && ttl' > 0.0 && v != v'
    ensures var team, run := [Manager(true, p)], [Stored(k, v, ttl)];
            var d := Write(0, k, Some(v'), Some(ttl'), 0.0, false);
            Proper(team, run) && (SticksUndisturbed(team, Exec(team, run), d, k) <==> ttl <= ttl')
  {
    AfterStored(k, v, ttl, p);
    LastsIffNotOutlived([Manager(true, p)], [Stored(k, v, ttl)], Write(0, k, Some(v'), Some(ttl'), 0.0, false), k);
  }
}
