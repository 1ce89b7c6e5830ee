/**
 The single-flight protocol of the request coalescer as a state machine.  One action is one
 block of code run under the lock, or one return of `event.wait`.  Any number of calls, on any
 keys, may be in flight, and their actions interleave freely.
 */
module Coalescer {
  import opened Values

  // A `threading.Event`, identified by the key and the call it was created for.
  datatype Event = Event(key: Key, ticket: nat)

  // The four tables the lock protects, the number of calls that have entered, and the events set so far.
  datatype Tables = Tables(
    inProgress: set<Key>,
    events: map<Key, Event>,
    results: map<Key, Outcome>,
    waiters: map<Key, int>,
    entered: nat,
    fired: set<Event>)

  // What a call of `coalesce` ends with.
  datatype Answer = Got(outcome: Outcome) | TimeoutError | ResultLost

  // Where a call of `coalesce` stands.  `Running` and `Published` belong to a primary, the next
  // three to a waiter; `TimedOut` and `Woken` say how `event.wait` returned.
  datatype Phase = Running | Published(outcome: Outcome) | Waiting | TimedOut | Woken | Left(answer: Answer)

  datatype Call = Call(key: Key, event: Event, primary: bool, phase: Phase)

  datatype Publication = Publication(event: Event, outcome: Outcome)

  // `calls[i]` is the i-th call to enter; `log` records the publications in order.
  datatype World = World(tables: Tables, calls: seq<Call>, log: seq<Publication>)

  datatype Action =
    | Enter(key: Key)
    | Publish(i: nat, outcome: Outcome)
    | Finish(i: nat)
    | Wake(i: nat)
    | TimeOut(i: nat)
    | LeaveTimedOut(i: nat)
    | Read(i: nat)

  const EMPTY := Tables({}, map[], map[], map[], 0, {})
  const START := World(EMPTY, [], [])

  // ---------------------------------------------------------------- the lock-held blocks

  /** Reads the `defaultdict`. */
  function Waiters(t: Tables, k: Key): int {
    if k in t.waiters then t.waiters[k] else 0
  }

  function Release(t: Tables, k: Key): Tables {
    t.(inProgress := t.inProgress - {k}, events := t.events - {k},
       results := t.results - {k}, waiters := t.waiters - {k})
  }

  datatype Admission = Admission(tables: Tables, event: Event, primary: bool)

  function Admit(t: Tables, k: Key): Admission {
    var own := Event(k, t.entered);
    if k in t.inProgress then
      var event := if k in t.events then t.events[k] else own;
      Admission(t.(events := t.events[k := event], waiters := t.waiters[k := Waiters(t, k) + 1],
                   entered := t.entered + 1), event, false)
    else
      Admission(t.(inProgress := t.inProgress + {k}, events := t.events[k := own],
                   waiters := t.waiters[k := 0], entered := t.entered + 1), own, true)
  }

  function Announce(t: Tables, k: Key, e: Event, o: Outcome): Tables {
    t.(results := t.results[k := o], fired := t.fired + {e})
  }

  function Retire(t: Tables, k: Key): Tables {
    if Waiters(t, k) == 0 then Release(t, k) else t
  }

  function Depart(t: Tables, k: Key): Tables {
    var n := Waiters(t, k) - 1;
    if n == 0 then Release(t, k) else t.(waiters := t.waiters[k := n])
  }

  function AnswerFor(t: Tables, k: Key): Answer {
    if k in t.results then Got(t.results[k]) else ResultLost
  }

  // ---------------------------------------------------------------- steps and runs

  predicate Enabled(w: World, a: Action) {
    match a
    case Enter(_) => true
    case Publish(i, _) => i < |w.calls| && w.calls[i].phase.Running?
    case Finish(i) => i < |w.calls| && w.calls[i].phase.Published?
    case Wake(i) => i < |w.calls| && w.calls[i].phase.Waiting? && w.calls[i].event in w.tables.fired
    case TimeOut(i) => i < |w.calls| && w.calls[i].phase.Waiting?
    case LeaveTimedOut(i) => i < |w.calls| && w.calls[i].phase.TimedOut?
    case Read(i) => i < |w.calls| && w.calls[i].phase.Woken?
  }

  function Moved(w: World, i: nat, phase: Phase): seq<Call>
    requires i < |w.calls|
  {
    w.calls[i := w.calls[i].(phase := phase)]
  }

  function Next(w: World, a: Action): World
    requires Enabled(w, a)
  {
    match a
    case Enter(k) =>
      var adm := Admit(w.tables, k);
      World(adm.tables, w.calls + [Call(k, adm.event, adm.primary, if adm.primary then Running else Waiting)], w.log)
    case Publish(i, o) =>
      var c := w.calls[i];
      World(Announce(w.tables, c.key, c.event, o), Moved(w, i, Published(o)), w.log + [Publication(c.event, o)])
    case Finish(i) =>
      World(Retire(w.tables, w.calls[i].key), Moved(w, i, Left(Got(w.calls[i].phase.outcome))), w.log)
    case Wake(i) => w.(calls := Moved(w, i, Woken))
    case TimeOut(i) => w.(calls := Moved(w, i, TimedOut))
    case LeaveTimedOut(i) =>
      World(Depart(w.tables, w.calls[i].key), Moved(w, i, Left(TimeoutError)), w.log)
    case Read(i) =>
      var k := w.calls[i].key;
      World(Depart(w.tables, k), Moved(w, i, Left(AnswerFor(w.tables, k))), w.log)
  }

  ghost predicate Allowed(w: World, run: seq<Action>)
    decreases |run|
  {
    run == [] || (Enabled(w, run[0]) && Allowed(Next(w, run[0]), run[1..]))
  }

  ghost function After(w: World, run: seq<Action>): World
    requires Allowed(w, run)
    decreases |run|
  {
    if run == [] then w else After(Next(w, run[0]), run[1..])
  }

  // ---------------------------------------------------------------- counting calls

  predicate Joined(c: Call) {
    c.phase.Waiting? || c.phase.TimedOut? || c.phase.Woken?
  }

  predicate Active(c: Call) {
    c.phase.Running? || c.phase.Published?
  }

  function JoinedOn(calls: seq<Call>, k: Key): nat {
    if calls == [] then 0 else
      var c := calls[|calls| - 1];
      JoinedOn(calls[..|calls| - 1], k) + if c.key == k && Joined(c) then 1 else 0
  }

  lemma {:induction false} JoinedAfterMove(calls: seq<Call>, i: nat, c: Call, k: Key)
    requires i < |calls|
    ensures JoinedOn(calls[i := c], k) ==
            JoinedOn(calls, k) - (if calls[i].key == k && Joined(calls[i]) then 1 else 0)
                               + (if c.key == k && Joined(c) then 1 else 0)
  {
    var n := |calls| - 1;
    if i == n {
      assert calls[i := c][..n] == calls[..n];
    } else {
      JoinedAfterMove(calls[..n], i, c, k);
      assert calls[i := c][..n] == calls[..n][i := c];
    }
  }

  lemma MoveCounts(w: World, i: nat, phase: Phase)
    requires i < |w.calls|
    ensures forall k :: JoinedOn(Moved(w, i, phase), k) ==
              if k != w.calls[i].key then JoinedOn(w.calls, k)
              else JoinedOn(w.calls, k) - (if Joined(w.calls[i]) then 1 else 0)
                                        + (if Joined(w.calls[i].(phase := phase)) then 1 else 0)
  {
    forall k
      ensures JoinedOn(Moved(w, i, phase), k) ==
              if k != w.calls[i].key then JoinedOn(w.calls, k)
              else JoinedOn(w.calls, k) - (if Joined(w.calls[i]) then 1 else 0)
                                        + (if Joined(w.calls[i].(phase := phase)) then 1 else 0)
    {
      JoinedAfterMove(w.calls, i, w.calls[i].(phase := phase), k);
    }
  }

  lemma {:induction false} NobodyJoined(calls: seq<Call>, k: Key)
    ensures JoinedOn(calls, k) == 0 <==>
            forall i :: 0 <= i < |calls| && calls[i].key == k ==> !Joined(calls[i])
  {
    if calls != [] {
      var n := |calls| - 1;
      NobodyJoined(calls[..n], k);
      assert forall i :: 0 <= i < n ==> calls[..n][i] == calls[i];
    }
  }

  // ---------------------------------------------------------------- what holds in every run

  /** The in-progress set, the event keys and the waiter keys coincide. */
  ghost predicate OneDomain(t: Tables) {
    t.inProgress == t.events.Keys == t.waiters.Keys
  }

  /** A primary owns the event that carries its ticket, and has published exactly when that event is set. */
  ghost predicate Tickets(w: World) {
    && w.tables.entered == |w.calls|
    && (forall i :: 0 <= i < |w.calls| ==> w.calls[i].event.key == w.calls[i].key)
    && (forall i :: 0 <= i < |w.calls| && w.calls[i].primary ==>
          && w.calls[i].event.ticket == i
          && !Joined(w.calls[i])
          && (w.calls[i].phase.Running? <==> w.calls[i].event !in w.tables.fired))
    && (forall i :: 0 <= i < |w.calls| && !w.calls[i].primary ==> !Active(w.calls[i]))
    && (forall e :: e in w.tables.fired ==>
          e.ticket < |w.calls| && w.calls[e.ticket].primary && w.calls[e.ticket].event == e)
  }

  /** The reference count is the number of joined calls, and all of them hold the registered event. */
  ghost predicate Counted(w: World) {
    && (forall k :: Waiters(w.tables, k) == JoinedOn(w.calls, k))
    && (forall i :: 0 <= i < |w.calls| && Joined(w.calls[i]) ==>
          w.calls[i].key in w.tables.events && w.calls[i].event == w.tables.events[w.calls[i].key])
  }

  /** A registered event belongs to a primary of its key. */
  ghost predicate Owned(w: World) {
    forall k :: k in w.tables.events ==>
      var e := w.tables.events[k];
      e.key == k && e.ticket < |w.calls| && w.calls[e.ticket].primary && w.calls[e.ticket].event == e
  }

  /** A set event has its result at hand, and a waiter woke only by a set event. */
  ghost predicate Kept(w: World) {
    && (forall k :: k in w.tables.events && w.tables.events[k] in w.tables.fired ==> k in w.tables.results)
    && (forall i :: 0 <= i < |w.calls| && w.calls[i].phase.Woken? ==> w.calls[i].event in w.tables.fired)
  }

  ghost predicate SomePublished(calls: seq<Call>, k: Key) {
    exists i :: 0 <= i < |calls| && calls[i].key == k && calls[i].phase.Published?
  }

  /** Nothing is held for a key without a call to release it. */
  ghost predicate Accounted(w: World) {
    && (forall k :: k in w.tables.events ==>
          || JoinedOn(w.calls, k) > 0
          || (w.tables.events[k].ticket < |w.calls| && Active(w.calls[w.tables.events[k].ticket])))
    && (forall k :: k in w.tables.results ==> k in w.tables.events || SomePublished(w.calls, k))
  }

  /** Position of the last publication for a key, or -1. */
  function LastFor(log: seq<Publication>, k: Key): int
    ensures -1 <= LastFor(log, k) < |log|
    ensures LastFor(log, k) >= 0 ==> log[LastFor(log, k)].event.key == k
  {
    if log == [] then -1
    else if log[|log| - 1].event.key == k then |log| - 1
    else LastFor(log[..|log| - 1], k)
  }

  ghost predicate InLog(log: seq<Publication>, e: Event) {
    exists j :: 0 <= j < |log| && log[j].event == e
  }

  /** The result table holds the last outcome published for a key, and each publication is its primary's outcome. */
  ghost predicate Logged(w: World) {
    && (forall k :: k in w.tables.results ==>
          LastFor(w.log, k) >= 0 && w.log[LastFor(w.log, k)].outcome == w.tables.results[k])
    && (forall j :: 0 <= j < |w.log| ==>
          w.log[j].event in w.tables.fired && OutcomeOf(w, w.log[j].event) == Some(w.log[j].outcome))
    && (forall e :: e in w.tables.fired ==> InLog(w.log, e))
  }

  /** The outcome with which the primary that owns `e` ended its function, if it has. */
  function OutcomeOf(w: World, e: Event): Option<Outcome> {
    if e.ticket < |w.calls| then
      match w.calls[e.ticket].phase
      case Published(o) => Some(o)
      case Left(Got(o)) => Some(o)
      case _ => None
    else None
  }

  ghost predicate Inv(w: World) {
    && OneDomain(w.tables) && Tickets(w) && Counted(w) && Owned(w) && Kept(w) && Accounted(w) && Logged(w)
  }

  lemma StartInv()
    ensures Inv(START)
  {
  }

  lemma EnterCounted(w: World, k: Key)
    requires OneDomain(w.tables) && Tickets(w) && Counted(w) && Owned(w)
    ensures Counted(Next(w, Enter(k)))
  {
    var w' := Next(w, Enter(k));
    assert w'.calls[..|w.calls|] == w.calls;
    NobodyJoined(w.calls, k);
  }

  lemma EnterTickets(w: World, k: Key)
    requires OneDomain(w.tables) && Tickets(w) && Owned(w)
    ensures Tickets(Next(w, Enter(k))) && Owned(Next(w, Enter(k)))
  {
  }

  lemma EnterKept(w: World, k: Key)
    requires OneDomain(w.tables) && Tickets(w) && Kept(w)
    ensures Kept(Next(w, Enter(k)))
  {
  }

  lemma EnterAccounted(w: World, k: Key)
    requires OneDomain(w.tables) && Tickets(w) && Counted(w) && Accounted(w)
    ensures Accounted(Next(w, Enter(k)))
  {
    var w' := Next(w, Enter(k));
    assert w'.calls[..|w.calls|] == w.calls;
    forall k' | k' in w'.tables.results && k' !in w'.tables.events
      ensures SomePublished(w'.calls, k')
    {
      var i :| 0 <= i < |w.calls| && w.calls[i].key == k' && w.calls[i].phase.Published?;
      assert w'.calls[i] == w.calls[i];
    }
  }

  lemma EnterLogged(w: World, k: Key)
    requires Tickets(w) && Logged(w)
    ensures Logged(Next(w, Enter(k)))
  {
  }

  lemma EnterInv(w: World, k: Key)
    requires Inv(w)
    ensures Inv(Next(w, Enter(k)))
  {
    EnterTickets(w, k);
    EnterCounted(w, k);
    EnterKept(w, k);
    EnterAccounted(w, k);
    EnterLogged(w, k);
  }

  lemma {:induction false} LastForAppend(log: seq<Publication>, p: Publication, k: Key)
    ensures LastFor(log + [p], k) == if p.event.key == k then |log| else LastFor(log, k)
  {
    assert (log + [p])[..|log|] == log;
  }

  lemma PublishCounted(w: World, i: nat, o: Outcome)
    requires Enabled(w, Publish(i, o)) && Counted(w)
    ensures Counted(Next(w, Publish(i, o)))
  {
    MoveCounts(w, i, Published(o));
  }

  lemma PublishTickets(w: World, i: nat, o: Outcome)
    requires Enabled(w, Publish(i, o)) && Tickets(w) && Owned(w) && Kept(w)
    ensures Tickets(Next(w, Publish(i, o))) && Owned(Next(w, Publish(i, o))) && Kept(Next(w, Publish(i, o)))
  {
  }

  lemma PublishAccounted(w: World, i: nat, o: Outcome)
    requires Enabled(w, Publish(i, o)) && Accounted(w)
    ensures Accounted(Next(w, Publish(i, o)))
  {
    var w' := Next(w, Publish(i, o));
    MoveCounts(w, i, Published(o));
    forall k | k in w'.tables.results && k !in w'.tables.events
      ensures SomePublished(w'.calls, k)
    {
      if k == w.calls[i].key {
        assert w'.calls[i].phase.Published?;
      } else {
        var j :| 0 <= j < |w.calls| && w.calls[j].key == k && w.calls[j].phase.Published?;
        assert w'.calls[j] == w.calls[j];
      }
    }
  }

  lemma PublishLastOutcome(w: World, i: nat, o: Outcome, k: Key)
    requires Enabled(w, Publish(i, o)) && Tickets(w) && Logged(w)
    requires k in Next(w, Publish(i, o)).tables.results
    ensures var w' := Next(w, Publish(i, o));
            LastFor(w'.log, k) >= 0 && w'.log[LastFor(w'.log, k)].outcome == w'.tables.results[k]
  {
    LastForAppend(w.log, Publication(w.calls[i].event, o), k);
  }

  lemma PublishLogged(w: World, i: nat, o: Outcome)
    requires Enabled(w, Publish(i, o)) && Tickets(w) && Logged(w)
    ensures Logged(Next(w, Publish(i, o)))
  {
    var w' := Next(w, Publish(i, o));
    var n := |w.log|;
    forall k | k in w'.tables.results
      ensures LastFor(w'.log, k) >= 0 && w'.log[LastFor(w'.log, k)].outcome == w'.tables.results[k]
    {
      PublishLastOutcome(w, i, o, k);
    }
    forall j | 0 <= j < |w'.log|
      ensures w'.log[j].event in w'.tables.fired && OutcomeOf(w', w'.log[j].event) == Some(w'.log[j].outcome)
    {
      if j < n {
        assert w'.log[j] == w.log[j] && w.log[j].event in w.tables.fired;
        assert w.log[j].event.ticket != i;
      }
    }
    forall e | e in w'.tables.fired ensures InLog(w'.log, e) {
      if e == w.calls[i].event {
        assert w'.log[n].event == e;
      } else {
        assert InLog(w.log, e);
        var j :| 0 <= j < n && w.log[j].event == e;
        assert w'.log[j].event == e;
      }
    }
  }

  lemma PublishInv(w: World, i: nat, o: Outcome)
    requires Inv(w) && Enabled(w, Publish(i, o))
    ensures Inv(Next(w, Publish(i, o)))
  {
    PublishTickets(w, i, o);
    PublishCounted(w, i, o);
    PublishAccounted(w, i, o);
    PublishLogged(w, i, o);
  }

  lemma FinishCounted(w: World, i: nat)
    requires Enabled(w, Finish(i)) && Counted(w)
    ensures Counted(Next(w, Finish(i)))
  {
    var w' := Next(w, Finish(i));
    MoveCounts(w, i, w'.calls[i].phase);
    NobodyJoined(w.calls, w.calls[i].key);
  }

  lemma FinishTickets(w: World, i: nat)
    requires Enabled(w, Finish(i)) && Tickets(w) && Owned(w) && Kept(w)
    ensures Tickets(Next(w, Finish(i))) && Owned(Next(w, Finish(i))) && Kept(Next(w, Finish(i)))
  {
  }

  lemma FinishAccounted(w: World, i: nat)
    requires Enabled(w, Finish(i)) && OneDomain(w.tables) && Tickets(w) && Counted(w) && Owned(w) && Accounted(w)
    ensures Accounted(Next(w, Finish(i)))
  {
    var w' := Next(w, Finish(i));
    MoveCounts(w, i, w'.calls[i].phase);
    forall k | k in w'.tables.results && k !in w'.tables.events
      ensures SomePublished(w'.calls, k)
    {
      var j :| 0 <= j < |w.calls| && w.calls[j].key == k && w.calls[j].phase.Published?;
      assert w'.calls[j] == w.calls[j];
    }
  }

  lemma FinishLogged(w: World, i: nat)
    requires Enabled(w, Finish(i)) && Logged(w)
    ensures Logged(Next(w, Finish(i)))
  {
  }

  lemma FinishInv(w: World, i: nat)
    requires Inv(w) && Enabled(w, Finish(i))
    ensures Inv(Next(w, Finish(i)))
  {
    FinishTickets(w, i);
    FinishCounted(w, i);
    FinishAccounted(w, i);
    FinishLogged(w, i);
  }

  lemma WaitCounted(w: World, a: Action)
    requires (a.Wake? || a.TimeOut?) && Enabled(w, a) && Tickets(w) && Counted(w) && Kept(w)
    ensures Counted(Next(w, a)) && Tickets(Next(w, a)) && Kept(Next(w, a))
  {
    MoveCounts(w, a.i, Next(w, a).calls[a.i].phase);
  }

  lemma WaitAccounted(w: World, a: Action)
    requires (a.Wake? || a.TimeOut?) && Enabled(w, a) && Accounted(w)
    ensures Accounted(Next(w, a))
  {
    var w' := Next(w, a);
    MoveCounts(w, a.i, w'.calls[a.i].phase);
    forall k | k in w.tables.results && k !in w.tables.events
      ensures SomePublished(w'.calls, k)
    {
      var j :| 0 <= j < |w.calls| && w.calls[j].key == k && w.calls[j].phase.Published?;
      assert w'.calls[j] == w.calls[j];
    }
  }

  lemma WaitLogged(w: World, a: Action)
    requires (a.Wake? || a.TimeOut?) && Enabled(w, a) && Logged(w)
    ensures Logged(Next(w, a))
  {
  }

  lemma WaitOwned(w: World, a: Action)
    requires (a.Wake? || a.TimeOut?) && Enabled(w, a) && Owned(w)
    ensures Owned(Next(w, a))
  {
  }

  /** `event.wait` returns: a waiter changes phase and nothing else does. */
  lemma WaitInv(w: World, a: Action)
    requires Inv(w) && (a.Wake? || a.TimeOut?) && Enabled(w, a)
    ensures Inv(Next(w, a))
  {
    WaitCounted(w, a);
    WaitOwned(w, a);
    WaitAccounted(w, a);
    WaitLogged(w, a);
  }

  lemma DepartCounted(w: World, a: Action)
    requires (a.LeaveTimedOut? || a.Read?) && Enabled(w, a) && OneDomain(w.tables) && Counted(w)
    ensures Counted(Next(w, a)) && OneDomain(Next(w, a).tables)
  {
    var w' := Next(w, a);
    MoveCounts(w, a.i, w'.calls[a.i].phase);
    NobodyJoined(w'.calls, w.calls[a.i].key);
  }

  lemma DepartTickets(w: World, a: Action)
    requires (a.LeaveTimedOut? || a.Read?) && Enabled(w, a) && Tickets(w)
    ensures Tickets(Next(w, a))
  {
  }

  lemma DepartOwned(w: World, a: Action)
    requires (a.LeaveTimedOut? || a.Read?) && Enabled(w, a) && Owned(w)
    ensures Owned(Next(w, a))
  {
  }

  lemma DepartKept(w: World, a: Action)
    requires (a.LeaveTimedOut? || a.Read?) && Enabled(w, a) && Kept(w)
    ensures Kept(Next(w, a))
  {
  }

  lemma DepartAccounted(w: World, a: Action)
    requires (a.LeaveTimedOut? || a.Read?) && Enabled(w, a) && OneDomain(w.tables) && Counted(w) && Accounted(w)
    ensures Accounted(Next(w, a))
  {
    var w' := Next(w, a);
    MoveCounts(w, a.i, w'.calls[a.i].phase);
    forall k | k in w'.tables.results && k !in w'.tables.events
      ensures SomePublished(w'.calls, k)
    {
      var j :| 0 <= j < |w.calls| && w.calls[j].key == k && w.calls[j].phase.Published?;
      assert w'.calls[j] == w.calls[j];
    }
  }

  lemma DepartLogged(w: World, a: Action)
    requires (a.LeaveTimedOut? || a.Read?) && Enabled(w, a) && Tickets(w) && Logged(w)
    ensures Logged(Next(w, a))
  {
    var w' := Next(w, a);
    forall e | e in w.tables.fired ensures OutcomeOf(w', e) == OutcomeOf(w, e) {
      assert e.ticket != a.i;
    }
  }

  lemma DepartInv(w: World, a: Action)
    requires Inv(w) && (a.LeaveTimedOut? || a.Read?) && Enabled(w, a)
    ensures Inv(Next(w, a))
  {
    DepartTickets(w, a);
    DepartOwned(w, a);
    DepartKept(w, a);
    DepartCounted(w, a);
    DepartAccounted(w, a);
    DepartLogged(w, a);
  }

  /** Every action of every call keeps the invariant, timeouts and overlapping generations included. */
  lemma StepInv(w: World, a: Action)
    requires Inv(w) && Enabled(w, a)
    ensures Inv(Next(w, a))
  {
    match a
    case Enter(k) => EnterInv(w, k);
    case Publish(i, o) => PublishInv(w, i, o);
    case Finish(i) => FinishInv(w, i);
    case Wake(_) => WaitInv(w, a);
    case TimeOut(_) => WaitInv(w, a);
    case LeaveTimedOut(_) => DepartInv(w, a);
    case Read(_) => DepartInv(w, a);
  }

  lemma {:induction false} RunInv(w: World, run: seq<Action>)
    requires Inv(w) && Allowed(w, run)
    ensures Inv(After(w, run))
    decreases |run|
  {
    if run != [] {
      StepInv(w, run[0]);
      RunInv(Next(w, run[0]), run[1..]);
    }
  }
}
