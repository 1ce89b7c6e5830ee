/** What the coalescing protocol promises: over every run first, then over tidy runs. */
module SingleFlight {
  import opened Values
  import opened Coalescer

  // ---------------------------------------------------------------- every run

  ghost predicate Reachable(w: World) {
    exists run :: Allowed(START, run) && After(START, run) == w
  }

  lemma ReachableInv(w: World)
    requires Reachable(w)
    ensures Inv(w)
  {
    var run :| Allowed(START, run) && After(START, run) == w;
    StartInv();
    RunInv(START, run);
  }

  /**
   The reference count is exact: the tables share one key set, so the fallback that creates a
   second event is unreachable; the count of a key is the number of its joined calls; they all
   hold the registered event; and that event is set, or its primary is running and will set it.
   */
  lemma ReferenceCountIsExact(w: World)
    requires Reachable(w)
    ensures w.tables.inProgress == w.tables.events.Keys == w.tables.waiters.Keys
    ensures forall k :: k in w.tables.waiters ==> w.tables.waiters[k] == JoinedOn(w.calls, k)
    ensures forall i :: 0 <= i < |w.calls| && Joined(w.calls[i]) ==>
              var k := w.calls[i].key;
              k in w.tables.events && w.calls[i].event == w.tables.events[k] && w.tables.waiters[k] > 0
    ensures forall k :: k in w.tables.events ==>
              var e := w.tables.events[k];
              || e in w.tables.fired
              || (e.ticket < |w.calls| && w.calls[e.ticket].key == k && w.calls[e.ticket].phase.Running?)
  {
    ReachableInv(w);
    forall i | 0 <= i < |w.calls| && Joined(w.calls[i]) ensures JoinedOn(w.calls, w.calls[i].key) > 0 {
      NobodyJoined(w.calls, w.calls[i].key);
    }
    assert forall k :: k in w.tables.waiters ==> w.tables.waiters[k] == Waiters(w.tables, k);
  }

  /** Nobody has raised "Result lost". */
  ghost predicate NothingLost(w: World) {
    forall i :: 0 <= i < |w.calls| ==> w.calls[i].phase != Left(ResultLost)
  }

  ghost predicate PublishedBetween(log: seq<Publication>, own: Event, o: Outcome) {
    exists i, j :: 0 <= i <= j < |log| && log[i].event == own && log[j].event.key == own.key && log[j].outcome == o
  }

  /** A waiter that got an outcome got one published for its key no earlier than its own primary's. */
  ghost predicate Agreed(w: World) {
    forall i :: 0 <= i < |w.calls| ==> AgreedAt(w, i)
  }

  lemma PublishedBetweenGrows(log: seq<Publication>, p: Publication, own: Event, o: Outcome)
    requires PublishedBetween(log, own, o)
    ensures PublishedBetween(log + [p], own, o)
  {
    var i, j :| 0 <= i <= j < |log| && log[i].event == own && log[j].event.key == own.key && log[j].outcome == o;
    var log' := log + [p];
    assert log'[i].event == own && log'[j].event.key == own.key && log'[j].outcome == o;
  }

  lemma {:induction false} LastForIsLast(log: seq<Publication>, k: Key, i: nat)
    requires i < |log| && log[i].event.key == k
    ensures i <= LastFor(log, k) && log[LastFor(log, k)].event.key == k
  {
    var n := |log| - 1;
    if log[n].event.key != k {
      LastForIsLast(log[..n], k, i);
    }
  }

  /** The reading block: the result is there, and was published no earlier than the primary's. */
  lemma ReadAgrees(w: World, i: nat)
    requires Inv(w) && Enabled(w, Read(i))
    ensures w.calls[i].key in w.tables.results
    ensures PublishedBetween(w.log, w.calls[i].event, w.tables.results[w.calls[i].key])
  {
    var c := w.calls[i];
    assert c.event in w.tables.fired && InLog(w.log, c.event);
    var j :| 0 <= j < |w.log| && w.log[j].event == c.event;
    LastForIsLast(w.log, c.key, j);
  }

  ghost predicate AgreedAt(w: World, i: nat)
    requires i < |w.calls|
  {
    !w.calls[i].primary && w.calls[i].phase.Left? && w.calls[i].phase.answer.Got? ==>
      PublishedBetween(w.log, w.calls[i].event, w.calls[i].phase.answer.outcome)
  }

  lemma StepAgreesAt(w: World, a: Action, i: nat)
    requires Tickets(w) && Agreed(w) && Enabled(w, a) && i < |Next(w, a).calls|
    requires a.Read? ==> w.calls[a.i].key in w.tables.results
    requires a.Read? ==> PublishedBetween(w.log, w.calls[a.i].event, w.tables.results[w.calls[a.i].key])
    ensures AgreedAt(Next(w, a), i)
  {
    var w' := Next(w, a);
    if i < |w.calls| && w'.calls[i] == w.calls[i] {
      assert AgreedAt(w, i);
      if a.Publish? && !w.calls[i].primary && w.calls[i].phase.Left? && w.calls[i].phase.answer.Got? {
        PublishedBetweenGrows(w.log, w'.log[|w.log|], w.calls[i].event, w.calls[i].phase.answer.outcome);
      }
    }
  }

  lemma StepLosesNothing(w: World, a: Action)
    requires NothingLost(w) && Enabled(w, a) && (a.Read? ==> w.calls[a.i].key in w.tables.results)
    ensures NothingLost(Next(w, a))
  {
  }

  lemma StepAgrees(w: World, a: Action)
    requires Inv(w) && NothingLost(w) && Agreed(w) && Enabled(w, a)
    ensures NothingLost(Next(w, a)) && Agreed(Next(w, a))
  {
    if a.Read? { ReadAgrees(w, a.i); }
    StepLosesNothing(w, a);
    forall i | 0 <= i < |Next(w, a).calls| { StepAgreesAt(w, a, i); }
  }

  lemma {:induction false} RunAgrees(w: World, run: seq<Action>)
    requires Inv(w) && NothingLost(w) && Agreed(w) && Allowed(w, run)
    ensures NothingLost(After(w, run)) && Agreed(After(w, run))
    decreases |run|
  {
    if run != [] {
      StepInv(w, run[0]);
      StepAgrees(w, run[0]);
      RunAgrees(Next(w, run[0]), run[1..]);
    }
  }

  /** In every run no waiter loses its result. */
  lemma ResultNeverLost(w: World)
    requires Reachable(w)
    ensures NothingLost(w)
    ensures forall k :: k in w.tables.events && w.tables.events[k] in w.tables.fired ==> k in w.tables.results
  {
    ReachableInv(w);
    var run :| Allowed(START, run) && After(START, run) == w;
    StartInv();
    RunAgrees(START, run);
  }

  /** In every run a waiter's outcome was published for its key, no earlier than its own primary's. */
  lemma OutcomeAgreement(w: World)
    requires Reachable(w)
    ensures Agreed(w)
    ensures forall j :: 0 <= j < |w.log| ==> OutcomeOf(w, w.log[j].event) == Some(w.log[j].outcome)
  {
    ReachableInv(w);
    var run :| Allowed(START, run) && After(START, run) == w;
    StartInv();
    RunAgrees(START, run);
  }

  // ---------------------------------------------------------------- draining

  predicate Inside(c: Call) {
    !c.phase.Left?
  }

  lemma NobodyInside(w: World, k: Key)
    requires OneDomain(w.tables) && Tickets(w) && Owned(w) && Accounted(w)
    requires forall i :: 0 <= i < |w.calls| && w.calls[i].key == k ==> !Inside(w.calls[i])
    ensures k !in w.tables.inProgress && k !in w.tables.events && k !in w.tables.results && k !in w.tables.waiters
  {
    NobodyJoined(w.calls, k);
  }

  /** When no call is inside for a key, no table mentions the key. */
  lemma NoLeak(w: World, k: Key)
    requires Reachable(w)
    requires forall i :: 0 <= i < |w.calls| && w.calls[i].key == k ==> !Inside(w.calls[i])
    ensures k !in w.tables.inProgress && k !in w.tables.events && k !in w.tables.results && k !in w.tables.waiters
  {
    ReachableInv(w);
    NobodyInside(w, k);
  }

  /** The actions a call still has to take before it is out. */
  function Remaining(c: Call): nat {
    match c.phase
    case Running => 2
    case Published(_) => 1
    case Waiting => 2
    case TimedOut => 1
    case Woken => 1
    case Left(_) => 0
  }

  function Work(calls: seq<Call>): nat {
    if calls == [] then 0 else Work(calls[..|calls| - 1]) + Remaining(calls[|calls| - 1])
  }

  lemma {:induction false} WorkAfterMove(calls: seq<Call>, i: nat, c: Call)
    requires i < |calls|
    ensures Work(calls[i := c]) == Work(calls) - Remaining(calls[i]) + Remaining(c)
  {
    var n := |calls| - 1;
    if i == n {
      assert calls[i := c][..n] == calls[..n];
    } else {
      WorkAfterMove(calls[..n], i, c);
      assert calls[i := c][..n] == calls[..n][i := c];
    }
  }

  /** Unless a new request enters, each action brings the end one step nearer. */
  lemma StepShrinksWork(w: World, a: Action)
    requires Enabled(w, a) && !a.Enter?
    ensures Work(Next(w, a).calls) == Work(w.calls) - 1
  {
    WorkAfterMove(w.calls, a.i, Next(w, a).calls[a.i]);
  }

  lemma {:induction false} RunShrinksWork(w: World, run: seq<Action>)
    requires Allowed(w, run) && forall j :: 0 <= j < |run| ==> !run[j].Enter?
    ensures |run| == Work(w.calls) - Work(After(w, run).calls)
    decreases |run|
  {
    if run != [] {
      StepShrinksWork(w, run[0]);
      RunShrinksWork(Next(w, run[0]), run[1..]);
    }
  }

  lemma {:induction false} WorkWitness(calls: seq<Call>) returns (i: nat)
    requires Work(calls) > 0
    ensures i < |calls| && Inside(calls[i])
  {
    i := |calls| - 1;
    if !Inside(calls[i]) {
      assert Remaining(calls[i]) == 0;
      i := WorkWitness(calls[..i]);
    }
  }

  lemma {:induction false} NoWork(calls: seq<Call>)
    requires Work(calls) == 0
    ensures forall i :: 0 <= i < |calls| ==> !Inside(calls[i])
  {
    if calls != [] {
      var n := |calls| - 1;
      NoWork(calls[..n]);
      assert forall i :: 0 <= i < n ==> calls[..n][i] == calls[i];
    }
  }

  /** While a call is inside, somebody can move without any timeout; `o` is what a running function would end with. */
  lemma NoDeadlock(w: World, o: Outcome) returns (a: Action)
    requires Inv(w) && Work(w.calls) > 0
    ensures Enabled(w, a) && !a.Enter? && !a.TimeOut?
  {
    var i := WorkWitness(w.calls);
    match w.calls[i].phase
    case Running => a := Publish(i, o);
    case Published(_) => a := Finish(i);
    case Waiting =>
      var e := w.calls[i].event;
      if e in w.tables.fired { a := Wake(i); } else { a := Publish(e.ticket, o); }
    case TimedOut => a := LeaveTimedOut(i);
    case Woken => a := Read(i);
  }

  /** A measure of zero means that nobody is inside, and then nothing is left behind. */
  lemma NoWorkNoTables(w: World)
    requires OneDomain(w.tables) && Accounted(w) && Work(w.calls) == 0
    ensures var t := w.tables;
            t.inProgress == {} && t.events == map[] && t.results == map[] && t.waiters == map[]
  {
    NoWork(w.calls);
    forall k ensures k !in w.tables.events && k !in w.tables.results { NobodyJoined(w.calls, k); }
    assert w.tables.events == map[] && w.tables.results == map[];
    assert w.tables.waiters.Keys == {};
  }

  lemma DrainStep(w: World, o: Outcome) returns (a: Action)
    requires Inv(w) && Work(w.calls) > 0
    ensures Enabled(w, a) && !a.Enter? && !a.TimeOut?
    ensures Inv(Next(w, a)) && Work(Next(w, a).calls) == Work(w.calls) - 1
  {
    a := NoDeadlock(w, o);
    StepShrinksWork(w, a);
    StepInv(w, a);
  }

  /** Nobody enters and nobody times out. */
  ghost predicate Patient(run: seq<Action>) {
    forall j :: 0 <= j < |run| ==> !run[j].Enter? && !run[j].TimeOut?
  }

  lemma Prepend(w: World, a: Action, rest: seq<Action>)
    requires Enabled(w, a) && Allowed(Next(w, a), rest)
    ensures !a.Enter? && !a.TimeOut? && Patient(rest) ==> Patient([a] + rest)
    ensures Allowed(w, [a] + rest) && After(w, [a] + rest) == After(Next(w, a), rest)
  {
    assert ([a] + rest)[1..] == rest;
  }

  /** From every reachable state the calls inside can all leave without a timeout, and then the tables are empty. */
  lemma {:induction false} Drain(w: World, o: Outcome) returns (run: seq<Action>)
    requires Inv(w)
    ensures Allowed(w, run) && |run| == Work(w.calls)
    ensures Patient(run)
    ensures var t := After(w, run).tables;
            t.inProgress == {} && t.events == map[] && t.results == map[] && t.waiters == map[]
    decreases Work(w.calls)
  {
    if Work(w.calls) == 0 {
      run := [];
      NoWorkNoTables(w);
    } else {
      var a := DrainStep(w, o);
      var rest := Drain(Next(w, a), o);
      run := [a] + rest;
      Prepend(w, a, rest);
    }
  }

  lemma UndisturbedSteps(w: World, k: Key, o: Outcome)
    requires OneDomain(w.tables) && w.tables.entered == |w.calls| && k !in w.tables.inProgress
    ensures var n := |w.calls|;
            var w1 := Next(w, Enter(k));
            && Enabled(w1, Publish(n, o))
            && var w2 := Next(w1, Publish(n, o));
               && Enabled(w2, Finish(n))
               && var w3 := Next(w2, Finish(n));
                  && w3.calls == w.calls + [Call(k, Event(k, n), true, Left(Got(o)))]
                  && w3.tables.inProgress == w.tables.inProgress && w3.tables.events == w.tables.events
                  && w3.tables.waiters == w.tables.waiters && w3.tables.results == w.tables.results - {k}
  {
  }

  /**
   A call that nobody disturbs, on a key nobody holds: it runs its own function, returns its own
   outcome and leaves the tables as they were, so the next call in sequence runs the function again.
   */
  lemma UndisturbedCall(w: World, k: Key, o: Outcome)
    requires Reachable(w) && k !in w.tables.inProgress
    ensures var n := |w.calls|;
            var run := [Enter(k), Publish(n, o), Finish(n)];
            && Allowed(w, run)
            && var w' := After(w, run);
               && w'.calls == w.calls + [Call(k, Event(k, n), true, Left(Got(o)))]
               && w'.tables.inProgress == w.tables.inProgress && w'.tables.events == w.tables.events
               && w'.tables.waiters == w.tables.waiters && w'.tables.results == w.tables.results - {k}
  {
    ReachableInv(w);
    UndisturbedSteps(w, k, o);
    var n := |w.calls|;
    var run := [Enter(k), Publish(n, o), Finish(n)];
    PlayStep(w, run[0], run[1..]);
    PlayStep(Next(w, run[0]), run[1], run[2..]);
    PlayStep(Next(Next(w, run[0]), run[1]), run[2], []);
    assert [run[1]] + run[2..] == run[1..] && [run[0]] + run[1..] == run && [run[2]] + [] == run[2..];
    PlayIsAfter(w, run);
  }

  // ---------------------------------------------------------------- tidy runs

  /** At most one function runs per key. */
  ghost predicate OneFlight(w: World) {
    forall i, j :: 0 <= i < j < |w.calls| && w.calls[i].phase.Running? && w.calls[j].phase.Running? ==>
      w.calls[i].key != w.calls[j].key
  }

  /**
   A step is tidy unless a timed-out waiter, the last of its key, leaves while the primary is
   still running, or a new primary enters while an earlier one of the key has published but not
   finished.
   */
  ghost predicate Tidy(w: World, a: Action) {
    match a
    case LeaveTimedOut(i) =>
      i < |w.calls| ==>
        var c := w.calls[i];
        !(Waiters(w.tables, c.key) == 1 && c.event.ticket < |w.calls| && w.calls[c.event.ticket].phase.Running?)
    case Enter(k) => k in w.tables.inProgress || !SomePublished(w.calls, k)
    case _ => true
  }

  ghost predicate TidyRun(w: World, run: seq<Action>)
    requires Allowed(w, run)
    decreases |run|
  {
    run == [] || (Tidy(w, run[0]) && TidyRun(Next(w, run[0]), run[1..]))
  }

  /** A key has at most one primary inside. */
  ghost predicate OnePrimary(w: World) {
    forall i, j :: 0 <= i < j < |w.calls| && Active(w.calls[i]) && Active(w.calls[j]) ==>
      w.calls[i].key != w.calls[j].key
  }

  /** While a function runs its key is held under its event, and afterwards under that event or not at all. */
  ghost predicate HeldByActive(w: World) {
    forall i :: 0 <= i < |w.calls| && Active(w.calls[i]) ==>
      var k := w.calls[i].key;
      if k in w.tables.events then w.tables.events[k] == w.calls[i].event else w.calls[i].phase.Published?
  }

  /** The result kept beside a set event is its own primary's. */
  ghost predicate OwnOutcome(w: World) {
    forall k :: k in w.tables.events && w.tables.events[k] in w.tables.fired ==>
      k in w.tables.results && OutcomeOf(w, w.tables.events[k]) == Some(w.tables.results[k])
  }

  ghost predicate Exclusive(w: World) {
    OnePrimary(w) && HeldByActive(w) && OwnOutcome(w)
  }

  lemma TidyEnter(w: World, k: Key)
    requires OneDomain(w.tables) && Tickets(w) && Exclusive(w) && Tidy(w, Enter(k))
    ensures OnePrimary(Next(w, Enter(k))) && HeldByActive(Next(w, Enter(k)))
  {
    var w' := Next(w, Enter(k));
    assert forall i :: 0 <= i < |w.calls| ==> w'.calls[i] == w.calls[i];
  }

  lemma EnterOwnOutcome(w: World, k: Key)
    requires OneDomain(w.tables) && Tickets(w) && Owned(w) && OwnOutcome(w)
    ensures OwnOutcome(Next(w, Enter(k)))
  {
  }

  lemma OtherOnePrimary(w: World, a: Action)
    requires Tickets(w) && OnePrimary(w) && !a.Enter? && Enabled(w, a)
    ensures OnePrimary(Next(w, a))
  {
    var w' := Next(w, a);
    assert forall i :: 0 <= i < |w.calls| && Active(w'.calls[i]) ==>
      Active(w.calls[i]) && w'.calls[i].key == w.calls[i].key;
  }

  lemma PrimaryHeldByActive(w: World, a: Action)
    requires Tickets(w) && OnePrimary(w) && HeldByActive(w) && (a.Publish? || a.Finish?) && Enabled(w, a)
    ensures HeldByActive(Next(w, a))
  {
    var w' := Next(w, a);
    assert Active(w.calls[a.i]);
    assert forall i :: 0 <= i < |w.calls| && i != a.i ==> w'.calls[i] == w.calls[i];
  }

  lemma WaiterHeldByActive(w: World, a: Action)
    requires Tickets(w) && Counted(w) && Kept(w) && HeldByActive(w)
    requires (a.Wake? || a.TimeOut? || a.LeaveTimedOut? || a.Read?) && Enabled(w, a) && Tidy(w, a)
    ensures HeldByActive(Next(w, a))
  {
    var w' := Next(w, a);
    assert Joined(w.calls[a.i]) && !Active(w'.calls[a.i]);
    assert forall i :: 0 <= i < |w.calls| && i != a.i ==> w'.calls[i] == w.calls[i];
  }

  lemma PublishOwnOutcome(w: World, i: nat, o: Outcome)
    requires Tickets(w) && Owned(w) && HeldByActive(w) && OwnOutcome(w) && Enabled(w, Publish(i, o))
    ensures OwnOutcome(Next(w, Publish(i, o)))
  {
    assert w.tables.events[w.calls[i].key] == w.calls[i].event;
  }

  lemma OtherOwnOutcome(w: World, a: Action)
    requires Tickets(w) && Owned(w) && OwnOutcome(w) && !a.Enter? && !a.Publish? && Enabled(w, a)
    ensures OwnOutcome(Next(w, a))
  {
  }

  lemma UntidyStep(w: World, a: Action)
    requires Inv(w) && Exclusive(w) && Enabled(w, a) && !Tidy(w, a)
    ensures !Exclusive(Next(w, a))
  {
    var w' := Next(w, a);
    match a
    case Enter(k) =>
      var i :| 0 <= i < |w.calls| && w.calls[i].key == k && w.calls[i].phase.Published?;
      assert Active(w'.calls[i]) && Active(w'.calls[|w.calls|]);
    case LeaveTimedOut(i) =>
      assert w'.calls[w.calls[i].event.ticket].phase.Running?;
    case _ =>
  }

  /** Tidiness is exactly what exclusivity needs of a step. */
  lemma ExclusiveIffTidy(w: World, a: Action)
    requires Inv(w) && Exclusive(w) && Enabled(w, a)
    ensures Exclusive(Next(w, a)) <==> Tidy(w, a)
  {
    if !Tidy(w, a) {
      UntidyStep(w, a);
    } else if a.Enter? {
      TidyEnter(w, a.key);
      EnterOwnOutcome(w, a.key);
    } else {
      OtherOnePrimary(w, a);
      if a.Publish? || a.Finish? { PrimaryHeldByActive(w, a); } else { WaiterHeldByActive(w, a); }
      if a.Publish? { PublishOwnOutcome(w, a.i, a.outcome); } else { OtherOwnOutcome(w, a); }
    }
  }

  lemma ExclusiveIsOneFlight(w: World)
    requires OnePrimary(w)
    ensures OneFlight(w)
  {
    assert forall i :: 0 <= i < |w.calls| && w.calls[i].phase.Running? ==> Active(w.calls[i]);
  }

  /** A waiter's outcome is the one its own primary returned or raised. */
  ghost predicate SharedOutcome(w: World) {
    forall i :: 0 <= i < |w.calls| && w.calls[i].phase.Left? && w.calls[i].phase.answer.Got? ==>
      OutcomeOf(w, w.calls[i].event) == Some(w.calls[i].phase.answer.outcome)
  }

  lemma OutcomeStays(w: World, a: Action, e: Event)
    requires Enabled(w, a) && OutcomeOf(w, e).Some?
    ensures OutcomeOf(Next(w, a), e) == OutcomeOf(w, e)
  {
  }

  lemma StepShares(w: World, a: Action)
    requires Inv(w) && OwnOutcome(w) && SharedOutcome(w) && Enabled(w, a)
    ensures SharedOutcome(Next(w, a))
  {
    var w' := Next(w, a);
    forall i | 0 <= i < |w'.calls| && w'.calls[i].phase.Left? && w'.calls[i].phase.answer.Got?
      ensures OutcomeOf(w', w'.calls[i].event) == Some(w'.calls[i].phase.answer.outcome)
    {
      if i < |w.calls| && w'.calls[i] == w.calls[i] {
        OutcomeStays(w, a, w.calls[i].event);
      } else if a.Read? {
        OutcomeStays(w, a, w.calls[i].event);
      } else {
        assert a.Finish? && i == a.i;
      }
    }
  }

  lemma {:induction false} TidyRunKeeps(w: World, run: seq<Action>)
    requires Inv(w) && Exclusive(w) && SharedOutcome(w) && Allowed(w, run) && TidyRun(w, run)
    ensures Inv(After(w, run)) && Exclusive(After(w, run)) && SharedOutcome(After(w, run))
    decreases |run|
  {
    if run != [] {
      StepInv(w, run[0]);
      ExclusiveIffTidy(w, run[0]);
      StepShares(w, run[0]);
      TidyRunKeeps(Next(w, run[0]), run[1..]);
    }
  }

  // ---------------------------------------------------------------- when a key is held

  /** Some waiter has joined the event, and may have left again. */
  ghost predicate WaitedOn(calls: seq<Call>, e: Event) {
    exists j :: 0 <= j < |calls| && !calls[j].primary && calls[j].event == e
  }

  /** In every run: a registered event that nobody is joined to has never been waited on. */
  ghost predicate Unwaited(w: World) {
    && (forall i :: 0 <= i < |w.calls| ==> w.calls[i].event.ticket < |w.calls|)
    && (forall k :: k in w.tables.events && JoinedOn(w.calls, k) == 0 ==> !WaitedOn(w.calls, w.tables.events[k]))
  }

  /** In tidy runs: a primary inside whose key is no longer held has been waited on. */
  ghost predicate DrainedEarly(w: World) {
    forall i :: 0 <= i < |w.calls| && Active(w.calls[i]) && w.calls[i].key !in w.tables.events ==>
      WaitedOn(w.calls, w.calls[i].event)
  }

  lemma WaitedOnStays(w: World, a: Action)
    requires Enabled(w, a) && !a.Enter?
    ensures forall e :: WaitedOn(Next(w, a).calls, e) <==> WaitedOn(w.calls, e)
  {
    var w' := Next(w, a);
    assert forall j :: 0 <= j < |w.calls| ==>
      w'.calls[j].primary == w.calls[j].primary && w'.calls[j].event == w.calls[j].event;
    forall e | WaitedOn(w.calls, e) ensures WaitedOn(w'.calls, e) {
      var j :| 0 <= j < |w.calls| && !w.calls[j].primary && w.calls[j].event == e;
      assert w'.calls[j].event == e;
    }
  }

  lemma EnterUnwaited(w: World, k: Key)
    requires OneDomain(w.tables) && Tickets(w) && Owned(w) && Unwaited(w)
    ensures Unwaited(Next(w, Enter(k)))
  {
    var w' := Next(w, Enter(k));
    var n := |w.calls|;
    assert w'.calls[..n] == w.calls;
    forall k' | k' in w'.tables.events && JoinedOn(w'.calls, k') == 0
      ensures !WaitedOn(w'.calls, w'.tables.events[k'])
    {
      forall j | 0 <= j < |w'.calls| && !w'.calls[j].primary ensures w'.calls[j].event != w'.tables.events[k'] {
        assert w'.calls[j] == if j < n then w.calls[j] else w'.calls[n];
      }
    }
  }

  /** The last joined call to leave releases the key, so a key still held was unjoined before. */
  lemma StaysUnjoined(w: World, a: Action, k: Key)
    requires Counted(w) && Enabled(w, a) && !a.Enter?
    requires k in Next(w, a).tables.events && JoinedOn(Next(w, a).calls, k) == 0
    ensures k in w.tables.events && w.tables.events[k] == Next(w, a).tables.events[k] && JoinedOn(w.calls, k) == 0
  {
    JoinedAfterMove(w.calls, a.i, Next(w, a).calls[a.i], k);
    assert Waiters(w.tables, k) == JoinedOn(w.calls, k);
  }

  lemma StepUnwaited(w: World, a: Action)
    requires Counted(w) && Unwaited(w) && Enabled(w, a) && !a.Enter?
    ensures Unwaited(Next(w, a))
  {
    var w' := Next(w, a);
    WaitedOnStays(w, a);
    forall k | k in w'.tables.events && JoinedOn(w'.calls, k) == 0 ensures !WaitedOn(w'.calls, w'.tables.events[k]) {
      StaysUnjoined(w, a, k);
    }
  }

  lemma EnterDrained(w: World, k: Key)
    requires OneDomain(w.tables) && DrainedEarly(w)
    ensures DrainedEarly(Next(w, Enter(k)))
  {
    var w' := Next(w, Enter(k));
    forall i | 0 <= i < |w'.calls| && Active(w'.calls[i]) && w'.calls[i].key !in w'.tables.events
      ensures WaitedOn(w'.calls, w'.calls[i].event)
    {
      assert w'.calls[i] == w.calls[i];
      var j :| 0 <= j < |w.calls| && !w.calls[j].primary && w.calls[j].event == w.calls[i].event;
      assert w'.calls[j] == w.calls[j];
    }
  }

  lemma StepDrained(w: World, a: Action)
    requires Tickets(w) && Counted(w) && OnePrimary(w) && HeldByActive(w) && DrainedEarly(w)
    requires Enabled(w, a) && !a.Enter?
    ensures DrainedEarly(Next(w, a))
  {
    var w' := Next(w, a);
    WaitedOnStays(w, a);
    forall i | 0 <= i < |w'.calls| && Active(w'.calls[i]) && w'.calls[i].key !in w'.tables.events
      ensures WaitedOn(w'.calls, w'.calls[i].event)
    {
      assert Active(w.calls[i]) && w'.calls[i].event == w.calls[i].event;
      if w.calls[i].key in w.tables.events {
        assert !w.calls[a.i].primary && w.calls[a.i].event == w.calls[i].event;
      }
    }
  }

  lemma {:induction false} TidyRunHolds(w: World, run: seq<Action>)
    requires Inv(w) && Exclusive(w) && Unwaited(w) && DrainedEarly(w) && Allowed(w, run) && TidyRun(w, run)
    ensures Unwaited(After(w, run)) && DrainedEarly(After(w, run))
    decreases |run|
  {
    if run != [] {
      var a := run[0];
      StepInv(w, a);
      ExclusiveIffTidy(w, a);
      if a.Enter? {
        EnterUnwaited(w, a.key);
        EnterDrained(w, a.key);
      } else {
        StepUnwaited(w, a);
        StepDrained(w, a);
      }
      TidyRunHolds(Next(w, a), run[1..]);
    }
  }

  /** The function of the key is running, or has ended without anybody ever waiting for it. */
  ghost predicate BusyPrimary(calls: seq<Call>, k: Key) {
    exists i :: 0 <= i < |calls| && calls[i].key == k &&
      (calls[i].phase.Running? || (calls[i].phase.Published? && !WaitedOn(calls, calls[i].event)))
  }

  lemma HeldForAReason(w: World, k: Key)
    requires OneDomain(w.tables) && Tickets(w) && Owned(w) && Accounted(w) && Unwaited(w)
    requires k in w.tables.inProgress && JoinedOn(w.calls, k) == 0
    ensures BusyPrimary(w.calls, k)
  {
    var i := w.tables.events[k].ticket;
    assert w.calls[i].key == k && Active(w.calls[i]) && !WaitedOn(w.calls, w.calls[i].event);
  }

  lemma HeldExactly(w: World, k: Key)
    requires OneDomain(w.tables) && Tickets(w) && Counted(w) && Owned(w) && Accounted(w)
    requires HeldByActive(w) && Unwaited(w) && DrainedEarly(w)
    ensures k in w.tables.inProgress <==> JoinedOn(w.calls, k) > 0 || BusyPrimary(w.calls, k)
  {
    if JoinedOn(w.calls, k) > 0 {
      assert Waiters(w.tables, k) > 0;
    } else if BusyPrimary(w.calls, k) {
      var i :| 0 <= i < |w.calls| && w.calls[i].key == k &&
        (w.calls[i].phase.Running? || (w.calls[i].phase.Published? && !WaitedOn(w.calls, w.calls[i].event)));
      assert Active(w.calls[i]);
    } else if k in w.tables.inProgress {
      HeldForAReason(w, k);
    }
  }

  /**
   Single flight.  In a tidy run at most one function runs per key; whoever gets an outcome gets
   its own primary's; and a key is held exactly while its function runs, joined waiters remain, or
   a primary nobody ever waited for has not finished.
   */
  lemma SingleFlightInTidyRuns(run: seq<Action>)
    requires Allowed(START, run) && TidyRun(START, run)
    ensures var w := After(START, run);
            && OneFlight(w) && SharedOutcome(w)
            && forall k :: k in w.tables.inProgress <==> JoinedOn(w.calls, k) > 0 || BusyPrimary(w.calls, k)
  {
    StartInv();
    TidyRunKeeps(START, run);
    TidyRunHolds(START, run);
    var w := After(START, run);
    ExclusiveIsOneFlight(w);
    forall k { HeldExactly(w, k); }
  }

  // ---------------------------------------------------------------- what an untidy step costs

  /** Whatever happens tidily from here on, no two functions run for one key. */
  ghost predicate Safe(w: World) {
    forall rest :: Allowed(w, rest) && TidyRun(w, rest) ==> OneFlight(After(w, rest))
  }

  lemma {:induction false} ExclusiveIsSafe(w: World, rest: seq<Action>)
    requires Inv(w) && Exclusive(w) && Allowed(w, rest) && TidyRun(w, rest)
    ensures OneFlight(After(w, rest))
    decreases |rest|
  {
    if rest == [] {
      ExclusiveIsOneFlight(w);
    } else {
      StepInv(w, rest[0]);
      ExclusiveIffTidy(w, rest[0]);
      ExclusiveIsSafe(Next(w, rest[0]), rest[1..]);
    }
  }

  lemma TidyStepFirst(w: World, a: Action, rest: seq<Action>)
    requires Enabled(w, a) && Tidy(w, a) && Allowed(Next(w, a), rest) && TidyRun(Next(w, a), rest)
    ensures Allowed(w, [a] + rest) && TidyRun(w, [a] + rest) && After(w, [a] + rest) == After(Next(w, a), rest)
  {
    assert ([a] + rest)[1..] == rest;
  }

  /** A primary is running on a key that is free, and has nothing to finish. */
  ghost predicate Stray(w: World, p: nat, k: Key) {
    && w.tables.entered == |w.calls| && p < |w.calls| && w.calls[p].key == k && w.calls[p].phase.Running?
    && k !in w.tables.inProgress && !SomePublished(w.calls, k)
  }

  /** The next request for the key of a stray primary starts a second function. */
  lemma StrayAdmitsSecond(w: World, p: nat, k: Key)
    requires Stray(w, p, k)
    ensures !Safe(w)
  {
    var w1 := Next(w, Enter(k));
    assert w1.calls[p].phase.Running? && w1.calls[|w.calls|].phase.Running? && w1.calls[|w.calls|].key == k;
    assert Allowed(w1, []) && TidyRun(w1, []) && After(w1, []) == w1;
    TidyStepFirst(w, Enter(k), []);
  }

  /** The primary whose key the last timed-out waiter released is a stray one. */
  lemma EarlyReleaseStrays(w: World, i: nat)
    requires Inv(w) && Exclusive(w) && Enabled(w, LeaveTimedOut(i)) && !Tidy(w, LeaveTimedOut(i))
    ensures Stray(Next(w, LeaveTimedOut(i)), w.calls[i].event.ticket, w.calls[i].key)
  {
    var k, p := w.calls[i].key, w.calls[i].event.ticket;
    var w1 := Next(w, LeaveTimedOut(i));
    assert Active(w.calls[p]) && w1.calls[p] == w.calls[p];
    forall q | 0 <= q < |w1.calls| && w1.calls[q].key == k ensures !w1.calls[q].phase.Published? {
      assert q != p ==> !Active(w.calls[q]);
    }
  }

  /** The last timed-out waiter releases the key of a running primary: the next request starts a second function. */
  lemma EarlyReleaseUnsafe(w: World, i: nat)
    requires Inv(w) && Exclusive(w) && Enabled(w, LeaveTimedOut(i)) && !Tidy(w, LeaveTimedOut(i))
    ensures !Safe(Next(w, LeaveTimedOut(i)))
  {
    EarlyReleaseStrays(w, i);
    StrayAdmitsSecond(Next(w, LeaveTimedOut(i)), w.calls[i].event.ticket, w.calls[i].key);
  }

  lemma LateFinishReleases(w: World, k: Key, i: nat)
    requires w.tables.entered == |w.calls| && OnePrimary(w) && k !in w.tables.inProgress
    requires i < |w.calls| && w.calls[i].key == k && w.calls[i].phase.Published?
    ensures Enabled(Next(w, Enter(k)), Finish(i)) && Stray(Next(Next(w, Enter(k)), Finish(i)), |w.calls|, k)
  {
    var w1 := Next(w, Enter(k));
    var w2 := Next(w1, Finish(i));
    assert Active(w.calls[i]) && w1.calls[i] == w.calls[i] && Waiters(w1.tables, k) == 0;
    forall q | 0 <= q < |w2.calls| && w2.calls[q].key == k ensures !w2.calls[q].phase.Published? {
      if q != i && q < |w.calls| { assert w2.calls[q] == w.calls[q] && !Active(w.calls[q]); }
    }
  }

  /** A new primary before the old one's end: the old one finds count 0 and erases the new one's entries. */
  lemma LateFinishUnsafe(w: World, k: Key)
    requires Inv(w) && Exclusive(w) && !Tidy(w, Enter(k))
    ensures !Safe(Next(w, Enter(k)))
  {
    var i :| 0 <= i < |w.calls| && w.calls[i].key == k && w.calls[i].phase.Published?;
    var w1 := Next(w, Enter(k));
    LateFinishReleases(w, k, i);
    var w2 := Next(w1, Finish(i));
    StrayAdmitsSecond(w2, |w.calls|, k);
    var rest :| Allowed(w2, rest) && TidyRun(w2, rest) && !OneFlight(After(w2, rest));
    TidyStepFirst(w1, Finish(i), rest);
  }

  /**
   The exact price of an untidy step: a step of a tidy run is tidy if and only if no tidy
   continuation leads to two functions running for one key.
   */
  lemma TidyIffSafe(run: seq<Action>, a: Action)
    requires Allowed(START, run) && TidyRun(START, run) && Enabled(After(START, run), a)
    ensures var w := After(START, run); Tidy(w, a) <==> Safe(Next(w, a))
  {
    StartInv();
    TidyRunKeeps(START, run);
    var w := After(START, run);
    if Tidy(w, a) {
      StepInv(w, a);
      ExclusiveIffTidy(w, a);
      forall rest | Allowed(Next(w, a), rest) && TidyRun(Next(w, a), rest)
        ensures OneFlight(After(Next(w, a), rest))
      {
        ExclusiveIsSafe(Next(w, a), rest);
      }
    } else if a.LeaveTimedOut? {
      EarlyReleaseUnsafe(w, a.i);
    } else {
      LateFinishUnsafe(w, a.key);
    }
  }

  // ---------------------------------------------------------------- what an untidy step costs the waiters

  /** Whatever happens tidily from here on, whoever gets an outcome gets its own primary's. */
  ghost predicate OwnSafe(w: World) {
    forall rest :: Allowed(w, rest) && TidyRun(w, rest) ==> SharedOutcome(After(w, rest))
  }

  /** A world one tidy step before an unsafe one is unsafe. */
  lemma UnsafeBefore(w: World, a: Action)
    requires Enabled(w, a) && Tidy(w, a) && !OwnSafe(Next(w, a))
    ensures !OwnSafe(w)
  {
    var rest :| Allowed(Next(w, a), rest) && TidyRun(Next(w, a), rest) && !SharedOutcome(After(Next(w, a), rest));
    TidyStepFirst(w, a, rest);
  }

  lemma UnsafeNow(w: World)
    requires !SharedOutcome(w)
    ensures !OwnSafe(w)
  {
    assert Allowed(w, []) && TidyRun(w, []) && After(w, []) == w;
  }

  /** A new primary and its waiter arrive, and the waiter is woken. */
  lemma WaiterBesideStray(w: World, p: nat, k: Key, own: Outcome)
    requires Stray(w, p, k)
    ensures var n := |w.calls|;
            var w1 := Next(w, Enter(k));
            var w2 := Next(w1, Enter(k));
            && Tidy(w, Enter(k)) && Tidy(w1, Enter(k))
            && Enabled(w2, Publish(n, own))
            && var w3 := Next(w2, Publish(n, own));
               && Enabled(w3, Wake(n + 1))
               && var w4 := Next(w3, Wake(n + 1));
                  && |w4.calls| == n + 2 && w4.calls[p] == w.calls[p]
                  && w4.calls[n] == Call(k, Event(k, n), true, Published(own))
                  && w4.calls[n + 1] == Call(k, Event(k, n), false, Woken)
  {
  }

  /** The stray primary overwrites the result before the waiter reads it. */
  lemma WaiterReadsStray(w: World, p: nat, n: nat, k: Key, own: Outcome, stale: Outcome)
    requires own != stale && p < n && |w.calls| == n + 2
    requires w.calls[p].key == k && w.calls[p].phase.Running?
    requires w.calls[n] == Call(k, Event(k, n), true, Published(own))
    requires w.calls[n + 1] == Call(k, Event(k, n), false, Woken)
    ensures !OwnSafe(w)
  {
    var w1 := Next(w, Publish(p, stale));
    var w2 := Next(w1, Read(n + 1));
    assert w2.calls[n + 1].phase == Left(Got(stale)) && OutcomeOf(w2, w2.calls[n + 1].event) == Some(own);
    UnsafeNow(w2);
    UnsafeBefore(w1, Read(n + 1));
    UnsafeBefore(w, Publish(p, stale));
  }

  lemma StrayIsUnsafe(w: World, p: nat, k: Key, own: Outcome, stale: Outcome)
    requires own != stale && Stray(w, p, k)
    ensures !OwnSafe(w)
  {
    var n := |w.calls|;
    WaiterBesideStray(w, p, k, own);
    var w1 := Next(w, Enter(k));
    var w2 := Next(w1, Enter(k));
    var w3 := Next(w2, Publish(n, own));
    var w4 := Next(w3, Wake(n + 1));
    WaiterReadsStray(w4, p, n, k, own, stale);
    UnsafeBefore(w3, Wake(n + 1));
    UnsafeBefore(w2, Publish(n, own));
    UnsafeBefore(w1, Enter(k));
    UnsafeBefore(w, Enter(k));
  }

  /** The primary whose entries a late `finally` erased is a stray one. */
  lemma LateFinishStrays(w: World, k: Key, own: Outcome, stale: Outcome)
    requires Inv(w) && Exclusive(w) && !Tidy(w, Enter(k)) && own != stale
    ensures !OwnSafe(Next(w, Enter(k)))
  {
    var i :| 0 <= i < |w.calls| && w.calls[i].key == k && w.calls[i].phase.Published?;
    var w1 := Next(w, Enter(k));
    LateFinishReleases(w, k, i);
    StrayIsUnsafe(Next(w1, Finish(i)), |w.calls|, k, own, stale);
    UnsafeBefore(w1, Finish(i));
  }

  /**
   The exact price of an untidy step to the waiters: a step of a tidy run is tidy if and only if in no
   tidy continuation does anybody get an outcome that is not its own primary's.
   */
  lemma TidyIffOwnSafe(run: seq<Action>, a: Action, own: Outcome, stale: Outcome)
    requires Allowed(START, run) && TidyRun(START, run) && Enabled(After(START, run), a) && own != stale
    ensures var w := After(START, run); Tidy(w, a) <==> OwnSafe(Next(w, a))
  {
    StartInv();
    TidyRunKeeps(START, run);
    var w := After(START, run);
    if Tidy(w, a) {
      StepInv(w, a);
      ExclusiveIffTidy(w, a);
      StepShares(w, a);
      forall rest | Allowed(Next(w, a), rest) && TidyRun(Next(w, a), rest)
        ensures SharedOutcome(After(Next(w, a), rest))
      {
        TidyRunKeeps(Next(w, a), rest);
      }
    } else if a.LeaveTimedOut? {
      EarlyReleaseStrays(w, a.i);
      StrayIsUnsafe(Next(w, a), w.calls[a.i].event.ticket, w.calls[a.i].key, own, stale);
    } else {
      LateFinishStrays(w, a.key, own, stale);
    }
  }

  // ---------------------------------------------------------------- three untidy runs

  /** Folds a run action by action, so that a concrete run can be checked. */
  function Play(w: World, run: seq<Action>): Option<World>
    decreases |run|
  {
    if run == [] then Some(w)
    else if Enabled(w, run[0]) then Play(Next(w, run[0]), run[1..]) else None
  }

  lemma {:induction false} PlayIsAfter(w: World, run: seq<Action>)
    ensures Play(w, run).Some? <==> Allowed(w, run)
    ensures Allowed(w, run) ==> Play(w, run) == Some(After(w, run))
    decreases |run|
  {
    if run != [] && Enabled(w, run[0]) {
      PlayIsAfter(Next(w, run[0]), run[1..]);
    }
  }

  lemma PlayStep(w: World, a: Action, rest: seq<Action>)
    requires Enabled(w, a)
    ensures Play(w, [a] + rest) == Play(Next(w, a), rest)
  {
    assert ([a] + rest)[1..] == rest;
  }

  /** No timeout needed: a waiter drains the key before the primary's end, which then erases the next one's entries. */
  lemma LateFinishBreaksSingleFlight(k: Key, o: Outcome) returns (run: seq<Action>)
    ensures Allowed(START, run) && !OneFlight(After(START, run))
    ensures forall j :: 0 <= j < |run| ==> !run[j].TimeOut?
  {
    var a0, a1, a2, a3, a4, a5, a6, a7 :=
      Enter(k), Enter(k), Publish(0, o), Wake(1), Read(1), Enter(k), Finish(0), Enter(k);
    var w1 := Next(START, a0);
    var w2 := Next(w1, a1);
    var w3 := Next(w2, a2);
    var w4 := Next(w3, a3);
    var w5 := Next(w4, a4);
    var w6 := Next(w5, a5);
    var w7 := Next(w6, a6);
    var w8 := Next(w7, a7);
    var r7 := [a7] + [];
    var r6 := [a6] + r7;
    var r5 := [a5] + r6;
    var r4 := [a4] + r5;
    var r3 := [a3] + r4;
    var r2 := [a2] + r3;
    var r1 := [a1] + r2;
    run := [a0] + r1;
    PlayStep(START, a0, r1);
    PlayStep(w1, a1, r2);
    PlayStep(w2, a2, r3);
    PlayStep(w3, a3, r4);
    PlayStep(w4, a4, r5);
    PlayStep(w5, a5, r6);
    PlayStep(w6, a6, r7);
    PlayStep(w7, a7, []);
    PlayIsAfter(START, run);
    assert w8.calls[2].phase.Running? && w8.calls[3].phase.Running? && w8.calls[2].key == w8.calls[3].key;
  }

  /** Call 0 runs on, but its only waiter timed out and released the key. */
  function Abandoned(k: Key): World {
    World(EMPTY.(entered := 2),
          [Call(k, Event(k, 0), true, Running), Call(k, Event(k, 0), false, Left(TimeoutError))], [])
  }

  lemma ReachAbandoned(k: Key, rest: seq<Action>)
    ensures Play(START, [Enter(k)] + ([Enter(k)] + ([TimeOut(1)] + ([LeaveTimedOut(1)] + rest)))) ==
            Play(Abandoned(k), rest)
  {
    var w1 := Next(START, Enter(k));
    var w2 := Next(w1, Enter(k));
    var w3 := Next(w2, TimeOut(1));
    PlayStep(START, Enter(k), [Enter(k)] + ([TimeOut(1)] + ([LeaveTimedOut(1)] + rest)));
    PlayStep(w1, Enter(k), [TimeOut(1)] + ([LeaveTimedOut(1)] + rest));
    PlayStep(w2, TimeOut(1), [LeaveTimedOut(1)] + rest);
    PlayStep(w3, LeaveTimedOut(1), rest);
    assert Next(w3, LeaveTimedOut(1)) == Abandoned(k);
  }

  /** One waiter times out while the primary runs; the next request runs the function a second time. */
  lemma TimeoutBreaksSingleFlight(k: Key) returns (run: seq<Action>)
    ensures Allowed(START, run) && !OneFlight(After(START, run))
  {
    var w := Next(Abandoned(k), Enter(k));
    run := [Enter(k)] + ([Enter(k)] + ([TimeOut(1)] + ([LeaveTimedOut(1)] + ([Enter(k)] + []))));
    ReachAbandoned(k, [Enter(k)] + []);
    PlayStep(Abandoned(k), Enter(k), []);
    PlayIsAfter(START, run);
    assert w.calls[0].phase.Running? && w.calls[2].phase.Running? && w.calls[0].key == w.calls[2].key;
  }

  /** After an early release a waiter may be handed the outcome of another primary, whatever its own one published. */
  lemma WaiterMayGetForeignOutcome(k: Key, stale: Outcome, own: Outcome) returns (run: seq<Action>)
    ensures Allowed(START, run)
    ensures var w := After(START, run);
            |w.calls| == 4 && w.calls[3].phase == Left(Got(stale)) && OutcomeOf(w, w.calls[3].event) == Some(own)
  {
    var w4 := Abandoned(k);
    var w5 := Next(w4, Enter(k));
    var w6 := Next(w5, Enter(k));
    var w7 := Next(w6, Publish(2, own));
    var w8 := Next(w7, Wake(3));
    var w9 := Next(w8, Publish(0, stale));
    var r9 := [Read(3)] + [];
    var r8 := [Publish(0, stale)] + r9;
    var r7 := [Wake(3)] + r8;
    var r6 := [Publish(2, own)] + r7;
    var r5 := [Enter(k)] + r6;
    var r4 := [Enter(k)] + r5;
    PlayStep(w4, Enter(k), r5);
    PlayStep(w5, Enter(k), r6);
    PlayStep(w6, Publish(2, own), r7);
    PlayStep(w7, Wake(3), r8);
    PlayStep(w8, Publish(0, stale), r9);
    PlayStep(w9, Read(3), []);
    ReachAbandoned(k, r4);
    run := [Enter(k)] + ([Enter(k)] + ([TimeOut(1)] + ([LeaveTimedOut(1)] + r4)));
    PlayIsAfter(START, run);
  }
}
