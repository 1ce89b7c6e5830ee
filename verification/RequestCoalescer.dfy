/** The coalescer as the object that owns the four tables; each method is one block run under its lock. */
module RequestCoalescing {
  import opened Values
  import opened Coalescer

  class RequestCoalescer {
    var inProgress: set<Key>
    var events: map<Key, Event>
    var results: map<Key, Outcome>
    var waiters: map<Key, int>

    // The flags of the event objects, and the number of calls so far.
    var fired: set<Event>
    var entered: nat

    // The program counters of all calls, and the publications made.
    ghost var calls: seq<Call>
    ghost var log: seq<Publication>

    ghost function State(): World
      reads this
    {
      World(Tables(inProgress, events, results, waiters, entered, fired), calls, log)
    }

    ghost predicate Valid()
      reads this
    {
      Inv(State())
    }

    constructor ()
      ensures Valid() && State() == START
    {
      inProgress, events, results, waiters := {}, map[], map[], map[];
      fired, entered, calls, log := {}, 0, [], [];
    }

    method Release(key: Key)
      modifies this`inProgress, this`events, this`results, this`waiters
      ensures State() == old(State()).(tables := Coalescer.Release(old(State().tables), key))
    {
      inProgress := inProgress - {key};
      events := events - {key};
      results := results - {key};
      waiters := waiters - {key};
    }

    /** Decides, under the lock, whether the new call is the primary or a waiter of `key`. */
    method Admit(key: Key) returns (event: Event, isPrimary: bool)
      modifies this`inProgress, this`events, this`waiters, this`entered
      ensures var adm := Coalescer.Admit(old(State().tables), key);
              State() == old(State()).(tables := adm.tables) && event == adm.event && isPrimary == adm.primary
    {
      if key in inProgress {
        if key !in events {
          events := events[key := Event(key, entered)];
        }
        waiters := waiters[key := (if key in waiters then waiters[key] else 0) + 1];
        isPrimary := false;
      } else {
        inProgress := inProgress + {key};
        events := events[key := Event(key, entered)];
        waiters := waiters[key := 0];
        isPrimary := true;
      }
      event := events[key];
      entered := entered + 1;
    }

    /** A call of `coalesce` enters. */
    method EnterCall(key: Key) returns (event: Event, isPrimary: bool)
      requires Valid()
      modifies this
      ensures Valid() && State() == Next(old(State()), Enter(key))
      ensures |calls| == old(|calls|) + 1
      ensures calls[old(|calls|)] == Call(key, event, isPrimary, if isPrimary then Running else Waiting)
      ensures isPrimary <==> key !in old(inProgress)
    {
      ghost var w := State();
      event, isPrimary := Admit(key);
      calls := calls + [Call(key, event, isPrimary, if isPrimary then Running else Waiting)];
      assert State() == Next(w, Enter(key));
      EnterInv(w, key);
    }

    /** The function has returned or raised: stores the outcome and sets the event. */
    method StoreAndNotify(key: Key, event: Event, outcome: Outcome, ghost call: nat)
      requires Valid() && Enabled(State(), Publish(call, outcome))
      requires calls[call].key == key && calls[call].event == event
      modifies this
      ensures Valid() && State() == Next(old(State()), Publish(call, outcome))
    {
      PublishInv(State(), call, outcome);
      results := results[key := outcome];
      fired := fired + {event};
      log := log + [Publication(event, outcome)];
      calls := calls[call := calls[call].(phase := Published(outcome))];
    }

    /** The primary's `finally`. */
    method FinishPrimary(key: Key, ghost call: nat)
      requires Valid() && Enabled(State(), Finish(call)) && calls[call].key == key
      modifies this
      ensures Valid() && State() == Next(old(State()), Finish(call))
    {
      FinishInv(State(), call);
      calls := calls[call := calls[call].(phase := Left(Got(calls[call].phase.outcome)))];
      if (if key in waiters then waiters[key] else 0) == 0 {
        Release(key);
      }
    }

    /** Counts a waiter out; the last one cleans up. */
    method CountOut(key: Key)
      modifies this`inProgress, this`events, this`results, this`waiters
      ensures State() == old(State()).(tables := Depart(old(State().tables), key))
    {
      waiters := waiters[key := (if key in waiters then waiters[key] else 0) - 1];
      if waiters[key] == 0 {
        Release(key);
      }
    }

    /** The wait returned False: the waiter leaves with a timeout. */
    method LeaveAfterTimeout(key: Key, ghost call: nat)
      requires Valid() && Enabled(State(), LeaveTimedOut(call)) && calls[call].key == key
      modifies this
      ensures Valid() && State() == Next(old(State()), LeaveTimedOut(call))
    {
      DepartInv(State(), LeaveTimedOut(call));
      calls := calls[call := calls[call].(phase := Left(TimeoutError))];
      CountOut(key);
    }

    /** The wait returned True: the waiter takes the result and leaves; it always finds one. */
    method ReadAndLeave(key: Key, ghost call: nat) returns (answer: Answer)
      requires Valid() && Enabled(State(), Coalescer.Read(call)) && calls[call].key == key
      modifies this
      ensures Valid() && State() == Next(old(State()), Coalescer.Read(call))
      ensures answer.Got? && calls[call].phase == Left(answer)
      ensures key in old(results) && answer.outcome == old(results)[key]
    {
      DepartInv(State(), Coalescer.Read(call));
      answer := if key in results then Got(results[key]) else ResultLost;
      calls := calls[call := calls[call].(phase := Left(answer))];
      CountOut(key);
    }
  }
}
