/**
 Requests that overlap in time.  A request decides on the rows it loaded, and its commit writes the
 columns it changed over whatever others have committed since: nothing locks a row or checks its
 version.
 */
module OverlappingRequests {
  import opened Values
  import opened Payments
  import PaymentLifecycle

  // A request under way, with the rows as it loaded them.
  datatype Flight = Flight(request: Request, loaded: Database, done: bool)

  datatype World = World(db: Database, flights: seq<Flight>)

  // A subscription is loaded when it is first looked at, which may be later than the payment.
  datatype Event = Begin(request: Request) | LoadSubscriptions(i: nat) | Commit(i: nat)

  predicate Open(w: World, i: nat) {
    i < |w.flights| && !w.flights[i].done
  }

  function Next(w: World, e: Event): World {
    match e
    case Begin(r) => w.(flights := w.flights + [Flight(r, w.db, false)])
    case LoadSubscriptions(i) =>
      if !Open(w, i) then w else
        var f := w.flights[i];
        w.(flights := w.flights[i := f.(loaded := f.loaded.(subscriptions := w.db.subscriptions))])
    case Commit(i) =>
      if !Open(w, i) then w else
        var f := w.flights[i];
        World(Merged(f.loaded, Step(f.loaded, f.request), w.db), w.flights[i := f.(done := true)])
  }

  function After(w: World, run: seq<Event>): World {
    if run == [] then w else Next(After(w, run[..|run| - 1]), run[|run| - 1])
  }

  // ---------------------------------------------------------------- the completion of a payment

  predicate Commits(w: World, e: Event) {
    e.Commit? && Open(w, e.i)
  }

  /** The commit completes the payment. */
  predicate CompletesNow(w: World, e: Event, id: Id) {
    Commits(w, e) && id in w.db.payments && Completes(w.flights[e.i].loaded, w.flights[e.i].request, id)
  }

  function Completions(w: World, run: seq<Event>, id: Id): nat {
    if run == [] then 0 else
      var n := |run| - 1;
      Completions(w, run[..n], id) + if CompletesNow(After(w, run[..n]), run[n], id) then 1 else 0
  }

  predicate IsCompleted(db: Database, id: Id) {
    id in db.payments && db.payments[id].status == COMPLETED
  }

  /** The request changes the status of the payment it loaded. */
  predicate Moves(f: Flight, id: Id) {
    && id in f.loaded.payments && id in Step(f.loaded, f.request).payments
    && Step(f.loaded, f.request).payments[id].status != f.loaded.payments[id].status
  }

  /** A commit is late if it changes the status of a payment that has been completed since it was loaded. */
  predicate Late(w: World, e: Event, id: Id) {
    Commits(w, e) && IsCompleted(w.db, id) && Moves(w.flights[e.i], id)
  }

  ghost predicate NeverLate(w: World, run: seq<Event>, id: Id) {
    forall n :: 0 <= n < |run| ==> !Late(After(w, run[..n]), run[n], id)
  }

  lemma NeverLatePrefix(w: World, run: seq<Event>, m: nat, id: Id)
    requires NeverLate(w, run, id) && m <= |run|
    ensures NeverLate(w, run[..m], id)
  {
    forall n | 0 <= n < m ensures !Late(After(w, run[..m][..n]), run[..m][n], id) {
      assert run[..m][..n] == run[..n] && run[..m][n] == run[n];
    }
  }

  /** What a request makes of the row it loaded. */
  lemma StatusAfterStep(db: Database, r: Request, id: Id)
    requires id in db.payments
    ensures id in Step(db, r).payments
    ensures var p, q := db.payments[id], Step(db, r).payments[id];
            && (p.status == COMPLETED ==> q.status == COMPLETED)
            && (q.status == COMPLETED && p.status != COMPLETED <==> Completes(db, r, id))
            && (q.status == p.status ==> q.confirmedAt == p.confirmedAt && q.paymentDate == p.paymentDate)
  {
  }

  lemma CommitRow(w: World, e: Event, id: Id)
    requires Commits(w, e) && id in w.db.payments
    ensures id in Next(w, e).db.payments
    ensures var f, now := w.flights[e.i], Next(w, e).db.payments[id];
            if id in f.loaded.payments && id in Step(f.loaded, f.request).payments
            then now == MergedPayment(f.loaded.payments[id], Step(f.loaded, f.request).payments[id], w.db.payments[id])
            else now == w.db.payments[id]
  {
  }

  /** An event completes the payment exactly as often as it makes it completed, unless it is a late commit. */
  lemma StepBalances(w: World, e: Event, id: Id)
    requires id in w.db.payments
    ensures id in Next(w, e).db.payments
    ensures var before, after := PaymentLifecycle.Done(w.db, id), PaymentLifecycle.Done(Next(w, e).db, id);
            var count := if CompletesNow(w, e, id) then 1 else 0;
            after <= before + count && (after == before + count <==> !Late(w, e, id))
  {
    if Commits(w, e) {
      var f := w.flights[e.i];
      CommitRow(w, e, id);
      if id in f.loaded.payments { StatusAfterStep(f.loaded, f.request, id); }
    }
  }

  lemma {:induction false} CompletionsCount(w: World, run: seq<Event>, id: Id)
    requires id in w.db.payments
    ensures id in After(w, run).db.payments
    ensures PaymentLifecycle.Done(After(w, run).db, id) <= PaymentLifecycle.Done(w.db, id) + Completions(w, run, id)
  {
    if run != [] {
      var n := |run| - 1;
      CompletionsCount(w, run[..n], id);
      StepBalances(After(w, run[..n]), run[n], id);
    }
  }

  lemma {:induction false} NeverLateCounts(w: World, run: seq<Event>, id: Id)
    requires id in w.db.payments && NeverLate(w, run, id)
    ensures PaymentLifecycle.Done(After(w, run).db, id) == PaymentLifecycle.Done(w.db, id) + Completions(w, run, id)
  {
    if run != [] {
      var n := |run| - 1;
      NeverLatePrefix(w, run, n, id);
      NeverLateCounts(w, run[..n], id);
      CompletionsCount(w, run[..n], id);
      StepBalances(After(w, run[..n]), run[n], id);
    }
  }

  lemma {:induction false} CompletionsGrow(w: World, run: seq<Event>, m: nat, id: Id)
    requires m <= |run|
    ensures Completions(w, run[..m], id) <= Completions(w, run, id)
  {
    var n := |run| - 1;
    if m <= n {
      CompletionsGrow(w, run[..n], m, id);
      assert run[..n][..m] == run[..m];
    } else {
      assert run[..m] == run;
    }
  }

  /** Throughout the run the payment is completed at most once, and never left again. */
  ghost predicate OnceAndForAll(w: World, run: seq<Event>, id: Id) {
    && (forall n :: 0 <= n <= |run| ==> PaymentLifecycle.Done(w.db, id) + Completions(w, run[..n], id) <= 1)
    && (forall m, n :: 0 <= m <= n <= |run| && IsCompleted(After(w, run[..m]).db, id) ==>
          IsCompleted(After(w, run[..n]).db, id))
  }

  lemma NeverLateIsOnceAndForAll(w: World, run: seq<Event>, id: Id)
    requires id in w.db.payments && NeverLate(w, run, id)
    ensures OnceAndForAll(w, run, id)
  {
    forall n | 0 <= n <= |run|
      ensures PaymentLifecycle.Done(After(w, run[..n]).db, id) ==
              PaymentLifecycle.Done(w.db, id) + Completions(w, run[..n], id)
    {
      NeverLatePrefix(w, run, n, id);
      NeverLateCounts(w, run[..n], id);
    }
    forall m, n | 0 <= m <= n <= |run| ensures Completions(w, run[..m], id) <= Completions(w, run[..n], id) {
      CompletionsGrow(w, run[..n], m, id);
      assert run[..n][..m] == run[..m];
    }
  }

  /** A late commit leaves COMPLETED, or completes the payment again. */
  lemma LateIsHarmful(w: World, run: seq<Event>, n: nat, id: Id)
    requires id in w.db.payments && n < |run| && Late(After(w, run[..n]), run[n], id)
    ensures !OnceAndForAll(w, run, id)
  {
    assert run[..n + 1][..n] == run[..n];
    CompletionsCount(w, run[..n], id);
    StepBalances(After(w, run[..n]), run[n], id);
    assert After(w, run[..n + 1]) == Next(After(w, run[..n]), run[n]);
    if IsCompleted(After(w, run[..n + 1]).db, id) {
      assert CompletesNow(After(w, run[..n]), run[n], id);
      assert Completions(w, run[..n + 1], id) == Completions(w, run[..n], id) + 1;
    }
  }

  /**
   Exactly when overlapping requests do no harm to a payment: it is completed at most once and never
   left again if and only if no commit of the run is late for it.
   */
  lemma OnceAndForAllIffNeverLate(w: World, run: seq<Event>, id: Id)
    requires id in w.db.payments
    ensures OnceAndForAll(w, run, id) <==> NeverLate(w, run, id)
  {
    if NeverLate(w, run, id) {
      NeverLateIsOnceAndForAll(w, run, id);
    } else {
      var n :| 0 <= n < |run| && Late(After(w, run[..n]), run[n], id);
      LateIsHarmful(w, run, n, id);
    }
  }

  /** Without late commits a completed payment keeps its status and both dates. */
  lemma {:induction false} CompletedStays(w: World, run: seq<Event>, id: Id)
    requires IsCompleted(w.db, id) && NeverLate(w, run, id)
    ensures id in After(w, run).db.payments
    ensures var p, q := w.db.payments[id], After(w, run).db.payments[id];
            q.status == COMPLETED && q.confirmedAt == p.confirmedAt && q.paymentDate == p.paymentDate
  {
    if run != [] {
      var n := |run| - 1;
      NeverLatePrefix(w, run, n, id);
      CompletedStays(w, run[..n], id);
      var w', e := After(w, run[..n]), run[n];
      if Commits(w', e) {
        CommitRow(w', e, id);
        var f := w'.flights[e.i];
        if id in f.loaded.payments { StatusAfterStep(f.loaded, f.request, id); }
      }
    }
  }

  // ---------------------------------------------------------------- the columns a commit writes

  /** The column gets the value, exactly unless it was loaded with it already and changed by another commit since. */
  predicate Gets<T(==)>(loaded: T, before: T, after: T, value: T) {
    after == value <==> loaded != value || before == value
  }

  /** What the commit of a webhook leaves in the payment's row, whatever others have committed meanwhile. */
  lemma WebhookWrites(w: World, e: Event, id: Id)
    requires Commits(w, e) && w.flights[e.i].request.Webhook? && w.flights[e.i].request.payment == id
    requires id in w.db.payments && id in w.flights[e.i].loaded.payments
    ensures id in Next(w, e).db.payments
    ensures var f := w.flights[e.i];
            var r, p := f.request, f.loaded.payments[id];
            var before, after := w.db.payments[id], Next(w, e).db.payments[id];
            if PaymentLifecycle.GoesThrough(f.loaded, r, id) then
              && Gets(p.transactionHash, before.transactionHash, after.transactionHash, r.hash)
              && Gets(p.confirmations, before.confirmations, after.confirmations, r.confirmations.value)
              && (if Completes(f.loaded, r, id) then
                    && after.status == COMPLETED
                    && Gets(p.confirmedAt, before.confirmedAt, after.confirmedAt, Some(r.now))
                    && Gets(p.paymentDate, before.paymentDate, after.paymentDate, Some(r.now))
                  else
                    && after.status == before.status && after.confirmedAt == before.confirmedAt
                    && after.paymentDate == before.paymentDate)
            else after == before
  {
    var f := w.flights[e.i];
    CommitRow(w, e, id);
    PaymentLifecycle.WebhookLeaves(f.loaded, f.request, id);
  }

  /** A status check writes at most status and confirmations, each with what it makes of the loaded row. */
  lemma CheckWrites(w: World, e: Event, id: Id)
    requires Commits(w, e) && w.flights[e.i].request.Check? && w.flights[e.i].request.payment == id
    requires id in w.db.payments && id in w.flights[e.i].loaded.payments
    ensures id in Next(w, e).db.payments && id in Step(w.flights[e.i].loaded, w.flights[e.i].request).payments
    ensures var f := w.flights[e.i];
            var p, q := f.loaded.payments[id], Step(f.loaded, f.request).payments[id];
            var before, after := w.db.payments[id], Next(w, e).db.payments[id];
            && after == before.(status := after.status, confirmations := after.confirmations)
            && after.status == (if q.status != p.status then q.status else before.status)
            && after.confirmations ==
               (if q.confirmations != p.confirmations then q.confirmations else before.confirmations)
  {
    var f := w.flights[e.i];
    CommitRow(w, e, id);
    PaymentLifecycle.CheckLeaves(f.loaded, f.request, id);
  }

  // ---------------------------------------------------------------- coins nobody looks for

  predicate Unchecked(db: Database, id: Id) {
    id in db.payments && db.payments[id].coin in {USDC, OtherCoin} && db.payments[id].status !in {CONFIRMING, COMPLETED}
  }

  /** On the committed rows and on those of every request under way. */
  ghost predicate UncheckedEverywhere(w: World, id: Id) {
    Unchecked(w.db, id) && forall i :: 0 <= i < |w.flights| ==> Unchecked(w.flights[i].loaded, id)
  }

  lemma StepUnchecked(db: Database, r: Request, id: Id)
    requires Unchecked(db, id)
    ensures Unchecked(Step(db, r), id) && !Completes(db, r, id)
  {
  }

  /** Overlapping or not, requests never complete a payment in a coin that nobody looks for. */
  lemma {:induction false} UncheckedNeverComplete(w: World, run: seq<Event>, id: Id)
    requires UncheckedEverywhere(w, id)
    ensures UncheckedEverywhere(After(w, run), id) && Completions(w, run, id) == 0
  {
    if run != [] {
      var w', e := After(w, run[..|run| - 1]), run[|run| - 1];
      UncheckedNeverComplete(w, run[..|run| - 1], id);
      if Commits(w', e) {
        StepUnchecked(w'.flights[e.i].loaded, w'.flights[e.i].request, id);
        CommitRow(w', e, id);
      }
    }
  }

  // ---------------------------------------------------------------- activations

  /** The rows under way are rows of this database, loaded at some time. */
  ghost predicate Linked(w: World) {
    forall i :: 0 <= i < |w.flights| ==> PaymentLifecycle.SameLinks(w.flights[i].loaded, w.db)
  }

  lemma CommitLinks(w: World, e: Event)
    requires Linked(w) && Commits(w, e)
    ensures PaymentLifecycle.SameLinks(w.db, Next(w, e).db)
  {
    var f := w.flights[e.i];
    PaymentLifecycle.StepLinks(f.loaded, f.request);
    forall id | id in w.db.payments ensures PaymentLifecycle.SameLink(w.db.payments[id], Next(w, e).db.payments[id]) {
      CommitRow(w, e, id);
    }
    assert Next(w, e).db.payments.Keys == w.db.payments.Keys;
    assert Next(w, e).db.subscriptions.Keys == w.db.subscriptions.Keys;
  }

  lemma LinksChain(a: Database, b: Database, c: Database)
    requires PaymentLifecycle.SameLinks(a, b) && PaymentLifecycle.SameLinks(b, c)
    ensures PaymentLifecycle.SameLinks(a, c)
  {
  }

  lemma StepLinked(w: World, e: Event)
    requires Linked(w)
    ensures Linked(Next(w, e)) && PaymentLifecycle.SameLinks(w.db, Next(w, e).db)
  {
    var w' := Next(w, e);
    if Commits(w, e) {
      CommitLinks(w, e);
      forall i | 0 <= i < |w'.flights| ensures PaymentLifecycle.SameLinks(w'.flights[i].loaded, w'.db) {
        assert w'.flights[i].loaded == w.flights[i].loaded;
        LinksChain(w.flights[i].loaded, w.db, w'.db);
      }
    }
  }

  lemma {:induction false} RunLinked(w: World, run: seq<Event>)
    requires Linked(w)
    ensures Linked(After(w, run)) && PaymentLifecycle.SameLinks(w.db, After(w, run).db)
  {
    if run != [] {
      RunLinked(w, run[..|run| - 1]);
      StepLinked(After(w, run[..|run| - 1]), run[|run| - 1]);
    }
  }

  /** The commit completes a payment of the subscription, and so carries an activation of it; see `ActivationWrites`. */
  predicate ActivatesNow(w: World, e: Event, s: Id) {
    Commits(w, e) && PaymentLifecycle.Activates(w.flights[e.i].loaded, w.flights[e.i].request, s)
  }

  function Activations(w: World, run: seq<Event>, s: Id): nat {
    if run == [] then 0 else
      var n := |run| - 1;
      Activations(w, run[..n], s) + if ActivatesNow(After(w, run[..n]), run[n], s) then 1 else 0
  }

  lemma CommitSubscription(w: World, e: Event, s: Id)
    requires Commits(w, e) && s in w.db.subscriptions
    ensures s in Next(w, e).db.subscriptions
    ensures var f, now := w.flights[e.i], Next(w, e).db.subscriptions[s];
            if s in f.loaded.subscriptions && s in Step(f.loaded, f.request).subscriptions
            then now == MergedSubscription(f.loaded.subscriptions[s], Step(f.loaded, f.request).subscriptions[s],
                                           w.db.subscriptions[s])
            else now == w.db.subscriptions[s]
  {
  }

  /** The expiry an activation by this request sets. */
  function PaidUntil(db: Database, r: Request): Time
    requires r.Webhook? && r.payment in db.payments
  {
    r.now + (if db.payments[r.payment].currency == "monthly" then 30.0 else 365.0) * DAY
  }

  /**
   A row after an activation loaded it: each column has the value of the activation, exactly unless it
   was loaded with that value already and another commit has changed it since.
   */
  predicate ShowsActivation(loaded: Subscription, before: Subscription, after: Subscription, now: Time, until: Time) {
    && (after.status == Active <==> loaded.status != Active || before.status == Active)
    && (loaded.status == Active ==> after.status == before.status)
    && (loaded.hasPlan ==>
          && (after.startedAt == now <==> loaded.startedAt != now || before.startedAt == now)
          && (after.expiresAt == Some(until) <==> loaded.expiresAt != Some(until) || before.expiresAt == Some(until)))
    && (!loaded.hasPlan ==> after.startedAt == before.startedAt && after.expiresAt == before.expiresAt)
    && after.cancelledAt == before.cancelledAt && after.autoRenew == before.autoRenew
  }

  lemma ActivatedOver(loaded: Subscription, before: Subscription, currency: string, now: Time)
    ensures ShowsActivation(loaded, before, MergedSubscription(loaded, Activated(loaded, currency, now), before), now,
                            now + (if currency == "monthly" then 30.0 else 365.0) * DAY)
  {
  }

  lemma ActivatedRow(w: World, e: Event, s: Id)
    requires Linked(w) && ActivatesNow(w, e, s) && s in w.db.subscriptions
    ensures s in w.flights[e.i].loaded.subscriptions && s in Next(w, e).db.subscriptions
    ensures var r, loaded := w.flights[e.i].request, w.flights[e.i].loaded;
            var activated := Activated(loaded.subscriptions[s], loaded.payments[r.payment].currency, r.now);
            Next(w, e).db.subscriptions[s] ==
            MergedSubscription(loaded.subscriptions[s], activated, w.db.subscriptions[s])
  {
    var f := w.flights[e.i];
    assert PaymentLifecycle.SameLinks(f.loaded, w.db);
    PaymentLifecycle.OnlyActivationsActivate(f.loaded, f.request, s);
    CommitSubscription(w, e, s);
  }

  /** What an activating commit leaves in the subscription row. */
  lemma ActivationWrites(w: World, e: Event, s: Id)
    requires Linked(w) && ActivatesNow(w, e, s) && s in w.db.subscriptions
    ensures s in w.flights[e.i].loaded.subscriptions && s in Next(w, e).db.subscriptions
    ensures var f := w.flights[e.i];
            ShowsActivation(f.loaded.subscriptions[s], w.db.subscriptions[s], Next(w, e).db.subscriptions[s],
                            f.request.now, PaidUntil(f.loaded, f.request))
  {
    var f := w.flights[e.i];
    ActivatedRow(w, e, s);
    ActivatedOver(f.loaded.subscriptions[s], w.db.subscriptions[s],
                  f.loaded.payments[f.request.payment].currency, f.request.now);
  }

  /** Any other commit leaves both dates alone, and the status too unless it cancels. */
  lemma OthersLeaveDates(w: World, e: Event, s: Id)
    requires !ActivatesNow(w, e, s) && s in w.db.subscriptions
    ensures s in Next(w, e).db.subscriptions
    ensures var before, after := w.db.subscriptions[s], Next(w, e).db.subscriptions[s];
            && after.startedAt == before.startedAt && after.expiresAt == before.expiresAt
            && (after.status == before.status || after.status == Cancelled)
  {
    if Commits(w, e) {
      var f := w.flights[e.i];
      CommitSubscription(w, e, s);
      if s in f.loaded.subscriptions { PaymentLifecycle.OnlyActivationsActivate(f.loaded, f.request, s); }
    }
  }

  /** Over every run of overlapping requests, the dates of a subscription move only if it is activated. */
  lemma {:induction false} DatesStayUnlessActivated(w: World, run: seq<Event>, s: Id)
    requires s in w.db.subscriptions && Activations(w, run, s) == 0
    ensures s in After(w, run).db.subscriptions
    ensures var before, after := w.db.subscriptions[s], After(w, run).db.subscriptions[s];
            && after.startedAt == before.startedAt && after.expiresAt == before.expiresAt
            && after.status in {before.status, Cancelled}
  {
    if run != [] {
      var n := |run| - 1;
      DatesStayUnlessActivated(w, run[..n], s);
      OthersLeaveDates(After(w, run[..n]), run[n], s);
    }
  }

  predicate PaysFor(db: Database, id: Id, s: Id) {
    id in db.payments && db.payments[id].subscription == Some(s)
  }

  /** The one payment a request can change. */
  predicate Concerns(r: Request, id: Id) {
    !r.Cancel? && r.payment == id
  }

  lemma StepOther(db: Database, r: Request, id: Id)
    requires id in db.payments && !Concerns(r, id)
    ensures id in Step(db, r).payments && Step(db, r).payments[id] == db.payments[id]
  {
  }

  lemma OtherPayments(w: World, e: Event, id: Id)
    requires id in w.db.payments && (Commits(w, e) ==> !Concerns(w.flights[e.i].request, id))
    ensures id in Next(w, e).db.payments && Next(w, e).db.payments[id] == w.db.payments[id]
    ensures !Late(w, e, id)
  {
    if Commits(w, e) {
      CommitRow(w, e, id);
      if id in w.flights[e.i].loaded.payments { StepOther(w.flights[e.i].loaded, w.flights[e.i].request, id); }
    }
  }

  lemma PaidForSame(a: Database, b: Database, s: Id)
    requires PaymentLifecycle.SameLinks(a, b)
    requires forall id :: PaysFor(a, id, s) ==> b.payments[id] == a.payments[id]
    ensures PaymentLifecycle.PaidFor(b, s) == PaymentLifecycle.PaidFor(a, s)
  {
    assert forall id :: id in a.payments ==> PaymentLifecycle.SameLink(a.payments[id], b.payments[id]);
  }

  lemma PaidForDiffers(a: Database, b: Database, id: Id, s: Id)
    requires PaymentLifecycle.SameLinks(a, b) && PaysFor(a, id, s)
    requires forall other :: other in a.payments && other != id ==> b.payments[other] == a.payments[other]
    ensures PaymentLifecycle.PaidFor(b, s) ==
            if IsCompleted(b, id) then PaymentLifecycle.PaidFor(a, s) + {id} else PaymentLifecycle.PaidFor(a, s) - {id}
  {
    assert PaymentLifecycle.SameLink(a.payments[id], b.payments[id]);
  }

  lemma PaidForOthers(w: World, e: Event, s: Id)
    requires Linked(w)
    requires Commits(w, e) ==> forall id :: Concerns(w.flights[e.i].request, id) ==> !PaysFor(w.db, id, s)
    ensures PaymentLifecycle.PaidFor(Next(w, e).db, s) == PaymentLifecycle.PaidFor(w.db, s)
    ensures forall id :: PaysFor(w.db, id, s) ==> !Late(w, e, id)
  {
    StepLinked(w, e);
    forall id | PaysFor(w.db, id, s) ensures Next(w, e).db.payments[id] == w.db.payments[id] && !Late(w, e, id) {
      OtherPayments(w, e, id);
    }
    PaidForSame(w.db, Next(w, e).db, s);
  }

  lemma ActivatesNone(w: World, e: Event, s: Id)
    requires Linked(w)
    requires Commits(w, e) ==> forall id :: Concerns(w.flights[e.i].request, id) ==> !PaysFor(w.db, id, s)
    ensures !ActivatesNow(w, e, s)
  {
    if Commits(w, e) {
      var f := w.flights[e.i];
      assert PaymentLifecycle.SameLinks(f.loaded, w.db);
      if f.request.Webhook? { assert Concerns(f.request, f.request.payment); }
    }
  }

  lemma ActivatesIfCompletes(w: World, e: Event, id: Id, s: Id)
    requires Linked(w) && Commits(w, e) && Concerns(w.flights[e.i].request, id) && PaysFor(w.db, id, s)
    ensures ActivatesNow(w, e, s) == CompletesNow(w, e, id)
  {
    assert PaymentLifecycle.SameLinks(w.flights[e.i].loaded, w.db);
  }

  lemma PaidForOne(w: World, e: Event, id: Id, s: Id)
    requires Linked(w) && Commits(w, e) && Concerns(w.flights[e.i].request, id) && PaysFor(w.db, id, s)
    ensures var before := PaymentLifecycle.PaidFor(w.db, s);
            PaymentLifecycle.PaidFor(Next(w, e).db, s) ==
            if IsCompleted(Next(w, e).db, id) then before + {id} else before - {id}
  {
    StepLinked(w, e);
    forall other | other in w.db.payments && other != id ensures Next(w, e).db.payments[other] == w.db.payments[other] {
      OtherPayments(w, e, other);
    }
    PaidForDiffers(w.db, Next(w, e).db, id, s);
  }

  ghost predicate LateFor(w: World, e: Event, s: Id) {
    exists id :: PaysFor(w.db, id, s) && Late(w, e, id)
  }

  lemma StepActivates(w: World, e: Event, s: Id)
    requires Linked(w)
    ensures |PaymentLifecycle.PaidFor(Next(w, e).db, s)| ==
            |PaymentLifecycle.PaidFor(w.db, s)| + (if ActivatesNow(w, e, s) then 1 else 0)
            <==> !LateFor(w, e, s)
  {
    if Commits(w, e) && !w.flights[e.i].request.Cancel? && PaysFor(w.db, w.flights[e.i].request.payment, s) {
      var id := w.flights[e.i].request.payment;
      PaidForOne(w, e, id, s);
      ActivatesIfCompletes(w, e, id, s);
      StepBalances(w, e, id);
      forall other | PaysFor(w.db, other, s) && other != id ensures !Late(w, e, other) { OtherPayments(w, e, other); }
      assert IsCompleted(w.db, id) <==> id in PaymentLifecycle.PaidFor(w.db, s);
    } else {
      PaidForOthers(w, e, s);
      ActivatesNone(w, e, s);
    }
  }

  /** Throughout the run, as many commits carried an activation as payments of the subscription became completed. */
  ghost predicate Conserved(w: World, run: seq<Event>, s: Id) {
    forall n :: 0 <= n <= |run| ==> ConservedAt(w, run[..n], s)
  }

  ghost predicate ConservedAt(w: World, run: seq<Event>, s: Id) {
    |PaymentLifecycle.PaidFor(After(w, run).db, s)| == |PaymentLifecycle.PaidFor(w.db, s)| + Activations(w, run, s)
  }

  ghost predicate NeverLateFor(w: World, run: seq<Event>, s: Id) {
    forall n :: 0 <= n < |run| ==> !LateFor(After(w, run[..n]), run[n], s)
  }

  lemma StepConserves(w: World, run: seq<Event>, n: nat, s: Id)
    requires Linked(w) && n < |run| && ConservedAt(w, run[..n], s)
    ensures ConservedAt(w, run[..n + 1], s) <==> !LateFor(After(w, run[..n]), run[n], s)
  {
    assert run[..n + 1][..n] == run[..n];
    RunLinked(w, run[..n]);
    StepActivates(After(w, run[..n]), run[n], s);
  }

  lemma {:induction false} NeverLateConserves(w: World, run: seq<Event>, n: nat, s: Id)
    requires Linked(w) && n <= |run| && NeverLateFor(w, run, s)
    ensures ConservedAt(w, run[..n], s)
  {
    if n > 0 {
      NeverLateConserves(w, run, n - 1, s);
      StepConserves(w, run, n - 1, s);
    }
  }

  /** That holds throughout a run if and only if no commit is late for a payment of the subscription. */
  lemma ConservedIffNeverLate(w: World, run: seq<Event>, s: Id)
    requires Linked(w)
    ensures Conserved(w, run, s) <==> NeverLateFor(w, run, s)
  {
    if NeverLateFor(w, run, s) {
      forall n | 0 <= n <= |run| { NeverLateConserves(w, run, n, s); }
    } else {
      var n :| 0 <= n < |run| && LateFor(After(w, run[..n]), run[n], s);
      if ConservedAt(w, run[..n], s) { StepConserves(w, run, n, s); }
    }
  }

  // ---------------------------------------------------------------- when overlapping makes no difference

  predicate SameRow<T(==)>(a: map<Id, T>, b: map<Id, T>, id: Id) {
    (id in a <==> id in b) && (id in a ==> a[id] == b[id])
  }

  /** The rows the request works on are still as it loaded them: what a version column would check. */
  predicate Current(db: Database, f: Flight) {
    match f.request
    case Check(id, _, _, _) => SameRow(f.loaded.payments, db.payments, id)
    case Webhook(id, _, _, _, _, _) =>
      && SameRow(f.loaded.payments, db.payments, id)
      && (id in db.payments && db.payments[id].subscription.Some? ==>
            SameRow(f.loaded.subscriptions, db.subscriptions, db.payments[id].subscription.value))
    case Cancel(id, _, _) => SameRow(f.loaded.subscriptions, db.subscriptions, id)
  }

  lemma MergedPaymentOntoLoaded(p: Payment, q: Payment)
    ensures MergedPayment(p, q, p) == q
  {
  }

  lemma MergedSubscriptionOntoLoaded(p: Subscription, q: Subscription)
    ensures MergedSubscription(p, q, p) == q
  {
  }

  lemma SamePaymentStep(a: Database, b: Database, r: Request, id: Id)
    requires id in a.payments && id in b.payments && a.payments[id] == b.payments[id] && Concerns(r, id)
    ensures id in Step(a, r).payments && id in Step(b, r).payments && Step(a, r).payments[id] == Step(b, r).payments[id]
  {
  }

  lemma CurrentPayment(db: Database, f: Flight, id: Id)
    requires Current(db, f) && id in db.payments
    ensures id in Step(db, f.request).payments
    ensures Merged(f.loaded, Step(f.loaded, f.request), db).payments[id] == Step(db, f.request).payments[id]
  {
    PaymentLifecycle.StepLinks(f.loaded, f.request);
    if Concerns(f.request, id) {
      SamePaymentStep(f.loaded, db, f.request, id);
      MergedPaymentOntoLoaded(db.payments[id], Step(db, f.request).payments[id]);
    } else {
      StepOther(db, f.request, id);
      if id in f.loaded.payments { StepOther(f.loaded, f.request, id); }
    }
  }

  /** The request changes this subscription. */
  predicate Changes(db: Database, r: Request, s: Id) {
    if r.Cancel? then r.subscription == s && r.commits else PaymentLifecycle.Activates(db, r, s)
  }

  lemma OtherSubscriptionStep(db: Database, r: Request, s: Id)
    requires s in db.subscriptions && !Changes(db, r, s)
    ensures s in Step(db, r).subscriptions && Step(db, r).subscriptions[s] == db.subscriptions[s]
  {
    PaymentLifecycle.OnlyActivationsActivate(db, r, s);
  }

  lemma SameSubscriptionStep(a: Database, b: Database, r: Request, s: Id)
    requires s in a.subscriptions && s in b.subscriptions && a.subscriptions[s] == b.subscriptions[s]
    requires Changes(a, r, s) && Changes(b, r, s)
    requires r.Webhook? ==> SameRow(a.payments, b.payments, r.payment)
    ensures s in Step(a, r).subscriptions && s in Step(b, r).subscriptions
    ensures Step(a, r).subscriptions[s] == Step(b, r).subscriptions[s]
  {
    PaymentLifecycle.OnlyActivationsActivate(a, r, s);
    PaymentLifecycle.OnlyActivationsActivate(b, r, s);
  }

  lemma SameChanges(db: Database, f: Flight, s: Id)
    requires Current(db, f)
    ensures Changes(f.loaded, f.request, s) == Changes(db, f.request, s)
    ensures Changes(db, f.request, s) ==> SameRow(f.loaded.subscriptions, db.subscriptions, s)
  {
  }

  lemma CurrentSubscription(db: Database, f: Flight, s: Id)
    requires Current(db, f) && s in db.subscriptions
    ensures s in Step(db, f.request).subscriptions
    ensures Merged(f.loaded, Step(f.loaded, f.request), db).subscriptions[s] == Step(db, f.request).subscriptions[s]
  {
    PaymentLifecycle.StepLinks(f.loaded, f.request);
    PaymentLifecycle.StepLinks(db, f.request);
    SameChanges(db, f, s);
    if Changes(db, f.request, s) {
      SameSubscriptionStep(f.loaded, db, f.request, s);
      MergedSubscriptionOntoLoaded(db.subscriptions[s], Step(db, f.request).subscriptions[s]);
    } else {
      OtherSubscriptionStep(db, f.request, s);
      if s in f.loaded.subscriptions { OtherSubscriptionStep(f.loaded, f.request, s); }
    }
  }

  /** A commit that finds its rows as loaded does what its request does alone, at the instant of the commit. */
  lemma CurrentCommit(w: World, e: Event)
    requires Commits(w, e) && Current(w.db, w.flights[e.i])
    ensures Next(w, e).db == Step(w.db, w.flights[e.i].request)
  {
    var r := w.flights[e.i].request;
    PaymentLifecycle.StepLinks(w.db, r);
    forall id | id in w.db.payments { CurrentPayment(w.db, w.flights[e.i], id); }
    forall s | s in w.db.subscriptions { CurrentSubscription(w.db, w.flights[e.i], s); }
    assert Next(w, e).db.payments == Step(w.db, r).payments;
    assert Next(w, e).db.subscriptions == Step(w.db, r).subscriptions;
  }

  ghost predicate AlwaysCurrent(w: World, run: seq<Event>) {
    forall n :: 0 <= n < |run| && Commits(After(w, run[..n]), run[n]) ==>
      Current(After(w, run[..n]).db, After(w, run[..n]).flights[run[n].i])
  }

  /** The requests of a run in the order of their commits. */
  function Served(w: World, run: seq<Event>): seq<Request> {
    if run == [] then [] else
      var n := |run| - 1;
      var before := After(w, run[..n]);
      if Commits(before, run[n]) then Served(w, run[..n]) + [before.flights[run[n].i].request] else Served(w, run[..n])
  }

  lemma ServedOneMore(db: Database, served: seq<Request>, r: Request)
    ensures PaymentLifecycle.After(db, served + [r]) == Step(PaymentLifecycle.After(db, served), r)
  {
    assert (served + [r])[..|served|] == served;
  }

  /**
   Serial equivalence.  If every commit finds its rows as they were loaded, the run has the effect of
   its requests run one at a time in the order of their commits.
   */
  lemma {:induction false} SerialIfCurrent(w: World, run: seq<Event>)
    requires AlwaysCurrent(w, run)
    ensures After(w, run).db == PaymentLifecycle.After(w.db, Served(w, run))
  {
    if run != [] {
      var n := |run| - 1;
      var front, before := run[..n], After(w, run[..n]);
      forall m | 0 <= m < n ensures front[..m] == run[..m] && front[m] == run[m] {}
      SerialIfCurrent(w, front);
      if Commits(before, run[n]) {
        CurrentCommit(before, run[n]);
        ServedOneMore(w.db, Served(w, front), before.flights[run[n].i].request);
      }
    }
  }

  /** A request that begins and commits with nothing in between does what it does alone. */
  lemma AloneIsStep(w: World, r: Request)
    ensures Next(Next(w, Begin(r)), Commit(|w.flights|)).db == Step(w.db, r)
  {
    CurrentCommit(Next(w, Begin(r)), Commit(|w.flights|));
  }

  // ---------------------------------------------------------------- three runs that go wrong

  lemma TwoEvents(w: World, a: Event, b: Event, id: Id, s: Id)
    ensures After(w, [a, b]) == Next(Next(w, a), b)
    ensures Completions(w, [a, b], id) ==
            (if CompletesNow(w, a, id) then 1 else 0) + (if CompletesNow(Next(w, a), b, id) then 1 else 0)
    ensures Activations(w, [a, b], s) ==
            (if ActivatesNow(w, a, s) then 1 else 0) + (if ActivatesNow(Next(w, a), b, s) then 1 else 0)
  {
    assert [a, b][..1] == [a] && [a][..0] == [];
    assert After(w, [a]) == Next(w, a);
    assert Completions(w, [a], id) == if CompletesNow(w, a, id) then 1 else 0;
    assert Activations(w, [a], s) == if ActivatesNow(w, a, s) then 1 else 0;
  }

  /** A commit that changes the status of the row it loaded sets the committed status, whatever that is by then. */
  lemma MovingCommit(w: World, e: Event, id: Id)
    requires Commits(w, e) && id in w.db.payments && Moves(w.flights[e.i], id)
    ensures id in Next(w, e).db.payments
    ensures Next(w, e).db.payments[id].status == Step(w.flights[e.i].loaded, w.flights[e.i].request).payments[id].status
  {
    CommitRow(w, e, id);
  }

  /** Two requests under way that both move the payment: the second commit overwrites what the first one made of it. */
  lemma SecondMove(w: World, i: nat, j: nat, id: Id)
    requires Open(w, i) && Open(w, j) && i != j && id in w.db.payments
    requires Completes(w.flights[i].loaded, w.flights[i].request, id) && Moves(w.flights[j], id)
    ensures var w' := Next(w, Commit(i));
            && CompletesNow(w, Commit(i), id) && IsCompleted(w'.db, id) && Late(w', Commit(j), id)
            && w'.flights[j] == w.flights[j] && id in Next(w', Commit(j)).db.payments
            && Next(w', Commit(j)).db.payments[id].status ==
               Step(w.flights[j].loaded, w.flights[j].request).payments[id].status
  {
    var w' := Next(w, Commit(i));
    StatusAfterStep(w.flights[i].loaded, w.flights[i].request, id);
    MovingCommit(w, Commit(i), id);
    assert w'.flights[j] == w.flights[j];
    MovingCommit(w', Commit(j), id);
  }

  lemma BothUnderWay(db: Database, first: Request, second: Request)
    ensures After(World(db, []), [Begin(first), Begin(second)]) ==
            World(db, [Flight(first, db, false), Flight(second, db, false)])
  {
    TwoEvents(World(db, []), Begin(first), Begin(second), 0, 0);
  }

  /** Another request's commit leaves a request under way as it is. */
  lemma OtherFlights(w: World, i: nat, j: nat)
    requires Open(w, i) && Open(w, j) && i != j
    ensures Open(Next(w, Commit(i)), j) && Next(w, Commit(i)).flights[j] == w.flights[j]
  {
  }

  /** Two activations of a subscription under way: each moves a date that neither has loaded as its own. */
  lemma SecondActivation(w: World, i: nat, j: nat, s: Id)
    requires Linked(w) && Open(w, i) && Open(w, j) && i != j && s in w.db.subscriptions
    requires ActivatesNow(w, Commit(i), s) && PaymentLifecycle.Activates(w.flights[j].loaded, w.flights[j].request, s)
    ensures var w1 := Next(w, Commit(i));
            ActivatesNow(w1, Commit(j), s) && s in w1.db.subscriptions && s in Next(w1, Commit(j)).db.subscriptions
    ensures s in w.flights[i].loaded.subscriptions && s in w.flights[j].loaded.subscriptions
    ensures var a, b := w.flights[i], w.flights[j];
            var w1 := Next(w, Commit(i));
            var one, two := w1.db.subscriptions[s], Next(w1, Commit(j)).db.subscriptions[s];
            && (a.loaded.subscriptions[s].hasPlan ==>
                  && (a.loaded.subscriptions[s].startedAt != a.request.now ==> one.startedAt == a.request.now)
                  && (a.loaded.subscriptions[s].expiresAt != Some(PaidUntil(a.loaded, a.request)) ==>
                        one.expiresAt == Some(PaidUntil(a.loaded, a.request))))
            && (b.loaded.subscriptions[s].hasPlan ==>
                  && (b.loaded.subscriptions[s].startedAt != b.request.now ==> two.startedAt == b.request.now)
                  && (b.loaded.subscriptions[s].expiresAt != Some(PaidUntil(b.loaded, b.request)) ==>
                        two.expiresAt == Some(PaidUntil(b.loaded, b.request))))
  {
    StepLinked(w, Commit(i));
    OtherFlights(w, i, j);
    ActivationWrites(w, Commit(i), s);
    ActivationWrites(Next(w, Commit(i)), Commit(j), s);
  }

  /** Two webhooks that both load the payment as CONFIRMING complete it twice, and both carry an activation. */
  lemma TwoWebhooksCompleteTwice(db: Database, id: Id, s: Id, first: Request, second: Request)
    requires Completes(db, first, id) && Completes(db, second, id) && db.payments[id].subscription == Some(s)
    ensures var w := After(World(db, []), [Begin(first), Begin(second)]);
            && Completions(w, [Commit(0), Commit(1)], id) == 2 && Activations(w, [Commit(0), Commit(1)], s) == 2
            && Late(Next(w, Commit(0)), Commit(1), id)
  {
    BothUnderWay(db, first, second);
    var w := After(World(db, []), [Begin(first), Begin(second)]);
    StatusAfterStep(db, second, id);
    SecondMove(w, 0, 1, id);
    TwoEvents(w, Commit(0), Commit(1), id, s);
  }

  /** Where there is a plan, the second webhook moves the start and the expiry of the subscription again. */
  lemma TwoWebhooksMoveDatesTwice(db: Database, id: Id, s: Id, first: Request, second: Request)
    requires Completes(db, first, id) && Completes(db, second, id) && db.payments[id].subscription == Some(s)
    requires s in db.subscriptions && db.subscriptions[s].hasPlan
    requires db.subscriptions[s].startedAt !in {first.now, second.now}
    requires db.subscriptions[s].expiresAt !in {Some(PaidUntil(db, first)), Some(PaidUntil(db, second))}
    ensures var w1 := Next(After(World(db, []), [Begin(first), Begin(second)]), Commit(0));
            var w2 := Next(w1, Commit(1));
            && s in w1.db.subscriptions && s in w2.db.subscriptions
            && w1.db.subscriptions[s].startedAt == first.now && w2.db.subscriptions[s].startedAt == second.now
            && w1.db.subscriptions[s].expiresAt == Some(PaidUntil(db, first))
            && w2.db.subscriptions[s].expiresAt == Some(PaidUntil(db, second))
  {
    BothUnderWay(db, first, second);
    SecondActivation(After(World(db, []), [Begin(first), Begin(second)]), 0, 1, s);
  }

  lemma CommitOfCancel(w: World, i: nat, s: Id, loaded: Database, now: Time)
    requires Open(w, i) && w.flights[i] == Flight(Cancel(s, now, true), loaded, false)
    requires s in w.db.subscriptions && s in loaded.subscriptions && loaded.subscriptions[s].status != Cancelled
    ensures var w' := Next(w, Commit(i));
            && s in w'.db.subscriptions && w'.db.subscriptions[s].status == Cancelled
            && w'.db.payments == w.db.payments
  {
    CommitSubscription(w, Commit(i), s);
    forall id | id in w.db.payments { OtherPayments(w, Commit(i), id); }
  }

  /** A commit is late at most for the payment it concerns, and not for one that is not completed. */
  lemma NotLate(w: World, e: Event, id: Id, s: Id)
    requires Commits(w, e) && !IsCompleted(w.db, id)
    requires forall other :: Concerns(w.flights[e.i].request, other) ==> other == id
    ensures !LateFor(w, e, s)
  {
    forall other | PaysFor(w.db, other, s) ensures !Late(w, e, other) {
      if other != id { OtherPayments(w, e, other); }
    }
  }

  /**
   An activation can be lost.  A webhook loads a confirming payment of an active subscription, the
   subscription is cancelled, and then the webhook commits: no commit is late, the payment is
   completed, but the status, loaded as Active already, is not written, and stays Cancelled.
   */
  lemma ActivationLostToCancellation(db: Database, id: Id, s: Id, webhook: Request, now: Time)
    requires Completes(db, webhook, id) && db.payments[id].subscription == Some(s)
    requires s in db.subscriptions && db.subscriptions[s].status == Active
    ensures var w := After(World(db, []), [Begin(webhook), Begin(Cancel(s, now, true))]);
            var w1 := Next(w, Commit(1));
            var w2 := Next(w1, Commit(0));
            && !LateFor(w, Commit(1), s) && !LateFor(w1, Commit(0), s) && ActivatesNow(w1, Commit(0), s)
            && IsCompleted(w2.db, id) && s in w2.db.subscriptions && w2.db.subscriptions[s].status == Cancelled
  {
    var cancel := Cancel(s, now, true);
    BothUnderWay(db, webhook, cancel);
    var w := After(World(db, []), [Begin(webhook), Begin(cancel)]);
    CommitOfCancel(w, 1, s, db, now);
    OtherFlights(w, 1, 0);
    StepLinked(w, Commit(1));
    LostAfterCancel(Next(w, Commit(1)), id, s, webhook, db);
    NotLate(w, Commit(1), id, s);
  }

  lemma LostAfterCancel(w1: World, id: Id, s: Id, webhook: Request, db: Database)
    requires Linked(w1) && Open(w1, 0) && w1.flights[0] == Flight(webhook, db, false)
    requires Completes(db, webhook, id) && db.payments[id].subscription == Some(s) && w1.db.payments == db.payments
    requires s in db.subscriptions && db.subscriptions[s].status == Active
    requires s in w1.db.subscriptions && w1.db.subscriptions[s].status == Cancelled
    ensures !LateFor(w1, Commit(0), s) && ActivatesNow(w1, Commit(0), s)
    ensures var w2 := Next(w1, Commit(0));
            IsCompleted(w2.db, id) && s in w2.db.subscriptions && w2.db.subscriptions[s].status == Cancelled
  {
    ActivationWrites(w1, Commit(0), s);
    StatusAfterStep(db, webhook, id);
    MovingCommit(w1, Commit(0), id);
    NotLate(w1, Commit(0), id, s);
  }

  lemma FundedCheckConfirms(db: Database, check: Request, id: Id, seen: Observation)
    requires id in db.payments && db.payments[id].status == PENDING && db.payments[id].coin in {BTC, ETH}
    requires db.payments[id].hasAddress && db.payments[id].requiredConfirmations.Some?
    requires seen.received >= db.payments[id].amount
    requires check == Check(id, check.now, Some(seen), true) && !Expired(db.payments[id], check.now)
    ensures id in Step(db, check).payments && Step(db, check).payments[id].status == CONFIRMING
  {
  }

  lemma CheckedThenNotified(db: Database, check: Request, webhook: Request)
    ensures var w1 := After(World(db, []), [Begin(check), Begin(check)]);
            var db' := Step(db, check);
            After(w1, [Commit(1), Begin(webhook)]) ==
            World(db', [Flight(check, db, false), Flight(check, db, true), Flight(webhook, db', false)])
  {
    BothUnderWay(db, check, check);
    var w1 := World(db, [Flight(check, db, false), Flight(check, db, false)]);
    CurrentCommit(w1, Commit(1));
    TwoEvents(w1, Commit(1), Begin(webhook), 0, 0);
  }

  /** A status check that loaded a pending payment reopens it after another check and a webhook have completed it. */
  lemma StaleCheckReopens(db: Database, check: Request, webhook: Request, id: Id, seen: Observation)
    requires id in db.payments && db.payments[id].status == PENDING && db.payments[id].coin in {BTC, ETH}
    requires db.payments[id].hasAddress && db.payments[id].requiredConfirmations.Some?
    requires seen.received >= db.payments[id].amount
    requires check == Check(id, check.now, Some(seen), true) && !Expired(db.payments[id], check.now)
    requires webhook.Webhook? && webhook.payment == id && webhook.processes
    requires webhook.confirmations.Some? && EnoughConfirmations(db.payments[id], webhook.confirmations.value)
    ensures var w1 := After(World(db, []), [Begin(check), Begin(check)]);
            var w2 := After(w1, [Commit(1), Begin(webhook)]);
            var w3 := Next(w2, Commit(2));
            var w4 := Next(w3, Commit(0));
            && IsCompleted(w3.db, id) && Late(w3, Commit(0), id)
            && id in w4.db.payments && w4.db.payments[id].status == CONFIRMING
  {
    var w1 := After(World(db, []), [Begin(check), Begin(check)]);
    var w2 := After(w1, [Commit(1), Begin(webhook)]);
    CheckedThenNotified(db, check, webhook);
    FundedCheckConfirms(db, check, id, seen);
    PaymentLifecycle.StepLinks(db, check);
    assert PaymentLifecycle.SameLink(db.payments[id], Step(db, check).payments[id]);
    SecondMove(w2, 2, 0, id);
  }
}
