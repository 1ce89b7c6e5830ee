/** What holds of payments and subscriptions over any sequence of requests that run one at a time. */
module PaymentLifecycle {
  import opened Values
  import opened Payments

  function After(db: Database, run: seq<Request>): Database {
    if run == [] then db else Step(After(db, run[..|run| - 1]), run[|run| - 1])
  }

  /** What no request changes of a payment. */
  predicate SameLink(p: Payment, q: Payment) {
    && p.subscription == q.subscription && p.expiresAt == q.expiresAt
    && p.requiredConfirmations == q.requiredConfirmations && p.currency == q.currency
    && p.coin == q.coin && p.hasAddress == q.hasAddress
  }

  /** Requests never add, drop or re-link a payment, nor drop a subscription. */
  predicate SameLinks(a: Database, b: Database) {
    && a.payments.Keys == b.payments.Keys && a.subscriptions.Keys == b.subscriptions.Keys
    && forall id :: id in a.payments ==> SameLink(a.payments[id], b.payments[id])
  }

  lemma CheckLinks(db: Database, r: Request)
    requires r.Check?
    ensures SameLinks(db, Step(db, r))
  {
  }

  lemma WebhookLinks(db: Database, r: Request)
    requires r.Webhook?
    ensures SameLinks(db, Step(db, r))
  {
  }

  lemma StepLinks(db: Database, r: Request)
    ensures SameLinks(db, Step(db, r))
  {
    if r.Check? { CheckLinks(db, r); }
    if r.Webhook? { WebhookLinks(db, r); }
  }

  lemma {:induction false} LinksStay(db: Database, run: seq<Request>)
    ensures SameLinks(db, After(db, run))
  {
    if run != [] {
      LinksStay(db, run[..|run| - 1]);
      StepLinks(After(db, run[..|run| - 1]), run[|run| - 1]);
    }
  }

  /**
   A payment becomes COMPLETED in one way only: from CONFIRMING, in a webhook that carries enough
   confirmations and whose processing goes through; and then it does.
   */
  lemma CompletionIffWebhook(db: Database, r: Request, id: Id)
    requires id in db.payments && db.payments[id].status != COMPLETED
    ensures Step(db, r).payments[id].status == COMPLETED <==> Completes(db, r, id)
  {
  }

  /** A completed payment stays completed, and its two dates stay as they were set. */
  lemma {:induction false} CompletedIsFinal(db: Database, run: seq<Request>, id: Id)
    requires id in db.payments && db.payments[id].status == COMPLETED
    ensures id in After(db, run).payments
    ensures var p := After(db, run).payments[id];
            && p.status == COMPLETED && p.confirmedAt == db.payments[id].confirmedAt
            && p.paymentDate == db.payments[id].paymentDate
  {
    if run != [] {
      CompletedIsFinal(db, run[..|run| - 1], id);
    }
  }

  /** How many requests of the run completed the payment. */
  function Completions(db: Database, run: seq<Request>, id: Id): nat {
    if run == [] then 0 else
      var n := |run| - 1;
      Completions(db, run[..n], id) + if Completes(After(db, run[..n]), run[n], id) then 1 else 0
  }

  function Done(db: Database, id: Id): nat {
    if id in db.payments && db.payments[id].status == COMPLETED then 1 else 0
  }

  /** However often webhooks repeat, a payment is completed at most once. */
  lemma {:induction false} CompletedAtMostOnce(db: Database, run: seq<Request>, id: Id)
    ensures Completions(db, run, id) == Done(After(db, run), id) - Done(db, id) <= 1
  {
    if run != [] {
      var n := |run| - 1;
      CompletedAtMostOnce(db, run[..n], id);
      var mid := After(db, run[..n]);
      if id in mid.payments && mid.payments[id].status != COMPLETED { CompletionIffWebhook(mid, run[n], id); }
    }
  }

  /** The payments of a subscription that are completed. */
  function PaidFor(db: Database, s: Id): set<Id> {
    set id | id in db.payments && db.payments[id].status == COMPLETED && db.payments[id].subscription == Some(s)
  }

  /** The request completes a payment of the subscription, and so activates it. */
  predicate Activates(db: Database, r: Request, s: Id) {
    r.Webhook? && Completes(db, r, r.payment) && db.payments[r.payment].subscription == Some(s)
  }

  function Activations(db: Database, run: seq<Request>, s: Id): nat {
    if run == [] then 0 else
      var n := |run| - 1;
      Activations(db, run[..n], s) + if Activates(After(db, run[..n]), run[n], s) then 1 else 0
  }

  lemma StepPaidFor(db: Database, r: Request, s: Id)
    ensures PaidFor(Step(db, r), s) == PaidFor(db, s) + if Activates(db, r, s) then {r.payment} else {}
    ensures Activates(db, r, s) ==> r.payment !in PaidFor(db, s)
  {
    forall id | id in db.payments && db.payments[id].status != COMPLETED { CompletionIffWebhook(db, r, id); }
  }

  /** Conservation: a subscription is activated exactly as often as payments of it become completed. */
  lemma {:induction false} ActivationsMatchPayments(db: Database, run: seq<Request>, s: Id)
    ensures Activations(db, run, s) == |PaidFor(After(db, run), s)| - |PaidFor(db, s)|
  {
    if run != [] {
      var n := |run| - 1;
      ActivationsMatchPayments(db, run[..n], s);
      StepPaidFor(After(db, run[..n]), run[n], s);
    }
  }

  /** With a plan the period starts now and lasts 30 or 365 days; without one the dates stay. */
  predicate BuysPeriod(before: Subscription, after: Subscription, currency: string, now: Time) {
    if !before.hasPlan then after.startedAt == before.startedAt && after.expiresAt == before.expiresAt
    else
      && after.startedAt == now
      && after.expiresAt == Some(now + 86400.0 * if currency == "monthly" then 30.0 else 365.0)
  }

  /** A subscription becomes active, and its dates move, only by an activation; other requests leave or cancel it. */
  lemma OnlyActivationsActivate(db: Database, r: Request, s: Id)
    requires s in db.subscriptions
    ensures var before, after := db.subscriptions[s], Step(db, r).subscriptions[s];
            if Activates(db, r, s) then
              && after == Activated(before, db.payments[r.payment].currency, r.now)
              && Step(db, r).payments[r.payment].confirmedAt == Some(r.now)
              && after.status == Active && BuysPeriod(before, after, db.payments[r.payment].currency, r.now)
              && after.cancelledAt == before.cancelledAt && after.autoRenew == before.autoRenew
            else
              && after.startedAt == before.startedAt && after.expiresAt == before.expiresAt
              && (if r.Cancel? && r.subscription == s && r.commits
                  then after.status == Cancelled && after.cancelledAt == Some(r.now) && !after.autoRenew
                  else after == before)
  {
  }

  /** The payment comes from `create_payment`, for this subscription and at any price. */
  ghost predicate Created(p: Payment, s: Id) {
    exists coin, converted, hasAddress, required, timeout, now ::
      CreatePayment(s, coin, converted, hasAddress, required, timeout, now) == Some(p)
  }

  lemma CreatedInCoins(p: Payment, s: Id)
    requires Created(p, s)
    ensures p.currency != "monthly" && p.subscription == Some(s)
  {
  }

  lemma CompletionBuysAYear(db: Database, r: Request, id: Id, s: Id)
    requires Completes(db, r, id) && db.payments[id].currency != "monthly" && db.payments[id].subscription == Some(s)
    requires s in db.subscriptions && db.subscriptions[s].hasPlan
    ensures s in Step(db, r).subscriptions && Step(db, r).subscriptions[s].expiresAt == Some(r.now + 365.0 * DAY)
  {
  }

  /**
   A payment created for any price, the monthly one included, buys 365 days: after any run from its
   creation, the request that completes it sets the expiry of its subscription a year ahead.
   */
  lemma EveryCreatedPaymentBuysAYear(db: Database, id: Id, s: Id, run: seq<Request>, r: Request)
    requires id in db.payments && Created(db.payments[id], s)
    requires Completes(After(db, run), r, id)
    requires s in After(db, run).subscriptions && After(db, run).subscriptions[s].hasPlan
    ensures s in Step(After(db, run), r).subscriptions
    ensures Step(After(db, run), r).subscriptions[s].expiresAt == Some(r.now + 365.0 * DAY)
  {
    CreatedInCoins(db.payments[id], s);
    LinksStay(db, run);
    CompletionBuysAYear(After(db, run), r, id, s);
  }

  /** Nobody looks for USDC: unless it is confirming already, such a payment is never completed by these requests. */
  lemma {:induction false} UncheckedCoinsNeverComplete(db: Database, run: seq<Request>, id: Id)
    requires id in db.payments && db.payments[id].coin in {USDC, OtherCoin}
    requires db.payments[id].status !in {CONFIRMING, COMPLETED}
    ensures id in After(db, run).payments && After(db, run).payments[id].coin == db.payments[id].coin
    ensures After(db, run).payments[id].status !in {CONFIRMING, COMPLETED} && Completions(db, run, id) == 0
  {
    if run != [] {
      UncheckedCoinsNeverComplete(db, run[..|run| - 1], id);
    }
  }

  // ---------------------------------------------------------------- expiry

  /** From `start` on, the clock of the requests never goes back. */
  ghost predicate Clocked(run: seq<Request>, start: Time) {
    && (forall i :: 0 <= i < |run| ==> start <= run[i].now)
    && (forall i, j :: 0 <= i < j < |run| ==> run[i].now <= run[j].now)
  }

  lemma StepKeepsExpired(db: Database, r: Request, id: Id)
    requires id in db.payments && db.payments[id].status == EXPIRED && Expired(db.payments[id], r.now)
    ensures id in Step(db, r).payments && Step(db, r).payments[id].status == EXPIRED
  {
  }

  /** A payment found expired stays expired, even if its coins are confirmed later. */
  lemma {:induction false} ExpiredIsFinal(db: Database, run: seq<Request>, id: Id, start: Time)
    requires id in db.payments && db.payments[id].status == EXPIRED && Expired(db.payments[id], start)
    requires Clocked(run, start)
    ensures id in After(db, run).payments && After(db, run).payments[id].status == EXPIRED
    ensures Completions(db, run, id) == 0
  {
    if run != [] {
      var n := |run| - 1;
      ExpiredIsFinal(db, run[..n], id, start);
      LinksStay(db, run[..n]);
      StepKeepsExpired(After(db, run[..n]), run[n], id);
    }
  }

  /** A payment without a required number of confirmations is never completed. */
  lemma {:induction false} UnspecifiedNeverCompletes(db: Database, run: seq<Request>, id: Id)
    requires id in db.payments && db.payments[id].requiredConfirmations.None?
    ensures Completions(db, run, id) == 0
  {
    if run != [] {
      UnspecifiedNeverCompletes(db, run[..|run| - 1], id);
      LinksStay(db, run[..|run| - 1]);
    }
  }

  /** A confirming payment that a status check meets after its expiry is lost: no later run completes it. */
  lemma LateConfirmationIsLost(db: Database, id: Id, now: Time, seen: Option<Observation>, run: seq<Request>)
    requires id in db.payments && db.payments[id].status == CONFIRMING && Expired(db.payments[id], now)
    requires Clocked(run, now)
    ensures Completions(Step(db, Check(id, now, seen, true)), run, id) == 0
  {
    ExpiredIsFinal(Step(db, Check(id, now, seen, true)), run, id, now);
  }

  /**
   Exactly which confirming payments a status check leaves completable: some later run completes the
   payment if and only if it is not expired at the check and says how many confirmations it needs.
   */
  lemma CompletableIffUnexpired(db: Database, id: Id, now: Time, seen: Option<Observation>)
    requires id in db.payments && db.payments[id].status == CONFIRMING
    ensures (exists run :: Clocked(run, now) && Completions(Step(db, Check(id, now, seen, true)), run, id) > 0)
            <==> !Expired(db.payments[id], now) && db.payments[id].requiredConfirmations.Some?
  {
    var db' := Step(db, Check(id, now, seen, true));
    if Expired(db.payments[id], now) {
      forall run | Clocked(run, now) ensures Completions(db', run, id) == 0 {
        LateConfirmationIsLost(db, id, now, seen, run);
      }
    } else if db.payments[id].requiredConfirmations.None? {
      forall run ensures Completions(db', run, id) == 0 { UnspecifiedNeverCompletes(db', run, id); }
    } else {
      var w := Webhook(id, None, db.payments[id].requiredConfirmations, now, true, true);
      var run := [w];
      assert run[..0] == [] && Completes(After(db', run[..0]), run[0], id);
      assert Completions(db', run[..0], id) == 0;
      assert Clocked(run, now) && Completions(db', run, id) == 1;
    }
  }

  /** Not yet seen on the chain, and never to be: no coin or address to look for, or too late. */
  predicate Stuck(p: Payment, now: Time) {
    p.status in {PENDING, EXPIRED} && (p.coin !in {BTC, ETH} || !p.hasAddress || Expired(p, now))
  }

  lemma StepStuck(db: Database, r: Request, id: Id, start: Time)
    requires id in db.payments && Stuck(db.payments[id], start) && start <= r.now
    ensures id in Step(db, r).payments && Stuck(Step(db, r).payments[id], start) && !Completes(db, r, id)
  {
  }

  lemma {:induction false} StuckNeverCompletes(db: Database, run: seq<Request>, id: Id, start: Time)
    requires id in db.payments && Stuck(db.payments[id], start) && Clocked(run, start)
    ensures id in After(db, run).payments && Stuck(After(db, run).payments[id], start)
    ensures Completions(db, run, id) == 0
  {
    if run != [] {
      StuckNeverCompletes(db, run[..|run| - 1], id, start);
      StepStuck(After(db, run[..|run| - 1]), run[|run| - 1], id, start);
    }
  }

  lemma TwoRequests(db: Database, a: Request, b: Request, id: Id)
    ensures After(db, [a, b]) == Step(Step(db, a), b)
    ensures Completes(Step(db, a), b, id) ==> Completions(db, [a, b], id) > 0
  {
    assert [a, b][..1] == [a] && [a][..0] == [];
    assert After(db, [a]) == Step(db, a);
  }

  /**
   Exactly which pending payments can be completed from a given time on: those in a coin that is looked
   for, with an address and a required number of confirmations, and not expired.
   */
  lemma PendingCompletableIff(db: Database, id: Id, start: Time)
    requires id in db.payments && db.payments[id].status == PENDING
    ensures (exists run :: Clocked(run, start) && Completions(db, run, id) > 0)
            <==> var p := db.payments[id];
                 p.coin in {BTC, ETH} && p.hasAddress && p.requiredConfirmations.Some? && !Expired(p, start)
  {
    var p := db.payments[id];
    if Stuck(p, start) {
      forall run | Clocked(run, start) ensures Completions(db, run, id) == 0 {
        StuckNeverCompletes(db, run, id, start);
      }
    } else if p.requiredConfirmations.None? {
      forall run ensures Completions(db, run, id) == 0 { UnspecifiedNeverCompletes(db, run, id); }
    } else {
      var seen := Observation(p.amount, 0);
      var check := Check(id, start, Some(seen), true);
      var webhook := Webhook(id, None, p.requiredConfirmations, start, true, true);
      ConfirmThenComplete(db, id, seen, check, webhook);
      TwoRequests(db, check, webhook, id);
      assert Clocked([check, webhook], start);
    }
  }

  lemma ConfirmThenComplete(db: Database, id: Id, seen: Observation, check: Request, webhook: Request)
    requires id in db.payments && db.payments[id].status == PENDING && db.payments[id].coin in {BTC, ETH}
    requires check == Check(id, check.now, Some(seen), true) && !Expired(db.payments[id], check.now)
    requires db.payments[id].hasAddress && seen.received >= db.payments[id].amount
    requires webhook.Webhook? && webhook.payment == id && webhook.processes
    requires webhook.confirmations.Some? && EnoughConfirmations(db.payments[id], webhook.confirmations.value)
    ensures Completes(Step(db, check), webhook, id)
  {
  }

  lemma CreatedFields(s: Id, coin: string, converted: Option<real>, hasAddress: bool, required: int, timeout: Time,
                      created: Time, p: Payment)
    requires CreatePayment(s, coin, converted, hasAddress, required, timeout, created) == Some(p)
    ensures p.status == PENDING && p.hasAddress && p.requiredConfirmations == Some(required)
    ensures p.subscription == Some(s) && p.currency == coin && Some(p.amount) == converted && p.confirmations == 0
    ensures p.transactionHash.None? && p.confirmedAt.None? && p.paymentDate.None?
    ensures (p.coin == BTC <==> coin == "BTC") && (p.coin == ETH <==> coin == "ETH")
    ensures forall now :: Expired(p, now) <==> now > created + timeout
  {
  }

  /** A payment just created can be completed from a later time on if and only if it is in BTC or ETH and in time. */
  lemma CreatedCompletableIff(db: Database, id: Id, s: Id, coin: string, converted: Option<real>, hasAddress: bool,
                              required: int, timeout: Time, created: Time, start: Time)
    requires id in db.payments
    requires CreatePayment(s, coin, converted, hasAddress, required, timeout, created) == Some(db.payments[id])
    ensures (exists run :: Clocked(run, start) && Completions(db, run, id) > 0)
            <==> coin in ["BTC", "ETH"] && start <= created + timeout
  {
    CreatedFields(s, coin, converted, hasAddress, required, timeout, created, db.payments[id]);
    PendingCompletableIff(db, id, start);
  }

  /** A cancellation does not stop a payment already confirming: its webhook makes the subscription active again. */
  lemma CancellationCanBeUndone(db: Database, s: Id, cancel: Request, webhook: Request)
    requires s in db.subscriptions && cancel.Cancel? && cancel.subscription == s && cancel.commits
    requires Activates(db, webhook, s)
    ensures s in Step(db, cancel).subscriptions && s in Step(Step(db, cancel), webhook).subscriptions
    ensures Step(db, cancel).subscriptions[s].status == Cancelled
    ensures var after := Step(Step(db, cancel), webhook).subscriptions[s]; after.status == Active && !after.autoRenew
  {
    OnlyActivationsActivate(Step(db, cancel), webhook, s);
  }

  /**
   Exactly how long a cancellation lasts: over any run without another cancellation of the
   subscription, it stays cancelled if and only if no payment of it is completed.
   */
  lemma {:induction false} CancelledUntilActivated(db: Database, s: Id, cancel: Request, run: seq<Request>)
    requires s in db.subscriptions && cancel.Cancel? && cancel.subscription == s && cancel.commits
    requires forall i :: 0 <= i < |run| && run[i].Cancel? ==> run[i].subscription != s
    ensures s in After(Step(db, cancel), run).subscriptions
    ensures var after := After(Step(db, cancel), run).subscriptions[s];
            && after.status == (if Activations(Step(db, cancel), run, s) == 0 then Cancelled else Active)
            && after.cancelledAt == Some(cancel.now) && !after.autoRenew
  {
    if run != [] {
      var n := |run| - 1;
      CancelledUntilActivated(db, s, cancel, run[..n]);
      OnlyActivationsActivate(After(Step(db, cancel), run[..n]), run[n], s);
    }
  }

  // ---------------------------------------------------------------- what a webhook and a check leave in the row

  /** The webhook names a known payment, a count, and goes through with it. */
  predicate GoesThrough(db: Database, r: Request, id: Id) {
    && r.Webhook? && r.payment == id && id in db.payments
    && r.confirmations.Some? && db.payments[id].requiredConfirmations.Some?
    && if db.payments[id].status == CONFIRMING && r.confirmations.value >= db.payments[id].requiredConfirmations.value
       then r.processes else r.commits
  }

  /** A webhook that goes through leaves its hash and its count, early or not; any other leaves the row alone. */
  lemma WebhookLeaves(db: Database, r: Request, id: Id)
    requires r.Webhook? && id in db.payments
    ensures id in Step(db, r).payments
    ensures var p, q := db.payments[id], Step(db, r).payments[id];
            if GoesThrough(db, r, id) then
              && q.transactionHash == r.hash && q.confirmations == r.confirmations.value
              && q.amount == p.amount
              && (Completes(db, r, id) ==>
                    q.status == COMPLETED && q.confirmedAt == Some(r.now) && q.paymentDate == Some(r.now))
              && (!Completes(db, r, id) ==>
                    q.status == p.status && q.confirmedAt == p.confirmedAt && q.paymentDate == p.paymentDate)
            else q == p
  {
  }

  /** The last webhook of the payment that went through. */
  function LastThrough(db: Database, run: seq<Request>, id: Id): Option<Request> {
    if run == [] then None else
      var n := |run| - 1;
      if GoesThrough(After(db, run[..n]), run[n], id) then Some(run[n]) else LastThrough(db, run[..n], id)
  }

  lemma HashMovesByWebhook(db: Database, r: Request, id: Id)
    requires id in db.payments && !GoesThrough(db, r, id)
    ensures id in Step(db, r).payments && Step(db, r).payments[id].transactionHash == db.payments[id].transactionHash
  {
    if r.Webhook? { WebhookLeaves(db, r, id); }
  }

  /** Over every run the hash is that of the last webhook that went through. */
  lemma {:induction false} HashIsOfLastWebhook(db: Database, run: seq<Request>, id: Id)
    requires id in db.payments
    ensures id in After(db, run).payments
    ensures var last, hash := LastThrough(db, run, id), After(db, run).payments[id].transactionHash;
            if last.Some? then last.value.Webhook? && hash == last.value.hash
            else hash == db.payments[id].transactionHash
  {
    if run != [] {
      var n := |run| - 1;
      HashIsOfLastWebhook(db, run[..n], id);
      if GoesThrough(After(db, run[..n]), run[n], id) {
        WebhookLeaves(After(db, run[..n]), run[n], id);
      } else {
        HashMovesByWebhook(After(db, run[..n]), run[n], id);
      }
    }
  }

  /** The coins have been seen at the payment's address. */
  predicate Funded(p: Payment, seen: Option<Observation>) {
    p.hasAddress && seen.Some? && seen.value.received >= p.amount
  }

  /** What a status check leaves in the row of a payment, case by case. */
  lemma CheckLeaves(db: Database, r: Request, id: Id)
    requires r.Check? && r.payment == id && id in db.payments
    ensures id in Step(db, r).payments
    ensures var p, q := db.payments[id], Step(db, r).payments[id];
            && q == p.(status := q.status, confirmations := q.confirmations)
            && (!r.commits || p.status in {COMPLETED, FAILED, CANCELLED} ==> q == p)
            && (r.commits && p.status !in {COMPLETED, FAILED, CANCELLED} ==>
                  if p.expiresAt.Some? && r.now > p.expiresAt.value then
                    q.status == EXPIRED && q.confirmations == p.confirmations
                  else if Funded(p, r.seen) && p.coin == BTC && p.requiredConfirmations.Some? then
                    q.status == CONFIRMING && q.confirmations == r.seen.value.confirmations
                  else if Funded(p, r.seen) && p.coin == ETH then
                    q.status == CONFIRMING && q.confirmations == 12
                  else q == p)
  {
  }

  /** No run leaves the status. */
  ghost predicate Final(status: PaymentStatus) {
    forall db: Database, run: seq<Request>, id ::
      id in db.payments && db.payments[id].status == status ==>
        id in After(db, run).payments && After(db, run).payments[id].status == status
  }

  lemma {:induction false} ClosedStays(db: Database, run: seq<Request>, id: Id)
    requires id in db.payments && db.payments[id].status in {COMPLETED, FAILED, CANCELLED}
    ensures id in After(db, run).payments && After(db, run).payments[id].status == db.payments[id].status
  {
    if run != [] {
      ClosedStays(db, run[..|run| - 1], id);
    }
  }

  lemma OneRequest(db: Database, r: Request)
    ensures After(db, [r]) == Step(db, r)
  {
    assert [r][..0] == [];
  }

  /** A status check moves a payment from any other status: to EXPIRED when it is late, to CONFIRMING when funded. */
  lemma CheckMoves(status: PaymentStatus)
    requires status !in {COMPLETED, FAILED, CANCELLED}
    ensures !Final(status)
  {
    var late := status != EXPIRED;
    var p := Payment(status, None, ETH, "ETH", 0.0, true, None, 0, None, Some(if late then 0.0 else 2.0), None, None);
    var db := Database(map[0 := p], map[]);
    var check := Check(0, 1.0, Some(Observation(0.0, 0)), true);
    CheckLeaves(db, check, 0);
    OneRequest(db, check);
    assert 0 in db.payments && db.payments[0].status == status && After(db, [check]).payments[0].status != status;
  }

  /** The final statuses are exactly COMPLETED, FAILED and CANCELLED; a refunded payment can be reopened. */
  lemma FinalStatuses(status: PaymentStatus)
    ensures Final(status) <==> status in {COMPLETED, FAILED, CANCELLED}
  {
    if status in {COMPLETED, FAILED, CANCELLED} {
      forall db: Database, run: seq<Request>, id | id in db.payments && db.payments[id].status == status
        ensures id in After(db, run).payments && After(db, run).payments[id].status == status
      {
        ClosedStays(db, run, id);
      }
    } else {
      CheckMoves(status);
    }
  }

  /** A payment completed during a run carries the time of the request that completed it, in both dates. */
  lemma {:induction false} CompletionDates(db: Database, run: seq<Request>, id: Id) returns (n: nat)
    requires id in db.payments && db.payments[id].status != COMPLETED
    requires id in After(db, run).payments && After(db, run).payments[id].status == COMPLETED
    ensures n < |run| && Completes(After(db, run[..n]), run[n], id)
    ensures var q := After(db, run).payments[id]; q.confirmedAt == q.paymentDate == Some(run[n].now)
  {
    assert run != [];
    var last := |run| - 1;
    var mid := After(db, run[..last]);
    LinksStay(db, run[..last]);
    if mid.payments[id].status == COMPLETED {
      n := CompletionDates(db, run[..last], id);
      assert run[..last][..n] == run[..n];
      OneRequest(mid, run[last]);
      CompletedIsFinal(mid, [run[last]], id);
    } else {
      n := last;
      CompletionIffWebhook(mid, run[last], id);
      WebhookLeaves(mid, run[last], id);
    }
  }
}
