/**
 The life of crypto payments and the subscriptions they pay for, driven by status checks, payment
 webhooks and cancellations.  A request loads rows into a session, works on those, and commits the
 columns it changed onto whatever rows are committed by then, or rolls back.
 */
module Payments {
  import opened Values

  datatype PaymentStatus = PENDING | COMPLETED | FAILED | REFUNDED | CANCELLED | CONFIRMING | EXPIRED
  datatype SubscriptionStatus = Active | Inactive | Cancelled | Lapsed | Pending | Trial
  datatype Coin = BTC | ETH | USDC | OtherCoin

  type Id = nat

  datatype Payment = Payment(
    status: PaymentStatus,
    subscription: Option<Id>,
    coin: Coin,
    currency: string,
    amount: real,
    hasAddress: bool,
    transactionHash: Option<string>,
    confirmations: int,
    requiredConfirmations: Option<int>,
    expiresAt: Option<Time>,
    confirmedAt: Option<Time>,
    paymentDate: Option<Time>)

  datatype Subscription = Subscription(
    status: SubscriptionStatus,
    hasPlan: bool,
    startedAt: Time,
    expiresAt: Option<Time>,
    cancelledAt: Option<Time>,
    autoRenew: bool)

  const DAY := 86400.0

  // The committed rows.
  datatype Database = Database(payments: map<Id, Payment>, subscriptions: map<Id, Subscription>)

  // What the chain says about a payment address; None if the query fails.
  datatype Observation = Observation(received: real, confirmations: int)

  // A request, with what its surroundings do: the clock, the chain, and whether the database accepts.
  datatype Request =
    | Check(payment: Id, now: Time, seen: Option<Observation>, commits: bool)
    | Webhook(payment: Id, hash: Option<string>, confirmations: Option<int>, now: Time, processes: bool, commits: bool)
    | Cancel(subscription: Id, now: Time, commits: bool)

  // ---------------------------------------------------------------- creation

  function CoinNamed(name: string): Coin {
    if name == "BTC" then BTC else if name == "ETH" then ETH else if name == "USDC" then USDC else OtherCoin
  }

  /**
   A new payment.  `converted` is the price in the coin, if a rate was found; the billing cycle chosen
   shows in that price only, and `currency` receives the name of the coin.
   */
  function CreatePayment(subscription: Id, coin: string, converted: Option<real>, hasAddress: bool,
                         required: int, timeout: Time, now: Time): (created: Option<Payment>)
    ensures created.Some? <==> coin in ["BTC", "ETH", "USDC"] && converted.Some? && converted.value != 0.0 && hasAddress
  {
    if coin !in ["BTC", "ETH", "USDC"] then None
    else if converted.None? || converted.value == 0.0 then None
    else if !hasAddress then None
    else Some(Payment(PENDING, Some(subscription), CoinNamed(coin), coin, converted.value, true, None, 0,
                      Some(required), Some(now + timeout), None, None))
  }

  // ---------------------------------------------------------------- what a request makes of the rows it loaded

  predicate Expired(p: Payment, now: Time) {
    p.expiresAt.Some? && now > p.expiresAt.value
  }

  /** The payment after a status check that is committed, or None if the check changes nothing. */
  function Checked(p: Payment, now: Time, seen: Option<Observation>): Option<Payment> {
    if p.status in {COMPLETED, FAILED, CANCELLED} then None
    else if Expired(p, now) then Some(p.(status := EXPIRED))
    else if !p.hasAddress || seen.None? || seen.value.received < p.amount then None
    else match p.coin
      case BTC =>
        if p.requiredConfirmations.None? then None
        else Some(p.(confirmations := seen.value.confirmations, status := CONFIRMING))
      case ETH => Some(p.(confirmations := 12, status := CONFIRMING))
      case _ => None
  }

  predicate EnoughConfirmations(p: Payment, confirmations: int) {
    p.requiredConfirmations.Some? && confirmations >= p.requiredConfirmations.value
  }

  function Completed(p: Payment, now: Time): Payment {
    p.(status := COMPLETED, confirmedAt := Some(now), paymentDate := Some(now))
  }

  function Activated(s: Subscription, currency: string, now: Time): Subscription {
    if s.hasPlan
    then
      var days := if currency == "monthly" then 30.0 else 365.0;
      s.(status := Active, expiresAt := Some(now + days * DAY), startedAt := now)
    else s.(status := Active)
  }

  /** The rows after `process_confirmed_payment` has succeeded. */
  function Processed(db: Database, id: Id, p: Payment, now: Time): Database {
    Database(db.payments[id := Completed(p, now)],
             if p.subscription.Some? && p.subscription.value in db.subscriptions then
               var s := p.subscription.value;
               db.subscriptions[s := Activated(db.subscriptions[s], p.currency, now)]
             else db.subscriptions)
  }

  function Notified(p: Payment, hash: Option<string>, confirmations: int): Payment {
    p.(transactionHash := hash, confirmations := confirmations)
  }

  /** What a webhook commits of the rows `mine`, with hash and confirmations noted, if anything. */
  function Settled(loaded: Database, mine: Database, id: Id, enough: bool,
                   now: Time, processes: bool, commits: bool): Database
    requires id in mine.payments
  {
    if !enough || mine.payments[id].status != CONFIRMING then (if commits then mine else loaded)
    else if processes then Processed(mine, id, mine.payments[id], now)
    else loaded
  }

  /** The request completes the payment. */
  predicate Completes(db: Database, r: Request, id: Id) {
    && r.Webhook? && r.payment == id && id in db.payments && r.processes
    && r.confirmations.Some? && EnoughConfirmations(db.payments[id], r.confirmations.value)
    && db.payments[id].status == CONFIRMING
  }

  function Step(db: Database, r: Request): Database {
    match r
    case Check(id, now, seen, commits) =>
      if id !in db.payments || !commits then db else
        (match Checked(db.payments[id], now, seen)
         case None => db
         case Some(p) => db.(payments := db.payments[id := p]))
    case Webhook(id, hash, confirmations, now, processes, commits) =>
      if id !in db.payments || confirmations.None? || db.payments[id].requiredConfirmations.None? then db else
        var p := Notified(db.payments[id], hash, confirmations.value);
        var enough := p.requiredConfirmations.value <= p.confirmations;
        Settled(db, db.(payments := db.payments[id := p]), id, enough, now, processes, commits)
    case Cancel(id, now, commits) =>
      if id !in db.subscriptions || !commits then db else
        var s := db.subscriptions[id].(status := Cancelled, cancelledAt := Some(now), autoRenew := false);
        db.(subscriptions := db.subscriptions[id := s])
  }

  // ---------------------------------------------------------------- committing changed columns

  /** A column is written if its value differs from the one loaded; otherwise it stays as committed. */
  function Written<T(==)>(loaded: T, mine: T, current: T): T {
    if mine == loaded then current else mine
  }

  function MergedPayment(loaded: Payment, mine: Payment, current: Payment): Payment {
    Payment(
      Written(loaded.status, mine.status, current.status),
      Written(loaded.subscription, mine.subscription, current.subscription),
      Written(loaded.coin, mine.coin, current.coin),
      Written(loaded.currency, mine.currency, current.currency),
      Written(loaded.amount, mine.amount, current.amount),
      Written(loaded.hasAddress, mine.hasAddress, current.hasAddress),
      Written(loaded.transactionHash, mine.transactionHash, current.transactionHash),
      Written(loaded.confirmations, mine.confirmations, current.confirmations),
      Written(loaded.requiredConfirmations, mine.requiredConfirmations, current.requiredConfirmations),
      Written(loaded.expiresAt, mine.expiresAt, current.expiresAt),
      Written(loaded.confirmedAt, mine.confirmedAt, current.confirmedAt),
      Written(loaded.paymentDate, mine.paymentDate, current.paymentDate))
  }

  function MergedSubscription(loaded: Subscription, mine: Subscription, current: Subscription): Subscription {
    Subscription(
      Written(loaded.status, mine.status, current.status),
      Written(loaded.hasPlan, mine.hasPlan, current.hasPlan),
      Written(loaded.startedAt, mine.startedAt, current.startedAt),
      Written(loaded.expiresAt, mine.expiresAt, current.expiresAt),
      Written(loaded.cancelledAt, mine.cancelledAt, current.cancelledAt),
      Written(loaded.autoRenew, mine.autoRenew, current.autoRenew))
  }

  /** The committed rows after a session that loaded these rows and made `mine` of them commits. */
  function Merged(loaded: Database, mine: Database, current: Database): Database {
    Database(
      map id | id in current.payments ::
        if id in loaded.payments && id in mine.payments
        then MergedPayment(loaded.payments[id], mine.payments[id], current.payments[id]) else current.payments[id],
      map id | id in current.subscriptions ::
        if id in loaded.subscriptions && id in mine.subscriptions
        then MergedSubscription(loaded.subscriptions[id], mine.subscriptions[id], current.subscriptions[id])
        else current.subscriptions[id])
  }

  lemma NothingChanged(loaded: Database, current: Database)
    ensures Merged(loaded, loaded, current) == current
  {
    assert Merged(loaded, loaded, current).payments == current.payments;
    assert Merged(loaded, loaded, current).subscriptions == current.subscriptions;
  }

  // ---------------------------------------------------------------- the handlers

  /** The database with its committed rows, which every session can change. */
  class Server {
    var rows: Database

    constructor (db: Database)
      ensures rows == db
    {
      rows := db;
    }
  }

  /** One request's session: the rows as it loaded them, and the rows as it sees and changes them. */
  class Session {
    const server: Server
    var loaded: Database
    var payments: map<Id, Payment>
    var subscriptions: map<Id, Subscription>

    /** The request has changed nothing yet; others may have committed since it loaded its rows. */
    predicate Clean()
      reads this
    {
      payments == loaded.payments && subscriptions == loaded.subscriptions
    }

    function Mine(): Database
      reads this
    {
      Database(payments, subscriptions)
    }

    constructor (server: Server)
      ensures this.server == server && loaded == server.rows && Clean()
    {
      this.server := server;
      loaded := server.rows;
      payments := server.rows.payments;
      subscriptions := server.rows.subscriptions;
    }

    /** A commit or a rollback forgets the loaded values; the next access loads them anew. */
    method Refresh()
      modifies this
      ensures loaded == server.rows && Clean()
    {
      loaded := server.rows;
      payments := loaded.payments;
      subscriptions := loaded.subscriptions;
    }

    /** Fails without effect when the database does not accept. */
    method Commit(accepted: bool) returns (ok: bool)
      modifies this, server
      ensures ok == accepted
      ensures accepted ==> server.rows == Merged(old(loaded), old(Mine()), old(server.rows))
      ensures accepted ==> loaded == server.rows && Clean()
      ensures !accepted ==> server.rows == old(server.rows) && unchanged(this)
    {
      if accepted {
        server.rows := Merged(loaded, Mine(), server.rows);
        Refresh();
      }
      return accepted;
    }

    method Rollback()
      modifies this
      ensures loaded == server.rows && Clean()
    {
      Refresh();
    }

    /** Comparing with a missing number of required confirmations raises before anything is committed. */
    method CheckBtcPayment(id: Id, seen: Option<Observation>, commits: bool) returns (updated: bool)
      requires Clean() && id in payments
      modifies this, server
      ensures var p := old(payments)[id];
              var funded := p.hasAddress && seen.Some? && seen.value.received >= p.amount;
              && updated == (funded && p.requiredConfirmations.Some? && commits)
              && server.rows == Merged(old(loaded),
                   if updated
                   then old(loaded).(payments := old(payments)[id :=
                          p.(confirmations := seen.value.confirmations, status := CONFIRMING)])
                   else old(loaded), old(server.rows))
    {
      NothingChanged(loaded, server.rows);
      if !payments[id].hasAddress || seen.None? { return false; }
      if seen.value.received >= payments[id].amount {
        payments := payments[id := payments[id].(confirmations := seen.value.confirmations)];
        if payments[id].requiredConfirmations.None? { return false; }
        if seen.value.confirmations >= payments[id].requiredConfirmations.value {
          payments := payments[id := payments[id].(status := CONFIRMING)];
        } else {
          payments := payments[id := payments[id].(status := CONFIRMING)];
        }
        updated := Commit(commits);
        return;
      }
      return false;
    }

    method CheckEthPayment(id: Id, seen: Option<Observation>, commits: bool) returns (updated: bool)
      requires Clean() && id in payments
      modifies this, server
      ensures var p := old(payments)[id];
              var funded := p.coin.ETH? && p.hasAddress && seen.Some? && seen.value.received >= p.amount;
              && updated == (funded && commits)
              && server.rows == Merged(old(loaded),
                   if updated
                   then old(loaded).(payments := old(payments)[id := p.(confirmations := 12, status := CONFIRMING)])
                   else old(loaded), old(server.rows))
    {
      NothingChanged(loaded, server.rows);
      if !payments[id].hasAddress || seen.None? { return false; }
      if payments[id].coin.ETH? && seen.value.received >= payments[id].amount {
        payments := payments[id := payments[id].(confirmations := 12)];
        payments := payments[id := payments[id].(status := CONFIRMING)];
        updated := Commit(commits);
        return;
      }
      return false;
    }

    /** The decision is taken on the loaded row, and only what it changed there is written. */
    method CheckPaymentStatus(id: Id, now: Time, seen: Option<Observation>, commits: bool) returns (updated: bool)
      requires Clean() && id in payments
      modifies this, server
      ensures server.rows == Merged(old(loaded), Step(old(loaded), Check(id, now, seen, commits)), old(server.rows))
      ensures updated <==> Checked(old(payments)[id], now, seen).Some? && commits
    {
      NothingChanged(loaded, server.rows);
      if payments[id].status in {COMPLETED, FAILED, CANCELLED} { return false; }
      if Expired(payments[id], now) {
        payments := payments[id := payments[id].(status := EXPIRED)];
        updated := Commit(commits);
      } else if payments[id].coin.BTC? {
        updated := CheckBtcPayment(id, seen, commits);
      } else if payments[id].coin.ETH? || payments[id].coin.USDC? {
        updated := CheckEthPayment(id, seen, commits);
      } else {
        updated := false;
      }
    }

    /** The part of the processing that concerns the subscription. */
    method Activate(s: Id, currency: string, now: Time)
      modifies this`subscriptions
      ensures subscriptions == if s in old(subscriptions)
                then old(subscriptions)[s := Activated(old(subscriptions)[s], currency, now)] else old(subscriptions)
    {
      if s !in subscriptions { return; }
      subscriptions := subscriptions[s := subscriptions[s].(status := Active)];
      if subscriptions[s].hasPlan {
        var days := if currency == "monthly" then 30.0 else 365.0;
        subscriptions := subscriptions[s := subscriptions[s].(expiresAt := Some(now + days * DAY))];
        subscriptions := subscriptions[s := subscriptions[s].(startedAt := now)];
      }
    }

    /** The rows of the session as the processing changes them. */
    method Complete(id: Id, now: Time)
      requires id in payments
      modifies this`payments, this`subscriptions
      ensures Mine() == Processed(old(Mine()), id, old(payments)[id], now)
    {
      ghost var p := payments[id];
      payments := payments[id := payments[id].(status := COMPLETED)];
      payments := payments[id := payments[id].(confirmedAt := Some(now))];
      payments := payments[id := payments[id].(paymentDate := Some(now))];
      assert payments == old(payments)[id := Completed(p, now)];
      if payments[id].subscription.Some? {
        Activate(payments[id].subscription.value, payments[id].currency, now);
      }
    }

    /** Everything or nothing: a failure anywhere rolls the whole session back. */
    method ProcessConfirmedPayment(id: Id, now: Time, processes: bool) returns (done: bool)
      requires id in payments && subscriptions == loaded.subscriptions
      modifies this, server
      ensures done == (old(payments)[id].status == CONFIRMING && processes)
      ensures done ==>
                server.rows == Merged(old(loaded), Processed(old(Mine()), id, old(payments)[id], now), old(server.rows))
      ensures !done ==> server.rows == old(server.rows)
      ensures if old(payments)[id].status == CONFIRMING then Clean() && loaded == server.rows
              else Mine() == old(Mine()) && loaded == old(loaded)
    {
      if payments[id].status != CONFIRMING { return false; }
      Complete(id, now);
      done := Commit(processes);
      if !done { Rollback(); }
    }

    method Record(id: Id, hash: Option<string>, confirmations: int)
      requires id in payments
      modifies this`payments
      ensures payments == old(payments)[id := Notified(old(payments)[id], hash, confirmations)]
    {
      payments := payments[id := payments[id].(transactionHash := hash)];
      payments := payments[id := payments[id].(confirmations := confirmations)];
    }

    /** Processes a payment with enough confirmations, and commits what that has not committed or undone. */
    method Settle(id: Id, enough: bool, now: Time, processes: bool, commits: bool)
      requires id in payments && subscriptions == loaded.subscriptions
      modifies this, server
      ensures server.rows ==
              Merged(old(loaded), Settled(old(loaded), old(Mine()), id, enough, now, processes, commits),
                     old(server.rows))
    {
      NothingChanged(loaded, server.rows);
      if enough {
        var done := ProcessConfirmedPayment(id, now, processes);
        if Clean() { NothingChanged(loaded, server.rows); }
      }
      var _ := Commit(commits);
    }

    /** An early or failing webhook changes at most the hash and the confirmation count. */
    method PaymentWebhook(id: Id, hash: Option<string>, confirmations: Option<int>,
                          now: Time, processes: bool, commits: bool)
      requires Clean()
      modifies this, server
      ensures server.rows ==
              Merged(old(loaded), Step(old(loaded), Webhook(id, hash, confirmations, now, processes, commits)),
                     old(server.rows))
    {
      NothingChanged(loaded, server.rows);
      if id !in payments { return; }
      if confirmations.None? || payments[id].requiredConfirmations.None? {
        payments := payments[id := payments[id].(transactionHash := hash)];
        return;
      }
      Record(id, hash, confirmations.value);
      Settle(id, confirmations.value >= payments[id].requiredConfirmations.value, now, processes, commits);
    }

    method CancelSubscription(id: Id, now: Time, commits: bool) returns (success: bool)
      requires Clean()
      modifies this, server
      ensures server.rows == Merged(old(loaded), Step(old(loaded), Cancel(id, now, commits)), old(server.rows))
      ensures success == (id in old(subscriptions) && commits)
    {
      NothingChanged(loaded, server.rows);
      if id !in subscriptions { return false; }
      subscriptions := subscriptions[id := subscriptions[id].(status := Cancelled)];
      subscriptions := subscriptions[id := subscriptions[id].(cancelledAt := Some(now))];
      subscriptions := subscriptions[id := subscriptions[id].(autoRenew := false)];
      success := Commit(commits);
      if !success { Rollback(); }
    }
  }
}
