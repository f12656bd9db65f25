/**
 * The dispatcher's payment topics and the listeners `registerPaymentEvents`
 * installs. A dispatch is an entry appended to an output log; reacting to the
 * log applies the listener of each entry's topic, in order.
 */
module PaymentEvents {
  import opened Wrappers
  import opened Store
  import Subscribers

  /** The payment topics. */
  datatype Topic =
    | PaymentSucceeded
    | PaymentFailed
    | SubscriptionCreated
    | SubscriptionCancelled
    | SubscriptionExpired
    | PurchaseCompleted
    | PurchaseRefunded
    | RefundIssued

  /** The topic's wire name. */
  function TopicName(t: Topic): string {
    match t
    case PaymentSucceeded => "payment.succeeded"
    case PaymentFailed => "payment.failed"
    case SubscriptionCreated => "subscription.created"
    case SubscriptionCancelled => "subscription.cancelled"
    case SubscriptionExpired => "subscription.expired"
    case PurchaseCompleted => "purchase.completed"
    case PurchaseRefunded => "purchase.refunded"
    case RefundIssued => "refund.issued"
  }

  /** The topic a wire name denotes, if any. */
  function TopicOf(name: string): (r: Option<Topic>)
    ensures r.Some? ==> TopicName(r.value) == name
  {
    if name == "payment.succeeded" then Some(PaymentSucceeded)
    else if name == "payment.failed" then Some(PaymentFailed)
    else if name == "subscription.created" then Some(SubscriptionCreated)
    else if name == "subscription.cancelled" then Some(SubscriptionCancelled)
    else if name == "subscription.expired" then Some(SubscriptionExpired)
    else if name == "purchase.completed" then Some(PurchaseCompleted)
    else if name == "purchase.refunded" then Some(PurchaseRefunded)
    else if name == "refund.issued" then Some(RefundIssued)
    else None
  }

  /** Every topic has its own name: reading a topic's name back gives the topic. */
  lemma TopicNamesDistinct(t: Topic)
    ensures TopicOf(TopicName(t)) == Some(t)
  {
  }

  /** One dispatch: a topic and the payload fields the listeners read. */
  datatype Event = Event(topic: Topic, transactionId: string, userId: string, metadata: Metadata)

  /** A dispatch carrying only a transaction id. */
  function TxEvent(topic: Topic, transactionId: string): Event {
    Event(topic, transactionId, "", NoMetadata)
  }

  /** The registered listener of one event; topics without store writes change nothing. */
  function React(db: Db, e: Event, now: int): (r: Db)
    ensures r.events == db.events && r.txs.Keys == db.txs.Keys && r.users.Keys == db.users.Keys
    ensures e.topic == PaymentSucceeded ==>
      r == Subscribers.OnPaymentSucceeded(db, e.transactionId, e.userId, e.metadata, now)
    // failed and refunded overwrite the status whatever it was, and only that
    ensures e.topic == PaymentFailed ==> r == db.(txs := Subscribers.OnPaymentFailed(db.txs, e.transactionId))
    ensures e.topic == RefundIssued ==> r == db.(txs := Subscribers.OnRefundIssued(db.txs, e.transactionId))
    ensures e.topic !in {PaymentSucceeded, PaymentFailed, RefundIssued} ==> r == db
  {
    match e.topic
    case PaymentSucceeded => Subscribers.OnPaymentSucceeded(db, e.transactionId, e.userId, e.metadata, now)
    case PaymentFailed => db.(txs := Subscribers.OnPaymentFailed(db.txs, e.transactionId))
    case RefundIssued => db.(txs := Subscribers.OnRefundIssued(db.txs, e.transactionId))
    case _ => db
  }

  /** React to a log of dispatches in order. */
  function ReactAll(db: Db, log: seq<Event>, now: int): (r: Db)
    ensures r.events == db.events && r.txs.Keys == db.txs.Keys && r.users.Keys == db.users.Keys
    decreases log
  {
    if log == [] then db else ReactAll(React(db, log[0], now), log[1..], now)
  }

  /** Reacting to two logs one after the other is reacting to their concatenation. */
  lemma {:induction false} ReactAllAppend(db: Db, a: seq<Event>, b: seq<Event>, now: int)
    ensures ReactAll(db, a + b, now) == ReactAll(ReactAll(db, a, now), b, now)
    decreases a
  {
    if a != [] {
      assert (a + b)[0] == a[0];
      assert (a + b)[1..] == a[1..] + b;
      ReactAllAppend(React(db, a[0], now), a[1..], b, now);
    } else {
      assert a + b == b;
    }
  }

  /** Only PAYMENT_SUCCEEDED reaches users or subscriptions. */
  predicate StatusOnly(e: Event) {
    e.topic != PaymentSucceeded
  }

  /** A log without PAYMENT_SUCCEEDED leaves users and subscriptions as they were. */
  lemma {:induction false} StatusOnlyLogKeepsEntitlements(db: Db, log: seq<Event>, now: int)
    requires forall k :: 0 <= k < |log| ==> StatusOnly(log[k])
    ensures ReactAll(db, log, now).users == db.users && ReactAll(db, log, now).subs == db.subs
    decreases log
  {
    if log != [] {
      assert StatusOnly(log[0]);
      StatusOnlyLogKeepsEntitlements(React(db, log[0], now), log[1..], now);
    }
  }

  /** The last of a failure and a refund for one transaction decides its status. */
  lemma LastOverwriteWins(db: Db, transactionId: string, now: int)
    requires transactionId in db.txs
    ensures ReactAll(db, [TxEvent(PaymentFailed, transactionId), TxEvent(RefundIssued, transactionId)], now)
              .txs[transactionId].status == Refunded
    ensures ReactAll(db, [TxEvent(RefundIssued, transactionId), TxEvent(PaymentFailed, transactionId)], now)
              .txs[transactionId].status == Failed
  {
    var f := TxEvent(PaymentFailed, transactionId);
    var g := TxEvent(RefundIssued, transactionId);
    assert [f, g][1..] == [g] && [g, f][1..] == [f];
    Single(React(db, f, now), g, now);
    Single(React(db, g, now), f, now);
  }

  /** Reacting to a one-entry log is reacting to the entry. */
  lemma Single(db: Db, e: Event, now: int)
    ensures ReactAll(db, [e], now) == React(db, e, now)
  {
    assert [e][1..] == [];
  }
}
