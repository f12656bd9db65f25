/**
 * The legacy payment service: read a transaction, modify it in memory, save.
 *
 * `markTransactionPaid` picks a lookup field by gateway and marks the first
 * matching transaction paid; `updateUserAfterPurchase` records the purchase
 * on the user and, for an artist subscription, upserts the subscription.
 *
 * A filter value that is undefined is sent as null, which matches the
 * documents that lack the field; with absent ids written "" that is the
 * transactions whose field is "". A Razorpay or PayPal lookup with no id, or
 * an unknown gateway, keeps the literal `{}` and runs `findOne({})`, which
 * returns the first transaction of the collection. The collection's natural
 * order is the `order` parameter.
 */
module LegacyPaymentService {
  import opened Wrappers
  import opened Store
  import Js
  import SubscriptionRepository

  // ---------------------------------------------------------------------
  // markTransactionPaid
  // ---------------------------------------------------------------------

  /** The ids a gateway callback may carry. */
  datatype PaidRequest = PaidRequest(
    gateway: string,
    paymentId: string,
    razorpayOrderId: string,
    paymentIntentId: string,
    stripeSubscriptionId: string,
    subscriptionId: string)

  /** The transaction fields a lookup can use. */
  datatype Field =
    | StripeSubscriptionIdField
    | PaymentIntentIdField
    | RazorpaySubscriptionIdField   // metadata.razorpaySubscriptionId
    | RazorpayOrderIdField
    | PaymentIdField
    | PaypalSubscriptionIdField     // metadata.paypalSubscriptionId
    | PaypalOrderIdField

  function FieldValue(tx: Transaction, f: Field): string {
    match f
    case StripeSubscriptionIdField => tx.stripeSubscriptionId
    case PaymentIntentIdField => tx.paymentIntentId
    case RazorpaySubscriptionIdField => tx.metadata.razorpaySubscriptionId
    case RazorpayOrderIdField => tx.razorpayOrderId
    case PaymentIdField => tx.paymentId
    case PaypalSubscriptionIdField => tx.metadata.paypalSubscriptionId
    case PaypalOrderIdField => tx.paypalOrderId
  }

  /** No lookup at all (no gateway), the empty filter, or one field equal to a value. */
  datatype Query = NoLookup | MatchAll | MatchField(field: Field, value: string)

  /** The request carries an id the gateway's lookup can use. */
  predicate HasLookupId(req: PaidRequest) {
    if req.gateway == "stripe" then req.stripeSubscriptionId != "" || req.paymentIntentId != ""
    else if req.gateway == "razorpay" then req.subscriptionId != "" || req.razorpayOrderId != "" || req.paymentId != ""
    else if req.gateway == "paypal" then req.subscriptionId != "" || req.paymentId != ""
    else false
  }

  /** The per-gateway lookup priority. */
  function SelectQuery(req: PaidRequest): (q: Query)
    ensures q.NoLookup? <==> req.gateway == ""
    // the literal `{}` survives only where no branch assigns a query
    ensures q.MatchAll? <==> req.gateway != "" && req.gateway != "stripe" && !HasLookupId(req)
    // Stripe always assigns one, so without ids it looks for a missing payment intent
    ensures q.MatchField? && q.value == "" <==> req.gateway == "stripe" && !HasLookupId(req)
    ensures HasLookupId(req) ==> q.MatchField? && q.value != ""
    // stripe: stripeSubscriptionId, else paymentIntentId
    ensures req.gateway == "stripe" && req.stripeSubscriptionId != "" ==>
      q == MatchField(StripeSubscriptionIdField, req.stripeSubscriptionId)
    ensures req.gateway == "stripe" && req.stripeSubscriptionId == "" ==>
      q == MatchField(PaymentIntentIdField, req.paymentIntentId)
    // razorpay: subscriptionId, then razorpayOrderId, then paymentId
    ensures req.gateway == "razorpay" && req.subscriptionId != "" ==>
      q == MatchField(RazorpaySubscriptionIdField, req.subscriptionId)
    ensures req.gateway == "razorpay" && req.subscriptionId == "" && req.razorpayOrderId != "" ==>
      q == MatchField(RazorpayOrderIdField, req.razorpayOrderId)
    ensures req.gateway == "razorpay" && req.subscriptionId == "" && req.razorpayOrderId == "" && req.paymentId != "" ==>
      q == MatchField(PaymentIdField, req.paymentId)
    // paypal: subscriptionId, then paymentId matched against paypalOrderId
    ensures req.gateway == "paypal" && req.subscriptionId != "" ==>
      q == MatchField(PaypalSubscriptionIdField, req.subscriptionId)
    ensures req.gateway == "paypal" && req.subscriptionId == "" && req.paymentId != "" ==>
      q == MatchField(PaypalOrderIdField, req.paymentId)
  {
    if req.gateway == "" then NoLookup
    else if req.gateway == "stripe" then
      if req.stripeSubscriptionId != "" then MatchField(StripeSubscriptionIdField, req.stripeSubscriptionId)
      else MatchField(PaymentIntentIdField, req.paymentIntentId)
    else if req.gateway == "razorpay" then
      if req.subscriptionId != "" then MatchField(RazorpaySubscriptionIdField, req.subscriptionId)
      else if req.razorpayOrderId != "" then MatchField(RazorpayOrderIdField, req.razorpayOrderId)
      else if req.paymentId != "" then MatchField(PaymentIdField, req.paymentId)
      else MatchAll
    else if req.gateway == "paypal" then
      if req.subscriptionId != "" then MatchField(PaypalSubscriptionIdField, req.subscriptionId)
      else if req.paymentId != "" then MatchField(PaypalOrderIdField, req.paymentId)
      else MatchAll
    else MatchAll
  }

  /** The filter `{ q }` applied to one stored transaction id. */
  function QueryFilter(txs: map<string, Transaction>, q: Query): string -> bool {
    id => id in txs && match q
      case NoLookup => false
      case MatchAll => true
      case MatchField(f, v) => FieldValue(txs[id], f) == v
  }

  /** `id` is the first transaction, in natural order, that the query matches. */
  ghost predicate FirstMatch(txs: map<string, Transaction>, order: seq<string>, q: Query, id: string) {
    exists i :: 0 <= i < |order| && order[i] == id && QueryFilter(txs, q)(order[i])
      && forall j :: 0 <= j < i ==> !QueryFilter(txs, q)(order[j])
  }

  /** There is at most one first match. */
  lemma {:induction false} FirstMatchUnique(txs: map<string, Transaction>, order: seq<string>, q: Query, a: string, b: string)
    requires FirstMatch(txs, order, q, a) && FirstMatch(txs, order, q, b)
    ensures a == b
  {
    var i :| 0 <= i < |order| && order[i] == a && QueryFilter(txs, q)(order[i])
      && forall j :: 0 <= j < i ==> !QueryFilter(txs, q)(order[j]);
    var k :| 0 <= k < |order| && order[k] == b && QueryFilter(txs, q)(order[k])
      && forall j :: 0 <= j < k ==> !QueryFilter(txs, q)(order[j]);
    assert i == k;
  }

  /** `findOne(query)` over the collection in its natural order. */
  function FindOne(txs: map<string, Transaction>, order: seq<string>, q: Query): (r: Option<string>)
    ensures r.Some? ==> r.value in txs && FirstMatch(txs, order, q, r.value)
    ensures forall id :: FirstMatch(txs, order, q, id) ==> r == Some(id)
    ensures r.Some? && q.MatchField? ==> FieldValue(txs[r.value], q.field) == q.value
    ensures r.None? <==> forall j :: 0 <= j < |order| ==> !QueryFilter(txs, q)(order[j])
  {
    match FirstWhere(order, QueryFilter(txs, q))
    case None => None
    case Some(i) =>
      assert FirstMatch(txs, order, q, order[i]);
      assert forall id :: FirstMatch(txs, order, q, id) ==> id == order[i] by {
        forall id | FirstMatch(txs, order, q, id) ensures id == order[i] {
          FirstMatchUnique(txs, order, q, id, order[i]);
        }
      }
      Some(order[i])
  }

  /** The read-modify-save step: only the status changes, and only when not already paid. */
  function SaveAsPaid(txs: map<string, Transaction>, found: Option<string>): (r: (Option<Transaction>, map<string, Transaction>))
    requires found.Some? ==> found.value in txs
    ensures r.0.None? <==> found.None? || txs[found.value].status == Paid
    ensures r.0.None? ==> r.1 == txs
    ensures r.0.Some? ==> r.0.value == txs[found.value].(status := Paid) && r.1 == txs[found.value := r.0.value]
  {
    match found
    case None => (None, txs)
    case Some(id) =>
      if txs[id].status == Paid then (None, txs)
      else var tx := txs[id].(status := Paid); (Some(tx), txs[id := tx])
  }

  /** `markTransactionPaid` as written: an id-less request runs the empty filter. */
  function MarkTransactionPaidAsWritten(txs: map<string, Transaction>, order: seq<string>, req: PaidRequest)
    : (r: (Option<Transaction>, map<string, Transaction>))
    ensures req.gateway == "" ==> r == (None, txs)
    ensures r.0.None? ==> r.1 == txs
    // only the first match is considered: it is marked when unpaid, and when it
    // is already paid nothing is, whatever later matches exist
    ensures forall id :: id in txs && FirstMatch(txs, order, SelectQuery(req), id) ==>
      if txs[id].status == Paid then r == (None, txs)
      else r == (Some(txs[id].(status := Paid)), txs[id := txs[id].(status := Paid)])
    ensures (forall j :: 0 <= j < |order| ==> !QueryFilter(txs, SelectQuery(req))(order[j])) ==> r == (None, txs)
  {
    var q := SelectQuery(req);
    var found := FindOne(txs, order, q);
    if q.NoLookup? then (None, txs)
    else SaveAsPaid(txs, found)
  }

  /**
   * `markTransactionPaid` as evidently intended: without a lookup id there is
   * nothing to match, so nothing is marked.
   */
  function MarkTransactionPaid(txs: map<string, Transaction>, order: seq<string>, req: PaidRequest)
    : (r: (Option<Transaction>, map<string, Transaction>))
    ensures !HasLookupId(req) ==> r == (None, txs)
    ensures r.0.None? ==> r.1 == txs
    // with an id, only the first transaction carrying it is considered
    ensures HasLookupId(req) ==> forall id :: id in txs && FirstMatch(txs, order, SelectQuery(req), id) ==>
      if txs[id].status == Paid then r == (None, txs)
      else r == (Some(txs[id].(status := Paid)), txs[id := txs[id].(status := Paid)])
    // whatever is marked carries the id the request was looked up by
    ensures r.0.Some? ==>
      var q := SelectQuery(req);
      && q.MatchField? && q.value != ""
      && exists id :: id in txs && FirstMatch(txs, order, q, id) && txs[id].status != Paid
           && FieldValue(txs[id], q.field) == q.value
           && r.0.value == txs[id].(status := Paid) && r.1 == txs[id := r.0.value]
  {
    var q := SelectQuery(req);
    var found := FindOne(txs, order, q);
    if !HasLookupId(req) then (None, txs)
    else SaveAsPaid(txs, found)
  }

  /** Both versions agree whenever the request carries a lookup id. */
  lemma {:induction false} MarkPaidVersionsAgree(txs: map<string, Transaction>, order: seq<string>, req: PaidRequest)
    requires HasLookupId(req)
    ensures MarkTransactionPaid(txs, order, req) == MarkTransactionPaidAsWritten(txs, order, req)
  {
    assert SelectQuery(req).MatchField?;
  }

  /**
   * A second call with the same request marks nothing: the lookup ignores
   * status, so it finds the same, now paid, transaction.
   */
  lemma {:induction false} MarkTransactionPaidTwice(txs: map<string, Transaction>, order: seq<string>, req: PaidRequest)
    ensures var (_, once) := MarkTransactionPaid(txs, order, req);
            MarkTransactionPaid(once, order, req) == (None, once)
  {
    var q := SelectQuery(req);
    var (first, once) := MarkTransactionPaid(txs, order, req);
    if HasLookupId(req) {
      match FirstWhere(order, QueryFilter(txs, q)) {
        case None =>
          assert once == txs;
        case Some(i) =>
          var id := order[i];
          assert once.Keys == txs.Keys;
          forall j | 0 <= j < |order|
            ensures QueryFilter(once, q)(order[j]) == QueryFilter(txs, q)(order[j])
          {
          }
          assert FirstWhere(order, QueryFilter(once, q)) == Some(i) by {
            FirstWhereSameFilter(order, QueryFilter(txs, q), QueryFilter(once, q));
          }
          assert once[id].status == Paid;
      }
    }
  }

  /** Two filters that agree on every element find the same first match. */
  lemma {:induction false} FirstWhereSameFilter<T>(s: seq<T>, p: T -> bool, p': T -> bool)
    requires forall j :: 0 <= j < |s| ==> p(s[j]) == p'(s[j])
    ensures FirstWhere(s, p) == FirstWhere(s, p')
  {
    if s != [] {
      FirstWhereSameFilter(s[1..], p, p');
    }
  }

  /**
   * The empty filter, as written: a Razorpay callback with no id marks the
   * first transaction of the collection paid, though nothing identifies it.
   */
  lemma EmptyQueryMarksUnrelatedTransaction(tx: Transaction)
    requires tx.status == Pending
    ensures var txs := map["t1" := tx];
            var req := PaidRequest("razorpay", "", "", "", "", "");
            && MarkTransactionPaidAsWritten(txs, ["t1"], req).0 == Some(tx.(status := Paid))
            && MarkTransactionPaid(txs, ["t1"], req) == (None, txs)
  {
    var txs := map["t1" := tx];
    var req := PaidRequest("razorpay", "", "", "", "", "");
    assert SelectQuery(req) == MatchAll;
    assert QueryFilter(txs, MatchAll)(["t1"][0]);
  }

  /**
   * Two transactions carry the same payment intent and the first is already
   * paid: the lookup stops there, so the second stays pending.
   */
  lemma PaidFirstMatchShadowsLater(a: Transaction, b: Transaction)
    requires a.paymentIntentId == "pi_1" && b.paymentIntentId == "pi_1"
    requires a.status == Paid && b.status == Pending
    ensures var txs := map["t1" := a, "t2" := b];
            var req := PaidRequest("stripe", "", "", "pi_1", "", "");
            MarkTransactionPaid(txs, ["t1", "t2"], req) == (None, txs)
  {
    var txs := map["t1" := a, "t2" := b];
    var q := SelectQuery(PaidRequest("stripe", "", "", "pi_1", "", ""));
    assert FirstMatch(txs, ["t1", "t2"], q, ["t1", "t2"][0]);
  }

  /**
   * A Stripe callback with neither id, as written, looks for a transaction
   * without a payment intent and marks the first such one paid.
   */
  lemma StripeWithoutIdsMarksIntentlessTransaction(a: Transaction, b: Transaction)
    requires a.paymentIntentId == "pi_1" && b.paymentIntentId == "" && b.status == Pending
    ensures var txs := map["t1" := a, "t2" := b];
            var req := PaidRequest("stripe", "", "", "", "", "");
            && MarkTransactionPaidAsWritten(txs, ["t1", "t2"], req).0 == Some(b.(status := Paid))
            && MarkTransactionPaid(txs, ["t1", "t2"], req) == (None, txs)
  {
    var txs := map["t1" := a, "t2" := b];
    var q := SelectQuery(PaidRequest("stripe", "", "", "", "", ""));
    assert q == MatchField(PaymentIntentIdField, "");
    assert FirstMatch(txs, ["t1", "t2"], q, ["t1", "t2"][1]);
  }

  // ---------------------------------------------------------------------
  // updateUserAfterPurchase
  // ---------------------------------------------------------------------

  /**
   * The properties every object literal inherits from `Object.prototype`.
   * Looking one of them up in the duration table yields a function or an
   * object: truthy, so it survives `|| 30`, and not a number.
   */
  const InheritedKeys: set<string> := {
    "constructor", "__proto__", "toString", "toLocaleString", "valueOf", "hasOwnProperty",
    "isPrototypeOf", "propertyIsEnumerable", "__defineGetter__", "__defineSetter__",
    "__lookupGetter__", "__lookupSetter__"}

  /**
   * `subscriptionDuration[cycle] || 30`, in days; None when an inherited
   * property comes back and the arithmetic that follows yields NaN.
   */
  function CycleDays(cycle: string): (d: Option<int>)
    ensures d.None? <==> cycle in InheritedKeys
    ensures d.Some? ==> d.value in {30, 90, 180}
    ensures d == Some(90) <==> cycle == "3m"
    ensures d == Some(180) <==> cycle == "6m"
  {
    if cycle == "1m" then Some(30)
    else if cycle == "3m" then Some(90)
    else if cycle == "6m" then Some(180)
    else if cycle in InheritedKeys then None
    else Some(30)
  }

  /** The external id chain as written: a missing `||` ends it after the PayPal id. */
  function ExternalIdAsWritten(tx: Transaction): (r: string)
    ensures r != "" <==> tx.metadata.externalSubscriptionId != "" || tx.metadata.razorpaySubscriptionId != ""
                         || tx.metadata.paypalSubscriptionId != ""
  {
    Js.Or(tx.metadata.externalSubscriptionId, Js.Or(tx.metadata.razorpaySubscriptionId, tx.metadata.paypalSubscriptionId))
  }

  /** The chain as evidently intended: on through the Stripe and order ids to "unknown". */
  function ExternalId(tx: Transaction): (r: string)
    ensures r != ""
    ensures ExternalIdAsWritten(tx) != "" ==> r == ExternalIdAsWritten(tx)
    ensures ExternalIdAsWritten(tx) == "" ==>
      r == Js.Or(tx.stripeSubscriptionId, Js.Or(tx.paymentIntentId, Js.Or(tx.razorpayOrderId, "unknown")))
  {
    Js.Or(ExternalIdAsWritten(tx),
          Js.Or(tx.stripeSubscriptionId, Js.Or(tx.paymentIntentId, Js.Or(tx.razorpayOrderId, "unknown"))))
  }

  /** A Stripe subscription without metadata ids: as written it is stored with no external id. */
  lemma ExternalIdChainCutShort(tx: Transaction)
    requires tx.metadata == LegacyMeta("", "", "", "") && tx.stripeSubscriptionId == "sub_1"
    ensures ExternalIdAsWritten(tx) == ""
    ensures ExternalId(tx) == "sub_1"
  {
  }

  /** Some history row already records this (itemType, itemId). */
  predicate InHistory(h: seq<HistoryEntry>, itemType: string, itemId: string) {
    exists k :: 0 <= k < |h| && h[k].itemType == itemType && h[k].itemId == itemId
  }

  /** A row of this item type is missing an id, or the transaction is. */
  predicate IdlessRowOfType(h: seq<HistoryEntry>, itemType: string, itemId: string) {
    exists k :: 0 <= k < |h| && h[k].itemType == itemType && (h[k].itemId == "" || itemId == "")
  }

  /**
   * The history scan `some(p => p.itemType === type && p.itemId.toString() === id.toString())`.
   * It stops at the first row of the same type whose ids it cannot compare:
   * `toString` of an absent id throws, which is None here.
   */
  function AlreadyInHistory(h: seq<HistoryEntry>, itemType: string, itemId: string): (r: Option<bool>)
    ensures r.Some? ==> r.value == InHistory(h, itemType, itemId)
    // it throws only on an id-less row of the type, and surely does when no
    // row matches first or the transaction itself has no id
    ensures r.None? ==> IdlessRowOfType(h, itemType, itemId)
    ensures IdlessRowOfType(h, itemType, itemId) && (itemId == "" || !InHistory(h, itemType, itemId)) ==> r.None?
    decreases |h|
  {
    if h == [] then Some(false)
    else
      var rest := AlreadyInHistory(h[1..], itemType, itemId);
      assert forall k :: 0 < k < |h| ==> h[k] == h[1..][k - 1];
      if h[0].itemType != itemType then rest
      else if h[0].itemId == "" || itemId == "" then None
      else if h[0].itemId == itemId then Some(true)
      else rest
  }

  /**
   * The entitlements and history the legacy path writes to the user record;
   * None when the history scan throws.
   */
  function RecordPurchase(u: User, tx: Transaction, paymentId: string): (r: Option<User>)
    ensures r.None? <==> AlreadyInHistory(u.purchaseHistory, tx.itemType, tx.itemId).None?
    ensures r.Some? ==> UserRecordOnlyPurchase(u, r.value)
    ensures r.Some? && InHistory(u.purchaseHistory, tx.itemType, tx.itemId) ==> r.value.purchaseHistory == u.purchaseHistory
    ensures r.Some? && !InHistory(u.purchaseHistory, tx.itemType, tx.itemId) ==>
      r.value.purchaseHistory == u.purchaseHistory + [LegacyPurchase(tx.itemType, tx.itemId, tx.amount, tx.currency, paymentId)]
    ensures r.Some? ==> InHistory(r.value.purchaseHistory, tx.itemType, tx.itemId)
    ensures r.Some? && tx.itemType == "song" ==>
      r.value.purchasedSongs == AddToSet(u.purchasedSongs, tx.itemId) && r.value.purchasedAlbums == u.purchasedAlbums
    ensures r.Some? && tx.itemType == "album" ==>
      r.value.purchasedAlbums == AddToSet(u.purchasedAlbums, tx.itemId) && r.value.purchasedSongs == u.purchasedSongs
    ensures r.Some? && tx.itemType != "song" && tx.itemType != "album" ==>
      r.value.purchasedSongs == u.purchasedSongs && r.value.purchasedAlbums == u.purchasedAlbums
  {
    match AlreadyInHistory(u.purchaseHistory, tx.itemType, tx.itemId)
    case None => None
    case Some(already) =>
      var entry := LegacyPurchase(tx.itemType, tx.itemId, tx.amount, tx.currency, paymentId);
      var history := if already then u.purchaseHistory else u.purchaseHistory + [entry];
      assert !already ==> history[|u.purchaseHistory|] == entry;
      var songs := if tx.itemType == "song" then AddToSet(u.purchasedSongs, tx.itemId) else u.purchasedSongs;
      var albums := if tx.itemType == "album" then AddToSet(u.purchasedAlbums, tx.itemId) else u.purchasedAlbums;
      Some(u.(purchaseHistory := history, purchasedSongs := songs, purchasedAlbums := albums))
  }

  /** `b` differs from `a` at most in purchasedSongs, purchasedAlbums and purchaseHistory. */
  predicate UserRecordOnlyPurchase(a: User, b: User) {
    b == a.(purchasedSongs := b.purchasedSongs, purchasedAlbums := b.purchasedAlbums, purchaseHistory := b.purchaseHistory)
  }

  /** The Stripe fetch found a period end for the transaction's subscription. */
  predicate HasStripePeriod(tx: Transaction, stripePeriodEnd: int) {
    tx.stripeSubscriptionId != "" && stripePeriodEnd != 0
  }

  /**
   * The subscription end: the Stripe subscription's period end (seconds) when
   * the transaction has a Stripe subscription and the fetch returned one,
   * else now plus the cycle's days, which is an invalid date (None) for an
   * inherited cycle name. The fetch is the `stripePeriodEnd` parameter, 0 when
   * it failed or returned no period end.
   */
  function LegacyValidUntil(tx: Transaction, stripePeriodEnd: int, now: int): (v: Option<int>)
    ensures HasStripePeriod(tx, stripePeriodEnd) ==> v == Some(stripePeriodEnd * 1000)
    // without one, access runs 30 to 180 days from now, and 30 for an unknown cycle
    ensures !HasStripePeriod(tx, stripePeriodEnd) ==> (v.None? <==> tx.metadata.cycle in InheritedKeys)
    ensures !HasStripePeriod(tx, stripePeriodEnd) && v.Some? ==> now + 30 * DayMs <= v.value <= now + 180 * DayMs
    ensures !HasStripePeriod(tx, stripePeriodEnd) && tx.metadata.cycle !in InheritedKeys + {"3m", "6m"} ==>
      v == Some(now + DefaultPeriodMs)
  {
    if HasStripePeriod(tx, stripePeriodEnd) then Some(stripePeriodEnd * 1000)
    else match CycleDays(tx.metadata.cycle)
      case None => None
      case Some(d) => Some(now + d * DayMs)
  }

  /** How `updateUserAfterPurchase` ends. */
  datatype LegacyOutcome =
    | NoUser   // returned early: no user for the transaction
    | Threw    // threw before `user.save()`: the history scan, or an invalid date cast by the upsert
    | Saved    // returned true

  /** The shared body of both versions, given the external id they store. */
  function ApplyPurchase(db: Db, tx: Transaction, paymentId: string, externalId: string, stripePeriodEnd: int, now: int)
    : (r: (LegacyOutcome, Db))
    ensures r.1.events == db.events && r.1.txs == db.txs
    ensures r.0 == NoUser <==> tx.userId == "" || tx.userId !in db.users
    ensures r.0 != Saved ==> r.1 == db
    ensures r.0 == Threw <==>
      && tx.userId != "" && tx.userId in db.users
      && (|| AlreadyInHistory(db.users[tx.userId].purchaseHistory, tx.itemType, tx.itemId).None?
          || (tx.itemType == "artist-subscription" && LegacyValidUntil(tx, stripePeriodEnd, now).None?))
    ensures r.0 == Saved ==>
      && RecordPurchase(db.users[tx.userId], tx, paymentId).Some?
      && r.1.users == db.users[tx.userId := RecordPurchase(db.users[tx.userId], tx, paymentId).value]
    ensures r.0 == Saved && tx.itemType == "artist-subscription" ==>
      && LegacyValidUntil(tx, stripePeriodEnd, now).Some?
      && r.1.subs == SubscriptionRepository.UpsertSubscription(db.subs, tx.userId, tx.artistId,
                       LegacyValidUntil(tx, stripePeriodEnd, now).value, tx.gateway, externalId, tx.id, now).1
    ensures tx.itemType != "artist-subscription" ==> r.1.subs == db.subs
  {
    if tx.userId == "" || tx.userId !in db.users then (NoUser, db)
    else match RecordPurchase(db.users[tx.userId], tx, paymentId)
      case None => (Threw, db)
      case Some(u) =>
        if tx.itemType != "artist-subscription" then (Saved, db.(users := db.users[tx.userId := u]))
        else match LegacyValidUntil(tx, stripePeriodEnd, now)
          case None => (Threw, db)
          case Some(validUntil) =>
            var subs := SubscriptionRepository.UpsertSubscription(db.subs, tx.userId, tx.artistId,
                          validUntil, tx.gateway, externalId, tx.id, now).1;
            (Saved, db.(users := db.users[tx.userId := u], subs := subs))
  }

  /** `updateUserAfterPurchase` as written. */
  function UpdateUserAfterPurchaseAsWritten(db: Db, tx: Transaction, paymentId: string, stripePeriodEnd: int, now: int)
    : (r: (LegacyOutcome, Db))
    ensures tx.itemType == "artist-subscription" && r.0 == Saved ==>
      var found := FirstWhere(r.1.subs, SubscriptionRepository.KeyFilter(tx.userId, tx.artistId));
      found.Some? && r.1.subs[found.value].externalSubscriptionId == ExternalIdAsWritten(tx)
  {
    ApplyPurchase(db, tx, paymentId, ExternalIdAsWritten(tx), stripePeriodEnd, now)
  }

  /** `updateUserAfterPurchase` with the external id chain completed. */
  function UpdateUserAfterPurchase(db: Db, tx: Transaction, paymentId: string, stripePeriodEnd: int, now: int)
    : (r: (LegacyOutcome, Db))
    ensures r.1.events == db.events && r.1.txs == db.txs
    // an unknown user, or a throw, changes nothing
    ensures r.0 == NoUser <==> tx.userId == "" || tx.userId !in db.users
    ensures r.0 != Saved ==> r.1 == db
    ensures r.0 == Saved ==> r.1.users.Keys == db.users.Keys && InHistory(r.1.users[tx.userId].purchaseHistory, tx.itemType, tx.itemId)
    // the subscription, when there is one, always has an external id
    ensures tx.itemType == "artist-subscription" && r.0 == Saved ==>
      var found := FirstWhere(r.1.subs, SubscriptionRepository.KeyFilter(tx.userId, tx.artistId));
      && found.Some?
      && r.1.subs[found.value].status == Active
      && Some(r.1.subs[found.value].validUntil) == LegacyValidUntil(tx, stripePeriodEnd, now)
      && r.1.subs[found.value].externalSubscriptionId == ExternalId(tx)
      && r.1.subs[found.value].externalSubscriptionId != ""
    ensures tx.itemType != "artist-subscription" ==> r.1.subs == db.subs
  {
    ApplyPurchase(db, tx, paymentId, ExternalId(tx), stripePeriodEnd, now)
  }

  /**
   * Repeating the update is a no-op on the user: the history guard and the
   * membership checks both hold the second time, and a throw saves nothing.
   */
  lemma UpdateUserTwice(db: Db, tx: Transaction, paymentId: string, stripePeriodEnd: int, now: int)
    ensures var (_, once) := UpdateUserAfterPurchase(db, tx, paymentId, stripePeriodEnd, now);
            var (_, twice) := UpdateUserAfterPurchase(once, tx, paymentId, stripePeriodEnd, now);
            twice.users == once.users
  {
    var (outcome, once) := UpdateUserAfterPurchase(db, tx, paymentId, stripePeriodEnd, now);
    if outcome == Saved {
      var u := once.users[tx.userId];
      assert InHistory(u.purchaseHistory, tx.itemType, tx.itemId);
      if AlreadyInHistory(u.purchaseHistory, tx.itemType, tx.itemId).Some? {
        assert RecordPurchase(u, tx, paymentId) == Some(u);
      }
    }
  }

  /** An unknown item type changes only the history. */
  lemma UnknownItemTypeOnlyHistory(db: Db, tx: Transaction, paymentId: string, stripePeriodEnd: int, now: int)
    requires tx.itemType !in {"song", "album", "artist-subscription"}
    requires tx.userId != "" && tx.userId in db.users
    ensures var (_, after) := UpdateUserAfterPurchase(db, tx, paymentId, stripePeriodEnd, now);
            var before := db.users[tx.userId];
            && after.subs == db.subs
            && after.users[tx.userId] == before.(purchaseHistory := after.users[tx.userId].purchaseHistory)
  {
  }

  /**
   * An inherited cycle name with no Stripe period throws at the upsert, so
   * neither the subscription nor the purchase is saved; a Stripe period
   * replaces the invalid date first.
   */
  lemma InheritedCycleSavesNothing(db: Db, tx: Transaction, paymentId: string, stripePeriodEnd: int, now: int)
    requires tx.itemType == "artist-subscription" && tx.metadata.cycle == "constructor"
    requires tx.userId != "" && tx.userId in db.users
    ensures var r := UpdateUserAfterPurchase(db, tx, paymentId, stripePeriodEnd, now);
            !HasStripePeriod(tx, stripePeriodEnd) ==> r == (Threw, db)
    ensures var r := UpdateUserAfterPurchase(db, tx, paymentId, stripePeriodEnd, now);
            HasStripePeriod(tx, stripePeriodEnd) && !IdlessRowOfType(db.users[tx.userId].purchaseHistory, tx.itemType, tx.itemId) ==>
            r.0 == Saved
  {
  }

  /**
   * A history row of the same type without an item id makes the scan throw
   * before it reaches the row that would match; a match ahead of it is found
   * first and the purchase goes through.
   */
  lemma IdlessHistoryRowThrows(db: Db, tx: Transaction, u: User, paymentId: string)
    requires tx.itemType == "song" && tx.itemId == "s1" && tx.userId == "u1" && db.users == map["u1" := u]
    ensures var idless := LegacyPurchase("song", "", 0, "", "");
            var match1 := LegacyPurchase("song", "s1", 0, "", "");
            && UpdateUserAfterPurchase(db.(users := map["u1" := u.(purchaseHistory := [idless, match1])]), tx, paymentId, 0, 0).0 == Threw
            && UpdateUserAfterPurchase(db.(users := map["u1" := u.(purchaseHistory := [match1, idless])]), tx, paymentId, 0, 0).0 == Saved
  {
  }
}
