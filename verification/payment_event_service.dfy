/**
 * The transactional payment-event service: four handlers, each opened by the
 * idempotency claim (recorded before, and outside, the database session),
 * followed by one atomic step guarded by a conditional update.
 */
module PaymentEventService {
  import opened Wrappers
  import opened Store
  import opened Settlement
  import Js
  import TransactionRepository
  import SubscriptionRepository
  import UserRepository

  // ---------------------------------------------------------------------
  // payment succeeded
  // ---------------------------------------------------------------------

  /** The paid item is a song, by metadata or by the transaction. */
  predicate IsSong(metadata: Metadata, tx: Transaction) {
    metadata.kind == "song" || tx.itemType == "song"
  }

  /** The paid item is an album, by metadata or by the transaction. */
  predicate IsAlbum(metadata: Metadata, tx: Transaction) {
    metadata.kind == "album" || tx.itemType == "album"
  }

  /**
   * The user update of a successful payment: the payer is `payload.userId`,
   * else the transaction's user; the history gains one purchase row; a song
   * (checked first) or album id is added to its set without duplication.
   */
  function GrantPurchase(users: map<string, User>, p: Payload, tx: Transaction, now: int): (r: map<string, User>)
    ensures r.Keys == users.Keys
    ensures var payer := Js.Or(p.userId, tx.userId);
            payer == "" || payer !in users ==> r == users
    ensures var payer := Js.Or(p.userId, tx.userId);
            payer != "" && payer in users ==>
      var before := users[payer];
      var after := r[payer];
      var item := Js.Or(p.metadata.itemId, tx.itemId);
      && r == users[payer := after]
      && UserRepository.OnlyPurchaseFieldsDiffer(before, after)
      // exactly one new history row, referencing the transaction at its amount
      && |after.purchaseHistory| == |before.purchaseHistory| + 1
      && after.purchaseHistory[..|before.purchaseHistory|] == before.purchaseHistory
      && after.purchaseHistory[|before.purchaseHistory|]
         == Purchase(Js.Or(p.metadata.kind, tx.itemType), item, tx.amount, tx.id, p.provider, now)
      // set semantics: the item is present afterwards, nothing else is added
      && (IsSong(p.metadata, tx) ==>
            after.purchasedSongs == AddToSet(before.purchasedSongs, item) && after.purchasedAlbums == before.purchasedAlbums)
      && (!IsSong(p.metadata, tx) && IsAlbum(p.metadata, tx) ==>
            after.purchasedAlbums == AddToSet(before.purchasedAlbums, item) && after.purchasedSongs == before.purchasedSongs)
      && (!IsSong(p.metadata, tx) && !IsAlbum(p.metadata, tx) ==>
            after.purchasedSongs == before.purchasedSongs && after.purchasedAlbums == before.purchasedAlbums)
  {
    var payer := Js.Or(p.userId, tx.userId);
    if payer == "" || payer !in users then users
    else
      var u := users[payer];
      var item := Js.Or(p.metadata.itemId, tx.itemId);
      var entry := Purchase(Js.Or(p.metadata.kind, tx.itemType), item, tx.amount, tx.id, p.provider, now);
      var songs := if IsSong(p.metadata, tx) then AddToSet(u.purchasedSongs, item) else u.purchasedSongs;
      var albums := if !IsSong(p.metadata, tx) && IsAlbum(p.metadata, tx) then AddToSet(u.purchasedAlbums, item)
                    else u.purchasedAlbums;
      users[payer := u.(purchasedSongs := songs, purchasedAlbums := albums,
                        purchaseHistory := u.purchaseHistory + [entry])]
  }

  /**
   * The subscription write of a successful payment: for an artist
   * subscription with a known artist, upsert the (tx.userId, artist) record
   * as active until the provider's period end or 30 days from now.
   */
  function SubscribeArtist(subs: seq<Subscription>, p: Payload, tx: Transaction, now: int): (r: seq<Subscription>)
    ensures !IsSubscription(p.metadata, tx) || SubscribedArtist(p.metadata, tx) == "" ==> r == subs
    ensures IsSubscription(p.metadata, tx) && SubscribedArtist(p.metadata, tx) != "" ==>
      var artist := SubscribedArtist(p.metadata, tx);
      var found := FirstWhere(r, SubscriptionRepository.KeyFilter(tx.userId, artist));
      // the record a lookup of the pair finds is active, until the computed period end, for this payment
      && found.Some?
      && r[found.value].status == Active
      && r[found.value].validUntil == PeriodEnd(p.provider, p.raw, now)
      && r[found.value].transactionId == tx.id
      && r[found.value].gateway == p.provider
      && r[found.value].externalSubscriptionId == ExternalSubscriptionId(p.metadata, tx)
      // and the pair has no more records than before, but at least one
      && SubscriptionRepository.CountKey(r, tx.userId, artist)
         == if SubscriptionRepository.CountKey(subs, tx.userId, artist) == 0 then 1
            else SubscriptionRepository.CountKey(subs, tx.userId, artist)
  {
    var artist := SubscribedArtist(p.metadata, tx);
    if !IsSubscription(p.metadata, tx) || artist == "" then subs
    else
      SubscriptionRepository.UpsertSubscription(subs, tx.userId, artist, PeriodEnd(p.provider, p.raw, now), p.provider,
                                                ExternalSubscriptionId(p.metadata, tx), tx.id, now).1
  }

  /** `handlePaymentSucceeded`. `ledgerFails` is a database error while claiming the event id. */
  function HandlePaymentSucceeded(db: Db, p: Payload, ledgerFails: bool, now: int): (r: (Outcome, Db))
    // duplicate delivery or ledger error: nothing changes
    ensures !Proceeds(db.events, p.eventId, ledgerFails) ==>
      r == (if ledgerFails then Threw(LedgerError) else AlreadyProcessed, db)
    // the claim precedes the transactionId check, so a missing id throws with the claim consumed
    ensures Proceeds(db.events, p.eventId, ledgerFails) && p.transactionId == "" ==>
      r == (Threw(MissingTransactionId), db.(events := WithClaim(db.events, p.eventId)))
    // an unknown or already-paid transaction: already processed, no user or subscription change
    ensures Proceeds(db.events, p.eventId, ledgerFails) && p.transactionId != "" &&
            (p.transactionId !in db.txs || db.txs[p.transactionId].status == Paid) ==>
      r == (AlreadyProcessed, db.(events := WithClaim(db.events, p.eventId)))
    // any other status, failed and refunded included, is moved to paid and the item granted
    ensures Proceeds(db.events, p.eventId, ledgerFails) && p.transactionId in db.txs &&
            p.transactionId != "" && db.txs[p.transactionId].status != Paid ==>
      && r.0.Settled?
      && r.0.tx.status == Paid
      && r.0.tx.paidAt == Some(now)
      && TransactionRepository.OnlyPaidFieldsDiffer(db.txs[p.transactionId], r.0.tx)
      && r.1.txs == db.txs[p.transactionId := r.0.tx]
      && r.1.events == WithClaim(db.events, p.eventId)
      && r.1.users == GrantPurchase(db.users, p, r.0.tx, now)
      && r.1.subs == SubscribeArtist(db.subs, p, r.0.tx, now)
    // without a ledger error, the event id is on record afterwards
    ensures p.eventId != "" && !ledgerFails ==> p.eventId in r.1.events
  {
    var (early, claimed) := ClaimStep(db, p.eventId, ledgerFails);
    if early.Some? then (early.value, claimed)
    else if p.transactionId == "" then (Threw(MissingTransactionId), claimed)
    else
      var (paid, txs) := TransactionRepository.MarkAsPaid(claimed.txs, p.transactionId, p.provider, p.raw, now);
      match paid
      case None => (AlreadyProcessed, claimed)
      case Some(tx) =>
        (Settled(tx), claimed.(txs := txs, users := GrantPurchase(claimed.users, p, tx, now),
                               subs := SubscribeArtist(claimed.subs, p, tx, now)))
  }

  /**
   * Replaying any payload a second time changes nothing: the event id is
   * already claimed, or, without one, the transaction is already paid, absent,
   * or the payload lacks a transaction id.
   */
  lemma SucceededReplayIsNoOp(db: Db, p: Payload, t1: int, t2: int)
    ensures var (_, once) := HandlePaymentSucceeded(db, p, false, t1);
            var (second, twice) := HandlePaymentSucceeded(once, p, false, t2);
            && twice == once
            && (second == AlreadyProcessed || (p.eventId == "" && p.transactionId == "" && second == Threw(MissingTransactionId)))
  {
  }

  /** A failed transaction is paid by a later success event: the guard does not protect failed. */
  lemma FailedBecomesPaid(db: Db, p: Payload, now: int)
    requires Proceeds(db.events, p.eventId, false)
    requires p.transactionId != "" && p.transactionId in db.txs && db.txs[p.transactionId].status == Failed
    ensures var (out, after) := HandlePaymentSucceeded(db, p, false, now);
            out.Settled? && after.txs[p.transactionId].status == Paid
  {
  }

  /**
   * A delivery without transactionId burns its event id: a corrected
   * redelivery with the same event id is dropped as already processed.
   */
  lemma MissingTransactionIdBurnsClaim(db: Db, p: Payload, transactionId: string, t1: int, t2: int)
    requires p.eventId != "" && p.eventId !in db.events && p.transactionId == ""
    ensures var (first, after) := HandlePaymentSucceeded(db, p, false, t1);
            && first == Threw(MissingTransactionId)
            && after.txs == db.txs && after.users == db.users && after.subs == db.subs
            && HandlePaymentSucceeded(after, p.(transactionId := transactionId), false, t2) == (AlreadyProcessed, after)
  {
  }

  // ---------------------------------------------------------------------
  // payment failed
  // ---------------------------------------------------------------------

  /** `handlePaymentFailed`: fail the transaction unless it already failed. */
  function HandlePaymentFailed(db: Db, p: Payload, ledgerFails: bool, now: int): (r: (Outcome, Db))
    ensures !Proceeds(db.events, p.eventId, ledgerFails) ==>
      r == (if ledgerFails then Threw(LedgerError) else AlreadyProcessed, db)
    // a missing transaction id is reported, not thrown, after the claim
    ensures Proceeds(db.events, p.eventId, ledgerFails) && p.transactionId == "" ==>
      r == (NotSettled("missing_transactionId"), db.(events := WithClaim(db.events, p.eventId)))
    ensures Proceeds(db.events, p.eventId, ledgerFails) && p.transactionId != "" &&
            (p.transactionId !in db.txs || db.txs[p.transactionId].status == Failed) ==>
      r == (AlreadyProcessed, db.(events := WithClaim(db.events, p.eventId)))
    // any other status, paid included, becomes failed; users and subscriptions are untouched
    ensures Proceeds(db.events, p.eventId, ledgerFails) && p.transactionId != "" &&
            p.transactionId in db.txs && db.txs[p.transactionId].status != Failed ==>
      && r.0.Settled?
      && r.0.tx.status == Failed
      && r.0.tx.failureReason == p.reason
      && TransactionRepository.OnlyFailedFieldsDiffer(db.txs[p.transactionId], r.0.tx)
      && r.1 == db.(events := WithClaim(db.events, p.eventId), txs := db.txs[p.transactionId := r.0.tx])
  {
    var (early, claimed) := ClaimStep(db, p.eventId, ledgerFails);
    if early.Some? then (early.value, claimed)
    else if p.transactionId == "" then (NotSettled("missing_transactionId"), claimed)
    else
      var (failed, txs) := TransactionRepository.MarkAsFailed(claimed.txs, p.transactionId, p.reason, p.provider, now);
      match failed
      case None => (AlreadyProcessed, claimed)
      case Some(tx) => (Settled(tx), claimed.(txs := txs))
  }

  /** A paid transaction is failed by a later failure event, revoking nothing it granted. */
  lemma PaidBecomesFailed(db: Db, p: Payload, now: int)
    requires Proceeds(db.events, p.eventId, false)
    requires p.transactionId != "" && p.transactionId in db.txs && db.txs[p.transactionId].status == Paid
    ensures var (out, after) := HandlePaymentFailed(db, p, false, now);
            out.Settled? && after.txs[p.transactionId].status == Failed
            && after.users == db.users && after.subs == db.subs
  {
  }

  /** Repeating a failure event is reported as already processed and changes nothing. */
  lemma FailedReplayIsNoOp(db: Db, p: Payload, t1: int, t2: int)
    requires p.transactionId != ""
    ensures var (_, once) := HandlePaymentFailed(db, p, false, t1);
            HandlePaymentFailed(once, p, false, t2) == (AlreadyProcessed, once)
  {
  }

  // ---------------------------------------------------------------------
  // purchase refunded
  // ---------------------------------------------------------------------

  /** The conditional update of a refund: set refunded unless already refunded. */
  function MarkAsRefunded(txs: map<string, Transaction>, id: string, provider: string, now: int): (r: map<string, Transaction>)
    ensures id in txs && txs[id].status != Refunded ==>
      r == txs[id := txs[id].(status := Refunded, refundedAt := Some(now), provider := provider)]
    ensures !(id in txs && txs[id].status != Refunded) ==> r == txs
  {
    if id in txs && txs[id].status != Refunded then
      txs[id := txs[id].(status := Refunded, refundedAt := Some(now), provider := provider)]
    else txs
  }

  /** The user update of a refund: pull the item from its set and append a price-0 refund row. */
  function RevokePurchase(users: map<string, User>, p: Payload, now: int): (r: map<string, User>)
    ensures r.Keys == users.Keys
    ensures p.userId == "" || p.userId !in users ==> r == users
    ensures p.userId != "" && p.userId in users ==>
      var before := users[p.userId];
      var after := r[p.userId];
      && r == users[p.userId := after]
      && UserRepository.OnlyPurchaseFieldsDiffer(before, after)
      && after.purchaseHistory == before.purchaseHistory
         + [Refund(p.itemType, p.itemId, 0, p.transactionId, p.provider, now)]
      && (p.itemType == "song" ==>
            p.itemId !in after.purchasedSongs && after.purchasedAlbums == before.purchasedAlbums
            && forall s :: s in before.purchasedSongs && s != p.itemId ==> s in after.purchasedSongs)
      && (p.itemType == "album" ==>
            p.itemId !in after.purchasedAlbums && after.purchasedSongs == before.purchasedSongs
            && forall a :: a in before.purchasedAlbums && a != p.itemId ==> a in after.purchasedAlbums)
      && (p.itemType != "song" && p.itemType != "album" ==>
            after.purchasedSongs == before.purchasedSongs && after.purchasedAlbums == before.purchasedAlbums)
  {
    if p.userId == "" || p.userId !in users then users
    else
      var u := users[p.userId];
      var songs := if p.itemType == "song" then Pull(u.purchasedSongs, p.itemId) else u.purchasedSongs;
      var albums := if p.itemType == "album" then Pull(u.purchasedAlbums, p.itemId) else u.purchasedAlbums;
      var entry := Refund(p.itemType, p.itemId, 0, p.transactionId, p.provider, now);
      users[p.userId := u.(purchasedSongs := songs, purchasedAlbums := albums,
                           purchaseHistory := u.purchaseHistory + [entry])]
  }

  /** `handlePurchaseRefunded`: acknowledged once claimed, whether or not a transaction matched. */
  function HandlePurchaseRefunded(db: Db, p: Payload, ledgerFails: bool, now: int): (r: (Outcome, Db))
    ensures !Proceeds(db.events, p.eventId, ledgerFails) ==>
      r == (if ledgerFails then Threw(LedgerError) else AlreadyProcessed, db)
    ensures Proceeds(db.events, p.eventId, ledgerFails) ==>
      && r.0 == Acknowledged
      && r.1.events == WithClaim(db.events, p.eventId)
      && r.1.txs == (if p.transactionId != "" then MarkAsRefunded(db.txs, p.transactionId, p.provider, now) else db.txs)
      && r.1.users == RevokePurchase(db.users, p, now)
      // a refund does not cancel subscriptions
      && r.1.subs == db.subs
  {
    var (early, claimed) := ClaimStep(db, p.eventId, ledgerFails);
    if early.Some? then (early.value, claimed)
    else
      var txs := if p.transactionId != "" then MarkAsRefunded(claimed.txs, p.transactionId, p.provider, now) else claimed.txs;
      (Acknowledged, claimed.(txs := txs, users := RevokePurchase(claimed.users, p, now)))
  }

  /**
   * A refund undoes a song purchase: the song leaves the payer's set, every
   * other song and album stays, and the history keeps both rows in order.
   */
  lemma RefundRevokesGrantedSong(users: map<string, User>, p: Payload, tx: Transaction, refund: Payload, t1: int, t2: int)
    requires IsSong(p.metadata, tx)
    requires Js.Or(p.userId, tx.userId) != "" && Js.Or(p.userId, tx.userId) in users
    requires refund.userId == Js.Or(p.userId, tx.userId)
    requires refund.itemType == "song" && refund.itemId == Js.Or(p.metadata.itemId, tx.itemId)
    ensures var payer := refund.userId;
            var before := users[payer];
            var after := RevokePurchase(GrantPurchase(users, p, tx, t1), refund, t2)[payer];
            && refund.itemId !in after.purchasedSongs
            && (forall s :: s in before.purchasedSongs && s != refund.itemId ==> s in after.purchasedSongs)
            && after.purchasedAlbums == before.purchasedAlbums
            && after.purchaseHistory == before.purchaseHistory
               + [Purchase(Js.Or(p.metadata.kind, tx.itemType), refund.itemId, tx.amount, tx.id, p.provider, t1),
                  Refund("song", refund.itemId, 0, refund.transactionId, refund.provider, t2)]
  {
  }

  /**
   * A redelivered refund: with an event id the second run is dropped and
   * changes nothing; without one it runs again, leaving the transaction as
   * it was but appending a second refund row to the user's history.
   */
  lemma RefundReplay(db: Db, p: Payload, t1: int, t2: int)
    requires p.userId != "" && p.userId in db.users
    ensures var (_, once) := HandlePurchaseRefunded(db, p, false, t1);
            var (second, twice) := HandlePurchaseRefunded(once, p, false, t2);
            && (p.eventId != "" && p.eventId !in db.events ==> second == AlreadyProcessed && twice == once)
            && (p.eventId == "" ==>
                  && twice.txs == once.txs
                  && twice.users[p.userId].purchaseHistory == db.users[p.userId].purchaseHistory
                     + [Refund(p.itemType, p.itemId, 0, p.transactionId, p.provider, t1),
                        Refund(p.itemType, p.itemId, 0, p.transactionId, p.provider, t2)])
  {
  }

  // ---------------------------------------------------------------------
  // subscription cancelled
  // ---------------------------------------------------------------------

  /** The filter `{ externalSubscriptionId }`. */
  function ExternalIdFilter(externalSubscriptionId: string): Subscription -> bool {
    (s: Subscription) => s.externalSubscriptionId == externalSubscriptionId
  }

  /** The cancellation filter: by external id if given, else by (userId, artistId). */
  function CancelFilter(p: Payload): Subscription -> bool {
    if p.externalSubscriptionId != "" then ExternalIdFilter(p.externalSubscriptionId)
    else SubscriptionRepository.KeyFilter(p.userId, p.artistId)
  }

  /** `handleSubscriptionCancelled`: soft-cancel the first matching record, keeping validUntil. */
  function HandleSubscriptionCancelled(db: Db, p: Payload, ledgerFails: bool, now: int): (r: (Outcome, Db))
    ensures !Proceeds(db.events, p.eventId, ledgerFails) ==>
      r == (if ledgerFails then Threw(LedgerError) else AlreadyProcessed, db)
    ensures Proceeds(db.events, p.eventId, ledgerFails) ==>
      && r.0.CancelledSubscription?
      && r.1.events == WithClaim(db.events, p.eventId)
      && r.1.txs == db.txs && r.1.users == db.users
      && |r.1.subs| == |db.subs|
    // nothing matched: nothing changes, and the reply carries no record
    ensures Proceeds(db.events, p.eventId, ledgerFails) && FirstWhere(db.subs, CancelFilter(p)).None? ==>
      r.0 == CancelledSubscription(None) && r.1.subs == db.subs
    // the first match becomes cancelled at now; validUntil and every other field stay
    ensures Proceeds(db.events, p.eventId, ledgerFails) && FirstWhere(db.subs, CancelFilter(p)).Some? ==>
      var i := FirstWhere(db.subs, CancelFilter(p)).value;
      && r.0 == CancelledSubscription(Some(r.1.subs[i]))
      && r.1.subs == db.subs[i := r.1.subs[i]]
      && r.1.subs[i].status == Cancelled
      && r.1.subs[i].cancelledAt == Some(now)
      && r.1.subs[i].validUntil == db.subs[i].validUntil
      && r.1.subs[i] == db.subs[i].(status := Cancelled, cancelledAt := Some(now))
      && (p.externalSubscriptionId != "" ==> db.subs[i].externalSubscriptionId == p.externalSubscriptionId)
      && (p.externalSubscriptionId == "" ==> SubscriptionRepository.HasKey(db.subs[i], p.userId, p.artistId))
  {
    var (early, claimed) := ClaimStep(db, p.eventId, ledgerFails);
    if early.Some? then (early.value, claimed)
    else
      match FirstWhere(claimed.subs, CancelFilter(p))
      case None => (CancelledSubscription(None), claimed)
      case Some(i) =>
        var s := claimed.subs[i].(status := Cancelled, cancelledAt := Some(now));
        (CancelledSubscription(Some(s)), claimed.(subs := claimed.subs[i := s]))
  }

  /** Cancelling keeps access: whether a pair has an access record at any time is unchanged. */
  lemma CancellationKeepsAccess(db: Db, p: Payload, ledgerFails: bool, now: int,
                                userId: string, artistId: string, at: int)
    ensures var (_, after) := HandleSubscriptionCancelled(db, p, ledgerFails, now);
            SubscriptionRepository.FindActiveSubscription(after.subs, userId, artistId, at).Some?
            == SubscriptionRepository.FindActiveSubscription(db.subs, userId, artistId, at).Some?
  {
    var (_, after) := HandleSubscriptionCancelled(db, p, ledgerFails, now);
    assert |after.subs| == |db.subs|;
    forall j | 0 <= j < |db.subs|
      ensures SubscriptionRepository.HasKey(after.subs[j], userId, artistId) == SubscriptionRepository.HasKey(db.subs[j], userId, artistId)
      ensures after.subs[j].validUntil == db.subs[j].validUntil
    {
    }
  }
}
