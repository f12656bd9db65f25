/**
 * The event subscribers: the older settlement path, reacting to the
 * dispatcher's topics with read-modify-save updates. They mark a paid
 * transaction with the status "success", overwrite failed and refunded
 * unconditionally, insert subscriptions without an upsert, and swallow
 * every error.
 */
module Subscribers {
  import opened Wrappers
  import opened Store
  import SubscriptionRepository

  /** A fresh access record as the subscribers build it: only user, artist and validUntil are set. */
  function NewSubscription(userId: string, artistId: string, validUntil: int): Subscription {
    Subscription(userId, artistId, Unset, validUntil, "", "", "", None, None)
  }

  /** The entitlement change of a successful payment, given how an id joins a purchased array. */
  function Entitle(db: Db, userId: string, metadata: Metadata, dedupe: bool, now: int): (r: Db)
    requires userId in db.users
    ensures r.events == db.events && r.txs == db.txs && r.users.Keys == db.users.Keys
    ensures r.users == db.users[userId := r.users[userId]]
    ensures r.users[userId].purchaseHistory == db.users[userId].purchaseHistory
    ensures metadata.kind == "song" ==>
      r.users[userId].purchasedSongs == Join(db.users[userId].purchasedSongs, metadata.itemId, dedupe)
      && r.users[userId].purchasedAlbums == db.users[userId].purchasedAlbums
    ensures metadata.kind == "album" ==>
      r.users[userId].purchasedAlbums == Join(db.users[userId].purchasedAlbums, metadata.itemId, dedupe)
      && r.users[userId].purchasedSongs == db.users[userId].purchasedSongs
    ensures metadata.kind != "song" && metadata.kind != "album" ==> r.users == db.users
    // an artist subscription is a new record, valid for 30 days, whatever already exists
    ensures metadata.kind == "artist-subscription" ==>
      r.subs == db.subs + [NewSubscription(userId, metadata.itemId, now + DefaultPeriodMs)]
    ensures metadata.kind != "artist-subscription" ==> r.subs == db.subs
  {
    var u := db.users[userId];
    if metadata.kind == "song" then
      db.(users := db.users[userId := u.(purchasedSongs := Join(u.purchasedSongs, metadata.itemId, dedupe))])
    else if metadata.kind == "album" then
      db.(users := db.users[userId := u.(purchasedAlbums := Join(u.purchasedAlbums, metadata.itemId, dedupe))])
    else if metadata.kind == "artist-subscription" then
      db.(subs := SubscriptionRepository.CreateSubscription(db.subs, NewSubscription(userId, metadata.itemId, now + DefaultPeriodMs)))
    else db
  }

  /** `includes`-then-`push` when deduplicating, a bare `push` otherwise. */
  function Join(xs: seq<string>, x: string, dedupe: bool): (r: seq<string>)
    ensures x in r
    ensures dedupe ==> r == AddToSet(xs, x)
    ensures !dedupe ==> r == xs + [x]
  {
    if dedupe then AddToSet(xs, x) else xs + [x]
  }

  /**
   * The shared body of the two success subscribers: skip a missing or
   * already "success" transaction; otherwise save the status first, then
   * entitle the payload's user if that user exists.
   */
  function Succeed(db: Db, transactionId: string, userId: string, metadata: Metadata, dedupe: bool, now: int): (r: Db)
    ensures r.events == db.events && r.txs.Keys == db.txs.Keys && r.users.Keys == db.users.Keys
    // no transaction, or one already settled: nothing changes
    ensures transactionId !in db.txs || db.txs[transactionId].status == Success ==> r == db
    // otherwise the status changes even when the user is then not found
    ensures transactionId in db.txs && db.txs[transactionId].status != Success ==>
      r.txs == db.txs[transactionId := db.txs[transactionId].(status := Success)]
    ensures transactionId in db.txs && db.txs[transactionId].status != Success && userId !in db.users ==>
      r == db.(txs := r.txs)
    ensures transactionId in db.txs && db.txs[transactionId].status != Success && userId in db.users ==>
      r == Entitle(db.(txs := r.txs), userId, metadata, dedupe, now)
  {
    if transactionId !in db.txs || db.txs[transactionId].status == Success then db
    else
      var marked := db.(txs := db.txs[transactionId := db.txs[transactionId].(status := Success)]);
      if userId !in db.users then marked
      else Entitle(marked, userId, metadata, dedupe, now)
  }

  /** `handlePaymentSuccess` (onPaymentSuccess.js): ids join their sets without duplicates. */
  function OnPaymentSuccess(db: Db, transactionId: string, userId: string, metadata: Metadata, now: int): (r: Db)
    ensures r.txs.Keys == db.txs.Keys && r.users.Keys == db.users.Keys
    ensures transactionId in db.txs && db.txs[transactionId].status != Success && userId in db.users ==>
      && r.txs[transactionId].status == Success
      && (metadata.kind == "song" ==>
            r.users[userId].purchasedSongs == AddToSet(db.users[userId].purchasedSongs, metadata.itemId))
      && (metadata.kind == "album" ==>
            r.users[userId].purchasedAlbums == AddToSet(db.users[userId].purchasedAlbums, metadata.itemId))
  {
    Succeed(db, transactionId, userId, metadata, true, now)
  }

  /** `onPaymentSucceeded`, and the dispatcher's PAYMENT_SUCCEEDED listener: ids are pushed unchecked. */
  function OnPaymentSucceeded(db: Db, transactionId: string, userId: string, metadata: Metadata, now: int): (r: Db)
    ensures r.txs.Keys == db.txs.Keys && r.users.Keys == db.users.Keys
    ensures transactionId in db.txs && db.txs[transactionId].status != Success && userId in db.users ==>
      && r.txs[transactionId].status == Success
      && (metadata.kind == "song" ==>
            r.users[userId].purchasedSongs == db.users[userId].purchasedSongs + [metadata.itemId])
      && (metadata.kind == "album" ==>
            r.users[userId].purchasedAlbums == db.users[userId].purchasedAlbums + [metadata.itemId])
  {
    Succeed(db, transactionId, userId, metadata, false, now)
  }

  /** Redelivering the same event to either success subscriber changes nothing. */
  lemma SuccessSubscribersIgnoreReplay(db: Db, transactionId: string, userId: string, metadata: Metadata, dedupe: bool,
                                       t1: int, t2: int)
    ensures var once := Succeed(db, transactionId, userId, metadata, dedupe, t1);
            Succeed(once, transactionId, userId, metadata, dedupe, t2) == once
  {
  }

  /**
   * Two different transactions for a song the user does not own yet: the
   * deduplicating subscriber keeps one copy, the pushing one a copy per payment.
   */
  lemma DuplicatePush(db: Db, tx1: string, tx2: string, userId: string, songId: string, t1: int, t2: int)
    requires tx1 != tx2 && tx1 in db.txs && tx2 in db.txs
    requires db.txs[tx1].status != Success && db.txs[tx2].status != Success
    requires userId in db.users && Occurrences(db.users[userId].purchasedSongs, songId) == 0
    ensures var md := Metadata("song", songId, "", "");
            var dd := OnPaymentSuccess(OnPaymentSuccess(db, tx1, userId, md, t1), tx2, userId, md, t2);
            var pp := OnPaymentSucceeded(OnPaymentSucceeded(db, tx1, userId, md, t1), tx2, userId, md, t2);
            Occurrences(dd.users[userId].purchasedSongs, songId) == 1
            && Occurrences(pp.users[userId].purchasedSongs, songId) == 2
  {
    var md := Metadata("song", songId, "", "");
    var songs := db.users[userId].purchasedSongs;
    OccurrencesAppend(songs, songId);
    OccurrencesAppend(songs + [songId], songId);
    assert songId !in songs by {
      if songId in songs {
        var k :| 0 <= k < |songs| && songs[k] == songId;
        OccurrencesPositive(songs, k);
      }
    }
  }

  /** An element present counts at least once. */
  lemma {:induction false} OccurrencesPositive(xs: seq<string>, k: nat)
    requires k < |xs|
    ensures Occurrences(xs, xs[k]) >= 1
  {
    if k > 0 {
      OccurrencesPositive(xs[1..], k - 1);
    }
  }

  /** Two artist-subscription payments leave two records for the pair: the subscribers never upsert. */
  lemma SubscribersDuplicateSubscriptions(db: Db, tx1: string, tx2: string, userId: string, artistId: string,
                                          t1: int, t2: int)
    requires tx1 != tx2 && tx1 in db.txs && tx2 in db.txs
    requires db.txs[tx1].status != Success && db.txs[tx2].status != Success
    requires userId in db.users
    ensures var md := Metadata("artist-subscription", artistId, "", "");
            var after := OnPaymentSuccess(OnPaymentSuccess(db, tx1, userId, md, t1), tx2, userId, md, t2);
            SubscriptionRepository.CountKey(after.subs, userId, artistId)
            == SubscriptionRepository.CountKey(db.subs, userId, artistId) + 2
  {
    var md := Metadata("artist-subscription", artistId, "", "");
    var mid := OnPaymentSuccess(db, tx1, userId, md, t1);
    var after := OnPaymentSuccess(mid, tx2, userId, md, t2);
    CountAppend(db.subs, NewSubscription(userId, artistId, t1 + DefaultPeriodMs), SubscriptionRepository.KeyFilter(userId, artistId));
    CountAppend(mid.subs, NewSubscription(userId, artistId, t2 + DefaultPeriodMs), SubscriptionRepository.KeyFilter(userId, artistId));
  }

  /** An unconditional status overwrite of an existing transaction. */
  function Overwrite(txs: map<string, Transaction>, transactionId: string, status: Status): (r: map<string, Transaction>)
    ensures transactionId !in txs ==> r == txs
    ensures transactionId in txs ==> r == txs[transactionId := txs[transactionId].(status := status)]
  {
    if transactionId in txs then txs[transactionId := txs[transactionId].(status := status)] else txs
  }

  /** `handlePaymentFailed` (onPaymentFailed.js), and the PAYMENT_FAILED listener. */
  function OnPaymentFailed(txs: map<string, Transaction>, transactionId: string): (r: map<string, Transaction>)
    ensures r.Keys == txs.Keys
    // whatever the prior status, paid included, it is now failed
    ensures transactionId in txs ==> r[transactionId].status == Failed
    ensures forall id :: id in txs && id != transactionId ==> r[id] == txs[id]
    ensures transactionId in txs ==> r[transactionId] == txs[transactionId].(status := Failed)
  {
    Overwrite(txs, transactionId, Failed)
  }

  /** `handleRefundIssued` (onRefundIssued.js), and the REFUND_ISSUED listener; entitlements stay. */
  function OnRefundIssued(txs: map<string, Transaction>, transactionId: string): (r: map<string, Transaction>)
    ensures r.Keys == txs.Keys
    ensures transactionId in txs ==> r[transactionId].status == Refunded
    ensures forall id :: id in txs && id != transactionId ==> r[id] == txs[id]
    ensures transactionId in txs ==> r[transactionId] == txs[transactionId].(status := Refunded)
  {
    Overwrite(txs, transactionId, Refunded)
  }

  /** A failure after a success overwrites it; the transactional guard would have let it through too. */
  lemma FailureOverwritesSuccess(db: Db, transactionId: string, userId: string, metadata: Metadata, now: int)
    requires transactionId in db.txs && db.txs[transactionId].status != Success
    ensures var paid := OnPaymentSuccess(db, transactionId, userId, metadata, now);
            OnPaymentFailed(paid.txs, transactionId)[transactionId].status == Failed
  {
  }

  /** A refund after a success leaves the granted entitlements in place. */
  lemma RefundKeepsEntitlements(db: Db, transactionId: string, userId: string, metadata: Metadata, now: int)
    requires transactionId in db.txs && db.txs[transactionId].status != Success && userId in db.users
    ensures var paid := OnPaymentSuccess(db, transactionId, userId, metadata, now);
            var refunded := paid.(txs := OnRefundIssued(paid.txs, transactionId));
            && refunded.txs[transactionId].status == Refunded
            && (metadata.kind == "song" ==> metadata.itemId in refunded.users[userId].purchasedSongs)
  {
  }
}
