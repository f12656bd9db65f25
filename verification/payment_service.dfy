/**
 * The settlement half of the payment service: the same two payment outcomes
 * as the payment-event service, written over the repositories. The event log
 * call it makes is the ledger claim, taken only when an event id is given.
 */
module PaymentService {
  import opened Wrappers
  import opened Store
  import opened Settlement
  import Js
  import TransactionRepository
  import UserRepository
  import PaymentEventService

  /** The history row of a successful payment: its type comes from metadata alone. */
  function HistoryEntryFor(p: Payload, tx: Transaction, now: int): HistoryEntry {
    Purchase(p.metadata.kind, Js.Or(p.metadata.itemId, tx.itemId), tx.amount, tx.id, p.provider, now)
  }

  /** `handlePaymentSuccess`. */
  function HandlePaymentSuccess(db: Db, p: Payload, ledgerFails: bool, now: int): (r: (Outcome, Db))
    ensures !Proceeds(db.events, p.eventId, ledgerFails) ==>
      r == (if ledgerFails then Threw(LedgerError) else AlreadyProcessed, db)
    // the throw happens inside the session, after the event was logged
    ensures Proceeds(db.events, p.eventId, ledgerFails) && p.transactionId == "" ==>
      r == (Threw(MissingTransactionId), db.(events := WithClaim(db.events, p.eventId)))
    // markAsPaid matched nothing: no user or subscription change
    ensures Proceeds(db.events, p.eventId, ledgerFails) && p.transactionId != "" &&
            (p.transactionId !in db.txs || db.txs[p.transactionId].status == Paid) ==>
      r == (AlreadyProcessed, db.(events := WithClaim(db.events, p.eventId)))
    ensures Proceeds(db.events, p.eventId, ledgerFails) && p.transactionId != "" &&
            p.transactionId in db.txs && db.txs[p.transactionId].status != Paid ==>
      r.0.Settled? &&
      var tx := r.0.tx;
      && tx.status == Paid
      && TransactionRepository.OnlyPaidFieldsDiffer(db.txs[p.transactionId], tx)
      && r.1.txs == db.txs[p.transactionId := tx]
      && r.1.events == WithClaim(db.events, p.eventId)
      // the transaction's own user gets the purchase; the row's itemType is metadata.type only
      && r.1.users == UserRepository.AddPurchase(db.users, tx.userId, p.metadata, tx.itemId, HistoryEntryFor(p, tx, now))
      && (tx.userId != "" && tx.userId in db.users ==>
            r.1.users[tx.userId].purchaseHistory[|db.users[tx.userId].purchaseHistory|].itemType == p.metadata.kind)
      && r.1.subs == PaymentEventService.SubscribeArtist(db.subs, p, tx, now)
  {
    var (early, claimed) := ClaimStep(db, p.eventId, ledgerFails);
    if early.Some? then (early.value, claimed)
    else if p.transactionId == "" then (Threw(MissingTransactionId), claimed)
    else
      var (paid, txs) := TransactionRepository.MarkAsPaid(claimed.txs, p.transactionId, p.provider, p.raw, now);
      match paid
      case None => (AlreadyProcessed, claimed)
      case Some(tx) =>
        var users := UserRepository.AddPurchase(claimed.users, tx.userId, p.metadata, tx.itemId,
                                                HistoryEntryFor(p, tx, now));
        (Settled(tx), claimed.(txs := txs, users := users,
                               subs := PaymentEventService.SubscribeArtist(claimed.subs, p, tx, now)))
  }

  /** `handlePaymentFailed`: the event log is consulted only when an event id is given. */
  function HandlePaymentFailed(db: Db, p: Payload, ledgerFails: bool, now: int): (r: (Outcome, Db))
    ensures !Proceeds(db.events, p.eventId, ledgerFails) ==>
      r == (if ledgerFails then Threw(LedgerError) else AlreadyProcessed, db)
    ensures Proceeds(db.events, p.eventId, ledgerFails) && p.transactionId == "" ==>
      r == (NotSettled("missing_transactionId"), db.(events := WithClaim(db.events, p.eventId)))
    ensures Proceeds(db.events, p.eventId, ledgerFails) && p.transactionId != "" &&
            (p.transactionId !in db.txs || db.txs[p.transactionId].status == Failed) ==>
      r == (AlreadyProcessed, db.(events := WithClaim(db.events, p.eventId)))
    ensures Proceeds(db.events, p.eventId, ledgerFails) && p.transactionId != "" &&
            p.transactionId in db.txs && db.txs[p.transactionId].status != Failed ==>
      && r.0.Settled? && r.0.tx.status == Failed && r.0.tx.failureReason == p.reason
      && r.1 == db.(events := WithClaim(db.events, p.eventId), txs := db.txs[p.transactionId := r.0.tx])
  {
    var (early, claimed) := ClaimStep(db, p.eventId, ledgerFails);
    if early.Some? then (early.value, claimed)
    else if p.transactionId == "" then (NotSettled("missing_transactionId"), claimed)
    else
      var (failed, txs) := TransactionRepository.MarkAsFailed(claimed.txs, p.transactionId, p.reason, p.provider, now);
      match failed
      case None => (AlreadyProcessed, claimed)
      case Some(tx) => (Settled(tx), claimed.(txs := txs))
  }

  /**
   * The two transactional success handlers differ only in the user update:
   * outcome, transactions, subscriptions and event log always agree.
   */
  lemma SuccessVariantsAgreeOutsideUsers(db: Db, p: Payload, ledgerFails: bool, now: int)
    ensures var (o1, d1) := HandlePaymentSuccess(db, p, ledgerFails, now);
            var (o2, d2) := PaymentEventService.HandlePaymentSucceeded(db, p, ledgerFails, now);
            o1 == o2 && d1.txs == d2.txs && d1.subs == d2.subs && d1.events == d2.events
  {
  }

  /**
   * They agree on users too when the payload names no other user and the
   * metadata type equals the transaction's item type.
   */
  lemma SuccessVariantsAgree(db: Db, p: Payload, ledgerFails: bool, now: int)
    requires p.transactionId in db.txs ==> p.metadata.kind == db.txs[p.transactionId].itemType
    requires p.transactionId in db.txs ==> p.userId == "" || p.userId == db.txs[p.transactionId].userId
    ensures HandlePaymentSuccess(db, p, ledgerFails, now) == PaymentEventService.HandlePaymentSucceeded(db, p, ledgerFails, now)
  {
  }

  /**
   * Without metadata the two differ: the event service falls back to the
   * transaction's item type for the history row and the song set, this one
   * records an untyped row and grants nothing.
   */
  lemma SuccessVariantsDifferWithoutMetadata(db: Db, p: Payload, now: int)
    requires p.eventId == "" && p.transactionId != "" && p.userId == "" && p.metadata == NoMetadata
    requires p.transactionId in db.txs && db.txs[p.transactionId].status != Paid
    requires db.txs[p.transactionId].itemType == "song"
    requires db.txs[p.transactionId].userId != "" && db.txs[p.transactionId].userId in db.users
    ensures var u := db.txs[p.transactionId].userId;
            var item := db.txs[p.transactionId].itemId;
            var (_, d1) := HandlePaymentSuccess(db, p, false, now);
            var (_, d2) := PaymentEventService.HandlePaymentSucceeded(db, p, false, now);
            && d1.users[u].purchasedSongs == db.users[u].purchasedSongs
            && item in d2.users[u].purchasedSongs
            && Last(d1.users[u].purchaseHistory).itemType == ""
            && Last(d2.users[u].purchaseHistory).itemType == "song"
  {
  }

  function Last(h: seq<HistoryEntry>): HistoryEntry
    requires |h| > 0
  {
    h[|h| - 1]
  }

  /** The two failure handlers are the same transition. */
  lemma FailureVariantsAgree(db: Db, p: Payload, ledgerFails: bool, now: int)
    ensures HandlePaymentFailed(db, p, ledgerFails, now) == PaymentEventService.HandlePaymentFailed(db, p, ledgerFails, now)
  {
  }
}
