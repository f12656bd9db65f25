/**
 * Vocabulary shared by the two transactional settlement services: the
 * normalized webhook payload, what a handler returns, the idempotency step
 * that runs before the database session, and the subscription rules both
 * services apply the same way.
 */
module Settlement {
  import opened Wrappers
  import opened Store
  import Js
  import Ledger

  /**
   * The normalized payload. Each handler reads only some of the fields:
   * eventId, transactionId, userId, metadata, provider and raw for a payment;
   * reason for a failure; itemId and itemType for a refund; artistId and
   * externalSubscriptionId for a cancellation.
   */
  datatype Payload = Payload(
    eventId: string,
    transactionId: string,
    userId: string,
    metadata: Metadata,
    provider: string,
    raw: Raw,
    reason: string,
    itemId: string,
    itemType: string,
    artistId: string,
    externalSubscriptionId: string)

  /** Why a handler threw. */
  datatype Failure = MissingTransactionId | LedgerError

  /** What a handler returns, or the error it throws. */
  datatype Outcome =
    | Settled(tx: Transaction)                           // { ok: true, transaction }
    | Acknowledged                                       // { ok: true }
    | CancelledSubscription(sub: Option<Subscription>)   // { ok: true, subscription }
    | AlreadyProcessed                                   // { alreadyProcessed: true }
    | NotSettled(reason: string)                         // { ok: false, reason }
    | Threw(error: Failure)

  /** The claim lets the handler go on: there is no event id, or the log accepted a new one. */
  predicate Proceeds(events: set<string>, eventId: string, ledgerFails: bool) {
    eventId == "" || (!ledgerFails && eventId !in events)
  }

  /** The event log once `eventId` has been claimed. */
  function WithClaim(events: set<string>, eventId: string): set<string> {
    if eventId == "" then events else events + {eventId}
  }

  /**
   * The claim that opens every handler, outside any database session. It
   * either ends the handler (already processed, or the ledger error
   * rethrown) with nothing changed, or lets it go on with the claim recorded.
   */
  function ClaimStep(db: Db, eventId: string, ledgerFails: bool): (r: (Option<Outcome>, Db))
    ensures r.0.None? <==> Proceeds(db.events, eventId, ledgerFails)
    ensures r.0.None? ==> r.1 == db.(events := WithClaim(db.events, eventId))
    ensures r.0.Some? ==> r.1 == db
    ensures r.0.Some? ==> r.0.value == if ledgerFails then Threw(LedgerError) else AlreadyProcessed
  {
    var (claim, events) := Ledger.ClaimEvent(db.events, eventId, ledgerFails);
    match claim
    case Claimed => (None, db.(events := events))
    case Duplicate => (Some(AlreadyProcessed), db)
    case StorageError => (Some(Threw(LedgerError)), db)
  }

  /**
   * The end of the paid-for period: the provider's period end (seconds, so
   * times 1000) when the payload carries one for that provider, else now
   * plus 30 days.
   */
  function PeriodEnd(provider: string, raw: Raw, now: int): (v: int)
    // a period the named provider states is honoured, in whole seconds
    ensures provider == "stripe" && raw.currentPeriodEnd != 0 ==> v == raw.currentPeriodEnd * 1000
    ensures provider == "razorpay" && raw.subscriptionCurrentEnd != 0 ==> v == raw.subscriptionCurrentEnd * 1000
    // any other provider gets exactly 30 days, whatever the payload says
    ensures provider != "stripe" && provider != "razorpay" ==> v == now + DefaultPeriodMs
    // the end is a stated provider period or 30 days from now, never anything else
    ensures v == now + DefaultPeriodMs || (v % 1000 == 0 && v / 1000 in {raw.currentPeriodEnd, raw.subscriptionCurrentEnd})
  {
    if provider == "stripe" && raw.currentPeriodEnd != 0 then raw.currentPeriodEnd * 1000
    else if provider == "razorpay" && raw.subscriptionCurrentEnd != 0 then raw.subscriptionCurrentEnd * 1000
    else now + DefaultPeriodMs
  }

  /** Only the named provider's own field is read: the other provider's period is ignored. */
  lemma PeriodEndReadsOwnField(provider: string, raw: Raw, raw': Raw, now: int)
    requires provider == "stripe" ==> raw'.currentPeriodEnd == raw.currentPeriodEnd
    requires provider == "razorpay" ==> raw'.subscriptionCurrentEnd == raw.subscriptionCurrentEnd
    ensures PeriodEnd(provider, raw, now) == PeriodEnd(provider, raw', now)
    ensures provider == "stripe" && raw.currentPeriodEnd == 0 ==> PeriodEnd(provider, raw, now) == now + DefaultPeriodMs
  {
  }

  /** The payment is for an artist subscription, by metadata or by the transaction. */
  predicate IsSubscription(metadata: Metadata, tx: Transaction) {
    metadata.kind == "artist-subscription" || tx.itemType == "artist-subscription"
  }

  /** `metadata.artistId || tx.artistId || metadata.itemId || tx.itemId`. */
  function SubscribedArtist(metadata: Metadata, tx: Transaction): string {
    Js.Or(metadata.artistId, Js.Or(tx.artistId, Js.Or(metadata.itemId, tx.itemId)))
  }

  /** `metadata.externalSubscriptionId || tx.stripeSubscriptionId || tx.razorpaySubscriptionId`. */
  function ExternalSubscriptionId(metadata: Metadata, tx: Transaction): string {
    Js.Or(metadata.externalSubscriptionId, Js.Or(tx.stripeSubscriptionId, tx.razorpaySubscriptionId))
  }
}
