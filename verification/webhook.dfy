/**
 * The webhook controller: once the provider's signature check passes, a
 * provider event name is mapped to at most one internal dispatch, and the
 * request is acknowledged. The signature checks and `JSON.parse` are
 * parameters: Stripe's `constructEvent` is an oracle returning the verified
 * event or nothing, Razorpay's HMAC-SHA256 hex digest is a function of the
 * secret and the body, and the parser returns nothing when it would throw.
 */
module Webhook {
  import opened Wrappers
  import opened Store
  import PaymentEvents

  /** The HTTP reply. */
  datatype Reply =
    | BadRequest          // 400, signature rejected
    | Received            // { received: true }
    | StatusOk            // { status: "ok" }
    | Threw               // a property read or JSON.parse threw before the reply

  /** The fields of a verified Stripe event the controller reads. */
  datatype StripeEvent = StripeEvent(
    kind: string,                 // event.type
    transactionId: string,        // data.object.metadata.transactionId
    userId: string,               // data.object.metadata.userId
    metadataJson: string)         // data.object.metadata.metadata

  /** `stripeWebhook`: the reply and the dispatches appended to `log`. */
  function StripeWebhook(constructEvent: (string, string, string) -> Option<StripeEvent>,
                         parse: string -> Option<Metadata>,
                         rawBody: string, signature: string, secret: string, log: seq<PaymentEvents.Event>)
    : (r: (Reply, seq<PaymentEvents.Event>))
    // a rejected signature dispatches nothing
    ensures constructEvent(rawBody, signature, secret).None? ==> r == (BadRequest, log)
    // at most one dispatch, appended
    ensures |log| <= |r.1| <= |log| + 1 && r.1[..|log|] == log
    ensures constructEvent(rawBody, signature, secret).Some? ==>
      var ev := constructEvent(rawBody, signature, secret).value;
      && (ev.kind == "payment_intent.succeeded" ==>
            if parse(ev.metadataJson).Some? then
              r == (Received, log + [PaymentEvents.Event(PaymentEvents.PaymentSucceeded, ev.transactionId, ev.userId,
                                                         parse(ev.metadataJson).value)])
            else r == (Threw, log))
      && (ev.kind == "payment_intent.payment_failed" ==>
            r == (Received, log + [PaymentEvents.TxEvent(PaymentEvents.PaymentFailed, ev.transactionId)]))
      // a refund is dispatched only when the charge names its transaction
      && (ev.kind == "charge.refunded" && ev.transactionId != "" ==>
            r == (Received, log + [PaymentEvents.TxEvent(PaymentEvents.RefundIssued, ev.transactionId)]))
      && (ev.kind == "charge.refunded" && ev.transactionId == "" ==> r == (Received, log))
      // anything else is acknowledged without a dispatch
      && (ev.kind !in {"payment_intent.succeeded", "payment_intent.payment_failed", "charge.refunded"} ==>
            r == (Received, log))
  {
    match constructEvent(rawBody, signature, secret)
    case None => (BadRequest, log)
    case Some(ev) =>
      if ev.kind == "payment_intent.succeeded" then
        match parse(ev.metadataJson)
        case None => (Threw, log)
        case Some(md) => (Received, log + [PaymentEvents.Event(PaymentEvents.PaymentSucceeded, ev.transactionId, ev.userId, md)])
      else if ev.kind == "payment_intent.payment_failed" then
        (Received, log + [PaymentEvents.TxEvent(PaymentEvents.PaymentFailed, ev.transactionId)])
      else if ev.kind == "charge.refunded" && ev.transactionId != "" then
        (Received, log + [PaymentEvents.TxEvent(PaymentEvents.RefundIssued, ev.transactionId)])
      else (Received, log)
  }

  /** The notes object of a Razorpay payment entity. */
  datatype Notes = Notes(userId: string, metadataJson: string)

  /** The fields of a Razorpay webhook body the controller reads. */
  datatype RazorpayBody = RazorpayBody(
    event: string,
    paymentId: string,            // payload.payment.entity.id
    notes: Option<Notes>,         // payload.payment.entity.notes
    refundId: string)             // payload.refund.entity.id

  /** `razorpayWebhook`: `body` is `JSON.stringify(req.body)`, which the HMAC covers. */
  function RazorpayWebhook(hmac: (string, string) -> string, parse: string -> Option<Metadata>,
                           secret: string, body: string, signature: string, req: RazorpayBody,
                           log: seq<PaymentEvents.Event>)
    : (r: (Reply, seq<PaymentEvents.Event>))
    // the signature must equal the hex HMAC of the body, exactly
    ensures signature != hmac(secret, body) ==> r == (BadRequest, log)
    ensures |log| <= |r.1| <= |log| + 1 && r.1[..|log|] == log
    ensures signature == hmac(secret, body) ==>
      && (req.event == "payment.captured" && req.notes.Some? ==>
            var json := if req.notes.value.metadataJson == "" then "{}" else req.notes.value.metadataJson;
            if parse(json).Some? then
              r == (StatusOk, log + [PaymentEvents.Event(PaymentEvents.PaymentSucceeded, req.paymentId,
                                                         req.notes.value.userId, parse(json).value)])
            else r == (Threw, log))
      && (req.event == "payment.captured" && req.notes.None? ==> r == (Threw, log))
      && (req.event == "payment.failed" ==>
            r == (StatusOk, log + [PaymentEvents.TxEvent(PaymentEvents.PaymentFailed, req.paymentId)]))
      && (req.event == "refund.processed" ==>
            r == (StatusOk, log + [PaymentEvents.TxEvent(PaymentEvents.RefundIssued, req.refundId)]))
      && (req.event !in {"payment.captured", "payment.failed", "refund.processed"} ==> r == (StatusOk, log))
  {
    if signature != hmac(secret, body) then (BadRequest, log)
    else if req.event == "payment.captured" then
      match req.notes
      case None => (Threw, log)
      case Some(notes) =>
        match parse(if notes.metadataJson == "" then "{}" else notes.metadataJson)
        case None => (Threw, log)
        case Some(md) => (StatusOk, log + [PaymentEvents.Event(PaymentEvents.PaymentSucceeded, req.paymentId, notes.userId, md)])
    else if req.event == "payment.failed" then
      (StatusOk, log + [PaymentEvents.TxEvent(PaymentEvents.PaymentFailed, req.paymentId)])
    else if req.event == "refund.processed" then
      (StatusOk, log + [PaymentEvents.TxEvent(PaymentEvents.RefundIssued, req.refundId)])
    else (StatusOk, log)
  }

  /**
   * End to end: a verified Stripe failure, once the listeners react, leaves
   * an existing transaction failed whatever its status was, paid included.
   */
  lemma StripeFailureFailsTransaction(constructEvent: (string, string, string) -> Option<StripeEvent>,
                                      parse: string -> Option<Metadata>,
                                      rawBody: string, signature: string, secret: string, db: Db, now: int)
    requires constructEvent(rawBody, signature, secret).Some?
    requires constructEvent(rawBody, signature, secret).value.kind == "payment_intent.payment_failed"
    requires constructEvent(rawBody, signature, secret).value.transactionId in db.txs
    ensures var (_, log) := StripeWebhook(constructEvent, parse, rawBody, signature, secret, []);
            var id := constructEvent(rawBody, signature, secret).value.transactionId;
            && |log| == 1
            && PaymentEvents.ReactAll(db, log, now).txs[id].status == Failed
            && PaymentEvents.ReactAll(db, log, now).users == db.users
  {
    var (_, log) := StripeWebhook(constructEvent, parse, rawBody, signature, secret, []);
    PaymentEvents.Single(db, log[0], now);
    assert log == [log[0]];
  }

  /** Whatever the body says, a forged Razorpay signature changes nothing downstream. */
  lemma ForgedRazorpayChangesNothing(hmac: (string, string) -> string, parse: string -> Option<Metadata>,
                                     secret: string, body: string, signature: string, req: RazorpayBody,
                                     db: Db, now: int)
    requires signature != hmac(secret, body)
    ensures var (reply, log) := RazorpayWebhook(hmac, parse, secret, body, signature, req, []);
            reply == BadRequest && PaymentEvents.ReactAll(db, log, now) == db
  {
  }
}
