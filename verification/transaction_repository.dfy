/**
 * The conditional updates of the transaction repository: each sets the target
 * status and its stamps only on a transaction whose status differs from the
 * target, and returns the updated transaction, or null when nothing matched.
 */
module TransactionRepository {
  import opened Wrappers
  import opened Store

  /** `b` differs from `a` at most in the fields `markAsPaid` sets. */
  predicate OnlyPaidFieldsDiffer(a: Transaction, b: Transaction) {
    b == a.(status := b.status, paidAt := b.paidAt, provider := b.provider, providerPayload := b.providerPayload)
  }

  /** `b` differs from `a` at most in the fields `markAsFailed` sets. */
  predicate OnlyFailedFieldsDiffer(a: Transaction, b: Transaction) {
    b == a.(status := b.status, failedAt := b.failedAt, failureReason := b.failureReason, provider := b.provider)
  }

  /** `markAsPaid`: pay transaction `id` unless it is already paid. */
  function MarkAsPaid(txs: map<string, Transaction>, id: string, provider: string, raw: Raw, now: int)
    : (r: (Option<Transaction>, map<string, Transaction>))
    // the guard is `status != paid` and nothing else: failed and refunded transactions match too
    ensures r.0.Some? <==> id in txs && txs[id].status != Paid
    ensures r.0.None? ==> r.1 == txs
    ensures r.0.Some? ==>
      && r.1 == txs[id := r.0.value]
      && r.0.value.status == Paid
      && r.0.value.paidAt == Some(now)
      && r.0.value.provider == provider
      && r.0.value.providerPayload == Some(raw)
      && OnlyPaidFieldsDiffer(txs[id], r.0.value)
  {
    if id in txs && txs[id].status != Paid then
      var tx := txs[id].(status := Paid, paidAt := Some(now), provider := provider, providerPayload := Some(raw));
      (Some(tx), txs[id := tx])
    else
      (None, txs)
  }

  /** `markAsFailed`: fail transaction `id` unless it is already failed. */
  function MarkAsFailed(txs: map<string, Transaction>, id: string, reason: string, provider: string, now: int)
    : (r: (Option<Transaction>, map<string, Transaction>))
    // the guard is `status != failed` and nothing else: a paid transaction matches too
    ensures r.0.Some? <==> id in txs && txs[id].status != Failed
    ensures r.0.None? ==> r.1 == txs
    ensures r.0.Some? ==>
      && r.1 == txs[id := r.0.value]
      && r.0.value.status == Failed
      && r.0.value.failedAt == Some(now)
      && r.0.value.failureReason == reason
      && r.0.value.provider == provider
      && OnlyFailedFieldsDiffer(txs[id], r.0.value)
  {
    if id in txs && txs[id].status != Failed then
      var tx := txs[id].(status := Failed, failedAt := Some(now), failureReason := reason, provider := provider);
      (Some(tx), txs[id := tx])
    else
      (None, txs)
  }

  /** A second `markAsPaid` matches nothing and leaves the store as the first left it. */
  lemma MarkAsPaidIdempotent(txs: map<string, Transaction>, id: string, p1: string, raw1: Raw, t1: int,
                             p2: string, raw2: Raw, t2: int)
    ensures var (_, once) := MarkAsPaid(txs, id, p1, raw1, t1);
            MarkAsPaid(once, id, p2, raw2, t2) == (None, once)
  {
  }

  /** A second `markAsFailed` matches nothing and leaves the store as the first left it. */
  lemma MarkAsFailedIdempotent(txs: map<string, Transaction>, id: string, reason1: string, p1: string, t1: int,
                               reason2: string, p2: string, t2: int)
    ensures var (_, once) := MarkAsFailed(txs, id, reason1, p1, t1);
            MarkAsFailed(once, id, reason2, p2, t2) == (None, once)
  {
  }

  /** The guards do not order the states: failed can become paid and paid can become failed. */
  lemma GuardsAllowReversal(txs: map<string, Transaction>, id: string, provider: string, raw: Raw, reason: string, now: int)
    requires id in txs && txs[id].status == Failed
    ensures var (paid, afterPaid) := MarkAsPaid(txs, id, provider, raw, now);
            && paid.Some? && afterPaid[id].status == Paid
            && var (failed, afterFailed) := MarkAsFailed(afterPaid, id, reason, provider, now);
               failed.Some? && afterFailed[id].status == Failed
  {
  }
}
