/**
 * The idempotency claim (`claimEvent`): a unique insert into the webhook
 * event log. A duplicate key means the event was already processed; any
 * other database error is rethrown to the caller.
 */
module Ledger {

  /** What a claim attempt reports. */
  datatype Claim = Claimed | Duplicate | StorageError

  /**
   * Claims `eventId` in `events`. `insertFails` stands for the database
   * reporting an error other than a duplicate key.
   */
  function ClaimEvent(events: set<string>, eventId: string, insertFails: bool): (r: (Claim, set<string>))
    // no event id: no idempotency, nothing is recorded
    ensures eventId == "" ==> r == (Claimed, events)
    // the only id the log can gain is the claimed one, and only on success
    ensures r.1 == events || (r.0 == Claimed && r.1 == events + {eventId} && eventId !in events)
    // a claimed id is recorded afterwards
    ensures r.0 == Claimed && eventId != "" ==> eventId in r.1 && eventId !in events
    ensures eventId != "" && !insertFails ==> (r.0 == Duplicate <==> eventId in events)
    ensures eventId != "" && insertFails ==> r == (StorageError, events)
  {
    if eventId == "" then (Claimed, events)
    else if insertFails then (StorageError, events)
    else if eventId in events then (Duplicate, events)
    else (Claimed, events + {eventId})
  }

  /** Claiming an id a second time reports a duplicate and records nothing new. */
  lemma ClaimTwice(events: set<string>, eventId: string)
    requires eventId != ""
    ensures var (first, after) := ClaimEvent(events, eventId, false);
            ClaimEvent(after, eventId, false) == (Duplicate, after)
  {
  }
}
