/**
 * The subscription repository: a blind insert, a lookup of an access record
 * still in its paid-for window, and the upsert keyed on (userId, artistId)
 * that settlement uses.
 */
module SubscriptionRepository {
  import opened Wrappers
  import opened Store

  /** The record belongs to the (userId, artistId) pair. */
  predicate HasKey(s: Subscription, userId: string, artistId: string) {
    s.userId == userId && s.artistId == artistId
  }

  /** The filter `{ userId, artistId }`. */
  function KeyFilter(userId: string, artistId: string): Subscription -> bool {
    s => HasKey(s, userId, artistId)
  }

  /** How many records the pair has. */
  function CountKey(subs: seq<Subscription>, userId: string, artistId: string): nat {
    CountWhere(subs, KeyFilter(userId, artistId))
  }

  /** At most one record per (userId, artistId). */
  ghost predicate UniqueKeys(subs: seq<Subscription>) {
    forall i, j :: 0 <= i < j < |subs| ==> !HasKey(subs[j], subs[i].userId, subs[i].artistId)
  }

  /** `createSubscription`: a plain insert, with no uniqueness check. */
  function CreateSubscription(subs: seq<Subscription>, s: Subscription): (r: seq<Subscription>)
    ensures |r| == |subs| + 1 && r[|subs|] == s && r[..|subs|] == subs
    ensures CountKey(r, s.userId, s.artistId) == CountKey(subs, s.userId, s.artistId) + 1
  {
    CountAppend(subs, s, KeyFilter(s.userId, s.artistId));
    subs + [s]
  }

  /** The filter `{ userId, artistId, validUntil: { $gte: now } }`. */
  function ActiveFilter(userId: string, artistId: string, now: int): Subscription -> bool {
    s => HasKey(s, userId, artistId) && s.validUntil >= now
  }

  /**
   * `findActiveSubscription`: the first record of the pair whose validUntil
   * has not passed. Status is not consulted, so a cancelled record still
   * grants access until validUntil.
   */
  function FindActiveSubscription(subs: seq<Subscription>, userId: string, artistId: string, now: int)
    : (r: Option<Subscription>)
    ensures r.Some? ==> r.value in subs && HasKey(r.value, userId, artistId) && r.value.validUntil >= now
    ensures r.None? <==> forall j :: 0 <= j < |subs| && HasKey(subs[j], userId, artistId) ==> subs[j].validUntil < now
  {
    match FirstWhere(subs, ActiveFilter(userId, artistId, now))
    case Some(i) => Some(subs[i])
    case None => None
  }

  /**
   * `upsertSubscription`: update the first record of the pair, or insert one.
   * `$set` writes status, validUntil, gateway, externalSubscriptionId and
   * transactionId; `$setOnInsert` writes createdAt only on insert.
   */
  function UpsertSubscription(subs: seq<Subscription>, userId: string, artistId: string, validUntil: int,
                              provider: string, externalSubscriptionId: string, transactionId: string, now: int)
    : (r: (Subscription, seq<Subscription>))
    ensures HasKey(r.0, userId, artistId)
    ensures r.0.status == Active && r.0.validUntil == validUntil && r.0.gateway == provider
    ensures r.0.externalSubscriptionId == externalSubscriptionId && r.0.transactionId == transactionId
    // an existing record is updated in place; createdAt and cancelledAt survive
    ensures FirstWhere(subs, KeyFilter(userId, artistId)).Some? ==>
      var i := FirstWhere(subs, KeyFilter(userId, artistId)).value;
      r.1 == subs[i := r.0] && r.0.createdAt == subs[i].createdAt && r.0.cancelledAt == subs[i].cancelledAt
    // otherwise one record is appended, stamped with createdAt
    ensures FirstWhere(subs, KeyFilter(userId, artistId)).None? ==>
      r.1 == subs + [r.0] && r.0.createdAt == Some(now) && r.0.cancelledAt == None
    // the record just written is the one a later lookup of the pair finds
    ensures FirstWhere(r.1, KeyFilter(userId, artistId)).Some?
    ensures r.1[FirstWhere(r.1, KeyFilter(userId, artistId)).value] == r.0
    // the pair ends with as many records as before, and at least one
    ensures CountKey(r.1, userId, artistId) == if CountKey(subs, userId, artistId) == 0 then 1 else CountKey(subs, userId, artistId)
  {
    var p := KeyFilter(userId, artistId);
    match FirstWhere(subs, p)
    case Some(i) =>
      var s := subs[i].(status := Active, validUntil := validUntil, gateway := provider,
                        externalSubscriptionId := externalSubscriptionId, transactionId := transactionId);
      CountReplace(subs, i, s, p);
      CountPositive(subs, i, p);
      FirstWhereReplace(subs, i, s, p);
      (s, subs[i := s])
    case None =>
      var s := Subscription(userId, artistId, Active, validUntil, provider, externalSubscriptionId, transactionId,
                            Some(now), None);
      CountZero(subs, p);
      CountAppend(subs, s, p);
      FirstWhereAppend(subs, s, p);
      (s, subs + [s])
  }

  /** Under uniqueness a pair has at most one record. */
  lemma {:induction false} UniqueCount(subs: seq<Subscription>, userId: string, artistId: string)
    requires UniqueKeys(subs)
    ensures CountKey(subs, userId, artistId) <= 1
  {
    if subs != [] {
      var p := KeyFilter(userId, artistId);
      var tail := subs[1..];
      assert UniqueKeys(tail) by {
        forall i, j | 0 <= i < j < |tail|
          ensures !HasKey(tail[j], tail[i].userId, tail[i].artistId)
        {
          assert tail[i] == subs[i + 1] && tail[j] == subs[j + 1];
        }
      }
      UniqueCount(tail, userId, artistId);
      if p(subs[0]) {
        forall j | 0 <= j < |tail|
          ensures !p(tail[j])
        {
          assert tail[j] == subs[j + 1];
        }
        CountZero(tail, p);
      }
    }
  }

  /** The upsert keeps the collection free of duplicate pairs, and leaves exactly one record for its pair. */
  lemma UpsertKeepsUnique(subs: seq<Subscription>, userId: string, artistId: string, validUntil: int,
                          provider: string, externalSubscriptionId: string, transactionId: string, now: int)
    requires UniqueKeys(subs)
    ensures var (_, after) := UpsertSubscription(subs, userId, artistId, validUntil, provider,
                                                 externalSubscriptionId, transactionId, now);
            UniqueKeys(after) && CountKey(after, userId, artistId) == 1
  {
    var (s, after) := UpsertSubscription(subs, userId, artistId, validUntil, provider,
                                         externalSubscriptionId, transactionId, now);
    var p := KeyFilter(userId, artistId);
    match FirstWhere(subs, p) {
      case Some(i) =>
        assert after == subs[i := s];
        assert HasKey(subs[i], userId, artistId);
      case None =>
        assert after == subs + [s];
        assert forall j :: 0 <= j < |subs| ==> !p(subs[j]);
    }
    UniqueCount(subs, userId, artistId);
    UniqueCount(after, userId, artistId);
  }

  /** A later upsert overwrites validUntil, even with an earlier date: access can shrink. */
  lemma UpsertOverwritesValidUntil(subs: seq<Subscription>, userId: string, artistId: string,
                                   later: int, earlier: int, provider: string, ext: string, txId: string, now: int)
    requires earlier < later
    ensures var (_, first) := UpsertSubscription(subs, userId, artistId, later, provider, ext, txId, now);
            var (second, _) := UpsertSubscription(first, userId, artistId, earlier, provider, ext, txId, now);
            second.validUntil == earlier < later
  {
  }

  /** createdAt is written once, when the record is inserted, and later upserts keep it. */
  lemma UpsertKeepsCreatedAt(subs: seq<Subscription>, userId: string, artistId: string, v1: int, v2: int,
                             provider: string, ext: string, txId: string, t1: int, t2: int)
    requires FirstWhere(subs, KeyFilter(userId, artistId)).None?
    ensures var (inserted, first) := UpsertSubscription(subs, userId, artistId, v1, provider, ext, txId, t1);
            var (updated, _) := UpsertSubscription(first, userId, artistId, v2, provider, ext, txId, t2);
            inserted.createdAt == Some(t1) && updated.createdAt == Some(t1)
  {
    var (inserted, first) := UpsertSubscription(subs, userId, artistId, v1, provider, ext, txId, t1);
    assert first[|subs|] == inserted;
    var i := FirstWhere(first, KeyFilter(userId, artistId)).value;
    assert i == |subs|;
  }
}
