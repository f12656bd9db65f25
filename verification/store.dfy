/**
 * The four stores settlement works over, and the records they hold.
 *
 * - a set of claimed webhook event ids (the WebhookEventLog collection),
 * - transactions by id,
 * - users by id (purchase sets, purchase history and account fields),
 * - subscriptions, in the collection's natural order.
 *
 * Subscriptions are a sequence rather than a map keyed by (userId, artistId)
 * because only some writers upsert on that pair: the event subscribers insert
 * blindly, and `findOneAndUpdate` picks the first record that matches.
 *
 * Time is an integer number of milliseconds; every `new Date()` of the source
 * is the `now` parameter of the operation that performs it.
 */
module Store {
  import opened Wrappers

  /** Milliseconds in a day, as the source spells it: 24 * 60 * 60 * 1000. */
  const DayMs: int := 24 * 60 * 60 * 1000

  /** The optimistic subscription period used when the provider gives none. */
  const DefaultPeriodMs: int := 30 * DayMs

  /** Transaction status. `Success` is the string "success" the event subscribers write. */
  datatype Status = Pending | Paid | Failed | Refunded | Success

  /**
   * The two fields of a provider payload that settlement reads, in seconds:
   * Stripe's `current_period_end` and Razorpay's
   * `payload.subscription.entity.current_end`. 0 stands for absent, which is
   * also what JavaScript treats as false.
   */
  datatype Raw = Raw(currentPeriodEnd: int, subscriptionCurrentEnd: int)

  const NoRaw := Raw(0, 0)

  /** Vendor-agnostic payment metadata; `kind` is the source's `metadata.type`. */
  datatype Metadata = Metadata(kind: string, itemId: string, artistId: string, externalSubscriptionId: string)

  const NoMetadata := Metadata("", "", "", "")

  /** The `metadata` sub-document the legacy service reads from a transaction. */
  datatype LegacyMeta = LegacyMeta(
    cycle: string,
    externalSubscriptionId: string,
    razorpaySubscriptionId: string,
    paypalSubscriptionId: string)

  /** One payment attempt. */
  datatype Transaction = Transaction(
    id: string,
    userId: string,
    itemType: string,
    itemId: string,
    artistId: string,
    amount: int,
    currency: string,
    provider: string,
    gateway: string,
    status: Status,
    paidAt: Option<int>,
    failedAt: Option<int>,
    refundedAt: Option<int>,
    failureReason: string,
    providerPayload: Option<Raw>,
    stripeSubscriptionId: string,
    razorpaySubscriptionId: string,
    paymentIntentId: string,
    razorpayOrderId: string,
    paymentId: string,
    paypalOrderId: string,
    metadata: LegacyMeta)

  /** One row of a user's purchase history, by the writer that appends it. */
  datatype HistoryEntry =
    | Purchase(itemType: string, itemId: string, price: int, paymentReference: string, provider: string, createdAt: int)
    | Refund(itemType: string, itemId: string, price: int, refundForTransaction: string, provider: string, createdAt: int)
    | LegacyPurchase(itemType: string, itemId: string, price: int, currency: string, paymentId: string)

  /** A user document: entitlements, history and the account fields. */
  datatype User = User(
    email: string,
    password: string,
    purchasedSongs: seq<string>,
    purchasedAlbums: seq<string>,
    purchaseHistory: seq<HistoryEntry>,
    likedSongs: seq<string>,
    preferredGenres: seq<string>,
    resetPasswordToken: string,
    resetPasswordExpire: Option<int>)

  /** Subscription status; `Unset` is a record inserted without one. */
  datatype SubStatus = Active | Cancelled | Unset

  /** One (user, artist) access record. */
  datatype Subscription = Subscription(
    userId: string,
    artistId: string,
    status: SubStatus,
    validUntil: int,
    gateway: string,
    externalSubscriptionId: string,
    transactionId: string,
    createdAt: Option<int>,
    cancelledAt: Option<int>)

  /** Everything settlement reads and writes. */
  datatype Db = Db(
    events: set<string>,
    txs: map<string, Transaction>,
    users: map<string, User>,
    subs: seq<Subscription>)

  // ---------------------------------------------------------------------
  // Array operators
  // ---------------------------------------------------------------------

  /** `$addToSet`, or `includes` followed by `push`: append `x` unless present. */
  function AddToSet(xs: seq<string>, x: string): (r: seq<string>)
    ensures x in r
    ensures forall y :: y in xs ==> y in r
    ensures forall y :: y in r ==> y in xs || y == x
    ensures x in xs ==> r == xs
  {
    if x in xs then xs else xs + [x]
  }

  /** `$pull`, or `filter(id => !id.equals(x))`: drop every occurrence of `x`. */
  function Pull(xs: seq<string>, x: string): (r: seq<string>)
    ensures x !in r
    ensures forall y :: y in r <==> y in xs && y != x
    ensures |r| <= |xs|
  {
    if xs == [] then []
    else if xs[0] == x then Pull(xs[1..], x)
    else [xs[0]] + Pull(xs[1..], x)
  }

  /** Occurrences of `x` in `xs`. */
  function Occurrences(xs: seq<string>, x: string): nat {
    if xs == [] then 0 else (if xs[0] == x then 1 else 0) + Occurrences(xs[1..], x)
  }

  /** Appending adds exactly one occurrence of what was appended. */
  lemma {:induction false} OccurrencesAppend(xs: seq<string>, x: string)
    ensures Occurrences(xs + [x], x) == Occurrences(xs, x) + 1
  {
    if xs != [] {
      assert (xs + [x])[1..] == xs[1..] + [x];
      OccurrencesAppend(xs[1..], x);
    } else {
      assert [x][1..] == [];
    }
  }

  // ---------------------------------------------------------------------
  // First match and counting in a collection
  // ---------------------------------------------------------------------

  /** `findOne`: the position of the first element satisfying `p`. */
  function FirstWhere<T>(s: seq<T>, p: T -> bool): (r: Option<nat>)
    ensures r.Some? ==> r.value < |s| && p(s[r.value])
    ensures r.Some? ==> forall j :: 0 <= j < r.value ==> !p(s[j])
    ensures r.None? ==> forall j :: 0 <= j < |s| ==> !p(s[j])
  {
    if s == [] then None
    else if p(s[0]) then Some(0)
    else match FirstWhere(s[1..], p)
      case None => None
      case Some(k) => Some(k + 1)
  }

  /** Overwriting the first match with another match keeps it the first match. */
  lemma FirstWhereReplace<T>(s: seq<T>, i: nat, x: T, p: T -> bool)
    requires FirstWhere(s, p) == Some(i) && p(x)
    ensures FirstWhere(s[i := x], p) == Some(i)
  {
    var s' := s[i := x];
    assert p(s'[i]);
    assert forall j :: 0 <= j < i ==> s'[j] == s[j];
  }

  /** Appending a match to a collection without one makes it the first match. */
  lemma FirstWhereAppend<T>(s: seq<T>, x: T, p: T -> bool)
    requires FirstWhere(s, p).None? && p(x)
    ensures FirstWhere(s + [x], p) == Some(|s|)
  {
    var s' := s + [x];
    assert p(s'[|s|]);
    assert forall j :: 0 <= j < |s| ==> s'[j] == s[j];
  }

  /** `countDocuments`: how many elements satisfy `p`. */
  function CountWhere<T>(s: seq<T>, p: T -> bool): nat {
    if s == [] then 0 else (if p(s[0]) then 1 else 0) + CountWhere(s[1..], p)
  }

  /** Nothing matches exactly when the count is zero. */
  lemma {:induction false} CountZero<T>(s: seq<T>, p: T -> bool)
    ensures CountWhere(s, p) == 0 <==> forall j :: 0 <= j < |s| ==> !p(s[j])
  {
    if s != [] {
      CountZero(s[1..], p);
      assert forall j :: 1 <= j < |s| ==> s[j] == s[1..][j - 1];
    }
  }

  /** Appending one element adds one to the count iff it matches. */
  lemma {:induction false} CountAppend<T>(s: seq<T>, x: T, p: T -> bool)
    ensures CountWhere(s + [x], p) == CountWhere(s, p) + (if p(x) then 1 else 0)
  {
    if s == [] {
      assert [x][1..] == [];
    } else {
      assert (s + [x])[1..] == s[1..] + [x];
      CountAppend(s[1..], x, p);
    }
  }

  /** Replacing a matching element by a matching element keeps the count. */
  lemma {:induction false} CountReplace<T>(s: seq<T>, i: nat, x: T, p: T -> bool)
    requires i < |s|
    requires p(s[i]) == p(x)
    ensures CountWhere(s[i := x], p) == CountWhere(s, p)
  {
    if i > 0 {
      assert s[i := x][1..] == s[1..][i - 1 := x];
      CountReplace(s[1..], i - 1, x, p);
    } else {
      assert s[i := x][1..] == s[1..];
    }
  }

  /** A matching element counts. */
  lemma {:induction false} CountPositive<T>(s: seq<T>, i: nat, p: T -> bool)
    requires i < |s| && p(s[i])
    ensures CountWhere(s, p) >= 1
  {
    if i > 0 {
      CountPositive(s[1..], i - 1, p);
    }
  }
}
