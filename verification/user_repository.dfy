/**
 * The user repository's `addPurchase`: one atomic update that appends a
 * purchase-history row and, for a song or album, adds the item to the
 * matching purchased set.
 */
module UserRepository {
  import opened Store
  import Js

  /** `b` differs from `a` at most in the entitlement fields settlement writes. */
  predicate OnlyPurchaseFieldsDiffer(a: User, b: User) {
    b == a.(purchasedSongs := b.purchasedSongs, purchasedAlbums := b.purchasedAlbums,
            purchaseHistory := b.purchaseHistory)
  }

  /** `addPurchase(userId, metadata, fallbackItemId, historyEntry)`. */
  function AddPurchase(users: map<string, User>, userId: string, metadata: Metadata, fallbackItemId: string,
                       entry: HistoryEntry): (r: map<string, User>)
    // an absent or unknown user id updates nothing (`findByIdAndUpdate(undefined)` matches no document)
    ensures userId == "" || userId !in users ==> r == users
    ensures r.Keys == users.Keys
    ensures userId != "" && userId in users ==>
      var before := users[userId];
      var after := r[userId];
      var item := Js.Or(metadata.itemId, fallbackItemId);
      && r == users[userId := after]
      && OnlyPurchaseFieldsDiffer(before, after)
      // the history always gains the entry, even when it repeats an earlier row
      && after.purchaseHistory == before.purchaseHistory + [entry]
      // set semantics for the purchased arrays, chosen by metadata.type alone
      && (metadata.kind == "song" ==>
            after.purchasedSongs == AddToSet(before.purchasedSongs, item) && after.purchasedAlbums == before.purchasedAlbums)
      && (metadata.kind == "album" ==>
            after.purchasedAlbums == AddToSet(before.purchasedAlbums, item) && after.purchasedSongs == before.purchasedSongs)
      && (metadata.kind != "song" && metadata.kind != "album" ==>
            after.purchasedSongs == before.purchasedSongs && after.purchasedAlbums == before.purchasedAlbums)
  {
    if userId == "" || userId !in users then users
    else
      var u := users[userId];
      var item := Js.Or(metadata.itemId, fallbackItemId);
      var songs := if metadata.kind == "song" then AddToSet(u.purchasedSongs, item) else u.purchasedSongs;
      var albums := if metadata.kind == "album" then AddToSet(u.purchasedAlbums, item) else u.purchasedAlbums;
      users[userId := u.(purchasedSongs := songs, purchasedAlbums := albums,
                         purchaseHistory := u.purchaseHistory + [entry])]
  }

  /** Repeating `addPurchase` leaves the purchased sets alone but appends the history row again. */
  lemma AddPurchaseTwice(users: map<string, User>, userId: string, metadata: Metadata, fallbackItemId: string,
                         entry: HistoryEntry)
    requires userId != "" && userId in users
    ensures var once := AddPurchase(users, userId, metadata, fallbackItemId, entry);
            var twice := AddPurchase(once, userId, metadata, fallbackItemId, entry);
            && twice[userId].purchasedSongs == once[userId].purchasedSongs
            && twice[userId].purchasedAlbums == once[userId].purchasedAlbums
            && twice[userId].purchaseHistory == users[userId].purchaseHistory + [entry, entry]
  {
    var once := AddPurchase(users, userId, metadata, fallbackItemId, entry);
    var twice := AddPurchase(once, userId, metadata, fallbackItemId, entry);
    assert twice[userId].purchaseHistory == once[userId].purchaseHistory + [entry];
    assert users[userId].purchaseHistory + [entry] + [entry] == users[userId].purchaseHistory + [entry, entry];
  }
}
