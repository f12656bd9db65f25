/**
 * The account rules of the user controller: registration's duplicate check,
 * the session cap at login, logout of one session, the like toggle, genre
 * normalisation and the password-reset window.
 *
 * bcrypt and sha256 are parameters; a bcrypt hash, being salted, is passed in
 * already computed. `findOne({ email })` runs over the users in the
 * collection's natural order (`order`); an absent email is sent as null, so
 * the filter matches the first user that has no email.
 */
module Accounts {
  import opened Wrappers
  import opened Store
  import Js

  /** A login session: the bcrypt hash of the issued token and its expiry. */
  datatype Session = Session(id: string, userId: string, tokenHash: string, expiresAt: int)

  /** The account stores. */
  datatype Accounts = Accounts(users: map<string, User>, order: seq<string>, sessions: seq<Session>)

  /** The errors the controller throws. */
  datatype AccountError =
    | UserExists
    | DuplicateId
    | InvalidCredentials
    | TooManySessions
    | NoToken
    | SessionNotFound
    | UserNotFound
    | GenresNotArray
    | TokenInvalidOrExpired

  /** The session cap as the code enforces it (its message says 2). */
  const MaxSessions: nat := 4

  /** How long a login session lives. */
  const SessionMs: int := 1000 * 60 * 60 * 24 * 7

  /** How long a reset token stays valid. */
  const ResetWindowMs: int := 15 * 60 * 1000

  /** A user document with only what registration sets. */
  function NewUser(email: string, passwordHash: string): User {
    User(email, passwordHash, [], [], [], [], [], "", None)
  }

  // ---------------------------------------------------------------------
  // Lookup by email
  // ---------------------------------------------------------------------

  /** The filter `{ email }`; an absent email matches the users without one. */
  function EmailFilter(users: map<string, User>, email: string): string -> bool {
    id => id in users && users[id].email == email
  }

  /** `User.findOne({ email })`. */
  function FindByEmail(a: Accounts, email: string): (r: Option<string>)
    ensures r.Some? ==> r.value in a.users && r.value in a.order
    ensures r.Some? ==> a.users[r.value].email == email
    ensures r.None? <==> forall id :: id in a.order && id in a.users ==> a.users[id].email != email
    ensures r.None? <==> forall j :: 0 <= j < |a.order| ==> !EmailFilter(a.users, email)(a.order[j])
  {
    match FirstWhere(a.order, EmailFilter(a.users, email))
    case None => None
    case Some(i) => Some(a.order[i])
  }

  /** Every stored user is listed once in the natural order, and nothing else is. */
  ghost predicate Indexed(a: Accounts) {
    && (forall id :: id in a.users <==> id in a.order)
    && (forall i, j :: 0 <= i < j < |a.order| ==> a.order[i] != a.order[j])
  }

  /** No two users share an email. */
  ghost predicate EmailsUnique(users: map<string, User>) {
    forall x, y :: x in users && y in users && x != y ==> users[x].email != users[y].email
  }

  // ---------------------------------------------------------------------
  // registerUser
  // ---------------------------------------------------------------------

  /** `registerUser`: `newId` is the id the insert assigns; inserting an existing id is a duplicate-key error. */
  function RegisterUser(a: Accounts, email: string, passwordHash: string, newId: string): (r: Result<Accounts, AccountError>)
    // an email already on file is rejected, and nothing is created
    ensures FindByEmail(a, email).Some? ==> r == Err(UserExists)
    ensures FindByEmail(a, email).None? && newId in a.users ==> r == Err(DuplicateId)
    ensures FindByEmail(a, email).None? && newId !in a.users ==>
      r.Ok? && r.value.users == a.users[newId := NewUser(email, passwordHash)]
      && r.value.order == a.order + [newId] && r.value.sessions == a.sessions
  {
    if FindByEmail(a, email).Some? then Err(UserExists)
    else if newId in a.users then Err(DuplicateId)
    else Ok(a.(users := a.users[newId := NewUser(email, passwordHash)], order := a.order + [newId]))
  }

  /** Registration keeps emails unique and the natural order in step with the users. */
  lemma RegisterKeepsEmailsUnique(a: Accounts, email: string, passwordHash: string, newId: string)
    requires Indexed(a) && EmailsUnique(a.users)
    ensures var r := RegisterUser(a, email, passwordHash, newId);
            r.Ok? ==> Indexed(r.value) && EmailsUnique(r.value.users)
  {
    var r := RegisterUser(a, email, passwordHash, newId);
    if r.Ok? {
      assert FindByEmail(a, email).None?;
      forall id | id in a.users
        ensures a.users[id].email != email
      {
        var j :| 0 <= j < |a.order| && a.order[j] == id;
        assert !EmailFilter(a.users, email)(a.order[j]);
      }
      var b := r.value;
      forall i, j | 0 <= i < j < |b.order|
        ensures b.order[i] != b.order[j]
      {
        if j == |a.order| {
          assert b.order[i] == a.order[i];
        }
      }
    }
  }

  // ---------------------------------------------------------------------
  // loginUser / logoutUser
  // ---------------------------------------------------------------------

  /** How many sessions `userId` has. */
  function SessionCount(sessions: seq<Session>, userId: string): nat {
    CountWhere(sessions, (s: Session) => s.userId == userId)
  }

  /** Keep the sessions `p` accepts, in order. */
  function Keep(sessions: seq<Session>, p: Session -> bool): (r: seq<Session>)
    ensures |r| <= |sessions|
    ensures forall k :: 0 <= k < |r| ==> p(r[k]) && r[k] in sessions
    ensures forall s :: s in sessions && p(s) ==> s in r
  {
    if sessions == [] then []
    else if p(sessions[0]) then [sessions[0]] + Keep(sessions[1..], p)
    else Keep(sessions[1..], p)
  }

  /** `deleteMany({ userId, expiresAt: { $lt: now } })`. */
  function PruneUser(sessions: seq<Session>, userId: string, now: int): (r: seq<Session>)
    ensures forall s :: s in r <==> s in sessions && !(s.userId == userId && s.expiresAt < now)
  {
    Keep(sessions, (s: Session) => !(s.userId == userId && s.expiresAt < now))
  }

  /**
   * `loginUser`. `passwordMatches` is the bcrypt comparison of the submitted
   * password with the stored hash (or the dummy hash, for no user);
   * `sessionId` and `tokenHash` are the new session's id and hashed token.
   */
  function Login(a: Accounts, email: string, passwordMatches: string -> bool, sessionId: string, tokenHash: string,
                 now: int): (r: (Result<Session, AccountError>, Accounts))
    ensures r.1.users == a.users && r.1.order == a.order
    // wrong credentials change nothing
    ensures FindByEmail(a, email).None? ==> r == (Err(InvalidCredentials), a)
    ensures FindByEmail(a, email).Some? && !passwordMatches(a.users[FindByEmail(a, email).value].password) ==>
      r == (Err(InvalidCredentials), a)
    ensures FindByEmail(a, email).Some? && passwordMatches(a.users[FindByEmail(a, email).value].password) ==>
      var uid := FindByEmail(a, email).value;
      var pruned := PruneUser(a.sessions, uid, now);
      // expired sessions go first, even when the login is then refused
      && (SessionCount(pruned, uid) >= MaxSessions ==> r == (Err(TooManySessions), a.(sessions := pruned)))
      && (SessionCount(pruned, uid) < MaxSessions ==>
            && r.0 == Ok(Session(sessionId, uid, tokenHash, now + SessionMs))
            && r.1.sessions == pruned + [r.0.value])
  {
    match FindByEmail(a, email)
    case None => (Err(InvalidCredentials), a)
    case Some(uid) =>
      if !passwordMatches(a.users[uid].password) then (Err(InvalidCredentials), a)
      else
        var pruned := PruneUser(a.sessions, uid, now);
        if SessionCount(pruned, uid) >= MaxSessions then (Err(TooManySessions), a.(sessions := pruned))
        else
          var s := Session(sessionId, uid, tokenHash, now + SessionMs);
          (Ok(s), a.(sessions := pruned + [s]))
  }

  /** After a successful login the user has at most four sessions, none of them expired. */
  lemma LoginRespectsCap(a: Accounts, email: string, passwordMatches: string -> bool, sessionId: string,
                         tokenHash: string, now: int)
    ensures var (res, after) := Login(a, email, passwordMatches, sessionId, tokenHash, now);
            res.Ok? ==>
              && SessionCount(after.sessions, res.value.userId) <= MaxSessions
              && forall s :: s in after.sessions && s.userId == res.value.userId ==> s.expiresAt >= now
  {
    var (res, after) := Login(a, email, passwordMatches, sessionId, tokenHash, now);
    if res.Ok? {
      var uid := res.value.userId;
      var pruned := PruneUser(a.sessions, uid, now);
      CountAppend(pruned, res.value, (s: Session) => s.userId == uid);
    }
  }

  /** `deleteMany({ expiresAt: { $lt: now } })`, for every user. */
  function PruneAll(sessions: seq<Session>, now: int): (r: seq<Session>)
    ensures forall s :: s in r <==> s in sessions && s.expiresAt >= now
  {
    Keep(sessions, (s: Session) => s.expiresAt >= now)
  }

  /** The session-filter of logout: the user's session whose hash the token matches. */
  function LogoutFilter(userId: string, tokenMatches: string -> bool): Session -> bool {
    (s: Session) => s.userId == userId && tokenMatches(s.tokenHash)
  }

  /** Delete the element at `i`. */
  function RemoveAt(s: seq<Session>, i: nat): (r: seq<Session>)
    requires i < |s|
    ensures |r| == |s| - 1
    ensures r == s[..i] + s[i + 1..]
  {
    s[..i] + s[i + 1..]
  }

  /**
   * `logoutUser`. `rawToken` is the cookie or bearer token; `tokenMatches`
   * is the bcrypt comparison of that token with a stored hash.
   */
  function Logout(sessions: seq<Session>, userId: string, rawToken: string, tokenMatches: string -> bool, now: int)
    : (r: (Result<Session, AccountError>, seq<Session>))
    ensures rawToken == "" ==> r == (Err(NoToken), sessions)
    ensures rawToken != "" ==>
      var live := PruneAll(sessions, now);
      match FirstWhere(live, LogoutFilter(userId, tokenMatches))
      // no match: an error, though the expired sessions of everyone are gone
      case None => r == (Err(SessionNotFound), live)
      // exactly the first matching session goes
      case Some(i) => r.0 == Ok(live[i]) && r.1 == RemoveAt(live, i)
  {
    if rawToken == "" then (Err(NoToken), sessions)
    else
      var live := PruneAll(sessions, now);
      match FirstWhere(live, LogoutFilter(userId, tokenMatches))
      case None => (Err(SessionNotFound), live)
      case Some(i) => (Ok(live[i]), RemoveAt(live, i))
  }

  /** A successful logout removes one session of that user and no other session. */
  lemma LogoutRemovesOne(sessions: seq<Session>, userId: string, rawToken: string, tokenMatches: string -> bool, now: int)
    ensures var (res, after) := Logout(sessions, userId, rawToken, tokenMatches, now);
            res.Ok? ==>
              && |after| == |PruneAll(sessions, now)| - 1
              && res.value.userId == userId && tokenMatches(res.value.tokenHash)
              && SessionCount(after, userId) == SessionCount(PruneAll(sessions, now), userId) - 1
  {
    var (res, after) := Logout(sessions, userId, rawToken, tokenMatches, now);
    if res.Ok? {
      var live := PruneAll(sessions, now);
      var i := FirstWhere(live, LogoutFilter(userId, tokenMatches)).value;
      CountRemove(live, i, (s: Session) => s.userId == userId);
    }
  }

  /** Removing an element lowers the count by one exactly when it matched. */
  lemma {:induction false} CountRemove<T>(s: seq<T>, i: nat, p: T -> bool)
    requires i < |s|
    ensures CountWhere(s[..i] + s[i + 1..], p) == CountWhere(s, p) - (if p(s[i]) then 1 else 0)
  {
    if i == 0 {
      assert s[..0] + s[1..] == s[1..];
    } else {
      assert (s[..i] + s[i + 1..])[0] == s[0];
      assert (s[..i] + s[i + 1..])[1..] == s[1..][..i - 1] + s[1..][i..];
      CountRemove(s[1..], i - 1, p);
    }
  }

  // ---------------------------------------------------------------------
  // likeSong / updatePreferredGenres
  // ---------------------------------------------------------------------

  /** `likeSong`: toggles membership; the result is whether the song is now liked. */
  function LikeSong(users: map<string, User>, userId: string, songId: string): (r: Result<(bool, map<string, User>), AccountError>)
    ensures userId !in users ==> r == Err(UserNotFound)
    ensures userId in users ==> r.Ok? && r.value.1.Keys == users.Keys
    ensures userId in users ==>
      && r.value.1 == users[userId := users[userId].(likedSongs := r.value.1[userId].likedSongs)]
      // liked iff it was not liked before, and the reply tells the new state
      && r.value.0 == (songId !in users[userId].likedSongs)
      && (r.value.0 <==> songId in r.value.1[userId].likedSongs)
      // no other song changes state
      && forall x :: x != songId ==> (x in r.value.1[userId].likedSongs <==> x in users[userId].likedSongs)
  {
    if userId !in users then Err(UserNotFound)
    else
      var u := users[userId];
      if songId in u.likedSongs then Ok((false, users[userId := u.(likedSongs := Pull(u.likedSongs, songId))]))
      else Ok((true, users[userId := u.(likedSongs := u.likedSongs + [songId])]))
  }

  /** Liking twice restores which songs are liked. */
  lemma LikeTwiceRestores(users: map<string, User>, userId: string, songId: string)
    requires userId in users
    ensures var once := LikeSong(users, userId, songId).value.1;
            var twice := LikeSong(once, userId, songId).value.1;
            forall x :: x in twice[userId].likedSongs <==> x in users[userId].likedSongs
  {
  }

  /** One genre as stored: trimmed, then lower-cased. */
  function NormalizeGenre(g: string): (r: string)
    ensures |r| <= |g|
    ensures r == [] || (!Js.IsSpace(r[0]) && !Js.IsSpace(r[|r| - 1]))
    ensures forall k :: 0 <= k < |r| ==> !('A' <= r[k] <= 'Z')
  {
    var t := Js.Trim(g);
    var l := Js.Lower(t);
    LowerKeepsSpaces(t);
    l
  }

  /** Lower-casing changes no character's white-space status. */
  lemma LowerKeepsSpaces(s: string)
    ensures forall k :: 0 <= k < |s| ==> Js.IsSpace(Js.Lower(s)[k]) == Js.IsSpace(s[k])
  {
  }

  /** A stored genre is already normal. */
  lemma NormalizeGenreIdempotent(g: string)
    ensures NormalizeGenre(NormalizeGenre(g)) == NormalizeGenre(g)
  {
    var n := NormalizeGenre(g);
    Js.TrimOfTrimmed(n);
    Js.LowerIdempotent(Js.Trim(g));
  }

  /** `genres.map(g => g.trim().toLowerCase())`. */
  function NormalizeGenres(genres: seq<string>): (r: seq<string>)
    ensures |r| == |genres|
    ensures forall i :: 0 <= i < |r| ==> r[i] == NormalizeGenre(genres[i])
  {
    if genres == [] then [] else [NormalizeGenre(genres[0])] + NormalizeGenres(genres[1..])
  }

  /** `updatePreferredGenres`: a non-array is rejected before the user is looked up. */
  function UpdatePreferredGenres(users: map<string, User>, userId: string, genres: Js.Value)
    : (r: Result<map<string, User>, AccountError>)
    ensures !genres.Arr? ==> r == Err(GenresNotArray)
    ensures genres.Arr? && userId !in users ==> r == Err(UserNotFound)
    ensures genres.Arr? && userId in users ==> r.Ok? && r.value.Keys == users.Keys
    ensures genres.Arr? && userId in users ==>
      && r.value == users[userId := users[userId].(preferredGenres := r.value[userId].preferredGenres)]
      // same length and order, each element normalised
      && |r.value[userId].preferredGenres| == |genres.items|
      && forall i :: 0 <= i < |genres.items| ==>
           r.value[userId].preferredGenres[i] == NormalizeGenre(genres.items[i])
  {
    if !genres.Arr? then Err(GenresNotArray)
    else if userId !in users then Err(UserNotFound)
    else Ok(users[userId := users[userId].(preferredGenres := NormalizeGenres(genres.items))])
  }

  /** Submitting the stored genres again stores the same list. */
  lemma UpdatePreferredGenresIdempotent(users: map<string, User>, userId: string, genres: seq<string>)
    requires userId in users
    ensures var once := UpdatePreferredGenres(users, userId, Js.Arr(genres)).value;
            var again := UpdatePreferredGenres(once, userId, Js.Arr(once[userId].preferredGenres)).value;
            again == once
  {
    var once := UpdatePreferredGenres(users, userId, Js.Arr(genres)).value;
    var stored := once[userId].preferredGenres;
    var renorm := NormalizeGenres(stored);
    forall i | 0 <= i < |stored|
      ensures renorm[i] == stored[i]
    {
      NormalizeGenreIdempotent(genres[i]);
    }
    assert renorm == stored;
  }

  // ---------------------------------------------------------------------
  // forgotPassword / resetPassword
  // ---------------------------------------------------------------------

  /**
   * `forgotPassword`: store the sha256 of a fresh token and an expiry 15
   * minutes out. `token` is the random token that would be mailed.
   */
  function ForgotPassword(a: Accounts, email: string, token: string, sha256: string -> string, now: int)
    : (r: Result<Accounts, AccountError>)
    ensures FindByEmail(a, email).None? ==> r == Err(UserNotFound)
    ensures FindByEmail(a, email).Some? ==>
      var uid := FindByEmail(a, email).value;
      r == Ok(a.(users := a.users[uid := a.users[uid].(resetPasswordToken := sha256(token),
                                                        resetPasswordExpire := Some(now + ResetWindowMs))]))
  {
    match FindByEmail(a, email)
    case None => Err(UserNotFound)
    case Some(uid) =>
      Ok(a.(users := a.users[uid := a.users[uid].(resetPasswordToken := sha256(token),
                                                  resetPasswordExpire := Some(now + ResetWindowMs))]))
  }

  /** The filter `{ resetPasswordToken: hash, resetPasswordExpire: { $gt: now } }`. */
  function ResetFilter(users: map<string, User>, hash: string, now: int): string -> bool {
    id => id in users && users[id].resetPasswordToken == hash
          && users[id].resetPasswordExpire.Some? && users[id].resetPasswordExpire.value > now
  }

  /** `resetPassword`: `passwordHash` is the bcrypt hash of the new password. */
  function ResetPassword(a: Accounts, token: string, passwordHash: string, sha256: string -> string, now: int)
    : (r: Result<Accounts, AccountError>)
    ensures r.Err? <==> forall j :: 0 <= j < |a.order| ==> !ResetFilter(a.users, sha256(token), now)(a.order[j])
    ensures r.Err? ==> r.error == TokenInvalidOrExpired
    ensures r.Ok? ==>
      exists uid :: uid in a.users && ResetFilter(a.users, sha256(token), now)(uid)
        && r.value == a.(users := a.users[uid := a.users[uid].(password := passwordHash, resetPasswordToken := "",
                                                                resetPasswordExpire := None)])
  {
    match FirstWhere(a.order, ResetFilter(a.users, sha256(token), now))
    case None => Err(TokenInvalidOrExpired)
    case Some(i) =>
      var uid := a.order[i];
      Ok(a.(users := a.users[uid := a.users[uid].(password := passwordHash, resetPasswordToken := "",
                                                  resetPasswordExpire := None)]))
  }

  /** Once the only holder of a reset hash has used it, nobody holds it. */
  lemma NoHolderAfterReset(users: map<string, User>, uid: string, hash: string, now: int, passwordHash: string)
    requires uid in users
    requires forall id :: id in users && id != uid ==> users[id].resetPasswordToken != hash
    ensures var after := users[uid := users[uid].(password := passwordHash, resetPasswordToken := "",
                                                  resetPasswordExpire := None)];
            forall id :: !ResetFilter(after, hash, now)(id)
  {
  }

  /**
   * When exactly one user holds the reset hash, with expiry `expire`, the
   * token resets the password at `now` exactly when `now < expire`, and a
   * second use fails.
   */
  lemma ResetSingleHolder(a: Accounts, uid: string, token: string, sha256: string -> string, expire: int,
                          now: int, passwordHash: string)
    requires uid in a.users && uid in a.order
    requires a.users[uid].resetPasswordToken == sha256(token)
    requires a.users[uid].resetPasswordExpire == Some(expire)
    requires forall id :: id in a.users && id != uid ==> a.users[id].resetPasswordToken != sha256(token)
    ensures var reset := ResetPassword(a, token, passwordHash, sha256, now);
            && (reset.Ok? <==> now < expire)
            && (reset.Ok? ==> ResetPassword(reset.value, token, passwordHash, sha256, now).Err?)
  {
    var hash := sha256(token);
    var p := ResetFilter(a.users, hash, now);
    var k :| 0 <= k < |a.order| && a.order[k] == uid;
    var reset := ResetPassword(a, token, passwordHash, sha256, now);
    if now < expire {
      assert p(a.order[k]);
      var u2 :| u2 in a.users && p(u2)
        && reset.value == a.(users := a.users[u2 := a.users[u2].(password := passwordHash,
                               resetPasswordToken := "", resetPasswordExpire := None)]);
      assert u2 == uid;
      NoHolderAfterReset(a.users, uid, hash, now, passwordHash);
    } else {
      assert forall id :: !p(id);
    }
  }

  /**
   * The reset window: after a reset request at `t`, the token resets the
   * password at `t'` exactly when `t' < t + 15 minutes`, and only once.
   */
  lemma ResetWindow(a: Accounts, email: string, token: string, sha256: string -> string, t: int, t': int,
                    passwordHash: string)
    requires Indexed(a) && FindByEmail(a, email).Some?
    requires forall id :: id in a.users && id != FindByEmail(a, email).value ==>
               a.users[id].resetPasswordToken != sha256(token)
    ensures var asked := ForgotPassword(a, email, token, sha256, t).value;
            var reset := ResetPassword(asked, token, passwordHash, sha256, t');
            && (reset.Ok? <==> t' < t + ResetWindowMs)
            && (reset.Ok? ==> ResetPassword(reset.value, token, passwordHash, sha256, t').Err?)
  {
    var uid := FindByEmail(a, email).value;
    var asked := ForgotPassword(a, email, token, sha256, t).value;
    assert uid in a.order;
    assert forall id :: id in asked.users && id != uid ==> asked.users[id].resetPasswordToken != sha256(token) by {
      assert forall id :: id in asked.users && id != uid ==> asked.users[id] == a.users[id];
    }
    ResetSingleHolder(asked, uid, token, sha256, t + ResetWindowMs, t', passwordHash);
  }
}
