/** The session handlers (src/controllers/auth.controller.ts): signup, signin,
    signout, refresh-token rotation and session lookup, over the users
    collection. Each handler loads a document, changes its list of refresh
    entries in place and saves it, then answers with a response envelope or
    throws an error, and sets, clears or leaves the `refreshToken` cookie.

    Time (`now`), the parsed User-Agent, the new document id and the new
    `jti` (a random UUID) are inputs; the id and the `jti` are fresh. */
module AuthController {
  import opened Wrappers
  import opened Payload
  import opened ApiErrors
  import opened ApiResponses
  import opened UserModel

  /** The user fields a response shows; never the password or the list. */
  datatype PublicUser = PublicUser(id: UserId, email: string, fullName: string)

  /** The `data` of a success envelope. No variant can hold a refresh token:
      that only ever travels in the cookie. */
  datatype Data =
    | Text(text: string)
    | Session(accessToken: string, user: PublicUser)
    | Access(accessToken: string)
    | Profile(user: PublicUser)

  /** What the handler does to the `refreshToken` cookie. */
  datatype CookieAction = KeepCookie | SetRefreshCookie(token: string) | ClearRefreshCookie

  /** A handler's answer: a 200 envelope or a thrown error, and the cookie. */
  datatype Reply = Reply(outcome: Result<ApiResponse<Data>, ApiError>, cookie: CookieAction)

  function Answer(data: Data, message: string, cookie: CookieAction): Reply {
    Reply(Success(NewApiResponse(200, data, Some(message))), cookie)
  }

  function Reject(code: int, message: string, cookie: CookieAction): Reply {
    Reply(Failure(Throw(code, message)), cookie)
  }

  /** Signout's answer on every path: "Logged out" is the DATA of the
      envelope (a two-argument call), which therefore has no message. */
  function LoggedOut(cookie: CookieAction): (r: Reply)
    ensures r.outcome.Success? && r.outcome.value.statusCode == 200
    ensures r.outcome.value.data == Text("Logged out") && r.outcome.value.message.None?
    ensures r.cookie == cookie
  {
    Reply(Success(NewApiResponse(200, Text("Logged out"), None)), cookie)
  }

  function PublicView(id: UserId, rec: UserRecord): PublicUser {
    PublicUser(id, rec.email, FullName(rec.firstName, rec.lastName))
  }

  /** The claims of the presented cookie: a truthy cookie that verifies. */
  function Presented(cookie: Option<string>, crypto: Crypto): (claims: Option<RefreshClaims>)
    ensures claims.Some? ==> Truthy(cookie)
    ensures Truthy(cookie) ==> claims == crypto.verifyRefresh(cookie.value)
  {
    if Truthy(cookie) then crypto.verifyRefresh(cookie.value) else None
  }

  /** The record with its list replaced. */
  function WithTokens(rec: UserRecord, ts: seq<RefreshEntry>): UserRecord {
    rec.(refreshTokens := ts)
  }

  lemma SingleEntryHolds(e: RefreshEntry, jti: Jti)
    ensures HasJti([e], jti) <==> e.jti == jti
  {
    HasJtiAppend([], e, jti);
    assert [] + [e] == [e];
  }

  /** `signup`: refused when the email is taken; otherwise one new user,
      with the password hashed and exactly one refresh entry, whose `jti` is
      the one signed into the cookie. */
  method Signup(db: UserStore, email: string, password: string, firstName: string, lastName: string,
                userAgent: UserAgent, now: Millis, newId: UserId, newJti: Jti) returns (reply: Reply)
    requires db.Valid()
    requires newId !in db.users && !JtiInUse(db.users, newJti)
    modifies db
    ensures db.Valid()
    ensures EmailHolders(old(db.users), email) != {} ==>
              db.users == old(db.users) && reply == Reject(400, "User already exists", KeepCookie)
    ensures EmailHolders(old(db.users), email) == {} ==>
              var rec := UserRecord(email, db.crypto.hash(password), firstName, lastName,
                                    [NewRefreshEntry(newJti, userAgent, now)]);
              && db.users == old(db.users)[newId := rec]
              && reply == Answer(Session(GenerateAccessToken(newId, db.crypto), PublicView(newId, rec)),
                                 "User created successfully",
                                 SetRefreshCookie(GenerateRefreshToken(newId, newJti, db.crypto).refreshToken))
  {
    var user := db.FindOne(EmailHolders(db.users, email));
    if user != null {
      reply := Reject(400, "User already exists", KeepCookie);
      return;
    }
    var newUser := new UserDoc.Create(newId, email, password, firstName, lastName);
    var accessToken := GenerateAccessToken(newUser.id, db.crypto);
    var issued := GenerateRefreshToken(newUser.id, newJti, db.crypto);
    newUser.refreshTokens := newUser.refreshTokens + [NewRefreshEntry(issued.jti, userAgent, now)];
    assert newUser.refreshTokens == [NewRefreshEntry(newJti, userAgent, now)];
    ghost var before := db.users;
    newUser.Save(db);
    forall jti | HasJti(newUser.refreshTokens, jti) ensures !JtiInUse(before, jti) {
      SingleEntryHolds(NewRefreshEntry(newJti, userAgent, now), jti);
    }
    AddUserKeepsWellFormed(before, newId, newUser.Record());
    reply := Answer(Session(accessToken, PublicView(newUser.id, newUser.Record())),
                    "User created successfully", SetRefreshCookie(issued.refreshToken));
  }

  /** `signin`: refused, adding nothing, unless the password checks against
      the hash of the user with that email; otherwise that user's list
      becomes its live entries, in order, plus one new entry. The hash is
      left as it was. */
  method Signin(db: UserStore, email: string, password: string, userAgent: UserAgent,
                now: Millis, newJti: Jti) returns (reply: Reply)
    requires db.Valid()
    requires !JtiInUse(db.users, newJti)
    modifies db
    ensures db.Valid()
    ensures Authenticated(old(db.users), email, password, db.crypto) == {} ==>
              db.users == old(db.users) && reply == Reject(401, "Invalid email or password", KeepCookie)
    ensures forall id :: id in Authenticated(old(db.users), email, password, db.crypto) ==>
              var rec := WithTokens(old(db.users)[id],
                                    Unexpired(old(db.users)[id].refreshTokens, now) + [NewRefreshEntry(newJti, userAgent, now)]);
              && db.users == old(db.users)[id := rec]
              && reply == Answer(Session(GenerateAccessToken(id, db.crypto), PublicView(id, rec)),
                                 "User logged in successfully",
                                 SetRefreshCookie(GenerateRefreshToken(id, newJti, db.crypto).refreshToken))
  {
    var user := db.AuthenticateUser(email, password);
    if user == null {
      reply := Reject(401, "Invalid email or password", KeepCookie);
      return;
    }
    QueriesAreDeterministic(db.users, email, newJti, userAgent);
    var accessToken, refreshToken := OpenSession(db, user, userAgent, now, newJti);
    reply := Answer(Session(accessToken, PublicView(user.id, user.Record())),
                    "User logged in successfully", SetRefreshCookie(refreshToken));
  }

  /** The success branch of `signin`, on the authenticated `user`: sweep
      expired entries (saving), append one new entry, save. */
  method OpenSession(db: UserStore, user: UserDoc, userAgent: UserAgent, now: Millis, newJti: Jti)
    returns (accessToken: string, refreshToken: string)
    requires db.Valid() && !JtiInUse(db.users, newJti)
    requires user.id in db.users && user.Record() == db.users[user.id] && !user.passwordModified
    modifies db, user
    ensures db.Valid()
    ensures db.users == old(db.users)[user.id := WithTokens(old(db.users)[user.id],
              Unexpired(old(db.users)[user.id].refreshTokens, now) + [NewRefreshEntry(newJti, userAgent, now)])]
    ensures user.Record() == db.users[user.id]
    ensures accessToken == GenerateAccessToken(user.id, db.crypto)
    ensures refreshToken == GenerateRefreshToken(user.id, newJti, db.crypto).refreshToken
  {
    ghost var before := db.users;
    user.RemoveExpiredRefreshTokens(db, now);
    accessToken := GenerateAccessToken(user.id, db.crypto);
    var issued := GenerateRefreshToken(user.id, newJti, db.crypto);
    user.refreshTokens := user.refreshTokens + [NewRefreshEntry(issued.jti, userAgent, now)];
    user.Save(db);
    refreshToken := issued.refreshToken;
    SweptWithFreshEntry(before, user.id, Unexpired(before[user.id].refreshTokens, now),
                        NewRefreshEntry(newJti, userAgent, now));
    ReplaceTokensKeepsWellFormed(before, user.id, user.refreshTokens);
  }

  /** `signout`: always answers 200 and never adds an entry. Without a
      truthy cookie nothing happens; otherwise the cookie is cleared, and if
      the token verifies and some user holds its `jti` and the request's
      user agent, every entry with that `jti` is pulled from that user.
      Afterwards no user matches the token, so a second call changes nothing. */
  method Signout(db: UserStore, cookie: Option<string>, userAgent: UserAgent) returns (reply: Reply)
    requires db.Valid()
    modifies db
    ensures db.Valid()
    ensures reply == LoggedOut(if Truthy(cookie) then ClearRefreshCookie else KeepCookie)
    ensures Presented(cookie, db.crypto).None? ==> db.users == old(db.users)
    ensures Presented(cookie, db.crypto).Some? ==>
              var jti := Presented(cookie, db.crypto).value.jti;
              && (SessionHolders(old(db.users), jti, userAgent) == {} ==> db.users == old(db.users))
              && (forall id :: id in SessionHolders(old(db.users), jti, userAgent) ==>
                    db.users == old(db.users)[id := WithTokens(old(db.users)[id], Pull(old(db.users)[id].refreshTokens, jti))])
              && SessionHolders(db.users, jti, userAgent) == {}
  {
    if cookie.None? || cookie.value == "" {
      reply := LoggedOut(KeepCookie);
      return;
    }
    reply := LoggedOut(ClearRefreshCookie);
    var decoded := db.crypto.verifyRefresh(cookie.value);
    if decoded.None? {
      return;
    }
    var jti := decoded.value.jti;
    var user := db.FindOne(SessionHolders(db.users, jti, userAgent));
    if user == null {
      return;
    }
    ghost var before := db.users;
    QueriesAreDeterministic(before, "", jti, userAgent);
    user.refreshTokens := Pull(user.refreshTokens, jti);
    user.Save(db);
    ReplaceTokensKeepsWellFormed(before, user.id, user.refreshTokens);
    assert !JtiInUse(db.users, jti);
  }

  /** `refreshToken`: rotate the presented token.
      - no truthy cookie: 401, nothing changes, the cookie is left alone;
      - a token that does not verify: 401, nothing changes, cookie cleared;
      - no user holds both the `jti` and the user agent: 401, cookie cleared,
        and the user (if any) still holding the `jti` loses its whole list;
      - otherwise that user's list loses the presented `jti` and its expired
        entries and gains one new entry; no other user is touched.
      In every case where the token verified, nobody holds its `jti` after. */
  method RefreshToken(db: UserStore, cookie: Option<string>, userAgent: UserAgent,
                      now: Millis, newJti: Jti) returns (reply: Reply)
    requires db.Valid()
    requires !JtiInUse(db.users, newJti)
    modifies db
    ensures db.Valid()
    ensures !Truthy(cookie) ==>
              db.users == old(db.users) && reply == Reject(401, "Refresh token is required", KeepCookie)
    ensures Truthy(cookie) && Presented(cookie, db.crypto).None? ==>
              db.users == old(db.users) && reply == Reject(401, "Invalid refresh token", ClearRefreshCookie)
    ensures Presented(cookie, db.crypto).Some? ==>
              var jti := Presented(cookie, db.crypto).value.jti;
              && !JtiInUse(db.users, jti)
              && (SessionHolders(old(db.users), jti, userAgent) == {} ==>
                    && reply == Reject(401, "Invalid refresh token", ClearRefreshCookie)
                    && (JtiHolders(old(db.users), jti) == {} ==> db.users == old(db.users))
                    && (forall id :: id in JtiHolders(old(db.users), jti) ==>
                          db.users == old(db.users)[id := WithTokens(old(db.users)[id], [])]))
              && (forall id :: id in SessionHolders(old(db.users), jti, userAgent) ==>
                    var rec := WithTokens(old(db.users)[id],
                                          Unexpired(Pull(old(db.users)[id].refreshTokens, jti), now)
                                          + [NewRefreshEntry(newJti, userAgent, now)]);
                    && db.users == old(db.users)[id := rec]
                    && reply == Answer(Access(GenerateAccessToken(id, db.crypto)),
                                       "Refresh token refreshed successfully",
                                       SetRefreshCookie(GenerateRefreshToken(id, newJti, db.crypto).refreshToken)))
  {
    if cookie.None? || cookie.value == "" {
      reply := Reject(401, "Refresh token is required", KeepCookie);
      return;
    }
    var decoded := db.crypto.verifyRefresh(cookie.value);
    if decoded.None? {
      reply := Reject(401, "Invalid refresh token", ClearRefreshCookie);
      return;
    }
    var jti := decoded.value.jti;
    QueriesAreDeterministic(db.users, "", jti, userAgent);
    var user := db.FindOne(SessionHolders(db.users, jti, userAgent));
    if user == null {
      RevokeHolder(db, jti);
      reply := Reject(401, "Invalid refresh token", ClearRefreshCookie);
      return;
    }
    var accessToken, newRefreshToken := Rotate(db, user, jti, userAgent, now, newJti);
    reply := Answer(Access(accessToken), "Refresh token refreshed successfully",
                    SetRefreshCookie(newRefreshToken));
  }

  /** The replay branch of `refreshToken`: the user still holding `jti`, if
      any, has its whole list emptied. */
  method RevokeHolder(db: UserStore, jti: Jti)
    requires db.Valid()
    modifies db
    ensures db.Valid() && !JtiInUse(db.users, jti)
    ensures JtiHolders(old(db.users), jti) == {} ==> db.users == old(db.users)
    ensures forall id :: id in JtiHolders(old(db.users), jti) ==>
              db.users == old(db.users)[id := WithTokens(old(db.users)[id], [])]
  {
    ghost var before := db.users;
    QueriesAreDeterministic(before, "", jti, UserAgent("", ""));
    var hackedUser := db.FindOne(JtiHolders(db.users, jti));
    if hackedUser != null {
      hackedUser.refreshTokens := [];
      hackedUser.Save(db);
      ReplaceTokensKeepsWellFormed(before, hackedUser.id, []);
      forall b | b in db.users ensures !HasJti(db.users[b].refreshTokens, jti) {
        if b != hackedUser.id {
          assert b !in JtiHolders(before, jti);
        }
      }
    }
  }

  /** The success branch of `refreshToken`, on the loaded `user`: pull the
      presented `jti`, sweep expired entries, append one new entry, save. */
  method Rotate(db: UserStore, user: UserDoc, jti: Jti, userAgent: UserAgent, now: Millis, newJti: Jti)
    returns (accessToken: string, newRefreshToken: string)
    requires db.Valid() && !JtiInUse(db.users, newJti)
    requires user.id in JtiHolders(db.users, jti)
    requires user.Record() == db.users[user.id] && !user.passwordModified
    modifies db, user
    ensures db.Valid() && !JtiInUse(db.users, jti)
    ensures db.users == old(db.users)[user.id := WithTokens(old(db.users)[user.id],
              Unexpired(Pull(old(db.users)[user.id].refreshTokens, jti), now) + [NewRefreshEntry(newJti, userAgent, now)])]
    ensures accessToken == GenerateAccessToken(user.id, db.crypto)
    ensures newRefreshToken == GenerateRefreshToken(user.id, newJti, db.crypto).refreshToken
  {
    ghost var before := db.users;
    user.refreshTokens := Pull(user.refreshTokens, jti);
    user.RemoveExpiredRefreshTokens(db, now);
    accessToken := GenerateAccessToken(user.id, db.crypto);
    var issued := GenerateRefreshToken(user.id, newJti, db.crypto);
    user.refreshTokens := user.refreshTokens + [NewRefreshEntry(issued.jti, userAgent, now)];
    user.Save(db);
    newRefreshToken := issued.refreshToken;
    ghost var kept := Unexpired(Pull(before[user.id].refreshTokens, jti), now);
    SweptWithFreshEntry(before, user.id, kept, NewRefreshEntry(newJti, userAgent, now));
    ReplaceTokensKeepsWellFormed(before, user.id, user.refreshTokens);
    HasJtiAppend(kept, NewRefreshEntry(newJti, userAgent, now), jti);
    assert !HasJti(kept, jti);
    forall b | b in db.users ensures !HasJti(db.users[b].refreshTokens, jti) {
      if b != user.id {
        assert b !in JtiHolders(before, jti);
      }
    }
  }

  /** `getSession`: the public fields of the user the access token named,
      or 401 when there is no such user. Nothing changes. */
  method GetSession(db: UserStore, userId: Option<UserId>) returns (reply: Reply)
    ensures userId.None? || userId.value !in db.users ==> reply == Reject(401, "User not found", KeepCookie)
    ensures userId.Some? && userId.value in db.users ==>
              reply == Answer(Profile(PublicView(userId.value, db.users[userId.value])),
                              "User found successfully", KeepCookie)
  {
    var user := db.FindById(userId);
    if user == null {
      reply := Reject(401, "User not found", KeepCookie);
      return;
    }
    reply := Answer(Profile(PublicView(user.id, user.Record())), "User found successfully", KeepCookie);
  }
}
