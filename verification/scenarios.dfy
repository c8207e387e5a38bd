/** Sequences of handler calls, proved from the handlers' contracts alone. */
module SessionScenarios {
  import opened Wrappers
  import opened Payload
  import opened UserModel
  import opened ApiResponses
  import opened AuthMiddleware
  import opened AuthController

  /** Signing out twice with the same cookie: the second call answers the
      same and changes nothing. */
  method SignoutTwice(db: UserStore, cookie: Option<string>, userAgent: UserAgent)
    returns (first: Reply, second: Reply, ghost afterFirst: map<UserId, UserRecord>)
    requires db.Valid()
    modifies db
    ensures db.Valid()
    ensures second == first && db.users == afterFirst
  {
    first := Signout(db, cookie, userAgent);
    afterFirst := db.users;
    second := Signout(db, cookie, userAgent);
  }

  /** Rotating a refresh token and then presenting the OLD cookie again from
      the same user agent: the replay is refused, but since the rotated
      `jti` is held by nobody any more, nothing is revoked — the user keeps
      the entry the rotation created. */
  method ReplayAfterRotation(db: UserStore, cookie: Option<string>, userAgent: UserAgent,
                             now: Millis, rotatedJti: Jti, replayJti: Jti)
    returns (rotated: Reply, replayed: Reply, ghost afterRotation: map<UserId, UserRecord>)
    requires db.Valid()
    requires Presented(cookie, db.crypto).Some?
    requires SessionHolders(db.users, Presented(cookie, db.crypto).value.jti, userAgent) != {}
    requires !JtiInUse(db.users, rotatedJti) && !JtiInUse(db.users, replayJti) && rotatedJti != replayJti
    modifies db
    ensures rotated.outcome.Success? && rotated.cookie.SetRefreshCookie?
    ensures replayed == Reject(401, "Invalid refresh token", ClearRefreshCookie)
    ensures db.users == afterRotation
    ensures JtiInUse(db.users, rotatedJti)
  {
    var jti := Presented(cookie, db.crypto).value.jti;
    ghost var id :| id in SessionHolders(db.users, jti, userAgent);
    rotated := RefreshToken(db, cookie, userAgent, now, rotatedJti);
    afterRotation := db.users;
    var issued := NewRefreshEntry(rotatedJti, userAgent, now);
    HasJtiAppend(Unexpired(Pull(old(db.users)[id].refreshTokens, jti), now), issued, rotatedJti);
    assert HasJti(db.users[id].refreshTokens, rotatedJti);
    assert !JtiInUse(db.users, replayJti) by {
      forall b | b in db.users ensures !HasJti(db.users[b].refreshTokens, replayJti) {
        if b == id {
          HasJtiAppend(Unexpired(Pull(old(db.users)[id].refreshTokens, jti), now), issued, replayJti);
        } else {
          assert db.users[b] == old(db.users)[b];
        }
      }
    }
    replayed := RefreshToken(db, cookie, userAgent, now, replayJti);
  }

  /** A user who signs up and then refreshes with the cookie just issued,
      from the same user agent, gets a new access token, provided the
      verifier accepts what the signer produced. */
  method SignupThenRefresh(db: UserStore, email: string, password: string, firstName: string,
                           lastName: string, userAgent: UserAgent, now: Millis, newId: UserId,
                           signupJti: Jti, refreshJti: Jti)
    returns (signedUp: Reply, refreshed: Reply)
    requires db.Valid() && RefreshCodecRoundTrips(db.crypto)
    requires EmailHolders(db.users, email) == {} && newId !in db.users
    requires !JtiInUse(db.users, signupJti) && !JtiInUse(db.users, refreshJti) && signupJti != refreshJti
    modifies db
    ensures signedUp.outcome.Success? && refreshed.outcome.Success?
    ensures refreshed.outcome.value.data == Access(GenerateAccessToken(newId, db.crypto))
    ensures newId in db.users && db.users[newId].refreshTokens == [NewRefreshEntry(refreshJti, userAgent, now)]
  {
    signedUp := Signup(db, email, password, firstName, lastName, userAgent, now, newId, signupJti);
    var cookie := GenerateRefreshToken(newId, signupJti, db.crypto).refreshToken;
    IssuedRefreshTokenVerifies(newId, signupJti, db.crypto);
    var entry := NewRefreshEntry(signupJti, userAgent, now);
    SingleEntryHolds(entry, signupJti);
    assert entry in db.users[newId].refreshTokens && entry.userAgent == userAgent;
    assert Presented(Some(cookie), db.crypto) == Some(RefreshClaims(newId, signupJti));
    assert newId in SessionHolders(db.users, signupJti, userAgent);
    assert !JtiInUse(db.users, refreshJti) by {
      forall b | b in db.users ensures !HasJti(db.users[b].refreshTokens, refreshJti) {
        if b == newId {
          SingleEntryHolds(entry, refreshJti);
        } else {
          assert db.users[b] == old(db.users)[b];
        }
      }
    }
    ghost var before := db.users;
    refreshed := RefreshToken(db, Some(cookie), userAgent, now, refreshJti);
    assert Pull(before[newId].refreshTokens, signupJti) == [];
  }

  /** The access token a handler issues for `id` passes the bearer guard
      and names `id`, provided the verifier accepts what was signed. */
  lemma IssuedAccessTokenPassesGuard(id: UserId, userId: Option<UserId>, crypto: Crypto)
    requires AccessCodecRoundTrips(crypto)
    ensures var h := Auth(Request(Some(BearerPrefix + GenerateAccessToken(id, crypto)), userId),
                          crypto.verifyAccess);
            h.nextError.None? && h.req.userId == Some(id)
  {
    var token := GenerateAccessToken(id, crypto);
    var header := BearerPrefix + token;
    assert header[..|BearerPrefix|] == BearerPrefix;
    assert header[|BearerPrefix|..] == token;
    TokenIsDetermined(header, token);
  }

  /** A user who signs up and presents the access token from the answer
      passes the guard, and `getSession` then shows that user. */
  method SignupThenGetSession(db: UserStore, email: string, password: string, firstName: string,
                              lastName: string, userAgent: UserAgent, now: Millis, newId: UserId,
                              newJti: Jti)
    returns (signedUp: Reply, guard: Handoff, session: Reply)
    requires db.Valid() && AccessCodecRoundTrips(db.crypto)
    requires EmailHolders(db.users, email) == {} && newId !in db.users && !JtiInUse(db.users, newJti)
    modifies db
    ensures signedUp.outcome.Success? && signedUp.outcome.value.data.Session?
    ensures guard.nextError.None? && guard.req.userId == Some(newId)
    ensures session.outcome.Success? && session.outcome.value.data == Profile(signedUp.outcome.value.data.user)
  {
    signedUp := Signup(db, email, password, firstName, lastName, userAgent, now, newId, newJti);
    var accessToken := signedUp.outcome.value.data.accessToken;
    IssuedAccessTokenPassesGuard(newId, None, db.crypto);
    guard := Auth(Request(Some(BearerPrefix + accessToken), None), db.crypto.verifyAccess);
    session := GetSession(db, guard.req.userId);
  }
}
