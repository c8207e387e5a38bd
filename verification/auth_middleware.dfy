/** The bearer-token guard (src/middleware/auth.ts): reads the
    `Authorization` header, takes the token after a case-sensitive "Bearer "
    prefix (the scheme of section 2.1 of RFC 6750) and verifies it. */
module AuthMiddleware {
  import opened Wrappers
  import opened ApiErrors
  import opened Payload

  /** The parts of a request the guard reads and writes. */
  datatype Request = Request(authorization: Option<string>, userId: Option<UserId>)

  /** What the guard hands on: the request as it leaves, and the argument of
      its single call to `next` (an error, or nothing to go on). */
  datatype Handoff = Handoff(req: Request, nextError: Option<ApiError>)

  const BearerPrefix: string := "Bearer "

  predicate StartsWithBearer(header: Option<string>) {
    header.Some? && |header.value| >= |BearerPrefix| && header.value[..|BearerPrefix|] == BearerPrefix
  }

  /** `s.split(' ')`: the fields between single spaces, empty ones included. */
  function Split(s: string): (fields: seq<string>)
    ensures |fields| >= 1
    ensures forall i :: 0 <= i < |fields| ==> ' ' !in fields[i]
    decreases |s|
  {
    if s == [] then [""]
    else
      var rest := Split(s[1..]);
      if s[0] == ' ' then [""] + rest else [[s[0]] + rest[0]] + rest[1..]
  }

  /** `fields.join(' ')`, the inverse of Split. */
  function Join(fields: seq<string>): string
    requires |fields| >= 1
  {
    if |fields| == 1 then fields[0] else fields[0] + " " + Join(fields[1..])
  }

  lemma {:induction false} SplitNoSpace(a: string)
    requires ' ' !in a
    ensures Split(a) == [a]
    decreases |a|
  {
    if a != [] {
      assert ' ' !in a[1..] by { assert forall c :: c in a[1..] ==> c in a; }
      SplitNoSpace(a[1..]);
      assert [a[0]] + a[1..] == a;
    }
  }

  /** Splitting stops at the first space. */
  lemma {:induction false} SplitAtFirstSpace(a: string, b: string)
    requires ' ' !in a
    ensures Split(a + " " + b) == [a] + Split(b)
    decreases |a|
  {
    if a == [] {
      assert a + " " + b == [' '] + b;
      assert (a + " " + b)[1..] == b;
    } else {
      assert ' ' !in a[1..] by { assert forall c :: c in a[1..] ==> c in a; }
      SplitAtFirstSpace(a[1..], b);
      assert (a + " " + b)[1..] == a[1..] + " " + b;
      assert [a[0]] + a[1..] == a;
    }
  }

  lemma {:induction false} JoinSplit(s: string)
    ensures Join(Split(s)) == s
    decreases |s|
  {
    if s != [] {
      JoinSplit(s[1..]);
      var rest := Split(s[1..]);
      if s[0] == ' ' {
        assert Split(s)[1..] == rest;
      } else if |rest| == 1 {
        assert Join(Split(s)) == [s[0]] + rest[0];
      } else {
        assert Split(s)[1..] == rest[1..];
        assert Join(Split(s)) == [s[0]] + rest[0] + " " + Join(rest[1..]);
      }
    }
  }

  lemma {:induction false} SplitJoin(fields: seq<string>)
    requires |fields| >= 1
    requires forall i :: 0 <= i < |fields| ==> ' ' !in fields[i]
    ensures Split(Join(fields)) == fields
  {
    if |fields| == 1 {
      SplitNoSpace(fields[0]);
    } else {
      SplitJoin(fields[1..]);
      SplitAtFirstSpace(fields[0], Join(fields[1..]));
    }
  }

  /** `const [, token] = header.split(' ')`: for a header that starts with
      "Bearer ", the longest run of non-space characters after the prefix
      (empty when another space follows at once). */
  function BearerToken(header: string): (token: string)
    requires StartsWithBearer(Some(header))
    ensures var rest := header[|BearerPrefix|..];
            && ' ' !in token && token <= rest
            && (|token| == |rest| || rest[|token|] == ' ')
  {
    var fields := Split(header);
    var rest := header[|BearerPrefix|..];
    assert header == "Bearer" + " " + rest;
    SplitAtFirstSpace("Bearer", rest);
    FirstFieldIsPrefix(rest);
    if |fields| >= 2 then fields[1] else ""
  }

  lemma {:induction false} FirstFieldIsPrefix(s: string)
    ensures var f := Split(s)[0];
            f <= s && (|f| == |s| || s[|f|] == ' ')
    decreases |s|
  {
    if s != [] {
      FirstFieldIsPrefix(s[1..]);
    }
  }

  /** The guard. Every path hands on exactly once; `userId` is set only on
      the path that passes. */
  function Auth(req: Request, verifyAccess: string -> Option<AccessClaims>): (h: Handoff)
    ensures !StartsWithBearer(req.authorization) ==>
              h == Handoff(req, Some(Throw(401, "Unauthorized request")))
    ensures StartsWithBearer(req.authorization) && BearerToken(req.authorization.value) == "" ==>
              h == Handoff(req, Some(Throw(401, "invalid token")))
    ensures StartsWithBearer(req.authorization) && BearerToken(req.authorization.value) != "" &&
            verifyAccess(BearerToken(req.authorization.value)).None? ==>
              h == Handoff(req, Some(Throw(401, "invalid token")))
    ensures h.nextError.None? <==>
              && StartsWithBearer(req.authorization)
              && var token := BearerToken(req.authorization.value);
                 token != "" && verifyAccess(token).Some?
    ensures h.nextError.None? ==>
              h.req == req.(userId := Some(verifyAccess(BearerToken(req.authorization.value)).value.sub))
    ensures h.nextError.Some? ==> h.req == req && h.nextError.value.statusCode == 401
  {
    if !StartsWithBearer(req.authorization) then Handoff(req, Some(Throw(401, "Unauthorized request")))
    else
      var token := BearerToken(req.authorization.value);
      if token == "" then Handoff(req, Some(Throw(401, "invalid token")))
      else
        match verifyAccess(token)
        case None => Handoff(req, Some(Throw(401, "invalid token")))
        case Some(decoded) => Handoff(req.(userId := Some(decoded.sub)), None)
  }

  /** Fields after the token are ignored: "Bearer a b" is read as "Bearer a". */
  lemma TrailingFieldsIgnored(token: string, trailing: string, userId: Option<UserId>,
                              verifyAccess: string -> Option<AccessClaims>)
    requires ' ' !in token
    ensures var long := Auth(Request(Some(BearerPrefix + token + " " + trailing), userId), verifyAccess);
            var short := Auth(Request(Some(BearerPrefix + token), userId), verifyAccess);
            long.nextError == short.nextError && long.req.userId == short.req.userId
  {
    var h1 := BearerPrefix + token + " " + trailing;
    var h2 := BearerPrefix + token;
    assert h1[..|BearerPrefix|] == BearerPrefix && h1[|BearerPrefix|..] == token + " " + trailing;
    assert h2[..|BearerPrefix|] == BearerPrefix && h2[|BearerPrefix|..] == token;
    TokenIsDetermined(h1, token);
    TokenIsDetermined(h2, token);
    assert StartsWithBearer(Some(h1)) && StartsWithBearer(Some(h2));
    assert BearerToken(h1) == BearerToken(h2);
  }

  lemma TokenIsDetermined(header: string, token: string)
    requires StartsWithBearer(Some(header))
    requires ' ' !in token && token <= header[|BearerPrefix|..]
    requires |token| == |header| - |BearerPrefix| || header[|BearerPrefix| + |token|] == ' '
    ensures BearerToken(header) == token
  {
  }

  /** A header with nothing, or a second space, after "Bearer " carries an
      empty token and is refused as an invalid token, not as unauthorised. */
  lemma EmptyTokenIsInvalid(trailing: string, userId: Option<UserId>,
                            verifyAccess: string -> Option<AccessClaims>)
    ensures Auth(Request(Some(BearerPrefix), userId), verifyAccess).nextError
            == Some(Throw(401, "invalid token"))
    ensures Auth(Request(Some(BearerPrefix + " " + trailing), userId), verifyAccess).nextError
            == Some(Throw(401, "invalid token"))
  {
    TokenIsDetermined(BearerPrefix, "");
    var h := BearerPrefix + " " + trailing;
    assert h[|BearerPrefix|] == ' ';
    TokenIsDetermined(h, "");
  }
}
