/** The user model (src/models/user.model.ts): user records with their list
    of outstanding refresh-token entries, the helpers the auth controller
    relies on, the hydrated document that handlers change in place, and the
    collection of users.

    Cryptography is abstract: password hashing and checking, and signing and
    verifying both kinds of token, are functions supplied in a `Crypto` value. */
module UserModel {
  import opened Wrappers
  import opened Payload

  /** Milliseconds since the epoch. */
  type Millis = int

  /** Default lifetime of a refresh entry: seven days, in milliseconds. */
  const RefreshTokenLifetimeMs: int := 7 * 24 * 60 * 60 * 1000

  /** Browser and operating-system names parsed from the User-Agent header,
      compared as a whole. */
  datatype UserAgent = UserAgent(browser: string, os: string)

  /** One outstanding refresh token of a user. */
  datatype RefreshEntry = RefreshEntry(jti: Jti, userAgent: UserAgent, expiresAt: Millis, createdAt: Millis)

  /** A stored user; `password` is the hash once the record has been saved. */
  datatype UserRecord = UserRecord(
    email: string,
    password: string,
    firstName: string,
    lastName: string,
    refreshTokens: seq<RefreshEntry>)

  /** The cryptographic collaborators: argon2 hashing and checking, and JWT
      signing and verification (signature and expiry) under each secret. */
  datatype Crypto = Crypto(
    hash: string -> string,
    verifyPassword: (string, string) -> bool,
    signAccess: AccessClaims -> string,
    signRefresh: RefreshClaims -> string,
    verifyAccess: string -> Option<AccessClaims>,
    verifyRefresh: string -> Option<RefreshClaims>)

  // ---------------------------------------------------------------------
  // Refresh entries

  /** The entry `push({ jti, userAgent })` creates at time `now`: the schema
      defaults give it `createdAt = now` and an expiry seven days later. */
  function NewRefreshEntry(jti: Jti, userAgent: UserAgent, now: Millis): (e: RefreshEntry)
    ensures e.jti == jti && e.userAgent == userAgent && e.createdAt == now
    ensures e.expiresAt - e.createdAt == RefreshTokenLifetimeMs
  {
    RefreshEntry(jti, userAgent, now + RefreshTokenLifetimeMs, now)
  }

  /** A fresh entry stays live for exactly seven days after its creation. */
  lemma NewEntryLiveUntilExpiry(jti: Jti, userAgent: UserAgent, now: Millis, t: Millis)
    ensures Keeps(LiveAt(t), NewRefreshEntry(jti, userAgent, now)) <==> t < now + 604_800_000
  {
  }

  /** The two ways the model drops entries from a list: expired ones, and
      those carrying one `jti` (Mongoose's `pull({ jti })`). */
  datatype Criterion = LiveAt(now: Millis) | NotJti(jti: Jti)

  predicate Keeps(c: Criterion, e: RefreshEntry) {
    match c
    case LiveAt(now) => e.expiresAt > now
    case NotJti(j) => e.jti != j
  }

  /** The entries `c` keeps, in their original order. */
  function Filter(ts: seq<RefreshEntry>, c: Criterion): (r: seq<RefreshEntry>)
    ensures |r| <= |ts|
    ensures forall e :: e in r <==> e in ts && Keeps(c, e)
  {
    if ts == [] then []
    else if Keeps(c, ts[0]) then [ts[0]] + Filter(ts[1..], c)
    else Filter(ts[1..], c)
  }

  /** `removeExpiredRefreshTokens`'s filter: entries whose expiry is strictly
      after `now` (one that expires exactly now is dropped). */
  function Unexpired(ts: seq<RefreshEntry>, now: Millis): (r: seq<RefreshEntry>)
    ensures forall e :: e in r <==> e in ts && e.expiresAt > now
  {
    Filter(ts, LiveAt(now))
  }

  /** `refreshTokens.pull({ jti })`: every entry with that `jti` is removed. */
  function Pull(ts: seq<RefreshEntry>, jti: Jti): (r: seq<RefreshEntry>)
    ensures forall e :: e in r <==> e in ts && e.jti != jti
    ensures !HasJti(r, jti)
  {
    Filter(ts, NotJti(jti))
  }

  /** `a` can be obtained from `b` by deleting elements. */
  predicate IsSubsequence<T(==)>(a: seq<T>, b: seq<T>)
    decreases |b|
  {
    a == [] ||
    (b != [] && (IsSubsequence(a, b[1..]) || (a[0] == b[0] && IsSubsequence(a[1..], b[1..]))))
  }

  lemma {:induction false} FilterIsSubsequence(ts: seq<RefreshEntry>, c: Criterion)
    ensures IsSubsequence(Filter(ts, c), ts)
  {
    if ts != [] {
      var rest := Filter(ts[1..], c);
      FilterIsSubsequence(ts[1..], c);
      if Keeps(c, ts[0]) {
        var r := [ts[0]] + rest;
        assert r[0] == ts[0] && r[1..] == rest;
      }
    }
  }

  /** Filtering keeps every kept entry as often as it occurs: duplicates
      are neither merged nor multiplied. */
  lemma {:induction false} FilterKeepsMultiplicity(ts: seq<RefreshEntry>, c: Criterion)
    ensures forall e :: multiset(Filter(ts, c))[e] == if Keeps(c, e) then multiset(ts)[e] else 0
  {
    if ts != [] {
      FilterKeepsMultiplicity(ts[1..], c);
      assert ts == [ts[0]] + ts[1..];
      assert multiset(ts) == multiset([ts[0]]) + multiset(ts[1..]);
      if Keeps(c, ts[0]) {
        assert multiset(Filter(ts, c)) == multiset([ts[0]]) + multiset(Filter(ts[1..], c));
      }
    }
  }

  lemma {:induction false} FilterIdempotent(ts: seq<RefreshEntry>, c: Criterion)
    ensures Filter(Filter(ts, c), c) == Filter(ts, c)
  {
    if ts != [] {
      var rest := Filter(ts[1..], c);
      FilterIdempotent(ts[1..], c);
      if Keeps(c, ts[0]) {
        var r := [ts[0]] + rest;
        assert r[0] == ts[0] && r[1..] == rest;
      }
    }
  }

  /** Dropping by two criteria gives the same list in either order, so it
      does not matter whether a rotation pulls the old `jti` before or after
      sweeping expired entries. */
  lemma {:induction false} FilterCommutes(ts: seq<RefreshEntry>, c1: Criterion, c2: Criterion)
    ensures Filter(Filter(ts, c1), c2) == Filter(Filter(ts, c2), c1)
  {
    if ts != [] {
      var x := ts[0];
      var r1, r2 := Filter(ts[1..], c1), Filter(ts[1..], c2);
      FilterCommutes(ts[1..], c1, c2);
      if Keeps(c1, x) {
        assert ([x] + r1)[0] == x && ([x] + r1)[1..] == r1;
      }
      if Keeps(c2, x) {
        assert ([x] + r2)[0] == x && ([x] + r2)[1..] == r2;
      }
    }
  }

  /** The sweep keeps exactly the live entries, in order, and sweeping twice
      at the same instant changes nothing the second time. */
  lemma UnexpiredProperties(ts: seq<RefreshEntry>, now: Millis)
    ensures IsSubsequence(Unexpired(ts, now), ts)
    ensures Unexpired(Unexpired(ts, now), now) == Unexpired(ts, now)
    ensures forall e :: e in Unexpired(ts, now) <==> e in ts && e.expiresAt > now
    ensures forall e :: multiset(Unexpired(ts, now))[e] == if e.expiresAt > now then multiset(ts)[e] else 0
  {
    FilterKeepsMultiplicity(ts, LiveAt(now));
    FilterIsSubsequence(ts, LiveAt(now));
    FilterIdempotent(ts, LiveAt(now));
  }

  /** A list that holds `jti` somewhere. */
  predicate HasJti(ts: seq<RefreshEntry>, jti: Jti) {
    exists e :: e in ts && e.jti == jti
  }

  /** A list that holds `userAgent` somewhere. */
  predicate HasAgent(ts: seq<RefreshEntry>, userAgent: UserAgent) {
    exists e :: e in ts && e.userAgent == userAgent
  }

  lemma HasJtiAppend(ts: seq<RefreshEntry>, e: RefreshEntry, jti: Jti)
    ensures HasJti(ts + [e], jti) <==> HasJti(ts, jti) || e.jti == jti
  {
    if HasJti(ts + [e], jti) {
      var x :| x in ts + [e] && x.jti == jti;
      assert x in ts || x == e;
    }
    if HasJti(ts, jti) {
      var x :| x in ts && x.jti == jti;
      assert x in ts + [e];
    }
  }

  // ---------------------------------------------------------------------
  // The `fullName` virtual

  /** The characters JavaScript's `String.prototype.trim` removes: white
      space (including every space separator) and line terminators. */
  predicate IsJsWhitespace(c: char) {
    || c == '\t' || c == '\n' || c == '\U{000B}' || c == '\U{000C}' || c == '\r' || c == ' '
    || c == '\U{00A0}' || c == '\U{1680}' || ('\U{2000}' <= c <= '\U{200A}')
    || c == '\U{2028}' || c == '\U{2029}' || c == '\U{202F}' || c == '\U{205F}'
    || c == '\U{3000}' || c == '\U{FEFF}'
  }

  function TrimStart(s: string): (r: string)
    ensures |r| <= |s| && r == s[|s| - |r|..]
    ensures forall i :: 0 <= i < |s| - |r| ==> IsJsWhitespace(s[i])
    ensures r == [] || !IsJsWhitespace(r[0])
  {
    if s != [] && IsJsWhitespace(s[0]) then TrimStart(s[1..]) else s
  }

  function TrimEnd(s: string): (r: string)
    ensures |r| <= |s| && r == s[..|r|]
    ensures forall i :: |r| <= i < |s| ==> IsJsWhitespace(s[i])
    ensures r == [] || !IsJsWhitespace(r[|r| - 1])
  {
    if s != [] && IsJsWhitespace(s[|s| - 1]) then TrimEnd(s[..|s| - 1]) else s
  }

  /** `s.trim()`: the slice of `s` left when white space is removed from
      both ends. */
  function Trim(s: string): (r: string)
    ensures |r| <= |s|
    ensures r == [] || (!IsJsWhitespace(r[0]) && !IsJsWhitespace(r[|r| - 1]))
  {
    var t := TrimStart(s);
    var r := TrimEnd(t);
    assert r != [] ==> r[0] == t[0];
    r
  }

  /** How many characters `trim()` removes from the front of `s`. */
  function LeadingWhitespace(s: string): (n: nat)
    ensures n <= |s|
  {
    |s| - |TrimStart(s)|
  }

  /** Every character of `s` outside `s[lo..hi]` is white space. */
  predicate RemovedOnlyWhitespace(s: string, lo: int, hi: int)
    requires 0 <= lo <= hi <= |s|
  {
    (forall k :: 0 <= k < lo ==> IsJsWhitespace(s[k])) && (forall k :: hi <= k < |s| ==> IsJsWhitespace(s[k]))
  }

  /** `trim()` returns a contiguous slice of its argument and removes only
      white space around it. */
  lemma TrimIsSlice(s: string)
    ensures var i := LeadingWhitespace(s);
            && i + |Trim(s)| <= |s|
            && Trim(s) == s[i..i + |Trim(s)|]
            && RemovedOnlyWhitespace(s, i, i + |Trim(s)|)
  {
    var t := TrimStart(s);
    var r := TrimEnd(t);
    var i := |s| - |t|;
    assert r == s[i..i + |r|];
    forall k | i + |r| <= k < |s| ensures IsJsWhitespace(s[k]) {
      assert s[k] == t[k - i];
    }
  }

  /** A string with no white space at either end is its own trim. */
  lemma TrimOfClean(s: string)
    requires s == [] || (!IsJsWhitespace(s[0]) && !IsJsWhitespace(s[|s| - 1]))
    ensures Trim(s) == s
  {
    assert TrimStart(s) == s;
    assert TrimEnd(s) == s;
  }

  lemma TrimIdempotent(s: string)
    ensures Trim(Trim(s)) == Trim(s)
  {
    TrimOfClean(Trim(s));
  }

  /** The `fullName` virtual: "first last", trimmed. */
  function FullName(firstName: string, lastName: string): (r: string)
    ensures |r| <= |firstName| + 1 + |lastName|
    ensures r == [] || (!IsJsWhitespace(r[0]) && !IsJsWhitespace(r[|r| - 1]))
  {
    Trim(firstName + " " + lastName)
  }

  /** For names already trimmed and non-empty, as stored names are, the full
      name is exactly the two names joined by one space. */
  lemma FullNameOfTrimmedNames(firstName: string, lastName: string)
    requires firstName != [] && !IsJsWhitespace(firstName[0])
    requires lastName != [] && !IsJsWhitespace(lastName[|lastName| - 1])
    ensures FullName(firstName, lastName) == firstName + " " + lastName
  {
    var s := firstName + " " + lastName;
    assert s[0] == firstName[0] && s[|s| - 1] == lastName[|lastName| - 1];
    TrimOfClean(s);
  }

  // ---------------------------------------------------------------------
  // Tokens

  /** What `generateRefreshToken` returns. */
  datatype IssuedRefreshToken = IssuedRefreshToken(refreshToken: string, jti: Jti)

  /** `generateAccessToken`: a token signed over `{ sub: id }`. */
  function GenerateAccessToken(id: UserId, crypto: Crypto): (token: string)
    ensures token == crypto.signAccess(AccessClaims(id))
  {
    crypto.signAccess(AccessClaims(id))
  }

  /** `generateRefreshToken`, given the UUID `randomUUID()` produced: the
      returned `jti` is the one signed into the token, with `sub` the id. */
  function GenerateRefreshToken(id: UserId, freshJti: Jti, crypto: Crypto): (r: IssuedRefreshToken)
    ensures r.jti == freshJti
    ensures r.refreshToken == crypto.signRefresh(RefreshClaims(id, r.jti))
  {
    IssuedRefreshToken(crypto.signRefresh(RefreshClaims(id, freshJti)), freshJti)
  }

  /** The access-token verifier accepts what the signer produced (before
      expiry), and a signed token (`header.payload.signature`, base64url
      parts joined by dots) is never empty and contains no space. */
  ghost predicate AccessCodecRoundTrips(crypto: Crypto) {
    && (forall claims :: crypto.verifyAccess(crypto.signAccess(claims)) == Some(claims))
    && (forall claims :: crypto.signAccess(claims) != "" && ' ' !in crypto.signAccess(claims))
  }

  /** The verifier accepts what the signer produced (before expiry), and a
      signed token (`header.payload.signature`) is never the empty string. */
  ghost predicate RefreshCodecRoundTrips(crypto: Crypto) {
    && (forall claims :: crypto.verifyRefresh(crypto.signRefresh(claims)) == Some(claims))
    && (forall claims :: crypto.signRefresh(claims) != "")
  }

  /** With a verifier that accepts what was signed, the cookie issued for a
      user verifies to that user and to the `jti` recorded in the entry. */
  lemma IssuedRefreshTokenVerifies(id: UserId, freshJti: Jti, crypto: Crypto)
    requires RefreshCodecRoundTrips(crypto)
    ensures var issued := GenerateRefreshToken(id, freshJti, crypto);
            && issued.refreshToken != ""
            && crypto.verifyRefresh(issued.refreshToken) == Some(RefreshClaims(id, issued.jti))
  {
  }

  // ---------------------------------------------------------------------
  // The collection's invariant and queries

  /** Some user holds `jti`. */
  predicate JtiInUse(users: map<UserId, UserRecord>, jti: Jti) {
    exists id :: id in users && HasJti(users[id].refreshTokens, jti)
  }

  /** The unique index on `email`. */
  ghost predicate EmailsUnique(users: map<UserId, UserRecord>) {
    forall a, b :: a in users && b in users && users[a].email == users[b].email ==> a == b
  }

  /** A `jti` is held by at most one user (they are fresh UUIDs). */
  ghost predicate JtisUnique(users: map<UserId, UserRecord>) {
    forall a, b, jti ::
      (a in users && b in users &&
       HasJti(users[a].refreshTokens, jti) && HasJti(users[b].refreshTokens, jti)) ==> a == b
  }

  ghost predicate WellFormed(users: map<UserId, UserRecord>) {
    EmailsUnique(users) && JtisUnique(users)
  }

  /** `findOne({ email })` may return any of these. */
  function EmailHolders(users: map<UserId, UserRecord>, email: string): (ids: set<UserId>)
    ensures forall id :: id in ids <==> id in users && users[id].email == email
  {
    set id | id in users && users[id].email == email
  }

  /** `findOne({ 'refreshTokens.jti': jti })` may return any of these. */
  function JtiHolders(users: map<UserId, UserRecord>, jti: Jti): (ids: set<UserId>)
    ensures forall id :: id in ids <==> id in users && HasJti(users[id].refreshTokens, jti)
    ensures ids == {} <==> !JtiInUse(users, jti)
  {
    set id | id in users && HasJti(users[id].refreshTokens, jti)
  }

  /** `findOne({ 'refreshTokens.jti': jti, 'refreshTokens.userAgent': ua })`
      may return any of these: the two conditions may be met by DIFFERENT
      entries of the same list. */
  function SessionHolders(users: map<UserId, UserRecord>, jti: Jti, userAgent: UserAgent): (ids: set<UserId>)
    ensures forall id :: id in ids <==> id in JtiHolders(users, jti) && HasAgent(users[id].refreshTokens, userAgent)
  {
    set id | id in users && HasJti(users[id].refreshTokens, jti) && HasAgent(users[id].refreshTokens, userAgent)
  }

  /** The users `authenticateUser(email, password)` may return: the holder
      of the email, when the password checks against its stored hash. */
  function Authenticated(users: map<UserId, UserRecord>, email: string, password: string,
                         crypto: Crypto): (ids: set<UserId>)
    ensures forall id :: id in ids <==>
              id in EmailHolders(users, email) && crypto.verifyPassword(users[id].password, password)
  {
    set id | id in users && users[id].email == email && crypto.verifyPassword(users[id].password, password)
  }

  /** The set has at most one element, so `findOne` has one answer. */
  ghost predicate AtMostOne(ids: set<UserId>) {
    forall a, b :: a in ids && b in ids ==> a == b
  }

  lemma QueriesAreDeterministic(users: map<UserId, UserRecord>, email: string, jti: Jti, userAgent: UserAgent)
    requires WellFormed(users)
    ensures AtMostOne(EmailHolders(users, email))
    ensures forall password, crypto :: AtMostOne(Authenticated(users, email, password, crypto))
    ensures AtMostOne(JtiHolders(users, jti))
    ensures AtMostOne(SessionHolders(users, jti, userAgent))
  {
  }

  /** Replacing one user's list keeps the invariant as long as every `jti`
      in the new list was already that user's, or is held by nobody. */
  lemma ReplaceTokensKeepsWellFormed(users: map<UserId, UserRecord>, id: UserId, ts: seq<RefreshEntry>)
    requires WellFormed(users) && id in users
    requires forall jti :: HasJti(ts, jti) ==> HasJti(users[id].refreshTokens, jti) || !JtiInUse(users, jti)
    ensures WellFormed(users[id := users[id].(refreshTokens := ts)])
  {
    var users' := users[id := users[id].(refreshTokens := ts)];
    forall a, b, jti | a in users' && b in users' &&
        HasJti(users'[a].refreshTokens, jti) && HasJti(users'[b].refreshTokens, jti)
      ensures a == b
    {
    }
  }

  /** Adding a user keeps the invariant when its email is new and each of
      its `jti`s is held by nobody. */
  lemma AddUserKeepsWellFormed(users: map<UserId, UserRecord>, id: UserId, rec: UserRecord)
    requires WellFormed(users) && id !in users
    requires EmailHolders(users, rec.email) == {}
    requires forall jti :: HasJti(rec.refreshTokens, jti) ==> !JtiInUse(users, jti)
    ensures WellFormed(users[id := rec])
  {
    var users' := users[id := rec];
    forall a, b | a in users' && b in users' && users'[a].email == users'[b].email
      ensures a == b
    {
    }
    forall a, b, jti | a in users' && b in users' &&
        HasJti(users'[a].refreshTokens, jti) && HasJti(users'[b].refreshTokens, jti)
      ensures a == b
    {
      if a != b && (a == id || b == id) {
        var other := if a == id then b else a;
        assert JtiInUse(users, jti) by { assert HasJti(users[other].refreshTokens, jti); }
      }
    }
  }

  /** A rotated list — the old list swept, with one entry for a `jti`
      nobody holds appended — satisfies ReplaceTokensKeepsWellFormed. */
  lemma SweptWithFreshEntry(users: map<UserId, UserRecord>, id: UserId, kept: seq<RefreshEntry>, e: RefreshEntry)
    requires id in users && !JtiInUse(users, e.jti)
    requires forall x :: x in kept ==> x in users[id].refreshTokens
    ensures forall jti :: HasJti(kept + [e], jti) ==> HasJti(users[id].refreshTokens, jti) || !JtiInUse(users, jti)
  {
    forall jti | HasJti(kept + [e], jti)
      ensures HasJti(users[id].refreshTokens, jti) || !JtiInUse(users, jti)
    {
      HasJtiAppend(kept, e, jti);
      if HasJti(kept, jti) {
        var x :| x in kept && x.jti == jti;
        assert x in users[id].refreshTokens;
      }
    }
  }

  // ---------------------------------------------------------------------
  // Documents and the collection

  /** A hydrated user document: the handlers change its fields in place and
      `save()` writes it back through the pre-save hook. */
  class UserDoc {
    const id: UserId
    var email: string
    var password: string
    var firstName: string
    var lastName: string
    var refreshTokens: seq<RefreshEntry>
    /** Mongoose's `isModified('password')`. */
    var passwordModified: bool

    function Record(): UserRecord
      reads this
    {
      UserRecord(email, password, firstName, lastName, refreshTokens)
    }

    /** `new User({ email, password, firstName, lastName })`: every path of a
        new document counts as modified; the list defaults to empty. */
    constructor Create(id: UserId, email: string, password: string, firstName: string, lastName: string)
      ensures this.id == id && passwordModified
      ensures Record() == UserRecord(email, password, firstName, lastName, [])
    {
      this.id := id;
      this.email := email;
      this.password := password;
      this.firstName := firstName;
      this.lastName := lastName;
      this.refreshTokens := [];
      this.passwordModified := true;
    }

    /** A document loaded from the collection: nothing is modified yet. */
    constructor Hydrate(id: UserId, rec: UserRecord)
      ensures this.id == id && !passwordModified && Record() == rec
    {
      this.id := id;
      this.email := rec.email;
      this.password := rec.password;
      this.firstName := rec.firstName;
      this.lastName := rec.lastName;
      this.refreshTokens := rec.refreshTokens;
      this.passwordModified := false;
    }

    /** The pre-save hook: the password is rehashed only when it was
        modified; nothing else is touched. */
    method PreSaveHook(hash: string -> string)
      modifies this
      ensures Record() == old(Record()).(password := if old(passwordModified) then hash(old(password)) else old(password))
      ensures passwordModified == old(passwordModified)
    {
      if !passwordModified {
        return;
      }
      password := hash(password);
    }

    /** `save()`: run the hook, write the document, clear the dirty flag. */
    method Save(db: UserStore)
      modifies this, db
      ensures Record() == old(Record()).(password := if old(passwordModified) then db.crypto.hash(old(password)) else old(password))
      ensures !passwordModified
      ensures db.users == old(db.users)[id := Record()]
    {
      PreSaveHook(db.crypto.hash);
      db.users := db.users[id := Record()];
      passwordModified := false;
    }

    /** `removeExpiredRefreshTokens()`: keep the entries that expire after
        `now` and save. */
    method RemoveExpiredRefreshTokens(db: UserStore, now: Millis)
      modifies this, db
      ensures Record() == old(Record()).(
                password := if old(passwordModified) then db.crypto.hash(old(password)) else old(password),
                refreshTokens := Unexpired(old(refreshTokens), now))
      ensures !passwordModified
      ensures db.users == old(db.users)[id := Record()]
    {
      refreshTokens := Unexpired(refreshTokens, now);
      Save(db);
    }
  }

  /** The users collection. */
  class UserStore {
    var users: map<UserId, UserRecord>
    const crypto: Crypto

    ghost predicate Valid()
      reads this
    {
      WellFormed(users)
    }

    constructor (crypto: Crypto)
      ensures Valid() && users == map[]
    {
      this.crypto := crypto;
      users := map[];
    }

    /** `findOne`: load one of the matching `ids` as a document, or none
        when nothing matches. */
    method FindOne(ids: set<UserId>) returns (doc: UserDoc?)
      requires ids <= users.Keys
      ensures doc == null <==> ids == {}
      ensures doc != null ==> fresh(doc) && doc.id in ids && doc.Record() == users[doc.id] && !doc.passwordModified
    {
      if ids == {} {
        return null;
      }
      var id :| id in ids;
      doc := new UserDoc.Hydrate(id, users[id]);
    }

    /** `findById(id)`; an absent id finds nothing. */
    method FindById(id: Option<UserId>) returns (doc: UserDoc?)
      ensures doc == null <==> id.None? || id.value !in users
      ensures doc != null ==> fresh(doc) && doc.id == id.value && doc.Record() == users[doc.id] && !doc.passwordModified
    {
      if id.None? || id.value !in users {
        return null;
      }
      doc := FindOne({id.value});
    }

    /** `authenticateUser(email, password)`: the user with that email if the
        password checks against its hash, else nothing. The dummy check run
        when nobody has the email only costs time and is not modelled. */
    method AuthenticateUser(email: string, password: string) returns (doc: UserDoc?)
      requires Valid()
      ensures doc == null <==> Authenticated(users, email, password, crypto) == {}
      ensures doc != null ==>
                && fresh(doc) && doc.id in Authenticated(users, email, password, crypto)
                && doc.Record() == users[doc.id] && !doc.passwordModified
    {
      QueriesAreDeterministic(users, email, "", UserAgent("", ""));
      doc := FindOne(EmailHolders(users, email));
      if doc == null {
        return;
      }
      if !crypto.verifyPassword(doc.password, password) {
        doc := null;
      }
    }
  }
}
