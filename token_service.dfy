/** The token service: issuing signed tokens and one-time codes, persisting them in the Token
    collection and checking presented tokens against it. The clock, the configuration and the
    random draw are parameters. */
module TokenService {
  import opened Results
  import opened Jwt
  import opened TokenModel
  import opened UserModel

  /** The `jwt` section of the configuration. `verifyUserOtpExpirationMinutes` is read from the
      key `verifiyUserOTPExpirationMinutes`, spelled that way. */
  datatype JwtConfig = JwtConfig(
    secret: string,
    accessExpirationMinutes: nat,
    refreshExpirationDays: nat,
    resetPasswordExpirationMinutes: nat,
    verifyEmailExpirationMinutes: nat,
    verifyUserOtpExpirationMinutes: nat)

  /** `moment().add(n, 'minutes')` and `moment().add(n, 'days')` read as whole seconds. */
  function AddMinutes(now: int, minutes: nat): int { now + 60 * minutes }
  function AddDays(now: int, days: nat): int { now + 86400 * days }

  /** `generateToken`: a token whose claims are `sub = userId`, `iat = now`, `exp = expires` and
      `type = kind`, checkable with `secret` and with no other key, until `expires`. */
  function GenerateToken(userId: UserId, expires: int, kind: TokenType, secret: string, now: int): (t: TokenValue)
    ensures forall key, at :: Verify(t, key, at).Ok? <==> key == secret && at < expires
    ensures forall key, at :: Verify(t, key, at).Ok? ==> Verify(t, key, at).value == Payload(userId, now, expires, kind)
  {
    Sign(Payload(userId, now, expires, kind), secret)
  }

  /** `saveToken`: one document is appended; `blacklisted` defaults to false at every call site. */
  method SaveToken(tokens: TokenCollection, token: TokenValue, userId: UserId, expires: int, kind: TokenType, blacklisted: bool)
    returns (doc: TokenDoc)
    modifies tokens
    ensures doc == TokenDoc(token, userId, expires, kind, blacklisted)
    ensures tokens.docs == old(tokens.docs) + [doc]
  {
    doc := TokenDoc(token, userId, expires, kind, blacklisted);
    tokens.Create(doc);
  }

  /** The filter `{ token, type, user, blacklisted: false }` of `verifyToken` and `verifyCode`. */
  function TokenQuery(token: TokenValue, kind: TokenType, user: UserId): Query {
    Query(Some(token), Some(kind), Some(user), Some(false))
  }

  /** The filter `{ user, type }` of the lookups, updates and deletions by owner and kind. */
  function KindQuery(user: UserId, kind: TokenType): Query {
    Query(None, Some(kind), Some(user), None)
  }

  /** `verifyToken`: the JWT check comes first and its error propagates; then a stored,
      non-blacklisted document with this very token, this kind and the token's subject as owner
      must exist, else "Token not found". */
  function VerifyToken(docs: seq<TokenDoc>, token: TokenValue, kind: TokenType, secret: string, now: int): (r: Result<TokenDoc>)
    ensures Verify(token, secret, now).Err? ==> r == Err(Verify(token, secret, now).error)
    ensures Verify(token, secret, now).Ok? ==>
      (r.Ok? <==> exists j :: 0 <= j < |docs| && Satisfies(docs[j], TokenQuery(token, kind, token.payload.sub)))
    ensures Verify(token, secret, now).Ok? && r.Err? ==> r.error == Thrown("Token not found")
    ensures r.Ok? ==> r.value == TokenDoc(token, token.payload.sub, r.value.expires, kind, false)
    ensures r.Ok? ==>
      var i := FindOne(docs, TokenQuery(token, kind, r.value.user));
      i.Some? && docs[i.value] == r.value
  {
    match Verify(token, secret, now)
    case Err(e) => Err(e)
    case Ok(payload) =>
      match FindOne(docs, TokenQuery(token, kind, payload.sub))
      case None => Err(Thrown("Token not found"))
      case Some(i) => Ok(docs[i])
  }

  /** `verifyCode`: a stored, non-blacklisted document holding `code` for `userId` and of this
      kind; no signature and no expiry is checked. */
  function VerifyCode(docs: seq<TokenDoc>, userId: UserId, code: TokenValue, kind: TokenType): (r: Result<TokenDoc>)
    ensures r.Ok? <==> exists j :: 0 <= j < |docs| && Satisfies(docs[j], TokenQuery(code, kind, userId))
    ensures r.Ok? ==> r.value in docs && r.value == TokenDoc(code, userId, r.value.expires, kind, false)
    ensures r.Err? ==> r.error == Thrown("Token not found")
  {
    match FindOne(docs, TokenQuery(code, kind, userId))
    case None => Err(Thrown("Token not found"))
    case Some(i) => Ok(docs[i])
  }

  /** A token together with the instant it expires. */
  datatype Expiring = Expiring(token: TokenValue, expires: int)

  /** The `{ access, refresh }` pair returned by `generateAuthTokens`. */
  datatype AuthTokens = AuthTokens(access: Expiring, refresh: Expiring)

  /** The pair issued to `userId` at `now`: an access token living `accessExpirationMinutes`, a
      refresh token living `refreshExpirationDays`, each verifiable with the secret, for that user
      and with its own kind, until its expiry; the two are never the same token. */
  function AuthTokensFor(userId: UserId, cfg: JwtConfig, now: int): (r: AuthTokens)
    ensures r.access.expires == now + 60 * cfg.accessExpirationMinutes
    ensures r.refresh.expires == now + 86400 * cfg.refreshExpirationDays
    ensures r.access.token != r.refresh.token
    ensures forall at :: Verify(r.access.token, cfg.secret, at).Ok? <==> at < r.access.expires
    ensures forall at :: Verify(r.refresh.token, cfg.secret, at).Ok? <==> at < r.refresh.expires
    ensures r.access.token.Signed? && r.access.token.payload == Payload(userId, now, r.access.expires, Access)
    ensures r.refresh.token.Signed? && r.refresh.token.payload == Payload(userId, now, r.refresh.expires, Refresh)
  {
    var accessExpires := AddMinutes(now, cfg.accessExpirationMinutes);
    var refreshExpires := AddDays(now, cfg.refreshExpirationDays);
    AuthTokens(
      Expiring(GenerateToken(userId, accessExpires, Access, cfg.secret, now), accessExpires),
      Expiring(GenerateToken(userId, refreshExpires, Refresh, cfg.secret, now), refreshExpires))
  }

  /** The document `generateAuthTokens` stores for a pair issued to `userId`. */
  function RefreshDoc(userId: UserId, pair: AuthTokens): TokenDoc {
    TokenDoc(pair.refresh.token, userId, pair.refresh.expires, Refresh, false)
  }

  /** The invariant the issuing operations keep on the Token collection: no access token is ever
      stored, and every stored JWT was signed with `secret` for the document's own owner, expiry
      and kind. */
  predicate ConsistentDoc(d: TokenDoc, secret: string) {
    && d.kind != Access
    && (d.token.Signed? ==>
          && d.token.key == secret
          && d.token.payload.sub == d.user
          && d.token.payload.exp == d.expires
          && d.token.payload.kind == d.kind)
  }

  predicate Consistent(docs: seq<TokenDoc>, secret: string) {
    forall d :: d in docs ==> ConsistentDoc(d, secret)
  }

  /** `generateAuthTokens`: exactly one document is added, the refresh token of the returned pair;
      the access token is not stored. */
  method GenerateAuthTokens(tokens: TokenCollection, user: User, cfg: JwtConfig, now: int) returns (r: AuthTokens)
    modifies tokens
    ensures r == AuthTokensFor(user.id, cfg, now)
    ensures tokens.docs == old(tokens.docs) + [RefreshDoc(user.id, r)]
    ensures Consistent(old(tokens.docs), cfg.secret) ==> Consistent(tokens.docs, cfg.secret)
  {
    var accessTokenExpires := AddMinutes(now, cfg.accessExpirationMinutes);
    var accessToken := GenerateToken(user.id, accessTokenExpires, Access, cfg.secret, now);
    var refreshTokenExpires := AddDays(now, cfg.refreshExpirationDays);
    var refreshToken := GenerateToken(user.id, refreshTokenExpires, Refresh, cfg.secret, now);
    var saved := SaveToken(tokens, refreshToken, user.id, refreshTokenExpires, Refresh, false);
    r := AuthTokens(Expiring(accessToken, accessTokenExpires), Expiring(refreshToken, refreshTokenExpires));
  }

  /** `generateResetPasswordToken`: with no user of that email, NOT_FOUND and nothing stored;
      otherwise one RESET_PASSWORD document holding the returned token is added. */
  method GenerateResetPasswordToken(tokens: TokenCollection, users: UserCollection, email: string, cfg: JwtConfig, now: int)
    returns (r: Result<TokenValue>)
    modifies tokens
    ensures FindUser(users.docs, ByEmail(email)).None? ==>
      r == Err(ApiError(NotFound, "No users found with this email")) && tokens.docs == old(tokens.docs)
    ensures FindUser(users.docs, ByEmail(email)).Some? ==>
      var user := users.docs[FindUser(users.docs, ByEmail(email)).value];
      var expires := AddMinutes(now, cfg.resetPasswordExpirationMinutes);
      && r == Ok(GenerateToken(user.id, expires, ResetPassword, cfg.secret, now))
      && tokens.docs == old(tokens.docs) + [TokenDoc(r.value, user.id, expires, ResetPassword, false)]
    ensures Consistent(old(tokens.docs), cfg.secret) ==> Consistent(tokens.docs, cfg.secret)
  {
    var found := FindUser(users.docs, ByEmail(email));
    if found.None? {
      return Err(ApiError(NotFound, "No users found with this email"));
    }
    var user := users.docs[found.value];
    var expires := AddMinutes(now, cfg.resetPasswordExpirationMinutes);
    var resetPasswordToken := GenerateToken(user.id, expires, ResetPassword, cfg.secret, now);
    var saved := SaveToken(tokens, resetPasswordToken, user.id, expires, ResetPassword, false);
    return Ok(resetPasswordToken);
  }

  /** `generateVerifyEmailToken`: one VERIFY_EMAIL document holding the returned token is added. */
  method GenerateVerifyEmailToken(tokens: TokenCollection, user: User, cfg: JwtConfig, now: int) returns (t: TokenValue)
    modifies tokens
    ensures var expires := AddMinutes(now, cfg.verifyEmailExpirationMinutes);
      && t == GenerateToken(user.id, expires, VerifyEmail, cfg.secret, now)
      && tokens.docs == old(tokens.docs) + [TokenDoc(t, user.id, expires, VerifyEmail, false)]
    ensures Consistent(old(tokens.docs), cfg.secret) ==> Consistent(tokens.docs, cfg.secret)
  {
    var expires := AddMinutes(now, cfg.verifyEmailExpirationMinutes);
    t := GenerateToken(user.id, expires, VerifyEmail, cfg.secret, now);
    var saved := SaveToken(tokens, t, user.id, expires, VerifyEmail, false);
  }

  /** `Math.floor(100000 + Math.random() * 900000)` for a draw `random` in [0, 1): a six-digit code. */
  function OtpCode(random: real): (code: int)
    requires 0.0 <= random < 1.0
    ensures 100000 <= code <= 999999
  {
    assert random * 900000.0 < 900000.0;
    (100000.0 + random * 900000.0).Floor
  }

  /** Every six-digit code is drawn by some value of `Math.random()`. */
  lemma OtpCodeReachesEveryCode(code: int)
    requires 100000 <= code <= 999999
    ensures var random := (code - 100000) as real / 900000.0;
      0.0 <= random < 1.0 && OtpCode(random) == code
  {
  }

  /** `findVerifyOtpToken`: the first VERIFY_OTP document of the user, blacklisted or not. */
  function FindVerifyOtpToken(docs: seq<TokenDoc>, userId: UserId): (r: Option<TokenDoc>)
    ensures r.Some? <==> exists j :: 0 <= j < |docs| && docs[j].user == userId && docs[j].kind == VerifyOtp
    ensures r.Some? ==> r.value in docs && r.value.user == userId && r.value.kind == VerifyOtp
  {
    match FindOne(docs, KindQuery(userId, VerifyOtp))
    case None => None
    case Some(i) => Some(docs[i])
  }

  /** `updateVerifyOtpToken`: the first VERIFY_OTP document of the user takes the new code. */
  method UpdateVerifyOtpToken(tokens: TokenCollection, userId: UserId, code: int)
    modifies tokens
    ensures tokens.docs == UpdateFirst(old(tokens.docs), KindQuery(userId, VerifyOtp), Code(code))
  {
    tokens.UpdateOne(KindQuery(userId, VerifyOtp), Code(code));
  }

  /** The Token collection after `generateUserVerifyOTP` issued `code` to `userId`: the first
      VERIFY_OTP document of the user is overwritten in place if there is one, else a new one is
      appended. */
  function OtpIssued(docs: seq<TokenDoc>, userId: UserId, code: int, expires: int): seq<TokenDoc> {
    if FindOne(docs, KindQuery(userId, VerifyOtp)).Some? then
      UpdateFirst(docs, KindQuery(userId, VerifyOtp), Code(code))
    else
      docs + [TokenDoc(Code(code), userId, expires, VerifyOtp, false)]
  }

  /** `generateUserVerifyOTP` */
  method GenerateUserVerifyOtp(tokens: TokenCollection, user: User, cfg: JwtConfig, now: int, random: real) returns (code: int)
    requires 0.0 <= random < 1.0
    modifies tokens
    ensures code == OtpCode(random) && 100000 <= code <= 999999
    ensures tokens.docs == OtpIssued(old(tokens.docs), user.id, code, AddMinutes(now, cfg.verifyUserOtpExpirationMinutes))
    ensures Consistent(old(tokens.docs), cfg.secret) ==> Consistent(tokens.docs, cfg.secret)
  {
    var expires := AddMinutes(now, cfg.verifyUserOtpExpirationMinutes);
    code := OtpCode(random);
    var isExist := FindVerifyOtpToken(tokens.docs, user.id);
    if isExist.Some? {
      UpdateVerifyOtpToken(tokens, user.id, code);
    } else {
      var saved := SaveToken(tokens, Code(code), user.id, expires, VerifyOtp, false);
    }
  }

  /** Re-issuing an OTP to a user who already has one changes nothing but the token of the
      user's first VERIFY_OTP document: the number of documents stays, and that document keeps
      its expiry, owner, kind and blacklist flag. A first issue appends exactly one fresh
      VERIFY_OTP document. */
  lemma OtpIssuedShape(docs: seq<TokenDoc>, userId: UserId, code: int, expires: int)
    ensures var r := OtpIssued(docs, userId, code, expires);
      match FindOne(docs, KindQuery(userId, VerifyOtp))
      case Some(i) =>
        && |r| == |docs|
        && r[i] == docs[i].(token := Code(code))
        && r[i].expires == docs[i].expires
        && (forall j :: 0 <= j < |docs| && j != i ==> r[j] == docs[j])
      case None =>
        r == docs + [TokenDoc(Code(code), userId, expires, VerifyOtp, false)]
  {
  }

  /** After an OTP is issued, the user's first VERIFY_OTP document holds the returned code, and
      the code verifies unless that document was blacklisted before. */
  lemma {:induction false} OtpIssuedHoldsCode(docs: seq<TokenDoc>, userId: UserId, code: int, expires: int)
    ensures var r := OtpIssued(docs, userId, code, expires);
      var k := FindOne(r, KindQuery(userId, VerifyOtp));
      && k.Some?
      && r[k.value].token == Code(code)
      && (!r[k.value].blacklisted ==> VerifyCode(r, userId, Code(code), VerifyOtp).Ok?)
      && FindVerifyOtpToken(r, userId) == Some(r[k.value])
  {
    var q := KindQuery(userId, VerifyOtp);
    var r := OtpIssued(docs, userId, code, expires);
    var k: nat;
    if FindOne(docs, q).Some? {
      k := FindOne(docs, q).value;
    } else {
      k := |docs|;
    }
    assert Satisfies(r[k], q) && r[k].token == Code(code);
    FirstMatchIsUnique(r, q, k);
    if !r[k].blacklisted {
      assert Satisfies(r[k], TokenQuery(Code(code), VerifyOtp, userId));
    }
  }

  /** A matching document with no matching one before it is the one `findOne` returns. */
  lemma FirstMatchIsUnique(docs: seq<TokenDoc>, q: Query, i: nat)
    requires i < |docs| && Satisfies(docs[i], q)
    requires forall j :: 0 <= j < i ==> !Satisfies(docs[j], q)
    ensures FindOne(docs, q) == Some(i)
  {
  }

  /** Issuing OTPs keeps at most one VERIFY_OTP document per user: with at most one before,
      there is exactly one after. */
  lemma {:induction false} OtpIssueKeepsOneRow(docs: seq<TokenDoc>, userId: UserId, code: int, expires: int)
    requires AtMostOne(docs, KindQuery(userId, VerifyOtp))
    ensures var r := OtpIssued(docs, userId, code, expires);
      AtMostOne(r, KindQuery(userId, VerifyOtp)) && FindOne(r, KindQuery(userId, VerifyOtp)).Some?
  {
    var q := KindQuery(userId, VerifyOtp);
    var r := OtpIssued(docs, userId, code, expires);
    OtpIssuedShape(docs, userId, code, expires);
    OtpIssuedHoldsCode(docs, userId, code, expires);
    if FindOne(docs, q).Some? {
      forall j | 0 <= j < |r| ensures Satisfies(r[j], q) == Satisfies(docs[j], q) {
      }
    } else {
      forall j | 0 <= j < |docs| ensures r[j] == docs[j] && !Satisfies(r[j], q) {
      }
    }
  }

  /** Registering and then asking for a new code: a user with no VERIFY_OTP document who is
      issued `c1` and then `c2` has exactly one such document, holding `c2` with the expiry set at
      the first issue; `c2` verifies and `c1`, if different, no longer does. */
  lemma {:induction false} SecondOtpReplacesFirst(docs: seq<TokenDoc>, userId: UserId, c1: int, e1: int, c2: int, e2: int)
    requires forall j :: 0 <= j < |docs| ==> !Satisfies(docs[j], KindQuery(userId, VerifyOtp))
    ensures var r := OtpIssued(OtpIssued(docs, userId, c1, e1), userId, c2, e2);
      && |r| == |docs| + 1
      && (forall j :: 0 <= j < |r| ==> (Satisfies(r[j], KindQuery(userId, VerifyOtp)) <==> j == |docs|))
      && r[|docs|] == TokenDoc(Code(c2), userId, e1, VerifyOtp, false)
      && VerifyCode(r, userId, Code(c2), VerifyOtp).Ok?
      && (c1 != c2 ==> VerifyCode(r, userId, Code(c1), VerifyOtp).Err?)
  {
    var q := KindQuery(userId, VerifyOtp);
    var r1 := OtpIssued(docs, userId, c1, e1);
    assert FindOne(docs, q).None?;
    assert r1 == docs + [TokenDoc(Code(c1), userId, e1, VerifyOtp, false)];
    FirstMatchIsUnique(r1, q, |docs|);
    var r := OtpIssued(r1, userId, c2, e2);
    assert r == r1[|docs| := TokenDoc(Code(c2), userId, e1, VerifyOtp, false)];
    assert Satisfies(r[|docs|], TokenQuery(Code(c2), VerifyOtp, userId));
    if c1 != c2 {
      forall j | 0 <= j < |r| ensures !Satisfies(r[j], TokenQuery(Code(c1), VerifyOtp, userId)) {
        if j < |docs| { assert r[j] == docs[j] && !Satisfies(docs[j], q); }
      }
    }
  }

  /** Under the store invariant a token passes `verifyToken` only for the kind it was issued as,
      and never as an access token. */
  lemma VerifiedTokenHasRequestedKind(docs: seq<TokenDoc>, token: TokenValue, kind: TokenType, secret: string, now: int)
    requires Consistent(docs, secret)
    requires VerifyToken(docs, token, kind, secret, now).Ok?
    ensures token.Signed? && token.payload.kind == kind && kind != Access
  {
    var d := VerifyToken(docs, token, kind, secret, now).value;
    assert ConsistentDoc(d, secret);
  }

  /** An access token from `generateAuthTokens` is never accepted by `verifyToken`, as whatever
      kind it is presented, while the store invariant holds. */
  lemma AccessTokenNeverVerifiesAsStored(docs: seq<TokenDoc>, userId: UserId, cfg: JwtConfig, issuedAt: int, kind: TokenType, now: int)
    requires Consistent(docs, cfg.secret)
    ensures VerifyToken(docs, AuthTokensFor(userId, cfg, issuedAt).access.token, kind, cfg.secret, now).Err?
  {
    if VerifyToken(docs, AuthTokensFor(userId, cfg, issuedAt).access.token, kind, cfg.secret, now).Ok? {
      VerifiedTokenHasRequestedKind(docs, AuthTokensFor(userId, cfg, issuedAt).access.token, kind, cfg.secret, now);
    }
  }
}
