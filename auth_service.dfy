/** The authentication workflows: login, logout, refresh rotation, password reset, email and
    one-time-code verification, and shaping a Google profile into a new user. Each workflow reads
    the Token and User collections and then writes them; every internal failure of a workflow is
    reported as that workflow's one error. */
module AuthService {
  import opened Results
  import opened Jwt
  import opened TokenModel
  import opened UserModel
  import opened TokenService

  // The one error each workflow reports, whatever went wrong inside it.
  const IncorrectCredentials := ApiError(Unauthorized, "Incorrect email or password")
  const UserNotVerified := ApiError(Unauthorized, "User not verified")
  const LogoutNotFound := ApiError(NotFound, "Not found")
  const RefreshFailed := ApiError(Unauthorized, "Please authenticate")
  const ResetFailed := ApiError(Unauthorized, "Password reset failed")
  const EmailVerificationFailed := ApiError(Unauthorized, "Email verification failed")
  const UserVerificationFailed := ApiError(Unauthorized, "User verification failed")
  const GoogleVerificationFailed := ApiError(InternalServerError, "Google verification failed")

  /** `loginUserWithEmailAndPassword`, read-only. An unknown email and a wrong password give the
      same error, and are checked before the verification flag; `isPasswordMatch` compares a
      candidate with the stored credential. */
  function Login(users: seq<User>, email: string, password: string, isPasswordMatch: (string, string) -> bool): (r: Result<User>)
    ensures r.Ok? <==>
      var i := FindUser(users, ByEmail(email));
      i.Some? && isPasswordMatch(password, users[i.value].password) && users[i.value].isEmailVerified
    ensures r.Ok? ==> r.value in users && r.value.email == email && r.value.isEmailVerified
    ensures r.Ok? ==> r.value == users[FindUser(users, ByEmail(email)).value]
    ensures r == Err(IncorrectCredentials) <==>
      var i := FindUser(users, ByEmail(email));
      i.None? || !isPasswordMatch(password, users[i.value].password)
    ensures r == Err(UserNotVerified) <==>
      var i := FindUser(users, ByEmail(email));
      i.Some? && isPasswordMatch(password, users[i.value].password) && !users[i.value].isEmailVerified
  {
    match FindUser(users, ByEmail(email))
    case None => Err(IncorrectCredentials)
    case Some(i) =>
      if !isPasswordMatch(password, users[i].password) then Err(IncorrectCredentials)
      else if !users[i].isEmailVerified then Err(UserNotVerified)
      else Ok(users[i])
  }

  /** The filter `{ token, type: REFRESH, blacklisted: false }` of `logout`: no owner. */
  function LogoutQuery(refreshToken: TokenValue): Query {
    Query(Some(refreshToken), Some(Refresh), None, Some(false))
  }

  /** `logout`: the first non-blacklisted REFRESH document holding this token, whoever owns it,
      is removed and nothing else changes; with none, NOT_FOUND and nothing changes. The token's
      signature and expiry are not checked. */
  method Logout(tokens: TokenCollection, refreshToken: TokenValue) returns (r: Result<()>)
    modifies tokens
    ensures FindOne(old(tokens.docs), LogoutQuery(refreshToken)).None? ==>
      r == Err(LogoutNotFound) && tokens.docs == old(tokens.docs)
    ensures FindOne(old(tokens.docs), LogoutQuery(refreshToken)).Some? ==>
      var i := FindOne(old(tokens.docs), LogoutQuery(refreshToken)).value;
      && r == Ok(())
      && tokens.docs == RemoveAt(old(tokens.docs), i)
    ensures forall secret :: Consistent(old(tokens.docs), secret) ==> Consistent(tokens.docs, secret)
  {
    var found := FindOne(tokens.docs, LogoutQuery(refreshToken));
    if found.None? {
      return Err(LogoutNotFound);
    }
    tokens.Remove(found.value);
    return Ok(());
  }

  /** Both collections, as the step functions of the workflows see them. */
  datatype Db = Db(tokens: seq<TokenDoc>, users: seq<User>)

  /** What a workflow returns and the collections it leaves behind. */
  datatype Step<T> = Step(result: Result<T>, db: Db)

  /** `refreshAuth` as a function of the collections: every failure (bad signature, expiry, no
      stored document, no owner) is "Please authenticate" and leaves both collections as they
      were; success removes the consumed document and stores the refresh token of a new pair. */
  function RefreshStep(db: Db, refreshToken: TokenValue, cfg: JwtConfig, now: int): (s: Step<AuthTokens>)
    ensures s.result.Err? ==> s.result == Err(RefreshFailed) && s.db == db
    ensures s.result.Ok? <==>
      VerifyToken(db.tokens, refreshToken, Refresh, cfg.secret, now).Ok?
      && FindUser(db.users, ById(refreshToken.payload.sub)).Some?
    ensures s.result.Ok? ==>
      var sub := refreshToken.payload.sub;
      var i := FindOne(db.tokens, TokenQuery(refreshToken, Refresh, sub)).value;
      && s.result.value == AuthTokensFor(sub, cfg, now)
      && s.db.users == db.users
      && s.db.tokens == RemoveAt(db.tokens, i) + [RefreshDoc(sub, s.result.value)]
      && db.tokens[i] == TokenDoc(refreshToken, sub, db.tokens[i].expires, Refresh, false)
    ensures Consistent(db.tokens, cfg.secret) ==> Consistent(s.db.tokens, cfg.secret)
  {
    match VerifyToken(db.tokens, refreshToken, Refresh, cfg.secret, now)
    case Err(_) => Step(Err(RefreshFailed), db)
    case Ok(doc) =>
      match FindUser(db.users, ById(doc.user))
      case None => Step(Err(RefreshFailed), db)
      case Some(k) =>
        var i := FindOne(db.tokens, TokenQuery(refreshToken, Refresh, doc.user)).value;
        var pair := AuthTokensFor(db.users[k].id, cfg, now);
        Step(Ok(pair), db.(tokens := RemoveAt(db.tokens, i) + [RefreshDoc(db.users[k].id, pair)]))
  }

  /** `refreshAuth` */
  method RefreshAuth(tokens: TokenCollection, users: UserCollection, refreshToken: TokenValue, cfg: JwtConfig, now: int)
    returns (r: Result<AuthTokens>)
    modifies tokens
    ensures Step(r, Db(tokens.docs, users.docs)) == RefreshStep(Db(old(tokens.docs), users.docs), refreshToken, cfg, now)
  {
    var verified := VerifyToken(tokens.docs, refreshToken, Refresh, cfg.secret, now);
    if verified.Err? {
      return Err(RefreshFailed);
    }
    var refreshTokenDoc := verified.value;
    var found := FindUser(users.docs, ById(refreshTokenDoc.user));
    if found.None? {
      return Err(RefreshFailed);
    }
    var user := users.docs[found.value];
    var i := FindOne(tokens.docs, TokenQuery(refreshToken, Refresh, refreshTokenDoc.user)).value;
    tokens.Remove(i);
    var pair := GenerateAuthTokens(tokens, user, cfg, now);
    return Ok(pair);
  }

  /** `resetPassword` as a function of the collections: on success the owner's password is the
      new one and no RESET_PASSWORD document of the owner remains, while every other document and
      user is kept; any failure is "Password reset failed" and changes nothing. */
  function ResetPasswordStep(db: Db, resetPasswordToken: TokenValue, newPassword: string, secret: string, now: int): (s: Step<()>)
    ensures s.result.Err? ==> s.result == Err(ResetFailed) && s.db == db
    ensures s.result.Ok? <==>
      VerifyToken(db.tokens, resetPasswordToken, ResetPassword, secret, now).Ok?
      && FindUser(db.users, ById(resetPasswordToken.payload.sub)).Some?
    ensures s.result.Ok? ==>
      var sub := resetPasswordToken.payload.sub;
      var k := FindUser(db.users, ById(sub)).value;
      && s.db.users == db.users[k := db.users[k].(password := newPassword)]
      && (forall d :: multiset(s.db.tokens)[d] == if d.user == sub && d.kind == ResetPassword then 0 else multiset(db.tokens)[d])
    ensures Consistent(db.tokens, secret) ==> Consistent(s.db.tokens, secret)
  {
    match VerifyToken(db.tokens, resetPasswordToken, ResetPassword, secret, now)
    case Err(_) => Step(Err(ResetFailed), db)
    case Ok(doc) =>
      match FindUser(db.users, ById(doc.user))
      case None => Step(Err(ResetFailed), db)
      case Some(k) =>
        var user := db.users[k];
        Step(Ok(()), Db(
          DeleteMatching(db.tokens, KindQuery(user.id, ResetPassword)),
          db.users[k := user.(password := newPassword)]))
  }

  /** `resetPassword` */
  method ResetPasswordFlow(tokens: TokenCollection, users: UserCollection, resetPasswordToken: TokenValue, newPassword: string, secret: string, now: int)
    returns (r: Result<()>)
    modifies tokens, users
    ensures Step(r, Db(tokens.docs, users.docs)) == ResetPasswordStep(Db(old(tokens.docs), old(users.docs)), resetPasswordToken, newPassword, secret, now)
  {
    var verified := VerifyToken(tokens.docs, resetPasswordToken, ResetPassword, secret, now);
    if verified.Err? {
      return Err(ResetFailed);
    }
    var found := FindUser(users.docs, ById(verified.value.user));
    if found.None? {
      return Err(ResetFailed);
    }
    var user := users.docs[found.value];
    users.Update(found.value, user.(password := newPassword));
    tokens.DeleteMany(KindQuery(user.id, ResetPassword));
    return Ok(());
  }

  /** `verifyEmail` as a function of the collections: on success every VERIFY_EMAIL document of
      the owner is gone, the owner is marked verified and returned; any failure is "Email
      verification failed" and changes nothing. */
  function VerifyEmailStep(db: Db, verifyEmailToken: TokenValue, secret: string, now: int): (s: Step<User>)
    ensures s.result.Err? ==> s.result == Err(EmailVerificationFailed) && s.db == db
    ensures s.result.Ok? <==>
      VerifyToken(db.tokens, verifyEmailToken, VerifyEmail, secret, now).Ok?
      && FindUser(db.users, ById(verifyEmailToken.payload.sub)).Some?
    ensures s.result.Ok? ==>
      var sub := verifyEmailToken.payload.sub;
      var k := FindUser(db.users, ById(sub)).value;
      && s.result.value == db.users[k].(isEmailVerified := true)
      && s.db.users == db.users[k := s.result.value]
      && (forall d :: multiset(s.db.tokens)[d] == if d.user == sub && d.kind == VerifyEmail then 0 else multiset(db.tokens)[d])
    ensures Consistent(db.tokens, secret) ==> Consistent(s.db.tokens, secret)
  {
    match VerifyToken(db.tokens, verifyEmailToken, VerifyEmail, secret, now)
    case Err(_) => Step(Err(EmailVerificationFailed), db)
    case Ok(doc) =>
      match FindUser(db.users, ById(doc.user))
      case None => Step(Err(EmailVerificationFailed), db)
      case Some(k) =>
        var user := db.users[k];
        var updated := user.(isEmailVerified := true);
        Step(Ok(updated), Db(DeleteMatching(db.tokens, KindQuery(user.id, VerifyEmail)), db.users[k := updated]))
  }

  /** `verifyEmail` */
  method VerifyEmailFlow(tokens: TokenCollection, users: UserCollection, verifyEmailToken: TokenValue, secret: string, now: int)
    returns (r: Result<User>)
    modifies tokens, users
    ensures Step(r, Db(tokens.docs, users.docs)) == VerifyEmailStep(Db(old(tokens.docs), old(users.docs)), verifyEmailToken, secret, now)
  {
    var verified := VerifyToken(tokens.docs, verifyEmailToken, VerifyEmail, secret, now);
    if verified.Err? {
      return Err(EmailVerificationFailed);
    }
    var found := FindUser(users.docs, ById(verified.value.user));
    if found.None? {
      return Err(EmailVerificationFailed);
    }
    var user := users.docs[found.value];
    tokens.DeleteMany(KindQuery(user.id, VerifyEmail));
    var updated := user.(isEmailVerified := true);
    users.Update(found.value, updated);
    return Ok(updated);
  }

  /** `verifyCode` as a function of the collections: on success every VERIFY_OTP document of the
      user is gone, the user is marked verified and returned; any failure is "User verification
      failed" and changes nothing. */
  function VerifyCodeStep(db: Db, userId: UserId, code: TokenValue): (s: Step<User>)
    ensures s.result.Err? ==> s.result == Err(UserVerificationFailed) && s.db == db
    ensures s.result.Ok? <==>
      VerifyCode(db.tokens, userId, code, VerifyOtp).Ok? && FindUser(db.users, ById(userId)).Some?
    ensures s.result.Ok? ==>
      var k := FindUser(db.users, ById(userId)).value;
      && s.result.value == db.users[k].(isEmailVerified := true)
      && s.db.users == db.users[k := s.result.value]
      && (forall d :: multiset(s.db.tokens)[d] == if d.user == userId && d.kind == VerifyOtp then 0 else multiset(db.tokens)[d])
    ensures forall secret :: Consistent(db.tokens, secret) ==> Consistent(s.db.tokens, secret)
  {
    match VerifyCode(db.tokens, userId, code, VerifyOtp)
    case Err(_) => Step(Err(UserVerificationFailed), db)
    case Ok(doc) =>
      match FindUser(db.users, ById(doc.user))
      case None => Step(Err(UserVerificationFailed), db)
      case Some(k) =>
        var user := db.users[k];
        var updated := user.(isEmailVerified := true);
        Step(Ok(updated), Db(DeleteMatching(db.tokens, KindQuery(user.id, VerifyOtp)), db.users[k := updated]))
  }

  /** `verifyCode` */
  method VerifyCodeFlow(tokens: TokenCollection, users: UserCollection, userId: UserId, code: TokenValue)
    returns (r: Result<User>)
    modifies tokens, users
    ensures Step(r, Db(tokens.docs, users.docs)) == VerifyCodeStep(Db(old(tokens.docs), old(users.docs)), userId, code)
  {
    var verified := VerifyCode(tokens.docs, userId, code, VerifyOtp);
    if verified.Err? {
      return Err(UserVerificationFailed);
    }
    var found := FindUser(users.docs, ById(verified.value.user));
    if found.None? {
      return Err(UserVerificationFailed);
    }
    var user := users.docs[found.value];
    tokens.DeleteMany(KindQuery(user.id, VerifyOtp));
    var updated := user.(isEmailVerified := true);
    users.Update(found.value, updated);
    return Ok(updated);
  }

  /** The profile the identity provider's userinfo endpoint returns. */
  datatype GoogleUserInfo = GoogleUserInfo(
    name: string, givenName: string, familyName: string, picture: string, email: string, emailVerified: bool)

  /** The account types and ranks of the user configuration that this core uses. */
  datatype UserType = EmailAccount | GoogleAccount
  datatype Rank = Beginer

  /** The fields of a user about to be created from a Google profile. */
  datatype NewUser = NewUser(
    name: string, firstName: string, lastName: string, pictureUrl: string, email: string,
    accountType: UserType, password: string, isEmailVerified: bool, rank: Rank)

  /** `verifyGoogleToken`: `userInfo` is the provider's answer (`None` when fetching it failed in
      any way) and `generatedPassword` the random placeholder password. Any failure is "Google
      verification failed"; otherwise the profile is copied into an unsaved Google user of rank
      BEGINER whose verified flag is the provider's. */
  function VerifyGoogleToken(userInfo: Option<GoogleUserInfo>, generatedPassword: string): (r: Result<NewUser>)
    ensures r.Err? <==> userInfo.None?
    ensures r.Err? ==> r.error == GoogleVerificationFailed
    ensures r.Ok? ==>
      && r.value.accountType == GoogleAccount
      && r.value.rank == Beginer
      && r.value.email == userInfo.value.email
      && r.value.isEmailVerified == userInfo.value.emailVerified
      && r.value.password == generatedPassword
      && r.value.name == userInfo.value.name
      && r.value.firstName == userInfo.value.givenName
      && r.value.lastName == userInfo.value.familyName
      && r.value.pictureUrl == userInfo.value.picture
  {
    match userInfo
    case None => Err(GoogleVerificationFailed)
    case Some(info) =>
      Ok(NewUser(info.name, info.givenName, info.familyName, info.picture, info.email,
                 GoogleAccount, generatedPassword, info.emailVerified, Beginer))
  }

  /** Refresh rotation is single use: once a refresh token has been exchanged, presenting it
      again fails, provided it was the only stored document for that token and was not issued in
      the very second of the exchange (otherwise the new refresh token is the same JWT; see
      SameSecondRefreshReplays). */
  lemma RefreshIsSingleUse(db: Db, refreshToken: TokenValue, cfg: JwtConfig, now: int, later: int)
    requires RefreshStep(db, refreshToken, cfg, now).result.Ok?
    requires AtMostOne(db.tokens, TokenQuery(refreshToken, Refresh, refreshToken.payload.sub))
    requires refreshToken.payload.iat != now
    ensures RefreshStep(RefreshStep(db, refreshToken, cfg, now).db, refreshToken, cfg, later).result == Err(RefreshFailed)
  {
  }

  /** Two exchanges of the same refresh token within one second both succeed: the rotated token
      has the same claims as the consumed one, so it is the same JWT and is stored again. */
  lemma SameSecondRefreshReplays()
    ensures
      var cfg := JwtConfig("secret", 30, 30, 10, 10, 10);
      var token := AuthTokensFor("u1", cfg, 1000).refresh.token;
      var db := Db([RefreshDoc("u1", AuthTokensFor("u1", cfg, 1000))], [User("u1", "a@b.com", "pw", true)]);
      var first := RefreshStep(db, token, cfg, 1000);
      && first.result.Ok?
      && RefreshStep(first.db, token, cfg, 1000).result.Ok?
  {
  }

  /** A reset token is single use: after a successful reset, the same token fails. */
  lemma ResetPasswordIsSingleUse(db: Db, resetPasswordToken: TokenValue, newPassword: string, secret: string, now: int,
                                 laterPassword: string, later: int)
    requires ResetPasswordStep(db, resetPasswordToken, newPassword, secret, now).result.Ok?
    ensures
      var after := ResetPasswordStep(db, resetPasswordToken, newPassword, secret, now).db;
      ResetPasswordStep(after, resetPasswordToken, laterPassword, secret, later) == Step(Err(ResetFailed), after)
  {
  }

  /** An email-verification token is single use. */
  lemma VerifyEmailIsSingleUse(db: Db, verifyEmailToken: TokenValue, secret: string, now: int, later: int)
    requires VerifyEmailStep(db, verifyEmailToken, secret, now).result.Ok?
    ensures
      var after := VerifyEmailStep(db, verifyEmailToken, secret, now).db;
      VerifyEmailStep(after, verifyEmailToken, secret, later) == Step(Err(EmailVerificationFailed), after)
  {
  }

  /** A one-time code is single use: after a successful verification, the same code (and in
      fact every code) fails for that user. */
  lemma VerifyCodeIsSingleUse(db: Db, userId: UserId, code: TokenValue, anyCode: TokenValue)
    requires VerifyCodeStep(db, userId, code).result.Ok?
    ensures
      var after := VerifyCodeStep(db, userId, code).db;
      VerifyCodeStep(after, userId, anyCode) == Step(Err(UserVerificationFailed), after)
  {
  }

  /** Registration scenario: a user with no pending code is issued one by
      `generateUserVerifyOTP`; verifying that code marks the user verified, and verifying it a
      second time fails. */
  lemma {:induction false} IssuedOtpVerifiesOnce(db: Db, userId: UserId, code: int, expires: int)
    requires FindUser(db.users, ById(userId)).Some?
    requires forall j :: 0 <= j < |db.tokens| ==> !Satisfies(db.tokens[j], KindQuery(userId, VerifyOtp))
    ensures
      var issued := db.(tokens := OtpIssued(db.tokens, userId, code, expires));
      var first := VerifyCodeStep(issued, userId, Code(code));
      && first.result.Ok?
      && first.result.value.id == userId
      && first.result.value.isEmailVerified
      && VerifyCodeStep(first.db, userId, Code(code)).result == Err(UserVerificationFailed)
  {
    var tokens := OtpIssued(db.tokens, userId, code, expires);
    assert FindOne(db.tokens, KindQuery(userId, VerifyOtp)).None?;
    assert tokens[|db.tokens|] == TokenDoc(Code(code), userId, expires, VerifyOtp, false);
    assert Satisfies(tokens[|db.tokens|], TokenQuery(Code(code), VerifyOtp, userId));
    var issued := db.(tokens := tokens);
    VerifyCodeIsSingleUse(issued, userId, Code(code), Code(code));
  }
}
