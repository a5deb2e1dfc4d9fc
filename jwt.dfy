/** Signed tokens as the JSON Web Token library issues and checks them, reduced to what the
    services rely on: a token carries its payload, can be checked only with the key that signed
    it, and only strictly before its `exp` claim. */
module Jwt {
  import opened Results

  /** A user id: the string form of the user document's id. */
  type UserId = string

  /** The token kinds of the configuration's `tokenTypes`. */
  datatype TokenType = Access | Refresh | ResetPassword | VerifyEmail | VerifyOtp

  /** The claims a token carries: the registered claims `sub`, `iat` and `exp` of section 4.1 of
      RFC 7519 (times in whole seconds since the epoch) and the application's own `type` claim, here `kind`. */
  datatype Payload = Payload(sub: UserId, iat: int, exp: int, kind: TokenType)

  /** The value of a token field: a JWT signed with `key`, or a numeric one-time code. */
  datatype TokenValue = Signed(payload: Payload, key: string) | Code(code: int)

  /** `jwt.sign(payload, secret)`: the token can be checked with `secret` until `payload.exp`. */
  function Sign(payload: Payload, secret: string): (t: TokenValue)
    ensures forall key, now :: Verify(t, key, now).Ok? <==> key == secret && now < payload.exp
    ensures forall key, now :: Verify(t, key, now).Ok? ==> Verify(t, key, now).value == payload
  {
    Signed(payload, secret)
  }

  /** `jwt.verify(token, secret)` at clock reading `now`: a value that is not a JWT is malformed,
      the signature is checked before the expiry, and a token expires at the second `exp`. */
  function Verify(token: TokenValue, secret: string, now: int): (r: Result<Payload>)
    ensures r.Ok? <==> token.Signed? && token.key == secret && now < token.payload.exp
    ensures r.Ok? ==> r.value == token.payload
    ensures r.Err? ==> r.error.Thrown?
  {
    match token
    case Code(_) => Err(Thrown("jwt malformed"))
    case Signed(payload, key) =>
      if key != secret then Err(Thrown("invalid signature"))
      else if payload.exp <= now then Err(Thrown("jwt expired"))
      else Ok(payload)
  }
}
