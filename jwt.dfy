/**
 * Token issuance and verification. The signing library is abstract: a codec
 * turns a signed token value (header, claims and the key it is signed with)
 * into text and parses text back. What the library checks when it verifies a
 * token (algorithm, signature, `nbf`, `exp` with a clock tolerance, audience,
 * issuer) is modelled on the parsed value, with the library's messages, and
 * every failure goes through `JwtTokenError.mapJwtError` as in the service.
 */
module JwtSecurity {
  import opened Wrappers
  import opened AppErrors
  import TokenEnum

  /** The claim values the service writes: strings and (whole) numbers. */
  datatype Json = JStr(s: string) | JNum(n: int)

  type Claims = map<string, Json>

  datatype Header = Header(alg: string, typ: string)

  /** A token as the library sees it once parsed: its header, its claims and the key its signature verifies with. */
  datatype SignedJwt = SignedJwt(header: Header, claims: Claims, key: string)

  /** The library's encoder (which may throw) and parser (None when the text is not a token). */
  datatype Codec = Codec(sign: SignedJwt -> Result<string, Thrown>, parse: string -> Option<SignedJwt>)

  /** A codec whose tokens are non-empty and parse back to what was signed. */
  ghost predicate Sound(c: Codec) {
    forall j :: c.sign(j).Success? ==> c.sign(j).value != "" && c.parse(c.sign(j).value) == Some(j)
  }

  /** The codec and the configured secret. */
  datatype JwtContext = JwtContext(codec: Codec, secret: string)

  const Issuer := "fylokr"
  const Audience := "fylokr"
  const Algorithm := "HS256"
  const TokenType := "at+jwt"
  const ClockTolerance := 30

  /** `generateTokenTTL`: a count of units in seconds. */
  function GenerateTokenTTL(value: int, unit: TokenEnum.TTLUnit): (ttl: int)
    ensures value >= 0 ==> ttl >= value
    ensures ttl % TokenEnum.UnitSeconds(unit) == 0
    ensures ttl / TokenEnum.UnitSeconds(unit) == value
  {
    WholeUnits(value, unit);
    value * TokenEnum.UnitSeconds(unit)
  }

  /** A count of units is a whole number of units, no fewer seconds than the count, and the count is recovered by division. */
  lemma WholeUnits(value: int, unit: TokenEnum.TTLUnit)
    ensures value >= 0 ==> value * TokenEnum.UnitSeconds(unit) >= value
    ensures (value * TokenEnum.UnitSeconds(unit)) % TokenEnum.UnitSeconds(unit) == 0
    ensures (value * TokenEnum.UnitSeconds(unit)) / TokenEnum.UnitSeconds(unit) == value
  {
    match unit
    case Seconds =>
    case Minutes => assert value * 60 == 60 * value;
    case Days => assert value * 86400 == 86400 * value;
  }

  /** Seven days, the lifetime of every login token. */
  lemma SevenDays()
    ensures GenerateTokenTTL(7, TokenEnum.Days) == 604800
    ensures GenerateTokenTTL(7, TokenEnum.Days) == GenerateTokenTTL(10080, TokenEnum.Minutes)
  {
  }

  /** `Math.floor(ms / 1000)` for a clock reading in milliseconds. */
  function EpochSeconds(ms: int): (s: int)
    ensures s * 1000 <= ms < s * 1000 + 1000
  {
    ms / 1000
  }

  /** `getExpirationTimestamp`: the current second plus the lifetime. */
  function ExpirationTimestamp(nowMs: int, ttlSeconds: int): (exp: int)
    ensures (exp - ttlSeconds) * 1000 <= nowMs < (exp - ttlSeconds) * 1000 + 1000
  {
    EpochSeconds(nowMs) + ttlSeconds
  }

  /** The claims `generateToken` signs: the payload, overridden by iss, aud, jti, exp and iat. */
  function IssuedClaims(payload: Claims, jti: string, exp: int, iat: int): (c: Claims)
    ensures c.Keys == payload.Keys + {"iss", "aud", "jti", "exp", "iat"}
    ensures c["iss"] == JStr(Issuer) && c["aud"] == JStr(Audience) && c["jti"] == JStr(jti)
    ensures c["exp"] == JNum(exp) && c["iat"] == JNum(iat)
    ensures forall k :: k in payload && k !in {"iss", "aud", "jti", "exp", "iat"} ==> c[k] == payload[k]
  {
    payload + map["iss" := JStr(Issuer), "aud" := JStr(Audience), "jti" := JStr(jti), "exp" := JNum(exp), "iat" := JNum(iat)]
  }

  /** The token value `generateToken` signs. */
  function IssuedToken(secret: string, payload: Claims, jti: string, exp: int, iat: int): (t: SignedJwt)
    ensures t.header == Header(Algorithm, TokenType) && t.key == secret
    ensures t.claims.Keys == payload.Keys + {"iss", "aud", "jti", "exp", "iat"}
    ensures JtiOf(t.claims) == Some(jti) && t.claims["exp"] == JNum(exp) && t.claims["iat"] == JNum(iat)
    ensures t.claims["iss"] == JStr(Issuer) && t.claims["aud"] == JStr(Audience)
    ensures forall k :: k in payload && k !in {"iss", "aud", "jti", "exp", "iat"} ==> t.claims[k] == payload[k]
  {
    SignedJwt(Header(Algorithm, TokenType), IssuedClaims(payload, jti, exp, iat), secret)
  }

  /** When exp and iat are read within the same clock second, the token lives exactly the given lifetime. */
  lemma ExpiryIsIatPlusTtl(expClockMs: int, iatClockMs: int, ttlSeconds: int)
    requires EpochSeconds(expClockMs) == EpochSeconds(iatClockMs)
    ensures ExpirationTimestamp(expClockMs, ttlSeconds) == EpochSeconds(iatClockMs) + ttlSeconds
  {
  }

  /** The library's own errors, as they reach `mapJwtError`. */
  function LibraryError(message: string): Thrown {
    JwtLib(JsonWebToken, message, Captured)
  }

  /** The conditions the library's `verify` enforces, in its order, with the options the service passes. */
  datatype VerifyOptions = VerifyOptions(tolerance: nat, checkIssuerAndAudience: bool)

  /** The claim checks after the signature: not-before, expiry, audience, issuer. */
  function CheckClaims(claims: Claims, nowSeconds: int, opts: VerifyOptions): (r: Result<Claims, Thrown>)
    ensures r.Success? ==> r.value == claims
    ensures r.Success? && "exp" in claims ==> claims["exp"].JNum? && nowSeconds < claims["exp"].n + opts.tolerance
    ensures r.Success? && "nbf" in claims ==> claims["nbf"].JNum? && claims["nbf"].n <= nowSeconds + opts.tolerance
    ensures r.Success? && opts.checkIssuerAndAudience ==>
              "aud" in claims && claims["aud"] == JStr(Audience) && "iss" in claims && claims["iss"] == JStr(Issuer)
  {
    if "nbf" in claims && !claims["nbf"].JNum? then Failure(LibraryError("invalid nbf value"))
    else if "nbf" in claims && claims["nbf"].n > nowSeconds + opts.tolerance then Failure(JwtLib(NotBefore, "jwt not active", Captured))
    else if "exp" in claims && !claims["exp"].JNum? then Failure(LibraryError("invalid exp value"))
    else if "exp" in claims && nowSeconds >= claims["exp"].n + opts.tolerance then Failure(JwtLib(TokenExpired, "jwt expired", Captured))
    else if opts.checkIssuerAndAudience && !("aud" in claims && claims["aud"] == JStr(Audience)) then
      Failure(LibraryError("jwt audience invalid. expected: " + Audience))
    else if opts.checkIssuerAndAudience && !("iss" in claims && claims["iss"] == JStr(Issuer)) then
      Failure(LibraryError("jwt issuer invalid. expected: " + Issuer))
    else Success(claims)
  }

  /** The library's `verify(token, secret, { algorithms: ["HS256"], ... })`. */
  function LibraryVerify(ctx: JwtContext, token: string, nowSeconds: int, opts: VerifyOptions): (r: Result<Claims, Thrown>)
    ensures r.Success? ==> exists j :: ctx.codec.parse(token) == Some(j) && j.header.alg == Algorithm && j.key == ctx.secret && j.claims == r.value
  {
    match ctx.codec.parse(token)
    case None => Failure(LibraryError("jwt malformed"))
    case Some(j) =>
      if j.header.alg != Algorithm then Failure(LibraryError("invalid algorithm"))
      else if j.key != ctx.secret then Failure(LibraryError("invalid signature"))
      else CheckClaims(j.claims, nowSeconds, opts)
  }

  /** The options of `verifyAndDecodeToken`: 30 seconds of tolerance, issuer and audience "fylokr". */
  const DecodeOptions := VerifyOptions(ClockTolerance, true)

  /** The options of `getTokenJTI`: only the algorithm, so no tolerance and no issuer or audience check. */
  const JtiOptions := VerifyOptions(0, false)

  const NoToken := "No token supplied"

  /** The missing-token error keeps its message through `mapJwtError`. */
  lemma NoTokenMessage(cls: ErrorClass)
    ensures MapJwtError(App(NewError(cls, TextCause(NoToken)))).message == NoToken
  {
    var e := NewError(cls, TextCause(NoToken));
    assert NoToken != "";
    assert e.message == NoToken;
    assert App(e).ObjectMessage() == Some(NoToken);
  }

  /** `verifyAndDecodeToken`: the claims of a valid token; every failure is a JwtTokenError. */
  function VerifyAndDecodeToken(ctx: JwtContext, token: Option<string>, nowSeconds: int): (r: Result<Claims, AppError>)
    ensures r.Failure? ==> r.error.cls == JwtTokenError && r.error.WellFormed()
    ensures (token.None? || token == Some("")) ==> r.Failure? && r.error.message == NoToken
    ensures r.Success? ==> token.Some? && LibraryVerify(ctx, token.value, nowSeconds, DecodeOptions) == Success(r.value)
  {
    if token.None? || token.value == "" then
      NoTokenMessage(JwtTokenError);
      Failure(MapJwtError(App(NewError(JwtTokenError, TextCause(NoToken)))))
    else
      match LibraryVerify(ctx, token.value, nowSeconds, DecodeOptions)
      case Success(c) => Success(c)
      case Failure(t) => Failure(MapJwtError(t))
  }

  /** The `jti` claim, when it is a string. */
  function JtiOf(claims: Claims): (r: Option<string>)
    ensures r.Some? <==> "jti" in claims && claims["jti"].JStr?
    ensures r.Some? ==> claims["jti"] == JStr(r.value)
  {
    if "jti" in claims && claims["jti"].JStr? then Some(claims["jti"].s) else None
  }

  /**
   * `getTokenJTI`: the token's jti after checking only algorithm, signature
   * and the time claims without tolerance. The missing token raises a
   * BadRequestError inside the `try`, so it too leaves as a JwtTokenError.
   */
  function GetTokenJTI(ctx: JwtContext, token: Option<string>, nowSeconds: int): (r: Result<Option<string>, AppError>)
    ensures r.Failure? ==> r.error.cls == JwtTokenError && r.error.WellFormed()
    ensures (token.None? || token == Some("")) ==> r.Failure? && r.error.message == NoToken
    ensures r.Success? ==> token.Some? && LibraryVerify(ctx, token.value, nowSeconds, JtiOptions).Success?
                           && r.value == JtiOf(LibraryVerify(ctx, token.value, nowSeconds, JtiOptions).value)
  {
    if token.None? || token.value == "" then
      NoTokenMessage(BadRequestError);
      Failure(MapJwtError(App(NewError(BadRequestError, TextCause(NoToken)))))
    else
      match LibraryVerify(ctx, token.value, nowSeconds, JtiOptions)
      case Success(c) => Success(JtiOf(c))
      case Failure(t) => Failure(MapJwtError(t))
  }

  /**
   * `generateToken`, with the identifier `crypto.randomUUID()` returns as
   * `jti`: exp from one clock reading and iat from a second one, then the
   * signed text; a signing failure becomes a JwtTokenError.
   */
  function GenerateToken(ctx: JwtContext, payload: Claims, ttlSeconds: int, jti: string, expClockMs: int, iatClockMs: int)
    : (r: Result<string, AppError>)
    ensures r.Failure? ==> r.error.cls == JwtTokenError && r.error.WellFormed() && r.error.statusCode == 401
    ensures var signed := ctx.codec.sign(IssuedToken(ctx.secret, payload, jti, ExpirationTimestamp(expClockMs, ttlSeconds), EpochSeconds(iatClockMs)));
      (r.Success? <==> signed.Success?) && (r.Success? ==> signed == Success(r.value))
  {
    match ctx.codec.sign(IssuedToken(ctx.secret, payload, jti, ExpirationTimestamp(expClockMs, ttlSeconds), EpochSeconds(iatClockMs)))
    case Success(text) => Success(text)
    case Failure(err) => Failure(MapJwtError(err))
  }

  /**
   * With a sound codec, what `generateToken` returns verifies until 30 seconds
   * past its expiry and decodes to the issued claims, and yields its jti until
   * the expiry second.
   */
  lemma GeneratedTokenVerifies(ctx: JwtContext, payload: Claims, ttlSeconds: int, jti: string, expClockMs: int, iatClockMs: int, nowSeconds: int)
    requires Sound(ctx.codec)
    requires GenerateToken(ctx, payload, ttlSeconds, jti, expClockMs, iatClockMs).Success?
    requires "nbf" !in payload
    requires nowSeconds < ExpirationTimestamp(expClockMs, ttlSeconds) + ClockTolerance
    ensures var text := GenerateToken(ctx, payload, ttlSeconds, jti, expClockMs, iatClockMs).value;
      var exp := ExpirationTimestamp(expClockMs, ttlSeconds);
      VerifyAndDecodeToken(ctx, Some(text), nowSeconds) == Success(IssuedClaims(payload, jti, exp, EpochSeconds(iatClockMs)))
      && (nowSeconds < exp ==> GetTokenJTI(ctx, Some(text), nowSeconds) == Success(Some(jti)))
  {
    var text := GenerateToken(ctx, payload, ttlSeconds, jti, expClockMs, iatClockMs).value;
    var exp := ExpirationTimestamp(expClockMs, ttlSeconds);
    IssuedTokenVerifies(ctx, payload, jti, exp, EpochSeconds(iatClockMs), text, nowSeconds);
    if nowSeconds < exp {
      IssuedTokenJti(ctx, payload, jti, exp, EpochSeconds(iatClockMs), text, nowSeconds);
    }
  }

  /** The claims the service issues pass the claim checks while `exp` is not reached (allowing the tolerance). */
  lemma IssuedClaimsPass(payload: Claims, jti: string, exp: int, iat: int, nowSeconds: int, opts: VerifyOptions)
    requires "nbf" !in payload
    requires nowSeconds < exp + opts.tolerance
    ensures CheckClaims(IssuedClaims(payload, jti, exp, iat), nowSeconds, opts) == Success(IssuedClaims(payload, jti, exp, iat))
  {
    var c := IssuedClaims(payload, jti, exp, iat);
    assert "nbf" !in {"iss", "aud", "jti", "exp", "iat"};
    assert "nbf" !in c;
  }

  /**
   * With a sound codec, a token the service issued verifies, from its issue
   * second until 30 seconds past its expiry, and decodes to the issued claims.
   */
  lemma IssuedTokenVerifies(ctx: JwtContext, payload: Claims, jti: string, exp: int, iat: int, text: string, nowSeconds: int)
    requires Sound(ctx.codec)
    requires ctx.codec.sign(IssuedToken(ctx.secret, payload, jti, exp, iat)) == Success(text)
    requires "nbf" !in payload
    requires nowSeconds < exp + ClockTolerance
    ensures VerifyAndDecodeToken(ctx, Some(text), nowSeconds) == Success(IssuedClaims(payload, jti, exp, iat))
  {
    var t := IssuedToken(ctx.secret, payload, jti, exp, iat);
    assert ctx.codec.parse(text) == Some(t);
    IssuedClaimsPass(payload, jti, exp, iat, nowSeconds, DecodeOptions);
  }

  /** With a sound codec, an issued token yields its jti until its expiry second. */
  lemma IssuedTokenJti(ctx: JwtContext, payload: Claims, jti: string, exp: int, iat: int, text: string, nowSeconds: int)
    requires Sound(ctx.codec)
    requires ctx.codec.sign(IssuedToken(ctx.secret, payload, jti, exp, iat)) == Success(text)
    requires "nbf" !in payload
    requires nowSeconds < exp
    ensures GetTokenJTI(ctx, Some(text), nowSeconds) == Success(Some(jti))
  {
    var t := IssuedToken(ctx.secret, payload, jti, exp, iat);
    assert ctx.codec.parse(text) == Some(t);
    IssuedClaimsPass(payload, jti, exp, iat, nowSeconds, JtiOptions);
  }

  /**
   * In the 30 seconds after expiry an issued token still verifies, but reading
   * its jti fails with the library's expiry message, because `getTokenJTI`
   * passes no clock tolerance.
   */
  lemma ToleranceWindowMismatch(ctx: JwtContext, payload: Claims, jti: string, exp: int, iat: int, text: string, nowSeconds: int)
    requires Sound(ctx.codec)
    requires ctx.codec.sign(IssuedToken(ctx.secret, payload, jti, exp, iat)) == Success(text)
    requires "nbf" !in payload
    requires exp <= nowSeconds < exp + ClockTolerance
    ensures VerifyAndDecodeToken(ctx, Some(text), nowSeconds).Success?
    ensures GetTokenJTI(ctx, Some(text), nowSeconds) == Failure(MapJwtError(JwtLib(TokenExpired, "jwt expired", Captured)))
    ensures GetTokenJTI(ctx, Some(text), nowSeconds).error.message == "jwt expired"
  {
    var t := IssuedToken(ctx.secret, payload, jti, exp, iat);
    assert ctx.codec.parse(text) == Some(t);
    IssuedClaimsPass(payload, jti, exp, iat, nowSeconds, DecodeOptions);
    var c := IssuedClaims(payload, jti, exp, iat);
    assert "nbf" !in {"iss", "aud", "jti", "exp", "iat"};
    assert "nbf" !in c && "exp" in c && c["exp"] == JNum(exp);
    assert CheckClaims(c, nowSeconds, JtiOptions) == Failure(JwtLib(TokenExpired, "jwt expired", Captured));
  }

  /** A token signed with another key never verifies, whatever its claims. */
  lemma ForeignKeyRejected(ctx: JwtContext, token: string, nowSeconds: int, j: SignedJwt)
    requires ctx.codec.parse(token) == Some(j) && j.header.alg == Algorithm && j.key != ctx.secret
    ensures VerifyAndDecodeToken(ctx, Some(token), nowSeconds).Failure?
    ensures GetTokenJTI(ctx, Some(token), nowSeconds).Failure?
  {
  }

  /** Whatever `verifyAndDecodeToken` accepts carries iss and aud "fylokr" and has not expired beyond the tolerance. */
  lemma AcceptedClaims(ctx: JwtContext, token: Option<string>, nowSeconds: int)
    requires VerifyAndDecodeToken(ctx, token, nowSeconds).Success?
    ensures var c := VerifyAndDecodeToken(ctx, token, nowSeconds).value;
      "iss" in c && c["iss"] == JStr(Issuer) && "aud" in c && c["aud"] == JStr(Audience)
      && ("exp" in c ==> c["exp"].JNum? && nowSeconds < c["exp"].n + ClockTolerance)
  {
    var c := VerifyAndDecodeToken(ctx, token, nowSeconds).value;
    var j :| ctx.codec.parse(token.value) == Some(j) && j.header.alg == Algorithm && j.key == ctx.secret && j.claims == c;
    assert CheckClaims(j.claims, nowSeconds, DecodeOptions) == Success(c);
  }
}
