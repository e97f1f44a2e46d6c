/**
 * The sign-up service `AuthService.signUp`: a username that exists, even on a
 * soft-deleted row, is a conflict; otherwise one user is created with the
 * hashed password, a seven-day login token is issued for it, and the token's
 * session is cached under the client-heuristic fingerprint of the user-agent.
 */
module AuthService {
  import opened Wrappers
  import opened AppErrors
  import opened JwtSecurity
  import TokenEnum
  import opened UserAgent
  import ClientHeuristicFingerprint
  import DeviceFingerprint
  import opened RedisCore
  import opened AuthCache
  import opened BaseRepository
  import AuthMiddleware
  import ErrorHandler

  const UsernameTaken := "Username already exists"

  /** The lifetime of the sign-up token and of its session: seven days. */
  const TokenTtl := GenerateTokenTTL(7, TokenEnum.Days)

  /** `{ username }`. */
  function ByUsername(username: string): Entity -> bool {
    e => "username" in e && e["username"] == VStr(username)
  }

  /** `{ username, hashedPassword }`. */
  function NewUserData(username: string, hashedPassword: string): (d: Entity)
    ensures d.Keys == {"username", "hashedPassword"}
    ensures d["username"] == VStr(username) && d["hashedPassword"] == VStr(hashedPassword)
  {
    map["username" := VStr(username), "hashedPassword" := VStr(hashedPassword)]
  }

  /** The conflict `signUp` raises for a username that is taken. */
  function Conflict(): (e: AppError)
    ensures e.cls == ResourceConflictError && e.WellFormed() && e.message == UsernameTaken
  {
    NewError(ResourceConflictError, TextCause(UsernameTaken))
  }

  /**
   * The session step after the user was created: the signing error, or
   * `cacheLoginSession` of the new token, and then the token is returned.
   */
  function SignUpSession(m: Entries, failure: Option<string>, ctx: JwtContext, id: string, fingerprint: string,
                         signed: Result<string, Thrown>, now: int): (o: (Result<string, AppError>, Entries))
    ensures o.0.Success? ==> signed.Success? && o.0.value == signed.value && failure.None?
                             && Lookup(o.1, SessionKey(id, fingerprint), now).Some?
    ensures o.0.Failure? ==> o.1 == m
    ensures signed.Failure? ==> o.0 == Failure(MapJwtError(signed.error))
  {
    match signed
    case Failure(err) => (Failure(MapJwtError(err)), m)
    case Success(text) =>
      var c := CacheReply(m, failure, ctx, id, text, fingerprint, TokenTtl, now);
      (Returned(c.0, text), c.1)
  }

  /** What `cacheLoginSession` leaves for `signUp` to return. */
  function Returned(res: Result<(), AppError>, token: string): (r: Result<string, AppError>)
    ensures r.Success? <==> res.Success?
    ensures r.Success? ==> r.value == token
    ensures res.Failure? ==> r.error == res.error
  {
    match res
    case Success(_) => Success(token)
    case Failure(e) => Failure(e)
  }

  /**
   * `signUp`, with the password hash, the new row's generated id and other
   * database defaults, the identifier `uuid` that `crypto.randomUUID()` gives
   * the token, and one clock reading `nowMs` as parameters.
   */
  method SignUp(store: Store, repo: Repository, ctx: JwtContext, hash: string -> string,
                parse: string -> ParsedUA, sha256: string -> HexDigest, username: string, password: string,
                userAgent: string, newId: string, defaults: Entity, nowMs: int, uuid: string)
    returns (r: Result<string, AppError>)
    modifies store`entries, repo
    ensures old(repo.FindOne(ByUsername(username), Some(true))).Some? ==>
              r == Failure(Conflict()) && repo.rows == old(repo.rows) && store.entries == old(store.entries)
    ensures old(repo.FindOne(ByUsername(username), Some(true))).None? ==>
              repo.rows == old(repo.rows) + [Created(NewUserData(username, hash(password)), defaults["id" := VStr(newId)])]
              && (r, store.entries) == SignUpSession(old(store.entries), store.failure, ctx, newId,
                                                     ClientHeuristicFingerprint.GenerateHash(parse, sha256, userAgent),
                                                     ctx.codec.sign(SignUpToken(ctx, newId, uuid, nowMs)), EpochSeconds(nowMs))
  {
    var userExists := repo.FindOne(ByUsername(username), Some(true));
    if userExists.Some? {
      r := Failure(Conflict());
      return;
    }
    var hashedPassword := hash(password);
    var newUser := repo.CreateRecord(NewUserData(username, hashedPassword), defaults["id" := VStr(newId)]);
    r := IssueSession(store, ctx, newId, ClientHeuristicFingerprint.GenerateHash(parse, sha256, userAgent), nowMs, uuid);
  }

  /** The token value `signUp` signs: the login payload of the new id, seven days from `nowMs`. */
  function SignUpToken(ctx: JwtContext, newId: string, uuid: string, nowMs: int): (t: SignedJwt)
    ensures t.key == ctx.secret && JtiOf(t.claims) == Some(uuid)
    ensures AuthMiddleware.IsLoginToken(t.claims) && AuthMiddleware.IdClaim(t.claims) == Some(JStr(newId))
    ensures "iat" in t.claims && "exp" in t.claims
    ensures t.claims["iat"] == JNum(EpochSeconds(nowMs)) && t.claims["exp"] == JNum(EpochSeconds(nowMs) + 7 * 86400)
  {
    AuthMiddleware.LoginClaims(Some(JStr(newId)), uuid, ExpirationTimestamp(nowMs, TokenTtl), EpochSeconds(nowMs));
    IssuedToken(ctx.secret, AuthMiddleware.LoginPayload(Some(JStr(newId))), uuid, ExpirationTimestamp(nowMs, TokenTtl), EpochSeconds(nowMs))
  }

  /** Lines 34-55: the seven-day login token of the new user, its session cached under the fingerprint, then the token. */
  method IssueSession(store: Store, ctx: JwtContext, newId: string, fingerprintHash: string, nowMs: int, uuid: string)
    returns (r: Result<string, AppError>)
    modifies store`entries
    ensures (r, store.entries) == SignUpSession(old(store.entries), store.failure, ctx, newId, fingerprintHash,
                                                ctx.codec.sign(SignUpToken(ctx, newId, uuid, nowMs)), EpochSeconds(nowMs))
  {
    var token := GenerateToken(ctx, AuthMiddleware.LoginPayload(Some(JStr(newId))), TokenTtl, uuid, nowMs, nowMs);
    if token.Failure? {
      r := Failure(token.error);
      return;
    }
    var res := CacheLoginSession(store, ctx, newId, token.value, fingerprintHash, TokenTtl, EpochSeconds(nowMs));
    r := Returned(res, token.value);
  }

  /** The created row holds the username and the hash, and the id the database generated. */
  lemma CreatedUserRow(username: string, hashedPassword: string, newId: string, defaults: Entity)
    ensures var row := Created(NewUserData(username, hashedPassword), defaults["id" := VStr(newId)]);
      row["username"] == VStr(username) && row["hashedPassword"] == VStr(hashedPassword) && row["id"] == VStr(newId)
      && ByUsername(username)(row)
  {
    var data := NewUserData(username, hashedPassword);
    assert "id" !in data.Keys;
  }

  /** The token lifetime and the session lifetime are one value, seven days, the same the middleware uses. */
  lemma TtlsAgree()
    ensures TokenTtl == 604800 && TokenTtl == AuthMiddleware.LoginTtl
  {
  }

  /**
   * On a working store, the token `signUp` returns is the one whose jti it
   * cached: the session under the new id and this user-agent's client
   * fingerprint holds that jti until the token expires.
   */
  lemma ReturnedTokenIsCached(m: Entries, ctx: JwtContext, newId: string, fp: string, nowMs: int, jti: string,
                              text: string, later: int)
    requires Sound(ctx.codec)
    requires ctx.codec.sign(IssuedToken(ctx.secret, AuthMiddleware.LoginPayload(Some(JStr(newId))), jti,
                                        ExpirationTimestamp(nowMs, TokenTtl), EpochSeconds(nowMs))) == Success(text)
    requires EpochSeconds(nowMs) <= later < EpochSeconds(nowMs) + TokenTtl
    ensures var o := SignUpSession(m, None, ctx, newId, fp, Success(text), EpochSeconds(nowMs));
      o.0 == Success(text) && Lookup(o.1, SessionKey(newId, fp), later) == Some(jti)
  {
    var now := EpochSeconds(nowMs);
    var exp := ExpirationTimestamp(nowMs, TokenTtl);
    assert exp == now + TokenTtl;
    IssuedTokenJti(ctx, AuthMiddleware.LoginPayload(Some(JStr(newId))), jti, exp, now, text, now);
    var s := SetReply(m, None, SessionKey(newId, fp), jti, Some(Whole(TokenTtl)), now);
    assert Lookup(s.1, SessionKey(newId, fp), later) == Some(jti);
  }

  /**
   * The sign-up fingerprint hashes a text with "|" separators, the
   * middleware's hashes one without any when the device fields have none,
   * so the two derivers never hash the same text for a user-agent.
   */
  lemma FingerprintMaterialsDiffer(parse: string -> ParsedUA, userAgent: string)
    requires var d := DeviceFingerprint.Generate(parse(AuthMiddleware.UserAgentOrUnknown(Some(userAgent))));
      ClientHeuristicFingerprint.NoBar(d.deviceType) && ClientHeuristicFingerprint.NoBar(d.deviceCPU)
      && ClientHeuristicFingerprint.NoBar(d.deviceModel)
    ensures ClientHeuristicFingerprint.Material(ClientHeuristicFingerprint.Extract(parse(userAgent)))
            != DeviceFingerprint.Material(DeviceFingerprint.Generate(parse(AuthMiddleware.UserAgentOrUnknown(Some(userAgent)))))
  {
    var h := ClientHeuristicFingerprint.Extract(parse(userAgent));
    var d := DeviceFingerprint.Generate(parse(AuthMiddleware.UserAgentOrUnknown(Some(userAgent))));
    ClientHeuristicFingerprint.MaterialHasBar(h);
    DeviceFingerprint.MaterialWithoutBar(d);
  }

  /**
   * When the two truncated digests differ, the session `signUp` caches is not
   * the one the middleware reads for the same user-agent: the middleware's
   * session key is untouched by the sign-up, so its session check for the
   * sign-up token misses and it falls through to the user lookup and a refresh.
   */
  lemma SignUpSessionMissedByMiddleware(m: Entries, failure: Option<string>, ctx: JwtContext, parse: string -> ParsedUA,
                                        sha256: string -> HexDigest, newId: string, userAgent: string,
                                        signed: Result<string, Thrown>, now: int, later: int)
    requires ClientHeuristicFingerprint.GenerateHash(parse, sha256, userAgent)
             != AuthMiddleware.Fingerprint(parse, sha256, Some(userAgent))
    ensures var o := SignUpSession(m, failure, ctx, newId, ClientHeuristicFingerprint.GenerateHash(parse, sha256, userAgent), signed, now);
      var key := SessionKey(newId, AuthMiddleware.Fingerprint(parse, sha256, Some(userAgent)));
      Lookup(o.1, key, later) == Lookup(m, key, later)
  {
    var fpSignUp := ClientHeuristicFingerprint.GenerateHash(parse, sha256, userAgent);
    var fpDevice := AuthMiddleware.Fingerprint(parse, sha256, Some(userAgent));
    assert SessionKey(newId, fpSignUp) != SessionKey(newId, fpDevice) by {
      assert SessionKey(newId, fpSignUp) == SessionPrefix(newId) + fpSignUp;
      assert SessionKey(newId, fpDevice) == SessionPrefix(newId) + fpDevice;
      assert fpSignUp == SessionKey(newId, fpSignUp)[|SessionPrefix(newId)|..];
      assert fpDevice == SessionKey(newId, fpDevice)[|SessionPrefix(newId)|..];
    }
  }

  /**
   * The session step of `signUp` as the code is written: a signing error, or
   * else the TypeError `cacheLoginSession` throws before it touches the
   * cache. The row created just before stays in the table.
   */
  function SignUpSessionAsWritten(m: Entries, signed: Result<string, Thrown>): (Result<string, Thrown>, Entries) {
    match signed
    case Failure(err) => (Failure(App(MapJwtError(err))), m)
    case Success(_) => (Failure(StaticJtiCallError), m)
  }

  /**
   * As written, a sign-up whose token is signed ends in a TypeError, which
   * the error handler answers with a 500, and caches nothing; the corrected
   * step on a working store returns the token.
   */
  lemma StaticJtiCallFailsSignUp(m: Entries, ctx: JwtContext, newId: string, fp: string, nowMs: int, jti: string,
                                 text: string, includeStackTrace: bool, isVerbose: bool)
    requires Sound(ctx.codec)
    requires ctx.codec.sign(IssuedToken(ctx.secret, AuthMiddleware.LoginPayload(Some(JStr(newId))), jti,
                                        ExpirationTimestamp(nowMs, TokenTtl), EpochSeconds(nowMs))) == Success(text)
    ensures var w := SignUpSessionAsWritten(m, Success(text));
      w.0.Failure? && w.1 == m && ErrorHandler.HandleError(w.0.error, includeStackTrace, isVerbose).statusCode == 500
    ensures SignUpSession(m, None, ctx, newId, fp, Success(text), EpochSeconds(nowMs)).0 == Success(text)
  {
    ErrorHandler.ForeignErrorsAreServerErrors(StaticJtiCallError, includeStackTrace, isVerbose);
    ReturnedTokenIsCached(m, ctx, newId, fp, nowMs, jti, text, EpochSeconds(nowMs));
  }
}
