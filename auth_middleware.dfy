/**
 * The authentication middleware `userAuthentication`: it reads the bearer
 * token, verifies it, requires a login token, and admits the request when the
 * login session of this device holds the token's jti. Otherwise it looks the
 * user up, and an active user gets a fresh seven-day token whose session is
 * cached for this device. Every failure becomes a JSON error response.
 *
 * `Gate` is the decision up to the user lookup, as a function of the state it
 * reads; `Refresh` is what the token-refresh step answers and writes.
 */
module AuthMiddleware {
  import opened Wrappers
  import opened Strings
  import HttpStatus
  import opened AppErrors
  import opened JwtSecurity
  import TokenEnum
  import opened UserAgent
  import DeviceFingerprint
  import opened RedisCore
  import opened AuthCache
  import opened BaseRepository

  /** The parts of the request and response the middleware reads. */
  datatype Request = Request(headersSent: bool, authorization: Option<string>, userAgent: Option<string>)

  /** Nothing (headers already sent), a JSON error `{ error: { message, type } }` with a status, or `next()` with `request.user.id`. */
  datatype Outcome = NoAction | Respond(status: nat, body: ApiObject) | Next(userId: Option<Json>)

  const TokenRequired := "Authorization Token Required"
  const InvalidToken := "Unauthorized - Invalid token"
  const AccessCodeRequired := "Unauthorized - Request for access code"

  /** The lifetime of the refreshed token and of its session: seven days. */
  const LoginTtl := GenerateTokenTTL(7, TokenEnum.Days)

  /** `replace(/^Bearer\s+/i, "")`: drops a leading "Bearer" in any case and all the white space after it. */
  function StripBearer(h: string): (t: string)
    ensures |t| <= |h| && t == h[|h| - |t|..]
    ensures t != h ==> |h| > 6 && ToLower(h[..6]) == "bearer" && IsSpace(h[6])
                       && (forall i :: 6 <= i < |h| - |t| ==> IsSpace(h[i]))
                       && (|t| > 0 ==> !IsSpace(t[0]))
    ensures !(|h| > 6 && ToLower(h[..6]) == "bearer" && IsSpace(h[6])) ==> t == h
  {
    if |h| > 6 && ToLower(h[..6]) == "bearer" && IsSpace(h[6]) then
      TrimStartSuffix(h[6..]);
      TrimStart(h[6..])
    else h
  }

  /** `extractAuthorizationToken`: nothing for an absent or empty header, else the header without its scheme. */
  function ExtractAuthorizationToken(authorization: Option<string>): (t: Option<string>)
    ensures authorization.None? || authorization == Some("") ==> t.None?
    ensures authorization.Some? && authorization.value != "" ==> t == Some(StripBearer(authorization.value))
  {
    if authorization.None? || authorization.value == "" then None else Some(StripBearer(authorization.value))
  }

  /** Leading white space is all that `TrimStart` removes. */
  lemma {:induction false} TrimSpaces(spaces: string, t: string)
    requires forall i :: 0 <= i < |spaces| ==> IsSpace(spaces[i])
    requires |t| > 0 ==> !IsSpace(t[0])
    ensures TrimStart(spaces + t) == t
  {
    if |spaces| > 0 {
      assert (spaces + t)[1..] == spaces[1..] + t;
      TrimSpaces(spaces[1..], t);
    } else {
      assert spaces + t == t;
    }
  }

  /** The scheme in any letter case and any run of white space come off, and exactly the token is left. */
  lemma BearerRoundTrip(scheme: string, spaces: string, t: string)
    requires |scheme| == 6 && ToLower(scheme) == "bearer"
    requires |spaces| > 0 && forall i :: 0 <= i < |spaces| ==> IsSpace(spaces[i])
    requires |t| > 0 ==> !IsSpace(t[0])
    ensures ExtractAuthorizationToken(Some(scheme + spaces + t)) == Some(t)
  {
    var rest := spaces + t;
    var h := scheme + rest;
    assert scheme + spaces + t == h;
    assert h[..6] == scheme;
    assert h[6..] == rest;
    assert IsSpace(h[6]) by {
      assert h[6] == rest[0] == spaces[0];
    }
    TrimSpaces(spaces, t);
  }

  /** A status with the UNAUTHORIZED type and the given message. */
  function UnauthorizedReply(message: string): Outcome {
    Respond(HttpStatus.StatusCode(HttpStatus.Unauthorized), ApiObject(HttpStatus.Unauthorized, message))
  }

  /** The `catch`: a JwtTokenError answers with its own status, type and exposed message; anything else is a 500. */
  function Caught(e: AppError, isVerbose: bool): Outcome {
    if e.cls == JwtTokenError then Respond(e.statusCode, ToApiObject(e, isVerbose))
    else InternalReply()
  }

  /** The 500 INTERNAL_SERVER_ERROR response with the default text. */
  function InternalReply(): Outcome {
    Respond(HttpStatus.StatusCode(HttpStatus.InternalServerError),
            ApiObject(HttpStatus.InternalServerError, HttpStatus.DefaultMessage(HttpStatus.InternalServerError)))
  }

  /** The `catch` for any thrown value: a value that is not a JwtTokenError, a TypeError for one, is a 500. */
  function CaughtThrown(t: Thrown, isVerbose: bool): Outcome {
    match t
    case App(e) => Caught(e, isVerbose)
    case _ => InternalReply()
  }

  /** `tokenCategory === "LOGIN"`. */
  predicate IsLoginToken(claims: Claims): (b: bool)
    ensures b ==> "tokenCategory" in claims && claims["tokenCategory"].JStr?
                  && TokenEnum.CategoryFromName(claims["tokenCategory"].s) == Some(TokenEnum.Login)
    ensures "tokenCategory" in claims && claims["tokenCategory"] == JStr(TokenEnum.CategoryName(TokenEnum.Signup)) ==> !b
  {
    "tokenCategory" in claims && claims["tokenCategory"] == JStr(TokenEnum.CategoryName(TokenEnum.Login))
  }

  /** The `id` claim; absent is `undefined`. */
  function IdClaim(claims: Claims): (id: Option<Json>)
    ensures id.Some? <==> "id" in claims
    ensures id.Some? ==> claims["id"] == id.value
  {
    if "id" in claims then Some(claims["id"]) else None
  }

  /** The id as a template literal writes it into the session key. */
  function IdText(id: Option<Json>): string {
    match id
    case None => "undefined"
    case Some(JStr(s)) => s
    case Some(JNum(n)) => IntToString(n)
  }

  /** A claim value as a column value. */
  function ColumnValue(j: Json): Value {
    match j
    case JStr(s) => VStr(s)
    case JNum(n) => VInt(n)
  }

  /** `{ id, isActive: true, deletedAt: IsNull() }`; an undefined id adds no condition. */
  function ActiveUser(id: Option<Json>): Entity -> bool {
    e => (id.Some? ==> "id" in e && e["id"] == ColumnValue(id.value))
         && "isActive" in e && e["isActive"] == VBool(true)
         && DeletedAt in e && e[DeletedAt] == VNull
  }

  /** `{ id, tokenCategory: LOGIN }`; an undefined id is dropped when the payload is serialised. */
  function LoginPayload(id: Option<Json>): (p: Claims)
    ensures IdClaim(p) == id
    ensures "tokenCategory" in p && p["tokenCategory"] == JStr("LOGIN")
    ensures p.Keys <= {"id", "tokenCategory"}
  {
    match id
    case None => map["tokenCategory" := JStr(TokenEnum.CategoryName(TokenEnum.Login))]
    case Some(j) => map["id" := j, "tokenCategory" := JStr(TokenEnum.CategoryName(TokenEnum.Login))]
  }

  /** `request.headers["user-agent"] || "unknown"`. */
  function UserAgentOrUnknown(ua: Option<string>): (s: string)
    ensures ua.Some? && ua.value != "" ==> s == ua.value
    ensures ua.None? || ua == Some("") ==> s == "unknown"
  {
    if ua.Some? && ua.value != "" then ua.value else "unknown"
  }

  /** The decision before any write: a final outcome, or an active user whose session is to be refreshed. */
  datatype GateResult = Stop(outcome: Outcome) | Issue(id: Option<Json>, identifier: string, fingerprint: string)

  function Gate(req: Request, m: Entries, failure: Option<string>, rows: seq<Entity>, ctx: JwtContext,
                parse: string -> ParsedUA, sha256: string -> HexDigest, isVerbose: bool, now: int): GateResult
  {
    if req.headersSent then Stop(NoAction)
    else GateToken(ExtractAuthorizationToken(req.authorization), Fingerprint(parse, sha256, req.userAgent),
                   m, failure, rows, ctx, isVerbose, now)
  }

  /** The device fingerprint of the request's user-agent. */
  function Fingerprint(parse: string -> ParsedUA, sha256: string -> HexDigest, ua: Option<string>): (fp: string)
    ensures IsFingerprint(fp)
    ensures ua.None? || ua == Some("") ==> fp == DeviceFingerprint.GenerateHash(parse, sha256, "unknown")
    ensures ua.Some? && ua.value != "" ==> fp == DeviceFingerprint.GenerateHash(parse, sha256, ua.value)
  {
    DeviceFingerprint.GenerateHash(parse, sha256, UserAgentOrUnknown(ua))
  }

  /** After extracting the token: an absent or empty one is refused, any other is verified. */
  function GateToken(token: Option<string>, fp: string, m: Entries, failure: Option<string>, rows: seq<Entity>,
                     ctx: JwtContext, isVerbose: bool, now: int): GateResult
  {
    if token.None? || token.value == "" then Stop(UnauthorizedReply(TokenRequired))
    else GateClaims(token.value, VerifyAndDecodeToken(ctx, token, now), fp, m, failure, rows, ctx, isVerbose, now)
  }

  /** After verifying: only a login token goes on to the session check. */
  function GateClaims(token: string, decoded: Result<Claims, AppError>, fp: string, m: Entries, failure: Option<string>,
                      rows: seq<Entity>, ctx: JwtContext, isVerbose: bool, now: int): GateResult
  {
    match decoded
    case Failure(e) => Stop(Caught(e, isVerbose))
    case Success(claims) =>
      if !IsLoginToken(claims) then Stop(UnauthorizedReply(InvalidToken))
      else
        var id := IdClaim(claims);
        GateSession(id, SessionValidReply(m, failure, ctx, IdText(id), token, fp, now), fp, rows, isVerbose)
  }

  /** After the session check: a valid session admits, otherwise an active user is needed for a refresh. */
  function GateSession(id: Option<Json>, valid: Result<bool, AppError>, fp: string, rows: seq<Entity>, isVerbose: bool): GateResult
  {
    match valid
    case Failure(e) => Stop(Caught(e, isVerbose))
    case Success(v) =>
      if v then Stop(Next(id)) else GateUser(id, fp, rows)
  }

  /** After a missed session: no active user with the id is refused, an active one is refreshed. */
  function GateUser(id: Option<Json>, fp: string, rows: seq<Entity>): GateResult {
    if FirstIndex(rows, ActiveUser(id), false).None? then Stop(UnauthorizedReply(AccessCodeRequired))
    else Issue(id, IdText(id), fp)
  }

  /**
   * The refresh step after the user was found: the new token, or its signing
   * error; then `cacheLoginSession`, whose failures reach the `catch`.
   */
  function Refresh(m: Entries, failure: Option<string>, ctx: JwtContext, id: Option<Json>, identifier: string,
                   fingerprint: string, signed: Result<string, Thrown>, isVerbose: bool, now: int): (o: (Outcome, Entries))
    ensures o.0.Next? ==> o.0 == Next(id) && signed.Success? && failure.None?
                          && Lookup(o.1, SessionKey(identifier, fingerprint), now).Some?
    ensures !o.0.Next? ==> o.0.Respond? && o.1 == m
  {
    match signed
    case Failure(err) => (Caught(MapJwtError(err), isVerbose), m)
    case Success(text) =>
      var c := CacheReply(m, failure, ctx, identifier, text, fingerprint, LoginTtl, now);
      (AfterCache(c.0, id, isVerbose), c.1)
  }

  /** What `cacheLoginSession` leaves for the response. */
  function AfterCache(res: Result<(), AppError>, id: Option<Json>, isVerbose: bool): (o: Outcome)
    ensures o.Next? <==> res.Success?
    ensures o.Next? ==> o.userId == id
    ensures res.Failure? ==> o == Caught(res.error, isVerbose)
  {
    match res
    case Success(_) => Next(id)
    case Failure(e) => Caught(e, isVerbose)
  }

  /**
   * What a request leaves behind for the decision `g`, as the response and the
   * new cache: a final outcome leaves the cache as it was; an issue signs the
   * seven-day login token carrying `uuid` as its jti, and answers and updates
   * the cache as `Refresh` says for that signing result.
   */
  function Settle(g: GateResult, m: Entries, failure: Option<string>, ctx: JwtContext, isVerbose: bool, nowMs: int,
                  uuid: string): (Outcome, Entries)
  {
    match g
    case Stop(outcome) => (outcome, m)
    case Issue(id, identifier, fingerprint) =>
      Refresh(m, failure, ctx, id, identifier, fingerprint,
              ctx.codec.sign(IssuedToken(ctx.secret, LoginPayload(id), uuid, ExpirationTimestamp(nowMs, LoginTtl), EpochSeconds(nowMs))),
              isVerbose, EpochSeconds(nowMs))
  }

  /**
   * `userAuthentication`, with one clock reading `nowMs` for the whole request
   * and the identifier `uuid` that `crypto.randomUUID()` gives a refreshed
   * token: it settles as `Gate` decides.
   */
  method UserAuthentication(req: Request, store: Store, repo: Repository, ctx: JwtContext,
                            parse: string -> ParsedUA, sha256: string -> HexDigest, isVerbose: bool, nowMs: int, uuid: string)
    returns (o: Outcome)
    modifies store`entries
    ensures (o, store.entries) == Settle(Gate(req, old(store.entries), store.failure, repo.rows, ctx, parse, sha256, isVerbose, EpochSeconds(nowMs)),
                                         old(store.entries), store.failure, ctx, isVerbose, nowMs, uuid)
  {
    if req.headersSent {
      o := NoAction;
      return;
    }
    var token := ExtractAuthorizationToken(req.authorization);
    var fp := Fingerprint(parse, sha256, req.userAgent);
    o := AuthorizeToken(store, repo, ctx, token, fp, isVerbose, nowMs, uuid);
  }

  /** Lines 38-106 for the extracted token: an absent or empty one is refused, any other is verified. */
  method AuthorizeToken(store: Store, repo: Repository, ctx: JwtContext, token: Option<string>, fp: string,
                        isVerbose: bool, nowMs: int, uuid: string)
    returns (o: Outcome)
    modifies store`entries
    ensures (o, store.entries) == Settle(GateToken(token, fp, old(store.entries), store.failure, repo.rows, ctx, isVerbose, EpochSeconds(nowMs)),
                                         old(store.entries), store.failure, ctx, isVerbose, nowMs, uuid)
  {
    if token.None? || token.value == "" {
      o := UnauthorizedReply(TokenRequired);
      return;
    }
    var decoded := VerifyAndDecodeToken(ctx, token, EpochSeconds(nowMs));
    o := AuthorizeClaims(store, repo, ctx, token.value, decoded, fp, isVerbose, nowMs, uuid);
  }

  /** Lines 49-106 for the verification result: only a login token goes on to the session check. */
  method AuthorizeClaims(store: Store, repo: Repository, ctx: JwtContext, token: string,
                         decoded: Result<Claims, AppError>, fp: string, isVerbose: bool, nowMs: int, uuid: string)
    returns (o: Outcome)
    modifies store`entries
    ensures (o, store.entries) == Settle(GateClaims(token, decoded, fp, old(store.entries), store.failure, repo.rows, ctx, isVerbose, EpochSeconds(nowMs)),
                                         old(store.entries), store.failure, ctx, isVerbose, nowMs, uuid)
  {
    if decoded.Failure? {
      o := Caught(decoded.error, isVerbose);
      return;
    }
    var claims := decoded.value;
    if !IsLoginToken(claims) {
      o := UnauthorizedReply(InvalidToken);
      return;
    }
    o := CheckSession(store, repo, ctx, token, IdClaim(claims), fp, isVerbose, nowMs, uuid);
  }

  /** Lines 67-106 for a login token: `isLoginSessionValid` with the id and the device fingerprint. */
  method CheckSession(store: Store, repo: Repository, ctx: JwtContext, token: string, id: Option<Json>,
                      fp: string, isVerbose: bool, nowMs: int, uuid: string)
    returns (o: Outcome)
    modifies store`entries
    ensures (o, store.entries) == Settle(GateSession(id, SessionValidReply(old(store.entries), store.failure, ctx, IdText(id), token, fp,
                                                                           EpochSeconds(nowMs)), fp, repo.rows, isVerbose),
                                         old(store.entries), store.failure, ctx, isVerbose, nowMs, uuid)
  {
    var valid := IsLoginSessionValid(store, ctx, IdText(id), token, fp, EpochSeconds(nowMs));
    o := AuthenticateLogin(store, repo, ctx, valid, id, fp, isVerbose, nowMs, uuid);
  }

  /** Lines 69-106 for the session check's answer: a valid session admits, otherwise the user is looked up. */
  method AuthenticateLogin(store: Store, repo: Repository, ctx: JwtContext, valid: Result<bool, AppError>,
                           id: Option<Json>, fp: string, isVerbose: bool, nowMs: int, uuid: string)
    returns (o: Outcome)
    modifies store`entries
    ensures (o, store.entries) == Settle(GateSession(id, valid, fp, repo.rows, isVerbose),
                                         old(store.entries), store.failure, ctx, isVerbose, nowMs, uuid)
  {
    if valid.Failure? {
      o := Caught(valid.error, isVerbose);
      return;
    }
    if valid.value {
      o := Next(id);
      return;
    }
    o := RefreshActiveUser(store, repo, ctx, id, fp, isVerbose, nowMs, uuid);
  }

  /** Lines 77-106: no active user is a 401; an active one gets a refreshed token and session. */
  method RefreshActiveUser(store: Store, repo: Repository, ctx: JwtContext, id: Option<Json>, fp: string,
                           isVerbose: bool, nowMs: int, uuid: string)
    returns (o: Outcome)
    modifies store`entries
    ensures (o, store.entries) == Settle(GateUser(id, fp, repo.rows),
                                         old(store.entries), store.failure, ctx, isVerbose, nowMs, uuid)
  {
    var user := repo.FindOne(ActiveUser(id), None);
    if user.None? {
      o := UnauthorizedReply(AccessCodeRequired);
      return;
    }
    o := RefreshSession(store, ctx, id, IdText(id), fp, isVerbose, nowMs, uuid);
  }

  /** Lines 92-106: a new seven-day login token for the same id, its session cached for this device, then `next()`. */
  method RefreshSession(store: Store, ctx: JwtContext, id: Option<Json>, identifier: string, fp: string,
                        isVerbose: bool, nowMs: int, uuid: string)
    returns (o: Outcome)
    modifies store`entries
    ensures (o, store.entries) == Settle(Issue(id, identifier, fp),
                                         old(store.entries), store.failure, ctx, isVerbose, nowMs, uuid)
  {
    var newToken := GenerateToken(ctx, LoginPayload(id), LoginTtl, uuid, nowMs, nowMs);
    if newToken.Failure? {
      o := Caught(newToken.error, isVerbose);
      return;
    }
    var res := CacheLoginSession(store, ctx, identifier, newToken.value, fp, LoginTtl, EpochSeconds(nowMs));
    o := AfterCache(res, id, isVerbose);
  }

  /** An error response is a 401 UNAUTHORIZED or a 500 INTERNAL_SERVER_ERROR. */
  predicate UnauthorizedOrInternal(o: Outcome) {
    o.Respond? ==>
      (o.status == 401 && o.body.errorType == HttpStatus.Unauthorized)
      || (o.status == 500 && o.body.errorType == HttpStatus.InternalServerError)
  }

  /** Every error response of the session stage is a 401 or a 500, when its token errors are well-formed. */
  lemma SessionStageResponses(id: Option<Json>, valid: Result<bool, AppError>, fp: string, rows: seq<Entity>, isVerbose: bool)
    requires valid.Failure? && valid.error.cls == JwtTokenError ==> valid.error.WellFormed()
    ensures GateSession(id, valid, fp, rows, isVerbose).Stop? ==> UnauthorizedOrInternal(GateSession(id, valid, fp, rows, isVerbose).outcome)
  {
    if valid.Failure? && valid.error.cls == JwtTokenError {
      assert valid.error.errorType == HttpStatus.Unauthorized;
    }
  }

  /** Every error response is a 401 UNAUTHORIZED or a 500 INTERNAL_SERVER_ERROR. */
  lemma ResponsesAreUnauthorizedOrInternal(req: Request, m: Entries, failure: Option<string>, rows: seq<Entity>, ctx: JwtContext,
                                           parse: string -> ParsedUA, sha256: string -> HexDigest, isVerbose: bool, now: int)
    requires Gate(req, m, failure, rows, ctx, parse, sha256, isVerbose, now).Stop?
    ensures UnauthorizedOrInternal(Gate(req, m, failure, rows, ctx, parse, sha256, isVerbose, now).outcome)
  {
    var token := ExtractAuthorizationToken(req.authorization);
    if !req.headersSent && token.Some? && token.value != "" {
      var fp := Fingerprint(parse, sha256, req.userAgent);
      match VerifyAndDecodeToken(ctx, token, now)
      case Failure(e) =>
        assert e.cls == JwtTokenError && e.WellFormed();
      case Success(claims) =>
        if IsLoginToken(claims) {
          var id := IdClaim(claims);
          var valid := SessionValidReply(m, failure, ctx, IdText(id), token.value, fp, now);
          assert valid.Failure? && valid.error.cls == JwtTokenError ==> valid.error.WellFormed() by {
            if GetTokenJTI(ctx, Some(token.value), now).Success? {
              assert valid.Failure? ==> valid.error.cls == DatabaseError;
            }
          }
          SessionStageResponses(id, valid, fp, rows, isVerbose);
        }
    }
  }

  /**
   * The request reaches `next()` only with a token that verifies as a login
   * token, and then either the device's session holds the token's jti or an
   * active, not deleted user with the token's id exists.
   */
  lemma AdmittedOnlyWithLoginToken(req: Request, m: Entries, failure: Option<string>, rows: seq<Entity>, ctx: JwtContext,
                                   parse: string -> ParsedUA, sha256: string -> HexDigest, isVerbose: bool, now: int)
    requires var g := Gate(req, m, failure, rows, ctx, parse, sha256, isVerbose, now); g.Issue? || g.outcome.Next?
    ensures !req.headersSent
    ensures var token := ExtractAuthorizationToken(req.authorization);
      token.Some? && VerifyAndDecodeToken(ctx, token, now).Success? && IsLoginToken(VerifyAndDecodeToken(ctx, token, now).value)
    ensures var token := ExtractAuthorizationToken(req.authorization);
      var id := IdClaim(VerifyAndDecodeToken(ctx, token, now).value);
      var fp := Fingerprint(parse, sha256, req.userAgent);
      match Gate(req, m, failure, rows, ctx, parse, sha256, isVerbose, now)
      case Stop(o) =>
        o == Next(id) && failure.None? && GetTokenJTI(ctx, token, now).Success?
        && SessionMatches(Lookup(m, SessionKey(IdText(id), fp), now), GetTokenJTI(ctx, token, now).value)
      case Issue(gid, identifier, gfp) =>
        gid == id && identifier == IdText(id) && gfp == fp
        && exists i :: 0 <= i < |rows| && ActiveUser(id)(rows[i]) && !SoftDeleted(rows[i])
  {
    var g := Gate(req, m, failure, rows, ctx, parse, sha256, isVerbose, now);
    var token := ExtractAuthorizationToken(req.authorization);
    var fp := Fingerprint(parse, sha256, req.userAgent);
    assert g == GateToken(token, fp, m, failure, rows, ctx, isVerbose, now);
    var decoded := VerifyAndDecodeToken(ctx, token, now);
    assert g == GateClaims(token.value, decoded, fp, m, failure, rows, ctx, isVerbose, now);
    var id := IdClaim(decoded.value);
    var reply := SessionValidReply(m, failure, ctx, IdText(id), token.value, fp, now);
    assert g == GateSession(id, reply, fp, rows, isVerbose);
    if g.Issue? {
      var i := FirstIndex(rows, ActiveUser(id), false).value;
      assert Selected(rows[i], ActiveUser(id), false);
    }
  }

  /** The header starts like the scheme `replace` removes. */
  predicate StartsAsBearer(h: string) {
    |h| > 6 && ToLower(h[..6]) == "bearer" && IsSpace(h[6])
  }

  /** A valid token of another category, a sign-up token for instance, is refused with 401 before the store is read. */
  lemma SignupTokenRefused(req: Request, m: Entries, failure: Option<string>, rows: seq<Entity>, ctx: JwtContext,
                           parse: string -> ParsedUA, sha256: string -> HexDigest, isVerbose: bool, now: int,
                           payload: Claims, jti: string, exp: int, iat: int, text: string)
    requires Sound(ctx.codec)
    requires payload == map["id" := JStr("u"), "tokenCategory" := JStr(TokenEnum.CategoryName(TokenEnum.Signup))]
    requires ctx.codec.sign(IssuedToken(ctx.secret, payload, jti, exp, iat)) == Success(text)
    requires now < exp + ClockTolerance
    requires !req.headersSent && req.authorization == Some(text) && !StartsAsBearer(text) && text != ""
    ensures Gate(req, m, failure, rows, ctx, parse, sha256, isVerbose, now) == Stop(UnauthorizedReply(InvalidToken))
  {
    IssuedTokenVerifies(ctx, payload, jti, exp, iat, text, now);
    var c := IssuedClaims(payload, jti, exp, iat);
    assert "tokenCategory" !in {"iss", "aud", "jti", "exp", "iat"};
    assert c["tokenCategory"] == JStr("SIGNUP");
    assert ExtractAuthorizationToken(req.authorization) == Some(text);
    var fp := Fingerprint(parse, sha256, req.userAgent);
    assert Gate(req, m, failure, rows, ctx, parse, sha256, isVerbose, now)
        == GateClaims(text, Success(c), fp, m, failure, rows, ctx, isVerbose, now);
  }

  /** The session `Refresh` caches for a signed token holds its jti until the token expires. */
  lemma RefreshCachesJti(m: Entries, ctx: JwtContext, id: Option<Json>, identifier: string, fp: string, isVerbose: bool,
                         nowMs: int, jti: string, text: string, later: int)
    requires Sound(ctx.codec)
    requires ctx.codec.sign(IssuedToken(ctx.secret, LoginPayload(id), jti, ExpirationTimestamp(nowMs, LoginTtl), EpochSeconds(nowMs)))
             == Success(text)
    requires EpochSeconds(nowMs) <= later < EpochSeconds(nowMs) + LoginTtl
    ensures var r := Refresh(m, None, ctx, id, identifier, fp, Success(text), isVerbose, EpochSeconds(nowMs));
      r.0 == Next(id) && Lookup(r.1, SessionKey(identifier, fp), later) == Some(jti)
  {
    var now := EpochSeconds(nowMs);
    var exp := ExpirationTimestamp(nowMs, LoginTtl);
    assert exp == now + LoginTtl;
    IssuedTokenJti(ctx, LoginPayload(id), jti, exp, now, text, now);
    var s := SetReply(m, None, SessionKey(identifier, fp), jti, Some(Whole(LoginTtl)), now);
    assert Lookup(s.1, SessionKey(identifier, fp), later) == Some(jti);
  }

  /** The claims of a refreshed token are a login token's, with the same id. */
  lemma LoginClaims(id: Option<Json>, jti: string, exp: int, iat: int)
    ensures IsLoginToken(IssuedClaims(LoginPayload(id), jti, exp, iat))
    ensures IdClaim(IssuedClaims(LoginPayload(id), jti, exp, iat)) == id
  {
    var c := IssuedClaims(LoginPayload(id), jti, exp, iat);
    assert "tokenCategory" !in {"iss", "aud", "jti", "exp", "iat"} && "id" !in {"iss", "aud", "jti", "exp", "iat"};
    assert "id" in c <==> id.Some?;
  }

  /** A verified login token whose jti the device's session holds goes straight to `next()` with its id. */
  lemma SessionHitAdmits(req: Request, m: Entries, rows: seq<Entity>, ctx: JwtContext, parse: string -> ParsedUA,
                         sha256: string -> HexDigest, isVerbose: bool, now: int, text: string, claims: Claims, jti: string)
    requires !req.headersSent && ExtractAuthorizationToken(req.authorization) == Some(text) && text != ""
    requires VerifyAndDecodeToken(ctx, Some(text), now) == Success(claims) && IsLoginToken(claims)
    requires GetTokenJTI(ctx, Some(text), now) == Success(Some(jti))
    requires Lookup(m, SessionKey(IdText(IdClaim(claims)), Fingerprint(parse, sha256, req.userAgent)), now) == Some(jti)
    ensures Gate(req, m, None, rows, ctx, parse, sha256, isVerbose, now) == Stop(Next(IdClaim(claims)))
  {
    var fp := Fingerprint(parse, sha256, req.userAgent);
    var id := IdClaim(claims);
    assert SessionValidReply(m, None, ctx, IdText(id), text, fp, now) == Success(true);
    assert Gate(req, m, None, rows, ctx, parse, sha256, isVerbose, now)
        == GateClaims(text, Success(claims), fp, m, None, rows, ctx, isVerbose, now);
  }

  /** Until it expires, the refreshed token verifies as a login token with the same id and yields its jti. */
  lemma RefreshedTokenVerifies(ctx: JwtContext, id: Option<Json>, jti: string, nowMs: int, text: string, later: int)
    returns (c: Claims)
    requires Sound(ctx.codec)
    requires ctx.codec.sign(IssuedToken(ctx.secret, LoginPayload(id), jti, ExpirationTimestamp(nowMs, LoginTtl), EpochSeconds(nowMs)))
             == Success(text)
    requires later < EpochSeconds(nowMs) + LoginTtl
    ensures VerifyAndDecodeToken(ctx, Some(text), later) == Success(c) && IsLoginToken(c) && IdClaim(c) == id
    ensures GetTokenJTI(ctx, Some(text), later) == Success(Some(jti))
  {
    var now := EpochSeconds(nowMs);
    var exp := ExpirationTimestamp(nowMs, LoginTtl);
    assert exp == now + LoginTtl;
    IssuedTokenVerifies(ctx, LoginPayload(id), jti, exp, now, text, later);
    IssuedTokenJti(ctx, LoginPayload(id), jti, exp, now, text, later);
    c := IssuedClaims(LoginPayload(id), jti, exp, now);
    LoginClaims(id, jti, exp, now);
  }

  /**
   * The token the middleware refreshes is accepted on the next request from the
   * same device until it expires: it verifies as a login token for the same id,
   * and the session just cached holds its jti, so the request goes straight to
   * `next()` without another refresh.
   */
  lemma RefreshedTokenAdmitsSameDevice(m: Entries, rows: seq<Entity>, ctx: JwtContext, parse: string -> ParsedUA,
                                       sha256: string -> HexDigest, isVerbose: bool, nowMs: int, id: Option<Json>,
                                       scheme: string, spaces: string, jti: string, text: string, ua: Option<string>, later: int)
    requires Sound(ctx.codec)
    requires ctx.codec.sign(IssuedToken(ctx.secret, LoginPayload(id), jti, ExpirationTimestamp(nowMs, LoginTtl), EpochSeconds(nowMs)))
             == Success(text)
    requires |scheme| == 6 && ToLower(scheme) == "bearer"
    requires |spaces| > 0 && forall i :: 0 <= i < |spaces| ==> IsSpace(spaces[i])
    requires |text| > 0 && !IsSpace(text[0])
    requires EpochSeconds(nowMs) <= later < EpochSeconds(nowMs) + LoginTtl
    ensures Refresh(m, None, ctx, id, IdText(id), Fingerprint(parse, sha256, ua), Success(text), isVerbose, EpochSeconds(nowMs)).0
            == Next(id)
    ensures Gate(Request(false, Some(scheme + spaces + text), ua),
                 Refresh(m, None, ctx, id, IdText(id), Fingerprint(parse, sha256, ua), Success(text), isVerbose, EpochSeconds(nowMs)).1,
                 None, rows, ctx, parse, sha256, isVerbose, later)
            == Stop(Next(id))
  {
    var now := EpochSeconds(nowMs);
    var fp := Fingerprint(parse, sha256, ua);
    var r := Refresh(m, None, ctx, id, IdText(id), fp, Success(text), isVerbose, now);
    RefreshCachesJti(m, ctx, id, IdText(id), fp, isVerbose, nowMs, jti, text, later);
    var c := RefreshedTokenVerifies(ctx, id, jti, nowMs, text, later);
    BearerRoundTrip(scheme, spaces, text);
    SessionHitAdmits(Request(false, Some(scheme + spaces + text), ua), r.1, rows, ctx, parse, sha256, isVerbose, later, text, c, jti);
  }

  /**
   * The decision as the code is written: the same steps as `Gate` up to the
   * session check, where `isLoginSessionValid` throws `StaticJtiCallError`
   * before reading the store, and the `catch` answers with a 500.
   */
  function GateAsWritten(req: Request, m: Entries, failure: Option<string>, rows: seq<Entity>, ctx: JwtContext,
                         parse: string -> ParsedUA, sha256: string -> HexDigest, isVerbose: bool, now: int): GateResult
  {
    if req.headersSent then Stop(NoAction)
    else
      var token := ExtractAuthorizationToken(req.authorization);
      if token.None? || token.value == "" then Stop(UnauthorizedReply(TokenRequired))
      else
        match VerifyAndDecodeToken(ctx, token, now)
        case Failure(e) => Stop(Caught(e, isVerbose))
        case Success(claims) =>
          if !IsLoginToken(claims) then Stop(UnauthorizedReply(InvalidToken))
          else Stop(CaughtThrown(StaticJtiCallError, isVerbose))
  }

  /**
   * As written, no request is ever admitted or refreshed: every request that
   * `Gate` admits or refreshes is answered with a 500 instead.
   */
  lemma StaticJtiCallAnswers500(req: Request, m: Entries, failure: Option<string>, rows: seq<Entity>, ctx: JwtContext,
                                parse: string -> ParsedUA, sha256: string -> HexDigest, isVerbose: bool, now: int)
    ensures var w := GateAsWritten(req, m, failure, rows, ctx, parse, sha256, isVerbose, now); w.Stop? && !w.outcome.Next?
    ensures var g := Gate(req, m, failure, rows, ctx, parse, sha256, isVerbose, now);
      g.Issue? || g.outcome.Next? ==> GateAsWritten(req, m, failure, rows, ctx, parse, sha256, isVerbose, now) == Stop(InternalReply())
  {
    var g := Gate(req, m, failure, rows, ctx, parse, sha256, isVerbose, now);
    if g.Issue? || g.outcome.Next? {
      AdmittedOnlyWithLoginToken(req, m, failure, rows, ctx, parse, sha256, isVerbose, now);
      var token := ExtractAuthorizationToken(req.authorization);
      assert token.Some? && token.value != "";
      assert GateAsWritten(req, m, failure, rows, ctx, parse, sha256, isVerbose, now)
             == Stop(CaughtThrown(StaticJtiCallError, isVerbose));
    }
  }

  /**
   * The refreshed token never reaches the client, so a client that keeps
   * presenting its old token is refreshed again: once the refresh has cached a
   * new jti different from the old token's, the same request misses the
   * session and goes back to the user lookup and another refresh.
   */
  lemma StaleTokenRefreshesAgain(req: Request, m: Entries, rows: seq<Entity>, ctx: JwtContext, parse: string -> ParsedUA,
                                 sha256: string -> HexDigest, isVerbose: bool, nowMs: int, text: string, claims: Claims,
                                 oldJti: string, uuid: string, newText: string, later: int)
    requires Sound(ctx.codec)
    requires !req.headersSent && ExtractAuthorizationToken(req.authorization) == Some(text) && text != ""
    requires VerifyAndDecodeToken(ctx, Some(text), later) == Success(claims) && IsLoginToken(claims)
    requires GetTokenJTI(ctx, Some(text), later) == Success(Some(oldJti))
    requires uuid != oldJti
    requires FirstIndex(rows, ActiveUser(IdClaim(claims)), false).Some?
    requires ctx.codec.sign(IssuedToken(ctx.secret, LoginPayload(IdClaim(claims)), uuid, ExpirationTimestamp(nowMs, LoginTtl),
                                        EpochSeconds(nowMs))) == Success(newText)
    requires EpochSeconds(nowMs) <= later < EpochSeconds(nowMs) + LoginTtl
    ensures var fp := Fingerprint(parse, sha256, req.userAgent);
      var id := IdClaim(claims);
      var r := Settle(Issue(id, IdText(id), fp), m, None, ctx, isVerbose, nowMs, uuid);
      r.0 == Next(id) && Gate(req, r.1, None, rows, ctx, parse, sha256, isVerbose, later) == Issue(id, IdText(id), fp)
  {
    var fp := Fingerprint(parse, sha256, req.userAgent);
    var id := IdClaim(claims);
    var r := Settle(Issue(id, IdText(id), fp), m, None, ctx, isVerbose, nowMs, uuid);
    RefreshCachesJti(m, ctx, id, IdText(id), fp, isVerbose, nowMs, uuid, newText, later);
    assert SessionValidReply(r.1, None, ctx, IdText(id), text, fp, later) == Success(false);
    assert Gate(req, r.1, None, rows, ctx, parse, sha256, isVerbose, later)
        == GateClaims(text, Success(claims), fp, r.1, None, rows, ctx, isVerbose, later);
  }
}
