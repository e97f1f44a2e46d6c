/**
 * The authentication cache: login sessions stored under
 * `auth:session:<id>:<fingerprint>` holding the token's jti, and per-user
 * auth values stored under `auth:<category>:<id>`, all kept in the store.
 */
module AuthCache {
  import opened Wrappers
  import opened Strings
  import opened AppErrors
  import opened RedisCore
  import JwtSecurity

  datatype AuthValueCategory = BruteForceProtection | Verification

  function CategoryText(c: AuthValueCategory): (s: string)
    ensures s == "brute-force-protection" || s == "verification"
  {
    match c
    case BruteForceProtection => "brute-force-protection"
    case Verification => "verification"
  }

  predicate NoColon(s: string) {
    forall i :: 0 <= i < |s| ==> s[i] != ':'
  }

  /** The key pattern `logoutAllSessions` asks for, without its trailing `*`. */
  function SessionPrefix(identifier: string): (p: string)
    ensures HasPrefix(p, "auth:session:") && |p| == |identifier| + 14
    ensures p[13..|p| - 1] == identifier && p[|p| - 1] == ':'
  {
    "auth:session:" + identifier + ":"
  }

  /** `auth:session:<identifier>:<fingerprintHash>`. */
  function SessionKey(identifier: string, fingerprintHash: string): (k: string)
    ensures HasPrefix(k, SessionPrefix(identifier)) && k[|SessionPrefix(identifier)|..] == fingerprintHash
  {
    SessionPrefix(identifier) + fingerprintHash
  }

  /** `auth:<category>:<identifier>`. */
  function AuthValueKey(category: AuthValueCategory, identifier: string): (k: string)
    ensures var c := CategoryText(category);
      |k| == |c| + |identifier| + 6 && HasPrefix(k, "auth:") && k[5..5 + |c|] == c && k[5 + |c|] == ':' && k[6 + |c|..] == identifier
  {
    "auth:" + CategoryText(category) + ":" + identifier
  }

  /** Two texts that each end at their first colon split the same way only if they are the same. */
  lemma {:induction false} ColonSplit(a: string, x: string, b: string, y: string)
    requires NoColon(a) && NoColon(b)
    requires a + ":" + x == b + ":" + y
    ensures a == b && x == y
  {
    assert (a + ":" + x)[|a|] == ':';
    assert (b + ":" + y)[|b|] == ':';
    assert |a| == |b|;
    assert a == (a + ":" + x)[..|a|];
    assert b == (b + ":" + y)[..|b|];
    assert x == (a + ":" + x)[|a| + 1..];
    assert y == (b + ":" + y)[|b| + 1..];
  }

  /** Session keys of colon-free identifiers name one identifier and one fingerprint. */
  lemma SessionKeyInjective(id1: string, fp1: string, id2: string, fp2: string)
    requires NoColon(id1) && NoColon(id2)
    requires SessionKey(id1, fp1) == SessionKey(id2, fp2)
    ensures id1 == id2 && fp1 == fp2
  {
    var p := "auth:session:";
    assert SessionKey(id1, fp1) == p + (id1 + ":" + fp1);
    assert SessionKey(id2, fp2) == p + (id2 + ":" + fp2);
    assert id1 + ":" + fp1 == SessionKey(id1, fp1)[|p|..];
    assert id2 + ":" + fp2 == SessionKey(id2, fp2)[|p|..];
    ColonSplit(id1, fp1, id2, fp2);
  }

  /** `logoutAllSessions(id)` matches the sessions of `id` and of no other colon-free identifier. */
  lemma SessionPrefixOwnsOnly(id: string, other: string, fp: string)
    requires NoColon(id) && NoColon(other)
    ensures HasPrefix(SessionKey(other, fp), SessionPrefix(id)) <==> id == other
  {
    if HasPrefix(SessionKey(other, fp), SessionPrefix(id)) {
      var k := SessionKey(other, fp);
      var rest := k[|SessionPrefix(id)|..];
      assert k == SessionPrefix(id) + rest;
      assert SessionKey(id, rest) == SessionKey(other, fp);
      SessionKeyInjective(id, rest, other, fp);
    }
  }

  /** Auth values never share a key across categories or identifiers. */
  lemma AuthValueKeyInjective(c1: AuthValueCategory, id1: string, c2: AuthValueCategory, id2: string)
    requires AuthValueKey(c1, id1) == AuthValueKey(c2, id2)
    ensures c1 == c2 && id1 == id2
  {
    // The character after "auth:verification" is the colon; in "auth:brute-force-protection" it is a 'p'.
    var k := AuthValueKey(c1, id1);
    assert k[17] == (if c1 == Verification then ':' else 'p');
    assert k[17] == (if c2 == Verification then ':' else 'p');
  }

  /** No auth value lives under a session key, so neither kind of entry can overwrite the other. */
  lemma SessionAndAuthValueKeysDisjoint(id: string, fp: string, c: AuthValueCategory, id2: string)
    ensures SessionKey(id, fp) != AuthValueKey(c, id2)
  {
    assert SessionKey(id, fp)[5] == 's';
    assert AuthValueKey(c, id2)[5] == CategoryText(c)[0];
  }

  /** No auth value key starts like a session key, so `logoutAllSessions` never removes one. */
  lemma AuthValuesSurviveLogoutAll(id: string, c: AuthValueCategory, id2: string)
    ensures !HasPrefix(AuthValueKey(c, id2), SessionPrefix(id))
  {
    assert SessionPrefix(id)[5] == 's';
    assert AuthValueKey(c, id2)[5] == CategoryText(c)[0];
  }

  /** A `Promise<void>` outcome: the error, if any. */
  function Done<T>(r: Result<T, AppError>): (d: Result<(), AppError>)
    ensures d.Failure? <==> r.Failure?
    ensures d.Failure? ==> d.error == r.error
  {
    match r
    case Success(_) => Success(())
    case Failure(e) => Failure(e)
  }

  /** Whether the stored session value is the token's jti (`null === undefined` is false). */
  predicate SessionMatches(stored: Option<string>, jti: Option<string>) {
    stored.Some? && jti.Some? && stored.value == jti.value
  }

  /**
   * `cacheLoginSession`: stores the token's jti under the session key for
   * `ttlSeconds`. A token whose jti cannot be read fails before anything is
   * written; a token without a string jti stores the empty text.
   */
  function CacheReply(m: Entries, failure: Option<string>, ctx: JwtSecurity.JwtContext, identifier: string, token: string,
                      fingerprintHash: string, ttlSeconds: int, now: int): (o: (Result<(), AppError>, Entries))
    ensures o.0.Success? ==> failure.None? && JwtSecurity.GetTokenJTI(ctx, Some(token), now).Success?
    ensures o.0.Failure? ==> o.1 == m
    ensures forall k :: k != SessionKey(identifier, fingerprintHash) ==> (k in o.1 <==> k in m) && (k in m ==> o.1[k] == m[k])
  {
    match JwtSecurity.GetTokenJTI(ctx, Some(token), now)
    case Failure(e) => (Failure(e), m)
    case Success(jti) =>
      var o := SetReply(m, failure, SessionKey(identifier, fingerprintHash), jti.GetOr(""), Some(Whole(ttlSeconds)), now);
      (Done(o.0), o.1)
  }

  method CacheLoginSession(store: RedisCore.Store, ctx: JwtSecurity.JwtContext, identifier: string, token: string,
                           fingerprintHash: string, ttlSeconds: int, now: int)
    returns (r: Result<(), AppError>)
    modifies store`entries
    ensures (r, store.entries) == CacheReply(old(store.entries), store.failure, ctx, identifier, token, fingerprintHash, ttlSeconds, now)
  {
    match JwtSecurity.GetTokenJTI(ctx, Some(token), now)
    case Failure(e) =>
      r := Failure(e);
    case Success(jti) =>
      var res := store.Set(SessionKey(identifier, fingerprintHash), jti.GetOr(""), Some(Whole(ttlSeconds)), now);
      r := Done(res);
  }

  /**
   * A token whose jti cannot be read fails before anything is written; on a
   * working store a positive lifetime keeps the jti (the empty text for a
   * token without a string jti) under the session key until it runs out.
   */
  lemma CacheReplyCases(m: Entries, failure: Option<string>, ctx: JwtSecurity.JwtContext, identifier: string, token: string,
                        fingerprintHash: string, ttlSeconds: int, now: int, later: int)
    ensures var o := CacheReply(m, failure, ctx, identifier, token, fingerprintHash, ttlSeconds, now);
      JwtSecurity.GetTokenJTI(ctx, Some(token), now).Failure? ==>
        o == (Failure(JwtSecurity.GetTokenJTI(ctx, Some(token), now).error), m)
    ensures var o := CacheReply(m, failure, ctx, identifier, token, fingerprintHash, ttlSeconds, now);
      JwtSecurity.GetTokenJTI(ctx, Some(token), now).Success? && failure.Some? ==>
        o == (Failure(DbError(WriteFailed, failure.value)), m)
    ensures var o := CacheReply(m, failure, ctx, identifier, token, fingerprintHash, ttlSeconds, now);
      JwtSecurity.GetTokenJTI(ctx, Some(token), now).Success? && failure.None? && ttlSeconds > 0 && now <= later < now + ttlSeconds ==>
        o.0 == Success(()) && Lookup(o.1, SessionKey(identifier, fingerprintHash), later)
                              == Some(JwtSecurity.GetTokenJTI(ctx, Some(token), now).value.GetOr(""))
  {
  }

  /** What `isLoginSessionValid` answers: a jti failure first, then a read failure, then whether the session holds the jti. */
  function SessionValidReply(m: Entries, failure: Option<string>, ctx: JwtSecurity.JwtContext, identifier: string,
                             token: string, fingerprintHash: string, now: int): (r: Result<bool, AppError>)
    ensures var jti := JwtSecurity.GetTokenJTI(ctx, Some(token), now);
      (jti.Failure? ==> r == Failure(jti.error))
      && (jti.Success? && failure.Some? ==> r == Failure(DbError(ReadFailed, failure.value)))
      && (jti.Success? && failure.None? ==> r.Success?)
      && (r.Success? ==> (r.value <==> jti.value.Some? && Lookup(m, SessionKey(identifier, fingerprintHash), now) == jti.value))
  {
    match JwtSecurity.GetTokenJTI(ctx, Some(token), now)
    case Failure(e) => Failure(e)
    case Success(jti) =>
      if failure.Some? then Failure(DbError(ReadFailed, failure.value))
      else Success(SessionMatches(Lookup(m, SessionKey(identifier, fingerprintHash), now), jti))
  }

  /** `isLoginSessionValid`: the stored session value is the token's jti. */
  method IsLoginSessionValid(store: RedisCore.Store, ctx: JwtSecurity.JwtContext, identifier: string, token: string,
                             fingerprintHash: string, now: int)
    returns (r: Result<bool, AppError>)
    ensures r == SessionValidReply(store.entries, store.failure, ctx, identifier, token, fingerprintHash, now)
  {
    match JwtSecurity.GetTokenJTI(ctx, Some(token), now)
    case Failure(e) =>
      r := Failure(e);
    case Success(jti) =>
      var stored := store.Get(SessionKey(identifier, fingerprintHash), now);
      match stored
      case Failure(e) => r := Failure(e);
      case Success(v) => r := Success(SessionMatches(v, jti));
  }

  /**
   * What the call `jwtSecurity.getTokenJTI(...)` at the top of
   * `cacheLoginSession` and `isLoginSessionValid` throws as the code is
   * written: `getTokenJTI` is declared static, so the instance has no such
   * property and the call raises a TypeError before the store is touched.
   * The rest of this model reads the jti with `JwtSecurity.GetTokenJTI`, the
   * static method the calls evidently mean.
   */
  const StaticJtiCallError: Thrown := PlainError("jwtSecurity.getTokenJTI is not a function", Captured)

  /** `logoutSession`: removes the one session of this identifier and fingerprint. */
  method LogoutSession(store: RedisCore.Store, identifier: string, fingerprintHash: string, now: int)
    returns (r: Result<(), AppError>)
    modifies store`entries
    ensures var o := DeleteReply(old(store.entries), store.failure, {SessionKey(identifier, fingerprintHash)}, now);
      r == Done(o.0) && store.entries == o.1
  {
    var res := store.Delete(SessionKey(identifier, fingerprintHash), now);
    r := Done(res);
  }

  /** The entries `logoutAllSessions` removes: every live session of the identifier. */
  function SessionsOf(m: Entries, identifier: string, now: int): (ks: set<string>)
    ensures forall k :: k in ks <==> Present(m, k, now) && HasPrefix(k, SessionPrefix(identifier))
  {
    KeysWithPrefix(m, SessionPrefix(identifier), now)
  }

  /** `logoutAllSessions`: lists the identifier's sessions and deletes them when there are any. */
  method LogoutAllSessions(store: RedisCore.Store, identifier: string, now: int)
    returns (r: Result<(), AppError>)
    modifies store`entries
    ensures store.failure.Some? ==> r == Failure(DbError(KeysFailed, store.failure.value)) && store.entries == old(store.entries)
    ensures store.failure.None? ==> r == Success(()) && store.entries == Removed(old(store.entries), SessionsOf(old(store.entries), identifier, now))
  {
    var keys := store.GetKeys(SessionPrefix(identifier), now);
    match keys
    case Failure(e) =>
      r := Failure(e);
    case Success(ks) =>
      if |ks| > 0 {
        var res := store.DeleteKeys(ks, now);
        r := Done(res);
      } else {
        assert Removed(store.entries, ks) == store.entries;
        r := Success(());
      }
  }

  /** After `logoutAllSessions` no session of the identifier is left, and only its sessions went. */
  lemma LogoutAllLeavesNoSession(m: Entries, identifier: string, fp: string, other: string, now: int)
    requires NoColon(identifier) && NoColon(other) && other != identifier
    ensures !Present(Removed(m, SessionsOf(m, identifier, now)), SessionKey(identifier, fp), now)
    ensures Lookup(Removed(m, SessionsOf(m, identifier, now)), SessionKey(other, fp), now) == Lookup(m, SessionKey(other, fp), now)
  {
    assert SessionKey(identifier, fp) == SessionPrefix(identifier) + fp;
    SessionPrefixOwnsOnly(identifier, other, fp);
  }

  /** `cacheAuthValue`: stores the value under its category for `ttlSeconds`. */
  method CacheAuthValue(store: RedisCore.Store, identifier: string, value: string, category: AuthValueCategory,
                        ttlSeconds: int, now: int)
    returns (r: Result<(), AppError>)
    modifies store`entries
    ensures var o := SetReply(old(store.entries), store.failure, AuthValueKey(category, identifier), value, Some(Whole(ttlSeconds)), now);
      r == Done(o.0) && store.entries == o.1
  {
    var res := store.Set(AuthValueKey(category, identifier), value, Some(Whole(ttlSeconds)), now);
    r := Done(res);
  }

  /** `isAuthValueCached`: the stored value equals the given one. */
  method IsAuthValueCached(store: RedisCore.Store, identifier: string, value: string, category: AuthValueCategory, now: int)
    returns (r: Result<bool, AppError>)
    ensures store.failure.Some? ==> r == Failure(DbError(ReadFailed, store.failure.value))
    ensures store.failure.None? ==> r == Success(Lookup(store.entries, AuthValueKey(category, identifier), now) == Some(value))
  {
    var stored := store.Get(AuthValueKey(category, identifier), now);
    match stored
    case Failure(e) => r := Failure(e);
    case Success(v) => r := Success(v == Some(value));
  }

  /** `getCachedAuthValue`: the stored value, or null. */
  method GetCachedAuthValue(store: RedisCore.Store, identifier: string, category: AuthValueCategory, now: int)
    returns (r: Result<Option<string>, AppError>)
    ensures store.failure.Some? ==> r == Failure(DbError(ReadFailed, store.failure.value))
    ensures store.failure.None? ==> r == Success(Lookup(store.entries, AuthValueKey(category, identifier), now))
  {
    r := store.Get(AuthValueKey(category, identifier), now);
  }

  /** `invalidateCachedAuthValue`: removes the value of that category. */
  method InvalidateCachedAuthValue(store: RedisCore.Store, identifier: string, category: AuthValueCategory, now: int)
    returns (r: Result<(), AppError>)
    modifies store`entries
    ensures var o := DeleteReply(old(store.entries), store.failure, {AuthValueKey(category, identifier)}, now);
      r == Done(o.0) && store.entries == o.1
  {
    var res := store.Delete(AuthValueKey(category, identifier), now);
    r := Done(res);
  }

  /** A session cached with a positive TTL is valid for the same jti until it expires, and for no other. */
  lemma CachedSessionIsValid(m: Entries, key: string, jti: string, ttlSeconds: int, now: int, later: int, other: Option<string>)
    requires ttlSeconds > 0 && now <= later < now + ttlSeconds
    ensures var m' := SetReply(m, None, key, jti, Some(Whole(ttlSeconds)), now).1;
      SessionMatches(Lookup(m', key, later), Some(jti))
      && (SessionMatches(Lookup(m', key, later), other) <==> other == Some(jti))
  {
  }

  /**
   * A session cached for one fingerprint leaves the session of another
   * fingerprint of the same identifier as it was, so the token is not valid
   * there unless it already was.
   */
  lemma SessionIsPerFingerprint(m: Entries, failure: Option<string>, ctx: JwtSecurity.JwtContext, identifier: string,
                                token: string, fpA: string, fpB: string, ttlSeconds: int, now: int, later: int)
    requires fpA != fpB
    ensures var o := CacheReply(m, failure, ctx, identifier, token, fpA, ttlSeconds, now);
      Lookup(o.1, SessionKey(identifier, fpB), later) == Lookup(m, SessionKey(identifier, fpB), later)
      && SessionValidReply(o.1, failure, ctx, identifier, token, fpB, later) == SessionValidReply(m, failure, ctx, identifier, token, fpB, later)
  {
    assert SessionKey(identifier, fpA) != SessionKey(identifier, fpB) by {
      assert fpA == SessionKey(identifier, fpA)[|SessionPrefix(identifier)|..];
      assert fpB == SessionKey(identifier, fpB)[|SessionPrefix(identifier)|..];
    }
  }

  /** A token without a string jti never matches a session, whatever is stored. */
  lemma NoJtiNeverValid(stored: Option<string>)
    ensures !SessionMatches(stored, None)
  {
  }

  /** After logging a session out, it is no longer valid, and no other key changed. */
  lemma LogoutInvalidates(m: Entries, key: string, jti: Option<string>, now: int, other: string)
    requires other != key
    ensures var m' := DeleteReply(m, None, {key}, now).1;
      !SessionMatches(Lookup(m', key, now), jti) && Lookup(m', other, now) == Lookup(m, other, now)
  {
  }
}
