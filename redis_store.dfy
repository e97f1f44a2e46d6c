/**
 * The key/value store and the service wrapper around its client. The store
 * holds string values with an optional absolute expiry (in seconds of an
 * explicit clock); the server-side effect of each command is a pure function
 * of the entries, and the `Store` class applies it the way the wrapper does,
 * turning client failures into DatabaseErrors.
 */
module RedisCore {
  import opened Wrappers
  import opened Strings
  import opened AppErrors

  datatype Entry = Entry(value: string, expiresAt: Option<int>)

  type Entries = map<string, Entry>

  predicate Live(e: Entry, now: int) {
    e.expiresAt.None? || now < e.expiresAt.value
  }

  /** The key holds a value that has not expired. */
  predicate Present(m: Entries, key: string, now: int) {
    key in m && Live(m[key], now)
  }

  /** GET. */
  function Lookup(m: Entries, key: string, now: int): (v: Option<string>)
    ensures v.Some? <==> Present(m, key, now)
    ensures v.Some? ==> v.value == m[key].value
  {
    if Present(m, key, now) then Some(m[key].value) else None
  }

  /** SET's error for an expiry time that is not positive. */
  const InvalidExpireSet := "ERR invalid expire time in 'set' command"
  const WrongArityDel := "ERR wrong number of arguments for 'del' command"
  const NotAnInteger := "ERR value is not an integer or out of range"
  const IncrOverflow := "ERR increment or decrement would overflow"
  /** What every command answers once the client has been quit. */
  const ConnectionClosed := "Connection is closed."

  /** SET key value [EX seconds]: the value replaces the old one, together with its expiry. */
  function SetCommand(m: Entries, key: string, value: string, ex: Option<int>, now: int): (r: Result<Entries, string>)
    ensures ex.Some? && ex.value <= 0 ==> r == Failure(InvalidExpireSet)
    ensures !(ex.Some? && ex.value <= 0) ==> r.Success? && r.value.Keys == m.Keys + {key}
    ensures r.Success? ==> Lookup(r.value, key, now) == Some(value)
    ensures r.Success? ==> forall k :: k in m && k != key ==> k in r.value && r.value[k] == m[k]
    ensures r.Success? && ex.None? ==> r.value[key].expiresAt.None?
    ensures r.Success? && ex.Some? ==> r.value[key].expiresAt == Some(now + ex.value)
  {
    if ex.Some? && ex.value <= 0 then Failure(InvalidExpireSet)
    else Success(m[key := Entry(value, if ex.Some? then Some(now + ex.value) else None)])
  }

  /** The entries without the given keys. */
  function Removed(m: Entries, keys: set<string>): (r: Entries)
    ensures r.Keys == m.Keys - keys
    ensures forall k :: k in r ==> r[k] == m[k]
  {
    map k | k in m && k !in keys :: m[k]
  }

  /** The given keys that hold a live value. */
  function LiveAmong(m: Entries, keys: set<string>, now: int): (ks: set<string>)
    ensures forall k :: k in ks <==> k in keys && Present(m, k, now)
  {
    set k | k in keys && Present(m, k, now)
  }

  /** DEL key...: the arguments as a set (a repeated key is removed and counted once); no argument is an error. */
  function DelCommand(m: Entries, keys: set<string>, now: int): (r: Result<(Entries, nat), string>)
    ensures keys == {} <==> r.Failure?
    ensures r.Failure? ==> r.error == WrongArityDel
    ensures r.Success? ==> r.value.0 == Removed(m, keys)
    ensures r.Success? ==> r.value.1 == |LiveAmong(m, keys, now)|
  {
    if keys == {} then Failure(WrongArityDel)
    else Success((Removed(m, keys), |LiveAmong(m, keys, now)|))
  }

  /** EXPIRE key seconds: false for a missing key; a non-positive time deletes the key. */
  function ExpireCommand(m: Entries, key: string, seconds: int, now: int): (r: (Entries, bool))
    ensures r.1 <==> Present(m, key, now)
    ensures !r.1 ==> r.0 == m
    ensures r.1 && seconds <= 0 ==> r.0 == Removed(m, {key})
    ensures r.1 && seconds > 0 ==> r.0 == m[key := m[key].(expiresAt := Some(now + seconds))]
  {
    if !Present(m, key, now) then (m, false)
    else if seconds <= 0 then (Removed(m, {key}), true)
    else (m[key := m[key].(expiresAt := Some(now + seconds))], true)
  }

  /** TTL key: -2 for a missing key, -1 for a key without expiry, else the seconds left. */
  function TtlCommand(m: Entries, key: string, now: int): (t: int)
    ensures !Present(m, key, now) <==> t == -2
    ensures Present(m, key, now) && m[key].expiresAt.None? <==> t == -1
    ensures t > 0 <==> Present(m, key, now) && m[key].expiresAt.Some?
    ensures t > 0 ==> now + t == m[key].expiresAt.value
  {
    if !Present(m, key, now) then -2
    else if m[key].expiresAt.None? then -1
    else m[key].expiresAt.value - now
  }

  /** KEYS prefix*: the live keys that start with the prefix. */
  function KeysWithPrefix(m: Entries, prefix: string, now: int): (ks: set<string>)
    ensures forall k :: k in ks <==> Present(m, k, now) && HasPrefix(k, prefix)
  {
    set k | k in m && Live(m[k], now) && HasPrefix(k, prefix)
  }

  const MaxInt64 := 0x7fff_ffff_ffff_ffff

  /** The texts INCR accepts: an optional minus sign and a canonical numeral within 64 bits. */
  predicate IsInt64Text(s: string) {
    (IsNatNumeral(s) && DigitsValue(s) <= MaxInt64)
    || (|s| >= 2 && s[0] == '-' && IsNatNumeral(s[1..]) && s[1..] != "0" && DigitsValue(s[1..]) <= MaxInt64 + 1)
  }

  function Int64Value(s: string): int
    requires IsInt64Text(s)
  {
    if s[0] == '-' then -(DigitsValue(s[1..]) as int) else DigitsValue(s)
  }

  /** INCR key: a missing key counts from 0; the expiry is kept; a non-integer or the largest integer is an error. */
  function IncrCommand(m: Entries, key: string, now: int): (r: Result<(Entries, int), string>)
    ensures !Present(m, key, now) ==> r == Success((m[key := Entry("1", None)], 1))
    ensures r.Success? ==> r.value.0 == m[key := Entry(IntToString(r.value.1), if Present(m, key, now) then m[key].expiresAt else None)]
    ensures r.Success? && Present(m, key, now) ==> IsInt64Text(m[key].value) && r.value.1 == Int64Value(m[key].value) + 1
    ensures r.Success? ==> r.value.1 <= MaxInt64
  {
    if !Present(m, key, now) then Success((m[key := Entry("1", None)], 1))
    else if !IsInt64Text(m[key].value) then Failure(NotAnInteger)
    else if Int64Value(m[key].value) == MaxInt64 then Failure(IncrOverflow)
    else
      var n := Int64Value(m[key].value) + 1;
      Success((m[key := Entry(IntToString(n), m[key].expiresAt)], n))
  }

  /** The replies of `MULTI; INCR key; EXPIRE key seconds; EXEC`: null when the transaction was discarded. */
  datatype TxReply = Discarded | Replies(incr: Result<int, string>, expire: bool)

  /** The state after the transaction, run as one atomic step. */
  function IncrExpireCommand(m: Entries, key: string, seconds: int, now: int): (r: (Entries, TxReply))
    ensures r.1.Replies?
    ensures r.1.incr.Success? <==> IncrCommand(m, key, now).Success?
    ensures r.1.incr.Success? ==> r.1.incr.value == IncrCommand(m, key, now).value.1
    ensures r.1.incr.Success? && seconds > 0 ==>
              Lookup(r.0, key, now) == Some(IntToString(r.1.incr.value)) && r.0[key].expiresAt == Some(now + seconds)
    ensures forall k :: k != key ==> (k in r.0 <==> k in m) && (k in m ==> r.0[k] == m[k])
  {
    match IncrCommand(m, key, now)
    case Success((m', n)) =>
      var (m'', e) := ExpireCommand(m', key, seconds, now);
      (m'', Replies(Success(n), e))
    case Failure(err) =>
      var (m'', e) := ExpireCommand(m, key, seconds, now);
      (m'', Replies(Failure(err), e))
  }

  /** The one-character keys `del(...key)` receives when `key` is a single string. */
  function SpreadKeys(key: string): (ks: set<string>)
    ensures forall k :: k in ks ==> |k| == 1
    ensures forall i :: 0 <= i < |key| ==> [key[i]] in ks
    ensures key == [] ==> ks == {}
  {
    set i | 0 <= i < |key| :: [key[i]]
  }

  /** A key of two or more characters is never among its own spread characters. */
  lemma SpreadMissesKey(key: string)
    requires |key| >= 2
    ensures key !in SpreadKeys(key)
  {
  }

  /** Deleting the spread characters of a key of two or more characters leaves that key where it was. */
  lemma SpreadDeleteKeepsKey(m: Entries, key: string, now: int)
    requires |key| >= 2 && Present(m, key, now)
    ensures DelCommand(m, SpreadKeys(key), now).Success?
    ensures Present(DelCommand(m, SpreadKeys(key), now).value.0, key, now)
  {
    SpreadMissesKey(key);
    assert [key[0]] in SpreadKeys(key);
  }

  /** Deleting a key itself removes it and reports one deletion exactly when it was present. */
  lemma DeleteKeyRemoves(m: Entries, key: string, now: int)
    ensures DelCommand(m, {key}, now).Success?
    ensures !Present(DelCommand(m, {key}, now).value.0, key, now)
    ensures DelCommand(m, {key}, now).value.1 == if Present(m, key, now) then 1 else 0
  {
    if Present(m, key, now) {
      assert LiveAmong(m, {key}, now) == {key};
    } else {
      assert LiveAmong(m, {key}, now) == {};
    }
  }

  /** SET then GET of the same key, before the expiry, reads the value back; other keys are untouched. */
  lemma SetThenGet(m: Entries, key: string, value: string, ex: Option<int>, now: int, later: int, other: string)
    requires SetCommand(m, key, value, ex, now).Success?
    requires now <= later && (ex.Some? ==> later < now + ex.value)
    requires other != key
    ensures Lookup(SetCommand(m, key, value, ex, now).value, key, later) == Some(value)
    ensures Lookup(SetCommand(m, key, value, ex, now).value, other, later) == Lookup(m, other, later)
  {
  }

  /** A value written with an expiry is gone from that second on. */
  lemma SetExpires(m: Entries, key: string, value: string, seconds: int, now: int, later: int)
    requires seconds > 0 && later >= now + seconds
    ensures Lookup(SetCommand(m, key, value, Some(seconds), now).value, key, later) == None
  {
  }

  /** Reading the counter back after INCR gives the text of the incremented number. */
  lemma IncrRoundTrip(m: Entries, key: string, now: int)
    requires IncrCommand(m, key, now).Success?
    ensures var (m', n) := IncrCommand(m, key, now).value;
      Lookup(m', key, now).Some? && IsInt64Text(Lookup(m', key, now).value) && Int64Value(Lookup(m', key, now).value) == n
  {
    var (m', n) := IncrCommand(m, key, now).value;
    var s := IntToString(n);
    if n >= 0 {
      NatToStringValue(n);
    } else {
      NatToStringValue(-n);
      assert s[1..] == NatToString(-n);
    }
    if Present(m, key, now) {
      assert Present(m', key, now);
    }
  }

  /** A JavaScript number passed as a TTL: a whole number of seconds, or one with a fractional part. */
  datatype Seconds = Whole(n: int) | Fraction

  /** `options.ttlSeconds ? ... EX ttl : ...`: only a present, non-zero TTL is passed on. */
  function TruthyTtl(ttlSeconds: Option<Seconds>): (ex: Option<Seconds>)
    ensures ex.None? <==> ttlSeconds.None? || ttlSeconds == Some(Whole(0))
    ensures ex.Some? ==> ex == ttlSeconds
  {
    if ttlSeconds == Some(Whole(0)) then None else ttlSeconds
  }

  /** The DatabaseError the wrapper throws, with the client's message after the operation's prefix. */
  function DbError(prefix: string, clientMessage: string): (e: AppError)
    requires prefix != ""
    ensures e.cls == DatabaseError && e.WellFormed() && e.message == prefix + clientMessage
  {
    assert (prefix + clientMessage)[0] == prefix[0];
    NewError(DatabaseError, TextCause(prefix + clientMessage))
  }

  const WriteFailed := "Redis write failed: "
  const ReadFailed := "Redis read failed: "
  const DeleteFailed := "Redis delete failed: "
  const ExistsFailed := "Redis exists check failed: "
  const ExpireFailed := "Redis expire failed: "
  const KeysFailed := "Redis keys failed: "

  /**
   * What `set` answers and leaves behind, given the entries and the client's
   * failure, if any. A fractional TTL reaches the server as a non-integer
   * `EX` argument, which it refuses.
   */
  function SetReply(m: Entries, failure: Option<string>, key: string, value: string, ttlSeconds: Option<Seconds>, now: int): (o: (Result<string, AppError>, Entries))
    ensures failure.Some? ==> o == (Failure(DbError(WriteFailed, failure.value)), m)
    ensures failure.None? && ttlSeconds == Some(Fraction) ==> o == (Failure(DbError(WriteFailed, NotAnInteger)), m)
    ensures failure.None? && ttlSeconds.Some? && ttlSeconds.value.Whole? && ttlSeconds.value.n < 0 ==>
              o == (Failure(DbError(WriteFailed, InvalidExpireSet)), m)
    ensures failure.None? && (ttlSeconds.None? || ttlSeconds == Some(Whole(0))) ==>
              o.0 == Success("OK") && o.1 == SetCommand(m, key, value, None, now).value
    ensures failure.None? && ttlSeconds.Some? && ttlSeconds.value.Whole? && ttlSeconds.value.n > 0 ==>
              o.0 == Success("OK") && o.1 == SetCommand(m, key, value, Some(ttlSeconds.value.n), now).value
  {
    if failure.Some? then (Failure(DbError(WriteFailed, failure.value)), m)
    else match TruthyTtl(ttlSeconds)
      case None => (Success("OK"), SetCommand(m, key, value, None, now).value)
      case Some(Fraction) => (Failure(DbError(WriteFailed, NotAnInteger)), m)
      case Some(Whole(t)) =>
        match SetCommand(m, key, value, Some(t), now)
        case Success(m') => (Success("OK"), m')
        case Failure(msg) => (Failure(DbError(WriteFailed, msg)), m)
  }

  /** What `delete` of a key list answers and leaves behind. */
  function DeleteReply(m: Entries, failure: Option<string>, keys: set<string>, now: int): (o: (Result<nat, AppError>, Entries))
    ensures failure.Some? ==> o == (Failure(DbError(DeleteFailed, failure.value)), m)
    ensures failure.None? && keys == {} ==> o == (Failure(DbError(DeleteFailed, WrongArityDel)), m)
    ensures failure.None? && keys != {} ==> o == (Success(|LiveAmong(m, keys, now)|), Removed(m, keys))
  {
    if failure.Some? then (Failure(DbError(DeleteFailed, failure.value)), m)
    else match DelCommand(m, keys, now)
      case Success((m', n)) => (Success(n), m')
      case Failure(msg) => (Failure(DbError(DeleteFailed, msg)), m)
  }

  /** What `expire` answers and leaves behind. */
  function ExpireReply(m: Entries, failure: Option<string>, key: string, ttlSeconds: int, now: int): (o: (Result<bool, AppError>, Entries))
    ensures failure.Some? ==> o == (Failure(DbError(ExpireFailed, failure.value)), m)
    ensures failure.None? ==> o.0 == Success(Present(m, key, now)) && o.1 == ExpireCommand(m, key, ttlSeconds, now).0
  {
    if failure.Some? then (Failure(DbError(ExpireFailed, failure.value)), m)
    else var (m', existed) := ExpireCommand(m, key, ttlSeconds, now); (Success(existed), m')
  }

  /** The client's `retryStrategy`: 100 ms per attempt up to three, then give up. */
  function RetryStrategy(times: int): (r: Result<int, AppError>)
    ensures r.Failure? <==> times > 3
    ensures r.Failure? ==> r.error.cls == ServiceUnavailableError && r.error.statusCode == 503
                           && r.error.message == "Redis retry limit exceeded"
    ensures r.Success? && times >= 1 ==> 100 <= r.value <= 300 && r.value % 100 == 0
  {
    if times > 3 then Failure(NewError(ServiceUnavailableError, TextCause("Redis retry limit exceeded")))
    else Success(times * 100)
  }

  /** The delays grow with the attempt number. */
  lemma RetryDelaysIncrease(a: int, b: int)
    requires 1 <= a < b <= 3
    ensures RetryStrategy(a).value < RetryStrategy(b).value
  {
  }

  /**
   * The wrapper service with its client. `failure` stands for a client that
   * rejects every command with that message; `discardTransactions` for an
   * EXEC that answers null.
   */
  class Store {
    var entries: Entries
    var failure: Option<string>
    var discardTransactions: bool
    var shutdownHookRegistered: bool

    constructor(initial: Entries)
      ensures entries == initial && failure.None? && !discardTransactions && !shutdownHookRegistered
    {
      entries := initial;
      failure := None;
      discardTransactions := false;
      shutdownHookRegistered := false;
    }

    /** `set`: a truthy TTL becomes `EX ttl`. */
    method Set(key: string, value: string, ttlSeconds: Option<Seconds>, now: int) returns (r: Result<string, AppError>)
      modifies this`entries
      ensures (r, entries) == SetReply(old(entries), failure, key, value, ttlSeconds, now)
    {
      var (res, m) := SetReply(entries, failure, key, value, ttlSeconds, now);
      entries := m;
      r := res;
    }

    /** `get`: null for a missing or expired key. */
    method Get(key: string, now: int) returns (r: Result<Option<string>, AppError>)
      ensures failure.Some? ==> r == Failure(DbError(ReadFailed, failure.value))
      ensures failure.None? ==> r == Success(Lookup(entries, key, now))
    {
      if failure.Some? {
        return Failure(DbError(ReadFailed, failure.value));
      }
      r := Success(Lookup(entries, key, now));
    }

    /** `delete` of a key list: removes each listed key and answers how many existed. */
    method DeleteKeys(keys: set<string>, now: int) returns (r: Result<nat, AppError>)
      modifies this`entries
      ensures (r, entries) == DeleteReply(old(entries), failure, keys, now)
    {
      var (res, m) := DeleteReply(entries, failure, keys, now);
      entries := m;
      r := res;
    }

    /** `delete(key)` as its callers mean it: remove that one key. */
    method Delete(key: string, now: int) returns (r: Result<nat, AppError>)
      modifies this`entries
      ensures (r, entries) == DeleteReply(old(entries), failure, {key}, now)
      ensures failure.None? ==> r == Success(if Present(old(entries), key, now) then 1 else 0) && !Present(entries, key, now)
    {
      DeleteKeyRemoves(entries, key, now);
      r := DeleteKeys({key}, now);
    }

    /** `delete(key)` as written: the string is spread into its characters, each a key of its own. */
    method DeleteAsWritten(key: string, now: int) returns (r: Result<nat, AppError>)
      modifies this`entries
      ensures (r, entries) == DeleteReply(old(entries), failure, SpreadKeys(key), now)
    {
      r := DeleteKeys(SpreadKeys(key), now);
    }

    /** `exists`: true exactly when the client answers 1. */
    method Exists(key: string, now: int) returns (r: Result<bool, AppError>)
      ensures failure.Some? ==> r == Failure(DbError(ExistsFailed, failure.value))
      ensures failure.None? ==> r == Success(Present(entries, key, now))
    {
      if failure.Some? {
        return Failure(DbError(ExistsFailed, failure.value));
      }
      var count := if Present(entries, key, now) then 1 else 0;
      r := Success(count == 1);
    }

    /** `expire`: true exactly when the key existed. */
    method Expire(key: string, ttlSeconds: int, now: int) returns (r: Result<bool, AppError>)
      modifies this`entries
      ensures (r, entries) == ExpireReply(old(entries), failure, key, ttlSeconds, now)
    {
      var (res, m) := ExpireReply(entries, failure, key, ttlSeconds, now);
      entries := m;
      r := res;
    }

    /** `getTTL`: the client's promise is returned without being awaited, so its rejection escapes unwrapped. */
    method GetTTL(key: string, now: int) returns (r: Result<int, Thrown>)
      ensures failure.Some? ==> r == Failure(PlainError(failure.value, Captured))
      ensures failure.None? ==> r == Success(TtlCommand(entries, key, now))
    {
      if failure.Some? {
        return Failure(PlainError(failure.value, Captured));
      }
      r := Success(TtlCommand(entries, key, now));
    }

    /** `getKeys(prefix + "*")`: the matching keys (a reply without duplicates, in no particular order). */
    method GetKeys(prefix: string, now: int) returns (r: Result<set<string>, AppError>)
      ensures failure.Some? ==> r == Failure(DbError(KeysFailed, failure.value))
      ensures failure.None? ==> r == Success(KeysWithPrefix(entries, prefix, now))
    {
      if failure.Some? {
        return Failure(DbError(KeysFailed, failure.value));
      }
      r := Success(KeysWithPrefix(entries, prefix, now));
    }

    /** `multi().incr(key).expire(key, seconds).exec()`; a client failure rejects `exec` itself. */
    method IncrExpire(key: string, seconds: int, now: int) returns (r: Result<TxReply, Thrown>)
      modifies this`entries
      ensures failure.Some? ==> r == Failure(PlainError(failure.value, Captured)) && entries == old(entries)
      ensures failure.None? && discardTransactions ==> r == Success(Discarded) && entries == old(entries)
      ensures failure.None? && !discardTransactions ==>
        r == Success(IncrExpireCommand(old(entries), key, seconds, now).1) && entries == IncrExpireCommand(old(entries), key, seconds, now).0
    {
      if failure.Some? {
        return Failure(PlainError(failure.value, Captured));
      }
      if discardTransactions {
        return Success(Discarded);
      }
      var (m, reply) := IncrExpireCommand(entries, key, seconds, now);
      entries := m;
      r := Success(reply);
    }

    /** `shutdown`: the first call quits the client; later calls return at once. */
    method Shutdown()
      modifies this`shutdownHookRegistered, this`failure
      ensures shutdownHookRegistered
      ensures old(shutdownHookRegistered) ==> failure == old(failure)
      ensures !old(shutdownHookRegistered) ==> failure == if old(failure).None? then Some(ConnectionClosed) else old(failure)
    {
      if shutdownHookRegistered {
        return;
      }
      shutdownHookRegistered := true;
      if failure.None? {
        failure := Some(ConnectionClosed);
      }
    }
  }

  /** Shutting down twice is the same as shutting down once. */
  method ShutdownIdempotent(s: Store)
    modifies s
    ensures s.shutdownHookRegistered && s.entries == old(s.entries)
    ensures s.failure == if old(s.shutdownHookRegistered) || old(s.failure).Some? then old(s.failure) else Some(ConnectionClosed)
  {
    s.Shutdown();
    var afterFirst := s.failure;
    s.Shutdown();
    assert s.failure == afterFirst;
  }
}
