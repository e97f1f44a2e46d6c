/**
 * The brute-force guard: a per-subject state machine over three store keys
 * (`bfp:<id>:fails`, `bfp:<id>:cooldown`, `bfp:<id>:disabled`) and the
 * subject's `isActive` column in the user table. Failures are counted
 * inside a fixed window, each one starts a cooldown that doubles up to a
 * cap, and the sixth failure disables the account and ends its sessions.
 */
module BruteForceProtection {
  import opened Wrappers
  import opened Strings
  import opened AppErrors
  import opened RedisCore
  import opened AuthCache
  import opened BaseRepository
  import Config

  const MaxFailures := 6
  const BaseCooldownSeconds := 30

  function Pow2(k: nat): (p: nat)
    ensures p > k
  {
    if k == 0 then 1 else 2 * Pow2(k - 1)
  }

  /** The failure window: the largest cooldown plus five minutes. */
  const FailWindow := BaseCooldownSeconds * Pow2(5) + 300

  /** `bfp:<id>:fails`. */
  function FailKey(id: string): (k: string)
    ensures |k| == |id| + 10 && HasPrefix(k, "bfp:") && k[4..4 + |id|] == id && k[4 + |id|..] == ":fails"
  {
    "bfp:" + id + ":fails"
  }

  /** `bfp:<id>:cooldown`. */
  function CooldownKey(id: string): (k: string)
    ensures |k| == |id| + 13 && HasPrefix(k, "bfp:") && k[4..4 + |id|] == id && k[4 + |id|..] == ":cooldown"
  {
    "bfp:" + id + ":cooldown"
  }

  /** `bfp:<id>:disabled`. */
  function DisabledKey(id: string): (k: string)
    ensures |k| == |id| + 13 && HasPrefix(k, "bfp:") && k[4..4 + |id|] == id && k[4 + |id|..] == ":disabled"
  {
    "bfp:" + id + ":disabled"
  }

  /**
   * `calculateCooldown`: 30 s times 2 to the power min(count - 1, 5). A count
   * of 0 gives half the base; a negative count gives a fraction of a second.
   */
  function CalculateCooldown(failureCount: int): (c: Seconds)
    ensures failureCount >= 1 ==> c.Whole? && BaseCooldownSeconds <= c.n <= BaseCooldownSeconds * Pow2(5)
    ensures failureCount == 0 ==> c == Whole(15)
    ensures failureCount < 0 ==> c == Fraction
  {
    if failureCount >= 1 then Whole(BaseCooldownSeconds * Pow2(if failureCount - 1 < 5 then failureCount - 1 else 5))
    else if failureCount == 0 then Whole(BaseCooldownSeconds / 2)
    else Fraction
  }

  lemma {:induction false} Pow2Monotone(a: nat, b: nat)
    requires a <= b
    ensures Pow2(a) <= Pow2(b)
    decreases b
  {
    if a < b {
      Pow2Monotone(a, b - 1);
    }
  }

  /** The cooldowns for one to six failures, and the cap that holds from then on. */
  lemma CooldownTable(n: int)
    requires n >= 6
    ensures CalculateCooldown(1) == Whole(30) && CalculateCooldown(2) == Whole(60) && CalculateCooldown(3) == Whole(120)
    ensures CalculateCooldown(4) == Whole(240) && CalculateCooldown(5) == Whole(480) && CalculateCooldown(6) == Whole(960)
    ensures CalculateCooldown(n) == Whole(960)
  {
    assert Pow2(5) == 32 by {
      assert Pow2(1) == 2 && Pow2(2) == 4 && Pow2(3) == 8 && Pow2(4) == 16;
    }
  }

  /** More failures never shorten the cooldown. */
  lemma CooldownMonotone(a: int, b: int)
    requires 1 <= a <= b
    ensures CalculateCooldown(a).n <= CalculateCooldown(b).n
  {
    Pow2Monotone(if a - 1 < 5 then a - 1 else 5, if b - 1 < 5 then b - 1 else 5);
  }

  /** The window is 1260 s and outlasts every cooldown by five minutes. */
  lemma FailWindowOutlastsCooldowns(n: int)
    requires n >= 1
    ensures FailWindow == 1260
    ensures FailWindow >= CalculateCooldown(n).n + 300
  {
    CooldownTable(6);
  }

  /** The three keys of one subject are distinct, and none is a session or auth value key. */
  lemma BfpKeysDistinct(id: string, other: string, fp: string, c: AuthValueCategory)
    ensures FailKey(id) != CooldownKey(id) && FailKey(id) != DisabledKey(id) && CooldownKey(id) != DisabledKey(id)
    ensures !HasPrefix(DisabledKey(id), SessionPrefix(other))
    ensures DisabledKey(id) != AuthValueKey(c, other)
  {
    assert |FailKey(id)| != |CooldownKey(id)| && |FailKey(id)| != |DisabledKey(id)|;
    assert CooldownKey(id)[|id| + 5] == 'c' && DisabledKey(id)[|id| + 5] == 'd';
    assert DisabledKey(id)[0] == 'b' && SessionPrefix(other)[0] == 'a' && AuthValueKey(c, other)[0] == 'a';
  }

  /** `checkState`, without `remainingAttempts`, which no caller reads. */
  datatype GuardState = GuardState(inCooldown: bool, cooldownExpiresIn: Option<int>, isDisabled: bool)

  /** `Boolean(value)` for a string reply or null. */
  predicate Truthy(v: Option<string>) {
    v.Some? && v.value != ""
  }

  function CheckState(m: Entries, id: string, now: int): (s: GuardState)
    ensures s.isDisabled <==> Truthy(Lookup(m, DisabledKey(id), now))
    ensures s.inCooldown <==> Truthy(Lookup(m, CooldownKey(id), now))
    ensures s.cooldownExpiresIn.Some? <==> TtlCommand(m, CooldownKey(id), now) > 0
    ensures s.cooldownExpiresIn.Some? ==> s.cooldownExpiresIn.value == TtlCommand(m, CooldownKey(id), now)
  {
    var ttl := TtlCommand(m, CooldownKey(id), now);
    GuardState(Truthy(Lookup(m, CooldownKey(id), now)), if ttl > 0 then Some(ttl) else None, Truthy(Lookup(m, DisabledKey(id), now)))
  }

  const DisabledMessage := "Account disabled. Contact support."
  const LockedMessage := "Account locked due to multiple failed auth attempts. Please contact support to restore access."
  const TransactionFailedMessage := "Transaction to record auth failure in redis failed"

  const WaitLead := "Too many attempts. Please wait for "
  const WaitTail := " seconds before retrying."

  /** The cooldown message; the number of seconds reads back from it with `parseInt`. */
  function WaitMessage(seconds: int): (w: string)
    ensures |w| > |WaitLead| + |WaitTail| && HasPrefix(w, WaitLead) && w[|w| - |WaitTail|..] == WaitTail
    ensures Config.ParseInt(w[|WaitLead|..]) == Some(seconds)
  {
    var w := WaitLead + IntToString(seconds) + WaitTail;
    assert w[|WaitLead|..] == IntToString(seconds) + WaitTail;
    assert w[|w| - |WaitTail|..] == WaitTail;
    Config.ParseIntOfNumeral(seconds, WaitTail);
    w
  }

  /** The decision of `ensureAllowed`: a disabled account first, then a running cooldown. */
  function Admission(s: GuardState): (r: Result<(), AppError>)
    ensures r.Failure? <==> s.isDisabled || s.inCooldown
    ensures r.Failure? ==> r.error.cls == UnauthorizedError && r.error.WellFormed() && r.error.statusCode == 401
    ensures s.isDisabled ==> r.error.message == DisabledMessage
    ensures !s.isDisabled && s.inCooldown && s.cooldownExpiresIn.Some? ==> r.error.message == WaitMessage(s.cooldownExpiresIn.value)
    ensures !s.isDisabled && s.inCooldown && s.cooldownExpiresIn.None? ==> r.error.message == WaitMessage(30)
  {
    if s.isDisabled then Failure(NewError(UnauthorizedError, TextCause(DisabledMessage)))
    else if s.inCooldown then Failure(NewError(UnauthorizedError, TextCause(WaitMessage(s.cooldownExpiresIn.GetOr(30)))))
    else Success(())
  }

  function AsThrown(r: Result<(), AppError>): (t: Result<(), Thrown>)
    ensures t.Failure? <==> r.Failure?
    ensures t.Failure? ==> t.error == App(r.error)
  {
    match r
    case Success(_) => Success(())
    case Failure(e) => Failure(App(e))
  }

  /** The state from the three replies and the TTL reply, or the TTL call's error. */
  function StateFrom(cooldownRaw: Option<string>, ttl: Result<int, Thrown>, disabledRaw: Option<string>): (r: Result<GuardState, Thrown>)
    ensures ttl.Failure? ==> r == Failure(ttl.error)
    ensures ttl.Success? ==> r == Success(GuardState(Truthy(cooldownRaw), if ttl.value > 0 then Some(ttl.value) else None, Truthy(disabledRaw)))
  {
    match ttl
    case Failure(e) => Failure(e)
    case Success(t) => Success(GuardState(Truthy(cooldownRaw), if t > 0 then Some(t) else None, Truthy(disabledRaw)))
  }

  /** The private `checkState`: three reads, then the cooldown's TTL. */
  method ReadState(store: Store, id: string, now: int) returns (r: Result<GuardState, Thrown>)
    ensures store.failure.Some? ==> r == Failure(App(DbError(ReadFailed, store.failure.value)))
    ensures store.failure.None? ==> r == Success(CheckState(store.entries, id, now))
  {
    var cooldownRaw := store.Get(CooldownKey(id), now);
    var failuresRaw := store.Get(FailKey(id), now);
    var isDisabled := store.Get(DisabledKey(id), now);
    if cooldownRaw.Failure? {
      return Failure(App(cooldownRaw.error));
    }
    var ttl := store.GetTTL(CooldownKey(id), now);
    r := StateFrom(cooldownRaw.value, ttl, isDisabled.value);
  }

  /** `ensureAllowed`: reads only, and throws when the account is disabled or cooling down. */
  method EnsureAllowed(store: Store, id: string, now: int) returns (r: Result<(), Thrown>)
    ensures store.failure.Some? ==> r == Failure(App(DbError(ReadFailed, store.failure.value)))
    ensures store.failure.None? ==> r == AsThrown(Admission(CheckState(store.entries, id, now)))
  {
    var state := ReadState(store, id, now);
    if state.Failure? {
      return Failure(state.error);
    }
    r := AsThrown(Admission(state.value));
  }

  /** The user-table filter `{ id }`. */
  function ById(id: string): Entity -> bool {
    e => "id" in e && e["id"] == VStr(id)
  }

  function ActiveFlag(active: bool): Entity {
    map["isActive" := VBool(active)]
  }

  /** Every key `disableAccount` removes: the brute-force auth value, the sessions, the counter and the cooldown. */
  function DisableRemoved(m: Entries, id: string, now: int): (ks: set<string>)
    ensures AuthValueKey(BruteForceProtection, id) in ks && FailKey(id) in ks && CooldownKey(id) in ks
    ensures forall k :: Present(m, k, now) && HasPrefix(k, SessionPrefix(id)) ==> k in ks
    ensures forall other :: DisabledKey(other) !in ks
  {
    var ks := {AuthValueKey(BruteForceProtection, id), FailKey(id), CooldownKey(id)} + SessionsOf(m, id, now);
    forall other ensures DisabledKey(other) !in ks {
      var d := DisabledKey(other);
      assert d[0] == 'b' && d[|d| - 1] == 'd';
      assert AuthValueKey(BruteForceProtection, id)[0] == 'a';
      assert FailKey(id)[|FailKey(id)| - 1] == 's' && CooldownKey(id)[|CooldownKey(id)| - 1] == 'n';
      assert forall k :: k in SessionsOf(m, id, now) ==> k[0] == 'a';
    }
    ks
  }

  /** What `disableAccount` answers and leaves in the store and the user table. */
  function DisableOutcome(m: Entries, failure: Option<string>, rows: seq<Entity>, id: string, now: int): (o: (Result<(), AppError>, Entries, seq<Entity>))
    ensures o.2 == UpdatedRows(rows, ById(id), ActiveFlag(false), false)
    ensures failure.Some? ==> o.0 == Failure(DbError(DeleteFailed, failure.value)) && o.1 == m
    ensures failure.None? ==> o.0 == Success(()) && o.1 == Removed(m, DisableRemoved(m, id, now))
  {
    var rows' := UpdatedRows(rows, ById(id), ActiveFlag(false), false);
    if failure.Some? then (Failure(DbError(DeleteFailed, failure.value)), m, rows')
    else (Success(()), Removed(m, DisableRemoved(m, id, now)), rows')
  }

  lemma RemovedTwice(m: Entries, a: set<string>, b: set<string>)
    ensures Removed(Removed(m, a), b) == Removed(m, a + b)
  {
  }

  /** Removing the brute-force auth value does not change which sessions `logoutAllSessions` finds. */
  lemma SessionsSurviveAuthValueRemoval(m: Entries, id: string, now: int)
    ensures SessionsOf(Removed(m, {AuthValueKey(BruteForceProtection, id)}), id, now) == SessionsOf(m, id, now)
  {
    AuthValuesSurviveLogoutAll(id, BruteForceProtection, id);
  }

  /**
   * `disableAccount`: marks the user inactive, removes its brute-force auth
   * value, logs out all its sessions and clears the counter and the cooldown.
   */
  method DisableAccount(store: Store, repo: Repository, id: string, now: int) returns (r: Result<(), AppError>)
    modifies store`entries, repo
    ensures (r, store.entries, repo.rows) == DisableOutcome(old(store.entries), store.failure, old(repo.rows), id, now)
  {
    var _ := repo.UpdateRecord(ById(id), ActiveFlag(false), None);
    ghost var m0 := store.entries;
    r := InvalidateCachedAuthValue(store, id, BruteForceProtection, now);
    if r.Success? {
      ghost var m1 := store.entries;
      r := LogoutAllSessions(store, id, now);
      if r.Success? {
        var c := store.Delete(FailKey(id), now);
        r := Done(c);
        if c.Success? {
          var d := store.Delete(CooldownKey(id), now);
          r := Done(d);
          SessionsSurviveAuthValueRemoval(m0, id, now);
          RemovedTwice(m0, {AuthValueKey(BruteForceProtection, id)}, SessionsOf(m1, id, now));
          RemovedTwice(m0, {AuthValueKey(BruteForceProtection, id)} + SessionsOf(m0, id, now), {FailKey(id)});
          RemovedTwice(m0, {AuthValueKey(BruteForceProtection, id)} + SessionsOf(m0, id, now) + {FailKey(id)}, {CooldownKey(id)});
          assert {AuthValueKey(BruteForceProtection, id)} + SessionsOf(m0, id, now) + {FailKey(id)} + {CooldownKey(id)} == DisableRemoved(m0, id, now);
        }
      }
    }
  }

  /** The failure count `recordFailure` reads from the transaction's replies: 0 when INCR failed. */
  function FailureCount(reply: TxReply): int
    requires reply.Replies?
  {
    if reply.incr.Success? then reply.incr.value else 0
  }

  function LockedError(): (e: AppError)
    ensures e.cls == UnauthorizedError && e.WellFormed() && e.message == LockedMessage
  {
    NewError(UnauthorizedError, TextCause(LockedMessage))
  }

  /**
   * What `recordFailure` answers and leaves behind when the client works and
   * the transaction is not discarded: count the failure and restart its
   * window; start the cooldown; at the threshold also mark the account
   * disabled (with no expiry) and disable it.
   */
  function RecordOutcome(m: Entries, rows: seq<Entity>, id: string, nowMs: int, now: int): (o: (Result<(), Thrown>, Entries, seq<Entity>))
    ensures var count := FailureCount(IncrExpireCommand(m, FailKey(id), FailWindow, now).1);
      (o.0 == Success(()) <==> 0 <= count < MaxFailures)
      && (count < MaxFailures ==> o.2 == rows)
      && (count >= MaxFailures ==> o.0 == Failure(App(LockedError())))
  {
    var (m1, reply) := IncrExpireCommand(m, FailKey(id), FailWindow, now);
    var count := FailureCount(reply);
    var (c, m2) := SetReply(m1, None, CooldownKey(id), "1", Some(CalculateCooldown(count)), now);
    if c.Failure? then (Failure(App(c.error)), m1, rows)
    else if count < MaxFailures then (Success(()), m2, rows)
    else
      var m3 := SetReply(m2, None, DisabledKey(id), IntToString(nowMs), None, now).1;
      var (_, m4, rows') := DisableOutcome(m3, None, rows, id, now);
      (Failure(App(LockedError())), m4, rows')
  }

  /** `recordFailure`. */
  method RecordFailure(store: Store, repo: Repository, id: string, nowMs: int, now: int) returns (r: Result<(), Thrown>)
    modifies store`entries, repo
    ensures store.failure.Some? ==>
              r == Failure(PlainError(store.failure.value, Captured)) && store.entries == old(store.entries) && repo.rows == old(repo.rows)
    ensures store.failure.None? && store.discardTransactions ==>
              r == Failure(App(NewError(DatabaseError, TextCause(TransactionFailedMessage))))
              && store.entries == old(store.entries) && repo.rows == old(repo.rows)
    ensures store.failure.None? && !store.discardTransactions ==>
              (r, store.entries, repo.rows) == RecordOutcome(old(store.entries), old(repo.rows), id, nowMs, now)
  {
    ghost var m0 := store.entries;
    var tx := store.IncrExpire(FailKey(id), FailWindow, now);
    if tx.Failure? {
      return Failure(tx.error);
    }
    if tx.value.Discarded? {
      return Failure(App(NewError(DatabaseError, TextCause(TransactionFailedMessage))));
    }
    ghost var m1 := store.entries;
    assert tx.value == IncrExpireCommand(m0, FailKey(id), FailWindow, now).1;
    var count := FailureCount(tx.value);
    var c := store.Set(CooldownKey(id), "1", Some(CalculateCooldown(count)), now);
    if c.Failure? {
      return Failure(App(c.error));
    }
    ghost var m2 := store.entries;
    r := Success(());
    if count >= MaxFailures {
      var d := store.Set(DisabledKey(id), IntToString(nowMs), None, now);
      assert store.entries == SetReply(m2, None, DisabledKey(id), IntToString(nowMs), None, now).1;
      r := AsThrown(Done(d));
      if d.Success? {
        var disabled := DisableAccount(store, repo, id, now);
        r := AsThrown(disabled);
        if disabled.Success? {
          r := Failure(App(LockedError()));
        }
      }
    }
  }

  /** `clearFailures`: removes the counter and the cooldown. */
  method ClearFailures(store: Store, id: string, now: int) returns (r: Result<(), AppError>)
    modifies store`entries
    ensures store.failure.Some? ==> r == Failure(DbError(DeleteFailed, store.failure.value)) && store.entries == old(store.entries)
    ensures store.failure.None? ==> r == Success(()) && store.entries == Removed(old(store.entries), {FailKey(id), CooldownKey(id)})
  {
    var a := store.Delete(FailKey(id), now);
    r := Done(a);
    if a.Success? {
      var b := store.Delete(CooldownKey(id), now);
      r := Done(b);
      RemovedTwice(old(store.entries), {FailKey(id)}, {CooldownKey(id)});
    }
  }

  /** `enableAccount`: removes all three keys, then marks the user active. */
  method EnableAccount(store: Store, repo: Repository, id: string, now: int) returns (r: Result<(), AppError>)
    modifies store`entries, repo
    ensures store.failure.Some? ==>
              r == Failure(DbError(DeleteFailed, store.failure.value)) && store.entries == old(store.entries) && repo.rows == old(repo.rows)
    ensures store.failure.None? ==>
              r == Success(()) && store.entries == Removed(old(store.entries), {DisabledKey(id), FailKey(id), CooldownKey(id)})
              && repo.rows == UpdatedRows(old(repo.rows), ById(id), ActiveFlag(true), false)
  {
    ghost var m0 := store.entries;
    var a := store.Delete(DisabledKey(id), now);
    r := Done(a);
    if a.Success? {
      var b := store.Delete(FailKey(id), now);
      r := Done(b);
      if b.Success? {
        var c := store.Delete(CooldownKey(id), now);
        r := Done(c);
        if c.Success? {
          RemovedOneByOne(m0, DisabledKey(id), FailKey(id), CooldownKey(id));
          var _ := repo.UpdateRecord(ById(id), ActiveFlag(true), None);
        }
      }
    }
  }

  /** Removing three keys one at a time leaves what removing them together does. */
  lemma RemovedOneByOne(m: Entries, a: string, b: string, c: string)
    ensures Removed(Removed(Removed(m, {a}), {b}), {c}) == Removed(m, {a, b, c})
  {
  }

  /** `clearFailures` never touches the disabled marker. */
  lemma ClearKeepsDisabled(m: Entries, id: string, now: int)
    ensures Lookup(Removed(m, {FailKey(id), CooldownKey(id)}), DisabledKey(id), now) == Lookup(m, DisabledKey(id), now)
    ensures CheckState(Removed(m, {FailKey(id), CooldownKey(id)}), id, now).isDisabled == CheckState(m, id, now).isDisabled
  {
    BfpKeysDistinct(id, id, "", BruteForceProtection);
  }

  /** After `enableAccount` the next attempt is admitted. */
  lemma EnabledIsAdmitted(m: Entries, id: string, now: int)
    ensures Admission(CheckState(Removed(m, {DisabledKey(id), FailKey(id), CooldownKey(id)}), id, now)) == Success(())
  {
  }

  /** `disableAccount` never writes the disabled marker. */
  lemma DisableLeavesMarker(m: Entries, rows: seq<Entity>, id: string, now: int)
    ensures Lookup(DisableOutcome(m, None, rows, id, now).1, DisabledKey(id), now) == Lookup(m, DisabledKey(id), now)
  {
    BfpKeysDistinct(id, id, "", BruteForceProtection);
    assert DisabledKey(id) !in SessionsOf(m, id, now);
  }

  /** The failure count read back: one more than a stored counter, 1 for none, 0 when INCR refused. */
  lemma CountIsIncrement(m: Entries, id: string, now: int)
    ensures var count := FailureCount(IncrExpireCommand(m, FailKey(id), FailWindow, now).1);
      (!Present(m, FailKey(id), now) ==> count == 1)
      && (Present(m, FailKey(id), now) && IsInt64Text(m[FailKey(id)].value) && Int64Value(m[FailKey(id)].value) < MaxInt64
          ==> count == Int64Value(m[FailKey(id)].value) + 1)
      && (IncrCommand(m, FailKey(id), now).Failure? ==> count == 0)
  {
  }

  /** The entries with the cooldown key set to "1" for the cooldown of `count` failures. */
  function CooledDown(m1: Entries, id: string, count: int, now: int): (m2: Entries)
    requires count >= 1
    ensures Lookup(m2, CooldownKey(id), now) == Some("1") && m2[CooldownKey(id)].expiresAt == Some(now + CalculateCooldown(count).n)
    ensures forall k :: k in m1 && k != CooldownKey(id) ==> k in m2 && m2[k] == m1[k]
    ensures forall k :: k in m2 && k != CooldownKey(id) ==> k in m1
  {
    SetCommand(m1, CooldownKey(id), "1", Some(CalculateCooldown(count).n), now).value
  }

  /** Below the threshold `recordFailure` only counts the failure and starts the cooldown. */
  lemma RecordOutcomeBelow(m: Entries, rows: seq<Entity>, id: string, nowMs: int, now: int)
    requires var c := FailureCount(IncrExpireCommand(m, FailKey(id), FailWindow, now).1); 1 <= c < MaxFailures
    ensures var (m1, reply) := IncrExpireCommand(m, FailKey(id), FailWindow, now);
      RecordOutcome(m, rows, id, nowMs, now) == (Success(()), CooledDown(m1, id, FailureCount(reply), now), rows)
  {
  }

  /** Below the threshold the counter restarts its full window and the cooldown key runs for its cooldown. */
  lemma BelowThresholdCoolsDown(m: Entries, rows: seq<Entity>, id: string, nowMs: int, now: int)
    requires var c := FailureCount(IncrExpireCommand(m, FailKey(id), FailWindow, now).1); 1 <= c < MaxFailures
    ensures var c := FailureCount(IncrExpireCommand(m, FailKey(id), FailWindow, now).1);
      var o := RecordOutcome(m, rows, id, nowMs, now);
      o.0 == Success(()) && o.2 == rows
      && Lookup(o.1, CooldownKey(id), now) == Some("1") && o.1[CooldownKey(id)].expiresAt == Some(now + CalculateCooldown(c).n)
      && Lookup(o.1, FailKey(id), now) == Some(IntToString(c)) && o.1[FailKey(id)].expiresAt == Some(now + FailWindow)
      && Lookup(o.1, DisabledKey(id), now) == Lookup(m, DisabledKey(id), now)
  {
    var (m1, reply) := IncrExpireCommand(m, FailKey(id), FailWindow, now);
    var count := FailureCount(reply);
    FailWindowOutlastsCooldowns(1);
    assert reply.incr.Success? && count == reply.incr.value;
    var m2 := CooledDown(m1, id, count, now);
    RecordOutcomeBelow(m, rows, id, nowMs, now);
    BfpKeysDistinct(id, id, "", BruteForceProtection);
    assert m2[FailKey(id)] == m1[FailKey(id)];
    assert DisabledKey(id) in m2 <==> DisabledKey(id) in m;
    assert DisabledKey(id) in m ==> m2[DisabledKey(id)] == m[DisabledKey(id)];
  }



  /**
   * At the threshold the account is locked: the call fails with the lock
   * message, the disabled marker holds the clock reading with no expiry, the
   * counter, the cooldown and every session are gone, the user is marked
   * inactive, and every later attempt is refused as disabled.
   */
  lemma ThresholdLocks(m: Entries, rows: seq<Entity>, id: string, nowMs: int, now: int, later: int, fp: string)
    requires FailureCount(IncrExpireCommand(m, FailKey(id), FailWindow, now).1) >= MaxFailures
    ensures var o := RecordOutcome(m, rows, id, nowMs, now);
      o.0 == Failure(App(LockedError()))
      && Lookup(o.1, DisabledKey(id), later) == Some(IntToString(nowMs))
      && !Present(o.1, FailKey(id), later) && !Present(o.1, CooldownKey(id), later)
      && !Present(o.1, SessionKey(id, fp), now)
      && o.2 == UpdatedRows(rows, ById(id), ActiveFlag(false), false)
      && Admission(CheckState(o.1, id, later)).Failure?
      && Admission(CheckState(o.1, id, later)).error.message == DisabledMessage
  {
    var (m1, reply) := IncrExpireCommand(m, FailKey(id), FailWindow, now);
    var count := FailureCount(reply);
    CooldownTable(count);
    var m2 := SetReply(m1, None, CooldownKey(id), "1", Some(CalculateCooldown(count)), now).1;
    var m3 := SetReply(m2, None, DisabledKey(id), IntToString(nowMs), None, now).1;
    assert m3[DisabledKey(id)] == Entry(IntToString(nowMs), None);
    LockedStore(m3, id, nowMs, now, later, fp);
  }

  /**
   * Once the disabled marker holds the clock reading with no expiry,
   * `disableAccount` leaves it there, removes the counter, the cooldown and
   * every session, and every later attempt is refused as disabled.
   */
  lemma LockedStore(m3: Entries, id: string, nowMs: int, now: int, later: int, fp: string)
    requires DisabledKey(id) in m3 && m3[DisabledKey(id)] == Entry(IntToString(nowMs), None)
    ensures var m4 := Removed(m3, DisableRemoved(m3, id, now));
      Lookup(m4, DisabledKey(id), later) == Some(IntToString(nowMs))
      && !Present(m4, FailKey(id), later) && !Present(m4, CooldownKey(id), later)
      && !Present(m4, SessionKey(id, fp), now)
      && Admission(CheckState(m4, id, later)).Failure?
      && Admission(CheckState(m4, id, later)).error.message == DisabledMessage
  {
    BfpKeysDistinct(id, id, "", BruteForceProtection);
    assert DisabledKey(id) !in SessionsOf(m3, id, now);
    assert SessionKey(id, fp) == SessionPrefix(id) + fp;
    assert IntToString(nowMs) != "";
  }
}
