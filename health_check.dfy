/**
 * The health-check report: the time since the service object was created,
 * split into days, hours, minutes and seconds with JavaScript's `Math.floor`
 * and `%` (whose remainder takes the sign of the dividend).
 */
module HealthCheck {
  import opened Strings

  /** JavaScript's `a % b` for a positive divisor: truncated, so negative for a negative dividend. */
  function JsRem(a: int, b: int): (r: int)
    requires b > 0
    ensures a >= 0 ==> 0 <= r < b && r == a % b
    ensures a < 0 ==> -b < r <= 0
  {
    if a >= 0 then a % b else -((-a) % b)
  }

  /** `Math.floor(a / b)` for a positive divisor (Dafny's division already rounds down there). */
  function FloorDiv(a: int, b: int): (q: int)
    requires b > 0
    ensures q * b <= a < q * b + b
  {
    a / b
  }

  datatype Uptime = Uptime(days: int, hours: int, minutes: int, seconds: int)

  /** `Math.floor((Date.now() - startTime) / 1000)`: whole seconds, rounded down also before the start. */
  function UptimeSeconds(startTimeMs: int, nowMs: int): (u: int)
    ensures u * 1000 <= nowMs - startTimeMs < u * 1000 + 1000
    ensures u < 0 <==> nowMs < startTimeMs
  {
    FloorDiv(nowMs - startTimeMs, 1000)
  }

  /** The four parts of `serverHealth`, as computed there. */
  function Decompose(uptimeSeconds: int): (u: Uptime)
    ensures uptimeSeconds >= 0 ==> u.days >= 0 && u.hours >= 0 && u.minutes >= 0 && u.seconds >= 0
    ensures uptimeSeconds < 0 ==> u.days < 0 && -24 <= u.hours <= 0 && -60 <= u.minutes <= 0 && -60 < u.seconds <= 0
  {
    Uptime(
      FloorDiv(uptimeSeconds, 86400),
      FloorDiv(JsRem(uptimeSeconds, 86400), 3600),
      FloorDiv(JsRem(uptimeSeconds, 3600), 60),
      JsRem(uptimeSeconds, 60))
  }

  datatype Health = Health(status: string, uptime: string)

  /** `serverHealth`, with the creation time and the current time passed in. */
  function ServerHealth(startTimeMs: int, nowMs: int): (h: Health)
    ensures h.status == "OK"
    ensures var u := Decompose(UptimeSeconds(startTimeMs, nowMs));
      h.uptime == IntToString(u.days) + " days, " + IntToString(u.hours) + " hours, "
                  + IntToString(u.minutes) + " minutes, " + IntToString(u.seconds) + " seconds"
  {
    var u := Decompose(UptimeSeconds(startTimeMs, nowMs));
    Health("OK", IntToString(u.days) + " days, " + IntToString(u.hours) + " hours, "
                 + IntToString(u.minutes) + " minutes, " + IntToString(u.seconds) + " seconds")
  }

  /** `n % 3600` is the `r` of any split `n == q * 3600 + r` with `0 <= r < 3600`. */
  lemma RemOfSplitHour(n: int, q: int, r: int)
    requires 0 <= r < 3600 && n == q * 3600 + r
    ensures n % 3600 == r
  {
  }

  /** `n % 60` is the `r` of any split `n == q * 60 + r` with `0 <= r < 60`. */
  lemma RemOfSplitMinute(n: int, q: int, r: int)
    requires 0 <= r < 60 && n == q * 60 + r
    ensures n % 60 == r
  {
  }

  /** For a clock that has not gone backwards the parts are in range and add back up to the uptime. */
  lemma DecompositionExact(uptimeSeconds: int)
    requires uptimeSeconds >= 0
    ensures var u := Decompose(uptimeSeconds);
      u.days >= 0 && 0 <= u.hours < 24 && 0 <= u.minutes < 60 && 0 <= u.seconds < 60
      && u.days * 86400 + u.hours * 3600 + u.minutes * 60 + u.seconds == uptimeSeconds
  {
    var u := Decompose(uptimeSeconds);
    var r := uptimeSeconds % 86400;
    var r2 := r % 3600;
    assert uptimeSeconds == u.days * 86400 + r;
    assert r == u.hours * 3600 + r2;
    RemOfSplitHour(uptimeSeconds, u.days * 24 + u.hours, r2);
    assert r2 == u.minutes * 60 + r2 % 60;
    RemOfSplitMinute(uptimeSeconds, (u.days * 24 + u.hours) * 60 + u.minutes, r2 % 60);
  }

  /** A clock that went back one second gives four negative parts that do not add up to the uptime. */
  lemma NegativeUptime()
    ensures Decompose(-1) == Uptime(-1, -1, -1, -1)
  {
  }
}
