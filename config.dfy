/**
 * The configuration loaded once at start-up from the process environment:
 * required variables (a missing or empty one aborts start-up), variables with
 * defaults, numeric variables read with `parseInt` and boolean switches.
 * The environment is passed in as a map from names to values.
 */
module Config {
  import opened Wrappers
  import opened Strings
  import opened AppErrors

  /** `process.env`: a name that is not a key is undefined. */
  type Env = map<string, string>

  /** `process.env[key]` with JavaScript truthiness: undefined and "" both count as absent. */
  predicate IsSet(env: Env, key: string) {
    key in env && env[key] != ""
  }

  const MissingPrefix := "Missing required environment variable: "

  /** `getRequiredEnv`: the value, or a thrown Error naming the variable. */
  function GetRequiredEnv(env: Env, key: string): (r: Result<string, Thrown>)
    ensures r.Success? <==> IsSet(env, key)
    ensures r.Success? ==> r.value == env[key]
    ensures r.Failure? ==> r.error == PlainError(MissingPrefix + key, Captured)
  {
    if IsSet(env, key) then Success(env[key]) else Failure(PlainError(MissingPrefix + key, Captured))
  }

  /** `getEnv`: the value when it is non-empty, the default otherwise. */
  function GetEnv(env: Env, key: string, defaultValue: string): (v: string)
    ensures IsSet(env, key) ==> v == env[key]
    ensures !IsSet(env, key) ==> v == defaultValue
  {
    if IsSet(env, key) then env[key] else defaultValue
  }

  /** The longest prefix of decimal digits. */
  function LeadingDigits(s: string): (d: string)
    ensures AllDigits(d) && HasPrefix(s, d)
    ensures |d| < |s| ==> !IsDigit(s[|d|])
  {
    if |s| > 0 && IsDigit(s[0]) then [s[0]] + LeadingDigits(s[1..]) else []
  }

  /** The value of the leading digits, None when there are none. */
  function LeadingValue(s: string): Option<int> {
    var d := LeadingDigits(s);
    if d == [] then None else Some(DigitsValue(d))
  }

  function Negate(v: Option<int>): Option<int> {
    match v
    case Some(n) => Some(-n)
    case None => None
  }

  /**
   * `parseInt(s, 10)`: optional white space, an optional sign, then the
   * longest run of digits; the rest is ignored. None stands for NaN.
   */
  function ParseInt(s: string): (n: Option<int>)
    ensures var t := TrimStart(s);
      var digits := LeadingDigits(if |t| > 0 && (t[0] == '-' || t[0] == '+') then t[1..] else t);
      (n.None? <==> digits == [])
      && (n.Some? && t[0] == '-' ==> n.value + DigitsValue(digits) == 0)
      && (n.Some? && t[0] != '-' ==> n.value == DigitsValue(digits))
  {
    var t := TrimStart(s);
    if |t| > 0 && t[0] == '-' then Negate(LeadingValue(t[1..]))
    else if |t| > 0 && t[0] == '+' then LeadingValue(t[1..])
    else LeadingValue(t)
  }

  /** `getNumericEnv`: the parsed value (possibly NaN) when the variable is set, the default otherwise. */
  function GetNumericEnv(env: Env, key: string, defaultValue: int): (n: Option<int>)
    ensures !IsSet(env, key) ==> n == Some(defaultValue)
    ensures IsSet(env, key) ==> n == ParseInt(env[key])
  {
    if IsSet(env, key) then ParseInt(env[key]) else Some(defaultValue)
  }

  /** `getBooleanEnv`: the default when unset; otherwise exactly "true" and "1" are true. */
  function GetBooleanEnv(env: Env, key: string, defaultValue: bool): (b: bool)
    ensures !IsSet(env, key) ==> b == defaultValue
    ensures IsSet(env, key) ==> (b <==> env[key] == "true" || env[key] == "1")
  {
    if !IsSet(env, key) then defaultValue else env[key] == "true" || env[key] == "1"
  }

  lemma {:induction false} LeadingDigitsOfDigits(d: string, tail: string)
    requires AllDigits(d)
    requires tail == [] || !IsDigit(tail[0])
    ensures LeadingDigits(d + tail) == d
  {
    if d != [] {
      assert (d + tail)[1..] == d[1..] + tail;
      LeadingDigitsOfDigits(d[1..], tail);
    }
  }

  lemma LeadingValueOfDigits(d: string, tail: string)
    requires |d| >= 1 && AllDigits(d)
    requires tail == [] || !IsDigit(tail[0])
    ensures LeadingValue(d + tail) == Some(DigitsValue(d))
  {
    LeadingDigitsOfDigits(d, tail);
  }

  /** A text starting with a minus sign parses as the negation of what follows the sign. */
  lemma ParseIntMinus(s: string)
    requires |s| >= 1 && s[0] == '-'
    ensures ParseInt(s) == Negate(LeadingValue(s[1..]))
  {
    assert !IsSpace(s[0]);
  }

  /** A text starting with a digit parses as its leading digits. */
  lemma ParseIntDigit(s: string)
    requires |s| >= 1 && IsDigit(s[0])
    ensures ParseInt(s) == LeadingValue(s)
  {
    assert !IsSpace(s[0]);
  }

  /**
   * `parseInt` reads back the decimal text of any integer, also with trailing
   * text that does not start with a digit (such as "3000abc" or "8080 ").
   */
  lemma ParseIntOfNumeral(i: int, tail: string)
    requires tail == [] || !IsDigit(tail[0])
    ensures ParseInt(IntToString(i) + tail) == Some(i)
  {
    if i < 0 {
      ParseIntOfNegative(i, tail);
    } else {
      ParseIntOfNatural(i, tail);
    }
  }

  lemma ParseIntOfNatural(n: nat, tail: string)
    requires tail == [] || !IsDigit(tail[0])
    ensures ParseInt(NatToString(n) + tail) == Some(n)
  {
    var d := NatToString(n);
    NatToStringValue(n);
    LeadingValueOfDigits(d, tail);
    ParseIntDigit(d + tail);
  }

  lemma ParseIntOfNegative(i: int, tail: string)
    requires i < 0
    requires tail == [] || !IsDigit(tail[0])
    ensures ParseInt(IntToString(i) + tail) == Some(i)
  {
    var d := NatToString(-i);
    NatToStringValue(-i);
    LeadingValueOfDigits(d, tail);
    ParseIntOfMinus(d + tail, -i);
    NegativeText(i, tail);
  }

  lemma NegativeText(i: int, tail: string)
    requires i < 0
    ensures IntToString(i) + tail == ['-'] + (NatToString(-i) + tail)
  {
  }

  /** A minus sign before a text whose leading digits read `v` parses as `-v`. */
  lemma ParseIntOfMinus(t: string, v: nat)
    requires LeadingValue(t) == Some(v)
    ensures ParseInt(['-'] + t) == Some(-(v as int))
  {
    var s := ['-'] + t;
    assert s[0] == '-' && s[1..] == t;
    ParseIntMinus(s);
  }

  /** Text without any digit after the optional sign is NaN. */
  lemma ParseIntNaN(s: string)
    requires forall i :: 0 <= i < |s| ==> !IsDigit(s[i])
    ensures ParseInt(s) == None
  {
    TrimStartSuffix(s);
    var t := TrimStart(s);
    var rest := if |t| > 0 && (t[0] == '-' || t[0] == '+') then t[1..] else t;
    assert rest == s[|s| - |rest|..];
    if rest != [] {
      assert rest[0] == s[|s| - |rest|];
    }
    assert LeadingValue(rest) == None;
  }

  /** The variables `getRequiredEnv` demands, in the order the configuration object reads them. */
  const RequiredKeys: seq<string> := [
    "HOST_NAME",
    "R2_ACCESS_KEY_ID", "R2_SECRET_ACCESS_KEY", "R2_BUCKET_IMAGES", "R2_S3_API_ENDPOINT", "R2_PUBLIC_DOMAIN",
    "REDIS_HOST", "REDIS_USERNAME", "REDIS_PASSWORD",
    "JWT_SECRET",
    "AUTHENTICATOR_SECRET"
  ]

  datatype AppSettings = AppSettings(
    environment: string, isDev: bool, isProduction: bool, hostName: string,
    port: Option<int>, basicUser: string, basicPass: string)

  datatype DbSettings = DbSettings(
    host: string, port: Option<int>, database: string, username: string, password: string)

  datatype R2Settings = R2Settings(
    accessKeyId: string, secretAccessKey: string, bucketImages: string, s3ApiEndpoint: string, publicDomain: string)

  datatype RedisSettings = RedisSettings(
    host: string, port: Option<int>, username: string, password: string, database: Option<int>)

  datatype LoggerSettings = LoggerSettings(includeStackTrace: bool, logTypeOrmQuery: bool)

  datatype Settings = Settings(
    app: AppSettings, db: DbSettings, redis: RedisSettings, jwtSecret: string,
    logger: LoggerSettings, isVerbose: bool, authenticatorSecret: string, r2: R2Settings)

  function LoadApp(env: Env): (r: Result<AppSettings, Thrown>)
    ensures r.Success? <==> IsSet(env, "HOST_NAME")
    ensures r.Success? ==> r.value.hostName == env["HOST_NAME"] && r.value.port == GetNumericEnv(env, "PORT", 3000)
    ensures r.Success? ==> r.value.environment == GetEnv(env, "NODE_ENV", "development")
    ensures r.Success? ==> (r.value.isDev <==> "NODE_ENV" in env && env["NODE_ENV"] == "development")
    ensures r.Success? ==> (r.value.isProduction <==> "NODE_ENV" in env && env["NODE_ENV"] == "production")
    ensures r.Success? ==> r.value.basicUser == (if IsSet(env, "BASIC_USER") then env["BASIC_USER"] else "fylokr")
    ensures r.Success? ==> r.value.basicPass == (if IsSet(env, "BASIC_PASS") then env["BASIC_PASS"] else "fylokr")
    ensures r.Failure? ==> r.error == PlainError(MissingPrefix + "HOST_NAME", Captured)
  {
    var hostName :- GetRequiredEnv(env, "HOST_NAME");
    Success(AppSettings(
      GetEnv(env, "NODE_ENV", "development"),
      "NODE_ENV" in env && env["NODE_ENV"] == "development",
      "NODE_ENV" in env && env["NODE_ENV"] == "production",
      hostName,
      GetNumericEnv(env, "PORT", 3000),
      GetEnv(env, "BASIC_USER", "fylokr"),
      GetEnv(env, "BASIC_PASS", "fylokr")))
  }

  function LoadDb(env: Env): (r: DbSettings)
    ensures r.host == (if IsSet(env, "DB_HOST") then env["DB_HOST"] else "localhost")
    ensures r.database == (if IsSet(env, "DB_DATABASE") then env["DB_DATABASE"] else "fylokr")
    ensures r.username == (if IsSet(env, "DB_USER") then env["DB_USER"] else "fylokr")
    ensures r.password == (if IsSet(env, "DB_PASSWORD") then env["DB_PASSWORD"] else "")
    ensures !IsSet(env, "DB_PORT") ==> r.port == Some(5432)
    ensures IsSet(env, "DB_PORT") ==> r.port == ParseInt(env["DB_PORT"])
  {
    DbSettings(
      GetEnv(env, "DB_HOST", "localhost"),
      GetNumericEnv(env, "DB_PORT", 5432),
      GetEnv(env, "DB_DATABASE", "fylokr"),
      GetEnv(env, "DB_USER", "fylokr"),
      GetEnv(env, "DB_PASSWORD", ""))
  }

  function LoadR2(env: Env): (r: Result<R2Settings, Thrown>)
    ensures r.Success? <==> IsSet(env, "R2_ACCESS_KEY_ID") && IsSet(env, "R2_SECRET_ACCESS_KEY") && IsSet(env, "R2_BUCKET_IMAGES")
                            && IsSet(env, "R2_S3_API_ENDPOINT") && IsSet(env, "R2_PUBLIC_DOMAIN")
    ensures r.Success? ==> r.value == R2Settings(env["R2_ACCESS_KEY_ID"], env["R2_SECRET_ACCESS_KEY"], env["R2_BUCKET_IMAGES"],
                                                 env["R2_S3_API_ENDPOINT"], env["R2_PUBLIC_DOMAIN"])
  {
    var accessKeyId :- GetRequiredEnv(env, "R2_ACCESS_KEY_ID");
    var secretAccessKey :- GetRequiredEnv(env, "R2_SECRET_ACCESS_KEY");
    var bucketImages :- GetRequiredEnv(env, "R2_BUCKET_IMAGES");
    var endpoint :- GetRequiredEnv(env, "R2_S3_API_ENDPOINT");
    var publicDomain :- GetRequiredEnv(env, "R2_PUBLIC_DOMAIN");
    Success(R2Settings(accessKeyId, secretAccessKey, bucketImages, endpoint, publicDomain))
  }

  function LoadRedis(env: Env): (r: Result<RedisSettings, Thrown>)
    ensures r.Success? <==> IsSet(env, "REDIS_HOST") && IsSet(env, "REDIS_USERNAME") && IsSet(env, "REDIS_PASSWORD")
    ensures r.Success? ==> r.value.host == env["REDIS_HOST"] && r.value.port == GetNumericEnv(env, "REDIS_PORT", 6379)
                           && r.value.database == GetNumericEnv(env, "REDIS_DB", 0)
    ensures r.Success? ==> r.value.username == env["REDIS_USERNAME"] && r.value.password == env["REDIS_PASSWORD"]
  {
    var host :- GetRequiredEnv(env, "REDIS_HOST");
    var port := GetNumericEnv(env, "REDIS_PORT", 6379);
    var username :- GetRequiredEnv(env, "REDIS_USERNAME");
    var password :- GetRequiredEnv(env, "REDIS_PASSWORD");
    Success(RedisSettings(host, port, username, password, GetNumericEnv(env, "REDIS_DB", 0)))
  }

  /** The whole configuration object, built section by section in the order of the module. */
  function Load(env: Env): (r: Result<Settings, Thrown>)
    ensures r.Success? <==> LoadApp(env).Success? && LoadR2(env).Success? && LoadRedis(env).Success?
                            && IsSet(env, "JWT_SECRET") && IsSet(env, "AUTHENTICATOR_SECRET")
    ensures r.Success? ==> r.value.app == LoadApp(env).value && r.value.db == LoadDb(env) && r.value.redis == LoadRedis(env).value
                           && r.value.jwtSecret == env["JWT_SECRET"] && r.value.isVerbose == GetBooleanEnv(env, "IS_VERBOSE_ERROR", false)
                           && r.value.logger == LoggerSettings(GetBooleanEnv(env, "LOG_STACK_TRACE", false),
                                                               GetBooleanEnv(env, "LOG_TYPEORM_QUERIES", false))
    ensures r.Success? ==> r.value.r2 == LoadR2(env).value && r.value.authenticatorSecret == env["AUTHENTICATOR_SECRET"]
  {
    var app :- LoadApp(env);
    var db := LoadDb(env);
    var r2 :- LoadR2(env);
    var redis :- LoadRedis(env);
    var jwtSecret :- GetRequiredEnv(env, "JWT_SECRET");
    var logger := LoggerSettings(
      GetBooleanEnv(env, "LOG_STACK_TRACE", false),
      GetBooleanEnv(env, "LOG_TYPEORM_QUERIES", false));
    var isVerbose := GetBooleanEnv(env, "IS_VERBOSE_ERROR", false);
    var authenticatorSecret :- GetRequiredEnv(env, "AUTHENTICATOR_SECRET");
    Success(Settings(app, db, redis, jwtSecret, logger, isVerbose, authenticatorSecret, r2))
  }

  /** Start-up succeeds exactly when every required variable is set. */
  lemma LoadSucceedsIffRequiredSet(env: Env)
    ensures Load(env).Success? <==> forall k :: k in RequiredKeys ==> IsSet(env, k)
  {
    if forall k :: k in RequiredKeys ==> IsSet(env, k) {
      assert IsSet(env, RequiredKeys[0]) && IsSet(env, RequiredKeys[1]) && IsSet(env, RequiredKeys[2]);
      assert IsSet(env, RequiredKeys[3]) && IsSet(env, RequiredKeys[4]) && IsSet(env, RequiredKeys[5]);
      assert IsSet(env, RequiredKeys[6]) && IsSet(env, RequiredKeys[7]) && IsSet(env, RequiredKeys[8]);
      assert IsSet(env, RequiredKeys[9]) && IsSet(env, RequiredKeys[10]);
    }
  }

  /** A failed start-up names the first unset required variable, in reading order. */
  lemma LoadNamesFirstMissing(env: Env, k: nat)
    requires k < |RequiredKeys| && !IsSet(env, RequiredKeys[k])
    requires forall j :: 0 <= j < k ==> IsSet(env, RequiredKeys[j])
    ensures Load(env) == Failure(PlainError(MissingPrefix + RequiredKeys[k], Captured))
  {
    if k > 0 { assert IsSet(env, RequiredKeys[0]); }
    if k > 1 { assert IsSet(env, RequiredKeys[1]); }
    if k > 2 { assert IsSet(env, RequiredKeys[2]); }
    if k > 3 { assert IsSet(env, RequiredKeys[3]); }
    if k > 4 { assert IsSet(env, RequiredKeys[4]); }
    if k > 5 { assert IsSet(env, RequiredKeys[5]); }
    if k > 6 { assert IsSet(env, RequiredKeys[6]); }
    if k > 7 { assert IsSet(env, RequiredKeys[7]); }
    if k > 8 { assert IsSet(env, RequiredKeys[8]); }
    if k > 9 { assert IsSet(env, RequiredKeys[9]); }
  }

  /** With only the required variables set, every other setting takes its documented default. */
  lemma LoadDefaults(env: Env)
    requires "NODE_ENV" !in env && "PORT" !in env && "DB_HOST" !in env && "DB_PORT" !in env && "DB_PASSWORD" !in env
    requires "BASIC_USER" !in env && "BASIC_PASS" !in env && "DB_DATABASE" !in env && "DB_USER" !in env
    requires "REDIS_PORT" !in env && "REDIS_DB" !in env
    requires "LOG_STACK_TRACE" !in env && "LOG_TYPEORM_QUERIES" !in env && "IS_VERBOSE_ERROR" !in env
    requires forall k :: k in RequiredKeys ==> IsSet(env, k)
    ensures Load(env).Success?
    ensures var c := Load(env).value;
      c.app.environment == "development" && !c.app.isDev && !c.app.isProduction
      && c.app.hostName == env["HOST_NAME"] && c.app.port == Some(3000)
      && c.db.host == "localhost" && c.db.port == Some(5432) && c.db.password == ""
      && c.redis.port == Some(6379) && c.redis.database == Some(0)
      && c.redis.host == env["REDIS_HOST"] && c.jwtSecret == env["JWT_SECRET"]
      && !c.logger.includeStackTrace && !c.logger.logTypeOrmQuery && !c.isVerbose
      && c.app.basicUser == "fylokr" && c.app.basicPass == "fylokr" && c.db.database == "fylokr" && c.db.username == "fylokr"
      && c.redis.username == env["REDIS_USERNAME"] && c.redis.password == env["REDIS_PASSWORD"]
      && c.r2.accessKeyId == env["R2_ACCESS_KEY_ID"] && c.authenticatorSecret == env["AUTHENTICATOR_SECRET"]
  {
    LoadSucceedsIffRequiredSet(env);
  }
}
