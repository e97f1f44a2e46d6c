# fylokr-be security core in Dafny

This project models the security core of the fylokr back end, an Express and TypeScript service:

- the brute-force guard, which counts failed attempts, imposes growing cooldowns and locks the account at a threshold;
- the login-session and auth-value cache on top of the Redis wrapper;
- the Redis wrapper itself, with its TTL rules;
- JWT claim construction and verification;
- the two user-agent fingerprint derivers;
- the authentication middleware and the sign-up service;
- the error taxonomy, its HTTP status tables and the error handler;
- the base repository over an in-memory table;
- the health check and the environment-variable helpers.

Each source file is one module:

| module | file | what it is |
|---|---|---|
| `TokenEnum` | `token_enum.dfy` | TTL units and token categories |
| `HttpStatus` | `http_status.dfy` | error types, their status codes and default messages, and the success codes |
| `AppErrors` | `app_error.dfy` | `AppError` and its subclasses as one datatype, with a class tag, message selection, the exposure rule, `shouldReport` and `JwtTokenError.mapJwtError` |
| `ErrorHandler` | `handler_error.dfy` | error normalisation, and the log level and response `handleError` produces |
| `Config` | `config.dfy` | lookups over an environment map, and the configuration they build |
| `JwtSecurity` | `jwt.dfy` | TTL arithmetic, claims, and verification against an abstract signing codec |
| `UserAgent`, `ClientHeuristicFingerprint`, `DeviceFingerprint` | `user_agent.dfy`, `client_fingerprint.dfy`, `device_fingerprint.dfy` | the parser result, and the two fingerprint derivers over an uninterpreted parser and SHA-256 |
| `RedisCore` | `redis_store.dfy` | the Redis commands the wrapper issues, over a map from key to value and optional expiry; the wrapper is the class `Store` |
| `AuthCache` | `auth_cache.dfy` | the session and auth-value keys, and the cache operations as methods on a `Store` |
| `BaseRepository` | `repository.dfy` | the class `Repository`, whose rows are a sequence of column maps, with an abstract `where` predicate |
| `BruteForceProtection` | `brute_force.dfy` | the guard's key builders, state read-out and methods |
| `AuthMiddleware` | `auth_middleware.dfy` | `userAuthentication` |
| `AuthService` | `auth_service.dfy` | `signUp` |
| `HealthCheck` | `health_check.dfy` | the uptime decomposition |
| `Wrappers`, `Strings` | `wrappers.dfy`, `strings.dfy` | `Option`/`Result`, decimal text, prefixes and ASCII lower case |

## How the model is set up

- **Time.** The clock is a parameter: `nowMs` for `Date.now()` and `now` for the current second. The moment an entry expires is stored with the entry, so an expired key reads as absent.
- **Randomness.** The jti that `crypto.randomUUID()` supplies is a parameter, `uuid`.
- **Foreign functions.** Hashing (bcrypt, SHA-256), user-agent parsing and JWT signing are function parameters. The signing codec is assumed only to be sound: a token decodes to what was signed with the same secret. A store that fails is modelled by the `failure` field of `Store`, which makes every command reject with that message.
- **Operations on stores and tables** are methods on `Store` and `Repository`. Each method's `ensures` ties its answer and new state to a specification function: `SetReply`, `DeleteReply`, `CacheReply`, `DisableOutcome`, `RecordOutcome`, `UpdatedRows`, and so on. The lemmas are stated about those functions.
- **The middleware** is split into one method per stage. Each stage settles the decision functions `GateToken`, `GateClaims`, `GateSession` and `GateUser` through `Settle`, and `Refresh` is the step that writes.

## Model

| member | source | states |
|---|---|---|
| Strings.NatToString | src/core/services/health-check.service.ts:20 | the text of a natural number is a canonical numeral: digits only, without a leading zero |
| Strings.IntToString | src/core/services/health-check.service.ts:20 | the text of an integer is a canonical numeral, after a minus sign exactly when the integer is negative |
| Strings.NatToStringValue | src/config/index.ts:50 | reading the digits of a natural number's text gives the number back |
| Strings.NumeralRoundTrip | src/config/index.ts:50 | every canonical numeral is the text of its own value, so numerals and naturals correspond one to one |
| Strings.Contains | src/core/errors/app.error.ts:227-263 | `includes` holds exactly when the searched text occurs at some position |
| Strings.ToLower | src/core/errors/app.error.ts:225 | the same length, with every ASCII capital letter lowered and every other character kept |
| Strings.TrimStart | src/config/index.ts:50 | no longer than the text, and starting with a character that is not white space when anything is left |
| Strings.TrimStartSuffix | src/config/index.ts:50 | what the trim keeps is the suffix that starts at the first character that is not white space, with only white space before it |
| TokenEnum.UnitSeconds | src/shared/enums/token.enum.ts:1-5 | each unit's enum value is its length in seconds, at least one |
| TokenEnum.UnitsNest | src/shared/enums/token.enum.ts:2-4 | a minute is 60 seconds and a day is 1440 minutes |
| TokenEnum.UnitsDistinctPositive | src/shared/enums/token.enum.ts:1-5 | every unit is a positive whole number of seconds, and distinct units have distinct values |
| TokenEnum.CategoryName | src/shared/enums/token.enum.ts:7-10 | a category's value is "LOGIN" or "SIGNUP" |
| TokenEnum.CategoryFromName | src/shared/enums/token.enum.ts:7-10 | a name is read back to the category carrying it; any other text names no category |
| TokenEnum.CategoryRoundTrip | src/shared/enums/token.enum.ts:7-10 | reading a category's value gives that category back |
| HttpStatus.StatusCode | src/shared/consts/http-status.const.ts:3-17 | every error type maps to a 4xx or 5xx code, and to 5xx exactly for the configuration, database, internal and unavailable kinds |
| HttpStatus.DefaultMessage | src/shared/consts/http-status.const.ts:26-46 | every error type has a non-empty default message |
| HttpStatus.SuccessCode | src/shared/consts/http-status.const.ts:19-24 | every success code is 2xx, and 204 only for NO_CONTENT |
| HttpStatus.SharedStatusCodes | src/shared/consts/http-status.const.ts:3-17 | the two not-found kinds share 404, user-agent-missing shares 400 with bad request, and the three server kinds share 500 |
| HttpStatus.SuccessCodesDistinct | src/shared/consts/http-status.const.ts:19-24 | no two success keys share a code |
| HealthCheck.JsRem | src/core/services/health-check.service.ts:16-18 | JavaScript's `%` for a positive divisor: Euclidean for a non-negative dividend, in (-b, 0] for a negative one |
| HealthCheck.FloorDiv | src/core/services/health-check.service.ts:13-17 | `Math.floor(a / b)` is the quotient q with q*b <= a < q*b + b |
| HealthCheck.ServerHealth | src/core/services/health-check.service.ts:12-28 | the status is "OK", and the uptime text lists the days, hours, minutes and seconds of the elapsed whole seconds in that order |
| HealthCheck.DecompositionExact | src/core/services/health-check.service.ts:13-18 | for a non-negative uptime the hours, minutes and seconds are in range and the four parts add back up to the uptime |
| HealthCheck.UptimeSeconds | src/core/services/health-check.service.ts:5-13 | the uptime is the whole number of seconds elapsed since the service was created, rounded down, and it is negative exactly when the clock reads earlier than the start time |
| HealthCheck.Decompose | src/core/services/health-check.service.ts:15-18 | for a non-negative uptime the days, hours, minutes and seconds are all non-negative; for a negative one the days are negative and the other parts lie between -24, -60 and -60 and zero |
| HealthCheck.NegativeUptime | src/core/services/health-check.service.ts:13-18 | a clock that went back one second reports -1 for all four parts, which do not add up to the uptime |
| AppErrors.NewError | src/core/errors/app.error.ts:26-44 | the class fixes the type, status and name; an Error cause gives its message, a non-empty text cause is kept, no cause or an empty text falls back to the type's default; a non-Error cause never leaves the message empty; the stack is the cause's when it has one, else a captured one |
| AppErrors.TypeOf | src/core/errors/app.error.ts:105-208 | the type each subclass passes to the base class: exactly ServiceUnavailableError, DatabaseError and InternalServerError get a 5xx type; UnauthorizedError and JwtTokenError share UNAUTHORIZED; ResourceNotFoundError and FileNotFoundError share NOT_FOUND; no class uses FILE_NOT_FOUND, CONFIGURATION_ERROR or USER_AGENT_NOT_FOUND |
| AppErrors.ClassName | src/core/errors/app.error.ts:37 | `this.constructor.name` of every subclass ends in "Error" |
| AppErrors.ShouldReport | src/core/errors/app.error.ts:49-51 | true exactly for ResourceConflictError, DatabaseError and InternalServerError (their overrides at lines 152-154, 177-179 and 194-196) |
| AppErrors.ExposeMessage | src/core/errors/app.error.ts:57-71 | verbose mode shows a non-empty own message; a JwtTokenError outside verbose mode shows "Invalid or expired token"; the database and internal kinds outside verbose mode show their default; any other class shows its non-empty own message and never an empty text (overrides at lines 181-185, 198-202 and 211-213) |
| AppErrors.ToLogObject | src/core/errors/app.error.ts:88-101 | the logged message is the verbose exposed message, which is the error's own unless that is empty; the stack is logged exactly when asked for and present |
| AppErrors.ToApiObject | src/core/errors/app.error.ts:77-82 | the object carries the error's type; in verbose mode the error's own message, outside it "Invalid or expired token" for a JwtTokenError and the type's default text for a database or internal error |
| AppErrors.FirstMatch | src/core/errors/app.error.ts:225-267 | the index found is the first rule at or after the start whose pattern occurs in the lower-cased message; none is found only when no rule matches |
| AppErrors.ClassifyFirstMatchWins | src/core/errors/app.error.ts:225-267 | the first rule, in source order, whose pattern occurs in the lower-cased message decides the new message |
| AppErrors.ClassifyNoMatchKeeps | src/core/errors/app.error.ts:269 | a message no rule matches is kept as it is |
| AppErrors.ClassifyJwtMessage | src/core/errors/app.error.ts:224-269 | when no rule's pattern occurs in the lower-cased message, the message is kept; otherwise the message of the first rule that matches is chosen, and no earlier rule matches |
| AppErrors.FromLibraryError | src/core/errors/app.error.ts:216-270 | an expired or not-yet-valid token error keeps its message; any other library error gets the classified message; the library error's stack, when present, is kept |
| AppErrors.ThrownText | src/core/errors/app.error.ts:272-285 | a thrown string is itself, an object with a string message gives that message, anything else the fixed text |
| AppErrors.FromOtherValue | src/core/errors/app.error.ts:272-285 | a JwtTokenError with a non-empty message: the non-empty thrown string, the non-empty object message, or "Unexpected JWT validation error" |
| AppErrors.MapJwtError | src/core/errors/app.error.ts:215-286 | whatever is thrown becomes a well-formed JwtTokenError of type UNAUTHORIZED with status 401 |
| AppErrors.MapJwtErrorKeepsOwnMessage | src/core/errors/app.error.ts:276-283 | remapping a JwtTokenError with a message keeps that message, and verbose mode exposes it |
| ErrorHandler.NormalizeError | src/core/errors/handler.error.ts:39-56 | an AppError passes through; a query failure or an object with a driver error becomes a DatabaseError and anything else an InternalServerError; an Error keeps its message and stack, a non-Error gets the fixed text |
| ErrorHandler.HandleError | src/core/errors/handler.error.ts:13-31 | a reportable error is logged at error level, with its stack only when stack traces are on; any other at warn level without a stack; the response carries the error's status, type and exposed message |
| ErrorHandler.ForeignErrorsAreServerErrors | src/core/errors/handler.error.ts:44-55 | anything that is not an AppError is answered with status 500 and logged at error level |
| ErrorHandler.ForeignErrorsDoNotLeak | src/core/errors/handler.error.ts:26 | outside verbose mode a foreign error's own message never reaches the client: the body carries its type's default |
| ErrorHandler.UnreportedErrorsHaveNoStack | src/core/errors/handler.error.ts:21-24 | a non-reportable application error is logged as a warning, without a stack trace, and answered with its own status |
| Config.GetRequiredEnv | src/config/index.ts:36-42 | succeeds exactly when the variable is set to a non-empty value, which it returns; otherwise the Error names the variable |
| Config.GetEnv | src/config/index.ts:44-46 | a non-empty value wins; an unset or empty variable gives the default |
| Config.LeadingDigits | src/config/index.ts:50 | the longest run of digits `parseInt` reads: digits only, a prefix of the text, and followed by no digit |
| Config.GetNumericEnv | src/config/index.ts:48-51 | an unset or empty variable gives the default; a set one is whatever `parseInt` reads, NaN included |
| Config.GetBooleanEnv | src/config/index.ts:53-58 | an unset or empty variable gives the default; a set one is true exactly for "true" and "1" |
| Config.ParseIntOfNumeral | src/config/index.ts:50 | `parseInt` reads back the decimal text of every integer, also with trailing text that does not start with a digit |
| Config.ParseIntNaN | src/config/index.ts:50 | a text without any digit parses as NaN, so a numeric setting can be NaN rather than its default |
| Config.ParseInt | src/config/index.ts:50 | `parseInt(value, 10)`: after leading white space and an optional sign, NaN exactly when no digit follows, otherwise the value of the leading digits, negated after a minus sign |
| Config.ParseIntOfNatural | src/config/index.ts:50 | the decimal text of a natural number, followed by anything but a digit, parses back to that number |
| Config.ParseIntOfNegative | src/config/index.ts:50 | the decimal text of a negative number, followed by anything but a digit, parses back to that number |
| Config.LoadApp | src/config/index.ts:60-68 | the app section loads exactly when HOST_NAME is set, with the port parsed from PORT (default 3000), the environment from NODE_ENV (default "development"), and isDev and isProduction compared with the raw NODE_ENV, and BASIC_USER and BASIC_PASS each its variable when set and non-empty and otherwise "fylokr"; when HOST_NAME is unset it fails naming that variable |
| Config.LoadDb | src/config/index.ts:70-77 | each database setting is its variable when that is set and non-empty, and otherwise "localhost", port 5432, "fylokr", "fylokr" and the empty password; a set port is its `parseInt` |
| Config.LoadR2 | src/config/index.ts:79-87 | the storage section loads exactly when its five required variables are set, and then holds the access key id, secret access key, image bucket, S3 API endpoint and public domain as their variables give them |
| Config.LoadRedis | src/config/index.ts:89-95 | the cache section loads exactly when host, username and password are set, with port (default 6379) and database (default 0) parsed, and the username and password as their variables give them |
| Config.Load | src/config/index.ts:60-123 | the whole configuration loads exactly when every section does and both secrets are set, and holds each section as read: app, database, cache and storage sections, the JWT and authenticator secrets, the logger switches and the verbose-error switch |
| Config.LoadSucceedsIffRequiredSet | src/config/index.ts:36-112 | start-up succeeds exactly when each of the eleven required variables is set |
| Config.LoadNamesFirstMissing | src/config/index.ts:36-112 | a failed start-up names the first unset required variable in the order the module reads them |
| Config.LoadDefaults | src/config/index.ts:60-108 | with only the required variables set, every other setting takes its default, including "fylokr" for BASIC_USER, BASIC_PASS, DB_DATABASE and DB_USER; the cache credentials, the storage key and the authenticator secret are the variables' values |
| JwtSecurity.GenerateTokenTTL | src/infra/security/jwt.security.ts:89-91 | the lifetime is a whole number of units, no fewer seconds than the count of units, and dividing it by the unit gives the count back |
| JwtSecurity.WholeUnits | src/infra/security/jwt.security.ts:89-91 | a non-negative count of units is at least that many seconds, and always a whole number of units |
| JwtSecurity.SevenDays | src/infra/security/jwt.security.ts:89-91 | seven days are 604800 seconds, the same as 10080 minutes |
| JwtSecurity.EpochSeconds | src/infra/security/jwt.security.ts:28 | `Math.floor(Date.now() / 1000)` is the second the clock reading falls in |
| JwtSecurity.ExpirationTimestamp | src/infra/security/jwt.security.ts:85-87 | the expiry is the current second plus the lifetime |
| JwtSecurity.IssuedClaims | src/infra/security/jwt.security.ts:22-29 | the signed claims are the payload's keys plus iss, aud, jti, exp and iat; those five take the service's values and every other payload claim is kept |
| JwtSecurity.IssuedToken | src/infra/security/jwt.security.ts:21-36 | the signed value has header HS256 and "at+jwt", the configured secret, iss and aud "fylokr", the given jti, exp and iat, and every other payload field unchanged |
| JwtSecurity.JtiOf | src/infra/security/jwt.security.ts:75-79 | the jti is read exactly when the claim is present and a string, and it is that string |
| JwtSecurity.ExpiryIsIatPlusTtl | src/infra/security/jwt.security.ts:27-28 | when both clock readings fall in the same second, exp is iat plus the lifetime |
| JwtSecurity.CheckClaims | src/infra/security/jwt.security.ts:54-59 | an accepted token has not expired and is already active, both within the tolerance, and, when asked, carries the expected audience and issuer; its claims come back unchanged |
| JwtSecurity.LibraryVerify | src/infra/security/jwt.security.ts:54-59 | accepted claims come from a text that parses as an HS256 token signed with the configured secret |
| JwtSecurity.NoTokenMessage | src/infra/security/jwt.security.ts:52 | the missing-token error keeps its message "No token supplied" through the error mapping |
| JwtSecurity.VerifyAndDecodeToken | src/infra/security/jwt.security.ts:48-64 | an absent or empty token fails with "No token supplied"; every failure is a well-formed JwtTokenError; success means the library accepted the token with 30 seconds of tolerance, issuer and audience, and gives its claims |
| JwtSecurity.GetTokenJTI | src/infra/security/jwt.security.ts:71-83 | an absent or empty token fails with "No token supplied", even though it is raised as a BadRequestError; every failure is a well-formed JwtTokenError; success means the library accepted the token with no tolerance and no issuer or audience check, and gives its string jti if any |
| JwtSecurity.GenerateToken | src/infra/security/jwt.security.ts:16-41 | succeeds exactly when the library signs the issued token (exp from the first clock reading, iat from the second) and returns that text; a signing failure becomes a well-formed JwtTokenError with status 401 |
| JwtSecurity.GeneratedTokenVerifies | src/infra/security/jwt.security.ts:16-64 | what `generateToken` returns verifies until 30 seconds past its expiry, decoding to the issued claims, and yields its jti until the expiry second |
| JwtSecurity.IssuedClaimsPass | src/infra/security/jwt.security.ts:22-29 | the claims the service issues pass the claim checks until exp plus the tolerance |
| JwtSecurity.IssuedTokenVerifies | src/infra/security/jwt.security.ts:16-64 | a token the service issued verifies, until 30 seconds past its expiry, and decodes to the issued claims |
| JwtSecurity.IssuedTokenJti | src/infra/security/jwt.security.ts:16-83 | an issued token yields its jti until its expiry second |
| JwtSecurity.ToleranceWindowMismatch | src/infra/security/jwt.security.ts:58-77 | in the 30 seconds after expiry an issued token still verifies, but reading its jti fails with "jwt expired" |
| JwtSecurity.ForeignKeyRejected | src/infra/security/jwt.security.ts:54-77 | a token signed with another key is refused by both verifications |
| JwtSecurity.AcceptedClaims | src/infra/security/jwt.security.ts:54-59 | any token `verifyAndDecodeToken` accepts carries iss and aud "fylokr" and has not expired beyond the tolerance |
| UserAgent.Truncate | src/infra/security/client-heuristic-fingerprint.security.ts:45 | the first 16 characters of a hex digest are a 16-character lowercase hex fingerprint |
| ClientHeuristicFingerprint.OrUnknown | src/infra/security/client-heuristic-fingerprint.security.ts:22-26 | `?? "unknown"` replaces only an absent field; an empty string is kept |
| ClientHeuristicFingerprint.Extract | src/infra/security/client-heuristic-fingerprint.security.ts:17-28 | the five fields are the parser's browser name and major version, OS name and version and CPU architecture, each absent one "unknown" |
| ClientHeuristicFingerprint.GenerateHash | src/infra/security/client-heuristic-fingerprint.security.ts:34-46 | the fingerprint is the first 16 hex characters of the digest of the joined material, so it is 16 lowercase hex characters |
| ClientHeuristicFingerprint.Material | src/infra/security/client-heuristic-fingerprint.security.ts:37-43 | the material is the five fields with four "\|" separators, the browser first and a bar right after it |
| ClientHeuristicFingerprint.MaterialNested | src/infra/security/client-heuristic-fingerprint.security.ts:37-43 | the joined material is the first field, a bar, and the joined material of the remaining fields |
| ClientHeuristicFingerprint.MaterialInjective | src/infra/security/client-heuristic-fingerprint.security.ts:37-43 | when no field contains "\|", the material determines all five fields |
| ClientHeuristicFingerprint.HashDependsOnlyOnFields | src/infra/security/client-heuristic-fingerprint.security.ts:34-46 | two user-agents with the same five extracted fields get the same fingerprint |
| ClientHeuristicFingerprint.UnreadableAgentsCollide | src/infra/security/client-heuristic-fingerprint.security.ts:21-45 | every user-agent the parser cannot read gets the fingerprint of five "unknown"s |
| ClientHeuristicFingerprint.EmptyIsNotAbsent | src/infra/security/client-heuristic-fingerprint.security.ts:22 | an empty browser name stays empty while an absent one becomes "unknown" |
| ClientHeuristicFingerprint.MaterialHasBar | src/infra/security/client-heuristic-fingerprint.security.ts:37-43 | the material always contains a "\|", whatever the fields |
| DeviceFingerprint.OrUnknown | src/infra/security/fingerprint.security.ts:20-23 | `\|\| "Unknown"` replaces an absent and an empty field alike, so the result is never empty |
| DeviceFingerprint.Generate | src/infra/security/fingerprint.security.ts:16-25 | the device info holds the parser's browser name, device type, CPU architecture and device model, each absent or empty one "Unknown" |
| DeviceFingerprint.GenerateHash | src/infra/security/fingerprint.security.ts:31-39 | the fingerprint is the first 16 hex characters of the digest of type, CPU and model joined with ":" |
| DeviceFingerprint.Material | src/infra/security/fingerprint.security.ts:33 | the material is the three fields with two ":" separators, the device type first and a colon right after it |
| DeviceFingerprint.BrowserDoesNotMatter | src/infra/security/fingerprint.security.ts:33 | two user-agents that agree on device type, CPU and model get the same fingerprint whatever their browsers |
| DeviceFingerprint.EmptyIsAbsent | src/infra/security/fingerprint.security.ts:23 | an empty device model hashes like an absent one |
| DeviceFingerprint.UnreadableAgentsCollide | src/infra/security/fingerprint.security.ts:16-39 | every user-agent the parser cannot read gets the fingerprint of "Unknown:Unknown:Unknown" |
| DeviceFingerprint.MaterialWithoutBar | src/infra/security/fingerprint.security.ts:33 | the material holds no "\|" unless one of the three hashed fields does |
| RedisCore.Lookup | src/infra/database/redis/redis-core.ts:81-89 | GET answers a value exactly when the key holds one that has not expired, and that value is the stored one |
| RedisCore.SetCommand | src/infra/database/redis/redis-core.ts:62-69 | SET refuses a non-positive EX; otherwise the key reads back the value, keeps no expiry or expires EX seconds from now, and every other key is unchanged |
| RedisCore.Removed | src/infra/database/redis/redis-core.ts:95-103 | the entries without the given keys, every other entry unchanged |
| RedisCore.LiveAmong | src/infra/database/redis/redis-core.ts:95-103 | the given keys that hold a live value |
| RedisCore.DelCommand | src/infra/database/redis/redis-core.ts:95-103 | DEL with no argument is an error; otherwise it removes the keys and counts those that were live |
| RedisCore.ExpireCommand | src/infra/database/redis/redis-core.ts:146-157 | EXPIRE answers true exactly for a live key; a non-positive time deletes it, a positive one sets its expiry; a missing key changes nothing |
| RedisCore.TtlCommand | src/infra/database/redis/redis-core.ts:170-178 | TTL is -2 exactly for a missing key, -1 exactly for one without expiry, and otherwise the positive number of seconds until the expiry |
| RedisCore.KeysWithPrefix | src/infra/database/redis/redis-core.ts:184-193 | KEYS prefix* answers exactly the live keys starting with the prefix |
| RedisCore.IncrCommand | src/infra/database/redis/redis-core.ts:162-164 | INCR counts a missing key from 0 to 1 without expiry; otherwise it needs a 64-bit integer below the maximum, adds one, keeps the expiry and stores the new number's text |
| RedisCore.IncrExpireCommand | src/infra/database/redis/redis-core.ts:162-164 | the INCR-then-EXPIRE transaction answers INCR's reply, leaves the counter at the new number with the new expiry, and changes no other key |
| RedisCore.SpreadKeys | src/infra/database/redis/redis-core.ts:97 | spreading a string gives its one-character strings, none for the empty string |
| RedisCore.SpreadMissesKey | src/infra/database/redis/redis-core.ts:97 | a key of two or more characters is not among its own spread characters |
| RedisCore.SpreadDeleteKeepsKey | src/infra/database/redis/redis-core.ts:95-103 | deleting a live key of two or more characters as written leaves that key in place |
| RedisCore.DeleteKeyRemoves | src/infra/database/redis/redis-core.ts:95-103 | deleting the key itself removes it and answers 1 exactly when it was live |
| RedisCore.SetThenGet | src/infra/database/redis/redis-core.ts:56-89 | after SET, GET of the key before its expiry reads the value, and GET of another key reads what it read before |
| RedisCore.SetExpires | src/infra/database/redis/redis-core.ts:62-68 | a value written with EX seconds is gone from that second on |
| RedisCore.IncrRoundTrip | src/infra/database/redis/redis-core.ts:162-164 | after INCR the counter reads back as the text of the number INCR answered |
| RedisCore.TruthyTtl | src/infra/database/redis/redis-core.ts:62 | only a present, non-zero TTL is passed on as EX |
| RedisCore.DbError | src/infra/database/redis/redis-core.ts:70-74 | a well-formed DatabaseError whose message is the operation's prefix followed by the client's message |
| RedisCore.SetReply | src/infra/database/redis/redis-core.ts:56-75 | a client failure or a refused EX becomes "Redis write failed: ..." and changes nothing; an absent or zero TTL stores without expiry, a positive one with it, answering "OK" |
| RedisCore.DeleteReply | src/infra/database/redis/redis-core.ts:95-103 | a client failure or an empty key list becomes "Redis delete failed: ..." and changes nothing; otherwise the keys are removed and the live ones counted |
| RedisCore.ExpireReply | src/infra/database/redis/redis-core.ts:146-157 | a client failure becomes "Redis expire failed: ..." and changes nothing; otherwise the answer is whether the key was live, with EXPIRE's effect |
| RedisCore.RetryStrategy | src/infra/database/redis/redis-core.ts:17-22 | attempts one to three wait 100 ms per attempt; any later attempt gives up with a ServiceUnavailableError, status 503, "Redis retry limit exceeded" |
| RedisCore.RetryDelaysIncrease | src/infra/database/redis/redis-core.ts:17-22 | the delays grow with the attempt number |
| RedisCore.Store.constructor | src/infra/database/redis/redis-core.ts:10-32 | a client over the given entries that works, commits its transactions, and has not been shut down |
| RedisCore.Store.Set | src/infra/database/redis/redis-core.ts:56-75 | the answer and the new entries are those of SetReply |
| RedisCore.Store.Get | src/infra/database/redis/redis-core.ts:81-89 | a client failure becomes "Redis read failed: ..."; otherwise the live value or null |
| RedisCore.Store.DeleteKeys | src/infra/database/redis/redis-core.ts:95-103 | the answer and the new entries are those of DeleteReply for the listed keys |
| RedisCore.Store.Delete | src/infra/database/redis/redis-core.ts:95-103 | corrected `delete` of one key: on a working client it answers 1 exactly when the key was live and leaves it absent |
| RedisCore.Store.DeleteAsWritten | src/infra/database/redis/redis-core.ts:95-103 | `delete` of one string as written deletes the string's characters as keys |
| RedisCore.Store.Exists | src/infra/database/redis/redis-core.ts:109-117 | a client failure becomes "Redis exists check failed: ..."; otherwise true exactly when the key is live |
| RedisCore.Store.Expire | src/infra/database/redis/redis-core.ts:146-157 | the answer and the new entries are those of ExpireReply |
| RedisCore.Store.GetTTL | src/infra/database/redis/redis-core.ts:170-178 | the client's rejection escapes as it is, not as a DatabaseError, because the promise is returned without being awaited; otherwise TTL's answer |
| RedisCore.Store.GetKeys | src/infra/database/redis/redis-core.ts:184-193 | a client failure becomes "Redis keys failed: ..."; otherwise the live keys with the prefix |
| RedisCore.Store.IncrExpire | src/infra/database/redis/redis-core.ts:162-164 | a client failure rejects the transaction as it is; a discarded transaction answers null and changes nothing; otherwise the transaction's replies and state |
| RedisCore.Store.Shutdown | src/infra/database/redis/redis-core.ts:37-47 | the first call quits the client, after which every command fails with "Connection is closed."; later calls change nothing |
| RedisCore.ShutdownIdempotent | src/infra/database/redis/redis-core.ts:37-47 | shutting down twice leaves the same client state as shutting down once, and never touches the entries |
| AuthCache.CategoryText | src/infra/cache/auth.cache.ts:5 | the category's text is "brute-force-protection" or "verification" |
| AuthCache.SessionPrefix | src/infra/cache/auth.cache.ts:71 | the pattern `auth:session:<id>:` without its `*`: it starts with "auth:session:", holds the identifier and ends with ":" |
| AuthCache.SessionKey | src/infra/cache/auth.cache.ts:24 | the session key is the identifier's session prefix followed by the fingerprint |
| AuthCache.AuthValueKey | src/infra/cache/auth.cache.ts:93 | the key is "auth:", the category text, ":" and the identifier, in that order |
| AuthCache.ColonSplit | src/infra/cache/auth.cache.ts:24 | two texts joined by ":" after colon-free heads split back into the same heads and tails |
| AuthCache.SessionKeyInjective | src/infra/cache/auth.cache.ts:24 | for colon-free identifiers, one session key belongs to one identifier and one fingerprint |
| AuthCache.SessionPrefixOwnsOnly | src/infra/cache/auth.cache.ts:71 | the pattern `auth:session:<id>:*` matches another identifier's session key exactly when the identifiers are equal |
| AuthCache.AuthValueKeyInjective | src/infra/cache/auth.cache.ts:93 | one auth-value key belongs to one category and one identifier |
| AuthCache.SessionAndAuthValueKeysDisjoint | src/infra/cache/auth.cache.ts:24-93 | no session key is an auth-value key |
| AuthCache.AuthValuesSurviveLogoutAll | src/infra/cache/auth.cache.ts:71-93 | the `logoutAllSessions` pattern never matches an auth-value key |
| AuthCache.Done | src/infra/cache/auth.cache.ts:22-31 | a void result fails exactly when the underlying call did, with its error |
| AuthCache.CacheReply | src/infra/cache/auth.cache.ts:17-31 | a failure leaves the cache as it was; success needs a working store and a readable jti; no key other than the session key changes |
| AuthCache.SessionValidReply | src/infra/cache/auth.cache.ts:40-49 | a jti failure comes first, then a read failure; when both succeed the answer is a success, true exactly when the token has a string jti and the session key holds it |
| AuthCache.CacheLoginSession | src/infra/cache/auth.cache.ts:17-31 | the answer and the new entries are those of CacheReply for the token's jti |
| AuthCache.CacheReplyCases | src/infra/cache/auth.cache.ts:17-31 | an unreadable jti fails with the token error and writes nothing; a store failure fails with "Redis write failed: ..." and writes nothing; otherwise the jti (the empty text for none) is kept under the session key until the TTL runs out |
| AuthCache.IsLoginSessionValid | src/infra/cache/auth.cache.ts:40-49 | the answer is a jti failure, then a read failure, then whether the session holds the token's jti |
| AuthCache.LogoutSession | src/infra/cache/auth.cache.ts:57-64 | the one session key is deleted, and the answer is a failure only when the delete failed |
| AuthCache.SessionsOf | src/infra/cache/auth.cache.ts:71-72 | exactly the live keys of the identifier's session pattern |
| AuthCache.LogoutAllSessions | src/infra/cache/auth.cache.ts:70-77 | a key listing failure fails with "Redis keys failed: ..." and changes nothing; otherwise exactly the identifier's live sessions are deleted |
| AuthCache.LogoutAllLeavesNoSession | src/infra/cache/auth.cache.ts:70-77 | afterwards the identifier has no session for any fingerprint, while another identifier's session reads as before |
| AuthCache.CacheAuthValue | src/infra/cache/auth.cache.ts:87-99 | the value is written under `auth:<category>:<id>` with the TTL, as SetReply says |
| AuthCache.IsAuthValueCached | src/infra/cache/auth.cache.ts:108-115 | a read failure fails; otherwise true exactly when the live value under the category's key is the given one |
| AuthCache.GetCachedAuthValue | src/infra/cache/auth.cache.ts:123-129 | a read failure fails; otherwise the live value under the category's key, or null |
| AuthCache.InvalidateCachedAuthValue | src/infra/cache/auth.cache.ts:137-143 | the category's key is deleted, as DeleteReply says |
| AuthCache.CachedSessionIsValid | src/infra/cache/auth.cache.ts:17-49 | a session cached with a positive TTL is valid for that jti until it expires, and for no other jti |
| AuthCache.NoJtiNeverValid | src/infra/cache/auth.cache.ts:45-48 | a token without a jti never matches a stored session |
| AuthCache.LogoutInvalidates | src/infra/cache/auth.cache.ts:57-64 | after logout the session is not valid for any jti, and every other key reads as before |
| AuthCache.SessionIsPerFingerprint | src/infra/cache/auth.cache.ts:17-49 | caching a session for one fingerprint leaves another fingerprint's session of the same identifier, and its validity check, as they were |
| BaseRepository.Matching | src/infra/database/postgres/repositories/base.repository.ts:78-86 | the rows a query returns are exactly the table's rows that the filter accepts and that are visible (soft-deleted ones only with `withDeleted`) |
| BaseRepository.SoftDeleted | src/infra/database/postgres/repositories/base.repository.ts:14-16 | a row whose `deletedAt` holds a time is soft-deleted; one without the column or with null is not |
| BaseRepository.Visible | src/infra/database/postgres/repositories/base.repository.ts:50 | with `withDeleted` every row is visible; without it, a row with a deletion time is hidden and a row without one is shown |
| BaseRepository.Selected | src/infra/database/postgres/repositories/base.repository.ts:46-51 | a selected row passes the filter and, without `withDeleted`, is not soft-deleted; a row passing the filter with no deletion time is always selected |
| BaseRepository.FirstIndex | src/infra/database/postgres/repositories/base.repository.ts:46-51 | the position of a selected row with no selected row before it, or none exactly when no row is selected |
| BaseRepository.FirstIndexIsFirstMatch | src/infra/database/postgres/repositories/base.repository.ts:46-51 | the first row of `find` is the row `findOne` picks, and `findOne` finds nothing exactly when `find` is empty |
| BaseRepository.Page | src/infra/database/postgres/repositories/base.repository.ts:82-83 | an absent or zero `offset` and `limit` leave the rows unchanged; otherwise the window that starts at `offset`: its rows are those from `offset` on, and its length is a non-zero `limit` when fewer rows follow the offset than that, else all the rows that follow; empty past the end |
| BaseRepository.Unmatched | src/infra/database/postgres/repositories/base.repository.ts:188 | the rows a delete keeps are exactly those the filter rejects; kept and deleted add up to the table |
| BaseRepository.Overwrite | src/infra/database/postgres/repositories/base.repository.ts:167-172 | the entity keeps its columns; each one the data also has takes the data's value, the others keep theirs |
| BaseRepository.UpdatedRows | src/infra/database/postgres/repositories/base.repository.ts:160-174 | the first selected row overwritten with the data, every other row unchanged; no change when nothing is selected |
| BaseRepository.Created | src/infra/database/postgres/repositories/base.repository.ts:140-141 | the saved row holds every column of the data, and the database's own values only in the columns the data leaves out |
| BaseRepository.StampFor | src/infra/database/postgres/repositories/base.repository.ts:270-272 | a soft delete writes a time and a restore writes null |
| BaseRepository.Stamped | src/infra/database/postgres/repositories/base.repository.ts:297-300 | every selected row gets the same `deletedAt`, every other row is unchanged |
| BaseRepository.NoSoftDeletion | src/infra/database/postgres/repositories/base.repository.ts:276-278 | the error for an entity without `deletedAt` names the table |
| BaseRepository.Repository.constructor | src/infra/database/postgres/repositories/base.repository.ts:18 | a repository of the given table and rows |
| BaseRepository.Repository.FindOne | src/infra/database/postgres/repositories/base.repository.ts:37-52 | null exactly when no visible row matches; otherwise the first visible matching row, never soft-deleted unless `withDeleted` is true |
| BaseRepository.Repository.FindMany | src/infra/database/postgres/repositories/base.repository.ts:66-87 | only visible matching rows, and exactly the `offset`/`limit` window of all visible matching rows in table order: from the first when no `offset` is given, at most a non-zero `limit` of them, all of them when `limit` and `offset` are absent or zero |
| BaseRepository.Repository.FindManyWithCount | src/infra/database/postgres/repositories/base.repository.ts:101-127 | the page `findMany` answers (a zero `limit` included), and the number of all visible matching rows, which neither the page nor the table length is below or above |
| BaseRepository.Repository.CreateRecord | src/infra/database/postgres/repositories/base.repository.ts:135-142 | the created row is appended to the table and returned |
| BaseRepository.Repository.UpdateRecord | src/infra/database/postgres/repositories/base.repository.ts:152-175 | null and no change when nothing matches; otherwise the first match is overwritten in place and returned |
| BaseRepository.Repository.HardDeleteRecords | src/infra/database/postgres/repositories/base.repository.ts:198-205 | every matching row, soft-deleted or not, is removed, and the answer counts them |
| BaseRepository.Repository.HardDeleteRecord | src/infra/database/postgres/repositories/base.repository.ts:183-190 | the same removal, answering true exactly when some row matched |
| BaseRepository.Repository.ToggleSoftDelete | src/infra/database/postgres/repositories/base.repository.ts:259-279 | a soft delete looks only at live rows, a restore at all; no match is null; a match without `deletedAt` throws "does not support soft deletion"; otherwise only that row gets the new `deletedAt` and is returned |
| BaseRepository.Repository.SoftDeleteRecord | src/infra/database/postgres/repositories/base.repository.ts:213-218 | the returned row is stamped with now and stored; no live match is null and no change |
| BaseRepository.Repository.RestoreRecord | src/infra/database/postgres/repositories/base.repository.ts:239-244 | the returned row has `deletedAt` null and is stored; no match is null and no change |
| BaseRepository.Repository.SoftDeleteRecords | src/infra/database/postgres/repositories/base.repository.ts:226-231 | no live match is the empty list and no change; every returned row is stamped with now |
| BaseRepository.Repository.RestoreRecords | src/infra/database/postgres/repositories/base.repository.ts:252-257 | no match is the empty list and no change; every returned row has `deletedAt` null |
| BaseRepository.Repository.ToggleManySoftDelete | src/infra/database/postgres/repositories/base.repository.ts:281-303 | no match is the empty list; a first match without `deletedAt` throws; otherwise every selected row gets the same `deletedAt` and the saved rows come back in order |
| BaseRepository.SoftDeleteRestoreRoundTrip | src/infra/database/postgres/repositories/base.repository.ts:259-279 | a soft-deleted row is hidden from live queries, and restoring it gives back the row as it was |
| BaseRepository.SecondSoftDeleteFindsNothing | src/infra/database/postgres/repositories/base.repository.ts:266-267 | once the only live match is soft-deleted, a second soft delete finds nothing |
| BaseRepository.FindOneHidesSoftDeleted | src/infra/database/postgres/repositories/base.repository.ts:46-51 | a soft-deleted row is invisible to `findOne` without `withDeleted` and found with it |
| BruteForceProtection.Pow2 | src/infra/security/brute-force-protection.security.ts:43 | `2 ** k` is greater than `k` |
| BruteForceProtection.FailKey | src/infra/security/brute-force-protection.security.ts:178-180 | the key is "bfp:", the identifier and ":fails" |
| BruteForceProtection.CooldownKey | src/infra/security/brute-force-protection.security.ts:182-184 | the key is "bfp:", the identifier and ":cooldown" |
| BruteForceProtection.DisabledKey | src/infra/security/brute-force-protection.security.ts:186-188 | the key is "bfp:", the identifier and ":disabled" |
| BruteForceProtection.WaitMessage | src/infra/security/brute-force-protection.security.ts:34-36 | the cooldown message starts with "Too many attempts. Please wait for ", ends with " seconds before retrying.", and `parseInt` of what follows the lead gives the seconds back |
| BruteForceProtection.CalculateCooldown | src/infra/security/brute-force-protection.security.ts:40-45 | one or more failures give a whole cooldown between 30 s and 30·2⁵ s; no failure gives 15 s; a negative count gives a fraction of a second |
| BruteForceProtection.Pow2Monotone | src/infra/security/brute-force-protection.security.ts:43 | a larger exponent gives a power of two no smaller |
| BruteForceProtection.CooldownTable | src/infra/security/brute-force-protection.security.ts:41-44 | the cooldowns for one to six failures are 30, 60, 120, 240, 480 and 960 s, and 960 s from six on |
| BruteForceProtection.CooldownMonotone | src/infra/security/brute-force-protection.security.ts:40-45 | more failures never shorten the cooldown |
| BruteForceProtection.FailWindowOutlastsCooldowns | src/infra/security/brute-force-protection.security.ts:13 | the failure window is 1260 s and lasts at least five minutes longer than any cooldown |
| BruteForceProtection.BfpKeysDistinct | src/infra/security/brute-force-protection.security.ts:178-188 | the counter, cooldown and disabled keys of one subject differ from each other, and the disabled key is neither a session key nor an auth value key |
| BruteForceProtection.CheckState | src/infra/security/brute-force-protection.security.ts:148-176 | disabled and cooling down exactly when those keys hold a non-empty live value; a cooldown time exactly when the cooldown's TTL is positive, and then that TTL |
| BruteForceProtection.Admission | src/infra/security/brute-force-protection.security.ts:23-38 | refused exactly when disabled or cooling down, always as an UnauthorizedError with status 401; disabled gives the disabled message, otherwise the wait message with the TTL, or with 30 when there is none |
| BruteForceProtection.AsThrown | src/infra/security/brute-force-protection.security.ts:23-38 | a thrown error exactly when the decision refused, carrying that error |
| BruteForceProtection.StateFrom | src/infra/security/brute-force-protection.security.ts:164-175 | a TTL rejection escapes as it is; otherwise the two flags from truthiness and the cooldown time only when the TTL is positive |
| BruteForceProtection.ReadState | src/infra/security/brute-force-protection.security.ts:148-176 | a client failure becomes "Redis read failed: ..."; otherwise the state CheckState gives |
| BruteForceProtection.EnsureAllowed | src/infra/security/brute-force-protection.security.ts:23-38 | a client failure becomes "Redis read failed: ..."; otherwise Admission's decision on the current state |
| BruteForceProtection.DisableOutcome | src/infra/security/brute-force-protection.security.ts:123-137 | the user row is marked inactive; a store failure fails and leaves the store; otherwise the brute-force auth value, every session, the counter and the cooldown are removed |
| BruteForceProtection.DisableRemoved | src/infra/security/brute-force-protection.security.ts:129-136 | disabling removes the brute-force auth value, the counter, the cooldown and every live session of the id, and never a disabled marker of any id |
| BruteForceProtection.SessionsSurviveAuthValueRemoval | src/infra/security/brute-force-protection.security.ts:129-133 | removing the brute-force auth value leaves the same sessions for `logoutAllSessions` |
| BruteForceProtection.DisableAccount | src/infra/security/brute-force-protection.security.ts:123-137 | the answer, the new entries and the new user table are those of DisableOutcome |
| BruteForceProtection.RemovedTwice | src/infra/security/brute-force-protection.security.ts:99-101 | deleting one set of keys and then another leaves what deleting their union does |
| BruteForceProtection.FailureCount | src/infra/security/brute-force-protection.security.ts:69-70 | the count is INCR's reply, or 0 when INCR failed inside the transaction |
| BruteForceProtection.RecordOutcome | src/infra/security/brute-force-protection.security.ts:51-93 | the call returns normally exactly when the new count is between 0 and 5; below 6 the user table is unchanged; at 6 or more it fails with the locked error |
| BruteForceProtection.LockedError | src/infra/security/brute-force-protection.security.ts:89-91 | an UnauthorizedError with the lock message |
| BruteForceProtection.RecordFailure | src/infra/security/brute-force-protection.security.ts:51-93 | a client failure rejects as it is and changes nothing; a discarded transaction fails with "Transaction to record auth failure in redis failed" and changes nothing; otherwise the answer and new state are those of RecordOutcome |
| BruteForceProtection.ClearFailures | src/infra/security/brute-force-protection.security.ts:99-102 | a store failure fails and changes nothing; otherwise exactly the counter and the cooldown are removed |
| BruteForceProtection.EnableAccount | src/infra/security/brute-force-protection.security.ts:108-117 | a store failure fails before the user table is touched; otherwise the three keys are removed and the user row is marked active |
| BruteForceProtection.RemovedOneByOne | src/infra/security/brute-force-protection.security.ts:109-111 | deleting three keys one after another leaves what deleting all three at once does |
| BruteForceProtection.ClearKeepsDisabled | src/infra/security/brute-force-protection.security.ts:99-102 | clearing failures never changes whether the account is disabled |
| BruteForceProtection.EnabledIsAdmitted | src/infra/security/brute-force-protection.security.ts:108-111 | after the three keys are removed the next attempt is admitted |
| BruteForceProtection.DisableLeavesMarker | src/infra/security/brute-force-protection.security.ts:123-137 | `disableAccount` leaves the disabled marker as it was |
| BruteForceProtection.CountIsIncrement | src/infra/security/brute-force-protection.security.ts:58-70 | the count read back is 1 for no counter, one more than a stored counter, and 0 when INCR refused |
| BruteForceProtection.BelowThresholdCoolsDown | src/infra/security/brute-force-protection.security.ts:51-78 | below six failures the call succeeds, the counter holds the new count for the full window, the cooldown key holds "1" for its cooldown, the disabled marker and the user table are untouched |
| BruteForceProtection.CooledDown | src/infra/security/brute-force-protection.security.ts:71-77 | the cooldown key holds "1" and expires after the cooldown for the failure count; every other key is as it was |
| BruteForceProtection.RecordOutcomeBelow | src/infra/security/brute-force-protection.security.ts:51-78 | below six failures the call succeeds, leaves the user table, and only counts the failure and starts the cooldown |
| BruteForceProtection.ThresholdLocks | src/infra/security/brute-force-protection.security.ts:51-92 | from six failures the call fails with the lock message, the marker holds the clock reading with no expiry, counter, cooldown and sessions are gone, the user is inactive, and every later check refuses as disabled |
| BruteForceProtection.LockedStore | src/infra/security/brute-force-protection.security.ts:80-84 | once the marker is written, `disableAccount` leaves it, clears the counter, the cooldown and the sessions, and later checks refuse as disabled |
| AuthMiddleware.StripBearer | src/adapters/http/middlewares/authentication.middleware.ts:33 | the result is a suffix of the header; it differs from the header only when the header starts with "bearer" in any case followed by white space, and then exactly that scheme and all the white space after it are gone |
| AuthMiddleware.ExtractAuthorizationToken | src/adapters/http/middlewares/authentication.middleware.ts:26-34 | an absent or empty header gives no token; any other gives the header without its scheme |
| AuthMiddleware.TrimSpaces | src/adapters/http/middlewares/authentication.middleware.ts:33 | removing leading white space leaves exactly the text after it |
| AuthMiddleware.BearerRoundTrip | src/adapters/http/middlewares/authentication.middleware.ts:26-34 | "Bearer" in any letter case, white space and a token give back exactly the token |
| AuthMiddleware.LoginPayload | src/adapters/http/middlewares/authentication.middleware.ts:92-95 | the payload carries the id (none when undefined) and the LOGIN category, and nothing else |
| AuthMiddleware.UserAgentOrUnknown | src/adapters/http/middlewares/authentication.middleware.ts:64 | the user-agent when it is present and non-empty, otherwise "unknown" |
| AuthMiddleware.IsLoginToken | src/adapters/http/middlewares/authentication.middleware.ts:51-53 | a login token carries a string category that reads back as LOGIN; a SIGNUP token is never one |
| AuthMiddleware.IdClaim | src/adapters/http/middlewares/authentication.middleware.ts:51 | the id is undefined exactly when the claim is absent, and otherwise the claim's value |
| AuthMiddleware.Fingerprint | src/adapters/http/middlewares/authentication.middleware.ts:64-65 | a 16-character fingerprint; a missing or empty user-agent is fingerprinted as "unknown", any other as itself |
| AuthMiddleware.AfterCache | src/adapters/http/middlewares/authentication.middleware.ts:98-106 | `next()` with the same id exactly when caching the session succeeded; a caching error goes to the catch |
| AuthMiddleware.IdText | src/infra/cache/auth.cache.ts:24 | the id as the template literal writes it: its text, a number's decimal text, or "undefined" |
| AuthMiddleware.ActiveUser | src/adapters/http/middlewares/authentication.middleware.ts:77-79 | the filter `{ id, isActive: true, deletedAt: IsNull() }`; an undefined id adds no condition |
| AuthMiddleware.Caught | src/adapters/http/middlewares/authentication.middleware.ts:107-126 | a JwtTokenError answers with its own status, type and exposed message; any other AppError with 500 and the default internal text |
| AuthMiddleware.CaughtThrown | src/adapters/http/middlewares/authentication.middleware.ts:107-126 | any thrown value that is not an AppError answers with 500 and the default internal text |
| AuthMiddleware.Gate | src/adapters/http/middlewares/authentication.middleware.ts:14-90 | the decision before any write: nothing when headers were sent, otherwise the token stages in order |
| AuthMiddleware.GateToken | src/adapters/http/middlewares/authentication.middleware.ts:36-49 | an absent or empty token is refused with "Authorization Token Required"; any other is verified |
| AuthMiddleware.GateClaims | src/adapters/http/middlewares/authentication.middleware.ts:49-70 | a verification error goes to the catch; a token that is not a login token is refused with "Unauthorized - Invalid token"; a login token goes on to the session check |
| AuthMiddleware.GateSession | src/adapters/http/middlewares/authentication.middleware.ts:67-75 | a session error goes to the catch; a valid session admits with the token's id; a miss goes on to the user lookup |
| AuthMiddleware.GateUser | src/adapters/http/middlewares/authentication.middleware.ts:77-90 | with no active, undeleted user of that id the request is refused with "Unauthorized - Request for access code"; otherwise the session is refreshed |
| AuthMiddleware.Settle | src/adapters/http/middlewares/authentication.middleware.ts:92-106 | a final decision leaves the cache as it was; a refresh signs the seven-day login token with the given jti and writes its session |
| AuthMiddleware.Refresh | src/adapters/http/middlewares/authentication.middleware.ts:92-106 | `next()` only with the same id, a signed token and a working store, and then the session key holds a value; any failure is an error response that leaves the cache unchanged |
| AuthMiddleware.UserAuthentication | src/adapters/http/middlewares/authentication.middleware.ts:14-128 | the response and the new cache are those Settle gives for Gate's decision: nothing when headers were sent, an error response, `next()`, or a refresh |
| AuthMiddleware.AuthorizeToken | src/adapters/http/middlewares/authentication.middleware.ts:36-106 | an absent or empty token is a 401 "Authorization Token Required"; any other settles as the verification decides |
| AuthMiddleware.AuthorizeClaims | src/adapters/http/middlewares/authentication.middleware.ts:49-106 | a verification error answers with the error's own status; a token that is not a login token is a 401 "Unauthorized - Invalid token"; a login token goes on to the session check |
| AuthMiddleware.CheckSession | src/adapters/http/middlewares/authentication.middleware.ts:64-106 | the session check reads the key of the token's id and the device fingerprint, and settles on its answer |
| AuthMiddleware.AuthenticateLogin | src/adapters/http/middlewares/authentication.middleware.ts:67-106 | a failed check is an error response, a valid session is `next()` with the id and changes nothing, otherwise the user is looked up |
| AuthMiddleware.RefreshActiveUser | src/adapters/http/middlewares/authentication.middleware.ts:77-106 | no active, not deleted user with the id is a 401 "Unauthorized - Request for access code"; otherwise the session is refreshed |
| AuthMiddleware.RefreshSession | src/adapters/http/middlewares/authentication.middleware.ts:92-106 | the seven-day login token for the id is signed with the request's clock reading and cached for the device, as Refresh says |
| AuthMiddleware.SessionStageResponses | src/adapters/http/middlewares/authentication.middleware.ts:67-90 | every error response from the session check on is a 401 UNAUTHORIZED or a 500 INTERNAL_SERVER_ERROR |
| AuthMiddleware.ResponsesAreUnauthorizedOrInternal | src/adapters/http/middlewares/authentication.middleware.ts:38-127 | every error response the middleware gives before the refresh is a 401 UNAUTHORIZED or a 500 INTERNAL_SERVER_ERROR |
| AuthMiddleware.AdmittedOnlyWithLoginToken | src/adapters/http/middlewares/authentication.middleware.ts:36-105 | a request gets through only when the headers were not sent and the token verifies as a login token, and then either the device session holds the token's jti or an active, not deleted user with that id exists |
| AuthMiddleware.SignupTokenRefused | src/adapters/http/middlewares/authentication.middleware.ts:53-62 | a valid sign-up token is refused with 401 "Unauthorized - Invalid token" before the store is read |
| AuthMiddleware.RefreshCachesJti | src/adapters/http/middlewares/authentication.middleware.ts:92-106 | after a refresh the device session holds the new token's jti until that token expires |
| AuthMiddleware.LoginClaims | src/adapters/http/middlewares/authentication.middleware.ts:92-95 | a refreshed token's claims are a login token's with the same id |
| AuthMiddleware.SessionHitAdmits | src/adapters/http/middlewares/authentication.middleware.ts:67-75 | a verified login token whose jti the device session holds goes straight to `next()` with its id |
| AuthMiddleware.RefreshedTokenVerifies | src/adapters/http/middlewares/authentication.middleware.ts:92-95 | until it expires the refreshed token verifies as a login token with the same id and yields its jti |
| AuthMiddleware.RefreshedTokenAdmitsSameDevice | src/adapters/http/middlewares/authentication.middleware.ts:36-106 | the refreshed token, sent back as a bearer token from the same device before it expires, is admitted by the session check without another refresh |
| AuthMiddleware.StaleTokenRefreshesAgain | src/adapters/http/middlewares/authentication.middleware.ts:92-106 | the refreshed token is never returned, so when its jti differs from the old one the old token misses the session on its next request and is refreshed again |
| AuthMiddleware.GateAsWritten | src/adapters/http/middlewares/authentication.middleware.ts:49-70 | the decision as the code is written: the session check throws a TypeError, which the catch answers with 500 |
| AuthMiddleware.StaticJtiCallAnswers500 | src/adapters/http/middlewares/authentication.middleware.ts:49-126 | as written no request is admitted or refreshed: every request that the corrected decision admits or refreshes gets a 500 |
| AuthService.NewUserData | src/core/services/auth.service.ts:28-31 | the new row's data is exactly the username and the password hash |
| AuthService.Conflict | src/core/services/auth.service.ts:22 | a well-formed ResourceConflictError "Username already exists" |
| AuthService.SignUpSession | src/core/services/auth.service.ts:34-55 | a token is returned only when it was signed and its session was cached under the fingerprint on a working store; a signing error becomes the mapped token error; every failure leaves the cache unchanged |
| AuthService.SignUp | src/core/services/auth.service.ts:12-60 | a username found even among soft-deleted rows is a conflict that changes nothing; otherwise one row with the username and the hash is appended, and the answer and cache are those of SignUpSession for the seven-day login token |
| AuthService.IssueSession | src/core/services/auth.service.ts:34-55 | signs the seven-day login token of the new id and caches its session, as SignUpSession says |
| AuthService.SignUpToken | src/core/services/auth.service.ts:34-38 | the token is signed with the secret, carries the given jti, is a LOGIN token with the new id, issued now and expiring seven days later |
| AuthService.Returned | src/core/services/auth.service.ts:42-55 | the token is returned exactly when caching its session succeeded; a caching error is passed on unchanged |
| AuthService.CreatedUserRow | src/core/services/auth.service.ts:27-32 | the created row holds the username, the hash and the generated id, and a later lookup by username finds it |
| AuthService.TtlsAgree | src/core/services/auth.service.ts:34 | the token and session lifetime is 604800 s, the same as the middleware's |
| AuthService.ReturnedTokenIsCached | src/core/services/auth.service.ts:34-55 | on a working store the returned token's jti sits under the new id's session key until the token expires |
| AuthService.FingerprintMaterialsDiffer | src/core/services/auth.service.ts:40 | the sign-up fingerprint hashes text with "\|" separators; the middleware's hashes text without them when the device fields have none; so the two never hash the same text |
| AuthService.SignUpSessionMissedByMiddleware | src/core/services/auth.service.ts:40-47 | when the two digests differ, sign-up leaves the middleware's session key for that user-agent as it was |
| AuthService.SignUpSessionAsWritten | src/core/services/auth.service.ts:42-47 | the session step as written: a signing error, or else the TypeError of the jti call, with the cache unchanged |
| AuthService.StaticJtiCallFailsSignUp | src/core/services/auth.service.ts:27-55 | as written a signed sign-up ends in a TypeError that the error handler answers with 500 and caches nothing, after the row was created; the corrected step returns the token |

## Left out

- redis-core.ts `lrange` (src/infra/database/redis/redis-core.ts:126-138): no modelled code calls it, so it is not modelled.
- `multi()` (src/infra/database/redis/redis-core.ts:162-164) hands out the raw client. Only the one transaction any caller builds, INCR then EXPIRE, is modelled, as `Store.IncrExpire`, and it is treated as one atomic step.
- RedisCore.RetryStrategy: only the delay rule is modelled. The ioredis connection, reconnection and event handlers are not.
- RedisCore.Store.Shutdown: the error a failing `quit()` raises is caught and only logged, so it is not modelled. A client that already fails keeps its own failure message.
- `checkState` also computes `remainingAttempts`, which no caller reads, so it is not modelled.
- The two-factor wrapper, `redis-core.service.ts`, controllers, routes, bootstrap, the ORM configuration, migrations and entities are not part of this model.
- `deepFreeze` (src/config/index.ts:11-34) only freezes the configuration object, so it is not modelled.
- `error-type.enum.ts` is not part of this model. Its values are the `ErrorType` constructors of `HttpStatus`.
- Logging is not modelled, except for the log level `handleError` chooses and the log object `toLogObject` builds.
- Repository calls never fail in the model: every TypeORM query and save succeeds. A rejected query would take the error path that is modelled elsewhere. In the middleware's user lookup (src/adapters/http/middlewares/authentication.middleware.ts:77-79), the catch would answer 500, as `AuthMiddleware.CaughtThrown` states for any value that is not an AppError. In `signUp`, the rejection would reach `handleError`, and `ErrorHandler.NormalizeError` would turn the query failure into a DatabaseError.
- A `limit` or `offset` of 0 is treated as absent, because the query builder applies `take` and `skip` only when they are truthy. That library behaviour is not part of this model's sources.
- Database constraints are not modelled: the `users.email` NOT NULL column, citext comparison and UUID column types. A created row holds the data plus the defaults given as a parameter.
- TypeORM `where` is an abstract predicate, and rows are returned in table order. Ordering (`order`) and relations and `select` projections are not modelled.
- `getKeys` takes a glob, and it is modelled as a prefix. The one pattern any caller builds is `auth:session:${identifier}:*`. It is a literal prefix followed by `*` only when the identifier holds no glob character (`*`, `?`, `[` or `\`). The model assumes identifiers never do, as with the UUIDs the users table issues.
- `Strings.ToLower` folds ASCII letters only. That matches the `/i` flag of the bearer pattern. `toLowerCase` in `mapJwtError` also folds other letters, including the Kelvin sign, which it turns into `k`, and the model does not.
- bcrypt, SHA-256, UAParser and HMAC-SHA256 signing are parameters, not computed. JWT encoding (RFC 7519) is represented by an abstract codec.
- Uniqueness of `crypto.randomUUID()` values is not modelled. The UUID is a parameter for each issuance.
- Concurrency and interleaving of requests are not modelled. `Promise.all` in `checkState` is three reads.
- One clock reading serves a whole request. The model does not capture the clock advancing between awaits.
- JavaScript numbers are unbounded integers here. Fractional TTLs appear only where the code can produce one, as the `Fraction` case of `Seconds`.
- Claim values (the `Json` type of `JwtSecurity`) are strings or integers only. Booleans, null, objects, arrays and fractional numbers are not represented, so a payload carrying them is not modelled.
- A token whose jti claim is missing or not a string is modelled as storing the empty text under its session key. How ioredis serialises such a value is not modelled.
- HttpStatus.DefaultMessage: its contract only states that every message is non-empty. The texts themselves are its body.

## Findings

| source | as written | input that shows it | evidently intended | confidence | as-written member | corrected member |
|---|---|---|---|---|---|---|
| src/infra/database/redis/redis-core.ts:97 | `delete(key: string \| string[])` passes `...key` to DEL, and spreading a string gives its characters | `delete("bfp:u:fails")` sends DEL with the keys `b`, `f`, `p`, `:` and so on; the key itself stays. This affects `clearFailures`, `enableAccount`, `disableAccount`, `logoutSession` and `invalidateCachedAuthValue` | delete the one key given | not executed | RedisCore.Store.DeleteAsWritten, with RedisCore.SpreadDeleteKeepsKey | RedisCore.Store.Delete, with RedisCore.DeleteKeyRemoves |
| src/infra/cache/auth.cache.ts:23,45 | `getTokenJTI` is declared `static` (src/infra/security/jwt.security.ts:71), but `cacheLoginSession` and `isLoginSessionValid` call it on the instance `jwtSecurity`, where it is `undefined`, so the call throws a TypeError | any request with a valid login token: the session check throws, and the middleware's catch answers 500 instead of admitting or refreshing; a sign-up whose token is signed throws after the user row was created | call the static method, `JwtSecurity.getTokenJTI(token)` | not executed; a type-checked build rejects the call, so this is what a build without type checking does | AuthMiddleware.GateAsWritten, with AuthMiddleware.StaticJtiCallAnswers500; AuthService.SignUpSessionAsWritten, with AuthService.StaticJtiCallFailsSignUp | JwtSecurity.GetTokenJTI, used by AuthCache.CacheLoginSession and AuthCache.IsLoginSessionValid, with AuthMiddleware.SessionHitAdmits and AuthMiddleware.RefreshedTokenAdmitsSameDevice |

The rest of the model uses the corrected `Delete` and reads the jti with `JwtSecurity.GetTokenJTI`.

## Observations

These are behaviours of the code as written that the model keeps as they are. Where a lemma shows one, it is named.

- Sign-up caches the new session under the client-heuristic fingerprint (src/core/services/auth.service.ts:40). The middleware reads sessions under the device fingerprint (src/adapters/http/middlewares/authentication.middleware.ts:65). `AuthService.FingerprintMaterialsDiffer` proves that the two fingerprints hash different texts. SHA-256 is a parameter of the model, so `AuthService.SignUpSessionMissedByMiddleware` takes as a hypothesis that the two digests differ (no collision). Under that hypothesis, it shows that the session sign-up writes is not the one the middleware reads. The first request after sign-up therefore goes through the user lookup and a refresh.
- On a cache miss the middleware issues and caches a new token (src/adapters/http/middlewares/authentication.middleware.ts:92-103), but it never sends that token to the client. The client keeps presenting the old token. `AuthMiddleware.StaleTokenRefreshesAgain` shows that, when the new jti differs from the old one, the old token misses the session on its next request and is refreshed again. The model does not assume that jti values differ; that lemma takes it as a hypothesis.
- `getTokenJTI` verifies without the 30-second clock tolerance that `verifyAndDecodeToken` allows. `JwtSecurity.ToleranceWindowMismatch` shows a token that verifies while reading its jti fails with the library's "jwt expired" message.
- A start time later than the clock gives a negative uptime. JavaScript's truncating `%` then makes every part of it negative (`HealthCheck.NegativeUptime`).
- `signUp`'s final `InternalServerError` (src/core/services/auth.service.ts:57-59) cannot be reached, because `createRecord` always returns a row. The model has no such branch.
