/**
 * The application's error hierarchy, collapsed into one record: the class an
 * error was built as, its error type and status, its message, name and stack
 * trace; the rules that choose the message at construction, decide whether an
 * error is reported, and choose what is exposed to clients; and the mapping of
 * whatever the token library (or anything else) throws to a JwtTokenError.
 *
 * `Thrown` stands for the JavaScript values that reach a `catch` clause.
 */
module AppErrors {
  import opened Wrappers
  import opened Strings
  import HttpStatus

  /** A stack trace: absent, an explicit text, or the one the runtime captures at construction. */
  datatype Stack = NoStack | Stack(text: string) | Captured {
    /** JavaScript truthiness of the `stack` property. */
    predicate Present() {
      Captured? || (Stack? && text != "")
    }
  }

  /** The concrete subclasses of AppError. */
  datatype ErrorClass =
    | BadRequestError
    | UnauthorizedError
    | ResourceNotFoundError
    | ForbiddenError
    | ServiceUnavailableError
    | RequestTimeoutError
    | ResourceConflictError
    | ValidationError
    | FileNotFoundError
    | DatabaseError
    | InternalServerError
    | JwtTokenError

  /** The error type each subclass passes to the base constructor. */
  function TypeOf(cls: ErrorClass): (t: HttpStatus.ErrorType)
    ensures HttpStatus.StatusCode(t) >= 500 <==> cls in {ServiceUnavailableError, DatabaseError, InternalServerError}
    ensures t == HttpStatus.Unauthorized <==> cls in {UnauthorizedError, JwtTokenError}
    ensures t == HttpStatus.NotFound <==> cls in {ResourceNotFoundError, FileNotFoundError}
    ensures t !in {HttpStatus.FileNotFound, HttpStatus.ConfigurationError, HttpStatus.UserAgentNotFound}
  {
    match cls
    case BadRequestError => HttpStatus.BadRequest
    case UnauthorizedError => HttpStatus.Unauthorized
    case ResourceNotFoundError => HttpStatus.NotFound
    case ForbiddenError => HttpStatus.Forbidden
    case ServiceUnavailableError => HttpStatus.ServiceUnavailable
    case RequestTimeoutError => HttpStatus.RequestTimeout
    case ResourceConflictError => HttpStatus.ResourceConflict
    case ValidationError => HttpStatus.ValidationError
    case FileNotFoundError => HttpStatus.NotFound
    case DatabaseError => HttpStatus.DatabaseError
    case InternalServerError => HttpStatus.InternalServerError
    case JwtTokenError => HttpStatus.Unauthorized
  }

  /** `this.constructor.name`: every subclass name is its kind followed by "Error". */
  function ClassName(cls: ErrorClass): (n: string)
    ensures |n| > 5 && n[|n| - 5..] == "Error"
  {
    ClassKind(cls) + "Error"
  }

  /** The class name without its "Error" suffix. */
  function ClassKind(cls: ErrorClass): (k: string)
    ensures k != ""
  {
    match cls
    case BadRequestError => "BadRequest"
    case UnauthorizedError => "Unauthorized"
    case ResourceNotFoundError => "ResourceNotFound"
    case ForbiddenError => "Forbidden"
    case ServiceUnavailableError => "ServiceUnavailable"
    case RequestTimeoutError => "RequestTimeout"
    case ResourceConflictError => "ResourceConflict"
    case ValidationError => "Validation"
    case FileNotFoundError => "FileNotFound"
    case DatabaseError => "Database"
    case InternalServerError => "InternalServer"
    case JwtTokenError => "JwtToken"
  }

  /** The optional `cause` constructor argument: nothing, a string, or an Error instance. */
  datatype Cause = NoCause | TextCause(text: string) | ErrorCause(message: string, stack: Stack)

  datatype AppError = AppError(
    cls: ErrorClass,
    errorType: HttpStatus.ErrorType,
    statusCode: nat,
    message: string,
    name: string,
    stack: Stack)
  {
    /** The fields the constructor fixes from the class agree with it. */
    predicate WellFormed() {
      errorType == TypeOf(cls) && statusCode == HttpStatus.StatusCode(errorType) && name == ClassName(cls)
    }
  }

  const UnexpectedFallback := "An unexpected error occurred"

  /** JavaScript's `a || b` on strings. */
  function OrElse(a: string, b: string): string {
    if a != "" then a else b
  }

  /** A fresh error of class `cls` with the given cause (the AppError constructor). */
  function NewError(cls: ErrorClass, cause: Cause): (e: AppError)
    ensures e.cls == cls && e.WellFormed()
    ensures cause.ErrorCause? ==> e.message == cause.message
    ensures cause.TextCause? && cause.text != "" ==> e.message == cause.text
    ensures (cause.NoCause? || cause == TextCause("")) ==> e.message == HttpStatus.DefaultMessage(TypeOf(cls))
    ensures !cause.ErrorCause? ==> e.message != ""
    ensures e.stack.Present()
    ensures cause.ErrorCause? && cause.stack.Present() ==> e.stack == cause.stack
  {
    var t := TypeOf(cls);
    var fallback := OrElse(HttpStatus.DefaultMessage(t), UnexpectedFallback);
    var message :=
      match cause
      case ErrorCause(m, _) => m
      case TextCause(s) => OrElse(s, fallback)
      case NoCause => fallback;
    var stack := if cause.ErrorCause? && cause.stack.Present() then cause.stack else Captured;
    AppError(cls, t, HttpStatus.StatusCode(t), message, ClassName(cls), stack)
  }

  /** The three subclasses that override `shouldReport` to answer true. */
  function ShouldReport(e: AppError): (r: bool)
    ensures r <==> e.cls in {ResourceConflictError, DatabaseError, InternalServerError}
  {
    match e.cls
    case ResourceConflictError => true
    case DatabaseError => true
    case InternalServerError => true
    case _ => false
  }

  /** `exposeMessage`, including the overrides of DatabaseError, InternalServerError and JwtTokenError. */
  function ExposeMessage(e: AppError, isVerbose: bool): (m: string)
    ensures isVerbose && e.message != "" ==> m == e.message
    ensures !isVerbose && e.cls == JwtTokenError ==> m == "Invalid or expired token"
    ensures e.WellFormed() && !isVerbose && e.errorType in {HttpStatus.DatabaseError, HttpStatus.InternalServerError} ==>
              m == HttpStatus.DefaultMessage(e.errorType)
    ensures e.WellFormed() && e.cls !in {JwtTokenError, DatabaseError, InternalServerError} && e.message != "" ==>
              m == e.message
    ensures e.cls !in {JwtTokenError, DatabaseError, InternalServerError} ==> m != ""
  {
    match e.cls
    case DatabaseError =>
      if isVerbose then e.message else OrElse(HttpStatus.DefaultMessage(e.errorType), "Database error occurred")
    case InternalServerError =>
      if isVerbose then e.message else OrElse(HttpStatus.DefaultMessage(e.errorType), "Internal server error occurred")
    case JwtTokenError =>
      if isVerbose then e.message else "Invalid or expired token"
    case _ =>
      var isSensitive := e.errorType == HttpStatus.InternalServerError || e.errorType == HttpStatus.DatabaseError;
      if !isVerbose && isSensitive then OrElse(HttpStatus.DefaultMessage(e.errorType), UnexpectedFallback)
      else OrElse(e.message, OrElse(HttpStatus.DefaultMessage(e.errorType), UnexpectedFallback))
  }

  datatype ApiObject = ApiObject(errorType: HttpStatus.ErrorType, message: string)

  /** `toApiObject`: the error's type, and the message the client may see. */
  function ToApiObject(e: AppError, isVerbose: bool): (r: ApiObject)
    ensures r.errorType == e.errorType
    ensures isVerbose && e.message != "" ==> r.message == e.message
    ensures !isVerbose && e.cls == JwtTokenError ==> r.message == "Invalid or expired token"
    ensures e.WellFormed() && !isVerbose && e.errorType in {HttpStatus.DatabaseError, HttpStatus.InternalServerError} ==>
              r.message == HttpStatus.DefaultMessage(e.errorType)
  {
    ApiObject(e.errorType, ExposeMessage(e, isVerbose))
  }

  datatype LogObject = LogObject(
    errorType: HttpStatus.ErrorType,
    message: string,
    statusCode: nat,
    name: string,
    stack: Option<Stack>)

  function ToLogObject(e: AppError, includeStack: bool): (r: LogObject)
    ensures r.message == ExposeMessage(e, true)
    ensures r.message == e.message || e.message == ""
    ensures r.stack.Some? <==> includeStack && e.stack.Present()
    ensures r.stack.Some? ==> r.stack.value == e.stack
  {
    LogObject(e.errorType, ExposeMessage(e, true), e.statusCode, e.name,
      if includeStack && e.stack.Present() then Some(e.stack) else None)
  }

  /** The error classes of the token library (TokenExpiredError and NotBeforeError extend JsonWebTokenError). */
  datatype JwtLibKind = TokenExpired | NotBefore | JsonWebToken

  /** A value that reaches a `catch` clause. */
  datatype Thrown =
    | App(e: AppError)
    | JwtLib(kind: JwtLibKind, message: string, stack: Stack)
    | QueryFailed(message: string, stack: Stack)
    | DriverFailure(isError: bool, message: string, stack: Stack)
    | PlainError(message: string, stack: Stack)
    | Text(text: string)
    | MessageObject(message: string)
    | OtherValue
  {
    /** `value instanceof Error`. */
    predicate IsError() {
      App? || JwtLib? || QueryFailed? || (DriverFailure? && isError) || PlainError?
    }

    /** The `message` of a thrown object whose `message` property is a string. */
    function ObjectMessage(): Option<string> {
      match this
      case App(e) => Some(e.message)
      case JwtLib(_, m, _) => Some(m)
      case QueryFailed(m, _) => Some(m)
      case DriverFailure(_, m, _) => Some(m)
      case PlainError(m, _) => Some(m)
      case MessageObject(m) => Some(m)
      case _ => None
    }
  }

  /** One step of the message classification in `mapJwtError`: any of `patterns` selects `message`. */
  datatype JwtRule = JwtRule(patterns: seq<string>, message: string)

  /** The substring tests of `mapJwtError`, in the order they are tried. */
  const JwtRules: seq<JwtRule> := [
    JwtRule(["invalid token", "jwt malformed"], "JWT format is invalid"),
    JwtRule(["signature is required"], "JWT signature is required"),
    JwtRule(["invalid signature"], "JWT signature verification failed"),
    JwtRule(["audience invalid"], "JWT audience claim is invalid"),
    JwtRule(["issuer invalid"], "JWT issuer claim is invalid"),
    JwtRule(["id invalid"], "JWT ID claim is invalid"),
    JwtRule(["subject invalid"], "JWT subject claim is invalid")
  ]

  predicate RuleMatches(lower: string, rule: JwtRule) {
    exists p :: p in rule.patterns && Contains(lower, p)
  }

  /** The index of the first rule at or after `from` that matches. */
  function FirstMatch(lower: string, rules: seq<JwtRule>, from: nat): (k: Option<nat>)
    requires from <= |rules|
    decreases |rules| - from
    ensures k.Some? ==> from <= k.value < |rules| && RuleMatches(lower, rules[k.value])
    ensures k.Some? ==> forall j :: from <= j < k.value ==> !RuleMatches(lower, rules[j])
    ensures k.None? ==> forall j :: from <= j < |rules| ==> !RuleMatches(lower, rules[j])
  {
    if from == |rules| then None
    else if RuleMatches(lower, rules[from]) then Some(from)
    else FirstMatch(lower, rules, from + 1)
  }

  /** The message `mapJwtError` gives a JsonWebTokenError whose message is `raw`. */
  function ClassifyJwtMessage(raw: string): (r: string)
    ensures (forall j :: 0 <= j < |JwtRules| ==> !RuleMatches(ToLower(raw), JwtRules[j])) ==> r == raw
    ensures (exists j :: 0 <= j < |JwtRules| && RuleMatches(ToLower(raw), JwtRules[j])) ==>
              exists k :: 0 <= k < |JwtRules| && RuleMatches(ToLower(raw), JwtRules[k]) && r == JwtRules[k].message
                          && forall j :: 0 <= j < k ==> !RuleMatches(ToLower(raw), JwtRules[j])
  {
    match FirstMatch(ToLower(raw), JwtRules, 0)
    case Some(k) => JwtRules[k].message
    case None => raw
  }

  /** The first rule whose pattern occurs in the lower-cased message decides; without a match the message is kept. */
  lemma ClassifyFirstMatchWins(raw: string, k: nat)
    requires k < |JwtRules|
    requires RuleMatches(ToLower(raw), JwtRules[k])
    requires forall j :: 0 <= j < k ==> !RuleMatches(ToLower(raw), JwtRules[j])
    ensures ClassifyJwtMessage(raw) == JwtRules[k].message
  {
    var f := FirstMatch(ToLower(raw), JwtRules, 0);
  }

  lemma ClassifyNoMatchKeeps(raw: string)
    requires forall j :: 0 <= j < |JwtRules| ==> !RuleMatches(ToLower(raw), JwtRules[j])
    ensures ClassifyJwtMessage(raw) == raw
  {
    var f := FirstMatch(ToLower(raw), JwtRules, 0);
  }

  /** `mapJwtError` on an error of the token library: the specific message for a JsonWebTokenError, its own otherwise. */
  function FromLibraryError(kind: JwtLibKind, message: string, stack: Stack): (e: AppError)
    ensures e.cls == JwtTokenError && e.WellFormed()
    ensures kind != JsonWebToken ==> e.message == message
    ensures kind == JsonWebToken ==> e.message == ClassifyJwtMessage(message)
    ensures stack.Present() ==> e.stack == stack
  {
    if kind == JsonWebToken then NewError(JwtTokenError, ErrorCause(ClassifyJwtMessage(message), if stack.Present() then stack else Captured))
    else NewError(JwtTokenError, ErrorCause(message, stack))
  }

  /** The text `mapJwtError` takes from anything else: the string itself, or the string `message` of an object. */
  function ThrownText(t: Thrown): (s: string)
    ensures t.Text? ==> s == t.text
    ensures t.ObjectMessage().Some? ==> s == t.ObjectMessage().value
    ensures t.OtherValue? ==> s == "Unexpected JWT validation error"
  {
    match t
    case Text(s) => s
    case OtherValue => "Unexpected JWT validation error"
    case App(e) => e.message
    case JwtLib(_, m, _) => m
    case QueryFailed(m, _) => m
    case DriverFailure(_, m, _) => m
    case PlainError(m, _) => m
    case MessageObject(m) => m
  }

  /** `mapJwtError` on anything else: a string, or the string `message` of an object, else a fixed text. */
  function FromOtherValue(t: Thrown): (e: AppError)
    requires !t.JwtLib?
    ensures e.cls == JwtTokenError && e.WellFormed()
    ensures e.message != ""
    ensures t.Text? && t.text != "" ==> e.message == t.text
    ensures t.ObjectMessage().Some? && t.ObjectMessage().value != "" ==> e.message == t.ObjectMessage().value
    ensures t.OtherValue? ==> e.message == "Unexpected JWT validation error"
  {
    NewError(JwtTokenError, TextCause(ThrownText(t)))
  }

  /** `JwtTokenError.mapJwtError`: whatever was thrown becomes an UNAUTHORIZED JwtTokenError with status 401. */
  function MapJwtError(t: Thrown): (e: AppError)
    ensures e.cls == JwtTokenError && e.WellFormed()
    ensures e.errorType == HttpStatus.Unauthorized && e.statusCode == 401
  {
    if t.JwtLib? then FromLibraryError(t.kind, t.message, t.stack) else FromOtherValue(t)
  }

  /** Mapping an error that is already a JwtTokenError with a message keeps that message. */
  lemma MapJwtErrorKeepsOwnMessage(e: AppError)
    requires e.cls == JwtTokenError && e.message != ""
    ensures MapJwtError(App(e)).message == e.message
    ensures ExposeMessage(MapJwtError(App(e)), true) == e.message
  {
  }
}
