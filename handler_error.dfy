/**
 * The last-resort error handler: anything thrown while serving a request is
 * normalised into an AppError, logged at a level that depends on whether it
 * is reportable, and answered with the error's status and its client-facing
 * body.
 */
module ErrorHandler {
  import opened Wrappers
  import HttpStatus
  import opened AppErrors

  /** `normalizeError`: application errors pass through, database failures become a DatabaseError, anything else an InternalServerError. */
  function NormalizeError(t: Thrown): (e: AppError)
    ensures t.App? ==> e == t.e
    ensures (t.QueryFailed? || t.DriverFailure?) ==> e.cls == DatabaseError && e.WellFormed()
    ensures !(t.App? || t.QueryFailed? || t.DriverFailure?) ==> e.cls == InternalServerError && e.WellFormed()
    ensures !t.App? && t.IsError() ==> e.message == t.ObjectMessage().value
    ensures t.DriverFailure? && !t.isError ==> e.message == "Database error occurred"
    ensures !t.IsError() && !t.DriverFailure? ==> e.message == "An unknown error occurred"
    ensures !t.App? && t.IsError() && t.stack.Present() ==> e.stack == t.stack
  {
    match t
    case App(e) => e
    case QueryFailed(m, st) => NewError(DatabaseError, ErrorCause(m, st))
    case DriverFailure(isError, m, st) =>
      NewError(DatabaseError, if isError then ErrorCause(m, st) else TextCause("Database error occurred"))
    case JwtLib(_, m, st) => NewError(InternalServerError, ErrorCause(m, st))
    case PlainError(m, st) => NewError(InternalServerError, ErrorCause(m, st))
    case _ => NewError(InternalServerError, TextCause("An unknown error occurred"))
  }

  datatype LogLevel = Error | Warn

  /** What `handleError` does: the log entry it writes and the response it sends. */
  datatype Handled = Handled(level: LogLevel, log: LogObject, statusCode: nat, body: ApiObject)

  /** `handleError`, with the two configuration switches it reads passed in. */
  function HandleError(t: Thrown, includeStackTrace: bool, isVerbose: bool): (r: Handled)
    ensures r.level == Error <==> ShouldReport(NormalizeError(t))
    ensures r.log.stack.Some? <==> includeStackTrace && ShouldReport(NormalizeError(t)) && NormalizeError(t).stack.Present()
    ensures r.log.message == ExposeMessage(NormalizeError(t), true)
    ensures r.statusCode == NormalizeError(t).statusCode
    ensures r.body == ApiObject(NormalizeError(t).errorType, ExposeMessage(NormalizeError(t), isVerbose))
  {
    var e := NormalizeError(t);
    if ShouldReport(e) then Handled(Error, ToLogObject(e, includeStackTrace), e.statusCode, ToApiObject(e, isVerbose))
    else Handled(Warn, ToLogObject(e, false), e.statusCode, ToApiObject(e, isVerbose))
  }

  /** Anything that is not already an AppError is answered with a 5xx status and logged as an error. */
  lemma ForeignErrorsAreServerErrors(t: Thrown, includeStackTrace: bool, isVerbose: bool)
    requires !t.App?
    ensures HandleError(t, includeStackTrace, isVerbose).statusCode == 500
    ensures HandleError(t, includeStackTrace, isVerbose).level == Error
  {
  }

  /** Outside verbose mode, a foreign error's own message never reaches the client: the body carries the default text of its type. */
  lemma ForeignErrorsDoNotLeak(t: Thrown, includeStackTrace: bool)
    requires !t.App?
    ensures var r := HandleError(t, includeStackTrace, false);
      r.body.message == HttpStatus.DefaultMessage(r.body.errorType)
      && r.body.errorType in {HttpStatus.DatabaseError, HttpStatus.InternalServerError}
  {
  }

  /** A non-reportable application error is logged as a warning, never with its stack trace. */
  lemma UnreportedErrorsHaveNoStack(e: AppError, includeStackTrace: bool, isVerbose: bool)
    requires !ShouldReport(e)
    ensures HandleError(App(e), includeStackTrace, isVerbose).level == Warn
    ensures HandleError(App(e), includeStackTrace, isVerbose).log.stack == None
    ensures HandleError(App(e), includeStackTrace, isVerbose).statusCode == e.statusCode
  {
  }
}
