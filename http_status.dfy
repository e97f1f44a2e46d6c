/**
 * The error kinds of the service and the two lookup tables keyed by them:
 * the HTTP status of each kind and its default user-facing message; plus the
 * success status codes.
 */
module HttpStatus {

  /** The members of the error-type enumeration, one constructor per member. */
  datatype ErrorType =
    | BadRequest
    | Unauthorized
    | Forbidden
    | NotFound
    | FileNotFound
    | RequestTimeout
    | ResourceConflict
    | ValidationError
    | ConfigurationError
    | UserAgentNotFound
    | DatabaseError
    | InternalServerError
    | ServiceUnavailable

  /** `ERROR_STATUS_CODES[t]`. */
  function StatusCode(t: ErrorType): (code: nat)
    ensures 400 <= code <= 599
    ensures code >= 500 <==> t in {ConfigurationError, DatabaseError, InternalServerError, ServiceUnavailable}
  {
    match t
    case BadRequest => 400
    case Unauthorized => 401
    case Forbidden => 403
    case NotFound => 404
    case FileNotFound => 404
    case RequestTimeout => 408
    case ResourceConflict => 409
    case ValidationError => 422
    case ConfigurationError => 500
    case UserAgentNotFound => 400
    case DatabaseError => 500
    case InternalServerError => 500
    case ServiceUnavailable => 503
  }

  /** `ERROR_TYPE_DEFAULTS[t]`. */
  function DefaultMessage(t: ErrorType): (m: string)
    ensures m != ""
  {
    match t
    case ValidationError => "Validation failed for the provided data."
    case BadRequest => "The request was missing required parameters."
    case NotFound => "The requested resource could not be found."
    case FileNotFound => "File does not exist"
    case ConfigurationError => "Configuration error occurred."
    case UserAgentNotFound => "User agent header missing."
    case DatabaseError => "A database related error."
    case Unauthorized => "You do not have the necessary permissions to carry out this operation."
    case ResourceConflict => "A conflict occurred, preventing the creation, update, or deletion of the resource."
    case InternalServerError => "An unexpected error occurred. Please try again later."
    case RequestTimeout => "Request time out."
    case Forbidden => "You don't have permission to access this resource. Request for access."
    case ServiceUnavailable => "The service is temporarily unavailable. Please try again later."
  }

  /** The keys of `SUCCESS_STATUS_CODES`. */
  datatype SuccessStatus = Ok | Created | Accepted | NoContent

  function SuccessCode(s: SuccessStatus): (code: nat)
    ensures 200 <= code <= 299
    ensures code == 204 <==> s == NoContent
  {
    match s
    case Ok => 200
    case Created => 201
    case Accepted => 202
    case NoContent => 204
  }

  /** The statuses shared by several kinds: the two not-found kinds, and the three server-side kinds. */
  lemma SharedStatusCodes()
    ensures StatusCode(NotFound) == StatusCode(FileNotFound) == 404
    ensures StatusCode(UserAgentNotFound) == StatusCode(BadRequest) == 400
    ensures StatusCode(ConfigurationError) == StatusCode(DatabaseError) == StatusCode(InternalServerError) == 500
    ensures StatusCode(Unauthorized) == 401 && StatusCode(ServiceUnavailable) == 503
  {
  }

  /** No two success keys share a code. */
  lemma SuccessCodesDistinct(a: SuccessStatus, b: SuccessStatus)
    requires a != b
    ensures SuccessCode(a) != SuccessCode(b)
  {
  }
}
