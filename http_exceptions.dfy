/**
 * The application's HTTP exceptions (util/HttpExceptions.kt): each exception class carries the
 * HTTP status it is answered with and a message, and converts to an error body holding its simple
 * class name and that message.
 */
module HttpExceptions {

  datatype HttpException =
    | QueueFull
    | NotEnoughSpace
    | InternalServerError
    | EntityNotFound(msg: string)
    | InvalidStatus(msg: string)
    | WorkerModeNotAllowed
    | MasterNotAuthorized

  /** Anything an operation can throw: an HttpException, or another exception named by its class. */
  datatype Exception = Http(http: HttpException) | Other(className: string)

  const SERVICE_UNAVAILABLE: int := 503
  const INTERNAL_SERVER_ERROR: int := 500
  const NOT_FOUND: int := 404
  const CONFLICT: int := 409
  const FORBIDDEN: int := 403
  const UNAUTHORIZED: int := 401

  const CONTACT_ADMINISTRATOR: string := "Contact server administrator (or they'll contact you)"

  /** The HTTP status each exception class is constructed with. */
  function ReturnCode(e: HttpException): (code: int)
    ensures code == SERVICE_UNAVAILABLE <==> e.QueueFull? || e.NotEnoughSpace?
    ensures code == INTERNAL_SERVER_ERROR <==> e.InternalServerError?
    ensures code == NOT_FOUND <==> e.EntityNotFound?
    ensures code == CONFLICT <==> e.InvalidStatus?
    ensures code == FORBIDDEN <==> e.WorkerModeNotAllowed?
    ensures code == UNAUTHORIZED <==> e.MasterNotAuthorized?
  {
    match e
    case QueueFull => SERVICE_UNAVAILABLE
    case NotEnoughSpace => SERVICE_UNAVAILABLE
    case InternalServerError => INTERNAL_SERVER_ERROR
    case EntityNotFound(_) => NOT_FOUND
    case InvalidStatus(_) => CONFLICT
    case WorkerModeNotAllowed => FORBIDDEN
    case MasterNotAuthorized => UNAUTHORIZED
  }

  /** The message each exception class is constructed with (the caller's text where it takes one). */
  function Message(e: HttpException): string {
    match e
    case QueueFull => "Processing queue is currently full. Try again later."
    case NotEnoughSpace => "Processing queue is currently full: not enough space. Try again later."
    case InternalServerError => "Something went wrong. Try again later."
    case EntityNotFound(msg) => msg
    case InvalidStatus(msg) => msg
    case WorkerModeNotAllowed => CONTACT_ADMINISTRATOR
    case MasterNotAuthorized => CONTACT_ADMINISTRATOR
  }

  /** `javaClass.simpleName` of each exception class. */
  function SimpleName(e: HttpException): string {
    match e
    case QueueFull => "QueueFull"
    case NotEnoughSpace => "NotEnoughSpace"
    case InternalServerError => "InternalServerError"
    case EntityNotFound(_) => "EntityNotFound"
    case InvalidStatus(_) => "InvalidStatus"
    case WorkerModeNotAllowed => "WorkerModeNotAllowed"
    case MasterNotAuthorized => "MasterNotAuthorized"
  }

  datatype ErrorResponse = ErrorResponse(code: string, message: string)

  /** The error body: the exception's simple class name paired with its message. */
  function ToResponse(e: HttpException): (r: ErrorResponse)
    ensures r.code == SimpleName(e) && r.message == Message(e)
  {
    ErrorResponse(SimpleName(e), Message(e))
  }

  /** The error body identifies the exception: two exceptions with the same body are equal. */
  lemma ToResponseInjective(e1: HttpException, e2: HttpException)
    requires ToResponse(e1) == ToResponse(e2)
    ensures e1 == e2
  {
    assert SimpleName(e1) == SimpleName(e2);
    match e1
    case QueueFull => assert SimpleName(e1)[0] == 'Q';
    case NotEnoughSpace => assert SimpleName(e1)[0] == 'N';
    case InternalServerError => assert SimpleName(e1)[0] == 'I' && SimpleName(e1)[1] == 'n';
    case EntityNotFound(_) => assert SimpleName(e1)[0] == 'E';
    case InvalidStatus(_) => assert SimpleName(e1)[0] == 'I' && SimpleName(e1)[1] == 'n' && SimpleName(e1)[2] == 'v';
    case WorkerModeNotAllowed => assert SimpleName(e1)[0] == 'W';
    case MasterNotAuthorized => assert SimpleName(e1)[0] == 'M';
  }

  /** Exactly the two admission failures and the internal error are answered with a 5xx status. */
  lemma ServerSideErrors(e: HttpException)
    ensures ReturnCode(e) >= 500 <==> e.QueueFull? || e.NotEnoughSpace? || e.InternalServerError?
    ensures 400 <= ReturnCode(e) < 500 || 500 <= ReturnCode(e) < 600
  {
  }
}
