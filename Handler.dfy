/**
 * The boundary that turns a `GoogleSheetException` into an HTTP response: the
 * error code picks the status, and the body carries the code's name and the
 * exception's message.
 */
module ExceptionHandler {
  import opened Wrappers
  import opened SheetErrors

  /**
   * The HTTP statuses the handler can produce (a subset of Spring's `HttpStatus`),
   * with the codes of sections 15.5 and 15.6 of RFC 9110.
   */
  datatype HttpStatus =
    | BadRequest
    | Unauthorized
    | Forbidden
    | NotFound
    | InternalServerError
    | ServiceUnavailableStatus
  {
    /** The three-digit status code. */
    function Value(): (v: int)
      ensures 400 <= v < 600
    {
      match this
      case BadRequest => 400
      case Unauthorized => 401
      case Forbidden => 403
      case NotFound => 404
      case InternalServerError => 500
      case ServiceUnavailableStatus => 503
    }

    /** The client-error class 4xx (section 15.5 of RFC 9110). */
    predicate IsClientError() { 400 <= Value() < 500 }

    /** The server-error class 5xx (section 15.6 of RFC 9110). */
    predicate IsServerError() { 500 <= Value() < 600 }
  }

  /** The JSON body of an error response: the code's name and the message. */
  datatype HandlerResponse = HandlerResponse(status: string, errorMessage: string)

  /** A response: its HTTP status and its body. */
  datatype ResponseEntity = ResponseEntity(status: HttpStatus, body: HandlerResponse)

  /**
   * The switch from error code to HTTP status. Each of the five named codes has
   * its own status; every other code (only `OperationFailed` remains) falls to
   * 500 through the default branch.
   */
  function DetermineHttpStatus(code: ErrorCode): (status: HttpStatus)
    ensures status.Value() == 403 <==> code == PermissionDenied
    ensures status.Value() == 404 <==> code == SheetNotFound
    ensures status.Value() == 400 <==> code == InvalidRequest
    ensures status.Value() == 503 <==> code == ServiceUnavailable
    ensures status.Value() == 401 <==> code == AuthenticationFailed
    ensures status.Value() == 500 <==> code !in {PermissionDenied, SheetNotFound, InvalidRequest, ServiceUnavailable, AuthenticationFailed}
  {
    match code
    case PermissionDenied => Forbidden
    case SheetNotFound => NotFound
    case InvalidRequest => BadRequest
    case ServiceUnavailable => ServiceUnavailableStatus
    case AuthenticationFailed => Unauthorized
    case _ => InternalServerError
  }

  /** Distinct codes get distinct statuses, so the status alone identifies the code. */
  lemma DetermineHttpStatusInjective(a: ErrorCode, b: ErrorCode)
    ensures DetermineHttpStatus(a) == DetermineHttpStatus(b) ==> a == b
  {
  }

  /**
   * The mapping is onto the six statuses, and the two failures that are the
   * service's fault (an unavailable dependency and an unclassified operation
   * failure) are exactly the ones reported as server errors.
   */
  lemma DetermineHttpStatusClasses(code: ErrorCode)
    ensures DetermineHttpStatus(code).IsServerError() <==> code in {ServiceUnavailable, OperationFailed}
    ensures DetermineHttpStatus(code).IsClientError() <==> code !in {ServiceUnavailable, OperationFailed}
  {
  }

  /** Every status the handler can produce comes from some error code. */
  lemma DetermineHttpStatusOnto(status: HttpStatus)
    ensures exists code: ErrorCode :: DetermineHttpStatus(code) == status
  {
    match status
    case BadRequest => assert DetermineHttpStatus(InvalidRequest) == status;
    case Unauthorized => assert DetermineHttpStatus(AuthenticationFailed) == status;
    case Forbidden => assert DetermineHttpStatus(PermissionDenied) == status;
    case NotFound => assert DetermineHttpStatus(SheetNotFound) == status;
    case InternalServerError => assert DetermineHttpStatus(OperationFailed) == status;
    case ServiceUnavailableStatus => assert DetermineHttpStatus(ServiceUnavailable) == status;
  }

  /**
   * `handleResponseEntity`: the response status is the status of the exception's
   * code, and the body reports the code's constant name and the exception's
   * message. The body's status reads back as the code that chose the HTTP status.
   */
  function HandleResponseEntity(ex: SheetException): (r: ResponseEntity)
    ensures r.status == DetermineHttpStatus(ex.errorCode)
    ensures CodeOf(r.body.status) == Some(ex.errorCode)
    ensures r.body.errorMessage == ex.message
  {
    CodeNameRoundTrip(ex.errorCode);
    ResponseEntity(DetermineHttpStatus(ex.errorCode), HandlerResponse(CodeName(ex.errorCode), ex.message))
  }

  /** The response loses nothing: two exceptions with the same response are equal. */
  lemma ResponseDeterminesException(a: SheetException, b: SheetException)
    ensures HandleResponseEntity(a) == HandleResponseEntity(b) ==> a == b
  {
    if HandleResponseEntity(a) == HandleResponseEntity(b) {
      CodeNameInjective(a.errorCode, b.errorCode);
    }
  }
}
