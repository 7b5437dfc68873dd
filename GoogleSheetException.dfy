/**
 * The domain error of the integration: an error code from a fixed taxonomy and
 * a message. The exception is immutable once built, so it is a value here.
 */
module SheetErrors {
  import opened Wrappers

  /** The six kinds of failure, in declaration order. */
  datatype ErrorCode =
    | SheetNotFound
    | PermissionDenied
    | InvalidRequest
    | ServiceUnavailable
    | AuthenticationFailed
    | OperationFailed

  /** Every error code there is. */
  const AllCodes: set<ErrorCode> :=
    {SheetNotFound, PermissionDenied, InvalidRequest, ServiceUnavailable, AuthenticationFailed, OperationFailed}

  /** The Java constant name of a code, which is what the enum's `toString` returns. */
  function CodeName(code: ErrorCode): (name: string)
  {
    match code
    case SheetNotFound => "SHEET_NOT_FOUND"
    case PermissionDenied => "PERMISSION_DENIED"
    case InvalidRequest => "INVALID_REQUEST"
    case ServiceUnavailable => "SERVICE_UNAVAILABLE"
    case AuthenticationFailed => "AUTHENTICATION_FAILED"
    case OperationFailed => "OPERATION_FAILED"
  }

  /** The enum's `valueOf`: the code whose constant name is `name`, if any. */
  function CodeOf(name: string): (code: Option<ErrorCode>)
  {
    if name == "SHEET_NOT_FOUND" then Some(SheetNotFound)
    else if name == "PERMISSION_DENIED" then Some(PermissionDenied)
    else if name == "INVALID_REQUEST" then Some(InvalidRequest)
    else if name == "SERVICE_UNAVAILABLE" then Some(ServiceUnavailable)
    else if name == "AUTHENTICATION_FAILED" then Some(AuthenticationFailed)
    else if name == "OPERATION_FAILED" then Some(OperationFailed)
    else None
  }

  /** The enumeration has exactly six values. */
  lemma ErrorCodeCount()
    ensures forall c: ErrorCode :: c in AllCodes
    ensures |AllCodes| == 6
  {
    var s5 := {SheetNotFound, PermissionDenied, InvalidRequest, ServiceUnavailable, AuthenticationFailed};
    var s4 := {SheetNotFound, PermissionDenied, InvalidRequest, ServiceUnavailable};
    var s3 := {SheetNotFound, PermissionDenied, InvalidRequest};
    assert |{SheetNotFound, PermissionDenied}| == 2;
    assert |s3| == 3 by { assert s3 == {SheetNotFound, PermissionDenied} + {InvalidRequest}; }
    assert |s4| == 4 by { assert s4 == s3 + {ServiceUnavailable}; }
    assert |s5| == 5 by { assert s5 == s4 + {AuthenticationFailed}; }
    assert AllCodes == s5 + {OperationFailed};
    forall c: ErrorCode ensures c in AllCodes {
      match c
      case SheetNotFound =>
      case PermissionDenied =>
      case InvalidRequest =>
      case ServiceUnavailable =>
      case AuthenticationFailed =>
      case OperationFailed =>
    }
  }

  /** `valueOf` inverts `toString`: reading back a code's name gives the code. */
  lemma CodeNameRoundTrip(code: ErrorCode)
    ensures CodeOf(CodeName(code)) == Some(code)
  {
  }

  /** The six codes have six distinct names, so a name identifies its code. */
  lemma CodeNameInjective(a: ErrorCode, b: ErrorCode)
    ensures CodeName(a) == CodeName(b) ==> a == b
  {
    CodeNameRoundTrip(a);
    CodeNameRoundTrip(b);
  }

  /**
   * `GoogleSheetException`: a runtime exception carrying a final error code and
   * the message handed to the superclass (what `getMessage` returns).
   */
  datatype SheetException = SheetException(errorCode: ErrorCode, message: string)

  /** The two-argument constructor `(ErrorCode, String)`. */
  function NewException(code: ErrorCode, message: string): (ex: SheetException)
    ensures ex.errorCode == code && ex.message == message
  {
    SheetException(code, message)
  }

  /**
   * The three-argument constructor `(ErrorCode, String, Throwable)`. It delegates
   * to the two-argument one and never hands `cause` to the superclass, so the
   * cause is dropped.
   */
  function NewExceptionWithCause<C>(code: ErrorCode, message: string, cause: C): (ex: SheetException)
    ensures ex.errorCode == code && ex.message == message
  {
    NewException(code, message)
  }

  /** Two exceptions built with different causes are indistinguishable. */
  lemma CauseNotRecorded<C>(code: ErrorCode, message: string, c1: C, c2: C)
    ensures NewExceptionWithCause(code, message, c1) == NewExceptionWithCause(code, message, c2)
    ensures NewExceptionWithCause(code, message, c1).errorCode == code
    ensures NewExceptionWithCause(code, message, c1).message == message
  {
  }
}
