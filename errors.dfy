/**
 * The data holders of the error path: `ErrorInfo` (one entry of a problem's
 * error list), a bean-validation constraint violation, and the exceptions the
 * service raises or receives, reduced to what the handlers look at.
 */
module Errors {
  import opened Wrappers
  import opened Http

  /**
   * `ErrorInfo`: a human-readable detail, the URI naming the failing input and,
   * optionally, the rejected value (rendered as text).
   */
  datatype ErrorInfo = ErrorInfo(detail: string, instance: string, value: Option<string>)

  /** One `ConstraintViolation`: its message, property path and invalid value. */
  datatype Violation = Violation(message: string, propertyPath: string, invalidValue: Option<string>)

  /**
   * One exception of a cause chain, by the class the handlers test for.
   * `PlatformHttp` is `PlatformHttpException`: a message and an HTTP status.
   * `Other` is any class none of the handlers names.
   */
  datatype ExKind =
    | NotAuthorized
    | ConstraintViolation(violations: seq<Violation>)
    | DateTimeParse(message: string)
    | PlatformHttp(message: string, httpStatus: Status)
    | IllegalArgument(message: string)
    | Other(className: string)
}
