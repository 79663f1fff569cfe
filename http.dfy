/**
 * The HTTP vocabulary the service uses: the status constants of the Jakarta REST
 * `Response.Status` enumeration (code and reason phrase) and Spring's
 * `ResponseEntity`, a status code paired with a body.
 */
module Http {
  import opened Wrappers

  /** The constants of `Response.Status`, in declaration order. */
  datatype Status =
    | OK | CREATED | ACCEPTED | NO_CONTENT | RESET_CONTENT | PARTIAL_CONTENT
    | MOVED_PERMANENTLY | FOUND | SEE_OTHER | NOT_MODIFIED | USE_PROXY | TEMPORARY_REDIRECT
    | BAD_REQUEST | UNAUTHORIZED | PAYMENT_REQUIRED | FORBIDDEN | NOT_FOUND | METHOD_NOT_ALLOWED
    | NOT_ACCEPTABLE | PROXY_AUTHENTICATION_REQUIRED | REQUEST_TIMEOUT | CONFLICT | GONE
    | LENGTH_REQUIRED | PRECONDITION_FAILED | REQUEST_ENTITY_TOO_LARGE | REQUEST_URI_TOO_LONG
    | UNSUPPORTED_MEDIA_TYPE | REQUESTED_RANGE_NOT_SATISFIABLE | EXPECTATION_FAILED
    | PRECONDITION_REQUIRED | TOO_MANY_REQUESTS | REQUEST_HEADER_FIELDS_TOO_LARGE
    | INTERNAL_SERVER_ERROR | NOT_IMPLEMENTED | BAD_GATEWAY | SERVICE_UNAVAILABLE
    | GATEWAY_TIMEOUT | HTTP_VERSION_NOT_SUPPORTED | NETWORK_AUTHENTICATION_REQUIRED

  /** `Status.getStatusCode()`. */
  function Code(s: Status): int
  {
    match s
    case OK => 200
    case CREATED => 201
    case ACCEPTED => 202
    case NO_CONTENT => 204
    case RESET_CONTENT => 205
    case PARTIAL_CONTENT => 206
    case MOVED_PERMANENTLY => 301
    case FOUND => 302
    case SEE_OTHER => 303
    case NOT_MODIFIED => 304
    case USE_PROXY => 305
    case TEMPORARY_REDIRECT => 307
    case BAD_REQUEST => 400
    case UNAUTHORIZED => 401
    case PAYMENT_REQUIRED => 402
    case FORBIDDEN => 403
    case NOT_FOUND => 404
    case METHOD_NOT_ALLOWED => 405
    case NOT_ACCEPTABLE => 406
    case PROXY_AUTHENTICATION_REQUIRED => 407
    case REQUEST_TIMEOUT => 408
    case CONFLICT => 409
    case GONE => 410
    case LENGTH_REQUIRED => 411
    case PRECONDITION_FAILED => 412
    case REQUEST_ENTITY_TOO_LARGE => 413
    case REQUEST_URI_TOO_LONG => 414
    case UNSUPPORTED_MEDIA_TYPE => 415
    case REQUESTED_RANGE_NOT_SATISFIABLE => 416
    case EXPECTATION_FAILED => 417
    case PRECONDITION_REQUIRED => 428
    case TOO_MANY_REQUESTS => 429
    case REQUEST_HEADER_FIELDS_TOO_LARGE => 431
    case INTERNAL_SERVER_ERROR => 500
    case NOT_IMPLEMENTED => 501
    case BAD_GATEWAY => 502
    case SERVICE_UNAVAILABLE => 503
    case GATEWAY_TIMEOUT => 504
    case HTTP_VERSION_NOT_SUPPORTED => 505
    case NETWORK_AUTHENTICATION_REQUIRED => 511
  }

  /** `Status.getReasonPhrase()`. */
  function ReasonPhrase(s: Status): string
  {
    match s
    case OK => "OK"
    case CREATED => "Created"
    case ACCEPTED => "Accepted"
    case NO_CONTENT => "No Content"
    case RESET_CONTENT => "Reset Content"
    case PARTIAL_CONTENT => "Partial Content"
    case MOVED_PERMANENTLY => "Moved Permanently"
    case FOUND => "Found"
    case SEE_OTHER => "See Other"
    case NOT_MODIFIED => "Not Modified"
    case USE_PROXY => "Use Proxy"
    case TEMPORARY_REDIRECT => "Temporary Redirect"
    case BAD_REQUEST => "Bad Request"
    case UNAUTHORIZED => "Unauthorized"
    case PAYMENT_REQUIRED => "Payment Required"
    case FORBIDDEN => "Forbidden"
    case NOT_FOUND => "Not Found"
    case METHOD_NOT_ALLOWED => "Method Not Allowed"
    case NOT_ACCEPTABLE => "Not Acceptable"
    case PROXY_AUTHENTICATION_REQUIRED => "Proxy Authentication Required"
    case REQUEST_TIMEOUT => "Request Timeout"
    case CONFLICT => "Conflict"
    case GONE => "Gone"
    case LENGTH_REQUIRED => "Length Required"
    case PRECONDITION_FAILED => "Precondition Failed"
    case REQUEST_ENTITY_TOO_LARGE => "Request Entity Too Large"
    case REQUEST_URI_TOO_LONG => "Request-URI Too Long"
    case UNSUPPORTED_MEDIA_TYPE => "Unsupported Media Type"
    case REQUESTED_RANGE_NOT_SATISFIABLE => "Requested Range Not Satisfiable"
    case EXPECTATION_FAILED => "Expectation Failed"
    case PRECONDITION_REQUIRED => "Precondition Required"
    case TOO_MANY_REQUESTS => "Too Many Requests"
    case REQUEST_HEADER_FIELDS_TOO_LARGE => "Request Header Fields Too Large"
    case INTERNAL_SERVER_ERROR => "Internal Server Error"
    case NOT_IMPLEMENTED => "Not Implemented"
    case BAD_GATEWAY => "Bad Gateway"
    case SERVICE_UNAVAILABLE => "Service Unavailable"
    case GATEWAY_TIMEOUT => "Gateway Timeout"
    case HTTP_VERSION_NOT_SUPPORTED => "HTTP Version Not Supported"
    case NETWORK_AUTHENTICATION_REQUIRED => "Network Authentication Required"
  }

  /**
   * `Status.fromStatusCode(code)`: the constant with that code, or `None`
   * (Java's `null`) when no constant has it.
   */
  function FromStatusCode(code: int): (r: Option<Status>)
    ensures r.Some? ==> Code(r.value) == code
  {
    if code == 200 then Some(OK)
    else if code == 201 then Some(CREATED)
    else if code == 202 then Some(ACCEPTED)
    else if code == 204 then Some(NO_CONTENT)
    else if code == 205 then Some(RESET_CONTENT)
    else if code == 206 then Some(PARTIAL_CONTENT)
    else if code == 301 then Some(MOVED_PERMANENTLY)
    else if code == 302 then Some(FOUND)
    else if code == 303 then Some(SEE_OTHER)
    else if code == 304 then Some(NOT_MODIFIED)
    else if code == 305 then Some(USE_PROXY)
    else if code == 307 then Some(TEMPORARY_REDIRECT)
    else if code == 400 then Some(BAD_REQUEST)
    else if code == 401 then Some(UNAUTHORIZED)
    else if code == 402 then Some(PAYMENT_REQUIRED)
    else if code == 403 then Some(FORBIDDEN)
    else if code == 404 then Some(NOT_FOUND)
    else if code == 405 then Some(METHOD_NOT_ALLOWED)
    else if code == 406 then Some(NOT_ACCEPTABLE)
    else if code == 407 then Some(PROXY_AUTHENTICATION_REQUIRED)
    else if code == 408 then Some(REQUEST_TIMEOUT)
    else if code == 409 then Some(CONFLICT)
    else if code == 410 then Some(GONE)
    else if code == 411 then Some(LENGTH_REQUIRED)
    else if code == 412 then Some(PRECONDITION_FAILED)
    else if code == 413 then Some(REQUEST_ENTITY_TOO_LARGE)
    else if code == 414 then Some(REQUEST_URI_TOO_LONG)
    else if code == 415 then Some(UNSUPPORTED_MEDIA_TYPE)
    else if code == 416 then Some(REQUESTED_RANGE_NOT_SATISFIABLE)
    else if code == 417 then Some(EXPECTATION_FAILED)
    else if code == 428 then Some(PRECONDITION_REQUIRED)
    else if code == 429 then Some(TOO_MANY_REQUESTS)
    else if code == 431 then Some(REQUEST_HEADER_FIELDS_TOO_LARGE)
    else if code == 500 then Some(INTERNAL_SERVER_ERROR)
    else if code == 501 then Some(NOT_IMPLEMENTED)
    else if code == 502 then Some(BAD_GATEWAY)
    else if code == 503 then Some(SERVICE_UNAVAILABLE)
    else if code == 504 then Some(GATEWAY_TIMEOUT)
    else if code == 505 then Some(HTTP_VERSION_NOT_SUPPORTED)
    else if code == 511 then Some(NETWORK_AUTHENTICATION_REQUIRED)
    else None
  }

  /** Every constant is found again from its own code: codes are pairwise distinct. */
  lemma FromStatusCodeOfCode(s: Status)
    ensures FromStatusCode(Code(s)) == Some(s)
  {
  }

  /** `fromStatusCode` yields `null` exactly for the codes no constant carries. */
  lemma FromStatusCodeNone(code: int)
    ensures FromStatusCode(code).None? <==> forall s: Status :: Code(s) != code
  {
    if FromStatusCode(code).None? {
      forall s: Status ensures Code(s) != code {
        FromStatusCodeOfCode(s);
      }
    }
  }

  /** Spring's `ResponseEntity`: the HTTP status code and the body sent with it. */
  datatype ResponseEntity<B> = ResponseEntity(status: int, body: B)
}
