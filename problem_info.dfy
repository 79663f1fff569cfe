/**
 * `ProblemInfo`: the error body every failed request returns, shaped after the
 * problem-details object of RFC 7807 (section 3.1: type, title, status; the
 * type defaults to `about:blank`, section 4.2), plus the reason phrase of the
 * status and an optional list of `ErrorInfo` entries.
 *
 * The source builds these objects with constructors that assign the fields one
 * by one and then mutates one of them (`setTitle`), so `ProblemInfo` is a class.
 * `Problem` is the value it holds, field for field (what is serialised as the
 * JSON body); the value functions below say what each factory must produce and
 * the lemmas about the factories are stated on them.
 */
module Problems {
  import opened Wrappers
  import opened Http
  import opened Errors

  /** `TYPES_CONSTRAINS_VIOLATIONS`, `TYPES_BLANK` and `TYPES_500`. */
  const TypeConstraintViolations := "/errors/constrains"
  const TypeBlank := "about:blank"
  const TypeGeneral := "/errors/general"

  /** The title the no-argument constructor sets. */
  const DefaultTitle := "Oops! We've tripped on a banana peel! We're on it"

  /** The titles of the constraint-violation and date-parse problems. */
  const ConstraintViolationTitle := "Constrains violation"
  const DateParseTitle := "Problems parsing a date"

  /** The content of a `ProblemInfo`; `None` is a null field (left out of the JSON). */
  datatype Problem = Problem(
    title: Option<string>,
    problemType: Option<string>,
    status: int,
    statusPhrase: Option<string>,
    errors: Option<seq<ErrorInfo>>)

  /** What the no-argument constructor produces: a generic 500 of type `about:blank`. */
  function DefaultProblem(): (p: Problem)
    ensures p.problemType == Some(TypeBlank)
    ensures p.status == Code(INTERNAL_SERVER_ERROR)
    ensures p.title.Some?
    ensures p.statusPhrase.None? && p.errors.None?
  {
    Problem(Some(DefaultTitle), Some(TypeBlank), Code(INTERNAL_SERVER_ERROR), None, None)
  }

  /**
   * What `new ProblemInfo(rawStatusCode)` produces, or `None` when the code
   * names no `Response.Status` constant: `fromStatusCode` then yields null and
   * the call to `getReasonPhrase` throws a `NullPointerException`.
   */
  function StatusProblem(rawStatusCode: int): (r: Option<Problem>)
    ensures r.Some? <==> FromStatusCode(rawStatusCode).Some?
    ensures r.Some? ==> r.value.status == rawStatusCode
    ensures r.Some? ==> r.value.statusPhrase == Some(ReasonPhrase(FromStatusCode(rawStatusCode).value))
    ensures r.Some? ==> (r.value.problemType == Some(TypeGeneral) <==> rawStatusCode == 500)
    ensures r.Some? && rawStatusCode != 500 ==> r.value.problemType == Some(TypeBlank)
    ensures r.Some? ==> r.value.title.None? && r.value.errors.None?
  {
    match FromStatusCode(rawStatusCode)
    case None => None
    case Some(st) =>
      Some(Problem(None, Some(if rawStatusCode == 500 then TypeGeneral else TypeBlank),
                   rawStatusCode, Some(ReasonPhrase(st)), None))
  }

  /**
   * What the four-argument constructor produces: the given type, title and
   * errors, with the status code and reason phrase both taken from `status`.
   */
  function TypedProblem(problemType: string, title: Option<string>, status: Status,
                        errors: Option<seq<ErrorInfo>>): (p: Problem)
    ensures FromStatusCode(p.status) == Some(status)
    ensures p.statusPhrase == Some(ReasonPhrase(status))
    ensures p.problemType == Some(problemType) && p.title == title && p.errors == errors
  {
    FromStatusCodeOfCode(status);
    Problem(title, Some(problemType), Code(status), Some(ReasonPhrase(status)), errors)
  }

  /** What `forStatusAndTitle(status, title)` produces: `forStatus` of the code, retitled. */
  function StatusAndTitleProblem(status: Status, title: string): (p: Problem)
    ensures StatusProblem(Code(status)).Some?
    ensures p.title == Some(title)
    ensures p.status == Code(status) && p.statusPhrase == Some(ReasonPhrase(status))
    ensures p.problemType == Some(if Code(status) == 500 then TypeGeneral else TypeBlank)
    ensures p.errors.None?
  {
    FromStatusCodeOfCode(status);
    StatusProblem(Code(status)).value.(title := Some(title))
  }

  /** `forStatusAndTitle` changes nothing of the `forStatus` result but its title. */
  lemma StatusAndTitleOnlyRetitles(status: Status, title: string)
    ensures StatusProblem(Code(status)).Some?
    ensures StatusAndTitleProblem(status, title).(title := None) == StatusProblem(Code(status)).value
  {
  }

  /** One `ErrorInfo` per violation, in order: detail, property path as instance, invalid value. */
  function ViolationErrors(violations: seq<Violation>): (es: seq<ErrorInfo>)
    ensures |es| == |violations|
    ensures forall i :: 0 <= i < |violations| ==>
      es[i] == ErrorInfo(violations[i].message, violations[i].propertyPath, violations[i].invalidValue)
  {
    if violations == [] then []
    else
      var v := violations[0];
      [ErrorInfo(v.message, v.propertyPath, v.invalidValue)] + ViolationErrors(violations[1..])
  }

  /** What `forException(ConstraintViolationException)` produces. */
  function ConstraintViolationProblem(violations: seq<Violation>): (p: Problem)
    ensures p.status == 400 && p.statusPhrase == Some("Bad Request")
    ensures p.problemType == Some(TypeConstraintViolations)
    ensures p.title == Some(ConstraintViolationTitle)
    ensures p.errors == Some(ViolationErrors(violations))
  {
    TypedProblem(TypeConstraintViolations, Some(ConstraintViolationTitle), BAD_REQUEST,
                 Some(ViolationErrors(violations)))
  }

  /** What `forException(NotAuthorizedException)` produces. */
  function NotAuthorizedProblem(): (p: Problem)
    ensures p.status == 401 && p.statusPhrase == Some("Unauthorized")
    ensures p.title == Some("Unauthorized request")
    ensures p.problemType == Some(TypeBlank) && p.errors.None?
  {
    StatusAndTitleProblem(UNAUTHORIZED, "Unauthorized request")
  }

  /** What `forException(PlatformHttpException)` produces: the exception's status, its message as title. */
  function PlatformHttpProblem(message: string, httpStatus: Status): (p: Problem)
    ensures p.status == Code(httpStatus) && p.statusPhrase == Some(ReasonPhrase(httpStatus))
    ensures p.title == Some(message)
    ensures p.errors.None?
  {
    StatusAndTitleProblem(httpStatus, message)
  }

  /**
   * What `forException(DateTimeParseException)` produces: built with the builder,
   * so type and reason phrase stay null; one error naming the `date` input.
   */
  function DateParseProblem(message: string): (p: Problem)
    ensures p.status == 400 && p.title == Some(DateParseTitle)
    ensures p.errors.Some? && |p.errors.value| == 1
    ensures p.errors.value[0].instance == "date" && p.errors.value[0].detail == message
    ensures p.problemType.None? && p.statusPhrase.None?
  {
    Problem(Some(DateParseTitle), None, Code(BAD_REQUEST), None,
            Some([ErrorInfo(message, "date", None)]))
  }

  class ProblemInfo {
    var title: Option<string>
    var problemType: Option<string>
    var status: int
    var statusPhrase: Option<string>
    var errors: Option<seq<ErrorInfo>>

    /** The fields, as one value. */
    function View(): Problem
      reads this
    {
      Problem(title, problemType, status, statusPhrase, errors)
    }

    /** The no-argument constructor. */
    constructor ()
      ensures View() == DefaultProblem()
    {
      problemType := Some(TypeBlank);
      status := Code(INTERNAL_SERVER_ERROR);
      title := Some(DefaultTitle);
      statusPhrase := None;
      errors := None;
    }

    /** `ProblemInfo(int rawStatusCode)`; an unknown code throws, so it is excluded here. */
    constructor OfStatus(rawStatusCode: int)
      requires FromStatusCode(rawStatusCode).Some?
      ensures View() == StatusProblem(rawStatusCode).value
    {
      var st := FromStatusCode(rawStatusCode).value;
      status := rawStatusCode;
      statusPhrase := Some(ReasonPhrase(st));
      if rawStatusCode == 500 {
        problemType := Some(TypeGeneral);
      } else {
        problemType := Some(TypeBlank);
      }
      title := None;
      errors := None;
    }

    /** The copy constructor: same content; the error list is copied, never shared. */
    constructor Copy(other: ProblemInfo)
      ensures View() == other.View()
    {
      problemType := other.problemType;
      title := other.title;
      status := other.status;
      statusPhrase := other.statusPhrase;
      errors := if other.errors.Some? then Some(other.errors.value) else None;
    }

    /** `ProblemInfo(URI type, String title, Response.Status status, List<ErrorInfo> errors)`. */
    constructor Typed(problemType: string, title: Option<string>, status: Status,
                      errors: Option<seq<ErrorInfo>>)
      ensures View() == TypedProblem(problemType, title, status, errors)
    {
      this.problemType := Some(problemType);
      this.title := title;
      this.status := Code(status);
      this.statusPhrase := Some(ReasonPhrase(status));
      this.errors := errors;
    }

    /**
     * The all-arguments constructor, which the builder's `build()` calls with
     * every field it was not given left null (0 for the status).
     */
    constructor AllArgs(title: Option<string>, problemType: Option<string>, status: int,
                        statusPhrase: Option<string>, errors: Option<seq<ErrorInfo>>)
      ensures View() == Problem(title, problemType, status, statusPhrase, errors)
    {
      this.title := title;
      this.problemType := problemType;
      this.status := status;
      this.statusPhrase := statusPhrase;
      this.errors := errors;
    }

    method SetTitle(title: Option<string>)
      modifies this
      ensures View() == old(View()).(title := title)
    {
      this.title := title;
    }

    static method ForNotAuthorized() returns (p: ProblemInfo)
      ensures fresh(p) && p.View() == NotAuthorizedProblem()
    {
      p := ForStatusAndTitle(UNAUTHORIZED, "Unauthorized request");
    }

    static method ForConstraintViolation(violations: seq<Violation>) returns (p: ProblemInfo)
      ensures fresh(p) && p.View() == ConstraintViolationProblem(violations)
    {
      var errs := ViolationErrors(violations);
      p := new ProblemInfo.Typed(TypeConstraintViolations, Some(ConstraintViolationTitle), BAD_REQUEST, Some(errs));
    }

    static method ForPlatformHttp(message: string, httpStatus: Status) returns (p: ProblemInfo)
      ensures fresh(p) && p.View() == PlatformHttpProblem(message, httpStatus)
    {
      p := ForStatusAndTitle(httpStatus, message);
    }

    static method ForStatus(status: int) returns (p: ProblemInfo)
      requires FromStatusCode(status).Some?
      ensures fresh(p) && p.View() == StatusProblem(status).value
    {
      p := new ProblemInfo.OfStatus(status);
    }

    static method ForStatusAndTitle(status: Status, title: string) returns (p: ProblemInfo)
      ensures fresh(p) && p.View() == StatusAndTitleProblem(status, title)
    {
      FromStatusCodeOfCode(status);
      p := ForStatus(Code(status));
      p.SetTitle(Some(title));
    }

    static method ForDateTimeParse(message: string) returns (p: ProblemInfo)
      ensures fresh(p) && p.View() == DateParseProblem(message)
    {
      p := new ProblemInfo.AllArgs(Some(DateParseTitle), None, Code(BAD_REQUEST), None,
                                   Some([ErrorInfo(message, "date", None)]));
    }
  }
}
