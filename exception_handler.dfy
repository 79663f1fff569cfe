/**
 * `PlatformExceptionHandler`: turns an exception into a problem response whose
 * HTTP status is the problem's own `status`. Exceptions the framework cannot
 * route to a dedicated handler go to `catchAllOthers`, which searches the
 * cause chain: a constraint violation anywhere in it wins; otherwise the first
 * date-parse failure; otherwise a generic 500.
 *
 * A cause chain is a sequence: index 0 is the thrown exception, index k+1 the
 * cause of index k; the chain ends where `getCause()` returns null.
 */
module ExceptionHandler {
  import opened Wrappers
  import opened Http
  import opened Errors
  import opened Problems
  import opened PriceDao

  /** The title of the catch-all response. */
  const FallbackTitle := "Oops, We've tripped on a banana peel! We're on it"

  predicate IsConstraintViolation(e: ExKind) { e.ConstraintViolation? }

  predicate IsDateTimeParse(e: ExKind) { e.DateTimeParse? }

  /**
   * The position a `while (cause != null)` walk from the top of the chain stops
   * at for the test `p`, or `None` when it runs off the end of the chain.
   */
  function FirstWhere(chain: seq<ExKind>, p: ExKind -> bool): (r: Option<nat>)
    ensures r.None? <==> forall i :: 0 <= i < |chain| ==> !p(chain[i])
    ensures r.Some? ==> r.value < |chain| && p(chain[r.value])
    ensures r.Some? ==> forall i :: 0 <= i < r.value ==> !p(chain[i])
  {
    if chain == [] then None
    else if p(chain[0]) then Some(0)
    else
      var rest := FirstWhere(chain[1..], p);
      assert forall i :: 1 <= i < |chain| ==> chain[i] == chain[1..][i - 1];
      if rest.None? then None else Some(rest.value + 1)
  }

  /** The catch-all problem: a 500 of type `about:blank`, built with the builder. */
  function FallbackProblem(): (p: Problem)
    ensures p.status == 500 && p.problemType == Some(TypeBlank) && p.title == Some(FallbackTitle)
    ensures p.statusPhrase.None? && p.errors.None?
  {
    Problem(Some(FallbackTitle), Some(TypeBlank), 500, None, None)
  }

  /** The problem `catchAllOthers` answers with for a given cause chain. */
  function CatchAllProblem(chain: seq<ExKind>): Problem
  {
    match FirstWhere(chain, IsConstraintViolation)
    case Some(i) => ConstraintViolationProblem(chain[i].violations)
    case None =>
      match FirstWhere(chain, IsDateTimeParse)
      case Some(j) => DateParseProblem(chain[j].message)
      case None => FallbackProblem()
  }

  /** `buildProblemResponse`: the response status is the problem's own status. */
  function BuildProblemResponse(problem: ProblemInfo): (r: ResponseEntity<ProblemInfo>)
    reads problem
    ensures r.status == problem.status && r.body == problem
  {
    ResponseEntity(problem.status, problem)
  }

  /** `handle(NotAuthorizedException)`. */
  method HandleNotAuthorized() returns (resp: ResponseEntity<ProblemInfo>)
    ensures fresh(resp.body) && resp.status == resp.body.status
    ensures resp.body.View() == NotAuthorizedProblem()
  {
    var problem := ProblemInfo.ForNotAuthorized();
    resp := BuildProblemResponse(problem);
  }

  /** `handle(ConstraintViolationException)`. */
  method HandleConstraintViolation(violations: seq<Violation>) returns (resp: ResponseEntity<ProblemInfo>)
    ensures fresh(resp.body) && resp.status == resp.body.status
    ensures resp.body.View() == ConstraintViolationProblem(violations)
  {
    var problem := ProblemInfo.ForConstraintViolation(violations);
    resp := BuildProblemResponse(problem);
  }

  /** `handle(PlatformHttpException)`: the exception's status, its message as title. */
  method HandlePlatformHttp(message: string, httpStatus: Status) returns (resp: ResponseEntity<ProblemInfo>)
    ensures fresh(resp.body) && resp.status == resp.body.status
    ensures resp.body.View() == PlatformHttpProblem(message, httpStatus)
    ensures resp.status == Code(httpStatus)
  {
    var problem := ProblemInfo.ForPlatformHttp(message, httpStatus);
    resp := BuildProblemResponse(problem);
  }

  /** `handle(DateTimeParseException)`. */
  method HandleDateTimeParse(message: string) returns (resp: ResponseEntity<ProblemInfo>)
    ensures fresh(resp.body) && resp.status == resp.body.status
    ensures resp.body.View() == DateParseProblem(message)
  {
    var problem := ProblemInfo.ForDateTimeParse(message);
    resp := BuildProblemResponse(problem);
  }

  /** `catchAllOthers(th)`: two walks down the cause chain, then the generic 500. */
  method CatchAllOthers(chain: seq<ExKind>) returns (resp: ResponseEntity<ProblemInfo>)
    ensures fresh(resp.body) && resp.status == resp.body.status
    ensures resp.body.View() == CatchAllProblem(chain)
  {
    var cause := 0;
    while cause < |chain|
      invariant 0 <= cause <= |chain|
      invariant forall k :: 0 <= k < cause ==> !IsConstraintViolation(chain[k])
    {
      if chain[cause].ConstraintViolation? {
        resp := HandleConstraintViolation(chain[cause].violations);
        return;
      }
      cause := cause + 1;
    }
    cause := 0;
    while cause < |chain|
      invariant 0 <= cause <= |chain|
      invariant forall k :: 0 <= k < cause ==> !IsDateTimeParse(chain[k])
    {
      if chain[cause].DateTimeParse? {
        resp := HandleDateTimeParse(chain[cause].message);
        return;
      }
      cause := cause + 1;
    }
    var problem := new ProblemInfo.AllArgs(Some(FallbackTitle), Some(TypeBlank), 500, None, None);
    resp := BuildProblemResponse(problem);
  }

  /**
   * A constraint violation anywhere in the chain decides the answer, whatever
   * else the chain holds (a date-parse failure above it included): the
   * violations handled are those of the first one from the top.
   */
  lemma ConstraintViolationWins(chain: seq<ExKind>, i: nat)
    requires i < |chain| && chain[i].ConstraintViolation?
    ensures exists j :: (0 <= j <= i && chain[j].ConstraintViolation?
      && (forall k :: 0 <= k < j ==> !chain[k].ConstraintViolation?)
      && CatchAllProblem(chain) == ConstraintViolationProblem(chain[j].violations))
    ensures CatchAllProblem(chain).status == 400
    ensures CatchAllProblem(chain).problemType == Some(TypeConstraintViolations)
  {
    var r := FirstWhere(chain, IsConstraintViolation);
    assert IsConstraintViolation(chain[i]);
    var j := r.value;
    assert j <= i;
  }

  /** Within the first walk, the violation handled is the topmost one. */
  lemma TopmostViolationHandled(above: seq<ExKind>, violations: seq<Violation>, below: seq<ExKind>)
    requires forall k :: 0 <= k < |above| ==> !above[k].ConstraintViolation?
    ensures CatchAllProblem(above + [ConstraintViolation(violations)] + below)
         == ConstraintViolationProblem(violations)
  {
    var chain := above + [ConstraintViolation(violations)] + below;
    assert chain[|above|] == ConstraintViolation(violations);
    assert forall k :: 0 <= k < |above| ==> chain[k] == above[k];
    var r := FirstWhere(chain, IsConstraintViolation);
    assert IsConstraintViolation(chain[|above|]);
    assert r.value == |above|;
  }

  /**
   * Within the second walk, the date-parse failure handled is the topmost one,
   * provided the chain holds no constraint violation at all.
   */
  lemma TopmostParseFailureHandled(above: seq<ExKind>, message: string, below: seq<ExKind>)
    requires forall k :: 0 <= k < |above| ==> !above[k].DateTimeParse? && !above[k].ConstraintViolation?
    requires forall k :: 0 <= k < |below| ==> !below[k].ConstraintViolation?
    ensures CatchAllProblem(above + [DateTimeParse(message)] + below) == DateParseProblem(message)
  {
    var chain := above + [DateTimeParse(message)] + below;
    assert chain[|above|] == DateTimeParse(message);
    assert forall k :: 0 <= k < |above| ==> chain[k] == above[k];
    assert forall k :: |above| < k < |chain| ==> chain[k] == below[k - |above| - 1];
    assert FirstWhere(chain, IsConstraintViolation).None?;
    var r := FirstWhere(chain, IsDateTimeParse);
    assert IsDateTimeParse(chain[|above|]);
    assert r.value == |above|;
  }

  /**
   * The date-parse problem is the answer exactly when the chain holds a
   * date-parse failure and no constraint violation anywhere.
   */
  lemma ParseProblemOnlyWithoutViolation(chain: seq<ExKind>)
    ensures CatchAllProblem(chain).title == Some(DateParseTitle)
        <==> ((forall k :: 0 <= k < |chain| ==> !chain[k].ConstraintViolation?)
              && (exists k :: 0 <= k < |chain| && chain[k].DateTimeParse?))
  {
    var cv := FirstWhere(chain, IsConstraintViolation);
    var dp := FirstWhere(chain, IsDateTimeParse);
    if cv.None? {
      assert forall k :: 0 <= k < |chain| ==> !IsConstraintViolation(chain[k]);
      if dp.Some? {
        assert IsDateTimeParse(chain[dp.value]);
      } else {
        assert forall k :: 0 <= k < |chain| ==> !IsDateTimeParse(chain[k]);
        assert FallbackTitle != DateParseTitle;
      }
    } else {
      assert IsConstraintViolation(chain[cv.value]);
      assert ConstraintViolationTitle != DateParseTitle;
    }
  }

  /** The generic 500 is the answer exactly when neither kind occurs anywhere in the chain. */
  lemma FallbackOnlyWhenNothingRecognised(chain: seq<ExKind>)
    ensures CatchAllProblem(chain) == FallbackProblem()
      <==> forall k :: 0 <= k < |chain| ==> !chain[k].ConstraintViolation? && !chain[k].DateTimeParse?
    ensures CatchAllProblem(chain).status == 500 <==> CatchAllProblem(chain) == FallbackProblem()
  {
    var cv := FirstWhere(chain, IsConstraintViolation);
    var dp := FirstWhere(chain, IsDateTimeParse);
    if cv.Some? {
      assert IsConstraintViolation(chain[cv.value]);
    } else if dp.Some? {
      assert IsDateTimeParse(chain[dp.value]);
    } else {
      assert forall k :: 0 <= k < |chain| ==> !IsConstraintViolation(chain[k]) && !IsDateTimeParse(chain[k]);
    }
  }

  /**
   * A request whose date cannot be parsed (the failure arrives wrapped in
   * other exceptions) is answered with 400 and a non-empty error list.
   */
  lemma WrappedParseFailureGives400(chain: seq<ExKind>, k: nat)
    requires k < |chain| && chain[k].DateTimeParse?
    requires forall i :: 0 <= i < |chain| ==> !chain[i].ConstraintViolation?
    ensures CatchAllProblem(chain).status == 400
    ensures CatchAllProblem(chain).errors.Some? && |CatchAllProblem(chain).errors.value| > 0
  {
    assert forall i :: 0 <= i < |chain| ==> !IsConstraintViolation(chain[i]);
    assert IsDateTimeParse(chain[k]);
  }

  /**
   * A storage failure reaches the client as a 500 of type `/errors/general`
   * whose title is the fixed message, with no driver detail.
   */
  lemma StorageFailureBecomes500(date: Instant, productId: int, brandId: int)
    ensures var r := FindPriceByDate(Unavailable, date, productId, brandId);
      && r.Failure? && r.error.PlatformHttp?
      && PlatformHttpProblem(r.error.message, r.error.httpStatus)
         == Problem(Some(StorageFailureMessage), Some(TypeGeneral), 500, Some("Internal Server Error"), None)
  {
  }
}
