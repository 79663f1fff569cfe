/**
 * `PricesController.searchRates`: asks the data access layer for the price in
 * force and answers 200 with it, or 404 with a problem body when there is none.
 * Exceptions from the data access layer propagate to the exception handler.
 */
module PricesApi {
  import opened Wrappers
  import opened Http
  import opened Errors
  import opened Problems
  import opened RatedPrices
  import opened PriceDao

  const NotFoundTitle := "Price not found for the given parameters"

  /** The body of a `ResponseEntity<Object>`: a price or a problem. */
  datatype Body = PriceBody(price: RatedPrice) | ProblemBody(problem: ProblemInfo)

  /** How a call ends: with a response, or with an exception thrown to the caller. */
  datatype Outcome = Returned(response: ResponseEntity<Body>) | Threw(exception: ExKind)

  /**
   * The not-found body, built with the builder from status and title only:
   * type, reason phrase and error list stay null.
   */
  function NotFoundProblem(): (p: Problem)
    ensures p.status == 404 && p.title == Some(NotFoundTitle)
    ensures p.problemType.None? && p.statusPhrase.None? && p.errors.None?
  {
    Problem(Some(NotFoundTitle), None, 404, None, None)
  }

  /**
   * `searchRates(appliedAt, productId, brandId)`; `storage` stands for the data
   * source behind the controller's data access object.
   */
  method SearchRates(storage: Storage, appliedAt: Instant, productId: int, brandId: int) returns (out: Outcome)
    ensures var found := FindPriceByDate(storage, appliedAt, productId, brandId);
      && (found.Failure? ==> out == Threw(found.error))
      && (found.Success? && found.value.Some? ==>
            out == Returned(ResponseEntity(200, PriceBody(found.value.value))))
      && (found.Success? && found.value.None? ==>
            && out.Returned? && out.response.status == 404 && out.response.body.ProblemBody?
            && fresh(out.response.body.problem)
            && out.response.body.problem.View() == NotFoundProblem())
    ensures out.Returned? && out.response.body.ProblemBody? ==>
      out.response.status == out.response.body.problem.status
    ensures out.Returned? && out.response.status == 200 ==>
      && out.response.body.PriceBody?
      && out.response.body.price.productId == productId
      && out.response.body.price.brandId == brandId
    ensures storage.Available? ==>
      (out.Returned? && out.response.status == 404 <==> !AnyMatch(storage.rows, appliedAt, productId, brandId))
  {
    var price := FindPriceByDate(storage, appliedAt, productId, brandId);
    if price.Failure? {
      return Threw(price.error);
    }
    if price.value.Some? {
      return Returned(ResponseEntity(200, PriceBody(price.value.value)));
    }
    var problem := new ProblemInfo.AllArgs(Some(NotFoundTitle), None, 404, None, None);
    return Returned(ResponseEntity(404, ProblemBody(problem)));
  }
}
