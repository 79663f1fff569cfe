/**
 * `PriceDAO.findPriceByDate`: the price-resolution rule. The query
 *
 *   SELECT * FROM PRICES WHERE PRODUCT_ID = ? AND BRAND_ID = ?
 *     AND START_DATE <= ? AND END_DATE >= ? ORDER BY PRIORITY DESC LIMIT 1
 *
 * is modelled as a function over the table's rows; the JDBC connection is
 * replaced by a `Storage` that either holds the rows or fails.
 */
module PriceDao {
  import opened Wrappers
  import opened Http
  import opened Errors
  import opened Currencies
  import opened RatedPrices

  /** The query instant, bound to both date parameters, on the scale of the stored timestamps. */
  type Instant = int

  /** One row of the `PRICES` table. */
  datatype PriceRow = PriceRow(
    id: Uuid,
    productId: int,
    brandId: int,
    priceList: int,
    startDate: LocalDateTime,
    endDate: LocalDateTime,
    timeZone: string,
    priority: int,
    price: Decimal,
    currency: string)

  /** The data source: reachable with its rows, or failing with an `SQLException`. */
  datatype Storage = Available(rows: seq<PriceRow>) | Unavailable

  /** The message of the exception that replaces any `SQLException`. */
  const StorageFailureMessage := "Failed to retrieve prices from the database"

  /** The `WHERE` clause: same product and brand, window containing `t` at both ends inclusive. */
  predicate Matches(row: PriceRow, t: Instant, productId: int, brandId: int)
  {
    row.productId == productId && row.brandId == brandId && row.startDate <= t && row.endDate >= t
  }

  /** Some row of `rows` satisfies the `WHERE` clause. */
  predicate AnyMatch(rows: seq<PriceRow>, t: Instant, productId: int, brandId: int)
  {
    exists i :: 0 <= i < |rows| && Matches(rows[i], t, productId, brandId)
  }

  /**
   * A row `ORDER BY PRIORITY DESC LIMIT 1` may return: it matches, and no
   * matching row has a higher priority. The database may return any of them.
   */
  predicate IsMaximalMatch(rows: seq<PriceRow>, t: Instant, productId: int, brandId: int, row: PriceRow)
  {
    && row in rows
    && Matches(row, t, productId, brandId)
    && forall i :: 0 <= i < |rows| && Matches(rows[i], t, productId, brandId) ==> rows[i].priority <= row.priority
  }

  /**
   * The row the query returns, if any. Among rows of equal maximal priority it
   * takes the first in table order, one of the choices the database may make.
   */
  function SelectRow(rows: seq<PriceRow>, t: Instant, productId: int, brandId: int): (r: Option<PriceRow>)
    ensures r.None? <==> !AnyMatch(rows, t, productId, brandId)
    ensures r.Some? ==> IsMaximalMatch(rows, t, productId, brandId, r.value)
  {
    if rows == [] then None
    else
      var rest := SelectRow(rows[1..], t, productId, brandId);
      assert forall i :: 1 <= i < |rows| ==> rows[i] == rows[1..][i - 1];
      if !Matches(rows[0], t, productId, brandId) then rest
      else if rest.None? || rest.value.priority <= rows[0].priority then Some(rows[0])
      else rest
  }

  /** All rows the query may return share one priority: the tie-break never changes the priority. */
  lemma MaximalMatchesSamePriority(rows: seq<PriceRow>, t: Instant, productId: int, brandId: int,
                                   a: PriceRow, b: PriceRow)
    requires IsMaximalMatch(rows, t, productId, brandId, a)
    requires IsMaximalMatch(rows, t, productId, brandId, b)
    ensures a.priority == b.priority
  {
    var i :| 0 <= i < |rows| && rows[i] == a;
    var j :| 0 <= j < |rows| && rows[j] == b;
    assert rows[i].priority <= b.priority;
    assert rows[j].priority <= a.priority;
  }

  /**
   * When the matching rows have pairwise distinct priorities the query's
   * answer is determined: every admissible row is the selected one.
   */
  lemma SelectionDeterminedByDistinctPriorities(rows: seq<PriceRow>, t: Instant, productId: int, brandId: int,
                                                row: PriceRow)
    requires forall i, j :: 0 <= i < |rows| && 0 <= j < |rows| && Matches(rows[i], t, productId, brandId)
               && Matches(rows[j], t, productId, brandId) && rows[i].priority == rows[j].priority
               ==> rows[i] == rows[j]
    requires IsMaximalMatch(rows, t, productId, brandId, row)
    ensures SelectRow(rows, t, productId, brandId) == Some(row)
  {
    assert AnyMatch(rows, t, productId, brandId) by {
      var i :| 0 <= i < |rows| && rows[i] == row;
    }
    var sel := SelectRow(rows, t, productId, brandId).value;
    MaximalMatchesSamePriority(rows, t, productId, brandId, sel, row);
    var i :| 0 <= i < |rows| && rows[i] == row;
    var j :| 0 <= j < |rows| && rows[j] == sel;
    assert rows[i] == rows[j];
  }

  /** The rows that satisfy the `WHERE` clause, in table order. */
  function MatchingRows(rows: seq<PriceRow>, t: Instant, productId: int, brandId: int): (m: seq<PriceRow>)
    ensures forall row :: row in m <==> row in rows && Matches(row, t, productId, brandId)
  {
    if rows == [] then []
    else if Matches(rows[0], t, productId, brandId) then [rows[0]] + MatchingRows(rows[1..], t, productId, brandId)
    else MatchingRows(rows[1..], t, productId, brandId)
  }

  /**
   * Only the rows that satisfy the `WHERE` clause decide the answer: rows of
   * another product or brand, or whose window misses the instant, are irrelevant.
   */
  lemma {:induction false} SelectRowOnlyMatchingRows(rows: seq<PriceRow>, t: Instant, productId: int, brandId: int)
    ensures SelectRow(rows, t, productId, brandId)
         == SelectRow(MatchingRows(rows, t, productId, brandId), t, productId, brandId)
  {
    if rows != [] {
      SelectRowOnlyMatchingRows(rows[1..], t, productId, brandId);
      var m := MatchingRows(rows, t, productId, brandId);
      if Matches(rows[0], t, productId, brandId) {
        assert m[1..] == MatchingRows(rows[1..], t, productId, brandId);
      }
    }
  }

  /**
   * `mapResultSetToRatedPrice`: copies the row's columns into a fresh price
   * (`PRICE_LIST` becomes `rateListId`). The applied window is the row's own
   * start and end read in the row's own `TIME_ZONE`. The currency column is
   * read with `CurrencyEnum.valueOf`, which throws on an unknown name.
   */
  function MapRow(row: PriceRow): (r: Result<RatedPrice, ExKind>)
    ensures r.Success? <==> exists c: Currency :: Name(c) == row.currency
    ensures r.Failure? ==> r.error.IllegalArgument?
    ensures r.Success? ==>
      && r.value.id == row.id
      && r.value.productId == row.productId
      && r.value.brandId == row.brandId
      && r.value.rateListId == row.priceList
      && r.value.price == row.price
      && Name(r.value.currency) == row.currency
      && r.value.appliedStartAt == AtZone(row.startDate, row.timeZone)
      && r.value.appliedEndAt == AtZone(row.endDate, row.timeZone)
  {
    match ValueOf(row.currency)
    case Failure(e) => Failure(e)
    case Success(c) =>
      Success(RatedPrice(row.id, row.productId, row.brandId, row.priceList,
                         AtZone(row.startDate, row.timeZone), AtZone(row.endDate, row.timeZone),
                         row.price, c))
  }

  /**
   * `findPriceByDate(date, productId, brandId)`: the mapped row of maximal
   * priority among those matching, `None` (null) when nothing matches, and a
   * `PlatformHttpException` with status 500 and a fixed, driver-free message
   * when the storage fails.
   */
  function FindPriceByDate(storage: Storage, date: Instant, productId: int, brandId: int)
    : (r: Result<Option<RatedPrice>, ExKind>)
    ensures storage.Unavailable? ==>
      r == Failure(PlatformHttp(StorageFailureMessage, INTERNAL_SERVER_ERROR))
    ensures storage.Available? ==>
      (r == Success(None) <==> !AnyMatch(storage.rows, date, productId, brandId))
    ensures r.Success? && r.value.Some? ==>
      && storage.Available?
      && exists row :: IsMaximalMatch(storage.rows, date, productId, brandId, row)
                       && MapRow(row) == Success(r.value.value)
    ensures r.Success? && r.value.Some? ==>
      r.value.value.productId == productId && r.value.value.brandId == brandId
    ensures storage.Available? && r.Failure? ==> r.error.IllegalArgument?
    ensures storage.Available? && r.Failure? ==>
      exists row :: IsMaximalMatch(storage.rows, date, productId, brandId, row)
                    && MapRow(row) == Failure(r.error)
    ensures storage.Available?
      && (forall row :: IsMaximalMatch(storage.rows, date, productId, brandId, row) ==> MapRow(row).Success?)
      ==> r.Success?
  {
    match storage
    case Unavailable => Failure(PlatformHttp(StorageFailureMessage, INTERNAL_SERVER_ERROR))
    case Available(rows) =>
      match SelectRow(rows, date, productId, brandId)
      case None => Success(None)
      case Some(row) =>
        match MapRow(row)
        case Failure(e) => Failure(e)
        case Success(price) => Success(Some(price))
  }

  /**
   * The returned row's stored start and end (the `local` parts of the applied
   * window) bracket the query instant on the comparison scale, and both ends
   * carry the row's one zone.
   */
  lemma FoundPriceWindowContainsInstant(storage: Storage, date: Instant, productId: int, brandId: int)
    requires FindPriceByDate(storage, date, productId, brandId).Success?
    requires FindPriceByDate(storage, date, productId, brandId).value.Some?
    ensures var p := FindPriceByDate(storage, date, productId, brandId).value.value;
      p.appliedStartAt.local <= date <= p.appliedEndAt.local
      && p.appliedStartAt.zone == p.appliedEndAt.zone
  {
  }
}
