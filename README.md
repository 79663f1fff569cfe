# Price lookup service — a Dafny model

This project models the logic of a single-endpoint price-lookup web service
(`GET /api/prices/search-rates?appliedAt=…&productId=…&brandId=…`):

- **Price resolution** (`PriceDao`): among the rows of the `PRICES` table with the
  requested product and brand whose validity window contains the query instant
  (inclusive at both ends), the query returns one row of maximal `PRIORITY`, or
  nothing. The row is copied into a `RatedPrice`; its applied start and end are the
  row's own timestamps read in the row's own time zone. A storage failure becomes a
  `PlatformHttpException` with status 500 and a fixed message.
- **Lookup outcome** (`PricesApi`): a found price is a 200 response whose body is that
  price; an absent one is a 404 problem with a fixed title.
- **Error classification** (`ExceptionHandler`): each exception becomes a problem
  response whose HTTP status is the problem's own `status`. `catchAllOthers` walks the
  cause chain twice: a constraint violation anywhere wins; otherwise the topmost
  date-parse failure; otherwise a generic 500.
- **Problem bodies** (`Problems`): the `ProblemInfo` constructors and factories,
  shaped after the problem-details object of RFC 7807 (section 3.1 members
  `type`, `title`, `status`; `about:blank` as the default type, section 4.2).
- **Currency codes** (`Currencies`): the closed enumeration and its string round trip.

Files: `wrappers.dfy` (Option, Result), `http.dfy` (the Jakarta REST `Response.Status`
constants and Spring's `ResponseEntity`), `errors.dfy` (`ErrorInfo`, constraint
violations, exception kinds including `PlatformHttpException`), `currency.dfy`,
`rated_price.dfy` (`RatedPriceDTO`), `problem_info.dfy`, `price_dao.dfy`,
`exception_handler.dfy`, `prices_controller.dfy`.

Modelling choices:

- Time is an abstract ordered scale (`int`): the query instant and the stored
  zone-naive timestamps are compared on it. A converted timestamp is kept symbolic,
  `AtZone(local, zone)`.
- `ProblemInfo` is a class: its constructors assign fields one at a time and
  `forStatusAndTitle` sets the title of the object it has just built. `View()` is its
  content as a `Problem` value. Each factory method ensures `View()` equals a value
  function (`StatusProblem`, `ConstraintViolationProblem`, …), and the properties of
  the factories are stated on those functions.
- An exception's cause chain is a finite sequence: index 0 is the thrown exception,
  index k+1 is the cause of index k.
- `ORDER BY PRIORITY DESC LIMIT 1` does not fix which of several rows of equal top
  priority comes back. `SelectRow` takes the first in table order, and its contract
  says only that the row is a maximal match (`IsMaximalMatch`).
- The 404 body and the date-parse body are built with the builder, so their `type`
  and `statusPhrase` are null.

## Model

| member | source | states |
|---|---|---|
| `Http.FromStatusCode` | src/main/java/org/acme/pricing/exception/ProblemInfo.java:62 | a constant found for a code carries that code |
| `Http.FromStatusCodeOfCode` | src/main/java/org/acme/pricing/exception/ProblemInfo.java:62-64 | every status constant is found again from its own code (codes are distinct) |
| `Http.FromStatusCodeNone` | src/main/java/org/acme/pricing/exception/ProblemInfo.java:62-64 | `fromStatusCode` yields null exactly for codes no constant carries |
| `Currencies.ToString` | src/main/java/org/acme/pricing/dto/CurrencyEnum.java:39-42 | `toString()` is the code string, which names this constant and no other |
| `Currencies.GetValueInjective` | src/main/java/org/acme/pricing/dto/CurrencyEnum.java:8-16 | the five code strings are pairwise distinct |
| `Currencies.ValuesComplete` | src/main/java/org/acme/pricing/dto/CurrencyEnum.java:8-16 | `values()` lists every constant exactly once |
| `Currencies.FromValue` | src/main/java/org/acme/pricing/dto/CurrencyEnum.java:24-32 | succeeds iff the string is one of the five codes; then `getValue` of the result is the string; `fromValue(getValue(c)) == c` for every constant; otherwise `IllegalArgumentException` with the message "Unexpected value '…'" |
| `Currencies.ValueOf` | src/main/java/org/acme/pricing/data/PriceDAO.java:68 | lookup by constant name: the result has that name; every name resolves to its constant; an unknown name throws `IllegalArgumentException` |
| `Currencies.NameIsValue` | src/main/java/org/acme/pricing/dto/CurrencyEnum.java:8-16 | each constant's name equals its code, so `valueOf(getValue(c)) == c` |
| `Problems.DefaultProblem` | src/main/java/org/acme/pricing/exception/ProblemInfo.java:54-58 | the no-argument constructor gives type `about:blank`, status 500 and a non-null title |
| `Problems.StatusProblem` | src/main/java/org/acme/pricing/exception/ProblemInfo.java:61-69 | defined iff the code is a known status; status is the code, reason phrase that of the code's constant; type is `/errors/general` exactly when the code is 500, else `about:blank`; title and errors null |
| `Problems.TypedProblem` | src/main/java/org/acme/pricing/exception/ProblemInfo.java:79-85 | status code and reason phrase come from the same status constant; type, title and errors as given |
| `Problems.StatusAndTitleProblem` | src/main/java/org/acme/pricing/exception/ProblemInfo.java:107-112 | the code of a status constant is always known; the result carries the given title and the status, phrase and type `forStatus` gives, with no errors |
| `Problems.StatusAndTitleOnlyRetitles` | src/main/java/org/acme/pricing/exception/ProblemInfo.java:107-112 | `forStatusAndTitle` differs from `forStatus` in the title only |
| `Problems.ViolationErrors` | src/main/java/org/acme/pricing/exception/ProblemInfo.java:92-94 | one `ErrorInfo` per violation, in order, with the message as detail, the property path as instance and the invalid value as value |
| `Problems.ConstraintViolationProblem` | src/main/java/org/acme/pricing/exception/ProblemInfo.java:91-97 | status 400 "Bad Request", type `/errors/constrains`, title "Constrains violation", errors one per violation |
| `Problems.NotAuthorizedProblem` | src/main/java/org/acme/pricing/exception/ProblemInfo.java:87-89 | status 401 "Unauthorized", title "Unauthorized request", type `about:blank`, no errors |
| `Problems.PlatformHttpProblem` | src/main/java/org/acme/pricing/exception/ProblemInfo.java:99-101 | status and reason phrase of the exception's status; the exception's message as title; no errors |
| `Problems.DateParseProblem` | src/main/java/org/acme/pricing/exception/ProblemInfo.java:115-119 | status 400, title "Problems parsing a date", exactly one error whose instance is `date` and whose detail is the exception's message; type and reason phrase null |
| `Problems.ProblemInfo.constructor` | src/main/java/org/acme/pricing/exception/ProblemInfo.java:54-58 | the new object holds `DefaultProblem()` |
| `Problems.ProblemInfo.OfStatus` | src/main/java/org/acme/pricing/exception/ProblemInfo.java:61-69 | for a known code the new object holds `StatusProblem(code)` |
| `Problems.ProblemInfo.Copy` | src/main/java/org/acme/pricing/exception/ProblemInfo.java:71-77 | the copy has the same type, title, status, reason phrase and errors (so errors are null iff the original's are) |
| `Problems.ProblemInfo.Typed` | src/main/java/org/acme/pricing/exception/ProblemInfo.java:79-85 | the new object holds `TypedProblem(…)` |
| `Problems.ProblemInfo.AllArgs` | src/main/java/org/acme/pricing/exception/ProblemInfo.java:36-39 | the builder's constructor stores exactly the given fields |
| `Problems.ProblemInfo.SetTitle` | src/main/java/org/acme/pricing/exception/ProblemInfo.java:110 | only the title changes |
| `Problems.ProblemInfo.ForNotAuthorized` | src/main/java/org/acme/pricing/exception/ProblemInfo.java:87-89 | a fresh object holding `NotAuthorizedProblem()` |
| `Problems.ProblemInfo.ForConstraintViolation` | src/main/java/org/acme/pricing/exception/ProblemInfo.java:91-97 | a fresh object holding `ConstraintViolationProblem(violations)` |
| `Problems.ProblemInfo.ForPlatformHttp` | src/main/java/org/acme/pricing/exception/ProblemInfo.java:99-101 | a fresh object holding `PlatformHttpProblem(message, status)` |
| `Problems.ProblemInfo.ForStatus` | src/main/java/org/acme/pricing/exception/ProblemInfo.java:103-105 | for a known code, a fresh object holding `StatusProblem(code)` |
| `Problems.ProblemInfo.ForStatusAndTitle` | src/main/java/org/acme/pricing/exception/ProblemInfo.java:107-112 | a fresh object holding `StatusAndTitleProblem(status, title)` |
| `Problems.ProblemInfo.ForDateTimeParse` | src/main/java/org/acme/pricing/exception/ProblemInfo.java:115-119 | a fresh object holding `DateParseProblem(message)` |
| `PriceDao.SelectRow` | src/main/java/org/acme/pricing/data/PriceDAO.java:30-37 | nothing is returned iff no row matches product, brand and window; a returned row is in the table, matches (start <= t and end >= t, the same instant for both) and has a priority >= that of every matching row |
| `PriceDao.MaximalMatchesSamePriority` | src/main/java/org/acme/pricing/data/PriceDAO.java:36-37 | all rows the query may return have the same priority |
| `PriceDao.SelectionDeterminedByDistinctPriorities` | src/main/java/org/acme/pricing/data/PriceDAO.java:36-37 | when matching rows have distinct priorities, the selected row is the unique maximal match |
| `PriceDao.MatchingRows` | src/main/java/org/acme/pricing/data/PriceDAO.java:32-35 | holds exactly the table rows that satisfy the `WHERE` clause |
| `PriceDao.SelectRowOnlyMatchingRows` | src/main/java/org/acme/pricing/data/PriceDAO.java:32-37 | the answer is the same when computed over the matching rows only |
| `PriceDao.MapRow` | src/main/java/org/acme/pricing/data/PriceDAO.java:61-80 | id, product, brand, `PRICE_LIST` as `rateListId`, price and currency are copied unchanged; applied start and end are the row's own start and end in the row's own `TIME_ZONE`; fails with `IllegalArgumentException` iff the currency column names no constant |
| `PriceDao.FindPriceByDate` | src/main/java/org/acme/pricing/data/PriceDAO.java:29-58 | storage failure gives `PlatformHttpException` (500, "Failed to retrieve prices from the database"); with storage, null iff no row matches; a returned price is the mapping of a maximal match and has the requested product and brand; with storage, a failure is the `IllegalArgumentException` of mapping a maximal match whose currency names no constant, so when every maximal match has a valid currency a result is returned |
| `PriceDao.FoundPriceWindowContainsInstant` | src/main/java/org/acme/pricing/data/PriceDAO.java:34-35 | the returned row's stored start and end (the `local` parts) bracket the query instant on the comparison scale, and both ends carry the row's one zone |
| `ExceptionHandler.FirstWhere` | src/main/java/org/acme/pricing/exception/PlatformExceptionHandler.java:52-61 | the walk from the top stops at the first element passing the test, or finds none iff no element passes |
| `ExceptionHandler.FallbackProblem` | src/main/java/org/acme/pricing/exception/PlatformExceptionHandler.java:76-78 | status 500, type `about:blank`, the fixed "banana peel" title, no phrase, no errors |
| `ExceptionHandler.BuildProblemResponse` | src/main/java/org/acme/pricing/exception/PlatformExceptionHandler.java:81-83 | the response status is the problem's `status`, the body the problem itself |
| `ExceptionHandler.HandleNotAuthorized` | src/main/java/org/acme/pricing/exception/PlatformExceptionHandler.java:25-29 | a response with status equal to its body's, the body `NotAuthorizedProblem()` |
| `ExceptionHandler.HandleConstraintViolation` | src/main/java/org/acme/pricing/exception/PlatformExceptionHandler.java:31-35 | a response with status equal to its body's, the body the constraint-violation problem |
| `ExceptionHandler.HandlePlatformHttp` | src/main/java/org/acme/pricing/exception/PlatformExceptionHandler.java:37-41 | the response status is the exception's status; the body has the exception's message as title |
| `ExceptionHandler.HandleDateTimeParse` | src/main/java/org/acme/pricing/exception/PlatformExceptionHandler.java:43-47 | a response with status equal to its body's, the body the date-parse problem |
| `ExceptionHandler.CatchAllOthers` | src/main/java/org/acme/pricing/exception/PlatformExceptionHandler.java:49-79 | the two loops answer with `CatchAllProblem(chain)`, in a response whose status is the body's status |
| `ExceptionHandler.ConstraintViolationWins` | src/main/java/org/acme/pricing/exception/PlatformExceptionHandler.java:52-61 | a constraint violation anywhere in the chain yields the constraint-violation problem (400) of the topmost violation, whatever else the chain holds |
| `ExceptionHandler.TopmostViolationHandled` | src/main/java/org/acme/pricing/exception/PlatformExceptionHandler.java:53-57 | the first violation walking down from the top is the one handled |
| `ExceptionHandler.TopmostParseFailureHandled` | src/main/java/org/acme/pricing/exception/PlatformExceptionHandler.java:63-68 | with no violation in the chain, the first date-parse failure from the top is the one handled |
| `ExceptionHandler.ParseProblemOnlyWithoutViolation` | src/main/java/org/acme/pricing/exception/PlatformExceptionHandler.java:52-72 | the date-parse problem is chosen iff the chain holds a date-parse failure and no violation anywhere, even below it |
| `ExceptionHandler.FallbackOnlyWhenNothingRecognised` | src/main/java/org/acme/pricing/exception/PlatformExceptionHandler.java:73-78 | the generic 500 is the answer iff neither kind occurs in the chain, and it is the only 500 `catchAllOthers` gives |
| `ExceptionHandler.WrappedParseFailureGives400` | src/main/java/org/acme/pricing/exception/PlatformExceptionHandler.java:62-72 | a date-parse failure wrapped in other exceptions gives status 400 with a non-empty error list |
| `ExceptionHandler.StorageFailureBecomes500` | src/main/java/org/acme/pricing/data/PriceDAO.java:54-56 | a storage failure reaches the client as status 500, type `/errors/general`, the fixed title, no driver detail |
| `PricesApi.NotFoundProblem` | src/main/java/org/acme/pricing/api/PricesController.java:68 | status 404, title "Price not found for the given parameters"; type, reason phrase and errors null |
| `PricesApi.SearchRates` | src/main/java/org/acme/pricing/api/PricesController.java:60-70 | one lookup with the request's own arguments; a found price is a 200 whose body is exactly that price (with the requested product and brand); none is a 404 with the not-found body; data-access exceptions propagate; with storage available, 404 iff no row matches |

## Left out

- JDBC and the data source: connections, prepared statements, parameter binding and the result-set cursor are replaced by `Storage`, which either holds the table's rows or fails. Every `SQLException` is one failure mode, `Unavailable`.
- Time zones: `ZoneId.of` and `atZone(...).toOffsetDateTime()` depend on the time-zone database, so a converted timestamp is kept symbolic, `AtZone(local, zone)`. An unknown `TIME_ZONE` value, which makes `ZoneId.of` throw, is not modelled.
- The comparison of stored zone-naive timestamps with `Timestamp.from(instant)` uses the JVM default zone, not the row's `TIME_ZONE`. Both sides are one abstract ordered scale here, and the model makes no claim about zone-correctness.
- `PriceDao.FoundPriceWindowContainsInstant`: only the stored start and end bracket the instant. The applied window (those timestamps read in the row's `TIME_ZONE`) need not contain the instant when that zone differs from the JVM default zone.
- Parsing of the `appliedAt` text into an offset date-time is done by the web framework before `searchRates` runs. Only the `DateTimeParseException` kind it raises is modelled.
- Which `@ExceptionHandler` method the framework picks for an exception is framework behaviour and is not modelled. Each handler is modelled on its own.
- Missing query parameters reach `searchRates` as null and fail with a `NullPointerException`; null arguments and null table columns are not modelled.
- `PricesApi.SearchRates`: "the data access object is called exactly once" appears only as the outcome being a function of one `FindPriceByDate` call with the request's own arguments. No call count is kept.
- `PriceDao.SelectRow`: the tie-break among rows of equal top priority is left to the database. The function takes the first in table order, and its contract promises only a maximal match.
- `Problems.ProblemInfo.OfStatus`: an unknown code makes the source throw a `NullPointerException`; the constructor excludes it with a precondition instead (`StatusProblem` returns `None` for it). Its only caller passes a known code.
- `Problems.ProblemInfo.ForStatus`: an unknown code, for which the source throws a `NullPointerException`, is excluded by a precondition. Every caller in the service passes the code of a status constant (`FromStatusCodeOfCode`).
- `Problems.ProblemInfo.Copy`: the error list is an immutable value here, so the copy's fresh `LinkedList` is a value copy. List identity and aliasing are not modelled.
- `Http.Status` holds the JAX-RS 2.1 status constants. Codes added by later Jakarta REST releases (308, 451) are treated as unknown.
- URIs are strings: the syntax check of `URI.create` is not modelled. An `ErrorInfo`'s invalid value (an `Object`) is its rendering as text, and a violation set's iteration order is the order of the sequence.
- `BigDecimal` prices are copied only, so they are an opaque `Decimal` with no arithmetic.
- Logging, request concurrency, the framework wiring, OpenAPI metadata, the H2 server and the JSON mapper settings are framework configuration or I/O.
- The concrete prices the tests expect (35.50, 25.45, …) depend on table contents that the model does not include, so they are not checked.
- Cyclic cause chains: `catchAllOthers` walks `getCause()` until null, so a cyclic chain with no recognised exception would loop forever. The chain here is a finite sequence, so that case is not modelled.
