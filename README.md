# Subscription service core, modelled in Dafny

This project models the business core of a REST service that records users'
paid subscriptions to online services and sums what they cost over a period.
It covers three parts of the Go code base:

- **Month-year date normaliser** (`pkg/utils/date.go`). `ParseToMonthYear` tries six `time.Parse` layouts in order:
  `2006-01-02`, `02.01.2006`, `01-2006`, `2006-01`, `01/2006`, `2006/01`.
  - It returns the first day of the parsed month, so the model returns a `(year, month)` pair.
  - The parse is strict. Years have four digits and months and days two. The month must be 1..12. The day must exist in its month. Trailing text is rejected.
  - The six layouts are proved pairwise exclusive, so the order in which they are tried never changes the result.
- **Subscription use case** (`pkg/usecase/subscription.go`). Each operation makes an ordered run of early-exit checks, then one call into the repository.
  - The use case is a class holding the store.
  - Its invariant is that every stored row passed the checks: non-empty service name and user id, non-negative price, well-formed months.
- **PostgreSQL repository** (`pkg/infrastructure/postgres/subscription_repository.go`).
  - **Prorated summary.** `GetSummary`'s SQL arithmetic is written as pure functions. It is proved against an independent definition: the count of months in which a subscription is active.
  - **Placeholder numbering.** The `$n` numbering of the dynamic queries is a small imperative builder. The builder is proved to select exactly the rows that match the filters.
  - **The table.** It is an in-memory class whose methods realise the INSERT, SELECT, UPDATE and DELETE statements. Rows are kept in insertion order. A logical clock stands for `now()`, so `created_at` strictly increases along the table and `ORDER BY created_at DESC` reads it backwards.

Modules:
- `Wrappers`: Option and Result.
- `MinMax`: the integer minimum and maximum.
- `MonthYear`: the date parser.
- `Domain`: the records and filters of `pkg/domain/subscription.go`.
- `Summary`: the cost formula.
- `QueryBuilder`: the `$n` placeholder numbering.
- `Repository`: the store.
- `UseCase`: the business layer.

**Two places where the query's arithmetic departs from the calendar.** A prorated charge is meant to be the price times the number of months in which a subscription is active during the period. The query as written differs from that in two cases, and the model follows the code:
- **Reversed dates.** Nothing compares `end_date` with `start_date`, neither the query nor the use case. A row whose end month precedes its start month can still meet the `WHEN` condition, and it is then charged zero or a negative amount, although it is active in no month.
  - `Summary.ReversedDatesChargeNonPositive` and `Summary.ReversedDatesExample` prove the charge.
  - `UseCase.ReversedDatesAccepted` proves that Create accepts such a row.
- **Year 0.** The parser accepts the year `0000`. PostgreSQL has no year 0: Go's year 0 reaches it as 1 BC, and `EXTRACT(YEAR ...)` reads that back as -1. An overlap that runs from year 0 into year 1 or later is therefore counted 12 months too long. `Summary.YearZeroOvercharge` shows a row active in 2 months of the period being charged for 14.

The formula is proved equal to the active-month count only away from both cases: for rows with ordered dates, and for periods that do not run from year 0 into a later year.

## Model

| member | source | states |
|---|---|---|
| MonthYear.Layouts | pkg/utils/date.go:9-16 | The six layouts in the order they are tried: 2006-01-02, 02.01.2006, 01-2006, 2006-01, 01/2006, 2006/01 |
| MonthYear.Scan | pkg/utils/date.go:22 | One layout reads the whole input: the year field is four digits (0..9999), the month 1..12, or the field is left as it was |
| MonthYear.ParseLayout | pkg/utils/date.go:22 | A successful `time.Parse` yields a valid calendar date (day within the month's length, leap years included) |
| MonthYear.FirstMatch | pkg/utils/date.go:21-26 | The first layout in the list that parses gives the date; the result is a valid date |
| MonthYear.MonthYearOf | pkg/utils/date.go:21-28 | Every accepted input gives a well-formed month (year 0..9999, month 1..12) |
| MonthYear.ParseToMonthYear | pkg/utils/date.go:8-29 | The loop over the layouts returns exactly what first-match parsing defines: the parsed month, or the invalid-format error |
| MonthYear.IndexIsChronological | pkg/usecase/subscription.go:195 | The month index orders months chronologically, and equal indices mean equal months, so `After` is calendar order |
| MonthYear.After | pkg/usecase/subscription.go:195 | `time.Time.After` on two first-of-month instants is calendar order: a later year, or the same year and a later month |
| MonthYear.DaysIn | pkg/utils/date.go:22 | The day check of `time.Parse`: months have 28 to 31 days, and 29 exactly for February of a leap year |
| MonthYear.ScanFitsShape | pkg/utils/date.go:22 | Any input a layout reads has that layout's character shape (digits where fields are, the literal separators elsewhere) |
| MonthYear.ShapesExclusive | pkg/utils/date.go:9-16 | No string has the character shape of two different layouts |
| MonthYear.ScansExclusive | pkg/utils/date.go:9-16 | At most one of the six layouts can read any given input |
| MonthYear.LayoutsExclusive | pkg/utils/date.go:9-16 | At most one layout parses any input, so trying them in another order would give the same result |
| MonthYear.ScannedStartsWithDigit | pkg/utils/date.go:9-22 | Every input a layout reads starts with a digit |
| MonthYear.FirstMatchFinds | pkg/utils/date.go:21-25 | When layout i parses and no earlier layout does, the result is layout i's date |
| MonthYear.FirstMatchNone | pkg/utils/date.go:21-28 | First-match parsing fails exactly when every layout fails |
| MonthYear.ResultIsParsedMonth | pkg/utils/date.go:21-24 | If any layout parses the input, the result is that date's year and month, with the day dropped |
| MonthYear.RejectedIffNoLayoutParses | pkg/utils/date.go:28 | The invalid-format error is returned if and only if none of the six layouts parses the input |
| MonthYear.ScanFormat | pkg/utils/date.go:22 | Reading back a formatted date sets exactly the fields the layout contains, to the date's values |
| MonthYear.DigitsOfNumber | pkg/utils/date.go:22 | A digit string read as a number and written back at its width is the same string |
| MonthYear.ScanSets | pkg/utils/date.go:22 | A successful scan leaves the year in 0..9999, the month in 1..12 and the day in 0..99 when the layout names them, and the fields it does not name untouched |
| MonthYear.ScanReadsBack | pkg/utils/date.go:22 | An input a layout scans is exactly that layout's rendering of the fields it read |
| MonthYear.ParsedInputIsFormatted | pkg/utils/date.go:9-22 | Every input a layout accepts is that layout's rendering of the date it parses to, so no other spelling is accepted |
| MonthYear.ParseFormat | pkg/utils/date.go:9-22 | Every layout parses its own rendering of any valid date back to that date |
| MonthYear.MonthYearRoundTrip | pkg/utils/date.go:12-24 | Normalising a month written as MM-YYYY gives that month back |
| MonthYear.EveryLayoutNormalises | pkg/utils/date.go:9-24 | A valid date written in any of the six layouts normalises to its own year and month |
| MonthYear.DayIsIgnored | pkg/utils/date.go:24 | Two dates of the same month written in a layout with a day normalise to the same month |
| MonthYear.JanuaryExamples | pkg/utils/date.go:9-24 | "2024-01-15", "15.01.2024", "01-2024", "2024-01", "01/2024" and "2024/01" all give January 2024 |
| MonthYear.RejectedExamples | pkg/utils/date.go:21-28 | "not-a-date" and "2024-02-30" (a day February lacks) are rejected |
| Summary.Greatest | pkg/infrastructure/postgres/subscription_repository.go:187-188 | GREATEST of two months is the later one: not earlier than either, and equal to one of them |
| Summary.Least | pkg/infrastructure/postgres/subscription_repository.go:187-188 | LEAST of two months is the earlier one: not later than either, and equal to one of them |
| Summary.OverlapMonths | pkg/infrastructure/postgres/subscription_repository.go:186-188 | The year/month formula as written: the number of calendar months from the overlap's start through its end, both included, when both lie on the same side of the start of year 1; 12 more when the overlap runs from year 0 into a later year |
| Summary.SqlYear | pkg/infrastructure/postgres/subscription_repository.go:187 | `EXTRACT(YEAR ...)`: year 0 is read back as -1, because PostgreSQL has no year 0 |
| Summary.EndOr | pkg/infrastructure/postgres/subscription_repository.go:185 | `COALESCE(end_date, $2)`: an open-ended row counts as ending at the period's end |
| Summary.OverlapStart | pkg/infrastructure/postgres/subscription_repository.go:187-188 | `GREATEST(start_date, $1)`: the overlap starts at the later of the two starts |
| Summary.OverlapEnd | pkg/infrastructure/postgres/subscription_repository.go:187-188 | `LEAST(COALESCE(end_date, $2), $2)`: the overlap ends at the earlier of the two ends |
| Summary.Overlaps | pkg/infrastructure/postgres/subscription_repository.go:185 | The `WHEN` condition: the row starts by the period's end, and its end (or the period's end) is not before the period's start |
| Summary.Contribution | pkg/infrastructure/postgres/subscription_repository.go:185-191 | The CASE term: only a row that meets the `WHEN` condition and has a non-zero price is charged anything |
| Summary.Total | pkg/infrastructure/postgres/subscription_repository.go:184-194 | `COALESCE(SUM(...), 0)` over the rows matching the filters |
| Summary.OverlapInOneEra | pkg/infrastructure/postgres/subscription_repository.go:186-188 | Away from the year-0 boundary, for well-formed months, ordered dates and an ordered period, the query's month count is the calendar month count of the overlap |
| Summary.ActiveMonthsClosedForm | pkg/infrastructure/postgres/subscription_repository.go:186-188 | The count of active months in a window equals the span from the later start to the earlier end, or 0 when that span is empty |
| Summary.ContributionChargesActiveMonths | pkg/infrastructure/postgres/subscription_repository.go:184-192 | For a row with ordered dates and an ordered period away from the year-0 boundary, its term of the SUM is the price times the number of period months in which it is active |
| Summary.ContributionBounds | pkg/infrastructure/postgres/subscription_repository.go:185-188 | Under the same conditions a contributing row is charged for between 1 month and the whole period, so its term lies between 0 and price × window |
| Summary.InactiveContributesNothing | pkg/infrastructure/postgres/subscription_repository.go:185-190 | A row with ordered dates, active in no month of an ordered period, contributes 0 (a reversed row can still be charged a negative amount) |
| Summary.ContributionNonNegative | pkg/infrastructure/postgres/subscription_repository.go:185-188 | A row with well-formed ordered dates and a non-negative price, over an ordered period, is never charged a negative amount, even across year 0 |
| Summary.OpenEndedRunsThroughPeriodEnd | pkg/infrastructure/postgres/subscription_repository.go:185-188 | A row without an end date that starts by the period's end is charged from its later start through the period's end (away from the year-0 boundary) |
| Summary.ReversedDatesChargeNonPositive | pkg/infrastructure/postgres/subscription_repository.go:185-188 | A row whose end precedes its start is active in no month, yet if it meets the `WHEN` condition it is charged zero or a negative amount (no ordering guard in the query) |
| Summary.ReversedDatesExample | pkg/infrastructure/postgres/subscription_repository.go:185-188 | 2024-03..2024-01 at 100 over 2024-01..2024-03 is charged -100 |
| Summary.TotalAppend | pkg/infrastructure/postgres/subscription_repository.go:184-192 | The SUM over two groups of rows is the sum of their SUMs |
| Summary.YearZeroOvercharge | pkg/infrastructure/postgres/subscription_repository.go:187-188 | An open-ended row from 0000-12 at price 1, over 0000-12..0001-01, is active in 2 months but charged for 14 |
| Summary.TotalOfNoMatches | pkg/infrastructure/postgres/subscription_repository.go:184-194 | With no row matching the filters, COALESCE makes the total 0 |
| Summary.TotalNonNegative | pkg/infrastructure/postgres/subscription_repository.go:184-192 | Rows with well-formed ordered dates and non-negative prices, over an ordered period, never give a negative total |
| Summary.QuarterExample | pkg/infrastructure/postgres/subscription_repository.go:184-192 | 100 a month, open-ended from 2023-06, over 2024-01..2024-03 sums to 300 |
| Summary.SingleMonthExample | pkg/infrastructure/postgres/subscription_repository.go:184-192 | A one-month subscription inside the period is charged its price once |
| QueryBuilder.Selects | pkg/infrastructure/postgres/subscription_repository.go:141-155 | `WHERE 1=1 AND ...`: a row is selected when every appended condition holds for the argument bound to its placeholder |
| QueryBuilder.SelectsExactlyFilters | pkg/infrastructure/postgres/subscription_repository.go:146-155 | Equality conditions for the non-empty filters, bound to their placeholders, select exactly the rows matching both filters (AND) |
| Domain.MatchesFilters | pkg/infrastructure/postgres/subscription_repository.go:146-155 | The filters of List and GetSummary: each non-empty filter must equal its column, and the two are AND-combined |
| QueryBuilder.BuildListQuery | pkg/infrastructure/postgres/subscription_repository.go:139-158 | One condition per non-empty filter, numbered from $1; LIMIT and OFFSET take the next two indices; the argument count equals the highest placeholder; the WHERE clause selects exactly the matching rows |
| QueryBuilder.BuildSummaryQuery | pkg/infrastructure/postgres/subscription_repository.go:196-205 | The period bounds are $1 and $2; filters are numbered from $3; the argument count equals the highest placeholder; the WHERE clause selects exactly the matching rows |
| Repository.IndexOf | pkg/infrastructure/postgres/subscription_repository.go:58-60 | `WHERE id = $1` finds a row carrying the id, and finds nothing exactly when no row carries it |
| Repository.LookupFindsTheRow | pkg/infrastructure/postgres/subscription_repository.go:54-81 | With unique ids a lookup succeeds iff some row has the id, and then returns that row |
| Repository.Lookup | pkg/infrastructure/postgres/subscription_repository.go:56-80 | The SELECT by id returns a stored row carrying the id, and nothing exactly when no row carries it |
| Repository.Inserted | pkg/infrastructure/postgres/subscription_repository.go:31-33 | INSERT ... RETURNING: the given fields, the new id, and created_at = updated_at = now |
| Repository.Patched | pkg/infrastructure/postgres/subscription_repository.go:88-95 | UPDATE sets service name, price, start and end date and updated_at; id, user id and created_at are kept |
| Repository.Matching | pkg/infrastructure/postgres/subscription_repository.go:139-155 | The filtered rows are exactly the stored rows that match the filters |
| Repository.Page | pkg/infrastructure/postgres/subscription_repository.go:157 | LIMIT/OFFSET returns min(limit, max(0, n - offset)) rows, the i-th being the (offset + i)-th row of the ordering |
| Repository.ListingLength | pkg/infrastructure/postgres/subscription_repository.go:157 | List returns at most `limit` rows, skipping the first `offset` matches |
| Repository.Listing | pkg/infrastructure/postgres/subscription_repository.go:139-157 | The matching rows, newest first, paged by offset and limit |
| Repository.ListingMatches | pkg/infrastructure/postgres/subscription_repository.go:139-158 | Every row List returns is stored and matches the filters |
| Repository.ListingNewestFirst | pkg/infrastructure/postgres/subscription_repository.go:157 | List's rows come in strictly decreasing created_at order |
| Repository.SumSelected | pkg/infrastructure/postgres/subscription_repository.go:184-205 | The SUM of the CASE term over the rows the query's WHERE clause selects |
| Repository.SumSelectedIsTotal | pkg/infrastructure/postgres/subscription_repository.go:184-205 | Summing over the rows the built WHERE clause selects gives the filtered total |
| Repository.SubscriptionStore.Create | pkg/infrastructure/postgres/subscription_repository.go:27-51 | INSERT RETURNING appends the row with the given fields, the new id and created_at = updated_at = a fresh clock reading; a taken id is a key violation and changes nothing; ids stay unique and created_at increasing |
| Repository.SubscriptionStore.constructor | pkg/infrastructure/postgres/subscription_repository.go:22-24 | A new repository starts with an empty table and satisfies the store invariant |
| Repository.SubscriptionStore.GetByID | pkg/infrastructure/postgres/subscription_repository.go:54-81 | Returns the stored row with that id; not found exactly when no row has it |
| Repository.SubscriptionStore.Update | pkg/infrastructure/postgres/subscription_repository.go:84-116 | A missing id is not found and changes nothing; otherwise exactly that row is replaced by its patched version with a fresh updated_at, all other rows unchanged |
| Repository.SubscriptionStore.Delete | pkg/infrastructure/postgres/subscription_repository.go:119-135 | Zero rows affected is not found and changes nothing; otherwise exactly that row is removed, and no row with the id remains |
| Repository.SubscriptionStore.List | pkg/infrastructure/postgres/subscription_repository.go:138-180 | The row loop returns the matching rows newest first, paged by offset and limit; a negative OFFSET, then a negative LIMIT, is an error |
| Repository.SubscriptionStore.GetSummary | pkg/infrastructure/postgres/subscription_repository.go:183-214 | The query over the built filters returns the prorated total of the matching rows |
| UseCase.CheckFields | pkg/usecase/subscription.go:27-48 | Checks in order start date, end date, service name, price, each error only if the earlier checks passed; an empty end date means open-ended; price 0 is accepted; the record carries the input's name and price and the normalised months |
| UseCase.EndDateOf | pkg/usecase/subscription.go:33-40 | An empty end date means open-ended; a non-empty one fails exactly when it does not normalise, and otherwise gives its month |
| UseCase.CheckCreate | pkg/usecase/subscription.go:27-60 | The user id is checked last; the record handed to the repository adds the request's user id to the checked fields |
| UseCase.CheckUpdate | pkg/usecase/subscription.go:88-122 | The empty id is rejected first; then the same checks as Create without the user-id check, and the record carries no user id |
| UseCase.ListFiltersOf | pkg/usecase/subscription.go:151-164 | A limit of 0 or less becomes 10 and a negative offset becomes 0; other values and both filters pass through unchanged |
| UseCase.CheckSummary | pkg/usecase/subscription.go:179-205 | A missing bound, then an unparseable start, then an unparseable end, then a start after the end are rejected in that order; the check succeeds exactly when both bounds are present and parse and the start is not after the end, and then carries the filters and the parsed months |
| UseCase.EqualMonthsAllowed | pkg/usecase/subscription.go:195 | A period whose start and end are the same month is accepted |
| UseCase.ReversedDatesAccepted | pkg/usecase/subscription.go:27-51 | A request whose end month precedes its start month passes every check of Create |
| UseCase.SubscriptionUseCase.ParseEndDate | pkg/usecase/subscription.go:33-40 | An empty end date means open-ended; any other must normalise |
| UseCase.SubscriptionUseCase.constructor | pkg/usecase/subscription.go:19-21 | The use case holds the given repository and starts with its invariant established |
| UseCase.SubscriptionUseCase.CreateSubscription | pkg/usecase/subscription.go:25-69 | A failed check returns its error and leaves the store untouched; otherwise the checked record is inserted and the repository's row or error is returned; stored rows stay admissible |
| UseCase.SubscriptionUseCase.GetSubscription | pkg/usecase/subscription.go:72-83 | The empty id is refused before the store is read; otherwise the stored row or a wrapped not-found |
| UseCase.SubscriptionUseCase.UpdateSubscription | pkg/usecase/subscription.go:87-131 | A failed check leaves the store untouched; otherwise only the row with the id is patched, and its user id and created_at are kept |
| UseCase.SubscriptionUseCase.DeleteSubscription | pkg/usecase/subscription.go:134-145 | The empty id is refused before the store is touched; otherwise the row is removed or a wrapped not-found is returned |
| UseCase.SubscriptionUseCase.ListSubscriptions | pkg/usecase/subscription.go:149-173 | Lists with the defaulted filters; with those defaults the repository cannot fail, so listing always succeeds |
| UseCase.SubscriptionUseCase.GetSubscriptionsSummary | pkg/usecase/subscription.go:177-214 | Every failed check gives 0 and its error; otherwise the repository's prorated total for the parsed period |

## Left out

- The database connection is not modelled: pgx pool, `context` cancellation, and the query, scan and row-iteration errors (`failed to query`, `failed to scan`, `error iterating rows`). The store never fails for these reasons.
- The database generates ids and `now()`. Here the caller supplies the id, and a logical clock stands for `now()`. A duplicate id becomes a key-violation error, which a database-generated id would in practice never cause.
- The SQL text is not modelled as a string. The statements are modelled by their effect, and the dynamic WHERE clauses as a list of equality conditions and an argument list.
- The store is a sequence of rows in insertion order, not a map. The insertion order carries `created_at` order, which `ORDER BY created_at DESC` needs.
- The service's `time.Time` values are not modelled. Months are `(year, month)` pairs, and the day, time of day and UTC location are implied. `time.Parse` features the six layouts do not use are absent: month names, zones, fractional seconds.
- Go's error strings are not modelled; the `Error` datatype names each message instead. The use case's unit tests expect "price must be positive", but the code says "price must be non-negative"; the model follows the code.
- Summary.ContributionChargesActiveMonths: proved only for periods that do not run from year 0 into a later year. Across that boundary the query charges 12 months too many (Summary.YearZeroOvercharge).
- Summary.ContributionBounds: proved under the same year-0 condition. Across the boundary the upper bound fails, but Summary.ContributionNonNegative keeps the lower bound.
- Summary.OpenEndedRunsThroughPeriodEnd: proved under the same year-0 condition, for the same reason.
- The summary lemmas assume well-formed months (year 0..9999, month 1..12), the only ones the date parser produces.
- Repository.SubscriptionStore.Create: the logical clock strictly increases and never steps back. Ties in `created_at` are not modelled: PostgreSQL's `now()` is the transaction start time, so two rows can share a stamp and their relative order is then unspecified. A clock stepping back is not modelled either. Both would break Repository.ListingNewestFirst's strict order.
- Repository.SubscriptionStore.GetSummary: the total is an unbounded integer, so int64 overflow of `price * months` or of the SUM is not modelled.
- UseCase.SubscriptionUseCase.CreateSubscription: the price is an unbounded integer, so the `int` to `int64` conversion is not modelled; the two types have the same width on the 64-bit targets the service runs on.
- Repository.SubscriptionStore.List: for no matching row it returns an empty sequence, so the difference between Go's nil slice and an empty slice is not modelled.
- The HTTP handlers, router, server, response envelope, DTO mappers, mocks and tests are not part of this model. The same holds for the duplicate repository interface in `pkg/usecase`.
