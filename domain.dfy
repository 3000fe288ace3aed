/**
 * The entities of pkg/domain/subscription.go: the subscription record, the
 * filters of List and GetSummary, and the errors the repository reports.
 */
module Domain {
  import opened Wrappers
  import opened MonthYear

  /**
   * A subscription row. Dates are calendar months (stored as the first day of
   * the month); an absent end date means open-ended. createdAt and updatedAt
   * are readings of the store's clock; the zero value means "not assigned yet".
   */
  datatype Subscription = Subscription(
    id: string,
    serviceName: string,
    price: int,
    userId: string,
    startDate: Month,
    endDate: Option<Month>,
    createdAt: int,
    updatedAt: int)

  /** Filters of List: an empty string means "no filter on this column". */
  datatype ListFilters = ListFilters(userId: string, serviceName: string, limit: int, offset: int)

  /** Filters of GetSummary: the closed period [periodStart, periodEnd] and the optional column filters. */
  datatype SummaryFilters = SummaryFilters(userId: string, serviceName: string, periodStart: Month, periodEnd: Month)

  /** Failures of the repository: no row with the id, a primary-key clash, a negative LIMIT or OFFSET. */
  datatype RepoError = NotFound | DuplicateKey | NegativeLimit | NegativeOffset

  /** The row filter of List and GetSummary: each non-empty filter must equal its column; the two are AND-combined. */
  predicate MatchesFilters(s: Subscription, userId: string, serviceName: string)
  {
    (userId == "" || s.userId == userId) && (serviceName == "" || s.serviceName == serviceName)
  }
}
