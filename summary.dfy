/**
 * The prorated cost formula of the repository's GetSummary query
 * (pkg/infrastructure/postgres/subscription_repository.go). For each row
 * matching the filters the query adds
 *
 *   CASE WHEN start_date <= periodEnd AND COALESCE(end_date, periodEnd) >= periodStart
 *        THEN price * ((year(oe) - year(os)) * 12 + month(oe) - month(os) + 1)
 *        ELSE 0 END
 *
 * with os = GREATEST(start_date, periodStart) and
 * oe = LEAST(COALESCE(end_date, periodEnd), periodEnd), and COALESCE(SUM(..), 0)
 * makes the total 0 when no row matches. Dates are compared as first-of-month
 * instants, that is by MonthYear.Index.
 */
module Summary {
  import opened Wrappers
  import opened MonthYear
  import opened Domain
  import opened MinMax

  /** COALESCE(end_date, periodEnd): an open-ended subscription runs through the period's end. */
  function EndOr(s: Subscription, periodEnd: Month): Month
  {
    if s.endDate.Some? then s.endDate.value else periodEnd
  }

  /** GREATEST of two dates. */
  function Greatest(a: Month, b: Month): (r: Month)
    ensures Index(r) >= Index(a) && Index(r) >= Index(b)
    ensures r == a || r == b
  {
    if Index(a) >= Index(b) then a else b
  }

  /** LEAST of two dates. */
  function Least(a: Month, b: Month): (r: Month)
    ensures Index(r) <= Index(a) && Index(r) <= Index(b)
    ensures r == a || r == b
  {
    if Index(a) <= Index(b) then a else b
  }

  /**
   * EXTRACT(YEAR FROM d). PostgreSQL has no year 0: the driver sends Go's year
   * 0 as 1 BC, which EXTRACT reads back as -1.
   */
  function SqlYear(m: Month): int
  {
    if m.year > 0 then m.year else m.year - 1
  }

  /**
   * The month count of the query, as written. When os and oe lie on the same
   * side of the start of year 1 it is the number of calendar months from os
   * through oe, both included; across that boundary it counts 12 more.
   */
  function OverlapMonths(os: Month, oe: Month): (n: int)
    ensures (os.year > 0) == (oe.year > 0) ==> n == Index(oe) - Index(os) + 1
    ensures os.year <= 0 < oe.year ==> n == Index(oe) - Index(os) + 13
    ensures oe.year <= 0 < os.year ==> n == Index(oe) - Index(os) - 11
  {
    (SqlYear(oe) - SqlYear(os)) * 12 + oe.month - os.month + 1
  }

  /** The WHEN condition of the CASE. */
  predicate Overlaps(s: Subscription, periodStart: Month, periodEnd: Month)
  {
    Index(s.startDate) <= Index(periodEnd) && Index(EndOr(s, periodEnd)) >= Index(periodStart)
  }

  /** GREATEST(start_date, $1) and LEAST(COALESCE(end_date, $2), $2): the bounds of the overlap. */
  function OverlapStart(s: Subscription, periodStart: Month): Month
  {
    Greatest(s.startDate, periodStart)
  }

  function OverlapEnd(s: Subscription, periodEnd: Month): Month
  {
    Least(EndOr(s, periodEnd), periodEnd)
  }

  /** One row's term of the SUM. */
  function Contribution(s: Subscription, periodStart: Month, periodEnd: Month): (c: int)
    ensures c != 0 ==> Overlaps(s, periodStart, periodEnd) && s.price != 0
  {
    if Overlaps(s, periodStart, periodEnd)
    then s.price * OverlapMonths(OverlapStart(s, periodStart), OverlapEnd(s, periodEnd))
    else 0
  }

  /** COALESCE(SUM(..), 0) over the rows that match the filters. */
  function Total(rows: seq<Subscription>, f: SummaryFilters): int
  {
    if rows == [] then 0
    else
      (if MatchesFilters(rows[0], f.userId, f.serviceName) then Contribution(rows[0], f.periodStart, f.periodEnd) else 0)
      + Total(rows[1..], f)
  }

  // ---------------------------------------------------------------------------
  // A reference definition: count the months in which the subscription is active

  /** The subscription is active in month k: from its start month through its end month (for ever when open-ended). */
  predicate ActiveIn(s: Subscription, k: int)
  {
    Index(s.startDate) <= k && (s.endDate.None? || k <= Index(s.endDate.value))
  }

  /** The number of months lo..hi (month indices, both included) in which s is active. */
  function ActiveMonths(s: Subscription, lo: int, hi: int): nat
    decreases hi - lo
  {
    if hi < lo then 0 else ActiveMonths(s, lo, hi - 1) + (if ActiveIn(s, hi) then 1 else 0)
  }

  /** The months of a row are ones the date parser can produce. */
  predicate RowMonthsWellFormed(s: Subscription)
  {
    WellFormed(s.startDate) && (s.endDate.Some? ==> WellFormed(s.endDate.value))
  }

  /**
   * The period does not run from year 0 into year 1 or later, the one place
   * where EXTRACT(YEAR) and the calendar disagree (YearZeroOvercharge).
   */
  predicate AvoidsYearZeroBoundary(periodStart: Month, periodEnd: Month)
  {
    periodStart.year > 0 || periodEnd.year <= 0
  }

  /** The end date, if any, is not before the start date. */
  predicate DatesOrdered(s: Subscription)
  {
    s.endDate.None? || Index(s.startDate) <= Index(s.endDate.value)
  }

  lemma {:induction false} ActiveMonthsClosedForm(s: Subscription, lo: int, hi: int)
    ensures var first := Max(lo, Index(s.startDate));
            var last := if s.endDate.Some? then Min(hi, Index(s.endDate.value)) else hi;
            ActiveMonths(s, lo, hi) == if last < first then 0 else last - first + 1
    decreases hi - lo
  {
    if hi >= lo {
      ActiveMonthsClosedForm(s, lo, hi - 1);
    }
  }

  lemma MulMonotonic(p: int, a: int, b: int)
    requires p >= 0 && a <= b
    ensures p * a <= p * b
  {
    assert p * b - p * a == p * (b - a);
  }

  /** The row's months and the period's bounds are all ones the date parser can produce. */
  predicate MonthsWellFormed(s: Subscription, periodStart: Month, periodEnd: Month)
  {
    RowMonthsWellFormed(s) && WellFormed(periodStart) && WellFormed(periodEnd)
  }

  /** Away from the year-0 boundary the query's year arithmetic is calendar arithmetic. */
  lemma OverlapInOneEra(s: Subscription, periodStart: Month, periodEnd: Month)
    requires MonthsWellFormed(s, periodStart, periodEnd) && AvoidsYearZeroBoundary(periodStart, periodEnd)
    requires DatesOrdered(s) && Index(periodStart) <= Index(periodEnd) && Overlaps(s, periodStart, periodEnd)
    ensures OverlapMonths(OverlapStart(s, periodStart), OverlapEnd(s, periodEnd))
            == Index(OverlapEnd(s, periodEnd)) - Index(OverlapStart(s, periodStart)) + 1
  {
    var os, oe := OverlapStart(s, periodStart), OverlapEnd(s, periodEnd);
    assert WellFormed(os) && WellFormed(oe) && Index(os) <= Index(oe);
  }

  /**
   * For a subscription whose end is not before its start, and a period whose
   * start is not after its end, the query charges the price once per month of
   * the period in which the subscription is active, both boundary months included.
   */
  lemma ContributionChargesActiveMonths(s: Subscription, periodStart: Month, periodEnd: Month)
    requires MonthsWellFormed(s, periodStart, periodEnd) && AvoidsYearZeroBoundary(periodStart, periodEnd)
    requires DatesOrdered(s) && Index(periodStart) <= Index(periodEnd)
    ensures Contribution(s, periodStart, periodEnd) == s.price * ActiveMonths(s, Index(periodStart), Index(periodEnd))
  {
    ActiveMonthsClosedForm(s, Index(periodStart), Index(periodEnd));
    if Overlaps(s, periodStart, periodEnd) {
      OverlapInOneEra(s, periodStart, periodEnd);
    }
  }

  /**
   * Under the same conditions and a non-negative price, a contributing row is
   * charged for between one month and the whole period, and no row is charged
   * a negative amount or more than price times the period's months.
   */
  lemma ContributionBounds(s: Subscription, periodStart: Month, periodEnd: Month)
    requires MonthsWellFormed(s, periodStart, periodEnd) && AvoidsYearZeroBoundary(periodStart, periodEnd)
    requires DatesOrdered(s) && Index(periodStart) <= Index(periodEnd) && s.price >= 0
    ensures var window := Index(periodEnd) - Index(periodStart) + 1;
            var months := OverlapMonths(OverlapStart(s, periodStart), OverlapEnd(s, periodEnd));
            && (Overlaps(s, periodStart, periodEnd) ==> 1 <= months <= window)
            && 0 <= Contribution(s, periodStart, periodEnd) <= s.price * window
  {
    var lo, hi := Index(periodStart), Index(periodEnd);
    ContributionChargesActiveMonths(s, periodStart, periodEnd);
    ActiveMonthsClosedForm(s, lo, hi);
    if Overlaps(s, periodStart, periodEnd) {
      OverlapInOneEra(s, periodStart, periodEnd);
    }
    MulMonotonic(s.price, 0, ActiveMonths(s, lo, hi));
    MulMonotonic(s.price, ActiveMonths(s, lo, hi), hi - lo + 1);
  }

  /**
   * A row with ordered dates and a non-negative price is never charged a
   * negative amount, wherever the period lies (across the year-0 boundary it
   * is overcharged, not undercharged).
   */
  lemma ContributionNonNegative(s: Subscription, periodStart: Month, periodEnd: Month)
    requires MonthsWellFormed(s, periodStart, periodEnd)
    requires DatesOrdered(s) && Index(periodStart) <= Index(periodEnd) && s.price >= 0
    ensures Contribution(s, periodStart, periodEnd) >= 0
  {
    if Overlaps(s, periodStart, periodEnd) {
      var os, oe := OverlapStart(s, periodStart), OverlapEnd(s, periodEnd);
      assert WellFormed(os) && WellFormed(oe) && Index(os) <= Index(oe);
      MulMonotonic(s.price, 0, OverlapMonths(os, oe));
    }
  }

  /** With ordered dates, a subscription active in no month of the period contributes nothing. */
  lemma InactiveContributesNothing(s: Subscription, periodStart: Month, periodEnd: Month)
    requires DatesOrdered(s) && Index(periodStart) <= Index(periodEnd)
    requires forall k :: Index(periodStart) <= k <= Index(periodEnd) ==> !ActiveIn(s, k)
    ensures Contribution(s, periodStart, periodEnd) == 0
  {
    var lo, hi := Index(periodStart), Index(periodEnd);
    var first := Max(lo, Index(s.startDate));
    if first <= hi && (s.endDate.None? || first <= Index(s.endDate.value)) {
      assert ActiveIn(s, first);
    }
    assert !Overlaps(s, periodStart, periodEnd);
  }

  /** An open-ended subscription that has started by the period's end is charged through the period's end. */
  lemma OpenEndedRunsThroughPeriodEnd(s: Subscription, periodStart: Month, periodEnd: Month)
    requires MonthsWellFormed(s, periodStart, periodEnd) && AvoidsYearZeroBoundary(periodStart, periodEnd)
    requires s.endDate.None? && Index(periodStart) <= Index(periodEnd) && Index(s.startDate) <= Index(periodEnd)
    ensures Contribution(s, periodStart, periodEnd)
            == s.price * (Index(periodEnd) - Max(Index(s.startDate), Index(periodStart)) + 1)
  {
    OverlapInOneEra(s, periodStart, periodEnd);
  }

  /**
   * The query never compares end_date with start_date: a row whose end is
   * before its start, and which meets the WHEN condition, is charged zero or a
   * negative amount, although it is active in no month at all.
   */
  lemma ReversedDatesChargeNonPositive(s: Subscription, periodStart: Month, periodEnd: Month)
    requires MonthsWellFormed(s, periodStart, periodEnd)
    requires s.endDate.Some? && Index(s.endDate.value) < Index(s.startDate) && s.price >= 0
    ensures Contribution(s, periodStart, periodEnd) <= 0
    ensures ActiveMonths(s, Index(periodStart), Index(periodEnd)) == 0
  {
    ActiveMonthsClosedForm(s, Index(periodStart), Index(periodEnd));
    if Overlaps(s, periodStart, periodEnd) {
      var os, oe := OverlapStart(s, periodStart), OverlapEnd(s, periodEnd);
      assert WellFormed(os) && WellFormed(oe) && Index(oe) < Index(os);
      MulMonotonic(s.price, OverlapMonths(os, oe), 0);
    }
  }

  /** A subscription from 2024-03 to 2024-01 at price 100 is charged -100 over 2024-01..2024-03. */
  lemma ReversedDatesExample()
    ensures Contribution(Subscription("a", "svc", 100, "u", Month(2024, 3), Some(Month(2024, 1)), 1, 1),
                         Month(2024, 1), Month(2024, 3)) == -100
  {
  }

  /**
   * EXTRACT(YEAR) skips year 0: an open-ended row from 0000-12 at price 1,
   * over 0000-12..0001-01, is active in 2 months of the period but charged for 14.
   */
  lemma YearZeroOvercharge()
    ensures var s := Subscription("a", "svc", 1, "u", Month(0, 12), None, 1, 1);
            && ActiveMonths(s, Index(Month(0, 12)), Index(Month(1, 1))) == 2
            && Contribution(s, Month(0, 12), Month(1, 1)) == 14
  {
    var s := Subscription("a", "svc", 1, "u", Month(0, 12), None, 1, 1);
    ActiveMonthsClosedForm(s, 11, 12);
  }

  // ---------------------------------------------------------------------------
  // The sum

  lemma {:induction false} TotalAppend(a: seq<Subscription>, b: seq<Subscription>, f: SummaryFilters)
    ensures Total(a + b, f) == Total(a, f) + Total(b, f)
  {
    if a == [] {
      assert a + b == b;
    } else {
      assert (a + b)[0] == a[0] && (a + b)[1..] == a[1..] + b;
      TotalAppend(a[1..], b, f);
    }
  }

  /** With no matching row the total is 0, never an error. */
  lemma {:induction false} TotalOfNoMatches(rows: seq<Subscription>, f: SummaryFilters)
    requires forall i :: 0 <= i < |rows| ==> !MatchesFilters(rows[i], f.userId, f.serviceName)
    ensures Total(rows, f) == 0
  {
    if rows != [] {
      TotalOfNoMatches(rows[1..], f);
    }
  }

  /** Rows with ordered, well-formed dates and non-negative prices never make the total negative. */
  lemma {:induction false} TotalNonNegative(rows: seq<Subscription>, f: SummaryFilters)
    requires WellFormed(f.periodStart) && WellFormed(f.periodEnd) && Index(f.periodStart) <= Index(f.periodEnd)
    requires forall i :: 0 <= i < |rows| ==> RowMonthsWellFormed(rows[i]) && DatesOrdered(rows[i]) && rows[i].price >= 0
    ensures Total(rows, f) >= 0
  {
    if rows != [] {
      ContributionNonNegative(rows[0], f.periodStart, f.periodEnd);
      TotalNonNegative(rows[1..], f);
    }
  }

  /** 100 a month, open-ended from 2023-06, over 2024-01..2024-03: three months, 300. */
  lemma QuarterExample()
    ensures Total([Subscription("a", "svc", 100, "u", Month(2023, 6), None, 1, 1)],
                  SummaryFilters("", "", Month(2024, 1), Month(2024, 3))) == 300
  {
  }

  /** A subscription for 2024-02 only, over 2024-01..2024-03: one month. */
  lemma SingleMonthExample(price: int)
    ensures Total([Subscription("a", "svc", price, "u", Month(2024, 2), Some(Month(2024, 2)), 1, 1)],
                  SummaryFilters("", "", Month(2024, 1), Month(2024, 3))) == price
  {
  }
}
