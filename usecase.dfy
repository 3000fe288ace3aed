/**
 * The business layer (pkg/usecase/subscription.go): a short, ordered run of
 * early-exit checks per operation, followed by one call into the repository.
 * Go's wrapped error strings become the Error datatype: one constructor per
 * validation message and Failed(op, cause) for "failed to <op> subscription: <cause>".
 */
module UseCase {
  import opened Wrappers
  import opened MonthYear
  import opened Domain
  import opened Summary
  import opened Repository

  /**
   * The operation named in "failed to <op> subscription(s)". SummaryOp stands
   * for "failed to calculate summary", which only a database failure raises;
   * those are not modelled, so no Error carries it.
   */
  datatype Operation = CreateOp | GetOp | UpdateOp | DeleteOp | ListOp | SummaryOp

  datatype Error =
    | InvalidStartDate      // "invalid start_date format"
    | InvalidEndDate        // "invalid end_date format"
    | ServiceNameRequired   // "service_name is required"
    | NegativePrice         // "price must be non-negative"
    | UserIdRequired        // "user_id is required"
    | IdRequired            // "id is required"
    | PeriodRequired        // "period_start and period_end are required"
    | InvalidPeriodStart    // "invalid period_start format"
    | InvalidPeriodEnd      // "invalid period_end format"
    | PeriodOutOfOrder      // "period_start must be before or equal to period_end"
    | Failed(op: Operation, cause: RepoError)

  datatype CreateInput = CreateInput(serviceName: string, price: int, userId: string, startDate: string, endDate: string)
  datatype UpdateInput = UpdateInput(serviceName: string, price: int, startDate: string, endDate: string)
  datatype ListInput = ListInput(userId: string, serviceName: string, limit: int, offset: int)
  datatype SummaryInput = SummaryInput(userId: string, serviceName: string, periodStart: string, periodEnd: string)

  /** Page size used when the request gives none (or a non-positive one). */
  const DefaultLimit := 10

  // ---------------------------------------------------------------------------
  // What the checks accept, as functions

  /** An end date as the request carries it: the empty string means open-ended. */
  function EndDateOf(s: string): (r: Result<Option<Month>, DateError>)
    ensures r == Success(None) <==> s == ""
    ensures r.Failure? <==> s != "" && MonthYearOf(s).Failure?
    ensures r.Success? && s != "" ==> r.value == Some(MonthYearOf(s).value)
  {
    if s == "" then Success(None)
    else match MonthYearOf(s)
      case Success(m) => Success(Some(m))
      case Failure(e) => Failure(e)
  }

  /** Both dates of a request are acceptable. */
  predicate DatesParse(startDate: string, endDate: string)
  {
    MonthYearOf(startDate).Success? && EndDateOf(endDate).Success?
  }

  /**
   * The checks Create and Update share, in their order: start date, end date,
   * service name, price. On success, the record with those fields set and
   * everything else (id, user id, timestamps) at its zero value.
   */
  function CheckFields(serviceName: string, price: int, startDate: string, endDate: string): (r: Result<Subscription, Error>)
    ensures r == Failure(InvalidStartDate) <==> MonthYearOf(startDate).Failure?
    ensures r == Failure(InvalidEndDate) <==> MonthYearOf(startDate).Success? && EndDateOf(endDate).Failure?
    ensures r == Failure(ServiceNameRequired) <==> DatesParse(startDate, endDate) && serviceName == ""
    ensures r == Failure(NegativePrice) <==> DatesParse(startDate, endDate) && serviceName != "" && price < 0
    ensures r.Success? <==> DatesParse(startDate, endDate) && serviceName != "" && price >= 0
    ensures r.Success? ==>
              && r.value.serviceName == serviceName && r.value.price == price
              && r.value.startDate == MonthYearOf(startDate).value
              && r.value.endDate == EndDateOf(endDate).value
              && r.value.id == "" && r.value.userId == ""
              && WellFormed(r.value.startDate)
              && (r.value.endDate.Some? ==> WellFormed(r.value.endDate.value))
  {
    match MonthYearOf(startDate)
    case Failure(_) => Failure(InvalidStartDate)
    case Success(start) =>
      match EndDateOf(endDate)
      case Failure(_) => Failure(InvalidEndDate)
      case Success(end) =>
        if serviceName == "" then Failure(ServiceNameRequired)
        else if price < 0 then Failure(NegativePrice)
        else Success(Subscription("", serviceName, price, "", start, end, 0, 0))
  }

  /** What CreateSubscription hands to the repository, or the first failed check. */
  function CheckCreate(req: CreateInput): (r: Result<Subscription, Error>)
    ensures r == Failure(UserIdRequired) <==>
              CheckFields(req.serviceName, req.price, req.startDate, req.endDate).Success? && req.userId == ""
    ensures r.Success? <==>
              CheckFields(req.serviceName, req.price, req.startDate, req.endDate).Success? && req.userId != ""
    ensures r.Success? ==> r.value == CheckFields(req.serviceName, req.price, req.startDate, req.endDate).value.(userId := req.userId)
    ensures r.Failure? && r.error != UserIdRequired ==> r == CheckFields(req.serviceName, req.price, req.startDate, req.endDate)
  {
    match CheckFields(req.serviceName, req.price, req.startDate, req.endDate)
    case Failure(e) => Failure(e)
    case Success(draft) =>
      if req.userId == "" then Failure(UserIdRequired) else Success(draft.(userId := req.userId))
  }

  /** What UpdateSubscription hands to the repository, or the first failed check; the id is checked first. */
  function CheckUpdate(id: string, req: UpdateInput): (r: Result<Subscription, Error>)
    ensures r == Failure(IdRequired) <==> id == ""
    ensures id != "" ==> r == CheckFields(req.serviceName, req.price, req.startDate, req.endDate)
  {
    if id == "" then Failure(IdRequired)
    else CheckFields(req.serviceName, req.price, req.startDate, req.endDate)
  }

  /** The repository filters of ListSubscriptions: a non-positive limit becomes 10, a negative offset 0. */
  function ListFiltersOf(f: ListInput): (d: ListFilters)
    ensures d.userId == f.userId && d.serviceName == f.serviceName
    ensures d.limit >= 1 && d.offset >= 0
    ensures f.limit > 0 ==> d.limit == f.limit
    ensures f.limit <= 0 ==> d.limit == DefaultLimit
    ensures f.offset >= 0 ==> d.offset == f.offset
    ensures f.offset < 0 ==> d.offset == 0
  {
    ListFilters(f.userId, f.serviceName,
                if f.limit <= 0 then DefaultLimit else f.limit,
                if f.offset < 0 then 0 else f.offset)
  }

  /** The repository filters of GetSubscriptionsSummary, or the first failed check. */
  function CheckSummary(f: SummaryInput): (r: Result<SummaryFilters, Error>)
    ensures r == Failure(PeriodRequired) <==> f.periodStart == "" || f.periodEnd == ""
    ensures r == Failure(InvalidPeriodStart) <==>
              f.periodStart != "" && f.periodEnd != "" && MonthYearOf(f.periodStart).Failure?
    ensures r == Failure(InvalidPeriodEnd) <==>
              && f.periodStart != "" && f.periodEnd != ""
              && MonthYearOf(f.periodStart).Success? && MonthYearOf(f.periodEnd).Failure?
    ensures r == Failure(PeriodOutOfOrder) <==>
              && f.periodStart != "" && f.periodEnd != ""
              && MonthYearOf(f.periodStart).Success? && MonthYearOf(f.periodEnd).Success?
              && After(MonthYearOf(f.periodStart).value, MonthYearOf(f.periodEnd).value)
    ensures r.Success? <==>
              && f.periodStart != "" && f.periodEnd != ""
              && MonthYearOf(f.periodStart).Success? && MonthYearOf(f.periodEnd).Success?
              && !After(MonthYearOf(f.periodStart).value, MonthYearOf(f.periodEnd).value)
    ensures r.Success? ==>
              && r.value.userId == f.userId && r.value.serviceName == f.serviceName
              && r.value.periodStart == MonthYearOf(f.periodStart).value
              && r.value.periodEnd == MonthYearOf(f.periodEnd).value
              && Index(r.value.periodStart) <= Index(r.value.periodEnd)
  {
    if f.periodStart == "" || f.periodEnd == "" then Failure(PeriodRequired)
    else match MonthYearOf(f.periodStart)
      case Failure(_) => Failure(InvalidPeriodStart)
      case Success(ps) =>
        match MonthYearOf(f.periodEnd)
        case Failure(_) => Failure(InvalidPeriodEnd)
        case Success(pe) =>
          if After(ps, pe) then Failure(PeriodOutOfOrder)
          else Success(SummaryFilters(f.userId, f.serviceName, ps, pe))
  }

  /** A period whose two bounds are the same month passes the checks. */
  lemma EqualMonthsAllowed(userId: string, serviceName: string, period: string)
    requires MonthYearOf(period).Success?
    ensures CheckSummary(SummaryInput(userId, serviceName, period, period)).Success?
  {
    // The empty string matches no layout, so a period that parses is not empty.
    RejectedIffNoLayoutParses("");
    assert forall j :: 0 <= j < |Layouts| ==> ParseLayout(Layouts[j], "").None?;
    var m := MonthYearOf(period).value;
    assert !After(m, m);
  }

  // ---------------------------------------------------------------------------
  // The invariant the business layer keeps over the table

  /** A row the checks of Create and Update let through. */
  predicate Admissible(row: Subscription)
  {
    && row.serviceName != "" && row.price >= 0 && row.userId != ""
    && WellFormed(row.startDate)
    && (row.endDate.Some? ==> WellFormed(row.endDate.value))
  }

  predicate AllAdmissible(rows: seq<Subscription>)
  {
    forall i :: 0 <= i < |rows| ==> Admissible(rows[i])
  }

  /**
   * The checks do not order the two dates: a request whose end month lies
   * before its start month is accepted, and the stored row is one that the
   * summary charges a non-positive amount (Summary.ReversedDatesChargeNonPositive).
   */
  lemma ReversedDatesAccepted(start: Month, end: Month, serviceName: string, price: int, userId: string)
    requires WellFormed(start) && WellFormed(end) && Index(end) < Index(start)
    requires serviceName != "" && price >= 0 && userId != ""
    ensures CheckCreate(CreateInput(serviceName, price, userId, FormatMonthYear(start), FormatMonthYear(end))).Success?
    ensures var row := CheckCreate(CreateInput(serviceName, price, userId, FormatMonthYear(start), FormatMonthYear(end))).value;
            row.startDate == start && row.endDate == Some(end) && !DatesOrdered(row)
  {
    MonthYearRoundTrip(start);
    MonthYearRoundTrip(end);
    var d := Date(end.year, end.month, 1);
    assert Layouts[2][0] == Month2;
    assert FormatMonthYear(end) == Digits(d.month, 2) + Format(Layouts[2][1..], d);
  }

  // ---------------------------------------------------------------------------
  // The use case object

  class SubscriptionUseCase {
    const repo: SubscriptionStore

    ghost predicate Valid()
      reads this, repo
    {
      repo.Valid() && AllAdmissible(repo.rows)
    }

    constructor (repo: SubscriptionStore)
      requires repo.Valid() && AllAdmissible(repo.rows)
      ensures this.repo == repo && Valid()
    {
      this.repo := repo;
    }

    /** Parses an end date the way the source does: "" leaves it open, anything else must parse. */
    method ParseEndDate(s: string) returns (r: Result<Option<Month>, DateError>)
      ensures r == EndDateOf(s)
    {
      if s == "" {
        return Success(None);
      }
      var date := ParseToMonthYear(s);
      if date.Failure? {
        return Failure(date.error);
      }
      return Success(Some(date.value));
    }

    /**
     * Validates the request in order (start date, end date, service name,
     * price, user id) and stores the record; the repository is reached only
     * when every check passes, and its result or error is passed on.
     */
    method CreateSubscription(req: CreateInput, newId: string) returns (r: Result<Subscription, Error>)
      requires Valid()
      modifies repo
      ensures Valid()
      ensures CheckCreate(req).Failure? ==> r == Failure(CheckCreate(req).error) && unchanged(repo)
      ensures CheckCreate(req).Success? && IndexOf(old(repo.rows), newId) >= 0 ==>
                r == Failure(Failed(CreateOp, DuplicateKey)) && unchanged(repo)
      ensures CheckCreate(req).Success? && IndexOf(old(repo.rows), newId) < 0 ==>
                && repo.clock == old(repo.clock) + 1
                && r == Success(Inserted(CheckCreate(req).value, newId, repo.clock))
                && repo.rows == old(repo.rows) + [r.value]
    {
      var startDate := ParseToMonthYear(req.startDate);
      if startDate.Failure? {
        return Failure(InvalidStartDate);
      }
      var endDate := ParseEndDate(req.endDate);
      if endDate.Failure? {
        return Failure(InvalidEndDate);
      }
      if req.serviceName == "" {
        return Failure(ServiceNameRequired);
      }
      if req.price < 0 {
        return Failure(NegativePrice);
      }
      if req.userId == "" {
        return Failure(UserIdRequired);
      }
      var sub := Subscription("", req.serviceName, req.price, req.userId, startDate.value, endDate.value, 0, 0);
      var created := repo.Create(sub, newId);
      if created.Failure? {
        return Failure(Failed(CreateOp, created.error));
      }
      return Success(created.value);
    }

    /** Looks a subscription up by id; the empty id is refused before the repository is asked. */
    method GetSubscription(id: string) returns (r: Result<Subscription, Error>)
      requires Valid()
      ensures id == "" ==> r == Failure(IdRequired)
      ensures id != "" ==> r == (match Lookup(repo.rows, id)
                                 case Some(s) => Success(s)
                                 case None => Failure(Failed(GetOp, NotFound)))
      ensures r.Success? ==> r.value.id == id && r.value in repo.rows && Admissible(r.value)
    {
      if id == "" {
        return Failure(IdRequired);
      }
      var sub := repo.GetByID(id);
      if sub.Failure? {
        return Failure(Failed(GetOp, sub.error));
      }
      return Success(sub.value);
    }

    /**
     * Validates like Create without the user-id check, then overwrites the
     * four mutable fields of the stored row; user id, id and creation time stay.
     */
    method UpdateSubscription(id: string, req: UpdateInput) returns (r: Result<Subscription, Error>)
      requires Valid()
      modifies repo
      ensures Valid()
      ensures CheckUpdate(id, req).Failure? ==> r == Failure(CheckUpdate(id, req).error) && unchanged(repo)
      ensures CheckUpdate(id, req).Success? && IndexOf(old(repo.rows), id) < 0 ==>
                r == Failure(Failed(UpdateOp, NotFound)) && unchanged(repo)
      ensures CheckUpdate(id, req).Success? && IndexOf(old(repo.rows), id) >= 0 ==>
                && repo.clock == old(repo.clock) + 1
                && r == Success(Patched(old(repo.rows)[IndexOf(old(repo.rows), id)], CheckUpdate(id, req).value, repo.clock))
                && repo.rows == old(repo.rows)[IndexOf(old(repo.rows), id) := r.value]
      ensures r.Success? ==>
                && r.value.userId == old(repo.rows)[IndexOf(old(repo.rows), id)].userId
                && r.value.createdAt == old(repo.rows)[IndexOf(old(repo.rows), id)].createdAt
    {
      if id == "" {
        return Failure(IdRequired);
      }
      var startDate := ParseToMonthYear(req.startDate);
      if startDate.Failure? {
        return Failure(InvalidStartDate);
      }
      var endDate := ParseEndDate(req.endDate);
      if endDate.Failure? {
        return Failure(InvalidEndDate);
      }
      if req.serviceName == "" {
        return Failure(ServiceNameRequired);
      }
      if req.price < 0 {
        return Failure(NegativePrice);
      }
      var sub := Subscription("", req.serviceName, req.price, "", startDate.value, endDate.value, 0, 0);
      var updated := repo.Update(id, sub);
      if updated.Failure? {
        return Failure(Failed(UpdateOp, updated.error));
      }
      return Success(updated.value);
    }

    /** Deletes by id; the empty id is refused before the repository is asked. */
    method DeleteSubscription(id: string) returns (err: Option<Error>)
      requires Valid()
      modifies repo
      ensures Valid()
      ensures id == "" ==> err == Some(IdRequired) && unchanged(repo)
      ensures id != "" && IndexOf(old(repo.rows), id) < 0 ==> err == Some(Failed(DeleteOp, NotFound)) && unchanged(repo)
      ensures id != "" && IndexOf(old(repo.rows), id) >= 0 ==>
                && err == None && repo.clock == old(repo.clock)
                && repo.rows == old(repo.rows)[..IndexOf(old(repo.rows), id)] + old(repo.rows)[IndexOf(old(repo.rows), id) + 1..]
    {
      if id == "" {
        return Some(IdRequired);
      }
      ghost var before := repo.rows;
      var e := repo.Delete(id);
      if e.Some? {
        return Some(Failed(DeleteOp, e.value));
      }
      forall i | 0 <= i < |repo.rows|
        ensures Admissible(repo.rows[i])
      {
        var k := IndexOf(before, id);
        assert repo.rows[i] == before[if i < k then i else i + 1];
      }
      return None;
    }

    /**
     * Fills in the default page size and clamps the offset, then lists. With
     * those defaults the repository's LIMIT/OFFSET errors cannot occur, so
     * listing always succeeds.
     */
    method ListSubscriptions(filters: ListInput) returns (r: Result<seq<Subscription>, Error>)
      requires Valid()
      ensures r == Success(Listing(repo.rows, ListFiltersOf(filters)))
    {
      var f := filters;
      if f.limit <= 0 {
        f := f.(limit := DefaultLimit);
      }
      if f.offset < 0 {
        f := f.(offset := 0);
      }
      var domainFilters := ListFilters(f.userId, f.serviceName, f.limit, f.offset);
      var subs := repo.List(domainFilters);
      match subs {
        case Failure(e) => r := Failure(Failed(ListOp, e));
        case Success(v) => r := Success(v);
      }
    }

    /**
     * Checks the period (both bounds present, both parseable, start not after
     * end) and returns the repository's total; every error comes with 0.
     */
    method GetSubscriptionsSummary(filters: SummaryInput) returns (total: int, err: Option<Error>)
      requires Valid()
      ensures CheckSummary(filters).Failure? ==> total == 0 && err == Some(CheckSummary(filters).error)
      ensures CheckSummary(filters).Success? ==> err == None && total == Total(repo.rows, CheckSummary(filters).value)
    {
      if filters.periodStart == "" || filters.periodEnd == "" {
        return 0, Some(PeriodRequired);
      }
      var periodStart := ParseToMonthYear(filters.periodStart);
      if periodStart.Failure? {
        return 0, Some(InvalidPeriodStart);
      }
      var periodEnd := ParseToMonthYear(filters.periodEnd);
      if periodEnd.Failure? {
        return 0, Some(InvalidPeriodEnd);
      }
      if After(periodStart.value, periodEnd.value) {
        return 0, Some(PeriodOutOfOrder);
      }
      var domainFilters := SummaryFilters(filters.userId, filters.serviceName, periodStart.value, periodEnd.value);
      total := repo.GetSummary(domainFilters);
      err := None;
    }
  }
}
