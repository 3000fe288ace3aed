/**
 * The PostgreSQL repository (pkg/infrastructure/postgres/subscription_repository.go)
 * as an in-memory table. Rows are kept in insertion order; `clock` stands for
 * the database's now(), which the store advances on every write, so
 * created_at strictly increases along the table and "ORDER BY created_at DESC"
 * is the table read backwards. Ids, which the database generates, are supplied
 * by the caller of Create; an id already in use is a primary-key violation.
 */
module Repository {
  import opened Wrappers
  import opened MonthYear
  import opened Domain
  import opened Summary
  import opened QueryBuilder
  import opened MinMax

  // ---------------------------------------------------------------------------
  // The table and its invariants

  predicate UniqueIds(rows: seq<Subscription>)
  {
    forall i, j :: 0 <= i < j < |rows| ==> rows[i].id != rows[j].id
  }

  predicate CreatedIncreasing(rows: seq<Subscription>)
  {
    forall i, j :: 0 <= i < j < |rows| ==> rows[i].createdAt < rows[j].createdAt
  }

  /** Every timestamp is a past reading of the clock, and no row was updated before it was created. */
  predicate StampedBefore(rows: seq<Subscription>, clock: int)
  {
    forall i :: 0 <= i < |rows| ==> rows[i].createdAt <= rows[i].updatedAt <= clock
  }

  /** "WHERE id = $1": the position of the row with that id, or -1. */
  function IndexOf(rows: seq<Subscription>, id: string): (k: int)
    ensures -1 <= k < |rows|
    ensures k >= 0 ==> rows[k].id == id
    ensures k < 0 <==> forall i :: 0 <= i < |rows| ==> rows[i].id != id
  {
    if rows == [] then -1
    else if rows[0].id == id then 0
    else
      var k := IndexOf(rows[1..], id);
      if k < 0 then -1 else k + 1
  }

  /** The row GetByID finds, if any. */
  function Lookup(rows: seq<Subscription>, id: string): (r: Option<Subscription>)
    ensures r.Some? ==> r.value in rows && r.value.id == id
    ensures r.None? <==> forall i :: 0 <= i < |rows| ==> rows[i].id != id
  {
    var k := IndexOf(rows, id);
    if k < 0 then None else Some(rows[k])
  }

  /** With unique ids, Lookup finds the one row carrying the id, and nothing when none does. */
  lemma LookupFindsTheRow(rows: seq<Subscription>, id: string)
    requires UniqueIds(rows)
    ensures Lookup(rows, id).Some? <==> exists i :: 0 <= i < |rows| && rows[i].id == id
    ensures forall i :: 0 <= i < |rows| && rows[i].id == id ==> Lookup(rows, id) == Some(rows[i])
  {
  }

  /** The row INSERT ... RETURNING hands back: the given fields, the new id, created_at = updated_at = now. */
  function Inserted(sub: Subscription, id: string, now: int): (r: Subscription)
    ensures r.id == id && r.createdAt == now && r.updatedAt == now
    ensures r.serviceName == sub.serviceName && r.price == sub.price && r.userId == sub.userId
    ensures r.startDate == sub.startDate && r.endDate == sub.endDate
  {
    sub.(id := id, createdAt := now, updatedAt := now)
  }

  /** UPDATE ... SET service_name, price, start_date, end_date, updated_at = now(). */
  function Patched(row: Subscription, sub: Subscription, now: int): (r: Subscription)
    ensures r.id == row.id && r.userId == row.userId && r.createdAt == row.createdAt
    ensures r.serviceName == sub.serviceName && r.price == sub.price
    ensures r.startDate == sub.startDate && r.endDate == sub.endDate && r.updatedAt == now
  {
    row.(serviceName := sub.serviceName, price := sub.price, startDate := sub.startDate,
         endDate := sub.endDate, updatedAt := now)
  }

  // ---------------------------------------------------------------------------
  // List: filter, newest first, offset and limit

  /** The rows that match the filters, in table order. */
  function Matching(rows: seq<Subscription>, userId: string, serviceName: string): (r: seq<Subscription>)
    ensures |r| <= |rows|
    ensures forall x :: x in r <==> x in rows && MatchesFilters(x, userId, serviceName)
  {
    if rows == [] then []
    else (if MatchesFilters(rows[0], userId, serviceName) then [rows[0]] else []) + Matching(rows[1..], userId, serviceName)
  }

  function Reversed<T>(s: seq<T>): (r: seq<T>)
    ensures |r| == |s|
  {
    if s == [] then [] else Reversed(s[1..]) + [s[0]]
  }

  /** "LIMIT limit OFFSET offset". */
  function Page<T>(s: seq<T>, offset: nat, limit: nat): (r: seq<T>)
    ensures |r| == Min(limit, Max(0, |s| - offset))
    ensures forall i :: 0 <= i < |r| ==> r[i] == s[offset + i]
  {
    s[Min(offset, |s|)..Min(offset + limit, |s|)]
  }

  /** What List returns for non-negative limit and offset. */
  function Listing(rows: seq<Subscription>, f: ListFilters): seq<Subscription>
    requires f.limit >= 0 && f.offset >= 0
  {
    Page(Reversed(Matching(rows, f.userId, f.serviceName)), f.offset, f.limit)
  }

  lemma {:induction false} ReversedAt<T>(s: seq<T>, k: nat)
    requires k < |s|
    ensures Reversed(s)[k] == s[|s| - 1 - k]
  {
    if k < |s| - 1 {
      ReversedAt(s[1..], k);
    }
  }

  lemma {:induction false} MatchingKeepsOrder(rows: seq<Subscription>, userId: string, serviceName: string)
    requires CreatedIncreasing(rows)
    ensures CreatedIncreasing(Matching(rows, userId, serviceName))
  {
    if rows != [] {
      MatchingKeepsOrder(rows[1..], userId, serviceName);
      var rest := Matching(rows[1..], userId, serviceName);
      forall x | x in rest
        ensures rows[0].createdAt < x.createdAt
      {
        var j :| 1 <= j < |rows| && rows[j] == x by {
          assert x in rows[1..];
          var j' :| 0 <= j' < |rows[1..]| && rows[1..][j'] == x;
          assert rows[j' + 1] == x;
        }
      }
    }
  }

  /** List returns at most `limit` rows, skipping the first `offset` matches. */
  lemma ListingLength(rows: seq<Subscription>, f: ListFilters)
    requires f.limit >= 0 && f.offset >= 0
    ensures |Listing(rows, f)| == Min(f.limit, Max(0, |Matching(rows, f.userId, f.serviceName)| - f.offset))
  {
  }

  /** Every row List returns is a stored row that matches the filters. */
  lemma ListingMatches(rows: seq<Subscription>, f: ListFilters)
    requires f.limit >= 0 && f.offset >= 0
    ensures forall x :: x in Listing(rows, f) ==> x in rows && MatchesFilters(x, f.userId, f.serviceName)
  {
    var m := Matching(rows, f.userId, f.serviceName);
    forall x | x in Listing(rows, f)
      ensures x in m
    {
      var i :| 0 <= i < |Listing(rows, f)| && Listing(rows, f)[i] == x;
      ReversedAt(m, f.offset + i);
    }
  }

  /** List's rows come newest first: created_at strictly decreases along the result. */
  lemma ListingNewestFirst(rows: seq<Subscription>, f: ListFilters)
    requires f.limit >= 0 && f.offset >= 0 && CreatedIncreasing(rows)
    ensures forall i, j :: 0 <= i < j < |Listing(rows, f)| ==> Listing(rows, f)[i].createdAt > Listing(rows, f)[j].createdAt
  {
    var m := Matching(rows, f.userId, f.serviceName);
    MatchingKeepsOrder(rows, f.userId, f.serviceName);
    forall i, j | 0 <= i < j < |Listing(rows, f)|
      ensures Listing(rows, f)[i].createdAt > Listing(rows, f)[j].createdAt
    {
      ReversedAt(m, f.offset + i);
      ReversedAt(m, f.offset + j);
    }
  }

  lemma PageSnoc<T>(s: seq<T>, x: T, offset: nat, limit: nat)
    ensures Page(s + [x], offset, limit)
            == Page(s, offset, limit) + (if offset <= |s| < offset + limit then [x] else [])
  {
  }

  // ---------------------------------------------------------------------------
  // GetSummary: the SUM over the rows the query selects

  function SumSelected(conditions: seq<Condition>, args: seq<Arg>, rows: seq<Subscription>,
                       periodStart: Month, periodEnd: Month): int
  {
    if rows == [] then 0
    else
      (if Selects(conditions, args, rows[0]) then Contribution(rows[0], periodStart, periodEnd) else 0)
      + SumSelected(conditions, args, rows[1..], periodStart, periodEnd)
  }

  lemma {:induction false} SumSelectedIsTotal(conditions: seq<Condition>, args: seq<Arg>,
                                              rows: seq<Subscription>, f: SummaryFilters)
    requires forall row :: Selects(conditions, args, row) <==> MatchesFilters(row, f.userId, f.serviceName)
    ensures SumSelected(conditions, args, rows, f.periodStart, f.periodEnd) == Total(rows, f)
  {
    if rows != [] {
      SumSelectedIsTotal(conditions, args, rows[1..], f);
    }
  }

  // ---------------------------------------------------------------------------
  // The store

  class SubscriptionStore {
    var rows: seq<Subscription>
    var clock: int

    ghost predicate Valid()
      reads this
    {
      UniqueIds(rows) && CreatedIncreasing(rows) && StampedBefore(rows, clock)
    }

    constructor ()
      ensures Valid() && rows == [] && clock == 0
    {
      rows := [];
      clock := 0;
    }

    /** INSERT ... RETURNING: a new row stamped with a fresh clock reading, unless the id is taken. */
    method Create(sub: Subscription, newId: string) returns (r: Result<Subscription, RepoError>)
      requires Valid()
      modifies this
      ensures Valid()
      ensures IndexOf(old(rows), newId) >= 0 ==>
                r == Failure(DuplicateKey) && unchanged(this)
      ensures IndexOf(old(rows), newId) < 0 ==>
                && clock == old(clock) + 1
                && r == Success(Inserted(sub, newId, clock))
                && rows == old(rows) + [r.value]
    {
      if IndexOf(rows, newId) >= 0 {
        return Failure(DuplicateKey);
      }
      clock := clock + 1;
      var created := Inserted(sub, newId, clock);
      rows := rows + [created];
      return Success(created);
    }

    /** SELECT ... WHERE id = $1; no row is "subscription not found". */
    method GetByID(id: string) returns (r: Result<Subscription, RepoError>)
      requires Valid()
      ensures r == (match Lookup(rows, id) case Some(s) => Success(s) case None => Failure(NotFound))
      ensures r.Success? ==> r.value in rows && r.value.id == id
      ensures r.Failure? <==> forall i :: 0 <= i < |rows| ==> rows[i].id != id
    {
      var k := IndexOf(rows, id);
      if k < 0 {
        return Failure(NotFound);
      }
      return Success(rows[k]);
    }

    /** UPDATE ... WHERE id = $5 RETURNING ...: four fields and updated_at change, nothing else. */
    method Update(id: string, sub: Subscription) returns (r: Result<Subscription, RepoError>)
      requires Valid()
      modifies this
      ensures Valid()
      ensures IndexOf(old(rows), id) < 0 ==>
                r == Failure(NotFound) && unchanged(this)
      ensures IndexOf(old(rows), id) >= 0 ==>
                && clock == old(clock) + 1
                && r == Success(Patched(old(rows)[IndexOf(old(rows), id)], sub, clock))
                && rows == old(rows)[IndexOf(old(rows), id) := r.value]
    {
      var k := IndexOf(rows, id);
      if k < 0 {
        return Failure(NotFound);
      }
      clock := clock + 1;
      var updated := Patched(rows[k], sub, clock);
      rows := rows[k := updated];
      return Success(updated);
    }

    /** DELETE ... WHERE id = $1; zero rows affected is "subscription not found". */
    method Delete(id: string) returns (err: Option<RepoError>)
      requires Valid()
      modifies this
      ensures Valid() && clock == old(clock)
      ensures IndexOf(old(rows), id) < 0 ==> err == Some(NotFound) && unchanged(this)
      ensures IndexOf(old(rows), id) >= 0 ==>
                && err == None
                && rows == old(rows)[..IndexOf(old(rows), id)] + old(rows)[IndexOf(old(rows), id) + 1..]
      ensures IndexOf(rows, id) < 0
    {
      var k := IndexOf(rows, id);
      if k < 0 {
        return Some(NotFound);
      }
      ghost var before := rows;
      rows := rows[..k] + rows[k + 1..];
      forall i | 0 <= i < |rows|
        ensures rows[i] == before[if i < k then i else i + 1]
      {
      }
      return None;
    }

    /**
     * SELECT ... WHERE <filters> ORDER BY created_at DESC LIMIT $n OFFSET $n+1,
     * then the row loop that collects the result. The table is scanned from
     * its newest row to its oldest. PostgreSQL refuses a negative OFFSET
     * (checked first) or LIMIT.
     */
    method List(f: ListFilters) returns (r: Result<seq<Subscription>, RepoError>)
      requires Valid()
      ensures f.offset < 0 ==> r == Failure(NegativeOffset)
      ensures f.offset >= 0 && f.limit < 0 ==> r == Failure(NegativeLimit)
      ensures f.offset >= 0 && f.limit >= 0 ==> r == Success(Listing(rows, f))
    {
      var q := BuildListQuery(f);
      // The database reads LIMIT and OFFSET from the arguments bound to their placeholders.
      var limit := q.args[q.limitAt - 1].n;
      var offset := q.args[q.offsetAt - 1].n;
      if offset < 0 {
        return Failure(NegativeOffset);
      }
      if limit < 0 {
        return Failure(NegativeLimit);
      }
      var subs: seq<Subscription> := [];
      var seen := 0;
      var i := |rows|;
      while i > 0
        invariant 0 <= i <= |rows|
        invariant seen == |Matching(rows[i..], f.userId, f.serviceName)|
        invariant subs == Page(Reversed(Matching(rows[i..], f.userId, f.serviceName)), f.offset, f.limit)
      {
        i := i - 1;
        ghost var before := Matching(rows[i + 1..], f.userId, f.serviceName);
        assert rows[i..][0] == rows[i] && rows[i..][1..] == rows[i + 1..];
        if Selects(q.conditions, q.args, rows[i]) {
          assert Matching(rows[i..], f.userId, f.serviceName) == [rows[i]] + before;
          assert Reversed([rows[i]] + before) == Reversed(before) + [rows[i]] by {
            assert ([rows[i]] + before)[1..] == before;
          }
          PageSnoc(Reversed(before), rows[i], f.offset, f.limit);
          if offset <= seen < offset + limit {
            subs := subs + [rows[i]];
          }
          seen := seen + 1;
        } else {
          assert Matching(rows[i..], f.userId, f.serviceName) == before;
        }
      }
      assert rows[0..] == rows;
      return Success(subs);
    }

    /** The SUM query over the rows the built WHERE clause selects. */
    method GetSummary(f: SummaryFilters) returns (total: int)
      requires Valid()
      ensures total == Total(rows, f)
    {
      var q := BuildSummaryQuery(f);
      total := SumSelected(q.conditions, q.args, rows, f.periodStart, f.periodEnd);
      SumSelectedIsTotal(q.conditions, q.args, rows, f);
    }
  }
}
