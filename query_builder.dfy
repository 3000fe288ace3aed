/**
 * The dynamic SQL of the repository's List and GetSummary: optional
 * " AND user_id = $n" / " AND service_name = $n" conditions appended to
 * "WHERE 1=1", with the argument list growing alongside. The query text is
 * modelled by its structure: each condition names its column and its
 * placeholder number, and the arguments are the values bound to $1, $2, ...
 */
module QueryBuilder {
  import opened MonthYear
  import opened Domain

  datatype Column = UserIdColumn | ServiceNameColumn

  /** A bound query argument. */
  datatype Arg = ArgText(text: string) | ArgInt(n: int) | ArgTime(month: Month)

  /** " AND <column> = $<placeholder>" */
  datatype Condition = Equals(column: Column, placeholder: nat)

  /** List's query: the conditions, then " ORDER BY created_at DESC LIMIT $limitAt OFFSET $offsetAt". */
  datatype ListQuery = ListQuery(conditions: seq<Condition>, limitAt: nat, offsetAt: nat, args: seq<Arg>)

  /** GetSummary's query: $1 and $2 are the period bounds, then the conditions. */
  datatype SummaryQuery = SummaryQuery(conditions: seq<Condition>, args: seq<Arg>)

  function ColumnValue(row: Subscription, c: Column): string
  {
    match c
    case UserIdColumn => row.userId
    case ServiceNameColumn => row.serviceName
  }

  /** The condition holds of a row when the argument bound to its placeholder is the row's value in that column. */
  predicate Holds(c: Condition, args: seq<Arg>, row: Subscription)
  {
    1 <= c.placeholder <= |args| && args[c.placeholder - 1] == ArgText(ColumnValue(row, c.column))
  }

  /** "WHERE 1=1 AND ...": the row satisfies every condition. */
  predicate Selects(conditions: seq<Condition>, args: seq<Arg>, row: Subscription)
  {
    forall i :: 0 <= i < |conditions| ==> Holds(conditions[i], args, row)
  }

  /** The conditions' placeholders are first, first + 1, ... in order. */
  predicate NumberedFrom(conditions: seq<Condition>, first: nat)
  {
    forall i :: 0 <= i < |conditions| ==> conditions[i].placeholder == first + i
  }

  /** How many of the two column filters are set. */
  function FilterCount(userId: string, serviceName: string): nat
  {
    (if userId != "" then 1 else 0) + (if serviceName != "" then 1 else 0)
  }

  /**
   * Conditions built for the non-empty filters, user first, numbered from
   * `first` and bound to the filter values, select exactly the matching rows.
   */
  lemma SelectsExactlyFilters(conditions: seq<Condition>, args: seq<Arg>, userId: string, serviceName: string, first: nat)
    requires first >= 1
    requires conditions == (if userId != "" then [Equals(UserIdColumn, first)] else [])
                         + (if serviceName != "" then [Equals(ServiceNameColumn, first + |conditions| - 1)] else [])
    requires first - 1 + |conditions| <= |args|
    requires userId != "" ==> args[first - 1] == ArgText(userId)
    requires serviceName != "" ==> args[first + |conditions| - 2] == ArgText(serviceName)
    ensures forall row :: Selects(conditions, args, row) <==> MatchesFilters(row, userId, serviceName)
  {
    forall row
      ensures Selects(conditions, args, row) <==> MatchesFilters(row, userId, serviceName)
    {
      if userId != "" {
        assert conditions[0] == Equals(UserIdColumn, first);
      }
      if serviceName != "" {
        var k := |conditions| - 1;
        assert conditions[k] == Equals(ServiceNameColumn, first + k);
      }
    }
  }

  /** List's query building: argIndex starts at 1 and is bumped for each filter added. */
  method BuildListQuery(f: ListFilters) returns (q: ListQuery)
    ensures |q.conditions| == FilterCount(f.userId, f.serviceName)
    ensures NumberedFrom(q.conditions, 1)
    ensures q.limitAt == |q.conditions| + 1 && q.offsetAt == q.limitAt + 1
    ensures |q.args| == q.offsetAt
    ensures q.args[q.limitAt - 1] == ArgInt(f.limit) && q.args[q.offsetAt - 1] == ArgInt(f.offset)
    ensures forall row :: Selects(q.conditions, q.args, row) <==> MatchesFilters(row, f.userId, f.serviceName)
  {
    var conditions: seq<Condition> := [];
    var args: seq<Arg> := [];
    var argIndex := 1;
    if f.userId != "" {
      conditions := conditions + [Equals(UserIdColumn, argIndex)];
      args := args + [ArgText(f.userId)];
      argIndex := argIndex + 1;
    }
    if f.serviceName != "" {
      conditions := conditions + [Equals(ServiceNameColumn, argIndex)];
      args := args + [ArgText(f.serviceName)];
      argIndex := argIndex + 1;
    }
    q := ListQuery(conditions, argIndex, argIndex + 1, args + [ArgInt(f.limit), ArgInt(f.offset)]);
    SelectsExactlyFilters(q.conditions, q.args, f.userId, f.serviceName, 1);
  }

  /** GetSummary's query building: each filter takes placeholder len(args) + 1. */
  method BuildSummaryQuery(f: SummaryFilters) returns (q: SummaryQuery)
    ensures |q.conditions| == FilterCount(f.userId, f.serviceName)
    ensures NumberedFrom(q.conditions, 3)
    ensures |q.args| == |q.conditions| + 2
    ensures q.args[0] == ArgTime(f.periodStart) && q.args[1] == ArgTime(f.periodEnd)
    ensures forall row :: Selects(q.conditions, q.args, row) <==> MatchesFilters(row, f.userId, f.serviceName)
  {
    var conditions: seq<Condition> := [];
    var args: seq<Arg> := [ArgTime(f.periodStart), ArgTime(f.periodEnd)];
    if f.userId != "" {
      conditions := conditions + [Equals(UserIdColumn, |args| + 1)];
      args := args + [ArgText(f.userId)];
    }
    if f.serviceName != "" {
      conditions := conditions + [Equals(ServiceNameColumn, |args| + 1)];
      args := args + [ArgText(f.serviceName)];
    }
    q := SummaryQuery(conditions, args);
    SelectsExactlyFilters(q.conditions, q.args, f.userId, f.serviceName, 3);
  }
}
