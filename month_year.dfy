/**
 * The month-year normaliser of pkg/utils/date.go.
 *
 * ParseToMonthYear tries six Go reference layouts in order and returns the
 * first day of the parsed month at midnight UTC. Because that result is always
 * normalised, it is modelled as the pair (year, month). Go's time.Parse is
 * modelled for the three layout elements these layouts use: "2006" (exactly
 * four digits), "01" (exactly two digits, 01..12) and "02" (exactly two
 * digits, checked against the length of the month once parsing is over), plus
 * literal characters; text left over after the layout is an error.
 */
module MonthYear {
  import opened Wrappers

  /** A calendar month; it stands for its first day at 00:00:00 UTC. */
  datatype Month = Month(year: int, month: int)

  /** The one failure of ParseToMonthYear: "invalid date format, expected MM-YYYY". */
  datatype DateError = InvalidDateFormat

  /** A month that time.Parse can produce from a four-digit year. */
  predicate WellFormed(m: Month)
  {
    0 <= m.year <= 9999 && 1 <= m.month <= 12
  }

  /** Months since January of year 0: first-of-month instants are ordered by it. */
  function Index(m: Month): int
  {
    m.year * 12 + m.month - 1
  }

  /** time.Time.After on two first-of-month UTC instants. */
  predicate After(a: Month, b: Month)
    ensures WellFormed(a) && WellFormed(b) ==>
              (After(a, b) <==> a.year > b.year || (a.year == b.year && a.month > b.month))
  {
    Index(a) > Index(b)
  }

  lemma IndexIsChronological(a: Month, b: Month)
    requires WellFormed(a) && WellFormed(b)
    ensures Index(a) < Index(b) <==> a.year < b.year || (a.year == b.year && a.month < b.month)
    ensures Index(a) == Index(b) <==> a == b
  {
  }

  // ---------------------------------------------------------------------------
  // Go reference layouts

  /** One element of a Go layout: "2006", "01", "02", or a literal character. */
  datatype Element = Year4 | Month2 | Day2 | Lit(c: char)

  type Layout = seq<Element>

  /** The layouts of date.go, in the order they are tried. */
  const Layouts: seq<Layout> := [
    [Year4, Lit('-'), Month2, Lit('-'), Day2],  // "2006-01-02"
    [Day2, Lit('.'), Month2, Lit('.'), Year4],  // "02.01.2006"
    [Month2, Lit('-'), Year4],                  // "01-2006"
    [Year4, Lit('-'), Month2],                  // "2006-01"
    [Month2, Lit('/'), Year4],                  // "01/2006"
    [Year4, Lit('/'), Month2]                   // "2006/01"
  ]

  /** A calendar date as time.Parse reads it, before normalisation. */
  datatype Date = Date(year: int, month: int, day: int)

  predicate IsLeap(year: int)
  {
    year % 4 == 0 && (year % 100 != 0 || year % 400 == 0)
  }

  /** Days in a month of the proleptic Gregorian calendar (Go's daysIn). */
  function DaysIn(month: int, year: int): (n: int)
    requires 1 <= month <= 12
    ensures 28 <= n <= 31
    ensures n == 29 <==> month == 2 && IsLeap(year)
  {
    if month == 2 then (if IsLeap(year) then 29 else 28)
    else if month == 4 || month == 6 || month == 9 || month == 11 then 30
    else 31
  }

  predicate ValidDate(d: Date)
  {
    0 <= d.year <= 9999 && 1 <= d.month <= 12 && 1 <= d.day <= DaysIn(d.month, d.year)
  }

  // ---------------------------------------------------------------------------
  // Digits

  predicate IsDigit(c: char)
  {
    '0' <= c <= '9'
  }

  predicate AllDigits(s: string)
  {
    forall i :: 0 <= i < |s| ==> IsDigit(s[i])
  }

  function Pow10(n: nat): (p: nat)
    ensures p >= 1
  {
    if n == 0 then 1 else 10 * Pow10(n - 1)
  }

  /** The value of a string of decimal digits. */
  function Number(s: string): (n: nat)
    requires AllDigits(s)
    ensures n < Pow10(|s|)
    decreases |s|
  {
    if s == [] then 0
    else Number(s[..|s| - 1]) * 10 + (s[|s| - 1] as int - '0' as int)
  }

  /** The last `width` decimal digits of n, zero-padded: what Go's Format writes. */
  function Digits(n: nat, width: nat): (s: string)
    ensures |s| == width && AllDigits(s)
  {
    if width == 0 then []
    else Digits(n / 10, width - 1) + [('0' as int + n % 10) as char]
  }

  lemma {:induction false} NumberOfDigits(n: nat, width: nat)
    requires n < Pow10(width)
    ensures Number(Digits(n, width)) == n
  {
    if width > 0 {
      var s := Digits(n, width);
      assert s[..|s| - 1] == Digits(n / 10, width - 1);
      NumberOfDigits(n / 10, width - 1);
    }
  }

  /** Writing the value of a digit string back at the string's width gives the string. */
  lemma {:induction false} DigitsOfNumber(s: string)
    requires AllDigits(s)
    ensures Digits(Number(s), |s|) == s
    decreases |s|
  {
    if s != [] {
      var init := s[..|s| - 1];
      var last := s[|s| - 1];
      assert Number(s) / 10 == Number(init) && Number(s) % 10 == last as int - '0' as int;
      DigitsOfNumber(init);
      assert s == init + [last];
    }
  }

  // ---------------------------------------------------------------------------
  // time.Parse for one layout

  /**
   * The fields collected while scanning. As in Go's parser, the year starts at
   * 0 and the month and day at -1, meaning "not in the layout".
   */
  datatype Fields = Fields(year: int, month: int, day: int)

  const Unset := Fields(0, -1, -1)

  /** Match the layout against the whole of s, collecting the fields it names. */
  function Scan(layout: Layout, s: string, acc: Fields): (r: Option<Fields>)
    ensures r.Some? ==> (0 <= r.value.year <= 9999 || r.value.year == acc.year)
    ensures r.Some? ==> (1 <= r.value.month <= 12 || r.value.month == acc.month)
    decreases |layout|
  {
    if layout == [] then
      if s == [] then Some(acc) else None  // extra text after the layout
    else
      match layout[0]
      case Lit(c) =>
        if |s| >= 1 && s[0] == c then Scan(layout[1..], s[1..], acc) else None
      case Year4 =>
        if |s| >= 4 && AllDigits(s[..4]) then Scan(layout[1..], s[4..], acc.(year := Number(s[..4])))
        else None
      case Month2 =>
        if |s| >= 2 && AllDigits(s[..2]) && 1 <= Number(s[..2]) <= 12
        then Scan(layout[1..], s[2..], acc.(month := Number(s[..2])))
        else None  // "month out of range" or not two digits
      case Day2 =>
        if |s| >= 2 && AllDigits(s[..2]) then Scan(layout[1..], s[2..], acc.(day := Number(s[..2])))
        else None
  }

  /** time.Parse(layout, s): scan, default month and day to 1, then check the day exists. */
  function ParseLayout(layout: Layout, s: string): (r: Option<Date>)
    ensures r.Some? ==> ValidDate(r.value)
  {
    match Scan(layout, s, Unset)
    case None => None
    case Some(f) =>
      var month := if f.month < 0 then 1 else f.month;
      var day := if f.day < 0 then 1 else f.day;
      if 1 <= day <= DaysIn(month, f.year) then Some(Date(f.year, month, day)) else None
  }

  /** The result of the first layout in `layouts` that parses s. */
  function FirstMatch(layouts: seq<Layout>, s: string): (r: Option<Date>)
    ensures r.Some? ==> ValidDate(r.value)
  {
    if layouts == [] then None
    else if ParseLayout(layouts[0], s).Some? then ParseLayout(layouts[0], s)
    else FirstMatch(layouts[1..], s)
  }

  /** What ParseToMonthYear computes, as a function. */
  function MonthYearOf(s: string): (r: Result<Month, DateError>)
    ensures r.Success? ==> WellFormed(r.value)
  {
    match FirstMatch(Layouts, s)
    case Some(d) => Success(Month(d.year, d.month))
    case None => Failure(InvalidDateFormat)
  }

  /** ParseToMonthYear: try each layout in order and normalise the first success. */
  method ParseToMonthYear(input: string) returns (r: Result<Month, DateError>)
    ensures r == MonthYearOf(input)
  {
    for i := 0 to |Layouts|
      invariant FirstMatch(Layouts[i..], input) == FirstMatch(Layouts, input)
    {
      assert Layouts[i..][1..] == Layouts[i + 1..];
      var t := ParseLayout(Layouts[i], input);
      if t.Some? {
        return Success(Month(t.value.year, t.value.month));
      }
    }
    return Failure(InvalidDateFormat);
  }

  // ---------------------------------------------------------------------------
  // Layout shapes: every layout accepts only strings of one fixed pattern

  /** What a position of a layout accepts: any digit, or one given character. */
  datatype CharClass = Digit | Exactly(c: char)

  function ElementShape(e: Element): seq<CharClass>
  {
    match e
    case Year4 => [Digit, Digit, Digit, Digit]
    case Month2 => [Digit, Digit]
    case Day2 => [Digit, Digit]
    case Lit(c) => [Exactly(c)]
  }

  function Shape(layout: Layout): seq<CharClass>
  {
    if layout == [] then [] else ElementShape(layout[0]) + Shape(layout[1..])
  }

  predicate Fits(c: char, k: CharClass)
  {
    match k
    case Digit => IsDigit(c)
    case Exactly(x) => c == x
  }

  predicate FitsShape(s: string, shape: seq<CharClass>)
  {
    |s| == |shape| && forall k :: 0 <= k < |s| ==> Fits(s[k], shape[k])
  }

  lemma FitsConcat(s: string, n: nat, a: seq<CharClass>, b: seq<CharClass>)
    requires n <= |s| && FitsShape(s[..n], a) && FitsShape(s[n..], b)
    ensures FitsShape(s, a + b)
  {
    forall k | 0 <= k < |s|
      ensures Fits(s[k], (a + b)[k])
    {
      if k < n {
        assert s[k] == s[..n][k];
      } else {
        assert s[k] == s[n..][k - n];
      }
    }
  }

  /** Whatever a layout scans successfully has that layout's shape. */
  lemma {:induction false} ScanFitsShape(layout: Layout, s: string, acc: Fields)
    requires Scan(layout, s, acc).Some?
    ensures FitsShape(s, Shape(layout))
  {
    if layout != [] {
      var e := layout[0];
      var w := |ElementShape(e)|;
      match e
      case Lit(c) =>
        ScanFitsShape(layout[1..], s[1..], acc);
      case Year4 =>
        ScanFitsShape(layout[1..], s[4..], acc.(year := Number(s[..4])));
      case Month2 =>
        ScanFitsShape(layout[1..], s[2..], acc.(month := Number(s[..2])));
      case Day2 =>
        ScanFitsShape(layout[1..], s[2..], acc.(day := Number(s[..2])));
      assert FitsShape(s[..w], ElementShape(e));
      FitsConcat(s, w, ElementShape(e), Shape(layout[1..]));
    }
  }

  lemma LayoutShapes()
    ensures Shape(Layouts[0]) == [Digit, Digit, Digit, Digit, Exactly('-'), Digit, Digit, Exactly('-'), Digit, Digit]
    ensures Shape(Layouts[1]) == [Digit, Digit, Exactly('.'), Digit, Digit, Exactly('.'), Digit, Digit, Digit, Digit]
    ensures Shape(Layouts[2]) == [Digit, Digit, Exactly('-'), Digit, Digit, Digit, Digit]
    ensures Shape(Layouts[3]) == [Digit, Digit, Digit, Digit, Exactly('-'), Digit, Digit]
    ensures Shape(Layouts[4]) == [Digit, Digit, Exactly('/'), Digit, Digit, Digit, Digit]
    ensures Shape(Layouts[5]) == [Digit, Digit, Digit, Digit, Exactly('/'), Digit, Digit]
  {
  }

  /** The class a character belongs to, digits taken together. */
  function ClassOf(c: char): CharClass
  {
    if IsDigit(c) then Digit else Exactly(c)
  }

  /** A string of a layout's shape has that layout's length and the classes of its third and fifth characters. */
  lemma {:induction false} SignatureOfShape(s: string, i: nat)
    requires i < |Layouts| && FitsShape(s, Shape(Layouts[i]))
    ensures |s| >= 5
    ensures (|s|, ClassOf(s[2]), ClassOf(s[4])) == (|Shape(Layouts[i])|, Shape(Layouts[i])[2], Shape(Layouts[i])[4])
  {
    LayoutShapes();
    assert Fits(s[2], Shape(Layouts[i])[2]);
    assert Fits(s[4], Shape(Layouts[i])[4]);
  }

  /** No string has the shape of two different layouts. */
  lemma {:induction false} ShapesExclusive(s: string, i: nat, j: nat)
    requires i < |Layouts| && j < |Layouts| && i != j
    ensures FitsShape(s, Shape(Layouts[i])) ==> !FitsShape(s, Shape(Layouts[j]))
  {
    LayoutShapes();
    if FitsShape(s, Shape(Layouts[i])) {
      SignatureOfShape(s, i);
    }
    if FitsShape(s, Shape(Layouts[j])) {
      SignatureOfShape(s, j);
    }
  }

  /** At most one layout scans any input. */
  lemma {:induction false} ScansExclusive(s: string, i: nat, j: nat)
    requires i < |Layouts| && j < |Layouts| && i != j
    ensures Scan(Layouts[i], s, Unset).None? || Scan(Layouts[j], s, Unset).None?
  {
    if Scan(Layouts[i], s, Unset).Some? {
      ScanFitsShape(Layouts[i], s, Unset);
    }
    if Scan(Layouts[j], s, Unset).Some? {
      ScanFitsShape(Layouts[j], s, Unset);
    }
    ShapesExclusive(s, i, j);
  }

  /** At most one layout parses any input, so the order of the list never decides a result. */
  lemma {:induction false} LayoutsExclusive(s: string, i: nat, j: nat)
    requires i < |Layouts| && j < |Layouts| && i != j
    ensures ParseLayout(Layouts[i], s).None? || ParseLayout(Layouts[j], s).None?
  {
    ScansExclusive(s, i, j);
  }

  /** Every layout begins with a digit. */
  lemma {:induction false} ScannedStartsWithDigit(s: string, i: nat)
    requires i < |Layouts|
    ensures Scan(Layouts[i], s, Unset).Some? ==> |s| > 0 && IsDigit(s[0])
  {
    if Scan(Layouts[i], s, Unset).Some? {
      ScanFitsShape(Layouts[i], s, Unset);
      LayoutShapes();
      assert Fits(s[0], Shape(Layouts[i])[0]);
    }
  }

  lemma {:induction false} FirstMatchFinds(layouts: seq<Layout>, s: string, i: nat)
    requires i < |layouts| && ParseLayout(layouts[i], s).Some?
    requires forall j :: 0 <= j < i ==> ParseLayout(layouts[j], s).None?
    ensures FirstMatch(layouts, s) == ParseLayout(layouts[i], s)
  {
    if i > 0 {
      FirstMatchFinds(layouts[1..], s, i - 1);
    }
  }

  lemma {:induction false} FirstMatchNone(layouts: seq<Layout>, s: string)
    ensures FirstMatch(layouts, s).None? <==> forall j :: 0 <= j < |layouts| ==> ParseLayout(layouts[j], s).None?
  {
    if layouts != [] {
      FirstMatchNone(layouts[1..], s);
      assert forall j :: 1 <= j < |layouts| ==> layouts[j] == layouts[1..][j - 1];
    }
  }

  /**
   * Whichever layout parses the input, the result is the year and month that
   * layout read; the day read (if any) is dropped.
   */
  lemma {:induction false} ResultIsParsedMonth(s: string, i: nat)
    requires i < |Layouts| && ParseLayout(Layouts[i], s).Some?
    ensures MonthYearOf(s) == Success(Month(ParseLayout(Layouts[i], s).value.year, ParseLayout(Layouts[i], s).value.month))
  {
    forall j | 0 <= j < i
      ensures ParseLayout(Layouts[j], s).None?
    {
      LayoutsExclusive(s, i, j);
    }
    FirstMatchFinds(Layouts, s, i);
  }

  /** The input is rejected exactly when no layout parses it. */
  lemma RejectedIffNoLayoutParses(s: string)
    ensures MonthYearOf(s) == Failure(InvalidDateFormat) <==>
            forall j :: 0 <= j < |Layouts| ==> ParseLayout(Layouts[j], s).None?
  {
    FirstMatchNone(Layouts, s);
  }

  // ---------------------------------------------------------------------------
  // Formatting, the inverse of parsing

  /** A date whose fields fit the widths of the layout elements. */
  predicate Printable(d: Date)
  {
    0 <= d.year < 10000 && 0 <= d.month < 100 && 0 <= d.day < 100
  }

  function Piece(e: Element, d: Date): string
    requires Printable(d)
  {
    match e
    case Year4 => Digits(d.year, 4)
    case Month2 => Digits(d.month, 2)
    case Day2 => Digits(d.day, 2)
    case Lit(c) => [c]
  }

  /** time.Time.Format(layout) restricted to the elements above. */
  function Format(layout: Layout, d: Date): string
    requires Printable(d)
  {
    if layout == [] then [] else Piece(layout[0], d) + Format(layout[1..], d)
  }

  /** The fields a layout sets when it reads d; the others keep their values in acc. */
  function Expected(layout: Layout, d: Date, acc: Fields): Fields
  {
    Fields(if Year4 in layout then d.year else acc.year,
           if Month2 in layout then d.month else acc.month,
           if Day2 in layout then d.day else acc.day)
  }

  lemma {:induction false} ScanFormat(layout: Layout, d: Date, acc: Fields)
    requires Printable(d) && 1 <= d.month <= 12
    ensures Scan(layout, Format(layout, d), acc) == Some(Expected(layout, d, acc))
  {
    if layout != [] {
      var s := Format(layout, d);
      var rest := Format(layout[1..], d);
      assert forall x :: x in layout <==> x == layout[0] || x in layout[1..];
      match layout[0]
      case Lit(c) =>
        assert s[1..] == rest;
        ScanFormat(layout[1..], d, acc);
      case Year4 =>
        assert s[..4] == Digits(d.year, 4) && s[4..] == rest;
        NumberOfDigits(d.year, 4);
        ScanFormat(layout[1..], d, acc.(year := d.year));
      case Month2 =>
        assert s[..2] == Digits(d.month, 2) && s[2..] == rest;
        NumberOfDigits(d.month, 2);
        ScanFormat(layout[1..], d, acc.(month := d.month));
      case Day2 =>
        assert s[..2] == Digits(d.day, 2) && s[2..] == rest;
        NumberOfDigits(d.day, 2);
        ScanFormat(layout[1..], d, acc.(day := d.day));
    }
  }

  /** Every layout reads back the date it formats (a layout without a day reads day 1). */
  lemma {:induction false} ParseFormat(i: nat, d: Date)
    requires i < |Layouts| && ValidDate(d)
    requires Day2 !in Layouts[i] ==> d.day == 1
    ensures ParseLayout(Layouts[i], Format(Layouts[i], d)) == Some(d)
  {
    ScanFormat(Layouts[i], d, Unset);
    assert Year4 in Layouts[i] && Month2 in Layouts[i];
  }

  /** The display format MM-YYYY ("01-2006"). */
  function FormatMonthYear(m: Month): string
    requires WellFormed(m)
  {
    Format(Layouts[2], Date(m.year, m.month, 1))
  }

  /** Normalising the displayed form of a month gives that month back. */
  lemma MonthYearRoundTrip(m: Month)
    requires WellFormed(m)
    ensures MonthYearOf(FormatMonthYear(m)) == Success(m)
  {
    var d := Date(m.year, m.month, 1);
    ParseFormat(2, d);
    ResultIsParsedMonth(FormatMonthYear(m), 2);
  }

  /** Any valid date, written in any layout, normalises to its month. */
  lemma {:induction false} EveryLayoutNormalises(i: nat, d: Date)
    requires i < |Layouts| && ValidDate(d)
    requires Day2 !in Layouts[i] ==> d.day == 1
    ensures MonthYearOf(Format(Layouts[i], d)) == Success(Month(d.year, d.month))
  {
    ParseFormat(i, d);
    ResultIsParsedMonth(Format(Layouts[i], d), i);
  }

  /** The day written in the input never changes the result: two days of one month give the same month. */
  lemma DayIsIgnored(i: nat, d1: Date, d2: Date)
    requires i < |Layouts| && Day2 in Layouts[i]
    requires ValidDate(d1) && ValidDate(d2) && d1.year == d2.year && d1.month == d2.month
    ensures MonthYearOf(Format(Layouts[i], d1)) == MonthYearOf(Format(Layouts[i], d2))
  {
    EveryLayoutNormalises(i, d1);
    EveryLayoutNormalises(i, d2);
  }

  /**
   * What a successful scan leaves in each field: a value in range when the
   * layout names the field, the value it had before otherwise.
   */
  lemma {:induction false} ScanSets(layout: Layout, s: string, acc: Fields)
    requires Scan(layout, s, acc).Some?
    ensures var f := Scan(layout, s, acc).value;
            && (if Year4 in layout then 0 <= f.year < 10000 else f.year == acc.year)
            && (if Month2 in layout then 1 <= f.month <= 12 else f.month == acc.month)
            && (if Day2 in layout then 0 <= f.day < 100 else f.day == acc.day)
    decreases |layout|
  {
    if layout != [] {
      var rest := layout[1..];
      assert forall x :: x in layout <==> x == layout[0] || x in rest;
      match layout[0]
      case Lit(c) =>
        ScanSets(rest, s[1..], acc);
      case Year4 =>
        assert Pow10(4) == 10000;
        ScanSets(rest, s[4..], acc.(year := Number(s[..4])));
      case Month2 =>
        ScanSets(rest, s[2..], acc.(month := Number(s[..2])));
      case Day2 =>
        assert Pow10(2) == 100;
        ScanSets(rest, s[2..], acc.(day := Number(s[..2])));
    }
  }

  /** No field element occurs twice in the layout. */
  predicate FieldsOnce(layout: Layout)
  {
    forall i, j :: 0 <= i < j < |layout| && !layout[i].Lit? ==> layout[i] != layout[j]
  }

  /**
   * The converse of ScanFormat: an input a layout scans is exactly that
   * layout's rendering of any printable date agreeing with the fields read.
   */
  lemma {:induction false} ScanReadsBack(layout: Layout, s: string, acc: Fields, d: Date)
    requires Scan(layout, s, acc).Some? && FieldsOnce(layout) && Printable(d)
    requires Year4 in layout ==> d.year == Scan(layout, s, acc).value.year
    requires Month2 in layout ==> d.month == Scan(layout, s, acc).value.month
    requires Day2 in layout ==> d.day == Scan(layout, s, acc).value.day
    ensures Format(layout, d) == s
    decreases |layout|
  {
    if layout != [] {
      var rest := layout[1..];
      assert FieldsOnce(rest) by {
        forall i, j | 0 <= i < j < |rest| && !rest[i].Lit?
          ensures rest[i] != rest[j]
        {
          assert rest[i] == layout[i + 1] && rest[j] == layout[j + 1];
        }
      }
      forall j | 0 <= j < |rest| && !layout[0].Lit?
        ensures rest[j] != layout[0]
      {
        assert rest[j] == layout[j + 1];
      }
      assert forall x :: x in layout <==> x == layout[0] || x in rest;
      match layout[0]
      case Lit(c) =>
        ScanReadsBack(rest, s[1..], acc, d);
        assert s == [c] + s[1..];
      case Year4 =>
        var acc' := acc.(year := Number(s[..4]));
        ScanSets(rest, s[4..], acc');
        ScanReadsBack(rest, s[4..], acc', d);
        DigitsOfNumber(s[..4]);
        assert s == s[..4] + s[4..];
      case Month2 =>
        var acc' := acc.(month := Number(s[..2]));
        ScanSets(rest, s[2..], acc');
        ScanReadsBack(rest, s[2..], acc', d);
        DigitsOfNumber(s[..2]);
        assert s == s[..2] + s[2..];
      case Day2 =>
        var acc' := acc.(day := Number(s[..2]));
        ScanSets(rest, s[2..], acc');
        ScanReadsBack(rest, s[2..], acc', d);
        DigitsOfNumber(s[..2]);
        assert s == s[..2] + s[2..];
    }
  }

  /** Each of the six layouts names every field at most once. */
  lemma LayoutsFieldsOnce(i: nat)
    requires i < |Layouts|
    ensures FieldsOnce(Layouts[i])
  {
  }

  /**
   * Every input a layout accepts is that layout's rendering of the date it
   * parses to: no other spelling (no sign, no extra digit, no other separator)
   * gets through.
   */
  lemma {:induction false} ParsedInputIsFormatted(i: nat, s: string)
    requires i < |Layouts| && ParseLayout(Layouts[i], s).Some?
    ensures Format(Layouts[i], ParseLayout(Layouts[i], s).value) == s
  {
    ScanSets(Layouts[i], s, Unset);
    LayoutsFieldsOnce(i);
    ScanReadsBack(Layouts[i], s, Unset, ParseLayout(Layouts[i], s).value);
  }

  // The concrete spellings used below, each checked on its own (evaluating
  // Format on literals is costly when several share one proof).
  lemma SpelledYmd() ensures Format(Layouts[0], Date(2024, 1, 15)) == "2024-01-15" {}
  lemma SpelledDmy() ensures Format(Layouts[1], Date(2024, 1, 15)) == "15.01.2024" {}
  lemma SpelledMyDash() ensures Format(Layouts[2], Date(2024, 1, 1)) == "01-2024" {}
  lemma SpelledYmDash() ensures Format(Layouts[3], Date(2024, 1, 1)) == "2024-01" {}
  lemma SpelledMySlash() ensures Format(Layouts[4], Date(2024, 1, 1)) == "01/2024" {}
  lemma SpelledYmSlash() ensures Format(Layouts[5], Date(2024, 1, 1)) == "2024/01" {}
  lemma SpelledFebruary30() ensures Format(Layouts[0], Date(2024, 2, 30)) == "2024-02-30" {}

  /** The six accepted spellings of January 2024 all normalise to 2024-01-01 UTC. */
  lemma JanuaryExamples(s: string)
    requires s in ["2024-01-15", "15.01.2024", "01-2024", "2024-01", "01/2024", "2024/01"]
    ensures MonthYearOf(s) == Success(Month(2024, 1))
  {
    SpelledYmd(); SpelledDmy(); SpelledMyDash(); SpelledYmDash(); SpelledMySlash(); SpelledYmSlash();
    var mid := Date(2024, 1, 15);
    var first := Date(2024, 1, 1);
    if s == "2024-01-15" {
      EveryLayoutNormalises(0, mid);
    } else if s == "15.01.2024" {
      EveryLayoutNormalises(1, mid);
    } else if s == "01-2024" {
      EveryLayoutNormalises(2, first);
    } else if s == "2024-01" {
      EveryLayoutNormalises(3, first);
    } else if s == "01/2024" {
      EveryLayoutNormalises(4, first);
    } else {
      EveryLayoutNormalises(5, first);
    }
  }

  /** A string that starts with a letter fits no layout; a day past the month's end is refused too. */
  lemma RejectedExamples(s: string)
    requires s in ["not-a-date", "2024-02-30"]
    ensures MonthYearOf(s) == Failure(InvalidDateFormat)
  {
    if s == "not-a-date" {
      forall j | 0 <= j < |Layouts|
        ensures ParseLayout(Layouts[j], s).None?
      {
        ScannedStartsWithDigit(s, j);
      }
    } else {
      SpelledFebruary30();
      ScanFormat(Layouts[0], Date(2024, 2, 30), Unset);
      forall j | 0 <= j < |Layouts|
        ensures ParseLayout(Layouts[j], s).None?
      {
        if j != 0 {
          ScansExclusive(s, 0, j);
        }
      }
    }
    RejectedIffNoLayoutParses(s);
  }
}
