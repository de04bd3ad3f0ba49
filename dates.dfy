/** Calendar dates as Python's `datetime.date` holds them (proleptic Gregorian, years 1 to 9999),
    the `%Y-%m-%d` parsing and `%m/%d/%Y` formatting the client does, and the date-range
    normalisation of `get_assigned_shift_list`. */
module Dates {
  import opened Wrappers
  import opened Text
  import opened PyValues

  datatype Date = Date(year: int, month: int, day: int)

  const MaxYear: int := 9999

  /** The longest span, in days, the remote service accepts for a shift query. */
  const MaxSpan: int := 31

  predicate IsLeap(y: int)
  {
    y % 4 == 0 && (y % 100 != 0 || y % 400 == 0)
  }

  function DaysInMonth(y: int, m: int): (n: int)
    requires 1 <= m <= 12
    ensures 28 <= n <= 31
  {
    if m == 2 then (if IsLeap(y) then 29 else 28)
    else if m == 4 || m == 6 || m == 9 || m == 11 then 30
    else 31
  }

  function DaysInYear(y: int): int
  {
    if IsLeap(y) then 366 else 365
  }

  /** A calendar date from year 1 on, with no upper bound on the year. */
  predicate WellFormed(d: Date)
  {
    d.year >= 1 && 1 <= d.month <= 12 && 1 <= d.day <= DaysInMonth(d.year, d.month)
  }

  /** A date `datetime.date` can hold. */
  predicate Valid(d: Date)
  {
    WellFormed(d) && d.year <= MaxYear
  }

  function DaysBeforeYear(y: int): int
    requires y >= 1
  {
    var x := y - 1;
    x * 365 + x / 4 - x / 100 + x / 400
  }

  function DaysBeforeMonth(y: int, m: int): int
    requires 1 <= m <= 12
  {
    [0, 31, 59, 90, 120, 151, 181, 212, 243, 273, 304, 334][m - 1] + (if m > 2 && IsLeap(y) then 1 else 0)
  }

  /** `date.toordinal()`: 1 January of year 1 is day 1. */
  function Ordinal(d: Date): (r: int)
    requires WellFormed(d)
    ensures r >= 1
    ensures d.year == 1 && d.month == 1 ==> r == d.day
  {
    DaysBeforeYearNonNegative(d.year);
    DaysBeforeYear(d.year) + DaysBeforeMonth(d.year, d.month) + d.day
  }

  lemma DaysBeforeYearNonNegative(y: int)
    requires y >= 1
    ensures DaysBeforeYear(y) >= 0
  {
    var x := y - 1;
    assert x / 4 >= x / 100;
  }

  lemma YearStep(y: int)
    requires y >= 1
    ensures DaysBeforeYear(y + 1) == DaysBeforeYear(y) + DaysInYear(y)
  {
    DivStep4(y);
    DivStep100(y);
    DivStep400(y);
    DivisorsOf400(y);
  }

  /** A multiple of 400 is a multiple of 100, and a multiple of 100 one of 4. */
  lemma DivisorsOf400(y: int)
    ensures y % 400 == 0 ==> y % 100 == 0
    ensures y % 100 == 0 ==> y % 4 == 0
  {
    if y % 400 == 0 {
      HundredsMod(y, 4 * (y / 400));
    }
    if y % 100 == 0 {
      FoursMod(y, 25 * (y / 100));
    }
  }

  lemma HundredsMod(y: int, q: int)
    requires y == 100 * q
    ensures y % 100 == 0
  {
  }

  lemma FoursMod(y: int, q: int)
    requires y == 4 * q
    ensures y % 4 == 0
  {
  }

  /** Crossing year `y` adds a leap-year term exactly when `y` is a multiple of the divisor. */
  lemma DivStep4(y: int)
    ensures y / 4 - (y - 1) / 4 == if y % 4 == 0 then 1 else 0
  {
  }

  lemma DivStep100(y: int)
    ensures y / 100 - (y - 1) / 100 == if y % 100 == 0 then 1 else 0
  {
  }

  lemma DivStep400(y: int)
    ensures y / 400 - (y - 1) / 400 == if y % 400 == 0 then 1 else 0
  {
  }

  lemma {:induction false} YearsAscend(y1: int, y2: int)
    requires 1 <= y1 < y2
    ensures DaysBeforeYear(y1) + DaysInYear(y1) <= DaysBeforeYear(y2)
    decreases y2 - y1
  {
    YearStep(y1);
    if y1 + 1 < y2 {
      YearsAscend(y1 + 1, y2);
      YearStep(y1 + 1);
    }
  }

  lemma MonthBounds(y: int, m1: int, m2: int)
    requires 1 <= m1 < m2 <= 12
    ensures DaysBeforeMonth(y, m1) + DaysInMonth(y, m1) <= DaysBeforeMonth(y, m2)
  {
  }

  lemma YearEnd(y: int)
    ensures DaysBeforeMonth(y, 12) + DaysInMonth(y, 12) == DaysInYear(y)
  {
  }

  lemma MonthStep(y: int, m: int)
    requires 1 <= m < 12
    ensures DaysBeforeMonth(y, m + 1) == DaysBeforeMonth(y, m) + DaysInMonth(y, m)
  {
  }

  /** A date's ordinal lies inside its year. */
  lemma OrdinalInYear(d: Date)
    requires WellFormed(d)
    ensures DaysBeforeYear(d.year) < Ordinal(d) <= DaysBeforeYear(d.year) + DaysInYear(d.year)
  {
    if d.month < 12 {
      MonthBounds(d.year, d.month, 12);
    }
    YearEnd(d.year);
  }

  /** Python compares dates field by field: year, then month, then day. */
  predicate Before(a: Date, b: Date)
    ensures Before(a, b) ==> a != b && a.year <= b.year
    ensures a.year < b.year ==> Before(a, b)
  {
    a.year < b.year
    || (a.year == b.year && a.month < b.month)
    || (a.year == b.year && a.month == b.month && a.day < b.day)
  }

  /** `<` on dates is a strict total order. */
  lemma BeforeIsStrictTotalOrder(a: Date, b: Date, c: Date)
    ensures !Before(a, a)
    ensures Before(a, b) ==> !Before(b, a)
    ensures Before(a, b) && Before(b, c) ==> Before(a, c)
    ensures a != b ==> Before(a, b) || Before(b, a)
  {
  }

  /** The field-by-field order of dates is the order of their ordinals. */
  lemma {:induction false} BeforeIffOrdinalLess(a: Date, b: Date)
    requires WellFormed(a) && WellFormed(b)
    ensures Before(a, b) <==> Ordinal(a) < Ordinal(b)
    ensures a == b <==> Ordinal(a) == Ordinal(b)
  {
    OrdinalInYear(a);
    OrdinalInYear(b);
    if a.year < b.year {
      YearsAscend(a.year, b.year);
    } else if b.year < a.year {
      YearsAscend(b.year, a.year);
    } else if a.month < b.month {
      MonthBounds(a.year, a.month, b.month);
    } else if b.month < a.month {
      MonthBounds(a.year, b.month, a.month);
    }
  }

  /** The day after `d`. */
  function NextDay(d: Date): (r: Date)
    requires WellFormed(d)
    ensures WellFormed(r) && Ordinal(r) == Ordinal(d) + 1
  {
    if d.day < DaysInMonth(d.year, d.month) then Date(d.year, d.month, d.day + 1)
    else if d.month < 12 then
      MonthStep(d.year, d.month);
      Date(d.year, d.month + 1, 1)
    else
      YearEnd(d.year);
      YearStep(d.year);
      Date(d.year + 1, 1, 1)
  }

  /** `d + timedelta(days=n)` for n >= 0, before Python's range check on the year. */
  function AddDays(d: Date, n: nat): (r: Date)
    requires WellFormed(d)
    ensures WellFormed(r) && Ordinal(r) == Ordinal(d) + n
    decreases n
  {
    if n == 0 then d else AddDays(NextDay(d), n - 1)
  }

  /** `(end - start).days`. */
  function DaysBetween(start: Date, end: Date): (n: int)
    requires WellFormed(start) && WellFormed(end)
    ensures n == 0 <==> start == end
    ensures n < 0 <==> Before(end, start)
    ensures n > 0 <==> Before(start, end)
  {
    BeforeIffOrdinalLess(start, end);
    BeforeIffOrdinalLess(end, start);
    Ordinal(end) - Ordinal(start)
  }

  /** The date-range rule of `get_assigned_shift_list`: an end before the start is moved to the
      start, and a span over 31 days is cut to 31 days; the start never changes. */
  function Normalize(start: Date, end: Date): (r: (Date, Date))
    requires Valid(start) && Valid(end)
    ensures r.0 == start && Valid(r.1)
    ensures Ordinal(start) <= Ordinal(r.1) <= Ordinal(start) + MaxSpan
    ensures Ordinal(start) <= Ordinal(end) <= Ordinal(start) + MaxSpan ==> r.1 == end
    ensures Before(end, start) ==> r.1 == start
    ensures Ordinal(end) > Ordinal(start) + MaxSpan ==> Ordinal(r.1) == Ordinal(start) + MaxSpan
  {
    BeforeIffOrdinalLess(end, start);
    var end1 := if Before(end, start) then start else end;
    if DaysBetween(start, end1) > MaxSpan then
      var clamped := AddDays(start, MaxSpan);
      BeforeIffOrdinalLess(clamped, end1);
      (start, clamped)
    else
      (start, end1)
  }

  /** Normalising twice changes nothing more. */
  lemma NormalizeIdempotent(start: Date, end: Date)
    requires Valid(start) && Valid(end)
    ensures Normalize(start, Normalize(start, end).1) == Normalize(start, end)
  {
  }

  // ---- `datetime.strptime(text, "%Y-%m-%d")` ----

  /** The `%m` directive of CPython's `_strptime`, `1[0-2]|0[1-9]|[1-9]`, followed by the literal
      `-`: the month and the position after the dash. The regex engine backtracks from a two-digit
      month to a one-digit one when no dash follows. */
  function MonthThenDash(s: string, i: nat): (r: Option<(int, nat)>)
    ensures r.Some? ==> 1 <= r.value.0 <= 12 && i + 2 <= r.value.1 <= |s| && s[r.value.1 - 1] == '-'
  {
    if i + 3 <= |s| && ((s[i] == '1' && '0' <= s[i + 1] <= '2') || (s[i] == '0' && '1' <= s[i + 1] <= '9')) && s[i + 2] == '-' then
      Some((DigitValue(s[i]) * 10 + DigitValue(s[i + 1]), i + 3))
    else if i + 2 <= |s| && '1' <= s[i] <= '9' && s[i + 1] == '-' then
      Some((DigitValue(s[i]), i + 2))
    else None
  }

  /** The `%d` directive, `3[01]|[12]\d|0[1-9]|[1-9]| [1-9]`, at the end of the format: the first
      alternative that matches is taken, and the position after it. */
  function DayAt(s: string, i: nat): (r: Option<(int, nat)>)
    ensures r.Some? ==> 1 <= r.value.0 <= 31 && i < r.value.1 <= |s|
  {
    if i + 2 <= |s| && s[i] == '3' && (s[i + 1] == '0' || s[i + 1] == '1') then Some((DigitValue(s[i]) * 10 + DigitValue(s[i + 1]), i + 2))
    else if i + 2 <= |s| && (s[i] == '1' || s[i] == '2') && IsDigit(s[i + 1]) then Some((DigitValue(s[i]) * 10 + DigitValue(s[i + 1]), i + 2))
    else if i + 2 <= |s| && s[i] == '0' && '1' <= s[i + 1] <= '9' then Some((DigitValue(s[i + 1]), i + 2))
    else if i + 1 <= |s| && '1' <= s[i] <= '9' then Some((DigitValue(s[i]), i + 1))
    else if i + 2 <= |s| && s[i] == ' ' && '1' <= s[i + 1] <= '9' then Some((DigitValue(s[i + 1]), i + 2))
    else None
  }

  /** `datetime.datetime.strptime(s, "%Y-%m-%d").date()`: four digits, a dash, a month, a dash, a
      day, and nothing after; the fields must name a real date. */
  function ParseIsoDate(s: string): (r: Result<Date, Error>)
    ensures r.Ok? ==> Valid(r.value)
  {
    if |s| < 5 || !AllDigits(s[..4]) || s[4] != '-' then Err(DateFormatError(s))
    else
      match MonthThenDash(s, 5)
      case None => Err(DateFormatError(s))
      case Some((month, i)) =>
        match DayAt(s, i)
        case None => Err(DateFormatError(s))
        case Some((day, j)) =>
          if j != |s| then Err(DateFormatError(s))
          else
            DigitsValueBound(s[..4]);
            var d := Date(DigitsValue(s[..4]), month, day);
            if d.year < 1 || d.day > DaysInMonth(d.year, d.month) then Err(DateRangeError(d.year, d.month, day))
            else Ok(d)
  }

  /** `date.isoformat()`: `YYYY-MM-DD`, zero-padded. */
  function IsoText(d: Date): string
    requires Valid(d)
  {
    Padded(d.year, 4) + "-" + Padded(d.month, 2) + "-" + Padded(d.day, 2)
  }

  /** `date.strftime("%m/%d/%Y")`: the wire format of the remote service. Reading the three digit
      groups back gives the month, the day and the year. */
  function WireText(d: Date): (r: string)
    requires Valid(d)
    ensures |r| == 10 && r[2] == '/' && r[5] == '/'
    ensures AllDigits(r[..2]) && DigitsValue(r[..2]) == d.month
    ensures AllDigits(r[3..5]) && DigitsValue(r[3..5]) == d.day
    ensures AllDigits(r[6..]) && DigitsValue(r[6..]) == d.year
  {
    var mm, dd, yyyy := Padded(d.month, 2), Padded(d.day, 2), Padded(d.year, 4);
    assert Pow10(2) == 100 && Pow10(4) == 10000;
    var r := mm + "/" + dd + "/" + yyyy;
    assert r[..2] == mm && r[3..5] == dd && r[6..] == yyyy;
    r
  }

  /** Two digit strings of the same length with the same value are the same string. */
  lemma {:induction false} DigitsInjective(s: string, t: string)
    requires AllDigits(s) && AllDigits(t) && |s| == |t| && DigitsValue(s) == DigitsValue(t)
    ensures s == t
  {
    if s != [] {
      var n := |s| - 1;
      assert AllDigits(s[..n]) && AllDigits(t[..n]);
      assert DigitValue(s[n]) == DigitValue(t[n]);
      DigitsInjective(s[..n], t[..n]);
      assert s == s[..n] + [s[n]] && t == t[..n] + [t[n]];
    }
  }

  /** Formatting a date parsed from a zero-padded `YYYY-MM-DD` text rearranges that text's own
      digits into `MM/DD/YYYY`. */
  lemma WireTextOfParsed(s: string)
    requires |s| == 10 && AllDigits(s[5..7]) && AllDigits(s[8..])
    requires ParseIsoDate(s).Ok?
    ensures WireText(ParseIsoDate(s).value) == s[5..7] + "/" + s[8..] + "/" + s[..4]
  {
    ParsedFields(s);
    WireTextOfDigits(ParseIsoDate(s).value, s[5..7], s[8..], s[..4]);
  }

  /** The wire text of a date is determined by the digit groups of its fields. */
  lemma WireTextOfDigits(d: Date, mm: string, dd: string, yyyy: string)
    requires Valid(d)
    requires |mm| == 2 && AllDigits(mm) && DigitsValue(mm) == d.month
    requires |dd| == 2 && AllDigits(dd) && DigitsValue(dd) == d.day
    requires |yyyy| == 4 && AllDigits(yyyy) && DigitsValue(yyyy) == d.year
    ensures WireText(d) == mm + "/" + dd + "/" + yyyy
  {
    var r := WireText(d);
    DigitsInjective(r[..2], mm);
    DigitsInjective(r[3..5], dd);
    DigitsInjective(r[6..], yyyy);
    SplitAtSlashes(r);
  }

  lemma SplitAtSlashes(r: string)
    requires |r| == 10 && r[2] == '/' && r[5] == '/'
    ensures r == r[..2] + "/" + r[3..5] + "/" + r[6..]
  {
  }

  /** The fields of a date parsed from a ten-character text are the values of its digit groups. */
  lemma ParsedFields(s: string)
    requires |s| == 10 && AllDigits(s[5..7]) && AllDigits(s[8..])
    requires ParseIsoDate(s).Ok?
    ensures AllDigits(s[..4]) && ParseIsoDate(s).value.year == DigitsValue(s[..4])
    ensures ParseIsoDate(s).value.month == DigitsValue(s[5..7])
    ensures ParseIsoDate(s).value.day == DigitsValue(s[8..])
  {
    var d := ParseIsoDate(s).value;
    assert MonthThenDash(s, 5) == Some((d.month, 8));
    assert DayAt(s, 8) == Some((d.day, 10));
    TwoDigitsValue(s[5..7]);
    TwoDigitsValue(s[8..]);
  }

  /** `strptime` reads back every date that `isoformat` writes. */
  lemma ParseIsoText(d: Date)
    requires Valid(d)
    ensures ParseIsoDate(IsoText(d)) == Ok(d)
  {
    var s := IsoText(d);
    var y, m, dd := Padded(d.year, 4), Padded(d.month, 2), Padded(d.day, 2);
    assert Pow10(2) == 100 && Pow10(4) == 10000;
    assert s[..4] == y;
    assert s[4] == '-' && s[7] == '-' && |s| == 10;
    assert s[5] == m[0] && s[6] == m[1] && s[8] == dd[0] && s[9] == dd[1];
    MonthParses(s, d.month);
    DayParses(s, d.day);
  }

  lemma MonthParses(s: string, month: int)
    requires 1 <= month <= 12 && |s| >= 8 && s[7] == '-'
    requires s[5] == Padded(month, 2)[0] && s[6] == Padded(month, 2)[1]
    ensures MonthThenDash(s, 5) == Some((month, 8))
  {
    TwoDigits(month);
  }

  lemma DayParses(s: string, day: int)
    requires 1 <= day <= 31 && |s| == 10
    requires s[8] == Padded(day, 2)[0] && s[9] == Padded(day, 2)[1]
    ensures DayAt(s, 8) == Some((day, 10))
  {
    TwoDigits(day);
  }

  /** The two characters of a zero-padded two-digit number. */
  lemma TwoDigits(n: int)
    requires 1 <= n <= 99
    ensures var p := Padded(n, 2);
            |p| == 2 && p[0] == DigitChar(n / 10) && p[1] == DigitChar(n % 10)
  {
    var p := Padded(n, 2);
    var q := [DigitChar(n / 10), DigitChar(n % 10)];
    assert q[..1] == [DigitChar(n / 10)];
    assert DigitsValue(q) == n;
    DigitsInjective(p, q);
  }

  // ---- Two examples of the range rule ----

  lemma StartAfterEndCollapses()
    ensures Normalize(Date(2024, 3, 10), Date(2024, 3, 1)) == (Date(2024, 3, 10), Date(2024, 3, 10))
  {
  }

  lemma LongSpanIsClamped()
    ensures Normalize(Date(2024, 1, 1), Date(2024, 3, 1)).1 == Date(2024, 2, 1)
  {
    var start, end, cut := Date(2024, 1, 1), Date(2024, 3, 1), Date(2024, 2, 1);
    assert Ordinal(end) >= Ordinal(start) + 59;
    assert Ordinal(cut) == Ordinal(start) + MaxSpan;
    BeforeIffOrdinalLess(Normalize(start, end).1, cut);
  }

  /** Reading the year "2024". */
  lemma Year2024(s: string)
    requires |s| >= 4 && s[0] == '2' && s[1] == '0' && s[2] == '2' && s[3] == '4'
    ensures AllDigits(s[..4]) && DigitsValue(s[..4]) == 2024
  {
    var y := s[..4];
    assert y == ['2', '0', '2', '4'];
    assert y[..3] == ['2', '0', '2'] && y[..3][..2] == ['2', '0'] && y[..3][..2][..1] == ['2'];
    assert DigitsValue(['2']) == 2;
    assert DigitsValue(['2', '0']) == 20;
    assert DigitsValue(['2', '0', '2']) == 202;
  }

  lemma ParseFullDate()
    ensures ParseIsoDate("2024-03-10") == Ok(Date(2024, 3, 10))
  {
    var s := "2024-03-10";
    Year2024(s);
    assert MonthThenDash(s, 5) == Some((3, 8));
    assert DayAt(s, 8) == Some((10, 10));
  }

  lemma ParseFirstOfMarch()
    ensures ParseIsoDate("2024-03-01") == Ok(Date(2024, 3, 1))
  {
    var s := "2024-03-01";
    Year2024(s);
    assert MonthThenDash(s, 5) == Some((3, 8));
    assert DayAt(s, 8) == Some((1, 10));
  }

  /** A one-digit month: the two-digit alternative fails at the dash and the one-digit one is
      taken. */
  lemma ParseShortFields()
    ensures ParseIsoDate("2024-3-1") == Ok(Date(2024, 3, 1))
  {
    var s := "2024-3-1";
    Year2024(s);
    assert MonthThenDash(s, 5) == Some((3, 7));
    assert DayAt(s, 7) == Some((1, 8));
  }

  /** Well-formed text naming a day the month does not have. */
  lemma ParseDayOutOfRange()
    ensures ParseIsoDate("2024-02-30") == Err(DateRangeError(2024, 2, 30))
  {
    var s := "2024-02-30";
    Year2024(s);
    assert MonthThenDash(s, 5) == Some((2, 8));
    assert DayAt(s, 8) == Some((30, 10));
  }

  /** Text after the day is refused. */
  lemma ParseTrailingText()
    ensures ParseIsoDate("2024-03-10x") == Err(DateFormatError("2024-03-10x"))
  {
    var s := "2024-03-10x";
    Year2024(s);
    assert MonthThenDash(s, 5) == Some((3, 8));
    assert DayAt(s, 8) == Some((10, 10));
  }
}
