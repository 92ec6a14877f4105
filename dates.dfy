/** Calendar dates as Python's datetime.date sees them: proleptic Gregorian
    calendar, years 1 to 9999, ordered field by field, day counts through the
    ordinal (day 1 is 0001-01-01), and the ISO text form YYYY-MM-DD. */
module Dates {
  import opened Wrappers
  import opened Text

  datatype Date = Date(year: int, month: int, day: int)

  predicate IsLeapYear(y: int) { y % 4 == 0 && (y % 100 != 0 || y % 400 == 0) }

  function DaysInMonth(y: int, m: int): (n: int)
    requires 1 <= m <= 12
    ensures 28 <= n <= 31
    ensures n == 29 <==> m == 2 && IsLeapYear(y)
  {
    if m == 2 then (if IsLeapYear(y) then 29 else 28)
    else if m == 4 || m == 6 || m == 9 || m == 11 then 30
    else 31
  }

  function DaysInYear(y: int): int { if IsLeapYear(y) then 366 else 365 }

  /** A date datetime.date accepts. */
  predicate Valid(d: Date)
  {
    1 <= d.year <= 9999 && 1 <= d.month <= 12 && 1 <= d.day <= DaysInMonth(d.year, d.month)
  }

  /** The values a datetime.date object can hold. */
  type CalendarDate = d: Date | Valid(d) witness Date(1, 1, 1)

  /** Python compares dates as (year, month, day) tuples. */
  predicate Before(a: Date, b: Date)
  {
    a.year < b.year || (a.year == b.year && (a.month < b.month || (a.month == b.month && a.day < b.day)))
  }

  predicate AtOrBefore(a: Date, b: Date) { a == b || Before(a, b) }

  function DaysBeforeYear(y: int): int
    requires y >= 1
  {
    var p := y - 1;
    p * 365 + p / 4 - p / 100 + p / 400
  }

  function DaysBeforeMonth(y: int, m: int): (n: int)
    requires 1 <= m <= 12
    ensures n >= 0
  {
    if m == 1 then 0 else DaysBeforeMonth(y, m - 1) + DaysInMonth(y, m - 1)
  }

  /** date.toordinal(): day 1 is 0001-01-01, the smallest date. */
  function Ordinal(d: Date): (n: int)
    requires Valid(d)
    ensures n >= 1
    ensures n == 1 <==> d == Date(1, 1, 1)
  {
    DaysBeforeYear(d.year) + DaysBeforeMonth(d.year, d.month) + d.day
  }

  /** The days of a year after its last month are exactly the days of the year. */
  lemma MonthsFillYear(y: int)
    ensures DaysBeforeMonth(y, 12) + DaysInMonth(y, 12) == DaysInYear(y)
  {
    var leap := if IsLeapYear(y) then 1 else 0;
    assert DaysBeforeMonth(y, 2) == 31;
    assert DaysBeforeMonth(y, 3) == 59 + leap;
    assert DaysBeforeMonth(y, 4) == 90 + leap;
    assert DaysBeforeMonth(y, 5) == 120 + leap;
    assert DaysBeforeMonth(y, 6) == 151 + leap;
    assert DaysBeforeMonth(y, 7) == 181 + leap;
    assert DaysBeforeMonth(y, 8) == 212 + leap;
    assert DaysBeforeMonth(y, 9) == 243 + leap;
    assert DaysBeforeMonth(y, 10) == 273 + leap;
    assert DaysBeforeMonth(y, 11) == 304 + leap;
    assert DaysBeforeMonth(y, 12) == 334 + leap;
  }

  lemma {:induction false} MonthsIncrease(y: int, m1: int, m2: int)
    requires 1 <= m1 < m2 <= 12
    ensures DaysBeforeMonth(y, m1) + DaysInMonth(y, m1) <= DaysBeforeMonth(y, m2)
    decreases m2 - m1
  {
    if m1 + 1 < m2 {
      MonthsIncrease(y, m1 + 1, m2);
    }
  }

  /** Every day of a valid date lies inside its year. */
  lemma DayOfYearBounds(d: Date)
    requires Valid(d)
    ensures 1 <= DaysBeforeMonth(d.year, d.month) + d.day <= DaysInYear(d.year)
  {
    MonthsFillYear(d.year);
    if d.month < 12 { MonthsIncrease(d.year, d.month, 12); }
  }

  lemma DivStep4(y: int)
    ensures y / 4 == (y - 1) / 4 + (if y % 4 == 0 then 1 else 0)
  {
  }

  lemma DivStep100(y: int)
    ensures y / 100 == (y - 1) / 100 + (if y % 100 == 0 then 1 else 0)
  {
  }

  lemma DivStep400(y: int)
    ensures y / 400 == (y - 1) / 400 + (if y % 400 == 0 then 1 else 0)
  {
  }

  lemma YearStep(y: int)
    requires y >= 1
    ensures DaysBeforeYear(y + 1) == DaysBeforeYear(y) + DaysInYear(y)
  {
    DivStep4(y);
    DivStep100(y);
    DivStep400(y);
  }

  lemma {:induction false} YearsIncrease(y1: int, y2: int)
    requires 1 <= y1 < y2
    ensures DaysBeforeYear(y1) + DaysInYear(y1) <= DaysBeforeYear(y2)
    decreases y2 - y1
  {
    YearStep(y1);
    if y1 + 1 < y2 {
      YearsIncrease(y1 + 1, y2);
      YearStep(y1 + 1);
    }
  }

  /** The ordinal grows with the date: earlier dates have smaller ordinals. */
  lemma OrdinalMonotone(a: Date, b: Date)
    requires Valid(a) && Valid(b) && Before(a, b)
    ensures Ordinal(a) < Ordinal(b)
  {
    DayOfYearBounds(a);
    DayOfYearBounds(b);
    if a.year < b.year {
      YearsIncrease(a.year, b.year);
    } else if a.month < b.month {
      MonthsIncrease(a.year, a.month, b.month);
    }
  }

  /** Ordinals order dates exactly as Python compares them. */
  lemma OrdinalOrder(a: Date, b: Date)
    requires Valid(a) && Valid(b)
    ensures Before(a, b) <==> Ordinal(a) < Ordinal(b)
    ensures a == b <==> Ordinal(a) == Ordinal(b)
  {
    if Before(a, b) { OrdinalMonotone(a, b); }
    else if Before(b, a) { OrdinalMonotone(b, a); }
    else { assert a == b; }
  }

  /** date.isoformat(): YYYY-MM-DD, ten characters with dashes at 4 and 7. */
  function IsoFormat(d: Date): (s: string)
    requires Valid(d)
    ensures |s| == 10 && s[4] == '-' && s[7] == '-'
  {
    Pad4Facts(d.year);
    Pad2Facts(d.month);
    Pad2Facts(d.day);
    IsoPieces(Pad4(d.year), Pad2(d.month), Pad2(d.day));
    Pad4(d.year) + "-" + Pad2(d.month) + "-" + Pad2(d.day)
  }

  predicate DigitsAt(s: string, lo: int, hi: int)
    requires 0 <= lo <= hi <= |s|
  {
    forall i :: lo <= i < hi ==> IsDigit(s[i])
  }

  /** date.fromisoformat() on the YYYY-MM-DD form; None where it raises ValueError. */
  function ParseIso(s: string): (r: Option<Date>)
    ensures r.Some? ==> Valid(r.value) && |s| == 10
  {
    if |s| == 10 && s[4] == '-' && s[7] == '-' && DigitsAt(s, 0, 4) && DigitsAt(s, 5, 7) && DigitsAt(s, 8, 10) then
      var d := Date(DigitsValue(s[..4]), DigitsValue(s[5..7]), DigitsValue(s[8..]));
      if Valid(d) then Some(d) else None
    else None
  }

  /** The pieces of a YYYY-MM-DD text sit at fixed positions. */
  lemma IsoPieces(y: string, m: string, dd: string)
    requires |y| == 4 && |m| == 2 && |dd| == 2
    ensures var s := y + "-" + m + "-" + dd;
      |s| == 10 && s[4] == '-' && s[7] == '-' && s[..4] == y && s[5..7] == m && s[8..] == dd
  {
    var s := y + "-" + m + "-" + dd;
    assert s[..4] == y;
    assert s[5..7] == m;
    assert s[8..] == dd;
  }

  /** Reading a YYYY-MM-DD text made of digit pieces reads each piece. */
  lemma ParseIsoPieces(y: string, m: string, dd: string)
    requires |y| == 4 && |m| == 2 && |dd| == 2
    requires IsDigits(y) && IsDigits(m) && IsDigits(dd)
    ensures ParseIso(y + "-" + m + "-" + dd) ==
      var d := Date(DigitsValue(y), DigitsValue(m), DigitsValue(dd));
      if Valid(d) then Some(d) else None
  {
    var s := y + "-" + m + "-" + dd;
    IsoPieces(y, m, dd);
    assert DigitsAt(s, 0, 4) by { forall i | 0 <= i < 4 ensures IsDigit(s[i]) { assert s[i] == y[i]; } }
    assert DigitsAt(s, 5, 7) by { forall i | 5 <= i < 7 ensures IsDigit(s[i]) { assert s[i] == m[i - 5]; } }
    assert DigitsAt(s, 8, 10) by { forall i | 8 <= i < 10 ensures IsDigit(s[i]) { assert s[i] == dd[i - 8]; } }
  }

  /** Formatting a valid date and reading it back gives the same date. */
  lemma IsoRoundTrip(d: Date)
    requires Valid(d)
    ensures ParseIso(IsoFormat(d)) == Some(d)
  {
    Pad4Facts(d.year);
    Pad2Facts(d.month);
    Pad2Facts(d.day);
    ParseIsoPieces(Pad4(d.year), Pad2(d.month), Pad2(d.day));
  }
}
