/** Calendar dates as Python's `datetime.date` has them: the proleptic
    Gregorian calendar over years 1 to 9999, compared field by field, with
    `toordinal` numbering the days from 0001-01-01 (day 1). */
module Dates {
  import opened Base

  const MinYear: int := 1
  const MaxYear: int := 9999

  datatype Date = Date(year: int, month: int, day: int)

  predicate IsLeapYear(y: int)
  {
    y % 4 == 0 && (y % 100 != 0 || y % 400 == 0)
  }

  function DaysInMonth(y: int, m: int): (n: int)
    requires 1 <= m <= 12
    ensures 28 <= n <= 31
    ensures m == 2 ==> (n == 29 <==> IsLeapYear(y))
    ensures m != 2 ==> n >= 30
  {
    if m == 2 then (if IsLeapYear(y) then 29 else 28)
    else if m == 4 || m == 6 || m == 9 || m == 11 then 30
    else 31
  }

  function DaysInYear(y: int): int
  {
    if IsLeapYear(y) then 366 else 365
  }

  /** A date that `datetime.date(year, month, day)` accepts. */
  predicate Valid(d: Date)
  {
    MinYear <= d.year <= MaxYear && 1 <= d.month <= 12 && 1 <= d.day <= DaysInMonth(d.year, d.month)
  }

  /** The values of a Python `date`. */
  type ValidDate = d: Date | Valid(d) witness Date(1, 1, 1)

  /** `datetime.date(y, m, d)`: a ValueError (None here) outside the calendar. */
  function MakeDate(y: int, m: int, d: int): (r: Option<Date>)
    ensures r.Some? <==> Valid(Date(y, m, d))
    ensures r.Some? ==> r.value == Date(y, m, d)
  {
    if MinYear <= y <= MaxYear && 1 <= m <= 12 && 1 <= d <= DaysInMonth(y, m) then Some(Date(y, m, d)) else None
  }

  /** Python's `a <= b` on dates: year, then month, then day. */
  predicate Le(a: Date, b: Date)
  {
    a.year < b.year
    || (a.year == b.year && a.month < b.month)
    || (a.year == b.year && a.month == b.month && a.day <= b.day)
  }

  /** Whether `lo <= d <= hi`, the date-range test of the ORM domains. */
  predicate InRange(d: Date, lo: Date, hi: Date)
  {
    Le(lo, d) && Le(d, hi)
  }

  /** Days in the years before `y` (so year 1 starts after day 0). */
  function DaysBeforeYear(y: int): int
    requires y >= 1
  {
    if y == 1 then 0 else DaysBeforeYear(y - 1) + DaysInYear(y - 1)
  }

  function DaysBeforeMonth(y: int, m: int): int
    requires 1 <= m <= 13
    decreases m
  {
    if m == 1 then 0 else DaysBeforeMonth(y, m - 1) + DaysInMonth(y, m - 1)
  }

  /** `date.toordinal()`: 0001-01-01 is day 1. */
  function Ordinal(d: Date): int
    requires Valid(d)
  {
    DaysBeforeYear(d.year) + DaysBeforeMonth(d.year, d.month) + d.day
  }

  lemma {:induction false} DaysBeforeYearMonotone(y1: int, y2: int)
    requires 1 <= y1 <= y2
    ensures DaysBeforeYear(y1) <= DaysBeforeYear(y2)
    decreases y2 - y1
  {
    if y1 < y2 {
      DaysBeforeYearMonotone(y1, y2 - 1);
    }
  }

  lemma {:induction false} DaysBeforeMonthMonotone(y: int, m1: int, m2: int)
    requires 1 <= m1 <= m2 <= 13
    ensures DaysBeforeMonth(y, m1) <= DaysBeforeMonth(y, m2)
    decreases m2 - m1
  {
    if m1 < m2 {
      DaysBeforeMonthMonotone(y, m1, m2 - 1);
    }
  }

  lemma DaysBeforeMonthYear(y: int)
    ensures DaysBeforeMonth(y, 13) == DaysInYear(y)
    ensures DaysBeforeMonth(y, 12) + 31 == DaysInYear(y)
  {
  }

  lemma YearBefore(x: Date, z: Date)
    requires Valid(x) && Valid(z) && x.year < z.year
    ensures Ordinal(x) < Ordinal(z)
  {
    var y := x.year;
    DaysBeforeMonthMonotone(y, x.month + 1, 13);
    assert DaysBeforeMonth(y, x.month + 1) == DaysBeforeMonth(y, x.month) + DaysInMonth(y, x.month);
    DaysBeforeMonthYear(y);
    assert DaysBeforeMonth(y, x.month) + x.day <= DaysInYear(y);
    assert DaysBeforeYear(y + 1) == DaysBeforeYear(y) + DaysInYear(y);
    DaysBeforeYearMonotone(y + 1, z.year);
    assert DaysBeforeMonth(z.year, z.month) >= 0 by {
      DaysBeforeMonthMonotone(z.year, 1, z.month);
    }
  }

  lemma MonthBefore(x: Date, z: Date)
    requires Valid(x) && Valid(z) && x.year == z.year && x.month < z.month
    ensures Ordinal(x) < Ordinal(z)
  {
    DaysBeforeMonthMonotone(x.year, x.month + 1, z.month);
  }

  /** Comparing dates field by field agrees with comparing their ordinals. */
  lemma LeIsOrdinalOrder(a: Date, b: Date)
    requires Valid(a) && Valid(b)
    ensures Le(a, b) <==> Ordinal(a) <= Ordinal(b)
  {
    if a.year < b.year {
      YearBefore(a, b);
    } else if b.year < a.year {
      YearBefore(b, a);
    } else if a.month < b.month {
      MonthBefore(a, b);
    } else if b.month < a.month {
      MonthBefore(b, a);
    }
  }

  /** The first day of a month follows the last day of the month before. */
  lemma MonthBoundary(d: Date)
    requires Valid(d) && d.day == 1 && d.month > 1
    ensures var e := Date(d.year, d.month - 1, DaysInMonth(d.year, d.month - 1));
      Valid(e) && Ordinal(e) + 1 == Ordinal(d)
  {
    assert DaysBeforeMonth(d.year, d.month) == DaysBeforeMonth(d.year, d.month - 1) + DaysInMonth(d.year, d.month - 1);
  }

  /** New Year's Day follows the 31st of December of the year before. */
  lemma YearBoundary(d: Date)
    requires Valid(d) && d.day == 1 && d.month == 1 && d.year > MinYear
    ensures Valid(Date(d.year - 1, 12, 31)) && Ordinal(Date(d.year - 1, 12, 31)) + 1 == Ordinal(d)
  {
    DaysBeforeMonthYear(d.year - 1);
  }

  /** `d - timedelta(days=1)`; None where Python raises OverflowError. */
  function PrevDay(d: Date): (r: Option<Date>)
    requires Valid(d)
    ensures r.None? <==> d == Date(MinYear, 1, 1)
    ensures r.Some? ==> Valid(r.value) && Ordinal(r.value) + 1 == Ordinal(d)
  {
    if d.day > 1 then Some(Date(d.year, d.month, d.day - 1))
    else if d.month > 1 then
      MonthBoundary(d);
      Some(Date(d.year, d.month - 1, DaysInMonth(d.year, d.month - 1)))
    else if d.year > MinYear then
      YearBoundary(d);
      Some(Date(d.year - 1, 12, 31))
    else None
  }
}
