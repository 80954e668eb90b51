/** Proleptic Gregorian calendar arithmetic: the part of Python's `date` type the
    depreciation engine relies on (day of year, ordinal day numbers, differences). */
module Calendar {

  /** A year, month and day, not necessarily a valid date (journal entries carry these
      as display data). */
  datatype CalendarDate = CalendarDate(year: int, month: int, day: int)

  predicate IsLeapYear(y: int) {
    y % 4 == 0 && (y % 100 != 0 || y % 400 == 0)
  }

  function DaysInYear(y: int): int {
    if IsLeapYear(y) then 366 else 365
  }

  function DaysInMonth(y: int, m: int): int
    requires 1 <= m <= 12
  {
    if m == 2 then (if IsLeapYear(y) then 29 else 28)
    else if m == 4 || m == 6 || m == 9 || m == 11 then 30
    else 31
  }

  /** Days in the months of year `y` that precede month `m`. */
  function DaysBeforeMonth(y: int, m: int): int
    requires 1 <= m <= 12
  {
    var common :=
      if m == 1 then 0 else if m == 2 then 31 else if m == 3 then 59
      else if m == 4 then 90 else if m == 5 then 120 else if m == 6 then 151
      else if m == 7 then 181 else if m == 8 then 212 else if m == 9 then 243
      else if m == 10 then 273 else if m == 11 then 304 else 334;
    if m > 2 && IsLeapYear(y) then common + 1 else common
  }

  /** Python's `date` only admits years from 1 on and days that exist in their month. */
  predicate ValidDate(d: CalendarDate) {
    1 <= d.year && 1 <= d.month <= 12 && 1 <= d.day <= DaysInMonth(d.year, d.month)
  }

  type Date = d: CalendarDate | ValidDate(d) witness CalendarDate(1, 1, 1)

  /** 1 for January 1, DaysInYear for December 31. */
  function DayOfYear(d: Date): (n: int)
    ensures 1 <= n <= DaysInYear(d.year)
    ensures n == 1 <==> d.month == 1 && d.day == 1
    ensures n == DaysInYear(d.year) <==> d.month == 12 && d.day == 31
  {
    DaysBeforeMonth(d.year, d.month) + d.day
  }

  /** Days in all years before year `y` (year 1 starts at day 1), as in Python's `datetime`. */
  function DaysBeforeYear(y: int): int {
    var p := y - 1;
    365 * p + p / 4 - p / 100 + p / 400
  }

  /** The proleptic Gregorian ordinal of a date (`date.toordinal()`); December 31
      of a year is built without a validity check, as `date(year, 12, 31)` succeeds
      for every year the engine uses. */
  function Ordinal(d: CalendarDate): int
    requires 1 <= d.month <= 12
  {
    DaysBeforeYear(d.year) + DaysBeforeMonth(d.year, d.month) + d.day
  }

  function YearEnd(y: int): CalendarDate {
    CalendarDate(y, 12, 31)
  }

  lemma DivStep4(q: int)
    ensures q / 4 - (q - 1) / 4 == if q % 4 == 0 then 1 else 0
  {
  }

  lemma DivStep100(q: int)
    ensures q / 100 - (q - 1) / 100 == if q % 100 == 0 then 1 else 0
  {
  }

  lemma DivStep400(q: int)
    ensures q / 400 - (q - 1) / 400 == if q % 400 == 0 then 1 else 0
  {
  }

  /** Consecutive years are DaysInYear days apart: the leap-year formula of DaysBeforeYear
      agrees with IsLeapYear. */
  lemma DaysBeforeNextYear(y: int)
    ensures DaysBeforeYear(y + 1) == DaysBeforeYear(y) + DaysInYear(y)
  {
    DivStep4(y);
    DivStep100(y);
    DivStep400(y);
    if y % 400 == 0 {
      assert y % 100 == 0 && y % 4 == 0;
    } else if y % 100 == 0 {
      assert y % 4 == 0;
    }
  }

  /** A later year starts at least one full year later. */
  lemma {:induction false} DaysBeforeYearGrows(y1: int, y2: int)
    requires y1 < y2
    ensures DaysBeforeYear(y2) >= DaysBeforeYear(y1 + 1)
    ensures DaysBeforeYear(y1 + 1) == DaysBeforeYear(y1) + DaysInYear(y1)
    decreases y2 - y1
  {
    DaysBeforeNextYear(y1);
    if y1 + 1 < y2 {
      DaysBeforeYearGrows(y1 + 1, y2);
      DaysBeforeNextYear(y1 + 1);
    }
  }

  /** `(date(y, 12, 31) - start).days + 1`: the days from `start` to the end of year `y`,
      both included. Inside the start year this is the day count the proration uses;
      for an earlier `y` it is zero or negative. */
  function DaysHeldUntilYearEnd(start: Date, y: int): (n: int)
    ensures start.year == y ==> n == DaysInYear(y) - DayOfYear(start) + 1
    ensures start.year > y ==> n <= 1 - DayOfYear(start) && n <= 0
    ensures start.year < y ==> n > DaysInYear(y)
  {
    var held := Ordinal(YearEnd(y)) - Ordinal(start) + 1;
    assert held == DaysBeforeYear(y) + DaysInYear(y) - DaysBeforeYear(start.year) - DayOfYear(start) + 1;
    if start.year > y then
      DaysBeforeYearGrows(y, start.year); held
    else if start.year < y then
      DaysBeforeYearGrows(start.year, y); held
    else
      held
  }
}
