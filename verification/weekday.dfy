/** The calendar of the date screen: leap years, month lengths, and the weekday of a date. */
module Weekday {
  datatype Date = Date(year: int, month: int, day: int)

  function IsLeapYear(year: int): bool {
    (year % 4 == 0 && year % 100 != 0) || year % 400 == 0
  }

  const DAYS: seq<int> := [31, 28, 31, 30, 31, 30, 31, 31, 30, 31, 30, 31]

  function DaysInMonth(year: int, month: int): (n: int)
    requires 1 <= month <= 12
    ensures 28 <= n <= 31
  {
    if month == 2 && IsLeapYear(year) then 29 else DAYS[month - 1]
  }

  const OFFSETS: seq<int> := [0, 3, 2, 5, 0, 3, 5, 1, 4, 6, 2, 4]

  /** The leap-day terms of the formula. */
  function LeapTerms(year: int): int {
    year / 4 - year / 100 + year / 400
  }

  function Key(year: int, month: int, day: int): int
    requires 1 <= month <= 12
  {
    var y := if month < 3 then year - 1 else year;
    y + LeapTerms(y) + OFFSETS[month - 1] + day
  }

  /** 0 is Sunday. For years from 1 on, no operand of a division is negative. */
  function WeekdayOf(year: int, month: int, day: int): int
    requires 1 <= month <= 12
  {
    Key(year, month, day) % 7
  }

  predicate Valid(d: Date) {
    1 <= d.year && 1 <= d.month <= 12 && 1 <= d.day <= DaysInMonth(d.year, d.month)
  }

  function NextDay(d: Date): (n: Date)
    requires Valid(d)
    ensures Valid(n)
  {
    if d.day < DaysInMonth(d.year, d.month) then Date(d.year, d.month, d.day + 1)
    else if d.month < 12 then Date(d.year, d.month + 1, 1)
    else Date(d.year + 1, 1, 1)
  }

  function Of(d: Date): int
    requires Valid(d)
  {
    WeekdayOf(d.year, d.month, d.day)
  }

  /** Known days: a Thursday after a February without a leap day, a Saturday, and a leap day that was a Thursday. */
  lemma KnownDays()
    ensures WeekdayOf(1900, 3, 1) == 4 && DaysInMonth(1900, 2) == 28
    ensures WeekdayOf(2000, 1, 1) == 6 && DaysInMonth(2000, 2) == 29
    ensures WeekdayOf(2024, 2, 29) == 4 && Valid(Date(2024, 2, 29))
  {
  }

  /** How the leap-day terms of the formula step from year to year. */
  lemma LeapTermsStep(y: int)
    requires y >= 1
    ensures LeapTerms(y) == LeapTerms(y - 1) + if IsLeapYear(y) then 1 else 0
  {
    OneFurther(y, 4);
    OneFurther(y, 100);
    OneFurther(y, 400);
    Multiple(y);
  }

  lemma OneFurther(y: int, n: int)
    requires y >= 1 && (n == 4 || n == 100 || n == 400)
    ensures y / n == (y - 1) / n + if y % n == 0 then 1 else 0
  {
    if n == 4 {} else if n == 100 {} else {}
  }

  lemma Multiple(y: int)
    ensures y % 400 == 0 ==> y % 100 == 0
    ensures y % 100 == 0 ==> y % 4 == 0
  {
  }

  lemma Mod7(a: int, b: int, k: int)
    requires b == a + 7 * k
    ensures b % 7 == a % 7 && (b + 1) % 7 == (a % 7 + 1) % 7
  {
  }

  // ---- the day count ------------------------------------------------------------

  function DaysInYear(year: int): int {
    if IsLeapYear(year) then 366 else 365
  }

  function DaysBeforeYear(year: int): int
    requires year >= 1
  {
    if year == 1 then 0 else DaysBeforeYear(year - 1) + DaysInYear(year - 1)
  }

  function DaysBeforeMonth(year: int, month: int): int
    requires 1 <= month <= 12
  {
    if month == 1 then 0 else DaysBeforeMonth(year, month - 1) + DaysInMonth(year, month - 1)
  }

  /** Days since the first of January of the year 1. */
  function DayCount(d: Date): int
    requires Valid(d)
  {
    DaysBeforeYear(d.year) + DaysBeforeMonth(d.year, d.month) + d.day - 1
  }

  lemma {:induction false} YearsCount(year: int)
    requires year >= 1
    ensures DaysBeforeYear(year) == 365 * (year - 1) + LeapTerms(year - 1)
  {
    hide IsLeapYear;
    if year > 1 {
      hide LeapTerms;
      YearsCount(year - 1);
      LeapTermsStep(year - 1);
    }
  }

  /** Whole weeks before each month. */
  const WEEKS: seq<int> := [0, 4, 8, 12, 17, 21, 25, 30, 34, 38, 43, 47]

  /** What the table of offsets stands for: the days before a month, less whole weeks and what February changes. */
  lemma {:induction false} MonthsCount(year: int, month: int)
    requires 1 <= month <= 12
    ensures DaysBeforeMonth(year, month) ==
      OFFSETS[month - 1] + 7 * WEEKS[month - 1] + if month < 3 then 0 else if IsLeapYear(year) then 2 else 1
  {
    hide IsLeapYear;
    if month > 1 {
      MonthsCount(year, month - 1);
      if month == 2 {} else if month == 3 {} else if month == 4 {} else if month == 5 {} else if month == 6 {}
      else if month == 7 {} else if month == 8 {} else if month == 9 {} else if month == 10 {} else if month == 11 {} else {}
    }
  }

  /** The weekday is the day count modulo seven; the count starts on a Monday. */
  lemma WeekdayIsDayCount(d: Date)
    requires Valid(d)
    ensures Of(d) == (DayCount(d) + 1) % 7
  {
    hide LeapTerms, IsLeapYear, DaysBeforeMonth, DaysBeforeYear;
    YearsCount(d.year);
    LeapTermsStep(d.year);
    MonthsCount(d.year, d.month);
    Mod7(Key(d.year, d.month, d.day), DayCount(d) + 1, 52 * (d.year - 1) + WEEKS[d.month - 1]);
  }

  lemma NextDayCounts(d: Date)
    requires Valid(d)
    ensures DayCount(NextDay(d)) == DayCount(d) + 1
  {
    hide IsLeapYear;
    if d.day < DaysInMonth(d.year, d.month) {
    } else if d.month < 12 {
    } else {
      MonthsCount(d.year, 12);
      assert DaysBeforeYear(d.year + 1) == DaysBeforeYear(d.year) + DaysInYear(d.year);
    }
  }

  /** The weekday moves on by one each day: across month ends, leap days, year ends and centuries. */
  lemma WeekdayMovesOn(d: Date)
    requires Valid(d)
    ensures Of(NextDay(d)) == (Of(d) + 1) % 7
  {
    hide Of, DayCount;
    WeekdayIsDayCount(d);
    WeekdayIsDayCount(NextDay(d));
    NextDayCounts(d);
    Mod7(DayCount(d) + 1, DayCount(d) + 1, 0);
  }
}
