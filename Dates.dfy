/**
 A calendar day without time of day, in the proleptic Gregorian calendar that
 java.time.LocalDate uses. The cache keys all three of its maps by such a day;
 the populate jobs walk a month with `NextDay` (LocalDate.plusDays(1)) and are
 scheduled for `StartOfMonth` of the day that missed.
 */
module Dates {

  datatype YearMonthDay = YearMonthDay(year: int, month: int, day: int)

  /** Gregorian leap years: every fourth year, except centuries not divisible by 400. */
  predicate IsLeapYear(year: int) {
    year % 4 == 0 && (year % 100 != 0 || year % 400 == 0)
  }

  function DaysInMonth(year: int, month: int): (n: int)
    requires 1 <= month <= 12
    ensures 28 <= n <= 31
    ensures month == 2 ==> (n == 29 <==> IsLeapYear(year))
  {
    if month == 2 then (if IsLeapYear(year) then 29 else 28)
    else if month == 4 || month == 6 || month == 9 || month == 11 then 30
    else 31
  }

  predicate ValidDate(d: YearMonthDay) {
    1 <= d.month <= 12 && 1 <= d.day <= DaysInMonth(d.year, d.month)
  }

  /** The values a LocalDate can hold (its year range aside). */
  type Date = d: YearMonthDay | ValidDate(d) witness YearMonthDay(1970, 1, 1)

  predicate SameMonth(a: Date, b: Date) {
    a.year == b.year && a.month == b.month
  }

  function LastDay(d: Date): int {
    DaysInMonth(d.year, d.month)
  }

  /** Chronological order on dates. */
  predicate Before(a: Date, b: Date) {
    a.year < b.year
    || (a.year == b.year && a.month < b.month)
    || (a.year == b.year && a.month == b.month && a.day < b.day)
  }

  /** `LocalDate.startOfMonth()`: the first day of the date's month. */
  function StartOfMonth(d: Date): (r: Date)
    ensures SameMonth(r, d) && r.day == 1
    ensures r == d || Before(r, d)
  {
    YearMonthDay(d.year, d.month, 1)
  }

  /** `LocalDate.plusDays(1)`. */
  function NextDay(d: Date): (r: Date)
    ensures Before(d, r)
    ensures d.day < LastDay(d) ==> SameMonth(r, d) && r.day == d.day + 1
    ensures d.day == LastDay(d) ==> r.month != d.month && r.day == 1
  {
    if d.day < DaysInMonth(d.year, d.month) then YearMonthDay(d.year, d.month, d.day + 1)
    else if d.month < 12 then YearMonthDay(d.year, d.month + 1, 1)
    else YearMonthDay(d.year + 1, 1, 1)
  }

  /** `LocalDate.minusDays(1)`, the inverse of `NextDay`. */
  function PrevDay(d: Date): (r: Date)
    ensures Before(r, d)
  {
    if d.day > 1 then YearMonthDay(d.year, d.month, d.day - 1)
    else if d.month > 1 then YearMonthDay(d.year, d.month - 1, DaysInMonth(d.year, d.month - 1))
    else YearMonthDay(d.year - 1, 12, 31)
  }

  lemma NextDayPrevDay(d: Date)
    ensures PrevDay(NextDay(d)) == d
    ensures NextDay(PrevDay(d)) == d
  {
  }

  /** Nothing lies strictly between a day and the next one. */
  lemma NextDayIsSuccessor(d: Date, e: Date)
    ensures Before(d, e) <==> e == NextDay(d) || Before(NextDay(d), e)
  {
  }

  /** Applying `StartOfMonth` twice is the same as once. */
  lemma StartOfMonthIdempotent(d: Date)
    ensures StartOfMonth(StartOfMonth(d)) == StartOfMonth(d)
  {
  }

  /** Two days share a start of month exactly when they lie in the same month. */
  lemma SameStartIffSameMonth(d: Date, e: Date)
    ensures StartOfMonth(d) == StartOfMonth(e) <==> SameMonth(d, e)
  {
  }
}
