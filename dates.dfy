/** The part of java.time.LocalDate the loan servicing uses: the ISO
    (proleptic Gregorian) calendar, `with(firstDayOfNextMonth())` and `plusYears`. */
module Dates {

  datatype Date = Date(year: int, month: int, day: int)

  predicate IsLeapYear(y: int) {
    y % 4 == 0 && (y % 100 != 0 || y % 400 == 0)
  }

  function DaysInMonth(y: int, m: int): (n: int)
    ensures 28 <= n <= 31
  {
    if m == 2 then (if IsLeapYear(y) then 29 else 28)
    else if m == 4 || m == 6 || m == 9 || m == 11 then 30
    else 31
  }

  /** A date a LocalDate can hold. */
  predicate ValidDate(d: Date) {
    1 <= d.month <= 12 && 1 <= d.day <= DaysInMonth(d.year, d.month)
  }

  /** Chronological order: `a` is strictly earlier than `b`. */
  predicate Before(a: Date, b: Date) {
    a.year < b.year
    || (a.year == b.year && a.month < b.month)
    || (a.year == b.year && a.month == b.month && a.day < b.day)
  }

  /** `d.with(TemporalAdjusters.firstDayOfNextMonth())`: the earliest first day
      of a month that lies strictly after `d`. */
  function FirstDayOfNextMonth(d: Date): (r: Date)
    ensures r.day == 1
    ensures ValidDate(d) ==> ValidDate(r) && Before(d, r)
    ensures ValidDate(d) ==> forall e :: ValidDate(e) && e.day == 1 && Before(d, e) ==> !Before(e, r)
  {
    if d.month >= 12 then Date(d.year + 1, 1, 1) else Date(d.year, d.month + 1, 1)
  }

  /** `d.plusYears(n)`: same month, the day clamped to the last day of that
      month in the target year (29 February becomes 28 February). */
  function PlusYears(d: Date, n: int): (r: Date)
    ensures r.year == d.year + n && r.month == d.month
    ensures ValidDate(d) ==> ValidDate(r)
    ensures ValidDate(d) ==> r.day == d.day || (d.month == 2 && d.day == 29 && r.day == 28)
  {
    var last := DaysInMonth(d.year + n, d.month);
    Date(d.year + n, d.month, if d.day <= last then d.day else last)
  }
}
