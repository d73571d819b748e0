/**
 Proleptic Gregorian calendar dates, as Python's datetime.date holds them, and the draw
 schedule of the Government Lottery: a draw on the 1st and on the 16th of every month,
 with the January 16 draw held on the 17th (Teacher's Day) and the May 1 draw held on
 the 2nd (Labour Day).
 */
module Calendar {

  datatype Date = Date(year: int, month: int, day: int)

  predicate IsLeapYear(y: int) {
    (y % 4 == 0 && y % 100 != 0) || y % 400 == 0
  }

  function DaysInMonth(y: int, m: int): (n: int)
    requires 1 <= m <= 12
    ensures 28 <= n <= 31
  {
    if m == 2 then (if IsLeapYear(y) then 29 else 28)
    else if m == 4 || m == 6 || m == 9 || m == 11 then 30
    else 31
  }

  /** A date datetime(year, month, day) accepts (the upper bound on the year is not modelled). */
  predicate ValidDate(d: Date) {
    1 <= d.year && 1 <= d.month <= 12 && 1 <= d.day <= DaysInMonth(d.year, d.month)
  }

  /** Strict chronological order. */
  predicate Before(a: Date, b: Date) {
    a.year < b.year
    || (a.year == b.year && (a.month < b.month || (a.month == b.month && a.day < b.day)))
  }

  predicate AtOrBefore(a: Date, b: Date) {
    a == b || Before(a, b)
  }

  /** The days on which a draw is held under the schedule with both holiday shifts. */
  predicate IsDrawDate(d: Date) {
    1 <= d.month <= 12
    && ((d.day == 1 && d.month != 5)
        || (d.day == 2 && d.month == 5)
        || (d.day == 16 && d.month != 1)
        || (d.day == 17 && d.month == 1))
  }
}
