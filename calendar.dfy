/** The part of JavaScript's local-time `Date` that the budgets screen relies
    on: `new Date(year, month, day)` with its carrying of months into years and
    of day 0 into the previous month, and the order of instants. Months are
    numbered 0 to 11, as `getMonth()` numbers them. */
module Calendar {

  datatype LocalDate = LocalDate(year: int, month: int, day: int)

  /** A local instant: a calendar date and the milliseconds since its midnight. */
  datatype Instant = Instant(date: LocalDate, millis: int)

  const MillisPerDay := 86_400_000

  predicate IsLeapYear(y: int)
  {
    (y % 4 == 0 && y % 100 != 0) || y % 400 == 0
  }

  function DaysInMonth(y: int, m: int): (n: int)
    requires 0 <= m < 12
    ensures 28 <= n <= 31
    ensures m == 1 ==> (n == 29 <==> IsLeapYear(y))
  {
    if m == 1 then (if IsLeapYear(y) then 29 else 28)
    else if m == 3 || m == 5 || m == 8 || m == 10 then 30
    else 31
  }

  predicate ValidDate(d: LocalDate)
  {
    0 <= d.month < 12 && 1 <= d.day <= DaysInMonth(d.year, d.month)
  }

  predicate ValidInstant(t: Instant)
  {
    ValidDate(t.date) && 0 <= t.millis < MillisPerDay
  }

  /** The date of `new Date(y, m, d)`: the month is carried into the year, and
      day 0 is the last day of the month before. */
  function MakeDate(y: int, m: int, d: int): (r: LocalDate)
    requires 0 <= d <= DaysInMonth(y + m / 12, m % 12)
    ensures ValidDate(r)
    ensures d > 0 ==> r == LocalDate(y + m / 12, m % 12, d)
  {
    var year, month := y + m / 12, m % 12;
    if d > 0 then LocalDate(year, month, d)
    else if month == 0 then LocalDate(year - 1, 11, 31)
    else LocalDate(year, month - 1, DaysInMonth(year, month - 1))
  }

  /** Day 0 of the month after `m` is the last day of `m`, also in December. */
  lemma DayZeroIsLastDay(y: int, m: int)
    requires 0 <= m < 12
    ensures MakeDate(y, m + 1, 0) == LocalDate(y, m, DaysInMonth(y, m))
  {
    if m == 11 {
      assert (m + 1) / 12 == 1 && (m + 1) % 12 == 0;
    } else {
      assert (m + 1) / 12 == 0 && (m + 1) % 12 == m + 1;
    }
  }

  function Midnight(d: LocalDate): Instant
  {
    Instant(d, 0)
  }

  /** `a` is not later than `b`. */
  predicate NotAfter(a: Instant, b: Instant)
  {
    if a.date.year != b.date.year then a.date.year < b.date.year
    else if a.date.month != b.date.month then a.date.month < b.date.month
    else if a.date.day != b.date.day then a.date.day < b.date.day
    else a.millis <= b.millis
  }
}
