// `DateTime` and `TimeSpan` as the domain layer uses them.  An instant is a
// tick count (100 ns) since 0001-01-01T00:00; its `.Date` is a day number
// since 0001-01-01, which was a Monday.  The upper limit of `DateTime`
// (year 9999) is not modelled.
module Calendar {

  /** A `DateTime` value, in ticks since 0001-01-01T00:00. */
  type Instant = nat

  /** A `DateTime` whose time of day is midnight, as a day number since 0001-01-01. */
  type Day = nat

  const TicksPerDay: nat := 864_000_000_000

  /** `DateTime.Date`. */
  function DateOf(t: Instant): (d: Day)
    ensures StartOf(d) <= t < StartOf(d) + TicksPerDay
  {
    t / TicksPerDay
  }

  /** The instant at midnight that starts day `d`. */
  function StartOf(d: Day): Instant
  {
    d * TicksPerDay
  }

  lemma DateOfStartOf(d: Day)
    ensures DateOf(StartOf(d)) == d
  {
  }

  /** `.Date` never moves a later instant before an earlier one. */
  lemma DateOfMonotone(a: Instant, b: Instant)
    requires a <= b
    ensures DateOf(a) <= DateOf(b)
  {
  }

  /** C# `int` division, which truncates toward zero (Dafny's `/` is Euclidean). */
  function TruncDiv(a: int, b: int): int
    requires b > 0
  {
    if a >= 0 then a / b else -((-a) / b)
  }

  /** `(later - earlier).Days`: the whole days of a time span, truncated toward zero. */
  function SpanDays(later: Instant, earlier: Instant): int
  {
    TruncDiv(later - earlier, TicksPerDay)
  }

  /** `DayOfWeek` as a number, Sunday = 0 through Saturday = 6; day 0 is a Monday. */
  function DayOfWeek(d: Day): (w: nat)
    ensures w < 7
  {
    (d + 1) % 7
  }

  predicate IsWeekend(d: Day)
  {
    DayOfWeek(d) == 0 || DayOfWeek(d) == 6
  }

  predicate IsLeapYear(y: nat)
  {
    y % 4 == 0 && (y % 100 != 0 || y % 400 == 0)
  }

  function DaysInYear(y: nat): (n: nat)
    ensures n >= 365
  {
    if IsLeapYear(y) then 366 else 365
  }

  function DaysInMonth(y: nat, m: nat): (n: nat)
    requires 1 <= m <= 12
    ensures n >= 28
  {
    if m == 2 then (if IsLeapYear(y) then 29 else 28)
    else if m == 4 || m == 6 || m == 9 || m == 11 then 30
    else 31
  }

  /** The month, `m` or later, in which day-of-year `doy` (counted from the start of month `m`) falls. */
  function MonthFrom(y: nat, m: nat, doy: nat): (r: nat)
    requires 1 <= m <= 12
    ensures m <= r <= 12
    decreases 12 - m
  {
    if m == 12 || doy < DaysInMonth(y, m) then m else MonthFrom(y, m + 1, doy - DaysInMonth(y, m))
  }

  /** Year and month of day `d`, counted from 1 January of year `y`. */
  function YearMonthFrom(y: nat, d: nat): (r: (nat, nat))
    requires y >= 1
    ensures r.0 >= y && 1 <= r.1 <= 12
    decreases d
  {
    if d < DaysInYear(y) then (y, MonthFrom(y, 1, d)) else YearMonthFrom(y + 1, d - DaysInYear(y))
  }

  /** `DateTime.Year`. */
  function YearOf(d: Day): (y: nat)
    ensures y >= 1
  {
    YearMonthFrom(1, d).0
  }

  /** `DateTime.Month`. */
  function MonthOf(d: Day): (m: nat)
    ensures 1 <= m <= 12
  {
    YearMonthFrom(1, d).1
  }
}
