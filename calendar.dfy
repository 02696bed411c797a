/** Calendar instants as the window checks use them: a date and a time of
    day in one time zone, ordered the way Python compares datetimes. */
module Calendar {

  /** Microseconds in a day: Python datetimes resolve to the microsecond. */
  const MicrosPerDay: int := 86_400_000_000

  predicate IsLeapYear(y: int) {
    y % 4 == 0 && (y % 100 != 0 || y % 400 == 0)
  }

  function DaysInMonth(y: int, m: int): (n: int)
    requires 1 <= m <= 12
    ensures 28 <= n <= 31
    ensures n == 28 <==> m == 2 && !IsLeapYear(y)
  {
    if m == 2 then (if IsLeapYear(y) then 29 else 28)
    else if m == 4 || m == 6 || m == 9 || m == 11 then 30
    else 31
  }

  /** A wall-clock date and time; `micro` is the time of day in microseconds. */
  datatype DateTime = DateTime(year: int, month: int, day: int, micro: int) {
    predicate Valid() {
      1 <= month <= 12 && 1 <= day <= DaysInMonth(year, month) && 0 <= micro < MicrosPerDay
    }
  }

  /** Every value Python can hold in a datetime is a valid calendar date. */
  type Instant = d: DateTime | d.Valid() witness DateTime(2000, 1, 1, 0)

  /** Midnight at the start of the given day. */
  function Midnight(y: int, m: int, d: int): Instant
    requires 1 <= m <= 12 && 1 <= d <= DaysInMonth(y, m)
  {
    DateTime(y, m, d, 0)
  }

  /** `a < b`: datetimes compare field by field, most significant first. */
  predicate Before(a: DateTime, b: DateTime) {
    a.year < b.year ||
    (a.year == b.year && (a.month < b.month ||
    (a.month == b.month && (a.day < b.day ||
    (a.day == b.day && a.micro < b.micro)))))
  }

  /** `a <= b`. */
  predicate AtOrBefore(a: DateTime, b: DateTime) {
    !Before(b, a)
  }

  lemma OrderIsStrictTotal(a: DateTime, b: DateTime, c: DateTime)
    ensures !Before(a, a)
    ensures Before(a, b) && Before(b, c) ==> Before(a, c)
    ensures Before(a, b) || a == b || Before(b, a)
    ensures AtOrBefore(a, b) <==> Before(a, b) || a == b
  {
  }

  /** Days in year `y`. */
  function YearDays(y: int): int {
    if IsLeapYear(y) then 366 else 365
  }

  /** Days in the (proleptic Gregorian) years from year 1 up to year `y`,
      as Python's `date.toordinal` counts them; negative before year 1. */
  function DaysBeforeYear(y: int): int
    decreases if y >= 1 then y - 1 else 1 - y
  {
    if y == 1 then 0
    else if y > 1 then DaysBeforeYear(y - 1) + YearDays(y - 1)
    else DaysBeforeYear(y + 1) - YearDays(y)
  }

  /** Days in the months of year `y` before month `m`. */
  function DaysBeforeMonth(y: int, m: int): int
    requires 1 <= m <= 12
  {
    var common := [0, 31, 59, 90, 120, 151, 181, 212, 243, 273, 304, 334][m - 1];
    if m > 2 && IsLeapYear(y) then common + 1 else common
  }

  /** The day's ordinal: 1 for 1 January of year 1, one more per day. */
  function DayNumber(d: Instant): int {
    DaysBeforeYear(d.year) + DaysBeforeMonth(d.year, d.month) + d.day
  }

  /** A year holds the days of its twelve months. */
  lemma YearLength(y: int)
    ensures DaysBeforeYear(y + 1) == DaysBeforeYear(y) + DaysBeforeMonth(y, 12) + 31
  {
    if y + 1 > 1 {
      assert DaysBeforeYear(y + 1) == DaysBeforeYear(y) + YearDays(y);
    } else {
      assert DaysBeforeYear(y) == DaysBeforeYear(y + 1) - YearDays(y);
    }
  }

  /** Month by month, the ordinal of a day is the ordinal of the previous day plus one. */
  lemma MonthLength(y: int, m: int)
    requires 1 <= m < 12
    ensures DaysBeforeMonth(y, m + 1) == DaysBeforeMonth(y, m) + DaysInMonth(y, m)
  {
  }

  /** Within a year, the ordinal grows with the month and the day. */
  lemma DayOfYearBounds(d: Instant)
    ensures 1 <= DaysBeforeMonth(d.year, d.month) + d.day <= DaysBeforeMonth(d.year, 12) + 31
  {
  }

  lemma DayOfYearOrder(a: Instant, b: Instant)
    requires a.year == b.year && (a.month < b.month || (a.month == b.month && a.day < b.day))
    ensures DaysBeforeMonth(a.year, a.month) + a.day < DaysBeforeMonth(b.year, b.month) + b.day
  {
    if a.month < b.month {
      MonthEndsBefore(a.year, a.month, b.month);
    }
  }

  lemma MonthEndsBefore(y: int, m: int, n: int)
    requires 1 <= m < n <= 12
    ensures DaysBeforeMonth(y, m) + DaysInMonth(y, m) <= DaysBeforeMonth(y, n)
  {
  }

  /** Each year is at least 365 days long, so later years start later. */
  lemma {:induction false} YearsOrdered(y: int, z: int)
    requires y < z
    ensures DaysBeforeYear(y) + 365 <= DaysBeforeYear(z)
    decreases z - y
  {
    YearLength(y);
    if y + 1 < z {
      YearsOrdered(y + 1, z);
    }
  }

  /** Distinct calendar days have distinct ordinals, and the ordinal follows
      their order: the ordinal is a faithful day count. */
  lemma DayNumberOrdersDays(a: Instant, b: Instant)
    requires a.year < b.year || (a.year == b.year && (a.month < b.month || (a.month == b.month && a.day < b.day)))
    ensures DayNumber(a) < DayNumber(b)
  {
    if a.year < b.year {
      DayOfYearBounds(a);
      DayOfYearBounds(b);
      YearLength(a.year);
      if a.year + 1 < b.year {
        YearsOrdered(a.year + 1, b.year);
      }
    } else {
      DayOfYearOrder(a, b);
    }
  }

  /** The same time of day on the following calendar day. */
  function NextDay(d: Instant): (r: Instant)
    ensures Before(d, r) && r.micro == d.micro
    ensures DayNumber(r) == DayNumber(d) + 1
  {
    if d.day < DaysInMonth(d.year, d.month) then d.(day := d.day + 1)
    else if d.month < 12 then
      MonthLength(d.year, d.month);
      DateTime(d.year, d.month + 1, 1, d.micro)
    else
      YearLength(d.year);
      DateTime(d.year + 1, 1, 1, d.micro)
  }

  /** `d + timedelta(days=n)`: the same time of day, `n` calendar days on. */
  function AddDays(d: Instant, n: nat): (r: Instant)
    ensures r.micro == d.micro
    ensures n > 0 ==> Before(d, r)
    decreases n
  {
    if n == 0 then d
    else
      var r := AddDays(NextDay(d), n - 1);
      OrderIsStrictTotal(d, NextDay(d), r);
      r
  }

  /** `AddDays` moves the day's ordinal by exactly `n`. */
  lemma {:induction false} AddDaysCounts(d: Instant, n: nat)
    ensures DayNumber(AddDays(d, n)) == DayNumber(d) + n
    decreases n
  {
    if n > 0 {
      AddDaysCounts(NextDay(d), n - 1);
    }
  }

  /** `AddDays(d, n)` is the only instant with the same time of day whose
      ordinal is `n` more than that of `d`: `d + timedelta(days=n)`. */
  lemma AddDaysIsUnique(d: Instant, n: nat, t: Instant)
    requires t.micro == d.micro && DayNumber(t) == DayNumber(d) + n
    ensures t == AddDays(d, n)
  {
    var r := AddDays(d, n);
    AddDaysCounts(d, n);
    if t.year != r.year || t.month != r.month || t.day != r.day {
      if t.year < r.year || (t.year == r.year && (t.month < r.month || (t.month == r.month && t.day < r.day))) {
        DayNumberOrdersDays(t, r);
      } else {
        DayNumberOrdersDays(r, t);
      }
    }
  }

  /** Adding days that stay inside the month only moves the day of the month. */
  lemma {:induction false} AddDaysWithinMonth(d: Instant, n: nat)
    requires d.day + n <= DaysInMonth(d.year, d.month)
    ensures AddDays(d, n) == d.(day := d.day + n)
    decreases n
  {
    if n > 0 {
      AddDaysWithinMonth(NextDay(d), n - 1);
    }
  }
}
