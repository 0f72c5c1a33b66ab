/**
 * Civil date-times on one fixed timeline (UTC, no daylight saving), as the
 * connector's `datetime` values are used: day and month arithmetic, the
 * normalisation to the first instant of a month, and the whole-day
 * difference of two instants.  Years start at 1, as Python's `datetime` does.
 */
module Calendar {

  datatype Civil = Civil(year: int, month: int, day: int, hour: int, minute: int, second: int)

  predicate IsLeap(y: int) {
    y % 4 == 0 && (y % 100 != 0 || y % 400 == 0)
  }

  function DaysInMonth(y: int, m: int): (n: int)
    ensures 28 <= n <= 31
  {
    if m == 2 then (if IsLeap(y) then 29 else 28)
    else if m == 4 || m == 6 || m == 9 || m == 11 then 30
    else 31
  }

  function DaysInYear(y: int): int {
    if IsLeap(y) then 366 else 365
  }

  predicate WellFormed(c: Civil) {
    && 1 <= c.year
    && 1 <= c.month <= 12
    && 1 <= c.day <= DaysInMonth(c.year, c.month)
    && 0 <= c.hour < 24
    && 0 <= c.minute < 60
    && 0 <= c.second < 60
  }

  /** A valid date-time of the proleptic Gregorian calendar. */
  type DateTime = c: Civil | WellFormed(c) witness Civil(1970, 1, 1, 0, 0, 0)

  const SecondsPerDay := 86400

  /** Days of the years 1 .. y-1 (Gregorian leap rule, closed form). */
  function DaysBeforeYear(y: int): int
    requires 1 <= y
  {
    var k := y - 1;
    365 * k + k / 4 - k / 100 + k / 400
  }

  /** Days of the months 1 .. m-1 of year y. */
  function DaysBeforeMonth(y: int, m: int): int
    requires 1 <= m <= 13
  {
    var leap := if IsLeap(y) then 1 else 0;
    if m == 1 then 0
    else if m == 2 then 31
    else if m == 3 then 59 + leap
    else if m == 4 then 90 + leap
    else if m == 5 then 120 + leap
    else if m == 6 then 151 + leap
    else if m == 7 then 181 + leap
    else if m == 8 then 212 + leap
    else if m == 9 then 243 + leap
    else if m == 10 then 273 + leap
    else if m == 11 then 304 + leap
    else if m == 12 then 334 + leap
    else 365 + leap
  }

  /** Days elapsed since 0001-01-01 (that day is number 0). */
  function DayNumber(d: DateTime): int {
    DaysBeforeYear(d.year) + DaysBeforeMonth(d.year, d.month) + d.day - 1
  }

  function SecondOfDay(d: DateTime): int {
    d.hour * 3600 + d.minute * 60 + d.second
  }

  /** Seconds elapsed since 0001-01-01T00:00:00: the instant `d` denotes. */
  function Instant(d: DateTime): int {
    DayNumber(d) * SecondsPerDay + SecondOfDay(d)
  }

  /** `a <= b` on Python datetimes: comparison of the instants. */
  predicate NotAfter(a: DateTime, b: DateTime) {
    Instant(a) <= Instant(b)
  }

  lemma DaysBeforeNextYear(y: int)
    requires 1 <= y
    ensures DaysBeforeYear(y + 1) == DaysBeforeYear(y) + DaysInYear(y)
  {
    QuarterStep(y);
    CenturyStep(y);
    QuadCenturyStep(y);
  }

  lemma QuarterStep(y: int)
    ensures y / 4 - (y - 1) / 4 == if y % 4 == 0 then 1 else 0
  {
  }

  /** Crossing a multiple of 100, which is also a multiple of 4. */
  lemma CenturyStep(y: int)
    ensures y / 100 - (y - 1) / 100 == if y % 100 == 0 then 1 else 0
    ensures y % 100 == 0 ==> y % 4 == 0
  {
    if y % 100 == 0 {
      var q := y / 100;
      assert y == 4 * (25 * q);
    }
  }

  /** Crossing a multiple of 400, which is also a multiple of 100. */
  lemma QuadCenturyStep(y: int)
    ensures y / 400 - (y - 1) / 400 == if y % 400 == 0 then 1 else 0
    ensures y % 400 == 0 ==> y % 100 == 0
  {
    if y % 400 == 0 {
      var q := y / 400;
      assert y == 100 * (4 * q);
    }
  }

  lemma DayNumberBounds(d: DateTime)
    ensures 0 <= DayNumber(d)
    ensures 0 <= SecondOfDay(d) < SecondsPerDay
    ensures DayNumber(d) * SecondsPerDay <= Instant(d) < DayNumber(d) * SecondsPerDay + SecondsPerDay
    ensures DayNumber(d) == 0 <==> d.year == 1 && d.month == 1 && d.day == 1
  {
    if d.year > 1 {
      assert DaysBeforeYear(d.year) >= 365 * (d.year - 1) by {
        var k := d.year - 1;
        assert k / 4 >= k / 100;
      }
    }
  }

  /** The same wall-clock time one calendar day later (`+ timedelta(days=1)`). */
  function AddDay(d: DateTime): (r: DateTime)
    ensures DayNumber(r) == DayNumber(d) + 1
    ensures SecondOfDay(r) == SecondOfDay(d)
    ensures Instant(r) == Instant(d) + SecondsPerDay
  {
    if d.day < DaysInMonth(d.year, d.month) then d.(day := d.day + 1)
    else if d.month < 12 then d.(month := d.month + 1, day := 1)
    else
      DaysBeforeNextYear(d.year);
      d.(year := d.year + 1, month := 1, day := 1)
  }

  /** The same wall-clock time one calendar day earlier; there is no day before 0001-01-01. */
  function SubDay(d: DateTime): (r: DateTime)
    requires 1 <= DayNumber(d)
    ensures DayNumber(r) == DayNumber(d) - 1
    ensures SecondOfDay(r) == SecondOfDay(d)
    ensures Instant(r) == Instant(d) - SecondsPerDay
  {
    if d.day > 1 then d.(day := d.day - 1)
    else if d.month > 1 then d.(month := d.month - 1, day := DaysInMonth(d.year, d.month - 1))
    else
      DayNumberBounds(d);
      DaysBeforeNextYear(d.year - 1);
      d.(year := d.year - 1, month := 12, day := 31)
  }

  /** `d - timedelta(days=n)`. */
  function SubDays(d: DateTime, n: nat): (r: DateTime)
    requires n <= DayNumber(d)
    ensures DayNumber(r) == DayNumber(d) - n
    ensures SecondOfDay(r) == SecondOfDay(d)
    ensures Instant(r) == Instant(d) - n * SecondsPerDay
    decreases n
  {
    if n == 0 then d else SubDays(SubDay(d), n - 1)
  }

  /**
   * `d + relativedelta(months=1)`: the next calendar month, the day clamped
   * to that month's length, the time of day kept.
   */
  function AddMonth(d: DateTime): (r: DateTime)
    ensures r.year * 12 + r.month == d.year * 12 + d.month + 1
    ensures r.day == if d.day <= DaysInMonth(r.year, r.month) then d.day else DaysInMonth(r.year, r.month)
    ensures SecondOfDay(r) == SecondOfDay(d)
    ensures DayNumber(d) < DayNumber(r)
    ensures Instant(d) < Instant(r)
  {
    if d.month < 12 then
      var day := if d.day <= DaysInMonth(d.year, d.month + 1) then d.day else DaysInMonth(d.year, d.month + 1);
      Civil(d.year, d.month + 1, day, d.hour, d.minute, d.second)
    else
      DaysBeforeNextYear(d.year);
      Civil(d.year + 1, 1, d.day, d.hour, d.minute, d.second)
  }

  /** `d.replace(day=1, hour=0, minute=0, second=0, microsecond=0)`. */
  function StartOfMonth(d: DateTime): (r: DateTime)
    ensures r.year == d.year && r.month == d.month
    ensures r.day == 1 && r.hour == 0 && r.minute == 0 && r.second == 0
    ensures Instant(r) <= Instant(d)
  {
    Civil(d.year, d.month, 1, 0, 0, 0)
  }

  /** `(b - a).days`: whole days from `a` to `b`, rounded towards minus infinity. */
  function DaysBetween(a: DateTime, b: DateTime): int {
    (Instant(b) - Instant(a)) / SecondsPerDay
  }
}
