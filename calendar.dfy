/** Local calendar time as JavaScript's `Date` and PostgreSQL's timestamps
    present it: a year, a month counted from 0 (January) to 11 (December), a
    day of the month from 1, and milliseconds since midnight. Time zones and
    daylight-saving shifts are not modelled; every date is in one local zone. */
module Calendar {

  const MsPerDay := 86400000

  datatype DateTime = DateTime(year: int, month: int, day: int, ms: int)

  predicate IsLeapYear(y: int) {
    (y % 4 == 0 && y % 100 != 0) || y % 400 == 0
  }

  function DaysInMonth(y: int, m: int): (n: int)
    requires 0 <= m < 12
    ensures 28 <= n <= 31
  {
    if m == 1 then (if IsLeapYear(y) then 29 else 28)
    else if m == 3 || m == 5 || m == 8 || m == 10 then 30
    else 31
  }

  predicate Valid(d: DateTime) {
    && 0 <= d.month < 12
    && 1 <= d.day <= DaysInMonth(d.year, d.month)
    && 0 <= d.ms < MsPerDay
  }

  /** Strict chronological order: compare year, month, day, then time of day. */
  predicate Before(a: DateTime, b: DateTime) {
    || a.year < b.year
    || (a.year == b.year && a.month < b.month)
    || (a.year == b.year && a.month == b.month && a.day < b.day)
    || (a.year == b.year && a.month == b.month && a.day == b.day && a.ms < b.ms)
  }

  /** JavaScript's `a >= b` on two dates. */
  predicate AtOrAfter(a: DateTime, b: DateTime) {
    !Before(a, b)
  }

  lemma BeforeIsTransitive(a: DateTime, b: DateTime, c: DateTime)
    requires Before(a, b) && Before(b, c)
    ensures Before(a, c)
  {
  }

  /** Midnight on the first day of month `m` of year `y`. */
  function MonthStart(y: int, m: int): (d: DateTime)
    requires 0 <= m < 12
    ensures Valid(d)
  {
    DateTime(y, m, 1, 0)
  }

  /** The first instant of the calendar month after the one `d` falls in; this
      is also PostgreSQL's `date_trunc('month', d) + INTERVAL '1 month'`. */
  function NextMonthStart(d: DateTime): (r: DateTime)
    requires Valid(d)
    ensures Valid(r) && r.day == 1 && r.ms == 0
    ensures r.year * 12 + r.month == d.year * 12 + d.month + 1
    ensures Before(d, r)
  {
    if d.month == 11 then MonthStart(d.year + 1, 0) else MonthStart(d.year, d.month + 1)
  }

  /** Day `day` (1 or more) of month `m` of year `y`, with JavaScript's
      overflow: a day past the end of the month carries into the next ones. */
  function Normalize(y: int, m: int, day: int, ms: int): (r: DateTime)
    requires 0 <= m < 12 && 1 <= day && 0 <= ms < MsPerDay
    ensures Valid(r) && r.ms == ms
    decreases day
  {
    if day <= DaysInMonth(y, m) then DateTime(y, m, day, ms)
    else if m == 11 then Normalize(y + 1, 0, day - DaysInMonth(y, m), ms)
    else Normalize(y, m + 1, day - DaysInMonth(y, m), ms)
  }

  /** `d.setMonth(month)`: keep the day of the month and the time, carry a
      month outside 0..11 into the year, and let a day the new month lacks
      overflow into the month after it. */
  function SetMonth(d: DateTime, month: int): (r: DateTime)
    requires Valid(d)
    ensures Valid(r)
  {
    Normalize(d.year + month / 12, month % 12, d.day, d.ms)
  }

  /** `d.setDate(day)` for a day of 1 or more. */
  function SetDate(d: DateTime, day: int): (r: DateTime)
    requires Valid(d) && 1 <= day
    ensures Valid(r)
  {
    Normalize(d.year, d.month, day, d.ms)
  }

  /** `d.setHours(0, 0, 0, 0)`. */
  function SetMidnight(d: DateTime): (r: DateTime)
    requires Valid(d)
    ensures Valid(r)
  {
    d.(ms := 0)
  }
}
