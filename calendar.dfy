/** The host's local calendar as JavaScript's `Date` presents it. A local
    time value counts milliseconds since 1970-01-01 00:00 on the local wall
    clock (the UTC time value plus the host's offset), and a `DateTime` is its
    (year, month, date, time of day) reading. Months count from 0 (January)
    to 11 (December), as `getMonth` returns them. The local offset is fixed
    (no daylight-saving changes), so every local day lasts exactly `DAY_MS`
    milliseconds. */
module Calendar {

  const EPOCH_YEAR := 1970
  const HOUR_MS := 3600000
  const DAY_MS := 86400000

  predicate IsLeapYear(year: int)
  {
    year % 4 == 0 && (year % 100 != 0 || year % 400 == 0)
  }

  function DaysInMonth(year: int, month: int): (n: int)
    requires 0 <= month < 12
    ensures 28 <= n <= 31
  {
    if month == 1 then (if IsLeapYear(year) then 29 else 28)
    else if month == 3 || month == 5 || month == 8 || month == 10 then 30
    else 31
  }

  /** Days of the months of `year` before `month`. */
  function DaysBeforeMonth(year: int, month: int): (n: nat)
    requires 0 <= month <= 12
    ensures 28 * month <= n <= 31 * month
  {
    if month == 0 then 0 else DaysBeforeMonth(year, month - 1) + DaysInMonth(year, month - 1)
  }

  function DaysInYear(year: int): nat
  {
    DaysBeforeMonth(year, 12)
  }

  /** Days of the years from 1970 up to, not including, `year`. */
  function DaysBeforeYear(year: int): nat
    requires year >= EPOCH_YEAR
    decreases year - EPOCH_YEAR
  {
    if year == EPOCH_YEAR then 0 else DaysBeforeYear(year - 1) + DaysInYear(year - 1)
  }

  /** A local date and time of day; `msOfDay` counts milliseconds since midnight. */
  datatype DateTime = DateTime(year: int, month: int, date: int, msOfDay: int)

  predicate Valid(d: DateTime)
  {
    && d.year >= EPOCH_YEAR
    && 0 <= d.month < 12
    && 1 <= d.date <= DaysInMonth(d.year, d.month)
    && 0 <= d.msOfDay < DAY_MS
  }

  /** Days from 1970-01-01 to the date of `d`. */
  function DayNumber(d: DateTime): nat
    requires Valid(d)
  {
    DaysBeforeYear(d.year) + DaysBeforeMonth(d.year, d.month) + d.date - 1
  }

  /** The time value of `d`, as `getTime` returns it. */
  function TimeOf(d: DateTime): nat
    requires Valid(d)
  {
    DayNumber(d) * DAY_MS + d.msOfDay
  }

  lemma DaysBeforeMonthMonotone(year: int, m1: int, m2: int)
    requires 0 <= m1 <= m2 <= 12
    ensures DaysBeforeMonth(year, m1) <= DaysBeforeMonth(year, m2)
    decreases m2 - m1
  {
    if m1 < m2 {
      DaysBeforeMonthMonotone(year, m1, m2 - 1);
    }
  }

  /** The year a day count from 1970 falls in, and the day within that year;
      the search starts at `year`. */
  function YearOf(days: nat, year: int): (r: (int, nat))
    requires year >= EPOCH_YEAR
    ensures r.0 >= year && r.1 < DaysInYear(r.0)
    ensures DaysBeforeYear(r.0) + r.1 == DaysBeforeYear(year) + days
    decreases days
  {
    if days < DaysInYear(year) then (year, days)
    else YearOf(days - DaysInYear(year), year + 1)
  }

  /** The month a day of `year` falls in, and the day within that month; the
      search starts at `month`. */
  function MonthOf(year: int, dayOfYear: nat, month: int): (r: (int, nat))
    requires 0 <= month < 12
    requires DaysBeforeMonth(year, month) + dayOfYear < DaysInYear(year)
    ensures month <= r.0 < 12 && r.1 < DaysInMonth(year, r.0)
    ensures DaysBeforeMonth(year, r.0) + r.1 == DaysBeforeMonth(year, month) + dayOfYear
    decreases 12 - month
  {
    if dayOfYear < DaysInMonth(year, month) then (month, dayOfYear)
    else MonthOf(year, dayOfYear - DaysInMonth(year, month), month + 1)
  }

  /** `new Date(t)` read back through `getFullYear`, `getMonth`, `getDate`
      and the time of day. */
  function FromTime(t: nat): (d: DateTime)
    ensures Valid(d) && TimeOf(d) == t
  {
    var days := t / DAY_MS;
    var (year, dayOfYear) := YearOf(days, EPOCH_YEAR);
    var (month, dayOfMonth) := MonthOf(year, dayOfYear, 0);
    DateTime(year, month, dayOfMonth + 1, t % DAY_MS)
  }

  // The setters the report windows use. Each returns the updated date; its
  // time value, what the JavaScript setter returns, is `TimeOf` of it.

  /** `setHours(hours, minutes, seconds, ms)` within the same day. */
  function SetHours(d: DateTime, hours: int, minutes: int, seconds: int, ms: int): (r: DateTime)
    requires Valid(d)
    requires 0 <= hours < 24 && 0 <= minutes < 60 && 0 <= seconds < 60 && 0 <= ms < 1000
    ensures Valid(r) && (r.year, r.month, r.date) == (d.year, d.month, d.date)
    ensures TimeOf(r) == TimeOf(d) - TimeOf(d) % DAY_MS + ((hours * 60 + minutes) * 60 + seconds) * 1000 + ms
  {
    d.(msOfDay := ((hours * 60 + minutes) * 60 + seconds) * 1000 + ms)
  }

  /** `setMonth(month, date)`: a month number past 11 carries into the
      following years. */
  function SetMonth(d: DateTime, month: int, date: int): (r: DateTime)
    requires Valid(d) && month >= 0
    requires 1 <= date <= DaysInMonth(d.year + month / 12, month % 12)
    ensures Valid(r) && r.year * 12 + r.month == d.year * 12 + month
    ensures month < 12 ==> r.year == d.year
    ensures r.date == date && r.msOfDay == d.msOfDay
  {
    DateTime(d.year + month / 12, month % 12, date, d.msOfDay)
  }

  /** `setFullYear(year)` on a date that exists in that year. */
  function SetFullYear(d: DateTime, year: int): (r: DateTime)
    requires Valid(d) && year >= EPOCH_YEAR && d.date <= DaysInMonth(year, d.month)
    ensures Valid(r) && r.year == year && (r.month, r.date) == (d.month, d.date)
    ensures TimeOf(r) % DAY_MS == TimeOf(d) % DAY_MS
  {
    d.(year := year)
  }
}
