/** The time window `[$gte, $lt)` that `statisticsAll` hands each report tier,
    computed from the instant at which the tier's turn comes. */
module Windows {
  import opened Telemetry
  import opened Calendar

  /** The query bounds `$gte` (start) and `$lt` (end), in milliseconds. */
  datatype Window = Window(start: int, end: int)

  /** `dailyReport`: the last complete hour before `now`, cut on the UTC time
      value itself rather than on the local calendar. */
  function HourWindow(now: nat): (w: Window)
    ensures w.end % HOUR_MS == 0 && w.end <= now < w.end + HOUR_MS
    ensures w.end - w.start == HOUR_MS
  {
    var endTime := now - now % HOUR_MS;
    Window(endTime - HOUR_MS, endTime)
  }

  /** `monthlyReport`: the local day containing `now`. The host reads a time
      value in local time as `now + offset`; the setters hand back a time
      value, so the window is shifted back by `offset`. */
  function DayWindow(now: nat, offset: int): (w: Window)
    requires now + offset >= 0
    ensures (w.start + offset) % DAY_MS == 0 && w.start <= now < w.end
    ensures w.end - w.start == DAY_MS
    ensures var d := FromTime(now + offset);
            w.start + offset == TimeOf(DateTime(d.year, d.month, d.date, 0))
  {
    var curDate := FromTime(now + offset);
    var startTime := TimeOf(SetHours(curDate, 0, 0, 0, 0)) - offset;
    Window(startTime, startTime + DAY_MS)
  }

  lemma DayArithmetic(a: int, b: int)
    ensures (a + b) * DAY_MS == a * DAY_MS + b * DAY_MS
    ensures a <= b ==> a * DAY_MS <= b * DAY_MS
  {
  }

  /** The first of the month after (`year`, `month`). */
  function NextMonthStart(year: int, month: int): DateTime
  {
    if month == 11 then DateTime(year + 1, 0, 1, 0) else DateTime(year, month + 1, 1, 0)
  }

  /** What `setHours(0, 0, 0, 0)`, `setMonth(m, 1)` and `setMonth(m + 1, 1)`
      give on a date of month `m`. */
  lemma MonthSetters(d: DateTime)
    requires Valid(d)
    ensures Valid(DateTime(d.year, d.month, 1, 0)) && Valid(NextMonthStart(d.year, d.month))
    ensures SetMonth(SetHours(d, 0, 0, 0, 0), d.month, 1) == DateTime(d.year, d.month, 1, 0)
    ensures SetMonth(DateTime(d.year, d.month, 1, 0), d.month + 1, 1) == NextMonthStart(d.year, d.month)
  {
    var m := d.month;
    assert m / 12 == 0 && m % 12 == m;
    assert (m + 1) / 12 == (if m == 11 then 1 else 0);
    assert (m + 1) % 12 == (if m == 11 then 0 else m + 1);
  }

  /** The days between the first of `d`'s month and the first of the next
      month hold `d`. */
  lemma MonthBounds(d: DateTime)
    requires Valid(d)
    ensures Valid(DateTime(d.year, d.month, 1, 0)) && Valid(NextMonthStart(d.year, d.month))
    ensures TimeOf(NextMonthStart(d.year, d.month)) - TimeOf(DateTime(d.year, d.month, 1, 0))
         == DaysInMonth(d.year, d.month) * DAY_MS
    ensures TimeOf(DateTime(d.year, d.month, 1, 0)) <= TimeOf(d) < TimeOf(NextMonthStart(d.year, d.month))
  {
    var y, m := d.year, d.month;
    var before := DaysBeforeYear(y) + DaysBeforeMonth(y, m);
    var after := before + DaysInMonth(y, m);
    assert TimeOf(NextMonthStart(y, m)) == after * DAY_MS by {
      if m == 11 {
        assert DaysBeforeYear(y + 1) == DaysBeforeYear(y) + DaysBeforeMonth(y, 12);
      }
    }
    DayArithmetic(before, DaysInMonth(y, m));
    DayArithmetic(DayNumber(d), 1);
    DayArithmetic(DayNumber(d) + 1, after);
    DayArithmetic(before, DayNumber(d));
  }

  /** `yearlyReport`: the local month containing `now`. It runs from the first
      of the month to the first of the next month, December giving way to
      January of the next year, and so spans exactly that month's days. */
  function MonthWindow(now: nat, offset: int): (w: Window)
    requires now + offset >= 0
    ensures var d := FromTime(now + offset);
            && w.start + offset == TimeOf(DateTime(d.year, d.month, 1, 0))
            && w.end + offset == TimeOf(NextMonthStart(d.year, d.month))
            && w.end - w.start == DaysInMonth(d.year, d.month) * DAY_MS
            && w.start <= now < w.end
  {
    var curDate := FromTime(now + offset);
    MonthSetters(curDate);
    MonthBounds(curDate);
    var curMonth := curDate.month;
    var midnight := SetHours(curDate, 0, 0, 0, 0);
    var first := SetMonth(midnight, curMonth, 1);
    var next := SetMonth(first, curMonth + 1, 1);
    assert first == DateTime(curDate.year, curMonth, 1, 0);
    assert next == NextMonthStart(curDate.year, curMonth);
    Window(TimeOf(first) - offset, TimeOf(next) - offset)
  }

  /** January 1 of `d`'s year and of the next year bracket `d`. */
  lemma YearBounds(d: DateTime)
    requires Valid(d)
    ensures Valid(DateTime(d.year, 0, 1, 0)) && Valid(DateTime(d.year + 1, 0, 1, 0))
    ensures TimeOf(DateTime(d.year + 1, 0, 1, 0)) - TimeOf(DateTime(d.year, 0, 1, 0)) == DaysInYear(d.year) * DAY_MS
    ensures TimeOf(DateTime(d.year, 0, 1, 0)) <= TimeOf(d) < TimeOf(DateTime(d.year + 1, 0, 1, 0))
  {
    var y := d.year;
    var after := DaysBeforeYear(y) + DaysInYear(y);
    assert TimeOf(DateTime(y + 1, 0, 1, 0)) == after * DAY_MS;
    DaysBeforeMonthMonotone(y, d.month + 1, 12);
    DayArithmetic(DaysBeforeYear(y), DaysInYear(y));
    DayArithmetic(DayNumber(d), 1);
    DayArithmetic(DayNumber(d) + 1, after);
    DayArithmetic(DaysBeforeYear(y), DayNumber(d));
  }

  /** `allReport`: the local year containing `now`, from January 1 to January
      1 of the next year. */
  function YearWindow(now: nat, offset: int): (w: Window)
    requires now + offset >= 0
    ensures var d := FromTime(now + offset);
            && w.start + offset == TimeOf(DateTime(d.year, 0, 1, 0))
            && w.end + offset == TimeOf(DateTime(d.year + 1, 0, 1, 0))
            && w.end - w.start == DaysInYear(d.year) * DAY_MS
            && w.start <= now < w.end
  {
    var curDate := FromTime(now + offset);
    YearBounds(curDate);
    var curYear := curDate.year;
    var midnight := SetHours(curDate, 0, 0, 0, 0);
    var january := SetMonth(midnight, 0, 1);
    assert january == DateTime(curYear, 0, 1, 0);
    var first := SetFullYear(january, curYear);
    var next := SetFullYear(first, curYear + 1);
    assert first == DateTime(curYear, 0, 1, 0) && next == DateTime(curYear + 1, 0, 1, 0);
    Window(TimeOf(first) - offset, TimeOf(next) - offset)
  }

  /** The window of one of the four report types. Every window is non-empty;
      each calendar window contains the instant it was computed from, while
      the hourly one ends at or before it. */
  function ReportWindow(dataType: string, now: nat, offset: int): (w: Window)
    requires dataType in REPORT_DATA_TYPE && now + offset >= 0
    ensures w.start < w.end
    ensures dataType != "dailyReport" ==> w.start <= now < w.end
    ensures dataType == "dailyReport" ==> w.end <= now
  {
    if dataType == "dailyReport" then HourWindow(now)
    else if dataType == "monthlyReport" then DayWindow(now, offset)
    else if dataType == "yearlyReport" then MonthWindow(now, offset)
    else YearWindow(now, offset)
  }

  /** The hourly window is cut on the UTC time value, the others on the local
      calendar: the hour is also a local clock hour exactly when the offset is
      a whole number of hours. */
  lemma HourWindowOnLocalHour(now: nat, offset: int)
    ensures (HourWindow(now).start + offset) % HOUR_MS == 0 <==> offset % HOUR_MS == 0
  {
    var w := HourWindow(now);
    var k := now / HOUR_MS;
    assert w.start == (k - 1) * HOUR_MS;
    HourMultiple(k - 1, offset);
  }

  lemma HourMultiple(k: int, offset: int)
    ensures (k * HOUR_MS + offset) % HOUR_MS == offset % HOUR_MS
  {
  }

  /** A host at UTC+05:30 at 10:45 local time (05:15 UTC): the daily tier
      reads local 09:30 to 10:30, not a local clock hour. */
  lemma HalfHourOffsetWindow()
    ensures HourWindow(5 * HOUR_MS + 15 * 60000).start + 19800000 == 9 * HOUR_MS + 30 * 60000
    ensures HourWindow(5 * HOUR_MS + 15 * 60000).end + 19800000 == 10 * HOUR_MS + 30 * 60000
  {
  }
}
