/** `formatRelativeTime`: how long ago a moment was, in the largest fitting unit. */
module FormatTime {
  import opened Wrappers
  import opened Strings

  /** The argument of `formatRelativeTime`: a `Date`, a string or a number. */
  datatype DateArg = DateValue(ms: int) | Text(s: string) | Number(n: int)

  /** `!date`: the empty string and the number 0 (a `Date` object is always truthy). */
  predicate FalsyDate(date: DateArg) {
    date == Text("") || date == Number(0)
  }

  /**
   * The whole-unit differences `now.diff(target, unit)` for minute, hour,
   * day, month and year.
   */
  datatype Diffs = Diffs(minutes: int, hours: int, days: int, months: int, years: int)

  /** `formatRelativeTime`: the cascade of thresholds, first match wins. */
  function FormatRelativeTime(date: DateArg, d: Diffs): (r: string)
    ensures FalsyDate(date) ==> r == ""
    ensures !FalsyDate(date) && d.minutes < 1 ==> r == "刚刚"
    ensures !FalsyDate(date) && 1 <= d.minutes < 60 ==> r == NatToString(d.minutes) + "分钟前"
    ensures !FalsyDate(date) && d.minutes >= 60 && d.hours < 24 ==> r == IntToString(d.hours) + "小时前"
    ensures !FalsyDate(date) && d.minutes >= 60 && d.hours >= 24 && d.days < 30 ==> r == IntToString(d.days) + "天前"
    ensures !FalsyDate(date) && d.minutes >= 60 && d.hours >= 24 && d.days >= 30 && d.months < 12 ==>
      r == IntToString(d.months) + "个月前"
    ensures !FalsyDate(date) && d.minutes >= 60 && d.hours >= 24 && d.days >= 30 && d.months >= 12 ==>
      r == IntToString(d.years) + "年前"
    ensures r == "" <==> FalsyDate(date)
  {
    if FalsyDate(date) then ""
    else if d.minutes < 1 then "刚刚"
    else if d.minutes < 60 then IntToString(d.minutes) + "分钟前"
    else if d.hours < 24 then IntToString(d.hours) + "小时前"
    else if d.days < 30 then IntToString(d.days) + "天前"
    else if d.months < 12 then IntToString(d.months) + "个月前"
    else IntToString(d.years) + "年前"
  }

  const MinuteMs: int := 60_000
  const HourMs: int := 3_600_000
  const DayMs: int := 86_400_000

  /** Whole units in `e` milliseconds, truncated toward zero as dayjs `diff` does. */
  function TruncUnits(e: int, unit: int): (n: int)
    requires unit > 0
    ensures e >= 0 ==> n == e / unit
    ensures e < 0 ==> n <= 0
  {
    if e >= 0 then e / unit else -((-e) / unit)
  }

  /** The minute, hour and day differences of an elapsed time of `e` milliseconds. */
  function FromElapsed(e: int, months: int, years: int): Diffs {
    Diffs(TruncUnits(e, MinuteMs), TruncUnits(e, HourMs), TruncUnits(e, DayMs), months, years)
  }

  /** Less than a minute ago, and every moment in the future, reads '刚刚'. */
  lemma RecentOrFutureIsJustNow(date: DateArg, e: int, months: int, years: int)
    requires !FalsyDate(date) && e < MinuteMs
    ensures FormatRelativeTime(date, FromElapsed(e, months, years)) == "刚刚"
  {
  }

  /** From one minute to under an hour: the minute count, between 1 and 59. */
  lemma MinutesShown(date: DateArg, e: int, months: int, years: int)
    requires !FalsyDate(date) && MinuteMs <= e < HourMs
    ensures 1 <= e / MinuteMs <= 59
    ensures FormatRelativeTime(date, FromElapsed(e, months, years)) == NatToString(e / MinuteMs) + "分钟前"
  {
  }

  /** From one hour to under a day: the hour count, between 1 and 23. */
  lemma HoursShown(date: DateArg, e: int, months: int, years: int)
    requires !FalsyDate(date) && HourMs <= e < DayMs
    ensures 1 <= e / HourMs <= 23
    ensures FormatRelativeTime(date, FromElapsed(e, months, years)) == NatToString(e / HourMs) + "小时前"
  {
    assert e / MinuteMs >= 60;
  }

  /** From one day to under thirty: the day count, between 1 and 29. */
  lemma DaysShown(date: DateArg, e: int, months: int, years: int)
    requires !FalsyDate(date) && DayMs <= e < 30 * DayMs
    ensures 1 <= e / DayMs <= 29
    ensures FormatRelativeTime(date, FromElapsed(e, months, years)) == NatToString(e / DayMs) + "天前"
  {
    assert e / MinuteMs >= 60;
    assert e / HourMs >= 24;
  }

  /** The count in front of the unit reads back as the difference it shows. */
  lemma CountReadsBack(date: DateArg, d: Diffs)
    requires !FalsyDate(date) && 1 <= d.minutes < 60
    ensures var r := FormatRelativeTime(date, d);
      |r| > 3 && ParseDecimal(r[..|r| - 3]) == Some(d.minutes)
  {
    var r := FormatRelativeTime(date, d);
    assert r[..|r| - 3] == NatToString(d.minutes);
    ParseNatToString(d.minutes);
  }
}
