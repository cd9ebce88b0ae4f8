/**
 * The trading calendar of the line-projection engine.
 *
 * A timestamp is an integer number of minutes since a Monday 00:00 in the
 * trading desk's local time (Central Time), so the day index is t / 1440,
 * the weekday is that index modulo 7 (0 = Monday, as Python's weekday())
 * and the time of day is t % 1440. Dafny's / and % floor for a positive
 * divisor, which is what calendar arithmetic needs for instants before the
 * epoch as well.
 */
module Calendar {

  const CandleMinutes: int := 30
  const MinutesPerDay: int := 1440
  const MinutesPerWeek: int := 10080

  /** 16:00, the start of the daily maintenance window (and of Friday's close). */
  const MaintenanceStart: int := 960
  /** 17:00, the end of the daily maintenance window (and Sunday's reopening). */
  const MaintenanceEnd: int := 1020
  /** 09:00, the instant at which the key levels are read. */
  const DecisionTime: int := 540

  const Friday: int := 4
  const Saturday: int := 5
  const Sunday: int := 6

  function Weekday(t: int): (d: int)
    ensures 0 <= d < 7
  {
    (t / MinutesPerDay) % 7
  }

  function TimeOfDay(t: int): (m: int)
    ensures 0 <= m < MinutesPerDay
  {
    t % MinutesPerDay
  }

  /** The instant at minute `hour * 60 + minute` of weekday `day` in week `week`. */
  function At(week: int, day: int, hour: int, minute: int): int
  {
    week * MinutesPerWeek + day * MinutesPerDay + hour * 60 + minute
  }

  /**
   * The skip rules of the candle-counting loop, checked in the loop's order:
   * Saturday; Sunday before 17:00; Friday from 16:00; and, on any day, the
   * maintenance hour [16:00, 17:00).
   */
  predicate InClosedWindow(t: int)
  {
    var day, tod := Weekday(t), TimeOfDay(t);
    if day == Saturday then true
    else if day == Sunday && tod < MaintenanceEnd then true
    else if day == Friday && tod >= MaintenanceStart then true
    else MaintenanceStart <= tod < MaintenanceEnd
  }

  /** An instant at which a 30-minute candle boundary is counted. */
  predicate IsTradable(t: int)
  {
    !InClosedWindow(t)
  }

  /** The minute of the week, an independent clock on which the closures are two intervals. */
  function MinuteOfWeek(t: int): (w: int)
    ensures 0 <= w < MinutesPerWeek
  {
    t % MinutesPerWeek
  }

  /** Euclidean division by a day, stated once so that callers need no nonlinear reasoning. */
  lemma DayAndTime(t: int, day: int, tod: int)
    requires t == day * MinutesPerDay + tod && 0 <= tod < MinutesPerDay
    ensures t / MinutesPerDay == day && TimeOfDay(t) == tod
  {
  }

  /** Euclidean division by a week, stated once so that callers need no nonlinear reasoning. */
  lemma WeekAndMinute(t: int, week: int, w: int)
    requires t == week * MinutesPerWeek + w && 0 <= w < MinutesPerWeek
    ensures MinuteOfWeek(t) == w
  {
  }

  /** The minute of the week is the weekday's offset plus the time of day. */
  lemma MinuteOfWeekSplits(t: int)
    ensures MinuteOfWeek(t) == Weekday(t) * MinutesPerDay + TimeOfDay(t)
  {
    var q, r := t / MinutesPerDay, t % MinutesPerDay;
    var p, d := q / 7, q % 7;
    assert t == p * MinutesPerWeek + (d * MinutesPerDay + r);
    assert 0 <= d * MinutesPerDay + r < MinutesPerWeek;
  }

  /**
   * The skip rules close exactly the weekend (Friday 16:00 up to Sunday
   * 17:00 on the weekly clock) and the daily maintenance hour.
   */
  lemma {:induction false} ClosedWindowIsWeekendOrMaintenance(t: int)
    ensures InClosedWindow(t) <==>
      (At(0, Friday, 16, 0) <= MinuteOfWeek(t) < At(0, Sunday, 17, 0)) ||
      (MaintenanceStart <= TimeOfDay(t) < MaintenanceEnd)
  {
    MinuteOfWeekSplits(t);
  }

  /**
   * The comments on the skip rules say the maintenance hour is skipped
   * "Mon-Thu only"; the code skips it every day. On Friday, Saturday and
   * Sunday the earlier rules already close that hour, so both readings close
   * the same instants.
   */
  lemma MaintenanceRuleMondayToThursdaySuffices(t: int)
    ensures InClosedWindow(t) <==>
      (Weekday(t) == Saturday) ||
      (Weekday(t) == Sunday && TimeOfDay(t) < MaintenanceEnd) ||
      (Weekday(t) == Friday && TimeOfDay(t) >= MaintenanceStart) ||
      (Weekday(t) < Friday && MaintenanceStart <= TimeOfDay(t) < MaintenanceEnd)
  {
  }

  /** The weekday and time of day of an instant built with At. */
  lemma {:induction false} AtHasWeekdayAndTime(week: int, day: int, hour: int, minute: int)
    requires 0 <= day < 7 && 0 <= hour < 24 && 0 <= minute < 60
    ensures Weekday(At(week, day, hour, minute)) == day
    ensures TimeOfDay(At(week, day, hour, minute)) == hour * 60 + minute
  {
    var t := At(week, day, hour, minute);
    DayAndTime(t, week * 7 + day, hour * 60 + minute);
  }
}
