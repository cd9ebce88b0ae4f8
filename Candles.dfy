/**
 * The candle counter: how many tradable 30-minute boundaries a cursor lands
 * on while it steps from a start instant until it reaches an end instant.
 */
module Candles {
  import opened Calendar

  /**
   * Number of steps the counting loop takes: the cursor advances while it is
   * before `end`, so it stops on the first boundary at or after `end`.
   */
  function Steps(start: int, end: int): (n: nat)
  {
    if end <= start then 0 else (end - start + CandleMinutes - 1) / CandleMinutes
  }

  /**
   * The count of tradable boundaries the loop lands on, stepping from `start`
   * while the cursor is before `end`. It never exceeds the number of steps.
   */
  function CandleCount(start: int, end: int): (n: nat)
    ensures end <= start ==> n == 0
    ensures n <= Steps(start, end)
    decreases end - start
  {
    if start >= end then 0
    else
      var next := start + CandleMinutes;
      (if IsTradable(next) then 1 else 0) + CandleCount(next, end)
  }

  /** The counting loop of the dashboard, proved to compute CandleCount. */
  method CountCandlesBetween(start: int, end: int) returns (count: nat)
    ensures count == CandleCount(start, end)
    ensures end <= start ==> count == 0
  {
    if end <= start {
      return 0;
    }
    count := 0;
    var current := start;
    while current < end
      invariant count + CandleCount(current, end) == CandleCount(start, end)
      decreases end - current
    {
      current := current + CandleMinutes;
      if InClosedWindow(current) {
        continue;
      }
      count := count + 1;
    }
  }

  /** With the start fixed, a later end never gives a smaller count. */
  lemma {:induction false} CandleCountMonotone(start: int, end1: int, end2: int)
    requires end1 <= end2
    ensures CandleCount(start, end1) <= CandleCount(start, end2)
    decreases end1 - start
  {
    if start < end1 {
      CandleCountMonotone(start + CandleMinutes, end1, end2);
    }
  }

  /**
   * Moving the end from `end1` to `end2` adds nothing when every boundary the
   * longer walk lands on past `end1` lies in a closed window.
   */
  lemma {:induction false} CandleCountClosedSpan(start: int, end1: int, end2: int)
    requires end1 <= end2
    requires forall t :: end1 < t < end2 + CandleMinutes && (t - start) % CandleMinutes == 0 ==> InClosedWindow(t)
    ensures CandleCount(start, end2) == CandleCount(start, end1)
    decreases end2 - start
  {
    if start < end2 {
      var next := start + CandleMinutes;
      if start >= end1 {
        assert InClosedWindow(next);
      }
      CandleCountClosedSpan(next, end1, end2);
    }
  }

  /** When every boundary landed on is tradable, the count is the number of steps. */
  lemma {:induction false} CandleCountAllOpen(start: int, end: int)
    requires forall t :: start < t < end + CandleMinutes && (t - start) % CandleMinutes == 0 ==> IsTradable(t)
    ensures CandleCount(start, end) == Steps(start, end)
    decreases end - start
  {
    if start < end {
      var next := start + CandleMinutes;
      assert IsTradable(next);
      forall t | next < t < end + CandleMinutes && (t - next) % CandleMinutes == 0
        ensures IsTradable(t)
      {
        assert (t - start) % CandleMinutes == 0;
      }
      CandleCountAllOpen(next, end);
      StepsAdvance(start, end);
    }
  }

  /** One step of the loop leaves one step fewer to take. */
  lemma StepsAdvance(start: int, end: int)
    requires start < end
    ensures Steps(start, end) == 1 + Steps(start + CandleMinutes, end)
  {
    var d := end - start;
    if d <= CandleMinutes {
      assert (d + CandleMinutes - 1) / CandleMinutes == 1;
    } else {
      assert (d + CandleMinutes - 1) / CandleMinutes == 1 + (d - 1) / CandleMinutes;
    }
  }

  /** A walk can be cut at any boundary it passes through. */
  lemma {:induction false} CandleCountSplit(start: int, mid: int, end: int)
    requires start <= mid <= end && (mid - start) % CandleMinutes == 0
    ensures CandleCount(start, end) == CandleCount(start, mid) + CandleCount(mid, end)
    decreases mid - start
  {
    if start < mid {
      CandleCountSplit(start + CandleMinutes, mid, end);
    }
  }

  /**
   * Ending the count anywhere inside the weekend closure (Friday 16:00 up to
   * the last boundary before Sunday 17:00) gives the same count as ending it
   * at Friday 16:00.
   */
  lemma WeekendAddsNothing(start: int, week: int, end: int)
    requires At(week, Friday, 16, 0) <= end <= At(week, Sunday, 16, 30)
    ensures CandleCount(start, end) == CandleCount(start, At(week, Friday, 16, 0))
  {
    var friday := At(week, Friday, 16, 0);
    forall t | friday < t < end + CandleMinutes
      ensures InClosedWindow(t)
    {
      WeekAndMinute(t, week, t - week * MinutesPerWeek);
      ClosedWindowIsWeekendOrMaintenance(t);
    }
    CandleCountClosedSpan(start, friday, end);
  }

  /**
   * Ending the count anywhere inside a day's maintenance hour (16:00 up to
   * 16:30, the last boundary before 17:00) gives the same count as ending it
   * at 16:00 of that day.
   */
  lemma MaintenanceAddsNothing(start: int, day: int, end: int)
    requires day * MinutesPerDay + MaintenanceStart <= end <= day * MinutesPerDay + MaintenanceEnd - CandleMinutes
    ensures CandleCount(start, end) == CandleCount(start, day * MinutesPerDay + MaintenanceStart)
  {
    var opening := day * MinutesPerDay + MaintenanceStart;
    forall t | opening < t < end + CandleMinutes
      ensures InClosedWindow(t)
    {
      DayAndTime(t, day, t - day * MinutesPerDay);
    }
    CandleCountClosedSpan(start, opening, end);
  }

  /**
   * From 14:00 to 16:00 on a weekday the loop lands on 14:30, 15:00, 15:30
   * and 16:00; the last one is in the maintenance hour, so 3 candles count.
   */
  lemma AfternoonUpToMaintenance()
    ensures CandleCount(At(0, 0, 14, 0), At(0, 0, 16, 0)) == 3
  {
    forall t | 840 < t < 960
      ensures IsTradable(t)
    {
      DayAndTime(t, 0, t);
    }
    CandleCountAllOpen(840, 930);
    CandleCountClosedSpan(930, 930, 960);
    CandleCountSplit(840, 930, 960);
  }

  /**
   * From Monday 14:00 to Tuesday 09:00 the loop lands on 14:30, 15:00 and
   * 15:30, skips 16:00 and 16:30, and counts every boundary from 17:00 to
   * 09:00: 3 + 33 = 36 candles.
   */
  lemma MondayAfternoonToTuesdayMorning()
    ensures CandleCount(At(0, 0, 14, 0), At(0, 1, 9, 0)) == 36
  {
    forall t | 840 < t < 960
      ensures IsTradable(t)
    {
      DayAndTime(t, 0, t);
    }
    CandleCountAllOpen(840, 930);
    CandleCountClosedSpan(930, 930, 990);
    forall t | 990 < t < 2010 && (t - 990) % CandleMinutes == 0
      ensures IsTradable(t)
    {
      if t < MinutesPerDay {
        DayAndTime(t, 0, t);
      } else {
        DayAndTime(t, 1, t - MinutesPerDay);
      }
    }
    CandleCountAllOpen(990, 1980);
    CandleCountSplit(840, 930, 1980);
    CandleCountSplit(930, 990, 1980);
  }

  /**
   * From Friday 15:00 to the next Monday 09:00 the loop counts Friday 15:30,
   * nothing from Friday 16:00 to Sunday 16:30, and every boundary from
   * Sunday 17:00 to Monday 09:00: 1 + 33 = 34 candles.
   */
  lemma FridayAfternoonToMondayMorning()
    ensures CandleCount(At(0, Friday, 15, 0), At(1, 0, 9, 0)) == 34
  {
    DayAndTime(6690, 4, 930);
    CandleCountAllOpen(6660, 6690);
    DayAndTime(6720, 4, 960);
    assert CandleCount(6690, 6720) == 0;
    WeekendAddsNothing(6690, 0, 9630);
    forall t | 9630 < t < 10650 && (t - 9630) % CandleMinutes == 0
      ensures IsTradable(t)
    {
      if t < MinutesPerWeek {
        DayAndTime(t, 6, t - 6 * MinutesPerDay);
      } else {
        DayAndTime(t, 7, t - MinutesPerWeek);
      }
    }
    CandleCountAllOpen(9630, 10620);
    CandleCountSplit(6660, 6690, 10620);
    CandleCountSplit(6690, 9630, 10620);
  }
}
