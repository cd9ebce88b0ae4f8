/**
 * The line evaluator and the line-series generator: a diagonal line drawn
 * from an anchor (price, time) moves by a fixed rate per tradable candle,
 * upwards for an "ascending" line and downwards for any other direction.
 */
module Lines {
  import opened Calendar
  import opened Candles

  /** One plotted point of a projected line. */
  datatype Point = Point(time: int, value: real)

  /**
   * The price `candles` tradable candles away from the anchor price along a
   * line: above it for "ascending", below it for any other direction.
   */
  function Shift(rate: real, anchorPrice: real, candles: nat, direction: string): real
  {
    if direction == "ascending" then anchorPrice + rate * candles as real
    else anchorPrice - rate * candles as real
  }

  /**
   * The projected value of a line at `targetTime`: the anchor price moved by
   * `rate` for each tradable candle between the anchor and the target.
   */
  function LineValue(rate: real, anchorPrice: real, anchorTime: int, targetTime: int, direction: string): (v: real)
    ensures targetTime <= anchorTime ==> v == anchorPrice
    ensures rate >= 0.0 && direction == "ascending" ==> v >= anchorPrice
    ensures rate >= 0.0 && direction != "ascending" ==> v <= anchorPrice
  {
    Shift(rate, anchorPrice, CandleCount(anchorTime, targetTime), direction)
  }

  /**
   * With a non-negative rate an ascending line never falls and any other
   * line never rises as the target time moves later.
   */
  lemma LineValueMonotone(rate: real, anchorPrice: real, anchorTime: int, t1: int, t2: int, direction: string)
    requires rate >= 0.0 && t1 <= t2
    ensures direction == "ascending" ==>
      LineValue(rate, anchorPrice, anchorTime, t1, direction) <= LineValue(rate, anchorPrice, anchorTime, t2, direction)
    ensures direction != "ascending" ==>
      LineValue(rate, anchorPrice, anchorTime, t1, direction) >= LineValue(rate, anchorPrice, anchorTime, t2, direction)
  {
    CandleCountMonotone(anchorTime, t1, t2);
    ShiftMonotone(rate, anchorPrice, CandleCount(anchorTime, t1), CandleCount(anchorTime, t2), direction);
  }

  /** More candles move a line further from its anchor price, in its own direction. */
  lemma ShiftMonotone(rate: real, anchorPrice: real, c1: nat, c2: nat, direction: string)
    requires rate >= 0.0 && c1 <= c2
    ensures direction == "ascending" ==> Shift(rate, anchorPrice, c1, direction) <= Shift(rate, anchorPrice, c2, direction)
    ensures direction != "ascending" ==> Shift(rate, anchorPrice, c1, direction) >= Shift(rate, anchorPrice, c2, direction)
  {
    assert rate * c2 as real - rate * c1 as real == rate * (c2 - c1) as real;
  }

  /** An ascending and a descending line from one anchor are mirror images about the anchor price. */
  lemma LineValueMirror(rate: real, anchorPrice: real, anchorTime: int, targetTime: int)
    ensures LineValue(rate, anchorPrice, anchorTime, targetTime, "ascending")
          + LineValue(rate, anchorPrice, anchorTime, targetTime, "descending") == 2.0 * anchorPrice
  {
  }

  /** The scenario line: 6850 at Monday 14:00, rate 0.52, read on Tuesday at 09:00. */
  lemma MondayLineAtTuesdayNine()
    ensures LineValue(0.52, 6850.0, At(0, 0, 14, 0), At(0, 1, 9, 0), "ascending") == 6868.72
    ensures LineValue(0.52, 6850.0, At(0, 0, 14, 0), At(0, 1, 9, 0), "descending") == 6831.28
  {
    MondayAfternoonToTuesdayMorning();
  }

  /**
   * The points the series loop appends while its cursor steps from `current`
   * until it reaches `end`: one per tradable boundary, valued on the line.
   */
  function SeriesFrom(rate: real, anchorPrice: real, anchorTime: int, direction: string, current: int, end: int): seq<Point>
    decreases end - current
  {
    if current >= end then []
    else
      var next := current + CandleMinutes;
      (if IsTradable(next) then [Point(next, LineValue(rate, anchorPrice, anchorTime, next, direction))] else [])
      + SeriesFrom(rate, anchorPrice, anchorTime, direction, next, end)
  }

  /** The points whose time is at or after `startTime`, in their original order. */
  function AtOrAfter(points: seq<Point>, startTime: int): (r: seq<Point>)
    ensures forall p :: p in r <==> p in points && p.time >= startTime
    ensures |r| <= |points|
  {
    if points == [] then []
    else (if points[0].time >= startTime then [points[0]] else []) + AtOrAfter(points[1..], startTime)
  }

  /** Times strictly increase along the sequence. */
  predicate StrictlyIncreasing(points: seq<Point>)
  {
    forall i, j :: 0 <= i < j < |points| ==> points[i].time < points[j].time
  }

  /** The series the dashboard plots: the anchor and the stepped points, from `startTime` on. */
  function LineSeries(rate: real, anchorPrice: real, anchorTime: int, startTime: int, endTime: int, direction: string): seq<Point>
  {
    AtOrAfter([Point(anchorTime, anchorPrice)] + SeriesFrom(rate, anchorPrice, anchorTime, direction, anchorTime, endTime), startTime)
  }

  /**
   * A point belongs to the stepped series exactly when its time is a boundary
   * the cursor lands on (a whole number of candles after `current`, reached
   * while the cursor was still before `end`), that boundary is tradable and
   * its value is the line's value there.
   */
  lemma {:induction false} SeriesFromMembership(rate: real, anchorPrice: real, anchorTime: int, direction: string, current: int, end: int, p: Point)
    ensures p in SeriesFrom(rate, anchorPrice, anchorTime, direction, current, end) <==>
      current < p.time && p.time - CandleMinutes < end && (p.time - current) % CandleMinutes == 0 &&
      IsTradable(p.time) && p.value == LineValue(rate, anchorPrice, anchorTime, p.time, direction)
    decreases end - current
  {
    if current < end {
      var next := current + CandleMinutes;
      SeriesFromMembership(rate, anchorPrice, anchorTime, direction, next, end, p);
      if current < p.time && (p.time - current) % CandleMinutes == 0 && p.time != next {
        assert next < p.time && (p.time - next) % CandleMinutes == 0;
      }
      if next < p.time && (p.time - next) % CandleMinutes == 0 {
        assert (p.time - current) % CandleMinutes == 0;
      }
    }
  }

  /** The stepped series has strictly increasing times, all after `current`. */
  lemma {:induction false} SeriesFromIncreasing(rate: real, anchorPrice: real, anchorTime: int, direction: string, current: int, end: int)
    ensures StrictlyIncreasing(SeriesFrom(rate, anchorPrice, anchorTime, direction, current, end))
    ensures forall i :: 0 <= i < |SeriesFrom(rate, anchorPrice, anchorTime, direction, current, end)| ==>
      SeriesFrom(rate, anchorPrice, anchorTime, direction, current, end)[i].time > current
    decreases end - current
  {
    if current < end {
      SeriesFromIncreasing(rate, anchorPrice, anchorTime, direction, current + CandleMinutes, end);
    }
  }

  /**
   * The k-th stepped point (counting from 1) lies exactly k tradable candles
   * after `current`; in particular the stepped series has as many points as
   * the candle count over the same span.
   */
  lemma {:induction false} SeriesFromRank(rate: real, anchorPrice: real, anchorTime: int, direction: string, current: int, end: int)
    ensures |SeriesFrom(rate, anchorPrice, anchorTime, direction, current, end)| == CandleCount(current, end)
    ensures forall k :: 0 <= k < |SeriesFrom(rate, anchorPrice, anchorTime, direction, current, end)| ==>
      CandleCount(current, SeriesFrom(rate, anchorPrice, anchorTime, direction, current, end)[k].time) == k + 1
    decreases end - current
  {
    if current < end {
      var next := current + CandleMinutes;
      var rest := SeriesFrom(rate, anchorPrice, anchorTime, direction, next, end);
      var s := SeriesFrom(rate, anchorPrice, anchorTime, direction, current, end);
      SeriesFromRank(rate, anchorPrice, anchorTime, direction, next, end);
      SeriesFromIncreasing(rate, anchorPrice, anchorTime, direction, next, end);
      forall k | 0 <= k < |s|
        ensures CandleCount(current, s[k].time) == k + 1
      {
        if IsTradable(next) {
          if k == 0 {
            assert CandleCount(next, next) == 0;
          } else {
            assert s[k] == rest[k - 1];
          }
        } else {
          assert s[k] == rest[k];
        }
      }
    }
  }

  /**
   * Along the stepped series the k-th point after the anchor (counting from
   * 1) is exactly k rates away from the anchor price: above it on an
   * ascending line, below it on any other.
   */
  lemma SeriesValuesStepByRate(rate: real, anchorPrice: real, anchorTime: int, direction: string, end: int)
    ensures forall k :: 0 <= k < |SeriesFrom(rate, anchorPrice, anchorTime, direction, anchorTime, end)| ==>
      SeriesFrom(rate, anchorPrice, anchorTime, direction, anchorTime, end)[k].value == Shift(rate, anchorPrice, k + 1, direction)
  {
    var s := SeriesFrom(rate, anchorPrice, anchorTime, direction, anchorTime, end);
    SeriesFromRank(rate, anchorPrice, anchorTime, direction, anchorTime, end);
    forall k | 0 <= k < |s|
      ensures s[k].value == Shift(rate, anchorPrice, k + 1, direction)
    {
      SeriesFromMembership(rate, anchorPrice, anchorTime, direction, anchorTime, end, s[k]);
    }
  }

  /** Filtering keeps times strictly increasing. */
  lemma {:induction false} AtOrAfterIncreasing(points: seq<Point>, startTime: int)
    requires StrictlyIncreasing(points)
    ensures StrictlyIncreasing(AtOrAfter(points, startTime))
  {
    if points != [] {
      AtOrAfterIncreasing(points[1..], startTime);
      var rest := AtOrAfter(points[1..], startTime);
      forall q | q in rest
        ensures points[0].time < q.time
      {
        var j :| 0 <= j < |points[1..]| && points[1..][j] == q;
        assert points[j + 1] == q;
      }
    }
  }

  /**
   * The shape of a plotted series: at or after the start time, strictly
   * increasing in time, the anchor present exactly when it is not cut off,
   * every other point a tradable instant valued by the line, and every
   * tradable step the loop reaches present.
   */
  lemma LineSeriesShape(rate: real, anchorPrice: real, anchorTime: int, startTime: int, endTime: int, direction: string)
    ensures var points := LineSeries(rate, anchorPrice, anchorTime, startTime, endTime, direction);
      && (forall i :: 0 <= i < |points| ==> points[i].time >= startTime)
      && StrictlyIncreasing(points)
      && (Point(anchorTime, anchorPrice) in points <==> anchorTime >= startTime)
      && (forall p :: p in points && p.time != anchorTime ==>
            anchorTime < p.time && IsTradable(p.time) && p.value == LineValue(rate, anchorPrice, anchorTime, p.time, direction))
      && (forall t ::
            (startTime <= t && anchorTime < t && t - CandleMinutes < endTime &&
             (t - anchorTime) % CandleMinutes == 0 && IsTradable(t)) ==>
            Point(t, LineValue(rate, anchorPrice, anchorTime, t, direction)) in points)
  {
    var anchor := Point(anchorTime, anchorPrice);
    var stepped := SeriesFrom(rate, anchorPrice, anchorTime, direction, anchorTime, endTime);
    var points := LineSeries(rate, anchorPrice, anchorTime, startTime, endTime, direction);
    SeriesFromIncreasing(rate, anchorPrice, anchorTime, direction, anchorTime, endTime);
    assert StrictlyIncreasing([anchor] + stepped) by {
      forall i, j | 0 <= i < j < |[anchor] + stepped|
        ensures ([anchor] + stepped)[i].time < ([anchor] + stepped)[j].time
      {
        if i > 0 {
          assert ([anchor] + stepped)[i] == stepped[i - 1];
        }
        assert ([anchor] + stepped)[j] == stepped[j - 1];
      }
    }
    AtOrAfterIncreasing([anchor] + stepped, startTime);
    forall p | p in stepped
      ensures anchorTime < p.time && IsTradable(p.time) && p.value == LineValue(rate, anchorPrice, anchorTime, p.time, direction)
    {
      SeriesFromMembership(rate, anchorPrice, anchorTime, direction, anchorTime, endTime, p);
    }
    forall t | startTime <= t && anchorTime < t && t - CandleMinutes < endTime &&
      (t - anchorTime) % CandleMinutes == 0 && IsTradable(t)
      ensures Point(t, LineValue(rate, anchorPrice, anchorTime, t, direction)) in points
    {
      SeriesFromMembership(rate, anchorPrice, anchorTime, direction, anchorTime, endTime,
        Point(t, LineValue(rate, anchorPrice, anchorTime, t, direction)));
    }
  }

  /** The series loop of the dashboard: the stepped points, then the cut at the start time. */
  method GenerateLineSeries(rate: real, anchorPrice: real, anchorTime: int, startTime: int, endTime: int, direction: string)
    returns (points: seq<Point>)
    ensures points == LineSeries(rate, anchorPrice, anchorTime, startTime, endTime, direction)
    ensures forall i :: 0 <= i < |points| ==> points[i].time >= startTime
    ensures StrictlyIncreasing(points)
    ensures Point(anchorTime, anchorPrice) in points <==> anchorTime >= startTime
    ensures forall p :: p in points && p.time != anchorTime ==>
      anchorTime < p.time && IsTradable(p.time) && p.value == LineValue(rate, anchorPrice, anchorTime, p.time, direction)
    ensures forall t ::
      (startTime <= t && anchorTime < t && t - CandleMinutes < endTime &&
       (t - anchorTime) % CandleMinutes == 0 && IsTradable(t)) ==>
      Point(t, LineValue(rate, anchorPrice, anchorTime, t, direction)) in points
  {
    var anchor := Point(anchorTime, anchorPrice);
    ghost var stepped := SeriesFrom(rate, anchorPrice, anchorTime, direction, anchorTime, endTime);
    points := [anchor];
    var current := anchorTime;
    while current < endTime
      invariant points + SeriesFrom(rate, anchorPrice, anchorTime, direction, current, endTime) == [anchor] + stepped
      decreases endTime - current
    {
      current := current + CandleMinutes;
      if InClosedWindow(current) {
        continue;
      }
      var value := LineValue(rate, anchorPrice, anchorTime, current, direction);
      points := points + [Point(current, value)];
    }
    assert points == [anchor] + stepped;
    points := AtOrAfter(points, startTime);

    LineSeriesShape(rate, anchorPrice, anchorTime, startTime, endTime, direction);
  }
}
