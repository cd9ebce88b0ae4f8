/**
 * The 09:00 decision read: where the price stands against the two ascending
 * key lines (highest wick, highest bounce) and the two descending key lines
 * (lowest rejection, lowest wick), once all four are known.
 */
module Signal {
  import opened Wrappers
  import opened Levels

  /** The five reads of the decision framework, plus the neutral default. */
  datatype Signal =
    | Neutral
    | BullishTrendDay
    | BearishBias
    | BearishTrendDay
    | AtDescendingZone
    | BetweenAscendingLines

  /** The heading the dashboard shows for a read. */
  function Heading(s: Signal): string
  {
    match s
    case Neutral => "NEUTRAL"
    case BullishTrendDay => "BULLISH — TREND DAY"
    case BearishBias => "BEARISH BIAS"
    case BearishTrendDay => "BEARISH — TREND DAY"
    case AtDescendingZone => "AT DESCENDING ZONE"
    case BetweenAscendingLines => "BETWEEN ASCENDING LINES"
  }

  /** The colour class of a read: "bull", "bear" or "neutral". */
  function ColorClass(s: Signal): (c: string)
    ensures c == "bull" <==> s == BullishTrendDay
    ensures c == "bear" <==> s == BearishBias || s == BearishTrendDay
  {
    match s
    case BullishTrendDay => "bull"
    case BearishBias => "bear"
    case BearishTrendDay => "bear"
    case _ => "neutral"
  }

  /** A level value counts as present when it exists and is not zero (truthiness of a float). */
  predicate Present(v: Option<real>)
  {
    v.Some? && v.value != 0.0
  }

  /** The larger of two values, the first one on a tie. */
  function Max(a: real, b: real): (m: real)
    ensures m >= a && m >= b && (m == a || m == b)
  {
    if b > a then b else a
  }

  /** The smaller of two values, the first one on a tie. */
  function Min(a: real, b: real): (m: real)
    ensures m <= a && m <= b && (m == a || m == b)
  {
    if b < a then b else a
  }

  /**
   * The read of `price` against the four key-line values at 09:00: neutral
   * unless all four are present; otherwise above both ascending lines is a
   * bullish trend day, at or between them is between the ascending lines,
   * and below them the descending lines decide.
   */
  function Classify(highestWick: Option<real>, highestBounce: Option<real>,
                    lowestRejection: Option<real>, lowestWick: Option<real>,
                    price: real): (s: Signal)
    ensures s == Neutral <==>
      !(Present(highestWick) && Present(highestBounce) && Present(lowestRejection) && Present(lowestWick))
    ensures s != Neutral ==>
      var upperHigh := Max(highestWick.value, highestBounce.value);
      var upperLow := Min(highestWick.value, highestBounce.value);
      var lowerHigh := Max(lowestRejection.value, lowestWick.value);
      var lowerLow := Min(lowestRejection.value, lowestWick.value);
      && (s == BullishTrendDay <==> price > highestWick.value && price > highestBounce.value)
      && (s == BetweenAscendingLines <==> upperLow <= price <= upperHigh)
      && (s == BearishBias <==> lowerHigh < price < upperLow)
      && (s == BearishTrendDay <==> price < lowerLow && price < upperLow)
      && (s == AtDescendingZone <==> lowerLow <= price <= lowerHigh && price < upperLow)
  {
    if Present(highestWick) && Present(highestBounce) && Present(lowestRejection) && Present(lowestWick) then
      var upperHigh := Max(highestWick.value, highestBounce.value);
      var upperLow := Min(highestWick.value, highestBounce.value);
      var lowerHigh := Max(lowestRejection.value, lowestWick.value);
      var lowerLow := Min(lowestRejection.value, lowestWick.value);
      if price > upperHigh then BullishTrendDay
      else if price < upperLow then
        if price > lowerHigh then BearishBias
        else if price < lowerLow then BearishTrendDay
        else AtDescendingZone
      else BetweenAscendingLines
    else
      Neutral
  }

  /**
   * The order of the reads from the lowest price to the highest: a bearish
   * trend day, the descending zone, a bearish bias, between the ascending
   * lines, a bullish trend day.
   */
  function Rank(s: Signal): int
  {
    match s
    case Neutral => 0
    case BearishTrendDay => 0
    case AtDescendingZone => 1
    case BearishBias => 2
    case BetweenAscendingLines => 3
    case BullishTrendDay => 4
  }

  /** With the four lines fixed, a higher price never gets a more bearish read. */
  lemma ClassifyMonotoneInPrice(highestWick: Option<real>, highestBounce: Option<real>,
                                lowestRejection: Option<real>, lowestWick: Option<real>,
                                price1: real, price2: real)
    requires price1 <= price2
    ensures Rank(Classify(highestWick, highestBounce, lowestRejection, lowestWick, price1))
         <= Rank(Classify(highestWick, highestBounce, lowestRejection, lowestWick, price2))
  {
  }

  /** The value at 09:00 of a key line that may be missing. */
  function ValueAt9am(level: Option<Level>): (v: Option<real>)
    ensures v.Some? <==> level.Some?
    ensures v.Some? ==> v.value == level.value.valueAt9am
  {
    match level
    case None => None
    case Some(l) => Some(l.valueAt9am)
  }

  /**
   * The read the dashboard shows for the key levels of a session; without a
   * bounce or without a rejection there is no highest bounce or lowest
   * rejection line, and the read stays neutral; a key line worth exactly 0 at
   * 09:00 counts as missing too.
   */
  function NineAmSignal(levels: NineAmLevels, price: real): (s: Signal)
    ensures levels.highestBounceAscending.None? ==> s == Neutral
    ensures levels.lowestRejectionDescending.None? ==> s == Neutral
    ensures s == Neutral <==>
      !(&& Present(ValueAt9am(levels.highestBounceAscending))
        && Present(ValueAt9am(levels.lowestRejectionDescending))
        && levels.highestWickAscending.valueAt9am != 0.0
        && levels.lowestWickDescending.valueAt9am != 0.0)
    ensures s != Neutral ==>
      && levels.highestBounceAscending.Some? && levels.lowestRejectionDescending.Some?
      && (s == BullishTrendDay <==>
            price > levels.highestWickAscending.valueAt9am
            && price > levels.highestBounceAscending.value.valueAt9am)
  {
    Classify(Some(levels.highestWickAscending.valueAt9am),
             ValueAt9am(levels.highestBounceAscending),
             ValueAt9am(levels.lowestRejectionDescending),
             Some(levels.lowestWickDescending.valueAt9am),
             price)
  }
}
