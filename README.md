# SPX Prophet line-projection engine, in Dafny

This project models the computational core of the SPX Prophet dashboard
(`SPXProNG.py`). The dashboard projects trend lines from price anchors (bounces,
rejections, the highest and lowest wick of a session) forward in 30-minute
candles at a fixed rate. It skips the hours in which the futures market is
closed. It then reads the four key lines at 09:00 the next day.

Beside the engine sit three small calculators: a prop-firm position sizer, a
five-factor confluence score, and the 09:00 signal read.

Time is an integer count of minutes from a Monday 00:00. The weekday is
`(t / 1440) % 7` (0 = Monday) and the time of day is `t % 1440`. Prices and the
per-candle rate are reals. The rate, a module-level setting in the dashboard,
is passed to every operation as a parameter.

Modules, one per part of the engine:

- `Calendar`: the closed windows of the market. These are all of Saturday,
  Sunday before 17:00, Friday from 16:00, and 16:00–17:00 on every day.
- `Candles`: the candle counter. `CountCandlesBetween` is the stepping loop. It
  is proved equal to `CandleCount`, a recursive definition of the same count.
- `Lines`: the value of a projected line at a target time, and the loop that
  generates a line's plotted series.
- `Levels`: projection of every anchor to 09:00 of the next day, the stable
  ranking of the ascending and descending lines, and the selection of the four
  key levels.
- `PropFirm`: position sizing against 40% of a daily loss limit.
- `Confluence`: the five-factor score and its position-size tiers.
- `Signal`: the 09:00 read of a price against the four key levels.
- `Wrappers`: `Option` and `Result`.

The model follows the code as written, including where its own comments say otherwise:

- The maintenance skip is described as applying "Mon-Thu only" (`SPXProNG.py:188`
  and `:216`), but the code applies it on every day (`:217`). The earlier Friday,
  Saturday and Sunday rules already cover 16:00–17:00 on those days, so the two
  readings agree. `Calendar.MaintenanceRuleMondayToThursdaySuffices` proves this.
- A stop distance of 0 makes `calculate_prop_firm_risk` divide by zero and raise.
  The model returns `Failure(DivisionByZero)` for it.
- The signal read tests the four level values for truthiness. A level whose
  09:00 value is exactly 0.0 therefore counts as missing, and the read stays
  neutral. `Signal.Present` models this.

## Model

| member | source | states |
|---|---|---|
| Calendar.Weekday | SPXProNG.py:201 | the weekday of a minute count lies in 0..6, Monday being 0 |
| Calendar.ClosedWindowIsWeekendOrMaintenance | SPXProNG.py:203-218 | `InClosedWindow`, the loop's skip rules taken in their order, holds for an instant exactly when the instant is skipped, and that is exactly when it lies between Friday 16:00 and Sunday 17:00 of its week, or in the 16:00–17:00 maintenance hour |
| Calendar.MaintenanceRuleMondayToThursdaySuffices | SPXProNG.py:211-218 | applying the maintenance rule on Monday to Thursday only skips the same instants as applying it every day |
| Candles.CandleCount | SPXProNG.py:192-222 | the count is 0 when the end is not after the start, and never more than the number of 30-minute steps, ⌈(end−start)/30⌉ |
| Candles.CountCandlesBetween | SPXProNG.py:178-222 | the stepping loop returns `CandleCount(start, end)`, and 0 when the end is not after the start |
| Candles.CandleCountMonotone | SPXProNG.py:198-222 | with the start fixed, the count never decreases as the end grows |
| Candles.CandleCountClosedSpan | SPXProNG.py:203-218 | extending the end across steps that all land in closed windows adds nothing to the count |
| Candles.CandleCountAllOpen | SPXProNG.py:198-220 | when every step lands on a tradable instant, the count equals the number of steps |
| Candles.CandleCountSplit | SPXProNG.py:195-222 | the count over a span is the sum of the counts over two parts split at a candle boundary |
| Candles.WeekendAddsNothing | SPXProNG.py:203-214 | moving the end anywhere from Friday 16:00 to Sunday 16:30 gives the same count as ending at Friday 16:00 |
| Candles.MaintenanceAddsNothing | SPXProNG.py:216-218 | moving the end within the maintenance hour gives the same count as ending at 16:00 |
| Candles.AfternoonUpToMaintenance | SPXProNG.py:198-220 | from 14:00 to 16:00 on a weekday the count is 3 |
| Candles.MondayAfternoonToTuesdayMorning | SPXProNG.py:198-220 | from Monday 14:00 to Tuesday 09:00 the count is 36 |
| Candles.FridayAfternoonToMondayMorning | SPXProNG.py:198-220 | from Friday 15:00 to Monday 09:00 the count is 34: the weekend adds nothing |
| Lines.LineValue | SPXProNG.py:225-237 | the value is the anchor price at or before the anchor time; with a non-negative rate an ascending line is never below its anchor and any other direction never above it |
| Lines.LineValueMonotone | SPXProNG.py:232-237 | with a non-negative rate, an ascending line never falls and a descending line never rises as the target time grows |
| Lines.LineValueMirror | SPXProNG.py:234-237 | the ascending and descending lines from one anchor lie symmetrically about the anchor price |
| Lines.MondayLineAtTuesdayNine | SPXProNG.py:225-237 | a 6850.00 anchor at Monday 14:00 at rate 0.52 projects to 6868.72 ascending and 6831.28 descending at Tuesday 09:00 |
| Lines.AtOrAfter | SPXProNG.py:278 | the filter keeps exactly the points at or after the start time |
| Lines.SeriesFromMembership | SPXProNG.py:253-275 | a point is emitted by the stepping loop exactly when it is a tradable step landing after the cursor, not past one step beyond the end, valued by the line at that time |
| Lines.SeriesFromIncreasing | SPXProNG.py:253-275 | the emitted points have strictly increasing times, all after the cursor |
| Lines.SeriesFromRank | SPXProNG.py:253-275 | the loop emits as many points as `CandleCount` counts, and the k-th point is the (k+1)-th counted candle |
| Lines.SeriesValuesStepByRate | SPXProNG.py:274-275 | the k-th emitted point lies k+1 rate steps from the anchor price |
| Lines.AtOrAfterIncreasing | SPXProNG.py:278 | filtering keeps the times strictly increasing |
| Lines.LineSeriesShape | SPXProNG.py:246-280 | a plotted series lies at or after the start time with strictly increasing times; it holds the anchor point exactly when the anchor is not cut off; every other point is a tradable instant after the anchor, valued by `LineValue`; and every tradable step the loop reaches is present |
| Lines.GenerateLineSeries | SPXProNG.py:240-280 | the points all lie at or after the start time with strictly increasing times; the anchor point is included exactly when the anchor time is at or after the start time; every other point is tradable, after the anchor and valued by `LineValue`; and every tradable step from the start time up to one step past the end time is included |
| Levels.NineAm | SPXProNG.py:294 | the decision time is 09:00 on the calendar day of the given date |
| Levels.ProjectAnchors | SPXProNG.py:297-306 | each anchor becomes one line of the given kind, in order, valued at 09:00 by `LineValue` |
| Levels.SortLevelsCorrect | SPXProNG.py:341-342 | `SortLevels`, the stable sort by 09:00 value, keeps the length, orders by 09:00 value (highest first, or lowest first), is a permutation, and keeps the original order among equal values |
| Levels.FirstOfKind | SPXProNG.py:345-352 | the search returns nothing exactly when no entry has the kind; otherwise it returns the earliest entry that has it |
| Levels.FirstOfKindIsExtreme | SPXProNG.py:345-352 | in a ranked list, the first entry of a kind ranks at or ahead of every entry of that kind |
| Levels.SideKeyLevels | SPXProNG.py:345-352 | on one side, the wick key level is always the wick's own line; the anchor key level is missing exactly when there are no anchors, and otherwise it is one of the anchors' lines with the extreme 09:00 value |
| Levels.RankSide | SPXProNG.py:296-352 | one side of the ranker returns the ranking of the anchors' lines followed by the wick's line; the wick key level is the wick's own line; the anchor key level is the first anchor line of the ranking: missing exactly when there are no anchors, and otherwise an anchor's line ranking at or ahead of all of them, the earliest ranked on a tie |
| Levels.CalculateNineAmLevels | SPXProNG.py:283-364 | ascending lines number bounces+1, ranked highest first; descending lines number rejections+1, ranked lowest first; both are stable permutations of the projected lines; the highest-wick and lowest-wick key levels are the wicks' own lines; the highest bounce (lowest rejection) is the first bounce (rejection) of its ranked list: missing exactly when there are no bounces (rejections), and otherwise a bounce (rejection) line with the maximum (minimum) 09:00 value, the earliest ranked of those on a tie, and the ranking keeps tied lines in build order |
| PropFirm.Trunc | SPXProNG.py:377 | conversion to an integer truncates toward zero |
| PropFirm.PointValue | SPXProNG.py:374 | the point value is 50 exactly for "ES" and 5 otherwise |
| PropFirm.PropFirmRisk | SPXProNG.py:371-392 | a zero stop fails; otherwise contracts are the truncated quotient of 40% of the limit by the per-contract risk, the reported risk is what they stake, the remainder is the limit less that risk, the 10-point profit is twice the 5-point profit, and there are 2 trades; for a non-negative limit and a positive stop the contracts are non-negative and the risk stays within 40% of the limit, less than one contract's risk below it |
| PropFirm.BudgetSplit | SPXProNG.py:375-378 | whole contracts of a non-negative budget fit within it, and one more contract would exceed it |
| PropFirm.ContractsMonotoneInLimit | SPXProNG.py:375-377 | a larger daily limit never gives fewer contracts |
| Confluence.MarkPoints | SPXProNG.py:406-437 | a factor line is worth 1, 0.5 or 0 points |
| Confluence.ReactionOf | SPXProNG.py:418-425 | the data reaction is aligned exactly for "aligned", absorbed exactly for "absorbed", and against for any other string |
| Confluence.SizingFor | SPXProNG.py:439-454 | the size is 100% exactly from a score of 4, 75% from 3 below 4, 50% from 2 below 3, and 0% below 2 |
| Confluence.SizingMonotone | SPXProNG.py:439-454 | a higher score never gets a smaller position |
| Confluence.ConfluenceRead | SPXProNG.py:399-462 | there are always five factor lines with the marks their factors call for; the score lies between 0 and 5; it is 5 exactly when every factor is aligned and 0 exactly when none is; the size tier is that of the score |
| Confluence.ScoreIsTally | SPXProNG.py:403-437 | the score is the tally of the factor lines shown, so a whole number of half points |
| Confluence.CalculateConfluence | SPXProNG.py:399-462 | the step-by-step scoring returns exactly the confluence read of its five factors |
| Confluence.TallyBounds | SPXProNG.py:403-437 | any list of factor lines tallies to a multiple of 0.5 between 0 and the number of lines |
| Confluence.TallyOfFive | SPXProNG.py:403-437 | five factor lines tally to the sum of their five marks |
| Confluence.AlignmentNeverShrinksPosition | SPXProNG.py:403-454 | aligning more factors never shrinks the recommended position |
| Signal.ColorClass | SPXProNG.py:1150-1170 | the read is shown as "bull" exactly for a bullish trend day and as "bear" exactly for a bearish bias or trend day |
| Signal.Max | SPXProNG.py:1145-1147 | the maximum of two values is one of them and at least both |
| Signal.Min | SPXProNG.py:1146-1148 | the minimum of two values is one of them and at most both |
| Signal.Classify | SPXProNG.py:1138-1170 | the read is neutral exactly when some level value is missing or zero; otherwise it is a bullish trend day exactly above both ascending lines, between the ascending lines exactly within them, a bearish bias exactly between the descending and the ascending lines, a bearish trend day exactly below both zones, and at the descending zone exactly within the descending lines and below the ascending ones |
| Signal.ValueAt9am | SPXProNG.py:1133-1136 | a key level's value exists exactly when the level does, and is its 09:00 value |
| Signal.NineAmSignal | SPXProNG.py:1133-1170 | the read is neutral exactly when the highest bounce or the lowest rejection line is missing or one of the four key lines is worth exactly 0 at 09:00; when it is not neutral, it is a bullish trend day exactly when the price is above both the highest-wick and the highest-bounce lines |
| Signal.ClassifyMonotoneInPrice | SPXProNG.py:1150-1170 | with the four lines fixed, a higher price never gets a more bearish read |

## Left out

- `Davids_Report.py`: a static report page over a hard-coded table, with no logic beyond display sums.
- Streamlit layout, CSS, widgets, the sidebar and the tab bodies: user-interface code. Only the 09:00 signal decision is extracted from it.
- Plotly chart construction and the session-shading constants: presentation through a foreign library.
- The session-state trade log and P&L formatting: framework state.
- The `'source'` label of each projected line: it is `strftime`/f-string formatting. A line carries its kind (`Levels.LineKind`) instead.
- The signal's detail sentences: f-string formatting of floats. The model keeps the heading (`Signal.Heading`) and the colour class.
- `datetime`/`timedelta` arithmetic and time zones: a timestamp is an integer minute count from a Monday 00:00, and no zone conversion happens in the code.
- IEEE floating-point rounding: prices, the rate and money amounts are exact reals.
- The module-level `RATE_PER_CANDLE` and its reassignment from the sidebar: the rate is a parameter of every operation.
- Confluence.CalculateConfluence: a factor line is its factor and its mark (check, bolt or cross), not a string. `Confluence.Wording` and `Confluence.Display` rebuild the displayed text from these two.
- Confluence.CalculateConfluence: the recommendation, size and colour are one size tier (`Confluence.Sizing`), not three fields. Its member functions give the three values.
- Signal.ClassifyMonotoneInPrice: a neutral read ranks with a bearish trend day. It only arises when a level is missing, and then every price reads neutral.
