# Grading and order-decision pipeline of a minute-bar scanner

This project models, in Dafny, the deterministic core of a minute-bar equity
scanner. For each symbol, the scanner takes a series of OHLCV bars and derives
a handful of indicators. It maps them (plus a sentiment score) to five
sub-scores in [0,1] and blends them into a weighted composite. It grades the
composite A+/A/B/C/F and, for A+ or A, sizes a position and builds a buy
bracket order (limit entry, take-profit leg, stop-loss leg).

Python floats are modelled as exact `real`s. Bars are a `seq<Bar>`. Every
dictionary key the rubric reads with `.get(key, default)` is an `Option`
field read with `GetOr(default)`.

Modules, following the source files:

- `Wrappers` (`wrappers.dfy`): `Option`.
- `Series` (`series.dfy`): `Bar`, column projections, `Sum`/`Mean` and bound lemmas over them.
- `Indicators` (`indicators.dfy`): indicators.py.
- `Rubric` (`rubric.dfy`): rubric.py.
- `Executor` (`executor.dfy`): `build_bracket_order` of executor.py.
- `Scanner` (`scanner.dfy`): the sizing function and the per-symbol decision body of the scan loop in main.py, plus one tick of the loop as a fold over the symbols.
- `WorkedExamples` (`worked_examples.dfy`): concrete end-to-end instances.

Collaborators become inputs. The bar fetch is a `FetchResult`: bars, no frame, or a raised error. The sentiment score is a `real` per symbol. The account value is the source's constant 100000.

## Model

| member | source | states |
|---|---|---|
| Indicators.PercentChange | indicators.py:4-8 | times the first open it equals (last close − first open)·100; for a positive first open it is positive exactly when the last close is above the first open |
| Indicators.AverageVolume | indicators.py:10-11 | the mean of the volume column: non-negative when every volume is, and equal to the common volume of a constant-volume series |
| Indicators.GapFillPct | indicators.py:16-20 | times the first open it equals (first open − last close)·100 |
| Indicators.GapFillIsNegatedPercentChange | indicators.py:16-20 | the gap-fill percentage is exactly the negation of the open-to-close percent change of the same series |
| Indicators.AverageVolumeBetween | indicators.py:10-11 | the average volume lies between any lower and upper bound shared by all bar volumes |
| Indicators.AverageVolumeNonNegative | indicators.py:10-11 | with non-negative volumes the average volume is non-negative |
| Indicators.AtrSimple | indicators.py:13-14 | the mean of h − l: non-negative when every bar has h ≥ l, and equal to the common range when every bar has the same range |
| Indicators.AtrBetween | indicators.py:13-14 | the simplified ATR lies between any bounds shared by all per-bar ranges h − l |
| Indicators.AtrNonNegative | indicators.py:13-14 | when every bar has h ≥ l the simplified ATR is non-negative |
| Indicators.LastAbove20MA | indicators.py:22-25 | a series shorter than 20 bars is never above its 20-bar average, whatever its contents |
| Indicators.LastAbove20MAOnNewHigh | indicators.py:26-27 | a last close strictly above the other 19 closes of the window is above the 20-bar mean |
| Indicators.LastAbove20MANeedsLowerClose | indicators.py:26-27 | being above the 20-bar mean implies some earlier close in the window is below the last close |
| Indicators.LastAbove20MAIgnoresHistory | indicators.py:26-27 | only the last 20 bars matter: prepending older bars to a series of 20 or more never changes the answer |
| Indicators.PctReclaimOfLevel | indicators.py:29-32 | times the level it equals (last close − level)·100 |
| Indicators.ReclaimOfFirstOpenIsPercentChange | indicators.py:29-32 | reclaim of the first open equals the open-to-close percent change |
| Rubric.Clamp01 | rubric.py:20-21 | the result is in [0,1], equals the input when the input is in [0,1], and is 0 below / 1 above the range |
| Rubric.Clamp01Monotone | rubric.py:20-21 | clamping preserves order |
| Rubric.BehaviorScore | rubric.py:30-32 | in [0,1]; 1 when the absolute percent change is at least 5, otherwise exactly one fifth of it; a missing percent change reads as 0 |
| Rubric.BehaviorMonotone | rubric.py:30-32 | behaviour never decreases as the absolute percent change grows |
| Rubric.StructureScore | rubric.py:35-42 | exactly 0.5·breakout + 0.25·above-20MA + 0.25·hold, so one of 0, 0.25, 0.5, 0.75, 1; at least 0.5 with a breakout and above 0.5 only with one; 1 exactly when all three flags hold, 0 exactly when none does |
| Rubric.VolumeSpikeScore | rubric.py:45-50 | in [0,1]; 0 whenever average volume ≤ 0 (default average 1, default last volume 0); for a positive average, 1 when the last volume is at least twice it, exactly v/(2·avg) when 0 ≤ v ≤ 2·avg, and 0 for negative v |
| Rubric.InstitutionalScore | rubric.py:45-53 | the volume-spike score unchanged without a dark-pool flag, and max(0, score − 0.3) with one; so in [0,1], 0 whenever average volume ≤ 0, 1 at twice a positive average with no flag, at most 0.7 with the flag |
| Rubric.InstitutionalMonotoneInVolume | rubric.py:45-50 | with the other keys fixed, institutional never decreases as last-bar volume grows |
| Rubric.SentimentScore | rubric.py:56 | in [0,1]; 0.5 when the score is missing; the score itself when it is already in [0,1]; 0 for a supplied score below 0 and 1 for one above 1 |
| Rubric.ExecutionScore | rubric.py:59-63 | 0 or 1; 0 exactly when outside allowed hours or the GEX flag is set; 1 when both keys are missing |
| Rubric.ScoreFromTech | rubric.py:23-71 | every sub-score lies in [0,1], structure is in its five-value set and execution is 0 or 1 |
| Rubric.CombineScores | rubric.py:73-79 | components are the input sub-scores; with weights given the composite is the weighted sum over those entries, an unknown key counting 0; with no weights it is 0.30·behavior + 0.25·structure + 0.20·institutional + 0.15·sentiment + 0.10·execution |
| Rubric.AccumulateComposite | rubric.py:76-78 | the loop that adds each weight entry's sub-score (0 for an unknown key) times its weight, in table order, computes exactly the weighted sum over the table |
| Rubric.DefaultComposite | rubric.py:4-10 | the weighted sum over the default weight table is the fixed 30/25/20/15/10 blend |
| Rubric.DefaultWeightsTotalOne | rubric.py:4-10 | the default weights are non-negative and sum to 1 |
| Rubric.WeightedSumBounds | rubric.py:73-79 | for unit sub-scores and non-negative weights the composite lies between 0 and the total weight, whatever the keys |
| Rubric.WeightedSumMonotone | rubric.py:73-79 | with non-negative weights, raising any sub-score never lowers the composite |
| Rubric.DefaultCompositeInUnit | rubric.py:73-79 | with default weights, unit sub-scores give a composite in [0,1] |
| Rubric.FirstTier | rubric.py:81-85 | returns the grade of the first tier whose threshold is at most the score, and F when no tier matches |
| Rubric.FirstTierMonotone | rubric.py:81-85 | in a table with descending thresholds and ranks, a higher score never gets a lower-ranked grade |
| Rubric.GradeFromScore | rubric.py:12-18 | A+ iff score ≥ 0.85; A iff 0.75 ≤ score < 0.85; B iff 0.60 ≤ score < 0.75; C iff 0.40 ≤ score < 0.60; F iff score < 0.40 (negative scores included) |
| Rubric.GradeMonotone | rubric.py:81-85 | the letter grade is monotone in the composite |
| Rubric.GradePacketForTrade | rubric.py:87-98 | echoes the symbol; components equal subscores, which are those of the metrics and lie in [0,1]; the composite is that of combining those sub-scores under the given weights; the grade is that of the composite; with default weights the composite is in [0,1] |
| Executor.BuildBracketOrder | executor.py:36-48 | the payload is a day limit order of class bracket and carries symbol, qty, side, limit price, take-profit and stop price exactly as passed |
| Executor.BuildFromArgsOf | executor.py:36-48 | every bracket-shaped payload is the one built from its own fields |
| Executor.BuildBracketOrderInjective | executor.py:44-47 | distinct arguments give distinct payloads, so no two prices are swapped or merged |
| Scanner.SizeByGrade | main.py:36-47 | each grade reads its own key (A+, A, B, and the per-trade maximum for C and F) and falls back to its own default when that key is missing: 0.05, 0.03, 0.01, 0.01 |
| Scanner.DefaultSizingMonotone | main.py:36-47 | under the default sizing a better grade never risks a smaller fraction |
| Scanner.Quantity | main.py:106 | the largest whole count whose cost at max(1, last close) fits account·pct; non-negative for non-negative account and pct |
| Scanner.QuantityPositiveIff | main.py:106-109 | the quantity is positive exactly when the budget covers one share at max(1, last close) |
| Scanner.BracketLevels | main.py:112-114 | limit is the last close; stop is one ATR below; take-profit 1.5 ATR above; with ATR ≥ 0, stop ≤ limit ≤ take-profit |
| Scanner.Breakout | main.py:73-75 | for a positive first open: a breakout exactly when the last close is above the previous close and more than 0.2% of the first open above that open |
| Scanner.BreakoutThreshold | main.py:75 | on a positive first open, the percent change exceeds 0.2 exactly when the last close is more than 0.2% of the first open above it |
| Scanner.BreakoutClosesAboveOpen | main.py:73-75 | a confirmed breakout on a positively priced series has its last close above the first open |
| Scanner.Hold2Bars | main.py:76-79 | false with fewer than 3 bars; when true both of the last two closes exceed the third-from-last close |
| Scanner.Hold2BarsIgnoresHistory | main.py:76-79 | only the last three bars matter: prepending older bars to a series of 3 or more never changes the 2-bar hold |
| Scanner.ComputeMetrics | main.py:66-97 | every metric is the matching indicator or heuristic of the series (percent change, average volume, ATR, gap fill, above-20MA, breakout, hold, last volume), allowed hours true, GEX flag false, no dark-pool flag, the given sentiment; so the execution gate passes |
| Scanner.Decide | main.py:61-121 | skipped exactly for no frame or fewer than 6 bars; failed exactly for a fetch error or a long series with a zero first open, so every other long series is graded, with the packet of its metrics; a graded outcome carries an order exactly when the grade is A+ or A and the quantity is positive |
| Scanner.DecideOrderShape | main.py:103-116 | any order built is a buy bracket for the symbol with positive floor-sized qty, limit at the last close, stop one ATR below and take-profit 1.5 ATR above |
| Scanner.DecidePricesOrdered | main.py:111-116 | for bars with h ≥ l, any order built has stop ≤ limit ≤ take-profit |
| Scanner.ShortSeriesNeverTrades | main.py:61-64 | an absent, failed or shorter-than-6 series never yields an order |
| Scanner.TickOver | main.py:59-124 | one outcome per list entry, in order, each the decision on that entry's own feed, matched by position so a repeated symbol is fetched afresh |
| Scanner.Tick | main.py:52-59 | one outcome per configured symbol (default SPY, QQQ, TSLA), labelled with that symbol, and each outcome is exactly that entry's decision at the fixed account value 100000 |
| Scanner.TickIsolatesSymbols | main.py:59-124 | an entry's outcome depends only on its own feed, so another entry's failure cannot change it |
| WorkedExamples.SizingExample | main.py:105-106 | 100000 at grade A with close 50 buys 60 shares |
| WorkedExamples.AllOnesExample | rubric.py:4-10 | all-ones sub-scores under the default weights give composite 1.0, graded A+ |
| WorkedExamples.GradeBoundaryExample | rubric.py:12-18 | 0.85 grades A+, 0.84999 grades A, −0.5 grades F |
| WorkedExamples.MetricsExample | rubric.py:87-98 | a 2% move, 2.5× volume, all structure flags and sentiment 0.8 give sub-scores (0.4, 1, 1, 0.8, 1), composite 0.79 and grade A |
| WorkedExamples.RisingBarsIndicators | indicators.py:4-27 | six rising one-point bars 100→105 have a 5% move, ATR 2, average volume 8000/6, and are too short for the 20-bar test |
| WorkedExamples.RisingBarsPacket | main.py:66-99 | with sentiment 0.8 those bars score composite 0.9075 and grade A+ |
| WorkedExamples.DecideExample | main.py:62-116 | the same bars at the default sizing buy 47 shares at 105 with stop 103 and take-profit 108 |

## Left out

- Data fetching (data_client.py): HTTP, pandas frames and the random-walk mock are replaced by the `FetchResult` input.
- Order submission (`MockExecutor`, `AlpacaExecutor.submit_bracket`): HTTP and logging; the model ends at the payload.
- The sentiment bridge (ai_bridge.py): its score is an input `real` per symbol.
- Configuration loading, provider selection, logging, the endless `while True` loop and its sleep; one tick is modelled as `Scanner.Tick`.
- Python `round(x, 2)` on the bracket prices and `str()` serialisation in the payload. Prices are exact reals before rounding.
- Floating point: IEEE rounding, infinities and NaN are not modelled.
- Scanner.Decide: a zero first open gives a `Failed` outcome. In the source, numpy division would instead give an infinite or NaN percent change and carry on.
- Scanner.SizeByGrade: drops the `account_value` argument, which the source never reads.
- `int(v_last)`: volumes are integers in both data clients, so the truncation is the identity. `Bar.v` is an `int`.
- The bar timestamp is carried in `Bar` but no operation reads it, so strictly increasing timestamps are not modelled.
