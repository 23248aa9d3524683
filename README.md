# Technical-analysis engine of a crypto signal bot, in Dafny

This project models the analytics core of a trading-signal bot. Every
analyzer is a deterministic function that reads a series of OHLCV bars and
returns a label, a record or a score:

- **Candlestick classifier** (`candlestick.dfy`, module `Candlestick`). An
  ordered cascade of six shape tests on the last one to three bars. The
  first test that matches wins.
- **RSI** (`rsi.dfy`, module `Rsi`). Simple rolling means of gains and
  losses, the index `100 g / (g + l)` with its saturation and undefined
  cases, and the five-zone BUY/SELL/NEUTRAL classifier. A period of 0
  gives a rolling mean over an empty window, which is undefined, so every
  value is undefined.
- **Support and resistance** (`levels.dfy`, module `Levels`).
  - Greedy bucketing of highs and lows into an insertion-ordered price
    dictionary whose keys never move.
  - The touch-count strength, a stable sort by strength and a cut to five
    levels.
  - The two-bar breakout test. It stops at the first qualifying level and
    tries resistance before support.
- **Head and shoulders** (`head_shoulders.dfy`, module `HeadShoulders`).
  The first consecutive swing triple whose head clears both shoulders,
  with its neckline, target, completion and volume test. The bearish form
  is tried before the inverse one.
- **Chart patterns** (`chart_patterns.dfy`, module `ChartPatterns`).
  - Double top and double bottom over consecutive swing pairs.
  - Triangle, flag, pennant, wedge and rectangle, classified from
    least-squares slopes and standard deviations of the most recent bars.
  - The collector that runs all seven in a fixed order.
- **Signal generator** (`generator.dfy`, module `Signals`).
  - The weighted buy and sell scores, the volume bonus and the decision
    rule.
  - Stop-loss and take-profit placement and the strength buckets.
  - The top-level generator, which runs its own default-configured
    candlestick, level and head-and-shoulders analyzers.

Three shared modules support them:

- `bars.dfy` (`Bars`): the bar record, its column projections and window
  statistics.
- `pattern.dfy` (`Patterns`): the pattern record shared by the
  head-and-shoulders and chart-pattern detectors.
- `stats.dfy` (`Stats`): the least-squares slope in closed form and the
  population variance.

Loops that the original code runs step by step are modelled as methods:

- the bucketing loops and the level collection;
- the breakout scans;
- the swing-triple and swing-pair scans with early return;
- the pattern collector;
- the score accumulation of the generator;
- the take-profit loop.

Each method is proved equal to a specification function. The properties
of the code are lemmas about those functions. Prices are `real`: the
model uses exact rational arithmetic, not IEEE floating point, and writes
out the division-by-zero outcomes the code relies on.

Two behaviours of the code as written drive the model:

- The head-and-shoulders completion can only be 0 or 1. The value is
  1 once the last bar reaches the neckline; before that the "progress"
  value is negative and is clamped to 0.
- A buy's take-profit list takes the pattern target whatever the
  pattern's direction. It takes level targets in list (strength) order,
  not by proximity.

The model keeps both. The lemmas state them as they are.

## Model

| member | source | states |
|---|---|---|
| Bars.Highs | src/analytics/levels/support_resistance.py:32 | the high column: same length, element i is bar i's high |
| Bars.Lows | src/analytics/levels/support_resistance.py:33 | the low column: same length, element i is bar i's low |
| Bars.Closes | src/analytics/indicators/rsi.py:30 | the close column: same length, element i is bar i's close |
| Bars.Volumes | src/analytics/patterns/head_shoulders.py:203-204 | the volume column: same length, element i is bar i's volume |
| Bars.Tail | src/analytics/patterns/chart_patterns.py:161 | pandas `tail(k)`: the last k elements, or the whole series when shorter |
| Bars.TailValid | src/analytics/patterns/chart_patterns.py:321 | the most recent bars of a well-formed series are well formed |
| Bars.SeqMinIsLeast | src/analytics/patterns/chart_patterns.py:89-90 | the window minimum (the `idxmin` lookup) is an element and no element is smaller |
| Bars.SeqMaxIsGreatest | src/analytics/patterns/chart_patterns.py:134-135 | the window maximum (the `idxmax` lookup) is an element and no element is larger |
| Bars.SumNonNegative | src/analytics/patterns/head_shoulders.py:203-206 | sums of non-negative volumes are non-negative |
| Bars.WindowVolumeConfirms | src/analytics/patterns/head_shoulders.py:196-206 | the pattern-window volume test, shared with the double top and bottom (chart_patterns.py lines 375-379): the mean volume of bars lo..hi, both ends included, exceeds 0.8 times the mean volume of the whole series; its properties are in Bars.WholeWindowVolume and in the volume clauses of HeadShoulders.BearishShape, HeadShoulders.BullishShape, ChartPatterns.DoubleTopResult and ChartPatterns.DoubleBottomResult |
| Bars.WholeWindowVolume | src/analytics/patterns/head_shoulders.py:203-206 | over the whole series the window volume test holds exactly when the mean volume is positive |
| Candlestick.DetectHammer | src/analytics/candlestick/patterns.py:45-60 | a Hammer has a positive body, a lower shadow above twice the body and an upper shadow under a tenth of it |
| Candlestick.DetectEngulfing | src/analytics/candlestick/patterns.py:62-83 | an engulfing label needs two bars and a body above 1.1 times the previous one; it reads Bullish exactly when the last bar closes above its open |
| Candlestick.DetectDoji | src/analytics/candlestick/patterns.py:85-97 | a Doji has a positive range and a body under a tenth of it |
| Candlestick.DetectShootingStar | src/analytics/candlestick/patterns.py:99-114 | a Shooting Star closes below its open, with an upper shadow above twice the body and a lower shadow under a tenth of it |
| Candlestick.DetectEveningStar | src/analytics/candlestick/patterns.py:116-131 | an Evening Star has a bullish first bar, a middle body under 0.3 of the first, and a bearish third bar closing below the first bar's midpoint |
| Candlestick.DetectMorningStar | src/analytics/candlestick/patterns.py:133-148 | a Morning Star is the mirror: bearish first bar, small middle body, bullish third bar closing above the first bar's midpoint |
| Candlestick.Rank | src/analytics/candlestick/patterns.py:29-36 | every label has a position in the six-test cascade |
| Candlestick.DetectorOwnLabels | src/analytics/candlestick/patterns.py:29-36 | the test at position k only ever returns labels of position k |
| Candlestick.FirstMatch | src/analytics/candlestick/patterns.py:38-43 | the cascade from position k returns the first matching test's label, and none only when no later test matches |
| Candlestick.Analyze | src/analytics/candlestick/patterns.py:24-43 | no label below three bars, even for the one-bar shapes; otherwise the label of the first matching test in the order Hammer, Engulfing, Doji, Shooting Star, Evening Star, Morning Star, and none only when all six fail |
| Candlestick.AnalyzeReportsSomething | src/analytics/candlestick/patterns.py:38-43 | whenever some test matches on three or more bars, a label is reported, from that test or an earlier one |
| Candlestick.HammerShape | src/analytics/candlestick/patterns.py:51-58 | on a valid bar a Hammer's body is under a third of its range and its body sits in the upper half |
| Candlestick.ShootingStarShape | src/analytics/candlestick/patterns.py:105-112 | on a valid bar a Shooting Star's body is under a third of its range and sits in the lower half |
| Candlestick.HammerExcludesShootingStar | src/analytics/candlestick/patterns.py:55-58 | a bar that is a Hammer is never a Shooting Star |
| Candlestick.EngulfingContains | src/analytics/candlestick/patterns.py:76-80 | the last body strictly contains the previous one, and the two bars point in opposite directions |
| Candlestick.StarsEndPastFirstClose | src/analytics/candlestick/patterns.py:125-128 | an Evening Star ends below its first close, a Morning Star above it, and no three bars are both |
| Rsi.Gain | src/analytics/indicators/rsi.py:33 | the gain of a bar is never negative |
| Rsi.Loss | src/analytics/indicators/rsi.py:34 | the loss of a bar is never negative |
| Rsi.GainSum | src/analytics/indicators/rsi.py:33 | the windowed gain sum is never negative |
| Rsi.LossSum | src/analytics/indicators/rsi.py:34 | the windowed loss sum is never negative |
| Rsi.Index | src/analytics/indicators/rsi.py:36-37 | the index is undefined exactly when mean gain and mean loss are both zero, and otherwise lies in [0, 100] |
| Rsi.RsiAt | src/analytics/indicators/rsi.py:33-37 | a defined value lies in [0, 100] and needs a full window of `period` bars |
| Rsi.Calculate | src/analytics/indicators/rsi.py:25-39 | one value per bar; all undefined below `period + 1` bars, otherwise the windowed index at every bar |
| Rsi.GetSignal | src/analytics/indicators/rsi.py:41-84 | echoes the value; strength always in [0, 1]; an undefined value gives NEUTRAL, strength 0, zone UNKNOWN |
| Rsi.Analyze | src/analytics/indicators/rsi.py:86-99 | echoes the period; from `period + 1` bars on the reported value is exactly the last bar's index, and it lies in [0, 100]; an empty series reports no value and a short series reports nothing |
| Rsi.GainLossSplit | src/analytics/indicators/rsi.py:31-34 | gain minus loss is the close-to-close change, and at most one of them is non-zero |
| Rsi.RisingWindow | src/analytics/indicators/rsi.py:33-34 | closes that rise across a window give no loss and a positive gain |
| Rsi.FallingWindow | src/analytics/indicators/rsi.py:33-34 | closes that fall across a window give no gain and a positive loss |
| Rsi.FlatWindow | src/analytics/indicators/rsi.py:33-34 | constant closes give neither gain nor loss |
| Rsi.IndexIsClassicForm | src/analytics/indicators/rsi.py:36-37 | with a positive mean loss the index equals `100 - 100 / (1 + RS)` |
| Rsi.IndexSaturation | src/analytics/indicators/rsi.py:36-37 | zero loss with positive gain gives 100, zero gain with positive loss gives 0 |
| Rsi.RisingWindowSaturates | src/analytics/indicators/rsi.py:33-37 | a strictly rising window of closes gives RSI 100 |
| Rsi.FallingWindowSaturates | src/analytics/indicators/rsi.py:33-37 | a strictly falling window of closes gives RSI 0 |
| Rsi.FlatWindowUndefined | src/analytics/indicators/rsi.py:33-37 | constant closes up to a bar leave its RSI undefined |
| Rsi.SignalByValue | src/analytics/indicators/rsi.py:50-84 | BUY exactly below 40, SELL exactly above 60, NEUTRAL exactly on [40, 60] |
| Rsi.ZoneByValue | src/analytics/indicators/rsi.py:50-84 | the five zones by value: OVERSOLD < 30, NEAR_OVERSOLD [30, 40), NEUTRAL [40, 60], NEAR_OVERBOUGHT (60, 70], OVERBOUGHT > 70; never UNKNOWN for a value |
| Rsi.StrengthByZone | src/analytics/indicators/rsi.py:53-81 | strength saturates at 1 at or below 10 and at or above 90, lies in (0, 0.25] in the NEAR zones, is 0 when neutral, and is positive in the outer zones |
| Rsi.ShortSeriesUndefined | src/analytics/indicators/rsi.py:27-28 | below `period + 1` bars every value is undefined and the analysis is value none, NEUTRAL, UNKNOWN, strength 0 |
| Rsi.AnalyzeClassifiesLast | src/analytics/indicators/rsi.py:88-98 | on a long enough series the analysis is the classification of the last value, with the period echoed |
| Levels.FirstNear | src/analytics/levels/support_resistance.py:53-56 | the first key, in creation order, within tolerance of the price, or proof that there is none |
| Levels.KeyIndex | src/analytics/levels/support_resistance.py:57-58 | the dictionary entry whose key is exactly the price, if any |
| Levels.AppendAt | src/analytics/levels/support_resistance.py:55 | appending an index to a bucket keeps the number of buckets |
| Levels.GroupPrices | src/analytics/levels/support_resistance.py:52-58 | the nested loop places every price in turn, as the greedy bucketing specifies |
| Levels.ScanKeys | src/analytics/levels/support_resistance.py:53-56 | the inner loop with `break` finds a near key exactly when one exists, and finds the first |
| Levels.HeldAppendAt | src/analytics/levels/support_resistance.py:55 | appending index i to a bucket adds one occurrence of i and no other |
| Levels.TotalSizeAppendAt | src/analytics/levels/support_resistance.py:55 | appending to a bucket grows the total size by one |
| Levels.HeldSnoc | src/analytics/levels/support_resistance.py:58 | opening a bucket for i adds one occurrence of i and one to the total size |
| Levels.PlaceHolds | src/analytics/levels/support_resistance.py:52-58 | placing price i adds exactly one occurrence of i |
| Levels.PlaceSize | src/analytics/levels/support_resistance.py:52-58 | placing a price grows the total size by one |
| Levels.PlaceKeepsKeys | src/analytics/levels/support_resistance.py:52-58 | placing a price keeps every existing key and opens at most one bucket |
| Levels.AppendWellFormed | src/analytics/levels/support_resistance.py:54-55 | joining a bucket the price is near keeps the dictionary well formed |
| Levels.NewBucketWellFormed | src/analytics/levels/support_resistance.py:57-58 | opening a bucket for a new key keeps the dictionary well formed |
| Levels.PlaceWellFormed | src/analytics/levels/support_resistance.py:52-58 | one step of the loop keeps the dictionary well formed |
| Levels.Group | src/analytics/levels/support_resistance.py:52-58 | the price buckets of one side in creation order: a price joins the first bucket whose key is within the tolerance, otherwise it opens a bucket keyed by itself; its properties are Levels.GroupPartitions and Levels.KeysNeverChange, and Levels.GroupPrices computes it |
| Levels.GroupPrefixWellFormed | src/analytics/levels/support_resistance.py:52-58 | after any number of prices the dictionary is well formed |
| Levels.GroupPrefixHolds | src/analytics/levels/support_resistance.py:52-58 | after n prices each of the indices 0..n-1 is held exactly once and no other |
| Levels.GroupPrefixSize | src/analytics/levels/support_resistance.py:52-58 | after n prices the buckets hold n indices in total |
| Levels.GroupPartitions | src/analytics/levels/support_resistance.py:52-58 | every bar index lands in exactly one bucket, the sizes add up to the bar count, buckets are non-empty, keyed by their first bar's price, their bars are near the key, and keys are distinct |
| Levels.KeysNeverChange | src/analytics/levels/support_resistance.py:52-58 | keys are never re-centred: later dictionaries extend earlier ones with the same keys in the same order |
| Levels.CollectLevels | src/analytics/levels/support_resistance.py:60-69 | the collection loop gives one level per bucket with enough touches, in creation order |
| Levels.Candidates | src/analytics/levels/support_resistance.py:60-69 | one level per bucket with at least the minimum number of touches, in bucket order, priced at the key, with strength min(touches / 5, 1); its properties are Levels.CandidatesComplete and Levels.CandidatesAreLevels, and Levels.CollectLevels computes it |
| Levels.CandidatesComplete | src/analytics/levels/support_resistance.py:60-69 | every bucket with at least `min_touches` indices gives its level (key, min(touches / 5, 1), touches) among the candidates |
| Levels.CandidatesAreLevels | src/analytics/levels/support_resistance.py:58-69 | every collected level has at least `min_touches` touches, the strength min(touches / 5, 1) in (0, 1], and a raw series price as its price |
| Levels.InsertByStrength | src/analytics/levels/support_resistance.py:71 | insertion adds exactly one element |
| Levels.SortByStrength | src/analytics/levels/support_resistance.py:71 | the sort keeps the length |
| Levels.InsertPermutes | src/analytics/levels/support_resistance.py:71 | insertion adds the level to the multiset and nothing else |
| Levels.SortPermutes | src/analytics/levels/support_resistance.py:71 | the sort is a permutation |
| Levels.InsertKeepsOrder | src/analytics/levels/support_resistance.py:71 | insertion into a non-increasing list keeps it non-increasing |
| Levels.SortIsOrdered | src/analytics/levels/support_resistance.py:71 | the sort yields non-increasing strength |
| Levels.InsertStable | src/analytics/levels/support_resistance.py:71 | insertion puts a level ahead of every level of equal strength |
| Levels.SortIsStable | src/analytics/levels/support_resistance.py:71 | levels of equal strength keep their creation order |
| Levels.Take | src/analytics/levels/support_resistance.py:72 | the cut is a prefix of exactly min(k, length) elements |
| Levels.TakeStrongest | src/analytics/levels/support_resistance.py:71-72 | cutting a strength-ranked permutation after five keeps the five strongest: drawn from the candidates, min(5, count) of them, every one left out no stronger than any kept |
| Levels.StrongestOfAll | src/analytics/levels/support_resistance.py:72 | with at most five candidates every candidate is reported |
| Levels.TopLevels | src/analytics/levels/support_resistance.py:43-72 | the reported levels of one side: the candidates, stably sorted by falling strength, cut to five; its properties are Levels.TopLevelsProperties, and Levels.FindSideLevels computes it |
| Levels.TopLevelsProperties | src/analytics/levels/support_resistance.py:60-72 | at most five levels per side, strongest first, each a genuine level of the series; they are the five strongest candidates (all of them when there are at most five), every candidate left out being no stronger than any reported |
| Levels.FindSideLevels | src/analytics/levels/support_resistance.py:43-72 | one side's analysis as the analyzer runs it: the bucketing, collection, sort and cut, with the same guarantees, including the five-strongest selection |
| Levels.FindLevels | src/analytics/levels/support_resistance.py:27-41 | below twenty bars both lists are empty; otherwise support comes from the lows and resistance from the highs |
| Levels.FindLevelsProperties | src/analytics/levels/support_resistance.py:27-103 | both sides: at most five levels each, non-increasing strength, every support a low and every resistance a high of the series; from twenty bars on each side is the five strongest of its candidates |
| Levels.FirstCrossing | src/analytics/levels/support_resistance.py:122-132 | the first level in list order strictly between the two bounds, and only when the volume test passes |
| Levels.BreakoutOf | src/analytics/levels/support_resistance.py:105-147 | too short below two bars; otherwise the first resistance the last high crossed upward, else the first support the last low crossed downward, each only when the optional volume test passes; its properties are Levels.BreakoutCharacterised, and Levels.CheckBreakout computes it |
| Levels.CheckBreakout | src/analytics/levels/support_resistance.py:105-147 | the two loops with `break`, as the breakout specification gives |
| Levels.BreakoutCharacterised | src/analytics/levels/support_resistance.py:115-147 | with two or more bars: a resistance breakout is the first level crossed upward and needs the volume test; support is tried only when no resistance was crossed and is the first level crossed downward; no breakout exactly when the volume test fails or nothing is crossed |
| HeadShoulders.Neckline | src/analytics/patterns/head_shoulders.py:155-171 | the neckline is the midpoint of the two shoulders' own highs (bearish) or lows (inverse) |
| HeadShoulders.Completion | src/analytics/patterns/head_shoulders.py:173-194 | completion lies in [0, 1] and is 1 once the last high reaches the neckline (bearish) or the last low does (inverse) |
| HeadShoulders.FirstTriple | src/analytics/patterns/head_shoulders.py:65-76 | the first consecutive swing triple whose head clears both shoulders with symmetric shoulders, or proof that there is none |
| HeadShoulders.BearishOf | src/analytics/patterns/head_shoulders.py:50-100 | nothing below three peaks; otherwise the record of the first peak triple whose head is highest and whose shoulders are within the symmetry tolerance; its shape is HeadShoulders.BearishShape, and HeadShoulders.DetectBearish computes it |
| HeadShoulders.BullishOf | src/analytics/patterns/head_shoulders.py:102-153 | the mirror over trough triples; its shape is HeadShoulders.BullishShape, and HeadShoulders.DetectBullish computes it |
| HeadShoulders.DetectBearish | src/analytics/patterns/head_shoulders.py:50-100 | the scan over peak triples with early return, as the bearish specification gives |
| HeadShoulders.DetectBullish | src/analytics/patterns/head_shoulders.py:102-153 | the scan over trough triples with early return, as the inverse specification gives |
| HeadShoulders.DetectOf | src/analytics/patterns/head_shoulders.py:32-48 | nothing on a short series, otherwise the bearish pattern when there is one, else the inverse one; its properties are HeadShoulders.DetectedShape, HeadShoulders.BearishFirst and HeadShoulders.InverseOnlyWithoutBearish, and HeadShoulders.Detect computes it |
| HeadShoulders.Detect | src/analytics/patterns/head_shoulders.py:32-48 | nothing on a short series, else the bearish form, else the inverse one; every result has the head-and-shoulders geometry |
| HeadShoulders.BearishShape | src/analytics/patterns/head_shoulders.py:78-98 | a bearish record has its head above the neckline, its target `2 * neckline - head` below it, and completion 1 exactly when the last high reaches the neckline, else 0; its volume flag is the window volume test over the shoulders |
| HeadShoulders.BullishShape | src/analytics/patterns/head_shoulders.py:130-151 | an inverse record has its head below the neckline, its target above it, and completion 1 exactly when the last low reaches the neckline, else 0; its volume flag is the window volume test over the shoulders |
| HeadShoulders.DetectedShape | src/analytics/patterns/head_shoulders.py:32-48 | any detected pattern has that geometry |
| HeadShoulders.BearishFirst | src/analytics/patterns/head_shoulders.py:40-42 | on a long enough series any bearish triple means the bearish form is reported, taken from the first such triple |
| HeadShoulders.InverseOnlyWithoutBearish | src/analytics/patterns/head_shoulders.py:40-46 | an inverse pattern is reported only when no peak triple qualifies |
| Patterns.Clamp01 | src/analytics/patterns/head_shoulders.py:194 | `max(0, min(1, x))` lies in [0, 1], is x inside the interval and the nearer bound outside it |
| Patterns.RelativelyCloseScaled | src/analytics/patterns/head_shoulders.py:76 | for positive prices the relative-difference test equals the multiplied-out one |
| Stats.IndexSumClosed | src/analytics/patterns/chart_patterns.py:165-166 | the positions of a fitted window sum to n(n-1)/2 |
| Stats.IndexSquareSumClosed | src/analytics/patterns/chart_patterns.py:165-166 | the squared positions sum to n(n-1)(2n-1)/6 |
| Stats.SpreadPositive | src/analytics/patterns/chart_patterns.py:165-166 | the normal equations of a fit over two or more points are not singular |
| Stats.LineSum | src/analytics/patterns/chart_patterns.py:165-166 | values on a line `a + b i` sum to `n a + b sum(i)` |
| Stats.LineWeightedSum | src/analytics/patterns/chart_patterns.py:165-166 | values on a line weighted by position sum to `a sum(i) + b sum(i^2)` |
| Stats.Slope | src/analytics/patterns/chart_patterns.py:165-166 | the first coefficient of a degree-one least-squares fit against the positions 0..n-1, from the normal equations; its properties are Stats.SlopeOfLine, Stats.FittedSlopeOfLine and Stats.SlopeOfConstant |
| Stats.SlopeOfLine | src/analytics/patterns/chart_patterns.py:165-166 | the fitted slope of values lying on a line of slope b is b |
| Stats.SlopeOfSums | src/analytics/patterns/chart_patterns.py:165-166 | the slope from the normal equations recovers b from the sums of a line |
| Stats.FittedSlopeOfLine | src/analytics/patterns/chart_patterns.py:165-166 | the same, from the sums written out in terms of a and b |
| Stats.SlopeOfConstant | src/analytics/patterns/chart_patterns.py:332-333 | a constant window has slope 0 |
| Stats.SquaredDeviationNonNegative | src/analytics/patterns/chart_patterns.py:168-169 | a sum of squared deviations is never negative |
| Stats.Variance | src/analytics/patterns/chart_patterns.py:168-169 | the population variance (the square of the population standard deviation); its properties are Stats.VarianceNonNegative and Stats.VarianceOfConstant |
| Stats.VarianceNonNegative | src/analytics/patterns/chart_patterns.py:168-169 | the population variance is never negative |
| Stats.SumOfConstant | src/analytics/patterns/chart_patterns.py:168-169 | n copies of c sum to n c |
| Stats.SquaredDeviationOfConstant | src/analytics/patterns/chart_patterns.py:168-169 | a constant window has no deviation from its value |
| Stats.VarianceOfConstant | src/analytics/patterns/chart_patterns.py:168-169 | a constant window has variance 0 |
| Stats.SquaredComparison | src/analytics/patterns/chart_patterns.py:171 | comparing squares against the variance is the same as comparing the absolute slope with `c * std` |
| ChartPatterns.Completion | src/analytics/patterns/chart_patterns.py:352-373 | completion lies in [0, 1] and is 1 once the last high is at or below the neckline (resistance) or the last low at or above it (support) |
| ChartPatterns.RatioExceedsIsQuotient | src/analytics/patterns/chart_patterns.py:329 | with a non-zero denominator the multiplied-out ratio test equals the quotient test |
| ChartPatterns.FirstPair | src/analytics/patterns/chart_patterns.py:81-88 | the first consecutive swing pair within the price tolerance, or proof that there is none |
| ChartPatterns.DoubleTopAt | src/analytics/patterns/chart_patterns.py:89-108 | the double-top record for peaks a < b: the neckline is the lowest low on [a, b), the target lies as far below the neckline as the first peak lies above it, with the completion and the window volume test; its geometry is ChartPatterns.DoubleTopGeometry |
| ChartPatterns.DoubleBottomAt | src/analytics/patterns/chart_patterns.py:134-153 | the mirror for troughs a < b, the neckline being the highest high on [a, b); its geometry is ChartPatterns.DoubleBottomGeometry |
| ChartPatterns.DoubleTopOf | src/analytics/patterns/chart_patterns.py:66-109 | nothing on a short series or with fewer than two peaks; results are bearish double tops |
| ChartPatterns.DoubleBottomOf | src/analytics/patterns/chart_patterns.py:111-154 | nothing on a short series or with fewer than two troughs; results are bullish double bottoms |
| ChartPatterns.DetectDoubleTop | src/analytics/patterns/chart_patterns.py:66-109 | the scan over peak pairs with early return, as the double-top specification gives |
| ChartPatterns.DetectDoubleBottom | src/analytics/patterns/chart_patterns.py:111-154 | the scan over trough pairs with early return, as the double-bottom specification gives |
| ChartPatterns.DoubleTopGeometry | src/analytics/patterns/chart_patterns.py:89-93 | the neckline is the lowest low on [p1, p2), at most the first peak, and the target `2 * neckline - peak1` is at most the neckline |
| ChartPatterns.DoubleBottomGeometry | src/analytics/patterns/chart_patterns.py:134-138 | the neckline is the highest high on [b1, b2), at least the first trough, and the target is at least the neckline |
| ChartPatterns.DoubleTopResult | src/analytics/patterns/chart_patterns.py:78-109 | on a long enough series a double top is reported exactly when some consecutive peak pair is within the price tolerance; it is the record of the first such pair, its volume flag is that pair's window volume test, and target <= neckline <= first peak |
| ChartPatterns.DoubleBottomResult | src/analytics/patterns/chart_patterns.py:123-154 | the mirror over trough pairs, with target >= neckline >= first trough |
| ChartPatterns.VolumeTrend | src/analytics/patterns/chart_patterns.py:381-387 | false below ten bars, otherwise the mean volume of the last five bars exceeds 0.9 times the mean of the five before; its properties are ChartPatterns.VolumeTrendRule |
| ChartPatterns.VolumeBetweenIsSum | src/analytics/patterns/chart_patterns.py:384-385 | the running volume total over [lo, hi) is the sum of the volume column over that range |
| ChartPatterns.VolumeTrendRule | src/analytics/patterns/chart_patterns.py:381-387 | never below ten bars; from ten bars on it holds exactly when the total volume of the last five bars exceeds 0.9 times that of the five before |
| ChartPatterns.TriangleOf | src/analytics/patterns/chart_patterns.py:156-196 | nothing on a short series; every result is a triangle |
| ChartPatterns.TriangleClassified | src/analytics/patterns/chart_patterns.py:171-196 | symmetric/neutral exactly for falling highs and rising lows, descending/bearish exactly when both fall, ascending/bullish exactly when both rise, never when both slopes are flat; apex and width as reported; the volume flag is the volume trend of the window |
| ChartPatterns.Channel | src/analytics/patterns/chart_patterns.py:203-210 | pole and flag together take the last `2 (n / 2)` bars, which are exactly the suffix of the series of that length |
| ChartPatterns.FlagOf | src/analytics/patterns/chart_patterns.py:198-238 | nothing on a short series; every result is a flag |
| ChartPatterns.FlagClassified | src/analytics/patterns/chart_patterns.py:216-238 | bullish exactly for a non-flat rising pole with both flag slopes negative, bearish exactly for the mirror; completion 0.7 and the reported pole prices; the volume flag is the volume trend of the flag bars |
| ChartPatterns.PennantOf | src/analytics/patterns/chart_patterns.py:240-283 | nothing on a short series; every result is a pennant |
| ChartPatterns.PennantClassified | src/analytics/patterns/chart_patterns.py:258-283 | both directions need a falling high slope and a rising low slope, not both under 0.1, and a non-flat pole; the direction is the pole's sign; those conditions are also sufficient; the volume flag is the volume trend of the pennant bars |
| ChartPatterns.ConvergingIsQuotient | src/analytics/patterns/chart_patterns.py:297-300 | the multiplied-out convergence test equals the relative-gap quotient above 0.3 |
| ChartPatterns.WedgeOf | src/analytics/patterns/chart_patterns.py:285-314 | nothing on a short series; every result is a wedge |
| ChartPatterns.WedgeClassified | src/analytics/patterns/chart_patterns.py:297-314 | rising/bearish exactly for two rising converging slopes, falling/bullish exactly for two falling ones; completion 0.6 and the apex; the volume flag is the volume trend of the window |
| ChartPatterns.RectangleOf | src/analytics/patterns/chart_patterns.py:316-350 | nothing on a short series; every result is a rectangle |
| ChartPatterns.RectangleClassified | src/analytics/patterns/chart_patterns.py:325-350 | reported exactly when both ranges stay within 0.3 of the whole range and neither slope exceeds 0.2 std; neutral, half complete, spanning the highest high and lowest low; the volume flag is the volume trend of the window |
| ChartPatterns.RectangleBounds | src/analytics/patterns/chart_patterns.py:338-339 | on a valid series the support is at most the resistance and every bar of the window lies between them |
| ChartPatterns.BandBounds | src/analytics/patterns/chart_patterns.py:325-327 | the lowest low of a valid window is at most its highest high and bounds every bar |
| ChartPatterns.Detector | src/analytics/patterns/chart_patterns.py:36-62 | detector k yields only patterns of rank k and nothing on a short series |
| ChartPatterns.WindowDetector | src/analytics/patterns/chart_patterns.py:44-62 | the same for the five window detectors |
| ChartPatterns.PoleDetector | src/analytics/patterns/chart_patterns.py:48-54 | the same for flag and pennant |
| ChartPatterns.BoundaryDetector | src/analytics/patterns/chart_patterns.py:56-62 | the same for wedge and rectangle |
| ChartPatterns.DetectAllOf | src/analytics/patterns/chart_patterns.py:32-64 | what the collector returns: the reports of the seven detectors that found something, in their fixed order; its properties are ChartPatterns.DetectAllOrdered, and ChartPatterns.DetectAll computes it |
| ChartPatterns.DetectAll | src/analytics/patterns/chart_patterns.py:32-64 | the collector: at most seven results in strictly increasing detector order; each result is what its detector reports, and every detector that reports a pattern has it in the list |
| ChartPatterns.AppendDetected | src/analytics/patterns/chart_patterns.py:36-62 | one append step of the collector |
| ChartPatterns.DetectAllOrdered | src/analytics/patterns/chart_patterns.py:32-64 | at most seven results, ordered double top, double bottom, triangle, flag, pennant, wedge, rectangle, no detector twice; each result is its detector's report and every report is present; none on a short series |
| ChartPatterns.CollectContents | src/analytics/patterns/chart_patterns.py:36-62 | after the first k detectors, the list holds exactly their reports: each entry comes from one of them, and each report is present |
| ChartPatterns.CollectIsGather | src/analytics/patterns/chart_patterns.py:36-62 | the collector's list after k detectors is the present entries among the first k of the seven reports, in rank order |
| ChartPatterns.GatherSound | src/analytics/patterns/chart_patterns.py:36-62 | when each report carries its own position's kind, every gathered entry below k is the report at its kind's position |
| ChartPatterns.GatherComplete | src/analytics/patterns/chart_patterns.py:36-62 | every present report among the first k is gathered |
| ChartPatterns.ReportsRanked | src/analytics/patterns/chart_patterns.py:36-62 | detector j, in the collector's call order, reports only patterns of its own kind |
| ChartPatterns.GatherRanked | src/analytics/patterns/chart_patterns.py:36-62 | the appends keep the results ranked: at most k of them, strictly increasing in detector order |
| ChartPatterns.CollectShort | src/analytics/patterns/chart_patterns.py:68 | on a short series no detector contributes |
| ChartPatterns.AppendRanked | src/analytics/patterns/chart_patterns.py:36-62 | appending a result of higher rank keeps the order |
| Signals.Absent | src/analytics/signals/generator.py:86-89 | a keyword cannot occur in a label that lacks one of its characters where it would stand |
| Signals.Present | src/analytics/signals/generator.py:86-89 | every keyword occurs in itself |
| Signals.BuyWordsOf | src/analytics/signals/generator.py:86 | a label mentions a buy keyword exactly when it is Hammer, Bullish Engulfing or Morning Star |
| Signals.SellWordsOf | src/analytics/signals/generator.py:89 | a label mentions a sell keyword exactly when it is Shooting Star, Bearish Engulfing or Evening Star |
| Signals.CandleSideOf | src/analytics/signals/generator.py:85-91 | the three bullish labels vote buy, the three bearish labels vote sell, Doji votes for neither |
| Signals.HighestAt | src/analytics/signals/generator.py:97 | Python's `max` with a key: the first level of highest price |
| Signals.LowestAt | src/analytics/signals/generator.py:103 | Python's `min` with a key: the first level of lowest price |
| Signals.HighestBelow | src/analytics/signals/generator.py:164-165 | the first highest-priced support below the price, or none when no support is below it |
| Signals.LowestAbove | src/analytics/signals/generator.py:223-224 | the first lowest-priced resistance above the price, or none when no resistance is above it |
| Signals.SupportEvidence | src/analytics/signals/generator.py:96-100 | the highest-priced support, reported only when it lies within 2 % of the price |
| Signals.ResistanceEvidence | src/analytics/signals/generator.py:102-106 | the lowest-priced resistance, reported only when it lies within 2 % of the price |
| Signals.VolumeConfirms | src/analytics/signals/generator.py:264-272 | false below twenty bars, otherwise the last volume exceeds 1.1 times the mean volume of the last twenty bars; its properties are Signals.VolumeConfirmsRule |
| Signals.VolumeConfirmsRule | src/analytics/signals/generator.py:264-272 | never below twenty bars; from twenty bars on it holds exactly when twenty times the last volume exceeds 1.1 times the total volume of the last twenty bars |
| Signals.FinalScores | src/analytics/signals/generator.py:116-121 | the volume bonus of 0.1 goes to buy only when buy leads, to sell otherwise (ties included), and nowhere without volume confirmation |
| Signals.StrengthOf | src/analytics/signals/generator.py:187 | STRONG exactly above 0.8, MEDIUM exactly on (0.65, 0.8], WEAK exactly at or below 0.65 |
| Signals.Front | src/analytics/signals/generator.py:171 | targets come from at most the first two levels |
| Signals.StopLoss | src/analytics/signals/generator.py:160-167 | 3 % below the entry for a buy, or 0.5 % below the highest support under the entry; for a sell (lines 219-226) 3 % above, or 0.5 % above the lowest resistance over it; its properties are Signals.StopLossPlacement |
| Signals.TakeProfitOf | src/analytics/signals/generator.py:169-185 | the favourable levels among the first two of the target side at 0.7 and 0.5, then the pattern target at 0.6, or the 5 % fallback at 0.7 when that list is empty (lines 228-244 for a sell); its properties are Signals.TakeProfitShape, Signals.LevelTargetsSound and Signals.LevelTargetsComplete, and Signals.TakeProfit computes it |
| Signals.TakeProfit | src/analytics/signals/generator.py:169-185 | the take-profit loop and appends, as the take-profit specification gives |
| Signals.CreateSignal | src/analytics/signals/generator.py:146-262 | the buy and sell record builders, as the signal specification gives |
| Signals.ScoreCandle | src/analytics/signals/generator.py:85-91 | the candlestick step adds the candle's vote |
| Signals.ScoreSupport | src/analytics/signals/generator.py:96-100 | the support step adds its term to the running tally |
| Signals.ScoreResistance | src/analytics/signals/generator.py:102-106 | the resistance step adds its term to the running tally |
| Signals.ScorePattern | src/analytics/signals/generator.py:108-114 | the head-and-shoulders step adds its term to the running tally |
| Signals.DecisionOf | src/analytics/signals/generator.py:116-144 | a signal for the side whose final score is strictly higher and above 0.5, none otherwise; its properties are Signals.DecisionRule, Signals.DecisionBounded and Signals.TieGoesToSell, and Signals.Decide computes it |
| Signals.Decide | src/analytics/signals/generator.py:116-144 | the volume bonus and the decision, as the decision specification gives |
| Signals.EvaluateOf | src/analytics/signals/generator.py:70-144 | the decision on the candle, support, resistance and pattern evidence and the volume test; its properties are Signals.ConfidenceBounded, and Signals.EvaluateSignals computes it |
| Signals.EvaluateSignals | src/analytics/signals/generator.py:70-144 | the whole step-by-step scoring, as the evaluation specification gives |
| Signals.GenerateSignalOf | src/analytics/signals/generator.py:33-68 | nothing below a hundred bars or under the confidence threshold, otherwise the evaluated signal with the asset, the timeframe and the last close; its properties are Signals.GeneratedSignal and Signals.GeneratedStopSide, and Signals.GenerateSignal computes it |
| Signals.GenerateSignal | src/analytics/signals/generator.py:33-68 | the generator with default analyzers, as the generator specification gives |
| Signals.DecisionRule | src/analytics/signals/generator.py:123-144 | buy exactly when the final buy score leads and exceeds 0.5, sell exactly for the mirror; confidence is the winning score, above 0.5; equal scores give no signal |
| Signals.CandleEvidence | src/analytics/signals/generator.py:85-91 | the candle term adds 0.3 to the side the label votes for and 0.0 to the other, so one side is always 0; its factor list is that one label on the voted side and empty on the other; Doji and no label add nothing; the candle factor comes first in its side's list |
| Signals.ConfidenceBounded | src/analytics/signals/generator.py:96-144 | when level strengths are at most 1, every decided confidence lies in (0.5, 1.0] |
| Signals.DecisionBounded | src/analytics/signals/generator.py:116-144 | scores of at most 0.9 before the bonus give a decided confidence in (0.5, 1.0] |
| Signals.TieGoesToSell | src/analytics/signals/generator.py:117-121 | with tied scores and volume confirmation the bonus goes to sell, and the only possible signal is a sell |
| Signals.StopLossPlacement | src/analytics/signals/generator.py:160-167 | for a positive price a buy stop is below it and a sell stop above it (lines 219-226); each is the ±3 % fallback when no level is on the stop side, otherwise 0.5 % beyond the nearest such level |
| Signals.LevelTargetsShape | src/analytics/signals/generator.py:171-176 | level targets come only from favourable levels among the first two, at probability 0.7 - 0.2 × position; every such favourable level is present; probabilities strictly fall along the list (list order); none exactly when neither is favourable |
| Signals.LevelTargetsSound | src/analytics/signals/generator.py:171-176 | at most n level targets, each a favourable level among the first n at probability 0.7 - 0.2 × position, with probabilities strictly falling along the list |
| Signals.LevelTargetsComplete | src/analytics/signals/generator.py:171-176 | every favourable level among the first n gives its target, and there is none exactly when no such level is favourable |
| Signals.TakeProfitShape | src/analytics/signals/generator.py:169-185 | one to three targets (lines 228-244 for a sell); the ±5 % fallback at 0.7 exactly when there is nothing else; otherwise every entry before the last (all of them without a pattern target) is a level target, and the pattern target comes only last at 0.6; every favourable level among the first two is present; the level targets keep list order |
| Signals.GeneratedSignal | src/analytics/signals/generator.py:33-68 | no signal below 100 bars; a reported confidence meets the threshold and lies in (0.5, 1.0]; the report carries the asset, the timeframe and the last close as price and entry |
| Signals.DecisionStopSide | src/analytics/signals/generator.py:160-226 | for a positive price every decided signal enters at that price, with a buy stop below and a sell stop above |
| Signals.GeneratedStopSide | src/analytics/signals/generator.py:33-68 | on a series with a positive last close, a reported buy has its stop below the entry and a sell above it |

## Left out

- Swing points. `scipy.signal.find_peaks` is a library routine, so the
  peak and trough indices are inputs: any strictly increasing sequence of
  in-range indices. Its `distance` and `prominence` arguments (the latter
  computed with `np.std`) are therefore not modelled.
- `np.polyfit` and `np.std`. The slope is the closed-form least-squares
  solution and the deviation is the population variance. Comparisons
  with a fraction of the deviation are made on squares (`t² < c² var`),
  so no square root appears. numpy's numerical algorithms are not
  reproduced.
- IEEE floating point. Prices are exact reals, so rounding is not
  modelled (for example `0.7 - 0.2` is exactly 0.5, and score sums do
  not drift). The division-by-zero outcomes the code meets are written
  out:
  - the RSI saturation;
  - the chart completion with the neckline equal to the extreme;
  - the rectangle ratio over a zero range;
  - a zero key in the bucketing test;
  - a zero price in the 2 % test.

  NaN inputs are not modelled.
- pandas mechanics. Series are sequences with a 0-based index. The mix
  of positional and label lookups in the double top/bottom neckline
  (`idxmin` then `iloc`) is read as positional.
- Pandas `rolling` at bar 0. Its NaN delta becomes a zero gain and a zero
  loss through `where`, so the first full window is defined. The model
  does the same.
- Logging, the `datetime.utcnow()` timestamp of the report and the
  warning on short series. They are I/O and do not influence the result.
- Factor strings. The human-readable factor strings of the generator
  become a `Factor` datatype that keeps their content (the label or the
  level price) but not their formatting.
- `list.sort`. It is a library routine, modelled as a stable insertion
  sort; its stability and permutation are proved.
- ChartPatterns.TriangleOf: requires a minimum pattern length of at least
  4, so every fitted window has two or more points. Below that, numpy's
  fit of fewer than two points is not modelled. The same requirement
  holds for FlagOf, PennantOf, WedgeOf, RectangleOf, Detector and
  DetectAll. The default length is 20.
- HeadShoulders.Completion: requires the head to differ from the
  neckline. Every caller meets this, because the head strictly clears
  both shoulders.
- Signals.GeneratedStopSide: assumes a positive last close, as on any
  valid series. With a non-positive price the stop-side claim does not
  hold, and the code does not promise it.
- Signals.ConfidenceBounded: assumes level strengths of at most 1;
  Levels.FindLevelsProperties proves this for the levels the generator
  computes.
- Signals.GeneratedSignal: the analyzers run with their default
  configurations, as the generator constructs them.
- The candlestick analyzer's unused `patterns` attribute, the other
  modules of the repository (storage, parsers, configuration, the
  command line) and the `__init__` re-exports.
