# VPA trading engine, QuantConnect drafts and option payoffs in Dafny

This project models the computational core of a Python trading repository. It covers three parts.

- **The volume price analysis (VPA) engine** (`vpa/`):
  - A candle derives its spreads, its wicks and three pattern flags: shooting star, hammer and long-legged doji.
  - A market analyzer pushes every new candle onto three bounded rolling windows. Once the longest window is full, it scores the candle.
  - Before scoring, it recomputes each window's spread and volume percentiles and gives every candle in the window its percentile bucket.
  - The score adds four sub-scores:
    - a single-candle score (direction, wide spread, high volume, pattern);
    - a trend score, from the ADX (average directional index) of the longest window;
    - a multiple-bar score, from each window's bull/bear/volume-backed flags;
    - an accumulation/distribution score.
  - Beside the engine sit the position sizer `trade_size`, the stand-alone candle history, and the pattern-and-anomaly signal scorer.
- **Two QuantConnect drafts** (`QuantConnect/SP-77.py`, `QuantConnect/SP-76.py`):
  - A candle is bucketed against class-level boundary tables and gets anomaly flags and notes.
  - A three-deque candle history, and a signal scorer.
  - SP-77 adds a strategy object with typed setters.
  - In SP-76, the history recomputes the boundary tables with numpy percentiles whenever a deque fills.
- **Options** (`options/`):
  - the per-leg payout table of an option strategy;
  - the combined payout, its maximum profit and loss, and its profitable price ranges;
  - the single-option payoff and profit-and-loss formulas of the chart script.

## How the model is built

The source's own form is followed module by module.

- **Python classes whose methods update fields become Dafny classes.** They have `modifies` frames, and their methods are proved against pure specification functions. These are:
  - `Candle` and `MarketAnalyzer` (VpaCandle, VpaRunner);
  - `CandleHistory` (VpaCandleHistory, QcSp77, QcSp76);
  - `CandleBoundaries` (QcSp76), `DefaultStrategy` (QcSp77) and `OptionStrategy` (OptionsPayoffs).
- **Loops become methods with loop invariants.** For example:
  - ADX pairing and smoothing;
  - bucket counting and the percentile update;
  - the signal loops;
  - the payout loops;
  - the profitable-range scan.
- **Pure computations become functions with lemmas.** For example: the true range, directional movement, numpy's linear percentile, the relative size, the scores, and the option payoffs.

The engine's specification is stated over bar values (`VpaCandle.Bar`). `MarketAnalyzer.ProcessData` is proved equal to `VpaProcess.ProcessFrame`: an empty data frame fails with `EmptyFrame` (the IndexError of reading its last index label), and any other frame gives `VpaProcess.Run`, a function of the windows' bars and the input rows. The properties of the engine are then lemmas about `Run`, `SignalsOf` and their parts.

Some source behaviour is modelled as written, including where it looks unintended.

- **Percentile buckets:**
  - A bucket counts the breakpoints at or above the value, not below it. So a larger value gets a smaller bucket (`VpaScoring.BucketAntitone`).
  - A negative PERCENTILE_INCREMENTS gives no levels, so every bucket is PERCENTILE_START (`VpaScoring.NoLevelsBuckets`).
- **Pattern messages of the signal scorers:**
  - `vpa/signal.py` and SP-77 concatenate the candle's time to a string, which raises TypeError unless the time is a str. Under QuantConnect the time is a datetime, so SP-77's scorer raises on every candle with a pattern (`QcSp77.CalculateSignal`).
  - SP-76 formats the time with `strftime`, which needs a datetime (`QcSp76.CalculateSignal`).
- **ADX:**
  - `calculate_adx` reports the first ADX value, not the latest.
  - A window whose true ranges or directional indicators sum to zero raises ZeroDivisionError. It is modelled as an error.
- **Accumulation/distribution score:**
  - A failed test always subtracts 2, for accumulation and for distribution alike (`VpaScoring.AccDistTestFail`).
  - The bear threshold of every window uses period one's length.
- **Notes and SP-76's doji:**
  - Both drafts record a hammer as a SHOOTING_STAR note. No HAMMER note is ever recorded (`QcRules.NotesContents`).
  - SP-76's long-legged doji test lacks a `return`. So a doji with no upper wick still passes (`QcRules.FlatTopDoji`).
- **SP-77's boundary refresh:**
  - `add_candle` calls `self.get_percentiles`, but `get_percentiles` is defined at module level.
  - So `add_candle` raises as soon as any deque is full (`QcSp77.CandleHistory.AddCandle`).
- **SP-76's boundary refresh and `getPercentiles`:**
  - A deque of maximum length 0 is "ready" when empty, and numpy then raises on the empty sample.
  - `getPercentiles(CLOSE)` raises, because the SP-76 candle has no `close` attribute.
- **chart_pl:**
  - Any position other than "short" gets the long payoff.
  - Any position other than "long" has the cost added.

## Model

| member | source | states |
|---|---|---|
| BoundedWindow.LastN | vpa/app_runner.py:23-27 | a window keeps the last n elements of what was appended, or all of them when fewer |
| BoundedWindow.Push | vpa/app_runner.py:85-87 | appending to a window with maxlen: below capacity it only grows; at capacity it drops the oldest element and keeps the length; the new element is last |
| BoundedWindow.PushLastN | vpa/app_runner.py:85-87 | one append keeps a window equal to the last maxlen elements of the extended history |
| BoundedWindow.PushAll | vpa/app_runner.py:78-87 | successive appends never exceed the maxlen |
| BoundedWindow.PushAllLastN | vpa/app_runner.py:78-87 | after any number of appends, a window holds exactly the most recent maxlen values |
| Numeric.Abs | vpa/app.py:13 | abs is non-negative and equals x or -x |
| Numeric.Max | vpa/app.py:13 | max is at least both arguments and equals one of them |
| Numeric.Min | vpa/execution.py:23 | min is at most both arguments and equals one of them |
| Numeric.SumBounds | vpa/app.py:47-49 | a sum of n values in [lo, hi] lies in [n*lo, n*hi] |
| Numeric.MeanBounds | vpa/app.py:79 | statistics.fmean of values in [lo, hi] lies in [lo, hi] |
| Numeric.SumNonNegative | vpa/app.py:47-49 | a sum of non-negative values is non-negative |
| Numeric.MeanNonNegative | vpa/app.py:79 | fmean of non-negative values is non-negative |
| NumpyPercentile.Insert | vpa/app_runner.py:127 | inserting into a sorted sample keeps it sorted and adds exactly that value |
| NumpyPercentile.Sort | vpa/app_runner.py:127 | the sample numpy interpolates over is sorted and a permutation of the input |
| NumpyPercentile.SortOfSorted | vpa/app_runner.py:127 | sorting an already sorted sample leaves it unchanged |
| NumpyPercentile.ScaledIndex | vpa/app_runner.py:127 | numpy's linear method puts level p at a position within [0, n-1] |
| NumpyPercentile.ScaledIndexMonotone | vpa/app_runner.py:127 | a higher level never gets an earlier position |
| NumpyPercentile.Percentile | vpa/app_runner.py:127 | numpy's default linear percentile p of a sample: the sorted sample read by Lerp at the virtual index (n - 1) * p / 100 |
| NumpyPercentile.Interpolate | vpa/app_runner.py:127 | the point a fraction f of the way from a to b, the linear blend numpy uses between neighbours |
| NumpyPercentile.Lerp | vpa/app_runner.py:127 | the value at virtual index g: the blend of the elements at floor(g) and floor(g) + 1 at fraction g - floor(g), or the last element when floor(g) is the last index |
| NumpyPercentile.Percentiles | vpa/app_runner.py:127 | np.percentile with a list of levels returns one value per level, each the single-level percentile |
| NumpyPercentile.InterpolationBetween | vpa/app_runner.py:127 | linear interpolation between two order statistics lies between them |
| NumpyPercentile.InterpolationMonotone | vpa/app_runner.py:127 | interpolating further between ascending values never decreases |
| NumpyPercentile.LerpWithinBounds | vpa/app_runner.py:127 | interpolating in a table of values within [lo, hi] stays within [lo, hi] |
| NumpyPercentile.SortWithinBounds | vpa/app_runner.py:127 | sorting keeps every value within the sample's bounds |
| NumpyPercentile.PercentileWithinBounds | vpa/app_runner.py:127 | any percentile lies between the smallest and largest sample bounds |
| NumpyPercentile.LerpMonotone | vpa/app_runner.py:127 | interpolation in a sorted table is monotone in the position |
| NumpyPercentile.PercentileMonotone | vpa/app_runner.py:127 | a higher percentile level never yields a smaller value |
| NumpyPercentile.PercentilesAscending | QuantConnect/SP-76.py:144 | percentiles at ascending levels are ascending, so a boundary list is ordered |
| NumpyPercentile.PercentileOfSorted | vpa/app_runner.py:127 | on a sorted sample the percentile is the interpolation at numpy's scaled index |
| NumpyPercentile.PercentileBetween | vpa/app.py:89-90 | when the scaled index is k + f, the percentile interpolates elements k and k+1 by f |
| VpaCandle.ShapeOf | vpa/app.py:151-173 | the three flags of a candle: shooting star when the upper wick exceeds twice the spread and twice the lower wick, hammer the other way round, long-legged doji when both wicks exceed twice the spread, which then clears the other two |
| VpaCandle.DojiOverride | vpa/app.py:166-173 | a long-legged doji clears the shooting-star and hammer flags, and is set exactly when both wicks exceed twice the spread |
| VpaCandle.StarAndHammerExclusive | vpa/app.py:154-164 | with a non-negative spread no bar is both a shooting star and a hammer |
| VpaCandle.PatternIffSomeRule | vpa/app.py:154-173 | some pattern flag is set exactly when one of the three wick rules holds |
| VpaCandle.BarShape | vpa/app.py:140-173 | the flags of a candle built from a bar: ShapeOf its body spread abs(close - open), upper wick high - close and lower wick close - low |
| VpaCandle.BarsOf | vpa/app.py:124-136 | the bar view of candles has one bar per candle, built from its OHLC values |
| VpaCandle.BarsOfAppend | vpa/app_runner.py:86-87 | the bar view commutes with appending a candle |
| VpaCandle.Candle.constructor | vpa/app.py:124-173 | a new candle keeps its OHLC values, derives spreads, wicks and flags per the rules, and starts with empty percentile and anomaly maps |
| VpaCandle.Candle.SetSpreadPercentiles | vpa/app.py:259-261 | the spread setter replaces the map and touches nothing else |
| VpaCandle.Candle.SetVolumePercentiles | vpa/app.py:271-276 | the volume setter replaces the map, then records volume minus spread per key in order, stopping with an error at the first key that has no spread bucket |
| VpaCandle.MapOf | vpa/app.py:271-276 | a dict built from entries has exactly the entries' keys |
| VpaCandle.MapOfHasEntry | vpa/app.py:271-276 | with distinct keys, each entry's value is what the dict holds for its key |
| VpaCandle.KeysPresentAppend | vpa/app.py:274-276 | the setter's loop gets one entry further when the next key has a spread bucket |
| VpaCandle.KeysPresentPrefix | vpa/app.py:274-276 | one key without a spread bucket makes the whole update fail |
| VpaCandle.WriteAnomaliesComplete | vpa/app.py:271-276 | when every key has a spread bucket, the anomaly of each new key is volume minus spread, and other keys keep their anomaly |
| VpaCandle.UpBarWithoutPattern | vpa/tests/test_alpha.py:98-103 | the test fixture bar is an up bar with no pattern, so it counts as an up bar |
| VpaTrend.TrueRange | vpa/app.py:8-13 | the true range is at least the high-low range and both gaps to the previous close, equals one of them, and is non-negative |
| VpaTrend.DmPlus | vpa/app.py:15-19 | DM+: the rise of the high, floored at 0, when it strictly exceeds the fall of the low, and 0 otherwise |
| VpaTrend.DmMinus | vpa/app.py:21-25 | DM-: the fall of the low, floored at 0, when it strictly exceeds the rise of the high, and 0 otherwise |
| VpaTrend.DirectionalMovement | vpa/app.py:15-25 | DM+ and DM- are non-negative, never both positive, both zero on equal moves, and DM+ is positive exactly when the up move is larger and positive |
| VpaTrend.TrueRanges | vpa/app.py:37-38 | one true range per consecutive pair of candles |
| VpaTrend.DmPluses | vpa/app.py:37-39 | one DM+ per consecutive pair |
| VpaTrend.DmMinuses | vpa/app.py:37-40 | one DM- per consecutive pair |
| VpaTrend.Smoothed | vpa/app.py:47-54 | Wilder smoothing starts with the sum of the first period values and then applies the step once per further value |
| VpaTrend.WilderStep | vpa/app.py:52-54 | one smoothing step: the previous smoothed value less its period-th part plus the new raw value |
| VpaTrend.SmoothedNonNegative | vpa/app.py:47-54 | smoothing non-negative values keeps them non-negative |
| VpaTrend.WilderStepNonNegative | vpa/app.py:52-54 | one smoothing step from non-negative values is non-negative |
| VpaTrend.Di | vpa/app.py:61-62 | a directional indicator: 100 times the smoothed movement divided by the smoothed true range |
| VpaTrend.Indicator | vpa/app.py:61-62 | one directional indicator per smoothed pair, 100 * dm / tr |
| VpaTrend.DxOf | vpa/app.py:68 | DX: 100 times the absolute difference of DI+ and DI- divided by their sum |
| VpaTrend.Dx | vpa/app.py:68 | one DX value per pair of indicators |
| VpaTrend.Adx | vpa/app.py:28-79 | calculate_adx: the ValueError for fewer than period + 1 candles; otherwise AdxOfSeries of the smoothed true range, DM+ and DM- series of consecutive candle pairs |
| VpaTrend.AdxOfSeries | vpa/app.py:61-79 | the ZeroDivisionError when a smoothed true range or a DI+ + DI- sum is 0; otherwise the four returned values: the first ADX (the sum of the first period DX values over period), then the means of the smoothed true range, DM+ and DM- |
| VpaTrend.AdxNotEnoughData | vpa/app.py:29-30 | calculate_adx raises "not enough data" exactly when fewer than period + 1 candles are given |
| VpaTrend.DxInRange | vpa/app.py:68 | DX of non-negative indicators lies in [0, 100] |
| VpaTrend.DxSeriesInRange | vpa/app.py:61-68 | every DX of the series lies in [0, 100] |
| VpaTrend.IndicatorNonNegative | vpa/app.py:61-62 | an indicator of non-negative movement over a positive range is non-negative |
| VpaTrend.SeriesNonNegative | vpa/app.py:37-54 | the smoothed TR, DM+ and DM- series are non-negative |
| VpaTrend.AdxInRange | vpa/app.py:28-79 | a computed ADX lies in [0, 100] and the three reported means are non-negative |
| VpaTrend.AdxUnfold | vpa/app.py:28-79 | with enough data the ADX is computed from the smoothed series |
| VpaTrend.AdxOfSeriesInRange | vpa/app.py:61-79 | from non-negative smoothed series, the ADX lies in [0, 100] and the means are non-negative |
| VpaTrend.SmoothedStep | vpa/app.py:51-54 | each loop turn extends the smoothed series by one Wilder step |
| VpaTrend.CalculateAdx | vpa/app.py:28-79 | the method returns exactly the specified ADX report or error for the candles' bars |
| VpaTrend.PairSeries | vpa/app.py:32-40 | the pairing loop builds the true range, DM+ and DM- series |
| VpaTrend.SmoothSeries | vpa/app.py:47-54 | the smoothing loop builds the Wilder-smoothed series |
| VpaTrend.AdxFromSmoothed | vpa/app.py:61-79 | the DI, DX and ADX steps give the specified report, failing on a zero divisor |
| VpaRegime.Volumes | vpa/app.py:85-87 | the volume list holds each candle's volume in order |
| VpaRegime.Closes | vpa/app.py:85-87 | the price list holds each candle's close in order |
| VpaRegime.CountAbove | vpa/app.py:94-99 | the high-volume count never exceeds the window length |
| VpaRegime.Heavy | vpa/app.py:89-99 | high volume: at least 3 bars of period one with a volume strictly above the 65th percentile of period three's volumes |
| VpaRegime.CountAboveAll | vpa/app.py:94-99 | when every volume exceeds the threshold, every bar is counted |
| VpaRegime.CountAboveNone | vpa/app.py:94-99 | when no volume exceeds the threshold, none is counted |
| VpaRegime.AccOrDist | vpa/app.py:82-112 | identify_acc_or_dist: accumulation on high volume with period one's last close below the 20th percentile of period three's closes, else distribution on high volume with it above the 80th, else no regime |
| VpaRegime.RegimeConditions | vpa/app.py:82-112 | accumulation iff at least 3 heavy bars and the last close is under the 20th percentile; distribution iff heavy and over the 80th; otherwise neither |
| VpaRegime.FixtureVolumePercentile | vpa/tests/test_alpha.py:140-146 | the fixture's 65th volume percentile is 230 |
| VpaRegime.FixtureLowClosePercentile | vpa/tests/test_alpha.py:140-146 | the fixture's 20th close percentile is 14 |
| VpaRegime.FixtureHighClosePercentile | vpa/tests/test_alpha.py:140-146 | the fixture's 80th close percentile is 26 |
| VpaRegime.FixtureHeavy | vpa/tests/test_alpha.py:149-155 | five volumes above 230 make period one heavy |
| VpaRegime.FixtureAccumulation | vpa/tests/test_alpha.py:173-174 | the accumulation fixture is classified as accumulation |
| VpaRegime.FixtureDistribution | vpa/tests/test_alpha.py:176-177 | the distribution fixture is classified as distribution |
| VpaRegime.FixtureNeutral | vpa/tests/test_alpha.py:179-180 | the neutral fixture is classified as neither |
| VpaRegime.IdentifyAccOrDist | vpa/app.py:82-112 | the method's loops return exactly the specified regime of windows three and one |
| VpaScoring.LevelsDefined | vpa/app_runner.py:127 | the PERCENTILE_START and PERCENTILE_INCREMENTS for which range() and np.percentile do not raise: a positive step from a start of at least 0, or a negative step from a start of at most 100 |
| VpaScoring.ValidConfig | vpa/app_runner.py:23-27 | the configuration the engine runs under: every window keeps at least one bar, and the percentile settings satisfy LevelsDefined |
| VpaScoring.Levels | vpa/app_runner.py:127 | range(start, 100, inc) yields levels in [0, 100) from start in steps of inc; it is empty exactly when start is at least 100 or the step is negative |
| VpaScoring.PyRange | vpa/app_runner.py:127 | Python's range(start, stop, step) for a non-zero step: empty exactly when the step points away from stop, otherwise starting at start, with every element on start's side of stop |
| VpaScoring.PercentileLevels | vpa/app_runner.py:127 | the levels update_percentiles passes to np.percentile, or the error raised: ZeroStep exactly for a step of 0; any levels returned lie in [0, 100] |
| VpaScoring.PercentileLevelsRaise | vpa/app_runner.py:127 | update_percentiles raises exactly for the settings LevelsDefined excludes |
| VpaScoring.LevelsAreRange | vpa/app_runner.py:127 | Levels is range(start, 100, inc) read as floats |
| VpaScoring.PercentileLevelsAgree | vpa/app_runner.py:127 | wherever update_percentiles does not raise, the levels it uses are Levels |
| VpaScoring.CountAtLeast | vpa/app_runner.py:133-136 | the number of breakpoints at or above the value is at most their number |
| VpaScoring.Bucket | vpa/app_runner.py:133-136 | the bucket written for a value: PERCENTILE_START plus one PERCENTILE_INCREMENTS per breakpoint the value is at most |
| VpaScoring.BucketRange | vpa/app_runner.py:133-136 | a bucket lies between the start and start plus one increment per breakpoint |
| VpaScoring.CountAtLeastAntitone | vpa/app_runner.py:133-136 | a larger value has no more breakpoints at or above it |
| VpaScoring.BucketAntitone | vpa/app_runner.py:133-136 | a larger value never gets a larger bucket |
| VpaScoring.CountAtLeastAll | vpa/app_runner.py:133-136 | every breakpoint is counted exactly when the value is at most all of them |
| VpaScoring.Spreads | vpa/app_runner.py:126 | the spread list holds each bar's spread |
| VpaScoring.SpreadBreakpoints | vpa/app_runner.py:124-127 | a window's spread breakpoints have one value per level |
| VpaScoring.VolumeBreakpoints | vpa/app_runner.py:124-127 | a window's volume breakpoints have one value per level |
| VpaScoring.SpreadBucket | vpa/app_runner.py:130-140 | a bar's spread bucket within a window: Bucket against the window's spread breakpoints |
| VpaScoring.VolumeBucket | vpa/app_runner.py:130-140 | a bar's volume bucket within a window: Bucket against the window's volume breakpoints |
| VpaScoring.NoLevelsBuckets | vpa/app_runner.py:127-136 | with a negative PERCENTILE_INCREMENTS there are no levels, so every spread and volume bucket is PERCENTILE_START |
| VpaScoring.SpreadBuckets | vpa/app_runner.py:130-140 | a candle gets one spread bucket per window, against that window's breakpoints |
| VpaScoring.VolumeBuckets | vpa/app_runner.py:130-140 | a candle gets one volume bucket per window, against that window's breakpoints |
| VpaScoring.Direction | vpa/app_runner.py:151-152 | +1 for an up bar, -1 otherwise |
| VpaScoring.WideSpreadScore | vpa/app_runner.py:156-164 | one period's wide-spread part: 2.5 in the bar's direction when its spread bucket is above 70, and 2.5 more when its volume bucket is above 70 too |
| VpaScoring.WideSpreadOver | vpa/app_runner.py:155-164 | the wide-spread parts of the periods in order, summed |
| VpaScoring.PatternScore | vpa/app_runner.py:166-171 | -3 for a shooting star, else +3 for a hammer, else 0 |
| VpaScoring.SingleCandleScore | vpa/app_runner.py:150-171 | single_candle_signal_score: the direction, plus the wide-spread parts of the three periods, plus the pattern score |
| VpaScoring.WideSpreadScoreValues | vpa/app_runner.py:155-164 | one window adds 0, 2.5 or 5 for an up bar and 0, -2.5 or -5 for a down bar |
| VpaScoring.WideSpreadOverBounds | vpa/app_runner.py:155-164 | the wide-spread part has the bar's sign and at most 5 per window |
| VpaScoring.SingleCandleScoreBounds | vpa/app_runner.py:150-171 | the single-candle score lies in [-19, 19], is at least 1 for an up bar that is not a shooting star, and at most -1 for a down bar that is not a hammer |
| VpaScoring.TrendScore | vpa/app_runner.py:187-200 | trend_signal_score: +5 when the first ADX value is above 25 and mean DM+ exceeds mean DM-, -5 when it is above 25 and mean DM- exceeds mean DM+ |
| VpaScoring.TrendScoreValues | vpa/app_runner.py:184-200 | +5 iff ADX over 25 and DM+ mean above DM-; -5 iff ADX over 25 and DM- above DM+; 0 otherwise |
| VpaScoring.UpFlags | vpa/app_runner.py:223 | one up-bar flag per bar of the window |
| VpaScoring.HighSpreadFlags | vpa/app_runner.py:224 | a bar counts as high spread iff its spread bucket exceeds the window's threshold |
| VpaScoring.HighVolumeFlags | vpa/app_runner.py:225 | a bar counts as high volume iff its volume bucket exceeds the window's threshold |
| VpaScoring.AnomalyFlags | vpa/app_runner.py:226 | a bar counts as an anomaly iff the buckets differ by more than the threshold |
| VpaScoring.WindowCounts | vpa/app_runner.py:222-233 | each of the four counts is at most the window length |
| VpaScoring.PeriodSignalOf | vpa/app_runner.py:235-243 | bull when the up bars reach Signal_Bar_Count; otherwise bear when they are at most PERIOD_ONE_LENGTH less Signal_Bar_Count; volume-backed when either fired and the high-spread, high-volume and anomaly counts meet their thresholds |
| VpaScoring.PeriodSignalExclusive | vpa/app_runner.py:235-243 | a window is never both bull and bear; volume backing needs one of them; bull iff enough up bars; bear iff not bull and few enough up bars by period one's length |
| VpaScoring.Adjustment | vpa/app_runner.py:255-260 | a score adjustment, doubled when the period is volume-backed |
| VpaScoring.PeriodScore | vpa/app_runner.py:252-260 | one period's part of the multiple-bar score: +2.5 for bull and -2.5 for bear, each doubled when volume-backed |
| VpaScoring.PeriodScoreValues | vpa/app_runner.py:251-260 | a window scores one of -5, -2.5, 0, 2.5, 5: positive iff bull, negative iff bear, magnitude 5 iff volume backed |
| VpaScoring.PeriodSignals | vpa/app_runner.py:211-243 | the signals dictionary holds every window's flags |
| VpaScoring.ScoreOver | vpa/app_runner.py:251-260 | the period scores of the given periods in order, summed |
| VpaScoring.MultiBarScore | vpa/app_runner.py:246-260 | multiple_bar_signal_score: ScoreOver the three periods' signals |
| VpaScoring.ScoreOverBounds | vpa/app_runner.py:251-260 | the multi-bar score is at most 5 in magnitude per window |
| VpaScoring.MultiBarScoreBounds | vpa/app_runner.py:251-260 | the multiple-bar score lies in [-15, 15] |
| VpaScoring.AccDistScore | vpa/app_runner.py:270-293 | acc_dist_signal_score: 0 without a regime; otherwise 10 in the regime's direction, then on a test (period-one spread bucket above 65 or a pattern) 5 in that direction on a pass (volume bucket below 50) or -2 on a fail, then 10 in that direction on a climax |
| VpaScoring.AccDistScoreRange | vpa/app_runner.py:275-293 | no regime scores 0; accumulation scores in [8, 25]; distribution in [-25, -10] |
| VpaScoring.AccDistTestFail | vpa/app_runner.py:280-290 | a failed test without climax gives 10 - 2 = 8 for accumulation and -10 - 2 = -12 for distribution |
| VpaScoring.SignalsOf | vpa/app_runner.py:143-302 | detect_signals for a bar: the ADX error of window three when calculate_adx raises, otherwise Scores with its report |
| VpaScoring.Scores | vpa/app_runner.py:143-302 | the four sub-scores of a bar, from its buckets in each window, the ADX report and the regime of windows three and one |
| VpaScoring.SignalsOfError | vpa/app_runner.py:184 | an ADX error of window three is the error of detect_signals |
| VpaScoring.SignalsOfParts | vpa/app_runner.py:143-302 | with an ADX report, detect_signals yields the four sub-scores |
| VpaScoring.SignalsBounds | vpa/app_runner.py:114 | detect_signals fails iff the ADX fails, and the trade signal lies in [-64, 64], the sum of the four parts' bounds (19 + 5 + 15 + 25) |
| VpaRunner.BarsOfPush | vpa/app_runner.py:86-87 | appending a candle to a window appends its bar to the window's bars |
| VpaRunner.BucketOf | vpa/app_runner.py:133-136 | the bucket loop returns the specified bucket |
| VpaRunner.SingleCandleSignal | vpa/app_runner.py:150-171 | the loop computes the specified single-candle score from the candle's stored buckets |
| VpaRunner.TrendSignal | vpa/app_runner.py:187-200 | the branches compute the specified trend score |
| VpaRunner.AccDistSignal | vpa/app_runner.py:276-293 | the branches compute the specified accumulation/distribution score |
| VpaRunner.WindowBreakpoints | vpa/app_runner.py:124-128 | the percentile store holds every window's spread and volume breakpoints |
| VpaRunner.FlagWindows | vpa/app_runner.py:234-243 | every window's bull, bear and volume-backed flags follow from its counts |
| VpaRunner.CountsGiveSignals | vpa/app_runner.py:222-243 | flags computed from each window's counts form the specified signals dictionary |
| VpaRunner.ScoreSignals | vpa/app_runner.py:251-260 | the loop sums the specified per-window scores |
| VpaRunner.MarketAnalyzer.BarsAt | vpa/app_runner.py:23-27 | the bars of window p are the bars of the candles in that deque |
| VpaRunner.MarketAnalyzer.constructor | vpa/app_runner.py:23-29 | three empty windows and an empty percentile store |
| VpaRunner.MarketAnalyzer.AppendCandle | vpa/app_runner.py:85-87 | the candle is pushed onto every window with its maxlen, the windows' bars take one Step, and the store is untouched |
| VpaRunner.MarketAnalyzer.AnnotateWindow | vpa/app_runner.py:130-140 | every candle of window p gets its buckets under key p; every candle's entries under other keys, and under key p when window p does not hold it, are kept, its anomaly map is untouched, and windows already annotated stay annotated |
| VpaRunner.MarketAnalyzer.AnnotateWindows | vpa/app_runner.py:130-140 | the three windows in key order: each candle gets its buckets under the key of every window that holds it; its entries under the keys of windows that do not hold it, and its anomaly map, are as before |
| VpaRunner.MarketAnalyzer.StoreBreakpoints | vpa/app_runner.py:121-128 | the store holds each window's current breakpoints and the windows are unchanged |
| VpaRunner.MarketAnalyzer.UpdatePercentiles | vpa/app_runner.py:121-141 | afterwards every window is annotated with current breakpoints and the windows are unchanged; each candle's entries under the keys of windows that no longer hold it, and its anomaly map, are as before |
| VpaRunner.MarketAnalyzer.StoredSpreadFlags | vpa/app_runner.py:224 | the high-spread test reads each candle's stored bucket for this window |
| VpaRunner.MarketAnalyzer.StoredVolumeFlags | vpa/app_runner.py:225 | the high-volume test reads each candle's stored bucket for this window |
| VpaRunner.MarketAnalyzer.StoredAnomalyFlags | vpa/app_runner.py:226 | the anomaly test reads the stored buckets' difference |
| VpaRunner.MarketAnalyzer.AnnotatedBucketed | vpa/app_runner.py:130-140 | an annotated window's candles hold the buckets of their bars |
| VpaRunner.MarketAnalyzer.StoredCountsAgree | vpa/app_runner.py:222-233 | counts read off the stored buckets equal the counts specified over the window's bars |
| VpaRunner.MarketAnalyzer.SpreadFlagsAgree | vpa/app_runner.py:224 | the stored high-spread flags equal the specified ones |
| VpaRunner.MarketAnalyzer.VolumeFlagsAgree | vpa/app_runner.py:225 | the stored high-volume flags equal the specified ones |
| VpaRunner.MarketAnalyzer.AnomalyFlagsAgree | vpa/app_runner.py:226 | the stored anomaly flags equal the specified ones |
| VpaRunner.MarketAnalyzer.AllStoredCounts | vpa/app_runner.py:210-233 | the bar_counts dictionary holds every window's counts |
| VpaRunner.MarketAnalyzer.AnnotatedReady | vpa/app_runner.py:96-112 | after the update, the counts are ready and the candle in all windows can be scored |
| VpaRunner.MarketAnalyzer.MultiBarSignal | vpa/app_runner.py:209-260 | steps 7 and 8 and the score loop give the specified multiple-bar score |
| VpaRunner.MarketAnalyzer.CandleBucketAt | vpa/app_runner.py:130-140 | a candle of an annotated window holds under p the buckets of its bar in that window |
| VpaRunner.MarketAnalyzer.CandleBuckets | vpa/app_runner.py:130-140 | a candle held by every window has exactly its specified bucket maps |
| VpaRunner.MarketAnalyzer.DetectSignals | vpa/app_runner.py:143-302 | detect_signals returns the specified four sub-scores of the candle, or the ADX error |
| VpaRunner.MarketAnalyzer.AnnotateAndDetect | vpa/app_runner.py:96-112 | updating percentiles and then detecting gives the specified signals of the new candle, without changing the windows |
| VpaRunner.MarketAnalyzer.ProcessRow | vpa/app_runner.py:78-115 | one loop turn either ends the run as specified, or continues it from the new windows with the new trade signal |
| VpaRunner.MarketAnalyzer.ProcessData | vpa/app_runner.py:70-118 | the returned signal or error and the final windows are exactly ProcessFrame of the old windows over the rows: an empty frame fails with EmptyFrame, otherwise the result is that of Run from 0 |
| VpaProcess.Stops | vpa/app_runner.py:79-80 | the MAX_ROWS cut-off: with test data and a positive MAX_ROWS, the loop stops at the first row whose index reaches it |
| VpaProcess.Fits | vpa/app_runner.py:23-27 | every window holds at most its maxlen bars |
| VpaProcess.Step | vpa/app_runner.py:85-87 | appending a bar keeps every window within its maxlen, and none is empty afterwards |
| VpaProcess.StepAll | vpa/app_runner.py:78-87 | appending several bars keeps every window within its maxlen |
| VpaProcess.Processed | vpa/app_runner.py:78-80 | the processed rows are the longest prefix before the first row at or past MAX_ROWS on test data |
| VpaProcess.RowBars | vpa/app_runner.py:83 | one bar per processed row |
| VpaProcess.ProcessFrame | vpa/app_runner.py:70-78 | reading the last index label of an empty frame fails (EmptyFrame) with the windows unchanged, and only then; a non-empty frame gives the loop's signal from 0 and its windows, a scoring error passed on as Scoring |
| VpaProcess.Run | vpa/app_runner.py:70-118 | the run keeps the windows within their maxlen, and non-empty once a row was processed |
| VpaProcess.RunIgnoresRest | vpa/app_runner.py:79-80 | rows after the MAX_ROWS cut-off never affect the result |
| VpaProcess.RunQuiet | vpa/app_runner.py:89-90 | while window three is not full, nothing is scored: the signal is unchanged and the bars are only appended |
| VpaProcess.RunWindows | vpa/app_runner.py:85-87 | a successful run has pushed every processed bar onto the windows |
| VpaProcess.FreshRunWindows | vpa/app_runner.py:23-27 | from empty windows, each ends up holding the last maxlen processed bars |
| VpaProcess.RunReturnsLastTotal | vpa/app_runner.py:112-118 | when window three is full at the end, the returned value is the total signal of the last processed bar |
| VpaExecution.TradeSize | vpa/execution.py:1-27 | the size fails (ZeroDivisionError) exactly when the stop distance or the share price is zero |
| VpaExecution.TradeSizeIsMin | vpa/execution.py:13-23 | the size is at most the risk-based and the exposure-based share counts, and equals one of them |
| VpaExecution.TradeSizeIgnoresDebug | alpha/tests/test_execution.py:16-18 | the debug flag does not change the size |
| VpaExecution.TradeSizeExample | alpha/tests/test_execution.py:8-14 | 30000 cash, 1% risk, 10% exposure, price 50, stop 2 give 60 shares |
| VpaExecution.TradeSizeSecondExample | alpha/tests/test_execution.py:20-27 | 50000 cash, 2% risk, 5% exposure, price 100, stop 5 give 25 shares |
| VpaCandleHistory.Append | vpa/candle_history.py:13-16 | deque.append with maxlen: a maxlen-0 deque stays empty; otherwise it pushes, within the maxlen |
| VpaCandleHistory.AppendLastN | vpa/candle_history.py:13-16 | appending to the latest candles gives the latest candles of the longer history |
| VpaCandleHistory.AppendKeepsLatest | vpa/candle_history.py:13-16 | a deque holding the latest candles still does after the next append |
| VpaCandleHistory.Latest3Append | vpa/candle_history.py:13-16 | appending to all three deques keeps each the latest candles of the history |
| VpaCandleHistory.CandleHistory.constructor | vpa/candle_history.py:4-11 | three empty deques with the given periods |
| VpaCandleHistory.CandleHistory.AddCandle | vpa/candle_history.py:13-16 | the candle is appended to all three deques, which stay the latest candles of everything added |
| VpaCandleHistory.CandleHistory.GetPercentiles | vpa/candle_history.py:18-20 | the stub returns an empty list |
| VpaCandleHistory.AppendToFull | vpa/candle_history.py:13-16 | on a full deque, an append drops exactly the oldest candle and keeps the length |
| VpaCandleHistory.AppendToShort | vpa/candle_history.py:13-16 | below the maxlen, an append only adds at the back |
| VpaCandleHistory.AddAllKeepsLatest | vpa/candle_history.py:13-16 | after any candles, each deque holds the latest of them: first in, first out |
| VpaCandleHistory.AppendAll | vpa/candle_history.py:13-16 | successive appends stay within the maxlen |
| VpaCandleHistory.FullAfter | vpa/candle_history.py:9-16 | from empty, a deque is full exactly once at least maxlen candles were appended |
| Numeric.CountTrue | vpa/signal.py:26-32 | the number of true flags is at most the number of flags |
| VpaSignal.SignalOf | vpa/signal.py:8-32 | the signal of a candle: strength 5 per pattern flag and per true anomaly flag; direction LONG for a hammer, else SHORT for a shooting star, else "None" |
| VpaSignal.CalculateSignal | vpa/signal.py:6-34 | raises (TimeNotFormattable) exactly when some pattern fires and the candle's time is not a str, since each pattern message is "…: " + time (lines 13, 18, 22); otherwise the pattern tests and the two anomaly loops return SignalOf the flags |
| VpaSignal.StrengthBounds | vpa/signal.py:6-34 | the strength is a non-negative multiple of 5, at most 5 per pattern and per anomaly flag |
| VpaSignal.StrengthZero | vpa/signal.py:6-34 | the strength is 0 exactly when no pattern and no anomaly fired |
| VpaSignal.CountTrueZero | vpa/signal.py:26-32 | no true flag iff a count of zero |
| VpaSignal.DirectionRule | vpa/signal.py:10-18 | LONG iff hammer; SHORT iff shooting star without hammer; "None" otherwise; doji and anomalies never change it |
| QcRules.With | QuantConnect/SP-76.py:67-83 | overwriting one period's boundary entry changes that entry only |
| QcRules.InitialTablesAscending | QuantConnect/SP-76.py:161-170 | the class-level boundary tables are ascending and long enough to read |
| QcRules.AscendingReadable | QuantConnect/SP-76.py:281-297 | ascending boundary tables can be bucketed against |
| QcRules.RelativeSize | QuantConnect/SP-77.py:136-145 | a value's size against one period's boundaries: VERY_SMALL below the first, SMALL below the second, MEDIUM below the third, LARGE below the fourth, else VERY_LARGE |
| QcRules.RelativeSizes | QuantConnect/SP-77.py:130-147 | one size per period, SHORT, MEDIUM and LARGE in order |
| QcRules.SetRelativeSize | QuantConnect/SP-77.py:130-147 | the loop over the periods gives the specified sizes |
| QcRules.RelativeSizeCases | QuantConnect/SP-77.py:135-145 | each size holds exactly when the value lies in its boundary interval; the size value is 1..5 |
| QcRules.RelativeSizeIgnoresFifth | QuantConnect/SP-76.py:281-297 | the fifth boundary never affects the size |
| QcRules.RelativeSizeMonotone | QuantConnect/SP-77.py:130-147 | against ascending boundaries, a larger value never gets a smaller size |
| QcRules.IsShootingStar | QuantConnect/SP-77.py:76-88 | is_shooting_star: an up bar whose high-open gap is at least twice the body and whose low-close gap is at most half the high-open gap |
| QcRules.IsHammer | QuantConnect/SP-77.py:90-103 | is_hammer: the low at or below the close, the tail at least twice the body, and the high-open gap at most the body |
| QcRules.IsLongLeggedDoji | QuantConnect/SP-77.py:105-122 | is_long_legged_doji: the low at or below the close, the high above the close (SP-77 only), and both the high-close and low-close gaps at least twice the body |
| QcRules.PatternConditions | QuantConnect/SP-77.py:76-103 | the shooting-star and hammer guard chains hold exactly under their stated conditions; a down bar is never a shooting star |
| QcRules.DojiConditions | QuantConnect/SP-76.py:256-273 | SP-77's doji also needs an upper wick, SP-76's does not; SP-77's implies SP-76's, and they differ only on bars with no upper wick |
| QcRules.FlatTopDoji | QuantConnect/SP-76.py:263-264 | a bar with no upper wick is an SP-76 doji but not an SP-77 one |
| QcRules.StarNotHammer | QuantConnect/SP-77.py:76-103 | when the high is not below the close, no bar is both a shooting star and a hammer |
| QcRules.VolumeAnomalyFlags | QuantConnect/SP-77.py:60-66 | three flags, each true iff the high-low size less one exceeds the volume size |
| QcRules.SpreadAnomalyFlags | QuantConnect/SP-77.py:68-74 | three flags, each true iff the volume size less one exceeds the high-low size |
| QcRules.SetVolumeAnomalyFlags | QuantConnect/SP-77.py:60-66 | the loop gives the specified volume anomaly flags |
| QcRules.SetSpreadAnomalyFlags | QuantConnect/SP-77.py:68-74 | the loop gives the specified spread anomaly flags |
| QcRules.AnomaliesExclusive | QuantConnect/SP-77.py:60-74 | a period never has both a volume and a spread anomaly |
| QcRules.NoteIf | QuantConnect/SP-77.py:45-58 | a note is appended exactly when its test holds |
| QcRules.NotesOfContents | QuantConnect/SP-77.py:45-58 | the notes contain each wick note iff its test holds, SHOOTING_STAR iff star or hammer, LONG_LEGGED_DOJI iff doji, never HAMMER, one note per passing test |
| QcRules.Notes | QuantConnect/SP-77.py:45-58 | the notes of a bar: NotesOf its five tests |
| QcRules.NotesContents | QuantConnect/SP-76.py:194-209 | the same note contents for a bar, with each draft's own doji test |
| QcRules.CandleOf | QuantConnect/SP-77.py:21-58 | a built candle keeps its bar and has three flags of each anomaly kind |
| QcRules.RecordNotes | QuantConnect/SP-77.py:45-58 | the five tests in order record the specified notes |
| QcRules.NewCandle | QuantConnect/SP-77.py:21-58 | the constructor builds the specified candle from the class tables |
| QcRules.CandleAnomaliesExclusive | QuantConnect/SP-76.py:189-190 | no period of a built candle has both anomalies |
| QcRules.HasPattern | QuantConnect/SP-77.py:336-348 | some pattern test of the draft holds, so calculate_signal formats a message with the candle's time |
| QcRules.CandleSignal | QuantConnect/SP-77.py:332-360 | the signal of a candle of the given draft: SignalOf its three pattern tests and its two anomaly lists |
| QcRules.CountTrueOfThree | QuantConnect/SP-77.py:352-358 | counting three flags is the sum of their indicators |
| QcRules.CandleSignalBounds | QuantConnect/SP-77.py:332-360 | a candle's signal strength is 0..25 in steps of 5; LONG iff hammer; SHORT iff shooting star |
| QcSp77.CandleHistory.constructor | QuantConnect/SP-77.py:229-236 | three empty deques with the given periods |
| QcSp77.CandleHistory.AddCandle | QuantConnect/SP-77.py:238-259 | the candle joins all three deques; the call raises (missing method) exactly when some deque is then full |
| QcSp77.CandleHistory.IsReady | QuantConnect/SP-77.py:261-273 | a non-HistoryPeriod argument raises; otherwise ready iff that deque's length equals its period |
| QcSp77.CalculateSignal | QuantConnect/SP-77.py:327-360 | raises exactly when a pattern test holds and the candle's time is not a str (lines 339, 344, 348 concatenate it; under QuantConnect it is a datetime); otherwise CandleSignal of the SP-77 candle |
| QcSp77.DefaultStrategy.constructor | QuantConnect/SP-77.py:364-367 | risk 100.00, stop loss 2.5, profit target 4 |
| QcSp77.DefaultStrategy.SetRiskPerTrade | QuantConnect/SP-77.py:374-378 | accepts only a float and stores it, otherwise raises and changes nothing; the other fields are untouched |
| QcSp77.DefaultStrategy.SetStopLossPoints | QuantConnect/SP-77.py:384-388 | accepts only an int and stores it, otherwise raises and changes nothing; the other fields are untouched |
| QcSp77.DefaultStrategy.SetProfitTargetPoints | QuantConnect/SP-77.py:394-398 | accepts only an int and stores it, otherwise raises and changes nothing; the other fields are untouched |
| QcSp76.Stat | QuantConnect/SP-76.py:119-139 | the value of a candle a statistic reads: volume, open, close, low, high, spread or high-low spread |
| QcSp76.StatValues | QuantConnect/SP-76.py:119-140 | one statistic value per candle of the deque, in order |
| QcSp76.Boundary | QuantConnect/SP-76.py:144 | the five percentiles of a non-empty deque form an ascending boundary list |
| QcSp76.BoundaryWithinSample | QuantConnect/SP-76.py:144 | each boundary value lies within the statistic's range over the deque |
| QcSp76.Refresh | QuantConnect/SP-76.py:68-72 | the boundary tables with one period's spread, volume and high-low entries recomputed from that period's deque |
| QcSp76.RefreshIfReady | QuantConnect/SP-76.py:68-84 | the tables after one period's check: refreshed when its deque is full, unchanged otherwise |
| QcSp76.RefreshKeepsAscending | QuantConnect/SP-76.py:67-83 | recomputing one period's entries keeps all tables ascending |
| QcSp76.CandleBoundaries.constructor | QuantConnect/SP-76.py:161-170 | the class tables start as defined, and are ascending |
| QcSp76.CandleHistory.constructor | QuantConnect/SP-76.py:54-61 | three empty deques with the given periods |
| QcSp76.CandleHistory.IsReady | QuantConnect/SP-76.py:86-99 | a non-HistoryPeriod argument raises; otherwise ready iff that deque's length equals its period |
| QcSp76.CandleHistory.PercentilesOf | QuantConnect/SP-76.py:101-144 | succeeds iff both arguments are enum members, the deque is non-empty and the statistic is not CLOSE; the argument errors come in order; a result is an ascending boundary |
| QcSp76.CandleHistory.GetPercentiles | QuantConnect/SP-76.py:101-144 | the collecting loop returns the specified percentiles or error |
| QcSp76.CandleHistory.AddCandle | QuantConnect/SP-76.py:63-84 | the candle joins all three deques; each ready period's boundaries are refreshed in order; the call fails iff some period is 0; ascending tables stay ascending |
| QcSp76.CandleHistory.RefreshPeriod | QuantConnect/SP-76.py:68-72 | a ready period's three entries become its deque's percentiles; a period of 0 fails and changes nothing |
| QcSp76.CalculateSignal | QuantConnect/SP-76.py:383-412 | raises exactly when a pattern test holds and the candle's time is not a datetime (lines 392, 397, 401 call strftime on it); otherwise CandleSignal of the SP-76 candle |
| ChartPl.OptionPayoff | options/chart_pl.py:5-16 | fails iff the type is neither call nor put; non-negative unless short; non-positive when short |
| ChartPl.Payoffs | options/chart_pl.py:5-16 | over a price grid: one payoff per price, failing iff the type is invalid |
| ChartPl.ProfitAndLoss | options/chart_pl.py:26 | the payoff less the cost for a "long" position, plus the cost for any other |
| ChartPl.PnL | options/chart_pl.py:26 | the profit and loss fails exactly as the payoff does |
| ChartPl.WorthlessRegion | options/chart_pl.py:6-9 | out of the money the payoff is 0: a long holder loses the cost, a short writer keeps it |
| ChartPl.InTheMoney | options/chart_pl.py:6-9 | in the money a long call pays S - K and a long put K - S |
| ChartPl.ShortMirrorsLong | options/chart_pl.py:13-14 | short payoff and short P&L are the negation of long ones |
| ChartPl.PutCallParity | options/chart_pl.py:6-9 | long call minus long put pays S - K |
| ChartPl.PnLBounds | options/chart_pl.py:26 | a long position loses at most its cost; a short one gains at most its premium |
| ChartPl.OtherPositionMixes | options/chart_pl.py:13-14 | a position other than long or short gets the long payoff plus the cost |
| OptionsPayoffs.Payout | options/options_payoffs.py:24-37 | fails iff a share purchase is short; a long option loses at most its cost; a short position gains at most its cost |
| OptionsPayoffs.SharePayout | options/options_payoffs.py:25-26 | a long share pays price - cost, one for one with the price |
| OptionsPayoffs.ShortMirrorsLong | options/options_payoffs.py:27-37 | for an option, the short payout is the negation of the long one |
| OptionsPayoffs.AgreesWithChart | options/options_payoffs.py:27-37 | for calls and puts, long or short, the payout equals the chart script's profit and loss |
| OptionsPayoffs.LegPayouts | options/options_payoffs.py:23-39 | a leg fails iff the grid is non-empty and it is a short share; otherwise one payout per grid price |
| OptionsPayoffs.IndexOf | options/options_payoffs.py:21 | the dictionary position of a key is its first occurrence, or -1 when absent |
| OptionsPayoffs.Set | options/options_payoffs.py:21 | assigning a present key replaces its value in place; a new key goes last |
| OptionsPayoffs.IndexOfFirst | options/options_payoffs.py:21 | the first position holding the key is where it is found |
| OptionsPayoffs.SetTwice | options/options_payoffs.py:21-39 | assigning a key twice is the same as the second assignment |
| OptionsPayoffs.SetKeepsLengths | options/options_payoffs.py:21-39 | assigning a list of the grid's length keeps every list at that length |
| OptionsPayoffs.PayoutTable | options/options_payoffs.py:12-39 | the payout table fails iff the grid is non-empty and some trade is a short share |
| OptionsPayoffs.FailureStays | options/options_payoffs.py:32-33 | once a trade raises, the whole calculation raises |
| OptionsPayoffs.TableOfDistinct | options/options_payoffs.py:12-39 | with distinct titles, the dictionary holds, per trade and in order, its title and its leg payouts |
| OptionsPayoffs.Values | options/options_payoffs.py:64 | the dictionary's values in insertion order |
| OptionsPayoffs.ShortestLength | options/options_payoffs.py:64 | zip stops at the shortest list |
| OptionsPayoffs.Combined | options/options_payoffs.py:64 | the combined payout has the shortest list's length, and each entry is the column sum (empty for no lists) |
| OptionsPayoffs.TotalPayout | options/options_payoffs.py:50 | the sum of every trade's payout at one price |
| OptionsPayoffs.ColumnSumIsTotal | options/options_payoffs.py:64 | a column sum of the leg payouts is the strategy's total payout at that price |
| OptionsPayoffs.CombinedIsTotal | options/options_payoffs.py:50-64 | with distinct titles, the combined payout has one entry per grid price, equal to the total payout there |
| OptionsPayoffs.IsRunsOf | options/options_payoffs.py:68-80 | the runs are exactly the maximal runs of grid indices with a positive combined payout, in ascending order, covering every positive index |
| OptionsPayoffs.RangesOf | options/options_payoffs.py:76-80 | each run of indices becomes the pair of its first and last grid prices |
| OptionsPayoffs.ProfitableRanges | options/options_payoffs.py:68-80 | the scan finds exactly the maximal runs of positive combined payout, in order, with their first and last prices |
| OptionsPayoffs.ScanStep | options/options_payoffs.py:72-77 | one scan step keeps the scan's invariant |
| OptionsPayoffs.CloseRange | options/options_payoffs.py:75-80 | closing a range records the finished run and its prices |
| OptionsPayoffs.CloseRun | options/options_payoffs.py:75-80 | a run ended by a non-positive entry or by the end is maximal, and all runs stay ordered and cover every positive entry |
| OptionsPayoffs.SkipStep | options/options_payoffs.py:74 | a non-positive entry outside a run leaves the runs as they were |
| OptionsPayoffs.ScannedAll | options/options_payoffs.py:79-80 | when the whole payout is scanned, the runs are exactly its maximal positive runs |
| OptionsPayoffs.RangesOfAppend | options/options_payoffs.py:76 | recording a run appends its price pair |
| OptionsPayoffs.LastRunOpenEnded | options/options_payoffs.py:79-80 | when the last payout is positive, the last run reaches the end of the grid |
| OptionsPayoffs.EndLabel | options/options_payoffs.py:102 | a range end prints as "Infinite" exactly when it equals the last grid price |
| OptionsPayoffs.EndLabels | options/options_payoffs.py:102 | on a strictly increasing grid, a range ends "Infinite" iff it is the last and the payout is positive at the grid's end |
| OptionsPayoffs.NoRunIffNeverPositive | options/options_payoffs.py:104-105 | there is no profitable range iff the combined payout is never positive |
| OptionsPayoffs.RunsGap | options/options_payoffs.py:71-77 | two runs are separated by a non-positive entry |
| OptionsPayoffs.OneRunIffAlwaysPositive | options/options_payoffs.py:68-80 | the single range is the whole grid iff the payout is positive everywhere |
| OptionsPayoffs.MaxOf | options/options_payoffs.py:65 | max is an element and at least every element |
| OptionsPayoffs.MinOf | options/options_payoffs.py:66 | min is an element and at most every element |
| OptionsPayoffs.MaxProfit | options/options_payoffs.py:82-93 | the maximum profit: the combination's maximum for a spread (a long and a short call), otherwise "Infinite" with a long call, otherwise the maximum |
| OptionsPayoffs.MaxLoss | options/options_payoffs.py:82-94 | the maximum loss: the combination's minimum for a spread, otherwise "Infinite" with a short call, otherwise the minimum |
| OptionsPayoffs.InfiniteRules | options/options_payoffs.py:82-94 | profit is Infinite iff a long call and no short call; loss Infinite iff a short call and no long call; otherwise the true extremes; never both Infinite |
| OptionsPayoffs.OptionStrategy.constructor | options/options_payoffs.py:6-10 | the name, the trades and the price grid, with an empty payouts dictionary |
| OptionsPayoffs.OptionStrategy.CalculatePayouts | options/options_payoffs.py:12-39 | succeeds iff the specified table does, and then the payouts are that table; a failure is the short-share error |
| OptionsPayoffs.OptionStrategy.FillPayouts | options/options_payoffs.py:23-39 | the inner loop builds the leg's payout list, or raises for a short share |
| OptionsPayoffs.OptionStrategy.PrintSummary | options/options_payoffs.py:63-105 | fails iff the combination is empty (max() of an empty list); otherwise the maximum profit and loss follow the Infinite rules and the ranges are the maximal positive runs |
| OptionsPayoffs.CombinedLength | options/options_payoffs.py:64 | lists of equal length n combine to length n |

## Left out

- Floating point: the model uses exact reals. numpy's float64 infinities and NaN, and rounding errors, are not modelled. Where Python raises ZeroDivisionError, the model returns an error.
- round(…, 2) in the printed summary, and every printed label or message, are left out. EndLabel keeps only the "Infinite" decision.
- Logging, printing, plotting (plot_payouts, the charts of chart_pl.py, graph_intervals), file and network I/O, configuration loading, data loading and the QuantConnect platform callbacks (Initialize, OnData) are left out. The configuration values and the price grid are parameters.
- VpaTrend.CalculateAdx: the ADX values after the first are computed by the source but never returned. The model only computes what is returned.
- The rolling_window_complete_msg flag and the last-index logging block of process_data only log. The logging block's division by the first close is not modelled either.
- After an exception the source may leave partial state. The model states the state only on success. For example, a failed calculate_payouts leaves the title mapped to [].
- VpaRunner.MarketAnalyzer.DetectSignals: it computes the multiple-bar score before the other scores. The scores are independent, so the order does not change the result.
- VpaRunner.MarketAnalyzer.ProcessData: the loop body is split into the helpers ProcessRow and AnnotateAndDetect.
- The percentile store is modelled as two maps rather than one nested dictionary.
- Deque periods are nat, so a negative maxlen, which deque rejects, cannot be expressed.
- numpy.percentile of an empty sample is modelled as an error: QcError.EmptySample, or a precondition for the engine's non-empty windows.
- The engine's candle time and notes are used only in logs and are not reasoned about. The signal scorers model only the time's type, which decides whether a pattern message raises; the message text is left out.
- VpaScoring.ValidConfig: the engine is modelled only for settings under which update_percentiles does not raise. Window lengths of 0 make np.percentile raise on an empty window. A step of 0 or an out-of-range level makes range() or np.percentile raise ValueError. PercentileLevels and PercentileLevelsRaise model these errors, but Run does not propagate them.
- The __str__ and stats methods of the histories, and SP-77's module-level get_percentiles (never reachable as a method), are left out.
- OptionsPayoffs.OptionStrategy.constructor: np.linspace(0, 2 * asset_price, 200) is not computed. The grid is given as a parameter. So the IndexError of __init__ on an empty options list is not modelled.
- VpaRegime.IdentifyAccOrDist: it requires non-empty windows, where numpy would raise on an empty period three. The engine only calls it with full windows.
- OptionsPayoffs.ProfitableRanges: the loop body is split into ScanStep and CloseRange.
