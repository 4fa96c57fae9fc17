/** The scoring rules of MarketAnalyzer (vpa/app_runner.py) stated over bar
    values: the configuration, the percentile levels and buckets, the four
    sub-scores and the signal of one bar given the three windows. */
module VpaScoring {
  import opened Numeric
  import opened Results
  import opened NumpyPercentile
  import opened VpaCandle
  import opened VpaTrend
  import opened VpaRegime

  /** One entry of the configuration's trading_parameters table. */
  datatype TradingParameters = TradingParameters(
    highSpreadThreshold: int,
    highVolumeThreshold: int,
    anomalyThreshold: int,
    signalBarCount: int,
    highSpreadCount: int,
    highVolumeCount: int)

  /** The configuration values the engine reads. */
  datatype Config = Config(
    periodOneLength: nat,
    periodTwoLength: nat,
    periodThreeLength: nat,
    percentileStart: int,
    percentileIncrements: int,
    tradingOne: TradingParameters,
    tradingTwo: TradingParameters,
    tradingThree: TradingParameters,
    maxRows: int,
    useRealData: bool)
  {
    /** The maxlen of the window kept for a period. */
    function Length(p: Period): nat
    {
      match p
      case PeriodOne => periodOneLength
      case PeriodTwo => periodTwoLength
      case PeriodThree => periodThreeLength
    }

    function Trading(p: Period): TradingParameters
    {
      match p
      case PeriodOne => tradingOne
      case PeriodTwo => tradingTwo
      case PeriodThree => tradingThree
    }
  }

  /** The PERCENTILE_START and PERCENTILE_INCREMENTS for which
      update_percentiles does not raise: range(start, 100, inc) only yields
      levels numpy accepts. A negative increment with a start of at most 100
      yields no levels at all. */
  predicate LevelsDefined(start: int, inc: int)
  {
    (start >= 0 && inc >= 1) || (inc < 0 && start <= 100)
  }

  /** Every window holds at least one bar, and the percentile settings do not
      make update_percentiles raise. */
  predicate ValidConfig(c: Config)
  {
    && c.periodOneLength >= 1 && c.periodTwoLength >= 1 && c.periodThreeLength >= 1
    && LevelsDefined(c.percentileStart, c.percentileIncrements)
  }

  /** calculate_adx's default period. */
  const AdxPeriod: nat := 14

  /** range(start, 100, inc) as percentile levels. */
  function Levels(start: int, inc: int): (r: seq<real>)
    requires LevelsDefined(start, inc)
    ensures forall j :: 0 <= j < |r| ==> 0.0 <= r[j] < 100.0
    ensures |r| == 0 <==> start >= 100 || inc < 0
    ensures |r| > 0 ==> r[0] == start as real && r[|r| - 1] + inc as real >= 100.0
    ensures forall j :: 0 <= j < |r| - 1 ==> r[j + 1] == r[j] + inc as real
    decreases if inc >= 1 then 100 - start else 0
  {
    if start >= 100 || inc < 0 then [] else [start as real] + Levels(start + inc, inc)
  }

  /** Python's range(start, stop, step) for a non-zero step. */
  function PyRange(start: int, stop: int, step: int): (r: seq<int>)
    requires step != 0
    ensures |r| == 0 <==> (step > 0 && start >= stop) || (step < 0 && start <= stop)
    ensures |r| > 0 ==> r[0] == start
    ensures forall j :: 0 <= j < |r| ==> (step > 0 ==> start <= r[j] < stop) && (step < 0 ==> stop < r[j] <= start)
    decreases if step > 0 then stop - start else start - stop
  {
    if (step > 0 && start >= stop) || (step < 0 && start <= stop) then []
    else [start] + PyRange(start + step, stop, step)
  }

  /** range() raises ValueError for a step of 0, and np.percentile raises
      ValueError for a level outside [0, 100]. */
  datatype LevelsError = ZeroStep | LevelOutOfRange

  /** Integer levels as the floats numpy compares against. */
  function AsReals(s: seq<int>): (r: seq<real>)
    ensures |r| == |s| && forall j :: 0 <= j < |s| ==> r[j] == s[j] as real
  {
    seq(|s|, j requires 0 <= j < |s| => s[j] as real)
  }

  /** The levels update_percentiles hands to np.percentile, or the error one
      of the two calls raises. */
  function PercentileLevels(start: int, inc: int): (r: Result<seq<real>, LevelsError>)
    ensures inc == 0 <==> r == Failure(ZeroStep)
    ensures r.Success? ==> forall j :: 0 <= j < |r.value| ==> 0.0 <= r.value[j] <= 100.0
  {
    if inc == 0 then Failure(ZeroStep)
    else
      var levels := PyRange(start, 100, inc);
      if exists j :: 0 <= j < |levels| && !(0 <= levels[j] <= 100) then Failure(LevelOutOfRange)
      else Success(AsReals(levels))
  }

  /** update_percentiles raises exactly for the settings LevelsDefined
      excludes: a step of 0, a non-negative step from a negative start, or a
      negative step from above 100. */
  lemma PercentileLevelsRaise(start: int, inc: int)
    ensures PercentileLevels(start, inc).Failure? <==> !LevelsDefined(start, inc)
  {
    if inc != 0 {
      var levels := PyRange(start, 100, inc);
      if !LevelsDefined(start, inc) {
        assert !(0 <= levels[0] <= 100);
      }
    }
  }

  /** Levels is range(start, 100, inc) read as floats. */
  lemma {:induction false} LevelsAreRange(start: int, inc: int)
    requires LevelsDefined(start, inc)
    ensures Levels(start, inc) == AsReals(PyRange(start, 100, inc))
    decreases if inc >= 1 then 100 - start else 0
  {
    if start < 100 && inc >= 1 {
      var rest := PyRange(start + inc, 100, inc);
      calc {
        Levels(start, inc);
        [start as real] + Levels(start + inc, inc);
        { LevelsAreRange(start + inc, inc); }
        [start as real] + AsReals(rest);
        { AsRealsCons(start, rest); }
        AsReals([start] + rest);
      }
    }
  }

  lemma AsRealsCons(x: int, s: seq<int>)
    ensures AsReals([x] + s) == [x as real] + AsReals(s)
  {
    assert forall j :: 0 <= j < |s| + 1 ==> AsReals([x] + s)[j] == ([x as real] + AsReals(s))[j];
  }

  /** Wherever update_percentiles does not raise, its levels are Levels. */
  lemma PercentileLevelsAgree(start: int, inc: int)
    requires LevelsDefined(start, inc)
    ensures PercentileLevels(start, inc) == Success(Levels(start, inc))
  {
    LevelsAreRange(start, inc);
    PercentileLevelsRaise(start, inc);
  }

  /** The number of breakpoints the value does not exceed. */
  function CountAtLeast(breakpoints: seq<real>, v: real): (n: nat)
    ensures n <= |breakpoints|
  {
    if |breakpoints| == 0 then 0
    else CountAtLeast(breakpoints[..|breakpoints| - 1], v) + (if v <= breakpoints[|breakpoints| - 1] then 1 else 0)
  }

  /** The percentile bucket update_percentiles writes for a value: START plus
      one INCREMENT for every breakpoint the value is at most. */
  function Bucket(start: int, inc: int, breakpoints: seq<real>, v: real): int
  {
    start + inc * CountAtLeast(breakpoints, v)
  }

  /** A bucket lies between START and START + INCREMENTS * len(breakpoints). */
  lemma BucketRange(start: int, inc: int, breakpoints: seq<real>, v: real)
    requires inc >= 0
    ensures start <= Bucket(start, inc, breakpoints, v) <= start + inc * |breakpoints|
  {
    var n := CountAtLeast(breakpoints, v);
    assert inc * n <= inc * |breakpoints| by {
      assert inc * (|breakpoints| - n) >= 0;
    }
  }

  /** A larger value is at most as many breakpoints. */
  lemma {:induction false} CountAtLeastAntitone(breakpoints: seq<real>, v1: real, v2: real)
    requires v1 <= v2
    ensures CountAtLeast(breakpoints, v2) <= CountAtLeast(breakpoints, v1)
  {
    if |breakpoints| > 0 {
      CountAtLeastAntitone(breakpoints[..|breakpoints| - 1], v1, v2);
    }
  }

  /** Buckets never grow as the value grows: small spreads and volumes get the
      high buckets. */
  lemma BucketAntitone(start: int, inc: int, breakpoints: seq<real>, v1: real, v2: real)
    requires inc >= 0 && v1 <= v2
    ensures Bucket(start, inc, breakpoints, v2) <= Bucket(start, inc, breakpoints, v1)
  {
    CountAtLeastAntitone(breakpoints, v1, v2);
    var n1, n2 := CountAtLeast(breakpoints, v1), CountAtLeast(breakpoints, v2);
    assert inc * (n1 - n2) >= 0;
  }

  /** The top bucket is reached exactly by values at most every breakpoint. */
  lemma {:induction false} CountAtLeastAll(breakpoints: seq<real>, v: real)
    ensures CountAtLeast(breakpoints, v) == |breakpoints|
      <==> forall i :: 0 <= i < |breakpoints| ==> v <= breakpoints[i]
  {
    if |breakpoints| > 0 {
      var init := breakpoints[..|breakpoints| - 1];
      CountAtLeastAll(init, v);
      assert forall i :: 0 <= i < |init| ==> init[i] == breakpoints[i];
    }
  }

  function Spreads(bars: seq<Bar>): (r: seq<real>)
    ensures |r| == |bars| && forall i :: 0 <= i < |bars| ==> r[i] == SpreadOf(bars[i])
  {
    seq(|bars|, i requires 0 <= i < |bars| => SpreadOf(bars[i]))
  }

  /** The spread breakpoints update_percentiles stores for a window. */
  function SpreadBreakpoints(c: Config, window: seq<Bar>): (r: seq<real>)
    requires ValidConfig(c) && |window| > 0
    ensures |r| == |Levels(c.percentileStart, c.percentileIncrements)|
  {
    Percentiles(Spreads(window), Levels(c.percentileStart, c.percentileIncrements))
  }

  /** The volume breakpoints update_percentiles stores for a window. */
  function VolumeBreakpoints(c: Config, window: seq<Bar>): (r: seq<real>)
    requires ValidConfig(c) && |window| > 0
    ensures |r| == |Levels(c.percentileStart, c.percentileIncrements)|
  {
    Percentiles(Volumes(window), Levels(c.percentileStart, c.percentileIncrements))
  }

  /** The spread bucket of a bar within a window. */
  function SpreadBucket(c: Config, window: seq<Bar>, b: Bar): int
    requires ValidConfig(c) && |window| > 0
  {
    Bucket(c.percentileStart, c.percentileIncrements, SpreadBreakpoints(c, window), SpreadOf(b))
  }

  /** The volume bucket of a bar within a window. */
  function VolumeBucket(c: Config, window: seq<Bar>, b: Bar): int
    requires ValidConfig(c) && |window| > 0
  {
    Bucket(c.percentileStart, c.percentileIncrements, VolumeBreakpoints(c, window), b.volume)
  }

  /** A negative PERCENTILE_INCREMENTS gives no levels, so every bar's
      spread and volume bucket is PERCENTILE_START. */
  lemma NoLevelsBuckets(c: Config, window: seq<Bar>, b: Bar)
    requires ValidConfig(c) && |window| > 0 && c.percentileIncrements < 0
    ensures SpreadBucket(c, window, b) == c.percentileStart
    ensures VolumeBucket(c, window, b) == c.percentileStart
  {
  }

  /** The three bounded windows, as the bars they hold. */
  datatype Windows = Windows(one: seq<Bar>, two: seq<Bar>, three: seq<Bar>)
  {
    function At(p: Period): seq<Bar>
    {
      match p
      case PeriodOne => one
      case PeriodTwo => two
      case PeriodThree => three
    }
  }

  predicate NonEmpty(ws: Windows)
  {
    |ws.one| > 0 && |ws.two| > 0 && |ws.three| > 0
  }

  /** A bar's spread buckets (or volume buckets) under each period's window. */
  function SpreadBuckets(c: Config, ws: Windows, b: Bar): (m: map<Period, int>)
    requires ValidConfig(c) && NonEmpty(ws)
    ensures Complete(m)
    ensures forall p :: p in m ==> m[p] == SpreadBucket(c, ws.At(p), b)
  {
    AllPeriodsComplete();
    map p | p in AllPeriods :: SpreadBucket(c, ws.At(p), b)
  }

  function VolumeBuckets(c: Config, ws: Windows, b: Bar): (m: map<Period, int>)
    requires ValidConfig(c) && NonEmpty(ws)
    ensures Complete(m)
    ensures forall p :: p in m ==> m[p] == VolumeBucket(c, ws.At(p), b)
  {
    AllPeriodsComplete();
    map p | p in AllPeriods :: VolumeBucket(c, ws.At(p), b)
  }

  const AllPeriods: set<Period> := {PeriodOne, PeriodTwo, PeriodThree}

  lemma AllPeriodsComplete()
    ensures forall p: Period :: p in AllPeriods
  {
    forall p: Period
      ensures p in AllPeriods
    {
      match p
      case PeriodOne =>
      case PeriodTwo =>
      case PeriodThree =>
    }
  }

  /** A bucket map with an entry for every period. */
  predicate Complete(m: map<Period, int>)
  {
    forall p: Period :: p in m
  }

  // ---------------------------------------------------------------------
  // Single candle score

  /** +1 for an up bar, -1 otherwise. */
  function Direction(up: bool): real
  {
    if up then 1.0 else -1.0
  }

  /** A period's wide-spread contribution: 2.5 in the bar's direction when
      its spread bucket is above 70, once more when the volume bucket is too. */
  function WideSpreadScore(up: bool, spreadBucket: int, volumeBucket: int): real
  {
    if spreadBucket > 70 then
      (if volumeBucket > 70 then 2.0 else 1.0) * 2.5 * Direction(up)
    else 0.0
  }

  /** The wide-spread contributions of the given periods, in order. */
  function WideSpreadOver(up: bool, sp: map<Period, int>, vp: map<Period, int>, ps: seq<Period>): real
    requires Complete(sp) && Complete(vp)
  {
    if |ps| == 0 then 0.0
    else WideSpreadOver(up, sp, vp, ps[..|ps| - 1]) + WideSpreadScore(up, sp[ps[|ps| - 1]], vp[ps[|ps| - 1]])
  }

  /** -3 for a shooting star, else +3 for a hammer. */
  function PatternScore(star: bool, hammer: bool): real
  {
    if star then -3.0 else if hammer then 3.0 else 0.0
  }

  /** single_candle_signal_score of a bar with the given buckets. */
  function SingleCandleScore(b: Bar, sp: map<Period, int>, vp: map<Period, int>): real
    requires Complete(sp) && Complete(vp)
  {
    Direction(IsUpBar(b)) + WideSpreadOver(IsUpBar(b), sp, vp, Periods)
      + PatternScore(BarShape(b).shootingStar, BarShape(b).hammer)
  }

  /** Each period contributes 0, 2.5 or 5 in the bar's direction. */
  lemma WideSpreadScoreValues(up: bool, s: int, v: int)
    ensures var w := WideSpreadScore(up, s, v);
      (up ==> w == 0.0 || w == 2.5 || w == 5.0) && (!up ==> w == 0.0 || w == -2.5 || w == -5.0)
  {
  }

  /** The wide-spread contributions of n periods lie between 0 and 5n in the
      bar's direction. */
  lemma {:induction false} WideSpreadOverBounds(up: bool, sp: map<Period, int>, vp: map<Period, int>, ps: seq<Period>)
    requires Complete(sp) && Complete(vp)
    ensures up ==> 0.0 <= WideSpreadOver(up, sp, vp, ps) <= 5.0 * |ps| as real
    ensures !up ==> -5.0 * |ps| as real <= WideSpreadOver(up, sp, vp, ps) <= 0.0
  {
    if |ps| > 0 {
      var last := ps[|ps| - 1];
      WideSpreadOverBounds(up, sp, vp, ps[..|ps| - 1]);
      WideSpreadScoreValues(up, sp[last], vp[last]);
    }
  }

  /** The single candle score never exceeds 19 in magnitude, an up bar that
      is no shooting star scores at least 1, and a down bar that is no hammer
      scores at most -1. */
  lemma SingleCandleScoreBounds(b: Bar, sp: map<Period, int>, vp: map<Period, int>)
    requires Complete(sp) && Complete(vp)
    ensures -19.0 <= SingleCandleScore(b, sp, vp) <= 19.0
    ensures IsUpBar(b) && !BarShape(b).shootingStar ==> SingleCandleScore(b, sp, vp) >= 1.0
    ensures !IsUpBar(b) && !BarShape(b).hammer ==> SingleCandleScore(b, sp, vp) <= -1.0
  {
    WideSpreadOverBounds(IsUpBar(b), sp, vp, Periods);
  }

  // ---------------------------------------------------------------------
  // Trend score

  /** trend_signal_score: +5 for trending up and -5 for trending down, both
      only when the first ADX value is above 25. */
  function TrendScore(r: AdxReport): real
  {
    var trending := r.adx > 25.0;
    var up := r.meanDmPlus > r.meanDmMinus;
    var down := r.meanDmMinus > r.meanDmPlus;
    (if trending && up then 5.0 else 0.0) + (if trending && down then -5.0 else 0.0)
  }

  /** The two trend directions never both fire: the score is 5, -5 or 0, and
      it is non-zero only for a trending market. */
  lemma TrendScoreValues(r: AdxReport)
    ensures TrendScore(r) == 5.0 <==> r.adx > 25.0 && r.meanDmPlus > r.meanDmMinus
    ensures TrendScore(r) == -5.0 <==> r.adx > 25.0 && r.meanDmMinus > r.meanDmPlus
    ensures TrendScore(r) == 0.0 <==> r.adx <= 25.0 || r.meanDmPlus == r.meanDmMinus
  {
  }

  // ---------------------------------------------------------------------
  // Multiple bar score

  /** The bar counts of one window. */
  datatype BarCounts = BarCounts(upBars: nat, highSpread: nat, highVolume: nat, anomalies: nat)

  /** The signals flags of one period. */
  datatype PeriodSignal = PeriodSignal(bull: bool, bear: bool, volumeBacked: bool)

  /** Python's abs on an int. */
  function IntAbs(x: int): nat
  {
    if x < 0 then -x else x
  }

  function UpFlags(window: seq<Bar>): (r: seq<bool>)
    ensures |r| == |window| && forall i :: 0 <= i < |r| ==> r[i] == IsUpBar(window[i])
  {
    seq(|window|, i requires 0 <= i < |window| => IsUpBar(window[i]))
  }

  function HighSpreadFlags(c: Config, p: Period, window: seq<Bar>): (r: seq<bool>)
    requires ValidConfig(c) && |window| > 0
    ensures |r| == |window|
    ensures forall i :: 0 <= i < |r| ==>
      r[i] == (SpreadBucket(c, window, window[i]) > c.Trading(p).highSpreadThreshold)
  {
    seq(|window|, i requires 0 <= i < |window| =>
      SpreadBucket(c, window, window[i]) > c.Trading(p).highSpreadThreshold)
  }

  function HighVolumeFlags(c: Config, p: Period, window: seq<Bar>): (r: seq<bool>)
    requires ValidConfig(c) && |window| > 0
    ensures |r| == |window|
    ensures forall i :: 0 <= i < |r| ==>
      r[i] == (VolumeBucket(c, window, window[i]) > c.Trading(p).highVolumeThreshold)
  {
    seq(|window|, i requires 0 <= i < |window| =>
      VolumeBucket(c, window, window[i]) > c.Trading(p).highVolumeThreshold)
  }

  function AnomalyFlags(c: Config, p: Period, window: seq<Bar>): (r: seq<bool>)
    requires ValidConfig(c) && |window| > 0
    ensures |r| == |window|
    ensures forall i :: 0 <= i < |r| ==>
      r[i] == (IntAbs(SpreadBucket(c, window, window[i]) - VolumeBucket(c, window, window[i]))
               > c.Trading(p).anomalyThreshold)
  {
    seq(|window|, i requires 0 <= i < |window| =>
      IntAbs(SpreadBucket(c, window, window[i]) - VolumeBucket(c, window, window[i]))
        > c.Trading(p).anomalyThreshold)
  }

  /** The bar_counts entry of period p, whose window is given. */
  function WindowCounts(c: Config, p: Period, window: seq<Bar>): (r: BarCounts)
    requires ValidConfig(c) && |window| > 0
    ensures r.upBars <= |window| && r.highSpread <= |window|
    ensures r.highVolume <= |window| && r.anomalies <= |window|
  {
    BarCounts(CountTrue(UpFlags(window)), CountTrue(HighSpreadFlags(c, p, window)),
              CountTrue(HighVolumeFlags(c, p, window)), CountTrue(AnomalyFlags(c, p, window)))
  }

  /** Bull when enough up bars, otherwise bear when few enough (measured
      against PERIOD_ONE_LENGTH whatever the period); volume-backed when
      either fired and the spread, volume and anomaly counts agree. */
  function PeriodSignalOf(counts: BarCounts, t: TradingParameters, periodOneLength: int): PeriodSignal
  {
    var bull := counts.upBars >= t.signalBarCount;
    var bear := !bull && counts.upBars <= periodOneLength - t.signalBarCount;
    var backed := (bull || bear)
      && counts.highSpread >= t.highSpreadCount
      && counts.highVolume >= t.highVolumeCount
      && counts.anomalies <= t.anomalyThreshold;
    PeriodSignal(bull, bear, backed)
  }

  /** A period's signal is never both bull and bear, and only a signal that
      fired can be volume-backed. */
  lemma PeriodSignalExclusive(counts: BarCounts, t: TradingParameters, periodOneLength: int)
    ensures var s := PeriodSignalOf(counts, t, periodOneLength);
      !(s.bull && s.bear) && (s.volumeBacked ==> s.bull || s.bear)
    ensures PeriodSignalOf(counts, t, periodOneLength).bull <==> counts.upBars >= t.signalBarCount
    ensures PeriodSignalOf(counts, t, periodOneLength).bear
      <==> (counts.upBars < t.signalBarCount && counts.upBars <= periodOneLength - t.signalBarCount)
  {
  }

  /** A signal type's score adjustment, doubled when volume-backed. */
  function Adjustment(amount: real, backed: bool): real
  {
    if backed then amount * 2.0 else amount
  }

  /** The bull then bear contributions of one period. */
  function PeriodScore(s: PeriodSignal): real
  {
    (if s.bull then Adjustment(2.5, s.volumeBacked) else 0.0)
      + (if s.bear then Adjustment(-2.5, s.volumeBacked) else 0.0)
  }

  /** For an exclusive signal the period scores +-2.5, +-5 or 0, positive
      exactly for bull and negative exactly for bear, and 5 in magnitude
      exactly when volume-backed. */
  lemma PeriodScoreValues(s: PeriodSignal)
    requires !(s.bull && s.bear) && (s.volumeBacked ==> s.bull || s.bear)
    ensures PeriodScore(s) in {-5.0, -2.5, 0.0, 2.5, 5.0}
    ensures PeriodScore(s) > 0.0 <==> s.bull
    ensures PeriodScore(s) < 0.0 <==> s.bear
    ensures (PeriodScore(s) == 5.0 || PeriodScore(s) == -5.0) <==> s.volumeBacked
  {
  }

  /** The signal of period p given the windows. */
  function SignalOfPeriod(c: Config, ws: Windows, p: Period): PeriodSignal
    requires ValidConfig(c) && NonEmpty(ws)
  {
    PeriodSignalOf(WindowCounts(c, p, ws.At(p)), c.Trading(p), c.periodOneLength)
  }

  /** The signals dictionary: every period's flags. */
  function PeriodSignals(c: Config, ws: Windows): (m: map<Period, PeriodSignal>)
    requires ValidConfig(c) && NonEmpty(ws)
    ensures forall p :: p in m && m[p] == SignalOfPeriod(c, ws, p)
  {
    AllPeriodsComplete();
    map p | p in AllPeriods :: SignalOfPeriod(c, ws, p)
  }

  /** The bull then bear adjustments of the given periods, in order. */
  function ScoreOver(signals: map<Period, PeriodSignal>, ps: seq<Period>): real
    requires forall p :: p in signals
  {
    if |ps| == 0 then 0.0
    else ScoreOver(signals, ps[..|ps| - 1]) + PeriodScore(signals[ps[|ps| - 1]])
  }

  /** multiple_bar_signal_score. */
  function MultiBarScore(c: Config, ws: Windows): real
    requires ValidConfig(c) && NonEmpty(ws)
  {
    ScoreOver(PeriodSignals(c, ws), Periods)
  }

  /** Over exclusive signals, n periods contribute at most 5n in magnitude. */
  lemma {:induction false} ScoreOverBounds(signals: map<Period, PeriodSignal>, ps: seq<Period>)
    requires forall p :: p in signals
    requires forall p ::
      !(signals[p].bull && signals[p].bear) && (signals[p].volumeBacked ==> signals[p].bull || signals[p].bear)
    ensures -5.0 * |ps| as real <= ScoreOver(signals, ps) <= 5.0 * |ps| as real
  {
    if |ps| > 0 {
      ScoreOverBounds(signals, ps[..|ps| - 1]);
      PeriodScoreValues(signals[ps[|ps| - 1]]);
    }
  }

  /** The multiple bar score lies in [-15, 15]. */
  lemma MultiBarScoreBounds(c: Config, ws: Windows)
    requires ValidConfig(c) && NonEmpty(ws)
    ensures -15.0 <= MultiBarScore(c, ws) <= 15.0
  {
    var signals := PeriodSignals(c, ws);
    forall p
      ensures !(signals[p].bull && signals[p].bear)
      ensures signals[p].volumeBacked ==> signals[p].bull || signals[p].bear
    {
      PeriodSignalExclusive(WindowCounts(c, p, ws.At(p)), c.Trading(p), c.periodOneLength);
    }
    ScoreOverBounds(signals, Periods);
  }

  // ---------------------------------------------------------------------
  // Accumulation / distribution score

  /** acc_dist_signal_score: nothing without a regime; otherwise 10 in the
      regime's direction, then the test (5 in that direction on a pass, minus
      2 on a fail whichever the regime) and the climax (10 in that
      direction). */
  function AccDistScore(regime: Regime, b: Bar, sp: map<Period, int>, vp: map<Period, int>): real
    requires Complete(sp) && Complete(vp)
  {
    if regime == NoRegime then 0.0
    else
      var acc := regime == Accumulation;
      var shape := BarShape(b);
      var pattern := shape.shootingStar || shape.hammer || shape.lld;
      var base := if acc then 10.0 else -10.0;
      var test :=
        if sp[PeriodOne] > 65 || pattern then
          (if vp[PeriodOne] < 50 then (if acc then 5.0 else -5.0) else -2.0)
        else 0.0;
      var climax := if sp[PeriodTwo] < 40 && vp[PeriodTwo] > 60 then (if acc then 10.0 else -10.0) else 0.0;
      base + test + climax
  }

  /** With no regime the score is 0; an accumulation scores between 8 and 25
      and a distribution between -25 and -10. */
  lemma AccDistScoreRange(regime: Regime, b: Bar, sp: map<Period, int>, vp: map<Period, int>)
    requires Complete(sp) && Complete(vp)
    ensures regime == NoRegime ==> AccDistScore(regime, b, sp, vp) == 0.0
    ensures regime == Accumulation ==> 8.0 <= AccDistScore(regime, b, sp, vp) <= 25.0
    ensures regime == Distribution ==> -25.0 <= AccDistScore(regime, b, sp, vp) <= -10.0
  {
  }

  /** A failed test subtracts 2 for both regimes. */
  lemma AccDistTestFail(regime: Regime, b: Bar, sp: map<Period, int>, vp: map<Period, int>)
    requires Complete(sp) && Complete(vp)
    requires regime != NoRegime && sp[PeriodOne] > 65 && vp[PeriodOne] >= 50
    requires !(sp[PeriodTwo] < 40 && vp[PeriodTwo] > 60)
    ensures regime == Accumulation ==> AccDistScore(regime, b, sp, vp) == 8.0
    ensures regime == Distribution ==> AccDistScore(regime, b, sp, vp) == -12.0
  {
  }

  // ---------------------------------------------------------------------
  // The signal of one bar

  /** The four sub-scores detect_signals reports. */
  datatype Signals = Signals(singleCandle: real, trend: real, multipleBar: real, accDist: real)
  {
    /** trade_signal. */
    function Total(): real
    {
      singleCandle + trend + multipleBar + accDist
    }

    /** The label process_data logs: BUY when positive, SELL otherwise. */
    predicate Buy()
    {
      Total() > 0.0
    }
  }

  /** detect_signals for bar b given the windows' bars: b's buckets come from
      each window's breakpoints, the ADX from window three and the regime
      from windows three and one. An ADX error propagates. */
  function SignalsOf(c: Config, ws: Windows, b: Bar): Result<Signals, AdxError>
    requires ValidConfig(c) && NonEmpty(ws)
  {
    match Adx(ws.three, AdxPeriod)
    case Failure(e) => Failure(e)
    case Success(report) => Success(Scores(c, ws, b, report))
  }

  function Scores(c: Config, ws: Windows, b: Bar, report: AdxReport): Signals
    requires ValidConfig(c) && NonEmpty(ws)
  {
    var sp, vp := SpreadBuckets(c, ws, b), VolumeBuckets(c, ws, b);
    var regime := AccOrDist(Volumes(ws.three), Closes(ws.three), Volumes(ws.one), ws.one[|ws.one| - 1].close);
    Signals(SingleCandleScore(b, sp, vp), TrendScore(report), MultiBarScore(c, ws), AccDistScore(regime, b, sp, vp))
  }

  /** detect_signals fails exactly as the ADX of window three does ... */
  lemma SignalsOfError(c: Config, ws: Windows, b: Bar, e: AdxError)
    requires ValidConfig(c) && NonEmpty(ws) && Adx(ws.three, AdxPeriod) == Failure(e)
    ensures SignalsOf(c, ws, b) == Failure(e)
  {
  }

  /** ... and otherwise assembles its four scores. */
  lemma SignalsOfParts(c: Config, ws: Windows, b: Bar, report: AdxReport)
    requires ValidConfig(c) && NonEmpty(ws) && Adx(ws.three, AdxPeriod) == Success(report)
    ensures SignalsOf(c, ws, b) == Success(Scores(c, ws, b, report))
  {
  }

  /** An error comes only from the ADX of window three, and the total of a
      signal never exceeds 64 in magnitude: 19 + 5 + 15 + 25, the bounds of
      its four parts. */
  lemma SignalsBounds(c: Config, ws: Windows, b: Bar)
    requires ValidConfig(c) && NonEmpty(ws)
    ensures SignalsOf(c, ws, b).Failure? <==> Adx(ws.three, AdxPeriod).Failure?
    ensures SignalsOf(c, ws, b).Success? ==> -64.0 <= SignalsOf(c, ws, b).value.Total() <= 64.0
  {
    match Adx(ws.three, AdxPeriod)
    case Failure(_) =>
    case Success(report) =>
      var sp, vp := SpreadBuckets(c, ws, b), VolumeBuckets(c, ws, b);
      var regime := AccOrDist(Volumes(ws.three), Closes(ws.three), Volumes(ws.one), ws.one[|ws.one| - 1].close);
      var s := Signals(SingleCandleScore(b, sp, vp), TrendScore(report), MultiBarScore(c, ws),
                       AccDistScore(regime, b, sp, vp));
      assert SignalsOf(c, ws, b) == Success(s);
      SingleCandleScoreBounds(b, sp, vp);
      MultiBarScoreBounds(c, ws);
      TrendScoreValues(report);
      AccDistScoreRange(regime, b, sp, vp);
  }
}
