/** MarketAnalyzer (vpa/app_runner.py): three bounded windows of candles,
    per-window percentile breakpoints, the buckets written into every candle
    of a window, and the four sub-scores of the newest candle. */
module VpaRunner {
  import opened Results
  import opened Numeric
  import opened BoundedWindow
  import opened NumpyPercentile
  import opened VpaCandle
  import opened VpaTrend
  import opened VpaRegime
  import opened VpaScoring
  import opened VpaProcess

  /** BarsOf commutes with appending to a bounded window. */
  lemma BarsOfPush(w: seq<Candle>, c: Candle, capacity: nat)
    requires 0 < capacity && |w| <= capacity
    ensures BarsOf(Push(w, c, capacity)) == Push(BarsOf(w), c.AsBar(), capacity)
  {
    if |w| == capacity {
      assert BarsOf(w[1..]) == BarsOf(w)[1..];
    }
  }

  /** Counting one more flag. */
  lemma CountTruePrefix(flags: seq<bool>, i: nat)
    requires i < |flags|
    ensures CountTrue(flags[..i + 1]) == CountTrue(flags[..i]) + (if flags[i] then 1 else 0)
  {
    assert flags[..i + 1][..i] == flags[..i];
  }

  /** The inner loop of update_percentiles: START, plus INCREMENTS for each
      breakpoint the value does not exceed. */
  method BucketOf(start: int, inc: int, breakpoints: seq<real>, v: real) returns (b: int)
    ensures b == Bucket(start, inc, breakpoints, v)
  {
    b := start;
    for i := 0 to |breakpoints|
      invariant b == start + inc * CountAtLeast(breakpoints[..i], v)
    {
      assert breakpoints[..i + 1][..i] == breakpoints[..i];
      var n := CountAtLeast(breakpoints[..i], v);
      if v <= breakpoints[i] {
        b := b + inc;
        assert inc * (n + 1) == inc * n + inc;
      }
    }
    assert breakpoints[..|breakpoints|] == breakpoints;
  }

  /** Both keys agree on p: present in both or in neither, with one value. */
  predicate SameAt(m1: map<Period, int>, m2: map<Period, int>, p: Period)
  {
    (p in m1 <==> p in m2) && (p in m1 ==> m1[p] == m2[p])
  }

  /** The candle carries under key p the buckets of its spread and volume
      against the given breakpoints. */
  predicate Labelled(c: Candle, p: Period, start: int, inc: int, spreadBreakpoints: seq<real>, volumeBreakpoints: seq<real>)
    reads c
  {
    && p in c.spreadPercentiles && c.spreadPercentiles[p] == Bucket(start, inc, spreadBreakpoints, c.spread)
    && p in c.volumePercentiles && c.volumePercentiles[p] == Bucket(start, inc, volumeBreakpoints, c.volume)
  }

  /** Two complete bucket maps with the same bucket for every period are
      the same map. */
  lemma CompleteMapsEqual(m1: map<Period, int>, m2: map<Period, int>)
    requires Complete(m1) && Complete(m2)
    requires forall p :: m1[p] == m2[p]
    ensures m1 == m2
  {
    assert m1.Keys == m2.Keys;
  }

  /** Bucket maps holding, for every period, a bar's buckets within that
      period's window are that bar's bucket maps. */
  lemma BucketMapsEqual(c: Config, ws: Windows, b: Bar, sp: map<Period, int>, vp: map<Period, int>)
    requires ValidConfig(c) && NonEmpty(ws)
    requires forall p :: p in sp && p in vp && sp[p] == SpreadBucket(c, ws.At(p), b) && vp[p] == VolumeBucket(c, ws.At(p), b)
    ensures sp == SpreadBuckets(c, ws, b) && vp == VolumeBuckets(c, ws, b)
  {
    CompleteMapsEqual(sp, SpreadBuckets(c, ws, b));
    CompleteMapsEqual(vp, VolumeBuckets(c, ws, b));
  }

  /** Step 5 of detect_signals for the newest candle: +-1 for its direction,
      +-2.5 for each window where its spread bucket is above 70 and +-2.5
      more where its volume bucket is too, then -3 for a shooting star or
      else +3 for a hammer. */
  method SingleCandleSignal(c: Candle) returns (score: real)
    requires c.Valid() && Complete(c.spreadPercentiles) && Complete(c.volumePercentiles)
    ensures score == SingleCandleScore(c.AsBar(), c.spreadPercentiles, c.volumePercentiles)
  {
    var sp, vp := c.spreadPercentiles, c.volumePercentiles;
    score := if c.upBar then 1.0 else -1.0;
    for k := 0 to |Periods|
      invariant score == Direction(c.upBar) + WideSpreadOver(c.upBar, sp, vp, Periods[..k])
    {
      var p := Periods[k];
      assert Periods[..k + 1][..k] == Periods[..k];
      if sp[p] > 70 {
        score := score + (if c.upBar then 2.5 else -2.5);
        if vp[p] > 70 {
          score := score + (if c.upBar then 2.5 else -2.5);
        }
      }
    }
    assert Periods[..|Periods|] == Periods;
    if c.shootingStar {
      score := score - 3.0;
    } else if c.hammer {
      score := score + 3.0;
    }
  }

  /** Step 6: +5 when trending up and -5 when trending down, both only when
      the ADX is above 25. */
  method TrendSignal(report: AdxReport) returns (score: real)
    ensures score == TrendScore(report)
  {
    score := 0.0;
    var trending := report.adx > 25.0;
    if trending {
      if report.meanDmPlus > report.meanDmMinus {
        score := score + 5.0;
      }
      if report.meanDmMinus > report.meanDmPlus {
        score := score - 5.0;
      }
    }
  }

  /** Step 9: the accumulation / distribution score of the newest candle
      for the regime identified on windows three and one. */
  method AccDistSignal(regime: Regime, c: Candle) returns (score: real)
    requires c.Valid() && Complete(c.spreadPercentiles) && Complete(c.volumePercentiles)
    ensures score == AccDistScore(regime, c.AsBar(), c.spreadPercentiles, c.volumePercentiles)
  {
    score := 0.0;
    if regime != NoRegime {
      var acc := regime == Accumulation;
      score := score + (if acc then 10.0 else -10.0);
      if c.spreadPercentiles[PeriodOne] > 65 || c.IsCandlePattern() {
        if c.volumePercentiles[PeriodOne] < 50 {
          score := score + (if acc then 5.0 else -5.0);
        } else {
          score := score - 2.0;
        }
      }
      if c.spreadPercentiles[PeriodTwo] < 40 && c.volumePercentiles[PeriodTwo] > 60 {
        score := score + (if acc then 10.0 else -10.0);
      }
    }
  }

  /** Step 5.1 over the windows' bars: for each window, the spread and the
      volume percentiles at the configured levels replace its entries. */
  method WindowBreakpoints(c: Config, ws: Windows, spreads0: map<Period, seq<real>>,
                           volumes0: map<Period, seq<real>>)
    returns (spreads: map<Period, seq<real>>, volumes: map<Period, seq<real>>)
    requires ValidConfig(c) && NonEmpty(ws)
    ensures forall p :: p in spreads && spreads[p] == SpreadBreakpoints(c, ws.At(p))
    ensures forall p :: p in volumes && volumes[p] == VolumeBreakpoints(c, ws.At(p))
  {
    var levels := Levels(c.percentileStart, c.percentileIncrements);
    spreads, volumes := spreads0, volumes0;
    for k := 0 to |Periods|
      invariant forall q :: q in Periods[..k] ==>
        && q in spreads && spreads[q] == SpreadBreakpoints(c, ws.At(q))
        && q in volumes && volumes[q] == VolumeBreakpoints(c, ws.At(q))
    {
      var p := Periods[k];
      assert Periods[..k + 1] == Periods[..k] + [p];
      spreads := spreads[p := Percentiles(Spreads(ws.At(p)), levels)];
      volumes := volumes[p := Percentiles(Volumes(ws.At(p)), levels)];
    }
    assert Periods[..|Periods|] == Periods;
    forall p
      ensures p in Periods
    {
      match p
      case PeriodOne => assert Periods[0] == p;
      case PeriodTwo => assert Periods[1] == p;
      case PeriodThree => assert Periods[2] == p;
    }
  }

  /** Two complete signals dictionaries that agree at every period are the
      same dictionary. */
  lemma SignalMapsEqual(m1: map<Period, PeriodSignal>, m2: map<Period, PeriodSignal>)
    requires forall p :: p in m1 && p in m2 && m1[p] == m2[p]
    ensures m1 == m2
  {
    assert m1.Keys == m2.Keys;
  }

  /** Step 8 for every window: bull when enough up bars, else bear when few
      enough (measured against PERIOD_ONE_LENGTH whatever the window);
      volume-backed when either fired and the spread, volume and anomaly
      counts agree. */
  method FlagWindows(c: Config, counts: map<Period, BarCounts>) returns (signals: map<Period, PeriodSignal>)
    requires ValidConfig(c) && forall p :: p in counts
    ensures forall p :: p in signals && signals[p] == PeriodSignalOf(counts[p], c.Trading(p), c.periodOneLength)
  {
    signals := map[];
    for k := 0 to |Periods|
      invariant forall j :: 0 <= j < k ==> Periods[j] in signals
      invariant forall q :: q in signals ==> signals[q] == PeriodSignalOf(counts[q], c.Trading(q), c.periodOneLength)
    {
      var p := Periods[k];
      var t := c.Trading(p);
      var bull, bear := false, false;
      if counts[p].upBars >= t.signalBarCount {
        bull := true;
      } else if counts[p].upBars <= c.periodOneLength - t.signalBarCount {
        bear := true;
      }
      var backed := false;
      if bull || bear {
        if counts[p].highSpread >= t.highSpreadCount && counts[p].highVolume >= t.highVolumeCount
           && counts[p].anomalies <= t.anomalyThreshold {
          backed := true;
        }
      }
      signals := signals[p := PeriodSignal(bull, bear, backed)];
    }
    forall p
      ensures p in signals
    {
      var j := match p case PeriodOne => 0 case PeriodTwo => 1 case PeriodThree => 2;
      assert Periods[j] == p;
    }
  }

  /** The flags of every window's bar counts form the signals dictionary. */
  lemma CountsGiveSignals(c: Config, ws: Windows, counts: map<Period, BarCounts>,
                          signals: map<Period, PeriodSignal>)
    requires ValidConfig(c) && NonEmpty(ws)
    requires forall p :: p in counts && counts[p] == WindowCounts(c, p, ws.At(p))
    requires forall p :: p in signals && signals[p] == PeriodSignalOf(counts[p], c.Trading(p), c.periodOneLength)
    ensures signals == PeriodSignals(c, ws)
  {
    SignalMapsEqual(signals, PeriodSignals(c, ws));
  }

  /** The multiple bar score from the signals dictionary: for each window in
      order, +2.5 for bull and -2.5 for bear, doubled when volume-backed. */
  method ScoreSignals(signals: map<Period, PeriodSignal>) returns (score: real)
    requires forall p :: p in signals
    ensures score == ScoreOver(signals, Periods)
  {
    score := 0.0;
    for k := 0 to |Periods|
      invariant score == ScoreOver(signals, Periods[..k])
    {
      var p := Periods[k];
      assert Periods[..k + 1][..k] == Periods[..k];
      var s := signals[p];
      if s.bull {
        score := score + (if s.volumeBacked then 2.5 * 2.0 else 2.5);
      }
      if s.bear {
        score := score + (if s.volumeBacked then -2.5 * 2.0 else -2.5);
      }
    }
    assert Periods[..|Periods|] == Periods;
  }

  class MarketAnalyzer {
    const config: Config
    var periodOne: seq<Candle>
    var periodTwo: seq<Candle>
    var periodThree: seq<Candle>
    /** __percentiles_store: the breakpoints last computed per window. */
    var spreadStore: map<Period, seq<real>>
    var volumeStore: map<Period, seq<real>>

    function Window(p: Period): seq<Candle>
      reads this
    {
      match p
      case PeriodOne => periodOne
      case PeriodTwo => periodTwo
      case PeriodThree => periodThree
    }

    /** Every candle held by some window. */
    function Candles(): set<Candle>
      reads this
    {
      set c | c in periodOne + periodTwo + periodThree
    }

    /** The bars the windows hold. */
    function Bars(): Windows
      reads this
    {
      Windows(BarsOf(periodOne), BarsOf(periodTwo), BarsOf(periodThree))
    }

    lemma BarsAt(p: Period)
      ensures Bars().At(p) == BarsOf(Window(p))
    {
      match p
      case PeriodOne =>
      case PeriodTwo =>
      case PeriodThree =>
    }

    predicate Valid()
      reads this
    {
      && ValidConfig(config)
      && Fits(config, Bars())
      && forall c :: c in Candles() ==> c.Valid()
    }

    /** The store holds every window's current breakpoints. */
    predicate StoresCurrent()
      requires ValidConfig(config)
      reads this
    {
      && (forall p :: |Window(p)| > 0 && p in spreadStore && p in volumeStore)
      && (forall p :: spreadStore[p] == SpreadBreakpoints(config, BarsOf(Window(p))))
      && (forall p :: volumeStore[p] == VolumeBreakpoints(config, BarsOf(Window(p))))
    }

    /** Every candle of window p carries its buckets for p. */
    predicate WindowLabelled(p: Period)
      requires p in spreadStore && p in volumeStore
      reads this, Candles()
    {
      forall c :: c in Window(p) ==>
        Labelled(c, p, config.percentileStart, config.percentileIncrements, spreadStore[p], volumeStore[p])
    }

    /** Every candle of window p has a bucket under key p. */
    predicate Keyed(p: Period)
      reads this, Candles()
    {
      forall c :: c in Window(p) ==> p in c.spreadPercentiles && p in c.volumePercentiles
    }

    /** Window p is non-empty, its breakpoints are stored, and every candle
        of it carries under key p the buckets of its spread and volume. */
    predicate Annotated(p: Period)
      requires ValidConfig(config)
      reads this, Candles()
    {
      |Window(p)| > 0 && StoresCurrent() && WindowLabelled(p)
    }

    /** Every window is annotated. */
    predicate AllAnnotated()
      requires ValidConfig(config)
      reads this, Candles()
    {
      Annotated(PeriodOne) && Annotated(PeriodTwo) && Annotated(PeriodThree)
    }

    /** Empty windows of the configured lengths and an empty store. */
    constructor (config: Config)
      requires ValidConfig(config)
      ensures Valid() && this.config == config
      ensures periodOne == [] && periodTwo == [] && periodThree == []
      ensures spreadStore == map[] && volumeStore == map[]
    {
      this.config := config;
      periodOne, periodTwo, periodThree := [], [], [];
      spreadStore, volumeStore := map[], map[];
    }

    /** Step 3.1: the candle joins the back of every window. */
    method AppendCandle(c: Candle)
      requires Valid() && c.Valid()
      modifies this
      ensures Valid()
      ensures periodOne == Push(old(periodOne), c, config.periodOneLength)
      ensures periodTwo == Push(old(periodTwo), c, config.periodTwoLength)
      ensures periodThree == Push(old(periodThree), c, config.periodThreeLength)
      ensures Bars() == Step(config, old(Bars()), c.AsBar())
      ensures spreadStore == old(spreadStore) && volumeStore == old(volumeStore)
      ensures forall d :: d in Candles() ==> d in old(Candles()) || d == c
    {
      BarsOfPush(periodOne, c, config.periodOneLength);
      BarsOfPush(periodTwo, c, config.periodTwoLength);
      BarsOfPush(periodThree, c, config.periodThreeLength);
      periodOne := Push(periodOne, c, config.periodOneLength);
      periodTwo := Push(periodTwo, c, config.periodTwoLength);
      periodThree := Push(periodThree, c, config.periodThreeLength);
    }

    /** Step 5.2 for one window: every candle of window p gets the buckets of
        its spread and volume under key p; nothing else of it changes, so the
        windows already annotated (the ghost set `labelled`) stay annotated. */
    method AnnotateWindow(p: Period, ghost labelled: set<Period>)
      requires ValidConfig(config) && p in spreadStore && p in volumeStore
      requires forall q :: q in labelled ==> q != p && q in spreadStore && q in volumeStore && WindowLabelled(q)
      modifies set c | c in Window(p)
      ensures WindowLabelled(p)
      ensures forall c :: c in Candles() ==> c.anomaly == old(c.anomaly)
      ensures forall c, q :: c in Candles() && q != p ==>
        SameAt(c.spreadPercentiles, old(c.spreadPercentiles), q)
        && SameAt(c.volumePercentiles, old(c.volumePercentiles), q)
      ensures forall c, q :: c in Candles() && c !in Window(q) ==>
        SameAt(c.spreadPercentiles, old(c.spreadPercentiles), q)
        && SameAt(c.volumePercentiles, old(c.volumePercentiles), q)
      ensures forall q :: q in labelled ==> WindowLabelled(q)
    {
      var w := Window(p);
      var start, inc := config.percentileStart, config.percentileIncrements;
      for i := 0 to |w|
        invariant forall c :: c in w[..i] ==> Labelled(c, p, start, inc, spreadStore[p], volumeStore[p])
        invariant forall c, q :: c in w && q != p ==>
          SameAt(c.spreadPercentiles, old(c.spreadPercentiles), q)
          && SameAt(c.volumePercentiles, old(c.volumePercentiles), q)
        invariant forall c :: c in w ==> c.anomaly == old(c.anomaly)
      {
        var c := w[i];
        assert w[..i + 1] == w[..i] + [c];
        var spreadBucket := BucketOf(start, inc, spreadStore[p], c.spread);
        var volumeBucket := BucketOf(start, inc, volumeStore[p], c.volume);
        label Before:
        c.spreadPercentiles := c.spreadPercentiles[p := spreadBucket];
        c.volumePercentiles := c.volumePercentiles[p := volumeBucket];
        forall d, q | d in w && q != p
          ensures SameAt(d.spreadPercentiles, old(d.spreadPercentiles), q)
          ensures SameAt(d.volumePercentiles, old(d.volumePercentiles), q)
        {
          assert SameAt(old@Before(d.spreadPercentiles), old(d.spreadPercentiles), q);
          assert SameAt(old@Before(d.volumePercentiles), old(d.volumePercentiles), q);
        }
      }
      assert w[..|w|] == w;
      forall q | q in labelled
        ensures WindowLabelled(q)
      {
        forall c | c in Window(q)
          ensures Labelled(c, q, start, inc, spreadStore[q], volumeStore[q])
        {
          assert old(Labelled(c, q, start, inc, spreadStore[q], volumeStore[q]));
          if c in w {
            assert SameAt(c.spreadPercentiles, old(c.spreadPercentiles), q);
            assert SameAt(c.volumePercentiles, old(c.volumePercentiles), q);
          }
        }
      }
    }

    /** Step 5.1: each window's spread and volume breakpoints are stored. */
    method StoreBreakpoints()
      requires ValidConfig(config) && NonEmpty(Bars())
      modifies this
      ensures periodOne == old(periodOne) && periodTwo == old(periodTwo) && periodThree == old(periodThree)
      ensures StoresCurrent()
    {
      var ws := Bars();
      spreadStore, volumeStore := WindowBreakpoints(config, ws, spreadStore, volumeStore);
      forall p
        ensures |Window(p)| > 0 && p in spreadStore && p in volumeStore
        ensures spreadStore[p] == SpreadBreakpoints(config, BarsOf(Window(p)))
        ensures volumeStore[p] == VolumeBreakpoints(config, BarsOf(Window(p)))
      {
        BarsAt(p);
      }
    }

    /** Step 5.2 for every window in turn: each candle gets its buckets under
        the key of every window that holds it; its entries under other keys
        and its anomaly map are as before. */
    method AnnotateWindows()
      requires ValidConfig(config)
      requires forall p :: p in spreadStore && p in volumeStore
      modifies Candles()
      ensures WindowLabelled(PeriodOne) && WindowLabelled(PeriodTwo) && WindowLabelled(PeriodThree)
      ensures forall c :: c in Candles() ==> c.anomaly == old(c.anomaly)
      ensures forall c, q :: c in Candles() && c !in Window(q) ==>
        SameAt(c.spreadPercentiles, old(c.spreadPercentiles), q)
        && SameAt(c.volumePercentiles, old(c.volumePercentiles), q)
    {
      ghost var candles := Candles();
      AnnotateWindow(PeriodOne, {});
      assert Candles() == candles;
      AnnotateWindow(PeriodTwo, {PeriodOne});
      assert Candles() == candles;
      AnnotateWindow(PeriodThree, {PeriodOne, PeriodTwo});
      assert Candles() == candles;
      assert WindowLabelled(PeriodOne) && WindowLabelled(PeriodTwo);
    }

    /** update_percentiles: stores each window's breakpoints, then annotates
        every window. Afterwards every window is annotated, and each candle's
        entries for windows that do not hold it, and its anomaly map, are as
        before. */
    method UpdatePercentiles()
      requires Valid() && NonEmpty(Bars())
      modifies this, Candles()
      ensures periodOne == old(periodOne) && periodTwo == old(periodTwo) && periodThree == old(periodThree)
      ensures forall c :: c in Candles() ==> c.anomaly == old(c.anomaly)
      ensures forall c, q :: c in Candles() && c !in Window(q) ==>
        SameAt(c.spreadPercentiles, old(c.spreadPercentiles), q)
        && SameAt(c.volumePercentiles, old(c.volumePercentiles), q)
      ensures Valid()
      ensures AllAnnotated()
    {
      ghost var candles := Candles();
      StoreBreakpoints();
      assert Candles() == candles;
      assert forall c :: c in candles ==>
        && c.spreadPercentiles == old(c.spreadPercentiles)
        && c.volumePercentiles == old(c.volumePercentiles)
        && c.anomaly == old(c.anomaly);
      AnnotateWindows();
      assert StoresCurrent();
    }

    /** Whether each candle of window p counts as a high-spread bar: its
        stored spread bucket against the window's threshold. */
    function StoredSpreadFlags(p: Period): (r: seq<bool>)
      requires Keyed(p)
      reads this, Candles()
      ensures |r| == |Window(p)|
      ensures forall i :: 0 <= i < |r| ==>
        r[i] == (Window(p)[i].spreadPercentiles[p] > config.Trading(p).highSpreadThreshold)
    {
      var w := Window(p);
      seq(|w|, i requires 0 <= i < |w| reads w =>
        p in w[i].spreadPercentiles && w[i].spreadPercentiles[p] > config.Trading(p).highSpreadThreshold)
    }

    function StoredVolumeFlags(p: Period): (r: seq<bool>)
      requires Keyed(p)
      reads this, Candles()
      ensures |r| == |Window(p)|
      ensures forall i :: 0 <= i < |r| ==>
        r[i] == (Window(p)[i].volumePercentiles[p] > config.Trading(p).highVolumeThreshold)
    {
      var w := Window(p);
      seq(|w|, i requires 0 <= i < |w| reads w =>
        p in w[i].volumePercentiles && w[i].volumePercentiles[p] > config.Trading(p).highVolumeThreshold)
    }

    function StoredAnomalyFlags(p: Period): (r: seq<bool>)
      requires Keyed(p)
      reads this, Candles()
      ensures |r| == |Window(p)|
      ensures forall i :: 0 <= i < |r| ==>
        r[i] == (IntAbs(Window(p)[i].spreadPercentiles[p] - Window(p)[i].volumePercentiles[p])
                 > config.Trading(p).anomalyThreshold)
    {
      var w := Window(p);
      seq(|w|, i requires 0 <= i < |w| reads w =>
        p in w[i].spreadPercentiles && p in w[i].volumePercentiles
        && IntAbs(w[i].spreadPercentiles[p] - w[i].volumePercentiles[p]) > config.Trading(p).anomalyThreshold)
    }

    /** Step 7: the four bar counts of window p, each a sum over the window's
        candles of their stored flags and buckets, are the counts of the
        window's bars. */
    function StoredCounts(p: Period): (r: BarCounts)
      requires Keyed(p)
      reads this, Candles()
    {
      BarCounts(CountTrue(UpFlags(BarsOf(Window(p)))), CountTrue(StoredSpreadFlags(p)),
                CountTrue(StoredVolumeFlags(p)), CountTrue(StoredAnomalyFlags(p)))
    }

    /** Every candle of window p carries under key p the buckets of its
        spread and volume within the window. */
    predicate Bucketed(p: Period)
      requires ValidConfig(config)
      reads this, Candles()
    {
      var w := Window(p);
      && |w| > 0
      && Keyed(p)
      && forall i :: 0 <= i < |w| ==>
           && w[i].spreadPercentiles[p] == SpreadBucket(config, BarsOf(w), BarsOf(w)[i])
           && w[i].volumePercentiles[p] == VolumeBucket(config, BarsOf(w), BarsOf(w)[i])
    }

    lemma AnnotatedBucketed(p: Period)
      requires Valid() && Annotated(p)
      ensures Bucketed(p)
    {
      AnnotatedKeyed(p);
      var w, bars := Window(p), BarsOf(Window(p));
      forall i | 0 <= i < |w|
        ensures w[i].spreadPercentiles[p] == SpreadBucket(config, bars, bars[i])
        ensures w[i].volumePercentiles[p] == VolumeBucket(config, bars, bars[i])
      {
        assert w[i] in Candles();
        CandleBucketAt(w[i], p);
      }
    }

    /** The counts read off a bucketed window's candles are the counts of
        its bars. */
    lemma StoredCountsAgree(p: Period)
      requires ValidConfig(config) && Bucketed(p)
      ensures Keyed(p) && StoredCounts(p) == WindowCounts(config, p, BarsOf(Window(p)))
      ensures StoredCounts(p) == WindowCounts(config, p, Bars().At(p))
    {
      BarsAt(p);
      SpreadFlagsAgree(p);
      VolumeFlagsAgree(p);
      AnomalyFlagsAgree(p);
    }

    lemma SpreadFlagsAgree(p: Period)
      requires ValidConfig(config) && Bucketed(p)
      ensures Keyed(p) && StoredSpreadFlags(p) == HighSpreadFlags(config, p, BarsOf(Window(p)))
    {
      assert StoredSpreadFlags(p) == HighSpreadFlags(config, p, BarsOf(Window(p)));
    }

    lemma VolumeFlagsAgree(p: Period)
      requires ValidConfig(config) && Bucketed(p)
      ensures Keyed(p) && StoredVolumeFlags(p) == HighVolumeFlags(config, p, BarsOf(Window(p)))
    {
      assert StoredVolumeFlags(p) == HighVolumeFlags(config, p, BarsOf(Window(p)));
    }

    lemma AnomalyFlagsAgree(p: Period)
      requires ValidConfig(config) && Bucketed(p)
      ensures Keyed(p) && StoredAnomalyFlags(p) == AnomalyFlags(config, p, BarsOf(Window(p)))
    {
      assert StoredAnomalyFlags(p) == AnomalyFlags(config, p, BarsOf(Window(p)));
    }

    /** Every window's stored counts are the counts of its bars. */
    predicate CountsReady()
      requires ValidConfig(config) && NonEmpty(Bars())
      reads this, Candles()
    {
      forall p :: Keyed(p) && StoredCounts(p) == WindowCounts(config, p, Bars().At(p))
    }

    /** Step 7 for every window. */
    function AllStoredCounts(): (m: map<Period, BarCounts>)
      requires forall p :: Keyed(p)
      reads this, Candles()
      ensures forall p :: p in m && m[p] == StoredCounts(p)
    {
      AllPeriodsComplete();
      map p | p in AllPeriods :: StoredCounts(p)
    }

    /** The candle whose signals are detected: well formed, and carrying under
        every window the buckets of its spread and volume within it. */
    predicate Detectable(c: Candle)
      requires ValidConfig(config) && NonEmpty(Bars())
      reads this, c
    {
      && c.Valid()
      && c.spreadPercentiles == SpreadBuckets(config, Bars(), c.AsBar())
      && c.volumePercentiles == VolumeBuckets(config, Bars(), c.AsBar())
    }

    /** Once every window is annotated, the stored counts are ready and any
        candle all three windows hold is detectable. */
    lemma AnnotatedReady(c: Candle)
      requires Valid() && NonEmpty(Bars()) && AllAnnotated()
      requires c in periodOne && c in periodTwo && c in periodThree
      ensures CountsReady() && Detectable(c)
    {
      AllBucketed();
      BucketedCountsReady();
      assert c in Candles();
      BucketedHoldsBuckets(c);
      CandleBuckets(c);
    }

    lemma AllBucketed()
      requires Valid() && AllAnnotated()
      ensures Bucketed(PeriodOne) && Bucketed(PeriodTwo) && Bucketed(PeriodThree)
    {
      AnnotatedBucketed(PeriodOne);
      AnnotatedBucketed(PeriodTwo);
      AnnotatedBucketed(PeriodThree);
    }

    lemma BucketedAt(p: Period)
      requires ValidConfig(config)
      requires Bucketed(PeriodOne) && Bucketed(PeriodTwo) && Bucketed(PeriodThree)
      ensures Bucketed(p)
    {
      match p
      case PeriodOne =>
      case PeriodTwo =>
      case PeriodThree =>
    }

    lemma BucketedCountsReady()
      requires ValidConfig(config) && NonEmpty(Bars())
      requires Bucketed(PeriodOne) && Bucketed(PeriodTwo) && Bucketed(PeriodThree)
      ensures CountsReady()
    {
      forall p
        ensures Keyed(p) && StoredCounts(p) == WindowCounts(config, p, Bars().At(p))
      {
        BucketedAt(p);
        StoredCountsAgree(p);
      }
    }

    /** Every candle of an annotated window has its key. */
    lemma AnnotatedKeyed(p: Period)
      requires ValidConfig(config) && Annotated(p)
      ensures Keyed(p)
    {
      forall c | c in Window(p)
        ensures p in c.spreadPercentiles && p in c.volumePercentiles
      {
        assert Labelled(c, p, config.percentileStart, config.percentileIncrements, spreadStore[p], volumeStore[p]);
      }
    }

    /** Steps 7 and 8, then the multiple bar score: each window's bull, bear
        and volume-backed flags from its bar counts, then the bull and bear
        adjustments of each window in order. */
    method MultiBarSignal() returns (score: real)
      requires ValidConfig(config) && NonEmpty(Bars()) && CountsReady()
      ensures score == MultiBarScore(config, Bars())
    {
      ghost var ws := Bars();
      var counts := AllStoredCounts();
      var signals := FlagWindows(config, counts);
      CountsGiveSignals(config, ws, counts, signals);
      score := ScoreSignals(signals);
    }

    /** A candle of an annotated window carries under p the buckets of its
        spread and volume within that window. */
    lemma CandleBucketAt(c: Candle, p: Period)
      requires ValidConfig(config) && Annotated(p) && c in Window(p) && c.Valid()
      ensures p in c.spreadPercentiles && p in c.volumePercentiles
      ensures c.spreadPercentiles[p] == SpreadBucket(config, BarsOf(Window(p)), c.AsBar())
      ensures c.volumePercentiles[p] == VolumeBucket(config, BarsOf(Window(p)), c.AsBar())
    {
      assert Labelled(c, p, config.percentileStart, config.percentileIncrements, spreadStore[p], volumeStore[p]);
    }

    /** Candle c carries under p the buckets of its spread and volume within
        window p. */
    predicate HoldsBuckets(c: Candle, p: Period)
      requires ValidConfig(config) && NonEmpty(Bars())
      reads this, c
    {
      && p in c.spreadPercentiles && p in c.volumePercentiles
      && c.spreadPercentiles[p] == SpreadBucket(config, Bars().At(p), c.AsBar())
      && c.volumePercentiles[p] == VolumeBucket(config, Bars().At(p), c.AsBar())
    }

    /** A candle that window p holds carries its buckets under p. */
    lemma BucketedHolds(c: Candle, p: Period)
      requires ValidConfig(config) && NonEmpty(Bars()) && Bucketed(p) && c in Window(p)
      ensures HoldsBuckets(c, p)
    {
      var w := Window(p);
      var i :| 0 <= i < |w| && w[i] == c;
      assert BarsOf(w)[i] == c.AsBar();
      BarsAt(p);
    }

    /** A candle held by every window carries its buckets under each. */
    lemma BucketedHoldsBuckets(c: Candle)
      requires ValidConfig(config) && NonEmpty(Bars())
      requires Bucketed(PeriodOne) && Bucketed(PeriodTwo) && Bucketed(PeriodThree)
      requires c in periodOne && c in periodTwo && c in periodThree
      ensures forall p :: HoldsBuckets(c, p)
    {
      forall p ensures HoldsBuckets(c, p) {
        BucketedAt(p);
        InEveryWindow(c, p);
        BucketedHolds(c, p);
      }
    }

    lemma InEveryWindow(c: Candle, p: Period)
      requires c in periodOne && c in periodTwo && c in periodThree
      ensures c in Window(p)
    {
      match p
      case PeriodOne =>
      case PeriodTwo =>
      case PeriodThree =>
    }

    /** Such a candle's bucket maps are exactly its buckets against the
        three windows. */
    lemma CandleBuckets(c: Candle)
      requires ValidConfig(config) && NonEmpty(Bars()) && forall p :: HoldsBuckets(c, p)
      ensures c.spreadPercentiles == SpreadBuckets(config, Bars(), c.AsBar())
      ensures c.volumePercentiles == VolumeBuckets(config, Bars(), c.AsBar())
    {
      var ws, b := Bars(), c.AsBar();
      forall p ensures p in c.spreadPercentiles && p in c.volumePercentiles
        && c.spreadPercentiles[p] == SpreadBucket(config, ws.At(p), b)
        && c.volumePercentiles[p] == VolumeBucket(config, ws.At(p), b)
      {
        assert HoldsBuckets(c, p);
      }
      BucketMapsEqual(config, ws, b, c.spreadPercentiles, c.volumePercentiles);
    }

    /** detect_signals: the four sub-scores of the candle, which every window
        holds, against the annotated windows. The ADX error of window three
        propagates. */
    method DetectSignals(thisCandle: Candle) returns (r: Result<Signals, AdxError>)
      requires ValidConfig(config) && NonEmpty(Bars()) && CountsReady() && Detectable(thisCandle)
      ensures r == SignalsOf(config, Bars(), thisCandle.AsBar())
    {
      ghost var ws := Bars();
      assert ws.one[|ws.one| - 1] == periodOne[|periodOne| - 1].AsBar();
      var multiple := MultiBarSignal();
      var single := SingleCandleSignal(thisCandle);
      var adx := CalculateAdx(periodThree, AdxPeriod);
      if adx.Failure? {
        SignalsOfError(config, ws, thisCandle.AsBar(), adx.error);
        return Failure(adx.error);
      }
      SignalsOfParts(config, ws, thisCandle.AsBar(), adx.value);
      var trend := TrendSignal(adx.value);
      var regime := IdentifyAccOrDist(periodThree, periodOne);
      var accDist := AccDistSignal(regime, thisCandle);
      r := Success(Signals(single, trend, multiple, accDist));
    }

    /** Steps 5 and 6 of process_data for the candle just appended: the
        windows are annotated, then the candle's signals are detected. The
        windows keep their candles. */
    method AnnotateAndDetect(c: Candle) returns (signals: Result<Signals, AdxError>)
      requires Valid() && NonEmpty(Bars())
      requires c in periodOne && c in periodTwo && c in periodThree
      modifies this, Candles()
      ensures Valid()
      ensures periodOne == old(periodOne) && periodTwo == old(periodTwo) && periodThree == old(periodThree)
      ensures signals == SignalsOf(config, Bars(), c.AsBar())
    {
      UpdatePercentiles();
      AnnotatedReady(c);
      signals := DetectSignals(c);
    }

    /** One turn of process_data's loop on a row that does not stop it: the
        row's candle joins every window and, once window three is full, is
        scored. Either the loop ends here with the run's result (done), or
        the run goes on from the next row with the new trade signal. */
    method ProcessRow(rows: seq<Row>, signal: real) returns (done: bool, r: Result<real, AdxError>)
      requires Valid() && |rows| > 0 && !Stops(config, rows[0])
      modifies this, Candles()
      ensures Valid()
      ensures forall d :: d in Candles() ==> d in old(Candles()) || fresh(d)
      ensures done ==> (r, Bars()) == Run(config, old(Bars()), rows, signal)
      ensures !done ==> r.Success? && Run(config, old(Bars()), rows, signal) == Run(config, Bars(), rows[1..], r.value)
    {
      var row := rows[0];
      var c := new Candle(row.bar.time, row.bar.volume, row.bar.open, row.bar.high, row.bar.low, row.bar.close);
      assert c.AsBar() == row.bar;
      AppendCandle(c);
      if |periodThree| < config.periodThreeLength {
        return false, Success(signal);
      }
      var signals := AnnotateAndDetect(c);
      if signals.Failure? {
        return true, Failure(signals.error);
      }
      return false, Success(signals.value.Total());
    }

    /** process_data: every row up to the MAX_ROWS cut-off becomes a candle
        that joins every window; once window three is full the windows are
        annotated and the candle's signals are scored. Returns the last
        trade signal, or the error that stopped it: an empty frame has no
        last index label, so it fails before the loop. The windows end as
        the run leaves them. */
    method ProcessData(rows: seq<Row>) returns (r: Result<real, ProcessError>)
      requires Valid()
      modifies this, Candles()
      ensures Valid()
      ensures (r, Bars()) == ProcessFrame(config, old(Bars()), rows)
    {
      if |rows| == 0 {
        return Failure(EmptyFrame);
      }
      var tradeSignal := 0.0;
      var i := 0;
      while i < |rows|
        invariant i <= |rows|
        invariant Valid()
        invariant forall d :: d in Candles() ==> d in old(Candles()) || fresh(d)
        invariant Run(config, old(Bars()), rows, 0.0) == Run(config, Bars(), rows[i..], tradeSignal)
      {
        assert rows[i..][0] == rows[i] && rows[i..][1..] == rows[i + 1..];
        if Stops(config, rows[i]) {
          break;
        }
        var done, next := ProcessRow(rows[i..], tradeSignal);
        if done {
          return if next.Success? then Success(next.value) else Failure(Scoring(next.error));
        }
        tradeSignal := next.value;
        i := i + 1;
      }
      r := Success(tradeSignal);
    }
  }
}
