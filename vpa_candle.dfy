/** The Candle value object of the VPA engine (vpa/app.py): a bar's OHLCV
    values, the quantities derived from them, the three candle-pattern flags
    and the per-window percentile buckets that the analyser writes into it. */
module VpaCandle {
  import opened Numeric

  /** The three rolling windows, keyed "period_one", "period_two" and
      "period_three" in the source. */
  datatype Period = PeriodOne | PeriodTwo | PeriodThree

  /** The windows in the order the analyser's dictionary lists them. */
  const Periods: seq<Period> := [PeriodOne, PeriodTwo, PeriodThree]

  /** The class-level CONFIG_* multipliers, all 2. */
  const StarWickToSpread: real := 2.0
  const StarWickToLowerWick: real := 2.0
  const HammerWickToSpread: real := 2.0
  const HammerWickToUpperWick: real := 2.0
  const DojiWicksToSpread: real := 2.0

  /** The raw values a Candle is built from: one row of the price data. */
  datatype Bar = Bar(time: int, volume: real, open: real, high: real, low: real, close: real)

  predicate IsUpBar(b: Bar) { b.close > b.open }
  function SpreadOf(b: Bar): real { Abs(b.close - b.open) }
  function UpperWickOf(b: Bar): real { b.high - b.close }
  function LowerWickOf(b: Bar): real { b.close - b.low }

  /** The three pattern flags of a bar. */
  datatype Shape = Shape(shootingStar: bool, hammer: bool, lld: bool)

  /** The flags a bar with this spread and these wicks is given: each raw rule,
      then the long-legged doji clearing the other two. */
  function ShapeOf(spread: real, upperWick: real, lowerWick: real): Shape
  {
    var star := upperWick > spread * StarWickToSpread && upperWick > lowerWick * StarWickToLowerWick;
    var hammer := lowerWick > spread * HammerWickToSpread && lowerWick > upperWick * HammerWickToUpperWick;
    var lld := upperWick > spread * DojiWicksToSpread && lowerWick > spread * DojiWicksToSpread;
    if lld then Shape(false, false, true) else Shape(star, hammer, false)
  }

  /** A long-legged doji is never also a shooting star or a hammer, and it is
      flagged exactly when both wicks exceed twice the spread. */
  lemma DojiOverride(spread: real, upperWick: real, lowerWick: real)
    ensures var s := ShapeOf(spread, upperWick, lowerWick);
      s.lld ==> !s.shootingStar && !s.hammer
    ensures ShapeOf(spread, upperWick, lowerWick).lld
      <==> upperWick > 2.0 * spread && lowerWick > 2.0 * spread
  {
  }

  /** A bar with a non-negative spread is never both a shooting star and a
      hammer: each needs its wick to be more than twice the other one. */
  lemma StarAndHammerExclusive(spread: real, upperWick: real, lowerWick: real)
    requires spread >= 0.0
    ensures var s := ShapeOf(spread, upperWick, lowerWick);
      !(s.shootingStar && s.hammer)
  {
  }

  /** The flags survive the doji override: some flag is set exactly when at
      least one of the three raw wick rules fires. */
  lemma PatternIffSomeRule(spread: real, upperWick: real, lowerWick: real)
    ensures var s := ShapeOf(spread, upperWick, lowerWick);
      var starRule := upperWick > 2.0 * spread && upperWick > 2.0 * lowerWick;
      var hammerRule := lowerWick > 2.0 * spread && lowerWick > 2.0 * upperWick;
      var dojiRule := upperWick > 2.0 * spread && lowerWick > 2.0 * spread;
      (s.shootingStar || s.hammer || s.lld) <==> (starRule || hammerRule || dojiRule)
  {
  }

  /** The pattern flags a Candle built from b carries. */
  function BarShape(b: Bar): Shape
  {
    ShapeOf(SpreadOf(b), UpperWickOf(b), LowerWickOf(b))
  }

  /** The bars the candles were built from. */
  function BarsOf(cs: seq<Candle>): (r: seq<Bar>)
    ensures |r| == |cs|
    ensures forall i :: 0 <= i < |cs| ==> r[i] == cs[i].AsBar()
  {
    seq(|cs|, i requires 0 <= i < |cs| => cs[i].AsBar())
  }

  lemma BarsOfAppend(cs: seq<Candle>, c: Candle)
    ensures BarsOf(cs + [c]) == BarsOf(cs) + [c.AsBar()]
  {
  }

  class Candle {
    const time: int
    const volume: real
    const open: real
    const high: real
    const low: real
    const close: real

    const upBar: bool
    const spread: real
    const highLowSpread: real
    const highOpenSpread: real
    const lowCloseSpread: real
    const highCloseSpread: real
    const upperWick: real
    const lowerWick: real

    const shootingStar: bool
    const hammer: bool
    const lld: bool

    /** Percentile bucket of this bar's spread and volume in each window. */
    var spreadPercentiles: map<Period, int>
    var volumePercentiles: map<Period, int>
    var anomaly: map<Period, int>

    /** The values this candle was built from. */
    function AsBar(): Bar
    {
      Bar(time, volume, open, high, low, close)
    }

    /** The derived constants agree with the OHLC values. */
    predicate Valid()
    {
      && upBar == IsUpBar(AsBar())
      && spread == SpreadOf(AsBar())
      && highLowSpread == high - low
      && highOpenSpread == high - open
      && lowCloseSpread == low - close
      && highCloseSpread == high - close
      && upperWick == UpperWickOf(AsBar())
      && lowerWick == LowerWickOf(AsBar())
      && Shape(shootingStar, hammer, lld) == BarShape(AsBar())
    }

    /** Derives the spreads and wicks, sets each pattern flag from its rule and
        lets a long-legged doji reset the other two. */
    constructor (time: int, volume: real, candleOpen: real, high: real, low: real, close: real)
      ensures Valid()
      ensures this.time == time && this.volume == volume && this.open == candleOpen
      ensures this.high == high && this.low == low && this.close == close
      ensures spreadPercentiles == map[] && volumePercentiles == map[] && anomaly == map[]
    {
      this.time := time;
      this.volume := volume;
      this.open := candleOpen;
      this.high := high;
      this.low := low;
      this.close := close;
      upBar := close > candleOpen;
      var sp := Abs(close - candleOpen);
      spread := sp;
      highLowSpread := high - low;
      highOpenSpread := high - candleOpen;
      lowCloseSpread := low - close;
      highCloseSpread := high - close;
      var uw, lw := high - close, close - low;
      upperWick := uw;
      lowerWick := lw;

      var star, ham, doji := false, false, false;
      if uw > sp * StarWickToSpread && uw > lw * StarWickToLowerWick {
        star := true;
      }
      if lw > sp * HammerWickToSpread && lw > uw * HammerWickToUpperWick {
        ham := true;
      }
      if uw > sp * DojiWicksToSpread && lw > sp * DojiWicksToSpread {
        doji := true;
        star := false;
        ham := false;
      }
      shootingStar := star;
      hammer := ham;
      lld := doji;
      spreadPercentiles := map[];
      volumePercentiles := map[];
      anomaly := map[];
    }

    predicate IsCandlePattern()
    {
      shootingStar || hammer || lld
    }

    /** Replaces the spread buckets wholesale (a plain assignment). */
    method SetSpreadPercentiles(value: map<Period, int>)
      modifies this
      ensures spreadPercentiles == value
      ensures volumePercentiles == old(volumePercentiles) && anomaly == old(anomaly)
    {
      spreadPercentiles := value;
    }

    /** Replaces the volume buckets, then records volume minus spread bucket
        for each key of the new map, in the map's order. A key with no spread
        bucket stops the update there (KeyError): ok is false and only the
        keys before it were written. */
    method SetVolumePercentiles(value: seq<(Period, int)>) returns (ok: bool)
      requires DistinctKeys(value)
      modifies this
      ensures volumePercentiles == MapOf(value)
      ensures spreadPercentiles == old(spreadPercentiles)
      ensures anomaly == WriteAnomalies(old(anomaly), value, spreadPercentiles)
      ensures ok <==> KeysPresent(value, spreadPercentiles)
    {
      volumePercentiles := MapOf(value);
      var i := 0;
      ok := true;
      while i < |value|
        invariant 0 <= i <= |value|
        invariant spreadPercentiles == old(spreadPercentiles)
        invariant volumePercentiles == MapOf(value)
        invariant KeysPresent(value[..i], spreadPercentiles)
        invariant WriteAnomalies(old(anomaly), value, spreadPercentiles)
          == WriteAnomalies(anomaly, value[i..], spreadPercentiles)
      {
        var (key, _) := value[i];
        if key !in spreadPercentiles {
          ok := false;
          KeysPresentPrefix(value, i, spreadPercentiles);
          return;
        }
        assert value[i..] == [value[i]] + value[i + 1..];
        anomaly := anomaly[key := volumePercentiles[key] - spreadPercentiles[key]];
        MapOfHasEntry(value, i);
        assert value[..i + 1] == value[..i] + [value[i]];
        KeysPresentAppend(value[..i], value[i], spreadPercentiles);
        i := i + 1;
      }
      assert value[..i] == value;
    }
  }

  /** A Python dict given as its entries in insertion order. */
  predicate DistinctKeys(entries: seq<(Period, int)>)
  {
    forall i, j :: 0 <= i < j < |entries| ==> entries[i].0 != entries[j].0
  }

  function MapOf(entries: seq<(Period, int)>): (m: map<Period, int>)
    ensures m.Keys == set i | 0 <= i < |entries| :: entries[i].0
  {
    if |entries| == 0 then map[]
    else MapOf(entries[1..])[entries[0].0 := entries[0].1]
  }

  lemma {:induction false} MapOfHasEntry(entries: seq<(Period, int)>, i: nat)
    requires DistinctKeys(entries)
    requires i < |entries|
    ensures MapOf(entries)[entries[i].0] == entries[i].1
    decreases |entries|
  {
    if i > 0 {
      assert entries[1..][i - 1] == entries[i];
      MapOfHasEntry(entries[1..], i - 1);
    }
  }

  predicate KeysPresent(entries: seq<(Period, int)>, spread: map<Period, int>)
  {
    forall i :: 0 <= i < |entries| ==> entries[i].0 in spread
  }

  lemma KeysPresentAppend(entries: seq<(Period, int)>, e: (Period, int), spread: map<Period, int>)
    requires KeysPresent(entries, spread) && e.0 in spread
    ensures KeysPresent(entries + [e], spread)
  {
  }

  lemma KeysPresentPrefix(entries: seq<(Period, int)>, i: nat, spread: map<Period, int>)
    requires i < |entries| && entries[i].0 !in spread
    ensures !KeysPresent(entries, spread)
  {
  }

  /** The anomaly map after the setter's loop: entries are applied in order
      until the first key that has no spread bucket. */
  function WriteAnomalies(anomaly: map<Period, int>, entries: seq<(Period, int)>,
                          spread: map<Period, int>): map<Period, int>
    decreases |entries|
  {
    if |entries| == 0 || entries[0].0 !in spread then anomaly
    else WriteAnomalies(anomaly[entries[0].0 := entries[0].1 - spread[entries[0].0]],
                        entries[1..], spread)
  }

  /** When every key has a spread bucket, the setter records volume minus
      spread for every key of the new map and leaves other keys alone. */
  lemma {:induction false} WriteAnomaliesComplete(anomaly: map<Period, int>,
                                                  entries: seq<(Period, int)>,
                                                  spread: map<Period, int>)
    requires KeysPresent(entries, spread)
    requires DistinctKeys(entries)
    ensures var r := WriteAnomalies(anomaly, entries, spread);
      && r.Keys == anomaly.Keys + MapOf(entries).Keys
      && (forall k :: k in MapOf(entries) ==> r[k] == MapOf(entries)[k] - spread[k])
      && (forall k :: k in anomaly && k !in MapOf(entries) ==> r[k] == anomaly[k])
    decreases |entries|
  {
    if |entries| > 0 {
      var e, rest := entries[0], entries[1..];
      var a' := anomaly[e.0 := e.1 - spread[e.0]];
      WriteAnomaliesComplete(a', rest, spread);
      forall j | 0 <= j < |rest|
        ensures rest[j].0 != e.0
      {
        assert rest[j] == entries[j + 1];
      }
      assert e.0 !in MapOf(rest);
    }
  }

  /** The bar (open 1, high 2, low 0.5, close 2) is an up bar with no pattern. */
  lemma UpBarWithoutPattern()
    ensures var s := ShapeOf(Abs(2.0 - 1.0), 2.0 - 2.0, 2.0 - 0.5);
      2.0 > 1.0 && !s.shootingStar && !s.hammer && !s.lld
  {
  }
}
