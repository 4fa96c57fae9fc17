/** Accumulation / distribution detection of the VPA engine (vpa/app.py):
    heavy volume in the short window while the last close sits at an extreme
    of the long window's closing prices. */
module VpaRegime {
  import opened NumpyPercentile
  import opened VpaCandle

  /** The source's (True, "Acc"), (True, "Dist") and (False, ""). */
  datatype Regime = NoRegime | Accumulation | Distribution

  /** How many short-window volumes it takes to call the volume heavy. */
  const HeavyVolumeBars: nat := 3

  function Volumes(cs: seq<Bar>): (r: seq<real>)
    ensures |r| == |cs| && forall i :: 0 <= i < |cs| ==> r[i] == cs[i].volume
  {
    seq(|cs|, i requires 0 <= i < |cs| => cs[i].volume)
  }

  function Closes(cs: seq<Bar>): (r: seq<real>)
    ensures |r| == |cs| && forall i :: 0 <= i < |cs| ==> r[i] == cs[i].close
  {
    seq(|cs|, i requires 0 <= i < |cs| => cs[i].close)
  }

  /** The number of values strictly above the threshold. */
  function CountAbove(s: seq<real>, threshold: real): (n: nat)
    ensures n <= |s|
  {
    if |s| == 0 then 0
    else CountAbove(s[..|s| - 1], threshold) + (if s[|s| - 1] > threshold then 1 else 0)
  }

  /** At least three short-window volumes above the long window's 65th
      percentile volume. */
  predicate Heavy(longVolumes: seq<real>, shortVolumes: seq<real>)
    requires |longVolumes| > 0
  {
    CountAbove(shortVolumes, Percentile(longVolumes, 65.0)) >= HeavyVolumeBars
  }

  /** Every value above the threshold: all of them count. */
  lemma {:induction false} CountAboveAll(s: seq<real>, threshold: real)
    requires forall i :: 0 <= i < |s| ==> s[i] > threshold
    ensures CountAbove(s, threshold) == |s|
  {
    if |s| > 0 {
      CountAboveAll(s[..|s| - 1], threshold);
    }
  }

  /** No value above the threshold: none count. */
  lemma {:induction false} CountAboveNone(s: seq<real>, threshold: real)
    requires forall i :: 0 <= i < |s| ==> s[i] <= threshold
    ensures CountAbove(s, threshold) == 0
  {
    if |s| > 0 {
      CountAboveNone(s[..|s| - 1], threshold);
    }
  }

  /** identify_acc_or_dist over the long window's volumes and closes, the
      short window's volumes and the short window's last close. */
  function AccOrDist(longVolumes: seq<real>, longCloses: seq<real>,
                     shortVolumes: seq<real>, lastClose: real): Regime
    requires |longVolumes| > 0 && |longCloses| > 0
  {
    var heavy := Heavy(longVolumes, shortVolumes);
    var nearLows := lastClose < Percentile(longCloses, 20.0);
    var nearHighs := lastClose > Percentile(longCloses, 80.0);
    if heavy && nearLows then Accumulation
    else if heavy && nearHighs then Distribution
    else NoRegime
  }

  /** Both regimes need heavy volume, and the Acc-before-Dist order never
      matters: a close below the 20th percentile is never above the 80th, so
      each regime is decided by its own price test alone. */
  lemma RegimeConditions(longVolumes: seq<real>, longCloses: seq<real>,
                         shortVolumes: seq<real>, lastClose: real)
    requires |longVolumes| > 0 && |longCloses| > 0
    ensures AccOrDist(longVolumes, longCloses, shortVolumes, lastClose) == Accumulation
      <==> Heavy(longVolumes, shortVolumes) && lastClose < Percentile(longCloses, 20.0)
    ensures AccOrDist(longVolumes, longCloses, shortVolumes, lastClose) == Distribution
      <==> Heavy(longVolumes, shortVolumes) && lastClose > Percentile(longCloses, 80.0)
    ensures AccOrDist(longVolumes, longCloses, shortVolumes, lastClose) == NoRegime
      <==> (!Heavy(longVolumes, shortVolumes)
            || Percentile(longCloses, 20.0) <= lastClose <= Percentile(longCloses, 80.0))
  {
    PercentileMonotone(longCloses, 20.0, 80.0);
  }

  // Fixtures: the regime test's concrete windows, worked through. They are
  // examples of the rules above, not properties; RegimeConditions states the
  // rules for every input.

  /** The test fixture's long-window volumes 100..300 have 65th percentile 230. */
  lemma FixtureVolumePercentile(volumes: seq<real>)
    requires volumes == [100.0, 150.0, 200.0, 250.0, 300.0]
    ensures Percentile(volumes, 65.0) == 230.0
  {
    PercentileBetween(volumes, 65.0, 2, 0.6);
  }

  /** Its closes 10..30 have 20th percentile 14 ... */
  lemma FixtureLowClosePercentile(closes: seq<real>)
    requires closes == [10.0, 15.0, 20.0, 25.0, 30.0]
    ensures Percentile(closes, 20.0) == 14.0
  {
    PercentileBetween(closes, 20.0, 0, 0.8);
  }

  /** ... and 80th percentile 26. */
  lemma FixtureHighClosePercentile(closes: seq<real>)
    requires closes == [10.0, 15.0, 20.0, 25.0, 30.0]
    ensures Percentile(closes, 80.0) == 26.0
  {
    PercentileBetween(closes, 80.0, 3, 0.2);
  }

  /** On that window, short-window volumes 240..280 are heavy ... */
  lemma FixtureHeavy(volumes: seq<real>, short: seq<real>)
    requires volumes == [100.0, 150.0, 200.0, 250.0, 300.0]
    requires short == [240.0, 250.0, 260.0, 270.0, 280.0]
    ensures Heavy(volumes, short)
  {
    FixtureVolumePercentile(volumes);
    CountAboveAll(short, 230.0);
  }

  /** ... so a last close of 8 gives Acc ... */
  lemma FixtureAccumulation(volumes: seq<real>, closes: seq<real>, short: seq<real>)
    requires volumes == [100.0, 150.0, 200.0, 250.0, 300.0]
    requires closes == [10.0, 15.0, 20.0, 25.0, 30.0]
    requires short == [240.0, 250.0, 260.0, 270.0, 280.0]
    ensures AccOrDist(volumes, closes, short, 8.0) == Accumulation
  {
    FixtureHeavy(volumes, short);
    FixtureLowClosePercentile(closes);
  }

  /** ... and a last close of 32 gives Dist ... */
  lemma FixtureDistribution(volumes: seq<real>, closes: seq<real>, short: seq<real>)
    requires volumes == [100.0, 150.0, 200.0, 250.0, 300.0]
    requires closes == [10.0, 15.0, 20.0, 25.0, 30.0]
    requires short == [240.0, 250.0, 260.0, 270.0, 280.0]
    ensures AccOrDist(volumes, closes, short, 32.0) == Distribution
  {
    FixtureHeavy(volumes, short);
    FixtureLowClosePercentile(closes);
    FixtureHighClosePercentile(closes);
  }

  /** ... and light volumes (60..100) give nothing. */
  lemma FixtureNeutral(volumes: seq<real>, closes: seq<real>, short: seq<real>)
    requires volumes == [100.0, 150.0, 200.0, 250.0, 300.0]
    requires closes == [10.0, 15.0, 20.0, 25.0, 30.0]
    requires short == [60.0, 70.0, 80.0, 90.0, 100.0]
    ensures AccOrDist(volumes, closes, short, 22.0) == NoRegime
  {
    FixtureVolumePercentile(volumes);
    CountAboveNone(short, 230.0);
    RegimeConditions(volumes, closes, short, 22.0);
  }

  /** identify_acc_or_dist as the source computes it: collect the long
      window's volumes and closes, take their percentiles, count the heavy
      short-window bars, then test the last close. */
  method IdentifyAccOrDist(periodThree: seq<Candle>, periodOne: seq<Candle>) returns (r: Regime)
    requires |periodThree| > 0 && |periodOne| > 0
    ensures r == AccOrDist(Volumes(BarsOf(periodThree)), Closes(BarsOf(periodThree)),
                           Volumes(BarsOf(periodOne)), periodOne[|periodOne| - 1].close)
  {
    var volumeStats, priceStats := [], [];
    var i := 0;
    while i < |periodThree|
      invariant 0 <= i <= |periodThree|
      invariant volumeStats == Volumes(BarsOf(periodThree[..i])) && priceStats == Closes(BarsOf(periodThree[..i]))
    {
      volumeStats := volumeStats + [periodThree[i].volume];
      priceStats := priceStats + [periodThree[i].close];
      i := i + 1;
    }
    assert periodThree[..i] == periodThree;
    var volumePercentiles := Percentiles(volumeStats, [65.0, 90.0]);
    var pricePercentiles := Percentiles(priceStats, [10.0, 20.0, 80.0]);

    var highVolumeCount := 0;
    i := 0;
    while i < |periodOne|
      invariant 0 <= i <= |periodOne|
      invariant highVolumeCount == CountAbove(Volumes(BarsOf(periodOne[..i])), volumePercentiles[0])
    {
      assert Volumes(BarsOf(periodOne[..i + 1]))[..i] == Volumes(BarsOf(periodOne[..i]));
      if periodOne[i].volume > volumePercentiles[0] {
        highVolumeCount := highVolumeCount + 1;
      }
      i := i + 1;
    }
    assert periodOne[..i] == periodOne;
    var last := periodOne[|periodOne| - 1].close;
    var nearLows := last < pricePercentiles[1];
    var nearHighs := last > pricePercentiles[2];
    if highVolumeCount >= 3 && nearLows {
      r := Accumulation;
    } else if highVolumeCount >= 3 && nearHighs {
      r := Distribution;
    } else {
      r := NoRegime;
    }
  }
}
