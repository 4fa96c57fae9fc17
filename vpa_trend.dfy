/** Trend measures of the VPA engine (vpa/app.py): true range, directional
    movement and the Wilder-smoothed average directional index (ADX). */
module VpaTrend {
  import opened Numeric
  import opened Results
  import opened VpaCandle

  /** The greatest of high - low, |high - previous close| and
      |low - previous close|. */
  function TrueRange(prev: Bar, cur: Bar): (r: real)
    ensures r >= cur.high - cur.low
    ensures r >= Abs(cur.high - prev.close) && r >= Abs(cur.low - prev.close)
    ensures r == cur.high - cur.low || r == Abs(cur.high - prev.close) || r == Abs(cur.low - prev.close)
    ensures r >= 0.0
  {
    Max(cur.high - cur.low, Max(Abs(cur.high - prev.close), Abs(cur.low - prev.close)))
  }

  /** DM+: the rise of the high, when it beats the fall of the low. */
  function DmPlus(prev: Bar, cur: Bar): real
  {
    var up, down := cur.high - prev.high, prev.low - cur.low;
    if up > down then Max(up, 0.0) else 0.0
  }

  /** DM-: the fall of the low, when it beats the rise of the high. */
  function DmMinus(prev: Bar, cur: Bar): real
  {
    var up, down := cur.high - prev.high, prev.low - cur.low;
    if down > up then Max(down, 0.0) else 0.0
  }

  /** Directional movement is never negative, at most one direction moves,
      and a tie between the two moves counts for neither. */
  lemma DirectionalMovement(prev: Bar, cur: Bar)
    ensures DmPlus(prev, cur) >= 0.0 && DmMinus(prev, cur) >= 0.0
    ensures !(DmPlus(prev, cur) > 0.0 && DmMinus(prev, cur) > 0.0)
    ensures cur.high - prev.high == prev.low - cur.low ==>
      DmPlus(prev, cur) == 0.0 && DmMinus(prev, cur) == 0.0
    ensures DmPlus(prev, cur) > 0.0 <==>
      cur.high - prev.high > prev.low - cur.low && cur.high - prev.high > 0.0
  {
  }

  /** The per-pair series, one entry for each candle after the first. */
  function TrueRanges(cs: seq<Bar>): (r: seq<real>)
    ensures |r| == if |cs| == 0 then 0 else |cs| - 1
    ensures forall i :: 0 <= i < |r| ==> r[i] == TrueRange(cs[i], cs[i + 1])
  {
    if |cs| <= 1 then [] else seq(|cs| - 1, i requires 0 <= i < |cs| - 1 => TrueRange(cs[i], cs[i + 1]))
  }

  function DmPluses(cs: seq<Bar>): (r: seq<real>)
    ensures |r| == if |cs| == 0 then 0 else |cs| - 1
    ensures forall i :: 0 <= i < |r| ==> r[i] == DmPlus(cs[i], cs[i + 1])
  {
    if |cs| <= 1 then [] else seq(|cs| - 1, i requires 0 <= i < |cs| - 1 => DmPlus(cs[i], cs[i + 1]))
  }

  function DmMinuses(cs: seq<Bar>): (r: seq<real>)
    ensures |r| == if |cs| == 0 then 0 else |cs| - 1
    ensures forall i :: 0 <= i < |r| ==> r[i] == DmMinus(cs[i], cs[i + 1])
  {
    if |cs| <= 1 then [] else seq(|cs| - 1, i requires 0 <= i < |cs| - 1 => DmMinus(cs[i], cs[i + 1]))
  }

  /** Wilder smoothing: the sum of the first p raw values, then each next
      entry is prev - prev / p + raw[i]. */
  function Smoothed(raw: seq<real>, p: nat): (r: seq<real>)
    requires 1 <= p <= |raw|
    ensures |r| == |raw| - p + 1
    ensures r[0] == Sum(raw[..p])
    ensures forall i :: 1 <= i < |r| ==> r[i] == WilderStep(r[i - 1], p, raw[p + i - 1])
    decreases |raw|
  {
    if |raw| == p then
      assert raw[..p] == raw;
      [Sum(raw)]
    else
      assert raw[..|raw| - 1][..p] == raw[..p];
      var prev := Smoothed(raw[..|raw| - 1], p);
      prev + [WilderStep(prev[|prev| - 1], p, raw[|raw| - 1])]
  }

  /** One smoothing step: drop a p-th of the running value, add the new one. */
  function WilderStep(prev: real, p: nat, x: real): real
    requires p >= 1
  {
    prev - prev / p as real + x
  }

  /** Smoothing non-negative values gives non-negative values. */
  lemma {:induction false} SmoothedNonNegative(raw: seq<real>, p: nat)
    requires 1 <= p <= |raw|
    requires forall i :: 0 <= i < |raw| ==> raw[i] >= 0.0
    ensures forall i :: 0 <= i < |Smoothed(raw, p)| ==> Smoothed(raw, p)[i] >= 0.0
    decreases |raw|
  {
    if |raw| == p {
      assert Smoothed(raw, p) == [Sum(raw)];
      SumNonNegative(raw);
    } else {
      var init := raw[..|raw| - 1];
      SmoothedNonNegative(init, p);
      var prev := Smoothed(init, p);
      var x := prev[|prev| - 1];
      WilderStepNonNegative(x, p, raw[|raw| - 1]);
      assert Smoothed(raw, p) == prev + [WilderStep(x, p, raw[|raw| - 1])];
    }
  }

  /** One smoothing step keeps a non-negative running value non-negative. */
  lemma WilderStepNonNegative(x: real, p: nat, y: real)
    requires x >= 0.0 && y >= 0.0 && p >= 1
    ensures WilderStep(x, p, y) >= 0.0
  {
    assert x / p as real <= x;
  }

  datatype AdxReport = AdxReport(adx: real, meanTrueRange: real, meanDmPlus: real, meanDmMinus: real)

  /** ValueError for too short a history (carrying the number of candles
      required), ZeroDivisionError when a smoothed range or a DI sum is 0. */
  datatype AdxError = NotEnoughData(required: nat) | ZeroDivision

  /** A directional indicator: 100 * dm / tr. */
  function Di(dm: real, tr: real): real
    requires tr != 0.0
  {
    100.0 * (dm / tr)
  }

  /** The indicator series, element-wise. */
  function Indicator(dm: seq<real>, tr: seq<real>): (r: seq<real>)
    requires |dm| == |tr|
    requires forall i :: 0 <= i < |tr| ==> tr[i] != 0.0
    ensures |r| == |tr|
    ensures forall i :: 0 <= i < |tr| ==> r[i] == Di(dm[i], tr[i])
  {
    seq(|tr|, i requires 0 <= i < |tr| => Di(dm[i], tr[i]))
  }

  /** The directional movement index 100 * |DI+ - DI-| / (DI+ + DI-). */
  function DxOf(plus: real, minus: real): real
    requires plus + minus != 0.0
  {
    100.0 * Abs(plus - minus) / (plus + minus)
  }

  function Dx(plus: seq<real>, minus: seq<real>): (r: seq<real>)
    requires |plus| == |minus|
    requires forall i :: 0 <= i < |plus| ==> plus[i] + minus[i] != 0.0
    ensures |r| == |plus|
    ensures forall i :: 0 <= i < |r| ==> r[i] == DxOf(plus[i], minus[i])
  {
    seq(|plus|, i requires 0 <= i < |plus| => DxOf(plus[i], minus[i]))
  }

  /** calculate_adx: the first ADX value (the mean of the first period DX
      values, always divided by period) and the means of the three smoothed
      series. */
  function Adx(cs: seq<Bar>, period: nat): Result<AdxReport, AdxError>
    requires period >= 1
  {
    if |cs| < period + 1 then Failure(NotEnoughData(period + 1))
    else
      AdxOfSeries(Smoothed(TrueRanges(cs), period), Smoothed(DmPluses(cs), period),
                  Smoothed(DmMinuses(cs), period), period)
  }

  /** The part of calculate_adx after smoothing: directional indicators, DX,
      the first ADX value and the three means. */
  function AdxOfSeries(tr: seq<real>, plus: seq<real>, minus: seq<real>, period: nat): Result<AdxReport, AdxError>
    requires period >= 1
    requires |tr| == |plus| == |minus| > 0
  {
    if exists i :: 0 <= i < |tr| && tr[i] == 0.0 then Failure(ZeroDivision)
    else
      var diPlus, diMinus := Indicator(plus, tr), Indicator(minus, tr);
      if exists i :: 0 <= i < |diPlus| && diPlus[i] + diMinus[i] == 0.0 then Failure(ZeroDivision)
      else
        var dx := Dx(diPlus, diMinus);
        var first := if |dx| < period then dx else dx[..period];
        Success(AdxReport(Sum(first) / period as real, Mean(tr), Mean(plus), Mean(minus)))
  }

  /** The ValueError is raised exactly when fewer than period + 1 candles
      are given. */
  lemma AdxNotEnoughData(cs: seq<Bar>, period: nat)
    requires period >= 1
    ensures Adx(cs, period) == Failure(NotEnoughData(period + 1)) <==> |cs| < period + 1
  {
  }

  /** Every DX value lies in [0, 100] when both indicators are non-negative. */
  lemma DxInRange(plus: real, minus: real)
    requires plus >= 0.0 && minus >= 0.0 && plus + minus != 0.0
    ensures 0.0 <= DxOf(plus, minus) <= 100.0
  {
    var d, total := Abs(plus - minus), plus + minus;
    assert 0.0 <= d <= total;
    var q := 100.0 * d / total;
    assert q * total == 100.0 * d;
    assert 0.0 <= q <= 100.0 by {
      if q > 100.0 {
        MulNonNegative(q - 100.0, total);
      }
      if q < 0.0 {
        MulNonNegative(-q, total);
      }
    }
  }

  /** DX values built from non-negative movements over positive ranges all
      lie in [0, 100]. */
  lemma DxSeriesInRange(plus: seq<real>, minus: seq<real>, tr: seq<real>)
    requires |plus| == |minus| == |tr|
    requires forall i :: 0 <= i < |tr| ==> tr[i] > 0.0 && plus[i] >= 0.0 && minus[i] >= 0.0
    requires forall i :: 0 <= i < |tr| ==> Indicator(plus, tr)[i] + Indicator(minus, tr)[i] != 0.0
    ensures forall i :: 0 <= i < |tr| ==>
      0.0 <= Dx(Indicator(plus, tr), Indicator(minus, tr))[i] <= 100.0
  {
    var diPlus, diMinus := Indicator(plus, tr), Indicator(minus, tr);
    forall i | 0 <= i < |tr|
      ensures 0.0 <= DxOf(diPlus[i], diMinus[i]) <= 100.0
    {
      IndicatorNonNegative(plus[i], tr[i]);
      IndicatorNonNegative(minus[i], tr[i]);
      DxInRange(diPlus[i], diMinus[i]);
    }
  }

  lemma IndicatorNonNegative(dm: real, tr: real)
    requires dm >= 0.0 && tr > 0.0
    ensures Di(dm, tr) >= 0.0
  {
  }

  /** The three smoothed series of any history are non-negative. */
  lemma SeriesNonNegative(cs: seq<Bar>, period: nat)
    requires 1 <= period && period + 1 <= |cs|
    ensures var tr := Smoothed(TrueRanges(cs), period);
      forall i :: 0 <= i < |tr| ==> tr[i] >= 0.0
    ensures var plus := Smoothed(DmPluses(cs), period);
      forall i :: 0 <= i < |plus| ==> plus[i] >= 0.0
    ensures var minus := Smoothed(DmMinuses(cs), period);
      forall i :: 0 <= i < |minus| ==> minus[i] >= 0.0
  {
    forall i | 0 <= i < |cs| - 1
      ensures DmPlus(cs[i], cs[i + 1]) >= 0.0 && DmMinus(cs[i], cs[i + 1]) >= 0.0
    {
      DirectionalMovement(cs[i], cs[i + 1]);
    }
    SmoothedNonNegative(TrueRanges(cs), period);
    SmoothedNonNegative(DmPluses(cs), period);
    SmoothedNonNegative(DmMinuses(cs), period);
  }

  /** A reported ADX lies in [0, 100] and the mean true range and directional
      movements are non-negative. */
  lemma AdxInRange(cs: seq<Bar>, period: nat)
    requires period >= 1
    requires Adx(cs, period).Success?
    ensures 0.0 <= Adx(cs, period).value.adx <= 100.0
    ensures Adx(cs, period).value.meanTrueRange >= 0.0
    ensures Adx(cs, period).value.meanDmPlus >= 0.0 && Adx(cs, period).value.meanDmMinus >= 0.0
  {
    var tr := Smoothed(TrueRanges(cs), period);
    var plus := Smoothed(DmPluses(cs), period);
    var minus := Smoothed(DmMinuses(cs), period);
    AdxUnfold(cs, period);
    SeriesNonNegative(cs, period);
    AdxOfSeriesInRange(tr, plus, minus, period);
  }

  lemma AdxUnfold(cs: seq<Bar>, period: nat)
    requires period >= 1 && |cs| >= period + 1
    ensures Adx(cs, period) == AdxOfSeries(Smoothed(TrueRanges(cs), period), Smoothed(DmPluses(cs), period),
                                           Smoothed(DmMinuses(cs), period), period)
  {
  }

  lemma AdxOfSeriesInRange(tr: seq<real>, plus: seq<real>, minus: seq<real>, period: nat)
    requires period >= 1
    requires |tr| == |plus| == |minus| > 0
    requires forall i :: 0 <= i < |tr| ==> tr[i] >= 0.0 && plus[i] >= 0.0 && minus[i] >= 0.0
    requires AdxOfSeries(tr, plus, minus, period).Success?
    ensures var r := AdxOfSeries(tr, plus, minus, period).value;
      0.0 <= r.adx <= 100.0 && r.meanTrueRange >= 0.0 && r.meanDmPlus >= 0.0 && r.meanDmMinus >= 0.0
  {
    MeanNonNegative(tr);
    MeanNonNegative(plus);
    MeanNonNegative(minus);
    DxSeriesInRange(plus, minus, tr);
    var dx := Dx(Indicator(plus, tr), Indicator(minus, tr));
    var first := if |dx| < period then dx else dx[..period];
    SumBounds(first, 0.0, 100.0);
    AverageOfAtMost(Sum(first), |first|, period);
  }

  /** A sum of at most n values in [0, 100], divided by p >= n, is in [0, 100]. */
  lemma AverageOfAtMost(total: real, n: nat, p: nat)
    requires 1 <= p && n <= p
    requires 0.0 <= total <= n as real * 100.0
    ensures 0.0 <= total / p as real <= 100.0
  {
    assert n as real * 100.0 <= p as real * 100.0;
  }

  /** Extending the raw series by one value appends one smoothing step. */
  lemma SmoothedStep(raw: seq<real>, k: nat, p: nat)
    requires 1 <= p <= k < |raw|
    ensures var prev := Smoothed(raw[..k], p);
      Smoothed(raw[..k + 1], p) == prev + [WilderStep(prev[|prev| - 1], p, raw[k])]
  {
    assert raw[..k + 1][..k] == raw[..k];
  }

  /** calculate_adx as the source computes it: pairwise TR and DM lists,
      smoothing by appending to the previous value, DI and DX lists, then the
      ADX series, of which only the first value is reported. */
  method CalculateAdx(cs: seq<Candle>, period: nat) returns (r: Result<AdxReport, AdxError>)
    requires period >= 1
    ensures r == Adx(BarsOf(cs), period)
  {
    if |cs| < period + 1 {
      return Failure(NotEnoughData(period + 1));
    }
    var trs, pluses, minuses := PairSeries(cs);
    var trS, plusS, minusS := SmoothSeries(trs, pluses, minuses, period);
    AdxUnfold(BarsOf(cs), period);
    r := AdxFromSmoothed(trS, plusS, minusS, period);
  }

  /** The first loop of calculate_adx: TR, DM+ and DM- of each consecutive pair. */
  method PairSeries(cs: seq<Candle>) returns (trs: seq<real>, pluses: seq<real>, minuses: seq<real>)
    requires |cs| >= 1
    ensures trs == TrueRanges(BarsOf(cs)) && pluses == DmPluses(BarsOf(cs)) && minuses == DmMinuses(BarsOf(cs))
  {
    trs, pluses, minuses := [], [], [];
    var i := 1;
    while i < |cs|
      invariant 1 <= i <= |cs|
      invariant |trs| == |pluses| == |minuses| == i - 1
      invariant forall j :: 0 <= j < i - 1 ==> trs[j] == TrueRange(cs[j].AsBar(), cs[j + 1].AsBar())
      invariant forall j :: 0 <= j < i - 1 ==> pluses[j] == DmPlus(cs[j].AsBar(), cs[j + 1].AsBar())
      invariant forall j :: 0 <= j < i - 1 ==> minuses[j] == DmMinus(cs[j].AsBar(), cs[j + 1].AsBar())
    {
      var prev, cur := cs[i - 1].AsBar(), cs[i].AsBar();
      trs := trs + [TrueRange(prev, cur)];
      pluses := pluses + [DmPlus(prev, cur)];
      minuses := minuses + [DmMinus(prev, cur)];
      i := i + 1;
    }
  }

  /** The smoothing loop of calculate_adx, over the three raw series at once. */
  method SmoothSeries(trs: seq<real>, pluses: seq<real>, minuses: seq<real>, period: nat)
    returns (trS: seq<real>, plusS: seq<real>, minusS: seq<real>)
    requires 1 <= period <= |trs| && |trs| == |pluses| == |minuses|
    ensures trS == Smoothed(trs, period)
    ensures plusS == Smoothed(pluses, period)
    ensures minusS == Smoothed(minuses, period)
  {
    trS, plusS, minusS := [Sum(trs[..period])], [Sum(pluses[..period])], [Sum(minuses[..period])];
    var k := period;
    while k < |trs|
      invariant period <= k <= |trs|
      invariant trS == Smoothed(trs[..k], period)
      invariant plusS == Smoothed(pluses[..k], period)
      invariant minusS == Smoothed(minuses[..k], period)
    {
      SmoothedStep(trs, k, period);
      SmoothedStep(pluses, k, period);
      SmoothedStep(minuses, k, period);
      trS := trS + [trS[|trS| - 1] - trS[|trS| - 1] / period as real + trs[k]];
      plusS := plusS + [plusS[|plusS| - 1] - plusS[|plusS| - 1] / period as real + pluses[k]];
      minusS := minusS + [minusS[|minusS| - 1] - minusS[|minusS| - 1] / period as real + minuses[k]];
      k := k + 1;
    }
    assert trs[..k] == trs && pluses[..k] == pluses && minuses[..k] == minuses;
  }

  /** The loops of calculate_adx after smoothing. */
  method AdxFromSmoothed(trS: seq<real>, plusS: seq<real>, minusS: seq<real>, period: nat)
    returns (r: Result<AdxReport, AdxError>)
    requires period >= 1
    requires |trS| == |plusS| == |minusS| > 0
    ensures r == AdxOfSeries(trS, plusS, minusS, period)
  {
    var diPlus := [];
    var j := 0;
    while j < |trS|
      invariant 0 <= j <= |trS| && |diPlus| == j
      invariant forall m :: 0 <= m < j ==> trS[m] != 0.0 && diPlus[m] == Di(plusS[m], trS[m])
    {
      if trS[j] == 0.0 {
        return Failure(ZeroDivision);
      }
      diPlus := diPlus + [Di(plusS[j], trS[j])];
      j := j + 1;
    }
    var diMinus := [];
    j := 0;
    while j < |trS|
      invariant 0 <= j <= |trS| && |diMinus| == j
      invariant forall m :: 0 <= m < j ==> diMinus[m] == Di(minusS[m], trS[m])
    {
      diMinus := diMinus + [Di(minusS[j], trS[j])];
      j := j + 1;
    }
    assert diPlus == Indicator(plusS, trS) && diMinus == Indicator(minusS, trS);

    var dx := [];
    j := 0;
    while j < |diPlus|
      invariant 0 <= j <= |diPlus| && |dx| == j
      invariant forall m :: 0 <= m < j ==> diPlus[m] + diMinus[m] != 0.0 && dx[m] == DxOf(diPlus[m], diMinus[m])
    {
      if diPlus[j] + diMinus[j] == 0.0 {
        return Failure(ZeroDivision);
      }
      dx := dx + [DxOf(diPlus[j], diMinus[j])];
      j := j + 1;
    }
    assert dx == Dx(diPlus, diMinus);

    var first := if |dx| < period then dx else dx[..period];
    var adx := [Sum(first) / period as real];
    j := period;
    while j < |dx|
      invariant |adx| >= 1 && adx[0] == Sum(first) / period as real
    {
      adx := adx + [(adx[|adx| - 1] * (period - 1) as real + dx[j]) / period as real];
      j := j + 1;
    }
    r := Success(AdxReport(adx[0], Mean(trS), Mean(plusS), Mean(minusS)));
  }
}
