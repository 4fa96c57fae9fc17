/** The candle history and signal of the SP-76 draft
    (QuantConnect/SP-76.py). Unlike SP-77, its history computes percentiles
    itself, and each time a deque fills it overwrites that period's entry of
    the class-level boundary tables that later candles are bucketed against. */
module QcSp76 {
  import opened Results
  import opened BoundedWindow
  import opened NumpyPercentile
  import opened VpaCandleHistory
  import opened QcRules
  import VpaSignal

  /** The percentile levels getPercentiles asks numpy for. */
  const Levels: seq<real> := [10.0, 25.0, 50.0, 75.0, 90.0]

  /** The value of a candle a statistic reads. The candle has no close
      attribute, so Close is only ever read off an empty deque. */
  function Stat(stat: SecurityData, c: QcCandle): real
  {
    match stat
    case Volume => c.bar.volume
    case Open => c.bar.open
    case Close => c.bar.close
    case Low => c.bar.low
    case High => c.bar.high
    case Spread => c.bar.Spread()
    case HighLowSpread => c.bar.HighLowSpread()
  }

  /** The statistic of every candle of a deque, in deque order. */
  function StatValues(stat: SecurityData, w: seq<QcCandle>): (r: seq<real>)
    ensures |r| == |w| && forall i :: 0 <= i < |w| ==> r[i] == Stat(stat, w[i])
  {
    seq(|w|, i requires 0 <= i < |w| => Stat(stat, w[i]))
  }

  /** The boundary entry numpy computes from the statistic over a non-empty
      deque: five percentiles, ascending because the levels are. */
  function Boundary(stat: SecurityData, w: seq<QcCandle>): (b: seq<real>)
    requires |w| > 0
    ensures IsBoundary(b)
  {
    PercentilesAscending(StatValues(stat, w), Levels);
    Percentiles(StatValues(stat, w), Levels)
  }

  /** Each boundary value lies between the smallest and the largest value
      of the statistic over the deque. */
  lemma BoundaryWithinSample(stat: SecurityData, w: seq<QcCandle>, lo: real, hi: real)
    requires |w| > 0
    requires forall i :: 0 <= i < |w| ==> lo <= Stat(stat, w[i]) <= hi
    ensures forall j :: 0 <= j < 5 ==> lo <= Boundary(stat, w)[j] <= hi
  {
    var values := StatValues(stat, w);
    forall j | 0 <= j < 5
      ensures lo <= Boundary(stat, w)[j] <= hi
    {
      PercentileWithinBounds(values, Levels[j], lo, hi);
    }
  }

  /** The boundary tables with one period's entries recomputed from that
      period's deque. */
  function Refresh(t: Tables, p: HistoryPeriod, w: seq<QcCandle>): Tables
    requires |w| > 0
  {
    Tables(t.spread.With(p, Boundary(Spread, w)),
           t.volume.With(p, Boundary(Volume, w)),
           t.highLow.With(p, Boundary(HighLowSpread, w)))
  }

  /** A refresh keeps the tables ascending, so candles can still be bucketed
      against them. */
  lemma RefreshKeepsAscending(t: Tables, p: HistoryPeriod, w: seq<QcCandle>)
    requires |w| > 0 && t.Ascending()
    ensures Refresh(t, p, w).Ascending()
  {
    var r := Refresh(t, p, w);
    forall q ensures IsBoundary(r.spread.At(q)) && IsBoundary(r.volume.At(q)) && IsBoundary(r.highLow.At(q)) {
      if q != p {
        assert r.spread.At(q) == t.spread.At(q);
      }
    }
  }

  /** The class-level boundary dictionaries of Candle, shared by every
      candle and overwritten by the history. */
  class CandleBoundaries {
    var tables: Tables

    /** The dictionaries as the class defines them. */
    constructor ()
      ensures tables == InitialTables && tables.Ascending()
    {
      tables := InitialTables;
      InitialTablesAscending();
    }
  }

  /** The deques of the three history periods, each bounded by its
      period. */
  class CandleHistory {
    const period1: nat
    const period2: nat
    const period3: nat
    var deque1: seq<QcCandle>
    var deque2: seq<QcCandle>
    var deque3: seq<QcCandle>

    /** No deque is longer than its maxlen. */
    predicate Valid()
      reads this
    {
      |deque1| <= period1 && |deque2| <= period2 && |deque3| <= period3
    }

    /** __init__ with three empty deques. */
    constructor (period1: nat, period2: nat, period3: nat)
      ensures Valid()
      ensures this.period1 == period1 && this.period2 == period2 && this.period3 == period3
      ensures deque1 == [] && deque2 == [] && deque3 == []
    {
      this.period1, this.period2, this.period3 := period1, period2, period3;
      deque1, deque2, deque3 := [], [], [];
    }

    function Period(p: HistoryPeriod): nat
      reads this
    {
      match p
      case ShortPeriod => period1
      case MediumPeriod => period2
      case LongPeriod => period3
    }

    function Deque(p: HistoryPeriod): seq<QcCandle>
      reads this
    {
      match p
      case ShortPeriod => deque1
      case MediumPeriod => deque2
      case LongPeriod => deque3
    }

    /** isReady: an argument that is not a HistoryPeriod raises; otherwise
        the deque of that period is ready when it holds as many candles as
        its period. */
    function IsReady(period: EnumArg<HistoryPeriod>): (r: Result<bool, QcError>)
      reads this
      ensures r.Failure? <==> period.NotMember?
      ensures r.Failure? ==> r.error == NotAHistoryPeriod
    {
      if period.NotMember? then Failure(NotAHistoryPeriod)
      else
        match period.value
        case ShortPeriod => Success(|deque1| == period1)
        case MediumPeriod => Success(|deque2| == period2)
        case LongPeriod => Success(|deque3| == period3)
    }

    /** What getPercentiles returns or raises: the type checks of its two
        arguments in order, numpy's error on an empty deque, the missing
        close attribute on a non-empty one, and otherwise the boundary
        entry of the statistic over the period's deque. */
    function PercentilesOf(stat: EnumArg<SecurityData>, period: EnumArg<HistoryPeriod>)
      : (r: Result<seq<real>, QcError>)
      reads this
      ensures r.Success? <==> stat.Member? && period.Member? && |Deque(period.value)| > 0
                              && stat.value != Close
      ensures r.Success? ==> IsBoundary(r.value)
      ensures stat.NotMember? ==> r == Failure(NotSecurityData)
      ensures stat.Member? && period.NotMember? ==> r == Failure(NotAHistoryPeriod)
    {
      if stat.NotMember? then Failure(NotSecurityData)
      else if period.NotMember? then Failure(NotAHistoryPeriod)
      else
        var w := Deque(period.value);
        if |w| == 0 then Failure(EmptySample)
        else if stat.value == Close then Failure(MissingAttribute)
        else Success(Boundary(stat.value, w))
    }

    /** getPercentiles: the checks, then the statistic collected from the
        deque one candle at a time, then numpy.percentile. */
    method GetPercentiles(stat: EnumArg<SecurityData>, period: EnumArg<HistoryPeriod>)
      returns (r: Result<seq<real>, QcError>)
      ensures r == PercentilesOf(stat, period)
    {
      if stat.NotMember? {
        return Failure(NotSecurityData);
      }
      if period.NotMember? {
        return Failure(NotAHistoryPeriod);
      }
      var w := Deque(period.value);
      var values := [];
      for i := 0 to |w|
        invariant values == StatValues(stat.value, w[..i])
        invariant stat.value == Close ==> i == 0
      {
        if stat.value == Close {
          return Failure(MissingAttribute);
        }
        values := values + [Stat(stat.value, w[i])];
      }
      assert values == StatValues(stat.value, w) by {
        assert w[..|w|] == w;
      }
      if |values| == 0 {
        return Failure(EmptySample);
      }
      return Success(Percentiles(values, Levels));
    }

    /** addCandle: the candle goes on the back of all three deques, then
        each ready period, SHORT first, has its spread, volume and high-low
        spread boundaries recomputed. A ready deque can only be empty when
        its period is 0; numpy then raises, after the deques and any earlier
        period's boundaries were updated. */
    method AddCandle(candle: QcCandle, bounds: CandleBoundaries) returns (r: Result<(), QcError>)
      requires Valid()
      modifies this, bounds
      ensures Valid()
      ensures deque1 == Append(old(deque1), candle, period1)
      ensures deque2 == Append(old(deque2), candle, period2)
      ensures deque3 == Append(old(deque3), candle, period3)
      ensures r.Failure? <==> period1 == 0 || period2 == 0 || period3 == 0
      ensures r.Failure? ==> r.error == EmptySample
      ensures r.Success? ==> bounds.tables == RefreshIfReady(RefreshIfReady(RefreshIfReady(old(bounds.tables),
        ShortPeriod, deque1, period1), MediumPeriod, deque2, period2), LongPeriod, deque3, period3)
      ensures old(bounds.tables).Ascending() ==> bounds.tables.Ascending()
    {
      deque1, deque2, deque3 := Append(deque1, candle, period1), Append(deque2, candle, period2),
        Append(deque3, candle, period3);
      ghost var t0 := bounds.tables;
      r := RefreshPeriod(ShortPeriod, bounds);
      if r.Failure? {
        return;
      }
      ghost var t1 := bounds.tables;
      assert t1 == RefreshIfReady(t0, ShortPeriod, deque1, period1);
      r := RefreshPeriod(MediumPeriod, bounds);
      if r.Failure? {
        return;
      }
      ghost var t2 := bounds.tables;
      assert t2 == RefreshIfReady(t1, MediumPeriod, deque2, period2);
      r := RefreshPeriod(LongPeriod, bounds);
    }

    /** One block of addCandle: when the period is ready, its three
        boundary entries become the percentiles of its deque. */
    method RefreshPeriod(p: HistoryPeriod, bounds: CandleBoundaries) returns (r: Result<(), QcError>)
      requires Valid() && (Period(p) > 0 ==> |Deque(p)| > 0)
      modifies bounds
      ensures r.Failure? <==> Period(p) == 0
      ensures r.Failure? ==> r.error == EmptySample && bounds.tables == old(bounds.tables)
      ensures r.Success? ==> bounds.tables == RefreshIfReady(old(bounds.tables), p, Deque(p), Period(p))
      ensures old(bounds.tables).Ascending() ==> bounds.tables.Ascending()
    {
      var ready := IsReady(Member(p));
      if !ready.value {
        return Success(());
      }
      var spread := GetPercentiles(Member(Spread), Member(p));
      if spread.Failure? {
        return Failure(spread.error);
      }
      var volume := GetPercentiles(Member(Volume), Member(p));
      var highLow := GetPercentiles(Member(HighLowSpread), Member(p));
      if bounds.tables.Ascending() {
        RefreshKeepsAscending(bounds.tables, p, Deque(p));
      }
      bounds.tables := Tables(bounds.tables.spread.With(p, spread.value),
                              bounds.tables.volume.With(p, volume.value),
                              bounds.tables.highLow.With(p, highLow.value));
      return Success(());
    }
  }

  /** The tables after one period's refresh, when its deque is full. */
  function RefreshIfReady(t: Tables, p: HistoryPeriod, w: seq<QcCandle>, period: nat): Tables
  {
    if |w| == period && |w| > 0 then Refresh(t, p, w) else t
  }

  /** calculateSignal on an SP-76 candle. Each pattern message formats the
      candle's time with strftime, so a pattern hit raises unless the time is
      a datetime, as it is under QuantConnect. */
  method CalculateSignal(candle: QcCandle, time: TimeValue) returns (r: Result<VpaSignal.Signal, VpaSignal.SignalError>)
    ensures r.Failure? <==> time != TimeDatetime && HasPattern(SP76, candle)
    ensures r.Success? ==> r.value == CandleSignal(SP76, candle)
  {
    var b := candle.bar;
    r := VpaSignal.CalculateSignal(time == TimeDatetime, IsShootingStar(b), IsHammer(b), IsLongLeggedDoji(SP76, b),
                                   candle.spreadAnomaly, candle.volumeAnomaly);
  }
}
