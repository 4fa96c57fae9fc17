/** The candle history, signal and default strategy of the SP-77 draft
    (QuantConnect/SP-77.py). Its candles are QcRules candles built with the
    SP-77 doji test. */
module QcSp77 {
  import opened Results
  import opened BoundedWindow
  import opened VpaCandleHistory
  import opened QcRules
  import VpaSignal

  /** The deques of the three history periods, each bounded by its
      period. */
  class CandleHistory {
    const period1: nat
    const period2: nat
    const period3: nat
    var deque1: seq<QcCandle>
    var deque2: seq<QcCandle>
    var deque3: seq<QcCandle>

    /** No deque is longer than its maxlen. */
    predicate Valid()
      reads this
    {
      |deque1| <= period1 && |deque2| <= period2 && |deque3| <= period3
    }

    /** __init__ with three empty deques. */
    constructor (period1: nat, period2: nat, period3: nat)
      ensures Valid()
      ensures this.period1 == period1 && this.period2 == period2 && this.period3 == period3
      ensures deque1 == [] && deque2 == [] && deque3 == []
    {
      this.period1, this.period2, this.period3 := period1, period2, period3;
      deque1, deque2, deque3 := [], [], [];
    }

    function Period(p: HistoryPeriod): nat
      reads this
    {
      match p
      case ShortPeriod => period1
      case MediumPeriod => period2
      case LongPeriod => period3
    }

    function Deque(p: HistoryPeriod): seq<QcCandle>
      reads this
    {
      match p
      case ShortPeriod => deque1
      case MediumPeriod => deque2
      case LongPeriod => deque3
    }

    /** add_candle: the candle goes on the back of all three deques. The
        boundary refresh that follows calls get_percentiles as a method of
        the history, but get_percentiles is defined at module level, so the
        call raises as soon as the first period (SHORT, then MEDIUM, then
        LONG) is ready; when none is ready nothing else happens. */
    method AddCandle(candle: QcCandle) returns (r: Result<(), QcError>)
      requires Valid()
      modifies this
      ensures Valid()
      ensures deque1 == Append(old(deque1), candle, period1)
      ensures deque2 == Append(old(deque2), candle, period2)
      ensures deque3 == Append(old(deque3), candle, period3)
      ensures r.Failure? <==> |deque1| == period1 || |deque2| == period2 || |deque3| == period3
      ensures r.Failure? ==> r.error == NoSuchMethod
    {
      deque1, deque2, deque3 := Append(deque1, candle, period1), Append(deque2, candle, period2),
        Append(deque3, candle, period3);
      var ready := IsReady(Member(ShortPeriod));
      if ready.value {
        return Failure(NoSuchMethod);
      }
      ready := IsReady(Member(MediumPeriod));
      if ready.value {
        return Failure(NoSuchMethod);
      }
      ready := IsReady(Member(LongPeriod));
      if ready.value {
        return Failure(NoSuchMethod);
      }
      return Success(());
    }

    /** is_ready: an argument that is not a HistoryPeriod raises; otherwise
        the deque of that period is ready when it holds as many candles as
        its period. */
    function IsReady(period: EnumArg<HistoryPeriod>): (r: Result<bool, QcError>)
      reads this
      ensures r.Failure? <==> period.NotMember?
      ensures r.Failure? ==> r.error == NotAHistoryPeriod
    {
      if period.NotMember? then Failure(NotAHistoryPeriod)
      else
        match period.value
        case ShortPeriod => Success(|deque1| == period1)
        case MediumPeriod => Success(|deque2| == period2)
        case LongPeriod => Success(|deque3| == period3)
    }

  }

  /** calculate_signal on an SP-77 candle. Each pattern message adds the
      candle's time to a str, so a pattern hit raises TypeError unless the
      time is a str; under QuantConnect it is a datetime. */
  method CalculateSignal(candle: QcCandle, time: TimeValue) returns (r: Result<VpaSignal.Signal, VpaSignal.SignalError>)
    ensures r.Failure? <==> time != TimeStr && HasPattern(SP77, candle)
    ensures r.Success? ==> r.value == CandleSignal(SP77, candle)
  {
    var b := candle.bar;
    r := VpaSignal.CalculateSignal(time == TimeStr, IsShootingStar(b), IsHammer(b), IsLongLeggedDoji(SP77, b),
                                   candle.spreadAnomaly, candle.volumeAnomaly);
  }

  /** A Python value assigned to a strategy property: its type decides
      whether the setter accepts it. */
  datatype PyValue = PyFloat(f: real) | PyInt(i: int) | PyOther

  /** The exceptions the setters raise. */
  datatype StrategyError = NotAFloat | NotAnInt

  /** The default trade parameters of the strategy. */
  class DefaultStrategy {
    var riskPerTrade: real
    var stopLossPoints: real
    var profitTargetPoints: real

    /** __init__: risk 100.00, stop loss 2.5 points, profit target 4
        points. */
    constructor ()
      ensures riskPerTrade == 100.0 && stopLossPoints == 2.5 && profitTargetPoints == 4.0
    {
      riskPerTrade, stopLossPoints, profitTargetPoints := 100.0, 2.5, 4.0;
    }

    /** The risk_per_trade setter accepts only a float. */
    method SetRiskPerTrade(value: PyValue) returns (r: Result<(), StrategyError>)
      modifies this
      ensures r.Success? <==> value.PyFloat?
      ensures r.Success? ==> riskPerTrade == value.f
      ensures r.Failure? ==> r.error == NotAFloat && riskPerTrade == old(riskPerTrade)
      ensures stopLossPoints == old(stopLossPoints) && profitTargetPoints == old(profitTargetPoints)
    {
      if !value.PyFloat? {
        return Failure(NotAFloat);
      }
      riskPerTrade := value.f;
      return Success(());
    }

    /** The stop_lost_points setter accepts only an int. */
    method SetStopLossPoints(value: PyValue) returns (r: Result<(), StrategyError>)
      modifies this
      ensures r.Success? <==> value.PyInt?
      ensures r.Success? ==> stopLossPoints == value.i as real
      ensures r.Failure? ==> r.error == NotAnInt && stopLossPoints == old(stopLossPoints)
      ensures riskPerTrade == old(riskPerTrade) && profitTargetPoints == old(profitTargetPoints)
    {
      if !value.PyInt? {
        return Failure(NotAnInt);
      }
      stopLossPoints := value.i as real;
      return Success(());
    }

    /** The profit_target_points setter accepts only an int. */
    method SetProfitTargetPoints(value: PyValue) returns (r: Result<(), StrategyError>)
      modifies this
      ensures r.Success? <==> value.PyInt?
      ensures r.Success? ==> profitTargetPoints == value.i as real
      ensures r.Failure? ==> r.error == NotAnInt && profitTargetPoints == old(profitTargetPoints)
      ensures riskPerTrade == old(riskPerTrade) && stopLossPoints == old(stopLossPoints)
    {
      if !value.PyInt? {
        return Failure(NotAnInt);
      }
      profitTargetPoints := value.i as real;
      return Success(());
    }
  }
}
