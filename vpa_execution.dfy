/** Position sizing of the VPA engine (vpa/execution.py): the number of
    shares a trade may buy, limited both by the cash put at risk against the
    stop distance and by the largest exposure allowed at the share price. */
module VpaExecution {
  import opened Results
  import opened Numeric

  /** Python's ZeroDivisionError, raised by either division. */
  datatype SizeError = ZeroDivision

  /** trade_size. The debug flag only chooses whether the intermediate
      values are printed, so it takes no part in the result. */
  function TradeSize(cash: real, riskTheory: real, exposureMax: real, sharePrice: real,
                     stopDistance: real, debug: bool): (r: Result<real, SizeError>)
    ensures r.Failure? <==> stopDistance == 0.0 || sharePrice == 0.0
  {
    var theoreticalRisk := cash * riskTheory;
    var maxExposure := cash * exposureMax;
    if stopDistance == 0.0 then Failure(ZeroDivision)
    else
      var sharesTheory := theoreticalRisk / stopDistance;
      if sharePrice == 0.0 then Failure(ZeroDivision)
      else
        var sharesExposure := maxExposure / sharePrice;
        Success(Min(sharesTheory, sharesExposure))
  }

  /** The size is the smaller of the two candidate share counts, so it never
      exceeds either of them. */
  lemma TradeSizeIsMin(cash: real, riskTheory: real, exposureMax: real, sharePrice: real,
                       stopDistance: real, debug: bool)
    requires stopDistance != 0.0 && sharePrice != 0.0
    ensures var r := TradeSize(cash, riskTheory, exposureMax, sharePrice, stopDistance, debug);
      var byRisk := cash * riskTheory / stopDistance;
      var byExposure := cash * exposureMax / sharePrice;
      && r.Success?
      && r.value <= byRisk && r.value <= byExposure
      && (r.value == byRisk || r.value == byExposure)
  {
  }

  /** Printing or not, the size is the same. */
  lemma TradeSizeIgnoresDebug(cash: real, riskTheory: real, exposureMax: real, sharePrice: real,
                              stopDistance: real)
    ensures TradeSize(cash, riskTheory, exposureMax, sharePrice, stopDistance, true)
         == TradeSize(cash, riskTheory, exposureMax, sharePrice, stopDistance, false)
  {
  }

  // Fixtures: the execution tests' two cases, worked through. They are
  // examples, not properties; TradeSizeIsMin states the rule for every input.

  /** 30000 cash, 1% risk, 10% exposure, price 50 and stop distance 2: the
      risk allows 150 shares, the exposure 60, so 60. */
  lemma TradeSizeExample()
    ensures TradeSize(30000.0, 0.01, 0.1, 50.0, 2.0, false) == Success(60.0)
  {
  }

  /** 50000 cash, 2% risk, 5% exposure, price 100 and stop distance 5: the
      risk allows 200 shares, the exposure 25, so 25. */
  lemma TradeSizeSecondExample()
    ensures TradeSize(50000.0, 0.02, 0.05, 100.0, 5.0, true) == Success(25.0)
  {
  }
}
