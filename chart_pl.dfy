/** The single-option profit and loss chart (options/chart_pl.py): the
    payoff of a call or a put at expiry, negated for a short position, and
    the profit and loss that charges or credits the option's cost. */
module ChartPl {
  import opened Results
  import opened Numeric

  /** Python's ValueError for an option type other than "call" or "put". */
  datatype PayoffError = InvalidOptionType

  /** option_payoff: max(S - K, 0) for a call, max(K - S, 0) for a put,
      negated when the position is "short"; every other position is long. */
  function OptionPayoff(s: real, k: real, optionType: string, position: string): (r: Result<real, PayoffError>)
    ensures r.Failure? <==> optionType != "call" && optionType != "put"
    ensures r.Success? && position != "short" ==> r.value >= 0.0
    ensures r.Success? && position == "short" ==> r.value <= 0.0
  {
    var payoff :=
      if optionType == "call" then Success(Max(s - k, 0.0))
      else if optionType == "put" then Success(Max(k - s, 0.0))
      else Failure(InvalidOptionType);
    if payoff.Failure? then payoff
    else if position == "short" then Success(-payoff.value)
    else payoff
  }

  /** option_payoff over the price grid: numpy applies it to every price. */
  function Payoffs(prices: seq<real>, k: real, optionType: string, position: string)
    : (r: Result<seq<real>, PayoffError>)
    ensures r.Failure? <==> optionType != "call" && optionType != "put"
    ensures r.Success? ==> (|r.value| == |prices|
      && forall i :: 0 <= i < |prices| ==> r.value[i] == OptionPayoff(prices[i], k, optionType, position).value)
  {
    if optionType != "call" && optionType != "put" then Failure(InvalidOptionType)
    else Success(seq(|prices|, i requires 0 <= i < |prices| => OptionPayoff(prices[i], k, optionType, position).value))
  }

  /** The profit and loss expression: the payoff less the cost for a "long"
      position, plus the cost for any other. */
  function ProfitAndLoss(payoff: real, cost: real, position: string): real
  {
    if position == "long" then payoff - cost else payoff + cost
  }

  /** The profit and loss at one price, as computed at stock price zero and
      at double the asset price. */
  function PnL(s: real, k: real, optionType: string, cost: real, position: string): (r: Result<real, PayoffError>)
    ensures r.Failure? <==> optionType != "call" && optionType != "put"
  {
    var payoff := OptionPayoff(s, k, optionType, position);
    if payoff.Failure? then Failure(payoff.error) else Success(ProfitAndLoss(payoff.value, cost, position))
  }

  /** A call is worth nothing at or under the strike and a put nothing at or
      over it, so there a long holder loses exactly the cost and a short
      writer keeps it. */
  lemma WorthlessRegion(s: real, k: real, cost: real)
    ensures s <= k ==> OptionPayoff(s, k, "call", "long") == Success(0.0)
    ensures s >= k ==> OptionPayoff(s, k, "put", "long") == Success(0.0)
    ensures s <= k ==> PnL(s, k, "call", cost, "long") == Success(-cost)
    ensures s <= k ==> PnL(s, k, "call", cost, "short") == Success(cost)
    ensures s >= k ==> PnL(s, k, "put", cost, "long") == Success(-cost)
    ensures s >= k ==> PnL(s, k, "put", cost, "short") == Success(cost)
  {
  }

  /** Over the strike a long call gains one for one with the price, and
      under it a long put does. */
  lemma InTheMoney(s: real, k: real)
    ensures s >= k ==> OptionPayoff(s, k, "call", "long") == Success(s - k)
    ensures s <= k ==> OptionPayoff(s, k, "put", "long") == Success(k - s)
  {
  }

  /** A short position pays the negation of the long one, and its profit
      and loss is the negation of the long profit and loss. */
  lemma ShortMirrorsLong(s: real, k: real, optionType: string, cost: real)
    requires optionType == "call" || optionType == "put"
    ensures OptionPayoff(s, k, optionType, "short").value == -OptionPayoff(s, k, optionType, "long").value
    ensures PnL(s, k, optionType, cost, "short").value == -PnL(s, k, optionType, cost, "long").value
  {
  }

  /** Put-call parity at expiry: a long call less a long put of the same
      strike pays S - K. */
  lemma PutCallParity(s: real, k: real)
    ensures OptionPayoff(s, k, "call", "long").value - OptionPayoff(s, k, "put", "long").value == s - k
  {
  }

  /** A long position loses at most its cost; a short one gains at most its
      premium. */
  lemma PnLBounds(s: real, k: real, optionType: string, cost: real)
    requires optionType == "call" || optionType == "put"
    ensures PnL(s, k, optionType, cost, "long").value >= -cost
    ensures PnL(s, k, optionType, cost, "short").value <= cost
  {
  }

  /** A position string other than "long" and "short" gets the long payoff
      but has the cost added, as for a short one. */
  lemma OtherPositionMixes(s: real, k: real, optionType: string, cost: real, position: string)
    requires optionType == "call" || optionType == "put"
    requires position != "long" && position != "short"
    ensures PnL(s, k, optionType, cost, position).value == OptionPayoff(s, k, optionType, "long").value + cost
  {
  }
}
