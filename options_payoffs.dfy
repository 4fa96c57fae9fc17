/** Payouts of multi-leg option strategies (options/options_payoffs.py):
    each trade's payout over a grid of stock prices, the combined payout of
    all trades, and the summary of the combination: the best and worst
    outcome, reported as unbounded where a lone call leg makes it so, and the
    price ranges where the strategy is profitable. */
module OptionsPayoffs {
  import opened Results
  import opened Numeric
  import ChartPl

  /** One trade dictionary of a strategy. */
  datatype Trade = Trade(assetPrice: real, strikePrice: real, optionType: string, optionCost: real,
                         position: string, title: string)

  /** The exception a short share purchase raises. */
  datatype PayoutError = CannotShortShares

  predicate IsLong(t: Trade) { t.position == "long" }

  /** The payout of one trade at one stock price. Any position other than
      "long" is short, and any option type other than "share_purchase" and
      "call" is a put. */
  function Payout(t: Trade, price: real): (r: Result<real, PayoutError>)
    ensures r.Failure? <==> !IsLong(t) && t.optionType == "share_purchase"
    ensures r.Success? && IsLong(t) && t.optionType != "share_purchase" ==> r.value >= -t.optionCost
    ensures r.Success? && !IsLong(t) ==> r.value <= t.optionCost
  {
    var k, c := t.strikePrice, t.optionCost;
    if IsLong(t) then
      if t.optionType == "share_purchase" then Success(price - c)
      else if t.optionType == "call" then Success(Max((price - k) - c, -c))
      else Success(Max((k - price) - c, -c))
    else
      if t.optionType == "share_purchase" then Failure(CannotShortShares)
      else if t.optionType == "call" then Success(Min((k - price) + c, c))
      else Success(Min(c - Max(k - price, 0.0), c))
  }

  /** A long share purchase gains one for one with the price. */
  lemma SharePayout(t: Trade, price: real)
    requires IsLong(t) && t.optionType == "share_purchase"
    ensures Payout(t, price) == Success(price - t.optionCost)
    ensures Payout(t, price + 1.0).value == Payout(t, price).value + 1.0
  {
  }

  /** Writing an option pays exactly what buying it loses. */
  lemma ShortMirrorsLong(t: Trade, price: real)
    requires t.optionType != "share_purchase"
    ensures Payout(t.(position := "short"), price).value == -Payout(t.(position := "long"), price).value
  {
  }

  /** For calls and puts these payouts are the profit and loss of the
      single-option chart. */
  lemma AgreesWithChart(t: Trade, price: real)
    requires t.optionType == "call" || t.optionType == "put"
    requires t.position == "long" || t.position == "short"
    ensures Payout(t, price)
         == Success(ChartPl.PnL(price, t.strikePrice, t.optionType, t.optionCost, t.position).value)
  {
  }

  /** One trade's payouts over the grid: the exception is raised at the first
      price, so an empty grid never raises. */
  function LegPayouts(t: Trade, prices: seq<real>): (r: Result<seq<real>, PayoutError>)
    ensures r.Failure? <==> |prices| > 0 && !IsLong(t) && t.optionType == "share_purchase"
    ensures r.Success? ==> |r.value| == |prices|
    ensures r.Success? ==> forall i :: 0 <= i < |prices| ==> r.value[i] == Payout(t, prices[i]).value
  {
    if |prices| > 0 && !IsLong(t) && t.optionType == "share_purchase" then Failure(CannotShortShares)
    else Success(seq(|prices|, i requires 0 <= i < |prices| => Payout(t, prices[i]).value))
  }

  // ---------------------------------------------------------------------
  // The payouts dictionary

  /** A dictionary from titles to payout lists, in insertion order. */
  type Payouts = seq<(string, seq<real>)>

  function Keys(d: Payouts): seq<string>
  {
    seq(|d|, i requires 0 <= i < |d| => d[i].0)
  }

  /** The position of a key, or -1 when it is absent. */
  function IndexOf(d: Payouts, k: string): (i: int)
    ensures -1 <= i < |d|
    ensures i >= 0 ==> d[i].0 == k && forall j :: 0 <= j < i ==> d[j].0 != k
    ensures i == -1 ==> forall j :: 0 <= j < |d| ==> d[j].0 != k
  {
    if |d| == 0 then -1
    else if d[|d| - 1].0 == k && IndexOf(d[..|d| - 1], k) == -1 then |d| - 1
    else IndexOf(d[..|d| - 1], k)
  }

  /** d[k] = v: an existing key keeps its place, a new one goes last. */
  function Set(d: Payouts, k: string, v: seq<real>): (r: Payouts)
    ensures IndexOf(d, k) >= 0 ==> r == d[IndexOf(d, k) := (k, v)]
    ensures IndexOf(d, k) == -1 ==> r == d + [(k, v)]
  {
    var i := IndexOf(d, k);
    if i >= 0 then d[i := (k, v)] else d + [(k, v)]
  }

  /** The first position holding a key is the one IndexOf finds. */
  lemma IndexOfFirst(d: Payouts, k: string, i: int)
    requires 0 <= i < |d| && d[i].0 == k && forall j :: 0 <= j < i ==> d[j].0 != k
    ensures IndexOf(d, k) == i
  {
  }

  /** Writing a key twice leaves the second value. */
  lemma SetTwice(d: Payouts, k: string, v: seq<real>, w: seq<real>)
    ensures Set(Set(d, k, v), k, w) == Set(d, k, w)
  {
    var d1 := Set(d, k, v);
    var i := IndexOf(d, k);
    if i == -1 {
      IndexOfFirst(d1, k, |d|);
    } else {
      assert forall j :: 0 <= j < i ==> d1[j] == d[j];
      IndexOfFirst(d1, k, i);
    }
  }

  /** Setting a list of the common length keeps every list that length. */
  lemma SetKeepsLengths(d: Payouts, k: string, v: seq<real>, n: int)
    requires forall j :: 0 <= j < |d| ==> |d[j].1| == n
    requires |v| == n
    ensures forall j :: 0 <= j < |Set(d, k, v)| ==> |Set(d, k, v)[j].1| == n
  {
  }

  /** No trade is a short share purchase, the one trade that raises. */
  predicate NoShortShares(trades: seq<Trade>)
  {
    forall k :: 0 <= k < |trades| ==> IsLong(trades[k]) || trades[k].optionType != "share_purchase"
  }

  /** calculate_payouts as a whole: each trade in turn sets its title's
      list to its payouts; the first trade that raises stops it. */
  function PayoutTable(d: Payouts, trades: seq<Trade>, prices: seq<real>): (r: Result<Payouts, PayoutError>)
    ensures r.Failure? <==> |prices| > 0 && !NoShortShares(trades)
    decreases |trades|
  {
    if |trades| == 0 then Success(d)
    else
      var previous := PayoutTable(d, trades[..|trades| - 1], prices);
      var t := trades[|trades| - 1];
      if previous.Failure? then previous
      else
        var payouts := LegPayouts(t, prices);
        if payouts.Failure? then Failure(payouts.error) else Success(Set(previous.value, t.title, payouts.value))
  }

  /** Once a trade raises, so does every longer list of trades. */
  lemma {:induction false} FailureStays(d: Payouts, trades: seq<Trade>, m: nat, prices: seq<real>)
    requires m <= |trades| && PayoutTable(d, trades[..m], prices).Failure?
    ensures PayoutTable(d, trades, prices).Failure?
    decreases |trades|
  {
    if m < |trades| {
      var n := |trades| - 1;
      assert trades[..n][..m] == trades[..m];
      FailureStays(d, trades[..n], m, prices);
    } else {
      assert trades[..m] == trades;
    }
  }

  /** With distinct titles and a fresh dictionary, entry k holds trade k's
      title and its payouts. */
  lemma {:induction false} TableOfDistinct(trades: seq<Trade>, prices: seq<real>)
    requires forall i, j :: 0 <= i < j < |trades| ==> trades[i].title != trades[j].title
    requires PayoutTable([], trades, prices).Success?
    ensures var d := PayoutTable([], trades, prices).value;
      |d| == |trades| && forall k :: 0 <= k < |trades| ==>
        LegPayouts(trades[k], prices).Success? && d[k] == (trades[k].title, LegPayouts(trades[k], prices).value)
    decreases |trades|
  {
    if |trades| > 0 {
      var n := |trades| - 1;
      var previous := PayoutTable([], trades[..n], prices);
      assert previous.Success?;
      TableOfDistinct(trades[..n], prices);
      var t := trades[n];
      forall j | 0 <= j < n
        ensures previous.value[j].0 != t.title
      {
        assert previous.value[j].0 == trades[j].title;
      }
      assert IndexOf(previous.value, t.title) == -1;
    }
  }

  // ---------------------------------------------------------------------
  // The combined payout

  /** The payout lists in dictionary order. */
  function Values(d: Payouts): (r: seq<seq<real>>)
    ensures |r| == |d| && forall k :: 0 <= k < |d| ==> r[k] == d[k].1
  {
    seq(|d|, k requires 0 <= k < |d| => d[k].1)
  }

  /** The length of the shortest list. */
  function ShortestLength(lists: seq<seq<real>>): (n: nat)
    requires |lists| > 0
    ensures forall k :: 0 <= k < |lists| ==> n <= |lists[k]|
    ensures exists k :: 0 <= k < |lists| && n == |lists[k]|
  {
    if |lists| == 1 then |lists[0]|
    else
      var init, last := ShortestLength(lists[..|lists| - 1]), |lists[|lists| - 1]|;
      if init <= last then init else last
  }

  /** sum() of the i-th entries, list by list. */
  function ColumnSum(lists: seq<seq<real>>, i: nat): real
    requires forall k :: 0 <= k < |lists| ==> i < |lists[k]|
  {
    if |lists| == 0 then 0.0 else ColumnSum(lists[..|lists| - 1], i) + lists[|lists| - 1][i]
  }

  /** [sum(p) for p in zip(*lists)]: zip stops at the shortest list and
      yields nothing for no lists at all. */
  function Combined(lists: seq<seq<real>>): (r: seq<real>)
    ensures |lists| == 0 ==> r == []
    ensures |lists| > 0 ==> |r| == ShortestLength(lists)
    ensures forall i :: 0 <= i < |r| ==> r[i] == ColumnSum(lists, i)
  {
    if |lists| == 0 then []
    else seq(ShortestLength(lists), i requires 0 <= i < ShortestLength(lists) => ColumnSum(lists, i))
  }

  /** The sum of all trades' payouts at one price. */
  function TotalPayout(trades: seq<Trade>, price: real): real
    requires NoShortShares(trades)
  {
    if |trades| == 0 then 0.0 else TotalPayout(trades[..|trades| - 1], price) + Payout(trades[|trades| - 1], price).value
  }

  /** The column sums of per-trade payout lists are the total payouts. */
  lemma {:induction false} ColumnSumIsTotal(lists: seq<seq<real>>, trades: seq<Trade>, prices: seq<real>, i: nat)
    requires |lists| == |trades| && i < |prices| && NoShortShares(trades)
    requires forall k :: 0 <= k < |trades| ==> lists[k] == LegPayouts(trades[k], prices).value
    ensures forall k :: 0 <= k < |lists| ==> i < |lists[k]|
    ensures ColumnSum(lists, i) == TotalPayout(trades, prices[i])
    decreases |trades|
  {
    if |trades| > 0 {
      var n := |trades| - 1;
      ColumnSumIsTotal(lists[..n], trades[..n], prices, i);
    }
  }

  /** With distinct titles, the combined payout at grid point i is the sum
      of every trade's payout at price i, one value per grid price. */
  lemma CombinedIsTotal(trades: seq<Trade>, prices: seq<real>)
    requires |trades| > 0 && NoShortShares(trades)
    requires forall i, j :: 0 <= i < j < |trades| ==> trades[i].title != trades[j].title
    ensures var c := Combined(Values(PayoutTable([], trades, prices).value));
      |c| == |prices| && forall i :: 0 <= i < |prices| ==> c[i] == TotalPayout(trades, prices[i])
  {
    var d := PayoutTable([], trades, prices).value;
    TableOfDistinct(trades, prices);
    var lists := Values(d);
    forall i | 0 <= i < |prices|
      ensures Combined(lists)[i] == TotalPayout(trades, prices[i])
    {
      ColumnSumIsTotal(lists, trades, prices, i);
    }
  }

  // ---------------------------------------------------------------------
  // Profitable ranges

  /** A maximal run of grid indices lo..hi whose combined payout is
      positive. */
  predicate IsRun(c: seq<real>, run: (int, int))
  {
    && 0 <= run.0 <= run.1 < |c|
    && (forall j :: run.0 <= j <= run.1 ==> c[j] > 0.0)
    && (run.0 == 0 || c[run.0 - 1] <= 0.0)
    && (run.1 == |c| - 1 || c[run.1 + 1] <= 0.0)
  }

  /** Runs in ascending order with a gap between each two. */
  predicate Ordered(runs: seq<(int, int)>)
  {
    forall k, m :: 0 <= k < m < |runs| ==> runs[k].1 + 1 < runs[m].0
  }

  /** Every positive index before n lies in one of the runs. */
  predicate Covers(c: seq<real>, runs: seq<(int, int)>, n: int)
  {
    forall j :: 0 <= j < n && j < |c| && c[j] > 0.0 ==> exists k :: 0 <= k < |runs| && runs[k].0 <= j <= runs[k].1
  }

  /** The runs are exactly the maximal positive runs of c, in order. */
  predicate IsRunsOf(c: seq<real>, runs: seq<(int, int)>)
  {
    (forall k :: 0 <= k < |runs| ==> IsRun(c, runs[k])) && Ordered(runs) && Covers(c, runs, |c|)
  }

  /** The (first, last) price of each run. */
  function RangesOf(runs: seq<(int, int)>, prices: seq<real>): (r: seq<(real, real)>)
    requires forall k :: 0 <= k < |runs| ==> 0 <= runs[k].0 <= runs[k].1 < |prices|
    ensures |r| == |runs| && forall k :: 0 <= k < |runs| ==> r[k] == (prices[runs[k].0], prices[runs[k].1])
  {
    seq(|runs|, k requires 0 <= k < |runs| => (prices[runs[k].0], prices[runs[k].1]))
  }

  /** The runs closed by the scan so far: maximal, ordered, all ending
      before the value at start - 1 and covering every positive index before
      start. */
  predicate Scanned(c: seq<real>, runs: seq<(int, int)>, start: int)
  {
    && (forall k :: 0 <= k < |runs| ==> IsRun(c, runs[k]) && runs[k].1 + 1 < start)
    && Ordered(runs) && Covers(c, runs, start)
  }

  /** The state of the scan before grid index i: the open range holds the
      prices from start, every value since start is positive, the closed
      runs are Scanned up to start and ranges holds their prices. */
  predicate ScanState(c: seq<real>, prices: seq<real>, i: int, start: int, current: seq<real>,
                      ranges: seq<(real, real)>, runs: seq<(int, int)>)
  {
    && |c| <= |prices| && 0 <= start <= i <= |c| && |current| == i - start
    && (|current| > 0 ==> current[0] == prices[start] && current[|current| - 1] == prices[i - 1])
    && (forall j :: start <= j < i ==> c[j] > 0.0)
    && (start == 0 || c[start - 1] <= 0.0)
    && Scanned(c, runs, start)
    && (forall k :: 0 <= k < |runs| ==> 0 <= runs[k].0 <= runs[k].1 < |c|)
    && ranges == RangesOf(runs, prices)
  }

  /** The scan of print_summary: extend the current range while the
      combined payout is positive, close it at the first non-positive value
      and once more at the end. runs gives the grid indices of each range. */
  method ProfitableRanges(c: seq<real>, prices: seq<real>) returns (ranges: seq<(real, real)>, runs: seq<(int, int)>)
    requires |c| <= |prices|
    ensures IsRunsOf(c, runs)
    ensures ranges == RangesOf(runs, prices)
  {
    ranges, runs := [], [];
    var current: seq<real> := [];
    var start := 0;
    for i := 0 to |c|
      invariant ScanState(c, prices, i, start, current, ranges, runs)
    {
      start, current, ranges, runs := ScanStep(c, prices, i, start, current, ranges, runs);
    }
    if |current| > 0 {
      ranges, runs := CloseRange(c, prices, |c|, start, current, ranges, runs);
      ScannedAll(c, runs, |c| + 1);
    } else {
      ScannedAll(c, runs, start);
    }
  }

  /** One iteration of the scan, at grid index i. */
  method ScanStep(c: seq<real>, prices: seq<real>, i: int, start: int, current: seq<real>,
                  ranges: seq<(real, real)>, runs: seq<(int, int)>)
    returns (start': int, current': seq<real>, ranges': seq<(real, real)>, runs': seq<(int, int)>)
    requires ScanState(c, prices, i, start, current, ranges, runs) && i < |c|
    ensures ScanState(c, prices, i + 1, start', current', ranges', runs')
  {
    if c[i] > 0.0 {
      return start, current + [prices[i]], ranges, runs;
    }
    if |current| > 0 {
      ranges', runs' := CloseRange(c, prices, i, start, current, ranges, runs);
    } else {
      SkipStep(c, runs, i);
      ranges', runs' := ranges, runs;
    }
    return i + 1, [], ranges', runs';
  }

  /** Closing the open range at index end, where the values stop being
      positive or the grid ends: its first and last price become a range. */
  method CloseRange(c: seq<real>, prices: seq<real>, end: int, start: int, current: seq<real>,
                    ranges: seq<(real, real)>, runs: seq<(int, int)>)
    returns (ranges': seq<(real, real)>, runs': seq<(int, int)>)
    requires ScanState(c, prices, end, start, current, ranges, runs) && |current| > 0
    requires end == |c| || c[end] <= 0.0
    ensures Scanned(c, runs', end + 1) && ranges' == RangesOf(runs', prices)
    ensures forall k :: 0 <= k < |runs'| ==> 0 <= runs'[k].0 <= runs'[k].1 < |c|
  {
    ranges' := ranges + [(current[0], current[|current| - 1])];
    RangesOfAppend(runs, (start, end - 1), prices);
    CloseRun(c, runs, start, end);
    runs' := runs + [(start, end - 1)];
  }

  /** Closing the run start..end - 1 at end keeps the scan's invariant with
      the scan resuming after end. */
  lemma CloseRun(c: seq<real>, runs: seq<(int, int)>, start: int, end: int)
    requires 0 <= start < end <= |c|
    requires end == |c| || c[end] <= 0.0
    requires forall j :: start <= j < end ==> c[j] > 0.0
    requires start == 0 || c[start - 1] <= 0.0
    requires Scanned(c, runs, start)
    ensures Scanned(c, runs + [(start, end - 1)], end + 1)
  {
    var run := (start, end - 1);
    var runs' := runs + [run];
    CoversAppend(c, runs, run, start, end + 1);
    assert IsRun(c, run);
    forall k | 0 <= k < |runs'|
      ensures IsRun(c, runs'[k]) && runs'[k].1 + 1 < end + 1
    {
      if k < |runs| {
        assert runs'[k] == runs[k];
      }
    }
    forall k, m | 0 <= k < m < |runs'|
      ensures runs'[k].1 + 1 < runs'[m].0
    {
      assert runs'[k] == runs[k];
    }
  }

  /** Adding a run that covers the positive indices from start to n
      extends the coverage to n. */
  lemma CoversAppend(c: seq<real>, runs: seq<(int, int)>, run: (int, int), start: int, n: int)
    requires Covers(c, runs, start)
    requires 0 <= start
    requires forall j :: start <= j < n && j < |c| && c[j] > 0.0 ==> run.0 <= j <= run.1
    ensures Covers(c, runs + [run], n)
  {
    var runs' := runs + [run];
    forall j | 0 <= j < n && j < |c| && c[j] > 0.0
      ensures exists k :: 0 <= k < |runs'| && runs'[k].0 <= j <= runs'[k].1
    {
      if j < start {
        var k :| 0 <= k < |runs| && runs[k].0 <= j <= runs[k].1;
        assert runs'[k] == runs[k];
      } else {
        assert runs'[|runs|] == run;
      }
    }
  }

  /** A non-positive value needs no run to cover it. */
  lemma SkipStep(c: seq<real>, runs: seq<(int, int)>, n: int)
    requires Scanned(c, runs, n) && 0 <= n < |c| && c[n] <= 0.0
    ensures Scanned(c, runs, n + 1)
  {
  }

  /** Once the scan has passed the last value, its runs are the runs of c. */
  lemma ScannedAll(c: seq<real>, runs: seq<(int, int)>, n: int)
    requires Scanned(c, runs, n) && n >= |c|
    ensures IsRunsOf(c, runs)
  {
  }

  /** Appending a run appends its first and last price. */
  lemma RangesOfAppend(runs: seq<(int, int)>, run: (int, int), prices: seq<real>)
    requires forall k :: 0 <= k < |runs| ==> 0 <= runs[k].0 <= runs[k].1 < |prices|
    requires 0 <= run.0 <= run.1 < |prices|
    ensures RangesOf(runs + [run], prices) == RangesOf(runs, prices) + [(prices[run.0], prices[run.1])]
  {
    assert forall k :: 0 <= k < |runs| ==> (runs + [run])[k] == runs[k];
  }

  /** When the combination is still profitable at the last grid price, the
      last range ends there, which the summary prints as "Infinite". */
  lemma LastRunOpenEnded(c: seq<real>, runs: seq<(int, int)>)
    requires IsRunsOf(c, runs) && |c| > 0 && c[|c| - 1] > 0.0
    ensures |runs| > 0 && runs[|runs| - 1].1 == |c| - 1
  {
    var k :| 0 <= k < |runs| && runs[k].0 <= |c| - 1 <= runs[k].1;
  }

  /** How the summary prints the end of a range: 'Infinite' when it is
      the last grid price. */
  function EndLabel(end: real, prices: seq<real>): Extreme
    requires |prices| > 0
  {
    if end == prices[|prices| - 1] then Infinite else Amount(end)
  }

  /** On a strictly increasing grid, a range is printed as reaching
      'Infinite' exactly when it is the last one and the combination is
      still positive at the last price. */
  lemma EndLabels(c: seq<real>, runs: seq<(int, int)>, prices: seq<real>)
    requires IsRunsOf(c, runs) && |c| == |prices| > 0
    requires forall i, j :: 0 <= i < j < |prices| ==> prices[i] < prices[j]
    ensures forall k :: 0 <= k < |runs| ==>
      (EndLabel(RangesOf(runs, prices)[k].1, prices) == Infinite <==> k == |runs| - 1 && c[|c| - 1] > 0.0)
  {
    var ranges := RangesOf(runs, prices);
    forall k | 0 <= k < |runs|
      ensures EndLabel(ranges[k].1, prices) == Infinite <==> k == |runs| - 1 && c[|c| - 1] > 0.0
    {
      assert IsRun(c, runs[k]);
      if c[|c| - 1] > 0.0 {
        LastRunOpenEnded(c, runs);
        if k < |runs| - 1 {
          assert runs[k].1 + 1 < runs[|runs| - 1].0;
        }
      }
    }
  }

  /** There is no profitable range exactly when the combination is never
      positive. */
  lemma NoRunIffNeverPositive(c: seq<real>, runs: seq<(int, int)>)
    requires IsRunsOf(c, runs)
    ensures runs == [] <==> forall j :: 0 <= j < |c| ==> c[j] <= 0.0
  {
    if |runs| > 0 {
      assert IsRun(c, runs[0]);
      assert c[runs[0].0] > 0.0;
    }
  }

  /** Between two runs lies a non-positive value. */
  lemma RunsGap(c: seq<real>, runs: seq<(int, int)>)
    requires IsRunsOf(c, runs)
    ensures |runs| >= 2 ==> runs[0].1 + 1 < |c| && c[runs[0].1 + 1] <= 0.0
  {
    if |runs| >= 2 {
      assert IsRun(c, runs[0]) && IsRun(c, runs[1]);
      assert runs[0].1 + 1 < runs[1].0;
    }
  }

  /** The whole grid is a single range exactly when the combination is
      positive everywhere on a non-empty grid. */
  lemma OneRunIffAlwaysPositive(c: seq<real>, runs: seq<(int, int)>)
    requires IsRunsOf(c, runs) && |c| > 0
    ensures runs == [(0, |c| - 1)] <==> forall j :: 0 <= j < |c| ==> c[j] > 0.0
  {
    if forall j :: 0 <= j < |c| ==> c[j] > 0.0 {
      assert c[0] > 0.0;
      var k :| 0 <= k < |runs| && runs[k].0 <= 0 <= runs[k].1;
      RunsGap(c, runs);
      forall m | 0 <= m < |runs|
        ensures runs[m] == (0, |c| - 1)
      {
        assert IsRun(c, runs[m]);
      }
    } else if runs == [(0, |c| - 1)] {
      assert IsRun(c, runs[0]);
    }
  }

  // ---------------------------------------------------------------------
  // The summary

  /** A maximum or minimum as printed: 'Infinite' or an amount. */
  datatype Extreme = Infinite | Amount(value: real)

  /** max() and min() of an empty combination raise ValueError. */
  datatype SummaryError = EmptyCombination

  /** The summary print_summary prints: its extremes and the (first, last)
      price of each profitable range, with the grid indices of each. */
  datatype Summary = Summary(maxProfit: Extreme, maxLoss: Extreme, ranges: seq<(real, real)>, runs: seq<(int, int)>)

  predicate HasLongCall(trades: seq<Trade>)
  {
    exists k :: 0 <= k < |trades| && trades[k].optionType == "call" && trades[k].position == "long"
  }

  predicate HasShortCall(trades: seq<Trade>)
  {
    exists k :: 0 <= k < |trades| && trades[k].optionType == "call" && trades[k].position == "short"
  }

  /** max() of a non-empty list. */
  function MaxOf(s: seq<real>): (m: real)
    requires |s| > 0
    ensures (exists i :: 0 <= i < |s| && s[i] == m) && forall i :: 0 <= i < |s| ==> s[i] <= m
  {
    if |s| == 1 then s[0]
    else
      var m := MaxOf(s[..|s| - 1]);
      assert forall i :: 0 <= i < |s| - 1 ==> s[..|s| - 1][i] == s[i];
      if s[|s| - 1] > m then s[|s| - 1] else m
  }

  /** min() of a non-empty list. */
  function MinOf(s: seq<real>): (m: real)
    requires |s| > 0
    ensures (exists i :: 0 <= i < |s| && s[i] == m) && forall i :: 0 <= i < |s| ==> m <= s[i]
  {
    if |s| == 1 then s[0]
    else
      var m := MinOf(s[..|s| - 1]);
      assert forall i :: 0 <= i < |s| - 1 ==> s[..|s| - 1][i] == s[i];
      if s[|s| - 1] < m then s[|s| - 1] else m
  }

  /** The maximum profit: the true maximum for a spread (a long and a short
      call), otherwise 'Infinite' when there is a long call. */
  function MaxProfit(trades: seq<Trade>, c: seq<real>): Extreme
    requires |c| > 0
  {
    if HasLongCall(trades) && HasShortCall(trades) then Amount(MaxOf(c))
    else if HasLongCall(trades) then Infinite
    else Amount(MaxOf(c))
  }

  /** The maximum loss: the true minimum for a spread, otherwise 'Infinite'
      when there is a short call. */
  function MaxLoss(trades: seq<Trade>, c: seq<real>): Extreme
    requires |c| > 0
  {
    if HasLongCall(trades) && HasShortCall(trades) then Amount(MinOf(c))
    else if HasShortCall(trades) then Infinite
    else Amount(MinOf(c))
  }

  /** The profit is reported unbounded exactly for a long call without a
      short one, the loss exactly for a short call without a long one, and
      otherwise as the extreme of the combination. */
  lemma InfiniteRules(trades: seq<Trade>, c: seq<real>)
    requires |c| > 0
    ensures MaxProfit(trades, c) == Infinite <==> HasLongCall(trades) && !HasShortCall(trades)
    ensures MaxLoss(trades, c) == Infinite <==> HasShortCall(trades) && !HasLongCall(trades)
    ensures MaxProfit(trades, c).Amount? ==> forall i :: 0 <= i < |c| ==> c[i] <= MaxProfit(trades, c).value
    ensures MaxLoss(trades, c).Amount? ==> forall i :: 0 <= i < |c| ==> MaxLoss(trades, c).value <= c[i]
    ensures !(MaxProfit(trades, c) == Infinite && MaxLoss(trades, c) == Infinite)
  {
  }

  /** An option strategy: its trades, the stock price grid and the payouts
      dictionary calculate_payouts fills. */
  class OptionStrategy {
    const strategyName: string
    const options: seq<Trade>
    const stockPrices: seq<real>
    var payouts: Payouts

    /** Every list in the dictionary has one payout per grid price. */
    predicate Valid()
      reads this
    {
      forall k :: 0 <= k < |payouts| ==> |payouts[k].1| == |stockPrices|
    }

    /** __init__ with an empty dictionary; the grid is given. */
    constructor (strategyName: string, options: seq<Trade>, stockPrices: seq<real>)
      ensures this.strategyName == strategyName && this.options == options && this.stockPrices == stockPrices
      ensures payouts == [] && Valid()
    {
      this.strategyName, this.options, this.stockPrices := strategyName, options, stockPrices;
      payouts := [];
    }

    /** calculate_payouts: for each trade, its title's list is reset and
        filled with one payout per grid price. */
    method CalculatePayouts() returns (r: Result<(), PayoutError>)
      requires Valid()
      modifies this
      ensures r.Success? <==> PayoutTable(old(payouts), options, stockPrices).Success?
      ensures r.Success? ==> payouts == PayoutTable(old(payouts), options, stockPrices).value && Valid()
      ensures r.Failure? ==> r.error == CannotShortShares
    {
      ghost var start := payouts;
      for j := 0 to |options|
        invariant PayoutTable(start, options[..j], stockPrices) == Success(payouts)
        invariant Valid()
      {
        assert options[..j + 1][..j] == options[..j];
        var trade := options[j];
        ghost var before := payouts;
        payouts := Set(payouts, trade.title, []);
        var list := FillPayouts(trade);
        if list.Failure? {
          FailureStays(start, options, j + 1, stockPrices);
          return Failure(list.error);
        }
        SetTwice(before, trade.title, [], list.value);
        SetKeepsLengths(before, trade.title, list.value, |stockPrices|);
        payouts := Set(payouts, trade.title, list.value);
      }
      assert options[..|options|] == options;
      return Success(());
    }

    /** The inner loop of calculate_payouts for one trade. */
    method FillPayouts(trade: Trade) returns (r: Result<seq<real>, PayoutError>)
      ensures r == LegPayouts(trade, stockPrices)
    {
      var list := [];
      for i := 0 to |stockPrices|
        invariant i > 0 ==> IsLong(trade) || trade.optionType != "share_purchase"
        invariant |list| == i
        invariant forall n :: 0 <= n < i ==> Payout(trade, stockPrices[n]).Success? && list[n] == Payout(trade, stockPrices[n]).value
      {
        var price, strike, cost := stockPrices[i], trade.strikePrice, trade.optionCost;
        var payout: real;
        if trade.position == "long" {
          if trade.optionType == "share_purchase" {
            payout := price - cost;
          } else if trade.optionType == "call" {
            payout := Max((price - strike) - cost, -cost);
          } else {
            payout := Max((strike - price) - cost, -cost);
          }
        } else {
          if trade.optionType == "share_purchase" {
            return Failure(CannotShortShares);
          } else if trade.optionType == "call" {
            payout := Min((strike - price) + cost, cost);
          } else {
            payout := Min(cost - Max(strike - price, 0.0), cost);
          }
        }
        list := list + [payout];
      }
      assert list == LegPayouts(trade, stockPrices).value;
      return Success(list);
    }

    /** print_summary: the combination of the payout lists, its extremes
        with the 'Infinite' rules, and the profitable ranges. */
    method PrintSummary() returns (r: Result<Summary, SummaryError>)
      requires Valid()
      ensures var c := Combined(Values(payouts));
        && (r.Failure? <==> |c| == 0)
        && (r.Success? ==> r.value.maxProfit == MaxProfit(options, c) && r.value.maxLoss == MaxLoss(options, c)
                           && IsRunsOf(c, r.value.runs) && r.value.ranges == RangesOf(r.value.runs, stockPrices))
    {
      var c := Combined(Values(payouts));
      if |c| == 0 {
        return Failure(EmptyCombination);
      }
      if |payouts| > 0 {
        assert |c| <= |payouts[0].1|;
      }
      var ranges, runs := ProfitableRanges(c, stockPrices);
      return Success(Summary(MaxProfit(options, c), MaxLoss(options, c), ranges, runs));
    }
  }

  /** The combined payout has one value per grid price whenever there is at
      least one list and every list covers the grid. */
  lemma CombinedLength(d: Payouts, n: nat)
    requires |d| > 0 && forall k :: 0 <= k < |d| ==> |d[k].1| == n
    ensures |Combined(Values(d))| == n
  {
  }
}
