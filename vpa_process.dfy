/** process_data of MarketAnalyzer (vpa/app_runner.py) as a function of the
    windows' bars and the rows: every processed bar is pushed onto all three
    windows, and once window three is full it is scored. */
module VpaProcess {
  import opened Results
  import opened BoundedWindow
  import opened VpaCandle
  import opened VpaTrend
  import opened VpaScoring

  /** One row of the data frame: its index label and its bar. */
  datatype Row = Row(index: int, bar: Bar)

  /** The MAX_ROWS cut-off for test data: the loop stops at the first row
      whose index reaches a positive MAX_ROWS. */
  predicate Stops(c: Config, row: Row)
  {
    !c.useRealData && 0 < c.maxRows <= row.index
  }

  /** Every window within its maxlen. */
  predicate Fits(c: Config, ws: Windows)
  {
    |ws.one| <= c.periodOneLength && |ws.two| <= c.periodTwoLength && |ws.three| <= c.periodThreeLength
  }

  /** Appending one bar to each window. */
  function Step(c: Config, ws: Windows, b: Bar): (r: Windows)
    requires ValidConfig(c) && Fits(c, ws)
    ensures Fits(c, r) && NonEmpty(r)
  {
    Windows(Push(ws.one, b, c.periodOneLength), Push(ws.two, b, c.periodTwoLength),
            Push(ws.three, b, c.periodThreeLength))
  }

  /** Appending several bars to each window. */
  function StepAll(c: Config, ws: Windows, bars: seq<Bar>): (r: Windows)
    requires ValidConfig(c) && Fits(c, ws)
    ensures Fits(c, r)
  {
    Windows(PushAll(ws.one, bars, c.periodOneLength), PushAll(ws.two, bars, c.periodTwoLength),
            PushAll(ws.three, bars, c.periodThreeLength))
  }

  /** The rows before the first one that stops the loop. */
  function Processed(c: Config, rows: seq<Row>): (r: seq<Row>)
    ensures |r| <= |rows| && r == rows[..|r|]
    ensures forall i :: 0 <= i < |r| ==> !Stops(c, r[i])
    ensures |r| < |rows| ==> Stops(c, rows[|r|])
  {
    if |rows| == 0 || Stops(c, rows[0]) then [] else [rows[0]] + Processed(c, rows[1..])
  }

  function RowBars(rows: seq<Row>): (r: seq<Bar>)
    ensures |r| == |rows| && forall i :: 0 <= i < |rows| ==> r[i] == rows[i].bar
  {
    seq(|rows|, i requires 0 <= i < |rows| => rows[i].bar)
  }

  /** The loop of process_data from windows ws with trade_signal equal to
      signal: the returned value (or the error that ended the loop) and the
      windows afterwards. */
  function Run(c: Config, ws: Windows, rows: seq<Row>, signal: real): (r: (Result<real, AdxError>, Windows))
    requires ValidConfig(c) && Fits(c, ws)
    ensures Fits(c, r.1)
    ensures NonEmpty(ws) || |Processed(c, rows)| > 0 ==> NonEmpty(r.1)
    decreases |rows|
  {
    if |rows| == 0 || Stops(c, rows[0]) then (Success(signal), ws)
    else
      var next := Step(c, ws, rows[0].bar);
      if |next.three| < c.periodThreeLength then Run(c, next, rows[1..], signal)
      else
        match SignalsOf(c, next, rows[0].bar)
        case Failure(e) => (Failure(e), next)
        case Success(s) => Run(c, next, rows[1..], s.Total())
  }

  /** Why process_data ends with an exception: the data frame has no rows,
      so reading its last index label fails before the loop, or scoring a
      candle failed inside the loop. */
  datatype ProcessError = EmptyFrame | Scoring(e: AdxError)

  /** process_data on a whole data frame from windows ws: an empty frame
      raises before any row is read; otherwise the loop runs from a trade
      signal of 0 and a scoring error is passed on. */
  function ProcessFrame(c: Config, ws: Windows, rows: seq<Row>): (r: (Result<real, ProcessError>, Windows))
    requires ValidConfig(c) && Fits(c, ws)
    ensures r.0 == Failure(EmptyFrame) <==> |rows| == 0
    ensures |rows| == 0 ==> r.1 == ws
    ensures r.1 == Run(c, ws, rows, 0.0).1 && Fits(c, r.1)
    ensures r.0.Success? <==> |rows| > 0 && Run(c, ws, rows, 0.0).0.Success?
    ensures r.0.Success? ==> r.0.value == Run(c, ws, rows, 0.0).0.value
    ensures r.0.Failure? && |rows| > 0 ==> r.0.error == Scoring(Run(c, ws, rows, 0.0).0.error)
  {
    if |rows| == 0 then (Failure(EmptyFrame), ws)
    else
      var (s, after) := Run(c, ws, rows, 0.0);
      match s
      case Success(v) => (Success(v), after)
      case Failure(e) => (Failure(Scoring(e)), after)
  }

  /** Rows after the first stopping row are never looked at. */
  lemma {:induction false} RunIgnoresRest(c: Config, ws: Windows, rows: seq<Row>, signal: real)
    requires ValidConfig(c) && Fits(c, ws)
    ensures Run(c, ws, rows, signal) == Run(c, ws, Processed(c, rows), signal)
    decreases |rows|
  {
    if |rows| > 0 && !Stops(c, rows[0]) {
      var next := Step(c, ws, rows[0].bar);
      var p := Processed(c, rows);
      assert p[0] == rows[0] && p[1..] == Processed(c, rows[1..]);
      RunIgnoresRest(c, next, rows[1..], signal);
      if |next.three| >= c.periodThreeLength && SignalsOf(c, next, rows[0].bar).Success? {
        RunIgnoresRest(c, next, rows[1..], SignalsOf(c, next, rows[0].bar).value.Total());
      }
    }
  }

  /** While window three has not filled, nothing is scored: the signal
      passed in comes back unchanged and every bar has been pushed. */
  lemma {:induction false} RunQuiet(c: Config, ws: Windows, rows: seq<Row>, signal: real)
    requires ValidConfig(c) && Fits(c, ws)
    requires |ws.three| + |Processed(c, rows)| < c.periodThreeLength
    ensures Run(c, ws, rows, signal) == (Success(signal), StepAll(c, ws, RowBars(Processed(c, rows))))
    decreases |rows|
  {
    if |rows| == 0 || Stops(c, rows[0]) {
      assert RowBars(Processed(c, rows)) == [];
    } else {
      var next := Step(c, ws, rows[0].bar);
      var rest := RowBars(Processed(c, rows[1..]));
      assert |next.three| == |ws.three| + 1;
      assert RowBars(Processed(c, rows)) == [rows[0].bar] + rest;
      calc {
        Run(c, ws, rows, signal);
        Run(c, next, rows[1..], signal);
        { RunQuiet(c, next, rows[1..], signal); }
        (Success(signal), StepAll(c, next, rest));
        { StepAllCons(c, ws, rows[0].bar, rest); }
        (Success(signal), StepAll(c, ws, [rows[0].bar] + rest));
      }
    }
  }

  /** Pushing a first bar, then the rest, is pushing them all. */
  lemma StepAllCons(c: Config, ws: Windows, b: Bar, bars: seq<Bar>)
    requires ValidConfig(c) && Fits(c, ws)
    ensures StepAll(c, ws, [b] + bars) == StepAll(c, Step(c, ws, b), bars)
  {
    assert ([b] + bars)[0] == b && ([b] + bars)[1..] == bars;
  }

  /** A run that ends without error has pushed every processed bar onto
      every window. */
  lemma {:induction false} RunWindows(c: Config, ws: Windows, rows: seq<Row>, signal: real)
    requires ValidConfig(c) && Fits(c, ws)
    requires Run(c, ws, rows, signal).0.Success?
    ensures Run(c, ws, rows, signal).1 == StepAll(c, ws, RowBars(Processed(c, rows)))
    decreases |rows|
  {
    var bars := RowBars(Processed(c, rows));
    if |rows| == 0 || Stops(c, rows[0]) {
      assert bars == [];
    } else {
      var next := Step(c, ws, rows[0].bar);
      assert bars == [rows[0].bar] + RowBars(Processed(c, rows[1..]));
      if |next.three| < c.periodThreeLength {
        RunWindows(c, next, rows[1..], signal);
      } else {
        RunWindows(c, next, rows[1..], SignalsOf(c, next, rows[0].bar).value.Total());
      }
    }
  }

  /** From empty windows, each window ends up holding the last maxlen
      processed bars, oldest first. */
  lemma FreshRunWindows(c: Config, rows: seq<Row>, signal: real)
    requires ValidConfig(c)
    requires Run(c, Windows([], [], []), rows, signal).0.Success?
    ensures var ws := Run(c, Windows([], [], []), rows, signal).1;
      var bars := RowBars(Processed(c, rows));
      && ws.one == LastN(bars, c.periodOneLength)
      && ws.two == LastN(bars, c.periodTwoLength)
      && ws.three == LastN(bars, c.periodThreeLength)
  {
    var bars := RowBars(Processed(c, rows));
    RunWindows(c, Windows([], [], []), rows, signal);
    PushAllLastN([], bars, c.periodOneLength);
    PushAllLastN([], bars, c.periodTwoLength);
    PushAllLastN([], bars, c.periodThreeLength);
    assert [] + bars == bars;
  }

  /** When the last processed bar filled window three, a successful run
      returns that bar's total. */
  lemma {:induction false} RunReturnsLastTotal(c: Config, ws: Windows, rows: seq<Row>, signal: real)
    requires ValidConfig(c) && Fits(c, ws)
    requires |Processed(c, rows)| > 0
    requires Run(c, ws, rows, signal).0.Success?
    requires |Run(c, ws, rows, signal).1.three| == c.periodThreeLength
    ensures var r := Run(c, ws, rows, signal);
      var last := Processed(c, rows)[|Processed(c, rows)| - 1];
      SignalsOf(c, r.1, last.bar).Success? && r.0.value == SignalsOf(c, r.1, last.bar).value.Total()
    decreases |rows|
  {
    var next := Step(c, ws, rows[0].bar);
    var p := Processed(c, rows);
    assert !Stops(c, rows[0]) && p[1..] == Processed(c, rows[1..]);
    var t;
    if |next.three| < c.periodThreeLength {
      t := signal;
    } else {
      var s := SignalsOf(c, next, rows[0].bar);
      assert s.Success?;
      t := s.value.Total();
    }
    assert Run(c, ws, rows, signal) == Run(c, next, rows[1..], t);
    if |Processed(c, rows[1..])| > 0 {
      RunReturnsLastTotal(c, next, rows[1..], t);
    } else {
      RunIgnoresRest(c, next, rows[1..], t);
    }
  }
}
