/** The pattern-and-anomaly signal scorer (vpa/signal.py, repeated in
    QuantConnect/SP-77.py and QuantConnect/SP-76.py): a strength that grows by
    5 for every pattern and every anomaly flag of the candle, and a direction
    set by the shooting star and then the hammer. Every pattern hit also
    logs a message built from the candle's time, which raises when that time
    cannot be formatted that way. The candle history argument of the source
    is never read, so it has no counterpart here. */
module VpaSignal {
  import opened Numeric
  import opened Results

  /** The "Direction" entry: "None", "SHORT" or "LONG". */
  datatype Direction = NoDirection | Short | Long

  /** The signal dictionary {"STRENGTH": ..., "Direction": ...}. */
  datatype Signal = Signal(strength: int, direction: Direction)

  function Indicator(b: bool): nat
  {
    if b then 1 else 0
  }

  /** The signal of a candle with the given pattern flags and anomaly lists. */
  function SignalOf(star: bool, hammer: bool, doji: bool,
                    spreadAnomaly: seq<bool>, volumeAnomaly: seq<bool>): Signal
  {
    var patterns := Indicator(star) + Indicator(hammer) + Indicator(doji);
    Signal(5 * (patterns + CountTrue(spreadAnomaly) + CountTrue(volumeAnomaly)),
           if hammer then Long else if star then Short else NoDirection)
  }

  /** The TypeError of "SHOOTING STAR: " + time and the other pattern
      messages when the candle's time is not a string. */
  datatype SignalError = TimeNotFormattable

  /** calculate_signal: the three pattern tests in order, then one pass over
      each anomaly list. timeFormats says whether the candle's time can be
      put into a pattern message (for vpa/signal.py and SP-77, whether it is
      a str); when it cannot, the first pattern hit raises. */
  method CalculateSignal(timeFormats: bool, star: bool, hammer: bool, doji: bool,
                         spreadAnomaly: seq<bool>, volumeAnomaly: seq<bool>) returns (r: Result<Signal, SignalError>)
    ensures r.Failure? <==> !timeFormats && (star || hammer || doji)
    ensures r.Failure? ==> r.error == TimeNotFormattable
    ensures r.Success? ==> r.value == SignalOf(star, hammer, doji, spreadAnomaly, volumeAnomaly)
  {
    var signal := Signal(0, NoDirection);
    if star {
      signal := signal.(strength := signal.strength + 5, direction := Short);
      if !timeFormats {
        return Failure(TimeNotFormattable);
      }
    }
    if hammer {
      signal := signal.(strength := signal.strength + 5, direction := Long);
      if !timeFormats {
        return Failure(TimeNotFormattable);
      }
    }
    if doji {
      signal := signal.(strength := signal.strength + 5);
      if !timeFormats {
        return Failure(TimeNotFormattable);
      }
    }
    ghost var patterns := signal.strength;
    for i := 0 to |spreadAnomaly|
      invariant signal.strength == patterns + 5 * CountTrue(spreadAnomaly[..i])
      invariant signal.direction == SignalOf(star, hammer, doji, spreadAnomaly, volumeAnomaly).direction
    {
      assert spreadAnomaly[..i + 1][..i] == spreadAnomaly[..i];
      if spreadAnomaly[i] {
        signal := signal.(strength := signal.strength + 5);
      }
    }
    assert spreadAnomaly[..|spreadAnomaly|] == spreadAnomaly;
    ghost var withSpread := signal.strength;
    for i := 0 to |volumeAnomaly|
      invariant signal.strength == withSpread + 5 * CountTrue(volumeAnomaly[..i])
      invariant signal.direction == SignalOf(star, hammer, doji, spreadAnomaly, volumeAnomaly).direction
    {
      assert volumeAnomaly[..i + 1][..i] == volumeAnomaly[..i];
      if volumeAnomaly[i] {
        signal := signal.(strength := signal.strength + 5);
      }
    }
    assert volumeAnomaly[..|volumeAnomaly|] == volumeAnomaly;
    return Success(signal);
  }

  /** The strength is a non-negative multiple of 5, at most 5 for each
      pattern and each anomaly flag. */
  lemma StrengthBounds(star: bool, hammer: bool, doji: bool,
                       spreadAnomaly: seq<bool>, volumeAnomaly: seq<bool>)
    ensures var s := SignalOf(star, hammer, doji, spreadAnomaly, volumeAnomaly).strength;
      && s >= 0 && s % 5 == 0
      && s <= 5 * (3 + |spreadAnomaly| + |volumeAnomaly|)
  {
  }

  /** The strength is zero exactly when no pattern and no anomaly fired. */
  lemma {:induction false} StrengthZero(star: bool, hammer: bool, doji: bool,
                                        spreadAnomaly: seq<bool>, volumeAnomaly: seq<bool>)
    ensures SignalOf(star, hammer, doji, spreadAnomaly, volumeAnomaly).strength == 0
      <==> !star && !hammer && !doji
           && (forall i :: 0 <= i < |spreadAnomaly| ==> !spreadAnomaly[i])
           && (forall i :: 0 <= i < |volumeAnomaly| ==> !volumeAnomaly[i])
  {
    CountTrueZero(spreadAnomaly);
    CountTrueZero(volumeAnomaly);
  }

  /** No true flag is the same as a count of zero. */
  lemma {:induction false} CountTrueZero(flags: seq<bool>)
    ensures CountTrue(flags) == 0 <==> forall i :: 0 <= i < |flags| ==> !flags[i]
  {
    if |flags| > 0 {
      CountTrueZero(flags[..|flags| - 1]);
      assert forall i :: 0 <= i < |flags| - 1 ==> flags[..|flags| - 1][i] == flags[i];
    }
  }

  /** The direction is LONG for a hammer even when it is also a shooting
      star, SHORT for a shooting star alone, and the doji and the anomalies
      never change it. */
  lemma DirectionRule(star: bool, hammer: bool, doji: bool,
                      spreadAnomaly: seq<bool>, volumeAnomaly: seq<bool>)
    ensures var d := SignalOf(star, hammer, doji, spreadAnomaly, volumeAnomaly).direction;
      && (d == Long <==> hammer)
      && (d == Short <==> star && !hammer)
      && (d == NoDirection <==> !star && !hammer)
      && d == SignalOf(star, hammer, false, [], []).direction
  {
  }
}
