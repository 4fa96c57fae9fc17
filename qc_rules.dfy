/** The candle classifier shared by the two QuantConnect drafts
    (QuantConnect/SP-77.py and QuantConnect/SP-76.py): relative-size buckets
    of a bar's volume, spread and high-low spread against boundary tables,
    the shooting star, hammer and long-legged doji tests, the anomaly flags
    and the notes a candle records. The two drafts differ only in the doji
    test, so the draft is a parameter of that test. */
module QcRules {
  import opened Numeric
  import VpaSignal

  /** The Size enum: VERY_SMALL = 1 up to VERY_LARGE = 5. */
  datatype Size = VerySmall | Small | Medium | Large | VeryLarge
  {
    function Value(): int
    {
      match this
      case VerySmall => 1
      case Small => 2
      case Medium => 3
      case Large => 4
      case VeryLarge => 5
    }
  }

  /** The HistoryPeriod enum; its members key the boundary tables as
      "SHORT", "MEDIUM" and "LARGE". */
  datatype HistoryPeriod = ShortPeriod | MediumPeriod | LongPeriod

  /** The periods in the order set_relative_size visits them. */
  const Spans: seq<HistoryPeriod> := [ShortPeriod, MediumPeriod, LongPeriod]

  /** The SecurityData enum: which value of a candle to take percentiles
      of. */
  datatype SecurityData = Volume | Open | Close | Low | High | Spread | HighLowSpread

  /** An argument that the source checks to be a member of an enum: either a
      member, or a value of some other type. */
  datatype EnumArg<T> = Member(value: T) | NotMember

  /** The exceptions the candle history raises. */
  datatype QcError =
    | NotAHistoryPeriod   // the period argument is not a HistoryPeriod
    | NotSecurityData     // the statistic argument is not a SecurityData
    | MissingAttribute    // the candle has no attribute for the statistic
    | EmptySample         // numpy.percentile of an empty list
    | NoSuchMethod        // the history object has no get_percentiles method

  /** The CandleType enum. */
  datatype CandleType = LowerWick | HigherWick | ShootingStar | Hammer | LongLeggedDoji
                      | WideSpread | NarrowSpread | HangingMan | AnomalyHighVolume | AnomalyHighSpread

  /** Which draft's doji test applies. */
  datatype Draft = SP77 | SP76

  /** One boundary dictionary: five breakpoints per period. */
  datatype Table = Table(short: seq<real>, medium: seq<real>, large: seq<real>)
  {
    function At(p: HistoryPeriod): seq<real>
    {
      match p
      case ShortPeriod => short
      case MediumPeriod => medium
      case LongPeriod => large
    }

    /** The table with the entry of one period replaced. */
    function With(p: HistoryPeriod, b: seq<real>): (r: Table)
      ensures r.At(p) == b && forall q :: q != p ==> r.At(q) == At(q)
    {
      match p
      case ShortPeriod => this.(short := b)
      case MediumPeriod => this.(medium := b)
      case LongPeriod => this.(large := b)
    }

    /** Every entry has five breakpoints in ascending order. */
    predicate Ascending()
    {
      forall p :: IsBoundary(At(p))
    }

    /** Every entry has the four breakpoints the bucketing reads. */
    predicate Readable()
    {
      |short| >= 4 && |medium| >= 4 && |large| >= 4
    }
  }

  /** Five breakpoints in ascending order, as numpy.percentile returns for
      ascending levels. */
  predicate IsBoundary(b: seq<real>)
  {
    |b| == 5 && forall i :: 0 <= i < 4 ==> b[i] <= b[i + 1]
  }

  /** The three class-level boundary dictionaries of Candle. */
  datatype Tables = Tables(spread: Table, volume: Table, highLow: Table)
  {
    predicate Ascending()
    {
      spread.Ascending() && volume.Ascending() && highLow.Ascending()
    }


    predicate Readable()
    {
      spread.Readable() && volume.Readable() && highLow.Readable()
    }
  }

  /** The initial boundaries of both drafts; the high-low spread table starts
      as a copy of the spread table. */
  const InitialSpreadTable: Table :=
    Table([293.4, 468.0, 759.0, 806.0, 834.2], [126.7, 182.5, 557.5, 829.5, 1026.4],
          [93.4, 213.0, 377.5, 721.0, 1016.8])
  const InitialVolumeTable: Table :=
    Table([231718.0, 236627.5, 244810.0, 253047.0, 257989.2], [223357.5, 229034.0, 238311.0, 257165.5, 265355.7],
          [226893.7, 243349.0, 275653.0, 301675.0, 312982.6])
  const InitialTables: Tables := Tables(InitialSpreadTable, InitialVolumeTable, InitialSpreadTable)

  /** The initial boundaries are ascending, so they can be read. */
  lemma InitialTablesAscending()
    ensures InitialTables.Ascending() && InitialTables.Readable()
  {
    forall p ensures IsBoundary(InitialSpreadTable.At(p)) && IsBoundary(InitialVolumeTable.At(p)) {
    }
  }

  /** Ascending tables have every entry the bucketing reads. */
  lemma AscendingReadable(t: Tables)
    requires t.Ascending()
    ensures t.Readable()
  {
    assert t.spread.At(ShortPeriod) == t.spread.short && t.spread.At(MediumPeriod) == t.spread.medium;
    assert t.spread.At(LongPeriod) == t.spread.large;
    assert t.volume.At(ShortPeriod) == t.volume.short && t.volume.At(MediumPeriod) == t.volume.medium;
    assert t.volume.At(LongPeriod) == t.volume.large;
    assert t.highLow.At(ShortPeriod) == t.highLow.short && t.highLow.At(MediumPeriod) == t.highLow.medium;
    assert t.highLow.At(LongPeriod) == t.highLow.large;
  }

  /** The price and volume of a bar. */
  datatype Ohlcv = Ohlcv(volume: real, open: real, high: real, low: real, close: real)
  {
    predicate UpBar() { close > open }
    function Spread(): real { Abs(close - open) }
    function HighLowSpread(): real { high - low }
    function HighOpenSpread(): real { high - open }
    function LowCloseSpread(): real { low - close }
    function HighCloseSpread(): real { high - close }
  }

  // ---------------------------------------------------------------------
  // Relative size

  /** The bucket of a value against one period's boundaries: below the first
      is VERY_SMALL, below the second SMALL and so on; the fifth boundary is
      never read. */
  function RelativeSize(value: real, b: seq<real>): Size
    requires |b| >= 4
  {
    if value < b[0] then VerySmall
    else if value < b[1] then Small
    else if value < b[2] then Medium
    else if value < b[3] then Large
    else VeryLarge
  }

  /** The buckets against the SHORT, MEDIUM and LARGE boundaries, in order. */
  function RelativeSizes(value: real, t: Table): (r: seq<Size>)
    requires t.Readable()
    ensures |r| == |Spans| && forall i :: 0 <= i < |Spans| ==> r[i] == RelativeSize(value, t.At(Spans[i]))
  {
    [RelativeSize(value, t.short), RelativeSize(value, t.medium), RelativeSize(value, t.large)]
  }

  /** set_relative_size / setRelativeSize: one bucket per period, appended in
      the order of the periods. */
  method SetRelativeSize(value: real, t: Table) returns (r: seq<Size>)
    requires t.Readable()
    ensures r == RelativeSizes(value, t)
  {
    r := [];
    for k := 0 to |Spans|
      invariant |r| == k && forall i :: 0 <= i < k ==> r[i] == RelativeSize(value, t.At(Spans[i]))
    {
      var b := t.At(Spans[k]);
      if value < b[0] {
        r := r + [VerySmall];
      } else if value < b[1] {
        r := r + [Small];
      } else if value < b[2] {
        r := r + [Medium];
      } else if value < b[3] {
        r := r + [Large];
      } else {
        r := r + [VeryLarge];
      }
    }
  }

  /** Each bucket is decided by the first boundary the value falls below. */
  lemma RelativeSizeCases(value: real, b: seq<real>)
    requires |b| >= 4
    ensures RelativeSize(value, b) == VerySmall <==> value < b[0]
    ensures RelativeSize(value, b) == Small <==> b[0] <= value < b[1]
    ensures RelativeSize(value, b) == Medium <==> b[0] <= value && b[1] <= value < b[2]
    ensures RelativeSize(value, b) == Large <==> b[0] <= value && b[1] <= value && b[2] <= value < b[3]
    ensures RelativeSize(value, b) == VeryLarge <==> b[0] <= value && b[1] <= value && b[2] <= value && b[3] <= value
    ensures 1 <= RelativeSize(value, b).Value() <= 5
  {
  }

  /** Only the first four boundaries matter. */
  lemma RelativeSizeIgnoresFifth(value: real, b: seq<real>, b': seq<real>)
    requires |b| >= 4 && |b'| >= 4 && b[..4] == b'[..4]
    ensures RelativeSize(value, b) == RelativeSize(value, b')
  {
    assert b[0] == b[..4][0] && b[1] == b[..4][1] && b[2] == b[..4][2] && b[3] == b[..4][3];
    assert b'[0] == b'[..4][0] && b'[1] == b'[..4][1] && b'[2] == b'[..4][2] && b'[3] == b'[..4][3];
  }

  /** Against ascending boundaries a larger value never gets a smaller
      bucket. */
  lemma RelativeSizeMonotone(v1: real, v2: real, b: seq<real>)
    requires |b| >= 4 && b[0] <= b[1] <= b[2] <= b[3]
    requires v1 <= v2
    ensures RelativeSize(v1, b).Value() <= RelativeSize(v2, b).Value()
  {
  }

  // ---------------------------------------------------------------------
  // Patterns

  /** is_shooting_star / isShootingStar. */
  predicate IsShootingStar(b: Ohlcv)
  {
    if !b.UpBar() then false
    else if Abs(b.HighOpenSpread()) < b.Spread() * 2.0 then false
    else if Abs(b.LowCloseSpread()) > Abs(b.HighOpenSpread()) / 2.0 then false
    else true
  }

  /** is_hammer / isHammer. */
  predicate IsHammer(b: Ohlcv)
  {
    if b.LowCloseSpread() > 0.0 then false
    else if Abs(b.LowCloseSpread()) < b.Spread() * 2.0 then false
    else if b.HighOpenSpread() > b.Spread() then false
    else true
  }

  /** is_long_legged_doji / isLongLeggedDoji. In SP-76 the test of the high
      above the close evaluates False without returning it, so that test has
      no effect there. */
  predicate IsLongLeggedDoji(draft: Draft, b: Ohlcv)
  {
    if b.LowCloseSpread() > 0.0 then false
    else if draft == SP77 && b.HighCloseSpread() <= 0.0 then false
    else if Abs(b.HighCloseSpread()) < b.Spread() * 2.0 then false
    else if Abs(b.LowCloseSpread()) < b.Spread() * 2.0 then false
    else true
  }

  predicate IsLowerWick(b: Ohlcv) { b.low < b.close }
  predicate IsHigherWick(b: Ohlcv) { b.high > b.close }

  /** The guard chains as conditions: a shooting star is an up bar whose
      high-open gap is at least twice the body and whose low-close tail is at
      most half that gap; a hammer has its low at or under the close, a
      low-close tail at least twice the body and a high-open gap no larger
      than the body. */
  lemma PatternConditions(b: Ohlcv)
    ensures IsShootingStar(b) <==> (b.UpBar() && Abs(b.HighOpenSpread()) >= 2.0 * b.Spread()
                                    && Abs(b.LowCloseSpread()) <= Abs(b.HighOpenSpread()) / 2.0)
    ensures IsHammer(b) <==> (b.LowCloseSpread() <= 0.0 && Abs(b.LowCloseSpread()) >= 2.0 * b.Spread()
                              && b.HighOpenSpread() <= b.Spread())
    ensures !b.UpBar() ==> !IsShootingStar(b)
  {
  }

  /** SP-77's doji needs the low at or under the close, the high above the
      close and both legs at least twice the body; SP-76's drops the high
      test, so every SP-77 doji is an SP-76 doji and the two differ exactly
      on bars whose high is not above the close. */
  lemma DojiConditions(b: Ohlcv)
    ensures IsLongLeggedDoji(SP77, b) <==> (b.LowCloseSpread() <= 0.0 && b.HighCloseSpread() > 0.0
      && Abs(b.HighCloseSpread()) >= 2.0 * b.Spread() && Abs(b.LowCloseSpread()) >= 2.0 * b.Spread())
    ensures IsLongLeggedDoji(SP76, b) <==> (b.LowCloseSpread() <= 0.0
      && Abs(b.HighCloseSpread()) >= 2.0 * b.Spread() && Abs(b.LowCloseSpread()) >= 2.0 * b.Spread())
    ensures IsLongLeggedDoji(SP77, b) ==> IsLongLeggedDoji(SP76, b)
    ensures IsLongLeggedDoji(SP76, b) && !IsLongLeggedDoji(SP77, b) ==> b.high <= b.close
  {
  }

  /** A bar with open, high and close all 10 and low 5 is a doji in SP-76 but
      not in SP-77. */
  lemma FlatTopDoji()
    ensures IsLongLeggedDoji(SP76, Ohlcv(1.0, 10.0, 10.0, 5.0, 10.0))
    ensures !IsLongLeggedDoji(SP77, Ohlcv(1.0, 10.0, 10.0, 5.0, 10.0))
  {
  }

  /** On a bar whose high is at least its close, a shooting star is never a
      hammer: its high-open gap exceeds the body the hammer allows. */
  lemma StarNotHammer(b: Ohlcv)
    requires b.high >= b.close
    ensures !(IsShootingStar(b) && IsHammer(b))
  {
  }

  // ---------------------------------------------------------------------
  // Anomaly flags

  /** volume anomaly for period i: the high-low spread bucket, less one,
      above the volume bucket. */
  function VolumeAnomalyFlags(relativeHighLow: seq<Size>, relativeVolume: seq<Size>): (r: seq<bool>)
    requires |relativeHighLow| >= 3 && |relativeVolume| >= 3
    ensures |r| == 3 && forall i :: 0 <= i < 3 ==>
      r[i] == (relativeHighLow[i].Value() - 1 > relativeVolume[i].Value())
  {
    seq(3, i requires 0 <= i < 3 => relativeHighLow[i].Value() - 1 > relativeVolume[i].Value())
  }

  /** spread anomaly for period i: the volume bucket, less one, above the
      high-low spread bucket. */
  function SpreadAnomalyFlags(relativeHighLow: seq<Size>, relativeVolume: seq<Size>): (r: seq<bool>)
    requires |relativeHighLow| >= 3 && |relativeVolume| >= 3
    ensures |r| == 3 && forall i :: 0 <= i < 3 ==>
      r[i] == (relativeVolume[i].Value() - 1 > relativeHighLow[i].Value())
  {
    seq(3, i requires 0 <= i < 3 => relativeVolume[i].Value() - 1 > relativeHighLow[i].Value())
  }

  /** set_volume_anomaly_flags / setVolumeAnomolyFlags: one flag appended per
      period. */
  method SetVolumeAnomalyFlags(relativeHighLow: seq<Size>, relativeVolume: seq<Size>) returns (r: seq<bool>)
    requires |relativeHighLow| >= 3 && |relativeVolume| >= 3
    ensures r == VolumeAnomalyFlags(relativeHighLow, relativeVolume)
  {
    r := [];
    for i := 0 to 3
      invariant |r| == i && forall j :: 0 <= j < i ==> r[j] == (relativeHighLow[j].Value() - 1 > relativeVolume[j].Value())
    {
      r := r + [relativeHighLow[i].Value() - 1 > relativeVolume[i].Value()];
    }
  }

  /** set_spread_anomaly_flags / setSpreadAnomolyFlags. */
  method SetSpreadAnomalyFlags(relativeHighLow: seq<Size>, relativeVolume: seq<Size>) returns (r: seq<bool>)
    requires |relativeHighLow| >= 3 && |relativeVolume| >= 3
    ensures r == SpreadAnomalyFlags(relativeHighLow, relativeVolume)
  {
    r := [];
    for i := 0 to 3
      invariant |r| == i && forall j :: 0 <= j < i ==> r[j] == (relativeVolume[j].Value() - 1 > relativeHighLow[j].Value())
    {
      r := r + [relativeVolume[i].Value() - 1 > relativeHighLow[i].Value()];
    }
  }

  /** The two anomalies of a period exclude each other: each asks one bucket
      to exceed the other by more than one. */
  lemma AnomaliesExclusive(relativeHighLow: seq<Size>, relativeVolume: seq<Size>, i: int)
    requires |relativeHighLow| >= 3 && |relativeVolume| >= 3 && 0 <= i < 3
    ensures !(VolumeAnomalyFlags(relativeHighLow, relativeVolume)[i]
              && SpreadAnomalyFlags(relativeHighLow, relativeVolume)[i])
  {
  }

  // ---------------------------------------------------------------------
  // The candle

  /** One note appended when its test holds. */
  function NoteIf(notes: seq<CandleType>, holds: bool, note: CandleType): (r: seq<CandleType>)
    ensures forall t :: t in r <==> t in notes || (holds && t == note)
    ensures |r| == |notes| + (if holds then 1 else 0)
  {
    if holds then notes + [note] else notes
  }

  /** The notes __init__ records, in order, given which tests hold. A hammer
      is recorded as SHOOTING_STAR. */
  function NotesOf(lowerWick: bool, higherWick: bool, star: bool, hammer: bool, doji: bool): seq<CandleType>
  {
    var n1 := NoteIf([], lowerWick, LowerWick);
    var n2 := NoteIf(n1, higherWick, HigherWick);
    var n3 := NoteIf(n2, star, ShootingStar);
    var n4 := NoteIf(n3, hammer, ShootingStar);
    NoteIf(n4, doji, LongLeggedDoji)
  }

  /** The notes of a bar. */
  function Notes(draft: Draft, b: Ohlcv): seq<CandleType>
  {
    NotesOf(IsLowerWick(b), IsHigherWick(b), IsShootingStar(b), IsHammer(b), IsLongLeggedDoji(draft, b))
  }

  /** Which notes are recorded: each wick, SHOOTING_STAR for a shooting star
      or a hammer, the doji, never HAMMER; one note per test that holds. */
  lemma NotesOfContents(lowerWick: bool, higherWick: bool, star: bool, hammer: bool, doji: bool)
    ensures var n := NotesOf(lowerWick, higherWick, star, hammer, doji);
      && (LowerWick in n <==> lowerWick)
      && (HigherWick in n <==> higherWick)
      && (ShootingStar in n <==> star || hammer)
      && (LongLeggedDoji in n <==> doji)
      && Hammer !in n
      && |n| == VpaSignal.Indicator(lowerWick) + VpaSignal.Indicator(higherWick) + VpaSignal.Indicator(star) + VpaSignal.Indicator(hammer) + VpaSignal.Indicator(doji)
  {
  }

  /** The notes of a bar: a lower wick when the low is under the close, a
      higher wick when the high is above it, SHOOTING_STAR for a shooting star
      or a hammer, the doji of the draft, and never HAMMER. */
  lemma NotesContents(draft: Draft, b: Ohlcv)
    ensures var n := Notes(draft, b);
      && (LowerWick in n <==> b.low < b.close)
      && (HigherWick in n <==> b.high > b.close)
      && (ShootingStar in n <==> IsShootingStar(b) || IsHammer(b))
      && (LongLeggedDoji in n <==> IsLongLeggedDoji(draft, b))
      && Hammer !in n
  {
    var lower, higher, star, hammer, doji :=
      IsLowerWick(b), IsHigherWick(b), IsShootingStar(b), IsHammer(b), IsLongLeggedDoji(draft, b);
    NotesOfContents(lower, higher, star, hammer, doji);
  }

  /** A candle as its constructor leaves it. */
  datatype QcCandle = QcCandle(bar: Ohlcv, relativeVolume: seq<Size>, relativeSpread: seq<Size>,
                               relativeHighLowSpread: seq<Size>, volumeAnomaly: seq<bool>,
                               spreadAnomaly: seq<bool>, notes: seq<CandleType>)

  /** The candle of a bar under the boundary tables of the moment. */
  function CandleOf(draft: Draft, b: Ohlcv, t: Tables): (c: QcCandle)
    requires t.Readable()
    ensures c.bar == b && |c.volumeAnomaly| == 3 && |c.spreadAnomaly| == 3
  {
    var volume := RelativeSizes(b.volume, t.volume);
    var highLow := RelativeSizes(Abs(b.HighLowSpread()), t.highLow);
    QcCandle(b, volume, RelativeSizes(b.Spread(), t.spread), highLow,
             VolumeAnomalyFlags(highLow, volume), SpreadAnomalyFlags(highLow, volume), Notes(draft, b))
  }

  /** The notes appended one test at a time, as __init__ does. */
  method RecordNotes(lowerWick: bool, higherWick: bool, star: bool, hammer: bool, doji: bool)
    returns (notes: seq<CandleType>)
    ensures notes == NotesOf(lowerWick, higherWick, star, hammer, doji)
  {
    notes := [];
    if lowerWick {
      notes := notes + [LowerWick];
    }
    assert notes == NoteIf([], lowerWick, LowerWick);
    ghost var n := notes;
    if higherWick {
      notes := notes + [HigherWick];
    }
    assert notes == NoteIf(n, higherWick, HigherWick);
    n := notes;
    if star {
      notes := notes + [ShootingStar];
    }
    assert notes == NoteIf(n, star, ShootingStar);
    n := notes;
    if hammer {
      notes := notes + [ShootingStar];
    }
    assert notes == NoteIf(n, hammer, ShootingStar);
    n := notes;
    if doji {
      notes := notes + [LongLeggedDoji];
    }
    assert notes == NoteIf(n, doji, LongLeggedDoji);
  }

  /** Candle.__init__: the buckets against the current tables, then the
      anomaly flags, then the notes appended one test at a time. */
  method NewCandle(draft: Draft, volume: real, open: real, high: real, low: real, close: real, t: Tables)
    returns (c: QcCandle)
    requires t.Readable()
    ensures c == CandleOf(draft, Ohlcv(volume, open, high, low, close), t)
  {
    var b := Ohlcv(volume, open, high, low, close);
    var relativeVolume := SetRelativeSize(volume, t.volume);
    var relativeSpread := SetRelativeSize(b.Spread(), t.spread);
    var relativeHighLow := SetRelativeSize(Abs(b.HighLowSpread()), t.highLow);
    var volumeAnomaly := SetVolumeAnomalyFlags(relativeHighLow, relativeVolume);
    var spreadAnomaly := SetSpreadAnomalyFlags(relativeHighLow, relativeVolume);
    var notes := RecordNotes(IsLowerWick(b), IsHigherWick(b), IsShootingStar(b), IsHammer(b),
                             IsLongLeggedDoji(draft, b));
    c := QcCandle(b, relativeVolume, relativeSpread, relativeHighLow, volumeAnomaly, spreadAnomaly, notes);
  }

  /** No period of a candle has both anomalies. */
  lemma CandleAnomaliesExclusive(draft: Draft, b: Ohlcv, t: Tables, i: int)
    requires t.Readable() && 0 <= i < 3
    ensures !(CandleOf(draft, b, t).volumeAnomaly[i] && CandleOf(draft, b, t).spreadAnomaly[i])
  {
    var c := CandleOf(draft, b, t);
    AnomaliesExclusive(c.relativeHighLowSpread, c.relativeVolume, i);
  }

  /** The Python type of the time a candle was built with: a str in the
      tests, a datetime under QuantConnect, where it is the slice's Time. */
  datatype TimeValue = TimeStr | TimeDatetime | TimeOther

  /** Some pattern test of the draft holds, so calculate_signal logs a
      message with the candle's time. */
  predicate HasPattern(draft: Draft, c: QcCandle)
  {
    IsShootingStar(c.bar) || IsHammer(c.bar) || IsLongLeggedDoji(draft, c.bar)
  }

  /** The signal calculate_signal computes for a candle of the given draft. */
  function CandleSignal(draft: Draft, c: QcCandle): VpaSignal.Signal
  {
    VpaSignal.SignalOf(IsShootingStar(c.bar), IsHammer(c.bar), IsLongLeggedDoji(draft, c.bar),
                       c.spreadAnomaly, c.volumeAnomaly)
  }

  /** The number of true flags in a list of three. */
  lemma {:induction false} CountTrueOfThree(flags: seq<bool>)
    requires |flags| == 3
    ensures CountTrue(flags)
         == VpaSignal.Indicator(flags[0]) + VpaSignal.Indicator(flags[1]) + VpaSignal.Indicator(flags[2])
  {
    assert flags[..2][..1] == flags[..1];
    assert CountTrue(flags[..1]) == VpaSignal.Indicator(flags[0]);
  }

  /** The signal of a candle built from a bar whose high is not under its
      close: a shooting star is then never a hammer and no period has both
      anomalies, so the strength is at most 25 (two patterns and three
      anomalies), and the direction is LONG exactly for a hammer and SHORT
      exactly for a shooting star. */
  lemma CandleSignalBounds(draft: Draft, b: Ohlcv, t: Tables)
    requires t.Readable() && b.high >= b.close
    ensures var s := CandleSignal(draft, CandleOf(draft, b, t));
      && 0 <= s.strength <= 25 && s.strength % 5 == 0
      && (s.direction == VpaSignal.Long <==> IsHammer(b))
      && (s.direction == VpaSignal.Short <==> IsShootingStar(b))
  {
    var c := CandleOf(draft, b, t);
    StarNotHammer(b);
    CountTrueOfThree(c.spreadAnomaly);
    CountTrueOfThree(c.volumeAnomaly);
    CandleAnomaliesExclusive(draft, b, t, 0);
    CandleAnomaliesExclusive(draft, b, t, 1);
    CandleAnomaliesExclusive(draft, b, t, 2);
  }
}
