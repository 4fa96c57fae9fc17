/** numpy.percentile with its default 'linear' method, stated over exact reals:
    sort the sample ascending, place the requested percentile at the virtual
    index (n - 1) * p / 100 and interpolate linearly between the two
    neighbouring order statistics. */
module NumpyPercentile {
  import opened Numeric

  predicate IsSorted(s: seq<real>)
  {
    forall i, j :: 0 <= i < j < |s| ==> s[i] <= s[j]
  }

  /** Inserts x into an ascending sequence. */
  function Insert(x: real, s: seq<real>): (r: seq<real>)
    requires IsSorted(s)
    ensures IsSorted(r)
    ensures multiset(r) == multiset(s) + multiset{x}
    ensures |r| == |s| + 1
    ensures r[0] == x || r[0] == s[0]
  {
    if |s| == 0 then [x]
    else if x <= s[0] then [x] + s
    else
      var rest := Insert(x, s[1..]);
      assert s == [s[0]] + s[1..];
      assert s[0] <= rest[0];
      assert forall j :: 0 <= j < |rest| ==> rest[0] <= rest[j];
      [s[0]] + rest
  }

  /** Insertion sort: the ascending permutation of the sample. */
  function Sort(s: seq<real>): (r: seq<real>)
    ensures IsSorted(r)
    ensures multiset(r) == multiset(s)
    ensures |r| == |s|
  {
    if |s| == 0 then []
    else
      assert s == [s[0]] + s[1..];
      Insert(s[0], Sort(s[1..]))
  }

  /** Sorting a sample that is already ascending leaves it unchanged. */
  lemma {:induction false} SortOfSorted(s: seq<real>)
    requires IsSorted(s)
    ensures Sort(s) == s
  {
    if |s| > 0 {
      SortOfSorted(s[1..]);
      assert s == [s[0]] + s[1..];
    }
  }

  /** The virtual index (n - 1) * p / 100 of level p in a sample of n + 1 values. */
  function ScaledIndex(n: real, p: real): (g: real)
    requires n >= 0.0
    requires 0.0 <= p <= 100.0
    ensures 0.0 <= g <= n
  {
    MulNonNegative(n, p);
    MulNonNegative(n, 100.0 - p);
    n * p / 100.0
  }

  /** A higher level gives a virtual index at least as high. */
  lemma ScaledIndexMonotone(n: real, p1: real, p2: real)
    requires n >= 0.0
    requires 0.0 <= p1 <= p2 <= 100.0
    ensures ScaledIndex(n, p1) <= ScaledIndex(n, p2)
  {
    MulNonNegative(n, p2 - p1);
    assert n * p2 - n * p1 == n * (p2 - p1);
  }

  /** The percentile p (0 <= p <= 100) of a non-empty sample. */
  function Percentile(s: seq<real>, p: real): real
    requires |s| > 0
    requires 0.0 <= p <= 100.0
  {
    Lerp(Sort(s), ScaledIndex((|s| - 1) as real, p))
  }

  /** numpy.percentile with a list of percentiles: one value per level. */
  function Percentiles(s: seq<real>, levels: seq<real>): (r: seq<real>)
    requires |s| > 0
    requires forall j :: 0 <= j < |levels| ==> 0.0 <= levels[j] <= 100.0
    ensures |r| == |levels|
    ensures forall j :: 0 <= j < |levels| ==> r[j] == Percentile(s, levels[j])
  {
    seq(|levels|, j requires 0 <= j < |levels| => Percentile(s, levels[j]))
  }

  /** The point at fraction f of the way from a to b. */
  function Interpolate(a: real, b: real, f: real): real
  {
    a + f * (b - a)
  }

  /** For a fraction in [0, 1] the point lies between the two ends. */
  lemma InterpolationBetween(a: real, b: real, f: real)
    requires 0.0 <= f <= 1.0
    ensures Min(a, b) <= Interpolate(a, b, f) <= Max(a, b)
  {
    if a <= b {
      MulNonNegative(f, b - a);
      MulNonNegative(1.0 - f, b - a);
    } else {
      MulNonNegative(f, a - b);
      MulNonNegative(1.0 - f, a - b);
    }
  }

  /** Moving further along a rising segment never goes down. */
  lemma InterpolationMonotone(a: real, b: real, f1: real, f2: real)
    requires a <= b
    requires f1 <= f2
    ensures Interpolate(a, b, f1) <= Interpolate(a, b, f2)
  {
    MulNonNegative(f2 - f1, b - a);
    assert f2 * (b - a) - f1 * (b - a) == (f2 - f1) * (b - a);
  }

  /** Linear interpolation at virtual index g between the neighbouring elements. */
  function Lerp(t: seq<real>, g: real): real
    requires |t| > 0
    requires 0.0 <= g <= (|t| - 1) as real
  {
    var k := g.Floor;
    if k + 1 < |t| then Interpolate(t[k], t[k + 1], g - k as real) else t[k]
  }

  /** Interpolating between elements that lie in [lo, hi] stays in [lo, hi]. */
  lemma LerpWithinBounds(t: seq<real>, g: real, lo: real, hi: real)
    requires |t| > 0
    requires 0.0 <= g <= (|t| - 1) as real
    requires forall k :: 0 <= k < |t| ==> lo <= t[k] <= hi
    ensures lo <= Lerp(t, g) <= hi
  {
    var k := g.Floor;
    if k + 1 < |t| {
      InterpolationBetween(t[k], t[k + 1], g - k as real);
    }
  }

  /** Every element of the sorted sample lies within bounds enclosing the sample. */
  lemma SortWithinBounds(s: seq<real>, lo: real, hi: real)
    requires forall i :: 0 <= i < |s| ==> lo <= s[i] <= hi
    ensures forall k :: 0 <= k < |Sort(s)| ==> lo <= Sort(s)[k] <= hi
  {
    var t := Sort(s);
    forall k | 0 <= k < |t|
      ensures lo <= t[k] <= hi
    {
      assert t[k] in multiset(s);
      assert t[k] in s;
    }
  }

  /** A percentile lies within any bounds that enclose the whole sample. */
  lemma PercentileWithinBounds(s: seq<real>, p: real, lo: real, hi: real)
    requires |s| > 0
    requires 0.0 <= p <= 100.0
    requires forall i :: 0 <= i < |s| ==> lo <= s[i] <= hi
    ensures lo <= Percentile(s, p) <= hi
  {
    SortWithinBounds(s, lo, hi);
    LerpWithinBounds(Sort(s), ScaledIndex((|s| - 1) as real, p), lo, hi);
  }

  /** On an ascending sequence, interpolation is monotone in the index. */
  lemma LerpMonotone(t: seq<real>, g1: real, g2: real)
    requires IsSorted(t) && |t| > 0
    requires 0.0 <= g1 <= g2 <= (|t| - 1) as real
    ensures Lerp(t, g1) <= Lerp(t, g2)
  {
    var k1, k2 := g1.Floor, g2.Floor;
    if k1 == k2 {
      if k1 + 1 < |t| {
        InterpolationMonotone(t[k1], t[k1 + 1], g1 - k1 as real, g2 - k1 as real);
      }
    } else {
      assert k1 + 1 <= k2;
      InterpolationBetween(t[k1], t[k1 + 1], g1 - k1 as real);
      if k2 + 1 < |t| {
        InterpolationBetween(t[k2], t[k2 + 1], g2 - k2 as real);
      }
    }
  }

  /** A higher percentile level never gives a lower value. */
  lemma PercentileMonotone(s: seq<real>, p1: real, p2: real)
    requires |s| > 0
    requires 0.0 <= p1 <= p2 <= 100.0
    ensures Percentile(s, p1) <= Percentile(s, p2)
  {
    var n := (|s| - 1) as real;
    ScaledIndexMonotone(n, p1, p2);
    LerpMonotone(Sort(s), ScaledIndex(n, p1), ScaledIndex(n, p2));
  }

  /** Ascending levels give ascending percentiles. */
  lemma PercentilesAscending(s: seq<real>, levels: seq<real>)
    requires |s| > 0
    requires forall j :: 0 <= j < |levels| ==> 0.0 <= levels[j] <= 100.0
    requires forall j :: 0 <= j < |levels| - 1 ==> levels[j] <= levels[j + 1]
    ensures forall j :: 0 <= j < |levels| - 1 ==> Percentiles(s, levels)[j] <= Percentiles(s, levels)[j + 1]
  {
    forall j | 0 <= j < |levels| - 1
      ensures Percentiles(s, levels)[j] <= Percentiles(s, levels)[j + 1]
    {
      PercentileMonotone(s, levels[j], levels[j + 1]);
    }
  }

  /** On an ascending sample the percentile interpolates the sample itself. */
  lemma PercentileOfSorted(s: seq<real>, p: real)
    requires |s| > 0 && IsSorted(s)
    requires 0.0 <= p <= 100.0
    ensures Percentile(s, p) == Lerp(s, ScaledIndex((|s| - 1) as real, p))
  {
    SortOfSorted(s);
  }

  /** On an ascending sample whose virtual index is k + f (0 <= f < 1), the
      percentile is the point at fraction f between elements k and k + 1. */
  lemma PercentileBetween(s: seq<real>, p: real, k: nat, f: real)
    requires IsSorted(s) && k + 1 < |s|
    requires 0.0 <= p <= 100.0 && 0.0 <= f < 1.0
    requires ScaledIndex((|s| - 1) as real, p) == k as real + f
    ensures Percentile(s, p) == Interpolate(s[k], s[k + 1], f)
  {
    PercentileOfSorted(s, p);
    assert (k as real + f).Floor == k;
  }
}
