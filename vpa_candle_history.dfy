/** The standalone bounded candle history (vpa/candle_history.py): three
    deques with maximum lengths, each candle appended to all three. */
module VpaCandleHistory {
  import opened BoundedWindow

  /** deque.append on a deque with maxlen capacity: a deque of maxlen 0
      keeps nothing, a full one drops its oldest element. */
  function Append<T>(w: seq<T>, x: T, capacity: nat): (r: seq<T>)
    requires |w| <= capacity
    ensures |r| <= capacity
    ensures capacity == 0 ==> r == []
    ensures 0 < capacity ==> r == Push(w, x, capacity) && |r| > 0
  {
    if capacity == 0 then [] else Push(w, x, capacity)
  }

  /** Appending to the last capacity elements of a history keeps the last
      capacity elements of the longer history. */
  lemma AppendLastN<T>(s: seq<T>, x: T, capacity: nat)
    ensures Append(LastN(s, capacity), x, capacity) == LastN(s + [x], capacity)
  {
    if 0 < capacity {
      PushLastN(s, x, capacity);
    }
  }

  /** A deque holding the latest candles of a history still does after the
      next candle is appended to both. */
  lemma AppendKeepsLatest<T>(w: seq<T>, history: seq<T>, x: T, capacity: nat)
    requires w == LastN(history, capacity)
    ensures |w| <= capacity && Append(w, x, capacity) == LastN(history + [x], capacity)
  {
    AppendLastN(history, x, capacity);
  }

  /** Three deques that hold the latest elements of a history, each up to
      its own period, oldest first. */
  ghost predicate Latest3<T>(history: seq<T>, d1: seq<T>, d2: seq<T>, d3: seq<T>, p1: nat, p2: nat, p3: nat)
  {
    d1 == LastN(history, p1) && d2 == LastN(history, p2) && d3 == LastN(history, p3)
  }

  /** Appending the next element to all three deques keeps them the latest
      elements of the extended history. */
  lemma Latest3Append<T>(history: seq<T>, d1: seq<T>, d2: seq<T>, d3: seq<T>, x: T, p1: nat, p2: nat, p3: nat)
    requires Latest3(history, d1, d2, d3, p1, p2, p3)
    ensures |d1| <= p1 && |d2| <= p2 && |d3| <= p3
    ensures Latest3(history + [x], Append(d1, x, p1), Append(d2, x, p2), Append(d3, x, p3), p1, p2, p3)
  {
    AppendKeepsLatest(d1, history, x, p1);
    AppendKeepsLatest(d2, history, x, p2);
    AppendKeepsLatest(d3, history, x, p3);
  }

  /** The deques of three periods; added is every candle ever appended, the
      history the deques are a view of. */
  class CandleHistory<T> {
    const period1: nat
    const period2: nat
    const period3: nat
    var deque1: seq<T>
    var deque2: seq<T>
    var deque3: seq<T>
    ghost var added: seq<T>

    /** Each deque holds the latest candles up to its period, oldest first. */
    ghost predicate Valid()
      reads this
    {
      Latest3(added, deque1, deque2, deque3, period1, period2, period3)
    }

    /** __init__ with three empty deques. A negative period, which deque
        rejects, has no nat to stand for it. */
    constructor (period1: nat, period2: nat, period3: nat)
      ensures Valid() && added == []
      ensures this.period1 == period1 && this.period2 == period2 && this.period3 == period3
      ensures deque1 == [] && deque2 == [] && deque3 == []
    {
      this.period1, this.period2, this.period3 := period1, period2, period3;
      deque1, deque2, deque3 := [], [], [];
      added := [];
    }

    /** addCandle: the candle goes on the back of all three deques. */
    method AddCandle(candle: T)
      requires Valid()
      modifies this
      ensures Valid() && added == old(added) + [candle]
      ensures deque1 == Append(old(deque1), candle, period1)
      ensures deque2 == Append(old(deque2), candle, period2)
      ensures deque3 == Append(old(deque3), candle, period3)
    {
      Latest3Append(added, deque1, deque2, deque3, candle, period1, period2, period3);
      deque1, deque2, deque3 := Append(deque1, candle, period1), Append(deque2, candle, period2),
        Append(deque3, candle, period3);
      added := added + [candle];
    }

    /** getPercentiles is a stub that returns an empty list. */
    method GetPercentiles() returns (r: seq<real>)
      ensures r == []
    {
      r := [];
    }
  }

  /** On a full deque an append drops exactly the oldest element and the
      length stays at the period; the others keep their order. */
  lemma AppendToFull<T>(w: seq<T>, x: T, capacity: nat)
    requires 0 < capacity && |w| == capacity
    ensures var r := Append(w, x, capacity);
      |r| == capacity && r[..capacity - 1] == w[1..] && r[capacity - 1] == x
  {
  }

  /** Below the period an append only adds at the back. */
  lemma AppendToShort<T>(w: seq<T>, x: T, capacity: nat)
    requires |w| < capacity
    ensures var r := Append(w, x, capacity);
      |r| == |w| + 1 && r[..|w|] == w && r[|w|] == x
  {
  }

  /** After any candles, each deque holds the latest of them up to its
      period: the deque is first-in first-out. */
  lemma {:induction false} AddAllKeepsLatest<T>(s: seq<T>, xs: seq<T>, capacity: nat)
    ensures AppendAll(LastN(s, capacity), xs, capacity) == LastN(s + xs, capacity)
    decreases |xs|
  {
    if |xs| > 0 {
      AppendLastN(s, xs[0], capacity);
      AddAllKeepsLatest(s + [xs[0]], xs[1..], capacity);
      assert s + [xs[0]] + xs[1..] == s + xs;
    } else {
      assert s + xs == s;
    }
  }

  /** Appending several candles in turn. */
  function AppendAll<T>(w: seq<T>, xs: seq<T>, capacity: nat): (r: seq<T>)
    requires |w| <= capacity
    ensures |r| <= capacity
    decreases |xs|
  {
    if |xs| == 0 then w else AppendAll(Append(w, xs[0], capacity), xs[1..], capacity)
  }

  /** Starting from an empty deque, the deque is full exactly once at least
      as many candles as its period were appended. */
  lemma FullAfter<T>(xs: seq<T>, capacity: nat)
    ensures |AppendAll([], xs, capacity)| == capacity <==> |xs| >= capacity
  {
    AddAllKeepsLatest([], xs, capacity);
    assert [] + xs == xs;
  }
}
