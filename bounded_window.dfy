/** collections.deque(maxlen=capacity): appending to a full window drops the
    oldest element, so the window always holds the most recent values. */
module BoundedWindow {

  /** The last n elements of s (all of s when it is shorter). */
  function LastN<T>(s: seq<T>, n: nat): (r: seq<T>)
    ensures |r| == if |s| < n then |s| else n
    ensures r == s[|s| - |r|..]
  {
    if |s| <= n then s else s[|s| - n..]
  }

  /** deque.append on a window bounded by capacity. */
  function Push<T>(w: seq<T>, x: T, capacity: nat): (r: seq<T>)
    requires 0 < capacity
    requires |w| <= capacity
    ensures |r| <= capacity
    ensures |r| > 0 && r[|r| - 1] == x
    ensures |w| < capacity ==> r == w + [x]
    ensures |w| == capacity ==> r == w[1..] + [x]
  {
    if |w| < capacity then w + [x] else w[1..] + [x]
  }

  /** Appending one element to a window over a history keeps it the window
      over the extended history. */
  lemma PushLastN<T>(s: seq<T>, x: T, capacity: nat)
    requires 0 < capacity
    ensures Push(LastN(s, capacity), x, capacity) == LastN(s + [x], capacity)
  {
    var w := LastN(s, capacity);
    if |s| >= capacity {
      assert w[1..] + [x] == (s + [x])[|s| + 1 - capacity..];
    }
  }

  /** Filling a window from empty, one element at a time. */
  function PushAll<T>(w: seq<T>, xs: seq<T>, capacity: nat): (r: seq<T>)
    requires 0 < capacity
    requires |w| <= capacity
    ensures |r| <= capacity
    decreases |xs|
  {
    if |xs| == 0 then w else PushAll(Push(w, xs[0], capacity), xs[1..], capacity)
  }

  /** However many values were appended, the window holds exactly the most
      recent capacity of them. */
  lemma {:induction false} PushAllLastN<T>(s: seq<T>, xs: seq<T>, capacity: nat)
    requires 0 < capacity
    ensures PushAll(LastN(s, capacity), xs, capacity) == LastN(s + xs, capacity)
    decreases |xs|
  {
    if |xs| > 0 {
      var s' := s + [xs[0]];
      calc {
        PushAll(LastN(s, capacity), xs, capacity);
        PushAll(Push(LastN(s, capacity), xs[0], capacity), xs[1..], capacity);
        { PushLastN(s, xs[0], capacity); }
        PushAll(LastN(s', capacity), xs[1..], capacity);
        { PushAllLastN(s', xs[1..], capacity); }
        LastN(s' + xs[1..], capacity);
        { assert s' + xs[1..] == s + xs; }
        LastN(s + xs, capacity);
      }
    } else {
      assert s + xs == s;
    }
  }
}
