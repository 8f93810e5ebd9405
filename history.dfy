/**
 * The worker's `recent_history`: a `deque(maxlen=10)` of step records.
 * Appending to a full deque drops its oldest entry.
 */
module History {
  import opened Text

  /** One record `{"iteration": i, "action": a, "summary": s}`. */
  datatype Entry = Entry(iteration: int, action: string, summary: string)

  const Capacity: nat := 10

  /** A deque's contents, oldest first. */
  type Ring = h: seq<Entry> | |h| <= Capacity

  /** The last `Capacity` elements of `q` (all of them when there are fewer). */
  function Newest(q: seq<Entry>): (r: seq<Entry>)
    ensures |r| == if |q| <= Capacity then |q| else Capacity
    ensures forall i :: 0 <= i < |r| ==> r[i] == q[|q| - |r| + i]
  {
    if |q| <= Capacity then q else q[|q| - Capacity..]
  }

  /** `deque.append` on a deque of capacity 10. */
  function Push(h: Ring, e: Entry): (r: Ring)
    ensures |h| < Capacity ==> r == h + [e]
    ensures |h| == Capacity ==> r == h[1..] + [e]
  {
    Newest(h + [e])
  }

  /** Appending `es` one after another. */
  function PushAll(h: Ring, es: seq<Entry>): Ring
    decreases |es|
  {
    if |es| == 0 then h else PushAll(Push(h, es[0]), es[1..])
  }

  /** Taking the newest entries twice is taking them once. */
  lemma {:induction false} NewestOfNewest(x: seq<Entry>, y: seq<Entry>)
    ensures Newest(Newest(x) + y) == Newest(x + y)
  {
    var nx := Newest(x);
    var a := Newest(nx + y);
    var b := Newest(x + y);
    assert |a| == |b|;
    forall i | 0 <= i < |a|
      ensures a[i] == b[i]
    {
      var j := |nx| + |y| - |a| + i;
      assert a[i] == (nx + y)[j];
      assert b[i] == (x + y)[|x| - |nx| + j];
      if j < |nx| {
        assert nx[j] == x[|x| - |nx| + j];
      }
    }
  }

  /**
   * The ring property: after appending `es` to `h` the deque holds the newest
   * `Capacity` entries of `h + es`, in order, so the oldest are evicted first.
   */
  lemma {:induction false} PushAllKeepsNewest(h: Ring, es: seq<Entry>)
    ensures PushAll(h, es) == Newest(h + es)
    decreases |es|
  {
    if |es| == 0 {
      assert h + es == h;
    } else {
      PushAllKeepsNewest(Push(h, es[0]), es[1..]);
      NewestOfNewest(h + [es[0]], es[1..]);
      assert h + [es[0]] + es[1..] == h + es;
    }
  }

  /** From an empty deque, `n` appends leave the last min(n, 10) of them. */
  lemma {:induction false} RingFromEmpty(es: seq<Entry>)
    ensures PushAll([], es) == if |es| <= Capacity then es else es[|es| - Capacity..]
  {
    PushAllKeepsNewest([], es);
    assert [] + es == es;
    if |es| <= Capacity {
      assert Newest(es) == es;
    } else {
      assert Newest(es) == es[|es| - Capacity..];
    }
  }
}
