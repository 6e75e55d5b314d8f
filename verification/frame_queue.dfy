/** The bounded `queue.Queue(maxsize=10)` of test-1/test.py together with the
    drop-oldest insertion used by every producer there: when the queue is
    full, one element is taken off the front before the new one is put. */
module FrameQueue {
  import opened Common

  const Capacity: nat := 10

  /** The last `n` elements of `s` (all of them when `s` is shorter). */
  function Newest<T>(s: seq<T>, n: nat): (r: seq<T>)
    ensures |r| == Min(|s|, n)
    ensures r == s[|s| - |r|..]
  {
    if |s| <= n then s else s[|s| - n..]
  }

  /** Drop-oldest `put`: the result is the newest `Capacity` elements of the
      queue followed by `x`, so at most one front element is lost, and only
      when the queue was full. */
  function Enqueue<T>(q: seq<T>, x: T): (r: seq<T>)
    requires |q| <= Capacity
    ensures 1 <= |r| <= Capacity
    ensures r[|r| - 1] == x
    ensures r == Newest(q + [x], Capacity)
    ensures |q| < Capacity ==> r[..|r| - 1] == q
    ensures |q| == Capacity ==> r[..|r| - 1] == q[1..]
  {
    if |q| == Capacity then q[1..] + [x] else q + [x]
  }

  /** A sequence of `put`s, in order. */
  function PushAll<T>(q: seq<T>, xs: seq<T>): (r: seq<T>)
    requires |q| <= Capacity
    ensures |r| <= Capacity
    decreases |xs|
  {
    if |xs| == 0 then q else PushAll(Enqueue(q, xs[0]), xs[1..])
  }

  /** After any pushes the queue holds the newest `Capacity` of everything
      it has seen, in push order. */
  lemma {:induction false} PushAllKeepsNewest<T>(q: seq<T>, xs: seq<T>)
    requires |q| <= Capacity
    ensures PushAll(q, xs) == Newest(q + xs, Capacity)
    decreases |xs|
  {
    if |xs| == 0 {
      assert q + xs == q;
    } else {
      var x, tail := xs[0], xs[1..];
      var q' := Enqueue(q, x);
      calc {
        PushAll(q, xs);
        PushAll(q', tail);
        { PushAllKeepsNewest(q', tail); }
        Newest(q' + tail, Capacity);
        { NewestAppend(q + [x], tail); }
        Newest((q + [x]) + tail, Capacity);
        { assert (q + [x]) + tail == q + xs; }
        Newest(q + xs, Capacity);
      }
    }
  }

  /** Trimming to the newest elements first does not change the newest
      elements after appending more. */
  lemma NewestAppend<T>(s: seq<T>, t: seq<T>)
    ensures Newest(Newest(s, Capacity) + t, Capacity) == Newest(s + t, Capacity)
  {
    var a := Newest(s, Capacity) + t;
    var b := s + t;
    var ra := Newest(a, Capacity);
    var rb := Newest(b, Capacity);
    assert |ra| == |rb|;
    forall i | 0 <= i < |ra|
      ensures ra[i] == rb[i]
    {
      assert ra[i] == a[|a| - |ra| + i];
      assert rb[i] == b[|b| - |rb| + i];
    }
  }

  /** Starting from an empty queue, `n` pushes leave the last min(n, 10)
      items in push order. */
  lemma PushesFromEmpty<T>(xs: seq<T>)
    ensures PushAll([], xs) == xs[|xs| - Min(|xs|, Capacity)..]
  {
    calc {
      PushAll([], xs);
      { PushAllKeepsNewest([], xs); }
      Newest([] + xs, Capacity);
      { assert [] + xs == xs; }
      Newest(xs, Capacity);
    }
  }

  /** `get` / `get_nowait` on a non-empty queue: the oldest element. */
  function Dequeue<T>(q: seq<T>): (r: Option<(T, seq<T>)>)
    ensures r.None? <==> |q| == 0
    ensures r.Some? ==> [r.value.0] + r.value.1 == q
  {
    if |q| == 0 then None else Some((q[0], q[1..]))
  }

  /** The order in which a consumer receives the elements when it drains
      the queue with repeated `get`s. */
  function Drain<T>(q: seq<T>): seq<T>
    decreases |q|
  {
    match Dequeue(q)
    case None => []
    case Some((x, rest)) => [x] + Drain(rest)
  }

  /** Draining yields exactly the queued elements, oldest first. */
  lemma {:induction false} DrainIsFifo<T>(q: seq<T>)
    ensures Drain(q) == q
    decreases |q|
  {
    if |q| > 0 {
      DrainIsFifo(q[1..]);
    }
  }

  /** Pushing `xs` into an empty queue and draining it returns the newest
      min(|xs|, 10) pushed items, in push order. */
  lemma PushThenDrain<T>(xs: seq<T>)
    ensures Drain(PushAll([], xs)) == xs[|xs| - Min(|xs|, Capacity)..]
  {
    PushesFromEmpty(xs);
    DrainIsFifo(PushAll([], xs));
  }
}
