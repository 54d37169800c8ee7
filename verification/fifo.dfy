/**
 * The non-overwriting FIFO contract of the queue library the display code
 * stores its records in: push fails when full, pop and peek fail when empty,
 * flush empties. A queue is the sequence of its records, oldest first.
 */
module Fifo {

  import opened Wrappers

  /** Appends `x` when fewer than `cap` items are queued; otherwise fails and leaves `q` alone. */
  function Push<T>(q: seq<T>, cap: nat, x: T): (r: (seq<T>, bool))
    ensures r.1 <==> |q| < cap
    ensures r.1 ==> r.0 == q + [x]
    ensures !r.1 ==> r.0 == q
  {
    if |q| < cap then (q + [x], true) else (q, false)
  }

  /** Removes the oldest item, or reports an empty queue. */
  function Pop<T>(q: seq<T>): (r: Option<(T, seq<T>)>)
    ensures r.None? <==> |q| == 0
    ensures r.Some? ==> [r.value.0] + r.value.1 == q
  {
    if |q| == 0 then None else Some((q[0], q[1..]))
  }

  /** The oldest item without removing it, or nothing for an empty queue. */
  function Peek<T>(q: seq<T>): (r: Option<T>)
    ensures r.None? <==> |q| == 0
    ensures r.Some? ==> r.value == q[0]
  {
    if |q| == 0 then None else Some(q[0])
  }

  /** Pushes `xs` in order, stopping at the first failure. */
  function PushAll<T>(q: seq<T>, cap: nat, xs: seq<T>): (r: seq<T>)
    decreases |xs|
  {
    if |xs| == 0 then q
    else
      var (q', ok) := Push(q, cap, xs[0]);
      if ok then PushAll(q', cap, xs[1..]) else q'
  }

  /** Pops until empty and lists what came out, in order. */
  function Drain<T>(q: seq<T>): (r: seq<T>)
    decreases |q|
  {
    match Pop(q)
    case None => []
    case Some((x, rest)) => [x] + Drain(rest)
  }

  /** Pushes that fit all succeed and append in order. */
  lemma {:induction false} PushAllAppends<T>(q: seq<T>, cap: nat, xs: seq<T>)
    requires |q| + |xs| <= cap
    ensures PushAll(q, cap, xs) == q + xs
    decreases |xs|
  {
    if |xs| > 0 {
      PushAllAppends(q + [xs[0]], cap, xs[1..]);
      assert q + [xs[0]] + xs[1..] == q + xs;
    }
  }

  /** Draining returns every queued item, oldest first. */
  lemma {:induction false} DrainIsOrder<T>(q: seq<T>)
    ensures Drain(q) == q
    decreases |q|
  {
    if |q| > 0 {
      DrainIsOrder(q[1..]);
    }
  }

  /** FIFO order: items pushed into an empty queue, within capacity, come out in push order. */
  lemma FifoOrder<T>(cap: nat, xs: seq<T>)
    requires |xs| <= cap
    ensures Drain(PushAll([], cap, xs)) == xs
  {
    PushAllAppends([], cap, xs);
    assert [] + xs == xs;
    DrainIsOrder(xs);
  }

}
