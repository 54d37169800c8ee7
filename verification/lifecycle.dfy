/**
 * Properties of the scheduler over several calls: the scroll lifecycle of a
 * lone record, and runs of arbitrary push/pop/peek/count sequences.
 */
module Lifecycle {

  import opened Records
  import opened Render
  import opened Scheduler

  /**
   * A record pushed alone with scroll 3 (and a style other than 3) is shown
   * still, scrolled left, scrolled right and cleared over four ticks, returning
   * 1, 2, 2, 3, and is gone from the queue afterwards.
   */
  lemma LoneScrollRecord(style: Byte, a0: LineArgs, a1: LineArgs, a2: LineArgs,
                         c1: Clock, c2: Clock, c3: Clock, c4: Clock)
    requires style != 3
    requires ArgsOk(a0) && ArgsOk(a1) && (ShowsClock(style) || ArgsOk(a2))
    ensures var rec := MakeRecord(style, 3, a0, a1, a2);
      var s0 := Push(Init(true), style, 3, false, a0, a1, a2).0;
      var r1 := Pop(s0, c1);
      var r2 := Pop(r1.state, c2);
      var r3 := Pop(r2.state, c3);
      var r4 := Pop(r3.state, c4);
      && [r1.rc, r2.rc, r3.rc, r4.rc] == [1, 2, 2, 3]
      && r1.state.q == [rec.(scroll := 2)]
      && r2.state.q == [rec.(scroll := 1)]
      && r3.state.q == [rec.(scroll := 0)]
      && r4.state.q == []
  {
    var rec := MakeRecord(style, 3, a0, a1, a2);
    var s0 := Push(Init(true), style, 3, false, a0, a1, a2).0;
    assert s0.q == [rec];
    LoneTick(rec, c1);
    LoneTick(rec.(scroll := 2), c2);
    assert rec.(scroll := 2).(scroll := 1) == rec.(scroll := 1);
    LoneTick(rec.(scroll := 1), c3);
    assert rec.(scroll := 1).(scroll := 0) == rec.(scroll := 0);
    LoneTick(rec.(scroll := 0), c4);
  }

  /** One tick on a queue holding only `rec` (style not 3) with scroll code 3, 2, 1 or 0. */
  lemma LoneTick(rec: Record, c: Clock)
    requires ValidRecord(rec) && rec.style != 3 && rec.scroll <= 3
    ensures var r := Pop(State(true, [rec]), c);
      && r.rc == (if rec.scroll == 3 then 1 else if rec.scroll == 0 then 3 else 2)
      && r.state.q == (if rec.scroll == 0 then [] else [rec.(scroll := rec.scroll - 1)])
  {
    RePushRule(State(true, [rec]), c);
    ReturnCodeByScroll(State(true, [rec]), c);
  }

  /** Whether a call's result trace begins with the drawing of `rec`. */
  predicate Draws(r: PopResult, rec: Record, clock: Clock)
  {
    |Dispatch(rec, clock)| <= |r.trace| && r.trace[..|Dispatch(rec, clock)|] == Dispatch(rec, clock)
  }

  /** The results of successive ticks, one per clock reading. */
  function Ticks(s: State, clocks: seq<Clock>): (rs: seq<PopResult>)
    requires Valid(s)
    ensures |rs| == |clocks|
    decreases |clocks|
  {
    if |clocks| == 0 then []
    else
      var r := Pop(s, clocks[0]);
      [r] + Ticks(r.state, clocks[1..])
  }

  /**
   * FIFO order through the scheduler: on an active queue, tick k draws the
   * k-th queued record, for as many ticks as there are records.
   */
  lemma {:induction false} TicksDrawInQueueOrder(s: State, clocks: seq<Clock>)
    requires Valid(s) && s.active && |clocks| <= |s.q|
    ensures forall k :: 0 <= k < |clocks| ==> Draws(Ticks(s, clocks)[k], s.q[k], clocks[k])
    decreases |clocks|
  {
    if |clocks| > 0 {
      FirstTickDrawsHead(s, clocks[0]);
      assert Ticks(s, clocks)[0] == Pop(s, clocks[0]);
      if |clocks| > 1 {
        var next := Pop(s, clocks[0]).state;
        NoRePushBehindOthers(s, clocks[0]);
        TicksDrawInQueueOrder(next, clocks[1..]);
        forall k | 1 <= k < |clocks|
          ensures Draws(Ticks(s, clocks)[k], s.q[k], clocks[k])
        {
          TickShift(s, clocks, k);
          assert next.q[k - 1] == s.q[k] && clocks[1..][k - 1] == clocks[k];
        }
      }
    }
  }

  /** The first tick draws the head record. */
  lemma FirstTickDrawsHead(s: State, clock: Clock)
    requires Valid(s) && s.active && 0 < |s.q|
    ensures Draws(Pop(s, clock), s.q[0], clock)
  {
    PeekPredictsPop(s, clock);
  }

  /** Tick k from `s` is tick k - 1 from the state the first tick leaves. */
  lemma TickShift(s: State, clocks: seq<Clock>, k: nat)
    requires Valid(s) && 0 < k < |clocks|
    ensures Ticks(s, clocks)[k] == Ticks(Pop(s, clocks[0]).state, clocks[1..])[k - 1]
  {
  }

  /** One call a producer or the tick loop can make. */
  datatype Op =
    | PushOp(style: Byte, scroll: Byte, flush: bool, a0: LineArgs, a1: LineArgs, a2: LineArgs)
    | PopOp(clock: Clock)
    | PeekOp
    | CountOp

  predicate OpOk(op: Op)
  {
    op.PushOp? ==> ArgsOk(op.a0) && ArgsOk(op.a1) && (ShowsClock(op.style) || ArgsOk(op.a2))
  }

  /** Applies one call; the number is what the call returns (a push's bool as 0 or 1). */
  function Step(s: State, op: Op): (r: (State, nat))
    requires Valid(s) && OpOk(op)
    ensures Valid(r.0) && r.0.active == s.active
    ensures op.CountOp? ==> r.1 <= QueueLen
    ensures !op.PushOp? && !op.PopOp? ==> r.0 == s
  {
    match op
    case PushOp(style, scroll, flush, a0, a1, a2) =>
      var (s', ok) := Push(s, style, scroll, flush, a0, a1, a2);
      (s', if ok then 1 else 0)
    case PopOp(clock) =>
      var p := Pop(s, clock);
      (p.state, p.rc)
    case PeekOp => (s, Peek(s))
    case CountOp => (s, InQueue(s))
  }

  /**
   * Applies calls in order and lists their results. Whatever the calls, the
   * queue stays within capacity and no count exceeds it.
   */
  function Run(s: State, ops: seq<Op>): (r: (State, seq<nat>))
    requires Valid(s)
    requires forall i :: 0 <= i < |ops| ==> OpOk(ops[i])
    ensures Valid(r.0) && r.0.active == s.active
    ensures |r.1| == |ops|
    ensures forall i :: 0 <= i < |ops| && ops[i].CountOp? ==> r.1[i] <= QueueLen
    decreases |ops|
  {
    if |ops| == 0 then (s, [])
    else
      var (s1, out) := Step(s, ops[0]);
      var (s2, outs) := Run(s1, ops[1..]);
      assert forall i :: 1 <= i < |ops| ==> ops[i] == ops[1..][i - 1];
      (s2, [out] + outs)
  }

  /** An inactive scheduler ignores every call: the state is unchanged and every call returns 0. */
  lemma {:induction false} DisabledRun(s: State, ops: seq<Op>)
    requires Valid(s) && !s.active
    requires forall i :: 0 <= i < |ops| ==> OpOk(ops[i])
    ensures Run(s, ops).0 == s
    ensures forall i :: 0 <= i < |ops| ==> Run(s, ops).1[i] == 0
    decreases |ops|
  {
    if |ops| > 0 {
      DisabledRun(s, ops[1..]);
    }
  }

}
