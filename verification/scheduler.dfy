/**
 * The queue-driven scheduler of the Oled_1306 class: PushQueueOLED,
 * PopQueueDisplayOLED (one tick: pop, draw by style, advance the scroll
 * phase, maybe queue the record again), PeekQueueOLED and InQueueOLED,
 * over an explicit state instead of the library's globals.
 */
module Scheduler {

  import opened Wrappers
  import opened CString
  import opened Records
  import opened Render
  import Fifo

  /** Label drawn on row 0 by the IP style (message M03). */
  const DeviceIpLabel: string := "Device IP:"

  /** The `_activate` flag and the queue contents, oldest first. */
  datatype State = State(active: bool, q: seq<Record>)

  /** The queue never holds more than QueueLen records, each as PushQueueOLED stores it. */
  predicate Valid(s: State)
  {
    && |s.q| <= QueueLen
    && forall i :: 0 <= i < |s.q| ==> ValidRecord(s.q[i])
  }

  /** The constructor: an empty queue, active or not. */
  function Init(active: bool): (s: State)
    ensures Valid(s) && s.active == active && |s.q| == 0
  {
    State(active, [])
  }

  /**
   * PushQueueOLED: does nothing and fails when inactive; otherwise builds the
   * record, empties the queue first when `flush` is set, and appends the
   * record unless the queue is full.
   */
  function Push(s: State, style: Byte, scroll: Byte, flush: bool,
                a0: LineArgs, a1: LineArgs, a2: LineArgs): (r: (State, bool))
    requires Valid(s)
    requires ArgsOk(a0) && ArgsOk(a1) && (ShowsClock(style) || ArgsOk(a2))
    ensures Valid(r.0) && r.0.active == s.active
    ensures !s.active ==> r == (s, false)
    ensures s.active ==> (r.1 <==> flush || |s.q| < QueueLen)
    ensures s.active && flush ==> r.0.q == [MakeRecord(style, scroll, a0, a1, a2)]
    ensures s.active && !flush && r.1 ==> r.0.q == s.q + [MakeRecord(style, scroll, a0, a1, a2)]
    ensures !r.1 ==> r.0 == s
  {
    if !s.active then (s, false)
    else
      var rec := MakeRecord(style, scroll, a0, a1, a2);
      var q0 := if flush then [] else s.q;
      var (q1, ok) := Fifo.Push(q0, QueueLen, rec);
      (State(true, q1), ok)
  }

  /** The initial message `begin` queues once the panel is up: style 6, no scroll, flushing. */
  function BeginPush(s: State): (r: (State, bool))
    requires Valid(s)
    ensures s.active ==> r.1 && r.0.q == [Record("Prog start", "Hello", "wait forIP", 6, 4, 0)]
    ensures !s.active ==> r == (s, false)
  {
    Push(s, 6, 4, true, Literal("Prog start"), Literal("Hello"), Literal("wait forIP"))
  }

  /** The style switch of PopQueueDisplayOLED: which layout draws a record. */
  function Dispatch(rec: Record, clock: Clock): (t: seq<Command>)
    ensures rec.style == 3 || rec.style > 7 ==> t == []
    ensures t != [] ==> t[0] == Clear && t[|t| - 1] == Present
    ensures LinesNonEmpty(t)
    ensures ValidRecord(rec) && rec.style != 3 && rec.style <= 7 ==> t != []
    ensures ValidRecord(rec) ==> (HasTime(t) <==> ShowsClock(rec.style))
  {
    var p0 := Some(rec.payload0);
    var p1 := Some(rec.payload1);
    var p2 := Some(rec.payload2);
    if rec.style == 0 then DisplayMemory(clock, 1, p0, p1, None)
    else if rec.style == 1 then DisplayMix(clock, 3, Some(DeviceIpLabel), p1)
    else if rec.style == 2 then DisplayMemory(clock, 3, p0, p1, None)
    else if rec.style == 4 || rec.style == 6 then DisplayMemory(clock, 0, p0, p1, p2)
    else if rec.style == 5 || rec.style == 7 then DisplayMemory(clock, 2, p0, p1, p2)
    else []  // style 3 clears through its scroll code; other styles draw nothing
  }

  /** The scroll code after dispatch: style 3 forces 0 (clear). */
  function EffectiveScroll(rec: Record): (scroll: Byte)
    ensures rec.style == 3 ==> scroll == 0
    ensures rec.style != 3 ==> scroll == rec.scroll
  {
    if rec.style == 3 then 0 else rec.scroll
  }

  /**
   * The re-push step of a scrolling phase: when the queue is empty after the
   * pop, the record goes back in through PushQueueOLED, built from its own
   * payload arrays as dynamic sources, without flushing; otherwise nothing.
   */
  function Continue(s: State, rec: Record, next: Byte): (r: State)
    requires Valid(s) && ValidRecord(rec)
    ensures Valid(r) && r.active == s.active
    ensures r.q == s.q + (if s.active && |s.q| == 0 then [rec.(scroll := next)] else [])
  {
    if |s.q| > 0 then s
    else
      RebuildFromStored(rec, next);
      Push(s, rec.style, next, false,
           Dynamic(StoredBuffer(rec.payload0, PayloadMaxLen)),
           Dynamic(StoredBuffer(rec.payload1, PayloadMaxLen)),
           Dynamic(StoredBuffer(rec.payload2, PayloadMaxLen))).0
  }

  /** What one scheduler tick returns: the new state, the return code and the drawing. */
  datatype PopResult = PopResult(state: State, rc: Byte, trace: seq<Command>)

  /**
   * PopQueueDisplayOLED. Return codes: 0 queue empty or inactive, 1 shown,
   * 2 shown and scrolled, 3 display cleared.
   */
  function Pop(s: State, clock: Clock): (r: PopResult)
    requires Valid(s)
    ensures Valid(r.state) && r.state.active == s.active
    ensures !s.active || |s.q| == 0 ==> r == PopResult(s, 0, [])
    ensures s.active && |s.q| > 0 ==>
      && 1 <= r.rc <= 3
      && |s.q| - 1 <= |r.state.q| <= |s.q|
      && r.state.q[..|s.q| - 1] == s.q[1..]
  {
    if !s.active then PopResult(s, 0, [])
    else
      match Fifo.Pop(s.q)
      case None => PopResult(s, 0, [])
      case Some((rec, rest)) =>
        assert ValidRecord(s.q[0]);
        var drawn := Dispatch(rec, clock);
        var after := State(true, rest);
        var scroll := EffectiveScroll(rec);
        if scroll == 4 then PopResult(after, 1, drawn + [StopScroll])
        else if scroll == 3 then PopResult(Continue(after, rec, 2), 1, drawn + [StopScroll])
        else if scroll == 2 then PopResult(Continue(after, rec, 1), 2, drawn + [ScrollLeft(0x00, 0x0F)])
        else if scroll == 1 then PopResult(Continue(after, rec, 0), 2, drawn + [ScrollRight(0x00, 0x0F)])
        else if scroll == 0 then PopResult(after, 3, drawn + [Clear, Present])
        else PopResult(after, 1, drawn + [StopScroll])
  }

  /** PeekQueueOLED: the head record's style, or 0 when empty or inactive. */
  function Peek(s: State): (style: Byte)
    ensures s.active && |s.q| > 0 ==> style == s.q[0].style
    ensures !s.active || |s.q| == 0 ==> style == 0
  {
    if !s.active then 0
    else
      match Fifo.Peek(s.q)
      case None => 0
      case Some(rec) => rec.style
  }

  /** InQueueOLED: the number of queued records, or 0 when inactive. */
  function InQueue(s: State): (n: nat)
    requires Valid(s)
    ensures n <= QueueLen
    ensures s.active ==> n == |s.q|
    ensures !s.active ==> n == 0
  {
    if !s.active then 0 else |s.q|
  }

  // ---------------------------------------------------------------------------
  // The scroll phase table, stated on its own and related to Pop below.

  /** What a phase does to the panel after the record is drawn. */
  datatype ScrollAction =
    | Freeze     // stop any scrolling, keep the picture
    | Still      // freeze now, scroll on the next tick
    | Left       // scroll left
    | Right      // scroll right
    | Blank      // clear the panel

  /** A phase's action, the phase the record continues with (if any) and the return code. */
  datatype PhaseStep = PhaseStep(action: ScrollAction, next: Option<Byte>, code: Byte)

  /**
   * The lifecycle 4 freeze; 3 still, then 2 scroll left, then 1 scroll right,
   * then 0 clear; any other code freezes.
   */
  function Phase(scroll: Byte): PhaseStep
  {
    match scroll
    case 4 => PhaseStep(Freeze, None, 1)
    case 3 => PhaseStep(Still, Some(2), 1)
    case 2 => PhaseStep(Left, Some(1), 2)
    case 1 => PhaseStep(Right, Some(0), 2)
    case 0 => PhaseStep(Blank, None, 3)
    case _ => PhaseStep(Freeze, None, 1)
  }

  function ActionCommands(a: ScrollAction): seq<Command>
  {
    match a
    case Freeze => [StopScroll]
    case Still => [StopScroll]
    case Left => [ScrollLeft(0x00, 0x0F)]
    case Right => [ScrollRight(0x00, 0x0F)]
    case Blank => [Clear, Present]
  }

  /**
   * One tick on an active, non-empty queue: the head is drawn by its style,
   * the phase table gives the closing commands and the return code, and the
   * head comes back, one phase further and otherwise unchanged, exactly when
   * its phase continues and nothing else was queued.
   */
  lemma PopFollowsPhase(s: State, clock: Clock)
    requires Valid(s) && s.active && |s.q| > 0
    ensures var rec := s.q[0];
      var step := Phase(EffectiveScroll(rec));
      var r := Pop(s, clock);
      && r.rc == step.code
      && r.trace == Dispatch(rec, clock) + ActionCommands(step.action)
      && r.state.q == s.q[1..] + (if step.next.Some? && |s.q| == 1 then [rec.(scroll := step.next.value)] else [])
  {
    assert ValidRecord(s.q[0]);
  }

  /**
   * The return code depends on the phase alone: 1 for freeze (4, 3, other
   * codes), 2 for the two scrolls, 3 for clear; style 3 always clears.
   */
  lemma ReturnCodeByScroll(s: State, clock: Clock)
    requires Valid(s) && s.active && |s.q| > 0
    ensures var sc := EffectiveScroll(s.q[0]);
      var rc := Pop(s, clock).rc;
      && (sc == 0 <==> rc == 3)
      && (sc == 1 || sc == 2 <==> rc == 2)
      && (sc >= 3 <==> rc == 1)
    ensures s.q[0].style == 3 ==> Pop(s, clock).rc == 3
  {
    PopFollowsPhase(s, clock);
  }

  /**
   * The re-push rule: a tick adds a record exactly when the head's phase is
   * 3, 2 or 1 and it was the only record; the added record is the head with
   * its scroll code one lower.
   */
  lemma RePushRule(s: State, clock: Clock)
    requires Valid(s) && s.active && |s.q| > 0
    ensures var sc := EffectiveScroll(s.q[0]);
      var q' := Pop(s, clock).state.q;
      && (|q'| == |s.q| <==> (sc == 1 || sc == 2 || sc == 3) && |s.q| == 1)
      && (|q'| == |s.q| ==> q' == [s.q[0].(scroll := sc - 1)])
      && (|q'| != |s.q| ==> q' == s.q[1..])
  {
    PopFollowsPhase(s, clock);
  }

  /**
   * Records queued behind the head cancel its animation: the head is not
   * queued again and the others keep their order.
   */
  lemma NoRePushBehindOthers(s: State, clock: Clock)
    requires Valid(s) && s.active && |s.q| >= 2
    ensures Pop(s, clock).state.q == s.q[1..]
  {
    PopFollowsPhase(s, clock);
  }

  /** Peek reports the style of the record the next tick will draw, without changing anything. */
  lemma PeekPredictsPop(s: State, clock: Clock)
    requires Valid(s) && s.active && |s.q| > 0
    ensures Peek(s) == s.q[0].style
    ensures Pop(s, clock).trace[..|Dispatch(s.q[0], clock)|] == Dispatch(s.q[0], clock)
    ensures Peek(s) == 3 ==> Pop(s, clock).rc == 3
  {
    PopFollowsPhase(s, clock);
  }

  // ---------------------------------------------------------------------------
  // The layouts of the style table, stated in panel geometry.

  /** A payload row as the layout table draws it: not at all when empty. */
  function Row(start: nat, size: nat, text: string): seq<Command>
  {
    if |text| == 0 then [] else [Line(start, size, text)]
  }

  /**
   * The style table: 0 short row 0, wide row 1, clock; 1 the "Device IP:"
   * label, narrow row 1, the clock (drawn twice); 2 as 0 with a narrow row 1;
   * 4 and 6 three caller rows with a wide row 1; 5 and 7 three caller rows
   * with a narrow row 1; 3 and unknown styles nothing.
   */
  function Layout(rec: Record, clock: Clock): seq<Command>
  {
    var tm := Time(TimeText(clock));
    if rec.style == 0 then
      [Clear] + Row(0, 2, rec.payload0) + Row(16, 3, rec.payload1) + [tm, Present]
    else if rec.style == 1 then
      [Clear, Line(0, 2, "Device IP:")] + Row(16, 2, rec.payload1) + [tm, tm, Present]
    else if rec.style == 2 then
      [Clear] + Row(0, 2, rec.payload0) + Row(16, 2, rec.payload1) + [tm, Present]
    else if rec.style == 4 || rec.style == 6 then
      [Clear] + Row(0, 2, rec.payload0) + Row(16, 3, rec.payload1) + Row(48, 2, rec.payload2) + [Present]
    else if rec.style == 5 || rec.style == 7 then
      [Clear] + Row(0, 2, rec.payload0) + Row(16, 2, rec.payload1) + Row(48, 2, rec.payload2) + [Present]
    else []
  }

  lemma DrawRowIsRow(start: nat, size: nat, p: string)
    requires ValidPayload(p)
    ensures DrawRow(start, size, Some(p)) == Row(start, size, p)
  {
    CStrOfPlain(p);
    assert p[..|p|] == p;
  }

  /** DisplayMemory on stored payloads, as the table's rows. */
  lemma MemoryLayout(clock: Clock, kind: Byte, p0: string, p1: string, p2: Option<string>)
    requires ValidPayload(p0) && ValidPayload(p1)
    requires p2.None? || ValidPayload(p2.value)
    ensures var body :=
        if kind == 0 then Row(16, 3, p1) + (if p2.Some? then Row(48, 2, p2.value) else [])
        else if kind == 1 then Row(16, 3, p1) + [Time(TimeText(clock))]
        else if kind == 2 then Row(16, 2, p1) + (if p2.Some? then Row(48, 2, p2.value) else [])
        else if kind == 3 then Row(16, 2, p1) + [Time(TimeText(clock))]
        else [];
      DisplayMemory(clock, kind, Some(p0), Some(p1), p2) == [Clear] + Row(0, 2, p0) + body + [Present]
  {
    DrawRowIsRow(Row0Start, Row0Size, p0);
    DrawRowIsRow(Row1Start, Row1Size, p1);
    DrawRowIsRow(Row3Start, Row3Size, p1);
    if p2.Some? {
      DrawRowIsRow(Row2Start, Row2Size, p2.value);
    }
  }

  /** DisplayMix of kind 3 on a title and a stored payload, as the table's rows. */
  lemma MixLayout(clock: Clock, title: string, p1: string)
    requires ValidPayload(title) && ValidPayload(p1)
    ensures DisplayMix(clock, 3, Some(title), Some(p1))
         == [Clear] + Row(0, 2, title) + Row(16, 2, p1) + [Time(TimeText(clock)), Time(TimeText(clock)), Present]
  {
    DrawRowIsRow(Row0Start, Row0Size, title);
    DrawRowIsRow(Row3Start, Row3Size, p1);
  }

  lemma DispatchLayout0(rec: Record, clock: Clock)
    requires ValidRecord(rec) && rec.style == 0
    ensures Dispatch(rec, clock) == Layout(rec, clock)
  {
    MemoryLayout(clock, 1, rec.payload0, rec.payload1, None);
  }

  lemma DispatchLayout1(rec: Record, clock: Clock)
    requires ValidRecord(rec) && rec.style == 1
    ensures Dispatch(rec, clock) == Layout(rec, clock)
  {
    assert ValidPayload(DeviceIpLabel);
    MixLayout(clock, DeviceIpLabel, rec.payload1);
  }

  lemma DispatchLayout2(rec: Record, clock: Clock)
    requires ValidRecord(rec) && rec.style == 2
    ensures Dispatch(rec, clock) == Layout(rec, clock)
  {
    MemoryLayout(clock, 3, rec.payload0, rec.payload1, None);
  }

  lemma DispatchLayout46(rec: Record, clock: Clock)
    requires ValidRecord(rec) && (rec.style == 4 || rec.style == 6)
    ensures Dispatch(rec, clock) == Layout(rec, clock)
  {
    MemoryLayout(clock, 0, rec.payload0, rec.payload1, Some(rec.payload2));
  }

  lemma DispatchLayout57(rec: Record, clock: Clock)
    requires ValidRecord(rec) && (rec.style == 5 || rec.style == 7)
    ensures Dispatch(rec, clock) == Layout(rec, clock)
  {
    var p0, p1, p2 := rec.payload0, rec.payload1, rec.payload2;
    assert Layout(rec, clock) == [Clear] + Row(0, 2, p0) + Row(16, 2, p1) + Row(48, 2, p2) + [Present];
    assert Dispatch(rec, clock) == DisplayMemory(clock, 2, Some(p0), Some(p1), Some(p2));
    MemoryLayout(clock, 2, p0, p1, Some(p2));
  }

  /** Drawing a stored record follows the style table. */
  lemma DispatchLayout(rec: Record, clock: Clock)
    requires ValidRecord(rec)
    ensures Dispatch(rec, clock) == Layout(rec, clock)
  {
    var st := rec.style;
    if st == 0 {
      DispatchLayout0(rec, clock);
    } else if st == 1 {
      DispatchLayout1(rec, clock);
    } else if st == 2 {
      DispatchLayout2(rec, clock);
    } else if st == 4 || st == 6 {
      DispatchLayout46(rec, clock);
    } else if st == 5 || st == 7 {
      DispatchLayout57(rec, clock);
    }
  }

  /** Styles 0 to 2 draw the clock, 4 to 7 do not, 3 and unknown styles draw nothing. */
  lemma ClockOnlyForClockStyles(rec: Record, clock: Clock)
    requires ValidRecord(rec)
    ensures ShowsClock(rec.style) ==> HasTime(Dispatch(rec, clock))
    ensures 4 <= rec.style <= 7 ==> Dispatch(rec, clock) != [] && !HasTime(Dispatch(rec, clock))
    ensures rec.style == 3 || rec.style > 7 ==> Dispatch(rec, clock) == []
  {
    if rec.style == 1 {
      var t := Dispatch(rec, clock);
      assert t[|t| - 2].Time?;
    }
  }

}
