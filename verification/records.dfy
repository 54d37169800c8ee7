/**
 * The queued display record (OledStackDef) and how PushQueueOLED fills one
 * from its per-line arguments.
 */
module Records {

  import opened Wrappers
  import opened CString

  /** Size of each payload array of a record (PAYLOADMAXLEN). */
  const PayloadMaxLen: nat := 20
  /** Capacity of the display queue (OLEDQUEUELEN). */
  const QueueLen: nat := 8

  /** The source's uint8_t. */
  type Byte = x: int | 0 <= x < 256

  /** Stored when a line has neither a literal nor a dynamic source. */
  const ErrorMarker: string := "ERROR!"
  /** Stored as line 2 of the clock styles: render the live time there. */
  const TimestampMarker: string := "Timestamp"

  /**
   * One display request. Each payload is the logical string held by a
   * 20-character array: at most 20 characters and no NUL (a 20-character
   * payload fills its array with no terminator).
   */
  datatype Record = Record(
    payload0: string,
    payload1: string,
    payload2: string,
    style: Byte,
    scroll: Byte,
    rc: Byte)

  /**
   * The two pointer arguments a line gets: a program-memory literal and a
   * caller-owned buffer, either of which may be null.
   */
  datatype LineArgs = LineArgs(pgm: Option<string>, dyn: Option<seq<char>>)

  /** Neither source given (the default for line 2). */
  const Absent: LineArgs := LineArgs(None, None)

  function Literal(s: string): LineArgs
  {
    LineArgs(Some(s), None)
  }

  function Dynamic(buf: seq<char>): LineArgs
  {
    LineArgs(None, Some(buf))
  }

  predicate ValidPayload(p: string)
  {
    |p| <= PayloadMaxLen && NUL !in p
  }

  /**
   * What copying a line's arguments needs to be well defined: a dynamic
   * buffer is read up to its first NUL or 20 characters; a literal is copied
   * with its terminator by an unbounded strcpy, so it must leave room for it.
   */
  predicate ArgsOk(a: LineArgs)
  {
    match a.dyn
    case Some(buf) => Readable(buf, PayloadMaxLen)
    case None => a.pgm.None? || (|a.pgm.value| < PayloadMaxLen && NUL !in a.pgm.value)
  }

  /** Styles 0, 1 and 2 show the live clock on line 2. */
  predicate ShowsClock(style: Byte)
  {
    style == 0 || style == 1 || style == 2
  }

  /** The invariant of every record PushQueueOLED stores. */
  predicate ValidRecord(r: Record)
  {
    && ValidPayload(r.payload0)
    && ValidPayload(r.payload1)
    && ValidPayload(r.payload2)
    && (ShowsClock(r.style) ==> r.payload2 == TimestampMarker)
    && r.rc == 0
  }

  /**
   * A line's payload: the dynamic buffer wins when given, else the literal,
   * else the error marker.
   */
  function Resolve(a: LineArgs): (p: string)
    requires ArgsOk(a)
    ensures ValidPayload(p)
    ensures a.dyn.Some? ==> p <= a.dyn.value && (|p| == PayloadMaxLen || a.dyn.value[|p|] == NUL)
    ensures a.dyn.None? && a.pgm.Some? ==> p == a.pgm.value
    ensures a.dyn.None? && a.pgm.None? ==> p == ErrorMarker
  {
    match a.dyn
    case Some(buf) => CStrPrefix(buf, PayloadMaxLen)
    case None =>
      match a.pgm
      case Some(lit) => lit
      case None => ErrorMarker
  }

  /**
   * The record PushQueueOLED builds before queueing it: RC cleared, style and
   * scroll as given, line 2 replaced by the clock marker for styles 0 to 2.
   */
  function MakeRecord(style: Byte, scroll: Byte, a0: LineArgs, a1: LineArgs, a2: LineArgs): (r: Record)
    requires ArgsOk(a0) && ArgsOk(a1)
    requires ShowsClock(style) || ArgsOk(a2)
    ensures ValidRecord(r)
    ensures r.style == style && r.scroll == scroll && r.rc == 0
    ensures r.payload0 == Resolve(a0) && r.payload1 == Resolve(a1)
    ensures ShowsClock(style) ==> r.payload2 == TimestampMarker
    ensures !ShowsClock(style) ==> r.payload2 == Resolve(a2)
  {
    Record(
      Resolve(a0),
      Resolve(a1),
      if ShowsClock(style) then TimestampMarker else Resolve(a2),
      style, scroll, 0)
  }

  /** A dynamic source holding a terminated string yields its first min(len, 20) characters. */
  lemma DynamicPayload(s: string, rest: seq<char>)
    requires NUL !in s
    ensures ArgsOk(Dynamic(s + [NUL] + rest))
    ensures Resolve(Dynamic(s + [NUL] + rest)) == if |s| <= PayloadMaxLen then s else s[..PayloadMaxLen]
  {
    CopyOfTerminated(s, rest, PayloadMaxLen);
  }

  /** The dynamic source wins over a literal given for the same line. */
  lemma DynamicWins(lit: string, buf: seq<char>)
    requires Readable(buf, PayloadMaxLen)
    ensures Resolve(LineArgs(Some(lit), Some(buf))) == Resolve(Dynamic(buf))
  {
  }

  /** A line pushed with only its default (null) arguments stores "ERROR!" unless the style shows the clock. */
  lemma OmittedLine2(style: Byte, scroll: Byte, a0: LineArgs, a1: LineArgs)
    requires ArgsOk(a0) && ArgsOk(a1)
    ensures MakeRecord(style, scroll, a0, a1, Absent).payload2
      == if ShowsClock(style) then TimestampMarker else ErrorMarker
  {
  }

  /**
   * Rebuilding a stored record from its own payload arrays passed as dynamic
   * sources gives back the same record with the new scroll value.
   */
  lemma RebuildFromStored(r: Record, scroll: Byte)
    requires ValidRecord(r)
    ensures ArgsOk(Dynamic(StoredBuffer(r.payload0, PayloadMaxLen)))
    ensures ArgsOk(Dynamic(StoredBuffer(r.payload1, PayloadMaxLen)))
    ensures ArgsOk(Dynamic(StoredBuffer(r.payload2, PayloadMaxLen)))
    ensures MakeRecord(r.style, scroll,
                       Dynamic(StoredBuffer(r.payload0, PayloadMaxLen)),
                       Dynamic(StoredBuffer(r.payload1, PayloadMaxLen)),
                       Dynamic(StoredBuffer(r.payload2, PayloadMaxLen)))
            == r.(scroll := scroll)
  {
    StoredBufferRoundTrip(r.payload0, PayloadMaxLen);
    StoredBufferRoundTrip(r.payload1, PayloadMaxLen);
    StoredBufferRoundTrip(r.payload2, PayloadMaxLen);
  }

}
