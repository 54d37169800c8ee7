/**
 * The drawing side of the display library, as a trace of abstract panel
 * commands instead of calls into the SSD1306 driver: DisplayLine,
 * DisplayMemory, DisplayMix and the clock readout of SetTimeToRow2.
 */
module Render {

  import opened Wrappers
  import opened Records
  import opened CString

  /** One call into the display driver, in the order the library issues them. */
  datatype Command =
    | Clear                                         // clearDisplay
    | Line(start: nat, size: nat, text: string)     // text at a pixel row in a font size
    | Time(text: string)                            // clock readout on row 2
    | Present                                       // display: flush the buffer to the panel
    | StopScroll
    | ScrollLeft(startPage: nat, stopPage: nat)
    | ScrollRight(startPage: nat, stopPage: nat)

  // Row geometry of the 128x64 panel: pixel row where a text row starts and its font size.
  const Row0Start: nat := 0
  const Row0Size: nat := 2
  const Row1Start: nat := 16
  const Row1Size: nat := 3
  const Row2Start: nat := 48
  const Row2Size: nat := 2
  /** Row 3 is row 1 in the narrow font, which wraps over two text lines. */
  const Row3Start: nat := 16
  const Row3Size: nat := 2

  /** Printed by DisplayLine when it is given no text at all. */
  const LineFallback: string := "ERROR"

  /** The clock reading the caller passes in. */
  datatype Clock = Clock(hour: nat, minute: nat, second: nat)

  predicate IsDigit(c: char)
  {
    '0' <= c <= '9'
  }

  function DigitChar(d: nat): (c: char)
    requires d < 10
    ensures IsDigit(c)
  {
    ('0' as int + d) as char
  }

  function DigitValue(c: char): (d: nat)
    requires IsDigit(c)
    ensures d < 10
  {
    c as int - '0' as int
  }

  /** How print renders an unsigned number: its decimal digits, no leading zeros. */
  function Decimal(n: nat): (r: string)
    ensures |r| >= 1
    ensures forall i :: 0 <= i < |r| ==> IsDigit(r[i])
    ensures n < 10 <==> |r| == 1
    ensures n > 0 ==> r[0] != '0'
    decreases n
  {
    if n < 10 then [DigitChar(n)] else Decimal(n / 10) + [DigitChar(n % 10)]
  }

  /** Reads a string of decimal digits back as a number. */
  function DecimalValue(s: string): nat
    requires forall i :: 0 <= i < |s| ==> IsDigit(s[i])
    decreases |s|
  {
    if |s| == 0 then 0 else 10 * DecimalValue(s[..|s| - 1]) + DigitValue(s[|s| - 1])
  }

  lemma {:induction false} DecimalRoundTrip(n: nat)
    ensures DecimalValue(Decimal(n)) == n
    decreases n
  {
    if n >= 10 {
      DecimalRoundTrip(n / 10);
      var r := Decimal(n);
      assert r[..|r| - 1] == Decimal(n / 10);
    }
  }

  /**
   * SetTimeToRow2's readout: "T ", then each of hour, minute and second
   * printed as its tens and its units, separated by colons.
   */
  function TimeText(c: Clock): (t: string)
    ensures |t| >= 10 && t[..2] == "T "
  {
    "T "
    + Decimal(c.hour / 10) + Decimal(c.hour % 10) + ":"
    + Decimal(c.minute / 10) + Decimal(c.minute % 10) + ":"
    + Decimal(c.second / 10) + Decimal(c.second % 10)
  }

  /** Two digits read back as a number below 100. */
  function TwoDigits(a: char, b: char): nat
    requires IsDigit(a) && IsDigit(b)
  {
    10 * DigitValue(a) + DigitValue(b)
  }

  /**
   * For a clock whose fields are below 100 the readout is the fixed-width
   * "T hh:mm:ss", and its digit pairs read back as the hour, minute and second.
   */
  lemma TimeTextRoundTrip(c: Clock)
    requires c.hour < 100 && c.minute < 100 && c.second < 100
    ensures var t := TimeText(c);
      && |t| == 10
      && t[0] == 'T' && t[1] == ' ' && t[4] == ':' && t[7] == ':'
      && IsDigit(t[2]) && IsDigit(t[3]) && IsDigit(t[5]) && IsDigit(t[6]) && IsDigit(t[8]) && IsDigit(t[9])
      && TwoDigits(t[2], t[3]) == c.hour
      && TwoDigits(t[5], t[6]) == c.minute
      && TwoDigits(t[8], t[9]) == c.second
  {
  }

  /**
   * The text DisplayLine prints from: the dynamic pointer as it stands, else
   * the constant one as strcpy_P copies it (up to its first NUL), else the fallback.
   */
  function LineText(cst: Option<string>, dyn: Option<string>): string
  {
    if dyn.Some? then dyn.value else if cst.Some? then CStr(cst.value) else LineFallback
  }

  /** DisplayLine: the first `length` characters of its text at the given row and size. */
  function DisplayLine(start: nat, length: nat, size: nat, cst: Option<string>, dyn: Option<string>): (c: Command)
    requires length <= |LineText(cst, dyn)|
    ensures c.Line? && c.start == start && c.size == size
    ensures |c.text| == length && c.text <= LineText(cst, dyn)
  {
    Line(start, size, LineText(cst, dyn)[..length])
  }

  /** With neither pointer set DisplayLine prints from "ERROR". */
  lemma DisplayLineFallback(start: nat, size: nat)
    ensures DisplayLine(start, 5, size, None, None) == Line(start, size, "ERROR")
  {
  }

  /**
   * strlen of a row pointer stored into a uint8_t: the characters before the
   * row's first NUL, modulo 256; 0 for a null row.
   */
  function RowLen(row: Option<string>): (n: Byte)
    ensures row.Some? ==> n == |CStr(row.value)| % 256
    ensures row.Some? && NUL !in row.value && |row.value| < 256 ==> n == |row.value|
    ensures row.Some? ==> n <= |row.value|
    ensures row.None? ==> n == 0
  {
    if row.None? then 0 else |CStr(row.value)| % 256
  }

  /** A row is drawn only when its length is positive. */
  function DrawRow(start: nat, size: nat, row: Option<string>): (t: seq<Command>)
    ensures |t| <= 1
    ensures |t| == 1 <==> RowLen(row) > 0
    ensures |t| == 1 ==> t[0] == Line(start, size, CStr(row.value)[..RowLen(row)])
    ensures |t| == 1 ==> NUL !in t[0].text && t[0].text <= row.value
  {
    var n := RowLen(row);
    if n > 0 then [DisplayLine(start, n, size, row, None)] else []
  }

  /** Every line command in `t` prints between 1 and 20 characters. */
  predicate LinesNonEmpty(t: seq<Command>)
  {
    forall i :: 0 <= i < |t| && t[i].Line? ==> 0 < |t[i].text| <= PayloadMaxLen
  }

  predicate HasTime(t: seq<Command>)
  {
    exists i :: 0 <= i < |t| && t[i].Time?
  }

  lemma ConcatProperties(a: seq<Command>, b: seq<Command>)
    ensures LinesNonEmpty(a) && LinesNonEmpty(b) ==> LinesNonEmpty(a + b)
    ensures HasTime(a + b) <==> HasTime(a) || HasTime(b)
  {
    var t := a + b;
    if HasTime(t) {
      var i :| 0 <= i < |t| && t[i].Time?;
      if i < |a| { assert a[i].Time?; } else { assert b[i - |a|].Time?; }
    }
    if HasTime(b) {
      var i :| 0 <= i < |b| && b[i].Time?;
      assert t[|a| + i].Time?;
    }
    if HasTime(a) {
      var i :| 0 <= i < |a| && a[i].Time?;
      assert t[i].Time?;
    }
    if LinesNonEmpty(a) && LinesNonEmpty(b) {
      forall i | 0 <= i < |t| && t[i].Line?
        ensures 0 < |t[i].text| <= PayloadMaxLen
      {
        if i >= |a| { assert t[i] == b[i - |a|]; }
      }
    }
  }

  /** A row of at most 20 characters draws at most one non-empty line and no clock. */
  lemma DrawRowProperties(start: nat, size: nat, row: Option<string>)
    requires RowLen(row) <= PayloadMaxLen
    ensures LinesNonEmpty(DrawRow(start, size, row)) && !HasTime(DrawRow(start, size, row))
  {
  }

  /** The clock readout as a one-command trace. */
  function TimeRow(clock: Clock): (t: seq<Command>)
    ensures LinesNonEmpty(t) && HasTime(t)
  {
    var t := [Time(TimeText(clock))];
    assert t[0].Time?;
    t
  }

  /** The part of DisplayMemory after row 0, selected by `kind`. */
  function MemoryBody(clock: Clock, kind: Byte, row1: Option<string>, row2: Option<string>): (t: seq<Command>)
    requires RowLen(row1) <= PayloadMaxLen && RowLen(row2) <= PayloadMaxLen
    ensures LinesNonEmpty(t)
    ensures HasTime(t) <==> kind == 1 || kind == 3
  {
    DrawRowProperties(Row1Start, Row1Size, row1);
    DrawRowProperties(Row3Start, Row3Size, row1);
    DrawRowProperties(Row2Start, Row2Size, row2);
    ConcatProperties(DrawRow(Row1Start, Row1Size, row1), DrawRow(Row2Start, Row2Size, row2));
    ConcatProperties(DrawRow(Row1Start, Row1Size, row1), TimeRow(clock));
    ConcatProperties(DrawRow(Row3Start, Row3Size, row1), DrawRow(Row2Start, Row2Size, row2));
    ConcatProperties(DrawRow(Row3Start, Row3Size, row1), TimeRow(clock));
    if kind == 0 then DrawRow(Row1Start, Row1Size, row1) + DrawRow(Row2Start, Row2Size, row2)
    else if kind == 1 then DrawRow(Row1Start, Row1Size, row1) + TimeRow(clock)
    else if kind == 2 then DrawRow(Row3Start, Row3Size, row1) + DrawRow(Row2Start, Row2Size, row2)
    else if kind == 3 then DrawRow(Row3Start, Row3Size, row1) + TimeRow(clock)
    else []
  }

  /** Clear, row 0, the body and present, as both DisplayMemory and DisplayMix frame their output. */
  function Framed(row0: Option<string>, body: seq<Command>): (t: seq<Command>)
    requires RowLen(row0) <= PayloadMaxLen && LinesNonEmpty(body)
    ensures t != [] && t[0] == Clear && t[|t| - 1] == Present
    ensures LinesNonEmpty(t)
    ensures HasTime(t) <==> HasTime(body)
  {
    var head := [Clear] + DrawRow(Row0Start, Row0Size, row0);
    DrawRowProperties(Row0Start, Row0Size, row0);
    ConcatProperties([Clear], DrawRow(Row0Start, Row0Size, row0));
    ConcatProperties(head, body);
    ConcatProperties(head + body, [Present]);
    head + body + [Present]
  }

  /**
   * DisplayMemory: any row longer than 20 aborts before drawing; otherwise
   * clear, row 0, then by `kind` 0: wide row 1 and row 2; 1: wide row 1 and
   * the clock; 2: narrow row 1 and row 2; 3: narrow row 1 and the clock;
   * other kinds nothing more; then present.
   */
  function DisplayMemory(clock: Clock, kind: Byte, row0: Option<string>, row1: Option<string>, row2: Option<string>): (t: seq<Command>)
    ensures t == [] <==> RowLen(row0) > PayloadMaxLen || RowLen(row1) > PayloadMaxLen || RowLen(row2) > PayloadMaxLen
    ensures t != [] ==> t[0] == Clear && t[|t| - 1] == Present
    ensures LinesNonEmpty(t)
    ensures HasTime(t) <==> t != [] && (kind == 1 || kind == 3)
  {
    if RowLen(row0) > PayloadMaxLen || RowLen(row1) > PayloadMaxLen || RowLen(row2) > PayloadMaxLen then []
    else Framed(row0, MemoryBody(clock, kind, row1, row2))
  }

  /**
   * DisplayMix: a constant row 0 and a memory row 1. Kind 1 draws row 1 wide,
   * kind 3 narrow, each followed by the clock; every kind then draws the
   * clock once more before presenting.
   */
  function DisplayMix(clock: Clock, kind: Byte, row0: Option<string>, row1: Option<string>): (t: seq<Command>)
    ensures t == [] <==> RowLen(row0) > PayloadMaxLen || RowLen(row1) > PayloadMaxLen
    ensures t != [] ==> t[0] == Clear && t[|t| - 1] == Present && t[|t| - 2] == Time(TimeText(clock))
    ensures LinesNonEmpty(t)
  {
    if RowLen(row0) > PayloadMaxLen || RowLen(row1) > PayloadMaxLen then []
    else
      var body :=
        if kind == 1 then DrawRow(Row1Start, Row1Size, row1) + TimeRow(clock)
        else if kind == 3 then DrawRow(Row3Start, Row3Size, row1) + TimeRow(clock)
        else [];
      DrawRowProperties(Row1Start, Row1Size, row1);
      DrawRowProperties(Row3Start, Row3Size, row1);
      ConcatProperties(DrawRow(Row1Start, Row1Size, row1), TimeRow(clock));
      ConcatProperties(DrawRow(Row3Start, Row3Size, row1), TimeRow(clock));
      ConcatProperties(body, TimeRow(clock));
      Framed(row0, body + TimeRow(clock))
  }

}
