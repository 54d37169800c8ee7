# Oled_1306 display scheduler, modelled in Dafny

This project models the queue-driven scheduler of the `Oled_1306` library for an SSD1306 OLED panel.
Producers call `PushQueueOLED` to queue display records. A periodic tick calls `PopQueueDisplayOLED`,
which pops the oldest record, draws it according to its style, and advances its scroll phase
(4 freeze, 3 still, 2 scroll left, 1 scroll right, 0 clear). While the animation is not finished,
the tick queues the record again, but only when nothing else is waiting. `PeekQueueOLED` and
`InQueueOLED` inspect the queue.

The model is purely functional:

- The instance's private `_activate` flag and the file-scope queue `ShowOLED` are combined into
  one `Scheduler.State`: the flag plus the queue as a `seq<Record>`, oldest first, with the
  invariant of at most `OLEDQUEUELEN = 8` records.
- Drawing becomes a trace of abstract panel commands (`Clear`, `Line(start, size, text)`, `Time`,
  `Present`, `StopScroll`, `ScrollLeft`, `ScrollRight`) instead of calls into the display driver.
- The clock reading is passed in as a plain `Clock(hour, minute, second)`.

Modules, leaves first:

- `CString` covers NUL-terminated buffers: the string a pointer denotes for `strlen` and `strcpy_P`
  (`CStr`), the bounded copy loop (`CopyBounded`, `CStrPrefix`) and the contents of a stored
  `char[20]` payload array (`StoredBuffer`).
- `Fifo` is the non-overwriting FIFO contract of the queue library. Push fails when the queue is
  full; pop and peek fail when it is empty.
- `Records` holds the `OledStackDef` record, the per-line pointer pair (`LineArgs`: a program-memory
  literal and a caller buffer, either one null) and how a push resolves each line's payload.
- `Render` holds the command trace, the row geometry of `OledConfig.h`, `DisplayLine`,
  `DisplayMemory`, `DisplayMix` and the `SetTimeToRow2` readout `"T hh:mm:ss"`.
- `Scheduler` holds push, pop (the tick), peek, count, the style dispatch, and the scroll phase
  table stated on its own (`Phase`) and related to the tick.
- `Lifecycle` covers several calls in a row: the lone scroll-3 record, FIFO order through the
  ticks, and runs of arbitrary call sequences (the capacity invariant and the inactive scheduler).

Points where the model follows the code rather than a natural reading of it:

- A dynamic payload is copied up to its first NUL with a bound of 20 characters, not 19. A
  20-character payload fills its array with no terminator (src/Oled_1306.cpp:283-287). A payload
  is therefore a string of at most 20 characters with no NUL.
- When both pointers of a line are given, the dynamic buffer wins (src/Oled_1306.cpp:278).
- `PeekQueueOLED` returns 0 both for an empty queue and for a head of style 0, so the two cannot
  be told apart from its result.
- In the tick, the `peek` that decides the re-push overwrites the local record only when the queue
  is non-empty. On that branch nothing is pushed and the return code is assigned afterwards, so only
  the emptiness test is modelled.
- `DisplayMix` draws the clock twice for kind 1 and kind 3: once inside its switch and once after
  it. The trace for style 1 therefore holds two `Time` commands.
- `strlen` counts the characters before a row's first NUL and is stored into a `uint8_t` in
  `DisplayMemory`/`DisplayMix`. `Render.RowLen` models this as that count modulo 256. A row whose
  stored length exceeds 20 aborts the drawing before anything is cleared; a row of exactly 256
  characters stores length 0 and is skipped instead.

## Model

| member | source | states |
|---|---|---|
| CString.CStr | src/Oled_1306.cpp:345-353 | The string a row pointer denotes for `strlen` and `strcpy_P` is a NUL-free prefix of the row, ending at its first NUL or at its end. |
| CString.CStrPrefix | src/Oled_1306.cpp:283-287 | The copied payload is a prefix of the source buffer, at most 20 characters, NUL-free. It stops exactly at the first NUL or at the bound. |
| CString.CopyBounded | src/Oled_1306.cpp:282-287 | The index-by-index copy loop never reads past a readable buffer. It produces the same bounded NUL-free prefix as `CStrPrefix`. |
| CString.CopyOfTerminated | src/Oled_1306.cpp:283-287 | A terminated source string `s` is copied as its first min(\|s\|, 20) characters, whatever follows its NUL. |
| CString.StoredBufferRoundTrip | src/Oled_1306.h:45-47 | Copying a stored 20-character payload array back (terminated when short, unterminated when full) yields the stored string. |
| Records.Resolve | src/Oled_1306.cpp:278-301 | A line's payload is always a valid payload. The dynamic buffer wins and yields its NUL-bounded prefix. Otherwise the literal is copied verbatim. With both pointers null the payload is "ERROR!". |
| Records.MakeRecord | src/Oled_1306.cpp:272-316 | A pushed record carries RC 0, the given style and scroll, and the resolved lines 0 and 1. Line 2 is "Timestamp" for styles 0, 1 and 2 whatever the line-2 arguments are, and the resolved line 2 otherwise. |
| Records.DynamicPayload | src/Oled_1306.cpp:281-287 | A dynamic source holding a terminated string yields its first min(len, 20) characters. |
| Records.DynamicWins | src/Oled_1306.cpp:278-281 | When both a literal and a dynamic buffer are given for a line, the payload is the one from the dynamic buffer. |
| Records.OmittedLine2 | src/Oled_1306.h:61-64 | A push that leaves the line-2 pointers at their null defaults stores "ERROR!" for styles 3 to 7 and "Timestamp" for styles 0 to 2. |
| Records.RebuildFromStored | src/Oled_1306.cpp:209 | Re-pushing a stored record from its own payload arrays as dynamic sources rebuilds the same record with only the scroll code changed. |
| Fifo.Push | src/Oled_1306.cpp:320-323 | A queue push succeeds exactly when fewer than the capacity are queued. It then appends at the tail; otherwise the queue is unchanged. |
| Fifo.Pop | src/Oled_1306.cpp:169-173 | A queue pop fails exactly on an empty queue. Otherwise it splits off the oldest item and keeps the rest in order. |
| Fifo.Peek | src/Oled_1306.cpp:613-617 | A queue peek fails exactly on an empty queue and otherwise returns the oldest item. |
| Fifo.FifoOrder | src/Oled_1306.h:42-43 | Items pushed within capacity into an empty queue are popped in push order. |
| Render.Decimal | src/Oled_1306.cpp:470-477 | `print` of a number gives at least one decimal digit, exactly one for numbers below 10, and no leading zero for a positive number; `DecimalRoundTrip` reads the digits back as the number. |
| Render.TimeText | src/Oled_1306.cpp:461-479 | The `SetTimeToRow2` readout starts with "T " and has at least 10 characters; `TimeTextRoundTrip` pins its layout and digits. |
| Render.DecimalRoundTrip | src/Oled_1306.cpp:470-477 | The decimal digits printed for a number read back as that number. |
| Render.TimeTextRoundTrip | src/Oled_1306.cpp:461-479 | For hour, minute and second below 100 the clock readout is the 10-character "T hh:mm:ss". Its digit pairs read back as the hour, minute and second. |
| Render.DisplayLine | src/Oled_1306.cpp:437-458 | A drawn line is at the given row and size. It prints exactly `length` characters, taken from the start of the dynamic text, else the constant text as `strcpy_P` copies it (up to its first NUL), else the fallback. |
| Render.DisplayLineFallback | src/Oled_1306.cpp:442-450 | With neither pointer set, a line prints "ERROR". |
| Render.RowLen | src/Oled_1306.cpp:345-353 | A null row has length 0. Any other row has the number of characters before its first NUL, modulo 256, as `strlen` stored into a `uint8_t`. It never exceeds the row's length, and a NUL-free row shorter than 256 has its own length. |
| Render.DrawRow | src/Oled_1306.cpp:358 | A row is drawn exactly when its stored length is positive, as one line of that many characters of the row before its first NUL. The line holds no NUL and is a prefix of the row. A null or empty row draws nothing. |
| Render.DisplayMemory | src/Oled_1306.cpp:327-382 | Nothing is drawn exactly when a row's stored length exceeds 20. Otherwise the trace starts with Clear, ends with Present and draws no empty line. It shows the clock exactly for kinds 1 and 3. |
| Render.DisplayMix | src/Oled_1306.cpp:385-434 | Nothing is drawn exactly when a row's stored length exceeds 20. Otherwise the trace starts with Clear, draws no empty line, and ends with the clock readout followed by Present. |
| Scheduler.Init | src/Oled_1306.cpp:63-70 | The constructor gives an empty queue that satisfies the invariant, with the given activation flag. |
| Scheduler.Push | src/Oled_1306.cpp:252-324 | Inactive: returns false with no change. With flush: succeeds and the queue is exactly the new record. Without flush: appends the new record at the tail, or returns false with the queue unchanged when 8 are queued. At most 8 records are kept, each valid. |
| Scheduler.BeginPush | src/Oled_1306.cpp:115-118 | The initial message leaves exactly one queued record: "Prog start", "Hello", "wait forIP", style 6, scroll 4. |
| Scheduler.Continue | src/Oled_1306.cpp:205-231 | After a scrolling phase the record is re-queued, with only its scroll code changed, exactly when the queue is empty. Otherwise the queue is untouched. |
| Scheduler.Pop | src/Oled_1306.cpp:123-249 | Inactive or empty: returns 0 with no change and no drawing. Otherwise returns 1, 2 or 3. It removes exactly the head, keeps the rest in order, adds at most one record at the tail and keeps the invariant. |
| Scheduler.Peek | src/Oled_1306.cpp:603-624 | Returns the head record's style, or 0 when the queue is empty or the scheduler inactive. |
| Scheduler.InQueue | src/Oled_1306.cpp:583-591 | Returns the number of queued records, which never exceeds 8, or 0 when inactive. |
| Scheduler.PopFollowsPhase | src/Oled_1306.cpp:199-241 | A tick draws the head by its style and appends the closing commands of the phase table. It returns the table's code. The head comes back one phase on exactly when its phase continues and it was alone. |
| Scheduler.EffectiveScroll | src/Oled_1306.cpp:185-186 | Style 3 forces the scroll code to 0 before the scroll switch; every other style keeps its own code. `ReturnCodeByScroll` relates it to the return code. |
| Scheduler.ReturnCodeByScroll | src/Oled_1306.cpp:185-241 | The return code depends only on the scroll code after dispatch: 0 gives 3, 1 and 2 give 2, 3, 4 and unknown codes give 1. Style 3 always gives 3. |
| Scheduler.RePushRule | src/Oled_1306.cpp:205-231 | The queue keeps its length exactly when the head's scroll code after dispatch (0 for style 3) is 3, 2 or 1 and it was the only record; the queue is then that record with scroll one lower. Otherwise it is the tail of the old queue. |
| Scheduler.NoRePushBehindOthers | src/Oled_1306.cpp:207-210 | When other records are waiting, the head's animation is dropped: the queue after a tick is the old queue minus its head. |
| Scheduler.PeekPredictsPop | src/Oled_1306.cpp:613-623 | Peek reports the style of the record the next tick draws first. A peeked style 3 means that tick clears. |
| Scheduler.Dispatch | src/Oled_1306.cpp:175-198 | The style switch: style 3 and styles above 7 draw nothing; any drawing starts with Clear, ends with Present and prints no empty line; a stored record of styles 0-2 and 4-7 is drawn, with the clock exactly for styles 0-2. `DispatchLayout` pins the full trace per style. |
| Scheduler.DispatchLayout | src/Oled_1306.cpp:175-198 | Drawing a stored record follows the style table. Style 0: row 0, wide row 1, clock. Style 1: "Device IP:", narrow row 1, clock twice. Style 2: row 0, narrow row 1, clock. Styles 4 and 6: three rows with a wide row 1. Styles 5 and 7: three rows with a narrow row 1. Style 3 and unknown styles: nothing. Empty rows are skipped. |
| Scheduler.ClockOnlyForClockStyles | src/Oled_1306.cpp:175-198 | Styles 0 to 2 draw the clock. Styles 4 to 7 draw without the clock. Style 3 and unknown styles draw nothing. |
| Lifecycle.LoneScrollRecord | src/Oled_1306.cpp:138-144 | A lone record pushed with scroll 3 (style not 3) returns 1, 2, 2, 3 over four ticks. It passes through scroll 2, 1, 0 and leaves the queue empty. |
| Lifecycle.TicksDrawInQueueOrder | src/Oled_1306.cpp:169-210 | On an active queue of any length, successive ticks draw the queued records in queue order: tick k begins with the drawing of the k-th record, for as many ticks as there are records. |
| Lifecycle.Step | src/Oled_1306.h:58-79 | Any single call keeps the queue invariant and the activation flag. Counts never exceed 8. Peek and count change nothing. |
| Lifecycle.Run | src/Oled_1306.h:42-43 | Over any sequence of push, pop, peek and count calls, the queue stays within 8 records and every count reported is at most 8. |
| Lifecycle.DisabledRun | src/Oled_1306.cpp:165 | An inactive scheduler leaves its state unchanged over any call sequence, and every call returns 0: the `if (!_activate) return 0;` guards of the tick (line 165), the push (line 271), the count (line 587) and the peek (line 610). |

## Left out

- Each Dafny `char` of a payload or source buffer stands for one byte of the C `char` array. Text with multi-byte encodings is not modelled: the 20-character bound is 20 bytes in the source.
- The queue `ShowOLED` is one file-scope object shared by every `Oled_1306` instance, while `_activate` belongs to each instance. The model assumes a single instance. That loses nothing here, because an inactive instance never touches the queue (src/Oled_1306.cpp:165, 271, 587, 610).
- Hardware: `begin` (delays, panel initialisation, test patterns), `DrawLinePattern`, `DrawRecPattern`, `clear`, `show` and `getVersion`. Only `begin`'s initial flush-push is modelled, as `Scheduler.BeginPush`; whether the panel itself starts is a driver call outside the model.
- The display driver calls themselves (text colour, font, cursor, print). They appear only as the abstract commands of the trace. The clock readout is one `Time` command holding its text, drawn at row 2 geometry (row 48, size 2).
- The queue library's internals. Only its FIFO contract is modelled (module `Fifo`).
- Program memory versus RAM (`strcpy_P`, `strlen_P`, `F()`). These are treated as ordinary string copies.
- Serial debug and logging prints, the `Utilities` instance and the clock source. The clock is a parameter of the tick.
- `DisplayProg` and `SetCharsToRow`. They are not on the queue path; `DisplayProg` repeats `DisplayMemory`'s layout for program-memory rows.
- Undefined behaviour on 20-character payloads. `strlen` on an unterminated 20-character array can read past it, and `DisplayLine`'s `strcpy_P` into a 20-byte buffer writes one byte too many. The model treats a stored payload's length as its logical length (at most 20) and prints its text.
- Render.DisplayLine: requires `length` not to exceed the text it prints from. The source prints `length` characters whatever the string's length, reading past its end otherwise; no caller on the queue path does that.
- Scheduler.Push: requires (through `Records.ArgsOk`) a literal to be shorter than 20 characters and a dynamic buffer to be readable up to its NUL or 20 characters. The source's unbounded `strcpy_P` and pointer walk have no defined behaviour otherwise.
- Style and scroll are the source's `uint8_t` (`Records.Byte`, 0 to 255). The decrement in a scrolling phase only happens for codes 3, 2 and 1, so it never wraps.
