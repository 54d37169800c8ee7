/**
 * NUL-terminated character buffers as the display library copies them:
 * the bounded copy loop of PushQueueOLED and the fixed-size payload arrays
 * of a queued record.
 */
module CString {

  /** The C string terminator. */
  const NUL: char := '\0'

  /**
   * A copy bounded by `cap` that stops at the first NUL never reads past the
   * end of `buf`: either the buffer is at least `cap` long or it holds a NUL.
   */
  predicate Readable(buf: seq<char>, cap: nat)
  {
    cap <= |buf| || NUL in buf
  }

  /**
   * The string a character pointer to `s` denotes for strlen and strcpy: the
   * characters before the first NUL, or all of `s` when it holds none (the
   * end of the sequence stands for the terminator).
   */
  function CStr(s: seq<char>): (r: seq<char>)
    ensures r <= s && NUL !in r
    ensures |r| == |s| || s[|r|] == NUL
  {
    if |s| == 0 || s[0] == NUL then [] else [s[0]] + CStr(s[1..])
  }

  /** A pointer to a string without NUL denotes the whole string. */
  lemma CStrOfPlain(s: seq<char>)
    requires NUL !in s
    ensures CStr(s) == s
  {
  }

  /**
   * What a copy loop of the shape `for i < cap: dst[i] = 0; if *src == 0 break;
   * dst[i] = *src++` leaves as the logical string: the characters of `buf`
   * before its first NUL, at most `cap` of them.
   */
  function CStrPrefix(buf: seq<char>, cap: nat): (r: seq<char>)
    requires Readable(buf, cap)
    ensures |r| <= cap && r <= buf && NUL !in r
    ensures |r| == cap || (|r| < |buf| && buf[|r|] == NUL)
  {
    if cap == 0 || buf[0] == NUL then []
    else [buf[0]] + CStrPrefix(buf[1..], cap - 1)
  }

  /** The characterisation in CStrPrefix's contract determines its result. */
  lemma CStrPrefixUnique(buf: seq<char>, cap: nat, p: seq<char>)
    requires Readable(buf, cap)
    requires |p| <= cap && p <= buf && NUL !in p
    requires |p| == cap || (|p| < |buf| && buf[|p|] == NUL)
    ensures p == CStrPrefix(buf, cap)
  {
  }

  /**
   * A terminated source string `s` (anything may follow its NUL) is copied as
   * its first min(|s|, cap) characters.
   */
  lemma CopyOfTerminated(s: seq<char>, rest: seq<char>, cap: nat)
    requires NUL !in s
    ensures Readable(s + [NUL] + rest, cap)
    ensures CStrPrefix(s + [NUL] + rest, cap) == if |s| <= cap then s else s[..cap]
  {
    var buf := s + [NUL] + rest;
    assert buf[|s|] == NUL;
    var p := if |s| <= cap then s else s[..cap];
    assert p <= buf;
    CStrPrefixUnique(buf, cap, p);
  }

  /**
   * The contents of a `char[cap]` array that holds the logical string `p`:
   * terminated by a NUL when shorter than the array, unterminated when `p`
   * fills it.
   */
  function StoredBuffer(p: seq<char>, cap: nat): (b: seq<char>)
    requires |p| <= cap
  {
    if |p| < cap then p + [NUL] else p
  }

  /** Copying a stored array back with the same bound yields the stored string. */
  lemma StoredBufferRoundTrip(p: seq<char>, cap: nat)
    requires |p| <= cap && NUL !in p
    ensures Readable(StoredBuffer(p, cap), cap)
    ensures CStrPrefix(StoredBuffer(p, cap), cap) == p
  {
    var b := StoredBuffer(p, cap);
    if |p| < cap {
      assert b[|p|] == NUL;
    }
    assert p <= b;
    CStrPrefixUnique(b, cap, p);
  }

  /**
   * The copy loop itself, index by index: clear the slot, stop at a NUL,
   * otherwise take the character. Returns the logical string written.
   */
  method CopyBounded(buf: seq<char>, cap: nat) returns (p: seq<char>)
    requires Readable(buf, cap)
    ensures |p| <= cap && p <= buf && NUL !in p
    ensures |p| == cap || (|p| < |buf| && buf[|p|] == NUL)
    ensures p == CStrPrefix(buf, cap)
  {
    p := [];
    var i := 0;
    while i < cap
      invariant 0 <= i <= cap && i <= |buf|
      invariant p == buf[..i] && NUL !in p
      decreases cap - i
    {
      if i == |buf| {
        // Readable: a short buffer holds a NUL, which would already have stopped the loop.
        assert false;
      }
      if buf[i] == NUL {
        break;
      }
      p := p + [buf[i]];
      i := i + 1;
    }
    CStrPrefixUnique(buf, cap, p);
  }

}
