/** The line framing of the upstream stream: the subset of server-sent events the gateway reads.
    Lines end at a newline byte, a line counts when it starts with `data:` once stripped, and the
    `[DONE]` marker is skipped. */
module Sse {
  import opened Wrappers

  newtype byte = b: int | 0 <= b < 256

  type Bytes = seq<byte>

  const NEWLINE: byte := 10
  const DATA: Bytes := [100, 97, 116, 97, 58]
  const DONE: Bytes := [91, 68, 79, 78, 69, 93]

  predicate IsSpace(b: byte) {
    b == 32 || 9 <= b <= 13
  }

  function StripLeft(s: Bytes): Bytes {
    if s != [] && IsSpace(s[0]) then StripLeft(s[1..]) else s
  }

  function StripRight(s: Bytes): Bytes {
    if s != [] && IsSpace(s[|s| - 1]) then StripRight(s[..|s| - 1]) else s
  }

  function Strip(s: Bytes): Bytes {
    StripRight(StripLeft(s))
  }

  /** Where the first newline is, or the length. */
  function FirstNewline(s: Bytes): (n: nat)
    ensures n <= |s| && NEWLINE !in s[..n] && (n < |s| ==> s[n] == NEWLINE)
  {
    if s == [] || s[0] == NEWLINE then 0
    else
      var n := 1 + FirstNewline(s[1..]);
      assert s[..n] == [s[0]] + s[1..][..n - 1];
      n
  }

  /** The complete lines of a byte string, without their newlines. */
  function Lines(s: Bytes): seq<Bytes> {
    if s == [] then []
    else
      var front := s[..|s| - 1];
      if s[|s| - 1] == NEWLINE then Lines(front) + [Rest(front)] else Lines(front)
  }

  /** What follows the last newline. */
  function Rest(s: Bytes): Bytes {
    if s == [] || s[|s| - 1] == NEWLINE then [] else Rest(s[..|s| - 1]) + [s[|s| - 1]]
  }

  /** The data a line carries, or None when the reader skips it. */
  function DataOf(line: Bytes): Option<Bytes> {
    var stripped := Strip(line);
    if |stripped| < 5 || stripped[..5] != DATA then None
    else
      var data := Strip(stripped[5..]);
      if data == DONE then None else Some(data)
  }

  lemma {:induction false} RestIsUnbroken(s: Bytes)
    ensures NEWLINE !in Rest(s)
  {
    if s != [] {
      RestIsUnbroken(s[..|s| - 1]);
    }
  }

  lemma {:induction false} Unbroken(s: Bytes)
    requires NEWLINE !in s
    ensures Lines(s) == [] && Rest(s) == s
  {
    if s != [] {
      Unbroken(s[..|s| - 1]);
    }
  }

  /** The line that byte `b` completes after `s`, if it is a newline. */
  function Completed(s: Bytes, b: byte): seq<Bytes> {
    if b == NEWLINE then [Rest(s)] else []
  }

  lemma OneMoreByte(s: Bytes, b: byte)
    ensures Lines(s + [b]) == Lines(s) + Completed(s, b)
    ensures Rest(s + [b]) == if b == NEWLINE then [] else Rest(s) + [b]
  {
    assert (s + [b])[..|s|] == s;
  }

  lemma LastByte(a: Bytes, c: Bytes)
    requires c != []
    ensures a + c == (a + c[..|c| - 1]) + [c[|c| - 1]]
  {}

  /** Two byte strings that differ in complete lines only still do after one more byte. */
  lemma AlikeAfterByte(s: Bytes, r: Bytes, b: byte, first: seq<Bytes>)
    requires Lines(s) == first + Lines(r) && Rest(s) == Rest(r)
    ensures Lines(s + [b]) == first + Lines(r + [b]) && Rest(s + [b]) == Rest(r + [b])
  {
    OneMoreByte(s, b);
    OneMoreByte(r, b);
    Reassociate(first, Lines(r), Completed(s, b));
  }

  /** Splitting a byte string into lines can be done piecewise, carrying the unfinished line over. */
  lemma {:induction false} LinesAcrossChunks(a: Bytes, c: Bytes)
    ensures Lines(a + c) == Lines(a) + Lines(Rest(a) + c)
    ensures Rest(a + c) == Rest(Rest(a) + c)
    decreases |c|
  {
    if c == [] {
      NothingAdded(a);
    } else {
      var front := c[..|c| - 1];
      LinesAcrossChunks(a, front);
      LastByte(a, c);
      LastByte(Rest(a), c);
      AlikeAfterByte(a + front, Rest(a) + front, c[|c| - 1], Lines(a));
    }
  }

  lemma NothingAdded(a: Bytes)
    ensures Lines(a + []) == Lines(a) + Lines(Rest(a) + [])
    ensures Rest(a + []) == Rest(Rest(a) + [])
  {
    RestIsUnbroken(a);
    Unbroken(Rest(a));
    assert a + [] == a && Rest(a) + [] == Rest(a);
    assert Lines(a) + [] == Lines(a);
  }

  lemma FirstLine(line: Bytes, tail: Bytes)
    requires NEWLINE !in line
    ensures Lines(line + [NEWLINE] + tail) == [line] + Lines(tail)
    ensures Rest(line + [NEWLINE] + tail) == Rest(tail)
  {
    Unbroken(line);
    OneMoreByte(line, NEWLINE);
    assert [] + [line] == [line] && [] + tail == tail;
    LinesAcrossChunks(line + [NEWLINE], tail);
  }

  lemma Cut(s: Bytes, n: nat)
    requires n < |s| && s[n] == NEWLINE
    ensures s == s[..n] + [NEWLINE] + s[n + 1..]
  {}

  /** Where the first newline cuts a byte string, if there is one. */
  lemma CutAtNewline(s: Bytes, n: nat, line: Bytes, tail: Bytes)
    requires n == FirstNewline(s) < |s| && line == s[..n] && tail == s[n + 1..]
    ensures Lines(s) == [line] + Lines(tail) && Rest(s) == Rest(tail)
  {
    Cut(s, n);
    FirstLine(line, tail);
  }

  /** The lines, each followed by a newline. */
  function Unlines(lines: seq<Bytes>): Bytes {
    if lines == [] then [] else Unlines(lines[..|lines| - 1]) + lines[|lines| - 1] + [NEWLINE]
  }

  /** The lines and the rest, joined by newlines, are the byte string again. */
  lemma {:induction false} LinesLoseNothing(s: Bytes)
    ensures Unlines(Lines(s)) + Rest(s) == s
  {
    if s != [] {
      var front := s[..|s| - 1];
      LinesLoseNothing(front);
      assert s == front + [s[|s| - 1]];
      if s[|s| - 1] == NEWLINE {
        assert (Lines(front) + [Rest(front)])[..|Lines(front)|] == Lines(front);
      }
    }
  }

  function Concat(chunks: seq<Bytes>): Bytes {
    if chunks == [] then [] else Concat(chunks[..|chunks| - 1]) + chunks[|chunks| - 1]
  }
}
