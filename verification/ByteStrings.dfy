/**
  Byte strings, and the few operations of Go's `bytes` package that the batch relies on.
  A body is ndjson: lines separated by the newline byte.
 */
module ByteStrings {

  newtype Byte = x: int | 0 <= x < 0x100

  type Bytes = seq<Byte>

  const NEWLINE: Byte := 10

  datatype Option<+T> = None | Some(value: T)

  /** The bytes of a text that uses only 7-bit characters. */
  function Ascii(s: string): (b: Bytes)
    requires forall i | 0 <= i < |s| :: s[i] < '\U{80}'
    ensures |b| == |s|
    ensures forall i | 0 <= i < |s| :: b[i] as int == s[i] as int
  {
    seq(|s|, i requires 0 <= i < |s| => s[i] as int as Byte)
  }

  /** Splits `s` around its first newline; without one, everything is before it. */
  function Cut(s: Bytes): (r: (Bytes, Bytes))
    ensures NEWLINE !in r.0
    ensures NEWLINE in s ==> s == r.0 + [NEWLINE] + r.1
    ensures NEWLINE !in s ==> r == (s, [])
  {
    if s == [] then
      ([], [])
    else if s[0] == NEWLINE then
      assert s == [] + [NEWLINE] + s[1..];
      ([], s[1..])
    else
      var r := Cut(s[1..]);
      assert s == [s[0]] + s[1..];
      Reassociate([s[0]], r.0 + [NEWLINE], r.1);
      Reassociate([s[0]], r.0, [NEWLINE]);
      ([s[0]] + r.0, r.1)
  }

  /** All lines of `s`; there is always at least one. */
  function Lines(s: Bytes): (ls: seq<Bytes>)
    ensures |ls| > 0 && NEWLINE !in ls[0]
    decreases |s|
  {
    if NEWLINE in s then
      var r := Cut(s);
      [r.0] + Lines(r.1)
    else
      [s]
  }

  /** The layout of the batch buffer: the head, then a newline and an entry for each entry. */
  function Encode(head: Bytes, entries: seq<Bytes>): (b: Bytes)
    ensures head <= b
  {
    if entries == [] then
      head
    else
      Encode(head, entries[..|entries| - 1]) + [NEWLINE] + entries[|entries| - 1]
  }

  lemma Reassociate<T>(a: seq<T>, b: seq<T>, c: seq<T>)
    ensures a + (b + c) == a + b + c
  {
  }

  lemma AppendNothing<T>(s: seq<T>)
    ensures s + [] == s
  {
  }

  /** The next one of a queue goes behind what has been taken from it already. */
  lemma TakeNext<T>(taken: seq<T>, queue: seq<T>)
    requires queue != []
    ensures taken + queue == taken + [queue[0]] + queue[1..]
  {
  }

  lemma SplitLast<T>(s: seq<T>)
    requires s != []
    ensures s == s[..|s| - 1] + [s[|s| - 1]]
  {
  }

  lemma {:induction false} LinesNewlineFree(s: Bytes)
    ensures forall l | l in Lines(s) :: NEWLINE !in l
    decreases |s|
  {
    if NEWLINE in s {
      LinesNewlineFree(Cut(s).1);
    }
  }

  lemma EncodeSnoc(head: Bytes, entries: seq<Bytes>, e: Bytes)
    ensures Encode(head, entries + [e]) == Encode(head, entries) + [NEWLINE] + e
  {
    assert (entries + [e])[..|entries|] == entries;
  }

  /** Cutting at a newline that has none before it gives back both sides. */
  lemma {:induction false} CutJoined(before: Bytes, after: Bytes)
    requires NEWLINE !in before
    ensures Cut(before + [NEWLINE] + after) == (before, after)
  {
    var s := before + [NEWLINE] + after;
    if before == [] {
      assert s[1..] == after;
    } else {
      assert s[1..] == before[1..] + [NEWLINE] + after;
      CutJoined(before[1..], after);
      assert [s[0]] + before[1..] == before;
    }
  }

  /** A newline-free line put after a newline becomes one more line. */
  lemma {:induction false} LinesSnoc(s: Bytes, line: Bytes)
    requires NEWLINE !in line
    ensures Lines(s + [NEWLINE] + line) == Lines(s) + [line]
    decreases |s|
  {
    if NEWLINE in s {
      var r := Cut(s);
      assert s + [NEWLINE] + line == r.0 + [NEWLINE] + (r.1 + [NEWLINE] + line);
      CutJoined(r.0, r.1 + [NEWLINE] + line);
      LinesSnoc(r.1, line);
      assert [r.0] + (Lines(r.1) + [line]) == Lines(s) + [line];
    } else {
      CutJoined(s, line);
    }
  }

  /** Splitting an encoded buffer on newlines gives the head and the entries back, in order. */
  lemma {:induction false} LinesOfEncode(head: Bytes, entries: seq<Bytes>)
    requires NEWLINE !in head && forall e | e in entries :: NEWLINE !in e
    ensures Lines(Encode(head, entries)) == [head] + entries
  {
    if entries != [] {
      var init, last := entries[..|entries| - 1], entries[|entries| - 1];
      SplitLast([head] + entries);
      LinesOfEncode(head, init);
      LinesSnoc(Encode(head, init), last);
      assert ([head] + entries)[..|entries|] == [head] + init;
    }
  }

  /** Encode loses nothing: head and newline-free entries are determined by the bytes. */
  lemma EncodeInjective(head: Bytes, entries: seq<Bytes>, head': Bytes, entries': seq<Bytes>)
    requires NEWLINE !in head && forall e | e in entries :: NEWLINE !in e
    requires NEWLINE !in head' && forall e | e in entries' :: NEWLINE !in e
    requires Encode(head, entries) == Encode(head', entries')
    ensures head == head' && entries == entries'
  {
    LinesOfEncode(head, entries);
    LinesOfEncode(head', entries');
    assert ([head] + entries)[0] == ([head'] + entries')[0];
    assert ([head] + entries)[1..] == entries;
    assert ([head'] + entries')[1..] == entries';
  }
}
