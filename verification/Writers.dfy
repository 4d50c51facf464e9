/** The stream writers: a prefix before every line, and a buffer that keeps the first bytes. */
module Writers {
  import opened Common
  import opened Text

  const NEW_LINE: byte := 10

  function Concat(chunks: seq<seq<byte>>): seq<byte> {
    if chunks == [] then [] else chunks[0] + Concat(chunks[1..])
  }

  // ----- Prefixed lines -----

  /** The stream with the prefix before the first byte of every line. */
  function Prefixed(s: seq<byte>, prefix: seq<byte>, lineStarts: bool): seq<byte> {
    if s == [] then []
    else (if lineStarts then prefix else []) + [s[0]] + Prefixed(s[1..], prefix, s[0] == NEW_LINE)
  }

  predicate EndsLine(s: seq<byte>, lineStarts: bool) {
    if s == [] then lineStarts else s[|s| - 1] == NEW_LINE
  }

  lemma {:induction false} PrefixedConcat(a: seq<byte>, b: seq<byte>, prefix: seq<byte>, lineStarts: bool)
    ensures Prefixed(a + b, prefix, lineStarts) ==
            Prefixed(a, prefix, lineStarts) + Prefixed(b, prefix, EndsLine(a, lineStarts))
    ensures EndsLine(a + b, lineStarts) == EndsLine(b, EndsLine(a, lineStarts))
  {
    if a == [] {
      assert a + b == b;
    } else {
      assert (a + b)[1..] == a[1..] + b;
      PrefixedConcat(a[1..], b, prefix, a[0] == NEW_LINE);
    }
  }

  lemma {:induction false} PrefixedInLine(s: seq<byte>, prefix: seq<byte>)
    requires NEW_LINE !in s
    ensures Prefixed(s, prefix, false) == s
  {
    if s != [] {
      PrefixedInLine(s[1..], prefix);
    }
  }

  /** How many new lines of a chunk are followed by the prefix at once: not one that ends the chunk. */
  function ReplaceCount(b: seq<byte>): int
    requires b != []
  {
    Count(b, [NEW_LINE]) - (if b[|b| - 1] == NEW_LINE then 1 else 0)
  }

  lemma NewLineFound(b: seq<byte>)
    requires NEW_LINE in b
    ensures Index(b, [NEW_LINE]) >= 0 && Count(b, [NEW_LINE]) > 0
  {
    var j :| 0 <= j < |b| && b[j] == NEW_LINE;
    assert At(b, [NEW_LINE], j);
  }

  /** A chunk with a new line: the line up to it, and what follows. */
  lemma CutLine(b: seq<byte>) returns (x: seq<byte>, y: seq<byte>)
    requires NEW_LINE in b
    ensures b == x + [NEW_LINE] + y && NEW_LINE !in x
    ensures Index(b, [NEW_LINE]) == |x| && b[|x| + 1..] == y && b[..|x|] == x
  {
    NewLineFound(b);
    var i := Index(b, [NEW_LINE]);
    AtIndex(b, [NEW_LINE], i, 0);
    x, y := b[..i], b[i + 1..];
    forall j | 0 <= j < |x| ensures x[j] != NEW_LINE {
      assert b[j] == NEW_LINE ==> At(b, [NEW_LINE], j);
    }
  }

  lemma PrefixedLine(x: seq<byte>, y: seq<byte>, prefix: seq<byte>)
    requires NEW_LINE !in x
    ensures Prefixed(x + [NEW_LINE] + y, prefix, false) ==
            x + [NEW_LINE] + (if y == [] then [] else prefix + Prefixed(y, prefix, false))
  {
    PrefixedInLine(x, prefix);
    PrefixedConcat(x + [NEW_LINE], y, prefix, false);
    PrefixedConcat(x, [NEW_LINE], prefix, false);
    assert Prefixed([NEW_LINE], prefix, false) == [NEW_LINE];
    assert y != [] ==> Prefixed(y, prefix, true) == prefix + Prefixed(y, prefix, false);
  }

  lemma CountMore(b: seq<byte>, x: seq<byte>, y: seq<byte>)
    requires b == x + [NEW_LINE] + y && Index(b, [NEW_LINE]) == |x|
    ensures ReplaceCount(b) == if y == [] then 0 else ReplaceCount(y) + 1
  {
    CutBack(b, x, y);
    assert y == [] ==> Count(y, [NEW_LINE]) == 0;
  }

  lemma ReplacedMore(b: seq<byte>, x: seq<byte>, y: seq<byte>, r: seq<byte>, n: nat)
    requires b == x + [NEW_LINE] + y && Index(b, [NEW_LINE]) == |x|
    ensures Replace(b, [NEW_LINE], r, n + 1) == x + r + Replace(y, [NEW_LINE], r, n)
  {
  }

  lemma CutBack(b: seq<byte>, x: seq<byte>, y: seq<byte>)
    requires b == x + [NEW_LINE] + y
    ensures b[..|x|] == x && b[|x| + 1..] == y && b[|b| - 1] == (if y == [] then NEW_LINE else y[|y| - 1])
  {
  }

  lemma NoNewLine(b: seq<byte>, prefix: seq<byte>)
    requires b != [] && NEW_LINE !in b
    ensures ReplaceCount(b) == 0
    ensures Replace(b, [NEW_LINE], [NEW_LINE] + prefix, 0) == Prefixed(b, prefix, false)
  {
    AtIndex(b, [NEW_LINE], Index(b, [NEW_LINE]), 0);
    PrefixedInLine(b, prefix);
  }

  /** Replacing that many new lines puts the prefix exactly where a line starts inside the chunk. */
  lemma {:induction false} ReplacedIsPrefixed(b: seq<byte>, prefix: seq<byte>)
    requires b != []
    ensures ReplaceCount(b) >= 0
    ensures Replace(b, [NEW_LINE], [NEW_LINE] + prefix, ReplaceCount(b)) == Prefixed(b, prefix, false)
    decreases |b|
  {
    if NEW_LINE !in b {
      NoNewLine(b, prefix);
    } else {
      var x, y := CutLine(b);
      CountMore(b, x, y);
      PrefixedLine(x, y, prefix);
      if y == [] {
        assert x + [NEW_LINE] + [] == b;
        ReplacedNone(b, [NEW_LINE] + prefix);
      } else {
        ReplacedIsPrefixed(y, prefix);
        ReplacedMore(b, x, y, [NEW_LINE] + prefix, ReplaceCount(y));
        Regrouped(x, [NEW_LINE], prefix, Prefixed(y, prefix, false));
      }
    }
  }

  lemma ReplacedNone(b: seq<byte>, r: seq<byte>)
    ensures Replace(b, [NEW_LINE], r, 0) == b
  {
  }

  lemma Regrouped(a: seq<byte>, b: seq<byte>, c: seq<byte>, d: seq<byte>)
    ensures a + (b + c) + d == a + b + (c + d)
  {
  }

  /** The writer: its sink and whether the next byte starts a line. */
  class LineWriter {
    var sink: seq<byte>
    var shouldPrefix: bool

    constructor ()
      ensures sink == [] && shouldPrefix
    {
      sink, shouldPrefix := [], true;
    }

    /** Writes a chunk, of which the sink takes at most `room` bytes; `prefix` is what the prefix function
        returns during this call. */
    method Write(b: seq<byte>, prefix: seq<byte>, room: nat) returns (n: nat, ok: bool)
      requires b != []
      modifies this
      ensures
        var text := Prefixed(b, prefix, old(shouldPrefix));
        && ok == (|text| <= room) && n == (if ok then |b| else 0)
        && sink == old(sink) + (if ok then text else text[..room])
      ensures shouldPrefix == EndsLine(b, old(shouldPrefix))
    {
      var lastChar := b[|b| - 1];
      var replaceCount: int := Count(b, [NEW_LINE]);
      if lastChar == NEW_LINE {
        replaceCount := replaceCount - 1;
      }
      ReplacedIsPrefixed(b, prefix);
      var text := Replace(b, [NEW_LINE], [NEW_LINE] + prefix, replaceCount);
      if shouldPrefix {
        text := prefix + text;
      }
      assert text == Prefixed(b, prefix, shouldPrefix);
      shouldPrefix := lastChar == NEW_LINE;
      if |text| > room {
        sink := sink + text[..room];
        return 0, false;
      }
      sink := sink + text;
      return |b|, true;
    }
  }

  /** What writes of the chunks, in order, add to a sink that takes everything. */
  function Written(chunks: seq<seq<byte>>, prefix: seq<byte>, lineStarts: bool): seq<byte> {
    if chunks == [] then []
    else Prefixed(chunks[0], prefix, lineStarts) + Written(chunks[1..], prefix, EndsLine(chunks[0], lineStarts))
  }

  /** However a stream is cut into writes, the sink gets the stream with the prefix before every line. */
  lemma {:induction false} AnySplitIsPrefixed(chunks: seq<seq<byte>>, prefix: seq<byte>, lineStarts: bool)
    ensures Written(chunks, prefix, lineStarts) == Prefixed(Concat(chunks), prefix, lineStarts)
  {
    if chunks != [] {
      AnySplitIsPrefixed(chunks[1..], prefix, EndsLine(chunks[0], lineStarts));
      PrefixedConcat(chunks[0], Concat(chunks[1..]), prefix, lineStarts);
    }
  }

  /** The lines with the prefix, but nothing for the empty rest after a final new line. */
  function PrefixedLines(lines: seq<seq<byte>>, prefix: seq<byte>): seq<seq<byte>> {
    if lines == [] then []
    else (if lines == [[]] then [[]] else [prefix + lines[0]]) + PrefixedLines(lines[1..], prefix)
  }

  function InLine(lines: seq<seq<byte>>, prefix: seq<byte>): seq<seq<byte>> {
    if lines == [] then [] else [lines[0]] + PrefixedLines(lines[1..], prefix)
  }

  lemma NewLineStep(rest: seq<seq<byte>>, prefix: seq<byte>)
    requires rest != []
    ensures Join(InLine([[]] + rest, prefix), [NEW_LINE]) == [NEW_LINE] + Join(PrefixedLines(rest, prefix), [NEW_LINE])
  {
  }

  lemma ByteStep(b: byte, rest: seq<seq<byte>>, prefix: seq<byte>)
    requires rest != []
    ensures Join(InLine([[b] + rest[0]] + rest[1..], prefix), [NEW_LINE]) ==
            [b] + Join(InLine(rest, prefix), [NEW_LINE])
  {
  }

  lemma FirstLine(lines: seq<seq<byte>>, prefix: seq<byte>)
    requires lines != [] && lines != [[]]
    ensures Join(PrefixedLines(lines, prefix), [NEW_LINE]) == prefix + Join(InLine(lines, prefix), [NEW_LINE])
  {
  }

  lemma EmptyLine(prefix: seq<byte>)
    ensures PrefixedLines([[]], prefix) == [[]] && InLine([[]], prefix) == [[]]
  {
  }

  lemma SplitNotEmpty(s: seq<byte>)
    requires s != []
    ensures Split(s, NEW_LINE) != [[]]
  {
  }

  lemma {:induction false} InLineByLine(s: seq<byte>, prefix: seq<byte>)
    ensures Prefixed(s, prefix, false) == Join(InLine(Split(s, NEW_LINE), prefix), [NEW_LINE])
    decreases |s|, 0
  {
    if s == [] {
      EmptyLine(prefix);
    } else {
      var rest := Split(s[1..], NEW_LINE);
      if s[0] == NEW_LINE {
        PrefixedByLine(s[1..], prefix);
        NewLineStep(rest, prefix);
      } else {
        InLineByLine(s[1..], prefix);
        ByteStep(s[0], rest, prefix);
      }
    }
  }

  /** Line by line: the stream is cut at its new lines, every line gets the prefix, and the lines are joined. */
  lemma {:induction false} PrefixedByLine(s: seq<byte>, prefix: seq<byte>)
    ensures Prefixed(s, prefix, true) == Join(PrefixedLines(Split(s, NEW_LINE), prefix), [NEW_LINE])
    decreases |s|, 1
  {
    if s == [] {
      EmptyLine(prefix);
    } else {
      InLineByLine(s, prefix);
      SplitNotEmpty(s);
      FirstLine(Split(s, NEW_LINE), prefix);
      StartsPrefixed(s, prefix);
    }
  }

  lemma StartsPrefixed(s: seq<byte>, prefix: seq<byte>)
    requires s != []
    ensures Prefixed(s, prefix, true) == prefix + Prefixed(s, prefix, false)
  {
  }

  // ----- A buffer that keeps the first bytes -----

  /** The first `cap` bytes of a stream; all of it when the capacity is not positive. */
  function Kept(s: seq<byte>, cap: int): seq<byte> {
    if 0 < cap < |s| then s[..cap] else s
  }

  class TruncatedBuffer {
    const cap: int
    var buf: seq<byte>

    constructor (cap: int)
      ensures this.cap == cap && buf == []
    {
      this.cap := cap;
      buf := [];
    }

    method Write(p: seq<byte>) returns (n: nat)
      modifies this
      ensures n == |p| && buf == Kept(old(buf) + p, cap)
    {
      buf := buf + p;
      var surplus := |buf| - cap;
      if cap > 0 && surplus > 0 {
        buf := buf[..cap];
      }
      n := |p|;
    }
  }

  /** A positive capacity keeps the longest start of the stream that fits; another keeps the whole stream. */
  lemma KeptMeans(s: seq<byte>, cap: int)
    ensures Kept(s, cap) <= s
    ensures |Kept(s, cap)| == if cap <= 0 || |s| <= cap then |s| else cap
  {
  }

  /** The buffer after writes of the chunks, in order. */
  function BufferAfter(buf: seq<byte>, chunks: seq<seq<byte>>, cap: int): seq<byte>
    decreases chunks
  {
    if chunks == [] then buf else BufferAfter(Kept(buf + chunks[0], cap), chunks[1..], cap)
  }

  lemma KeptTwice(a: seq<byte>, b: seq<byte>, cap: int)
    ensures Kept(Kept(a, cap) + b, cap) == Kept(a + b, cap)
  {
  }

  /** However a stream is cut into writes, the buffer holds its first bytes. */
  lemma {:induction false} AnySplitIsKept(stream: seq<byte>, chunks: seq<seq<byte>>, cap: int)
    ensures BufferAfter(Kept(stream, cap), chunks, cap) == Kept(stream + Concat(chunks), cap)
    decreases chunks
  {
    if chunks == [] {
      assert stream + Concat(chunks) == stream;
    } else {
      KeptTwice(stream, chunks[0], cap);
      AnySplitIsKept(stream + chunks[0], chunks[1..], cap);
      assert stream + chunks[0] + Concat(chunks[1..]) == stream + Concat(chunks);
    }
  }
}
