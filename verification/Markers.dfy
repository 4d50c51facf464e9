/**
  Scaffolding markers in a file. Every marker is a comment made of one common prefix and its own name, and
  one marker's name may be a prefix of another's. A file is a sequence of lines with at most one marker
  each; the lemmas say what counting and replacing a marker in the text does to the lines.
 */
module Markers {
  import opened Text

  const OPENING := "// "
  const FIRST_WORDS := "this line is used by "
  const LAST_WORDS := "starport scaffolding "
  const SENTENCE := FIRST_WORDS + LAST_WORDS
  const PREFIX := OPENING + SENTENCE + "# "
  const HASH := 45

  /** A line without a marker, or a marker with the text before it and its name with anything after it. */
  datatype Line = Plain(text: string) | Marked(before: string, tail: string)

  function Display(l: Line): string {
    match l
    case Plain(text) => text
    case Marked(before, tail) => before + PREFIX + tail
  }

  predicate Fits(l: Line) {
    match l
    case Plain(text) => '\n' !in text && Count(text, PREFIX) == 0
    case Marked(before, tail) => '\n' !in before && '#' !in before && '\n' !in tail && '#' !in tail
  }

  predicate FitsAll(doc: seq<Line>) {
    forall i :: 0 <= i < |doc| ==> Fits(doc[i])
  }

  function Content(doc: seq<Line>): string {
    if doc == [] then "" else if |doc| == 1 then Display(doc[0]) else Display(doc[0]) + "\n" + Content(doc[1..])
  }

  predicate Matches(l: Line, name: string) {
    l.Marked? && name <= l.tail
  }

  function Matching(doc: seq<Line>, name: string): nat {
    if doc == [] then 0 else (if Matches(doc[0], name) then 1 else 0) + Matching(doc[1..], name)
  }

  /** Index of the first line with the marker; the length when there is none. */
  function First(doc: seq<Line>, name: string): (i: nat)
    ensures i <= |doc| && (i < |doc| <==> Matching(doc, name) > 0)
    ensures i < |doc| ==> Matches(doc[i], name)
    ensures forall j :: 0 <= j < i ==> !Matches(doc[j], name)
  {
    if doc == [] || Matches(doc[0], name) then 0 else 1 + First(doc[1..], name)
  }

  // ----- Patterns without a newline -----

  /** An occurrence that starts in a line ends in it. */
  lemma AtInLine(a: string, b: string, m: string, j: int)
    requires m != "" && '\n' !in m && j <= |a|
    ensures At(a + "\n" + b, m, j) <==> At(a, m, j)
  {
    var s := a + "\n" + b;
    assert s == a + ("\n" + b);
    if j <= |a| - |m| {
      AtInPrefix(a, "\n" + b, m, j);
    } else {
      AtIndex(s, m, j, |a| - j);
      assert s[|a|] == '\n';
    }
  }

  lemma NoneBeforeLines(a: string, x: string, m: string)
    requires m != "" && '\n' !in m && Count(a, m) == 0 && NoneBefore(x, m)
    ensures NoneBefore(a + "\n" + x, m)
  {
    var s := a + "\n" + x + m;
    assert s == a + "\n" + (x + m);
    forall j | 0 <= j < |a + "\n" + x| ensures !At(s, m, j) {
      if j <= |a| {
        AtInLine(a, x + m, m, j);
      } else {
        AtInSuffix(a + "\n", x + m, m, j - |a| - 1);
      }
    }
  }

  /** Nothing in the first line: the occurrences are those in the rest. */
  lemma CountBelow(a: string, b: string, m: string)
    requires m != "" && '\n' !in m && Count(a, m) == 0
    ensures Count(a + "\n" + b, m) == Count(b, m)
  {
    var s := a + "\n" + b;
    if Index(b, m) >= 0 {
      var x, y := FoundSplit(b, m);
      assert s == a + "\n" + x + m + y;
      NoneBeforeLines(a, x, m);
      FirstOccurrence(a + "\n" + x, m, y, m);
      FirstOccurrence(x, m, y, m);
    } else {
      var i := Index(s, m);
      if 0 <= i <= |a| {
        AtInLine(a, b, m, i);
      } else if i > |a| {
        AtInSuffix(a + "\n", b, m, i - |a| - 1);
      }
    }
  }

  lemma {:induction false} CountLines(a: string, b: string, m: string)
    requires m != "" && '\n' !in m
    ensures Count(a + "\n" + b, m) == Count(a, m) + Count(b, m)
    decreases |a|
  {
    if Index(a, m) < 0 {
      CountBelow(a, b, m);
    } else {
      var x, y := FoundSplit(a, m);
      assert a + "\n" + b == x + m + (y + "\n" + b);
      FirstOccurrence(x, m, y, m);
      FirstOccurrence(x, m, y + "\n" + b, m);
      CountLines(y, b, m);
    }
  }

  // ----- Where a marker occurs in a line -----

  predicate Wordy(s: string) {
    '#' !in s && '/' !in s && '\n' !in s && '"' !in s
  }

  lemma FirstWordsFacts()
    ensures |FIRST_WORDS| == 21 && Wordy(FIRST_WORDS)
  {
  }

  lemma LastWordsFacts()
    ensures |LAST_WORDS| == 21 && Wordy(LAST_WORDS)
  {
  }

  lemma WordyJoin(s: string, t: string)
    requires Wordy(s) && Wordy(t)
    ensures Wordy(s + t)
  {
  }

  lemma SentenceFacts()
    ensures |SENTENCE| == HASH - 3 && Wordy(SENTENCE)
  {
    FirstWordsFacts();
    LastWordsFacts();
    WordyJoin(FIRST_WORDS, LAST_WORDS);
  }

  lemma PrefixFacts()
    ensures |PREFIX| == HASH + 2 && '\n' !in PREFIX && '"' !in PREFIX
    ensures IsPrefix(PREFIX)
  {
    SentenceFacts();
    var sentence := SENTENCE;
    SurroundedBy(sentence, PREFIX);
  }

  lemma SurroundedBy(sentence: string, s: string)
    requires s == "// " + sentence + "# "
    requires |sentence| == HASH - 3 && Wordy(sentence)
    ensures '\n' !in s && '"' !in s && IsPrefix(s)
  {
  }

  /** A marker occurs only where its prefix occurs. */
  lemma AtMarker(s: string, p: string, name: string, i: int)
    ensures At(s, p + name, i) ==> At(s, p, i)
  {
    if At(s, p + name, i) {
      assert s[i..i + |p|] == s[i..i + |p + name|][..|p|] == (p + name)[..|p|] == p;
    }
  }

  lemma NoMarkerWithoutPrefix(s: string, p: string, name: string)
    requires p != "" && Count(s, p) == 0
    ensures Count(s, p + name) == 0
  {
    AtMarker(s, p, name, Index(s, p + name));
  }

  /** What the lemmas below need of the common prefix. */
  predicate IsPrefix(p: string) {
    && |p| == HASH + 2 && p[0] == '/' && p[1] == '/' && p[2] == ' ' && p[HASH] == '#'
    && (forall j :: 0 <= j < HASH ==> p[j] != '#') && (forall j :: 2 <= j < |p| ==> p[j] != '/')
  }

  /** No marker starts in text without a '#', whatever follows from a prefix on. */
  lemma NothingEarlier(before: string, p: string, rest: string, name: string, i: int)
    requires IsPrefix(p) && '#' !in before && 0 <= i < |before|
    ensures !At(before + (p + rest), p + name, i)
  {
    var s := before + (p + rest);
    AtIndex(s, p + name, i, HASH);
    assert (p + name)[HASH] == p[HASH];
    assert s[i + HASH] == if i + HASH < |before| then before[i + HASH] else p[i + HASH - |before|];
  }

  lemma NoneBeforeMarker(before: string, p: string, name: string)
    requires IsPrefix(p) && '#' !in before
    ensures NoneBefore(before, p + name)
  {
    forall j | 0 <= j < |before| ensures !At(before + (p + name), p + name, j) {
      NothingEarlier(before, p, name, name, j);
    }
  }

  /** Nor does one start inside the marker or after it. */
  lemma NoneAfterMarker(p: string, tail: string, i: int)
    requires IsPrefix(p) && Count(tail, p) == 0 && i > 0
    ensures !At(p + tail, p, i)
  {
    if i < |p| {
      AtIndex(p + tail, p, i, 0);
      AtIndex(p + tail, p, i, 1);
      assert (p + tail)[i] == p[i];
    } else {
      AtInSuffix(p, tail, p, i - |p|);
    }
  }

  lemma CountItsOwn(before: string, p: string, rest: string, name: string)
    requires IsPrefix(p) && '#' !in before && Count(name + rest, p) == 0
    ensures Count(before + (p + name) + rest, p + name) == 1
  {
    NoneBeforeMarker(before, p, name);
    FirstOccurrence(before, p + name, rest, "");
    CountPart(name, rest, [], p);
    assert name + rest + [] == name + rest;
    NoMarkerWithoutPrefix(rest, p, name);
  }

  lemma CountAnother(before: string, p: string, tail: string, name: string)
    requires IsPrefix(p) && '#' !in before && Count(tail, p) == 0 && !(name <= tail)
    ensures Count(before + (p + tail), p + name) == 0
  {
    var m := p + name;
    var i := Index(before + (p + tail), m);
    if 0 <= i < |before| {
      NothingEarlier(before, p, tail, name, i);
    } else if i >= |before| {
      AtInSuffix(before, p + tail, m, i - |before|);
      AtMarker(p + tail, p, name, i - |before|);
      if i > |before| {
        NoneAfterMarker(p, tail, i - |before|);
      }
      NameFollows(p, tail, name);
    }
  }

  /** A marked line holds exactly the markers whose names its own name starts with, once. */
  lemma CountInMarked(before: string, p: string, tail: string, name: string)
    requires IsPrefix(p) && '#' !in before && Count(tail, p) == 0
    ensures Count(before + p + tail, p + name) == if name <= tail then 1 else 0
  {
    if name <= tail {
      var rest := tail[|name|..];
      assert tail == name + rest && before + p + tail == before + (p + name) + rest;
      CountItsOwn(before, p, rest, name);
    } else {
      Associative(before, p, tail);
      CountAnother(before, p, tail, name);
    }
  }

  lemma NameFollows(p: string, tail: string, name: string)
    ensures At(p + tail, p + name, 0) ==> name <= tail
  {
    if At(p + tail, p + name, 0) {
      AtInSuffix(p, tail, name, 0);
      assert (p + tail)[0..|p + name|][|p|..] == (p + name)[|p|..] == name;
    }
  }

  lemma CountInLine(l: Line, name: string)
    requires Fits(l)
    ensures Count(Display(l), PREFIX + name) == if Matches(l, name) then 1 else 0
  {
    PrefixFacts();
    match l
    case Plain(text) => NoMarkerWithoutPrefix(text, PREFIX, name);
    case Marked(before, tail) =>
      CountMissing(tail, PREFIX, '#');
      CountInMarked(before, PREFIX, tail, name);
  }

  // ----- Whole files -----

  /** Counting a marker in the text counts the lines it matches. */
  lemma {:induction false} CountInContent(doc: seq<Line>, name: string)
    requires FitsAll(doc) && '\n' !in name
    ensures Count(Content(doc), PREFIX + name) == Matching(doc, name)
  {
    PrefixFacts();
    if doc != [] {
      assert Fits(doc[0]);
      CountInLine(doc[0], name);
      CountInContent(doc[1..], name);
      if |doc| > 1 {
        CountLines(Display(doc[0]), Content(doc[1..]), PREFIX + name);
      } else {
        assert doc[1..] == [];
      }
    }
  }

  lemma {:induction false} ContentConcat(a: seq<Line>, b: seq<Line>)
    requires a != [] && b != []
    ensures Content(a + b) == Content(a) + "\n" + Content(b)
  {
    if |a| == 1 {
      assert (a + b)[1..] == b;
    } else {
      assert (a + b)[1..] == a[1..] + b;
      ContentConcat(a[1..], b);
      LinesAssociative(Display(a[0]), Content(a[1..]), Content(b));
    }
  }

  lemma LinesAssociative(x: string, y: string, z: string)
    ensures x + "\n" + (y + "\n" + z) == x + "\n" + y + "\n" + z
  {
  }

  function Head(a: seq<Line>): string {
    if a == [] then "" else Content(a) + "\n"
  }

  function Foot(c: seq<Line>): string {
    if c == [] then "" else "\n" + Content(c)
  }

  lemma ContentBelow(a: seq<Line>, b: seq<Line>)
    requires b != []
    ensures Content(a + b) == Head(a) + Content(b)
  {
    if a == [] {
      assert a + b == b && Head(a) + Content(b) == Content(b);
    } else {
      ContentConcat(a, b);
    }
  }

  lemma ContentAbove(b: seq<Line>, c: seq<Line>)
    requires b != []
    ensures Content(b + c) == Content(b) + Foot(c)
  {
    if c == [] {
      assert b + c == b;
    } else {
      ContentConcat(b, c);
      Associative(Content(b), "\n", Content(c));
    }
  }

  lemma Associative(x: string, y: string, z: string)
    ensures x + y + z == x + (y + z)
  {
  }

  lemma ContentAround(a: seq<Line>, b: seq<Line>, c: seq<Line>)
    requires b != []
    ensures Content(a + b + c) == Head(a) + Content(b) + Foot(c)
  {
    ContentBelow(a, b);
    ContentAbove(a + b, c);
  }

  lemma ReplaceAround(a: seq<Line>, l: Line, c: seq<Line>, name: string, r: string, lines: seq<Line>)
    requires FitsAll(a) && Fits(l) && '\n' !in name && Matching(a, name) == 0 && Matches(l, name)
    requires lines != [] && Content(lines) == l.before + r + l.tail[|name|..]
    ensures ReplaceFirst(Content(a + [l] + c), PREFIX + name, r) == Content(a + lines + c)
  {
    PrefixFacts();
    CountInContent(a, name);
    ContentAround(a, [l], c);
    ContentAround(a, lines, c);
    NoneBeforeMarker(l.before, PREFIX, name);
    NoneBeforeBelow(a, l.before, PREFIX + name);
    ReplaceAmong(Head(a), l.before, PREFIX, l.tail, name, Foot(c), r);
  }

  /** Replacing the first occurrence in the text replaces the first matching line by `lines`, which are what
      the line becomes. */
  lemma ReplaceInContent(doc: seq<Line>, name: string, r: string, lines: seq<Line>)
    requires FitsAll(doc) && '\n' !in name && Matching(doc, name) > 0 && lines != []
    requires
      var l := doc[First(doc, name)];
      Content(lines) == l.before + r + l.tail[|name|..]
    ensures
      var i := First(doc, name);
      ReplaceFirst(Content(doc), PREFIX + name, r) == Content(doc[..i] + lines + doc[i + 1..])
  {
    var i := First(doc, name);
    NoMatchBefore(doc, name);
    SplitAt(doc, i);
    ReplaceAround(doc[..i], doc[i], doc[i + 1..], name, r, lines);
  }

  lemma SplitAt<T>(s: seq<T>, i: nat)
    requires i < |s|
    ensures s == s[..i] + [s[i]] + s[i + 1..]
  {
  }

  lemma NoneBeforeBelow(a: seq<Line>, before: string, m: string)
    requires m != "" && '\n' !in m && Count(Content(a), m) == 0 && NoneBefore(before, m)
    ensures NoneBefore(Head(a) + before, m)
  {
    if a == [] {
      assert Head(a) + before == before;
    } else {
      NoneBeforeLines(Content(a), before, m);
    }
  }

  lemma ReplaceAmong(h: string, before: string, p: string, tail: string, name: string, f: string, r: string)
    requires p != "" && name <= tail && NoneBefore(h + before, p + name)
    ensures ReplaceFirst(h + (before + p + tail) + f, p + name, r) == h + (before + r + tail[|name|..]) + f
  {
    var rest := tail[|name|..];
    assert tail == name + rest;
    Regroup(h, before, p, name, rest, f);
    FirstOccurrence(h + before, p + name, rest + f, r);
    RegroupReplaced(h, before, r, rest, f);
  }

  lemma Regroup(h: string, b: string, p: string, n: string, t: string, f: string)
    ensures h + (b + p + (n + t)) + f == h + b + (p + n) + (t + f)
  {
  }

  lemma RegroupReplaced(h: string, b: string, r: string, t: string, f: string)
    ensures h + (b + r + t) + f == h + b + r + (t + f)
  {
  }

  lemma {:induction false} NoMatchBefore(doc: seq<Line>, name: string)
    ensures Matching(doc[..First(doc, name)], name) == 0
  {
    if doc != [] && !Matches(doc[0], name) {
      NoMatchBefore(doc[1..], name);
      assert doc[..First(doc, name)][1..] == doc[1..][..First(doc[1..], name)];
    }
  }

  lemma {:induction false} MatchingConcat(a: seq<Line>, b: seq<Line>, name: string)
    ensures Matching(a + b, name) == Matching(a, name) + Matching(b, name)
  {
    if a == [] {
      assert a + b == b;
    } else {
      assert (a + b)[1..] == a[1..] + b;
      MatchingConcat(a[1..], b, name);
    }
  }

  lemma MatchingAround(a: seq<Line>, b: seq<Line>, c: seq<Line>, name: string)
    ensures Matching(a + b + c, name) == Matching(a, name) + Matching(b, name) + Matching(c, name)
  {
    MatchingConcat(a + b, c, name);
    MatchingConcat(a, b, name);
  }
}
