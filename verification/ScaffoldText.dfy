/** The edits on the text do what the edits on the lines say. */
module ScaffoldText {
  import opened Text
  import opened Decimal
  import opened Markers
  import opened Scaffold

  lemma {:induction false} PlainsContent(texts: seq<string>)
    requires texts != []
    ensures Content(Plains(texts)) == Join(texts, "\n")
  {
    if |texts| > 1 {
      PlainsContent(texts[1..]);
      assert Plains(texts)[1..] == Plains(texts[1..]);
    }
  }

  lemma {:induction false} SplitChars<T>(s: seq<T>, sep: T, c: T)
    requires c !in s
    ensures forall i :: 0 <= i < |Split(s, sep)| ==> c !in Split(s, sep)[i]
  {
    if s != [] {
      SplitChars(s[1..], sep, c);
    }
  }

  /** The lines of a text without '#' fit and read as the text. */
  lemma PlainLines(text: string)
    requires '#' !in text
    ensures FitsAll(Plains(Split(text, '\n'))) && Content(Plains(Split(text, '\n'))) == text
    ensures forall i :: 0 <= i < |Split(text, '\n')| ==> '#' !in Split(text, '\n')[i]
  {
    var parts := Split(text, '\n');
    PlainsContent(parts);
    SplitParts(text, '\n');
    SplitChars(text, '\n', '#');
    PrefixFacts();
    forall i | 0 <= i < |parts| ensures Fits(Plains(parts)[i]) {
      CountMissing(parts[i], PREFIX, '#');
    }
  }

  lemma PlainFits(text: string)
    requires '#' !in text && '\n' !in text
    ensures Fits(Plain(text))
  {
    PrefixFacts();
    CountMissing(text, PREFIX, '#');
  }

  lemma FirstFits(doc: seq<Line>, name: string)
    requires FitsAll(doc) && Matching(doc, name) > 0
    ensures
      var l := doc[First(doc, name)];
      Fits(l) && Matches(l, name) && l.tail == name + l.tail[|name|..]
  {
  }

  lemma AtFirstFits(doc: seq<Line>, name: string, lines: seq<Line>)
    requires FitsAll(doc) && FitsAll(lines) && Matching(doc, name) > 0
    ensures FitsAll(AtFirst(doc, name, lines))
  {
  }

  lemma FoundNotMissed(doc: seq<Line>, name: string)
    requires FitsAll(doc) && '\n' !in name && Matching(doc, name) > 0
    ensures IfAbsent(Content(doc), Marker(name)) == {}
  {
    CountInContent(doc, name);
  }

  // ----- Insert -----

  lemma InsertLinesContent(before: string, text: string, tail: string, name: string)
    requires '#' !in before && '#' !in text && '#' !in tail && '\n' !in tail && name <= tail
    ensures
      var lines := Plains(Split(before + text, '\n')) + [Marked("", tail)];
      && FitsAll(lines)
      && Content(lines) == before + (text + "\n" + Marker(name)) + tail[|name|..]
  {
    var plains, last := Plains(Split(before + text, '\n')), [Marked("", tail)];
    PlainLines(before + text);
    ContentConcat(plains, last);
    assert Fits(last[0]);
    assert Content(last) == "" + PREFIX + tail;
    InsertRegroup(before, text, PREFIX, name, tail[|name|..]);
    assert tail == name + tail[|name|..];
  }

  lemma InsertRegroup(b: string, t: string, p: string, n: string, rest: string)
    ensures b + t + "\n" + ("" + p + (n + rest)) == b + (t + "\n" + (p + n)) + rest
  {
  }

  lemma InsertRefines(doc: seq<Line>, name: string, text: string)
    requires FitsAll(doc) && Matching(doc, name) > 0 && '\n' !in name && '#' !in text
    ensures FitsAll(EditedInsert(doc, name, text))
    ensures ApplyInsert(Content(doc), name, text) == Content(EditedInsert(doc, name, text))
  {
    FirstFits(doc, name);
    var l := doc[First(doc, name)];
    InsertLinesContent(l.before, text, l.tail, name);
    AtFirstFits(doc, name, InsertLines(l, text));
    ReplaceInContent(doc, name, text + "\n" + Marker(name), InsertLines(l, text));
  }

  // ----- Once -----

  lemma PlainFirst(doc: seq<Line>, text: string)
    requires text != "" && doc != []
    ensures PresentPlain(doc, text) <==> (doc[0].Plain? && Count(doc[0].text, text) > 0) || PresentPlain(doc[1..], text)
  {
    var rest := doc[1..];
    if PresentPlain(rest, text) {
      var i :| 0 <= i < |rest| && rest[i].Plain? && Count(rest[i].text, text) > 0;
      assert doc[i + 1] == rest[i];
    }
    if PresentPlain(doc, text) {
      var i :| 0 <= i < |doc| && doc[i].Plain? && Count(doc[i].text, text) > 0;
      assert i > 0 ==> rest[i - 1] == doc[i];
    }
  }

  lemma MarkedFirst(doc: seq<Line>, text: string)
    requires text != "" && doc != []
    ensures NotInMarked(doc, text) <==>
            (doc[0].Marked? ==> Count(Display(doc[0]), text) == 0) && NotInMarked(doc[1..], text)
  {
    var rest := doc[1..];
    if !NotInMarked(rest, text) {
      var i :| 0 <= i < |rest| && rest[i].Marked? && Count(Display(rest[i]), text) != 0;
      assert doc[i + 1] == rest[i];
    }
    if !NotInMarked(doc, text) {
      var i :| 0 <= i < |doc| && doc[i].Marked? && Count(Display(doc[i]), text) != 0;
      assert i > 0 ==> rest[i - 1] == doc[i];
    }
  }

  lemma {:induction false} PresentCount(doc: seq<Line>, text: string)
    requires text != "" && '\n' !in text
    ensures Count(Content(doc), text) > 0 <==> PresentPlain(doc, text) || !NotInMarked(doc, text)
  {
    if doc != [] {
      PresentCount(doc[1..], text);
      PlainFirst(doc, text);
      MarkedFirst(doc, text);
      if |doc| > 1 {
        CountLines(Display(doc[0]), Content(doc[1..]), text);
      }
    }
  }

  lemma OnceRefines(doc: seq<Line>, name: string, text: string)
    requires FitsAll(doc) && '\n' !in name && text != "" && '#' !in text && '\n' !in text
    requires PresentPlain(doc, text) || (Matching(doc, name) > 0 && NotInMarked(doc, text))
    ensures FitsAll(EditedOnce(doc, name, text)) && PresentPlain(EditedOnce(doc, name, text), text)
    ensures ApplyOnce(Content(doc), name, text) == Content(EditedOnce(doc, name, text))
    ensures Count(Content(doc), text) > 0 || Matching(doc, name) > 0
  {
    PresentCount(doc, text);
    if !PresentPlain(doc, text) {
      FirstFits(doc, name);
      var l := doc[First(doc, name)];
      var lines := OnceLines(l, name, text);
      PlainFits(lines[0].text);
      AtFirstFits(doc, name, lines);
      ReplaceInContent(doc, name, text, lines);
      assert At(text, text, 0);
      CountPart(l.before, text, l.tail[|name|..], text);
      assert EditedOnce(doc, name, text)[First(doc, name)] == lines[0];
    }
  }

  // ----- Field -----

  lemma FieldEntryChars(entry: string, n: nat)
    requires '#' !in entry && '\n' !in entry
    ensures '#' !in FieldEntry(entry, n) && '\n' !in FieldEntry(entry, n)
    ensures '"' !in entry ==> '"' !in FieldEntry(entry, n)
  {
  }

  lemma FieldRegroup(b: string, p: string, f: string, entry: string, n: string, rest: string)
    ensures b + p + f + "\n" + (entry + p + (n + rest)) == b + (p + f + "\n" + entry + (p + n)) + rest
  {
  }

  lemma NumberedContent(l: Line, name: string, number: string, numbered: string)
    requires Fits(l) && Matches(l, name) && '#' !in numbered && '\n' !in numbered
    requires '#' !in number && '\n' !in number
    ensures FitsAll(NumberedLines(l, name, number, numbered))
    ensures Content(NumberedLines(l, name, number, numbered)) ==
            l.before + NumberedBlock(name, numbered, number) + l.tail[|name|..]
  {
    var lines, rest := NumberedLines(l, name, number, numbered), l.tail[|name|..];
    assert lines[1..] == [lines[1]];
    FieldRegroup(l.before, PREFIX, name, numbered, number, rest);
  }

  lemma NumberedReplaces(doc: seq<Line>, name: string, number: string, numbered: string)
    requires FitsAll(doc) && Matching(doc, name) > 0 && '#' !in numbered && '\n' !in numbered
    requires '\n' !in name && '#' !in number && '\n' !in number
    ensures
      var now := AtFirst(doc, name, NumberedLines(doc[First(doc, name)], name, number, numbered));
      FitsAll(now) && ReplaceFirst(Content(doc), Marker(name), NumberedBlock(name, numbered, number)) == Content(now)
  {
    FirstFits(doc, name);
    var l := doc[First(doc, name)];
    NumberedContent(l, name, number, numbered);
    AtFirstFits(doc, name, NumberedLines(l, name, number, numbered));
    ReplaceInContent(doc, name, NumberedBlock(name, numbered, number), NumberedLines(l, name, number, numbered));
  }

  lemma NumberedSides(doc: seq<Line>, content: string, name: string, number: string, entry: string, n: nat)
    requires Matching(doc, name) > 0 && Count(content, Marker(number)) == n == Matching(doc, number)
    ensures ApplyNumbered(content, name, number, entry) ==
            ReplaceFirst(content, Marker(name), NumberedBlock(name, FieldEntry(entry, n + 2), number))
    ensures EditedNumbered(doc, name, number, entry) ==
            AtFirst(doc, name, NumberedLines(doc[First(doc, name)], name, number, FieldEntry(entry, n + 2)))
  {
  }

  lemma NumberedRefines(doc: seq<Line>, name: string, number: string, entry: string)
    requires FitsAll(doc) && Matching(doc, name) > 0 && '#' !in entry && '\n' !in entry
    requires '\n' !in name && '#' !in number && '\n' !in number
    ensures FitsAll(EditedNumbered(doc, name, number, entry))
    ensures ApplyNumbered(Content(doc), name, number, entry) == Content(EditedNumbered(doc, name, number, entry))
  {
    var n := Matching(doc, number);
    FieldEntryChars(entry, n + 2);
    CountInContent(doc, number);
    NumberedReplaces(doc, name, number, FieldEntry(entry, n + 2));
    NumberedSides(doc, Content(doc), name, number, entry, n);
  }

  // ----- Import -----

  lemma {:induction false} NegativeCounts<T>(s: seq<T>, m: seq<T>, r: seq<T>, n: int, k: int)
    requires m != [] && n < 0 && k < 0
    ensures Replace(s, m, r, n) == Replace(s, m, r, k)
    decreases |s|
  {
    var i := Index(s, m);
    if i >= 0 {
      NegativeCounts(s[i + |m|..], m, r, n - 1, k - 1);
    }
  }

  lemma ReplaceAllFound<T>(u: seq<T>, m: seq<T>, v: seq<T>, r: seq<T>)
    requires m != [] && NoneBefore(u, m)
    ensures ReplaceAll(u + m + v, m, r) == u + r + ReplaceAll(v, m, r)
  {
    FirstOccurrence(u, m, v, r);
    var s := u + m + v;
    assert s[..|u|] == u && s[|u| + |m|..] == v;
    NegativeCounts(v, m, r, -2, -1);
  }

  /** Text in which no occurrence starts is kept. */
  lemma ReplaceAllSkips<T>(x: seq<T>, y: seq<T>, m: seq<T>, r: seq<T>)
    requires m != [] && forall j :: 0 <= j < |x| ==> !At(x + y, m, j)
    ensures ReplaceAll(x + y, m, r) == x + ReplaceAll(y, m, r)
  {
    if Index(y, m) >= 0 {
      var u, v := FoundSplit(y, m);
      assert x + y == (x + u) + m + v;
      forall j | 0 <= j < |x + u| ensures !At(x + u + m, m, j) {
        AtInPrefix(x + u + m, v, m, j);
        if j >= |x| {
          assert x + u + m == x + (u + m);
          AtInSuffix(x, u + m, m, j - |x|);
        }
      }
      ReplaceAllFound(u, m, v, r);
      ReplaceAllFound(x + u, m, v, r);
      SkipRegroup(x, u, r, ReplaceAll(v, m, r));
    } else {
      var i := Index(x + y, m);
      if i >= |x| {
        AtInSuffix(x, y, m, i - |x|);
      }
    }
  }

  lemma SkipRegroup<T>(x: seq<T>, u: seq<T>, r: seq<T>, v: seq<T>)
    ensures x + u + r + v == x + (u + r + v)
  {
  }

  lemma ReplaceAllHead<T>(y: seq<T>, m: seq<T>)
    requires m != []
    ensures ReplaceAll(m + y, m, []) == ReplaceAll(y, m, [])
  {
    ReplaceAllFound([], m, y, []);
    assert [] + m + y == m + y && [] + [] + ReplaceAll(y, m, []) == ReplaceAll(y, m, []);
  }

  /** A pattern that starts with a newline does not start inside a line. */
  lemma InsideLine(a: string, rest: string, q: string, j: int)
    requires '\n' !in a && 0 <= j < |a|
    ensures !At(a + rest, "\n" + q, j)
  {
    AtIndex(a + rest, "\n" + q, j, 0);
  }

  lemma LineStart(a: string, rest: string, q: string)
    requires '\n' !in q && (rest == "" || rest[0] == '\n')
    ensures At("\n" + a + rest, "\n" + q, 0) <==> q <= a
  {
    var s, m := "\n" + a + rest, "\n" + q;
    if |q| <= |a| {
      assert s[0..|m|] == "\n" + a[..|q|];
      assert s[0..|m|][1..] == a[..|q|] && m[1..] == q;
    } else {
      AtIndex(s, m, 0, |a| + 1);
      assert m[|a| + 1] == q[|a|];
      assert rest != "" ==> s[|a| + 1] == rest[0];
    }
  }

  lemma DropOne(rest: string, q: string, dropped: string)
    requires q != "" && ReplaceAll("" + rest, "\n" + q, "") == "" + dropped
    ensures ReplaceAll("\n" + q + rest, "\n" + q, "") == dropped
  {
    assert "" + rest == rest && "" + dropped == dropped;
    ReplaceAllHead(rest, "\n" + q);
  }

  lemma KeepOne(a: string, rest: string, q: string, kept: string)
    requires '\n' !in q && !(q <= a) && '\n' !in a && (rest == "" || rest[0] == '\n')
    requires ReplaceAll(a + rest, "\n" + q, "") == kept
    ensures ReplaceAll("\n" + a + rest, "\n" + q, "") == "\n" + kept
  {
    LineStart(a, rest, q);
    Associative("\n", a, rest);
    ReplaceAllSkips("\n", a + rest, "\n" + q, "");
  }

  /** Removing a whole line that stands alone, below the first line, drops the lines that read like it. */
  lemma {:induction false} DropLines(a: string, doc: seq<Line>, q: string)
    requires '\n' !in a && '\n' !in q && q != "" && FitsAll(doc)
    requires forall i :: 0 <= i < |doc| ==> (q <= Display(doc[i]) <==> doc[i] == Plain(q))
    ensures ReplaceAll(a + Foot(doc), "\n" + q, "") == a + Foot(Dropped(doc, q))
    decreases |doc|
  {
    forall j | 0 <= j < |a| ensures !At(a + Foot(doc), "\n" + q, j) {
      InsideLine(a, Foot(doc), q, j);
    }
    ReplaceAllSkips(a, Foot(doc), "\n" + q, "");
    if doc != [] {
      var l, rest := doc[0], doc[1..];
      LineHasNoNewline(l);
      FootSplit(l, rest);
      assert doc == [l] + rest;
      if l == Plain(q) {
        DropLines("", rest, q);
        DropOne(Foot(rest), q, Foot(Dropped(rest, q)));
        assert Dropped(doc, q) == Dropped(rest, q);
      } else {
        DropLines(Display(l), rest, q);
        KeepOne(Display(l), Foot(rest), q, Display(l) + Foot(Dropped(rest, q)));
        assert Dropped(doc, q) == [l] + Dropped(rest, q);
        FootSplit(l, Dropped(rest, q));
        Associative("\n", Display(l), Foot(Dropped(rest, q)));
      }
    }
  }

  lemma FootSplit(l: Line, rest: seq<Line>)
    ensures Foot([l] + rest) == "\n" + Display(l) + Foot(rest)
  {
    ContentAbove([l], rest);
    Associative("\n", Display(l), Foot(rest));
  }

  lemma LineHasNoNewline(l: Line)
    requires Fits(l)
    ensures '\n' !in Display(l)
  {
    PrefixFacts();
  }

  lemma ImportLineChars(path: string)
    requires '#' !in path && '\n' !in path && '"' !in path
    ensures '#' !in ImportLine(path) && '\n' !in ImportLine(path) && |ImportLine(path)| > 8
    ensures ImportLine(path)[7] == '"' && ImportLine(path)[0] == 'i'
  {
  }

  /** A line that stands alone starts with the import exactly when it is the import. */
  lemma AloneMeans(l: Line, path: string)
    requires Fits(l) && StandsAlone(l, ImportLine(path)) && '#' !in path && '\n' !in path && '"' !in path
    ensures ImportLine(path) <= Display(l) <==> l == Plain(ImportLine(path))
  {
    var q := ImportLine(path);
    ImportLineChars(path);
    PrefixFacts();
    if l.Marked? {
      NoQuoteAhead(l.before, PREFIX, l.tail, q);
    }
  }

  lemma NoQuoteAhead(before: string, p: string, tail: string, q: string)
    requires '"' !in before && '"' !in p && |p| > 8 && |q| > 8 && q[7] == '"'
    ensures !(q <= before + p + tail)
  {
  }

  lemma WithoutContent(doc: seq<Line>, path: string)
    requires doc != [] && FitsAll(doc) && StandAlone(doc, ImportLine(path))
    requires '#' !in path && '\n' !in path && '"' !in path
    ensures ReplaceAll(Content(doc), "\n" + ImportLine(path), "") == Content(Without(doc, ImportLine(path)))
    ensures FitsAll(Without(doc, ImportLine(path)))
  {
    var q, l, rest := ImportLine(path), doc[0], doc[1..];
    ImportLineChars(path);
    LineHasNoNewline(l);
    forall i | 0 <= i < |rest| ensures q <= Display(rest[i]) <==> rest[i] == Plain(q) {
      assert rest[i] == doc[i + 1];
      AloneMeans(rest[i], path);
    }
    DropLines(Display(l), rest, q);
    ContentAbove([l], rest);
    ContentAbove([l], Dropped(rest, q));
    assert doc == [l] + rest;
    WithoutMatching(doc, q, "");
    forall i | 0 <= i < |Without(doc, q)| ensures Fits(Without(doc, q)[i]) {
      assert Without(doc, q)[i] in doc;
    }
  }

  lemma ImportRegroup(b: string, p: string, n: string, line: string)
    ensures b + p + n + "\n" + line == b + (p + n + "\n" + line) + ""
  {
  }

  lemma ImportRefines(doc: seq<Line>, name: string, path: string)
    requires FitsAll(doc) && TextFits(Import(name, path))
    requires Matching(doc, name) > 0 && Bare(doc, name) && StandAlone(doc, ImportLine(path))
    ensures FitsAll(EditedImport(doc, name, ImportLine(path)))
    ensures ApplyImport(Content(doc), name, ImportLine(path)) == Content(EditedImport(doc, name, ImportLine(path)))
    ensures Count(ReplaceAll(Content(doc), "\n" + ImportLine(path), ""), Marker(name)) > 0
  {
    var q := ImportLine(path);
    ImportLineChars(path);
    WithoutContent(doc, path);
    WithoutMatching(doc, q, name);
    var rest := Without(doc, q);
    FirstFits(rest, name);
    var l := rest[First(rest, name)];
    assert l in doc && l.tail == name;
    var lines := ImportLines(l, name, q);
    PlainFits(q);
    assert Fits(lines[0]) && Fits(lines[1]) && lines[1..] == [lines[1]];
    ImportRegroup(l.before, PREFIX, name, q);
    AtFirstFits(rest, name, lines);
    ReplaceInContent(rest, name, Marker(name) + "\n" + q, lines);
    CountInContent(rest, name);
  }

  /** What an edit does to the text of a file is what it does to its lines; no marker is reported missing. */
  lemma EditRefines(doc: seq<Line>, e: Edit)
    requires FitsAll(doc) && Supports(doc, e) && TextFits(e)
    ensures FitsAll(Edited(doc, e))
    ensures Apply(Content(doc), e) == Content(Edited(doc, e))
    ensures Misses(Content(doc), e) == {}
  {
    match e
    case Insert(name, text) =>
      InsertRefines(doc, name, text);
      FoundNotMissed(doc, name);
    case Once(name, text) =>
      OnceRefines(doc, name, text);
      if Matching(doc, name) > 0 {
        FoundNotMissed(doc, name);
      }
    case Import(name, path) =>
      ImportRefines(doc, name, path);
    case Field(name, number, entry) =>
      NumberedRefines(doc, name, number, entry);
      FoundNotMissed(doc, name);
  }

  // ----- What an edit writes -----

  /** An insertion comes above the first occurrence of its marker. */
  lemma InsertWrites(x: string, name: string, y: string, text: string)
    requires NoneBefore(x, Marker(name))
    ensures Apply(x + Marker(name) + y, Insert(name, text)) == x + (text + "\n" + Marker(name)) + y
  {
    FirstOccurrence(x, Marker(name), y, text + "\n" + Marker(name));
  }

  /** A one-time text comes in its place. */
  lemma OnceWrites(x: string, name: string, y: string, text: string)
    requires NoneBefore(x, Marker(name)) && text != "" && Count(x + Marker(name) + y, text) == 0
    ensures Apply(x + Marker(name) + y, Once(name, text)) == x + text + y
  {
    FirstOccurrence(x, Marker(name), y, text);
  }

  /** An import that is not there yet comes on the line below. */
  lemma ImportWrites(x: string, name: string, y: string, path: string)
    requires NoneBefore(x, Marker(name)) && Index(x + Marker(name) + y, "\n" + ImportLine(path)) < 0
    ensures Apply(x + Marker(name) + y, Import(name, path)) ==
            x + (Marker(name) + "\n" + ("import \"" + path + "\";")) + y
  {
    var line := ImportLine(path);
    assert ReplaceAll(x + Marker(name) + y, "\n" + line, "") == x + Marker(name) + y;
    FirstOccurrence(x, Marker(name), y, Marker(name) + "\n" + line);
  }

  /** A numbered entry comes on the line below, with its own marker; it is numbered two above the number of those
      markers so far. */
  lemma FieldWrites(x: string, name: string, y: string, number: string, entry: string)
    requires NoneBefore(x, Marker(name))
    ensures
      var next := Digits(Count(x + Marker(name) + y, Marker(number)) + 2);
      Apply(x + Marker(name) + y, Field(name, number, entry)) ==
      x + (Marker(name) + "\n" + (entry + next + "; ") + Marker(number)) + y
  {
    var content := x + Marker(name) + y;
    var next := Digits(Count(content, Marker(number)) + 2);
    FieldIsNumbered(content, name, number, entry);
    FirstOccurrence(x, Marker(name), y, Marker(name) + "\n" + (entry + next + "; ") + Marker(number));
  }

  lemma FieldIsNumbered(content: string, name: string, number: string, entry: string)
    ensures
      var next := Digits(Count(content, Marker(number)) + 2);
      Apply(content, Field(name, number, entry)) ==
      ReplaceFirst(content, Marker(name), Marker(name) + "\n" + (entry + next + "; ") + Marker(number))
  {
  }

  // ----- What is missing is reported -----

  /** An edit whose marker is not in the text reports it, and nothing else; one whose marker is there reports
      nothing. A one-time edit needs no marker when its text is there. */
  lemma MissesJust(content: string, e: Edit)
    requires e.Insert? || e.Field? || (e.Once? && e.text != "")
    ensures
      var missing := Count(content, Marker(e.name)) == 0 && (e.Once? ==> Count(content, e.text) == 0);
      Misses(content, e) == if missing then {Marker(e.name)} else {}
  {
  }
}
