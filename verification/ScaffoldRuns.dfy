/** Properties of any number of scaffolds on one file: markers survive, packet fields are numbered in order,
    and imports appear once. */
module ScaffoldRuns {
  import opened Text
  import opened Markers
  import opened Scaffold
  import opened ScaffoldText

  // ----- Markers survive -----

  predicate Incomparable(a: string, b: string) {
    !(a <= b) && !(b <= a)
  }

  /** Running e leaves what e' needs. */
  predicate Compatible(e: Edit, e': Edit) {
    && (e.Once? ==> e' == e || Incomparable(e.name, NameOf(e')))
    && (e.Field? ==> e.name <= e.number && (NameOf(e') == e.name || Incomparable(e.name, NameOf(e'))))
    && (e'.Once? ==> !e.Import? && !e.Field?)
    && (e'.Import? ==> !e.Once? && (e.Insert? ==> '"' !in e.text) && (e.Field? ==> Incomparable(e.name, e'.name)))
  }

  /** The edit leaves the number of lines with this marker unchanged. */
  predicate KeepsCount(e: Edit, name: string) {
    (e.Once? ==> Incomparable(e.name, name)) && (e.Field? ==> e.name <= e.number && Incomparable(e.name, name))
  }

  lemma {:induction false} PlainsMatch(texts: seq<string>, name: string)
    ensures Matching(Plains(texts), name) == 0
  {
    if texts != [] {
      PlainsMatch(texts[1..], name);
      assert Plains(texts)[1..] == Plains(texts[1..]);
    }
  }

  lemma AtFirstMatching(doc: seq<Line>, at: string, lines: seq<Line>, name: string)
    requires Matching(doc, at) > 0
    ensures Matching(AtFirst(doc, at, lines), name) ==
      Matching(doc, name) + Matching(lines, name) - (if Matches(doc[First(doc, at)], name) then 1 else 0)
  {
    var i := First(doc, at);
    MatchingAround(doc[..i], lines, doc[i + 1..], name);
    MatchingAround(doc[..i], [doc[i]], doc[i + 1..], name);
    SplitAt(doc, i);
  }

  lemma PairMatching(a: Line, b: Line, name: string)
    ensures Matching([a, b], name) == (if Matches(a, name) then 1 else 0) + (if Matches(b, name) then 1 else 0)
  {
    MatchingConcat([a], [b], name);
    assert [a] + [b] == [a, b] && [a][1..] == [] && [b][1..] == [];
    assert Matching([a], name) == if Matches(a, name) then 1 else 0;
  }

  lemma MatchingInsert(doc: seq<Line>, at: string, text: string, name: string)
    requires Matching(doc, at) > 0
    ensures Matching(EditedInsert(doc, at, text), name) == Matching(doc, name)
  {
    var l := doc[First(doc, at)];
    var parts := Split(l.before + text, '\n');
    AtFirstMatching(doc, at, InsertLines(l, text), name);
    PlainsMatch(parts, name);
    MatchingConcat(Plains(parts), [Marked("", l.tail)], name);
    assert [Marked("", l.tail)][1..] == [];
  }

  lemma MatchingOnce(doc: seq<Line>, at: string, text: string, name: string)
    requires text != "" && (PresentPlain(doc, text) || Matching(doc, at) > 0)
    requires Incomparable(at, name)
    ensures Matching(EditedOnce(doc, at, text), name) == Matching(doc, name)
  {
    if !PresentPlain(doc, text) {
      var lines := OnceLines(doc[First(doc, at)], at, text);
      AtFirstMatching(doc, at, lines, name);
      assert lines[1..] == [];
    }
  }

  lemma MatchingImport(doc: seq<Line>, at: string, line: string, name: string)
    requires Matching(doc, at) > 0 && Bare(doc, at)
    ensures Matching(EditedImport(doc, at, line), name) == Matching(doc, name)
  {
    WithoutMatching(doc, line, at);
    WithoutMatching(doc, line, name);
    var rest := Without(doc, line);
    var l := rest[First(rest, at)];
    assert l in doc && l.tail == at;
    AtFirstMatching(rest, at, ImportLines(l, at, line), name);
    PairMatching(Marked(l.before, at), Plain(line), name);
  }

  lemma MatchingNumbered(doc: seq<Line>, at: string, number: string, entry: string, name: string)
    requires Matching(doc, at) > 0 && at <= number
    ensures Incomparable(at, name) ==> Matching(EditedNumbered(doc, at, number, entry), name) == Matching(doc, name)
    ensures name <= at ==> Matching(EditedNumbered(doc, at, number, entry), name) == Matching(doc, name) + 1
  {
    var l := doc[First(doc, at)];
    var lines := NumberedLines(l, at, number, FieldEntry(entry, Matching(doc, number) + 2));
    AtFirstMatching(doc, at, lines, name);
    PairMatching(lines[0], lines[1], name);
  }

  /** How an edit changes the number of lines with some marker. */
  lemma MatchingEdited(doc: seq<Line>, e: Edit, name: string)
    requires Supports(doc, e)
    ensures KeepsCount(e, name) ==> Matching(Edited(doc, e), name) == Matching(doc, name)
    ensures e.Field? && name <= e.name <= e.number ==> Matching(Edited(doc, e), name) == Matching(doc, name) + 1
  {
    match e
    case Insert(at, text) => MatchingInsert(doc, at, text, name);
    case Once(at, text) =>
      if Incomparable(at, name) {
        MatchingOnce(doc, at, text, name);
      }
    case Import(at, path) => MatchingImport(doc, at, ImportLine(path), name);
    case Field(at, number, entry) =>
      if at <= number {
        MatchingNumbered(doc, at, number, entry, name);
      }
  }

  lemma AtFirstHolds(doc: seq<Line>, at: string, lines: seq<Line>, l: Line)
    requires Matching(doc, at) > 0
    ensures l in doc && l != doc[First(doc, at)] ==> l in AtFirst(doc, at, lines)
    ensures l in AtFirst(doc, at, lines) ==> l in doc || l in lines
    ensures l in lines ==> l in AtFirst(doc, at, lines)
  {
  }

  lemma PlainsHold(texts: seq<string>, l: Line)
    ensures l in Plains(texts) ==> l.Plain? && l.text in texts
  {
  }

  /** A line that an edit makes out of line o. */
  predicate MadeFrom(doc: seq<Line>, e: Edit, o: Line, l: Line) {
    Matches(o, NameOf(e)) &&
    match e
    case Insert(_, text) => l == Marked("", o.tail) || (l.Plain? && l.text in Split(o.before + text, '\n'))
    case Once(name, text) => l == Plain(o.before + text + o.tail[|name|..])
    case Import(name, path) => l == Plain(ImportLine(path)) || l == Marked(o.before, name)
    case Field(name, number, entry) =>
      || l == Marked(o.before, name)
      || l == Marked(FieldEntry(entry, Matching(doc, number) + 2), number + o.tail[|name|..])
  }

  /** Every line after an edit was there before or is made from a line with the edit's marker. */
  lemma EditedLine(doc: seq<Line>, e: Edit, l: Line) returns (o: Line)
    requires Supports(doc, e) && l in Edited(doc, e)
    ensures l in doc || (o in doc && MadeFrom(doc, e, o, l))
  {
    o := l;
    match e
    case Insert(name, text) =>
      o := doc[First(doc, name)];
      AtFirstHolds(doc, name, InsertLines(o, text), l);
      PlainsHold(Split(o.before + text, '\n'), l);
    case Once(name, text) =>
      if !PresentPlain(doc, text) {
        o := doc[First(doc, name)];
        AtFirstHolds(doc, name, OnceLines(o, name, text), l);
      }
    case Import(name, path) =>
      WithoutMatching(doc, ImportLine(path), name);
      var rest := Without(doc, ImportLine(path));
      o := rest[First(rest, name)];
      assert o in doc;
      AtFirstHolds(rest, name, ImportLines(o, name, ImportLine(path)), l);
    case Field(name, number, entry) =>
      o := doc[First(doc, name)];
      var numbered := FieldEntry(entry, Matching(doc, number) + 2);
      AtFirstHolds(doc, name, NumberedLines(o, name, number, numbered), l);
  }

  lemma KeepsBare(doc: seq<Line>, e: Edit, name: string)
    requires Supports(doc, e) && Bare(doc, name) && (e.Field? ==> e.name <= e.number && Incomparable(e.name, name))
    requires e.Import? ==> Bare(doc, e.name)
    ensures Bare(Edited(doc, e), name)
  {
    var now := Edited(doc, e);
    forall i | 0 <= i < |now| && Matches(now[i], name) ensures now[i].tail == name {
      var o := EditedLine(doc, e, now[i]);
    }
  }

  lemma ImportLinesDiffer(path: string, path': string)
    requires '"' !in path && '"' !in path' && ImportLine(path) <= ImportLine(path')
    ensures path == path'
  {
    var q, q' := ImportLine(path), ImportLine(path');
    assert q == "import \"" + (path + "\";") && q' == "import \"" + (path' + "\";");
    assert q[8..] == path + "\";" && q'[8..] == path' + "\";";
    assert q'[8..][..|q[8..]|] == q[8..];
    SameUpToQuote(path, path');
  }

  lemma SameUpToQuote(x: string, y: string)
    requires '"' !in x && '"' !in y && x + "\";" <= y + "\";"
    ensures x == y
  {
    var s, t := x + "\";", y + "\";";
    assert s[|x|] == '"' && t[|x|] == s[|x|];
    assert forall k :: 0 <= k < |y| ==> t[k] == y[k];
    assert x == s[..|x|] && y == t[..|y|];
  }

  lemma KeepsAlone(doc: seq<Line>, e: Edit, path: string)
    requires Supports(doc, e) && TextFits(e) && StandAlone(doc, ImportLine(path))
    requires '"' !in path && '#' !in path && '\n' !in path
    requires !e.Once? && (e.Insert? ==> '"' !in e.text)
    ensures StandAlone(Edited(doc, e), ImportLine(path))
  {
    var now, q := Edited(doc, e), ImportLine(path);
    ImportLineChars(path);
    forall i | 0 <= i < |now| ensures StandsAlone(now[i], q) {
      var l := now[i];
      var o := EditedLine(doc, e, l);
      if l !in doc {
        assert StandsAlone(o, q);
        match e
        case Insert(name, text) =>
          SplitChars(o.before + text, '\n', '"');
          if l.Plain? {
            assert |l.text| > 7 ==> l.text[7] != q[7];
          }
        case Import(name, path') =>
          if l.Plain? && q <= l.text {
            ImportLinesDiffer(path, path');
          }
        case Field(name, number, entry) => FieldEntryChars(entry, Matching(doc, number) + 2);
      } else {
        assert StandsAlone(l, q);
      }
    }
  }

  lemma KeepsPresent(doc: seq<Line>, e: Edit, text: string)
    requires Supports(doc, e) && text != "" && PresentPlain(doc, text) && !e.Import?
    ensures PresentPlain(Edited(doc, e), text)
  {
    var i :| 0 <= i < |doc| && doc[i].Plain? && Count(doc[i].text, text) > 0;
    var l := doc[i];
    match e
    case Insert(name, t) => AtFirstHolds(doc, name, InsertLines(doc[First(doc, name)], t), l);
    case Once(name, t) =>
      if !PresentPlain(doc, t) {
        AtFirstHolds(doc, name, OnceLines(doc[First(doc, name)], name, t), l);
      }
    case Field(name, number, entry) =>
      var numbered := FieldEntry(entry, Matching(doc, number) + 2);
      AtFirstHolds(doc, name, NumberedLines(doc[First(doc, name)], name, number, numbered), l);
    assert l in Edited(doc, e);
  }

  lemma KeepsNotInMarked(doc: seq<Line>, e: Edit, text: string)
    requires Supports(doc, e) && text != "" && NotInMarked(doc, text) && (e.Insert? || e.Once?)
    ensures NotInMarked(Edited(doc, e), text)
  {
    var now := Edited(doc, e);
    forall i | 0 <= i < |now| && now[i].Marked? ensures Count(Display(now[i]), text) == 0 {
      var o := EditedLine(doc, e, now[i]);
      if now[i] !in doc {
        CountPart(o.before, PREFIX + o.tail, [], text);
        Associative(o.before, PREFIX, o.tail);
        assert o.before + (PREFIX + o.tail) + [] == Display(o) && "" + PREFIX + o.tail == PREFIX + o.tail;
      }
    }
  }

  /** A compatible edit leaves every edit's needs in place. */
  lemma EditKeeps(doc: seq<Line>, e: Edit, e': Edit)
    requires FitsAll(doc) && Supports(doc, e) && Supports(doc, e') && TextFits(e) && TextFits(e') && Compatible(e, e')
    ensures Supports(Edited(doc, e), e')
  {
    if !(e.Once? && e' == e) {
      MatchingEdited(doc, e, NameOf(e'));
    }
    match e'
    case Insert(_, _) =>
    case Field(_, _, _) =>
    case Import(name, path) =>
      KeepsBare(doc, e, name);
      KeepsAlone(doc, e, path);
    case Once(name, text) =>
      if PresentPlain(doc, text) {
        KeepsPresent(doc, e, text);
      } else if e' == e {
        OnceRefines(doc, name, text);
      } else {
        KeepsNotInMarked(doc, e, text);
      }
  }

  /** The lines of the file before each edit, and at the end. */
  predicate IsTrace(docs: seq<seq<Line>>, es: seq<Edit>) {
    |docs| == |es| + 1 && forall k :: 0 <= k < |es| ==> IsStep(docs[k], es[k], docs[k + 1])
  }

  predicate IsStep(doc: seq<Line>, e: Edit, now: seq<Line>) {
    Supports(doc, e) && now == Edited(doc, e)
  }

  predicate Runnable(doc: seq<Line>, es: seq<Edit>) {
    && FitsAll(doc)
    && (forall i :: 0 <= i < |es| ==> Supports(doc, es[i]) && TextFits(es[i]))
    && (forall i, j :: 0 <= i < |es| && 0 <= j < |es| ==> Compatible(es[i], es[j]))
  }

  lemma RunnableNext(doc: seq<Line>, es: seq<Edit>)
    requires es != [] && Runnable(doc, es)
    ensures Runnable(Edited(doc, es[0]), es[1..])
  {
    EditRefines(doc, es[0]);
    forall i | 0 <= i < |es[1..]| ensures Supports(Edited(doc, es[0]), es[1..][i]) && TextFits(es[1..][i]) {
      assert es[1..][i] == es[i + 1] && Compatible(es[0], es[i + 1]);
      EditKeeps(doc, es[0], es[i + 1]);
    }
    forall i, j | 0 <= i < |es[1..]| && 0 <= j < |es[1..]| ensures Compatible(es[1..][i], es[1..][j]) {
      assert Compatible(es[i + 1], es[j + 1]);
    }
  }

  lemma {:induction false} TraceExists(doc: seq<Line>, es: seq<Edit>) returns (docs: seq<seq<Line>>)
    requires Runnable(doc, es)
    ensures IsTrace(docs, es) && docs[0] == doc && forall k :: 0 <= k < |docs| ==> FitsAll(docs[k])
    decreases |es|
  {
    if es == [] {
      docs := [doc];
    } else {
      EditRefines(doc, es[0]);
      RunnableNext(doc, es);
      var rest := TraceExists(Edited(doc, es[0]), es[1..]);
      docs := [doc] + rest;
      TraceFrom(doc, es, rest);
    }
  }

  lemma TraceFrom(doc: seq<Line>, es: seq<Edit>, rest: seq<seq<Line>>)
    requires es != [] && IsTrace(rest, es[1..]) && IsStep(doc, es[0], rest[0])
    ensures IsTrace([doc] + rest, es)
  {
  }

  predicate TextStep(content: string, e: Edit, now: string) {
    Apply(content, e) == now && Misses(content, e) == {}
  }

  lemma {:induction false} TextFollows(texts: seq<string>, es: seq<Edit>)
    requires |texts| == |es| + 1 && forall k :: 0 <= k < |es| ==> TextStep(texts[k], es[k], texts[k + 1])
    ensures ApplyAll(texts[0], es) == texts[|es|] && MissesAll(texts[0], es) == {}
    decreases |es|
  {
    if es != [] {
      assert TextStep(texts[0], es[0], texts[1]);
      forall k | 0 <= k < |es[1..]| ensures TextStep(texts[1..][k], es[1..][k], texts[1..][k + 1]) {
        assert TextStep(texts[k + 1], es[k + 1], texts[k + 2]);
      }
      TextFollows(texts[1..], es[1..]);
    }
  }

  /** Any sequence of edits on a file that holds what each of them needs: the tracer reports nothing missing
      and the text follows the lines. */
  lemma NothingMissing(doc: seq<Line>, es: seq<Edit>) returns (docs: seq<seq<Line>>)
    requires Runnable(doc, es)
    ensures IsTrace(docs, es) && docs[0] == doc && forall k :: 0 <= k < |docs| ==> FitsAll(docs[k])
    ensures MissesAll(Content(doc), es) == {}
    ensures ApplyAll(Content(doc), es) == Content(docs[|es|])
  {
    docs := TraceExists(doc, es);
    var texts := seq(|docs|, k requires 0 <= k < |docs| => Content(docs[k]));
    forall k | 0 <= k < |es| ensures TextStep(texts[k], es[k], texts[k + 1]) {
      assert IsStep(docs[k], es[k], docs[k + 1]);
      EditRefines(docs[k], es[k]);
    }
    TextFollows(texts, es);
  }

  lemma {:induction false} CountsKept(docs: seq<seq<Line>>, es: seq<Edit>, name: string, n: nat)
    requires IsTrace(docs, es) && n <= |es| && forall k :: 0 <= k < |docs| ==> FitsAll(docs[k])
    requires forall i :: 0 <= i < |es| ==> KeepsCount(es[i], name)
    ensures Matching(docs[n], name) == Matching(docs[0], name)
  {
    if n > 0 {
      CountsKept(docs, es, name, n - 1);
      assert IsStep(docs[n - 1], es[n - 1], docs[n]);
      MatchingEdited(docs[n - 1], es[n - 1], name);
    }
  }

  /** Every reusable marker keeps its number of occurrences in the text. */
  lemma MarkersSurvive(doc: seq<Line>, es: seq<Edit>, name: string)
    requires Runnable(doc, es) && '\n' !in name
    requires forall i :: 0 <= i < |es| ==> KeepsCount(es[i], name)
    ensures MissesAll(Content(doc), es) == {}
    ensures Count(ApplyAll(Content(doc), es), Marker(name)) == Count(Content(doc), Marker(name))
  {
    var docs := NothingMissing(doc, es);
    CountsKept(docs, es, name, |es|);
    CountInContent(doc, name);
    CountInContent(docs[|es|], name);
  }
}
