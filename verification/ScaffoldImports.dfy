/** The import loop of the proto generators: every required import once, below the import marker. */
module ScaffoldImports {
  import opened Markers
  import opened Scaffold
  import opened ScaffoldRuns

  predicate Required(l: Line, texts: seq<string>) {
    l.Plain? && l.text in texts
  }

  /** The lines that are none of the given imports, in their order. */
  function Strip(doc: seq<Line>, texts: seq<string>): seq<Line> {
    if doc == [] then []
    else (if Required(doc[0], texts) then [] else [doc[0]]) + Strip(doc[1..], texts)
  }

  function Copies(doc: seq<Line>, text: string): nat {
    if doc == [] then 0 else (if doc[0] == Plain(text) then 1 else 0) + Copies(doc[1..], text)
  }

  function Removed(texts: seq<string>, text: string): seq<string> {
    if texts == [] then [] else (if texts[0] == text then [] else [texts[0]]) + Removed(texts[1..], text)
  }

  /** The order the loop leaves the imports in: the last one first, each where it was last required. */
  function ImportOrder(texts: seq<string>): seq<string> {
    if texts == [] then []
    else
      var last := texts[|texts| - 1];
      [last] + Removed(ImportOrder(texts[..|texts| - 1]), last)
  }

  /** The loop on the lines. */
  function ImportAll(doc: seq<Line>, name: string, texts: seq<string>): seq<Line> {
    if texts == [] then doc
    else
      var done := ImportAll(doc, name, texts[..|texts| - 1]);
      if Matching(done, name) > 0 then EditedImport(done, name, texts[|texts| - 1]) else done
  }

  lemma {:induction false} DroppedConcat(a: seq<Line>, b: seq<Line>, text: string)
    ensures Dropped(a + b, text) == Dropped(a, text) + Dropped(b, text)
  {
    if a == [] {
      assert a + b == b;
    } else {
      assert (a + b)[1..] == a[1..] + b;
      DroppedConcat(a[1..], b, text);
    }
  }

  lemma {:induction false} StripConcat(a: seq<Line>, b: seq<Line>, texts: seq<string>)
    ensures Strip(a + b, texts) == Strip(a, texts) + Strip(b, texts)
  {
    if a == [] {
      assert a + b == b;
    } else {
      assert (a + b)[1..] == a[1..] + b;
      StripConcat(a[1..], b, texts);
    }
  }

  lemma {:induction false} CopiesConcat(a: seq<Line>, b: seq<Line>, text: string)
    ensures Copies(a + b, text) == Copies(a, text) + Copies(b, text)
  {
    if a == [] {
      assert a + b == b;
    } else {
      assert (a + b)[1..] == a[1..] + b;
      CopiesConcat(a[1..], b, text);
    }
  }

  /** One more import strips one more line. */
  lemma {:induction false} StripMore(doc: seq<Line>, texts: seq<string>, text: string)
    ensures Dropped(Strip(doc, texts), text) == Strip(doc, texts + [text])
  {
    if doc != [] {
      StripMore(doc[1..], texts, text);
      if !Required(doc[0], texts) {
        assert Strip(doc, texts)[1..] == Strip(doc[1..], texts);
      } else {
        assert Strip(doc, texts) == Strip(doc[1..], texts);
      }
    }
  }

  lemma {:induction false} PlainsDropped(texts: seq<string>, text: string)
    ensures Dropped(Plains(texts), text) == Plains(Removed(texts, text))
  {
    if texts != [] {
      PlainsDropped(texts[1..], text);
      assert Plains(texts)[1..] == Plains(texts[1..]);
      if texts[0] != text {
        assert Removed(texts, text)[1..] == Removed(texts[1..], text);
      } else {
        assert Removed(texts, text) == Removed(texts[1..], text);
      }
    }
  }

  lemma {:induction false} StripNothing(doc: seq<Line>)
    ensures Strip(doc, []) == doc
  {
    if doc != [] {
      StripNothing(doc[1..]);
    }
  }

  lemma DroppedAround(a: seq<Line>, l: Line, c: seq<Line>, text: string)
    requires l.Marked? && (a != [] ==> a[0] != Plain(text))
    ensures Without(a + [l] + c, text) == Dropped(a, text) + [l] + Dropped(c, text)
  {
    var doc := a + [l] + c;
    DroppedConcat(a + [l], c, text);
    DroppedConcat(a, [l], text);
    assert Dropped([l], text) == [l];
    assert doc[0] != Plain(text);
  }

  lemma AtThere(a: seq<Line>, l: Line, c: seq<Line>, name: string, lines: seq<Line>)
    requires Matching(a, name) == 0 && Matches(l, name)
    ensures Matching(a + [l] + c, name) > 0 && AtFirst(a + [l] + c, name, lines) == a + lines + c
  {
    MatchingAround(a, [l], c, name);
    assert Matching([l], name) == 1;
    FirstThere(a, l, c, name);
  }

  lemma EditedThere(doc: seq<Line>, a: seq<Line>, l: Line, c: seq<Line>, name: string, text: string)
    requires Matching(doc, name) > 0 && Without(doc, text) == a + [l] + c
    requires Matching(a, name) == 0 && l.Marked? && l.tail == name
    ensures EditedImport(doc, name, text) == a + [l, Plain(text)] + c
  {
    WithoutMatching(doc, text, name);
    FirstThere(a, l, c, name);
    AtThere(a, l, c, name, [l, Plain(text)]);
  }

  lemma PairRegrouped<T>(a: seq<T>, l: T, p: T, c: seq<T>)
    ensures a + [l, p] + c == a + [l] + ([p] + c)
  {
  }

  /** One round of the loop. */
  lemma ImportStep(a: seq<Line>, l: Line, c: seq<Line>, name: string, text: string)
    requires Matching(a, name) == 0 && l.Marked? && l.tail == name && (a != [] ==> a[0] != Plain(text))
    ensures Matching(a + [l] + c, name) > 0
    ensures EditedImport(a + [l] + c, name, text) == Dropped(a, text) + [l] + ([Plain(text)] + Dropped(c, text))
  {
    AtThere(a, l, c, name, []);
    DroppedAround(a, l, c, text);
    DroppedMatching(a, text, name);
    EditedThere(a + [l] + c, Dropped(a, text), l, Dropped(c, text), name, text);
    PairRegrouped(Dropped(a, text), l, Plain(text), Dropped(c, text));
  }

  lemma {:induction false} FirstThere(a: seq<Line>, l: Line, c: seq<Line>, name: string)
    requires Matching(a, name) == 0 && Matches(l, name)
    ensures First(a + [l] + c, name) == |a|
  {
    if a != [] {
      assert (a + [l] + c)[1..] == a[1..] + [l] + c;
      FirstThere(a[1..], l, c, name);
    } else {
      assert a + [l] + c == [l] + c;
    }
  }

  lemma {:induction false} StripKeepsFirst(doc: seq<Line>, texts: seq<string>, name: string)
    ensures Matching(Strip(doc, texts), name) == Matching(doc, name)
    ensures doc != [] && !Required(doc[0], texts) ==> Strip(doc, texts) != [] && Strip(doc, texts)[0] == doc[0]
  {
    if doc != [] {
      StripKeepsFirst(doc[1..], texts, name);
      if Required(doc[0], texts) {
        assert Strip(doc, texts) == Strip(doc[1..], texts);
      } else {
        assert Strip(doc, texts)[1..] == Strip(doc[1..], texts);
      }
    }
  }

  /** What the loop leaves, whatever the list of imports, repeats included: the required imports below the
      marker, and every other line in its place. */
  lemma {:induction false} ImportsForm(a: seq<Line>, l: Line, c: seq<Line>, name: string, texts: seq<string>)
    requires Matching(a, name) == 0 && l.Marked? && l.tail == name && (a != [] ==> !Required(a[0], texts))
    ensures ImportAll(a + [l] + c, name, texts) ==
            Strip(a, texts) + [l] + (Plains(ImportOrder(texts)) + Strip(c, texts))
  {
    if texts == [] {
      StripNothing(a);
      StripNothing(c);
      assert Plains(ImportOrder([])) + c == c;
    } else {
      var n := |texts| - 1;
      var most, last := texts[..n], texts[n];
      assert texts == most + [last];
      ImportsForm(a, l, c, name, most);
      var a', order, c' := Strip(a, most), ImportOrder(most), Strip(c, most);
      StripKeepsFirst(a, most, name);
      ImportStep(a', l, Plains(order) + c', name, last);
      StripMore(a, most, last);
      StripMore(c, most, last);
      DroppedConcat(Plains(order), c', last);
      PlainsDropped(order, last);
      assert Plains(ImportOrder(texts)) == [Plain(last)] + Plains(Removed(order, last)) by {
        assert ImportOrder(texts)[1..] == Removed(order, last);
      }
      Reassociate([Plain(last)], Plains(Removed(order, last)), Strip(c, texts));
    }
  }

  lemma Reassociate<T>(x: seq<T>, y: seq<T>, z: seq<T>)
    ensures x + (y + z) == x + y + z
  {
  }

  // ----- Consequences -----

  function Times(texts: seq<string>, text: string): nat {
    if texts == [] then 0 else (if texts[0] == text then 1 else 0) + Times(texts[1..], text)
  }

  lemma {:induction false} PlainsCopies(texts: seq<string>, text: string)
    ensures Copies(Plains(texts), text) == Times(texts, text)
  {
    if texts != [] {
      PlainsCopies(texts[1..], text);
      assert Plains(texts)[1..] == Plains(texts[1..]);
    }
  }

  lemma {:induction false} RemovedTimes(texts: seq<string>, text: string, other: string)
    ensures Times(Removed(texts, text), other) == if other == text then 0 else Times(texts, other)
  {
    if texts != [] {
      RemovedTimes(texts[1..], text, other);
      if texts[0] != text {
        assert Removed(texts, text)[1..] == Removed(texts[1..], text);
      } else {
        assert Removed(texts, text) == Removed(texts[1..], text);
      }
    }
  }

  lemma {:induction false} OrderTimes(texts: seq<string>, text: string)
    ensures Times(ImportOrder(texts), text) == if text in texts then 1 else 0
  {
    if texts != [] {
      var n := |texts| - 1;
      var most, last := texts[..n], texts[n];
      OrderTimes(most, text);
      RemovedTimes(ImportOrder(most), last, text);
      assert texts == most + [last];
      assert ImportOrder(texts)[1..] == Removed(ImportOrder(most), last);
    }
  }

  lemma OrderCopies(texts: seq<string>, text: string)
    ensures Copies(Plains(ImportOrder(texts)), text) == if text in texts then 1 else 0
  {
    PlainsCopies(ImportOrder(texts), text);
    OrderTimes(texts, text);
  }

  lemma {:induction false} StripCopies(doc: seq<Line>, texts: seq<string>, text: string)
    requires text in texts
    ensures Copies(Strip(doc, texts), text) == 0
  {
    if doc != [] {
      StripCopies(doc[1..], texts, text);
      if Required(doc[0], texts) {
        assert Strip(doc, texts) == Strip(doc[1..], texts);
      } else {
        assert Strip(doc, texts)[1..] == Strip(doc[1..], texts);
      }
    }
  }

  lemma {:induction false} StripTwice(doc: seq<Line>, texts: seq<string>)
    ensures Strip(Strip(doc, texts), texts) == Strip(doc, texts)
  {
    if doc != [] {
      StripTwice(doc[1..], texts);
      if Required(doc[0], texts) {
        assert Strip(doc, texts) == Strip(doc[1..], texts);
      } else {
        assert Strip(doc, texts)[1..] == Strip(doc[1..], texts);
      }
    }
  }

  lemma {:induction false} StripAllPlains(order: seq<string>, texts: seq<string>)
    requires forall i :: 0 <= i < |order| ==> order[i] in texts
    ensures Strip(Plains(order), texts) == []
  {
    if order != [] {
      StripAllPlains(order[1..], texts);
      assert Plains(order)[1..] == Plains(order[1..]);
    }
  }

  lemma {:induction false} RemovedFrom(texts: seq<string>, text: string)
    ensures forall t :: t in Removed(texts, text) ==> t in texts
  {
    if texts != [] {
      RemovedFrom(texts[1..], text);
    }
  }

  lemma {:induction false} OrderFrom(texts: seq<string>)
    ensures forall t :: t in ImportOrder(texts) ==> t in texts
  {
    if texts != [] {
      OrderFrom(texts[..|texts| - 1]);
      RemovedFrom(ImportOrder(texts[..|texts| - 1]), texts[|texts| - 1]);
    }
  }

  /** After the loop each required import is there exactly once and all other lines keep their order. */
  lemma ImportsOnce(a: seq<Line>, l: Line, c: seq<Line>, name: string, texts: seq<string>, text: string)
    requires Matching(a, name) == 0 && l.Marked? && l.tail == name && (a != [] ==> !Required(a[0], texts))
    ensures
      var doc, now := a + [l] + c, ImportAll(a + [l] + c, name, texts);
      (text in texts ==> Copies(now, text) == 1) && Strip(now, texts) == Strip(doc, texts)
  {
    ImportsForm(a, l, c, name, texts);
    var order := ImportOrder(texts);
    var s, t := Strip(a, texts), Plains(order) + Strip(c, texts);
    if text in texts {
      CopiesConcat(s + [l], t, text);
      CopiesConcat(s, [l], text);
      CopiesConcat(Plains(order), Strip(c, texts), text);
      StripCopies(a, texts, text);
      StripCopies(c, texts, text);
      OrderCopies(texts, text);
      assert Copies([l], text) == 0;
    }
    OrderFrom(texts);
    StripAllPlains(order, texts);
    StripTwice(a, texts);
    StripTwice(c, texts);
    StripConcat(s + [l], t, texts);
    StripConcat(s, [l], texts);
    StripConcat(Plains(order), Strip(c, texts), texts);
    StripConcat(a + [l], c, texts);
    StripConcat(a, [l], texts);
    assert [] + Strip(c, texts) == Strip(c, texts);
  }

  /** Running the loop again changes nothing, not even the order of the imports. */
  lemma ImportsStable(a: seq<Line>, l: Line, c: seq<Line>, name: string, texts: seq<string>)
    requires Matching(a, name) == 0 && l.Marked? && l.tail == name && (a != [] ==> !Required(a[0], texts))
    ensures
      var now := ImportAll(a + [l] + c, name, texts);
      ImportAll(now, name, texts) == now
  {
    ImportsForm(a, l, c, name, texts);
    var order, a', c' := ImportOrder(texts), Strip(a, texts), Strip(c, texts);
    StripKeepsFirst(a, texts, name);
    if a == [] {
      assert a' == [];
    }
    ImportsForm(a', l, Plains(order) + c', name, texts);
    StripTwice(a, texts);
    StripTwice(c, texts);
    StripConcat(Plains(order), c', texts);
    OrderFrom(texts);
    StripAllPlains(order, texts);
    assert [] + c' == c';
  }

  /** The import edits of a generator are this loop. */
  lemma {:induction false} LoopOfEdits(docs: seq<seq<Line>>, es: seq<Edit>, name: string, paths: seq<string>, n: nat)
    requires IsTrace(docs, es) && |paths| == |es| && n <= |es|
    requires forall i :: 0 <= i < |es| ==> es[i] == Import(name, paths[i])
    ensures docs[n] == ImportAll(docs[0], name, seq(n, i requires 0 <= i < n <= |paths| => ImportLine(paths[i])))
  {
    if n > 0 {
      LoopOfEdits(docs, es, name, paths, n - 1);
      assert IsStep(docs[n - 1], es[n - 1], docs[n]);
      var all := seq(n, i requires 0 <= i < n <= |paths| => ImportLine(paths[i]));
      assert all[..n - 1] == seq(n - 1, i requires 0 <= i < n - 1 <= |paths| => ImportLine(paths[i]));
    }
  }
}
