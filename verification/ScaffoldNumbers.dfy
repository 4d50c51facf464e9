/** The numbers of the packets of a module: read off the file by counting markers. */
module ScaffoldNumbers {
  import opened Text
  import opened Decimal
  import opened Markers
  import opened Scaffold
  import opened ScaffoldRuns

  /** The lines with a marker, in order. */
  function Selected(doc: seq<Line>, name: string): seq<Line> {
    if doc == [] then [] else (if Matches(doc[0], name) then [doc[0]] else []) + Selected(doc[1..], name)
  }

  lemma {:induction false} SelectedConcat(a: seq<Line>, b: seq<Line>, name: string)
    ensures Selected(a + b, name) == Selected(a, name) + Selected(b, name)
  {
    if a == [] {
      assert a + b == b;
    } else {
      assert (a + b)[1..] == a[1..] + b;
      SelectedConcat(a[1..], b, name);
      var h := if Matches(a[0], name) then [a[0]] else [];
      Regrouped(h, Selected(a[1..], name), Selected(b, name));
    }
  }

  lemma Regrouped<T>(x: seq<T>, y: seq<T>, z: seq<T>)
    ensures x + (y + z) == x + y + z
  {
  }

  lemma SelectedAround(a: seq<Line>, b: seq<Line>, c: seq<Line>, name: string)
    ensures Selected(a + b + c, name) == Selected(a, name) + Selected(b, name) + Selected(c, name)
  {
    SelectedConcat(a + b, c, name);
    SelectedConcat(a, b, name);
  }

  lemma {:induction false} SelectedNone(doc: seq<Line>, name: string)
    requires forall i :: 0 <= i < |doc| ==> !Matches(doc[i], name)
    ensures Selected(doc, name) == []
  {
    if doc != [] {
      SelectedNone(doc[1..], name);
    }
  }

  lemma {:induction false} SelectedDropped(doc: seq<Line>, text: string, name: string)
    ensures Selected(Dropped(doc, text), name) == Selected(doc, name)
  {
    if doc != [] {
      SelectedDropped(doc[1..], text, name);
      if doc[0] == Plain(text) {
        assert Dropped(doc, text) == Dropped(doc[1..], text);
      } else {
        assert Dropped(doc, text)[1..] == Dropped(doc[1..], text);
      }
    }
  }

  /** A longer marker is found on the lines of the shorter one. */
  lemma {:induction false} MatchingSelected(doc: seq<Line>, name: string, longer: string)
    requires name <= longer
    ensures Matching(doc, longer) == Matching(Selected(doc, name), longer)
  {
    if doc != [] {
      MatchingSelected(doc[1..], name, longer);
      if Matches(doc[0], name) {
        assert Selected(doc, name)[1..] == Selected(doc[1..], name);
      } else {
        assert Selected(doc, name) == Selected(doc[1..], name);
        assert !Matches(doc[0], longer);
      }
    }
  }

  lemma AtFirstSelected(doc: seq<Line>, at: string, lines: seq<Line>, name: string)
    requires Matching(doc, at) > 0
    ensures
      var i := First(doc, at);
      && Selected(doc, name) == Selected(doc[..i], name) + Selected([doc[i]], name) + Selected(doc[i + 1..], name)
      && Selected(AtFirst(doc, at, lines), name) ==
           Selected(doc[..i], name) + Selected(lines, name) + Selected(doc[i + 1..], name)
  {
    var i := First(doc, at);
    SplitAt(doc, i);
    SelectedAround(doc[..i], [doc[i]], doc[i + 1..], name);
    SelectedAround(doc[..i], lines, doc[i + 1..], name);
  }

  /** Inserting text or an import elsewhere leaves the lines of a marker alone. */
  lemma OtherEdits(doc: seq<Line>, e: Edit, name: string)
    requires Supports(doc, e) && (e.Insert? || e.Import?) && Incomparable(NameOf(e), name)
    ensures Selected(Edited(doc, e), name) == Selected(doc, name)
  {
    match e
    case Insert(at, text) =>
      var l := doc[First(doc, at)];
      AtFirstSelected(doc, at, InsertLines(l, text), name);
      SelectedNone(InsertLines(l, text), name);
      SelectedNone([l], name);
    case Import(at, path) =>
      var q := ImportLine(path);
      WithoutMatching(doc, q, at);
      SelectedDropped(doc[1..], q, name);
      var rest := Without(doc, q);
      assert rest[1..] == Dropped(doc[1..], q);
      assert Selected(rest, name) == Selected(doc, name);
      var l := rest[First(rest, at)];
      AtFirstSelected(rest, at, ImportLines(l, at, q), name);
      SelectedNone(ImportLines(l, at, q), name);
      SelectedNone([l], name);
  }

  /** A numbered list in a file: its marker, and the longer marker each of its entries carries. */
  predicate ListNames(name: string, number: string) {
    name < number
  }

  /** The entries so far, the newest first; `rest` is what followed the marker to begin with. */
  function Numbered(name: string, number: string, entries: seq<string>, rest: string): seq<Line> {
    if entries == [] then []
    else
      var n := |entries|;
      [Marked(FieldEntry(entries[n - 1], n + 1), number + (if n == 1 then rest else ""))]
      + Numbered(name, number, entries[..n - 1], rest)
  }

  /** The lines with the list's marker: the plain one, then the entries. */
  function Block(name: string, number: string, before: string, rest: string, entries: seq<string>): seq<Line> {
    [Marked(before, if entries == [] then name + rest else name)] + Numbered(name, number, entries, rest)
  }

  lemma {:induction false} NumberedCount(name: string, number: string, entries: seq<string>, rest: string)
    ensures |Numbered(name, number, entries, rest)| == |entries|
    ensures Matching(Numbered(name, number, entries, rest), number) == |entries|
  {
    if entries != [] {
      NumberedCount(name, number, entries[..|entries| - 1], rest);
      assert Numbered(name, number, entries, rest)[1..] == Numbered(name, number, entries[..|entries| - 1], rest);
    }
  }

  /** The plain marker's line does not count as an entry. */
  lemma BlockCount(name: string, number: string, before: string, rest: string, entries: seq<string>)
    requires ListNames(name, number) && !(number <= name + rest)
    ensures Matching(Block(name, number, before, rest, entries), number) == |entries|
  {
    NumberedCount(name, number, entries, rest);
    assert Block(name, number, before, rest, entries)[1..] == Numbered(name, number, entries, rest);
  }

  lemma BlockGrows(name: string, number: string, before: string, rest: string, entries: seq<string>, entry: string)
    ensures Block(name, number, before, rest, entries + [entry]) ==
      [Marked(before, name),
       Marked(FieldEntry(entry, |entries| + 2), number + (if entries == [] then rest else ""))]
      + Numbered(name, number, entries, rest)
  {
  }

  lemma PairSelected(a: Line, b: Line, name: string)
    requires Matches(a, name) && Matches(b, name)
    ensures Selected([a, b], name) == [a, b]
  {
    assert [a, b][1..] == [b] && [b][1..] == [];
    assert Selected([b], name) == [b];
  }

  lemma {:induction false} FirstSelected(doc: seq<Line>, name: string)
    requires Matching(doc, name) > 0
    ensures Selected(doc, name) == [doc[First(doc, name)]] + Selected(doc[First(doc, name) + 1..], name)
  {
    if !Matches(doc[0], name) {
      FirstSelected(doc[1..], name);
      assert doc[1..][First(doc[1..], name) + 1..] == doc[First(doc, name) + 1..];
    }
  }

  lemma {:induction false} NoneSelectedBefore(doc: seq<Line>, name: string)
    ensures Selected(doc[..First(doc, name)], name) == []
  {
    SelectedNone(doc[..First(doc, name)], name);
  }

  lemma BlockHead(doc: seq<Line>, name: string, number: string, before: string, rest: string, entries: seq<string>)
    requires Matching(doc, name) > 0
    requires Selected(doc, name) == Block(name, number, before, rest, entries)
    ensures doc[First(doc, name)] == Marked(before, if entries == [] then name + rest else name)
    ensures Selected(doc[First(doc, name) + 1..], name) == Numbered(name, number, entries, rest)
  {
    FirstSelected(doc, name);
    var tail := Selected(doc[First(doc, name) + 1..], name);
    var head := doc[First(doc, name)];
    assert ([head] + tail)[0] == head && ([head] + tail)[1..] == tail;
    assert Block(name, number, before, rest, entries)[1..] == Numbered(name, number, entries, rest);
  }

  lemma NumberedSelected(doc: seq<Line>, name: string, number: string, entry: string)
    requires Matching(doc, name) > 0 && ListNames(name, number)
    ensures
      var i := First(doc, name);
      Selected(EditedNumbered(doc, name, number, entry), name) ==
      NumberedLines(doc[i], name, number, FieldEntry(entry, Matching(doc, number) + 2)) + Selected(doc[i + 1..], name)
  {
    var lines := NumberedLines(doc[First(doc, name)], name, number, FieldEntry(entry, Matching(doc, number) + 2));
    NoneSelectedBefore(doc, name);
    AtFirstSelected(doc, name, lines, name);
    PairSelected(lines[0], lines[1], name);
  }

  /** One more entry goes below the plain marker, with the next number. */
  lemma FieldStep(doc: seq<Line>, name: string, number: string, before: string, rest: string,
                  entries: seq<string>, entry: string)
    requires Matching(doc, name) > 0 && ListNames(name, number) && !(number <= name + rest)
    requires Selected(doc, name) == Block(name, number, before, rest, entries)
    ensures Selected(EditedNumbered(doc, name, number, entry), name) ==
            Block(name, number, before, rest, entries + [entry])
  {
    MatchingSelected(doc, name, number);
    BlockCount(name, number, before, rest, entries);
    BlockHead(doc, name, number, before, rest, entries);
    NumberedSelected(doc, name, number, entry);
    BlockGrows(name, number, before, rest, entries, entry);
    assert doc[First(doc, name)].tail[|name|..] == if entries == [] then rest else "";
  }

  function EntryOf(e: Edit): seq<string> {
    if e.Field? then [e.entry] else []
  }

  /** The entries among the edits, in order. */
  function Entries(es: seq<Edit>): seq<string> {
    if es == [] then [] else Entries(es[..|es| - 1]) + EntryOf(es[|es| - 1])
  }

  /** Lines that hold a block before hold it after with more entries. */
  predicate Grows(was: seq<Line>, now: seq<Line>, name: string, number: string, before: string, rest: string,
                  entries: seq<string>, added: seq<string>) {
    was == Block(name, number, before, rest, entries) ==> now == Block(name, number, before, rest, entries + added)
  }

  /** A new entry of one list, or text or an import at another marker. */
  predicate ListEdit(e: Edit, name: string, number: string) {
    if e.Field? then e.name == name && e.number == number
    else (e.Insert? || e.Import?) && Incomparable(NameOf(e), name)
  }

  lemma ListStep(doc: seq<Line>, e: Edit, now: seq<Line>, name: string, number: string, before: string,
                 rest: string, entries: seq<string>)
    requires IsStep(doc, e, now) && ListEdit(e, name, number) && ListNames(name, number) && !(number <= name + rest)
    ensures Grows(Selected(doc, name), Selected(now, name), name, number, before, rest, entries, EntryOf(e))
  {
    if Selected(doc, name) == Block(name, number, before, rest, entries) {
      if e.Field? {
        FieldStep(doc, name, number, before, rest, entries, e.entry);
      } else {
        OtherEdits(doc, e, name);
        assert entries + [] == entries;
      }
    }
  }

  lemma {:induction false} BlocksGrow(lists: seq<seq<Line>>, es: seq<Edit>, name: string, number: string,
                                      before: string, rest: string, n: nat)
    requires |lists| == |es| + 1 && n <= |es|
    requires forall k :: 0 <= k < |es| ==>
      Grows(lists[k], lists[k + 1], name, number, before, rest, Entries(es[..k]), EntryOf(es[k]))
    requires lists[0] == Block(name, number, before, rest, [])
    ensures lists[n] == Block(name, number, before, rest, Entries(es[..n]))
  {
    if n > 0 {
      BlocksGrow(lists, es, name, number, before, rest, n - 1);
      assert Grows(lists[n - 1], lists[n], name, number, before, rest, Entries(es[..n - 1]), EntryOf(es[n - 1]));
      assert es[..n][..n - 1] == es[..n - 1];
    }
  }

  lemma NumbersGrow(docs: seq<seq<Line>>, es: seq<Edit>, name: string, number: string, before: string, rest: string)
    requires IsTrace(docs, es) && (forall i :: 0 <= i < |es| ==> ListEdit(es[i], name, number))
    requires ListNames(name, number) && !(number <= name + rest)
    requires Selected(docs[0], name) == Block(name, number, before, rest, [])
    ensures Selected(docs[|es|], name) == Block(name, number, before, rest, Entries(es))
  {
    var lists := seq(|docs|, k requires 0 <= k < |docs| => Selected(docs[k], name));
    forall k | 0 <= k < |es|
      ensures Grows(lists[k], lists[k + 1], name, number, before, rest, Entries(es[..k]), EntryOf(es[k]))
    {
      assert IsStep(docs[k], es[k], docs[k + 1]);
      ListStep(docs[k], es[k], docs[k + 1], name, number, before, rest, Entries(es[..k]));
    }
    BlocksGrow(lists, es, name, number, before, rest, |es|);
    assert es[..|es|] == es;
  }

  lemma {:induction false} NumberedAt(name: string, number: string, entries: seq<string>, rest: string, i: nat)
    requires i < |entries|
    ensures |Numbered(name, number, entries, rest)| == |entries|
    ensures Numbered(name, number, entries, rest)[|entries| - 1 - i] ==
            Marked(entries[i] + Digits(i + 2) + "; ", number + (if i == 0 then rest else ""))
  {
    NumberedCount(name, number, entries, rest);
    if i < |entries| - 1 {
      NumberedAt(name, number, entries[..|entries| - 1], rest, i);
    }
  }

  /** A file with one plain marker and a numbered list: the number markers count the entries, the plain marker
      comes first although every number marker starts with it, and below it the lines with the marker are the
      entries, the newest first, the i-th - counted from 0 - with the number i + 2. */
  predicate IsNumbered(doc: seq<Line>, name: string, number: string, before: string, rest: string,
                       entries: seq<string>)
  {
    var fields, n := Selected(doc, name), |entries|;
    && Count(Content(doc), Marker(number)) == n
    && First(doc, name) < |doc| && doc[First(doc, name)] == Marked(before, if n == 0 then name + rest else name)
    && |fields| == n + 1 && fields[0] == doc[First(doc, name)]
    && forall i :: 0 <= i < n ==>
         fields[n - i] == Marked(entries[i] + Digits(i + 2) + "; ", number + (if i == 0 then rest else ""))
  }

  lemma EntriesAreNumbered(doc: seq<Line>, name: string, number: string, before: string, rest: string,
                           entries: seq<string>)
    requires FitsAll(doc) && Selected(doc, name) == Block(name, number, before, rest, entries)
    requires ListNames(name, number) && '\n' !in number && !(number <= name + rest)
    ensures IsNumbered(doc, name, number, before, rest, entries)
  {
    NumberedCount(name, number, entries, rest);
    forall i | 0 <= i < |entries|
      ensures Block(name, number, before, rest, entries)[|entries| - i] ==
              Marked(entries[i] + Digits(i + 2) + "; ", number + (if i == 0 then rest else ""))
    {
      BlockAt(name, number, before, rest, entries, i);
    }
    BlockCount(name, number, before, rest, entries);
    MatchingSelected(doc, name, number);
    CountInContent(doc, number);
    SelectedSome(doc, name);
    BlockHead(doc, name, number, before, rest, entries);
  }

  /** From a file with one marker of a list and no number marker, any edits - with text and imports at other
      markers - leave the plain marker and one numbered entry for each of the list's edits. */
  lemma ListRuns(doc: seq<Line>, es: seq<Edit>, name: string, number: string, before: string, rest: string)
    returns (now: seq<Line>)
    requires Runnable(doc, es) && (forall k :: 0 <= k < |es| ==> ListEdit(es[k], name, number))
    requires ListNames(name, number) && '\n' !in number && !(number <= name + rest)
    requires Selected(doc, name) == Block(name, number, before, rest, [])
    ensures FitsAll(now) && ApplyAll(Content(doc), es) == Content(now)
    ensures IsNumbered(now, name, number, before, rest, Entries(es))
  {
    var docs := NothingMissing(doc, es);
    now := docs[|es|];
    NumbersGrow(docs, es, name, number, before, rest);
    EntriesAreNumbered(now, name, number, before, rest, Entries(es));
  }

  lemma {:induction false} SelectedSome(doc: seq<Line>, name: string)
    ensures |Selected(doc, name)| == Matching(doc, name)
  {
    if doc != [] {
      SelectedSome(doc[1..], name);
    }
  }

  lemma BlockAt(name: string, number: string, before: string, rest: string, entries: seq<string>, i: nat)
    requires i < |entries|
    ensures
      var block, n := Block(name, number, before, rest, entries), |entries|;
      && |block| == n + 1 && block[0] == Marked(before, name)
      && block[n - i] == Marked(entries[i] + Digits(i + 2) + "; ", number + (if i == 0 then rest else ""))
  {
    NumberedAt(name, number, entries, rest, i);
  }

  /** Two entries never share a number, and none takes the number 1 of the field that was there first. */
  lemma NumbersDiffer(i: nat, j: nat)
    requires i != j
    ensures Digits(i + 2) != Digits(j + 2) && Digits(i + 2) != Digits(1)
  {
    ValueOfDigits(i + 2);
    ValueOfDigits(j + 2);
    ValueOfDigits(1);
  }
}
