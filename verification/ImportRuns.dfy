/** The imports of the proto files, in the text: each once, after one generator and after any run of scaffolds. */
module ImportRuns {
  import opened Text
  import opened Markers
  import opened Scaffold
  import opened ScaffoldText
  import opened ScaffoldRuns
  import opened ScaffoldImports
  import opened Generators
  import opened GeneratorRuns
  import opened ModuleRuns

  // ----- One generator -----

  lemma {:induction false} ImportEditAt(name: string, paths: seq<string>, i: nat)
    requires i < |paths|
    ensures |ImportEdits(name, paths)| == |paths| && ImportEdits(name, paths)[i] == Import(name, paths[i])
  {
    var n := |paths| - 1;
    if n > 0 {
      ImportEditAt(name, paths[..n], if i < n then i else 0);
    }
  }

  function Texts(paths: seq<string>): (texts: seq<string>)
    ensures |texts| == |paths| && forall i :: 0 <= i < |paths| ==> texts[i] == ImportLine(paths[i])
  {
    seq(|paths|, i requires 0 <= i < |paths| => ImportLine(paths[i]))
  }

  lemma ImportTrace(doc: seq<Line>, name: string, paths: seq<string>) returns (now: seq<Line>)
    requires Runnable(doc, ImportEdits(name, paths))
    ensures FitsAll(now) && ApplyAll(Content(doc), ImportEdits(name, paths)) == Content(now)
    ensures now == ImportAll(doc, name, Texts(paths))
  {
    var es, n := ImportEdits(name, paths), |paths|;
    if n > 0 {
      ImportEditAt(name, paths, 0);
    }
    forall i: nat | i < |es| ensures es[i] == Import(name, paths[i]) {
      ImportEditAt(name, paths, i);
    }
    var docs := NothingMissing(doc, es);
    now := docs[n];
    LoopOfEdits(docs, es, name, paths, n);
    assert Texts(paths) == seq(n, i requires 0 <= i < n <= |paths| => ImportLine(paths[i]));
  }

  /** The import edits of a generator, on the text of a file with its import marker: each required import is
      there exactly once, repeats included, and all other lines are there in their order. */
  lemma ImportsInText(a: seq<Line>, l: Line, c: seq<Line>, name: string, paths: seq<string>) returns (now: seq<Line>)
    requires Runnable(a + [l] + c, ImportEdits(name, paths))
    requires Matching(a, name) == 0 && l.Marked? && l.tail == name && (a != [] ==> !Required(a[0], Texts(paths)))
    ensures FitsAll(now) && ApplyAll(Content(a + [l] + c), ImportEdits(name, paths)) == Content(now)
    ensures forall text :: text in Texts(paths) ==> Copies(now, text) == 1
    ensures Strip(now, Texts(paths)) == Strip(a + [l] + c, Texts(paths))
  {
    now := ImportTrace(a + [l] + c, name, paths);
    ImportsOnce(a, l, c, name, Texts(paths), "");
    forall text | text in Texts(paths) ensures Copies(now, text) == 1 {
      ImportsOnce(a, l, c, name, Texts(paths), text);
    }
  }

  // ----- Any run of scaffolds -----

  /** The import is not the first line of the file, where it would not be found. */
  predicate NotFirst(doc: seq<Line>, text: string) {
    doc != [] && doc[0] != Plain(text)
  }

  lemma {:induction false} NoCopies(doc: seq<Line>, text: string)
    requires forall i :: 0 <= i < |doc| ==> doc[i] != Plain(text)
    ensures Copies(doc, text) == 0
  {
    if doc != [] {
      NoCopies(doc[1..], text);
    }
  }

  lemma CopiesAround(a: seq<Line>, b: seq<Line>, c: seq<Line>, text: string)
    ensures Copies(a + b + c, text) == Copies(a, text) + Copies(b, text) + Copies(c, text)
  {
    CopiesConcat(a + b, c, text);
    CopiesConcat(a, b, text);
  }

  /** New lines in the place of a marker's line. */
  lemma AtFirstCopies(doc: seq<Line>, name: string, lines: seq<Line>, text: string)
    requires Matching(doc, name) > 0 && lines != [] && NotFirst(doc, text)
    ensures Copies(AtFirst(doc, name, lines), text) == Copies(doc, text) + Copies(lines, text)
    ensures lines[0] != Plain(text) ==> NotFirst(AtFirst(doc, name, lines), text)
  {
    var i := First(doc, name);
    CopiesAround(doc[..i], lines, doc[i + 1..], text);
    SplitAt(doc, i);
    CopiesAround(doc[..i], [doc[i]], doc[i + 1..], text);
    NoCopies([doc[i]], text);
  }

  lemma {:induction false} DroppedCopies(doc: seq<Line>, text: string, other: string)
    ensures Copies(Dropped(doc, text), other) == if other == text then 0 else Copies(doc, other)
  {
    if doc != [] {
      DroppedCopies(doc[1..], text, other);
      if doc[0] == Plain(text) {
        assert Dropped(doc, text) == Dropped(doc[1..], text);
      } else {
        assert Dropped(doc, text)[1..] == Dropped(doc[1..], text);
      }
    }
  }

  lemma WithoutCopies(doc: seq<Line>, text: string, other: string)
    requires NotFirst(doc, other)
    ensures NotFirst(Without(doc, text), other)
    ensures Copies(Without(doc, text), other) == if other == text then 0 else Copies(doc, other)
  {
    DroppedCopies(doc[1..], text, other);
    assert Without(doc, text)[1..] == Dropped(doc[1..], text);
  }

  lemma PairCopies(l: Line, text: string, other: string)
    requires l.Marked?
    ensures Copies([l, Plain(text)], other) == if text == other then 1 else 0
  {
    assert [l, Plain(text)][1..] == [Plain(text)] && [Plain(text)][1..] == [];
    assert Copies([Plain(text)], other) == if text == other then 1 else 0;
  }

  /** Inserted text has no quotes, so none of its lines is an import. */
  lemma InsertCopies(doc: seq<Line>, name: string, text: string, path: string)
    requires Matching(doc, name) > 0 && '"' !in text
    requires StandAlone(doc, ImportLine(path)) && NotFirst(doc, ImportLine(path))
    ensures Copies(EditedInsert(doc, name, text), ImportLine(path)) == Copies(doc, ImportLine(path))
    ensures NotFirst(EditedInsert(doc, name, text), ImportLine(path))
  {
    var q, l := ImportLine(path), doc[First(doc, name)];
    assert StandsAlone(l, q);
    var parts := Split(l.before + text, '\n');
    SplitChars(l.before + text, '\n', '"');
    var lines := InsertLines(l, text);
    forall i | 0 <= i < |lines| ensures lines[i] != Plain(q) {
      assert i < |parts| ==> lines[i] == Plain(parts[i]) && '"' !in parts[i];
      assert q[7] == '"';
    }
    NoCopies(lines, q);
    AtFirstCopies(doc, name, lines, q);
  }

  lemma ImportCopies(doc: seq<Line>, name: string, text: string, other: string)
    requires Matching(doc, name) > 0 && NotFirst(doc, other)
    ensures Copies(EditedImport(doc, name, text), other) == if text == other then 1 else Copies(doc, other)
    ensures NotFirst(EditedImport(doc, name, text), other)
  {
    WithoutMatching(doc, text, name);
    WithoutCopies(doc, text, other);
    var rest := Without(doc, text);
    var l := rest[First(rest, name)];
    PairCopies(Marked(l.before, name), text, other);
    AtFirstCopies(rest, name, ImportLines(l, name, text), other);
  }

  lemma FieldCopies(doc: seq<Line>, name: string, number: string, entry: string, text: string)
    requires Matching(doc, name) > 0 && NotFirst(doc, text)
    ensures Copies(EditedNumbered(doc, name, number, entry), text) == Copies(doc, text)
    ensures NotFirst(EditedNumbered(doc, name, number, entry), text)
  {
    var lines := NumberedLines(doc[First(doc, name)], name, number, FieldEntry(entry, Matching(doc, number) + 2));
    NoCopies(lines, text);
    AtFirstCopies(doc, name, lines, text);
  }

  predicate ProtoFile(kind: FileKind) {
    kind.TxFile? || kind.PacketFile?
  }

  function ImportOf(kind: FileKind, path: string): Edit
    requires ProtoFile(kind)
  {
    Import(if kind.TxFile? then TX_IMPORT else PACKET_IMPORT, path)
  }

  /** What one edit of a proto file does to an import line. */
  lemma StepCopies(kind: FileKind, doc: seq<Line>, e: Edit, path: string)
    requires ProtoFile(kind) && Fine(kind, e) && Fine(kind, ImportOf(kind, path))
    requires Supports(doc, e) && Supports(doc, ImportOf(kind, path)) && NotFirst(doc, ImportLine(path))
    ensures NotFirst(Edited(doc, e), ImportLine(path))
    ensures Copies(Edited(doc, e), ImportLine(path)) ==
            if e == ImportOf(kind, path) then 1 else Copies(doc, ImportLine(path))
  {
    match e
    case Insert(name, text) => InsertCopies(doc, name, text, path);
    case Import(name, path') =>
      ImportCopies(doc, name, ImportLine(path'), ImportLine(path));
      if ImportLine(path') == ImportLine(path) {
        ImportLinesDiffer(path, path');
      }
    case Field(name, number, entry) => FieldCopies(doc, name, number, entry, ImportLine(path));
  }

  /** The file can take the import, which is not its first line. */
  predicate TakesImport(kind: FileKind, doc: seq<Line>, path: string)
    requires ProtoFile(kind)
  {
    FitsAll(doc) && Supports(doc, ImportOf(kind, path)) && NotFirst(doc, ImportLine(path))
  }

  predicate KeepsImport(kind: FileKind, doc: seq<Line>, e: Edit, now: seq<Line>, path: string)
    requires ProtoFile(kind)
  {
    TakesImport(kind, doc, path) ==>
      && TakesImport(kind, now, path)
      && Copies(now, ImportLine(path)) == if e == ImportOf(kind, path) then 1 else Copies(doc, ImportLine(path))
  }

  lemma StepKeepsImport(kind: FileKind, doc: seq<Line>, e: Edit, now: seq<Line>, path: string)
    requires ProtoFile(kind) && Fine(kind, e) && Fine(kind, ImportOf(kind, path)) && IsStep(doc, e, now) && FitsAll(now)
    ensures KeepsImport(kind, doc, e, now, path)
  {
    if TakesImport(kind, doc, path) {
      AllowedCompatible(kind, e, ImportOf(kind, path));
      EditKeeps(doc, e, ImportOf(kind, path));
      StepCopies(kind, doc, e, path);
    }
  }

  /** What is 1 after a hit, and changes at hits only, is 1 from the first hit on. */
  lemma {:induction false} OneAfterHit(takes: seq<bool>, counts: seq<nat>, hits: seq<bool>, n: nat)
    requires |takes| == |counts| == |hits| + 1 && n <= |hits| && takes[0]
    requires forall k :: 0 <= k < |hits| ==>
      (takes[k] ==> takes[k + 1] && counts[k + 1] == if hits[k] then 1 else counts[k])
    ensures takes[n] && forall i :: 0 <= i < n && hits[i] ==> counts[n] == 1
  {
    if n > 0 {
      OneAfterHit(takes, counts, hits, n - 1);
    }
  }

  lemma RunCopies(kind: FileKind, docs: seq<seq<Line>>, es: seq<Edit>, path: string, i: nat)
    requires ProtoFile(kind) && |docs| == |es| + 1 && i < |es| && TakesImport(kind, docs[0], path)
    requires forall k :: 0 <= k < |es| ==> KeepsImport(kind, docs[k], es[k], docs[k + 1], path)
    requires es[i] == ImportOf(kind, path)
    ensures Copies(docs[|es|], ImportLine(path)) == 1
  {
    var takes := seq(|docs|, k requires 0 <= k < |docs| => TakesImport(kind, docs[k], path));
    var counts := seq(|docs|, k requires 0 <= k < |docs| => Copies(docs[k], ImportLine(path)));
    var hits := seq(|es|, k requires 0 <= k < |es| => es[k] == ImportOf(kind, path));
    forall k | 0 <= k < |es|
      ensures takes[k] ==> takes[k + 1] && counts[k + 1] == if hits[k] then 1 else counts[k]
    {
      assert KeepsImport(kind, docs[k], es[k], docs[k + 1], path);
    }
    OneAfterHit(takes, counts, hits, |es|);
    assert hits[i];
  }

  /** Whatever messages and packets are scaffolded, in whatever order and however often: every import that one of
      them requires is in the file exactly once. */
  lemma ImportsAppearOnce(kind: FileKind, doc: seq<Line>, moduleName: string, ss: seq<Scaffolding>)
    returns (now: seq<Line>)
    requires ProtoFile(kind) && Ready(kind, doc, moduleName, ss)
    ensures FitsAll(now) && ApplyAll(Content(doc), AllEdits(kind, moduleName, ss)) == Content(now)
    ensures forall path ::
      ImportOf(kind, path) in AllEdits(kind, moduleName, ss) && NotFirst(doc, ImportLine(path)) ==>
      Copies(now, ImportLine(path)) == 1
  {
    var es := AllEdits(kind, moduleName, ss);
    ReadyRuns(kind, doc, moduleName, ss);
    var docs := NothingMissing(doc, es);
    now := docs[|es|];
    forall path | ImportOf(kind, path) in es && NotFirst(doc, ImportLine(path))
      ensures Copies(now, ImportLine(path)) == 1
    {
      var i :| 0 <= i < |es| && es[i] == ImportOf(kind, path);
      assert Fine(kind, es[i]) && Supports(doc, es[i]);
      forall k | 0 <= k < |es| ensures KeepsImport(kind, docs[k], es[k], docs[k + 1], path) {
        assert IsStep(docs[k], es[k], docs[k + 1]) && Fine(kind, es[k]);
        StepKeepsImport(kind, docs[k], es[k], docs[k + 1], path);
      }
      RunCopies(kind, docs, es, path, i);
    }
  }
}
