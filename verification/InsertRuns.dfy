/** What a scaffold inserts stays in the file, whole, whatever is scaffolded after it. */
module InsertRuns {
  import opened Text
  import opened Markers
  import opened Scaffold
  import opened ScaffoldText
  import opened ScaffoldRuns
  import opened ScaffoldImports
  import opened Generators
  import opened GeneratorRuns
  import opened ModuleRuns

  // ----- A block of lines -----

  /** These lines follow each other in the file. */
  ghost predicate Holds(doc: seq<Line>, parts: seq<string>) {
    exists a, c :: IsBlock(doc, a, parts, c)
  }

  predicate IsBlock(doc: seq<Line>, a: seq<Line>, parts: seq<string>, c: seq<Line>) {
    doc == a + Plains(parts) + c
  }

  lemma SplicedAbove<T>(a: seq<T>, p: seq<T>, c: seq<T>, i: nat, lines: seq<T>)
    requires i < |a|
    ensures (a + p + c)[..i] + lines + (a + p + c)[i + 1..] == (a[..i] + lines + a[i + 1..]) + p + c
  {
    var s := a + p + c;
    assert s[..i] == a[..i];
    assert s[i + 1..] == a[i + 1..] + (p + c);
    Assoc(a[..i] + lines, a[i + 1..], p + c);
    Assoc(a[..i] + lines + a[i + 1..], p, c);
  }

  lemma SplicedBelow<T>(a: seq<T>, c: seq<T>, j: nat, lines: seq<T>)
    requires j < |c|
    ensures (a + c)[..|a| + j] + lines + (a + c)[|a| + j + 1..] == a + (c[..j] + lines + c[j + 1..])
  {
    var s := a + c;
    assert s[..|a| + j] == a + c[..j];
    assert s[|a| + j + 1..] == c[j + 1..];
    Assoc(a, c[..j], lines);
    Assoc(a, c[..j] + lines, c[j + 1..]);
  }

  lemma Assoc<T>(a: seq<T>, b: seq<T>, c: seq<T>)
    ensures a + b + c == a + (b + c)
  {
  }

  /** A marked line is not in a block. */
  lemma MarkedOutside(doc: seq<Line>, a: seq<Line>, parts: seq<string>, c: seq<Line>, i: nat)
    requires IsBlock(doc, a, parts, c) && i < |doc| && doc[i].Marked?
    ensures i < |a| || |a| + |parts| <= i
  {
  }

  /** New lines in the place of a marked line split no block. */
  lemma AtFirstKeeps(doc: seq<Line>, name: string, lines: seq<Line>, parts: seq<string>)
    requires Matching(doc, name) > 0 && Holds(doc, parts)
    ensures Holds(AtFirst(doc, name, lines), parts)
  {
    var a, c :| IsBlock(doc, a, parts, c);
    var i, p := First(doc, name), Plains(parts);
    MarkedOutside(doc, a, parts, c, i);
    if i < |a| {
      SplicedAbove(a, p, c, i, lines);
      assert IsBlock(AtFirst(doc, name, lines), a[..i] + lines + a[i + 1..], parts, c);
    } else {
      var j := i - |a + p|;
      SplicedBelow(a + p, c, j, lines);
      assert IsBlock(AtFirst(doc, name, lines), a, parts, c[..j] + lines + c[j + 1..]);
    }
  }

  lemma {:induction false} PlainsStay(parts: seq<string>, text: string)
    requires text !in parts
    ensures Dropped(Plains(parts), text) == Plains(parts)
  {
    if parts != [] {
      PlainsStay(parts[1..], text);
      assert Plains(parts)[1..] == Plains(parts[1..]);
    }
  }

  lemma DroppedAround3(a: seq<Line>, b: seq<Line>, c: seq<Line>, text: string)
    ensures Dropped(a + b + c, text) == Dropped(a, text) + Dropped(b, text) + Dropped(c, text)
  {
    DroppedConcat(a + b, c, text);
    DroppedConcat(a, b, text);
  }

  lemma WithoutBelow(a: seq<Line>, parts: seq<string>, c: seq<Line>, text: string)
    requires a != [] && text !in parts
    ensures Without(a + Plains(parts) + c, text) == [a[0]] + Dropped(a[1..], text) + Plains(parts) + Dropped(c, text)
  {
    assert (a + Plains(parts) + c)[1..] == a[1..] + Plains(parts) + c;
    DroppedAround3(a[1..], Plains(parts), c, text);
    PlainsStay(parts, text);
    Assoc([a[0]], Dropped(a[1..], text), Plains(parts));
    Assoc([a[0]], Dropped(a[1..], text) + Plains(parts), Dropped(c, text));
  }

  lemma WithoutAtTop(parts: seq<string>, c: seq<Line>, text: string)
    requires parts != [] && text !in parts
    ensures Without(Plains(parts) + c, text) == Plains(parts) + Dropped(c, text)
  {
    assert Plains(parts) == [Plain(parts[0])] + Plains(parts[1..]);
    assert (Plains(parts) + c)[1..] == Plains(parts[1..]) + c;
    DroppedConcat(Plains(parts[1..]), c, text);
    PlainsStay(parts[1..], text);
    Assoc([Plain(parts[0])], Plains(parts[1..]), Dropped(c, text));
  }

  /** Taking away another line leaves the block. */
  lemma WithoutKeeps(doc: seq<Line>, text: string, parts: seq<string>)
    requires Holds(doc, parts) && parts != [] && text !in parts
    ensures Holds(Without(doc, text), parts)
  {
    var a, c :| IsBlock(doc, a, parts, c);
    if a != [] {
      WithoutBelow(a, parts, c, text);
      assert IsBlock(Without(doc, text), [a[0]] + Dropped(a[1..], text), parts, Dropped(c, text));
    } else {
      assert doc == Plains(parts) + c;
      WithoutAtTop(parts, c, text);
      assert [] + Plains(parts) == Plains(parts);
      assert IsBlock(Without(doc, text), [], parts, Dropped(c, text));
    }
  }

  /** The block is no import line, or the edit is no import. */
  predicate Spares(e: Edit, parts: seq<string>) {
    e.Import? ==> ImportLine(e.path) !in parts
  }

  lemma EditHolds(doc: seq<Line>, e: Edit, parts: seq<string>)
    requires Supports(doc, e) && Holds(doc, parts) && parts != [] && Spares(e, parts)
    ensures Holds(Edited(doc, e), parts)
  {
    match e
    case Insert(name, text) => AtFirstKeeps(doc, name, InsertLines(doc[First(doc, name)], text), parts);
    case Once(name, text) =>
      if !PresentPlain(doc, text) {
        AtFirstKeeps(doc, name, OnceLines(doc[First(doc, name)], name, text), parts);
      }
    case Import(name, path) =>
      var line := ImportLine(path);
      WithoutMatching(doc, line, name);
      WithoutKeeps(doc, line, parts);
      var rest := Without(doc, line);
      AtFirstKeeps(rest, name, ImportLines(rest[First(rest, name)], name, line), parts);
    case Field(name, number, entry) =>
      var numbered := FieldEntry(entry, Matching(doc, number) + 2);
      AtFirstKeeps(doc, name, NumberedLines(doc[First(doc, name)], name, number, numbered), parts);
  }

  lemma {:induction false} BlockStays(docs: seq<seq<Line>>, es: seq<Edit>, parts: seq<string>, from: nat, n: nat)
    requires IsTrace(docs, es) && from <= n <= |es| && Holds(docs[from], parts) && parts != []
    requires forall k :: 0 <= k < |es| ==> Spares(es[k], parts)
    ensures Holds(docs[n], parts)
    decreases n
  {
    if from < n {
      BlockStays(docs, es, parts, from, n - 1);
      assert IsStep(docs[n - 1], es[n - 1], docs[n]);
      EditHolds(docs[n - 1], es[n - 1], parts);
    }
  }

  // ----- The text -----

  ghost predicate Occurs(content: string, text: string) {
    exists x, y :: content == x + text + y
  }

  /** A text with what stands before it on its first line. */
  lemma BlockIsText(doc: seq<Line>, before: string, text: string)
    requires Holds(doc, Split(before + text, '\n'))
    ensures Occurs(Content(doc), text)
  {
    var parts := Split(before + text, '\n');
    var a, c :| IsBlock(doc, a, parts, c);
    assert Plains(parts) != [];
    ContentAround(a, Plains(parts), c);
    PlainsContent(parts);
    SplitParts(before + text, '\n');
    Assoc(Head(a), before, text);
    assert Content(doc) == (Head(a) + before) + text + Foot(c);
  }

  /** An insertion puts its text into the file. */
  lemma InsertHolds(doc: seq<Line>, name: string, text: string) returns (before: string)
    requires Matching(doc, name) > 0
    ensures before == doc[First(doc, name)].before
    ensures Holds(EditedInsert(doc, name, text), Split(before + text, '\n'))
  {
    var i := First(doc, name);
    var l := doc[i];
    before := l.before;
    var parts := Split(before + text, '\n');
    assert EditedInsert(doc, name, text) == doc[..i] + Plains(parts) + ([Marked("", l.tail)] + doc[i + 1..]);
    assert IsBlock(EditedInsert(doc, name, text), doc[..i], parts, [Marked("", l.tail)] + doc[i + 1..]);
  }

  /** No quote in the lines, and so no import. */
  lemma QuietSpares(before: string, text: string, e: Edit)
    requires '"' !in before && '"' !in text
    ensures Spares(e, Split(before + text, '\n'))
  {
    SplitChars(before + text, '\n', '"');
    if e.Import? {
      assert ImportLine(e.path)[7] == '"';
    }
  }

  lemma ImportNeedsQuiet(doc: seq<Line>, e: Edit, name: string)
    requires Supports(doc, e) && e.Import? && Matching(doc, name) > 0
    ensures '"' !in doc[First(doc, name)].before
  {
    assert StandsAlone(doc[First(doc, name)], ImportLine(e.path));
  }

  /** Whatever is scaffolded, and in whatever order: each text that one of the scaffolds inserts is in the file at
      the end, whole. */
  lemma InsertedTextsStay(kind: FileKind, doc: seq<Line>, moduleName: string, ss: seq<Scaffolding>, e: Edit)
    requires Ready(kind, doc, moduleName, ss) && e in AllEdits(kind, moduleName, ss) && e.Insert?
    ensures Occurs(ApplyAll(Content(doc), AllEdits(kind, moduleName, ss)), e.text)
  {
    var es := AllEdits(kind, moduleName, ss);
    ReadyRuns(kind, doc, moduleName, ss);
    var docs := NothingMissing(doc, es);
    var i :| 0 <= i < |es| && es[i] == e;
    assert IsStep(docs[i], es[i], docs[i + 1]) && Fine(kind, es[i]);
    var before := InsertHolds(docs[i], e.name, e.text);
    var parts := Split(before + e.text, '\n');
    forall k | 0 <= k < |es| ensures Spares(es[k], parts) {
      assert Fine(kind, es[k]);
      if es[k].Import? {
        SupportsLater(docs, es, i, k);
        ImportNeedsQuiet(docs[i], es[k], e.name);
        QuietSpares(before, e.text, es[k]);
      }
    }
    BlockStays(docs, es, parts, i + 1, |es|);
    BlockIsText(docs[|es|], before, e.text);
  }

  /** What the file held for an edit at first, it holds before every step. */
  lemma {:induction false} SupportsLater(docs: seq<seq<Line>>, es: seq<Edit>, n: nat, k: nat)
    requires IsTrace(docs, es) && Runnable(docs[0], es) && n <= |es| && k < |es|
    requires forall j :: 0 <= j < |docs| ==> FitsAll(docs[j])
    ensures Supports(docs[n], es[k])
  {
    if n > 0 {
      SupportsLater(docs, es, n - 1, k);
      assert IsStep(docs[n - 1], es[n - 1], docs[n]);
      EditKeeps(docs[n - 1], es[n - 1], es[k]);
    }
  }

  // ----- Every scaffold is there -----

  lemma {:induction false} EditsOfAll(kind: FileKind, moduleName: string, ss: seq<Scaffolding>, i: nat, e: Edit)
    requires i < |ss| && e in FileEdits(kind, moduleName, ss[i])
    ensures e in AllEdits(kind, moduleName, ss)
  {
    if i < |ss| - 1 {
      EditsOfAll(kind, moduleName, ss[..|ss| - 1], i, e);
    }
  }

  /** The edits a message asks for: its case in the handler, its two registrations, its RPC and its declaration. */
  lemma MessageAsks(moduleName: string, m: Message)
    ensures Insert(FIRST, HandlerText(m.name)) in FileEdits(HandlerFile, moduleName, AddMessage(m))
    ensures Insert(SECOND, ConcreteText(m.name, moduleName)) in FileEdits(CodecFile, moduleName, AddMessage(m))
    ensures Insert(THIRD, ImplementationText(m.name)) in FileEdits(CodecFile, moduleName, AddMessage(m))
    ensures Insert(TX_RPC, RPCText(m.name)) in FileEdits(TxFile, moduleName, AddMessage(m))
    ensures Insert(TX_MESSAGE, MessageText(m)) in FileEdits(TxFile, moduleName, AddMessage(m))
  {
    assert HandlerEdits(m.name)[1] == Insert(FIRST, HandlerText(m.name));
    assert CodecEdits(m.name, moduleName)[1] == Insert(SECOND, ConcreteText(m.name, moduleName));
    assert CodecEdits(m.name, moduleName)[2] == Insert(THIRD, ImplementationText(m.name));
    assert TxEdits(moduleName, m)[0] == Insert(TX_RPC, RPCText(m.name));
    assert TxEdits(moduleName, m)[1] == Insert(TX_MESSAGE, MessageText(m));
  }

  function RPCOf(name: string): string {
    "  rpc " + name + "(Msg" + name + ") returns (Msg" + name + "Response);"
  }

  /** After any scaffolds, the RPC and the declaration of each message among them are in tx.proto. */
  lemma MessagesAreThere(doc: seq<Line>, moduleName: string, ss: seq<Scaffolding>, i: nat)
    requires Ready(TxFile, doc, moduleName, ss) && i < |ss| && ss[i].AddMessage?
    ensures
      var now := ApplyAll(Content(doc), AllEdits(TxFile, moduleName, ss));
      Occurs(now, RPCOf(ss[i].message.name)) && Occurs(now, MessageText(ss[i].message))
  {
    var m := ss[i].message;
    MessageAsks(moduleName, m);
    EditsOfAll(TxFile, moduleName, ss, i, Insert(TX_RPC, RPCText(m.name)));
    EditsOfAll(TxFile, moduleName, ss, i, Insert(TX_MESSAGE, MessageText(m)));
    InsertedTextsStay(TxFile, doc, moduleName, ss, Insert(TX_RPC, RPCText(m.name)));
    InsertedTextsStay(TxFile, doc, moduleName, ss, Insert(TX_MESSAGE, MessageText(m)));
  }

  /** And each is dispatched by the handler, and registered twice by the codec. */
  lemma MessagesAreHandled(kind: FileKind, doc: seq<Line>, moduleName: string, ss: seq<Scaffolding>, i: nat)
    requires Ready(kind, doc, moduleName, ss) && i < |ss| && ss[i].AddMessage?
    ensures
      var now, name := ApplyAll(Content(doc), AllEdits(kind, moduleName, ss)), ss[i].message.name;
      && (kind.HandlerFile? ==> Occurs(now, HandlerText(name)))
      && (kind.CodecFile? ==> Occurs(now, ConcreteText(name, moduleName)) && Occurs(now, ImplementationText(name)))
  {
    var name := ss[i].message.name;
    MessageAsks(moduleName, ss[i].message);
    if kind.HandlerFile? {
      EditsOfAll(kind, moduleName, ss, i, Insert(FIRST, HandlerText(name)));
      InsertedTextsStay(kind, doc, moduleName, ss, Insert(FIRST, HandlerText(name)));
    } else if kind.CodecFile? {
      EditsOfAll(kind, moduleName, ss, i, Insert(SECOND, ConcreteText(name, moduleName)));
      EditsOfAll(kind, moduleName, ss, i, Insert(THIRD, ImplementationText(name)));
      InsertedTextsStay(kind, doc, moduleName, ss, Insert(SECOND, ConcreteText(name, moduleName)));
      InsertedTextsStay(kind, doc, moduleName, ss, Insert(THIRD, ImplementationText(name)));
    }
  }

  /** The messages of a packet are in packet.proto, and the message that sends it is in tx.proto. */
  lemma PacketsAreThere(kind: FileKind, doc: seq<Line>, moduleName: string, ss: seq<Scaffolding>, i: nat)
    requires Ready(kind, doc, moduleName, ss) && i < |ss| && ss[i].AddPacket?
    ensures
      var now, send := ApplyAll(Content(doc), AllEdits(kind, moduleName, ss)), ss[i].send;
      && (kind.PacketFile? ==> Occurs(now, PacketText(ss[i].packet)))
      && (kind.TxFile? && send.Some? ==>
           Occurs(now, RPCOf("Send" + send.value.upper)) && Occurs(now, SendText(send.value)))
      && (kind.HandlerFile? && send.Some? ==> Occurs(now, HandlerText("Send" + send.value.upper)))
      && (kind.CodecFile? && send.Some? ==>
           Occurs(now, ConcreteText("Send" + send.value.upper, moduleName))
           && Occurs(now, ImplementationText("Send" + send.value.upper)))
  {
    if kind.PacketFile? {
      PacketIsDeclared(doc, moduleName, ss, i);
    } else if ss[i].send.Some? {
      match kind
      case HandlerFile =>
        var name := "Send" + ss[i].send.value.upper;
        assert HandlerEdits(name)[1] == Insert(FIRST, HandlerText(name));
        EditsOfAll(kind, moduleName, ss, i, Insert(FIRST, HandlerText(name)));
        InsertedTextsStay(kind, doc, moduleName, ss, Insert(FIRST, HandlerText(name)));
      case CodecFile => SendIsRegistered(doc, moduleName, ss, i);
      case TxFile => SendIsDeclared(doc, moduleName, ss, i);
    }
  }

  lemma PacketIsDeclared(doc: seq<Line>, moduleName: string, ss: seq<Scaffolding>, i: nat)
    requires Ready(PacketFile, doc, moduleName, ss) && i < |ss| && ss[i].AddPacket?
    ensures Occurs(ApplyAll(Content(doc), AllEdits(PacketFile, moduleName, ss)), PacketText(ss[i].packet))
  {
    var edits := PacketEdits(moduleName, ss[i].packet);
    assert edits[|edits| - 1] == Insert(PACKET_MESSAGE, PacketText(ss[i].packet));
    EditsOfAll(PacketFile, moduleName, ss, i, edits[|edits| - 1]);
    InsertedTextsStay(PacketFile, doc, moduleName, ss, edits[|edits| - 1]);
  }

  lemma SendIsDeclared(doc: seq<Line>, moduleName: string, ss: seq<Scaffolding>, i: nat)
    requires Ready(TxFile, doc, moduleName, ss) && i < |ss| && ss[i].AddPacket? && ss[i].send.Some?
    ensures
      var now, send := ApplyAll(Content(doc), AllEdits(TxFile, moduleName, ss)), ss[i].send.value;
      Occurs(now, RPCOf("Send" + send.upper)) && Occurs(now, SendText(send))
  {
    var send := ss[i].send.value;
    var edits := SendEdits(moduleName, send);
    assert edits[0] == Insert(TX_RPC, RPCText("Send" + send.upper));
    assert edits[|edits| - 1] == Insert(TX_MESSAGE, SendText(send));
    EditsOfAll(TxFile, moduleName, ss, i, edits[0]);
    EditsOfAll(TxFile, moduleName, ss, i, edits[|edits| - 1]);
    InsertedTextsStay(TxFile, doc, moduleName, ss, edits[0]);
    InsertedTextsStay(TxFile, doc, moduleName, ss, edits[|edits| - 1]);
  }

  lemma SendIsRegistered(doc: seq<Line>, moduleName: string, ss: seq<Scaffolding>, i: nat)
    requires Ready(CodecFile, doc, moduleName, ss) && i < |ss| && ss[i].AddPacket? && ss[i].send.Some?
    ensures
      var now, name := ApplyAll(Content(doc), AllEdits(CodecFile, moduleName, ss)), "Send" + ss[i].send.value.upper;
      Occurs(now, ConcreteText(name, moduleName)) && Occurs(now, ImplementationText(name))
  {
    var name := "Send" + ss[i].send.value.upper;
    var concrete := Insert(SECOND, ConcreteText(name, moduleName));
    var implementation := Insert(THIRD, ImplementationText(name));
    assert CodecEdits(name, moduleName)[1] == concrete && CodecEdits(name, moduleName)[2] == implementation;
    EditsOfAll(CodecFile, moduleName, ss, i, concrete);
    EditsOfAll(CodecFile, moduleName, ss, i, implementation);
    InsertedTextsStay(CodecFile, doc, moduleName, ss, concrete);
    InsertedTextsStay(CodecFile, doc, moduleName, ss, implementation);
  }

  /** The scaffold adds a message: its own, or the one that sends a packet. */
  predicate AddsMessage(s: Scaffolding) {
    s.AddMessage? || s.send.Some?
  }

  /** Once a message was scaffolded, the handler creates its message server, and the codec imports the SDK. */
  lemma OnceTextsAreThere(kind: FileKind, doc: seq<Line>, moduleName: string, ss: seq<Scaffolding>, i: nat)
    requires Ready(kind, doc, moduleName, ss) && i < |ss| && AddsMessage(ss[i])
    ensures
      var now := ApplyAll(Content(doc), AllEdits(kind, moduleName, ss));
      && (kind.HandlerFile? ==> Count(now, NEW_MSG_SERVER) > 0)
      && (kind.CodecFile? ==> Count(now, SDK_IMPORT) > 0)
  {
    if kind.HandlerFile? || kind.CodecFile? {
      var edits := FileEdits(kind, moduleName, ss[i]);
      assert edits[0] == OnceOf(kind);
      EditsOfAll(kind, moduleName, ss, i, OnceOf(kind));
      OneTimeMarkers(kind, doc, moduleName, ss);
    }
  }

  // ----- Every import is asked for -----

  lemma {:induction false} AllImportsHold(moduleName: string, imports: seq<string>, customs: seq<string>, path: string)
    ensures path in AllImports(moduleName, imports, customs) <==>
            path in imports
            || exists i :: 0 <= i < |customs| && path == moduleName + "/" + customs[i] + ".proto"
  {
    if customs != [] {
      var n := |customs| - 1;
      AllImportsHold(moduleName, imports, customs[..n], path);
    }
  }

  lemma {:induction false} ImportEditsHold(name: string, paths: seq<string>, path: string)
    ensures Import(name, path) in ImportEdits(name, paths) <==> path in paths
  {
    if paths != [] {
      ImportEditsHold(name, paths[..|paths| - 1], path);
      assert paths == paths[..|paths| - 1] + [paths[|paths| - 1]];
    }
  }

  /** The imports a scaffold needs: those of its fields, and one for each custom type. */
  predicate Needs(moduleName: string, imports: seq<string>, customs: seq<string>, path: string) {
    path in imports || exists i :: 0 <= i < |customs| && path == moduleName + "/" + customs[i] + ".proto"
  }

  /** Each of them is asked for. */
  lemma ImportsAreAsked(moduleName: string, s: Scaffolding, path: string)
    ensures s.AddMessage? && Needs(moduleName, s.message.imports, s.message.customs, path) ==>
      Import(TX_IMPORT, path) in FileEdits(TxFile, moduleName, s)
    ensures s.AddPacket? && Needs(moduleName, s.packet.imports, s.packet.customs, path) ==>
      Import(PACKET_IMPORT, path) in FileEdits(PacketFile, moduleName, s)
    ensures s.AddPacket? && s.send.Some? && Needs(moduleName, s.send.value.imports, s.send.value.customs, path) ==>
      Import(TX_IMPORT, path) in FileEdits(TxFile, moduleName, s)
  {
    match s
    case AddMessage(m) =>
      AllImportsHold(moduleName, m.imports, m.customs, path);
      ImportEditsHold(TX_IMPORT, AllImports(moduleName, m.imports, m.customs), path);
    case AddPacket(p, send) =>
      AllImportsHold(moduleName, p.imports, p.customs, path);
      ImportEditsHold(PACKET_IMPORT, AllImports(moduleName, p.imports, p.customs), path);
      if send.Some? {
        AllImportsHold(moduleName, send.value.imports, send.value.customs, path);
        ImportEditsHold(TX_IMPORT, AllImports(moduleName, send.value.imports, send.value.customs), path);
      }
  }
}
