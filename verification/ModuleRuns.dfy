/** Any sequence of message and packet scaffolds, on each file of a module: no marker is ever missing. */
module ModuleRuns {
  import opened Text
  import opened Markers
  import opened Scaffold
  import opened ScaffoldText
  import opened ScaffoldRuns
  import opened Generators
  import opened GeneratorRuns

  // ----- The edits of a scaffold are among those its files allow -----

  predicate Fine(kind: FileKind, e: Edit) {
    Allowed(kind, e) && TextFits(e)
  }

  predicate AllFine(kind: FileKind, es: seq<Edit>) {
    forall i :: 0 <= i < |es| ==> Fine(kind, es[i])
  }

  lemma OneFine(kind: FileKind, e: Edit)
    requires Fine(kind, e)
    ensures AllFine(kind, [e])
  {
  }

  lemma JoinFine(kind: FileKind, a: seq<Edit>, b: seq<Edit>)
    requires AllFine(kind, a) && AllFine(kind, b)
    ensures AllFine(kind, a + b)
  {
  }

  lemma MarkerNames()
    ensures '\n' !in FIRST && '\n' !in SECOND && '\n' !in THIRD && '\n' !in MSG_SERVER
    ensures '\n' !in TX_RPC && '\n' !in TX_MESSAGE && '\n' !in PACKET_MESSAGE
  {
  }

  lemma ImportNames()
    ensures Clean(TX_IMPORT) && Clean(PACKET_IMPORT)
  {
  }

  lemma FieldNames()
    ensures '\n' !in FIELD && Clean(FIELD_NUMBER)
  {
  }

  predicate NoHash(s: string) {
    '#' !in s
  }

  lemma HandlerWords()
    ensures NoHash("case *types.Msg") && NoHash(":\n\t\t\t\t\tres, err := ") && NoHash("msgServer.")
    ensures NoHash("(sdk.WrapSDKContext(ctx), ") && NoHash("msg)\n\t\t\t\t\treturn ")
  {
  }

  lemma ResultWords()
    ensures NoHash("sdk.WrapServiceResult(") && NoHash("ctx, res, err)")
  {
  }

  lemma HandlerTextFits(name: string)
    requires NoHash(name)
    ensures NoHash(HandlerText(name))
  {
    HandlerWords();
    ResultWords();
  }

  lemma ConcreteWords()
    ensures NoHash("cdc.RegisterConcrete(") && NoHash("&Msg") && NoHash("{}, \"") && NoHash("/") && NoHash("\", nil)")
  {
  }

  lemma ImplementationWords()
    ensures NoHash("registry.") && NoHash("RegisterImplementations(") && NoHash("(*sdk.Msg)(nil),\n\t&Msg")
    ensures NoHash("{},\n)")
  {
  }

  lemma CodecTextFits(name: string, moduleName: string)
    requires NoHash(name) && NoHash(moduleName)
    ensures NoHash(ConcreteText(name, moduleName)) && NoHash(ImplementationText(name))
  {
    ConcreteWords();
    ImplementationWords();
  }

  lemma ServerWords()
    ensures Clean("msgServer := ") && Clean("keeper.NewMsgServerImpl(k)")
  {
  }

  predicate OneLine(s: string) {
    s != "" && '#' !in s && '\n' !in s
  }

  lemma ImportWords()
    ensures OneLine("sdk \"github.com/") && OneLine("cosmos/cosmos-sdk/types\"")
  {
  }

  lemma OnceTexts()
    ensures OneLine(NEW_MSG_SERVER) && OneLine(SDK_IMPORT)
  {
    ServerWords();
    ImportWords();
  }

  lemma HandlerFine(name: string)
    requires NoHash(name)
    ensures AllFine(HandlerFile, HandlerEdits(name))
  {
    HandlerTextFits(name);
    OnceTexts();
    MarkerNames();
    var once, insert := Once(MSG_SERVER, NEW_MSG_SERVER), Insert(FIRST, HandlerText(name));
    OneFine(HandlerFile, once);
    OneFine(HandlerFile, insert);
    JoinFine(HandlerFile, [once], [insert]);
    assert [once] + [insert] == HandlerEdits(name);
  }

  lemma CodecFine(name: string, moduleName: string)
    requires NoHash(name) && NoHash(moduleName)
    ensures AllFine(CodecFile, CodecEdits(name, moduleName))
  {
    CodecTextFits(name, moduleName);
    OnceTexts();
    MarkerNames();
    var once := Once(FIRST, SDK_IMPORT);
    var concrete, implementation :=
      Insert(SECOND, ConcreteText(name, moduleName)), Insert(THIRD, ImplementationText(name));
    OneFine(CodecFile, once);
    OneFine(CodecFile, concrete);
    OneFine(CodecFile, implementation);
    JoinFine(CodecFile, [once], [concrete]);
    JoinFine(CodecFile, [once] + [concrete], [implementation]);
    assert [once] + [concrete] + [implementation] == CodecEdits(name, moduleName);
  }

  // ----- Imports -----

  predicate AllClean(texts: seq<string>) {
    forall i :: 0 <= i < |texts| ==> Clean(texts[i])
  }

  lemma {:induction false} ImportPathsClean(moduleName: string, imports: seq<string>, customs: seq<string>)
    requires Clean(moduleName) && AllClean(imports) && AllClean(customs)
    ensures AllClean(AllImports(moduleName, imports, customs))
  {
    if customs != [] {
      var n := |customs| - 1;
      ImportPathsClean(moduleName, imports, customs[..n]);
      assert Clean("/") && Clean(".proto") && Clean(customs[n]);
      assert Clean(CustomImport(moduleName, customs[n]));
    }
  }

  predicate ImportName(kind: FileKind, name: string) {
    (kind.TxFile? && name == TX_IMPORT) || (kind.PacketFile? && name == PACKET_IMPORT)
  }

  lemma {:induction false} ImportsFine(kind: FileKind, name: string, paths: seq<string>)
    requires ImportName(kind, name) && AllClean(paths)
    ensures AllFine(kind, ImportEdits(name, paths))
  {
    if paths != [] {
      var n := |paths| - 1;
      ImportsFine(kind, name, paths[..n]);
      assert Clean(paths[n]);
      ImportNames();
      OneFine(kind, Import(name, paths[n]));
      JoinFine(kind, ImportEdits(name, paths[..n]), [Import(name, paths[n])]);
    }
  }

  // ----- The proto files -----

  predicate CleanMessage(m: Message) {
    Clean(m.name) && Clean(m.signer) && CleanFields(m.fields) && CleanFields(m.results)
    && AllClean(m.imports) && AllClean(m.customs)
  }

  predicate CleanSend(s: Send) {
    Clean(s.upper) && Clean(s.signer) && CleanFields(s.fields) && AllClean(s.imports) && AllClean(s.customs)
  }

  lemma InsertFine(kind: FileKind, name: string, text: string)
    requires Quiet(text)
    requires (kind.TxFile? && name in [TX_RPC, TX_MESSAGE]) || (kind.PacketFile? && name == PACKET_MESSAGE)
    ensures AllFine(kind, [Insert(name, text)])
  {
    MarkerNames();
    OneFine(kind, Insert(name, text));
  }

  lemma TxFine(moduleName: string, m: Message)
    requires Clean(moduleName) && CleanMessage(m)
    ensures AllFine(TxFile, TxEdits(moduleName, m))
  {
    RPCClean(m.name);
    MessageClean(m);
    InsertFine(TxFile, TX_RPC, RPCText(m.name));
    InsertFine(TxFile, TX_MESSAGE, MessageText(m));
    JoinFine(TxFile, [Insert(TX_RPC, RPCText(m.name))], [Insert(TX_MESSAGE, MessageText(m))]);
    ImportPathsClean(moduleName, m.imports, m.customs);
    var paths := AllImports(moduleName, m.imports, m.customs);
    ImportsFine(TxFile, TX_IMPORT, paths);
    JoinFine(TxFile, [Insert(TX_RPC, RPCText(m.name))] + [Insert(TX_MESSAGE, MessageText(m))],
             ImportEdits(TX_IMPORT, paths));
    assert [Insert(TX_RPC, RPCText(m.name))] + [Insert(TX_MESSAGE, MessageText(m))] + ImportEdits(TX_IMPORT, paths)
        == TxEdits(moduleName, m);
  }

  lemma SendWords()
    ensures Quiet("message MsgSend") && Quiet(" {\n  string ") && Quiet(" = 1;\n")
  {
  }

  lemma ChannelWords()
    ensures Quiet("  string port = 2;\n") && Quiet("  string channelID = 3;\n") && Quiet("  uint64 ")
  {
  }

  lemma TimeoutWords()
    ensures Quiet("timeoutTimestamp = 4;\n") && Quiet("}\n\n") && Quiet("Response {\n") && Quiet("}") && Clean("Send")
  {
  }

  lemma SendClean(s: Send)
    requires CleanSend(s)
    ensures Quiet(SendText(s)) && Clean("Send" + s.upper)
  {
    FieldTextClean(s.fields, 5);
    SendWords();
    ChannelWords();
    TimeoutWords();
  }

  lemma SendFine(moduleName: string, s: Send)
    requires Clean(moduleName) && CleanSend(s)
    ensures AllFine(TxFile, SendEdits(moduleName, s))
  {
    SendClean(s);
    RPCClean("Send" + s.upper);
    var rpc, text := Insert(TX_RPC, RPCText("Send" + s.upper)), Insert(TX_MESSAGE, SendText(s));
    InsertFine(TxFile, TX_RPC, rpc.text);
    InsertFine(TxFile, TX_MESSAGE, text.text);
    ImportPathsClean(moduleName, s.imports, s.customs);
    var paths := AllImports(moduleName, s.imports, s.customs);
    ImportsFine(TxFile, TX_IMPORT, paths);
    JoinFine(TxFile, [rpc], ImportEdits(TX_IMPORT, paths));
    JoinFine(TxFile, [rpc] + ImportEdits(TX_IMPORT, paths), [text]);
  }

  predicate WholePacket(p: Packet) {
    CleanPacket(p) && AllClean(p.imports) && AllClean(p.customs)
  }

  lemma PacketFine(moduleName: string, p: Packet)
    requires Clean(moduleName) && WholePacket(p)
    ensures AllFine(PacketFile, PacketEdits(moduleName, p))
  {
    PacketClean(p);
    EntryClean(p);
    FieldNames();
    var entry := Field(FIELD, FIELD_NUMBER, PacketEntry(p));
    OneFine(PacketFile, entry);
    InsertFine(PacketFile, PACKET_MESSAGE, PacketText(p));
    ImportPathsClean(moduleName, p.imports, p.customs);
    var paths := AllImports(moduleName, p.imports, p.customs);
    ImportsFine(PacketFile, PACKET_IMPORT, paths);
    JoinFine(PacketFile, [entry], ImportEdits(PACKET_IMPORT, paths));
    JoinFine(PacketFile, [entry] + ImportEdits(PACKET_IMPORT, paths), [Insert(PACKET_MESSAGE, PacketText(p))]);
  }

  // ----- Whole runs -----

  predicate CleanScaffolding(s: Scaffolding) {
    match s
    case AddMessage(m) => CleanMessage(m)
    case AddPacket(p, send) => WholePacket(p) && (send.Some? ==> CleanSend(send.value))
  }

  lemma FileEditsFine(kind: FileKind, moduleName: string, s: Scaffolding)
    requires Clean(moduleName) && CleanScaffolding(s)
    ensures AllFine(kind, FileEdits(kind, moduleName, s))
  {
    match s
    case AddMessage(m) =>
      match kind {
        case HandlerFile => HandlerFine(m.name);
        case CodecFile => CodecFine(m.name, moduleName);
        case TxFile => TxFine(moduleName, m);
        case PacketFile =>
      }
    case AddPacket(p, send) =>
      if kind.PacketFile? {
        PacketFine(moduleName, p);
      } else if send.Some? {
        SendClean(send.value);
        match kind
        case HandlerFile => HandlerFine("Send" + send.value.upper);
        case CodecFile => CodecFine("Send" + send.value.upper, moduleName);
        case TxFile => SendFine(moduleName, send.value);
      }
  }

  lemma {:induction false} AllEditsFine(kind: FileKind, moduleName: string, ss: seq<Scaffolding>)
    requires Clean(moduleName) && forall i :: 0 <= i < |ss| ==> CleanScaffolding(ss[i])
    ensures AllFine(kind, AllEdits(kind, moduleName, ss))
  {
    if ss != [] {
      var n := |ss| - 1;
      AllEditsFine(kind, moduleName, ss[..n]);
      FileEditsFine(kind, moduleName, ss[n]);
      JoinFine(kind, AllEdits(kind, moduleName, ss[..n]), FileEdits(kind, moduleName, ss[n]));
    }
  }

  /** A file with its markers, and scaffolds with names and fields free of markers, line breaks and quotes; no
      line of the file begins like an import that a scaffold adds without being it. */
  predicate Ready(kind: FileKind, doc: seq<Line>, moduleName: string, ss: seq<Scaffolding>) {
    && FitsAll(doc) && HasMarkers(kind, doc)
    && Clean(moduleName) && (forall i :: 0 <= i < |ss| ==> CleanScaffolding(ss[i]))
    && var es := AllEdits(kind, moduleName, ss);
       forall i :: 0 <= i < |es| && es[i].Import? ==> StandAlone(doc, ImportLine(es[i].path))
  }

  lemma ReadyRuns(kind: FileKind, doc: seq<Line>, moduleName: string, ss: seq<Scaffolding>)
    requires Ready(kind, doc, moduleName, ss)
    ensures Runnable(doc, AllEdits(kind, moduleName, ss)) && AllFine(kind, AllEdits(kind, moduleName, ss))
  {
    var es := AllEdits(kind, moduleName, ss);
    AllEditsFine(kind, moduleName, ss);
    assert forall i :: 0 <= i < |es| ==> Fine(kind, es[i]);
    ScaffoldsRun(kind, doc, es);
  }

  /** The markers of a file that stay for the next scaffold. */
  function Reusable(kind: FileKind): seq<string> {
    match kind
    case HandlerFile => [FIRST]
    case CodecFile => [SECOND, THIRD]
    case TxFile => [TX_RPC, TX_MESSAGE, TX_IMPORT]
    case PacketFile => [PACKET_MESSAGE, PACKET_IMPORT]
  }

  lemma AllowedKeepsCount(kind: FileKind, e: Edit, name: string)
    requires Allowed(kind, e) && name in Reusable(kind)
    ensures KeepsCount(e, name)
  {
    NamesApart();
    FieldIsPrefix();
  }

  /** Whatever messages and packets are scaffolded, in whatever order: the tracer never reports a missing
      marker, and every reusable marker keeps its number of occurrences. */
  lemma MarkersAreNeverMissing(kind: FileKind, doc: seq<Line>, moduleName: string, ss: seq<Scaffolding>, name: string)
    requires Ready(kind, doc, moduleName, ss) && name in Reusable(kind)
    ensures
      var content, es := Content(doc), AllEdits(kind, moduleName, ss);
      MissesAll(content, es) == {} && Count(ApplyAll(content, es), Marker(name)) == Count(content, Marker(name))
  {
    var es := AllEdits(kind, moduleName, ss);
    ReadyRuns(kind, doc, moduleName, ss);
    forall i | 0 <= i < |es| ensures KeepsCount(es[i], name) {
      assert Fine(kind, es[i]);
      AllowedKeepsCount(kind, es[i], name);
    }
    MarkerNames();
    ImportNames();
    MarkersSurvive(doc, es, name);
  }

  // ----- One-time markers -----

  /** The one-time edit of a file. */
  function OnceOf(kind: FileKind): Edit
    requires kind.HandlerFile? || kind.CodecFile?
  {
    if kind.HandlerFile? then Once(MSG_SERVER, NEW_MSG_SERVER) else Once(FIRST, SDK_IMPORT)
  }

  lemma AllowedOnce(kind: FileKind, e: Edit)
    requires (kind.HandlerFile? || kind.CodecFile?) && Allowed(kind, e)
    ensures e == OnceOf(kind) || KeepsCount(e, OnceOf(kind).name)
    ensures !e.Import?
  {
  }

  lemma OnceMatching(doc: seq<Line>, name: string, text: string)
    requires text != "" && Matching(doc, name) > 0
    ensures Matching(EditedOnce(doc, name, text), name) ==
            Matching(doc, name) - (if PresentPlain(doc, text) then 0 else 1)
  {
    if !PresentPlain(doc, text) {
      var lines := OnceLines(doc[First(doc, name)], name, text);
      AtFirstMatching(doc, name, lines, name);
      assert lines[1..] == [];
    }
  }

  /** The marker is as it was, or it was used up once and its text is there. */
  predicate UsedAtMostOnce(first: seq<Line>, doc: seq<Line>, o: Edit)
    requires o.Once? && o.text != ""
  {
    Matching(doc, o.name) == Matching(first, o.name)
    || (Matching(doc, o.name) == Matching(first, o.name) - 1 && PresentPlain(doc, o.text))
  }

  lemma OnceStep(first: seq<Line>, doc: seq<Line>, e: Edit, o: Edit)
    requires o.Once? && o.text != "" && TextFits(o) && FitsAll(doc)
    requires Supports(doc, e) && Supports(doc, o) && !e.Import?
    requires (e == o || KeepsCount(e, o.name)) && UsedAtMostOnce(first, doc, o)
    ensures UsedAtMostOnce(first, Edited(doc, e), o)
    ensures e == o || PresentPlain(doc, o.text) ==> PresentPlain(Edited(doc, e), o.text)
  {
    if PresentPlain(doc, o.text) {
      KeepsPresent(doc, e, o.text);
    }
    if e == o {
      OnceRefines(doc, o.name, o.text);
      if !PresentPlain(doc, o.text) {
        OnceMatching(doc, o.name, o.text);
      }
    } else {
      MatchingEdited(doc, e, o.name);
    }
  }

  predicate OnceState(first: seq<Line>, doc: seq<Line>, o: Edit)
    requires o.Once? && o.text != ""
  {
    FitsAll(doc) && Supports(doc, o) && UsedAtMostOnce(first, doc, o)
  }

  lemma OnceStateStep(kind: FileKind, first: seq<Line>, doc: seq<Line>, e: Edit, now: seq<Line>, o: Edit)
    requires (kind.HandlerFile? || kind.CodecFile?) && o == OnceOf(kind) && Fine(kind, o) && Fine(kind, e)
    requires o.text != "" && IsStep(doc, e, now) && FitsAll(doc) && FitsAll(now)
    ensures OnceState(first, doc, o) ==> OnceState(first, now, o)
    ensures OnceState(first, doc, o) && (e == o || PresentPlain(doc, o.text)) ==> PresentPlain(now, o.text)
  {
    AllowedOnce(kind, e);
    if OnceState(first, doc, o) {
      AllowedCompatible(kind, e, o);
      EditKeeps(doc, e, o);
      OnceStep(first, doc, e, o);
    }
  }

  /** What every step keeps, all keep; what one step brings about, stays. */
  lemma {:induction false} KeptAndBrought(kept: seq<bool>, brought: seq<bool>, brings: seq<bool>, n: nat)
    requires |kept| == |brought| == |brings| + 1 && n <= |brings| && kept[0]
    requires forall k :: 0 <= k < |brings| ==> (kept[k] ==> kept[k + 1])
    requires forall k :: 0 <= k < |brings| ==> (kept[k] && (brings[k] || brought[k]) ==> brought[k + 1])
    ensures kept[n] && forall i :: 0 <= i < n && brings[i] ==> brought[n]
  {
    if n > 0 {
      KeptAndBrought(kept, brought, brings, n - 1);
    }
  }

  lemma OnceIsFine(kind: FileKind)
    requires kind.HandlerFile? || kind.CodecFile?
    ensures Fine(kind, OnceOf(kind)) && OnceOf(kind).text != ""
  {
    OnceTexts();
    MarkerNames();
  }

  lemma Occurs(doc: seq<Line>, o: Edit)
    requires o.Once? && o.text != "" && TextFits(o) && PresentPlain(doc, o.text)
    ensures Count(Content(doc), o.text) > 0
  {
    PresentCount(doc, o.text);
  }

  /** A one-time marker is used up at most once, however often the scaffolds ask for it, and then its text is in
      the file. */
  lemma OneTimeMarkers(kind: FileKind, doc: seq<Line>, moduleName: string, ss: seq<Scaffolding>)
    requires Ready(kind, doc, moduleName, ss) && (kind.HandlerFile? || kind.CodecFile?)
    ensures
      var before, o, es := Content(doc), OnceOf(kind), AllEdits(kind, moduleName, ss);
      var after := ApplyAll(before, es);
      var had, has := Count(before, Marker(o.name)), Count(after, Marker(o.name));
      && o.text != "" && (has == had || (has == had - 1 && Count(after, o.text) > 0))
      && (o in es ==> Count(after, o.text) > 0)
  {
    var o, es := OnceOf(kind), AllEdits(kind, moduleName, ss);
    OnceIsFine(kind);
    ReadyRuns(kind, doc, moduleName, ss);
    var docs := NothingMissing(doc, es);
    OnceTrace(kind, docs, es, o);
    var last := docs[|es|];
    if PresentPlain(last, o.text) {
      Occurs(last, o);
    }
    CountInContent(doc, o.name);
    CountInContent(last, o.name);
  }

  /** The k-th document is as the one-time edit needs it; its text is there. */
  predicate Kept(docs: seq<seq<Line>>, o: Edit, k: nat)
    requires k < |docs| && o.Once? && o.text != ""
  {
    OnceState(docs[0], docs[k], o)
  }

  lemma OnceRow(kind: FileKind, docs: seq<seq<Line>>, es: seq<Edit>, o: Edit, k: nat)
    requires (kind.HandlerFile? || kind.CodecFile?) && o == OnceOf(kind) && Fine(kind, o) && o.text != ""
    requires IsTrace(docs, es) && k < |es| && Fine(kind, es[k]) && FitsAll(docs[k]) && FitsAll(docs[k + 1])
    ensures Kept(docs, o, k) ==> Kept(docs, o, k + 1)
    ensures Kept(docs, o, k) && (es[k] == o || PresentPlain(docs[k], o.text)) ==> PresentPlain(docs[k + 1], o.text)
  {
    assert IsStep(docs[k], es[k], docs[k + 1]);
    OnceStateStep(kind, docs[0], docs[k], es[k], docs[k + 1], o);
  }

  lemma OnceRows(kind: FileKind, docs: seq<seq<Line>>, es: seq<Edit>, o: Edit)
    returns (kept: seq<bool>, brought: seq<bool>, brings: seq<bool>)
    requires (kind.HandlerFile? || kind.CodecFile?) && o == OnceOf(kind) && Fine(kind, o) && o.text != ""
    requires IsTrace(docs, es) && AllFine(kind, es) && forall k :: 0 <= k < |docs| ==> FitsAll(docs[k])
    ensures |kept| == |brought| == |docs| && |brings| == |es|
    ensures forall k :: 0 <= k < |docs| ==> kept[k] == Kept(docs, o, k) && brought[k] == PresentPlain(docs[k], o.text)
    ensures forall k :: 0 <= k < |es| ==> brings[k] == (es[k] == o)
    ensures forall k :: 0 <= k < |es| ==> (kept[k] ==> kept[k + 1])
    ensures forall k :: 0 <= k < |es| ==> (kept[k] && (brings[k] || brought[k]) ==> brought[k + 1])
  {
    kept := seq(|docs|, k requires 0 <= k < |docs| => Kept(docs, o, k));
    brought := seq(|docs|, k requires 0 <= k < |docs| => PresentPlain(docs[k], o.text));
    brings := seq(|es|, k requires 0 <= k < |es| => es[k] == o);
    forall k | 0 <= k < |es|
      ensures (kept[k] ==> kept[k + 1]) && (kept[k] && (brings[k] || brought[k]) ==> brought[k + 1])
    {
      assert Fine(kind, es[k]);
      OnceRow(kind, docs, es, o, k);
    }
  }

  lemma OnceTrace(kind: FileKind, docs: seq<seq<Line>>, es: seq<Edit>, o: Edit)
    requires (kind.HandlerFile? || kind.CodecFile?) && o == OnceOf(kind) && Fine(kind, o) && o.text != ""
    requires IsTrace(docs, es) && AllFine(kind, es) && Supports(docs[0], o)
    requires forall k :: 0 <= k < |docs| ==> FitsAll(docs[k])
    ensures UsedAtMostOnce(docs[0], docs[|es|], o) && (o in es ==> PresentPlain(docs[|es|], o.text))
  {
    var kept, brought, brings := OnceRows(kind, docs, es, o);
    KeptAndBrought(kept, brought, brings, |es|);
    if o in es {
      var i :| 0 <= i < |es| && es[i] == o;
      assert brings[i];
    }
  }
}
