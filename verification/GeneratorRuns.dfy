/** Any number of message and packet scaffolds on the files of a module. */
module GeneratorRuns {
  import opened Markers
  import opened Scaffold
  import opened ScaffoldRuns
  import opened Generators

  /** The edits scaffolds make to a file of this kind. */
  predicate Allowed(kind: FileKind, e: Edit) {
    match kind
    case HandlerFile => e == Once(MSG_SERVER, NEW_MSG_SERVER) || (e.Insert? && e.name == FIRST)
    case CodecFile => e == Once(FIRST, SDK_IMPORT) || (e.Insert? && e.name in [SECOND, THIRD])
    case TxFile =>
      || (e.Insert? && e.name in [TX_RPC, TX_MESSAGE] && '"' !in e.text)
      || (e.Import? && e.name == TX_IMPORT)
    case PacketFile =>
      || (e.Field? && e.name == FIELD && e.number == FIELD_NUMBER)
      || (e.Insert? && e.name == PACKET_MESSAGE && '"' !in e.text)
      || (e.Import? && e.name == PACKET_IMPORT)
  }

  /** The markers the file was created with. */
  predicate HasMarkers(kind: FileKind, doc: seq<Line>) {
    match kind
    case HandlerFile => Supports(doc, Once(MSG_SERVER, NEW_MSG_SERVER)) && Matching(doc, FIRST) > 0
    case CodecFile => Supports(doc, Once(FIRST, SDK_IMPORT)) && Matching(doc, SECOND) > 0 && Matching(doc, THIRD) > 0
    case TxFile =>
      Matching(doc, TX_RPC) > 0 && Matching(doc, TX_MESSAGE) > 0 && Matching(doc, TX_IMPORT) > 0 && Bare(doc, TX_IMPORT)
    case PacketFile =>
      && Matching(doc, FIELD) > 0 && Matching(doc, PACKET_MESSAGE) > 0
      && Matching(doc, PACKET_IMPORT) > 0 && Bare(doc, PACKET_IMPORT)
  }

  lemma Apart(a: string, b: string, i: nat)
    requires i < |a| && i < |b| && a[i] != b[i]
    ensures Incomparable(a, b)
  {
  }

  lemma NamesApart()
    ensures Incomparable(MSG_SERVER, FIRST) && Incomparable(FIRST, SECOND) && Incomparable(FIRST, THIRD)
    ensures Incomparable(FIELD, PACKET_MESSAGE) && Incomparable(PACKET_MESSAGE, FIELD)
    ensures Incomparable(FIELD, PACKET_IMPORT) && Incomparable(PACKET_IMPORT, FIELD)
  {
    Apart(MSG_SERVER, FIRST, 0);
    Apart(FIRST, SECOND, 0);
    Apart(FIRST, THIRD, 0);
    Apart(FIELD, PACKET_MESSAGE, 17);
    Apart(PACKET_MESSAGE, FIELD, 17);
    Apart(FIELD, PACKET_IMPORT, 0);
    Apart(PACKET_IMPORT, FIELD, 0);
  }

  lemma FieldIsPrefix()
    ensures FIELD < FIELD_NUMBER && '\n' !in FIELD_NUMBER
  {
  }

  lemma AllowedCompatible(kind: FileKind, e: Edit, e': Edit)
    requires Allowed(kind, e) && Allowed(kind, e')
    ensures Compatible(e, e')
  {
    NamesApart();
    FieldIsPrefix();
  }

  /** Whatever scaffolds are run on a file that holds its markers, in whatever order and number, every edit
      finds its marker. */
  lemma ScaffoldsRun(kind: FileKind, doc: seq<Line>, es: seq<Edit>)
    requires FitsAll(doc) && HasMarkers(kind, doc)
    requires forall i :: 0 <= i < |es| ==> Allowed(kind, es[i]) && TextFits(es[i])
    requires forall i :: 0 <= i < |es| && es[i].Import? ==> StandAlone(doc, ImportLine(es[i].path))
    ensures Runnable(doc, es)
  {
    forall i | 0 <= i < |es| ensures Supports(doc, es[i]) {
      assert Allowed(kind, es[i]);
    }
    forall i, j | 0 <= i < |es| && 0 <= j < |es| ensures Compatible(es[i], es[j]) {
      AllowedCompatible(kind, es[i], es[j]);
    }
  }

  // ----- The generators stay within these edits -----

  predicate Clean(s: string) {
    forall c :: c in s ==> c != '#' && c != '\n' && c != '"'
  }

  predicate CleanFields(fields: seq<ProtoField>) {
    forall i :: 0 <= i < |fields| ==> Clean(fields[i].declaration) && Clean(fields[i].options)
  }

  /** Neither a marker nor a quote can come from text of this kind. */
  predicate Quiet(s: string) {
    '#' !in s && '"' !in s
  }

  lemma QuietJoin(s: string, t: string)
    requires Quiet(s) && Quiet(t)
    ensures Quiet(s + t)
  {
  }

  lemma FieldLineClean(f: ProtoField, index: nat)
    requires Clean(f.declaration) && Clean(f.options)
    ensures Quiet(FieldLine(f, index))
  {
  }

  lemma {:induction false} FieldTextClean(fields: seq<ProtoField>, start: nat)
    requires CleanFields(fields)
    ensures Quiet(FieldText(fields, start))
  {
    if fields != [] {
      var n := |fields| - 1;
      FieldTextClean(fields[..n], start);
      FieldLineClean(fields[n], start + n);
      QuietJoin(FieldText(fields[..n], start), FieldLine(fields[n], start + n));
    }
  }

  lemma MessageClean(m: Message)
    requires Clean(m.name) && Clean(m.signer) && CleanFields(m.fields) && CleanFields(m.results)
    ensures Quiet(MessageText(m))
  {
    FieldTextClean(m.fields, 2);
    FieldTextClean(m.results, 1);
    MessageWords();
  }

  lemma MessageWords()
    ensures Quiet("message Msg") && Quiet(" {\n  string ") && Quiet(" = 1;\n") && Quiet("}\n\nmessage Msg")
    ensures Quiet("Response {\n") && Quiet("}\n")
  {
  }

  lemma RPCClean(name: string)
    requires Clean(name)
    ensures Quiet(RPCText(name))
  {
    RPCWords();
  }

  lemma RPCWords()
    ensures Quiet("  rpc ") && Quiet("(Msg") && Quiet(") returns (Msg") && Quiet("Response);")
  {
  }

  lemma PacketClean(p: Packet)
    requires Clean(p.upper) && CleanFields(p.fields) && CleanFields(p.acks)
    ensures Quiet(PacketText(p))
  {
    FieldTextClean(p.fields, 1);
    FieldTextClean(p.acks, 1);
    PacketWords();
    PayloadWords();
    AcknowledgmentWords();
  }

  lemma PacketWords()
    ensures Quiet("// ") && Quiet("PacketData {\n") && Quiet("}\n\n") && Quiet("PacketAck {\n\t") && Quiet("}")
    ensures Quiet("message ")
  {
  }

  lemma PayloadWords()
    ensures Quiet("PacketData defines") && Quiet(" a struct for the") && Quiet(" packet payload\n")
  {
  }

  lemma AcknowledgmentWords()
    ensures Quiet("PacketAck defines") && Quiet(" packet") && Quiet(" acknowledgment\n")
  {
  }

  lemma EntryClean(p: Packet)
    requires Clean(p.upper) && Clean(p.lower)
    ensures Clean(PacketEntry(p))
  {
    assert Clean("\t\t\t\t") && Clean("PacketData ") && Clean("Packet = ");
  }

  predicate CleanPacket(p: Packet) {
    Clean(p.upper) && Clean(p.lower) && CleanFields(p.fields) && CleanFields(p.acks)
  }
}
