/** The generators of messages and packets: the edits they make to each file, through the tracer. */
module Generators {
  import opened Common
  import opened Text
  import opened Decimal
  import opened Placeholder
  import opened Scaffold

  const FIRST := "1"
  const SECOND := "2"
  const THIRD := "3"
  const MSG_SERVER := "handler/msgServer"
  const TX_RPC := "proto/tx/rpc"
  const TX_MESSAGE := "proto/tx/message"
  const TX_IMPORT := "proto/tx/import"
  const PACKET_IMPORT := "proto/packet/import"
  const FIELD := "ibc/packet/proto/field"
  const FIELD_NUMBER := "ibc/packet/proto/field/number"
  const PACKET_MESSAGE := "ibc/packet/proto/message"

  const NEW_MSG_SERVER := "msgServer := " + "keeper.NewMsgServerImpl(k)"
  const SDK_IMPORT := "sdk \"github.com/" + "cosmos/cosmos-sdk/types\""

  /** A proto field: what comes before and after its index. */
  datatype ProtoField = ProtoField(declaration: string, options: string)

  function FieldLine(f: ProtoField, index: nat): string {
    "  " + f.declaration + " = " + Digits(index) + f.options + ";\n"
  }

  /** The field declarations of a message, numbered from `start`. */
  function FieldText(fields: seq<ProtoField>, start: nat): string {
    if fields == [] then ""
    else FieldText(fields[..|fields| - 1], start) + FieldLine(fields[|fields| - 1], start + |fields| - 1)
  }

  method BuildFields(fields: seq<ProtoField>, start: nat) returns (text: string)
    ensures text == FieldText(fields, start)
  {
    text := "";
    for i := 0 to |fields|
      invariant text == FieldText(fields[..i], start)
    {
      assert fields[..i + 1][..i] == fields[..i];
      text := text + FieldLine(fields[i], i + start);
    }
    assert fields[..|fields|] == fields;
  }

  datatype Message = Message(name: string, signer: string, fields: seq<ProtoField>, results: seq<ProtoField>,
                             imports: seq<string>, customs: seq<string>)

  datatype Packet = Packet(upper: string, lower: string, fields: seq<ProtoField>, acks: seq<ProtoField>,
                           imports: seq<string>, customs: seq<string>)

  /** The message that sends a packet. */
  datatype Send = Send(upper: string, signer: string, fields: seq<ProtoField>,
                       imports: seq<string>, customs: seq<string>)

  // ----- The edits, file by file -----

  function HandlerText(name: string): string {
    "case *types.Msg" + name + ":\n\t\t\t\t\tres, err := " + "msgServer." + name + "(sdk.WrapSDKContext(ctx), "
    + "msg)\n\t\t\t\t\treturn " + "sdk.WrapServiceResult(" + "ctx, res, err)"
  }

  function HandlerEdits(name: string): seq<Edit> {
    [Once(MSG_SERVER, NEW_MSG_SERVER), Insert(FIRST, HandlerText(name))]
  }

  function ConcreteText(name: string, moduleName: string): string {
    "cdc.RegisterConcrete(" + "&Msg" + name + "{}, \"" + moduleName + "/" + name + "\", nil)"
  }

  function ImplementationText(name: string): string {
    "registry." + "RegisterImplementations(" + "(*sdk.Msg)(nil),\n\t&Msg" + name + "{},\n)"
  }

  function CodecEdits(name: string, moduleName: string): seq<Edit> {
    [Once(FIRST, SDK_IMPORT), Insert(SECOND, ConcreteText(name, moduleName)), Insert(THIRD, ImplementationText(name))]
  }

  function RPCText(name: string): string {
    "  rpc " + name + "(Msg" + name + ") returns (Msg" + name + "Response);"
  }

  function MessageWith(m: Message, msgFields: string, resFields: string): string {
    "message Msg" + m.name + " {\n  string " + m.signer + " = 1;\n" + msgFields + "}\n\nmessage Msg"
    + m.name + "Response {\n" + resFields + "}\n"
  }

  function MessageText(m: Message): string {
    MessageWith(m, FieldText(m.fields, 2), FieldText(m.results, 1))
  }

  function CustomImport(moduleName: string, custom: string): string {
    moduleName + "/" + custom + ".proto"
  }

  function AllImports(moduleName: string, imports: seq<string>, customs: seq<string>): seq<string> {
    if customs == [] then imports
    else AllImports(moduleName, imports, customs[..|customs| - 1]) + [CustomImport(moduleName, customs[|customs| - 1])]
  }

  function ImportEdits(name: string, paths: seq<string>): seq<Edit> {
    if paths == [] then [] else ImportEdits(name, paths[..|paths| - 1]) + [Import(name, paths[|paths| - 1])]
  }

  /** tx.proto, for a message: the RPC, the message, then the imports. */
  function TxEdits(moduleName: string, m: Message): seq<Edit> {
    [Insert(TX_RPC, RPCText(m.name)), Insert(TX_MESSAGE, MessageText(m))]
    + ImportEdits(TX_IMPORT, AllImports(moduleName, m.imports, m.customs))
  }

  function SendWith(s: Send, sendFields: string): string {
    "message MsgSend" + s.upper + " {\n  string " + s.signer + " = 1;\n" + "  string port = 2;\n"
    + "  string channelID = 3;\n" + "  uint64 " + "timeoutTimestamp = 4;\n" + sendFields
    + "}\n\n" + "message MsgSend" + s.upper + "Response {\n" + "}"
  }

  function SendText(s: Send): string {
    SendWith(s, FieldText(s.fields, 5))
  }

  /** tx.proto, for a packet: the RPC, the imports, then the message that sends it. */
  function SendEdits(moduleName: string, s: Send): seq<Edit> {
    [Insert(TX_RPC, RPCText("Send" + s.upper))]
    + ImportEdits(TX_IMPORT, AllImports(moduleName, s.imports, s.customs))
    + [Insert(TX_MESSAGE, SendText(s))]
  }

  function PacketEntry(p: Packet): string {
    "\t\t\t\t" + p.upper + "PacketData " + p.lower + "Packet = "
  }

  function PacketWith(p: Packet, packetFields: string, ackFields: string): string {
    "// " + p.upper + "PacketData defines" + " a struct for the" + " packet payload\n"
    + "message " + p.upper + "PacketData {\n" + packetFields + "}\n\n"
    + "// " + p.upper + "PacketAck defines" + " a struct for the" + " packet" + " acknowledgment\n"
    + "message " + p.upper + "PacketAck {\n\t" + ackFields + "}"
  }

  function PacketText(p: Packet): string {
    PacketWith(p, FieldText(p.fields, 1), FieldText(p.acks, 1))
  }

  /** packet.proto: the oneof entry, the imports, then the messages of the packet. */
  function PacketEdits(moduleName: string, p: Packet): seq<Edit> {
    [Field(FIELD, FIELD_NUMBER, PacketEntry(p))]
    + ImportEdits(PACKET_IMPORT, AllImports(moduleName, p.imports, p.customs))
    + [Insert(PACKET_MESSAGE, PacketText(p))]
  }

  // ----- Running them -----

  lemma {:induction false} ApplyAllLast(content: string, es: seq<Edit>, e: Edit)
    ensures ApplyAll(content, es + [e]) == Apply(ApplyAll(content, es), e)
    ensures MissesAll(content, es + [e]) == MissesAll(content, es) + Misses(ApplyAll(content, es), e)
    decreases |es|
  {
    if es == [] {
      OneEdit(content, e);
      assert es + [e] == [e];
    } else {
      assert (es + [e])[1..] == es[1..] + [e];
      ApplyAllLast(Apply(content, es[0]), es[1..], e);
    }
  }

  lemma OneEdit(content: string, e: Edit)
    ensures ApplyAll(content, [e]) == Apply(content, e) && MissesAll(content, [e]) == Misses(content, e)
  {
  }

  /** One edit, as calls of the tracer. */
  method ApplyEdit(t: Tracer, content: string, e: Edit) returns (r: string)
    requires e.Once? ==> e.text != ""
    modifies t`missing
    ensures r == Apply(content, e)
    ensures t.missing == old(t.missing) + Misses(content, e)
  {
    match e
    case Insert(name, text) =>
      r := t.Replace(content, Marker(name), text + "\n" + Marker(name));
    case Once(name, text) =>
      r := t.ReplaceOnce(content, Marker(name), text);
    case Import(name, path) =>
      var rest := ReplaceAll(content, "\n" + ImportLine(path), "");
      r := t.Replace(rest, Marker(name), Marker(name) + "\n" + ImportLine(path));
    case Field(name, number, entry) =>
      var count := Count(content, Marker(number));
      r := t.Replace(content, Marker(name), NumberedBlock(name, FieldEntry(entry, count + 2), number));
  }

  /** A generator with a fixed list of edits: handler.go, codec.go, the RPC of tx.proto. */
  method Generate(t: Tracer, content: string, es: seq<Edit>) returns (r: string)
    requires forall i :: 0 <= i < |es| && es[i].Once? ==> es[i].text != ""
    modifies t`missing
    ensures r == ApplyAll(content, es)
    ensures t.missing == old(t.missing) + MissesAll(content, es)
  {
    r := content;
    for i := 0 to |es|
      invariant r == ApplyAll(content, es[..i])
      invariant t.missing == old(t.missing) + MissesAll(content, es[..i])
    {
      assert es[..i + 1] == es[..i] + [es[i]];
      ApplyAllLast(content, es[..i], es[i]);
      r := ApplyEdit(t, r, es[i]);
    }
    assert es[..|es|] == es;
  }

  /** The imports a file needs: those of the fields, then one for each custom type of the module. */
  method CollectImports(moduleName: string, imports: seq<string>, customs: seq<string>) returns (paths: seq<string>)
    ensures paths == AllImports(moduleName, imports, customs)
  {
    paths := imports;
    for i := 0 to |customs|
      invariant paths == AllImports(moduleName, imports, customs[..i])
    {
      assert customs[..i + 1][..i] == customs[..i];
      paths := paths + [CustomImport(moduleName, customs[i])];
    }
    assert customs[..|customs|] == customs;
  }

  /** The import loop. */
  method ModifyImports(t: Tracer, content: string, name: string, paths: seq<string>) returns (r: string)
    modifies t`missing
    ensures r == ApplyAll(content, ImportEdits(name, paths))
    ensures t.missing == old(t.missing) + MissesAll(content, ImportEdits(name, paths))
  {
    r := content;
    for i := 0 to |paths|
      invariant r == ApplyAll(content, ImportEdits(name, paths[..i]))
      invariant t.missing == old(t.missing) + MissesAll(content, ImportEdits(name, paths[..i]))
    {
      assert paths[..i + 1][..i] == paths[..i];
      ApplyAllLast(content, ImportEdits(name, paths[..i]), Import(name, paths[i]));
      r := ApplyEdit(t, r, Import(name, paths[i]));
    }
    assert paths[..|paths|] == paths;
  }

  lemma {:induction false} ApplyAllConcat(content: string, a: seq<Edit>, b: seq<Edit>)
    ensures ApplyAll(content, a + b) == ApplyAll(ApplyAll(content, a), b)
    ensures MissesAll(content, a + b) == MissesAll(content, a) + MissesAll(ApplyAll(content, a), b)
    decreases |a|
  {
    if a == [] {
      assert a + b == b;
    } else {
      assert (a + b)[1..] == a[1..] + b;
      ApplyAllConcat(Apply(content, a[0]), a[1..], b);
    }
  }

  /** protoModify: number the packet by counting markers, add its entry, its imports and its messages. */
  method ProtoModify(t: Tracer, content: string, moduleName: string, p: Packet) returns (r: string)
    modifies t`missing
    ensures r == ApplyAll(content, PacketEdits(moduleName, p))
    ensures t.missing == old(t.missing) + MissesAll(content, PacketEdits(moduleName, p))
  {
    var entry := Field(FIELD, FIELD_NUMBER, PacketEntry(p));
    var withEntry := ApplyEdit(t, content, entry);
    var packetFields := BuildFields(p.fields, 1);
    var ackFields := BuildFields(p.acks, 1);
    var paths := CollectImports(moduleName, p.imports, p.customs);
    var withImports := ModifyImports(t, withEntry, PACKET_IMPORT, paths);
    var text := Insert(PACKET_MESSAGE, PacketWith(p, packetFields, ackFields));
    r := ApplyEdit(t, withImports, text);
    ghost var middle := ImportEdits(PACKET_IMPORT, paths);
    OneEdit(content, entry);
    ApplyAllConcat(content, [entry], middle);
    ApplyAllLast(content, [entry] + middle, text);
  }

  /** protoTxRPCModify and protoTxMessageModify, one after the other on tx.proto. */
  method ProtoTxModify(t: Tracer, content: string, moduleName: string, m: Message) returns (r: string)
    modifies t`missing
    ensures r == ApplyAll(content, TxEdits(moduleName, m))
    ensures t.missing == old(t.missing) + MissesAll(content, TxEdits(moduleName, m))
  {
    var msgFields := BuildFields(m.fields, 2);
    var resFields := BuildFields(m.results, 1);
    var first := [Insert(TX_RPC, RPCText(m.name)), Insert(TX_MESSAGE, MessageWith(m, msgFields, resFields))];
    r := Generate(t, content, first);
    var paths := CollectImports(moduleName, m.imports, m.customs);
    r := ModifyImports(t, r, TX_IMPORT, paths);
    ApplyAllConcat(content, first, ImportEdits(TX_IMPORT, paths));
  }

  /** protoTxModify: the same two markers and the imports, with the imports in between. */
  method ProtoTxSendModify(t: Tracer, content: string, moduleName: string, s: Send) returns (r: string)
    modifies t`missing
    ensures r == ApplyAll(content, SendEdits(moduleName, s))
    ensures t.missing == old(t.missing) + MissesAll(content, SendEdits(moduleName, s))
  {
    var rpc := Insert(TX_RPC, RPCText("Send" + s.upper));
    var withRPC := ApplyEdit(t, content, rpc);
    var sendFields := BuildFields(s.fields, 5);
    var paths := CollectImports(moduleName, s.imports, s.customs);
    var withImports := ModifyImports(t, withRPC, TX_IMPORT, paths);
    var text := Insert(TX_MESSAGE, SendWith(s, sendFields));
    r := ApplyEdit(t, withImports, text);
    ghost var middle := ImportEdits(TX_IMPORT, paths);
    OneEdit(content, rpc);
    ApplyAllConcat(content, [rpc], middle);
    ApplyAllLast(content, [rpc] + middle, text);
  }

  /** A scaffold command: a message, or a packet with or without the message that sends it. */
  datatype Scaffolding = AddMessage(message: Message) | AddPacket(packet: Packet, send: Option<Send>)

  datatype FileKind = HandlerFile | CodecFile | TxFile | PacketFile

  /** What a scaffold does to each of the files. */
  function FileEdits(kind: FileKind, moduleName: string, s: Scaffolding): seq<Edit> {
    match s
    case AddMessage(m) =>
      (match kind
       case HandlerFile => HandlerEdits(m.name)
       case CodecFile => CodecEdits(m.name, moduleName)
       case TxFile => TxEdits(moduleName, m)
       case PacketFile => [])
    case AddPacket(p, send) =>
      if kind.PacketFile? then PacketEdits(moduleName, p)
      else if send.None? then []
      else
        (match kind
         case HandlerFile => HandlerEdits("Send" + send.value.upper)
         case CodecFile => CodecEdits("Send" + send.value.upper, moduleName)
         case TxFile => SendEdits(moduleName, send.value)
         case PacketFile => [])
  }

  function AllEdits(kind: FileKind, moduleName: string, ss: seq<Scaffolding>): seq<Edit> {
    if ss == [] then []
    else AllEdits(kind, moduleName, ss[..|ss| - 1]) + FileEdits(kind, moduleName, ss[|ss| - 1])
  }
}
