/** The messages the generators write, read line by line: each field with its own number. */
module ProtoTexts {
  import opened Text
  import opened Decimal
  import opened Generators
  import opened GeneratorRuns

  // ----- Lines -----

  /** The declaration of a field with a number. */
  function Numbered(f: ProtoField, number: nat): string {
    "  " + f.declaration + " = " + Digits(number) + f.options + ";"
  }

  /** The i-th field with the number start + i. */
  function NumberedFrom(fields: seq<ProtoField>, start: nat): (lines: seq<string>)
    ensures |lines| == |fields| && forall i :: 0 <= i < |fields| ==> lines[i] == Numbered(fields[i], start + i)
  {
    seq(|fields|, i requires 0 <= i < |fields| => Numbered(fields[i], start + i))
  }

  function Lines(text: string): seq<string> {
    Split(text, '\n')
  }

  predicate OneLine(s: string) {
    '\n' !in s
  }

  lemma Assoc<T>(a: seq<T>, b: seq<T>, c: seq<T>)
    ensures a + b + c == a + (b + c)
  {
  }

  lemma Assoc4<T>(a: seq<T>, b: seq<T>, c: seq<T>, d: seq<T>)
    ensures a + b + c + d == a + (b + c + d)
  {
  }

  /** A text whose first line is known. */
  lemma Peel(text: string, line: string, rest: string)
    requires OneLine(line) && text == line + "\n" + rest
    ensures Lines(text) == [line] + Lines(rest)
  {
    SplitFirst(line, '\n', rest);
  }

  lemma LastLine(line: string)
    requires OneLine(line)
    ensures Lines(line) == [line]
  {
    SplitNone(line, '\n');
  }

  lemma NumberedIsOneLine(f: ProtoField, number: nat)
    requires Clean(f.declaration) && Clean(f.options)
    ensures OneLine(Numbered(f, number)) && FieldLine(f, number) == Numbered(f, number) + "\n"
  {
  }

  lemma NumberedMore(fields: seq<ProtoField>, start: nat)
    requires fields != []
    ensures
      var n := |fields| - 1;
      NumberedFrom(fields, start) == NumberedFrom(fields[..n], start) + [Numbered(fields[n], start + n)]
  {
  }

  lemma FieldFirst(f: ProtoField, number: nat, rest: string)
    requires Clean(f.declaration) && Clean(f.options)
    ensures Lines(FieldLine(f, number) + rest) == [Numbered(f, number)] + Lines(rest)
  {
    NumberedIsOneLine(f, number);
    Peel(FieldLine(f, number) + rest, Numbered(f, number), rest);
  }

  /** The fields of a message, whatever follows them: the i-th line declares the i-th field, with the number
      start + i. */
  lemma {:induction false} FieldLines(fields: seq<ProtoField>, start: nat, rest: string)
    requires CleanFields(fields)
    ensures Lines(FieldText(fields, start) + rest) == NumberedFrom(fields, start) + Lines(rest)
  {
    if fields == [] {
      assert FieldText(fields, start) + rest == rest;
    } else {
      var n := |fields| - 1;
      var last := FieldLine(fields[n], start + n);
      Assoc(FieldText(fields[..n], start), last, rest);
      FieldLines(fields[..n], start, last + rest);
      FieldFirst(fields[n], start + n, rest);
      NumberedMore(fields, start);
      Assoc(NumberedFrom(fields[..n], start), [Numbered(fields[n], start + n)], Lines(rest));
    }
  }

  /** Text in front of the first line. */
  lemma Indented(indent: string, text: string)
    requires OneLine(indent)
    ensures Lines(indent + text) == [indent + Lines(text)[0]] + Lines(text)[1..]
    decreases |indent|
  {
    if indent == "" {
      assert indent + text == text && indent + Lines(text)[0] == Lines(text)[0];
    } else {
      Indented(indent[1..], text);
      assert (indent + text)[1..] == indent[1..] + text;
      assert [indent[0]] + (indent[1..] + Lines(text)[0]) == indent + Lines(text)[0];
    }
  }

  // ----- Messages -----

  /** A message is its signer with the number 1 and its fields numbered from 2, and a response with fields
      numbered from 1. */
  lemma MessageLines(m: Message)
    requires Clean(m.name) && Clean(m.signer) && CleanFields(m.fields) && CleanFields(m.results)
    ensures
      Lines(MessageText(m)) ==
      ["message Msg" + m.name + " {", "  string " + m.signer + " = 1;"]
      + (NumberedFrom(m.fields, 2)
         + (["}", "", "message Msg" + m.name + "Response {"] + (NumberedFrom(m.results, 1) + ["}", ""])))
  {
    var response := FieldText(m.results, 1) + "}\n";
    ResponseLines(m, response);
    FieldLines(m.results, 1, "}\n");
    Peel("}\n", "}", "");
    var middle := "}\n\nmessage Msg" + m.name + "Response {\n" + response;
    FieldLines(m.fields, 2, middle);
    HeadLines(m, FieldText(m.fields, 2) + middle);
    MessageShape(m, FieldText(m.fields, 2), FieldText(m.results, 1));
  }

  lemma MessageShape(m: Message, fields: string, results: string)
    ensures MessageWith(m, fields, results) ==
            "message Msg" + m.name + " {\n  string " + m.signer + " = 1;\n"
            + (fields + ("}\n\nmessage Msg" + m.name + "Response {\n" + (results + "}\n")))
  {
    var head := "message Msg" + m.name + " {\n  string " + m.signer + " = 1;\n";
    Assoc4(head + fields, "}\n\nmessage Msg", m.name, "Response {\n");
    var between := "}\n\nmessage Msg" + m.name + "Response {\n";
    Assoc(head + fields + between, results, "}\n");
    Assoc(head + fields, between, results + "}\n");
    Assoc(head, fields, between + (results + "}\n"));
  }

  lemma HeadLines(m: Message, body: string)
    requires Clean(m.name) && Clean(m.signer)
    ensures Lines("message Msg" + m.name + " {\n  string " + m.signer + " = 1;\n" + body) ==
            ["message Msg" + m.name + " {", "  string " + m.signer + " = 1;"] + Lines(body)
  {
    var first, second := "message Msg" + m.name + " {", "  string " + m.signer + " = 1;";
    var text := "message Msg" + m.name + " {\n  string " + m.signer + " = 1;\n" + body;
    assert " {\n  string " == " {" + "\n" + "  string " && " = 1;\n" == " = 1;" + "\n";
    assert OneLine("message Msg") && OneLine(" {") && OneLine("  string ") && OneLine(" = 1;");
    assert text == first + "\n" + (second + "\n" + body);
    Peel(text, first, second + "\n" + body);
    Peel(second + "\n" + body, second, body);
  }

  lemma ResponseLines(m: Message, response: string)
    requires Clean(m.name)
    ensures Lines("}\n\nmessage Msg" + m.name + "Response {\n" + response) ==
            ["}", "", "message Msg" + m.name + "Response {"] + Lines(response)
  {
    var third := "message Msg" + m.name + "Response {";
    var text := "}\n\nmessage Msg" + m.name + "Response {\n" + response;
    assert "}\n\nmessage Msg" == "}" + "\n" + ("" + "\n" + "message Msg") && "Response {\n" == "Response {" + "\n";
    assert OneLine("message Msg") && OneLine("Response {");
    assert text == "}" + "\n" + ("" + "\n" + (third + "\n" + response));
    Peel(text, "}", "" + "\n" + (third + "\n" + response));
    Peel("" + "\n" + (third + "\n" + response), "", third + "\n" + response);
    Peel(third + "\n" + response, third, response);
  }

  // ----- The message that sends a packet -----

  /** Its fixed fields have the numbers 1 to 4, and its own are numbered from 5. */
  lemma SendLines(s: Send)
    requires Clean(s.upper) && Clean(s.signer) && CleanFields(s.fields)
    ensures
      Lines(SendText(s)) ==
      ["message MsgSend" + s.upper + " {", "  string " + s.signer + " = 1;"]
      + (["  string port = 2;", "  string channelID = 3;", "  uint64 " + "timeoutTimestamp = 4;"]
         + (NumberedFrom(s.fields, 5) + ["}", "", "message MsgSend" + s.upper + "Response {", "}"]))
  {
    var end := "}\n\n" + "message MsgSend" + s.upper + "Response {\n" + "}";
    SendEndLines(s, end);
    FieldLines(s.fields, 5, end);
    var body := FieldText(s.fields, 5) + end;
    ChannelLines(body);
    SendHeadLines(s, "  string port = 2;\n" + "  string channelID = 3;\n" + "  uint64 " + "timeoutTimestamp = 4;\n"
                     + body);
    SendShape(s, FieldText(s.fields, 5), end);
  }

  lemma SendShape(s: Send, fields: string, end: string)
    requires end == "}\n\n" + "message MsgSend" + s.upper + "Response {\n" + "}"
    ensures SendWith(s, fields) ==
            "message MsgSend" + s.upper + " {\n  string " + s.signer + " = 1;\n"
            + ("  string port = 2;\n" + "  string channelID = 3;\n" + "  uint64 " + "timeoutTimestamp = 4;\n"
               + (fields + end))
  {
    var head := "message MsgSend" + s.upper + " {\n  string " + s.signer + " = 1;\n";
    var port, channel, amount, timeout :=
      "  string port = 2;\n", "  string channelID = 3;\n", "  uint64 ", "timeoutTimestamp = 4;\n";
    Assoc4(head, port, channel, amount);
    Assoc(head, port + channel + amount, timeout);
    var fixed := port + channel + amount + timeout;
    Assoc4(head + fixed + fields, "}\n\n", "message MsgSend", s.upper);
    Assoc4(head + fixed + fields, "}\n\n" + "message MsgSend" + s.upper, "Response {\n", "}");
    Assoc(head + fixed, fields, end);
    Assoc(head, fixed, fields + end);
  }

  lemma SendHeadLines(s: Send, body: string)
    requires Clean(s.upper) && Clean(s.signer)
    ensures Lines("message MsgSend" + s.upper + " {\n  string " + s.signer + " = 1;\n" + body) ==
            ["message MsgSend" + s.upper + " {", "  string " + s.signer + " = 1;"] + Lines(body)
  {
    var first, second := "message MsgSend" + s.upper + " {", "  string " + s.signer + " = 1;";
    var text := "message MsgSend" + s.upper + " {\n  string " + s.signer + " = 1;\n" + body;
    assert " {\n  string " == " {" + "\n" + "  string " && " = 1;\n" == " = 1;" + "\n";
    assert OneLine("message MsgSend") && OneLine(" {") && OneLine("  string ") && OneLine(" = 1;");
    assert text == first + "\n" + (second + "\n" + body);
    Peel(text, first, second + "\n" + body);
    Peel(second + "\n" + body, second, body);
  }

  lemma ChannelLines(body: string)
    ensures
      Lines("  string port = 2;\n" + "  string channelID = 3;\n" + "  uint64 " + "timeoutTimestamp = 4;\n" + body) ==
      ["  string port = 2;", "  string channelID = 3;", "  uint64 " + "timeoutTimestamp = 4;"] + Lines(body)
  {
    var port, channel := "  string port = 2;", "  string channelID = 3;";
    var timeout := "  uint64 " + "timeoutTimestamp = 4;";
    PortWords();
    TimeoutLine();
    var text := "  string port = 2;\n" + "  string channelID = 3;\n" + "  uint64 " + "timeoutTimestamp = 4;\n" + body;
    assert text == port + "\n" + (channel + "\n" + (timeout + "\n" + body));
    Peel(text, port, channel + "\n" + (timeout + "\n" + body));
    Peel(channel + "\n" + (timeout + "\n" + body), channel, timeout + "\n" + body);
    Peel(timeout + "\n" + body, timeout, body);
  }

  lemma PortWords()
    ensures "  string port = 2;\n" == "  string port = 2;" + "\n" && OneLine("  string port = 2;")
    ensures "  string channelID = 3;\n" == "  string channelID = 3;" + "\n" && OneLine("  string channelID = 3;")
  {
  }

  lemma TimeoutLine()
    ensures "timeoutTimestamp = 4;\n" == "timeoutTimestamp = 4;" + "\n"
    ensures OneLine("  uint64 ") && OneLine("timeoutTimestamp = 4;")
  {
  }

  lemma SendEndLines(s: Send, end: string)
    requires Clean(s.upper) && end == "}\n\n" + "message MsgSend" + s.upper + "Response {\n" + "}"
    ensures Lines(end) == ["}", "", "message MsgSend" + s.upper + "Response {", "}"]
  {
    var third := "message MsgSend" + s.upper + "Response {";
    assert "}\n\n" == "}" + "\n" + ("" + "\n") && "Response {\n" == "Response {" + "\n";
    assert OneLine("message MsgSend") && OneLine("Response {") && OneLine("}");
    assert end == "}" + "\n" + ("" + "\n" + (third + "\n" + "}"));
    Peel(end, "}", "" + "\n" + (third + "\n" + "}"));
    Peel("" + "\n" + (third + "\n" + "}"), "", third + "\n" + "}");
    Peel(third + "\n" + "}", third, "}");
    LastLine("}");
  }

  // ----- Packets -----

  /** The line with `indent` in front of it. */
  function FirstIndented(indent: string, lines: seq<string>): seq<string>
    requires lines != []
  {
    [indent + lines[0]] + lines[1..]
  }

  /** A packet and its acknowledgment have their fields numbered from 1 each. */
  lemma PacketLines(p: Packet)
    requires Clean(p.upper) && CleanFields(p.fields) && CleanFields(p.acks)
    ensures
      Lines(PacketText(p)) ==
      ["// " + p.upper + "PacketData defines" + " a struct for the" + " packet payload",
       "message " + p.upper + "PacketData {"]
      + (NumberedFrom(p.fields, 1)
         + (["}", "", "// " + p.upper + "PacketAck defines" + " a struct for the" + " packet" + " acknowledgment",
             "message " + p.upper + "PacketAck {"]
            + FirstIndented("\t", NumberedFrom(p.acks, 1) + ["}"])))
  {
    LastLine("}");
    FieldLines(p.acks, 1, "}");
    var acks := FieldText(p.acks, 1) + "}";
    Indented("\t", acks);
    var middle := "}\n\n" + "// " + p.upper + "PacketAck defines" + " a struct for the" + " packet"
                  + " acknowledgment\n" + "message " + p.upper + "PacketAck {\n\t" + acks;
    AckLines(p, acks);
    FieldLines(p.fields, 1, middle);
    PayloadLines(p, FieldText(p.fields, 1) + middle);
    PacketShape(p, FieldText(p.fields, 1), FieldText(p.acks, 1));
  }

  lemma PacketShape(p: Packet, fields: string, acks: string)
    ensures PacketWith(p, fields, acks) ==
            "// " + p.upper + "PacketData defines" + " a struct for the" + " packet payload\n"
            + "message " + p.upper + "PacketData {\n"
            + (fields
               + ("}\n\n" + "// " + p.upper + "PacketAck defines" + " a struct for the" + " packet"
                  + " acknowledgment\n" + "message " + p.upper + "PacketAck {\n\t" + (acks + "}")))
  {
    var head := "// " + p.upper + "PacketData defines" + " a struct for the" + " packet payload\n"
                + "message " + p.upper + "PacketData {\n";
    var x := head + fields;
    Assoc4(x, "}\n\n", "// ", p.upper);
    var a := "}\n\n" + "// " + p.upper;
    Assoc4(x, a, "PacketAck defines", " a struct for the");
    var b := a + "PacketAck defines" + " a struct for the";
    Assoc4(x, b, " packet", " acknowledgment\n");
    var c := b + " packet" + " acknowledgment\n";
    Assoc4(x, c, "message ", p.upper);
    var d := c + "message " + p.upper;
    Assoc(x, d, "PacketAck {\n\t");
    var between := d + "PacketAck {\n\t";
    Assoc(x + between, acks, "}");
    Assoc(x, between, acks + "}");
    Assoc(head, fields, between + (acks + "}"));
  }

  lemma PayloadLines(p: Packet, body: string)
    requires Clean(p.upper)
    ensures
      Lines("// " + p.upper + "PacketData defines" + " a struct for the" + " packet payload\n"
            + "message " + p.upper + "PacketData {\n" + body) ==
      ["// " + p.upper + "PacketData defines" + " a struct for the" + " packet payload",
       "message " + p.upper + "PacketData {"] + Lines(body)
  {
    var first := "// " + p.upper + "PacketData defines" + " a struct for the" + " packet payload";
    var second := "message " + p.upper + "PacketData {";
    PayloadBreaks();
    var text := "// " + p.upper + "PacketData defines" + " a struct for the" + " packet payload\n"
                + "message " + p.upper + "PacketData {\n" + body;
    assert text == first + "\n" + (second + "\n" + body);
    Peel(text, first, second + "\n" + body);
    Peel(second + "\n" + body, second, body);
  }

  lemma PayloadBreaks()
    ensures " packet payload\n" == " packet payload" + "\n" && "PacketData {\n" == "PacketData {" + "\n"
    ensures OneLine("// ") && OneLine("PacketData defines") && OneLine(" a struct for the")
    ensures OneLine(" packet payload")
    ensures OneLine("message ") && OneLine("PacketData {")
  {
  }

  lemma AckLines(p: Packet, acks: string)
    requires Clean(p.upper)
    ensures
      Lines("}\n\n" + "// " + p.upper + "PacketAck defines" + " a struct for the" + " packet" + " acknowledgment\n"
            + "message " + p.upper + "PacketAck {\n\t" + acks) ==
      ["}", "", "// " + p.upper + "PacketAck defines" + " a struct for the" + " packet" + " acknowledgment",
       "message " + p.upper + "PacketAck {"] + Lines("\t" + acks)
  {
    var third := "// " + p.upper + "PacketAck defines" + " a struct for the" + " packet" + " acknowledgment";
    var fourth, last := "message " + p.upper + "PacketAck {", "\t" + acks;
    AckShape(p, acks);
    AckBreaks();
    PayloadBreaks();
    Peel("}" + "\n" + ("" + "\n" + (third + "\n" + (fourth + "\n" + last))), "}",
         "" + "\n" + (third + "\n" + (fourth + "\n" + last)));
    Peel("" + "\n" + (third + "\n" + (fourth + "\n" + last)), "", third + "\n" + (fourth + "\n" + last));
    Peel(third + "\n" + (fourth + "\n" + last), third, fourth + "\n" + last);
    Peel(fourth + "\n" + last, fourth, last);
  }

  lemma AckShape(p: Packet, acks: string)
    ensures
      var third := "// " + p.upper + "PacketAck defines" + " a struct for the" + " packet" + " acknowledgment";
      "}\n\n" + "// " + p.upper + "PacketAck defines" + " a struct for the" + " packet" + " acknowledgment\n"
      + "message " + p.upper + "PacketAck {\n\t" + acks ==
      "}" + "\n" + ("" + "\n" + (third + "\n" + ("message " + p.upper + "PacketAck {" + "\n" + ("\t" + acks))))
  {
    AckBreaks();
    var rest := "message " + p.upper + "PacketAck {" + "\n" + ("\t" + acks);
    var third := "// " + p.upper + "PacketAck defines" + " a struct for the" + " packet" + " acknowledgment";
    CommentShape("}\n\n", "// ", p.upper, "PacketAck defines", " a struct for the", " packet", " acknowledgment", "\n");
    OpeningShape("}\n\n" + (third + "\n"), "message ", p.upper, "PacketAck {", "\n", "\t", acks);
    Assoc("}\n\n", third + "\n", rest);
    Assoc("}" + "\n", "" + "\n", third + "\n" + rest);
  }

  lemma CommentShape(a: string, b: string, c: string, d: string, e: string, f: string, g: string, nl: string)
    ensures a + b + c + d + e + f + (g + nl) == a + (b + c + d + e + f + g + nl)
  {
    Assoc4(a, b, c, d);
    Assoc4(a, b + c + d, e, f);
    Assoc(a, b + c + d + e + f, g + nl);
    Assoc(b + c + d + e + f, g, nl);
  }

  lemma OpeningShape(a: string, b: string, c: string, d: string, nl: string, tab: string, e: string)
    ensures a + b + c + (d + nl + tab) + e == a + (b + c + d + nl + (tab + e))
  {
    Assoc4(a, b, c, d + nl + tab);
    Assoc(a, b + c + (d + nl + tab), e);
    Assoc(b + c, d, nl);
    Assoc(b + c, d + nl, tab);
    Assoc(b + c + d + nl, tab, e);
  }

  lemma AckBreaks()
    ensures "}\n\n" == "}" + "\n" + ("" + "\n") && " acknowledgment\n" == " acknowledgment" + "\n"
    ensures "PacketAck {\n\t" == "PacketAck {" + "\n" + "\t"
    ensures OneLine("PacketAck defines") && OneLine(" packet") && OneLine(" acknowledgment") && OneLine("PacketAck {")
  {
  }

  // ----- The numbers differ -----

  /** The numbers of a block are pairwise different, and different from the fixed ones below its start. */
  lemma FieldNumbersDiffer(start: nat, i: nat, j: nat)
    ensures i != j ==> Digits(start + i) != Digits(start + j)
    ensures j < start ==> Digits(start + i) != Digits(j)
  {
    if Digits(start + i) == Digits(start + j) {
      DigitsInjective(start + i, start + j);
    }
    if Digits(start + i) == Digits(j) {
      DigitsInjective(start + i, j);
    }
  }
}
