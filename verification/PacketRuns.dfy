/** The packets of a module are numbered in the order in which they were scaffolded. */
module PacketRuns {
  import opened Markers
  import opened Scaffold
  import opened ScaffoldRuns
  import opened ScaffoldNumbers
  import opened Generators
  import opened GeneratorRuns
  import opened ModuleRuns

  function PacketsOf(ss: seq<Scaffolding>): seq<Packet> {
    if ss == [] then []
    else
      var last := ss[|ss| - 1];
      PacketsOf(ss[..|ss| - 1]) + (if last.AddPacket? then [last.packet] else [])
  }

  function PacketEntries(ps: seq<Packet>): seq<string> {
    if ps == [] then [] else PacketEntries(ps[..|ps| - 1]) + [PacketEntry(ps[|ps| - 1])]
  }

  lemma {:induction false} EntriesConcat(a: seq<Edit>, b: seq<Edit>)
    ensures Entries(a + b) == Entries(a) + Entries(b)
    decreases |b|
  {
    if b == [] {
      assert a + b == a;
    } else {
      var n := |b| - 1;
      assert (a + b)[..|a + b| - 1] == a + b[..n];
      EntriesConcat(a, b[..n]);
    }
  }

  lemma {:induction false} ImportEntries(name: string, paths: seq<string>)
    ensures Entries(ImportEdits(name, paths)) == []
  {
    if paths != [] {
      var n := |paths| - 1;
      ImportEntries(name, paths[..n]);
      assert ImportEdits(name, paths)[..|ImportEdits(name, paths)| - 1] == ImportEdits(name, paths[..n]);
    }
  }

  lemma OnePacketEntry(moduleName: string, p: Packet)
    ensures Entries(PacketEdits(moduleName, p)) == [PacketEntry(p)]
  {
    var paths := AllImports(moduleName, p.imports, p.customs);
    var first, last := [Field(FIELD, FIELD_NUMBER, PacketEntry(p))], [Insert(PACKET_MESSAGE, PacketText(p))];
    EntriesConcat(first + ImportEdits(PACKET_IMPORT, paths), last);
    EntriesConcat(first, ImportEdits(PACKET_IMPORT, paths));
    ImportEntries(PACKET_IMPORT, paths);
    assert first[..0] == [] && last[..0] == [];
    assert Entries(first) == [PacketEntry(p)] && Entries(last) == [];
  }

  lemma PacketsMore(ps: seq<Packet>, p: Packet)
    ensures PacketEntries(ps + [p]) == PacketEntries(ps) + [PacketEntry(p)]
  {
  }

  lemma {:induction false} EntriesOfPackets(moduleName: string, ss: seq<Scaffolding>)
    ensures Entries(AllEdits(PacketFile, moduleName, ss)) == PacketEntries(PacketsOf(ss))
  {
    if ss != [] {
      var n := |ss| - 1;
      EntriesOfPackets(moduleName, ss[..n]);
      EntriesConcat(AllEdits(PacketFile, moduleName, ss[..n]), FileEdits(PacketFile, moduleName, ss[n]));
      if ss[n].AddPacket? {
        OnePacketEntry(moduleName, ss[n].packet);
        PacketsMore(PacketsOf(ss[..n]), ss[n].packet);
      } else {
        assert PacketsOf(ss[..n]) + [] == PacketsOf(ss[..n]);
      }
    }
  }

  lemma {:induction false} PacketEntryAt(ps: seq<Packet>, i: nat)
    requires i < |ps|
    ensures |PacketEntries(ps)| == |ps| && PacketEntries(ps)[i] == PacketEntry(ps[i])
  {
    if i < |ps| - 1 {
      PacketEntryAt(ps[..|ps| - 1], i);
    } else if i > 0 {
      PacketEntryAt(ps[..|ps| - 1], 0);
    }
  }

  lemma EntryPerPacket(ps: seq<Packet>) returns (entries: seq<string>)
    ensures entries == PacketEntries(ps) && |entries| == |ps|
    ensures forall i :: 0 <= i < |ps| ==> entries[i] == PacketEntry(ps[i])
  {
    entries := PacketEntries(ps);
    forall i | 0 <= i < |ps| ensures |entries| == |ps| && entries[i] == PacketEntry(ps[i]) {
      PacketEntryAt(ps, i);
    }
    assert ps == [] ==> entries == [];
  }

  lemma AllowedInList(e: Edit)
    requires Allowed(PacketFile, e)
    ensures ListEdit(e, FIELD, FIELD_NUMBER)
  {
    NamesApart();
  }

  lemma NumberedRun(doc: seq<Line>, es: seq<Edit>, before: string, rest: string) returns (now: seq<Line>)
    requires Runnable(doc, es) && (forall k :: 0 <= k < |es| ==> ListEdit(es[k], FIELD, FIELD_NUMBER))
    requires OneFieldMarker(doc, before, rest)
    ensures FitsAll(now) && ApplyAll(Content(doc), es) == Content(now)
    ensures IsNumbered(now, FIELD, FIELD_NUMBER, before, rest, Entries(es))
  {
    FieldIsPrefix();
    assert Numbered(FIELD, FIELD_NUMBER, [], rest) == [];
    now := ListRuns(doc, es, FIELD, FIELD_NUMBER, before, rest);
  }

  /** The file has one field marker, and it is not a number marker. */
  predicate OneFieldMarker(doc: seq<Line>, before: string, rest: string) {
    Selected(doc, FIELD) == [Marked(before, FIELD + rest)] && !(FIELD_NUMBER <= FIELD + rest)
  }

  lemma PacketFileRuns(doc: seq<Line>, moduleName: string, ss: seq<Scaffolding>)
    requires Ready(PacketFile, doc, moduleName, ss)
    ensures
      var es := AllEdits(PacketFile, moduleName, ss);
      Runnable(doc, es) && forall k :: 0 <= k < |es| ==> ListEdit(es[k], FIELD, FIELD_NUMBER)
  {
    var es := AllEdits(PacketFile, moduleName, ss);
    ReadyRuns(PacketFile, doc, moduleName, ss);
    forall k | 0 <= k < |es| ensures ListEdit(es[k], FIELD, FIELD_NUMBER) {
      assert Fine(PacketFile, es[k]);
      AllowedInList(es[k]);
    }
  }

  /** Any scaffolds on a packet.proto with one field marker and no number marker leave the plain marker and one
      entry for each packet, in order, the i-th with the number i + 2. */
  lemma PacketsAreNumbered(doc: seq<Line>, moduleName: string, ss: seq<Scaffolding>, before: string, rest: string)
    returns (now: seq<Line>, entries: seq<string>)
    requires Ready(PacketFile, doc, moduleName, ss) && OneFieldMarker(doc, before, rest)
    ensures FitsAll(now) && ApplyAll(Content(doc), AllEdits(PacketFile, moduleName, ss)) == Content(now)
    ensures
      var ps := PacketsOf(ss);
      |entries| == |ps| && forall i :: 0 <= i < |ps| ==> entries[i] == PacketEntry(ps[i])
    ensures IsNumbered(now, FIELD, FIELD_NUMBER, before, rest, entries)
  {
    PacketFileRuns(doc, moduleName, ss);
    EntriesOfPackets(moduleName, ss);
    now := NumberedRun(doc, AllEdits(PacketFile, moduleName, ss), before, rest);
    entries := EntryPerPacket(PacketsOf(ss));
  }
}
