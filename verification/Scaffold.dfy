/**
  The text edits of the scaffolding generators, on the text of a file and on its lines. A generator is the
  list of its edits; each edit rewrites the first occurrence of one marker.
 */
module Scaffold {
  import opened Text
  import opened Decimal
  import opened Markers

  datatype Edit =
    | Insert(name: string, text: string)          // text on the lines above the marker
    | Once(name: string, text: string)            // text instead of the marker, unless it is there already
    | Import(name: string, path: string)          // one import line below the marker, removed elsewhere
    | Field(name: string, number: string, entry: string) // a numbered entry below the marker, with a number marker

  function Marker(name: string): string {
    PREFIX + name
  }

  function ImportLine(path: string): string {
    "import \"" + path + "\";"
  }

  function FieldEntry(entry: string, number: nat): string {
    entry + Digits(number) + "; "
  }

  /** What the marker of a numbered list is replaced by: itself, then the entry with its number marker. */
  function NumberedBlock(name: string, numbered: string, number: string): string {
    Marker(name) + "\n" + numbered + Marker(number)
  }

  // ----- On the text -----

  predicate TextFits(e: Edit) {
    match e
    case Insert(name, text) => '\n' !in name && '#' !in text
    case Once(name, text) => '\n' !in name && text != "" && '#' !in text && '\n' !in text
    case Import(name, path) => '\n' !in name && '#' !in name && '#' !in path && '\n' !in path && '"' !in path
    case Field(name, number, entry) =>
      '\n' !in name && forall c :: c in number || c in entry ==> c != '#' && c != '\n' && c != '"'
  }

  function ApplyInsert(content: string, name: string, text: string): string {
    ReplaceFirst(content, Marker(name), text + "\n" + Marker(name))
  }

  function ApplyOnce(content: string, name: string, text: string): string {
    if text == "" || Count(content, text) > 0 then content else ReplaceFirst(content, Marker(name), text)
  }

  function ApplyImport(content: string, name: string, line: string): string {
    ReplaceFirst(ReplaceAll(content, "\n" + line, ""), Marker(name), Marker(name) + "\n" + line)
  }

  function ApplyNumbered(content: string, name: string, number: string, entry: string): string {
    var numbered := FieldEntry(entry, Count(content, Marker(number)) + 2);
    ReplaceFirst(content, Marker(name), NumberedBlock(name, numbered, number))
  }

  function IfAbsent(content: string, placeholder: string): set<string>
    requires placeholder != ""
  {
    if Count(content, placeholder) == 0 then {placeholder} else {}
  }

  function Apply(content: string, e: Edit): string {
    match e
    case Insert(name, text) => ApplyInsert(content, name, text)
    case Once(name, text) => ApplyOnce(content, name, text)
    case Import(name, path) => ApplyImport(content, name, ImportLine(path))
    case Field(name, number, entry) => ApplyNumbered(content, name, number, entry)
  }

  /** The markers the tracer reports as missing. */
  function Misses(content: string, e: Edit): set<string> {
    match e
    case Insert(name, _) => IfAbsent(content, Marker(name))
    case Once(name, text) => if text == "" || Count(content, text) > 0 then {} else IfAbsent(content, Marker(name))
    case Import(name, path) => IfAbsent(ReplaceAll(content, "\n" + ImportLine(path), ""), Marker(name))
    case Field(name, _, _) => IfAbsent(content, Marker(name))
  }

  function ApplyAll(content: string, es: seq<Edit>): string
    decreases |es|
  {
    if es == [] then content else ApplyAll(Apply(content, es[0]), es[1..])
  }

  function MissesAll(content: string, es: seq<Edit>): set<string>
    decreases |es|
  {
    if es == [] then {} else Misses(content, es[0]) + MissesAll(Apply(content, es[0]), es[1..])
  }

  // ----- On the lines -----

  function Plains(texts: seq<string>): (r: seq<Line>)
    ensures |r| == |texts| && forall i :: 0 <= i < |texts| ==> r[i] == Plain(texts[i])
  {
    if texts == [] then [] else [Plain(texts[0])] + Plains(texts[1..])
  }

  function AtFirst(doc: seq<Line>, name: string, lines: seq<Line>): seq<Line>
    requires Matching(doc, name) > 0
  {
    doc[..First(doc, name)] + lines + doc[First(doc, name) + 1..]
  }

  /** The lines without those after the first that read `text`. */
  function Without(doc: seq<Line>, text: string): seq<Line> {
    if doc == [] then [] else [doc[0]] + Dropped(doc[1..], text)
  }

  function Dropped(doc: seq<Line>, text: string): seq<Line> {
    if doc == [] then []
    else (if doc[0] == Plain(text) then [] else [doc[0]]) + Dropped(doc[1..], text)
  }

  predicate PresentPlain(doc: seq<Line>, text: string)
    requires text != ""
  {
    exists i :: 0 <= i < |doc| && doc[i].Plain? && Count(doc[i].text, text) > 0
  }

  predicate NotInMarked(doc: seq<Line>, text: string)
    requires text != ""
  {
    forall i :: 0 <= i < |doc| && doc[i].Marked? ==> Count(Display(doc[i]), text) == 0
  }

  /** Nothing follows the marker on its lines. */
  predicate Bare(doc: seq<Line>, name: string) {
    forall i :: 0 <= i < |doc| && Matches(doc[i], name) ==> doc[i].tail == name
  }

  /** A line starts with the import only if it is the import; marked lines hold no quotes. */
  predicate StandsAlone(l: Line, text: string) {
    match l
    case Plain(t) => text <= t ==> t == text
    case Marked(before, tail) => '"' !in before && '"' !in tail
  }

  predicate StandAlone(doc: seq<Line>, text: string) {
    forall i :: 0 <= i < |doc| ==> StandsAlone(doc[i], text)
  }

  /** The file holds what the edit needs. */
  predicate Supports(doc: seq<Line>, e: Edit) {
    match e
    case Insert(name, _) => Matching(doc, name) > 0
    case Once(name, text) =>
      text != "" && (PresentPlain(doc, text) || (Matching(doc, name) > 0 && NotInMarked(doc, text)))
    case Import(name, path) =>
      Matching(doc, name) > 0 && Bare(doc, name) && StandAlone(doc, ImportLine(path))
    case Field(name, _, _) => Matching(doc, name) > 0
  }

  lemma {:induction false} DroppedMatching(doc: seq<Line>, text: string, name: string)
    ensures Matching(Dropped(doc, text), name) == Matching(doc, name)
    ensures forall l :: l in Dropped(doc, text) <==> l in doc && l != Plain(text)
  {
    if doc != [] {
      DroppedMatching(doc[1..], text, name);
      MatchingConcat(if doc[0] == Plain(text) then [] else [doc[0]], Dropped(doc[1..], text), name);
    }
  }

  lemma WithoutMatching(doc: seq<Line>, text: string, name: string)
    ensures Matching(Without(doc, text), name) == Matching(doc, name)
    ensures forall l :: l in Without(doc, text) ==> l in doc
    ensures forall l :: l in doc ==> l in Without(doc, text) || l == Plain(text)
  {
    if doc != [] {
      DroppedMatching(doc[1..], text, name);
    }
  }

  function InsertLines(l: Line, text: string): seq<Line>
    requires l.Marked?
  {
    Plains(Split(l.before + text, '\n')) + [Marked("", l.tail)]
  }

  function OnceLines(l: Line, name: string, text: string): seq<Line>
    requires Matches(l, name)
  {
    [Plain(l.before + text + l.tail[|name|..])]
  }

  function ImportLines(l: Line, name: string, line: string): seq<Line>
    requires l.Marked?
  {
    [Marked(l.before, name), Plain(line)]
  }

  function NumberedLines(l: Line, name: string, number: string, numbered: string): seq<Line>
    requires Matches(l, name)
  {
    [Marked(l.before, name), Marked(numbered, number + l.tail[|name|..])]
  }

  function EditedInsert(doc: seq<Line>, name: string, text: string): seq<Line>
    requires Matching(doc, name) > 0
  {
    AtFirst(doc, name, InsertLines(doc[First(doc, name)], text))
  }

  function EditedOnce(doc: seq<Line>, name: string, text: string): seq<Line>
    requires text != "" && (PresentPlain(doc, text) || Matching(doc, name) > 0)
  {
    if PresentPlain(doc, text) then doc else AtFirst(doc, name, OnceLines(doc[First(doc, name)], name, text))
  }

  function EditedImport(doc: seq<Line>, name: string, line: string): seq<Line>
    requires Matching(doc, name) > 0
  {
    WithoutMatching(doc, line, name);
    var rest := Without(doc, line);
    AtFirst(rest, name, ImportLines(rest[First(rest, name)], name, line))
  }

  function EditedNumbered(doc: seq<Line>, name: string, number: string, entry: string): seq<Line>
    requires Matching(doc, name) > 0
  {
    var numbered := FieldEntry(entry, Matching(doc, number) + 2);
    AtFirst(doc, name, NumberedLines(doc[First(doc, name)], name, number, numbered))
  }

  function NameOf(e: Edit): string {
    match e
    case Insert(name, _) => name
    case Once(name, _) => name
    case Import(name, _) => name
    case Field(name, _, _) => name
  }

  /** The lines after the edit. */
  function Edited(doc: seq<Line>, e: Edit): seq<Line>
    requires Supports(doc, e)
  {
    match e
    case Insert(name, text) => EditedInsert(doc, name, text)
    case Once(name, text) => EditedOnce(doc, name, text)
    case Import(name, path) => EditedImport(doc, name, ImportLine(path))
    case Field(name, number, entry) => EditedNumbered(doc, name, number, entry)
  }
}
