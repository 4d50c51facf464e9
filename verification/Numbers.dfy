/** Comma separated lists of numbers and ranges: parsing and printing. */
module Numbers {
  import opened Common
  import opened Text
  import opened Decimal

  const LIMIT: nat := 0x1_0000_0000

  // ----- Trimming -----

  /** White space as unicode.IsSpace defines it. */
  predicate IsSpace(c: char) {
    || c == ' ' || '\t' <= c <= '\r' || c == '\U{85}' || c == '\U{A0}' || c == '\U{1680}'
    || '\U{2000}' <= c <= '\U{200A}' || c == '\U{2028}' || c == '\U{2029}' || c == '\U{202F}'
    || c == '\U{205F}' || c == '\U{3000}'
  }

  function TrimLeft(s: string): string {
    if s != "" && IsSpace(s[0]) then TrimLeft(s[1..]) else s
  }

  function TrimRight(s: string): string {
    if s != "" && IsSpace(s[|s| - 1]) then TrimRight(s[..|s| - 1]) else s
  }

  function TrimSpace(s: string): string {
    TrimRight(TrimLeft(s))
  }

  predicate Blank(s: string) {
    forall i :: 0 <= i < |s| ==> IsSpace(s[i])
  }

  /** Does not start or end with white space. */
  predicate Tight(s: string) {
    s != "" ==> !IsSpace(s[0]) && !IsSpace(s[|s| - 1])
  }

  lemma {:induction false} TrimLeftPadded(a: string, s: string)
    requires Blank(a)
    ensures TrimLeft(a + s) == TrimLeft(s)
  {
    if a == "" {
      assert a + s == s;
    } else {
      assert (a + s)[1..] == a[1..] + s;
      TrimLeftPadded(a[1..], s);
    }
  }

  lemma {:induction false} TrimRightPadded(s: string, b: string)
    requires Blank(b)
    ensures TrimRight(s + b) == TrimRight(s)
  {
    if b == "" {
      assert s + b == s;
    } else {
      assert (s + b)[..|s + b| - 1] == s + b[..|b| - 1];
      TrimRightPadded(s, b[..|b| - 1]);
    }
  }

  /** White space around text is what trimming takes away. */
  lemma TrimPadded(a: string, s: string, b: string)
    requires Blank(a) && Blank(b) && Tight(s)
    ensures TrimSpace(a + s + b) == s
  {
    assert a + s + b == a + (s + b);
    TrimLeftPadded(a, s + b);
    if s == "" {
      assert s + b == b && b + "" == b;
      TrimLeftPadded(b, "");
    } else {
      assert (s + b)[0] == s[0];
      TrimRightPadded(s, b);
    }
  }

  lemma DigitsAreTight(n: nat)
    ensures Tight(Digits(n)) && ',' !in Digits(n) && '-' !in Digits(n)
  {
  }

  // ----- One part of the list -----

  datatype Error = Number(error: ParseError) | Reversed(text: string) | Malformed(text: string)

  /** What a part between two commas stands for: nothing, the numbers from start to end, or an error. */
  datatype Item = Nothing | Span(start: nat, end: nat) | Bad(error: Error)

  function SpanOf(startN: string, endN: string, text: string): Item {
    var start, end := ParseUint(startN, LIMIT), ParseUint(endN, LIMIT);
    if start.Err? then Bad(Number(start.error))
    else if end.Err? then Bad(Number(end.error))
    else if start.value > end.value then Bad(Reversed(text))
    else Span(start.value, end.value)
  }

  /** A range with an open end stands for the one number it names. */
  function RangeItem(left: string, right: string, text: string): Item {
    var startN, endN := TrimSpace(left), TrimSpace(right);
    if startN == "" && endN == "" then Nothing
    else SpanOf(if startN == "" then endN else startN, if endN == "" then startN else endN, text)
  }

  function ItemOf(part: string): Item {
    var text := TrimSpace(part);
    var numbers := Split(text, '-');
    if text == "" then Nothing
    else if |numbers| == 1 then
      var i := ParseUint(TrimSpace(numbers[0]), LIMIT);
      if i.Ok? then Span(i.value, i.value) else Bad(Number(i.error))
    else if |numbers| == 2 then RangeItem(numbers[0], numbers[1], text)
    else Bad(Malformed(text))
  }

  // ----- The list -----

  /** The list with the numbers from start up to, but not including, stop at its end. */
  function Extended(ns: seq<nat>, start: nat, stop: nat): seq<nat> {
    if start >= stop then ns else Extended(ns, start, stop - 1) + [stop - 1]
  }

  function WithItem(ns: seq<nat>, item: Item): seq<nat> {
    if item.Span? then Extended(ns, item.start, item.end + 1) else ns
  }

  function Items(parts: seq<string>): seq<Item> {
    if parts == [] then [] else Items(parts[..|parts| - 1]) + [ItemOf(parts[|parts| - 1])]
  }

  lemma {:induction false} ItemAt(parts: seq<string>, i: nat)
    requires i < |parts|
    ensures |Items(parts)| == |parts| && Items(parts)[i] == ItemOf(parts[i])
  {
    var n := |parts| - 1;
    if n > 0 {
      ItemAt(parts[..n], if i < n then i else 0);
    }
  }

  lemma {:induction false} ItemsSize(parts: seq<string>)
    ensures |Items(parts)| == |parts|
  {
    if parts != [] {
      ItemsSize(parts[..|parts| - 1]);
    }
  }

  /** Every number the first n items stand for, in order, repeats included. */
  function Listed(items: seq<Item>, n: nat): seq<nat>
    requires n <= |items|
  {
    if n == 0 then [] else WithItem(Listed(items, n - 1), items[n - 1])
  }

  /** The first appearances of the numbers, in order. */
  function FirstOnly(ns: seq<nat>): seq<nat> {
    if ns == [] then []
    else
      var n := |ns| - 1;
      if ns[n] in ns[..n] then FirstOnly(ns[..n]) else FirstOnly(ns[..n]) + [ns[n]]
  }

  /** The first item from i on that is an error, or the number of items. */
  function BadFrom(items: seq<Item>, i: nat): (k: nat)
    requires i <= |items|
    ensures i <= k <= |items| && (k < |items| ==> items[k].Bad?)
    ensures forall j :: i <= j < k ==> !items[j].Bad?
    decreases |items| - i
  {
    if i == |items| || items[i].Bad? then i else BadFrom(items, i + 1)
  }

  function Gathered(items: seq<Item>): Result<seq<nat>, Error> {
    var i := BadFrom(items, 0);
    if i < |items| then Err(items[i].error) else Ok(FirstOnly(Listed(items, |items|)))
  }

  function ItemsOf(arg: string): seq<Item> {
    Items(Split(arg, ','))
  }

  function Parsed(arg: string): Result<seq<nat>, Error> {
    Gathered(ItemsOf(arg))
  }

  lemma {:induction false} FirstOnlyMembers(ns: seq<nat>)
    ensures forall x :: x in FirstOnly(ns) <==> x in ns
  {
    if ns != [] {
      var n := |ns| - 1;
      FirstOnlyMembers(ns[..n]);
      assert ns == ns[..n] + [ns[n]];
    }
  }

  lemma OneMore(ns: seq<nat>, x: nat)
    ensures FirstOnly(ns + [x]) == if x in ns then FirstOnly(ns) else FirstOnly(ns) + [x]
  {
  }

  /** The numbers added so far, each kept once; the set holds the numbers of the list. */
  ghost predicate Keeps(result: seq<nat>, known: set<nat>, seen: seq<nat>) {
    result == FirstOnly(seen) && forall x :: x in known <==> x in seen
  }

  method AddRange(start: nat, end: nat, result: seq<nat>, known: set<nat>, ghost seen: seq<nat>)
    returns (result': seq<nat>, known': set<nat>)
    requires start <= end && Keeps(result, known, seen)
    ensures Keeps(result', known', Extended(seen, start, end + 1))
  {
    result', known' := result, known;
    var next := start;
    while next <= end
      invariant start <= next <= end + 1 && Keeps(result', known', Extended(seen, start, next))
    {
      OneMore(Extended(seen, start, next), next);
      if next !in known' {
        known' := known' + {next};
        result' := result' + [next];
      }
      next := next + 1;
    }
  }

  method ParsePart(part: string, ghost item: Item, result: seq<nat>, known: set<nat>, ghost seen: seq<nat>)
    returns (result': seq<nat>, known': set<nat>, error: Option<Error>)
    requires item == ItemOf(part) && Keeps(result, known, seen)
    ensures item.Bad? ==> error == Some(item.error)
    ensures !item.Bad? ==> error == None && Keeps(result', known', WithItem(seen, item))
  {
    result', known', error := result, known, None;
    var trimmedRange := TrimSpace(part);
    if trimmedRange == "" {
      return;
    }
    var numbers := Split(trimmedRange, '-');
    if |numbers| == 1 {
      var i := ParseUint(TrimSpace(numbers[0]), LIMIT);
      if i.Err? {
        error := Some(Number(i.error));
        return;
      }
      OneMore(seen, i.value);
      assert Extended(seen, i.value, i.value + 1) == seen + [i.value];
      if i.value in known {
        return;
      }
      known', result' := known + {i.value}, result + [i.value];
    } else if |numbers| == 2 {
      var startN, endN := TrimSpace(numbers[0]), TrimSpace(numbers[1]);
      if startN == "" {
        startN := endN;
      }
      if endN == "" {
        endN := startN;
      }
      if startN == "" {
        return;
      }
      var start, end := ParseUint(startN, LIMIT), ParseUint(endN, LIMIT);
      if start.Err? {
        error := Some(Number(start.error));
      } else if end.Err? {
        error := Some(Number(end.error));
      } else if start.value > end.value {
        error := Some(Reversed(trimmedRange));
      } else {
        result', known' := AddRange(start.value, end.value, result, known, seen);
      }
    } else {
      error := Some(Malformed(trimmedRange));
    }
  }

  method ParseNext(parts: seq<string>, i: nat, ghost items: seq<Item>, result: seq<nat>, known: set<nat>,
                   ghost seen: seq<nat>)
    returns (result': seq<nat>, known': set<nat>, error: Option<Error>)
    requires i < |parts| == |items| && items == Items(parts) && Keeps(result, known, seen)
    ensures items[i].Bad? ==> error == Some(items[i].error)
    ensures !items[i].Bad? ==> error == None && Keeps(result', known', WithItem(seen, items[i]))
  {
    ItemAt(parts, i);
    result', known', error := ParsePart(parts[i], items[i], result, known, seen);
  }

  lemma StopsAt(items: seq<Item>, i: nat)
    requires i < |items| && items[i].Bad? && forall k :: 0 <= k < i ==> !items[k].Bad?
    ensures Gathered(items) == Err(items[i].error)
  {
  }

  method ParseList(arg: string) returns (r: Result<seq<nat>, Error>)
    ensures r == Parsed(arg)
  {
    var result: seq<nat>, known: set<nat> := [], {};
    var parts := Split(arg, ',');
    ghost var items := Items(parts);
    ghost var seen: seq<nat> := [];
    ItemsSize(parts);
    for i := 0 to |parts|
      invariant |items| == |parts| && seen == Listed(items, i) && Keeps(result, known, seen)
      invariant forall k :: 0 <= k < i ==> !items[k].Bad?
    {
      var error;
      result, known, error := ParseNext(parts, i, items, result, known, seen);
      if error.Some? {
        StopsAt(items, i);
        return Err(error.value);
      }
      seen := WithItem(seen, items[i]);
    }
    r := Ok(result);
  }

  /** The texts List joins. */
  function Printed(ns: seq<nat>, prefix: string): seq<string> {
    if ns == [] then [] else Printed(ns[..|ns| - 1], prefix) + [prefix + Digits(ns[|ns| - 1])]
  }

  function ListText(ns: seq<nat>, prefix: string): string {
    Join(Printed(ns, prefix), ", ")
  }

  method List(ns: seq<nat>, prefix: string) returns (text: string)
    ensures text == ListText(ns, prefix)
  {
    var s: seq<string> := [];
    for i := 0 to |ns|
      invariant s == Printed(ns[..i], prefix)
    {
      assert ns[..i + 1][..i] == ns[..i];
      s := s + [prefix + Digits(ns[i])];
    }
    assert ns[..|ns|] == ns;
    text := Join(s, ", ");
  }
}
