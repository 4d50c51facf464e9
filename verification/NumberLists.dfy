/** What parsing a list gives, and that it undoes printing. */
module NumberLists {
  import opened Common
  import opened Text
  import opened Decimal
  import opened Numbers

  // ----- The result of parsing -----

  lemma {:induction false} ExtendedMembers(ns: seq<nat>, start: nat, stop: nat, x: nat)
    ensures x in Extended(ns, start, stop) <==> x in ns || start <= x < stop
  {
    if start < stop {
      ExtendedMembers(ns, start, stop - 1, x);
    }
  }

  predicate Names(item: Item, x: nat) {
    item.Span? && item.start <= x <= item.end
  }

  lemma {:induction false} ListedMembers(items: seq<Item>, n: nat, x: nat)
    requires n <= |items|
    ensures x in Listed(items, n) <==> exists i :: 0 <= i < n && Names(items[i], x)
  {
    if n > 0 {
      ListedMembers(items, n - 1, x);
      if items[n - 1].Span? {
        ExtendedMembers(Listed(items, n - 1), items[n - 1].start, items[n - 1].end + 1, x);
      }
      assert x in Listed(items, n) <==> x in Listed(items, n - 1) || Names(items[n - 1], x);
    }
  }

  /** Every number an accepted list names, in order, repeats included. */
  function AllNamed(arg: string): seq<nat> {
    Listed(ItemsOf(arg), |ItemsOf(arg)|)
  }

  predicate Distinct(ns: seq<nat>) {
    forall i, j :: 0 <= i < j < |ns| ==> ns[i] != ns[j]
  }

  lemma {:induction false} FirstOnlyDistinct(ns: seq<nat>)
    ensures Distinct(FirstOnly(ns))
  {
    if ns != [] {
      FirstOnlyDistinct(ns[..|ns| - 1]);
      FirstOnlyMembers(ns[..|ns| - 1]);
    }
  }

  /** x is among the first i numbers. */
  predicate Within(ns: seq<nat>, x: nat, i: int) {
    0 <= i <= |ns| && x in ns[..i]
  }

  /** Of two numbers, the one that appears first comes first. */
  lemma {:induction false} FirstOnlyOrder(ns: seq<nat>, a: nat, b: nat, i: nat)
    requires a < b < |FirstOnly(ns)| && i <= |ns| && FirstOnly(ns)[b] in ns[..i]
    ensures FirstOnly(ns)[a] in ns[..i]
  {
    var n := |ns| - 1;
    FirstOnlyMembers(ns[..n]);
    if i <= n {
      assert ns[..i] == ns[..n][..i];
      if b < |FirstOnly(ns[..n])| {
        FirstOnlyOrder(ns[..n], a, b, i);
      }
    } else {
      FirstOnlyMembers(ns);
      assert ns[..i] == ns;
    }
  }

  ghost predicate FirstComeFirst(ns: seq<nat>, all: seq<nat>) {
    forall a, b, i :: 0 <= a < b < |ns| && Within(all, ns[b], i) ==> Within(all, ns[a], i)
  }

  lemma FirstOnlyKeepsOrder(all: seq<nat>)
    ensures FirstComeFirst(FirstOnly(all), all)
  {
    var ns := FirstOnly(all);
    forall a, b, i | 0 <= a < b < |ns| && Within(all, ns[b], i) ensures Within(all, ns[a], i) {
      FirstOnlyOrder(all, a, b, i);
    }
  }

  /** An accepted list gives exactly the numbers its parts name, each once, in the order in which they first
      appear. */
  lemma ParsedMeans(arg: string)
    requires Parsed(arg).Ok?
    ensures
      var items, ns := ItemsOf(arg), Parsed(arg).value;
      && Distinct(ns) && FirstComeFirst(ns, AllNamed(arg))
      && forall x :: x in ns <==> exists i :: 0 <= i < |items| && Names(items[i], x)
  {
    var all := AllNamed(arg);
    FirstOnlyDistinct(all);
    FirstOnlyMembers(all);
    FirstOnlyKeepsOrder(all);
    forall x ensures x in all <==> exists i :: 0 <= i < |ItemsOf(arg)| && Names(ItemsOf(arg)[i], x) {
      ListedMembers(ItemsOf(arg), |ItemsOf(arg)|, x);
    }
  }

  lemma ItemFits(part: string)
    ensures ItemOf(part).Span? ==> ItemOf(part).start <= ItemOf(part).end < LIMIT
  {
  }

  /** No number of an accepted list needs more than 32 bits. */
  lemma ParsedFits(arg: string, x: nat)
    requires Parsed(arg).Ok? && x in Parsed(arg).value
    ensures x < LIMIT
  {
    ParsedMeans(arg);
    var i :| 0 <= i < |ItemsOf(arg)| && Names(ItemsOf(arg)[i], x);
    ItemAt(Split(arg, ','), 0);
    ItemAt(Split(arg, ','), i);
    ItemFits(Split(arg, ',')[i]);
  }

  // ----- What the parts mean -----

  lemma NumberItem(a: string, n: nat, b: string)
    requires Blank(a) && Blank(b) && n < LIMIT
    ensures ItemOf(a + Digits(n) + b) == Span(n, n)
  {
    DigitsAreTight(n);
    TrimPadded(a, Digits(n), b);
    SplitNone(Digits(n), '-');
    TrimPadded("", Digits(n), "");
    assert "" + Digits(n) + "" == Digits(n);
    ValueOfDigits(n);
  }

  lemma TwoParts(x: string, y: string)
    requires '-' !in x && '-' !in y
    ensures Split(x + "-" + y, '-') == [x, y]
  {
    SplitFirst(x, '-', y);
    SplitNone(y, '-');
  }

  lemma TrimDigits(n: nat)
    ensures TrimSpace(Digits(n)) == Digits(n)
  {
  }

  lemma TightRange(x: string, y: string)
    requires (x == "" || Tight(x)) && (y == "" || Tight(y))
    ensures TrimSpace(x + "-" + y) == x + "-" + y
  {
  }

  /** A range names the numbers from its start to its end; it is refused when they are in the wrong order. */
  lemma RangeMeans(a: nat, b: nat)
    requires a < LIMIT && b < LIMIT
    ensures
      var text := Digits(a) + "-" + Digits(b);
      ItemOf(text) == if a <= b then Span(a, b) else Bad(Reversed(text))
  {
    DigitsAreTight(a);
    DigitsAreTight(b);
    TightRange(Digits(a), Digits(b));
    TwoParts(Digits(a), Digits(b));
    TrimDigits(a);
    TrimDigits(b);
    ValueOfDigits(a);
    ValueOfDigits(b);
  }

  lemma LeftRangeMeans(n: nat)
    requires n < LIMIT
    ensures ItemOf(Digits(n) + "-" + "") == Span(n, n)
  {
    DigitsAreTight(n);
    TrimDigits(n);
    ValueOfDigits(n);
    TightRange(Digits(n), "");
    TwoParts(Digits(n), "");
  }

  lemma RightRangeMeans(n: nat)
    requires n < LIMIT
    ensures ItemOf("" + "-" + Digits(n)) == Span(n, n)
  {
    DigitsAreTight(n);
    TrimDigits(n);
    ValueOfDigits(n);
    TightRange("", Digits(n));
    TwoParts("", Digits(n));
  }

  /** With one end left out, a range names the other. */
  lemma OpenRangeMeans(n: nat)
    requires n < LIMIT
    ensures ItemOf(Digits(n) + "-" + "") == Span(n, n) && ItemOf("" + "-" + Digits(n)) == Span(n, n)
  {
    LeftRangeMeans(n);
    RightRangeMeans(n);
  }

  /** The white space characters, by their code points. */
  lemma SpacesAre(c: char)
    ensures IsSpace(c) <==>
            c as int in [9, 10, 11, 12, 13, 32, 0x85, 0xA0, 0x1680, 0x2000, 0x2001, 0x2002, 0x2003, 0x2004, 0x2005,
                         0x2006, 0x2007, 0x2008, 0x2009, 0x200A, 0x2028, 0x2029, 0x202F, 0x205F, 0x3000]
  {
  }

  /** A printed list joins the numbers, each with the prefix. */
  lemma {:induction false} PrintedAt(ns: seq<nat>, prefix: string, i: nat)
    requires i < |ns|
    ensures |Printed(ns, prefix)| == |ns| && Printed(ns, prefix)[i] == prefix + Digits(ns[i])
  {
    var n := |ns| - 1;
    if n > 0 {
      PrintedAt(ns[..n], prefix, if i < n then i else 0);
    }
  }

  // ----- What is no number, and what no range -----

  /** The text is a number that fits in 32 bits. */
  predicate Denotes(text: string, n: nat) {
    text != "" && AllDigits(text) && Value(text) == n && n < LIMIT
  }

  predicate IsNumber(text: string) {
    text != "" && AllDigits(text) && Value(text) < LIMIT
  }

  /** The digits the text starts with are too many for 32 bits already. */
  predicate Overflows(text: string) {
    exists k :: 0 <= k <= |text| && AllDigits(text[..k]) && Value(text[..k]) >= LIMIT
  }

  lemma {:induction false} ValueGrows(s: string, k: nat)
    requires k <= |s| && AllDigits(s)
    ensures Value(s[..k]) <= Value(s)
    decreases |s|
  {
    if k == |s| {
      assert s[..k] == s;
    } else {
      var most := s[..|s| - 1];
      ValueGrows(most, k);
      assert most[..k] == s[..k];
    }
  }

  /** Text that is no number is refused: with a range error if the digits it starts with overflow, and else with a
      syntax error. */
  lemma NoNumber(text: string)
    ensures ParseUint(text, LIMIT).Ok? <==> IsNumber(text)
    ensures ParseUint(text, LIMIT) == Err(Range) <==> Overflows(text)
  {
    var n := Leading(text);
    if k :| 0 <= k <= |text| && AllDigits(text[..k]) && Value(text[..k]) >= LIMIT {
      assert forall i :: 0 <= i < k ==> text[..k][i] == text[i];
      ValueGrows(text[..n], k);
      assert text[..n][..k] == text[..k];
    }
  }

  /** A part without a dash is the number it is, or an error; white space alone is nothing. */
  lemma PlainPart(part: string)
    requires '-' !in TrimSpace(part)
    ensures
      var text := TrimSpace(part);
      && (text == "" ==> ItemOf(part) == Nothing)
      && (forall n :: Denotes(text, n) ==> ItemOf(part) == Span(n, n))
      && (text != "" && !IsNumber(text) ==> ItemOf(part) == Bad(Number(if Overflows(text) then Range else Syntax)))
  {
    var text := TrimSpace(part);
    SplitNone(text, '-');
    TrimTwice(part);
    NoNumber(text);
  }

  lemma {:induction false} TrimRightTight(s: string)
    ensures TrimRight(s) != "" ==> !IsSpace(TrimRight(s)[|TrimRight(s)| - 1])
    ensures TrimRight(s) != "" ==> s != "" && TrimRight(s)[0] == s[0]
  {
    if s != "" && IsSpace(s[|s| - 1]) {
      TrimRightTight(s[..|s| - 1]);
    }
  }

  lemma {:induction false} TrimLeftTight(s: string)
    ensures TrimLeft(s) != "" ==> !IsSpace(TrimLeft(s)[0])
  {
    if s != "" && IsSpace(s[0]) {
      TrimLeftTight(s[1..]);
    }
  }

  lemma TrimTwice(s: string)
    ensures Tight(TrimSpace(s)) && TrimSpace(TrimSpace(s)) == TrimSpace(s)
  {
    TrimLeftTight(s);
    TrimRightTight(TrimLeft(s));
    TrimPadded("", TrimSpace(s), "");
    assert "" + TrimSpace(s) + "" == TrimSpace(s);
  }

  /** The number a side of a range stands for: when it is left out, the other's. */
  function Side(side: string, other: string): string {
    if TrimSpace(side) == "" then TrimSpace(other) else TrimSpace(side)
  }

  /** What a range from one text to another is: the numbers between them, or an error. */
  ghost predicate RangeFrom(item: Item, start: string, end: string, text: string) {
    && (forall a, b :: Denotes(start, a) && Denotes(end, b) ==>
          item == if a <= b then Span(a, b) else Bad(Reversed(text)))
    && (!IsNumber(start) ==> item == Bad(Number(if Overflows(start) then Range else Syntax)))
    && (IsNumber(start) && !IsNumber(end) ==> item == Bad(Number(if Overflows(end) then Range else Syntax)))
  }

  /** With one dash, each side is a number or left out, which then is the other's. */
  lemma RangePart(part: string, x: string, y: string)
    requires TrimSpace(part) == x + "-" + y && '-' !in x && '-' !in y
    requires TrimSpace(x) != "" || TrimSpace(y) != ""
    ensures RangeFrom(ItemOf(part), Side(x, y), Side(y, x), x + "-" + y)
  {
    TwoParts(x, y);
    SpanMeans(Side(x, y), Side(y, x), x + "-" + y);
    assert ItemOf(part) == RangeItem(x, y, x + "-" + y);
  }

  lemma SpanMeans(start: string, end: string, text: string)
    ensures RangeFrom(SpanOf(start, end, text), start, end, text)
  {
    NoNumber(start);
    NoNumber(end);
  }

  /** A lone dash, with white space or without, is nothing. */
  lemma LoneDash(part: string, x: string, y: string)
    requires TrimSpace(part) == x + "-" + y && '-' !in x && '-' !in y
    requires TrimSpace(x) == "" && TrimSpace(y) == ""
    ensures ItemOf(part) == Nothing
  {
    TwoParts(x, y);
  }

  /** More dashes than one are refused. */
  lemma ManyDashes(part: string, x: string, y: string, z: string)
    requires TrimSpace(part) == x + "-" + (y + "-" + z) && '-' !in x && '-' !in y
    ensures ItemOf(part) == Bad(Malformed(TrimSpace(part)))
  {
    SplitFirst(x, '-', y + "-" + z);
    SplitFirst(y, '-', z);
  }

  lemma BlankHasNoDash(s: string)
    requires Blank(s)
    ensures '-' !in s
  {
  }

  lemma PaddedDigits(a: string, n: nat, b: string)
    requires Blank(a) && Blank(b) && n < LIMIT
    ensures '-' !in a + Digits(n) + b && TrimSpace(a + Digits(n) + b) == Digits(n) && Denotes(Digits(n), n)
  {
    DigitsAreTight(n);
    BlankHasNoDash(a);
    BlankHasNoDash(b);
    TrimPadded(a, Digits(n), b);
    ValueOfDigits(n);
  }

  lemma TightText(x: string, y: string)
    requires x != "" && y != "" && !IsSpace(x[0]) && !IsSpace(y[|y| - 1])
    ensures Tight(x + "-" + y)
  {
  }

  lemma LeftSide(m: nat, b: string)
    requires Blank(b) && m < LIMIT
    ensures
      var x := Digits(m) + b;
      '-' !in x && TrimSpace(x) == Digits(m) && Denotes(Digits(m), m) && x != "" && !IsSpace(x[0])
  {
    PaddedDigits("", m, b);
    assert "" + Digits(m) + b == Digits(m) + b;
    DigitsAreTight(m);
  }

  lemma RightSide(c: string, n: nat)
    requires Blank(c) && n < LIMIT
    ensures
      var y := c + Digits(n);
      '-' !in y && TrimSpace(y) == Digits(n) && Denotes(Digits(n), n) && y != "" && !IsSpace(y[|y| - 1])
  {
    PaddedDigits(c, n, "");
    assert c + Digits(n) + "" == c + Digits(n);
    DigitsAreTight(n);
  }

  /** A side of a range that reads as a number. */
  predicate IsSide(side: string, n: nat) {
    '-' !in side && TrimSpace(side) == Digits(n) && Denotes(Digits(n), n)
  }

  lemma SidesMean(a: string, x: string, m: nat, y: string, n: nat, d: string)
    requires Blank(a) && Blank(d) && Tight(x + "-" + y) && IsSide(x, m) && IsSide(y, n)
    ensures ItemOf(a + (x + "-" + y) + d) == if m <= n then Span(m, n) else Bad(Reversed(x + "-" + y))
  {
    TrimPadded(a, x + "-" + y, d);
    var part := a + (x + "-" + y) + d;
    RangePart(part, x, y);
    NumbersMean(ItemOf(part), Digits(m), m, Digits(n), n, x + "-" + y);
  }

  lemma NumbersMean(item: Item, start: string, m: nat, end: string, n: nat, text: string)
    requires RangeFrom(item, start, end, text) && Denotes(start, m) && Denotes(end, n)
    ensures item == if m <= n then Span(m, n) else Bad(Reversed(text))
  {
  }

  /** White space around the numbers of a range does not matter. */
  lemma SpacedRangeMeans(a: string, m: nat, b: string, c: string, n: nat, d: string)
    requires Blank(a) && Blank(b) && Blank(c) && Blank(d) && m < LIMIT && n < LIMIT
    ensures
      var text := (Digits(m) + b) + "-" + (c + Digits(n));
      ItemOf(a + text + d) == if m <= n then Span(m, n) else Bad(Reversed(text))
  {
    LeftSide(m, b);
    RightSide(c, n);
    TightText(Digits(m) + b, c + Digits(n));
    SidesMean(a, Digits(m) + b, m, c + Digits(n), n, d);
  }

  // ----- Parsing undoes printing -----

  /** The parts of a printed list: the numbers, with a space before all but the first. */
  function PrintedParts(ns: seq<nat>): seq<string> {
    if ns == [] then []
    else PrintedParts(ns[..|ns| - 1]) + [(if |ns| == 1 then "" else " ") + Digits(ns[|ns| - 1])]
  }

  lemma {:induction false} JoinLast(parts: seq<string>, last: string, sep: string)
    requires parts != []
    ensures Join(parts + [last], sep) == Join(parts, sep) + sep + last
  {
    if |parts| == 1 {
      assert (parts + [last])[1..] == [last];
    } else {
      assert (parts + [last])[1..] == parts[1..] + [last];
      JoinLast(parts[1..], last, sep);
    }
  }

  lemma {:induction false} SplitLast(s: string, last: string, sep: char)
    requires sep !in last
    ensures Split(s + [sep] + last, sep) == Split(s, sep) + [last]
  {
    if s == "" {
      SplitFirst("", sep, last);
      SplitNone(last, sep);
      assert s + [sep] + last == "" + [sep] + last;
    } else {
      assert (s + [sep] + last)[1..] == s[1..] + [sep] + last;
      SplitLast(s[1..], last, sep);
    }
  }

  lemma {:induction false} PrintedSize(ns: seq<nat>)
    ensures |Printed(ns, "")| == |ns|
  {
    if ns != [] {
      PrintedSize(ns[..|ns| - 1]);
    }
  }

  lemma PrintedMore(ns: seq<nat>, last: nat)
    requires ns != []
    ensures ListText(ns + [last], "") == ListText(ns, "") + [','] + (" " + Digits(last))
  {
    assert (ns + [last])[..|ns|] == ns;
    PrintedSize(ns);
    JoinLast(Printed(ns, ""), "" + Digits(last), ", ");
    Comma(ListText(ns, ""), Digits(last));
  }

  lemma Comma(before: string, last: string)
    ensures before + ", " + ("" + last) == before + [','] + (" " + last)
  {
  }

  lemma {:induction false} SplitPrinted(ns: seq<nat>)
    requires ns != []
    ensures Split(ListText(ns, ""), ',') == PrintedParts(ns)
  {
    var n := |ns| - 1;
    DigitsAreTight(ns[n]);
    if n == 0 {
      SplitOne(ns[0]);
    } else {
      SplitPrinted(ns[..n]);
      assert ns == ns[..n] + [ns[n]];
      PrintedMore(ns[..n], ns[n]);
      SplitLast(ListText(ns[..n], ""), " " + Digits(ns[n]), ',');
    }
  }

  lemma SplitOne(n: nat)
    ensures Split(ListText([n], ""), ',') == PrintedParts([n])
  {
    assert [n][..0] == [];
    assert "" + Digits(n) == Digits(n);
    assert Printed([n], "") == [Digits(n)] && PrintedParts([n]) == [Digits(n)];
    DigitsAreTight(n);
    SplitNone(Digits(n), ',');
  }

  predicate AllSmall(ns: seq<nat>) {
    forall i :: 0 <= i < |ns| ==> ns[i] < LIMIT
  }

  function Singles(ns: seq<nat>): seq<Item> {
    if ns == [] then [] else Singles(ns[..|ns| - 1]) + [Span(ns[|ns| - 1], ns[|ns| - 1])]
  }

  lemma {:induction false} PrintedItems(ns: seq<nat>)
    requires AllSmall(ns)
    ensures Items(PrintedParts(ns)) == Singles(ns)
  {
    if ns != [] {
      var n := |ns| - 1;
      PrintedItems(ns[..n]);
      var pad := if n == 0 then "" else " ";
      NumberItem(pad, ns[n], "");
      assert pad + Digits(ns[n]) + "" == pad + Digits(ns[n]);
      assert PrintedParts(ns)[..|PrintedParts(ns)| - 1] == PrintedParts(ns[..n]);
    }
  }

  lemma {:induction false} SinglesAt(ns: seq<nat>, i: nat)
    requires i < |ns|
    ensures |Singles(ns)| == |ns| && Singles(ns)[i] == Span(ns[i], ns[i])
  {
    var n := |ns| - 1;
    if n > 0 {
      SinglesAt(ns[..n], if i < n then i else 0);
    }
  }

  lemma {:induction false} SinglesListed(items: seq<Item>, ns: seq<nat>, n: nat)
    requires |items| == |ns| && n <= |ns| && forall i :: 0 <= i < |ns| ==> items[i] == Span(ns[i], ns[i])
    ensures Listed(items, n) == ns[..n]
  {
    if n > 0 {
      SinglesListed(items, ns, n - 1);
      var x := ns[n - 1];
      assert Extended(ns[..n - 1], x, x + 1) == ns[..n - 1] + [x];
    }
  }

  lemma PrintedGathered(ns: seq<nat>)
    requires ns != []
    ensures Gathered(Singles(ns)) == Ok(FirstOnly(ns))
  {
    forall i | 0 <= i < |ns| ensures |Singles(ns)| == |ns| && Singles(ns)[i] == Span(ns[i], ns[i]) {
      SinglesAt(ns, i);
    }
    SinglesListed(Singles(ns), ns, |ns|);
    assert ns[..|ns|] == ns;
  }

  lemma {:induction false} FirstOnlyOfDistinct(ns: seq<nat>)
    requires Distinct(ns)
    ensures FirstOnly(ns) == ns
  {
    if ns != [] {
      FirstOnlyOfDistinct(ns[..|ns| - 1]);
    }
  }

  lemma NothingPrinted()
    ensures Parsed(ListText([], "")) == Ok([])
  {
  }

  /** Parsing a printed list gives its numbers back, repeats dropped. */
  lemma ParsePrinted(ns: seq<nat>)
    requires AllSmall(ns)
    ensures Parsed(ListText(ns, "")) == Ok(FirstOnly(ns))
    ensures Distinct(ns) ==> Parsed(ListText(ns, "")) == Ok(ns)
  {
    if ns == [] {
      NothingPrinted();
    } else {
      SplitPrinted(ns);
      PrintedItems(ns);
      PrintedGathered(ns);
    }
    if Distinct(ns) {
      FirstOnlyOfDistinct(ns);
    }
  }

  /** What was parsed once prints to a list that parses to the same numbers. */
  lemma ParsedIsStable(arg: string)
    requires Parsed(arg).Ok?
    ensures Parsed(ListText(Parsed(arg).value, "")) == Parsed(arg)
  {
    var ns := Parsed(arg).value;
    forall i | 0 <= i < |ns| ensures ns[i] < LIMIT {
      ParsedFits(arg, ns[i]);
    }
    ParsedMeans(arg);
    ParsePrinted(ns);
  }
}
