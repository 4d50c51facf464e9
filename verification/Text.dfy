/** Operations of Go's strings and bytes packages on non-empty patterns, read left to right. */
module Text {
  predicate At<T(==)>(s: seq<T>, m: seq<T>, i: int) {
    0 <= i <= |s| - |m| && s[i..i + |m|] == m
  }

  /** Position of the first occurrence of m at or after i, or -1. */
  function IndexFrom<T(==)>(s: seq<T>, m: seq<T>, i: nat): (k: int)
    ensures k == -1 || (i <= k && At(s, m, k))
    ensures forall j {:trigger At(s, m, j)} :: i <= j && At(s, m, j) ==> 0 <= k <= j
    decreases |s| - i
  {
    if i + |m| > |s| then -1 else if At(s, m, i) then i else IndexFrom(s, m, i + 1)
  }

  /** Position of the first occurrence of m, or -1. */
  function Index<T(==)>(s: seq<T>, m: seq<T>): (k: int)
    ensures k == -1 || At(s, m, k)
    ensures forall j {:trigger At(s, m, j)} :: At(s, m, j) ==> 0 <= k <= j
  {
    IndexFrom(s, m, 0)
  }

  /** Number of non-overlapping occurrences of m. */
  function Count<T(==)>(s: seq<T>, m: seq<T>): nat
    requires m != []
    decreases |s|
  {
    var i := Index(s, m);
    if i < 0 then 0 else 1 + Count(s[i + |m|..], m)
  }

  /** Replaces the first n occurrences of m by r; all of them when n is negative. */
  function Replace<T(==)>(s: seq<T>, m: seq<T>, r: seq<T>, n: int): seq<T>
    requires m != []
    decreases |s|
  {
    var i := Index(s, m);
    if n == 0 || i < 0 then s else s[..i] + r + Replace(s[i + |m|..], m, r, n - 1)
  }

  /** Replaces the first occurrence of m by r: Replace with n = 1. */
  function ReplaceFirst<T(==)>(s: seq<T>, m: seq<T>, r: seq<T>): seq<T>
    requires m != []
  {
    var i := Index(s, m);
    if i < 0 then s else s[..i] + r + s[i + |m|..]
  }

  lemma ReplaceFirstIsReplace<T>(s: seq<T>, m: seq<T>, r: seq<T>)
    requires m != []
    ensures ReplaceFirst(s, m, r) == Replace(s, m, r, 1)
  {
  }

  function ReplaceAll<T(==)>(s: seq<T>, m: seq<T>, r: seq<T>): seq<T>
    requires m != []
  {
    Replace(s, m, r, -1)
  }

  /** Splits around every occurrence of one separator; never empty. */
  function Split<T(==)>(s: seq<T>, sep: T): (parts: seq<seq<T>>)
    ensures parts != []
  {
    if s == [] then [[]]
    else
      var rest := Split(s[1..], sep);
      if s[0] == sep then [[]] + rest else [[s[0]] + rest[0]] + rest[1..]
  }

  function Join<T>(parts: seq<seq<T>>, sep: seq<T>): seq<T> {
    if parts == [] then [] else if |parts| == 1 then parts[0] else parts[0] + sep + Join(parts[1..], sep)
  }

  // ----- Occurrences -----

  lemma AtIndex<T>(s: seq<T>, m: seq<T>, i: int, k: nat)
    requires k < |m|
    ensures At(s, m, i) ==> s[i + k] == m[k]
  {
  }

  lemma AtInPrefix<T>(a: seq<T>, b: seq<T>, m: seq<T>, j: int)
    requires j <= |a| - |m|
    ensures At(a + b, m, j) <==> At(a, m, j)
  {
  }

  lemma AtInSuffix<T>(a: seq<T>, b: seq<T>, m: seq<T>, j: int)
    requires 0 <= j
    ensures At(a + b, m, |a| + j) <==> At(b, m, j)
  {
  }

  /** m does not occur in x + m before the end of x. */
  predicate NoneBefore<T(==)>(x: seq<T>, m: seq<T>) {
    forall j :: 0 <= j < |x| ==> !At(x + m, m, j)
  }

  /** Then its first occurrence in any text that starts with x + m is there. */
  lemma FirstOccurrence<T>(x: seq<T>, m: seq<T>, y: seq<T>, r: seq<T>)
    requires m != [] && NoneBefore(x, m)
    ensures Index(x + m + y, m) == |x|
    ensures ReplaceFirst(x + m + y, m, r) == x + r + y
    ensures Count(x + m + y, m) == 1 + Count(y, m)
  {
    var s := x + m + y;
    assert s[|x|..|x| + |m|] == m && s[|x| + |m|..] == y && s[..|x|] == x;
    assert At(s, m, |x|);
    AtInPrefix(x + m, y, m, Index(s, m));
  }

  /** A found pattern splits the text at its first occurrence. */
  lemma FoundSplit<T>(s: seq<T>, m: seq<T>) returns (x: seq<T>, y: seq<T>)
    requires Index(s, m) >= 0
    ensures s == x + m + y && NoneBefore(x, m) && |x| == Index(s, m)
  {
    var k := Index(s, m);
    x, y := s[..k], s[k + |m|..];
    assert s == s[..k] + s[k..k + |m|] + s[k + |m|..];
    forall j | 0 <= j < |x| ensures !At(x + m, m, j) {
      AtInPrefix(x + m, y, m, j);
    }
  }

  lemma CountPart<T>(a: seq<T>, s: seq<T>, b: seq<T>, m: seq<T>)
    requires m != []
    ensures Count(s, m) > 0 ==> Count(a + s + b, m) > 0
  {
    var i := Index(s, m);
    if i >= 0 {
      AtInSuffix(a, s, m, i);
      AtInPrefix(a + s, b, m, |a| + i);
    }
  }

  lemma CountMissing<T>(s: seq<T>, m: seq<T>, c: T)
    requires c in m && c !in s
    ensures Count(s, m) == 0
  {
  }

  // ----- Splitting -----

  lemma {:induction false} SplitFirst<T>(a: seq<T>, sep: T, rest: seq<T>)
    requires sep !in a
    ensures Split(a + [sep] + rest, sep) == [a] + Split(rest, sep)
  {
    var s := a + [sep] + rest;
    if a == [] {
      assert s[1..] == rest;
    } else {
      assert s[1..] == a[1..] + [sep] + rest;
      SplitFirst(a[1..], sep, rest);
      assert [s[0]] + a[1..] == a;
    }
  }

  lemma {:induction false} SplitNone<T>(a: seq<T>, sep: T)
    requires sep !in a
    ensures Split(a, sep) == [a]
  {
    if a != [] {
      SplitNone(a[1..], sep);
      assert [a[0]] + a[1..] == a;
    }
  }

  /** No part of a split holds the separator, and joining the parts gives the string back. */
  lemma {:induction false} SplitParts<T>(s: seq<T>, sep: T)
    ensures forall i :: 0 <= i < |Split(s, sep)| ==> sep !in Split(s, sep)[i]
    ensures Join(Split(s, sep), [sep]) == s
  {
    if s != [] {
      SplitParts(s[1..], sep);
      var rest := Split(s[1..], sep);
      assert s == [s[0]] + s[1..];
      if s[0] == sep {
        assert ([[]] + rest)[1..] == rest;
      } else {
        var parts := Split(s, sep);
        assert parts[1..] == rest[1..];
      }
    }
  }
}
