/** Decimal notation of natural numbers, and strconv.ParseUint in base 10. */
module Decimal {
  import opened Common

  predicate IsDigit(c: char) {
    '0' <= c <= '9'
  }

  predicate AllDigits(s: string) {
    forall i :: 0 <= i < |s| ==> IsDigit(s[i])
  }

  function DigitOf(n: nat): (c: char)
    requires n < 10
    ensures IsDigit(c)
  {
    '0' + n as char
  }

  function DigitValue(c: char): (n: nat)
    requires IsDigit(c)
    ensures n < 10
  {
    (c - '0') as nat
  }

  function Pow10(n: nat): (p: nat)
    ensures p > 0
  {
    if n == 0 then 1 else 10 * Pow10(n - 1)
  }

  /** The decimal digits of n, without leading zeros. */
  function Digits(n: nat): (s: string)
    ensures s != "" && AllDigits(s)
  {
    if n < 10 then [DigitOf(n)] else Digits(n / 10) + [DigitOf(n % 10)]
  }

  /** The number a digit string denotes, leading zeros allowed. */
  function Value(s: string): nat
    requires AllDigits(s)
  {
    if s == "" then 0 else 10 * Value(s[..|s| - 1]) + DigitValue(s[|s| - 1])
  }

  lemma {:induction false} ValueOfDigits(n: nat)
    ensures Value(Digits(n)) == n
  {
    if n >= 10 {
      ValueOfDigits(n / 10);
      var s := Digits(n);
      assert s[..|s| - 1] == Digits(n / 10);
    } else {
      assert Value(Digits(n)[..0]) == 0;
    }
  }

  lemma DigitsInjective(a: nat, b: nat)
    requires Digits(a) == Digits(b)
    ensures a == b
  {
    ValueOfDigits(a);
    ValueOfDigits(b);
  }

  lemma {:induction false} ValueOfConcat(s: string, t: string)
    requires AllDigits(s) && AllDigits(t)
    ensures AllDigits(s + t)
    ensures Value(s + t) == Value(s) * Pow10(|t|) + Value(t)
  {
    if t == "" {
      assert s + t == s;
    } else {
      var k := |t| - 1;
      ValueOfConcat(s, t[..k]);
      assert (s + t)[..|s + t| - 1] == s + t[..k];
      var v, w, d := Value(s), Value(t[..k]), DigitValue(t[k]);
      assert Value(s + t) == 10 * (v * Pow10(k) + w) + d && Value(t) == 10 * w + d;
      TimesTen(v, Pow10(k));
    }
  }

  lemma TimesTen(v: nat, p: nat)
    ensures 10 * (v * p) == v * (10 * p)
  {
  }

  lemma {:induction false} ValueBound(s: string)
    requires AllDigits(s)
    ensures Value(s) < Pow10(|s|)
  {
    if s != "" {
      ValueBound(s[..|s| - 1]);
    }
  }

  datatype ParseError = Syntax | Range

  /** How many digits the text starts with. */
  function Leading(s: string): (n: nat)
    ensures n <= |s| && AllDigits(s[..n]) && (n < |s| ==> !IsDigit(s[n]))
  {
    if s == "" || !IsDigit(s[0]) then 0
    else
      assert s[..1 + Leading(s[1..])] == [s[0]] + s[1..][..Leading(s[1..])];
      1 + Leading(s[1..])
  }

  /** strconv.ParseUint(s, 10, bits) for a type whose values are below `limit`: it reads digits until the value is
      too large or a character is not a digit, whatever comes first. */
  function ParseUint(s: string, limit: nat): (r: Result<nat, ParseError>)
    ensures r.Ok? <==> s != "" && AllDigits(s) && Value(s) < limit
    ensures r.Ok? ==> r.value == Value(s)
  {
    var n := Leading(s);
    assert n == |s| ==> s[..n] == s;
    if s == "" then Err(Syntax)
    else if Value(s[..n]) >= limit then Err(Range)
    else if n < |s| then Err(Syntax)
    else Ok(Value(s))
  }
}
