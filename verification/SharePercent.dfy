/** Shares of a total, written as decimal percentages and kept as fractions of 64-bit numbers. */
module SharePercent {
  import opened Common
  import opened Text
  import opened Decimal

  const TWO64: nat := 0x1_0000_0000_0000_0000
  const TWO63: nat := 0x8000_0000_0000_0000

  datatype Percent = Percent(denom: string, nominator: nat, denominator: nat)

  datatype Failure = Invalid(text: string) | TooBig(denom: string)

  // ----- The format -----

  function DigitRun(s: string, i: nat): (j: nat)
    requires i <= |s|
    ensures i <= j <= |s| && (j < |s| ==> !IsDigit(s[j]))
    ensures forall k :: i <= k < j ==> IsDigit(s[k])
    decreases |s| - i
  {
    if i < |s| && IsDigit(s[i]) then DigitRun(s, i + 1) else i
  }

  predicate DigitsBetween(s: string, i: nat, j: nat) {
    i <= j <= |s| && forall k :: i <= k < j ==> IsDigit(s[k])
  }

  /** What the expression ^[0-9]+.[0-9]*% says: digits, any character but a new line at i, digits, and a
      percent sign at j. */
  predicate MatchesAt(s: string, i: nat, j: nat) {
    0 < i < j < |s| && DigitsBetween(s, 0, i) && s[i] != '\n' && DigitsBetween(s, i + 1, j) && s[j] == '%'
  }

  /** The match, without a search. */
  predicate Matches(s: string) {
    var d := DigitRun(s, 0);
    && 0 < d < |s|
    && ((d > 1 && s[d] == '%') || (s[d] != '\n' && DigitRun(s, d + 1) < |s| && s[DigitRun(s, d + 1)] == '%'))
  }

  lemma {:induction false} RunEnds(s: string, i: nat, j: nat)
    requires DigitsBetween(s, i, j) && j < |s| && !IsDigit(s[j])
    ensures DigitRun(s, i) == j
    decreases j - i
  {
    if i < j {
      RunEnds(s, i + 1, j);
    }
  }

  lemma MatchesMeans(s: string)
    ensures Matches(s) <==> exists i: nat, j: nat :: MatchesAt(s, i, j)
  {
    var d := DigitRun(s, 0);
    if Matches(s) {
      if d > 1 && s[d] == '%' {
        assert MatchesAt(s, d - 1, d);
      } else {
        assert MatchesAt(s, d, DigitRun(s, d + 1));
      }
    }
    if i: nat, j: nat :| MatchesAt(s, i, j) {
      if IsDigit(s[i]) {
        assert DigitsBetween(s, 0, j);
        RunEnds(s, 0, j);
      } else {
        RunEnds(s, 0, i);
        RunEnds(s, i + 1, j);
      }
    }
  }

  // ----- Parsing -----

  function Pow(x: nat, y: nat): nat {
    if y == 0 then 1 else x * Pow(x, y - 1)
  }

  function TrimZeros(s: string): string {
    if s != "" && s[|s| - 1] == '0' then TrimZeros(s[..|s| - 1]) else s
  }

  lemma WrappedProduct(a: nat, b: nat)
    ensures (a % TWO64 * b) % TWO64 == (b * a) % TWO64
  {
    var q, r := a / TWO64, a % TWO64;
    assert a == q * TWO64 + r;
    MultipleWraps(q * b, r * b);
    assert b * a == q * b * TWO64 + r * b by {
      Spread(q, r, b);
    }
  }

  lemma Spread(q: nat, r: nat, b: nat)
    ensures b * (q * TWO64 + r) == q * b * TWO64 + r * b
  {
  }

  lemma MultipleWraps(q: nat, r: nat)
    ensures (q * TWO64 + r) % TWO64 == r % TWO64
  {
  }

  /** The power, cut to 64 bits; a power of zero counts as one of one. */
  method UintPow(x: nat, y: nat) returns (result: nat)
    requires x < TWO64
    ensures result == Pow(x, if y == 0 then 1 else y) % TWO64
  {
    result := x;
    var i := 1;
    assert Pow(x, 1) == x;
    while i < y
      invariant 1 <= i && (i <= y || i == 1) && result == Pow(x, i) % TWO64
      decreases y - i
    {
      WrappedProduct(Pow(x, i), x);
      result := result * x % TWO64;
      i := i + 1;
    }
  }

  function NewPercent(denom: string, nominator: nat, denominator: nat): Result<Percent, Failure> {
    if denominator < nominator then Err(TooBig(denom)) else Ok(Percent(denom, nominator, denominator))
  }

  /** 10 to the places of a percentage, and two more, in 64 bits. */
  function Denominator(places: nat): nat {
    Pow(10, places + 2) % TWO64
  }

  /** A percentage with the digits of the number without its point, of which `places` come after it. */
  function Scaled(text: string, denom: string, digits: string, places: nat): Result<Percent, Failure> {
    var nominator := ParseUint(digits, TWO64);
    if nominator.Err? then Err(Invalid(text)) else NewPercent(denom, nominator.value, Denominator(places))
  }

  function ParsedNumber(text: string, number: seq<string>, denom: string): Result<Percent, Failure> {
    if |number| == 1 then Scaled(text, denom, number[0], 0)
    else if |number| == 2 then
      Scaled(text, denom, number[0] + TrimZeros(number[1]), |TrimZeros(number[1])|)
    else Err(Invalid(text))
  }

  function Parsed(text: string): Result<Percent, Failure> {
    var foo := Split(text, '%');
    if !Matches(text) || |foo| < 2 then Err(Invalid(text)) else ParsedNumber(text, Split(foo[0], '.'), foo[1])
  }

  /** A text of the format holds a percent sign, so it splits in two or more. */
  lemma {:induction false} SplitHas(s: string, sep: char)
    ensures |Split(s, sep)| > 1 <==> sep in s
  {
    if s != "" {
      SplitHas(s[1..], sep);
      assert s == [s[0]] + s[1..];
    }
  }

  method SharePercentFromString(text: string) returns (r: Result<Percent, Failure>)
    ensures r == Parsed(text)
  {
    if !Matches(text) {
      return Err(Invalid(text));
    }
    var foo := Split(text, '%');
    SplitHas(text, '%');
    var fractional, denom := Split(foo[0], '.'), foo[1];
    if |fractional| == 1 {
      var nominator := ParseUint(fractional[0], TWO64);
      if nominator.Err? {
        return Err(Invalid(text));
      }
      assert Denominator(0) == 100;
      r := NewPercent(denom, nominator.value, 100);
    } else if |fractional| == 2 {
      var trimmed := TrimZeros(fractional[1]);
      var nominator := ParseUint(fractional[0] + trimmed, TWO64);
      if nominator.Err? {
        return Err(Invalid(text));
      }
      var denominator := UintPow(10, |trimmed| + 2);
      r := NewPercent(denom, nominator.value, denominator);
    } else {
      r := Err(Invalid(text));
    }
  }

  predicate FirstFailure(parts: seq<string>, k: nat, e: Failure) {
    k < |parts| && Parsed(parts[k]) == Err(e) && forall j :: 0 <= j < k ==> Parsed(parts[j]).Ok?
  }

  ghost predicate FirstError(parts: seq<string>, e: Failure) {
    exists k: nat :: FirstFailure(parts, k, e)
  }

  method ParseSharePercents(percents: string) returns (r: Result<seq<Percent>, Failure>)
    ensures r.Ok? ==>
      var parts := Split(percents, ',');
      |r.value| == |parts| && forall k :: 0 <= k < |parts| ==> Parsed(parts[k]) == Ok(r.value[k])
    ensures r.Err? ==> FirstError(Split(percents, ','), r.error)
  {
    var parts := Split(percents, ',');
    var ps: seq<Percent> := [];
    for i := 0 to |parts|
      invariant |ps| == i && forall k :: 0 <= k < i ==> Parsed(parts[k]) == Ok(ps[k])
    {
      var sp := SharePercentFromString(parts[i]);
      if sp.Err? {
        assert FirstFailure(parts, i, sp.error);
        assert FirstError(parts, sp.error);
        return Err(sp.error);
      }
      ps := ps + [sp.value];
    }
    r := Ok(ps);
  }

  // ----- A share of a total -----

  datatype Shared = Amount(amount: nat) | NotInteger | Panic

  /** The share in 64-bit arithmetic; a zero denominator and an amount beyond int64 panic. */
  function Share(p: Percent, total: nat): Shared {
    var product := total * p.nominator % TWO64;
    if p.denominator == 0 then Panic
    else if product % p.denominator != 0 then NotInteger
    else if product / p.denominator >= TWO63 then Panic
    else Amount(product / p.denominator)
  }
}
