/** Which percentages are read, and that they are read exactly. */
module SharePercentExact {
  import opened Common
  import opened Text
  import opened Decimal
  import opened SharePercent

  // ----- Powers of ten in 64 bits -----

  lemma {:induction false} PowIsPow10(n: nat)
    ensures Pow(10, n) == Pow10(n)
  {
    if n > 0 {
      PowIsPow10(n - 1);
    }
  }

  lemma {:induction false} Pow10Grows(a: nat, b: nat)
    requires a <= b
    ensures Pow10(a) <= Pow10(b)
  {
    if a < b {
      Pow10Grows(a, b - 1);
    }
  }

  lemma {:induction false} Pow10Sum(a: nat, b: nat)
    ensures Pow10(a + b) == Pow10(a) * Pow10(b)
  {
    if b > 0 {
      Pow10Sum(a, b - 1);
      TimesTen(Pow10(a), Pow10(b - 1));
    }
  }

  lemma Pow10Values()
    ensures Pow10(2) == 100 && Pow10(19) < TWO64 < Pow10(20)
  {
    assert Pow10(5) == 100_000;
    Pow10Sum(5, 5);
    Pow10Sum(10, 9);
    assert Pow10(4) == 10_000;
    Pow10Sum(5, 4);
    assert Pow10(19) == 10_000_000_000_000_000_000;
  }

  /** A denominator is the power of ten just up to 17 places. */
  lemma DenominatorFits(places: nat)
    ensures Denominator(places) == Pow10(places + 2) <==> places <= 17
    ensures Denominator(0) == 100 && Denominator(places) < TWO64
  {
    PowIsPow10(places + 2);
    PowIsPow10(2);
    Pow10Values();
    if places <= 17 {
      Pow10Grows(places + 2, 19);
    } else {
      Pow10Grows(20, places + 2);
    }
  }

  // ----- Trailing zeros -----

  lemma ValueOfMore(s: string, c: char)
    requires AllDigits(s) && IsDigit(c)
    ensures AllDigits(s + [c]) && Value(s + [c]) == 10 * Value(s) + DigitValue(c)
  {
    assert (s + [c])[..|s|] == s;
  }

  /** A zero at the end: what it does to the value, to the trimmed text and to the digits before it. */
  lemma TrailingZero(i: string, f: string)
    requires f != "" && f[|f| - 1] == '0' && AllDigits(i + f[..|f| - 1])
    ensures AllDigits(i + f) && Value(i + f) == 10 * Value(i + f[..|f| - 1]) && TrimZeros(f) == TrimZeros(f[..|f| - 1])
  {
    var n := |f| - 1;
    assert i + f == i + f[..n] + [f[n]];
    ValueOfMore(i + f[..n], f[n]);
  }

  lemma {:induction false} TrimmedSize(f: string)
    ensures |TrimZeros(f)| <= |f|
  {
    if f != "" && f[|f| - 1] == '0' {
      TrimmedSize(f[..|f| - 1]);
    }
  }

  lemma {:induction false} ValueOfTrimmed(i: string, f: string)
    requires AllDigits(i + TrimZeros(f))
    ensures AllDigits(i + f) && |TrimZeros(f)| <= |f|
    ensures Value(i + f) == Value(i + TrimZeros(f)) * Pow10(|f| - |TrimZeros(f)|)
  {
    TrimmedSize(f);
    if f != "" && f[|f| - 1] == '0' {
      var n := |f| - 1;
      var t := TrimZeros(f[..n]);
      ValueOfTrimmed(i, f[..n]);
      TrailingZero(i, f);
      TimesTen(Value(i + t), Pow10(n - |t|));
    }
  }

  lemma {:induction false} TrimmedEnd(f: string)
    ensures TrimZeros(f) != "" ==> TrimZeros(f)[|TrimZeros(f)| - 1] != '0'
  {
    if f != "" && f[|f| - 1] == '0' {
      TrimmedEnd(f[..|f| - 1]);
    }
  }

  lemma NonZero(i: string, t: string)
    requires AllDigits(i + t) && t != "" && t[|t| - 1] != '0'
    ensures Value(i + t) > 0
  {
  }

  // ----- Exactness -----

  /** The number i.f percent is the fraction nominator / denominator. */
  predicate Exact(p: Percent, i: string, f: string)
    requires AllDigits(i + f)
  {
    p.nominator * (100 * Pow10(|f|)) == p.denominator * Value(i + f)
  }

  lemma {:induction false} Steps(a: nat, b: nat, m: nat)
    ensures a > b ==> a * m >= b * m + m
    ensures a >= b ==> a * m >= b * m
  {
    if a > b {
      Steps(a - 1, b, m);
      OneLess(a, m);
    }
  }

  lemma OneLess(a: nat, m: nat)
    requires a > 0
    ensures a * m == (a - 1) * m + m
  {
  }

  lemma Cancel(a: nat, b: nat, m: nat)
    requires m > 0
    ensures a * m == b * m <==> a == b
    ensures a * m <= b * m <==> a <= b
  {
  }

  /** 100 times a power is the denominator's power times the zeros left out. */
  lemma Hundredfold(t: nat, f: nat)
    requires t <= f
    ensures 100 * Pow10(f) == Pow10(t + 2) * Pow10(f - t)
  {
    Pow10Values();
    Pow10Sum(2, f);
    Pow10Sum(t + 2, f - t);
    assert 2 + f == t + 2 + (f - t);
  }

  lemma Swapped(n: nat, d: nat, z: nat, p: nat)
    requires n > 0 && z > 0
    ensures n * (p * z) == d * (n * z) <==> p == d
  {
  }

  lemma ExactJust(n: nat, t: nat, f: nat)
    requires t <= f && (n == 0 ==> t == 0) && n <= Denominator(t)
    ensures 0 < Denominator(t) < TWO64
    ensures n * (100 * Pow10(f)) == Denominator(t) * (n * Pow10(f - t)) <==> t <= 17
  {
    DenominatorFits(t);
    Hundredfold(t, f);
    if n > 0 {
      Swapped(n, Denominator(t), Pow10(f - t), Pow10(t + 2));
    }
  }

  lemma ScaledMeans(text: string, denom: string, digits: string, places: nat)
    requires Scaled(text, denom, digits, places).Ok?
    ensures AllDigits(digits) && Value(digits) <= Denominator(places)
    ensures Scaled(text, denom, digits, places).value == Percent(denom, Value(digits), Denominator(places))
  {
  }

  /** A fraction read from the digits i and f is exact just when the places of f that are kept fit. */
  lemma ScaledExact(text: string, denom: string, i: string, f: string)
    requires
      var t := TrimZeros(f);
      Scaled(text, denom, i + t, |t|).Ok?
    ensures AllDigits(i + f)
    ensures
      var p := Scaled(text, denom, i + TrimZeros(f), |TrimZeros(f)|).value;
      && p.nominator <= p.denominator && 0 < p.denominator < TWO64 && p.denom == denom
      && (Exact(p, i, f) <==> |TrimZeros(f)| <= 17)
  {
    var t := TrimZeros(f);
    ScaledMeans(text, denom, i + t, |t|);
    KeptIsExact(Percent(denom, Value(i + t), Denominator(|t|)), i, f);
  }

  lemma KeptIsExact(p: Percent, i: string, f: string)
    requires AllDigits(i + TrimZeros(f))
    requires p.nominator == Value(i + TrimZeros(f)) <= p.denominator == Denominator(|TrimZeros(f)|)
    ensures AllDigits(i + f) && 0 < p.denominator < TWO64
    ensures Exact(p, i, f) <==> |TrimZeros(f)| <= 17
  {
    TrimmedValue(i, f);
    ExactJust(p.nominator, |TrimZeros(f)|, |f|);
  }

  lemma TrimmedValue(i: string, f: string)
    requires AllDigits(i + TrimZeros(f))
    ensures AllDigits(i + f) && |TrimZeros(f)| <= |f| && (Value(i + TrimZeros(f)) == 0 ==> TrimZeros(f) == "")
    ensures Value(i + f) == Value(i + TrimZeros(f)) * Pow10(|f| - |TrimZeros(f)|)
  {
    ValueOfTrimmed(i, f);
    TrimmedEnd(f);
    if TrimZeros(f) != "" {
      NonZero(i, TrimZeros(f));
    }
  }

  lemma NoZeros()
    ensures TrimZeros("") == ""
  {
  }

  /** The digits before and after the point of an accepted text's number. */
  function Whole(text: string): string {
    Split(Split(text, '%')[0], '.')[0]
  }

  function Fraction(text: string): string {
    var number := Split(Split(text, '%')[0], '.');
    if |number| > 1 then number[1] else ""
  }

  lemma AcceptedIsScaled(text: string)
    requires Parsed(text).Ok?
    ensures
      var t := TrimZeros(Fraction(text));
      |Split(text, '%')| > 1 && Parsed(text) == Scaled(text, Split(text, '%')[1], Whole(text) + t, |t|)
  {
    NoZeros();
    assert Whole(text) + "" == Whole(text);
  }

  /** An accepted percentage is at most one, its denominator is not zero, and it is the number that is written
      just when that number has at most 17 places, trailing zeros aside. */
  lemma AcceptedIsExact(text: string)
    requires Parsed(text).Ok?
    ensures AllDigits(Whole(text) + Fraction(text))
    ensures
      var p := Parsed(text).value;
      && p.nominator <= p.denominator && 0 < p.denominator < TWO64
      && (Exact(p, Whole(text), Fraction(text)) <==> |TrimZeros(Fraction(text))| <= 17)
  {
    AcceptedIsScaled(text);
    ScaledExact(text, Split(text, '%')[1], Whole(text), Fraction(text));
  }

  lemma TwentiethPower()
    ensures Denominator(18) == 7766279631452241920
  {
    PowIsPow10(20);
    Pow10Sum(10, 10);
    assert Pow10(5) == 100_000;
    Pow10Sum(5, 5);
  }

  /** With 18 places an accepted percentage is another number. */
  lemma EighteenPlaces(text: string)
    requires Parsed(text).Ok? && |TrimZeros(Fraction(text))| == 18
    ensures AllDigits(Whole(text) + Fraction(text)) && !Exact(Parsed(text).value, Whole(text), Fraction(text))
    ensures Parsed(text).value.denominator == 7766279631452241920
  {
    AcceptedIsExact(text);
    AcceptedIsScaled(text);
    TwentiethPower();
  }

  // ----- What is accepted -----

  lemma {:induction false} NotADigit(s: string, c: char)
    requires AllDigits(s) && !IsDigit(c)
    ensures c !in s
  {
  }

  lemma DecimalMatches(i: string, f: string, rest: string)
    requires AllDigits(i) && AllDigits(f) && i != ""
    ensures Matches(i + "." + f + "%" + rest)
  {
    var s := i + "." + f + "%" + rest;
    assert s[|i|] == '.' && s[|i| + 1 + |f|] == '%';
    assert forall k :: |i| < k < |i| + 1 + |f| ==> s[k] == f[k - |i| - 1];
    RunEnds(s, 0, |i|);
    RunEnds(s, |i| + 1, |i| + 1 + |f|);
  }

  lemma DecimalSplits(i: string, f: string, rest: string)
    requires AllDigits(i) && AllDigits(f)
    ensures Split(i + "." + f + "%" + rest, '%') == [i + "." + f] + Split(rest, '%')
    ensures Split(i + "." + f, '.') == [i, f]
  {
    NotADigit(i, '%');
    NotADigit(f, '%');
    NotADigit(i, '.');
    NotADigit(f, '.');
    SplitFirst(i + "." + f, '%', rest);
    SplitFirst(i, '.', f);
    SplitNone(f, '.');
  }

  function DenomOf(rest: string): string {
    Split(rest, '%')[0]
  }

  lemma TrimmedDigits(i: string, f: string)
    requires AllDigits(i) && AllDigits(f)
    ensures AllDigits(TrimZeros(f)) && AllDigits(i + TrimZeros(f))
  {
  }

  lemma {:induction false} TrimmedPrefix(f: string)
    ensures TrimZeros(f) <= f
  {
    if f != "" && f[|f| - 1] == '0' {
      TrimmedPrefix(f[..|f| - 1]);
    }
  }

  lemma ScaledDecimal(text: string, denom: string, i: string, f: string)
    requires AllDigits(i) && AllDigits(f) && i != "" && |TrimZeros(f)| <= 17
    ensures AllDigits(i + f) && AllDigits(i + TrimZeros(f))
    ensures
      var n := Value(i + TrimZeros(f));
      Scaled(text, denom, i + TrimZeros(f), |TrimZeros(f)|) ==
        if Value(i + f) <= 100 * Pow10(|f|) then Ok(Percent(denom, n, Pow10(|TrimZeros(f)| + 2)))
        else if n < TWO64 then Err(TooBig(denom))
        else Err(Invalid(text))
  {
    TrimmedDigits(i, f);
    ValueOfTrimmed(i, f);
    ScaledAccepted(text, denom, i + TrimZeros(f), |TrimZeros(f)|, |f|);
  }

  /** A number with a point and at most 17 places is accepted just when it is at most 100. */
  lemma DecimalAccepted(i: string, f: string, rest: string)
    requires AllDigits(i) && AllDigits(f) && i != "" && |TrimZeros(f)| <= 17
    ensures AllDigits(i + f) && AllDigits(i + TrimZeros(f))
    ensures
      var text, n := i + "." + f + "%" + rest, Value(i + TrimZeros(f));
      Parsed(text) ==
        if Value(i + f) <= 100 * Pow10(|f|) then Ok(Percent(DenomOf(rest), n, Pow10(|TrimZeros(f)| + 2)))
        else if n < TWO64 then Err(TooBig(DenomOf(rest)))
        else Err(Invalid(text))
  {
    DecimalIsScaled(i, f, rest);
    ScaledDecimal(i + "." + f + "%" + rest, DenomOf(rest), i, f);
  }

  lemma DecimalIsScaled(i: string, f: string, rest: string)
    requires AllDigits(i) && AllDigits(f) && i != ""
    ensures
      var text := i + "." + f + "%" + rest;
      Parsed(text) == Scaled(text, DenomOf(rest), i + TrimZeros(f), |TrimZeros(f)|)
  {
    DecimalMatches(i, f, rest);
    DecimalSplits(i, f, rest);
  }

  lemma ScaledAccepted(text: string, denom: string, digits: string, t: nat, f: nat)
    requires AllDigits(digits) && digits != "" && t <= 17 && t <= f
    ensures Scaled(text, denom, digits, t) ==
      if Value(digits) * Pow10(f - t) <= 100 * Pow10(f) then Ok(Percent(denom, Value(digits), Pow10(t + 2)))
      else if Value(digits) < TWO64 then Err(TooBig(denom))
      else Err(Invalid(text))
  {
    DenominatorFits(t);
    Hundredfold(t, f);
    Cancel(Value(digits), Pow10(t + 2), Pow10(f - t));
  }

  function Zeros(n: nat): string {
    if n == 0 then "" else Zeros(n - 1) + "0"
  }

  lemma {:induction false} ZerosValue(n: nat)
    ensures |Zeros(n)| == n && AllDigits(Zeros(n)) && Value(Zeros(n)) == 0
  {
    if n > 0 {
      ZerosValue(n - 1);
      assert Zeros(n)[..n - 1] == Zeros(n - 1);
    }
  }

  lemma OneAfterZeros(z: string)
    requires AllDigits(z) && Value(z) == 0
    ensures AllDigits("0" + (z + "1")) && Value("0" + (z + "1")) == 1
    ensures TrimZeros(z + "1") == z + "1"
  {
    var s := "0" + (z + "1");
    assert s[..|s| - 1] == "0" + z;
    ValueOfConcat("0", z);
    assert "0"[..0] == "" && Value("0") == 0;
  }

  /** 0.000000000000000001 percent is read as about 1.3e-17 percent. */
  lemma TinyPercent(rest: string)
    ensures
      var f := Zeros(17) + "1";
      Parsed("0" + "." + f + "%" + rest) == Ok(Percent(DenomOf(rest), 1, 7766279631452241920))
  {
    var f := Zeros(17) + "1";
    ZerosValue(17);
    OneAfterZeros(Zeros(17));
    DecimalIsScaled("0", f, rest);
    ScaledTiny("0" + "." + f + "%" + rest, DenomOf(rest), "0" + f);
  }

  lemma ScaledTiny(text: string, denom: string, digits: string)
    requires AllDigits(digits) && digits != "" && Value(digits) == 1
    ensures Scaled(text, denom, digits, 18) == Ok(Percent(denom, 1, 7766279631452241920))
  {
    TwentiethPower();
  }

  lemma WholeSplits(i: string, rest: string)
    requires AllDigits(i)
    ensures Split(i + "%" + rest, '%') == [i] + Split(rest, '%') && Split(i, '.') == [i]
  {
    NotADigit(i, '%');
    NotADigit(i, '.');
    SplitFirst(i, '%', rest);
    SplitNone(i, '.');
  }

  /** A number without a point is accepted when it is at most 100 - if it has two digits or more: a single digit
      is accepted only when the text after the percent sign is a number and another percent sign. */
  lemma WholeAccepted(i: string, rest: string)
    requires AllDigits(i) && i != ""
    ensures
      var text, d := i + "%" + rest, DigitRun(rest, 0);
      Parsed(text) ==
        if |i| == 1 && !(d < |rest| && rest[d] == '%') then Err(Invalid(text))
        else if Value(i) <= 100 then Ok(Percent(DenomOf(rest), Value(i), 100))
        else if Value(i) < TWO64 then Err(TooBig(DenomOf(rest)))
        else Err(Invalid(text))
  {
    var text := i + "%" + rest;
    WholeSplits(i, rest);
    WholeMatches(i, rest);
    DenominatorFits(0);
  }

  lemma WholeMatches(i: string, rest: string)
    requires AllDigits(i) && i != ""
    ensures
      var d := DigitRun(rest, 0);
      Matches(i + "%" + rest) <==> |i| > 1 || (d < |rest| && rest[d] == '%')
  {
    var text := i + "%" + rest;
    assert text[|i|] == '%';
    RunEnds(text, 0, |i|);
    ShiftedRun(i + "%", rest, 0);
  }

  lemma {:induction false} ShiftedRun(a: string, rest: string, k: nat)
    requires k <= |rest|
    ensures DigitRun(a + rest, |a| + k) == |a| + DigitRun(rest, k)
    decreases |rest| - k
  {
    if k < |rest| && IsDigit(rest[k]) {
      ShiftedRun(a, rest, k + 1);
    }
  }

  /** The error of a list is the one of the first part that is refused, and no other. */
  lemma ListError(parts: seq<string>, k: nat, e: Failure, f: Failure)
    requires k < |parts| && Parsed(parts[k]) == Err(f) && forall j :: 0 <= j < k ==> Parsed(parts[j]).Ok?
    ensures FirstError(parts, e) <==> e == f
  {
    assert FirstFailure(parts, k, f);
    if i: nat :| FirstFailure(parts, i, e) {
      assert !(k < i) && !(i < k);
    }
  }

  // ----- Shares -----

  lemma Quotient(a: nat, d: nat)
    requires d > 0
    ensures a % d == 0 ==> a / d * d == a
    ensures forall q: nat :: q * d == a ==> a % d == 0 && a / d == q
  {
    forall q: nat | q * d == a ensures a % d == 0 && a / d == q {
      Divides(q, d);
    }
  }

  lemma Divides(q: nat, d: nat)
    requires d > 0
    ensures q * d % d == 0 && q * d / d == q
  {
    assert q * d == q * d + 0;
    Unique(q, d, q * d / d, q * d % d);
  }

  lemma Unique(q: nat, d: nat, q': nat, r: nat)
    requires q * d == q' * d + r && r < d
    ensures q == q' && r == 0
  {
    Steps(q, q', d);
    Steps(q', q, d);
  }

  lemma NoMore(amount: nat, total: nat, n: nat, d: nat)
    requires n <= d && 0 < d
    ensures amount * d == total * n ==> amount <= total
  {
  }

  /** A share of a total is the exact part of it, and at most all of it, when the product fits in 64 bits - and
      only then. */
  lemma ShareIsExact(p: Percent, total: nat)
    requires p.nominator <= p.denominator && 0 < p.denominator && Share(p, total).Amount?
    ensures
      var amount := Share(p, total).amount;
      && (amount * p.denominator == total * p.nominator <==> total * p.nominator < TWO64)
      && (total * p.nominator < TWO64 ==> amount <= total)
  {
    var product := total * p.nominator;
    var amount := Share(p, total).amount;
    Quotient(product % TWO64, p.denominator);
    NoMore(amount, total, p.nominator, p.denominator);
  }

  /** There is a share just when the total divides, if nothing overflows. */
  lemma ShareExists(p: Percent, total: nat)
    requires p.nominator <= p.denominator && 0 < p.denominator
    requires total < TWO63 && total * p.nominator < TWO64
    ensures Share(p, total).Amount? <==> exists amount: nat :: amount * p.denominator == total * p.nominator
  {
    DividesExactly(total * p.nominator, p.denominator);
    NoMore(total * p.nominator / p.denominator, total, p.nominator, p.denominator);
  }

  /** Shares go up to the largest int64, and panic beyond it. */
  lemma ShareFits(p: Percent, total: nat, amount: nat)
    requires 0 < p.denominator && total * p.nominator < TWO64 && amount * p.denominator == total * p.nominator
    ensures Share(p, total) == if amount < TWO63 then Amount(amount) else Panic
  {
    Quotient(total * p.nominator, p.denominator);
  }

  lemma DividesExactly(a: nat, d: nat)
    requires d > 0
    ensures a % d == 0 <==> exists q: nat :: q * d == a
    ensures a % d == 0 ==> a / d * d == a
  {
    Quotient(a, d);
    if a % d == 0 {
      assert a / d * d == a;
    }
  }
}
