/** What number a score's text denotes (src/evaluator.rs), and how two decimal scores compare. */
module Decimals {
  import opened Wrappers
  import opened Text
  import opened Json
  import opened Score
  import opened Reals

  ghost predicate AllDigits(s: string) {
    forall c :: c in s ==> IsDigit(c)
  }

  // ---------------------------------------------------------------- powers of ten

  function PowerOfTen(n: int): real
    decreases if n < 0 then -n else n
  {
    if n == 0 then 1.0 else if n > 0 then 10.0 * PowerOfTen(n - 1) else PowerOfTen(n + 1) / 10.0
  }

  lemma TenTimes(x: real, p: real)
    ensures (10.0 * x) * p == x * (10.0 * p)
    ensures (x / 10.0) * p == x * (p / 10.0)
  {}

  lemma {:induction false} ShiftIsProduct(x: real, n: int)
    ensures Shift(x, n) == x * PowerOfTen(n)
    decreases if n < 0 then -n else n
  {
    if n == 0 {
    } else if n > 0 {
      ShiftIsProduct(10.0 * x, n - 1);
      TenTimes(x, PowerOfTen(n - 1));
    } else {
      ShiftIsProduct(x / 10.0, n + 1);
      TenTimes(x, PowerOfTen(n + 1));
    }
  }

  lemma {:induction false} ShiftNegates(x: real, n: int)
    ensures Shift(-x, n) == -Shift(x, n)
    decreases if n < 0 then -n else n
  {
    if n == 0 {
    } else if n > 0 {
      assert 10.0 * -x == -(10.0 * x);
      ShiftNegates(10.0 * x, n - 1);
    } else {
      assert -x / 10.0 == -(x / 10.0);
      ShiftNegates(x / 10.0, n + 1);
    }
  }

  lemma {:induction false} ShiftKeepsOrder(x: real, y: real, n: int)
    ensures x <= y <==> Shift(x, n) <= Shift(y, n)
    decreases if n < 0 then -n else n
  {
    if n == 0 {
    } else if n > 0 {
      ShiftKeepsOrder(10.0 * x, 10.0 * y, n - 1);
    } else {
      ShiftKeepsOrder(x / 10.0, y / 10.0, n + 1);
    }
  }

  /** `m` with `n` zeros appended. */
  function TimesTens(m: int, n: nat): int
    decreases n
  {
    if n == 0 then m else TimesTens(10 * m, n - 1)
  }

  lemma {:induction false} ShiftStep(x: real, n: int)
    ensures Shift(x, n + 1) == Shift(10.0 * x, n)
    decreases if n < 0 then -n else n
  {
    if n >= 0 {
    } else {
      ShiftStep(x / 10.0, n + 1);
      assert 10.0 * (x / 10.0) == x == (10.0 * x) / 10.0;
    }
  }

  lemma {:induction false} ShiftWhole(m: int, k: int, n: nat)
    ensures Shift(m as real, k + n) == Shift(TimesTens(m, n) as real, k)
    decreases n
  {
    if n == 0 {
    } else {
      ShiftStep(m as real, k + n - 1);
      assert (10 * m) as real == 10.0 * m as real;
      ShiftWhole(10 * m, k, n - 1);
    }
  }

  // ---------------------------------------------------------------- reading the text apart

  lemma {:induction false} CutNone(s: string, at: set<char>)
    requires forall c :: c in s ==> c !in at
    ensures Cut(s, at) == (s, "")
  {
    if s == [] {
    } else {
      CutNone(s[1..], at);
      assert s == [s[0]] + s[1..];
    }
  }

  lemma {:induction false} CutAt(left: string, mark: char, right: string, at: set<char>)
    requires mark in at && forall c :: c in left ==> c !in at
    ensures Cut(left + [mark] + right, at) == (left, right)
  {
    var s := left + [mark] + right;
    if left == [] {
      assert s[0] == mark && s[1..] == right;
    } else {
      CutAt(left[1..], mark, right, at);
      assert s[0] == left[0] && s[1..] == left[1..] + [mark] + right;
      assert left == [left[0]] + left[1..];
    }
  }

  lemma {:induction false} DigitsOnly(s: string)
    requires AllDigits(s)
    ensures Digits(s) == NatValue(s)
  {
    if s == [] {
    } else {
      DigitsOnly(s[..|s| - 1]);
      assert s[|s| - 1] in s;
    }
  }

  lemma {:induction false} DigitsAfterSign(s: string)
    requires AllDigits(s)
    ensures Digits("-" + s) == NatValue(s)
  {
    var t := "-" + s;
    if s == [] {
      assert t[..0] == "" && t[0] == '-';
    } else {
      DigitsAfterSign(s[..|s| - 1]);
      assert t[|t| - 1] == s[|s| - 1] && s[|s| - 1] in s;
      assert t[..|t| - 1] == "-" + s[..|s| - 1];
    }
  }

  // ---------------------------------------------------------------- decimal notation

  function Signed(negative: bool, n: int): int {
    if negative then -n else n
  }

  /** A number as it is written: a sign, digits, digits after a point if there is one, and a power of ten if there is
      one. */
  datatype Decimal = Decimal(negative: bool, whole: string, fraction: Option<string>, exponent: Option<int>) {
    ghost predicate Valid() {
      && whole != "" && AllDigits(whole)
      && (fraction.Some? ==> AllDigits(fraction.value))
    }

    function Mantissa(): string {
      (if negative then "-" else "") + whole + (match fraction case None => "" case Some(f) => "." + f)
    }

    function Written(): string {
      Mantissa() + match exponent case None => "" case Some(e) => "e" + IntText(e)
    }

    function Places(): string {
      match fraction case None => "" case Some(f) => f
    }

    function Power(): int {
      match exponent case None => 0 case Some(e) => e
    }

    /** The power of ten of the last digit written. */
    function Scale(): int {
      Power() - |Places()|
    }

    /** The digits as one whole number, with the sign. */
    function Significand(): int
      requires Valid()
    {
      Signed(negative, NatValue(whole + Places()))
    }
  }

  lemma MantissaCut(d: Decimal)
    requires d.Valid()
    ensures forall c :: c in d.Mantissa() ==> c !in {'e', 'E'}
    ensures Cut(d.Mantissa(), {'.'}) == ((if d.negative then "-" else "") + d.whole, d.Places())
  {
    var left := (if d.negative then "-" else "") + d.whole;
    match d.fraction
    case None =>
      assert d.Mantissa() == left;
      CutNone(left, {'.'});
    case Some(f) =>
      assert d.Mantissa() == left + ['.'] + f;
      CutAt(left, '.', f, {'.'});
  }

  lemma WrittenCut(d: Decimal)
    requires d.Valid()
    ensures Cut(d.Written(), {'e', 'E'}) == (d.Mantissa(), match d.exponent case None => "" case Some(e) => IntText(e))
  {
    MantissaCut(d);
    match d.exponent
    case None =>
      assert d.Written() == d.Mantissa();
      CutNone(d.Mantissa(), {'e', 'E'});
    case Some(e) =>
      assert d.Written() == d.Mantissa() + ['e'] + IntText(e);
      CutAt(d.Mantissa(), 'e', IntText(e), {'e', 'E'});
  }

  lemma SizeDigits(d: Decimal)
    requires d.Valid()
    ensures Digits((if d.negative then "-" else "") + d.whole + d.Places()) == NatValue(d.whole + d.Places())
  {
    var digits := d.whole + d.Places();
    if d.negative {
      assert "-" + d.whole + d.Places() == "-" + digits;
      DigitsAfterSign(digits);
    } else {
      assert "" + d.whole + d.Places() == digits;
      DigitsOnly(digits);
    }
  }

  lemma ReadApart(d: Decimal) returns (mantissa: string, exponent: string, whole: string, fraction: string)
    requires d.Valid()
    ensures Cut(d.Written(), {'e', 'E'}) == (mantissa, exponent) && Cut(mantissa, {'.'}) == (whole, fraction)
    ensures Exponent(exponent) == d.Power() && |fraction| == |d.Places()|
    ensures Digits(whole + fraction) == NatValue(d.whole + d.Places())
    ensures '-' in whole <==> d.negative
  {
    WrittenCut(d);
    MantissaCut(d);
    ExponentRead(d);
    SizeDigits(d);
    SignRead(d);
    mantissa := d.Mantissa();
    exponent := match d.exponent case None => "" case Some(e) => IntText(e);
    whole := (if d.negative then "-" else "") + d.whole;
    fraction := d.Places();
  }

  lemma ReadExact(d: Decimal)
    requires d.Valid()
    ensures Read(d.Written()) == Reading(d.negative, NatValue(d.whole + d.Places()), d.Scale())
  {
    var mantissa, exponent, whole, fraction := ReadApart(d);
  }

  lemma SignShifts(negative: bool, n: nat, e: int, x: real)
    requires x == Worth(Reading(negative, n, e))
    ensures x == Shift(Signed(negative, n) as real, e)
  {
    ShiftNegates(n as real, e);
    assert Signed(true, n) as real == -(n as real);
  }

  lemma FloatValueShifted(d: Decimal)
    requires d.Valid()
    ensures FloatValue(d.Written()) == Shift(d.Significand() as real, d.Scale())
  {
    ReadExact(d);
    SignShifts(d.negative, NatValue(d.whole + d.Places()), d.Scale(), FloatValue(d.Written()));
  }

  /** The value is `m` times ten to the power `e`. */
  ghost predicate Denotes(value: real, m: int, e: int) {
    value == m as real * PowerOfTen(e)
  }

  lemma ShiftDenotes(value: real, m: int, e: int)
    requires value == Shift(m as real, e)
    ensures Denotes(value, m, e)
  {
    ShiftIsProduct(m as real, e);
  }

  /** The number that a decimal text denotes: its digits as one whole number, times a power of ten, which the exponent
      raises and every digit after the point lowers by one; a minus sign negates it. */
  lemma FloatValueExact(d: Decimal)
    requires d.Valid()
    ensures Denotes(FloatValue(d.Written()), d.Significand(), d.Scale())
  {
    FloatValueShifted(d);
    ShiftDenotes(FloatValue(d.Written()), d.Significand(), d.Scale());
  }

  lemma ExponentRead(d: Decimal)
    ensures Exponent(match d.exponent case None => "" case Some(e) => IntText(e)) == d.Power()
  {
    match d.exponent
    case None =>
    case Some(e) => IntRoundTrip(e);
  }

  lemma SignRead(d: Decimal)
    requires d.Valid()
    ensures '-' in ((if d.negative then "-" else "") + d.whole) <==> d.negative
  {
    if d.negative {
      assert ("-" + d.whole)[0] == '-';
    }
  }

  // ---------------------------------------------------------------- comparing

  function Min(a: int, b: int): int {
    if a <= b then a else b
  }

  /** Decimal `a` is at most `b`, compared as whole numbers in units of the finer of their last places. */
  ghost predicate NoMore(a: Decimal, b: Decimal)
    requires a.Valid() && b.Valid()
  {
    var k := Min(a.Scale(), b.Scale());
    TimesTens(a.Significand(), a.Scale() - k) <= TimesTens(b.Significand(), b.Scale() - k)
  }

  lemma ShiftsCompare(x: real, a: Decimal, y: real, b: Decimal)
    requires a.Valid() && b.Valid()
    requires x == Shift(a.Significand() as real, a.Scale()) && y == Shift(b.Significand() as real, b.Scale())
    ensures x <= y <==> NoMore(a, b)
  {
    var k := Min(a.Scale(), b.Scale());
    var m, n := TimesTens(a.Significand(), a.Scale() - k), TimesTens(b.Significand(), b.Scale() - k);
    ShiftWhole(a.Significand(), k, a.Scale() - k);
    ShiftWhole(b.Significand(), k, b.Scale() - k);
    ShiftKeepsOrder(m as real, n as real, k);
  }

  /** Decimal texts compare as the numbers they write, by whole-number arithmetic alone. */
  lemma DecimalsCompare(a: Decimal, b: Decimal)
    requires a.Valid() && b.Valid()
    ensures FloatValue(a.Written()) <= FloatValue(b.Written()) <==> NoMore(a, b)
  {
    FloatValueShifted(a);
    FloatValueShifted(b);
    ShiftsCompare(FloatValue(a.Written()), a, FloatValue(b.Written()), b);
  }
}
