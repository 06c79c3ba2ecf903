/** Byte strings. Every Rust `String` and `Vec<u8>` is a `string` here, one character a byte; a string
    literal is its own UTF-8 encoding. Nothing below depends on the range of the characters, except
    hexadecimal coding, which is stated for bytes. */
module Text {
  import opened Wrappers
  import Sorting

  /** The order of Rust's `String`: byte by byte, a proper prefix first. */
  predicate Le(a: string, b: string) {
    a == [] || (b != [] && (a[0] < b[0] || (a[0] == b[0] && Le(a[1..], b[1..]))))
  }

  lemma LeTotal(a: string, b: string)
    ensures Le(a, b) || Le(b, a)
  {}

  lemma LeTransitive(a: string, b: string, c: string)
    requires Le(a, b) && Le(b, c)
    ensures Le(a, c)
  {}

  lemma {:induction false} LeAntisymmetric(a: string, b: string)
    requires Le(a, b) && Le(b, a)
    ensures a == b
  {
    if a == [] {
    } else {
      LeAntisymmetric(a[1..], b[1..]);
      assert a == [a[0]] + a[1..] && b == [b[0]] + b[1..];
    }
  }

  /** `b` has the larger byte at the first place where the two differ. */
  ghost predicate SmallerAt(a: string, b: string, i: nat) {
    i < |a| && i < |b| && a[..i] == b[..i] && a[i] < b[i]
  }

  /** The order in words: `a` begins `b`, or at the first difference `a` has the smaller byte. */
  lemma {:induction false} LeExact(a: string, b: string)
    ensures Le(a, b) <==> a <= b || exists i :: SmallerAt(a, b, i)
  {
    if a == [] || b == [] {
    } else if a[0] != b[0] {
      if a[0] < b[0] {
        assert SmallerAt(a, b, 0);
      }
      assert forall i: nat :: SmallerAt(a, b, i) && i > 0 ==> a[..i][0] == b[..i][0];
    } else {
      LeExact(a[1..], b[1..]);
      assert a[1..] <= b[1..] <==> a <= b;
      if i: nat :| SmallerAt(a[1..], b[1..], i) {
        assert a[..i + 1] == [a[0]] + a[1..][..i] && b[..i + 1] == [b[0]] + b[1..][..i];
        assert SmallerAt(a, b, i + 1);
      }
      if i: nat :| SmallerAt(a, b, i) {
        assert a[1..][..i - 1] == a[..i][1..] && b[1..][..i - 1] == b[..i][1..];
        assert SmallerAt(a[1..], b[1..], i - 1);
      }
    }
  }

  lemma LeIsOrder()
    ensures Sorting.TotalPreorder(Le) && Sorting.Antisymmetric(Le)
  {
    forall a, b ensures Le(a, b) || Le(b, a) { LeTotal(a, b); }
    forall a, b, c | Le(a, b) && Le(b, c) ensures Le(a, c) { LeTransitive(a, b, c); }
    forall a, b | Le(a, b) && Le(b, a) ensures a == b { LeAntisymmetric(a, b); }
  }

  function SortStrings(s: seq<string>): (r: seq<string>)
    ensures |r| == |s| && multiset(r) == multiset(s)
  {
    Sorting.Sort(Le, s)
  }

  /** Sorting strings forgets the order they came in. */
  lemma SortForgetsOrder(a: seq<string>, b: seq<string>)
    requires multiset(a) == multiset(b)
    ensures SortStrings(a) == SortStrings(b)
  {
    LeIsOrder();
    Sorting.SortSorted(Le, a);
    Sorting.SortSorted(Le, b);
    Sorting.SortedUnique(Le, SortStrings(a), SortStrings(b));
  }

  ghost predicate Distinct<T(!new)>(s: seq<T>) {
    forall i, j :: 0 <= i < j < |s| ==> s[i] != s[j]
  }

  lemma {:induction false} DistinctMultiset<T(!new)>(a: seq<T>, b: seq<T>)
    requires Distinct(a) && Distinct(b)
    requires forall x :: x in a <==> x in b
    ensures multiset(a) == multiset(b)
  {
    DistinctCounts(a);
    DistinctCounts(b);
    forall x ensures multiset(a)[x] == multiset(b)[x] {
      assert x in multiset(a) <==> x in a;
      assert x in multiset(b) <==> x in b;
    }
  }

  lemma {:induction false} DistinctCounts<T(!new)>(a: seq<T>)
    requires Distinct(a)
    ensures forall x :: multiset(a)[x] <= 1
  {
    if a == [] {
    } else {
      DistinctCounts(a[1..]);
      assert a == [a[0]] + a[1..];
      assert a[0] !in a[1..];
      assert a[0] !in multiset(a[1..]);
    }
  }

  // ---------------------------------------------------------------- decimal numbers

  predicate IsDigit(c: char) { '0' <= c <= '9' }

  function Digit(d: nat): (c: char)
    requires d < 10
    ensures IsDigit(c)
  {
    '0' + d as char
  }

  /** Decimal digits of `n`, without leading zeros. */
  function NatText(n: nat): (s: string)
    ensures |s| > 0 && forall c :: c in s ==> IsDigit(c)
  {
    if n < 10 then [Digit(n)] else NatText(n / 10) + [Digit(n % 10)]
  }

  function NatValue(s: string): nat
    requires forall c :: c in s ==> IsDigit(c)
  {
    if s == [] then 0
    else
      assert IsDigit(s[|s| - 1]);
      NatValue(s[..|s| - 1]) * 10 + (s[|s| - 1] as int - '0' as int)
  }

  lemma {:induction false} NatRoundTrip(n: nat)
    ensures NatValue(NatText(n)) == n
  {
    var s := NatText(n);
    if n < 10 {
      assert NatValue(s[..0]) == 0;
    } else {
      NatRoundTrip(n / 10);
      assert s[..|s| - 1] == NatText(n / 10);
    }
  }

  function IntText(n: int): string {
    if n < 0 then "-" + NatText(-n) else NatText(n)
  }

  function IntValue(s: string): Option<int> {
    if s != [] && s[0] == '-' then
      if forall c :: c in s[1..] ==> IsDigit(c) then (var n: int := NatValue(s[1..]); Some(-n)) else None
    else
      if forall c :: c in s ==> IsDigit(c) then Some(NatValue(s)) else None
  }

  lemma IntRoundTrip(n: int)
    ensures IntValue(IntText(n)) == Some(n)
  {
    if n < 0 {
      NatRoundTrip(-n);
      assert IntText(n)[1..] == NatText(-n);
    } else {
      NatRoundTrip(n);
      assert IntText(n)[0] in NatText(n);
    }
  }

  lemma {:induction false} NatTextShape(n: nat)
    ensures |NatText(n)| > 1 ==> NatText(n)[0] != '0'
  {
    if n < 10 {
    } else {
      NatTextShape(n / 10);
      assert n / 10 >= 1;
      NatRoundTrip(n / 10);
      assert NatText(n)[0] == NatText(n / 10)[0];
      assert "0"[..0] == "" && NatValue("0") == 0;
    }
  }

  /** Integers are written in full, a minus sign for the negative ones, never with a leading zero. */
  lemma IntTextShape(n: int)
    ensures n < 0 <==> IntText(n)[0] == '-'
    ensures var digits := if n < 0 then IntText(n)[1..] else IntText(n);
            && digits != "" && (forall c :: c in digits ==> IsDigit(c))
            && (|digits| > 1 ==> digits[0] != '0')
            && NatValue(digits) == if n < 0 then -n else n
  {
    var m: nat := if n < 0 then -n else n;
    NatTextShape(m);
    NatRoundTrip(m);
    if n < 0 {
      assert IntText(n)[1..] == NatText(m);
    } else {
      assert NatText(m)[0] in NatText(m);
    }
  }

  // ---------------------------------------------------------------- hexadecimal

  function HexDigit(d: nat): char
    requires d < 16
  {
    if d < 10 then '0' + d as char else 'a' + (d - 10) as char
  }

  /** Both letter cases are read, as the `hex` crate does. */
  function HexValue(c: char): (r: Option<nat>)
    ensures r.Some? ==> r.value < 16
  {
    if '0' <= c <= '9' then Some(c as int - '0' as int)
    else if 'a' <= c <= 'f' then Some(c as int - 'a' as int + 10)
    else if 'A' <= c <= 'F' then Some(c as int - 'A' as int + 10)
    else None
  }

  ghost predicate IsBytes(s: string) {
    forall c :: c in s ==> c as int < 256
  }

  function HexByte(hi: char, lo: char): (r: Option<char>)
    ensures r.Some? ==> r.value as int < 256
  {
    match (HexValue(hi), HexValue(lo))
    case (Some(h), Some(l)) => Some((h * 16 + l) as char)
    case _ => None
  }

  function HexPair(c: char): (pair: string)
    ensures |pair| == 2
    ensures c as int < 256 ==> HexByte(pair[0], pair[1]) == Some(c)
  {
    var b := (c as int) % 256;
    assert HexValue(HexDigit(b / 16)) == Some(b / 16);
    assert HexValue(HexDigit(b % 16)) == Some(b % 16);
    assert b / 16 * 16 + b % 16 == b;
    [HexDigit(b / 16), HexDigit(b % 16)]
  }

  function HexEncode(s: string): string {
    if s == [] then [] else HexPair(s[0]) + HexEncode(s[1..])
  }

  function HexDecode(s: string): (r: Option<string>)
    ensures r.Some? ==> IsBytes(r.value)
  {
    if s == [] then Some([])
    else if |s| == 1 then None
    else
      match (HexByte(s[0], s[1]), HexDecode(s[2..]))
      case (Some(c), Some(rest)) => Some([c] + rest)
      case _ => None
  }

  /** Section 8 of RFC 4648: decoding inverts encoding. */
  lemma {:induction false} HexRoundTrip(s: string)
    requires IsBytes(s)
    ensures HexDecode(HexEncode(s)) == Some(s)
  {
    if s == [] {
    } else {
      assert s[0] in s && forall c :: c in s[1..] ==> c in s;
      HexRoundTrip(s[1..]);
      var e := HexEncode(s);
      assert e[2..] == HexEncode(s[1..]);
      assert s == [s[0]] + s[1..];
    }
  }

  /** Both letter cases are digits, and nothing else is. */
  lemma HexValueExact(c: char)
    ensures forall d: nat :: d < 16 ==>
              (HexValue(c) == Some(d) <==> c == "0123456789abcdef"[d] || c == "0123456789ABCDEF"[d])
  {}

  /** Encoding writes two lower-case digits a byte. */
  lemma {:induction false} HexEncodeShape(s: string)
    ensures |HexEncode(s)| == 2 * |s|
    ensures forall c :: c in HexEncode(s) ==> c in "0123456789abcdef"
  {
    if s == [] {
    } else {
      HexEncodeShape(s[1..]);
      HexPairLower(s[0]);
    }
  }

  lemma HexPairLower(c: char)
    ensures forall x :: x in HexPair(c) ==> x in "0123456789abcdef"
  {
    var b := (c as int) % 256;
    HexDigitLower(b / 16);
    HexDigitLower(b % 16);
  }

  lemma HexDigitLower(d: nat)
    requires d < 16
    ensures HexDigit(d) == "0123456789abcdef"[d]
  {}

  /** Decoding reads exactly the texts of evenly many hexadecimal digits. */
  lemma {:induction false} HexDecodeExact(s: string)
    ensures HexDecode(s).Some? <==> |s| % 2 == 0 && forall c :: c in s ==> HexValue(c).Some?
    ensures HexDecode(s).Some? ==> |HexDecode(s).value| == |s| / 2
  {
    if |s| < 2 {
    } else {
      HexDecodeExact(s[2..]);
      HexByteExact(s[0], s[1]);
      assert s == [s[0], s[1]] + s[2..];
    }
  }

  /** Two digits make a byte, the higher one first. */
  lemma {:induction false} HexDecodeAt(s: string, i: nat)
    requires HexDecode(s).Some? && i < |HexDecode(s).value|
    ensures 2 * i + 1 < |s| && HexByte(s[2 * i], s[2 * i + 1]) == Some(HexDecode(s).value[i])
  {
    if i == 0 {
    } else {
      HexDecodeAt(s[2..], i - 1);
      assert s[2..][2 * (i - 1)] == s[2 * i] && s[2..][2 * (i - 1) + 1] == s[2 * i + 1];
    }
  }

  lemma HexByteExact(hi: char, lo: char)
    ensures HexByte(hi, lo).Some? <==> HexValue(hi).Some? && HexValue(lo).Some?
    ensures HexByte(hi, lo).Some? ==>
              HexByte(hi, lo).value as int == 16 * HexValue(hi).value + HexValue(lo).value
  {}
}
