/** The unit draw of `weighted_choice` (src/selector.rs): a 64-bit hash over the largest one, both as floats. */
module Draws {
  import opened Reals

  const MAX64: nat := 0xFFFF_FFFF_FFFF_FFFF

  function Pow2(n: nat): (p: nat)
    ensures p > 0
  {
    if n == 0 then 1 else 2 * Pow2(n - 1)
  }

  /** The distance between the floats around `v`, which have 53 significant bits. */
  function Spacing(v: nat): (u: nat)
    ensures u > 0
  {
    if v < 0x20_0000_0000_0000 then 1 else 2 * Spacing(v / 2)
  }

  /** The nearest multiple of `u`, the even one on a tie. */
  function Rounded(v: nat, u: nat): nat
    requires u > 0
  {
    var below := v / u;
    var rest := v % u;
    if 2 * rest < u || (2 * rest == u && below % 2 == 0) then below * u else (below + 1) * u
  }

  /** `v as f64`. */
  function Nearest(v: nat): nat {
    Rounded(v, Spacing(v))
  }

  /** The draw of hash `v`. Dividing by a power of two is exact. */
  function UnitDraw(v: nat): real {
    Nearest(v) as real / Nearest(MAX64) as real
  }

  lemma {:induction false} SpacingIs(v: nat, k: nat)
    requires Pow2(52 + k) <= v < Pow2(53 + k)
    ensures Spacing(v) == Pow2(k)
  {
    Pow2Of52();
    if k == 0 {
    } else {
      Pow2Grows(53, 52 + k);
      SpacingIs(v / 2, k - 1);
    }
  }

  lemma Pow2Kilo(n: nat)
    ensures Pow2(n + 5) == 32 * Pow2(n)
    ensures Pow2(n + 10) == 1024 * Pow2(n)
  {
    assert Pow2(n + 5) == 2 * Pow2(n + 4) == 4 * Pow2(n + 3) == 8 * Pow2(n + 2) == 16 * Pow2(n + 1);
    assert Pow2(n + 10) == 2 * Pow2(n + 9) == 4 * Pow2(n + 8) == 8 * Pow2(n + 7) == 16 * Pow2(n + 6);
    assert Pow2(n + 6) == 2 * Pow2(n + 5);
  }

  lemma Pow2Of50()
    ensures Pow2(50) == 0x4_0000_0000_0000
  {
    Pow2Kilo(0);
    Pow2Kilo(10);
    Pow2Kilo(20);
    Pow2Kilo(30);
    Pow2Kilo(40);
  }

  lemma Pow2Of52()
    ensures Pow2(52) == 0x10_0000_0000_0000 && Pow2(53) == 0x20_0000_0000_0000
  {
    Pow2Of50();
    assert Pow2(53) == 2 * Pow2(52) == 4 * Pow2(51) == 8 * Pow2(50);
  }

  lemma {:induction false} Pow2Grows(m: nat, n: nat)
    requires m <= n
    ensures Pow2(m) <= Pow2(n)
  {
    if m == n {
    } else {
      Pow2Grows(m, n - 1);
    }
  }

  lemma Pow2Of64()
    ensures Pow2(63) == 0x8000_0000_0000_0000 && Pow2(64) == MAX64 + 1
  {
    Pow2Of52();
    Pow2Kilo(53);
    assert Pow2(64) == 2 * Pow2(63);
  }

  lemma {:induction false} SpacingSmall(v: nat)
    requires v > 0
    ensures Spacing(v) <= v
  {
    if v < 0x20_0000_0000_0000 {
    } else {
      SpacingSmall(v / 2);
    }
  }

  /** Rounding goes to a multiple of the spacing at most half of it away. */
  lemma RoundedExact(v: nat, u: nat)
    requires u > 0
    ensures Rounded(v, u) == v / u * u || Rounded(v, u) == (v / u + 1) * u
    ensures 2 * Rounded(v, u) <= 2 * v + u && 2 * v <= 2 * Rounded(v, u) + u
  {
    QuotientAndRest(v, u);
    NextMultiple(v / u, u);
  }

  /** What 53 bits hold is a float already. */
  lemma SmallIsExact(v: nat)
    requires v < 0x20_0000_0000_0000
    ensures Nearest(v) == v
  {
    assert Spacing(v) == 1;
    QuotientAndRest(v, 1);
  }

  /** The draw is the rounded hash in units of two to the minus 64. */
  lemma UnitDrawScale(v: nat)
    ensures Nearest(MAX64) == MAX64 + 1
    ensures UnitDraw(v) * (MAX64 + 1) as real == Nearest(v) as real
  {
    Pow2Of64();
    NearestTop(MAX64);
  }

  /** What rounding does at the top of the range. */
  lemma NearestTop(v: nat)
    requires Pow2(63) <= v <= MAX64
    ensures Nearest(v) <= MAX64 + 1
    ensures Nearest(v) == MAX64 + 1 <==> v >= MAX64 - 1023
  {
    Pow2Of64();
    SpacingIs(v, 11);
    Pow2Kilo(1);
    assert Pow2(11) == 1024 * Pow2(1) && Pow2(1) == 2 * Pow2(0);
  }

  lemma NextMultiple(q: nat, u: nat)
    ensures (q + 1) * u == q * u + u
  {}

  lemma NearestBelow(v: nat)
    requires v < Pow2(63)
    ensures Nearest(v) < MAX64 + 1
  {
    Pow2Of64();
    if v < 0x20_0000_0000_0000 {
      SmallIsExact(v);
    } else {
      SpacingSmall(v);
      RoundedExact(v, Spacing(v));
    }
  }

  /** The draw is documented to lie below one. It lies in [0, 1], and is one exactly for the 1024 largest hashes. */
  lemma UnitDrawExact(v: nat)
    requires v <= MAX64
    ensures 0.0 <= UnitDraw(v) <= 1.0
    ensures UnitDraw(v) < 1.0 <==> v < MAX64 - 1023
  {
    Pow2Of64();
    NearestTop(MAX64);
    if v < Pow2(63) {
      NearestBelow(v);
    } else {
      NearestTop(v);
    }
  }

  /** The largest hash draws one. */
  lemma LargestDrawsOne()
    ensures UnitDraw(MAX64) == 1.0
  {
    UnitDrawExact(MAX64);
  }
}
