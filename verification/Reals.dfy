/** Products and quotients of reals, each fact on its own. */
module Reals {
  lemma ProductPositive(a: real, b: real)
    requires 0.0 < a && 0.0 < b
    ensures 0.0 < a * b
  {}

  lemma ProductNonNegative(a: real, b: real)
    requires 0.0 <= a && 0.0 <= b
    ensures 0.0 <= a * b
  {
    if 0.0 < a && 0.0 < b {
      ProductPositive(a, b);
    }
  }

  function Scaled(unit: real, total: real): real {
    unit * total
  }

  lemma ScaledIs(unit: real, total: real)
    ensures Scaled(unit, total) == unit * total
  {}

  lemma QuotientAndRest(x: nat, n: nat)
    requires n > 0
    ensures x == x / n * n + x % n && x % n < n
  {}

  lemma MultipleGrows(k: int, n: nat)
    requires k >= 1
    ensures k * n >= n
  {}

  /** A multiple of `n` and a rest below `n` are unique. */
  lemma SameRest(a: int, b: int, n: nat, r: nat, s: nat)
    requires r < n && s < n && a * n + r == b * n + s
    ensures r == s
  {
    assert (a - b) * n == a * n - b * n && (b - a) * n == b * n - a * n;
    if a > b {
      MultipleGrows(a - b, n);
    } else if b > a {
      MultipleGrows(b - a, n);
    }
  }

  /** Rests repeat after `n`. */
  lemma RestRepeats(d: nat, n: nat)
    requires n > 0
    ensures (d + n) % n == d % n
  {
    QuotientAndRest(d, n);
    QuotientAndRest(d + n, n);
    assert (d / n + 1) * n == d / n * n + n;
    SameRest((d + n) / n, d / n + 1, n, (d + n) % n, d % n);
  }

  lemma SmallRest(d: nat, n: nat)
    requires d < n
    ensures d % n == d
  {
    QuotientAndRest(d, n);
    SameRest(d / n, 0, n, d % n, d);
  }

  /** What a factor between zero and one leaves of a total. */
  lemma ScaledDown(unit: real, total: real)
    requires 0.0 < unit <= 1.0 && 0.0 < total
    ensures 0.0 < Scaled(unit, total) <= total
  {
    ProductPositive(unit, total);
    ProductNonNegative(1.0 - unit, total);
    assert (1.0 - unit) * total == total - unit * total;
  }

  lemma NonNegativeFactor(u: real, b: real)
    requires b > 0.0 && u * b >= 0.0
    ensures u >= 0.0
  {
    assert (-u) * b == -(u * b);
    if u < 0.0 {
      ProductPositive(-u, b);
    }
  }

  lemma QuotientTimes(a: real, b: real)
    requires b != 0.0
    ensures (a / b) * b == a
  {}

  /** Dividing by more gives less. */
  lemma QuotientFalls(score: real, a: real, b: real)
    requires 0.0 <= score && 0.0 < a <= b
    ensures 0.0 <= score / b <= score / a
  {
    var x, y := score / a, score / b;
    QuotientTimes(score, a);
    QuotientTimes(score, b);
    NonNegativeFactor(x, a);
    NonNegativeFactor(y, b);
    ProductNonNegative(x, b - a);
    assert (x - y) * b == x * a + x * (b - a) - y * b;
    NonNegativeFactor(x - y, b);
  }

  lemma CrossDivide(a: real, b: real, c: real, d: real)
    requires b > 0.0 && d > 0.0 && a * d <= c * b
    ensures a / b <= c / d
  {
    var x, y := a / b, c / d;
    QuotientTimes(a, b);
    QuotientTimes(c, d);
    ProductPositive(b, d);
    Distributed(x, b, y, d);
    NonNegativeFactor(y - x, b * d);
  }

  lemma Distributed(x: real, b: real, y: real, d: real)
    ensures (y - x) * (b * d) == (y * d) * b - (x * b) * d
  {}

  lemma ShareDifference(w: real, w': real, total: real, newcomer: real)
    ensures w * (total - w + w' + newcomer) - w' * total == (w - w') * (total - w) + w * newcomer
  {}
}
