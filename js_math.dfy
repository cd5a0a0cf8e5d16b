/**
 * JavaScript's `Math.round` and `Math.floor`, computed exactly on reals
 * (the screens compute them on doubles).
 */
module JsMath {

  /** `Math.round(x)`: the nearest integer, with halves rounded up. */
  function Round(x: real): (r: int)
    ensures r as real - 0.5 <= x < r as real + 0.5
  {
    (x + 0.5).Floor
  }

  /** The integer within half a unit of `x` (halves upward) is unique. */
  lemma RoundUnique(x: real, k: int)
    requires k as real - 0.5 <= x < k as real + 0.5
    ensures Round(x) == k
  {
    var r := Round(x);
    assert r as real - 0.5 <= x < r as real + 0.5;
    assert (r - k) as real < 1.0 && (k - r) as real < 1.0;
  }

  lemma RoundMonotone(x: real, y: real)
    requires x <= y
    ensures Round(x) <= Round(y)
  {
  }

  /** `Math.round(n / d)` for a positive divisor, in integer arithmetic. */
  function RoundRatio(n: int, d: int): (r: int)
    requires d > 0
    ensures (2 * r - 1) * d <= 2 * n < (2 * r + 1) * d
  {
    (2 * n + d) / (2 * d)
  }

  /** Dividing both sides of an inequality by a positive number; `RoundRatioIsRound` needs it and `ScaleLt`. */
  lemma ScaleLe(a: real, b: real, d: real)
    requires d > 0.0 && a * d <= b * d
    ensures a <= b
  {
  }

  lemma ScaleLt(a: real, b: real, d: real)
    requires d > 0.0 && a * d < b * d
    ensures a < b
  {
  }

  /** Casting a product to `real`; used by `RoundRatioIsRound` and the whole-minute lemmas of the analytics screen. */
  lemma CastMul(a: int, b: int)
    ensures (a * b) as real == a as real * b as real
  {
  }

  /** The integer form agrees with rounding the exact quotient. */
  lemma RoundRatioIsRound(n: int, d: int)
    requires d > 0
    ensures RoundRatio(n, d) == Round(n as real / d as real)
  {
    var r := RoundRatio(n, d);
    var q := n as real / d as real;
    var rd := d as real;
    assert q * rd == n as real;
    CastMul(2 * r - 1, d);
    CastMul(2 * r + 1, d);
    ScaleLe((2 * r - 1) as real, 2.0 * q, rd);
    ScaleLt(2.0 * q, (2 * r + 1) as real, rd);
    RoundUnique(q, r);
  }

  /** A positive product with a positive factor has a positive other factor; used by `RoundRatioBounds` and `InterruptionsCapPerformance`. */
  lemma PositiveFactor(a: int, d: int)
    requires d > 0 && a * d > 0
    ensures a > 0
  {
  }

  /** A ratio between 0 and `k` rounds to an integer between 0 and `k`. */
  lemma RoundRatioBounds(n: int, d: int, k: int)
    requires d > 0 && 0 <= n <= k * d
    ensures 0 <= RoundRatio(n, d) <= k
  {
    var r := RoundRatio(n, d);
    PositiveFactor(2 * r + 1, d);
    assert (2 * k + 1 - (2 * r - 1)) * d == (2 * k + 1) * d - (2 * r - 1) * d;
    PositiveFactor(2 * k + 1 - (2 * r - 1), d);
  }

  /** The only multiple of `b` strictly between `-b` and `b` is zero; `DivUnique` needs it. */
  lemma SmallMultiple(a: int, b: int)
    requires b > 0 && -b < a * b < b
    ensures a == 0
  {
  }

  /** Euclidean division is determined by quotient and remainder. */
  lemma DivUnique(a: int, b: int, q: int, r: int)
    requires b > 0 && 0 <= r < b && a == q * b + r
    ensures a / b == q
  {
    var q0, r0 := a / b, a % b;
    assert a == q0 * b + r0;
    assert (q - q0) * b == r0 - r;
    SmallMultiple(q - q0, b);
  }

  /** An exact ratio needs no rounding. */
  lemma RoundRatioExact(k: int, d: int)
    requires d > 0
    ensures RoundRatio(k * d, d) == k
  {
    DivUnique(2 * (k * d) + d, 2 * d, k, d);
  }

  /** `Math.floor(x)`: the integer at most `x` and within one of it is unique. */
  lemma FloorUnique(x: real, k: int)
    requires k as real <= x < k as real + 1.0
    ensures x.Floor == k
  {
    assert x.Floor as real <= x < x.Floor as real + 1.0;
    assert (x.Floor - k) as real < 1.0 && (k - x.Floor) as real < 1.0;
  }

  /** `Math.floor(a / b)` on whole numbers with a positive divisor is Euclidean division. */
  lemma FloorOfQuotient(a: int, b: int)
    requires b > 0
    ensures (a as real / b as real).Floor == a / b
  {
    var q, rb := a / b, b as real;
    var x := a as real / rb;
    assert x * rb == a as real;
    CastMul(q, b);
    CastMul(q + 1, b);
    ScaleLe(q as real, x, rb);
    ScaleLt(x, (q + 1) as real, rb);
    FloorUnique(x, q);
  }
}
