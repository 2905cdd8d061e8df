/**
 * The few JavaScript number operations the interaction code relies on,
 * stated over Dafny's exact `real`: `Math.min`, `Math.max`, clamping and
 * the remainder operator `%`, which truncates toward zero (its result has
 * the sign of the dividend), unlike Dafny's Euclidean `%`.
 */
module JsMath {

  /** `Math.min(a, b)`. */
  function Min(a: real, b: real): (r: real)
    ensures r <= a && r <= b
    ensures r == a || r == b
  {
    if a <= b then a else b
  }

  /** `Math.max(a, b)`. */
  function Max(a: real, b: real): (r: real)
    ensures a <= r && b <= r
    ensures r == a || r == b
  {
    if a >= b then a else b
  }

  /** `Math.min(Math.max(x, lo), hi)`, the clamp written out in the viewers. */
  function Clamp(x: real, lo: real, hi: real): (r: real)
    requires lo <= hi
    ensures lo <= r <= hi
    ensures lo <= x <= hi ==> r == x
    ensures x < lo ==> r == lo
    ensures x > hi ==> r == hi
  {
    Min(Max(x, lo), hi)
  }

  /** True when `x` is a whole number. */
  predicate Integral(x: real) {
    x.Floor as real == x
  }

  /** Rounding toward zero, the quotient that JavaScript's `%` is built on. */
  function Trunc(x: real): (t: int)
    ensures x >= 0.0 ==> 0 <= t && t as real <= x < t as real + 1.0
    ensures x < 0.0 ==> t <= 0 && t as real - 1.0 < x <= t as real
    ensures Integral(x) ==> t as real == x
  {
    if x >= 0.0 then x.Floor else NegatedWhole(x); -((-x).Floor)
  }

  /** The negation of a whole number is its own floor. */
  lemma NegatedWhole(x: real)
    ensures Integral(x) ==> (-x).Floor == -x.Floor
  {
    if Integral(x) {
      var k := -x.Floor;
      assert -x == k as real;
    }
  }

  /** Multiplying both sides of `t <= q` by a positive `m`. */
  lemma ScaleLe(m: real, t: real, q: real)
    requires m > 0.0 && t <= q
    ensures m * t <= m * q
  {
  }

  /** Multiplying both sides of `t < q` by a positive `m`. */
  lemma ScaleLt(m: real, t: real, q: real)
    requires m > 0.0 && t < q
    ensures m * t < m * q
  {
  }

  /**
   * JavaScript's `a % m` for a positive divisor: the remainder keeps the sign
   * of `a`, is smaller than `m` in magnitude, and differs from `a` by a whole
   * multiple of `m`.
   */
  function TruncRem(a: real, m: real): (r: real)
    requires m > 0.0
    ensures a >= 0.0 ==> 0.0 <= r < m
    ensures a < 0.0 ==> -m < r <= 0.0
    ensures Integral((a - r) / m)
  {
    TruncRemBounds(a, m);
    a - m * Trunc(a / m) as real
  }

  /** The facts behind `TruncRem`'s contract: bounds from those of `Trunc`, scaled by `m`. */
  lemma TruncRemBounds(a: real, m: real)
    requires m > 0.0
    ensures a >= 0.0 ==> 0.0 <= a - m * Trunc(a / m) as real < m
    ensures a < 0.0 ==> -m < a - m * Trunc(a / m) as real <= 0.0
    ensures Integral((a - (a - m * Trunc(a / m) as real)) / m)
  {
    var q := a / m;
    var t := Trunc(q) as real;
    if a >= 0.0 {
      RemainderBelow(a, m, q, t);
    } else {
      RemainderAbove(a, m, q, t);
    }
    WholeQuotient(a, m, t);
  }

  /** `a - m * t` lies in `[0, m)` when `t` is `a / m` rounded down. */
  lemma RemainderBelow(a: real, m: real, q: real, t: real)
    requires m > 0.0 && q == a / m && t <= q < t + 1.0
    ensures 0.0 <= a - m * t < m
  {
    assert m * q == a;
    ScaleLe(m, t, q);
    ScaleLt(m, q, t + 1.0);
  }

  /** `a - m * t` lies in `(-m, 0]` when `t` is `a / m` rounded up. */
  lemma RemainderAbove(a: real, m: real, q: real, t: real)
    requires m > 0.0 && q == a / m && t - 1.0 < q <= t
    ensures -m < a - m * t <= 0.0
  {
    assert m * q == a;
    ScaleLe(m, q, t);
    assert a <= m * t;
    ScaleLt(m, t - 1.0, q);
    assert m * (t - 1.0) == m * t - m;
  }

  /** Taking away the remainder leaves a whole multiple of `m`. */
  lemma WholeQuotient(a: real, m: real, t: real)
    requires m > 0.0 && Integral(t)
    ensures Integral((a - (a - m * t)) / m)
  {
    assert (a - (a - m * t)) / m == t;
  }

  /** The remainder is zero exactly when `a` is a whole multiple of `m`. */
  lemma {:induction false} TruncRemZeroIff(a: real, m: real)
    requires m > 0.0
    ensures TruncRem(a, m) == 0.0 <==> Integral(a / m)
  {
    var t := Trunc(a / m);
    assert TruncRem(a, m) == a - m * t as real;
    if Integral(a / m) {
      assert t as real == a / m;
    }
    if TruncRem(a, m) == 0.0 {
      assert a / m == t as real;
      assert (a / m).Floor == t;
    }
  }
}
