/** A value that may be absent. */
module Wrappers {

  datatype Option<+T> = None | Some(value: T)
}

/**
 The JavaScript `Math` operations the estimation pipeline uses, over exact
 reals: `Math.round`, `Math.ceil`, `Math.min` and `Math.ceil(Math.sqrt(x))`.
 */
module JsMath {

  /** `Math.round`: the nearest integer, a tie going up (towards +infinity). */
  function Round(x: real): (r: int)
    ensures r as real - 0.5 <= x < r as real + 0.5
  {
    (x + 0.5).Floor
  }

  lemma RoundMonotone(x: real, y: real)
    requires x <= y
    ensures Round(x) <= Round(y)
  {
  }

  /** An integer is its own rounding. */
  lemma RoundOfInt(n: int)
    ensures Round(n as real) == n
  {
  }

  lemma MulNonNegative(a: real, b: real)
    requires a >= 0.0 && b >= 0.0
    ensures a * b >= 0.0
  {
  }

  lemma MulPositive(a: real, b: real)
    requires a > 0.0 && b > 0.0
    ensures a * b > 0.0
  {
  }

  /** A real square is non-negative. */
  lemma SquareNonNegative(x: real)
    ensures x * x >= 0.0
  {
    var y := if x >= 0.0 then x else -x;
    MulNonNegative(y, y);
    assert y * y == x * x;
  }

  /** Multiplying by a positive real keeps an ordering. */
  lemma ScaleLe(a: real, b: real, p: real)
    requires p > 0.0
    requires a <= b
    ensures a * p <= b * p
  {
    MulNonNegative(b - a, p);
    assert (b - a) * p == b * p - a * p;
  }

  /** Multiplying by a positive real keeps a strict ordering. */
  lemma ScaleLt(a: real, b: real, p: real)
    requires p > 0.0
    requires a < b
    ensures a * p < b * p
  {
    MulPositive(b - a, p);
    assert (b - a) * p == b * p - a * p;
  }

  /** With `q * n == area`, a `w` from `q` to below `q + 1` gives `w * n >= area` and `(w - 1) * n < area`. */
  lemma CoverByWidth(q: real, n: real, area: real, w: real)
    requires n > 0.0
    requires q * n == area
    requires q <= w < q + 1.0
    ensures w * n >= area
    ensures (w - 1.0) * n < area
  {
    ScaleLe(q, w, n);
    var v := w - 1.0;
    ScaleLt(v, q, n);
    assert v * n < area;
  }

  /** Products of non-negative reals grow with both factors. */
  lemma MulMonotone(a: real, b: real, c: real, d: real)
    requires 0.0 <= a <= b
    requires 0.0 <= c <= d
    ensures a * c <= b * d
  {
    MulNonNegative(b - a, c);
    MulNonNegative(b, d - c);
    assert (b - a) * c + b * (d - c) == b * d - a * c;
  }

  /** `Math.ceil`: the least integer that is not below `x`. */
  function Ceil(x: real): (r: int)
    ensures x <= r as real < x + 1.0
  {
    -((-x).Floor)
  }

  /** `Math.min` on two integers. */
  function Min(a: int, b: int): (m: int)
    ensures m <= a && m <= b
    ensures m == a || m == b
  {
    if a <= b then a else b
  }

  /**
   `Math.ceil(Math.sqrt(x))` for `x >= 0`, over exact reals: the least
   natural number whose square is at least `x`.
   */
  function CeilSqrt(x: real): (n: nat)
    requires x >= 0.0
    ensures x <= (n * n) as real
    ensures n == 0 || ((n - 1) * (n - 1)) as real < x
  {
    CeilSqrtFrom(x, 0)
  }

  /** The search behind `CeilSqrt`: every natural below `k` squares to less than `x`. */
  function CeilSqrtFrom(x: real, k: nat): (n: nat)
    requires x >= 0.0
    requires k == 0 || ((k - 1) * (k - 1)) as real < x
    ensures k <= n
    ensures x <= (n * n) as real
    ensures n == 0 || ((n - 1) * (n - 1)) as real < x
    decreases x.Floor + 1 - k
  {
    if x <= (k * k) as real then k
    else
      assert k <= k * k;
      CeilSqrtFrom(x, k + 1)
  }
}
