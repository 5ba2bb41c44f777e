/** Small facts about exact real arithmetic used by the layout proofs. */
module RealArithmetic {

  /** Absolute value. */
  function Abs(x: real): (r: real)
    ensures r >= 0.0 && (r == x || r == -x)
  {
    if x < 0.0 then -x else x
  }

  /** For a positive divisor, comparing `x / s` with `a` is comparing `x`
      with `a * s`. */
  lemma DivideBounds(x: real, s: real, a: real)
    requires s > 0.0
    ensures a < x / s <==> a * s < x
    ensures x / s < a <==> x < a * s
  {
    assert x / s * s == x;
    if a < x / s { assert a * s < x / s * s; }
    if x / s < a { assert x / s * s < a * s; }
    if a * s < x { assert a < x / s; }
    if x < a * s { assert x / s < a; }
  }

  /** Absolute values differ by at most the absolute difference. */
  lemma ReverseTriangle(a: real, b: real)
    ensures Abs(b) - Abs(a) <= Abs(a - b)
  {
  }

  /** Dividing by a positive number and multiplying back is the identity. */
  lemma DivideThenMultiply(y: real, s: real)
    requires s > 0.0
    ensures y / s * s == y
  {
  }

  /** A non-negative number times a positive one is non-negative. */
  lemma ScaleNonNegative(a: real, s: real)
    requires a >= 0.0 && s > 0.0
    ensures a * s >= 0.0 && s * a >= 0.0
  {
  }

  /** A positive factor comes out of an absolute value unchanged. */
  lemma AbsOfProduct(a: real, s: real)
    requires s > 0.0
    ensures Abs(a * s) == Abs(a) * s
  {
  }

  /** Multiplying by a positive factor keeps an inequality, and keeps a bound
      on a difference. */
  lemma ScaleInequality(k: real, x: real, y: real, z: real)
    requires k > 0.0 && x <= y && y - x <= z
    ensures k * x <= k * y
    ensures k * y - k * x <= k * z
  {
    assert k * y - k * x == k * (y - x);
    ScaleNonNegative(y - x, k);
    assert k * z - (k * y - k * x) == k * (z - (y - x));
    ScaleNonNegative(z - (y - x), k);
  }

  /** At least one times a positive number is at least that number. */
  lemma AtLeastOnce(n: real, s: real)
    requires n >= 1.0 && s > 0.0
    ensures n * s >= s
  {
    assert n * s - s == (n - 1.0) * s;
  }

  /** A non-zero whole number of cells is at least one cell away. */
  lemma WholeCellsAway(n: int, s: real, d: real)
    requires s > 0.0 && n != 0 && d == n as real * s
    ensures Abs(d) >= s
  {
    if n > 0 {
      AtLeastOnce(n as real, s);
    } else {
      AtLeastOnce((-n) as real, s);
      assert -d == (-n) as real * s;
    }
  }

  /** If `y / s` is within one half of the integer `r`, then `y` is within
      half of `s` of `r` times `s`. */
  lemma WithinHalfUnit(y: real, s: real, r: int)
    requires s > 0.0 && Abs(y / s - r as real) <= 0.5
    ensures Abs(y - r as real * s) <= s / 2.0
  {
    var a := Abs(y / s - r as real);
    DivideThenMultiply(y, s);
    assert y - r as real * s == (y / s - r as real) * s;
    AbsOfProduct(y / s - r as real, s);
    ScaleNonNegative(0.5 - a, s);
    assert (0.5 - a) * s == 0.5 * s - a * s;
  }
}
