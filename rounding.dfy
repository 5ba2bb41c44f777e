/** Swift's `round` on a floating-point value followed by `Int(...)`:
    the nearest integer, with ties rounded away from zero. Values are
    modelled as exact reals. */
module Rounding {
  import opened RealArithmetic

  /** Nearest integer to `x`; a tie (a fractional part of exactly one half)
      goes to the integer farther from zero. */
  function RoundHalfAwayFromZero(x: real): (r: int)
    ensures x >= 0.0 ==> x - 0.5 < r as real <= x + 0.5
    ensures x < 0.0 ==> x - 0.5 <= r as real < x + 0.5
  {
    if x >= 0.0 then (x + 0.5).Floor else -((-x + 0.5).Floor)
  }

  /** The two bounds of RoundHalfAwayFromZero pin the result down: any
      integer within them is the rounded value. */
  lemma RoundUnique(x: real, k: int)
    requires x >= 0.0 ==> x - 0.5 < k as real <= x + 0.5
    requires x < 0.0 ==> x - 0.5 <= k as real < x + 0.5
    ensures RoundHalfAwayFromZero(x) == k
  {
  }

  /** No integer is strictly closer to `x` than its rounded value. */
  lemma RoundIsNearest(x: real, k: int)
    ensures Abs(x - RoundHalfAwayFromZero(x) as real) <= Abs(x - k as real)
  {
    var r := RoundHalfAwayFromZero(x);
    assert Abs(x - r as real) <= 0.5;
    if k > r {
      assert k as real >= r as real + 1.0;
      assert x <= r as real + 0.5;
    } else if k < r {
      assert k as real <= r as real - 1.0;
      assert x >= r as real - 0.5;
    }
  }

  /** Rounding leaves integers unchanged. */
  lemma RoundOfInteger(k: int)
    ensures RoundHalfAwayFromZero(k as real) == k
  {
    RoundUnique(k as real, k);
  }

  /** Rounding half away from zero is symmetric about zero. */
  lemma RoundIsOdd(x: real)
    ensures RoundHalfAwayFromZero(-x) == -RoundHalfAwayFromZero(x)
  {
    if x != 0.0 {
      RoundUnique(-x, -RoundHalfAwayFromZero(x));
    }
  }

  /** A rounded value lies in the index range [0, n) exactly when the value
      lies strictly between -1/2 and n - 1/2; at -1/2 it rounds to -1 and at
      n - 1/2 to n. */
  lemma {:induction false} RoundInIndexRange(x: real, n: int)
    ensures 0 <= RoundHalfAwayFromZero(x) < n <==> -0.5 < x < n as real - 0.5
  {
    var r := RoundHalfAwayFromZero(x);
    if -0.5 < x < n as real - 0.5 {
      assert 0 <= r;
      assert r < n;
    }
  }
}
