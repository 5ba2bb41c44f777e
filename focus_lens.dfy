/** The "focus lens" rule applied to every cell whenever the strip scrolls:
    a cell whose centre is within half a cell of the middle of the view is
    enlarged, up to 20% at dead centre, and a cell strictly inside that zone
    is raised above its neighbours. */
module FocusLens {
  import opened RealArithmetic
  import opened CarouselGeometry

  /** Scale factor of a cell whose centre is `d` points away from the middle
      of the view, for cells of side `itemSize`. */
  function Scale(d: real, itemSize: real): (r: real)
    requires itemSize > 0.0
    ensures 1.0 <= r <= 1.2
    ensures r == 1.2 <==> d == 0.0
    ensures r == 1.0 <==> Abs(d) >= itemSize / 2.0
  {
    var threshold := itemSize / 2.0;
    if Abs(d) <= threshold then
      var normalized := Abs(d) / threshold;
      assert 0.0 <= normalized <= 1.0;
      assert normalized == 0.0 <==> d == 0.0;
      assert normalized == 1.0 <==> Abs(d) == threshold;
      1.0 + 0.2 * (1.0 - normalized)
    else
      1.0
  }

  /** Whether a cell at distance `d` from the middle is brought to the front. */
  function BringsToFront(d: real, itemSize: real): (b: bool)
    requires itemSize > 0.0
    ensures b <==> Scale(d, itemSize) > 1.0
  {
    Abs(d) < itemSize / 2.0
  }

  /** A cell exactly at the zone's edge keeps its natural size and is not
      raised. */
  lemma AtThresholdNotRaised(d: real, itemSize: real)
    requires itemSize > 0.0 && Abs(d) == itemSize / 2.0
    ensures Scale(d, itemSize) == 1.0 && !BringsToFront(d, itemSize)
  {
  }

  /** The lens depends on the distance only, not on the side. */
  lemma ScaleSymmetric(d: real, itemSize: real)
    requires itemSize > 0.0
    ensures Scale(-d, itemSize) == Scale(d, itemSize)
  {
  }

  /** A cell farther from the middle is never larger. */
  lemma {:induction false} ScaleNonIncreasing(d1: real, d2: real, itemSize: real)
    requires itemSize > 0.0
    requires Abs(d1) <= Abs(d2)
    ensures Scale(d2, itemSize) <= Scale(d1, itemSize)
  {
    ScaleLipschitzOrdered(d1, d2, itemSize);
  }

  /** Inside the zone the scale falls linearly, by `0.4 / itemSize` per
      point of distance; outside it is 1. */
  lemma ScaleProfile(d: real, itemSize: real)
    requires itemSize > 0.0
    ensures Abs(d) <= itemSize / 2.0 <==> 0.4 / itemSize * Abs(d) <= 0.2
    ensures Scale(d, itemSize)
            == if 0.4 / itemSize * Abs(d) <= 0.2 then 1.2 - 0.4 / itemSize * Abs(d) else 1.0
  {
    var t := itemSize / 2.0;
    var k := 0.4 / itemSize;
    var p := k * Abs(d);
    assert k * t == 0.2;
    assert Abs(d) <= t <==> p <= 0.2 by {
      if Abs(d) <= t { assert k * Abs(d) <= k * t; }
      if p <= 0.2 { assert Abs(d) == p / k; assert p / k <= 0.2 / k; }
    }
    if Abs(d) <= t {
      assert 0.2 * (Abs(d) / t) == p;
    }
  }

  /** The clipped linear profile `p |-> if p <= 0.2 then 1.2 - p else 1`
      is non-increasing and never falls faster than its argument grows. */
  lemma ClippedProfileStep(p1: real, p2: real, s1: real, s2: real)
    requires p1 <= p2
    requires s1 == if p1 <= 0.2 then 1.2 - p1 else 1.0
    requires s2 == if p2 <= 0.2 then 1.2 - p2 else 1.0
    ensures 0.0 <= s1 - s2 <= p2 - p1
  {
  }

  /** One direction of the continuity bound: cell 1 nearer the middle than
      cell 2. */
  lemma {:induction false} ScaleLipschitzOrdered(d1: real, d2: real, itemSize: real)
    requires itemSize > 0.0
    requires Abs(d1) <= Abs(d2)
    ensures 0.0 <= Scale(d1, itemSize) - Scale(d2, itemSize) <= 0.4 / itemSize * Abs(d1 - d2)
  {
    ScaleProfile(d1, itemSize);
    ScaleProfile(d2, itemSize);
    ReverseTriangle(d1, d2);
    OrderedProfileBound(0.4 / itemSize, Abs(d1), Abs(d2), Abs(d1 - d2),
                        Scale(d1, itemSize), Scale(d2, itemSize));
  }

  /** The clipped profile at `k * a1` and `k * a2`, for `a1 <= a2`, differs
      by at most `k` times any bound on `a2 - a1`. */
  lemma OrderedProfileBound(k: real, a1: real, a2: real, z: real, s1: real, s2: real)
    requires k > 0.0 && a1 <= a2 && a2 - a1 <= z
    requires s1 == if k * a1 <= 0.2 then 1.2 - k * a1 else 1.0
    requires s2 == if k * a2 <= 0.2 then 1.2 - k * a2 else 1.0
    ensures 0.0 <= s1 - s2 <= k * z
  {
    ScaleInequality(k, a1, a2, z);
    assert k * a1 <= k * a2;
    ClippedProfileStep(k * a1, k * a2, s1, s2);
  }

  /** The lens is continuous: moving a cell by `delta` points changes its
      scale by at most `0.4 / itemSize` times `delta`. */
  lemma {:induction false} ScaleLipschitz(d1: real, d2: real, itemSize: real)
    requires itemSize > 0.0
    ensures Abs(Scale(d1, itemSize) - Scale(d2, itemSize)) <= 0.4 / itemSize * Abs(d1 - d2)
  {
    if Abs(d1) <= Abs(d2) {
      ScaleLipschitzOrdered(d1, d2, itemSize);
    } else {
      ScaleLipschitzOrdered(d2, d1, itemSize);
      assert Abs(d2 - d1) == Abs(d1 - d2);
    }
  }

  /** With the strip resting at the centring offset of cell `k`, the lens
      enlarges cell `k` to the full 1.2 and raises it, and leaves every other
      cell at its natural size, not raised. */
  lemma {:induction false} CenteredCellIsSoleFocus(k: int, i: int, itemSize: real, viewWidth: real)
    requires itemSize > 0.0
    ensures var d := DistanceFromCenter(CenteringOffset(k, itemSize, viewWidth), viewWidth, i, itemSize);
            Scale(d, itemSize) == (if i == k then 1.2 else 1.0)
            && (BringsToFront(d, itemSize) <==> i == k)
  {
    var d := DistanceFromCenter(CenteringOffset(k, itemSize, viewWidth), viewWidth, i, itemSize);
    DistanceAtCenteringOffset(k, i, itemSize, viewWidth);
    if i != k {
      WholeCellsAway(k - i, itemSize, d);
    } else {
      assert (k - i) as real == 0.0;
    }
  }

  /** At any scroll offset at most one cell is strictly inside the focus
      zone, so at most one cell is brought to the front: the centres of two
      different cells are a whole cell apart, while two raised cells would be
      less than a cell apart. */
  lemma {:induction false} AtMostOneRaised(offsetX: real, viewWidth: real, i: int, j: int, itemSize: real)
    requires itemSize > 0.0
    ensures BringsToFront(DistanceFromCenter(offsetX, viewWidth, i, itemSize), itemSize)
            && BringsToFront(DistanceFromCenter(offsetX, viewWidth, j, itemSize), itemSize)
            ==> i == j
  {
    var di := DistanceFromCenter(offsetX, viewWidth, i, itemSize);
    var dj := DistanceFromCenter(offsetX, viewWidth, j, itemSize);
    if i != j {
      assert dj - di == (i - j) as real * itemSize;
      WholeCellsAway(i - j, itemSize, dj - di);
    }
  }
}
