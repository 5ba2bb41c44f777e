/** The focused-index rules applied when a drag ends: a fling towards later
    cells (positive horizontal velocity) advances one cell, a fling towards
    earlier cells (negative horizontal velocity) goes back one cell, and a release
    without a fling settles on a cell chosen from the scroll engine's
    proposed resting offset. */
module CarouselSnap {
  import opened RealArithmetic
  import opened Rounding
  import opened CarouselGeometry

  /** Index after a fling towards later cells: one more, but never past the
      last index (Swift's `min`). */
  function ForwardIndex(index: int, count: int): (r: int)
    ensures r <= count - 1 && r <= index + 1
    ensures r == index + 1 || r == count - 1
    ensures 0 <= index < count ==> 0 <= r < count
    ensures 0 <= index < count ==> (r == index <==> index == count - 1)
  {
    if index + 1 <= count - 1 then index + 1 else count - 1
  }

  /** Index after a fling towards earlier cells: one less, but never below 0
      (Swift's `max`). */
  function BackwardIndex(index: int): (r: int)
    ensures r >= 0 && r >= index - 1
    ensures r == index - 1 || r == 0
    ensures index >= 0 ==> (r == index <==> index == 0)
  {
    if index - 1 >= 0 then index - 1 else 0
  }

  /** The index a release without a fling picks, as the code computes it:
      the proposed resting offset divided by the cell size, rounded. It is
      the cell whose LEFT EDGE is nearest the proposed offset. */
  function RestIndexAsWritten(targetX: real, itemSize: real): (r: int)
    requires itemSize > 0.0
    ensures Abs(targetX - CellLeftX(r, itemSize)) <= itemSize / 2.0
  {
    var k := RoundHalfAwayFromZero(targetX / itemSize);
    WithinHalfUnit(targetX, itemSize, k);
    k
  }

  /** The index a release without a fling is meant to pick: the cell whose
      centre is nearest the middle of the view at the proposed resting offset.
      It differs from RestIndexAsWritten by the shift `(viewWidth - itemSize) / 2`
      that the centring offset subtracts. */
  function RestIndex(targetX: real, itemSize: real, viewWidth: real): (r: int)
    requires itemSize > 0.0
    ensures Abs(DistanceFromCenter(targetX, viewWidth, r, itemSize)) <= itemSize / 2.0
  {
    var y := VisibleCenterX(targetX, viewWidth) - itemSize / 2.0;
    var k := RoundHalfAwayFromZero(y / itemSize);
    WithinHalfUnit(y, itemSize, k);
    k
  }

  /** The new focused index after a drag ends with horizontal velocity
      `velocityX` and proposed resting offset `targetX`, as the code computes
      it. A fling moves an index in range by at most one cell and keeps it in
      range; a still release is in range only for offsets strictly between
      half a cell before the strip and half a cell before its end. */
  function SnapIndex(index: int, count: int, velocityX: real, targetX: real,
                     itemSize: real): (r: int)
    requires itemSize > 0.0
    ensures velocityX != 0.0 && 0 <= index < count
            ==> 0 <= r < count && index - 1 <= r <= index + 1
    ensures velocityX == 0.0
            ==> (0 <= r < count
                 <==> -0.5 * itemSize < targetX < (count as real - 0.5) * itemSize)
  {
    if velocityX > 0.0 then ForwardIndex(index, count)
    else if velocityX < 0.0 then BackwardIndex(index)
    else
      RestIndexAsWrittenInRangeIff(targetX, itemSize, count);
      RestIndexAsWritten(targetX, itemSize)
  }

  /** The drag-end rule with the still release corrected to the cell nearest
      the middle of the view. It agrees with the code on every fling, and a
      still release is in range exactly when the middle of the view lies
      over the strip. */
  function CorrectedSnapIndex(index: int, count: int, velocityX: real, targetX: real,
                              itemSize: real, viewWidth: real): (r: int)
    requires itemSize > 0.0
    ensures velocityX != 0.0 ==> r == SnapIndex(index, count, velocityX, targetX, itemSize)
    ensures velocityX == 0.0
            ==> (0 <= r < count
                 <==> 0.0 < VisibleCenterX(targetX, viewWidth) < ContentWidth(count, itemSize))
  {
    if velocityX > 0.0 then ForwardIndex(index, count)
    else if velocityX < 0.0 then BackwardIndex(index)
    else
      RestIndexInRangeIff(targetX, itemSize, viewWidth, count);
      RestIndex(targetX, itemSize, viewWidth)
  }

  /** `index` after `flings` flings towards later cells in a row. */
  function ForwardFlings(index: int, count: int, flings: nat): (r: int)
  {
    if flings == 0 then index else ForwardIndex(ForwardFlings(index, count, flings - 1), count)
  }

  /** `index` after `flings` flings towards earlier cells in a row. */
  function BackwardFlings(index: int, flings: nat): (r: int)
  {
    if flings == 0 then index else BackwardIndex(BackwardFlings(index, flings - 1))
  }

  /** Repeated flings towards later cells walk one cell at a time and stop at the
      last cell, where further flings change nothing. */
  lemma {:induction false} ForwardFlingsClamp(index: int, count: int, flings: nat)
    requires 0 <= index < count
    ensures ForwardFlings(index, count, flings)
            == if index + flings < count - 1 then index + flings else count - 1
  {
    if flings > 0 {
      ForwardFlingsClamp(index, count, flings - 1);
    }
  }

  /** Repeated flings towards earlier cells walk one cell at a time and stop at the
      first cell. */
  lemma {:induction false} BackwardFlingsClamp(index: int, flings: nat)
    requires 0 <= index
    ensures BackwardFlings(index, flings) == if index - flings > 0 then index - flings else 0
  {
    if flings > 0 {
      BackwardFlingsClamp(index, flings - 1);
    }
  }

  /** The rounding rule as written yields a valid index exactly when the
      proposed offset lies strictly between half a cell before the strip and
      half a cell before its end; nothing clamps it otherwise. */
  lemma {:induction false} RestIndexAsWrittenInRangeIff(targetX: real, itemSize: real, count: int)
    requires itemSize > 0.0
    ensures 0 <= RestIndexAsWritten(targetX, itemSize) < count
            <==> -0.5 * itemSize < targetX < (count as real - 0.5) * itemSize
  {
    RoundInIndexRange(targetX / itemSize, count);
    DivideBounds(targetX, itemSize, -0.5);
    DivideBounds(targetX, itemSize, count as real - 0.5);
  }

  /** A still release with the strip resting at its leftmost position, half a
      cell before the first cell, gives index -1. */
  lemma RestIndexAsWrittenAtLeftEdge(itemSize: real)
    requires itemSize > 0.0
    ensures RestIndexAsWritten(-ContentInset(itemSize), itemSize) == -1
  {
    assert -ContentInset(itemSize) / itemSize == -0.5;
    RoundUnique(-0.5, -1);
  }

  /** The code as written: a still release while resting exactly on cell
      `index` moves the focus one cell to the left whenever the view is more
      than two and less than four cells wide. */
  lemma {:induction false} StillReleaseAtRestDrifts(index: int, itemSize: real, viewWidth: real)
    requires itemSize > 0.0
    requires 2.0 * itemSize < viewWidth < 4.0 * itemSize
    ensures RestIndexAsWritten(CenteringOffset(index, itemSize, viewWidth), itemSize) == index - 1
  {
    var x := CenteringOffset(index, itemSize, viewWidth) / itemSize;
    var shift := (viewWidth - itemSize) / (2.0 * itemSize);
    assert x == index as real - shift by {
      assert CenteringOffset(index, itemSize, viewWidth)
          == (index as real - shift) * itemSize;
    }
    assert 0.5 < shift < 1.5 by {
      DivideBounds(viewWidth - itemSize, 2.0 * itemSize, 0.5);
      DivideBounds(viewWidth - itemSize, 2.0 * itemSize, 1.5);
    }
    RoundUnique(x, index - 1);
  }

  /** For a view at least one cell wide, the code as written keeps a resting cell (other than the first) under a
      still release exactly when the view is at most two cells wide. */
  lemma {:induction false} StillReleaseAtRestKeepsIndexIff(index: int, itemSize: real, viewWidth: real)
    requires itemSize > 0.0 && itemSize <= viewWidth
    requires index >= 1
    ensures RestIndexAsWritten(CenteringOffset(index, itemSize, viewWidth), itemSize) == index
            <==> viewWidth <= 2.0 * itemSize
  {
    var x := CenteringOffset(index, itemSize, viewWidth) / itemSize;
    var shift := (viewWidth - itemSize) / (2.0 * itemSize);
    assert x == index as real - shift by {
      assert CenteringOffset(index, itemSize, viewWidth)
          == (index as real - shift) * itemSize;
    }
    DivideBounds(viewWidth - itemSize, 2.0 * itemSize, 0.5);
    assert shift >= 0.0;
    if viewWidth <= 2.0 * itemSize {
      assert shift <= 0.5;
      RoundUnique(x, index);
    } else {
      assert shift > 0.5;
      assert RoundHalfAwayFromZero(x) < index;
    }
  }

  /** Worked instance: a view 390 points wide and 250 tall (cells of 180)
      resting on the middle of five cells moves to cell 1 on a still release. */
  lemma StillReleaseExample()
    ensures ItemSize(250.0) == 180.0
    ensures CenteringOffset(2, 180.0, 390.0) == 255.0
    ensures RestIndexAsWritten(255.0, 180.0) == 1
  {
    StillReleaseAtRestDrifts(2, 180.0, 390.0);
  }

  /** The intended rule undoes the centring offset: releasing without a fling
      while resting on any cell keeps that cell. */
  lemma {:induction false} RestIndexInvertsCentring(index: int, itemSize: real, viewWidth: real)
    requires itemSize > 0.0
    ensures RestIndex(CenteringOffset(index, itemSize, viewWidth), itemSize, viewWidth) == index
  {
    var c := VisibleCenterX(CenteringOffset(index, itemSize, viewWidth), viewWidth);
    assert c - itemSize / 2.0 == index as real * itemSize;
    assert (index as real * itemSize) / itemSize == index as real;
    RoundOfInteger(index);
  }

  /** The intended rule picks a cell whose centre is at least as near the
      middle of the view as any other cell's centre. */
  lemma {:induction false} RestIndexIsNearestCell(targetX: real, itemSize: real, viewWidth: real, other: int)
    requires itemSize > 0.0
    ensures var c := VisibleCenterX(targetX, viewWidth);
            var picked := RestIndex(targetX, itemSize, viewWidth);
            Abs(c - CellCenterX(picked, itemSize)) <= Abs(c - CellCenterX(other, itemSize))
  {
    var c := VisibleCenterX(targetX, viewWidth);
    var x := (c - itemSize / 2.0) / itemSize;
    DivideThenMultiply(c - itemSize / 2.0, itemSize);
    NearestFromRounding(c, itemSize, x, other);
  }

  /** Rounding the position measured in cells gives the nearest cell. */
  lemma NearestFromRounding(c: real, s: real, x: real, other: int)
    requires s > 0.0 && c - s / 2.0 == x * s
    ensures var picked := RoundHalfAwayFromZero(x);
            Abs(c - CellCenterX(picked, s)) <= Abs(c - CellCenterX(other, s))
  {
    var picked := RoundHalfAwayFromZero(x);
    RoundIsNearest(x, other);
    NearerInCells(c, s, x, picked, other);
  }

  /** Distances measured in cells compare like distances measured in points. */
  lemma NearerInCells(c: real, s: real, x: real, p: int, o: int)
    requires s > 0.0 && c - s / 2.0 == x * s
    requires Abs(x - p as real) <= Abs(x - o as real)
    ensures Abs(c - CellCenterX(p, s)) <= Abs(c - CellCenterX(o, s))
  {
    OffsetInPoints(c, s, x, p);
    OffsetInPoints(c, s, x, o);
    ScaleNonNegative(Abs(x - o as real) - Abs(x - p as real), s);
    assert Abs(x - o as real) * s - Abs(x - p as real) * s
        == (Abs(x - o as real) - Abs(x - p as real)) * s;
  }

  /** The distance from `c` to the centre of cell `p`, in points, is `s`
      times the distance from `x` to `p`, in cells. */
  lemma OffsetInPoints(c: real, s: real, x: real, p: int)
    requires s > 0.0 && c - s / 2.0 == x * s
    ensures Abs(c - CellCenterX(p, s)) == Abs(x - p as real) * s
  {
    assert CellCenterX(p, s) == p as real * s + s / 2.0;
    assert c - CellCenterX(p, s) == (x - p as real) * s;
    AbsOfProduct(x - p as real, s);
  }

  /** The intended rule yields a valid index exactly when the middle of the
      view lies strictly over the strip of cells. */
  lemma {:induction false} RestIndexInRangeIff(targetX: real, itemSize: real, viewWidth: real, count: int)
    requires itemSize > 0.0
    ensures 0 <= RestIndex(targetX, itemSize, viewWidth) < count
            <==> 0.0 < VisibleCenterX(targetX, viewWidth) < ContentWidth(count, itemSize)
  {
    var c := VisibleCenterX(targetX, viewWidth);
    var x := (c - itemSize / 2.0) / itemSize;
    assert RestIndex(targetX, itemSize, viewWidth) == RoundHalfAwayFromZero(x);
    RoundInIndexRange(x, count);
    DivideBounds(c - itemSize / 2.0, itemSize, -0.5);
    DivideBounds(c - itemSize / 2.0, itemSize, count as real - 0.5);
  }
}
