/** Layout arithmetic of the carousel: the cell size derived from the view's
    height, the scroll strip's content insets and width, where each cell sits
    on the strip, and the scroll offset that centres a given cell. Lengths are
    the source's `CGFloat` points, modelled as exact reals. */
module CarouselGeometry {

  /** Height of the page-indicator bar at the bottom of the view. */
  const PagingControlHeight: real := 30.0
  /** Vertical room left above the cells so that a scaled-up cell fits. */
  const ImageZoomSpace: real := 40.0

  /** Side of every (square) cell: what is left of the view's height after the
      zoom room and the page-indicator bar. */
  function ItemSize(height: real): (s: real)
    ensures s + ImageZoomSpace + PagingControlHeight == height
    ensures s > 0.0 <==> height > 70.0
  {
    height - ImageZoomSpace - PagingControlHeight
  }

  /** The left and the right content inset of the scroll strip. */
  function ContentInset(itemSize: real): real
  {
    itemSize / 2.0
  }

  /** Width of the strip's content: the cells laid side by side. */
  function ContentWidth(count: int, itemSize: real): (w: real)
    ensures count >= 0 && itemSize > 0.0 ==> w >= 0.0
  {
    count as real * itemSize
  }

  /** Left edge of cell `i` on the strip: cells are chained edge to edge from
      the strip's leading edge. */
  function CellLeftX(i: int, itemSize: real): (x: real)
  {
    i as real * itemSize
  }

  /** Horizontal centre of cell `i` on the strip. */
  function CellCenterX(i: int, itemSize: real): real
  {
    CellLeftX(i, itemSize) + itemSize / 2.0
  }

  /** The strip x-coordinate under the middle of the view when the strip is
      scrolled to `offsetX` (the scroll view spans the view's full width). */
  function VisibleCenterX(offsetX: real, viewWidth: real): (c: real)
    ensures c - offsetX == (offsetX + viewWidth) - c
    ensures viewWidth > 0.0 ==> offsetX < c < offsetX + viewWidth
  {
    viewWidth / 2.0 + offsetX
  }

  /** The scroll offset at which cell `index` sits in the middle of the view. */
  function CenteringOffset(index: int, itemSize: real, viewWidth: real): (x: real)
    ensures VisibleCenterX(x, viewWidth) == CellCenterX(index, itemSize)
  {
    index as real * itemSize - (viewWidth - itemSize) / 2.0
  }

  /** Signed distance from the middle of the view to the centre of cell `i`
      when the strip is scrolled to `offsetX`: how far the strip has moved
      past the offset that centres cell `i`. */
  function DistanceFromCenter(offsetX: real, viewWidth: real, i: int, itemSize: real): (d: real)
    ensures d == offsetX - CenteringOffset(i, itemSize, viewWidth)
    ensures d == 0.0 <==> offsetX == CenteringOffset(i, itemSize, viewWidth)
  {
    VisibleCenterX(offsetX, viewWidth) - CellCenterX(i, itemSize)
  }

  /** The centring offset is the only offset that puts the centre of cell
      `index` under the middle of the view. */
  lemma CenteringOffsetUnique(index: int, itemSize: real, viewWidth: real, offsetX: real)
    requires VisibleCenterX(offsetX, viewWidth) == CellCenterX(index, itemSize)
    ensures offsetX == CenteringOffset(index, itemSize, viewWidth)
  {
  }

  /** Once the strip rests at the centring offset of cell `k`, every cell's
      distance from the middle is a whole number of cells. */
  lemma DistanceAtCenteringOffset(k: int, i: int, itemSize: real, viewWidth: real)
    ensures DistanceFromCenter(CenteringOffset(k, itemSize, viewWidth), viewWidth, i, itemSize)
            == (k - i) as real * itemSize
  {
  }

  /** Cells tile the strip: each cell ends where the next begins, and the last
      one ends at the content width. */
  lemma CellsTileContent(count: int, i: int, itemSize: real)
    requires 0 <= i < count
    ensures CellLeftX(i, itemSize) + itemSize == CellLeftX(i + 1, itemSize)
    ensures CellLeftX(0, itemSize) == 0.0
    ensures CellLeftX(count - 1, itemSize) + itemSize == ContentWidth(count, itemSize)
  {
  }

  /** Centring offsets of neighbouring cells are one cell apart, so the
      centring offset determines the index when cells have positive size. */
  lemma {:induction false} CenteringOffsetInjective(i: int, j: int, itemSize: real, viewWidth: real)
    requires itemSize > 0.0
    ensures CenteringOffset(j, itemSize, viewWidth) - CenteringOffset(i, itemSize, viewWidth)
            == (j - i) as real * itemSize
    ensures CenteringOffset(i, itemSize, viewWidth) == CenteringOffset(j, itemSize, viewWidth) <==> i == j
  {
    var d := CenteringOffset(j, itemSize, viewWidth) - CenteringOffset(i, itemSize, viewWidth);
    assert d == (j - i) as real * itemSize;
    if i != j {
      if i < j {
        assert (j - i) as real >= 1.0;
        assert d >= itemSize;
      } else {
        assert (i - j) as real >= 1.0;
        assert -d >= itemSize;
      }
    }
  }

  /** The scroll strip can rest anywhere from `-inset` to
      `contentWidth + inset - viewWidth`. With insets of half a cell, the
      first and the last cell can be brought to the middle of the view within
      that range exactly when the view is at most two cells wide. */
  lemma EndCellsCentrableIff(count: int, itemSize: real, viewWidth: real)
    requires count > 0 && itemSize > 0.0
    ensures var inset := ContentInset(itemSize);
            var minOffset := -inset;
            var maxOffset := ContentWidth(count, itemSize) + inset - viewWidth;
            (minOffset <= CenteringOffset(0, itemSize, viewWidth)
             && CenteringOffset(count - 1, itemSize, viewWidth) <= maxOffset)
            <==> viewWidth <= 2.0 * itemSize
  {
  }
}
