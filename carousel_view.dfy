/** The carousel view: a page indicator, a horizontally scrolling strip with
    one square cell per image, the focus-lens scaling applied on every scroll,
    and the snap applied when a drag ends. UIKit's views are replaced by the
    plain values the view reads and writes. */
module CarouselView {
  import opened CarouselGeometry
  import opened FocusLens
  import opened CarouselSnap
  import opened ViewModel

  datatype Point = Point(x: real, y: real)

  datatype Rect = Rect(origin: Point, width: real, height: real)

  /** One image cell: the image it shows, its current scale transform, and
      whether the latest scaling pass brought it to the front. */
  datatype Cell = Cell(imageName: string, scale: real, raisedToFront: bool)

  /** A freshly created image cell: identity transform, not raised. */
  function CreateImageView(imageName: string): Cell
  {
    Cell(imageName, 1.0, false)
  }

  class CustomCarouselView {
    const frame: Rect
    const viewModel: CustomCarouselViewModel

    // The page indicator.
    var numberOfPages: int
    var currentPage: int

    // The scroll strip.
    var contentInsetLeft: real
    var contentInsetRight: real
    var contentWidth: real
    var contentOffset: Point

    /** The strip's cells, in layout order (cell `i` shows image `i`). */
    var cells: seq<Cell>

    /** Number of images, hence of cells and of pages. */
    function Count(): (n: nat)
    {
      |viewModel.images|
    }

    /** Side of every cell, derived from the view's height. */
    function ViewItemSize(): (s: real)
    {
      ItemSize(frame.height)
    }

    ghost predicate Valid()
      reads this
    {
      ViewItemSize() > 0.0
      && numberOfPages == Count()
      && contentInsetLeft == ContentInset(ViewItemSize())
      && contentInsetRight == ContentInset(ViewItemSize())
      && contentWidth == ContentWidth(Count(), ViewItemSize())
      && |cells| == Count()
      && (forall i :: 0 <= i < |cells| ==>
            cells[i].imageName == viewModel.images[i]
            && 1.0 <= cells[i].scale <= 1.2
            && (cells[i].raisedToFront <==> cells[i].scale > 1.0))
    }

    /** Every cell carries the scale and raise flag the focus lens assigns it
        at the current scroll offset. */
    ghost predicate LensApplied()
      reads this
      requires Valid()
    {
      forall i :: 0 <= i < |cells| ==>
        var d := DistanceFromCenter(contentOffset.x, frame.width, i, ViewItemSize());
        cells[i].scale == Scale(d, ViewItemSize())
        && cells[i].raisedToFront == BringsToFront(d, ViewItemSize())
    }

    /** Builds the page indicator, the strip and the cells. The initial
        centring, which the view defers until layout has settled, is
        SetInitialContentOffset, for the host to call afterwards. */
    constructor (frame: Rect, viewModel: CustomCarouselViewModel)
      requires ItemSize(frame.height) > 0.0
      ensures this.frame == frame && this.viewModel == viewModel
      ensures Valid()
      ensures currentPage == 0
      ensures contentOffset == Point(0.0, 0.0)
      ensures forall i :: 0 <= i < |cells| ==> cells[i] == CreateImageView(viewModel.images[i])
    {
      this.frame := frame;
      this.viewModel := viewModel;
      contentOffset := Point(0.0, 0.0);
      new;
      SetupPageControl();
      SetupContainerScrollView();
      SetupContent();
    }

    /** One page per image, starting on page 0. */
    method SetupPageControl()
      modifies this`numberOfPages, this`currentPage
      ensures numberOfPages == Count() && currentPage == 0
    {
      numberOfPages := Count();
      currentPage := 0;
    }

    /** Half a cell of inset on each side of the strip. */
    method SetupContainerScrollView()
      modifies this`contentInsetLeft, this`contentInsetRight
      ensures contentInsetLeft == ContentInset(ViewItemSize())
      ensures contentInsetRight == ContentInset(ViewItemSize())
    {
      contentInsetLeft := ViewItemSize() / 2.0;
      contentInsetRight := ViewItemSize() / 2.0;
    }

    /** One fresh cell per image, in the images' order, and a content width
        of one cell per image. */
    method SetupContent()
      modifies this`cells, this`contentWidth
      ensures |cells| == Count()
      ensures forall i :: 0 <= i < |cells| ==> cells[i] == CreateImageView(viewModel.images[i])
      ensures contentWidth == ContentWidth(Count(), ViewItemSize())
    {
      var added: seq<Cell> := [];
      for i := 0 to |viewModel.images|
        invariant |added| == i
        invariant forall j :: 0 <= j < i ==> added[j] == CreateImageView(viewModel.images[j])
      {
        added := added + [CreateImageView(viewModel.images[i])];
      }
      cells := added;
      contentWidth := Count() as real * ViewItemSize();
    }

    /** Focuses the middle image: the strip is scrolled so that image
        `count / 2` is centred, the model and the page indicator take that
        index, and the lens is applied. */
    method SetInitialContentOffset()
      requires Valid()
      modifies this`contentOffset, this`currentPage, this`cells, viewModel`currentlyVisiblePageIndex
      ensures Valid() && LensApplied()
      ensures viewModel.currentlyVisiblePageIndex == Count() / 2
      ensures Count() > 0 ==> 0 <= viewModel.currentlyVisiblePageIndex < Count()
      ensures currentPage == viewModel.currentlyVisiblePageIndex
      ensures contentOffset == Point(CenteringOffset(Count() / 2, ViewItemSize(), frame.width), 0.0)
      ensures forall i :: 0 <= i < |cells| ==>
                cells[i].scale == (if i == Count() / 2 then 1.2 else 1.0)
                && (cells[i].raisedToFront <==> i == Count() / 2)
    {
      var initialImageIndex := Count() / 2;
      var initialOffset := initialImageIndex as real * ViewItemSize() - (frame.width - ViewItemSize()) / 2.0;
      contentOffset := Point(initialOffset, 0.0);
      viewModel.currentlyVisiblePageIndex := initialImageIndex;
      currentPage := viewModel.currentlyVisiblePageIndex;
      UpdateImageScaling();
      forall i | 0 <= i < |cells|
        ensures cells[i].scale == (if i == Count() / 2 then 1.2 else 1.0)
        ensures cells[i].raisedToFront <==> i == Count() / 2
      {
        CenteredCellIsSoleFocus(initialImageIndex, i, ViewItemSize(), frame.width);
      }
    }

    /** The scroll engine has moved the strip to `newOffset` and reports it;
        the view re-applies the lens. */
    method ScrollViewDidScroll(newOffset: Point)
      requires Valid()
      modifies this`contentOffset, this`cells
      ensures Valid() && LensApplied()
      ensures contentOffset == newOffset
      ensures forall i, j ::
                0 <= i < |cells| && 0 <= j < |cells| && cells[i].raisedToFront && cells[j].raisedToFront
                ==> i == j
    {
      contentOffset := newOffset;
      UpdateImageScaling();
    }

    /** A drag ends with `velocity`; the scroll engine proposes to come to
        rest at `targetContentOffset`. The focus moves by the snap rule as the
        code computes it, and the returned resting offset centres the newly
        focused cell, keeping the proposed y. */
    method ScrollViewWillEndDragging(velocity: Point, targetContentOffset: Point) returns (newTarget: Point)
      requires Valid()
      modifies this`currentPage, viewModel`currentlyVisiblePageIndex
      ensures Valid()
      ensures viewModel.currentlyVisiblePageIndex
              == SnapIndex(old(viewModel.currentlyVisiblePageIndex), Count(), velocity.x,
                           targetContentOffset.x, ViewItemSize())
      ensures newTarget.y == targetContentOffset.y
      ensures VisibleCenterX(newTarget.x, frame.width)
              == CellCenterX(viewModel.currentlyVisiblePageIndex, ViewItemSize())
      ensures currentPage == viewModel.currentlyVisiblePageIndex
      ensures velocity.x != 0.0 && 0 <= old(viewModel.currentlyVisiblePageIndex) < Count()
              ==> 0 <= viewModel.currentlyVisiblePageIndex < Count()
      ensures velocity.x == 0.0
              ==> (0 <= viewModel.currentlyVisiblePageIndex < Count()
                   <==> -0.5 * ViewItemSize() < targetContentOffset.x
                        < (Count() as real - 0.5) * ViewItemSize())
      ensures velocity.x == 0.0 && old(viewModel.currentlyVisiblePageIndex) >= 1
              && ViewItemSize() <= frame.width
              && targetContentOffset.x
                 == CenteringOffset(old(viewModel.currentlyVisiblePageIndex), ViewItemSize(), frame.width)
              ==> (viewModel.currentlyVisiblePageIndex == old(viewModel.currentlyVisiblePageIndex)
                   <==> frame.width <= 2.0 * ViewItemSize())
    {
      var targetX := targetContentOffset.x;
      var oldIndex := viewModel.currentlyVisiblePageIndex;
      if velocity.x > 0.0 {
        viewModel.currentlyVisiblePageIndex := ForwardIndex(viewModel.currentlyVisiblePageIndex, Count());
      } else if velocity.x < 0.0 {
        viewModel.currentlyVisiblePageIndex := BackwardIndex(viewModel.currentlyVisiblePageIndex);
      } else {
        viewModel.currentlyVisiblePageIndex := RestIndexAsWritten(targetX, ViewItemSize());
        if oldIndex >= 1 && ViewItemSize() <= frame.width {
          StillReleaseAtRestKeepsIndexIff(oldIndex, ViewItemSize(), frame.width);
        }
      }
      assert viewModel.currentlyVisiblePageIndex
             == SnapIndex(oldIndex, Count(), velocity.x, targetX, ViewItemSize());
      var newOffsetX := CenteringOffset(viewModel.currentlyVisiblePageIndex, ViewItemSize(), frame.width);
      newTarget := Point(newOffsetX, targetContentOffset.y);
      currentPage := viewModel.currentlyVisiblePageIndex;
    }

    /** The drag end with the still release corrected to the cell nearest the
        middle of the view: a still release gives a valid index exactly when
        the middle of the view is over the strip, and a still release at rest
        on a cell keeps that cell. Flings behave as in ScrollViewWillEndDragging. */
    method ScrollViewWillEndDraggingCorrected(velocity: Point, targetContentOffset: Point) returns (newTarget: Point)
      requires Valid()
      modifies this`currentPage, viewModel`currentlyVisiblePageIndex
      ensures Valid()
      ensures viewModel.currentlyVisiblePageIndex
              == CorrectedSnapIndex(old(viewModel.currentlyVisiblePageIndex), Count(), velocity.x,
                                    targetContentOffset.x, ViewItemSize(), frame.width)
      ensures newTarget.y == targetContentOffset.y
      ensures VisibleCenterX(newTarget.x, frame.width)
              == CellCenterX(viewModel.currentlyVisiblePageIndex, ViewItemSize())
      ensures currentPage == viewModel.currentlyVisiblePageIndex
      ensures velocity.x == 0.0
              ==> (0 <= viewModel.currentlyVisiblePageIndex < Count()
                   <==> 0.0 < VisibleCenterX(targetContentOffset.x, frame.width) < contentWidth)
      ensures velocity.x == 0.0
              && targetContentOffset.x
                 == CenteringOffset(old(viewModel.currentlyVisiblePageIndex), ViewItemSize(), frame.width)
              ==> viewModel.currentlyVisiblePageIndex == old(viewModel.currentlyVisiblePageIndex)
    {
      var targetX := targetContentOffset.x;
      var oldIndex := viewModel.currentlyVisiblePageIndex;
      if velocity.x > 0.0 {
        viewModel.currentlyVisiblePageIndex := ForwardIndex(viewModel.currentlyVisiblePageIndex, Count());
      } else if velocity.x < 0.0 {
        viewModel.currentlyVisiblePageIndex := BackwardIndex(viewModel.currentlyVisiblePageIndex);
      } else {
        viewModel.currentlyVisiblePageIndex := RestIndex(targetX, ViewItemSize(), frame.width);
        RestIndexInvertsCentring(oldIndex, ViewItemSize(), frame.width);
      }
      var newOffsetX := CenteringOffset(viewModel.currentlyVisiblePageIndex, ViewItemSize(), frame.width);
      newTarget := Point(newOffsetX, targetContentOffset.y);
      currentPage := viewModel.currentlyVisiblePageIndex;
    }

    /** Sets every cell's scale from its distance to the middle of the view
        and marks the cells strictly inside the focus zone as raised. */
    method UpdateImageScaling()
      requires Valid()
      modifies this`cells
      ensures Valid() && LensApplied()
      ensures forall i, j ::
                0 <= i < |cells| && 0 <= j < |cells| && cells[i].raisedToFront && cells[j].raisedToFront
                ==> i == j
    {
      var centerX := VisibleCenterX(contentOffset.x, frame.width);
      for i := 0 to |cells|
        invariant Valid()
        invariant forall j :: 0 <= j < i ==>
                    var d := DistanceFromCenter(contentOffset.x, frame.width, j, ViewItemSize());
                    cells[j].scale == Scale(d, ViewItemSize())
                    && cells[j].raisedToFront == BringsToFront(d, ViewItemSize())
      {
        var distanceFromCenter := centerX - CellCenterX(i, ViewItemSize());
        var scale := Scale(distanceFromCenter, ViewItemSize());
        var raise := BringsToFront(distanceFromCenter, ViewItemSize());
        cells := cells[i := cells[i].(scale := scale, raisedToFront := raise)];
      }
      forall i, j | 0 <= i < |cells| && 0 <= j < |cells|
        ensures cells[i].raisedToFront && cells[j].raisedToFront ==> i == j
      {
        AtMostOneRaised(contentOffset.x, frame.width, i, j, ViewItemSize());
      }
    }
  }
}
