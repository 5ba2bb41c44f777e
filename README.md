# Carousel widget model

A Dafny model of `CustomCarouselView`, a horizontally scrolling image carousel
for UIKit, and of its state holder `CustomCarouselViewModel`. The view shows one
square cell per image name on a scroll strip, with a page indicator below it.

- **Cell size.** The cells' side (`viewItemSize`) is the view's height minus a
  40-point zoom margin and the 30-point page-indicator bar.
- **Strip layout.** The strip has half a cell of content inset on each side,
  and its content is one cell wide per image.
- **Initial focus.** Once layout has settled, the strip is scrolled so that the
  middle image (`count / 2`) sits in the middle of the view.
- **Focus lens.** On every scroll, each cell is scaled by its distance from the
  middle of the view, up to 1.2 at dead centre and back to 1 at half a cell
  away. A cell strictly inside that zone is brought to the front.
- **Snap on drag end.** A fling towards later cells (positive horizontal
  velocity) moves the focused index one cell forward, clamped to the last
  index. A fling towards earlier cells (negative horizontal velocity) moves it
  one cell back, clamped to 0. A release without a fling picks a cell from the
  proposed resting offset. The resting offset is then replaced by the offset
  that centres the focused cell, and the page indicator shows the index.

Modules:

- `RealArithmetic`: small facts about exact reals.
- `Rounding`: Swift's `round`, which rounds half away from zero.
- `CarouselGeometry`: cell size, insets, content width, cell positions and the
  centring offset.
- `FocusLens`: the scale rule and the bring-to-front rule.
- `CarouselSnap`: the index rules for a drag end.
- `ViewModel`: the class `CustomCarouselViewModel`.
- `CarouselView`: the class `CustomCarouselView`. Its methods mirror the Swift
  methods and update the page indicator, the strip and the cells in place.
  `ScrollViewWillEndDragging` follows the code as written;
  `ScrollViewWillEndDraggingCorrected` is the same drag end with the
  still-release rule corrected as described under Findings.

Lengths (`CGFloat`) are exact `real`s, and Swift's `Int` is Dafny's unbounded
`int`. The image list has five entries (France, Egypt, India, Australia, USA),
although the comment above it says four, so the initial focus is index 2.

## Model

| member | source | states |
|---|---|---|
| CarouselGeometry.ItemSize | UIKIT-Atlys-ScrollView/CarouselView/CustomCarouselView.swift:39-41 | the cell side, the 40-point zoom margin and the 30-point indicator bar add up to the view's height; cells have positive size exactly when the height exceeds 70 |
| CarouselGeometry.ContentWidth | UIKIT-Atlys-ScrollView/CarouselView/CustomCarouselView.swift:126 | content width is one cell per image, hence non-negative |
| CarouselGeometry.VisibleCenterX | UIKIT-Atlys-ScrollView/CarouselView/CustomCarouselView.swift:163 | the strip point under the middle of the view is equidistant from the two visible edges `offsetX` and `offsetX + width`, and strictly between them for a view of positive width |
| CarouselGeometry.CenteringOffset | UIKIT-Atlys-ScrollView/CarouselView/CustomCarouselView.swift:83 | at offset `index*itemSize - (width - itemSize)/2`, the middle of the view is exactly over the centre of cell `index` |
| CarouselGeometry.CenteringOffsetUnique | UIKIT-Atlys-ScrollView/CarouselView/CustomCarouselView.swift:153 | the centring offset is the only offset that puts the centre of cell `index` under the middle of the view |
| CarouselGeometry.DistanceFromCenter | UIKIT-Atlys-ScrollView/CarouselView/CustomCarouselView.swift:163-165 | a cell's distance from the middle of the view is how far the strip has scrolled past the offset that centres it; it is zero exactly at that offset |
| CarouselGeometry.CellsTileContent | UIKIT-Atlys-ScrollView/CarouselView/CustomCarouselView.swift:107-126 | cells chained edge to edge start at 0, each ends where the next begins, and the last ends at the content width |
| CarouselGeometry.CenteringOffsetInjective | UIKIT-Atlys-ScrollView/CarouselView/CustomCarouselView.swift:153 | centring offsets of two indices differ by whole cells, so different indices get different resting offsets |
| CarouselGeometry.EndCellsCentrableIff | UIKIT-Atlys-ScrollView/CarouselView/CustomCarouselView.swift:53 | with half-cell insets, the first and the last cell can be centred inside the strip's scroll range if and only if the view is at most two cells wide |
| CarouselGeometry.DistanceAtCenteringOffset | UIKIT-Atlys-ScrollView/CarouselView/CustomCarouselView.swift:163-165 | at rest on cell `k`, cell `i` lies `(k - i)` cells from the middle |
| Rounding.RoundHalfAwayFromZero | UIKIT-Atlys-ScrollView/CarouselView/CustomCarouselView.swift:150 | the result is within one half of the input, and a tie rounds away from zero |
| Rounding.RoundIsNearest | UIKIT-Atlys-ScrollView/CarouselView/CustomCarouselView.swift:150 | no integer is closer to the input than the rounded value |
| Rounding.RoundOfInteger | UIKIT-Atlys-ScrollView/CarouselView/CustomCarouselView.swift:150 | rounding leaves integers unchanged |
| Rounding.RoundIsOdd | UIKIT-Atlys-ScrollView/CarouselView/CustomCarouselView.swift:150 | rounding commutes with negation |
| Rounding.RoundInIndexRange | UIKIT-Atlys-ScrollView/CarouselView/CustomCarouselView.swift:150 | the rounded value is in `[0, n)` if and only if the input is strictly between -1/2 and n - 1/2 |
| FocusLens.Scale | UIKIT-Atlys-ScrollView/CarouselView/CustomCarouselView.swift:166-174 | the scale is always in [1, 1.2]; it is 1.2 exactly at distance 0 and 1 exactly at distance of half a cell or more |
| FocusLens.BringsToFront | UIKIT-Atlys-ScrollView/CarouselView/CustomCarouselView.swift:176-178 | a cell is raised if and only if the lens enlarges it (strictly inside half a cell) |
| FocusLens.AtThresholdNotRaised | UIKIT-Atlys-ScrollView/CarouselView/CustomCarouselView.swift:168-178 | a cell exactly half a cell away gets scale 1 and is not raised |
| FocusLens.ScaleSymmetric | UIKIT-Atlys-ScrollView/CarouselView/CustomCarouselView.swift:165-169 | cells left and right of the middle at equal distance get equal scale |
| FocusLens.ScaleNonIncreasing | UIKIT-Atlys-ScrollView/CarouselView/CustomCarouselView.swift:166-174 | a cell farther from the middle is never scaled larger |
| FocusLens.ScaleProfile | UIKIT-Atlys-ScrollView/CarouselView/CustomCarouselView.swift:168-173 | inside the zone, the scale falls linearly by `0.4/itemSize` per point of distance; outside it is 1 |
| FocusLens.ScaleLipschitz | UIKIT-Atlys-ScrollView/CarouselView/CustomCarouselView.swift:166-174 | the scale changes by at most `0.4/itemSize` times the change of distance, so the lens is continuous |
| FocusLens.CenteredCellIsSoleFocus | UIKIT-Atlys-ScrollView/CarouselView/CustomCarouselView.swift:162-180 | at rest on cell `k`, only cell `k` is enlarged (to 1.2) and raised; every other cell has scale 1 and is not raised |
| FocusLens.AtMostOneRaised | UIKIT-Atlys-ScrollView/CarouselView/CustomCarouselView.swift:163-178 | at any scroll offset, two cells that are both brought to the front are the same cell: at most one cell is strictly inside the focus zone |
| CarouselSnap.ForwardIndex | UIKIT-Atlys-ScrollView/CarouselView/CustomCarouselView.swift:145-146 | a fling towards later cells (positive velocity) gives `min(i+1, count-1)`; from an index in range the result stays in range, and it is unchanged exactly at the last index |
| CarouselSnap.BackwardIndex | UIKIT-Atlys-ScrollView/CarouselView/CustomCarouselView.swift:147-148 | a fling towards earlier cells (negative velocity) gives `max(i-1, 0)`, never negative; it is unchanged exactly at 0 |
| CarouselSnap.ForwardFlingsClamp | UIKIT-Atlys-ScrollView/CarouselView/CustomCarouselView.swift:145-146 | `k` forward flings in a row from an index in range reach `min(i+k, count-1)` |
| CarouselSnap.BackwardFlingsClamp | UIKIT-Atlys-ScrollView/CarouselView/CustomCarouselView.swift:147-148 | `k` backward flings in a row from a non-negative index reach `max(i-k, 0)` |
| CarouselSnap.SnapIndex | UIKIT-Atlys-ScrollView/CarouselView/CustomCarouselView.swift:145-151 | the index rule as the code computes it: a fling keeps an index in range and moves it by at most one; a still release gives a valid index if and only if `-itemSize/2 < targetX < (count - 1/2)*itemSize` |
| CarouselSnap.RestIndexAsWritten | UIKIT-Atlys-ScrollView/CarouselView/CustomCarouselView.swift:150 | `round(targetX / itemSize)` picks a cell whose left edge is within half a cell of the proposed offset (not a cell whose centre is near the middle of the view) |
| CarouselSnap.RestIndexAsWrittenInRangeIff | UIKIT-Atlys-ScrollView/CarouselView/CustomCarouselView.swift:149-151 | `round(targetX / itemSize)` is a valid index if and only if `-itemSize/2 < targetX < (count - 1/2)*itemSize`; nothing clamps it |
| CarouselSnap.RestIndexAsWrittenAtLeftEdge | UIKIT-Atlys-ScrollView/CarouselView/CustomCarouselView.swift:149-151 | at the leftmost resting offset (minus one inset), the rounding gives index -1 |
| CarouselSnap.StillReleaseAtRestDrifts | UIKIT-Atlys-ScrollView/CarouselView/CustomCarouselView.swift:149-153 | with the view more than two and less than four cells wide, releasing without a fling while at rest on cell `k` gives `k - 1` |
| CarouselSnap.StillReleaseAtRestKeepsIndexIff | UIKIT-Atlys-ScrollView/CarouselView/CustomCarouselView.swift:149-153 | for a view at least one cell wide and `k >= 1`, a still release at rest on `k` keeps `k` if and only if the view is at most two cells wide |
| CarouselSnap.StillReleaseExample | UIKIT-Atlys-ScrollView/CarouselView/CustomCarouselView.swift:149-153 | a 250-tall view has 180-point cells; 390 wide, at rest on cell 2 (offset 255), a still release gives 1 |
| CarouselSnap.RestIndex | UIKIT-Atlys-ScrollView/CarouselView/CustomCarouselView.swift:149-153 | the corrected still-release rule picks a cell whose centre is within half a cell of the middle of the view |
| CarouselSnap.RestIndexInvertsCentring | UIKIT-Atlys-ScrollView/CarouselView/CustomCarouselView.swift:149-153 | the corrected rule keeps the resting cell: applied to the centring offset of `k` it gives `k` |
| CarouselSnap.RestIndexIsNearestCell | UIKIT-Atlys-ScrollView/CarouselView/CustomCarouselView.swift:149-153 | the corrected rule picks a cell whose centre is at least as near the middle of the view as any other cell's |
| CarouselSnap.RestIndexInRangeIff | UIKIT-Atlys-ScrollView/CarouselView/CustomCarouselView.swift:149-151 | the corrected rule gives a valid index if and only if the middle of the view lies strictly over the strip of cells |
| CarouselSnap.CorrectedSnapIndex | UIKIT-Atlys-ScrollView/CarouselView/CustomCarouselView.swift:145-153 | the corrected index rule agrees with the code on every fling, and a still release gives a valid index if and only if the middle of the view is over the strip |
| ViewModel.CustomCarouselViewModel.constructor | UIKIT-Atlys-ScrollView/CarouselView/CustomCarouselViewModel.swift:10-16 | five images, France first and USA last, and the focused index starts at 0, which is in range |
| CarouselView.CustomCarouselView.constructor | UIKIT-Atlys-ScrollView/CarouselView/CustomCarouselView.swift:18-29 | after setup: the view invariant holds, the indicator shows page 0, the strip is at the origin, and cell `i` is a fresh cell for image `i` |
| CarouselView.CustomCarouselView.SetupPageControl | UIKIT-Atlys-ScrollView/CarouselView/CustomCarouselView.swift:64-66 | one page per image, current page 0 |
| CarouselView.CustomCarouselView.SetupContainerScrollView | UIKIT-Atlys-ScrollView/CarouselView/CustomCarouselView.swift:47-53 | both content insets are half a cell |
| CarouselView.CustomCarouselView.SetupContent | UIKIT-Atlys-ScrollView/CarouselView/CustomCarouselView.swift:99-126 | exactly one fresh cell per image, in the images' order; content width is one cell per image |
| CarouselView.CustomCarouselView.SetInitialContentOffset | UIKIT-Atlys-ScrollView/CarouselView/CustomCarouselView.swift:81-88 | focused index becomes `count/2` (in range when count > 0), the page indicator equals it, and the offset is `index*itemSize - (width - itemSize)/2` with y 0; afterwards only that cell is enlarged (1.2) and raised |
| CarouselView.CustomCarouselView.ScrollViewDidScroll | UIKIT-Atlys-ScrollView/CarouselView/CustomCarouselView.swift:138-140 | after every scroll, each cell carries the scale and raise flag the lens assigns at the new offset; at most one cell is raised |
| CarouselView.CustomCarouselView.ScrollViewWillEndDragging | UIKIT-Atlys-ScrollView/CarouselView/CustomCarouselView.swift:142-156 | the new index is the code's snap rule (`round(targetX / itemSize)` on a still release); the returned offset centres that cell and keeps the proposed y; the page indicator equals the index; a fling keeps an in-range index in range; a still release gives a valid index if and only if `-itemSize/2 < targetX < (count - 1/2)*itemSize`; at rest on cell `k >= 1` in a view at least one cell wide, a still release keeps `k` if and only if the view is at most two cells wide |
| CarouselView.CustomCarouselView.ScrollViewWillEndDraggingCorrected | UIKIT-Atlys-ScrollView/CarouselView/CustomCarouselView.swift:142-156 | the same drag end with the corrected still-release rule: flings as in the code; a still release gives a valid index if and only if the middle of the view is over the strip, and at rest on any cell it keeps that cell |
| CarouselView.CustomCarouselView.UpdateImageScaling | UIKIT-Atlys-ScrollView/CarouselView/CustomCarouselView.swift:162-180 | every cell's scale and raise flag are set from its distance to the middle of the view; scales stay in [1, 1.2], and a cell is raised exactly when it is enlarged; at most one cell is raised |

## Findings

| source | as written | input that shows it | evidently intended | confidence | as-written member | corrected member |
|---|---|---|---|---|---|---|
| UIKIT-Atlys-ScrollView/CarouselView/CustomCarouselView.swift:149-151 | a release without a fling focuses `round(targetX / itemSize)`. That ignores the `(width - itemSize)/2` shift which line 153 subtracts to centre a cell | view 390 wide and 250 tall (cells of 180), at rest on cell 2 (offset 255), released with zero velocity: the focus moves to cell 1. The same drift happens for any view between two and four cells wide | the cell nearest the middle of the view: `round((targetX + (width - itemSize)/2) / itemSize)`. That undoes the centring offset, so a still release keeps the resting cell | medium, not executed | CarouselSnap.StillReleaseAtRestDrifts (on CarouselSnap.RestIndexAsWritten, which CarouselView.CustomCarouselView.ScrollViewWillEndDragging uses) | CarouselSnap.RestIndexInvertsCentring (on CarouselSnap.RestIndex, which CarouselView.CustomCarouselView.ScrollViewWillEndDraggingCorrected uses) |

## Left out

- Auto Layout constraints, subview insertion, tint colours, corner radius, content mode, `hidesForSinglePage` and the scroll indicators: UI configuration with no state the model needs.
- `UIImage(named:)` asset lookup is a library call. A cell records only the image name.
- The 0.1-second `DispatchQueue.main.asyncAfter` deferral: `SetInitialContentOffset` is an ordinary method for the host to call after construction.
- The z-order change made by `bringSubviewToFront` and the rendering of `CGAffineTransform`: each cell keeps its scale factor and a flag saying whether the latest pass raised it.
- Subviews of the scroll view other than the image cells (indicator views UIKit may add) are not modelled.
- `CGFloat` rounding: lengths are exact reals.
- `Int(...)` and the `+ 1` of a forward fling trapping on overflow: indices are unbounded integers.
- UIKit's own pinning of `UIPageControl.currentPage` to `0..numberOfPages-1`: `currentPage` holds the value assigned to it.
- The scroll engine itself: deceleration, rubber-banding and how it reaches the returned target offset. `ScrollViewDidScroll` receives the engine's new offset as a parameter.
- Changes of the view's bounds after construction: the frame is a constant.
- The functions that divide by the cell size require `itemSize > 0`, i.e. a view taller than 70 points. The view's own behaviour for smaller views is undefined (division by zero or negative cells). `ViewController.swift` is not part of this model; it builds a 250-tall frame, so cells are 180 points (`CarouselSnap.StillReleaseExample`).
- `init(coder:)` only aborts and is not modelled.
