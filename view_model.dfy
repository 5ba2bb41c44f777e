/** The carousel's state holder: a fixed list of image names and the index of
    the page currently in focus. */
module ViewModel {

  /** The image names the carousel shows, in display order (five of them). */
  const DefaultImages: seq<string> := ["France", "Egypt", "India", "Australia", "USA"]

  class CustomCarouselViewModel {
    /** Never reassigned after construction. */
    const images: seq<string>
    /** Overwritten by the carousel view whenever the focus moves. */
    var currentlyVisiblePageIndex: int

    constructor ()
      ensures images == DefaultImages && |images| == 5
      ensures images[0] == "France" && images[4] == "USA"
      ensures currentlyVisiblePageIndex == 0
      ensures 0 <= currentlyVisiblePageIndex < |images|
    {
      images := DefaultImages;
      currentlyVisiblePageIndex := 0;
    }
  }
}
