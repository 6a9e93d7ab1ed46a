/**
 * The fade indicators of the results pane (`useScrollFades`): a top fade while the content is
 * scrolled down at all, a bottom fade while more than one pixel of content is hidden below.
 */
module ScrollFades {
  import opened Dom
  import WheelProxy

  /** The `{ scrollTop, scrollHeight, clientHeight }` triple the check returns. */
  datatype Metrics = Metrics(scrollTop: int, scrollHeight: int, clientHeight: int)

  predicate ShowTopFade(scrollTop: int)
  {
    scrollTop > 0
  }

  predicate ShowBottomFade(scrollTop: int, scrollHeight: int, clientHeight: int)
  {
    scrollTop + clientHeight < scrollHeight - 1
  }

  /**
   * The bottom fade shows exactly while the distance left to the largest offset exceeds one
   * pixel; in particular neither fade shows at the two ends of the range.
   */
  lemma FadesAtTheEnds(scrollTop: int, scrollHeight: int, clientHeight: int)
    ensures ShowBottomFade(scrollTop, scrollHeight, clientHeight) <==>
      (scrollHeight - clientHeight) - scrollTop > 1
    ensures scrollTop == scrollHeight - clientHeight ==> !ShowBottomFade(scrollTop, scrollHeight, clientHeight)
    ensures scrollTop == 0 ==> !ShowTopFade(scrollTop)
  {
  }

  /** A wheel flush that reaches or overshoots the bottom leaves no bottom fade. */
  lemma FlushToBottomClearsBottomFade(top: int, delta: int, scrollHeight: int, clientHeight: int)
    requires top + delta >= scrollHeight - clientHeight
    ensures !ShowBottomFade(WheelProxy.ClampScroll(top, delta, scrollHeight - clientHeight), scrollHeight, clientHeight)
  {
  }

  /** The `showTopFade` / `showBottomFade` state of the hook. */
  class Fades {
    var showTopFade: bool
    var showBottomFade: bool

    constructor ()
      ensures !showTopFade && !showBottomFade
    {
      showTopFade, showBottomFade := false, false;
    }

    /**
     * `checkScrollPosition`: with no element it returns zeros and leaves both flags alone;
     * otherwise it sets both flags from the element and returns its metrics unchanged.
     */
    method CheckScrollPosition(element: Pane?) returns (m: Metrics)
      modifies this
      ensures element == null ==> m == Metrics(0, 0, 0) && unchanged(this)
      ensures element != null ==>
        && m == Metrics(element.scrollTop, element.scrollHeight, element.clientHeight)
        && showTopFade == ShowTopFade(m.scrollTop)
        && showBottomFade == ShowBottomFade(m.scrollTop, m.scrollHeight, m.clientHeight)
    {
      if element == null {
        return Metrics(0, 0, 0);
      }
      var scrollTop: int, scrollHeight: int, clientHeight: int := element.scrollTop, element.scrollHeight, element.clientHeight;
      showTopFade := scrollTop > 0;
      showBottomFade := scrollTop + clientHeight < scrollHeight - 1;
      m := Metrics(scrollTop, scrollHeight, clientHeight);
    }
  }
}
