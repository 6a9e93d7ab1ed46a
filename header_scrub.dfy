/**
 * The header-collapse hook (`useHeaderScrub`): a two-state machine with hysteresis. An
 * expanded header collapses once the results are scrolled past 50; a collapsed one expands
 * once they are scrolled back above 30; in between nothing changes.
 */
module HeaderScrub {

  const CollapseThreshold := 50
  const ExpandThreshold := 30

  /** The state `updateScrollProgress` moves to from `wasCollapsed` at offset `scrollTop`. */
  function NextCollapsed(wasCollapsed: bool, scrollTop: int): (r: bool)
    ensures r != wasCollapsed ==>
      (wasCollapsed && scrollTop < ExpandThreshold) || (!wasCollapsed && scrollTop > CollapseThreshold)
    ensures ExpandThreshold <= scrollTop <= CollapseThreshold ==> r == wasCollapsed
  {
    if wasCollapsed && scrollTop < ExpandThreshold then false
    else if !wasCollapsed && scrollTop > CollapseThreshold then true
    else wasCollapsed
  }

  /** From expanded the header collapses exactly when the offset is strictly above 50. */
  lemma CollapsesOnlyAboveThreshold(scrollTop: int)
    ensures NextCollapsed(false, scrollTop) <==> scrollTop > CollapseThreshold
  {
  }

  /** From collapsed the header expands exactly when the offset is strictly below 30. */
  lemma ExpandsOnlyBelowThreshold(scrollTop: int)
    ensures !NextCollapsed(true, scrollTop) <==> scrollTop < ExpandThreshold
  {
  }

  /** Applying the same offset twice gives the state of applying it once. */
  lemma SameOffsetTwice(wasCollapsed: bool, scrollTop: int)
    ensures NextCollapsed(NextCollapsed(wasCollapsed, scrollTop), scrollTop) == NextCollapsed(wasCollapsed, scrollTop)
  {
  }

  /** Two state changes in a row need offsets more than 20 apart: small jitter cannot make it flicker. */
  lemma NoFlicker(w: bool, t1: int, t2: int)
    requires NextCollapsed(w, t1) != w
    requires NextCollapsed(NextCollapsed(w, t1), t2) != NextCollapsed(w, t1)
    ensures t1 - t2 > CollapseThreshold - ExpandThreshold || t2 - t1 > CollapseThreshold - ExpandThreshold
  {
  }

  /**
   * The hook's state: its `isMobile` / `hasSearched` inputs, whether the container element
   * exists, `lastCollapsedRef`, the `isCollapsed` state, and the values written to the
   * container's `--scroll-progress` property, in order.
   */
  class Scrub {
    var isMobile: bool
    var hasSearched: bool
    var hasContainer: bool
    var lastCollapsed: bool
    var isCollapsed: bool
    var progressWrites: seq<string>

    /** The ref and the state always hold the same value. */
    ghost predicate Valid()
      reads this
    {
      lastCollapsed == isCollapsed
    }

    constructor (isMobile: bool, hasSearched: bool, hasContainer: bool)
      ensures Valid() && !isCollapsed && progressWrites == []
      ensures this.isMobile == isMobile && this.hasSearched == hasSearched && this.hasContainer == hasContainer
    {
      this.isMobile, this.hasSearched, this.hasContainer := isMobile, hasSearched, hasContainer;
      lastCollapsed, isCollapsed, progressWrites := false, false, [];
    }

    /** The hook re-renders with new inputs. */
    method SetInputs(isMobile: bool, hasSearched: bool)
      modifies this`isMobile, this`hasSearched
      ensures this.isMobile == isMobile && this.hasSearched == hasSearched
    {
      this.isMobile, this.hasSearched := isMobile, hasSearched;
    }

    /** The returned `scrollProgress`: 1 when collapsed, 0 when expanded. */
    function ScrollProgress(): (p: int)
      reads this
      ensures p == 0 || p == 1
      ensures p == 1 <==> isCollapsed
    {
      if isCollapsed then 1 else 0
    }

    /**
     * `updateScrollProgress`: a no-op on mobile or before any search; otherwise the state
     * becomes `NextCollapsed`, and the property is written, "1" or "0", only when it changed.
     */
    method UpdateScrollProgress(scrollTop: int)
      requires Valid()
      modifies this`lastCollapsed, this`isCollapsed, this`progressWrites
      ensures Valid()
      ensures isMobile || !hasSearched ==> unchanged(this)
      ensures !isMobile && hasSearched ==>
        && isCollapsed == NextCollapsed(old(isCollapsed), scrollTop)
        && progressWrites == old(progressWrites) +
             (if isCollapsed != old(isCollapsed) && hasContainer
              then [if isCollapsed then "1" else "0"] else [])
    {
      if isMobile || !hasSearched {
        return;
      }
      var wasCollapsed := lastCollapsed;
      var shouldCollapse := wasCollapsed;
      if wasCollapsed && scrollTop < ExpandThreshold {
        shouldCollapse := false;
      } else if !wasCollapsed && scrollTop > CollapseThreshold {
        shouldCollapse := true;
      }
      if shouldCollapse != wasCollapsed {
        lastCollapsed := shouldCollapse;
        isCollapsed := shouldCollapse;
        if hasContainer {
          progressWrites := progressWrites + [if shouldCollapse then "1" else "0"];
        }
      }
    }

    /** `resetHeaderScrub`: write "0" when the container exists and expand. */
    method ResetHeaderScrub()
      modifies this`lastCollapsed, this`isCollapsed, this`progressWrites
      ensures Valid() && !isCollapsed
      ensures progressWrites == old(progressWrites) + (if hasContainer then ["0"] else [])
    {
      if hasContainer {
        progressWrites := progressWrites + ["0"];
      }
      isCollapsed := false;
      lastCollapsed := false;
    }
  }
}
