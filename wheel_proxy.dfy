/**
 * The wheel-to-scroll proxy (`useWheelProxyScroll`, and the same code inline in the dashboard):
 * wheel events on the outer container are accumulated into a pending delta, and one animation
 * frame at a time moves the inner results pane by that delta, clamped to its scroll range.
 */
module WheelProxy {
  import opened Dom

  /** `Math.max(0, Math.min(top + delta, maxTop))`. */
  function ClampScroll(top: int, delta: int, maxTop: int): (r: nat)
    ensures r <= (if maxTop < 0 then 0 else maxTop)
    ensures 0 <= top + delta <= maxTop ==> r == top + delta
    ensures top + delta > maxTop ==> r == (if maxTop < 0 then 0 else maxTop)
    ensures top + delta < 0 ==> r == 0
  {
    var m := if top + delta < maxTop then top + delta else maxTop;
    if m < 0 then 0 else m
  }

  /** A flush of a zero delta leaves an offset that is already in range where it is. */
  lemma ClampIdempotent(top: int, delta: int, maxTop: int)
    ensures ClampScroll(ClampScroll(top, delta, maxTop), 0, maxTop) == ClampScroll(top, delta, maxTop)
  {
  }

  /** A larger accumulated delta never scrolls less far. */
  lemma ClampMonotone(top: int, d1: int, d2: int, maxTop: int)
    requires d1 <= d2
    ensures ClampScroll(top, d1, maxTop) <= ClampScroll(top, d2, maxTop)
  {
  }

  /**
   * The proxy's state: the refs `pendingWheelDeltaRef` and `wheelRafRef`, whether the wheel
   * listener is attached, the live `targetRef.current`, and how many animation-frame callbacks
   * the browser holds. `updates` counts the calls of `onScrollUpdate`.
   */
  class Proxy {
    var installed: bool
    var target: Pane?
    var pending: int
    var hasHandle: bool
    var framesQueued: nat
    var updates: nat

    /**
     * At most one frame is ever queued, a queued frame always has its handle recorded, and a
     * detached proxy holds neither a handle nor a pending delta.
     */
    ghost predicate Valid()
      reads this
    {
      && framesQueued <= 1
      && (framesQueued == 1 ==> hasHandle)
      && (hasHandle ==> installed)
      && (!installed ==> pending == 0)
    }

    constructor (target: Pane?)
      ensures Valid()
      ensures this.target == target && !installed && pending == 0 && !hasHandle
      ensures framesQueued == 0 && updates == 0
    {
      this.target := target;
      installed, pending, hasHandle, framesQueued, updates := false, 0, false, 0, 0;
    }

    /**
     * The effect body: the listener is attached only when the hook is enabled and both the
     * container and the target element exist.
     */
    method Install(enabled: bool, hasContainer: bool)
      requires Valid() && !installed
      modifies this`installed
      ensures Valid()
      ensures installed == (enabled && hasContainer && target != null)
    {
      if !hasContainer || target == null || !enabled {
        return;
      }
      installed := true;
    }

    /** React attaches or detaches the target element (`targetRef.current`). */
    method SetTarget(p: Pane?)
      requires Valid()
      modifies this`target
      ensures Valid() && target == p
    {
      target := p;
    }

    /**
     * `handleWheel`. The event is consumed (its default prevented) when the listener is
     * attached, the target exists and the event did not start over a text-input-like element; a
     * consumed event adds its delta to the pending value and queues a frame only when no
     * handle is recorded.
     */
    method Wheel(deltaY: int, typingTarget: bool) returns (consumed: bool)
      requires Valid()
      modifies this`pending, this`hasHandle, this`framesQueued
      ensures Valid()
      ensures consumed == (installed && target != null && !typingTarget)
      ensures pending == old(pending) + (if consumed then deltaY else 0)
      ensures hasHandle == (old(hasHandle) || consumed)
      ensures framesQueued == old(framesQueued) + (if consumed && !old(hasHandle) then 1 else 0)
    {
      consumed := false;
      if !installed || target == null || typingTarget {
        return;
      }
      consumed := true;
      pending := pending + deltaY;
      if hasHandle {
        return;
      }
      hasHandle := true;
      framesQueued := framesQueued + 1;
    }

    /**
     * The animation-frame callback. If the target has gone it returns at once, leaving the
     * pending delta and the recorded handle as they were; otherwise it moves the target by the
     * pending delta, clamped to [0, scrollHeight - clientHeight], zeroes the delta, reports the
     * update once and forgets the handle.
     */
    method Flush()
      requires Valid() && framesQueued > 0
      modifies this`pending, this`hasHandle, this`framesQueued, this`updates, target
      ensures Valid()
      ensures framesQueued == 0 && target == old(target)
      ensures old(target) == null ==>
        pending == old(pending) && hasHandle == old(hasHandle) && updates == old(updates)
      ensures old(target) != null ==>
        && target.scrollTop == ClampScroll(old(target.scrollTop), old(pending), old(target.MaxScrollTop()))
        && target.scrollHeight == old(target.scrollHeight)
        && target.clientHeight == old(target.clientHeight)
        && pending == 0 && !hasHandle && updates == old(updates) + 1
    {
      framesQueued := framesQueued - 1;
      var el := target;
      if el == null {
        return;
      }
      var delta := pending;
      pending := 0;
      var maxScrollTop := el.scrollHeight - el.clientHeight;
      el.scrollTop := ClampScroll(el.scrollTop, delta, maxScrollTop);
      updates := updates + 1;
      if hasHandle {
        hasHandle := false;
      }
    }

    /** The effect cleanup: detach the listener, cancel any recorded frame, zero the pending delta. */
    method Cleanup()
      requires Valid() && installed
      modifies this`installed, this`hasHandle, this`framesQueued, this`pending
      ensures Valid()
      ensures !installed && !hasHandle && framesQueued == 0 && pending == 0
    {
      installed := false;
      if hasHandle {
        framesQueued := 0;
        hasHandle := false;
      }
      pending := 0;
    }
  }

  /**
   * The wheel test of the dashboard: a results pane of height 2000 shown in 500, at the top,
   * receives one wheel event of 120 and the next frame scrolls it to 120.
   */
  method WheelMovesPaneByDelta() returns (top: int, pendingAfter: int, frames: nat)
    ensures top == 120 && pendingAfter == 0 && frames == 0
  {
    var pane := new Pane(0, 2000, 500);
    var proxy := new Proxy(pane);
    proxy.Install(true, true);
    var consumed := proxy.Wheel(120, false);
    proxy.Flush();
    top, pendingAfter, frames := pane.scrollTop, proxy.pending, proxy.framesQueued;
  }

  /**
   * If the target is gone when the frame runs, the handle is never cleared: once the target is
   * back, wheel events still accumulate but no frame is queued, so the pane does not move until
   * the effect is torn down.
   */
  method VanishedTargetStallsScrolling() returns (top: int, pendingAfter: int, frames: nat)
    ensures top == 0 && pendingAfter == 100 && frames == 0
  {
    var pane := new Pane(0, 2000, 500);
    var proxy := new Proxy(pane);
    proxy.Install(true, true);
    var consumed := proxy.Wheel(60, false);
    proxy.SetTarget(null);
    proxy.Flush();
    proxy.SetTarget(pane);
    consumed := proxy.Wheel(40, false);
    top, pendingAfter, frames := pane.scrollTop, proxy.pending, proxy.framesQueued;
  }
}
