/**
 * The user-details dialog (`UserModal`): its focus trap, its two ways of closing, and the
 * focus it saves when it opens and restores when it closes. Elements of the page are named by
 * identity; `focusables` is the list `querySelectorAll` returns, in document order.
 */
module UserModal {
  import opened Types
  import opened Seqs

  type Element = nat

  /**
   * `handleKeyDown`: the element the trap moves focus to (after preventing the default), or
   * None when it leaves the key to the browser. Only Tab is trapped, and only at the two ends.
   */
  function TrapFocus(key: string, shift: bool, focusables: seq<Element>, active: Option<Element>): Option<Element>
  {
    if key != "Tab" || |focusables| == 0 then None
    else if shift && active == Some(focusables[0]) then Some(focusables[|focusables| - 1])
    else if !shift && active == Some(focusables[|focusables| - 1]) then Some(focusables[0])
    else None
  }

  /** Keys other than Tab, and a dialog with nothing focusable, are left alone. */
  lemma TrapIgnoresOtherKeys(key: string, shift: bool, focusables: seq<Element>, active: Option<Element>)
    requires key != "Tab" || focusables == []
    ensures TrapFocus(key, shift, focusables, active) == None
  {
  }

  /** Shift+Tab on the first element goes to the last; Tab on the last goes to the first. */
  lemma TrapWrapsAtTheEnds(focusables: seq<Element>)
    requires focusables != []
    ensures TrapFocus("Tab", true, focusables, Some(focusables[0])) == Some(focusables[|focusables| - 1])
    ensures TrapFocus("Tab", false, focusables, Some(focusables[|focusables| - 1])) == Some(focusables[0])
  {
  }

  /**
   * Away from the ends, or moving away from the end it is on, the trap does not intervene;
   * with a single element, focus stays on it either way.
   */
  lemma TrapLeavesTheMiddleAlone(shift: bool, focusables: seq<Element>, i: int)
    requires NoDuplicates(focusables) && 0 <= i < |focusables|
    ensures (shift && i > 0) || (!shift && i < |focusables| - 1) ==>
      TrapFocus("Tab", shift, focusables, Some(focusables[i])) == None
    ensures |focusables| == 1 ==> TrapFocus("Tab", shift, focusables, Some(focusables[i])) == Some(focusables[0])
  {
  }

  /**
   * Where focus lands after Tab (or Shift+Tab) from the focusable at position `i`: the trap's
   * target when it intervenes, otherwise the browser's next (or previous) element in document
   * order. Focus never leaves the dialog.
   */
  function FocusAfterTab(shift: bool, focusables: seq<Element>, i: nat): (r: Element)
    requires i < |focusables|
    ensures r in focusables
  {
    match TrapFocus("Tab", shift, focusables, Some(focusables[i]))
    case Some(e) => e
    case None => if shift then focusables[i - 1] else focusables[i + 1]
  }

  /** With distinct focusables, Tab and Shift+Tab step through them in order, wrapping around at the ends. */
  lemma FocusCycles(shift: bool, focusables: seq<Element>, i: nat)
    requires NoDuplicates(focusables) && i < |focusables|
    ensures !shift ==>
              FocusAfterTab(shift, focusables, i) == (if i + 1 < |focusables| then focusables[i + 1] else focusables[0])
    ensures shift ==>
              FocusAfterTab(shift, focusables, i) == (if i > 0 then focusables[i - 1] else focusables[|focusables| - 1])
  {
    var n := |focusables|;
    if !shift && i < n - 1 {
      assert focusables[i] != focusables[n - 1];
    } else if shift && i > 0 {
      assert focusables[i] != focusables[0];
    }
  }

  /** The page's focus while the dialog is open, the focus it saved, and its calls of `onClose`. */
  class Modal {
    var focused: Option<Element>
    var saved: Option<Element>
    var closeRequests: nat

    /** Mounting saves the page's focused element and focuses the close button. */
    constructor (pageFocus: Option<Element>, closeButton: Element)
      ensures saved == pageFocus && focused == Some(closeButton) && closeRequests == 0
    {
      saved := pageFocus;
      focused := Some(closeButton);
      closeRequests := 0;
    }

    /** Unmounting gives focus back to the element that had it before the dialog opened. */
    method Unmount()
      modifies this`focused
      ensures saved.Some? ==> focused == saved
      ensures saved.None? ==> focused == old(focused)
    {
      if saved.Some? {
        focused := saved;
      }
    }

    /** The document-level keydown listener: Escape asks to close. */
    method DocumentKeyDown(key: string)
      modifies this`closeRequests
      ensures closeRequests == old(closeRequests) + (if key == "Escape" then 1 else 0)
    {
      if key == "Escape" {
        closeRequests := closeRequests + 1;
      }
    }

    /** `handleOverlayClick`: only a click on the overlay itself, not inside the dialog, asks to close. */
    method OverlayClick(target: Element, overlay: Element)
      modifies this`closeRequests
      ensures closeRequests == old(closeRequests) + (if target == overlay then 1 else 0)
    {
      if target == overlay {
        closeRequests := closeRequests + 1;
      }
    }

    /** `handleKeyDown`: when the trap intervenes the default is prevented and focus moves. */
    method KeyDown(key: string, shift: bool, focusables: seq<Element>) returns (prevented: bool)
      modifies this`focused
      ensures prevented == TrapFocus(key, shift, focusables, old(focused)).Some?
      ensures prevented ==> focused == TrapFocus(key, shift, focusables, old(focused))
      ensures !prevented ==> focused == old(focused)
    {
      prevented := false;
      if key == "Tab" {
        if |focusables| == 0 {
          return;
        }
        var first, last := focusables[0], focusables[|focusables| - 1];
        if shift && focused == Some(first) {
          prevented := true;
          focused := Some(last);
        } else if !shift && focused == Some(last) {
          prevented := true;
          focused := Some(first);
        }
      }
    }
  }

  /** Opening the dialog and closing it again leaves focus where it was before. */
  method OpenThenCloseRestoresFocus(pageFocus: Element, closeButton: Element)
    returns (whileOpen: Option<Element>, afterClose: Option<Element>)
    ensures whileOpen == Some(closeButton) && afterClose == Some(pageFocus)
  {
    var modal := new Modal(Some(pageFocus), closeButton);
    whileOpen := modal.focused;
    modal.Unmount();
    afterClose := modal.focused;
  }
}
