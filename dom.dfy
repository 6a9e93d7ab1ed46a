/** The one piece of the browser the core touches directly: a scrollable element. */
module Dom {

  /** An element with a vertical scroll offset (`scrollTop`) and its content and viewport heights. */
  class Pane {
    var scrollTop: nat
    var scrollHeight: nat
    var clientHeight: nat

    constructor (top: nat, height: nat, client: nat)
      ensures scrollTop == top && scrollHeight == height && clientHeight == client
    {
      scrollTop, scrollHeight, clientHeight := top, height, client;
    }

    /** `scrollHeight - clientHeight`: the largest offset the content can be scrolled to. */
    function MaxScrollTop(): int
      reads this
    {
      scrollHeight - clientHeight
    }
  }
}
