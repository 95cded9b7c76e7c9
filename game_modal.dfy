/**
 * The full-screen game overlay (GameModal): a scroll-lock effect keyed on
 * `isOpen` that writes `document.body.style.overflow`, conditional rendering
 * of backdrop and panel, and the close handlers.
 */
module GameModal {
  import opened Wrappers

  /** The page body; `overflow` is `document.body.style.overflow`. */
  class Body {
    var overflow: string

    constructor (overflow: string)
      ensures this.overflow == overflow
    {
      this.overflow := overflow;
    }
  }

  /** What the effect writes for a given `isOpen`. */
  function EffectValue(isOpen: bool): (v: string)
    ensures v == "hidden" <==> isOpen
    ensures !isOpen ==> v == ""
  {
    if isOpen then "hidden" else ""
  }

  /** What the effect's cleanup writes, whatever was there. */
  const CleanupValue: string := ""

  /**
   * The overflow after mounting with `open0` and then receiving the
   * props `changes` in turn, starting from a body whose overflow was `prior`.
   * A change to a different value runs the cleanup and then the effect; an
   * equal value leaves the effect alone.
   */
  function OverflowAfter(prior: string, open0: bool, changes: seq<bool>): string
  {
    if changes == [] then EffectValue(open0)
    else
      var before := OverflowAfter(prior, open0, changes[..|changes| - 1]);
      var last := changes[|changes| - 1];
      var was := if |changes| == 1 then open0 else changes[|changes| - 2];
      if last == was then before else EffectValue(last)
  }

  /** The last `isOpen` value seen. */
  function LastOpen(open0: bool, changes: seq<bool>): bool
  {
    if changes == [] then open0 else changes[|changes| - 1]
  }

  /**
   * The prior overflow is never read: after any run of prop changes the
   * overflow depends only on the latest `isOpen`.
   */
  lemma {:induction false} OverflowFollowsLastOpen(prior: string, open0: bool, changes: seq<bool>)
    ensures OverflowAfter(prior, open0, changes) == EffectValue(LastOpen(open0, changes))
  {
    if changes != [] {
      var init := changes[..|changes| - 1];
      OverflowFollowsLastOpen(prior, open0, init);
      if |changes| > 1 {
        assert LastOpen(open0, init) == changes[|changes| - 2];
      }
    }
  }

  /** Opening then closing leaves "", not the value the page had before opening. */
  lemma PriorNotRestored()
    ensures OverflowAfter("scroll", false, [true, false]) == ""
    ensures OverflowAfter("scroll", false, [true, false]) != "scroll"
  {
    OverflowFollowsLastOpen("scroll", false, [true, false]);
  }

  /** The parts of the overlay that can receive a click. */
  datatype Node = Backdrop | Container | Panel | CloseButton

  /** What each part does with a click. */
  datatype Handler = CallOnClose | StopPropagation | NoHandler

  function HandlerOf(n: Node): Handler
  {
    match n
    case Backdrop => CallOnClose
    case Container => NoHandler
    case Panel => StopPropagation
    case CloseButton => CallOnClose
  }

  /** The enclosing part a click bubbles to next, inside the overlay. */
  function Parent(n: Node): Option<Node>
  {
    match n
    case CloseButton => Some(Panel)
    case Panel => Some(Container)
    case _ => None
  }

  function Depth(n: Node): nat
  {
    match n
    case CloseButton => 2
    case Panel => 1
    case _ => 0
  }

  /** Calls to `onClose` made while a click on n bubbles up through the overlay. */
  function OnCloseCalls(n: Node): (calls: nat)
    decreases Depth(n)
    ensures calls <= 1
    ensures calls == 1 <==> n == Backdrop || n == CloseButton
  {
    var here := if HandlerOf(n) == CallOnClose then 1 else 0;
    match Parent(n)
    case None => here
    case Some(p) =>
      if HandlerOf(n) == StopPropagation then here
      else here + OnCloseCalls(p)
  }

  /** The layers rendered for a given `isOpen`. */
  function Rendered(isOpen: bool): (layers: set<Node>)
    ensures layers != {} <==> isOpen
    ensures isOpen ==> Backdrop in layers && Panel in layers && CloseButton in layers
  {
    if isOpen then {Backdrop, Container, Panel, CloseButton} else {}
  }

  /** A mounted GameModal and the body it locks. */
  class Modal {
    const body: Body
    var isOpen: bool
    var mounted: bool

    /** While mounted, the body's overflow is whatever the effect last wrote. */
    ghost predicate Valid()
      reads this, body
    {
      mounted ==> body.overflow == EffectValue(isOpen)
    }

    /** Mount: the effect runs once with the initial prop. */
    constructor (body: Body, isOpen: bool)
      modifies body
      ensures this.body == body && this.isOpen == isOpen && mounted
      ensures Valid() && body.overflow == EffectValue(isOpen)
    {
      this.body := body;
      this.isOpen := isOpen;
      mounted := true;
      body.overflow := EffectValue(isOpen);
    }

    /** A new `isOpen` prop: when it differs, the cleanup runs and then the effect. */
    method SetOpen(v: bool)
      requires Valid() && mounted
      modifies this, body
      ensures Valid() && mounted && isOpen == v
      ensures body.overflow == EffectValue(v)
      ensures v == old(isOpen) ==> body.overflow == old(body.overflow)
    {
      if v != isOpen {
        body.overflow := CleanupValue;
        isOpen := v;
        body.overflow := EffectValue(isOpen);
      }
    }

    /** Unmount: the cleanup writes "" whether the overlay was open or not. */
    method Unmount()
      requires Valid() && mounted
      modifies this, body
      ensures Valid() && !mounted && isOpen == old(isOpen)
      ensures body.overflow == ""
    {
      body.overflow := CleanupValue;
      mounted := false;
    }

    /** What is on screen. */
    function Visible(): (layers: set<Node>)
      reads this
      ensures layers != {} <==> mounted && isOpen
    {
      if mounted then Rendered(isOpen) else {}
    }
  }

  /** Opening, closing and unmounting a modal over any prior overflow ends with "". */
  method OpenCloseUnmount(prior: string) returns (afterOpen: string, afterClose: string, afterUnmount: string)
    ensures afterOpen == "hidden" && afterClose == "" && afterUnmount == ""
  {
    var body := new Body(prior);
    var m := new Modal(body, false);
    m.SetOpen(true);
    afterOpen := body.overflow;
    m.SetOpen(false);
    afterClose := body.overflow;
    m.Unmount();
    afterUnmount := body.overflow;
  }

  /**
   * Mount a modal over a body whose overflow is `prior` and pass it the
   * props `changes` one by one: the body ends with the overflow the
   * reference `OverflowAfter` gives, and so with the effect value of the last prop.
   */
  method RunProps(prior: string, open0: bool, changes: seq<bool>) returns (overflow: string)
    ensures overflow == OverflowAfter(prior, open0, changes)
    ensures overflow == EffectValue(LastOpen(open0, changes))
  {
    var body := new Body(prior);
    var m := new Modal(body, open0);
    var i := 0;
    while i < |changes|
      invariant 0 <= i <= |changes|
      invariant m.body == body && m.Valid() && m.mounted
      invariant m.isOpen == LastOpen(open0, changes[..i])
      invariant body.overflow == OverflowAfter(prior, open0, changes[..i])
    {
      assert changes[..i + 1][..i] == changes[..i];
      m.SetOpen(changes[i]);
      i := i + 1;
    }
    assert changes[..i] == changes;
    overflow := body.overflow;
    OverflowFollowsLastOpen(prior, open0, changes);
  }

  /** Unmounting while still open releases the lock. */
  method UnmountWhileOpen(prior: string) returns (after: string)
    ensures after == ""
  {
    var body := new Body(prior);
    var m := new Modal(body, true);
    m.Unmount();
    after := body.overflow;
  }
}
