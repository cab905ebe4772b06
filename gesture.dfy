/**
 * The open/close gesture state machine of the sliding menu, as pure
 * transition functions on a value of the widget's mutable state.
 *
 * The widget is a horizontal scroll container whose scroll offset runs from
 * 0 (menu open) to `menuWidth` (menu closed). Host pieces are inputs: the
 * host's own answer to an event is a boolean parameter, the fling detector's
 * verdict is an optional horizontal velocity carried by the event, and an
 * animated scroll is represented by the offset it settles at.
 *
 * `menuWidth` is fixed for the widget's lifetime and positive; it is passed
 * to every function rather than stored in the state.
 */
module Gesture {

  datatype Option<T> = None | Some(value: T)

  /** The fields the gesture code updates: offset, open flag, intercept flag. */
  datatype MenuState = MenuState(scrollX: int, menuIsOpen: bool, isIntercepting: bool)

  /** Consumed: the widget answers true itself. Deferred: the host's answer is used. */
  datatype Verdict = Consumed | Deferred

  datatype Reaction = Reaction(next: MenuState, verdict: Verdict)

  datatype Action = Down | Move | Up | Cancel

  /** A touch event; `fling` is the horizontal velocity when the detector saw a fling. */
  datatype TouchEvent = TouchEvent(action: Action, x: real, fling: Option<real>)

  /** The state before the first layout: offset 0, closed, not intercepting. */
  const Initial := MenuState(0, false, false)

  /** The offset lies in the scroll range the host allows. */
  predicate InRange(s: MenuState, menuWidth: int)
  {
    0 <= s.scrollX <= menuWidth
  }

  /** The offset is where the open flag says the menu rests: 0 open, menuWidth closed. */
  predicate Settled(s: MenuState, menuWidth: int)
  {
    s.scrollX == if s.menuIsOpen then 0 else menuWidth
  }

  /** The host's scrollTo keeps the offset within [0, menuWidth]. */
  function Clamp(x: int, menuWidth: int): (r: int)
    requires menuWidth >= 0
    ensures 0 <= r <= menuWidth
    ensures 0 <= x <= menuWidth ==> r == x
    ensures x < 0 ==> r == 0
    ensures x > menuWidth ==> r == menuWidth
  {
    if x < 0 then 0 else if x > menuWidth then menuWidth else x
  }

  /** closeMenu: settle at the closed offset, clear the open flag. */
  function CloseMenu(s: MenuState, menuWidth: int): (r: MenuState)
    requires menuWidth > 0
    ensures Settled(r, menuWidth) && InRange(r, menuWidth) && !r.menuIsOpen
    ensures r.isIntercepting == s.isIntercepting
  {
    s.(scrollX := menuWidth, menuIsOpen := false)
  }

  /** openMenu: settle at offset 0, set the open flag. */
  function OpenMenu(s: MenuState, menuWidth: int): (r: MenuState)
    requires menuWidth > 0
    ensures Settled(r, menuWidth) && InRange(r, menuWidth) && r.menuIsOpen
    ensures r.isIntercepting == s.isIntercepting
  {
    s.(scrollX := 0, menuIsOpen := true)
  }

  /**
   * onFling: a leftward fling closes an open menu, a rightward fling opens a
   * closed one; anything else (velocity 0 included) is left to the host's
   * default listener, which does not consume it.
   */
  function Fling(s: MenuState, menuWidth: int, velocityX: real): (r: Reaction)
    requires menuWidth > 0
    ensures r.verdict == Consumed <==>
      (s.menuIsOpen && velocityX < 0.0) || (!s.menuIsOpen && velocityX > 0.0)
    ensures r.verdict == Consumed ==>
      r.next.menuIsOpen == !s.menuIsOpen && Settled(r.next, menuWidth) &&
      r.next.isIntercepting == s.isIntercepting
    ensures r.verdict == Deferred ==> r.next == s
  {
    if s.menuIsOpen then
      if velocityX < 0.0 then Reaction(CloseMenu(s, menuWidth), Consumed)
      else Reaction(s, Deferred)
    else
      if velocityX > 0.0 then Reaction(OpenMenu(s, menuWidth), Consumed)
      else Reaction(s, Deferred)
  }

  /**
   * onInterceptTouchEvent: the intercept flag is cleared first; a touch over
   * the content area (x beyond the menu width) while the menu is open closes
   * the menu, sets the intercept flag and is intercepted.
   */
  function Intercept(s: MenuState, menuWidth: int, x: real): (r: Reaction)
    requires menuWidth > 0
    ensures r.verdict == Consumed <==> s.menuIsOpen && x > menuWidth as real
    ensures r.verdict == Consumed ==>
      r.next == MenuState(menuWidth, false, true) && Settled(r.next, menuWidth)
    ensures r.verdict == Deferred ==> r.next == s.(isIntercepting := false)
  {
    var cleared := s.(isIntercepting := false);
    if cleared.menuIsOpen && x > menuWidth as real then
      Reaction(CloseMenu(cleared, menuWidth).(isIntercepting := true), Consumed)
    else
      Reaction(cleared, Deferred)
  }

  /**
   * The release rule: past half the menu width the menu closes, otherwise it
   * opens. The source compares against the integer quotient menuWidth / 2;
   * for a positive width Java's truncating division and Dafny's agree.
   */
  function Release(s: MenuState, menuWidth: int): (r: MenuState)
    requires menuWidth > 0
    ensures r.menuIsOpen <==> 2 * s.scrollX <= menuWidth
    ensures Settled(r, menuWidth) && r.isIntercepting == s.isIntercepting
  {
    HalfWidthThreshold(s.scrollX, menuWidth);
    if s.scrollX > menuWidth / 2 then CloseMenu(s, menuWidth) else OpenMenu(s, menuWidth)
  }

  /** Comparing with the integer half width is comparing with the exact midpoint. */
  lemma HalfWidthThreshold(x: int, menuWidth: int)
    requires menuWidth > 0
    ensures x > menuWidth / 2 <==> 2 * x > menuWidth
  {
  }

  /** The event carries a fling and the fling listener consumes it. */
  predicate FlingConsumes(s: MenuState, menuWidth: int, ev: TouchEvent)
    requires menuWidth > 0
  {
    ev.fling.Some? && Fling(s, menuWidth, ev.fling.value).verdict == Consumed
  }

  /**
   * onTouchEvent, in priority order: an intercepted sequence is swallowed;
   * a fling the listener consumes ends the event; a release settles by
   * position; anything else is left to the host.
   */
  function Touch(s: MenuState, menuWidth: int, ev: TouchEvent): (r: Reaction)
    requires menuWidth > 0
    ensures s.isIntercepting ==> r == Reaction(s, Consumed)
    ensures ev.action == Up ==> r.verdict == Consumed
    ensures r.verdict == Consumed && !s.isIntercepting ==>
      Settled(r.next, menuWidth) && !r.next.isIntercepting
    ensures r.verdict == Deferred ==> r.next == s
    ensures !s.isIntercepting && FlingConsumes(s, menuWidth, ev) ==>
      r == Fling(s, menuWidth, ev.fling.value)
    ensures !s.isIntercepting && !FlingConsumes(s, menuWidth, ev) && ev.action == Up ==>
      r.verdict == Consumed && Settled(r.next, menuWidth) &&
      (r.next.menuIsOpen <==> 2 * s.scrollX <= menuWidth)
    ensures !s.isIntercepting && !FlingConsumes(s, menuWidth, ev) && ev.action != Up ==>
      r == Reaction(s, Deferred)
  {
    if s.isIntercepting then Reaction(s, Consumed)
    else
      var flung := if ev.fling.Some? then Fling(s, menuWidth, ev.fling.value) else Reaction(s, Deferred);
      if flung.verdict == Consumed then flung
      else if ev.action == Up then Reaction(Release(s, menuWidth), Consumed)
      else Reaction(s, Deferred)
  }

  /** A drag by the host moves the offset within the scroll range. */
  function Drag(s: MenuState, menuWidth: int, to: int): (r: MenuState)
    requires menuWidth > 0
    ensures InRange(r, menuWidth) && r.scrollX == Clamp(to, menuWidth)
    ensures r.menuIsOpen == s.menuIsOpen && r.isIntercepting == s.isIntercepting
  {
    s.(scrollX := Clamp(to, menuWidth))
  }

  /** onLayout: jump to the closed offset; the open flag is not touched. */
  function Layout(s: MenuState, menuWidth: int): (r: MenuState)
    requires menuWidth > 0
    ensures r.scrollX == menuWidth && InRange(r, menuWidth)
    ensures r.menuIsOpen == s.menuIsOpen && r.isIntercepting == s.isIntercepting
  {
    s.(scrollX := menuWidth)
  }

  /** One input the widget receives from its host. */
  datatype Input =
    | InterceptInput(x: real)
    | TouchInput(ev: TouchEvent)
    | DragInput(to: int)
    | LayoutInput

  function Step(s: MenuState, menuWidth: int, i: Input): MenuState
    requires menuWidth > 0
  {
    match i
    case InterceptInput(x) => Intercept(s, menuWidth, x).next
    case TouchInput(ev) => Touch(s, menuWidth, ev).next
    case DragInput(to) => Drag(s, menuWidth, to)
    case LayoutInput => Layout(s, menuWidth)
  }

  /** The state after the inputs, delivered one at a time in order. */
  function Run(s: MenuState, menuWidth: int, inputs: seq<Input>): MenuState
    requires menuWidth > 0
    decreases |inputs|
  {
    if inputs == [] then s else Run(Step(s, menuWidth, inputs[0]), menuWidth, inputs[1..])
  }

  /** Inputs that are neither host drags nor layout passes. */
  predicate NoDragOrLayout(inputs: seq<Input>)
  {
    forall k :: 0 <= k < |inputs| ==> inputs[k].InterceptInput? || inputs[k].TouchInput?
  }

  /** Whatever arrives, the offset stays within [0, menuWidth]. */
  lemma {:induction false} RunStaysInRange(s: MenuState, menuWidth: int, inputs: seq<Input>)
    requires menuWidth > 0 && InRange(s, menuWidth)
    ensures InRange(Run(s, menuWidth, inputs), menuWidth)
    decreases |inputs|
  {
    if inputs != [] {
      RunStaysInRange(Step(s, menuWidth, inputs[0]), menuWidth, inputs[1..]);
    }
  }

  /**
   * Without host drags and layout passes the widget never leaves a settled
   * state: every intercept, fling and release lands on 0 when open and on
   * menuWidth when closed, and everything else leaves the offset alone.
   */
  lemma {:induction false} RunStaysSettled(s: MenuState, menuWidth: int, inputs: seq<Input>)
    requires menuWidth > 0 && Settled(s, menuWidth) && NoDragOrLayout(inputs)
    ensures Settled(Run(s, menuWidth, inputs), menuWidth)
    decreases |inputs|
  {
    if inputs != [] {
      var next := Step(s, menuWidth, inputs[0]);
      assert Settled(next, menuWidth) by {
        assert inputs[0].InterceptInput? || inputs[0].TouchInput?;
      }
      assert NoDragOrLayout(inputs[1..]) by {
        forall k | 0 <= k < |inputs[1..]|
          ensures inputs[1..][k].InterceptInput? || inputs[1..][k].TouchInput?
        {
          assert inputs[1..][k] == inputs[k + 1];
        }
      }
      RunStaysSettled(next, menuWidth, inputs[1..]);
    }
  }

  /** Touch events only; intercepts, drags and layouts are absent. */
  predicate OnlyTouches(inputs: seq<Input>)
  {
    forall k :: 0 <= k < |inputs| ==> inputs[k].TouchInput?
  }

  /**
   * Once a sequence is intercepted, no further touch event of it moves the
   * menu or changes its flags, flings and releases included.
   */
  lemma {:induction false} InterceptedTouchesAreInert(s: MenuState, menuWidth: int, inputs: seq<Input>)
    requires menuWidth > 0 && s.isIntercepting && OnlyTouches(inputs)
    ensures Run(s, menuWidth, inputs) == s
    decreases |inputs|
  {
    if inputs != [] {
      assert inputs[0].TouchInput?;
      assert OnlyTouches(inputs[1..]) by {
        forall k | 0 <= k < |inputs[1..]| ensures inputs[1..][k].TouchInput? {
          assert inputs[1..][k] == inputs[k + 1];
        }
      }
      InterceptedTouchesAreInert(s, menuWidth, inputs[1..]);
    }
  }

  /** Closing twice is closing once; opening twice is opening once. */
  lemma OpenCloseIdempotent(s: MenuState, menuWidth: int)
    requires menuWidth > 0
    ensures CloseMenu(CloseMenu(s, menuWidth), menuWidth) == CloseMenu(s, menuWidth)
    ensures OpenMenu(OpenMenu(s, menuWidth), menuWidth) == OpenMenu(s, menuWidth)
    ensures Settled(s, menuWidth) && !s.menuIsOpen ==> CloseMenu(s, menuWidth) == s
    ensures Settled(s, menuWidth) && s.menuIsOpen ==> OpenMenu(s, menuWidth) == s
  {
  }

  /** Opening then closing (or closing then opening) restores a settled state. */
  lemma OpenCloseRoundTrip(s: MenuState, menuWidth: int)
    requires menuWidth > 0 && Settled(s, menuWidth)
    ensures !s.menuIsOpen ==> CloseMenu(OpenMenu(s, menuWidth), menuWidth) == s
    ensures s.menuIsOpen ==> OpenMenu(CloseMenu(s, menuWidth), menuWidth) == s
  {
  }

  /**
   * A fling the listener consumes decides the outcome on its own: the
   * release rule is skipped, whatever the offset.
   */
  lemma FlingOverridesRelease(s: MenuState, menuWidth: int, ev: TouchEvent)
    requires menuWidth > 0 && !s.isIntercepting
    requires ev.fling.Some? && Fling(s, menuWidth, ev.fling.value).verdict == Consumed
    ensures Touch(s, menuWidth, ev) == Fling(s, menuWidth, ev.fling.value)
    ensures Touch(s, menuWidth, ev).next.menuIsOpen == !s.menuIsOpen
  {
  }

  /** A release exactly at half the width (an even width) opens the menu. */
  lemma ReleaseTieOpens(s: MenuState, menuWidth: int)
    requires menuWidth > 0 && !s.isIntercepting && 2 * s.scrollX == menuWidth
    ensures Touch(s, menuWidth, TouchEvent(Up, 0.0, None)).next.menuIsOpen
    ensures Touch(s, menuWidth, TouchEvent(Up, 0.0, None)).next.scrollX == 0
  {
  }

  /** The first layout pass settles the widget closed. */
  lemma FirstLayoutSettles(menuWidth: int)
    requires menuWidth > 0
    ensures Layout(Initial, menuWidth) == MenuState(menuWidth, false, false)
    ensures Settled(Layout(Initial, menuWidth), menuWidth)
  {
  }

  /**
   * A layout pass while the menu is open moves the offset to the closed
   * position but keeps the open flag, so the state is no longer settled.
   */
  lemma LayoutWhileOpenUnsettles(s: MenuState, menuWidth: int)
    requires menuWidth > 0 && s.menuIsOpen
    ensures Layout(s, menuWidth).menuIsOpen
    ensures !Settled(Layout(s, menuWidth), menuWidth)
  {
  }
}
