/**
 * The sliding menu widget as an object: a horizontal scroll container with
 * two children (menu panel and content panel) whose fields the touch
 * callbacks update in place. Each method mirrors one method of the widget
 * and is proved to perform the matching transition of module Gesture.
 */
module Widget {
  import opened Gesture
  import opened Transform

  /** How inflation of the layout declaration ends. */
  datatype Inflation = Inflated | WrongChildCount(found: int)

  /** The views' own defaults, before any scroll callback has run. */
  const DefaultLook := Appearance(1.0, 1.0, 0.0, 1.0)

  class SlidingMenu {
    /** Width of the menu panel: screen width minus the configured right margin. */
    const menuWidth: int
    /** Horizontal scroll offset of the container. */
    var scrollX: int
    var menuIsOpen: bool
    var isIntercepting: bool
    /** Layout width of the menu panel (child 0). */
    var menuPanelWidth: int
    /** The visual values last applied to the panels and the shadow overlay. */
    var look: Appearance

    ghost predicate Valid()
      reads this
    {
      menuWidth > 0 && 0 <= scrollX <= menuWidth
    }

    /** The gesture-relevant part of the fields, as a value. */
    function State(): MenuState
      reads this
    {
      MenuState(scrollX, menuIsOpen, isIntercepting)
    }

    /** Every visual value is the one the current offset calls for. */
    ghost predicate InSync()
      reads this
      requires Valid()
    {
      look == AppearanceAt(scrollX, menuWidth)
    }

    /**
     * A new widget: offset 0, menu closed, no interception; the menu panel
     * keeps the width its layout declaration gave it until inflation.
     */
    constructor (menuWidth: int, declaredMenuPanelWidth: int)
      requires menuWidth > 0
      ensures Valid() && this.menuWidth == menuWidth
      ensures State() == Initial
      ensures menuPanelWidth == declaredMenuPanelWidth && look == DefaultLook
    {
      this.menuWidth := menuWidth;
      scrollX := 0;
      menuIsOpen := false;
      isIntercepting := false;
      menuPanelWidth := declaredMenuPanelWidth;
      look := DefaultLook;
    }

    /**
     * onFinishInflate: the inner container must hold exactly two children;
     * then the menu panel is given the menu width.
     */
    method OnFinishInflate(childCount: int) returns (r: Inflation)
      requires Valid()
      modifies this`menuPanelWidth
      ensures Valid()
      ensures r == Inflated <==> childCount == 2
      ensures r == WrongChildCount(childCount) <==> childCount != 2
      ensures menuPanelWidth == if childCount == 2 then menuWidth else old(menuPanelWidth)
    {
      if childCount != 2 {
        return WrongChildCount(childCount);
      }
      menuPanelWidth := menuWidth;
      r := Inflated;
    }

    /** onScrollChanged: recompute all visual values from the new offset. */
    method OnScrollChanged(l: int)
      requires Valid()
      modifies this`look
      ensures look == AppearanceAt(l, menuWidth)
    {
      var scale := ContentScale(l, menuWidth);
      var alpha := MenuAlpha(l, menuWidth);
      var translation := MenuTranslationX(l, menuWidth);
      var shadow := ShadowAlpha(l, menuWidth);
      look := Appearance(scale, alpha, translation, shadow);
    }

    /**
     * The host's scrollTo: clamps to the scroll range [0, menuWidth] and runs
     * the scroll callback when the offset actually changes. An animated
     * scroll is represented by the offset it settles at.
     */
    method ScrollTo(x: int)
      requires Valid()
      modifies this`scrollX, this`look
      ensures Valid() && scrollX == Clamp(x, menuWidth)
      ensures look == if scrollX != old(scrollX) then AppearanceAt(scrollX, menuWidth) else old(look)
      ensures old(InSync()) ==> InSync()
    {
      var target := Clamp(x, menuWidth);
      if target != scrollX {
        scrollX := target;
        OnScrollChanged(target);
      }
    }

    /** closeMenu: scroll to the closed offset and clear the open flag. */
    method CloseMenu()
      requires Valid()
      modifies this`scrollX, this`look, this`menuIsOpen
      ensures Valid() && State() == Gesture.CloseMenu(old(State()), menuWidth)
      ensures old(InSync()) ==> InSync()
    {
      ScrollTo(menuWidth);
      menuIsOpen := false;
    }

    /** openMenu: scroll to offset 0 and set the open flag. */
    method OpenMenu()
      requires Valid()
      modifies this`scrollX, this`look, this`menuIsOpen
      ensures Valid() && State() == Gesture.OpenMenu(old(State()), menuWidth)
      ensures old(InSync()) ==> InSync()
    {
      ScrollTo(0);
      menuIsOpen := true;
    }

    /** The fling listener; false stands for the default listener's answer. */
    method OnFling(velocityX: real) returns (consumed: bool)
      requires Valid()
      modifies this`scrollX, this`look, this`menuIsOpen
      ensures Valid()
      ensures State() == Fling(old(State()), menuWidth, velocityX).next
      ensures consumed <==> Fling(old(State()), menuWidth, velocityX).verdict == Consumed
      ensures old(InSync()) ==> InSync()
    {
      if menuIsOpen {
        if velocityX < 0.0 {
          CloseMenu();
          return true;
        }
      } else {
        if velocityX > 0.0 {
          OpenMenu();
          return true;
        }
      }
      consumed := false;
    }

    /**
     * onInterceptTouchEvent; `hostIntercepts` is the scroll container's own
     * answer, returned when the widget does not intercept.
     */
    method OnInterceptTouchEvent(x: real, hostIntercepts: bool) returns (intercepted: bool)
      requires Valid()
      modifies this`scrollX, this`look, this`menuIsOpen, this`isIntercepting
      ensures Valid()
      ensures State() == Intercept(old(State()), menuWidth, x).next
      ensures intercepted ==
        (Intercept(old(State()), menuWidth, x).verdict == Consumed || hostIntercepts)
      ensures old(InSync()) ==> InSync()
    {
      isIntercepting := false;
      if menuIsOpen {
        if x > menuWidth as real {
          CloseMenu();
          isIntercepting := true;
          return true;
        }
      }
      intercepted := hostIntercepts;
    }

    /**
     * onTouchEvent; `hostHandles` is the scroll container's own answer,
     * returned when the widget leaves the event to it.
     */
    method OnTouchEvent(ev: TouchEvent, hostHandles: bool) returns (handled: bool)
      requires Valid()
      modifies this`scrollX, this`look, this`menuIsOpen
      ensures Valid()
      ensures State() == Touch(old(State()), menuWidth, ev).next
      ensures handled == (Touch(old(State()), menuWidth, ev).verdict == Consumed || hostHandles)
      ensures old(InSync()) ==> InSync()
    {
      if isIntercepting {
        return true;
      }
      var flung := false;
      if ev.fling.Some? {
        flung := OnFling(ev.fling.value);
      }
      if flung {
        return true;
      }
      if ev.action == Up {
        if scrollX > menuWidth / 2 {
          CloseMenu();
        } else {
          OpenMenu();
        }
        return true;
      }
      handled := hostHandles;
    }

    /** A drag performed by the host's default touch handling. */
    method Drag(to: int)
      requires Valid()
      modifies this`scrollX, this`look
      ensures Valid() && State() == Gesture.Drag(old(State()), menuWidth, to)
      ensures old(InSync()) ==> InSync()
    {
      ScrollTo(to);
    }

    /**
     * onLayout: jump to the closed offset and hide the shadow. From the first
     * layout on, every visual value matches the offset.
     */
    method OnLayout()
      requires Valid()
      modifies this`scrollX, this`look
      ensures Valid() && State() == Layout(old(State()), menuWidth)
      ensures look.shadowAlpha == 0.0
      ensures old(scrollX) != menuWidth || old(InSync()) ==> InSync()
    {
      ScrollTo(menuWidth);
      look := look.(shadowAlpha := 0.0);
    }
  }

  /**
   * A widget's life from creation: inflation with two children, the first
   * layout (closed, in sync), a touch on the content area that is not
   * intercepted, and a rightward fling that opens the menu.
   */
  method OpenByFling(menuWidth: int, velocityX: real) returns (w: SlidingMenu)
    requires menuWidth > 0 && velocityX > 0.0
    ensures w.Valid() && w.InSync()
    ensures w.menuIsOpen && w.scrollX == 0 && w.menuPanelWidth == menuWidth
    ensures w.look == Appearance(0.7, 1.0, 0.25, 1.0)
  {
    w := new SlidingMenu(menuWidth, -1);
    var inflated := w.OnFinishInflate(2);
    w.OnLayout();
    ClosedAppearance(menuWidth);
    var intercepted := w.OnInterceptTouchEvent(menuWidth as real + 1.0, false);
    assert !intercepted;
    var handled := w.OnTouchEvent(TouchEvent(Up, menuWidth as real + 1.0, Some(velocityX)), false);
    assert handled;
    OpenAppearance(menuWidth);
  }
}
