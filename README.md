# SlidingMenu — a verified model of the sliding drawer widget

`SlidingMenu` is a horizontal scroll container with two children, a menu panel
on the left and a content panel on the right. Scrolling to offset 0 reveals
the menu (open); scrolling to offset `menuWidth` hides it (closed). The widget
decides on every touch sequence whether the menu should open or close, and on
every scroll tick it recomputes how the panels look.

The model has three modules:

- `Transform` — the offset-to-appearance mapping run on every scroll tick:
  content scale, menu opacity, menu translation and shadow opacity, as exact
  real-valued functions of the offset, with their bounds, monotonicity and
  end points.
- `Gesture` — the open/close state machine as pure transition functions on a
  `MenuState` value (offset, open flag, intercept flag): `closeMenu`,
  `openMenu`, the fling listener, `onInterceptTouchEvent`, `onTouchEvent`, the
  release rule and `onLayout`, plus `Run` over a sequence of inputs and the
  lemmas about whole sequences.
- `Widget` — the class `SlidingMenu`, whose methods update its fields in place
  as the Java methods do. Each touch and menu method (`CloseMenu`,
  `OpenMenu`, `OnFling`, `OnInterceptTouchEvent`, `OnTouchEvent`, `Drag`,
  `OnLayout`) is proved to perform the matching `Gesture` transition on
  `State()`, and keeps the visual values equal to `AppearanceAt` of the
  current offset (`InSync`) once they are. `ScrollTo` stands for the host
  container's `scrollTo` and `smoothScrollTo`: it clamps to the scroll range
  and runs `OnScrollChanged` when the offset changes.

Host pieces are inputs. The scroll container's own answers to
`onInterceptTouchEvent` and `onTouchEvent` are boolean parameters. The gesture
detector's fling is an optional horizontal velocity carried by the touch
event. An animated scroll is represented by the offset it settles at. A host
drag is `Drag`, clamped to `[0, menuWidth]` as the container's scroll range.

Where the source's own comments and its code differ, the model follows the code:

- The comment at `SlidingMenu.java:144` speaks of a click on the content page
  while the menu is open. The code does not look at the action: any event the
  host offers for interception closes an open menu when its x lies beyond
  `menuWidth`.
- The comments at `SlidingMenu.java:24` and `:136` say the menu starts closed.
  The code resets to the closed offset in `onLayout`, which runs on every
  layout pass, and leaves the open flag alone
  (`Gesture.LayoutWhileOpenUnsettles`).
- The comment at `SlidingMenu.java:213` speaks of a translation of `1*0.7`.
  The code at `:214` applies `0.25 * 1`, independent of the offset, and the
  model uses that value (`Transform.MenuTranslationIsStatic`).
- The release threshold compares with the integer quotient `menuWidth / 2`.
  For a positive width this is the same as comparing twice the offset with
  the width, so an offset of exactly half an even width opens the menu
  (`Gesture.HalfWidthThreshold`, `Gesture.ReleaseTieOpens`).

## Model

| member | source | states |
|---|---|---|
| `Transform.Progress` | app/src/main/java/com/darren/view_day08/SlidingMenu.java:197 | the normalised position lies in [0, 1] for offsets in range; it is 0 exactly at offset 0 and 1 exactly at `menuWidth` |
| `Transform.ContentScale` | app/src/main/java/com/darren/view_day08/SlidingMenu.java:199 | the content scale lies in [0.7, 1] for offsets in range |
| `Transform.MenuAlpha` | app/src/main/java/com/darren/view_day08/SlidingMenu.java:210 | the menu opacity lies in [0.3, 1] for offsets in range |
| `Transform.ShadowAlpha` | app/src/main/java/com/darren/view_day08/SlidingMenu.java:217 | the shadow opacity lies in [0, 1] for offsets in range |
| `Transform.AppearanceAt` | app/src/main/java/com/darren/view_day08/SlidingMenu.java:197-218 | the four values of one scroll tick, computed from one offset, each within its bounds |
| `Transform.ProgressMonotone` | app/src/main/java/com/darren/view_day08/SlidingMenu.java:197 | the normalised position grows with the offset, strictly |
| `Transform.AppearanceMonotone` | app/src/main/java/com/darren/view_day08/SlidingMenu.java:197-217 | as the offset grows, the content scale does not decrease, while the menu and shadow opacities do not increase |
| `Transform.MenuTranslationIsStatic` | app/src/main/java/com/darren/view_day08/SlidingMenu.java:214 | the menu translation is 0.25 whatever the offset |
| `Transform.ClosedAppearance` | app/src/main/java/com/darren/view_day08/SlidingMenu.java:197-218 | at offset `menuWidth`: scale 1, menu opacity 0.3, translation 0.25, shadow 0 |
| `Transform.OpenAppearance` | app/src/main/java/com/darren/view_day08/SlidingMenu.java:197-218 | at offset 0: scale 0.7, menu opacity 1, translation 0.25, shadow 1 |
| `Transform.AppearanceCoupling` | app/src/main/java/com/darren/view_day08/SlidingMenu.java:199-217 | menu opacity is `0.3 + 0.7·shadow` and content scale is `1 − 0.3·shadow` at every offset |
| `Gesture.CloseMenu` | app/src/main/java/com/darren/view_day08/SlidingMenu.java:222-226 | the result is settled closed at `menuWidth`; the intercept flag is untouched |
| `Gesture.OpenMenu` | app/src/main/java/com/darren/view_day08/SlidingMenu.java:228-231 | the result is settled open at 0; the intercept flag is untouched |
| `Gesture.OpenCloseIdempotent` | app/src/main/java/com/darren/view_day08/SlidingMenu.java:222-231 | closing twice equals closing once, opening twice equals opening once, and each is a no-op on a state already settled that way |
| `Gesture.OpenCloseRoundTrip` | app/src/main/java/com/darren/view_day08/SlidingMenu.java:222-231 | from a settled state, opening then closing (or closing then opening) gives back the same state |
| `Gesture.Fling` | app/src/main/java/com/darren/view_day08/SlidingMenu.java:61-79 | consumed exactly when open with negative velocity or closed with positive velocity; a consumed fling toggles the open flag and settles; otherwise nothing changes |
| `Gesture.Intercept` | app/src/main/java/com/darren/view_day08/SlidingMenu.java:142-156 | intercepted exactly when open and x > `menuWidth`, and then the state is closed at `menuWidth` with the intercept flag set; otherwise only the intercept flag changes, to false, and the answer is the host's |
| `Gesture.HalfWidthThreshold` | app/src/main/java/com/darren/view_day08/SlidingMenu.java:175 | an offset exceeds the integer half width exactly when twice the offset exceeds the width |
| `Gesture.Release` | app/src/main/java/com/darren/view_day08/SlidingMenu.java:170-182 | a release opens the menu exactly when twice the offset is at most the width, and the result is settled |
| `Gesture.Touch` | app/src/main/java/com/darren/view_day08/SlidingMenu.java:159-186 | an intercepted sequence is consumed with no change; otherwise a fling the listener consumes decides; otherwise a release is consumed and opens the menu exactly when twice the offset is at most the width, settled; any other event is left to the host with no change |
| `Gesture.FlingOverridesRelease` | app/src/main/java/com/darren/view_day08/SlidingMenu.java:165-168 | a consumed fling decides the touch event on its own and toggles the open flag, whatever the offset |
| `Gesture.ReleaseTieOpens` | app/src/main/java/com/darren/view_day08/SlidingMenu.java:175-181 | a plain release at exactly half the width opens the menu at offset 0 |
| `Gesture.Drag` | app/src/main/java/com/darren/view_day08/SlidingMenu.java:185 | the host's default scrolling moves the offset to the target clamped to [0, `menuWidth`] and touches neither flag |
| `Gesture.Layout` | app/src/main/java/com/darren/view_day08/SlidingMenu.java:134-139 | the offset becomes `menuWidth`; both flags are unchanged |
| `Gesture.FirstLayoutSettles` | app/src/main/java/com/darren/view_day08/SlidingMenu.java:134-139 | the first layout of a new widget leaves it settled closed |
| `Gesture.LayoutWhileOpenUnsettles` | app/src/main/java/com/darren/view_day08/SlidingMenu.java:134-139 | a layout pass while open keeps the open flag at offset `menuWidth`, so the state is no longer settled |
| `Gesture.RunStaysInRange` | app/src/main/java/com/darren/view_day08/SlidingMenu.java:142-186 | whatever sequence of inputs arrives, the offset stays in [0, `menuWidth`] |
| `Gesture.RunStaysSettled` | app/src/main/java/com/darren/view_day08/SlidingMenu.java:142-186 | without host drags and layout passes, a settled widget stays settled: offset 0 exactly when open, `menuWidth` exactly when closed |
| `Gesture.InterceptedTouchesAreInert` | app/src/main/java/com/darren/view_day08/SlidingMenu.java:159-163 | once a sequence is intercepted, none of its touch events (flings and releases included) changes the state |
| `Widget.SlidingMenu.constructor` | app/src/main/java/com/darren/view_day08/SlidingMenu.java:49-58 | a new widget is at offset 0, closed and not intercepting, with the views' default appearance |
| `Widget.SlidingMenu.OnFinishInflate` | app/src/main/java/com/darren/view_day08/SlidingMenu.java:90-105 | the child-count check fails exactly when the count is not 2, and then nothing changes; otherwise the menu panel width becomes `menuWidth` (the duplicate add at :125 is not modelled, see below) |
| `Widget.SlidingMenu.OnScrollChanged` | app/src/main/java/com/darren/view_day08/SlidingMenu.java:192-219 | the applied appearance is `AppearanceAt` of the new offset |
| `Widget.SlidingMenu.ScrollTo` | app/src/main/java/com/darren/view_day08/SlidingMenu.java:137 | the host's scroll command: the offset becomes the target clamped to [0, `menuWidth`], the scroll callback runs only when the offset changes, and an appearance in sync with the offset stays in sync |
| `Widget.SlidingMenu.CloseMenu` | app/src/main/java/com/darren/view_day08/SlidingMenu.java:222-226 | the fields change as `Gesture.CloseMenu` says, and the appearance stays in sync with the offset |
| `Widget.SlidingMenu.OpenMenu` | app/src/main/java/com/darren/view_day08/SlidingMenu.java:228-231 | the fields change as `Gesture.OpenMenu` says, and the appearance stays in sync with the offset |
| `Widget.SlidingMenu.OnFling` | app/src/main/java/com/darren/view_day08/SlidingMenu.java:61-79 | the fields and the answer are those of `Gesture.Fling` |
| `Widget.SlidingMenu.OnInterceptTouchEvent` | app/src/main/java/com/darren/view_day08/SlidingMenu.java:142-156 | the fields are those of `Gesture.Intercept`; the answer is true when it intercepts, else the host's |
| `Widget.SlidingMenu.OnTouchEvent` | app/src/main/java/com/darren/view_day08/SlidingMenu.java:159-186 | the fields are those of `Gesture.Touch`; the answer is true when consumed, else the host's |
| `Widget.SlidingMenu.Drag` | app/src/main/java/com/darren/view_day08/SlidingMenu.java:185 | the fields change as `Gesture.Drag` says, and the appearance stays in sync with the offset |
| `Widget.SlidingMenu.OnLayout` | app/src/main/java/com/darren/view_day08/SlidingMenu.java:134-139 | the fields change as `Gesture.Layout` says, the shadow opacity is 0, and from the first layout on the appearance matches the offset |
| `Widget.OpenByFling` | app/src/main/java/com/darren/view_day08/SlidingMenu.java:59-81 | a new widget with two children, laid out and then flung rightwards, ends open at offset 0 with the open appearance |

## Left out

- `TextView.java` only calls the inherited measurement and holds no logic.
- The view rewiring in `onFinishInflate` is not modelled: the content panel is detached, wrapped with a shadow view in a new container, and that container is added twice. Only the child-count check and the menu panel width are kept.
- Widget.SlidingMenu.OnFinishInflate: `Inflated` models the method without the second `addView(contentContainer)` at `SlidingMenu.java:125`. As written, the source adds a view that already has a parent, which the host rejects with an exception after the menu width is set, so with two children it never finishes inflating either.
- The content wrapper's width (the screen width) is not modelled.
- Screen metrics and styled attributes are host calls. `menuWidth` is a constructor parameter, already truncated to an integer.
- `Widget.SlidingMenu.constructor` requires `menuWidth > 0`. The source never checks this and would divide by zero on every scroll tick.
- The gesture detector's classification of raw touch streams into flings is host behaviour. A fling arrives as a velocity on the event. Its non-fling callbacks all answer false, so they are folded into "no fling". The host reports flings only on a release; the model lets any touch event carry a fling velocity, which admits more inputs than the host produces and changes none of the proved properties for releases.
- The host container's own touch handling is represented by its answers (boolean parameters) and by `Drag`. Its scrolling while dragging is not otherwise modelled.
- Animation frames of the smooth scroll are not modelled. Only the settled offset and the appearance at that offset are.
- Pivot placement and the debug log in the scroll callback are not modelled. They do not affect the computed values.
- Single-precision float rounding is not modelled. The mapping is stated over exact reals, and velocities and touch coordinates are reals, NaN excluded.
- The lifecycle order (inflate, then lay out, then touch) is assumed, not enforced. The source would fail on a null view if the order were broken.
