# Android widget logic, modelled in Dafny

This project models the deterministic logic of two Android widgets from the
`cn.ltaoj.widget` package. It leaves out their drawing and touch plumbing.

- **FacePreview** is a camera overlay. It draws a targeting rectangle, a moving
  scan oval and a tip text. A small state machine (READY, DETECTING, PAUSE,
  COMPLETE) reports detection progress to a listener. The model covers:
  - how the rectangle is sized and centred from a configuration and the device
    metrics (screen size and density);
  - the configuration applier;
  - the explicit state request `setPreviewState`;
  - the step `updatePreviewState`, which is driven by whether the scan animator
    is running;
  - the state effects of the surface's create and destroy callbacks;
  - the linear geometry of the scan oval.
- **SwipeLayout** is a swipe-to-reveal row. Dragging the front panel left
  uncovers a back panel of width `range`. The model covers:
  - the two drag clamps;
  - the classification of the front panel's position into OPEN, CLOSE or SWIPING;
  - the listener events sent on each position change;
  - the open and closed layout rectangles;
  - how the other panel follows a drag;
  - the decision taken when the drag is released.

Files:

- `wrappers.dfy` (module `Wrappers`) holds `Option`. `None` stands for a Java `null`.
- `face_preview.dfy` (module `FacePreviewModel`) holds the geometry and
  state-machine functions, the lemmas about them, and class `FacePreview`. The
  class has the widget's mutable fields and an event log. Each callback is
  logged as the listener that received it plus the callback's name.
- `swipe_layout.dfy` (module `SwipeLayoutModel`) holds the clamps, the
  classification, the layout and event functions, their lemmas, and class
  `SwipeLayout`. The class has the two panel rectangles, the swipe state and an
  event log.

Each class method is specified against the pure functions beside it. The
properties are proved about those functions. Rectangles in FacePreview are
exact `real`s. SwipeLayout positions are `int`s. Java's truncating integer
division is written out in `JavaDiv`.

Notes on what the code does:

- State changes happen directly in the calling method. There is no queue
  between a request and the state it changes.
- Destroying the surface moves DETECTING to PAUSE. Only an explicit
  `setPreviewState(COMPLETE)` enters COMPLETE.
- `applyConfig` takes effect immediately in the fields it assigns.
- `setPreviewState` calls the listener without a null check. With no listener
  set, the state has already changed when the call fails. The model returns
  this failure as `thrown`.
- The constructor's rectangle is the default 240·density square.
  `initPreview` applies the default configuration after `initAttrs`, so the
  size read from layout attributes is overwritten.
- The scan animator keeps the geometry it captured at creation. A later
  `applyConfig` moves the rectangle but not the animator's oval or range.
- `layoutInit` (the non-animated open and close) moves the panels but does not
  update the swipe state and fires no event. The next dispatch compares against
  the stale state.

## Model

| member | source | states |
|---|---|---|
| `FacePreviewModel.ResolveExtent` | widget/src/main/java/cn/ltaoj/widget/FacePreview.java:321-332 | A request <= 0 gives 240·density. Any other request gives the smaller of request·density and 0.6 of the screen extent. |
| `FacePreviewModel.CenteredRect` | widget/src/main/java/cn/ltaoj/widget/FacePreview.java:301-306 | left+right is the screen width and right-left is w. top+bottom is the screen height and bottom-top is h. So the rectangle is centred with the given size. |
| `FacePreviewModel.ApplyTo` | widget/src/main/java/cn/ltaoj/widget/FacePreview.java:320-342 | Applying a config recomputes the rectangle from it and copies its tip text and visibility. It records the index. It replaces the listener only when the config has one, and otherwise keeps the old listener. |
| `FacePreviewModel.ConfigRectFitsScreen` | widget/src/main/java/cn/ltaoj/widget/FacePreview.java:321-333 | For positive requested sizes, density and screen sizes, the rectangle is centred and non-empty. It is at most 0.6 of the screen in each direction and lies inside the screen. |
| `FacePreviewModel.DefaultRequestRect` | widget/src/main/java/cn/ltaoj/widget/FacePreview.java:321-333 | A request <= 0 in both directions gives the centred square of side 240·density, with no 0.6 cap. It lies inside the screen in a direction exactly when 240·density fits the screen there. |
| `FacePreviewModel.DefaultRequestUncappedScenario` | widget/src/main/java/cn/ltaoj/widget/FacePreview.java:321-333 | At density 3 on 1080x1920 the default square is 720 wide, above the 648 a positive request can get. At density 2 on 400x800 it is 480 wide and its left edge is at -40. |
| `FacePreviewModel.DefaultRectScenario` | widget/src/main/java/cn/ltaoj/widget/FacePreview.java:261-262 | The default (0,0) config on a 1080x1920 screen at density 1 gives (420,840)-(660,1080). |
| `FacePreviewModel.WideRequestScenario` | widget/src/main/java/cn/ltaoj/widget/FacePreview.java:325 | On that screen a requested width of 2000 is cut to 648, and the rectangle is re-centred. |
| `FacePreviewModel.ScanGeometryOf` | widget/src/main/java/cn/ltaoj/widget/FacePreview.java:404-409 | The oval is centred horizontally on the rectangle and narrower by one corner length (25 px each side). The centre's travel is centred vertically and shorter than the rectangle by 2·5 px. |
| `FacePreviewModel.OvalAt` | widget/src/main/java/cn/ltaoj/widget/FacePreview.java:418-420 | The frame's oval keeps the captured horizontal extent. It is centred on the animated centerY and is 2·5 px high. |
| `FacePreviewModel.OvalInsideRect` | widget/src/main/java/cn/ltaoj/widget/FacePreview.java:404-420 | While centerY stays in the animated range, the oval stays inside the rectangle vertically. It also stays inside horizontally when the rectangle is at least 50 px wide. The range is non-empty only when the rectangle is at least 10 px tall. |
| `FacePreviewModel.ShortRectScenario` | widget/src/main/java/cn/ltaoj/widget/FacePreview.java:404-420 | For a 6 px tall rectangle the animated range runs from 5 down to 1, and the oval at centre 3 has its top above the rectangle. |
| `FacePreviewModel.EventFor` | widget/src/main/java/cn/ltaoj/widget/FacePreview.java:562-575 | Each state has its own listener callback, one to one. |
| `FacePreviewModel.Notify` | widget/src/main/java/cn/ltaoj/widget/FacePreview.java:589-598 | A callback is logged exactly when both a listener and an event are present, and it goes to that listener. |
| `FacePreviewModel.Fired` | widget/src/main/java/cn/ltaoj/widget/FacePreview.java:559-577 | A request fires an event exactly when it changes the state. The event is the callback that matches the target state. |
| `FacePreviewModel.UpdatedState` | widget/src/main/java/cn/ltaoj/widget/FacePreview.java:583-601 | The state changes exactly when the animator is running from READY or PAUSE, or stopped from DETECTING. The new state is then DETECTING or PAUSE respectively. |
| `FacePreviewModel.UpdateEvent` | widget/src/main/java/cn/ltaoj/widget/FacePreview.java:583-601 | The step fires an event exactly when it changes the state. The event is onDetecting or onPause, matching the new state. |
| `FacePreviewModel.UpdateIdempotent` | widget/src/main/java/cn/ltaoj/widget/FacePreview.java:583-601 | Repeating the step with the same flag leaves the state alone and fires nothing. |
| `FacePreviewModel.UpdateIsRequestForTarget` | widget/src/main/java/cn/ltaoj/widget/FacePreview.java:559-601 | The animator-driven step fires the same event as an explicit request for its own target state. |
| `FacePreviewModel.TraceAlternates` | widget/src/main/java/cn/ltaoj/widget/FacePreview.java:583-601 | Over any sequence of steps, the listener hears only onDetecting and onPause, never the same one twice in a row. The first event is never the one for the current state. The last is the one for the final state. From COMPLETE nothing is heard. |
| `FacePreviewModel.StartPauseResumeScenario` | widget/src/main/java/cn/ltaoj/widget/FacePreview.java:583-601 | Running, then stopped, then running again, starting from READY, yields onDetecting, onPause, onDetecting. |
| `FacePreviewModel.FacePreview.constructor` | widget/src/main/java/cn/ltaoj/widget/FacePreview.java:258-299 | One default config is applied: a 240·density centred square, the default tip shown, no listener. The state is READY, with no thread or animator and an empty log. |
| `FacePreviewModel.FacePreview.ApplyConfig` | widget/src/main/java/cn/ltaoj/widget/FacePreview.java:315-344 | With an index in range, the overlay becomes ApplyTo of the old overlay and that config. With an index out of range, nothing changes. No other field is touched. |
| `FacePreviewModel.FacePreview.SetPreviewConfigs` | widget/src/main/java/cn/ltaoj/widget/FacePreview.java:308-313 | A non-empty list replaces the configs and config 0 is applied, so afterwards the rectangle and tip text are those of the current config. A null or empty list changes nothing. |
| `FacePreviewModel.FacePreview.SetChangeListener` | widget/src/main/java/cn/ltaoj/widget/FacePreview.java:555-557 | The listener becomes the given one. |
| `FacePreviewModel.FacePreview.SetPreviewState` | widget/src/main/java/cn/ltaoj/widget/FacePreview.java:559-577 | The state becomes the target. The log grows by exactly the matching callback when the state changed and a listener is set. The call fails exactly when the state changed and no listener is set. |
| `FacePreviewModel.FacePreview.UpdatePreviewState` | widget/src/main/java/cn/ltaoj/widget/FacePreview.java:583-601 | The state becomes UpdatedState of the old state and the animator flag. The log grows by UpdateEvent, and only when a listener is set. |
| `FacePreviewModel.FacePreview.SurfaceCreated` | widget/src/main/java/cn/ltaoj/widget/FacePreview.java:347-361 | A draw thread exists afterwards. With no animator, one is captured from the current rectangle and marked running, and the animator-driven step is taken. With an animator, the state, log and animator are unchanged. With the invariant, the new animator's geometry is that of the current config's rectangle. |
| `FacePreviewModel.FacePreview.SurfaceDestroyed` | widget/src/main/java/cn/ltaoj/widget/FacePreview.java:385-398 | The thread and animator are dropped and the flag is cleared. The stopped-animator step is taken, so DETECTING becomes PAUSE. |
| `FacePreviewModel.FacePreview.ScanOval` | widget/src/main/java/cn/ltaoj/widget/FacePreview.java:415-420 | A frame has an oval exactly when an animator exists. The oval uses the animator's captured horizontal extent and is centred on centerY. |
| `SwipeLayoutModel.ClampFrontLeft` | widget/src/main/java/cn/ltaoj/widget/SwipeLayout.java:150-157 | For range >= 0 the result lies in [-range, 0]. Values already in range are returned unchanged, and values outside move to the nearer end. |
| `SwipeLayoutModel.ClampBackLeft` | widget/src/main/java/cn/ltaoj/widget/SwipeLayout.java:159-166 | For range >= 0 the result lies in [width-range, width]. Values already in range are returned unchanged, and values outside move to the nearer end. |
| `SwipeLayoutModel.ClampHorizontal` | widget/src/main/java/cn/ltaoj/widget/SwipeLayout.java:120-127 | The front panel uses the front clamp and the back panel the back clamp. Any other child is not clamped. |
| `SwipeLayoutModel.FrontRect` | widget/src/main/java/cn/ltaoj/widget/SwipeLayout.java:244-254 | left is -range when open and 0 when closed. The width is the layout width and the vertical extent is [0, height]. |
| `SwipeLayoutModel.BackRect` | widget/src/main/java/cn/ltaoj/widget/SwipeLayout.java:256-258 | The back panel starts at front.right with the front's top and bottom, and is range wide. |
| `SwipeLayoutModel.StateOf` | widget/src/main/java/cn/ltaoj/widget/SwipeLayout.java:314-321 | The result is OPEN exactly when left == -range, CLOSE exactly when left == 0 and range != 0, and SWIPING otherwise. So OPEN wins when range is 0. |
| `SwipeLayoutModel.LayoutPositions` | widget/src/main/java/cn/ltaoj/widget/SwipeLayout.java:232-258 | The open and closed layouts put the panels side by side. They classify as OPEN and as CLOSE respectively, and as OPEN when range is 0. |
| `SwipeLayoutModel.OffsetKeepsAbutting` | widget/src/main/java/cn/ltaoj/widget/SwipeLayout.java:81-86 | Moving both panels by the same dx keeps back.left == front.right. |
| `SwipeLayoutModel.EdgeEvent` | widget/src/main/java/cn/ltaoj/widget/SwipeLayout.java:300-310 | An edge event occurs exactly when the state changed. It is onClose on reaching CLOSE and onOpen on reaching OPEN. It is onStartOpen exactly for CLOSE to SWIPING and onStartClose exactly for OPEN to SWIPING. It is never onSwiping. |
| `SwipeLayoutModel.DispatchLog` | widget/src/main/java/cn/ltaoj/widget/SwipeLayout.java:294-312 | With no listener, nothing is logged. With a listener, onSwiping comes first, and a second event comes exactly when the state changed; that event is the edge event. |
| `SwipeLayoutModel.EdgeTraceOrdered` | widget/src/main/java/cn/ltaoj/widget/SwipeLayout.java:37-66 | For any sequence of front positions, the edge events come in the order the dispatch code produces: after a start of opening or closing comes onOpen or onClose; after onClose, a start of opening or onOpen; after onOpen, a start of closing or onClose. The first one fits the starting state, and onSwiping is never among them. |
| `SwipeLayoutModel.EdgeJumpScenario` | widget/src/main/java/cn/ltaoj/widget/SwipeLayout.java:294-321 | A single step from 0 to -range yields onOpen with no onStartOpen, and a step from -range to 0 yields onClose alone. A step through -50 first yields onStartOpen, then onOpen. |
| `SwipeLayoutModel.JavaDiv` | widget/src/main/java/cn/ltaoj/widget/SwipeLayout.java:143 | Java's `/` rounds toward zero: for a >= 0, b·q <= a < b·(q+1), and for a < 0, b·(q-1) < a <= b·q. |
| `SwipeLayoutModel.ReleaseThreshold` | widget/src/main/java/cn/ltaoj/widget/SwipeLayout.java:143 | For range >= 0, the threshold range/(backChildCount+1), with Java's integer division, lies in [0, range]. It is the whole range when the back panel has no children. |
| `SwipeLayoutModel.ReleaseDecision` | widget/src/main/java/cn/ltaoj/widget/SwipeLayout.java:142-148 | Close exactly when left > -t, open exactly when left < -t, and do nothing exactly when left == -t. |
| `SwipeLayoutModel.ReleaseAtEdges` | widget/src/main/java/cn/ltaoj/widget/SwipeLayout.java:142-148 | For range > 0, releasing a closed panel never opens it. Releasing a fully open panel opens it when the back panel has children, and does nothing when it has none. |
| `SwipeLayoutModel.SwipeLayout.constructor` | widget/src/main/java/cn/ltaoj/widget/SwipeLayout.java:191-230 | Needs at least two children. The layout is sized, laid out closed and valid, with state CLOSE, no listener and an empty log. |
| `SwipeLayoutModel.SwipeLayout.SetListener` | widget/src/main/java/cn/ltaoj/widget/SwipeLayout.java:356-358 | The listener presence becomes the given value. |
| `SwipeLayoutModel.SwipeLayout.Resize` | widget/src/main/java/cn/ltaoj/widget/SwipeLayout.java:216-230 | The new size and range are stored, and the panels are laid out closed for them. |
| `SwipeLayoutModel.SwipeLayout.LayoutInit` | widget/src/main/java/cn/ltaoj/widget/SwipeLayout.java:232-242 | The panels become FrontRect and BackRect for the given position, and the invariant holds. The swipe state and log are untouched. |
| `SwipeLayoutModel.SwipeLayout.OpenImmediately` | widget/src/main/java/cn/ltaoj/widget/SwipeLayout.java:323-334 | open(false) lays the panels out open. |
| `SwipeLayoutModel.SwipeLayout.CloseImmediately` | widget/src/main/java/cn/ltaoj/widget/SwipeLayout.java:340-350 | close(false) lays the panels out closed. |
| `SwipeLayoutModel.SwipeLayout.DispatchEvent` | widget/src/main/java/cn/ltaoj/widget/SwipeLayout.java:294-312 | The state becomes the classification of front.left. The log grows by DispatchLog of the old and new state. |
| `SwipeLayoutModel.SwipeLayout.OnViewPositionChanged` | widget/src/main/java/cn/ltaoj/widget/SwipeLayout.java:81-91 | The other panel moves by the same dx, and a move of any other child moves neither panel. Then a dispatch follows. |
| `SwipeLayoutModel.SwipeLayout.DragTo` | widget/src/main/java/cn/ltaoj/widget/SwipeLayout.java:120-127 | The dragged panel lands on its clamped position and the other follows. The invariant holds afterwards: the panels are side by side and the front's left edge is in [-range, 0]. |
| `SwipeLayoutModel.SwipeLayout.OnViewReleased` | widget/src/main/java/cn/ltaoj/widget/SwipeLayout.java:142-148 | Returns ReleaseDecision for the current front.left, range and back-panel child count: settle-close, settle-open or nothing. |
| `SwipeLayoutModel.OpenThenDragScenario` | widget/src/main/java/cn/ltaoj/widget/SwipeLayout.java:232-242 | On a 300-wide layout with range 100 and a listener, open(false) and then a drag of the front panel to -95 log onSwiping, onStartOpen. The state left at CLOSE makes a closing move read as a start of opening. |

## Left out

- Drawing is left out: surface locking, `Canvas`/`Paint`/`RadialGradient` calls, and the bodies of `draw`, `drawBackground`, `drawTipText`, `sweepTipText` and `clearCanvas`. These are foreign rendering calls.
- The background draw thread's `run` and the 10-second `Timer` that erases the tip text are left out: they are concurrency and timing. The model keeps only whether a draw thread exists.
- `ValueAnimator` and its accelerate-decelerate easing are left out (host animation, floating point). `OvalAt` takes the animated centre `centerY` as a parameter. `OvalInsideRect` assumes that value stays in the animated range, as an interpolator with values in [0, 1] guarantees.
- Java `float` rounding and the float-to-int casts of the lock rectangle are not modelled. Coordinates are exact reals, so 0.6 is exact rather than the nearest `float`.
- `initAttrs` (attribute parsing) is left out, including its height line that clamps the width value. Its rectangle is overwritten by `initPreview` in any case.
- The commented-out `drawScan` is not code and is not modelled.
- `getRect` returns the live `mRect` object, and callers can alias it. The model holds the rectangle as a value.
- `setPreviewConfigs` keeps the caller's `List` object, which the caller can mutate later. The model copies the sequence.
- Listener implementations are left out. The model only logs their calls. A listener that throws is not modelled.
- `SwipeLayout`'s touch interception and `ViewDragHelper` settling are framework calls and are left out. This covers `onInterceptTouchEvent`, `onTouchEvent`, `computeScroll`, `smoothSlideViewTo`, and so the smooth paths of `open`/`close` and the `open()`/`close()` calls made from `onViewReleased`.
- `onFinishInflate`'s `instanceof ViewGroup` check on the first two children is not modelled. The constructor keeps only the requirement of at least two children.
- `clampViewPositionVertical` pins every drag to the front panel's top. The panels share a top, so `DragTo` models horizontal movement only.
- `bringChildToFront` (drawing order of the children) is not modelled. Neither is its `requestLayout()`: outside a layout pass, `open(false)` and `close(false)` thereby schedule another `onLayout`, whose `layoutInit(false)` lays the panels out closed again. `OpenImmediately` keeps the open position until the next `Resize`, so the stale-state case of `OpenThenDragScenario` arises only for a drag that comes before that layout pass.
- The listener argument (`this`) passed to each swipe callback is not modelled. The swipe log also does not record which listener received a callback: `hasListener` stands for the one listener slot, and the log holds only callback names. Replacing one listener by another is therefore not visible in the log.
- `onViewReleased` is modelled as the decision it takes. The `close()` and `open()` it then calls (SwipeLayout.java lines 144 and 146) are the smooth `ViewDragHelper` paths, which are left out as above.
- Java `int` arithmetic is modelled as unbounded `int`, so a 32-bit wrap-around is not modelled. The operands are pixel sizes and offsets, far below 2^31.
- ConfigRectFitsScreen: the 0.6 cap and the inside-the-screen bound are proved only for positive requests. The default path (a request <= 0) is not capped, and `DefaultRequestRect` and `DefaultRequestUncappedScenario` state what it gives instead.
- EdgeTraceOrdered: the order proved is the order the dispatch code produces, which is looser than a strict start-then-finish pattern. A jump between CLOSE and OPEN with no SWIPING position in between gives onOpen or onClose alone (`EdgeJumpScenario`). After `open(false)` or `close(false)` the stale swipe state can make the next callback name the wrong direction (`OpenThenDragScenario`).
