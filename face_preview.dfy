/**
 * The face-detection overlay widget: the geometry of its targeting rectangle,
 * the configuration applier, the preview state machine and the geometry of the
 * scan oval. Coordinates are exact reals (the widget uses `float`); listener
 * callbacks are recorded in an event log instead of being invoked.
 */
module FacePreviewModel {
  import opened Wrappers

  /** Side of the rectangle used when a configuration asks for a size <= 0, in density-independent units. */
  const DefaultExtent: real := 240.0
  /** The rectangle covers at most this fraction of the screen in each direction. */
  const MaxScale: real := 0.6
  /** Length of the corner marks; the scan oval is inset by half of it on each side. */
  const CornerLength: real := 50.0
  /** Half the height of the scan oval. */
  const ShortAxis: real := 5.0
  /** Distance kept between the scan line's travel and the rectangle's top and bottom. */
  const ScanMargin: real := 5.0
  /** Tip text of the configuration installed at construction ("point the frame at the face to recognise it automatically"). */
  const DefaultTipText: string := "将方框对准人脸，即可自动识别"

  datatype RectF = RectF(left: real, top: real, right: real, bottom: real) {
    function Width(): real { right - left }
    function Height(): real { bottom - top }
  }

  datatype PreviewState = Ready | Detecting | Pause | Complete

  /** The four methods of the change listener. */
  datatype Event = OnReady | OnDetecting | OnPause | OnComplete

  /** A listener object, known only by its identity. */
  datatype Listener = Listener(id: nat)

  /** One callback invocation: which listener received which call. */
  datatype Callback = Callback(target: Listener, event: Event)

  /** A configuration as the caller builds it; a listener of None is a null listener. */
  datatype PreviewConfig = PreviewConfig(
    previewWidth: real, previewHeight: real, tipText: string, showTip: bool, listener: Option<Listener>)

  /** The part of the widget's state that applying a configuration rewrites. */
  datatype Overlay = Overlay(rect: RectF, tipText: string, showTip: bool, listener: Option<Listener>, curConfig: int)

  /** What the scan animator captures when it is created: the oval's horizontal extent and the range of its centre. */
  datatype ScanGeometry = ScanGeometry(ovalLeft: real, ovalRight: real, fromY: real, toY: real)

  function DefaultConfig(): PreviewConfig {
    PreviewConfig(0.0, 0.0, DefaultTipText, true, None)
  }

  function Min(a: real, b: real): (m: real)
    ensures m <= a && m <= b && (m == a || m == b)
  {
    if a <= b then a else b
  }

  // ---------------------------------------------------------------- geometry

  /**
   * The width (or height) the widget gives the rectangle for a requested size:
   * the density-scaled default for a request <= 0, otherwise the scaled request
   * but never more than MaxScale of the screen's extent in that direction.
   */
  function ResolveExtent(requested: real, density: real, screenExtent: int): (r: real)
    ensures requested <= 0.0 ==> r == DefaultExtent * density
    ensures requested > 0.0 ==> r <= requested * density && r <= screenExtent as real * MaxScale
    ensures requested > 0.0 ==> r == requested * density || r == screenExtent as real * MaxScale
  {
    if requested <= 0.0 then DefaultExtent * density
    else Min(requested * density, screenExtent as real * MaxScale)
  }

  /** The rectangle of size w by h centred on a screen of the given size. */
  function CenteredRect(w: real, h: real, screenWidth: int, screenHeight: int): (r: RectF)
    ensures r.left + r.right == screenWidth as real && r.Width() == w
    ensures r.top + r.bottom == screenHeight as real && r.Height() == h
  {
    RectF((screenWidth as real - w) / 2.0, (screenHeight as real - h) / 2.0,
          (screenWidth as real + w) / 2.0, (screenHeight as real + h) / 2.0)
  }

  /** The rectangle that configuration `c` produces. */
  function ConfigRect(c: PreviewConfig, density: real, screenWidth: int, screenHeight: int): RectF {
    CenteredRect(ResolveExtent(c.previewWidth, density, screenWidth),
                 ResolveExtent(c.previewHeight, density, screenHeight),
                 screenWidth, screenHeight)
  }

  /**
   * Applying configuration `c`, stored at `index`, to overlay `o`: the rectangle
   * is recomputed, tip text and visibility are copied, the current index is
   * recorded, and the listener is replaced only when the configuration has one.
   */
  function ApplyTo(o: Overlay, c: PreviewConfig, index: int, density: real, screenWidth: int, screenHeight: int): (r: Overlay)
    ensures r.rect == ConfigRect(c, density, screenWidth, screenHeight)
    ensures r.tipText == c.tipText && r.showTip == c.showTip && r.curConfig == index
    ensures c.listener.Some? ==> r.listener == c.listener
    ensures c.listener.None? ==> r.listener == o.listener
  {
    Overlay(ConfigRect(c, density, screenWidth, screenHeight), c.tipText, c.showTip,
            if c.listener.Some? then c.listener else o.listener, index)
  }

  /**
   * For a configuration that asks for a positive size on a screen of positive
   * size and density, the rectangle is centred, non-empty, no larger than
   * MaxScale of the screen in each direction, and lies inside the screen.
   */
  lemma ConfigRectFitsScreen(c: PreviewConfig, density: real, screenWidth: int, screenHeight: int)
    requires density > 0.0 && screenWidth > 0 && screenHeight > 0
    requires c.previewWidth > 0.0 && c.previewHeight > 0.0
    ensures var r := ConfigRect(c, density, screenWidth, screenHeight);
      && r.left + r.right == screenWidth as real && r.top + r.bottom == screenHeight as real
      && 0.0 < r.Width() <= screenWidth as real * MaxScale
      && 0.0 < r.Height() <= screenHeight as real * MaxScale
      && 0.0 <= r.left && r.right <= screenWidth as real
      && 0.0 <= r.top && r.bottom <= screenHeight as real
  {
  }

  /**
   * A request <= 0 in both directions bypasses the MaxScale cap: the rectangle
   * is the centred square of side DefaultExtent * density, and it lies inside
   * the screen in a direction exactly when that side fits the screen there.
   */
  lemma DefaultRequestRect(c: PreviewConfig, density: real, screenWidth: int, screenHeight: int)
    requires c.previewWidth <= 0.0 && c.previewHeight <= 0.0
    ensures var r := ConfigRect(c, density, screenWidth, screenHeight);
      && r.left + r.right == screenWidth as real && r.top + r.bottom == screenHeight as real
      && r.Width() == DefaultExtent * density && r.Height() == DefaultExtent * density
      && (0.0 <= r.left && r.right <= screenWidth as real <==> DefaultExtent * density <= screenWidth as real)
      && (0.0 <= r.top && r.bottom <= screenHeight as real <==> DefaultExtent * density <= screenHeight as real)
  {
  }

  /**
   * On a 1080x1920 screen of density 3 the default square is 720 wide, more than
   * the 648 a positive request could get; on a 400x800 screen of density 2 it is
   * 480 wide and sticks out on the left.
   */
  lemma DefaultRequestUncappedScenario()
    ensures ConfigRect(DefaultConfig(), 3.0, 1080, 1920).Width() == 720.0
    ensures ConfigRect(DefaultConfig(), 3.0, 1080, 1920).Width() > 1080.0 * MaxScale
    ensures ConfigRect(PreviewConfig(2000.0, 0.0, "", true, None), 3.0, 1080, 1920).Width() == 648.0
    ensures ConfigRect(DefaultConfig(), 2.0, 400, 800).left == -40.0
  {
  }

  /** The default configuration on a 1080x1920 screen of density 1 gives the 240x240 square (420,840)-(660,1080). */
  lemma DefaultRectScenario()
    ensures ConfigRect(DefaultConfig(), 1.0, 1080, 1920) == RectF(420.0, 840.0, 660.0, 1080.0)
  {
  }

  /** On the same screen a requested width of 2000 is cut to 1080 * 0.6 = 648. */
  lemma WideRequestScenario()
    ensures ResolveExtent(2000.0, 1.0, 1080) == 648.0
    ensures ConfigRect(PreviewConfig(2000.0, 0.0, "", true, None), 1.0, 1080, 1920) == RectF(216.0, 840.0, 864.0, 1080.0)
  {
  }

  // ------------------------------------------------------------- scan oval

  /**
   * The geometry the scan animator captures from the rectangle: the oval spans
   * the rectangle's width less half a corner mark on each side, and its centre
   * travels between ScanMargin below the top and ScanMargin above the bottom.
   */
  function ScanGeometryOf(r: RectF): (g: ScanGeometry)
    ensures g.ovalLeft + g.ovalRight == r.left + r.right
    ensures g.ovalRight - g.ovalLeft == r.Width() - CornerLength
    ensures g.fromY + g.toY == r.top + r.bottom
    ensures g.toY - g.fromY == r.Height() - 2.0 * ScanMargin
  {
    ScanGeometry(r.left + CornerLength / 2.0, r.right - CornerLength / 2.0,
                 r.top + ScanMargin, r.bottom - ScanMargin)
  }

  /** The oval drawn on an animation frame whose animated value is `centerY`. */
  function OvalAt(g: ScanGeometry, centerY: real): (o: RectF)
    ensures o.left == g.ovalLeft && o.right == g.ovalRight
    ensures o.top + o.bottom == 2.0 * centerY && o.Height() == 2.0 * ShortAxis
  {
    RectF(g.ovalLeft, centerY - ShortAxis, g.ovalRight, centerY + ShortAxis)
  }

  /**
   * While the animated centre stays in the captured range, the oval stays inside
   * the rectangle it was captured from: vertically always, horizontally as soon
   * as the rectangle is at least one corner mark wide. The range is non-empty
   * only for a rectangle at least 2 * ScanMargin tall (see ShortRectScenario).
   */
  lemma OvalInsideRect(r: RectF, centerY: real)
    requires ScanGeometryOf(r).fromY <= centerY <= ScanGeometryOf(r).toY
    ensures var o := OvalAt(ScanGeometryOf(r), centerY);
      && r.top <= o.top && o.bottom <= r.bottom
      && (r.Width() >= CornerLength ==> r.left <= o.left <= o.right <= r.right)
  {
  }

  /**
   * The captured range is empty for a rectangle under 2 * ScanMargin tall; the
   * animator then runs from fromY down to toY, and the oval leaves the
   * rectangle: a 6 px tall rectangle gives an oval whose top is above it.
   */
  lemma ShortRectScenario()
    ensures ScanGeometryOf(RectF(0.0, 0.0, 100.0, 6.0)).fromY == 5.0
    ensures ScanGeometryOf(RectF(0.0, 0.0, 100.0, 6.0)).toY == 1.0
    ensures OvalAt(ScanGeometryOf(RectF(0.0, 0.0, 100.0, 6.0)), 3.0).top < 0.0
  {
  }

  // ------------------------------------------------------- state machine

  /** The listener method that reports arrival in state `s`. */
  function EventFor(s: PreviewState): (e: Event)
    ensures e == OnReady <==> s == Ready
    ensures e == OnDetecting <==> s == Detecting
    ensures e == OnPause <==> s == Pause
    ensures e == OnComplete <==> s == Complete
  {
    match s
    case Ready => OnReady
    case Detecting => OnDetecting
    case Pause => OnPause
    case Complete => OnComplete
  }

  /** The callbacks a listener (if any) receives for an event (if any). */
  function Notify(l: Option<Listener>, e: Option<Event>): (cs: seq<Callback>)
    ensures |cs| <= 1
    ensures |cs| == 1 <==> l.Some? && e.Some?
    ensures |cs| == 1 ==> cs[0] == Callback(l.value, e.value)
  {
    if l.Some? && e.Some? then [Callback(l.value, e.value)] else []
  }

  /** The event an explicit request to enter `target` from `s` fires: none for a request to stay. */
  function Fired(s: PreviewState, target: PreviewState): (e: Option<Event>)
    ensures e.Some? <==> s != target
    ensures e.Some? ==> e.value == EventFor(target)
  {
    if s == target then None else Some(EventFor(target))
  }

  /**
   * The state after the animator flag is consulted: a running animator takes
   * READY or PAUSE to DETECTING, a stopped one takes DETECTING to PAUSE, and
   * every other combination keeps the state.
   */
  function UpdatedState(s: PreviewState, running: bool): (r: PreviewState)
    ensures r != s <==> (running && (s == Ready || s == Pause)) || (!running && s == Detecting)
    ensures r != s ==> r == (if running then Detecting else Pause)
  {
    if running && (s == Ready || s == Pause) then Detecting
    else if !running && s == Detecting then Pause
    else s
  }

  /** The event the same step fires: exactly one, the one for the new state, when the state changes. */
  function UpdateEvent(s: PreviewState, running: bool): (e: Option<Event>)
    ensures e.Some? <==> UpdatedState(s, running) != s
    ensures e.Some? ==> e.value == EventFor(UpdatedState(s, running))
    ensures e.Some? ==> e.value == OnDetecting || e.value == OnPause
  {
    if running && (s == Ready || s == Pause) then Some(OnDetecting)
    else if !running && s == Detecting then Some(OnPause)
    else None
  }

  /** A second step with the same flag neither moves the state nor fires again. */
  lemma UpdateIdempotent(s: PreviewState, running: bool)
    ensures UpdatedState(UpdatedState(s, running), running) == UpdatedState(s, running)
    ensures UpdateEvent(UpdatedState(s, running), running) == None
  {
  }

  /** The step driven by the animator flag is an explicit request for its own target state. */
  lemma UpdateIsRequestForTarget(s: PreviewState, running: bool)
    ensures UpdateEvent(s, running) == Fired(s, UpdatedState(s, running))
  {
  }

  /** The state after a sequence of animator-driven steps. */
  function Final(s: PreviewState, flags: seq<bool>): PreviewState
    decreases |flags|
  {
    if |flags| == 0 then s else Final(UpdatedState(s, flags[0]), flags[1..])
  }

  /** The events a present listener receives over a sequence of animator-driven steps. */
  function Trace(s: PreviewState, flags: seq<bool>): seq<Event>
    decreases |flags|
  {
    if |flags| == 0 then []
    else OptionToSeq(UpdateEvent(s, flags[0])) + Trace(UpdatedState(s, flags[0]), flags[1..])
  }

  /** No event follows an identical one. */
  predicate NoRepeats(t: seq<Event>) {
    forall i :: 0 <= i < |t| - 1 ==> t[i] != t[i + 1]
  }

  lemma PrependKeepsNoRepeats(e: Event, rest: seq<Event>)
    requires NoRepeats(rest) && (|rest| > 0 ==> rest[0] != e)
    ensures NoRepeats([e] + rest)
  {
    var t := [e] + rest;
    forall i | 0 <= i < |t| - 1 ensures t[i] != t[i + 1] {
      if i > 0 {
        assert t[i] == rest[i - 1] && t[i + 1] == rest[i];
      }
    }
  }

  /**
   * Over any sequence of surface creations and destructions (each an
   * animator-driven step) the listener hears only onDetecting and onPause, never
   * the same one twice in a row, never first the one for the state it is already
   * in, and last the one for the final state (which is the initial state when it
   * hears nothing); from COMPLETE it hears nothing.
   */
  lemma {:induction false} TraceAlternates(s: PreviewState, flags: seq<bool>)
    ensures s == Complete ==> Trace(s, flags) == []
    ensures forall e :: e in Trace(s, flags) ==> e == OnDetecting || e == OnPause
    ensures NoRepeats(Trace(s, flags))
    ensures |Trace(s, flags)| > 0 ==> Trace(s, flags)[0] != EventFor(s)
    ensures |Trace(s, flags)| > 0 ==> Trace(s, flags)[|Trace(s, flags)| - 1] == EventFor(Final(s, flags))
    ensures |Trace(s, flags)| == 0 ==> Final(s, flags) == s
    decreases |flags|
  {
    if |flags| > 0 {
      var s' := UpdatedState(s, flags[0]);
      var rest := Trace(s', flags[1..]);
      TraceAlternates(s', flags[1..]);
      assert Final(s, flags) == Final(s', flags[1..]);
      if s' != s {
        var e := EventFor(s');
        assert Trace(s, flags) == [e] + rest;
        PrependKeepsNoRepeats(e, rest);
        if |rest| > 0 {
          assert ([e] + rest)[|rest|] == rest[|rest| - 1];
        }
      } else {
        assert Trace(s, flags) == rest;
      }
    }
  }

  /** Start, pause and resume give onDetecting, onPause, onDetecting. */
  lemma StartPauseResumeScenario()
    ensures Trace(Ready, [true, false, true]) == [OnDetecting, OnPause, OnDetecting]
  {
  }

  // ----------------------------------------------------------- the widget

  class FacePreview {
    const screenWidth: int
    const screenHeight: int
    const density: real

    var rect: RectF
    var tipText: string
    var showTip: bool
    var configs: seq<PreviewConfig>
    var curConfig: int
    var state: PreviewState
    var listener: Option<Listener>
    /** Whether a background draw thread has been created and not yet dropped. */
    var drawThread: bool
    /** The scan animator, if one exists, by the geometry it captured. */
    var animator: Option<ScanGeometry>
    var animatorRun: bool
    /** Every listener callback made so far, in order. */
    var log: seq<Callback>

    /**
     * The current configuration index names a stored configuration, and the
     * rectangle and tip text are the ones that configuration produces.
     */
    ghost predicate Valid()
      reads this
    {
      && 0 <= curConfig < |configs|
      && rect == ConfigRect(configs[curConfig], density, screenWidth, screenHeight)
      && tipText == configs[curConfig].tipText
    }

    function View(): Overlay
      reads this
    {
      Overlay(rect, tipText, showTip, listener, curConfig)
    }

    /** Construction with the device metrics: one default configuration, applied; state READY; no listener. */
    constructor (screenWidth: int, screenHeight: int, density: real)
      ensures Valid()
      ensures this.screenWidth == screenWidth && this.screenHeight == screenHeight && this.density == density
      ensures configs == [DefaultConfig()] && curConfig == 0
      ensures rect == CenteredRect(DefaultExtent * density, DefaultExtent * density, screenWidth, screenHeight)
      ensures tipText == DefaultTipText && showTip && listener == None
      ensures state == Ready && log == []
      ensures !drawThread && animator == None && !animatorRun
    {
      this.screenWidth := screenWidth;
      this.screenHeight := screenHeight;
      this.density := density;
      rect := RectF(0.0, 0.0, 0.0, 0.0);
      tipText := "";
      showTip := false;
      configs := [DefaultConfig()];
      curConfig := 0;
      state := Ready;
      listener := None;
      drawThread := false;
      animator := None;
      animatorRun := false;
      log := [];
      new;
      ApplyConfig(0);
      showTip := true;
    }

    /** Applies configuration `index`; an index outside the list changes nothing. */
    method ApplyConfig(index: int)
      modifies this`rect, this`tipText, this`showTip, this`listener, this`curConfig
      ensures old(Valid()) || 0 <= index < |configs| ==> Valid()
      ensures 0 <= index < |configs| ==>
        View() == ApplyTo(old(View()), configs[index], index, density, screenWidth, screenHeight)
      ensures !(0 <= index < |configs|) ==> View() == old(View())
    {
      if index < 0 || index >= |configs| {
        return;
      }
      var config := configs[index];
      var pWidth := ResolveExtent(config.previewWidth, density, screenWidth);
      var pHeight := ResolveExtent(config.previewHeight, density, screenHeight);
      rect := CenteredRect(pWidth, pHeight, screenWidth, screenHeight);
      if config.listener.Some? {
        listener := config.listener;
      }
      tipText := config.tipText;
      showTip := config.showTip;
      curConfig := index;
    }

    /** Installs a non-empty configuration list and applies its first entry; a null or empty list changes nothing. */
    method SetPreviewConfigs(newConfigs: Option<seq<PreviewConfig>>)
      modifies this`configs, this`rect, this`tipText, this`showTip, this`listener, this`curConfig
      ensures old(Valid()) || (newConfigs.Some? && |newConfigs.value| > 0) ==> Valid()
      ensures newConfigs.Some? && |newConfigs.value| > 0 ==>
        configs == newConfigs.value &&
        View() == ApplyTo(old(View()), newConfigs.value[0], 0, density, screenWidth, screenHeight)
      ensures !(newConfigs.Some? && |newConfigs.value| > 0) ==> configs == old(configs) && View() == old(View())
    {
      if newConfigs.Some? && |newConfigs.value| > 0 {
        configs := newConfigs.value;
        ApplyConfig(0);
      }
    }

    method SetChangeListener(l: Option<Listener>)
      modifies this`listener
      ensures listener == l
    {
      listener := l;
    }

    /**
     * Requests state `target`. A request for the current state does nothing.
     * Otherwise the state becomes `target` and the listener hears the matching
     * callback; with no listener the state still changes and the call then
     * fails (`thrown`), as the widget dereferences the listener unchecked.
     */
    method SetPreviewState(target: PreviewState) returns (thrown: bool)
      modifies this`state, this`log
      ensures state == target
      ensures log == old(log) + Notify(listener, Fired(old(state), target))
      ensures thrown <==> old(state) != target && listener.None?
    {
      thrown := false;
      if state != target {
        state := target;
        if listener.None? {
          thrown := true;
          return;
        }
        log := log + [Callback(listener.value, EventFor(target))];
      }
    }

    /** The animator-driven step, reporting a change only to a listener that is present. */
    method UpdatePreviewState()
      modifies this`state, this`log
      ensures state == UpdatedState(old(state), animatorRun)
      ensures log == old(log) + Notify(listener, UpdateEvent(old(state), animatorRun))
    {
      if animatorRun {
        if state == Ready || state == Pause {
          state := Detecting;
          if listener.Some? {
            log := log + [Callback(listener.value, OnDetecting)];
          }
        }
      } else {
        if state == Detecting {
          state := Pause;
          if listener.Some? {
            log := log + [Callback(listener.value, OnPause)];
          }
        }
      }
    }

    /**
     * The surface appears: a draw thread is created if there is none, and if
     * there is no animator one is created from the current rectangle, marked
     * running, and the animator-driven step is taken.
     */
    method SurfaceCreated()
      modifies this`drawThread, this`animator, this`animatorRun, this`state, this`log
      ensures drawThread
      ensures old(animator).Some? ==>
        animator == old(animator) && animatorRun == old(animatorRun) && state == old(state) && log == old(log)
      ensures old(animator).None? ==>
        animator == Some(ScanGeometryOf(rect)) && animatorRun &&
        state == UpdatedState(old(state), true) &&
        log == old(log) + Notify(listener, UpdateEvent(old(state), true))
      ensures Valid() && old(animator).None? ==>
        animator == Some(ScanGeometryOf(ConfigRect(configs[curConfig], density, screenWidth, screenHeight)))
    {
      if !drawThread {
        drawThread := true;
      }
      if animator.None? {
        animator := Some(ScanGeometryOf(rect));
        animatorRun := true;
        UpdatePreviewState();
      }
    }

    /**
     * The surface goes away: the draw thread is dropped, the animator is marked
     * stopped, the animator-driven step is taken (so DETECTING becomes PAUSE,
     * not COMPLETE), and the animator is discarded.
     */
    method SurfaceDestroyed()
      modifies this`drawThread, this`animator, this`animatorRun, this`state, this`log
      ensures !drawThread && animator == None && !animatorRun
      ensures state == UpdatedState(old(state), false)
      ensures log == old(log) + Notify(listener, UpdateEvent(old(state), false))
    {
      drawThread := false;
      animatorRun := false;
      UpdatePreviewState();
      animator := None;
    }

    /** The oval of an animation frame, when an animator exists. */
    function ScanOval(centerY: real): (o: Option<RectF>)
      reads this
      ensures o.Some? <==> animator.Some?
      ensures o.Some? ==> o.value.left == animator.value.ovalLeft && o.value.right == animator.value.ovalRight
      ensures o.Some? ==> o.value.top + o.value.bottom == 2.0 * centerY
    {
      if animator.Some? then Some(OvalAt(animator.value, centerY)) else None
    }
  }
}
