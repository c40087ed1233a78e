/**
 * The swipe-to-reveal layout: a front panel that is dragged left to uncover a
 * back panel of width `range` lying immediately to its right. Positions are
 * the integer pixel coordinates of the platform's views; listener callbacks
 * are recorded in an event log.
 */
module SwipeLayoutModel {
  import opened Wrappers

  datatype Rect = Rect(left: int, top: int, right: int, bottom: int) {
    function Width(): int { right - left }

    /** The rectangle moved horizontally by `dx`, as offsetLeftAndRight does to a view. */
    function Offset(dx: int): (r: Rect)
      ensures r.left == left + dx && r.Width() == Width()
      ensures r.top == top && r.bottom == bottom
    {
      Rect(left + dx, top, right + dx, bottom)
    }
  }

  /** CLOSE: the front panel is fully shown; OPEN: the back panel is fully shown; SWIPING: in between. */
  datatype SwipeState = Close | Swiping | Open

  /** The five methods of the swipe listener. */
  datatype SwipeEvent = OnStartOpen | OnOpen | OnStartClose | OnClose | OnSwiping

  /** The child a drag or position change concerns: the front panel, the back panel, or any other child. */
  datatype Panel = Front | Back | Other

  /** What releasing the drag asks for: settle closed, settle open, or nothing. */
  datatype Release = SettleClose | SettleOpen | Stay

  /** The back panel starts where the front panel ends, at the same height. */
  predicate Abuts(front: Rect, back: Rect) {
    back.left == front.right && back.top == front.top && back.bottom == front.bottom
  }

  // ------------------------------------------------------------- clamping

  /** The front panel's left edge kept within [-range, 0]. */
  function ClampFrontLeft(left: int, range: int): (r: int)
    ensures range >= 0 ==> -range <= r <= 0
    ensures -range <= left <= 0 ==> r == left
    ensures left < -range ==> r == -range
    ensures -range <= left && left > 0 ==> r == 0
  {
    if left < -range then -range
    else if left > 0 then 0
    else left
  }

  /** The back panel's left edge kept within [width - range, width]. */
  function ClampBackLeft(left: int, width: int, range: int): (r: int)
    ensures range >= 0 ==> width - range <= r <= width
    ensures width - range <= left <= width ==> r == left
    ensures left < width - range ==> r == width - range
    ensures width - range <= left && left > width ==> r == width
  {
    if left < width - range then width - range
    else if left > width then width
    else left
  }

  /** The horizontal position the drag helper is allowed to give `child`. */
  function ClampHorizontal(child: Panel, left: int, width: int, range: int): (r: int)
    ensures child == Front ==> r == ClampFrontLeft(left, range)
    ensures child == Back ==> r == ClampBackLeft(left, width, range)
    ensures child == Other ==> r == left
  {
    match child
    case Front => ClampFrontLeft(left, range)
    case Back => ClampBackLeft(left, width, range)
    case Other => left
  }

  // --------------------------------------------------------------- layout

  /** The front panel's rectangle when laid out open or closed. */
  function FrontRect(isOpen: bool, width: int, height: int, range: int): (r: Rect)
    ensures r.left == (if isOpen then -range else 0)
    ensures r.Width() == width && r.top == 0 && r.bottom == height
  {
    var left := if isOpen then -range else 0;
    Rect(left, 0, left + width, height)
  }

  /** The back panel's rectangle next to a given front rectangle. */
  function BackRect(front: Rect, range: int): (r: Rect)
    ensures Abuts(front, r) && r.Width() == range
  {
    Rect(front.right, front.top, front.right + range, front.bottom)
  }

  /** The state the front panel's left edge stands for; OPEN wins when range is 0. */
  function StateOf(frontLeft: int, range: int): (s: SwipeState)
    ensures s == Open <==> frontLeft == -range
    ensures s == Close <==> frontLeft == 0 && range != 0
    ensures s == Swiping <==> frontLeft != -range && frontLeft != 0
  {
    if frontLeft == -range then Open
    else if frontLeft == 0 then Close
    else Swiping
  }

  /**
   * Laying out open or closed puts the panels side by side, with the front
   * panel at the position that the state classification reads as OPEN or
   * CLOSE (OPEN in both cases when there is nothing to reveal).
   */
  lemma LayoutPositions(isOpen: bool, width: int, height: int, range: int)
    ensures var f := FrontRect(isOpen, width, height, range);
      && Abuts(f, BackRect(f, range))
      && StateOf(f.left, range) == (if isOpen || range == 0 then Open else Close)
  {
  }

  /** Moving both panels by the same amount keeps them side by side. */
  lemma OffsetKeepsAbutting(front: Rect, back: Rect, dx: int)
    requires Abuts(front, back)
    ensures Abuts(front.Offset(dx), back.Offset(dx))
  {
  }

  // --------------------------------------------------------------- events

  /**
   * The edge callback for a state change from `pre` to `now`: none without a
   * change; otherwise onClose on reaching CLOSE, onOpen on reaching OPEN, and
   * onStartOpen or onStartClose on leaving CLOSE or OPEN for SWIPING.
   */
  function EdgeEvent(pre: SwipeState, now: SwipeState): (e: Option<SwipeEvent>)
    ensures e.Some? <==> pre != now
    ensures e == Some(OnClose) <==> pre != now && now == Close
    ensures e == Some(OnOpen) <==> pre != now && now == Open
    ensures e == Some(OnStartOpen) <==> pre == Close && now == Swiping
    ensures e == Some(OnStartClose) <==> pre == Open && now == Swiping
    ensures e != Some(OnSwiping)
  {
    if now == pre then None
    else
      match now
      case Close => Some(OnClose)
      case Open => Some(OnOpen)
      case Swiping =>
        match pre
        case Close => Some(OnStartOpen)
        case Open => Some(OnStartClose)
        case Swiping => None
  }

  /** What one dispatch tells a listener, if one is set: onSwiping, then the edge callback, if any. */
  function DispatchLog(pre: SwipeState, now: SwipeState, hasListener: bool): (log: seq<SwipeEvent>)
    ensures !hasListener ==> log == []
    ensures hasListener ==> 1 <= |log| <= 2 && log[0] == OnSwiping
    ensures hasListener ==> (|log| == 2 <==> pre != now)
    ensures |log| == 2 ==> EdgeEvent(pre, now) == Some(log[1])
  {
    if hasListener then [OnSwiping] + OptionToSeq(EdgeEvent(pre, now)) else []
  }

  /** The edge callbacks heard while the front panel passes through the left edges `lefts`, starting in `pre`. */
  function EdgeTrace(pre: SwipeState, lefts: seq<int>, range: int): seq<SwipeEvent>
    decreases |lefts|
  {
    if |lefts| == 0 then []
    else
      var now := StateOf(lefts[0], range);
      OptionToSeq(EdgeEvent(pre, now)) + EdgeTrace(now, lefts[1..], range)
  }

  /** The edge callbacks that may come first from state `s`. */
  predicate MayStartFrom(s: SwipeState, e: SwipeEvent) {
    match s
    case Close => e == OnStartOpen || e == OnOpen
    case Open => e == OnStartClose || e == OnClose
    case Swiping => e == OnOpen || e == OnClose
  }

  /**
   * The order the edge callbacks can come in, as the dispatch produces them: a
   * start of opening or closing is followed by onOpen or onClose; onClose by a
   * start of opening or by onOpen; onOpen by a start of closing or by onClose.
   * A jump straight between CLOSE and OPEN, with no SWIPING position seen in
   * between, gives onOpen or onClose with no start callback before it.
   */
  predicate MayFollow(a: SwipeEvent, b: SwipeEvent) {
    match a
    case OnStartOpen => b == OnOpen || b == OnClose
    case OnStartClose => b == OnOpen || b == OnClose
    case OnClose => b == OnStartOpen || b == OnOpen
    case OnOpen => b == OnStartClose || b == OnClose
    case OnSwiping => false
  }

  /** Every event is one that may follow its predecessor. */
  predicate InOrder(t: seq<SwipeEvent>) {
    forall i :: 0 <= i < |t| - 1 ==> MayFollow(t[i], t[i + 1])
  }

  lemma PrependKeepsInOrder(e: SwipeEvent, rest: seq<SwipeEvent>)
    requires InOrder(rest) && (|rest| > 0 ==> MayFollow(e, rest[0]))
    ensures InOrder([e] + rest)
  {
    var t := [e] + rest;
    forall i | 0 <= i < |t| - 1 ensures MayFollow(t[i], t[i + 1]) {
      if i > 0 {
        assert t[i] == rest[i - 1] && t[i + 1] == rest[i];
      }
    }
  }

  /**
   * However the front panel moves, the edge callbacks come in the order
   * MayFollow allows, the first one fits the starting state, and onSwiping is
   * never among them.
   */
  lemma {:induction false} EdgeTraceOrdered(pre: SwipeState, lefts: seq<int>, range: int)
    ensures OnSwiping !in EdgeTrace(pre, lefts, range)
    ensures |EdgeTrace(pre, lefts, range)| > 0 ==> MayStartFrom(pre, EdgeTrace(pre, lefts, range)[0])
    ensures InOrder(EdgeTrace(pre, lefts, range))
    decreases |lefts|
  {
    if |lefts| > 0 {
      var now := StateOf(lefts[0], range);
      var rest := EdgeTrace(now, lefts[1..], range);
      EdgeTraceOrdered(now, lefts[1..], range);
      if now != pre {
        var e := EdgeEvent(pre, now).value;
        assert EdgeTrace(pre, lefts, range) == [e] + rest;
        PrependKeepsInOrder(e, rest);
      } else {
        assert EdgeTrace(pre, lefts, range) == rest;
      }
    }
  }

  /** A single step from the closed position to the fully open one gives onOpen without onStartOpen. */
  lemma EdgeJumpScenario()
    ensures EdgeTrace(Close, [-100], 100) == [OnOpen]
    ensures EdgeTrace(Open, [0], 100) == [OnClose]
    ensures EdgeTrace(Close, [-50, -100], 100) == [OnStartOpen, OnOpen]
  {
  }

  // -------------------------------------------------------------- release

  /**
   * Java's `/` on int: the quotient truncated toward zero, so the true quotient
   * lies in [q, q + 1) for a >= 0 and in (q - 1, q] for a < 0.
   */
  function JavaDiv(a: int, b: int): (q: int)
    requires b > 0
    ensures a >= 0 ==> b * q <= a < b * (q + 1)
    ensures a < 0 ==> b * (q - 1) < a <= b * q
  {
    if a >= 0 then a / b else -((-a) / b)
  }

  /** How far the front panel must be pulled before a release opens it. */
  function ReleaseThreshold(range: int, backChildCount: nat): (t: int)
    ensures range >= 0 ==> 0 <= t <= range
    ensures backChildCount == 0 ==> t == range
  {
    if range >= 0 then
      QuotientBounds(range, backChildCount + 1);
      JavaDiv(range, backChildCount + 1)
    else
      JavaDiv(range, backChildCount + 1)
  }

  /**
   * Release: settle closed when the front panel is left of the threshold by
   * less than it, settle open when by more, do nothing when exactly on it.
   */
  function ReleaseDecision(frontLeft: int, range: int, backChildCount: nat): (d: Release)
    ensures d == SettleClose <==> frontLeft > -ReleaseThreshold(range, backChildCount)
    ensures d == SettleOpen <==> frontLeft < -ReleaseThreshold(range, backChildCount)
    ensures d == Stay <==> frontLeft == -ReleaseThreshold(range, backChildCount)
  {
    var t := ReleaseThreshold(range, backChildCount);
    if frontLeft > -t then SettleClose
    else if frontLeft < -t then SettleOpen
    else Stay
  }

  /**
   * At the edges of the travel: a fully closed panel is never opened by a
   * release; a fully open one is kept open when the back panel has children,
   * and is left alone when it has none (the threshold is then the whole range).
   */
  lemma ReleaseAtEdges(range: int, backChildCount: nat)
    requires range > 0
    ensures ReleaseDecision(0, range, backChildCount) != SettleOpen
    ensures backChildCount >= 1 ==> ReleaseDecision(-range, range, backChildCount) == SettleOpen
    ensures backChildCount == 0 ==> ReleaseDecision(-range, range, backChildCount) == Stay
  {
  }

  /** A quotient of a natural number by a positive one is at most the dividend, and below it for divisors above 1. */
  lemma QuotientBounds(a: int, b: int)
    requires a >= 0 && b >= 1
    ensures 0 <= a / b <= a
    ensures a > 0 && b >= 2 ==> a / b < a
  {
  }

  // ------------------------------------------------------------ the layout

  class SwipeLayout {
    var width: int
    var height: int
    /** The measured width of the back panel: how far the front panel may travel. */
    var range: int
    /** Number of children of the back panel. */
    var backChildCount: nat
    var front: Rect
    var back: Rect
    var swipeState: SwipeState
    var hasListener: bool
    /** Every listener callback made so far, in order. */
    var log: seq<SwipeEvent>

    /**
     * The panels keep their laid-out sizes, sit side by side at the top, and the
     * front panel's left edge stays within the travel [-range, 0].
     */
    ghost predicate Valid()
      reads this
    {
      && width >= 0 && range >= 0
      && front.Width() == width && back.Width() == range && Abuts(front, back)
      && front.top == 0 && front.bottom == height
      && -range <= front.left <= 0
    }

    /**
     * Inflation with at least two children, followed by the first size change and
     * layout: the back panel is the first child, and the panels are laid out closed.
     */
    constructor (childCount: nat, backChildCount: nat, width: int, height: int, backWidth: int)
      requires childCount >= 2
      requires width >= 0 && backWidth >= 0
      ensures Valid()
      ensures this.width == width && this.height == height && range == backWidth
      ensures this.backChildCount == backChildCount
      ensures front == FrontRect(false, width, height, backWidth) && back == BackRect(front, backWidth)
      ensures swipeState == Close && !hasListener && log == []
    {
      this.width := width;
      this.height := height;
      range := backWidth;
      this.backChildCount := backChildCount;
      front := Rect(0, 0, 0, 0);
      back := Rect(0, 0, 0, 0);
      swipeState := Close;
      hasListener := false;
      log := [];
      new;
      LayoutInit(false);
    }

    method SetListener(present: bool)
      modifies this`hasListener
      ensures hasListener == present
    {
      hasListener := present;
    }

    /** A new size followed by a layout pass: the panels are laid out closed again. */
    method Resize(w: int, h: int, backWidth: int)
      requires w >= 0 && backWidth >= 0
      modifies this`width, this`height, this`range, this`front, this`back
      ensures Valid()
      ensures width == w && height == h && range == backWidth
      ensures front == FrontRect(false, w, h, backWidth) && back == BackRect(front, backWidth)
    {
      width, height, range := w, h, backWidth;
      LayoutInit(false);
    }

    /** Places both panels for the open or the closed position; the swipe state is not touched. */
    method LayoutInit(isOpen: bool)
      requires width >= 0 && range >= 0
      modifies this`front, this`back
      ensures Valid()
      ensures front == FrontRect(isOpen, width, height, range)
      ensures back == BackRect(front, range)
    {
      var frontRect := FrontRect(isOpen, width, height, range);
      front := frontRect;
      back := BackRect(frontRect, range);
    }

    /** open(false): jump to the open position. */
    method OpenImmediately()
      requires Valid()
      modifies this`front, this`back
      ensures Valid()
      ensures front == FrontRect(true, width, height, range) && back == BackRect(front, range)
    {
      LayoutInit(true);
    }

    /** close(false): jump to the closed position. */
    method CloseImmediately()
      requires Valid()
      modifies this`front, this`back
      ensures Valid()
      ensures front == FrontRect(false, width, height, range) && back == BackRect(front, range)
    {
      LayoutInit(false);
    }

    /** Reclassifies the position and tells the listener, if set, what changed. */
    method DispatchEvent()
      modifies this`swipeState, this`log
      ensures swipeState == StateOf(front.left, range)
      ensures log == old(log) + DispatchLog(old(swipeState), swipeState, hasListener)
    {
      var preState := swipeState;
      swipeState := StateOf(front.left, range);
      if hasListener {
        log := log + [OnSwiping];
        if swipeState != preState {
          if swipeState == Close {
            log := log + [OnClose];
          } else if swipeState == Open {
            log := log + [OnOpen];
          } else if preState == Close {
            log := log + [OnStartOpen];
          } else if preState == Open {
            log := log + [OnStartClose];
          }
        }
      }
    }

    /** After `changed` moved by `dx`, the other panel follows by the same `dx`; then a dispatch. */
    method OnViewPositionChanged(changed: Panel, dx: int)
      modifies this`front, this`back, this`swipeState, this`log
      ensures changed == Front ==> front == old(front) && back == old(back).Offset(dx)
      ensures changed == Back ==> front == old(front).Offset(dx) && back == old(back)
      ensures changed == Other ==> front == old(front) && back == old(back)
      ensures swipeState == StateOf(front.left, range)
      ensures log == old(log) + DispatchLog(old(swipeState), swipeState, hasListener)
    {
      if changed == Front {
        back := back.Offset(dx);
      } else if changed == Back {
        front := front.Offset(dx);
      }
      DispatchEvent();
    }

    /**
     * One drag step of the drag helper: `child` is moved to its clamped position
     * and the position-change callback moves the other panel along, so both stay
     * side by side within the travel.
     */
    method DragTo(child: Panel, left: int)
      requires Valid()
      modifies this`front, this`back, this`swipeState, this`log
      ensures Valid()
      ensures child == Front ==> front.left == ClampFrontLeft(left, range)
      ensures child == Back ==> back.left == ClampBackLeft(left, width, range)
      ensures child == Other ==> front == old(front) && back == old(back)
      ensures swipeState == StateOf(front.left, range)
      ensures log == old(log) + DispatchLog(old(swipeState), swipeState, hasListener)
    {
      var clamped := ClampHorizontal(child, left, width, range);
      var dx := 0;
      if child == Front {
        dx := clamped - front.left;
        front := front.Offset(dx);
      } else if child == Back {
        dx := clamped - back.left;
        back := back.Offset(dx);
      }
      OnViewPositionChanged(child, dx);
    }

    /** The decision taken when the drag is released. */
    method OnViewReleased() returns (d: Release)
      ensures d == ReleaseDecision(front.left, range, backChildCount)
    {
      var t := JavaDiv(range, backChildCount + 1);
      if front.left > -t {
        d := SettleClose;
      } else if front.left < -t {
        d := SettleOpen;
      } else {
        d := Stay;
      }
    }
  }

  /**
   * open(false) moves the panels but leaves the swipe state at CLOSE, so the
   * next drag step, into the SWIPING band from the open side, is reported as a
   * start of opening.
   */
  method OpenThenDragScenario() returns (log: seq<SwipeEvent>, state: SwipeState)
    ensures log == [OnSwiping, OnStartOpen]
    ensures state == Swiping
  {
    var layout := new SwipeLayout(2, 0, 300, 600, 100);
    layout.SetListener(true);
    layout.OpenImmediately();
    assert layout.range == 100 && layout.swipeState == Close && layout.hasListener && layout.log == [];
    layout.DragTo(Front, -95);
    assert layout.front.left == -95;
    assert StateOf(-95, 100) == Swiping;
    log, state := layout.log, layout.swipeState;
  }
}
