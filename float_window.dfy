/** The floating-window helper of base/.../widget/floatwindow/FloatWindowHelper.kt:
    a window shown and hidden through the `WindowManager`, dragged by adding
    each move's delta to its layout position, and optionally snapped to the
    nearer screen edge after a drag. Window-manager and view calls are
    appended to a log; raw touch coordinates arrive already truncated to
    `Int`, as `event.rawX.toInt()` leaves them. */
module FloatWindow {
  import opened Wrappers
  import opened Graphics

  /** The `WindowManager.LayoutParams` fields the helper sets. */
  datatype LayoutParams = LayoutParams(x: int, y: int, width: int, height: int, gravity: int)

  /** A `ValueAnimator.ofInt(from, to)` moving the window horizontally. */
  datatype EdgeAnimation = EdgeAnimation(from: int, to: int)

  /** The calls the helper makes on the window manager, the view and its animator. */
  datatype Call =
    | AddView(params: LayoutParams)
    | RemoveView
    | UpdateViewLayout(params: LayoutParams)
    | PerformClick
    | CancelAnimation(animation: EdgeAnimation)
    | StartAnimation(animation: EdgeAnimation)

  /** `Gravity.START or Gravity.TOP` (0x00800003 | 0x30). */
  const StartTop: int := 0x0080_0033

  /** The position `params.x` has after the moves `moves` (raw x of each
      ACTION_MOVE, in order) when it was `x` and the last raw x was `current`. */
  function DragX(x: int, current: int, moves: seq<int>): int
    decreases |moves|
  {
    if moves == [] then x else DragX(x + (moves[0] - current), moves[0], moves[1..])
  }

  /** The deltas telescope: after a drag the window has moved by the
      distance from the first touch to the last move. */
  lemma {:induction false} DragTelescopes(x: int, current: int, moves: seq<int>)
    ensures moves == [] ==> DragX(x, current, moves) == x
    ensures moves != [] ==> DragX(x, current, moves) == x + (moves[|moves| - 1] - current)
    decreases |moves|
  {
    if moves != [] {
      DragTelescopes(x + (moves[0] - current), moves[0], moves[1..]);
      if |moves| > 1 {
        assert moves[1..][|moves| - 2] == moves[|moves| - 1];
      }
    }
  }

  /** Where `animateToEdge` sends the window: the left edge from the left
      half of the screen, otherwise flush with the right edge. */
  function EdgeTarget(x: int, screenWidth: nat, rootWidth: int): (end: int)
    ensures end == 0 || end == screenWidth - rootWidth
    ensures end == 0 <== x < screenWidth / 2
    ensures x >= screenWidth / 2 ==> end + rootWidth == screenWidth
  {
    if x < screenWidth / 2 then 0 else screenWidth - rootWidth
  }

  class FloatWindowHelper {
    var params: LayoutParams
    var showing: bool
    var closeToEdge: bool
    var lastAnimator: Option<EdgeAnimation>
    var startX: int
    var startY: int
    var lastX: int
    var lastY: int
    var currentX: int
    var currentY: int
    var isMoved: bool
    var calls: seq<Call>

    /** A helper after `initWindow(context, Config(width, height))`. */
    constructor (width: int, height: int)
      ensures params == LayoutParams(0, 0, width, height, StartTop)
      ensures !showing && !closeToEdge && lastAnimator == None && !isMoved && calls == []
    {
      params := LayoutParams(0, 0, width, height, StartTop);
      showing := false;
      closeToEdge := false;
      lastAnimator := None;
      startX, startY, lastX, lastY, currentX, currentY := 0, 0, 0, 0, 0, 0;
      isMoved := false;
      calls := [];
    }

    /** `showWindow()`: add the window unless it is showing. */
    method ShowWindow()
      modifies this`showing, this`calls
      ensures showing
      ensures calls == if old(showing) then old(calls) else old(calls) + [AddView(params)]
    {
      if !showing {
        showing := true;
        calls := calls + [AddView(params)];
      }
    }

    /** `hideWindow()`: remove the window if it is showing. */
    method HideWindow()
      modifies this`showing, this`calls
      ensures !showing
      ensures calls == if old(showing) then old(calls) + [RemoveView] else old(calls)
    {
      if showing {
        showing := false;
        calls := calls + [RemoveView];
      }
    }

    /** `toggle()`: hide a shown window, show a hidden one. */
    method Toggle()
      modifies this`showing, this`calls
      ensures showing == !old(showing)
      ensures calls == old(calls) + [if old(showing) then RemoveView else AddView(params)]
    {
      if showing {
        HideWindow();
      } else {
        ShowWindow();
      }
    }

    /** `relayoutRootView()`: push the parameters when the root view is attached. */
    method RelayoutRootView(attached: bool)
      modifies this`calls
      ensures calls == if attached then old(calls) + [UpdateViewLayout(params)] else old(calls)
    {
      if attached {
        calls := calls + [UpdateViewLayout(params)];
      }
    }

    /** `setGravity(gravity)`. */
    method SetGravity(gravity: int, attached: bool)
      modifies this`params, this`calls
      ensures params == old(params).(gravity := gravity)
      ensures calls == if attached then old(calls) + [UpdateViewLayout(params)] else old(calls)
    {
      params := params.(gravity := gravity);
      RelayoutRootView(attached);
    }

    /** `setX(x)`. */
    method SetX(x: int, attached: bool)
      modifies this`params, this`calls
      ensures params == old(params).(x := x)
      ensures calls == if attached then old(calls) + [UpdateViewLayout(params)] else old(calls)
    {
      params := params.(x := x);
      RelayoutRootView(attached);
    }

    /** `setY(y)`. */
    method SetY(y: int, attached: bool)
      modifies this`params, this`calls
      ensures params == old(params).(y := y)
      ensures calls == if attached then old(calls) + [UpdateViewLayout(params)] else old(calls)
    {
      params := params.(y := y);
      RelayoutRootView(attached);
    }

    /** ACTION_DOWN: a new gesture starts at the raw touch point. */
    method TouchDown(rawX: int, rawY: int)
      modifies this`isMoved, this`startX, this`startY, this`currentX, this`currentY
      ensures !isMoved && startX == rawX && startY == rawY && currentX == rawX && currentY == rawY
    {
      isMoved := false;
      startX := rawX;
      startY := rawY;
      currentX := startX;
      currentY := startY;
    }

    /** ACTION_MOVE: move the window by the delta since the previous event. */
    method TouchMove(rawX: int, rawY: int)
      modifies this`lastX, this`lastY, this`currentX, this`currentY, this`params, this`calls
      ensures lastX == old(currentX) && lastY == old(currentY) && currentX == rawX && currentY == rawY
      ensures params == old(params).(x := DragX(old(params.x), old(currentX), [rawX]),
                                     y := DragX(old(params.y), old(currentY), [rawY]))
      ensures params.x - currentX == old(params.x - currentX) && params.y - currentY == old(params.y - currentY)
      ensures calls == old(calls) + [UpdateViewLayout(params)]
    {
      lastX := currentX;
      lastY := currentY;
      currentX := rawX;
      currentY := rawY;
      params := params.(x := params.x + (currentX - lastX), y := params.y + (currentY - lastY));
      calls := calls + [UpdateViewLayout(params)];
    }

    /** ACTION_UP: a release away from the first touch point is a move,
        otherwise a click; a move snaps to the edge when asked to. */
    method TouchUp(rawX: int, rawY: int, screenWidth: nat, rootWidth: int)
      modifies this`currentX, this`currentY, this`isMoved, this`calls, this`lastAnimator
      ensures currentX == rawX && currentY == rawY
      ensures var moved := rawX != old(startX) || rawY != old(startY);
        && isMoved == (old(isMoved) || moved)
        && var clicked := if moved then [] else [PerformClick];
           var snap := EdgeAnimation(params.x, EdgeTarget(params.x, screenWidth, rootWidth));
           if isMoved && closeToEdge then
             && lastAnimator == Some(snap)
             && calls == old(calls) + clicked
                         + (if old(lastAnimator).Some? then [CancelAnimation(old(lastAnimator).value)] else [])
                         + [StartAnimation(snap)]
           else
             lastAnimator == old(lastAnimator) && calls == old(calls) + clicked
    {
      currentX := rawX;
      currentY := rawY;
      if Abs(currentX - startX) >= 1 || Abs(currentY - startY) >= 1 {
        isMoved := true;
      } else {
        calls := calls + [PerformClick];
      }
      if isMoved && closeToEdge {
        AnimateToEdge(screenWidth, rootWidth);
      }
    }

    /** `animateToEdge()`: cancel the previous snap and start one to the edge target. */
    method AnimateToEdge(screenWidth: nat, rootWidth: int)
      modifies this`lastAnimator, this`calls
      ensures var snap := EdgeAnimation(params.x, EdgeTarget(params.x, screenWidth, rootWidth));
        && lastAnimator == Some(snap)
        && calls == old(calls)
                    + (if old(lastAnimator).Some? then [CancelAnimation(old(lastAnimator).value)] else [])
                    + [StartAnimation(snap)]
    {
      if lastAnimator.Some? {
        calls := calls + [CancelAnimation(lastAnimator.value)];
      }
      var start := params.x;
      var end := if params.x < screenWidth / 2 then 0 else screenWidth - rootWidth;
      lastAnimator := Some(EdgeAnimation(start, end));
      calls := calls + [StartAnimation(EdgeAnimation(start, end))];
    }

    /** The snap animator's update listener: move the window to the animated value. */
    method OnAnimationUpdate(animatedValue: int)
      modifies this`params, this`calls
      ensures params == old(params).(x := animatedValue)
      ensures calls == old(calls) + [UpdateViewLayout(params)]
    {
      params := params.(x := animatedValue);
      calls := calls + [UpdateViewLayout(params)];
    }
  }
}
