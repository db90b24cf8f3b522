/** The carousel ("arc layout") of design/.../arclayout/ArcLayout.kt.

    A continuous scroll accumulator (`arcScrollX`) drives a signed `offset`
    of the centred child; the offset is re-resolved into a discrete
    `currentIndex` by one clamp-then-shift step. Children are reduced to their
    measured size, the vertical arc position (`computeChildTop`, a square
    root) is the uninterpreted parameter `arcTop`, and the scrollers are
    reduced to the scroll or fling they were last asked to start. */
module Arc {
  import opened Wrappers
  import opened Graphics

  /** A child view, reduced to its measured width and height. */
  datatype Child = Child(width: nat, height: nat)

  /** What `Scroller.startScroll(startX, 0, dx, 0)` was last asked to do. */
  datatype Scroll = Scroll(startX: int, dx: int)

  /** What `OverScroller.fling(startX, 0, vx, vy, ...)` was last asked to do. */
  datatype Fling = Fling(startX: int, velocityX: int, velocityY: int)

  /** `computeChildTop(left, childWidth, childHeight)` with the `state.centerX`
      and `state.centerY` it reads passed in first: the square-root arc height. */
  type ArcTop = (int, int, int, int, int) -> int

  /** The state `computeChildFrame` reads: the children, `state`, the offset
      and the layout's own `measuredWidth`, whose half is the horizontal
      centre of the frames (`state.centerX` only feeds the arc height). */
  datatype Placement = Placement(children: seq<Child>, currentIndex: int, offset: real,
                                 measuredWidth: int, centerX: int, centerY: int, span: int)
  {
    /** `measuredWidth / 2`. */
    function Middle(): int { measuredWidth / 2 }
  }

  /** The release velocity (pixels per second) below which a drag settles instead of flinging. */
  const SettleVelocity: real := 2000.0

  /** The spacing between neighbouring children that `State` starts with. */
  const DefaultSpan: int := 60

  /** Kotlin's `Float.toInt()`: truncation toward zero. */
  function Trunc(r: real): (t: int)
    ensures r >= 0.0 ==> t as real <= r < t as real + 1.0
    ensures r < 0.0 ==> t as real - 1.0 < r <= t as real
  {
    if r >= 0.0 then r.Floor else -((-r).Floor)
  }

  /** The frame `computeChildFrame(index)` gives the child at `index`;
      None where `getChildAt(index)` is null and the call dereferences it. */
  function ChildFrame(p: Placement, arcTop: ArcTop, index: int): (r: Option<Rect>)
    ensures r.Some? <==> 0 <= index < |p.children|
    ensures r.Some? ==> r.value.Width() == FrameWidth(p.children, index)
  {
    if !(0 <= index < |p.children|) then None
    else
      var c := p.children[index];
      if |p.children| == 1 then
        Some(Rect(p.Middle() - c.width / 2, 0, p.Middle() + c.width / 2, c.height))
      else if |p.children| == 2 then
        var left := if index == 0 then p.Middle() - c.width - p.span else p.Middle() + p.span;
        Some(Rect(left, 0, left + c.width, c.height))
      else
        var childCenterX := p.Middle() + (index - p.currentIndex) * (c.width + p.span) + Trunc(p.offset);
        var left := childCenterX - c.width / 2;
        var top := arcTop(p.centerX, p.centerY, left, c.width, c.height);
        Some(Rect(left, top, left + c.width, top + c.height))
  }

  /** The width of a child's frame: its measured width, rounded down to an
      even number when it is the only child. It depends on neither offset nor
      current index. */
  function FrameWidth(children: seq<Child>, index: int): nat
    requires 0 <= index < |children|
  {
    if |children| == 1 then children[index].width - children[index].width % 2 else children[index].width
  }

  /** `anchorWidth` of `validateOffsetAndCurrentIndex`: half the current frame plus half the span. */
  function AnchorWidth(children: seq<Child>, index: int, span: int): (a: int)
    requires 0 <= index < |children|
    requires span >= 0
    ensures a >= 0
  {
    FrameWidth(children, index) / 2 + span / 2
  }

  /** The edge clamp: the second child cannot be pulled right, nor the
      second-to-last pulled left. */
  function ClampAtEnds(currentIndex: int, count: int, offset: real): (r: real)
    ensures currentIndex == 1 ==> r <= 0.0
    ensures currentIndex == count - 2 ==> r >= 0.0
    ensures r == offset || r == 0.0
    ensures (currentIndex != 1 || offset <= 0.0) && (currentIndex != count - 2 || offset >= 0.0) ==> r == offset
  {
    var o := if currentIndex == 1 && offset > 0.0 then 0.0 else offset;
    if currentIndex == count - 2 && o < 0.0 then 0.0 else o
  }

  /** The shift of at most one position: an offset beyond half a slot moves
      the current index by one and the offset by a whole slot (`2 * anchor`)
      the other way, so `offset - 2 * anchor * currentIndex` is conserved. */
  function ShiftOnce(currentIndex: int, offset: real, anchor: int): (r: (int, real))
    requires anchor >= 0
    ensures r.0 == currentIndex - 1 <==> offset > anchor as real
    ensures r.0 == currentIndex + 1 <==> offset < -(anchor as real)
    ensures r.0 == currentIndex <==> -(anchor as real) <= offset <= anchor as real
    ensures r.1 - (2 * anchor * r.0) as real == offset - (2 * anchor * currentIndex) as real
    ensures -(3 * anchor) as real <= offset <= (3 * anchor) as real ==> -(anchor as real) <= r.1 <= anchor as real
  {
    var (i, o) := if offset > anchor as real then (currentIndex - 1, offset - (anchor * 2) as real) else (currentIndex, offset);
    if o < 0.0 && -o > anchor as real then (i + 1, o + (anchor * 2) as real) else (i, o)
  }

  /** One `validateOffsetAndCurrentIndex` on a present current child: clamp, then shift. */
  function Resolve(currentIndex: int, count: int, offset: real, anchor: int): (r: (int, real))
    requires anchor >= 0
    ensures currentIndex - 1 <= r.0 <= currentIndex + 1
    ensures 1 <= currentIndex <= count - 2 ==> 1 <= r.0 <= count - 2
    ensures currentIndex == 1 && offset > 0.0 ==> r == (1, 0.0)
    ensures currentIndex == count - 2 && offset < 0.0 ==> r == (currentIndex, 0.0)
  {
    ShiftOnce(currentIndex, ClampAtEnds(currentIndex, count, offset), anchor)
  }

  /** The index and offset after a drag move by `delta`: the `arcScrollX`
      setter resolves once when the value changes, then `onTouchEvent`
      resolves once more. */
  function DragStep(children: seq<Child>, span: int, currentIndex: int, offset: real, delta: real): (r: (int, real))
    requires span >= 0
    requires 1 <= currentIndex <= |children| - 2
    ensures 1 <= r.0 <= |children| - 2
    ensures currentIndex - 2 <= r.0 <= currentIndex + 2
  {
    var (i, o) := if delta != 0.0 then Resolve(currentIndex, |children|, offset + delta, AnchorWidth(children, currentIndex, span))
                  else (currentIndex, offset);
    Resolve(i, |children|, o, AnchorWidth(children, i, span))
  }

  /** The scroll distance `smoothScrollTo(index)` computes; None where it
      dereferences a missing child. */
  function SettleDelta(p: Placement, arcTop: ArcTop, index: int): (r: Option<real>)
    ensures index == p.currentIndex ==> r == Some(-p.offset)
    ensures r.None? <==> index != p.currentIndex && !(0 <= index < |p.children| && 0 <= p.currentIndex < |p.children|)
  {
    if index == p.currentIndex then Some(-p.offset)
    else
      match (ChildFrame(p, arcTop, index), ChildFrame(p, arcTop, p.currentIndex))
      case (Some(f), Some(c)) => Some(-((f.CenterX() - c.CenterX()) as real + p.offset))
      case _ => None
  }

  /** Where `addItem` inserts the new child and the current index afterwards,
      given the old count and current index. None in the first component
      covers two cases: the `currentIndex == -1` branch with three or more
      children adds nothing, and an insertion index below zero, which the
      layout's invariant rules out and which this function does not model
      (the framework's `addView(view, -1)` appends, lower indices throw). */
  function AddPlacement(count: nat, currentIndex: int): (r: (Option<nat>, int))
    ensures count < 2 && currentIndex == -1 ==> r == (Some(0), -1)
    ensures count == 2 ==> r == (Some(1), 1)
    ensures count >= 3 && 1 <= currentIndex <= count - 2 ==>
      r.1 == currentIndex + count % 2 && r.0 == Some(r.1 as nat) && 1 <= r.1 <= (count + 1) - 2
  {
    var ci := if count == 2 then 1 else currentIndex;
    if ci == -1 then
      (if count == 0 then Some(count) else if count == 1 then Some(0) else None, ci)
    else
      var ci' := if count % 2 == 1 then ci + 1 else ci;
      (if ci' >= 0 then Some(ci' as nat) else None, ci')
  }

  /** The current index after `k` calls of `addItem` on an empty layout. */
  function IndexAfterAdds(k: nat): int
  {
    if k == 0 then -1 else AddPlacement(k - 1, IndexAfterAdds(k - 1)).1
  }

  /** With only `addItem` calls, the current child is the middle one. */
  lemma {:induction false} AddsKeepMiddle(k: nat)
    ensures k < 3 ==> IndexAfterAdds(k) == -1
    ensures k >= 3 ==> IndexAfterAdds(k) == k / 2
  {
    if k > 0 {
      AddsKeepMiddle(k - 1);
    }
  }

  /** With three or more children a frame is the child's own width, centred
      one slot (`width + span`) per index away from the layout centre, plus
      the truncated offset. */
  lemma FrameOnArc(p: Placement, arcTop: ArcTop, index: int)
    requires |p.children| >= 3 && 0 <= index < |p.children|
    ensures ChildFrame(p, arcTop, index).Some?
    ensures var f := ChildFrame(p, arcTop, index).value;
      var w := p.children[index].width;
      && f.Width() == w
      && f.left == p.Middle() + (index - p.currentIndex) * (w + p.span) + Trunc(p.offset) - w / 2
      && f.CenterX() == p.Middle() + (index - p.currentIndex) * (w + p.span) + Trunc(p.offset)
  {
  }

  /** Neighbouring children of equal width have centres one slot apart. */
  lemma AdjacentCentres(p: Placement, arcTop: ArcTop, index: int)
    requires |p.children| >= 3 && 0 <= index && index + 1 < |p.children|
    requires p.children[index].width == p.children[index + 1].width
    ensures ChildFrame(p, arcTop, index + 1).value.CenterX() - ChildFrame(p, arcTop, index).value.CenterX()
            == p.children[index].width + p.span
  {
    FrameOnArc(p, arcTop, index);
    FrameOnArc(p, arcTop, index + 1);
    var slot := p.children[index].width + p.span;
    assert (index + 1 - p.currentIndex) * slot == (index - p.currentIndex) * slot + slot;
  }

  /** A single child is centred on the layout. */
  lemma SingleChildCentred(p: Placement, arcTop: ArcTop)
    requires |p.children| == 1
    ensures var f := ChildFrame(p, arcTop, 0).value;
      f.CenterX() == p.Middle() && f.left <= p.Middle() <= f.right && f.top == 0 && f.bottom == p.children[0].height
  {
  }

  /** Two children sit one span either side of the centre. */
  lemma TwoChildrenBeside(p: Placement, arcTop: ArcTop)
    requires |p.children| == 2
    ensures ChildFrame(p, arcTop, 0).value.right == p.Middle() - p.span
    ensures ChildFrame(p, arcTop, 1).value.left == p.Middle() + p.span
    ensures ChildFrame(p, arcTop, 0).value.Width() == p.children[0].width
    ensures ChildFrame(p, arcTop, 1).value.Width() == p.children[1].width
  {
  }

  /** On the arc, settling to another child scrolls by that child's slot
      distance plus the current offset, in the opposite direction. */
  lemma SettleDeltaOnArc(p: Placement, arcTop: ArcTop, index: int)
    requires |p.children| >= 3
    requires 0 <= index < |p.children| && 0 <= p.currentIndex < |p.children|
    ensures SettleDelta(p, arcTop, index)
            == Some(-(((index - p.currentIndex) * (p.children[index].width + p.span)) as real + p.offset))
  {
    FrameOnArc(p, arcTop, index);
    FrameOnArc(p, arcTop, p.currentIndex);
  }

  /** A settle to the current child lands exactly: when the scroll position
      and the offset are whole numbers, assigning the settle's final value
      `startX + dx` to `arcScrollX` brings the offset to 0 and keeps the index. */
  lemma SettleLandsOnCurrent(arcScrollX: real, offset: real, currentIndex: int, count: int, anchor: int)
    requires anchor >= 0
    requires arcScrollX == arcScrollX.Floor as real && offset == offset.Floor as real
    ensures var finalX := (Trunc(arcScrollX) + Trunc(-offset)) as real;
      offset + (finalX - arcScrollX) == 0.0
      && Resolve(currentIndex, count, offset + (finalX - arcScrollX), anchor) == (currentIndex, 0.0)
  {
    TruncWhole(arcScrollX.Floor);
    TruncWhole(-offset.Floor);
  }

  /** With fractional values the same settle leaves a residual offset: each
      truncation is off by less than one, so the offset ends strictly within
      two pixels of 0, and with an anchor of at least two the index stays. */
  lemma SettleResidual(arcScrollX: real, offset: real, currentIndex: int, count: int, anchor: int)
    requires anchor >= 0
    ensures var residual := offset + ((Trunc(arcScrollX) + Trunc(-offset)) as real - arcScrollX);
      && -2.0 < residual < 2.0
      && (anchor >= 2 ==> Resolve(currentIndex, count, residual, anchor).0 == currentIndex)
  {
  }

  /** Truncating a whole number gives it back. */
  lemma TruncWhole(k: int)
    ensures Trunc(k as real) == k
  {
  }

  class ArcLayout {
    var children: seq<Child>
    var currentIndex: int
    var offset: real
    var arcScrollX: real
    var span: int
    /** The layout's `measuredWidth`. */
    var measuredWidth: nat
    /** `state.centerX` and `state.centerY`, the centre of the arc. */
    var centerX: int
    var centerY: int
    var dragging: bool
    var lastX: real
    var settle: Option<Scroll>
    var fling: Option<Fling>
    /** `computeChildTop(left, childWidth, childHeight)`, the square-root arc height. */
    const arcTop: ArcTop

    /** Fewer than three children have no current child; otherwise the
        current child is never the first or the last; a drag needs three. */
    ghost predicate Valid()
      reads this
    {
      && span >= 0
      && (|children| < 3 ==> currentIndex == -1)
      && (|children| >= 3 ==> 1 <= currentIndex <= |children| - 2)
      && (dragging ==> |children| >= 3)
    }

    function Layout(): Placement
      reads this
    {
      Placement(children, currentIndex, offset, measuredWidth, centerX, centerY, span)
    }

    constructor (arcTop: ArcTop)
      ensures Valid() && this.arcTop == arcTop
      ensures children == [] && currentIndex == -1 && offset == 0.0 && arcScrollX == 0.0
      ensures span == DefaultSpan && measuredWidth == 0 && centerX == 0 && centerY == 0
      ensures !dragging && settle == None && fling == None
    {
      this.arcTop := arcTop;
      children := [];
      currentIndex := -1;
      offset := 0.0;
      arcScrollX := 0.0;
      span := DefaultSpan;
      measuredWidth := 0;
      centerX := 0;
      centerY := 0;
      dragging := false;
      lastX := 0.0;
      settle := None;
      fling := None;
    }

    /** `onMeasure`: the framework settles the layout's measured width. */
    method OnMeasure(width: nat)
      modifies this`measuredWidth
      ensures measuredWidth == width
    {
      measuredWidth := width;
    }

    /** `onSizeChanged(w, ...)`: the arc is centred at half the width,
        `0.7 * w` down. */
    method OnSizeChanged(w: nat)
      modifies this`centerX, this`centerY
      ensures centerX == w / 2 && centerY == Trunc(w as real * 0.7)
      ensures 0 <= centerY && centerY as real <= w as real * 0.7 < centerY as real + 1.0
    {
      centerX := w / 2;
      centerY := Trunc(w as real * 0.7);
    }

    /** `computeChildFrame(index)` on the current state. */
    method ComputeChildFrame(index: int) returns (frame: Option<Rect>)
      ensures frame.Some? <==> 0 <= index < |children|
      ensures frame.Some? ==> frame.value.Width() == FrameWidth(children, index)
      ensures frame == ChildFrame(Layout(), arcTop, index)
    {
      frame := ChildFrame(Layout(), arcTop, index);
    }

    /** `validateOffsetAndCurrentIndex`: clamp at the ends, then shift by at
        most one position; a missing current child is dereferenced. */
    method ValidateOffsetAndCurrentIndex() returns (r: Outcome)
      requires Valid()
      modifies this`offset, this`currentIndex
      ensures Valid()
      ensures r == (if 0 <= old(currentIndex) < |children| then Pass else Fail(NullPointer))
      ensures r.Pass? ==> (currentIndex, offset)
                          == Resolve(old(currentIndex), |children|, old(offset), AnchorWidth(children, old(currentIndex), span))
      ensures r.Fail? ==> currentIndex == old(currentIndex) && offset == ClampAtEnds(old(currentIndex), |children|, old(offset))
    {
      ghost var clamped := ClampAtEnds(currentIndex, |children|, offset);
      if currentIndex == 1 {
        if offset > 0.0 {
          offset := 0.0;
        }
      }
      if currentIndex == |children| - 2 {
        if offset < 0.0 {
          offset := 0.0;
        }
      }
      assert offset == clamped;
      var frame := ComputeChildFrame(currentIndex);
      if frame.None? {
        return Fail(NullPointer);
      }
      var anchorWidth := frame.value.Width() / 2 + span / 2;
      assert anchorWidth == AnchorWidth(children, currentIndex, span);
      if offset > anchorWidth as real {
        currentIndex := currentIndex - 1;
        offset := offset - (anchorWidth * 2) as real;
      }
      if offset < 0.0 && -offset > anchorWidth as real {
        currentIndex := currentIndex + 1;
        offset := offset + (anchorWidth * 2) as real;
      }
      assert (currentIndex, offset) == ShiftOnce(old(currentIndex), clamped, anchorWidth);
      r := Pass;
    }

    /** The `arcScrollX` setter: a new value moves the offset by the change
        and resolves; the same value changes nothing. */
    method SetArcScrollX(value: real) returns (r: Outcome)
      requires Valid()
      modifies this`arcScrollX, this`offset, this`currentIndex
      ensures Valid() && arcScrollX == value
      ensures value == old(arcScrollX) ==> r == Pass && offset == old(offset) && currentIndex == old(currentIndex)
      ensures value != old(arcScrollX) ==>
        var moved := old(offset) + (value - old(arcScrollX));
        && (r.Pass? <==> 0 <= old(currentIndex) < |children|)
        && (r.Pass? ==> (currentIndex, offset) == Resolve(old(currentIndex), |children|, moved, AnchorWidth(children, old(currentIndex), span)))
        && (r.Fail? ==> currentIndex == old(currentIndex) && offset == ClampAtEnds(old(currentIndex), |children|, moved))
    {
      r := Pass;
      if arcScrollX != value {
        var delta := arcScrollX - value;
        arcScrollX := value;
        offset := offset - delta;
        r := ValidateOffsetAndCurrentIndex();
      }
    }

    /** `smoothScrollTo(index)`: start a settle scroll from the truncated
        scroll position by the truncated `SettleDelta`. */
    method SmoothScrollTo(index: int) returns (r: Outcome)
      requires Valid()
      modifies this`settle
      ensures Valid()
      ensures r.Pass? <==> SettleDelta(Layout(), arcTop, index).Some?
      ensures r.Pass? ==> settle == Some(Scroll(Trunc(arcScrollX), Trunc(SettleDelta(Layout(), arcTop, index).value)))
      ensures r.Fail? ==> r == Fail(NullPointer) && settle == old(settle)
    {
      var dx: real;
      if index == currentIndex {
        dx := -offset;
      } else {
        var frame := ChildFrame(Layout(), arcTop, index);
        var currentFrame := ChildFrame(Layout(), arcTop, currentIndex);
        if frame.None? || currentFrame.None? {
          return Fail(NullPointer);
        }
        dx := -((frame.value.CenterX() - currentFrame.value.CenterX()) as real + offset);
      }
      settle := Some(Scroll(Trunc(arcScrollX), Trunc(dx)));
      r := Pass;
    }

    /** `autoSettle`: settle back onto the current child, which never fails. */
    method AutoSettle()
      requires Valid()
      modifies this`settle
      ensures Valid()
      ensures settle == Some(Scroll(Trunc(arcScrollX), Trunc(-offset)))
    {
      var r := SmoothScrollTo(currentIndex);
    }

    /** `setCurrentIndex(index)`: a settle scroll toward `index`. */
    method SetCurrentIndex(index: int) returns (r: Outcome)
      requires Valid()
      modifies this`settle
      ensures Valid()
      ensures r.Pass? <==> SettleDelta(Layout(), arcTop, index).Some?
      ensures r.Pass? ==> settle == Some(Scroll(Trunc(arcScrollX), Trunc(SettleDelta(Layout(), arcTop, index).value)))
      ensures r.Fail? ==> settle == old(settle)
    {
      r := SmoothScrollTo(index);
    }

    /** `addItem(view)`: place the new child so the current child stays in the middle. */
    method AddItem(c: Child)
      requires Valid()
      modifies this`children, this`currentIndex
      ensures Valid()
      ensures var (at, ci) := AddPlacement(|old(children)|, old(currentIndex));
        && at.Some? && at.value <= |old(children)|
        && currentIndex == ci
        && children == old(children)[..at.value] + [c] + old(children)[at.value..]
    {
      if |children| == 2 {
        currentIndex := 1;
      }
      if currentIndex == -1 {
        if |children| == 0 {
          children := children + [c];
        } else if |children| == 1 {
          children := [c] + children;
        }
      } else {
        if |children| % 2 == 1 {
          currentIndex := currentIndex + 1;
        }
        children := children[..currentIndex] + [c] + children[currentIndex..];
      }
    }

    /** ACTION_DOWN: abort the fling and stop dragging. */
    method TouchDown(x: real)
      requires Valid()
      modifies this`fling, this`dragging, this`lastX
      ensures Valid()
      ensures fling == None && !dragging && lastX == x
    {
      fling := None;
      dragging := false;
      lastX := x;
    }

    /** ACTION_MOVE: start dragging once the move from the previous event
        exceeds the slop (three children or more); while dragging, scroll by
        the move. */
    method TouchMove(x: real, touchSlop: int)
      requires Valid()
      modifies this`dragging, this`lastX, this`arcScrollX, this`offset, this`currentIndex
      ensures Valid() && lastX == x
      ensures dragging == (old(dragging) || (|children| >= 3 && AbsReal(x - old(lastX)) > touchSlop as real))
      ensures !dragging ==> arcScrollX == old(arcScrollX) && offset == old(offset) && currentIndex == old(currentIndex)
      ensures dragging ==>
        && arcScrollX == old(arcScrollX) + (x - old(lastX))
        && (currentIndex, offset) == DragStep(children, span, old(currentIndex), old(offset), x - old(lastX))
    {
      if !dragging && |children| >= 3 {
        var xDelta := AbsReal(x - lastX);
        if xDelta > touchSlop as real {
          dragging := true;
        }
      }
      if dragging {
        var xDelta := x - lastX;
        var r := SetArcScrollX(arcScrollX + xDelta);
        r := ValidateOffsetAndCurrentIndex();
      }
      lastX := x;
    }

    /** ACTION_UP: a drag settles when the signed horizontal velocity is below
        2000 and flings otherwise. */
    method TouchUp(x: real, xVelocity: real, yVelocity: real)
      requires Valid()
      modifies this`lastX, this`settle, this`fling
      ensures Valid() && lastX == x
      ensures !dragging ==> settle == old(settle) && fling == old(fling)
      ensures dragging && xVelocity < SettleVelocity ==>
        settle == Some(Scroll(Trunc(arcScrollX), Trunc(-offset))) && fling == old(fling)
      ensures dragging && xVelocity >= SettleVelocity ==>
        fling == Some(Fling(Trunc(arcScrollX), Trunc(xVelocity), Trunc(yVelocity))) && settle == old(settle)
    {
      if dragging {
        if xVelocity < SettleVelocity {
          AutoSettle();
        } else {
          fling := Some(Fling(Trunc(arcScrollX), Trunc(xVelocity), Trunc(yVelocity)));
        }
      }
      lastX := x;
    }
  }
}
