/** The ray overlay of design/.../raylayout: `RayDrawable` (an ordered
    registry of ray animations, each with a time-derived progress fraction
    and a completion rule), its `AnimationSet` chaining, and the extension
    functions of `RayDrawableExts.kt` (integer bounds of views, the endpoint
    circles, and pre-draw listeners that keep an endpoint on a moving view
    and unsubscribe once their ray is gone).

    Float coordinates are `real`; the clock is the parameter `now`
    (milliseconds, as `SystemClock.elapsedRealtime()` reports them); a view is
    reduced to its screen location and measured size; `atan` and the square
    root of the ray length are left symbolic (`Degree`) or passed in
    (`distance`). */
module Ray {
  import opened Wrappers
  import opened Graphics

  // ---------------------------------------------------------------------
  // Geometry

  /** android.graphics.PointF */
  datatype Point = Point(x: real, y: real)

  /** `RayDrawable.Circle`. */
  datatype Circle = Circle(center: Point, radius: real)

  /** android.graphics.RectF */
  datatype RectF = RectF(left: real, top: real, right: real, bottom: real)

  /** A view as the helpers see it: `getLocationOnScreen` and its measured size. */
  datatype ViewBox = ViewBox(screenX: int, screenY: int, measuredWidth: int, measuredHeight: int)

  /** `getBoundsInScreen()`: the measured rectangle moved to the screen location. */
  function BoundsInScreen(v: ViewBox): (r: Rect)
    ensures r == Rect(v.screenX, v.screenY, v.screenX + v.measuredWidth, v.screenY + v.measuredHeight)
  {
    Rect(0, 0, v.measuredWidth, v.measuredHeight).Offset(v.screenX, v.screenY)
  }

  /** `getBoundsInContainer(container)`: the screen bounds relative to the
      container's top-left corner. */
  function BoundsInContainer(v: ViewBox, container: ViewBox): (r: Rect)
    ensures r.Width() == v.measuredWidth && r.Height() == v.measuredHeight
    ensures r.left == v.screenX - container.screenX && r.top == v.screenY - container.screenY
  {
    var containerBounds := BoundsInScreen(container);
    BoundsInScreen(v).Offset(-containerBounds.left, -containerBounds.top)
  }

  /** `getCenterPoint(container)`: the screen centre, moved by minus the
      container's top-left corner. It is the centre of the bounds in the
      container (rounding the halved sum commutes with a whole-number
      translation): the view's corner there plus half its size, rounded down. */
  function CenterPoint(v: ViewBox, container: ViewBox): (r: Point)
    ensures r == Point(BoundsInContainer(v, container).CenterX() as real, BoundsInContainer(v, container).CenterY() as real)
    ensures r.x == (v.screenX - container.screenX + v.measuredWidth / 2) as real
    ensures r.y == (v.screenY - container.screenY + v.measuredHeight / 2) as real
  {
    var bounds := BoundsInScreen(v);
    var containerBounds := BoundsInScreen(container);
    Point(bounds.CenterX() as real - containerBounds.left as real, bounds.CenterY() as real - containerBounds.top as real)
  }

  /** `getInnerCircle(container)`: centred on the view, its diameter the
      shorter measured side. */
  function InnerCircle(v: ViewBox, container: ViewBox): (r: Circle)
    ensures r.center == CenterPoint(v, container)
    ensures 2.0 * r.radius == Min(v.measuredWidth, v.measuredHeight) as real
  {
    var bounds := BoundsInContainer(v, container);
    Circle(Point(bounds.CenterX() as real, bounds.CenterY() as real), Min(bounds.Width(), bounds.Height()) as real / 2.0)
  }

  /** `getOuterCircle(container)`: centred on the view, its diameter the
      longer measured side. */
  function OuterCircle(v: ViewBox, container: ViewBox): (r: Circle)
    ensures r.center == CenterPoint(v, container)
    ensures 2.0 * r.radius == Max(v.measuredWidth, v.measuredHeight) as real
  {
    var bounds := BoundsInContainer(v, container);
    Circle(Point(bounds.CenterX() as real, bounds.CenterY() as real), Max(bounds.Width(), bounds.Height()) as real / 2.0)
  }

  /** The inner and outer circles of a view are concentric and the inner one
      is never the larger. */
  lemma InnerWithinOuter(v: ViewBox, container: ViewBox)
    ensures InnerCircle(v, container).center == OuterCircle(v, container).center
    ensures InnerCircle(v, container).radius <= OuterCircle(v, container).radius
  {
  }

  /** An angle in degrees: exact, or `atan(ratio) * 180 / PI`, left symbolic. */
  datatype Degree = Exactly(degrees: real) | ArcTangentDegrees(ratio: real)

  /** `degreeToVertical`: the rotation from the vertical of the ray from
      `from` to `to`; a horizontal ray points right (90) or else left (270),
      which avoids dividing by a zero height. */
  function DegreeToVertical(from: Point, to: Point): (d: Degree)
    ensures from.y == to.y ==> d == Exactly(if to.x > from.x then 90.0 else 270.0)
    ensures from.y != to.y ==> d.ArcTangentDegrees? && d.ratio * (from.y - to.y) == to.x - from.x
  {
    var dx := to.x - from.x;
    var dy := -(to.y - from.y);
    if dy == 0.0 then Exactly(if dx > 0.0 then 90.0 else 270.0)
    else ArcTangentDegrees(dx / dy)
  }

  /** The `fraction` getter: 1 for a zero duration, else the elapsed time,
      capped at the duration, over the duration. */
  function FractionAt(duration: int, startTime: int, now: int): (f: real)
    ensures duration == 0 ==> f == 1.0
    ensures now >= startTime ==> 0.0 <= f <= 1.0
    ensures now >= startTime ==> (f == 1.0 <==> now - startTime >= duration)
  {
    if duration == 0 then 1.0
    else FractionOf(Min(now - startTime, duration), duration)
  }

  function FractionOf(elapsed: int, duration: int): (f: real)
    requires duration != 0
    ensures 0 <= elapsed <= duration ==> 0.0 <= f <= 1.0 && (f == 1.0 <==> elapsed == duration)
    ensures elapsed == duration ==> f == 1.0
  {
    var f := elapsed as real / duration as real;
    assert f * duration as real == elapsed as real;
    f
  }

  /** Once complete, a ray stays complete: the completion rule fires on every
      later draw pass, for a persistent ray too. */
  lemma FractionStaysComplete(duration: int, startTime: int, now: int, later: int)
    requires startTime <= now <= later
    requires FractionAt(duration, startTime, now) == 1.0
    ensures FractionAt(duration, startTime, later) == 1.0
  {
  }

  /** The progress never goes back while time moves on. */
  lemma {:induction false} FractionMonotone(duration: int, startTime: int, now: int, later: int)
    requires duration > 0 && now <= later
    ensures FractionAt(duration, startTime, now) <= FractionAt(duration, startTime, later)
  {
    var a := Min(now - startTime, duration) as real;
    var b := Min(later - startTime, duration) as real;
    var d := duration as real;
    assert a <= b;
    assert FractionAt(duration, startTime, now) == a / d;
    assert FractionAt(duration, startTime, later) == b / d;
    DivideMonotone(a, b, d);
  }

  lemma DivideMonotone(a: real, b: real, d: real)
    requires a <= b && d > 0.0
    ensures a / d <= b / d
  {
  }

  /** The top of the clip rectangle in `drawRay`: `bottom` at fraction 0 (an
      empty clip), `top` at fraction 1, and in between for fractions in between. */
  function ClipTop(top: real, bottom: real, fraction: real): (y: real)
    ensures fraction == 0.0 ==> y == bottom
    ensures fraction == 1.0 ==> y == top
    ensures 0.0 <= fraction <= 1.0 && top <= bottom ==> top <= y <= bottom
  {
    var y := (top - bottom) * fraction + bottom;
    NonNegativeProduct(bottom - top, fraction);
    NonNegativeProduct(bottom - top, 1.0 - fraction);
    assert bottom - y == (bottom - top) * fraction;
    assert y - top == (bottom - top) * (1.0 - fraction);
    y
  }

  lemma NonNegativeProduct(a: real, b: real)
    ensures a >= 0.0 && b >= 0.0 ==> a * b >= 0.0
  {
  }

  /** The clip rectangle `drawRay` applies before the rotation: the bitmap's
      width around the start centre, from the start circle's edge toward the
      end circle's edge (`distance` is the centre distance), grown by `fraction`:
      it is the bitmap's width, hangs from the start circle's edge, and shows
      none of the ray at fraction 0 and all of it at fraction 1. */
  function ClipRect(from: Circle, to: Circle, bitmapWidth: nat, distance: real, fraction: real): (c: RectF)
    ensures c.right - c.left == (2 * (bitmapWidth / 2)) as real
    ensures c.bottom == from.center.y - from.radius
    ensures fraction == 0.0 ==> c.top == c.bottom
    ensures fraction == 1.0 ==> c.top == from.center.y - (distance - to.radius)
  {
    var left := from.center.x - (bitmapWidth / 2) as real;
    var right := from.center.x + (bitmapWidth / 2) as real;
    var top := from.center.y - (distance - to.radius);
    var bottom := from.center.y - from.radius;
    RectF(left, ClipTop(top, bottom, fraction), right, bottom)
  }

  // ---------------------------------------------------------------------
  // Lists

  ghost predicate Distinct<T>(s: seq<T>)
  {
    forall i, j :: 0 <= i < j < |s| ==> s[i] != s[j]
  }

  /** The position of the first occurrence of `x` in `s`. */
  function FirstIndex<T(==)>(s: seq<T>, x: T): (i: nat)
    requires x in s
    ensures i < |s| && s[i] == x && x !in s[..i]
    decreases |s|
  {
    if s[0] == x then 0
    else
      var j := FirstIndex(s[1..], x);
      assert s[..j + 1] == [s[0]] + s[1..][..j];
      j + 1
  }

  /** `MutableList.remove(x)`: drop the first occurrence of `x`, if any,
      keeping the rest in order: the elements before it stay where they
      are and the ones after it move down by one. */
  function RemoveFirst<T(==)>(s: seq<T>, x: T): (r: seq<T>)
    ensures x !in s ==> r == s
    ensures x in s ==> |r| == |s| - 1
    ensures x in s ==> forall k :: 0 <= k < |r| ==> r[k] == s[if k < FirstIndex(s, x) then k else k + 1]
    ensures multiset(r) == multiset(s) - multiset{x}
  {
    if x in s then
      var i := FirstIndex(s, x);
      assert s == s[..i] + [x] + s[i + 1..];
      s[..i] + s[i + 1..]
    else
      s
  }

  /** In a list without repeats, removing `x` leaves exactly the others,
      still without repeats. */
  lemma RemoveFirstDistinct<T>(s: seq<T>, x: T)
    requires Distinct(s)
    ensures Distinct(RemoveFirst(s, x))
    ensures forall y :: y in RemoveFirst(s, x) <==> y in s && y != x
  {
    if x in s {
      var i := FirstIndex(s, x);
      var r := RemoveFirst(s, x);
      forall a, b | 0 <= a < b < |r| ensures r[a] != r[b] {
        assert r[a] == s[if a < i then a else a + 1];
        assert r[b] == s[if b < i then b else b + 1];
      }
      forall y ensures y in r <==> y in s && y != x {
        if y in r {
          var k :| 0 <= k < |r| && r[k] == y;
          assert y == s[if k < i then k else k + 1];
        }
        if y in s && y != x {
          var j :| 0 <= j < |s| && s[j] == y;
          var k := if j < i then j else j - 1;
          assert r[k] == y;
        }
      }
    }
  }

  // ---------------------------------------------------------------------
  // The registry

  /** A call on a ray's `AnimationListener`. */
  datatype ListenerCall = OnStart | OnEnd

  /** `RayAnimationInfo`: the two endpoint circles, timing, persistence and listener. */
  class RayAnimationInfo {
    var fromCircle: Circle
    var toCircle: Circle
    var startTime: int
    var isPersistent: bool
    var started: bool
    var duration: int
    /** Whether `listener` is set. */
    var hasListener: bool
    /** The calls made on `listener`, oldest first. */
    var listenerCalls: seq<ListenerCall>

    constructor (fromCircle: Circle, toCircle: Circle)
      ensures this.fromCircle == fromCircle && this.toCircle == toCircle
      ensures startTime == 0 && !isPersistent && !started && duration == 0
      ensures !hasListener && listenerCalls == []
    {
      this.fromCircle := fromCircle;
      this.toCircle := toCircle;
      startTime := 0;
      isPersistent := false;
      started := false;
      duration := 0;
      hasListener := false;
      listenerCalls := [];
    }

    function Fraction(now: int): real
      reads this
    {
      FractionAt(duration, startTime, now)
    }

    /** `start()`: record the start time and tell the listener. */
    method Start(now: int)
      modifies this`startTime, this`started, this`listenerCalls
      ensures startTime == now && started
      ensures listenerCalls == old(listenerCalls) + (if hasListener then [OnStart] else [])
    {
      startTime := now;
      started := true;
      if hasListener {
        listenerCalls := listenerCalls + [OnStart];
      }
    }

    /** `doOnEnd()`: no longer started; tell the listener. */
    method DoOnEnd()
      modifies this`started, this`listenerCalls
      ensures !started
      ensures listenerCalls == old(listenerCalls) + (if hasListener then [OnEnd] else [])
    {
      started := false;
      if hasListener {
        listenerCalls := listenerCalls + [OnEnd];
      }
    }
  }

  class RayDrawable {
    /** `rayAnimationInfoList`, in drawing order. */
    var rays: seq<RayAnimationInfo>
    /** `rayBitmap.width`. */
    const bitmapWidth: nat

    /** Each ray object is registered at most once. */
    ghost predicate Valid()
      reads this
    {
      Distinct(rays)
    }

    constructor (bitmapWidth: nat)
      ensures Valid() && rays == [] && this.bitmapWidth == bitmapWidth
    {
      rays := [];
      this.bitmapWidth := bitmapWidth;
    }

    /** `hasRay(info)`, taken as list membership: true exactly when
        `removeRay(info)` would unregister something. */
    function HasRay(info: RayAnimationInfo): (b: bool)
      reads this
      ensures b <==> |RemoveFirst(rays, info)| == |rays| - 1
      ensures !b <==> RemoveFirst(rays, info) == rays
    {
      info in rays
    }

    /** `addRay(from, to)`: register and return a new ray. */
    method AddRay(from: Circle, to: Circle) returns (info: RayAnimationInfo)
      requires Valid()
      modifies this`rays
      ensures Valid() && fresh(info)
      ensures rays == old(rays) + [info]
      ensures info.fromCircle == from && info.toCircle == to
      ensures info.startTime == 0 && !info.isPersistent && !info.started && info.duration == 0
      ensures !info.hasListener && info.listenerCalls == []
    {
      info := new RayAnimationInfo(from, to);
      rays := rays + [info];
    }

    /** `removeRay(ray)`: unregister the ray; an absent ray changes nothing. */
    method RemoveRay(ray: RayAnimationInfo)
      requires Valid()
      modifies this`rays
      ensures Valid()
      ensures rays == RemoveFirst(old(rays), ray)
      ensures !HasRay(ray)
      ensures forall r :: r in rays <==> r in old(rays) && r != ray
    {
      RemoveFirstDistinct(rays, ray);
      rays := RemoveFirst(rays, ray);
    }

    /** `doOnEnd(ray)`: a non-persistent ray is unregistered; either way it ends. */
    method DoOnEnd(ray: RayAnimationInfo)
      requires Valid()
      modifies this`rays, ray`started, ray`listenerCalls
      ensures Valid()
      ensures rays == if old(ray.isPersistent) then old(rays) else RemoveFirst(old(rays), ray)
      ensures !ray.started
      ensures ray.listenerCalls == old(ray.listenerCalls) + (if ray.hasListener then [OnEnd] else [])
    {
      if !ray.isPersistent {
        RemoveRay(ray);
      }
      ray.DoOnEnd();
    }

    /** The completion check at the end of `drawRay(canvas, ray)`: a ray with
        a non-zero duration whose fraction has reached 1 ends. */
    method CompleteIfDone(ray: RayAnimationInfo, now: int) returns (ended: bool)
      requires Valid()
      modifies this`rays, ray`started, ray`listenerCalls
      ensures Valid()
      ensures ended == (old(ray.duration) != 0 && old(ray.Fraction(now)) == 1.0)
      ensures ended ==> !ray.started
                        && rays == (if ray.isPersistent then old(rays) else RemoveFirst(old(rays), ray))
                        && ray.listenerCalls == old(ray.listenerCalls) + (if ray.hasListener then [OnEnd] else [])
      ensures !ended ==> rays == old(rays) && ray.started == old(ray.started) && ray.listenerCalls == old(ray.listenerCalls)
      ensures ended && ray in old(rays) ==> (HasRay(ray) <==> ray.isPersistent)
    {
      ended := ray.duration != 0 && ray.Fraction(now) == 1.0;
      if ended {
        RemoveFirstDistinct(rays, ray);
        DoOnEnd(ray);
      }
    }
  }

  // ---------------------------------------------------------------------
  // Pre-draw listeners (RayDrawableExts.kt)

  /** Which endpoint of a ray a listener keeps up to date. */
  datatype Endpoint = FromEnd | ToEnd

  /** A `ViewTreeObserver`: the pre-draw listeners, in dispatch order. */
  class TreeObserver {
    var listeners: seq<PreDrawListener>

    constructor ()
      ensures listeners == []
    {
      listeners := [];
    }
  }

  /** A view: where it is on the screen, its size, and the tree observer it reports to. */
  class View {
    var box: ViewBox
    const observer: TreeObserver

    constructor (box: ViewBox, observer: TreeObserver)
      ensures this.box == box && this.observer == observer
    {
      this.box := box;
      this.observer := observer;
    }
  }

  /** The `OnPreDrawListener` the extension `addRay` installs on one endpoint view. */
  class PreDrawListener {
    const drawable: RayDrawable
    const info: RayAnimationInfo
    const view: View
    const overlay: View
    const end: Endpoint

    constructor (drawable: RayDrawable, info: RayAnimationInfo, view: View, overlay: View, end: Endpoint)
      ensures this.drawable == drawable && this.info == info && this.view == view
      ensures this.overlay == overlay && this.end == end
    {
      this.drawable := drawable;
      this.info := info;
      this.view := view;
      this.overlay := overlay;
      this.end := end;
    }

    /** `onPreDraw()`: while the ray is registered, move its endpoint to the
        view's current centre and let drawing proceed; once it is not,
        unsubscribe and leave the ray alone. */
    method OnPreDraw() returns (proceed: bool)
      modifies info`fromCircle, info`toCircle, view.observer`listeners
      ensures proceed == drawable.HasRay(info)
      ensures proceed ==>
        && view.observer.listeners == old(view.observer.listeners)
        && var c := CenterPoint(view.box, overlay.box);
           if end == FromEnd then
             info.fromCircle == old(info.fromCircle).(center := c) && info.toCircle == old(info.toCircle)
           else
             info.toCircle == old(info.toCircle).(center := c) && info.fromCircle == old(info.fromCircle)
      ensures !proceed ==>
        && view.observer.listeners == RemoveFirst(old(view.observer.listeners), this)
        && info.fromCircle == old(info.fromCircle) && info.toCircle == old(info.toCircle)
    {
      if drawable.HasRay(info) {
        var center := CenterPoint(view.box, overlay.box);
        if end == FromEnd {
          info.fromCircle := info.fromCircle.(center := center);
        } else {
          info.toCircle := info.toCircle.(center := center);
        }
        proceed := true;
      } else {
        view.observer.listeners := RemoveFirst(view.observer.listeners, this);
        proceed := false;
      }
    }
  }

  /** `RayInfoHolder`: what the extension `addRay` hands back so its
      listeners can be removed later. */
  class RayInfoHolder {
    const fromView: View
    const toView: View
    const fromListener: PreDrawListener
    const toListener: PreDrawListener
    const info: RayAnimationInfo

    constructor (fromView: View, toView: View, fromListener: PreDrawListener, toListener: PreDrawListener, info: RayAnimationInfo)
      ensures this.fromView == fromView && this.toView == toView
      ensures this.fromListener == fromListener && this.toListener == toListener && this.info == info
    {
      this.fromView := fromView;
      this.toView := toView;
      this.fromListener := fromListener;
      this.toListener := toListener;
      this.info := info;
    }

    /** `destroy()`: remove each listener from its view's observer when the
        weakly held listener and view are both still reachable. */
    method Destroy(fromListenerReachable: bool, fromViewReachable: bool, toListenerReachable: bool, toViewReachable: bool)
      modifies fromView.observer`listeners, toView.observer`listeners
      ensures var removeFrom := fromListenerReachable && fromViewReachable;
        var removeTo := toListenerReachable && toViewReachable;
        var once := if removeFrom then RemoveFirst(old(fromView.observer.listeners), fromListener)
                    else old(fromView.observer.listeners);
        if fromView.observer == toView.observer then
          fromView.observer.listeners == (if removeTo then RemoveFirst(once, toListener) else once)
        else
          && fromView.observer.listeners == once
          && toView.observer.listeners == (if removeTo then RemoveFirst(old(toView.observer.listeners), toListener)
                                           else old(toView.observer.listeners))
    {
      if fromListenerReachable && fromViewReachable {
        fromView.observer.listeners := RemoveFirst(fromView.observer.listeners, fromListener);
      }
      if toListenerReachable && toViewReachable {
        toView.observer.listeners := RemoveFirst(toView.observer.listeners, toListener);
      }
    }
  }

  /** The extension `RayDrawable.addRay(overlayView, fromView, toView)`:
      register one ray between the views' inner circles and subscribe one
      listener per endpoint view. */
  method AddRayBetween(drawable: RayDrawable, overlay: View, fromView: View, toView: View) returns (holder: RayInfoHolder)
    requires drawable.Valid()
    modifies drawable`rays, fromView.observer`listeners, toView.observer`listeners
    ensures drawable.Valid()
    ensures fresh(holder) && fresh(holder.info) && fresh(holder.fromListener) && fresh(holder.toListener)
    ensures drawable.rays == old(drawable.rays) + [holder.info]
    ensures holder.info.fromCircle == InnerCircle(fromView.box, overlay.box)
    ensures holder.info.toCircle == InnerCircle(toView.box, overlay.box)
    ensures holder.fromView == fromView && holder.toView == toView
    ensures holder.fromListener.drawable == drawable && holder.fromListener.info == holder.info
    ensures holder.fromListener.view == fromView && holder.fromListener.overlay == overlay && holder.fromListener.end == FromEnd
    ensures holder.toListener.drawable == drawable && holder.toListener.info == holder.info
    ensures holder.toListener.view == toView && holder.toListener.overlay == overlay && holder.toListener.end == ToEnd
    ensures if fromView.observer == toView.observer then
        fromView.observer.listeners == old(fromView.observer.listeners) + [holder.fromListener, holder.toListener]
      else
        && fromView.observer.listeners == old(fromView.observer.listeners) + [holder.fromListener]
        && toView.observer.listeners == old(toView.observer.listeners) + [holder.toListener]
  {
    var fromCircle := InnerCircle(fromView.box, overlay.box);
    var toCircle := InnerCircle(toView.box, overlay.box);
    var info := drawable.AddRay(fromCircle, toCircle);
    var fromListener := new PreDrawListener(drawable, info, fromView, overlay, FromEnd);
    var toListener := new PreDrawListener(drawable, info, toView, overlay, ToEnd);
    fromView.observer.listeners := fromView.observer.listeners + [fromListener];
    toView.observer.listeners := toView.observer.listeners + [toListener];
    holder := new RayInfoHolder(fromView, toView, fromListener, toListener, info);
  }

  // ---------------------------------------------------------------------
  // Animations

  /** An `Animation`'s `doOnEnd`: nothing (`{}`), or the hook an
      `AnimationSet` installs on its child at `index`. */
  datatype EndHook = NoHook | ChainFrom(index: nat)

  /** `RayDrawable.Animation`. */
  class Animation {
    var running: bool
    var startTime: int
    var duration: int
    var doOnEnd: EndHook

    constructor ()
      ensures !running && startTime == 0 && duration == 0 && doOnEnd == NoHook
    {
      running := false;
      startTime := 0;
      duration := 0;
      doOnEnd := NoHook;
    }

    function Fraction(now: int): real
      reads this
    {
      FractionAt(duration, startTime, now)
    }

    /** `start()`: running from `now`. */
    method Start(now: int)
      modifies this`running, this`startTime
      ensures running && startTime == now
    {
      running := true;
      startTime := now;
    }
  }

  /** The set's own `doOnStart` and `doOnEnd` calls. */
  datatype SetCall = SetStarted | SetEnded

  /** `RayDrawable.AnimationSet`: its children run one after another. */
  class AnimationSet {
    var running: bool
    /** `list`. */
    const children: seq<Animation>
    /** The calls of the set's `doOnStart` and `doOnEnd`, oldest first. */
    var calls: seq<SetCall>

    /** The children are distinct and each carries no hook or the hook for its own position. */
    ghost predicate Valid()
      reads this, children
    {
      && Distinct(children)
      && forall i :: 0 <= i < |children| ==> children[i].doOnEnd in {NoHook, ChainFrom(i)}
    }

    constructor (children: seq<Animation>)
      requires Distinct(children)
      requires forall i :: 0 <= i < |children| ==> children[i].doOnEnd == NoHook
      ensures Valid() && this.children == children && !running && calls == []
    {
      this.children := children;
      running := false;
      calls := [];
    }

    /** `start()`: running, `doOnStart`, then the first child; an empty set
        fails on `list[0]`. */
    method Start(now: int) returns (r: Outcome)
      requires Valid()
      modifies this`running, this`calls, children
      ensures Valid() && running
      ensures calls == old(calls) + [SetStarted]
      ensures r == if |children| == 0 then Fail(IndexOutOfBounds) else Pass
      ensures |children| > 0 ==> children[0].running && children[0].startTime == now && children[0].doOnEnd == ChainFrom(0)
      ensures |children| > 0 ==> children[0].duration == old(children[0].duration)
      ensures forall i :: 0 < i < |children| ==> unchanged(children[i])
    {
      running := true;
      calls := calls + [SetStarted];
      if |children| == 0 {
        return Fail(IndexOutOfBounds);
      }
      StartAnimation(0, now);
      r := Pass;
    }

    /** `startAnimation(index)`: hook the child's end to the next step, then start it. */
    method StartAnimation(index: nat, now: int)
      requires Valid() && index < |children|
      modifies children[index]
      ensures Valid()
      ensures children[index].running && children[index].startTime == now && children[index].doOnEnd == ChainFrom(index)
      ensures children[index].duration == old(children[index].duration)
    {
      children[index].doOnEnd := ChainFrom(index);
      children[index].Start(now);
    }

    /** The child at `index` invokes its `doOnEnd`: a chained child starts the
        next one, and the last one ends the set. */
    method ChildEnded(index: nat, now: int)
      requires Valid() && index < |children|
      modifies this`calls, children
      ensures Valid()
      ensures old(children[index].doOnEnd) == NoHook ==> calls == old(calls) && forall i :: 0 <= i < |children| ==> unchanged(children[i])
      ensures old(children[index].doOnEnd) == ChainFrom(index) && index == |children| - 1 ==>
        calls == old(calls) + [SetEnded] && forall i :: 0 <= i < |children| ==> unchanged(children[i])
      ensures old(children[index].doOnEnd) == ChainFrom(index) && index < |children| - 1 ==>
        && calls == old(calls)
        && children[index + 1].running && children[index + 1].startTime == now
        && children[index + 1].doOnEnd == ChainFrom(index + 1)
        && children[index + 1].duration == old(children[index + 1].duration)
        && forall i :: 0 <= i < |children| && i != index + 1 ==> unchanged(children[i])
    {
      match children[index].doOnEnd
      case NoHook =>
      case ChainFrom(k) =>
        if k == |children| - 1 {
          calls := calls + [SetEnded];
        } else {
          StartAnimation(k + 1, now);
        }
    }
  }
}
