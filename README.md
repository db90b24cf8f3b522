# Verified model of the Android support widgets

This project is a Dafny model of four widget components of an Android
support library, with proofs about each:

- **`ArcLayout`** (`arc_layout.dfy`, module `Arc`) is a horizontal carousel.
  - A floating scroll position (`arcScrollX`) moves a signed `offset` of the centred child.
  - `validateOffsetAndCurrentIndex` clamps the offset at both ends, then moves `currentIndex` by at most one slot.
  - `addItem` inserts children so that the current one stays in the middle.
  - A drag settles back onto a child, or flings, depending on the release velocity.
- **`RayDrawable`** and its extensions (`ray_drawable.dfy`, module `Ray`) draw rays.
  - The drawable keeps an ordered registry of ray animations.
  - Each ray has a progress fraction derived from the clock.
  - When a ray completes, a non-persistent ray is dropped and a persistent one is kept.
  - An `AnimationSet` runs its children one after another.
  - The extensions compute the integer bounds and endpoint circles of views, and install pre-draw listeners.
  - A listener keeps its endpoint on a moving view, and unsubscribes once its ray is gone.
- **`DataRecycleViewAdapter` / `BaseRecycleAdapter`** (`recycler_adapter.dfy`, module `RecyclerView`).
  - The item list supports positional insert, remove and replace, including the `-1` "last position" sentinel.
  - Each change is reported as a `notify*` notification.
  - A registry assigns consecutive view types to model classes.
  - A latch triggers "load more" at most once per page.
  - A stable sort orders items by registration order.
- **`FloatWindowHelper`** (`float_window.dfy`, module `FloatWindow`) is an overlay window.
  - It can be shown, hidden and toggled.
  - It is dragged by adding each move's delta to its layout position.
  - After a drag it can snap to the nearer screen edge.

`wrappers.dfy` (module `Wrappers`) holds `Option`, `Result` and `Outcome`.
`graphics.dfy` (module `Graphics`) holds `android.graphics.Rect` and the
`kotlin.math` helpers the four components share.

**Exceptions.** A JVM exception that the modelled code itself raises is modelled as a returned failure, never as a precondition. Examples:
- a null child from `getChildAt`;
- an out-of-range list index;
- a bad `subList` bound;
- a duplicate registration.

Failures inside framework calls are not modelled: `WindowManager.addView`, `removeView` and `updateViewLayout` are entries in a call log that always succeed.

**Parameters and logs.** I/O and framework calls become parameters or logs:
- the clock is the argument `now`;
- touch coordinates and release velocities are arguments;
- the `WindowManager` and `notify*` calls are appended to logs;
- the settle and fling scrollers keep only the last scroll they were asked to start (`settle`, `fling`), and a touch-down clears the fling;
- the square-root arc height `computeChildTop` is the uninterpreted function `arcTop`.

**Numbers.** Kotlin `Float` values are `real`, and `Float.toInt()` is explicit truncation toward zero (`Arc.Trunc`). `Rect.centerX()` is `(left + right) >> 1`, which is Dafny's floor division by 2.

**Where the code is followed over the documented behaviour:**
- `smoothScrollTo` does not reject an out-of-range index; it dereferences the missing child (`Fail(NullPointer)`).
- Offset renormalisation moves by a single step; a drag move resolves once in the `arcScrollX` setter and once more in `onTouchEvent` (`Arc.DragStep`).
- The fling threshold compares the signed velocity with the literal 2000.
- `ACTION_DOWN` aborts only the fling scroller; a running settle scroll is left alone (ArcLayout.kt:187-189).
- The drag slop is measured from `lastPoint`, the previous touch event, not from the down point (ArcLayout.kt:198).
- The completion check in `drawRay` does not look at `started`.
- Ray removal happens at once, not deferred.
- `remove(start, end)` with `start > end` lengthens the list; the range notification then has a negative count.
- `getItemViewType` never raises its `IllegalStateException`: `getViewTypeByModel` checks `containsKey` first, so an unregistered class yields -1.
- `AnimationSet.list` is private and has no adder, so its children are given to the constructor.
- `hasRay(info)`, called by the pre-draw listeners, is defined in none of the source files. The model takes it as membership of `info` in the drawable's ray list.
- Two `View.getBoundsInScreen()` extensions exist. The model follows RayDrawableExts.kt:83-89, which places the measured size at `getLocationOnScreen`. The one at RayDrawable.kt:276-280 uses the view's `x`/`y` instead and is not modelled.
- `computeChildFrame` centres frames on `measuredWidth / 2`. The `state.centerX` set in `onSizeChanged` only enters the arc height (`computeChildTop`), so the two are kept apart.

## Model

Paths are abbreviated:
- `arclayout/` is `design/src/main/java/com/antiless/support/design/arclayout/`;
- `raylayout/` is `design/src/main/java/com/antiless/support/design/raylayout/`;
- `recyclerview/` is `base/src/main/java/com/antiless/base/widget/recyclerview/`;
- `floatwindow/` is `base/src/main/java/com/antiless/base/widget/floatwindow/`.

The source column gives the full path.

| member | source | states |
|---|---|---|
| Arc.Trunc | design/src/main/java/com/antiless/support/design/arclayout/ArcLayout.kt:281 | `offset.toInt()` truncates toward zero: the result is within one of the value, on the side of zero |
| Arc.ChildFrame | design/src/main/java/com/antiless/support/design/arclayout/ArcLayout.kt:254-287 | a frame exists exactly when `getChildAt(index)` is non-null (index in range), and its width is the child's width (rounded to even for a single child) |
| Arc.ArcLayout.ComputeChildFrame | design/src/main/java/com/antiless/support/design/arclayout/ArcLayout.kt:254-287 | on the current state: a frame exactly for an index in range, of the `FrameWidth` |
| Arc.AnchorWidth | design/src/main/java/com/antiless/support/design/arclayout/ArcLayout.kt:124 | half the current frame plus half the span is never negative |
| Arc.ClampAtEnds | design/src/main/java/com/antiless/support/design/arclayout/ArcLayout.kt:113-122 | at index 1 the offset is not positive, at the second-to-last not negative; the offset is only ever kept or zeroed, and kept when no clamp applies |
| Arc.ShiftOnce | design/src/main/java/com/antiless/support/design/arclayout/ArcLayout.kt:125-132 | the index moves down exactly when offset > anchor, up exactly when offset < -anchor, and stays otherwise; `offset - 2*anchor*index` is conserved; an offset within three half-slots ends within one |
| Arc.Resolve | design/src/main/java/com/antiless/support/design/arclayout/ArcLayout.kt:112-133 | one validation moves the index by at most one, keeps it within [1, count-2], and pins the offset to 0 when pulled past either end |
| Arc.DragStep | design/src/main/java/com/antiless/support/design/arclayout/ArcLayout.kt:175-207 | a drag move keeps the current index within [1, count-2] and moves it by at most two |
| Arc.SettleDelta | design/src/main/java/com/antiless/support/design/arclayout/ArcLayout.kt:139-146 | settling to the current child scrolls by minus the offset; for another child it fails exactly when a frame is missing |
| Arc.AddPlacement | design/src/main/java/com/antiless/support/design/arclayout/ArcLayout.kt:236-252 | the first two children go to position 0 with no current index; the third makes index 1 current; later ones insert at the current index, which advances on odd counts and stays inside [1, count-2] |
| Arc.AddsKeepMiddle | design/src/main/java/com/antiless/support/design/arclayout/ArcLayout.kt:236-252 | after k additions to an empty layout the current index is -1 below three children and k/2 from then on: the middle child |
| Arc.FrameOnArc | design/src/main/java/com/antiless/support/design/arclayout/ArcLayout.kt:280-286 | with three or more children a frame has the child's width and is centred `(index - current) * (width + span) + trunc(offset)` from `measuredWidth / 2` |
| Arc.AdjacentCentres | design/src/main/java/com/antiless/support/design/arclayout/ArcLayout.kt:280-282 | neighbours of equal width are exactly one slot (`width + span`) apart |
| Arc.SingleChildCentred | design/src/main/java/com/antiless/support/design/arclayout/ArcLayout.kt:259-265 | a lone child is centred on `measuredWidth / 2`, at top 0 with its own height |
| Arc.TwoChildrenBeside | design/src/main/java/com/antiless/support/design/arclayout/ArcLayout.kt:267-278 | two children keep their widths and sit one span left and right of `measuredWidth / 2` |
| Arc.SettleDeltaOnArc | design/src/main/java/com/antiless/support/design/arclayout/ArcLayout.kt:139-146 | on the arc, settling to another child scrolls by minus its slot distance plus the offset |
| Arc.SettleLandsOnCurrent | design/src/main/java/com/antiless/support/design/arclayout/ArcLayout.kt:135-148 | with whole-number scroll and offset, the settle's final position brings the offset to 0 and keeps the current index |
| Arc.SettleResidual | design/src/main/java/com/antiless/support/design/arclayout/ArcLayout.kt:135-148 | with any scroll and offset, the settle's final position leaves an offset strictly between -2 and 2; with an anchor of at least 2 the current index is kept |
| Arc.ArcLayout.constructor | design/src/main/java/com/antiless/support/design/arclayout/ArcLayout.kt:325-330 | a new layout has no children, no current index (-1), zero offset and the default span 60 |
| Arc.ArcLayout.OnMeasure | design/src/main/java/com/antiless/support/design/arclayout/ArcLayout.kt:52-53 | the measured width is the one the framework settles on |
| Arc.ArcLayout.OnSizeChanged | design/src/main/java/com/antiless/support/design/arclayout/ArcLayout.kt:35-39 | the arc centre is half the new width across and `0.7 * w`, truncated, down: a non-negative whole number within one below `0.7 * w` |
| Arc.ArcLayout.ValidateOffsetAndCurrentIndex | design/src/main/java/com/antiless/support/design/arclayout/ArcLayout.kt:112-133 | keeps the layout invariant; with a present current child the new index and offset are `Resolve`'s; without one (fewer than three children) the clamp happens and then the null child is dereferenced |
| Arc.ArcLayout.SetArcScrollX | design/src/main/java/com/antiless/support/design/arclayout/ArcLayout.kt:174-182 | an unchanged value changes nothing; a new one shifts the offset by the change and validates |
| Arc.ArcLayout.SmoothScrollTo | design/src/main/java/com/antiless/support/design/arclayout/ArcLayout.kt:139-150 | starts a scroll from the truncated position by the truncated `SettleDelta`, or fails with a null dereference and starts nothing |
| Arc.ArcLayout.AutoSettle | design/src/main/java/com/antiless/support/design/arclayout/ArcLayout.kt:135-137 | settling onto the current child never fails and scrolls by minus the offset |
| Arc.ArcLayout.SetCurrentIndex | design/src/main/java/com/antiless/support/design/arclayout/ArcLayout.kt:321-323 | the public entry point behaves as `smoothScrollTo(index)` |
| Arc.ArcLayout.AddItem | design/src/main/java/com/antiless/support/design/arclayout/ArcLayout.kt:236-252 | the child is inserted at `AddPlacement`'s position, nothing else moves, and the invariant (current child strictly inside) is kept |
| Arc.ArcLayout.TouchDown | design/src/main/java/com/antiless/support/design/arclayout/ArcLayout.kt:184-193 | a touch aborts the fling and ends any drag |
| Arc.ArcLayout.TouchMove | design/src/main/java/com/antiless/support/design/arclayout/ArcLayout.kt:194-209 | dragging starts exactly when three or more children exist and the move exceeds the slop; while dragging the scroll grows by the move and index and offset follow `DragStep` |
| Arc.ArcLayout.TouchUp | design/src/main/java/com/antiless/support/design/arclayout/ArcLayout.kt:210-231 | a drag released below 2000 px/s settles onto the current child, otherwise flings from the truncated position; no drag, no scroll |
| Ray.BoundsInScreen | design/src/main/java/com/antiless/support/design/raylayout/RayDrawableExts.kt:83-89 | the bounds are the screen location plus the measured size |
| Ray.BoundsInContainer | design/src/main/java/com/antiless/support/design/raylayout/RayDrawableExts.kt:68-73 | the bounds move by minus the container's top-left and keep width and height |
| Graphics.Rect.Offset | design/src/main/java/com/antiless/support/design/raylayout/RayDrawableExts.kt:71 | `offset(dx, dy)` moves the top-left corner by (dx, dy) and keeps width and height |
| Ray.CenterPoint | design/src/main/java/com/antiless/support/design/raylayout/RayDrawableExts.kt:75-81 | `getCenterPoint` equals the centre of `getBoundsInContainer` exactly: the view's corner in the container plus half its measured size, rounded down |
| Ray.InnerCircle | design/src/main/java/com/antiless/support/design/raylayout/RayDrawableExts.kt:52-58 | centred on `getCenterPoint`, with diameter the shorter measured side |
| Ray.OuterCircle | design/src/main/java/com/antiless/support/design/raylayout/RayDrawableExts.kt:60-66 | centred on `getCenterPoint`, with diameter the longer measured side |
| Ray.InnerWithinOuter | design/src/main/java/com/antiless/support/design/raylayout/RayDrawableExts.kt:52-66 | the inner and outer circles are concentric and the inner radius is at most the outer one |
| Ray.DegreeToVertical | design/src/main/java/com/antiless/support/design/raylayout/RayDrawable.kt:163-171 | a horizontal ray points at 90 degrees when it goes right and 270 otherwise (also for a zero-length ray); any other ray uses the arctangent of dx over the upward dy |
| Ray.FractionAt | design/src/main/java/com/antiless/support/design/raylayout/RayDrawable.kt:178-182 | 1 for a zero duration; from the start time on it lies in [0, 1] and is 1 exactly when the elapsed time has reached the duration |
| Ray.FractionStaysComplete | design/src/main/java/com/antiless/support/design/raylayout/RayDrawable.kt:178-182 | once the fraction is 1 it stays 1 |
| Ray.FractionMonotone | design/src/main/java/com/antiless/support/design/raylayout/RayDrawable.kt:178-182 | the fraction never decreases as time passes |
| Ray.ClipTop | design/src/main/java/com/antiless/support/design/raylayout/RayDrawable.kt:58 | the clip top is `bottom` (an empty clip) at fraction 0, `top` at fraction 1, and between them for fractions between |
| Ray.ClipRect | design/src/main/java/com/antiless/support/design/raylayout/RayDrawable.kt:54-58 | the clip is the bitmap's (even-rounded) width, hangs from the start circle's edge and grows from nothing at fraction 0 to the full ray at fraction 1 |
| Ray.RemoveFirst | design/src/main/java/com/antiless/support/design/raylayout/RayDrawable.kt:147-148 | `remove(x)` leaves a list without `x` unchanged; otherwise it drops exactly the first occurrence: earlier entries keep their places, later ones move down by one (and the multiset loses one `x`) |
| Ray.RemoveFirstDistinct | design/src/main/java/com/antiless/support/design/raylayout/RayDrawable.kt:147-150 | in a list without repeats, removal keeps it repeat-free and leaves exactly the other entries |
| Ray.RayAnimationInfo.constructor | design/src/main/java/com/antiless/support/design/raylayout/RayDrawable.kt:159-176 | a new ray has its two circles, zero start time and duration, is not persistent, not started and has no listener |
| Ray.RayAnimationInfo.Start | design/src/main/java/com/antiless/support/design/raylayout/RayDrawable.kt:186-190 | records the start time, marks the ray started and calls `onStart` when a listener is set |
| Ray.RayAnimationInfo.DoOnEnd | design/src/main/java/com/antiless/support/design/raylayout/RayDrawable.kt:192-195 | clears `started` and calls `onEnd` when a listener is set |
| Ray.RayDrawable.constructor | design/src/main/java/com/antiless/support/design/raylayout/RayDrawable.kt:27-30 | a new drawable has no rays |
| Ray.RayDrawable.HasRay | design/src/main/java/com/antiless/support/design/raylayout/RayDrawableExts.kt:23 | a ray is registered exactly when `removeRay` would unregister one entry; otherwise removal leaves the list as it is |
| Ray.RayDrawable.AddRay | design/src/main/java/com/antiless/support/design/raylayout/RayDrawable.kt:141-145 | appends one new ray with the given circles; earlier entries are unchanged and the registry stays repeat-free |
| Ray.RayDrawable.RemoveRay | design/src/main/java/com/antiless/support/design/raylayout/RayDrawable.kt:147-150 | afterwards the ray is not registered and every other ray still is; an absent ray changes nothing |
| Ray.RayDrawable.DoOnEnd | design/src/main/java/com/antiless/support/design/raylayout/RayDrawable.kt:152-157 | a non-persistent ray is removed, a persistent one kept; in both cases it ends |
| Ray.RayDrawable.CompleteIfDone | design/src/main/java/com/antiless/support/design/raylayout/RayDrawable.kt:65-67 | fires exactly when the duration is non-zero and the fraction is 1; then a registered ray stays registered exactly when persistent, `started` is cleared and `onEnd` called; otherwise nothing changes |
| Ray.PreDrawListener.OnPreDraw | design/src/main/java/com/antiless/support/design/raylayout/RayDrawableExts.kt:21-46 | while the ray is registered the endpoint centre becomes the view's current centre and drawing proceeds; once it is not, the listener unsubscribes, returns false and leaves both circles alone |
| Ray.AddRayBetween | design/src/main/java/com/antiless/support/design/raylayout/RayDrawableExts.kt:17-50 | registers exactly one new ray between the views' inner circles and subscribes exactly one listener per endpoint view (both on one observer when the views share it); the holder references that ray |
| Ray.RayInfoHolder.Destroy | design/src/main/java/com/antiless/support/design/raylayout/RayDrawableExts.kt:103-110 | each listener is removed from its view's observer exactly when the listener and the view are still reachable |
| Ray.Animation.constructor | design/src/main/java/com/antiless/support/design/raylayout/RayDrawable.kt:198-204 | a new animation is not running, has zero duration and an empty end hook |
| Ray.Animation.Start | design/src/main/java/com/antiless/support/design/raylayout/RayDrawable.kt:212-215 | running from `now` |
| Ray.AnimationSet.constructor | design/src/main/java/com/antiless/support/design/raylayout/RayDrawable.kt:226-228 | a set of distinct, unhooked children, not running |
| Ray.AnimationSet.Start | design/src/main/java/com/antiless/support/design/raylayout/RayDrawable.kt:230-234 | sets running, calls `doOnStart`, then starts child 0 hooked to chain, keeping its duration and touching no other child; an empty set fails on `list[0]` |
| Ray.AnimationSet.StartAnimation | design/src/main/java/com/antiless/support/design/raylayout/RayDrawable.kt:236-247 | hooks the child's end to its own position and starts it |
| Ray.AnimationSet.ChildEnded | design/src/main/java/com/antiless/support/design/raylayout/RayDrawable.kt:238-251 | a hooked child's end starts the next child, keeping its duration, and touches no other; only the last child's end calls the set's `doOnEnd`; an unhooked child does nothing |
| RecyclerView.ChangesFrom | base/src/main/java/com/antiless/base/widget/recyclerview/DataRecycleViewAdapter.kt:73-77 | one `notifyItemChanged` per position from `from` up to the end, in order (none when empty) |
| RecyclerView.SubListCheck | base/src/main/java/com/antiless/base/widget/recyclerview/DataRecycleViewAdapter.kt:39 | `subList(from, to)` succeeds exactly when `0 ≤ from ≤ to ≤ size` |
| RecyclerView.DataAdapter.constructor | base/src/main/java/com/antiless/base/widget/recyclerview/DataRecycleViewAdapter.kt:14 | a new adapter has no items and has sent nothing |
| RecyclerView.DataAdapter.ItemCount | base/src/main/java/com/antiless/base/widget/recyclerview/DataRecycleViewAdapter.kt:16-18 | `getItem` answers exactly the positions from 0 below the count |
| RecyclerView.DataAdapter.GetItem | base/src/main/java/com/antiless/base/widget/recyclerview/DataRecycleViewAdapter.kt:64-66 | the item exactly for positions inside the list, null elsewhere |
| RecyclerView.DataAdapter.Add | base/src/main/java/com/antiless/base/widget/recyclerview/DataRecycleViewAdapter.kt:23-27 | -1 appends, a position in [0, size] inserts there, one insertion is reported at the resolved position; any other position throws and changes nothing |
| RecyclerView.DataAdapter.Remove | base/src/main/java/com/antiless/base/widget/recyclerview/DataRecycleViewAdapter.kt:29-36 | -1 removes the last item; a position inside the list removes exactly that item, reports the removal and a change for every later position; anything else is ignored |
| RecyclerView.DataAdapter.NotifyItemPositionChange | base/src/main/java/com/antiless/base/widget/recyclerview/DataRecycleViewAdapter.kt:73-77 | the loop reports exactly `ChangesFrom(position, size)` |
| RecyclerView.DataAdapter.RemoveRange | base/src/main/java/com/antiless/base/widget/recyclerview/DataRecycleViewAdapter.kt:38-41 | succeeds exactly when both bounds lie in [0, size], keeping the items before `start` and from `end` on and reporting one range removal; otherwise it throws the exception `subList` raises and changes nothing |
| RecyclerView.DataAdapter.Replace | base/src/main/java/com/antiless/base/widget/recyclerview/DataRecycleViewAdapter.kt:43-46 | overwrites one position inside the list and reports it changed; outside the list it throws and changes nothing |
| RecyclerView.DataAdapter.SetData | base/src/main/java/com/antiless/base/widget/recyclerview/DataRecycleViewAdapter.kt:48-51 | the items become the given list and a full data-set change is reported |
| RecyclerView.DataAdapter.SetDataWithoutNotify | base/src/main/java/com/antiless/base/widget/recyclerview/DataRecycleViewAdapter.kt:56-58 | the items become the given list, silently |
| RecyclerView.DataAdapter.Clear | base/src/main/java/com/antiless/base/widget/recyclerview/DataRecycleViewAdapter.kt:68-71 | the list becomes empty and a full data-set change is reported |
| RecyclerView.LoadMoreAtMostOnce | base/src/main/java/com/antiless/base/widget/recyclerview/BaseRecycleAdapter.kt:75-78 | between two `stopLoadAndUpdate`s load more fires at most once, never while loading is pending or disabled, and a load is pending afterwards exactly when one was or it fired |
| RecyclerView.InsertByType | base/src/main/java/com/antiless/base/widget/recyclerview/BaseRecycleAdapter.kt:164-169 | insertion adds exactly the new item (a permutation of the list plus it) and keeps every class registered |
| RecyclerView.SortByType | base/src/main/java/com/antiless/base/widget/recyclerview/BaseRecycleAdapter.kt:120-122 | the sort is a permutation of the items |
| RecyclerView.InsertByTypeSorted | base/src/main/java/com/antiless/base/widget/recyclerview/BaseRecycleAdapter.kt:164-169 | inserting into a list sorted by view type keeps it sorted |
| RecyclerView.InsertByTypeOfType | base/src/main/java/com/antiless/base/widget/recyclerview/BaseRecycleAdapter.kt:164-169 | the inserted item lands before every item of its own view type |
| RecyclerView.SortByTypeCorrect | base/src/main/java/com/antiless/base/widget/recyclerview/BaseRecycleAdapter.kt:120-122 | `sortByRegisterOrder` yields a permutation, non-decreasing by registration order, in which the items of each view type keep their relative order (stability) |
| RecyclerView.BaseAdapter.constructor | base/src/main/java/com/antiless/base/widget/recyclerview/BaseRecycleAdapter.kt:29-47 | a new adapter has registered nothing, has no items, can load more and is not loading |
| RecyclerView.BaseAdapter.Register | base/src/main/java/com/antiless/base/widget/recyclerview/BaseRecycleAdapter.kt:132-147 | a new class gets the next view type (the number registered so far) and one entry in each creator list (the empty presenter creator for null); a class registered before is refused with `IllegalStateException` and nothing changes |
| RecyclerView.BaseAdapter.IsRegistered | base/src/main/java/com/antiless/base/widget/recyclerview/BaseRecycleAdapter.kt:149-151 | true exactly for registered classes |
| RecyclerView.BaseAdapter.ViewTypeByModel | base/src/main/java/com/antiless/base/widget/recyclerview/BaseRecycleAdapter.kt:153-155 | -1 exactly for unregistered classes; otherwise the class's place in the registration order |
| RecyclerView.BaseAdapter.ItemViewType | base/src/main/java/com/antiless/base/widget/recyclerview/BaseRecycleAdapter.kt:91-102 | -1 exactly when there is no item at the position or its class is unregistered; otherwise the registration place of the item's class |
| RecyclerView.BaseAdapter.CreateViewHolder | base/src/main/java/com/antiless/base/widget/recyclerview/BaseRecycleAdapter.kt:54-63 | a negative type gets a bare view without presenter; a registered type uses exactly the creators registered under it, with no presenter for the empty creator; an unknown type is out of bounds |
| RecyclerView.BaseAdapter.ViewTypeSelectsCreators | base/src/main/java/com/antiless/base/widget/recyclerview/BaseRecycleAdapter.kt:54-63 | the view type of a registered class selects the view creator registered with it |
| RecyclerView.BaseAdapter.BindViewHolder | base/src/main/java/com/antiless/base/widget/recyclerview/BaseRecycleAdapter.kt:66-79 | a holder with a presenter binds the item at the position, if any; load more fires exactly when enabled, not pending and the position is within the last ten; afterwards it is pending |
| RecyclerView.BaseAdapter.StopLoadAndUpdate | base/src/main/java/com/antiless/base/widget/recyclerview/BaseRecycleAdapter.kt:112-115 | the pending load is over and the new `canLoadMore` is taken |
| RecyclerView.BaseAdapter.SortByRegisterOrder | base/src/main/java/com/antiless/base/widget/recyclerview/BaseRecycleAdapter.kt:120-122 | with every class registered the items are stably sorted (`SortByType`); with two or more items and an unregistered class the comparator dereferences null; fewer than two items are never compared |
| FloatWindow.DragTelescopes | base/src/main/java/com/antiless/base/widget/floatwindow/FloatWindowHelper.kt:57-65 | over a drag the window moves by the distance from the first touch to the last move |
| FloatWindow.EdgeTarget | base/src/main/java/com/antiless/base/widget/floatwindow/FloatWindowHelper.kt:147-149 | from the left half of the screen the window snaps to 0, otherwise flush with the right edge |
| FloatWindow.FloatWindowHelper.constructor | base/src/main/java/com/antiless/base/widget/floatwindow/FloatWindowHelper.kt:134-143 | the window starts at (0, 0) with the configured size and start-top gravity, hidden, with nothing sent |
| FloatWindow.FloatWindowHelper.ShowWindow | base/src/main/java/com/antiless/base/widget/floatwindow/FloatWindowHelper.kt:97-102 | the window is showing; it is added once, only if it was hidden |
| FloatWindow.FloatWindowHelper.HideWindow | base/src/main/java/com/antiless/base/widget/floatwindow/FloatWindowHelper.kt:104-109 | the window is hidden; it is removed once, only if it was showing |
| FloatWindow.FloatWindowHelper.Toggle | base/src/main/java/com/antiless/base/widget/floatwindow/FloatWindowHelper.kt:111-113 | flips `showing`, with exactly one add or remove |
| FloatWindow.FloatWindowHelper.RelayoutRootView | base/src/main/java/com/antiless/base/widget/floatwindow/FloatWindowHelper.kt:160-162 | the layout is pushed exactly when the root view is attached |
| FloatWindow.FloatWindowHelper.SetGravity | base/src/main/java/com/antiless/base/widget/floatwindow/FloatWindowHelper.kt:119-122 | only the gravity changes, then a relayout |
| FloatWindow.FloatWindowHelper.SetX | base/src/main/java/com/antiless/base/widget/floatwindow/FloatWindowHelper.kt:124-127 | only `x` changes, then a relayout |
| FloatWindow.FloatWindowHelper.SetY | base/src/main/java/com/antiless/base/widget/floatwindow/FloatWindowHelper.kt:129-132 | only `y` changes, then a relayout |
| FloatWindow.FloatWindowHelper.TouchDown | base/src/main/java/com/antiless/base/widget/floatwindow/FloatWindowHelper.kt:50-56 | a gesture starts at the raw touch point, not yet moved |
| FloatWindow.FloatWindowHelper.TouchMove | base/src/main/java/com/antiless/base/widget/floatwindow/FloatWindowHelper.kt:57-65 | the window moves by the delta since the previous event (one `DragX` step), so window position minus touch position is conserved; one relayout |
| FloatWindow.FloatWindowHelper.TouchUp | base/src/main/java/com/antiless/base/widget/floatwindow/FloatWindowHelper.kt:66-77 | a release away from the first touch marks a move, otherwise performs a click; a moved window snaps to the `EdgeTarget` when asked to |
| FloatWindow.FloatWindowHelper.AnimateToEdge | base/src/main/java/com/antiless/base/widget/floatwindow/FloatWindowHelper.kt:145-158 | cancels the previous snap, if any, and starts one from the current `x` to the `EdgeTarget` |
| FloatWindow.FloatWindowHelper.OnAnimationUpdate | base/src/main/java/com/antiless/base/widget/floatwindow/FloatWindowHelper.kt:151-154 | `x` takes the animated value, then a relayout |

## Left out

- Scroller and fling physics: `computeScroll` (ArcLayout.kt:81-110) is not modelled beyond the scroll or fling it was last asked to start. That includes the in-flight velocity check and the repeated `arcScrollX` updates. A settle step can be replayed with `SetArcScrollX`; a fling step is `SetArcScrollX` followed by `ValidateOffsetAndCurrentIndex`, and a slow fling ends in `AutoSettle`.
- The `VelocityTracker`: release velocities are parameters.
- `onLayout`, the children's measuring in `onMeasure`, and `dispatchDraw`: measuring and drawing are framework calls. The model keeps each child's measured size, the layout's measured width and the frames `computeChildFrame` gives.
- `computeChildTop`: its square root is the uninterpreted `arcTop` function, fixed at construction. It receives `state.centerX` and `state.centerY` as arguments.
- Arc.ArcLayout.OnSizeChanged: `w * 0.7` is computed exactly, not in `Double`.
- Failures of `WindowManager.addView`, `removeView` and `updateViewLayout` (FloatWindowHelper.kt:64, 100, 107, 153), such as a window that is already added or not attached: these are framework calls and are logged as if they succeed.
- `Circle.distanceTo`, `Rect.distanceTo` and the `atan` branch of `degreeToVertical`: these are kept symbolic (`distance` parameter, `ArcTangentDegrees`).
- Drawing calls (`canvas.rotate`, `drawBitmap`, `drawDebugContent`, `invalidateSelf`, `requestLayout`) and logging.
- The draw loop: `RayDrawable.draw` iterates with `forEach` while `doOnEnd` can remove from the same list. Only the per-ray completion step is modelled. Nothing is claimed about removal during iteration.
- `RayDrawable.addRay(fromView, toView)` (RayDrawable.kt:108-139): its listeners never unsubscribe. Only the circle-based `addRay` and the extension version with self-cancelling listeners are modelled.
- `RayAnimLayout.kt`, the glow drawables, activities and services are not part of this model.
- `Animation.stop()` is an unimplemented `TODO()`. `isRunning` and `doOnStart` of a plain animation are only read or invoked by callers outside the model.
- Ray.PreDrawListener.OnPreDraw: aliasing of the mutable `PointF` centres is not modelled. Each circle is a value, and the listener replaces its endpoint circle's centre.
- Ray.FractionAt: computed in exact real arithmetic. In Kotlin the division is in `Float`, so for durations above 2^24 ms the fraction can round to exactly 1 shortly before the elapsed time reaches the duration.
- FloatWindow.FloatWindowHelper.TouchMove: 32-bit overflow of `params.x` and `params.y` is not modelled, because positions are unbounded integers.
- FloatWindow.FloatWindowHelper.constructor: models `initWindowLayoutParams`. `initWindow`'s window-manager lookup, root view creation and overlay-permission request are framework I/O. `contentView` and `setDragView` only attach views.
- The `lateinit` fields of `FloatWindowHelper` are assumed initialised. Calling a method before `initWindow` would crash, and that crash is not modelled.
- RecyclerView.BaseAdapter.SortByRegisterOrder: when the comparator throws, TimSort may already have reordered part of the list. The model leaves the list unchanged on that path.
- `onBindViewHolder` with payloads and `onViewRecycled`: these forward to presenters, which are outside the model. The presenter's `unbind`/`bind` calls are reduced to the item that gets bound.
- The `onLoadMoreListener` call: the model says whether load more fires.
- The abstract `registerMVP()` that `BaseRecycleAdapter`'s `init` calls (BaseRecycleAdapter.kt:49-51): a subclass's registrations are replayed as `Register` calls on the adapter the constructor returns.
- RecyclerView.BaseAdapter.CreateViewHolder: a presenter creator is assumed to return a presenter. A registered creator that itself returned null is not modelled.
