/** The RecyclerView adapters of base/.../widget/recyclerview:
    `DataRecycleViewAdapter` (a mutable item list whose changes are reported
    by `notify*` calls, here an append-only notification log) and
    `BaseRecycleAdapter` (the model-class to view-type registry, the paging
    "load more" latch and the sort by registration order).

    Kotlin's subclassing is modelled by composition: a `BaseAdapter` owns the
    `DataAdapter<Model>` that holds its items. */
module RecyclerView {
  import opened Wrappers
  import opened Graphics

  /** The `notify*` calls an adapter makes to its RecyclerView. */
  datatype Notification =
    | ItemInserted(position: int)
    | ItemRemoved(position: int)
    | ItemChanged(position: int)
    | ItemRangeRemoved(positionStart: int, itemCount: int)
    | DataSetChanged

  /** `LAST_POSITION`: as a position argument it means "the end of the list". */
  const LastPosition: int := -1

  /** The position `add` inserts at. */
  function InsertPosition(position: int, size: nat): int
  {
    if position == LastPosition then size else position
  }

  /** The position `remove` removes: -1 is the last item of a non-empty list. */
  function RemovePosition(position: int, size: nat): int
  {
    if position == LastPosition && size > 0 then size - 1 else position
  }

  /** `notifyItemChanged(i)` for each `i` from `from` up to, not including, `until`. */
  function ChangesFrom(from: int, until: int): (r: seq<Notification>)
    ensures |r| == if from < until then until - from else 0
    ensures forall k :: 0 <= k < |r| ==> r[k] == ItemChanged(from + k)
  {
    if from < until then seq(until - from, k requires 0 <= k < until - from => ItemChanged(from + k)) else []
  }

  /** The bounds check of `java.util.ArrayList.subList(from, to)`. */
  function SubListCheck(from: int, to: int, size: nat): (r: Outcome)
    ensures r.Pass? <==> 0 <= from <= to <= size
  {
    if from < 0 then Fail(IndexOutOfBounds)
    else if to > size then Fail(IndexOutOfBounds)
    else if from > to then Fail(IllegalArgument)
    else Pass
  }

  class DataAdapter<M> {
    var data: seq<M>
    var notifications: seq<Notification>

    constructor ()
      ensures data == [] && notifications == []
    {
      data := [];
      notifications := [];
    }

    /** `getItemCount()`: the positions `getItem` answers are exactly
        `0 until itemCount`. */
    function ItemCount(): (n: nat)
      reads this
      ensures forall position :: GetItem(position).Some? <==> 0 <= position < n
    {
      |data|
    }

    /** `getItem(position)`: the item, or null outside the list. */
    function GetItem(position: int): (r: Option<M>)
      reads this
      ensures r.Some? <==> 0 <= position < |data|
      ensures r.Some? ==> r.value == data[position]
    {
      if 0 <= position < |data| then Some(data[position]) else None
    }

    /** `add(model, position)`: insert at `position`, -1 meaning the end. */
    method Add(model: M, position: int) returns (r: Outcome)
      modifies this
      ensures var p := InsertPosition(position, |old(data)|);
        if 0 <= p <= |old(data)| then
          && r == Pass
          && data == old(data)[..p] + [model] + old(data)[p..]
          && notifications == old(notifications) + [ItemInserted(p)]
        else
          r == Fail(IndexOutOfBounds) && data == old(data) && notifications == old(notifications)
    {
      var newPosition := if position == LastPosition then |data| else position;
      if !(0 <= newPosition <= |data|) {
        return Fail(IndexOutOfBounds);
      }
      data := data[..newPosition] + [model] + data[newPosition..];
      notifications := notifications + [ItemInserted(newPosition)];
      r := Pass;
    }

    /** `remove(position)`: remove one item, -1 meaning the last; a position
        outside the list is ignored. The items after it are reported changed. */
    method Remove(position: int)
      modifies this
      ensures var p := RemovePosition(position, |old(data)|);
        if 0 <= p < |old(data)| then
          && data == old(data)[..p] + old(data)[p + 1..]
          && notifications == old(notifications) + [ItemRemoved(p)] + ChangesFrom(p, |data|)
        else
          data == old(data) && notifications == old(notifications)
    {
      var newPosition := if position == LastPosition && |data| > 0 then |data| - 1 else position;
      if LastPosition + 1 <= newPosition < |data| {
        data := data[..newPosition] + data[newPosition + 1..];
        notifications := notifications + [ItemRemoved(newPosition)];
        NotifyItemPositionChange(newPosition);
      }
    }

    /** `notifyItemPositionChange(position)`: report every position from
        `position` to the end as changed. */
    method NotifyItemPositionChange(position: int)
      modifies this`notifications
      ensures notifications == old(notifications) + ChangesFrom(position, |data|)
    {
      var i := position;
      while i < |data|
        invariant position <= i
        invariant i <= |data| || i == position
        invariant notifications == old(notifications) + ChangesFrom(position, i)
      {
        assert ChangesFrom(position, i + 1) == ChangesFrom(position, i) + [ItemChanged(i)];
        notifications := notifications + [ItemChanged(i)];
        i := i + 1;
      }
    }

    /** `remove(start, end)`: keep the items before `start` and from `end`
        on, without the per-item notifications. */
    method RemoveRange(start: int, end: int) returns (r: Outcome)
      modifies this
      ensures r.Pass? <==> 0 <= start <= |old(data)| && 0 <= end <= |old(data)|
      ensures r.Pass? ==>
        && data == old(data)[..start] + old(data)[end..]
        && notifications == old(notifications) + [ItemRangeRemoved(start, end - start)]
      ensures r.Fail? ==> data == old(data) && notifications == old(notifications)
      ensures r.Fail? ==> r.error == if start > |old(data)| || (0 <= start && end < 0) then IndexOutOfBounds
                                     else IllegalArgument
    {
      r := SubListCheck(0, start, |data|);
      if r.Fail? {
        return;
      }
      r := SubListCheck(end, |data|, |data|);
      if r.Fail? {
        return;
      }
      SetDataWithoutNotify(data[..start] + data[end..]);
      notifications := notifications + [ItemRangeRemoved(start, end - start)];
    }

    /** `replace(model, position)`: overwrite one position. */
    method Replace(model: M, position: int) returns (r: Outcome)
      modifies this
      ensures if 0 <= position < |old(data)| then
          && r == Pass
          && data == old(data)[position := model]
          && notifications == old(notifications) + [ItemChanged(position)]
        else
          r == Fail(IndexOutOfBounds) && data == old(data) && notifications == old(notifications)
    {
      if !(0 <= position < |data|) {
        return Fail(IndexOutOfBounds);
      }
      data := data[position := model];
      notifications := notifications + [ItemChanged(position)];
      r := Pass;
    }

    /** `setData(list)`: take a copy of `list` and report the whole data set changed. */
    method SetData(list: seq<M>)
      modifies this
      ensures data == list && notifications == old(notifications) + [DataSetChanged]
    {
      data := list;
      notifications := notifications + [DataSetChanged];
    }

    /** `setDataWithoutNotify(list)`: take a copy of `list`, silently. */
    method SetDataWithoutNotify(list: seq<M>)
      modifies this`data
      ensures data == list
    {
      data := list;
    }

    /** `clear()`: drop every item and report the whole data set changed. */
    method Clear()
      modifies this
      ensures data == [] && notifications == old(notifications) + [DataSetChanged]
    {
      data := [];
      notifications := notifications + [DataSetChanged];
    }
  }

  /** The `Class` of a model, by name. */
  type ClassName = string

  /** A `BaseModel`: its class and an identity telling equal-class items apart. */
  datatype Model = Model(clazz: ClassName, key: int)

  /** Identifies a registered `(ViewGroup) -> V` view creator. */
  type ViewCreator = nat

  /** A registered presenter creator; `EMPTY_PRESENTER_CREATOR` makes no presenter. */
  datatype PresenterCreator = EmptyPresenterCreator | Presenter(id: nat)

  /** The view of a holder: made by a registered creator, or a bare `View`. */
  datatype ItemView = CreatedBy(creator: ViewCreator) | BareView

  /** A `BaseViewHolder`: its view and its presenter (by creator), if any. */
  datatype ViewHolder = ViewHolder(view: ItemView, presenter: Option<nat>)

  /** `LOAD_MORE_COUNT`: load more once binding reaches the last ten items. */
  const LoadMoreCount: int := 10

  /** The load-more condition of `onBindViewHolder`. */
  function LoadMoreDue(canLoadMore: bool, isLoadingMore: bool, size: nat, position: int): bool
  {
    canLoadMore && !isLoadingMore && position >= Max(size - LoadMoreCount, 0)
  }

  /** How many times load more fires while `positions` are bound in turn,
      and whether a load is pending afterwards. */
  function LoadMoreRun(canLoadMore: bool, isLoadingMore: bool, size: nat, positions: seq<int>): (nat, bool)
    decreases |positions|
  {
    if positions == [] then (0, isLoadingMore)
    else
      var fired := LoadMoreDue(canLoadMore, isLoadingMore, size, positions[0]);
      var rest := LoadMoreRun(canLoadMore, isLoadingMore || fired, size, positions[1..]);
      ((if fired then 1 else 0) + rest.0, rest.1)
  }

  /** Between two `stopLoadAndUpdate` calls load more fires at most once,
      never while a load is pending or loading is disabled, and once it has
      fired a load is pending. */
  lemma {:induction false} LoadMoreAtMostOnce(canLoadMore: bool, isLoadingMore: bool, size: nat, positions: seq<int>)
    ensures LoadMoreRun(canLoadMore, isLoadingMore, size, positions).0 <= 1
    ensures isLoadingMore || !canLoadMore ==> LoadMoreRun(canLoadMore, isLoadingMore, size, positions).0 == 0
    ensures LoadMoreRun(canLoadMore, isLoadingMore, size, positions).1
            == (isLoadingMore || LoadMoreRun(canLoadMore, isLoadingMore, size, positions).0 == 1)
    decreases |positions|
  {
    if positions != [] {
      var fired := LoadMoreDue(canLoadMore, isLoadingMore, size, positions[0]);
      LoadMoreAtMostOnce(canLoadMore, isLoadingMore || fired, size, positions[1..]);
    }
  }

  /** Every item's class has a view type. */
  predicate AllRegistered(s: seq<Model>, types: map<ClassName, int>)
  {
    forall m | m in s :: m.clazz in types
  }

  /** Non-decreasing by view type. */
  ghost predicate SortedByType(s: seq<Model>, types: map<ClassName, int>)
    requires AllRegistered(s, types)
  {
    forall i :: 0 < i < |s| ==> types[s[i - 1].clazz] <= types[s[i].clazz]
  }

  /** The items of view type `t`, in order. */
  function OfType(s: seq<Model>, types: map<ClassName, int>, t: int): seq<Model>
    requires AllRegistered(s, types)
  {
    if s == [] then []
    else (if types[s[0].clazz] == t then [s[0]] else []) + OfType(s[1..], types, t)
  }

  /** Insert `x` before the first item whose view type is not smaller. */
  function InsertByType(x: Model, s: seq<Model>, types: map<ClassName, int>): (r: seq<Model>)
    requires x.clazz in types && AllRegistered(s, types)
    ensures multiset(r) == multiset(s) + multiset{x}
    ensures AllRegistered(r, types)
    ensures |r| == |s| + 1 && (r[0] == x || (s != [] && r[0] == s[0]))
  {
    if s == [] || types[x.clazz] <= types[s[0].clazz] then [x] + s
    else
      assert s == [s[0]] + s[1..];
      [s[0]] + InsertByType(x, s[1..], types)
  }

  /** A stable sort by view type (`sortWith(RegisterOrderComparator())`). */
  function SortByType(s: seq<Model>, types: map<ClassName, int>): (r: seq<Model>)
    requires AllRegistered(s, types)
    ensures multiset(r) == multiset(s)
    ensures AllRegistered(r, types)
  {
    if s == [] then []
    else
      assert s == [s[0]] + s[1..];
      assert forall m | m in s[1..] :: m in s;
      InsertByType(s[0], SortByType(s[1..], types), types)
  }

  lemma {:induction false} InsertByTypeSorted(x: Model, s: seq<Model>, types: map<ClassName, int>)
    requires x.clazz in types && AllRegistered(s, types)
    requires SortedByType(s, types)
    ensures SortedByType(InsertByType(x, s, types), types)
    decreases |s|
  {
    if s != [] && types[x.clazz] > types[s[0].clazz] {
      var tail := InsertByType(x, s[1..], types);
      InsertByTypeSorted(x, s[1..], types);
      var r := InsertByType(x, s, types);
      assert r == [s[0]] + tail;
      assert |s| > 1 ==> s[1..][0] == s[1];
      forall i | 0 < i < |r| ensures types[r[i - 1].clazz] <= types[r[i].clazz] {
        if i > 1 {
          assert r[i - 1] == tail[i - 2] && r[i] == tail[i - 1];
        }
      }
    }
  }

  /** Inserting `x` puts it before every item of its own view type. */
  lemma {:induction false} InsertByTypeOfType(x: Model, s: seq<Model>, types: map<ClassName, int>, t: int)
    requires x.clazz in types && AllRegistered(s, types)
    ensures OfType(InsertByType(x, s, types), types, t) == (if types[x.clazz] == t then [x] else []) + OfType(s, types, t)
    decreases |s|
  {
    if s == [] || types[x.clazz] <= types[s[0].clazz] {
      assert InsertByType(x, s, types) == [x] + s;
      OfTypeCons(x, s, types, t);
    } else {
      InsertByTypeOfType(x, s[1..], types, t);
      InsertPastHead(x, s, types, t);
    }
  }

  /** The step of `InsertByTypeOfType` where `x` goes past the head `s[0]`. */
  lemma InsertPastHead(x: Model, s: seq<Model>, types: map<ClassName, int>, t: int)
    requires x.clazz in types && AllRegistered(s, types)
    requires s != [] && types[x.clazz] > types[s[0].clazz]
    requires OfType(InsertByType(x, s[1..], types), types, t)
             == (if types[x.clazz] == t then [x] else []) + OfType(s[1..], types, t)
    ensures OfType(InsertByType(x, s, types), types, t) == (if types[x.clazz] == t then [x] else []) + OfType(s, types, t)
  {
    var rest := InsertByType(x, s[1..], types);
    assert InsertByType(x, s, types) == [s[0]] + rest;
    OfTypeCons(s[0], rest, types, t);
    assert s == [s[0]] + s[1..];
    OfTypeCons(s[0], s[1..], types, t);
    // `x` and `s[0]` have different view types, so at most one of them is kept.
    SwapKept(if types[s[0].clazz] == t then [s[0]] else [], if types[x.clazz] == t then [x] else [], OfType(s[1..], types, t));
  }

  lemma SwapKept(head: seq<Model>, own: seq<Model>, later: seq<Model>)
    requires head == [] || own == []
    ensures head + (own + later) == own + (head + later)
  {
  }

  lemma OfTypeCons(m: Model, s: seq<Model>, types: map<ClassName, int>, t: int)
    requires m.clazz in types && AllRegistered(s, types)
    ensures AllRegistered([m] + s, types)
    ensures OfType([m] + s, types, t) == (if types[m.clazz] == t then [m] else []) + OfType(s, types, t)
  {
    assert ([m] + s)[0] == m && ([m] + s)[1..] == s;
  }

  /** `sortByRegisterOrder` yields a permutation, non-decreasing by view
      type, in which the items of each view type keep their order. */
  lemma {:induction false} SortByTypeCorrect(s: seq<Model>, types: map<ClassName, int>)
    requires AllRegistered(s, types)
    ensures SortedByType(SortByType(s, types), types)
    ensures multiset(SortByType(s, types)) == multiset(s)
    ensures forall t :: OfType(SortByType(s, types), types, t) == OfType(s, types, t)
    decreases |s|
  {
    if s != [] {
      SortByTypeCorrect(s[1..], types);
      InsertByTypeSorted(s[0], SortByType(s[1..], types), types);
      forall t ensures OfType(SortByType(s, types), types, t) == OfType(s, types, t) {
        InsertByTypeOfType(s[0], SortByType(s[1..], types), types, t);
      }
    }
  }

  class BaseAdapter {
    /** The item list and its notifications (the `DataRecycleViewAdapter` part). */
    const store: DataAdapter<Model>
    var canLoadMore: bool
    var isLoadingMore: bool
    /** `itemViewTypeMap`: model class to view type. */
    var itemViewTypeMap: map<ClassName, int>
    /** `viewCreatorList`, indexed by view type. */
    var viewCreators: seq<ViewCreator>
    /** `presenterCreatorList`, indexed by view type. */
    var presenterCreators: seq<PresenterCreator>
    /** The registered classes in registration order. */
    ghost var registered: seq<ClassName>

    /** The view type of a class is its place in the registration order, and
        both creator lists have one entry per registered class. */
    ghost predicate Valid()
      reads this
    {
      && |viewCreators| == |presenterCreators| == |registered|
      && (forall i, j :: 0 <= i < j < |registered| ==> registered[i] != registered[j])
      && (forall c :: c in itemViewTypeMap <==> c in registered)
      && (forall i :: 0 <= i < |registered| ==> itemViewTypeMap[registered[i]] == i)
    }

    /** The adapter before `registerMVP` has registered anything. */
    constructor ()
      ensures Valid() && fresh(store)
      ensures store.data == [] && store.notifications == []
      ensures canLoadMore && !isLoadingMore && registered == []
    {
      store := new DataAdapter<Model>();
      canLoadMore := true;
      isLoadingMore := false;
      itemViewTypeMap := map[];
      viewCreators := [];
      presenterCreators := [];
      registered := [];
    }

    /** `register(clazz, viewCreator, presenterCreator)`: the class gets the
        next view type; a class registered before is refused. */
    method Register(clazz: ClassName, viewCreator: ViewCreator, presenterCreator: Option<nat>) returns (r: Outcome)
      requires Valid()
      modifies this
      ensures Valid()
      ensures old(clazz in itemViewTypeMap) ==>
        && r == Fail(IllegalState)
        && itemViewTypeMap == old(itemViewTypeMap) && viewCreators == old(viewCreators)
        && presenterCreators == old(presenterCreators) && registered == old(registered)
      ensures old(clazz !in itemViewTypeMap) ==>
        && r == Pass
        && itemViewTypeMap == old(itemViewTypeMap)[clazz := |old(viewCreators)|]
        && viewCreators == old(viewCreators) + [viewCreator]
        && presenterCreators == old(presenterCreators)
           + [if presenterCreator.Some? then Presenter(presenterCreator.value) else EmptyPresenterCreator]
        && registered == old(registered) + [clazz]
      ensures canLoadMore == old(canLoadMore) && isLoadingMore == old(isLoadingMore)
    {
      if clazz in itemViewTypeMap {
        return Fail(IllegalState);
      }
      itemViewTypeMap := itemViewTypeMap[clazz := |viewCreators|];
      viewCreators := viewCreators + [viewCreator];
      presenterCreators := presenterCreators
        + [if presenterCreator.Some? then Presenter(presenterCreator.value) else EmptyPresenterCreator];
      registered := registered + [clazz];
      r := Pass;
    }

    /** `isRegistered(clazz)`. */
    function IsRegistered(clazz: ClassName): (b: bool)
      reads this
      requires Valid()
      ensures b <==> clazz in registered
    {
      clazz in itemViewTypeMap
    }

    /** `getViewTypeByModel(clazz)`: the class's place in the registration
        order, or -1 when it is not registered. */
    function ViewTypeByModel(clazz: ClassName): (t: int)
      reads this
      requires Valid()
      ensures t == -1 <==> clazz !in registered
      ensures t != -1 ==> 0 <= t < |registered| && registered[t] == clazz
    {
      if clazz in itemViewTypeMap then itemViewTypeMap[clazz] else -1
    }

    /** `getItemViewType(position)`: -1 without an item at `position`, else
        the view type of the item's class (-1 for an unregistered class). */
    function ItemViewType(position: int): (t: int)
      reads this, store
      requires Valid()
      ensures t == -1 <==> !(0 <= position < |store.data|) || store.data[position].clazz !in registered
      ensures t != -1 ==> 0 <= t < |registered| && registered[t] == store.data[position].clazz
    {
      match store.GetItem(position)
      case None => -1
      case Some(model) => ViewTypeByModel(model.clazz)
    }

    /** `onCreateViewHolder(parent, viewType)`: a non-negative type uses the
        creators registered under it (an unknown one is out of bounds); a
        negative type gets a bare view without presenter. */
    function CreateViewHolder(viewType: int): (r: Result<ViewHolder>)
      reads this
      requires Valid()
      ensures viewType < 0 ==> r == Success(ViewHolder(BareView, None))
      ensures viewType >= |registered| ==> r == Failure(IndexOutOfBounds)
      ensures 0 <= viewType < |registered| ==>
        && r.Success?
        && r.value.view == CreatedBy(viewCreators[viewType])
        && (r.value.presenter.None? <==> presenterCreators[viewType] == EmptyPresenterCreator)
        && (r.value.presenter.Some? ==> presenterCreators[viewType] == Presenter(r.value.presenter.value))
    {
      if viewType >= 0 then
        if viewType < |viewCreators| then
          var presenter := match presenterCreators[viewType]
            case EmptyPresenterCreator => None
            case Presenter(id) => Some(id);
          Success(ViewHolder(CreatedBy(viewCreators[viewType]), presenter))
        else Failure(IndexOutOfBounds)
      else Success(ViewHolder(BareView, None))
    }

    /** A class's view type selects the creators registered with it; an
        unregistered class gets the bare holder. */
    lemma ViewTypeSelectsCreators(clazz: ClassName, i: nat)
      requires Valid()
      requires i < |registered| && registered[i] == clazz
      ensures ViewTypeByModel(clazz) == i
      ensures CreateViewHolder(ViewTypeByModel(clazz)).Success?
      ensures CreateViewHolder(ViewTypeByModel(clazz)).value.view == CreatedBy(viewCreators[i])
    {
    }

    /** `onBindViewHolder(holder, position)`: a holder with a presenter is
        bound to the item at `position` (if any); then load more fires when
        it is due, and a load is pending from then on. */
    method BindViewHolder(holder: ViewHolder, position: int) returns (bound: Option<Model>, loadMore: bool)
      modifies this`isLoadingMore
      ensures bound == if holder.presenter.Some? then store.GetItem(position) else None
      ensures loadMore == LoadMoreDue(canLoadMore, old(isLoadingMore), |store.data|, position)
      ensures isLoadingMore == (old(isLoadingMore) || loadMore)
      ensures old(isLoadingMore) || !canLoadMore ==> !loadMore
    {
      bound := None;
      if holder.presenter.Some? {
        bound := store.GetItem(position);
      }
      loadMore := false;
      if canLoadMore && !isLoadingMore && position >= Max(|store.data| - LoadMoreCount, 0) {
        loadMore := true;
        isLoadingMore := true;
      }
    }

    /** `stopLoadAndUpdate(canLoadMore)`: the pending load is over. */
    method StopLoadAndUpdate(canLoadMore: bool)
      modifies this`isLoadingMore, this`canLoadMore
      ensures !isLoadingMore && this.canLoadMore == canLoadMore
    {
      this.isLoadingMore := false;
      this.canLoadMore := canLoadMore;
    }

    /** `sortByRegisterOrder()`: stable-sort the items by view type. With two
        items or more, an unregistered class makes the comparator dereference null. */
    method SortByRegisterOrder() returns (r: Outcome)
      requires Valid()
      modifies store`data
      ensures r.Fail? <==> |old(store.data)| >= 2 && !AllRegistered(old(store.data), itemViewTypeMap)
      ensures r.Fail? ==> r == Fail(NullPointer) && store.data == old(store.data)
      ensures r.Pass? && AllRegistered(old(store.data), itemViewTypeMap) ==>
                 store.data == SortByType(old(store.data), itemViewTypeMap)
      ensures r.Pass? && !AllRegistered(old(store.data), itemViewTypeMap) ==> store.data == old(store.data)
    {
      var data := store.data;
      if |data| < 2 {
        // A list of fewer than two items is never compared, so nothing is dereferenced.
        if AllRegistered(data, itemViewTypeMap) {
          store.SetDataWithoutNotify(SortByType(data, itemViewTypeMap));
        }
        return Pass;
      }
      if !AllRegistered(data, itemViewTypeMap) {
        return Fail(NullPointer);
      }
      store.SetDataWithoutNotify(SortByType(data, itemViewTypeMap));
      r := Pass;
    }
  }
}
