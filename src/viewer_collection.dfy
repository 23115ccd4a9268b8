// ViewerCollection: the ordered list of viewers of CounterPlot's main window,
// some of them user extensions configured from ".yaml" files that are
// reconfigured when their file changes. Two versions: the class in
// Core/ViewerCollection.cpp and the older inline class in
// Components/MainComponent.hpp.
module ViewerCollections {
  import opened Wrappers
  import opened Geometry
  import Text

  /**
   * A viewer component: an identity (its address), its name, the files it is
   * interested in, its visibility and bounds, and how often it was configured.
   */
  datatype Viewer = Viewer(id: nat, name: string, isInterestedInFile: string -> bool,
                           visible: bool, bounds: Rect, configurations: nat)

  /**
   * What `UserExtensionView::configure` reads from an extension's ".yaml"
   * file: the viewer's name and the files it is interested in. Reading and
   * interpreting the file is not part of this model; the collection is given
   * the result for each file as a function.
   */
  datatype Configuration = Configuration(name: string, isInterestedInFile: string -> bool)

  /** A viewer as `configure` leaves it: named and interested as its file says, configured once more. */
  function Configured(v: Viewer, c: Configuration): (r: Viewer)
  {
    v.(name := c.name, isInterestedInFile := c.isInterestedInFile, configurations := v.configurations + 1)
  }

  /** `ViewerCollection::Item`: extension items remember their source file and when it was loaded. */
  datatype Item = Item(isExtension: bool, source: string, lastLoaded: int, viewer: Viewer)

  /** No two items hold the same viewer. */
  predicate DistinctViewers(items: seq<Item>)
  {
    forall i, j :: 0 <= i < j < |items| ==> items[i].viewer.id != items[j].viewer.id
  }

  /** The viewers' identities in item order: `getAllComponents`. */
  function Ids(items: seq<Item>): (ids: seq<nat>)
    ensures |ids| == |items|
    ensures forall k :: 0 <= k < |items| ==> ids[k] == items[k].viewer.id
  {
    seq(|items|, k requires 0 <= k < |items| => items[k].viewer.id)
  }

  /** The index of the first item whose viewer is interested in the file, or -1. */
  function FirstInterested(items: seq<Item>, file: string): (k: int)
    ensures -1 <= k < |items|
    ensures k >= 0 ==> items[k].viewer.isInterestedInFile(file)
    ensures forall j :: 0 <= j < |items| && (k < 0 || j < k) ==> !items[j].viewer.isInterestedInFile(file)
  {
    if |items| == 0 then -1
    else
      var k := FirstInterested(items[..|items| - 1], file);
      if k >= 0 then k
      else if items[|items| - 1].viewer.isInterestedInFile(file) then |items| - 1
      else -1
  }

  /** The index of the first item whose viewer has the name, or -1. */
  function FirstNamed(items: seq<Item>, name: string): (k: int)
    ensures -1 <= k < |items|
    ensures k >= 0 ==> items[k].viewer.name == name
    ensures forall j :: 0 <= j < |items| && (k < 0 || j < k) ==> items[j].viewer.name != name
  {
    if |items| == 0 then -1
    else
      var k := FirstNamed(items[..|items| - 1], name);
      if k >= 0 then k
      else if items[|items| - 1].viewer.name == name then |items| - 1
      else -1
  }

  /** The viewer at an index found by a search, or none. */
  function ViewerAt(items: seq<Item>, k: int): Option<nat>
    requires k < |items|
  {
    if k < 0 then None else Some(items[k].viewer.id)
  }

  /** `findViewerForFile`: the first interested viewer in insertion order, or null. */
  method FindViewerForFile(items: seq<Item>, file: string) returns (found: Option<nat>)
    ensures found == ViewerAt(items, FirstInterested(items, file))
  {
    var n := 0;
    while n < |items|
      invariant 0 <= n <= |items|
      invariant forall j :: 0 <= j < n ==> !items[j].viewer.isInterestedInFile(file)
    {
      if items[n].viewer.isInterestedInFile(file) {
        return Some(items[n].viewer.id);
      }
      n := n + 1;
    }
    return None;
  }

  /** `findViewerWithName`: the first viewer with the name in insertion order, or null. */
  method FindViewerWithName(items: seq<Item>, name: string) returns (found: Option<nat>)
    ensures found == ViewerAt(items, FirstNamed(items, name))
  {
    var n := 0;
    while n < |items|
      invariant 0 <= n <= |items|
      invariant forall j :: 0 <= j < n ==> items[j].viewer.name != name
    {
      if items[n].viewer.name == name {
        return Some(items[n].viewer.id);
      }
      n := n + 1;
    }
    return None;
  }

  /** `getAllComponents`: every viewer, in insertion order. */
  method GetAllComponents(items: seq<Item>) returns (result: seq<nat>)
    ensures result == Ids(items)
  {
    result := [];
    for n := 0 to |items|
      invariant result == Ids(items[..n])
    {
      result := result + [items[n].viewer.id];
    }
    assert items[..|items|] == items;
  }

  // ---------------------------------------------------------------------
  // Item updates

  /** Only the viewer's visibility and, when given, bounds change. */
  function Shown(it: Item, shouldBeVisible: Option<nat>, bounds: Option<Rect>): (r: Item)
  {
    var v := it.viewer.(visible := Some(it.viewer.id) == shouldBeVisible);
    it.(viewer := if bounds.Some? then v.(bounds := bounds.value) else v)
  }

  /** The bounds go to the viewer when it is visible or when every viewer is to get them. */
  function Bounded(it: Item, bounds: Rect, onlyVisible: bool): (r: Item)
  {
    if !onlyVisible || it.viewer.visible then it.(viewer := it.viewer.(bounds := bounds)) else it
  }

  /**
   * One item on a timer tick: an extension whose file was modified after it
   * was loaded is configured again from its file and stamped with the current
   * time.
   */
  function Refreshed(it: Item, modificationTime: string -> int, now: int, configure: string -> Configuration): (r: Item)
  {
    if Stale(it, modificationTime) then
      it.(lastLoaded := now, viewer := Configured(it.viewer, configure(it.source)))
    else it
  }

  /** An extension item whose file was modified after it was loaded. */
  predicate Stale(it: Item, modificationTime: string -> int)
  {
    it.isExtension && it.lastLoaded < modificationTime(it.source)
  }

  /** The viewers a timer tick announces: those of the stale items, in item order. */
  function StaleIds(items: seq<Item>, modificationTime: string -> int): (ids: seq<nat>)
  {
    if items == [] then []
    else
      var last := items[|items| - 1];
      StaleIds(items[..|items| - 1], modificationTime) + (if Stale(last, modificationTime) then [last.viewer.id] else [])
  }

  /** A viewer is announced exactly when it is held by a stale item, and no more often than items hold it. */
  lemma {:induction false} StaleIdsAreStaleItems(items: seq<Item>, modificationTime: string -> int)
    ensures |StaleIds(items, modificationTime)| <= |items|
    ensures forall id :: id in StaleIds(items, modificationTime) <==>
      exists k :: 0 <= k < |items| && Stale(items[k], modificationTime) && items[k].viewer.id == id
  {
    if items != [] {
      var init := items[..|items| - 1];
      StaleIdsAreStaleItems(init, modificationTime);
      forall id | id in StaleIds(items, modificationTime)
        ensures exists k :: 0 <= k < |items| && Stale(items[k], modificationTime) && items[k].viewer.id == id
      {
        if id in StaleIds(init, modificationTime) {
          var k :| 0 <= k < |init| && Stale(init[k], modificationTime) && init[k].viewer.id == id;
          assert items[k] == init[k];
        } else {
          assert Stale(items[|items| - 1], modificationTime) && items[|items| - 1].viewer.id == id;
        }
      }
      forall id | exists k :: 0 <= k < |items| && Stale(items[k], modificationTime) && items[k].viewer.id == id
        ensures id in StaleIds(items, modificationTime)
      {
        var k :| 0 <= k < |items| && Stale(items[k], modificationTime) && items[k].viewer.id == id;
        if k < |init| {
          assert init[k] == items[k];
        }
      }
    }
  }

  /** After `showOnly`, the given viewer is the one visible viewer, and with none given no viewer is. */
  lemma ShowOnlyLeavesOne(items: seq<Item>, shown: seq<Item>, id: Option<nat>, bounds: Option<Rect>)
    requires |shown| == |items| && DistinctViewers(items)
    requires forall k :: 0 <= k < |items| ==> shown[k] == Shown(items[k], id, bounds)
    ensures forall k :: 0 <= k < |shown| ==> shown[k].viewer.visible ==> Some(shown[k].viewer.id) == id
    ensures forall i, j :: 0 <= i < j < |shown| ==> !(shown[i].viewer.visible && shown[j].viewer.visible)
    ensures id.Some? && id.value in Ids(items) ==> exists k :: 0 <= k < |shown| && shown[k].viewer.visible
    ensures bounds.Some? ==> forall k :: 0 <= k < |shown| ==> shown[k].viewer.bounds == bounds.value
  {
    if id.Some? && id.value in Ids(items) {
      var k :| 0 <= k < |items| && Ids(items)[k] == id.value;
      assert shown[k].viewer.visible;
    }
  }

  /**
   * A timer tick reconfigures exactly the stale extension items, giving each
   * the name and interests its file now says, and leaves none of them stale.
   */
  lemma RefreshedReconfiguresStale(it: Item, modificationTime: string -> int, now: int, configure: string -> Configuration)
    requires now >= modificationTime(it.source)
    ensures var r := Refreshed(it, modificationTime, now, configure);
      r.source == it.source && r.isExtension == it.isExtension && r.viewer.id == it.viewer.id &&
      (r.viewer.configurations == it.viewer.configurations + 1 <==>
         it.isExtension && it.lastLoaded < modificationTime(it.source)) &&
      (Stale(it, modificationTime) ==>
         r.viewer.name == configure(it.source).name && r.viewer.isInterestedInFile == configure(it.source).isInterestedInFile) &&
      !Stale(r, modificationTime)
  {
  }

  /** The viewers `loadAllInDirectory` creates: one extension item per ".yaml" child, in listing order. */
  function Extensions(children: seq<string>, firstId: nat, now: int, configure: string -> Configuration): seq<Item>
    decreases |children|
  {
    if children == [] then []
    else
      var rest := Extensions(children[1..], firstId + (if IsYaml(children[0]) then 1 else 0), now, configure);
      if IsYaml(children[0]) then
        [Item(true, children[0], now, NewExtensionViewer(firstId, configure(children[0])))] + rest
      else rest
  }

  /** A new `UserExtensionView`, hidden, with empty bounds, configured once. */
  function NewExtensionViewer(id: nat, c: Configuration): (v: Viewer)
  {
    Configured(Viewer(id, "", _ => false, false, Rect(0, 0, 0, 0), 0), c)
  }

  predicate IsYaml(path: string)
  {
    Text.HasFileExtension(path, ".yaml")
  }

  /**
   * Only ".yaml" files become items, each an extension configured once from
   * its own file, so named and interested as that file says.
   */
  lemma {:induction false} ExtensionsAreYaml(children: seq<string>, firstId: nat, now: int, configure: string -> Configuration)
    ensures forall it :: it in Extensions(children, firstId, now, configure) ==>
      it.isExtension && it.source in children && IsYaml(it.source) &&
      it.lastLoaded == now && it.viewer.configurations == 1 && it.viewer.id >= firstId &&
      it.viewer.name == configure(it.source).name && it.viewer.isInterestedInFile == configure(it.source).isInterestedInFile
    ensures |Extensions(children, firstId, now, configure)| <= |children|
    ensures (forall c :: c in children ==> IsYaml(c)) ==> |Extensions(children, firstId, now, configure)| == |children|
    decreases |children|
  {
    if children != [] {
      var next := firstId + (if IsYaml(children[0]) then 1 else 0);
      ExtensionsAreYaml(children[1..], next, now, configure);
      assert forall c :: c in children[1..] ==> c in children;
    }
  }

  // ---------------------------------------------------------------------
  // The collection (Core/ViewerCollection.cpp)

  class ViewerCollection {
    var items: seq<Item>
    var bounds: Rect
    /** The next identity free for a new viewer. */
    var nextId: nat
    /** The viewers listeners were told about, in order, through `extensionViewerReconfigured`. */
    var reconfigured: seq<nat>

    predicate Valid()
      reads this
    {
      DistinctViewers(items) && forall k :: 0 <= k < |items| ==> items[k].viewer.id < nextId
    }

    constructor ()
      ensures Valid() && items == [] && reconfigured == []
    {
      items, bounds, nextId, reconfigured := [], Rect(0, 0, 0, 0), 0, [];
    }

    /** `add`: a new viewer goes at the end as a non-extension item. */
    method Add(viewer: Viewer)
      requires Valid() && viewer.id >= nextId
      modifies this`items, this`nextId
      ensures Valid()
      ensures items == old(items) + [Item(false, "", 0, viewer)]
    {
      items := items + [Item(false, "", 0, viewer)];
      nextId := viewer.id + 1;
    }

    method Clear()
      modifies this`items
      ensures items == []
    {
      items := [];
    }

    /**
     * `loadAllInDirectory`: every ".yaml" child (the listing is given) becomes
     * an extension item configured from that file, announced to the
     * listeners.
     */
    method LoadAllInDirectory(children: seq<string>, now: int, configure: string -> Configuration)
      requires Valid()
      modifies this`items, this`nextId, this`reconfigured
      ensures Valid()
      ensures items == old(items) + Extensions(children, old(nextId), now, configure)
      ensures reconfigured == old(reconfigured) + Ids(Extensions(children, old(nextId), now, configure))
    {
      var n := 0;
      while n < |children|
        invariant 0 <= n <= |children| && Valid()
        invariant items + Extensions(children[n..], nextId, now, configure) == old(items) + Extensions(children, old(nextId), now, configure)
        invariant reconfigured + Ids(Extensions(children[n..], nextId, now, configure)) ==
          old(reconfigured) + Ids(Extensions(children, old(nextId), now, configure))
      {
        var child := children[n];
        assert children[n..][1..] == children[n + 1..];
        if IsYaml(child) {
          var viewer := NewExtensionViewer(nextId, configure(child));
          reconfigured := reconfigured + [viewer.id];
          items := items + [Item(true, child, now, viewer)];
          nextId := nextId + 1;
        }
        n := n + 1;
      }
    }

    /** `setBounds`: stored, and applied to the viewers visible now. */
    method SetBounds(newBounds: Rect)
      requires Valid()
      modifies this`items, this`bounds
      ensures Valid() && bounds == newBounds && |items| == |old(items)|
      ensures forall k :: 0 <= k < |items| ==> items[k] == Bounded(old(items)[k], newBounds, true)
    {
      bounds := newBounds;
      var n := 0;
      while n < |items|
        invariant 0 <= n <= |items| == |old(items)| && bounds == newBounds
        invariant forall k :: 0 <= k < n ==> items[k] == Bounded(old(items)[k], newBounds, true)
        invariant forall k :: n <= k < |items| ==> items[k] == old(items)[k]
      {
        items := items[n := Bounded(items[n], bounds, true)];
        n := n + 1;
      }
    }

    /** `showOnly`: only the given viewer (none for null) stays visible, and all get the stored bounds. */
    method ShowOnly(shouldBeVisible: Option<nat>)
      requires Valid()
      modifies this`items
      ensures Valid() && |items| == |old(items)|
      ensures forall k :: 0 <= k < |items| ==> items[k] == Shown(old(items)[k], shouldBeVisible, Some(bounds))
    {
      var n := 0;
      while n < |items|
        invariant 0 <= n <= |items| == |old(items)|
        invariant forall k :: 0 <= k < n ==> items[k] == Shown(old(items)[k], shouldBeVisible, Some(bounds))
        invariant forall k :: n <= k < |items| ==> items[k] == old(items)[k]
      {
        items := items[n := Shown(items[n], shouldBeVisible, Some(bounds))];
        n := n + 1;
      }
    }

    /**
     * `timerCallback`: each extension item whose file is newer than its load
     * time is configured again from its file, stamped and announced.
     */
    method TimerCallback(modificationTime: string -> int, now: int, configure: string -> Configuration)
      requires Valid()
      modifies this`items, this`reconfigured
      ensures Valid() && |items| == |old(items)|
      ensures forall k :: 0 <= k < |items| ==> items[k] == Refreshed(old(items)[k], modificationTime, now, configure)
      ensures reconfigured == old(reconfigured) + StaleIds(old(items), modificationTime)
    {
      var n := 0;
      while n < |items|
        invariant 0 <= n <= |items| == |old(items)|
        invariant forall k :: 0 <= k < n ==> items[k] == Refreshed(old(items)[k], modificationTime, now, configure)
        invariant forall k :: n <= k < |items| ==> items[k] == old(items)[k]
        invariant reconfigured == old(reconfigured) + StaleIds(old(items)[..n], modificationTime)
      {
        var it := items[n];
        assert old(items)[..n + 1][..n] == old(items)[..n];
        if Stale(it, modificationTime) {
          reconfigured := reconfigured + [it.viewer.id];
        }
        items := items[n := Refreshed(it, modificationTime, now, configure)];
        n := n + 1;
      }
      assert old(items)[..n] == old(items);
    }
  }

  // ---------------------------------------------------------------------
  // The older inline collection (Components/MainComponent.hpp)

  class InlineViewerCollection {
    var items: seq<Item>
    var nextId: nat
    /** The viewers listeners were told about, in order, through `extensionViewerReconfigured`. */
    var reconfigured: seq<nat>

    predicate Valid()
      reads this
    {
      DistinctViewers(items) && forall k :: 0 <= k < |items| ==> items[k].viewer.id < nextId
    }

    constructor ()
      ensures Valid() && items == [] && reconfigured == []
    {
      items, nextId, reconfigured := [], 0, [];
    }

    method Add(viewer: Viewer)
      requires Valid() && viewer.id >= nextId
      modifies this`items, this`nextId
      ensures Valid()
      ensures items == old(items) + [Item(false, "", 0, viewer)]
    {
      items := items + [Item(false, "", 0, viewer)];
      nextId := viewer.id + 1;
    }

    method Clear()
      modifies this`items
      ensures items == []
    {
      items := [];
    }

    /** `loadAllInDirectory`: as in the newer collection. */
    method LoadAllInDirectory(children: seq<string>, now: int, configure: string -> Configuration)
      requires Valid()
      modifies this`items, this`nextId, this`reconfigured
      ensures Valid()
      ensures items == old(items) + Extensions(children, old(nextId), now, configure)
      ensures reconfigured == old(reconfigured) + Ids(Extensions(children, old(nextId), now, configure))
    {
      var n := 0;
      while n < |children|
        invariant 0 <= n <= |children| && Valid()
        invariant items + Extensions(children[n..], nextId, now, configure) == old(items) + Extensions(children, old(nextId), now, configure)
        invariant reconfigured + Ids(Extensions(children[n..], nextId, now, configure)) ==
          old(reconfigured) + Ids(Extensions(children, old(nextId), now, configure))
      {
        var child := children[n];
        assert children[n..][1..] == children[n + 1..];
        if IsYaml(child) {
          var viewer := NewExtensionViewer(nextId, configure(child));
          reconfigured := reconfigured + [viewer.id];
          items := items + [Item(true, child, now, viewer)];
          nextId := nextId + 1;
        }
        n := n + 1;
      }
    }

    /** `setBounds`: in this version every viewer gets the bounds, visible or not. */
    method SetBounds(newBounds: Rect)
      requires Valid()
      modifies this`items
      ensures Valid() && |items| == |old(items)|
      ensures forall k :: 0 <= k < |items| ==> items[k] == Bounded(old(items)[k], newBounds, false)
    {
      var n := 0;
      while n < |items|
        invariant 0 <= n <= |items| == |old(items)| && nextId == old(nextId)
        invariant forall k :: 0 <= k < n ==> items[k] == Bounded(old(items)[k], newBounds, false)
        invariant forall k :: n <= k < |items| ==> items[k] == old(items)[k]
      {
        items := items[n := Bounded(items[n], newBounds, false)];
        n := n + 1;
      }
    }

    /** `showOnly`: visibility only; bounds are not touched in this version. */
    method ShowOnly(shouldBeVisible: Option<nat>)
      requires Valid()
      modifies this`items
      ensures Valid() && |items| == |old(items)|
      ensures forall k :: 0 <= k < |items| ==> items[k] == Shown(old(items)[k], shouldBeVisible, None)
    {
      var n := 0;
      while n < |items|
        invariant 0 <= n <= |items| == |old(items)| && nextId == old(nextId)
        invariant forall k :: 0 <= k < n ==> items[k] == Shown(old(items)[k], shouldBeVisible, None)
        invariant forall k :: n <= k < |items| ==> items[k] == old(items)[k]
      {
        items := items[n := Shown(items[n], shouldBeVisible, None)];
        n := n + 1;
      }
    }

    /** `timerCallback`: as in the newer collection. */
    method TimerCallback(modificationTime: string -> int, now: int, configure: string -> Configuration)
      requires Valid()
      modifies this`items, this`reconfigured
      ensures Valid() && |items| == |old(items)|
      ensures forall k :: 0 <= k < |items| ==> items[k] == Refreshed(old(items)[k], modificationTime, now, configure)
      ensures reconfigured == old(reconfigured) + StaleIds(old(items), modificationTime)
    {
      var n := 0;
      while n < |items|
        invariant 0 <= n <= |items| == |old(items)|
        invariant forall k :: 0 <= k < n ==> items[k] == Refreshed(old(items)[k], modificationTime, now, configure)
        invariant forall k :: n <= k < |items| ==> items[k] == old(items)[k]
        invariant reconfigured == old(reconfigured) + StaleIds(old(items)[..n], modificationTime)
      {
        var it := items[n];
        assert old(items)[..n + 1][..n] == old(items)[..n];
        if Stale(it, modificationTime) {
          reconfigured := reconfigured + [it.viewer.id];
        }
        items := items[n := Refreshed(it, modificationTime, now, configure)];
        n := n + 1;
      }
      assert old(items)[..n] == old(items);
    }
  }
}
