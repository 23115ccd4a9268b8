// The source list (a sorted, duplicate-free list of files with a parallel
// array of captured images) and the status bar (a task counter, a fading
// message and the slices of its bounds) of CounterPlot's main window.
module ComponentsMain {
  import opened Wrappers
  import opened Numbers
  import opened Geometry
  import opened Colours
  import Text

  // ---------------------------------------------------------------------
  // The sorted insert of `Array<File>::addUsingDefaultSort`

  /** `DefaultElementComparator<File>::compareElements`: -1, 0 or 1 by the path order. */
  function Compare(a: string, b: string): int
  {
    if Text.PathLess(a, b) then -1 else if Text.PathLess(b, a) then 1 else 0
  }

  /** Strictly increasing in the path order, hence also free of duplicates. */
  predicate StrictlySorted(s: seq<string>)
  {
    forall i, j :: 0 <= i < j < |s| ==> Text.PathLess(s[i], s[j])
  }

  /**
   * JUCE's `findInsertIndexInSortedArray`: a binary search over
   * `[first, last)` that stops early on an equal element.
   */
  method FindInsertIndex(arr: seq<string>, x: string) returns (first: nat)
    ensures first <= |arr|
    ensures StrictlySorted(arr) && x !in arr ==>
      (forall k :: 0 <= k < first ==> Text.PathLess(arr[k], x)) &&
      (forall k :: first <= k < |arr| ==> Text.PathLess(x, arr[k]))
  {
    first := 0;
    var last := |arr|;
    while first < last
      invariant 0 <= first <= last <= |arr|
      invariant StrictlySorted(arr) && x !in arr ==>
        (forall k :: 0 <= k < first ==> Text.PathLess(arr[k], x)) &&
        (forall k :: last <= k < |arr| ==> Text.PathLess(x, arr[k]))
      decreases last - first
    {
      if Compare(x, arr[first]) == 0 {
        Text.PathLessStrictTotal(x, arr[first]);
        first := first + 1;
        break;
      }
      var halfway := (first + last) / 2;
      if halfway == first {
        if Compare(x, arr[halfway]) >= 0 {
          first := first + 1;
        } else if StrictlySorted(arr) && x !in arr {
          Above(arr, x, halfway);
        }
        break;
      } else if Compare(x, arr[halfway]) >= 0 {
        if StrictlySorted(arr) && x !in arr {
          Below(arr, x, halfway);
        }
        first := halfway;
      } else {
        if StrictlySorted(arr) && x !in arr {
          Above(arr, x, halfway);
        }
        last := halfway;
      }
    }
  }

  /** In a sorted list, an element not after `x` has only smaller elements before it. */
  lemma Below(arr: seq<string>, x: string, h: nat)
    requires StrictlySorted(arr) && x !in arr && h < |arr| && Compare(x, arr[h]) >= 0
    ensures forall k :: 0 <= k <= h ==> Text.PathLess(arr[k], x)
  {
    Text.PathLessStrictTotal(x, arr[h]);
    forall k | 0 <= k < h
      ensures Text.PathLess(arr[k], x)
    {
      Text.PathLessTransitive(arr[k], arr[h], x);
    }
  }

  /** In a sorted list, an element after `x` has only greater elements after it. */
  lemma Above(arr: seq<string>, x: string, h: nat)
    requires StrictlySorted(arr) && x !in arr && h < |arr| && Compare(x, arr[h]) < 0
    ensures forall k :: h <= k < |arr| ==> Text.PathLess(x, arr[k])
  {
    forall k | h < k < |arr|
      ensures Text.PathLess(x, arr[k])
    {
      Text.PathLessTransitive(x, arr[h], arr[k]);
    }
  }

  /** Putting `x` between the smaller and the greater elements keeps the list sorted. */
  lemma InsertKeepsSorted(arr: seq<string>, x: string, k: nat)
    requires StrictlySorted(arr) && k <= |arr|
    requires forall i :: 0 <= i < k ==> Text.PathLess(arr[i], x)
    requires forall i :: k <= i < |arr| ==> Text.PathLess(x, arr[i])
    ensures StrictlySorted(arr[..k] + [x] + arr[k..])
  {
  }

  /** The first index holding `x`, or -1: `Array::indexOf`. */
  function IndexOf(s: seq<string>, x: string): (k: int)
    ensures -1 <= k < |s|
    ensures k >= 0 ==> s[k] == x && x !in s[..k]
    ensures k < 0 ==> x !in s
  {
    if |s| == 0 then -1
    else if s[0] == x then 0
    else
      var k := IndexOf(s[1..], x);
      assert s[1..][..Max(k, 0)] == s[1..1 + Max(k, 0)];
      if k < 0 then -1 else k + 1
  }

  /** `Array::remove (index)`: the element at the index goes; an index out of range changes nothing. */
  function RemoveAt<T>(s: seq<T>, index: int): (r: seq<T>)
    ensures 0 <= index < |s| ==> |r| == |s| - 1 && r == s[..index] + s[index + 1..]
    ensures !(0 <= index < |s|) ==> r == s
  {
    if 0 <= index < |s| then s[..index] + s[index + 1..] else s
  }

  // ---------------------------------------------------------------------
  // SourceList

  /** An `Image`; `NoImage` is the null image. */
  datatype Image = NoImage | Image(id: nat)

  /** `SourceAssets`: the captured image of a source and its thumbnail. */
  datatype Assets = Assets(capture: Image, thumbnail: Image)

  const EmptyAssets := Assets(NoImage, NoImage)

  /** The keys the list reacts to. */
  datatype Key = SpaceKey | CommandA | OtherKey

  /** What a key press asks for: a capture of the current view, or every row selected. */
  datatype KeyAction = NoAction | WantsCapture | SelectAll(rows: nat)

  class SourceList {
    var sources: seq<string>
    var assets: seq<Assets>

    predicate Valid()
      reads this
    {
      |assets| == |sources|
    }

    constructor ()
      ensures Valid() && sources == [] && assets == []
    {
      sources, assets := [], [];
    }

    method Clear()
      modifies this
      ensures Valid() && sources == [] && assets == []
    {
      sources, assets := [], [];
    }

    /** `setSources`: the files as given, each with empty assets. */
    method SetSources(sourcesToShow: seq<string>)
      modifies this
      ensures Valid() && sources == sourcesToShow
      ensures forall k :: 0 <= k < |assets| ==> assets[k] == EmptyAssets
    {
      sources := sourcesToShow;
      assets := seq(|sources|, _ => EmptyAssets);
    }

    /**
     * `addSource`: nothing when the file is listed already; otherwise the
     * file goes in at its sorted position with empty assets at the same index.
     */
    method AddSource(source: string)
      requires Valid()
      modifies this
      ensures Valid()
      ensures source in old(sources) ==> sources == old(sources) && assets == old(assets)
      ensures source !in old(sources) ==>
        (exists k :: 0 <= k <= |old(sources)| &&
           sources == old(sources)[..k] + [source] + old(sources)[k..] &&
           assets == old(assets)[..k] + [EmptyAssets] + old(assets)[k..])
      ensures StrictlySorted(old(sources)) ==> StrictlySorted(sources)
    {
      if source !in sources {
        var k := FindInsertIndex(sources, source);
        if StrictlySorted(sources) {
          InsertKeepsSorted(sources, source, k);
        }
        sources := sources[..k] + [source] + sources[k..];
        var n := IndexOf(sources, source);
        assert sources[k] == source && source !in sources[..k];
        assert n == k;
        assets := assets[..n] + [EmptyAssets] + assets[n..];
      }
    }

    /** `removeSource`: the row of the file goes; a file not listed changes nothing. */
    method RemoveSource(source: string)
      requires Valid()
      modifies this
      ensures Valid()
      ensures source !in old(sources) ==> sources == old(sources) && assets == old(assets)
      ensures source in old(sources) ==> |sources| == |old(sources)| - 1
      ensures sources == RemoveAt(old(sources), IndexOf(old(sources), source))
      ensures assets == RemoveAt(old(assets), IndexOf(old(sources), source))
    {
      RemoveSourceAtRow(IndexOf(sources, source));
    }

    /** `removeSourceAtRow`: the same index goes from both arrays. */
    method RemoveSourceAtRow(row: int)
      requires Valid()
      modifies this
      ensures Valid()
      ensures sources == RemoveAt(old(sources), row) && assets == RemoveAt(old(assets), row)
    {
      sources := RemoveAt(sources, row);
      assets := RemoveAt(assets, row);
    }

    /** `setCaptureForSource`: the image and its quarter-size thumbnail go to the file's row. */
    method SetCaptureForSource(source: string, captured: Image, thumbnail: Image)
      requires Valid() && source in sources
      modifies this
      ensures Valid() && sources == old(sources)
      ensures assets == old(assets)[IndexOf(sources, source) := Assets(captured, thumbnail)]
    {
      var n := IndexOf(sources, source);
      assets := assets[n := Assets(captured, thumbnail)];
    }

    /** `getAllImageAssets`: the captures, row by row. */
    method GetAllImageAssets() returns (captures: seq<Image>)
      requires Valid()
      ensures |captures| == |assets|
      ensures forall k :: 0 <= k < |captures| ==> captures[k] == assets[k].capture
    {
      captures := [];
      for k := 0 to |assets|
        invariant |captures| == k
        invariant forall i :: 0 <= i < k ==> captures[i] == assets[i].capture
      {
        captures := captures + [assets[k].capture];
      }
    }

    /** `getSelectedSources`: the files on the selected rows, in list order. */
    method GetSelectedSources(isRowSelected: set<int>) returns (selected: seq<string>)
      ensures selected == SelectedOf(sources, isRowSelected)
    {
      selected := [];
      var n := 0;
      while n < |sources|
        invariant 0 <= n <= |sources|
        invariant selected == SelectedOf(sources[..n], isRowSelected)
      {
        assert sources[..n + 1][..n] == sources[..n];
        if n in isRowSelected {
          selected := selected + [sources[n]];
        }
        n := n + 1;
      }
      assert sources[..n] == sources;
    }

    function GetNumRows(): nat
      reads this
    {
      |sources|
    }

    /**
     * `deleteKeyPressed`: the row goes, and if it was the last one the row
     * above is to be selected.
     */
    method DeleteKeyPressed(row: int) returns (rowToSelect: Option<int>)
      requires Valid()
      modifies this
      ensures Valid()
      ensures sources == RemoveAt(old(sources), row) && assets == RemoveAt(old(assets), row)
      ensures rowToSelect == if row >= |sources| then Some(row - 1) else None
    {
      RemoveSourceAtRow(row);
      rowToSelect := if row >= GetNumRows() then Some(row - 1) else None;
    }

    /**
     * `selectedRowsChanged`: with exactly one row selected, listeners hear of
     * the file on the last row selected (a default file for an index out of range).
     */
    function SelectedSourceChanged(numSelectedRows: int, lastRowSelected: int): (changed: Option<string>)
      reads this
      ensures changed.Some? <==> numSelectedRows == 1
      ensures changed.Some? && 0 <= lastRowSelected < |sources| ==> changed.value == sources[lastRowSelected]
    {
      if numSelectedRows == 1 then
        Some(if 0 <= lastRowSelected < |sources| then sources[lastRowSelected] else "")
      else None
    }

    /** `keyPressed`: space asks for a capture, command-A selects every row. */
    function KeyPressed(key: Key): (r: (bool, KeyAction))
      reads this
      ensures r.0 <==> key != OtherKey
      ensures key == CommandA ==> r.1 == SelectAll(|sources|)
    {
      match key
      case SpaceKey => (true, WantsCapture)
      case CommandA => (true, SelectAll(|sources|))
      case OtherKey => (false, NoAction)
    }
  }

  /** The entries of `s` on the selected rows, in order. */
  function SelectedOf(s: seq<string>, rows: set<int>): seq<string>
  {
    if s == [] then []
    else SelectedOf(s[..|s| - 1], rows) + (if |s| - 1 in rows then [s[|s| - 1]] else [])
  }

  /** A file is among the selected ones exactly when it is on some selected row. */
  lemma {:induction false} SelectedOfMembers(s: seq<string>, rows: set<int>, x: string)
    ensures x in SelectedOf(s, rows) <==> exists k :: 0 <= k < |s| && k in rows && s[k] == x
  {
    if s != [] {
      var n := |s| - 1;
      SelectedOfMembers(s[..n], rows, x);
      if x in SelectedOf(s[..n], rows) {
        var k :| 0 <= k < n && k in rows && s[..n][k] == x;
        assert s[k] == x;
      }
    }
  }

  /** No more files come back than there are rows. */
  lemma {:induction false} SelectedOfLength(s: seq<string>, rows: set<int>)
    ensures |SelectedOf(s, rows)| <= |s|
    ensures (forall k :: 0 <= k < |s| ==> k in rows) ==> SelectedOf(s, rows) == s
  {
    if s != [] {
      var n := |s| - 1;
      SelectedOfLength(s[..n], rows);
      assert s[..n] + [s[n]] == s;
    }
  }

  // ---------------------------------------------------------------------
  // StatusBar

  /** The five slices of the status bar. */
  datatype StatusGeometry = StatusGeometry(
    busyIndicatorArea: Rect, viewerNamePopupArea: Rect, mousePositionArea: Rect,
    environmentViewToggleArea: Rect, messageArea: Rect)

  /**
   * `computeGeometry`: from the right a square busy indicator, 200 px for the
   * viewer name and 120 px for the mouse position; from the left a 150 px
   * toggle; the message area gets what remains.
   */
  function ComputeGeometry(w: int, h: int): StatusGeometry
  {
    var area := Rect(0, 0, w, h);
    var busy := RemoveFromRight(area, h);
    var name := RemoveFromRight(busy.rest, 200);
    var mouse := RemoveFromRight(name.rest, 120);
    var toggle := RemoveFromLeft(mouse.rest, 150);
    StatusGeometry(busy.taken, name.taken, mouse.taken, toggle.taken, toggle.rest)
  }

  /** On a bar wide enough for all of them, the slices have their sizes and sit side by side. */
  lemma ComputeGeometryLayout(w: int, h: int)
    requires h >= 0 && w >= h + 470
    ensures ComputeGeometry(w, h).busyIndicatorArea == Rect(w - h, 0, h, h)
    ensures ComputeGeometry(w, h).viewerNamePopupArea == Rect(w - h - 200, 0, 200, h)
    ensures ComputeGeometry(w, h).mousePositionArea == Rect(w - h - 320, 0, 120, h)
    ensures ComputeGeometry(w, h).environmentViewToggleArea == Rect(0, 0, 150, h)
    ensures ComputeGeometry(w, h).messageArea == Rect(150, 0, w - h - 470, h)
  {
  }

  /** Which message `paint` draws: an error first, else an info message while tasks run or the countdown lasts. */
  datatype Shown = ShowsNothing | ShowsError(text: string, alpha: real) | ShowsInfo(text: string, alpha: real)

  /** The fade: `jmin (1, ms / 400)`. */
  function Fade(ms: int): real
  {
    if 1.0 < ms as real / 400.0 then 1.0 else ms as real / 400.0
  }

  /** The busy indicator is yellow while any task runs. */
  function BusyIndicatorColour(numberOfAsyncTasks: int): (c: Colour)
    ensures c == (if numberOfAsyncTasks != 0 then Yellow else TransparentBlack)
  {
    if numberOfAsyncTasks != 0 then Yellow else TransparentBlack
  }

  /** The timer's period in milliseconds. */
  const TimerInterval := 40

  /** The duration an error message is shown for. */
  const ErrorMilliseconds := 4000

  /** One timer tick on the remaining display time: down by the interval, stopping at 0. */
  function Tick(ms: int, interval: int): (r: (int, bool))
    ensures r.0 == Max(0, ms - interval)
    ensures r.1 <==> ms - interval > 0
  {
    if ms - interval <= 0 then (0, false) else (ms - interval, true)
  }

  /** `n` ticks from `ms` remaining, with the timer still running. */
  function Ticks(ms: int, interval: int, n: nat): int
    decreases n
  {
    if n == 0 || ms <= 0 then ms else Ticks(Tick(ms, interval).0, interval, n - 1)
  }

  /** A countdown of `ms` milliseconds reaches 0 after `ms / interval` rounded up ticks, and not before. */
  lemma {:induction false} CountdownEnds(ms: int, interval: int, n: nat)
    requires interval > 0 && ms > 0
    ensures Ticks(ms, interval, n) == Max(0, ms - n * interval)
  {
    if n > 0 {
      var next := Tick(ms, interval).0;
      if next > 0 {
        CountdownEnds(next, interval, n - 1);
        assert ms - interval - (n - 1) * interval == ms - n * interval;
      } else {
        assert Ticks(next, interval, n - 1) == 0;
        assert ms - n * interval <= ms - interval by {
          assert (n - 1) * interval >= 0;
        }
      }
    }
  }

  class StatusBar {
    var numberOfAsyncTasks: int
    var millisecondsToDisplayInfo: int
    var timerRunning: bool
    var currentErrorMessage: string
    var currentInfoMessage: string
    var currentViewerName: string
    var mousePositionInFigure: Point

    constructor ()
      ensures numberOfAsyncTasks == 0 && millisecondsToDisplayInfo == 0 && !timerRunning
      ensures currentErrorMessage == "" && currentInfoMessage == ""
    {
      numberOfAsyncTasks, millisecondsToDisplayInfo, timerRunning := 0, 0, false;
      currentErrorMessage, currentInfoMessage, currentViewerName := "", "", "";
      mousePositionInFigure := Point(0.0, 0.0);
    }

    method IncrementAsyncTaskCount()
      modifies this`numberOfAsyncTasks
      ensures numberOfAsyncTasks == old(numberOfAsyncTasks) + 1
    {
      numberOfAsyncTasks := numberOfAsyncTasks + 1;
    }

    method DecrementAsyncTaskCount()
      modifies this`numberOfAsyncTasks
      ensures numberOfAsyncTasks == old(numberOfAsyncTasks) - 1
    {
      numberOfAsyncTasks := numberOfAsyncTasks - 1;
    }

    method SetMousePositionInFigure(position: Point)
      modifies this`mousePositionInFigure
      ensures mousePositionInFigure == position
    {
      mousePositionInFigure := position;
    }

    method SetCurrentViewerName(viewerName: string)
      modifies this`currentViewerName
      ensures currentViewerName == viewerName
    {
      currentViewerName := viewerName;
    }

    /** `setCurrentErrorMessage`: shown for 4000 ms, counted down by the 40 ms timer. */
    method SetCurrentErrorMessage(what: string)
      modifies this`currentErrorMessage, this`millisecondsToDisplayInfo, this`timerRunning
      ensures currentErrorMessage == what
      ensures millisecondsToDisplayInfo == ErrorMilliseconds && timerRunning
    {
      currentErrorMessage := what;
      millisecondsToDisplayInfo := ErrorMilliseconds;
      timerRunning := true;
    }

    /** `setCurrentInfoMessage`: the countdown restarts only for a positive duration. */
    method SetCurrentInfoMessage(info: string, milliseconds: int)
      modifies this`currentInfoMessage, this`millisecondsToDisplayInfo, this`timerRunning
      ensures currentInfoMessage == info
      ensures milliseconds > 0 ==> millisecondsToDisplayInfo == milliseconds && timerRunning
      ensures milliseconds <= 0 ==> millisecondsToDisplayInfo == old(millisecondsToDisplayInfo)
      ensures milliseconds <= 0 ==> timerRunning == old(timerRunning)
    {
      if milliseconds > 0 {
        millisecondsToDisplayInfo := milliseconds;
        timerRunning := true;
      }
      currentInfoMessage := info;
    }

    /** `timerCallback`: the interval is taken off; at 0 or below the count is 0 and the timer stops. */
    method TimerCallback()
      requires timerRunning
      modifies this`millisecondsToDisplayInfo, this`timerRunning
      ensures (millisecondsToDisplayInfo, timerRunning) == Tick(old(millisecondsToDisplayInfo), TimerInterval)
      ensures millisecondsToDisplayInfo >= 0
    {
      millisecondsToDisplayInfo := millisecondsToDisplayInfo - TimerInterval;
      if millisecondsToDisplayInfo <= 0 {
        millisecondsToDisplayInfo := 0;
        timerRunning := false;
      }
    }

    /** The message `paint` draws, with its opacity. */
    function Shown(): (s: Shown)
      reads this
      ensures currentErrorMessage != "" ==> s == ShowsError(currentErrorMessage, Fade(millisecondsToDisplayInfo))
      ensures s.ShowsInfo? ==> currentErrorMessage == "" && currentInfoMessage != ""
      ensures s.ShowsInfo? && numberOfAsyncTasks <= 0 ==> millisecondsToDisplayInfo > 0
    {
      if currentErrorMessage != "" then ShowsError(currentErrorMessage, Fade(millisecondsToDisplayInfo))
      else if currentInfoMessage != "" then
        if numberOfAsyncTasks > 0 then ShowsInfo(currentInfoMessage, 1.0)
        else if millisecondsToDisplayInfo > 0 then ShowsInfo(currentInfoMessage, Fade(millisecondsToDisplayInfo))
        else ShowsNothing
      else ShowsNothing
    }
  }

  /** `indicateSuccess`: the error is cleared and the info shown for 3000 ms. */
  method IndicateSuccess(bar: StatusBar, info: string)
    modifies bar
    ensures bar.currentErrorMessage == "" && bar.currentInfoMessage == info
    ensures bar.millisecondsToDisplayInfo == 3000 && bar.timerRunning
    ensures bar.numberOfAsyncTasks == old(bar.numberOfAsyncTasks)
  {
    bar.SetCurrentErrorMessage("");
    bar.SetCurrentInfoMessage(info, 3000);
  }
}
