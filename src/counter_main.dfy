// CounterPlot's first main window: a status bar with a three-state busy
// indicator, a directory tree and a stack of file views of which the first
// one interested in the selected file is shown.
module CounterMain {
  import opened Geometry
  import opened Colours

  // ---------------------------------------------------------------------
  // Status bar

  datatype BusyIndicatorStatus = Idle | Running | Waiting

  /** The colour `paint` fills the busy indicator with. */
  function BusyIndicatorColour(status: BusyIndicatorStatus): (c: Colour)
    ensures status == Idle <==> c.a == 0
    ensures status == Waiting <==> c == Red
  {
    match status
    case Idle => TransparentBlack
    case Running => Yellow
    case Waiting => Red
  }

  class StatusBar {
    var status: BusyIndicatorStatus
    var mousePositionInFigure: Point
    var currentViewerName: string

    constructor ()
      ensures status == Idle && currentViewerName == ""
    {
      status := Idle;
      mousePositionInFigure := Point(0.0, 0.0);
      currentViewerName := "";
    }

    method SetBusyIndicatorStatus(newStatus: BusyIndicatorStatus)
      modifies this`status
      ensures status == newStatus
    {
      status := newStatus;
    }

    method SetMousePositionInFigure(position: Point)
      modifies this`mousePositionInFigure
      ensures mousePositionInFigure == position
    {
      mousePositionInFigure := position;
    }

    method SetCurrentViewerName(viewerName: string)
      modifies this`currentViewerName
      ensures currentViewerName == viewerName
    {
      currentViewerName := viewerName;
    }
  }

  // ---------------------------------------------------------------------
  // Views

  /** A file view: its name and the files it is interested in. */
  datatype View = View(viewerName: string, isInterestedInFile: string -> bool)

  /** `DefaultView`: interested in every file, with an empty name. */
  const DefaultView: View := View("", _ => true)

  /** The index of the first view interested in the file, or -1. */
  function FirstInterested(views: seq<View>, file: string): (k: int)
    ensures -1 <= k < |views|
    ensures k >= 0 ==> views[k].isInterestedInFile(file)
    ensures forall j :: 0 <= j < |views| && (k < 0 || j < k) ==> !views[j].isInterestedInFile(file)
  {
    if |views| == 0 then -1
    else
      var k := FirstInterested(views[..|views| - 1], file);
      if k >= 0 then k
      else if views[|views| - 1].isInterestedInFile(file) then |views| - 1
      else -1
  }

  /** How many views are visible. */
  function CountVisible(visible: seq<bool>): nat
  {
    if visible == [] then 0 else CountVisible(visible[..|visible| - 1]) + (if visible[|visible| - 1] then 1 else 0)
  }

  /** Exactly the view at index `k` is visible: the count is 1 when `k` is an index, else 0. */
  lemma {:induction false} CountOnlyVisible(visible: seq<bool>, k: int)
    requires forall j :: 0 <= j < |visible| ==> visible[j] == (j == k)
    ensures CountVisible(visible) == if 0 <= k < |visible| then 1 else 0
  {
    if visible != [] {
      var n := |visible| - 1;
      CountOnlyVisible(visible[..n], if k < n then k else -1);
    }
  }

  /** With the default view last, some view is always interested in the file. */
  lemma DefaultViewCatchesAll(views: seq<View>, file: string)
    requires |views| > 0 && views[|views| - 1] == DefaultView
    ensures 0 <= FirstInterested(views, file) < |views|
  {
    assert views[|views| - 1].isInterestedInFile(file);
  }

  // ---------------------------------------------------------------------
  // Layout

  /** Where `layout` puts the status bar, the directory tree and the views. */
  datatype Layout = Layout(statusBar: Rect, directoryTree: Rect, views: Rect)

  function ComputeLayout(w: int, h: int, directoryTreeShowing: bool): Layout
  {
    var bottom := RemoveFromBottom(Rect(0, 0, w, h), 22);
    if directoryTreeShowing then
      var left := RemoveFromLeft(bottom.rest, 300);
      Layout(bottom.taken, left.taken, left.rest)
    else
      Layout(bottom.taken, bottom.rest.WithWidth(300).Translated(-300, 0), bottom.rest)
  }

  /** The status bar gets the bottom 22 px; the tree the left 300 px when showing, else a strip just off the left edge. */
  lemma LayoutRegions(w: int, h: int, directoryTreeShowing: bool)
    requires w >= 300 && h >= 22
    ensures ComputeLayout(w, h, directoryTreeShowing).statusBar == Rect(0, h - 22, w, 22)
    ensures directoryTreeShowing ==> ComputeLayout(w, h, directoryTreeShowing).directoryTree == Rect(0, 0, 300, h - 22)
    ensures directoryTreeShowing ==> ComputeLayout(w, h, directoryTreeShowing).views == Rect(300, 0, w - 300, h - 22)
    ensures !directoryTreeShowing ==> ComputeLayout(w, h, directoryTreeShowing).directoryTree == Rect(-300, 0, 300, h - 22)
    ensures !directoryTreeShowing ==> ComputeLayout(w, h, directoryTreeShowing).views == Rect(0, 0, w, h - 22)
  {
  }

  // ---------------------------------------------------------------------
  // The main component

  class MainComponent {
    const views: seq<View>
    var visible: seq<bool>
    /** The file each view was last asked to load, if any. */
    var loaded: seq<string>
    var timesLoaded: seq<nat>
    var currentFile: string
    /**
     * Whether the directory tree is shown. Its declaration is not among the
     * lines of CounterPlot/Source/MainComponent.hpp modelled here; it starts
     * true, as the member initialiser in
     * CounterPlot/Source/Components/MainComponent.hpp:198 has it.
     */
    var directoryTreeShowing: bool
    const statusBar: StatusBar

    predicate Valid()
      reads this
    {
      |visible| == |views| && |loaded| == |views| && |timesLoaded| == |views|
    }

    /**
     * The constructor: the given viewers followed by the default view, all
     * hidden but the last.
     */
    constructor (viewers: seq<View>)
      ensures Valid() && views == viewers + [DefaultView] && directoryTreeShowing
      ensures forall k :: 0 <= k < |views| ==> visible[k] == (k == |views| - 1)
      ensures fresh(statusBar)
    {
      views := viewers + [DefaultView];
      visible := seq(|viewers|, _ => false) + [true];
      loaded := seq(|viewers| + 1, _ => "");
      timesLoaded := seq(|viewers| + 1, _ => 0);
      currentFile := "";
      directoryTreeShowing := true;
      statusBar := new StatusBar();
    }

    /**
     * `reloadCurrentFile`: the first view interested in the current file is
     * shown, loads it and names the status bar; every other view is hidden.
     */
    method ReloadCurrentFile()
      requires Valid()
      modifies this`visible, this`loaded, this`timesLoaded, statusBar`currentViewerName
      ensures Valid() && currentFile == old(currentFile)
      ensures forall k :: 0 <= k < |views| ==> visible[k] == (k == FirstInterested(views, currentFile))
      ensures var k := FirstInterested(views, currentFile);
        if k >= 0 then
          loaded == old(loaded)[k := currentFile] && timesLoaded == old(timesLoaded)[k := old(timesLoaded)[k] + 1] &&
          statusBar.currentViewerName == views[k].viewerName
        else
          loaded == old(loaded) && timesLoaded == old(timesLoaded) &&
          statusBar.currentViewerName == old(statusBar.currentViewerName)
    {
      var found := false;
      var file := currentFile;
      var n := 0;
      while n < |views|
        invariant 0 <= n <= |views| && |visible| == |views| && |loaded| == |views| && |timesLoaded| == |views|
        invariant found <==> 0 <= FirstInterested(views, file) < n
        invariant forall k :: 0 <= k < n ==> visible[k] == (k == FirstInterested(views, file))
        invariant var k := FirstInterested(views, file);
          if 0 <= k < n then
            loaded == old(loaded)[k := file] && timesLoaded == old(timesLoaded)[k := old(timesLoaded)[k] + 1] &&
            statusBar.currentViewerName == views[k].viewerName
          else
            loaded == old(loaded) && timesLoaded == old(timesLoaded) &&
            statusBar.currentViewerName == old(statusBar.currentViewerName)
      {
        if !found && views[n].isInterestedInFile(file) {
          found := true;
          visible := visible[n := true];
          loaded := loaded[n := file];
          timesLoaded := timesLoaded[n := timesLoaded[n] + 1];
          statusBar.SetCurrentViewerName(views[n].viewerName);
        } else {
          visible := visible[n := false];
        }
        n := n + 1;
      }
    }

    /** `selectedFileChanged`: the file is recorded and then reloaded. */
    method SelectedFileChanged(file: string)
      requires Valid()
      modifies this`currentFile, this`visible, this`loaded, this`timesLoaded, statusBar`currentViewerName
      ensures Valid() && currentFile == file
      ensures forall k :: 0 <= k < |views| ==> visible[k] == (k == FirstInterested(views, file))
    {
      currentFile := file;
      ReloadCurrentFile();
    }

    method ToggleDirectoryTreeShown()
      modifies this`directoryTreeShowing
      ensures directoryTreeShowing == !old(directoryTreeShowing)
    {
      directoryTreeShowing := !directoryTreeShowing;
    }

    method FigureMousePosition(position: Point)
      modifies statusBar`mousePositionInFigure
      ensures statusBar.mousePositionInFigure == position
    {
      statusBar.SetMousePositionInFigure(position);
    }

    /** The loading thread's three notifications set the busy indicator. */
    method DataLoadingThreadWaiting()
      modifies statusBar`status
      ensures statusBar.status == Waiting
    {
      statusBar.SetBusyIndicatorStatus(Waiting);
    }

    method DataLoadingThreadRunning()
      modifies statusBar`status
      ensures statusBar.status == Running
    {
      statusBar.SetBusyIndicatorStatus(Running);
    }

    method DataLoadingThreadFinished()
      modifies statusBar`status
      ensures statusBar.status == Idle
    {
      statusBar.SetBusyIndicatorStatus(Idle);
    }
  }

  /** After a reload with the default view last, exactly one view is visible. */
  lemma ExactlyOneVisible(views: seq<View>, visible: seq<bool>, file: string)
    requires |views| > 0 && views[|views| - 1] == DefaultView && |visible| == |views|
    requires forall k :: 0 <= k < |views| ==> visible[k] == (k == FirstInterested(views, file))
    ensures CountVisible(visible) == 1
  {
    DefaultViewCatchesAll(views, file);
    CountOnlyVisible(visible, FirstInterested(views, file));
  }
}
