// The two-figure views that show a quad-mesh artist next to its colour bar:
// the older jet-in-cloud view of CounterPlot/Source/Views and PatchView's
// binary-torques view. Both keep the figure models in a two-entry list
// (main figure, colour bar), a scalar extent, a colour map collection and
// the artist, and differ only where `showsFile` says.
module GridViews {
  import opened Wrappers
  import opened Geometry
  import opened Colours
  import opened FigureModels
  import opened FigureGrids
  import Vars
  import Text
  import ColourMaps

  datatype ScalarMapping = ScalarMapping(stops: seq<Colour>, vmin: real, vmax: real)

  /** The quad-mesh artist: its extent and its mapping (the vertices are built once and never read here). */
  datatype MeshArtist = MeshArtist(scalarExtent: (real, real), mapping: ScalarMapping)

  /** The artist, and the colour gradient artist made from its mapping, as figure content. */
  const MeshRef: Vars.ArtistRef := Vars.ArtistRef(1, true)
  const GradientRef: Vars.ArtistRef := Vars.ArtistRef(2, false)

  /** The main figure: a default model with a 20 px right margin. */
  const MainModel: FigureModel := Default.(margin := Default.margin.WithRight(20))

  /**
   * The colour bar: no title or labels, a 40/20 px left/right margin,
   * transparent gridlines and no x ticks. The jet-in-cloud view also forbids
   * margin edits.
   */
  function ColourBarModel(showsFile: bool): FigureModel
  {
    var m := Default.(titleShowing := false, xlabelShowing := false, ylabelShowing := false,
                      margin := Default.margin.WithLeft(40).WithRight(20),
                      gridlinesColour := TransparentBlack, xtickCount := 0);
    if showsFile then m.(canEditMargin := false) else m
  }

  datatype Key = LeftKey | RightKey | SpaceKey | ReturnKey | OtherKey

  /** What `reloadFigures` changes: the two figure models and the artist. */
  datatype Shown = Shown(figures: seq<FigureModel>, artist: Option<MeshArtist>)

  /**
   * `reloadFigures` as a function of the view's state: the colour bar spans
   * the scalar extent; with an artist, the artist takes the stops and the
   * extent as its range and the two figures show it and its gradient; the
   * jet-in-cloud view also titles the main figure with the file name.
   */
  function Reloaded(showsFile: bool, figures: seq<FigureModel>, artist: Option<MeshArtist>,
                    extent: (real, real), stops: seq<Colour>, file: string): (r: Shown)
    requires |figures| == 2
    ensures |r.figures| == 2
    ensures r.figures[0] == (if showsFile then figures[0].(title := Text.FileName(file)) else figures[0])
      .(content := if artist.Some? then [MeshRef] else figures[0].content)
    ensures r.figures[1] == figures[1].(ymin := extent.0, ymax := extent.1,
      content := if artist.Some? then [GradientRef] else figures[1].content)
    ensures r.artist.Some? <==> artist.Some?
    ensures r.artist.Some? ==> r.artist.value == artist.value.(mapping := ScalarMapping(stops, extent.0, extent.1))
  {
    var main := if showsFile then figures[0].(title := Text.FileName(file)) else figures[0];
    var colourBar := figures[1].(ymin := extent.0, ymax := extent.1);
    if artist.Some? then
      Shown([main.(content := [MeshRef]), colourBar.(content := [GradientRef])],
            Some(artist.value.(mapping := ScalarMapping(stops, extent.0, extent.1))))
    else
      Shown([main, colourBar], artist)
  }

  /**
   * Reloading keeps what the user edits: both margins, the main figure's
   * limits and labels, the colour bar's x-limits, and the artist's extent;
   * the colour bar's y-limits and the artist's range are the extent.
   */
  lemma ReloadedKeepsEdits(showsFile: bool, figures: seq<FigureModel>, artist: Option<MeshArtist>,
                           extent: (real, real), stops: seq<Colour>, file: string)
    requires |figures| == 2
    ensures var r := Reloaded(showsFile, figures, artist, extent, stops, file);
      r.figures[0].margin == figures[0].margin && r.figures[1].margin == figures[1].margin &&
      GetDomain(r.figures[0]) == GetDomain(figures[0]) &&
      r.figures[0].xlabel == figures[0].xlabel && r.figures[0].ylabel == figures[0].ylabel &&
      r.figures[1].xmin == figures[1].xmin && r.figures[1].xmax == figures[1].xmax &&
      r.figures[1].ymin == extent.0 && r.figures[1].ymax == extent.1 &&
      (r.artist.Some? ==> r.artist.value.scalarExtent == artist.value.scalarExtent &&
                          r.artist.value.mapping.vmin == extent.0 && r.artist.value.mapping.vmax == extent.1)
  {
  }

  /** Reloading twice with the same extent, stops and file is reloading once. */
  lemma ReloadedIdempotent(showsFile: bool, figures: seq<FigureModel>, artist: Option<MeshArtist>,
                           extent: (real, real), stops: seq<Colour>, file: string)
    requires |figures| == 2
    ensures var r := Reloaded(showsFile, figures, artist, extent, stops, file);
      Reloaded(showsFile, r.figures, r.artist, extent, stops, file) == r
  {
    var r := Reloaded(showsFile, figures, artist, extent, stops, file);
    var r2 := Reloaded(showsFile, r.figures, r.artist, extent, stops, file);
    assert r2.figures[0] == r.figures[0] && r2.figures[1] == r.figures[1];
    assert r2.figures == r.figures;
  }

  class GridView {
    /** True for the jet-in-cloud view, which remembers the file and shows its name as the title. */
    const showsFile: bool
    var figures: seq<FigureModel>
    var artist: Option<MeshArtist>
    var scalarExtent: (real, real)
    var currentFile: string
    const cmaps: ColourMaps.ColourMapCollection

    ghost predicate Valid()
      reads this, cmaps
    {
      |figures| == 2 && cmaps.Valid() && |cmaps.names| > 0
    }

    /** The fields `reloadFigures` changes, as one value. */
    function Current(): Shown
      reads this
    {
      Shown(figures, artist)
    }

    /**
     * The constructor: the eight default colour maps (their stops come from
     * resources and are given), a main figure and a colour bar, no artist.
     */
    constructor (showsFile: bool, defaultStops: seq<seq<Colour>>)
      requires |defaultStops| == |ColourMaps.DefaultNames|
      ensures Valid() && fresh(cmaps) && this.showsFile == showsFile
      ensures figures == [MainModel, ColourBarModel(showsFile)] && artist == None
      ensures cmaps.names == ColourMaps.DefaultNames && cmaps.currentIndex == 0
    {
      this.showsFile := showsFile;
      figures := [MainModel, ColourBarModel(showsFile)];
      artist := None;
      scalarExtent := (0.0, 0.0);
      currentFile := "";
      cmaps := new ColourMaps.ColourMapCollection(true, defaultStops);
    }

    /**
     * `reloadFigures`: the colour bar spans the scalar extent; with an artist,
     * the artist takes the current colour map and the extent as its range and
     * the two figures show it and its gradient; the jet-in-cloud view also
     * titles the main figure with the file name.
     */
    method ReloadFigures()
      requires Valid()
      modifies this`figures, this`artist
      ensures Valid()
      ensures var main := old(figures[0]);
        figures[0] == (if showsFile then main.(title := Text.FileName(currentFile)) else main)
          .(content := if artist.Some? then [MeshRef] else main.content)
      ensures figures[1] == old(figures[1]).(ymin := scalarExtent.0, ymax := scalarExtent.1,
        content := if artist.Some? then [GradientRef] else old(figures[1]).content)
      ensures artist.Some? <==> old(artist).Some?
      ensures artist.Some? ==> artist.value == old(artist).value.(
        mapping := ScalarMapping(cmaps.GetCurrentStops(), scalarExtent.0, scalarExtent.1))
      ensures Current() == Reloaded(showsFile, old(figures), old(artist), scalarExtent, cmaps.GetCurrentStops(), currentFile)
    {
      var main := figures[0];
      var colourBar := figures[1];
      if showsFile {
        main := main.(title := Text.FileName(currentFile));
      }
      colourBar := colourBar.(ymin := scalarExtent.0, ymax := scalarExtent.1);
      if artist.Some? {
        artist := Some(artist.value.(mapping := ScalarMapping(cmaps.GetCurrentStops(), scalarExtent.0, scalarExtent.1)));
        main := main.(content := [MeshRef]);
        colourBar := colourBar.(content := [GradientRef]);
      }
      figures := [main, colourBar];
      ghost var r := Reloaded(showsFile, old(figures), old(artist), scalarExtent, cmaps.GetCurrentStops(), currentFile);
      assert figures[0] == r.figures[0] && figures[1] == r.figures[1];
      assert figures == r.figures;
    }

    /**
     * `loadFile` / `setDocumentFile`: the artist built from the file (reading
     * it is not part of this model) replaces the old one, its extent becomes
     * the view's, and the figures are reloaded.
     */
    method LoadArtist(file: string, built: MeshArtist) returns (loaded: bool)
      requires Valid()
      modifies this`figures, this`artist, this`scalarExtent, this`currentFile
      ensures Valid() && loaded
      ensures scalarExtent == built.scalarExtent
      ensures currentFile == if showsFile then file else old(currentFile)
      ensures artist == Some(built.(mapping := ScalarMapping(cmaps.GetCurrentStops(), scalarExtent.0, scalarExtent.1)))
      ensures figures[1].ymin == built.scalarExtent.0 && figures[1].ymax == built.scalarExtent.1
      ensures Current() == Reloaded(showsFile, old(figures), Some(built), built.scalarExtent,
                                    cmaps.GetCurrentStops(), currentFile)
    {
      artist := Some(built);
      scalarExtent := built.scalarExtent;
      if showsFile {
        currentFile := file;
      }
      ReloadFigures();
      loaded := true;
    }

    /**
     * `keyPressed`: left and right step the colour map back and forward,
     * space resets the range to the artist's extent (dereferencing the
     * artist, so it must exist); the binary-torques view also handles return
     * (a snapshot, handled when its file could be opened).
     */
    method KeyPressed(key: Key, snapshotOpened: bool) returns (handled: bool)
      requires Valid()
      requires key == SpaceKey ==> artist.Some?
      modifies this`figures, this`artist, this`scalarExtent, cmaps
      ensures Valid()
      ensures handled <==> key in {LeftKey, RightKey, SpaceKey} || (key == ReturnKey && !showsFile && snapshotOpened)
      ensures key == LeftKey ==> cmaps.currentIndex == ColourMaps.PrevIndex(old(cmaps.currentIndex), |cmaps.names|)
      ensures key == RightKey ==> cmaps.currentIndex == ColourMaps.NextIndex(old(cmaps.currentIndex), |cmaps.names|)
      ensures key == SpaceKey ==> scalarExtent == old(artist).value.scalarExtent
      ensures key in {LeftKey, RightKey, SpaceKey} ==> artist.Some? ==>
        artist.value.mapping == ScalarMapping(cmaps.GetCurrentStops(), scalarExtent.0, scalarExtent.1)
      ensures key !in {LeftKey, RightKey, SpaceKey} ==>
        figures == old(figures) && artist == old(artist) && cmaps.currentIndex == old(cmaps.currentIndex)
      ensures cmaps.names == old(cmaps.names) && cmaps.stops == old(cmaps.stops)
      ensures key !in {LeftKey, RightKey} ==> cmaps.currentIndex == old(cmaps.currentIndex)
      ensures key != SpaceKey ==> scalarExtent == old(scalarExtent)
      ensures key in {LeftKey, RightKey, SpaceKey} ==>
        Current() == Reloaded(showsFile, old(figures), old(artist), scalarExtent, cmaps.GetCurrentStops(), currentFile)
      ensures key !in {LeftKey, RightKey, SpaceKey} ==> Current() == old(Current())
    {
      if key == LeftKey {
        var _ := cmaps.Prev();
        ReloadFigures();
        return true;
      }
      if key == RightKey {
        var _ := cmaps.Next();
        ReloadFigures();
        return true;
      }
      if key == SpaceKey {
        scalarExtent := artist.value.scalarExtent;
        ReloadFigures();
        return true;
      }
      if key == ReturnKey && !showsFile {
        return snapshotOpened;
      }
      return false;
    }

    /** `figureViewSetMargin`: the source's margin, carried along its row and column. */
    method FigureViewSetMargin(figure: nat, value: Border)
      requires Valid() && figure < 2
      modifies this`figures
      ensures Valid()
      ensures figures[figure] == old(figures[figure]).(margin := value)
      ensures figures[1 - figure] == old(figures[1 - figure]).(margin :=
        old(figures[1 - figure]).margin.WithTop(value.top).WithBottom(value.bottom))
    {
      var other := 1 - figure;
      figures := PropagateMargin(figures, figure, value);
      TwoFigureMargins(old(figures[other]).margin, figure, value);
    }

    /**
     * `figureViewSetDomain`: the figure takes the domain as its limits; a
     * change to the colour bar while an artist exists becomes the scalar
     * extent and reloads the figures.
     */
    method FigureViewSetDomain(figure: nat, value: Domain)
      requires Valid() && figure < 2
      modifies this`figures, this`artist, this`scalarExtent
      ensures Valid()
      ensures GetDomain(figures[figure]) == value
      ensures figure == 1 && old(artist).Some? ==>
        scalarExtent == (value.y, value.Bottom()) && artist.Some? &&
        artist.value.mapping.vmin == value.y && artist.value.mapping.vmax == value.Bottom()
      ensures !(figure == 1 && old(artist).Some?) ==>
        scalarExtent == old(scalarExtent) && artist == old(artist) &&
        figures == old(figures)[figure := SetDomain(old(figures[figure]), value)]
      ensures figure == 1 && old(artist).Some? ==>
        Current() == Reloaded(showsFile, old(figures)[1 := SetDomain(old(figures[1]), value)], old(artist),
                              (value.y, value.Bottom()), cmaps.GetCurrentStops(), currentFile)
    {
      figures := MutateFigure(figures, figure, SetLimits(value));
      DomainRoundTrip(old(figures[figure]), value);
      if artist.Some? && figure == 1 {
        scalarExtent := (figures[1].ymin, figures[1].ymax);
        ReloadFigures();
      }
    }

    /** `figureViewSetXlabel`: only that figure's x label changes. */
    method FigureViewSetXlabel(figure: nat, value: string)
      requires Valid() && figure < 2
      modifies this`figures
      ensures Valid() && figures == old(figures)[figure := old(figures[figure]).(xlabel := value)]
    {
      figures := MutateFigure(figures, figure, (m: FigureModel) => m.(xlabel := value));
    }

    /** `figureViewSetYlabel`: only that figure's y label changes. */
    method FigureViewSetYlabel(figure: nat, value: string)
      requires Valid() && figure < 2
      modifies this`figures
      ensures Valid() && figures == old(figures)[figure := old(figures[figure]).(ylabel := value)]
    {
      figures := MutateFigure(figures, figure, (m: FigureModel) => m.(ylabel := value));
    }

    /** `figureViewSetTitle`: only that figure's title changes. */
    method FigureViewSetTitle(figure: nat, value: string)
      requires Valid() && figure < 2
      modifies this`figures
      ensures Valid() && figures == old(figures)[figure := old(figures[figure]).(title := value)]
    {
      figures := MutateFigure(figures, figure, (m: FigureModel) => m.(title := value));
    }
  }

  // ---------------------------------------------------------------------
  // PatchView's binary-torques artist

  /** The six corners of cell (i, j) of an ni x nj grid over [-8, 8] x [-8, 8]. */
  function CellVertices(i: int, j: int, ni: nat, nj: nat): seq<Point>
    requires ni > 0 && nj > 0
  {
    var x0 := -8.0 + (i as real) * 16.0 / (ni as real);
    var y0 := -8.0 + (j as real) * 16.0 / (nj as real);
    var x1 := -8.0 + ((i + 1) as real) * 16.0 / (ni as real);
    var y1 := -8.0 + ((j + 1) as real) * 16.0 / (nj as real);
    [Point(x0, y0), Point(x0, y1), Point(x1, y0), Point(x0, y1), Point(x1, y0), Point(x1, y1)]
  }

  /** Is every row of the table as long as the first? */
  predicate Rectangular(data: seq<seq<real>>)
  {
    forall i :: 0 <= i < |data| ==> |data[i]| == |data[0]|
  }

  /** The scalar of each cell, row by row, six times each: the log of the cell's value. */
  function Scalars(data: seq<seq<real>>, log10: real -> real): seq<real>
  {
    if data == [] then [] else Scalars(data[..|data| - 1], log10) + RowScalars(data[|data| - 1], log10)
  }

  function RowScalars(row: seq<real>, log10: real -> real): seq<real>
  {
    if row == [] then [] else RowScalars(row[..|row| - 1], log10) + Six(log10(row[|row| - 1]))
  }

  function Six(c: real): seq<real>
  {
    [c, c, c, c, c, c]
  }

  /** The smallest and largest of a non-empty sequence. */
  function MinOf(s: seq<real>): (m: real)
    requires |s| > 0
    ensures m in s && forall x :: x in s ==> m <= x
  {
    if |s| == 1 then s[0]
    else
      var m := MinOf(s[..|s| - 1]);
      assert forall x :: x in s ==> x in s[..|s| - 1] || x == s[|s| - 1];
      if s[|s| - 1] < m then s[|s| - 1] else m
  }

  function MaxOf(s: seq<real>): (m: real)
    requires |s| > 0
    ensures m in s && forall x :: x in s ==> x <= m
  {
    if |s| == 1 then s[0]
    else
      var m := MaxOf(s[..|s| - 1]);
      assert forall x :: x in s ==> x in s[..|s| - 1] || x == s[|s| - 1];
      if s[|s| - 1] > m then s[|s| - 1] else m
  }

  /** Each row contributes six scalars per value. */
  lemma {:induction false} RowScalarsLength(row: seq<real>, log10: real -> real)
    ensures |RowScalars(row, log10)| == 6 * |row|
  {
    if row != [] {
      RowScalarsLength(row[..|row| - 1], log10);
    }
  }

  lemma ScalarsLength(data: seq<seq<real>>, log10: real -> real)
    requires Rectangular(data)
    ensures |Scalars(data, log10)| == 6 * |data| * (if data == [] then 0 else |data[0]|)
  {
    if data != [] {
      var w := |data[0]|;
      ScalarsOfWidth(data, log10, w);
    }
  }

  /** Rows of `w` values give six scalars per value. */
  lemma {:induction false} ScalarsOfWidth(data: seq<seq<real>>, log10: real -> real, w: nat)
    requires forall i :: 0 <= i < |data| ==> |data[i]| == w
    ensures |Scalars(data, log10)| == 6 * |data| * w
  {
    if data != [] {
      var n := |data| - 1;
      ScalarsOfWidth(data[..n], log10, w);
      RowScalarsLength(data[n], log10);
      assert 6 * (n + 1) * w == 6 * n * w + 6 * w;
    }
  }

  /**
   * The `QuadmeshArtist` constructor: six vertices and six scalars per cell,
   * row by row, and the mapping's range (the extent) the minimum and maximum
   * of the scalars, which is undefined for an empty table.
   */
  method BuildQuadmesh(data: seq<seq<real>>, log10: real -> real, magma: seq<Colour>)
    returns (vertices: seq<Point>, scalars: seq<real>, artist: MeshArtist)
    requires Rectangular(data) && |data| > 0 && |data[0]| > 0
    ensures scalars == Scalars(data, log10)
    ensures |vertices| == |scalars| == 6 * |data| * |data[0]|
    ensures artist.scalarExtent == (MinOf(scalars), MaxOf(scalars))
    ensures artist.mapping == ScalarMapping(magma, MinOf(scalars), MaxOf(scalars))
  {
    var ni := |data|;
    var nj := |data[0]|;
    vertices, scalars := [], [];
    for i := 0 to ni
      invariant scalars == Scalars(data[..i], log10)
      invariant |vertices| == |scalars|
    {
      var rowVertices, rowScalars := BuildRow(data[i], i, ni, nj, log10);
      assert data[..i + 1][..i] == data[..i];
      vertices := vertices + rowVertices;
      scalars := scalars + rowScalars;
    }
    assert data[..ni] == data;
    ScalarsLength(data, log10);
    var lo := MinOf(scalars);
    var hi := MaxOf(scalars);
    artist := MeshArtist((lo, hi), ScalarMapping(magma, lo, hi));
  }

  /** The inner loop over one row of the table. */
  method BuildRow(row: seq<real>, i: int, ni: nat, nj: nat, log10: real -> real)
    returns (vertices: seq<Point>, scalars: seq<real>)
    requires ni > 0 && nj > 0 && |row| == nj
    ensures scalars == RowScalars(row, log10) && |vertices| == |scalars|
  {
    vertices, scalars := [], [];
    for j := 0 to |row|
      invariant scalars == RowScalars(row[..j], log10)
      invariant |vertices| == |scalars|
    {
      var c := log10(row[j]);
      vertices := vertices + CellVertices(i, j, ni, nj);
      scalars := scalars + Six(c);
      assert row[..j + 1][..j] == row[..j];
    }
    assert row[..|row|] == row;
  }
}
