// CounterPlot's binary-torques view: a quad-mesh artist built cell by cell
// from a table of surface densities, interruptible after every cell, with a
// running scalar extent; and the view that keeps a main figure and a colour
// bar in step with the artist's scalar mapping.
module BinaryTorques {
  import opened Wrappers
  import opened Geometry
  import opened Colours
  import opened FigureModels
  import opened GridViews
  import Text
  import ColourMaps

  // ---------------------------------------------------------------------
  // The cells of the table and what the artist makes of them

  /** The table's values in row-major order. */
  function Cells(data: seq<seq<real>>): seq<real>
  {
    if data == [] then [] else Cells(data[..|data| - 1]) + data[|data| - 1]
  }

  /** The scalar of each cell: the base-10 logarithm of its value. */
  function Logs(cs: seq<real>, log10: real -> real): (r: seq<real>)
    ensures |r| == |cs|
  {
    if cs == [] then [] else Logs(cs[..|cs| - 1], log10) + [log10(cs[|cs| - 1])]
  }

  /** Every scalar six times, once per vertex of its two triangles. */
  function SixEach(s: seq<real>): (r: seq<real>)
  {
    if s == [] then [] else SixEach(s[..|s| - 1]) + Six(s[|s| - 1])
  }

  /** The running extent: `seed` widened by each value in turn. */
  function Extent(seed: (real, real), s: seq<real>): (real, real)
  {
    if s == [] then seed
    else
      Widen(Extent(seed, s[..|s| - 1]), s[|s| - 1])
  }

  /** One step of the running extent. */
  function Widen(e: (real, real), c: real): (real, real)
  {
    (if c < e.0 then c else e.0, if c > e.1 then c else e.1)
  }

  /** The number of cells processed: up to and including the first one after which `bailout` answers true. */
  function Processed(bailout: nat -> bool, from: nat, n: nat): (p: nat)
    requires from <= n
    ensures from <= p <= n
    decreases n - from
  {
    if from == n then n else if bailout(from) then from + 1 else Processed(bailout, from + 1, n)
  }

  /** The `Processed` count is exactly one past the first bailing call, or all cells. */
  lemma {:induction false} ProcessedIsFirstBail(bailout: nat -> bool, from: nat, n: nat)
    requires from <= n
    ensures var p := Processed(bailout, from, n);
      (forall m :: from <= m < p - 1 ==> !bailout(m)) &&
      (p < n || (p == n && n > from && bailout(n - 1)) <==> exists m :: from <= m < n && bailout(m)) &&
      (p > from ==> (bailout(p - 1) || p == n))
    decreases n - from
  {
    if from < n && !bailout(from) {
      ProcessedIsFirstBail(bailout, from + 1, n);
      var p := Processed(bailout, from, n);
      if exists m :: from <= m < n && bailout(m) {
        var m :| from <= m < n && bailout(m);
        assert from + 1 <= m;
      }
    }
  }

  /** With no bailing call before `k` and one at `k`, exactly `k + 1` cells are processed. */
  lemma {:induction false} ProcessedStopsAt(bailout: nat -> bool, from: nat, k: nat, n: nat)
    requires from <= k < n && bailout(k) && forall m :: from <= m < k ==> !bailout(m)
    ensures Processed(bailout, from, n) == k + 1
    decreases k - from
  {
    if from < k {
      ProcessedStopsAt(bailout, from + 1, k, n);
    }
  }

  /** With no bailing call at all, every cell is processed. */
  lemma {:induction false} ProcessedAll(bailout: nat -> bool, from: nat, n: nat)
    requires from <= n && forall m :: from <= m < n ==> !bailout(m)
    ensures Processed(bailout, from, n) == n
    decreases n - from
  {
    if from < n {
      ProcessedAll(bailout, from + 1, n);
    }
  }

  /** The artist as built: whether it finished, its extent, its mapping and its arrays. */
  datatype TorquesArtist = TorquesArtist(complete: bool, scalarExtent: (real, real), mapping: ScalarMapping,
                                         vertices: seq<Point>, scalars: seq<real>)

  /** The member initialiser of a mapping: no stops, range [0, 1]. */
  const DefaultMapping: ScalarMapping := ScalarMapping([], 0.0, 1.0)

  /**
   * The `QuadmeshArtist` constructor. The extent is seeded with the raw value
   * of cell (0, 0) and then widened by each cell's logarithm, so it spans
   * that raw value as well as the scalars (see `RawSeedWidensExtent`; the
   * evidently intended extent is `IntendedExtent`). Each cell's logarithm
   * joins the scalars; `bailout` is asked after every cell (its k-th answer
   * is `bailout(k)`) and a true answer stops construction with `complete`
   * false and the default mapping. After the last cell the mapping is the
   * magma stops over the extent.
   */
  method BuildTorquesArtist(data: seq<seq<real>>, log10: real -> real, bailout: nat -> bool, magma: seq<Colour>)
    returns (artist: TorquesArtist)
    requires Rectangular(data) && |data| > 0 && |data[0]| > 0
    ensures var cs := Logs(Cells(data), log10);
      var p := Processed(bailout, 0, |cs|);
      var d := data[0][0];
      0 < p <= |cs| &&
      artist.scalars == SixEach(cs[..p]) && |artist.vertices| == |artist.scalars| &&
      artist.scalarExtent == (if d < MinOf(cs[..p]) then d else MinOf(cs[..p]),
                              if d > MaxOf(cs[..p]) then d else MaxOf(cs[..p])) &&
      (artist.complete <==> forall m :: 0 <= m < |cs| ==> !bailout(m)) &&
      artist.mapping == if artist.complete then ScalarMapping(magma, artist.scalarExtent.0, artist.scalarExtent.1) else DefaultMapping
  {
    var d := data[0][0];
    var vertices, scalars, extent, count, stopped := BuildCells(data, (d, d), log10, bailout);
    ghost var cs := Logs(Cells(data), log10);
    Finish(Cells(data), count, log10);
    SeededExtentIsMinMax(d, cs[..count]);
    artist := TorquesArtist(!stopped, extent, if stopped then DefaultMapping else ScalarMapping(magma, extent.0, extent.1),
                            vertices, scalars);
  }

  /**
   * The artist's loop over the rows: the vertices, scalars and extent of the
   * cells processed, how many there were, and whether `bailout` stopped it.
   */
  method BuildCells(data: seq<seq<real>>, seed: (real, real), log10: real -> real, bailout: nat -> bool)
    returns (vertices: seq<Point>, scalars: seq<real>, extent: (real, real), count: nat, stopped: bool)
    requires Rectangular(data) && |data| > 0 && |data[0]| > 0
    ensures var all := Cells(data);
      0 < count == Processed(bailout, 0, |all|) &&
      scalars == SixEach(Logs(all[..count], log10)) && |vertices| == |scalars| &&
      extent == Extent(seed, Logs(all[..count], log10)) &&
      (stopped <==> exists m :: 0 <= m < |all| && bailout(m))
  {
    extent := seed;
    vertices, scalars, count, stopped := [], [], 0, false;
    var i := 0;
    assert data[..0] == [];
    while i < |data| && !stopped
      invariant i <= |data| && Progress(data, i, seed, log10, bailout, vertices, scalars, extent, count, stopped)
    {
      vertices, scalars, extent, count, stopped := ProcessRow(data, i, seed, log10, bailout, vertices, scalars, extent, count);
      i := i + 1;
    }
    ghost var all := Cells(data);
    if stopped {
      ProcessedStopsAt(bailout, 0, count - 1, |all|);
    } else {
      assert data[..|data|] == data;
      ProcessedAll(bailout, 0, |all|);
    }
  }

  /** What the artist's loop has done after `i` rows, or after stopping. */
  ghost predicate Progress(data: seq<seq<real>>, i: nat, seed: (real, real), log10: real -> real, bailout: nat -> bool,
                           vertices: seq<Point>, scalars: seq<real>, extent: (real, real), count: nat, stopped: bool)
    requires i <= |data|
  {
    var all := Cells(data);
    count <= |all| &&
    scalars == SixEach(Logs(all[..count], log10)) && |vertices| == |scalars| &&
    extent == Extent(seed, Logs(all[..count], log10)) &&
    (!stopped ==> count == |Cells(data[..i])| && all[..count] == Cells(data[..i])) &&
    (!stopped ==> forall m :: 0 <= m < count ==> !bailout(m)) &&
    (stopped ==> count > 0 && bailout(count - 1) && forall m :: 0 <= m < count - 1 ==> !bailout(m))
  }

  /** One pass of the artist's loop: row `i`, up to its end or to the first cell after which `bailout` answers true. */
  method ProcessRow(data: seq<seq<real>>, i: nat, seed: (real, real), log10: real -> real, bailout: nat -> bool,
                    vertices0: seq<Point>, scalars0: seq<real>, extent0: (real, real), count0: nat)
    returns (vertices: seq<Point>, scalars: seq<real>, extent: (real, real), count: nat, stopped: bool)
    requires Rectangular(data) && i < |data| && |data[0]| > 0
    requires Progress(data, i, seed, log10, bailout, vertices0, scalars0, extent0, count0, false)
    ensures Progress(data, i + 1, seed, log10, bailout, vertices, scalars, extent, count, stopped)
  {
    ghost var all := Cells(data);
    CellsPrefix(data, i);
    ghost var done := all[..count0];
    assert |done + data[i]| <= |all| && all[..|done + data[i]|] == done + data[i];
    ghost var taken;
    vertices, scalars, extent, count, stopped, taken := BuildRow(data[i], i, |data|, |data[0]|, log10, bailout, vertices0, scalars0, extent0, count0);
    RowDone(all, done, data[i], taken, count, seed, extent0, extent, scalars0, scalars, log10);
    if !stopped {
      assert data[i][..taken] == data[i];
    }
  }

  /** The scalars of the first `count` cells, read off the whole table's. */
  lemma Finish(all: seq<real>, count: nat, log10: real -> real)
    requires count <= |all|
    ensures |Logs(all, log10)| == |all| && Logs(all, log10)[..count] == Logs(all[..count], log10)
  {
    LogsPrefix(all, count, log10);
  }

  /**
   * One row of the artist's loop: each cell adds its six corners, its six
   * scalars and its logarithm to the extent, then `bailout(count)` is asked;
   * `taken` cells of the row are done when it answers true or the row ends.
   */
  method BuildRow(row: seq<real>, i: nat, ni: nat, nj: nat, log10: real -> real, bailout: nat -> bool,
                  vertices0: seq<Point>, scalars0: seq<real>, extent0: (real, real), count0: nat)
    returns (vertices: seq<Point>, scalars: seq<real>, extent: (real, real), count: nat, stopped: bool, ghost taken: nat)
    requires ni > 0 && nj > 0 && |row| == nj && |vertices0| == |scalars0|
    ensures taken <= |row| && count == count0 + taken && |vertices| == |scalars|
    ensures scalars == scalars0 + SixEach(Logs(row[..taken], log10))
    ensures extent == Extent(extent0, Logs(row[..taken], log10))
    ensures stopped ==> taken > 0 && bailout(count - 1) && forall m :: count0 <= m < count - 1 ==> !bailout(m)
    ensures !stopped ==> taken == |row| && forall m :: count0 <= m < count ==> !bailout(m)
  {
    vertices, scalars, extent, count, stopped := vertices0, scalars0, extent0, count0, false;
    var j := 0;
    while j < nj && !stopped
      invariant 0 <= j <= nj && count == count0 + j && |vertices| == |scalars|
      invariant scalars == scalars0 + SixEach(Logs(row[..j], log10))
      invariant extent == Extent(extent0, Logs(row[..j], log10))
      invariant forall m :: count0 <= m < count - 1 ==> !bailout(m)
      invariant if stopped then j > 0 && bailout(count - 1) else j > 0 ==> !bailout(count - 1)
    {
      var c := log10(row[j]);
      vertices := vertices + CellVertices(i, j, ni, nj);
      scalars := scalars + Six(c);
      extent := Widen(extent, c);
      RowStep(row, j, extent0, log10);
      stopped := bailout(count);
      count := count + 1;
      j := j + 1;
    }
    taken := j;
  }

  /** One more cell of a row: six more scalars and one more step of the extent. */
  lemma RowStep(row: seq<real>, j: nat, extent0: (real, real), log10: real -> real)
    requires j < |row|
    ensures SixEach(Logs(row[..j + 1], log10)) == SixEach(Logs(row[..j], log10)) + Six(log10(row[j]))
    ensures Extent(extent0, Logs(row[..j + 1], log10)) == Widen(Extent(extent0, Logs(row[..j], log10)), log10(row[j]))
  {
    assert row[..j + 1] == row[..j] + [row[j]];
    LogsSnoc(row[..j], row[j], log10);
  }

  /** The logarithms of a prefix are the prefix of the logarithms. */
  lemma LogsPrefix(s: seq<real>, k: nat, log10: real -> real)
    requires k <= |s|
    ensures Logs(s, log10)[..k] == Logs(s[..k], log10)
  {
    assert s == s[..k] + s[k..];
    LogsAppend(s[..k], s[k..], log10);
  }

  /** Appending a value appends its logarithm, its six scalars and one step of the extent. */
  lemma LogsSnoc(done: seq<real>, x: real, log10: real -> real)
    ensures var ls := Logs(done + [x], log10);
      ls[..|ls| - 1] == Logs(done, log10) && ls[|ls| - 1] == log10(x) &&
      SixEach(ls) == SixEach(Logs(done, log10)) + Six(log10(x))
  {
    assert (done + [x])[..|done|] == done;
  }

  /** After a row, the artist's scalars and extent are those of every cell done so far. */
  lemma RowDone(all: seq<real>, done: seq<real>, row: seq<real>, taken: nat, count: nat, seed: (real, real),
                extent0: (real, real), extent: (real, real), scalars0: seq<real>, scalars: seq<real>, log10: real -> real)
    requires |done + row| <= |all| && all[..|done + row|] == done + row && taken <= |row| && count == |done| + taken
    requires extent0 == Extent(seed, Logs(done, log10)) && extent == Extent(extent0, Logs(row[..taken], log10))
    requires scalars0 == SixEach(Logs(done, log10)) && scalars == scalars0 + SixEach(Logs(row[..taken], log10))
    ensures count <= |all| && all[..count] == done + row[..taken]
    ensures extent == Extent(seed, Logs(all[..count], log10)) && scalars == SixEach(Logs(all[..count], log10))
  {
    CellsStep(all, done, row, taken, seed, log10);
  }

  /** The whole table's cells, cut after a row's first `taken` cells: their scalars and extent. */
  lemma CellsStep(all: seq<real>, done: seq<real>, row: seq<real>, taken: nat, seed: (real, real), log10: real -> real)
    requires |done + row| <= |all| && all[..|done + row|] == done + row && taken <= |row|
    ensures var k := |done| + taken;
      k <= |all| && all[..k] == done + row[..taken] &&
      SixEach(Logs(all[..k], log10)) == SixEach(Logs(done, log10)) + SixEach(Logs(row[..taken], log10)) &&
      Extent(seed, Logs(all[..k], log10)) == Extent(Extent(seed, Logs(done, log10)), Logs(row[..taken], log10))
  {
    assert all[..|done| + taken] == (done + row)[..|done| + taken] == done + row[..taken];
    AppendCells(done, row[..taken], seed, log10);
  }

  /** The logarithms, scalars and extent of two runs of cells, one after the other. */
  lemma AppendCells(a: seq<real>, b: seq<real>, seed: (real, real), log10: real -> real)
    ensures Logs(a + b, log10) == Logs(a, log10) + Logs(b, log10)
    ensures SixEach(Logs(a + b, log10)) == SixEach(Logs(a, log10)) + SixEach(Logs(b, log10))
    ensures Extent(seed, Logs(a + b, log10)) == Extent(Extent(seed, Logs(a, log10)), Logs(b, log10))
  {
    LogsAppend(a, b, log10);
    SixEachAppend(Logs(a, log10), Logs(b, log10));
    ExtentAppend(seed, Logs(a, log10), Logs(b, log10));
  }

  lemma {:induction false} LogsAppend(a: seq<real>, b: seq<real>, log10: real -> real)
    ensures Logs(a + b, log10) == Logs(a, log10) + Logs(b, log10)
    decreases |b|
  {
    if b == [] {
      assert a + b == a;
    } else {
      assert (a + b)[..|a + b| - 1] == a + b[..|b| - 1];
      LogsAppend(a, b[..|b| - 1], log10);
    }
  }

  lemma {:induction false} SixEachAppend(a: seq<real>, b: seq<real>)
    ensures SixEach(a + b) == SixEach(a) + SixEach(b)
    decreases |b|
  {
    if b == [] {
      assert a + b == a;
    } else {
      assert (a + b)[..|a + b| - 1] == a + b[..|b| - 1];
      SixEachAppend(a, b[..|b| - 1]);
    }
  }

  lemma {:induction false} ExtentAppend(seed: (real, real), a: seq<real>, b: seq<real>)
    ensures Extent(seed, a + b) == Extent(Extent(seed, a), b)
    decreases |b|
  {
    if b == [] {
      assert a + b == a;
    } else {
      assert (a + b)[..|a + b| - 1] == a + b[..|b| - 1];
      ExtentAppend(seed, a, b[..|b| - 1]);
    }
  }

  /** The cells of the first `i + 1` rows begin the cells of the whole table. */
  lemma {:induction false} CellsPrefix(data: seq<seq<real>>, i: nat)
    requires i < |data|
    ensures Cells(data[..i + 1]) == Cells(data[..i]) + data[i]
    ensures |Cells(data[..i + 1])| <= |Cells(data)| && Cells(data)[..|Cells(data[..i + 1])|] == Cells(data[..i + 1])
    decreases |data|
  {
    assert data[..i + 1][..i] == data[..i];
    if i + 1 == |data| {
      assert data[..i + 1] == data;
    } else {
      var n := |data| - 1;
      assert data[..n][..i + 1] == data[..i + 1];
      assert data[..n][..i] == data[..i];
      CellsPrefix(data[..n], i);
    }
  }

  /** The running extent contains its seed and every value, and each end is the seed or a value. */
  lemma {:induction false} ExtentBounds(seed: (real, real), s: seq<real>)
    requires seed.0 <= seed.1
    ensures var e := Extent(seed, s);
      e.0 <= seed.0 && seed.1 <= e.1 &&
      (forall x :: x in s ==> e.0 <= x <= e.1) &&
      (e.0 == seed.0 || e.0 in s) && (e.1 == seed.1 || e.1 in s)
  {
    if s != [] {
      ExtentBounds(seed, s[..|s| - 1]);
      assert forall x :: x in s ==> x in s[..|s| - 1] || x == s[|s| - 1];
    }
  }

  /** An extent seeded with one value spans that value and the minimum and maximum of the rest. */
  lemma SeededExtentIsMinMax(d: real, cs: seq<real>)
    requires |cs| > 0
    ensures Extent((d, d), cs) == (if d < MinOf(cs) then d else MinOf(cs), if d > MaxOf(cs) then d else MaxOf(cs))
  {
    ExtentBounds((d, d), cs);
  }

  /**
   * The extent that was evidently intended: seeded with the first cell's
   * logarithm, it is exactly the minimum and maximum of the scalars.
   */
  function IntendedExtent(cs: seq<real>): (e: (real, real))
    requires |cs| > 0
  {
    Extent((cs[0], cs[0]), cs)
  }

  lemma IntendedExtentIsMinMax(cs: seq<real>)
    requires |cs| > 0
    ensures IntendedExtent(cs) == (MinOf(cs), MaxOf(cs))
  {
    ExtentBounds((cs[0], cs[0]), cs);
    var e := IntendedExtent(cs);
    assert e.0 in cs && e.1 in cs;
  }

  /**
   * As written, the raw value of cell (0, 0) is part of the extent: a single
   * cell holding 100 (whose logarithm is 2) gets the extent [2, 100] rather
   * than [2, 2].
   */
  lemma RawSeedWidensExtent(log10: real -> real)
    requires log10(100.0) == 2.0
    ensures var cs := Logs(Cells([[100.0]]), log10);
      Extent((100.0, 100.0), cs) == (2.0, 100.0) && IntendedExtent(cs) == (2.0, 2.0)
  {
    var cs := Logs(Cells([[100.0]]), log10);
    assert [[100.0]][..0] == [];
    assert Cells([[100.0]]) == [100.0];
    assert cs == [2.0];
    assert cs[..0] == [];
    assert Extent((2.0, 2.0), cs) == (2.0, 2.0);
    assert Extent((100.0, 100.0), cs) == (2.0, 100.0);
  }

  // ---------------------------------------------------------------------
  // The view

  const TorquesMainModel: FigureModel := Default.(
    titleShowing := true, xlabelShowing := false, ylabelShowing := false,
    canEditMargin := true, canEditXlabel := false, canEditYlabel := false, canEditTitle := false,
    margin := Default.margin.WithRight(20).WithLeft(40),
    xtickCount := 10, ytickCount := 5,
    xmin := -0.1, xmax := 1.1, ymin := -0.1, ymax := 1.1)

  const TorquesCmapModel: FigureModel := Default.(
    titleShowing := false, xlabelShowing := false, ylabelShowing := false,
    canEditMargin := false, canEditXlabel := false, canEditYlabel := false, canEditTitle := false,
    margin := Default.margin.WithLeft(40).WithRight(20),
    xtickCount := 0, ytickCount := 10,
    xmin := -0.1, xmax := 1.1, ymin := -0.1, ymax := 1.1,
    gridlinesColour := TransparentBlack)

  /** The two figures of the view. */
  datatype Figure = MainFigure | CmapFigure

  datatype Command = MakeSnapshotAndOpen | SaveSnapshotAs | NextColourMap | PrevColourMap | ResetScalarRange | OtherCommand

  /** What `updateFigures` and the handlers that call it change: the quad mesh, the gradient, both models and what the figures show. */
  datatype Figures = Figures(quadmesh: Option<TorquesArtist>, gradient: Option<ScalarMapping>,
                             mainModel: FigureModel, cmapModel: FigureModel,
                             mainShown: FigureModel, cmapShown: FigureModel)

  /**
   * `updateFigures` on those fields, given the current colour map's stops and
   * the current file: with a quad mesh, the mesh takes the stops, the gradient
   * its mapping, the main figure the file's name and the mesh, the colour bar
   * the gradient over the mapping's range, and both models are shown. Without
   * one nothing changes.
   */
  function Refreshed(f: Figures, stops: seq<Colour>, file: string): (r: Figures)
    ensures f.quadmesh.None? ==> r == f
    ensures f.quadmesh.Some? ==>
      r.quadmesh == Some(f.quadmesh.value.(mapping := f.quadmesh.value.mapping.(stops := stops))) &&
      r.gradient == Some(r.quadmesh.value.mapping) &&
      r.mainModel == f.mainModel.(title := Text.FileName(file), content := [MeshRef]) &&
      r.cmapModel == f.cmapModel.(content := [GradientRef],
        ymin := f.quadmesh.value.mapping.vmin, ymax := f.quadmesh.value.mapping.vmax) &&
      r.mainShown == r.mainModel && r.cmapShown == r.cmapModel
  {
    if f.quadmesh.None? then f
    else
      var q := f.quadmesh.value;
      var q' := q.(mapping := q.mapping.(stops := stops));
      var main := f.mainModel.(title := Text.FileName(file), content := [MeshRef]);
      var cmap := f.cmapModel.(content := [GradientRef], ymin := q.mapping.vmin, ymax := q.mapping.vmax);
      Figures(Some(q'), Some(q'.mapping), main, cmap, main, cmap)
  }

  /**
   * Refreshing keeps what the user edits: both margins, the main figure's
   * limits, the colour bar's x-limits, and the mesh's arrays, extent and range.
   */
  lemma RefreshedKeepsEdits(f: Figures, stops: seq<Colour>, file: string)
    ensures var r := Refreshed(f, stops, file);
      r.mainModel.margin == f.mainModel.margin && r.cmapModel.margin == f.cmapModel.margin &&
      GetDomain(r.mainModel) == GetDomain(f.mainModel) &&
      r.cmapModel.xmin == f.cmapModel.xmin && r.cmapModel.xmax == f.cmapModel.xmax &&
      (f.quadmesh.Some? <==> r.quadmesh.Some?) &&
      (f.quadmesh.Some? ==>
        r.quadmesh.value.(mapping := f.quadmesh.value.mapping) == f.quadmesh.value &&
        r.quadmesh.value.mapping.vmin == f.quadmesh.value.mapping.vmin &&
        r.quadmesh.value.mapping.vmax == f.quadmesh.value.mapping.vmax)
  {
    if f.quadmesh.Some? {
      var r := Refreshed(f, stops, file);
      assert r.mainModel.(title := f.mainModel.title, content := f.mainModel.content) == f.mainModel;
    }
  }

  /** Refreshing twice with the same stops and file is refreshing once. */
  lemma RefreshedIdempotent(f: Figures, stops: seq<Colour>, file: string)
    ensures Refreshed(Refreshed(f, stops, file), stops, file) == Refreshed(f, stops, file)
  {
    if f.quadmesh.Some? {
      var r := Refreshed(f, stops, file);
      var r2 := Refreshed(r, stops, file);
      assert r2.quadmesh == r.quadmesh;
      assert r2.mainModel == r.mainModel;
      assert r2.cmapModel == r.cmapModel;
    }
  }

  /** The mesh's mapping with its range set to [lo, hi]; no mesh, no change. */
  function WithRange(quadmesh: Option<TorquesArtist>, lo: real, hi: real): (r: Option<TorquesArtist>)
    ensures r.Some? <==> quadmesh.Some?
    ensures r.Some? ==>
      (r.value.mapping.vmin == lo && r.value.mapping.vmax == hi &&
       r.value.(mapping := quadmesh.value.mapping) == quadmesh.value &&
       r.value.mapping.stops == quadmesh.value.mapping.stops)
  {
    if quadmesh.None? then None
    else Some(quadmesh.value.(mapping := quadmesh.value.mapping.(vmin := lo, vmax := hi)))
  }

  /** `isInterestedInFile`: HDF5 files. */
  predicate IsInterestedInFile(file: string)
  {
    Text.HasFileExtension(file, ".h5")
  }

  class BinaryTorquesView {
    var mainModel: FigureModel
    var cmapModel: FigureModel
    /** The models last handed to the two figure views. */
    var mainShown: FigureModel
    var cmapShown: FigureModel
    var quadmesh: Option<TorquesArtist>
    /** The stops of the colour gradient artist last made from the quad mesh's mapping, if any. */
    var gradient: Option<ScalarMapping>
    var currentFile: string
    const cmaps: ColourMaps.ColourMapCollection

    ghost predicate Valid()
      reads this, cmaps
    {
      cmaps.Valid() && |cmaps.names| > 0
    }

    /** The fields `updateFigures` changes, as one value. */
    function Figs(): Figures
      reads this
    {
      Figures(quadmesh, gradient, mainModel, cmapModel, mainShown, cmapShown)
    }

    /** The constructor: both models initialised, no quad mesh, so the figures keep default models. */
    constructor (defaultStops: seq<seq<Colour>>)
      requires |defaultStops| == |ColourMaps.DefaultNames|
      ensures Valid() && fresh(cmaps)
      ensures mainModel == TorquesMainModel && cmapModel == TorquesCmapModel && quadmesh == None
      ensures mainShown == Default && cmapShown == Default
    {
      mainModel := TorquesMainModel;
      cmapModel := TorquesCmapModel;
      mainShown := Default;
      cmapShown := Default;
      quadmesh := None;
      gradient := None;
      currentFile := "";
      cmaps := new ColourMaps.ColourMapCollection(true, defaultStops);
    }

    /** `loadFile`: this view only loads asynchronously. */
    method LoadFile(file: string) returns (loaded: bool)
      ensures !loaded
    {
      loaded := false;
    }

    /**
     * `loadFileAsync`: the artist built from the file's table (reading the
     * HDF5 file is not part of this model) replaces the quad mesh even when
     * it was interrupted; only a complete one records the file.
     */
    method LoadFileAsync(file: string, data: seq<seq<real>>, log10: real -> real, bailout: nat -> bool, magma: seq<Colour>)
      requires Rectangular(data) && |data| > 0 && |data[0]| > 0
      modifies this`quadmesh, this`currentFile
      ensures quadmesh.Some?
      ensures currentFile == if quadmesh.value.complete then file else old(currentFile)
    {
      var artist := BuildTorquesArtist(data, log10, bailout, magma);
      quadmesh := Some(artist);
      if artist.complete {
        currentFile := file;
      }
    }

    /**
     * `updateFigures`: with a quad mesh, it takes the current colour map, a
     * gradient is made from its mapping, the main figure is titled with the
     * file name and shows the mesh, the colour bar shows the gradient over the
     * mapping's range, and both models go to the figures. Without one nothing
     * happens.
     */
    method UpdateFigures()
      requires Valid()
      modifies this`quadmesh, this`gradient, this`mainModel, this`cmapModel, this`mainShown, this`cmapShown
      ensures Valid()
      ensures old(quadmesh).None? ==>
        quadmesh == None && mainModel == old(mainModel) && cmapModel == old(cmapModel) &&
        mainShown == old(mainShown) && cmapShown == old(cmapShown) && gradient == old(gradient)
      ensures old(quadmesh).Some? ==>
        quadmesh == Some(old(quadmesh).value.(mapping := old(quadmesh).value.mapping.(stops := cmaps.GetCurrentStops()))) &&
        gradient == Some(quadmesh.value.mapping) &&
        mainModel == old(mainModel).(title := Text.FileName(currentFile), content := [MeshRef]) &&
        cmapModel == old(cmapModel).(content := [GradientRef],
          ymin := quadmesh.value.mapping.vmin, ymax := quadmesh.value.mapping.vmax) &&
        mainShown == mainModel && cmapShown == cmapModel
      ensures Figs() == Refreshed(old(Figs()), cmaps.GetCurrentStops(), currentFile)
    {
      if quadmesh.Some? {
        var q := quadmesh.value;
        q := q.(mapping := q.mapping.(stops := cmaps.GetCurrentStops()));
        quadmesh := Some(q);
        gradient := Some(q.mapping);
        mainModel := mainModel.(title := Text.FileName(currentFile), content := [MeshRef]);
        cmapModel := cmapModel.(content := [GradientRef], ymin := q.mapping.vmin, ymax := q.mapping.vmax);
        mainShown := mainModel;
        cmapShown := cmapModel;
      }
    }

    /**
     * `figureViewSetMargin`: only the main figure's margin edits count; the
     * colour bar takes their top and bottom.
     */
    method FigureViewSetMargin(figure: Figure, margin: Border)
      requires Valid()
      modifies this`quadmesh, this`gradient, this`mainModel, this`cmapModel, this`mainShown, this`cmapShown
      ensures Valid()
      ensures figure == CmapFigure ==>
        mainModel == old(mainModel) && cmapModel == old(cmapModel) && quadmesh == old(quadmesh) &&
        Figs() == old(Figs())
      ensures figure == MainFigure ==>
        mainModel.margin == margin &&
        cmapModel.margin == old(cmapModel).margin.WithTop(margin.top).WithBottom(margin.bottom)
      ensures figure == MainFigure ==>
        Figs() == Refreshed(old(Figs()).(mainModel := old(mainModel).(margin := margin),
                                         cmapModel := old(cmapModel).(margin := old(cmapModel).margin.WithTop(margin.top).WithBottom(margin.bottom))),
                            cmaps.GetCurrentStops(), currentFile)
    {
      if figure == MainFigure {
        mainModel := mainModel.(margin := margin);
        cmapModel := cmapModel.(margin := cmapModel.margin.WithTop(margin.top).WithBottom(margin.bottom));
        UpdateFigures();
        return;
      }
    }

    /**
     * `figureViewSetDomain`: the figure's model takes the domain; a colour-bar
     * change also becomes the quad mesh's range, which `updateFigures` then
     * copies back into the colour bar's y-limits.
     */
    method FigureViewSetDomain(figure: Figure, domain: Domain)
      requires Valid()
      modifies this`quadmesh, this`gradient, this`mainModel, this`cmapModel, this`mainShown, this`cmapShown
      ensures Valid()
      ensures figure == MainFigure ==> GetDomain(mainModel) == domain
      ensures figure == MainFigure ==> mainModel.xmin == domain.x && mainModel.xmax == domain.Right()
      ensures figure == MainFigure ==> mainModel.ymin == domain.y && mainModel.ymax == domain.Bottom()
      ensures figure == CmapFigure ==> cmapModel.xmin == domain.x && cmapModel.xmax == domain.Right()
      ensures figure == CmapFigure ==> cmapModel.ymin == domain.y && cmapModel.ymax == domain.Bottom()
      ensures figure == CmapFigure && quadmesh.Some? ==>
        quadmesh.value.mapping.vmin == domain.y && quadmesh.value.mapping.vmax == domain.Bottom()
      ensures figure == MainFigure ==>
        Figs() == Refreshed(old(Figs()).(mainModel := SetDomain(old(mainModel), domain)), cmaps.GetCurrentStops(), currentFile)
      ensures figure == CmapFigure ==>
        Figs() == Refreshed(old(Figs()).(cmapModel := SetDomain(old(cmapModel), domain),
                                         quadmesh := WithRange(old(quadmesh), domain.y, domain.Bottom())),
                            cmaps.GetCurrentStops(), currentFile)
    {
      if figure == MainFigure {
        mainModel := SetDomain(mainModel, domain);
      }
      if figure == CmapFigure {
        cmapModel := SetDomain(cmapModel, domain);
        if quadmesh.Some? {
          var q := quadmesh.value;
          quadmesh := Some(q.(mapping := q.mapping.(vmin := domain.y, vmax := domain.Bottom())));
        }
      }
      UpdateFigures();
    }

    /**
     * `perform`: the colour-map commands move the cursor and update the
     * figures; the reset command sets the quad mesh's range to its extent when
     * there is one; every command counts as handled.
     */
    method Perform(command: Command) returns (handled: bool)
      requires Valid()
      modifies this`quadmesh, this`gradient, this`mainModel, this`cmapModel, this`mainShown, this`cmapShown, cmaps
      ensures Valid() && handled
      ensures command == NextColourMap ==> cmaps.currentIndex == ColourMaps.NextIndex(old(cmaps.currentIndex), |cmaps.names|)
      ensures command == PrevColourMap ==> cmaps.currentIndex == ColourMaps.PrevIndex(old(cmaps.currentIndex), |cmaps.names|)
      ensures command == ResetScalarRange && quadmesh.Some? ==>
        quadmesh.value.mapping.vmin == quadmesh.value.scalarExtent.0 &&
        quadmesh.value.mapping.vmax == quadmesh.value.scalarExtent.1 &&
        cmapModel.ymin == quadmesh.value.scalarExtent.0 && cmapModel.ymax == quadmesh.value.scalarExtent.1
      ensures command !in {NextColourMap, PrevColourMap, ResetScalarRange} ==>
        quadmesh == old(quadmesh) && mainModel == old(mainModel) && cmapModel == old(cmapModel) &&
        cmaps.currentIndex == old(cmaps.currentIndex)
      ensures cmaps.names == old(cmaps.names) && cmaps.stops == old(cmaps.stops)
      ensures command !in {NextColourMap, PrevColourMap} ==> cmaps.currentIndex == old(cmaps.currentIndex)
      ensures command in {NextColourMap, PrevColourMap} ==>
        Figs() == Refreshed(old(Figs()), cmaps.GetCurrentStops(), currentFile)
      ensures command == ResetScalarRange ==>
        Figs() == if old(quadmesh).None? then old(Figs())
                  else Refreshed(old(Figs()).(quadmesh := WithRange(old(quadmesh), old(quadmesh).value.scalarExtent.0,
                                                                                old(quadmesh).value.scalarExtent.1)),
                                 cmaps.GetCurrentStops(), currentFile)
      ensures command !in {NextColourMap, PrevColourMap, ResetScalarRange} ==> Figs() == old(Figs())
    {
      match command {
        case NextColourMap =>
          var _ := cmaps.Next();
          UpdateFigures();
        case PrevColourMap =>
          var _ := cmaps.Prev();
          UpdateFigures();
        case ResetScalarRange =>
          if quadmesh.Some? {
            var q := quadmesh.value;
            quadmesh := Some(q.(mapping := q.mapping.(vmin := q.scalarExtent.0, vmax := q.scalarExtent.1)));
            UpdateFigures();
          }
        case _ =>
      }
      handled := true;
    }
  }
}
