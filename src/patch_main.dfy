// PatchView's main component: the quad-mesh artist built from a patch
// database, the Metal surface it draws on (a buffer cache that never
// evicts), and the listener methods that write the figure's edits back into
// the model. The figure model is CounterPlot's record; the fields PatchView's
// own record lacks keep their default values throughout.
module PatchMain {
  import opened Wrappers
  import opened Geometry
  import opened Colours
  import opened ColourMaps
  import Vars
  import opened FigureModels
  import opened FigureViews
  import opened MetalSurfaces

  // ---------------------------------------------------------------------
  // PatchesQuadMeshArtist

  /** The vertex-array shape of one patch: `verts.shape (0)` and `verts.shape (1)`. */
  datatype PatchShape = PatchShape(rows: int, cols: int)

  /** One quad of the mesh: patch index and the index of its lower-left vertex. */
  datatype Cell = Cell(patch: nat, i: nat, j: nat)

  /** A `simd::float4` colour. */
  datatype Rgba = Rgba(r: real, g: real, b: real, a: real)

  /** The grey `{c, c, c, 1}` every vertex of a cell is coloured with. */
  function Grey(c: real): Rgba
  {
    Rgba(c, c, c, 1.0)
  }

  /** How many cells a run of `n` vertices spans: `n - 1`, and none for fewer than two. */
  function CellsAlong(n: int): nat
  {
    if n > 1 then n - 1 else 0
  }

  /** The cells `(p, i, 0)` … `(p, i, j - 1)` of one row, in order. */
  function RowCells(p: nat, i: nat, j: nat): (r: seq<Cell>)
    ensures |r| == j
  {
    seq(j, k requires 0 <= k < j => Cell(p, i, k))
  }

  /** The cells of the first `i` rows of patch `p`, row by row. */
  function PatchCells(p: nat, cols: nat, i: nat): seq<Cell>
  {
    if i == 0 then [] else PatchCells(p, cols, i - 1) + RowCells(p, i - 1, cols)
  }

  /** A patch contributes rows times columns cells. */
  lemma {:induction false} PatchCellsCount(p: nat, cols: nat, i: nat)
    ensures |PatchCells(p, cols, i)| == i * cols
  {
    if i > 0 {
      PatchCellsCount(p, cols, i - 1);
    }
  }

  /** The number of cells in the first `n` patches. */
  function CellTotal(shapes: seq<PatchShape>, n: nat): nat
    requires n <= |shapes|
  {
    if n == 0 then 0
    else CellTotal(shapes, n - 1) + CellsAlong(shapes[n - 1].rows) * CellsAlong(shapes[n - 1].cols)
  }

  /** The cells of the first `n` patches, in the order the constructor visits them. */
  function MeshCells(shapes: seq<PatchShape>, n: nat): seq<Cell>
    requires n <= |shapes|
  {
    if n == 0 then []
    else
      MeshCells(shapes, n - 1)
      + PatchCells(n - 1, CellsAlong(shapes[n - 1].cols), CellsAlong(shapes[n - 1].rows))
  }

  /** The mesh has as many cells as `CellTotal` counts. */
  lemma {:induction false} MeshCellsCount(shapes: seq<PatchShape>, n: nat)
    requires n <= |shapes|
    ensures |MeshCells(shapes, n)| == CellTotal(shapes, n)
  {
    if n > 0 {
      MeshCellsCount(shapes, n - 1);
      PatchCellsCount(n - 1, CellsAlong(shapes[n - 1].cols), CellsAlong(shapes[n - 1].rows));
    }
  }

  /** Every cell visited lies inside its patch's grid of cells. */
  lemma {:induction false} MeshCellsInRange(shapes: seq<PatchShape>, n: nat)
    requires n <= |shapes|
    ensures forall k :: 0 <= k < |MeshCells(shapes, n)| ==>
      var c := MeshCells(shapes, n)[k];
      c.patch < n && c.i < CellsAlong(shapes[c.patch].rows) && c.j < CellsAlong(shapes[c.patch].cols)
  {
    if n > 0 {
      MeshCellsInRange(shapes, n - 1);
      PatchCellsInRange(n - 1, CellsAlong(shapes[n - 1].cols), CellsAlong(shapes[n - 1].rows));
    }
  }

  lemma {:induction false} PatchCellsInRange(p: nat, cols: nat, i: nat)
    ensures forall k :: 0 <= k < |PatchCells(p, cols, i)| ==>
      PatchCells(p, cols, i)[k].patch == p && PatchCells(p, cols, i)[k].i < i && PatchCells(p, cols, i)[k].j < cols
  {
    if i > 0 {
      PatchCellsInRange(p, cols, i - 1);
    }
  }

  /**
   * The corner positions of the vertex grid, `(r sin q, r cos q)` for patch,
   * row and column; the trigonometry is left to the caller.
   */
  type Corner = (nat, nat, nat) -> Point

  /** The scalar of a cell, `log10f (cells (i, j, 0))`; the logarithm is left to the caller. */
  type CellValue = (nat, nat, nat) -> real

  /** The two triangles of a cell: (00, 01, 10) and (01, 10, 11). */
  function Quad(corner: Corner, c: Cell): seq<Point>
  {
    [corner(c.patch, c.i, c.j), corner(c.patch, c.i, c.j + 1), corner(c.patch, c.i + 1, c.j),
     corner(c.patch, c.i, c.j + 1), corner(c.patch, c.i + 1, c.j), corner(c.patch, c.i + 1, c.j + 1)]
  }

  function Six<T>(x: T): seq<T>
  {
    [x, x, x, x, x, x]
  }

  /** The vertex vector for a list of cells: six vertices per cell, in order. */
  function VerticesOf(corner: Corner, cells: seq<Cell>): (r: seq<Point>)
  {
    if cells == [] then [] else VerticesOf(corner, cells[..|cells| - 1]) + Quad(corner, cells[|cells| - 1])
  }

  /** The scalar vector for a list of cells: each cell's value six times, in order. */
  function ScalarsOf(value: CellValue, cells: seq<Cell>): (r: seq<real>)
  {
    if cells == [] then []
    else
      var c := cells[|cells| - 1];
      ScalarsOf(value, cells[..|cells| - 1]) + Six(value(c.patch, c.i, c.j))
  }

  /** The colour vector for a list of cells: each cell's grey six times, in order. */
  function ColoursOf(value: CellValue, cells: seq<Cell>): (r: seq<Rgba>)
  {
    if cells == [] then []
    else
      var c := cells[|cells| - 1];
      ColoursOf(value, cells[..|cells| - 1]) + Six(Grey(value(c.patch, c.i, c.j)))
  }

  /** Each vector holds six entries per cell. */
  lemma {:induction false} OfLength(corner: Corner, value: CellValue, cells: seq<Cell>)
    ensures |VerticesOf(corner, cells)| == 6 * |cells|
    ensures |ColoursOf(value, cells)| == 6 * |cells|
    ensures |ScalarsOf(value, cells)| == 6 * |cells|
  {
    if cells != [] {
      OfLength(corner, value, cells[..|cells| - 1]);
    }
  }

  /** Cell `k` owns vertices `6k` to `6k + 5`, which are its two triangles. */
  lemma {:induction false} VertexBlock(corner: Corner, cells: seq<Cell>, k: nat)
    requires k < |cells|
    ensures 6 * k + 6 <= |VerticesOf(corner, cells)|
    ensures VerticesOf(corner, cells)[6 * k..6 * k + 6] == Quad(corner, cells[k])
  {
    var init := cells[..|cells| - 1];
    OfLength(corner, (_, _, _) => 0.0, init);
    if k < |cells| - 1 {
      VertexBlock(corner, init, k);
      assert cells[k] == init[k];
    }
  }

  /** Cell `k`'s value fills scalar slots `6k` to `6k + 5`. */
  lemma {:induction false} ScalarBlock(value: CellValue, cells: seq<Cell>, k: nat)
    requires k < |cells|
    ensures 6 * k + 6 <= |ScalarsOf(value, cells)|
    ensures ScalarsOf(value, cells)[6 * k..6 * k + 6] == Six(value(cells[k].patch, cells[k].i, cells[k].j))
  {
    var init := cells[..|cells| - 1];
    OfLength((_, _, _) => Point(0.0, 0.0), value, init);
    if k < |cells| - 1 {
      ScalarBlock(value, init, k);
      assert cells[k] == init[k];
    }
  }

  /** Every vertex colour is the grey of the scalar at the same position. */
  lemma {:induction false} ColoursFollowScalars(value: CellValue, cells: seq<Cell>)
    ensures |ColoursOf(value, cells)| == |ScalarsOf(value, cells)|
    ensures forall n :: 0 <= n < |ColoursOf(value, cells)| ==>
      ColoursOf(value, cells)[n] == Grey(ScalarsOf(value, cells)[n])
  {
    if cells != [] {
      OfLength((_, _, _) => Point(0.0, 0.0), value, cells[..|cells| - 1]);
      ColoursFollowScalars(value, cells[..|cells| - 1]);
    }
  }

  /** `*std::min_element` and `*std::max_element` of a non-empty vector. */
  method Extent(xs: seq<real>) returns (lo: real, hi: real)
    requires |xs| > 0
    ensures lo in xs && hi in xs
    ensures forall k :: 0 <= k < |xs| ==> lo <= xs[k] <= hi
  {
    lo, hi := xs[0], xs[0];
    var n := 1;
    while n < |xs|
      invariant 1 <= n <= |xs|
      invariant lo in xs[..n] && hi in xs[..n]
      invariant forall k :: 0 <= k < n ==> lo <= xs[k] <= hi
    {
      if xs[n] < lo {
        lo := xs[n];
      }
      if xs[n] > hi {
        hi := xs[n];
      }
      assert xs[..n + 1] == xs[..n] + [xs[n]];
      n := n + 1;
    }
    assert xs[..n] == xs;
  }

  /** The three vectors of a list of cells split at any point into the vectors of the two parts. */
  lemma {:induction false} OfAppend(corner: Corner, value: CellValue, a: seq<Cell>, b: seq<Cell>)
    ensures VerticesOf(corner, a + b) == VerticesOf(corner, a) + VerticesOf(corner, b)
    ensures ColoursOf(value, a + b) == ColoursOf(value, a) + ColoursOf(value, b)
    ensures ScalarsOf(value, a + b) == ScalarsOf(value, a) + ScalarsOf(value, b)
  {
    if b != [] {
      var init := b[..|b| - 1];
      assert (a + b)[..|a + b| - 1] == a + init;
      assert (a + b)[|a + b| - 1] == b[|b| - 1];
      OfAppend(corner, value, a, init);
    } else {
      assert a + b == a;
    }
  }

  /** One more row of a patch appends that row's vectors. */
  lemma PatchStep(corner: Corner, value: CellValue, p: nat, cols: nat, i: nat)
    ensures VerticesOf(corner, PatchCells(p, cols, i + 1))
      == VerticesOf(corner, PatchCells(p, cols, i)) + VerticesOf(corner, RowCells(p, i, cols))
    ensures ColoursOf(value, PatchCells(p, cols, i + 1))
      == ColoursOf(value, PatchCells(p, cols, i)) + ColoursOf(value, RowCells(p, i, cols))
    ensures ScalarsOf(value, PatchCells(p, cols, i + 1))
      == ScalarsOf(value, PatchCells(p, cols, i)) + ScalarsOf(value, RowCells(p, i, cols))
  {
    OfAppend(corner, value, PatchCells(p, cols, i), RowCells(p, i, cols));
  }

  /** One more patch appends that patch's vectors. */
  lemma MeshStep(corner: Corner, value: CellValue, shapes: seq<PatchShape>, p: nat)
    requires p < |shapes|
    ensures VerticesOf(corner, MeshCells(shapes, p + 1)) == VerticesOf(corner, MeshCells(shapes, p))
      + VerticesOf(corner, PatchCells(p, CellsAlong(shapes[p].cols), CellsAlong(shapes[p].rows)))
    ensures ColoursOf(value, MeshCells(shapes, p + 1)) == ColoursOf(value, MeshCells(shapes, p))
      + ColoursOf(value, PatchCells(p, CellsAlong(shapes[p].cols), CellsAlong(shapes[p].rows)))
    ensures ScalarsOf(value, MeshCells(shapes, p + 1)) == ScalarsOf(value, MeshCells(shapes, p))
      + ScalarsOf(value, PatchCells(p, CellsAlong(shapes[p].cols), CellsAlong(shapes[p].rows)))
  {
    OfAppend(corner, value, MeshCells(shapes, p),
      PatchCells(p, CellsAlong(shapes[p].cols), CellsAlong(shapes[p].rows)));
  }

  /** The innermost loop: the cells of row `i` of patch `p`, left to right. */
  method TriangulateRow(p: nat, i: nat, cols: int, corner: Corner, value: CellValue)
    returns (vertices: seq<Point>, colours: seq<Rgba>, scalars: seq<real>)
    ensures vertices == VerticesOf(corner, RowCells(p, i, CellsAlong(cols)))
    ensures colours == ColoursOf(value, RowCells(p, i, CellsAlong(cols)))
    ensures scalars == ScalarsOf(value, RowCells(p, i, CellsAlong(cols)))
  {
    vertices, colours, scalars := [], [], [];
    var j := 0;
    while j < cols - 1
      invariant 0 <= j <= CellsAlong(cols)
      invariant vertices == VerticesOf(corner, RowCells(p, i, j))
      invariant colours == ColoursOf(value, RowCells(p, i, j))
      invariant scalars == ScalarsOf(value, RowCells(p, i, j))
    {
      var c := Cell(p, i, j);
      vertices := vertices + Quad(corner, c);
      colours := colours + Six(Grey(value(p, i, j)));
      scalars := scalars + Six(value(p, i, j));
      assert RowCells(p, i, j + 1)[..j] == RowCells(p, i, j);
      j := j + 1;
    }
    assert j == CellsAlong(cols);
  }

  /** The middle loop: the rows of patch `p`, bottom to top. */
  method TriangulatePatch(p: nat, shape: PatchShape, corner: Corner, value: CellValue)
    returns (vertices: seq<Point>, colours: seq<Rgba>, scalars: seq<real>)
    ensures vertices == VerticesOf(corner, PatchCells(p, CellsAlong(shape.cols), CellsAlong(shape.rows)))
    ensures colours == ColoursOf(value, PatchCells(p, CellsAlong(shape.cols), CellsAlong(shape.rows)))
    ensures scalars == ScalarsOf(value, PatchCells(p, CellsAlong(shape.cols), CellsAlong(shape.rows)))
  {
    var cols := CellsAlong(shape.cols);
    vertices, colours, scalars := [], [], [];
    var i := 0;
    while i < shape.rows - 1
      invariant 0 <= i <= CellsAlong(shape.rows)
      invariant vertices == VerticesOf(corner, PatchCells(p, cols, i))
      invariant colours == ColoursOf(value, PatchCells(p, cols, i))
      invariant scalars == ScalarsOf(value, PatchCells(p, cols, i))
    {
      var v, c, s := TriangulateRow(p, i, shape.cols, corner, value);
      PatchStep(corner, value, p, cols, i);
      vertices, colours, scalars := vertices + v, colours + c, scalars + s;
      i := i + 1;
    }
    assert i == CellsAlong(shape.rows);
  }

  /**
   * The nested loops of the `PatchesQuadMeshArtist` constructor: for every
   * patch, row and column of cells, push six vertices, six grey colours and
   * six scalars.
   */
  method Triangulate(shapes: seq<PatchShape>, corner: Corner, value: CellValue)
    returns (vertices: seq<Point>, colours: seq<Rgba>, scalars: seq<real>)
    ensures vertices == VerticesOf(corner, MeshCells(shapes, |shapes|))
    ensures colours == ColoursOf(value, MeshCells(shapes, |shapes|))
    ensures scalars == ScalarsOf(value, MeshCells(shapes, |shapes|))
  {
    vertices, colours, scalars := [], [], [];
    var p := 0;
    while p < |shapes|
      invariant 0 <= p <= |shapes|
      invariant vertices == VerticesOf(corner, MeshCells(shapes, p))
      invariant colours == ColoursOf(value, MeshCells(shapes, p))
      invariant scalars == ScalarsOf(value, MeshCells(shapes, p))
    {
      var v, c, s := TriangulatePatch(p, shapes[p], corner, value);
      MeshStep(corner, value, shapes, p);
      vertices, colours, scalars := vertices + v, colours + c, scalars + s;
      p := p + 1;
    }
  }

  /** `PatchesQuadMeshArtist`: three equally long vectors and the scalars' extent. */
  class PatchesQuadMeshArtist {
    var vertices: seq<Point>
    var colours: seq<Rgba>
    var scalars: seq<real>
    var vmin: real
    var vmax: real
    /** Where the vertex and scalar vectors live, the keys of the surface's caches. */
    const vertexAddress: nat
    const scalarAddress: nat

    /** Six entries per cell in each vector, so the three always have the same length. */
    predicate Valid()
      reads this
    {
      |vertices| == |colours| == |scalars| && |vertices| % 6 == 0
    }

    /**
     * The constructor: the cells' triangles, colours and scalars, then the
     * scalars' minimum and maximum. With no cells at all the source takes the
     * minimum of an empty vector, so at least one cell is required.
     */
    constructor(shapes: seq<PatchShape>, corner: Corner, value: CellValue, vertexAddress: nat, scalarAddress: nat)
      requires CellTotal(shapes, |shapes|) > 0
      ensures Valid()
      ensures vertices == VerticesOf(corner, MeshCells(shapes, |shapes|))
      ensures colours == ColoursOf(value, MeshCells(shapes, |shapes|))
      ensures scalars == ScalarsOf(value, MeshCells(shapes, |shapes|))
      ensures |vertices| == 6 * CellTotal(shapes, |shapes|)
      ensures vmin in scalars && vmax in scalars
      ensures forall k :: 0 <= k < |scalars| ==> vmin <= scalars[k] <= vmax
      ensures this.vertexAddress == vertexAddress && this.scalarAddress == scalarAddress
    {
      var v, c, s := Triangulate(shapes, corner, value);
      MeshCellsCount(shapes, |shapes|);
      OfLength(corner, value, MeshCells(shapes, |shapes|));
      var lo, hi := Extent(s);
      vertices, colours, scalars := v, c, s;
      vmin, vmax := lo, hi;
      this.vertexAddress := vertexAddress;
      this.scalarAddress := scalarAddress;
    }

    /** `render`: one colour-mapped draw of the vertex and scalar vectors. */
    method Render(surface: MainMetalSurface)
      requires Valid()
      modifies surface
      ensures |surface.scene| == |old(surface.scene)| + 1
      ensures surface.scene[..|old(surface.scene)|] == old(surface.scene)
      ensures ShapeOfNode(surface.scene[|surface.scene| - 1]) == Shape(|vertices|, surface.texture, Some((vmin, vmax)))
    {
      surface.RenderMapped(Data(vertexAddress, |vertices|), Data(scalarAddress, |scalars|), vmin, vmax);
    }
  }

  // ---------------------------------------------------------------------
  // The component's own MetalRenderingSurface

  /** The texture of the component's surface: red, green and blue. */
  const RedGreenBlue: seq<Word> := [ToRGBA(Red), ToRGBA(Green), ToRGBA(Blue)]

  /** The three texture words read back as red, green and blue. */
  lemma RedGreenBlueReadsBack()
    ensures |RedGreenBlue| == 3
    ensures FromRGBAWord(RedGreenBlue[0]) == Red
    ensures FromRGBAWord(RedGreenBlue[1]) == Green
    ensures FromRGBAWord(RedGreenBlue[2]) == Blue
  {
    RGBAWordRoundTrip(Red);
    RGBAWordRoundTrip(Green);
    RGBAWordRoundTrip(Blue);
  }

  /**
   * The surface defined inside PatchView's main component: the same draw
   * calls as the stand-alone surfaces, a fixed three-colour texture, and
   * caches that are never cleaned.
   */
  class MainMetalSurface {
    var cache1: map<nat, Buffer>
    var cache2: map<nat, Buffer>
    var cache4: map<nat, Buffer>
    var created: nat
    var texture: seq<Word>
    var scene: seq<Node>

    function Cache(kind: Kind): map<nat, Buffer>
      reads this
    {
      match kind
      case Float1 => cache1
      case Float2 => cache2
      case Float4 => cache4
    }

    constructor()
      ensures texture == RedGreenBlue && scene == [] && created == 0
      ensures cache1 == map[] && cache2 == map[] && cache4 == map[]
    {
      var words := FromColours([Red, Green, Blue]);
      texture := words;
      cache1, cache2, cache4 := map[], map[], map[];
      created := 0;
      scene := [];
    }

    /**
     * `getOrCreateBuffer`: a hit returns the stored buffer; a miss makes a
     * new one and adds it. Nothing is ever removed, so every buffer stored
     * before the call is still stored under the same key afterwards.
     */
    method GetOrCreateBuffer(kind: Kind, data: Data) returns (b: Buffer)
      modifies this
      ensures data.address in old(Cache(kind)) ==>
        b == old(Cache(kind))[data.address] && Cache(kind) == old(Cache(kind)) && created == old(created)
      ensures data.address !in old(Cache(kind)) ==>
        b == Buffer(old(created), data.length) && created == old(created) + 1
        && Cache(kind) == old(Cache(kind))[data.address := b]
      ensures forall k :: k != kind ==> Cache(k) == old(Cache(k))
      ensures forall k, a :: a in old(Cache(k)) ==> a in Cache(k) && Cache(k)[a] == old(Cache(k))[a]
      ensures data.address in Cache(kind) && Cache(kind)[data.address] == b
      ensures texture == old(texture) && scene == old(scene)
    {
      var cache := Cache(kind);
      if data.address in cache {
        return cache[data.address];
      }
      b := Buffer(created, data.length);
      created := created + 1;
      match kind {
        case Float1 => cache1 := cache1[data.address := b];
        case Float2 => cache2 := cache2[data.address := b];
        case Float4 => cache4 := cache4[data.address := b];
      }
    }

    /** `renderTriangles (vertices, colors)`. */
    method RenderColoured(vertices: Data, colours: Data)
      requires vertices.length == colours.length
      modifies this
      ensures |scene| == |old(scene)| + 1 && scene[..|old(scene)|] == old(scene)
      ensures var n := scene[|scene| - 1];
        n.vertexCount == vertices.length && n.scalars == NoBuffer && n.mapping == [] && n.scalarDomain == None
        && vertices.address in Cache(Float2) && colours.address in Cache(Float4)
        && n.positions == Cache(Float2)[vertices.address] && n.colours == Cache(Float4)[colours.address]
      ensures texture == old(texture)
    {
      var p := GetOrCreateBuffer(Float2, vertices);
      var c := GetOrCreateBuffer(Float4, colours);
      scene := scene + [Node(p, c, NoBuffer, [], None, vertices.length)];
    }

    /** `renderTriangles (vertices, scalars, vmin, vmax)`: scalars go through the fixed texture. */
    method RenderMapped(vertices: Data, scalars: Data, vmin: real, vmax: real)
      requires vertices.length == scalars.length
      modifies this
      ensures |scene| == |old(scene)| + 1 && scene[..|old(scene)|] == old(scene)
      ensures var n := scene[|scene| - 1];
        ShapeOfNode(n) == Shape(vertices.length, texture, Some((vmin, vmax))) && n.colours == NoBuffer
        && vertices.address in Cache(Float2) && scalars.address in Cache(Float1)
        && n.positions == Cache(Float2)[vertices.address] && n.scalars == Cache(Float1)[scalars.address]
      ensures texture == old(texture)
    {
      var p := GetOrCreateBuffer(Float2, vertices);
      var s := GetOrCreateBuffer(Float1, scalars);
      scene := scene + [Node(p, NoBuffer, s, texture, Some((vmin, vmax)), vertices.length)];
    }
  }

  // ---------------------------------------------------------------------
  // MainComponent

  /** PatchView's `MainComponent`: the figure model and the view showing it. */
  class MainComponent {
    var model: FigureModel
    const figure: PatchFigureView

    /** The view always shows the component's current model. */
    predicate Valid()
      reads this, figure
    {
      figure.model == model && figure.Valid()
    }

    /**
     * The constructor: a default model whose content is the quad-mesh artist,
     * shown in a new view with a Metal surface installed. Loading the patch
     * database from disk is left to the caller, which passes the artist in.
     */
    constructor(artist: Vars.ArtistRef, surfaceId: nat)
      ensures Valid() && fresh(figure)
      ensures model == Default.(content := [artist])
      ensures figure.surface == Some(surfaceId) && figure.surfaceContent == [artist]
    {
      var m := Default.(content := [artist]);
      var f := new PatchFigureView();
      f.SetModel(m);
      f.SetRenderingSurface(Some(surfaceId));
      model := m;
      figure := f;
    }

    /** `figureViewSetMargin`: only the margin changes. */
    method SetMargin(value: Border)
      requires Valid()
      modifies this, figure
      ensures Valid()
      ensures model == old(model).(margin := value)
      ensures figure.surface == old(figure.surface) && figure.children == old(figure.children)
    {
      model := model.(margin := value);
      figure.SetModel(model);
    }

    /** `figureViewSetDomain`: the four axis limits become the rectangle's edges. */
    method SetDomainFromView(value: Domain)
      requires Valid()
      modifies this, figure
      ensures Valid()
      ensures model == SetDomain(old(model), value)
      ensures GetDomain(model) == value
      ensures figure.surface == old(figure.surface) && figure.children == old(figure.children)
    {
      model := model.(xmin := value.x, xmax := value.Right(), ymin := value.y, ymax := value.Bottom());
      DomainRoundTrip(old(model), value);
      figure.SetModel(model);
    }

    /** `figureViewSetXlabel`: only the x label changes, and the view's label shows it. */
    method SetXlabel(value: string)
      requires Valid()
      modifies this, figure
      ensures Valid()
      ensures model == old(model).(xlabel := value) && figure.xlabelText == value
    {
      model := model.(xlabel := value);
      figure.SetModel(model);
    }

    /** `figureViewSetYlabel`: only the y label changes, and the view's label shows it. */
    method SetYlabel(value: string)
      requires Valid()
      modifies this, figure
      ensures Valid()
      ensures model == old(model).(ylabel := value) && figure.ylabelText == value
    {
      model := model.(ylabel := value);
      figure.SetModel(model);
    }

    /** `figureViewSetTitle`: only the title changes, and the view's label shows it. */
    method SetTitle(value: string)
      requires Valid()
      modifies this, figure
      ensures Valid()
      ensures model == old(model).(title := value) && figure.titleText == value
    {
      model := model.(title := value);
      figure.SetModel(model);
    }
  }
}
