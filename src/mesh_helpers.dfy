// MeshHelpers: the triangle vertices of a uniform rectilinear mesh, the
// per-vertex scalars that go with them and the scalars' extent, each built by
// a loop that polls an optional bailout callback and returns an empty result
// when the callback answers true.
module MeshHelpers {
  import opened Wrappers
  import opened Geometry

  // ---------------------------------------------------------------------
  // Bailout polls

  /**
   * A `Bailout`: a possibly null `std::function<bool()>`. The answer of the
   * k-th call is `answer (k)`.
   */
  type Bailout = Option<nat -> bool>

  /** Whether any of the first `polls` calls answers true. */
  predicate AnyPoll(answer: nat -> bool, polls: nat)
  {
    polls > 0 && (AnyPoll(answer, polls - 1) || answer(polls - 1))
  }

  /**
   * Whether a loop that has done `n` items has bailed out: it calls the
   * callback once before the first item and again after every 1000th item.
   */
  predicate Bails(bailout: Bailout, n: nat)
  {
    bailout.Some? && AnyPoll(bailout.value, 1 + n / 1000)
  }

  /** Bailing out within the first `n` items means bailing out within any later count. */
  lemma {:induction false} BailsLater(bailout: Bailout, n: nat, m: nat)
    requires n <= m && Bails(bailout, n)
    ensures Bails(bailout, m)
  {
    var p := 1 + n / 1000;
    var q := 1 + m / 1000;
    assert p <= q;
    AnyPollLater(bailout.value, p, q);
  }

  lemma {:induction false} AnyPollLater(answer: nat -> bool, p: nat, q: nat)
    requires p <= q && AnyPoll(answer, p)
    ensures AnyPoll(answer, q)
    decreases q - p
  {
    if p < q {
      AnyPollLater(answer, p + 1, q);
    }
  }

  /** Before the first item only the initial call has been made. */
  lemma FirstPoll(bailout: Bailout)
    ensures Bails(bailout, 0) == (bailout.Some? && bailout.value(0))
  {
    if bailout.Some? {
      assert AnyPoll(bailout.value, 1) == bailout.value(0);
    }
  }

  /** One more item: the poll count grows exactly when the item count reaches a multiple of 1000. */
  lemma NextItem(bailout: Bailout, n: nat)
    requires bailout.Some?
    ensures (n + 1) % 1000 != 0 ==> Bails(bailout, n + 1) == Bails(bailout, n)
    ensures (n + 1) % 1000 == 0 ==>
      Bails(bailout, n + 1) == (Bails(bailout, n) || bailout.value((n + 1) / 1000))
  {
  }

  // ---------------------------------------------------------------------
  // triangulateUniformRectilinearMesh

  /** The `extent` argument: x from `e0` to `e1`, y from `e2` to `e3`. */
  datatype Extent = Extent(e0: real, e1: real, e2: real, e3: real)

  /** The corners of one cell. */
  datatype Corners = Corners(x0: real, y0: real, x1: real, y1: real)

  /** Which formulas place the cell corners: the ones the code has, or the intended ones. */
  datatype Placement = AsWritten | Intended

  /**
   * The corners of cell `(i, j)` as the code computes them: `y0` takes the x
   * span and `x1` the y span.
   */
  function CornersAsWritten(ni: int, nj: int, e: Extent, i: int, j: int): Corners
    requires ni > 0 && nj > 0
  {
    Corners(e.e0 + (i as real) * (e.e1 - e.e0) / ni as real,
            e.e2 + (j as real) * (e.e1 - e.e0) / nj as real,
            e.e0 + ((i + 1) as real) * (e.e3 - e.e2) / ni as real,
            e.e2 + ((j + 1) as real) * (e.e3 - e.e2) / nj as real)
  }

  /** The corners of cell `(i, j)` on the uniform grid over the extent. */
  function CornersIntended(ni: int, nj: int, e: Extent, i: int, j: int): Corners
    requires ni > 0 && nj > 0
  {
    Corners(e.e0 + (i as real) * (e.e1 - e.e0) / ni as real,
            e.e2 + (j as real) * (e.e3 - e.e2) / nj as real,
            e.e0 + ((i + 1) as real) * (e.e1 - e.e0) / ni as real,
            e.e2 + ((j + 1) as real) * (e.e3 - e.e2) / nj as real)
  }

  function CornersOf(p: Placement, ni: int, nj: int, e: Extent, i: int, j: int): Corners
    requires ni > 0 && nj > 0
  {
    match p
    case AsWritten => CornersAsWritten(ni, nj, e, i, j)
    case Intended => CornersIntended(ni, nj, e, i, j)
  }

  /** The two triangles of a cell: (x0,y0) (x0,y1) (x1,y0) and (x0,y1) (x1,y0) (x1,y1). */
  function Quad(c: Corners): (q: seq<Point>)
    ensures |q| == 6
  {
    [Point(c.x0, c.y0), Point(c.x0, c.y1), Point(c.x1, c.y0),
     Point(c.x0, c.y1), Point(c.x1, c.y0), Point(c.x1, c.y1)]
  }

  /** The vertices of cells `(i, 0)` … `(i, j - 1)`. */
  function RowVertices(p: Placement, ni: int, nj: int, e: Extent, i: int, j: nat): seq<Point>
    requires ni > 0 && nj > 0
  {
    if j == 0 then [] else RowVertices(p, ni, nj, e, i, j - 1) + Quad(CornersOf(p, ni, nj, e, i, j - 1))
  }

  /** The vertices of the first `i` rows of cells, row by row. */
  function MeshVertices(p: Placement, ni: int, nj: int, e: Extent, i: nat): seq<Point>
    requires ni > 0 && nj > 0
  {
    if i == 0 then [] else MeshVertices(p, ni, nj, e, i - 1) + RowVertices(p, ni, nj, e, i - 1, nj)
  }

  /** The number of cells the nested loops visit: none unless both counts are positive. */
  function CellCount(ni: int, nj: int): nat
  {
    if ni <= 0 || nj <= 0 then 0 else ni * nj
  }

  /** All vertices of an `ni` by `nj` mesh, or none when either count is not positive. */
  function Mesh(p: Placement, ni: int, nj: int, e: Extent): seq<Point>
  {
    if ni <= 0 || nj <= 0 then [] else MeshVertices(p, ni, nj, e, ni)
  }

  lemma {:induction false} RowVerticesLength(p: Placement, ni: int, nj: int, e: Extent, i: int, j: nat)
    requires ni > 0 && nj > 0
    ensures |RowVertices(p, ni, nj, e, i, j)| == 6 * j
  {
    if j > 0 {
      RowVerticesLength(p, ni, nj, e, i, j - 1);
    }
  }

  lemma {:induction false} MeshVerticesLength(p: Placement, ni: int, nj: int, e: Extent, i: nat)
    requires ni > 0 && nj > 0
    ensures |MeshVertices(p, ni, nj, e, i)| == 6 * i * nj
  {
    if i > 0 {
      MeshVerticesLength(p, ni, nj, e, i - 1);
      RowVerticesLength(p, ni, nj, e, i - 1, nj);
    }
  }

  /** A mesh has six vertices per cell. */
  lemma MeshLength(p: Placement, ni: int, nj: int, e: Extent)
    ensures |Mesh(p, ni, nj, e)| == 6 * CellCount(ni, nj)
  {
    if ni > 0 && nj > 0 {
      MeshVerticesLength(p, ni, nj, e, ni);
    }
  }

  /** Within a row, the six vertices of cell `(i, k)` start at `6 k`. */
  lemma {:induction false} RowVerticesAt(p: Placement, ni: int, nj: int, e: Extent, i: int, j: nat, k: nat)
    requires ni > 0 && nj > 0 && k < j
    ensures |RowVertices(p, ni, nj, e, i, j)| == 6 * j
    ensures RowVertices(p, ni, nj, e, i, j)[6 * k .. 6 * k + 6] == Quad(CornersOf(p, ni, nj, e, i, k))
  {
    RowVerticesLength(p, ni, nj, e, i, j);
    RowVerticesLength(p, ni, nj, e, i, j - 1);
    if k < j - 1 {
      RowVerticesAt(p, ni, nj, e, i, j - 1, k);
    }
  }

  /**
   * The inner loop of `triangulateUniformRectilinearMesh`: the cells of row
   * `i`, counting on from `iter0` cells already done. `bailed` is set when a
   * poll after some cell answers true.
   */
  method TriangulateRow(p: Placement, ni: int, nj: int, e: Extent, i: int, iter0: nat, bailout: Bailout)
    returns (row: seq<Point>, iter: nat, bailed: bool)
    requires ni > 0 && nj > 0 && !Bails(bailout, iter0)
    ensures bailed ==> Bails(bailout, iter) && iter <= iter0 + nj
    ensures !bailed ==> iter == iter0 + nj && row == RowVertices(p, ni, nj, e, i, nj)
    ensures !bailed ==> !Bails(bailout, iter)
  {
    row, iter, bailed := [], iter0, false;
    var j := 0;
    while j < nj
      invariant 0 <= j <= nj
      invariant iter == iter0 + j && row == RowVertices(p, ni, nj, e, i, j)
      invariant !Bails(bailout, iter)
    {
      var c := CornersOf(p, ni, nj, e, i, j);
      row := row + Quad(c);
      iter := iter + 1;
      if bailout.Some? {
        NextItem(bailout, iter - 1);
      }
      if iter % 1000 == 0 && bailout.Some? && bailout.value(iter / 1000) {
        return [], iter, true;
      }
      j := j + 1;
    }
  }

  /**
   * `triangulateUniformRectilinearMesh`: the cells in row-major order, six
   * vertices each, or no vertices at all when the bailout fires before the
   * first cell or after any 1000th cell.
   */
  method TriangulateUniformRectilinearMesh(p: Placement, ni: int, nj: int, e: Extent, bailout: Bailout)
    returns (verts: seq<Point>)
    ensures verts == if Bails(bailout, CellCount(ni, nj)) then [] else Mesh(p, ni, nj, e)
  {
    if bailout.Some? && bailout.value(0) {
      BailsLater(bailout, 0, CellCount(ni, nj));
      return [];
    }
    FirstPoll(bailout);
    if ni <= 0 || nj <= 0 {
      // Neither loop visits a cell.
      return [];
    }
    verts := [];
    var iter := 0;
    var i := 0;
    while i < ni
      invariant 0 <= i <= ni
      invariant iter == i * nj && verts == MeshVertices(p, ni, nj, e, i)
      invariant !Bails(bailout, iter)
    {
      var row, bailed;
      row, iter, bailed := TriangulateRow(p, ni, nj, e, i, iter, bailout);
      NextRow(i, nj);
      if bailed {
        RowsWithin(i + 1, ni, nj);
        BailsLater(bailout, iter, CellCount(ni, nj));
        return [];
      }
      verts := verts + row;
      i := i + 1;
    }
    assert iter == CellCount(ni, nj);
  }

  lemma NextRow(i: int, nj: int)
    ensures (i + 1) * nj == i * nj + nj
  {
  }

  lemma RowsWithin(k: int, ni: int, nj: int)
    requires k <= ni && nj > 0
    ensures k * nj <= ni * nj
  {
    assert (ni - k) * nj >= 0;
  }

  /** Cell corners of the intended grid meet their neighbours' and span exactly the extent. */
  lemma IntendedCornersTile(ni: int, nj: int, e: Extent, i: int, j: int)
    requires ni > 0 && nj > 0
    ensures CornersIntended(ni, nj, e, 0, j).x0 == e.e0
    ensures CornersIntended(ni, nj, e, i, 0).y0 == e.e2
    ensures CornersIntended(ni, nj, e, ni - 1, j).x1 == e.e1
    ensures CornersIntended(ni, nj, e, i, nj - 1).y1 == e.e3
    ensures CornersIntended(ni, nj, e, i, j).x1 == CornersIntended(ni, nj, e, i + 1, j).x0
    ensures CornersIntended(ni, nj, e, i, j).y1 == CornersIntended(ni, nj, e, i, j + 1).y0
  {
    CornersStart(ni, nj, e, i, j);
    CornersEndX(ni, nj, e, j);
    CornersEndY(ni, nj, e, i);
  }

  lemma CornersStart(ni: int, nj: int, e: Extent, i: int, j: int)
    requires ni > 0 && nj > 0
    ensures CornersIntended(ni, nj, e, 0, j).x0 == e.e0
    ensures CornersIntended(ni, nj, e, i, 0).y0 == e.e2
  {
  }

  lemma CornersEndX(ni: int, nj: int, e: Extent, j: int)
    requires ni > 0 && nj > 0
    ensures CornersIntended(ni, nj, e, ni - 1, j).x1 == e.e1
  {
    WholeSpan(ni, e.e1 - e.e0);
    assert ((ni - 1) + 1) as real == ni as real;
  }

  lemma CornersEndY(ni: int, nj: int, e: Extent, i: int)
    requires ni > 0 && nj > 0
    ensures CornersIntended(ni, nj, e, i, nj - 1).y1 == e.e3
  {
    WholeSpan(nj, e.e3 - e.e2);
    assert ((nj - 1) + 1) as real == nj as real;
  }

  /** `n` steps of `span / n` make the span. */
  lemma WholeSpan(n: int, span: real)
    requires n > 0
    ensures (n as real) * span / n as real == span
  {
  }

  /**
   * With the corners as written, a single cell over x in [0, 1] and y in
   * [0, 2] reaches x = 2: the right edge takes the y span.
   */
  lemma AsWrittenCornersLeaveExtent()
    ensures CornersAsWritten(1, 1, Extent(0.0, 1.0, 0.0, 2.0), 0, 0).x1 == 2.0
    ensures CornersIntended(1, 1, Extent(0.0, 1.0, 0.0, 2.0), 0, 0).x1 == 1.0
  {
  }

  // ---------------------------------------------------------------------
  // makeRectilinearGridScalars

  /** Every scalar repeated six times, in order. */
  function Repeated6(s: seq<real>): seq<real>
  {
    if s == [] then [] else Repeated6(s[..|s| - 1]) + seq(6, _ => s[|s| - 1])
  }

  lemma {:induction false} Repeated6At(s: seq<real>, k: nat, m: nat)
    requires k < |s| && m < 6
    ensures |Repeated6(s)| == 6 * |s|
    ensures Repeated6(s)[6 * k + m] == s[k]
  {
    var n := |s| - 1;
    Repeated6Length(s[..n]);
    if k < n {
      Repeated6At(s[..n], k, m);
    }
  }

  lemma {:induction false} Repeated6Length(s: seq<real>)
    ensures |Repeated6(s)| == 6 * |s|
  {
    if s != [] {
      Repeated6Length(s[..|s| - 1]);
    }
  }

  /**
   * `makeRectilinearGridScalars`: each scalar pushed six times, one copy for
   * each vertex of its cell, or nothing when the bailout fires.
   */
  method MakeRectilinearGridScalars(scalar: seq<real>, bailout: Bailout) returns (result: seq<real>)
    ensures result == if Bails(bailout, |scalar|) then [] else Repeated6(scalar)
  {
    if bailout.Some? && bailout.value(0) {
      BailsLater(bailout, 0, |scalar|);
      return [];
    }
    FirstPoll(bailout);
    result := [];
    var iter := 0;
    while iter < |scalar|
      invariant 0 <= iter <= |scalar|
      invariant result == Repeated6(scalar[..iter])
      invariant !Bails(bailout, iter)
    {
      var s := scalar[iter];
      var n := 0;
      var block := [];
      while n < 6
        invariant 0 <= n <= 6 && block == seq(n, _ => s)
      {
        block := block + [s];
        n := n + 1;
      }
      assert scalar[..iter + 1][..iter] == scalar[..iter];
      result := result + block;
      iter := iter + 1;
      if bailout.Some? {
        NextItem(bailout, iter - 1);
      }
      if iter % 1000 == 0 && bailout.Some? && bailout.value(iter / 1000) {
        BailsLater(bailout, iter, |scalar|);
        return [];
      }
    }
    assert scalar[..iter] == scalar;
  }

  // ---------------------------------------------------------------------
  // findScalarExtent

  /** `std::numeric_limits<float>::max ()`. */
  const FloatMax: real := 340282346638528859811704939365054169088.0

  /** `std::numeric_limits<float>::min ()`: the smallest positive normal float, 2^-126. */
  const FloatMin: real := 1.0 / 85070591730234615865843651857942052864.0

  /** The value `max` is seeded with: `min ()` as written, `lowest ()` as intended. */
  function MaxSeed(p: Placement): real
  {
    match p
    case AsWritten => FloatMin
    case Intended => -FloatMax
  }

  /** The running minimum and maximum over `s`, from the given seeds. */
  function RunningExtent(s: seq<real>, lo: real, hi: real): (real, real)
  {
    if s == [] then (lo, hi)
    else
      var e := RunningExtent(s[..|s| - 1], lo, hi);
      var x := s[|s| - 1];
      (if x < e.0 then x else e.0, if x > e.1 then x else e.1)
  }

  /**
   * `findScalarExtent`: the running extent of the scalars, or {0, 1} when the
   * bailout fires.
   */
  method FindScalarExtent(p: Placement, scalar: seq<real>, bailout: Bailout) returns (lo: real, hi: real)
    ensures (lo, hi) == if Bails(bailout, |scalar|) then (0.0, 1.0) else RunningExtent(scalar, FloatMax, MaxSeed(p))
  {
    if bailout.Some? && bailout.value(0) {
      BailsLater(bailout, 0, |scalar|);
      return 0.0, 1.0;
    }
    FirstPoll(bailout);
    lo, hi := FloatMax, MaxSeed(p);
    var iter := 0;
    while iter < |scalar|
      invariant 0 <= iter <= |scalar|
      invariant (lo, hi) == RunningExtent(scalar[..iter], FloatMax, MaxSeed(p))
      invariant !Bails(bailout, iter)
    {
      var s := scalar[iter];
      if s < lo { lo := s; }
      if s > hi { hi := s; }
      assert scalar[..iter + 1][..iter] == scalar[..iter];
      iter := iter + 1;
      if bailout.Some? {
        NextItem(bailout, iter - 1);
      }
      if iter % 1000 == 0 && bailout.Some? && bailout.value(iter / 1000) {
        BailsLater(bailout, iter, |scalar|);
        return 0.0, 1.0;
      }
    }
    assert scalar[..iter] == scalar;
  }

  /** Values a float can hold. */
  predicate InFloatRange(s: seq<real>)
  {
    forall k :: 0 <= k < |s| ==> -FloatMax <= s[k] <= FloatMax
  }

  /**
   * Seeded with `max ()` and `lowest ()`, the running extent of non-empty
   * float data is its least and its greatest element.
   */
  lemma {:induction false} IntendedExtentIsMinMax(s: seq<real>)
    requires |s| > 0 && InFloatRange(s)
    ensures RunningExtent(s, FloatMax, MaxSeed(Intended)).0 in s
    ensures RunningExtent(s, FloatMax, MaxSeed(Intended)).1 in s
    ensures forall k :: 0 <= k < |s| ==> RunningExtent(s, FloatMax, MaxSeed(Intended)).0 <= s[k]
    ensures forall k :: 0 <= k < |s| ==> s[k] <= RunningExtent(s, FloatMax, MaxSeed(Intended)).1
  {
    var n := |s| - 1;
    var init := s[..n];
    assert forall k :: 0 <= k < n ==> init[k] == s[k];
    if n > 0 {
      IntendedExtentIsMinMax(init);
    }
  }

  /**
   * Seeded with `min ()`, the smallest positive float, the maximum of
   * all-negative data comes out positive.
   */
  lemma AsWrittenExtentOfNegativeData()
    ensures RunningExtent([-1.0], FloatMax, MaxSeed(AsWritten)) == (-1.0, FloatMin)
    ensures RunningExtent([-1.0], FloatMax, MaxSeed(Intended)) == (-1.0, -1.0)
  {
    assert [-1.0][..0] == [];
  }

  // ---------------------------------------------------------------------
  // scaleByLog10

  /**
   * `scaleByLog10`: a copy with every element replaced by `logf` of it (the
   * natural logarithm, passed in as `log`), or an empty array when the
   * bailout fires.
   */
  method ScaleByLog10(scalar: seq<real>, log: real -> real, bailout: Bailout) returns (result: seq<real>)
    ensures result == if Bails(bailout, |scalar|) then [] else seq(|scalar|, k requires 0 <= k < |scalar| => log(scalar[k]))
  {
    if bailout.Some? && bailout.value(0) {
      BailsLater(bailout, 0, |scalar|);
      return [];
    }
    FirstPoll(bailout);
    result := scalar;
    var iter := 0;
    while iter < |scalar|
      invariant 0 <= iter <= |scalar| && |result| == |scalar|
      invariant forall k :: 0 <= k < iter ==> result[k] == log(scalar[k])
      invariant forall k :: iter <= k < |scalar| ==> result[k] == scalar[k]
      invariant !Bails(bailout, iter)
    {
      result := result[iter := log(result[iter])];
      iter := iter + 1;
      if bailout.Some? {
        NextItem(bailout, iter - 1);
      }
      if iter % 1000 == 0 && bailout.Some? && bailout.value(iter / 1000) {
        BailsLater(bailout, iter, |scalar|);
        return [];
      }
    }
  }

  // ---------------------------------------------------------------------
  // The older copy, which calls the callback before any null check

  /** What calling an empty `std::function` throws. */
  const BadFunctionCall := "std::bad_function_call"

  /**
   * The older copies' first call, made with no null check: a null callback
   * throws, any other gives its first answer.
   */
  function OldFirstCall(bailout: Bailout): (r: Result<bool>)
    ensures r.Err? <==> bailout.None?
    ensures r.Err? ==> r.error == BadFunctionCall
    ensures r.Ok? ==> r.value == Bails(bailout, 0)
  {
    if bailout.None? then Err(BadFunctionCall)
    else
      FirstPoll(bailout);
      Ok(bailout.value(0))
  }

  /** As written, the older copies throw on the null callback their own loops test for. */
  lemma OldNullCallbackThrows()
    ensures OldFirstCall(None) == Err(BadFunctionCall)
  {
  }

  /** The guarded copies never bail out without a callback, so they do all the work. */
  lemma NullCallbackNeverBails(n: nat)
    ensures !Bails(None, n)
  {
  }

  /** The older `triangulateUniformRectilinearMesh`: the first call is made unguarded. */
  method OldTriangulateUniformRectilinearMesh(ni: int, nj: int, e: Extent, bailout: Bailout)
    returns (r: Result<seq<Point>>)
    ensures bailout.None? ==> r == Err(BadFunctionCall)
    ensures bailout.Some? ==>
      r == Ok(if Bails(bailout, CellCount(ni, nj)) then [] else Mesh(AsWritten, ni, nj, e))
  {
    var first := OldFirstCall(bailout);
    if first.Err? {
      return Err(first.error);
    }
    var verts := TriangulateUniformRectilinearMesh(AsWritten, ni, nj, e, bailout);
    return Ok(verts);
  }

  /** The older `makeRectilinearGridScalars`, with the same unguarded first call. */
  method OldMakeRectilinearGridScalars(scalar: seq<real>, bailout: Bailout) returns (r: Result<seq<real>>)
    ensures bailout.None? ==> r == Err(BadFunctionCall)
    ensures bailout.Some? ==> r == Ok(if Bails(bailout, |scalar|) then [] else Repeated6(scalar))
  {
    var first := OldFirstCall(bailout);
    if first.Err? {
      return Err(first.error);
    }
    var result := MakeRectilinearGridScalars(scalar, bailout);
    return Ok(result);
  }

  /** The older `findScalarExtent`, with the same unguarded first call and `min ()` seed. */
  method OldFindScalarExtent(scalar: seq<real>, bailout: Bailout) returns (r: Result<(real, real)>)
    ensures bailout.None? ==> r == Err(BadFunctionCall)
    ensures bailout.Some? ==>
      r == Ok(if Bails(bailout, |scalar|) then (0.0, 1.0) else RunningExtent(scalar, FloatMax, FloatMin))
  {
    var first := OldFirstCall(bailout);
    if first.Err? {
      return Err(first.error);
    }
    var lo, hi := FindScalarExtent(AsWritten, scalar, bailout);
    return Ok((lo, hi));
  }

  /** The older `scaleByLog10`, with the same unguarded first call. */
  method OldScaleByLog10(scalar: seq<real>, log: real -> real, bailout: Bailout) returns (r: Result<seq<real>>)
    ensures bailout.None? ==> r == Err(BadFunctionCall)
    ensures bailout.Some? ==>
      r == Ok(if Bails(bailout, |scalar|) then [] else seq(|scalar|, k requires 0 <= k < |scalar| => log(scalar[k])))
  {
    var first := OldFirstCall(bailout);
    if first.Err? {
      return Err(first.error);
    }
    var result := ScaleByLog10(scalar, log, bailout);
    return Ok(result);
  }
}
