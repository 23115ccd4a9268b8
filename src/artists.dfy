// The plot artists drawn in software: the line plot, which strokes a path
// through its points and stamps a marker glyph on each, and the colour
// gradient, which spreads its stops evenly along one axis. Drawing itself is
// represented by the list of drawing operations an artist issues, in order.
module Artists {
  import opened Wrappers
  import opened Geometry
  import opened Colours

  datatype LineStyle = NoLine | Solid | Dash | DashDot
  datatype MarkerStyle = NoMarker | Circle | Square | Diamond | Plus | Cross

  /** `LinePlotModel`: the data points and how they are drawn. */
  datatype LinePlotModel = LinePlotModel(
    x: seq<real>, y: seq<real>,
    lineStyle: LineStyle, lineWidth: real, lineColour: Colour,
    markerStyle: MarkerStyle, markerSize: real, markerEdgeWidth: real,
    markerFillColour: Colour, markerEdgeColour: Colour)

  /**
   * A drawing operation: a stroked path with its dash pattern, colour and
   * width, or one marker glyph in its area with its fill colour, edge colour
   * and edge width.
   */
  datatype DrawOp =
    | StrokePath(points: seq<Point>, dashes: seq<real>, colour: Colour, width: real)
    | Glyph(style: MarkerStyle, area: Box, fill: Colour, edge: Colour, edgeWidth: real)

  /** The dash lengths of each line style: none for a solid line, 8-8 for dashes, 8-8-2-8 for dash-dot. */
  function Dashes(style: LineStyle): seq<real>
  {
    match style
    case NoLine => []
    case Solid => []
    case Dash => [8.0, 8.0]
    case DashDot => [8.0, 8.0, 2.0, 8.0]
  }

  /** The data points in pixel coordinates, `fx` and `fy` being the transformer's `fromDomainX`/`fromDomainY`. */
  function PathOf(x: seq<real>, y: seq<real>, fx: real -> real, fy: real -> real): (p: seq<Point>)
    requires |x| == |y|
    ensures |p| == |x|
  {
    seq(|x|, i requires 0 <= i < |x| => Point(fx(x[i]), fy(y[i])))
  }

  /** A glyph area: a square of side `size` centred on the point. */
  function GlyphArea(p: Point, size: real): Box
  {
    Box(p.x - 0.5 * size, p.y - 0.5 * size, size, size)
  }

  /** The glyph stamped on a point: the marker's style, fill, edge and edge width over its glyph area. */
  function GlyphAt(m: LinePlotModel, p: Point): (op: DrawOp)
    ensures op.Glyph? && op.style == m.markerStyle
    ensures op.fill == m.markerFillColour && op.edge == m.markerEdgeColour && op.edgeWidth == m.markerEdgeWidth
    ensures op.area.Centre() == p && op.area.w == op.area.h == m.markerSize
  {
    Glyph(m.markerStyle, GlyphArea(p, m.markerSize), m.markerFillColour, m.markerEdgeColour, m.markerEdgeWidth)
  }

  /** The stroke of the path, unless the line style is none. */
  function StrokeOps(m: LinePlotModel, path: seq<Point>): seq<DrawOp>
  {
    if m.lineStyle != NoLine then [StrokePath(path, Dashes(m.lineStyle), m.lineColour, m.lineWidth)] else []
  }

  /** One glyph per point of the path, unless the marker style is none. */
  function GlyphOps(m: LinePlotModel, path: seq<Point>): seq<DrawOp>
  {
    if m.markerStyle != NoMarker then seq(|path|, i requires 0 <= i < |path| => GlyphAt(m, path[i])) else []
  }

  /** The operations `LinePlotArtist::paint` issues. */
  function PaintOps(m: LinePlotModel, fx: real -> real, fy: real -> real): seq<DrawOp>
    requires |m.x| == |m.y|
  {
    if |m.x| == 0 then []
    else
      var path := PathOf(m.x, m.y, fx, fy);
      StrokeOps(m, path) + GlyphOps(m, path)
  }

  /** Whether the line is stroked, and how many glyphs are stamped. */
  function StrokeCount(m: LinePlotModel): nat
  {
    if |m.x| > 0 && m.lineStyle != NoLine then 1 else 0
  }

  function GlyphCount(m: LinePlotModel): nat
  {
    if m.markerStyle != NoMarker then |m.x| else 0
  }

  /**
   * An empty line draws nothing. Otherwise the path is stroked only when the
   * line style is not none, through every point in order, and the glyph of
   * each point follows, in order, only when the marker style is not none.
   */
  lemma PaintGating(m: LinePlotModel, fx: real -> real, fy: real -> real)
    requires |m.x| == |m.y|
    ensures |m.x| == 0 ==> PaintOps(m, fx, fy) == []
    ensures |PaintOps(m, fx, fy)| == StrokeCount(m) + GlyphCount(m)
    ensures StrokeCount(m) == 1 ==>
      PaintOps(m, fx, fy)[0] == StrokePath(PathOf(m.x, m.y, fx, fy), Dashes(m.lineStyle), m.lineColour, m.lineWidth)
    ensures forall n :: 0 <= n < GlyphCount(m) ==>
      PaintOps(m, fx, fy)[StrokeCount(m) + n] == GlyphAt(m, Point(fx(m.x[n]), fy(m.y[n])))
  {
    if |m.x| > 0 {
      var path := PathOf(m.x, m.y, fx, fy);
      var strokes, glyphs := StrokeOps(m, path), GlyphOps(m, path);
      assert |strokes| == StrokeCount(m) && |glyphs| == GlyphCount(m);
      forall n | 0 <= n < GlyphCount(m)
        ensures (strokes + glyphs)[StrokeCount(m) + n] == GlyphAt(m, Point(fx(m.x[n]), fy(m.y[n])))
      {
        assert glyphs[n] == GlyphAt(m, path[n]);
      }
    }
  }

  /** `LinePlotArtist::paint` in CounterPlot: the path loop, then the glyph loop. */
  method Paint(m: LinePlotModel, fx: real -> real, fy: real -> real) returns (ops: seq<DrawOp>)
    requires |m.x| == |m.y|
    ensures ops == PaintOps(m, fx, fy)
  {
    if |m.x| == 0 {
      return [];
    }
    ops := [];
    if m.lineStyle != NoLine {
      var p := [Point(fx(m.x[0]), fy(m.y[0]))];
      for n := 1 to |m.x|
        invariant |p| == n
        invariant forall i :: 0 <= i < n ==> p[i] == Point(fx(m.x[i]), fy(m.y[i]))
      {
        p := p + [Point(fx(m.x[n]), fy(m.y[n]))];
      }
      assert p == PathOf(m.x, m.y, fx, fy);
      ops := [StrokePath(p, Dashes(m.lineStyle), m.lineColour, m.lineWidth)];
    }
    ghost var strokes := ops;
    if m.markerStyle != NoMarker {
      for n := 0 to |m.x|
        invariant |ops| == |strokes| + n && ops[..|strokes|] == strokes
        invariant forall i :: 0 <= i < n ==>
          ops[|strokes| + i] == GlyphAt(m, Point(fx(m.x[i]), fy(m.y[i])))
      {
        var px := fx(m.x[n]);
        var py := fy(m.y[n]);
        ops := ops + [Glyph(m.markerStyle, Box(px - 0.5 * m.markerSize, py - 0.5 * m.markerSize, m.markerSize, m.markerSize),
                             m.markerFillColour, m.markerEdgeColour, m.markerEdgeWidth)];
      }
      assert ops == strokes + GlyphOps(m, PathOf(m.x, m.y, fx, fy));
    }
    assert strokes == StrokeOps(m, PathOf(m.x, m.y, fx, fy));
  }

  /**
   * PatchView's `LinePlotArtist::paint`: nothing for an empty line, else one
   * solid stroke of the line's width and colour through the points; it
   * draws what the CounterPlot artist draws for a solid line without markers.
   */
  method PatchPaint(x: seq<real>, y: seq<real>, lineWidth: real, lineColour: Colour, fx: real -> real, fy: real -> real)
    returns (ops: seq<DrawOp>)
    requires |x| == |y|
    ensures ops == PaintOps(LinePlotModel(x, y, Solid, lineWidth, lineColour, NoMarker, 1.0, 1.0, TransparentBlack, Black), fx, fy)
    ensures |x| == 0 <==> ops == []
  {
    if |x| == 0 {
      return [];
    }
    var p := [Point(fx(x[0]), fy(y[0]))];
    for n := 1 to |x|
      invariant |p| == n
      invariant forall i :: 0 <= i < n ==> p[i] == Point(fx(x[i]), fy(y[i]))
    {
      p := p + [Point(fx(x[n]), fy(y[n]))];
    }
    assert p == PathOf(x, y, fx, fy);
    ops := [StrokePath(p, [], lineColour, lineWidth)];
  }

  // ---------------------------------------------------------------------------
  // Colour gradient

  datatype Orientation = Horizontal | Vertical

  /** The names `setOrientation (String, bool)` accepts. */
  function OrientationName(o: Orientation): string
  {
    match o
    case Vertical => "vertical"
    case Horizontal => "horizontal"
  }

  /** The orientation a name stands for, if any. */
  function OrientationNamed(name: string): (r: Option<Orientation>)
    ensures r.Some? <==> name == "vertical" || name == "horizontal"
  {
    if name == "vertical" then Some(Vertical)
    else if name == "horizontal" then Some(Horizontal)
    else None
  }

  /** Every orientation is found again by its name. */
  lemma OrientationNameRoundTrip(o: Orientation)
    ensures OrientationNamed(OrientationName(o)) == Some(o)
  {
  }

  /** Stop n of `size` sits at n·(1/(size−1)). */
  function StopAt(n: nat, size: nat): real
    requires size != 1
  {
    n as real * (1.0 / (size as real - 1.0))
  }

  /** With two or more stops, the first sits at 0, the last at 1, and they increase in between. */
  lemma StopsSpanUnitInterval(size: nat, i: nat, j: nat)
    requires size >= 2 && i < j < size
    ensures StopAt(0, size) == 0.0
    ensures StopAt(size - 1, size) == 1.0
    ensures 0.0 <= StopAt(i, size) < StopAt(j, size) <= 1.0
  {
    var d := size as real - 1.0;
    assert d * (1.0 / d) == 1.0;
    assert StopAt(j, size) - StopAt(i, size) == (j - i) as real * (1.0 / d);
    assert (size - 1 - j) as real * (1.0 / d) >= 0.0;
    assert StopAt(size - 1, size) - StopAt(j, size) == (size - 1 - j) as real * (1.0 / d);
  }

  /**
   * The stop loop of `ColourGradientArtist::paint` (both copies): stop n is
   * added at n·ds with ds = 1/(size−1). One stop divides by zero, which the
   * float arithmetic turns into a non-finite position.
   */
  method GradientStops(stops: seq<Colour>) returns (positioned: seq<(real, Colour)>)
    requires |stops| != 1
    ensures |positioned| == |stops|
    ensures forall n :: 0 <= n < |stops| ==> positioned[n] == (StopAt(n, |stops|), stops[n])
  {
    var ds := 1.0 / (|stops| as real - 1.0);
    positioned := [];
    var n := 0;
    for k := 0 to |stops|
      invariant n == k && |positioned| == k
      invariant forall i :: 0 <= i < k ==> positioned[i] == (StopAt(i, |stops|), stops[i])
    {
      assert n as real * ds == StopAt(k, |stops|);
      positioned := positioned + [(n as real * ds, stops[k])];
      n := n + 1;
    }
  }

  /**
   * Where the gradient runs from and to: along the domain's unit interval
   * when it follows the transform, else along the bottom edge of the range
   * (horizontal) or up its left edge (vertical).
   */
  function GradientEnds(o: Orientation, followsTransform: bool, range: Rect, fx: real -> real, fy: real -> real): (ends: (Point, Point))
    ensures followsTransform && o == Horizontal ==> ends == (Point(fx(0.0), 0.0), Point(fx(1.0), 0.0))
    ensures followsTransform && o == Vertical ==> ends == (Point(0.0, fy(0.0)), Point(0.0, fy(1.0)))
    ensures !followsTransform ==> ends.0 == Point(range.x as real, range.Bottom() as real)
    ensures !followsTransform && o == Horizontal ==> ends.1.y == ends.0.y && ends.1.x - ends.0.x == range.w as real
    ensures !followsTransform && o == Vertical ==> ends.1.x == ends.0.x && ends.0.y - ends.1.y == range.h as real
  {
    var bottomLeft := Point(range.x as real, range.Bottom() as real);
    match o
    case Horizontal =>
      if followsTransform then (Point(fx(0.0), 0.0), Point(fx(1.0), 0.0))
      else (bottomLeft, Point(range.Right() as real, range.Bottom() as real))
    case Vertical =>
      if followsTransform then (Point(0.0, fy(0.0)), Point(0.0, fy(1.0)))
      else (bottomLeft, Point(range.x as real, range.y as real))
  }

  /** `ColourGradientArtist`: its stops, its orientation and whether the gradient follows the transform. */
  class ColourGradientArtist {
    var stops: seq<Colour>
    var orientation: Orientation
    var transformGradient: bool

    /** `ColourGradientArtist()`: no stops, vertical, not following the transform. */
    constructor()
      ensures stops == [] && orientation == Vertical && !transformGradient
    {
      stops := [];
      orientation := Vertical;
      transformGradient := false;
    }

    /** `ColourGradientArtist (stops)`. */
    constructor WithStops(s: seq<Colour>)
      ensures stops == s && orientation == Vertical && !transformGradient
    {
      stops := s;
      orientation := Vertical;
      transformGradient := false;
    }

    /** `setStops`: the stop list is replaced wholesale. */
    method SetStops(s: seq<Colour>)
      modifies this
      ensures stops == s && orientation == old(orientation) && transformGradient == old(transformGradient)
    {
      stops := s;
    }

    /** `setOrientation (Orientation)`. */
    method SetOrientation(o: Orientation)
      modifies this
      ensures orientation == o && stops == old(stops) && transformGradient == old(transformGradient)
    {
      orientation := o;
    }

    /**
     * `setOrientation (String, bool)`: "vertical" and "horizontal" set the
     * orientation; any other name leaves it and raises `invalid_argument`
     * exactly when `throwIfNotFound`.
     */
    method SetOrientationNamed(name: string, throwIfNotFound: bool) returns (error: Option<string>)
      modifies this
      ensures OrientationNamed(name).Some? ==> orientation == OrientationNamed(name).value && error == None
      ensures OrientationNamed(name).None? ==> orientation == old(orientation)
      ensures OrientationNamed(name).None? ==>
        error == (if throwIfNotFound then Some("orientation must be vertical or horizontal") else None)
      ensures stops == old(stops) && transformGradient == old(transformGradient)
    {
      error := None;
      if name == "vertical" {
        orientation := Vertical;
      } else if name == "horizontal" {
        orientation := Horizontal;
      } else if throwIfNotFound {
        error := Some("orientation must be vertical or horizontal");
      }
    }

    /** `setGradientFollowsTransform`. */
    method SetGradientFollowsTransform(b: bool)
      modifies this
      ensures transformGradient == b && stops == old(stops) && orientation == old(orientation)
    {
      transformGradient := b;
    }
  }
}
