// The colour map viewer: a line figure with the red, green and blue channels
// of a colour map, smoothed, over evenly spaced positions in [0, 1], above a
// horizontal colour bar of the map. There are two copies of it, the viewer in
// CounterPlot/Source/Viewers and the older view in CounterPlot/Source/Views;
// they differ in the array types their helpers use, in which channel
// extractor they call, and in how the positions are made: the older copy has
// its own linspace (not a number throughout when there is one stop), the
// viewer calls the `nd::linspace` library, which is not part of this model
// and is given to the viewer as a function.
module ColourMapViews {
  import opened Wrappers
  import opened Geometry
  import opened Colours
  import opened FigureModels
  import Vars
  import Text
  import ColourMaps

  // ---------------------------------------------------------------------
  // linspace

  /** A double: a finite value, or the NaN that 0.0 / 0.0 gives. */
  datatype Double = Finite(v: real) | NaN

  /** Entry `n` of `linspace (x0, x1, num)`: x0 + (x1 - x0) * n / (num - 1), which divides 0 by 0 when num is 1. */
  function LinspaceAt(x0: real, x1: real, num: int, n: nat): Double
  {
    if num == 1 then NaN else Finite(x0 + (x1 - x0) * (n as real) / ((num - 1) as real))
  }

  /** `linspace`: `num` entries, none for a count below 1. */
  method Linspace(x0: real, x1: real, num: int) returns (res: seq<Double>)
    ensures |res| == if num < 0 then 0 else num
    ensures forall n :: 0 <= n < |res| ==> res[n] == LinspaceAt(x0, x1, num, n)
  {
    res := [];
    var n := 0;
    while n < num
      invariant 0 <= n && (n <= num || n == 0) && |res| == n
      invariant forall k :: 0 <= k < n ==> res[k] == LinspaceAt(x0, x1, num, k)
    {
      if num == 1 {
        res := res + [NaN];
      } else {
        res := res + [Finite(x0 + (x1 - x0) * (n as real) / ((num - 1) as real))];
      }
      n := n + 1;
    }
  }

  /**
   * With two or more entries the first is x0, the last is x1, and the
   * entries rise (or fall) in equal steps between them.
   */
  lemma LinspaceSpans(x0: real, x1: real, num: int, n: nat)
    requires num >= 2 && n + 1 < num
    ensures LinspaceAt(x0, x1, num, 0) == Finite(x0)
    ensures LinspaceAt(x0, x1, num, num - 1) == Finite(x1)
    ensures LinspaceAt(x0, x1, num, n + 1).v - LinspaceAt(x0, x1, num, n).v == (x1 - x0) / ((num - 1) as real)
    ensures x0 <= x1 ==> LinspaceAt(x0, x1, num, n).v <= LinspaceAt(x0, x1, num, n + 1).v
  {
    var d := (num - 1) as real;
    assert (x1 - x0) * d / d == x1 - x0;
    assert (x1 - x0) * ((n + 1) as real) / d - (x1 - x0) * (n as real) / d == (x1 - x0) / d;
    if x0 <= x1 {
      assert (x1 - x0) / d >= 0.0;
    }
  }

  // ---------------------------------------------------------------------
  // smooth

  /** The 1-2-3-2-1 stencil over 9 at position `k` of `s`. */
  function Stencil(s: seq<real>, k: int): real
    requires 2 <= k < |s| - 2
  {
    (s[k - 2] + 2.0 * s[k - 1] + 3.0 * s[k] + 2.0 * s[k + 1] + s[k + 2]) / 9.0
  }

  /** The copy after positions 2 .. n - 1 have been overwritten, in order, each from the copy as it then stands. */
  function SmoothedThrough(x: seq<real>, n: int): (r: seq<real>)
    requires 2 <= n && (n <= |x| - 2 || n == 2)
    ensures |r| == |x|
    decreases n
  {
    if n == 2 then x
    else
      var s := SmoothedThrough(x, n - 1);
      s[n - 1 := Stencil(s, n - 1)]
  }

  /** What `smooth` returns. */
  function Smoothed(x: seq<real>): (r: seq<real>)
    ensures |r| == |x|
  {
    if |x| < 5 then x else SmoothedThrough(x, |x| - 2)
  }

  /**
   * `smooth`: a copy of the array, whose positions 2 to size - 3 are each
   * overwritten in place by the stencil.
   */
  method Smooth(x: seq<real>) returns (res: seq<real>)
    ensures res == Smoothed(x)
  {
    var a := new real[|x|](i requires 0 <= i < |x| => x[i]);
    assert a[..] == x;
    var n := 2;
    while n < |x| - 2
      invariant 2 <= n && (n <= |x| - 2 || n == 2)
      invariant a[..] == SmoothedThrough(x, n)
    {
      var p := a[n - 2];
      var q := a[n - 1];
      var c := a[n];
      var d := a[n + 1];
      var e := a[n + 2];
      a[n] := (p + 2.0 * q + 3.0 * c + 2.0 * d + e) / 9.0;
      n := n + 1;
    }
    res := a[..];
  }

  /** Positions not yet overwritten still hold the input's values. */
  lemma {:induction false} SmoothedThroughKeepsRest(x: seq<real>, n: int)
    requires 2 <= n && (n <= |x| - 2 || n == 2)
    ensures var r := SmoothedThrough(x, n);
      forall k :: 0 <= k < |x| && (k < 2 || k >= n) ==> r[k] == x[k]
    decreases n
  {
    if n > 2 {
      SmoothedThroughKeepsRest(x, n - 1);
    }
  }

  /** The stencil at `k` over `r` for the entries to its left and over `x` for the entry itself and those to its right. */
  function InPlaceStencil(r: seq<real>, x: seq<real>, k: int): real
    requires 2 <= k < |x| - 2 && |r| == |x|
  {
    (r[k - 2] + 2.0 * r[k - 1] + 3.0 * x[k] + 2.0 * x[k + 1] + x[k + 2]) / 9.0
  }

  /** Each overwritten position holds the stencil over its smoothed left neighbours and its given right ones. */
  lemma {:induction false} SmoothedThroughStencil(x: seq<real>, n: int)
    requires 2 <= n && (n <= |x| - 2 || n == 2)
    ensures var r := SmoothedThrough(x, n);
      forall k :: 2 <= k < n ==> r[k] == InPlaceStencil(r, x, k)
    decreases n
  {
    if n > 2 {
      SmoothedThroughStencil(x, n - 1);
      SmoothedThroughKeepsRest(x, n - 1);
      var s := SmoothedThrough(x, n - 1);
      var r := SmoothedThrough(x, n);
      assert r == s[n - 1 := Stencil(s, n - 1)];
      assert r[n - 1] == InPlaceStencil(r, x, n - 1);
      forall k | 2 <= k < n - 1
        ensures r[k] == InPlaceStencil(r, x, k)
      {
        assert r[k] == s[k] == InPlaceStencil(s, x, k);
      }
    }
  }

  /**
   * `smooth` keeps the length and the first two and last two entries (and
   * all of a shorter array); each other entry is the stencil over the
   * entries to its left as already smoothed and the entries to its right as
   * given.
   */
  lemma SmoothedShape(x: seq<real>)
    ensures |x| < 5 ==> Smoothed(x) == x
    ensures var r := Smoothed(x);
      (forall k :: 0 <= k < |x| && (k < 2 || k >= |x| - 2) ==> r[k] == x[k]) &&
      (forall k :: 2 <= k < |x| - 2 ==> r[k] == InPlaceStencil(r, x, k))
  {
    if |x| >= 5 {
      SmoothedThroughKeepsRest(x, |x| - 2);
      SmoothedThroughStencil(x, |x| - 2);
    }
  }

  /** A constant channel stays constant: the stencil's weights add up to 9. */
  lemma {:induction false} SmoothedThroughKeepsConstant(x: seq<real>, n: int, c: real)
    requires 2 <= n && (n <= |x| - 2 || n == 2)
    requires forall k :: 0 <= k < |x| ==> x[k] == c
    ensures forall k :: 0 <= k < |x| ==> SmoothedThrough(x, n)[k] == c
    decreases n
  {
    if n > 2 {
      SmoothedThroughKeepsConstant(x, n - 1, c);
    }
  }

  lemma SmoothedKeepsConstant(x: seq<real>, c: real)
    requires forall k :: 0 <= k < |x| ==> x[k] == c
    ensures Smoothed(x) == x
  {
    if |x| >= 5 {
      SmoothedThroughKeepsConstant(x, |x| - 2, c);
    }
  }

  // ---------------------------------------------------------------------
  // The viewer

  /** JUCE's `lightblue`, and its `darker()`: each channel scaled by 1 / 1.4 and truncated. */
  const LightBlue: Colour := Colour(173, 216, 230, 255)
  const DarkerLightBlue: Colour := Colour(123, 154, 164, 255)

  const LineModel: FigureModel := Default.(
    titleShowing := true, xlabelShowing := false, ylabelShowing := false,
    canEditMargin := true, canEditXlabel := false, canEditYlabel := false, canEditTitle := false,
    margin := Default.margin.WithBottom(40),
    xtickCount := 10, ytickCount := 5,
    xmin := -0.1, xmax := 1.1, ymin := -0.1, ymax := 1.1,
    backgroundColour := LightBlue, gridlinesColour := DarkerLightBlue)

  const CmapModel: FigureModel := Default.(
    titleShowing := false, xlabelShowing := false, ylabelShowing := false,
    canEditMargin := false, canEditXlabel := false, canEditYlabel := false, canEditTitle := false,
    margin := Default.margin.WithTop(0),
    xtickCount := 10, ytickCount := 0,
    xmin := -0.1, xmax := 1.1, ymin := -0.1, ymax := 1.1,
    gridlinesColour := TransparentBlack)

  /** A default line plot with its colour, a width of 2 and these points. */
  datatype ChannelLine = ChannelLine(x: seq<Double>, y: seq<real>, lineColour: Colour, lineWidth: real)

  /** The gradient artist (horizontal, following the transform) and the three line artists, as figure content. */
  const GradientRef: Vars.ArtistRef := Vars.ArtistRef(3, false)
  const LineRefs: seq<Vars.ArtistRef> := [Vars.ArtistRef(4, false), Vars.ArtistRef(5, false), Vars.ArtistRef(6, false)]

  /** The two figures. */
  datatype Figure = LineFigure | CmapFigure

  /** The values one channel of the stops takes, in [0, 1]. */
  function ChannelOf(stops: seq<Colour>, channel: char): (r: seq<real>)
    requires channel in {'r', 'g', 'b'}
    ensures |r| == |stops|
    ensures forall n :: 0 <= n < |r| ==> 0.0 <= r[n] <= 1.0
  {
    seq(|stops|, n requires 0 <= n < |stops| => ColourMaps.Channel(stops[n], channel).value)
  }

  /** Every value as a finite double. */
  function Finites(s: seq<real>): (r: seq<Double>)
    ensures |r| == |s| && forall n :: 0 <= n < |s| ==> r[n] == Finite(s[n])
  {
    seq(|s|, n requires 0 <= n < |s| => Finite(s[n]))
  }

  /** `isInterestedInFile`: colour map tables. */
  predicate IsInterestedInFile(file: string)
  {
    Text.HasFileExtension(file, ".cmap")
  }

  class ColourMapViewer {
    /** True for the older copy in CounterPlot/Source/Views, whose channel extractor appends. */
    const older: bool
    /** `nd::linspace (x0, x1, num)`, which the newer copy calls for the positions. */
    const ndLinspace: (real, real, int) -> seq<real>
    var lineModel: FigureModel
    var cmapModel: FigureModel
    /** The models last handed to the two figure views. */
    var lineShown: FigureModel
    var cmapShown: FigureModel
    /** `mapping.stops`. */
    var stops: seq<Colour>
    /** The red, green and blue lines and the gradient's stops last built. */
    var lines: seq<ChannelLine>
    var gradient: Option<seq<Colour>>

    /** The constructor: both models initialised and shown; no stops, so no content. */
    constructor (older: bool, ndLinspace: (real, real, int) -> seq<real>)
      ensures this.older == older && this.ndLinspace == ndLinspace
      ensures lineModel == LineModel && cmapModel == CmapModel && lineShown == LineModel && cmapShown == CmapModel
      ensures stops == [] && lines == [] && gradient == None
    {
      this.older := older;
      this.ndLinspace := ndLinspace;
      lineModel := LineModel;
      cmapModel := CmapModel;
      stops := [];
      lines := [];
      gradient := None;
      lineShown := LineModel;
      cmapShown := CmapModel;
    }

    /**
     * One channel's line: x is the older copy's linspace over [0, 1] or, in
     * the viewer, `nd::linspace`'s, with one entry per stop; y is the
     * smoothed channel.
     */
    method ChannelLineOf(channel: char, colour: Colour) returns (line: ChannelLine)
      requires channel in {'r', 'g', 'b'}
      ensures line.lineColour == colour && line.lineWidth == 2.0
      ensures line.y == Smoothed(ChannelOf(stops, channel))
      ensures older ==> |line.x| == |stops| && forall n :: 0 <= n < |stops| ==> line.x[n] == LinspaceAt(0.0, 1.0, |stops|, n)
      ensures !older ==> line.x == Finites(ndLinspace(0.0, 1.0, |stops|))
    {
      var x, values;
      if older {
        x := Linspace(0.0, 1.0, |stops|);
        values := ColourMaps.ExtractChannelAppending(stops, channel);
      } else {
        x := Finites(ndLinspace(0.0, 1.0, |stops|));
        values := ColourMaps.ExtractChannelAsDouble(stops, channel);
      }
      assert values == ChannelOf(stops, channel);
      var y := Smooth(values);
      line := ChannelLine(x, y, colour, 2.0);
    }

    /**
     * `updateFigures`: with stops, the colour bar shows their gradient and the
     * line figure the three channel lines; either way both models go to the
     * figures.
     */
    method UpdateFigures()
      modifies this`lineModel, this`cmapModel, this`lineShown, this`cmapShown, this`lines, this`gradient
      ensures old(stops) == [] ==>
        lineModel == old(lineModel) && cmapModel == old(cmapModel) && lines == old(lines) && gradient == old(gradient)
      ensures old(stops) != [] ==>
        gradient == Some(stops) &&
        cmapModel == old(cmapModel).(content := [GradientRef]) &&
        lineModel == old(lineModel).(content := LineRefs) &&
        |lines| == 3 &&
        lines[0].lineColour == Red && lines[1].lineColour == Green && lines[2].lineColour == Blue &&
        lines[0].y == Smoothed(ChannelOf(stops, 'r')) &&
        lines[1].y == Smoothed(ChannelOf(stops, 'g')) &&
        lines[2].y == Smoothed(ChannelOf(stops, 'b'))
      ensures lineShown == lineModel && cmapShown == cmapModel
    {
      if stops != [] {
        var lineR := ChannelLineOf('r', Red);
        var lineG := ChannelLineOf('g', Green);
        var lineB := ChannelLineOf('b', Blue);
        gradient := Some(stops);
        cmapModel := cmapModel.(content := [GradientRef]);
        lineModel := lineModel.(content := LineRefs);
        lines := [lineR, lineG, lineB];
      }
      cmapShown := cmapModel;
      lineShown := lineModel;
    }

    /**
     * `loadFile`: the line figure is titled with the file name, then the
     * table is read (reading the file is not part of this model: `text` is
     * its contents). A malformed table throws out of `loadFile`, leaving the
     * title set and the stops and figures as they were.
     */
    method LoadFile(file: string, text: string) returns (r: Result<seq<Colour>>)
      modifies this`lineModel, this`cmapModel, this`lineShown, this`cmapShown, this`lines, this`gradient, this`stops
      ensures r == ColourMaps.ParseRGBTable(text)
      ensures r.Err? ==>
        lineModel == old(lineModel).(title := Text.FileName(file)) && stops == old(stops) &&
        cmapModel == old(cmapModel) && lines == old(lines) && gradient == old(gradient) &&
        lineShown == old(lineShown) && cmapShown == old(cmapShown)
      ensures r.Ok? ==>
        stops == r.value && lineModel.title == Text.FileName(file) &&
        lineShown == lineModel && cmapShown == cmapModel &&
        (stops != [] ==> gradient == Some(stops) && |lines| == 3)
    {
      lineModel := lineModel.(title := Text.FileName(file));
      r := ColourMaps.ColoursFromRGBTable(text);
      if r.Err? {
        return;
      }
      stops := r.value;
      UpdateFigures();
    }

    /**
     * `figureViewSetMargin`: the edited figure takes the margin and the other
     * its left and right.
     */
    method FigureViewSetMargin(figure: Figure, margin: Border)
      modifies this`lineModel, this`cmapModel, this`lineShown, this`cmapShown, this`lines, this`gradient
      ensures figure == CmapFigure ==>
        cmapModel.margin == margin &&
        lineModel.margin == old(lineModel).margin.WithLeft(margin.left).WithRight(margin.right)
      ensures figure == LineFigure ==>
        lineModel.margin == margin &&
        cmapModel.margin == old(cmapModel).margin.WithLeft(margin.left).WithRight(margin.right)
      ensures lineShown == lineModel && cmapShown == cmapModel
    {
      if figure == CmapFigure {
        cmapModel := cmapModel.(margin := margin);
        lineModel := lineModel.(margin := lineModel.margin.WithLeft(margin.left).WithRight(margin.right));
        UpdateFigures();
        return;
      }
      if figure == LineFigure {
        lineModel := lineModel.(margin := margin);
        cmapModel := cmapModel.(margin := cmapModel.margin.WithLeft(margin.left).WithRight(margin.right));
        UpdateFigures();
        return;
      }
    }

    /** `figureViewSetDomain`: whichever figure was edited, both take the domain. */
    method FigureViewSetDomain(figure: Figure, domain: Domain)
      modifies this`lineModel, this`cmapModel, this`lineShown, this`cmapShown, this`lines, this`gradient
      ensures GetDomain(lineModel) == domain && GetDomain(cmapModel) == domain
      ensures lineModel.margin == old(lineModel).margin && cmapModel.margin == old(cmapModel).margin
      ensures lineShown == lineModel && cmapShown == cmapModel
    {
      cmapModel := SetDomain(cmapModel, domain);
      lineModel := SetDomain(lineModel, domain);
      DomainRoundTrip(cmapModel, domain);
      UpdateFigures();
    }
  }
}
