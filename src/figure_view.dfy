// FigureView: the component that draws one FigureModel. What is modelled
// here is the logic under the drawing: the tick boxes placed around pixel
// midpoints, the tick labels trimmed from C `%.8lf` text, the zoomed domain
// sent on a magnify or wheel gesture, the margin a plot-area resize proposes,
// the colour overrides taken from the model and the life cycle of the
// hardware rendering surface. Both the CounterPlot figure view and the older
// PatchView one are covered; where the two copies agree they share a member.
module FigureViews {
  import opened Wrappers
  import opened Geometry
  import opened Colours
  import opened Vars
  import opened FigureModels

  // ---------------------------------------------------------------------------
  // Tick boxes

  /** `makeRectanglesInColumn`: one box per midpoint, in order, spanning the column and centred on the midpoint. */
  method MakeRectanglesInColumn(column: Rect, midpoints: seq<real>, height: real) returns (boxes: seq<Box>)
    ensures |boxes| == |midpoints|
    ensures forall i :: 0 <= i < |boxes| ==>
      boxes[i].x == column.x as real && boxes[i].w == column.w as real &&
      boxes[i].h == height && boxes[i].y + boxes[i].h / 2.0 == midpoints[i]
  {
    boxes := [];
    for k := 0 to |midpoints|
      invariant |boxes| == k
      invariant forall i :: 0 <= i < k ==>
        boxes[i].x == column.x as real && boxes[i].w == column.w as real &&
        boxes[i].h == height && boxes[i].y + boxes[i].h / 2.0 == midpoints[i]
    {
      boxes := boxes + [Box(column.x as real, midpoints[k] - height * 0.5, column.w as real, height)];
    }
  }

  /** `makeRectanglesInRow`: one box per midpoint, in order, spanning the row and centred on the midpoint. */
  method MakeRectanglesInRow(row: Rect, midpoints: seq<real>, width: real) returns (boxes: seq<Box>)
    ensures |boxes| == |midpoints|
    ensures forall i :: 0 <= i < |boxes| ==>
      boxes[i].y == row.y as real && boxes[i].h == row.h as real &&
      boxes[i].w == width && boxes[i].x + boxes[i].w / 2.0 == midpoints[i]
  {
    boxes := [];
    for k := 0 to |midpoints|
      invariant |boxes| == k
      invariant forall i :: 0 <= i < k ==>
        boxes[i].y == row.y as real && boxes[i].h == row.h as real &&
        boxes[i].w == width && boxes[i].x + boxes[i].w / 2.0 == midpoints[i]
    {
      boxes := boxes + [Box(midpoints[k] - width * 0.5, row.y as real, width, row.h as real)];
    }
  }

  // ---------------------------------------------------------------------------
  // Tick labels

  predicate IsDigit(c: char) { '0' <= c <= '9' }

  predicate AllDigits(s: string) { forall i :: 0 <= i < |s| ==> IsDigit(s[i]) }

  /**
   * The text the C `%.8lf` conversion produces for a finite value (section
   * 7.21.6.1 of ISO C, the `f` conversion with precision 8): an optional
   * minus sign, at least one integer digit, the decimal point and exactly
   * eight fraction digits.
   */
  predicate IsFixed8(s: string)
  {
    exists k :: 0 <= k < |s| && s[k] == '.' && |s| == k + 9 &&
      AllDigits(s[k + 1..]) &&
      ((k >= 1 && AllDigits(s[..k])) || (k >= 2 && s[0] == '-' && AllDigits(s[1..k])))
  }

  /** The text with its trailing '0' characters removed. */
  function TrimZeros(s: string): (r: string)
    ensures |r| <= |s| && r == s[..|r|]
    ensures forall i :: |r| <= i < |s| ==> s[i] == '0'
    ensures r == [] || r[|r| - 1] != '0'
  {
    if |s| > 0 && s[|s| - 1] == '0' then TrimZeros(s[..|s| - 1]) else s
  }

  /** A tick label as `formatTicks` leaves it: trailing zeros removed, and a '0' put back after a bare '.'. */
  function Trimmed(s: string): string
  {
    var t := TrimZeros(s);
    if |t| > 0 && t[|t| - 1] == '.' then t + "0" else t
  }

  /** The label-trimming loop of `formatTicks`; the `%.8lf` text always holds a '.', which stops the loop. */
  method TrimLabel(text: string) returns (r: string)
    requires '.' in text
    ensures r == Trimmed(text)
  {
    r := text;
    while r[|r| - 1] == '0'
      invariant '.' in r && |r| <= |text| && r == text[..|r|]
      invariant TrimZeros(r) == TrimZeros(text)
      decreases |r|
    {
      var k :| 0 <= k < |r| && r[k] == '.';
      assert r[..|r| - 1][k] == '.';
      r := r[..|r| - 1];
    }
    if r[|r| - 1] == '.' {
      r := r + "0";
    }
  }

  /** Trimming never removes the '.' or anything before it, and only zeros after it. */
  lemma TrimmedKeepsIntegerPart(s: string, k: nat)
    requires k < |s| && s[k] == '.'
    ensures k + 1 < |Trimmed(s)| && Trimmed(s)[..k + 1] == s[..k + 1]
    ensures Trimmed(s) == TrimZeros(s) || Trimmed(s) == TrimZeros(s) + "0"
  {
    var t := TrimZeros(s);
    assert k < |t|;
    assert t[k] == '.';
    assert t[..k + 1] == s[..k + 1];
    if k + 1 == |t| {
      assert Trimmed(s) == t + "0";
      assert (t + "0")[..k + 1] == t[..k + 1];
    }
  }

  /** A label that is not bare: it does not end in '.', and ends in '0' only directly after the '.'. */
  predicate WellTrimmed(r: string)
  {
    |r| >= 2 && r[|r| - 1] != '.' && (r[|r| - 1] == '0' ==> r[|r| - 2] == '.')
  }

  /**
   * The shape of a trimmed label: it never ends in '.', and it ends in '0'
   * only directly after the '.'.
   */
  lemma TrimmedShape(s: string)
    requires '.' in s
    ensures WellTrimmed(Trimmed(s))
  {
    var k :| 0 <= k < |s| && s[k] == '.';
    TrimmedKeepsIntegerPart(s, k);
  }

  /** Trimming a trimmed label changes nothing. */
  lemma TrimmedIdempotent(s: string)
    requires '.' in s
    ensures Trimmed(Trimmed(s)) == Trimmed(s)
  {
    var k :| 0 <= k < |s| && s[k] == '.';
    TrimmedKeepsIntegerPart(s, k);
    var t := TrimZeros(s);
    if |t| > 0 && t[|t| - 1] == '.' {
      PointThenZero(t);
    } else {
      assert TrimZeros(t) == t;
    }
  }

  /** A text ending in '.' with one zero put back trims to itself. */
  lemma PointThenZero(t: string)
    requires |t| > 0 && t[|t| - 1] == '.'
    ensures Trimmed(t + "0") == t + "0"
  {
    var u := t + "0";
    assert u[..|u| - 1] == t;
    assert TrimZeros(u) == TrimZeros(t) == t;
  }

  /** Every `%.8lf` text holds a '.', so the trimming loop always stops. */
  lemma Fixed8HasPoint(s: string)
    requires IsFixed8(s)
    ensures '.' in s
  {
    var k :| 0 <= k < |s| && s[k] == '.' && |s| == k + 9;
  }

  /** The text of 1.5 under `%.8lf` trims to "1.5". */
  lemma TrimmedFraction()
    ensures Trimmed("1.50000000") == "1.5"
  {
    assert "1.50000000"[..9] == "1.5000000";
    assert "1.5000000"[..8] == "1.500000";
    assert "1.500000"[..7] == "1.50000";
    assert "1.50000"[..6] == "1.5000";
    assert "1.5000"[..5] == "1.500";
    assert "1.500"[..4] == "1.50";
    assert "1.50"[..3] == "1.5";
    assert TrimZeros("1.50000000") == "1.5";
  }

  /** The text of 2.0 under `%.8lf` trims to "2.0": one zero is put back after the point. */
  lemma TrimmedWhole()
    ensures Trimmed("2.00000000") == "2.0"
  {
    assert "2.00000000"[..9] == "2.0000000";
    assert "2.0000000"[..8] == "2.000000";
    assert "2.000000"[..7] == "2.00000";
    assert "2.00000"[..6] == "2.0000";
    assert "2.0000"[..5] == "2.000";
    assert "2.000"[..4] == "2.00";
    assert "2.00"[..3] == "2.0";
    assert "2.0"[..2] == "2.";
    assert TrimZeros("2.00000000") == "2.";
  }

  /** The zeros of the integer part stay: -10 trims to "-10.0". */
  lemma TrimmedNegative()
    ensures Trimmed("-10.00000000") == "-10.0"
  {
    assert "-10.00000000"[..11] == "-10.0000000";
    assert "-10.0000000"[..10] == "-10.000000";
    assert "-10.000000"[..9] == "-10.00000";
    assert "-10.00000"[..8] == "-10.0000";
    assert "-10.0000"[..7] == "-10.000";
    assert "-10.000"[..6] == "-10.00";
    assert "-10.00"[..5] == "-10.0";
    assert "-10.0"[..4] == "-10.";
    assert TrimZeros("-10.00000000") == "-10.";
  }

  // ---------------------------------------------------------------------------
  // Ticks

  /** `Ticker::Tick`: the normalised data coordinate, the pixel and the label. */
  datatype Tick = Tick(value: real, pixel: real, text: string)

  /** The tick `formatTicks` makes for location x; `render` stands for the `%.8lf` conversion. */
  function TickAt(x: real, l0: real, l1: real, p0: int, p1: int, render: real -> string): Tick
    requires l1 != l0
  {
    var value := (x - l0) / (l1 - l0);
    Tick(value, p0 as real + value * (p1 - p0) as real, Trimmed(render(x)))
  }

  lemma DivMul(a: real, d: real)
    requires d != 0.0
    ensures (a / d) * d == a
  {
  }

  /**
   * A tick's value is its location as a fraction of the limits, its pixel
   * the same fraction of the pixel range, and its text the trimmed
   * `%.8lf` text of its location.
   */
  lemma TickMeaning(x: real, l0: real, l1: real, p0: int, p1: int, render: real -> string)
    requires l1 != l0
    ensures var t := TickAt(x, l0, l1, p0, p1, render);
      l0 + t.value * (l1 - l0) == x &&
      t.pixel == p0 as real + t.value * (p1 - p0) as real &&
      t.text == Trimmed(render(x))
  {
    DivMul(x - l0, l1 - l0);
  }

  /** The tick at the first limit sits on the first pixel, the tick at the second limit on the second. */
  lemma TickEndpoints(l0: real, l1: real, p0: int, p1: int, render: real -> string)
    requires l1 != l0
    ensures TickAt(l0, l0, l1, p0, p1, render).pixel == p0 as real
    ensures TickAt(l1, l0, l1, p0, p1, render).pixel == p1 as real
  {
    var d := l1 - l0;
    DivMul(d, d);
    assert d / d == 1.0 by {
      assert (d / d - 1.0) * d == 0.0;
    }
    assert TickAt(l1, l0, l1, p0, p1, render).value == 1.0;
    assert TickAt(l0, l0, l1, p0, p1, render).value == 0.0 / d == 0.0;
  }

  /** Ticks keep the order of their locations along the axis, whichever way the pixels run. */
  lemma TickPixelsMonotone(x: real, y: real, l0: real, l1: real, p0: int, p1: int, render: real -> string)
    requires l0 < l1 && x < y
    ensures p0 < p1 ==> TickAt(x, l0, l1, p0, p1, render).pixel < TickAt(y, l0, l1, p0, p1, render).pixel
    ensures p1 < p0 ==> TickAt(x, l0, l1, p0, p1, render).pixel > TickAt(y, l0, l1, p0, p1, render).pixel
  {
    var a := TickAt(x, l0, l1, p0, p1, render);
    var b := TickAt(y, l0, l1, p0, p1, render);
    TickMeaning(x, l0, l1, p0, p1, render);
    TickMeaning(y, l0, l1, p0, p1, render);
    assert (b.value - a.value) * (l1 - l0) == y - x;
    assert b.value - a.value > 0.0;
    assert b.pixel - a.pixel == (b.value - a.value) * (p1 - p0) as real;
  }

  /**
   * `Ticker::formatTicks`: one tick per location, in order. Every label is
   * the rendered text trimmed, so it never ends in '.' and ends in '0' only
   * right after the '.'. The trimming loop needs a '.' to stop at, which
   * every `%.8lf` text holds (`Fixed8HasPoint`).
   */
  method FormatTicks(locations: seq<real>, l0: real, l1: real, p0: int, p1: int, render: real -> string)
    returns (ticks: seq<Tick>)
    requires l1 != l0
    requires forall i :: 0 <= i < |locations| ==> '.' in render(locations[i])
    ensures |ticks| == |locations|
    ensures forall i :: 0 <= i < |ticks| ==> ticks[i] == TickAt(locations[i], l0, l1, p0, p1, render)
    ensures forall i :: 0 <= i < |ticks| ==> WellTrimmed(ticks[i].text)
  {
    ticks := [];
    for k := 0 to |locations|
      invariant |ticks| == k
      invariant forall i :: 0 <= i < k ==> ticks[i] == TickAt(locations[i], l0, l1, p0, p1, render)
      invariant forall i :: 0 <= i < k ==> WellTrimmed(ticks[i].text)
    {
      var x := locations[k];
      var text := render(x);

      var value := (x - l0) / (l1 - l0);
      var trimmed := TrimLabel(text);
      TrimmedShape(text);
      ticks := ticks + [Tick(value, p0 as real + value * (p1 - p0) as real, trimmed)];
    }
  }

  /** `Ticker::getPixelLocations`: the ticks' pixels, same count and order. */
  method GetPixelLocations(ticks: seq<Tick>) returns (pixels: seq<real>)
    ensures |pixels| == |ticks|
    ensures forall i :: 0 <= i < |ticks| ==> pixels[i] == ticks[i].pixel
  {
    pixels := [];
    for k := 0 to |ticks|
      invariant |pixels| == k
      invariant forall i :: 0 <= i < k ==> pixels[i] == ticks[i].pixel
    {
      pixels := pixels + [ticks[k].pixel];
    }
  }

  // ---------------------------------------------------------------------------
  // Domain changes from gestures

  /** `toDomainX`: `jmap` from [0, width] onto [xmin, xmax]. */
  function ToDomainX(m: FigureModel, width: int, px: real): real
    requires width != 0
  {
    m.xmin + (m.xmax - m.xmin) * (px / width as real)
  }

  /** `toDomainY`: `jmap` from [height, 0] onto [ymin, ymax]; pixel rows grow downwards. */
  function ToDomainY(m: FigureModel, height: int, py: real): real
    requires height != 0
  {
    m.ymin + (m.ymax - m.ymin) * ((height as real - py) / height as real)
  }

  /**
   * `computeZoomedDomain` (and PatchView's `mouseMagnify`): the domain
   * scaled by 1/scale about the point under the mouse. Alt keeps the
   * x-limits exactly and Ctrl the y-limits.
   */
  function ZoomedDomain(m: FigureModel, width: int, height: int, px: real, py: real,
                        scale: real, alt: bool, ctrl: bool): (d: Domain)
    requires width != 0 && height != 0 && scale != 0.0
    ensures alt ==> d.x == m.xmin && d.Right() == m.xmax
    ensures ctrl ==> d.y == m.ymin && d.Bottom() == m.ymax
    ensures !alt ==> d.w == (m.xmax - m.xmin) / scale &&
                     d.x + d.w * (px / width as real) == ToDomainX(m, width, px)
    ensures !ctrl ==> d.h == (m.ymax - m.ymin) / scale &&
                      d.y + d.h * (1.0 - py / height as real) == ToDomainY(m, height, py)
  {
    var newdx := (m.xmax - m.xmin) / scale;
    var newdy := (m.ymax - m.ymin) / scale;
    var fixedx := ToDomainX(m, width, px);
    var fixedy := ToDomainY(m, height, py);
    var newx0 := if alt then m.xmin else fixedx - newdx * (0.0 + px / width as real);
    var newx1 := if alt then m.xmax else fixedx + newdx * (1.0 - px / width as real);
    var newy0 := if ctrl then m.ymin else fixedy - newdy * (1.0 - py / height as real);
    var newy1 := if ctrl then m.ymax else fixedy + newdy * (0.0 + py / height as real);
    LeftTopRightBottom(newx0, newy0, newx1, newy1)
  }

  /** A zoom by a factor of one gives back the model's own domain, wherever the mouse is. */
  lemma ZoomByOne(m: FigureModel, width: int, height: int, px: real, py: real, alt: bool, ctrl: bool)
    requires width != 0 && height != 0
    ensures ZoomedDomain(m, width, height, px, py, 1.0, alt, ctrl) == GetDomain(m)
  {
    var h := height as real;
    assert h / h == 1.0;
    assert (h - py) / h == h / h - py / h;
  }

  /**
   * The CounterPlot `mouseWheelMove`: with Ctrl the domain pans by the
   * wheel deltas in units of the domain's size; otherwise it zooms by
   * 1 + deltaY about the mouse position, keeping the x-limits when Alt is
   * held.
   */
  function WheelDomain(m: FigureModel, width: int, height: int, px: real, py: real,
                       deltaX: real, deltaY: real, alt: bool, ctrl: bool): (d: Domain)
    requires width != 0 && height != 0 && (ctrl || deltaY != -1.0)
    ensures ctrl ==> d == Domain(m.xmin - deltaX * (m.xmax - m.xmin), m.ymin + deltaY * (m.ymax - m.ymin),
                                 GetDomain(m).w, GetDomain(m).h)
    ensures !ctrl ==> d == ZoomedDomain(m, width, height, px, py, 1.0 + deltaY, alt, false)
  {
    if ctrl then
      var dom := GetDomain(m);
      Domain(dom.x - deltaX * (m.xmax - m.xmin), dom.y + deltaY * (m.ymax - m.ymin), dom.w, dom.h)
    else
      ZoomedDomain(m, width, height, px, py, 1.0 + deltaY, alt, false)
  }

  /**
   * Panning keeps the domain's size; a wheel with no delta changes nothing;
   * an Alt zoom keeps the x-limits and scales only the height.
   */
  lemma WheelKeepsSize(m: FigureModel, width: int, height: int, px: real, py: real,
                       deltaX: real, deltaY: real, alt: bool)
    requires width != 0 && height != 0
    ensures WheelDomain(m, width, height, px, py, deltaX, deltaY, alt, true).w == m.xmax - m.xmin
    ensures WheelDomain(m, width, height, px, py, deltaX, deltaY, alt, true).h == m.ymax - m.ymin
    ensures WheelDomain(m, width, height, px, py, 0.0, 0.0, alt, true) == GetDomain(m)
    ensures WheelDomain(m, width, height, px, py, deltaX, 0.0, alt, false) == GetDomain(m)
    ensures deltaY != -1.0 ==>
      var d := WheelDomain(m, width, height, px, py, deltaX, deltaY, true, false);
      d.x == m.xmin && d.Right() == m.xmax && d.h == (m.ymax - m.ymin) / (1.0 + deltaY)
  {
    ZoomByOne(m, width, height, px, py, alt, false);
  }

  // ---------------------------------------------------------------------------
  // Margins

  /** `BorderSize::subtractedFrom`. */
  function SubtractedFrom(b: Border, r: Rect): (s: Rect)
    ensures s.x == r.x + b.left && s.y == r.y + b.top
    ensures s.Right() == r.Right() - b.right && s.Bottom() == r.Bottom() - b.bottom
  {
    Rect(r.x + b.left, r.y + b.top, r.w - b.left - b.right, r.h - b.top - b.bottom)
  }

  /**
   * The margin that places the plot area at `bounds` inside a parent of the
   * given size: the CounterPlot `handleResizer` and PatchView's `computeMargin`.
   */
  function ProposedMargin(bounds: Rect, parentWidth: int, parentHeight: int): Border
  {
    Border(bounds.y, bounds.x, parentHeight - bounds.Bottom(), parentWidth - bounds.Right())
  }

  /** The proposed margin carves exactly the proposed bounds out of the parent, and a margin is recovered from what it carves. */
  lemma ProposedMarginRoundTrip(bounds: Rect, m: Border, parentWidth: int, parentHeight: int)
    ensures SubtractedFrom(ProposedMargin(bounds, parentWidth, parentHeight), Rect(0, 0, parentWidth, parentHeight)) == bounds
    ensures ProposedMargin(SubtractedFrom(m, Rect(0, 0, parentWidth, parentHeight)), parentWidth, parentHeight) == m
  {
  }

  /** PatchView's `sendSetMarginIfNeeded`: the margin sent to the listeners, if it differs from the model's. */
  function MarginToSend(bounds: Rect, parentWidth: int, parentHeight: int, current: Border): (sent: Option<Border>)
    ensures sent.Some? <==> ProposedMargin(bounds, parentWidth, parentHeight) != current
    ensures sent.Some? ==> SubtractedFrom(sent.value, Rect(0, 0, parentWidth, parentHeight)) == bounds
  {
    var m := ProposedMargin(bounds, parentWidth, parentHeight);
    ProposedMarginRoundTrip(bounds, current, parentWidth, parentHeight);
    if m != current then Some(m) else None
  }

  // ---------------------------------------------------------------------------
  // Colours

  /** The four colour ids of a figure view. */
  datatype ColourId = MarginColourId | BorderColourId | BackgroundColourId | GridlinesColourId

  /** The model's colour for an id; transparent white stands for "not set". */
  function ModelColour(m: FigureModel, id: ColourId): Colour
  {
    match id
    case MarginColourId => m.marginColour
    case BorderColourId => m.borderColour
    case BackgroundColourId => m.backgroundColour
    case GridlinesColourId => m.gridlinesColour
  }

  /** `findColour`: a component override if one is set, otherwise the look-and-feel's colour. */
  function FindColour(overrides: map<ColourId, Colour>, lookAndFeel: ColourId -> Colour, id: ColourId): Colour
  {
    if id in overrides then overrides[id] else lookAndFeel(id)
  }

  /** The overrides `setComponentColours` leaves: every model colour other than transparent white. */
  function OverridesOf(m: FigureModel): (o: map<ColourId, Colour>)
    ensures forall id :: id in o <==> ModelColour(m, id) != TransparentWhite
    ensures forall id :: id in o ==> o[id] == ModelColour(m, id)
  {
    map id | id in {MarginColourId, BorderColourId, BackgroundColourId, GridlinesColourId} &&
             ModelColour(m, id) != TransparentWhite :: ModelColour(m, id)
  }

  /** After `setComponentColours`, a figure draws the model's colour where one is set and the look-and-feel's elsewhere. */
  lemma ColoursFollowModel(m: FigureModel, lookAndFeel: ColourId -> Colour, id: ColourId)
    ensures ModelColour(m, id) != TransparentWhite ==> FindColour(OverridesOf(m), lookAndFeel, id) == ModelColour(m, id)
    ensures ModelColour(m, id) == TransparentWhite ==> FindColour(OverridesOf(m), lookAndFeel, id) == lookAndFeel(id)
  {
  }

  // ---------------------------------------------------------------------------
  // Surface

  /** Whether some artist of the content wants the hardware rendering surface. */
  predicate WantsSurface(content: seq<ArtistRef>)
  {
    exists k :: 0 <= k < |content| && content[k].wantsSurface
  }

  /** The popup-menu modes of a figure view. */
  datatype Modes = Modes(annotateGeometry: bool, allowPlotAreaResize: bool, paintAxisLabels: bool,
                         paintTickLabels: bool, paintMarginsAndBackground: bool)

  /** The modes a new figure view starts with. */
  const InitialModes := Modes(false, true, true, true, true)

  /**
   * The popup-menu callback of `mouseDown`: items 1 to 5 flip one mode
   * each (annotate geometry, plot area resizer, axis labels, tick labels,
   * backgrounds); any other code changes nothing.
   */
  function Toggled(modes: Modes, code: int): (r: Modes)
    ensures code !in {1, 2, 3, 4, 5} ==> r == modes
    ensures r.annotateGeometry == (modes.annotateGeometry != (code == 1))
    ensures r.allowPlotAreaResize == (modes.allowPlotAreaResize != (code == 2))
    ensures r.paintAxisLabels == (modes.paintAxisLabels != (code == 3))
    ensures r.paintTickLabels == (modes.paintTickLabels != (code == 4))
    ensures r.paintMarginsAndBackground == (modes.paintMarginsAndBackground != (code == 5))
  {
    if code == 1 then modes.(annotateGeometry := !modes.annotateGeometry)
    else if code == 2 then modes.(allowPlotAreaResize := !modes.allowPlotAreaResize)
    else if code == 3 then modes.(paintAxisLabels := !modes.paintAxisLabels)
    else if code == 4 then modes.(paintTickLabels := !modes.paintTickLabels)
    else if code == 5 then modes.(paintMarginsAndBackground := !modes.paintMarginsAndBackground)
    else modes
  }

  /** Choosing the same menu item twice restores the modes. */
  lemma ToggleTwice(modes: Modes, code: int)
    ensures Toggled(Toggled(modes, code), code) == modes
  {
  }

  /** What the child components show: the resizer and label visibility, label editability and label texts. */
  datatype Widgets = Widgets(resizerVisible: bool, xlabelVisible: bool, ylabelVisible: bool, titleVisible: bool,
                             xlabelEditable: bool, ylabelEditable: bool, titleEditable: bool,
                             xlabelText: string, ylabelText: string, titleText: string)

  /** `refreshModes`' postcondition: visibility and editability follow the model and the modes. */
  predicate ModesApplied(w: Widgets, m: FigureModel, modes: Modes)
  {
    w.resizerVisible == (m.canEditMargin && modes.allowPlotAreaResize) &&
    w.xlabelVisible == (m.xlabelShowing && modes.paintAxisLabels) &&
    w.ylabelVisible == (m.ylabelShowing && modes.paintAxisLabels) &&
    w.titleVisible == (m.titleShowing && modes.paintAxisLabels) &&
    w.xlabelEditable == m.canEditXlabel &&
    w.ylabelEditable == m.canEditYlabel &&
    w.titleEditable == m.canEditTitle
  }

  /** The CounterPlot `FigureView`, reduced to its model, modes, child widgets, colour overrides and surface. */
  class FigureView {
    var model: FigureModel
    var overrides: map<ColourId, Colour>
    var showing: bool
    /** Whether a rendering surface is installed, and the content it was last given. */
    var hasSurface: bool
    var surfaceContent: seq<ArtistRef>
    var modes: Modes
    var widgets: Widgets

    /** A surface is only installed while showing and wanted, and it always draws the current content. */
    predicate Valid()
      reads this
    {
      hasSurface == (showing && WantsSurface(model.content)) &&
      (hasSurface ==> surfaceContent == model.content)
    }

    predicate ModesRefreshed()
      reads this
    {
      ModesApplied(widgets, model, modes)
    }

    /** `FigureView (model)`: the initial modes, not yet showing, so no surface. */
    constructor(m: FigureModel)
      ensures Valid() && ModesRefreshed()
      ensures model == m && !showing && !hasSurface
      ensures overrides == OverridesOf(m) && modes == InitialModes
      ensures widgets.xlabelText == m.xlabel && widgets.ylabelText == m.ylabel && widgets.titleText == m.title
    {
      model := m;
      showing := false;
      hasSurface := false;
      surfaceContent := [];
      modes := InitialModes;
      overrides := OverridesOf(m);
      widgets := Widgets(m.canEditMargin, m.xlabelShowing, m.ylabelShowing, m.titleShowing,
                         m.canEditXlabel, m.canEditYlabel, m.canEditTitle, m.xlabel, m.ylabel, m.title);
    }

    /** `setComponentColours (*this, model)`: set each colour the model gives, remove each it leaves transparent white. */
    method SetComponentColours(m: FigureModel)
      modifies this
      ensures overrides == OverridesOf(m)
      ensures forall id :: id in overrides <==> ModelColour(m, id) != TransparentWhite
      ensures model == old(model) && showing == old(showing) && hasSurface == old(hasSurface)
      ensures surfaceContent == old(surfaceContent) && modes == old(modes) && widgets == old(widgets)
    {
      var o := overrides;
      o := if m.marginColour != TransparentWhite then o[MarginColourId := m.marginColour] else o - {MarginColourId};
      o := if m.borderColour != TransparentWhite then o[BorderColourId := m.borderColour] else o - {BorderColourId};
      o := if m.backgroundColour != TransparentWhite then o[BackgroundColourId := m.backgroundColour] else o - {BackgroundColourId};
      o := if m.gridlinesColour != TransparentWhite then o[GridlinesColourId := m.gridlinesColour] else o - {GridlinesColourId};
      assert forall id :: id in o <==> id in OverridesOf(m) by {
        forall id ensures id in o <==> id in OverridesOf(m) {
          match id
          case MarginColourId =>
          case BorderColourId =>
          case BackgroundColourId =>
          case GridlinesColourId =>
        }
      }
      overrides := o;
    }

    /** `refreshModes`: the label texts are kept. */
    method RefreshModes()
      modifies this
      ensures ModesRefreshed()
      ensures widgets.xlabelText == old(widgets.xlabelText) && widgets.ylabelText == old(widgets.ylabelText)
      ensures widgets.titleText == old(widgets.titleText)
      ensures model == old(model) && overrides == old(overrides) && showing == old(showing)
      ensures hasSurface == old(hasSurface) && surfaceContent == old(surfaceContent) && modes == old(modes)
    {
      widgets := widgets.(resizerVisible := model.canEditMargin && modes.allowPlotAreaResize,
                          xlabelVisible := model.xlabelShowing && modes.paintAxisLabels,
                          ylabelVisible := model.ylabelShowing && modes.paintAxisLabels,
                          titleVisible := model.titleShowing && modes.paintAxisLabels,
                          xlabelEditable := model.canEditXlabel,
                          ylabelEditable := model.canEditYlabel,
                          titleEditable := model.canEditTitle);
    }

    /** Whether some artist wants the surface: the search loop of `createOrDestroySurface`, stopping at the first. */
    method AnyArtistWantsSurface() returns (wants: bool)
      ensures wants == WantsSurface(model.content)
    {
      wants := false;
      var k := 0;
      while k < |model.content|
        invariant 0 <= k <= |model.content|
        invariant !wants ==> forall i :: 0 <= i < k ==> !model.content[i].wantsSurface
        invariant wants ==> WantsSurface(model.content)
        decreases |model.content| - k, if wants then 0 else 1
      {
        if model.content[k].wantsSurface {
          wants := true;
          break;
        }
        k := k + 1;
      }
    }

    /**
     * `createOrDestroySurface`: no surface while not showing; otherwise a
     * surface exists afterwards exactly when some artist wants one, and a
     * newly made surface is given the current content.
     */
    method CreateOrDestroySurface()
      modifies this
      ensures hasSurface == (showing && WantsSurface(model.content))
      ensures hasSurface && !old(hasSurface) ==> surfaceContent == model.content
      ensures hasSurface && old(hasSurface) ==> surfaceContent == old(surfaceContent)
      ensures model == old(model) && overrides == old(overrides) && showing == old(showing)
      ensures modes == old(modes) && widgets == old(widgets)
    {
      if !showing {
        hasSurface := false;
        return;
      }
      var wants := AnyArtistWantsSurface();
      if wants && !hasSurface {
        hasSurface := true;
        surfaceContent := model.content;
      } else if !wants && hasSurface {
        hasSurface := false;
      }
    }

    /** `setModel`: the new model's content goes to any surface, its labels and colours are applied, and the surface follows the content. */
    method SetModel(newModel: FigureModel)
      requires Valid()
      modifies this
      ensures model == newModel && showing == old(showing) && modes == old(modes)
      ensures Valid() && ModesRefreshed()
      ensures overrides == OverridesOf(newModel)
      ensures widgets.xlabelText == newModel.xlabel && widgets.ylabelText == newModel.ylabel
      ensures widgets.titleText == newModel.title
    {
      model := newModel;
      if hasSurface {
        surfaceContent := model.content;
      }
      widgets := widgets.(xlabelText := model.xlabel, ylabelText := model.ylabel, titleText := model.title);
      SetComponentColours(model);
      RefreshModes();
      CreateOrDestroySurface();
    }

    /** `visibilityChanged` and `parentHierarchyChanged`: the component's showing state changed, and the surface follows it. */
    method ShowingChanged(nowShowing: bool)
      requires Valid()
      modifies this
      ensures showing == nowShowing && model == old(model) && overrides == old(overrides)
      ensures Valid()
      ensures hasSurface == (nowShowing && WantsSurface(model.content))
      ensures hasSurface && !old(hasSurface) ==> surfaceContent == model.content
      ensures hasSurface && old(hasSurface) ==> surfaceContent == old(surfaceContent)
      ensures modes == old(modes) && widgets == old(widgets)
    {
      showing := nowShowing;
      CreateOrDestroySurface();
    }

    /** A chosen popup-menu item: the mode flips, and the widgets follow the new modes. */
    method MenuItemChosen(code: int)
      requires Valid()
      modifies this
      ensures model == old(model) && overrides == old(overrides) && modes == Toggled(old(modes), code)
      ensures Valid() && (code in {2, 3, 4, 5} ==> ModesRefreshed())
      ensures showing == old(showing) && hasSurface == old(hasSurface) && surfaceContent == old(surfaceContent)
      ensures widgets.xlabelText == old(widgets.xlabelText) && widgets.ylabelText == old(widgets.ylabelText) &&
        widgets.titleText == old(widgets.titleText)
      ensures code !in {2, 3, 4, 5} ==> widgets == old(widgets)
    {
      modes := Toggled(modes, code);
      if code in {2, 3, 4, 5} {
        RefreshModes();
      }
    }
  }

  // ---------------------------------------------------------------------------
  // The PatchView figure view

  /** The children of the PatchView figure view: the plot area, the three labels and any surface. */
  datatype Child = PlotAreaChild | TitleChild | XlabelChild | YlabelChild | SurfaceChild(surfaceId: nat)

  /** The children that are not rendering surfaces, in order. */
  function FixedChildren(cs: seq<Child>): (r: seq<Child>)
    ensures |r| <= |cs|
  {
    if cs == [] then []
    else if cs[|cs| - 1].SurfaceChild? then FixedChildren(cs[..|cs| - 1])
    else FixedChildren(cs[..|cs| - 1]) + [cs[|cs| - 1]]
  }

  /** The rendering-surface children, in order. */
  function SurfaceChildren(cs: seq<Child>): (r: seq<Child>)
    ensures forall i :: 0 <= i < |r| ==> r[i].SurfaceChild?
  {
    if cs == [] then []
    else if cs[|cs| - 1].SurfaceChild? then SurfaceChildren(cs[..|cs| - 1]) + [cs[|cs| - 1]]
    else SurfaceChildren(cs[..|cs| - 1])
  }

  /** `removeChildComponent`: the list without the given child. */
  function Without(cs: seq<Child>, c: Child): (r: seq<Child>)
    ensures c !in r
    ensures forall x :: x in r <==> x in cs && x != c
  {
    if cs == [] then []
    else if cs[|cs| - 1] == c then Without(cs[..|cs| - 1], c)
    else Without(cs[..|cs| - 1], c) + [cs[|cs| - 1]]
  }

  /** The plot area and the three labels are all fixed children. */
  lemma InitialChildren()
    ensures var cs := [PlotAreaChild, TitleChild, XlabelChild, YlabelChild];
      FixedChildren(cs) == cs && SurfaceChildren(cs) == []
  {
    FixedChildrenAppend([PlotAreaChild], TitleChild);
    FixedChildrenAppend([PlotAreaChild, TitleChild], XlabelChild);
    FixedChildrenAppend([PlotAreaChild, TitleChild, XlabelChild], YlabelChild);
    assert [PlotAreaChild, TitleChild, XlabelChild] + [YlabelChild] == [PlotAreaChild, TitleChild, XlabelChild, YlabelChild];
  }

  lemma {:induction false} FixedChildrenAppend(cs: seq<Child>, c: Child)
    ensures FixedChildren(cs + [c]) == if c.SurfaceChild? then FixedChildren(cs) else FixedChildren(cs) + [c]
    ensures SurfaceChildren(cs + [c]) == if c.SurfaceChild? then SurfaceChildren(cs) + [c] else SurfaceChildren(cs)
  {
    assert (cs + [c])[..|cs|] == cs;
  }

  /** Removing a surface child leaves the other children in order and drops that surface. */
  lemma {:induction false} WithoutSurface(cs: seq<Child>, id: nat)
    ensures FixedChildren(Without(cs, SurfaceChild(id))) == FixedChildren(cs)
    ensures SurfaceChildren(Without(cs, SurfaceChild(id))) == Without(SurfaceChildren(cs), SurfaceChild(id))
  {
    if cs != [] {
      var init := cs[..|cs| - 1];
      var last := cs[|cs| - 1];
      assert cs == init + [last];
      WithoutSurface(init, id);
      if last != SurfaceChild(id) {
        FixedChildrenAppend(Without(init, SurfaceChild(id)), last);
        if last.SurfaceChild? {
          var s := SurfaceChildren(init);
          assert (s + [last])[..|s|] == s;
        }
      } else {
        var s := SurfaceChildren(init);
        assert (s + [last])[..|s|] == s;
      }
    }
  }

  /** The PatchView `FigureView`: its model, its children and the installed surface. */
  class PatchFigureView {
    /**
     * PatchView's `FigureModel` lacks some of CounterPlot's fields (its
     * identifier and the editing flags among them); this view never changes
     * them, so they keep their default values.
     */
    var model: FigureModel
    var children: seq<Child>
    var surface: Option<nat>
    var surfaceContent: seq<ArtistRef>
    var xlabelText: string
    var ylabelText: string
    var titleText: string

    /** The four fixed children stay in place, and the only surface child is the installed surface. */
    predicate Valid()
      reads this
    {
      FixedChildren(children) == [PlotAreaChild, TitleChild, XlabelChild, YlabelChild] &&
      SurfaceChildren(children) == (if surface.Some? then [SurfaceChild(surface.value)] else [])
    }

    /** `FigureView()`: a default model, the plot area and the three labels, and no surface. */
    constructor()
      ensures Valid()
      ensures model == Default && surface == None
      ensures children == [PlotAreaChild, TitleChild, XlabelChild, YlabelChild]
      ensures xlabelText == Default.xlabel && ylabelText == Default.ylabel && titleText == Default.title
    {
      model := Default;
      var cs := [PlotAreaChild, TitleChild, XlabelChild, YlabelChild];
      InitialChildren();
      children := cs;
      surface := None;
      surfaceContent := [];
      xlabelText := Default.xlabel;
      ylabelText := Default.ylabel;
      titleText := Default.title;
    }

    /**
     * `setRenderingSurface`: any installed surface is removed from the
     * children first; the new one, which may be absent, is then installed
     * and given the current content.
     */
    method SetRenderingSurface(s: Option<nat>)
      requires Valid()
      modifies this
      ensures Valid()
      ensures surface == s
      ensures old(surface).Some? && s.Some? ==>
        children == Without(old(children), SurfaceChild(old(surface).value)) + [SurfaceChild(s.value)]
      ensures old(surface).Some? && s.None? ==> children == Without(old(children), SurfaceChild(old(surface).value))
      ensures old(surface).None? && s.Some? ==> children == old(children) + [SurfaceChild(s.value)]
      ensures old(surface).None? && s.None? ==> children == old(children)
      ensures s.Some? ==> surfaceContent == model.content
      ensures model == old(model)
    {
      if surface.Some? {
        WithoutSurface(children, surface.value);
        children := Without(children, SurfaceChild(surface.value));
      }
      surface := s;
      if s.Some? {
        FixedChildrenAppend(children, SurfaceChild(s.value));
        children := children + [SurfaceChild(s.value)];
        surfaceContent := model.content;
      }
    }

    /** `setModel`: the model is replaced, its content goes to any surface and its labels to the label children. */
    method SetModel(newModel: FigureModel)
      modifies this
      ensures model == newModel && children == old(children) && surface == old(surface)
      ensures surface.Some? ==> surfaceContent == newModel.content
      ensures xlabelText == newModel.xlabel && ylabelText == newModel.ylabel && titleText == newModel.title
    {
      model := newModel;
      if surface.Some? {
        surfaceContent := model.content;
      }
      xlabelText := model.xlabel;
      ylabelText := model.ylabel;
      titleText := model.title;
    }
  }
}
