// PlotGeometry: how a figure of a given size is carved into the plot area,
// the four margin strips around it, and within each strip the tick area on
// the plot-facing edge followed by the tick-label area.
module PlotLayout {
  import opened Numbers
  import opened Geometry

  datatype PlotGeometry = PlotGeometry(
    marginT: Rect, marginB: Rect, marginL: Rect, marginR: Rect,
    xtickAreaT: Rect, xtickAreaB: Rect, ytickAreaL: Rect, ytickAreaR: Rect,
    xtickLabelAreaT: Rect, xtickLabelAreaB: Rect, ytickLabelAreaL: Rect, ytickLabelAreaR: Rect)

  /** The strip above the plot area, spanning the plot area's width. */
  function TopMargin(area: Rect, m: Border): (r: Rect)
    ensures r.x == m.left && r.y == 0 && r.h == m.top
    ensures r.Right() == area.Right() - m.right
  {
    Rect(m.left, 0, area.Right() - m.LeftAndRight(), m.top)
  }

  /** The strip below the plot area, ending at the bottom of the figure. */
  function BottomMargin(area: Rect, m: Border): (r: Rect)
    ensures r.x == m.left && r.h == m.bottom && r.Bottom() == area.Bottom()
    ensures r.Right() == area.Right() - m.right
  {
    Rect(m.left, area.Bottom() - m.bottom, area.Right() - m.LeftAndRight(), m.bottom)
  }

  /** The strip left of the plot area, spanning the plot area's height. */
  function LeftMargin(area: Rect, m: Border): (r: Rect)
    ensures r.x == 0 && r.y == m.top && r.w == m.left
    ensures r.Bottom() == area.Bottom() - m.bottom
  {
    Rect(0, m.top, m.left, area.Bottom() - m.TopAndBottom())
  }

  /** The strip right of the plot area, ending at the right of the figure. */
  function RightMargin(area: Rect, m: Border): (r: Rect)
    ensures r.w == m.right && r.Right() == area.Right() && r.y == m.top
    ensures r.Bottom() == area.Bottom() - m.bottom
  {
    Rect(area.Right() - m.right, m.top, m.right, area.Bottom() - m.TopAndBottom())
  }

  /** The plot area itself: what the margins leave of the figure, in the figure's own coordinates. */
  function PlotArea(area: Rect, m: Border): Rect
  {
    Rect(m.left, m.top, area.Right() - m.LeftAndRight(), area.Bottom() - m.TopAndBottom())
  }

  /**
   * The top and bottom strips share their horizontal extent, the left and
   * right strips their vertical extent, and the four strips touch the plot
   * area on its four sides.
   */
  lemma MarginStripsFramePlotArea(area: Rect, m: Border)
    ensures TopMargin(area, m).x == BottomMargin(area, m).x == PlotArea(area, m).x
    ensures TopMargin(area, m).w == BottomMargin(area, m).w == PlotArea(area, m).w
    ensures LeftMargin(area, m).y == RightMargin(area, m).y == PlotArea(area, m).y
    ensures LeftMargin(area, m).h == RightMargin(area, m).h == PlotArea(area, m).h
    ensures TopMargin(area, m).Bottom() == PlotArea(area, m).y
    ensures BottomMargin(area, m).y == PlotArea(area, m).Bottom()
    ensures LeftMargin(area, m).Right() == PlotArea(area, m).x
    ensures RightMargin(area, m).x == PlotArea(area, m).Right()
  {
  }

  /**
   * `PlotGeometry::compute`. The float sizes are converted to int by
   * truncation when passed to the Rectangle<int> members.
   */
  function Compute(area: Rect, m: Border, tickLabelWidth: real, tickLabelHeight: real,
                   tickLabelPadding: real, tickLength: real): (g: PlotGeometry)
    // Left strip, outside in: what remains of the margin, the label area, the tick area.
    ensures g.ytickAreaL.Right() == m.left && g.ytickAreaL.w == Min(Trunc(tickLength), m.left)
    ensures g.marginL.x == 0 && g.marginL.Right() == g.ytickLabelAreaL.x
    ensures g.ytickLabelAreaL.x + Min(Trunc(tickLabelWidth), m.left - g.ytickAreaL.w) == g.ytickAreaL.x
    ensures Min(Trunc(tickLabelWidth), m.left - g.ytickAreaL.w) >= Trunc(tickLabelPadding) ==>
              g.ytickLabelAreaL.Right() + Trunc(tickLabelPadding) == g.ytickAreaL.x
    // Right strip, mirrored.
    ensures g.ytickAreaR.x == area.Right() - m.right && g.ytickAreaR.w == Min(Trunc(tickLength), m.right)
    ensures g.ytickLabelAreaR.x == g.ytickAreaR.Right() + Trunc(tickLabelPadding)
    ensures g.marginR.Right() == area.Right()
    // Top strip: tick area at the bottom, label area above it.
    ensures g.xtickAreaT.Bottom() == m.top && g.xtickAreaT.h == Min(Trunc(tickLength), m.top)
    ensures g.marginT.y == 0 && g.marginT.Bottom() + Min(Trunc(tickLabelHeight), m.top - g.xtickAreaT.h) == g.xtickAreaT.y
    ensures g.xtickLabelAreaT.y == g.marginT.Bottom() + Trunc(tickLabelPadding)
    // Bottom strip, mirrored.
    ensures g.xtickAreaB.y == area.Bottom() - m.bottom && g.xtickAreaB.h == Min(Trunc(tickLength), m.bottom)
    ensures g.xtickLabelAreaB.y == g.xtickAreaB.Bottom()
    ensures g.xtickLabelAreaB.h >= 0 && g.marginB.Bottom() == area.Bottom()
    // Every piece of a strip keeps the strip's extent across it.
    ensures g.ytickAreaL.y == g.ytickLabelAreaL.y == g.marginL.y == m.top
    ensures g.ytickAreaR.h == g.ytickLabelAreaR.h == g.marginR.h == LeftMargin(area, m).h
    ensures g.xtickAreaT.x == g.xtickLabelAreaT.x == g.marginT.x == m.left
    ensures g.xtickAreaB.w == g.xtickLabelAreaB.w == g.marginB.w == TopMargin(area, m).w
  {
    var tl, tw, th, tp := Trunc(tickLength), Trunc(tickLabelWidth), Trunc(tickLabelHeight), Trunc(tickLabelPadding);
    var l1 := RemoveFromRight(LeftMargin(area, m), tl);
    var r1 := RemoveFromLeft(RightMargin(area, m), tl);
    var t1 := RemoveFromBottom(TopMargin(area, m), tl);
    var b1 := RemoveFromTop(BottomMargin(area, m), tl);
    var l2 := RemoveFromRight(l1.rest, tw);
    var r2 := RemoveFromLeft(r1.rest, tw);
    var t2 := RemoveFromBottom(t1.rest, th);
    var b2 := RemoveFromTop(b1.rest, th);
    PlotGeometry(
      t2.rest, b2.rest, l2.rest, r2.rest,
      t1.taken, b1.taken, l1.taken, r1.taken,
      WithTrimmedTop(t2.taken, tp), WithTrimmedBottom(b2.taken, tp),
      WithTrimmedRight(l2.taken, tp), WithTrimmedLeft(r2.taken, tp))
  }
}
