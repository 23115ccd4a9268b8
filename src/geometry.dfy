// Integer rectangles and border sizes with the semantics of JUCE's
// Rectangle<int> and BorderSize<int>, and the double-valued rectangles used
// for plot domains.
module Geometry {
  import opened Numbers

  /** A rectangle: position (x, y), width w and height h. Widths are not clamped. */
  datatype Rect = Rect(x: int, y: int, w: int, h: int)
  {
    function Right(): int { x + w }
    function Bottom(): int { y + h }

    /** Point containment: the left and top edges are inside, right and bottom outside. */
    predicate Contains(px: int, py: int)
    {
      x <= px < x + w && y <= py < y + h
    }

    function Translated(dx: int, dy: int): Rect
    {
      Rect(x + dx, y + dy, w, h)
    }

    function WithWidth(nw: int): (r: Rect)
      ensures r.x == x && r.y == y && r.h == h && r.w == Max(0, nw)
    {
      Rect(x, y, Max(0, nw), h)
    }
  }

  /** A pair of rectangles: the strip removed and what remains of the original. */
  datatype Split = Split(taken: Rect, rest: Rect)

  /** `removeFromLeft (a)`: at most `a` columns are taken off the left edge. */
  function RemoveFromLeft(r: Rect, a: int): (s: Split)
    ensures s.taken == Rect(r.x, r.y, Min(a, r.w), r.h)
    ensures s.rest.x == s.taken.Right() && s.rest.Right() == r.Right()
    ensures s.rest.y == r.y && s.rest.h == r.h
  {
    var t := Rect(r.x, r.y, Min(a, r.w), r.h);
    Split(t, Rect(r.x + t.w, r.y, r.w - t.w, r.h))
  }

  /** `removeFromRight (a)`: at most `a` columns are taken off the right edge. */
  function RemoveFromRight(r: Rect, a: int): (s: Split)
    ensures s.taken.w == Min(a, r.w) && s.taken.Right() == r.Right()
    ensures s.taken.y == r.y && s.taken.h == r.h
    ensures s.rest == Rect(r.x, r.y, r.w - Min(a, r.w), r.h)
    ensures s.rest.Right() == s.taken.x
  {
    var m := Min(a, r.w);
    Split(Rect(r.x + r.w - m, r.y, m, r.h), Rect(r.x, r.y, r.w - m, r.h))
  }

  /** `removeFromTop (a)`: at most `a` rows are taken off the top edge. */
  function RemoveFromTop(r: Rect, a: int): (s: Split)
    ensures s.taken == Rect(r.x, r.y, r.w, Min(a, r.h))
    ensures s.rest.y == s.taken.Bottom() && s.rest.Bottom() == r.Bottom()
    ensures s.rest.x == r.x && s.rest.w == r.w
  {
    var t := Rect(r.x, r.y, r.w, Min(a, r.h));
    Split(t, Rect(r.x, r.y + t.h, r.w, r.h - t.h))
  }

  /** `removeFromBottom (a)`: at most `a` rows are taken off the bottom edge. */
  function RemoveFromBottom(r: Rect, a: int): (s: Split)
    ensures s.taken.h == Min(a, r.h) && s.taken.Bottom() == r.Bottom()
    ensures s.taken.x == r.x && s.taken.w == r.w
    ensures s.rest == Rect(r.x, r.y, r.w, r.h - Min(a, r.h))
    ensures s.rest.Bottom() == s.taken.y
  {
    var m := Min(a, r.h);
    Split(Rect(r.x, r.y + r.h - m, r.w, m), Rect(r.x, r.y, r.w, r.h - m))
  }

  /** `withTrimmedLeft (a)`, i.e. `withLeft (x + a)`: the right edge stays unless the width would go negative. */
  function WithTrimmedLeft(r: Rect, a: int): (t: Rect)
    ensures t.x == r.x + a && t.y == r.y && t.h == r.h
    ensures t.w >= 0 && (r.w - a >= 0 ==> t.Right() == r.Right())
  {
    Rect(r.x + a, r.y, Max(0, r.Right() - (r.x + a)), r.h)
  }

  /** `withTrimmedRight (a)`, i.e. `withWidth (w - a)`. */
  function WithTrimmedRight(r: Rect, a: int): (t: Rect)
    ensures t.x == r.x && t.y == r.y && t.h == r.h
    ensures t.w >= 0 && (r.w - a >= 0 ==> t.Right() == r.Right() - a)
  {
    r.WithWidth(r.w - a)
  }

  /** `withTrimmedTop (a)`, i.e. `withTop (y + a)`: the bottom edge stays unless the height would go negative. */
  function WithTrimmedTop(r: Rect, a: int): (t: Rect)
    ensures t.y == r.y + a && t.x == r.x && t.w == r.w
    ensures t.h >= 0 && (r.h - a >= 0 ==> t.Bottom() == r.Bottom())
  {
    Rect(r.x, r.y + a, r.w, Max(0, r.Bottom() - (r.y + a)))
  }

  /** `withTrimmedBottom (a)`, i.e. `withHeight (h - a)`. */
  function WithTrimmedBottom(r: Rect, a: int): (t: Rect)
    ensures t.x == r.x && t.y == r.y && t.w == r.w
    ensures t.h >= 0 && (r.h - a >= 0 ==> t.Bottom() == r.Bottom() - a)
  {
    Rect(r.x, r.y, r.w, Max(0, r.h - a))
  }

  /** `setLeft (l)`: moves the left edge, keeping the right edge if the width stays non-negative. */
  function SetLeft(r: Rect, l: int): (t: Rect)
    ensures t.x == l && t.y == r.y && t.h == r.h
    ensures l <= r.Right() ==> t.Right() == r.Right()
    ensures t.w >= 0
  {
    Rect(l, r.y, Max(0, r.Right() - l), r.h)
  }

  /** `setRight (rt)`: moves the right edge, pulling the left edge along if it would be passed. */
  function SetRight(r: Rect, rt: int): (t: Rect)
    ensures t.Right() == rt && t.y == r.y && t.h == r.h
    ensures t.x == Min(r.x, rt) && t.w >= 0
  {
    var nx := Min(r.x, rt);
    Rect(nx, r.y, rt - nx, r.h)
  }

  /** `setTop (tp)`: moves the top edge, keeping the bottom edge if the height stays non-negative. */
  function SetTop(r: Rect, tp: int): (t: Rect)
    ensures t.y == tp && t.x == r.x && t.w == r.w
    ensures tp <= r.Bottom() ==> t.Bottom() == r.Bottom()
    ensures t.h >= 0
  {
    Rect(r.x, tp, r.w, Max(0, r.Bottom() - tp))
  }

  /** `setBottom (b)`: moves the bottom edge, pulling the top edge along if it would be passed. */
  function SetBottom(r: Rect, b: int): (t: Rect)
    ensures t.Bottom() == b && t.x == r.x && t.w == r.w
    ensures t.y == Min(r.y, b) && t.h >= 0
  {
    var ny := Min(r.y, b);
    Rect(r.x, ny, r.w, b - ny)
  }

  /** `BorderSize<int> (top, left, bottom, right)`. */
  datatype Border = Border(top: int, left: int, bottom: int, right: int)
  {
    function LeftAndRight(): int { left + right }
    function TopAndBottom(): int { top + bottom }
    function WithTop(v: int): Border { this.(top := v) }
    function WithLeft(v: int): Border { this.(left := v) }
    function WithBottom(v: int): Border { this.(bottom := v) }
    function WithRight(v: int): Border { this.(right := v) }
  }

  /** A Point<float>. */
  datatype Point = Point(x: real, y: real)

  /** A Rectangle<float>. */
  datatype Box = Box(x: real, y: real, w: real, h: real)
  {
    /** The box's centre. */
    function Centre(): Point { Point(x + w / 2.0, y + h / 2.0) }
  }

  /** A Rectangle<double>: the plot domain (x, y, width, height). */
  datatype Domain = Domain(x: real, y: real, w: real, h: real)
  {
    function Right(): real { x + w }
    function Bottom(): real { y + h }
  }

  /** `Rectangle<double>::leftTopRightBottom (l, t, r, b)`. */
  function LeftTopRightBottom(l: real, t: real, r: real, b: real): (d: Domain)
    ensures d.x == l && d.y == t && d.Right() == r && d.Bottom() == b
  {
    Domain(l, t, r - l, b - t)
  }
}
