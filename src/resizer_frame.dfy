// The invisible frame around a figure that lets the user drag its edges and
// corners: nine zones laid out around the border, the zone under a point,
// and the bounds a drag produces.
module ResizerFrames {
  import opened Wrappers
  import opened Numbers
  import opened Geometry

  /** The frame's border thickness (`int width = 8`). */
  const Width := 8

  /** The zone of the middle, and of "no edge": dragging it changes nothing. */
  const Middle := 4

  /**
   * `resized`: rows of `width` off the top and bottom, then in each row a
   * `width` square or strip off the left and right. Zones are numbered
   * row by row: 0 1 2 / 3 4 5 / 6 7 8.
   */
  function Zones(area: Rect, width: int): (z: seq<Rect>)
    ensures |z| == 9
  {
    var top := RemoveFromTop(area, width);
    var bottom := RemoveFromBottom(top.rest, width);
    var topL := RemoveFromLeft(top.taken, width);
    var topR := RemoveFromRight(topL.rest, width);
    var midL := RemoveFromLeft(bottom.rest, width);
    var midR := RemoveFromRight(midL.rest, width);
    var botL := RemoveFromLeft(bottom.taken, width);
    var botR := RemoveFromRight(botL.rest, width);
    [topL.taken, topR.rest, topR.taken, midL.taken, midR.rest, midR.taken, botL.taken, botR.rest, botR.taken]
  }

  /** The nine zones of a frame (0, 0, w, h) at least two widths wide and high. */
  function FrameZones(w: int, h: int, width: int): (z: seq<Rect>)
    ensures |z| == 9
  {
    [Rect(0, 0, width, width), Rect(width, 0, w - 2 * width, width), Rect(w - width, 0, width, width),
     Rect(0, width, width, h - 2 * width), Rect(width, width, w - 2 * width, h - 2 * width), Rect(w - width, width, width, h - 2 * width),
     Rect(0, h - width, width, width), Rect(width, h - width, w - 2 * width, width), Rect(w - width, h - width, width, width)]
  }

  /**
   * On a frame at least two widths wide and high the corners are width x width
   * squares, the edge zones strips of thickness width, and the middle the rest.
   */
  lemma ZonesOfFrame(w: int, h: int, width: int)
    requires width >= 0 && w >= 2 * width && h >= 2 * width
    ensures Zones(Rect(0, 0, w, h), width) == FrameZones(w, h, width)
  {
  }

  /** The zone numbers along each axis: 0 for the first strip, 1 the middle, 2 the last. */
  function Band(v: int, size: int, width: int): int
  {
    if v < width then 0 else if v < size - width then 1 else 2
  }

  /**
   * The nine zones tile the frame: a point of the frame lies in zone
   * 3 * (row band) + (column band) and in no other zone.
   */
  lemma ZonesTile(w: int, h: int, width: int, px: int, py: int)
    requires width >= 0 && w >= 2 * width && h >= 2 * width
    requires 0 <= px < w && 0 <= py < h
    ensures var z := FrameZones(w, h, width);
      var k := 3 * Band(py, h, width) + Band(px, w, width);
      z[k].Contains(px, py) && forall j :: 0 <= j < 9 && j != k ==> !z[j].Contains(px, py)
  {
  }

  /** A point outside the frame lies in no zone. */
  lemma ZonesInsideFrame(w: int, h: int, width: int, px: int, py: int)
    requires width >= 0 && w >= 2 * width && h >= 2 * width
    requires !(0 <= px < w && 0 <= py < h)
    ensures var z := FrameZones(w, h, width);
      forall j :: 0 <= j < 9 ==> !z[j].Contains(px, py)
  {
  }

  /** `getZoneForPoint`: corners first (0, 2, 6, 8), then edges (1, 3, 5, 7), else the middle. */
  function ZoneForPoint(z: seq<Rect>, px: int, py: int): (k: int)
    requires |z| == 9
    ensures 0 <= k < 9
    ensures k != Middle ==> z[k].Contains(px, py)
    ensures k == Middle ==> forall j :: j in {0, 1, 2, 3, 5, 6, 7, 8} ==> !z[j].Contains(px, py)
    ensures (k == 1 || k == 3 || k == 5 || k == 7) ==>
      !z[0].Contains(px, py) && !z[2].Contains(px, py) && !z[6].Contains(px, py) && !z[8].Contains(px, py)
  {
    if z[0].Contains(px, py) then 0
    else if z[2].Contains(px, py) then 2
    else if z[6].Contains(px, py) then 6
    else if z[8].Contains(px, py) then 8
    else if z[1].Contains(px, py) then 1
    else if z[3].Contains(px, py) then 3
    else if z[5].Contains(px, py) then 5
    else if z[7].Contains(px, py) then 7
    else Middle
  }

  /** On a laid-out frame, the zone found is the one the point lies in; outside the frame it is the middle. */
  lemma ZoneForPointOfFrame(w: int, h: int, px: int, py: int)
    requires w >= 2 * Width && h >= 2 * Width
    ensures var z := FrameZones(w, h, Width);
      (0 <= px < w && 0 <= py < h ==> ZoneForPoint(z, px, py) == 3 * Band(py, h, Width) + Band(px, w, Width))
      && (!(0 <= px < w && 0 <= py < h) ==> ZoneForPoint(z, px, py) == Middle)
  {
    var z := FrameZones(w, h, Width);
    if 0 <= px < w && 0 <= py < h {
      ZonesTile(w, h, Width, px, py);
    } else {
      ZonesInsideFrame(w, h, Width, px, py);
    }
  }

  predicate MovesLeft(z: int) { z == 0 || z == 3 || z == 6 }
  predicate MovesRight(z: int) { z == 2 || z == 5 || z == 8 }
  predicate MovesTop(z: int) { z == 0 || z == 1 || z == 2 }
  predicate MovesBottom(z: int) { z == 6 || z == 7 || z == 8 }

  /** `mouseDrag`: the bounds at mouse-down with the dragged zone's edges moved by the drag distance. */
  function DragBounds(b0: Rect, z: int, dx: int, dy: int): Rect
  {
    var b1 := if MovesLeft(z) then SetLeft(b0, b0.x + dx) else b0;
    var b2 := if MovesRight(z) then SetRight(b1, b0.Right() + dx) else b1;
    var b3 := if MovesTop(z) then SetTop(b2, b0.y + dy) else b2;
    if MovesBottom(z) then SetBottom(b3, b0.Bottom() + dy) else b3
  }

  /**
   * Each edge moves only for its zones: the left edge for 0/3/6, the right
   * for 2/5/8, the top for 0/1/2, the bottom for 6/7/8; every other edge keeps
   * its place, and the middle zone leaves the bounds unchanged.
   */
  lemma DragMovesOnlyItsEdges(b0: Rect, z: int, dx: int, dy: int)
    requires b0.w >= 0 && b0.h >= 0
    ensures var b := DragBounds(b0, z, dx, dy);
      (MovesLeft(z) ==> b.x == b0.x + dx && (dx <= b0.w ==> b.Right() == b0.Right()))
      && (MovesRight(z) ==> b.Right() == b0.Right() + dx && (-dx <= b0.w ==> b.x == b0.x))
      && (!MovesLeft(z) && !MovesRight(z) ==> b.x == b0.x && b.w == b0.w)
      && (MovesTop(z) ==> b.y == b0.y + dy && (dy <= b0.h ==> b.Bottom() == b0.Bottom()))
      && (MovesBottom(z) ==> b.Bottom() == b0.Bottom() + dy && (-dy <= b0.h ==> b.y == b0.y))
      && (!MovesTop(z) && !MovesBottom(z) ==> b.y == b0.y && b.h == b0.h)
      && (z == Middle ==> b == b0)
  {
  }

  class ResizerFrame {
    var zoneRectangles: array<Rect>
    var boundsOnMouseDown: Rect
    var zoneCurrentlyDragging: int
    /** Index of the cursor shown: `mouseCursors[zone]`. */
    var cursorZone: int
    var hasCallback: bool

    predicate Valid()
      reads this
    {
      zoneRectangles.Length == 9
    }

    constructor ()
      ensures Valid() && fresh(zoneRectangles)
      ensures !hasCallback && zoneCurrentlyDragging == Middle
      ensures forall k :: 0 <= k < 9 ==> zoneRectangles[k] == Rect(0, 0, 0, 0)
    {
      zoneRectangles := new Rect[9](_ => Rect(0, 0, 0, 0));
      boundsOnMouseDown := Rect(0, 0, 0, 0);
      zoneCurrentlyDragging := Middle;
      cursorZone := Middle;
      hasCallback := false;
    }

    method SetCallback(present: bool)
      modifies this
      ensures hasCallback == present
      ensures zoneRectangles == old(zoneRectangles) && boundsOnMouseDown == old(boundsOnMouseDown)
      ensures zoneCurrentlyDragging == old(zoneCurrentlyDragging) && cursorZone == old(cursorZone)
    {
      hasCallback := present;
    }

    /** Lays the zones out over the local bounds (0, 0, w, h). */
    method Resized(w: int, h: int)
      requires Valid()
      modifies zoneRectangles
      ensures zoneRectangles[..] == Zones(Rect(0, 0, w, h), Width)
    {
      var area := Rect(0, 0, w, h);
      var top := RemoveFromTop(area, Width);
      area := top.rest;
      var bottom := RemoveFromBottom(area, Width);
      var middleRow := bottom.rest;
      var topRow, bottomRow := top.taken, bottom.taken;
      var s := RemoveFromLeft(topRow, Width);
      zoneRectangles[0] := s.taken;
      s := RemoveFromRight(s.rest, Width);
      zoneRectangles[2] := s.taken;
      zoneRectangles[1] := s.rest;
      s := RemoveFromLeft(middleRow, Width);
      zoneRectangles[3] := s.taken;
      s := RemoveFromRight(s.rest, Width);
      zoneRectangles[5] := s.taken;
      zoneRectangles[4] := s.rest;
      s := RemoveFromLeft(bottomRow, Width);
      zoneRectangles[6] := s.taken;
      s := RemoveFromRight(s.rest, Width);
      zoneRectangles[8] := s.taken;
      zoneRectangles[7] := s.rest;
    }

    method MouseMove(px: int, py: int)
      requires Valid()
      modifies this
      ensures zoneRectangles == old(zoneRectangles) && boundsOnMouseDown == old(boundsOnMouseDown)
      ensures cursorZone == ZoneForPoint(zoneRectangles[..], px, py)
      ensures zoneCurrentlyDragging == old(zoneCurrentlyDragging) && hasCallback == old(hasCallback)
    {
      cursorZone := ZoneForPoint(zoneRectangles[..], px, py);
    }

    /** Records the parent's bounds and the zone under the mouse. */
    method MouseDown(px: int, py: int, parentBounds: Rect)
      requires Valid()
      modifies this
      ensures zoneRectangles == old(zoneRectangles) && hasCallback == old(hasCallback)
      ensures boundsOnMouseDown == parentBounds
      ensures zoneCurrentlyDragging == ZoneForPoint(zoneRectangles[..], px, py) && cursorZone == zoneCurrentlyDragging
    {
      boundsOnMouseDown := parentBounds;
      zoneCurrentlyDragging := ZoneForPoint(zoneRectangles[..], px, py);
      cursorZone := zoneCurrentlyDragging;
    }

    /** The bounds handed to the callback, if there is one. */
    method MouseDrag(dx: int, dy: int) returns (sent: Option<Rect>)
      ensures sent == if hasCallback then Some(DragBounds(boundsOnMouseDown, zoneCurrentlyDragging, dx, dy)) else None
    {
      var b := boundsOnMouseDown;
      var z := zoneCurrentlyDragging;
      if MovesLeft(z) { b := SetLeft(b, boundsOnMouseDown.x + dx); }
      if MovesRight(z) { b := SetRight(b, boundsOnMouseDown.Right() + dx); }
      if MovesTop(z) { b := SetTop(b, boundsOnMouseDown.y + dy); }
      if MovesBottom(z) { b := SetBottom(b, boundsOnMouseDown.Bottom() + dy); }
      sent := if hasCallback then Some(b) else None;
    }

    method MouseUp()
      modifies this
      ensures zoneCurrentlyDragging == Middle
      ensures zoneRectangles == old(zoneRectangles) && boundsOnMouseDown == old(boundsOnMouseDown)
      ensures cursorZone == old(cursorZone) && hasCallback == old(hasCallback)
    {
      zoneCurrentlyDragging := Middle;
    }

    /** `hitTest`: the point lies in a zone rectangle that differs from the middle one. */
    method HitTest(px: int, py: int) returns (hit: bool)
      requires Valid()
      ensures hit <==> exists k :: 0 <= k < 9 && zoneRectangles[k].Contains(px, py) && zoneRectangles[k] != zoneRectangles[4]
    {
      var k := 0;
      while k < 9
        invariant 0 <= k <= 9
        invariant forall j :: 0 <= j < k ==> !(zoneRectangles[j].Contains(px, py) && zoneRectangles[j] != zoneRectangles[4])
      {
        if zoneRectangles[k].Contains(px, py) && zoneRectangles[k] != zoneRectangles[4] {
          return true;
        }
        k := k + 1;
      }
      return false;
    }
  }

  /** On a laid-out frame, exactly the border of the frame is hit; the middle lets clicks through. */
  lemma HitTestOfFrame(w: int, h: int, px: int, py: int)
    requires w >= 2 * Width && h >= 2 * Width
    ensures var z := FrameZones(w, h, Width);
      (exists k :: 0 <= k < 9 && z[k].Contains(px, py) && z[k] != z[4])
      <==> (0 <= px < w && 0 <= py < h && !(Width <= px < w - Width && Width <= py < h - Width))
  {
    var z := FrameZones(w, h, Width);
    if 0 <= px < w && 0 <= py < h {
      ZonesTile(w, h, Width, px, py);
      var k := 3 * Band(py, h, Width) + Band(px, w, Width);
      if k != 4 {
        assert z[k].Contains(px, py) && !z[4].Contains(px, py);
      }
    } else {
      ZonesInsideFrame(w, h, Width, px, py);
    }
  }
}
