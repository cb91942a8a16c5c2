/**
 * sgfx::Region: a rectangle of the graphics space given by its top-left
 * point and its area (width and height in pixels).
 *
 * The width of sg_size_t is not part of this model: sizes are natural
 * numbers, and set_region is given corners that do not make them negative.
 */
module Sgfx {

  datatype Point = Point(x: int, y: int)
  datatype Area = Area(width: nat, height: nat)

  /** sg_region_t. */
  datatype RegionValue = RegionValue(point: Point, area: Area)

  /** The last pixel of a region that starts at `p` and covers `a`. */
  function BottomRight(p: Point, a: Area): Point
  {
    Point(p.x + a.width - 1, p.y + a.height - 1)
  }

  /**
   * The area set_region gives the region between two corners, both
   * included; its bottom-right pixel is the given corner.
   */
  function Span(topLeft: Point, bottomRight: Point): (r: Area)
    requires topLeft.x <= bottomRight.x + 1 && topLeft.y <= bottomRight.y + 1
    ensures BottomRight(topLeft, r) == bottomRight
  {
    Area(bottomRight.x - topLeft.x + 1, bottomRight.y - topLeft.y + 1)
  }

  /** The area between a point and the region's last pixel is the region's own area. */
  lemma SpanOfBottomRight(p: Point, a: Area)
    ensures p.x <= BottomRight(p, a).x + 1 && p.y <= BottomRight(p, a).y + 1
    ensures Span(p, BottomRight(p, a)) == a
  {
  }

  class Region {
    var point: Point
    var area: Area

    /** Region(): everything zero. */
    constructor ()
      ensures point == Point(0, 0) && area == Area(0, 0)
      ensures !IsValid()
    {
      point := Point(0, 0);
      area := Area(0, 0);
    }

    /** Region(sg_region_t): stores the region verbatim. */
    constructor FromValue(r: RegionValue)
      ensures point == r.point && area == r.area
    {
      point := r.point;
      area := r.area;
    }

    /** Region(point, area): stores both verbatim. */
    constructor FromPointArea(p: Point, a: Area)
      ensures point == p && area == a
    {
      point := p;
      area := a;
    }

    /** Whether pixel `q` lies inside the region. */
    predicate Contains(q: Point)
      reads this
    {
      point.x <= q.x < point.x + area.width && point.y <= q.y < point.y + area.height
    }

    /** is_valid(): both width and height are non-zero. */
    predicate IsValid()
      reads this
    {
      area.width != 0 && area.height != 0
    }

    /** A region is valid exactly when it covers at least one pixel: its top-left one. */
    lemma ValidCoversPixels()
      ensures IsValid() <==> Contains(point)
      ensures IsValid() <==> exists q :: Contains(q)
    {
      if exists q :: Contains(q) {
        var q :| Contains(q);
        assert area.width != 0 && area.height != 0;
      }
      if IsValid() {
        assert Contains(point);
      }
    }

    /** center(): half the width right and half the height down, rounded down. */
    function Center(): (c: Point)
      reads this
      ensures IsValid() ==> Contains(c)
      ensures point.x <= c.x && point.y <= c.y
    {
      Point(point.x + area.width / 2, point.y + area.height / 2)
    }

    /** set_region(top_left, bottom_right). */
    method SetRegion(topLeft: Point, bottomRight: Point)
      requires topLeft.x <= bottomRight.x + 1 && topLeft.y <= bottomRight.y + 1
      modifies this
      ensures point == topLeft && area == Span(topLeft, bottomRight)
      ensures BottomRight(point, area) == bottomRight
    {
      point := topLeft;
      area := Area(bottomRight.x - topLeft.x + 1, bottomRight.y - topLeft.y + 1);
    }

    /** set_point(value). */
    method SetPoint(value: Point)
      modifies this
      ensures point == value && area == old(area)
    {
      point := value;
    }

    /** set_area(value). */
    method SetArea(value: Area)
      modifies this
      ensures area == value && point == old(point)
    {
      area := value;
    }

    /** set_dim(value): the same as set_area. */
    method SetDim(value: Area)
      modifies this
      ensures area == value && point == old(point)
    {
      area := value;
    }

    /** operator<<(Point): set_point. */
    method InsertPoint(value: Point)
      modifies this
      ensures point == value && area == old(area)
    {
      SetPoint(value);
    }

    /** operator<<(Area): set_area. */
    method InsertArea(value: Area)
      modifies this
      ensures area == value && point == old(point)
    {
      SetArea(value);
    }
  }
}
