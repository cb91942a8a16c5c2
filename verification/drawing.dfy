/**
 * draw::DrawingAttributes and draw::Drawing: the conversion from the
 * drawing space (0 .. scale in each direction, scale 1000 by default) to
 * the pixels of a bitmap inside its margins, the offset and resize of a
 * set of attributes, the flag bitset of a Drawing and the choice of the
 * checkerboard patterns.
 *
 * The bitmap is represented by its size and margins; the integer widths
 * of drawing_size_t and sg_size_t are not part of this model, so every
 * quantity is an unbounded natural number.
 */
module Draw {

  /** The drawing space's extent in each direction unless changed. */
  const DEFAULT_SCALE: nat := 1000

  datatype Point = Point(x: int, y: int)
  datatype Area = Area(width: nat, height: nat)
  datatype Region = Region(point: Point, area: Area)

  /** What the conversions read of a bitmap: its size and margins, in pixels. */
  datatype Bitmap = Bitmap(width: nat, height: nat, marginLeft: nat, marginRight: nat, marginTop: nat, marginBottom: nat)

  /** drawing_attr_t: the target bitmap and a region in drawing units. */
  datatype Attr = Attr(bitmap: Bitmap, region: Region)

  /** The margins fit inside the bitmap (otherwise the unsigned subtraction wraps). */
  predicate MarginsFit(b: Bitmap)
  {
    b.marginLeft + b.marginRight <= b.width && b.marginTop + b.marginBottom <= b.height
  }

  function UsableWidth(b: Bitmap): nat
    requires MarginsFit(b)
  {
    b.width - (b.marginLeft + b.marginRight)
  }

  function UsableHeight(b: Bitmap): nat
    requires MarginsFit(b)
  {
    b.height - (b.marginTop + b.marginBottom)
  }

  // ---------------------------------------------------------------------
  // Division facts
  // ---------------------------------------------------------------------

  lemma DivUnique(n: nat, m: nat, q: nat)
    requires m > 0
    requires q * m <= n < (q + 1) * m
    ensures n / m == q
  {
    var d := n / m;
    if d < q {
      MulMonotone(d + 1, q, m);
    } else if d > q {
      MulMonotone(q + 1, d, m);
    }
  }

  lemma DivMonotone(a: nat, b: nat, m: nat)
    requires m > 0 && a <= b
    ensures a / m <= b / m
  {
    if a / m > b / m {
      MulMonotone(b / m + 1, a / m, m);
    }
  }

  lemma MulMonotone(a: nat, b: nat, c: nat)
    requires a <= b
    ensures a * c <= b * c
  {
  }

  // ---------------------------------------------------------------------
  // scale_to_bitmap
  // ---------------------------------------------------------------------

  /**
   * scale_to_bitmap(d, s, max): the drawing value `d` out of `max`, as a
   * share of the `s` pixels, rounded to the nearest pixel with halves
   * rounded up.
   */
  function ScaleToBitmap(d: nat, s: nat, max: nat): (r: nat)
    requires max > 0
    ensures r * max <= d * s + max / 2
    ensures d * s + max / 2 < r * max + max
  {
    (d * s + max / 2) / max
  }

  /** A larger drawing value never lands on a smaller pixel. */
  lemma ScaleMonotone(d1: nat, d2: nat, s: nat, max: nat)
    requires max > 0 && d1 <= d2
    ensures ScaleToBitmap(d1, s, max) <= ScaleToBitmap(d2, s, max)
  {
    MulMonotone(d1, d2, s);
    DivMonotone(d1 * s + max / 2, d2 * s + max / 2, max);
  }

  /** The full drawing extent maps onto all `s` pixels, and 0 onto pixel 0. */
  lemma ScaleEnds(s: nat, max: nat)
    requires max > 0
    ensures ScaleToBitmap(max, s, max) == s
    ensures ScaleToBitmap(0, s, max) == 0
  {
    assert max * s == s * max;
    DivUnique(max * s + max / 2, max, s);
    DivUnique(max / 2, max, 0);
  }

  /** A value inside the drawing space lands inside the pixel extent. */
  lemma ScaleWithin(d: nat, s: nat, max: nat)
    requires max > 0 && d <= max
    ensures ScaleToBitmap(d, s, max) <= s
  {
    ScaleMonotone(d, max, s, max);
    ScaleEnds(s, max);
  }

  // ---------------------------------------------------------------------
  // calc_*_on_bitmap
  // ---------------------------------------------------------------------

  /** calc_width_on_bitmap(attr, value): `value` scaled over the width between the left and right margins. */
  function CalcWidthOnBitmap(b: Bitmap, value: nat, scale: nat): (r: nat)
    requires MarginsFit(b) && scale > 0
    ensures value <= scale ==> r <= UsableWidth(b)
    ensures value == scale ==> r == UsableWidth(b)
  {
    ScaleWithinAndEnds(value, UsableWidth(b), scale);
    ScaleToBitmap(value, UsableWidth(b), scale)
  }

  /** calc_height_on_bitmap(attr, value): `value` scaled over the height between the top and bottom margins. */
  function CalcHeightOnBitmap(b: Bitmap, value: nat, scale: nat): (r: nat)
    requires MarginsFit(b) && scale > 0
    ensures value <= scale ==> r <= UsableHeight(b)
    ensures value == scale ==> r == UsableHeight(b)
  {
    ScaleWithinAndEnds(value, UsableHeight(b), scale);
    ScaleToBitmap(value, UsableHeight(b), scale)
  }

  lemma ScaleWithinAndEnds(d: nat, s: nat, max: nat)
    requires max > 0
    ensures d <= max ==> ScaleToBitmap(d, s, max) <= s
    ensures d == max ==> ScaleToBitmap(d, s, max) == s
  {
    if d <= max {
      ScaleWithin(d, s, max);
    }
    ScaleEnds(s, max);
  }

  /** calc_dim_on_bitmap(attr): the attributes' area in pixels. */
  function CalcDimOnBitmap(a: Attr, scale: nat): (r: Area)
    requires MarginsFit(a.bitmap) && scale > 0
    ensures a.region.area.width <= scale ==> r.width <= UsableWidth(a.bitmap)
    ensures a.region.area.height <= scale ==> r.height <= UsableHeight(a.bitmap)
  {
    Area(CalcWidthOnBitmap(a.bitmap, a.region.area.width, scale),
         CalcHeightOnBitmap(a.bitmap, a.region.area.height, scale))
  }

  /**
   * calc_point_on_bitmap(attr): the attributes' point in pixels: each
   * coordinate scaled over the margin-reduced extent, then moved past the
   * left or top margin. A point inside the drawing space lands between
   * the margins.
   */
  function CalcPointOnBitmap(a: Attr, scale: nat): (r: Point)
    requires MarginsFit(a.bitmap) && scale > 0
    requires a.region.point.x >= 0 && a.region.point.y >= 0
    ensures r.x >= a.bitmap.marginLeft && r.y >= a.bitmap.marginTop
    ensures a.region.point.x <= scale ==> r.x <= a.bitmap.width - a.bitmap.marginRight
    ensures a.region.point.y <= scale ==> r.y <= a.bitmap.height - a.bitmap.marginBottom
  {
    var b := a.bitmap;
    Point(CalcWidthOnBitmap(b, a.region.point.x, scale) + b.marginLeft,
          CalcHeightOnBitmap(b, a.region.point.y, scale) + b.marginTop)
  }

  /**
   * calc_region_on_bitmap(attr): point and area together. A region inside
   * the drawing space ends at most one pixel past the right and bottom
   * margins, since the point and the size are rounded separately.
   */
  function CalcRegionOnBitmap(a: Attr, scale: nat): (r: Region)
    requires MarginsFit(a.bitmap) && scale > 0
    requires a.region.point.x >= 0 && a.region.point.y >= 0
    ensures r.point.x >= a.bitmap.marginLeft && r.point.y >= a.bitmap.marginTop
    ensures a.region.point.x + a.region.area.width <= scale ==>
              r.point.x + r.area.width <= a.bitmap.width - a.bitmap.marginRight + 1
    ensures a.region.point.y + a.region.area.height <= scale ==>
              r.point.y + r.area.height <= a.bitmap.height - a.bitmap.marginBottom + 1
  {
    RegionFits(a.bitmap, a.region.point.x, a.region.area.width, a.region.point.y, a.region.area.height, scale);
    Region(CalcPointOnBitmap(a, scale), CalcDimOnBitmap(a, scale))
  }

  lemma RegionFits(b: Bitmap, x: nat, w: nat, y: nat, h: nat, scale: nat)
    requires MarginsFit(b) && scale > 0
    ensures x + w <= scale ==> CalcWidthOnBitmap(b, x, scale) + CalcWidthOnBitmap(b, w, scale) <= UsableWidth(b) + 1
    ensures y + h <= scale ==> CalcHeightOnBitmap(b, y, scale) + CalcHeightOnBitmap(b, h, scale) <= UsableHeight(b) + 1
  {
    var sw := UsableWidth(b);
    var sh := UsableHeight(b);
    if x + w <= scale {
      RoundedSum(x, w, sw, scale, ScaleToBitmap(x, sw, scale), ScaleToBitmap(w, sw, scale));
    }
    if y + h <= scale {
      RoundedSum(y, h, sh, scale, ScaleToBitmap(y, sh, scale), ScaleToBitmap(h, sh, scale));
    }
  }

  /**
   * Two values that share the drawing space, each rounded to the nearest
   * pixel, add up to at most one pixel more than the extent.
   */
  lemma RoundedSum(x: nat, w: nat, s: nat, m: nat, p: nat, q: nat)
    requires m > 0 && x + w <= m
    requires p * m <= x * s + m / 2 && q * m <= w * s + m / 2
    ensures p + q <= s + 1
  {
    Distribute(p, q, m);
    Distribute(x, w, s);
    MulMonotone(x + w, m, s);
    // (p + q) * m <= (x + w) * s + m <= m * s + m
    if p + q > s + 1 {
      MulMonotone(s + 2, p + q, m);
    }
  }

  lemma Distribute(a: nat, b: nat, c: nat)
    ensures (a + b) * c == a * c + b * c
  {
  }

  // ---------------------------------------------------------------------
  // calc_width / calc_height and operator+
  // ---------------------------------------------------------------------

  /** calc_width(v): the share `v` out of `scale` of the area's width, truncated. */
  function CalcWidth(a: Attr, v: nat, scale: nat): (r: nat)
    requires scale > 0
    ensures v <= scale ==> r <= a.region.area.width
    ensures v == scale ==> r == a.region.area.width
  {
    TruncatedShare(a.region.area.width, v, scale);
    a.region.area.width * v / scale
  }

  /** calc_height(v): the share `v` out of `scale` of the area's height, truncated. */
  function CalcHeight(a: Attr, v: nat, scale: nat): (r: nat)
    requires scale > 0
    ensures v <= scale ==> r <= a.region.area.height
    ensures v == scale ==> r == a.region.area.height
  {
    TruncatedShare(a.region.area.height, v, scale);
    a.region.area.height * v / scale
  }

  lemma TruncatedShare(w: nat, v: nat, scale: nat)
    requires scale > 0
    ensures v <= scale ==> w * v / scale <= w
    ensures w * scale / scale == w
  {
    DivUnique(w * scale, scale, w);
    if v <= scale {
      assert w * v <= w * scale;
      DivMonotone(w * v, w * scale, scale);
    }
  }

  /**
   * operator+(point): a copy whose point is moved by the point's share of
   * the area (calc_width of x, calc_height of y); the bitmap and the area
   * are kept.
   */
  function PlusPoint(a: Attr, p: Point, scale: nat): (r: Attr)
    requires scale > 0 && p.x >= 0 && p.y >= 0
    ensures r.bitmap == a.bitmap && r.region.area == a.region.area
    ensures r.region.point.x >= a.region.point.x && r.region.point.y >= a.region.point.y
    ensures p.x <= scale ==> r.region.point.x <= a.region.point.x + a.region.area.width
    ensures p.y <= scale ==> r.region.point.y <= a.region.point.y + a.region.area.height
  {
    var point := Point(a.region.point.x + CalcWidth(a, p.x, scale), a.region.point.y + CalcHeight(a, p.y, scale));
    Attr(a.bitmap, Region(point, a.region.area))
  }

  /**
   * operator+(area): a copy whose area is the given area's share of the
   * current one; the bitmap and the point are kept.
   */
  function PlusArea(a: Attr, d: Area, scale: nat): (r: Attr)
    requires scale > 0
    ensures r.bitmap == a.bitmap && r.region.point == a.region.point
    ensures d.width <= scale ==> r.region.area.width <= a.region.area.width
    ensures d.height <= scale ==> r.region.area.height <= a.region.area.height
  {
    Attr(a.bitmap, Region(a.region.point, Area(CalcWidth(a, d.width, scale), CalcHeight(a, d.height, scale))))
  }

  /** Moving by the origin, or resizing to the whole drawing space, changes nothing. */
  lemma PlusIdentities(a: Attr, scale: nat)
    requires scale > 0
    ensures PlusPoint(a, Point(0, 0), scale) == a
    ensures PlusArea(a, Area(scale, scale), scale) == a
  {
    TruncatedShare(a.region.area.width, scale, scale);
    TruncatedShare(a.region.area.height, scale, scale);
    TruncatedShare(a.region.area.width, 0, scale);
    TruncatedShare(a.region.area.height, 0, scale);
  }

  /** DrawingAttributes: the attributes a drawing is drawn with, updated in place by operator<< and set(). */
  class DrawingAttributes {
    var attr: Attr

    /** The default constructor zeroes everything. */
    constructor ()
      ensures attr == Attr(Bitmap(0, 0, 0, 0, 0, 0), Region(Point(0, 0), Area(0, 0)))
    {
      attr := Attr(Bitmap(0, 0, 0, 0, 0, 0), Region(Point(0, 0), Area(0, 0)));
    }

    /** DrawingAttributes(attr) stores `a` verbatim. */
    constructor FromAttr(a: Attr)
      ensures attr == a
    {
      attr := a;
    }

    /** operator<<(bitmap). */
    method SetBitmap(b: Bitmap)
      modifies this
      ensures attr == old(attr).(bitmap := b)
    {
      attr := attr.(bitmap := b);
    }

    /** operator<<(region). */
    method SetRegion(r: Region)
      modifies this
      ensures attr == old(attr).(region := r)
    {
      attr := attr.(region := r);
    }

    /** operator<<(point) and set_point. */
    method SetPoint(p: Point)
      modifies this
      ensures attr == old(attr).(region := old(attr).region.(point := p))
    {
      attr := attr.(region := attr.region.(point := p));
    }

    /** operator<<(area) and set_dim. */
    method SetArea(d: Area)
      modifies this
      ensures attr == old(attr).(region := old(attr).region.(area := d))
    {
      attr := attr.(region := attr.region.(area := d));
    }

    /** set(b, p, d): bitmap, point and area at once. */
    method Set(b: Bitmap, p: Point, d: Area)
      modifies this
      ensures attr == Attr(b, Region(p, d))
    {
      SetBitmap(b);
      SetPoint(p);
      SetArea(d);
    }
  }

  // ---------------------------------------------------------------------
  // Drawing: flags and checkerboard patterns
  // ---------------------------------------------------------------------

  /** The single bit `1 << f`. */
  function Bit(f: nat): (r: bv32)
    requires f < 32
  {
    (1 as bv32) << f
  }

  /** Whether bit `f` of `flags` is set. */
  predicate HasFlag(flags: bv32, f: nat)
    requires f < 32
  {
    flags & Bit(f) != 0
  }

  /** The flag word after set_flag(f, v). */
  function WithFlag(flags: bv32, f: nat, v: bool): (r: bv32)
    requires f < 32
    ensures HasFlag(r, f) == v
  {
    if v then flags | Bit(f) else flags & !Bit(f)
  }

  /** set_flag(f, v) leaves every other bit as it was. */
  lemma WithFlagKeepsOthers(flags: bv32, f: nat, v: bool, g: nat)
    requires f < 32 && g < 32 && g != f
    ensures HasFlag(WithFlag(flags, f, v), g) == HasFlag(flags, g)
  {
    BitsDiffer(f, g);
  }

  lemma BitsDiffer(f: nat, g: nat)
    requires f < 32 && g < 32 && f != g
    ensures Bit(f) & Bit(g) == 0
  {
  }

  class Drawing {
    var flags: bv32

    /** A new Drawing has every flag clear. */
    constructor ()
      ensures flags == 0
      ensures forall f :: 0 <= f < 32 ==> !Flag(f)
    {
      flags := 0;
    }

    /** flag(f). */
    predicate Flag(f: nat)
      requires f < 32
      reads this
    {
      HasFlag(flags, f)
    }

    /** set_flag(f, v): sets or clears bit `f`. */
    method SetFlag(f: nat, v: bool)
      requires f < 32
      modifies this
      ensures flags == WithFlag(old(flags), f, v)
      ensures Flag(f) == v
    {
      if v {
        flags := flags | Bit(f);
      } else {
        flags := flags & !Bit(f);
      }
    }
  }

  /** The odd-row and even-row patterns draw_checkerboard passes on. */
  datatype Patterns = Patterns(odd: bv32, even: bv32)

  /**
   * draw_checkerboard(attr, pattern_height): 2-, 4- and 8-pixel checks
   * have their own patterns; any other height gets single-pixel checks.
   */
  function CheckerboardPatterns(height: nat): (r: Patterns)
    ensures r.odd == !r.even
    ensures height !in {2, 4, 8} ==> r == Patterns(0xAAAA_AAAA, 0x5555_5555)
  {
    match height
    case 2 => Patterns(0xCCCC_CCCC, 0x3333_3333)
    case 4 => Patterns(0xF0F0_F0F0, 0x0F0F_0F0F)
    case 8 => Patterns(0xFF00_FF00, 0x00FF_00FF)
    case _ => Patterns(0xAAAA_AAAA, 0x5555_5555)
  }

  /**
   * The even pattern of height h (2, 4 or 8) repeats every 2h bits and is
   * set in exactly the low h bits of each period.
   */
  lemma CheckerPeriod(height: nat, i: nat)
    requires height in {2, 4, 8} && i < 32
    ensures HasFlag(CheckerboardPatterns(height).even, i) == (i % (2 * height) < height)
  {
  }
}
