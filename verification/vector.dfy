/**
 * sgfx::Vector and sgfx::VectorMap: the builders of vector primitives, the
 * geometry of a vector map, and the icon tables the draw_* functions fill
 * before handing them to the graphics API.
 *
 * SG_MAX, SG_MIN and SG_TRIG_POINTS, and the numeric values of the
 * primitive types and of SG_ENABLE_FLAG, are not part of this model: the
 * three constants are parameters and a primitive's type is its kind plus
 * whether the enable flag is set. The graphics API's vector_draw_icon is
 * represented by recording the icon and the map it is drawn with.
 */
module Vector {
  import opened Wrappers
  import opened Sgfx
  import opened CInt

  /** SG_MAX, SG_MIN and SG_TRIG_POINTS. */
  datatype Consts = Consts(max: int, min: int, trig: int)

  // ---------------------------------------------------------------------
  // Primitives
  // ---------------------------------------------------------------------

  datatype Kind = LineKind | QuadraticBezierKind | CubicBezierKind | ArcKind | FillKind

  /** The type field of sg_vector_primitive_t: a kind OR-ed with SG_ENABLE_FLAG or not. */
  datatype Type = Type(kind: Kind, enabled: bool)

  /** The shape-specific part of sg_vector_primitive_t. */
  datatype Shape =
    | LineShape(p1: Point, p2: Point)
    | QuadraticBezierShape(q1: Point, q2: Point, q3: Point)
    | CubicBezierShape(c1: Point, c2: Point, c3: Point, c4: Point)
    | ArcShape(center: Point, rx: int, ry: int, start: int, stop: int, rotation: int)
    | FillShape(fillCenter: Point)

  datatype Primitive = Primitive(typ: Type, shape: Shape)

  function ShapeKind(s: Shape): Kind
  {
    match s
    case LineShape(_, _) => LineKind
    case QuadraticBezierShape(_, _, _) => QuadraticBezierKind
    case CubicBezierShape(_, _, _, _) => CubicBezierKind
    case ArcShape(_, _, _, _, _, _) => ArcKind
    case FillShape(_) => FillKind
  }

  /** A primitive the renderer draws: enabled, and its type names the shape its fields hold. */
  predicate WellFormed(p: Primitive)
  {
    p.typ.enabled && p.typ.kind == ShapeKind(p.shape)
  }

  /** line(p1, p2). */
  function Line(p1: Point, p2: Point): (r: Primitive)
    ensures WellFormed(r) && r.typ.kind == LineKind
    ensures r.shape.p1 == p1 && r.shape.p2 == p2
  {
    Primitive(Type(LineKind, true), LineShape(p1, p2))
  }

  /** quadratic_bezier(p1, p2, p3). */
  function QuadraticBezier(p1: Point, p2: Point, p3: Point): (r: Primitive)
    ensures WellFormed(r) && r.typ.kind == QuadraticBezierKind
    ensures r.shape.q1 == p1 && r.shape.q2 == p2 && r.shape.q3 == p3
  {
    Primitive(Type(QuadraticBezierKind, true), QuadraticBezierShape(p1, p2, p3))
  }

  /** cubic_bezier(p1, p2, p3, p4). */
  function CubicBezier(p1: Point, p2: Point, p3: Point, p4: Point): (r: Primitive)
    ensures WellFormed(r) && r.typ.kind == CubicBezierKind
    ensures r.shape.c1 == p1 && r.shape.c2 == p2 && r.shape.c3 == p3 && r.shape.c4 == p4
  {
    Primitive(Type(CubicBezierKind, true), CubicBezierShape(p1, p2, p3, p4))
  }

  /** arc(p, rx, ry, start, stop, rotation). */
  function Arc(p: Point, rx: int, ry: int, start: int, stop: int, rotation: int): (r: Primitive)
    ensures WellFormed(r) && r.typ.kind == ArcKind
    ensures r.shape.center == p && r.shape.rx == rx && r.shape.ry == ry
    ensures r.shape.start == start && r.shape.stop == stop && r.shape.rotation == rotation
  {
    Primitive(Type(ArcKind, true), ArcShape(p, rx, ry, start, stop, rotation))
  }

  /** circle(p, r): a full turn of an arc with equal radii and no rotation. */
  function Circle(p: Point, radius: int, trigPoints: int): (r: Primitive)
    ensures r == Arc(p, radius, radius, 0, trigPoints, 0)
  {
    Primitive(Type(ArcKind, true), ArcShape(p, radius, radius, 0, trigPoints, 0))
  }

  /** fill(p). */
  function Fill(p: Point): (r: Primitive)
    ensures WellFormed(r) && r.typ.kind == FillKind
    ensures r.shape.fillCenter == p
  {
    Primitive(Type(FillKind, true), FillShape(p))
  }

  /**
   * The builders make every primitive the renderer draws: a well-formed
   * primitive is what its kind's builder makes from its own fields.
   */
  lemma BuildersCoverWellFormed(p: Primitive)
    requires WellFormed(p)
    ensures match p.shape
      case LineShape(p1, p2) => p == Line(p1, p2)
      case QuadraticBezierShape(q1, q2, q3) => p == QuadraticBezier(q1, q2, q3)
      case CubicBezierShape(c1, c2, c3, c4) => p == CubicBezier(c1, c2, c3, c4)
      case ArcShape(c, rx, ry, a, b, rot) => p == Arc(c, rx, ry, a, b, rot)
      case FillShape(c) => p == Fill(c)
  {
  }

  // ---------------------------------------------------------------------
  // VectorMap
  // ---------------------------------------------------------------------

  /** sg_vector_map_t: the size the icon is scaled to, its shift and its rotation. */
  datatype MapValue = MapValue(dim: Area, shift: Point, rotation: int)

  /** The shift set_bitmap_center gives one axis: half of the bitmap's extent less one pen thickness. */
  lemma CenterShift(extent: nat, thickness: nat)
    requires 2 * thickness <= extent
    ensures ((extent - 2 * thickness) * 2 + 2 * thickness) / 4 == (extent - thickness) / 2
  {
    var k := extent - thickness;
    assert (extent - 2 * thickness) * 2 + 2 * thickness == 2 * k;
  }

  class VectorMap {
    var item: MapValue

    /**
     * VectorMap(bitmap, rotation): centred on a bitmap of the given size
     * drawn with the given pen thickness.
     */
    constructor (bitmapWidth: nat, bitmapHeight: nat, thickness: nat, rotation: int)
      requires 2 * thickness <= bitmapWidth && 2 * thickness <= bitmapHeight
      ensures item.dim == Area((bitmapWidth - 2 * thickness) * 2, (bitmapHeight - 2 * thickness) * 2)
      ensures item.shift == Point((bitmapWidth - thickness) / 2, (bitmapHeight - thickness) / 2)
      ensures item.rotation == rotation
    {
      item := MapValue(Area(0, 0), Point(0, 0), 0);
      new;
      SetBitmapCenter(bitmapWidth, bitmapHeight, thickness, rotation);
    }

    /**
     * set_bitmap_center(bitmap, rotation): the map spans twice the bitmap
     * less a pen thickness on each side, and is shifted to the bitmap's
     * centre.
     */
    method SetBitmapCenter(bitmapWidth: nat, bitmapHeight: nat, thickness: nat, rotation: int)
      requires 2 * thickness <= bitmapWidth && 2 * thickness <= bitmapHeight
      modifies this
      ensures item.dim == Area((bitmapWidth - 2 * thickness) * 2, (bitmapHeight - 2 * thickness) * 2)
      ensures item.shift == Point((bitmapWidth - thickness) / 2, (bitmapHeight - thickness) / 2)
      ensures item.rotation == rotation
    {
      var width := (bitmapWidth - 2 * thickness) * 2;
      var height := (bitmapHeight - 2 * thickness) * 2;
      item := item.(dim := Area(width, height));
      item := item.(shift := Point((item.dim.width + 2 * thickness) / 4, (item.dim.height + 2 * thickness) / 4));
      item := item.(rotation := rotation);
      CenterShift(bitmapWidth, thickness);
      CenterShift(bitmapHeight, thickness);
    }

    /** set_dim(dim). */
    method SetDim(d: Area)
      modifies this
      ensures item == old(item).(dim := d)
    {
      item := item.(dim := Area(item.dim.width, d.height));
      item := item.(dim := Area(d.width, item.dim.height));
    }

    /** set_dim(w, h). */
    method SetDimSizes(w: nat, h: nat)
      modifies this
      ensures item == old(item).(dim := Area(w, h))
    {
      item := item.(dim := Area(w, item.dim.height));
      item := item.(dim := Area(item.dim.width, h));
    }

    /** set_shift(point). */
    method SetShift(p: Point)
      modifies this
      ensures item == old(item).(shift := p)
    {
      item := item.(shift := Point(p.x, item.shift.y));
      item := item.(shift := Point(item.shift.x, p.y));
    }

    /** set_shift(x, y). */
    method SetShiftCoordinates(x: int, y: int)
      modifies this
      ensures item == old(item).(shift := Point(x, y))
    {
      item := item.(shift := Point(x, item.shift.y));
      item := item.(shift := Point(item.shift.x, y));
    }

    /** set_area(p, d, rotation): all three fields at once. */
    method SetArea(p: Point, d: Area, rotation: int)
      modifies this
      ensures item == MapValue(d, p, rotation)
    {
      item := item.(dim := d);
      item := item.(shift := p);
      item := item.(rotation := rotation);
    }
  }

  // ---------------------------------------------------------------------
  // Icons
  // ---------------------------------------------------------------------

  /**
   * sg_vector_icon_t: the primitive table (a slot is None until it is
   * filled), how many of its entries to draw, and fill_total.
   */
  datatype Icon = Icon(primitives: seq<Option<Primitive>>, total: nat, fillTotal: nat)

  /** One call of the graphics API: the icon and the map it was drawn with. */
  datatype DrawnIcon = DrawnIcon(icon: Icon, vectorMap: MapValue)

  /**
   * The icon draws exactly the primitives of the given kinds, in order:
   * its total counts them, every counted slot was filled with a
   * well-formed primitive, and fill_total is 0.
   */
  predicate HasKinds(icon: Icon, kinds: seq<Kind>)
  {
    && icon.total == |kinds|
    && icon.fillTotal == 0
    && |kinds| <= |icon.primitives|
    && forall i :: 0 <= i < |kinds| ==>
         icon.primitives[i].Some? && WellFormed(icon.primitives[i].value) && icon.primitives[i].value.typ.kind == kinds[i]
  }

  /** `after` is `before` with one more icon, drawn with `vectorMap`, made of the given kinds. */
  predicate Appended(before: seq<DrawnIcon>, after: seq<DrawnIcon>, vectorMap: MapValue, kinds: seq<Kind>)
  {
    && |after| == |before| + 1
    && after[..|before|] == before
    && after[|before|].vectorMap == vectorMap
    && HasKinds(after[|before|].icon, kinds)
  }

  /** A bitmap the draw_* functions draw icons on; it records each icon drawn. */
  class Canvas {
    var drawn: seq<DrawnIcon>

    constructor ()
      ensures drawn == []
    {
      drawn := [];
    }

    /** draw(bitmap, icon, vectorMap): hands one icon to the graphics API. */
    method Draw(icon: Icon, vectorMap: MapValue)
      modifies this
      ensures drawn == old(drawn) + [DrawnIcon(icon, vectorMap)]
    {
      drawn := drawn + [DrawnIcon(icon, vectorMap)];
    }

    /** draw_remove: 2 primitives. */
    method DrawRemove(c: Consts, vectorMap: MapValue)
      modifies this
      ensures Appended(old(drawn), drawn, vectorMap, [LineKind, LineKind])
    {
      var objs: seq<Option<Primitive>> := seq(2, _ => None);
      var total := 2;
      objs := objs[0 := Some(Line(Point(CDiv(-c.max, 2), CDiv(-c.max, 2)), Point(CDiv(c.max, 2), CDiv(c.max, 2))))];
      objs := objs[1 := Some(Line(Point(CDiv(-c.max, 2), CDiv(c.max, 2)), Point(CDiv(c.max, 2), CDiv(-c.max, 2))))];
      Draw(Icon(objs, total, 0), vectorMap);
    }

    /** draw_ok: 2 primitives. */
    method DrawOk(c: Consts, vectorMap: MapValue)
      modifies this
      ensures Appended(old(drawn), drawn, vectorMap, [LineKind, LineKind])
    {
      var objs: seq<Option<Primitive>> := seq(2, _ => None);
      var total := 2;
      objs := objs[0 := Some(Line(Point(CDiv(-c.max, 2), CDiv(c.max, 4)), Point(CDiv(-c.max, 4), CDiv(c.max, 2))))];
      objs := objs[1 := Some(Line(Point(CDiv(-c.max, 4), CDiv(c.max, 2)), Point(CDiv(c.max, 2), CDiv(-c.max, 4))))];
      Draw(Icon(objs, total, 0), vectorMap);
    }

    /** draw_bars: 3 primitives. */
    method DrawBars(c: Consts, vectorMap: MapValue)
      modifies this
      ensures Appended(old(drawn), drawn, vectorMap, [LineKind, LineKind, LineKind])
    {
      var objs: seq<Option<Primitive>> := seq(3, _ => None);
      var total := 3;
      objs := objs[0 := Some(Line(Point(CDiv(c.min, 2), CDiv(c.min, 2)), Point(CDiv(c.max, 2), CDiv(c.min, 2))))];
      objs := objs[1 := Some(Line(Point(CDiv(c.min, 2), 0), Point(CDiv(c.max, 2), 0)))];
      objs := objs[2 := Some(Line(Point(CDiv(c.min, 2), CDiv(c.max, 2)), Point(CDiv(c.max, 2), CDiv(c.max, 2))))];
      Draw(Icon(objs, total, 0), vectorMap);
    }

    /** draw_circle: 1 primitive. */
    method DrawCircle(c: Consts, vectorMap: MapValue)
      modifies this
      ensures Appended(old(drawn), drawn, vectorMap, [ArcKind])
    {
      var objs: seq<Option<Primitive>> := seq(1, _ => None);
      var total := 1;
      objs := objs[0 := Some(Circle(Point(0, 0), CDiv(c.max, 2), c.trig))];
      Draw(Icon(objs, total, 0), vectorMap);
    }

    /** draw_circle_fill: 2 primitives. */
    method DrawCircleFill(c: Consts, vectorMap: MapValue)
      modifies this
      ensures Appended(old(drawn), drawn, vectorMap, [ArcKind, FillKind])
    {
      var objs: seq<Option<Primitive>> := seq(2, _ => None);
      var total := 2;
      objs := objs[0 := Some(Circle(Point(0, 0), CDiv(c.max, 2), c.trig))];
      objs := objs[1 := Some(Fill(Point(0, 0)))];
      Draw(Icon(objs, total, 0), vectorMap);
    }

    /** draw_toggle_off: 5 primitives. */
    method DrawToggleOff(c: Consts, vectorMap: MapValue)
      modifies this
      ensures Appended(old(drawn), drawn, vectorMap, [LineKind, LineKind, ArcKind, ArcKind, ArcKind])
    {
      var objs: seq<Option<Primitive>> := seq(5, _ => None);
      var total := 5;
      objs := objs[0 := Some(Line(Point(CDiv(-c.max, 4), CDiv(-c.max, 4)), Point(CDiv(c.max, 4), CDiv(-c.max, 4))))];
      objs := objs[1 := Some(Line(Point(CDiv(-c.max, 4), CDiv(c.max, 4)), Point(CDiv(c.max, 4), CDiv(c.max, 4))))];
      objs := objs[2 := Some(Arc(Point(CDiv(-c.max, 4), 0), CDiv(c.max, 4), CDiv(c.max, 4), CDiv(c.trig, 4), CDiv(c.trig * 3, 4), 0))];
      objs := objs[3 := Some(Arc(Point(CDiv(c.max, 4), 0), CDiv(c.max, 4), CDiv(c.max, 4), CDiv(c.trig * 3, 4), CDiv(c.trig * 5, 4), 0))];
      objs := objs[4 := Some(Circle(Point(CDiv(-c.max, 4), 0), CDiv(c.max, 4), c.trig))];
      Draw(Icon(objs, total, 0), vectorMap);
    }

    /** draw_toggle_on: 6 primitives. */
    method DrawToggleOn(c: Consts, vectorMap: MapValue)
      modifies this
      ensures Appended(old(drawn), drawn, vectorMap, [LineKind, LineKind, ArcKind, ArcKind, ArcKind, FillKind])
    {
      var objs: seq<Option<Primitive>> := seq(6, _ => None);
      var total := 6;
      objs := objs[0 := Some(Line(Point(CDiv(-c.max, 4), CDiv(-c.max, 4)), Point(CDiv(c.max, 4), CDiv(-c.max, 4))))];
      objs := objs[1 := Some(Line(Point(CDiv(-c.max, 4), CDiv(c.max, 4)), Point(CDiv(c.max, 4), CDiv(c.max, 4))))];
      objs := objs[2 := Some(Arc(Point(CDiv(-c.max, 4), 0), CDiv(c.max, 4), CDiv(c.max, 4), CDiv(c.trig, 4), CDiv(c.trig * 3, 4), 0))];
      objs := objs[3 := Some(Arc(Point(CDiv(c.max, 4), 0), CDiv(c.max, 4), CDiv(c.max, 4), CDiv(c.trig * 3, 4), CDiv(c.trig * 5, 4), 0))];
      objs := objs[4 := Some(Circle(Point(CDiv(c.max, 4), 0), CDiv(c.max, 4), c.trig))];
      objs := objs[5 := Some(Fill(Point(CDiv(-c.max, 4), 0)))];
      Draw(Icon(objs, total, 0), vectorMap);
    }

    /** draw_power: 2 primitives. */
    method DrawPower(c: Consts, vectorMap: MapValue)
      modifies this
      ensures Appended(old(drawn), drawn, vectorMap, [LineKind, ArcKind])
    {
      var objs: seq<Option<Primitive>> := seq(2, _ => None);
      var total := 2;
      objs := objs[0 := Some(Line(Point(0, 0), Point(0, CDiv(-c.max, 2))))];
      objs := objs[1 := Some(Arc(Point(0, 0), CDiv(c.max, 2), CDiv(c.max, 2), CDiv(c.trig * 7, 8), CDiv(c.trig * 7, 8) + CDiv(c.trig * 3, 4), 0))];
      Draw(Icon(objs, total, 0), vectorMap);
    }

    /** draw_chevron: 2 primitives. */
    method DrawChevron(c: Consts, vectorMap: MapValue)
      modifies this
      ensures Appended(old(drawn), drawn, vectorMap, [LineKind, LineKind])
    {
      var objs: seq<Option<Primitive>> := seq(2, _ => None);
      var total := 2;
      objs := objs[0 := Some(Line(Point(CDiv(-c.max, 8), CDiv(-c.max, 2)), Point(CDiv(c.max, 8), 0)))];
      objs := objs[1 := Some(Line(Point(CDiv(c.max, 8), 0), Point(CDiv(-c.max, 8), CDiv(c.max, 2))))];
      Draw(Icon(objs, total, 0), vectorMap);
    }

    /** draw_arrow: 3 primitives. */
    method DrawArrow(c: Consts, vectorMap: MapValue)
      modifies this
      ensures Appended(old(drawn), drawn, vectorMap, [LineKind, LineKind, LineKind])
    {
      var objs: seq<Option<Primitive>> := seq(3, _ => None);
      var total := 3;
      objs := objs[0 := Some(Line(Point(CDiv(-c.max, 2), 0), Point(CDiv(c.max, 2), 0)))];
      objs := objs[1 := Some(Line(Point(0, CDiv(c.max, 2)), Point(CDiv(c.max, 2), 0)))];
      objs := objs[2 := Some(Line(Point(0, CDiv(-c.max, 2)), Point(CDiv(c.max, 2), 0)))];
      Draw(Icon(objs, total, 0), vectorMap);
    }

    /** draw_zoom: 2 primitives. */
    method DrawZoom(c: Consts, vectorMap: MapValue)
      modifies this
      ensures Appended(old(drawn), drawn, vectorMap, [ArcKind, LineKind])
    {
      var objs: seq<Option<Primitive>> := seq(2, _ => None);
      var total := 2;
      objs := objs[0 := Some(Circle(Point(CDiv(c.max, 6), CDiv(-c.max, 6)), CDiv(c.max * 3, 10), c.trig))];
      objs := objs[1 := Some(Line(Point(CDiv(-c.max, 20), CDiv(c.max, 20)), Point(CDiv(-c.max, 2), CDiv(c.max, 2))))];
      Draw(Icon(objs, total, 0), vectorMap);
    }

    /** draw_reset: 3 primitives. */
    method DrawReset(c: Consts, vectorMap: MapValue)
      modifies this
      ensures Appended(old(drawn), drawn, vectorMap, [LineKind, LineKind, ArcKind])
    {
      var objs: seq<Option<Primitive>> := seq(3, _ => None);
      var total := 3;
      objs := objs[0 := Some(Line(Point(CDiv(c.max * 3, 10), 0), Point(CDiv(c.max * 5, 10), CDiv(-c.max * 2, 20))))];
      objs := objs[1 := Some(Line(Point(CDiv(c.max * 3, 10), 0), Point(CDiv(c.max * 1, 10), CDiv(-c.max * 2, 20))))];
      objs := objs[2 := Some(Arc(Point(CDiv(-c.max, 40), 0), CDiv(c.max * 3, 10) + CDiv(c.max * 3, 40), CDiv(c.max * 3, 10) + CDiv(c.max * 3, 40), CDiv(c.trig, 12), c.trig, 0))];
      Draw(Icon(objs, total, 0), vectorMap);
    }

    /** draw_lightning: 3 primitives. */
    method DrawLightning(c: Consts, vectorMap: MapValue)
      modifies this
      ensures Appended(old(drawn), drawn, vectorMap, [LineKind, LineKind, LineKind])
    {
      var objs: seq<Option<Primitive>> := seq(3, _ => None);
      var total := 3;
      objs := objs[0 := Some(Line(Point(0, CDiv(-c.max, 2)), Point(CDiv(-c.max, 4), CDiv(c.max, 10))))];
      objs := objs[1 := Some(Line(Point(CDiv(-c.max, 4), CDiv(c.max, 10)), Point(CDiv(c.max, 4), CDiv(-c.max, 10))))];
      objs := objs[2 := Some(Line(Point(CDiv(c.max, 4), CDiv(-c.max, 10)), Point(0, CDiv(c.max, 2))))];
      Draw(Icon(objs, total, 0), vectorMap);
    }

    /** draw_play: 4 primitives. */
    method DrawPlay(c: Consts, vectorMap: MapValue)
      modifies this
      ensures Appended(old(drawn), drawn, vectorMap, [LineKind, LineKind, LineKind, FillKind])
    {
      var objs: seq<Option<Primitive>> := seq(4, _ => None);
      var total := 4;
      objs := objs[0 := Some(Line(Point(CDiv(-c.max, 2), CDiv(-c.max, 2)), Point(CDiv(-c.max, 2), CDiv(c.max, 2))))];
      objs := objs[1 := Some(Line(Point(CDiv(-c.max, 2), CDiv(c.max, 2)), Point(CDiv(c.max, 2), 0)))];
      objs := objs[2 := Some(Line(Point(CDiv(c.max, 2), 0), Point(CDiv(-c.max, 2), CDiv(-c.max, 2))))];
      objs := objs[3 := Some(Fill(Point(0, 0)))];
      Draw(Icon(objs, total, 0), vectorMap);
    }

    /** draw_pause: 2 primitives. */
    method DrawPause(c: Consts, vectorMap: MapValue)
      modifies this
      ensures Appended(old(drawn), drawn, vectorMap, [LineKind, LineKind])
    {
      var objs: seq<Option<Primitive>> := seq(2, _ => None);
      var total := 2;
      objs := objs[0 := Some(Line(Point(CDiv(-c.max, 4), CDiv(-c.max, 2)), Point(CDiv(-c.max, 4), CDiv(c.max, 2))))];
      objs := objs[1 := Some(Line(Point(CDiv(c.max, 4), CDiv(-c.max, 2)), Point(CDiv(c.max, 4), CDiv(c.max, 2))))];
      Draw(Icon(objs, total, 0), vectorMap);
    }

    /** draw_button_bar: 7 primitives. */
    method DrawButtonBar(c: Consts, vectorMap: MapValue)
      modifies this
      ensures Appended(old(drawn), drawn, vectorMap, [LineKind, LineKind, LineKind, LineKind, ArcKind, ArcKind, FillKind])
    {
      var objs: seq<Option<Primitive>> := seq(7, _ => None);
      var total := 7;
      objs := objs[0 := Some(Line(Point(CDiv(c.min, 2), 0), Point(CDiv(c.max, 2), 0)))];
      objs := objs[1 := Some(Line(Point(CDiv(c.min, 2) + CDiv(c.max, 32), CDiv(c.max, 4)), Point(CDiv(c.max, 2) - CDiv(c.max, 32), CDiv(c.max, 4))))];
      objs := objs[2 := Some(Line(Point(CDiv(c.min, 2), 0), Point(CDiv(c.min, 2), CDiv(c.max, 4) - CDiv(c.max, 32))))];
      objs := objs[3 := Some(Line(Point(CDiv(c.max, 2), 0), Point(CDiv(c.max, 2), CDiv(c.max, 4) - CDiv(c.max, 32))))];
      objs := objs[4 := Some(Arc(Point(CDiv(c.max, 2) - CDiv(c.max, 32), CDiv(c.max, 4) - CDiv(c.max, 32)), CDiv(c.max, 32), CDiv(c.max, 32), 0, CDiv(c.trig, 4), 0))];
      objs := objs[5 := Some(Arc(Point(CDiv(c.min, 2) + CDiv(c.max, 32), CDiv(c.max, 4) - CDiv(c.max, 32)), CDiv(c.max, 32), CDiv(c.max, 32), CDiv(c.trig, 4), CDiv(c.trig * 2, 4), 0))];
      objs := objs[6 := Some(Fill(Point(0, CDiv(c.max, 8))))];
      Draw(Icon(objs, total, 0), vectorMap);
    }

    /** draw_mic: 8 primitives. */
    method DrawMic(c: Consts, vectorMap: MapValue)
      modifies this
      ensures Appended(old(drawn), drawn, vectorMap, [ArcKind, LineKind, LineKind, ArcKind, ArcKind, LineKind, LineKind, FillKind])
    {
      var objs: seq<Option<Primitive>> := seq(8, _ => None);
      var total := 8;
      objs := objs[0 := Some(Arc(Point(0, CDiv(-c.max, 6)), CDiv(c.max, 6), CDiv(c.max, 6), CDiv(c.trig, 2), c.trig, 0))];
      objs := objs[1 := Some(Line(Point(CDiv(-c.max, 6), CDiv(-c.max, 6)), Point(CDiv(-c.max, 6), 0)))];
      objs := objs[2 := Some(Line(Point(CDiv(c.max, 6), CDiv(-c.max, 6)), Point(CDiv(c.max, 6), 0)))];
      objs := objs[3 := Some(Arc(Point(0, 0), CDiv(c.max, 6), CDiv(c.max, 6), 0, CDiv(c.trig, 2), 0))];
      objs := objs[4 := Some(Arc(Point(0, 0), CDiv(c.max, 3), CDiv(c.max, 3), 0, CDiv(c.trig, 2), 0))];
      objs := objs[5 := Some(Line(Point(0, CDiv(c.max, 3)), Point(0, CDiv(c.max, 2))))];
      objs := objs[6 := Some(Line(Point(CDiv(-c.max, 5), CDiv(c.max, 2)), Point(CDiv(c.max, 5), CDiv(c.max, 2))))];
      objs := objs[7 := Some(Fill(Point(0, CDiv(-c.max, 8))))];
      Draw(Icon(objs, total, 0), vectorMap);
    }

    /** draw_clock: 3 primitives. */
    method DrawClock(c: Consts, vectorMap: MapValue)
      modifies this
      ensures Appended(old(drawn), drawn, vectorMap, [ArcKind, LineKind, LineKind])
    {
      var objs: seq<Option<Primitive>> := seq(3, _ => None);
      var total := 3;
      objs := objs[0 := Some(Circle(Point(0, 0), CDiv(c.max, 2), c.trig))];
      objs := objs[1 := Some(Line(Point(0, 0), Point(CDiv(c.max, 4), 0)))];
      objs := objs[2 := Some(Line(Point(0, 0), Point(0, CDiv(-c.max, 3))))];
      Draw(Icon(objs, total, 0), vectorMap);
    }

    /** draw_heart: 5 primitives. */
    method DrawHeart(c: Consts, vectorMap: MapValue)
      modifies this
      ensures Appended(old(drawn), drawn, vectorMap, [ArcKind, ArcKind, LineKind, LineKind, FillKind])
    {
      var objs: seq<Option<Primitive>> := seq(5, _ => None);
      var total := 5;
      objs := objs[0 := Some(Arc(Point(CDiv(-c.max, 4), 0), CDiv(c.max, 4), CDiv(c.max, 4), CDiv(c.trig * 3, 8), c.trig, 0))];
      objs := objs[1 := Some(Arc(Point(CDiv(c.max, 4), 0), CDiv(c.max, 4), CDiv(c.max, 4), CDiv(c.trig, 2), c.trig + CDiv(c.trig, 8), 0))];
      objs := objs[2 := Some(Line(Point(CDiv(-c.max, 2) + CDiv(c.max * 1, 20), CDiv(c.max * 3, 10) - CDiv(c.max * 3, 20)), Point(0, CDiv(c.max, 2))))];
      objs := objs[3 := Some(Line(Point(CDiv(c.max, 2) - CDiv(c.max * 1, 20), CDiv(c.max * 3, 10) - CDiv(c.max * 3, 20)), Point(0, CDiv(c.max, 2))))];
      objs := objs[4 := Some(Fill(Point(CDiv(c.max, 4), 0)))];
      Draw(Icon(objs, total, 0), vectorMap);
    }

    /** draw_plot: 6 primitives. */
    method DrawPlot(c: Consts, vectorMap: MapValue)
      modifies this
      ensures Appended(old(drawn), drawn, vectorMap, [LineKind, LineKind, LineKind, LineKind, LineKind, LineKind])
    {
      var objs: seq<Option<Primitive>> := seq(6, _ => None);
      var total := 6;
      objs := objs[0 := Some(Line(Point(CDiv(-c.max, 2), CDiv(-c.max, 2)), Point(CDiv(-c.max, 2), CDiv(c.max, 2))))];
      objs := objs[1 := Some(Line(Point(CDiv(-c.max, 2), CDiv(c.max, 2)), Point(CDiv(c.max, 2), CDiv(c.max, 2))))];
      objs := objs[2 := Some(Line(Point(CDiv(-c.max, 2), CDiv(c.max, 2)), Point(CDiv(-c.max, 4), CDiv(-c.max, 3))))];
      objs := objs[3 := Some(Line(Point(CDiv(-c.max, 4), CDiv(-c.max, 3)), Point(0, 0)))];
      objs := objs[4 := Some(Line(Point(0, 0), Point(CDiv(c.max, 4), CDiv(-c.max, 4))))];
      objs := objs[5 := Some(Line(Point(CDiv(c.max, 4), CDiv(-c.max, 4)), Point(CDiv(c.max, 2), CDiv(c.max, 4))))];
      Draw(Icon(objs, total, 0), vectorMap);
    }

    /** draw_bike: 11 primitives. */
    method DrawBike(c: Consts, vectorMap: MapValue)
      modifies this
      ensures Appended(old(drawn), drawn, vectorMap, [ArcKind, ArcKind, LineKind, LineKind, LineKind, LineKind, LineKind, LineKind, LineKind, LineKind, LineKind])
    {
      var objs: seq<Option<Primitive>> := seq(11, _ => None);
      var total := 11;
      objs := objs[0 := Some(Circle(Point(CDiv(-c.max, 4), 0), CDiv(c.max, 6), c.trig))];
      objs := objs[1 := Some(Circle(Point(CDiv(c.max, 4), 0), CDiv(c.max, 6), c.trig))];
      objs := objs[2 := Some(Line(Point(CDiv(-c.max, 4), 0), Point(0, 0)))];
      objs := objs[3 := Some(Line(Point(CDiv(-c.max, 4), 0), Point(CDiv(-c.max, 8), CDiv(-c.max, 4))))];
      objs := objs[4 := Some(Line(Point(0, 0), Point(CDiv(c.max * 1, 8), CDiv(-c.max, 4))))];
      objs := objs[5 := Some(Line(Point(CDiv(-c.max, 8), CDiv(-c.max, 4)), Point(CDiv(c.max * 1, 8), CDiv(-c.max, 4))))];
      objs := objs[6 := Some(Line(Point(CDiv(c.max, 4), 0), Point(CDiv(c.max * 1, 8), CDiv(-c.max, 4))))];
      objs := objs[7 := Some(Line(Point(CDiv(c.max * 1, 8), CDiv(-c.max * 3, 8)), Point(CDiv(c.max * 1, 8), CDiv(-c.max, 4))))];
      objs := objs[8 := Some(Line(Point(CDiv(-c.max * 3, 16), CDiv(-c.max * 5, 16)), Point(CDiv(-c.max * 1, 8), CDiv(-c.max, 4))))];
      objs := objs[9 := Some(Line(Point(CDiv(c.max * 1, 16), CDiv(-c.max * 3, 8)), Point(CDiv(c.max * 3, 16), CDiv(-c.max * 3, 8))))];
      objs := objs[10 := Some(Line(Point(CDiv(-c.max * 4, 16), CDiv(-c.max * 5, 16)), Point(CDiv(-c.max * 2, 16), CDiv(-c.max * 5, 16))))];
      Draw(Icon(objs, total, 0), vectorMap);
    }

    /** draw_mountain: 6 primitives. */
    method DrawMountain(c: Consts, vectorMap: MapValue)
      modifies this
      ensures Appended(old(drawn), drawn, vectorMap, [LineKind, LineKind, LineKind, LineKind, LineKind, FillKind])
    {
      var objs: seq<Option<Primitive>> := seq(6, _ => None);
      var total := 6;
      objs := objs[0 := Some(Line(Point(CDiv(-c.max, 2), CDiv(c.max, 2)), Point(CDiv(-c.max, 4), CDiv(-c.max, 3))))];
      objs := objs[1 := Some(Line(Point(CDiv(-c.max, 4), CDiv(-c.max, 3)), Point(0, 0)))];
      objs := objs[2 := Some(Line(Point(0, 0), Point(CDiv(c.max, 4), CDiv(-c.max, 4))))];
      objs := objs[3 := Some(Line(Point(CDiv(c.max, 4), CDiv(-c.max, 4)), Point(CDiv(c.max, 2), CDiv(c.max, 2))))];
      objs := objs[4 := Some(Line(Point(CDiv(-c.max, 2), CDiv(c.max, 2)), Point(CDiv(c.max, 2), CDiv(c.max, 2))))];
      objs := objs[5 := Some(Fill(Point(CDiv(c.max, 8), 0)))];
      Draw(Icon(objs, total, 0), vectorMap);
    }

    /** draw_compass: 6 primitives. */
    method DrawCompass(c: Consts, vectorMap: MapValue)
      modifies this
      ensures Appended(old(drawn), drawn, vectorMap, [LineKind, LineKind, LineKind, LineKind, LineKind, FillKind])
    {
      var objs: seq<Option<Primitive>> := seq(6, _ => None);
      var total := 6;
      objs := objs[0 := Some(Line(Point(CDiv(-c.max, 8), 0), Point(CDiv(c.max, 8), 0)))];
      objs := objs[1 := Some(Line(Point(CDiv(-c.max, 8), 0), Point(0, CDiv(-c.max, 4))))];
      objs := objs[2 := Some(Line(Point(CDiv(c.max, 8), 0), Point(0, CDiv(-c.max, 4))))];
      objs := objs[3 := Some(Line(Point(CDiv(-c.max, 8), 0), Point(0, CDiv(c.max, 4))))];
      objs := objs[4 := Some(Line(Point(CDiv(c.max, 8), 0), Point(0, CDiv(c.max, 4))))];
      objs := objs[5 := Some(Fill(Point(0, CDiv(-c.max, 8))))];
      Draw(Icon(objs, total, 0), vectorMap);
    }

    /** draw_compass_outer: 9 primitives. */
    method DrawCompassOuter(c: Consts, vectorMap: MapValue)
      modifies this
      ensures Appended(old(drawn), drawn, vectorMap, [ArcKind, LineKind, LineKind, LineKind, LineKind, LineKind, LineKind, LineKind, LineKind])
    {
      var objs: seq<Option<Primitive>> := seq(9, _ => None);
      var total := 9;
      objs := objs[0 := Some(Circle(Point(0, 0), CDiv(c.max * 4, 10), c.trig))];
      objs := objs[1 := Some(Line(Point(CDiv(c.max * 3, 10), 0), Point(CDiv(c.max * 5, 10), 0)))];
      objs := objs[2 := Some(Line(Point(CDiv(-c.max * 3, 10), 0), Point(CDiv(-c.max * 5, 10), 0)))];
      objs := objs[3 := Some(Line(Point(0, CDiv(-c.max * 3, 10)), Point(0, CDiv(-c.max * 5, 10))))];
      objs := objs[4 := Some(Line(Point(0, CDiv(c.max * 3, 10)), Point(0, CDiv(c.max * 5, 10))))];
      objs := objs[5 := Some(Line(Point(CDiv(c.max * 5, 20), CDiv(c.max * 5, 20)), Point(CDiv(c.max * 7, 20), CDiv(c.max * 7, 20))))];
      objs := objs[6 := Some(Line(Point(CDiv(-c.max * 5, 20), CDiv(c.max * 5, 20)), Point(CDiv(-c.max * 7, 20), CDiv(c.max * 7, 20))))];
      objs := objs[7 := Some(Line(Point(CDiv(c.max * 5, 20), CDiv(-c.max * 5, 20)), Point(CDiv(c.max * 7, 20), CDiv(-c.max * 7, 20))))];
      objs := objs[8 := Some(Line(Point(CDiv(-c.max * 5, 20), CDiv(-c.max * 5, 20)), Point(CDiv(-c.max * 7, 20), CDiv(-c.max * 7, 20))))];
      Draw(Icon(objs, total, 0), vectorMap);
    }

    /** draw_panel: 8 primitives. */
    method DrawPanel(c: Consts, vectorMap: MapValue)
      modifies this
      ensures Appended(old(drawn), drawn, vectorMap, [ArcKind, ArcKind, ArcKind, ArcKind, LineKind, LineKind, LineKind, LineKind])
    {
      var objs: seq<Option<Primitive>> := seq(8, _ => None);
      var total := 8;
      objs := objs[0 := Some(Arc(Point(CDiv(-c.max, 2) + CDiv(c.max, 16), CDiv(-c.max, 2) + CDiv(c.max, 16)), CDiv(c.max, 16), CDiv(c.max, 16), CDiv(c.trig, 2), CDiv(c.trig * 3, 4), 0))];
      objs := objs[1 := Some(Arc(Point(CDiv(-c.max, 2) + CDiv(c.max, 16), CDiv(c.max, 2) - CDiv(c.max, 16)), CDiv(c.max, 16), CDiv(c.max, 16), CDiv(c.trig, 4), CDiv(c.trig, 2), 0))];
      objs := objs[2 := Some(Arc(Point(CDiv(c.max, 2) - CDiv(c.max, 16), CDiv(-c.max, 2) + CDiv(c.max, 16)), CDiv(c.max, 16), CDiv(c.max, 16), CDiv(c.trig * 3, 4), c.trig, 0))];
      objs := objs[3 := Some(Arc(Point(CDiv(c.max, 2) - CDiv(c.max, 16), CDiv(c.max, 2) - CDiv(c.max, 16)), CDiv(c.max, 16), CDiv(c.max, 16), 0, CDiv(c.trig, 4), 0))];
      objs := objs[4 := Some(Line(Point(CDiv(-c.max, 2) + CDiv(c.max, 16), CDiv(-c.max, 2)), Point(CDiv(c.max, 2) - CDiv(c.max, 16), CDiv(-c.max, 2))))];
      objs := objs[5 := Some(Line(Point(CDiv(-c.max, 2) + CDiv(c.max, 16), CDiv(c.max, 2)), Point(CDiv(c.max, 2) - CDiv(c.max, 16), CDiv(c.max, 2))))];
      objs := objs[6 := Some(Line(Point(CDiv(-c.max, 2), CDiv(-c.max, 4) + CDiv(c.max, 16)), Point(CDiv(-c.max, 2), CDiv(c.max, 4) - CDiv(c.max, 16))))];
      objs := objs[7 := Some(Line(Point(CDiv(c.max, 2), CDiv(-c.max, 4) + CDiv(c.max, 16)), Point(CDiv(c.max, 2), CDiv(c.max, 4) - CDiv(c.max, 16))))];
      Draw(Icon(objs, total, 0), vectorMap);
    }

    /** draw_panel_fill: 9 primitives. */
    method DrawPanelFill(c: Consts, vectorMap: MapValue)
      modifies this
      ensures Appended(old(drawn), drawn, vectorMap, [ArcKind, ArcKind, ArcKind, ArcKind, LineKind, LineKind, LineKind, LineKind, FillKind])
    {
      var objs: seq<Option<Primitive>> := seq(9, _ => None);
      var total := 9;
      objs := objs[0 := Some(Arc(Point(CDiv(-c.max, 2) + CDiv(c.max, 16), CDiv(-c.max, 2) + CDiv(c.max, 16)), CDiv(c.max, 16), CDiv(c.max, 16), CDiv(c.trig, 2), CDiv(c.trig * 3, 4), 0))];
      objs := objs[1 := Some(Arc(Point(CDiv(-c.max, 2) + CDiv(c.max, 16), CDiv(c.max, 2) - CDiv(c.max, 16)), CDiv(c.max, 16), CDiv(c.max, 16), CDiv(c.trig, 4), CDiv(c.trig, 2), 0))];
      objs := objs[2 := Some(Arc(Point(CDiv(c.max, 2) - CDiv(c.max, 16), CDiv(-c.max, 2) + CDiv(c.max, 16)), CDiv(c.max, 16), CDiv(c.max, 16), CDiv(c.trig * 3, 4), c.trig, 0))];
      objs := objs[3 := Some(Arc(Point(CDiv(c.max, 2) - CDiv(c.max, 16), CDiv(c.max, 2) - CDiv(c.max, 16)), CDiv(c.max, 16), CDiv(c.max, 16), 0, CDiv(c.trig, 4), 0))];
      objs := objs[4 := Some(Line(Point(CDiv(-c.max, 2) + CDiv(c.max, 16), CDiv(-c.max, 2)), Point(CDiv(c.max, 2) - CDiv(c.max, 16), CDiv(-c.max, 2))))];
      objs := objs[5 := Some(Line(Point(CDiv(-c.max, 2) + CDiv(c.max, 16), CDiv(c.max, 2)), Point(CDiv(c.max, 2) - CDiv(c.max, 16), CDiv(c.max, 2))))];
      objs := objs[6 := Some(Line(Point(CDiv(-c.max, 2), CDiv(-c.max, 4) + CDiv(c.max, 16)), Point(CDiv(-c.max, 2), CDiv(c.max, 4) - CDiv(c.max, 16))))];
      objs := objs[7 := Some(Line(Point(CDiv(c.max, 2), CDiv(-c.max, 4) + CDiv(c.max, 16)), Point(CDiv(c.max, 2), CDiv(c.max, 4) - CDiv(c.max, 16))))];
      objs := objs[8 := Some(Fill(Point(0, 0)))];
      Draw(Icon(objs, total, 0), vectorMap);
    }

    /** draw_sun: 9 primitives. */
    method DrawSun(c: Consts, vectorMap: MapValue)
      modifies this
      ensures Appended(old(drawn), drawn, vectorMap, [ArcKind, LineKind, LineKind, LineKind, LineKind, LineKind, LineKind, LineKind, LineKind])
    {
      var objs: seq<Option<Primitive>> := seq(9, _ => None);
      var total := 9;
      objs := objs[0 := Some(Circle(Point(0, 0), CDiv(c.max * 2, 10), c.trig))];
      objs := objs[1 := Some(Line(Point(CDiv(c.max * 3, 10), 0), Point(CDiv(c.max * 5, 10), 0)))];
      objs := objs[2 := Some(Line(Point(CDiv(-c.max * 3, 10), 0), Point(CDiv(-c.max * 5, 10), 0)))];
      objs := objs[3 := Some(Line(Point(0, CDiv(-c.max * 3, 10)), Point(0, CDiv(-c.max * 5, 10))))];
      objs := objs[4 := Some(Line(Point(0, CDiv(c.max * 3, 10)), Point(0, CDiv(c.max * 5, 10))))];
      objs := objs[5 := Some(Line(Point(CDiv(c.max * 5, 20), CDiv(c.max * 5, 20)), Point(CDiv(c.max * 7, 20), CDiv(c.max * 7, 20))))];
      objs := objs[6 := Some(Line(Point(CDiv(-c.max * 5, 20), CDiv(c.max * 5, 20)), Point(CDiv(-c.max * 7, 20), CDiv(c.max * 7, 20))))];
      objs := objs[7 := Some(Line(Point(CDiv(c.max * 5, 20), CDiv(-c.max * 5, 20)), Point(CDiv(c.max * 7, 20), CDiv(-c.max * 7, 20))))];
      objs := objs[8 := Some(Line(Point(CDiv(-c.max * 5, 20), CDiv(-c.max * 5, 20)), Point(CDiv(-c.max * 7, 20), CDiv(-c.max * 7, 20))))];
      Draw(Icon(objs, total, 0), vectorMap);
    }

    /** draw_battery: 7 primitives. */
    method DrawBattery(c: Consts, vectorMap: MapValue)
      modifies this
      ensures Appended(old(drawn), drawn, vectorMap, [LineKind, LineKind, LineKind, LineKind, LineKind, LineKind, LineKind])
    {
      var objs: seq<Option<Primitive>> := seq(7, _ => None);
      var total := 7;
      objs := objs[0 := Some(Line(Point(CDiv(-c.max, 2), CDiv(-c.max, 4)), Point(CDiv(-c.max, 2), CDiv(c.max, 4))))];
      objs := objs[1 := Some(Line(Point(CDiv(-c.max, 2), CDiv(-c.max, 4)), Point(CDiv(c.max * 4, 10), CDiv(-c.max, 4))))];
      objs := objs[2 := Some(Line(Point(CDiv(-c.max, 2), CDiv(c.max, 4)), Point(CDiv(c.max * 4, 10), CDiv(c.max, 4))))];
      objs := objs[3 := Some(Line(Point(CDiv(c.max * 4, 10), CDiv(-c.max, 4)), Point(CDiv(c.max * 4, 10), CDiv(c.max, 4))))];
      objs := objs[4 := Some(Line(Point(CDiv(c.max * 4, 10), CDiv(c.max * 1, 10)), Point(CDiv(c.max * 5, 10), CDiv(c.max * 1, 10))))];
      objs := objs[5 := Some(Line(Point(CDiv(c.max * 4, 10), CDiv(-c.max * 1, 10)), Point(CDiv(c.max * 5, 10), CDiv(-c.max * 1, 10))))];
      objs := objs[6 := Some(Line(Point(CDiv(c.max * 5, 10), CDiv(-c.max * 1, 10)), Point(CDiv(c.max * 5, 10), CDiv(c.max * 1, 10))))];
      Draw(Icon(objs, total, 0), vectorMap);
    }

    /** draw_arrowhead: 4 primitives. */
    method DrawArrowhead(c: Consts, vectorMap: MapValue)
      modifies this
      ensures Appended(old(drawn), drawn, vectorMap, [LineKind, LineKind, LineKind, LineKind])
    {
      var objs: seq<Option<Primitive>> := seq(4, _ => None);
      var total := 4;
      objs := objs[0 := Some(Line(Point(0, CDiv(-c.max, 2)), Point(CDiv(c.max, 4), CDiv(c.max, 2))))];
      objs := objs[1 := Some(Line(Point(0, CDiv(-c.max, 2)), Point(CDiv(-c.max, 4), CDiv(c.max, 2))))];
      objs := objs[2 := Some(Line(Point(CDiv(c.max, 4), CDiv(c.max, 2)), Point(0, CDiv(c.max, 4))))];
      objs := objs[3 := Some(Line(Point(CDiv(-c.max, 4), CDiv(c.max, 2)), Point(0, CDiv(c.max, 4))))];
      Draw(Icon(objs, total, 0), vectorMap);
    }

    /** draw_dot: 1 primitive. */
    method DrawDot(c: Consts, vectorMap: MapValue)
      modifies this
      ensures Appended(old(drawn), drawn, vectorMap, [ArcKind])
    {
      var objs: seq<Option<Primitive>> := seq(1, _ => None);
      var total := 1;
      objs := objs[0 := Some(Circle(Point(0, 0), CDiv(c.max * 1, 10), c.trig))];
      Draw(Icon(objs, total, 0), vectorMap);
    }

    /** draw_dash: 1 primitive. */
    method DrawDash(c: Consts, vectorMap: MapValue)
      modifies this
      ensures Appended(old(drawn), drawn, vectorMap, [LineKind])
    {
      var objs: seq<Option<Primitive>> := seq(1, _ => None);
      var total := 1;
      objs := objs[0 := Some(Line(Point(CDiv(-c.max, 4), 0), Point(CDiv(c.max, 4), 0)))];
      Draw(Icon(objs, total, 0), vectorMap);
    }

    /** draw_message: 6 primitives. */
    method DrawMessage(c: Consts, vectorMap: MapValue)
      modifies this
      ensures Appended(old(drawn), drawn, vectorMap, [LineKind, LineKind, LineKind, LineKind, LineKind, LineKind])
    {
      var objs: seq<Option<Primitive>> := seq(6, _ => None);
      var total := 6;
      objs := objs[0 := Some(Line(Point(CDiv(-c.max, 2), CDiv(-c.max, 4)), Point(CDiv(c.max, 2), CDiv(-c.max, 4))))];
      objs := objs[1 := Some(Line(Point(CDiv(-c.max, 2), CDiv(c.max, 4)), Point(CDiv(c.max, 2), CDiv(c.max, 4))))];
      objs := objs[2 := Some(Line(Point(CDiv(c.max, 2), CDiv(-c.max, 4)), Point(CDiv(c.max, 2), CDiv(c.max, 4))))];
      objs := objs[3 := Some(Line(Point(CDiv(-c.max, 2), CDiv(-c.max, 4)), Point(CDiv(-c.max, 2), CDiv(c.max, 4))))];
      objs := objs[4 := Some(Line(Point(CDiv(-c.max, 2), CDiv(-c.max, 4)), Point(0, 0)))];
      objs := objs[5 := Some(Line(Point(0, 0), Point(CDiv(c.max, 2), CDiv(-c.max, 4))))];
      Draw(Icon(objs, total, 0), vectorMap);
    }

    /**
     * The glyphs A to F of draw_ALPHA, each written over the one before it
     * in the six-slot table; none of them is drawn.
     */
    static method AlphaGlyphsAToF(c: Consts, table: seq<Option<Primitive>>) returns (objs: seq<Option<Primitive>>, total: nat)
      requires |table| == 6
      ensures |objs| == 6 && total == 3
    {
      objs := table;
      // A
      total := 3;
      objs := objs[0 := Some(Line(Point(CDiv(-c.max, 4), CDiv(c.max, 2)), Point(0, CDiv(-c.max, 2))))];
      objs := objs[1 := Some(Line(Point(CDiv(c.max, 4), CDiv(c.max, 2)), Point(0, CDiv(-c.max, 2))))];
      objs := objs[2 := Some(Line(Point(CDiv(-c.max, 8), 0), Point(CDiv(c.max, 8), 0)))];
      // B
      total := 6;
      // C
      total := 3;
      objs := objs[0 := Some(Line(Point(CDiv(-c.max, 4), CDiv(-c.max, 4)), Point(CDiv(-c.max, 4), CDiv(c.max, 4))))];
      objs := objs[1 := Some(Arc(Point(0, CDiv(c.max, 4)), CDiv(c.max, 4), 0, 0, CDiv(c.trig, 2), 0))];
      objs := objs[2 := Some(Arc(Point(0, CDiv(-c.max, 4)), CDiv(c.max, 4), CDiv(c.max, 4), CDiv(c.trig, 2), c.trig, 0))];
      // D
      total := 2;
      // E
      total := 4;
      objs := objs[0 := Some(Line(Point(CDiv(-c.max, 4), CDiv(c.max, 2)), Point(CDiv(c.max, 4), CDiv(c.max, 2))))];
      objs := objs[1 := Some(Line(Point(CDiv(-c.max, 4), 0), Point(0, 0)))];
      objs := objs[2 := Some(Line(Point(CDiv(-c.max, 4), CDiv(-c.max, 2)), Point(CDiv(c.max, 4), CDiv(-c.max, 2))))];
      objs := objs[3 := Some(Line(Point(CDiv(-c.max, 4), CDiv(-c.max, 2)), Point(CDiv(-c.max, 4), CDiv(c.max, 2))))];
      // F
      total := 3;
      objs := objs[0 := Some(Line(Point(CDiv(-c.max, 4), CDiv(-c.max, 2)), Point(CDiv(c.max, 4), CDiv(-c.max, 2))))];
      objs := objs[1 := Some(Line(Point(CDiv(-c.max, 4), 0), Point(0, 0)))];
      objs := objs[2 := Some(Line(Point(CDiv(-c.max, 4), CDiv(-c.max, 2)), Point(CDiv(-c.max, 4), CDiv(c.max, 2))))];
    }

    /**
     * The glyphs G to L of draw_ALPHA, each written over the one before it
     * in the six-slot table; none of them is drawn.
     */
    static method AlphaGlyphsGToL(c: Consts, table: seq<Option<Primitive>>) returns (objs: seq<Option<Primitive>>, total: nat)
      requires |table| == 6
      ensures |objs| == 6 && total == 2
    {
      objs := table;
      // G
      total := 5;
      // H
      total := 3;
      objs := objs[0 := Some(Line(Point(CDiv(-c.max, 4), 0), Point(CDiv(c.max, 4), 0)))];
      objs := objs[1 := Some(Line(Point(CDiv(c.max, 4), CDiv(-c.max, 2)), Point(CDiv(c.max, 4), CDiv(c.max, 2))))];
      objs := objs[2 := Some(Line(Point(CDiv(-c.max, 4), CDiv(-c.max, 2)), Point(CDiv(-c.max, 4), CDiv(c.max, 2))))];
      // I
      total := 3;
      objs := objs[0 := Some(Line(Point(CDiv(-c.max, 4), CDiv(-c.max, 2)), Point(CDiv(c.max, 4), CDiv(-c.max, 2))))];
      objs := objs[1 := Some(Line(Point(CDiv(-c.max, 4), CDiv(c.max, 2)), Point(CDiv(c.max, 4), CDiv(c.max, 2))))];
      objs := objs[2 := Some(Line(Point(0, CDiv(-c.max, 2)), Point(0, CDiv(c.max, 2))))];
      // J
      total := 2;
      // K
      total := 3;
      objs := objs[0 := Some(Line(Point(CDiv(-c.max, 4), CDiv(-c.max, 2)), Point(CDiv(-c.max, 4), CDiv(c.max, 2))))];
      objs := objs[1 := Some(Line(Point(CDiv(-c.max, 4), 0), Point(CDiv(c.max, 4), CDiv(c.max, 2))))];
      objs := objs[2 := Some(Line(Point(CDiv(-c.max, 4), 0), Point(CDiv(c.max, 4), CDiv(-c.max, 2))))];
      // L
      total := 2;
      objs := objs[0 := Some(Line(Point(CDiv(-c.max, 4), CDiv(-c.max, 2)), Point(CDiv(-c.max, 4), CDiv(c.max, 2))))];
      objs := objs[1 := Some(Line(Point(CDiv(-c.max, 4), CDiv(c.max, 2)), Point(CDiv(c.max, 4), CDiv(c.max, 2))))];
    }

    /**
     * The glyphs M to R of draw_ALPHA, each written over the one before it
     * in the six-slot table; none of them is drawn.
     */
    static method AlphaGlyphsMToR(c: Consts, table: seq<Option<Primitive>>) returns (objs: seq<Option<Primitive>>, total: nat)
      requires |table| == 6
      ensures |objs| == 6 && total == 5
    {
      objs := table;
      // M
      total := 4;
      objs := objs[0 := Some(Line(Point(CDiv(-c.max, 4), CDiv(c.max, 2)), Point(CDiv(-c.max, 4), CDiv(-c.max, 2))))];
      objs := objs[1 := Some(Line(Point(CDiv(c.max, 4), CDiv(c.max, 2)), Point(CDiv(c.max, 4), CDiv(-c.max, 2))))];
      objs := objs[2 := Some(Line(Point(CDiv(-c.max, 4), CDiv(-c.max, 2)), Point(0, CDiv(c.max, 4))))];
      objs := objs[3 := Some(Line(Point(CDiv(c.max, 4), CDiv(-c.max, 2)), Point(0, CDiv(c.max, 4))))];
      // N
      total := 3;
      objs := objs[0 := Some(Line(Point(CDiv(-c.max, 4), CDiv(c.max, 2)), Point(CDiv(-c.max, 4), CDiv(-c.max, 2))))];
      objs := objs[1 := Some(Line(Point(CDiv(c.max, 4), CDiv(c.max, 2)), Point(CDiv(c.max, 4), CDiv(-c.max, 2))))];
      objs := objs[2 := Some(Line(Point(CDiv(-c.max, 4), CDiv(-c.max, 2)), Point(CDiv(c.max, 4), CDiv(c.max, 2))))];
      // O
      total := 4;
      objs := objs[0 := Some(Line(Point(CDiv(-c.max, 4), CDiv(-c.max, 4)), Point(CDiv(-c.max, 4), CDiv(c.max, 4))))];
      objs := objs[1 := Some(Line(Point(CDiv(c.max, 4), CDiv(-c.max, 4)), Point(CDiv(c.max, 4), CDiv(c.max, 4))))];
      objs := objs[2 := Some(Arc(Point(0, CDiv(c.max, 4)), CDiv(c.max, 4), CDiv(c.max, 4), 0, CDiv(c.trig, 2), 0))];
      objs := objs[3 := Some(Arc(Point(0, CDiv(-c.max, 4)), CDiv(c.max, 4), CDiv(c.max, 4), CDiv(c.trig, 2), c.trig, 0))];
      // P
      total := 4;
      objs := objs[0 := Some(Line(Point(CDiv(-c.max, 4), CDiv(-c.max, 2)), Point(CDiv(-c.max, 4), CDiv(c.max, 2))))];
      objs := objs[1 := Some(Line(Point(CDiv(-c.max, 4), CDiv(-c.max, 2)), Point(0, CDiv(-c.max, 2))))];
      objs := objs[2 := Some(Line(Point(CDiv(-c.max, 4), 0), Point(0, 0)))];
      objs := objs[3 := Some(Arc(Point(0, CDiv(-c.max, 4)), CDiv(c.max, 4), CDiv(c.max, 4), CDiv(c.trig * 3, 4), CDiv(c.trig * 5, 4), 0))];
      // Q
      total := 5;
      objs := objs[0 := Some(Line(Point(CDiv(-c.max, 4), CDiv(-c.max, 4)), Point(CDiv(-c.max, 4), CDiv(c.max, 4))))];
      objs := objs[1 := Some(Line(Point(CDiv(c.max, 4), CDiv(-c.max, 4)), Point(CDiv(c.max, 4), CDiv(c.max, 4))))];
      objs := objs[2 := Some(Arc(Point(0, CDiv(c.max, 4)), CDiv(c.max, 4), CDiv(c.max, 4), 0, CDiv(c.trig, 2), 0))];
      objs := objs[3 := Some(Arc(Point(0, CDiv(-c.max, 4)), CDiv(c.max, 4), CDiv(c.max, 4), CDiv(c.trig, 2), c.trig, 0))];
      objs := objs[4 := Some(Line(Point(CDiv(c.max, 4), CDiv(c.max, 4)), Point(CDiv(c.max, 4), CDiv(c.max, 2))))];
      // R
      total := 5;
      objs := objs[0 := Some(Line(Point(CDiv(-c.max, 4), CDiv(-c.max, 2)), Point(CDiv(-c.max, 4), CDiv(c.max, 2))))];
      objs := objs[1 := Some(Line(Point(CDiv(-c.max, 4), CDiv(-c.max, 2)), Point(0, CDiv(-c.max, 2))))];
      objs := objs[2 := Some(Line(Point(CDiv(-c.max, 4), 0), Point(0, 0)))];
      objs := objs[3 := Some(Arc(Point(0, CDiv(-c.max, 4)), CDiv(c.max, 4), CDiv(c.max, 4), CDiv(c.trig * 3, 4), CDiv(c.trig * 5, 4), 0))];
      objs := objs[4 := Some(Line(Point(0, 0), Point(CDiv(c.max, 4), CDiv(c.max, 2))))];
    }

    /**
     * draw_ALPHA: fills the glyphs A to S one after another in the same
     * six-slot table, but only S is drawn; the function returns before the
     * T to Z glyphs.
     */
    method DrawAlpha(c: Consts, vectorMap: MapValue)
      modifies this
      ensures Appended(old(drawn), drawn, vectorMap, [ArcKind, ArcKind])
    {
      var objs: seq<Option<Primitive>> := seq(6, _ => None);
      var total;
      objs, total := AlphaGlyphsAToF(c, objs);
      objs, total := AlphaGlyphsGToL(c, objs);
      objs, total := AlphaGlyphsMToR(c, objs);
      // S
      total := 2;
      objs := objs[0 := Some(Arc(Point(0, CDiv(-c.max, 4)), CDiv(c.max, 4), CDiv(c.max, 4), CDiv(c.trig, 4), c.trig, 0))];
      objs := objs[1 := Some(Arc(Point(0, CDiv(c.max, 4)), CDiv(c.max, 4), CDiv(c.max, 4), CDiv(c.trig * 3, 4), CDiv(c.trig * 3, 2), 0))];
      Draw(Icon(objs, total, 0), vectorMap);
      return;
    }
  }
}
