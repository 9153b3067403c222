/**
 * Regions of interest drawn over the video (Annotations.swift): circles,
 * ellipses and rectangles built from the two points of a mouse drag, their
 * closed containment tests, and the pixels a rectangle covers.  Coordinates
 * are reals in the view's relative space; drawing is not modelled.
 */
module Annotations {

  datatype Point = Point(x: real, y: real)

  datatype Size = Size(width: real, height: real)

  datatype Rect = Rect(origin: Point, size: Size)

  /** The palette the viewer cycles through. */
  datatype Color = Orange | Blue | Green | Yellow | Red | Gray

  /** The kinds of annotation the viewer can draw. */
  datatype Shape = CircleShape | EllipseShape | RectangleShape

  /**
   * An annotation.  A circle keeps the square of its radius: the source's
   * radius is the square root of that, and `distance <= radius` holds
   * exactly when the squared distance is at most the squared radius.
   */
  datatype Annotation =
    | Circle(id: int, name: string, center: Point, radiusSquared: real, color: Color)
    | Ellipse(id: int, name: string, origin: Point, size: Size, color: Color)
    | Rectangle(id: int, name: string, origin: Point, size: Size, color: Color)

  function Min(a: real, b: real): real { if a <= b then a else b }

  function Max(a: real, b: real): real { if a <= b then b else a }

  function SquaredDistance(a: Point, b: Point): real
  {
    (a.x - b.x) * (a.x - b.x) + (a.y - b.y) * (a.y - b.y)
  }

  /** The closed box test of `AnnotationRectangle.containsPoint`. */
  predicate InBox(origin: Point, size: Size, p: Point)
  {
    var dx, dy := p.x - origin.x, p.y - origin.y;
    0.0 <= dx && 0.0 <= dy && size.width >= dx && size.height >= dy
  }

  /**
   * The box spanned by two drag points (the ellipse and rectangle
   * initialisers): origin at the componentwise minimum, size up to the
   * maximum.  It is the smallest box holding both points.
   */
  function Span(a: Point, b: Point): (r: Rect)
    ensures r.size.width >= 0.0 && r.size.height >= 0.0
    ensures InBox(r.origin, r.size, a) && InBox(r.origin, r.size, b)
    ensures r.origin.x == a.x || r.origin.x == b.x
    ensures r.origin.y == a.y || r.origin.y == b.y
    ensures r.origin.x + r.size.width == a.x || r.origin.x + r.size.width == b.x
    ensures r.origin.y + r.size.height == a.y || r.origin.y + r.size.height == b.y
  {
    var origin := Point(Min(a.x, b.x), Min(a.y, b.y));
    Rect(origin, Size(Max(a.x, b.x) - origin.x, Max(a.y, b.y) - origin.y))
  }

  /** The order of the drag points does not matter to a box. */
  lemma SpanIsSymmetric(a: Point, b: Point)
    ensures Span(a, b) == Span(b, a)
  {
  }

  /** The three initialisers, given the id they take from the counter. */
  function Make(shape: Shape, id: int, a: Point, b: Point, color: Color): (r: Annotation)
    ensures r.id == id && r.color == color
    ensures r.Circle? <==> shape == CircleShape
    ensures r.Ellipse? <==> shape == EllipseShape
    ensures r.Rectangle? <==> shape == RectangleShape
  {
    match shape
    case CircleShape => Circle(id, "ROI (circle)", a, SquaredDistance(a, b), color)
    case EllipseShape => var box := Span(a, b); Ellipse(id, "ROI (ellipse)", box.origin, box.size, color)
    case RectangleShape => var box := Span(a, b); Rectangle(id, "ROI (rect)", box.origin, box.size, color)
  }

  /**
   * `AnnotationEllipse.containsPoint`: the point, normalised by the half
   * sizes around the centre, lies in the closed unit disc.  A zero width or
   * height divides by zero; the quotient is then infinite or not a number
   * and the comparison fails, so a flat ellipse contains no point.
   */
  predicate InEllipse(origin: Point, size: Size, p: Point)
  {
    if size.width == 0.0 || size.height == 0.0 then false
    else
      var hw, hh := size.width / 2.0, size.height / 2.0;
      var center := Point(origin.x + hw, origin.y + hh);
      var x, y := (p.x - center.x) / hw, (p.y - center.y) / hh;
      x * x + y * y <= 1.0
  }

  /** `containsPoint` of each kind. */
  predicate ContainsPoint(annot: Annotation, p: Point)
  {
    match annot
    case Circle(_, _, center, radiusSquared, _) => SquaredDistance(p, center) <= radiusSquared
    case Ellipse(_, _, origin, size, _) => InEllipse(origin, size, p)
    case Rectangle(_, _, origin, size, _) => InBox(origin, size, p)
  }

  /** A circle contains its centre and has the end of the drag on its rim. */
  lemma CircleHoldsDragPoints(id: int, a: Point, b: Point, color: Color)
    ensures var c := Make(CircleShape, id, a, b, color);
      c.radiusSquared >= 0.0 && SquaredDistance(b, c.center) == c.radiusSquared &&
      ContainsPoint(c, a) && ContainsPoint(c, b)
  {
    SquaresAreNonNegative(a.x - b.x, a.y - b.y);
  }

  lemma SquaresAreNonNegative(u: real, v: real)
    ensures u * u + v * v >= 0.0
  {
    if u < 0.0 { assert u * u == (-u) * (-u); }
    if v < 0.0 { assert v * v == (-v) * (-v); }
  }

  /** A rectangle contains both drag points and, like its box, does not depend on their order. */
  lemma RectangleHoldsDragPoints(id: int, a: Point, b: Point, color: Color, p: Point)
    ensures ContainsPoint(Make(RectangleShape, id, a, b, color), a)
    ensures ContainsPoint(Make(RectangleShape, id, a, b, color), b)
    ensures ContainsPoint(Make(RectangleShape, id, a, b, color), p) <==> ContainsPoint(Make(RectangleShape, id, b, a, color), p)
  {
    SpanIsSymmetric(a, b);
  }

  /** Every point of an ellipse lies in the box of its drag points. */
  lemma EllipseInsideItsBox(id: int, a: Point, b: Point, color: Color, p: Point)
    requires ContainsPoint(Make(EllipseShape, id, a, b, color), p)
    ensures InBox(Span(a, b).origin, Span(a, b).size, p)
  {
    var box := Span(a, b);
    var hw, hh := box.size.width / 2.0, box.size.height / 2.0;
    var x, y := (p.x - (box.origin.x + hw)) / hw, (p.y - (box.origin.y + hh)) / hh;
    SquaresAreNonNegative(x, 0.0);
    SquaresAreNonNegative(y, 0.0);
    UnitSquare(x);
    UnitSquare(y);
    ScaledBound(p.x - (box.origin.x + hw), hw);
    ScaledBound(p.y - (box.origin.y + hh), hh);
  }

  /** The centre of an ellipse that is not flat is inside it. */
  lemma EllipseHoldsItsCentre(origin: Point, size: Size)
    requires size.width > 0.0 && size.height > 0.0
    ensures InEllipse(origin, size, Point(origin.x + size.width / 2.0, origin.y + size.height / 2.0))
  {
  }

  lemma UnitSquare(x: real)
    requires x * x <= 1.0
    ensures -1.0 <= x <= 1.0
  {
  }

  lemma ScaledBound(d: real, h: real)
    requires h > 0.0 && -1.0 <= d / h <= 1.0
    ensures -h <= d <= h
  {
    var q := d / h;
    assert d == q * h;
    ProductIsNonNegative(1.0 - q, h);
    ProductIsNonNegative(q + 1.0, h);
    assert (1.0 - q) * h == h - q * h;
    assert (q + 1.0) * h == q * h + h;
  }

  lemma ProductIsNonNegative(a: real, b: real)
    requires a >= 0.0 && b >= 0.0
    ensures a * b >= 0.0
  {
  }

  /** Swift's `Int(_:)` on a floating-point value: truncation toward zero. */
  function Truncate(r: real): (t: int)
    ensures 0.0 <= r ==> t as real <= r < t as real + 1.0
    ensures r < 0.0 ==> t as real - 1.0 < r <= t as real
  {
    if r >= 0.0 then r.Floor else -((-r).Floor)
  }

  /** The integer pixel box of a rectangle in an image `rect`, scaled by the image's larger side. */
  datatype PixelBox = PixelBox(x: int, y: int, width: int, height: int)

  function ImageBox(origin: Point, size: Size, rect: Rect): PixelBox
  {
    var maxDim := Max(rect.size.width, rect.size.height);
    PixelBox(Truncate(origin.x * maxDim - rect.origin.x), Truncate(origin.y * maxDim - rect.origin.y),
             Truncate(size.width * maxDim), Truncate(size.height * maxDim))
  }

  /** The pixels of column `x`, rows `y0` to `y0 + h - 1`. */
  function Column(x: int, y0: int, h: nat): seq<(int, int)>
  {
    seq(h, j => (x, y0 + j))
  }

  /** The pixels of `[x0, x0 + w) x [y0, y0 + h)`, column by column, top to bottom within a column. */
  function Grid(x0: int, y0: int, w: nat, h: nat): seq<(int, int)>
  {
    if w == 0 then [] else Grid(x0, y0, w - 1, h) + Column(x0 + w - 1, y0, h)
  }

  lemma {:induction false} GridLength(x0: int, y0: int, w: nat, h: nat)
    ensures |Grid(x0, y0, w, h)| == w * h
  {
    if w > 0 {
      GridLength(x0, y0, w - 1, h);
      assert (w - 1) * h + h == w * h;
    }
  }

  /** The pixel at position `i * h + j` is `(x0 + i, y0 + j)`: columns in order, rows in order within each. */
  lemma {:induction false} GridOrder(x0: int, y0: int, w: nat, h: nat, i: nat, j: nat)
    requires i < w && j < h
    ensures i * h + j < |Grid(x0, y0, w, h)|
    ensures Grid(x0, y0, w, h)[i * h + j] == (x0 + i, y0 + j)
  {
    GridLength(x0, y0, w - 1, h);
    GridLength(x0, y0, w, h);
    if i < w - 1 {
      LowerColumnsFirst(i, j, w - 1, h);
      GridOrder(x0, y0, w - 1, h, i, j);
    } else {
      assert i * h + j == (w - 1) * h + j;
    }
  }

  lemma LowerColumnsFirst(i: nat, j: nat, w: nat, h: nat)
    requires i < w && j < h
    ensures i * h + j < w * h
  {
    assert i * h + j < i * h + h == (i + 1) * h <= w * h;
  }

  /** A pixel is listed exactly when it lies in the half-open box. */
  lemma {:induction false} GridMembership(x0: int, y0: int, w: nat, h: nat, p: (int, int))
    ensures p in Grid(x0, y0, w, h) <==> x0 <= p.0 < x0 + w && y0 <= p.1 < y0 + h
  {
    if w > 0 {
      GridMembership(x0, y0, w - 1, h, p);
      if p.0 == x0 + w - 1 && y0 <= p.1 < y0 + h {
        assert Column(x0 + w - 1, y0, h)[p.1 - y0] == p;
      }
    }
  }

  /**
   * `AnnotationRectangle.generateImageCoordinates`.  A range whose end is
   * below its start traps in Swift: the outer range needs a pixel width that
   * is not negative, and the inner one, formed only when the outer range has
   * an element, a height that is not negative.
   */
  method GenerateImageCoordinates(annot: Annotation, rect: Rect) returns (ret: seq<(int, int)>)
    requires annot.Rectangle?
    requires var box := ImageBox(annot.origin, annot.size, rect);
      box.width >= 0 && (box.width > 0 ==> box.height >= 0)
    ensures var box := ImageBox(annot.origin, annot.size, rect);
      ret == if box.width == 0 then [] else Grid(box.x, box.y, box.width, box.height)
  {
    var box := ImageBox(annot.origin, annot.size, rect);
    ret := [];
    var x := box.x;
    while x < box.x + box.width
      invariant box.x <= x <= box.x + box.width
      invariant ret == if x == box.x then [] else Grid(box.x, box.y, x - box.x, box.height)
    {
      var y := box.y;
      while y < box.y + box.height
        invariant box.y <= y <= box.y + box.height
        invariant ret == Grid(box.x, box.y, x - box.x, box.height) + seq(y - box.y, j => (x, box.y + j))
      {
        ret := ret + [(x, y)];
        y := y + 1;
      }
      x := x + 1;
    }
  }

  /** The global `nextId` counter the initialisers draw from (AnnotableViewer.swift line 12). */
  class IdCounter {
    var nextId: int

    constructor()
      ensures nextId == 1
    {
      nextId := 1;
    }

    /** `++nextId`. */
    method Allocate() returns (id: int)
      modifies this
      ensures id == old(nextId) + 1 && nextId == id
    {
      nextId := nextId + 1;
      id := nextId;
    }
  }

  /** `init(startPoint:endPoint:color:)` of the chosen kind, taking a fresh id. */
  method New(shape: Shape, a: Point, b: Point, color: Color, ids: IdCounter) returns (annot: Annotation)
    modifies ids
    ensures ids.nextId == old(ids.nextId) + 1
    ensures annot == Make(shape, ids.nextId, a, b, color)
  {
    var id := ids.Allocate();
    annot := Make(shape, id, a, b, color);
  }

  /** The first two annotations made from a fresh counter get ids 2 and 3. */
  method FirstIds(a: Point, b: Point) returns (first: Annotation, second: Annotation)
    ensures first.id == 2 && second.id == 3
  {
    var ids := new IdCounter();
    first := New(RectangleShape, a, b, Orange, ids);
    second := New(CircleShape, a, b, Blue, ids);
  }
}
