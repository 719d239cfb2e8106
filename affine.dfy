/**
 * CGAffineTransform with CGFloat as `real`, enough of it to derive the
 * y-flip both annotators build, `CGAffineTransform(scaleX: 1, y: -1)
 * .translatedBy(x: 0, y: -H)`, from Core Graphics' own conventions rather
 * than stating the flip as a definition.
 */
module Affine {
  import opened Geometry

  /** The matrix [a b 0; c d 0; tx ty 1] acting on row vectors [x y 1]. */
  datatype Transform = Transform(a: real, b: real, c: real, d: real, tx: real, ty: real)

  /** CGPoint.applying(_:). */
  function Apply(t: Transform, p: Point): Point
  {
    Point(t.a * p.x + t.c * p.y + t.tx, t.b * p.x + t.d * p.y + t.ty)
  }

  /** CGAffineTransform(scaleX:y:). */
  function Scale(sx: real, sy: real): Transform { Transform(sx, 0.0, 0.0, sy, 0.0, 0.0) }

  /** CGAffineTransform(translationX:y:). */
  function Translation(tx: real, ty: real): Transform { Transform(1.0, 0.0, 0.0, 1.0, tx, ty) }

  /** t1.concatenating(t2): the matrix product t1 * t2, which applies t1 first. */
  function Concat(t1: Transform, t2: Transform): Transform
  {
    Transform(
      t1.a * t2.a + t1.b * t2.c, t1.a * t2.b + t1.b * t2.d,
      t1.c * t2.a + t1.d * t2.c, t1.c * t2.b + t1.d * t2.d,
      t1.tx * t2.a + t1.ty * t2.c + t2.tx, t1.tx * t2.b + t1.ty * t2.d + t2.ty)
  }

  lemma ConcatApply(t1: Transform, t2: Transform, p: Point)
    ensures Apply(Concat(t1, t2), p) == Apply(t2, Apply(t1, p))
  {
    var t, q := Concat(t1, t2), Apply(t1, p);
    RowProduct(t1, t2.a, t2.c, t2.tx, p);
    RowProduct(t1, t2.b, t2.d, t2.ty, p);
    assert Apply(t, p).x == Apply(t2, q).x;
    assert Apply(t, p).y == Apply(t2, q).y;
  }

  /** One coordinate of the product: column (u, v, w) of t2 against t1 applied to p. */
  lemma RowProduct(t1: Transform, u: real, v: real, w: real, p: Point)
    ensures u * (t1.a * p.x + t1.c * p.y + t1.tx) + v * (t1.b * p.x + t1.d * p.y + t1.ty) + w ==
      (t1.a * u + t1.b * v) * p.x + (t1.c * u + t1.d * v) * p.y + (t1.tx * u + t1.ty * v + w)
  {
    var x, y := p.x, p.y;
    assert u * (t1.a * x + t1.c * y + t1.tx) == t1.a * u * x + t1.c * u * y + t1.tx * u;
    assert v * (t1.b * x + t1.d * y + t1.ty) == t1.b * v * x + t1.d * v * y + t1.ty * v;
    assert (t1.a * u + t1.b * v) * x == t1.a * u * x + t1.b * v * x;
    assert (t1.c * u + t1.d * v) * y == t1.c * u * y + t1.d * v * y;
  }

  /**
   * t.translatedBy(x:y:): Translation(tx, ty) concatenated with t, so the
   * translation happens in t's own coordinate space, before t.
   */
  function TranslatedBy(t: Transform, tx: real, ty: real): Transform
  {
    Concat(Translation(tx, ty), t)
  }

  /**
   * CGRect.applying(_:): the smallest axis-aligned rectangle holding the
   * four transformed corners.
   */
  function ApplyToRect(t: Transform, r: Rect): (o: Rect)
    ensures HasNonNegativeSize(o)
  {
    var x0, x1 := r.origin.x, r.origin.x + r.size.width;
    var y0, y1 := r.origin.y, r.origin.y + r.size.height;
    var p00, p10 := Apply(t, Point(x0, y0)), Apply(t, Point(x1, y0));
    var p01, p11 := Apply(t, Point(x0, y1)), Apply(t, Point(x1, y1));
    var minX := Min(Min(p00.x, p10.x), Min(p01.x, p11.x));
    var maxX := Max(Max(p00.x, p10.x), Max(p01.x, p11.x));
    var minY := Min(Min(p00.y, p10.y), Min(p01.y, p11.y));
    var maxY := Max(Max(p00.y, p10.y), Max(p01.y, p11.y));
    Rect(Point(minX, minY), Size(maxX - minX, maxY - minY))
  }

  /** The transform both annotators use to turn Vision's bottom-left origin into UIKit's top-left one. */
  function Flip(height: real): Transform
  {
    TranslatedBy(Scale(1.0, -1.0), 0.0, -height)
  }

  /** The flip maps (x, y) to (x, H - y). */
  lemma FlipPoint(height: real, p: Point)
    ensures Apply(Flip(height), p) == Point(p.x, height - p.y)
  {
    ConcatApply(Translation(0.0, -height), Scale(1.0, -1.0), p);
  }

  /** Flipping twice about the same height gives the point back. */
  lemma FlipInvolution(height: real, p: Point)
    ensures Apply(Flip(height), Apply(Flip(height), p)) == p
  {
    FlipPoint(height, p);
    FlipPoint(height, Apply(Flip(height), p));
  }

  /**
   * On a rectangle the flip keeps the width and height and moves the
   * bottom edge y + h to the top edge H - (y + h).
   */
  lemma FlipRect(height: real, r: Rect)
    ensures ApplyToRect(Flip(height), r) == Rect(Point(MinX(r), height - MaxY(r)), Size(Width(r), Height(r)))
  {
    var x0, x1 := r.origin.x, r.origin.x + r.size.width;
    var y0, y1 := r.origin.y, r.origin.y + r.size.height;
    FlipPoint(height, Point(x0, y0));
    FlipPoint(height, Point(x1, y0));
    FlipPoint(height, Point(x0, y1));
    FlipPoint(height, Point(x1, y1));
  }

  /** Flipping a rectangle twice gives back its standardized form. */
  lemma FlipRectRoundTrip(height: real, r: Rect)
    ensures ApplyToRect(Flip(height), ApplyToRect(Flip(height), r)) == Standardized(r)
  {
    FlipRect(height, r);
    FlipRect(height, ApplyToRect(Flip(height), r));
  }
}
