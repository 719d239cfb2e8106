/**
 * Core Graphics geometry with CGFloat modelled as `real`: points, sizes,
 * rectangles and the helpers the emoji annotator adds to them
 * (`centerPoint`, `centeredOn`, `rotationDegreesTo`).
 */
module Geometry {
  import opened Wrappers

  datatype Point = Point(x: real, y: real)
  datatype Size = Size(width: real, height: real)
  datatype Rect = Rect(origin: Point, size: Size)

  const Origin: Point := Point(0.0, 0.0)

  function Abs(x: real): real { if x < 0.0 then -x else x }
  function Min(a: real, b: real): real { if a <= b then a else b }
  function Max(a: real, b: real): real { if a <= b then b else a }

  /* CGRect's accessors (minX, width, midX, ...) look at the standardized
     rectangle, so a negative size.width counts as a positive width. */
  function MinX(r: Rect): real { Min(r.origin.x, r.origin.x + r.size.width) }
  function MaxX(r: Rect): real { Max(r.origin.x, r.origin.x + r.size.width) }
  function MinY(r: Rect): real { Min(r.origin.y, r.origin.y + r.size.height) }
  function MaxY(r: Rect): real { Max(r.origin.y, r.origin.y + r.size.height) }
  function Width(r: Rect): real { Abs(r.size.width) }
  function Height(r: Rect): real { Abs(r.size.height) }
  function Center(r: Rect): Point { Point((MinX(r) + MaxX(r)) / 2.0, (MinY(r) + MaxY(r)) / 2.0) }

  predicate HasNonNegativeSize(r: Rect) { r.size.width >= 0.0 && r.size.height >= 0.0 }

  /** CGRect.standardized: the same area with a non-negative size. */
  function Standardized(r: Rect): (s: Rect)
    ensures HasNonNegativeSize(s)
    ensures MinX(s) == MinX(r) && MaxX(s) == MaxX(r) && MinY(s) == MinY(r) && MaxY(s) == MaxY(r)
    ensures HasNonNegativeSize(r) ==> s == r
  {
    Rect(Point(MinX(r), MinY(r)), Size(Width(r), Height(r)))
  }

  /** CGRect.centeredOn(_:): the same size, moved so that its centre is `p`. */
  function CenteredOn(r: Rect, p: Point): (c: Rect)
    ensures c.size == r.size
    ensures HasNonNegativeSize(r) ==> Center(c) == p
  {
    Rect(Point(p.x - Width(r) / 2.0, p.y - Height(r) / 2.0), r.size)
  }

  /**
   * CGRect.insetBy(dx:dy:): the standardized rectangle shrunk by `dx` on the
   * left and right and by `dy` on the top and bottom (grown when they are
   * negative); None stands for CGRect.null, returned when the size would
   * become negative.
   */
  function InsetBy(r: Rect, dx: real, dy: real): (o: Option<Rect>)
    ensures o.Some? <==> Width(r) - 2.0 * dx >= 0.0 && Height(r) - 2.0 * dy >= 0.0
    ensures o.Some? ==> o.value.size == Size(Width(r) - 2.0 * dx, Height(r) - 2.0 * dy)
    ensures o.Some? ==> Center(o.value) == Center(r)
  {
    var s := Standardized(r);
    var w := s.size.width - 2.0 * dx;
    var h := s.size.height - 2.0 * dy;
    if w < 0.0 || h < 0.0 then None
    else Some(Rect(Point(s.origin.x + dx, s.origin.y + dy), Size(w, h)))
  }

  /**
   * Insetting by minus `fraction` of the size, as the emoji annotator does
   * with its padding: the centre stays, each side grows by the fraction.
   */
  lemma PaddingGrowsAboutCenter(r: Rect, fraction: real)
    requires HasNonNegativeSize(r) && fraction >= 0.0
    ensures InsetBy(r, -(r.size.width * fraction), -(r.size.height * fraction)).Some?
    ensures var p := InsetBy(r, -(r.size.width * fraction), -(r.size.height * fraction)).value;
      && Center(p) == Center(r)
      && p.size == Size(r.size.width * (1.0 + 2.0 * fraction), r.size.height * (1.0 + 2.0 * fraction))
      && (fraction == 0.0 ==> p == r)
      && (fraction > 0.0 && r.size.width > 0.0 ==> p.size.width > r.size.width)
      && (fraction > 0.0 && r.size.height > 0.0 ==> p.size.height > r.size.height)
  {
    var w, h := r.size.width, r.size.height;
    assert w - 2.0 * -(w * fraction) == w * (1.0 + 2.0 * fraction);
    assert h - 2.0 * -(h * fraction) == h * (1.0 + 2.0 * fraction);
    if fraction > 0.0 && w > 0.0 {
      assert w * fraction > 0.0;
    }
    if fraction > 0.0 && h > 0.0 {
      assert h * fraction > 0.0;
    }
  }

  /* ---- Array<CGPoint>.centerPoint ---- */

  /** `reduce(0, { $0 + $1.x })`: a left fold over the points. */
  function SumX(pts: seq<Point>): real
  {
    if |pts| == 0 then 0.0 else SumX(pts[..|pts| - 1]) + pts[|pts| - 1].x
  }

  function SumY(pts: seq<Point>): real
  {
    if |pts| == 0 then 0.0 else SumY(pts[..|pts| - 1]) + pts[|pts| - 1].y
  }

  /**
   * centerPoint: the totals divided by the count. The source divides by
   * `count` unguarded, so the empty array is excluded.
   */
  function CenterPoint(pts: seq<Point>): (c: Point)
    requires |pts| > 0
    ensures c.x * (|pts| as real) == SumX(pts)
    ensures c.y * (|pts| as real) == SumY(pts)
  {
    Point(SumX(pts) / (|pts| as real), SumY(pts) / (|pts| as real))
  }

  lemma {:induction false} SumXBounded(pts: seq<Point>, lo: real, hi: real)
    requires forall i :: 0 <= i < |pts| ==> lo <= pts[i].x <= hi
    ensures (|pts| as real) * lo <= SumX(pts) <= (|pts| as real) * hi
  {
    if |pts| > 0 {
      SumXBounded(pts[..|pts| - 1], lo, hi);
    }
  }

  lemma {:induction false} SumYBounded(pts: seq<Point>, lo: real, hi: real)
    requires forall i :: 0 <= i < |pts| ==> lo <= pts[i].y <= hi
    ensures (|pts| as real) * lo <= SumY(pts) <= (|pts| as real) * hi
  {
    if |pts| > 0 {
      SumYBounded(pts[..|pts| - 1], lo, hi);
    }
  }

  /** A total between n times lo and n times hi gives a mean between lo and hi. */
  lemma MeanBounded(total: real, n: real, lo: real, hi: real)
    requires n > 0.0 && n * lo <= total <= n * hi
    ensures lo <= total / n <= hi
  {
    var m := total / n;
    assert total == m * n;
    assert (m - lo) * n >= 0.0;
    assert (hi - m) * n >= 0.0;
  }

  /** The centre point lies in every axis-aligned box that holds all the points. */
  lemma CenterPointWithinBounds(pts: seq<Point>, box: Rect)
    requires |pts| > 0
    requires forall i :: 0 <= i < |pts| ==> MinX(box) <= pts[i].x <= MaxX(box) && MinY(box) <= pts[i].y <= MaxY(box)
    ensures var c := CenterPoint(pts); MinX(box) <= c.x <= MaxX(box) && MinY(box) <= c.y <= MaxY(box)
  {
    CenterXWithin(pts, MinX(box), MaxX(box));
    CenterYWithin(pts, MinY(box), MaxY(box));
  }

  lemma CenterXWithin(pts: seq<Point>, lo: real, hi: real)
    requires |pts| > 0
    requires forall i :: 0 <= i < |pts| ==> lo <= pts[i].x <= hi
    ensures lo <= CenterPoint(pts).x <= hi
  {
    SumXBounded(pts, lo, hi);
    MeanBounded(SumX(pts), |pts| as real, lo, hi);
  }

  lemma CenterYWithin(pts: seq<Point>, lo: real, hi: real)
    requires |pts| > 0
    requires forall i :: 0 <= i < |pts| ==> lo <= pts[i].y <= hi
    ensures lo <= CenterPoint(pts).y <= hi
  {
    SumYBounded(pts, lo, hi);
    MeanBounded(SumY(pts), |pts| as real, lo, hi);
  }

  /** Scaling every x coordinate by w scales their total by w. */
  lemma {:induction false} SumXScaled(pts: seq<Point>, scaled: seq<Point>, w: real)
    requires |scaled| == |pts|
    requires forall i :: 0 <= i < |pts| ==> scaled[i].x == pts[i].x * w
    ensures SumX(scaled) == SumX(pts) * w
  {
    if |pts| > 0 {
      var n := |pts| - 1;
      SumXScaled(pts[..n], scaled[..n], w);
      Distributes(SumX(pts[..n]), pts[n].x, w);
    }
  }

  /** Scaling every y coordinate by h scales their total by h. */
  lemma {:induction false} SumYScaled(pts: seq<Point>, scaled: seq<Point>, h: real)
    requires |scaled| == |pts|
    requires forall i :: 0 <= i < |pts| ==> scaled[i].y == pts[i].y * h
    ensures SumY(scaled) == SumY(pts) * h
  {
    if |pts| > 0 {
      var n := |pts| - 1;
      SumYScaled(pts[..n], scaled[..n], h);
      Distributes(SumY(pts[..n]), pts[n].y, h);
    }
  }

  lemma Distributes(a: real, b: real, w: real)
    ensures a * w + b * w == (a + b) * w
  {
  }

  /** Scaling commutes with taking the mean. */
  lemma MeanScaled(total: real, n: real, w: real)
    requires n > 0.0
    ensures (total * w) / n == (total / n) * w
  {
    var m := total / n;
    assert total == m * n;
    assert total * w == (m * w) * n;
  }

  /** Scaling the points axis by axis scales their centre point the same way. */
  lemma CenterPointScaled(pts: seq<Point>, scaled: seq<Point>, w: real, h: real)
    requires |pts| > 0 && |scaled| == |pts|
    requires forall i :: 0 <= i < |pts| ==> scaled[i] == Point(pts[i].x * w, pts[i].y * h)
    ensures CenterPoint(scaled) == Point(CenterPoint(pts).x * w, CenterPoint(pts).y * h)
  {
    SumXScaled(pts, scaled, w);
    SumYScaled(pts, scaled, h);
    MeanScaled(SumX(pts), |pts| as real, w);
    MeanScaled(SumY(pts), |pts| as real, h);
  }

  /** For two points the centre point is their midpoint. */
  lemma CenterPointOfTwo(p: Point, q: Point)
    ensures CenterPoint([p, q]) == Point((p.x + q.x) / 2.0, (p.y + q.y) / 2.0)
  {
    assert [p, q][..1] == [p] && [p][..0] == [];
    assert SumX([p]) == p.x && SumY([p]) == p.y;
    assert SumX([p, q]) == p.x + q.x && SumY([p, q]) == p.y + q.y;
  }

  /** For three points the centre point is the mean of each coordinate. */
  lemma CenterPointOfThree(p: Point, q: Point, r: Point)
    ensures CenterPoint([p, q, r]) == Point((p.x + q.x + r.x) / 3.0, (p.y + q.y + r.y) / 3.0)
  {
    assert [p, q, r][..2] == [p, q] && [p, q][..1] == [p] && [p][..0] == [];
    assert SumX([p]) == p.x && SumY([p]) == p.y;
    assert SumX([p, q]) == p.x + q.x && SumY([p, q]) == p.y + q.y;
    assert SumX([p, q, r]) == p.x + q.x + r.x && SumY([p, q, r]) == p.y + q.y + r.y;
  }

  /* ---- CGPoint.rotationDegreesTo ---- */

  /** Swift's Int(x) on a finite value: truncation toward zero. */
  function TruncToInt(x: real): (n: int)
    ensures Abs(n as real) <= Abs(x) < Abs(n as real) + 1.0
    ensures n > 0 ==> x > 0.0
    ensures n < 0 ==> x < 0.0
  {
    if x >= 0.0 then x.Floor else -((-x).Floor)
  }

  /**
   * truncatingRemainder(dividingBy:): x minus m times the truncated
   * quotient. What is taken away is a whole multiple of m, and together
   * with the bound and the sign this determines the remainder.
   */
  function TruncatingRemainder(x: real, m: real): (r: real)
    requires m != 0.0
    ensures ((x - r) / m).Floor as real == (x - r) / m
    ensures Abs(r) < Abs(m)
    ensures x >= 0.0 ==> r >= 0.0
    ensures x <= 0.0 ==> r <= 0.0
  {
    var q := TruncToInt(x / m);
    TruncRemBounds(x, m, q);
    var k := m * (q as real);
    WholeMultiple(m, q);
    assert x - (x - k) == k;
    x - k
  }

  lemma WholeMultiple(m: real, q: int)
    requires m != 0.0
    ensures (m * (q as real)) / m == q as real
    ensures (q as real).Floor == q
  {
  }

  lemma TruncRemBounds(x: real, m: real, q: int)
    requires m != 0.0 && q == TruncToInt(x / m)
    ensures Abs(x - m * (q as real)) < Abs(m)
    ensures x >= 0.0 ==> x - m * (q as real) >= 0.0
    ensures x <= 0.0 ==> x - m * (q as real) <= 0.0
  {
    var t := x / m;
    assert x == m * t;
    assert x - m * (q as real) == m * (t - q as real);
    var f := t - q as real;
    assert Abs(f) < 1.0;
    assert t >= 0.0 ==> f >= 0.0;
    assert t <= 0.0 ==> f <= 0.0;
    ScaledFractionBounds(m, f);
  }

  lemma ScaledFractionBounds(m: real, f: real)
    requires m != 0.0 && -1.0 < f < 1.0
    ensures Abs(m * f) < Abs(m)
    ensures (m > 0.0 && f >= 0.0) || (m < 0.0 && f <= 0.0) ==> m * f >= 0.0
    ensures (m > 0.0 && f <= 0.0) || (m < 0.0 && f >= 0.0) ==> m * f <= 0.0
  {
    ScaledFractionBelow(m, f);
    ProductSign(m, f);
  }

  /** A proper fraction of m is smaller than m in magnitude. */
  lemma ScaledFractionBelow(m: real, f: real)
    requires m != 0.0 && -1.0 < f < 1.0
    ensures Abs(m * f) < Abs(m)
  {
    if m > 0.0 {
      assert m * (1.0 - f) > 0.0;
      assert m * (1.0 + f) > 0.0;
    } else {
      assert m * (1.0 - f) < 0.0;
      assert m * (1.0 + f) < 0.0;
    }
  }

  /** The sign of a product from the signs of its factors. */
  lemma ProductSign(m: real, f: real)
    ensures (m >= 0.0 && f >= 0.0) || (m <= 0.0 && f <= 0.0) ==> m * f >= 0.0
    ensures (m >= 0.0 && f <= 0.0) || (m <= 0.0 && f >= 0.0) ==> m * f <= 0.0
  {
  }

  /** The range promised for atan2f's result once converted to degrees. */
  type Bearing = d: real | -180.0 <= d <= 180.0

  /**
   * The normalisation in rotationDegreesTo: the bearing from the +x axis is
   * turned into one from the +y axis (minus 90) and brought into [0, 360)
   * by adding 360 and taking the truncating remainder by 360.
   */
  function NormalizedDegrees(d: Bearing): (r: real)
    ensures 0.0 <= r < 360.0
    ensures d < 90.0 ==> r == d + 270.0
    ensures d >= 90.0 ==> r == d - 90.0
  {
    var x := (d - 90.0) + 360.0;
    NormalizedDegreesClosedForm(d);
    TruncatingRemainder(x, 360.0)
  }

  lemma NormalizedDegreesClosedForm(d: Bearing)
    ensures d < 90.0 ==> TruncatingRemainder(d + 270.0, 360.0) == d + 270.0
    ensures d >= 90.0 ==> TruncatingRemainder(d + 270.0, 360.0) == d - 90.0
  {
    var x := d + 270.0;
    var t := x / 360.0;
    assert 90.0 <= x <= 450.0;
    assert x == 360.0 * t;
    if d < 90.0 {
      assert 0.0 <= t < 1.0;
      assert TruncToInt(t) == 0;
    } else {
      assert 1.0 <= t < 2.0;
      assert TruncToInt(t) == 1;
    }
  }

  /** A point straight along +y (atan2 gives 90 degrees) is at rotation 0. */
  lemma StraightUpIsZero()
    ensures NormalizedDegrees(90.0) == 0.0
  {
  }

  /**
   * rotationDegreesTo(_:): the bearing from this point to `other`, measured
   * from the +y axis and normalised into [0, 360). atan2f, with its result
   * in degrees, is the parameter `atan2` (arguments dy, dx).
   */
  function RotationDegreesTo(from: Point, other: Point, atan2: (real, real) -> Bearing): (r: real)
    ensures 0.0 <= r < 360.0
  {
    NormalizedDegrees(atan2(other.y - from.y, other.x - from.x))
  }

  /**
   * Coincident points: atan2f(0, 0) is 0, so the rotation is 270 degrees,
   * not 0; the code has no special case for them.
   */
  lemma CoincidentPointsRotation(p: Point, atan2: (real, real) -> Bearing)
    requires atan2(0.0, 0.0) == 0.0
    ensures RotationDegreesTo(p, p, atan2) == 270.0
  {
    assert p.y - p.y == 0.0 && p.x - p.x == 0.0;
  }

  /**
   * The normalisation is one to one on (-180, 180]: different bearings give
   * different rotations; -180 and 180 (the same direction) both give 90.
   */
  lemma NormalizedDegreesInjective(d1: Bearing, d2: Bearing)
    requires d1 != -180.0 && d2 != -180.0 && d1 != d2
    ensures NormalizedDegrees(d1) != NormalizedDegrees(d2)
  {
  }

  lemma NormalizedDegreesOpposite()
    ensures NormalizedDegrees(-180.0) == NormalizedDegrees(180.0) == 90.0
  {
  }
}
