/**
 * From a detector's normalised rectangle to a rectangle in the image's
 * pixel space, as both annotators compute it:
 * `VNImageRectForNormalizedRect(box, Int(width), Int(height)).applying(flip)`.
 */
module PixelSpace {
  import opened Geometry
  import opened Affine
  import opened Vision

  /**
   * A normalised box in the image's pixel space: scaled by the image size
   * truncated to integers, then flipped about the (untruncated) height.
   */
  function PixelRect(box: Rect, size: Size): Rect
  {
    ApplyToRect(Flip(size.height), ImageRectForNormalizedRect(box, TruncToInt(size.width), TruncToInt(size.height)))
  }

  /**
   * For a box of non-negative size on an image of non-negative size, the
   * pixel rectangle keeps the scaled width and height and its top edge is at
   * H - (y + h) * Int(H).
   */
  lemma PixelRectClosedForm(box: Rect, size: Size)
    requires HasNonNegativeSize(box) && size.width >= 0.0 && size.height >= 0.0
    ensures var w, h := TruncToInt(size.width) as real, TruncToInt(size.height) as real;
      PixelRect(box, size) == Rect(
        Point(box.origin.x * w, size.height - (box.origin.y + box.size.height) * h),
        Size(box.size.width * w, box.size.height * h))
  {
    var w, h := TruncToInt(size.width) as real, TruncToInt(size.height) as real;
    var scaled := ImageRectForNormalizedRect(box, TruncToInt(size.width), TruncToInt(size.height));
    assert box.size.width * w >= 0.0 && box.size.height * h >= 0.0;
    assert (box.origin.y + box.size.height) * h == box.origin.y * h + box.size.height * h;
    FlipRect(size.height, scaled);
  }

  /** The worked case: a 1000 x 1000 image and the box (0.4, 0.5, 0.2, 0.2) give (400, 300, 200, 200). */
  lemma WorkedPixelRect()
    ensures PixelRect(Rect(Point(0.4, 0.5), Size(0.2, 0.2)), Size(1000.0, 1000.0)) ==
      Rect(Point(400.0, 300.0), Size(200.0, 200.0))
  {
    PixelRectClosedForm(Rect(Point(0.4, 0.5), Size(0.2, 0.2)), Size(1000.0, 1000.0));
  }

}
