/**
 * What the detector hands the app: VNFaceObservation and
 * VNFaceLandmarks2D, reduced to the values the annotators read, and the two
 * Vision conversions they call, stated as plain scaling by the image size.
 */
module Vision {
  import opened Wrappers
  import opened Geometry

  /** A detected landmark region: its points, never an empty list. */
  type PointGroup = s: seq<Point> | |s| > 0 witness [Origin]

  /** VNFaceLandmarks2D: every group may be missing. */
  datatype Landmarks = Landmarks(
    allPoints: Option<PointGroup>,
    leftPupil: Option<PointGroup>,
    leftEye: Option<PointGroup>,
    leftEyebrow: Option<PointGroup>,
    rightPupil: Option<PointGroup>,
    rightEye: Option<PointGroup>,
    rightEyebrow: Option<PointGroup>,
    outerLips: Option<PointGroup>,
    innerLips: Option<PointGroup>)

  const NoLandmarks: Landmarks := Landmarks(None, None, None, None, None, None, None, None, None)

  /** VNFaceObservation: a normalised bounding box (origin bottom-left) and, from a landmarks request, landmarks. */
  datatype Observation = Observation(boundingBox: Rect, landmarks: Option<Landmarks>)

  /** pointsInImage(imageSize:): each normalised point scaled by the image size. */
  function PointsInImage(g: PointGroup, size: Size): (r: PointGroup)
    ensures |r| == |g|
    ensures forall i :: 0 <= i < |g| ==> r[i] == Point(g[i].x * size.width, g[i].y * size.height)
  {
    seq(|g|, i requires 0 <= i < |g| => Point(g[i].x * size.width, g[i].y * size.height))
  }

  /** VNImageRectForNormalizedRect(_:_:_:): a normalised rectangle scaled by integer image dimensions. */
  function ImageRectForNormalizedRect(r: Rect, width: int, height: int): Rect
  {
    Rect(Point(r.origin.x * width as real, r.origin.y * height as real),
         Size(r.size.width * width as real, r.size.height * height as real))
  }
}
