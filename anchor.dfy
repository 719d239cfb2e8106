/**
 * VNFaceLandmarks2D.anchorPointInImage(_:): where on a face the emoji goes
 * and how far to turn it, from the centres of whichever landmark groups
 * were detected.
 */
module Anchor {
  import opened Wrappers
  import opened Geometry
  import opened Vision

  /** The anchor: a centre and an angle in degrees, each possibly nil. */
  datatype Anchor = Anchor(center: Option<Point>, angle: Option<real>)

  /**
   * `group?.pointsInImage(imageSize:).centerPoint`: nil for a missing
   * group, otherwise the group's normalised centre scaled to the image.
   */
  function GroupCenter(g: Option<PointGroup>, size: Size): (c: Option<Point>)
    ensures c.Some? <==> g.Some?
    ensures g.Some? ==> c.value == Point(CenterPoint(g.value).x * size.width, CenterPoint(g.value).y * size.height)
  {
    match g
    case None => None
    case Some(pts) =>
      var scaled := PointsInImage(pts, size);
      CenterPointScaled(pts, scaled, size.width, size.height);
      Some(CenterPoint(scaled))
  }

  /** `leftPupil ?? leftEye ?? leftEyebrow`. */
  function LeftEyeCenter(lm: Landmarks, size: Size): (c: Option<Point>)
    ensures c.Some? <==> lm.leftPupil.Some? || lm.leftEye.Some? || lm.leftEyebrow.Some?
    ensures lm.leftPupil.Some? ==> c == GroupCenter(lm.leftPupil, size)
    ensures lm.leftPupil.None? && lm.leftEye.Some? ==> c == GroupCenter(lm.leftEye, size)
    ensures lm.leftPupil.None? && lm.leftEye.None? ==> c == GroupCenter(lm.leftEyebrow, size)
  {
    Coalesce(GroupCenter(lm.leftPupil, size), Coalesce(GroupCenter(lm.leftEye, size), GroupCenter(lm.leftEyebrow, size)))
  }

  /** `rightPupil ?? rightEye ?? rightEyebrow`. */
  function RightEyeCenter(lm: Landmarks, size: Size): (c: Option<Point>)
    ensures c.Some? <==> lm.rightPupil.Some? || lm.rightEye.Some? || lm.rightEyebrow.Some?
    ensures lm.rightPupil.Some? ==> c == GroupCenter(lm.rightPupil, size)
    ensures lm.rightPupil.None? && lm.rightEye.Some? ==> c == GroupCenter(lm.rightEye, size)
    ensures lm.rightPupil.None? && lm.rightEye.None? ==> c == GroupCenter(lm.rightEyebrow, size)
  {
    Coalesce(GroupCenter(lm.rightPupil, size), Coalesce(GroupCenter(lm.rightEye, size), GroupCenter(lm.rightEyebrow, size)))
  }

  /** `innerLips ?? outerLips`. */
  function MouthCenter(lm: Landmarks, size: Size): (c: Option<Point>)
    ensures c.Some? <==> lm.innerLips.Some? || lm.outerLips.Some?
    ensures lm.innerLips.Some? ==> c == GroupCenter(lm.innerLips, size)
    ensures lm.innerLips.None? ==> c == GroupCenter(lm.outerLips, size)
  {
    Coalesce(GroupCenter(lm.innerLips, size), GroupCenter(lm.outerLips, size))
  }

  /** Both eyes and the mouth were located: the anchor then comes from them. */
  predicate HasTriad(lm: Landmarks, size: Size)
  {
    LeftEyeCenter(lm, size).Some? && RightEyeCenter(lm, size).Some? && MouthCenter(lm, size).Some?
  }

  /**
   * anchorPointInImage: with both eyes and the mouth, the centre is the
   * midpoint of the eyes and the angle is the rotation from the centre of
   * eyes and mouth to it; otherwise the centre of all points, if any, and
   * angle 0. The angle is never nil and always lies in [0, 360). The
   * centre is nil exactly when there is no allPoints group and all three
   * left-eye groups, all three right-eye groups or both lip groups are
   * missing.
   */
  function AnchorPointInImage(lm: Landmarks, size: Size, atan2: (real, real) -> Bearing): (a: Anchor)
    ensures a.angle.Some? && 0.0 <= a.angle.value < 360.0
    ensures !HasTriad(lm, size) ==> a == Anchor(GroupCenter(lm.allPoints, size), Some(0.0))
    ensures HasTriad(lm, size) ==>
      var l, r := LeftEyeCenter(lm, size).value, RightEyeCenter(lm, size).value;
      a.center == Some(Point((l.x + r.x) / 2.0, (l.y + r.y) / 2.0))
    ensures a.center.None? <==>
      lm.allPoints.None? &&
      ((lm.leftPupil.None? && lm.leftEye.None? && lm.leftEyebrow.None?) ||
       (lm.rightPupil.None? && lm.rightEye.None? && lm.rightEyebrow.None?) ||
       (lm.innerLips.None? && lm.outerLips.None?))
  {
    var leftEyeCenter := LeftEyeCenter(lm, size);
    var rightEyeCenter := RightEyeCenter(lm, size);
    var mouthCenter := MouthCenter(lm, size);
    if leftEyeCenter.Some? && rightEyeCenter.Some? && mouthCenter.Some? then
      var l, r, m := leftEyeCenter.value, rightEyeCenter.value, mouthCenter.value;
      var triadCenter := CenterPoint([l, r, m]);
      var eyesCenter := CenterPoint([l, r]);
      CenterPointOfTwo(l, r);
      Anchor(Some(eyesCenter), Some(RotationDegreesTo(triadCenter, eyesCenter, atan2)))
    else
      Anchor(GroupCenter(lm.allPoints, size), Some(0.0))
  }

  /** On the primary path the angle is the rotation from the centroid of eyes and mouth to the eyes' midpoint. */
  lemma TriadAngle(lm: Landmarks, size: Size, atan2: (real, real) -> Bearing)
    requires HasTriad(lm, size)
    ensures var l, r, m := LeftEyeCenter(lm, size).value, RightEyeCenter(lm, size).value, MouthCenter(lm, size).value;
      var triad := Point((l.x + r.x + m.x) / 3.0, (l.y + r.y + m.y) / 3.0);
      var eyes := Point((l.x + r.x) / 2.0, (l.y + r.y) / 2.0);
      AnchorPointInImage(lm, size, atan2).angle == Some(RotationDegreesTo(triad, eyes, atan2))
  {
    var l, r, m := LeftEyeCenter(lm, size).value, RightEyeCenter(lm, size).value, MouthCenter(lm, size).value;
    CenterPointOfTwo(l, r);
    CenterPointOfThree(l, r, m);
  }

  /**
   * An upright face (eyes level, mouth centred below them in Vision's
   * y-up coordinates) gets angle 0, given that atan2 reports 90 degrees for
   * a vector straight along +y.
   */
  lemma UprightFaceHasZeroAngle(lm: Landmarks, size: Size, atan2: (real, real) -> Bearing)
    requires forall dy :: dy > 0.0 ==> atan2(dy, 0.0) == 90.0
    requires HasTriad(lm, size)
    requires var l, r, m := LeftEyeCenter(lm, size).value, RightEyeCenter(lm, size).value, MouthCenter(lm, size).value;
      l.y == r.y && m.x == (l.x + r.x) / 2.0 && m.y < l.y
    ensures AnchorPointInImage(lm, size, atan2).angle == Some(0.0)
  {
    var l, r, m := LeftEyeCenter(lm, size).value, RightEyeCenter(lm, size).value, MouthCenter(lm, size).value;
    TriadAngle(lm, size, atan2);
    var triad := Point((l.x + r.x + m.x) / 3.0, (l.y + r.y + m.y) / 3.0);
    var eyes := Point((l.x + r.x) / 2.0, (l.y + r.y) / 2.0);
    assert eyes.x - triad.x == 0.0;
    assert eyes.y - triad.y == (l.y - m.y) / 3.0 > 0.0;
    StraightUpIsZero();
  }

  /** A face with no landmark groups at all: no centre, so the annotator skips it. */
  lemma NoGroupsNoCenter(size: Size, atan2: (real, real) -> Bearing)
    ensures AnchorPointInImage(NoLandmarks, size, atan2) == Anchor(None, Some(0.0))
  {
    assert !HasTriad(NoLandmarks, size);
  }

  /**
   * The worked case: eyes at (100, 100) and (200, 100), mouth at
   * (150, 180). Read as Vision's y-up coordinates, the mouth is above the
   * eyes and the angle is 180; the same face with y flipped about 1000
   * (eyes at y = 900, mouth at y = 820, mouth below the eyes) is upright
   * and gets angle 0. atan2 is taken to give -90 and 90 degrees for vectors
   * straight along -y and +y.
   */
  lemma WorkedTriad(atan2: (real, real) -> Bearing)
    requires forall dy :: dy < 0.0 ==> atan2(dy, 0.0) == -90.0
    requires forall dy :: dy > 0.0 ==> atan2(dy, 0.0) == 90.0
    ensures CenterPoint([Point(100.0, 100.0), Point(200.0, 100.0)]) == Point(150.0, 100.0)
    ensures CenterPoint([Point(100.0, 100.0), Point(200.0, 100.0), Point(150.0, 180.0)]) == Point(150.0, 380.0 / 3.0)
    ensures RotationDegreesTo(Point(150.0, 380.0 / 3.0), Point(150.0, 100.0), atan2) == 180.0
    ensures CenterPoint([Point(100.0, 900.0), Point(200.0, 900.0)]) == Point(150.0, 900.0)
    ensures CenterPoint([Point(100.0, 900.0), Point(200.0, 900.0), Point(150.0, 820.0)]) == Point(150.0, 2620.0 / 3.0)
    ensures RotationDegreesTo(Point(150.0, 2620.0 / 3.0), Point(150.0, 900.0), atan2) == 0.0
  {
    CenterPointOfTwo(Point(100.0, 100.0), Point(200.0, 100.0));
    CenterPointOfThree(Point(100.0, 100.0), Point(200.0, 100.0), Point(150.0, 180.0));
    assert 100.0 - 380.0 / 3.0 < 0.0 && 150.0 - 150.0 == 0.0;
    CenterPointOfTwo(Point(100.0, 900.0), Point(200.0, 900.0));
    CenterPointOfThree(Point(100.0, 900.0), Point(200.0, 900.0), Point(150.0, 820.0));
    assert 900.0 - 2620.0 / 3.0 > 0.0;
  }
}
