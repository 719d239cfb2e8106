/**
 * The bounding-box variant of `Collection<VNFaceObservation>.drawnOn(_:)`:
 * the source image, then one red outline per observation, in order.
 */
module BoxAnnotator {
  import opened Wrappers
  import opened Geometry
  import opened Affine
  import opened Vision
  import opened Graphics
  import opened PixelSpace

  /** The stroke width: one per cent of the image width. */
  function LineWidth(size: Size): real { 0.01 * size.width }

  /** The strokes the loop makes for these faces, one per face, in order. */
  function Strokes(faces: seq<Observation>, size: Size): seq<Layer>
  {
    if |faces| == 0 then []
    else Strokes(faces[..|faces| - 1], size) + [Stroked(PixelRect(faces[|faces| - 1].boundingBox, size), Red, LineWidth(size))]
  }

  /** The annotated image: the source drawn at full size, then the strokes. */
  function Annotated(image: Image, faces: seq<Observation>): Image
  {
    Image(image.size, Up, [DrawnImage(image, FullRect(image.size))] + Strokes(faces, image.size))
  }

  /**
   * drawnOn(_:): nil when no graphics context can be had; otherwise a new
   * upright image of the source's size holding the source image and one red
   * stroke of width 1% of the image width around each face's pixel box.
   */
  method DrawnOn(faces: seq<Observation>, image: Image, contextAvailable: bool) returns (result: Option<Image>)
    ensures result == if contextAvailable then Some(Annotated(image, faces)) else None
  {
    if !contextAvailable {
      return None;
    }
    var context := new Context(image.size);
    context.DrawImage(image, FullRect(image.size));
    context.SetStrokeColor(Red);
    context.SetLineWidth(0.01 * image.size.width);
    var transform := Flip(image.size.height);
    for i := 0 to |faces|
      invariant context.size == image.size
      invariant context.strokeColor == Red && context.lineWidth == LineWidth(image.size)
      invariant context.layers == [DrawnImage(image, FullRect(image.size))] + Strokes(faces[..i], image.size)
    {
      var rect := faces[i].boundingBox;
      var normalizedRect := ApplyToRect(transform,
        ImageRectForNormalizedRect(rect, TruncToInt(image.size.width), TruncToInt(image.size.height)));
      context.Stroke(normalizedRect);
      assert faces[..i + 1][..i] == faces[..i];
    }
    assert faces[..|faces|] == faces;
    result := Some(context.Snapshot());
  }

  /** Exactly one stroke per face, and stroke i outlines face i in red at the common width. */
  lemma {:induction false} StrokesAt(faces: seq<Observation>, size: Size)
    ensures |Strokes(faces, size)| == |faces|
    ensures forall i :: 0 <= i < |faces| ==>
      Strokes(faces, size)[i] == Stroked(PixelRect(faces[i].boundingBox, size), Red, LineWidth(size))
  {
    if |faces| > 0 {
      var init := faces[..|faces| - 1];
      StrokesAt(init, size);
      forall i | 0 <= i < |init| ensures init[i] == faces[i] { }
    }
  }

  /**
   * The annotated image has the source's size; its first layer is the
   * source image at full size and layer 1 + i is the stroke of face i, so
   * with no faces only the source is drawn.
   */
  lemma AnnotatedLayers(image: Image, faces: seq<Observation>)
    ensures var a := Annotated(image, faces);
      && a.size == image.size
      && |a.layers| == 1 + |faces|
      && a.layers[0] == DrawnImage(image, FullRect(image.size))
      && (forall i :: 0 <= i < |faces| ==>
            a.layers[1 + i] == Stroked(PixelRect(faces[i].boundingBox, image.size), Red, 0.01 * image.size.width))
      && (faces == [] ==> a.layers == [DrawnImage(image, FullRect(image.size))])
  {
    var strokes := Strokes(faces, image.size);
    StrokesAt(faces, image.size);
    var layers := [DrawnImage(image, FullRect(image.size))] + strokes;
    assert Annotated(image, faces).layers == layers;
    forall i | 0 <= i < |faces|
      ensures layers[1 + i] == Stroked(PixelRect(faces[i].boundingBox, image.size), Red, 0.01 * image.size.width)
    {
      assert layers[1 + i] == strokes[i];
    }
  }

  /** Every stroke is red and of the same width, 1% of the image width. */
  lemma StrokesShareStyle(image: Image, faces: seq<Observation>, j: int)
    requires 1 <= j < |Annotated(image, faces).layers|
    ensures Annotated(image, faces).layers[j].Stroked?
    ensures Annotated(image, faces).layers[j].color == Red
    ensures Annotated(image, faces).layers[j].lineWidth == 0.01 * image.size.width
  {
    AnnotatedLayers(image, faces);
    var i := j - 1;
    assert Annotated(image, faces).layers[1 + i] ==
      Stroked(PixelRect(faces[i].boundingBox, image.size), Red, 0.01 * image.size.width);
  }
}
