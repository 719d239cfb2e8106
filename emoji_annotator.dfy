/**
 * The emoji variant of `Collection<VNFaceObservation>.drawnOn(_:)`: the
 * source image, then for each face that has an anchor a glyph drawn over
 * the face's box recentred on the anchor, padded by 30% per side and
 * turned by the anchor's angle.
 */
module EmojiAnnotator {
  import opened Wrappers
  import opened Geometry
  import opened Affine
  import opened Vision
  import opened Graphics
  import opened PixelSpace
  import opened Anchor

  const Padding: real := 0.3

  /** The glyphs drawnOn picks from. */
  const Emojis: seq<string> := [
    "\U{1F642}", "\U{1F601}", "\U{1F60A}", "\U{1F928}", "\U{1F615}",
    "\U{1F644}", "\U{1F62C}", "\U{1F62E}", "\U{1F634}"]

  type EmojiIndex = i: nat | i < 9

  /**
   * What the annotator gets from outside its own code, for the face at
   * position i of the collection: the graphics context, atan2f in degrees,
   * the glyph randomElement() picks, and whether String.image(of:) and
   * rotatedBy(degrees:) produced an image.
   */
  datatype Platform = Platform(
    contextAvailable: bool,
    atan2: (real, real) -> Bearing,
    pick: nat -> EmojiIndex,
    glyphRendered: nat -> bool,
    rotated: nat -> bool)

  /**
   * The angle rotatedBy(degrees:clockwise:) turns its context by: the
   * given degrees, negated unless clockwise (the default is not).
   */
  function RotationAngle(degrees: real, clockwise: bool): (r: real)
    ensures Abs(r) == Abs(degrees)
    ensures r == degrees <==> clockwise || degrees == 0.0
  {
    var angle := degrees;
    if !clockwise then -angle else angle
  }

  /** Where a face's glyph goes: the overlay rectangle, its padded form and the anchor's angle. */
  datatype Overlay = Overlay(rect: Rect, padded: Rect, angle: Option<real>)

  /** The per-face geometry of the loop in drawnOn; None when the face is skipped. */
  function FaceOverlay(face: Observation, size: Size, atan2: (real, real) -> Bearing): (o: Option<Overlay>)
    ensures o.Some? <==> face.landmarks.Some? && AnchorPointInImage(face.landmarks.value, size, atan2).center.Some?
    ensures o.Some? ==> o.value.angle == AnchorPointInImage(face.landmarks.value, size, atan2).angle
  {
    if face.landmarks.None? then None
    else
      var anchor := AnchorPointInImage(face.landmarks.value, size, atan2);
      if anchor.center.None? then None
      else
        var transform := Flip(size.height);
        var center := Apply(transform, anchor.center.value);
        var overlayRect := CenteredOn(
          ApplyToRect(transform, ImageRectForNormalizedRect(face.boundingBox, TruncToInt(size.width), TruncToInt(size.height))),
          center);
        PaddingGrowsAboutCenter(overlayRect, Padding);
        var padded := InsetBy(overlayRect, -(overlayRect.size.width * Padding), -(overlayRect.size.height * Padding)).value;
        Some(Overlay(overlayRect, padded, anchor.angle))
  }

  /** FaceOverlay unfolded for a face that has an anchor centre, step by step as the loop body computes it. */
  lemma FaceOverlayUnfolded(face: Observation, size: Size, atan2: (real, real) -> Bearing)
    requires face.landmarks.Some? && AnchorPointInImage(face.landmarks.value, size, atan2).center.Some?
    ensures var anchor := AnchorPointInImage(face.landmarks.value, size, atan2);
      var transform := Flip(size.height);
      var overlayRect := CenteredOn(
        ApplyToRect(transform, ImageRectForNormalizedRect(face.boundingBox, TruncToInt(size.width), TruncToInt(size.height))),
        Apply(transform, anchor.center.value));
      var insetX, insetY := overlayRect.size.width * Padding, overlayRect.size.height * Padding;
      && InsetBy(overlayRect, -insetX, -insetY).Some?
      && FaceOverlay(face, size, atan2) == Some(Overlay(overlayRect, InsetBy(overlayRect, -insetX, -insetY).value, anchor.angle))
  {
    var anchor := AnchorPointInImage(face.landmarks.value, size, atan2);
    var transform := Flip(size.height);
    var overlayRect := CenteredOn(
      ApplyToRect(transform, ImageRectForNormalizedRect(face.boundingBox, TruncToInt(size.width), TruncToInt(size.height))),
      Apply(transform, anchor.center.value));
    PaddingGrowsAboutCenter(overlayRect, Padding);
  }

  /**
   * The overlay rectangle has the size of the face's pixel box and is
   * centred on the anchor centre flipped into UIKit space; the padded one
   * has the same centre and 1 + 2 * 0.3 = 1.6 times the width and height.
   */
  lemma OverlayGeometry(face: Observation, size: Size, atan2: (real, real) -> Bearing)
    requires FaceOverlay(face, size, atan2).Some?
    ensures var o := FaceOverlay(face, size, atan2).value;
      var c := AnchorPointInImage(face.landmarks.value, size, atan2).center.value;
      var px := PixelRect(face.boundingBox, size);
      && o.rect.size == px.size
      && Center(o.rect) == Point(c.x, size.height - c.y)
      && Center(o.padded) == Center(o.rect)
      && o.padded.size == Size(px.size.width * 1.6, px.size.height * 1.6)
  {
    var c := AnchorPointInImage(face.landmarks.value, size, atan2).center.value;
    FlipPoint(size.height, c);
    var o := FaceOverlay(face, size, atan2).value;
    PaddingGrowsAboutCenter(o.rect, Padding);
  }

  /** A face gets a glyph when it has an overlay and its glyph could be rasterised. */
  predicate Drawable(face: Observation, i: nat, size: Size, platform: Platform)
  {
    FaceOverlay(face, size, platform.atan2).Some? && platform.glyphRendered(i)
  }

  /**
   * The glyph drawn for face i: one of the nine emoji, in the padded
   * rectangle, turned by the negated anchor angle, or unturned when
   * rotatedBy gave no image.
   */
  function GlyphLayer(face: Observation, i: nat, size: Size, platform: Platform): (l: Layer)
    requires Drawable(face, i, size, platform)
    ensures l.DrawnGlyph? && l.glyph in Emojis
    ensures l.rect == FaceOverlay(face, size, platform.atan2).value.padded
    ensures !platform.rotated(i) ==> l.contextRotation.None?
    ensures platform.rotated(i) ==>
      (l.contextRotation.Some? &&
       l.contextRotation.value == -AnchorPointInImage(face.landmarks.value, size, platform.atan2).angle.value)
  {
    var o := FaceOverlay(face, size, platform.atan2).value;
    var rotation := if o.angle.Some? && platform.rotated(i) then Some(RotationAngle(o.angle.value, false)) else None;
    DrawnGlyph(Emojis[platform.pick(i)], o.padded, rotation)
  }

  function FaceLayers(face: Observation, i: nat, size: Size, platform: Platform): seq<Layer>
  {
    if Drawable(face, i, size, platform) then [GlyphLayer(face, i, size, platform)] else []
  }

  /** The layers of a face whose overlay is known: its glyph when it could be rasterised, else nothing. */
  lemma FaceLayersOfOverlay(face: Observation, i: nat, size: Size, platform: Platform, o: Overlay)
    requires FaceOverlay(face, size, platform.atan2) == Some(o)
    ensures FaceLayers(face, i, size, platform) ==
      if platform.glyphRendered(i) then
        [DrawnGlyph(Emojis[platform.pick(i)], o.padded,
                    if o.angle.Some? && platform.rotated(i) then Some(RotationAngle(o.angle.value, false)) else None)]
      else []
  {
  }

  /** What the loop draws over the faces, face by face. */
  function EmojiLayers(faces: seq<Observation>, size: Size, platform: Platform): seq<Layer>
  {
    if |faces| == 0 then []
    else EmojiLayers(faces[..|faces| - 1], size, platform) + FaceLayers(faces[|faces| - 1], |faces| - 1, size, platform)
  }

  /** The positions of the faces that get a glyph, in iteration order. */
  function DrawnFaces(faces: seq<Observation>, size: Size, platform: Platform): seq<nat>
  {
    if |faces| == 0 then []
    else
      DrawnFaces(faces[..|faces| - 1], size, platform) +
      (if Drawable(faces[|faces| - 1], |faces| - 1, size, platform) then [|faces| - 1] else [])
  }

  /** The annotated image: the source at full size, then the glyphs. */
  function Annotated(image: Image, faces: seq<Observation>, platform: Platform): Image
  {
    Image(image.size, Up, [DrawnImage(image, FullRect(image.size))] + EmojiLayers(faces, image.size, platform))
  }

  /**
   * drawnOn(_:): nil when no graphics context can be had; otherwise a new
   * upright image of the source's size holding the source image and a glyph
   * for each face that has one, in order.
   */
  method DrawnOn(faces: seq<Observation>, image: Image, platform: Platform) returns (result: Option<Image>)
    ensures result == if platform.contextAvailable then Some(Annotated(image, faces, platform)) else None
  {
    if !platform.contextAvailable {
      return None;
    }
    var context := new Context(image.size);
    context.DrawImage(image, FullRect(image.size));
    var imageWidth, imageHeight := TruncToInt(image.size.width), TruncToInt(image.size.height);
    var transform := Flip(image.size.height);
    for i := 0 to |faces|
      invariant context.layers == [DrawnImage(image, FullRect(image.size))] + EmojiLayers(faces[..i], image.size, platform)
    {
      assert faces[..i + 1][..i] == faces[..i];
      DrawFace(context, faces[i], i, image.size, imageWidth, imageHeight, transform, platform);
    }
    assert faces[..|faces|] == faces;
    result := Some(context.Snapshot());
  }

  /** The body of drawnOn's loop for the observation at position i; `return` stands for the source's `continue`. */
  method DrawFace(context: Context, observation: Observation, i: nat, size: Size,
                  imageWidth: int, imageHeight: int, transform: Transform, platform: Platform)
    requires imageWidth == TruncToInt(size.width) && imageHeight == TruncToInt(size.height)
    requires transform == Flip(size.height)
    modifies context`layers
    ensures context.layers == old(context.layers) + FaceLayers(observation, i, size, platform)
  {
    if observation.landmarks.None? {
      return;
    }
    var anchor := AnchorPointInImage(observation.landmarks.value, size, platform.atan2);
    if anchor.center.None? {
      return;
    }
    var center := Apply(transform, anchor.center.value);
    var overlayRect := CenteredOn(
      ApplyToRect(transform, ImageRectForNormalizedRect(observation.boundingBox, imageWidth, imageHeight)),
      center);
    var insetX, insetY := overlayRect.size.width * Padding, overlayRect.size.height * Padding;
    FaceOverlayUnfolded(observation, size, platform.atan2);
    var paddedOverlayRect := InsetBy(overlayRect, -insetX, -insetY).value;
    FaceLayersOfOverlay(observation, i, size, platform, Overlay(overlayRect, paddedOverlayRect, anchor.angle));
    var randomEmoji := Emojis[platform.pick(i)];
    if platform.glyphRendered(i) {
      var overlayRotation: Option<real> := None;
      if anchor.angle.Some? && platform.rotated(i) {
        overlayRotation := Some(RotationAngle(anchor.angle.value, false));
      }
      context.DrawGlyph(randomEmoji, paddedOverlayRect, overlayRotation);
    }
  }

  /** The drawn positions are face positions, in strictly increasing order. */
  lemma {:induction false} DrawnFacesIncrease(faces: seq<Observation>, size: Size, platform: Platform)
    ensures var drawn := DrawnFaces(faces, size, platform);
      && |drawn| <= |faces|
      && (forall j :: 0 <= j < |drawn| ==> drawn[j] < |faces|)
      && (forall j, k :: 0 <= j < k < |drawn| ==> drawn[j] < drawn[k])
  {
    if |faces| > 0 {
      DrawnFacesIncrease(faces[..|faces| - 1], size, platform);
    }
  }

  /**
   * The drawn positions are exactly the drawable faces: each is drawable
   * and every drawable face is among them, so a skipped face changes
   * nothing for the others.
   */
  lemma {:induction false} DrawnFacesAreDrawable(faces: seq<Observation>, size: Size, platform: Platform)
    ensures var drawn := DrawnFaces(faces, size, platform);
      && (forall j :: 0 <= j < |drawn| ==> drawn[j] < |faces| && Drawable(faces[drawn[j]], drawn[j], size, platform))
      && (forall i :: 0 <= i < |faces| ==> (i in drawn <==> Drawable(faces[i], i, size, platform)))
  {
    if |faces| > 0 {
      var init := faces[..|faces| - 1];
      DrawnFacesAreDrawable(init, size, platform);
      forall i | 0 <= i < |init| ensures init[i] == faces[i] { }
    }
  }

  /** There is one glyph per drawn position, and glyph j is the glyph of face DrawnFaces[j]. */
  lemma {:induction false} LayersFollowDrawnFaces(faces: seq<Observation>, size: Size, platform: Platform)
    ensures var layers, drawn := EmojiLayers(faces, size, platform), DrawnFaces(faces, size, platform);
      && |layers| == |drawn|
      && (forall j :: 0 <= j < |drawn| ==>
            drawn[j] < |faces| && Drawable(faces[drawn[j]], drawn[j], size, platform) &&
            layers[j] == GlyphLayer(faces[drawn[j]], drawn[j], size, platform))
  {
    DrawnFacesAreDrawable(faces, size, platform);
    if |faces| > 0 {
      var init := faces[..|faces| - 1];
      LayersFollowDrawnFaces(init, size, platform);
      forall i | 0 <= i < |init| ensures init[i] == faces[i] { }
    }
  }

  /** A face without landmarks, or whose landmarks give no anchor centre, gets nothing drawn. */
  lemma SkippedFaceNotDrawn(faces: seq<Observation>, size: Size, platform: Platform, i: nat)
    requires i < |faces|
    requires faces[i].landmarks.None? || AnchorPointInImage(faces[i].landmarks.value, size, platform.atan2).center.None?
    ensures i !in DrawnFaces(faces, size, platform)
  {
    DrawnFacesAreDrawable(faces, size, platform);
  }

  /** The annotated image has the source's size, the source as its first layer and at most one glyph per face. */
  lemma AnnotatedShape(image: Image, faces: seq<Observation>, platform: Platform)
    ensures var a := Annotated(image, faces, platform);
      && a.size == image.size && a.orientation == Up
      && a.layers[0] == DrawnImage(image, FullRect(image.size))
      && |a.layers| <= 1 + |faces|
      && (forall j :: 1 <= j < |a.layers| ==> a.layers[j].DrawnGlyph? && a.layers[j].glyph in Emojis)
  {
    DrawnFacesIncrease(faces, image.size, platform);
    LayersFollowDrawnFaces(faces, image.size, platform);
    var layers := EmojiLayers(faces, image.size, platform);
    var drawn := DrawnFaces(faces, image.size, platform);
    var a := Annotated(image, faces, platform);
    forall j | 1 <= j < |a.layers| ensures a.layers[j].DrawnGlyph? && a.layers[j].glyph in Emojis {
      assert a.layers[j] == layers[j - 1];
      assert layers[j - 1] == GlyphLayer(faces[drawn[j - 1]], drawn[j - 1], image.size, platform);
    }
  }
}
