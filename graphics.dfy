/**
 * UIKit image drawing as values: an image is its size, its orientation tag
 * and the layers drawn into it, and a graphics context is an object that
 * records each draw call, with the stroke colour and line width in effect.
 */
module Graphics {
  import opened Wrappers
  import opened Geometry

  datatype Orientation = Up | Down | Left | Right | UpMirrored | DownMirrored | LeftMirrored | RightMirrored

  datatype Color = Black | Red

  /** A UIImage: a source photo has no layers; a drawn image lists what was drawn into it, in order. */
  datatype Image = Image(size: Size, orientation: Orientation, layers: seq<Layer>)

  datatype Layer =
    | DrawnImage(image: Image, rect: Rect)
    | Stroked(rect: Rect, color: Color, lineWidth: real)
      /* contextRotation: the angle in degrees the glyph image was rotated by, None when drawn unrotated */
    | DrawnGlyph(glyph: string, rect: Rect, contextRotation: Option<real>)

  function FullRect(size: Size): Rect { Rect(Origin, size) }

  /** An image context opened by UIGraphicsBeginImageContextWithOptions at scale 1. */
  class Context {
    const size: Size
    var strokeColor: Color
    var lineWidth: real
    var layers: seq<Layer>

    /** A fresh context: nothing drawn, Core Graphics' default black stroke of width 1. */
    constructor (size: Size)
      ensures this.size == size && strokeColor == Black && lineWidth == 1.0 && layers == []
    {
      this.size := size;
      strokeColor := Black;
      lineWidth := 1.0;
      layers := [];
    }

    /** UIImage.draw(in:). */
    method DrawImage(image: Image, rect: Rect)
      modifies this`layers
      ensures layers == old(layers) + [DrawnImage(image, rect)]
    {
      layers := layers + [DrawnImage(image, rect)];
    }

    /** CGContext.setStrokeColor(_:). */
    method SetStrokeColor(c: Color)
      modifies this`strokeColor
      ensures strokeColor == c
    {
      strokeColor := c;
    }

    /** CGContext.setLineWidth(_:). */
    method SetLineWidth(w: real)
      modifies this`lineWidth
      ensures lineWidth == w
    {
      lineWidth := w;
    }

    /** CGContext.stroke(_:): outlines the rectangle with the current colour and width. */
    method Stroke(rect: Rect)
      modifies this`layers
      ensures layers == old(layers) + [Stroked(rect, strokeColor, lineWidth)]
    {
      layers := layers + [Stroked(rect, strokeColor, lineWidth)];
    }

    /** Drawing a rasterised glyph image, rotated or not, into a rectangle. */
    method DrawGlyph(glyph: string, rect: Rect, contextRotation: Option<real>)
      modifies this`layers
      ensures layers == old(layers) + [DrawnGlyph(glyph, rect, contextRotation)]
    {
      layers := layers + [DrawnGlyph(glyph, rect, contextRotation)];
    }

    /** UIGraphicsGetImageFromCurrentImageContext(): an upright image of the context's size holding what was drawn. */
    function Snapshot(): (img: Image)
      reads this
      ensures img.size == size && img.orientation == Up && img.layers == layers
    {
      Image(size, Up, layers)
    }
  }

  /**
   * UIImage.fixOrientation(): the image redrawn at its own size into a new
   * context, so the result is upright; None when no context is available.
   */
  function FixOrientation(image: Image, contextAvailable: bool): (r: Option<Image>)
    ensures r.Some? <==> contextAvailable
    ensures r.Some? ==> r.value.size == image.size && r.value.orientation == Up
    ensures r.Some? ==> r.value.layers == [DrawnImage(image, FullRect(image.size))]
  {
    if contextAvailable then Some(Image(image.size, Up, [DrawnImage(image, FullRect(image.size))])) else None
  }
}
