# Face detector: annotators and main screen

A model of the core of a small iOS face-detector app. The user picks or
takes a photo, taps "Detect Faces", and Apple's Vision framework returns
one observation per face: a normalised bounding box and, in the emoji
variant, facial landmarks. The app then draws on the photo. The
bounding-box variant strokes a red box around each face. The emoji variant
puts a random emoji over each face, centred between the eyes, padded by 30%
per side and turned to follow the face's tilt.

The model has these modules:

- `Geometry`: the points, sizes and rectangles of Core Graphics with
  CGFloat as `real`, plus the helpers the app adds to them: `centerPoint`,
  `centeredOn` and `rotationDegreesTo`. It also defines `insetBy`, Swift's
  `Int(_:)` truncation and `truncatingRemainder`, all written out.
- `Affine`: CGAffineTransform under Core Graphics' row-vector convention.
  From it, the y-flip `CGAffineTransform(scaleX: 1, y: -1).translatedBy(x: 0, y: -H)`
  is *derived* to be (x, y) ↦ (x, H − y).
- `Vision`: observations and landmark groups, and the two scaling
  conversions the code calls.
- `Graphics`: images as values. An image is a size, an orientation and the
  layers drawn into it. A graphics context is a class that records each
  draw call together with the stroke colour and width in effect.
- `Anchor`: `anchorPointInImage`.
- `PixelSpace`: the path from a normalised box to pixel space that both
  annotators share.
- `BoxAnnotator` and `EmojiAnnotator`: the two `drawnOn` loops. Each is an
  imperative method over a context, proved equal to a reference function
  of the faces. Lemmas then describe the layers that function produces.
- `MainScreen`: `ContentView` as a class with its four state variables.
  Asynchronous detection is split into the part that runs on the tap
  (`GetFacesStart`) and the completion (`GetFacesComplete`).

What the code does not decide is passed in as a parameter:

- whether a graphics context can be had;
- `atan2f` in degrees, typed to return a value in [−180, 180];
- the emoji `randomElement()` picks for each face;
- whether `String.image(of:)` and `rotatedBy(degrees:)` produced an image;
- whether a camera is available.

Rotation of a coincident pair of points: `rotationDegreesTo` has no special
case for `from == to`. With `atan2f(0, 0) = 0` the code returns 270 degrees,
not 0. The model follows the code (`Geometry.CoincidentPointsRotation`).

Angles are measured in Vision's coordinates, where y grows upwards:
`pointsInImage` scales the landmarks to the image but does not flip them.
An upright face there has its mouth below its eyes in y and gets angle 0
(`Anchor.UprightFaceHasZeroAngle`). Pixel coordinates of an upright face,
where the mouth has the larger y, give 180 when passed in unflipped, because
to Vision they describe the face upside down. The same face flipped about
the image height gets 0 (`Anchor.WorkedTriad`).

The annotators scale a box by `Int(width)` and `Int(height)` but flip about
the untruncated height. For an image with a fractional height, the boxes are
therefore offset by the fractional part. The model keeps both as written
(`PixelSpace.PixelRectClosedForm`).

## Model

| member | source | states |
|---|---|---|
| `Wrappers.Coalesce` | FaceDetector-EMOJI-Complete/FaceDetector/Faces.swift:202-204 | definition of `a ?? b`: the first value when it is present, otherwise the second |
| `Geometry.CenteredOn` | FaceDetector-EMOJI-Complete/FaceDetector/Faces.swift:227-237 | the result keeps the rectangle's size; for a rectangle of non-negative size its centre is the given point |
| `Geometry.InsetBy` | FaceDetector-EMOJI-Complete/FaceDetector/Faces.swift:124-126 | the result is null exactly when the new width or height would be negative; otherwise its size is the standardized size less twice the insets, and its centre is the original centre |
| `Geometry.PaddingGrowsAboutCenter` | FaceDetector-EMOJI-Complete/FaceDetector/Faces.swift:120-126 | padding by a fraction f never gives null; it keeps the centre and scales both sides by 1 + 2f; f = 0 gives the rectangle back; f > 0 strictly grows every positive side |
| `Geometry.CenterPoint` | FaceDetector-EMOJI-Complete/FaceDetector/Faces.swift:262-267 | for a non-empty array, the centre times the count equals the reduce-sums of x and of y |
| `Geometry.CenterPointScaled` | FaceDetector-EMOJI-Complete/FaceDetector/Faces.swift:262-267 | scaling every point by w along x and h along y scales the centre point the same way |
| `Geometry.CenterPointWithinBounds` | FaceDetector-EMOJI-Complete/FaceDetector/Faces.swift:262-267 | the centre point lies inside every axis-aligned box that holds all the points |
| `Geometry.CenterPointOfTwo` | FaceDetector-EMOJI-Complete/FaceDetector/Faces.swift:214-216 | the centre point of the two eye points is their midpoint |
| `Geometry.CenterPointOfThree` | FaceDetector-EMOJI-Complete/FaceDetector/Faces.swift:210-212 | the centre point of eyes and mouth is the coordinate-wise mean of the three |
| `Geometry.TruncToInt` | FaceDetector-EMOJI-Complete/FaceDetector/Faces.swift:96-97 | `Int(x)` truncates toward zero: \|n\| ≤ \|x\| < \|n\| + 1, keeping the sign |
| `Geometry.TruncatingRemainder` | FaceDetector-EMOJI-Complete/FaceDetector/Faces.swift:252-253 | what is taken from the dividend is a whole multiple of the divisor, and the remainder is smaller in magnitude than the divisor and takes the sign of the dividend; together these determine it |
| `Geometry.NormalizedDegrees` | FaceDetector-EMOJI-Complete/FaceDetector/Faces.swift:250-253 | the result lies in [0, 360); bearings below 90 map to d + 270, the others to d − 90 |
| `Geometry.RotationDegreesTo` | FaceDetector-EMOJI-Complete/FaceDetector/Faces.swift:242-257 | the rotation to another point always lies in [0, 360) |
| `Geometry.StraightUpIsZero` | FaceDetector-EMOJI-Complete/FaceDetector/Faces.swift:246-253 | a bearing of 90 degrees from the x axis (straight up) normalises to 0 |
| `Geometry.CoincidentPointsRotation` | FaceDetector-EMOJI-Complete/FaceDetector/Faces.swift:242-257 | for coincident points, with atan2f(0, 0) = 0, the rotation is 270 degrees |
| `Geometry.NormalizedDegreesInjective` | FaceDetector-EMOJI-Complete/FaceDetector/Faces.swift:250-253 | different bearings in (−180, 180] give different rotations |
| `Geometry.NormalizedDegreesOpposite` | FaceDetector-EMOJI-Complete/FaceDetector/Faces.swift:250-253 | the bearings −180 and 180, the same direction, both give 90 |
| `Affine.ConcatApply` | FaceDetector-EMOJI-Complete/FaceDetector/Faces.swift:99-100 | applying a concatenation applies the first transform, then the second |
| `Affine.ApplyToRect` | FaceDetector-EMOJI-Complete/FaceDetector/Faces.swift:114-118 | a transformed rectangle has non-negative size |
| `Affine.FlipPoint` | FaceDetector-BBox-Complete/FaceDetector/Faces.swift:57-58 | the scale-then-translate transform maps (x, y) to (x, H − y) |
| `Affine.FlipInvolution` | FaceDetector-BBox-Complete/FaceDetector/Faces.swift:57-58 | flipping a point twice about the same height gives it back |
| `Affine.FlipRect` | FaceDetector-BBox-Complete/FaceDetector/Faces.swift:57-67 | a flipped rectangle keeps its width and height, and its top edge is at H − maxY |
| `Affine.FlipRectRoundTrip` | FaceDetector-BBox-Complete/FaceDetector/Faces.swift:57-67 | flipping a rectangle twice gives back its standardized form |
| `Anchor.GroupCenter` | FaceDetector-EMOJI-Complete/FaceDetector/Faces.swift:167-200 | a group's centre exists exactly when the group was detected, and it is the centre of the normalised points scaled by the image's width and height |
| `Anchor.LeftEyeCenter` | FaceDetector-EMOJI-Complete/FaceDetector/Faces.swift:202 | pupil before eye before eyebrow; nil exactly when all three are missing |
| `Anchor.RightEyeCenter` | FaceDetector-EMOJI-Complete/FaceDetector/Faces.swift:203 | pupil before eye before eyebrow; nil exactly when all three are missing |
| `Anchor.MouthCenter` | FaceDetector-EMOJI-Complete/FaceDetector/Faces.swift:204 | inner lips before outer lips; nil exactly when both are missing |
| `Anchor.AnchorPointInImage` | FaceDetector-EMOJI-Complete/FaceDetector/Faces.swift:162-222 | the angle is always present and in [0, 360); with both eyes and a mouth, the centre is the eyes' midpoint; otherwise the anchor is (centre of all points, 0); the centre is nil exactly when allPoints is missing and one eye or the mouth is missing altogether |
| `Anchor.TriadAngle` | FaceDetector-EMOJI-Complete/FaceDetector/Faces.swift:206-218 | with both eyes and a mouth, the angle is the rotation from the mean of the three points to the eyes' midpoint |
| `Anchor.UprightFaceHasZeroAngle` | FaceDetector-EMOJI-Complete/FaceDetector/Faces.swift:206-218 | level eyes with the mouth centred below them give angle 0 |
| `Anchor.NoGroupsNoCenter` | FaceDetector-EMOJI-Complete/FaceDetector/Faces.swift:167-221 | a face with no landmark groups at all takes the fallback: no centre and angle 0 |
| `Anchor.WorkedTriad` | FaceDetector-EMOJI-Complete/FaceDetector/Faces.swift:210-218 | eyes (100, 100) and (200, 100) with mouth (150, 180) give eyes centre (150, 100), triad centre (150, 380/3) and angle 180; the same face flipped about y = 1000 gives angle 0 |
| `PixelSpace.PixelRectClosedForm` | FaceDetector-BBox-Complete/FaceDetector/Faces.swift:63-67 | a normalised box (x, y, w, h) lands at (x·W, H − (y + h)·Int(H)) with size (w·W, h·Int(H)), where W = Int(width) |
| `PixelSpace.WorkedPixelRect` | FaceDetector-BBox-Complete/FaceDetector/Faces.swift:63-67 | on a 1000 × 1000 image the box (0.4, 0.5, 0.2, 0.2) becomes (400, 300, 200, 200) |
| `BoxAnnotator.DrawnOn` | FaceDetector-BBox-Complete/FaceDetector/Faces.swift:41-75 | nil without a graphics context; otherwise an upright image of the source's size holding the source, then one stroke per face in order |
| `BoxAnnotator.StrokesAt` | FaceDetector-BBox-Complete/FaceDetector/Faces.swift:60-69 | there is exactly one stroke per face, and stroke i is face i's pixel rectangle in red at 1% of the image width |
| `BoxAnnotator.AnnotatedLayers` | FaceDetector-BBox-Complete/FaceDetector/Faces.swift:48-69 | the result keeps the source's size and has 1 + n layers; layer 0 is the source at full size; layer 1 + i outlines face i; with no faces, only the source is drawn |
| `BoxAnnotator.StrokesShareStyle` | FaceDetector-BBox-Complete/FaceDetector/Faces.swift:54-55 | every stroke is red and 0.01 × the image width wide |
| `EmojiAnnotator.RotationAngle` | FaceDetector-EMOJI-Complete/FaceDetector/Faces.swift:34-39 | the angle keeps its magnitude and is negated unless clockwise (or zero) |
| `EmojiAnnotator.FaceOverlay` | FaceDetector-EMOJI-Complete/FaceDetector/Faces.swift:105-126 | a face gets an overlay exactly when it has landmarks whose anchor has a centre; the overlay carries the anchor's angle |
| `EmojiAnnotator.OverlayGeometry` | FaceDetector-EMOJI-Complete/FaceDetector/Faces.swift:110-126 | the overlay has the face's pixel-box size and is centred on the flipped anchor (c.x, H − c.y); the padded overlay has the same centre and 1.6 times the width and height |
| `EmojiAnnotator.GlyphLayer` | FaceDetector-EMOJI-Complete/FaceDetector/Faces.swift:128-149 | the glyph is one of the nine emoji, drawn in the padded rectangle, turned by minus the anchor angle when rotation succeeded and unturned when it failed |
| `EmojiAnnotator.DrawnOn` | FaceDetector-EMOJI-Complete/FaceDetector/Faces.swift:84-157 | nil without a graphics context; otherwise an upright image of the source's size holding the source, then the glyphs of the drawable faces in order |
| `EmojiAnnotator.DrawFace` | FaceDetector-EMOJI-Complete/FaceDetector/Faces.swift:104-150 | one iteration appends that face's glyph when it is drawable and nothing otherwise |
| `EmojiAnnotator.LayersFollowDrawnFaces` | FaceDetector-EMOJI-Complete/FaceDetector/Faces.swift:104-151 | there is one glyph per drawn face, and glyph j is the glyph of the j-th drawn face |
| `EmojiAnnotator.DrawnFacesIncrease` | FaceDetector-EMOJI-Complete/FaceDetector/Faces.swift:104 | the drawn faces are face positions visited in iteration order, so they strictly increase and number at most the faces |
| `EmojiAnnotator.DrawnFacesAreDrawable` | FaceDetector-EMOJI-Complete/FaceDetector/Faces.swift:104-150 | a face is drawn exactly when it has an overlay and its glyph could be rasterised |
| `EmojiAnnotator.FaceLayersOfOverlay` | FaceDetector-EMOJI-Complete/FaceDetector/Faces.swift:128-150 | for a face with a known overlay, the iteration appends the picked emoji in the padded rectangle, turned by the negated angle when rotation succeeded; it appends nothing when the glyph could not be rasterised |
| `EmojiAnnotator.SkippedFaceNotDrawn` | FaceDetector-EMOJI-Complete/FaceDetector/Faces.swift:105-112 | a face without landmarks, or whose anchor has no centre, gets no glyph |
| `EmojiAnnotator.AnnotatedShape` | FaceDetector-EMOJI-Complete/FaceDetector/Faces.swift:84-157 | the result keeps the source's size and is upright; layer 0 is the source; there are at most 1 + n layers, all after the first being emoji glyphs |
| `Graphics.FixOrientation` | FaceDetector-EMOJI-Complete/FaceDetector/Views.swift:145-151 | nil without a context; otherwise an upright image of the same size holding the original drawn at full size |
| `MainScreen.Decimal` | FaceDetector-EMOJI-Complete/FaceDetector/ContentView.swift:95 | an interpolated count is a non-empty run of digits with no leading zero |
| `MainScreen.DecimalRoundTrip` | FaceDetector-EMOJI-Complete/FaceDetector/ContentView.swift:95 | the digits read back give the count |
| `MainScreen.FaceCountLabel` | FaceDetector-EMOJI-Complete/FaceDetector/ContentView.swift:95 | the label is "N face" or "N faces", ending in "s" exactly when N ≠ 1 |
| `MainScreen.ContentView.constructor` | FaceDetector-EMOJI-Complete/FaceDetector/ContentView.swift:27-30 | both pickers start closed, with no image and no faces |
| `MainScreen.ContentView.FaceCount` | FaceDetector-EMOJI-Complete/FaceDetector/ContentView.swift:33 | definition of `faces?.count ?? 0`: the count is 0 without a result, otherwise the number of faces |
| `MainScreen.ContentView.DetectionEnabled` | FaceDetector-EMOJI-Complete/FaceDetector/ContentView.swift:40 | detection is enabled only with an image and a face count of 0; `Body` disables Detect exactly when it is not enabled, and `GetFacesStart` disables it |
| `MainScreen.ContentView.Body` | FaceDetector-EMOJI-Complete/FaceDetector/ContentView.swift:43-47 | the library picker when it is open, else the camera when that is open, else the main view; the main view shows the image or the placeholder, the face-count label, Detect disabled exactly when detection is not enabled, and the camera button disabled exactly when there is no camera |
| `MainScreen.ContentView.GetFacesStart` | FaceDetector-EMOJI-Complete/FaceDetector/ContentView.swift:50-53 | the faces are emptied, so Detect is disabled and the count is 0 while the request is pending; the request is for the current image |
| `MainScreen.ContentView.GetFacesComplete` | FaceDetector-EMOJI-Complete/FaceDetector/ContentView.swift:53-61 | the faces become the result; an image present with a result is replaced by its emoji-annotated form when drawing succeeds; the image never appears or disappears, keeps its size, and stays upright |
| `MainScreen.ContentView.SummonImagePicker` | FaceDetector-EMOJI-Complete/FaceDetector/ContentView.swift:67-70 | the library picker is open; nothing else changes |
| `MainScreen.ContentView.SummonCamera` | FaceDetector-EMOJI-Complete/FaceDetector/ContentView.swift:73-76 | the camera is open; nothing else changes |
| `MainScreen.ContentView.ControlReturned` | FaceDetector-EMOJI-Complete/FaceDetector/ContentView.swift:79-83 | the image becomes the returned one redrawn upright; the faces are cleared; detection is enabled exactly when an image came back and could be redrawn |
| `MainScreen.ContentView.ImagePickerReturned` | FaceDetector-EMOJI-Complete/FaceDetector/ContentView.swift:118-123 | control returns, then the library picker closes; the camera flag is untouched and the image is upright |
| `MainScreen.ContentView.CameraReturned` | FaceDetector-EMOJI-Complete/FaceDetector/ContentView.swift:126-131 | control returns, then the camera closes; the picker flag is untouched and the image is upright |

## Left out

- `detectFaces(completion:)` (both variants): it runs the Vision request on a background queue. Its result is the `result` parameter of `GetFacesComplete`, and the dispatch itself is not modelled.
- The UI of Views.swift (`MainView`, `TwoStateButton`, `ImagePicker` and its coordinator) is not modelled. The picker's answer is the `returned` parameter of the `…Returned` methods.
- `cgImageOrientation` (Views.swift): it only feeds the left-out detector request.
- `String.image(of:scale:)`: the glyph is recorded as a layer, not rasterised. Whether rasterising succeeds is a parameter.
- `rotatedBy(degrees:clockwise:)`: only its sign convention and its success are modelled. The rotated canvas size and its `floor`, the radians conversion and the pixel drawing are left out.
- Floating point: CGFloat and Float are modelled as exact reals. `atan2f` is a parameter typed to return a bearing in [−180, 180], and the Float↔CGFloat conversions are not modelled.
- `pointsInImage(imageSize:)` and `VNImageRectForNormalizedRect` are stated as plain scaling by the image size. Vision's own implementation is not part of this model.
- Landmark groups are taken to be non-empty point lists. The code divides by the count unguarded, so the empty case is not modelled.
- `randomElement()` is a parameter. It picks an index into the nine emoji for each face position.
- `cameraEnabled` (`UIImagePickerController.isSourceTypeAvailable`) is a parameter of `Body`.
- `print` logging in `getFaces`, `summonImagePicker`, `summonCamera` and `controlReturned` is left out.
- Pixels: images are recorded as the list of draw calls that produced them. Compositing, colour spaces and the context scale factor are not modelled.
- The interleaving of a pending detection with a new image choice is not modelled. The completion writes whatever image is current when it runs, as `GetFacesComplete` states.
- Geometry.RotationDegreesTo: its contract states only the [0, 360) range, because atan2f is a parameter. What the rotation is for particular directions is stated by `Geometry.NormalizedDegrees`, `Geometry.StraightUpIsZero`, `Anchor.UprightFaceHasZeroAngle` and `Geometry.CoincidentPointsRotation`.
- EmojiAnnotator.GlyphLayer: the glyph is stated only to be one of the nine emoji, because the choice is random in the source.
- Affine.ApplyToRect: its contract gives only the non-negative size of the bounding box. The exact result for the flip used here is `Affine.FlipRect`.
