/**
 * The app's main screen, ContentView: four pieces of state, the values
 * derived from them, the view the body shows, and the transitions the
 * buttons and the image picker trigger. Face detection runs asynchronously,
 * so getFaces is split into the part that runs on the tap and the
 * completion that runs when the detector answers.
 */
module MainScreen {
  import opened Wrappers
  import opened Vision
  import opened Graphics
  import EmojiAnnotator

  /* ---- The face-count label ---- */

  function Digit(d: nat): (c: char)
    requires d < 10
    ensures '0' <= c <= '9' && c as int - '0' as int == d
  {
    ('0' as int + d) as char
  }

  /** Swift's string interpolation of a non-negative Int: its decimal digits. */
  function Decimal(n: nat): (s: string)
    ensures |s| >= 1
    ensures forall i :: 0 <= i < |s| ==> '0' <= s[i] <= '9'
    ensures |s| > 1 ==> s[0] != '0'
  {
    if n < 10 then [Digit(n)] else Decimal(n / 10) + [Digit(n % 10)]
  }

  /** The number a string of decimal digits denotes. */
  function DecimalValue(s: string): nat
    requires forall i :: 0 <= i < |s| ==> '0' <= s[i] <= '9'
  {
    if |s| == 0 then 0 else 10 * DecimalValue(s[..|s| - 1]) + (s[|s| - 1] as int - '0' as int)
  }

  /** The digits read back give the count: the label shows the number of faces. */
  lemma {:induction false} DecimalRoundTrip(n: nat)
    ensures DecimalValue(Decimal(n)) == n
  {
    if n >= 10 {
      DecimalRoundTrip(n / 10);
      var s := Decimal(n);
      assert s[..|s| - 1] == Decimal(n / 10);
    }
  }

  /** `"\(faceCount) face\(faceCount == 1 ? "" : "s")"` */
  function FaceCountLabel(n: nat): (s: string)
    ensures s == Decimal(n) + " face" || s == Decimal(n) + " faces"
    ensures s[|s| - 1] == 's' <==> n != 1
  {
    Decimal(n) + " face" + (if n == 1 then "" else "s")
  }

  /* ---- The screen ---- */

  /** The image the main view shows: the current one, or the bundled placeholder. */
  datatype Shown = Placeholder | Photo(image: Image)

  /** What the body returns: an image picker (from the library or the camera) or the main view. */
  datatype Screen =
    | ImagePicker(camera: bool)
    | MainView(shown: Shown, faceCountText: string, detectDisabled: bool, cameraDisabled: bool)

  class ContentView {
    var imagePickerOpen: bool
    var cameraOpen: bool
    var image: Option<Image>
    var faces: Option<seq<Observation>>

    constructor ()
      ensures !imagePickerOpen && !cameraOpen && image == None && faces == None
    {
      imagePickerOpen := false;
      cameraOpen := false;
      image := None;
      faces := None;
    }

    /** faceCount: the number of faces found, 0 when there is no result. */
    function FaceCount(): (n: nat)
      reads this
      ensures faces.None? ==> n == 0
      ensures faces.Some? ==> n == |faces.value|
    {
      match faces
      case None => 0
      case Some(fs) => |fs|
    }

    /**
     * detectionEnabled: there is an image and no result (nor pending
     * request) for it, so Detect is offered only while the count is 0.
     */
    predicate DetectionEnabled()
      reads this
      ensures DetectionEnabled() ==> image.Some? && FaceCount() == 0
    {
      image.Some? && faces.None?
    }

    /**
     * Every image the view holds is upright: a returned image is redrawn by
     * fixOrientation and an annotated one is drawn afresh, both with the
     * up orientation.
     */
    predicate Upright()
      reads this
    {
      image.Some? ==> image.value.orientation == Up
    }

    /**
     * body: the library picker when it is open, else the camera when it is
     * open, else the main view, whose Detect button is disabled exactly when
     * detection is not enabled and whose camera button is disabled exactly
     * when no camera is available.
     */
    function Body(cameraEnabled: bool): (s: Screen)
      reads this
      ensures s == ImagePicker(false) <==> imagePickerOpen
      ensures s == ImagePicker(true) <==> !imagePickerOpen && cameraOpen
      ensures s.MainView? <==> !imagePickerOpen && !cameraOpen
      ensures s.MainView? ==> s.detectDisabled == !DetectionEnabled() && s.cameraDisabled == !cameraEnabled
      ensures s.MainView? ==> s.faceCountText == FaceCountLabel(FaceCount())
      ensures s.MainView? ==> (s.shown == Placeholder <==> image.None?)
      ensures s.MainView? && image.Some? ==> s.shown == Photo(image.value)
    {
      if imagePickerOpen then ImagePicker(false)
      else if cameraOpen then ImagePicker(true)
      else MainView(
        if image.Some? then Photo(image.value) else Placeholder,
        FaceCountLabel(FaceCount()),
        !DetectionEnabled(),
        !cameraEnabled)
    }

    /**
     * getFaces, up to the call of detectFaces: the result is emptied, so
     * detection is disabled while the request is pending, and the request
     * goes out for the current image, if any.
     */
    method GetFacesStart() returns (request: Option<Image>)
      modifies this`faces
      ensures faces == Some([]) && request == image
      ensures !DetectionEnabled() && FaceCount() == 0
    {
      faces := Some([]);
      request := image;
    }

    /**
     * The completion closure of getFaces: the result becomes the faces, and
     * the image currently shown is replaced by its annotated form when there
     * is one, there is a result and drawnOn produced an image.
     */
    method GetFacesComplete(result: Option<seq<Observation>>, platform: EmojiAnnotator.Platform)
      modifies this`faces, this`image
      ensures faces == result
      ensures image == if old(image).Some? && result.Some? && platform.contextAvailable
                       then Some(EmojiAnnotator.Annotated(old(image).value, result.value, platform))
                       else old(image)
      ensures DetectionEnabled() <==> old(image).Some? && result.None?
      ensures image.Some? <==> old(image).Some?
      ensures image.Some? ==> image.value.size == old(image).value.size
      ensures old(Upright()) ==> Upright()
    {
      faces := result;
      if image.Some? && result.Some? {
        var annotatedImage := EmojiAnnotator.DrawnOn(result.value, image.value, platform);
        if annotatedImage.Some? {
          image := annotatedImage;
        }
      }
    }

    /** summonImagePicker: opens the library picker and changes nothing else. */
    method SummonImagePicker()
      modifies this`imagePickerOpen
      ensures imagePickerOpen
    {
      imagePickerOpen := true;
    }

    /** summonCamera: opens the camera and changes nothing else. */
    method SummonCamera()
      modifies this`cameraOpen
      ensures cameraOpen
    {
      cameraOpen := true;
    }

    /**
     * controlReturned(image:): the returned image, redrawn upright, becomes
     * the image and the old result is dropped, so detection is enabled
     * exactly when an image came back and could be redrawn.
     */
    method ControlReturned(returned: Option<Image>, contextAvailable: bool)
      modifies this`image, this`faces
      ensures faces == None
      ensures image == if returned.Some? then FixOrientation(returned.value, contextAvailable) else None
      ensures DetectionEnabled() <==> returned.Some? && contextAvailable
      ensures FaceCount() == 0
      ensures Upright()
      ensures image.Some? ==> image.value.size == returned.value.size
    {
      image := if returned.Some? then FixOrientation(returned.value, contextAvailable) else None;
      faces := None;
    }

    /** The completion closure of the library picker: control returns, then the picker closes. */
    method ImagePickerReturned(returned: Option<Image>, contextAvailable: bool)
      modifies this
      ensures faces == None
      ensures image == if returned.Some? then FixOrientation(returned.value, contextAvailable) else None
      ensures !imagePickerOpen && cameraOpen == old(cameraOpen)
      ensures Upright()
    {
      ControlReturned(returned, contextAvailable);
      imagePickerOpen := false;
    }

    /** The completion closure of the camera: control returns, then the camera closes. */
    method CameraReturned(returned: Option<Image>, contextAvailable: bool)
      modifies this
      ensures faces == None
      ensures image == if returned.Some? then FixOrientation(returned.value, contextAvailable) else None
      ensures !cameraOpen && imagePickerOpen == old(imagePickerOpen)
      ensures Upright()
    {
      ControlReturned(returned, contextAvailable);
      cameraOpen := false;
    }
  }
}
