/** The example app's camera view controller: the device-orientation state, the
    region of interest that recognition is restricted to, and the text
    orientation hint handed to the recognizer. */
module ExampleViewController {
  import opened Wrappers
  import opened Geometry

  /** `UIDeviceOrientation`. */
  datatype DeviceOrientation =
    | Unknown | Portrait | PortraitUpsideDown | LandscapeLeft | LandscapeRight | FaceUp | FaceDown
  {
    predicate IsPortrait() { this == Portrait || this == PortraitUpsideDown }

    predicate IsLandscape() { this == LandscapeLeft || this == LandscapeRight }
  }

  /** `AVCaptureVideoOrientation`. */
  datatype VideoOrientation = VideoPortrait | VideoPortraitUpsideDown | VideoLandscapeRight | VideoLandscapeLeft

  /** `AVCaptureVideoOrientation.init?(deviceOrientation:)`: portrait cases are
      kept, the landscape cases swap (the camera's landscape-right is the
      device's landscape-left), and flat or unknown give nothing. */
  function CaptureOrientation(deviceOrientation: DeviceOrientation): (r: Option<VideoOrientation>)
    ensures r.Some? <==> deviceOrientation.IsPortrait() || deviceOrientation.IsLandscape()
  {
    match deviceOrientation
    case Portrait => Some(VideoPortrait)
    case PortraitUpsideDown => Some(VideoPortraitUpsideDown)
    case LandscapeLeft => Some(VideoLandscapeRight)
    case LandscapeRight => Some(VideoLandscapeLeft)
    case _ => None
  }

  /** The device orientation a capture orientation corresponds to. */
  function DeviceOrientationOf(videoOrientation: VideoOrientation): DeviceOrientation {
    match videoOrientation
    case VideoPortrait => Portrait
    case VideoPortraitUpsideDown => PortraitUpsideDown
    case VideoLandscapeRight => LandscapeLeft
    case VideoLandscapeLeft => LandscapeRight
  }

  /** The capture-orientation mapping is a bijection between the four
      supported device orientations and the four capture orientations. */
  lemma CaptureOrientationBijective(deviceOrientation: DeviceOrientation, videoOrientation: VideoOrientation)
    ensures CaptureOrientation(DeviceOrientationOf(videoOrientation)) == Some(videoOrientation)
    ensures CaptureOrientation(deviceOrientation) == Some(videoOrientation)
      <==> deviceOrientation == DeviceOrientationOf(videoOrientation)
  {
  }

  /** The text orientation hint of `setupOrientationAndTransform`: buffers
      always arrive in landscape-left orientation, and everything that is not
      landscape or upside-down is treated as portrait. Only landscape-left reads
      the buffer unrotated. */
  function TextOrientationFor(orientation: DeviceOrientation): (r: ImageOrientation)
    ensures r in {Up, Down, Left, Right}
    ensures r == Up <==> orientation == LandscapeLeft
  {
    match orientation
    case LandscapeLeft => Up
    case LandscapeRight => Down
    case PortraitUpsideDown => Left
    case _ => Right
  }

  /** The table is total, and the four supported orientations get four
      different hints, each an unmirrored one. */
  lemma TextOrientationTable(a: DeviceOrientation, b: DeviceOrientation)
    ensures TextOrientationFor(a) in {Up, Down, Left, Right}
    ensures !(a.IsPortrait() || a.IsLandscape()) ==> TextOrientationFor(a) == Right
    ensures (a.IsPortrait() || a.IsLandscape()) && (b.IsPortrait() || b.IsLandscape()) && a != b
      ==> TextOrientationFor(a) != TextOrientationFor(b)
  {
  }

  // ----- Region of interest -----

  const DesiredHeightRatio: real := 0.15
  const DesiredWidthRatio: real := 0.6
  const MaxPortraitWidth: real := 0.8

  function Min(a: real, b: real): real { if a <= b then a else b }

  /** The buffer aspect ratio `setupCamera` records: 4K when the device
      supports it, 1080p otherwise. */
  function BufferAspectRatio(supports4K: bool): (r: real)
    ensures r == 16.0 / 9.0
  {
    if supports4K then 3840.0 / 2160.0 else 1920.0 / 1080.0
  }

  /** Whether the region's size depends on the buffer's aspect ratio: portrait
      and unknown do, the other orientations use the desired ratios as they are. */
  predicate ReadsAspectRatio(orientation: DeviceOrientation) {
    orientation.IsPortrait() || orientation == Unknown
  }

  /** The size of the region of interest, as a fraction of the buffer: in
      landscape (and flat) the desired ratios, whatever the aspect ratio, which
      may still be unset; in portrait (or unknown) the same height in buffer
      pixels and the same width up to a cap. */
  function RoiSize(orientation: DeviceOrientation, bufferAspectRatio: Option<real>): (size: Size)
    requires ReadsAspectRatio(orientation) ==> bufferAspectRatio.Some? && bufferAspectRatio.value != 0.0
    ensures !ReadsAspectRatio(orientation) ==> size == Size(0.6, 0.15)
    ensures ReadsAspectRatio(orientation) ==>
      && size.height * bufferAspectRatio.value == 0.15
      && size.width <= 0.8 && size.width <= 0.6 * bufferAspectRatio.value
      && (size.width == 0.6 * bufferAspectRatio.value || size.width == 0.8)
  {
    if ReadsAspectRatio(orientation) then
      Size(Min(DesiredWidthRatio * bufferAspectRatio.value, MaxPortraitWidth),
           DesiredHeightRatio / bufferAspectRatio.value)
    else
      Size(DesiredWidthRatio, DesiredHeightRatio)
  }

  /** A region of the given size centred in the unit square. */
  function Centered(size: Size): (roi: Rect)
    ensures roi.size == size
    ensures roi.origin.x + size.width / 2.0 == 0.5 && roi.origin.y + size.height / 2.0 == 0.5
  {
    Rect(Point((1.0 - size.width) / 2.0, (1.0 - size.height) / 2.0), size)
  }

  /** With the 16:9 buffers the camera delivers, the region of interest is a
      non-empty rectangle inside the unit square, whatever the orientation. */
  lemma RoiInsideUnitSquare(orientation: DeviceOrientation, supports4K: bool)
    ensures var roi := Centered(RoiSize(orientation, Some(BufferAspectRatio(supports4K))));
      && 0.0 < roi.size.width && 0.0 < roi.size.height
      && 0.0 <= roi.origin.x && roi.origin.x + roi.size.width <= 1.0
      && 0.0 <= roi.origin.y && roi.origin.y + roi.size.height <= 1.0
  {
  }

  /** In portrait the width cap applies (0.6 * 16/9 exceeds 0.8): the region is
      0.8 by 0.084375, at (0.1, 0.4578125). */
  lemma PortraitRoi(supports4K: bool)
    ensures Centered(RoiSize(Portrait, Some(BufferAspectRatio(supports4K))))
      == Rect(Point(0.1, 0.4578125), Size(0.8, 0.084375))
  {
  }

  /** In landscape the region is 0.6 by 0.15, at (0.2, 0.425), whether or not
      the aspect ratio has been set. */
  lemma LandscapeRoi(orientation: DeviceOrientation, bufferAspectRatio: Option<real>)
    requires orientation.IsLandscape()
    ensures Centered(RoiSize(orientation, bufferAspectRatio)) == Rect(Point(0.2, 0.425), Size(0.6, 0.15))
  {
  }

  // ----- The controller's state -----

  class ViewController {
    /** Updated whenever the device turns to a different supported orientation. */
    var currentOrientation: DeviceOrientation
    var regionOfInterest: Rect
    var textOrientation: ImageOrientation
    /** `Double!`: unset until the camera is configured. */
    var bufferAspectRatio: Option<real>
    /** The orientation last given to the preview layer's connection, if any. */
    var previewVideoOrientation: Option<VideoOrientation>

    /** The current orientation is always portrait or landscape. */
    ghost predicate Valid()
      reads this
    {
      currentOrientation.IsPortrait() || currentOrientation.IsLandscape()
    }

    constructor ()
      ensures Valid()
      ensures currentOrientation == Portrait
      ensures regionOfInterest == Rect(Point(0.0, 0.0), Size(1.0, 1.0))
      ensures textOrientation == Up
      ensures bufferAspectRatio == None && previewVideoOrientation == None
    {
      currentOrientation := Portrait;
      regionOfInterest := Rect(Point(0.0, 0.0), Size(1.0, 1.0));
      textOrientation := Up;
      bufferAspectRatio := None;
      previewVideoOrientation := None;
    }

    /** The session-preset part of `setupCamera`. */
    method SetupBufferAspectRatio(supports4K: bool)
      modifies this`bufferAspectRatio
      ensures bufferAspectRatio == Some(16.0 / 9.0)
    {
      bufferAspectRatio := Some(BufferAspectRatio(supports4K));
    }

    /** The orientation part of `setupOrientationAndTransform`. */
    method SetupOrientationAndTransform()
      modifies this`textOrientation
      ensures textOrientation == TextOrientationFor(currentOrientation)
    {
      match currentOrientation
      case LandscapeLeft => textOrientation := Up;
      case LandscapeRight => textOrientation := Down;
      case PortraitUpsideDown => textOrientation := Left;
      case _ => textOrientation := Right;
    }

    /** `calculateRegionOfInterest`: size and centre the region for the
        current orientation, then recompute the orientation state. The portrait
        branch force-unwraps the aspect ratio, so there it must have been set;
        the landscape branch never reads it. */
    method CalculateRegionOfInterest()
      requires ReadsAspectRatio(currentOrientation) ==> bufferAspectRatio.Some? && bufferAspectRatio.value != 0.0
      modifies this`regionOfInterest, this`textOrientation
      ensures regionOfInterest == Centered(RoiSize(currentOrientation, bufferAspectRatio))
      ensures textOrientation == TextOrientationFor(currentOrientation)
    {
      var size: Size;
      if currentOrientation.IsPortrait() || currentOrientation == Unknown {
        var aspect := bufferAspectRatio.value;
        size := Size(Min(DesiredWidthRatio * aspect, MaxPortraitWidth), DesiredHeightRatio / aspect);
      } else {
        size := Size(DesiredWidthRatio, DesiredHeightRatio);
      }
      regionOfInterest := Rect(Point((1.0 - size.width) / 2.0, (1.0 - size.height) / 2.0), size);
      SetupOrientationAndTransform();
    }

    /** `viewWillTransition`: adopt the new device orientation only when it is
        portrait or landscape, turn the preview connection (when there is one)
        if the orientation has a capture counterpart, and recompute the region. */
    method ViewWillTransition(deviceOrientation: DeviceOrientation, hasPreviewConnection: bool)
      requires Valid()
      requires var adopted := if deviceOrientation.IsPortrait() || deviceOrientation.IsLandscape()
          then deviceOrientation else currentOrientation;
        ReadsAspectRatio(adopted) ==> bufferAspectRatio.Some? && bufferAspectRatio.value != 0.0
      modifies this
      ensures Valid()
      ensures currentOrientation
        == if deviceOrientation.IsPortrait() || deviceOrientation.IsLandscape()
           then deviceOrientation else old(currentOrientation)
      ensures previewVideoOrientation
        == if hasPreviewConnection && CaptureOrientation(deviceOrientation).Some?
           then CaptureOrientation(deviceOrientation) else old(previewVideoOrientation)
      ensures bufferAspectRatio == old(bufferAspectRatio)
      ensures regionOfInterest == Centered(RoiSize(currentOrientation, bufferAspectRatio))
      ensures textOrientation == TextOrientationFor(currentOrientation)
    {
      if deviceOrientation.IsPortrait() || deviceOrientation.IsLandscape() {
        currentOrientation := deviceOrientation;
      }
      if hasPreviewConnection {
        var newVideoOrientation := CaptureOrientation(deviceOrientation);
        if newVideoOrientation.Some? {
          previewVideoOrientation := newVideoOrientation;
        }
      }
      CalculateRegionOfInterest();
    }
  }
}
