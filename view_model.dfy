/** The example app's SwiftUI view model: it runs the live scanner on camera
    images inside the on-screen MRZ frame and moves the returned rectangles
    between centre-anchored and top-left-anchored coordinates. */
module ExampleViewModel {
  import opened Wrappers
  import opened Geometry
  import opened ScanningResults
  import opened Scanner

  /** Which corner the corrected rectangle's origin stands for. */
  datatype CorrectionType = Center | LeftTop

  /** `correctCoordinates(to:rect:)`: shift the origin by half the
      (standardized) size, forward for `Center` and back for `LeftTop`. */
  function CorrectCoordinates(kind: CorrectionType, rect: Rect): (r: Rect)
    ensures r.size == rect.size
  {
    var x := if kind == Center then rect.MinX() + rect.Width() / 2.0 else rect.MinX() - rect.Width() / 2.0;
    var y := if kind == Center then rect.MinY() + rect.Height() / 2.0 else rect.MinY() - rect.Height() / 2.0;
    Rect(Point(x, y), rect.size)
  }

  /** For a rectangle of non-negative size, `Center` moves the origin by half
      the size and `LeftTop` moves it back by as much. */
  lemma CorrectionShift(rect: Rect)
    requires rect.size.width >= 0.0 && rect.size.height >= 0.0
    ensures CorrectCoordinates(Center, rect).origin
      == Point(rect.origin.x + rect.size.width / 2.0, rect.origin.y + rect.size.height / 2.0)
    ensures CorrectCoordinates(LeftTop, rect).origin
      == Point(rect.origin.x - rect.size.width / 2.0, rect.origin.y - rect.size.height / 2.0)
  {
  }

  /** Over exact reals the two corrections undo each other. */
  lemma CorrectionRoundTrip(rect: Rect)
    requires rect.size.width >= 0.0 && rect.size.height >= 0.0
    ensures CorrectCoordinates(LeftTop, CorrectCoordinates(Center, rect)) == rect
    ensures CorrectCoordinates(Center, CorrectCoordinates(LeftTop, rect)) == rect
  {
    CorrectionShift(rect);
    CorrectionShift(CorrectCoordinates(Center, rect));
    CorrectionShift(CorrectCoordinates(LeftTop, rect));
  }

  /** The nested `correctRects`: correct each rectangle, then move it by the
      top-left corner of `frame`. */
  function CorrectRects(kind: CorrectionType, rects: seq<Rect>, frame: Rect): (r: seq<Rect>)
    ensures |r| == |rects|
    ensures forall k :: 0 <= k < |rects| ==>
      r[k].size == rects[k].size
      && r[k].origin.x == CorrectCoordinates(kind, rects[k]).origin.x + frame.MinX()
      && r[k].origin.y == CorrectCoordinates(kind, rects[k]).origin.y + frame.MinY()
  {
    if rects == [] then []
    else
      var corrected := CorrectCoordinates(kind, rects[0]);
      [Rect(Point(corrected.origin.x + frame.MinX(), corrected.origin.y + frame.MinY()), corrected.size)]
        + CorrectRects(kind, rects[1..], frame)
  }

  /** `correctBoundingRects(to:rects:)`: convert both groups to the MRZ
      frame's size, then correct them and place them relative to the frame's
      top-left corner. */
  function CorrectBoundingRects(kind: CorrectionType, rects: ScannedBoundingRects, mrzRect: Rect, convert: RectConverter)
    : (r: ScannedBoundingRects)
    ensures |r.valid| == |rects.valid| && |r.invalid| == |rects.invalid|
  {
    var convertedCoordinates := rects.ConvertedTo(mrzRect.size, convert);
    var correctedMRZRect := CorrectCoordinates(LeftTop, mrzRect);
    ScannedBoundingRects(
      CorrectRects(kind, convertedCoordinates.valid, correctedMRZRect),
      CorrectRects(kind, convertedCoordinates.invalid, correctedMRZRect))
  }

  /** For the centre correction the app uses, with non-negative sizes: each
      rectangle keeps its size, and its origin becomes its centre offset by the
      top-left corner of the MRZ frame (the frame's origin moved back by half
      its size). */
  lemma CenteredRectsPlacement(rects: seq<Rect>, mrzRect: Rect)
    requires mrzRect.size.width >= 0.0 && mrzRect.size.height >= 0.0
    requires forall k :: 0 <= k < |rects| ==> rects[k].size.width >= 0.0 && rects[k].size.height >= 0.0
    ensures var r := CorrectRects(Center, rects, CorrectCoordinates(LeftTop, mrzRect));
      forall k :: 0 <= k < |rects| ==>
        r[k] == Rect(
          Point(rects[k].origin.x + rects[k].size.width / 2.0 + mrzRect.origin.x - mrzRect.size.width / 2.0,
                rects[k].origin.y + rects[k].size.height / 2.0 + mrzRect.origin.y - mrzRect.size.height / 2.0),
          rects[k].size)
  {
    var frame := CorrectCoordinates(LeftTop, mrzRect);
    CorrectionShift(mrzRect);
    var r := CorrectRects(Center, rects, frame);
    forall k | 0 <= k < |rects|
      ensures r[k] == Rect(
          Point(rects[k].origin.x + rects[k].size.width / 2.0 + mrzRect.origin.x - mrzRect.size.width / 2.0,
                rects[k].origin.y + rects[k].size.height / 2.0 + mrzRect.origin.y - mrzRect.size.height / 2.0),
          rects[k].size)
    {
      CorrectionShift(rects[k]);
    }
  }

  /** The view model's published state, with the scanner it drives. */
  class ViewModel<Image, Record> {
    const scanner: MRZScanner<Image, Record>
    /** `CGRect.convert(to:imageSize:)`, done by Vision. */
    const convert: RectConverter
    var cameraRect: Option<Rect>
    var boundingRects: Option<ScannedBoundingRects>
    var mrzRect: Option<Rect>
    var mrzResult: Option<Record>

    constructor (scanner: MRZScanner<Image, Record>, convert: RectConverter)
      ensures this.scanner == scanner && this.convert == convert
      ensures cameraRect == None && boundingRects == None && mrzRect == None && mrzResult == None
    {
      this.scanner := scanner;
      this.convert := convert;
      cameraRect := None;
      boundingRects := None;
      mrzRect := None;
      mrzResult := None;
    }

    /** `scan(image:)`: nothing happens until both the camera and the MRZ
        frame are known. Otherwise one live frame is scanned inside the MRZ
        frame, text lower than a tenth of the image is ignored, and the outcome is
        published: a result with its rectangles re-anchored at their centres,
        the rectangles of a `ScanningResultError`, or nothing for a recognizer
        error. */
    method Scan(image: Image)
      modifies this, scanner.frequencyTracker
      ensures old(cameraRect).None? || old(mrzRect).None? ==>
        unchanged(this) && unchanged(scanner.frequencyTracker)
      ensures old(cameraRect).Some? && old(mrzRect).Some? ==>
        var mrz := old(mrzRect).value;
        var roi := convert(CorrectCoordinates(LeftTop, mrz), NormalizedRect, old(cameraRect).value.size);
        var (r, after) := scanner.LiveStep(image, Up, Some(roi), Some(0.1), old(scanner.frequencyTracker.history));
        && scanner.frequencyTracker.history == after
        && cameraRect == old(cameraRect) && mrzRect == old(mrzRect)
        && match r
           case Success(result) =>
             boundingRects == Some(CorrectBoundingRects(Center, result.boundingRects, mrz, convert))
             && mrzResult == Some(result.data)
           case Failure(NotScanned(error)) =>
             boundingRects == error.boundingRects && mrzResult == old(mrzResult)
           case Failure(RecognitionFailed(_)) =>
             boundingRects == old(boundingRects) && mrzResult == old(mrzResult)
    {
      if cameraRect.None? || mrzRect.None? {
        return;
      }
      var mrz := mrzRect.value;
      var correctedMRZRect := CorrectCoordinates(LeftTop, mrz);
      var roi := convert(correctedMRZRect, NormalizedRect, cameraRect.value.size);
      var result := scanner.ScanLive(image, Up, Some(roi), Some(0.1));
      match result
      case Success(scanned) =>
        boundingRects := Some(CorrectBoundingRects(Center, scanned.boundingRects, mrz, convert));
        mrzResult := Some(scanned.data);
      case Failure(NotScanned(error)) =>
        boundingRects := error.boundingRects;
      case Failure(RecognitionFailed(_)) =>
    }
  }
}
