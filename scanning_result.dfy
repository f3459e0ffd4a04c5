/** The values the live scanner hands back: a parsed record with the frame's
    rectangle classification, or an error that may carry that classification. */
module ScanningResults {
  import opened Wrappers
  import opened Geometry

  /** Each rectangle of `rects`, converted with `convert` to image
      coordinates for an image of `imageSize`. */
  function ConvertAll(rects: seq<Rect>, imageSize: Size, convert: RectConverter): (r: seq<Rect>)
    ensures |r| == |rects|
    ensures forall k :: 0 <= k < |rects| ==> r[k] == convert(rects[k], ImageRect, imageSize)
  {
    if rects == [] then [] else [convert(rects[0], ImageRect, imageSize)] + ConvertAll(rects[1..], imageSize, convert)
  }

  /** `ScanedBoundingRects`: the rectangles of one frame, split into those
      backing a validated MRZ line and all the others. Equality is field-wise,
      as for the synthesized `Equatable`. */
  datatype ScannedBoundingRects = ScannedBoundingRects(valid: seq<Rect>, invalid: seq<Rect>) {

    /** `convertedTo(imageSize:)`: both groups converted element by element. */
    function ConvertedTo(imageSize: Size, convert: RectConverter): (r: ScannedBoundingRects)
      ensures |r.valid| == |valid| && |r.invalid| == |invalid|
      ensures forall k :: 0 <= k < |valid| ==> r.valid[k] == convert(valid[k], ImageRect, imageSize)
      ensures forall k :: 0 <= k < |invalid| ==> r.invalid[k] == convert(invalid[k], ImageRect, imageSize)
    {
      ScannedBoundingRects(ConvertAll(valid, imageSize, convert), ConvertAll(invalid, imageSize, convert))
    }
  }

  /** `ScanningResult`: a parsed record with the classification of its frame. */
  datatype ScanningResult<Record> = ScanningResult(data: Record, boundingRects: ScannedBoundingRects)

  /** `ScanningResultError`: the frame gave no (stable) record. Built without
      arguments it carries no rectangles. */
  datatype ScanningResultError = ScanningResultError(boundingRects: Option<ScannedBoundingRects> := None)
}
