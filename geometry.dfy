/** The CoreGraphics and ImageIO value types the scanner works with, over exact
    reals instead of `CGFloat`. */
module Geometry {

  datatype Point = Point(x: real, y: real)

  datatype Size = Size(width: real, height: real)

  /** `CGRect`: an origin and a size whose components may be negative. Like
      CoreGraphics, `MinX`/`MinY` and `Width`/`Height` read the rectangle as if
      it were standardized (non-negative size). */
  datatype Rect = Rect(origin: Point, size: Size) {

    function MinX(): real {
      if size.width < 0.0 then origin.x + size.width else origin.x
    }

    function MinY(): real {
      if size.height < 0.0 then origin.y + size.height else origin.y
    }

    function Width(): real {
      if size.width < 0.0 then -size.width else size.width
    }

    function Height(): real {
      if size.height < 0.0 then -size.height else size.height
    }
  }

  /** The two directions of `CGRect.convert(to:imageSize:)`: normalized to
      image coordinates and back. */
  datatype RectConversion = ImageRect | NormalizedRect

  /** The conversion itself is done by Vision; the model takes it as given. */
  type RectConverter = (Rect, RectConversion, Size) -> Rect

  /** `CGImagePropertyOrientation`, the text orientation hint handed to the
      recognizer. */
  datatype ImageOrientation =
    | Up | UpMirrored | Down | DownMirrored
    | LeftMirrored | Right | RightMirrored | Left
}
