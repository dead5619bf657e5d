/** Rectangles as the Android graphics API has them: integer `Rect` and float `RectF`. */
module Geometry {

  /** `android.graphics.Rect`: left/top inclusive, right/bottom exclusive, y grows downward. */
  datatype Rect = Rect(left: int, top: int, right: int, bottom: int) {
    function Width(): int { right - left }
    function Height(): int { bottom - top }
  }

  /** `android.graphics.RectF`, with floats modelled as reals. */
  datatype RectF = RectF(left: real, top: real, right: real, bottom: real) {
    function Width(): real { right - left }
    function Height(): real { bottom - top }
  }

  /** A point or a vector of the plane, in arena units. */
  datatype Vec = Vec(x: real, y: real)
}
