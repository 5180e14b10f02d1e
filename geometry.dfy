/** Plain value types shared by every shape: points, bounding boxes and the
    "within radius on both axes" test used by the handle searches. */
module Geometry {

  datatype Option<+T> = None | Some(value: T)

  /** A point in surface-local coordinates. */
  datatype Point = Point(x: real, y: real)

  /** A bounding box. `x`, `y`, `width` and `height` are authoritative for box
      shapes; `top`, `left`, `right`, `bottom` and `center` are derived by the
      shapes' `bounds`. `radius` is only used by buttons. */
  datatype Position = Position(
    x: real, y: real,
    top: real, left: real, right: real, bottom: real,
    width: real, height: real,
    center: Point,
    radius: real)

  /** An optional radius argument that is left out counts as 0. */
  function RadiusOrZero(radius: Option<real>): real {
    match radius
    case None => 0.0
    case Some(v) => v
  }

  /** The derived fields agree with `x`, `y`, `width` and `height`. */
  predicate Derived(p: Position) {
    && p.top == p.y
    && p.left == p.x
    && p.right == p.left + p.width
    && p.bottom == p.top + p.height
    && p.center == Point(p.x + p.width / 2.0, p.y + p.height / 2.0)
  }

  /** `handle` lies within `radius` of `point` on both axes. */
  predicate Within(handle: Point, point: Point, radius: real) {
    && handle.x - radius <= point.x
    && handle.x + radius >= point.x
    && handle.y - radius <= point.y
    && handle.y + radius >= point.y
  }
}
