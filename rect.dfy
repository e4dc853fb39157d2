/** The `Rect` value of src/win2/rect.rs, which is not part of this model.
    ASSUMPTION (it is not modelled here): a rectangle is `x`, `y`, `width`,
    `height`; its corners are `left_top = (x, y)`, `right_top = (x + width, y)`,
    `left_bottom = (x, y + height)`, `right_bottom = (x + width, y + height)`;
    and two rectangles are equal exactly when all four fields are (derived
    `PartialEq`). Coordinates are unbounded integers: see README. */
module Rects {

  datatype Rect = Rect(x: int, y: int, width: int, height: int)

  type Point = (int, int)

  /** The four corners a rectangle is anchored by. */
  datatype Corner = LeftTop | RightTop | LeftBottom | RightBottom

  function LeftTopOf(r: Rect): Point { (r.x, r.y) }
  function RightTopOf(r: Rect): Point { (r.x + r.width, r.y) }
  function LeftBottomOf(r: Rect): Point { (r.x, r.y + r.height) }
  function RightBottomOf(r: Rect): Point { (r.x + r.width, r.y + r.height) }

  function CornerOf(r: Rect, c: Corner): Point {
    match c
    case LeftTop => LeftTopOf(r)
    case RightTop => RightTopOf(r)
    case LeftBottom => LeftBottomOf(r)
    case RightBottom => RightBottomOf(r)
  }

  function Add(p: Point, q: Point): Point { (p.0 + q.0, p.1 + q.1) }

  /** A rectangle of a given size is determined by where any one of its corners is. */
  lemma CornerDeterminesPosition(a: Rect, b: Rect, c: Corner)
    requires a.width == b.width && a.height == b.height
    requires CornerOf(a, c) == CornerOf(b, c)
    ensures a == b
  {
  }
}
