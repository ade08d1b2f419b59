/** Axis-aligned integer rectangles, as the sprite library's `Rect` stores them, and the
    overlap test its sprite-collision query applies to two sprites' rectangles. */
module Rects {

  /** A point on the screen grid; y grows downwards. */
  datatype Point = Point(x: int, y: int)

  /** A rectangle whose top-left corner is at (left, top). */
  datatype Rect = Rect(left: int, top: int, width: int, height: int) {

    function Right(): int { left + width }

    function Bottom(): int { top + height }

    /** Assigning `rect.bottomleft = (x, y)`: the rectangle moves, its size does not change. */
    function WithBottomLeft(x: int, y: int): (r: Rect)
      ensures r.left == x && r.Bottom() == y
      ensures r.width == width && r.height == height
    {
      Rect(x, y - height, width, height)
    }
  }

  /** Two rectangles collide when their interiors intersect on both axes; rectangles
      that only share an edge do not collide. */
  predicate Overlaps(a: Rect, b: Rect)
  {
    a.left < b.Right() && b.left < a.Right() && a.top < b.Bottom() && b.top < a.Bottom()
  }

  /** Standing exactly on a rectangle (own bottom on its top) is not a collision. */
  lemma TouchingIsNotOverlapping(a: Rect, b: Rect)
    requires a.Bottom() == b.top
    ensures !Overlaps(a, b) && !Overlaps(b, a)
  {
  }
}
