/** Integer rectangles with the semantics of pygame's `Rect`: a top-left corner
    and a size, derived edges and centers, and strict positive-area overlap. */
module Geometry {

  datatype Rect = Rect(x: int, y: int, w: int, h: int) {

    function Left(): int { x }
    function Right(): int { x + w }
    function Top(): int { y }
    function Bottom(): int { y + h }

    /** `centerx` and `centery`: the size is halved with floor division. */
    function CenterX(): int { x + w / 2 }
    function CenterY(): int { y + h / 2 }

    /** Assigning `centerx`: the rectangle moves, its size stays. */
    function WithCenterX(c: int): (r: Rect)
      ensures r.CenterX() == c
      ensures r.y == y && r.w == w && r.h == h
    {
      this.(x := c - w / 2)
    }

    /** Assigning `center`. */
    function WithCenter(cx: int, cy: int): (r: Rect)
      ensures r.CenterX() == cx && r.CenterY() == cy
      ensures r.w == w && r.h == h
    {
      this.(x := cx - w / 2, y := cy - h / 2)
    }

    /** Assigning `right`. */
    function WithRight(right: int): (r: Rect)
      ensures r.Right() == right
      ensures r.y == y && r.w == w && r.h == h
    {
      this.(x := right - w)
    }

    /** Assigning `bottom`. */
    function WithBottom(bottom: int): (r: Rect)
      ensures r.Bottom() == bottom
      ensures r.x == x && r.w == w && r.h == h
    {
      this.(y := bottom - h)
    }

    function MovedBy(dx: int, dy: int): Rect
    {
      this.(x := x + dx, y := y + dy)
    }

    /** Setting a new width and then assigning the old `centerx` back: the
        center-preserving resize the paddle uses. */
    function Resized(width: int): (r: Rect)
      ensures r.w == width && r.CenterX() == CenterX()
      ensures r.y == y && r.h == h
    {
      this.(w := width).WithCenterX(CenterX())
    }

    /** `collidepoint`: the point lies inside, the right and bottom edges
        excluded. */
    predicate Contains(px: int, py: int)
    {
      x <= px < x + w && y <= py < y + h
    }

    /** `colliderect`: the two rectangles share an area of positive size. */
    predicate Collides(other: Rect)
    {
      && x < other.x + other.w
      && other.x < x + w
      && y < other.y + other.h
      && other.y < y + h
    }
  }

  /** Resizing to the width a rectangle already has changes nothing, so a
      second resize to the same width is a no-op. */
  lemma ResizedTwice(r: Rect, width: int)
    ensures r.Resized(width).Resized(width) == r.Resized(width)
  {
  }

  /** A center-preserving shrink keeps a rectangle inside any horizontal span
      it was inside before. */
  lemma ShrinkStaysInside(r: Rect, width: int, lo: int, hi: int)
    requires 0 <= width <= r.w
    requires lo <= r.Left() && r.Right() <= hi
    ensures lo <= r.Resized(width).Left() && r.Resized(width).Right() <= hi
  {
  }

  /** Two rectangles of positive size collide exactly when some point lies
      inside both. */
  lemma CollidesSharePoint(a: Rect, b: Rect)
    requires a.w > 0 && a.h > 0 && b.w > 0 && b.h > 0
    ensures a.Collides(b) <==> exists px, py :: a.Contains(px, py) && b.Contains(px, py)
  {
    if a.Collides(b) {
      var px := if a.x < b.x then b.x else a.x;
      var py := if a.y < b.y then b.y else a.y;
      assert a.Contains(px, py) && b.Contains(px, py);
    }
  }
}
