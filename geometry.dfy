/** Axis-aligned integer rectangles with the attribute arithmetic of
    pygame.Rect, and the fixed-point scale for sub-pixel quantities. */
module Geometry {
  import opened Common

  /** Positions and velocities that the game keeps as floats are held in
      thousandths of a pixel. */
  const SCALE: int := 1000

  /** int(v / SCALE) as Python computes it: truncation toward zero. This is
      also what a pygame.Rect attribute does with a float it is given. */
  function Trunc(v: int): (r: int)
    ensures v >= 0 ==> 0 <= r && r * SCALE <= v < r * SCALE + SCALE
    ensures v < 0 ==> r <= 0 && r * SCALE - SCALE < v <= r * SCALE
  {
    if v >= 0 then v / SCALE else -((-v) / SCALE)
  }

  /** A whole number of pixels survives the round trip through fixed point. */
  lemma TruncWhole(k: int)
    ensures Trunc(k * SCALE) == k
  {
  }

  /** A rectangle: top-left corner and non-negative size, in pixels. */
  datatype Rect = Rect(x: int, y: int, w: nat, h: nat) {

    function Right(): int { x + w }

    function Bottom(): int { y + h }

    function CenterX(): int { x + w / 2 }

    function CenterY(): int { y + h / 2 }

    /** Assigning rect.right moves the rectangle, keeping its width. */
    function WithRight(r: int): (s: Rect)
      ensures s.Right() == r && s.y == y && s.w == w && s.h == h
    {
      this.(x := r - w)
    }

    /** Assigning rect.bottom moves the rectangle, keeping its height. */
    function WithBottom(b: int): (s: Rect)
      ensures s.Bottom() == b && s.x == x && s.w == w && s.h == h
    {
      this.(y := b - h)
    }

    /** pygame's colliderect: the interiors overlap. Shared edges do not
        count, and a rectangle of zero width or height collides with nothing. */
    predicate Collides(o: Rect) {
      && w > 0 && h > 0 && o.w > 0 && o.h > 0
      && x < o.Right() && o.x < Right()
      && y < o.Bottom() && o.y < Bottom()
    }
  }

  /** The position of the first rectangle in list order that r collides
      with, if any. */
  function FirstHit(r: Rect, rs: seq<Rect>): (k: Option<nat>)
    ensures k.Some? ==> k.value < |rs| && r.Collides(rs[k.value])
    ensures k.Some? ==> forall j :: 0 <= j < k.value ==> !r.Collides(rs[j])
    ensures k.None? ==> forall j :: 0 <= j < |rs| ==> !r.Collides(rs[j])
  {
    if rs == [] then None
    else if r.Collides(rs[0]) then Some(0)
    else match FirstHit(r, rs[1..])
      case None => None
      case Some(k) => Some(k + 1)
  }
}
