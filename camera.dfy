/** The follow camera (camera.py): a world-space offset that centres the
    player in the viewport, clamped to the level. */
module Camera {
  import opened Common
  import opened Geometry
  import opened Constants

  /** max(0, min(levelSize - viewSize, target)): the offset along one axis. */
  function ClampOffset(target: int, levelSize: int, viewSize: int): (r: int)
    ensures r >= 0
    ensures levelSize >= viewSize ==> r + viewSize <= levelSize
    ensures levelSize <= viewSize ==> r == 0
    ensures 0 <= target <= levelSize - viewSize ==> r == target
    ensures target < 0 ==> r == 0
    ensures levelSize >= viewSize && target > levelSize - viewSize ==> r == levelSize - viewSize
  {
    Max(0, Min(levelSize - viewSize, target))
  }

  /** Shifting two rectangles by the same offset does not change whether
      they collide, so screen-space and world-space overlap agree. */
  lemma ShiftKeepsCollision(a: Rect, b: Rect, dx: int, dy: int)
    ensures a.(x := a.x - dx, y := a.y - dy).Collides(b.(x := b.x - dx, y := b.y - dy)) == a.Collides(b)
  {
  }

  class Camera {
    var x: int
    var y: int

    constructor ()
      ensures x == 0 && y == 0
    {
      x := 0;
      y := 0;
    }

    /** Follow the player's centre. The new offset depends only on the
        arguments, not on the previous one. */
    method Update(playerRect: Rect, levelWidth: int, levelHeight: int)
      modifies this
      ensures x == ClampOffset(playerRect.CenterX() - BASE_WIDTH / 2, levelWidth, BASE_WIDTH)
      ensures y == ClampOffset(playerRect.CenterY() - BASE_HEIGHT / 2, levelHeight, BASE_HEIGHT)
    {
      x := playerRect.CenterX() - BASE_WIDTH / 2;
      y := playerRect.CenterY() - BASE_HEIGHT / 2;
      x := Max(0, Min(levelWidth - BASE_WIDTH, x));
      y := Max(0, Min(levelHeight - BASE_HEIGHT, y));
    }

    /** World rectangle to screen rectangle. */
    function Apply(r: Rect): (s: Rect)
      reads this
      ensures s.w == r.w && s.h == r.h
      ensures s.x + x == r.x && s.y + y == r.y
    {
      Rect(r.x - x, r.y - y, r.w, r.h)
    }

    /** World point to screen point. */
    function ApplyPos(px: int, py: int): (p: (int, int))
      reads this
      ensures p.0 + x == px && p.1 + y == py
      ensures p == (Apply(Rect(px, py, 0, 0)).x, Apply(Rect(px, py, 0, 0)).y)
    {
      (px - x, py - y)
    }
  }
}
