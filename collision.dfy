/** Axis-separated collision resolution of the player against an ordered
    platform list, and the clamp to the level bounds (collision.py). Each
    resolver is a method that walks the list in place, proved equal to a
    fold over the list; the folds' properties are proved once, as
    contracts and lemmas. */
module Collision {
  import opened Common
  import opened Geometry
  import opened Player

  /** The player's rectangle agrees with its fixed-point position. */
  predicate Synced(b: BodyState) {
    b.rect.x == Trunc(b.x) && b.rect.y == Trunc(b.y)
  }

  // ---------------------------------------------------------------------
  // Horizontal pass
  // ---------------------------------------------------------------------

  /** One platform of the horizontal pass: an overlapped platform pushes the
      player back against the direction of travel, and on any overlap the
      fixed-point x is re-read from the rectangle. */
  function HorizontalStep(b: BodyState, plat: Rect): (r: BodyState)
    ensures b.rect.Collides(plat) && b.vx > 0 ==> r.rect.Right() == plat.x
    ensures b.rect.Collides(plat) && b.vx < 0 ==> r.rect.x == plat.Right()
    ensures b.rect.Collides(plat) ==> r.x == r.rect.x * SCALE
    ensures b.rect.Collides(plat) && b.vx != 0 ==> !r.rect.Collides(plat)
    ensures !b.rect.Collides(plat) ==> r == b
    ensures r == b.(rect := b.rect.(x := r.rect.x), x := r.x)
  {
    if b.rect.Collides(plat) then
      var rect := if b.vx > 0 then b.rect.WithRight(plat.x)
                  else if b.vx < 0 then b.rect.(x := plat.Right())
                  else b.rect;
      b.(rect := rect, x := rect.x * SCALE)
    else b
  }

  /** The horizontal pass over a platform list, in list order. It moves the
      rectangle only against the direction of travel, never when standing
      still, and touches nothing but the rectangle's x and the position x. */
  function HorizontalFold(b: BodyState, plats: seq<Rect>): (r: BodyState)
    ensures r == b.(rect := b.rect.(x := r.rect.x), x := r.x)
    ensures b.vx > 0 ==> r.rect.x <= b.rect.x
    ensures b.vx < 0 ==> r.rect.x >= b.rect.x
    ensures b.vx == 0 ==> r.rect == b.rect
    ensures (r.rect.x == b.rect.x && r.x == b.x) || r.x == r.rect.x * SCALE
    decreases |plats|
  {
    if plats == [] then b
    else HorizontalStep(HorizontalFold(b, plats[..|plats| - 1]), plats[|plats| - 1])
  }

  /** resolve_horizontal: snap the rectangle to the position, then fold. */
  function HorizontalPass(b: BodyState, plats: seq<Rect>): (r: BodyState)
    ensures Synced(b.(rect := b.rect.(x := Trunc(b.x)))) ==> Synced(r)
    ensures r.rect.x == Trunc(r.x)
    ensures r.y == b.y && r.vx == b.vx && r.vy == b.vy && r.rect.y == b.rect.y
    ensures r.rect.w == b.rect.w && r.rect.h == b.rect.h
    ensures r.jumpsRemaining == b.jumpsRemaining && r.maxJumps == b.maxJumps
  {
    var snapped := b.(rect := b.rect.(x := Trunc(b.x)));
    var r := HorizontalFold(snapped, plats);
    TruncWhole(r.rect.x);
    r
  }

  method ResolveHorizontal(p: Player, plats: seq<Rect>)
    modifies p
    ensures p.Body() == HorizontalPass(old(p.Body()), plats)
    ensures p.Status() == old(p.Status()) && p.powerUntil == old(p.powerUntil)
  {
    p.rect := p.rect.(x := Trunc(p.x));
    ghost var start := p.Body();
    var i := 0;
    while i < |plats|
      invariant 0 <= i <= |plats|
      invariant p.Body() == HorizontalFold(start, plats[..i])
      invariant p.Status() == old(p.Status()) && p.powerUntil == old(p.powerUntil)
    {
      var plat := plats[i];
      if p.rect.Collides(plat) {
        if p.vx > 0 {
          p.rect := p.rect.WithRight(plat.x);
        } else if p.vx < 0 {
          p.rect := p.rect.(x := plat.Right());
        }
        p.x := p.rect.x * SCALE;
      }
      assert plats[..i + 1][..i] == plats[..i];
      i := i + 1;
    }
    assert plats[..i] == plats;
  }

  // ---------------------------------------------------------------------
  // Vertical pass
  // ---------------------------------------------------------------------

  /** One platform of the vertical pass, on (body, landed so far). Falling
      onto a platform lands on its top and refills the jumps; rising into
      one stops at its underside; without vertical motion nothing happens. */
  function VerticalStep(s: (BodyState, bool), plat: Rect): (r: (BodyState, bool))
    ensures s.0.rect.Collides(plat) && s.0.vy > 0 ==>
              r.0.rect.Bottom() == plat.y && r.0.vy == 0 && r.0.jumpsRemaining == s.0.maxJumps && r.1
    ensures s.0.rect.Collides(plat) && s.0.vy < 0 ==>
              r.0.rect.y == plat.Bottom() && r.0.vy == 0 && r.0.jumpsRemaining == s.0.jumpsRemaining && r.1 == s.1
    ensures s.0.rect.Collides(plat) && s.0.vy != 0 ==> r.0.y == r.0.rect.y * SCALE
    ensures !s.0.rect.Collides(plat) || s.0.vy == 0 ==> r == s
    ensures r.0 == s.0.(rect := s.0.rect.(y := r.0.rect.y), y := r.0.y, vy := r.0.vy, jumpsRemaining := r.0.jumpsRemaining)
  {
    var (b, landed) := s;
    if b.rect.Collides(plat) then
      if b.vy > 0 then
        var rect := b.rect.WithBottom(plat.y);
        (b.(rect := rect, vy := 0, y := rect.y * SCALE, jumpsRemaining := b.maxJumps), true)
      else if b.vy < 0 then
        var rect := b.rect.(y := plat.Bottom());
        (b.(rect := rect, vy := 0, y := rect.y * SCALE), landed)
      else s
    else s
  }

  function VerticalFold(b: BodyState, plats: seq<Rect>): (BodyState, bool)
    decreases |plats|
  {
    if plats == [] then (b, false)
    else VerticalStep(VerticalFold(b, plats[..|plats| - 1]), plats[|plats| - 1])
  }

  /** The vertical pass stated directly: only the first platform in list
      order that the rectangle overlaps matters, because the first
      adjustment stops vertical motion. */
  function VerticalByFirstHit(b: BodyState, plats: seq<Rect>): (BodyState, bool) {
    match FirstHit(b.rect, plats)
    case None => (b, false)
    case Some(k) =>
      if b.vy > 0 then
        var rect := b.rect.WithBottom(plats[k].y);
        (b.(rect := rect, vy := 0, y := rect.y * SCALE, jumpsRemaining := b.maxJumps), true)
      else if b.vy < 0 then
        var rect := b.rect.(y := plats[k].Bottom());
        (b.(rect := rect, vy := 0, y := rect.y * SCALE), false)
      else (b, false)
  }

  /** FirstHit on a list extended by one platform. */
  lemma FirstHitSnoc(r: Rect, plats: seq<Rect>, last: Rect)
    ensures FirstHit(r, plats + [last]) ==
              if FirstHit(r, plats).Some? then FirstHit(r, plats)
              else if r.Collides(last) then Some(|plats|)
              else None
  {
    var all := plats + [last];
    assert forall j :: 0 <= j < |plats| ==> all[j] == plats[j];
    assert all[|plats|] == last;
  }

  /** The fold over the list is the first-hit rule. */
  lemma {:induction false} VerticalFoldIsFirstHit(b: BodyState, plats: seq<Rect>)
    ensures VerticalFold(b, plats) == VerticalByFirstHit(b, plats)
    decreases |plats|
  {
    if plats != [] {
      var init := plats[..|plats| - 1];
      var last := plats[|plats| - 1];
      VerticalFoldIsFirstHit(b, init);
      assert init + [last] == plats;
      FirstHitSnoc(b.rect, init, last);
    }
  }

  /** resolve_vertical: snap the rectangle to the position, then fold; the
      result says whether the player landed. */
  function VerticalPass(b: BodyState, plats: seq<Rect>): (r: (BodyState, bool))
    ensures var snapped := b.rect.(y := Trunc(b.y));
            r.1 <==> b.vy > 0 && FirstHit(snapped, plats).Some?
    ensures var snapped := b.rect.(y := Trunc(b.y));
            FirstHit(snapped, plats).Some? && b.vy > 0 ==>
              r.0.rect.Bottom() == plats[FirstHit(snapped, plats).value].y &&
              r.0.vy == 0 && r.0.jumpsRemaining == b.maxJumps
    ensures var snapped := b.rect.(y := Trunc(b.y));
            FirstHit(snapped, plats).Some? && b.vy < 0 ==>
              r.0.rect.y == plats[FirstHit(snapped, plats).value].Bottom() &&
              r.0.vy == 0 && r.0.jumpsRemaining == b.jumpsRemaining
    ensures var snapped := b.rect.(y := Trunc(b.y));
            FirstHit(snapped, plats).None? || b.vy == 0 ==>
              r.0 == b.(rect := snapped)
    ensures r.0.rect.x == b.rect.x && r.0.x == b.x && r.0.vx == b.vx && r.0.maxJumps == b.maxJumps
    ensures r.0.rect.w == b.rect.w && r.0.rect.h == b.rect.h
    ensures r.0.rect.y == Trunc(r.0.y)
  {
    var snapped := b.(rect := b.rect.(y := Trunc(b.y)));
    VerticalFoldIsFirstHit(snapped, plats);
    var r := VerticalFold(snapped, plats);
    TruncWhole(r.0.rect.y);
    r
  }

  /** Landing is the only way the vertical pass refills jumps, and it never
      moves the player sideways. */
  lemma VerticalPassRefillsOnlyOnLanding(b: BodyState, plats: seq<Rect>)
    requires VerticalPass(b, plats).0.jumpsRemaining != b.jumpsRemaining
    ensures VerticalPass(b, plats).1
    ensures VerticalPass(b, plats).0.jumpsRemaining == b.maxJumps
  {
  }

  method ResolveVertical(p: Player, plats: seq<Rect>) returns (onGround: bool)
    modifies p
    ensures (p.Body(), onGround) == VerticalPass(old(p.Body()), plats)
    ensures p.Status() == old(p.Status()) && p.powerUntil == old(p.powerUntil)
  {
    p.rect := p.rect.(y := Trunc(p.y));
    ghost var start := p.Body();
    onGround := false;
    var i := 0;
    while i < |plats|
      invariant 0 <= i <= |plats|
      invariant (p.Body(), onGround) == VerticalFold(start, plats[..i])
      invariant p.Status() == old(p.Status()) && p.powerUntil == old(p.powerUntil)
    {
      var plat := plats[i];
      if p.rect.Collides(plat) {
        if p.vy > 0 {
          p.rect := p.rect.WithBottom(plat.y);
          p.vy := 0;
          p.y := p.rect.y * SCALE;
          onGround := true;
          p.jumpsRemaining := p.maxJumps;
        } else if p.vy < 0 {
          p.rect := p.rect.(y := plat.Bottom());
          p.vy := 0;
          p.y := p.rect.y * SCALE;
        }
      }
      assert plats[..i + 1][..i] == plats[..i];
      i := i + 1;
    }
    assert plats[..i] == plats;
  }

  // ---------------------------------------------------------------------
  // Level bounds
  // ---------------------------------------------------------------------

  /** The left and right edges of clamp_player_to_level. */
  function ClampHorizontally(b: BodyState, levelWidth: int): (r: BodyState)
    ensures r == b.(rect := b.rect.(x := r.rect.x), x := r.x)
  {
    var b1 := if b.rect.x < 0 then b.(rect := b.rect.(x := 0), x := 0) else b;
    if b1.rect.Right() > levelWidth then
      var rect := b1.rect.WithRight(levelWidth); b1.(rect := rect, x := rect.x * SCALE)
    else b1
  }

  /** The top and bottom edges of clamp_player_to_level; only the bottom
      edge stops the fall and refills the jumps. */
  function ClampVertically(b: BodyState, levelHeight: int): (r: BodyState)
    ensures r == b.(rect := b.rect.(y := r.rect.y), y := r.y, vy := r.vy, jumpsRemaining := r.jumpsRemaining)
    ensures Max(b.rect.y, 0) + b.rect.h <= levelHeight ==>
              r.rect.y == Max(b.rect.y, 0) && r.vy == b.vy && r.jumpsRemaining == b.jumpsRemaining
    ensures Max(b.rect.y, 0) + b.rect.h > levelHeight ==>
              r.rect.Bottom() == levelHeight && r.vy == 0 && r.jumpsRemaining == b.maxJumps
  {
    var b3 := if b.rect.y < 0 then b.(rect := b.rect.(y := 0), y := 0) else b;
    if b3.rect.Bottom() > levelHeight then
      var rect := b3.rect.WithBottom(levelHeight);
      b3.(rect := rect, y := rect.y * SCALE, vy := 0, jumpsRemaining := b3.maxJumps)
    else b3
  }

  /** clamp_player_to_level: left, right, top, then bottom, after which the
      rectangle is re-read from the position. */
  function ClampToLevel(b: BodyState, levelWidth: int, levelHeight: int): (r: BodyState)
    ensures Synced(b) && b.rect.w <= levelWidth && b.rect.h <= levelHeight ==>
              0 <= r.rect.x && r.rect.Right() <= levelWidth && 0 <= r.rect.y && r.rect.Bottom() <= levelHeight
    ensures Synced(r)
    ensures r.vx == b.vx && r.maxJumps == b.maxJumps && r.rect.w == b.rect.w && r.rect.h == b.rect.h
    ensures (r.vy == b.vy && r.jumpsRemaining == b.jumpsRemaining) || (r.vy == 0 && r.jumpsRemaining == b.maxJumps)
    ensures Max(b.rect.y, 0) + b.rect.h <= levelHeight ==> r.vy == b.vy && r.jumpsRemaining == b.jumpsRemaining
    ensures Max(b.rect.y, 0) + b.rect.h > levelHeight ==> r.vy == 0 && r.jumpsRemaining == b.maxJumps
    ensures Synced(b) && 0 <= b.rect.x && b.rect.Right() <= levelWidth ==> r.rect.x == b.rect.x && r.x == b.x
    ensures Synced(b) && 0 <= b.rect.y && b.rect.Bottom() <= levelHeight ==> r.rect.y == b.rect.y && r.y == b.y
  {
    var h := ClampHorizontally(b, levelWidth);
    var v := ClampVertically(h, levelHeight);
    TruncWhole(h.rect.x);
    TruncWhole(v.rect.y);
    v.(rect := v.rect.(x := Trunc(v.x), y := Trunc(v.y)))
  }

  method ClampPlayerHorizontally(p: Player, levelWidth: int)
    modifies p
    ensures p.Body() == ClampHorizontally(old(p.Body()), levelWidth)
    ensures p.Status() == old(p.Status()) && p.powerUntil == old(p.powerUntil)
  {
    if p.rect.x < 0 {
      p.rect := p.rect.(x := 0);
      p.x := p.rect.x * SCALE;
    }
    if p.rect.Right() > levelWidth {
      p.rect := p.rect.WithRight(levelWidth);
      p.x := p.rect.x * SCALE;
    }
  }

  method ClampPlayerVertically(p: Player, levelHeight: int)
    modifies p
    ensures p.Body() == ClampVertically(old(p.Body()), levelHeight)
    ensures p.Status() == old(p.Status()) && p.powerUntil == old(p.powerUntil)
  {
    if p.rect.y < 0 {
      p.rect := p.rect.(y := 0);
      p.y := p.rect.y * SCALE;
    }
    if p.rect.Bottom() > levelHeight {
      p.rect := p.rect.WithBottom(levelHeight);
      p.y := p.rect.y * SCALE;
      p.vy := 0;
      p.jumpsRemaining := p.maxJumps;
    }
  }

  method ClampPlayerToLevel(p: Player, levelWidth: int, levelHeight: int)
    modifies p
    ensures p.Body() == ClampToLevel(old(p.Body()), levelWidth, levelHeight)
    ensures p.Status() == old(p.Status()) && p.powerUntil == old(p.powerUntil)
  {
    ClampPlayerHorizontally(p, levelWidth);
    ClampPlayerVertically(p, levelHeight);
    p.rect := p.rect.(x := Trunc(p.x), y := Trunc(p.y));
  }
}
