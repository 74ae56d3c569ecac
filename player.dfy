/** The player character (player.py): position and velocity in thousandths
    of a pixel, an integer bounding rectangle, jump counters, powerup timers,
    the post-respawn invincibility window and the walk animation. */
module Player {
  import opened Geometry
  import opened Constants

  /** The player's size in pixels. */
  const PLAYER_W: nat := 40
  const PLAYER_H: nat := 60

  /** The walk animation has two frames. */
  const WALK_FRAMES: nat := 2

  /** 1.8 times the base speed. */
  function BoostedSpeed(base: int): int {
    base * 18 / 10
  }

  /** What the collision resolver reads and writes. */
  datatype BodyState = BodyState(rect: Rect, x: int, y: int, vx: int, vy: int, jumpsRemaining: int, maxJumps: int)

  /** A new player's body: at the start, at rest, one jump of one. */
  function StartBody(startX: int, startY: int): (b: BodyState)
    ensures b.rect.x == startX && b.rect.y == startY && b.rect.w == PLAYER_W && b.rect.h == PLAYER_H
    ensures b.x == startX * SCALE && b.y == startY * SCALE && b.vx == 0 && b.vy == 0
    ensures b.jumpsRemaining == 1 && b.maxJumps == 1
  {
    BodyState(Rect(startX, startY, PLAYER_W, PLAYER_H), startX * SCALE, startY * SCALE, 0, 0, 1, 1)
  }

  /** No powerup running. */
  const NO_POWERUPS: map<string, int> := map[SPEED_BOOST := 0, DOUBLE_JUMP := 0, INVINCIBILITY := 0]

  /** Everything else the player holds, except the powerup timers. */
  datatype PlayerStatus = PlayerStatus(
    baseSpeed: int, speed: int, jumpStrength: int, facingRight: bool,
    lastGroundTime: int, onGround: bool, hitInvincibleUntil: int,
    currentFrame: int, animationTimer: int, animationSpeed: int)

  /** A new player's status: base speed and jump, facing right, not
      grounded, no invincibility, first animation frame. */
  const START_STATUS: PlayerStatus :=
    PlayerStatus(BASE_SPEED, BASE_SPEED, BASE_JUMP, true, 0, false, 0, 0, 0, ANIMATION_SPEED)

  /** The walk animation's (frame, timer) after dtMs milliseconds. */
  function AnimationStep(vx: int, frame: int, timer: int, dtMs: int, animationSpeed: int): (r: (int, int))
    ensures vx == 0 ==> r == (0, timer)
    ensures vx != 0 && timer + dtMs >= animationSpeed ==> r == ((frame + 1) % WALK_FRAMES, 0)
    ensures vx != 0 && timer + dtMs < animationSpeed ==> r == (frame, timer + dtMs)
    ensures 0 <= r.0 < WALK_FRAMES || r.0 == frame
  {
    if vx == 0 then (0, timer)
    else if timer + dtMs >= animationSpeed then ((frame + 1) % WALK_FRAMES, 0)
    else (frame, timer + dtMs)
  }

  class Player {
    var rect: Rect
    var x: int
    var y: int
    var vx: int
    var vy: int
    var baseSpeed: int
    var speed: int
    var jumpStrength: int
    var maxJumps: int
    var jumpsRemaining: int
    var facingRight: bool
    var lastGroundTime: int
    var onGround: bool
    var powerUntil: map<string, int>
    var hitInvincibleUntil: int
    var currentFrame: int
    var animationTimer: int
    var animationSpeed: int

    function Body(): BodyState
      reads this
    {
      BodyState(rect, x, y, vx, vy, jumpsRemaining, maxJumps)
    }

    function Status(): PlayerStatus
      reads this
    {
      PlayerStatus(baseSpeed, speed, jumpStrength, facingRight, lastGroundTime, onGround,
                   hitInvincibleUntil, currentFrame, animationTimer, animationSpeed)
    }

    /** The object invariant: fixed size, a timer for each of the three
        powerups, one or two jumps, never a negative jump count, and an
        animation frame that indexes the walk frames. */
    ghost predicate Valid()
      reads this`rect, this`powerUntil, this`maxJumps, this`jumpsRemaining, this`currentFrame,
            this`baseSpeed, this`jumpStrength, this`animationSpeed
    {
      && rect.w == PLAYER_W && rect.h == PLAYER_H
      && SPEED_BOOST in powerUntil && DOUBLE_JUMP in powerUntil && INVINCIBILITY in powerUntil
      && (maxJumps == 1 || maxJumps == 2)
      && jumpsRemaining >= 0
      && 0 <= currentFrame < WALK_FRAMES
      && baseSpeed == BASE_SPEED && jumpStrength == BASE_JUMP
      && animationSpeed == ANIMATION_SPEED
    }

    /** A new player stands at the start position, at rest, with one jump,
        no powerup and no invincibility. */
    constructor (startX: int, startY: int)
      ensures Valid()
      ensures Body() == StartBody(startX, startY)
      ensures Status() == START_STATUS
      ensures powerUntil == NO_POWERUPS
    {
      rect := Rect(startX, startY, PLAYER_W, PLAYER_H);
      x := startX * SCALE;
      y := startY * SCALE;
      vx := 0;
      vy := 0;
      baseSpeed := BASE_SPEED;
      speed := BASE_SPEED;
      jumpStrength := BASE_JUMP;
      maxJumps := 1;
      jumpsRemaining := 1;
      facingRight := true;
      lastGroundTime := 0;
      onGround := false;
      powerUntil := NO_POWERUPS;
      hitInvincibleUntil := 0;
      currentFrame := 0;
      animationTimer := 0;
      animationSpeed := ANIMATION_SPEED;
    }

    /** Advance the walk animation by dtMs milliseconds of movement; standing
        still shows the first frame. */
    method UpdateAnimation(dtMs: int)
      requires Valid()
      modifies this`currentFrame, this`animationTimer
      ensures Valid()
      ensures vx == 0 ==> currentFrame == 0 && animationTimer == old(animationTimer)
      ensures vx != 0 && old(animationTimer) + dtMs >= animationSpeed ==>
                animationTimer == 0 && currentFrame == (old(currentFrame) + 1) % WALK_FRAMES
      ensures vx != 0 && old(animationTimer) + dtMs < animationSpeed ==>
                animationTimer == old(animationTimer) + dtMs && currentFrame == old(currentFrame)
      ensures (currentFrame, animationTimer) == AnimationStep(vx, old(currentFrame), old(animationTimer), dtMs, animationSpeed)
      ensures Body() == old(Body()) && powerUntil == old(powerUntil)
      ensures Status() == old(Status()).(currentFrame := currentFrame, animationTimer := animationTimer)
    {
      if vx != 0 {
        animationTimer := animationTimer + dtMs;
        if animationTimer >= animationSpeed {
          animationTimer := 0;
          currentFrame := (currentFrame + 1) % WALK_FRAMES;
        }
      } else {
        currentFrame := 0;
      }
    }

    /** Invincible while the invincibility powerup or the post-respawn window
        runs; both end strictly at their deadline. */
    predicate IsInvincible(nowMs: int)
      requires Valid()
      reads this
    {
      nowMs < powerUntil[INVINCIBILITY] || nowMs < hitInvincibleUntil
    }

    /** Re-derive speed and jump capacity from the powerup timers; a timer
        has run out once now reaches it. */
    method UpdatePowerups(nowMs: int)
      requires Valid()
      modifies this`speed, this`maxJumps
      ensures Valid()
      ensures speed == if nowMs < powerUntil[SPEED_BOOST] then BoostedSpeed(baseSpeed) else baseSpeed
      ensures maxJumps == 2 <==> nowMs < powerUntil[DOUBLE_JUMP]
      ensures Body() == old(Body()).(maxJumps := maxJumps) && powerUntil == old(powerUntil)
      ensures Status() == old(Status()).(speed := speed)
    {
      if nowMs < powerUntil[SPEED_BOOST] {
        speed := BoostedSpeed(baseSpeed);
      } else {
        speed := baseSpeed;
      }
      if nowMs < powerUntil[DOUBLE_JUMP] {
        maxJumps := 2;
      } else {
        maxJumps := 1;
      }
    }

    /** Start (or restart) a powerup's timer. Gaining double jump refills the
        jumps to the current capacity, which UpdatePowerups raises to two
        only on the next frame. */
    method ApplyPowerup(ptype: string, durationMs: int, nowMs: int)
      requires Valid()
      modifies this`powerUntil, this`jumpsRemaining
      ensures Valid()
      ensures powerUntil == old(powerUntil)[ptype := nowMs + durationMs]
      ensures jumpsRemaining == if ptype == DOUBLE_JUMP && durationMs > 0 then maxJumps else old(jumpsRemaining)
      ensures Body() == old(Body()).(jumpsRemaining := jumpsRemaining)
      ensures Status() == old(Status())
    {
      powerUntil := powerUntil[ptype := nowMs + durationMs];
      if ptype == DOUBLE_JUMP {
        jumpsRemaining := if nowMs < powerUntil[DOUBLE_JUMP] then maxJumps else jumpsRemaining;
      }
    }

    /** Put the player back at the start, at rest, not grounded, invincible
        for RESPAWN_INVINCIBLE_TIME after clockMs (the clock read at the
        time of the respawn). Jumps and powerups are kept. */
    method Respawn(startX: int, startY: int, clockMs: int)
      requires Valid()
      modifies this`rect, this`x, this`y, this`vx, this`vy, this`hitInvincibleUntil, this`lastGroundTime, this`onGround
      ensures Valid()
      ensures rect == old(rect).(x := startX, y := startY)
      ensures x == startX * SCALE && y == startY * SCALE && vx == 0 && vy == 0
      ensures jumpsRemaining == old(jumpsRemaining) && maxJumps == old(maxJumps)
      ensures powerUntil == old(powerUntil)
      ensures Status() == old(Status()).(hitInvincibleUntil := clockMs + RESPAWN_INVINCIBLE_TIME,
                                         lastGroundTime := 0, onGround := false)
      ensures forall t :: clockMs <= t < clockMs + RESPAWN_INVINCIBLE_TIME ==> IsInvincible(t)
    {
      Place(startX, startY);
      hitInvincibleUntil := clockMs + RESPAWN_INVINCIBLE_TIME;
      lastGroundTime := 0;
      onGround := false;
    }

    /** Move to a position in whole pixels, at rest. */
    method Place(px: int, py: int)
      modifies this`rect, this`x, this`y, this`vx, this`vy
      ensures Body() == old(Body()).(rect := old(rect).(x := px, y := py), x := px * SCALE, y := py * SCALE, vx := 0, vy := 0)
      ensures Status() == old(Status()) && powerUntil == old(powerUntil)
    {
      x := px * SCALE;
      y := py * SCALE;
      rect := rect.(x := px, y := py);
      vx := 0;
      vy := 0;
    }

    /** Whether a jump press is honoured now, given the coyote-time window. */
    predicate CanJump(currentTime: int, coyoteTime: int)
      reads this
    {
      if jumpsRemaining <= 0 then false
      else if onGround then true
      else if currentTime - lastGroundTime <= coyoteTime then true
      else maxJumps > 1
    }
  }

  /** A respawn at clock T protects for the whole window [T, T + 1200),
      whatever the powerup timers say, and the window alone protects no
      longer. */
  lemma RespawnWindowProtects(p: Player, clockMs: int, t: int)
    requires p.Valid() && p.hitInvincibleUntil == clockMs + RESPAWN_INVINCIBLE_TIME
    ensures clockMs <= t < clockMs + RESPAWN_INVINCIBLE_TIME ==> p.IsInvincible(t)
    ensures t >= clockMs + RESPAWN_INVINCIBLE_TIME ==> (p.IsInvincible(t) <==> t < p.powerUntil[INVINCIBILITY])
  {
  }

  /** can_jump, stated as a decision: never without a jump left; otherwise
      exactly when grounded, inside the coyote window, or double-jumping. */
  lemma CanJumpExactly(p: Player, now: int, coyoteTime: int)
    ensures p.CanJump(now, coyoteTime) <==>
              p.jumpsRemaining > 0 &&
              (p.onGround || now - p.lastGroundTime <= coyoteTime || p.maxJumps > 1)
  {
  }
}
