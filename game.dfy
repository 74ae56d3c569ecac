/** The PLAYING branch of the main loop (main.py): one tick of key input,
    movement, physics, pickups, enemy contact, the goal and the delayed
    level switch, over the player, the level manager, the score, the lives
    and the game state. */
module Game {
  import opened Common
  import opened Geometry
  import opened Constants
  import S = Settings
  import E = Enemy
  import L = Level
  import P = Player
  import C = Camera
  import Collision

  /** A tick's keyboard input, by key name: the KEYDOWN events in order, and
      the keys held down. */
  datatype Input = Input(pressed: seq<string>, held: set<string>)

  /** How a tick ends: the loop goes on, or a touched powerup's type has no
      duration, scaled_duration raises KeyError and the program stops. */
  datatype Outcome = Continue | Crashed(ptype: string)

  // ---------------------------------------------------------------------
  // Key presses
  // ---------------------------------------------------------------------

  /** What the KEYDOWN events of a tick decide: a pause, and the vertical
      velocity and jump count after the jumps they allow. */
  datatype Presses = Presses(paused: bool, vy: int, jumps: int)

  /** One KEYDOWN event. The pause key pauses; otherwise the jump key jumps
      when a jump is left and the window is open (grounded, inside the coyote
      time, or double-jumping: what can_jump asks besides the jump count). */
  function Press(k: Presses, key: string, pauseKey: Option<string>, jumpKey: Option<string>,
                 open: bool, jumpStrength: int): (r: Presses)
    ensures r.paused <==> k.paused || Some(key) == pauseKey
    ensures r.jumps < k.jumps <==> Some(key) != pauseKey && Some(key) == jumpKey && k.jumps > 0 && open
    ensures r.jumps < k.jumps ==> r.jumps == k.jumps - 1 && r.vy == jumpStrength
    ensures r.jumps >= k.jumps ==> r.jumps == k.jumps && r.vy == k.vy
  {
    if Some(key) == pauseKey then k.(paused := true)
    else if Some(key) == jumpKey && k.jumps > 0 && open then k.(vy := jumpStrength, jumps := k.jumps - 1)
    else k
  }

  /** The KEYDOWN events of a tick, in order. */
  function PressAll(k: Presses, keys: seq<string>, pauseKey: Option<string>, jumpKey: Option<string>,
                    open: bool, jumpStrength: int): Presses
    decreases |keys|
  {
    if keys == [] then k
    else Press(PressAll(k, keys[..|keys| - 1], pauseKey, jumpKey, open, jumpStrength),
               keys[|keys| - 1], pauseKey, jumpKey, open, jumpStrength)
  }

  /** The number of events that are jump presses (the pause test comes
      first, so a key bound to both pauses). */
  function JumpPresses(keys: seq<string>, pauseKey: Option<string>, jumpKey: Option<string>): nat
    decreases |keys|
  {
    if keys == [] then 0
    else
      var last := keys[|keys| - 1];
      JumpPresses(keys[..|keys| - 1], pauseKey, jumpKey)
        + (if Some(last) == jumpKey && Some(last) != pauseKey then 1 else 0)
  }

  /** The key presses of a tick honour as many jumps as there are presses
      and jumps left when the window is open, and none otherwise, so the
      jump count never goes negative; the velocity is the jump strength
      exactly when a jump was honoured; and the game pauses exactly when
      the pause key was among the presses. */
  lemma {:induction false} PressAllEffect(k: Presses, keys: seq<string>, pauseKey: Option<string>,
                                          jumpKey: Option<string>, open: bool, jumpStrength: int)
    requires k.jumps >= 0
    ensures var r := PressAll(k, keys, pauseKey, jumpKey, open, jumpStrength);
            && r.jumps == (if open then Max(0, k.jumps - JumpPresses(keys, pauseKey, jumpKey)) else k.jumps)
            && (r.jumps < k.jumps ==> r.vy == jumpStrength)
            && (r.jumps == k.jumps ==> r.vy == k.vy)
            && (r.paused <==> k.paused || (pauseKey.Some? && pauseKey.value in keys))
    decreases |keys|
  {
    if keys != [] {
      var init := keys[..|keys| - 1];
      PressAllEffect(k, init, pauseKey, jumpKey, open, jumpStrength);
      assert keys == init + [keys[|keys| - 1]];
    }
  }

  // ---------------------------------------------------------------------
  // Movement and physics
  // ---------------------------------------------------------------------

  /** Whether the key bound to an action is held (keys[get_key(action)]). */
  predicate Held(held: set<string>, key: Option<string>) {
    key.Some? && key.value in held
  }

  /** The horizontal velocity and facing after the movement keys: at rest
      without them, and right wins when both are held. */
  function Steer(left: bool, right: bool, speed: int, facingRight: bool): (r: (int, bool))
    ensures right ==> r == (speed, true)
    ensures left && !right ==> r == (-speed, false)
    ensures !left && !right ==> r == (0, facingRight)
  {
    var (vx, facing) := if left then (-speed, false) else (0, facingRight);
    if right then (speed, true) else (vx, facing)
  }

  /** Gravity, then the cap at terminal velocity. */
  function Fall(vy: int): (r: int)
    ensures r <= MAX_FALL
    ensures vy + GRAVITY <= MAX_FALL ==> r == vy + GRAVITY
    ensures vy + GRAVITY > MAX_FALL ==> r == MAX_FALL
  {
    Min(vy + GRAVITY, MAX_FALL)
  }

  /** What both resolvers collide with: the ground first, then the
      platforms. */
  function Solids(ground: Rect, platforms: seq<Rect>): (r: seq<Rect>)
    ensures |r| == |platforms| + 1 && r[0] == ground && r[1..] == platforms
  {
    [ground] + platforms
  }

  /** x += vx, then the horizontal resolve. */
  function MovedHorizontally(b: P.BodyState, solids: seq<Rect>): P.BodyState {
    Collision.HorizontalPass(b.(x := b.x + b.vx), solids)
  }

  /** y += vy, then the vertical resolve, whose landing flag the loop drops. */
  function MovedVertically(b: P.BodyState, solids: seq<Rect>): P.BodyState {
    Collision.VerticalPass(b.(y := b.y + b.vy), solids).0
  }

  /** Both moves, then the clamp to the level. */
  function Integrated(b: P.BodyState, solids: seq<Rect>, width: int, height: int): P.BodyState {
    Collision.ClampToLevel(MovedVertically(MovedHorizontally(b, solids), solids), width, height)
  }

  /** After integration the rectangle agrees with the position, lies inside
      a level at least as large as it, keeps its size and horizontal
      velocity, and either keeps its vertical velocity and jump count or has
      stopped with its jumps refilled; the jump count is one of the two. */
  lemma IntegratedInLevel(b: P.BodyState, solids: seq<Rect>, width: int, height: int)
    ensures var r := Integrated(b, solids, width, height);
            && Collision.Synced(r)
            && r.rect.w == b.rect.w && r.rect.h == b.rect.h && r.vx == b.vx && r.maxJumps == b.maxJumps
            && (b.rect.w <= width && b.rect.h <= height ==>
                  0 <= r.rect.x && r.rect.Right() <= width && 0 <= r.rect.y && r.rect.Bottom() <= height)
            && (r.jumpsRemaining == b.jumpsRemaining || r.jumpsRemaining == b.maxJumps)
  {
    var h := MovedHorizontally(b, solids);
    var v := MovedVertically(h, solids);
    if v.jumpsRemaining != h.jumpsRemaining {
      Collision.VerticalPassRefillsOnlyOnLanding(h.(y := h.y + h.vy), solids);
    }
    assert Collision.Synced(v);
  }

  // ---------------------------------------------------------------------
  // Pickups
  // ---------------------------------------------------------------------

  /** list.index(v): the position of the first element equal to v. */
  function IndexOf<T(==)>(s: seq<T>, v: T): (k: nat)
    requires v in s
    ensures k < |s| && s[k] == v && v !in s[..k]
    decreases |s|
  {
    if s[0] == v then 0
    else
      var k := IndexOf(s[1..], v);
      assert s[..k + 1] == [s[0]] + s[1..][..k];
      k + 1
  }

  /** list.remove(v): drop the first element equal to v, and only it. */
  function RemoveFirst<T(==)>(s: seq<T>, v: T): (r: seq<T>)
    requires v in s
    ensures |r| == |s| - 1
    ensures r == s[..IndexOf(s, v)] + s[IndexOf(s, v) + 1..]
    decreases |s|
  {
    if s[0] == v then s[1..]
    else
      var k := IndexOf(s[1..], v);
      assert s[..k + 1] == [s[0]] + s[1..][..k];
      assert s[k + 2..] == s[1..][k + 1..];
      [s[0]] + RemoveFirst(s[1..], v)
  }

  /** The items the rectangle does not touch, in order. */
  function Untouched(items: seq<L.Item>, r: Rect): seq<L.Item>
    decreases |items|
  {
    if items == [] then []
    else
      var last := items[|items| - 1];
      Untouched(items[..|items| - 1], r) + (if r.Collides(last.rect) then [] else [last])
  }

  /** Untouched keeps exactly the items the rectangle does not touch. */
  lemma {:induction false} UntouchedExactly(items: seq<L.Item>, r: Rect)
    ensures |Untouched(items, r)| <= |items|
    ensures forall it :: it in Untouched(items, r) <==> it in items && !r.Collides(it.rect)
    decreases |items|
  {
    if items != [] {
      var init := items[..|items| - 1];
      UntouchedExactly(init, r);
      assert items == init + [items[|items| - 1]];
    }
  }

  /** Removing a touched item from a list whose untouched prefix holds no
      touched item removes that very item: list.remove never takes an
      earlier copy. */
  lemma RemoveAfterUntouched(u: seq<L.Item>, rest: seq<L.Item>, r: Rect)
    requires rest != [] && r.Collides(rest[0].rect)
    requires forall it :: it in u ==> !r.Collides(it.rect)
    ensures rest[0] in u + rest
    ensures RemoveFirst(u + rest, rest[0]) == u + rest[1..]
  {
    var s := u + rest;
    assert s[|u|] == rest[0];
    var k := IndexOf(s, rest[0]);
    forall j | 0 <= j < |u|
      ensures s[j] != rest[0]
    {
      assert s[j] == u[j] && u[j] in u;
    }
    forall j | 0 <= j < k
      ensures s[j] != rest[0]
    {
      assert s[j] == s[..k][j];
    }
    assert k == |u|;
    assert s[..k] == u && s[k + 1..] == rest[1..];
  }

  /** One step of the pickup loop over a snapshot of the list, for a touched
      item: after the items before i, the list is the untouched ones among
      them followed by the rest of the snapshot, and removing the touched
      item keeps it that way. */
  lemma PickupTaken(snapshot: seq<L.Item>, i: nat, r: Rect)
    requires i < |snapshot| && r.Collides(snapshot[i].rect)
    ensures snapshot[i] in Untouched(snapshot[..i], r) + snapshot[i..]
    ensures RemoveFirst(Untouched(snapshot[..i], r) + snapshot[i..], snapshot[i])
            == Untouched(snapshot[..i + 1], r) + snapshot[i + 1..]
  {
    assert snapshot[..i + 1][..i] == snapshot[..i];
    UntouchedExactly(snapshot[..i], r);
    RemoveAfterUntouched(Untouched(snapshot[..i], r), snapshot[i..], r);
    assert snapshot[i..][1..] == snapshot[i + 1..];
  }

  /** The same step for an item the rectangle does not touch: it stays. */
  lemma PickupKept(snapshot: seq<L.Item>, i: nat, r: Rect)
    requires i < |snapshot| && !r.Collides(snapshot[i].rect)
    ensures Untouched(snapshot[..i], r) + snapshot[i..] == Untouched(snapshot[..i + 1], r) + snapshot[i + 1..]
  {
    assert snapshot[..i + 1][..i] == snapshot[..i];
    assert snapshot[i..] == [snapshot[i]] + snapshot[i + 1..];
  }

  /** scaled_duration: the powerup's duration times the difficulty's
      multiplier, truncated; None where the type has no duration. */
  function ScaledDuration(ptype: string, pct: int): (d: Option<int>)
    ensures d.Some? <==> PowerupDuration(ptype).Some?
    ensures d.Some? && pct >= 0 ==>
              d.value * 100 <= PowerupDuration(ptype).value * pct < (d.value + 1) * 100
    ensures d.Some? && pct >= 1 ==> d.value > 0
  {
    match PowerupDuration(ptype)
    case None => None
    case Some(base) => Some(ScaledByPct(base, pct))
  }

  /** One step of the powerup loop: a touched powerup starts its timer for
      the scaled duration, and double jump refills the jumps when that
      duration is positive; a touched powerup without a duration fails. */
  function PickOne(acc: Option<(map<string, int>, int)>, it: L.Item, r: Rect, pct: int, now: int,
                   maxJumps: int): Option<(map<string, int>, int)>
  {
    match acc
    case None => None
    case Some(a) =>
      if !r.Collides(it.rect) then acc
      else
        match ScaledDuration(it.tag, pct)
        case None => None
        case Some(d) => Some((a.0[it.tag := now + d], if it.tag == DOUBLE_JUMP && d > 0 then maxJumps else a.1))
  }

  /** The powerup timers and jump count after applying, in list order, every
      powerup of items the rectangle touches to acc; None once a touched
      powerup's type has no duration. */
  function PickUp(items: seq<L.Item>, r: Rect, pct: int, now: int, maxJumps: int,
                  acc: Option<(map<string, int>, int)>): Option<(map<string, int>, int)>
    decreases |items|
  {
    if items == [] then acc
    else PickUp(items[1..], r, pct, now, maxJumps, PickOne(acc, items[0], r, pct, now, maxJumps))
  }

  /** The loop's step: what is left of the list after one more element. */
  lemma PickUpStep(items: seq<L.Item>, i: nat, r: Rect, pct: int, now: int, maxJumps: int,
                   acc: Option<(map<string, int>, int)>)
    requires i < |items|
    ensures PickUp(items[i..], r, pct, now, maxJumps, acc)
            == PickUp(items[i + 1..], r, pct, now, maxJumps, PickOne(acc, items[i], r, pct, now, maxJumps))
  {
    assert items[i..][1..] == items[i + 1..];
  }

  /** Once failed, picking up stays failed. */
  lemma {:induction false} PickUpStaysFailed(items: seq<L.Item>, r: Rect, pct: int, now: int, maxJumps: int)
    ensures PickUp(items, r, pct, now, maxJumps, None) == None
    decreases |items|
  {
    if items != [] {
      PickUpStaysFailed(items[1..], r, pct, now, maxJumps);
    }
  }

  /** Picking up fails exactly when a touched powerup has an unknown type;
      otherwise no timer is lost, and the jump count is kept or refilled. */
  lemma {:induction false} PickUpEffect(items: seq<L.Item>, r: Rect, pct: int, now: int, maxJumps: int,
                                        timers: map<string, int>, jumps: int)
    ensures var res := PickUp(items, r, pct, now, maxJumps, Some((timers, jumps)));
            && (res.None? <==> exists k :: 0 <= k < |items| && r.Collides(items[k].rect) && PowerupDuration(items[k].tag).None?)
            && (res.Some? ==> timers.Keys <= res.value.0.Keys)
            && (res.Some? ==> res.value.1 == jumps || res.value.1 == maxJumps)
    decreases |items|
  {
    if items != [] {
      var rest := items[1..];
      var next := PickOne(Some((timers, jumps)), items[0], r, pct, now, maxJumps);
      assert forall k :: 0 <= k < |rest| ==> rest[k] == items[k + 1];
      if next.None? {
        PickUpStaysFailed(rest, r, pct, now, maxJumps);
      } else {
        PickUpEffect(rest, r, pct, now, maxJumps, next.value.0, next.value.1);
        if exists k :: 0 <= k < |items| && r.Collides(items[k].rect) && PowerupDuration(items[k].tag).None? {
          var k :| 0 <= k < |items| && r.Collides(items[k].rect) && PowerupDuration(items[k].tag).None?;
          assert k != 0;
          assert rest[k - 1] == items[k];
        }
      }
    }
  }

  method MoveHorizontally(p: P.Player, solids: seq<Rect>)
    modifies p
    ensures p.Body() == MovedHorizontally(old(p.Body()), solids)
    ensures p.Status() == old(p.Status()) && p.powerUntil == old(p.powerUntil)
  {
    p.x := p.x + p.vx;
    Collision.ResolveHorizontal(p, solids);
  }

  method MoveVertically(p: P.Player, solids: seq<Rect>)
    modifies p
    ensures p.Body() == MovedVertically(old(p.Body()), solids)
    ensures p.Status() == old(p.Status()) && p.powerUntil == old(p.powerUntil)
  {
    p.y := p.y + p.vy;
    var onGround := Collision.ResolveVertical(p, solids);
  }

  /** Integrate and resolve against the solids, then clamp to the level. */
  method Integrate(p: P.Player, solids: seq<Rect>, width: int, height: int)
    requires p.Valid()
    modifies p
    ensures p.Body() == Integrated(old(p.Body()), solids, width, height)
    ensures p.Status() == old(p.Status()) && p.powerUntil == old(p.powerUntil)
    ensures p.Valid()
  {
    IntegratedInLevel(p.Body(), solids, width, height);
    MoveHorizontally(p, solids);
    MoveVertically(p, solids);
    Collision.ClampPlayerToLevel(p, width, height);
  }

  // ---------------------------------------------------------------------
  // One tick on values
  // ---------------------------------------------------------------------

  /** The key names bound to the four actions a tick reads. */
  datatype Bindings = Bindings(pause: Option<string>, jump: Option<string>, left: Option<string>, right: Option<string>)

  /** What a tick reads and writes besides the enemies: the player's body,
      status and powerup timers, the lives, score, completion time and game
      state, and the level's index, completion flag, layout and scene. */
  datatype Snapshot = Snapshot(
    body: P.BodyState, status: P.PlayerStatus, powerUntil: map<string, int>,
    lives: int, score: int, levelCompleteTime: Option<int>, state: GameState,
    index: int, completed: bool, layout: L.Layout, scene: L.Scene)

  /** The enemies' states, in order. */
  function EnemyStates(es: seq<E.Enemy>): (r: seq<E.EnemyState>)
    reads es
    ensures |r| == |es| && forall k :: 0 <= k < |es| ==> r[k] == es[k].State()
  {
    seq(|es|, k reads es requires 0 <= k < |es| => es[k].State())
  }

  /** Every enemy one frame of patrol further. */
  function Patrolled(es: seq<E.EnemyState>): (r: seq<E.EnemyState>)
    ensures |r| == |es| && forall k :: 0 <= k < |es| ==> r[k] == E.Patrol(es[k])
  {
    seq(|es|, k requires 0 <= k < |es| => E.Patrol(es[k]))
  }

  /** The key presses of a tick from a snapshot, with the window can_jump
      opens read before anything moves: the game pauses exactly when the
      pause key was pressed, and jumps are only ever spent. */
  function Pressed(s: Snapshot, keys: Bindings, coyoteTime: int, pressed: seq<string>, now: int): (p: Presses)
    requires s.body.jumpsRemaining >= 0
    ensures p.paused <==> keys.pause.Some? && keys.pause.value in pressed
    ensures 0 <= p.jumps <= s.body.jumpsRemaining
    ensures p.jumps == s.body.jumpsRemaining ==> p.vy == s.body.vy
    ensures p.jumps < s.body.jumpsRemaining ==> p.vy == s.status.jumpStrength
  {
    var open := s.status.onGround || now - s.status.lastGroundTime <= coyoteTime || s.body.maxJumps > 1;
    var start := Presses(false, s.body.vy, s.body.jumpsRemaining);
    PressAllEffect(start, pressed, keys.pause, keys.jump, open, s.status.jumpStrength);
    PressAll(start, pressed, keys.pause, keys.jump, open, s.status.jumpStrength)
  }

  /** The key presses of a tick applied to a snapshot: the pause, and the
      velocity and jump count after the jumps they allow. */
  function Pressing(s: Snapshot, keys: Bindings, coyoteTime: int, pressed: seq<string>, now: int): (r: Snapshot)
    requires s.body.jumpsRemaining >= 0
    ensures r.state == (if keys.pause.Some? && keys.pause.value in pressed then Paused else s.state)
    ensures 0 <= r.body.jumpsRemaining <= s.body.jumpsRemaining
    ensures r.body.jumpsRemaining == s.body.jumpsRemaining ==> r.body.vy == s.body.vy
    ensures r.body.jumpsRemaining < s.body.jumpsRemaining ==> r.body.vy == s.status.jumpStrength
    ensures r == s.(body := s.body.(vy := r.body.vy, jumpsRemaining := r.body.jumpsRemaining), state := r.state)
  {
    var presses := Pressed(s, keys, coyoteTime, pressed, now);
    s.(body := s.body.(vy := presses.vy, jumpsRemaining := presses.jumps),
       state := if presses.paused then Paused else s.state)
  }

  /** The movement keys of a tick applied to a snapshot: the horizontal
      velocity at the current speed, and the facing. */
  function Steering(s: Snapshot, keys: Bindings, held: set<string>): (r: Snapshot)
    ensures (r.body.vx, r.status.facingRight)
            == Steer(Held(held, keys.left), Held(held, keys.right), s.status.speed, s.status.facingRight)
    ensures r == s.(body := s.body.(vx := r.body.vx), status := s.status.(facingRight := r.status.facingRight))
  {
    var steer := Steer(Held(held, keys.left), Held(held, keys.right), s.status.speed, s.status.facingRight);
    s.(body := s.body.(vx := steer.0), status := s.status.(facingRight := steer.1))
  }

  /** The key presses and then the movement keys of a tick. */
  function Controlled(s: Snapshot, keys: Bindings, coyoteTime: int, input: Input, now: int): (r: Snapshot)
    requires s.body.jumpsRemaining >= 0
    ensures r.state == (if keys.pause.Some? && keys.pause.value in input.pressed then Paused else s.state)
    ensures 0 <= r.body.jumpsRemaining <= s.body.jumpsRemaining
    ensures (r.body.vx, r.status.facingRight)
            == Steer(Held(input.held, keys.left), Held(input.held, keys.right), s.status.speed, s.status.facingRight)
  {
    Steering(Pressing(s, keys, coyoteTime, input.pressed, now), keys, input.held)
  }

  /** The physics of a tick: the powerup timers set the speed and the jump
      capacity, gravity pulls, and the body is integrated against the
      ground and the platforms and clamped to the level. */
  function Physicked(s: Snapshot, now: int): (r: Snapshot)
    requires DOUBLE_JUMP in s.powerUntil && SPEED_BOOST in s.powerUntil
    ensures r.status.speed == (if now < s.powerUntil[SPEED_BOOST] then P.BoostedSpeed(s.status.baseSpeed) else s.status.baseSpeed)
    ensures r.body.maxJumps == 2 <==> now < s.powerUntil[DOUBLE_JUMP]
    ensures r == s.(body := r.body, status := s.status.(speed := r.status.speed))
  {
    var capacity := if now < s.powerUntil[DOUBLE_JUMP] then 2 else 1;
    var b := Integrated(s.body.(vy := Fall(s.body.vy), maxJumps := capacity),
                        Solids(s.layout.ground, s.scene.platforms), s.layout.width, s.layout.height);
    s.(body := b,
       status := s.status.(speed := if now < s.powerUntil[SPEED_BOOST] then P.BoostedSpeed(s.status.baseSpeed) else s.status.baseSpeed))
  }

  /** The first half of a PLAYING tick except the enemies' patrols: the
      controls, then the physics. */
  function Advanced(s: Snapshot, keys: Bindings, coyoteTime: int, input: Input, now: int): (r: Snapshot)
    requires DOUBLE_JUMP in s.powerUntil && SPEED_BOOST in s.powerUntil && s.body.jumpsRemaining >= 0
    ensures r.state == (if keys.pause.Some? && keys.pause.value in input.pressed then Paused else s.state)
    ensures r.status.speed == (if now < s.powerUntil[SPEED_BOOST] then P.BoostedSpeed(s.status.baseSpeed) else s.status.baseSpeed)
    ensures r.status.facingRight == Steer(Held(input.held, keys.left), Held(input.held, keys.right), s.status.speed, s.status.facingRight).1
    ensures r == s.(body := r.body, status := s.status.(speed := r.status.speed, facingRight := r.status.facingRight),
                    state := r.state)
  {
    Physicked(Controlled(s, keys, coyoteTime, input, now), now)
  }

  /** After the first half of a tick a player no larger than the level is
      inside it, its rectangle agrees with its position, its capacity is
      that of the timers, and its jump count lies between zero and what it
      was or the new capacity. */
  lemma AdvancedStaysInLevel(s: Snapshot, keys: Bindings, coyoteTime: int, input: Input, now: int)
    requires DOUBLE_JUMP in s.powerUntil && SPEED_BOOST in s.powerUntil && s.body.jumpsRemaining >= 0
    requires s.body.rect.w <= s.layout.width && s.body.rect.h <= s.layout.height
    ensures var r := Advanced(s, keys, coyoteTime, input, now).body;
            && Collision.Synced(r) && r.rect.w == s.body.rect.w && r.rect.h == s.body.rect.h
            && 0 <= r.rect.x && r.rect.Right() <= s.layout.width
            && 0 <= r.rect.y && r.rect.Bottom() <= s.layout.height
            && r.maxJumps == (if now < s.powerUntil[DOUBLE_JUMP] then 2 else 1)
            && 0 <= r.jumpsRemaining <= Max(s.body.jumpsRemaining, r.maxJumps)
  {
    var c := Controlled(s, keys, coyoteTime, input, now);
    IntegratedInLevel(c.body.(vy := Fall(c.body.vy), maxJumps := if now < s.powerUntil[DOUBLE_JUMP] then 2 else 1),
                      Solids(s.layout.ground, s.scene.platforms),
                      s.layout.width, s.layout.height);
  }

  /** The pickups on values: the untouched presents and powerups stay, each
      touched present scores one, and the touched powerups set their
      timers; None where a touched powerup has no duration. Presents are
      only ever moved from the level to the score. */
  function Collected(s: Snapshot, pct: int, now: int): (r: Option<Snapshot>)
    ensures var res := PickUp(s.scene.powerups, s.body.rect, pct, now, s.body.maxJumps,
                              Some((s.powerUntil, s.body.jumpsRemaining)));
            && (r.Some? <==> res.Some?)
            && (r.Some? ==> r.value == s.(score := r.value.score,
                                          scene := s.scene.(presents := Untouched(s.scene.presents, s.body.rect),
                                                            powerups := Untouched(s.scene.powerups, s.body.rect)),
                                          powerUntil := res.value.0, body := s.body.(jumpsRemaining := res.value.1)))
    ensures r.None? <==> exists k :: 0 <= k < |s.scene.powerups| && s.body.rect.Collides(s.scene.powerups[k].rect)
                                     && PowerupDuration(s.scene.powerups[k].tag).None?
    ensures r.Some? ==> r.value.score + |r.value.scene.presents| == s.score + |s.scene.presents|
    ensures r.Some? ==> r.value.score >= s.score
    ensures r.Some? ==> forall it :: it in r.value.scene.presents <==> it in s.scene.presents && !s.body.rect.Collides(it.rect)
    ensures r.Some? ==> s.powerUntil.Keys <= r.value.powerUntil.Keys
    ensures r.Some? ==> r.value.body.jumpsRemaining == s.body.jumpsRemaining || r.value.body.jumpsRemaining == s.body.maxJumps
  {
    var rect := s.body.rect;
    var presents := Untouched(s.scene.presents, rect);
    UntouchedExactly(s.scene.presents, rect);
    PickUpEffect(s.scene.powerups, rect, pct, now, s.body.maxJumps, s.powerUntil, s.body.jumpsRemaining);
    match PickUp(s.scene.powerups, rect, pct, now, s.body.maxJumps, Some((s.powerUntil, s.body.jumpsRemaining)))
    case None => None
    case Some(res) =>
      Some(s.(score := s.score + (|s.scene.presents| - |presents|),
              scene := s.scene.(presents := presents, powerups := Untouched(s.scene.powerups, rect)),
              powerUntil := res.0, body := s.body.(jumpsRemaining := res.1)))
  }

  /** Whether the rectangle overlaps any of the enemies. */
  predicate Touching(r: Rect, enemies: seq<E.EnemyState>) {
    exists k :: 0 <= k < |enemies| && r.Collides(enemies[k].rect)
  }

  /** Whether the invincibility powerup or the post-respawn window protects
      at now. */
  predicate Shielded(s: Snapshot, now: int) {
    (INVINCIBILITY in s.powerUntil && now < s.powerUntil[INVINCIBILITY]) || now < s.status.hitInvincibleUntil
  }

  /** Enemy contact on values, with whether the game is over: an
      unprotected touch costs a life and then ends the game or respawns
      the player, protected until ticks + RESPAWN_INVINCIBLE_TIME. */
  function Contacted(s: Snapshot, enemies: seq<E.EnemyState>, now: int, ticks: int): (r: (Snapshot, bool))
    ensures var hurt := Touching(s.body.rect, enemies) && !Shielded(s, now);
            && r.0.lives == (if hurt then s.lives - 1 else s.lives)
            && (r.1 <==> hurt && s.lives <= 1)
            && (!hurt ==> r.0 == s)
            && (r.1 ==> r.0 == s.(lives := s.lives - 1, state := MainMenu))
            && (hurt && !r.1 ==> r.0.body.rect.x == s.scene.playerStart.0 && r.0.body.rect.y == s.scene.playerStart.1)
            && (hurt && !r.1 ==> forall t :: ticks <= t < ticks + RESPAWN_INVINCIBLE_TIME ==> Shielded(r.0, t))
    ensures r.0 == s.(lives := r.0.lives, state := r.0.state, body := r.0.body, status := r.0.status)
  {
    if !Touching(s.body.rect, enemies) || Shielded(s, now) then (s, false)
    else if s.lives - 1 <= 0 then (s.(lives := s.lives - 1, state := MainMenu), true)
    else
      var start := s.scene.playerStart;
      (s.(lives := s.lives - 1,
          body := s.body.(rect := s.body.rect.(x := start.0, y := start.1), x := start.0 * SCALE, y := start.1 * SCALE,
                          vx := 0, vy := 0),
          status := s.status.(hitInvincibleUntil := ticks + RESPAWN_INVINCIBLE_TIME, lastGroundTime := 0, onGround := false)),
       false)
  }

  /** The goal, the walk animation and the level switch on values, with
      whether the next level is loaded now (the snapshot is then the one the
      switch discards). The first completion is stamped at ticks and the
      switch comes more than LEVEL_COMPLETE_DELAY after it: after the last
      level the game goes back to the menu instead. */
  function Finished(s: Snapshot, ticks: int, dtMs: int, levelCount: int): (r: (Snapshot, bool))
    ensures var first := s.body.rect.Collides(s.layout.goal) && s.score >= s.layout.totalPresents && !s.completed;
            && (first ==> r.0.completed && r.0.levelCompleteTime == Some(ticks) && !r.1 && r.0.state == s.state)
            && (!first ==> r.0.completed == s.completed && r.0.levelCompleteTime == s.levelCompleteTime)
    ensures var due := s.completed && s.levelCompleteTime.Some? && ticks - s.levelCompleteTime.value > LEVEL_COMPLETE_DELAY;
            && (r.1 <==> due && s.index + 1 < levelCount)
            && (r.0.state == (if due && s.index + 1 >= levelCount then MainMenu else s.state))
    ensures (r.0.status.currentFrame, r.0.status.animationTimer)
            == P.AnimationStep(s.body.vx, s.status.currentFrame, s.status.animationTimer, dtMs, s.status.animationSpeed)
    ensures r.0 == s.(completed := r.0.completed, levelCompleteTime := r.0.levelCompleteTime, state := r.0.state,
                      status := s.status.(currentFrame := r.0.status.currentFrame, animationTimer := r.0.status.animationTimer))
  {
    var first := s.body.rect.Collides(s.layout.goal) && s.score >= s.layout.totalPresents && !s.completed;
    var s1 := if first then s.(completed := true, levelCompleteTime := Some(ticks)) else s;
    var frame := P.AnimationStep(s1.body.vx, s1.status.currentFrame, s1.status.animationTimer, dtMs, s1.status.animationSpeed);
    var s2 := s1.(status := s1.status.(currentFrame := frame.0, animationTimer := frame.1));
    var due := s2.completed && s2.levelCompleteTime.Some? && ticks - s2.levelCompleteTime.value > LEVEL_COMPLETE_DELAY;
    if due && s2.index + 1 >= levelCount then (s2.(state := MainMenu), false)
    else (s2, due)
  }

  // ---------------------------------------------------------------------
  // The game
  // ---------------------------------------------------------------------

  /** The level manager of a new game: built on the first level, then
      switched to the chosen one. */
  method StartLevel(levels: seq<L.LevelData>, settings: S.Settings, levelIndex: int) returns (lm: L.LevelManager)
    requires 0 <= levelIndex && (levels != [] ==> levelIndex < |levels|)
    ensures fresh(lm) && lm.Valid() && lm.levels == levels && lm.settings == settings && lm.index == levelIndex
    ensures levels != [] ==> lm.Loaded(levelIndex)
    ensures lm.layout.totalPresents == |lm.scene.presents|
    ensures !lm.completed
  {
    lm := new L.LevelManager(levels, settings, 0);
    lm.index := levelIndex;
    lm.LoadLevel(levelIndex);
    if levels != [] {
      L.LoadedCountsPresents(lm, levelIndex);
    }
  }

  class Game {
    const settings: S.Settings
    const level: L.LevelManager
    var player: P.Player
    const camera: C.Camera
    var lives: int
    var score: int
    var levelCompleteTime: Option<int>
    var state: GameState
    /** COYOTE_TIME, which constants.py does not define. */
    const coyoteTime: int

    /** The invariants of play: the player and the level are valid, each
        present is either still in the level or counted in the score, a
        completed level has a completion time, there is a life while
        playing, and (as the code is written) nothing ever grounds the
        player. */
    ghost predicate Valid()
      reads this, player, level
    {
      && player.Valid() && level.Valid()
      && score >= 0
      && score + |level.scene.presents| == level.layout.totalPresents
      && (level.completed <==> levelCompleteTime.Some?)
      && (state == Playing || state == Paused ==> lives >= 1)
      && !player.onGround && player.lastGroundTime == 0
    }

    /** The key names the tick reads. */
    function Keys(): Bindings
      reads settings
    {
      Bindings(settings.KeyFor("pause"), settings.KeyFor("jump"), settings.KeyFor("left"), settings.KeyFor("right"))
    }

    /** The state a tick reads and writes, as a value. */
    ghost function Snap(): Snapshot
      reads this, player, level
    {
      Snapshot(player.Body(), player.Status(), player.powerUntil, lives, score, levelCompleteTime, state,
               level.index, level.completed, level.layout, level.scene)
    }

    /** The next level after the snapshot f is loaded, with a new player at
        its start and no score; lives and game state are those of f. */
    ghost predicate SwitchedFrom(f: Snapshot)
      reads this, player, level, level.enemies, level.settings
    {
      && level.index == f.index + 1 && 0 <= level.index < |level.levels| && level.Loaded(level.index)
      && player.Body() == P.StartBody(level.scene.playerStart.0, level.scene.playerStart.1)
      && player.Status() == P.START_STATUS && player.powerUntil == P.NO_POWERUPS
      && score == 0 && levelCompleteTime == None && lives == f.lives && state == f.state
    }

    /** The second half of a tick from the snapshot s and the enemies'
        states, as the current state shows it: the pickups (or the crash on
        a powerup without a duration, after the presents were taken), then
        enemy contact, which may end the game, then the goal, the animation
        and the level switch. */
    ghost predicate InteractedFrom(s: Snapshot, enemies: seq<E.EnemyState>, outcome: Outcome, now: int, ticks: int, dtMs: int)
      reads this, player, level, level.enemies, level.settings, settings
    {
      match Collected(s, settings.powerupPct, now)
      case None =>
        && outcome.Crashed? && PowerupDuration(outcome.ptype).None?
        && level.scene.presents == Untouched(s.scene.presents, s.body.rect)
        && score == s.score + (|s.scene.presents| - |level.scene.presents|)
        && lives == s.lives && state == s.state
      case Some(c) => outcome == Continue && ResolvedFrom(c, enemies, now, ticks, dtMs)
    }

    /** Enemy contact from the snapshot c and the enemies' states, which
        may end the game, then the goal, the animation and the level
        switch, as the current state shows it. */
    ghost predicate ResolvedFrom(c: Snapshot, enemies: seq<E.EnemyState>, now: int, ticks: int, dtMs: int)
      reads this, player, level, level.enemies, level.settings
    {
      var (d, over) := Contacted(c, enemies, now, ticks);
      if over then Snap() == d
      else
        var (f, switched) := Finished(d, ticks, dtMs, |level.levels|);
        if switched then SwitchedFrom(f) else Snap() == f
    }

    /** start_new_game followed by the switch to PLAYING: the level is
        loaded, the player stands at its start, with the difficulty's lives
        and no score. */
    constructor (levels: seq<L.LevelData>, settings: S.Settings, levelIndex: int, coyoteTime: int)
      requires settings.Valid()
      requires 0 <= levelIndex && (levels != [] ==> levelIndex < |levels|)
      ensures Valid() && state == Playing
      ensures this.settings == settings && this.coyoteTime == coyoteTime
      ensures level.levels == levels && level.index == levelIndex
      ensures levels != [] ==> level.Loaded(levelIndex)
      ensures player.Body() == P.StartBody(level.scene.playerStart.0, level.scene.playerStart.1)
      ensures player.Status() == P.START_STATUS && player.powerUntil == P.NO_POWERUPS
      ensures camera.x == 0 && camera.y == 0
      ensures lives == settings.lives && score == 0 && levelCompleteTime == None
    {
      var lm := StartLevel(levels, settings, levelIndex);
      var start := lm.scene.playerStart;
      var p := new P.Player(start.0, start.1);
      var cam := new C.Camera();
      this.settings := settings;
      level := lm;
      player := p;
      camera := cam;
      lives := settings.lives;
      score := 0;
      levelCompleteTime := None;
      state := Playing;
      this.coyoteTime := coyoteTime;
    }

    /** The KEYDOWN loop: pause, or jump when can_jump allows it. */
    method HandleKeyPresses(pressed: seq<string>, now: int)
      requires player.Valid()
      modifies this`state, player`vy, player`jumpsRemaining
      ensures var r := PressAll(Presses(false, old(player.vy), old(player.jumpsRemaining)), pressed,
                                settings.KeyFor("pause"), settings.KeyFor("jump"),
                                player.onGround || now - player.lastGroundTime <= coyoteTime || player.maxJumps > 1,
                                player.jumpStrength);
              && state == (if r.paused then Paused else old(state))
              && player.vy == r.vy && player.jumpsRemaining == r.jumps
      ensures player.Valid()
    {
      ghost var start := Presses(false, player.vy, player.jumpsRemaining);
      ghost var open := player.onGround || now - player.lastGroundTime <= coyoteTime || player.maxJumps > 1;
      var i := 0;
      while i < |pressed|
        invariant 0 <= i <= |pressed|
        invariant var r := PressAll(start, pressed[..i], settings.KeyFor("pause"), settings.KeyFor("jump"), open, player.jumpStrength);
                  && state == (if r.paused then Paused else old(state))
                  && player.vy == r.vy && player.jumpsRemaining == r.jumps
      {
        var key := pressed[i];
        if Some(key) == settings.KeyFor("pause") {
          state := Paused;
        } else if Some(key) == settings.KeyFor("jump") {
          P.CanJumpExactly(player, now, coyoteTime);
          if player.CanJump(now, coyoteTime) {
            player.vy := player.jumpStrength;
            player.jumpsRemaining := player.jumpsRemaining - 1;
          }
        }
        assert pressed[..i + 1][..i] == pressed[..i];
        i := i + 1;
      }
      assert pressed[..i] == pressed;
      PressAllEffect(start, pressed, settings.KeyFor("pause"), settings.KeyFor("jump"), open, player.jumpStrength);
    }

    /** Movement: at rest, then left, then right. */
    method ApplyMovement(held: set<string>)
      modifies player`vx, player`facingRight
      ensures (player.vx, player.facingRight)
              == Steer(Held(held, settings.KeyFor("left")), Held(held, settings.KeyFor("right")),
                       player.speed, old(player.facingRight))
      ensures Snap() == Steering(old(Snap()), Keys(), held)
    {
      player.vx := 0;
      if Held(held, settings.KeyFor("left")) {
        player.vx := -player.speed;
        player.facingRight := false;
      }
      if Held(held, settings.KeyFor("right")) {
        player.vx := player.speed;
        player.facingRight := true;
      }
    }

    /** Gravity with the terminal-velocity cap. */
    method ApplyGravity()
      modifies player`vy
      ensures player.vy == Fall(old(player.vy))
    {
      player.vy := player.vy + GRAVITY;
      if player.vy > MAX_FALL {
        player.vy := MAX_FALL;
      }
    }

    /** The key presses, then the movement keys. */
    method Controls(input: Input, now: int)
      requires Valid() && state == Playing
      modifies this`state, player`vy, player`jumpsRemaining, player`vx, player`facingRight
      ensures Valid()
      ensures Snap() == Controlled(old(Snap()), Keys(), coyoteTime, input, now)
    {
      HandleKeyPresses(input.pressed, now);
      assert Snap() == Pressing(old(Snap()), Keys(), coyoteTime, input.pressed, now);
      ApplyMovement(input.held);
    }

    /** The powerup timers, gravity, then integration against the ground and
        the platforms and the clamp to the level. */
    method Physics(now: int)
      requires Valid()
      modifies player
      ensures Valid()
      ensures Snap() == Physicked(old(Snap()), now)
    {
      player.UpdatePowerups(now);
      ApplyGravity();
      assert Snap() == old(Snap()).(body := old(Snap()).body.(vy := Fall(old(player.vy)), maxJumps := player.maxJumps),
                                   status := old(Snap()).status.(speed := player.speed));
      Integrate(player, Solids(level.layout.ground, level.scene.platforms), level.layout.width, level.layout.height);
    }

    /** Every enemy patrols one frame. */
    method UpdateEnemies()
      requires L.Distinct(level.enemies)
      modifies level.enemies
      ensures forall k :: 0 <= k < |level.enemies| ==> level.enemies[k].State() == E.Patrol(old(level.enemies[k].State()))
      ensures EnemyStates(level.enemies) == Patrolled(old(EnemyStates(level.enemies)))
      ensures Snap() == old(Snap()) && Valid() == old(Valid())
      ensures camera.x == old(camera.x) && camera.y == old(camera.y)
    {
      var es := level.enemies;
      var i := 0;
      while i < |es|
        invariant 0 <= i <= |es|
        invariant forall k :: 0 <= k < i ==> es[k].State() == E.Patrol(old(es[k].State()))
        invariant forall k :: i <= k < |es| ==> es[k].State() == old(es[k].State())
      {
        es[i].Update();
        i := i + 1;
      }
    }

    /** The present loop over a copy of the list: each touched present is
        removed and scores one. */
    method TakePresents()
      modifies this`score, level`scene
      ensures level.scene == old(level.scene).(presents := Untouched(old(level.scene.presents), player.rect))
      ensures score == old(score) + (|old(level.scene.presents)| - |level.scene.presents|)
    {
      var snapshot := level.scene.presents;
      var i := 0;
      while i < |snapshot|
        invariant 0 <= i <= |snapshot|
        invariant level.scene.presents == Untouched(snapshot[..i], player.rect) + snapshot[i..]
        invariant level.scene == old(level.scene).(presents := level.scene.presents)
        invariant score == old(score) + (i - |Untouched(snapshot[..i], player.rect)|)
      {
        var p := snapshot[i];
        if player.rect.Collides(p.rect) {
          PickupTaken(snapshot, i, player.rect);
          level.scene := level.scene.(presents := RemoveFirst(level.scene.presents, p));
          score := score + 1;
        } else {
          PickupKept(snapshot, i, player.rect);
        }
        i := i + 1;
      }
      assert snapshot[..i] == snapshot;
    }

    /** The body of the powerup loop for one powerup, except its removal:
        a touched powerup is applied for its scaled duration. */
    method TakeIfTouched(pu: L.Item, now: int) returns (ok: bool)
      requires player.Valid()
      modifies player`powerUntil, player`jumpsRemaining
      ensures var next := PickOne(Some((old(player.powerUntil), old(player.jumpsRemaining))), pu, old(player.rect),
                                  settings.powerupPct, now, old(player.maxJumps));
              && (ok <==> next.Some?)
              && (ok ==> (player.powerUntil, player.jumpsRemaining) == next.value)
      ensures !ok ==> PowerupDuration(pu.tag).None?
      ensures player.Valid()
    {
      if player.rect.Collides(pu.rect) {
        var duration := ScaledDuration(pu.tag, settings.powerupPct);
        if duration.None? {
          return false;
        }
        player.ApplyPowerup(pu.tag, duration.value, now);
      }
      return true;
    }

    /** The pickups of a tick: every touched present scores one and leaves
        the level, so the tally of presents held and left stays whole; then
        every touched powerup is applied and leaves the level, and a type
        without a duration stops the program. */
    method Collect(now: int) returns (crash: Option<string>)
      requires Valid()
      modifies this`score, level`scene, player`powerUntil, player`jumpsRemaining
      ensures level.scene.presents == Untouched(old(level.scene.presents), player.rect)
      ensures score == old(score) + (|old(level.scene.presents)| - |level.scene.presents|)
      ensures var res := PickUp(old(level.scene.powerups), player.rect, settings.powerupPct, now,
                                player.maxJumps, Some((old(player.powerUntil), old(player.jumpsRemaining))));
              && (crash.None? <==> res.Some?)
              && (crash.Some? ==> PowerupDuration(crash.value).None?)
              && (crash.None? ==>
                    && level.scene == old(level.scene).(presents := level.scene.presents,
                                                         powerups := Untouched(old(level.scene.powerups), player.rect))
                    && (player.powerUntil, player.jumpsRemaining) == res.value)
      ensures crash.None? <==> Collected(old(Snap()), settings.powerupPct, now).Some?
      ensures crash.None? ==> Snap() == Collected(old(Snap()), settings.powerupPct, now).value
      ensures crash.None? ==> Valid()
      ensures unchanged(level.enemies)
    {
      ghost var before := Snap();
      TakePresents();
      crash := TakePowerups(now);
      assert before.body.rect == player.rect && before.body.maxJumps == player.maxJumps;
      assert before.scene.powerups == old(level.scene.powerups) && before.powerUntil == old(player.powerUntil);
    }

    /** The powerup loop over a copy of the list: each touched powerup is
        applied for its scaled duration and removed; a type without a
        duration stops the program. */
    method TakePowerups(now: int) returns (crash: Option<string>)
      requires player.Valid()
      modifies level`scene, player`powerUntil, player`jumpsRemaining
      ensures var res := PickUp(old(level.scene.powerups), player.rect, settings.powerupPct, now,
                                player.maxJumps, Some((old(player.powerUntil), old(player.jumpsRemaining))));
              && (crash.None? <==> res.Some?)
              && (crash.Some? ==> PowerupDuration(crash.value).None?)
              && (crash.None? ==>
                    && level.scene == old(level.scene).(powerups := Untouched(old(level.scene.powerups), player.rect))
                    && (player.powerUntil, player.jumpsRemaining) == res.value)
      ensures level.scene == old(level.scene).(powerups := level.scene.powerups)
      ensures player.Valid()
    {
      var snapshot := level.scene.powerups;
      var powerups := snapshot;
      ghost var r, pct, maxJumps := player.rect, settings.powerupPct, player.maxJumps;
      ghost var result := PickUp(snapshot, r, pct, now, maxJumps, Some((player.powerUntil, player.jumpsRemaining)));
      var i := 0;
      while i < |snapshot|
        invariant 0 <= i <= |snapshot|
        invariant r == player.rect && pct == settings.powerupPct && maxJumps == player.maxJumps
        invariant powerups == Untouched(snapshot[..i], r) + snapshot[i..]
        invariant level.scene == old(level.scene)
        invariant result == PickUp(snapshot[i..], r, pct, now, maxJumps, Some((player.powerUntil, player.jumpsRemaining)))
        invariant player.Valid()
      {
        var pu := snapshot[i];
        PickUpStep(snapshot, i, r, pct, now, maxJumps, Some((player.powerUntil, player.jumpsRemaining)));
        var ok := TakeIfTouched(pu, now);
        if !ok {
          PickUpStaysFailed(snapshot[i + 1..], r, pct, now, maxJumps);
          level.scene := level.scene.(powerups := powerups);
          return Some(pu.tag);
        }
        if player.rect.Collides(pu.rect) {
          PickupTaken(snapshot, i, r);
          powerups := RemoveFirst(powerups, pu);
        } else {
          PickupKept(snapshot, i, r);
        }
        i := i + 1;
      }
      assert snapshot[..i] == snapshot;
      level.scene := level.scene.(powerups := powerups);
      return None;
    }

    /** Whether the player touches any enemy (the search for the first). */
    method TouchesEnemy() returns (hit: bool)
      ensures hit <==> Touching(player.rect, EnemyStates(level.enemies))
    {
      var i := 0;
      while i < |level.enemies|
        invariant 0 <= i <= |level.enemies|
        invariant forall k :: 0 <= k < i ==> !player.rect.Collides(level.enemies[k].rect)
      {
        if player.rect.Collides(level.enemies[i].rect) {
          return true;
        }
        i := i + 1;
      }
      return false;
    }

    /** Enemy contact: unless invincible, a touch costs a life, and then
        either ends the game or respawns the player at the level's start
        (the respawn reads the clock as ticks). */
    method EnemyContact(now: int, ticks: int) returns (gameOver: bool)
      requires Valid()
      modifies this`lives, this`state, player`rect, player`x, player`y, player`vx, player`vy,
               player`hitInvincibleUntil, player`lastGroundTime, player`onGround
      ensures var hurt := Touching(old(player.rect), EnemyStates(level.enemies)) && !old(player.IsInvincible(now));
              && (!hurt ==> !gameOver && lives == old(lives) && state == old(state) &&
                            player.Body() == old(player.Body()) && player.Status() == old(player.Status()))
              && (hurt ==> lives == old(lives) - 1)
              && (hurt && old(lives) <= 1 ==> gameOver && state == MainMenu &&
                                              player.Body() == old(player.Body()) && player.Status() == old(player.Status()))
              && (hurt && old(lives) > 1 ==>
                    && !gameOver && state == old(state)
                    && player.rect == old(player.rect).(x := level.scene.playerStart.0, y := level.scene.playerStart.1)
                    && player.x == level.scene.playerStart.0 * SCALE && player.y == level.scene.playerStart.1 * SCALE
                    && player.vx == 0 && player.vy == 0
                    && player.Status() == old(player.Status()).(hitInvincibleUntil := ticks + RESPAWN_INVINCIBLE_TIME,
                                                                lastGroundTime := 0, onGround := false))
      ensures (Snap(), gameOver) == Contacted(old(Snap()), EnemyStates(level.enemies), now, ticks)
      ensures Valid()
    {
      var hit := TouchesEnemy();
      if hit && !player.IsInvincible(now) {
        lives := lives - 1;
        if lives <= 0 {
          state := MainMenu;
          return true;
        }
        player.Respawn(level.scene.playerStart.0, level.scene.playerStart.1, ticks);
      }
      return false;
    }

    /** The goal: reached with every present counted, it completes the
        level once, stamping the time of the first completion. */
    method CheckGoal(ticks: int)
      requires Valid()
      modifies level`completed, this`levelCompleteTime
      ensures Valid()
      ensures var first := player.rect.Collides(level.layout.goal) && score >= level.layout.totalPresents
                           && !old(level.completed);
              && (first ==> level.completed && levelCompleteTime == Some(ticks))
              && (!first ==> level.completed == old(level.completed) && levelCompleteTime == old(levelCompleteTime))
    {
      if player.rect.Collides(level.layout.goal) {
        if score >= level.layout.totalPresents {
          if !level.completed {
            level.completed := true;
            levelCompleteTime := Some(ticks);
          }
        }
      }
    }

    /** The delayed level switch: once the delay after completion has
        passed, load the next level with a new player and no score, or go
        back to the menu after the last level. */
    method AdvanceLevel(ticks: int)
      requires Valid()
      modifies this`player, this`score, this`levelCompleteTime, this`state, level
      ensures var due := old(level.completed) && old(levelCompleteTime).Some?
                         && ticks - old(levelCompleteTime).value > LEVEL_COMPLETE_DELAY;
              && (!due ==> unchanged(this) && unchanged(level))
              && (due && old(level.index) + 1 < |level.levels| ==>
                    && level.index == old(level.index) + 1 && level.Loaded(level.index)
                    && score == 0 && levelCompleteTime == None && state == old(state)
                    && fresh(player)
                    && player.Body() == P.StartBody(level.scene.playerStart.0, level.scene.playerStart.1)
                    && player.Status() == P.START_STATUS && player.powerUntil == P.NO_POWERUPS)
              && (due && old(level.index) + 1 >= |level.levels| ==>
                    && state == MainMenu && unchanged(level) && player == old(player)
                    && score == old(score) && levelCompleteTime == old(levelCompleteTime))
      ensures Valid()
    {
      if level.completed && levelCompleteTime.Some? {
        if ticks - levelCompleteTime.value > LEVEL_COMPLETE_DELAY {
          var advanced := level.NextLevel();
          if advanced {
            L.LoadedCountsPresents(level, level.index);
            player := new P.Player(level.scene.playerStart.0, level.scene.playerStart.1);
            score := 0;
            // load_level has already cleared completed; clearing it again
            // changes nothing.
            levelCompleteTime := None;
          } else {
            state := MainMenu;
          }
        }
      }
    }

    /** The key presses, the movement keys and the physics. */
    method Move(input: Input, now: int)
      requires Valid() && state == Playing
      modifies this`state, player
      ensures Valid()
      ensures Snap() == Advanced(old(Snap()), Keys(), coyoteTime, input, now)
      ensures EnemyStates(level.enemies) == old(EnemyStates(level.enemies))
    {
      Controls(input, now);
      Physics(now);
    }

    /** The camera follows the player, then every enemy patrols one frame. */
    method Follow()
      requires L.Distinct(level.enemies)
      modifies camera, level.enemies
      ensures Snap() == old(Snap()) && Valid() == old(Valid())
      ensures EnemyStates(level.enemies) == Patrolled(old(EnemyStates(level.enemies)))
      ensures camera.x == C.ClampOffset(player.rect.CenterX() - BASE_WIDTH / 2, level.layout.width, BASE_WIDTH)
      ensures camera.y == C.ClampOffset(player.rect.CenterY() - BASE_HEIGHT / 2, level.layout.height, BASE_HEIGHT)
    {
      camera.Update(player.rect, level.layout.width, level.layout.height);
      UpdateEnemies();
    }

    /** The first half of a tick: input, physics, the camera and the
        enemies' patrols. */
    method Advance(input: Input, now: int)
      requires Valid() && state == Playing
      modifies this`state, player, camera, level.enemies
      ensures Valid()
      ensures state == Playing || state == Paused
      ensures Snap() == Advanced(old(Snap()), Keys(), coyoteTime, input, now)
      ensures EnemyStates(level.enemies) == Patrolled(old(EnemyStates(level.enemies)))
      ensures camera.x == C.ClampOffset(player.rect.CenterX() - BASE_WIDTH / 2, level.layout.width, BASE_WIDTH)
      ensures camera.y == C.ClampOffset(player.rect.CenterY() - BASE_HEIGHT / 2, level.layout.height, BASE_HEIGHT)
    {
      Move(input, now);
      Follow();
    }

    /** The second half of a tick: pickups, enemy contact, then the rest.
        A game over ends the tick at once; an unknown powerup type ends the
        program. */
    method Interact(now: int, ticks: int, dtMs: int) returns (outcome: Outcome)
      requires Valid() && (state == Playing || state == Paused)
      modifies this, player, level
      ensures outcome.Continue? ==> Valid()
      ensures outcome.Crashed? ==> PowerupDuration(outcome.ptype).None?
      ensures lives == old(lives) || lives == old(lives) - 1
      ensures state == old(state) || state == MainMenu
      ensures InteractedFrom(old(Snap()), old(EnemyStates(level.enemies)), outcome, now, ticks, dtMs)
      ensures player != old(player) ==> fresh(player)
      ensures camera.x == old(camera.x) && camera.y == old(camera.y)
    {
      var crash := Collect(now);
      if crash.Some? {
        return Crashed(crash.value);
      }
      Resolve(now, ticks, dtMs);
      return Continue;
    }

    /** Enemy contact, then, unless the game is over, the rest of the tick. */
    method Resolve(now: int, ticks: int, dtMs: int)
      requires Valid()
      modifies this, player, level
      ensures Valid()
      ensures lives == old(lives) || lives == old(lives) - 1
      ensures state == old(state) || state == MainMenu
      ensures ResolvedFrom(old(Snap()), old(EnemyStates(level.enemies)), now, ticks, dtMs)
      ensures player != old(player) ==> fresh(player)
    {
      var gameOver := EnemyContact(now, ticks);
      if !gameOver {
        Finish(ticks, dtMs);
      }
    }

    /** The goal, the walk animation and the delayed level switch. */
    method Finish(ticks: int, dtMs: int)
      requires Valid()
      modifies this`player, this`score, this`levelCompleteTime, this`state, player`currentFrame,
               player`animationTimer, level
      ensures Valid()
      ensures state == old(state) || state == MainMenu
      ensures var (f, switched) := Finished(old(Snap()), ticks, dtMs, |level.levels|);
              && (switched ==> SwitchedFrom(f) && fresh(player))
              && (!switched ==> Snap() == f && player == old(player))
    {
      CheckGoal(ticks);
      player.UpdateAnimation(dtMs);
      AdvanceLevel(ticks);
    }

    /** One tick of the PLAYING state, in the loop's order. */
    method Step(input: Input, now: int, ticks: int, dtMs: int) returns (outcome: Outcome)
      requires Valid() && state == Playing
      modifies this, player, camera, level, level.enemies
      ensures outcome.Continue? ==> Valid()
      ensures outcome.Crashed? ==> PowerupDuration(outcome.ptype).None?
      ensures lives == old(lives) || lives == old(lives) - 1
      ensures state == Playing || state == Paused || state == MainMenu
      ensures var mid := Advanced(old(Snap()), Keys(), coyoteTime, input, now);
              && InteractedFrom(mid, Patrolled(old(EnemyStates(level.enemies))), outcome, now, ticks, dtMs)
              && camera.x == C.ClampOffset(mid.body.rect.CenterX() - BASE_WIDTH / 2, mid.layout.width, BASE_WIDTH)
              && camera.y == C.ClampOffset(mid.body.rect.CenterY() - BASE_HEIGHT / 2, mid.layout.height, BASE_HEIGHT)
    {
      Advance(input, now);
      outcome := Interact(now, ticks, dtMs);
    }
  }

  /** With every present either in the level or in the score, the goal's
      condition score >= total_presents holds exactly when no present is
      left. */
  lemma GoalNeedsEveryPresent(score: int, presents: seq<L.Item>, total: int)
    requires score + |presents| == total
    ensures score >= total <==> presents == []
  {
  }
}
