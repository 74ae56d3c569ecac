/** A patrolling enemy (enemy.py). Its rectangle is in whole pixels; its
    speed and velocity may be fractional and are in thousandths of a pixel
    per frame. */
module Enemy {
  import opened Common
  import opened Geometry

  /** The enemy's state as one value. */
  datatype EnemyState = EnemyState(rect: Rect, vx: int, patrolMin: int, patrolMax: int, speed: int)

  /** One frame of patrol: move by vx, then clamp into the patrol range,
      turning back toward the interior on an overshoot. */
  function Patrol(e: EnemyState): (r: EnemyState)
    ensures e.patrolMin <= e.patrolMax ==> e.patrolMin <= r.rect.x <= e.patrolMax
    ensures r.vx != e.vx ==> r.rect.x == e.patrolMin || r.rect.x == e.patrolMax
    ensures Trunc(e.rect.x * SCALE + e.vx) < e.patrolMin ==> r.rect.x == e.patrolMin && r.vx == Abs(e.speed)
    ensures e.patrolMin <= Trunc(e.rect.x * SCALE + e.vx) && e.patrolMax < Trunc(e.rect.x * SCALE + e.vx)
            ==> r.rect.x == e.patrolMax && r.vx == -Abs(e.speed)
    ensures e.patrolMin <= Trunc(e.rect.x * SCALE + e.vx) <= e.patrolMax
            ==> r.rect.x == Trunc(e.rect.x * SCALE + e.vx) && r.vx == e.vx
    ensures r.rect.y == e.rect.y && r.rect.w == e.rect.w && r.rect.h == e.rect.h
    ensures r.patrolMin == e.patrolMin && r.patrolMax == e.patrolMax && r.speed == e.speed
  {
    var x := Trunc(e.rect.x * SCALE + e.vx);
    if x < e.patrolMin then e.(rect := e.rect.(x := e.patrolMin), vx := Abs(e.speed))
    else if x > e.patrolMax then e.(rect := e.rect.(x := e.patrolMax), vx := -Abs(e.speed))
    else e.(rect := e.rect.(x := x))
  }

  /** n frames of patrol. */
  function PatrolFor(e: EnemyState, n: nat): EnemyState
    decreases n
  {
    if n == 0 then e else Patrol(PatrolFor(e, n - 1))
  }

  /** Over any number of frames the enemy moves at its initial velocity or at
      its speed, one way or the other, and keeps its row, size and range. */
  lemma {:induction false} PatrolKeepsSpeed(e: EnemyState, n: nat)
    ensures PatrolFor(e, n).vx == e.vx || PatrolFor(e, n).vx == Abs(e.speed) || PatrolFor(e, n).vx == -Abs(e.speed)
    ensures PatrolFor(e, n).rect.y == e.rect.y && PatrolFor(e, n).rect.w == e.rect.w && PatrolFor(e, n).rect.h == e.rect.h
    ensures PatrolFor(e, n).patrolMin == e.patrolMin && PatrolFor(e, n).patrolMax == e.patrolMax
    ensures PatrolFor(e, n).speed == e.speed
    decreases n
  {
    if n > 0 {
      PatrolKeepsSpeed(e, n - 1);
    }
  }

  /** After its first frame an enemy with a non-empty range never leaves it. */
  lemma {:induction false} PatrolStaysInRange(e: EnemyState, n: nat)
    requires e.patrolMin <= e.patrolMax && n >= 1
    ensures e.patrolMin <= PatrolFor(e, n).rect.x <= e.patrolMax
  {
    PatrolKeepsSpeed(e, n - 1);
  }

  class Enemy {
    var rect: Rect
    var vx: int
    var patrolMin: int
    var patrolMax: int
    var speed: int

    function State(): EnemyState
      reads this
    {
      EnemyState(rect, vx, patrolMin, patrolMax, speed)
    }

    /** A new enemy starts moving at its speed (positive: to the right). */
    constructor (x: int, y: int, w: nat, h: nat, patrolMinX: int, patrolMaxX: int, speed: int)
      ensures State() == EnemyState(Rect(x, y, w, h), speed, patrolMinX, patrolMaxX, speed)
    {
      rect := Rect(x, y, w, h);
      vx := speed;
      patrolMin := patrolMinX;
      patrolMax := patrolMaxX;
      this.speed := speed;
    }

    /** One frame of patrol, in place. */
    method Update()
      modifies this
      ensures State() == Patrol(old(State()))
    {
      rect := rect.(x := Trunc(rect.x * SCALE + vx));
      if rect.x < patrolMin {
        rect := rect.(x := patrolMin);
        vx := Abs(speed);
      } else if rect.x > patrolMax {
        rect := rect.(x := patrolMax);
        vx := -Abs(speed);
      }
    }
  }
}
