/**
 * Enemies: a patrol that turns around at fixed x thresholds, gravity, and a
 * one-sided landing rule against platforms (no side or underside resolution).
 */
module Enemies {
  import opened Geometry
  import opened Platforms

  const PatrolSpeed: real := 2.0
  const Gravity: real := 0.8
  const TurnLeftOf: real := 50.0
  const TurnRightOf: real := 750.0
  const HalfWidth: real := 12.0
  const HalfHeight: real := 18.0

  /** The kinematic state of an enemy; `dir` is the patrol direction sign. */
  datatype EnemyBody = EnemyBody(x: real, y: real, vy: real, dir: Direction)

  /** A patrol direction: 1 walks right, -1 walks left. */
  type Direction = d: int | d == 1 || d == -1 witness 1

  /** The enemy's collision box: 24 by 36, centred on its position. */
  function EnemyBounds(e: EnemyBody): (r: Rect)
    ensures CentredOn(r, e.x, e.y, 2.0 * HalfWidth, 2.0 * HalfHeight)
  {
    Rect(e.x - 12.0, e.y - 18.0, 24.0, 36.0)
  }

  /**
   * One frame of patrol: x moves by speed times direction times delta,
   * gravity is integrated, y moves by the new vertical speed, and the
   * direction flips exactly when the new x is outside [50, 750].
   */
  function Patrol(e: EnemyBody, delta: real): (r: EnemyBody)
    ensures r.x == e.x + PatrolSpeed * (e.dir as real) * delta
    ensures r.vy == e.vy + Gravity * delta
    ensures r.y == e.y + r.vy * delta
    ensures r.dir != e.dir <==> r.x < TurnLeftOf || r.x > TurnRightOf
  {
    var x := e.x + PatrolSpeed * (e.dir as real) * delta;
    var vy := e.vy + Gravity * delta;
    var dir := if x < TurnLeftOf || x > TurnRightOf then e.dir * -1 else e.dir;
    EnemyBody(x, e.y + vy * delta, vy, dir)
  }

  /** Whether platform box `p` stops a falling enemy. */
  predicate Catches(e: EnemyBody, p: Rect)
  {
    Intersects(EnemyBounds(e), p) && e.vy > 0.0
  }

  /**
   * Landing against one platform: a falling enemy that overlaps it is put
   * with its feet on the platform top and stops falling; anything else is
   * left alone. Only y and the vertical speed can change.
   */
  function Land(e: EnemyBody, p: Rect): (r: EnemyBody)
    ensures r.x == e.x && r.dir == e.dir
    ensures Catches(e, p) ==> EnemyBounds(r).Bottom() == p.y && r.vy == 0.0
    ensures !Catches(e, p) ==> r == e
  {
    if Catches(e, p) then e.(y := p.y - HalfHeight, vy := 0.0) else e
  }

  /** Landing against every platform in list order. */
  function LandAll(e: EnemyBody, ps: seq<Platform>): (r: EnemyBody)
    ensures r.x == e.x && r.dir == e.dir
    ensures r == e || r.vy == 0.0
    decreases |ps|
  {
    if ps == [] then e
    else Land(LandAll(e, ps[..|ps| - 1]), ps[|ps| - 1].Bounds())
  }

  /** How many platforms snapped the enemy during LandAll. */
  function SnapCount(e: EnemyBody, ps: seq<Platform>): nat
    decreases |ps|
  {
    if ps == [] then 0
    else
      var n := |ps| - 1;
      SnapCount(e, ps[..n]) + if Catches(LandAll(e, ps[..n]), ps[n].Bounds()) then 1 else 0
  }

  /** At most one platform snaps an enemy per call, since the first snap zeroes its fall. */
  lemma {:induction false} AtMostOneSnap(e: EnemyBody, ps: seq<Platform>)
    ensures SnapCount(e, ps) <= 1
    ensures SnapCount(e, ps) == 0 ==> LandAll(e, ps) == e
    ensures SnapCount(e, ps) == 1 ==> LandAll(e, ps).vy == 0.0
    decreases |ps|
  {
    if ps != [] {
      AtMostOneSnap(e, ps[..|ps| - 1]);
    }
  }

  /** Platform `j` is the first in `ps` whose box overlaps `box`. */
  predicate IsFirstHit(box: Rect, ps: seq<Platform>, j: nat)
  {
    j < |ps| && Intersects(box, ps[j].Bounds()) &&
    forall k :: 0 <= k < j ==> !Intersects(box, ps[k].Bounds())
  }

  /**
   * LandAll in closed form: a falling enemy lands on the first platform it
   * overlaps at the start of the call; otherwise it is unchanged.
   */
  lemma {:induction false} LandAllIsFirstHit(e: EnemyBody, ps: seq<Platform>, j: nat)
    ensures e.vy > 0.0 && IsFirstHit(EnemyBounds(e), ps, j) ==>
              LandAll(e, ps) == e.(y := ps[j].y - HalfHeight, vy := 0.0)
    ensures (e.vy <= 0.0 || forall k :: 0 <= k < |ps| ==> !Intersects(EnemyBounds(e), ps[k].Bounds())) ==>
              LandAll(e, ps) == e
    decreases |ps|
  {
    if ps != [] {
      var n := |ps| - 1;
      var init := ps[..n];
      LandAllIsFirstHit(e, init, j);
      if e.vy > 0.0 && IsFirstHit(EnemyBounds(e), ps, j) && j < n {
        assert IsFirstHit(EnemyBounds(e), init, j);
      }
      if e.vy <= 0.0 || forall k :: 0 <= k < |ps| ==> !Intersects(EnemyBounds(e), ps[k].Bounds()) {
        assert forall k :: 0 <= k < n ==> init[k] == ps[k];
      }
      if e.vy > 0.0 && IsFirstHit(EnemyBounds(e), ps, j) && j == n {
        assert forall k :: 0 <= k < n ==> init[k] == ps[k];
      }
    }
  }

  /** An enemy. Its horizontal speed is a constant; only the direction sign changes. */
  class Enemy {
    var x: real
    var y: real
    const velocityX: real := PatrolSpeed
    var velocityY: real
    const gravity: real := Gravity
    var direction: Direction

    function State(): EnemyBody
      reads this`x, this`y, this`velocityY, this`direction
    {
      EnemyBody(x, y, velocityY, direction)
    }

    constructor (x: real, y: real)
      ensures State() == EnemyBody(x, y, 0.0, 1)
    {
      this.x := x;
      this.y := y;
      velocityY := 0.0;
      direction := 1;
    }

    method Update(delta: real)
      modifies this`x, this`y, this`velocityY, this`direction
      ensures State() == Patrol(old(State()), delta)
    {
      x := x + velocityX * (direction as real) * delta;
      velocityY := velocityY + gravity * delta;
      y := y + velocityY * delta;
      if x < TurnLeftOf || x > TurnRightOf {
        direction := direction * -1;
      }
    }

    /** Never changes x or the direction. */
    method CheckPlatformCollisions(platforms: seq<Platform>)
      modifies this`y, this`velocityY
      ensures State() == LandAll(old(State()), platforms)
    {
      ghost var start := State();
      var i := 0;
      while i < |platforms|
        invariant 0 <= i <= |platforms|
        invariant State() == LandAll(start, platforms[..i])
      {
        var enemyBounds := GetBounds();
        var platformBounds := platforms[i].Bounds();
        if Intersects(enemyBounds, platformBounds) {
          if velocityY > 0.0 {
            y := platformBounds.y - HalfHeight;
            velocityY := 0.0;
          }
        }
        assert platforms[..i + 1][..i] == platforms[..i];
        i := i + 1;
      }
      assert platforms[..i] == platforms;
    }

    function GetBounds(): (r: Rect)
      reads this`x, this`y, this`velocityY, this`direction
      ensures CentredOn(r, x, y, 2.0 * HalfWidth, 2.0 * HalfHeight)
      ensures r == EnemyBounds(State())
    {
      Rect(x - HalfWidth, y - HalfHeight, 2.0 * HalfWidth, 2.0 * HalfHeight)
    }
  }
}
