/**
 * The player: input-driven horizontal speed, gravity, a horizontal clamp to
 * the level, and the minimum-penetration resolver that pushes the player out
 * of platforms.
 */
module Players {
  import opened Geometry
  import opened Platforms

  const Speed: real := 5.0
  const JumpPower: real := 15.0
  const Gravity: real := 0.8
  const HalfWidth: real := 12.0
  const HalfHeight: real := 27.0
  const MinX: real := 15.0
  const MaxX: real := 785.0

  /** Key names as the browser reports them. */
  predicate LeftHeld(held: set<string>) { "ArrowLeft" in held || "a" in held }
  predicate RightHeld(held: set<string>) { "ArrowRight" in held || "d" in held }
  predicate IsJumpKey(key: string) { key == " " || key == "ArrowUp" || key == "w" }

  /** The kinematic state of the player. */
  datatype Body = Body(x: real, y: real, vx: real, vy: real, onGround: bool)

  /** The player's collision box: 24 by 54, centred on its position. */
  function BodyBounds(b: Body): (r: Rect)
    ensures CentredOn(r, b.x, b.y, 2.0 * HalfWidth, 2.0 * HalfHeight)
  {
    Rect(b.x - 12.0, b.y - 27.0, 24.0, 54.0)
  }

  /**
   * The horizontal velocity chosen by the held keys. It is set afresh, never
   * accumulated; left wins when both directions are held.
   */
  function InputVelocity(held: set<string>): (v: real)
    ensures v == -Speed <==> LeftHeld(held)
    ensures v == Speed <==> !LeftHeld(held) && RightHeld(held)
    ensures v == 0.0 <==> !LeftHeld(held) && !RightHeld(held)
  {
    if LeftHeld(held) then -Speed
    else if RightHeld(held) then Speed
    else 0.0
  }

  /** Keeps x inside [15, 785]; values already inside are unchanged. */
  function ClampX(x: real): (r: real)
    ensures MinX <= r <= MaxX
    ensures MinX <= x <= MaxX ==> r == x
    ensures x < MinX ==> r == MinX
    ensures x > MaxX ==> r == MaxX
  {
    var lo := if x < MinX then MinX else x;
    if lo > MaxX then MaxX else lo
  }

  /**
   * One frame of movement: velocity from input, gravity integrated into the
   * vertical velocity, position moved by velocity times delta, then x clamped.
   */
  function Advance(b: Body, held: set<string>, delta: real): (r: Body)
    ensures r.vx == InputVelocity(held)
    ensures r.vy == b.vy + Gravity * delta
    ensures r.y == b.y + r.vy * delta
    ensures r.x == ClampX(b.x + r.vx * delta)
    ensures MinX <= r.x <= MaxX
    ensures r.onGround == b.onGround
  {
    var vx := InputVelocity(held);
    var vy := b.vy + Gravity * delta;
    Body(ClampX(b.x + vx * delta), b.y + vy * delta, vx, vy, b.onGround)
  }

  /** Nothing carries over between frames in the horizontal velocity. */
  lemma HorizontalVelocityIsNotIntegrated(b1: Body, b2: Body, held: set<string>, d1: real, d2: real)
    ensures Advance(b1, held, d1).vx == Advance(b2, held, d2).vx
  {
  }

  /** A key press: a jump key starts a jump only while standing on a platform. */
  function KeyDown(b: Body, key: string): (r: Body)
    ensures r.x == b.x && r.y == b.y && r.vx == b.vx
    ensures r != b <==> IsJumpKey(key) && b.onGround
    ensures r != b ==> r.vy == -JumpPower && !r.onGround
  {
    if IsJumpKey(key) && b.onGround then b.(vy := -JumpPower, onGround := false) else b
  }

  /** There is no double jump: a second jump key press before landing changes nothing. */
  lemma NoJumpInTheAir(b: Body, k1: string, k2: string)
    requires KeyDown(b, k1) != b
    ensures KeyDown(KeyDown(b, k1), k2) == KeyDown(b, k1)
  {
  }

  /** Back to a spawn point, at rest; the grounded flag is left as it was. */
  function Respawn(b: Body, x: real, y: real): (r: Body)
    ensures r.x == x && r.y == y && r.vx == 0.0 && r.vy == 0.0 && r.onGround == b.onGround
  {
    b.(x := x, y := y, vx := 0.0, vy := 0.0)
  }

  // ---------------------------------------------------------------------
  // Platform resolution
  // ---------------------------------------------------------------------

  /** Which side of a platform the resolver pushes the player out of. */
  datatype Side = Top | Bottom | LeftSide | RightSide | NoSide

  /** The position of a side in the order the resolver tries them. */
  function Rank(s: Side): nat
  {
    match s
    case Top => 0
    case Bottom => 1
    case LeftSide => 2
    case RightSide => 3
    case NoSide => 4
  }

  /** Whether the condition guarding side `s` holds for body `b` against box `p`. */
  predicate Fires(s: Side, b: Body, p: Rect)
  {
    var o := Penetration(BodyBounds(b), p);
    var m := MinOf(o);
    Intersects(BodyBounds(b), p) &&
    match s
    case Top => m == o.top && b.vy > 0.0
    case Bottom => m == o.bottom && b.vy < 0.0
    case LeftSide => m == o.left
    case RightSide => m == o.right
    case NoSide => false
  }

  /**
   * The branch the resolver takes: the earliest side, in the order top,
   * bottom, left, right, whose condition holds; none when no condition holds.
   */
  function Branch(b: Body, p: Rect): (s: Side)
    ensures s != NoSide ==> Fires(s, b, p)
    ensures forall t :: Fires(t, b, p) ==> Rank(s) <= Rank(t)
  {
    if !Intersects(BodyBounds(b), p) then NoSide
    else
      var o := Penetration(BodyBounds(b), p);
      var m := MinOf(o);
      if m == o.top && b.vy > 0.0 then Top
      else if m == o.bottom && b.vy < 0.0 then Bottom
      else if m == o.left then LeftSide
      else if m == o.right then RightSide
      else NoSide
  }

  /**
   * Resolution against one platform: the player is snapped flush against the
   * side chosen by Branch; landing zeroes the vertical speed and sets the
   * grounded flag, hitting from below zeroes the vertical speed, side hits
   * zero the horizontal speed.
   */
  function ResolvePlatform(b: Body, p: Rect): (r: Body)
    ensures Branch(b, p) == Top ==>
              BodyBounds(r).Bottom() == p.y && r.vy == 0.0 && r.onGround && r.x == b.x && r.vx == b.vx
    ensures Branch(b, p) == Bottom ==>
              BodyBounds(r).y == p.Bottom() && r.vy == 0.0 && r.onGround == b.onGround && r.x == b.x && r.vx == b.vx
    ensures Branch(b, p) == LeftSide ==>
              BodyBounds(r).Right() == p.x && r.vx == 0.0 && r.y == b.y && r.vy == b.vy && r.onGround == b.onGround
    ensures Branch(b, p) == RightSide ==>
              BodyBounds(r).x == p.Right() && r.vx == 0.0 && r.y == b.y && r.vy == b.vy && r.onGround == b.onGround
    ensures Branch(b, p) == NoSide ==> r == b
    ensures Branch(b, p) != NoSide ==> !Intersects(BodyBounds(r), p)
    ensures r.onGround <==> b.onGround || Branch(b, p) == Top
  {
    match Branch(b, p)
    case Top => b.(y := p.y - HalfHeight, vy := 0.0, onGround := true)
    case Bottom => b.(y := p.y + p.height + HalfHeight, vy := 0.0)
    case LeftSide => b.(x := p.x - HalfWidth, vx := 0.0)
    case RightSide => b.(x := p.x + p.width + HalfWidth, vx := 0.0)
    case NoSide => b
  }

  /** The resolver moves the player by exactly the smallest penetration depth, along the chosen axis. */
  lemma ResolveMovesByMinimumPenetration(b: Body, p: Rect)
    ensures var m := MinOf(Penetration(BodyBounds(b), p));
            var r := ResolvePlatform(b, p);
            match Branch(b, p)
            case Top => r.y == b.y - m
            case Bottom => r.y == b.y + m
            case LeftSide => r.x == b.x - m
            case RightSide => r.x == b.x + m
            case NoSide => r == b
  {
  }

  /**
   * One case where an overlap is left alone: the player at rest at (100, 524)
   * sinks 1 unit into the ground, its strictly smallest depth is from above,
   * and since it is not falling no branch fires. (When the top depth ties a
   * side depth, the side branch fires instead.)
   */
  lemma OverlapWithoutFallingIsIgnored()
    ensures var b := Body(100.0, 524.0, 0.0, 0.0, false);
            var ground := Rect(0.0, 550.0, 800.0, 50.0);
            Intersects(BodyBounds(b), ground) && Branch(b, ground) == NoSide && ResolvePlatform(b, ground) == b
  {
  }

  /** Resolution against each platform in turn, in list order. */
  function ResolveAll(b: Body, ps: seq<Platform>): (r: Body)
    ensures b.onGround ==> r.onGround
    decreases |ps|
  {
    if ps == [] then b
    else ResolvePlatform(ResolveAll(b, ps[..|ps| - 1]), ps[|ps| - 1].Bounds())
  }

  /** checkPlatformCollisions: clear the grounded flag, then resolve against every platform. */
  function CheckPlatforms(b: Body, ps: seq<Platform>): Body
  {
    ResolveAll(b.(onGround := false), ps)
  }

  /** The landing branch fired for platform `j` during CheckPlatforms(b, ps). */
  predicate LandedOn(b: Body, ps: seq<Platform>, j: nat)
    requires j < |ps|
  {
    Branch(ResolveAll(b.(onGround := false), ps[..j]), ps[j].Bounds()) == Top
  }

  /**
   * After platform resolution the player is grounded exactly when the landing
   * branch fired for some platform in this call: the flag never survives from
   * an earlier frame.
   */
  lemma {:induction false} GroundedIffLanded(b: Body, ps: seq<Platform>)
    ensures CheckPlatforms(b, ps).onGround <==> exists j :: 0 <= j < |ps| && LandedOn(b, ps, j)
    decreases |ps|
  {
    if ps != [] {
      var n := |ps| - 1;
      var init := ps[..n];
      GroundedIffLanded(b, init);
      forall j | 0 <= j < n
        ensures LandedOn(b, ps, j) == LandedOn(b, init, j)
      {
        assert init[..j] == ps[..j];
      }
      var mid := ResolveAll(b.(onGround := false), init);
      assert ps[..n] == init;
      assert LandedOn(b, ps, n) <==> Branch(mid, ps[n].Bounds()) == Top;
      assert CheckPlatforms(b, ps).onGround <==> mid.onGround || Branch(mid, ps[n].Bounds()) == Top;
      if CheckPlatforms(b, ps).onGround && !LandedOn(b, ps, n) {
        var j :| 0 <= j < n && LandedOn(b, init, j);
        assert LandedOn(b, ps, j);
      }
    }
  }

  /** The player. `held` stands for the key table the window listeners maintain. */
  class Player {
    var x: real
    var y: real
    var velocityX: real
    var velocityY: real
    var isOnGround: bool
    var held: set<string>

    function State(): Body
      reads this`x, this`y, this`velocityX, this`velocityY, this`isOnGround
    {
      Body(x, y, velocityX, velocityY, isOnGround)
    }

    constructor (x: real, y: real)
      ensures State() == Body(x, y, 0.0, 0.0, false) && held == {}
    {
      this.x := x;
      this.y := y;
      velocityX := 0.0;
      velocityY := 0.0;
      isOnGround := false;
      held := {};
    }

    /** The keydown listener: record the key, and jump if it is a jump key and the player is grounded. */
    method OnKeyDown(key: string)
      modifies this`held, this`velocityY, this`isOnGround
      ensures held == old(held) + {key}
      ensures State() == KeyDown(old(State()), key)
    {
      held := held + {key};
      if IsJumpKey(key) && isOnGround {
        velocityY := -JumpPower;
        isOnGround := false;
      }
    }

    /** The keyup listener. */
    method OnKeyUp(key: string)
      modifies this`held
      ensures held == old(held) - {key}
    {
      held := held - {key};
    }

    method Update(delta: real)
      modifies this`x, this`y, this`velocityX, this`velocityY
      ensures State() == Advance(old(State()), held, delta)
    {
      if LeftHeld(held) {
        velocityX := -Speed;
      } else if RightHeld(held) {
        velocityX := Speed;
      } else {
        velocityX := 0.0;
      }
      velocityY := velocityY + Gravity * delta;
      x := x + velocityX * delta;
      y := y + velocityY * delta;
      if x < MinX { x := MinX; }
      if x > MaxX { x := MaxX; }
    }

    method CheckPlatformCollisions(platforms: seq<Platform>)
      modifies this`x, this`y, this`velocityX, this`velocityY, this`isOnGround
      ensures State() == CheckPlatforms(old(State()), platforms)
    {
      isOnGround := false;
      ghost var start := State();
      var i := 0;
      while i < |platforms|
        invariant 0 <= i <= |platforms|
        invariant State() == ResolveAll(start, platforms[..i])
      {
        ResolveAgainst(platforms[i].Bounds());
        assert platforms[..i + 1][..i] == platforms[..i];
        i := i + 1;
      }
      assert platforms[..i] == platforms;
    }

    /** One turn of the platform loop: push the player out of one platform box. */
    method ResolveAgainst(platformBounds: Rect)
      modifies this`x, this`y, this`velocityX, this`velocityY, this`isOnGround
      ensures State() == ResolvePlatform(old(State()), platformBounds)
    {
      var playerBounds := GetBounds();
      ghost var side := Branch(State(), platformBounds);
      if Intersects(playerBounds, platformBounds) {
        var overlapLeft := playerBounds.x + playerBounds.width - platformBounds.x;
        var overlapRight := platformBounds.x + platformBounds.width - playerBounds.x;
        var overlapTop := playerBounds.y + playerBounds.height - platformBounds.y;
        var overlapBottom := platformBounds.y + platformBounds.height - playerBounds.y;
        var minOverlap := Min(Min(Min(overlapLeft, overlapRight), overlapTop), overlapBottom);
        if minOverlap == overlapTop && velocityY > 0.0 {
          assert side == Top;
          y := platformBounds.y - HalfHeight;
          velocityY := 0.0;
          isOnGround := true;
        } else if minOverlap == overlapBottom && velocityY < 0.0 {
          assert side == Bottom;
          y := platformBounds.y + platformBounds.height + HalfHeight;
          velocityY := 0.0;
        } else if minOverlap == overlapLeft {
          assert side == LeftSide;
          x := platformBounds.x - HalfWidth;
          velocityX := 0.0;
        } else if minOverlap == overlapRight {
          assert side == RightSide;
          x := platformBounds.x + platformBounds.width + HalfWidth;
          velocityX := 0.0;
        } else {
          assert side == NoSide;
        }
      } else {
        assert side == NoSide;
      }
    }

    function GetBounds(): (r: Rect)
      reads this`x, this`y, this`velocityX, this`velocityY, this`isOnGround
      ensures CentredOn(r, x, y, 2.0 * HalfWidth, 2.0 * HalfHeight)
      ensures r == BodyBounds(State())
    {
      Rect(x - HalfWidth, y - HalfHeight, 2.0 * HalfWidth, 2.0 * HalfHeight)
    }

    /** Back to `(x, y)` at rest; neither the grounded flag nor the held keys change. */
    method Reset(x: real, y: real)
      modifies this`x, this`y, this`velocityX, this`velocityY
      ensures State() == Respawn(old(State()), x, y)
    {
      this.x := x;
      this.y := y;
      velocityX := 0.0;
      velocityY := 0.0;
    }
  }
}
