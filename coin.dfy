/**
 * Coins: a fixed position and an `active` flag that starts true and is
 * cleared, once and for good, when the coin is collected.
 */
module Coins {
  import opened Geometry

  const CoinSize: real := 20.0

  /** The collision box of a coin at `(x, y)`: a 20 by 20 square centred there. */
  function CoinBounds(x: real, y: real): (r: Rect)
    ensures CentredOn(r, x, y, CoinSize, CoinSize)
  {
    Rect(x - 10.0, y - 10.0, 20.0, 20.0)
  }

  /** The part of a coin the simulation reads and writes, as a value. */
  datatype CoinState = CoinState(x: real, y: real, active: bool)
  {
    function Bounds(): Rect { CoinBounds(x, y) }
  }

  class Coin {
    const x: real
    const y: real
    var active: bool
    /** Visual spin angle; the collision box never reads it. */
    var rotation: real

    function State(): CoinState
      reads this`active
    {
      CoinState(x, y, active)
    }

    /** A new coin is active and has already run the first frame of its spin. */
    constructor (x: real, y: real)
      ensures this.x == x && this.y == y
      ensures active && rotation == 0.05
    {
      this.x := x;
      this.y := y;
      active := true;
      rotation := 0.0;
      new;
      Spin();
    }

    /**
     * Collecting clears `active` and nothing else the simulation reads;
     * collecting an already collected coin leaves it collected.
     */
    method Collect()
      modifies this`active
      ensures !active
    {
      active := false;
    }

    /**
     * One frame of the spin animation: an active coin turns by 0.05, an
     * inactive one stays still. Position, `active` and bounds are untouched.
     */
    method Spin()
      modifies this`rotation
      ensures rotation == if active then old(rotation) + 0.05 else old(rotation)
    {
      if active {
        rotation := rotation + 0.05;
      }
    }

    /** The collision box, independent of `rotation` and `active`. */
    function Bounds(): (r: Rect)
      ensures CentredOn(r, x, y, CoinSize, CoinSize)
    {
      CoinBounds(x, y)
    }
  }
}
