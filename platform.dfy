/**
 * Platforms: immovable rectangles. The colour and the optional texture only
 * choose how the platform is drawn; collisions read the rectangle alone.
 */
module Platforms {
  import opened Geometry

  datatype Option<T> = None | Some(value: T)

  /**
   * A platform as constructed. All fields are fixed at construction; a
   * datatype value cannot be changed, so every query sees the same rectangle.
   */
  datatype Platform = Platform(x: real, y: real, width: real, height: real,
                               color: int, textureUrl: Option<string>)
  {
    /** The collision rectangle: a fresh value on every call. */
    function Bounds(): Rect { Rect(x, y, width, height) }
  }

  /** The bounds are exactly the rectangle passed to the constructor. */
  lemma BoundsAreConstructorRect(x: real, y: real, w: real, h: real, color: int, url: Option<string>)
    ensures Platform(x, y, w, h, color, url).Bounds() == Rect(x, y, w, h)
  {
  }

  /** Colour and texture have no effect on collisions. */
  lemma BoundsIgnoreStyle(p: Platform, color: int, url: Option<string>)
    ensures p.(color := color, textureUrl := url).Bounds() == p.Bounds()
  {
  }
}
