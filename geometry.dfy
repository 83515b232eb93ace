/**
 * The overlap test of the game (collide, game.js:146-153) and the shapes it reads.
 *
 * The first argument of collide is always the player, an object with x, y,
 * width and height. Of the second argument collide reads x, y and size, using
 * size for both the width and the height. Coins have a size; enemies and the
 * door only have w and h, so for them b.size is undefined, b.x + b.size is NaN
 * and every comparison with it is false.
 */
module Geometry {
  import opened Wrappers

  /** An object with x, y, width and height (the player). */
  datatype Rect = Rect(x: int, y: int, width: int, height: int)

  /** An object with x, y, w and h (platforms, the door, the enemies). */
  datatype Box = Box(x: int, y: int, w: int, h: int)

  /** What collide reads of its second argument: size is None when the object has no size field. */
  datatype Probe = Probe(x: int, y: int, size: Option<int>)

  /** collide(a, b) as the game evaluates it: only an object with a size can be hit. */
  function Collide(a: Rect, b: Probe): (r: bool)
    ensures r ==> b.size.Some?
  {
    match b.size
    case None => false
    case Some(s) => a.x < b.x + s && a.x + a.width > b.x && a.y < b.y + s && a.y + a.height > b.y
  }

  /** The integer point (px, py) lies in the half-open box [x, x + width) x [y, y + height). */
  ghost predicate Covers(a: Rect, px: int, py: int) {
    a.x <= px < a.x + a.width && a.y <= py < a.y + a.height
  }

  /** The square collide compares the player against, when b has a size. */
  function Square(b: Probe): Rect
    requires b.size.Some?
  {
    Rect(b.x, b.y, b.size.value, b.size.value)
  }

  /** An object without a size field never collides with anything. */
  lemma CollideNeedsSize(a: Rect, b: Probe)
    requires b.size.None?
    ensures !Collide(a, b)
  {
  }

  /**
   * For boxes of positive extent, collide holds exactly when the player's box
   * and the size-by-size square at (b.x, b.y) share an integer point.
   */
  lemma CollideIffSharedPoint(a: Rect, b: Probe)
    requires a.width > 0 && a.height > 0
    requires b.size.Some? && b.size.value > 0
    ensures Collide(a, b) <==> exists px, py :: Covers(a, px, py) && Covers(Square(b), px, py)
  {
    if Collide(a, b) {
      var px := if a.x < b.x then b.x else a.x;
      var py := if a.y < b.y then b.y else a.y;
      assert Covers(a, px, py) && Covers(Square(b), px, py);
    }
  }

  /**
   * A separate variant, not used by the game: the box test one would expect,
   * reading the second object's own w and h.
   */
  predicate CollideIntended(a: Rect, b: Box) {
    a.x < b.x + b.w && a.x + a.width > b.x && a.y < b.y + b.h && a.y + a.height > b.y
  }

  /** On a square, the intended test and the shipped test agree. */
  lemma CollideIntendedOnSquares(a: Rect, b: Box)
    requires b.w == b.h
    ensures CollideIntended(a, b) == Collide(a, Probe(b.x, b.y, Some(b.w)))
  {
  }

}
