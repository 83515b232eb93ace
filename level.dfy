/**
 * The fixed data of the level (game.js:8-54): the player's dimensions, the
 * platforms, the coin positions, the two enemies and the door, and what
 * collide reads of each of them.
 */
module Level {
  import opened Wrappers
  import opened Geometry

  /** player.width, player.height and player.speed; the game never reassigns them. */
  const PlayerWidth: int := 30
  const PlayerHeight: int := 40
  const PlayerSpeed: int := 7

  /** Where restartGame puts the player, and the force a jump or a landing resets to. */
  const StartX: int := 72
  const StartY: int := 656
  const FullForce: int := 8

  /** Vertical velocity while jumping and while falling. */
  const JumpVelocity: int := -8
  const FallVelocity: int := 10

  /** The platforms in declaration order; the landing loop visits them in this order. */
  const Platforms: seq<Box> := [
    Box(0, 736, 325, 30),
    Box(317, 656, 231, 30),
    Box(181, 581, 115, 30),
    Box(47, 501, 115, 30),
    Box(218, 397, 310, 30),
    Box(35, 300, 127, 30),
    Box(275, 142, 199, 30),
    Box(0, 67, 169, 30),
    Box(558, 581, 84, 30)
  ]

  /** The door has w and h but no size, so collide(player, door) never holds. */
  const Door: Box := Box(2, 12, 42, 58)

  /** The fixed list of coin positions createCoins maps over. */
  const CoinPositions: seq<(int, int)> := [
    (275, 98), (317, 98), (360, 98), (401, 98),
    (39, 262), (81, 262), (124, 262),
    (217, 361), (259, 361), (302, 361), (343, 361),
    (448, 361), (489, 361), (417, 361), (384, 361),
    (330, 623), (480, 623), (445, 623), (412, 623), (371, 623), (517, 623),
    (52, 470), (94, 470), (137, 470),
    (201, 550), (244, 550)
  ]

  const CoinSize: int := 25

  /** The score the door check compares with (score === 26). */
  const WinScore: int := 26

  datatype Coin = Coin(x: int, y: int, size: int, visible: bool)

  /** An enemy: position, w and h, and a signed horizontal speed. It has no size field. */
  datatype Enemy = Enemy(x: int, y: int, w: int, h: int, speed: int)

  const EnemyOneStart: Enemy := Enemy(471, 361, 30, 40, -3)
  const EnemyTwoStart: Enemy := Enemy(360, 623, 30, 40, 3)

  /** The patrol ranges written into the reflection tests: the spans of platforms 4 and 1. */
  const EnemyOneLo: int := 218
  const EnemyOneSpan: int := 310
  const EnemyTwoLo: int := 317
  const EnemyTwoSpan: int := 231

  /** The magnitude of both enemies' speed. */
  const PatrolSpeed: int := 3

  function CoinProbe(c: Coin): Probe {
    Probe(c.x, c.y, Some(c.size))
  }

  function EnemyProbe(e: Enemy): Probe {
    Probe(e.x, e.y, None)
  }

  function DoorProbe(): Probe {
    Probe(Door.x, Door.y, None)
  }

  /** The coins stand at the fixed positions, in order, with the fixed size. */
  ghost predicate CoinsInPlace(cs: seq<Coin>) {
    |cs| == |CoinPositions| &&
    forall i :: 0 <= i < |cs| ==>
      cs[i].x == CoinPositions[i].0 && cs[i].y == CoinPositions[i].1 && cs[i].size == CoinSize
  }

  /** There is one coin for every point of the winning score. */
  lemma CoinCountIsWinScore()
    ensures |CoinPositions| == WinScore
  {
  }

  /**
   * The enemies have no size field: a player box placed exactly on the first
   * enemy overlaps it by the w/h test and is still not hit.
   */
  lemma EnemyOverlapMissed()
    ensures var box := Rect(EnemyOneStart.x, EnemyOneStart.y, PlayerWidth, PlayerHeight);
      CollideIntended(box, Box(EnemyOneStart.x, EnemyOneStart.y, EnemyOneStart.w, EnemyOneStart.h)) &&
      !Collide(box, EnemyProbe(EnemyOneStart))
  {
  }

  /** The patrol ranges are the x-spans of the platforms the enemies stand on. */
  lemma PatrolRangesArePlatformSpans()
    ensures Platforms[4].x == EnemyOneLo && Platforms[4].w == EnemyOneSpan
    ensures Platforms[1].x == EnemyTwoLo && Platforms[1].w == EnemyTwoSpan
  {
  }
}
