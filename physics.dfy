/**
 * The player's motion in one frame of updateGame (game.js:62-92): gravity and
 * jump, horizontal input, the position update, and the landing loop over the
 * platforms.
 */
module Physics {
  import opened Geometry
  import opened Level

  /** The player fields updateGame changes. */
  datatype Motion = Motion(x: int, y: int, vx: int, vy: int, jumping: bool, force: int)

  /** The player's box as collide sees it. */
  function BoxOf(m: Motion): Rect {
    Rect(m.x, m.y, PlayerWidth, PlayerHeight)
  }

  /**
   * Gravity and jumping (game.js:63-69): only vy, force and jumping change,
   * and gravity can end a jump but never start one.
   */
  function Gravity(m: Motion): (r: Motion)
    ensures r.x == m.x && r.y == m.y && r.vx == m.vx
    ensures r.vy == JumpVelocity || r.vy == FallVelocity
    ensures r.jumping ==> m.jumping
    ensures r.force <= m.force
  {
    if m.jumping then
      var f := m.force - 1;
      m.(vy := JumpVelocity, force := f, jumping := !(f < 0))
    else
      m.(vy := FallVelocity)
  }

  /** Horizontal input (game.js:72-74): ArrowLeft wins over ArrowRight; only vx changes. */
  function Steer(m: Motion, left: bool, right: bool): (r: Motion)
    ensures r == m.(vx := r.vx)
    ensures r.vx == -PlayerSpeed || r.vx == 0 || r.vx == PlayerSpeed
    ensures r.vx < 0 <==> left
  {
    if left then m.(vx := -PlayerSpeed)
    else if right then m.(vx := PlayerSpeed)
    else m.(vx := 0)
  }

  /** The position update (game.js:76-77): velocity and flags are kept. */
  function Advance(m: Motion): (r: Motion)
    ensures r.vx == m.vx && r.vy == m.vy && r.jumping == m.jumping && r.force == m.force
    ensures r.x - m.x == r.vx && r.y - m.y == r.vy
  {
    m.(x := m.x + m.vx, y := m.y + m.vy)
  }

  /** The landing test for one platform (game.js:81-86), on the state left by the earlier platforms. */
  predicate OnTopOf(m: Motion, p: Box) {
    m.x < p.x + p.w &&
    m.x + PlayerWidth > p.x &&
    m.y + PlayerHeight < p.y + p.h &&
    m.y + PlayerHeight + m.vy >= p.y
  }

  /**
   * One iteration of the landing loop (game.js:81-91): either nothing changes,
   * or the player stands on p, stopped, not jumping, with full force. A
   * landing lifts the player by less than the platform's thickness or drops
   * it by at most vy.
   */
  function LandOn(m: Motion, p: Box): (r: Motion)
    ensures r.x == m.x && r.vx == m.vx
    ensures OnTopOf(m, p) ==> m.y - p.h < r.y <= m.y + m.vy
    ensures r == m || r == Motion(m.x, p.y - PlayerHeight, m.vx, 0, false, FullForce)
  {
    if OnTopOf(m, p) then
      m.(y := p.y - PlayerHeight, vy := 0, jumping := false, force := FullForce)
    else
      m
  }

  /**
   * The landing loop over ps, in order (game.js:80-92): the player either
   * leaves it untouched or stands on one of the platforms, stopped, not
   * jumping, with full force.
   */
  function Landed(m: Motion, ps: seq<Box>): (r: Motion)
    ensures r == m || exists k :: 0 <= k < |ps| && r.y == ps[k].y - PlayerHeight
    ensures r == m || (r.vy == 0 && !r.jumping && r.force == FullForce)
    decreases |ps|
  {
    if ps == [] then m else LandOn(Landed(m, ps[..|ps| - 1]), ps[|ps| - 1])
  }

  /**
   * The player part of one frame: gravity, input, position update, landing.
   * Landing never undoes the horizontal move.
   */
  function PlayerStep(m: Motion, left: bool, right: bool): (r: Motion)
    ensures r.x == m.x + r.vx
    ensures r.vx == (if left then -PlayerSpeed else if right then PlayerSpeed else 0)
  {
    var moved := Advance(Steer(Gravity(m), left, right));
    LandedKeepsX(moved, Platforms);
    Landed(moved, Platforms)
  }

  /** What gravity, input and the position update do before the landing loop. */
  lemma MoveBeforeLanding(m: Motion, left: bool, right: bool)
    ensures var r := Advance(Steer(Gravity(m), left, right));
      (m.jumping ==> r.vy == -8 && r.force == m.force - 1 && (r.jumping <==> r.force >= 0)) &&
      (!m.jumping ==> r.vy == 10 && r.force == m.force && !r.jumping) &&
      (left ==> r.vx == -7) &&
      (!left && right ==> r.vx == 7) &&
      (!left && !right ==> r.vx == 0) &&
      r.x == m.x + r.vx && r.y == m.y + r.vy
  {
  }

  /** The landing loop never moves the player horizontally and never touches vx. */
  lemma {:induction false} LandedKeepsX(m: Motion, ps: seq<Box>)
    ensures Landed(m, ps).x == m.x && Landed(m, ps).vx == m.vx
    decreases |ps|
  {
    if ps != [] {
      LandedKeepsX(m, ps[..|ps| - 1]);
    }
  }

  /** If no platform matches at its turn, the loop leaves y, vy, jumping and force untouched. */
  lemma {:induction false} LandedNoMatch(m: Motion, ps: seq<Box>)
    requires forall j :: 0 <= j < |ps| ==> !OnTopOf(Landed(m, ps[..j]), ps[j])
    ensures Landed(m, ps) == m
    decreases |ps|
  {
    if ps != [] {
      var n := |ps| - 1;
      var front := ps[..n];
      assert forall j :: 0 <= j <= n ==> front[..j] == ps[..j];
      LandedNoMatch(m, front);
      assert ps[..n] == front;
    }
  }

  /**
   * If platform k matches at its turn and no later platform does, the player
   * ends the loop snapped onto platform k: y = p.y - height, vy = 0, not
   * jumping, force reset, x and vx as before the loop.
   */
  lemma {:induction false} LandedLastMatch(m: Motion, ps: seq<Box>, k: nat)
    requires k < |ps|
    requires OnTopOf(Landed(m, ps[..k]), ps[k])
    requires forall j :: k < j < |ps| ==> !OnTopOf(Landed(m, ps[..j]), ps[j])
    ensures Landed(m, ps) == Motion(m.x, ps[k].y - PlayerHeight, m.vx, 0, false, FullForce)
    decreases |ps|
  {
    var n := |ps| - 1;
    var front := ps[..n];
    if n == k {
      LandedKeepsX(m, front);
    } else {
      assert forall j :: 0 <= j <= n ==> front[..j] == ps[..j];
      LandedLastMatch(m, front, k);
    }
  }

  /** Once the loop has reached state s after k platforms, platforms that do not match s leave it there. */
  lemma {:induction false} LandedStays(m: Motion, ps: seq<Box>, k: nat, s: Motion)
    requires k <= |ps|
    requires Landed(m, ps[..k]) == s
    requires forall j :: k <= j < |ps| ==> !OnTopOf(s, ps[j])
    ensures Landed(m, ps) == s
    decreases |ps|
  {
    if |ps| > k {
      var n := |ps| - 1;
      var front := ps[..n];
      assert front[..k] == ps[..k];
      LandedStays(m, front, k, s);
    } else {
      assert ps[..k] == ps;
    }
  }

  /**
   * A player standing anywhere on the ground platform (y = 696, x within its
   * span) with no key held, the player stays put.
   */
  lemma RestingOnGround(x: int)
    requires -PlayerWidth < x < Platforms[0].x + Platforms[0].w
    ensures PlayerStep(Motion(x, 696, 0, 0, false, FullForce), false, false)
         == Motion(x, 696, 0, 0, false, FullForce)
  {
    var m := Motion(x, 706, 0, 10, false, FullForce);
    var landed := Motion(x, 696, 0, 0, false, FullForce);
    assert Advance(Steer(Gravity(Motion(x, 696, 0, 0, false, FullForce)), false, false)) == m;
    assert Platforms[..1][..0] == [];
    assert Landed(m, Platforms[..1]) == landed;
    LandedStays(m, Platforms, 1, landed);
  }
}
