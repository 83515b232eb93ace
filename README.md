# Ladder game: a Dafny model of the per-frame step

This project models the simulation core of a small browser platformer
(`game.js`). The player runs and jumps across fixed platforms, collects 26
coins, must avoid two patrolling enemies, and wins by reaching the door once
all coins are collected. Once per display refresh, `updateGame` applies
gravity or the jump and the horizontal input. It then runs the landing loop
over the platforms, the coin-pickup loop and the enemy patrol. Last come the
terminal checks, in a fixed order: enemy contact, falling off the bottom, then
reaching the door with 26 points.

The model keeps the source's imperative form:

- `Game.Player` is the global `player` object. Its methods `ApplyGravity`,
  `Steer`, `Move` and `LandOnPlatforms` are the four phases of `updateGame`
  that touch it, and each one is proved against a pure function of module
  `Physics`.
- `Game.Session` holds the script's other globals: `keys`, `score`,
  `isGameOver`, `coins`, `enemyOne` and `enemyTwo`. Its object invariant
  `Valid()` says four things. The coins stand at their fixed positions. The
  score plus the number of visible coins is 26. Both enemies keep their
  patrol invariant. Both enemies keep their fixed `y`, `w` and `h`.
- `UpdateGame(canvasHeight)` returns whether it would call
  `requestAnimationFrame` and which message (`Killed`, `Fell`, `Won`, with the
  score) it would draw, if any.
- `KeyDown` and `KeyUp` are the bodies of the two key handlers.
- The platforms, the door, the coin positions and the enemies' starting
  states are the constants of module `Level`.

`collide(a, b)` (game.js:146-153) reads `b.size` for both the width and the
height of `b`. Coins have a `size`. The enemies and the door only have `w` and
`h`, so for them `b.x + b.size` is `NaN`, and every comparison with `NaN` is
false. The model follows the code, not the usual box test that reads each
object's own `w` and `h`: `Geometry.Probe` carries an optional size, and `Collide` is
false when the size is missing. As a result the verifier proves two things:
the "killed" check and the "win" check can never fire, and a frame ends the
game only by a fall (`Game.TerminalAsShipped`, and the `ensures` of
`Game.Session.UpdateGame` that says any message is "fell"). The box test that reads `w` and `h` is kept only as
a separate variant, `Geometry.CollideIntended`, which the game does not use;
`Level.EnemyOverlapMissed` shows a player box that overlaps the first enemy
by that test and is still not hit.

Two further points worth noting: when both arrow keys are held the code
moves left (`vx = -7`) rather than standing still, and restart does not reset
the enemies.

## Model

| member | source | states |
|---|---|---|
| Geometry.Collide | game.js:146-153 | collide as evaluated: the four strict inequalities with `b.size` as both width and height; its contract states that only an object with a size can be hit |
| Geometry.CollideNeedsSize | game.js:146-153 | collide against an object without a `size` field (the enemies, the door) is always false |
| Geometry.CollideIffSharedPoint | game.js:146-153 | for boxes of positive size, collide holds exactly when the player's box and the size-by-size square at (b.x, b.y) share an integer point |
| Geometry.CollideIntendedOnSquares | game.js:146-153 | the separate w/h variant agrees with the shipped test on squares |
| Level.EnemyOverlapMissed | game.js:50-54 | a player box placed exactly on the first enemy overlaps it by its w/h and is still not hit by collide, since the enemy has no size |
| Level.CoinCountIsWinScore | game.js:37-45 | there are exactly as many coin positions as the winning score, 26 |
| Level.PatrolRangesArePlatformSpans | game.js:22-32 | the reflection ranges 218/310 and 317/231 are the x-spans of two of the platforms |
| Physics.Gravity | game.js:63-69 | only vy, force and jumping change; vy becomes -8 or 10; gravity can end a jump but never start one; force never grows |
| Physics.Steer | game.js:72-74 | only vx changes; it is -7, 0 or +7, and negative exactly when ArrowLeft is held |
| Physics.Advance | game.js:76-77 | x and y change by exactly vx and vy; velocities and flags are kept |
| Physics.LandOn | game.js:81-91 | one iteration either changes nothing or stands the player on p with vy 0, not jumping, force 8; x and vx are kept; a landing lifts the player by less than the platform's thickness or drops it by at most vy. It is stated in terms of `OnTopOf`, the landing test of game.js:82-85 as written |
| Physics.Landed | game.js:80-92 | after the loop the player is either untouched or stands on one of the platforms, stopped, not jumping, with force 8 |
| Physics.PlayerStep | game.js:62-92 | after the whole player part of a frame, x has moved by exactly vx, and vx is -7 / +7 / 0 by the ArrowLeft-first rule |
| Physics.MoveBeforeLanding | game.js:63-77 | jumping: vy = -8, force drops by 1, and the jump ends exactly when force < 0; otherwise vy = 10. vx is -7 with ArrowLeft held (even if ArrowRight is too), +7 with only ArrowRight held, 0 otherwise. x and y change by exactly vx and vy |
| Physics.LandedKeepsX | game.js:80-92 | the landing loop never changes x or vx |
| Physics.LandedNoMatch | game.js:80-92 | if no platform matches at its turn, the loop leaves the player untouched |
| Physics.LandedLastMatch | game.js:80-92 | if platform k matches at its turn and no later one does, the player ends the loop with y = p.y - height of platform k, vy = 0, not jumping, force 8, and x and vx unchanged |
| Physics.LandedStays | game.js:80-92 | once no remaining platform matches the current state, the rest of the loop leaves that state alone |
| Physics.RestingOnGround | game.js:62-92 | a player standing on the ground platform (y = 696, anywhere within its x-span) with no key held stays where it is, with vy = 0 |
| Pickup.Pick | game.js:96-99 | a coin keeps its position and size; it changes exactly when it was visible and collides with the player, and then only to hidden |
| Pickup.Hits | game.js:95-100 | the number of coins the loop collects never exceeds the number of visible coins |
| Pickup.Collect | game.js:95-100 | the coin loop keeps the number of coins |
| Pickup.CollectNeverReveals | game.js:95-100 | the coin loop never makes a coin visible, never changes a hidden coin, and changes nothing of a coin but its visibility |
| Pickup.HitsAreFlips | game.js:95-100 | the score the loop adds is exactly the number of coins flipped from visible to hidden |
| Pickup.FlipAccount | game.js:95-100 | when no coin becomes visible, visible coins after plus coins flipped equals visible coins before |
| Pickup.CollectKeepsTotal | game.js:95-100 | the coin loop keeps score + visible coins constant |
| Pickup.AllVisibleCount | game.js:46 | a table of all-visible coins has every coin visible in the count |
| Pickup.VisibleAtMost | game.js:95-100 | there are never more visible coins than coins |
| Pickup.HiddenCoinAddsNothing | game.js:96-99 | a hidden coin adds nothing to the score: taking it out of the table leaves the number collected unchanged |
| Pickup.ScoreBound | game.js:98 | with score + visible == 26 over 26 coins, 0 <= score <= 26; score is 26 exactly when no coin is left |
| Enemies.Patrol | game.js:103-111 | one patrol step keeps y, w and h and either keeps or negates the speed |
| Enemies.PatrolStep | game.js:103-111 | x moves by exactly speed, and speed is negated exactly when the new x leaves [lo, lo + span - w] |
| Enemies.PatrolKeepsRange | game.js:103-111 | the patrol invariant is preserved: speed is +-3, x lies within [lo - 3, lo + span - w + 3], and an enemy outside the range heads back into it |
| Enemies.EnemiesStartPatrolling | game.js:50-51 | both enemies start inside their patrol invariant |
| Game.Terminal | game.js:113-132 | the ordered terminal checks: any message carries the current score, a fall past canvas.height always ends the game, and "win" needs score 26 |
| Game.HeldFollowsKeyEvents | game.js:196-207 | through `Held`, the truthiness of `keys[k]` read at game.js:72-73 (a missing key reads as false): a key reads as held after its keydown, as released after its keyup, and another key's event leaves it alone |
| Game.TerminalAsShipped | game.js:113-132 | as shipped, the ordered terminal checks yield "fell" exactly when y > canvas.height and nothing otherwise |
| Game.Player.constructor | game.js:9-19 | the player starts at (72, 656), at rest, not jumping, with force 8 |
| Game.Player.ApplyGravity | game.js:63-69 | updates vy, force and jumping as the gravity/jump step |
| Game.Player.Steer | game.js:72-74 | sets vx from the arrow keys, with ArrowLeft taking priority |
| Game.Player.Move | game.js:76-77 | adds vx to x and vy to y |
| Game.Player.LandOnPlatforms | game.js:80-92 | the loop over the platforms in declaration order leaves the player as the landing fold does |
| Game.Session.constructor | game.js:4-54 | the session starts with no keys, score 0, not over, both enemies at their starting states and all coins visible; the invariant holds |
| Game.Session.CreateCoins | game.js:36-47 | one visible coin of size 25 at each fixed position, 26 visible in all |
| Game.Session.CollectCoins | game.js:94-100 | coins become the result of the pickup loop; score grows by exactly the number of coins flipped; score + visible == 26 is kept |
| Game.Session.MoveEnemies | game.js:102-111 | each enemy takes one patrol step within its own range; the patrol invariant is kept |
| Game.Session.UpdateGame | game.js:57-143 | when the game is over: nothing changes and no frame is requested. Otherwise the new player, coins, score and enemies are one step of each phase, the message is the first terminal check that fires, `isGameOver` is set exactly when one fires, and the next frame is requested exactly when none does. The message is only ever "fell"; the score never decreases and stays <= 26; the invariant is kept |
| Game.Session.RestartGame | game.js:210-219 | puts the player at (72, 656), not jumping, force 8; sets score 0 and not over; all coins visible at their positions; leaves the enemies, keys, vx and vy unchanged |
| Game.Session.KeyDown | game.js:196-203 | sets keys[key] = true; space starts a jump (force 8) only when not already jumping; Enter restarts, and requests a frame, exactly when the game is over; nothing else changes |
| Game.Session.KeyUp | game.js:205-207 | sets keys[key] = false |

## Left out

- Canvas drawing (`drawPlayer`, `drawPlatforms`, `drawCoins`, `drawEnemies`, `drawDoor`, `drawScore`, `drawText`, `ctx.clearRect`): host rendering. The step reports only which message it would draw.
- Message text and fonts: presentation only. `Message` keeps the kind and the score.
- `requestAnimationFrame` and the DOM event registration (game.js:1-2, 142, 196, 205, 218, 223): host plumbing. `UpdateGame` and `KeyDown` return a "frame requested" boolean instead, and the handlers are explicit methods.
- `canvas.height` is read from the DOM; here it is the `canvasHeight` parameter of `UpdateGame`.
- JavaScript numbers are doubles. Every quantity here is a small integer, so the model uses unbounded `int`, and exact integer arithmetic agrees with the doubles. The `NaN` of a missing `size` is modelled by `Option`.
- The mismatch between `size` and `w`/`h` is not fixed, and neither is the restart that keeps the enemies where they are: the model reproduces the code as written.
- Scheduling order between the host's key events and frames is not modelled: each handler and each frame is one atomic method call, as in the single-threaded host.
