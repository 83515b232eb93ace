/**
 * The session state of the game and its per-frame step (game.js:1-223):
 * updateGame, the key handlers, restartGame and createCoins.
 *
 * Drawing, the canvas, requestAnimationFrame and event registration are host
 * plumbing: the step returns whether it would request the next frame and which
 * message it would draw, and canvas.height is a parameter.
 */
module Game {
  import opened Wrappers
  import opened Geometry
  import opened Level
  import opened Physics
  import opened Pickup
  import opened Enemies

  /** The messages drawText shows when the game ends, with the score at that moment. */
  datatype Message = Killed(score: int) | Fell(score: int) | Won(score: int)

  /** The terminal checks of updateGame, in their fixed order (game.js:113-132). */
  function Terminal(a: Rect, e1: Enemy, e2: Enemy, canvasHeight: int, score: int): (r: Option<Message>)
    ensures r.Some? ==> r.value.score == score
    ensures a.y > canvasHeight ==> r.Some?
    ensures r.Some? && r.value.Won? ==> score == WinScore
  {
    if Collide(a, EnemyProbe(e1)) || Collide(a, EnemyProbe(e2)) then Some(Killed(score))
    else if a.y > canvasHeight then Some(Fell(score))
    else if score == WinScore && Collide(a, DoorProbe()) then Some(Won(score))
    else None
  }

  /**
   * As shipped, the enemy and door checks never fire, because enemies and the
   * door have no size field: the only way a frame ends the game is a fall.
   */
  lemma TerminalAsShipped(a: Rect, e1: Enemy, e2: Enemy, canvasHeight: int, score: int)
    ensures Terminal(a, e1, e2, canvasHeight, score) ==
      if a.y > canvasHeight then Some(Fell(score)) else None
  {
    CollideNeedsSize(a, EnemyProbe(e1));
    CollideNeedsSize(a, EnemyProbe(e2));
    CollideNeedsSize(a, DoorProbe());
  }

  /** keys[k] is truthy: pressed and not yet released. A key never pressed reads as undefined, which is falsy. */
  predicate Held(keys: map<string, bool>, k: string) {
    k in keys && keys[k]
  }

  /**
   * A key reads as held after its keydown and as released after its keyup,
   * and another key's event leaves it as it was.
   */
  lemma HeldFollowsKeyEvents(keys: map<string, bool>, k: string, j: string, b: bool)
    ensures Held(keys[k := true], k) && !Held(keys[k := false], k)
    ensures j != k ==> Held(keys[j := b], k) == Held(keys, k)
  {
  }

  /** The global player object. */
  class Player {
    var x: int
    var y: int
    var vx: int
    var vy: int
    var jumping: bool
    var force: int

    function Kinematics(): Motion
      reads this
    {
      Motion(x, y, vx, vy, jumping, force)
    }

    constructor ()
      ensures Kinematics() == Motion(StartX, StartY, 0, 0, false, FullForce)
    {
      x, y, vx, vy, jumping, force := StartX, StartY, 0, 0, false, FullForce;
    }

    /** game.js:63-69 */
    method ApplyGravity()
      modifies this`vy, this`force, this`jumping
      ensures Kinematics() == Gravity(old(Kinematics()))
    {
      if jumping {
        vy := JumpVelocity;
        force := force - 1;
        if force < 0 {
          jumping := false;
        }
      } else {
        vy := FallVelocity;
      }
    }

    /** game.js:72-74 */
    method Steer(left: bool, right: bool)
      modifies this`vx
      ensures Kinematics() == Physics.Steer(old(Kinematics()), left, right)
    {
      if left {
        vx := -PlayerSpeed;
      } else if right {
        vx := PlayerSpeed;
      } else {
        vx := 0;
      }
    }

    /** game.js:76-77 */
    method Move()
      modifies this`x, this`y
      ensures Kinematics() == Advance(old(Kinematics()))
    {
      x := x + vx;
      y := y + vy;
    }

    /** The landing loop (game.js:80-92): each platform's test sees what earlier platforms did. */
    method LandOnPlatforms()
      modifies this`y, this`vy, this`jumping, this`force
      ensures Kinematics() == Landed(old(Kinematics()), Platforms)
    {
      var i := 0;
      while i < |Platforms|
        invariant 0 <= i <= |Platforms|
        invariant Kinematics() == Landed(old(Kinematics()), Platforms[..i])
      {
        var p := Platforms[i];
        if x < p.x + p.w && x + PlayerWidth > p.x && y + PlayerHeight < p.y + p.h && y + PlayerHeight + vy >= p.y {
          y := p.y - PlayerHeight;
          vy := 0;
          jumping := false;
          force := FullForce;
        }
        assert Platforms[..i + 1][..i] == Platforms[..i];
        i := i + 1;
      }
      assert Platforms[..i] == Platforms;
    }
  }

  /** The script's global session state. Platforms and the door are the constants of Level. */
  class Session {
    const player: Player
    var keys: map<string, bool>
    var score: int
    var isGameOver: bool
    var coins: seq<Coin>
    var enemyOne: Enemy
    var enemyTwo: Enemy

    /**
     * The session invariant: the coins stand at their fixed positions,
     * score + visible coins == 26, and both enemies keep their patrol invariant
     * and their fixed y, w and h.
     */
    ghost predicate Valid()
      reads this
    {
      CoinsInPlace(coins) &&
      score + VisibleCount(coins) == WinScore &&
      enemyOne.y == EnemyOneStart.y && enemyOne.w == EnemyOneStart.w && enemyOne.h == EnemyOneStart.h &&
      enemyTwo.y == EnemyTwoStart.y && enemyTwo.w == EnemyTwoStart.w && enemyTwo.h == EnemyTwoStart.h &&
      Patrolling(enemyOne, EnemyOneLo, EnemyOneSpan) &&
      Patrolling(enemyTwo, EnemyTwoLo, EnemyTwoSpan)
    }

    /** The script's start (game.js:4-54, 222): globals initialised, then createCoins. */
    constructor ()
      ensures Valid() && fresh(player)
      ensures player.Kinematics() == Motion(StartX, StartY, 0, 0, false, FullForce)
      ensures keys == map[] && score == 0 && !isGameOver
      ensures enemyOne == EnemyOneStart && enemyTwo == EnemyTwoStart
      ensures forall i :: 0 <= i < |coins| ==> coins[i].visible
    {
      player := new Player();
      keys := map[];
      score := 0;
      isGameOver := false;
      coins := [];
      enemyOne := EnemyOneStart;
      enemyTwo := EnemyTwoStart;
      new;
      CreateCoins();
      EnemiesStartPatrolling();
    }

    /** game.js:36-47: one visible coin of size 25 at each fixed position. */
    method CreateCoins()
      modifies this`coins
      ensures CoinsInPlace(coins)
      ensures forall i :: 0 <= i < |coins| ==> coins[i].visible
      ensures VisibleCount(coins) == WinScore
    {
      coins := seq(|CoinPositions|, i requires 0 <= i < |CoinPositions| =>
        Coin(CoinPositions[i].0, CoinPositions[i].1, CoinSize, true));
      AllVisibleCount(coins);
    }

    /** The coin loop of updateGame (game.js:95-100). */
    method CollectCoins(a: Rect)
      modifies this`coins, this`score
      ensures coins == Collect(old(coins), a)
      ensures score == old(score) + FlipCount(old(coins), coins)
      ensures old(CoinsInPlace(coins) && score + VisibleCount(coins) == WinScore) ==>
        CoinsInPlace(coins) && score + VisibleCount(coins) == WinScore
    {
      ghost var before := coins;
      var i := 0;
      while i < |coins|
        invariant 0 <= i <= |coins| == |before|
        invariant forall j :: 0 <= j < i ==> coins[j] == Pick(before[j], a)
        invariant forall j :: i <= j < |coins| ==> coins[j] == before[j]
        invariant score == old(score) + Hits(before[..i], a)
      {
        if coins[i].visible && Collide(a, CoinProbe(coins[i])) {
          coins := coins[i := coins[i].(visible := false)];
          score := score + 1;
        }
        assert before[..i + 1][..i] == before[..i];
        i := i + 1;
      }
      assert before[..i] == before;
      assert coins == Collect(before, a);
      HitsAreFlips(before, a);
      forall j | 0 <= j < |coins|
        ensures coins[j].visible ==> before[j].visible
      {
        CollectNeverReveals(before, a, j);
      }
      FlipAccount(before, coins);
    }

    /** The enemy movement of updateGame (game.js:102-111). */
    method MoveEnemies()
      modifies this`enemyOne, this`enemyTwo
      ensures enemyOne == Patrol(old(enemyOne), EnemyOneLo, EnemyOneSpan)
      ensures enemyTwo == Patrol(old(enemyTwo), EnemyTwoLo, EnemyTwoSpan)
      ensures old(Patrolling(enemyOne, EnemyOneLo, EnemyOneSpan) && enemyOne.w == EnemyOneStart.w) ==>
        Patrolling(enemyOne, EnemyOneLo, EnemyOneSpan)
      ensures old(Patrolling(enemyTwo, EnemyTwoLo, EnemyTwoSpan) && enemyTwo.w == EnemyTwoStart.w) ==>
        Patrolling(enemyTwo, EnemyTwoLo, EnemyTwoSpan)
    {
      ghost var one, two := enemyOne, enemyTwo;
      enemyOne := enemyOne.(x := enemyOne.x + enemyOne.speed);
      if enemyOne.x < EnemyOneLo || enemyOne.x + enemyOne.w > EnemyOneLo + EnemyOneSpan {
        enemyOne := enemyOne.(speed := enemyOne.speed * -1);
      }
      enemyTwo := enemyTwo.(x := enemyTwo.x + enemyTwo.speed);
      if enemyTwo.x < EnemyTwoLo || enemyTwo.x + enemyTwo.w > EnemyTwoLo + EnemyTwoSpan {
        enemyTwo := enemyTwo.(speed := enemyTwo.speed * -1);
      }
      if one.w == EnemyOneStart.w && Patrolling(one, EnemyOneLo, EnemyOneSpan) {
        PatrolKeepsRange(one, EnemyOneLo, EnemyOneSpan);
      }
      if two.w == EnemyTwoStart.w && Patrolling(two, EnemyTwoLo, EnemyTwoSpan) {
        PatrolKeepsRange(two, EnemyTwoLo, EnemyTwoSpan);
      }
    }

    /**
     * updateGame (game.js:57-143). Returns whether it would request the next
     * frame and the message it would draw, if any.
     */
    method UpdateGame(canvasHeight: int) returns (reschedule: bool, message: Option<Message>)
      requires Valid()
      modifies this`score, this`isGameOver, this`coins, this`enemyOne, this`enemyTwo, player
      ensures Valid()
      ensures keys == old(keys)
      ensures old(isGameOver) ==>
        !reschedule && message == None && unchanged(this) && unchanged(player)
      ensures !old(isGameOver) ==>
        player.Kinematics() == PlayerStep(old(player.Kinematics()), Held(keys, "ArrowLeft"), Held(keys, "ArrowRight")) &&
        coins == Collect(old(coins), BoxOf(player.Kinematics())) &&
        score == old(score) + FlipCount(old(coins), coins) &&
        enemyOne == Patrol(old(enemyOne), EnemyOneLo, EnemyOneSpan) &&
        enemyTwo == Patrol(old(enemyTwo), EnemyTwoLo, EnemyTwoSpan) &&
        message == Terminal(BoxOf(player.Kinematics()), enemyOne, enemyTwo, canvasHeight, score) &&
        isGameOver == message.Some? &&
        reschedule == message.None?
      ensures message.Some? ==> message == Some(Fell(score)) && player.y > canvasHeight
      ensures old(score) <= score <= WinScore
    {
      if isGameOver {
        ScoreBound(score, coins);
        return false, None;
      }

      player.ApplyGravity();
      player.Steer(Held(keys, "ArrowLeft"), Held(keys, "ArrowRight"));
      player.Move();
      player.LandOnPlatforms();

      var box := Rect(player.x, player.y, PlayerWidth, PlayerHeight);
      CollectCoins(box);

      MoveEnemies();
      ScoreBound(score, coins);
      TerminalAsShipped(box, enemyOne, enemyTwo, canvasHeight, score);

      // The three checks in their order; each one that fires ends the game and draws its message.
      message := Terminal(box, enemyOne, enemyTwo, canvasHeight, score);
      if message.Some? {
        isGameOver := true;
        return false, message;
      }
      return true, None;
    }

    /** restartGame (game.js:210-219); requestAnimationFrame is the caller's to report. */
    method RestartGame()
      requires Valid()
      modifies this`score, this`isGameOver, this`coins, player`x, player`y, player`jumping, player`force
      ensures Valid()
      ensures player.x == StartX && player.y == StartY && !player.jumping && player.force == FullForce
      ensures player.vx == old(player.vx) && player.vy == old(player.vy)
      ensures score == 0 && !isGameOver
      ensures CoinsInPlace(coins) && forall i :: 0 <= i < |coins| ==> coins[i].visible
      ensures enemyOne == old(enemyOne) && enemyTwo == old(enemyTwo) && keys == old(keys)
    {
      player.x := StartX;
      player.y := StartY;
      player.jumping := false;
      player.force := FullForce;
      score := 0;
      isGameOver := false;
      CreateCoins();
    }

    /**
     * The keydown handler (game.js:196-203). Returns whether it requested a
     * frame, which it does exactly when Enter restarts a finished game.
     */
    method KeyDown(key: string) returns (reschedule: bool)
      requires Valid()
      modifies this`keys, this`score, this`isGameOver, this`coins, player`x, player`y, player`jumping, player`force
      ensures Valid()
      ensures keys == old(keys)[key := true]
      ensures reschedule == (key == "Enter" && old(isGameOver))
      ensures key == " " && !old(player.jumping) ==> player.jumping && player.force == FullForce
      ensures reschedule ==>
        player.x == StartX && player.y == StartY && !player.jumping && player.force == FullForce &&
        score == 0 && !isGameOver &&
        forall i :: 0 <= i < |coins| ==> coins[i].visible
      ensures !reschedule ==>
        player.x == old(player.x) && player.y == old(player.y) &&
        score == old(score) && isGameOver == old(isGameOver) && coins == old(coins)
      ensures !reschedule && !(key == " " && !old(player.jumping)) ==>
        player.jumping == old(player.jumping) && player.force == old(player.force)
      ensures enemyOne == old(enemyOne) && enemyTwo == old(enemyTwo)
      ensures player.vx == old(player.vx) && player.vy == old(player.vy)
    {
      keys := keys[key := true];
      if key == " " && !player.jumping {
        player.jumping := true;
        player.force := FullForce;
      }
      reschedule := false;
      if key == "Enter" && isGameOver {
        RestartGame();
        reschedule := true;
      }
    }

    /** The keyup handler (game.js:205-207). */
    method KeyUp(key: string)
      modifies this`keys
      ensures keys == old(keys)[key := false]
    {
      keys := keys[key := false];
    }
  }
}
