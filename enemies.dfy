/** The enemies' patrol (game.js:102-111): move by speed, reflect outside the range. */
module Enemies {
  import opened Level

  /** One frame of an enemy with range start lo and range width span. */
  function Patrol(e: Enemy, lo: int, span: int): (r: Enemy)
    ensures r.y == e.y && r.w == e.w && r.h == e.h
    ensures r.speed == e.speed || r.speed == -e.speed
  {
    var moved := e.(x := e.x + e.speed);
    if moved.x < lo || moved.x + moved.w > lo + span then moved.(speed := moved.speed * -1) else moved
  }

  /**
   * The patrol invariant: speed is +-3, x lies within one step of the range
   * [lo, lo + span - w], and an enemy outside the range is heading back into it.
   */
  ghost predicate Patrolling(e: Enemy, lo: int, span: int) {
    (e.speed == PatrolSpeed || e.speed == -PatrolSpeed) &&
    lo - PatrolSpeed <= e.x <= lo + span - e.w + PatrolSpeed &&
    (e.x < lo ==> e.speed == PatrolSpeed) &&
    (e.x > lo + span - e.w ==> e.speed == -PatrolSpeed)
  }

  /** x moves by exactly speed, and speed is negated exactly when the new x leaves [lo, lo + span - w]. */
  lemma PatrolStep(e: Enemy, lo: int, span: int)
    requires e.speed != 0
    ensures var r := Patrol(e, lo, span);
      r.x == e.x + e.speed && r.y == e.y && r.w == e.w && r.h == e.h &&
      (r.speed == -e.speed <==> !(lo <= r.x <= lo + span - e.w)) &&
      (r.speed == e.speed <==> lo <= r.x <= lo + span - e.w)
  {
  }

  /** The patrol invariant is preserved by every frame, when the range is at least as wide as the enemy. */
  lemma PatrolKeepsRange(e: Enemy, lo: int, span: int)
    requires e.w <= span
    requires Patrolling(e, lo, span)
    ensures Patrolling(Patrol(e, lo, span), lo, span)
  {
  }

  /** Both enemies start inside their ranges. */
  lemma EnemiesStartPatrolling()
    ensures Patrolling(EnemyOneStart, EnemyOneLo, EnemyOneSpan)
    ensures Patrolling(EnemyTwoStart, EnemyTwoLo, EnemyTwoSpan)
  {
  }
}
