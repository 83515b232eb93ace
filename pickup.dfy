/**
 * Coin collection (game.js:94-100) and the count of visible coins behind the
 * score invariant: score + visible coins == 26 (game.js:36-46, 215-217).
 */
module Pickup {
  import opened Geometry
  import opened Level

  /**
   * The coin as the loop leaves it: hidden if it was visible and the player's
   * box collides with it. Only the visibility can change, and only to hidden.
   */
  function Pick(c: Coin, a: Rect): (r: Coin)
    ensures r.x == c.x && r.y == c.y && r.size == c.size
    ensures r.visible ==> c.visible
    ensures r.visible != c.visible <==> c.visible && Collide(a, CoinProbe(c))
  {
    if c.visible && Collide(a, CoinProbe(c)) then c.(visible := false) else c
  }

  /** The coin table after the collection loop. */
  function Collect(cs: seq<Coin>, a: Rect): (r: seq<Coin>)
    ensures |r| == |cs|
  {
    seq(|cs|, i requires 0 <= i < |cs| => Pick(cs[i], a))
  }

  /** The number of coins the loop collects (each one adds 1 to the score); only visible coins count. */
  function Hits(cs: seq<Coin>, a: Rect): (r: nat)
    ensures r <= VisibleCount(cs)
    decreases |cs|
  {
    if cs == [] then 0
    else Hits(cs[..|cs| - 1], a) + (if cs[|cs| - 1].visible && Collide(a, CoinProbe(cs[|cs| - 1])) then 1 else 0)
  }

  /** The number of visible coins. */
  function VisibleCount(cs: seq<Coin>): nat
    decreases |cs|
  {
    if cs == [] then 0 else VisibleCount(cs[..|cs| - 1]) + (if cs[|cs| - 1].visible then 1 else 0)
  }

  /** The number of coins that were visible in before and are hidden in after. */
  function FlipCount(before: seq<Coin>, after: seq<Coin>): nat
    requires |before| == |after|
    decreases |before|
  {
    if before == [] then 0
    else
      var n := |before| - 1;
      FlipCount(before[..n], after[..n]) + (if before[n].visible && !after[n].visible then 1 else 0)
  }

  /** Collection only hides coins: no coin becomes visible, and x, y and size are kept. */
  lemma CollectNeverReveals(cs: seq<Coin>, a: Rect, i: nat)
    requires i < |cs|
    ensures Collect(cs, a)[i].visible ==> cs[i].visible
    ensures !cs[i].visible ==> Collect(cs, a)[i] == cs[i]
    ensures Collect(cs, a)[i].(visible := cs[i].visible) == cs[i]
  {
  }

  /** The score the loop adds is exactly the number of coins flipped from visible to hidden. */
  lemma {:induction false} HitsAreFlips(cs: seq<Coin>, a: Rect)
    ensures Hits(cs, a) == FlipCount(cs, Collect(cs, a))
    decreases |cs|
  {
    if cs != [] {
      var n := |cs| - 1;
      assert Collect(cs, a)[..n] == Collect(cs[..n], a);
      HitsAreFlips(cs[..n], a);
    }
  }

  /** When no coin becomes visible, the coins that were hidden account for the drop in visible coins. */
  lemma {:induction false} FlipAccount(before: seq<Coin>, after: seq<Coin>)
    requires |before| == |after|
    requires forall i :: 0 <= i < |after| && after[i].visible ==> before[i].visible
    ensures VisibleCount(after) + FlipCount(before, after) == VisibleCount(before)
    decreases |before|
  {
    if before != [] {
      var n := |before| - 1;
      FlipAccount(before[..n], after[..n]);
    }
  }

  /** Collecting keeps score + visible coins constant. */
  lemma CollectKeepsTotal(cs: seq<Coin>, a: Rect)
    ensures VisibleCount(Collect(cs, a)) + Hits(cs, a) == VisibleCount(cs)
  {
    HitsAreFlips(cs, a);
    FlipAccount(cs, Collect(cs, a));
  }

  /** A table whose coins are all visible has every coin counted. */
  lemma {:induction false} AllVisibleCount(cs: seq<Coin>)
    requires forall i :: 0 <= i < |cs| ==> cs[i].visible
    ensures VisibleCount(cs) == |cs|
    decreases |cs|
  {
    if cs != [] {
      AllVisibleCount(cs[..|cs| - 1]);
    }
  }

  /** There are never more visible coins than coins. */
  lemma {:induction false} VisibleAtMost(cs: seq<Coin>)
    ensures VisibleCount(cs) <= |cs|
    decreases |cs|
  {
    if cs != [] {
      VisibleAtMost(cs[..|cs| - 1]);
    }
  }

  /**
   * A hidden coin adds nothing: the loop collects as many coins from the
   * table as from the table with that coin taken out.
   */
  lemma {:induction false} HiddenCoinAddsNothing(cs: seq<Coin>, a: Rect, i: nat)
    requires i < |cs| && !cs[i].visible
    ensures Hits(cs, a) == Hits(cs[..i] + cs[i + 1..], a)
    decreases |cs|
  {
    var n := |cs| - 1;
    var rest := cs[..i] + cs[i + 1..];
    if i == n {
      assert rest == cs[..n];
    } else {
      var front := cs[..n];
      assert rest[..|rest| - 1] == front[..i] + front[i + 1..];
      assert rest[|rest| - 1] == cs[n];
      HiddenCoinAddsNothing(front, a, i);
    }
  }

  /** The score invariant bounds the score: 0 <= score <= 26. */
  lemma ScoreBound(score: int, cs: seq<Coin>)
    requires |cs| == WinScore
    requires score + VisibleCount(cs) == WinScore
    ensures 0 <= score <= WinScore
    ensures score == WinScore <==> VisibleCount(cs) == 0
  {
    VisibleAtMost(cs);
  }
}
