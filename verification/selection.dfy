/** Choosing a bird before the game starts: a horizontal swipe past a
    threshold moves the selection one bird left or right (`touchmove`,
    script.js:212-229). The class `Flappy.Game` applies `Swipe` in place. */
module Selection {
  /** `birdImages.length`. */
  const BirdCount: int := 3
  /** `unlockedBirds`: shown as a "Locked" overlay, never checked by the selection. */
  const Unlocked: seq<bool> := [true, true, false]
  /** Pixels a touch must travel from its reference point to count as a swipe. */
  const SwipeThreshold: real := 50.0

  /** One `touchmove` at `x` in pre-game, from selection `index` with the
      reference point `startX`; returns the new selection and reference point. */
  function Swipe(index: int, startX: real, x: real): (r: (int, real))
    // the selection stays a valid bird index
    ensures 0 <= index < BirdCount ==> 0 <= r.0 < BirdCount
    // at most one step per event, clamped at both ends, no wrap-around
    ensures r.0 == index - 1 <==> x < startX - SwipeThreshold && index > 0
    ensures r.0 == index + 1 <==> x > startX + SwipeThreshold && index < BirdCount - 1
    ensures r.0 == index || r.0 == index - 1 || r.0 == index + 1
    // the reference point moves to the touch only when the threshold is crossed
    ensures x < startX - SwipeThreshold || x > startX + SwipeThreshold ==> r.1 == x
    ensures startX - SwipeThreshold <= x <= startX + SwipeThreshold ==> r == (index, startX)
  {
    if x < startX - SwipeThreshold then
      (if index > 0 then index - 1 else index, x)
    else if x > startX + SwipeThreshold then
      (if index < BirdCount - 1 then index + 1 else index, x)
    else
      (index, startX)
  }

  /** A sequence of `touchmove` events at the positions `xs`, in order. */
  function SwipeAll(index: int, startX: real, xs: seq<real>): (int, real)
    decreases |xs|
  {
    if xs == [] then (index, startX)
    else
      var (i, s) := Swipe(index, startX, xs[0]);
      SwipeAll(i, s, xs[1..])
  }

  /** However long the drag, the selection stays in range and moves at most
      one bird per event. */
  lemma {:induction false} SwipeAllInRange(index: int, startX: real, xs: seq<real>)
    requires 0 <= index < BirdCount
    ensures 0 <= SwipeAll(index, startX, xs).0 < BirdCount
    ensures index - |xs| <= SwipeAll(index, startX, xs).0 <= index + |xs|
    decreases |xs|
  {
    if xs != [] {
      var (i, s) := Swipe(index, startX, xs[0]);
      SwipeAllInRange(i, s, xs[1..]);
    }
  }

  /** `n` touches, each `SwipeThreshold` + 10 px right of the one before,
      starting from `start`: a drag to the right. */
  function Rightward(start: real, n: nat): (xs: seq<real>)
    ensures |xs| == n
    decreases n
  {
    if n == 0 then [] else [start + 60.0] + Rightward(start + 60.0, n - 1)
  }

  /** A drag to the right moves the selection one bird per touch until the
      last bird, whether or not the birds passed are locked. */
  lemma {:induction false} SwipeRightward(index: int, start: real, n: nat)
    requires 0 <= index < BirdCount
    ensures SwipeAll(index, start, Rightward(start, n)).0
         == if index + n < BirdCount then index + n else BirdCount - 1
    decreases n
  {
    if n > 0 {
      var xs := Rightward(start, n);
      var (i, s) := Swipe(index, start, xs[0]);
      assert xs[1..] == Rightward(start + 60.0, n - 1);
      SwipeRightward(i, s, n - 1);
    }
  }

  /** The lock flags are not consulted: every bird, the locked third one
      included, is reached from the first by swiping right. */
  lemma EveryBirdSelectable(k: int)
    requires 0 <= k < BirdCount
    ensures SwipeAll(0, 0.0, Rightward(0.0, k)).0 == k
    ensures k == 2 ==> !Unlocked[k]
  {
    SwipeRightward(0, 0.0, k);
  }
}
