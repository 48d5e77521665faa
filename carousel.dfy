/**
 * The wrap-around index arithmetic shared by both project modals: the
 * updaters handed to `setCurrentImageIndex` by `nextImage` and `prevImage`,
 * and the swipe rule applied when a drag gesture ends.
 */
module Carousel {

  /** Slide shown after "next" on a list of `n` images: the last wraps to the first. */
  function NextIndex(i: int, n: int): (r: int)
    ensures 0 <= i < n ==> 0 <= r < n && r == (i + 1) % n
  {
    if i == n - 1 then 0 else i + 1
  }

  /** Slide shown after "previous": the first wraps to the last. */
  function PrevIndex(i: int, n: int): (r: int)
    ensures 0 <= i < n ==> 0 <= r < n && r == (i - 1) % n
    ensures 0 <= i < n ==> NextIndex(r, n) == i
  {
    if i == 0 then n - 1 else i - 1
  }

  /** "previous" undoes "next" on every in-range index. */
  lemma PrevUndoesNext(i: int, n: int)
    requires 0 <= i < n
    ensures PrevIndex(NextIndex(i, n), n) == i
  {
  }

  /** With a single image both arrows keep showing it. */
  lemma SingleImageIsFixed()
    ensures NextIndex(0, 1) == 0 && PrevIndex(0, 1) == 0
  {
  }

  /** The wrap rule needs at least one image: on an empty list "next" leaves the range. */
  lemma EmptyListLeavesRange()
    ensures NextIndex(0, 0) == 1
  {
  }

  /** The index reached from `i` after `k` presses of "next". */
  function Steps(i: int, n: int, k: nat): (r: int)
    ensures 0 <= i < n ==> 0 <= r < n
    decreases k
  {
    if k == 0 then i else NextIndex(Steps(i, n, k - 1), n)
  }

  /** Below the last slide, each "next" moves one slide to the right. */
  lemma {:induction false} StepsClimb(i: int, n: int, k: nat)
    requires 0 <= i && i + k < n
    ensures Steps(i, n, k) == i + k
  {
    if k > 0 {
      StepsClimb(i, n, k - 1);
    }
  }

  /** `a + b` presses are `a` presses followed by `b` presses. */
  lemma {:induction false} StepsAdd(i: int, n: int, a: nat, b: nat)
    ensures Steps(i, n, a + b) == Steps(Steps(i, n, a), n, b)
  {
    if b > 0 {
      StepsAdd(i, n, a, b - 1);
    }
  }

  /** `n` successive presses of "next" bring the carousel back to where it started. */
  lemma {:induction false} FullCycle(i: int, n: int)
    requires 0 <= i < n
    ensures Steps(i, n, n) == i
  {
    var toLast := n - 1 - i;
    StepsClimb(i, n, toLast);
    StepsAdd(i, n, toLast, 1);
    assert Steps(i, n, toLast + 1) == 0;
    StepsClimb(0, n, i);
    StepsAdd(i, n, toLast + 1, i);
  }

  /** One "previous" is the same as `n - 1` presses of "next". */
  lemma {:induction false} PrevIsNextRepeated(i: int, n: int)
    requires 0 <= i < n
    ensures PrevIndex(i, n) == Steps(i, n, n - 1)
  {
    FullCycle(i, n);
    StepsAdd(i, n, n - 1, 1);
    var before := Steps(i, n, n - 1);
    assert NextIndex(before, n) == i;
    PrevUndoesNext(before, n);
  }

  /** A drag must travel strictly more than this many pixels to change the slide. */
  const SwipeThreshold := 50

  /**
   * The index after a gesture ends with strip offset `dx`: dragging right
   * shows the previous slide, dragging left the next one.
   */
  function SwipeIndex(i: int, n: int, dx: int): (r: int)
    ensures 0 <= i < n ==> 0 <= r < n
    ensures -SwipeThreshold <= dx <= SwipeThreshold ==> r == i
  {
    if dx > SwipeThreshold then
      PrevIndex(i, n)
    else if dx < -SwipeThreshold then
      NextIndex(i, n)
    else
      i
  }

  /**
   * A swipe to the left is one press of "next"; a swipe to the right is
   * `n - 1` presses of "next", that is, one step back around the cycle.
   */
  lemma SwipeAsSteps(i: int, n: int, dx: int)
    requires 0 <= i < n
    ensures dx < -SwipeThreshold ==> SwipeIndex(i, n, dx) == Steps(i, n, 1)
    ensures dx > SwipeThreshold ==> SwipeIndex(i, n, dx) == Steps(i, n, n - 1)
  {
    if dx > SwipeThreshold {
      PrevIsNextRepeated(i, n);
    }
  }

  /** A swipe past the threshold is undone by the same swipe in the opposite direction. */
  lemma SwipeBackRestores(i: int, n: int, dx: int)
    requires 0 <= i < n
    requires dx > SwipeThreshold || dx < -SwipeThreshold
    ensures SwipeIndex(SwipeIndex(i, n, dx), n, -dx) == i
  {
  }
}
