/** Counting times that keep a distance from each other. */
module Spacing {

  /** How many of the times lie in [lo, hi). */
  function CountIn(times: seq<int>, lo: int, hi: int): nat {
    if times == [] then 0
    else CountIn(times[..|times| - 1], lo, hi) + (if lo <= times[|times| - 1] < hi then 1 else 0)
  }

  predicate Spaced(times: seq<int>, gap: int) {
    forall i, j | 0 <= i < j < |times| :: times[j] - times[i] >= gap
  }

  predicate Rising(times: seq<int>) {
    forall i, j | 0 <= i < j < |times| :: times[i] <= times[j]
  }

  lemma CountPush(times: seq<int>, t: int, lo: int, hi: int)
    ensures CountIn(times + [t], lo, hi) == CountIn(times, lo, hi) + (if lo <= t < hi then 1 else 0)
  {
    assert (times + [t])[..|times|] == times;
  }

  lemma {:induction false} CountShrinks(times: seq<int>, lo: int, mid: int, hi: int)
    requires mid <= hi && forall i | 0 <= i < |times| :: times[i] < mid
    ensures CountIn(times, lo, hi) == CountIn(times, lo, mid)
  {
    if times != [] {
      CountShrinks(times[..|times| - 1], lo, mid, hi);
    }
  }

  lemma {:induction false} CountNone(times: seq<int>, lo: int, hi: int)
    requires forall i | 0 <= i < |times| :: !(lo <= times[i] < hi)
    ensures CountIn(times, lo, hi) == 0
  {
    if times != [] {
      CountNone(times[..|times| - 1], lo, hi);
    }
  }

  /** An interval cut in two. */
  lemma {:induction false} CountSplit(times: seq<int>, lo: int, mid: int, hi: int)
    requires lo <= mid <= hi
    ensures CountIn(times, lo, hi) == CountIn(times, lo, mid) + CountIn(times, mid, hi)
  {
    if times != [] {
      CountSplit(times[..|times| - 1], lo, mid, hi);
    }
  }

  lemma {:induction false} CountSome(times: seq<int>, i: nat, lo: int, hi: int)
    requires i < |times| && lo <= times[i] < hi
    ensures CountIn(times, lo, hi) > 0
  {
    if i < |times| - 1 {
      CountSome(times[..|times| - 1], i, lo, hi);
    }
  }

  /** At most n times, each at least a gap after the one before, fit into n gaps. */
  lemma {:induction false} SpacedCount(times: seq<int>, gap: int, lo: int, n: nat)
    requires gap > 0 && Spaced(times, gap)
    ensures CountIn(times, lo, lo + n * gap) <= n
    decreases |times|
  {
    if times != [] {
      var front, t := times[..|times| - 1], times[|times| - 1];
      var hi := lo + n * gap;
      if !(lo <= t < hi) {
        SpacedCount(front, gap, lo, n);
      } else {
        assert n != 0;
        // everything before t is below hi - gap
        assert n * gap == (n - 1) * gap + gap;
        CountShrinks(front, lo, hi - gap, hi);
        SpacedCount(front, gap, lo, n - 1);
      }
    }
  }

  /** The same for a closed interval. */
  lemma SpacedCountClosed(times: seq<int>, gap: int, lo: int, hi: int)
    requires gap > 0 && Spaced(times, gap) && lo <= hi
    ensures CountIn(times, lo, hi + 1) <= (hi - lo) / gap + 1
  {
    var n := (hi - lo) / gap + 1;
    assert n * gap > hi - lo by {
      assert hi - lo == (hi - lo) / gap * gap + (hi - lo) % gap;
      assert n * gap == (hi - lo) / gap * gap + gap;
    }
    SpacedCount(times, gap, lo, n);
    CountMonotone(times, lo, hi + 1, lo + n * gap);
  }

  lemma {:induction false} CountMonotone(times: seq<int>, lo: int, hi: int, more: int)
    requires hi <= more
    ensures CountIn(times, lo, hi) <= CountIn(times, lo, more)
  {
    if times != [] {
      CountMonotone(times[..|times| - 1], lo, hi, more);
    }
  }
}
