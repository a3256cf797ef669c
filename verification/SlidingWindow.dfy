/** Events on a time line: how many fall into a window, and how far apart they are. */
module SlidingWindow {

  /** The number of events in the half-open window from `lo` to `hi`. */
  function Count(times: seq<int>, lo: int, hi: int): (n: nat)
    ensures n <= |times|
  {
    if times == [] then 0
    else Count(times[..|times| - 1], lo, hi) + if lo <= times[|times| - 1] < hi then 1 else 0
  }

  ghost predicate Ordered(times: seq<int>) {
    forall i, j | 0 <= i < j < |times| :: times[i] <= times[j]
  }

  /** Any `b + 1` consecutive events span at least `width`. */
  ghost predicate Spaced(times: seq<int>, b: nat, width: int) {
    forall i | 0 <= i < |times| - b :: times[i] + width <= times[i + b]
  }

  ghost predicate Bounded(times: seq<int>, b: nat, width: int) {
    forall lo, hi | hi == lo + width :: Count(times, lo, hi) <= b
  }

  lemma {:induction false} CountAtLeast(times: seq<int>, lo: int, hi: int, i: nat)
    requires i <= |times| && forall j | i <= j < |times| :: lo <= times[j] < hi
    ensures Count(times, lo, hi) >= |times| - i
  {
    if i < |times| {
      CountAtLeast(times[..|times| - 1], lo, hi, i);
    }
  }

  lemma {:induction false} CountAtMost(times: seq<int>, lo: int, hi: int, i: nat)
    requires i <= |times| && forall j | 0 <= j < i :: !(lo <= times[j] < hi)
    ensures Count(times, lo, hi) <= |times| - i
  {
    if i < |times| {
      CountAtMost(times[..|times| - 1], lo, hi, i);
    } else if times != [] {
      CountAtMost(times[..|times| - 1], lo, hi, i - 1);
    }
  }

  lemma {:induction false} CountPrefix(times: seq<int>, n: nat, lo: int, hi: int)
    requires n <= |times|
    ensures Count(times[..n], lo, hi) <= Count(times, lo, hi)
  {
    if n < |times| {
      CountPrefix(times[..|times| - 1], n, lo, hi);
      assert times[..|times| - 1][..n] == times[..n];
    } else {
      assert times[..n] == times;
    }
  }

  lemma CountAppend(times: seq<int>, t: int, lo: int, hi: int)
    ensures Count(times + [t], lo, hi) == Count(times, lo, hi) + if lo <= t < hi then 1 else 0
  {
    assert (times + [t])[..|times|] == times;
  }

  /** The two ways to state a rate: no window holds more than `b` events exactly when
      any `b + 1` consecutive events span the width of a window. */
  lemma SpacedExactly(times: seq<int>, b: nat, width: int)
    requires Ordered(times)
    ensures Spaced(times, b, width) <==> Bounded(times, b, width)
  {
    if Bounded(times, b, width) {
      forall i | 0 <= i < |times| - b ensures times[i] + width <= times[i + b] {
        if times[i + b] < times[i] + width {
          var prefix := times[..i + b + 1];
          CountAtLeast(prefix, times[i], times[i] + width, i);
          CountPrefix(times, i + b + 1, times[i], times[i] + width);
        }
      }
    }
    if Spaced(times, b, width) {
      forall lo, hi | hi == lo + width ensures Count(times, lo, hi) <= b {
        SpacedBound(times, b, width, lo);
      }
    }
  }

  lemma {:induction false} SpacedBound(times: seq<int>, b: nat, width: int, lo: int)
    requires Ordered(times) && Spaced(times, b, width)
    ensures Count(times, lo, lo + width) <= b
  {
    if times != [] {
      var n := |times| - 1;
      if times[n] < lo + width && n >= b {
        assert times[n - b] + width <= times[n - b + b];
        forall j | 0 <= j < n - b + 1 ensures times[j] < lo { assert times[j] <= times[n - b]; }
        CountAtMost(times, lo, lo + width, n - b + 1);
      } else if n >= b {
        SpacedBound(times[..n], b, width, lo);
      }
    }
  }
}
