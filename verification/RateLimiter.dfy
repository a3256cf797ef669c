/** The sliding-window limiter in front of the provider verifiers. */
module RateLimiter {
  import opened SlidingWindow

  const WINDOW_MS := 60_000
  const MAX_CALLS := 20

  type Windows = map<string, seq<int>>

  function KeyOf(project: string, provider: string): string { project + ":" + provider }

  /** The stamps that are younger than a window. */
  function Recent(times: seq<int>, now: int): seq<int> {
    if times == [] then []
    else
      var earlier, last := Recent(times[..|times| - 1], now), times[|times| - 1];
      if now - last < WINDOW_MS then earlier + [last] else earlier
  }

  function Stamps(windows: Windows, key: string): seq<int> {
    if key in windows then windows[key] else []
  }

  /** The windows after a call, and whether it is allowed. A denial stores nothing. */
  function Admit(windows: Windows, key: string, now: int): (r: (Windows, bool)) {
    var times := Recent(Stamps(windows, key), now);
    if |times| >= MAX_CALLS then (windows, false) else (windows[key := times + [now]], true)
  }

  class VerificationRateLimiter {
    var windows: Windows

    constructor ()
      ensures windows == map[]
    {
      windows := map[];
    }

    method IsAllowed(project: string, provider: string, now: int) returns (allowed: bool)
      modifies this
      ensures (windows, allowed) == Admit(old(windows), KeyOf(project, provider), now)
    {
      var key := KeyOf(project, provider);
      var timestamps := Recent(if key in windows then windows[key] else [], now);
      if |timestamps| >= MAX_CALLS {
        return false;
      }
      timestamps := timestamps + [now];
      windows := windows[key := timestamps];
      return true;
    }
  }

  // ---------------------------------------------------------------- runs

  datatype Call = Call(key: string, at: int)

  ghost predicate Monotone(calls: seq<Call>) {
    forall i, j | 0 <= i < j < |calls| :: calls[i].at <= calls[j].at
  }

  /** The limiter after a run of calls. */
  function Run(calls: seq<Call>): Windows {
    if calls == [] then map[]
    else Admit(Run(calls[..|calls| - 1]), calls[|calls| - 1].key, calls[|calls| - 1].at).0
  }

  predicate Allowed(calls: seq<Call>, i: nat)
    requires i < |calls|
  {
    Admit(Run(calls[..i]), calls[i].key, calls[i].at).1
  }

  /** The whole history of a key: the time of every call of it that was allowed, never pruned. */
  function History(calls: seq<Call>, key: string): seq<int> {
    if calls == [] then []
    else
      var n := |calls| - 1;
      var earlier := History(calls[..n], key);
      if calls[n].key == key && Allowed(calls, n) then earlier + [calls[n].at] else earlier
  }

  lemma {:induction false} HistoryPast(calls: seq<Call>, key: string, now: int)
    requires Monotone(calls) && (calls != [] ==> calls[|calls| - 1].at <= now)
    ensures forall i | 0 <= i < |History(calls, key)| :: History(calls, key)[i] <= now
    ensures Ordered(History(calls, key))
    decreases |calls|
  {
    if calls != [] {
      HistoryPast(calls[..|calls| - 1], key, calls[|calls| - 1].at);
    }
  }

  // ---------------------------------------------------------------- dropping expired stamps is harmless

  lemma {:induction false} RecentOfRecent(times: seq<int>, now: int, later: int)
    requires now <= later
    ensures Recent(Recent(times, now), later) == Recent(times, later)
  {
    if times != [] {
      var rest, last := times[..|times| - 1], times[|times| - 1];
      RecentOfRecent(rest, now, later);
      RecentAppend(Recent(rest, now), last, later);
    }
  }

  lemma RecentAppend(times: seq<int>, t: int, now: int)
    ensures Recent(times + [t], now) == if now - t < WINDOW_MS then Recent(times, now) + [t] else Recent(times, now)
  {
    assert (times + [t])[..|times|] == times;
  }

  /** What the limiter keeps of a key is, from now on, as good as the whole history. */
  lemma {:induction false} KeptStamps(calls: seq<Call>, key: string, now: int)
    requires Monotone(calls) && (calls != [] ==> calls[|calls| - 1].at <= now)
    ensures Recent(Stamps(Run(calls), key), now) == Recent(History(calls, key), now)
    decreases |calls|
  {
    if calls != [] {
      var n := |calls| - 1;
      var rest, call := calls[..n], calls[n];
      KeptStamps(rest, key, now);
      if call.key == key && Allowed(calls, n) {
        var kept := Stamps(Run(rest), key);
        RecentAppend(Recent(kept, call.at), call.at, now);
        RecentOfRecent(kept, call.at, now);
        RecentAppend(History(rest, key), call.at, now);
      }
    }
  }

  lemma {:induction false} RecentCounts(times: seq<int>, now: int)
    requires forall i | 0 <= i < |times| :: times[i] <= now
    ensures |Recent(times, now)| == Count(times, now - WINDOW_MS + 1, now + 1)
  {
    if times != [] {
      var rest := times[..|times| - 1];
      RecentCounts(rest, now);
    }
  }

  /** Every decision is the one a limiter with a perfect memory would take: a call is allowed
      exactly when fewer than 20 calls of its key were allowed in the last minute. */
  lemma DecidesOnWholeHistory(calls: seq<Call>, i: nat)
    requires Monotone(calls) && i < |calls|
    ensures var now := calls[i].at;
      Allowed(calls, i) <==> Count(History(calls[..i], calls[i].key), now - WINDOW_MS + 1, now + 1) < MAX_CALLS
  {
    hide Recent, Count, History, Run;
    var now, key := calls[i].at, calls[i].key;
    KeptStamps(calls[..i], key, now);
    HistoryPast(calls[..i], key, now);
    RecentCounts(History(calls[..i], key), now);
  }

  // ---------------------------------------------------------------- the rate

  lemma {:induction false} CountInWider(times: seq<int>, lo: int, hi: int, lo': int, hi': int)
    requires forall i | 0 <= i < |times| && lo <= times[i] < hi :: lo' <= times[i] < hi'
    ensures Count(times, lo, hi) <= Count(times, lo', hi')
  {
    if times != [] {
      CountInWider(times[..|times| - 1], lo, hi, lo', hi');
    }
  }

  /** No half-open minute contains more than 20 allowed calls of one key. */
  lemma {:induction false} AtMostTwentyAMinute(calls: seq<Call>, key: string, lo: int)
    requires Monotone(calls)
    ensures Count(History(calls, key), lo, lo + WINDOW_MS) <= MAX_CALLS
    decreases |calls|
  {
    hide Count, Allowed;
    if calls == [] {
      CountAtMost([], lo, lo + WINDOW_MS, 0);
    } else {
      var n := |calls| - 1;
      var now, before := calls[n].at, History(calls[..n], key);
      AtMostTwentyAMinute(calls[..n], key, lo);
      if calls[n].key == key && Allowed(calls, n) {
        CountAppend(before, now, lo, lo + WINDOW_MS);
        if lo <= now < lo + WINDOW_MS {
          DecidesOnWholeHistory(calls, n);
          HistoryPast(calls[..n], key, now);
          CountInWider(before, lo, lo + WINDOW_MS, now - WINDOW_MS + 1, now + 1);
        }
      }
    }
  }

  /** Any 21 allowed calls of one key span at least a minute. */
  lemma TwentyOneCallsTakeAMinute(calls: seq<Call>, key: string, i: nat, j: nat)
    requires Monotone(calls) && i + MAX_CALLS <= j < |History(calls, key)|
    ensures History(calls, key)[j] - History(calls, key)[i] >= WINDOW_MS
  {
    hide Count, Allowed;
    var times := History(calls, key);
    HistoryPast(calls, key, calls[|calls| - 1].at);
    hide History;
    forall lo, hi | hi == lo + WINDOW_MS ensures Count(times, lo, hi) <= MAX_CALLS { AtMostTwentyAMinute(calls, key, lo); }
    SpacedExactly(times, MAX_CALLS, WINDOW_MS);
    assert times[i] + WINDOW_MS <= times[i + MAX_CALLS] <= times[j];
  }

  /** Projects do not share a limit, as generated project ids hold no colon. */
  lemma LimitsAreSeparate(p: string, q: string, p': string, q': string)
    requires ':' !in p && ':' !in p'
    ensures KeyOf(p, q) == KeyOf(p', q') <==> p == p' && q == q'
  {
    if KeyOf(p, q) == KeyOf(p', q') {
      var k := KeyOf(p, q);
      assert k[|p|] == ':' && k[|p'|] == ':';
      assert forall i | 0 <= i < |p| :: k[i] == p[i];
      assert forall i | 0 <= i < |p'| :: k[i] == p'[i];
      assert |p| == |p'|;
      assert k[..|p|] == p && k[..|p'|] == p';
      assert k[|p| + 1..] == q && k[|p'| + 1..] == q';
    }
  }
}
