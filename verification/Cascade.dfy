/** PatternDetectionService.discoverCascadingFailures: how often one monitor fails shortly
    after another. */
module Cascade {

  datatype Incident = Incident(monitor: string, startedAt: int)   // milliseconds

  datatype Pattern = Pattern(monitorA: string, monitorB: string, count: nat)

  /** Division that truncates toward zero. */
  function Truncated(n: int, d: int): int
    requires d > 0
  {
    if n >= 0 then n / d else -(-n / d)
  }

  function DifferenceInMinutes(later: Incident, earlier: Incident): int {
    Truncated(later.startedAt - earlier.startedAt, 60_000)
  }

  ghost predicate SortedByStart(incidents: seq<Incident>) {
    forall i, j | 0 <= i < j < |incidents| :: incidents[i].startedAt <= incidents[j].startedAt
  }

  // ---------------------------------------------------------------- what is to be counted

  /** Incident `j` follows incident `i` of another monitor by less than eleven minutes. */
  ghost predicate Follows(incidents: seq<Incident>, i: int, j: int) {
    && 0 <= i < j < |incidents|
    && incidents[i].monitor != incidents[j].monitor
    && incidents[j].startedAt - incidents[i].startedAt < 11 * 60_000
  }

  /** The index pairs in which an incident of `b` follows one of `a`. */
  ghost function Occurrences(incidents: seq<Incident>, a: string, b: string): set<(int, int)> {
    set i: int, j: int | 0 <= i < |incidents| && 0 <= j < |incidents| && Follows(incidents, i, j)
      && incidents[i].monitor == a && incidents[j].monitor == b :: (i, j)
  }

  ghost function AllOccurrences(incidents: seq<Incident>): set<(int, int)> {
    set i: int, j: int | 0 <= i < |incidents| && 0 <= j < |incidents| && Follows(incidents, i, j) :: (i, j)
  }

  /** Index pairs in the order in which the loops visit them. */
  ghost predicate Before(i: int, j: int, m: int, n: int) { i < m || (i == m && j < n) }

  /** Those before (m, n). */
  ghost function Pairs(incidents: seq<Incident>, a: string, b: string, m: int, n: int): set<(int, int)> {
    set q | q in Occurrences(incidents, a, b) && Before(q.0, q.1, m, n)
  }

  ghost function AllPairs(incidents: seq<Incident>, m: int, n: int): set<(int, int)> {
    set q | q in AllOccurrences(incidents) && Before(q.0, q.1, m, n)
  }

  // ---------------------------------------------------------------- the list of patterns

  function Find(patterns: seq<Pattern>, a: string, b: string): (r: int)
    ensures -1 <= r < |patterns|
    ensures r >= 0 ==> patterns[r].monitorA == a && patterns[r].monitorB == b
    ensures r < 0 ==> forall p | p in patterns :: !(p.monitorA == a && p.monitorB == b)
  {
    if patterns == [] then -1
    else
      var n := |patterns| - 1;
      var r := Find(patterns[..n], a, b);
      if r >= 0 then r
      else if patterns[n].monitorA == a && patterns[n].monitorB == b then n
      else -1
  }

  function CountOf(patterns: seq<Pattern>, a: string, b: string): nat {
    var r := Find(patterns, a, b);
    if r >= 0 then patterns[r].count else 0
  }

  function Sum(patterns: seq<Pattern>): nat {
    if patterns == [] then 0 else Sum(patterns[..|patterns| - 1]) + patterns[|patterns| - 1].count
  }

  ghost predicate UniqueKeys(patterns: seq<Pattern>) {
    forall i, j | 0 <= i < j < |patterns| ::
      patterns[i].monitorA != patterns[j].monitorA || patterns[i].monitorB != patterns[j].monitorB
  }

  ghost predicate Positive(patterns: seq<Pattern>) {
    forall p | p in patterns :: p.count >= 1 && p.monitorA != p.monitorB
  }

  /** The patterns are the true counts of all pairs before (m, n). */
  ghost predicate Counted(incidents: seq<Incident>, patterns: seq<Pattern>, m: int, n: int) {
    && UniqueKeys(patterns) && Positive(patterns)
    && (forall a, b :: CountOf(patterns, a, b) == |Pairs(incidents, a, b, m, n)|)
    && Sum(patterns) == |AllPairs(incidents, m, n)|
  }

  /** One more pair of the two monitors. */
  function Bump(patterns: seq<Pattern>, a: string, b: string): seq<Pattern> {
    var r := Find(patterns, a, b);
    if r >= 0 then patterns[r := patterns[r].(count := patterns[r].count + 1)]
    else patterns + [Pattern(a, b, 1)]
  }

  lemma FindUnique(patterns: seq<Pattern>, r: int)
    requires UniqueKeys(patterns) && 0 <= r < |patterns|
    ensures Find(patterns, patterns[r].monitorA, patterns[r].monitorB) == r
  {
    assert patterns[r] in patterns;
  }

  lemma {:induction false} SumBump(patterns: seq<Pattern>, r: int, p: Pattern)
    requires 0 <= r < |patterns|
    ensures Sum(patterns[r := p]) == Sum(patterns) - patterns[r].count + p.count
  {
    var n := |patterns| - 1;
    if r < n {
      SumBump(patterns[..n], r, p);
      assert patterns[r := p][..n] == patterns[..n][r := p];
    } else {
      assert patterns[r := p][..n] == patterns[..n];
    }
  }

  lemma BumpCounts(patterns: seq<Pattern>, a: string, b: string)
    requires UniqueKeys(patterns) && Positive(patterns) && a != b
    ensures UniqueKeys(Bump(patterns, a, b)) && Positive(Bump(patterns, a, b))
    ensures forall x, y :: CountOf(Bump(patterns, a, b), x, y)
                         == CountOf(patterns, x, y) + if (x, y) == (a, b) then 1 else 0
    ensures Sum(Bump(patterns, a, b)) == Sum(patterns) + 1
  {
    var r, bumped := Find(patterns, a, b), Bump(patterns, a, b);
    if r >= 0 {
      SumBump(patterns, r, bumped[r]);
    } else {
      assert bumped[..|patterns|] == patterns;
    }
    forall x, y ensures CountOf(bumped, x, y) == CountOf(patterns, x, y) + if (x, y) == (a, b) then 1 else 0 {
      BumpCount(patterns, a, b, x, y);
    }
  }

  lemma BumpCount(patterns: seq<Pattern>, a: string, b: string, x: string, y: string)
    requires UniqueKeys(patterns)
    ensures UniqueKeys(Bump(patterns, a, b))
    ensures CountOf(Bump(patterns, a, b), x, y) == CountOf(patterns, x, y) + if (x, y) == (a, b) then 1 else 0
  {
    var r, bumped, q := Find(patterns, a, b), Bump(patterns, a, b), Find(patterns, x, y);
    assert UniqueKeys(bumped) by {
      if r < 0 { forall i | 0 <= i < |patterns| ensures patterns[i] in patterns {} }
    }
    if q >= 0 {
      assert bumped[q].monitorA == x && bumped[q].monitorB == y;
      FindUnique(bumped, q);
      if r >= 0 { FindUnique(patterns, r); }
    } else if (x, y) == (a, b) {
      FindUnique(bumped, |patterns|);
    } else {
      assert forall i | 0 <= i < |bumped| ::
        bumped[i] in patterns || (bumped[i].monitorA == a && bumped[i].monitorB == b);
    }
  }

  // ---------------------------------------------------------------- progress of the loops

  lemma MinutesMeanMillis(incidents: seq<Incident>, i: int, j: int)
    requires SortedByStart(incidents) && 0 <= i < j < |incidents|
    ensures var diff := DifferenceInMinutes(incidents[j], incidents[i]);
      diff >= 0 && (diff <= 10 <==> incidents[j].startedAt - incidents[i].startedAt < 11 * 60_000)
  {
  }

  /** The visit of (i, j) adds this one pair, if it is one. */
  lemma VisitAny(incidents: seq<Incident>, i: int, j: int)
    requires 0 <= i < j < |incidents|
    ensures |AllPairs(incidents, i, j + 1)|
         == |AllPairs(incidents, i, j)| + if Follows(incidents, i, j) then 1 else 0
  {
    VisitSet(AllOccurrences(incidents), AllPairs(incidents, i, j), AllPairs(incidents, i, j + 1), i, j);
    assert (i, j) in AllOccurrences(incidents) <==> Follows(incidents, i, j);
  }

  lemma VisitPair(incidents: seq<Incident>, i: int, j: int, a: string, b: string)
    requires 0 <= i < j < |incidents|
    ensures |Pairs(incidents, a, b, i, j + 1)| == |Pairs(incidents, a, b, i, j)|
         + if Follows(incidents, i, j) && incidents[i].monitor == a && incidents[j].monitor == b then 1 else 0
  {
    VisitSet(Occurrences(incidents, a, b), Pairs(incidents, a, b, i, j), Pairs(incidents, a, b, i, j + 1), i, j);
    assert (i, j) in Occurrences(incidents, a, b) <==>
      Follows(incidents, i, j) && incidents[i].monitor == a && incidents[j].monitor == b;
  }

  lemma VisitSet(all: set<(int, int)>, seen: set<(int, int)>, seen': set<(int, int)>, i: int, j: int)
    requires forall q :: q in seen <==> q in all && Before(q.0, q.1, i, j)
    requires forall q :: q in seen' <==> q in all && Before(q.0, q.1, i, j + 1)
    ensures |seen'| == |seen| + if (i, j) in all then 1 else 0
  {
    assert (i, j) !in seen;
    assert seen' == if (i, j) in all then seen + {(i, j)} else seen;
  }

  lemma VisitCounted(incidents: seq<Incident>, patterns: seq<Pattern>, i: int, j: int)
    requires 0 <= i < j < |incidents| && Counted(incidents, patterns, i, j)
    ensures Counted(incidents, if Follows(incidents, i, j) then
                      Bump(patterns, incidents[i].monitor, incidents[j].monitor) else patterns, i, j + 1)
  {
    hide Bump, CountOf, Pairs, AllPairs;
    if Follows(incidents, i, j) { BumpCounts(patterns, incidents[i].monitor, incidents[j].monitor); }
    forall a, b
      ensures |Pairs(incidents, a, b, i, j + 1)| == |Pairs(incidents, a, b, i, j)|
        + if Follows(incidents, i, j) && incidents[i].monitor == a && incidents[j].monitor == b then 1 else 0
    {
      VisitPair(incidents, i, j, a, b);
    }
    VisitAny(incidents, i, j);
  }

  /** No pair is left in row `i` once the distance exceeds ten minutes, or the row ends. */
  lemma RowDone(incidents: seq<Incident>, patterns: seq<Pattern>, i: int, j: int)
    requires SortedByStart(incidents) && 0 <= i < j <= |incidents| && Counted(incidents, patterns, i, j)
    requires j < |incidents| ==> incidents[j].startedAt - incidents[i].startedAt >= 11 * 60_000
    ensures Counted(incidents, patterns, i + 1, i + 2)
  {
    hide CountOf, Sum, UniqueKeys, Positive;
    forall k | j <= k < |incidents| ensures !Follows(incidents, i, k) {
      assert incidents[j].startedAt <= incidents[k].startedAt;
    }
    assert AllPairs(incidents, i + 1, i + 2) == AllPairs(incidents, i, j);
    forall a, b ensures Pairs(incidents, a, b, i + 1, i + 2) == Pairs(incidents, a, b, i, j) {}
  }

  lemma NothingVisited(incidents: seq<Incident>)
    ensures Counted(incidents, [], 0, 1)
  {
    forall a, b ensures Pairs(incidents, a, b, 0, 1) == {} {}
    assert AllPairs(incidents, 0, 1) == {};
  }

  lemma AllVisited(incidents: seq<Incident>, patterns: seq<Pattern>, i: int)
    requires Counted(incidents, patterns, i, i + 1) && i >= |incidents| - 1
    ensures UniqueKeys(patterns) && Positive(patterns)
    ensures forall a, b :: CountOf(patterns, a, b) == |Occurrences(incidents, a, b)|
    ensures Sum(patterns) == |AllOccurrences(incidents)|
  {
    hide CountOf, Sum, UniqueKeys, Positive;
    assert AllPairs(incidents, i, i + 1) == AllOccurrences(incidents);
    forall a, b ensures Pairs(incidents, a, b, i, i + 1) == Occurrences(incidents, a, b) {}
  }

  /** The counting loops: for every two monitors the number of index pairs in which the one
      follows the other, although each row is left at the first incident that is too late. */
  method CountPatterns(incidents: seq<Incident>) returns (patterns: seq<Pattern>)
    requires SortedByStart(incidents)
    ensures UniqueKeys(patterns) && Positive(patterns)
    ensures forall a, b :: CountOf(patterns, a, b) == |Occurrences(incidents, a, b)|
    ensures Sum(patterns) == |AllOccurrences(incidents)|
  {
    hide Counted, Bump, Find, DifferenceInMinutes, CountOf, Sum, Occurrences, AllOccurrences, UniqueKeys, Positive;
    patterns := [];
    NothingVisited(incidents);
    if |incidents| < 2 {
      AllVisited(incidents, patterns, 0);
      return;
    }
    var i := 0;
    while i < |incidents| - 1
      invariant 0 <= i <= |incidents| - 1
      invariant Counted(incidents, patterns, i, i + 1)
    {
      var incidentA := incidents[i];
      var j := i + 1;
      while j < |incidents|
        invariant i < j <= |incidents|
        invariant Counted(incidents, patterns, i, j)
      {
        var incidentB := incidents[j];
        VisitCounted(incidents, patterns, i, j);
        MinutesMeanMillis(incidents, i, j);
        if incidentA.monitor == incidentB.monitor {
          j := j + 1;
          continue;
        }
        var diff := DifferenceInMinutes(incidentB, incidentA);
        if diff >= 0 && diff <= 10 {
          patterns := AddOne(patterns, incidentA.monitor, incidentB.monitor);
        } else if diff > 10 {
          break;
        }
        j := j + 1;
      }
      RowDone(incidents, patterns, i, j);
      i := i + 1;
    }
    AllVisited(incidents, patterns, i);
  }

  /** Increment the pattern of the two monitors, or push it. */
  method AddOne(patterns: seq<Pattern>, a: string, b: string) returns (r: seq<Pattern>)
    ensures r == Bump(patterns, a, b)
  {
    var existing := Find(patterns, a, b);
    if existing >= 0 {
      r := patterns[existing := patterns[existing].(count := patterns[existing].count + 1)];
    } else {
      r := patterns + [Pattern(a, b, 1)];
    }
  }

  /** `patterns.filter(p => p.count >= 2)` */
  function Repeated(patterns: seq<Pattern>): (r: seq<Pattern>)
    ensures forall p :: p in r <==> p in patterns && p.count >= 2
  {
    if patterns == [] then []
    else
      var earlier, p := Repeated(patterns[..|patterns| - 1]), patterns[|patterns| - 1];
      if p.count >= 2 then earlier + [p] else earlier
  }

  /** Reports exactly the ordered pairs of monitors that followed each other at least twice,
      each with the number of times it did. */
  method DiscoverCascadingFailures(incidents: seq<Incident>) returns (strong: seq<Pattern>)
    requires SortedByStart(incidents)
    ensures forall p :: p in strong <==> p.count == |Occurrences(incidents, p.monitorA, p.monitorB)| >= 2
  {
    var patterns := CountPatterns(incidents);
    strong := Repeated(patterns);
    hide Occurrences, Repeated;
    forall p ensures p in patterns <==> p.count == CountOf(patterns, p.monitorA, p.monitorB) >= 1 {
      if p in patterns {
        var r :| 0 <= r < |patterns| && patterns[r] == p;
        FindUnique(patterns, r);
      } else if CountOf(patterns, p.monitorA, p.monitorB) >= 1 {
        assert patterns[Find(patterns, p.monitorA, p.monitorB)] in patterns;
      }
    }
  }
}
