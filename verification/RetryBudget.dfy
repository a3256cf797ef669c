/** The retry budget of one job over whole runs: which budgets it holds for. */
module RetryBudget {
  import opened Values
  import opened Breaker
  import opened BreakerRuns

  ghost predicate Increasing(a: seq<nat>) {
    forall i, j | 0 <= i < j < |a| :: a[i] < a[j]
  }

  /** The budgets under which the default of `tripBreaker` (5 attempts for a job without a cache
      entry) is harmless. The job id that anonymous sessions share needs a smaller one. */
  predicate SafeBudget(b: int, x: string) {
    b <= 6 && (x != NO_EXTERNAL_ID || b <= 2)
  }

  ghost predicate BudgetInv(w: World, m: Id, x: string, b: int) {
    && (forall m' | m' in w.monitors :: PlainId(m')) && m in w.monitors && w.monitors[m].Budget() == b
    && Increasing(Attempts(w.execs, m, x))
    && (forall a | a in Attempts(w.execs, m, x) :: 1 <= a < b)
    && (CacheKey(m, x) in w.store ==> CachedAtLeast(w.store[CacheKey(m, x)], w.execs, m, x))
  }

  predicate CachedAtLeast(entry: CacheEntry, execs: seq<Exec>, m: Id, x: string) {
    entry.attempt >= 1 && entry.attempt >= LastAttempt(execs, m, x)
  }

  lemma IncreasingThen(a: seq<nat>, n: nat)
    requires Increasing(a) && forall k | k in a :: k < n
    ensures Increasing(a + [n])
  {
    forall i | 0 <= i < |a| ensures a[i] < n { assert a[i] in a; }
  }

  lemma OneMore(execs: seq<Exec>, exec: Exec, m: Id, x: string)
    ensures var ours := exec.monitor == m && exec.externalId == Some(x);
      && Attempts(execs + [exec], m, x) == Attempts(execs, m, x) + (if ours then [exec.attempt] else [])
      && LastAttempt(execs + [exec], m, x)
         == if ours && exec.attempt > LastAttempt(execs, m, x) then exec.attempt else LastAttempt(execs, m, x)
  {
    assert (execs + [exec])[..|execs|] == execs;
  }

  lemma AdmitKeepsBudget(w: World, m': Id, x': Option<string>, m: Id, x: string, b: int)
    requires BudgetInv(w, m, x, b) && m' in w.monitors && SafeBudget(b, x) && x != ""
    ensures BudgetInv(Admit(w, m', x').0, m, x, b)
  {
    hide Attempts, ActiveStreak, LastAttempt;
    var k, k' := CacheKey(m, x), CacheKey(m', Slot(x'));
    var attempt := NextAttempt(w, m', x', Get(w.store, k', w.now).1);
    var last := LastAttempt(w.execs, m, x);
    assert last < b || last == 0;
    if k == k' {
      CacheKeyInjective(m, x, m', Slot(x'));
      assert x' == Some(x) ==> attempt > last;
    }
    if attempt < w.monitors[m'].Budget() {
      hide LastAttempt;
      OneMore(w.execs, Exec(m', x', attempt, w.now, true), m, x);
      if m' == m && x' == Some(x) {
        IncreasingThen(Attempts(w.execs, m, x), attempt);
      }
      assert Attempts(w.execs, m, x) + [] == Attempts(w.execs, m, x);
    }
    var w' := Admit(w, m', x').0;
    assert w'.monitors == w.monitors && Increasing(Attempts(w'.execs, m, x));
    assert CacheKey(m, x) in w'.store ==> CachedAtLeast(w'.store[CacheKey(m, x)], w'.execs, m, x);
  }

  lemma RequestKeepsBudget(w: World, m': Id, p: Id, x': Option<string>, m: Id, x: string, b: int)
    requires BudgetInv(w, m, x, b) && SafeBudget(b, x) && x != ""
    ensures BudgetInv(CreateSession(w, m', p, x').0, m, x, b)
  {
    if m' in w.monitors && w.monitors[m'].project == p {
      var k, k' := CacheKey(m, x), CacheKey(m', Slot(x'));
      if k == k' { CacheKeyInjective(m, x, m', Slot(x')); }
      var (store, broken) := IsBroken(w.store, k', w.now);
      var w1 := w.(store := store);
      var streak := ActiveStreak(w.streaks, m');
      if !broken && streak.None? {
        AdmitKeepsBudget(w1, m', x', m, x, b);
      } else if !broken {
        var i, age := streak.value, w.now - w.streaks[streak.value].lastSeen;
        if age >= COOLDOWN_MS {
          AdmitKeepsBudget(w1.(streaks := w.streaks[i := w.streaks[i].(active := false)]), m', x', m, x, b);
        }
      }
    }
  }

  lemma {:induction false} FinishKeepsAttempts(execs: seq<Exec>, i: nat, m: Id, x: string)
    requires i < |execs|
    ensures Attempts(execs[i := execs[i].(running := false)], m, x) == Attempts(execs, m, x)
    ensures LastAttempt(execs[i := execs[i].(running := false)], m, x) == LastAttempt(execs, m, x)
  {
    var execs', n := execs[i := execs[i].(running := false)], |execs| - 1;
    if i < n {
      FinishKeepsAttempts(execs[..n], i, m, x);
      assert execs'[..n] == execs[..n][i := execs[i].(running := false)];
    } else {
      assert execs'[..n] == execs[..n];
    }
  }

  lemma {:induction false} RunKeepsBudget(w: World, evs: seq<Event>, m: Id, x: string, b: int)
    requires BudgetInv(w, m, x, b) && SafeBudget(b, x) && x != ""
    ensures BudgetInv(Run(w, evs), m, x, b)
    decreases |evs|
  {
    if evs != [] {
      var w1 := Apply(w, evs[0]);
      match evs[0] {
        case Request(m', p, x') => RequestKeepsBudget(w, m', p, x', m, x, b);
        case Finish(i) => if i < |w.execs| { FinishKeepsAttempts(w.execs, i, m, x); }
        case _ =>
      }
      RunKeepsBudget(w1, evs[1..], m, x, b);
    }
  }

  /** Strictly increasing attempts below the budget are fewer than the budget. */
  lemma {:induction false} FewerThanBudget(a: seq<nat>, b: int)
    requires Increasing(a) && forall n | n in a :: 1 <= n < b
    ensures a == [] || |a| <= a[|a| - 1] <= b - 1
  {
    if a != [] {
      var rest := a[..|a| - 1];
      assert forall n | n in rest :: n in a;
      FewerThanBudget(rest, b);
      assert a[|a| - 1] in a;
    }
  }

  /** For a safe budget the attempts of a job strictly increase and stay below the budget, so
      that at most b - 1 executions are ever created, whatever the cache forgets. */
  lemma BudgetHolds(monitors: map<Id, Monitor>, m: Id, x: string, evs: seq<Event>)
    requires (forall m | m in monitors :: PlainId(m)) && m in monitors && x != ""
    requires SafeBudget(monitors[m].Budget(), x)
    ensures var a, b := Attempts(Run(Start(monitors), evs).execs, m, x), monitors[m].Budget();
      && Increasing(a) && (forall n | n in a :: 1 <= n < b)
      && (a == [] || |a| <= b - 1)
  {
    var b := monitors[m].Budget();
    assert Attempts(Start(monitors).execs, m, x) == [];
    RunKeepsBudget(Start(monitors), evs, m, x, b);
    FewerThanBudget(Attempts(Run(Start(monitors), evs).execs, m, x), b);
  }

  // ---------------------------------------------------------------- where it fails

  /** The world after `n` requests of one job at time 0, none of them refused. */
  function Climbed(monitors: map<Id, Monitor>, m: Id, x: string, n: nat): World {
    World(0, monitors, seq(n, i requires 0 <= i < n => Exec(m, Some(x), i + 1, 0, true)), [],
          if n == 0 then map[] else map[CacheKey(m, x) := CacheEntry(n, false, None, TTL_MS)])
  }

  lemma Climb(monitors: map<Id, Monitor>, m: Id, p: Id, x: string, n: nat)
    requires m in monitors && monitors[m].project == p && x != "" && n + 1 < monitors[m].Budget()
    ensures Apply(Climbed(monitors, m, x, n), Request(m, p, Some(x))) == Climbed(monitors, m, x, n + 1)
  {
    var w, next := Climbed(monitors, m, x, n), Climbed(monitors, m, x, n + 1);
    assert next.execs == w.execs + [Exec(m, Some(x), n + 1, 0, true)];
    if n == 0 { assert LastAttempt([], m, x) == 0; }
    var w' := Apply(w, Request(m, p, Some(x)));
    assert w'.execs == next.execs && w'.store == next.store && w'.streaks == [];
  }

  /** Some run leads from the start to `w`. */
  ghost predicate Happens(monitors: map<Id, Monitor>, w: World) {
    exists evs :: Run(Start(monitors), evs) == w
  }

  lemma {:induction false} RunThen(w: World, evs: seq<Event>, ev: Event)
    ensures Run(w, evs + [ev]) == Apply(Run(w, evs), ev)
    decreases |evs|
  {
    hide Apply;
    if evs == [] {
      assert [ev][1..] == [];
    } else {
      RunThen(Apply(w, evs[0]), evs[1..], ev);
      assert (evs + [ev])[1..] == evs[1..] + [ev];
    }
  }

  lemma Follow(monitors: map<Id, Monitor>, w: World, ev: Event) returns (w': World)
    requires Happens(monitors, w)
    ensures Happens(monitors, w') && w' == Apply(w, ev)
  {
    hide Apply;
    var evs :| Run(Start(monitors), evs) == w;
    RunThen(Start(monitors), evs, ev);
    w' := Apply(w, ev);
    assert Run(Start(monitors), evs + [ev]) == w';
  }

  lemma {:induction false} ClimbHappens(monitors: map<Id, Monitor>, m: Id, p: Id, x: string, n: nat)
    requires m in monitors && monitors[m].project == p && x != "" && n < monitors[m].Budget()
    ensures Happens(monitors, Climbed(monitors, m, x, n))
  {
    if n == 0 {
      assert Climbed(monitors, m, x, 0) == Start(monitors) == Run(Start(monitors), []);
    } else {
      ClimbHappens(monitors, m, p, x, n - 1);
      Climb(monitors, m, p, x, n - 1);
      var _ := Follow(monitors, Climbed(monitors, m, x, n - 1), Request(m, p, Some(x)));
    }
  }

  lemma NotIncreasing(execs: seq<Exec>, n: nat, m: Id, x: string, at: int)
    requires execs != [] && execs[|execs| - 1] == Exec(m, Some(x), n, 0, true)
    ensures !Increasing(Attempts(execs + [Exec(m, Some(x), n, at, true)], m, x))
    ensures !Increasing(Attempts(execs + [Exec(m, None, 1, at, true)] + [Exec(m, Some(x), n, at, true)], m, x))
  {
    hide Attempts, LastAttempt;
    var rest, last := execs[..|execs| - 1], execs[|execs| - 1];
    assert execs == rest + [last];
    OneMore(rest, last, m, x);
    OneMore(execs, Exec(m, Some(x), n, at, true), m, x);
    OneMore(execs, Exec(m, None, 1, at, true), m, x);
    OneMore(execs + [Exec(m, None, 1, at, true)], Exec(m, Some(x), n, at, true), m, x);
    var before := Attempts(rest, m, x);
    var repeated := before + [n] + [n];
    assert before + [n] + [] + [n] == repeated;
    assert repeated[|before|] == n && repeated[|before| + 1] == n;
    assert !Increasing(repeated);
  }

  /** Six flagged attempts. The detector closes the monitor. */
  lemma SixFlagged(monitors: map<Id, Monitor>, m: Id, p: Id, x: string)
    requires m in monitors && monitors[m].project == p
    ensures Flag(Climbed(monitors, m, x, 6), p, 6) == [Streak(m, true, 0)]
  {
    var w := Climbed(monitors, m, x, 6);
    assert Flag(w, p, 0) == [];
    assert Flag(w, p, 1) == [];
    assert Flag(w, p, 2) == [];
    assert Flag(w, p, 3) == [];
    assert Flag(w, p, 4) == [];
    assert Flag(w, p, 5) == [Streak(m, true, 0)];
    assert ActiveAt(Flag(w, p, 5), 0, m);
  }

  /** A budget of 7 or more: a job at attempt 6 is flagged, the process restarts, a refused
      request seeds the cache with the default of 5, and attempt 6 is handed out again. */
  lemma LargeBudgetRepeatsAnAttempt(monitors: map<Id, Monitor>, m: Id, x: string)
    requires m in monitors && x != "" && monitors[m].Budget() >= 7
    ensures exists w :: Happens(monitors, w) && !Increasing(Attempts(w.execs, m, x))
  {
    var p, k := monitors[m].project, CacheKey(m, x);
    ClimbHappens(monitors, m, p, x, 6);
    SixFlagged(monitors, m, p, x);
    var six := Climbed(monitors, m, x, 6);
    hide Happens, Increasing, Attempts, LastAttempt, Flag, Climbed;
    var w := Follow(monitors, six, Detect(p));
    w := Follow(monitors, w, Restart);
    w := Follow(monitors, w, Tick(3_500_000));
    assert ActiveAt(w.streaks, 0, m);
    w := Follow(monitors, w, Request(m, p, Some(x)));
    assert w.store == map[k := CacheEntry(5, true, Some(3_600_000), 3_800_000)];
    w := Follow(monitors, w, Tick(200_000));
    assert ActiveAt(w.streaks, 0, m);
    w := Follow(monitors, w, Request(m, p, Some(x)));
    assert w.execs == six.execs + [Exec(m, Some(x), 6, 3_700_000, true)];
    NotIncreasing(six.execs, 6, m, x, 3_700_000);
  }

  /** The shared id of anonymous sessions, used as a job id: once the entry has expired, an
      anonymous session restarts the count of the job. */
  lemma SharedIdRepeatsAnAttempt(monitors: map<Id, Monitor>, m: Id)
    requires m in monitors && monitors[m].Budget() >= 3
    ensures exists w :: Happens(monitors, w) && !Increasing(Attempts(w.execs, m, NO_EXTERNAL_ID))
  {
    var p, x := monitors[m].project, NO_EXTERNAL_ID;
    ClimbHappens(monitors, m, p, x, 2);
    var two := Climbed(monitors, m, x, 2);
    hide Happens, Increasing, Attempts, LastAttempt;
    var w := Follow(monitors, two, Tick(300_001));
    w := Follow(monitors, w, Request(m, p, None));
    assert w.execs == two.execs + [Exec(m, None, 1, 300_001, true)];
    w := Follow(monitors, w, Request(m, p, Some(x)));
    assert w.execs == two.execs + [Exec(m, None, 1, 300_001, true)] + [Exec(m, Some(x), 2, 300_001, true)];
    NotIncreasing(two.execs, 2, m, x, 300_001);
  }

  lemma {:induction false} NoneOfTheOther(monitors: map<Id, Monitor>, m: Id, x: string, n: nat, y: string)
    requires y != x
    ensures Attempts(Climbed(monitors, m, x, n).execs, m, y) == []
  {
    if n > 0 {
      NoneOfTheOther(monitors, m, x, n - 1, y);
      assert Climbed(monitors, m, x, n).execs[..n - 1] == Climbed(monitors, m, x, n - 1).execs;
    }
  }

  /** The job spends its budget at time 0. */
  lemma Spends(monitors: map<Id, Monitor>, m: Id, x: string) returns (w: World)
    requires m in monitors && 1 <= monitors[m].Budget() && x != ""
    ensures Happens(monitors, w) && w.now == 0 && w.monitors == monitors && w.streaks == [Streak(m, true, 0)]
    ensures w.execs == Climbed(monitors, m, x, monitors[m].Budget() - 1).execs && w.store.Keys == {CacheKey(m, x)}
  {
    var p, n := monitors[m].project, monitors[m].Budget() - 1;
    ClimbHappens(monitors, m, p, x, n);
    assert n == 0 ==> LastAttempt([], m, x) == 0;
    hide Happens;
    w := Follow(monitors, Climbed(monitors, m, x, n), Request(m, p, Some(x)));
  }

  /** Some job `y` that has never run is refused for its attempts, with the monitor open: another
      job spent its budget, and `y` asked once during the cooldown. */
  lemma RefusedWithoutARun(monitors: map<Id, Monitor>, m: Id, x: string, y: string)
    requires m in monitors && 1 <= monitors[m].Budget() <= 6 && x != "" && y != "" && x != y
    ensures exists w ::
      && Happens(monitors, w) && Attempts(w.execs, m, y) == [] && !Hot(w, m)
      && CreateSession(w, m, monitors[m].project, Some(y)).1.BudgetSpent?
  {
    var p := monitors[m].project;
    NoneOfTheOther(monitors, m, x, monitors[m].Budget() - 1, y);
    assert CacheKey(m, x)[|m| + 2..] == x && CacheKey(m, y)[|m| + 2..] == y;
    hide Happens, Attempts, LastAttempt, Climbed;
    var w := Spends(monitors, m, x);
    assert ActiveAt(w.streaks, 0, m);
    w := Follow(monitors, w, Tick(3_500_000));
    w := Follow(monitors, w, Request(m, p, Some(y)));
    w := Follow(monitors, w, Tick(200_000));
    assert w.store[CacheKey(m, y)] == CacheEntry(5, true, Some(3_600_000), 3_800_000);
  }

  // ---------------------------------------------------------------- without bound

  lemma HappensInv(monitors: map<Id, Monitor>, w: World)
    requires (forall m | m in monitors :: PlainId(m)) && Happens(monitors, w)
    ensures BreakerInv(w) && w.monitors == monitors
  {
    hide BreakerInv, Run;
    var evs :| Run(Start(monitors), evs) == w;
    StartInv(monitors);
    RunKeepsInv(Start(monitors), evs);
    RunKeepsMonitors(Start(monitors), evs);
  }

  /** The last execution is the sixth attempt of the job, just started, and nothing closes the monitor. */
  ghost predicate AtSix(monitors: map<Id, Monitor>, w: World, m: Id, x: string) {
    && Happens(monitors, w) && w.execs != []
    && w.execs[|w.execs| - 1] == Exec(m, Some(x), 6, w.now, true) && ActiveStreak(w.streaks, m) == None
  }

  /** The detector closes the monitor of a running sixth attempt. */
  lemma SixthIsFlagged(w: World, m: Id, x: string)
    requires m in w.monitors && ActiveStreak(w.streaks, m) == None
    requires w.execs != [] && w.execs[|w.execs| - 1] == Exec(m, Some(x), 6, w.now, true)
    ensures var streak := ActiveStreak(Flag(w, w.monitors[m].project, |w.execs|), m);
      streak.Some? && Flag(w, w.monitors[m].project, |w.execs|)[streak.value].lastSeen == w.now
  {
    var p, n := w.monitors[m].project, |w.execs|;
    FlagsExactly(w, p, n, m);
    assert RunningHot(w, p, w.execs[n - 1]);
    hide Flag, RunningHot;
    assert Active(Flag(w, p, n), m);
    FoundActive(Flag(w, p, n), m);
    var i := ActiveStreak(Flag(w, p, n), m).value;
    assert !ActiveAt(w.streaks, i, m);
  }

  lemma SixAgain(monitors: map<Id, Monitor>, w: World, m: Id, x: string) returns (w': World)
    requires (forall m | m in monitors :: PlainId(m)) && m in monitors && x != "" && monitors[m].Budget() >= 7
    requires AtSix(monitors, w, m, x)
    ensures AtSix(monitors, w', m, x) && |Attempts(w'.execs, m, x)| == |Attempts(w.execs, m, x)| + 1
  {
    HappensInv(monitors, w);
    var p, k := monitors[m].project, CacheKey(m, x);
    SixthIsFlagged(w, m, x);
    hide Happens, Attempts, LastAttempt, Flag, BreakerInv, ActiveStreak;
    var w1 := Follow(monitors, w, Detect(p));
    HappensInv(monitors, w1);
    var i := ActiveStreak(w1.streaks, m).value;
    w' := Follow(monitors, w1, Restart);
    w' := Follow(monitors, w', Tick(3_500_000));
    w' := Follow(monitors, w', Request(m, p, Some(x)));
    assert w'.store == map[k := CacheEntry(5, true, Some(w.now + 3_600_000), w.now + 3_800_000)];
    w' := Follow(monitors, w', Tick(200_000));
    w' := Follow(monitors, w', Request(m, p, Some(x)));
    assert w'.streaks == w1.streaks[i := w1.streaks[i].(active := false)];
    assert w'.execs == w.execs + [Exec(m, Some(x), 6, w.now + 3_700_000, true)];
    NoLongerActive(w1, i, m);
    OneMore(w.execs, Exec(m, Some(x), 6, w.now + 3_700_000, true), m, x);
  }

  /** Nothing closes the monitor, and the cache holds nothing against the job that outlasts its TTL. */
  ghost predicate Open(monitors: map<Id, Monitor>, w: World, m: Id, x: string) {
    var k := CacheKey(m, x);
    && Happens(monitors, w) && w.monitors == monitors && ActiveStreak(w.streaks, m) == None
    && (k in w.store ==> !w.store[k].circuitBroken && w.store[k].expiresAt <= w.now + TTL_MS)
  }

  lemma TwoAgain(monitors: map<Id, Monitor>, w: World, m: Id) returns (w': World)
    requires m in monitors && monitors[m].Budget() >= 3 && Open(monitors, w, m, NO_EXTERNAL_ID)
    ensures Open(monitors, w', m, NO_EXTERNAL_ID)
    ensures |Attempts(w'.execs, m, NO_EXTERNAL_ID)| == |Attempts(w.execs, m, NO_EXTERNAL_ID)| + 1
  {
    var p, x := monitors[m].project, NO_EXTERNAL_ID;
    hide Happens, Attempts, LastAttempt, ActiveStreak;
    w' := Follow(monitors, w, Tick(300_001));
    w' := Follow(monitors, w', Request(m, p, None));
    var anonymous, named := Exec(m, None, 1, w'.now, true), Exec(m, Some(x), 2, w'.now, true);
    assert w'.execs == w.execs + [anonymous];
    w' := Follow(monitors, w', Request(m, p, Some(x)));
    assert w'.execs == w.execs + [anonymous] + [named];
    OneMore(w.execs, anonymous, m, x);
    OneMore(w.execs + [anonymous], named, m, x);
  }

  lemma {:induction false} ManySixes(monitors: map<Id, Monitor>, m: Id, x: string, n: nat) returns (w: World)
    requires (forall m | m in monitors :: PlainId(m)) && m in monitors && x != "" && monitors[m].Budget() >= 7
    ensures AtSix(monitors, w, m, x) && |Attempts(w.execs, m, x)| >= n
  {
    if n == 0 {
      w := Climbed(monitors, m, x, 6);
      ClimbHappens(monitors, m, monitors[m].project, x, 6);
    } else {
      w := ManySixes(monitors, m, x, n - 1);
      w := SixAgain(monitors, w, m, x);
    }
  }

  lemma {:induction false} ManyTwos(monitors: map<Id, Monitor>, m: Id, n: nat) returns (w: World)
    requires m in monitors && monitors[m].Budget() >= 3
    ensures Open(monitors, w, m, NO_EXTERNAL_ID) && |Attempts(w.execs, m, NO_EXTERNAL_ID)| >= n
  {
    if n == 0 {
      w := Start(monitors);
      assert Run(w, []) == w;
    } else {
      w := ManyTwos(monitors, m, n - 1);
      w := TwoAgain(monitors, w, m);
    }
  }

  /** No run creates more than `n` executions of the job. */
  ghost predicate AtMostEver(monitors: map<Id, Monitor>, m: Id, x: string, n: nat) {
    forall w | Happens(monitors, w) :: |Attempts(w.execs, m, x)| <= n
  }

  /** An unsafe budget does not bound the executions of the job at all. */
  lemma NoBoundAtAll(monitors: map<Id, Monitor>, m: Id, x: string, n: nat)
    requires (forall m | m in monitors :: PlainId(m)) && m in monitors && x != ""
    requires !SafeBudget(monitors[m].Budget(), x)
    ensures !AtMostEver(monitors, m, x, n)
  {
    hide Attempts, Happens;
    if monitors[m].Budget() >= 7 {
      var w := ManySixes(monitors, m, x, n + 1);
    } else {
      var w := ManyTwos(monitors, m, n + 1);
    }
  }

  /** Attempt numbers strictly increase over every run, at most b - 1 executions of the job are
      ever created, and any number bounds them at all, exactly for the safe budgets. */
  lemma BudgetHoldsExactly(monitors: map<Id, Monitor>, m: Id, x: string)
    requires (forall m | m in monitors :: PlainId(m)) && m in monitors && x != ""
    ensures var b := monitors[m].Budget();
      && ((forall w | Happens(monitors, w) :: Increasing(Attempts(w.execs, m, x))) <==> SafeBudget(b, x))
      && (AtMostEver(monitors, m, x, if b <= 1 then 0 else b - 1) <==> SafeBudget(b, x))
      && ((exists n :: AtMostEver(monitors, m, x, n)) <==> SafeBudget(b, x))
  {
    var b := monitors[m].Budget();
    var most := if b <= 1 then 0 else b - 1;
    if SafeBudget(b, x) {
      forall w | Happens(monitors, w)
        ensures Increasing(Attempts(w.execs, m, x)) && |Attempts(w.execs, m, x)| <= most
      {
        var evs :| Run(Start(monitors), evs) == w;
        BudgetHolds(monitors, m, x, evs);
      }
      hide Attempts, Happens, Increasing;
      assert AtMostEver(monitors, m, x, most);
    } else {
      if b >= 7 { LargeBudgetRepeatsAnAttempt(monitors, m, x); } else { SharedIdRepeatsAnAttempt(monitors, m); }
      forall n ensures !AtMostEver(monitors, m, x, n) { NoBoundAtAll(monitors, m, x, n); }
    }
  }
}
