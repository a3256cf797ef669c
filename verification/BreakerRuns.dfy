/** The circuit breaker over whole runs of one process: session requests, the recursive-retry
    detector, evictions, restarts and the clock, in any order. */
module BreakerRuns {
  import opened Values
  import opened Breaker

  datatype Event =
    | Request(m: Id, p: Id, x: Option<string>)
    | Detect(p: Id)
    | Finish(i: nat)      // an execution completes
    | Sweep               // periodic eviction
    | Restart             // the process loses its memory
    | Tick(ms: nat)

  function Apply(w: World, ev: Event): World {
    match ev
    case Request(m, p, x) => CreateSession(w, m, p, x).0
    case Detect(p) => w.(streaks := Flag(w, p, |w.execs|))
    case Finish(i) => if i < |w.execs| then w.(execs := w.execs[i := w.execs[i].(running := false)]) else w
    case Sweep => w.(store := Evict(w.store, w.now))
    case Restart => w.(store := map[])
    case Tick(ms) => w.(now := w.now + ms)
  }

  function Run(w: World, evs: seq<Event>): World
    decreases |evs|
  {
    if evs == [] then w else Run(Apply(w, evs[0]), evs[1..])
  }

  function Start(monitors: map<Id, Monitor>): World { World(0, monitors, [], [], map[]) }

  // ---------------------------------------------------------------- cache keys

  /** Monitor ids are generated and hold no colon; job ids are arbitrary. */
  predicate PlainId(m: Id) { ':' !in m }

  predicate PlainMonitors(w: World) { forall m | m in w.monitors :: PlainId(m) }

  lemma CacheKeyInjective(m: Id, x: string, m': Id, x': string)
    requires PlainId(m) && PlainId(m') && CacheKey(m, x) == CacheKey(m', x')
    ensures m == m' && x == x'
  {
    var k := CacheKey(m, x);
    assert k[|m|] == ':' && k[|m'|] == ':';
    assert forall i | 0 <= i < |m| :: k[i] == m[i];
    assert forall i | 0 <= i < |m'| :: k[i] == m'[i];
    assert |m| == |m'|;
    assert k[..|m|] == m && k[..|m'|] == m';
    assert k[|m| + 2..] == x && k[|m'| + 2..] == x';
  }

  // ---------------------------------------------------------------- the invariant

  ghost predicate OneActive(streaks: seq<Streak>) {
    forall i: nat, j: nat, m | ActiveAt(streaks, i, m) && ActiveAt(streaks, j, m) :: i == j
  }

  /** The database keeps monitor `m` closed at least until time `t`. */
  ghost predicate ClosedUntil(streaks: seq<Streak>, m: Id, t: int) {
    exists i: nat :: ActiveAt(streaks, i, m) && streaks[i].lastSeen + COOLDOWN_MS >= t
  }

  /** A cache entry that blocks monitor `m` is backed by the database for as long as it blocks. */
  ghost predicate EntryBacked(streaks: seq<Streak>, now: int, m: Id, entry: CacheEntry) {
    entry.circuitBroken ==>
      entry.cooldownUntil.Some? && (entry.cooldownUntil.value > now ==> ClosedUntil(streaks, m, entry.cooldownUntil.value))
  }

  ghost predicate Backed(w: World) {
    forall m, x | PlainId(m) && CacheKey(m, x) in w.store ::
      EntryBacked(w.streaks, w.now, m, w.store[CacheKey(m, x)])
  }

  ghost predicate BreakerInv(w: World) {
    && w.now >= 0 && PlainMonitors(w) && OneActive(w.streaks) && Backed(w)
    && forall i | 0 <= i < |w.streaks| :: w.streaks[i].lastSeen <= w.now
  }

  /** The database check alone rejects a session of `m`. */
  ghost predicate Hot(w: World, m: Id) {
    exists i: nat :: ActiveAt(w.streaks, i, m) && w.now - w.streaks[i].lastSeen < COOLDOWN_MS
  }

  lemma AdmitIsNoCooldown()
    ensures forall w: World, m, x | m in w.monitors :: !Admit(w, m, x).1.Cooldown?
  {
  }

  /** Cache transparency: whether a request is turned away by the cooldown depends on the
      database alone, whatever the cache holds. */
  lemma CacheIsTransparent(w: World, m: Id, p: Id, x: Option<string>)
    requires BreakerInv(w) && m in w.monitors && w.monitors[m].project == p
    ensures CreateSession(w, m, p, x).1.Cooldown? <==> Hot(w, m)
  {
    AdmitIsNoCooldown();
    hide Admit, TripBreaker;
    var k := CacheKey(m, Slot(x));
    if IsBroken(w.store, k, w.now).1 {
      assert EntryBacked(w.streaks, w.now, m, w.store[k]);
    }
  }

  /** In particular two worlds with the same database and clock turn away the same requests. */
  lemma CacheNeverDecides(w: World, w': World, m: Id, p: Id, x: Option<string>)
    requires BreakerInv(w) && BreakerInv(w') && w' == w.(store := w'.store)
    requires m in w.monitors && w.monitors[m].project == p
    ensures CreateSession(w, m, p, x).1.Cooldown? <==> CreateSession(w', m, p, x).1.Cooldown?
  {
    CacheIsTransparent(w, m, p, x);
    CacheIsTransparent(w', m, p, x);
    assert Hot(w, m) <==> Hot(w', m);
  }

  // ---------------------------------------------------------------- every step keeps it

  /** The database closes `m` in the second world at least as long as in the first,
      as far as the future is concerned. */
  ghost predicate StaysClosed(streaks: seq<Streak>, streaks': seq<Streak>, now: int) {
    forall m, t | t > now && ClosedUntil(streaks, m, t) :: ClosedUntil(streaks', m, t)
  }

  /** One slot of the cache is rewritten. */
  lemma SlotKeepsBacked(w: World, w': World, m: Id, x: string)
    requires Backed(w) && PlainId(m) && w'.now == w.now && StaysClosed(w.streaks, w'.streaks, w.now)
    requires forall k | k in w'.store && k != CacheKey(m, x) :: k in w.store && w'.store[k] == w.store[k]
    requires CacheKey(m, x) in w'.store ==> EntryBacked(w'.streaks, w.now, m, w'.store[CacheKey(m, x)])
    ensures Backed(w')
  {
    forall m', x' | PlainId(m') && CacheKey(m', x') in w'.store
      ensures EntryBacked(w'.streaks, w'.now, m', w'.store[CacheKey(m', x')])
    {
      if CacheKey(m', x') == CacheKey(m, x) {
        CacheKeyInjective(m, x, m', x');
      } else {
        assert EntryBacked(w.streaks, w.now, m', w.store[CacheKey(m', x')]);
      }
    }
  }

  lemma SeenAgain(streaks: seq<Streak>, i: nat, streak: Streak, now: int)
    requires i < |streaks| && streak.monitor == streaks[i].monitor && OneActive(streaks)
    requires streak.active ==> streaks[i].active && streak.lastSeen >= streaks[i].lastSeen
    requires !streak.active ==> now - streaks[i].lastSeen >= COOLDOWN_MS
    ensures OneActive(streaks[i := streak]) && StaysClosed(streaks, streaks[i := streak], now)
  {
    var streaks' := streaks[i := streak];
    assert forall j: nat, m | ActiveAt(streaks', j, m) :: ActiveAt(streaks, j, m);
    forall m, t | t > now && ClosedUntil(streaks, m, t)
      ensures ClosedUntil(streaks', m, t)
    {
      var j: nat :| ActiveAt(streaks, j, m) && streaks[j].lastSeen + COOLDOWN_MS >= t;
      assert ActiveAt(streaks', j, m);
    }
  }

  lemma NewStreak(streaks: seq<Streak>, streak: Streak, now: int)
    requires OneActive(streaks) && ActiveStreak(streaks, streak.monitor).None?
    ensures OneActive(streaks + [streak]) && StaysClosed(streaks, streaks + [streak], now)
  {
    var streaks' := streaks + [streak];
    assert forall j: nat, m | ActiveAt(streaks', j, m) && j < |streaks| :: ActiveAt(streaks, j, m);
    forall m, t | t > now && ClosedUntil(streaks, m, t)
      ensures ClosedUntil(streaks', m, t)
    {
      var j: nat :| ActiveAt(streaks, j, m) && streaks[j].lastSeen + COOLDOWN_MS >= t;
      assert ActiveAt(streaks', j, m);
    }
  }

  lemma AdmitKeepsInv(w: World, m: Id, x: Option<string>)
    requires BreakerInv(w) && m in w.monitors
    requires CacheKey(m, Slot(x)) in w.store ==> !w.store[CacheKey(m, Slot(x))].circuitBroken
    ensures BreakerInv(Admit(w, m, x).0)
  {
    var k := CacheKey(m, Slot(x));
    var w' := Admit(w, m, x).0;
    if Admit(w, m, x).1.BudgetSpent? {
      var existing := ActiveStreak(w.streaks, m);
      if existing.None? {
        NewStreak(w.streaks, Streak(m, true, w.now), w.now);
        assert ActiveAt(w'.streaks, |w.streaks|, m);
      } else {
        SeenAgain(w.streaks, existing.value, w.streaks[existing.value].(lastSeen := w.now), w.now);
        assert ActiveAt(w'.streaks, existing.value, m);
      }
      assert ClosedUntil(w'.streaks, m, w.now + COOLDOWN_MS);
    }
    SlotKeepsBacked(w, w', m, Slot(x));
  }

  lemma RequestKeepsInv(w: World, m: Id, p: Id, x: Option<string>)
    requires BreakerInv(w)
    ensures BreakerInv(CreateSession(w, m, p, x).0)
  {
    if m in w.monitors && w.monitors[m].project == p {
      var k, now := CacheKey(m, Slot(x)), w.now;
      var (store, broken) := IsBroken(w.store, k, now);
      var w1 := w.(store := store);
      SlotKeepsBacked(w, w1, m, Slot(x));
      var streak := ActiveStreak(w.streaks, m);
      if !broken && streak.None? {
        AdmitKeepsInv(w1, m, x);
      } else if !broken {
        var i, age := streak.value, now - w.streaks[streak.value].lastSeen;
        if age < COOLDOWN_MS {
          var w2 := w.(store := TripBreaker(store, k, COOLDOWN_MS - age, now));
          assert ClosedUntil(w.streaks, m, now + COOLDOWN_MS - age);
          SlotKeepsBacked(w1, w2, m, Slot(x));
        } else {
          var w2 := w1.(streaks := w.streaks[i := w.streaks[i].(active := false)]);
          SeenAgain(w.streaks, i, w.streaks[i].(active := false), now);
          SlotKeepsBacked(w1, w2, m, Slot(x));
          AdmitKeepsInv(w2, m, x);
        }
      }
    }
  }

  lemma {:induction false} FlagKeeps(w: World, p: Id, n: nat)
    requires n <= |w.execs| && OneActive(w.streaks)
    requires forall i | 0 <= i < |w.streaks| :: w.streaks[i].lastSeen <= w.now
    ensures OneActive(Flag(w, p, n)) && StaysClosed(w.streaks, Flag(w, p, n), w.now)
    ensures forall i | 0 <= i < |Flag(w, p, n)| :: Flag(w, p, n)[i].lastSeen <= w.now
  {
    if n != 0 {
      FlagKeeps(w, p, n - 1);
      var streaks, exec := Flag(w, p, n - 1), w.execs[n - 1];
      if Suspicious(w, p, exec) && ActiveStreak(streaks, exec.monitor).None? {
        NewStreak(streaks, Streak(exec.monitor, true, w.now), w.now);
      }
    }
  }

  ghost predicate Active(streaks: seq<Streak>, m: Id) {
    exists i: nat :: ActiveAt(streaks, i, m)
  }

  lemma PushActive(streaks: seq<Streak>, streak: Streak, m: Id)
    requires streak.active
    ensures Active(streaks + [streak], m) <==> Active(streaks, m) || streak.monitor == m
  {
    if i: nat :| ActiveAt(streaks, i, m) { assert ActiveAt(streaks + [streak], i, m); }
    if streak.monitor == m { assert ActiveAt(streaks + [streak], |streaks|, m); }
    if i: nat :| ActiveAt(streaks + [streak], i, m) { assert i < |streaks| ==> ActiveAt(streaks, i, m); }
  }

  /** An execution of a monitor of the project that has been running since the last three hours, at
      attempt five or more. */
  predicate RunningHot(w: World, p: Id, exec: Exec) {
    && exec.running && exec.attempt >= 5 && w.now - exec.startedAt <= 3 * 60 * 60 * 1000
    && exec.monitor in w.monitors && w.monitors[exec.monitor].project == p
  }

  /** The detector leaves existing patterns alone, and afterwards a monitor has an active streak
      exactly if it had one before or one of the executions looked at is at a high attempt. A new
      streak is dated to the present. */
  lemma {:induction false} FlagsExactly(w: World, p: Id, n: nat, m: Id)
    requires n <= |w.execs|
    ensures w.streaks <= Flag(w, p, n)
    ensures forall i | |w.streaks| <= i < |Flag(w, p, n)| ::
      Flag(w, p, n)[i].active && Flag(w, p, n)[i].lastSeen == w.now
    ensures Active(Flag(w, p, n), m) <==>
      Active(w.streaks, m) || exists i :: 0 <= i < n && RunningHot(w, p, w.execs[i]) && w.execs[i].monitor == m
  {
    hide Active;
    assert forall exec :: Suspicious(w, p, exec) <==> RunningHot(w, p, exec);
    hide Suspicious, RunningHot;
    if n != 0 {
      FlagsExactly(w, p, n - 1, m);
      var streaks, exec := Flag(w, p, n - 1), w.execs[n - 1];
      PushActive(streaks, Streak(exec.monitor, true, w.now), m);
      FoundActive(streaks, exec.monitor);
    }
  }

  lemma FoundActive(streaks: seq<Streak>, m: Id)
    ensures Active(streaks, m) <==> ActiveStreak(streaks, m).Some?
  {
  }

  lemma StepKeepsInv(w: World, ev: Event)
    requires BreakerInv(w)
    ensures BreakerInv(Apply(w, ev))
  {
    match ev {
      case Request(m, p, x) => RequestKeepsInv(w, m, p, x);
      case Detect(p) =>
        FlagKeeps(w, p, |w.execs|);
        forall m, x | PlainId(m) && CacheKey(m, x) in w.store
          ensures EntryBacked(Apply(w, ev).streaks, w.now, m, w.store[CacheKey(m, x)])
        {
          assert EntryBacked(w.streaks, w.now, m, w.store[CacheKey(m, x)]);
        }
      case Restart =>
      case Finish(_) =>
      case _ =>
        forall m, x | PlainId(m) && CacheKey(m, x) in Apply(w, ev).store
          ensures EntryBacked(w.streaks, Apply(w, ev).now, m, Apply(w, ev).store[CacheKey(m, x)])
        {
          assert EntryBacked(w.streaks, w.now, m, w.store[CacheKey(m, x)]);
        }
    }
  }

  lemma {:induction false} RunKeepsInv(w: World, evs: seq<Event>)
    requires BreakerInv(w)
    ensures BreakerInv(Run(w, evs))
    decreases |evs|
  {
    hide Apply, BreakerInv;
    if evs != [] {
      StepKeepsInv(w, evs[0]);
      RunKeepsInv(Apply(w, evs[0]), evs[1..]);
    }
  }

  // ---------------------------------------------------------------- an hour of peace

  lemma AdmitCloses(w: World, m: Id, x: Option<string>)
    requires m in w.monitors && Admit(w, m, x).1.BudgetSpent?
    ensures ClosedUntil(Admit(w, m, x).0.streaks, m, w.now + COOLDOWN_MS)
  {
    var existing := ActiveStreak(w.streaks, m);
    assert ActiveAt(Admit(w, m, x).0.streaks, if existing.None? then |w.streaks| else existing.value, m);
  }

  /** Exhausting the budget closes the monitor for an hour. */
  lemma TripCloses(w: World, m: Id, p: Id, x: Option<string>)
    requires CreateSession(w, m, p, x).1.BudgetSpent?
    ensures ClosedUntil(CreateSession(w, m, p, x).0.streaks, m, w.now + COOLDOWN_MS)
  {
    var w1 := w.(store := IsBroken(w.store, CacheKey(m, Slot(x)), w.now).0);
    var streak := ActiveStreak(w.streaks, m);
    if streak.None? {
      AdmitCloses(w1, m, x);
    } else {
      AdmitCloses(w1.(streaks := w.streaks[streak.value := w.streaks[streak.value].(active := false)]), m, x);
    }
  }

  lemma StepStaysClosed(w: World, ev: Event, m: Id, t: int)
    requires BreakerInv(w) && ClosedUntil(w.streaks, m, t) && w.now < t
    ensures ClosedUntil(Apply(w, ev).streaks, m, t)
    ensures |Apply(w, ev).execs| >= |w.execs|
    ensures forall i | |w.execs| <= i < |Apply(w, ev).execs| :: Apply(w, ev).execs[i].monitor != m
  {
    match ev {
      case Request(m', p, x) =>
        if m' in w.monitors && w.monitors[m'].project == p {
          CacheIsTransparent(w, m', p, x);
          if m' == m {
            var i: nat :| ActiveAt(w.streaks, i, m) && w.streaks[i].lastSeen + COOLDOWN_MS >= t;
            assert Hot(w, m);
          } else {
            OtherMonitorStaysClosed(w, m', p, x, m, t);
          }
        }
      case Detect(p) => FlagKeeps(w, p, |w.execs|);
      case _ =>
    }
  }

  lemma OtherMonitorStaysClosed(w: World, m': Id, p: Id, x: Option<string>, m: Id, t: int)
    requires m' != m && ClosedUntil(w.streaks, m, t)
    ensures ClosedUntil(CreateSession(w, m', p, x).0.streaks, m, t)
  {
    var i: nat :| ActiveAt(w.streaks, i, m) && w.streaks[i].lastSeen + COOLDOWN_MS >= t;
    var streaks := CreateSession(w, m', p, x).0.streaks;
    assert ActiveAt(streaks, i, m) && streaks[i] == w.streaks[i];
  }

  /** Executions are only ever added, stamped with the present. */
  ghost predicate Grown(execs: seq<Exec>, execs': seq<Exec>, now: int) {
    && |execs'| >= |execs|
    && (forall i | 0 <= i < |execs| :: execs'[i] == execs[i].(running := execs'[i].running))
    && (forall i | |execs| <= i < |execs'| :: execs'[i].startedAt >= now)
  }

  lemma {:induction false} RunGrows(w: World, evs: seq<Event>)
    ensures Grown(w.execs, Run(w, evs).execs, w.now)
    decreases |evs|
  {
    if evs != [] {
      var w1 := Apply(w, evs[0]);
      assert w1.now >= w.now && Grown(w.execs, w1.execs, w.now);
      hide Apply;
      RunGrows(w1, evs[1..]);
    }
  }

  /** After a trip at time T no session of the monitor, whatever its job id, is created
      before T + 60 min, through evictions, restarts and further requests. */
  lemma {:induction false} NoSessionWhileClosed(w: World, evs: seq<Event>, m: Id, t: int)
    requires BreakerInv(w) && ClosedUntil(w.streaks, m, t)
    ensures Grown(w.execs, Run(w, evs).execs, w.now)
    ensures forall i | |w.execs| <= i < |Run(w, evs).execs| && Run(w, evs).execs[i].monitor == m ::
      Run(w, evs).execs[i].startedAt >= t
    decreases |evs|
  {
    RunGrows(w, evs);
    if evs != [] && w.now < t {
      var w1 := Apply(w, evs[0]);
      StepKeepsInv(w, evs[0]);
      StepStaysClosed(w, evs[0], m, t);
      RunGrows(w1, evs[1..]);
      NoSessionWhileClosed(w1, evs[1..], m, t);
    }
  }

  lemma StartInv(monitors: map<Id, Monitor>)
    requires forall m | m in monitors :: PlainId(m)
    ensures BreakerInv(Start(monitors))
  {
  }

  lemma {:induction false} RunKeepsMonitors(w: World, evs: seq<Event>)
    ensures Run(w, evs).monitors == w.monitors
    decreases |evs|
  {
    if evs != [] {
      assert Apply(w, evs[0]).monitors == w.monitors;
      hide Apply;
      RunKeepsMonitors(Apply(w, evs[0]), evs[1..]);
    }
  }

  /** After any run the cache blocks a job only if the database would, and a request is turned
      away by the cooldown exactly when it would be with an empty cache. */
  lemma TransparentOverRuns(monitors: map<Id, Monitor>, evs: seq<Event>, m: Id, p: Id, x: Option<string>)
    requires forall m | m in monitors :: PlainId(m)
    requires m in monitors && monitors[m].project == p
    ensures var w := Run(Start(monitors), evs);
      && (IsBroken(w.store, CacheKey(m, Slot(x)), w.now).1 ==> Hot(w, m))
      && (CreateSession(w, m, p, x).1.Cooldown? <==> CreateSession(w.(store := map[]), m, p, x).1.Cooldown?)
  {
    var w := Run(Start(monitors), evs);
    StartInv(monitors);
    RunKeepsInv(Start(monitors), evs);
    RunKeepsMonitors(Start(monitors), evs);
    CacheIsTransparent(w, m, p, x);
    CacheNeverDecides(w, w.(store := map[]), m, p, x);
  }

  lemma AnHourOfPeace(monitors: map<Id, Monitor>, before: seq<Event>, m: Id, p: Id, x: Option<string>, after: seq<Event>)
    requires forall m | m in monitors :: PlainId(m)
    requires CreateSession(Run(Start(monitors), before), m, p, x).1.BudgetSpent?
    ensures var w := Run(Start(monitors), before);
      var tripped := CreateSession(w, m, p, x).0;
      var end := Run(tripped, after);
      && |end.execs| >= |tripped.execs|
      && forall i | |tripped.execs| <= i < |end.execs| && end.execs[i].monitor == m ::
           end.execs[i].startedAt >= w.now + COOLDOWN_MS
  {
    StartInv(monitors);
    RunKeepsInv(Start(monitors), before);
    var w := Run(Start(monitors), before);
    StepKeepsInv(w, Request(m, p, x));
    TripCloses(w, m, p, x);
    NoSessionWhileClosed(CreateSession(w, m, p, x).0, after, m, w.now + COOLDOWN_MS);
  }

  // ---------------------------------------------------------------- when a monitor opens again

  /** The number of the next attempt of a job: after the cached one for as long as the entry lives,
      else after the last one of the database, which knows no anonymous jobs. */
  function Upcoming(w: World, m: Id, x: Option<string>): nat {
    var k := CacheKey(m, Slot(x));
    if k in w.store && w.now <= w.store[k].expiresAt then w.store[k].attempt + 1
    else if Present(x) then LastAttempt(w.execs, m, x.value) + 1
    else 1
  }

  /** The configured number of attempts; five without a policy. */
  function AttemptsAllowed(monitor: Monitor): int {
    match monitor.maxAttempts case None => 5 case Some(n) => n
  }

  /** What a request is told, by the state before it: the database alone decides on the cooldown,
      and what passes it is admitted exactly if the upcoming attempt is below the budget. */
  lemma AdmittedExactly(w: World, m: Id, p: Id, x: Option<string>)
    requires BreakerInv(w) && m in w.monitors && w.monitors[m].project == p
    ensures CreateSession(w, m, p, x).1 ==
      if Hot(w, m) then Cooldown
      else if Upcoming(w, m, x) >= AttemptsAllowed(w.monitors[m]) then BudgetSpent
      else Created(Upcoming(w, m, x))
  {
    CacheIsTransparent(w, m, p, x);
    hide BreakerInv, Hot, LastAttempt, ActiveStreak;
  }

  /** The same over every run. */
  lemma AdmittedOverRuns(monitors: map<Id, Monitor>, evs: seq<Event>, m: Id, x: Option<string>)
    requires forall m | m in monitors :: PlainId(m)
    requires m in monitors
    ensures var w := Run(Start(monitors), evs);
      CreateSession(w, m, monitors[m].project, x).1 ==
        if Hot(w, m) then Cooldown
        else if Upcoming(w, m, x) >= AttemptsAllowed(monitors[m]) then BudgetSpent
        else Created(Upcoming(w, m, x))
  {
    StartInv(monitors);
    RunKeepsInv(Start(monitors), evs);
    RunKeepsMonitors(Start(monitors), evs);
    AdmittedExactly(Run(Start(monitors), evs), m, monitors[m].project, x);
  }

  /** A job without a cache entry that asks during the cooldown is taken for one at attempt 5. If
      it asks again after the cooldown and before the entry expires, it is refused for another
      hour by every budget up to 6, although it may never have run. */
  lemma AskingTooEarlyClosesAgain(w: World, m: Id, p: Id, x: Option<string>, wait: nat)
    requires BreakerInv(w) && m in w.monitors && w.monitors[m].project == p
    requires Hot(w, m) && CacheKey(m, Slot(x)) !in w.store && wait <= TTL_MS
    requires !Hot(Apply(w, Tick(wait)), m)
    ensures var w' := Apply(Apply(w, Request(m, p, x)), Tick(wait));
      CreateSession(w', m, p, x).1 == if w.monitors[m].Budget() <= 6 then BudgetSpent else Created(6)
  {
    AdmittedExactly(w, m, p, x);
    StepKeepsInv(w, Request(m, p, x));
    var w1 := Apply(w, Request(m, p, x));
    StepKeepsInv(w1, Tick(wait));
    hide BreakerInv, LastAttempt;
    assert w1.streaks == w.streaks && w1.store[CacheKey(m, Slot(x))].attempt == 5;
    AdmittedExactly(Apply(w1, Tick(wait)), m, p, x);
  }

  // ---------------------------------------------------------------- what a request leaves behind

  /** Unknown monitors and monitors of other projects are refused without a trace. */
  lemma StrangersAreRefused(w: World, m: Id, p: Id, x: Option<string>)
    ensures CreateSession(w, m, p, x).1 == MonitorNotFound <==> m !in w.monitors
    ensures CreateSession(w, m, p, x).1 == Unauthorized <==> m in w.monitors && w.monitors[m].project != p
    ensures m !in w.monitors || w.monitors[m].project != p ==> CreateSession(w, m, p, x).0 == w
  {
  }

  lemma NoLongerActive(w: World, i: nat, m: Id)
    requires BreakerInv(w) && ActiveAt(w.streaks, i, m)
    ensures ActiveStreak(w.streaks[i := w.streaks[i].(active := false)], m) == None
  {
    var streaks := w.streaks[i := w.streaks[i].(active := false)];
    assert forall j: nat | ActiveAt(streaks, j, m) :: ActiveAt(w.streaks, j, m);
  }

  /** What the cache holds of a job after a request, and what happens to the others: nothing. */
  lemma RequestLeaves(w: World, m: Id, p: Id, x: Option<string>)
    requires BreakerInv(w) && m in w.monitors && w.monitors[m].project == p
    ensures var (w', outcome) := CreateSession(w, m, p, x);
      var k, now := CacheKey(m, Slot(x)), w.now;
      && w' == w.(store := w'.store, streaks := w'.streaks, execs := w'.execs)
      && k in w'.store
      && (forall j | j != k :: (j in w'.store <==> j in w.store) && (j in w.store ==> w'.store[j] == w.store[j]))
      && var entry := w'.store[k];
         match outcome
         case Created(attempt) =>
           && w'.execs == w.execs + [Exec(m, x, attempt, now, true)] && !Active(w'.streaks, m)
           && entry.attempt == attempt && !entry.circuitBroken && entry.expiresAt == now + 300_000
         case BudgetSpent =>
           && w'.execs == w.execs && ClosedUntil(w'.streaks, m, now + 3_600_000)
           && entry.circuitBroken && entry.cooldownUntil == Some(now + 3_600_000) && entry.expiresAt == now + 300_000
           && entry.attempt == (if k in w.store && now <= w.store[k].expiresAt then w.store[k].attempt else 5)
         case Cooldown =>
           && w'.execs == w.execs && w'.streaks == w.streaks && entry.circuitBroken
           && entry.attempt == (if k in w.store then w.store[k].attempt else 5)
           && entry.cooldownUntil.Some? && entry.cooldownUntil.value > now
           && ClosedUntil(w.streaks, m, entry.cooldownUntil.value)
         case _ => false
  {
    CacheIsTransparent(w, m, p, x);
    AdmittedExactly(w, m, p, x);
    StepKeepsInv(w, Request(m, p, x));
    var streak := ActiveStreak(w.streaks, m);
    FoundActive(CreateSession(w, m, p, x).0.streaks, m);
    if streak.Some? { NoLongerActive(w, streak.value, m); }
    if CreateSession(w, m, p, x).1.BudgetSpent? { TripCloses(w, m, p, x); }
    hide LastAttempt, Active;
  }

  /** After an admitted attempt the next one, before the entry expires, is one more. */
  lemma NextIsOneMore(w: World, m: Id, p: Id, x: Option<string>, wait: nat)
    requires BreakerInv(w) && CreateSession(w, m, p, x).1.Created? && wait <= 300_000
    ensures var n, w' := CreateSession(w, m, p, x).1.attempt, Apply(Apply(w, Request(m, p, x)), Tick(wait));
      CreateSession(w', m, p, x).1 == if n + 1 >= w.monitors[m].Budget() then BudgetSpent else Created(n + 1)
  {
    RequestLeaves(w, m, p, x);
    StepKeepsInv(w, Request(m, p, x));
    var w1 := Apply(w, Request(m, p, x));
    StepKeepsInv(w1, Tick(wait));
    AdmittedExactly(Apply(w1, Tick(wait)), m, p, x);
  }

  /** The sweep removes the expired entries and no others, and no request is told anything else
      because of it. */
  lemma SweepIsUnnoticed(w: World, m: Id, p: Id, x: Option<string>)
    requires BreakerInv(w)
    ensures var w' := Apply(w, Sweep);
      && w' == w.(store := w'.store)
      && (forall k :: k in w'.store <==> k in w.store && w.store[k].expiresAt >= w.now)
      && (forall k | k in w'.store :: w'.store[k] == w.store[k])
      && CreateSession(w', m, p, x).1 == CreateSession(w, m, p, x).1
  {
    StepKeepsInv(w, Sweep);
    var w' := Apply(w, Sweep);
    assert Hot(w', m) <==> Hot(w, m);
    StrangersAreRefused(w, m, p, x);
    StrangersAreRefused(w', m, p, x);
    if m in w.monitors && w.monitors[m].project == p {
      AdmittedExactly(w, m, p, x);
      AdmittedExactly(w', m, p, x);
    }
    hide BreakerInv, CreateSession, Hot;
  }
}
