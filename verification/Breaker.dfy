/** The circuit breaker: the in-memory LoopDetectionCache in front of the database
    checks of `createSession`. Times are in milliseconds. */
module Breaker {
  import opened Values

  type Id = string

  const TTL_MS := 300_000
  const COOLDOWN_MS := 3_600_000
  const NO_EXTERNAL_ID := "__no_external_id__"

  // ---------------------------------------------------------------- LoopDetectionCache

  datatype CacheEntry = CacheEntry(attempt: nat, circuitBroken: bool, cooldownUntil: Option<int>, expiresAt: int)

  type Store = map<string, CacheEntry>

  function CacheKey(m: Id, x: string): string { m + "::" + x }

  function Get(store: Store, k: string, now: int): (r: (Store, Option<CacheEntry>)) {
    if k !in store then (store, None)
    else if store[k].expiresAt < now then (store - {k}, None)
    else (store, Some(store[k]))
  }

  function SetAttempt(store: Store, k: string, attempt: nat, now: int): Store {
    store[k := CacheEntry(attempt, k in store && store[k].circuitBroken,
                          if k in store then store[k].cooldownUntil else None, now + TTL_MS)]
  }

  function TripBreaker(store: Store, k: string, cooldown: int, now: int): Store {
    store[k := CacheEntry(if k in store then store[k].attempt else 5, true, Some(now + cooldown), now + TTL_MS)]
  }

  function Remaining(entry: CacheEntry, now: int): int {
    (match entry.cooldownUntil case None => 0 case Some(t) => t) - now
  }

  function IsBroken(store: Store, k: string, now: int): (r: (Store, bool)) {
    if k !in store || !store[k].circuitBroken then (store, false)
    else if Remaining(store[k], now) <= 0
    then (store[k := store[k].(circuitBroken := false, cooldownUntil := None)], false)
    else (store, true)
  }

  function Evict(store: Store, now: int): Store {
    map k | k in store && !(store[k].expiresAt < now) :: store[k]
  }

  class LoopDetectionCache {
    var store: Store

    constructor ()
      ensures store == map[]
    {
      store := map[];
    }

    method GetEntry(m: Id, x: string, now: int) returns (entry: Option<CacheEntry>)
      modifies this
      ensures (store, entry) == Get(old(store), CacheKey(m, x), now)
    {
      var k := CacheKey(m, x);
      if k !in store {
        return None;
      }
      if store[k].expiresAt < now {
        store := store - {k};
        return None;
      }
      return Some(store[k]);
    }

    method RecordAttempt(m: Id, x: string, attempt: nat, now: int)
      modifies this
      ensures store == SetAttempt(old(store), CacheKey(m, x), attempt, now)
    {
      var k := CacheKey(m, x);
      var circuitBroken, cooldownUntil := false, None;
      if k in store {
        circuitBroken, cooldownUntil := store[k].circuitBroken, store[k].cooldownUntil;
      }
      store := store[k := CacheEntry(attempt, circuitBroken, cooldownUntil, now + TTL_MS)];
    }

    method Trip(m: Id, x: string, cooldown: int, now: int)
      modifies this
      ensures store == TripBreaker(old(store), CacheKey(m, x), cooldown, now)
    {
      var k := CacheKey(m, x);
      var attempt := 5;
      if k in store {
        attempt := store[k].attempt;
      }
      store := store[k := CacheEntry(attempt, true, Some(now + cooldown), now + TTL_MS)];
    }

    method CheckBroken(m: Id, x: string, now: int) returns (broken: bool, remaining: int)
      modifies this
      ensures (store, broken) == IsBroken(old(store), CacheKey(m, x), now)
      ensures remaining == if broken then Remaining(old(store)[CacheKey(m, x)], now) else 0
      ensures remaining > 0 <==> broken
    {
      var k := CacheKey(m, x);
      if k !in store || !store[k].circuitBroken {
        return false, 0;
      }
      remaining := Remaining(store[k], now);
      if remaining <= 0 {
        store := store[k := store[k].(circuitBroken := false, cooldownUntil := None)];
        return false, 0;
      }
      return true, remaining;
    }

    /** The periodic sweep: deletes the expired entries one by one. */
    method EvictExpired(now: int)
      modifies this
      ensures store == Evict(old(store), now)
    {
      var todo := store.Keys;
      while todo != {}
        invariant todo <= old(store).Keys
        invariant forall k :: k in store <==> k in old(store) && (k in todo || !(old(store)[k].expiresAt < now))
        invariant forall k | k in store :: store[k] == old(store)[k]
        decreases |todo|
      {
        var k :| k in todo;
        todo := todo - {k};
        if store[k].expiresAt < now {
          store := store - {k};
        }
      }
    }
  }

  // ---------------------------------------------------------------- the database

  datatype Monitor = Monitor(project: Id, maxAttempts: Option<int>) {
    /** `retryPolicy?.maxAttempts ?? 5` */
    function Budget(): int { if maxAttempts.Some? then maxAttempts.value else 5 }
  }

  datatype Exec = Exec(monitor: Id, externalId: Option<string>, attempt: nat, startedAt: int, running: bool)

  /** A failure pattern of type STREAK. */
  datatype Streak = Streak(monitor: Id, active: bool, lastSeen: int)

  datatype World = World(now: int, monitors: map<Id, Monitor>, execs: seq<Exec>, streaks: seq<Streak>, store: Store)

  datatype Outcome = Created(attempt: nat) | Cooldown | BudgetSpent | MonitorNotFound | Unauthorized

  predicate ActiveAt(streaks: seq<Streak>, i: nat, m: Id) {
    i < |streaks| && streaks[i].monitor == m && streaks[i].active
  }

  /** The first active streak of a monitor; BreakerInv says that there is at most one. */
  function ActiveStreak(streaks: seq<Streak>, m: Id): (r: Option<nat>)
    ensures r.Some? ==> ActiveAt(streaks, r.value, m)
    ensures r.None? ==> forall i: nat :: !ActiveAt(streaks, i, m)
  {
    if streaks == [] then None
    else if ActiveAt(streaks, |streaks| - 1, m) then Some(|streaks| - 1)
    else
      var r := ActiveStreak(streaks[..|streaks| - 1], m);
      assert forall i: nat | ActiveAt(streaks, i, m) :: ActiveAt(streaks[..|streaks| - 1], i, m);
      r
  }

  /** The attempts of one job, in creation order. */
  function Attempts(execs: seq<Exec>, m: Id, x: string): seq<nat> {
    if execs == [] then []
    else
      var last := execs[|execs| - 1];
      Attempts(execs[..|execs| - 1], m, x)
        + if last.monitor == m && last.externalId == Some(x) then [last.attempt] else []
  }

  /** `findFirst({ orderBy: { attempt: "desc" } })?.attempt ?? 0` */
  function LastAttempt(execs: seq<Exec>, m: Id, x: string): (a: nat)
    ensures forall b | b in Attempts(execs, m, x) :: b <= a
    ensures a == 0 || a in Attempts(execs, m, x)
  {
    if execs == [] then 0
    else
      var last, rest := execs[|execs| - 1], LastAttempt(execs[..|execs| - 1], m, x);
      if last.monitor == m && last.externalId == Some(x) && last.attempt > rest then last.attempt else rest
  }

  // ---------------------------------------------------------------- createSession

  function Slot(x: Option<string>): string { if x.Some? then x.value else NO_EXTERNAL_ID }

  function NextAttempt(w: World, m: Id, x: Option<string>, cached: Option<CacheEntry>): nat {
    if cached.Some? then cached.value.attempt + 1
    else if Present(x) then LastAttempt(w.execs, m, x.value) + 1
    else 1
  }

  /** Steps 3 to 6, after both breaker checks were passed. */
  function Admit(w: World, m: Id, x: Option<string>): (World, Outcome)
    requires m in w.monitors
  {
    var k, now := CacheKey(m, Slot(x)), w.now;
    var (store, cached) := Get(w.store, k, now);
    var attempt := NextAttempt(w, m, x, cached);
    if attempt >= w.monitors[m].Budget() then
      var existing := ActiveStreak(w.streaks, m);
      (w.(store := TripBreaker(store, k, COOLDOWN_MS, now),
          streaks := if existing.None? then w.streaks + [Streak(m, true, now)]
                     else w.streaks[existing.value := w.streaks[existing.value].(lastSeen := now)]), BudgetSpent)
    else
      (w.(store := SetAttempt(store, k, attempt, now),
          execs := w.execs + [Exec(m, x, attempt, now, true)]), Created(attempt))
  }

  function CreateSession(w: World, m: Id, p: Id, x: Option<string>): (World, Outcome) {
    if m !in w.monitors then (w, MonitorNotFound)
    else if w.monitors[m].project != p then (w, Unauthorized) else
    var k, now := CacheKey(m, Slot(x)), w.now;
    var (store, broken) := IsBroken(w.store, k, now);
    if broken then (w.(store := store), Cooldown) else
    var streak := ActiveStreak(w.streaks, m);
    if streak.None? then Admit(w.(store := store), m, x) else
    var i, age := streak.value, now - w.streaks[streak.value].lastSeen;
    if age < COOLDOWN_MS then (w.(store := TripBreaker(store, k, COOLDOWN_MS - age, now)), Cooldown)
    else Admit(w.(store := store, streaks := w.streaks[i := w.streaks[i].(active := false)]), m, x)
  }

  // ---------------------------------------------------------------- detectRecursiveRetries

  predicate Suspicious(w: World, p: Id, exec: Exec) {
    && exec.monitor in w.monitors && w.monitors[exec.monitor].project == p
    && exec.startedAt >= w.now - 10_800_000 && exec.attempt >= 5 && exec.running
  }

  /** The streaks after the first `n` executions were examined. */
  function Flag(w: World, p: Id, n: nat): seq<Streak>
    requires n <= |w.execs|
  {
    if n == 0 then w.streaks
    else
      var streaks, exec := Flag(w, p, n - 1), w.execs[n - 1];
      if Suspicious(w, p, exec) && ActiveStreak(streaks, exec.monitor).None?
      then streaks + [Streak(exec.monitor, true, w.now)] else streaks
  }
}
