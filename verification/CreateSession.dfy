/** The methods that change the breaker's world in place. */
module Sessions {
  import opened Values
  import opened Breaker

  class SessionService {
    const cache: LoopDetectionCache
    var now: int
    var monitors: map<Id, Monitor>
    var execs: seq<Exec>
    var streaks: seq<Streak>

    constructor (monitors: map<Id, Monitor>)
      ensures fresh(cache) && World() == Breaker.World.World(0, monitors, [], [], map[])
    {
      cache := new LoopDetectionCache();
      this.monitors := monitors;
      now, execs, streaks := 0, [], [];
    }

    ghost function World(): World
      reads this, cache
    {
      Breaker.World.World(now, monitors, execs, streaks, cache.store)
    }

    method CreateSession(m: Id, p: Id, x: Option<string>) returns (outcome: Outcome)
      modifies this`execs, this`streaks, cache
      ensures (World(), outcome) == Breaker.CreateSession(old(World()), m, p, x)
    {
      if m !in monitors {
        return MonitorNotFound;
      }
      var monitor := monitors[m];
      if monitor.project != p {
        return Unauthorized;
      }
      var slot := if x.Some? then x.value else NO_EXTERNAL_ID;

      // The cache may already know.
      var broken, _ := cache.CheckBroken(m, slot, now);
      if broken {
        return Cooldown;
      }

      // The database has the last word, and warms the cache up.
      var activeStreak := ActiveStreak(streaks, m);
      if activeStreak.Some? {
        var i := activeStreak.value;
        var sinceStreak := now - streaks[i].lastSeen;
        if sinceStreak < COOLDOWN_MS {
          cache.Trip(m, slot, COOLDOWN_MS - sinceStreak, now);
          return Cooldown;
        }
        streaks := streaks[i := streaks[i].(active := false)];
      }

      // The number of this attempt, from whichever source is there.
      var cached := cache.GetEntry(m, slot, now);
      var attempt := 1;
      if cached.Some? {
        attempt := cached.value.attempt + 1;
      } else if Present(x) {
        attempt := LastAttempt(execs, m, x.value) + 1;
      }

      // Too many: close the monitor in both places.
      if attempt >= monitor.Budget() {
        cache.Trip(m, slot, COOLDOWN_MS, now);
        var existing := ActiveStreak(streaks, m);
        if existing.None? {
          streaks := streaks + [Streak(m, true, now)];
        } else {
          streaks := streaks[existing.value := streaks[existing.value].(lastSeen := now)];
        }
        return BudgetSpent;
      }

      // Admitted.
      cache.RecordAttempt(m, slot, attempt, now);
      execs := execs + [Exec(m, x, attempt, now, true)];
      return Created(attempt);
    }

    method DetectRecursiveRetries(p: Id)
      modifies this`streaks
      ensures World() == old(World()).(streaks := Flag(old(World()), p, |execs|))
    {
      ghost var w := World();
      var i := 0;
      while i < |execs|
        invariant 0 <= i <= |execs|
        invariant streaks == Flag(w, p, i)
      {
        var exec := execs[i];
        if exec.monitor in monitors && monitors[exec.monitor].project == p
           && exec.startedAt >= now - 10_800_000 && exec.attempt >= 5 && exec.running {
          var existing := ActiveStreak(streaks, exec.monitor);
          if existing.None? {
            streaks := streaks + [Streak(exec.monitor, true, now)];
          }
        }
        i := i + 1;
      }
    }
  }
}
