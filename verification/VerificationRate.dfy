/** How many effects verification can resolve in a minute, over any number of passes. */
module VerificationRate {
  import opened Ledger
  import opened RateLimiter
  import opened SlidingWindow
  import opened Verification
  import opened Records
  import Protocol
  import opened Values

  /** Passes one after the other are one run of attempts, whoever triggered them. */
  lemma {:induction false} PassesCompose(windows: Windows, verifiers: set<string>, a: seq<Attempt>, b: seq<Attempt>)
    ensures After(After(windows, verifiers, a), verifiers, b) == After(windows, verifiers, a + b)
    ensures Outcomes(windows, verifiers, a + b)
         == Outcomes(windows, verifiers, a) + Outcomes(After(windows, verifiers, a), verifiers, b)
  {
    hide Decide;
    if b == [] {
      assert a + b == a;
    } else {
      PassesCompose(windows, verifiers, a, b[..|b| - 1]);
      assert (a + b)[..|a + b| - 1] == a + b[..|b| - 1];
    }
  }

  ghost predicate InOrder(attempts: seq<Attempt>) {
    forall i, j | 0 <= i < j < |attempts| :: attempts[i].at <= attempts[j].at
  }

  /** The attempts that reach the limiter. */
  function CallsOf(attempts: seq<Attempt>): seq<Call> {
    if attempts == [] then []
    else
      var earlier, a := CallsOf(attempts[..|attempts| - 1]), attempts[|attempts| - 1];
      if a.provider == "" then earlier else earlier + [Call(KeyOf(a.project, a.provider), a.at)]
  }

  /** When effects of a project and provider were resolved. */
  function ResolvedTimes(verifiers: set<string>, attempts: seq<Attempt>, project: Id, provider: string): seq<int> {
    if attempts == [] then []
    else
      var n := |attempts| - 1;
      var earlier, a := ResolvedTimes(verifiers, attempts[..n], project, provider), attempts[n];
      if a.project == project && a.provider == provider && !Outcomes(map[], verifiers, attempts)[n].IsUnknown?
      then earlier + [a.at] else earlier
  }

  lemma {:induction false} CallsInOrder(attempts: seq<Attempt>, now: int)
    requires InOrder(attempts) && (attempts != [] ==> attempts[|attempts| - 1].at <= now)
    ensures Monotone(CallsOf(attempts)) && forall i | 0 <= i < |CallsOf(attempts)| :: CallsOf(attempts)[i].at <= now
    decreases |attempts|
  {
    if attempts != [] {
      CallsInOrder(attempts[..|attempts| - 1], attempts[|attempts| - 1].at);
    }
  }

  lemma {:induction false} LimiterRuns(verifiers: set<string>, attempts: seq<Attempt>)
    ensures After(map[], verifiers, attempts) == RateLimiter.Run(CallsOf(attempts))
    decreases |attempts|
  {
    hide Admit, KeyOf;
    if attempts != [] {
      var n := |attempts| - 1;
      LimiterRuns(verifiers, attempts[..n]);
      if attempts[n].provider != "" {
        assert CallsOf(attempts)[..|CallsOf(attempts)| - 1] == CallsOf(attempts[..n]);
      }
    }
  }

  /** Whatever is resolved was let through by the limiter. */
  lemma {:induction false} ResolvedWereAllowed(verifiers: set<string>, attempts: seq<Attempt>,
                                               project: Id, provider: string, lo: int, hi: int)
    ensures Count(ResolvedTimes(verifiers, attempts, project, provider), lo, hi)
         <= Count(History(CallsOf(attempts), KeyOf(project, provider)), lo, hi)
    decreases |attempts|
  {
    hide Admit, KeyOf, Count;
    if attempts == [] {
      CountAtMost([], lo, hi, 0);
    } else {
      var n := |attempts| - 1;
      var a, calls := attempts[n], CallsOf(attempts);
      ResolvedWereAllowed(verifiers, attempts[..n], project, provider, lo, hi);
      LimiterRuns(verifiers, attempts[..n]);
      if a.provider != "" {
        assert calls[..|calls| - 1] == CallsOf(attempts[..n]);
        CountAppend(History(calls[..|calls| - 1], KeyOf(project, provider)), a.at, lo, hi);
        CountAppend(ResolvedTimes(verifiers, attempts[..n], project, provider), a.at, lo, hi);
      }
    }
  }

  /** Over all passes together, at most 20 effects of a project and provider are resolved in
      any half-open minute. */
  lemma TwentyResolutionsAMinute(verifiers: set<string>, attempts: seq<Attempt>, project: Id, provider: string, lo: int)
    requires InOrder(attempts)
    ensures Count(ResolvedTimes(verifiers, attempts, project, provider), lo, lo + WINDOW_MS) <= MAX_CALLS
  {
    if attempts != [] { CallsInOrder(attempts, attempts[|attempts| - 1].at); }
    ResolvedWereAllowed(verifiers, attempts, project, provider, lo, lo + WINDOW_MS);
    AtMostTwentyAMinute(CallsOf(attempts), KeyOf(project, provider), lo);
  }

  // ---------------------------------------------------------------- rows that leave UNKNOWN

  /** A pass as ProcessEffects makes it, with the tables before and after. What happens to the
      table between two passes is left open. */
  datatype Pass = Pass(before: Table, after: Table, effects: seq<Key>, project: Id,
                       reply: nat -> Reply, clock: nat -> int)

  ghost predicate KnownEffects(pass: Pass) { forall k | k in pass.effects :: k in pass.before.rows }

  ghost predicate AllKnown(passes: seq<Pass>) { forall i | 0 <= i < |passes| :: KnownEffects(passes[i]) }

  ghost function PassAttempts(pass: Pass): seq<Attempt>
    requires KnownEffects(pass)
  {
    AttemptsOf(pass.before, pass.effects, pass.project, pass.reply, pass.clock)
  }

  ghost function AttemptsAll(passes: seq<Pass>): seq<Attempt>
    requires AllKnown(passes)
  {
    if passes == [] then []
    else
      AttemptsAll(passes[..|passes| - 1]) + PassAttempts(passes[|passes| - 1])
  }

  /** Each pass does what the contract of ProcessEffects says, with the limiter as the passes
      before have left it. */
  ghost predicate PassRun(verifiers: set<string>, passes: seq<Pass>) {
    AllKnown(passes) &&
    (passes != [] ==>
      var rest, pass := passes[..|passes| - 1], passes[|passes| - 1];
      && PassRun(verifiers, rest)
      && Rewritten(pass.before, pass.after, pass.effects,
           Outcomes(After(map[], verifiers, AttemptsAll(rest)), verifiers, PassAttempts(pass)), pass.clock))
  }

  /** When rows of a provider left UNKNOWN in a pass, among the first `n` effects. */
  ghost function Departures(pass: Pass, provider: string, n: nat): seq<int>
    requires KnownEffects(pass) && n <= |pass.effects| && pass.after.rows.Keys == pass.before.rows.Keys
  {
    if n == 0 then []
    else
      var k, earlier := pass.effects[n - 1], Departures(pass, provider, n - 1);
      if provider != "" && ProviderName(pass.before.rows[k].provider) == provider
         && pass.before.rows[k].status.UNKNOWN? && !pass.after.rows[k].status.UNKNOWN?
      then earlier + [pass.clock(n - 1)] else earlier
  }

  /** When rows of a project and provider left UNKNOWN, over all passes. */
  ghost function AllDepartures(verifiers: set<string>, passes: seq<Pass>, project: Id, provider: string): seq<int>
    requires PassRun(verifiers, passes)
  {
    if passes == [] then []
    else
      var pass := passes[|passes| - 1];
      AllDepartures(verifiers, passes[..|passes| - 1], project, provider)
        + if pass.project == project then Departures(pass, provider, |pass.effects|) else []
  }

  lemma ResolvedAppend(verifiers: set<string>, a: seq<Attempt>, x: Attempt, project: Id, provider: string)
    ensures ResolvedTimes(verifiers, a + [x], project, provider)
         == ResolvedTimes(verifiers, a, project, provider)
            + (if x.project == project && x.provider == provider
                  && !Decide(After(map[], verifiers, a), verifiers, x).1.IsUnknown? then [x.at] else [])
  {
    hide Decide;
    assert (a + [x])[..|a|] == a;
    OutcomesUpto(map[], verifiers, a + [x], |a|);
  }

  /** A pass resolves what leaves UNKNOWN. */
  lemma {:induction false} PassResolves(verifiers: set<string>, a: seq<Attempt>, pass: Pass, attempts: seq<Attempt>,
                                        outcomes: seq<Outcome>, project: Id, provider: string, n: nat)
    requires KnownEffects(pass) && attempts == PassAttempts(pass) && n <= |pass.effects|
    requires outcomes == Outcomes(After(map[], verifiers, a), verifiers, attempts)
    requires Rewritten(pass.before, pass.after, pass.effects, outcomes, pass.clock)
    ensures ResolvedTimes(verifiers, a + attempts[..n], project, provider)
         == ResolvedTimes(verifiers, a, project, provider)
            + if pass.project == project then Departures(pass, provider, n) else []
  {
    hide Rewritten, Decide, ResolvedTimes, Outcomes, After, AttemptsOf, ProviderName;
    if n == 0 {
      assert a + attempts[..0] == a;
    } else {
      var x, m := attempts[n - 1], n - 1;
      PassResolves(verifiers, a, pass, attempts, outcomes, project, provider, m);
      AttemptAt(pass.before, pass.effects, pass.project, pass.reply, pass.clock, m);
      PassesCompose(map[], verifiers, a, attempts[..m]);
      OutcomesUpto(After(map[], verifiers, a), verifiers, attempts, m);
      ResolvedAppend(verifiers, a + attempts[..m], x, project, provider);
      assert a + attempts[..n] == a + attempts[..m] + [x];
      DepartsExactly(pass, outcomes, m);
      NoProvider(After(map[], verifiers, a + attempts[..m]), verifiers, x);
    }
  }

  lemma DepartsExactly(pass: Pass, outcomes: seq<Outcome>, i: nat)
    requires Rewritten(pass.before, pass.after, pass.effects, outcomes, pass.clock) && i < |pass.effects|
    ensures pass.after.rows.Keys == pass.before.rows.Keys
    ensures var k := pass.effects[i];
      k in pass.before.rows && pass.before.rows[k].status.UNKNOWN?
      && (pass.after.rows[k].status.UNKNOWN? <==> outcomes[i].IsUnknown?)
  {
    hide Ledger.Resolved, Stamp;
  }

  lemma NoProvider(windows: Windows, verifiers: set<string>, x: Attempt)
    ensures x.provider == "" ==> Decide(windows, verifiers, x).1.IsUnknown?
  {
  }

  lemma {:induction false} DeparturesAreResolutions(verifiers: set<string>, passes: seq<Pass>, project: Id, provider: string)
    requires PassRun(verifiers, passes)
    ensures AllDepartures(verifiers, passes, project, provider)
         == ResolvedTimes(verifiers, AttemptsAll(passes), project, provider)
  {
    hide Rewritten, Outcomes, After, AttemptsOf, Departures;
    if passes != [] {
      var rest, pass := passes[..|passes| - 1], passes[|passes| - 1];
      DeparturesAreResolutions(verifiers, rest, project, provider);
      var attempts := PassAttempts(pass);
      PassResolves(verifiers, AttemptsAll(rest), pass, attempts,
        Outcomes(After(map[], verifiers, AttemptsAll(rest)), verifiers, attempts), project, provider, |pass.effects|);
      assert attempts[..|pass.effects|] == attempts;
    }
  }

  /** Over all passes, whoever triggers them and whatever happens to the ledger in between, at
      most 20 rows of a project and provider leave UNKNOWN in any half-open minute. */
  lemma TwentyRowsAMinute(verifiers: set<string>, passes: seq<Pass>, project: Id, provider: string, lo: int)
    requires PassRun(verifiers, passes) && InOrder(AttemptsAll(passes))
    ensures Count(AllDepartures(verifiers, passes, project, provider), lo, lo + WINDOW_MS) <= MAX_CALLS
  {
    DeparturesAreResolutions(verifiers, passes, project, provider);
    TwentyResolutionsAMinute(verifiers, AttemptsAll(passes), project, provider, lo);
  }

  // ---------------------------------------------------------------- exactly which rows leave UNKNOWN

  /** One letter, up to its case. */
  predicate SameLetter(a: char, b: char) {
    a == b || ('A' <= a <= 'Z' && b as int == a as int + 32) || ('A' <= b <= 'Z' && a as int == b as int + 32)
  }

  predicate SameName(a: string, b: string) {
    |a| == |b| && forall i | 0 <= i < |a| :: SameLetter(a[i], b[i])
  }

  /** Provider names are compared without regard to the case of their letters. */
  lemma {:induction false} LowerExactly(a: string, b: string)
    ensures Lower(a) == Lower(b) <==> SameName(a, b)
  {
    if |a| == |b| {
      assert forall i | 0 <= i < |a| :: Lower(a)[i] == Lower(b)[i] <==> SameLetter(a[i], b[i]);
      if Lower(a) != Lower(b) { assert exists i :: 0 <= i < |a| && Lower(a)[i] != Lower(b)[i]; }
    }
  }

  /** The calls of a project and provider that the limiter let through in the minute up to `at`. */
  ghost function LetThrough(attempts: seq<Attempt>, project: Id, provider: string, at: int): nat {
    Count(History(CallsOf(attempts), KeyOf(project, provider)), at - 59_999, at + 1)
  }

  /** Over every run of attempts, an attempt comes out verified or failed exactly if its provider
      is named and registered, fewer than 20 calls were let through in the last minute, and the
      verifier answered just that. A verifier that throws, or does not know, decides nothing. */
  lemma {:induction false} OutcomesExactly(verifiers: set<string>, attempts: seq<Attempt>, i: nat, outcome: Outcome)
    requires InOrder(attempts) && i < |attempts| && outcome != IsUnknown
    ensures var a := attempts[i];
      Outcomes(map[], verifiers, attempts)[i] == outcome <==>
        && a.provider != "" && a.provider in verifiers
        && LetThrough(attempts[..i], a.project, a.provider, a.at) < 20
        && a.reply == Answers(outcome)
  {
    hide LetThrough, Outcomes, After, Admit, KeyOf;
    var a, earlier := attempts[i], attempts[..i];
    OutcomesUpto(map[], verifiers, attempts, i);
    LimiterRuns(verifiers, earlier);
    if i > 0 { assert attempts[i - 1].at <= a.at; }
    LimiterCounts(earlier, a.project, a.provider, a.at);
  }

  lemma {:induction false} LimiterCounts(attempts: seq<Attempt>, project: Id, provider: string, at: int)
    requires InOrder(attempts) && (attempts != [] ==> attempts[|attempts| - 1].at <= at)
    ensures Admit(RateLimiter.Run(CallsOf(attempts)), KeyOf(project, provider), at).1
       <==> LetThrough(attempts, project, provider, at) < 20
  {
    hide Admit, History, CallsOf, KeyOf, RateLimiter.Run, Count;
    CallsInOrder(attempts, at);
    var calls := CallsOf(attempts) + [Call(KeyOf(project, provider), at)];
    assert calls[..|calls| - 1] == CallsOf(attempts);
    assert Monotone(calls);
    DecidesOnWholeHistory(calls, |calls| - 1);
  }

  /** The same for one effect of the last pass, counting the attempts of all passes so far. */
  lemma {:induction false} PassOutcomesExactly(verifiers: set<string>, passes: seq<Pass>, j: nat, outcome: Outcome)
    requires AllKnown(passes) && passes != [] && InOrder(AttemptsAll(passes)) && outcome != IsUnknown
    requires j < |passes[|passes| - 1].effects|
    ensures var earlier, pass := AttemptsAll(passes[..|passes| - 1]), passes[|passes| - 1];
      var provider := ProviderName(pass.before.rows[pass.effects[j]].provider);
      Outcomes(After(map[], verifiers, earlier), verifiers, PassAttempts(pass))[j] == outcome <==>
        && provider != "" && provider in verifiers
        && LetThrough(earlier + PassAttempts(pass)[..j], pass.project, provider, pass.clock(j)) < 20
        && pass.reply(j) == Answers(outcome)
  {
    hide Outcomes, AttemptsOf, LetThrough, ProviderName, After;
    var earlier, pass, all := AttemptsAll(passes[..|passes| - 1]), passes[|passes| - 1], AttemptsAll(passes);
    AttemptAt(pass.before, pass.effects, pass.project, pass.reply, pass.clock, j);
    PassesCompose(map[], verifiers, earlier, PassAttempts(pass));
    assert all == earlier + PassAttempts(pass) && all[|earlier| + j] == PassAttempts(pass)[j];
    assert all[..|earlier| + j] == earlier + PassAttempts(pass)[..j];
    OutcomesExactly(verifiers, all, |earlier| + j, outcome);
  }

  /** A row of a pass becomes VERIFIED or FAILED exactly if the registered verifier of its provider
      says so and the limiter lets the call through, over all passes so far; otherwise it stays. */
  lemma {:induction false} RowsLeaveExactly(verifiers: set<string>, passes: seq<Pass>, j: nat)
    requires PassRun(verifiers, passes) && passes != [] && InOrder(AttemptsAll(passes))
    requires j < |passes[|passes| - 1].effects|
    ensures var rest, pass := passes[..|passes| - 1], passes[|passes| - 1];
      var k, at, reply := pass.effects[j], pass.clock(j), pass.reply(j);
      && k in pass.before.rows && k in pass.after.rows
      && var row, row', provider := pass.before.rows[k], pass.after.rows[k], ProviderName(pass.before.rows[k].provider);
         var offered := provider != "" && provider in verifiers
           && LetThrough(AttemptsAll(rest) + PassAttempts(pass)[..j], pass.project, provider, at) < 20;
         (&& row.status == UNKNOWN
          && (row'.status == VERIFIED <==> offered && reply == Answers(IsVerified))
          && (row'.status == FAILED <==> offered && reply.Answers? && reply.outcome.IsFailed?)
          && (row'.status == VERIFIED ==> row'.failureType == None)
          && (row'.status == FAILED ==> row'.failureType == reply.outcome.failureType)
          && (row'.status != VERIFIED && row'.status != FAILED ==> row' == row))
  {
    hide Ledger.Resolved, Outcomes, AttemptsOf, LetThrough, ProviderName, After;
    var pass, reply := passes[|passes| - 1], passes[|passes| - 1].reply(j);
    var earlier := AttemptsAll(passes[..|passes| - 1]);
    var outcomes := Outcomes(After(map[], verifiers, earlier), verifiers, PassAttempts(pass));
    PassOutcomesExactly(verifiers, passes, j, IsVerified);
    if outcomes[j].IsFailed? { PassOutcomesExactly(verifiers, passes, j, outcomes[j]); }
    if reply.Answers? && reply.outcome.IsFailed? { PassOutcomesExactly(verifiers, passes, j, reply.outcome); }
    DepartsExactly(pass, outcomes, j);
    BecomesExactly(pass.before.rows[pass.effects[j]], outcomes[j], Stamp(pass.clock(j)));
  }

  lemma BecomesExactly(row: Row, outcome: Outcome, at: Json)
    requires row.status == UNKNOWN
    ensures var row' := Ledger.Resolved(row, outcome, at);
      && (row'.status == VERIFIED <==> outcome == IsVerified) && (row'.status == FAILED <==> outcome.IsFailed?)
      && (outcome == IsVerified ==> row'.failureType == None)
      && (outcome.IsFailed? ==> row'.failureType == outcome.failureType)
      && (outcome == IsUnknown ==> row' == row)
  {
    hide SpreadObject, VerificationNote;
  }

  /** The same for effects of the protocol, by the provider that the operation was begun with. */
  lemma {:induction false} EffectsVerifiedExactly(s: Protocol.State, registered: set<string>, passes: seq<Pass>, j: nat)
    requires Protocol.Reachable(s)
    requires var verifiers := set name | name in registered :: Lower(name);
      PassRun(verifiers, passes) && passes != [] && InOrder(AttemptsAll(passes))
    requires passes[|passes| - 1].before == s.table && j < |passes[|passes| - 1].effects|
    ensures var rest, pass := passes[..|passes| - 1], passes[|passes| - 1];
      var k, at, reply := pass.effects[j], pass.clock(j), pass.reply(j);
      && k in s.table.rows && k in pass.after.rows && k in s.sent
      && var row', provider := pass.after.rows[k], s.sent[k].op.provider;
         var offered := provider != None && provider != Some("")
           && (exists name :: name in registered && SameName(provider.value, name))
           && LetThrough(AttemptsAll(rest) + PassAttempts(pass)[..j], pass.project, Lower(provider.value), at) < 20;
         (&& (row'.status == VERIFIED <==> offered && reply == Answers(IsVerified))
          && (row'.status == FAILED <==> offered && reply.Answers? && reply.outcome.IsFailed?)
          && (row'.status != VERIFIED && row'.status != FAILED ==> row' == s.table.rows[k]))
  {
    var verifiers := set name | name in registered :: Lower(name);
    RowsLeaveExactly(verifiers, passes, j);
    var pass := passes[|passes| - 1];
    var k := pass.effects[j];
    RowsRememberTheirRequest(s, k);
    var provider := s.sent[k].op.provider;
    assert s.table.rows[k].provider == provider;
    if provider.Some? {
      assert Lower(provider.value) in verifiers <==>
        exists name :: name in registered && Lower(name) == Lower(provider.value);
      forall name ensures Lower(name) == Lower(provider.value) <==> SameName(provider.value, name) {
        LowerExactly(name, provider.value);
        LowerExactly(provider.value, name);
      }
    }
    hide Lower, SameName, LetThrough, Protocol.Reaches, PassRun, StandsFor;
  }
}
