/** VerificationService and VerifierRegistry: passes over UNKNOWN effects. */
module Verification {
  import opened Values
  import opened Ledger
  import opened Guards
  import opened Protocol
  import opened RateLimiter
  import opened SlidingWindow

  /** What a provider verifier does when it is called. */
  datatype Reply = Answers(outcome: Outcome) | Throws

  function Lower(s: string): string {
    seq(|s|, i requires 0 <= i < |s| => if 'A' <= s[i] <= 'Z' then s[i] - 'A' + 'a' else s[i])
  }

  function ProviderName(provider: Option<string>): string {
    if provider.Some? then Lower(provider.value) else ""
  }

  /** One request to verify an effect, made at time `at` and answered at once. */
  datatype Attempt = Attempt(project: Id, provider: string, at: int, reply: Reply)

  /** The limiter after an attempt, and the outcome of the attempt. */
  function Decide(windows: Windows, verifiers: set<string>, a: Attempt): (Windows, Outcome) {
    if a.provider == "" then (windows, IsUnknown)
    else
      var admission := Admit(windows, KeyOf(a.project, a.provider), a.at);
      (admission.0,
       if admission.1 && a.provider in verifiers && a.reply.Answers? then a.reply.outcome else IsUnknown)
  }

  class VerifierRegistry {
    const limiter: VerificationRateLimiter
    var verifiers: set<string>

    constructor ()
      ensures fresh(limiter) && limiter.windows == map[] && verifiers == {}
    {
      limiter := new VerificationRateLimiter();
      verifiers := {};
    }

    method Register(providerName: string)
      modifies this`verifiers
      ensures verifiers == old(verifiers) + {Lower(providerName)}
    {
      verifiers := verifiers + {Lower(providerName)};
    }

    method Verify(provider: Option<string>, project: Id, at: int, reply: Reply) returns (outcome: Outcome)
      modifies limiter
      ensures (limiter.windows, outcome)
           == Decide(old(limiter.windows), verifiers, Attempt(project, ProviderName(provider), at, reply))
      ensures outcome != IsUnknown ==>
        reply == Answers(outcome) && provider.Some? && provider.value != "" && Lower(provider.value) in verifiers
      ensures provider == None || provider == Some("") ==> limiter.windows == old(limiter.windows)
    {
      var providerName := ProviderName(provider);
      if providerName == "" {
        return IsUnknown;
      }
      var allowed := limiter.IsAllowed(project, providerName, at);
      if !allowed {
        return IsUnknown;
      }
      if providerName !in verifiers {
        return IsUnknown;
      }
      match reply {
        case Answers(answer) => return answer;
        case Throws => return IsUnknown;
      }
    }
  }

  // ---------------------------------------------------------------- a pass

  datatype PassResult = PassResult(verified: nat, failed: nat, unknown: nat, total: nat)

  /** The limiter after a run of attempts. */
  function After(windows: Windows, verifiers: set<string>, attempts: seq<Attempt>): Windows {
    if attempts == [] then windows
    else
      var n := |attempts| - 1;
      Decide(After(windows, verifiers, attempts[..n]), verifiers, attempts[n]).0
  }

  /** The outcomes of a run of attempts. */
  function Outcomes(windows: Windows, verifiers: set<string>, attempts: seq<Attempt>): (r: seq<Outcome>)
    ensures |r| == |attempts|
  {
    if attempts == [] then []
    else
      var n := |attempts| - 1;
      Outcomes(windows, verifiers, attempts[..n])
        + [Decide(After(windows, verifiers, attempts[..n]), verifiers, attempts[n]).1]
  }

  /** The attempts of a pass over `effects`. */
  function AttemptsOf(t: Table, effects: seq<Key>, project: Id, reply: nat -> Reply, clock: nat -> int): (r: seq<Attempt>)
    requires forall k | k in effects :: k in t.rows
    ensures |r| == |effects|
  {
    seq(|effects|, i requires 0 <= i < |effects| =>
      Attempt(project, ProviderName(t.rows[effects[i]].provider), clock(i), reply(i)))
  }

  /** Stands for the ISO text of a time. */
  function Stamp(at: int): Json { Number(at as real) }

  ghost predicate AllUnknown(t: Table, effects: seq<Key>) {
    && (forall k | k in effects :: k in t.rows && t.rows[k].status.UNKNOWN?)
    && (forall i, j | 0 <= i < j < |effects| :: effects[i] != effects[j])
  }

  function StatusOf(outcome: Outcome): Status {
    match outcome
    case IsVerified => VERIFIED
    case IsFailed(_) => FAILED
    case IsUnknown => UNKNOWN
  }

  /** Exactly the rows of `effects` may have changed, each as its outcome says. */
  ghost predicate Rewritten(t: Table, t': Table, effects: seq<Key>, outcomes: seq<Outcome>, clock: nat -> int) {
    && AllUnknown(t, effects) && |outcomes| == |effects|
    && t'.order == t.order && t'.rows.Keys == t.rows.Keys
    && (forall i | 0 <= i < |effects| ::
         && t'.rows[effects[i]] == Ledger.Resolved(t.rows[effects[i]], outcomes[i], Stamp(clock(i)))
         && t'.rows[effects[i]].status == StatusOf(outcomes[i]))
    && (forall k | k in t.rows && k !in effects :: t'.rows[k] == t.rows[k])
  }

  /** The result counts the effects by their new status. */
  ghost predicate Counted(t: Table, effects: seq<Key>, result: PassResult) {
    && (forall k | k in effects :: k in t.rows)
    && result.verified == |set k | k in effects && t.rows[k].status == VERIFIED|
    && result.failed == |set k | k in effects && t.rows[k].status == FAILED|
    && result.unknown == |set k | k in effects && t.rows[k].status == UNKNOWN|
    && result.verified + result.failed + result.unknown == result.total == |effects|
  }

  // ---------------------------------------------------------------- the progress of a pass

  /** The table after the first `n` effects. */
  ghost function Rewrite(t: Table, effects: seq<Key>, outcomes: seq<Outcome>, clock: nat -> int, n: nat): (r: Table)
    requires n <= |effects| == |outcomes| && forall k | k in effects :: k in t.rows
    ensures r.rows.Keys == t.rows.Keys && r.order == t.order
  {
    if n == 0 then t
    else
      var k := effects[n - 1];
      Ledger.ApplyOutcome(Rewrite(t, effects, outcomes, clock, n - 1), k, t.rows[k], outcomes[n - 1], Stamp(clock(n - 1)))
  }

  /** The counts after the first `n` effects. */
  function Score(outcomes: seq<Outcome>, n: nat): (r: PassResult)
    requires n <= |outcomes|
    ensures r.verified + r.failed + r.unknown == n && r.total == |outcomes|
  {
    if n == 0 then PassResult(0, 0, 0, |outcomes|) else Plus(Score(outcomes, n - 1), outcomes[n - 1])
  }

  function Plus(r: PassResult, outcome: Outcome): PassResult {
    match outcome
    case IsVerified => r.(verified := r.verified + 1)
    case IsFailed(_) => r.(failed := r.failed + 1)
    case IsUnknown => r.(unknown := r.unknown + 1)
  }

  lemma {:induction false} RewriteAhead(t: Table, effects: seq<Key>, outcomes: seq<Outcome>, clock: nat -> int,
                                        n: nat, k: Key)
    requires n <= |effects| == |outcomes| && forall k | k in effects :: k in t.rows
    requires k in t.rows && forall i | 0 <= i < n :: effects[i] != k
    ensures Rewrite(t, effects, outcomes, clock, n).rows[k] == t.rows[k]
  {
    hide Ledger.Resolved, Stamp;
    if n > 0 { RewriteAhead(t, effects, outcomes, clock, n - 1, k); }
  }

  lemma {:induction false} RewriteAt(t: Table, effects: seq<Key>, outcomes: seq<Outcome>, clock: nat -> int, n: nat, i: nat)
    requires i < n <= |effects| == |outcomes| && AllUnknown(t, effects)
    ensures effects[i] in t.rows
    ensures var row := Rewrite(t, effects, outcomes, clock, n).rows[effects[i]];
      && row == Ledger.Resolved(t.rows[effects[i]], outcomes[i], Stamp(clock(i)))
      && row.status == StatusOf(outcomes[i])
    decreases n
  {
    hide Ledger.ApplyOutcome, Ledger.Resolved, StatusOf, Stamp;
    var before, id := Rewrite(t, effects, outcomes, clock, n - 1), effects[n - 1];
    RewriteAhead(t, effects, outcomes, clock, n - 1, id);
    WriteRow(before, id, t.rows[id], outcomes[n - 1], Stamp(clock(n - 1)));
    if i < n - 1 {
      RewriteAt(t, effects, outcomes, clock, n - 1, i);
      assert effects[i] != id;
    }
  }

  /** The next effect is still as it was read. */
  lemma StillAsRead(t: Table, effects: seq<Key>, outcomes: seq<Outcome>, clock: nat -> int, n: nat)
    requires n < |effects| == |outcomes| && AllUnknown(t, effects)
    ensures effects[n] in t.rows && t.rows[effects[n]].status.UNKNOWN?
    ensures Rewrite(t, effects, outcomes, clock, n).rows[effects[n]] == t.rows[effects[n]]
  {
    RewriteAhead(t, effects, outcomes, clock, n, effects[n]);
  }

  lemma WriteRow(t: Table, id: Key, row: Row, outcome: Outcome, at: Json)
    requires id in t.rows && t.rows[id] == row && row.status.UNKNOWN?
    ensures var t' := Ledger.ApplyOutcome(t, id, row, outcome, at);
      && t'.order == t.order && t'.rows == t.rows[id := Ledger.Resolved(row, outcome, at)]
      && t'.rows[id].status == StatusOf(outcome)
  {
    hide SpreadObject, VerificationNote;
  }

  /** Which of the first `n` effects came out with a status. */
  ghost function Having(outcomes: seq<Outcome>, n: nat, status: Status): set<int>
    requires n <= |outcomes|
  {
    set i | 0 <= i < n && StatusOf(outcomes[i]) == status
  }

  lemma OneMore(outcomes: seq<Outcome>, n: nat, status: Status)
    requires n < |outcomes|
    ensures |Having(outcomes, n + 1, status)|
         == |Having(outcomes, n, status)| + if StatusOf(outcomes[n]) == status then 1 else 0
  {
    hide StatusOf;
    var before := Having(outcomes, n, status);
    assert Having(outcomes, n + 1, status) == if StatusOf(outcomes[n]) == status then before + {n as int} else before;
  }

  lemma {:induction false} ScoreCounts(outcomes: seq<Outcome>, n: nat)
    requires n <= |outcomes|
    ensures var r := Score(outcomes, n);
      && r.verified == |Having(outcomes, n, VERIFIED)|
      && r.failed == |Having(outcomes, n, FAILED)|
      && r.unknown == |Having(outcomes, n, UNKNOWN)|
  {
    if n > 0 {
      ScoreCounts(outcomes, n - 1);
      OneMore(outcomes, n - 1, VERIFIED);
      OneMore(outcomes, n - 1, FAILED);
      OneMore(outcomes, n - 1, UNKNOWN);
    }
  }

  lemma StatusCounted(t': Table, effects: seq<Key>, outcomes: seq<Outcome>, status: Status)
    requires |effects| == |outcomes|
    requires forall i, j | 0 <= i < j < |effects| :: effects[i] != effects[j]
    requires forall i | 0 <= i < |effects| ::
      effects[i] in t'.rows && t'.rows[effects[i]].status == StatusOf(outcomes[i])
    ensures |set k | k in effects && t'.rows[k].status == status| == |Having(outcomes, |outcomes|, status)|
  {
    hide StatusOf;
    var indices, keys := Having(outcomes, |outcomes|, status), set k | k in effects && t'.rows[k].status == status;
    forall k | k in keys ensures exists i :: i in indices && effects[i] == k {
      var i :| 0 <= i < |effects| && effects[i] == k;
      assert i in indices;
    }
    ImageSize(effects, indices, keys);
  }

  /** What a whole pass has done. */
  lemma PassMeans(t: Table, effects: seq<Key>, outcomes: seq<Outcome>, clock: nat -> int)
    requires |effects| == |outcomes| && AllUnknown(t, effects)
    ensures var t' := Rewrite(t, effects, outcomes, clock, |effects|);
      Rewritten(t, t', effects, outcomes, clock) && Counted(t', effects, Score(outcomes, |effects|))
  {
    hide Rewrite, Score, Ledger.Resolved, Having, StatusOf;
    var t' := Rewrite(t, effects, outcomes, clock, |effects|);
    forall i | 0 <= i < |effects|
      ensures effects[i] in t.rows
      ensures t'.rows[effects[i]] == Ledger.Resolved(t.rows[effects[i]], outcomes[i], Stamp(clock(i)))
      ensures t'.rows[effects[i]].status == StatusOf(outcomes[i])
    {
      RewriteAt(t, effects, outcomes, clock, |effects|, i);
    }
    forall k | k in t.rows && k !in effects ensures t'.rows[k] == t.rows[k] {
      RewriteAhead(t, effects, outcomes, clock, |effects|, k);
    }
    ScoreCounts(outcomes, |effects|);
    StatusCounted(t', effects, outcomes, VERIFIED);
    StatusCounted(t', effects, outcomes, FAILED);
    StatusCounted(t', effects, outcomes, UNKNOWN);
  }

  lemma {:induction false} OutcomesUpto(windows: Windows, verifiers: set<string>, attempts: seq<Attempt>, i: nat)
    requires i < |attempts|
    ensures Outcomes(windows, verifiers, attempts)[i]
         == Decide(After(windows, verifiers, attempts[..i]), verifiers, attempts[i]).1
  {
    hide Decide;
    var n := |attempts| - 1;
    if i < n {
      OutcomesUpto(windows, verifiers, attempts[..n], i);
      assert attempts[..n][..i] == attempts[..i];
    }
  }

  lemma AttemptAt(t: Table, effects: seq<Key>, project: Id, reply: nat -> Reply, clock: nat -> int, i: nat)
    requires i < |effects| && forall k | k in effects :: k in t.rows
    ensures AttemptsOf(t, effects, project, reply, clock)[i]
         == Attempt(project, ProviderName(t.rows[effects[i]].provider), clock(i), reply(i))
  {
  }

  lemma NextAttempt(windows: Windows, verifiers: set<string>, attempts: seq<Attempt>, i: nat)
    requires i < |attempts|
    ensures Decide(After(windows, verifiers, attempts[..i]), verifiers, attempts[i])
         == (After(windows, verifiers, attempts[..i + 1]), Outcomes(windows, verifiers, attempts)[i])
  {
    hide Decide;
    OutcomesUpto(windows, verifiers, attempts, i);
    assert attempts[..i + 1][..i] == attempts[..i];
  }

  // ---------------------------------------------------------------- what a pass looks at

  function UnknownAmong(t: Table, ks: seq<Key>): (r: seq<Key>)
    requires forall k | k in ks :: k in t.rows
    ensures forall k :: k in r <==> k in ks && t.rows[k].status.UNKNOWN?
  {
    if ks == [] then []
    else
      var k, earlier := ks[|ks| - 1], UnknownAmong(t, ks[..|ks| - 1]);
      if t.rows[k].status.UNKNOWN? then earlier + [k] else earlier
  }

  lemma {:induction false} UnknownAmongDistinct(t: Table, ks: seq<Key>)
    requires forall k | k in ks :: k in t.rows
    requires forall i, j | 0 <= i < j < |ks| :: ks[i] != ks[j]
    ensures AllUnknown(t, UnknownAmong(t, ks))
  {
    if ks != [] { UnknownAmongDistinct(t, ks[..|ks| - 1]); }
  }

  lemma {:induction false} ElementsCounted(ks: seq<Key>)
    requires forall i, j | 0 <= i < j < |ks| :: ks[i] != ks[j]
    ensures |set k | k in ks| == |ks|
  {
    if ks != [] {
      var rest, last := ks[..|ks| - 1], ks[|ks| - 1];
      ElementsCounted(rest);
      assert ks == rest + [last];
      assert (set k | k in ks) == (set k | k in rest) + {last};
    }
  }

  lemma CountedSum(t: Table, effects: seq<Key>, result: PassResult)
    requires Counted(t, effects, result)
    ensures result.verified + result.failed + result.unknown == result.total
  {
  }

  ghost function UnknownIn(t: Table, w: string, p: Id): set<Key> {
    set k | k in t.rows && t.rows[k].In(w, p) && t.rows[k].status == UNKNOWN
  }

  /** A pass over all UNKNOWN rows of a workflow counts what was there and what is left. */
  lemma WorkflowPassMeans(t: Table, t': Table, effects: seq<Key>, outcomes: seq<Outcome>, clock: nat -> int,
                          w: string, p: Id, result: PassResult)
    requires Rewritten(t, t', effects, outcomes, clock) && Counted(t', effects, result)
    requires forall k :: k in effects <==> k in UnknownIn(t, w, p)
    ensures result.total == |UnknownIn(t, w, p)| && result.unknown == |UnknownIn(t', w, p)|
    ensures t'.rows.Keys == t.rows.Keys
    ensures forall k | k in t.rows && t'.rows[k] != t.rows[k] :: k in UnknownIn(t, w, p)
  {
    hide SpreadObject, VerificationNote;
    ElementsCounted(effects);
    assert (set k | k in effects) == UnknownIn(t, w, p);
    forall k | k in effects ensures t'.rows[k].In(w, p) {
      var i :| 0 <= i < |effects| && effects[i] == k;
      assert t'.rows[effects[i]] == Ledger.Resolved(t.rows[effects[i]], outcomes[i], Stamp(clock(i)));
    }
    assert (set k | k in effects && t'.rows[k].status == UNKNOWN) == UnknownIn(t', w, p);
  }

  // ---------------------------------------------------------------- a pass over a workflow

  /** The UNKNOWN effects of a workflow, in creation order. */
  function UnknownEffects(t: Table, w: string, p: Id): (r: seq<Key>)
    requires t.Valid()
    ensures forall k | k in r :: k in t.rows
  {
    UnknownAmong(t, Effects(t, w, p))
  }

  /** What the verifiers say about them. */
  ghost function WorkflowOutcomes(t: Table, w: string, p: Id, windows: Windows, verifiers: set<string>,
                                  reply: nat -> Reply, clock: nat -> int): (r: seq<Outcome>)
    requires t.Valid()
    ensures |r| == |UnknownEffects(t, w, p)|
  {
    Outcomes(windows, verifiers, AttemptsOf(t, UnknownEffects(t, w, p), p, reply, clock))
  }

  /** The table after they were asked. */
  ghost function WorkflowVerified(t: Table, w: string, p: Id, windows: Windows, verifiers: set<string>,
                                  reply: nat -> Reply, clock: nat -> int): (r: Table)
    requires t.Valid()
    ensures r.Valid() && r.rows.Keys == t.rows.Keys
  {
    var effects := UnknownEffects(t, w, p);
    RewriteValid(t, effects, WorkflowOutcomes(t, w, p, windows, verifiers, reply, clock), clock, |effects|);
    Rewrite(t, effects, WorkflowOutcomes(t, w, p, windows, verifiers, reply, clock), clock, |effects|)
  }

  lemma {:induction false} RewriteValid(t: Table, effects: seq<Key>, outcomes: seq<Outcome>, clock: nat -> int, n: nat)
    requires t.Valid() && n <= |effects| == |outcomes| && forall k | k in effects :: k in t.rows
    ensures Rewrite(t, effects, outcomes, clock, n).Valid()
  {
    hide Ledger.Resolved, Table.Valid, Ledger.ApplyOutcome;
    if n > 0 { RewriteValid(t, effects, outcomes, clock, n - 1); }
  }

  class VerificationService {
    const guards: GuardsService
    const registry: VerifierRegistry

    constructor (guards: GuardsService, registry: VerifierRegistry)
      ensures this.guards == guards && this.registry == registry
    {
      this.guards, this.registry := guards, registry;
    }

    method ApplyOutcome(k: Key, effect: Row, outcome: Outcome, at: int)
      requires guards.Valid() && k in guards.table.rows
      modifies guards`table
      ensures guards.Valid()
      ensures guards.table == Ledger.ApplyOutcome(old(guards.table), k, effect, outcome, Stamp(at))
    {
      if outcome.IsUnknown? {
        return;
      }
      var resolved := Ledger.Resolved(effect, outcome, Stamp(at));
      guards.table := guards.table.Update(k, guards.table.rows[k].(
        status := resolved.status, failureType := resolved.failureType, metadata := resolved.metadata));
    }

    /** The body of the loop: verify one effect and write down what came out. */
    method VerifyEffect(id: Key, project: Id, at: int, reply: Reply, ghost start: State, ghost s: State)
      returns (outcome: Outcome, ghost s': State)
      requires guards.Valid() && s.table == guards.table && Reaches(start, s)
      requires id in guards.table.rows && guards.table.rows[id].status.UNKNOWN?
      modifies guards`table, registry.limiter
      ensures guards.Valid()
      ensures (registry.limiter.windows, outcome)
           == Decide(old(registry.limiter.windows), registry.verifiers,
                     Attempt(project, ProviderName(old(guards.table).rows[id].provider), at, reply))
      ensures guards.table
           == Ledger.ApplyOutcome(old(guards.table), id, old(guards.table).rows[id], outcome, Stamp(at))
      ensures Reaches(start, s') && s' == s.(table := guards.table)
    {
      hide Decide, ProviderName, Ledger.ApplyOutcome, Table.Valid, Reaches;
      var effect := guards.table.rows[id];
      outcome := registry.Verify(effect.provider, project, at, reply);
      ApplyOutcome(id, effect, outcome, at);
      s' := Go(start, s, Protocol.Event.Verify(id, outcome, Stamp(at)));
    }

    method Tally(before: PassResult, outcome: Outcome) returns (result: PassResult)
      ensures result == Plus(before, outcome)
    {
      result := before;
      if outcome.IsVerified? {
        result := result.(verified := result.verified + 1);
      } else if outcome.IsFailed? {
        result := result.(failed := result.failed + 1);
      } else {
        result := result.(unknown := result.unknown + 1);
      }
    }

    /** Verifies the effects one after the other. The counts are the numbers of rows that are
        now VERIFIED, FAILED and still UNKNOWN, and no other row has changed. */
    method ProcessEffects(effects: seq<Key>, project: Id, reply: nat -> Reply, clock: nat -> int, ghost s: State)
      returns (result: PassResult, ghost s': State)
      requires guards.Valid() && s.table == guards.table && s.executions == guards.executions
      requires AllUnknown(guards.table, effects)
      modifies guards`table, registry.limiter
      ensures guards.Valid() && Reaches(s, s') && s' == s.(table := guards.table)
      ensures var attempts := AttemptsOf(old(guards.table), effects, project, reply, clock);
        var outcomes := Outcomes(old(registry.limiter.windows), registry.verifiers, attempts);
        && registry.limiter.windows == After(old(registry.limiter.windows), registry.verifiers, attempts)
        && guards.table == Rewrite(old(guards.table), effects, outcomes, clock, |effects|)
        && Rewritten(old(guards.table), guards.table, effects, outcomes, clock)
      ensures Counted(guards.table, effects, result)
    {
      hide Reaches, Decide, ProviderName, Ledger.ApplyOutcome, Ledger.Resolved, Table.Valid, AttemptsOf, Rewritten, Counted,
        Stamp, Apply;
      ghost var t, windows := guards.table, registry.limiter.windows;
      ghost var attempts := AttemptsOf(t, effects, project, reply, clock);
      ghost var outcomes := Outcomes(windows, registry.verifiers, attempts);
      result := PassResult(0, 0, 0, |effects|);
      s' := s;
      ReachesItself(s);
      PassMeans(t, effects, outcomes, clock);
      assert After(windows, registry.verifiers, attempts[..0]) == windows;
      assert Rewrite(t, effects, outcomes, clock, 0) == t;
      hide After, Outcomes, AllUnknown, Plus;
      var i := 0;
      while i < |effects|
        invariant 0 <= i <= |effects|
        invariant guards.Valid() && Reaches(s, s') && s' == s.(table := guards.table)
        invariant registry.limiter.windows == After(windows, registry.verifiers, attempts[..i])
        invariant guards.table == Rewrite(t, effects, outcomes, clock, i)
        invariant result == Score(outcomes, i)
      {
        StillAsRead(t, effects, outcomes, clock, i);
        var outcome;
        outcome, s' := VerifyEffect(effects[i], project, clock(i), reply(i), s, s');
        NextAttempt(windows, registry.verifiers, attempts, i);
        AttemptAt(t, effects, project, reply, clock, i);
        result := Tally(result, outcome);
        i := i + 1;
      }
      assert attempts[..|effects|] == attempts;
    }

    /** All UNKNOWN effects of one workflow. */
    method RunWorkflowPass(w: string, project: Id, reply: nat -> Reply, clock: nat -> int, ghost s: State)
      returns (result: PassResult, ghost s': State)
      requires guards.Valid() && s.table == guards.table && s.executions == guards.executions
      modifies guards`table, registry.limiter
      ensures guards.Valid() && Reaches(s, s') && s' == s.(table := guards.table)
      ensures result.verified + result.failed + result.unknown == result.total
      ensures result.total == |UnknownIn(old(guards.table), w, project)|
      ensures result.unknown == |UnknownIn(guards.table, w, project)|
      ensures guards.table.rows.Keys == old(guards.table).rows.Keys
      ensures forall k | k in old(guards.table).rows && guards.table.rows[k] != old(guards.table).rows[k] ::
        k in UnknownIn(old(guards.table), w, project)
      ensures guards.table == WorkflowVerified(old(guards.table), w, project, old(registry.limiter.windows),
                                               registry.verifiers, reply, clock)
      ensures registry.limiter.windows
           == After(old(registry.limiter.windows), registry.verifiers,
                    AttemptsOf(old(guards.table), UnknownEffects(old(guards.table), w, project), project, reply, clock))
    {
      ghost var t, windows := guards.table, registry.limiter.windows;
      EffectsDistinct(t, w, project);
      UnknownAmongDistinct(t, Effects(t, w, project));
      var effects := UnknownAmong(guards.table, Effects(guards.table, w, project));
      assert forall k :: k in effects <==> k in UnknownIn(t, w, project);
      hide Reaches, UnknownIn, Effects, Rewritten, Counted, AttemptsOf, Outcomes, After, UnknownAmong, Table.Valid;
      if |effects| == 0 {
        ReachesItself(s);
        assert UnknownIn(t, w, project) == {};
        return PassResult(0, 0, 0, 0), s;
      }
      result, s' := ProcessEffects(effects, project, reply, clock, s);
      ghost var attempts := AttemptsOf(t, effects, project, reply, clock);
      ghost var outcomes := Outcomes(windows, registry.verifiers, attempts);
      CountedSum(guards.table, effects, result);
      WorkflowPassMeans(t, guards.table, effects, outcomes, clock, w, project, result);
    }
  }
}
