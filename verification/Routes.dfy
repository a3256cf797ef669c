/** routes/guards.ts: how the planner, the reconciliation and the breaker compose. */
module Routes {
  import opened Values
  import opened Ledger
  import opened Protocol
  import Breaker
  import BreakerRuns
  import Continuation
  import Gates
  import Guards
  import Sessions
  import Verification

  datatype SessionReply =
    | BadRequest
    | WorkflowBlocked(plan: Plan)
    | CircuitBreakerTripped
    | Failed
    | Opened(attempt: nat)

  /** The reply to a request that has passed the gate. */
  function ReplyTo(outcome: Breaker.Outcome): SessionReply {
    match outcome
    case Created(attempt) => Opened(attempt)
    case Cooldown => CircuitBreakerTripped
    case BudgetSpent => CircuitBreakerTripped
    case MonitorNotFound => Failed
    case Unauthorized => Failed
  }

  /** A request that has passed the gate opens a session exactly if its monitor is one of the project,
      no streak of the last hour is active and the upcoming attempt is allowed; streak and budget
      are answered as a tripped breaker, anything else as a failure. */
  lemma RepliesExactly(w: Breaker.World, x: Execution)
    requires BreakerRuns.BreakerInv(w)
    ensures var reply := ReplyTo(Breaker.CreateSession(w, x.monitor, x.project, x.externalId).1);
      if x.monitor !in w.monitors || w.monitors[x.monitor].project != x.project then reply == Failed
      else
        var attempt := BreakerRuns.Upcoming(w, x.monitor, x.externalId);
        if BreakerRuns.Hot(w, x.monitor) || attempt >= BreakerRuns.AttemptsAllowed(w.monitors[x.monitor])
        then reply == CircuitBreakerTripped else reply == Opened(attempt)
  {
    BreakerRuns.StrangersAreRefused(w, x.monitor, x.project, x.externalId);
    if x.monitor in w.monitors && w.monitors[x.monitor].project == x.project {
      BreakerRuns.AdmittedExactly(w, x.monitor, x.project, x.externalId);
    }
    hide Breaker.CreateSession, BreakerRuns.BreakerInv, BreakerRuns.Hot, BreakerRuns.Upcoming;
  }

  lemma DoneIsSettled(t: Table, w: string, p: Id)
    ensures forall k | k in t.rows && t.rows[k].Done() ::
      k in Settle(t, w, p).rows && Settle(t, w, p).rows[k] == t.rows[k]
  {
  }

  lemma CreateStep(s: State, e: Id, admitted: bool)
    requires s.table.Valid() && e in s.gated
    ensures var s' := Apply(s, Create(e, admitted));
      && s'.table == s.table && s'.executions == if admitted then s.executions[e := s.gated[e]] else s.executions
  {
  }

  predicate SameRecord(monitors: map<Id, Breaker.Monitor>, x: Execution, exec: Breaker.Exec) {
    && exec.monitor == x.monitor && exec.externalId == x.externalId
    && x.monitor in monitors && monitors[x.monitor].project == x.project
  }

  /** The ledger's executions and the breaker's attempts are the same records. */
  ghost predicate TiedTo(index: map<Id, nat>, executions: map<Id, Execution>,
                         monitors: map<Id, Breaker.Monitor>, execs: seq<Breaker.Exec>)
  {
    && index.Keys == executions.Keys && |index| == |execs|
    && (forall d, e | d in index && e in index && d != e :: index[d] != index[e])
    && (forall e | e in index :: index[e] < |execs| && SameRecord(monitors, executions[e], execs[index[e]]))
  }

  lemma OneMoreRecord(index: map<Id, nat>, executions: map<Id, Execution>, monitors: map<Id, Breaker.Monitor>,
                      execs: seq<Breaker.Exec>, execs': seq<Breaker.Exec>, e: Id, x: Execution)
    requires TiedTo(index, executions, monitors, execs) && e !in executions
    requires |execs'| == |execs| + 1 && execs'[..|execs|] == execs && SameRecord(monitors, x, execs'[|execs|])
    ensures TiedTo(index[e := |execs|], executions[e := x], monitors, execs')
  {
    hide SameRecord;
    assert forall i | 0 <= i < |execs| :: execs'[i] == execs[i] by {
      assert forall i | 0 <= i < |execs| :: execs'[..|execs|][i] == execs'[i];
    }
  }

  class GuardRoutes {
    const guards: Guards.GuardsService
    const verification: Verification.VerificationService
    const sessions: Sessions.SessionService
    ghost var index: map<Id, nat>     // where the attempt of an execution is recorded

    ghost predicate Tied()
      reads this, guards, sessions
    {
      TiedTo(index, guards.executions, sessions.monitors, sessions.execs)
    }

    constructor (verification: Verification.VerificationService, sessions: Sessions.SessionService)
      requires verification.guards.executions == map[] && sessions.execs == []
      ensures this.verification == verification && guards == verification.guards && this.sessions == sessions && Tied()
    {
      this.verification, guards, this.sessions, index := verification, verification.guards, sessions, map[];
    }

    /** The first call of POST /session: a request is refused with the plan exactly when a row
        blocks its workflow. */
    method PassGate(e: Id, x: Execution, ghost s: State) returns (refusal: Option<Plan>, ghost s': State)
      requires guards.Valid() && s.table == guards.table && s.executions == guards.executions
      requires Allowed(s, Gate(e, x))
      modifies guards`table
      ensures guards.Valid() && Reaches(s, s') && s' == Apply(s, Gate(e, x)) && s'.table == guards.table
      ensures refusal == if Present(x.workflow) && !Gates.Unblocked(old(guards.table), x.workflow.value, x.project)
        then Some(PlanFor(old(guards.table), x.workflow.value, x.project)) else None
      ensures refusal.None? ==> e in s'.gated && s'.gated[e] == x
    {
      hide Reaches, PlanFor, Settle, Row.In, Row.Blocks;
      ReachesItself(s);
      if Present(x.workflow) {
        Continuation.PlanVerdict(guards.table, x.workflow.value, x.project);
        var plan := guards.GetContinuationPlan(x.workflow.value, x.project);
        if plan.status.BLOCKED? {
          refusal := Some(plan);
        } else {
          refusal := None;
        }
      } else {
        refusal := None;
      }
      s' := Go(s, s, Gate(e, x));
    }

    /** The second call: the breaker decides. */
    method OpenSession(e: Id, x: Execution, ghost s: State) returns (reply: SessionReply, ghost s': State)
      requires guards.Valid() && s.table == guards.table && s.executions == guards.executions && Tied()
      requires e in s.gated && s.gated[e] == x && e !in guards.executions
      modifies guards`executions, sessions`execs, sessions`streaks, sessions.cache, this`index
      ensures guards.Valid() && guards.table == old(guards.table) && Tied() && Reaches(s, s')
      ensures s' == Apply(s, Create(e, reply.Opened?)) && s'.executions == guards.executions && s'.table == guards.table
      ensures var admission := Breaker.CreateSession(old(sessions.World()), x.monitor, x.project, x.externalId);
        reply == ReplyTo(admission.1) && sessions.World() == admission.0
    {
      hide Reaches, TiedTo, TableAfter;
      ghost var before, w := sessions.execs, sessions.World();
      ReachesItself(s);
      var outcome := sessions.CreateSession(x.monitor, x.project, x.externalId);
      AttemptRecorded(w, x);
      hide Breaker.CreateSession;
      CreateStep(s, e, outcome.Created?);
      hide Apply;
      s' := Go(s, s, Create(e, outcome.Created?));
      reply := ReplyTo(outcome);
      if outcome.Created? {
        OneMoreRecord(index, guards.executions, sessions.monitors, before, sessions.execs, e, x);
        guards.executions := guards.executions[e := x];
        index := index[e := |before|];
      }
    }

    /** POST /session for the project of the api key, with nothing served between its two calls;
        `e` is the id that a new execution would get. */
    method PostSession(e: Id, monitorId: Id, externalId: Option<string>, workflowId: Option<string>,
                       agentId: Option<string>, project: Id, ghost s: State)
      returns (reply: SessionReply, ghost s': State)
      requires guards.Valid() && s.table == guards.table && s.executions == guards.executions && Tied()
      requires e !in guards.executions && e !in s.gated
      modifies guards, sessions`execs, sessions`streaks, sessions.cache, this`index
      ensures guards.Valid() && Tied() && Reaches(s, s')
      ensures s'.table == guards.table && s'.executions == guards.executions
      ensures var blocked := Present(workflowId) && !Gates.Unblocked(old(guards.table), workflowId.value, project);
        var admission := Breaker.CreateSession(old(sessions.World()), monitorId, project, externalId);
        && reply == (if monitorId == "" then BadRequest
                     else if blocked then WorkflowBlocked(PlanFor(old(guards.table), workflowId.value, project))
                     else ReplyTo(admission.1))
        && sessions.World() == (if monitorId != "" && !blocked then admission.0 else old(sessions.World()))
      ensures guards.executions == if reply.Opened?
        then old(guards.executions)[e := Execution(project, monitorId, externalId, workflowId, agentId)]
        else old(guards.executions)
    {
      hide Reaches, Breaker.CreateSession, PlanFor, Settle, Gates.Unblocked, TableAfter, TiedTo, ReplyTo;
      ReachesItself(s);
      if monitorId == "" {
        return BadRequest, s;
      }
      var x := Execution(project, monitorId, externalId, workflowId, agentId);
      var refusal;
      refusal, s' := PassGate(e, x, s);
      if refusal.Some? {
        return WorkflowBlocked(refusal.value), s';
      }
      ghost var gated := s';
      reply, s' := OpenSession(e, x, gated);
      CreateStep(gated, e, reply.Opened?);
      hide Apply;
      GoThen(s, gated, e, reply.Opened?);
    }

    /** POST /resume/:workflowId: verify what is UNKNOWN, then plan. Whatever the verifiers
        answered, the plan is BLOCKED exactly when a row still needs a human or a verification. */
    method PostResume(w: string, project: Id, reply: nat -> Verification.Reply, clock: nat -> int, ghost s: State)
      returns (plan: Plan, ghost s': State)
      requires guards == verification.guards && guards.Valid()
      requires s.table == guards.table && s.executions == guards.executions
      modifies guards`table, verification.registry.limiter
      ensures guards.Valid() && Reaches(s, s') && s' == s.(table := guards.table)
      ensures guards.table == Settle(
        Verification.WorkflowVerified(old(guards.table), w, project, old(verification.registry.limiter.windows),
                                      verification.registry.verifiers, reply, clock), w, project)
      ensures plan == PlanFor(guards.table, w, project)
      ensures plan.status.BLOCKED? <==> !Gates.Unblocked(guards.table, w, project)
      ensures forall k | k in old(guards.table).rows && old(guards.table).rows[k].Done() ::
        k in guards.table.rows && guards.table.rows[k] == old(guards.table).rows[k]
    {
      hide Reaches, PlanFor, Effects, Settle, Table.Valid, TableAfter;
      var pass;
      pass, s' := verification.RunWorkflowPass(w, project, reply, clock, s);
      ghost var t := guards.table;
      plan := guards.GetContinuationPlan(w, project);
      s' := Go(s, s', MakePlan(w, project));
      Continuation.PlanningIsIdempotent(t, w, project);
      Continuation.PlanVerdict(guards.table, w, project);
      DoneIsSettled(t, w, project);
      hide Settle, Row.In, Row.Blocks;
    }
  }

  /** A created session has its attempt recorded last. */
  lemma AttemptRecorded(w: Breaker.World, x: Execution)
    ensures var r := Breaker.CreateSession(w, x.monitor, x.project, x.externalId);
      && (!r.1.Created? ==> r.0.execs == w.execs)
      && (r.1.Created? ==>
           && x.monitor in w.monitors && w.monitors[x.monitor].project == x.project
           && |r.0.execs| == |w.execs| + 1 && r.0.execs[..|w.execs|] == w.execs
           && r.0.execs[|w.execs|].monitor == x.monitor && r.0.execs[|w.execs|].externalId == x.externalId)
  {
  }

  lemma GoThen(s: State, m: State, e: Id, admitted: bool)
    requires Reaches(s, m) && m.table.Valid()
    ensures Reaches(s, Apply(m, Create(e, admitted)))
  {
    var _ := Go(s, m, Create(e, admitted));
  }
}
