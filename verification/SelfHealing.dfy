/** SelfHealingService: bounded, spaced and gated attempts to heal an incident. */
module SelfHealing {
  import opened Values
  import opened Ledger
  import Guards
  import Protocol
  import opened RateLimiter
  import opened Verification
  import opened Continuation
  import opened Gates

  datatype Policy = Policy(enabled: bool, maxRetries: Option<int>, minCooldownSeconds: Option<int>,
                           autoReplay: bool, replayUrl: Option<string>, webhookUrl: Option<string>,
                           jitterMinSeconds: Option<int>, jitterMaxSeconds: Option<int>)
  {
    /** `maxRetries || 3` */
    function Retries(): int { if maxRetries.Some? && maxRetries.value != 0 then maxRetries.value else 3 }

    /** How long a replay is held back; `random` lies between 0 and 1. */
    function DelayMs(random: real): real {
      var low := (if jitterMinSeconds.Some? then jitterMinSeconds.value else 5) * 1000;
      var high := (if jitterMaxSeconds.Some? then jitterMaxSeconds.value else 30) * 1000;
      low as real + random * (high - low) as real
    }

    /** `(minCooldownSeconds ?? 60) * 1000` */
    function CooldownMs(): int { (if minCooldownSeconds.Some? then minCooldownSeconds.value else 60) * 1000 }
  }

  datatype Monitor = Monitor(project: Id, heartbeat: bool, policy: Option<Policy>)

  datatype Action = ATTEMPT | EXHAUSTED | BLOCKED_BY_PLAN | OTHER

  /** An entry of the append-only audit log. */
  datatype Entry = Entry(action: Action, project: Id, monitor: Id, incident: Id, attempt: nat, createdAt: int)

  /** What is sent; a replay goes out `delayMs` after the decision. */
  datatype Webhook = RetriggerJob(url: string) | AutoReplay(url: string, delayMs: real)

  /** The attempts to heal an incident, in the order in which they were logged. */
  function AttemptsAt(log: seq<Entry>, project: Id, monitor: Id, incident: Id): (r: seq<Entry>)
    ensures forall i | 0 <= i < |r| :: r[i] in log
  {
    if log == [] then []
    else
      var earlier, x := AttemptsAt(log[..|log| - 1], project, monitor, incident), log[|log| - 1];
      if x.action.ATTEMPT? && x.project == project && x.monitor == monitor && x.incident == incident
      then earlier + [x] else earlier
  }

  /** The time of the most recent attempt: the head of the attempts sorted by time, latest first. */
  function Latest(attempts: seq<Entry>): (t: int)
    requires attempts != []
    ensures forall i | 0 <= i < |attempts| :: attempts[i].createdAt <= t
    ensures exists i :: 0 <= i < |attempts| && attempts[i].createdAt == t
  {
    var last := attempts[|attempts| - 1].createdAt;
    if |attempts| == 1 then last
    else
      var t := Latest(attempts[..|attempts| - 1]);
      if t < last then last else t
  }

  datatype Verdict = Ignored | Exhausted(attempts: nat) | TooSoon | Proceed(attempts: nat)

  /** The checks in front of an attempt. */
  function Decision(log: seq<Entry>, monitors: map<Id, Monitor>, monitor: Id, incident: Id, now: int): Verdict {
    if monitor !in monitors || monitors[monitor].policy.None? || !monitors[monitor].policy.value.enabled then Ignored
    else
      var policy := monitors[monitor].policy.value;
      var attempts := AttemptsAt(log, monitors[monitor].project, monitor, incident);
      if |attempts| >= policy.Retries() then Exhausted(|attempts|)
      else if attempts != [] && now - Latest(attempts) < policy.CooldownMs() then TooSoon
      else Proceed(|attempts|)
  }

  function Usable(url: Option<string>, valid: string -> bool): bool { Present(url) && valid(url.value) }

  /** The webhook of an attempt, given whether the plan of the last workflow is blocked. */
  function WebhookOf(m: Monitor, policy: Policy, blocked: bool, valid: string -> bool, random: real): Option<Webhook> {
    if !policy.autoReplay then
      if Usable(policy.webhookUrl, valid) then Some(RetriggerJob(policy.webhookUrl.value)) else None
    else if !m.heartbeat || blocked then None
    else
      var url := Either(policy.replayUrl, policy.webhookUrl);
      if Usable(url, valid) then Some(AutoReplay(url.value, policy.DelayMs(random))) else None
  }

  /** What is logged. */
  function Logged(monitors: map<Id, Monitor>, monitor: Id, incident: Id, now: int, verdict: Verdict, blocked: bool)
    : seq<Entry>
    requires verdict.Exhausted? || verdict.Proceed? ==> monitor in monitors && monitors[monitor].policy.Some?
  {
    match verdict
    case Exhausted(n) => [Entry(EXHAUSTED, monitors[monitor].project, monitor, incident, n, now)]
    case Proceed(n) =>
      var m := monitors[monitor];
      [Entry(ATTEMPT, m.project, monitor, incident, n + 1, now)]
        + if m.heartbeat && m.policy.value.autoReplay && blocked
          then [Entry(BLOCKED_BY_PLAN, m.project, monitor, incident, 0, now)] else []
    case _ => []
  }

  /** The last execution belongs to a workflow with a row that needs a human or a verification. */
  ghost predicate WorkflowBlocked(t: Table, executions: map<Id, Execution>, last: Option<Id>, project: Id) {
    last.Some? && last.value in executions && Present(executions[last.value].workflow) &&
    !Unblocked(t, executions[last.value].workflow.value, project)
  }

  /** The table after the UNKNOWN effects of a workflow were verified and the workflow planned. */
  ghost function Reconciled(t: Table, w: string, p: Id, windows: Windows, verifiers: set<string>,
                            reply: nat -> Reply, clock: nat -> int): Table
    requires t.Valid()
  {
    Settle(WorkflowVerified(t, w, p, windows, verifiers, reply, clock), w, p)
  }

  class SelfHealingService {
    const guards: Guards.GuardsService
    const verification: VerificationService
    var monitors: map<Id, Monitor>
    var auditLog: seq<Entry>

    constructor (verification: VerificationService, monitors: map<Id, Monitor>)
      ensures this.verification == verification && guards == verification.guards
      ensures this.monitors == monitors && auditLog == []
    {
      this.verification, guards, this.monitors, auditLog := verification, verification.guards, monitors, [];
    }

    /** `last` is the execution of the monitor that started last; `reply` and `clock` drive the
        verification of its workflow. */
    method AttemptHeal(monitorId: Id, incidentId: Id, now: int, last: Option<Id>, valid: string -> bool, random: real,
                       reply: nat -> Reply, clock: nat -> int, ghost s: Protocol.State)
      returns (fired: Option<Webhook>, ghost s': Protocol.State)
      requires guards == verification.guards && guards.Valid()
      requires s.table == guards.table && s.executions == guards.executions
      requires last.Some? ==> last.value in guards.executions
      modifies this`auditLog, guards`table, verification.registry.limiter
      ensures guards.Valid() && Protocol.Reaches(s, s') && s' == s.(table := guards.table)
      ensures var verdict := Decision(old(auditLog), monitors, monitorId, incidentId, now);
        var blocked := verdict.Proceed?
          && WorkflowBlocked(guards.table, guards.executions, last, monitors[monitorId].project);
        && auditLog == old(auditLog) + Logged(monitors, monitorId, incidentId, now, verdict, blocked)
        && fired == if verdict.Proceed?
                    then WebhookOf(monitors[monitorId], monitors[monitorId].policy.value, blocked, valid, random) else None
      ensures guards.table ==
        if Decision(old(auditLog), monitors, monitorId, incidentId, now).Proceed?
           && monitors[monitorId].heartbeat && monitors[monitorId].policy.value.autoReplay
           && last.Some? && Present(guards.executions[last.value].workflow)
        then Reconciled(old(guards.table), guards.executions[last.value].workflow.value, monitors[monitorId].project,
                        old(verification.registry.limiter.windows), verification.registry.verifiers, reply, clock)
        else old(guards.table)
      ensures fired.Some? && fired.value.AutoReplay? ==>
        !WorkflowBlocked(guards.table, guards.executions, last, monitors[monitorId].project)
    {
      hide Protocol.Reaches, AttemptsAt, Latest, Unblocked, Reconciled, Table.Valid, Policy.DelayMs;
      fired, s' := None, s;
      Protocol.ReachesItself(s);
      if monitorId !in monitors || monitors[monitorId].policy.None? {
        return;
      }
      var monitor := monitors[monitorId];
      var policy := monitor.policy.value;
      if !policy.enabled {
        return;
      }

      // Enough attempts already?
      var maxRetries := policy.Retries();
      var attempts := AttemptsAt(auditLog, monitor.project, monitorId, incidentId);
      if |attempts| >= maxRetries {
        auditLog := auditLog + [Entry(EXHAUSTED, monitor.project, monitorId, incidentId, |attempts|, now)];
        return;
      }

      // Too early for another one?
      if |attempts| > 0 {
        if now - Latest(attempts) < policy.CooldownMs() {
          return;
        }
      }

      // From here on the attempt counts, whatever becomes of it.
      auditLog := auditLog + [Entry(ATTEMPT, monitor.project, monitorId, incidentId, |attempts| + 1, now)];

      // Without automatic replay the job is merely asked to run again.
      if Present(policy.webhookUrl) && !policy.autoReplay {
        if valid(policy.webhookUrl.value) {
          fired := Some(RetriggerJob(policy.webhookUrl.value));
        }
      }

      // With it the plan has the last word.
      if monitor.heartbeat && policy.autoReplay {
        fired, s' := AttemptReplay(monitorId, incidentId, now, last, valid, random, reply, clock, s);
      }
    }

    /** Unless the plan of the last workflow is blocked, the webhook goes out after the delay,
        without another look at the plan. */
    method AttemptReplay(monitorId: Id, incidentId: Id, now: int, last: Option<Id>, valid: string -> bool, random: real,
                         reply: nat -> Reply, clock: nat -> int, ghost s: Protocol.State)
      returns (fired: Option<Webhook>, ghost s': Protocol.State)
      requires guards == verification.guards && guards.Valid()
      requires s.table == guards.table && s.executions == guards.executions
      requires last.Some? ==> last.value in guards.executions
      requires monitorId in monitors && monitors[monitorId].policy.Some?
      requires monitors[monitorId].heartbeat && monitors[monitorId].policy.value.autoReplay
      modifies this`auditLog, guards`table, verification.registry.limiter
      ensures guards.Valid() && Protocol.Reaches(s, s') && s' == s.(table := guards.table)
      ensures var blocked := WorkflowBlocked(guards.table, guards.executions, last, monitors[monitorId].project);
        && auditLog == old(auditLog) + (if blocked
             then [Entry(BLOCKED_BY_PLAN, monitors[monitorId].project, monitorId, incidentId, 0, now)] else [])
        && fired == WebhookOf(monitors[monitorId], monitors[monitorId].policy.value, blocked, valid, random)
      ensures guards.table ==
        if last.Some? && Present(guards.executions[last.value].workflow)
        then Reconciled(old(guards.table), guards.executions[last.value].workflow.value, monitors[monitorId].project,
                        old(verification.registry.limiter.windows), verification.registry.verifiers, reply, clock)
        else old(guards.table)
    {
      hide Protocol.Reaches, Unblocked, Reconciled, Table.Valid, Policy.DelayMs;
      fired, s' := None, s;
      Protocol.ReachesItself(s);
      var monitor, policy := monitors[monitorId], monitors[monitorId].policy.value;
      if last.Some? && Present(guards.executions[last.value].workflow) {
        var blocked;
        blocked, s' := PlanBlocked(guards.executions[last.value].workflow.value, monitor.project, reply, clock, s);
        if blocked {
          auditLog := auditLog + [Entry(BLOCKED_BY_PLAN, monitor.project, monitorId, incidentId, 0, now)];
          return;
        }
      }
      var targetUrl := if Present(policy.replayUrl) then policy.replayUrl else policy.webhookUrl;
      if Present(targetUrl) {
        if valid(targetUrl.value) {
          fired := Some(AutoReplay(targetUrl.value, policy.DelayMs(random)));
        }
      }
    }

    /** Reconcile the workflow, then ask the planner. */
    method PlanBlocked(w: string, project: Id, reply: nat -> Reply, clock: nat -> int, ghost s: Protocol.State)
      returns (blocked: bool, ghost s': Protocol.State)
      requires guards == verification.guards && guards.Valid()
      requires s.table == guards.table && s.executions == guards.executions
      modifies guards`table, verification.registry.limiter
      ensures guards.Valid() && Protocol.Reaches(s, s') && s' == s.(table := guards.table)
      ensures guards.table == Reconciled(old(guards.table), w, project, old(verification.registry.limiter.windows),
                                         verification.registry.verifiers, reply, clock)
      ensures blocked <==> !Unblocked(guards.table, w, project)
    {
      hide Protocol.Reaches, PlanFor, Settle, Row.Blocks, Row.In, Table.Valid;
      var pass;
      pass, s' := verification.RunWorkflowPass(w, project, reply, clock, s);
      ghost var t := guards.table;
      var plan := guards.GetContinuationPlan(w, project);
      s' := Protocol.Go(s, s', Protocol.MakePlan(w, project));
      PlanVerdict(t, w, project);
      SettlingBlocksNothing(t, w, project, w, project);
      blocked := plan.status.BLOCKED?;
    }
  }

  // ---------------------------------------------------------------- what goes out

  /** An attempt is due: healing is switched on, fewer attempts are logged than the policy allows
      (three, unless it says otherwise), and the last is a cooldown ago (a minute, unless it says). */
  predicate Due(policy: Policy, attempts: seq<Entry>, now: int) {
    && policy.enabled
    && |attempts| < (match policy.maxRetries case None => 3 case Some(n) => if n == 0 then 3 else n)
    && forall i | 0 <= i < |attempts| ::
         now - attempts[i].createdAt >= 1000 * (match policy.minCooldownSeconds case None => 60 case Some(s) => s)
  }

  /** An attempt is made exactly when it is due; when not, nothing of the kind is logged. */
  lemma AttemptsAreMadeWhenDue(log: seq<Entry>, monitors: map<Id, Monitor>, monitor: Id, incident: Id, now: int,
                               blocked: bool)
    ensures var verdict := Decision(log, monitors, monitor, incident, now);
      && (verdict.Proceed? <==>
            && monitor in monitors && monitors[monitor].policy.Some?
            && Due(monitors[monitor].policy.value,
                   AttemptsAt(log, monitors[monitor].project, monitor, incident), now))
      && (forall e | e in Logged(monitors, monitor, incident, now, verdict, blocked) && e.action == ATTEMPT ::
            && verdict.Proceed? && e.project == monitors[monitor].project && e.monitor == monitor
            && e.incident == incident && e.createdAt == now
            && e.attempt == |AttemptsAt(log, monitors[monitor].project, monitor, incident)| + 1)
      && (verdict.Proceed? ==>
            exists e :: e in Logged(monitors, monitor, incident, now, verdict, blocked) && e.action == ATTEMPT)
  {
    if monitor in monitors && monitors[monitor].policy.Some? {
      var attempts := AttemptsAt(log, monitors[monitor].project, monitor, incident);
      if attempts != [] {
        var i :| 0 <= i < |attempts| && attempts[i].createdAt == Latest(attempts);
      }
      hide AttemptsAt, Latest;
      if Decision(log, monitors, monitor, incident, now).Proceed? {
        assert Logged(monitors, monitor, incident, now, Proceed(|attempts|), blocked)[0].action == ATTEMPT;
      }
    }
  }

  /** Besides attempts, a call logs that the attempts are used up, or that the plan held a replay
      back, and nothing else. */
  lemma LoggedExactly(log: seq<Entry>, monitors: map<Id, Monitor>, monitor: Id, incident: Id, now: int, blocked: bool,
                      e: Entry)
    ensures var verdict := Decision(log, monitors, monitor, incident, now);
      e in Logged(monitors, monitor, incident, now, verdict, blocked) && e.action != ATTEMPT <==>
        && monitor in monitors && monitors[monitor].policy.Some? && monitors[monitor].policy.value.enabled
        && var m, policy := monitors[monitor], monitors[monitor].policy.value;
           var attempts := AttemptsAt(log, m.project, monitor, incident);
           (|| (e == Entry(EXHAUSTED, m.project, monitor, incident, |attempts|, now)
                && |attempts| >= match policy.maxRetries case None => 3 case Some(n) => if n == 0 then 3 else n)
            || (e == Entry(BLOCKED_BY_PLAN, m.project, monitor, incident, 0, now)
                && Due(policy, attempts, now) && m.heartbeat && policy.autoReplay && blocked))
  {
    AttemptsAreMadeWhenDue(log, monitors, monitor, incident, now, blocked);
    hide AttemptsAt, Latest;
  }

  /** Which webhook an attempt sends. A replay needs a heartbeat monitor and a workflow that is
      not blocked; it goes to the replay address, or else to the webhook address, after five to
      thirty seconds unless the policy says otherwise. */
  lemma WebhookExactly(m: Monitor, policy: Policy, blocked: bool, valid: string -> bool, random: real, hook: Webhook)
    ensures WebhookOf(m, policy, blocked, valid, random) == Some(hook) <==>
      match hook
      case RetriggerJob(url) => !policy.autoReplay && policy.webhookUrl == Some(url) && url != "" && valid(url)
      case AutoReplay(url, delayMs) =>
        && policy.autoReplay && m.heartbeat && !blocked && url != "" && valid(url)
        && (policy.replayUrl == Some(url) || ((policy.replayUrl == None || policy.replayUrl == Some(""))
                                              && policy.webhookUrl == Some(url)))
        && delayMs == policy.DelayMs(random)
  {
  }

  /** The delay lies between the bounds of the policy, and reaches both. */
  lemma DelayExactly(policy: Policy, random: real)
    ensures var low := 1000 * (match policy.jitterMinSeconds case None => 5 case Some(s) => s);
      var high := 1000 * (match policy.jitterMaxSeconds case None => 30 case Some(s) => s);
      && (0.0 <= random <= 1.0 && low <= high ==> low as real <= policy.DelayMs(random) <= high as real)
      && policy.DelayMs(0.0) == low as real && policy.DelayMs(1.0) == high as real
  {
    var low := 1000 * (match policy.jitterMinSeconds case None => 5 case Some(s) => s);
    var high := 1000 * (match policy.jitterMaxSeconds case None => 30 case Some(s) => s);
    assert (high - low) as real == high as real - low as real;
    assert policy.DelayMs(random) == low as real + random * (high as real - low as real);
    assert policy.DelayMs(1.0) == low as real + 1.0 * (high as real - low as real);
    assert policy.DelayMs(0.0) == low as real + 0.0 * (high as real - low as real);
    hide Policy.DelayMs;
    Between(low as real, high as real, random);
  }

  lemma Between(low: real, high: real, random: real)
    ensures 0.0 <= random <= 1.0 && low <= high ==> low <= low + random * (high - low) <= high
  {
    if 0.0 <= random <= 1.0 && low <= high {
      var width := high - low;
      assert 0.0 <= random * width && 0.0 <= (1.0 - random) * width;
      assert random * width == width - (1.0 - random) * width;
    }
  }

  // ---------------------------------------------------------------- runs

  /** A call of AttemptHeal; `blocked`, `valid` and `random` are what it met. */
  datatype Request = Request(monitor: Id, incident: Id, now: int, blocked: bool, valid: string -> bool, random: real)

  ghost predicate Sequential(qs: seq<Request>) {
    forall i, j | 0 <= i < j < |qs| :: qs[i].now <= qs[j].now
  }

  function Run(monitors: map<Id, Monitor>, qs: seq<Request>): seq<Entry> {
    if qs == [] then []
    else
      var log, q := Run(monitors, qs[..|qs| - 1]), qs[|qs| - 1];
      var verdict := Decision(log, monitors, q.monitor, q.incident, q.now);
      log + Logged(monitors, q.monitor, q.incident, q.now, verdict, q.blocked)
  }

  /** How many webhooks were fired for an incident. */
  function Fired(monitors: map<Id, Monitor>, qs: seq<Request>, monitor: Id, incident: Id): nat {
    if qs == [] then 0
    else
      var earlier, q := qs[..|qs| - 1], qs[|qs| - 1];
      var verdict := Decision(Run(monitors, earlier), monitors, q.monitor, q.incident, q.now);
      Fired(monitors, earlier, monitor, incident)
        + if q.monitor == monitor && q.incident == incident && verdict.Proceed?
             && WebhookOf(monitors[monitor], monitors[monitor].policy.value, q.blocked, q.valid, q.random).Some? then 1 else 0
  }

  /** The attempts of an incident are numbered, bounded and a cooldown apart. */
  ghost predicate WellPaced(attempts: seq<Entry>, policy: Policy, now: int) {
    && (attempts != [] ==> |attempts| <= policy.Retries())
    && (forall i | 0 <= i < |attempts| :: attempts[i].attempt == i + 1 && attempts[i].createdAt <= now)
    && (forall i | 0 <= i < |attempts| - 1 ::
         attempts[i].createdAt <= attempts[i + 1].createdAt - policy.CooldownMs()
         && attempts[i].createdAt <= attempts[i + 1].createdAt)
  }

  lemma AttemptsAppend(log: seq<Entry>, x: Entry, project: Id, monitor: Id, incident: Id)
    ensures AttemptsAt(log + [x], project, monitor, incident)
         == AttemptsAt(log, project, monitor, incident)
            + if x.action.ATTEMPT? && x.project == project && x.monitor == monitor && x.incident == incident
              then [x] else []
  {
    assert (log + [x])[..|log|] == log;
  }

  lemma AttemptsLogged(log: seq<Entry>, monitors: map<Id, Monitor>, q: Request, monitor: Id, incident: Id)
    requires monitor in monitors
    ensures var p := monitors[monitor].project;
      var verdict := Decision(log, monitors, q.monitor, q.incident, q.now);
      AttemptsAt(log + Logged(monitors, q.monitor, q.incident, q.now, verdict, q.blocked), p, monitor, incident)
      == AttemptsAt(log, p, monitor, incident)
         + if q.monitor == monitor && q.incident == incident && verdict.Proceed?
           then [Entry(ATTEMPT, p, monitor, incident, verdict.attempts + 1, q.now)] else []
  {
    var p := monitors[monitor].project;
    var verdict := Decision(log, monitors, q.monitor, q.incident, q.now);
    var logged := Logged(monitors, q.monitor, q.incident, q.now, verdict, q.blocked);
    hide AttemptsAt;
    if |logged| == 0 {
      assert log + logged == log;
    } else if |logged| == 1 {
      assert logged == [logged[0]];
      AttemptsAppend(log, logged[0], p, monitor, incident);
    } else {
      assert log + logged == log + [logged[0]] + [logged[1]];
      AttemptsAppend(log, logged[0], p, monitor, incident);
      AttemptsAppend(log + [logged[0]], logged[1], p, monitor, incident);
    }
  }

  /** Over any sequential run under a fixed policy the attempts of every incident are well paced,
      and no more webhooks are fired than attempts are logged. */
  lemma {:induction false} HealingIsBounded(monitors: map<Id, Monitor>, qs: seq<Request>, monitor: Id, incident: Id,
                                            now: int)
    requires Sequential(qs) && (qs != [] ==> qs[|qs| - 1].now <= now)
    requires monitor in monitors && monitors[monitor].policy.Some?
    ensures var attempts := AttemptsAt(Run(monitors, qs), monitors[monitor].project, monitor, incident);
      && WellPaced(attempts, monitors[monitor].policy.value, now)
      && Fired(monitors, qs, monitor, incident) <= |attempts|
    decreases |qs|
  {
    hide AttemptsAt, Logged, WebhookOf, WellPaced, Latest;
    if qs == [] {
      NoAttempts(monitors, monitor, incident, now);
    } else {
      var earlier, q := qs[..|qs| - 1], qs[|qs| - 1];
      HealingIsBounded(monitors, earlier, monitor, incident, q.now);
      var log := Run(monitors, earlier);
      AttemptsLogged(log, monitors, q, monitor, incident);
      var attempts := AttemptsAt(log, monitors[monitor].project, monitor, incident);
      PaceStep(attempts, monitors[monitor].policy.value, q.now, now, Entry(ATTEMPT, monitors[monitor].project,
        monitor, incident, |attempts| + 1, q.now));
      assert attempts + [] == attempts;
    }
  }

  lemma NoAttempts(monitors: map<Id, Monitor>, monitor: Id, incident: Id, now: int)
    requires monitor in monitors && monitors[monitor].policy.Some?
    ensures var attempts := AttemptsAt([], monitors[monitor].project, monitor, incident);
      attempts == [] && WellPaced(attempts, monitors[monitor].policy.value, now)
  {
  }

  lemma PaceStep(attempts: seq<Entry>, policy: Policy, at: int, now: int, x: Entry)
    requires WellPaced(attempts, policy, at) && at <= now
    requires x.attempt == |attempts| + 1 && x.createdAt == at
    ensures WellPaced(attempts, policy, now)
    ensures |attempts| < policy.Retries() && (attempts != [] ==> at - Latest(attempts) >= policy.CooldownMs())
      ==> WellPaced(attempts + [x], policy, now)
  {
  }
}
