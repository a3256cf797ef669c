/** Concrete runs that show where the guarantees of the protocol end. */
module Limits {
  import opened Values
  import opened Ledger
  import opened BeginCases
  import opened Protocol
  import opened Guarantees
  import opened Continuation
  import opened EarlyApproval
  import opened Gates
  import opened Scenarios
  import opened LateReturns
  import SelfHealing

  const Charge := Operation("f", "STRIPE_CHARGE", "order", "h", None, None, None)
  const Job := Execution("p", "m", None, None, None)
  const OtherJob := Job.(monitor := "n")
  const A := Key("a", "f")
  const B := Key("b", "f")

  const FlowJob := Job.(workflow := Some("w"))
  const FlowCharge := Charge.(workflow := Some("w"))

  /** A timed-out effect is started again in another session, although the first operation may
      still take effect. */
  lemma TimedOutEffectIsStartedAgain()
    ensures exists s ::
      && Reachable(s) && s.overdue == {A}
      && A in s.table.rows && s.table.rows[A].status.UNKNOWN?
      && "b" in s.clients && s.clients["b"].phase == Running(Charge, 30_000)
  {
    hide Reaches, BeginSideEffect, Apply, Table.Valid;
    var s := TimedOut(Charge, 30_000, "p");
    s := Calls(s, "b", Charge, 30_000);
    BeginOnIdle(s.table, s.executions, "b", Charge, A);
    s := IsServed(s, B, true);
  }

  /** A session is told to skip an effect that nobody has executed: its request was served, the
      answer was lost, and the retry finds the session's own row. */
  lemma RetriedBeginIsToldSkip()
    ensures exists s ::
      && Reachable(s) && s.table.Valid() && s.log == [] && BeginPending(s, A) && A in s.sent
      && s.table.rows.Keys == {A} && s.table.rows[A].status.EXECUTING?
      && BeginSideEffect(s.table, s.executions, "a", s.sent[A].op) == (s.table, Skip(RaceNote))
  {
    hide Reaches, BeginSideEffect, Apply, Table.Valid;
    var s := Begins();
    s := Opens(s, "a", Job);
    s := Calls(s, "a", Charge, 30_000);
    BeginOnEmpty(s.executions, "a", Charge);
    s := IsServed(s, A, false);
    BeginAgain(s.table, s.executions, "a", Charge);
  }

  /** A job of another monitor is told to skip what this one has done, and gets `{}` where the
      operation returned `false`. */
  lemma ForeignFalseComesBackEmpty()
    ensures exists s ::
      && Reachable(s) && s.table.Valid()
      && s.executions == map["a" := Job, "b" := OtherJob] && Job.monitor != OtherJob.monitor
      && s.log == [Success(A, "p", Bool(false))] && BeginPending(s, B) && B in s.sent
      && BeginSideEffect(s.table, s.executions, "b", s.sent[B].op).1 == Skip(EmptyObject)
  {
    hide Reaches, BeginSideEffect, Apply, Table.Valid;
    var s := Begins();
    s := Opens(s, "a", Job);
    s := Calls(s, "a", Charge, 30_000);
    BeginOnEmpty(s.executions, "a", Charge);
    s := IsServed(s, A, true);
    s := Commits(s, "a", Charge, 30_000, Bool(false));
    s := Opens(s, "b", OtherJob);
    s := Calls(s, "b", Charge, 30_000);
    assert s.table.rows.Keys == {A} && s.table.rows[A].Done() && s.table.rows[A].metadata == EmptyObject;
    BeginOnDone(s.table, s.executions, "b", Charge, A);
  }

  // ---------------------------------------------------------------- the gate

  /** The plan lets a session request go on, and before the session is created a report turns a
      row of its workflow UNKNOWN: the session finds its workflow blocked. */
  lemma GateIsOvertaken()
    ensures exists s ::
      && Reachable(s) && s.table.Valid() && "b" in s.gated && s.gated["b"] == FlowJob && "b" !in s.executions
      && "b" in Apply(s, Create("b", true)).executions
      && !Unblocked(Apply(s, Create("b", true)).table, "w", "p")
  {
    hide Reaches, BeginSideEffect, Table.Valid;
    var s := ChargeRuns();
    assert Unblocked(s.table, "w", "p");
    GatePassesExactly(s, "b", FlowJob);
    hide PassGate;
    var s' := Follow(s, Gate("b", FlowJob));
    assert s' == s.(table := s'.table, gated := s'.gated);
    assert s'.table.rows.Keys == {A} && s'.table.rows[A] == s.table.rows[A] by { GateKeepsRunning(s, A, FlowJob); }
    s' := TimesOut(s', "a", FlowCharge, 30_000, "slow");
    assert s'.table.rows[A].status.UNKNOWN? && s'.table.rows[A].In("w", "p");
    assert s'.gated["b"] == FlowJob;
  }

  /** A replay that goes ahead because nothing blocks the workflow of the last execution is held
      back for its delay, and by the end of the delay the workflow may be blocked. */
  lemma ReplayIsOvertaken(m: SelfHealing.Monitor, valid: string -> bool, random: real)
    requires m.heartbeat && m.policy.Some? && m.policy.value.autoReplay
    requires SelfHealing.Usable(Either(m.policy.value.replayUrl, m.policy.value.webhookUrl), valid)
    ensures var url := Either(m.policy.value.replayUrl, m.policy.value.webhookUrl).value;
      exists s, s' ::
        && Reachable(s) && Reaches(s, s') && s.executions == s'.executions == map["a" := FlowJob]
        && !SelfHealing.WorkflowBlocked(s.table, s.executions, Some("a"), "p")
        && SelfHealing.WebhookOf(m, m.policy.value, false, valid, random)
             == Some(SelfHealing.AutoReplay(url, m.policy.value.DelayMs(random)))
        && SelfHealing.WorkflowBlocked(s'.table, s'.executions, Some("a"), "p")
  {
    hide Reaches, BeginSideEffect, Table.Valid, Unblocked, SelfHealing.Policy.DelayMs;
    var s := ChargeRuns();
    assert Unblocked(s.table, "w", "p") by { RunningBlocksNothing(s.table, "w", "p"); }
    var s' := ChargeOverruns(s);
  }

  lemma RunningBlocksNothing(t: Table, w: string, p: Id)
    requires forall k | k in t.rows :: t.rows[k].status.EXECUTING?
    ensures Unblocked(t, w, p)
  {
  }

  lemma ChargeOverruns(s: State) returns (s': State)
    requires s.table.Valid() && "a" in s.clients && s.clients["a"].phase == Running(FlowCharge, 30_000)
    requires s.table.rows == map[A := NewRow(FlowJob, FlowCharge, EXECUTING, EmptyObject)]
    ensures Reaches(s, s') && s'.executions == s.executions && !Unblocked(s'.table, "w", "p")
  {
    hide Reaches, Table.Valid, TableAfter;
    ReachesItself(s);
    s' := Go(s, s, TimeOut("a", "slow"));
    s' := Go(s, s', DeliverReport(A));
    assert s'.table.rows[A].status.UNKNOWN? && s'.table.rows[A].In("w", "p");
  }

  lemma GateKeepsRunning(s: State, k: Key, x: Execution)
    requires s.table.Valid() && s.table.rows.Keys == {k} && s.table.rows[k].status.EXECUTING?
    ensures PassGate(s.table, x).0.rows == s.table.rows
  {
    hide PlanFor;
    if Present(x.workflow) { assert Settle(s.table, x.workflow.value, x.project).rows == s.table.rows; }
  }

  /** One session of workflow "w", with its operation running. */
  lemma ChargeRuns() returns (s: State)
    ensures Reachable(s) && s.table.Valid() && s.mail == map[] && s.gated == map[]
    ensures s.executions == map["a" := FlowJob] && s.clients == map["a" := Client(Running(FlowCharge, 30_000), map[])]
    ensures s.table.rows == map[A := NewRow(FlowJob, FlowCharge, EXECUTING, EmptyObject)]
  {
    hide Reaches, BeginSideEffect, Apply;
    s := Begins();
    s := Opens(s, "a", FlowJob);
    s := Calls(s, "a", FlowCharge, 30_000);
    BeginOnEmpty(s.executions, "a", FlowCharge);
    s := IsServed(s, A, true);
  }

  // ---------------------------------------------------------------- approvals

  lemma BothWait() returns (s: State)
    ensures Reachable(s) && s.table == EmptyTable && s.table.Valid() && s.log == [] && s.mail == map[]
    ensures s.executions == map["a" := FlowJob, "b" := FlowJob]
    ensures s.clients == map["a" := Client(Beginning(FlowCharge, 30_000), map[]),
                             "b" := Client(Beginning(FlowCharge, 30_000), map[])]
    ensures s.sent == map[A := EffectCall(FlowCharge, 30_000), B := EffectCall(FlowCharge, 30_000)]
  {
    hide Reaches, Apply;
    s := Begins();
    s := Opens(s, "a", FlowJob);
    s := Opens(s, "b", FlowJob);
    s := Calls(s, "a", FlowCharge, 30_000);
    s := Calls(s, "b", FlowCharge, 30_000);
  }

  /** The operation of a runs; the request of b met the conflict, but b has not heard of it. */
  lemma ConflictUnheard() returns (s: State)
    ensures Reachable(s) && s.table.Valid() && s.log == [] && s.mail == map[]
    ensures s.executions == map["a" := FlowJob, "b" := FlowJob]
    ensures s.clients == map["a" := Client(Running(FlowCharge, 30_000), map[]),
                             "b" := Client(Beginning(FlowCharge, 30_000), map[])]
    ensures s.sent == map[A := EffectCall(FlowCharge, 30_000), B := EffectCall(FlowCharge, 30_000)]
    ensures s.table.rows.Keys == {A, B} && s.table.rows[A].status.EXECUTING? && s.table.rows[A].project == "p"
    ensures s.table.rows[B].Hard() && s.table.rows[B].In("w", "p")
  {
    hide Reaches, BeginSideEffect, Apply, Table.Valid;
    s := BothWait();
    BeginOnEmpty(s.executions, "a", FlowCharge);
    s := IsServed(s, A, true);
    BeginOnHeld(s.table, s.executions, "b", FlowCharge, A);
    s := IsServed(s, B, false);
  }

  /** The trust in the operator is needed: if an effect that met a conflict is approved while its
      session still retries the request, the next retry is granted and both sessions succeed. */
  lemma ApprovalDuringRetryDuplicates()
    ensures exists s, h ::
      && Reachable(s) && s.table.Valid() && s.log == [] && B in s.table.rows
      && Wins(AfterEarlyApproval(s, B, Null, h, Text("x"), Text("y")).log, "p", "f") >= 2
  {
    hide Reaches, AfterEarlyApproval, Wins;
    var s := ApprovalDuringRetry();
    DuplicatesAtOnceExactly(s, B, Null, Text("x"), Text("y"));
    assert NoLaterDone(s.table, B);
    assert RunsElsewhere(s, "a", "p", "f");
  }

  /** The effect of b awaits approval, its request waits for an answer, and a runs the effect. */
  lemma ApprovalDuringRetry() returns (s: State)
    ensures Reachable(s) && s.table.Valid() && s.log == [] && BeginPending(s, B)
    ensures B in s.table.rows && s.table.rows[B].status.AWAITING_APPROVAL? && s.table.rows[B].project == "p"
    ensures forall k | k in s.table.rows :: !s.table.rows[k].Done()
    ensures "a" in s.clients && s.clients["a"].phase == Running(FlowCharge, 30_000)
    ensures s.executions == map["a" := FlowJob, "b" := FlowJob]
  {
    hide Reaches, BeginSideEffect, Apply, Table.Valid;
    s := ConflictUnheard();
    s := IsPlanned(s, "w", "p");
  }

  /** The other kind of an early approval: when the holder has timed out, the retry of b is told
      SKIP, so that b goes on while its effect awaits approval. */
  lemma RememberedWhileAwaiting()
    ensures exists s ::
      && Reachable(s) && "b" in s.clients && s.clients["b"].phase.Idle? && "f" in s.clients["b"].cache
      && B in s.table.rows && s.table.rows[B].status.AWAITING_APPROVAL? && s.log == []
  {
    hide Reaches, BeginSideEffect, Apply, Table.Valid;
    var s := ConflictUnheard();
    s := TimesOut(s, "a", FlowCharge, 30_000, "slow");
    assert s.table.rows.Keys == {A, B} && s.table.rows[A].status.UNKNOWN?;
    NobodyAtIt(s.table, s.executions, "b", FlowCharge);
    s := IsServed(s, B, true);
    s := IsPlanned(s, "w", "p");
  }

  lemma NobodyAtIt(t: Table, executions: map<Id, Execution>, e: Id, op: Operation)
    requires t.Valid() && e in executions && Key(e, op.fingerprint) in t.rows
    requires forall k | k in t.rows :: !t.rows[k].Done() && !t.rows[k].status.EXECUTING?
    ensures BeginSideEffect(t, executions, e, op) == (t, Skip(RaceNote))
  {
    hide BeginSideEffect, NewRow;
    assert DoneRow(t, executions[e].project, op.fingerprint) == None;
    assert HolderRow(t, executions[e].project, op.fingerprint, e) == None;
    WhenFree(t, executions, e, op);
  }
}
