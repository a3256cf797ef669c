/** The gate in front of new sessions. The handler asks for the plan and then for the session;
    other calls may be served in between. */
module Gates {
  import opened Values
  import opened Ledger
  import opened BeginCases
  import opened Protocol
  import opened Invariant
  import opened Steps
  import opened Guarantees
  import opened Continuation

  ghost predicate Unblocked(t: Table, w: string, p: Id) {
    forall k | k in t.rows && t.rows[k].In(w, p) :: !t.rows[k].Blocks()
  }

  /** A request for a session of a workflow passes the gate exactly when the workflow has no
      UNKNOWN, AWAITING_APPROVAL or non-transient FAILED row in the project. */
  lemma GatePassesExactly(s: State, e: Id, x: Execution)
    requires s.table.Valid() && e !in s.gated && Present(x.workflow)
    ensures e in Apply(s, Gate(e, x)).gated <==> Unblocked(s.table, x.workflow.value, x.project)
  {
    hide Settle, PlanFor;
    PlanVerdict(s.table, x.workflow.value, x.project);
  }

  /** If nothing is served between the two calls, a session is created exactly when the breaker
      admits it and no row blocks, and it finds its workflow unblocked. */
  lemma BlockedUntilResolved(s: State, e: Id, x: Execution, admitted: bool)
    requires s.table.Valid() && e !in s.executions && e !in s.gated && Present(x.workflow)
    ensures var s' := Apply(Apply(s, Gate(e, x)), Create(e, admitted));
      && (e in s'.executions <==> admitted && Unblocked(s.table, x.workflow.value, x.project))
      && (e in s'.executions ==> Unblocked(s'.table, x.workflow.value, x.project))
  {
    hide PlanFor;
    PlanVerdict(s.table, x.workflow.value, x.project);
    SettlingBlocksNothing(s.table, x.workflow.value, x.project, x.workflow.value, x.project);
    hide Settle;
  }

  lemma SettlingBlocksNothing(t: Table, w': string, p': Id, w: string, p: Id)
    ensures Unblocked(Settle(t, w', p'), w, p) <==> Unblocked(t, w, p)
  {
    var t' := Settle(t, w', p');
    forall k | k in t.rows
      ensures k in t'.rows && t'.rows[k].In(w, p) == t.rows[k].In(w, p) && t'.rows[k].Blocks() == t.rows[k].Blocks()
    {}
    hide Row.Blocks, Row.In, Settle;
  }

  // ---------------------------------------------------------------- over whole runs

  /** The request of `e` passed the gate at step `i`, at an unblocked workflow. */
  ghost predicate PassedAt(evs: seq<Event>, i: nat, e: Id, x: Execution)
    requires i < |evs|
  {
    evs[i] == Gate(e, x)
    && (Present(x.workflow) ==> Unblocked(Run(Init, evs[..i]).table, x.workflow.value, x.project))
  }

  ghost predicate Passed(evs: seq<Event>, e: Id, x: Execution) {
    exists i: nat :: i < |evs| && PassedAt(evs, i, e, x)
  }

  lemma {:induction false} RunPrefix(s: State, evs: seq<Event>)
    requires s.table.Valid() && evs != []
    ensures Run(s, evs) == Apply(Run(s, evs[..|evs| - 1]), evs[|evs| - 1])
    ensures Legal(s, evs) ==> Legal(s, evs[..|evs| - 1]) && Allowed(Run(s, evs[..|evs| - 1]), evs[|evs| - 1])
    decreases |evs|
  {
    hide Apply, Allowed;
    var n := |evs| - 1;
    if n > 0 {
      RunPrefix(Apply(s, evs[0]), evs[1..]);
      assert evs[1..][..n - 1] == evs[..n][1..];
    }
  }

  lemma PassedLater(evs: seq<Event>, ev: Event, e: Id, x: Execution)
    requires Passed(evs, e, x)
    ensures Passed(evs + [ev], e, x)
  {
    var i: nat :| i < |evs| && PassedAt(evs, i, e, x);
    assert (evs + [ev])[..i] == evs[..i];
    assert PassedAt(evs + [ev], i, e, x);
  }

  /** Every session ever created, and every request about to be, has passed the gate at a moment
      when its workflow was not blocked. */
  lemma {:induction false} SessionsPassedTheGate(evs: seq<Event>, e: Id)
    requires Legal(Init, evs)
    ensures var s := Run(Init, evs);
      && (e in s.gated ==> Passed(evs, e, s.gated[e]))
      && (e in s.executions ==> Passed(evs, e, s.executions[e]))
    decreases |evs|
  {
    if evs != [] {
      var n := |evs| - 1;
      var rest, ev := evs[..n], evs[n];
      var s := Run(Init, rest);
      RunPrefix(Init, evs);
      SessionsPassedTheGate(rest, e);
      assert evs == rest + [ev];
      SessionsAfter(s, ev, e);
      hide Apply, Allowed, Run, Passed;
      if e in s.gated { PassedLater(rest, ev, e, s.gated[e]); }
      if e in s.executions { PassedLater(rest, ev, e, s.executions[e]); }
      if ev.Gate? && ev.e == e && e !in s.gated && e in Apply(s, ev).gated { PassesNow(evs, s, e, ev.x); }
    }
  }

  lemma PassesNow(evs: seq<Event>, s: State, e: Id, x: Execution)
    requires evs != [] && evs[|evs| - 1] == Gate(e, x) && s == Run(Init, evs[..|evs| - 1])
    requires e !in s.gated && e in Apply(s, Gate(e, x)).gated
    ensures Passed(evs, e, x)
  {
    hide Run, PassGate;
    if Present(x.workflow) { GatePassesExactly(s, e, x); }
    assert PassedAt(evs, |evs| - 1, e, x);
  }

  /** Where gated requests and sessions come from. */
  lemma SessionsAfter(s: State, ev: Event, e: Id)
    requires s.table.Valid() && Allowed(s, ev)
    ensures var s' := Apply(s, ev);
      && (e in s'.gated && e !in s.gated ==> ev == Gate(e, s'.gated[e]))
      && (e in s'.gated && e in s.gated ==> s'.gated[e] == s.gated[e])
      && (e in s'.executions && e !in s.executions ==> e in s.gated && s'.executions[e] == s.gated[e])
      && (e in s'.executions && e in s.executions ==>
            s'.executions[e] == s.executions[e] || (e in s.gated && s'.executions[e] == s.gated[e]))
  {
    hide PassGate, BeginSideEffect, Settle, ApplyReport, ApplyOutcome, ApproveSideEffect, Heard, Table.Valid;
  }

  // ---------------------------------------------------------------- what can block it meanwhile

  /** The effect of `k` is not done and runs elsewhere, and `k` has no row yet. */
  ghost predicate MeetsConflict(t: Table, p: Id, k: Key) {
    k !in t.rows && !HasDone(t, p, k.fingerprint) && HeldByOther(t, p, k.fingerprint, k.exec)
  }

  /** The step brings a row of the workflow into a state that blocks it: a report of an unknown
      outcome or a hard failure arrives, or a begin request of the workflow meets a conflict. */
  ghost predicate Raises(s: State, ev: Event, w: string, p: Id) {
    match ev
    case DeliverReport(k) =>
      && k in s.mail && k in s.table.rows && s.table.rows[k].In(w, p)
      && (s.mail[k].Unknown? || (s.mail[k].Fail? && s.table.rows[k].failureType != Some(TRANSIENT)))
    case DeliverBegin(k, _) =>
      && k in s.sent && k.exec in s.executions
      && s.executions[k.exec].workflow == Some(w) && s.executions[k.exec].project == p
      && MeetsConflict(s.table, p, k)
    case _ => false
  }

  lemma ReportBlocks(t: Table, k: Key, report: Report, w: string, p: Id)
    requires k in t.rows && Unblocked(t, w, p)
    ensures Unblocked(ApplyReport(t, k, report), w, p) <==>
      !(t.rows[k].In(w, p) && (report.Unknown? || (report.Fail? && t.rows[k].failureType != Some(TRANSIENT))))
  {
    hide Spread, Stored;
    var t' := ApplyReport(t, k, report);
    assert t'.rows[k].In(w, p) == t.rows[k].In(w, p);
    assert t'.rows[k].Blocks() <==> report.Unknown? || (report.Fail? && t.rows[k].failureType != Some(TRANSIENT));
    assert forall j | j in t.rows && j != k :: t'.rows[j] == t.rows[j];
    assert t'.rows.Keys == t.rows.Keys;
    hide ApplyReport, Row.In, Row.Blocks;
  }

  lemma BeginBlocks(s: State, k: Key, w: string, p: Id)
    requires s.table.Valid() && RowFits(s, k) && Unblocked(s.table, w, p)
    ensures Unblocked(BeginSideEffect(s.table, s.executions, k.exec, s.sent[k].op).0, w, p) <==>
      !(s.executions[k.exec].workflow == Some(w) && s.executions[k.exec].project == p && MeetsConflict(s.table, p, k))
  {
    var x, op := s.executions[k.exec], s.sent[k].op;
    assert Either(op.workflow, x.workflow) == x.workflow;
    SkipMeansDoneExactly(s.table, s.executions, k.exec, op);
    hide BeginSideEffect, DoneRow, HolderRow, MarkConflict, OrElse, SkipNote, ConflictNote, Unblocked, Row.In,
      Row.Blocks, HasDone, HeldByOther;
    var t, prior, holder := s.table, DoneRow(s.table, x.project, k.fingerprint),
      HolderRow(s.table, x.project, k.fingerprint, k.exec);
    if prior.Some? {
      WhenDone(t, s.executions, k.exec, op, prior.value);
      if k !in t.rows { AddBlocks(t, k, NewRow(x, op, SKIPPED, SkipNote(prior.value.exec)), w, p); }
    } else if holder.Some? {
      WhenHeld(t, s.executions, k.exec, op, holder.value);
      MarkBlocksNothing(t, holder.value, k.exec, w, p);
      var marked := t.Update(holder.value, MarkConflict(t.rows[holder.value], k.exec));
      if k !in t.rows { AddBlocks(marked, k, NewRow(x, op, FAILED, ConflictNote(holder.value.exec)), w, p); }
    } else {
      WhenFree(t, s.executions, k.exec, op);
      if k !in t.rows { AddBlocks(t, k, NewRow(x, op, EXECUTING, EmptyObject), w, p); }
    }
  }

  /** Of the rows that a begin request can add, only a conflict blocks. */
  lemma AddBlocks(t: Table, k: Key, row: Row, w: string, p: Id)
    requires Unblocked(t, w, p) && k !in t.rows && row.failureType == None
    requires row.status.SKIPPED? || row.status.FAILED? || row.status.EXECUTING?
    ensures Unblocked(Table(t.rows[k := row], t.order + [k]), w, p) <==>
      !(row.workflow == Some(w) && row.project == p && row.status.FAILED?)
  {
    var t' := Table(t.rows[k := row], t.order + [k]);
    assert t'.rows[k] == row;
  }

  lemma MarkBlocksNothing(t: Table, h: Key, e: Id, w: string, p: Id)
    requires Unblocked(t, w, p) && h in t.rows && t.rows[h].status.EXECUTING?
    ensures Unblocked(t.Update(h, MarkConflict(t.rows[h], e)), w, p)
  {
    hide Spread;
  }

  lemma ApprovalBlocksNothing(t: Table, k: Key, p': Id, at: Json, w: string, p: Id)
    requires Unblocked(t, w, p)
    ensures Unblocked(ApproveSideEffect(t, k, p', at).0, w, p)
  {
    hide SpreadObject;
  }

  lemma OutcomeBlocksNothing(t: Table, k: Key, outcome: Outcome, at: Json, w: string, p: Id)
    requires Unblocked(t, w, p) && k in t.rows && t.rows[k].status.UNKNOWN?
    ensures Unblocked(ApplyOutcome(t, k, t.rows[k], outcome, at), w, p)
  {
    hide SpreadObject, VerificationNote;
  }

  /** An unblocked workflow is blocked after a step exactly when the step raises a block. */
  lemma BlocksExactly(s: State, ev: Event, w: string, p: Id)
    requires Inv(s) && Unblocked(s.table, w, p)
    ensures s.table.Valid() && (Unblocked(Apply(s, ev).table, w, p) <==> !Raises(s, ev, w, p))
  {
    hide Apply, OneLive, SkipsCovered, LogOk, SessionsOk, Unblocked, BeginSideEffect, ApplyReport, ApplyOutcome, Settle,
      ApproveSideEffect, Row.In, PlanFor;
    ApplyTable(s, ev);
    match ev {
      case Gate(_, x) =>
        if Present(x.workflow) { SettlingBlocksNothing(s.table, x.workflow.value, x.project, w, p); }
      case MakePlan(w', p') => SettlingBlocksNothing(s.table, w', p', w, p);
      case DeliverBegin(k, _) => if k in s.sent { RowFitsAlways(s, k); BeginBlocks(s, k, w, p); }
      case DeliverReport(k) => if k in s.mail { ReportBlocks(s.table, k, s.mail[k], w, p); }
      case Verify(k, outcome, at) =>
        if k in s.table.rows && s.table.rows[k].status.UNKNOWN? {
          OutcomeBlocksNothing(s.table, k, outcome, at, w, p);
        }
      case Approve(k, p', at) => ApprovalBlocksNothing(s.table, k, p', at, w, p);
      case _ =>
    }
  }

  ghost predicate UnblockedThroughout(s: State, evs: seq<Event>, w: string, p: Id)
    requires s.table.Valid()
    decreases |evs|
  {
    Unblocked(s.table, w, p) && (evs == [] || UnblockedThroughout(Apply(s, evs[0]), evs[1..], w, p))
  }

  ghost predicate NothingRaised(s: State, evs: seq<Event>, w: string, p: Id)
    requires s.table.Valid()
    decreases |evs|
  {
    evs == [] || (!Raises(s, evs[0], w, p) && NothingRaised(Apply(s, evs[0]), evs[1..], w, p))
  }

  /** From a moment at which the workflow is unblocked, such as a passed gate or a plan that let
      a replay go ahead, it stays so throughout a run exactly when no step raises a block. */
  lemma {:induction false} UnblockedExactly(s: State, evs: seq<Event>, w: string, p: Id)
    requires Inv(s) && Legal(s, evs) && Unblocked(s.table, w, p)
    ensures UnblockedThroughout(s, evs, w, p) <==> NothingRaised(s, evs, w, p)
    decreases |evs|
  {
    hide Apply, Allowed, OneLive, SkipsCovered, MailOk, LogOk, SentOk, SessionsOk, Unblocked, Raises;
    if evs != [] {
      BlocksExactly(s, evs[0], w, p);
      StepKeepsInv(s, evs[0]);
      if !Raises(s, evs[0], w, p) { UnblockedExactly(Apply(s, evs[0]), evs[1..], w, p); }
    }
  }

  lemma {:induction false} ThroughoutToTheEnd(s: State, evs: seq<Event>, w: string, p: Id)
    requires s.table.Valid() && UnblockedThroughout(s, evs, w, p)
    ensures Unblocked(Run(s, evs).table, w, p)
    decreases |evs|
  {
    hide Apply, Unblocked;
    if evs != [] { ThroughoutToTheEnd(Apply(s, evs[0]), evs[1..], w, p); }
  }

  /** A session finds its workflow unblocked if nothing was raised since its request passed. */
  lemma CreatedUnblocked(s: State, e: Id, x: Execution, evs: seq<Event>)
    requires Reachable(s) && s.table.Valid() && Present(x.workflow) && Allowed(s, Gate(e, x))
    requires e in Apply(s, Gate(e, x)).gated
    requires Legal(Apply(s, Gate(e, x)), evs)
    requires NothingRaised(Apply(s, Gate(e, x)), evs, x.workflow.value, x.project)
    ensures Unblocked(Run(Apply(s, Gate(e, x)), evs).table, x.workflow.value, x.project)
  {
    hide Reaches, Inv, Unblocked, Raises, Legal, Run, PlanFor;
    ReachableInv(s);
    StepKeepsInv(s, Gate(e, x));
    GatePassesExactly(s, e, x);
    SettlingBlocksNothing(s.table, x.workflow.value, x.project, x.workflow.value, x.project);
    var s' := Apply(s, Gate(e, x));
    UnblockedExactly(s', evs, x.workflow.value, x.project);
    ThroughoutToTheEnd(s', evs, x.workflow.value, x.project);
  }
}
