/** The continuation plan, the gate it puts before new sessions, and the way out of a
    failure that needs a human. */
module Continuation {
  import opened Values
  import opened Ledger
  import opened Protocol
  import opened Invariant
  import opened Steps
  import opened Guarantees

  // ---------------------------------------------------------------- the plan as a whole

  /** A plan is blocked exactly when some row of the workflow blocks, and complete exactly
      when there are rows and each is done or skipped. */
  lemma PlanVerdict(t: Table, w: string, p: Id)
    requires t.Valid()
    ensures PlanFor(t, w, p).status.BLOCKED? <==>
      exists k :: k in t.rows && t.rows[k].In(w, p) && t.rows[k].Blocks()
    ensures PlanFor(t, w, p).status.COMPLETED? <==>
      && (exists k :: k in t.rows && t.rows[k].In(w, p))
      && (forall k | k in t.rows && t.rows[k].In(w, p) :: t.rows[k].Done() || t.rows[k].status.SKIPPED?)
  {
    var ks, plan := Effects(t, w, p), PlanFor(t, w, p);
    assert forall k :: k in ks <==> k in t.rows && t.rows[k].In(w, p);
    StepsOfPlan(t, w, p);
    if k :| k in t.rows && t.rows[k].In(w, p) && t.rows[k].Blocks() {
      StepBlocks(k, t.rows[k]);
      assert StepOf(k, t.rows[k]) in plan.steps;
    }
    forall k | k in ks ensures StepOf(k, t.rows[k]) in plan.steps {}
    forall k | k in ks ensures StepOf(k, t.rows[k]).action.BLOCK? <==> t.rows[k].Blocks() { StepBlocks(k, t.rows[k]); }
    if ks != [] { assert ks[0] in ks; }
  }

  lemma StepBlocks(k: Key, row: Row)
    ensures StepOf(k, row).action.BLOCK? <==> row.Blocks()
    ensures StepOf(k, row).action.SKIP? <==> row.Done() || row.status.SKIPPED?
  {
  }

  lemma StepsOfPlan(t: Table, w: string, p: Id)
    requires t.Valid()
    ensures forall s :: s in PlanFor(t, w, p).steps <==> exists k :: k in Effects(t, w, p) && s == StepOf(k, t.rows[k])
  {
    hide StepOf;
    var ks, steps := Effects(t, w, p), PlanFor(t, w, p).steps;
    forall s | s in steps ensures exists k :: k in ks && s == StepOf(k, t.rows[k]) {
      var i :| 0 <= i < |steps| && steps[i] == s;
      assert ks[i] in ks;
    }
    forall k | k in ks ensures StepOf(k, t.rows[k]) in steps {
      var i :| 0 <= i < |ks| && ks[i] == k;
      assert steps[i] == StepOf(k, t.rows[k]);
    }
  }

  /** The steps come in creation order. */
  lemma {:induction false} StepsInOrder(t: Table, w: string, p: Id, i: nat, j: nat, a: nat, b: nat)
    requires forall k | k in t.order :: k in t.rows
    requires forall i, j | 0 <= i < j < |t.order| :: t.order[i] != t.order[j]
    requires i < j < |Effects(t, w, p)|
    requires a < |t.order| && b < |t.order|
    requires t.order[a] == Effects(t, w, p)[i] && t.order[b] == Effects(t, w, p)[j]
    ensures a < b
    decreases |t.order|
  {
    var last := |t.order| - 1;
    var shorter := Table(t.rows, t.order[..last]);
    if j < |Effects(shorter, w, p)| {
      assert Effects(shorter, w, p)[i] in shorter.order && Effects(shorter, w, p)[j] in shorter.order;
      StepsInOrder(shorter, w, p, i, j, a, b);
    } else {
      assert Effects(shorter, w, p)[i] in shorter.order;
    }
  }

  lemma {:induction false} EffectsOfSettled(t: Table, w: string, p: Id, t': Table)
    requires forall k | k in t.order :: k in t.rows && k in t'.rows && t'.rows[k].In(w, p) == t.rows[k].In(w, p)
    requires t'.order == t.order
    ensures Effects(t', w, p) == Effects(t, w, p)
    decreases |t.order|
  {
    if t.order != [] {
      EffectsOfSettled(Table(t.rows, t.order[..|t.order| - 1]), w, p, Table(t'.rows, t.order[..|t.order| - 1]));
    }
  }

  /** Planning again yields the same plan and changes nothing more. */
  lemma PlanningIsIdempotent(t: Table, w: string, p: Id)
    requires t.Valid()
    ensures PlanFor(Settle(t, w, p), w, p) == PlanFor(t, w, p)
    ensures Settle(Settle(t, w, p), w, p) == Settle(t, w, p)
  {
    SettlingIsIdempotent(t, w, p);
    var t' := Settle(t, w, p);
    EffectsOfSettled(t, w, p, t');
    hide StepOf, Settled;
    var ks := Effects(t, w, p);
    forall i | 0 <= i < |ks| ensures StepOf(ks[i], t'.rows[ks[i]]) == StepOf(ks[i], t.rows[ks[i]]) {
      assert ks[i] in ks;
      SettledStep(ks[i], t.rows[ks[i]]);
    }
    assert PlanFor(t', w, p).steps == PlanFor(t, w, p).steps;
  }

  lemma SettledStep(k: Key, row: Row)
    ensures StepOf(k, Settled(row)) == StepOf(k, row)
  {
  }

  lemma SettlingIsIdempotent(t: Table, w: string, p: Id)
    ensures Settle(Settle(t, w, p), w, p) == Settle(t, w, p)
  {
    assert Settle(Settle(t, w, p), w, p).rows == Settle(t, w, p).rows;
  }

  // ---------------------------------------------------------------- failures that need a human

  /** Failed for good, as far as the machine can tell. */
  predicate Unresolved(row: Row) { row.Hard() || row.status.AWAITING_APPROVAL? }

  ghost predicate StaysUnresolved(t: Table, t': Table, k: Key)
    requires k in t.rows
  {
    k in t'.rows && t'.rows[k].project == t.rows[k].project && (Unresolved(t.rows[k]) ==> Unresolved(t'.rows[k]))
  }

  lemma BeginStays(t: Table, executions: map<Id, Execution>, e: Id, op: Operation, k: Key)
    requires t.Valid() && k in t.rows
    ensures StaysUnresolved(t, BeginSideEffect(t, executions, e, op).0, k)
  {
    BeginTouches(t, executions, e, op);
    hide BeginSideEffect;
  }

  lemma ReportStays(t: Table, j: Key, report: Report, k: Key)
    requires j in t.rows && t.rows[j].status.EXECUTING? && k in t.rows
    ensures StaysUnresolved(t, ApplyReport(t, j, report), k)
  {
    hide Spread, Stored;
  }

  lemma OutcomeStays(t: Table, j: Key, outcome: Outcome, at: Json, k: Key)
    requires j in t.rows && t.rows[j].status.UNKNOWN? && k in t.rows
    ensures StaysUnresolved(t, ApplyOutcome(t, j, t.rows[j], outcome, at), k)
  {
    hide SpreadObject, VerificationNote;
  }

  lemma ApprovalStays(t: Table, j: Key, p: Id, at: Json, k: Key)
    requires k in t.rows && !(j == k && p == t.rows[k].project)
    ensures StaysUnresolved(t, ApproveSideEffect(t, j, p, at).0, k)
  {
    hide SpreadObject;
  }

  lemma SettleStays(t: Table, w: string, p: Id, k: Key)
    requires k in t.rows
    ensures StaysUnresolved(t, Settle(t, w, p), k) && StaysUnresolved(t, t, k)
  {
  }

  lemma StepKeepsUnresolved(s: State, ev: Event, k: Key)
    requires s.table.Valid() && MailOk(s) && k in s.table.rows && Unresolved(s.table.rows[k])
    requires !(ev.Approve? && ev.k == k && ev.p == s.table.rows[k].project)
    ensures k in Apply(s, ev).table.rows && Unresolved(Apply(s, ev).table.rows[k])
    ensures Apply(s, ev).table.rows[k].project == s.table.rows[k].project
  {
    ApplyTable(s, ev);
    hide Apply, BeginSideEffect, Settle, ApplyReport, ApplyOutcome, ApproveSideEffect, Unresolved, Table.Valid;
    assert StaysUnresolved(s.table, TableAfter(s, ev), k) by {
      SettleStays(s.table, "", "", k);
      match ev {
        case Gate(_, x) => if Present(x.workflow) { SettleStays(s.table, x.workflow.value, x.project, k); }
        case DeliverBegin(j, _) =>
          if j in s.sent { BeginStays(s.table, s.executions, j.exec, s.sent[j].op, k); }
        case DeliverReport(j) => if j in s.mail { ReportStays(s.table, j, s.mail[j], k); }
        case Verify(j, outcome, at) =>
          if j in s.table.rows && s.table.rows[j].status.UNKNOWN? { OutcomeStays(s.table, j, outcome, at, k); }
        case MakePlan(w, p) => SettleStays(s.table, w, p, k);
        case Approve(j, p, at) => ApprovalStays(s.table, j, p, at, k);
        case _ =>
      }
    }
  }

  lemma {:induction false} UnresolvedUntilApproved(s: State, evs: seq<Event>, k: Key)
    requires Inv(s) && Legal(s, evs) && k in s.table.rows && Unresolved(s.table.rows[k])
    requires k in Run(s, evs).table.rows ==> !Unresolved(Run(s, evs).table.rows[k])
    ensures exists ev :: ev in evs && ev.Approve? && ev.k == k && ev.p == s.table.rows[k].project
    decreases |evs|
  {
    hide Apply, Allowed, OneLive, SkipsCovered, MailOk, LogOk, SentOk, SessionsOk, Unresolved;
    if evs != [] {
      var ev := evs[0];
      if !(ev.Approve? && ev.k == k && ev.p == s.table.rows[k].project) {
        StepKeepsUnresolved(s, ev, k);
        StepKeepsInv(s, ev);
        UnresolvedUntilApproved(Apply(s, ev), evs[1..], k);
      }
    }
  }

  /** Such a failure becomes anything else only through an operator's approval, whatever
      sessions, planners and verification passes do in between. */
  lemma OnlyApprovalResolves(s: State, evs: seq<Event>, k: Key)
    requires Reachable(s) && s.table.Valid() && Legal(s, evs) && k in s.table.rows && Unresolved(s.table.rows[k])
    requires k in Run(s, evs).table.rows ==> !Unresolved(Run(s, evs).table.rows[k])
    ensures exists ev :: ev in evs && ev.Approve? && ev.k == k && ev.p == s.table.rows[k].project
  {
    ReachableInv(s);
    UnresolvedUntilApproved(s, evs, k);
  }
}
