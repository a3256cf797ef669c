/** What the ledger protocol guarantees over whole runs. */
module Guarantees {
  import opened Values
  import opened Ledger
  import opened Protocol
  import opened Invariant
  import opened BeginCases
  import opened Steps

  // ---------------------------------------------------------------- time passes

  /** Nothing that was done is undone, and nothing that was skipped is forgotten. */
  ghost predicate Later(s: State, s': State) {
    && (forall e | e in s.executions :: e in s'.executions && s'.executions[e] == s.executions[e])
    && TableLater(s.table, s'.table)
    && s.log <= s'.log
  }

  ghost predicate TableLater(t: Table, t': Table) {
    forall k | k in t.rows :: k in t'.rows && LaterRow(t.rows[k], t'.rows[k])
  }

  predicate LaterRow(row: Row, row': Row) {
    && row'.project == row.project && row'.workflow == row.workflow
    && (row.Done() ==> row'.Done())
    && (row.status.SKIPPED? ==> row'.status.SKIPPED?)
  }

  /** Serving a begin request touches no existing row, except for the marks on a running one. */
  lemma BeginTouches(t: Table, executions: map<Id, Execution>, e: Id, op: Operation)
    requires t.Valid()
    ensures var rows := BeginSideEffect(t, executions, e, op).0.rows;
      forall k | k in t.rows ::
        k in rows && (rows[k] == t.rows[k]
          || (rows[k].status.EXECUTING? && rows[k] == t.rows[k].(metadata := rows[k].metadata)))
  {
    hide BeginSideEffect, DoneRow, HolderRow, OrElse, SkipNote, ConflictNote, NewRow, Spread, Table.Valid;
    if e in executions {
      var p := executions[e].project;
      var prior, holder := DoneRow(t, p, op.fingerprint), HolderRow(t, p, op.fingerprint, e);
      if prior.Some? { WhenDone(t, executions, e, op, prior.value); }
      else if holder.Some? { WhenHeld(t, executions, e, op, holder.value); }
      else { WhenFree(t, executions, e, op); }
    } else {
      NotFound(t, executions, e, op);
    }
  }

  lemma BeginIsLater(t: Table, executions: map<Id, Execution>, e: Id, op: Operation)
    requires t.Valid()
    ensures TableLater(t, BeginSideEffect(t, executions, e, op).0)
  {
    BeginTouches(t, executions, e, op);
    hide BeginSideEffect;
  }

  lemma ReportIsLater(t: Table, k: Key, report: Report)
    requires k in t.rows ==> t.rows[k].status.EXECUTING?
    ensures TableLater(t, ApplyReport(t, k, report))
  {
    hide Spread, Stored;
  }

  lemma OutcomeIsLater(t: Table, k: Key, outcome: Outcome, at: Json)
    requires k in t.rows && t.rows[k].status.UNKNOWN?
    ensures TableLater(t, ApplyOutcome(t, k, t.rows[k], outcome, at))
  {
    hide SpreadObject, VerificationNote;
  }

  lemma ApprovalIsLater(t: Table, k: Key, p: Id, at: Json)
    ensures TableLater(t, ApproveSideEffect(t, k, p, at).0)
  {
    hide SpreadObject;
  }

  lemma SettleIsLater(t: Table, w: string, p: Id)
    ensures TableLater(t, Settle(t, w, p)) && TableLater(t, t)
  {
  }

  lemma StepIsLater(s: State, ev: Event)
    requires Inv(s) && Allowed(s, ev)
    ensures Later(s, Apply(s, ev))
  {
    hide OneLive, SkipsCovered, LogOk, SentOk, SessionsOk, TableLater, Table.Valid;
    StepTableIsLater(s, ev);
    StepKeepsHistory(s, ev);
    hide Apply;
  }

  lemma StepKeepsHistory(s: State, ev: Event)
    requires s.table.Valid() && s.gated.Keys !! s.executions.Keys
    ensures forall e | e in s.executions :: e in Apply(s, ev).executions && Apply(s, ev).executions[e] == s.executions[e]
    ensures s.log <= Apply(s, ev).log && s.late <= Apply(s, ev).late
  {
    hide PassGate, BeginSideEffect, Settle, ApplyReport, ApplyOutcome, ApproveSideEffect, Heard, Table.Valid;
  }

  lemma StepTableIsLater(s: State, ev: Event)
    requires s.table.Valid() && MailOk(s)
    ensures TableLater(s.table, Apply(s, ev).table)
  {
    ApplyTable(s, ev);
    hide Apply, BeginSideEffect, Settle, ApplyReport, ApplyOutcome, ApproveSideEffect, TableLater, Table.Valid;
    SettleIsLater(s.table, "", "");
    match ev {
      case Gate(_, x) => if Present(x.workflow) { SettleIsLater(s.table, x.workflow.value, x.project); }
      case DeliverBegin(k, _) =>
        if k in s.sent { BeginIsLater(s.table, s.executions, k.exec, s.sent[k].op); }
      case DeliverReport(k) => if k in s.mail { ReportIsLater(s.table, k, s.mail[k]); }
      case Verify(k, outcome, at) =>
        if k in s.table.rows && s.table.rows[k].status.UNKNOWN? { OutcomeIsLater(s.table, k, outcome, at); }
      case MakePlan(w, p) => SettleIsLater(s.table, w, p);
      case Approve(k, p, at) => ApprovalIsLater(s.table, k, p, at);
      case _ =>
    }
  }

  lemma {:induction false} RunIsLater(s: State, evs: seq<Event>)
    requires Inv(s) && Legal(s, evs)
    ensures Inv(Run(s, evs)) && Later(s, Run(s, evs))
    decreases |evs|
  {
    hide Apply, Allowed, OneLive, SkipsCovered, MailOk, LogOk, SentOk, SessionsOk;
    if evs == [] {
      SettleIsLater(s.table, "", "");
    } else {
      StepKeepsInv(s, evs[0]);
      StepIsLater(s, evs[0]);
      RunIsLater(Apply(s, evs[0]), evs[1..]);
    }
  }

  lemma ReachesLater(s: State, s': State)
    requires Inv(s) && Reaches(s, s')
    ensures Inv(s') && Later(s, s')
  {
    var evs :| Legal(s, evs) && Run(s, evs) == s';
    RunIsLater(s, evs);
  }

  lemma ReachableInv(s: State)
    requires Reachable(s)
    ensures Inv(s)
  {
    InitInv();
    ReachesLater(Init, s);
  }

  // ---------------------------------------------------------------- at most once

  /** Over every run, at most one return of an `execute` per project and fingerprint reaches its
      effect() call. For the returns after a timer see module LateReturns. */
  lemma AtMostOnce(s: State)
    requires Reachable(s)
    ensures forall i, j | 0 <= i < j < |s.log| ::
      s.log[i].project != s.log[j].project || s.log[i].key.fingerprint != s.log[j].key.fingerprint
  {
    ReachableInv(s);
    hide SkipsCovered, MailOk, SessionsOk, RowsOk;
    forall i, j | 0 <= i < j < |s.log|
      ensures s.log[i].project != s.log[j].project || s.log[i].key.fingerprint != s.log[j].key.fingerprint
    {
      assert s.log[i] in s.log && s.log[j] in s.log;
    }
  }

  /** Every success that reached its effect() call has a row that is EXECUTING or COMMITTED, then
      and in every later state. */
  lemma SuccessKeepsItsRow(s: State, s': State, x: Success)
    requires Reachable(s) && Reaches(s, s') && x in s.log
    ensures x.key in s'.table.rows && s'.table.rows[x.key].project == x.project && Live(s'.table.rows[x.key])
  {
    ReachableInv(s);
    ReachesLater(s, s');
    assert x in s'.log;
  }

  // ---------------------------------------------------------------- mutual exclusion

  ghost predicate Executing(s: State, k: Key, p: Id, fp: string) {
    RunningFor(s.table, p, fp, k)
  }

  lemma OneHolder(s: State, j: Key, k: Key, p: Id, fp: string)
    requires Reachable(s) && Executing(s, j, p, fp) && Executing(s, k, p, fp)
    ensures j == k
  {
    ReachableInv(s);
  }

  /** A CONFLICT answer names the execution of the one running row. */
  lemma ConflictNamesTheHolder(s: State, e: Id, op: Operation)
    requires Reachable(s) && e in s.executions
    requires s.table.Valid() && BeginSideEffect(s.table, s.executions, e, op).1.Conflict?
    ensures var h := BeginSideEffect(s.table, s.executions, e, op).1.holder;
      && h != e
      && forall k :: Executing(s, k, s.executions[e].project, op.fingerprint) <==> k == Key(h, op.fingerprint)
  {
    ReachableInv(s);
    hide Reaches, Inv, BeginSideEffect, DoneRow, HolderRow, NewRow, MarkConflict, Table.Valid;
    var p := s.executions[e].project;
    var prior, holder := DoneRow(s.table, p, op.fingerprint), HolderRow(s.table, p, op.fingerprint, e);
    if prior.Some? { WhenDone(s.table, s.executions, e, op, prior.value); }
    else if holder.Some? { WhenHeld(s.table, s.executions, e, op, holder.value); }
    else { WhenFree(s.table, s.executions, e, op); }
    forall k | Executing(s, k, p, op.fingerprint) ensures k == holder.value {
      OneHolder(s, k, holder.value, p, op.fingerprint);
    }
  }

  // ---------------------------------------------------------------- what begin answers

  /** The request of a waiting session is granted exactly when the effect is neither done
      nor running in the project and the session has no row of it yet. In particular an
      UNKNOWN or FAILED row of another execution does not hold it back. */
  lemma GrantedExactly(s: State, k: Key)
    requires Reachable(s) && BeginPending(s, k)
    ensures s.table.Valid() && k.exec in s.executions && k in s.sent
    ensures var p := s.executions[k.exec].project;
      BeginSideEffect(s.table, s.executions, k.exec, s.sent[k].op).1.Execute? <==>
        && k !in s.table.rows
        && !HasDone(s.table, p, k.fingerprint)
        && forall j :: !Executing(s, j, p, k.fingerprint)
  {
    ReachableInv(s);
    PendingRow(s, k);
    assert s.table.Valid() && k.exec in s.executions && s.sent[k].op.fingerprint == k.fingerprint;
    hide Reaches, Inv, BeginSideEffect, DoneRow, HolderRow, NewRow, Table.Valid;
    var p, op := s.executions[k.exec].project, s.sent[k].op;
    var prior, holder := DoneRow(s.table, p, k.fingerprint), HolderRow(s.table, p, k.fingerprint, k.exec);
    if prior.Some? {
      WhenDone(s.table, s.executions, k.exec, op, prior.value);
      assert HasDone(s.table, p, k.fingerprint);
    } else if holder.Some? {
      WhenHeld(s.table, s.executions, k.exec, op, holder.value);
      assert Executing(s, holder.value, p, k.fingerprint);
    } else {
      WhenFree(s.table, s.executions, k.exec, op);
      if k !in s.table.rows {
        forall j ensures !Executing(s, j, p, k.fingerprint) {
          assert j == k || j.exec != k.exec || j.fingerprint != k.fingerprint;
        }
      }
    }
  }

  /** SKIP and CONFLICT by the rows of any table. A SKIP promises that the effect is done, except to
      an execution that finds its own row when nobody has done the effect and nobody else is at it. */
  lemma SkipMeansDoneExactly(t: Table, executions: map<Id, Execution>, e: Id, op: Operation)
    requires t.Valid() && e in executions
    ensures var p, own := executions[e].project, Key(e, op.fingerprint);
      var answer := BeginSideEffect(t, executions, e, op).1;
      var done, held := HasDone(t, p, op.fingerprint), HeldByOther(t, p, op.fingerprint, e);
      && (answer.Skip? && done <==> done && own !in t.rows)
      && (answer.Skip? && !done <==> own in t.rows && !done && !held)
      && (answer.Conflict? <==> own !in t.rows && !done && held)
  {
    hide BeginSideEffect, DoneRow, HolderRow, OrElse, SkipNote, ConflictNote, MarkConflict, NewRow, Table.Valid;
    var p := executions[e].project;
    var prior, holder := DoneRow(t, p, op.fingerprint), HolderRow(t, p, op.fingerprint, e);
    if prior.Some? {
      WhenDone(t, executions, e, op, prior.value);
      assert HasDone(t, p, op.fingerprint);
    } else if holder.Some? {
      WhenHeld(t, executions, e, op, holder.value);
      assert RunningFor(t, p, op.fingerprint, holder.value);
    } else {
      WhenFree(t, executions, e, op);
    }
  }

  ghost predicate Succeeded(s: State, p: Id, fp: string) {
    exists x :: x in s.log && x.project == p && x.key.fingerprint == fp
  }

  /** What a waiting session is told once its request was served, whatever else was served since:
      an error if the effect is done or runs elsewhere by now, and otherwise SKIP, although the
      effect has not succeeded anywhere. */
  lemma ServedRequestIsTold(s: State, k: Key)
    requires Reachable(s) && BeginPending(s, k) && k in s.table.rows
    ensures s.table.Valid() && k.exec in s.executions && k in s.sent
    ensures var p := s.executions[k.exec].project;
      var taken := HasDone(s.table, p, k.fingerprint) || HeldByOther(s.table, p, k.fingerprint, k.exec);
      && BeginSideEffect(s.table, s.executions, k.exec, s.sent[k].op).1
           == (if taken then Rejected(DuplicateKey) else Skip(RaceNote))
      && (Succeeded(s, p, k.fingerprint) ==> taken)
  {
    ReachableInv(s);
    PendingRow(s, k);
    SuccessIsVisible(s, k);
    assert s.table.Valid() && k.exec in s.executions && s.sent[k].op.fingerprint == k.fingerprint;
    hide Reaches, Inv, BeginSideEffect, DoneRow, HolderRow, MarkConflict, ConflictNote, SkipNote, OrElse, NewRow,
      Succeeded, Table.Valid;
    var p, op := s.executions[k.exec].project, s.sent[k].op;
    var prior, holder := DoneRow(s.table, p, k.fingerprint), HolderRow(s.table, p, k.fingerprint, k.exec);
    if prior.Some? {
      WhenDone(s.table, s.executions, k.exec, op, prior.value);
      assert HasDone(s.table, p, k.fingerprint);
      assert prior.value != k;
    } else if holder.Some? {
      WhenHeld(s.table, s.executions, k.exec, op, holder.value);
      assert RunningFor(s.table, p, k.fingerprint, holder.value);
    } else {
      WhenFree(s.table, s.executions, k.exec, op);
    }
  }

  lemma SuccessIsVisible(s: State, k: Key)
    requires Inv(s) && BeginPending(s, k)
    ensures k.exec in s.executions
    ensures var p := s.executions[k.exec].project;
      Succeeded(s, p, k.fingerprint) ==>
        HasDone(s.table, p, k.fingerprint) || HeldByOther(s.table, p, k.fingerprint, k.exec)
  {
    hide OneLive, SkipsCovered, MailOk, SentOk;
    assert SessionOk(s, k.exec);
    var p := s.executions[k.exec].project;
    if x :| x in s.log && x.project == p && x.key.fingerprint == k.fingerprint {
      assert x.key != k;
      assert s.table.rows[x.key].Done() || RunningFor(s.table, p, k.fingerprint, x.key);
    }
  }

  lemma SkipBacked(t: Table, executions: map<Id, Execution>, e: Id, op: Operation, k: Key)
    requires t.Valid() && e in executions && BeginSideEffect(t, executions, e, op).1.Skip?
    requires DoneRow(t, executions[e].project, op.fingerprint) == Some(k)
    ensures BeginSideEffect(t, executions, e, op).1.cached == OrElse(t.rows[k].metadata, "Already executed successfully")
  {
    hide BeginSideEffect, DoneRow, OrElse, NewRow, SkipNote;
    WhenDone(t, executions, e, op, k);
  }

  /** A SKIP that is backed by a COMMITTED row replays the result of the one success of that
      row; the result comes back unchanged exactly when it is truthy. */
  lemma ReplayFidelity(s: State, e: Id, op: Operation, k: Key)
    requires Reachable(s) && e in s.executions && s.table.Valid()
    requires BeginSideEffect(s.table, s.executions, e, op).1.Skip?
    requires DoneRow(s.table, s.executions[e].project, op.fingerprint) == Some(k)
    requires s.table.rows[k].status.COMMITTED?
    ensures var p, cached := s.executions[e].project, BeginSideEffect(s.table, s.executions, e, op).1.cached;
      exists v ::
        && (forall w :: Success(k, p, w) in s.log <==> w == v)
        && (if Falsy(v) then cached == Object(map[]) != v else cached == v)
  {
    hide Reaches, BeginSideEffect, DoneRow, LogOk;
    ReachableInv(s);
    SkipBacked(s.table, s.executions, e, op, k);
    assert k in s.table.rows && s.table.rows[k].project == s.executions[e].project;
    StoredSuccess(s, k);
    var p := s.executions[e].project;
    var v :| (forall w :: Success(k, p, w) in s.log <==> w == v) && s.table.rows[k].metadata == Stored(v);
    assert if Falsy(v) then Stored(v) == Object(map[]) != v else Stored(v) == v;
  }

  /** A committed row stores the result of the one success of its key. */
  lemma StoredSuccess(s: State, k: Key)
    requires LogOk(s) && k in s.table.rows && s.table.rows[k].status.COMMITTED?
    ensures exists v ::
      && (forall w :: Success(k, s.table.rows[k].project, w) in s.log <==> w == v)
      && s.table.rows[k].metadata == Stored(v)
  {
    var p := s.table.rows[k].project;
    var x :| x in s.log && x.key == k;
    assert x == Success(k, p, x.result);
    forall w ensures Success(k, p, w) in s.log <==> w == x.result {
      if Success(k, p, w) in s.log { SameKeySameSuccess(s, x, Success(k, p, w)); }
    }
  }

  // ---------------------------------------------------------------- the plan

  /** A step that a plan marks SKIP is answered SKIP to every fresh execution of the
      project, then and in every later state. */
  lemma PlanSoundness(s: State, s': State, w: string, p: Id, i: nat, e: Id, op: Operation)
    requires Reachable(s) && Reaches(s, s') && s.table.Valid() && s'.table.Valid()
    requires i < |PlanFor(s.table, w, p).steps|
    requires PlanFor(s.table, w, p).steps[i].action.SKIP?
    requires PlanFor(s.table, w, p).steps[i].fingerprint == op.fingerprint
    requires e in s'.executions && s'.executions[e].project == p && Key(e, op.fingerprint) !in s'.table.rows
    ensures BeginSideEffect(s'.table, s'.executions, e, op).1.Skip?
  {
    ReachableInv(s);
    ReachesLater(s, s');
    SkipStepIsCovered(s, w, p, i);
    hide Reaches, Inv, PlanFor, BeginSideEffect;
    DoneStays(s, s', p, op.fingerprint);
    DoneIsSkipped(s'.table, s'.executions, e, op);
  }

  lemma DoneIsSkipped(t: Table, executions: map<Id, Execution>, e: Id, op: Operation)
    requires t.Valid() && e in executions && Key(e, op.fingerprint) !in t.rows
    requires HasDone(t, executions[e].project, op.fingerprint)
    ensures BeginSideEffect(t, executions, e, op).1.Skip?
  {
    hide BeginSideEffect, DoneRow, OrElse, SkipNote, NewRow;
    WhenDone(t, executions, e, op, DoneRow(t, executions[e].project, op.fingerprint).value);
  }

  lemma DoneStays(s: State, s': State, p: Id, fp: string)
    requires Later(s, s') && HasDone(s.table, p, fp)
    ensures HasDone(s'.table, p, fp)
  {
    var k :| k in s.table.rows && k.fingerprint == fp && s.table.rows[k].project == p && s.table.rows[k].Done();
    assert LaterRow(s.table.rows[k], s'.table.rows[k]);
  }

  lemma SkipStepIsCovered(s: State, w: string, p: Id, i: nat)
    requires Inv(s)
    requires i < |PlanFor(s.table, w, p).steps| && PlanFor(s.table, w, p).steps[i].action.SKIP?
    ensures HasDone(s.table, p, PlanFor(s.table, w, p).steps[i].fingerprint)
  {
    hide OneLive, MailOk, LogOk, SessionsOk;
    var k := Effects(s.table, w, p)[i];
    assert k in Effects(s.table, w, p);
    assert PlanFor(s.table, w, p).steps[i] == StepOf(k, s.table.rows[k]);
  }
}
