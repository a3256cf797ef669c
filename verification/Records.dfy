/** What a begin request writes, field by field, and what a row remembers of its request. */
module Records {
  import opened Values
  import opened Ledger
  import opened BeginCases
  import opened Protocol
  import opened Invariant
  import opened Steps
  import opened Guarantees

  // ---------------------------------------------------------------- one begin request

  /** Type, target and input are those of the operation; workflow and agent are too, and those of
      the session where the operation names none. */
  predicate StandsFor(row: Row, x: Execution, op: Operation) {
    && row.project == x.project && row.effectType == op.effectType && row.target == op.target
    && row.inputHash == op.inputHash
    && row.workflow == (if op.workflow == None || op.workflow == Some("") then x.workflow else op.workflow)
    && row.agent == (if op.agent == None || op.agent == Some("") then x.agent else op.agent)
    && row.provider == (if row.status == SKIPPED then None else op.provider)
  }

  /** The done row of the effect that was created last. */
  ghost predicate LastDone(t: Table, p: Id, fp: string, d: Key) {
    exists i :: 0 <= i < |t.order| && t.order[i] == d && DoneFor(t, p, fp, d)
      && forall j | i < j < |t.order| :: !DoneFor(t, p, fp, t.order[j])
  }

  /** A replay of `original`, in the row and in the answer. */
  predicate Skipped(row: Row, answer: Answer, original: Row, d: Key) {
    && row.status == SKIPPED
    && row.metadata == Object(map["originalExecutionId" := Text(d.exec),
                                  "message" := Text("Bypassed via Global Memory")])
    && answer == Skip(if !Falsy(original.metadata) then original.metadata
                      else Object(map["message" := Text("Already executed successfully")]))
  }

  /** A conflict with the execution of `h`. */
  predicate Halted(row: Row, answer: Answer, h: Key) {
    && row.status == FAILED && answer == Conflict(h.exec)
    && row.metadata == Object(map["conflict" := Bool(true), "conflictingExecutionId" := Text(h.exec),
         "message" := Text("Halted due to concurrent execution of the same fingerprint")])
  }

  /** The row of a first request, and the answer to it. */
  lemma BeginWrites(t: Table, executions: map<Id, Execution>, e: Id, op: Operation)
    requires t.Valid() && e in executions && Key(e, op.fingerprint) !in t.rows
    ensures var p, k := executions[e].project, Key(e, op.fingerprint);
      var (t', answer) := BeginSideEffect(t, executions, e, op);
      var done, held := HasDone(t, p, op.fingerprint), HeldByOther(t, p, op.fingerprint, e);
      && k in t'.rows && t'.order == t.order + [k] && t'.rows.Keys == t.rows.Keys + {k}
      && StandsFor(t'.rows[k], executions[e], op) && t'.rows[k].failureType == None && t'.rows[k].receipt == Null
      && (done ==> exists d :: LastDone(t, p, op.fingerprint, d) && Skipped(t'.rows[k], answer, t.rows[d], d))
      && (!done && held ==>
            exists h :: RunningFor(t, p, op.fingerprint, h) && h.exec != e && Halted(t'.rows[k], answer, h))
      && (!done && !held ==>
            answer == Execute && t'.rows[k].status == EXECUTING && t'.rows[k].metadata == Object(map[]))
  {
    hide BeginSideEffect, DoneRow, HolderRow, MarkConflict, Table.Valid, HasDone, HeldByOther, LastDone;
    var p, fp := executions[e].project, op.fingerprint;
    var prior, holder := DoneRow(t, p, fp), HolderRow(t, p, fp, e);
    Situation(t, p, fp, e);
    if prior.Some? {
      WhenDone(t, executions, e, op, prior.value);
      FoundLast(t, p, fp, prior.value);
    } else if holder.Some? {
      WhenHeld(t, executions, e, op, holder.value);
    } else {
      WhenFree(t, executions, e, op);
    }
  }

  lemma Situation(t: Table, p: Id, fp: string, e: Id)
    requires t.Valid()
    ensures HasDone(t, p, fp) <==> DoneRow(t, p, fp).Some?
    ensures HeldByOther(t, p, fp, e) <==> HolderRow(t, p, fp, e).Some?
  {
    hide DoneRow, HolderRow, Table.Valid;
    if HolderRow(t, p, fp, e).Some? { assert RunningFor(t, p, fp, HolderRow(t, p, fp, e).value); }
  }

  lemma FoundLast(t: Table, p: Id, fp: string, d: Key)
    requires t.Valid() && DoneRow(t, p, fp) == Some(d)
    ensures LastDone(t, p, fp, d)
  {
    hide DoneRow, DoneFor;
    var i :| 0 <= i < |t.order| && t.order[i] == d;
    DoneRowExactly(t, p, fp, i);
  }

  /** A conflict is noted on the running row: two entries of its metadata, and nothing else. */
  ghost predicate Marked(before: Row, after: Row, e: Id) {
    && after == before.(metadata := after.metadata) && after.metadata.Object?
    && (before.metadata.Object? ==>
          after.metadata.fields
            == before.metadata.fields["conflict" := Bool(true)]["conflictingExecutionId" := Text(e)])
  }

  /** What a request does to the rows that are there already: nothing, except that a conflict is
      noted on one running row of another execution. */
  lemma BeginMarks(t: Table, executions: map<Id, Execution>, e: Id, op: Operation)
    requires t.Valid() && e in executions
    ensures var p, t' := executions[e].project, BeginSideEffect(t, executions, e, op).0;
      var conflict := !HasDone(t, p, op.fingerprint) && HeldByOther(t, p, op.fingerprint, e);
      && (forall j | j in t.rows :: j in t'.rows)
      && (!conflict ==> forall j | j in t.rows :: t'.rows[j] == t.rows[j])
      && (conflict ==> exists h ::
            (RunningFor(t, p, op.fingerprint, h) && h.exec != e && Marked(t.rows[h], t'.rows[h], e)
             && forall j | j in t.rows && j != h :: t'.rows[j] == t.rows[j]))
  {
    hide BeginSideEffect, DoneRow, HolderRow, OrElse, ConflictNote, SkipNote, NewRow, Table.Valid;
    var p, fp := executions[e].project, op.fingerprint;
    var prior, holder := DoneRow(t, p, fp), HolderRow(t, p, fp, e);
    if prior.Some? {
      WhenDone(t, executions, e, op, prior.value);
      assert HasDone(t, p, fp);
    } else if holder.Some? {
      WhenHeld(t, executions, e, op, holder.value);
      assert RunningFor(t, p, fp, holder.value);
      MarkIs(t.rows[holder.value], e);
      hide MarkConflict;
    } else {
      WhenFree(t, executions, e, op);
    }
  }

  lemma MarkIs(row: Row, e: Id)
    ensures Marked(row, MarkConflict(row, e), e)
  {
    if row.metadata.Object? {
      assert MarkConflict(row, e).metadata.fields
          == row.metadata.fields["conflict" := Bool(true)]["conflictingExecutionId" := Text(e)];
    }
  }

  // ---------------------------------------------------------------- the other operations

  /** A report sets the status and what belongs to it, and leaves the rest of the row. */
  lemma ReportWrites(t: Table, k: Key, report: Report)
    requires k in t.rows
    ensures var t' := ApplyReport(t, k, report);
      && t'.order == t.order && t'.rows.Keys == t.rows.Keys
      && (forall j | j in t.rows && j != k :: t'.rows[j] == t.rows[j])
      && match report
         case Commit(result, receipt) =>
           t'.rows[k] == t.rows[k].(status := COMMITTED, receipt := receipt,
                                    metadata := if Falsy(result) then Object(map[]) else result)
         case Unknown(reason) =>
           t'.rows[k] == t.rows[k].(status := UNKNOWN, metadata := Object(map["reason" := Text(reason)]))
         case Fail(error, Null) =>
           t'.rows[k] == t.rows[k].(status := FAILED, metadata := Object(map["error" := Text(error)]))
         case Fail(error, Object(extra)) =>
           t'.rows[k] == t.rows[k].(status := FAILED, metadata := Object(map["error" := Text(error)] + extra))
         case Fail(_, _) => t'.rows[k] == t.rows[k].(status := FAILED, metadata := t'.rows[k].metadata)
  {
    match report {
      case Fail(error, Null) => assert map["error" := Text(error)] + map[] == map["error" := Text(error)];
      case _ =>
    }
  }

  /** An object is added to the metadata under a name of its own; other entries stay. */
  ghost predicate Noted(before: Json, after: Json, name: string, note: map<string, Json>) {
    && after.Object? && name in after.fields && after.fields[name].Object?
    && (forall f | f in note :: f in after.fields[name].fields && after.fields[name].fields[f] == note[f])
    && (before.Object? ==> forall f | f != name ::
          (f in after.fields <==> f in before.fields) && (f in before.fields ==> after.fields[f] == before.fields[f]))
  }

  /** An answer of a verifier decides on the status and on the kind of the failure, keeps the
      metadata and notes the change. */
  lemma OutcomeWrites(t: Table, k: Key, outcome: Outcome, at: Json)
    requires k in t.rows
    ensures var t' := ApplyOutcome(t, k, t.rows[k], outcome, at);
      && t'.order == t.order && t'.rows.Keys == t.rows.Keys
      && (forall j | j in t.rows && j != k :: t'.rows[j] == t.rows[j])
      && (outcome == IsUnknown ==> t'.rows[k] == t.rows[k])
      && (outcome != IsUnknown ==>
            && t'.rows[k] == t.rows[k].(status := if outcome == IsVerified then VERIFIED else FAILED,
                                        failureType := if outcome == IsVerified then None else outcome.failureType,
                                        metadata := t'.rows[k].metadata)
            && Noted(t.rows[k].metadata, t'.rows[k].metadata, "_verification",
                 map["resolvedAt" := at, "resolvedFrom" := Text("UNKNOWN"),
                     "resolvedTo" := Text(if outcome == IsVerified then "VERIFIED" else "FAILED")]))
  {
    hide Noted;
    var to := Text(if outcome == IsVerified then "VERIFIED" else "FAILED");
    var note := VerificationNote(at, to.text, if outcome.IsFailed? then Some(outcome.failureType) else None);
    NoteAdded(t.rows[k].metadata, "_verification", note.fields,
      map["resolvedAt" := at, "resolvedFrom" := Text("UNKNOWN"), "resolvedTo" := to]);
    hide SpreadObject;
  }

  lemma NoteAdded(before: Json, name: string, note: map<string, Json>, some: map<string, Json>)
    requires forall f | f in some :: f in note && note[f] == some[f]
    ensures Noted(before, Object(SpreadObject(before)[name := Object(note)]), name, some)
  {
  }

  /** After a failed verification the plan retries the effect exactly if the verifier called the
      failure transient; otherwise a human is asked. */
  lemma VerifierDecidesOnRetry(t: Table, k: Key, failureType: Option<FailureType>, at: Json)
    requires k in t.rows
    ensures var row := ApplyOutcome(t, k, t.rows[k], IsFailed(failureType), at).rows[k];
      && (StepOf(k, row).action == RETRY <==> failureType == Some(TRANSIENT))
      && (StepOf(k, row).action == BLOCK <==> failureType != Some(TRANSIENT))
      && StepOf(k, row).status == if failureType == Some(TRANSIENT) then FAILED else AWAITING_APPROVAL
  {
  }

  /** An approval keeps everything but the status, and notes when it was given. */
  lemma ApprovalWrites(t: Table, k: Key, p: Id, at: Json)
    ensures var (t', error) := ApproveSideEffect(t, k, p, at);
      && (error == None <==> k in t.rows && t.rows[k].project == p && t.rows[k].status == AWAITING_APPROVAL)
      && (error != None ==> t' == t)
      && (error == None ==>
            && t'.order == t.order && t'.rows.Keys == t.rows.Keys
            && (forall j | j in t.rows && j != k :: t'.rows[j] == t.rows[j])
            && t'.rows[k] == t.rows[k].(status := VERIFIED, metadata := t'.rows[k].metadata)
            && Noted(t.rows[k].metadata, t'.rows[k].metadata, "_approval", map["approvedAt" := at]))
  {
    if k in t.rows {
      NoteAdded(t.rows[k].metadata, "_approval",
        map["approvedAt" := at, "notes" := Text("Manually approved via Dashboard")], map["approvedAt" := at]);
    }
    hide SpreadObject, Noted;
  }

  /** Planning moves exactly the failures of the workflow that are not transient to a human. */
  lemma SettleWrites(t: Table, w: string, p: Id)
    ensures var t' := Settle(t, w, p);
      && t'.order == t.order && t'.rows.Keys == t.rows.Keys
      && forall k | k in t.rows ::
           var row := t.rows[k];
           t'.rows[k] ==
             (if row.workflow == Some(w) && row.project == p
                 && row.status == FAILED && row.failureType != Some(TRANSIENT)
              then row.(status := AWAITING_APPROVAL) else row)
  {
  }

  /** A planned step shows a row of the workflow as it is after planning, and what to do about it. */
  lemma PlanShows(t: Table, w: string, p: Id, i: nat)
    requires t.Valid() && i < |PlanFor(t, w, p).steps|
    ensures var step := PlanFor(t, w, p).steps[i];
      && step.id in t.rows && t.rows[step.id].workflow == Some(w) && t.rows[step.id].project == p
      && var row := t.rows[step.id];
         (&& step.effectType == row.effectType && step.target == row.target && step.failureType == row.failureType
          && step.fingerprint == step.id.fingerprint && step.status == Settle(t, w, p).rows[step.id].status
          && (step.action == SKIP <==> row.status in {COMMITTED, VERIFIED, SKIPPED})
          && (step.action == BLOCK <==>
                row.status in {UNKNOWN, AWAITING_APPROVAL}
                || (row.status == FAILED && row.failureType != Some(TRANSIENT)))
          && (step.action == RETRY <==>
                row.status in {INTENDED, EXECUTING, COMPENSATED}
                || (row.status == FAILED && row.failureType == Some(TRANSIENT))))
  {
    var k := Effects(t, w, p)[i];
    assert k in Effects(t, w, p);
    assert PlanFor(t, w, p).steps[i] == StepOf(k, t.rows[k]);
  }

  // ---------------------------------------------------------------- over every run

  /** A kind of failure is known only of a row that a verifier has failed. */
  predicate FailureTyped(row: Row) {
    row.failureType == None || row.status == FAILED || row.status == AWAITING_APPROVAL || row.status == VERIFIED
  }

  /** Every row stands for the request that was sent for it. */
  ghost predicate Remembering(s: State) {
    forall k | k in s.table.rows ::
      && k in s.sent && k.exec in s.executions && FailureTyped(s.table.rows[k])
      && StandsFor(s.table.rows[k], s.executions[k.exec], s.sent[k].op)
  }

  predicate SameRecord(row: Row, row': Row) {
    && row' == row.(status := row'.status, failureType := row'.failureType, metadata := row'.metadata,
                    receipt := row'.receipt)
    && (row'.status == SKIPPED <==> row.status == SKIPPED) && (FailureTyped(row) ==> FailureTyped(row'))
  }

  ghost predicate KeepsRecords(t: Table, t': Table) {
    t'.rows.Keys == t.rows.Keys && forall k | k in t.rows :: SameRecord(t.rows[k], t'.rows[k])
  }

  lemma SettleKeepsRecords(t: Table, w: string, p: Id)
    ensures KeepsRecords(t, Settle(t, w, p)) && KeepsRecords(t, t)
  {
  }

  lemma ReportKeepsRecords(t: Table, k: Key, report: Report)
    requires k in t.rows ==> t.rows[k].status.EXECUTING?
    ensures KeepsRecords(t, ApplyReport(t, k, report))
  {
    hide Spread, Stored;
  }

  lemma OutcomeKeepsRecords(t: Table, k: Key, outcome: Outcome, at: Json)
    requires k in t.rows && t.rows[k].status.UNKNOWN?
    ensures KeepsRecords(t, ApplyOutcome(t, k, t.rows[k], outcome, at))
  {
    hide SpreadObject, VerificationNote;
  }

  lemma ApprovalKeepsRecords(t: Table, k: Key, p: Id, at: Json)
    ensures KeepsRecords(t, ApproveSideEffect(t, k, p, at).0)
  {
    hide SpreadObject;
  }

  /** A request adds a row of its own at most, as its operation says. */
  lemma BeginRemembers(s: State, k: Key, t': Table)
    requires Remembering(s) && s.table.Valid() && RowFits(s, k)
    requires t' == BeginSideEffect(s.table, s.executions, k.exec, s.sent[k].op).0
    ensures Remembering(s.(table := t'))
  {
    hide BeginSideEffect, HasDone, HeldByOther, StandsFor, Table.Valid, LastDone, Halted, Skipped, RunningFor, Marked;
    BeginMarks(s.table, s.executions, k.exec, s.sent[k].op);
    if k !in s.table.rows { BeginWrites(s.table, s.executions, k.exec, s.sent[k].op); } else { NoNewRow(s, k); }
    forall j | j in t'.rows
      ensures j in s.sent && j.exec in s.executions && FailureTyped(t'.rows[j])
      ensures StandsFor(t'.rows[j], s.executions[j.exec], s.sent[j].op)
    {
      if j in s.table.rows { SameOrMarked(s.table.rows[j], t'.rows[j], k.exec, s.executions[j.exec], s.sent[j].op); }
    }
  }

  lemma SameOrMarked(row: Row, row': Row, e: Id, x: Execution, op: Operation)
    requires row' == row || Marked(row, row', e)
    ensures StandsFor(row, x, op) ==> StandsFor(row', x, op)
    ensures FailureTyped(row) ==> FailureTyped(row')
  {
  }

  lemma NoNewRow(s: State, k: Key)
    requires s.table.Valid() && k in s.sent && k in s.table.rows && s.sent[k].op.fingerprint == k.fingerprint
    ensures BeginSideEffect(s.table, s.executions, k.exec, s.sent[k].op).0.rows.Keys == s.table.rows.Keys
  {
    hide DoneRow, HolderRow, OrElse, ConflictNote, SkipNote, MarkConflict, NewRow, Table.Valid;
  }

  /** No other step adds a row. */
  lemma StepKeepsRecords(s: State, ev: Event)
    requires s.table.Valid() && MailOk(s) && !ev.DeliverBegin?
    ensures KeepsRecords(s.table, Apply(s, ev).table)
  {
    ApplyTable(s, ev);
    hide Apply, Settle, ApplyReport, ApplyOutcome, ApproveSideEffect, Table.Valid, KeepsRecords;
    SettleKeepsRecords(s.table, "", "");
    match ev {
      case Gate(_, x) => if Present(x.workflow) { SettleKeepsRecords(s.table, x.workflow.value, x.project); }
      case DeliverReport(k) => if k in s.mail { ReportKeepsRecords(s.table, k, s.mail[k]); }
      case Verify(k, outcome, at) =>
        if k in s.table.rows && s.table.rows[k].status.UNKNOWN? { OutcomeKeepsRecords(s.table, k, outcome, at); }
      case MakePlan(w, p) => SettleKeepsRecords(s.table, w, p);
      case Approve(k, p, at) => ApprovalKeepsRecords(s.table, k, p, at);
      case _ =>
    }
  }

  lemma StepRemembers(s: State, ev: Event)
    requires Inv(s) && Remembering(s) && Allowed(s, ev)
    ensures Remembering(Apply(s, ev))
  {
    assert RowsOk(s) && MailOk(s) && SentOk(s);
    RequestStays(s, ev);
    hide Inv, MailOk, BeginSideEffect, StandsFor, SameRecord, FailureTyped, Table.Valid;
    if ev.DeliverBegin? {
      if ev.k in s.sent {
        RowFitsAlways(s, ev.k);
        hide SentOk;
        var t' := BeginSideEffect(s.table, s.executions, ev.k.exec, s.sent[ev.k].op).0;
        BeginRemembers(s, ev.k, t');
      }
    } else {
      StepKeepsRecords(s, ev);
      hide Apply, SentOk;
      var s' := Apply(s, ev);
      forall k | k in s'.table.rows
        ensures k in s'.sent && k.exec in s'.executions && FailureTyped(s'.table.rows[k])
        ensures StandsFor(s'.table.rows[k], s'.executions[k.exec], s'.sent[k].op)
      {
        RecordStays(s.table.rows[k], s'.table.rows[k], s.executions[k.exec], s.sent[k].op);
      }
    }
  }

  lemma RecordStays(row: Row, row': Row, x: Execution, op: Operation)
    requires SameRecord(row, row') && StandsFor(row, x, op) && FailureTyped(row)
    ensures StandsFor(row', x, op) && FailureTyped(row')
  {
  }

  /** Once it has a row, a request is not sent anew with another operation. */
  lemma RequestStays(s: State, ev: Event)
    requires Inv(s)
    ensures s.table.Valid()
    ensures forall k | k in s.table.rows && k in s.sent && k.exec in s.executions ::
      && k in Apply(s, ev).sent && Apply(s, ev).sent[k] == s.sent[k]
      && k.exec in Apply(s, ev).executions && Apply(s, ev).executions[k.exec] == s.executions[k.exec]
  {
    assert RowsOk(s);
    hide Inv, Table.Valid;
    StepKeepsHistory(s, ev);
    hide RowsOk;
    match ev {
      case Call(e, op, _) =>
        if e in s.clients && s.clients[e].phase.Idle? && op.fingerprint !in s.clients[e].cache {
          NothingKnown(s, e, op.fingerprint);
        }
      case _ => SentStays(s, ev);
    }
  }

  lemma SentStays(s: State, ev: Event)
    requires s.table.Valid() && !ev.Call?
    ensures Apply(s, ev).sent == s.sent
  {
    hide PassGate, BeginSideEffect, Settle, ApplyReport, ApplyOutcome, ApproveSideEffect, Heard, Table.Valid;
  }

  lemma {:induction false} RunRemembers(s: State, evs: seq<Event>)
    requires Inv(s) && Remembering(s) && Legal(s, evs)
    ensures Remembering(Run(s, evs))
    decreases |evs|
  {
    hide Apply, Allowed, OneLive, SkipsCovered, MailOk, LogOk, SentOk, SessionsOk, Remembering;
    if evs != [] {
      StepRemembers(s, evs[0]);
      StepKeepsInv(s, evs[0]);
      RunRemembers(Apply(s, evs[0]), evs[1..]);
    }
  }

  /** In every reachable state every row carries type, target, input, provider, workflow and agent
      of the operation that was begun under its key, whatever was reported, verified, planned and
      approved since. */
  lemma RowsRememberTheirRequest(s: State, k: Key)
    requires Reachable(s) && k in s.table.rows
    ensures k in s.sent && k.exec in s.executions && s.sent[k].op.fingerprint == k.fingerprint
    ensures StandsFor(s.table.rows[k], s.executions[k.exec], s.sent[k].op) && FailureTyped(s.table.rows[k])
  {
    ReachableInv(s);
    InitInv();
    var evs :| Legal(Init, evs) && Run(Init, evs) == s;
    RunRemembers(Init, evs);
  }
}
