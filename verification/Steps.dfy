/** Every step of the protocol keeps the invariant. */
module Steps {
  import opened Values
  import opened Ledger
  import opened Protocol
  import opened Invariant
  import opened BeginCases

  // ---------------------------------------------------------------- what a step leaves alone

  lemma SameRows(s: State, s': State)
    requires RowsOk(s) && s'.table == s.table && s'.executions == s.executions && s'.gated == s.gated
    requires s'.clients.Keys == s.clients.Keys
    ensures RowsOk(s')
  {
  }

  lemma SameLog(s: State, s': State)
    requires LogOk(s) && MailOk(s) && s'.table == s.table && s'.log == s.log && s'.mail == s.mail
    ensures LogOk(s') && MailOk(s')
  {
    assert forall k :: Won(s', k) == Won(s, k);
  }

  /** What one session does to its own rows, requests, reports and successes is nothing to the others. */
  lemma OtherSessions(s: State, e: Id, s': State)
    requires SessionsOk(s) && s'.table == s.table
    requires forall d | d != e :: (d in s'.clients <==> d in s.clients) && (d in s'.executions <==> d in s.executions)
    requires forall d | d != e && d in s.clients :: s'.clients[d] == s.clients[d]
    requires forall k: Key | k.exec != e ::
      && (k in s'.sent <==> k in s.sent) && (k in s.sent ==> s'.sent[k] == s.sent[k])
      && (k in s'.mail <==> k in s.mail) && (Won(s', k) <==> Won(s, k))
    ensures forall d | d in s'.clients && d in s'.executions && d != e :: SessionOk(s', d)
  {
    forall d | d in s'.clients && d in s'.executions && d != e
      ensures SessionOk(s', d)
    {
      assert SessionOk(s, d);
      hide Won;
    }
  }

  // ---------------------------------------------------------------- planner, verifier, operator

  lemma PlanIsQuiet(s: State, w: string, p: Id)
    ensures Quiet(s, Settle(s.table, w, p))
  {
    var t' := Settle(s.table, w, p);
    forall k | k in s.table.rows
      ensures QuietRow(s, k, s.table.rows[k], t'.rows[k])
    {}
  }

  lemma OutcomeIsQuiet(s: State, k: Key, outcome: Outcome, at: Json)
    requires k in s.table.rows && s.table.rows[k].status.UNKNOWN?
    ensures Quiet(s, ApplyOutcome(s.table, k, s.table.rows[k], outcome, at))
  {
    hide SpreadObject, VerificationNote, Table.Valid;
  }

  lemma VerifyKeepsInv(s: State, k: Key, outcome: Outcome, at: Json)
    requires Inv(s)
    ensures Inv(Apply(s, Verify(k, outcome, at)))
  {
    assert s.table.Valid();
    hide Inv, ApplyOutcome, Table.Valid;
    if k in s.table.rows && s.table.rows[k].status.UNKNOWN? {
      OutcomeIsQuiet(s, k, outcome, at);
      QuietKeepsInv(s, ApplyOutcome(s.table, k, s.table.rows[k], outcome, at));
    }
  }

  lemma ApprovalIsQuiet(s: State, k: Key, p: Id, at: Json)
    requires !BeginPending(s, k)
    ensures Quiet(s, ApproveSideEffect(s.table, k, p, at).0)
  {
    hide SpreadObject, Table.Valid;
  }

  lemma ApproveKeepsInv(s: State, k: Key, p: Id, at: Json)
    requires Inv(s) && Allowed(s, Approve(k, p, at))
    ensures Inv(Apply(s, Approve(k, p, at)))
  {
    assert s.table.Valid();
    hide Inv, ApproveSideEffect, Table.Valid;
    ApprovalIsQuiet(s, k, p, at);
    QuietKeepsInv(s, ApproveSideEffect(s.table, k, p, at).0);
  }

  lemma GateKeepsInv(s: State, e: Id, x: Execution)
    requires Inv(s) && Allowed(s, Gate(e, x))
    ensures Inv(Apply(s, Gate(e, x)))
  {
    if Present(x.workflow) {
      PlanIsQuiet(s, x.workflow.value, x.project);
      QuietKeepsInv(s, Settle(s.table, x.workflow.value, x.project));
    }
    var m := s.(table := PassGate(s.table, x).0);
    assert s.gated.Keys !! s.executions.Keys;
    hide Inv, Settle, PlanFor;
    GatedKeepsInv(m, s.gated[e := x]);
  }

  lemma CreateKeepsInv(s: State, e: Id, admitted: bool)
    requires Inv(s)
    ensures Inv(Apply(s, Create(e, admitted)))
  {
    if e in s.gated {
      var m := s.(gated := s.gated - {e});
      GatedKeepsInv(s, m.gated);
      if admitted { EnterKeepsInv(m, e, s.gated[e]); }
    }
  }

  lemma EnterKeepsInv(s: State, e: Id, x: Execution)
    requires Inv(s) && e !in s.executions && e !in s.gated
    ensures Inv(s.(executions := s.executions[e := x], clients := s.clients[e := Client(Idle, map[])]))
  {
    hide OneLive, SkipsCovered, LogOk, MailOk, Table.Valid;
    var s' := s.(executions := s.executions[e := x], clients := s.clients[e := Client(Idle, map[])]);
    NoRowsYet(s, e);
    EnterRows(s, e, x);
    SameLog(s, s');
    hide RowsOk, SessionOk;
    assert SentOk(s');
    hide SentOk;
    assert forall k :: Won(s', k) == Won(s, k);
    OtherSessions(s, e, s');
    NewSession(s', e);
  }

  lemma NewSession(s: State, e: Id)
    requires e in s.clients && e in s.executions && s.clients[e] == Client(Idle, map[])
    requires forall k | k in s.table.rows :: k.exec != e
    ensures SessionOk(s, e)
  {
  }

  lemma EnterRows(s: State, e: Id, x: Execution)
    requires RowsOk(s) && e !in s.executions && e !in s.gated
    ensures RowsOk(s.(executions := s.executions[e := x], clients := s.clients[e := Client(Idle, map[])]))
  {
    hide Table.Valid;
  }

  lemma NoRowsYet(s: State, e: Id)
    requires RowsOk(s) && e !in s.executions
    ensures forall k | k in s.table.rows :: k.exec != e
  {
  }

  // ---------------------------------------------------------------- the client moves

  /** Only the phase or the cache of one session and its requests change, and they change well. */
  lemma ClientKeepsInv(s: State, e: Id, s': State)
    requires Inv(s) && e in s.clients && e in s'.clients
    requires s' == s.(clients := s.clients[e := s'.clients[e]], sent := s'.sent)
    requires forall k: Key | k.exec != e :: (k in s'.sent <==> k in s.sent) && (k in s.sent ==> s'.sent[k] == s.sent[k])
    requires SentOk(s') && SessionOk(s', e)
    ensures Inv(s')
  {
    hide RowsOk, OneLive, SkipsCovered, LogOk, MailOk, SentOk, SessionOk;
    SameRows(s, s');
    SameLog(s, s');
    assert forall k :: Won(s', k) == Won(s, k);
    OtherSessions(s, e, s');
  }

  /** An idle session asks for an effect that it does not remember. */
  lemma CallKeepsInv(s: State, e: Id, op: Operation, timeoutMs: nat, s': State)
    requires Inv(s) && e in s.clients && s.clients[e].phase.Idle? && op.fingerprint !in s.clients[e].cache
    requires e in s.executions && op.workflow == s.executions[e].workflow
    requires s' == s.(clients := s.clients[e := s.clients[e].(phase := Beginning(op, timeoutMs))],
                      sent := s.sent[Key(e, op.fingerprint) := EffectCall(op, timeoutMs)])
    ensures Inv(s')
  {
    hide RowsOk, OneLive, SkipsCovered, LogOk, MailOk;
    NothingKnown(s, e, op.fingerprint);
    assert SentOk(s');
    hide SentOk;
    assert forall k :: Won(s', k) == Won(s, k);
    assert SessionOk(s', e) by { assert SessionOk(s, e); }
    hide SessionOk;
    ClientKeepsInv(s, e, s');
  }

  lemma SameKeys(s: State)
    requires RowsOk(s)
    ensures s.clients.Keys == s.executions.Keys
  {
  }

  /** An idle session that does not remember an effect has no row of it. */
  lemma NothingKnown(s: State, e: Id, fp: string)
    requires Inv(s) && e in s.clients && s.clients[e].phase.Idle? && fp !in s.clients[e].cache
    ensures Key(e, fp) !in s.table.rows && Untold(s, Key(e, fp))
  {
    hide OneLive, SkipsCovered, SentOk, Table.Valid;
    assert SessionOk(s, e);
  }

  lemma EndKeepsInv(s: State, e: Id)
    requires Inv(s)
    ensures Inv(Apply(s, End(e)))
  {
    hide OneLive, SkipsCovered, MailOk, LogOk, Table.Valid;
    if e in s.clients {
      var s' := Apply(s, End(e));
      assert SentOk(s');
      ClientKeepsInv(s, e, s');
    }
  }

  lemma WonGrows(s: State, x: Success, s': State)
    requires s'.log == s.log + [x]
    ensures forall k :: Won(s', k) <==> Won(s, k) || k == x.key
  {
    forall k | Won(s, k) ensures Won(s', k) {
      var y :| y in s.log && y.key == k;
      assert y in s'.log;
    }
    assert x in s'.log;
  }

  /** What is known while an operation runs. */
  lemma RunningRow(s: State, e: Id)
    requires Inv(s) && e in s.clients && s.clients[e].phase.Running?
    ensures var fp := s.clients[e].phase.op.fingerprint;
      var k := Key(e, fp);
      && e in s.executions && k in s.table.rows && s.table.rows[k].status.EXECUTING?
      && s.table.rows[k].project == s.executions[e].project
      && Untold(s, k) && Remembers(s, e, Some(fp))
  {
    hide OneLive, SkipsCovered, MailOk, LogOk, SentOk, Table.Valid, Remembers, Untold;
    assert SessionOk(s, e);
  }

  /** A running session has all its requests served. */
  lemma MovesOn(s: State, e: Id, s': State)
    requires SentOk(s) && e in s.clients && s.clients[e].phase.Running?
    requires s'.table == s.table && s'.executions == s.executions && s'.sent == s.sent
    requires e in s'.clients && s'.clients == s.clients[e := s'.clients[e]]
    ensures SentOk(s')
  {
    hide Table.Valid;
  }

  /** A running session sends its one report about `k`, and moves on. */
  lemma SendKeepsInv(s: State, e: Id, op: Operation, report: Report, client: Client, s': State)
    requires Inv(s) && e in s.clients && s.clients[e].phase.Running? && s.clients[e].phase.op == op
    requires s' == Send(s, e, op, report, client).(log := s'.log, overdue := s'.overdue)
    requires match report
             case Commit(result, _) =>
               && client == Client(Idle, s.clients[e].cache[op.fingerprint := result])
               && s'.log == s.log + [Success(Key(e, op.fingerprint), s.executions[e].project, result)]
             case _ => client.phase.Ended? && s'.log == s.log
    ensures Inv(s')
  {
    hide RowsOk, OneLive, SkipsCovered, LogOk, MailOk, SentOk;
    var k := Key(e, op.fingerprint);
    RunningRow(s, e);
    SameRows(s, s');
    MovesOn(s, e, s');
    if report.Commit? {
      WonGrows(s, Success(k, s.executions[e].project, report.result), s');
      LogGrows(s, k, report.result, s');
    } else {
      LogStays(s, s');
    }
    hide Won;
    SendMail(s, k, report, s');
    assert SessionOk(s', e);
    hide SessionOk;
    OtherSessions(s, e, s');
  }

  lemma LogStays(s: State, s': State)
    requires LogOk(s) && s'.table == s.table && s'.log == s.log
    ensures LogOk(s') && forall k :: Won(s', k) == Won(s, k)
  {
    assert forall k :: Won(s', k) == Won(s, k);
  }

  lemma SendMail(s: State, k: Key, report: Report, s': State)
    requires MailOk(s) && k in s.table.rows && s.table.rows[k].status.EXECUTING?
    requires s'.table == s.table && s'.mail == s.mail[k := report]
    requires forall x | x in s.log :: x in s'.log
    requires forall j | j != k :: Won(s', j) ==> Won(s, j)
    requires match report
             case Commit(result, _) => Success(k, s.table.rows[k].project, result) in s'.log
             case _ => !Won(s', k)
    ensures MailOk(s')
  {
  }

  /** A success of a running session is the first of its key. */
  lemma LogGrows(s: State, k: Key, result: Json, s': State)
    requires LogOk(s) && !Won(s, k) && k in s.table.rows && s.table.rows[k].status.EXECUTING?
    requires s'.table == s.table && s'.log == s.log + [Success(k, s.table.rows[k].project, result)]
    ensures LogOk(s')
  {
    forall j | j in s'.table.rows && s'.table.rows[j].status.COMMITTED?
      ensures Won(s', j)
    {
      var x :| x in s.log && x.key == j;
      assert x in s'.log;
    }
    forall i | 0 <= i < |s.log| ensures s.log[i].key != k { assert s.log[i] in s.log; }
  }

  /** A running session returns, and is gone before it can report. */
  lemma CrashKeepsInv(s: State, e: Id, result: Json, s': State)
    requires Inv(s) && e in s.clients && s.clients[e].phase.Running? && e in s.executions
    requires s' == s.(clients := s.clients[e := s.clients[e].(phase := Ended)],
                      log := s.log + [Success(Key(e, s.clients[e].phase.op.fingerprint), s.executions[e].project, result)])
    ensures Inv(s')
  {
    hide RowsOk, OneLive, SkipsCovered, LogOk, MailOk, SentOk;
    var k := Key(e, s.clients[e].phase.op.fingerprint);
    RunningRow(s, e);
    SameRows(s, s');
    MovesOn(s, e, s');
    LogGrows(s, k, result, s');
    WonGrows(s, Success(k, s.executions[e].project, result), s');
    CrashMail(s, k, s');
    hide Won;
    assert SessionOk(s', e);
    hide SessionOk;
    OtherSessions(s, e, s');
  }

  /** There is no report about `k` that could be belied. */
  lemma CrashMail(s: State, k: Key, s': State)
    requires MailOk(s) && k !in s.mail && s'.mail == s.mail && s'.table == s.table
    requires forall x | x in s.log :: x in s'.log
    requires forall j | j != k :: Won(s', j) ==> Won(s, j)
    ensures MailOk(s')
  {
  }

  // ---------------------------------------------------------------- a report arrives

  lemma DeliverKeepsInv(s: State, k: Key)
    requires Inv(s)
    ensures Inv(Apply(s, DeliverReport(k)))
  {
    if k in s.mail {
      var s' := Apply(s, DeliverReport(k));
      var row := Reported(s.table.rows[k], s.mail[k]);
      assert s'.table == s.table.Update(k, row);
      ReportedRow(s.table.rows[k], s.mail[k]);
      hide RowsOk, OneLive, SkipsCovered, LogOk, SentOk, SessionsOk, Reported, Apply;
      DeliverRows(s, k, row, s');
      DeliverLive(s, k, row, s');
      DeliverSent(s, k, row, s');
      DeliverSkips(s, k, row, s'.table);
      DeliverMail(s, k, row, s');
      DeliverLog(s, k, row, s');
      DeliverSessions(s, k, row, s');
    }
  }

  lemma ReportedRow(row: Row, report: Report)
    ensures var row' := Reported(row, report);
      && row'.project == row.project && row'.workflow == row.workflow && !row'.status.SKIPPED?
      && (Live(row') <==> report.Commit?) && (row'.status.COMMITTED? <==> report.Commit?)
      && (report.Commit? ==> row'.metadata == Stored(report.result))
  {
    hide Spread, Stored;
  }

  /** The report about `k` is out of the mail and in the row. */
  ghost predicate Arrives(s: State, k: Key, row: Row, s': State) {
    && MailOk(s) && k in s.mail && k in s.table.rows
    && s' == s.(table := s.table.Update(k, row), mail := s.mail - {k})
    && row.project == s.table.rows[k].project && row.workflow == s.table.rows[k].workflow
    && (Live(row) <==> s.mail[k].Commit?) && (row.status.COMMITTED? <==> s.mail[k].Commit?)
    && !row.status.SKIPPED?
    && (s.mail[k].Commit? ==> row.metadata == Stored(s.mail[k].result))
  }

  lemma DeliverRows(s: State, k: Key, row: Row, s': State)
    requires RowsOk(s) && Arrives(s, k, row, s')
    ensures RowsOk(s')
  {
    hide Stored, MailOk;
    assert s'.table.Valid();
  }

  lemma DeliverLive(s: State, k: Key, row: Row, s': State)
    requires OneLive(s.table) && Arrives(s, k, row, s')
    ensures OneLive(s'.table)
  {
    assert s.table.rows[k].status.EXECUTING?;
    hide Stored, MailOk;
  }

  lemma DeliverSent(s: State, k: Key, row: Row, s': State)
    requires SentOk(s) && Arrives(s, k, row, s')
    ensures SentOk(s')
  {
    hide Stored, MailOk;
  }

  lemma DeliverSkips(s: State, k: Key, row: Row, t': Table)
    requires SkipsCovered(s.table) && MailOk(s) && k in s.mail && k in s.table.rows
    requires t' == s.table.Update(k, row) && row.project == s.table.rows[k].project && !row.status.SKIPPED?
    ensures SkipsCovered(t')
  {
    assert s.table.rows[k].status.EXECUTING?;
    hide MailOk;
    forall j | j in t'.rows && t'.rows[j].status.SKIPPED?
      ensures HasDone(t', t'.rows[j].project, j.fingerprint)
    {
      var d :| d in s.table.rows && d.fingerprint == j.fingerprint
             && s.table.rows[d].project == s.table.rows[j].project && s.table.rows[d].Done();
      assert t'.rows[d].Done();
    }
  }

  lemma DeliverMail(s: State, k: Key, row: Row, s': State)
    requires Arrives(s, k, row, s')
    ensures MailOk(s')
  {
    hide Stored;
    assert forall j :: Won(s', j) == Won(s, j);
  }

  lemma DeliverLog(s: State, k: Key, row: Row, s': State)
    requires LogOk(s) && Arrives(s, k, row, s')
    ensures LogOk(s')
  {
    hide Stored;
    assert forall j :: Won(s', j) == Won(s, j);
    forall x | x in s'.log && x.key == k
      ensures s.mail[k].Commit? && x.result == s.mail[k].result
    {
      assert Won(s, k);
      SameKeySameSuccess(s, x, Success(k, s.table.rows[k].project, s.mail[k].result));
    }
    if s.mail[k].Commit? { assert Won(s', k); }
  }

  lemma DeliverSessions(s: State, k: Key, row: Row, s': State)
    requires SessionsOk(s) && Arrives(s, k, row, s')
    ensures SessionsOk(s')
  {
    hide Stored, MailOk;
    assert forall j :: Won(s', j) == Won(s, j);
    forall e | e in s'.clients && e in s'.executions
      ensures SessionOk(s', e)
    {
      assert SessionOk(s, e);
    }
  }

  lemma SameKeySameSuccess(s: State, x: Success, y: Success)
    requires LogOk(s) && x in s.log && y in s.log && x.key == y.key
    ensures x == y
  {
    var i :| 0 <= i < |s.log| && s.log[i] == x;
    var j :| 0 <= j < |s.log| && s.log[j] == y;
    assert i == j;
  }

  // ---------------------------------------------------------------- a begin request is served

  /** What a new row must satisfy. */
  ghost predicate Admissible(s: State, k: Key, row: Row) {
    && k !in s.table.rows && k.exec in s.executions
    && row.project == s.executions[k.exec].project && row.workflow == s.executions[k.exec].workflow
    && match row.status
       case SKIPPED => HasDone(s.table, row.project, k.fingerprint)
       case FAILED => true
       case EXECUTING =>
         forall j | j in s.table.rows && j.fingerprint == k.fingerprint
                    && s.table.rows[j].project == row.project :: !Live(s.table.rows[j])
       case _ => false
  }

  lemma AddKeepsInv(s: State, k: Key, row: Row, s': State)
    requires Inv(s) && Admissible(s, k, row)
    requires k.exec in s.clients && (s.clients[k.exec].phase.Ended? || s.clients[k.exec].Awaits(k.fingerprint))
    requires s' == s.(table := Table(s.table.rows[k := row], s.table.order + [k]))
    ensures Inv(s')
  {
    hide RowsOk, OneLive, SkipsCovered, MailOk, LogOk, SentOk, SessionsOk, Admissible;
    AddRows(s, k, row, s');
    AddSkips(s, k, row, s'.table);
    AddLog(s, k, row, s');
    AddSessions(s, k, row, s');
  }

  lemma AddRows(s: State, k: Key, row: Row, s': State)
    requires RowsOk(s) && OneLive(s.table) && SentOk(s) && Admissible(s, k, row)
    requires s' == s.(table := Table(s.table.rows[k := row], s.table.order + [k]))
    ensures RowsOk(s') && OneLive(s'.table) && SentOk(s')
  {
    hide HasDone;
    assert s'.table.Valid();
  }

  lemma AddLog(s: State, k: Key, row: Row, s': State)
    requires LogOk(s) && MailOk(s) && Admissible(s, k, row)
    requires s' == s.(table := Table(s.table.rows[k := row], s.table.order + [k]))
    ensures LogOk(s') && MailOk(s')
  {
    hide HasDone;
    assert forall j :: Won(s', j) == Won(s, j);
  }

  lemma AddSessions(s: State, k: Key, row: Row, s': State)
    requires SessionsOk(s) && Admissible(s, k, row)
    requires k.exec in s.clients && (s.clients[k.exec].phase.Ended? || s.clients[k.exec].Awaits(k.fingerprint))
    requires s' == s.(table := Table(s.table.rows[k := row], s.table.order + [k]))
    ensures SessionsOk(s')
  {
    hide HasDone;
    assert forall j :: Won(s', j) == Won(s, j);
    forall e | e in s'.clients && e in s'.executions
      ensures SessionOk(s', e)
    {
      assert SessionOk(s, e);
    }
  }

  lemma AddSkips(s: State, k: Key, row: Row, t': Table)
    requires SkipsCovered(s.table) && Admissible(s, k, row)
    requires t' == Table(s.table.rows[k := row], s.table.order + [k])
    ensures SkipsCovered(t')
  {
    forall j | j in t'.rows && t'.rows[j].status.SKIPPED?
      ensures HasDone(t', t'.rows[j].project, j.fingerprint)
    {
      assert HasDone(s.table, t'.rows[j].project, j.fingerprint);
      var d :| d in s.table.rows && d.fingerprint == j.fingerprint
             && s.table.rows[d].project == t'.rows[j].project && s.table.rows[d].Done();
      assert t'.rows[d].Done();
    }
  }

  lemma MarkIsQuiet(s: State, k: Key, e: Id)
    requires k in s.table.rows && s.table.rows[k].status.EXECUTING?
    ensures Quiet(s, s.table.Update(k, MarkConflict(s.table.rows[k], e)))
  {
    hide Spread, Table.Valid;
  }

  /** Serving a begin request that was ever sent keeps the invariant: for the first or the tenth
      time, while its session waits, works on something else or is over. */
  lemma ServeKeepsInv(s: State, k: Key)
    requires Inv(s) && k in s.sent
    ensures Inv(s.(table := BeginSideEffect(s.table, s.executions, k.exec, s.sent[k].op).0))
  {
    assert s.table.Valid() && RowFits(s, k) by { RowFitsAlways(s, k); }
    hide Inv, BeginSideEffect, DoneRow, HolderRow, MarkConflict, NewRow, OrElse, SkipNote, ConflictNote;
    var p, op := s.executions[k.exec].project, s.sent[k].op;
    var prior, holder := DoneRow(s.table, p, k.fingerprint), HolderRow(s.table, p, k.fingerprint, k.exec);
    if prior.Some? {
      WhenDone(s.table, s.executions, k.exec, op, prior.value);
      if k !in s.table.rows { SkipKeepsInv(s, k, prior.value); }
    } else if holder.Some? {
      WhenHeld(s.table, s.executions, k.exec, op, holder.value);
      ConflictKeepsInv(s, k, holder.value);
    } else {
      WhenFree(s.table, s.executions, k.exec, op);
      if k !in s.table.rows { GrantKeepsInv(s, k); }
    }
  }

  /** The key of a request and the row it would get. */
  ghost predicate RowFits(s: State, k: Key) {
    && k in s.sent && k.exec in s.executions && k.exec in s.clients
    && s.sent[k].op.fingerprint == k.fingerprint && s.sent[k].op.workflow == s.executions[k.exec].workflow
    && (k !in s.table.rows ==> s.clients[k.exec].phase.Ended? || s.clients[k.exec].Awaits(k.fingerprint))
  }

  lemma RowFitsAlways(s: State, k: Key)
    requires SentOk(s) && k in s.sent
    ensures RowFits(s, k)
  {
  }

  lemma SkipKeepsInv(s: State, k: Key, prior: Key)
    requires Inv(s) && RowFits(s, k) && k !in s.table.rows
    requires prior in s.table.rows && prior.fingerprint == k.fingerprint && s.table.rows[prior].Done()
    requires s.table.rows[prior].project == s.executions[k.exec].project
    ensures var row := NewRow(s.executions[k.exec], s.sent[k].op, SKIPPED, SkipNote(prior.exec));
      Inv(s.(table := Table(s.table.rows[k := row], s.table.order + [k])))
  {
    hide Inv, SkipNote;
    var row := NewRow(s.executions[k.exec], s.sent[k].op, SKIPPED, SkipNote(prior.exec));
    assert HasDone(s.table, row.project, k.fingerprint);
    AddKeepsInv(s, k, row, s.(table := Table(s.table.rows[k := row], s.table.order + [k])));
  }

  lemma ConflictKeepsInv(s: State, k: Key, holder: Key)
    requires Inv(s) && RowFits(s, k) && holder in s.table.rows && s.table.rows[holder].status.EXECUTING?
    ensures var marked := s.table.Update(holder, MarkConflict(s.table.rows[holder], k.exec));
      var row := NewRow(s.executions[k.exec], s.sent[k].op, FAILED, ConflictNote(holder.exec));
      && Inv(s.(table := marked))
      && (k !in marked.rows ==> Inv(s.(table := Table(marked.rows[k := row], marked.order + [k]))))
  {
    hide Inv, ConflictNote, MarkConflict;
    var marked := s.table.Update(holder, MarkConflict(s.table.rows[holder], k.exec));
    MarkIsQuiet(s, holder, k.exec);
    QuietKeepsInv(s, marked);
    if k !in marked.rows {
      var m, row := s.(table := marked), NewRow(s.executions[k.exec], s.sent[k].op, FAILED, ConflictNote(holder.exec));
      AddKeepsInv(m, k, row, m.(table := Table(marked.rows[k := row], marked.order + [k])));
    }
  }

  lemma GrantKeepsInv(s: State, k: Key)
    requires Inv(s) && RowFits(s, k) && k !in s.table.rows
    requires forall j | j in s.table.rows && j.fingerprint == k.fingerprint
                        && s.table.rows[j].project == s.executions[k.exec].project ::
               !s.table.rows[j].Done() && (j.exec != k.exec ==> !s.table.rows[j].status.EXECUTING?)
    ensures var row := NewRow(s.executions[k.exec], s.sent[k].op, EXECUTING, EmptyObject);
      Inv(s.(table := Table(s.table.rows[k := row], s.table.order + [k])))
  {
    hide Inv;
    var row := NewRow(s.executions[k.exec], s.sent[k].op, EXECUTING, EmptyObject);
    forall j | j in s.table.rows && j.fingerprint == k.fingerprint && s.table.rows[j].project == row.project
      ensures !Live(s.table.rows[j])
    {
      assert j != k;
    }
    AddKeepsInv(s, k, row, s.(table := Table(s.table.rows[k := row], s.table.order + [k])));
  }

  /** SKIP comes with a row of the caller, EXECUTE with a row that is running or was done before. */
  lemma AnsweredRow(t: Table, executions: map<Id, Execution>, e: Id, op: Operation)
    requires t.Valid()
    ensures var r, k := BeginSideEffect(t, executions, e, op), Key(e, op.fingerprint);
      && (r.1.Skip? ==> k in r.0.rows)
      && (r.1.Execute? ==> k in r.0.rows && (r.0.rows[k].status.EXECUTING? || (k in t.rows && t.rows[k].Done())))
  {
    hide DoneRow, HolderRow, MarkConflict, OrElse, SkipNote, ConflictNote;
  }

  lemma PendingRow(s: State, k: Key)
    requires Inv(s) && BeginPending(s, k)
    ensures k in s.sent && s.sent[k].op == s.clients[k.exec].phase.op
    ensures k in s.table.rows ==> Pending(s.table.rows[k])
  {
    hide OneLive, SkipsCovered, MailOk, LogOk, SentOk;
    assert SessionOk(s, k.exec);
  }

  lemma BeginKeepsInv(s: State, k: Key, heard: bool)
    requires Inv(s)
    ensures Inv(Apply(s, DeliverBegin(k, heard)))
  {
    assert s.table.Valid();
    hide BeginSideEffect, RowsOk, OneLive, SkipsCovered, MailOk, LogOk, SentOk, SessionsOk, Table.Valid;
    if k in s.sent && k.exec in s.clients {
      ServeKeepsInv(s, k);
      if BeginPending(s, k) {
        PendingRow(s, k);
        AnsweredRow(s.table, s.executions, k.exec, s.sent[k].op);
      }
      var r := BeginSideEffect(s.table, s.executions, k.exec, s.sent[k].op);
      if heard && BeginPending(s, k) {
        HearingKeepsInv(s.(table := r.0), k, r.1);
      }
    }
  }

  /** The waiting session hears its answer. */
  lemma HearingKeepsInv(s: State, k: Key, answer: Answer)
    requires Inv(s) && BeginPending(s, k)
    requires answer.Skip? ==> k in s.table.rows
    requires answer.Execute? ==> k in s.table.rows && s.table.rows[k].status.EXECUTING?
    ensures Inv(s.(clients := s.clients[k.exec := Heard(s.clients[k.exec], answer)]))
  {
    hide OneLive, SkipsCovered, MailOk, LogOk, Table.Valid;
    var s' := s.(clients := s.clients[k.exec := Heard(s.clients[k.exec], answer)]);
    assert SessionOk(s, k.exec);
    assert SentOk(s');
    assert forall j :: Won(s', j) == Won(s, j);
    assert SessionOk(s', k.exec);
    ClientKeepsInv(s, k.exec, s');
  }

  lemma StepKeepsInv(s: State, ev: Event)
    requires Inv(s) && Allowed(s, ev)
    ensures Inv(Apply(s, ev))
  {
    hide BeginSideEffect, Settle, ApplyReport, ApplyOutcome, ApproveSideEffect, PlanFor, OneLive, SkipsCovered, MailOk,
      LogOk, SentOk, SessionsOk, Table.Valid;
    match ev {
      case Gate(e, x) => GateKeepsInv(s, e, x);
      case Create(e, admitted) => CreateKeepsInv(s, e, admitted);
      case Call(e, op, timeoutMs) =>
        SameKeys(s);
        if e in s.clients && s.clients[e].phase.Idle? && op.fingerprint !in s.clients[e].cache {
          CallKeepsInv(s, e, op, timeoutMs, Apply(s, ev));
        }
      case DeliverBegin(k, heard) => BeginKeepsInv(s, k, heard);
      case Return(e, result, receipt) =>
        if e in s.clients && s.clients[e].phase.Running? {
          var op := s.clients[e].phase.op;
          SendKeepsInv(s, e, op, Commit(result, receipt),
            Client(Idle, s.clients[e].cache[op.fingerprint := result]), Apply(s, ev));
        }
      case ReturnAndCrash(e, result) =>
        if e in s.clients && s.clients[e].phase.Running? && e in s.executions { CrashKeepsInv(s, e, result, Apply(s, ev)); }
      case Throw(e, report) =>
        if e in s.clients && s.clients[e].phase.Running? && !report.Commit? {
          SendKeepsInv(s, e, s.clients[e].phase.op, report, s.clients[e].(phase := Ended), Apply(s, ev));
        }
      case TimeOut(e, reason) =>
        if e in s.clients && s.clients[e].phase.Running? && s.clients[e].phase.timeoutMs > 0 {
          SendKeepsInv(s, e, s.clients[e].phase.op, Unknown(reason), s.clients[e].(phase := Ended), Apply(s, ev));
        }
      case LateReturn(k, result) => LateKeepsInv(s, Apply(s, ev).overdue, Apply(s, ev).late);
      case End(e) => EndKeepsInv(s, e);
      case DeliverReport(k) => DeliverKeepsInv(s, k);
      case Verify(k, outcome, at) => VerifyKeepsInv(s, k, outcome, at);
      case MakePlan(w, p) =>
        PlanIsQuiet(s, w, p);
        QuietKeepsInv(s, Settle(s.table, w, p));
      case Approve(k, p, at) => ApproveKeepsInv(s, k, p, at);
    }
  }

  lemma {:induction false} RunKeepsInv(s: State, evs: seq<Event>)
    requires Inv(s) && Legal(s, evs)
    ensures Inv(Run(s, evs))
    decreases |evs|
  {
    if evs != [] {
      StepKeepsInv(s, evs[0]);
      hide Apply, Allowed, OneLive, SkipsCovered, MailOk, LogOk, SentOk, SessionsOk;
      RunKeepsInv(Apply(s, evs[0]), evs[1..]);
    }
  }

  lemma InitInv()
    ensures Inv(Init)
  {
  }
}
