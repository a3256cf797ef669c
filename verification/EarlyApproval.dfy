/** What happens if an operator approves an effect whose session has not ended. */
module EarlyApproval {
  import opened Values
  import opened Ledger
  import opened BeginCases
  import opened Protocol
  import opened Invariant
  import opened Steps
  import opened Guarantees

  /** An effect that awaits approval while its session is alive is one whose begin request still
      waits for its answer, or one that the session was told to skip and remembers. Only the
      first kind is dangerous: the protocol's guarantees hold with approvals of the second. */
  lemma AwaitingOfALiveSession(s: State, k: Key)
    requires Reachable(s) && k in s.table.rows && s.table.rows[k].status.AWAITING_APPROVAL?
    requires k.exec in s.clients && !s.clients[k.exec].phase.Ended?
    ensures BeginPending(s, k) || k.fingerprint in s.clients[k.exec].cache
  {
    ReachableInv(s);
    hide Reaches, OneLive, SkipsCovered, MailOk, LogOk, SentOk, Table.Valid;
    assert SessionOk(s, k.exec);
  }

  // ---------------------------------------------------------------- the next begin request

  /** No done row of the same effect was created after the row of `k`. */
  ghost predicate NoLaterDone(t: Table, k: Key)
    requires k in t.rows
  {
    forall i, j | 0 <= i < j < |t.order| && t.order[i] == k :: !DoneFor(t, t.rows[k].project, k.fingerprint, t.order[j])
  }

  /** If an effect is approved while its begin request waits, the effect counts as done; and yet
      the next time the request is served the answer is EXECUTE exactly when no done row of the
      effect was created later. */
  lemma EarlyApprovalGrantsExactly(s: State, k: Key, at: Json)
    requires Reachable(s) && BeginPending(s, k) && k in s.table.rows && s.table.rows[k].status.AWAITING_APPROVAL?
    ensures s.table.Valid() && k.exec in s.executions && k in s.sent && s.sent[k].op == s.clients[k.exec].phase.op
    ensures var t := ApproveSideEffect(s.table, k, s.table.rows[k].project, at).0;
      && HasDone(t, s.table.rows[k].project, k.fingerprint)
      && k in t.rows && t.order == s.table.order && t.rows == s.table.rows[k := t.rows[k]] && t.rows[k].status.VERIFIED?
      && BeginSideEffect(t, s.executions, k.exec, s.sent[k].op) ==
           (t, if NoLaterDone(s.table, k) then Execute else Rejected(DuplicateKey))
  {
    ReachableInv(s);
    PendingRow(s, k);
    RowFitsAlways(s, k);
    OwnProject(s, k);
    assert s.table.Valid();
    hide Reaches, Inv, BeginSideEffect, ApproveSideEffect, DoneRow, NoLaterDone, OrElse, NewRow, SkipNote, Table.Valid;
    var p := s.table.rows[k].project;
    var t := ApproveSideEffect(s.table, k, p, at).0;
    ApprovedDoneRow(s.table, k, at);
    WhenDone(t, s.executions, k.exec, s.sent[k].op, DoneRow(t, p, k.fingerprint).value);
  }

  /** After an approval the approved row is found exactly if no done row was created later. */
  lemma ApprovedDoneRow(t: Table, k: Key, at: Json)
    requires t.Valid() && k in t.rows && t.rows[k].status.AWAITING_APPROVAL?
    ensures var p := t.rows[k].project;
      var t' := ApproveSideEffect(t, k, p, at).0;
      && t'.Valid() && t'.order == t.order && k in t'.rows && t'.rows == t.rows[k := t'.rows[k]]
      && t'.rows[k].status.VERIFIED? && t'.rows[k].project == p && HasDone(t', p, k.fingerprint)
      && var prior := DoneRow(t', p, k.fingerprint);
         prior.Some? && prior.value.fingerprint == k.fingerprint && (prior.value == k <==> NoLaterDone(t, k))
         && (prior.value.exec == k.exec <==> NoLaterDone(t, k))
  {
    hide SpreadObject, DoneRow;
    var p := t.rows[k].project;
    var t' := ApproveSideEffect(t, k, p, at).0;
    var i :| 0 <= i < |t.order| && t.order[i] == k;
    assert DoneFor(t', p, k.fingerprint, k);
    DoneRowExactly(t', p, k.fingerprint, i);
    forall j | 0 <= j < |t'.order| && j != i
      ensures DoneFor(t', p, k.fingerprint, t'.order[j]) == DoneFor(t, p, k.fingerprint, t'.order[j])
    {
      assert t'.order[j] != k;
    }
  }

  lemma OwnProject(s: State, k: Key)
    requires RowsOk(s) && k in s.table.rows
    ensures k.exec in s.executions && s.table.rows[k].project == s.executions[k.exec].project
  {
  }

  /** The approval, the next service of the begin request, and a report of the session other than
      a commit. */
  function AfterFailure(s: State, k: Key, at: Json, report: Report): State
    requires s.table.Valid() && k in s.table.rows
  {
    var approved := Apply(s, Approve(k, s.table.rows[k].project, at));
    Apply(Apply(Apply(approved, DeliverBegin(k, true)), Throw(k.exec, report)), DeliverReport(k))
  }

  /** Only an early approval makes it possible that a done row is undone: the session that is
      granted the approved effect may report that it failed, or that nobody knows. */
  lemma EarlyApprovalUndoneExactly(s: State, k: Key, at: Json, report: Report)
    requires Reachable(s) && BeginPending(s, k) && k in s.table.rows && s.table.rows[k].status.AWAITING_APPROVAL?
    requires !report.Commit?
    ensures s.table.Valid() && k in AfterFailure(s, k, at, report).table.rows
    ensures var approved := Apply(s, Approve(k, s.table.rows[k].project, at));
      && k in approved.table.rows && approved.table.rows[k].Done()
      && (AfterFailure(s, k, at, report).table.rows[k].Done() <==> !NoLaterDone(s.table, k))
  {
    ReachableInv(s);
    NoReportYet(s, k);
    EarlyApprovalGrantsExactly(s, k, at);
    hide Reaches, Inv, BeginSideEffect, ApproveSideEffect, NoLaterDone, HasDone, Table.Valid;
    ApprovesOnly(s, k, s.table.rows[k].project, at);
    hide TableAfter;
    ReportUndoes(Apply(s, Approve(k, s.table.rows[k].project, at)), k, report, NoLaterDone(s.table, k));
  }

  lemma NoReportYet(s: State, k: Key)
    requires Inv(s) && BeginPending(s, k)
    ensures k !in s.mail
  {
    hide OneLive, SkipsCovered, MailOk, LogOk, SentOk;
    assert SessionOk(s, k.exec);
  }

  /** What becomes of the approved row when the begin request is served and the session reports. */
  lemma ReportUndoes(s: State, k: Key, report: Report, granted: bool)
    requires s.table.Valid() && BeginPending(s, k) && k in s.sent && k.exec in s.executions && k in s.table.rows
    requires s.sent[k].op == s.clients[k.exec].phase.op && k !in s.mail && s.table.rows[k].Done() && !report.Commit?
    requires BeginSideEffect(s.table, s.executions, k.exec, s.sent[k].op)
          == (s.table, if granted then Execute else Rejected(DuplicateKey))
    ensures var end := Apply(Apply(Apply(s, DeliverBegin(k, true)), Throw(k.exec, report)), DeliverReport(k));
      k in end.table.rows && (end.table.rows[k].Done() <==> !granted)
  {
    hide BeginSideEffect, Spread, Table.Valid;
  }

  // ---------------------------------------------------------------- two successes

  /** How often the effect has succeeded. */
  function Wins(log: seq<Success>, p: Id, fp: string): nat {
    if log == [] then 0
    else
      var x := log[|log| - 1];
      Wins(log[..|log| - 1], p, fp) + if x.project == p && x.key.fingerprint == fp then 1 else 0
  }

  lemma WinsAppend(log: seq<Success>, x: Success, p: Id, fp: string)
    ensures Wins(log + [x], p, fp) == Wins(log, p, fp) + if x.project == p && x.key.fingerprint == fp then 1 else 0
  {
    assert (log + [x])[..|log|] == log;
  }

  lemma {:induction false} NoWins(log: seq<Success>, p: Id, fp: string)
    ensures Wins(log, p, fp) == 0 <==> forall x | x in log :: !(x.project == p && x.key.fingerprint == fp)
  {
    if log != [] {
      NoWins(log[..|log| - 1], p, fp);
      assert log == log[..|log| - 1] + [log[|log| - 1]];
    }
  }

  lemma {:induction false} AtMostOneWin(log: seq<Success>, p: Id, fp: string)
    requires forall i, j | 0 <= i < j < |log| && log[i].project == log[j].project == p ::
      !(log[i].key.fingerprint == log[j].key.fingerprint == fp)
    ensures Wins(log, p, fp) <= 1
  {
    if log != [] {
      AtMostOneWin(log[..|log| - 1], p, fp);
      NoWins(log[..|log| - 1], p, fp);
    }
  }

  /** Another session runs the effect. */
  predicate RunsElsewhere(s: State, h: Id, p: Id, fp: string) {
    && h in s.clients && h in s.executions && s.clients[h].phase.Running?
    && s.clients[h].phase.op.fingerprint == fp && s.executions[h].project == p
  }

  /** The approval, the next service of the begin request, and the returns of the session and of `h`. */
  function AfterEarlyApproval(s: State, k: Key, at: Json, h: Id, result: Json, result': Json): State
    requires s.table.Valid() && k in s.table.rows
  {
    var approved := Apply(s, Approve(k, s.table.rows[k].project, at));
    var served := Apply(approved, DeliverBegin(k, true));
    Apply(Apply(served, Return(k.exec, result, Null)), Return(h, result', Null))
  }

  /** An early approval makes the effect succeed twice right away exactly if the request is granted
      and the effect has succeeded before or runs in another session. */
  lemma DuplicatesAtOnceExactly(s: State, k: Key, at: Json, result: Json, result': Json)
    requires Reachable(s) && BeginPending(s, k) && k in s.table.rows && s.table.rows[k].status.AWAITING_APPROVAL?
    ensures s.table.Valid()
    ensures var p := s.table.rows[k].project;
      (exists h :: Wins(AfterEarlyApproval(s, k, at, h, result, result').log, p, k.fingerprint) >= 2) <==>
        && NoLaterDone(s.table, k)
        && (Wins(s.log, p, k.fingerprint) == 1 || exists h :: RunsElsewhere(s, h, p, k.fingerprint))
  {
    hide Reaches, OneLive, SkipsCovered, MailOk, LogOk, SentOk, SessionsOk, Wins, AfterEarlyApproval, NoLaterDone,
      RunsElsewhere, BeginSideEffect, ApproveSideEffect, HasDone;
    ReachableInv(s);
    OwnProject(s, k);
    EarlyApprovalGrantsExactly(s, k, at);
    AtMostOnce(s);
    var p, fp := s.table.rows[k].project, k.fingerprint;
    AtMostOneWin(s.log, p, fp);
    forall h
      ensures Wins(AfterEarlyApproval(s, k, at, h, result, result').log, p, fp)
           == Wins(s.log, p, fp) + (if NoLaterDone(s.table, k) then 1 else 0) + if RunsElsewhere(s, h, p, fp) then 1 else 0
    {
      WinsAfter(s, k, at, h, result, result');
    }
    forall h | RunsElsewhere(s, h, p, fp) ensures Wins(s.log, p, fp) == 0 {
      RunningHasNotWon(s, h, p, fp);
    }
    assert Wins(AfterEarlyApproval(s, k, at, k.exec, result, result').log, p, fp) <= 3;
  }

  lemma RunningHasNotWon(s: State, h: Id, p: Id, fp: string)
    requires Inv(s) && RunsElsewhere(s, h, p, fp)
    ensures Wins(s.log, p, fp) == 0
  {
    RunningRow(s, h);
    NoWins(s.log, p, fp);
    hide RowsOk, SkipsCovered, MailOk, SentOk, SessionsOk;
    forall x | x in s.log ensures !(x.project == p && x.key.fingerprint == fp) {
      assert x.key != Key(h, fp);
    }
  }

  lemma ReturnLogs(s: State, e: Id, result: Json, p: Id, fp: string)
    requires s.table.Valid()
    ensures Wins(Apply(s, Return(e, result, Null)).log, p, fp)
         == Wins(s.log, p, fp) + if RunsElsewhere(s, e, p, fp) then 1 else 0
  {
    hide Wins, Table.Valid;
    if e in s.clients && s.clients[e].phase.Running? && e in s.executions {
      WinsAppend(s.log, Success(Key(e, s.clients[e].phase.op.fingerprint), s.executions[e].project, result), p, fp);
    }
  }

  lemma WinsAfter(s: State, k: Key, at: Json, h: Id, result: Json, result': Json)
    requires s.table.Valid() && k in s.table.rows && BeginPending(s, k) && k in s.sent && k.exec in s.executions
    requires s.sent[k].op == s.clients[k.exec].phase.op
    requires s.executions[k.exec].project == s.table.rows[k].project
    requires var t := ApproveSideEffect(s.table, k, s.table.rows[k].project, at).0;
      BeginSideEffect(t, s.executions, k.exec, s.sent[k].op) ==
        (t, if NoLaterDone(s.table, k) then Execute else Rejected(DuplicateKey))
    ensures var p := s.table.rows[k].project;
      Wins(AfterEarlyApproval(s, k, at, h, result, result').log, p, k.fingerprint)
      == Wins(s.log, p, k.fingerprint) + (if NoLaterDone(s.table, k) then 1 else 0)
         + if RunsElsewhere(s, h, p, k.fingerprint) then 1 else 0
  {
    hide BeginSideEffect, ApproveSideEffect, NoLaterDone, Wins, RunsElsewhere, Table.Valid, TableAfter, Apply;
    var p := s.table.rows[k].project;
    ApprovesOnly(s, k, p, at);
    var approved := Apply(s, Approve(k, p, at));
    ServedWins(approved, k, h, p, NoLaterDone(s.table, k));
    var served := Apply(approved, DeliverBegin(k, true));
    ReturnLogs(served, k.exec, result, p, k.fingerprint);
    ReturnLogs(Apply(served, Return(k.exec, result, Null)), h, result', p, k.fingerprint);
    OnlyOneReturned(served, k.exec, result, h, p, k.fingerprint);
    SameRunner(s, approved, h, p, k.fingerprint);
  }

  lemma ApprovesOnly(s: State, k: Key, p: Id, at: Json)
    requires s.table.Valid()
    ensures Apply(s, Approve(k, p, at)) == s.(table := ApproveSideEffect(s.table, k, p, at).0)
  {
    hide ApproveSideEffect, Table.Valid;
  }

  lemma SameRunner(s: State, s': State, h: Id, p: Id, fp: string)
    requires s'.clients == s.clients && s'.executions == s.executions
    ensures RunsElsewhere(s', h, p, fp) == RunsElsewhere(s, h, p, fp)
  {
  }

  /** After its return a session does not run any more; the others do not notice. */
  lemma OnlyOneReturned(s: State, e: Id, result: Json, h: Id, p: Id, fp: string)
    requires s.table.Valid()
    ensures RunsElsewhere(Apply(s, Return(e, result, Null)), h, p, fp) <==> h != e && RunsElsewhere(s, h, p, fp)
  {
    hide Table.Valid;
  }

  /** The waiting session is granted the effect or ends. */
  lemma ServedWins(s: State, k: Key, h: Id, p: Id, granted: bool)
    requires s.table.Valid() && BeginPending(s, k) && k in s.sent && k.exec in s.executions
    requires s.sent[k].op == s.clients[k.exec].phase.op && s.executions[k.exec].project == p
    requires BeginSideEffect(s.table, s.executions, k.exec, s.sent[k].op)
          == (s.table, if granted then Execute else Rejected(DuplicateKey))
    ensures var served := Apply(s, DeliverBegin(k, true));
      && served.log == s.log && !RunsElsewhere(s, k.exec, p, k.fingerprint)
      && (RunsElsewhere(served, k.exec, p, k.fingerprint) <==> granted)
      && (h != k.exec ==> RunsElsewhere(served, h, p, k.fingerprint) == RunsElsewhere(s, h, p, k.fingerprint))
  {
    hide BeginSideEffect, Table.Valid;
  }
}
