/** What an early approval can lead to over all runs that follow it. */
module EarlyApprovalRuns {
  import opened Values
  import opened Ledger
  import opened BeginCases
  import opened Protocol
  import opened Invariant
  import opened Steps
  import opened Guarantees
  import opened EarlyApproval

  // ---------------------------------------------------------------- the invariant of one effect

  /** The keys of the effect. */
  predicate Ours(s: State, p: Id, fp: string, j: Key) {
    j.fingerprint == fp && j.exec in s.executions && j.exec in s.clients && s.executions[j.exec].project == p
  }

  predicate Runs(s: State, j: Key) {
    && j.exec in s.clients && s.clients[j.exec].phase.Running?
    && s.clients[j.exec].phase.op.fingerprint == j.fingerprint
  }

  /** Its operation has succeeded, or may yet. */
  ghost predicate Claims(s: State, j: Key) { Runs(s, j) || Won(s, j) }

  /** The row of a running operation: the one approved early is done at the same time. */
  predicate Held(row: Row, early: bool) { row.status.EXECUTING? || (early && row.Done()) }

  /** What is known of a key if `k` was approved early. */
  ghost predicate KeyOk(s: State, k: Key, j: Key)
    requires j.exec in s.clients
  {
    var client := s.clients[j.exec];
    && (Runs(s, j) || BeginPending(s, j) ==> j.fingerprint !in client.cache && Untold(s, j))
    && (Runs(s, j) ==> j in s.table.rows && Held(s.table.rows[j], j == k))
    && (BeginPending(s, j) && j in s.table.rows ==>
          Pending(s.table.rows[j]) || (j == k && s.table.rows[j].Done()))
    && (Won(s, j) ==> j in s.table.rows && Held(s.table.rows[j], true))
    && (j in s.mail ==> j in s.table.rows && Held(s.table.rows[j], j == k) && (s.mail[j].Commit? || !Won(s, j)))
    && (j in s.table.rows ==>
          client.phase.Ended? || j.fingerprint in client.cache || Runs(s, j) || BeginPending(s, j))
    && (j in s.sent ==> client.phase.Ended? || BeginPending(s, j) || j in s.table.rows)
  }

  /** Rows and successes carry the project of their execution, requests their fingerprint. */
  ghost predicate Fits(s: State) {
    && s.table.Valid() && s.clients.Keys == s.executions.Keys && s.gated.Keys !! s.executions.Keys
    && (forall j | j in s.table.rows ::
          j.exec in s.executions && s.table.rows[j].project == s.executions[j.exec].project)
    && (forall x | x in s.log :: x.key.exec in s.executions && x.project == s.executions[x.key.exec].project)
    && (forall j | j in s.mail :: j.exec in s.executions)
    && (forall j | j in s.sent :: j.exec in s.executions && s.sent[j].op.fingerprint == j.fingerprint)
  }

  ghost predicate NobodyClaims(s: State, p: Id, fp: string) {
    forall j | Ours(s, p, fp, j) :: !Claims(s, j)
  }

  ghost predicate DoneWhileWaiting(s: State, k: Key) {
    BeginPending(s, k) && k in s.table.rows && s.table.rows[k].Done()
  }

  ghost predicate OneClaim(s: State, p: Id, fp: string) {
    forall i, j | Ours(s, p, fp, i) && Ours(s, p, fp, j) && Claims(s, i) && Claims(s, j) :: i == j
  }

  ghost predicate Distinct(log: seq<Success>, p: Id, fp: string) {
    forall i, j | 0 <= i < j < |log| && log[i].project == p && log[i].key.fingerprint == fp :: log[i].key != log[j].key
  }

  /** At most one key of the effect has succeeded or may yet, although `k` was approved early. */
  ghost predicate Contained(s: State, k: Key, p: Id, fp: string) {
    && Fits(s) && Ours(s, p, fp, k) && k in s.table.rows
    && (forall j | Ours(s, p, fp, j) :: KeyOk(s, k, j))
    && OneClaim(s, p, fp) && Distinct(s.log, p, fp)
    && (DoneWhileWaiting(s, k) ==> NobodyClaims(s, p, fp) || !NoLaterDone(s.table, k))
  }

  lemma ContainedOnce(s: State, k: Key, p: Id, fp: string)
    requires Contained(s, k, p, fp)
    ensures Wins(s.log, p, fp) <= 1
  {
    hide KeyOk, NoLaterDone, Wins, Table.Valid, Claims;
    forall i, j | 0 <= i < j < |s.log| && s.log[i].project == s.log[j].project == p
      ensures !(s.log[i].key.fingerprint == s.log[j].key.fingerprint == fp)
    {
      SuccessClaims(s, i);
      SuccessClaims(s, j);
    }
    AtMostOneWin(s.log, p, fp);
  }

  lemma SuccessClaims(s: State, i: nat)
    requires Fits(s) && i < |s.log|
    ensures Claims(s, s.log[i].key) && Ours(s, s.log[i].project, s.log[i].key.fingerprint, s.log[i].key)
  {
    assert s.log[i] in s.log;
  }

  // ---------------------------------------------------------------- steps of one session

  lemma SameKey(s: State, s': State, k: Key, j: Key)
    requires j.exec in s.clients && KeyOk(s, k, j)
    requires j.exec in s'.clients && s'.clients[j.exec] == s.clients[j.exec]
    requires s'.table == s.table
    requires (j in s'.sent ==> j in s.sent) && (j in s'.mail <==> j in s.mail)
    requires j in s.mail ==> s'.mail[j] == s.mail[j]
    requires Won(s', j) == Won(s, j)
    ensures KeyOk(s', k, j) && Claims(s', j) == Claims(s, j)
  {
    hide Won, Row.Done;
  }

  /** One session moves, with its own requests, reports and successes. */
  lemma SessionStep(s: State, s': State, e: Id, k: Key, p: Id, fp: string)
    requires Contained(s, k, p, fp) && e in s.clients && Fits(s')
    requires s'.table == s.table && s'.executions == s.executions && s'.clients.Keys == s.clients.Keys
    requires forall d | d in s.clients && d != e :: s'.clients[d] == s.clients[d]
    requires forall j: Key | j.exec != e ::
      && (j in s'.sent ==> j in s.sent) && (j in s'.mail <==> j in s.mail) && (j in s.mail ==> s'.mail[j] == s.mail[j])
      && Won(s', j) == Won(s, j)
    requires Ours(s, p, fp, Key(e, fp)) ==> KeyOk(s', k, Key(e, fp))
    requires DoneWhileWaiting(s', k) ==> DoneWhileWaiting(s, k)
    requires Ours(s, p, fp, Key(e, fp)) && Claims(s', Key(e, fp)) && !Claims(s, Key(e, fp)) ==>
      NobodyClaims(s, p, fp) && !DoneWhileWaiting(s', k)
    requires Distinct(s'.log, p, fp)
    ensures Contained(s', k, p, fp)
  {
    hide Fits, KeyOk, Claims, DoneWhileWaiting, NoLaterDone, Won, Distinct;
    forall j | Ours(s', p, fp, j)
      ensures Ours(s, p, fp, j) && KeyOk(s', k, j)
      ensures j.exec != e ==> Claims(s', j) == Claims(s, j)
    {
      if j.exec != e { SameKey(s, s', k, j); }
      assert j.exec == e ==> j == Key(e, fp);
    }
  }

  /** An idle session calls for an effect that it does not remember. */
  lemma CallStep(s: State, e: Id, op: Operation, timeoutMs: nat, k: Key, p: Id, fp: string)
    requires Contained(s, k, p, fp)
    ensures Contained(Apply(s, Call(e, op, timeoutMs)), k, p, fp)
  {
    hide NoLaterDone, OneClaim, Distinct, NobodyClaims, KeyOk, Table.Valid;
    var s', j := Apply(s, Call(e, op, timeoutMs)), Key(e, fp);
    if s' != s {
      assert Fits(s');
      hide Fits;
      assert forall j :: Won(s', j) == Won(s, j);
      hide Won;
      if Ours(s, p, fp, j) { CallKey(s, s', op, timeoutMs, k, j); }
      SessionStep(s, s', e, k, p, fp);
    }
  }

  lemma CallKey(s: State, s': State, op: Operation, timeoutMs: nat, k: Key, j: Key)
    requires j.exec in s.clients && KeyOk(s, k, j)
    requires s.table.Valid() && s' == Apply(s, Call(j.exec, op, timeoutMs)) && s' != s
    ensures KeyOk(s', k, j) && (BeginPending(s', j) ==> j !in s.table.rows) && Claims(s', j) == Claims(s, j)
  {
    assert Won(s', j) == Won(s, j);
    hide Won, Held, Table.Valid;
  }

  lemma EndStep(s: State, e: Id, k: Key, p: Id, fp: string)
    requires Contained(s, k, p, fp)
    ensures Contained(Apply(s, End(e)), k, p, fp)
  {
    hide NoLaterDone, Held, OneClaim, Distinct, NobodyClaims, Table.Valid;
    var s' := Apply(s, End(e));
    if s' != s {
      assert forall j :: Won(s', j) == Won(s, j);
      hide Won;
      var j := Key(e, fp);
      assert Fits(s');
      hide Fits;
      if Ours(s, p, fp, j) { assert KeyOk(s, k, j); }
      SessionStep(s, s', e, k, p, fp);
    }
  }

  /** A running session sends a report that is no commit. */
  lemma FailStep(s: State, s': State, e: Id, report: Report, k: Key, p: Id, fp: string)
    requires Contained(s, k, p, fp) && e in s.clients && s.clients[e].phase.Running? && !report.Commit?
    requires s' == Send(s, e, s.clients[e].phase.op, report, s.clients[e].(phase := Ended)).(overdue := s'.overdue)
    ensures Contained(s', k, p, fp)
  {
    hide NoLaterDone, Held, OneClaim, Distinct, NobodyClaims, Table.Valid;
    assert forall j :: Won(s', j) == Won(s, j);
    hide Won;
    var j := Key(e, fp);
    assert Fits(s');
    if Ours(s, p, fp, j) { assert KeyOk(s, k, j); }
    SessionStep(s, s', e, k, p, fp);
  }

  /** A running session succeeds; it sends the commit, or is gone. */
  ghost predicate Succeeds(s: State, s': State, e: Id) {
    && e in s.clients && s.clients[e].phase.Running? && e in s.executions && e in s'.clients && |s'.log| == |s.log| + 1
    && var own := Key(e, s.clients[e].phase.op.fingerprint);
       && s'.log == s.log + [Success(own, s.executions[e].project, s'.log[|s.log|].result)]
       && s' == s.(clients := s.clients[e := s'.clients[e]], mail := s'.mail, log := s'.log)
       && (s'.mail == s.mail || (own in s'.mail && s'.mail == s.mail[own := s'.mail[own]] && s'.mail[own].Commit?))
       && (s'.clients[e].phase.Ended? || (s'.clients[e].phase.Idle? && own.fingerprint in s'.clients[e].cache))
       && forall f | f in s.clients[e].cache :: f in s'.clients[e].cache
  }

  lemma SuccessStep(s: State, s': State, e: Id, k: Key, p: Id, fp: string)
    requires Contained(s, k, p, fp) && Succeeds(s, s', e)
    ensures Contained(s', k, p, fp)
  {
    hide KeyOk, NoLaterDone, OneClaim, NobodyClaims;
    var own, j := Key(e, s.clients[e].phase.op.fingerprint), Key(e, fp);
    SuccessFits(s, s', e);
    WonGrows(s, s'.log[|s.log|], s');
    hide Won;
    if Ours(s, p, fp, j) { SuccessKey(s, s', e, k, j); }
    StillDistinct(s, s'.log[|s.log|], p, fp);
    hide Distinct;
    SessionStep(s, s', e, k, p, fp);
  }

  lemma SuccessFits(s: State, s': State, e: Id)
    requires Fits(s) && Succeeds(s, s', e)
    ensures Fits(s')
  {
    hide Table.Valid;
  }

  lemma SuccessKey(s: State, s': State, e: Id, k: Key, j: Key)
    requires Succeeds(s, s', e) && j.exec == e && KeyOk(s, k, j)
    ensures KeyOk(s', k, j) && !Runs(s', j) && !BeginPending(s', j)
    ensures Runs(s, j) ==> !Won(s, j)
  {
    WonGrows(s, s'.log[|s.log|], s');
    hide Won;
  }

  lemma StillDistinct(s: State, x: Success, p: Id, fp: string)
    requires Fits(s) && Distinct(s.log, p, fp)
    requires x.key.exec in s.executions && x.project == s.executions[x.key.exec].project
    requires x.project == p && x.key.fingerprint == fp ==> !Won(s, x.key)
    ensures Distinct(s.log + [x], p, fp)
  {
    forall i | 0 <= i < |s.log| && s.log[i].project == p && s.log[i].key.fingerprint == fp
      ensures s.log[i].key != x.key
    {
      assert s.log[i] in s.log;
    }
  }

  // ---------------------------------------------------------------- steps of the table

  /** A row that is done behind the one of `k` stays, and stays done. */
  ghost predicate KeepsLaterDone(t: Table, t': Table, k: Key) {
    && k in t.rows && k in t'.rows && t.order <= t'.order && t'.rows[k].project == t.rows[k].project
    && forall d | DoneFor(t, t.rows[k].project, k.fingerprint, d) && d != k ::
         DoneFor(t', t.rows[k].project, k.fingerprint, d)
  }

  lemma LaterDoneStays(t: Table, t': Table, k: Key)
    requires t.Valid() && KeepsLaterDone(t, t', k)
    ensures NoLaterDone(t', k) ==> NoLaterDone(t, k)
  {
    hide DoneFor;
    if i, j :| 0 <= i < j < |t.order| && t.order[i] == k && DoneFor(t, t.rows[k].project, k.fingerprint, t.order[j]) {
      assert t'.order[i] == k && t'.order[j] == t.order[j];
    }
  }

  /** No claims but those that were there before. */
  lemma FewerClaims(s: State, s': State, p: Id, fp: string)
    requires forall j | Ours(s', p, fp, j) && Claims(s', j) :: Ours(s, p, fp, j) && Claims(s, j)
    ensures (OneClaim(s, p, fp) ==> OneClaim(s', p, fp)) && (NobodyClaims(s, p, fp) ==> NobodyClaims(s', p, fp))
  {
    hide Claims, Ours;
  }

  lemma SameClaims(s: State, s': State, p: Id, fp: string)
    requires s'.clients == s.clients && s'.executions == s.executions && s'.log == s.log
    ensures forall j :: Ours(s', p, fp, j) == Ours(s, p, fp, j) && Claims(s', j) == Claims(s, j)
    ensures NobodyClaims(s', p, fp) == NobodyClaims(s, p, fp)
  {
    assert forall j :: Won(s', j) == Won(s, j);
    hide Won;
    assert forall j :: Claims(s', j) == Claims(s, j);
    hide Claims;
    assert forall j :: Ours(s', p, fp, j) == Ours(s, p, fp, j);
  }

  lemma TableStep(s: State, s': State, k: Key, p: Id, fp: string)
    requires Contained(s, k, p, fp) && Fits(s') && KeepsLaterDone(s.table, s'.table, k)
    requires s' == s.(table := s'.table, mail := s'.mail, gated := s'.gated)
    requires forall j | Ours(s, p, fp, j) :: KeyOk(s', k, j)
    requires DoneWhileWaiting(s', k) ==> DoneWhileWaiting(s, k)
    ensures Contained(s', k, p, fp)
  {
    LaterDoneStays(s.table, s'.table, k);
    SameClaims(s, s', p, fp);
    hide Fits, KeyOk, DoneWhileWaiting, NoLaterDone, NobodyClaims, Claims;
  }

  lemma QuietStep(s: State, t': Table, gated: map<Id, Execution>, k: Key, p: Id, fp: string)
    requires Contained(s, k, p, fp) && Quiet(s, t') && t'.Valid() && gated.Keys !! s.executions.Keys
    ensures Contained(s.(table := t', gated := gated), k, p, fp)
  {
    hide NoLaterDone, Pending, Table.Valid;
    var s' := s.(table := t', gated := gated);
    forall j | j in s.table.rows ensures j in t'.rows && QuietRow(s, j, s.table.rows[j], t'.rows[j]) {}
    hide Quiet;
    assert forall j :: Won(s', j) == Won(s, j);
    hide Won;
    forall j | Ours(s, p, fp, j) ensures KeyOk(s', k, j) { assert KeyOk(s, k, j); }
    assert DoneWhileWaiting(s', k) ==> DoneWhileWaiting(s, k) by { assert KeyOk(s, k, k); QuietWaits(s, t', k); }
    TableStep(s, s', k, p, fp);
  }

  lemma QuietWaits(s: State, t': Table, k: Key)
    requires k in s.table.rows && k in t'.rows && QuietRow(s, k, s.table.rows[k], t'.rows[k])
    requires BeginPending(s, k) ==> Pending(s.table.rows[k]) || s.table.rows[k].Done()
    ensures BeginPending(s, k) && t'.rows[k].Done() ==> s.table.rows[k].Done()
  {
  }

  /** The report about a row arrives. */
  lemma ArriveStep(s: State, r: Key, k: Key, p: Id, fp: string)
    requires Contained(s, k, p, fp)
    ensures Contained(Apply(s, DeliverReport(r)), k, p, fp)
  {
    hide NoLaterDone, Table.Valid;
    if r in s.mail {
      var s' := Apply(s, DeliverReport(r));
      assert forall j :: Won(s', j) == Won(s, j);
      hide Won;
      ArrivesAt(s.table, r, s.mail[r]);
      hide ApplyReport;
      assert Fits(s');
      hide Fits;
      forall j | Ours(s, p, fp, j) ensures KeyOk(s', k, j) { ArriveKey(s, s', r, k, j); }
      hide Held, Pending;
      forall d | DoneFor(s.table, s.table.rows[k].project, k.fingerprint, d) && d != k
        ensures DoneFor(s'.table, s.table.rows[k].project, k.fingerprint, d)
      {
        assert Ours(s, p, fp, d);
        assert KeyOk(s, k, d);
      }
      assert KeyOk(s, k, k);
      TableStep(s, s', k, p, fp);
    }
  }

  lemma ArriveKey(s: State, s': State, r: Key, k: Key, j: Key)
    requires j.exec in s.clients && KeyOk(s, k, j) && r in s.mail
    requires s' == s.(table := s'.table, mail := s.mail - {r}) && s'.table.rows.Keys == s.table.rows.Keys
    requires forall i | i in s.table.rows && i != r :: s'.table.rows[i] == s.table.rows[i]
    requires r in s.table.rows ==> (s'.table.rows[r].Done() <==> s.mail[r].Commit?)
    ensures KeyOk(s', k, j)
  {
    assert Won(s', j) == Won(s, j);
    hide Won, Pending;
  }

  lemma ArrivesAt(t: Table, r: Key, report: Report)
    ensures var t' := ApplyReport(t, r, report);
      && (t.Valid() ==> t'.Valid())
      && t'.order == t.order && t'.rows.Keys == t.rows.Keys
      && (forall j | j in t.rows && j != r :: t'.rows[j] == t.rows[j])
      && (r in t.rows ==> t'.rows[r].project == t.rows[r].project && (t'.rows[r].Done() <==> report.Commit?))
  {
    hide Spread, Stored, Table.Valid;
  }

  // ---------------------------------------------------------------- a begin request is served

  /** A row that was not there before. */
  lemma AddStep(s: State, r: Key, row: Row, k: Key, p: Id, fp: string)
    requires Contained(s, k, p, fp) && r !in s.table.rows && r.exec in s.clients
    requires Ours(s, p, fp, r) ==> s.clients[r.exec].phase.Ended? || BeginPending(s, r)
    requires row.project == s.executions[r.exec].project
    requires row.status.SKIPPED? || row.status.FAILED? || row.status.EXECUTING?
    ensures Contained(s.(table := Table(s.table.rows[r := row], s.table.order + [r])), k, p, fp)
  {
    hide NoLaterDone, KeyOk, OneClaim, Distinct, NobodyClaims;
    var s' := s.(table := Table(s.table.rows[r := row], s.table.order + [r]));
    AddFits(s, r, row);
    hide Fits, Table.Valid;
    forall j | Ours(s, p, fp, j) ensures KeyOk(s', k, j) { AddKey(s, s', r, row, k, j); }
    TableStep(s, s', k, p, fp);
  }

  lemma AddFits(s: State, r: Key, row: Row)
    requires Fits(s) && r !in s.table.rows && r.exec in s.executions && row.project == s.executions[r.exec].project
    ensures Fits(s.(table := Table(s.table.rows[r := row], s.table.order + [r])))
  {
    assert Table(s.table.rows[r := row], s.table.order + [r]).Valid();
    hide Table.Valid;
  }

  lemma AddKey(s: State, s': State, r: Key, row: Row, k: Key, j: Key)
    requires j.exec in s.clients && KeyOk(s, k, j) && r !in s.table.rows && r.exec in s.clients
    requires r == j ==> s.clients[r.exec].phase.Ended? || BeginPending(s, r)
    requires row.status.SKIPPED? || row.status.FAILED? || row.status.EXECUTING?
    requires s' == s.(table := Table(s.table.rows[r := row], s.table.order + [r]))
    ensures KeyOk(s', k, j)
  {
    assert Won(s', j) == Won(s, j);
    hide Won, Held;
  }

  lemma ServeStep(s: State, r: Key, k: Key, p: Id, fp: string)
    requires Contained(s, k, p, fp) && r in s.sent
    ensures s.table.Valid() && r.exec in s.executions
    ensures Contained(s.(table := BeginSideEffect(s.table, s.executions, r.exec, s.sent[r].op).0), k, p, fp)
  {
    var x, op := s.executions[r.exec], s.sent[r].op;
    assert Ours(s, p, fp, r) ==> KeyOk(s, k, r);
    hide Contained, BeginSideEffect, DoneRow, HolderRow, MarkConflict, OrElse, SkipNote, ConflictNote, Table.Valid;
    var t := s.table;
    var prior, holder := DoneRow(t, x.project, r.fingerprint), HolderRow(t, x.project, r.fingerprint, r.exec);
    if prior.Some? {
      WhenDone(t, s.executions, r.exec, op, prior.value);
      if r !in t.rows { AddStep(s, r, NewRow(x, op, SKIPPED, SkipNote(prior.value.exec)), k, p, fp); }
    } else if holder.Some? {
      WhenHeld(t, s.executions, r.exec, op, holder.value);
      MarkIsQuiet(s, holder.value, r.exec);
      var marked := t.Update(holder.value, MarkConflict(t.rows[holder.value], r.exec));
      QuietStep(s, marked, s.gated, k, p, fp);
      if r !in t.rows {
        AddStep(s.(table := marked), r, NewRow(x, op, FAILED, ConflictNote(holder.value.exec)), k, p, fp);
      }
    } else {
      WhenFree(t, s.executions, r.exec, op);
      if r !in t.rows { AddStep(s, r, NewRow(x, op, EXECUTING, EmptyObject), k, p, fp); }
    }
  }

  /** The effect is granted only if nobody has a claim on it. */
  lemma GrantedToOne(s: State, r: Key, k: Key, p: Id, fp: string)
    requires Contained(s, k, p, fp) && Ours(s, p, fp, r) && r in s.sent && BeginPending(s, r)
    requires s.table.Valid() && BeginSideEffect(s.table, s.executions, r.exec, s.sent[r].op).1.Execute?
    ensures NobodyClaims(s, p, fp) && (r != k ==> !DoneWhileWaiting(s, k))
    ensures r in s.table.rows ==> r == k && s.table.rows[r].Done()
  {
    assert KeyOk(s, k, r) && s.sent[r].op.fingerprint == r.fingerprint;
    hide BeginSideEffect, DoneRow, HolderRow, MarkConflict, OrElse, SkipNote, ConflictNote, NewRow, NoLaterDone,
      Table.Valid;
    var t, op := s.table, s.sent[r].op;
    var prior, holder := DoneRow(t, p, fp), HolderRow(t, p, fp, r.exec);
    if prior.Some? {
      WhenDone(t, s.executions, r.exec, op, prior.value);
      assert prior.value == r == k;
      FoundIsLast(t, k);
    } else if holder.Some? {
      WhenHeld(t, s.executions, r.exec, op, holder.value);
    } else {
      WhenFree(t, s.executions, r.exec, op);
      forall j | Ours(s, p, fp, j) ensures !Claims(s, j) {
        assert KeyOk(s, k, j);
        assert j.exec == r.exec ==> j == r;
      }
    }
  }

  lemma FoundIsLast(t: Table, k: Key)
    requires t.Valid() && k in t.rows && DoneRow(t, t.rows[k].project, k.fingerprint) == Some(k)
    ensures NoLaterDone(t, k)
  {
    hide DoneRow, DoneFor;
    var i :| 0 <= i < |t.order| && t.order[i] == k;
    DoneRowExactly(t, t.rows[k].project, k.fingerprint, i);
  }

  /** The waiting session hears its answer. */
  lemma HearStep(s: State, r: Key, answer: Answer, k: Key, p: Id, fp: string)
    requires Contained(s, k, p, fp) && BeginPending(s, r)
    requires answer.Skip? ==> r in s.table.rows
    requires answer.Execute? && Ours(s, p, fp, r) ==>
      && r in s.table.rows && Held(s.table.rows[r], r == k)
      && NobodyClaims(s, p, fp) && (r != k ==> !DoneWhileWaiting(s, k))
    ensures Contained(s.(clients := s.clients[r.exec := Heard(s.clients[r.exec], answer)]), k, p, fp)
  {
    hide NoLaterDone, Held, OneClaim, Distinct, NobodyClaims, KeyOk, Table.Valid;
    var s' := s.(clients := s.clients[r.exec := Heard(s.clients[r.exec], answer)]);
    assert forall j :: Won(s', j) == Won(s, j);
    var j := Key(r.exec, fp);
    assert Fits(s');
    hide Fits;
    if Ours(s, p, fp, j) { HearKey(s, r, answer, k, j); }
    hide Won;
    SessionStep(s, s', r.exec, k, p, fp);
  }

  lemma HearKey(s: State, r: Key, answer: Answer, k: Key, j: Key)
    requires j.exec in s.clients && KeyOk(s, k, j) && BeginPending(s, r) && r.exec == j.exec
    requires answer.Skip? && r == j ==> j in s.table.rows
    requires answer.Execute? && r == j ==> j in s.table.rows && Held(s.table.rows[j], j == k)
    ensures KeyOk(s.(clients := s.clients[r.exec := Heard(s.clients[r.exec], answer)]), k, j)
  {
    var s' := s.(clients := s.clients[r.exec := Heard(s.clients[r.exec], answer)]);
    assert Won(s', j) == Won(s, j);
    hide Won, Held, Pending;
  }

  /** Serving a request makes nothing done that was there before. */
  lemma ServingDoesNothing(s: State, e: Id, op: Operation, k: Key)
    requires s.table.Valid() && k in s.table.rows
    ensures DoneWhileWaiting(s.(table := BeginSideEffect(s.table, s.executions, e, op).0), k) ==> DoneWhileWaiting(s, k)
  {
    BeginTouches(s.table, s.executions, e, op);
    hide BeginSideEffect, Table.Valid;
  }

  lemma BeginStep(s: State, r: Key, heard: bool, k: Key, p: Id, fp: string)
    requires Contained(s, k, p, fp)
    ensures Contained(Apply(s, DeliverBegin(r, heard)), k, p, fp)
  {
    assert s.table.Valid() && k in s.table.rows && (r in s.sent ==> s.sent[r].op.fingerprint == r.fingerprint);
    hide Contained, BeginSideEffect, NobodyClaims, DoneWhileWaiting, Table.Valid;
    if r in s.sent && r.exec in s.clients {
      var op := s.sent[r].op;
      var answer := BeginSideEffect(s.table, s.executions, r.exec, op);
      ServeStep(s, r, k, p, fp);
      if heard && BeginPending(s, r) {
        AnsweredRow(s.table, s.executions, r.exec, op);
        if answer.1.Execute? && Ours(s, p, fp, r) {
          GrantedToOne(s, r, k, p, fp);
          BeginTouches(s.table, s.executions, r.exec, op);
          ServingDoesNothing(s, r.exec, op, k);
          SameClaims(s, s.(table := answer.0), p, fp);
        }
        HearStep(s.(table := answer.0), r, answer.1, k, p, fp);
      }
    }
  }

  // ---------------------------------------------------------------- every step

  lemma CreateStep(s: State, e: Id, admitted: bool, k: Key, p: Id, fp: string)
    requires Contained(s, k, p, fp)
    ensures Contained(Apply(s, Create(e, admitted)), k, p, fp)
  {
    hide NoLaterDone, Held, OneClaim, Distinct, NobodyClaims, Table.Valid;
    var s' := Apply(s, Create(e, admitted));
    if s' != s {
      assert forall j :: Won(s', j) == Won(s, j);
      assert e !in s.executions && !Won(s, Key(e, fp));
      hide Won;
      assert Fits(s');
      hide Fits;
      forall j | Ours(s', p, fp, j) ensures KeyOk(s', k, j) && (Claims(s', j) ==> Ours(s, p, fp, j) && Claims(s, j)) {
        if j.exec != e { SameKey(s, s', k, j); }
      }
      hide KeyOk, Claims;
      FewerClaims(s, s', p, fp);
    }
  }

  lemma LateStep(s: State, r: Key, result: Json, k: Key, p: Id, fp: string)
    requires Contained(s, k, p, fp)
    ensures Contained(Apply(s, LateReturn(r, result)), k, p, fp)
  {
    hide NoLaterDone, Held, OneClaim, Distinct, NobodyClaims, Table.Valid;
    var s' := Apply(s, LateReturn(r, result));
    SameClaims(s, s', p, fp);
    hide Claims;
    FewerClaims(s, s', p, fp);
    assert Fits(s');
    hide Fits, KeyOk;
    forall j | Ours(s', p, fp, j) ensures KeyOk(s', k, j) { LateKey(s, s', k, j); }
  }

  lemma LateKey(s: State, s': State, k: Key, j: Key)
    requires j.exec in s.clients && KeyOk(s, k, j) && s' == s.(overdue := s'.overdue, late := s'.late)
    ensures KeyOk(s', k, j)
  {
    assert Won(s', j) == Won(s, j);
    hide Won, Held;
  }

  lemma GateStep(s: State, e: Id, x: Execution, k: Key, p: Id, fp: string)
    requires Contained(s, k, p, fp) && Allowed(s, Gate(e, x))
    ensures Contained(Apply(s, Gate(e, x)), k, p, fp)
  {
    assert s.table.Valid() && s.gated.Keys !! s.executions.Keys;
    hide Contained, Settle, PlanFor, Quiet, Table.Valid;
    if Present(x.workflow) { PlanIsQuiet(s, x.workflow.value, x.project); } else { NothingIsQuiet(s); }
    QuietStep(s, PassGate(s.table, x).0, Apply(s, Gate(e, x)).gated, k, p, fp);
  }

  /** The planner, the verifier and an operator. */
  lemma BackgroundStep(s: State, ev: Event, k: Key, p: Id, fp: string)
    requires Contained(s, k, p, fp) && Allowed(s, ev) && (ev.Verify? || ev.MakePlan? || ev.Approve?)
    ensures Contained(Apply(s, ev), k, p, fp)
  {
    assert s.table.Valid() && s.gated.Keys !! s.executions.Keys;
    hide Contained, Settle, ApplyOutcome, ApproveSideEffect, Quiet, Table.Valid;
    NothingIsQuiet(s);
    match ev {
      case Verify(r, outcome, at) =>
        if r in s.table.rows && s.table.rows[r].status.UNKNOWN? { OutcomeIsQuiet(s, r, outcome, at); }
      case MakePlan(w, p') => PlanIsQuiet(s, w, p');
      case Approve(r, p', at) => ApprovalIsQuiet(s, r, p', at);
    }
    ApplyTable(s, ev);
    assert Apply(s, ev) == s.(table := TableAfter(s, ev));
    hide Apply;
    QuietStep(s, TableAfter(s, ev), s.gated, k, p, fp);
  }

  /** An operation returns while its call waits. */
  lemma ReturnStep(s: State, e: Id, result: Json, receipt: Json, k: Key, p: Id, fp: string)
    requires Contained(s, k, p, fp)
    ensures Contained(Apply(s, Return(e, result, receipt)), k, p, fp)
  {
    assert s.table.Valid();
    hide Contained, Table.Valid;
    var s' := Apply(s, Return(e, result, receipt));
    if s' != s { SuccessStep(s, s', e, k, p, fp); }
  }

  lemma CrashStep(s: State, e: Id, result: Json, k: Key, p: Id, fp: string)
    requires Contained(s, k, p, fp)
    ensures Contained(Apply(s, ReturnAndCrash(e, result)), k, p, fp)
  {
    assert s.table.Valid();
    hide Contained, Table.Valid;
    var s' := Apply(s, ReturnAndCrash(e, result));
    if s' != s { SuccessStep(s, s', e, k, p, fp); }
  }

  /** It throws, or its timer fires. */
  lemma GiveUpStep(s: State, ev: Event, k: Key, p: Id, fp: string)
    requires Contained(s, k, p, fp) && (ev.Throw? || ev.TimeOut?)
    ensures Contained(Apply(s, ev), k, p, fp)
  {
    assert s.table.Valid() && s.clients.Keys == s.executions.Keys;
    hide Contained, Table.Valid;
    match ev {
      case Throw(e, report) => if Apply(s, ev) != s { FailStep(s, Apply(s, ev), e, report, k, p, fp); }
      case TimeOut(e, reason) => if Apply(s, ev) != s { FailStep(s, Apply(s, ev), e, Unknown(reason), k, p, fp); }
    }
  }

  lemma StepContained(s: State, ev: Event, k: Key, p: Id, fp: string)
    requires Contained(s, k, p, fp) && Allowed(s, ev)
    ensures Contained(Apply(s, ev), k, p, fp)
  {
    hide Contained, Apply, Allowed;
    match ev {
      case Create(e, admitted) => CreateStep(s, e, admitted, k, p, fp);
      case Call(e, op, timeoutMs) => CallStep(s, e, op, timeoutMs, k, p, fp);
      case DeliverBegin(r, heard) => BeginStep(s, r, heard, k, p, fp);
      case LateReturn(r, result) => LateStep(s, r, result, k, p, fp);
      case End(e) => EndStep(s, e, k, p, fp);
      case DeliverReport(r) => ArriveStep(s, r, k, p, fp);
      case Return(e, result, receipt) => ReturnStep(s, e, result, receipt, k, p, fp);
      case ReturnAndCrash(e, result) => CrashStep(s, e, result, k, p, fp);
      case Throw(_, _) => GiveUpStep(s, ev, k, p, fp);
      case TimeOut(_, _) => GiveUpStep(s, ev, k, p, fp);
      case Gate(e, x) => GateStep(s, e, x, k, p, fp);
      case _ => BackgroundStep(s, ev, k, p, fp);
    }
  }

  lemma NothingIsQuiet(s: State)
    ensures Quiet(s, s.table)
  {
  }

  lemma {:induction false} RunContained(s: State, evs: seq<Event>, k: Key, p: Id, fp: string)
    requires Contained(s, k, p, fp) && s.table.Valid() && Legal(s, evs)
    ensures Contained(Run(s, evs), k, p, fp)
    decreases |evs|
  {
    hide Apply, Allowed, Contained;
    if evs != [] {
      StepContained(s, evs[0], k, p, fp);
      RunContained(Apply(s, evs[0]), evs[1..], k, p, fp);
    }
  }

  // ---------------------------------------------------------------- after the approval

  /** The session of `k` can be granted the effect, and it has succeeded before or runs elsewhere. */
  ghost predicate Dangerous(s: State, k: Key)
    requires k in s.table.rows
  {
    var p := s.table.rows[k].project;
    && NoLaterDone(s.table, k)
    && (Wins(s.log, p, k.fingerprint) == 1 || exists h :: RunsElsewhere(s, h, p, k.fingerprint))
  }

  lemma ApprovedContained(s: State, k: Key, at: Json)
    requires Reachable(s) && BeginPending(s, k) && k in s.table.rows && s.table.rows[k].status.AWAITING_APPROVAL?
    requires !Dangerous(s, k)
    ensures s.table.Valid()
    ensures var p := s.table.rows[k].project; Contained(Apply(s, Approve(k, p, at)), k, p, k.fingerprint)
  {
    hide Reaches, ApproveSideEffect, NoLaterDone, KeyOk, Claims, OneClaim, NobodyClaims, Distinct, Apply, RunsElsewhere,
      Wins, Fits, Inv;
    ReachableInv(s);
    assert s.table.Valid() by { TableOk(s); }
    var p, fp := s.table.rows[k].project, k.fingerprint;
    var t := ApproveSideEffect(s.table, k, p, at).0;
    ApprovedDoneRow(s.table, k, at);
    ApprovesOnly(s, k, p, at);
    ClaimsBefore(s, p, fp);
    AtMostOnce(s);
    AtMostOneWin(s.log, p, fp);
    ApprovedFits(s, k, t);
    var s' := s.(table := t);
    SameClaims(s, s', p, fp);
    FewerClaims(s, s', p, fp);
    LaterDoneStays(s.table, t, k);
    hide Table.Valid;
    forall j | Ours(s, p, fp, j) ensures KeyOk(s', k, j) { ApprovedKey(s, t, k, j); }
  }

  lemma TableOk(s: State)
    requires Inv(s)
    ensures s.table.Valid()
  {
  }

  lemma ApprovedFits(s: State, k: Key, t: Table)
    requires Inv(s) && k in s.table.rows && t.Valid()
    requires k in t.rows && t.rows == s.table.rows[k := t.rows[k]] && t.rows[k].project == s.table.rows[k].project
    ensures Fits(s.(table := t)) && Ours(s, s.table.rows[k].project, k.fingerprint, k)
  {
    hide OneLive, SkipsCovered, SessionsOk, Table.Valid;
  }

  lemma ClaimIsLive(s: State, j: Key)
    requires Inv(s) && Claims(s, j) && j.exec in s.executions
    ensures j in s.table.rows && Live(s.table.rows[j]) && s.table.rows[j].project == s.executions[j.exec].project
    ensures Won(s, j) ==> exists x :: x in s.log && x.key == j && x.project == s.executions[j.exec].project
  {
    hide OneLive, SkipsCovered, MailOk, SentOk, SessionsOk, Table.Valid;
    if Runs(s, j) { RunningRow(s, j.exec); }
    if x :| x in s.log && x.key == j { assert x.project == s.table.rows[j].project; }
  }

  /** Without an early approval a claim comes with the one live row. */
  lemma ClaimsBefore(s: State, p: Id, fp: string)
    requires Inv(s)
    ensures OneClaim(s, p, fp) && Distinct(s.log, p, fp)
    ensures Wins(s.log, p, fp) == 0 && (forall h :: !RunsElsewhere(s, h, p, fp)) ==> NobodyClaims(s, p, fp)
  {
    assert forall i, j | 0 <= i < j < |s.log| :: s.log[i].key != s.log[j].key;
    forall j | Ours(s, p, fp, j) && Claims(s, j)
      ensures j in s.table.rows && Live(s.table.rows[j]) && s.table.rows[j].project == p
      ensures Wins(s.log, p, fp) != 0 || RunsElsewhere(s, j.exec, p, fp)
    {
      ClaimIsLive(s, j);
      NoWins(s.log, p, fp);
    }
    hide Claims, Ours, RunsElsewhere, Wins, RowsOk, SkipsCovered, MailOk, LogOk, SentOk, SessionsOk;
  }

  lemma ApprovedKey(s: State, t: Table, k: Key, j: Key)
    requires Inv(s) && k in s.table.rows && j.exec in s.clients && j.exec in s.executions
    requires s.table.rows[k].status.AWAITING_APPROVAL? && BeginPending(s, k)
    requires k in t.rows && t.rows == s.table.rows[k := t.rows[k]] && t.rows[k].status.VERIFIED?
    ensures KeyOk(s.(table := t), k, j)
  {
    hide RowsOk, OneLive, SkipsCovered, Table.Valid;
    assert SessionOk(s, j.exec);
    var s' := s.(table := t);
    assert Won(s', j) == Won(s, j);
  }

  /** An early approval can be followed by two successes of the effect, in some run or other,
      exactly if at the approval the session can be granted it and it has succeeded before or runs
      elsewhere. Otherwise at most once holds from there on, whatever happens. */
  lemma EarlyApprovalDuplicatesExactly(s: State, k: Key, at: Json)
    requires Reachable(s) && BeginPending(s, k) && k in s.table.rows && s.table.rows[k].status.AWAITING_APPROVAL?
    ensures s.table.Valid()
    ensures var p := s.table.rows[k].project;
      (exists s' :: Reaches(Apply(s, Approve(k, p, at)), s') && Wins(s'.log, p, k.fingerprint) >= 2)
        <==> Dangerous(s, k)
  {
    DuplicatesAtOnceExactly(s, k, at, Null, Null);
    var p, fp := s.table.rows[k].project, k.fingerprint;
    var approved := Apply(s, Approve(k, p, at));
    hide Reaches, Wins, NoLaterDone, RunsElsewhere, BeginPending, Apply, AfterEarlyApproval, Table.Valid;
    if Dangerous(s, k) {
      var h :| Wins(AfterEarlyApproval(s, k, at, h, Null, Null).log, p, fp) >= 2;
      AfterIsReached(s, k, at, h);
    } else {
      ApprovedContained(s, k, at);
      forall s' | Reaches(approved, s') ensures Wins(s'.log, p, fp) <= 1 { ReachedOnce(approved, s', k, p, fp); }
    }
  }

  lemma ReachedOnce(s: State, s': State, k: Key, p: Id, fp: string)
    requires Contained(s, k, p, fp) && Reaches(s, s')
    ensures Wins(s'.log, p, fp) <= 1
  {
    hide Contained, Legal, Run, Wins;
    var evs :| Legal(s, evs) && Run(s, evs) == s';
    RunContained(s, evs, k, p, fp);
    ContainedOnce(s', k, p, fp);
  }

  lemma AfterIsReached(s: State, k: Key, at: Json, h: Id)
    requires s.table.Valid() && k in s.table.rows
    ensures Reaches(Apply(s, Approve(k, s.table.rows[k].project, at)), AfterEarlyApproval(s, k, at, h, Null, Null))
  {
    hide Reaches, Apply, Table.Valid;
    var start := Apply(s, Approve(k, s.table.rows[k].project, at));
    ReachesItself(start);
    var now := Go(start, start, DeliverBegin(k, true));
    now := Go(start, now, Return(k.exec, Null, Null));
    now := Go(start, now, Return(h, Null, Null));
  }
}
