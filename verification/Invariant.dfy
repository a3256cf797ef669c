/** The inductive invariant of the protocol. */
module Invariant {
  import opened Values
  import opened Ledger
  import opened Protocol

  predicate Live(row: Row) { row.status.EXECUTING? || row.status.COMMITTED? }

  ghost predicate Won(s: State, k: Key) {
    exists x :: x in s.log && x.key == k
  }

  ghost predicate HasDone(t: Table, p: Id, fp: string) {
    exists k :: k in t.rows && k.fingerprint == fp && t.rows[k].project == p && t.rows[k].Done()
  }

  /** Rows carry the project and the workflow of their execution. */
  ghost predicate RowsOk(s: State) {
    && s.table.Valid()
    && s.clients.Keys == s.executions.Keys
    && s.gated.Keys !! s.executions.Keys
    && forall k | k in s.table.rows ::
         && k.exec in s.executions
         && s.table.rows[k].project == s.executions[k.exec].project
         && s.table.rows[k].workflow == s.executions[k.exec].workflow
  }

  /** At most one row per (project, fingerprint) is running or committed. */
  ghost predicate OneLive(t: Table) {
    forall j, k | j in t.rows && k in t.rows && Live(t.rows[j]) && Live(t.rows[k])
                  && j.fingerprint == k.fingerprint && t.rows[j].project == t.rows[k].project :: j == k
  }

  /** What was skipped is done elsewhere. */
  ghost predicate SkipsCovered(t: Table) {
    forall k | k in t.rows && t.rows[k].status.SKIPPED? :: HasDone(t, t.rows[k].project, k.fingerprint)
  }

  /** A report under way is the first one of its row, and a commit tells the truth. */
  ghost predicate MailOk(s: State) {
    forall k | k in s.mail ::
      && k in s.table.rows && s.table.rows[k].status.EXECUTING?
      && match s.mail[k]
         case Commit(result, _) => Success(k, s.table.rows[k].project, result) in s.log
         case _ => !Won(s, k)
  }

  /** Every success has a row that is running or committed, with the stored result;
      no key succeeded twice; a committed row stands for a success. */
  ghost predicate LogOk(s: State) {
    && (forall x | x in s.log ::
         && x.key in s.table.rows && x.project == s.table.rows[x.key].project
         && Live(s.table.rows[x.key])
         && (s.table.rows[x.key].status.COMMITTED? ==> s.table.rows[x.key].metadata == Stored(x.result)))
    && (forall i, j | 0 <= i < j < |s.log| :: s.log[i].key != s.log[j].key)
    && (forall k | k in s.table.rows && s.table.rows[k].status.COMMITTED? :: Won(s, k))
  }

  /** A begin request belongs to its session, and unless the session has ended or still waits
      for it, it has been served. */
  ghost predicate SentOk(s: State) {
    forall k | k in s.sent ::
      && k.exec in s.clients && k.exec in s.executions
      && s.sent[k].op.fingerprint == k.fingerprint && s.sent[k].op.workflow == s.executions[k.exec].workflow
      && (s.clients[k.exec].phase.Ended? || s.clients[k.exec].Awaits(k.fingerprint) || k in s.table.rows)
  }

  /** No report of `k` exists yet, and none of its successes. */
  ghost predicate Untold(s: State, k: Key) { k !in s.mail && !Won(s, k) }

  /** Apart from the effect in progress, the session remembers every row it has. */
  ghost predicate Remembers(s: State, e: Id, current: Option<string>)
    requires e in s.clients
  {
    forall k | k in s.table.rows && k.exec == e && Some(k.fingerprint) != current ::
      k.fingerprint in s.clients[e].cache
  }

  /** States of the own row while the answer to effect/begin is awaited. */
  predicate Pending(row: Row) {
    row.status.EXECUTING? || row.status.SKIPPED? || row.status.FAILED? || row.status.AWAITING_APPROVAL?
  }

  ghost predicate SessionOk(s: State, e: Id)
    requires e in s.clients && e in s.executions
  {
    match s.clients[e].phase
    case Idle => Remembers(s, e, None)
    case Beginning(op, timeoutMs) =>
      var k := Key(e, op.fingerprint);
      && k in s.sent && s.sent[k] == EffectCall(op, timeoutMs)
      && op.fingerprint !in s.clients[e].cache && Remembers(s, e, Some(op.fingerprint))
      && Untold(s, k)
      && (k in s.table.rows ==> Pending(s.table.rows[k]))
    case Running(op, timeoutMs) =>
      var k := Key(e, op.fingerprint);
      && k in s.sent && s.sent[k] == EffectCall(op, timeoutMs)
      && op.fingerprint !in s.clients[e].cache && Remembers(s, e, Some(op.fingerprint))
      && Untold(s, k)
      && k in s.table.rows && s.table.rows[k].status.EXECUTING?
    case Ended => true
  }

  ghost predicate SessionsOk(s: State) {
    forall e | e in s.clients && e in s.executions :: SessionOk(s, e)
  }

  ghost predicate Inv(s: State) {
    RowsOk(s) && OneLive(s.table) && SkipsCovered(s.table) && MailOk(s) && LogOk(s) && SentOk(s) && SessionsOk(s)
  }

  // ---------------------------------------------------------------- changes the invariant does not see

  /** No row starts or stops running or being committed, no done row is undone, no row
      becomes skipped, and a row whose session still waits for its begin stays pending. */
  ghost predicate Quiet(s: State, t': Table) {
    && t'.order == s.table.order && t'.rows.Keys == s.table.rows.Keys
    && forall k | k in s.table.rows :: QuietRow(s, k, s.table.rows[k], t'.rows[k])
  }

  ghost predicate QuietRow(s: State, k: Key, row: Row, row': Row) {
    && row'.project == row.project && row'.workflow == row.workflow
    && row'.status.EXECUTING? == row.status.EXECUTING?
    && row'.status.COMMITTED? == row.status.COMMITTED?
    && (row.status.COMMITTED? ==> row'.metadata == row.metadata)
    && (row.Done() ==> row'.Done())
    && (row'.status.SKIPPED? ==> row.status.SKIPPED?)
    && (Pending(row) && BeginPending(s, k) ==> Pending(row'))
  }

  lemma QuietSkips(s: State, t': Table)
    requires Quiet(s, t') && SkipsCovered(s.table)
    ensures SkipsCovered(t')
  {
    forall k | k in t'.rows && t'.rows[k].status.SKIPPED?
      ensures HasDone(t', t'.rows[k].project, k.fingerprint)
    {
      assert QuietRow(s, k, s.table.rows[k], t'.rows[k]);
      var d :| d in s.table.rows && d.fingerprint == k.fingerprint
             && s.table.rows[d].project == s.table.rows[k].project && s.table.rows[d].Done();
      assert QuietRow(s, d, s.table.rows[d], t'.rows[d]);
    }
  }

  lemma QuietSessions(s: State, t': Table)
    requires Quiet(s, t') && SessionsOk(s)
    ensures SessionsOk(s.(table := t'))
  {
    var s' := s.(table := t');
    assert forall k :: Won(s', k) == Won(s, k);
    forall e | e in s'.clients && e in s'.executions
      ensures SessionOk(s', e)
    {
      assert SessionOk(s, e);
      match s.clients[e].phase {
        case Beginning(op, _) =>
          var k := Key(e, op.fingerprint);
          if k in s.table.rows { assert QuietRow(s, k, s.table.rows[k], t'.rows[k]); }
        case Running(op, _) =>
          var k := Key(e, op.fingerprint);
          assert QuietRow(s, k, s.table.rows[k], t'.rows[k]);
        case _ =>
      }
    }
  }

  lemma QuietLog(s: State, t': Table)
    requires Quiet(s, t') && LogOk(s) && MailOk(s)
    ensures LogOk(s.(table := t')) && MailOk(s.(table := t'))
  {
    var s' := s.(table := t');
    assert forall k :: Won(s', k) == Won(s, k);
    forall x | x in s'.log
      ensures x.key in t'.rows && QuietRow(s, x.key, s.table.rows[x.key], t'.rows[x.key])
    {}
    forall k | k in s.mail
      ensures k in t'.rows && QuietRow(s, k, s.table.rows[k], t'.rows[k])
    {}
    forall k | k in t'.rows
      ensures QuietRow(s, k, s.table.rows[k], t'.rows[k])
    {}
  }

  lemma QuietRows(s: State, t': Table)
    requires Quiet(s, t') && RowsOk(s) && OneLive(s.table) && SentOk(s)
    ensures RowsOk(s.(table := t')) && OneLive(t') && SentOk(s.(table := t'))
  {
    forall k | k in t'.rows
      ensures QuietRow(s, k, s.table.rows[k], t'.rows[k])
    {}
    hide QuietRow;
    forall k | k in t'.rows
      ensures t'.rows[k].project == s.table.rows[k].project && t'.rows[k].workflow == s.table.rows[k].workflow
      ensures Live(t'.rows[k]) == Live(s.table.rows[k])
    {
      QuietFacts(s, k, s.table.rows[k], t'.rows[k]);
    }
  }

  lemma QuietFacts(s: State, k: Key, row: Row, row': Row)
    requires QuietRow(s, k, row, row')
    ensures row'.project == row.project && row'.workflow == row.workflow && Live(row') == Live(row)
  {
  }

  lemma QuietKeepsInv(s: State, t': Table)
    requires Inv(s) && Quiet(s, t')
    ensures Inv(s.(table := t'))
  {
    hide Quiet, RowsOk, OneLive, SkipsCovered, MailOk, LogOk, SentOk, SessionsOk;
    QuietRows(s, t');
    QuietSkips(s, t');
    QuietSessions(s, t');
    QuietLog(s, t');
  }

  /** The invariant does not look at overdue operations and their returns. */
  lemma LateKeepsInv(s: State, overdue: set<Key>, late: seq<Success>)
    requires Inv(s)
    ensures Inv(s.(overdue := overdue, late := late))
  {
    var s' := s.(overdue := overdue, late := late);
    assert forall k :: Won(s', k) == Won(s, k);
    forall e | e in s'.clients && e in s'.executions ensures SessionOk(s', e) { assert SessionOk(s, e); }
  }

  /** Nor does it care which session requests have passed the gate, as long as their ids are fresh. */
  lemma GatedKeepsInv(s: State, gated: map<Id, Execution>)
    requires Inv(s) && gated.Keys !! s.executions.Keys
    ensures Inv(s.(gated := gated))
  {
    var s' := s.(gated := gated);
    assert forall k :: Won(s', k) == Won(s, k);
    forall e | e in s'.clients && e in s'.executions ensures SessionOk(s', e) { assert SessionOk(s, e); }
  }
}
