/** What a crash between a served begin request and its report leaves behind. */
module Crashes {
  import opened Values
  import opened Ledger
  import opened BeginCases
  import opened Protocol
  import opened Invariant
  import opened Steps
  import opened Guarantees

  /** The row says EXECUTING, its session is over, and no report is under way. */
  ghost predicate Stuck(s: State, k: Key) {
    && k in s.table.rows && s.table.rows[k].status.EXECUTING?
    && k.exec in s.clients && s.clients[k.exec].phase.Ended? && k !in s.mail
  }

  /** A session that dies while its operation runs leaves a stuck row. */
  lemma CrashLeavesStuck(s: State, e: Id)
    requires Reachable(s) && e in s.clients && s.clients[e].phase.Running?
    ensures s.table.Valid() && Stuck(Apply(s, End(e)), Key(e, s.clients[e].phase.op.fingerprint))
  {
    hide Reaches, OneLive, SkipsCovered, MailOk, LogOk, SentOk, SessionsOk, Remembers;
    ReachableInv(s);
    RunningRow(s, e);
    EndOnly(s, e);
    hide Apply;
  }

  lemma EndOnly(s: State, e: Id)
    requires s.table.Valid() && e in s.clients
    ensures Apply(s, End(e)) == s.(clients := s.clients[e := s.clients[e].(phase := Ended)])
  {
  }

  /** So does a begin request that is served for the first time after its session gave up, if
      the effect is neither done nor running. */
  lemma LateBeginLeavesStuck(s: State, k: Key)
    requires Reachable(s) && k in s.sent && k !in s.table.rows
    requires k.exec in s.clients && s.clients[k.exec].phase.Ended?
    ensures s.table.Valid() && k.exec in s.executions
    ensures Stuck(Apply(s, DeliverBegin(k, false)), k) <==>
      && !HasDone(s.table, s.executions[k.exec].project, k.fingerprint)
      && forall j :: !Executing(s, j, s.executions[k.exec].project, k.fingerprint)
  {
    hide Reaches, OneLive, SkipsCovered, MailOk, LogOk, SentOk, SessionsOk, BeginSideEffect;
    ReachableInv(s);
    RowFitsAlways(s, k);
    NoMail(s, k);
    assert Key(k.exec, s.sent[k].op.fingerprint) == k;
    FirstServed(s.table, s.executions, k.exec, s.sent[k].op);
    hide HasDone;
    assert Apply(s, DeliverBegin(k, false)) ==
      s.(table := BeginSideEffect(s.table, s.executions, k.exec, s.sent[k].op).0);
    var p := s.executions[k.exec].project;
    assert forall j :: Executing(s, j, p, k.fingerprint) <==> RunningFor(s.table, p, k.fingerprint, j);
    hide Apply, Executing, RunningFor;
  }

  /** The first service of a request leaves an EXECUTING row exactly if the effect is free. */
  lemma FirstServed(t: Table, executions: map<Id, Execution>, e: Id, op: Operation)
    requires t.Valid() && e in executions && Key(e, op.fingerprint) !in t.rows
    ensures var k, t' := Key(e, op.fingerprint), BeginSideEffect(t, executions, e, op).0;
      (k in t'.rows && t'.rows[k].status.EXECUTING?) <==>
        && !HasDone(t, executions[e].project, op.fingerprint)
        && forall j :: !RunningFor(t, executions[e].project, op.fingerprint, j)
  {
    hide BeginSideEffect, DoneRow, HolderRow, MarkConflict, OrElse, SkipNote, ConflictNote, Table.Valid;
    var p, k := executions[e].project, Key(e, op.fingerprint);
    var prior, holder := DoneRow(t, p, op.fingerprint), HolderRow(t, p, op.fingerprint, e);
    if prior.Some? {
      WhenDone(t, executions, e, op, prior.value);
      assert HasDone(t, p, op.fingerprint);
    } else if holder.Some? {
      WhenHeld(t, executions, e, op, holder.value);
      assert RunningFor(t, p, op.fingerprint, holder.value);
    } else {
      WhenFree(t, executions, e, op);
      forall j ensures !RunningFor(t, p, op.fingerprint, j) {
        assert j == k || j.exec != e || j.fingerprint != op.fingerprint;
      }
    }
  }

  lemma NoMail(s: State, k: Key)
    requires MailOk(s) && k !in s.table.rows
    ensures k !in s.mail
  {
  }

  // ---------------------------------------------------------------- nothing frees it

  lemma BeginKeepsRunning(t: Table, executions: map<Id, Execution>, e: Id, op: Operation, k: Key)
    requires t.Valid() && k in t.rows && t.rows[k].status.EXECUTING?
    ensures var t' := BeginSideEffect(t, executions, e, op).0; k in t'.rows && t'.rows[k].status.EXECUTING?
  {
    BeginTouches(t, executions, e, op);
    hide BeginSideEffect;
  }

  lemma TableKeepsRunning(s: State, ev: Event, k: Key)
    requires s.table.Valid() && k in s.table.rows && s.table.rows[k].status.EXECUTING? && k !in s.mail
    ensures var t' := Apply(s, ev).table; k in t'.rows && t'.rows[k].status.EXECUTING?
  {
    ApplyTable(s, ev);
    hide Apply, BeginSideEffect, Table.Valid, Spread, SpreadObject, Stored, VerificationNote, PlanFor;
    if ev.DeliverBegin? && ev.k in s.sent {
      BeginKeepsRunning(s.table, s.executions, ev.k.exec, s.sent[ev.k].op, k);
    }
  }

  lemma EndedStaysEnded(s: State, ev: Event, e: Id)
    requires s.table.Valid() && s.gated.Keys !! s.executions.Keys && s.clients.Keys == s.executions.Keys
    requires e in s.clients && s.clients[e].phase.Ended?
    ensures e in Apply(s, ev).clients && Apply(s, ev).clients[e].phase.Ended?
  {
    hide PassGate, BeginSideEffect, Settle, ApplyReport, ApplyOutcome, ApproveSideEffect, Heard, Table.Valid, TableAfter;
  }

  lemma EndedSendsNothing(s: State, ev: Event, k: Key)
    requires s.table.Valid() && k.exec in s.clients && s.clients[k.exec].phase.Ended? && k !in s.mail
    ensures k !in Apply(s, ev).mail
  {
    hide PassGate, BeginSideEffect, Settle, ApplyReport, ApplyOutcome, ApproveSideEffect, Heard, Table.Valid, TableAfter;
  }

  lemma StepKeepsStuck(s: State, ev: Event, k: Key)
    requires Inv(s) && Stuck(s, k)
    ensures s.table.Valid() && Stuck(Apply(s, ev), k)
  {
    hide Apply, OneLive, SkipsCovered, MailOk, LogOk, SentOk, SessionsOk;
    TableKeepsRunning(s, ev, k);
    EndedStaysEnded(s, ev, k.exec);
    EndedSendsNothing(s, ev, k);
  }

  lemma {:induction false} RunKeepsStuck(s: State, evs: seq<Event>, k: Key)
    requires Inv(s) && Legal(s, evs) && Stuck(s, k)
    ensures Stuck(Run(s, evs), k)
    decreases |evs|
  {
    hide Apply, Allowed, OneLive, SkipsCovered, MailOk, LogOk, SentOk, SessionsOk, Stuck;
    if evs != [] {
      StepKeepsStuck(s, evs[0], k);
      StepKeepsInv(s, evs[0]);
      RunKeepsStuck(Apply(s, evs[0]), evs[1..], k);
    }
  }

  /** The row is EXECUTING in every later state, and whoever begins the effect afresh in the
      project is told CONFLICT in its name, unless the effect got done elsewhere. */
  lemma StuckForever(s: State, s': State, k: Key, e: Id, op: Operation)
    requires Reachable(s) && Reaches(s, s') && Stuck(s, k)
    requires e in s'.executions && k.exec in s'.executions && s'.executions[e].project == s'.executions[k.exec].project
    requires op.fingerprint == k.fingerprint && Key(e, op.fingerprint) !in s'.table.rows
    ensures Stuck(s', k) && s'.table.Valid()
    ensures var answer := BeginSideEffect(s'.table, s'.executions, e, op).1;
      if HasDone(s'.table, s'.executions[e].project, k.fingerprint) then answer.Skip? else answer == Conflict(k.exec)
  {
    ReachableInv(s);
    var evs :| Legal(s, evs) && Run(s, evs) == s';
    RunKeepsStuck(s, evs, k);
    RunKeepsInv(s, evs);
    StuckAnswer(s', k, e, op);
  }

  lemma StuckAnswer(s: State, k: Key, e: Id, op: Operation)
    requires Inv(s) && Stuck(s, k)
    requires e in s.executions && k.exec in s.executions && s.executions[e].project == s.executions[k.exec].project
    requires op.fingerprint == k.fingerprint && Key(e, op.fingerprint) !in s.table.rows
    ensures var answer := BeginSideEffect(s.table, s.executions, e, op).1;
      if HasDone(s.table, s.executions[e].project, k.fingerprint) then answer.Skip? else answer == Conflict(k.exec)
  {
    hide SkipsCovered, MailOk, LogOk, SentOk, SessionsOk, BeginSideEffect, DoneRow, HolderRow, OrElse, NewRow, MarkConflict;
    var p := s.executions[e].project;
    var prior, holder := DoneRow(s.table, p, k.fingerprint), HolderRow(s.table, p, k.fingerprint, e);
    if prior.Some? {
      WhenDone(s.table, s.executions, e, op, prior.value);
      assert HasDone(s.table, p, k.fingerprint);
    } else {
      assert holder == Some(k);
      WhenHeld(s.table, s.executions, e, op, k);
    }
  }
}
