/** Building blocks of concrete runs. */
module Scenarios {
  import opened Values
  import opened Ledger
  import opened BeginCases
  import opened Protocol

  lemma Follow(s: State, ev: Event) returns (s': State)
    requires Reachable(s) && s.table.Valid() && Allowed(s, ev)
    ensures Reachable(s') && s' == Apply(s, ev)
  {
    s' := Go(Init, s, ev);
  }

  lemma Begins() returns (s: State)
    ensures Reachable(s) && s == Init && s.table.Valid()
  {
    s := Init;
    ReachesItself(Init);
  }

  lemma Opens(s: State, e: Id, x: Execution) returns (s': State)
    requires Reachable(s) && s.table.Valid() && e !in s.executions && e !in s.gated
    requires !Present(x.workflow) || s.table == EmptyTable
    ensures Reachable(s')
    ensures s' == s.(executions := s.executions[e := x], clients := s.clients[e := Client(Idle, map[])])
  {
    assert PassGate(s.table, x) == (s.table, true) by {
      if Present(x.workflow) { assert Settle(s.table, x.workflow.value, x.project).rows == map[]; }
    }
    hide PassGate, Reaches, Table.Valid;
    s' := Follow(s, Gate(e, x));
    assert s.gated[e := x] - {e} == s.gated;
    s' := Follow(s', Create(e, true));
  }

  lemma Calls(s: State, e: Id, op: Operation, timeoutMs: nat) returns (s': State)
    requires Reachable(s) && s.table.Valid() && e in s.clients && s.clients[e] == Client(Idle, map[])
    requires e in s.executions && op.workflow == s.executions[e].workflow
    ensures Reachable(s')
    ensures s' == s.(clients := s.clients[e := Client(Beginning(op, timeoutMs), map[])],
                     sent := s.sent[Key(e, op.fingerprint) := EffectCall(op, timeoutMs)])
  {
    hide Reaches;
    s' := Follow(s, Call(e, op, timeoutMs));
  }

  lemma IsServed(s: State, k: Key, heard: bool) returns (s': State)
    requires Reachable(s) && s.table.Valid() && k in s.sent && k.exec in s.clients
    ensures var r := BeginSideEffect(s.table, s.executions, k.exec, s.sent[k].op);
      && Reachable(s') && r.0.Valid()
      && s' == if heard && BeginPending(s, k)
               then s.(table := r.0, clients := s.clients[k.exec := Heard(s.clients[k.exec], r.1)])
               else s.(table := r.0)
  {
    hide BeginSideEffect, Reaches;
    s' := Follow(s, DeliverBegin(k, heard));
  }

  /** The timer of a running operation fires, and the report arrives. */
  lemma TimesOut(s: State, e: Id, op: Operation, timeoutMs: nat, reason: string) returns (s': State)
    requires Reachable(s) && s.table.Valid() && e in s.clients
    requires s.clients[e].phase == Running(op, timeoutMs) && timeoutMs > 0
    requires Key(e, op.fingerprint) in s.table.rows && s.mail == map[]
    ensures Reachable(s') && s'.table.Valid()
    ensures var k := Key(e, op.fingerprint);
      s' == s.(table := ApplyReport(s.table, k, Unknown(reason)), overdue := s.overdue + {k},
               clients := s.clients[e := s.clients[e].(phase := Ended)])
  {
    hide Reaches, ApplyReport, Table.Valid;
    var k := Key(e, op.fingerprint);
    s' := Follow(s, TimeOut(e, reason));
    s' := Follow(s', DeliverReport(k));
    assert map[k := Unknown(reason)] - {k} == map[];
  }

  /** A running operation returns, and its commit arrives. */
  lemma Commits(s: State, e: Id, op: Operation, timeoutMs: nat, result: Json) returns (s': State)
    requires Reachable(s) && s.table.Valid() && e in s.clients && e in s.executions
    requires s.clients[e] == Client(Running(op, timeoutMs), map[])
    requires Key(e, op.fingerprint) in s.table.rows && s.mail == map[]
    ensures Reachable(s') && s'.table.Valid()
    ensures var k := Key(e, op.fingerprint);
      s' == s.(table := ApplyReport(s.table, k, Commit(result, Null)),
               clients := s.clients[e := Client(Idle, map[op.fingerprint := result])],
               log := s.log + [Success(k, s.executions[e].project, result)])
  {
    hide Reaches, ApplyReport, Table.Valid;
    var k := Key(e, op.fingerprint);
    s' := Follow(s, Return(e, result, Null));
    s' := Follow(s', DeliverReport(k));
    assert map[k := Commit(result, Null)] - {k} == map[];
  }

  lemma IsPlanned(s: State, w: string, p: Id) returns (s': State)
    requires Reachable(s) && s.table.Valid()
    ensures Reachable(s') && s' == s.(table := Settle(s.table, w, p)) && s'.table.Valid()
  {
    s' := Follow(s, MakePlan(w, p));
  }

  lemma BeginOnEmpty(executions: map<Id, Execution>, e: Id, op: Operation)
    requires e in executions
    ensures EmptyTable.Valid()
    ensures var r, k := BeginSideEffect(EmptyTable, executions, e, op), Key(e, op.fingerprint);
      && r.1.Execute? && r.0.Valid() && r.0.rows == map[k := NewRow(executions[e], op, EXECUTING, EmptyObject)]
  {
    hide NewRow;
    WhenFree(EmptyTable, executions, e, op);
  }

  /** The one row in the table is another's, and it is running. */
  lemma BeginOnHeld(t: Table, executions: map<Id, Execution>, e: Id, op: Operation, k: Key)
    requires t.Valid() && e in executions && t.rows.Keys == {k} && k.exec != e && k.fingerprint == op.fingerprint
    requires t.rows[k].status.EXECUTING? && t.rows[k].project == executions[e].project
    ensures var r := BeginSideEffect(t, executions, e, op);
      var own := Key(e, op.fingerprint);
      && r.1 == Conflict(k.exec) && r.0.rows.Keys == {k, own}
      && r.0.rows[k].status.EXECUTING? && r.0.rows[k].project == t.rows[k].project
      && r.0.rows[own] == NewRow(executions[e], op, FAILED, ConflictNote(k.exec))
  {
    hide BeginSideEffect, ConflictNote, NewRow, Spread;
    assert DoneRow(t, executions[e].project, op.fingerprint) == None;
    assert HolderRow(t, executions[e].project, op.fingerprint, e) == Some(k);
    WhenHeld(t, executions, e, op, k);
  }

  /** The one row in the table is another's, and neither running nor done. */
  lemma BeginOnIdle(t: Table, executions: map<Id, Execution>, e: Id, op: Operation, k: Key)
    requires t.Valid() && e in executions && t.rows.Keys == {k} && k.exec != e
    requires !t.rows[k].status.EXECUTING? && !t.rows[k].Done()
    ensures var r, own := BeginSideEffect(t, executions, e, op), Key(e, op.fingerprint);
      && r.1.Execute? && r.0.rows == t.rows[own := NewRow(executions[e], op, EXECUTING, EmptyObject)]
  {
    hide BeginSideEffect, NewRow;
    assert DoneRow(t, executions[e].project, op.fingerprint) == None;
    assert HolderRow(t, executions[e].project, op.fingerprint, e) == None;
    WhenFree(t, executions, e, op);
  }

  /** The one row in the table is the caller's own, and not done. */
  lemma BeginAgain(t: Table, executions: map<Id, Execution>, e: Id, op: Operation)
    requires t.Valid() && e in executions && t.rows.Keys == {Key(e, op.fingerprint)}
    requires !t.rows[Key(e, op.fingerprint)].Done()
    ensures BeginSideEffect(t, executions, e, op) == (t, Skip(RaceNote))
  {
    hide BeginSideEffect, NewRow;
    assert DoneRow(t, executions[e].project, op.fingerprint) == None;
    assert HolderRow(t, executions[e].project, op.fingerprint, e) == None;
    WhenFree(t, executions, e, op);
  }

  /** The one row in the table is another's, and done. */
  lemma BeginOnDone(t: Table, executions: map<Id, Execution>, e: Id, op: Operation, k: Key)
    requires t.Valid() && e in executions && t.rows.Keys == {k} && k.exec != e && k.fingerprint == op.fingerprint
    requires t.rows[k].Done() && t.rows[k].project == executions[e].project
    ensures BeginSideEffect(t, executions, e, op).1 == Skip(OrElse(t.rows[k].metadata, "Already executed successfully"))
  {
    hide BeginSideEffect, SkipNote, NewRow, OrElse;
    assert DoneRow(t, executions[e].project, op.fingerprint) == Some(k);
    WhenDone(t, executions, e, op, k);
  }
}
