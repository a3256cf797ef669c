/** At most once, counting the returns that nobody waits for: an operation that outlives its
    timer is not cancelled, and may still return. */
module LateReturns {
  import opened Values
  import opened Ledger
  import opened BeginCases
  import opened Protocol
  import opened Invariant
  import opened Steps
  import opened Guarantees
  import opened Scenarios

  // ---------------------------------------------------------------- only timers make returns late

  /** What is overdue or late was called with a timer. */
  ghost predicate TimersOk(s: State) {
    && (forall k | k in s.overdue :: k in s.sent && s.sent[k].timeoutMs > 0)
    && (forall x | x in s.late :: x.key in s.sent && s.sent[x.key].timeoutMs > 0)
  }

  predicate Asks(s: State, ev: Event) {
    ev.Call? && ev.e in s.clients && s.clients[ev.e].phase.Idle? && ev.op.fingerprint !in s.clients[ev.e].cache
  }

  predicate Fires(s: State, ev: Event) {
    ev.TimeOut? && ev.e in s.clients && s.clients[ev.e].phase.Running? && s.clients[ev.e].phase.timeoutMs > 0
  }

  lemma SentAfter(s: State, ev: Event)
    requires s.table.Valid()
    ensures Apply(s, ev).sent == if Asks(s, ev)
      then s.sent[Key(ev.e, ev.op.fingerprint) := EffectCall(ev.op, ev.timeoutMs)] else s.sent
  {
    hide PassGate, BeginSideEffect, Settle, ApplyReport, ApplyOutcome, ApproveSideEffect, Heard, Table.Valid;
  }

  lemma OverdueAfter(s: State, ev: Event)
    requires s.table.Valid()
    ensures forall k | k in Apply(s, ev).overdue ::
      k in s.overdue || (Fires(s, ev) && k == Key(ev.e, s.clients[ev.e].phase.op.fingerprint))
  {
    hide PassGate, BeginSideEffect, Settle, ApplyReport, ApplyOutcome, ApproveSideEffect, Heard, Table.Valid;
  }

  lemma LateAfter(s: State, ev: Event)
    requires s.table.Valid()
    ensures forall x | x in Apply(s, ev).late :: x in s.late || x.key in s.overdue
  {
    hide PassGate, BeginSideEffect, Settle, ApplyReport, ApplyOutcome, ApproveSideEffect, Heard, Table.Valid;
  }

  /** Calls are never forgotten, and keep their timers. */
  lemma StepKeepsSent(s: State, ev: Event)
    requires Inv(s)
    ensures s.table.Valid()
    ensures forall k | k in s.sent :: k in Apply(s, ev).sent && Apply(s, ev).sent[k] == s.sent[k]
  {
    hide Apply, OneLive, SkipsCovered, MailOk, LogOk, SessionsOk;
    SentAfter(s, ev);
    if Asks(s, ev) {
      NothingKnown(s, ev.e, ev.op.fingerprint);
      NothingSent(s, ev.e, ev.op.fingerprint);
    }
  }

  lemma NothingSent(s: State, e: Id, fp: string)
    requires SentOk(s) && e in s.clients && s.clients[e].phase.Idle? && Key(e, fp) !in s.table.rows
    ensures Key(e, fp) !in s.sent
  {
  }

  lemma RunningWasSent(s: State, e: Id)
    requires Inv(s) && e in s.clients && s.clients[e].phase.Running?
    ensures var k := Key(e, s.clients[e].phase.op.fingerprint);
      k in s.sent && s.sent[k].timeoutMs == s.clients[e].phase.timeoutMs
  {
    hide OneLive, SkipsCovered, MailOk, LogOk, SentOk, Table.Valid, Remembers, Untold;
    assert SessionOk(s, e);
  }

  lemma StepKeepsTimers(s: State, ev: Event)
    requires Inv(s) && TimersOk(s)
    ensures s.table.Valid() && TimersOk(Apply(s, ev))
  {
    hide Apply, RowsOk, OneLive, SkipsCovered, MailOk, LogOk, SentOk, SessionsOk;
    StepKeepsSent(s, ev);
    OverdueAfter(s, ev);
    LateAfter(s, ev);
    if Fires(s, ev) { RunningWasSent(s, ev.e); }
  }

  lemma {:induction false} RunKeepsTimers(s: State, evs: seq<Event>)
    requires Inv(s) && Legal(s, evs) && TimersOk(s)
    ensures TimersOk(Run(s, evs))
    decreases |evs|
  {
    hide Apply, Allowed, OneLive, SkipsCovered, MailOk, LogOk, SentOk, SessionsOk, TimersOk;
    if evs != [] {
      StepKeepsTimers(s, evs[0]);
      StepKeepsInv(s, evs[0]);
      RunKeepsTimers(Apply(s, evs[0]), evs[1..]);
    }
  }

  lemma ReachableTimers(s: State)
    requires Reachable(s)
    ensures TimersOk(s)
  {
    InitInv();
    assert TimersOk(Init);
    var evs :| Legal(Init, evs) && Run(Init, evs) == s;
    RunKeepsTimers(Init, evs);
  }

  // ---------------------------------------------------------------- the exact condition

  /** Every effect() call of the fingerprint so far was given this time. */
  ghost predicate AllCallsWith(s: State, fp: string, timeoutMs: nat) {
    forall k | k in s.sent && k.fingerprint == fp :: s.sent[k].timeoutMs == timeoutMs
  }

  ghost predicate AtMostOneReturn(s: State, fp: string) {
    forall i, j | 0 <= i < j < |s.Returns()| ::
      !(s.Returns()[i].key.fingerprint == fp && s.Returns()[j].key.fingerprint == fp
        && s.Returns()[i].project == s.Returns()[j].project)
  }

  /** Without a timer every return reaches its call, and `execute` returns at most once. */
  lemma UntimedReturnsOnce(s: State, fp: string)
    requires Reachable(s) && AllCallsWith(s, fp, 0)
    ensures AtMostOneReturn(s, fp)
  {
    ReachableTimers(s);
    AtMostOnce(s);
    hide Reaches;
    forall x | x in s.late ensures x.key.fingerprint != fp {}
    var all := s.Returns();
    forall i, j | 0 <= i < j < |all|
      ensures !(all[i].key.fingerprint == fp && all[j].key.fingerprint == fp && all[i].project == all[j].project)
    {
      if j >= |s.log| {
        assert all[j] == s.late[j - |s.log|] && s.late[j - |s.log|] in s.late;
      }
    }
  }

  /** With a timer, whatever its length, the operation, its workflow and the project: the first
      session times out, a second one is granted the effect and returns, and then the first
      operation returns as well. */
  lemma TimerReturnsTwice(op: Operation, timeoutMs: nat, p: Id, first: Json, second: Json) returns (s: State)
    requires timeoutMs > 0
    ensures Reachable(s) && AllCallsWith(s, op.fingerprint, timeoutMs)
    ensures var a, b := Key("a", op.fingerprint), Key("b", op.fingerprint);
      && s.log == [Success(b, p, second)] && s.late == [Success(a, p, first)]
      && a in s.table.rows && s.table.rows[a].status.UNKNOWN?
  {
    var a, b := Key("a", op.fingerprint), Key("b", op.fingerprint);
    hide Reaches, BeginSideEffect, Table.Valid, Send, TableAfter;
    s := TimedOut(op, timeoutMs, p);
    hide Apply;
    s := Calls(s, "b", op, timeoutMs);
    BeginOnIdle(s.table, s.executions, "b", op, a);
    s := IsServed(s, b, true);
    assert s.clients["b"].phase == Running(op, timeoutMs);
    s := ReturnsLast(s, "b", op, timeoutMs, second);
    s := ReturnsLate(s, a, first);
  }

  /** Two sessions are open; the operation of the first has timed out and was reported. */
  lemma TimedOut(op: Operation, timeoutMs: nat, p: Id) returns (s: State)
    requires timeoutMs > 0
    ensures var x, k := Execution(p, "m", None, op.workflow, None), Key("a", op.fingerprint);
      && Reachable(s) && s.table.Valid()
      && s.executions == map["a" := x, "b" := x]
      && s.clients == map["a" := Client(Ended, map[]), "b" := Client(Idle, map[])]
      && s.sent == map[k := EffectCall(op, timeoutMs)] && s.overdue == {k} && s.log == [] && s.late == []
      && s.table.rows.Keys == {k} && s.table.rows[k].status.UNKNOWN?
  {
    var x, k := Execution(p, "m", None, op.workflow, None), Key("a", op.fingerprint);
    hide Reaches, BeginSideEffect, Apply;
    s := Begins();
    s := Opens(s, "a", x);
    s := Opens(s, "b", x);
    s := Calls(s, "a", op, timeoutMs);
    BeginOnEmpty(s.executions, "a", op);
    s := IsServed(s, k, true);
    assert s.clients["a"].phase == Running(op, timeoutMs);
    hide Table.Valid;
    s := TimesOut(s, "a", op, timeoutMs, "slow");
  }

  lemma ReturnsLast(s: State, e: Id, op: Operation, timeoutMs: nat, result: Json) returns (s': State)
    requires Reachable(s) && s.table.Valid() && e in s.clients && s.clients[e].phase == Running(op, timeoutMs)
    requires e in s.executions
    ensures Reachable(s') && s'.table == s.table && s'.sent == s.sent && s'.executions == s.executions
    ensures s'.log == s.log + [Success(Key(e, op.fingerprint), s.executions[e].project, result)]
    ensures s'.overdue == s.overdue && s'.late == s.late && s'.clients.Keys == s.clients.Keys
    ensures forall d | d in s.clients && d != e :: s'.clients[d] == s.clients[d]
  {
    hide Reaches, Table.Valid;
    s' := Follow(s, Return(e, result, Null));
  }

  lemma ReturnsLate(s: State, k: Key, result: Json) returns (s': State)
    requires Reachable(s) && s.table.Valid() && k in s.overdue && k.exec in s.executions
    ensures Reachable(s') && s'.table == s.table && s'.sent == s.sent && s'.log == s.log
    ensures s'.late == s.late + [Success(k, s.executions[k.exec].project, result)]
  {
    hide Reaches, Table.Valid;
    s' := Follow(s, LateReturn(k, result));
  }

  /** Over all runs: `execute` returns at most once per project exactly for the effects that are
      called without a timer, as `wrap` does. The default of `effect` is 30 seconds. */
  lemma AtMostOnceExactly(op: Operation, timeoutMs: nat)
    ensures (forall s | Reachable(s) && AllCallsWith(s, op.fingerprint, timeoutMs) :: AtMostOneReturn(s, op.fingerprint))
       <==> timeoutMs == 0
  {
    hide Reaches;
    if timeoutMs == 0 {
      forall s | Reachable(s) && AllCallsWith(s, op.fingerprint, 0) ensures AtMostOneReturn(s, op.fingerprint) {
        UntimedReturnsOnce(s, op.fingerprint);
      }
    } else {
      var s := TimerReturnsTwice(op, timeoutMs, "p", Null, Null);
      assert s.Returns()[0].project == s.Returns()[1].project;
    }
  }
}
