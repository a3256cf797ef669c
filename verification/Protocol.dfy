/** The at-most-once protocol: any number of sessions of `ReplayGuard.effect`, the ledger they
    share, the verification pass, the planner and an operator, as one transition system.
    Every service call is one step. Crashes, lost messages and requests that are served late
    or more than once may strike at any point. */
module Protocol {
  import opened Values
  import opened Ledger

  /** Where a session stands; it makes one call at a time. */
  datatype Phase =
    | Idle
    | Beginning(op: Operation, timeoutMs: nat)   // waits for an answer to effect/begin
    | Running(op: Operation, timeoutMs: nat)     // waits for the caller's `execute`
    | Ended                                      // completed, crashed, or left by its first effect error

  datatype Client = Client(phase: Phase, cache: map<string, Json>) {
    predicate Awaits(fp: string) { phase.Beginning? && phase.op.fingerprint == fp }
  }

  /** What an effect() call was given: the operation, and the time its `execute` may take; 0 is no limit. */
  datatype EffectCall = EffectCall(op: Operation, timeoutMs: nat)

  /** The `execute` of the effect call of `key` returned `result`. */
  datatype Success = Success(key: Key, project: Id, result: Json)

  datatype State = State(
    table: Table,
    executions: map<Id, Execution>,
    clients: map<Id, Client>,
    gated: map<Id, Execution>,     // session requests that have passed the gate
    sent: map<Key, EffectCall>,    // effect calls for which a begin request was ever sent
    mail: map<Key, Report>,        // reports sent and not (yet) delivered
    overdue: set<Key>,             // operations that still run although their timer has fired
    log: seq<Success>,             // history: the returns that reached their effect() call
    late: seq<Success>)            // history: the returns after the timer, which nobody waits for
  {
    /** Every return of an `execute`, in time or not. */
    function Returns(): seq<Success> { log + late }
  }

  const Init := State(EmptyTable, map[], map[], map[], map[], map[], {}, [], [])

  datatype Event =
    | Gate(e: Id, x: Execution)                           // POST /session asks for the plan
    | Create(e: Id, admitted: bool)                       // and then for the session, if the breaker admits it
    | Call(e: Id, op: Operation, timeoutMs: nat)          // the job calls effect()
    | DeliverBegin(k: Key, heard: bool)                   // the server handles a begin request
    | Return(e: Id, result: Json, receipt: Json)          // execute returns, the commit is sent
    | ReturnAndCrash(e: Id, result: Json)                 // execute returns, and nothing is sent any more
    | Throw(e: Id, report: Report)                        // execute throws: UNKNOWN or FAILED is sent
    | TimeOut(e: Id, reason: string)                      // the operation timer fires: UNKNOWN is sent
    | LateReturn(k: Key, result: Json)                    // an operation returns after its timer
    | End(e: Id)                                          // complete(), or a crash
    | DeliverReport(k: Key)
    | Verify(k: Key, outcome: Outcome, at: Json)          // a verification pass settles one row
    | MakePlan(w: string, p: Id)                          // POST /resume, self-healing
    | Approve(k: Key, p: Id, at: Json)                    // an operator

  // ---------------------------------------------------------------- one step

  /** The plan in front of POST /session: the table after it, and whether the request may go on. */
  function PassGate(t: Table, x: Execution): (r: (Table, bool))
    requires t.Valid()
    ensures r.0.Valid()
  {
    if Present(x.workflow)
    then (Settle(t, x.workflow.value, x.project), !PlanFor(t, x.workflow.value, x.project).status.BLOCKED?)
    else (t, true)
  }

  function Heard(client: Client, answer: Answer): Client
    requires client.phase.Beginning?
  {
    match answer
    case Execute => client.(phase := Running(client.phase.op, client.phase.timeoutMs))
    case Skip(cached) => Client(Idle, client.cache[client.phase.op.fingerprint := cached])
    case Conflict(_) => client.(phase := Ended)
    case Rejected(_) => client.(phase := Ended)
  }

  function Send(s: State, e: Id, op: Operation, report: Report, client: Client): State {
    s.(mail := s.mail[Key(e, op.fingerprint) := report], clients := s.clients[e := client])
  }

  function Apply(s: State, ev: Event): (s': State)
    requires s.table.Valid()
    ensures s'.table.Valid()
  {
    match ev
    case Gate(e, x) =>
      var gate := PassGate(s.table, x);
      s.(table := gate.0, gated := if gate.1 then s.gated[e := x] else s.gated)
    case Create(e, admitted) =>
      if e !in s.gated then s
      else if !admitted then s.(gated := s.gated - {e})
      else s.(gated := s.gated - {e}, executions := s.executions[e := s.gated[e]],
              clients := s.clients[e := Client(Idle, map[])])
    case Call(e, op, timeoutMs) =>
      if e in s.clients && s.clients[e].phase.Idle? && op.fingerprint !in s.clients[e].cache
      then s.(clients := s.clients[e := s.clients[e].(phase := Beginning(op, timeoutMs))],
              sent := s.sent[Key(e, op.fingerprint) := EffectCall(op, timeoutMs)])
      else s                                               // answered from the local cache
    case DeliverBegin(k, heard) =>
      if k in s.sent && k.exec in s.clients then
        var r := BeginSideEffect(s.table, s.executions, k.exec, s.sent[k].op);
        if heard && s.clients[k.exec].Awaits(k.fingerprint)
        then s.(table := r.0, clients := s.clients[k.exec := Heard(s.clients[k.exec], r.1)])
        else s.(table := r.0)
      else s
    case Return(e, result, receipt) =>
      if e in s.clients && s.clients[e].phase.Running? && e in s.executions then
        var op := s.clients[e].phase.op;
        var client := Client(Idle, s.clients[e].cache[op.fingerprint := result]);
        Send(s, e, op, Commit(result, receipt), client)
          .(log := s.log + [Success(Key(e, op.fingerprint), s.executions[e].project, result)])
      else s
    case ReturnAndCrash(e, result) =>
      if e in s.clients && s.clients[e].phase.Running? && e in s.executions then
        var op := s.clients[e].phase.op;
        s.(clients := s.clients[e := s.clients[e].(phase := Ended)],
           log := s.log + [Success(Key(e, op.fingerprint), s.executions[e].project, result)])
      else s
    case Throw(e, report) =>
      if e in s.clients && s.clients[e].phase.Running? && !report.Commit?
      then Send(s, e, s.clients[e].phase.op, report, s.clients[e].(phase := Ended))
      else s
    case TimeOut(e, reason) =>
      if e in s.clients && s.clients[e].phase.Running? && s.clients[e].phase.timeoutMs > 0
      then Send(s, e, s.clients[e].phase.op, Unknown(reason), s.clients[e].(phase := Ended))
             .(overdue := s.overdue + {Key(e, s.clients[e].phase.op.fingerprint)})
      else s
    case LateReturn(k, result) =>
      if k in s.overdue && k.exec in s.executions
      then s.(overdue := s.overdue - {k}, late := s.late + [Success(k, s.executions[k.exec].project, result)])
      else s
    case End(e) =>
      if e in s.clients then s.(clients := s.clients[e := s.clients[e].(phase := Ended)]) else s
    case DeliverReport(k) =>
      if k in s.mail
      then s.(table := ApplyReport(s.table, k, s.mail[k]), mail := s.mail - {k})
      else s
    case Verify(k, outcome, at) =>
      if k in s.table.rows && s.table.rows[k].status.UNKNOWN?
      then s.(table := ApplyOutcome(s.table, k, s.table.rows[k], outcome, at))
      else s
    case MakePlan(w, p) => s.(table := Settle(s.table, w, p))
    case Approve(k, p, at) => s.(table := ApproveSideEffect(s.table, k, p, at).0)
  }

  /** What a step does to the table. */
  function TableAfter(s: State, ev: Event): Table
    requires s.table.Valid()
  {
    match ev
    case Gate(_, x) => PassGate(s.table, x).0
    case DeliverBegin(k, _) =>
      if k in s.sent && k.exec in s.clients
      then BeginSideEffect(s.table, s.executions, k.exec, s.sent[k].op).0 else s.table
    case DeliverReport(k) => if k in s.mail then ApplyReport(s.table, k, s.mail[k]) else s.table
    case Verify(k, outcome, at) =>
      if k in s.table.rows && s.table.rows[k].status.UNKNOWN?
      then ApplyOutcome(s.table, k, s.table.rows[k], outcome, at) else s.table
    case MakePlan(w, p) => Settle(s.table, w, p)
    case Approve(k, p, at) => ApproveSideEffect(s.table, k, p, at).0
    case _ => s.table
  }

  lemma ApplyTable(s: State, ev: Event)
    requires s.table.Valid()
    ensures Apply(s, ev).table == TableAfter(s, ev)
  {
    hide PassGate, BeginSideEffect, ApplyReport, ApplyOutcome, Settle, ApproveSideEffect, Heard, Table.Valid;
  }

  /** The session of `k` still waits for the answer to its begin request. */
  predicate BeginPending(s: State, k: Key) { k.exec in s.clients && s.clients[k.exec].Awaits(k.fingerprint) }

  /** What the environment is trusted with. Execution ids are fresh; the SDK passes on the
      workflow of its session; an operator does not approve an effect whose begin request is
      still waiting for its answer. */
  predicate Allowed(s: State, ev: Event) {
    match ev
    case Gate(e, _) => e !in s.executions && e !in s.gated
    case Call(e, op, _) => e in s.executions ==> op.workflow == s.executions[e].workflow
    case Approve(k, _, _) => !BeginPending(s, k)
    case _ => true
  }

  // ---------------------------------------------------------------- runs

  function Run(s: State, evs: seq<Event>): (s': State)
    requires s.table.Valid()
    ensures s'.table.Valid()
    decreases |evs|
  {
    if evs == [] then s else Run(Apply(s, evs[0]), evs[1..])
  }

  predicate Legal(s: State, evs: seq<Event>)
    requires s.table.Valid()
    decreases |evs|
  {
    evs == [] || (Allowed(s, evs[0]) && Legal(Apply(s, evs[0]), evs[1..]))
  }

  /** Some legal run leads from `s` to `s'`. */
  ghost predicate Reaches(s: State, s': State) {
    s.table.Valid() && exists evs :: Legal(s, evs) && Run(s, evs) == s'
  }

  ghost predicate Reachable(s: State) { Reaches(Init, s) }

  lemma {:induction false} RunThen(s: State, evs: seq<Event>, ev: Event)
    requires s.table.Valid() && Legal(s, evs) && Allowed(Run(s, evs), ev)
    ensures Legal(s, evs + [ev]) && Run(s, evs + [ev]) == Apply(Run(s, evs), ev)
    decreases |evs|
  {
    hide Apply, Allowed;
    if evs == [] {
      assert [ev][1..] == [];
    } else {
      RunThen(Apply(s, evs[0]), evs[1..], ev);
      assert (evs + [ev])[1..] == evs[1..] + [ev];
    }
  }

  lemma ReachesItself(s: State)
    requires s.table.Valid()
    ensures Reaches(s, s)
  {
    assert Legal(s, []) && Run(s, []) == s;
  }

  /** One more legal step. */
  lemma Go(s: State, now: State, ev: Event) returns (next: State)
    requires Reaches(s, now) && now.table.Valid() && Allowed(now, ev)
    ensures Reaches(s, next) && next == Apply(now, ev)
  {
    next := Apply(now, ev);
    var evs :| Legal(s, evs) && Run(s, evs) == now;
    RunThen(s, evs, ev);
    assert Run(s, evs + [ev]) == next;
  }
}
