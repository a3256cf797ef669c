/** The side-effect ledger: rows keyed by (execution, fingerprint), and the
    meaning of each operation of GuardsService on the table. */
module Ledger {
  import opened Values

  type Id = string

  datatype Status =
    | INTENDED | EXECUTING | COMMITTED | VERIFIED | UNKNOWN | FAILED
    | AWAITING_APPROVAL | COMPENSATED | SKIPPED

  datatype FailureType = TRANSIENT | SEMANTIC

  datatype Execution = Execution(
    project: Id, monitor: Id, externalId: Option<string>,
    workflow: Option<string>, agent: Option<string>)

  /** The unique key of the table. */
  datatype Key = Key(exec: Id, fingerprint: string)

  datatype Row = Row(
    project: Id, effectType: string, target: string, inputHash: string,
    provider: Option<string>, status: Status, failureType: Option<FailureType>,
    workflow: Option<string>, agent: Option<string>, metadata: Json, receipt: Json)
  {
    predicate Done() { status.COMMITTED? || status.VERIFIED? }

    predicate In(w: string, p: Id) { workflow == Some(w) && project == p }

    /** A failure that the planner turns over to a human. */
    predicate Hard() { status.FAILED? && failureType != Some(TRANSIENT) }

    /** The row keeps its workflow from getting new sessions. */
    predicate Blocks() { status.UNKNOWN? || status.AWAITING_APPROVAL? || Hard() }
  }

  /** The table; `order` lists the keys by `executedAt`, which is creation order. */
  datatype Table = Table(rows: map<Key, Row>, order: seq<Key>) {

    ghost predicate Valid() {
      && (forall k :: k in rows <==> k in order)
      && (forall i, j | 0 <= i < j < |order| :: order[i] != order[j])
    }

    /** The most recent row that satisfies a filter. */
    function Last(filter: (Key, Row) -> bool): (r: Option<Key>)
      requires forall k | k in order :: k in rows
      ensures r.Some? ==> r.value in rows && r.value in order && filter(r.value, rows[r.value])
      ensures r.None? ==> forall k | k in order :: !filter(k, rows[k])
      decreases |order|
    {
      if order == [] then None
      else
        var k := order[|order| - 1];
        if filter(k, rows[k]) then Some(k)
        else Table(rows, order[..|order| - 1]).Last(filter)
    }

    /** A new row; None is the unique-constraint failure P2002. */
    function Create(k: Key, row: Row): (r: Option<Table>)
      ensures r.None? <==> k in rows
      ensures r.Some? && Valid() ==> r.value.Valid()
    {
      if k in rows then None else Some(Table(rows[k := row], order + [k]))
    }

    function Update(k: Key, row: Row): (r: Table)
      requires k in rows
      ensures Valid() ==> r.Valid()
    {
      Table(rows[k := row], order)
    }
  }

  const EmptyTable := Table(map[], [])

  datatype Error = ExecutionNotFound | DuplicateKey | RowNotFound | NotAwaitingApproval

  // ---------------------------------------------------------------- begin

  datatype Operation = Operation(
    fingerprint: string, effectType: string, target: string, inputHash: string,
    provider: Option<string>, workflow: Option<string>, agent: Option<string>)

  datatype Answer =
    | Execute
    | Skip(cached: Json)
    | Conflict(holder: Id)
    | Rejected(error: Error)

  function DoneRow(t: Table, p: Id, fp: string): (r: Option<Key>)
    requires t.Valid()
    ensures r.Some? ==>
      r.value in t.rows && r.value.fingerprint == fp && t.rows[r.value].project == p && t.rows[r.value].Done()
    ensures r.None? ==>
      forall k | k in t.rows :: !(k.fingerprint == fp && t.rows[k].project == p && t.rows[k].Done())
  {
    t.Last((k: Key, row: Row) => k.fingerprint == fp && row.Done() && row.project == p)
  }

  /** The row of another execution that is executing the same fingerprint.
      The query has no order; Guarantees.OneHolder shows that there is at most one. */
  function HolderRow(t: Table, p: Id, fp: string, e: Id): (r: Option<Key>)
    requires t.Valid()
    ensures r.Some? ==>
      && r.value in t.rows && r.value.fingerprint == fp && r.value.exec != e
      && t.rows[r.value].project == p && t.rows[r.value].status.EXECUTING?
    ensures r.None? ==>
      forall k | k in t.rows ::
        !(k.fingerprint == fp && k.exec != e && t.rows[k].project == p && t.rows[k].status.EXECUTING?)
  {
    t.Last((k: Key, row: Row) =>
      k.fingerprint == fp && row.status.EXECUTING? && row.project == p && k.exec != e)
  }

  function OrElse(v: Json, message: string): Json {
    if Truthy(v) then v else Object(map["message" := Text(message)])
  }

  function Either(a: Option<string>, b: Option<string>): Option<string> {
    if Present(a) then a else b
  }

  /** The row that an operation writes for an execution. */
  function NewRow(x: Execution, op: Operation, status: Status, metadata: Json): Row {
    Row(x.project, op.effectType, op.target, op.inputHash,
        if status.SKIPPED? then None else op.provider, status, None,
        Either(op.workflow, x.workflow), Either(op.agent, x.agent), metadata, Null)
  }

  function SkipNote(original: Id): Json {
    Object(map["originalExecutionId" := Text(original), "message" := Text("Bypassed via Global Memory")])
  }

  function ConflictNote(holder: Id): Json {
    Object(map["conflict" := Bool(true), "conflictingExecutionId" := Text(holder),
               "message" := Text("Halted due to concurrent execution of the same fingerprint")])
  }

  function MarkConflict(row: Row, e: Id): Row {
    row.(metadata := Object(Spread(if Truthy(row.metadata) then row.metadata else EmptyObject)
      + map["conflict" := Bool(true), "conflictingExecutionId" := Text(e)]))
  }

  const RaceNote := Object(map["message" := Text("Already executed (race condition handled)")])

  function BeginSideEffect(t: Table, executions: map<Id, Execution>, e: Id, op: Operation): (r: (Table, Answer))
    requires t.Valid()
    ensures r.0.Valid()
  {
    if e !in executions then (t, Rejected(ExecutionNotFound)) else
    var x, k := executions[e], Key(e, op.fingerprint);
    var prior := DoneRow(t, x.project, op.fingerprint);
    if prior.Some? then
      if prior.value.exec == e then (t, Execute) else
      match t.Create(k, NewRow(x, op, SKIPPED, SkipNote(prior.value.exec)))
      case Some(t') => (t', Skip(OrElse(t.rows[prior.value].metadata, "Already executed successfully")))
      case None => (t, Rejected(DuplicateKey))
    else
      var holder := HolderRow(t, x.project, op.fingerprint, e);
      if holder.Some? then
        var marked := t.Update(holder.value, MarkConflict(t.rows[holder.value], e));
        match marked.Create(k, NewRow(x, op, FAILED, ConflictNote(holder.value.exec)))
        case Some(t') => (t', Conflict(holder.value.exec))
        case None => (marked, Rejected(DuplicateKey))
      else
        match t.Create(k, NewRow(x, op, EXECUTING, EmptyObject))
        case Some(t') => (t', Execute)
        case None => (t, Skip(RaceNote))   // neither query can find a row the second time
  }

  // ---------------------------------------------------------------- reports of the client

  datatype Report =
    | Commit(result: Json, receipt: Json)
    | Unknown(reason: string)
    | Fail(error: string, extra: Json)

  /** `result || {}`: what a committed row stores for an operation result. */
  function Stored(result: Json): Json {
    if Truthy(result) then result else EmptyObject
  }

  function Reported(row: Row, report: Report): Row {
    match report
    case Commit(result, receipt) =>
      row.(status := COMMITTED, metadata := Stored(result), receipt := receipt)
    case Unknown(reason) =>
      row.(status := UNKNOWN, metadata := Object(map["reason" := Text(reason)]))
    case Fail(error, extra) =>
      row.(status := FAILED, metadata := Object(map["error" := Text(error)] + Spread(extra)))
  }

  function ApplyReport(t: Table, k: Key, report: Report): (r: Table)
    ensures t.Valid() ==> r.Valid()
  {
    if k in t.rows then t.Update(k, Reported(t.rows[k], report)) else t
  }

  // ---------------------------------------------------------------- verification

  datatype Outcome = IsVerified | IsFailed(failureType: Option<FailureType>) | IsUnknown

  function VerificationNote(at: Json, to: string, failureType: Option<Option<FailureType>>): Json {
    var base := map["resolvedAt" := at, "resolvedFrom" := Text("UNKNOWN"), "resolvedTo" := Text(to)];
    Object(match failureType
           case None => base
           case Some(None) => base["failureType" := Null]
           case Some(Some(f)) => base["failureType" := Text(if f.TRANSIENT? then "TRANSIENT" else "SEMANTIC")])
  }

  function Resolved(row: Row, outcome: Outcome, at: Json): Row {
    match outcome
    case IsUnknown => row
    case IsVerified =>
      row.(status := VERIFIED, failureType := None,
           metadata := Object(SpreadObject(row.metadata)["_verification" := VerificationNote(at, "VERIFIED", None)]))
    case IsFailed(f) =>
      row.(status := FAILED, failureType := f,
           metadata := Object(SpreadObject(row.metadata)["_verification" := VerificationNote(at, "FAILED", Some(f))]))
  }

  /** Writes the answer of a verifier to a row that was read as `seen`. */
  function ApplyOutcome(t: Table, k: Key, seen: Row, outcome: Outcome, at: Json): (r: Table)
    requires k in t.rows
    ensures t.Valid() ==> r.Valid()
  {
    match outcome
    case IsUnknown => t
    case _ =>
      var to := Resolved(seen, outcome, at);
      t.Update(k, t.rows[k].(status := to.status, failureType := to.failureType, metadata := to.metadata))
  }

  // ---------------------------------------------------------------- continuation plan

  datatype Action = SKIP | RETRY | BLOCK

  datatype Step = Step(id: Key, effectType: string, fingerprint: string, target: string,
                       status: Status, failureType: Option<FailureType>, action: Action)

  datatype PlanStatus = CAN_RESUME | BLOCKED | COMPLETED

  datatype Plan = Plan(workflow: string, status: PlanStatus, steps: seq<Step>)

  function Settled(row: Row): Row {
    if row.Hard() then row.(status := AWAITING_APPROVAL) else row
  }

  /** The table after a plan was computed: hard failures of the workflow await approval. */
  function Settle(t: Table, w: string, p: Id): (r: Table)
    ensures t.Valid() ==> r.Valid()
  {
    Table(map k | k in t.rows :: if t.rows[k].In(w, p) then Settled(t.rows[k]) else t.rows[k], t.order)
  }

  /** The rows of a workflow in creation order. */
  function Effects(t: Table, w: string, p: Id): (ks: seq<Key>)
    requires forall k | k in t.order :: k in t.rows
    ensures forall k :: k in ks <==> k in t.order && t.rows[k].In(w, p)
    decreases |t.order|
  {
    if t.order == [] then []
    else
      var k := t.order[|t.order| - 1];
      Effects(Table(t.rows, t.order[..|t.order| - 1]), w, p)
        + if t.rows[k].In(w, p) then [k] else []
  }

  function ActionOf(row: Row): Action {
    if row.Done() || row.status.SKIPPED? then SKIP
    else if row.Blocks() then BLOCK
    else RETRY
  }

  function StepOf(k: Key, row: Row): Step {
    Step(k, row.effectType, k.fingerprint, row.target, Settled(row).status, row.failureType, ActionOf(row))
  }

  /** The plan: one step per effect in creation order, and a verdict on all of them. */
  function PlanFor(t: Table, w: string, p: Id): Plan
    requires t.Valid()
  {
    var ks := Effects(t, w, p);
    var steps := seq(|ks|, i requires 0 <= i < |ks| => StepOf(ks[i], t.rows[ks[i]]));
    var status :=
      if ks == [] then CAN_RESUME
      else if exists s | s in steps :: s.action.BLOCK? then BLOCKED
      else if forall s | s in steps :: s.action.SKIP? then COMPLETED
      else CAN_RESUME;
    Plan(w, status, steps)
  }

  // ---------------------------------------------------------------- approval

  function ApproveSideEffect(t: Table, k: Key, p: Id, at: Json): (r: (Table, Option<Error>))
    ensures t.Valid() ==> r.0.Valid()
  {
    if k !in t.rows || t.rows[k].project != p then (t, Some(RowNotFound))
    else if !t.rows[k].status.AWAITING_APPROVAL? then (t, Some(NotAwaitingApproval))
    else (t.Update(k, Approved(t.rows[k], at)), None)
  }

  function Approved(row: Row, at: Json): Row {
    row.(status := VERIFIED,
         metadata := Object(SpreadObject(row.metadata)["_approval" := Object(map[
           "approvedAt" := at, "notes" := Text("Manually approved via Dashboard")])]))
  }
}
