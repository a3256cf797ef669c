/** GuardsService: the operations on the ledger, each changing the table in place,
    proved against the functions of module Ledger. */
module Guards {
  import opened Values
  import opened Ledger
  import Legacy

  class GuardsService {
    var table: Table
    var executions: map<Id, Execution>

    ghost predicate Valid()
      reads this
    {
      table.Valid()
    }

    constructor ()
      ensures Valid() && table == EmptyTable && executions == map[]
    {
      table, executions := EmptyTable, map[];
    }

    /** Check for a finished or running twin, then register the effect as EXECUTING. */
    method BeginSideEffect(e: Id, op: Operation) returns (answer: Answer)
      requires Valid()
      modifies this`table
      ensures Valid()
      ensures (table, answer) == Ledger.BeginSideEffect(old(table), executions, e, op)
    {
      if e !in executions {
        return Rejected(ExecutionNotFound);
      }
      var current := executions[e];
      var key := Key(e, op.fingerprint);
      var prior := DoneRow(table, current.project, op.fingerprint);
      if prior.Some? {
        if prior.value.exec == e {
          return Execute;
        }
        var created := table.Create(key, NewRow(current, op, SKIPPED, SkipNote(prior.value.exec)));
        if created.None? {
          return Rejected(DuplicateKey);
        }
        var cached := OrElse(table.rows[prior.value].metadata, "Already executed successfully");
        table := created.value;
        return Skip(cached);
      }

      var active := HolderRow(table, current.project, op.fingerprint, e);
      if active.Some? {
        table := table.Update(active.value, MarkConflict(table.rows[active.value], e));
        var created := table.Create(key, NewRow(current, op, FAILED, ConflictNote(active.value.exec)));
        if created.None? {
          return Rejected(DuplicateKey);
        }
        table := created.value;
        return Conflict(active.value.exec);
      }

      var created := table.Create(key, NewRow(current, op, EXECUTING, EmptyObject));
      if created.None? {
        // The row of this very execution is in the way: its first request was
        // served and the answer lost. Both queries above still find nothing.
        return Skip(RaceNote);
      }
      table := created.value;
      return Execute;
    }

    method CommitSideEffect(e: Id, fp: string, result: Json, receipt: Json) returns (error: Option<Error>)
      requires Valid()
      modifies this`table
      ensures Valid()
      ensures table == ApplyReport(old(table), Key(e, fp), Commit(result, receipt))
      ensures error == if Key(e, fp) in old(table).rows then None else Some(RowNotFound)
    {
      var key := Key(e, fp);
      if key !in table.rows {
        return Some(RowNotFound);
      }
      var row := table.rows[key];
      table := table.Update(key, row.(status := COMMITTED,
                                      metadata := if Truthy(result) then result else EmptyObject,
                                      receipt := receipt));
      return None;
    }

    method MarkUnknown(e: Id, fp: string, reason: string) returns (error: Option<Error>)
      requires Valid()
      modifies this`table
      ensures Valid()
      ensures table == ApplyReport(old(table), Key(e, fp), Unknown(reason))
      ensures error == if Key(e, fp) in old(table).rows then None else Some(RowNotFound)
    {
      var key := Key(e, fp);
      if key !in table.rows {
        return Some(RowNotFound);
      }
      table := table.Update(key, table.rows[key].(status := UNKNOWN,
                                                  metadata := Object(map["reason" := Text(reason)])));
      return None;
    }

    method MarkFailed(e: Id, fp: string, message: string, extra: Json) returns (error: Option<Error>)
      requires Valid()
      modifies this`table
      ensures Valid()
      ensures table == ApplyReport(old(table), Key(e, fp), Fail(message, extra))
      ensures error == if Key(e, fp) in old(table).rows then None else Some(RowNotFound)
    {
      var key := Key(e, fp);
      if key !in table.rows {
        return Some(RowNotFound);
      }
      table := table.Update(key, table.rows[key].(status := FAILED,
                                                  metadata := Object(map["error" := Text(message)] + Spread(extra))));
      return None;
    }

    /** The body of the planner's loop: what to do about one effect as it was read.
        A hard failure is moved to AWAITING_APPROVAL. */
    method PlanEffect(id: Key, effect: Row) returns (step: Step)
      requires Valid() && id in table.rows
      modifies this`table
      ensures Valid()
      ensures step == StepOf(id, effect)
      ensures table == if effect.Hard()
        then old(table).Update(id, old(table).rows[id].(status := AWAITING_APPROVAL)) else old(table)
    {
      var action, status := SKIP, effect.status;
      if status.COMMITTED? || status.VERIFIED? || status.SKIPPED? {
        action := SKIP;
      } else if status.UNKNOWN? {
        action := BLOCK;
      } else if status.AWAITING_APPROVAL? {
        action := BLOCK;
      } else if status.FAILED? {
        if effect.failureType == Some(TRANSIENT) {
          action := RETRY;
        } else {
          action := BLOCK;
          table := table.Update(id, table.rows[id].(status := AWAITING_APPROVAL));
          status := AWAITING_APPROVAL;
        }
      } else {
        action := RETRY;
      }
      step := Step(id, effect.effectType, id.fingerprint, effect.target, status, effect.failureType, action);
    }

    method OverallStatus(effects: nat, isBlocked: bool, allCompleted: bool) returns (overall: PlanStatus)
      ensures overall == Verdict(effects, isBlocked, allCompleted)
    {
      overall := CAN_RESUME;
      if effects == 0 {
        overall := CAN_RESUME;
      } else if isBlocked {
        overall := BLOCKED;
      } else if allCompleted {
        overall := COMPLETED;
      }
    }

    /** Walks the effects of a workflow in creation order, pushing one step for each. */
    method GetContinuationPlan(w: string, p: Id) returns (plan: Plan)
      requires Valid()
      modifies this`table
      ensures Valid()
      ensures plan == PlanFor(old(table), w, p)
      ensures table == Settle(old(table), w, p)
    {
      var t := table;
      hide StepOf, ActionOf, PlanFor, Settle, Effects, Table.Update, Row.Hard, Row.Blocks;
      var effects := Effects(t, w, p);
      var steps: seq<Step> := [];
      var isBlocked, allCompleted := false, true;
      var i := 0;
      assert PlanUpto(t, effects, 0) == Progress(steps, isBlocked, allCompleted, table);
      hide PlanUpto, Table.Valid, Verdict;
      while i < |effects|
        invariant 0 <= i <= |effects|
        invariant Valid()
        invariant Progress(steps, isBlocked, allCompleted, table) == PlanUpto(t, effects, i)
      {
        var id := effects[i];
        var effect := t.rows[id];
        PlanUptoNext(t, effects, i);
        var step := PlanEffect(id, effect);
        steps, isBlocked, allCompleted :=
          steps + [step], isBlocked || step.action.BLOCK?, allCompleted && step.action.SKIP?;
        i := i + 1;
      }
      var overall := OverallStatus(|effects|, isBlocked, allCompleted);
      PlanUptoIsPlan(t, w, p);
      plan := Plan(w, overall, steps);
    }

    /** The older entry point: check and commit in one call. */
    method VerifySideEffect(e: Id, c: Legacy.Check) returns (answer: Answer)
      requires Valid()
      modifies this`table
      ensures Valid()
      ensures (table, answer) == Legacy.VerifySideEffect(old(table), executions, e, c)
    {
      if e !in executions {
        return Rejected(ExecutionNotFound);
      }
      var current := executions[e];
      var key := Key(e, c.fingerprint);

      if c.effectType == Legacy.STATE_SNAPSHOT {
        var drift := false;
        if Present(current.externalId) {
          var last := Legacy.LastSnapshot(table, executions, e, c.target);
          if last.Some? && table.rows[last.value].inputHash != c.inputHash {
            drift := true;
          }
        }
        var created := table.Create(key, Legacy.RowOf(current, c, COMMITTED, Legacy.SnapshotNote(c.metadata, drift)));
        if created.None? {
          return Rejected(DuplicateKey);
        }
        table := created.value;
        return Execute;
      }

      var prior := Legacy.PriorEffect(table, executions, e, c);
      if prior.Some? {
        if prior.value.exec == e {
          table := table.Update(prior.value, Legacy.Merged(table.rows[prior.value], c.metadata));
          return Execute;
        }
        var skipped := Legacy.RowOf(current, c, SKIPPED, Legacy.BypassNote(prior.value.exec, c.scope));
        var created := table.Create(key, skipped);
        if created.None? {
          return Rejected(DuplicateKey);
        }
        var cached := OrElse(table.rows[prior.value].metadata, "Already executed successfully");
        table := created.value;
        return Skip(cached);
      }

      var created := table.Create(key, Legacy.RowOf(current, c, COMMITTED, c.metadata));
      if created.None? {
        // An uncommitted row of this very execution is in the way. The search is made
        // again, and again finds nothing.
        return Skip(RaceNote);
      }
      table := created.value;
      return Execute;
    }

    method ApproveSideEffect(id: Key, p: Id, at: Json) returns (error: Option<Error>)
      requires Valid()
      modifies this`table
      ensures Valid()
      ensures (table, error) == Ledger.ApproveSideEffect(old(table), id, p, at)
    {
      if id !in table.rows || table.rows[id].project != p {
        return Some(RowNotFound);
      }
      var effect := table.rows[id];
      if effect.status != AWAITING_APPROVAL {
        return Some(NotAwaitingApproval);
      }
      table := table.Update(id, Approved(effect, at));
      return None;
    }
  }

  /** What the planner has computed so far. */
  datatype Progress = Progress(steps: seq<Step>, blocked: bool, completed: bool, table: Table)

  ghost function Advance(before: Progress, k: Key, row: Row): (r: Progress)
    requires k in before.table.rows
    ensures r.table.rows.Keys == before.table.rows.Keys
  {
    Progress(
      before.steps + [StepOf(k, row)],
      before.blocked || StepOf(k, row).action.BLOCK?,
      before.completed && StepOf(k, row).action.SKIP?,
      if row.Hard() then before.table.Update(k, before.table.rows[k].(status := AWAITING_APPROVAL))
      else before.table)
  }

  ghost function PlanUpto(t: Table, ks: seq<Key>, n: nat): (r: Progress)
    requires n <= |ks| && forall k | k in ks :: k in t.rows
    ensures r.table.rows.Keys == t.rows.Keys
  {
    if n == 0 then Progress([], false, true, t)
    else Advance(PlanUpto(t, ks, n - 1), ks[n - 1], t.rows[ks[n - 1]])
  }

  lemma PlanUptoNext(t: Table, ks: seq<Key>, n: nat)
    requires n < |ks| && forall k | k in ks :: k in t.rows
    ensures PlanUpto(t, ks, n + 1) == Advance(PlanUpto(t, ks, n), ks[n], t.rows[ks[n]])
  {
  }

  lemma {:induction false} PlanUptoSteps(t: Table, ks: seq<Key>, n: nat)
    requires n <= |ks| && forall k | k in ks :: k in t.rows
    ensures var r := PlanUpto(t, ks, n);
      && |r.steps| == n
      && (forall i | 0 <= i < n :: r.steps[i] == StepOf(ks[i], t.rows[ks[i]]))
      && (r.blocked <==> exists s | s in r.steps :: s.action.BLOCK?)
      && (r.completed <==> forall s | s in r.steps :: s.action.SKIP?)
  {
    hide StepOf, Table.Update;
    if n != 0 {
      PlanUptoSteps(t, ks, n - 1);
    }
  }

  lemma {:induction false} PlanUptoTable(t: Table, ks: seq<Key>, n: nat)
    requires n <= |ks| && forall k | k in ks :: k in t.rows
    requires forall i, j | 0 <= i < j < |ks| :: ks[i] != ks[j]
    ensures var t' := PlanUpto(t, ks, n).table;
      && t'.order == t.order
      && forall k | k in t.rows :: t'.rows[k] == if k in ks[..n] then Settled(t.rows[k]) else t.rows[k]
  {
    hide StepOf;
    if n != 0 {
      PlanUptoTable(t, ks, n - 1);
      TakeOneMore(ks, n - 1);
    }
  }

  ghost function Verdict(effects: nat, blocked: bool, completed: bool): PlanStatus {
    if effects == 0 then CAN_RESUME else if blocked then BLOCKED
    else if completed then COMPLETED else CAN_RESUME
  }

  lemma PlanUptoIsPlan(t: Table, w: string, p: Id)
    requires t.Valid()
    ensures var ks := Effects(t, w, p);
      var r := PlanUpto(t, ks, |ks|);
      && r.table == Settle(t, w, p)
      && PlanFor(t, w, p) == Plan(w, Verdict(|ks|, r.blocked, r.completed), r.steps)
  {
    hide StepOf, Settled, PlanUpto;
    var ks := Effects(t, w, p);
    EffectsDistinct(t, w, p);
    PlanUptoSteps(t, ks, |ks|);
    assert PlanUpto(t, ks, |ks|).steps == PlanFor(t, w, p).steps;
    assert PlanUpto(t, ks, |ks|).table == Settle(t, w, p) by {
      hide PlanFor;
      PlanUptoTable(t, ks, |ks|);
      assert ks[..|ks|] == ks;
      var rows := PlanUpto(t, ks, |ks|).table.rows;
      forall k | k in t.rows
        ensures rows[k] == Settle(t, w, p).rows[k]
      {
        assert k in ks <==> t.rows[k].In(w, p);
      }
      assert rows.Keys == Settle(t, w, p).rows.Keys && rows == Settle(t, w, p).rows;
    }
  }

  /** Every effect of a workflow is planned exactly once. */
  lemma {:induction false} EffectsDistinct(t: Table, w: string, p: Id)
    requires forall k | k in t.order :: k in t.rows
    requires forall i, j | 0 <= i < j < |t.order| :: t.order[i] != t.order[j]
    ensures forall i, j | 0 <= i < j < |Effects(t, w, p)| :: Effects(t, w, p)[i] != Effects(t, w, p)[j]
    decreases |t.order|
  {
    if t.order != [] {
      var shorter := Table(t.rows, t.order[..|t.order| - 1]);
      EffectsDistinct(shorter, w, p);
      assert forall k | k in Effects(shorter, w, p) :: k in shorter.order;
    }
  }
}
