/** The three situations that a begin request can meet, and what it is told when it comes again. */
module BeginCases {
  import opened Values
  import opened Ledger

  /** The effect is done in the project. */
  lemma WhenDone(t: Table, executions: map<Id, Execution>, e: Id, op: Operation, prior: Key)
    requires t.Valid() && e in executions && DoneRow(t, executions[e].project, op.fingerprint) == Some(prior)
    ensures var k, row := Key(e, op.fingerprint), NewRow(executions[e], op, SKIPPED, SkipNote(prior.exec));
      BeginSideEffect(t, executions, e, op) ==
        if prior.exec == e then (t, Execute)
        else if k in t.rows then (t, Rejected(DuplicateKey))
        else (Table(t.rows[k := row], t.order + [k]),
              Skip(OrElse(t.rows[prior].metadata, "Already executed successfully")))
  {
    hide DoneRow, HolderRow, OrElse, NewRow, SkipNote, Table.Valid;
  }

  /** It is not done, and another execution is at it. */
  lemma WhenHeld(t: Table, executions: map<Id, Execution>, e: Id, op: Operation, holder: Key)
    requires t.Valid() && e in executions && DoneRow(t, executions[e].project, op.fingerprint) == None
    requires HolderRow(t, executions[e].project, op.fingerprint, e) == Some(holder)
    ensures var marked := t.Update(holder, MarkConflict(t.rows[holder], e));
      var k, row := Key(e, op.fingerprint), NewRow(executions[e], op, FAILED, ConflictNote(holder.exec));
      BeginSideEffect(t, executions, e, op) ==
        if k in marked.rows then (marked, Rejected(DuplicateKey))
        else (Table(marked.rows[k := row], marked.order + [k]), Conflict(holder.exec))
  {
    hide DoneRow, HolderRow, MarkConflict, NewRow, ConflictNote, Table.Valid;
  }

  /** Nobody is at it. */
  lemma WhenFree(t: Table, executions: map<Id, Execution>, e: Id, op: Operation)
    requires t.Valid() && e in executions && DoneRow(t, executions[e].project, op.fingerprint) == None
    requires HolderRow(t, executions[e].project, op.fingerprint, e) == None
    ensures var k, row := Key(e, op.fingerprint), NewRow(executions[e], op, EXECUTING, EmptyObject);
      BeginSideEffect(t, executions, e, op) ==
        if k in t.rows then (t, Skip(RaceNote)) else (Table(t.rows[k := row], t.order + [k]), Execute)
  {
    hide DoneRow, HolderRow, NewRow, Table.Valid;
  }

  // ---------------------------------------------------------------- the most recent row

  lemma {:induction false} LastIs(t: Table, filter: (Key, Row) -> bool, i: nat)
    requires (forall k | k in t.order :: k in t.rows) && i < |t.order| && filter(t.order[i], t.rows[t.order[i]])
    requires forall j | i < j < |t.order| :: !filter(t.order[j], t.rows[t.order[j]])
    ensures t.Last(filter) == Some(t.order[i])
    decreases |t.order|
  {
    if i < |t.order| - 1 { LastIs(Table(t.rows, t.order[..|t.order| - 1]), filter, i); }
  }

  lemma {:induction false} NoneAfterLast(t: Table, filter: (Key, Row) -> bool, i: nat, j: nat)
    requires (forall k | k in t.order :: k in t.rows) && i < j < |t.order|
    requires forall i, j | 0 <= i < j < |t.order| :: t.order[i] != t.order[j]
    requires t.Last(filter) == Some(t.order[i])
    ensures !filter(t.order[j], t.rows[t.order[j]])
    decreases |t.order|
  {
    var n := |t.order| - 1;
    if !filter(t.order[n], t.rows[t.order[n]]) && j < n {
      NoneAfterLast(Table(t.rows, t.order[..n]), filter, i, j);
    }
  }

  predicate DoneFor(t: Table, p: Id, fp: string, k: Key) {
    k in t.rows && k.fingerprint == fp && t.rows[k].project == p && t.rows[k].Done()
  }

  /** Of several done rows the one created last is found. */
  lemma DoneRowExactly(t: Table, p: Id, fp: string, i: nat)
    requires t.Valid() && i < |t.order|
    ensures DoneRow(t, p, fp) == Some(t.order[i]) <==>
      DoneFor(t, p, fp, t.order[i]) && forall j | i < j < |t.order| :: !DoneFor(t, p, fp, t.order[j])
  {
    var filter := (k: Key, row: Row) => k.fingerprint == fp && row.Done() && row.project == p;
    assert DoneRow(t, p, fp) == t.Last(filter);
    if DoneFor(t, p, fp, t.order[i]) && forall j | i < j < |t.order| :: !DoneFor(t, p, fp, t.order[j]) {
      LastIs(t, filter, i);
    }
    if DoneRow(t, p, fp) == Some(t.order[i]) {
      forall j | i < j < |t.order| ensures !DoneFor(t, p, fp, t.order[j]) { NoneAfterLast(t, filter, i, j); }
    }
  }

  predicate RunningFor(t: Table, p: Id, fp: string, k: Key) {
    k in t.rows && k.fingerprint == fp && t.rows[k].project == p && t.rows[k].status.EXECUTING?
  }

  /** Another execution than `e` is at the effect. */
  ghost predicate HeldByOther(t: Table, p: Id, fp: string, e: Id) {
    exists k :: RunningFor(t, p, fp, k) && k.exec != e
  }

  // ---------------------------------------------------------------- the same request again

  /** The table after a request was served `n` times in a row. */
  function ServedTimes(t: Table, executions: map<Id, Execution>, e: Id, op: Operation, n: nat): (r: Table)
    requires t.Valid()
    ensures r.Valid()
  {
    if n == 0 then t else BeginSideEffect(ServedTimes(t, executions, e, op, n - 1), executions, e, op).0
  }

  /** What a request is told once it has been served before, in terms of the table before: what was
      granted, or skipped for want of an own row, is not granted or replayed a second time. */
  function Again(t: Table, executions: map<Id, Execution>, e: Id, op: Operation): Answer
    requires t.Valid()
  {
    var own := Key(e, op.fingerprint) in t.rows;
    match BeginSideEffect(t, executions, e, op).1
    case Execute => if own then Execute else Skip(RaceNote)
    case Skip(_) => if own then Skip(RaceNote) else Rejected(DuplicateKey)
    case Conflict(_) => Rejected(DuplicateKey)
    case Rejected(error) => Rejected(error)
  }

  lemma NotFound(t: Table, executions: map<Id, Execution>, e: Id, op: Operation)
    requires t.Valid() && e !in executions
    ensures BeginSideEffect(t, executions, e, op) == (t, Rejected(ExecutionNotFound))
  {
  }

  /** The rows that decide the next answer, after a service that changed at most the notes of
      running rows and added the caller's own row. */
  lemma SameSituation(t: Table, t': Table, p: Id, e: Id, op: Operation)
    requires t.Valid() && t'.Valid()
    requires forall k | k in t.rows :: k in t'.rows && t'.rows[k].status == t.rows[k].status
                                       && t'.rows[k].project == t.rows[k].project
    requires forall k | k in t'.rows :: k in t.rows || (k == Key(e, op.fingerprint) && !t'.rows[k].Done())
    ensures DoneRow(t', p, op.fingerprint).Some? == DoneRow(t, p, op.fingerprint).Some?
    ensures HolderRow(t', p, op.fingerprint, e).Some? == HolderRow(t, p, op.fingerprint, e).Some?
  {
    hide DoneRow, HolderRow, Table.Valid;
  }

  lemma SecondAnswer(t: Table, executions: map<Id, Execution>, e: Id, op: Operation)
    requires t.Valid()
    ensures var t' := BeginSideEffect(t, executions, e, op).0;
      BeginSideEffect(t', executions, e, op).1 == Again(t, executions, e, op) == Again(t', executions, e, op)
  {
    hide DoneRow, HolderRow, OrElse, NewRow, SkipNote, ConflictNote, MarkConflict, BeginSideEffect, Table.Valid;
    if e !in executions {
      NotFound(t, executions, e, op);
      return;
    }
    var p, k := executions[e].project, Key(e, op.fingerprint);
    var prior, holder := DoneRow(t, p, op.fingerprint), HolderRow(t, p, op.fingerprint, e);
    if prior.Some? {
      WhenDone(t, executions, e, op, prior.value);
      if prior.value.exec != e { AgainWhenDone(t, executions, e, op, prior.value); }
    } else if holder.Some? {
      WhenHeld(t, executions, e, op, holder.value);
      AgainWhenHeld(t, executions, e, op, holder.value);
    } else {
      WhenFree(t, executions, e, op);
      AgainWhenFree(t, executions, e, op);
    }
  }

  lemma AgainWhenDone(t: Table, executions: map<Id, Execution>, e: Id, op: Operation, prior: Key)
    requires t.Valid() && e in executions && DoneRow(t, executions[e].project, op.fingerprint) == Some(prior)
    requires prior.exec != e
    ensures var t' := BeginSideEffect(t, executions, e, op).0;
      Key(e, op.fingerprint) in t'.rows && BeginSideEffect(t', executions, e, op) == (t', Rejected(DuplicateKey))
  {
    hide DoneRow, HolderRow, OrElse, SkipNote, BeginSideEffect;
    WhenDone(t, executions, e, op, prior);
    var t', k, p := BeginSideEffect(t, executions, e, op).0, Key(e, op.fingerprint), executions[e].project;
    if t' != t {
      assert t'.rows[k].status.SKIPPED?;
      SameSituation(t, t', p, e, op);
      WhenDone(t', executions, e, op, DoneRow(t', p, op.fingerprint).value);
    }
  }

  lemma AgainWhenHeld(t: Table, executions: map<Id, Execution>, e: Id, op: Operation, holder: Key)
    requires t.Valid() && e in executions && DoneRow(t, executions[e].project, op.fingerprint) == None
    requires HolderRow(t, executions[e].project, op.fingerprint, e) == Some(holder)
    ensures var t' := BeginSideEffect(t, executions, e, op).0;
      Key(e, op.fingerprint) in t'.rows && BeginSideEffect(t', executions, e, op).1 == Rejected(DuplicateKey)
  {
    hide DoneRow, HolderRow, ConflictNote, Spread, BeginSideEffect;
    WhenHeld(t, executions, e, op, holder);
    var t', k, p := BeginSideEffect(t, executions, e, op).0, Key(e, op.fingerprint), executions[e].project;
    assert k !in t.rows ==> t'.rows[k].status.FAILED?;
    SameSituation(t, t', p, e, op);
    WhenHeld(t', executions, e, op, HolderRow(t', p, op.fingerprint, e).value);
  }

  lemma AgainWhenFree(t: Table, executions: map<Id, Execution>, e: Id, op: Operation)
    requires t.Valid() && e in executions && DoneRow(t, executions[e].project, op.fingerprint) == None
    requires HolderRow(t, executions[e].project, op.fingerprint, e) == None
    ensures var t' := BeginSideEffect(t, executions, e, op).0;
      Key(e, op.fingerprint) in t'.rows && BeginSideEffect(t', executions, e, op) == (t', Skip(RaceNote))
  {
    hide DoneRow, HolderRow, BeginSideEffect;
    WhenFree(t, executions, e, op);
    var t', k, p := BeginSideEffect(t, executions, e, op).0, Key(e, op.fingerprint), executions[e].project;
    if t' != t {
      assert t'.rows[k].status.EXECUTING?;
      FreeAgain(t, t', p, e, op);
    }
    WhenFree(t', executions, e, op);
  }

  lemma FreeAgain(t: Table, t': Table, p: Id, e: Id, op: Operation)
    requires t.Valid() && t'.Valid() && DoneRow(t, p, op.fingerprint) == None && HolderRow(t, p, op.fingerprint, e) == None
    requires forall k | k in t'.rows && k != Key(e, op.fingerprint) :: k in t.rows && t'.rows[k] == t.rows[k]
    requires Key(e, op.fingerprint) in t'.rows && !t'.rows[Key(e, op.fingerprint)].Done()
    ensures DoneRow(t', p, op.fingerprint) == None && HolderRow(t', p, op.fingerprint, e) == None
  {
    hide DoneRow, HolderRow, Table.Valid;
  }

  /** However often a request was served before, if it was: the answer is the same. In particular
      a request that was granted and not heard is told to skip what nobody has executed. */
  lemma {:induction false} AnswerOnRepeat(t: Table, executions: map<Id, Execution>, e: Id, op: Operation, n: nat)
    requires t.Valid() && n >= 1
    ensures var t' := ServedTimes(t, executions, e, op, n);
      BeginSideEffect(t', executions, e, op).1 == Again(t, executions, e, op) == Again(t', executions, e, op)
  {
    hide BeginSideEffect, Again, Table.Valid;
    if n > 1 { AnswerOnRepeat(t, executions, e, op, n - 1); }
    SecondAnswer(ServedTimes(t, executions, e, op, n - 1), executions, e, op);
  }
}
