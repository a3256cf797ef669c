/** The older entry point verifySideEffect: one call checks and commits. */
module Legacy {
  import opened Values
  import opened Ledger
  import opened BeginCases

  datatype Scope = MONITOR | PROJECT

  const STATE_SNAPSHOT := "STATE_SNAPSHOT"

  datatype Check = Check(fingerprint: string, effectType: string, target: string, inputHash: string,
                         metadata: Json, scope: Scope)

  /** Attempts of one job: the same monitor and the same non-empty external id. */
  predicate SameJob(x: Execution, y: Execution) {
    Present(x.externalId) && x.externalId == y.externalId && x.monitor == y.monitor
  }

  /** Executions among which a fingerprint is to be executed once: those of a job, or of a project. */
  predicate Together(x: Execution, y: Execution, wide: bool) {
    if wide then x.project == y.project else SameJob(x, y)
  }

  /** The search criteria for an earlier effect. */
  predicate Counts(executions: map<Id, Execution>, e: Id, c: Check, k: Key, row: Row)
    requires e in executions
  {
    && k.fingerprint == c.fingerprint && row.status.COMMITTED?
    && if c.scope.PROJECT? then row.project == executions[e].project
       else if Present(executions[e].externalId)
       then k.exec in executions && SameJob(executions[e], executions[k.exec])
       else k.exec == e
  }

  function PriorEffect(t: Table, executions: map<Id, Execution>, e: Id, c: Check): (r: Option<Key>)
    requires t.Valid() && e in executions
    ensures r.Some? ==> r.value in t.rows && Counts(executions, e, c, r.value, t.rows[r.value])
    ensures r.None? ==> forall k | k in t.rows :: !Counts(executions, e, c, k, t.rows[k])
  {
    t.Last((k: Key, row: Row) => Counts(executions, e, c, k, row))
  }

  function LastSnapshot(t: Table, executions: map<Id, Execution>, e: Id, target: string): Option<Key>
    requires t.Valid() && e in executions
  {
    t.Last((k: Key, row: Row) =>
      && row.effectType == STATE_SNAPSHOT && row.target == target && row.project == executions[e].project
      && k.exec in executions && SameJob(executions[e], executions[k.exec]))
  }

  function DriftDetected(t: Table, executions: map<Id, Execution>, e: Id, c: Check): bool
    requires t.Valid() && e in executions
  {
    Present(executions[e].externalId) &&
    var last := LastSnapshot(t, executions, e, c.target);
    last.Some? && t.rows[last.value].inputHash != c.inputHash
  }

  function RowOf(x: Execution, c: Check, status: Status, metadata: Json): Row {
    Row(x.project, c.effectType, c.target, c.inputHash, None, status, None, None, None, metadata, Null)
  }

  function SnapshotNote(metadata: Json, drift: bool): Json {
    Object((if Truthy(metadata) then Spread(metadata) else map[])
      + map["driftDetected" := Bool(drift), "previousHash" := Text(if drift then "mismatch" else "consistent")])
  }

  function BypassNote(original: Id, scope: Scope): Json {
    Object(map["originalExecutionId" := Text(original),
               "message" := Text(if scope.PROJECT? then "Bypassed via Global Memory" else "Bypassed via Execution Memory")])
  }

  function Merged(row: Row, metadata: Json): Row {
    row.(metadata := Object(SpreadObject(row.metadata) + Spread(metadata)))
  }

  function VerifySideEffect(t: Table, executions: map<Id, Execution>, e: Id, c: Check): (r: (Table, Answer))
    requires t.Valid()
    ensures r.0.Valid()
  {
    if e !in executions then (t, Rejected(ExecutionNotFound)) else
    var x, k := executions[e], Key(e, c.fingerprint);
    if c.effectType == STATE_SNAPSHOT then
      match t.Create(k, RowOf(x, c, COMMITTED, SnapshotNote(c.metadata, DriftDetected(t, executions, e, c))))
      case Some(t') => (t', Execute)
      case None => (t, Rejected(DuplicateKey))
    else
      var prior := PriorEffect(t, executions, e, c);
      if prior.Some? then
        if prior.value.exec == e then (t.Update(prior.value, Merged(t.rows[prior.value], c.metadata)), Execute) else
        match t.Create(k, RowOf(x, c, SKIPPED, BypassNote(prior.value.exec, c.scope)))
        case Some(t') => (t', Skip(OrElse(t.rows[prior.value].metadata, "Already executed successfully")))
        case None => (t, Rejected(DuplicateKey))
      else
        match t.Create(k, RowOf(x, c, COMMITTED, c.metadata))
        case Some(t') => (t', Execute)
        case None => (t, Skip(RaceNote))   // the search finds nothing the second time either
  }

  // ---------------------------------------------------------------- runs

  datatype State = State(table: Table, executions: map<Id, Execution>)

  /** A call of verifySideEffect, or anything else that changes ledger and sessions. */
  datatype Event =
    | Ask(e: Id, check: Check)
    | Other(next: State)

  ghost function Apply(s: State, ev: Event): State {
    match ev
    case Ask(e, c) => if s.table.Valid() then s.(table := VerifySideEffect(s.table, s.executions, e, c).0) else s
    case Other(next) => next
  }

  /** A monitor belongs to one project. */
  ghost predicate Consistent(executions: map<Id, Execution>) {
    forall d, e | d in executions && e in executions && executions[d].monitor == executions[e].monitor ::
      executions[d].project == executions[e].project
  }

  /** No snapshot is taken under the fingerprint, and everything else leaves its rows alone. For a
      promise to the whole project all calls must look at the whole project. */
  ghost predicate Allowed(s: State, ev: Event, fp: string, wide: bool) {
    match ev
    case Ask(_, c) => c.fingerprint == fp ==> c.effectType != STATE_SNAPSHOT && (wide ==> c.scope.PROJECT?)
    case Other(next) =>
      && next.table.Valid() && Consistent(next.executions)
      && (forall e | e in s.executions :: e in next.executions && next.executions[e] == s.executions[e])
      && (forall k: Key | k.fingerprint == fp ::
            (k in next.table.rows <==> k in s.table.rows)
            && (k in s.table.rows ==> next.table.rows[k] == s.table.rows[k]))
  }

  ghost function Run(s: State, evs: seq<Event>): State {
    if evs == [] then s else Apply(Run(s, evs[..|evs| - 1]), evs[|evs| - 1])
  }

  ghost predicate Legal(s: State, evs: seq<Event>, fp: string, wide: bool) {
    forall i | 0 <= i < |evs| :: Allowed(Run(s, evs[..i]), evs[i], fp, wide)
  }

  /** The i-th event asked about the fingerprint for `e` and was told to execute. */
  ghost predicate Granted(s: State, evs: seq<Event>, i: nat, e: Id, fp: string)
    requires i < |evs|
  {
    && evs[i].Ask? && evs[i].e == e && evs[i].check.fingerprint == fp
    && Run(s, evs[..i]).table.Valid()
    && VerifySideEffect(Run(s, evs[..i]).table, Run(s, evs[..i]).executions, e, evs[i].check).1.Execute?
  }

  // ---------------------------------------------------------------- the invariant

  ghost predicate CommittedFor(s: State, e: Id, fp: string) {
    var k := Key(e, fp);
    k in s.table.rows && s.table.rows[k].status.COMMITTED?
  }

  ghost predicate Inv(s: State, fp: string, wide: bool) {
    && s.table.Valid() && Consistent(s.executions)
    && (forall k | k in s.table.rows && k.fingerprint == fp ::
         k.exec in s.executions && s.table.rows[k].project == s.executions[k.exec].project)
    && (forall d, e | CommittedFor(s, d, fp) && CommittedFor(s, e, fp)
                      && Together(s.executions[d], s.executions[e], wide) :: d == e)
  }

  /** Committed rows stay, and executions keep their job. */
  ghost predicate Onward(s: State, s': State, fp: string) {
    && (forall e | CommittedFor(s, e, fp) :: CommittedFor(s', e, fp))
    && (forall e | e in s.executions :: e in s'.executions && s'.executions[e] == s.executions[e])
  }

  /** Exactly what a call may write: its own row, which it never takes back from COMMITTED and
      makes COMMITTED only if the search found nothing. */
  lemma AskWrites(t: Table, executions: map<Id, Execution>, e: Id, c: Check)
    requires t.Valid() && e in executions
    ensures var r, k := VerifySideEffect(t, executions, e, c), Key(e, c.fingerprint);
      && (r.0 == t || (k in r.0.rows && r.0.rows == t.rows[k := r.0.rows[k]]))
      && (k !in t.rows && k in r.0.rows ==> r.0.rows[k].project == executions[e].project)
      && (k in t.rows ==> k in r.0.rows && r.0.rows[k].project == t.rows[k].project)
      && (k in t.rows && t.rows[k].status.COMMITTED? ==> r.0.rows[k].status.COMMITTED?)
      && (c.effectType != STATE_SNAPSHOT && k in r.0.rows && r.0.rows[k].status.COMMITTED? ==>
            (k in t.rows && t.rows[k].status.COMMITTED?) || PriorEffect(t, executions, e, c).None?)
      && (r.1.Execute? ==> k in r.0.rows && r.0.rows[k].status.COMMITTED?)
  {
    hide Spread, SpreadObject, OrElse, SnapshotNote, BypassNote, LastSnapshot, DriftDetected;
  }

  lemma NothingFound(s: State, e: Id, c: Check, wide: bool)
    requires Inv(s, c.fingerprint, wide) && e in s.executions && (wide ==> c.scope.PROJECT?)
    requires PriorEffect(s.table, s.executions, e, c).None?
    ensures forall d | CommittedFor(s, d, c.fingerprint) :: !Together(s.executions[e], s.executions[d], wide)
  {
    hide PriorEffect;
    forall d | CommittedFor(s, d, c.fingerprint) ensures !Together(s.executions[e], s.executions[d], wide) {
      var k := Key(d, c.fingerprint);
      assert !Counts(s.executions, e, c, k, s.table.rows[k]);
    }
  }

  lemma WriteKeepsInv(s: State, t': Table, k: Key, fp: string, wide: bool)
    requires Inv(s, fp, wide) && t'.Valid() && k.exec in s.executions
    requires k in t'.rows && t'.rows == s.table.rows[k := t'.rows[k]]
    requires k.fingerprint == fp ==>
      && t'.rows[k].project == s.executions[k.exec].project
      && (CommittedFor(s, k.exec, fp) ==> t'.rows[k].status.COMMITTED?)
      && (t'.rows[k].status.COMMITTED? && !CommittedFor(s, k.exec, fp) ==>
            forall d | CommittedFor(s, d, fp) :: !Together(s.executions[k.exec], s.executions[d], wide))
    ensures Inv(s.(table := t'), fp, wide) && Onward(s, s.(table := t'), fp)
  {
    hide Table.Valid, Consistent;
  }

  lemma AskKeepsInv(s: State, e: Id, c: Check, fp: string, wide: bool)
    requires Inv(s, fp, wide) && Allowed(s, Ask(e, c), fp, wide)
    ensures Inv(Apply(s, Ask(e, c)), fp, wide) && Onward(s, Apply(s, Ask(e, c)), fp)
    ensures c.fingerprint == fp && VerifySideEffect(s.table, s.executions, e, c).1.Execute? ==>
      CommittedFor(Apply(s, Ask(e, c)), e, fp) && e in s.executions
  {
    assert e !in s.executions ==> VerifySideEffect(s.table, s.executions, e, c) == (s.table, Rejected(ExecutionNotFound));
    if e in s.executions {
      AskWrites(s.table, s.executions, e, c);
      if c.fingerprint == fp && PriorEffect(s.table, s.executions, e, c).None? { NothingFound(s, e, c, wide); }
    }
    hide VerifySideEffect, PriorEffect, Table.Valid, Onward;
    var t', k := VerifySideEffect(s.table, s.executions, e, c).0, Key(e, c.fingerprint);
    if e in s.executions && t' != s.table { WriteKeepsInv(s, t', k, fp, wide); }
    NothingHappens(s, fp);
  }

  lemma NothingHappens(s: State, fp: string)
    ensures Onward(s, s, fp)
  {
  }

  lemma StepKeepsInv(s: State, ev: Event, fp: string, wide: bool)
    requires Inv(s, fp, wide) && Allowed(s, ev, fp, wide)
    ensures Inv(Apply(s, ev), fp, wide) && Onward(s, Apply(s, ev), fp)
  {
    if ev.Ask? { AskKeepsInv(s, ev.e, ev.check, fp, wide); }
  }

  lemma LegalPrefix(s: State, evs: seq<Event>, fp: string, wide: bool, n: nat)
    requires Legal(s, evs, fp, wide) && n <= |evs|
    ensures Legal(s, evs[..n], fp, wide)
  {
    forall i | 0 <= i < n ensures evs[..n][..i] == evs[..i] {}
  }

  lemma {:induction false} RunKeepsInv(s: State, evs: seq<Event>, fp: string, wide: bool)
    requires Inv(s, fp, wide) && Legal(s, evs, fp, wide)
    ensures Inv(Run(s, evs), fp, wide)
  {
    if evs != [] {
      LegalPrefix(s, evs, fp, wide, |evs| - 1);
      RunKeepsInv(s, evs[..|evs| - 1], fp, wide);
      StepKeepsInv(Run(s, evs[..|evs| - 1]), evs[|evs| - 1], fp, wide);
    }
  }

  /** A grant commits a row of its execution for good. */
  lemma {:induction false} GrantStays(s: State, evs: seq<Event>, i: nat, e: Id, fp: string, wide: bool)
    requires Inv(s, fp, wide) && Legal(s, evs, fp, wide) && i < |evs| && Granted(s, evs, i, e, fp)
    ensures CommittedFor(Run(s, evs), e, fp) && e in Run(s, evs).executions
    decreases |evs|
  {
    hide Inv, Allowed, CommittedFor, VerifySideEffect;
    var n := |evs| - 1;
    LegalPrefix(s, evs, fp, wide, n);
    RunKeepsInv(s, evs[..n], fp, wide);
    assert Allowed(Run(s, evs[..n]), evs[n], fp, wide);
    if i == n {
      AskKeepsInv(Run(s, evs[..n]), e, evs[n].check, fp, wide);
    } else {
      assert evs[..n][..i] == evs[..i];
      GrantStays(s, evs[..n], i, e, fp, wide);
      StepKeepsInv(Run(s, evs[..n]), evs[n], fp, wide);
    }
  }

  lemma OneOfThemExecutes(s: State, evs: seq<Event>, i: nat, d: Id, j: nat, e: Id, fp: string, wide: bool)
    requires Inv(s, fp, wide) && Legal(s, evs, fp, wide) && i < |evs| && j < |evs|
    requires Granted(s, evs, i, d, fp) && Granted(s, evs, j, e, fp)
    requires d in Run(s, evs).executions && e in Run(s, evs).executions
    requires Together(Run(s, evs).executions[d], Run(s, evs).executions[e], wide)
    ensures d == e
  {
    hide Run, Granted, Legal, Together;
    GrantStays(s, evs, i, d, fp, wide);
    GrantStays(s, evs, j, e, fp, wide);
    RunKeepsInv(s, evs, fp, wide);
  }

  /** Of all attempts of one job, at most one is ever told to execute a fingerprint, whatever
      mix of scopes the calls use. */
  lemma OneAttemptExecutes(s: State, evs: seq<Event>, i: nat, d: Id, j: nat, e: Id, fp: string)
    requires Inv(s, fp, false) && Legal(s, evs, fp, false) && i < |evs| && j < |evs|
    requires Granted(s, evs, i, d, fp) && Granted(s, evs, j, e, fp)
    requires d in Run(s, evs).executions && e in Run(s, evs).executions
    requires SameJob(Run(s, evs).executions[d], Run(s, evs).executions[e])
    ensures d == e
  {
    hide Run, Granted, Legal, Inv, SameJob;
    OneOfThemExecutes(s, evs, i, d, j, e, fp, false);
  }

  /** If all calls look at the whole project, at most one of all its executions is ever told to
      execute a fingerprint, over every run from an empty ledger. */
  lemma OneOfAProjectExecutes(executions: map<Id, Execution>, evs: seq<Event>, i: nat, d: Id, j: nat, e: Id, fp: string)
    requires var s := State(EmptyTable, executions);
      && Consistent(executions) && Legal(s, evs, fp, true) && i < |evs| && j < |evs|
      && Granted(s, evs, i, d, fp) && Granted(s, evs, j, e, fp)
      && d in Run(s, evs).executions && e in Run(s, evs).executions
      && Run(s, evs).executions[d].project == Run(s, evs).executions[e].project
    ensures d == e
  {
    hide Run, Granted, Legal;
    OneOfThemExecutes(State(EmptyTable, executions), evs, i, d, j, e, fp, true);
  }

  /** At any time at most one attempt of a job has a committed row of the fingerprint. */
  lemma OneAttemptCommits(s: State, evs: seq<Event>, d: Id, e: Id, fp: string)
    requires Inv(s, fp, false) && Legal(s, evs, fp, false)
    requires CommittedFor(Run(s, evs), d, fp) && CommittedFor(Run(s, evs), e, fp)
    requires d in Run(s, evs).executions && e in Run(s, evs).executions
    requires SameJob(Run(s, evs).executions[d], Run(s, evs).executions[e])
    ensures d == e
  {
    RunKeepsInv(s, evs, fp, false);
  }

  /** Without an external id the scope MONITOR remembers nothing across executions: an execution
      without a row of its own is told to execute, whatever the others have committed. */
  lemma NoJobNoMemory(t: Table, executions: map<Id, Execution>, e: Id, c: Check)
    requires t.Valid() && e in executions && !Present(executions[e].externalId)
    requires c.scope.MONITOR? && c.effectType != STATE_SNAPSHOT
    ensures VerifySideEffect(t, executions, e, c).1.Execute? <==>
      (Key(e, c.fingerprint) in t.rows ==> t.rows[Key(e, c.fingerprint)].status.COMMITTED?)
  {
    var k := Key(e, c.fingerprint);
    if k in t.rows && t.rows[k].status.COMMITTED? {
      assert Counts(executions, e, c, k, t.rows[k]);
    }
  }

  // ---------------------------------------------------------------- every answer

  /** `j` is a row that a call looks for: a committed one of the fingerprint, in the project of the
      caller, or else of an attempt of its job, or its own if it has no job. */
  predicate Sought(t: Table, executions: map<Id, Execution>, e: Id, c: Check, j: Key)
    requires e in executions
  {
    var x := executions[e];
    && j in t.rows && j.fingerprint == c.fingerprint && t.rows[j].status == COMMITTED
    && match c.scope
       case PROJECT => t.rows[j].project == x.project
       case MONITOR =>
         if x.externalId == None || x.externalId == Some("") then j.exec == e
         else j.exec in executions && executions[j.exec].externalId == x.externalId
              && executions[j.exec].monitor == x.monitor
  }

  /** The one created last. */
  ghost predicate LastSought(t: Table, executions: map<Id, Execution>, e: Id, c: Check, j: Key)
    requires e in executions
  {
    exists i :: 0 <= i < |t.order| && t.order[i] == j && Sought(t, executions, e, c, j)
      && forall n | i < n < |t.order| :: !Sought(t, executions, e, c, t.order[n])
  }

  lemma PriorIsLast(t: Table, executions: map<Id, Execution>, e: Id, c: Check)
    requires t.Valid() && e in executions
    ensures PriorEffect(t, executions, e, c).Some? ==>
      LastSought(t, executions, e, c, PriorEffect(t, executions, e, c).value)
    ensures PriorEffect(t, executions, e, c).None? ==> forall j :: !Sought(t, executions, e, c, j)
  {
    var filter := (k: Key, row: Row) => Counts(executions, e, c, k, row);
    assert PriorEffect(t, executions, e, c) == t.Last(filter);
    assert forall j | j in t.rows :: Sought(t, executions, e, c, j) <==> filter(j, t.rows[j]);
    if t.Last(filter).Some? {
      var i :| 0 <= i < |t.order| && t.order[i] == t.Last(filter).value;
      forall n | i < n < |t.order| ensures !Sought(t, executions, e, c, t.order[n]) { NoneAfterLast(t, filter, i, n); }
    }
  }

  /** Type, target and input of the row are those of the call. */
  predicate RowFor(row: Row, x: Execution, c: Check) {
    && row.project == x.project && row.effectType == c.effectType && row.target == c.target
    && row.inputHash == c.inputHash && row.failureType == None
  }

  /** What a call is told and writes, by the rows of any table. A row that is found is replayed
      to others and executed again by its owner; if none is found, the caller commits and executes,
      unless a row of its own is in the way. */
  lemma AnsweredExactly(t: Table, executions: map<Id, Execution>, e: Id, c: Check)
    requires t.Valid() && e in executions && c.effectType != "STATE_SNAPSHOT"
    ensures var x, k := executions[e], Key(e, c.fingerprint);
      var (t', answer) := VerifySideEffect(t, executions, e, c);
      && ((forall j :: !Sought(t, executions, e, c, j)) ==>
            if k in t.rows then t' == t && answer == Skip(Object(map["message" :=
                Text("Already executed (race condition handled)")]))
            else answer == Execute && k in t'.rows && RowFor(t'.rows[k], x, c)
                 && t'.rows[k].status == COMMITTED && t'.rows[k].metadata == c.metadata)
      && ((exists j :: Sought(t, executions, e, c, j)) ==>
            exists j :: LastSought(t, executions, e, c, j) && FoundMeans(t, t', executions, e, c, j, answer))
  {
    hide PriorEffect, Merged, Counts, Sought, Table.Valid;
    PriorIsLast(t, executions, e, c);
    var prior := PriorEffect(t, executions, e, c);
    if prior.Some? {
      assert Sought(t, executions, e, c, prior.value);
      MergedExactly(t.rows[prior.value], c.metadata);
      assert FoundMeans(t, VerifySideEffect(t, executions, e, c).0, executions, e, c, prior.value,
                        VerifySideEffect(t, executions, e, c).1);
    }
  }

  /** What a call means that found row `j`. */
  ghost predicate FoundMeans(t: Table, t': Table, executions: map<Id, Execution>, e: Id, c: Check, j: Key,
                             answer: Answer)
    requires e in executions
  {
    var k := Key(e, c.fingerprint);
    && j in t.rows
    && if j.exec == e then
         answer == Execute && j in t'.rows && t'.rows[j] == t.rows[j].(metadata := t'.rows[j].metadata)
         && MergedInto(t.rows[j].metadata, c.metadata, t'.rows[j].metadata)
       else if k in t.rows then t' == t && answer == Rejected(DuplicateKey)
       else
         && answer == Skip(if !Falsy(t.rows[j].metadata) then t.rows[j].metadata
                           else Object(map["message" := Text("Already executed successfully")]))
         && k in t'.rows && RowFor(t'.rows[k], executions[e], c) && t'.rows[k].status == SKIPPED
         && t'.rows[k].metadata == Object(map["originalExecutionId" := Text(j.exec), "message" :=
              Text(if c.scope == PROJECT then "Bypassed via Global Memory" else "Bypassed via Execution Memory")])
  }

  /** Of two objects the entries of the second win. */
  ghost predicate MergedInto(old': Json, new': Json, merged: Json) {
    merged.Object? && (old'.Object? && new'.Object? ==> merged.fields == old'.fields + new'.fields)
  }

  lemma MergedExactly(row: Row, metadata: Json)
    ensures MergedInto(row.metadata, metadata, Merged(row, metadata).metadata)
    ensures Merged(row, metadata) == row.(metadata := Merged(row, metadata).metadata)
  {
  }

  // ---------------------------------------------------------------- snapshots

  /** An earlier snapshot of the target by an attempt of the same job. */
  predicate SnapshotOf(t: Table, executions: map<Id, Execution>, e: Id, target: string, j: Key)
    requires e in executions
  {
    && j in t.rows && t.rows[j].effectType == "STATE_SNAPSHOT" && t.rows[j].target == target
    && t.rows[j].project == executions[e].project && j.exec in executions
    && executions[j.exec].externalId == executions[e].externalId && executions[j.exec].monitor == executions[e].monitor
  }

  ghost predicate LastSnapshotOf(t: Table, executions: map<Id, Execution>, e: Id, target: string, j: Key)
    requires e in executions
  {
    exists i :: 0 <= i < |t.order| && t.order[i] == j && SnapshotOf(t, executions, e, target, j)
      && forall n | i < n < |t.order| :: !SnapshotOf(t, executions, e, target, t.order[n])
  }

  /** A snapshot always goes ahead, unless one of the same fingerprint is there, and notes a drift
      exactly if the job has an id and its last snapshot of the target had another input. */
  lemma DriftExactly(t: Table, executions: map<Id, Execution>, e: Id, c: Check)
    requires t.Valid() && e in executions && c.effectType == "STATE_SNAPSHOT"
    ensures var x, k := executions[e], Key(e, c.fingerprint);
      var (t', answer) := VerifySideEffect(t, executions, e, c);
      var drift := x.externalId != None && x.externalId != Some("")
        && exists j :: LastSnapshotOf(t, executions, e, c.target, j) && t.rows[j].inputHash != c.inputHash;
      if k in t.rows then t' == t && answer == Rejected(DuplicateKey)
      else
        && answer == Execute && k in t'.rows && RowFor(t'.rows[k], x, c) && t'.rows[k].status == COMMITTED
        && t'.rows[k].metadata.Object? && "driftDetected" in t'.rows[k].metadata.fields
        && t'.rows[k].metadata.fields["driftDetected"] == Bool(drift)
  {
    hide Table.Valid, Spread, LastSnapshot;
    if Present(executions[e].externalId) {
      SnapshotIsLast(t, executions, e, c.target);
      OneLastSnapshot(t, executions, e, c.target);
    }
  }

  lemma SnapshotIsLast(t: Table, executions: map<Id, Execution>, e: Id, target: string)
    requires t.Valid() && e in executions && Present(executions[e].externalId)
    ensures LastSnapshot(t, executions, e, target).Some? ==>
      LastSnapshotOf(t, executions, e, target, LastSnapshot(t, executions, e, target).value)
    ensures LastSnapshot(t, executions, e, target).None? ==> forall j :: !SnapshotOf(t, executions, e, target, j)
  {
    var filter := (k: Key, row: Row) =>
      && row.effectType == STATE_SNAPSHOT && row.target == target && row.project == executions[e].project
      && k.exec in executions && SameJob(executions[e], executions[k.exec]);
    assert LastSnapshot(t, executions, e, target) == t.Last(filter);
    assert forall j | j in t.rows :: SnapshotOf(t, executions, e, target, j) <==> filter(j, t.rows[j]);
    if t.Last(filter).Some? {
      var i :| 0 <= i < |t.order| && t.order[i] == t.Last(filter).value;
      forall n | i < n < |t.order| ensures !SnapshotOf(t, executions, e, target, t.order[n]) {
        NoneAfterLast(t, filter, i, n);
      }
    }
  }

  lemma OneLastSnapshot(t: Table, executions: map<Id, Execution>, e: Id, target: string)
    requires t.Valid() && e in executions
    ensures forall i, j |
      LastSnapshotOf(t, executions, e, target, i) && LastSnapshotOf(t, executions, e, target, j) :: i == j
  {
    forall i, j | LastSnapshotOf(t, executions, e, target, i) && LastSnapshotOf(t, executions, e, target, j)
      ensures i == j
    {
      var a :| 0 <= a < |t.order| && t.order[a] == i && forall n | a < n < |t.order| ::
        !SnapshotOf(t, executions, e, target, t.order[n]);
      var b :| 0 <= b < |t.order| && t.order[b] == j && forall n | b < n < |t.order| ::
        !SnapshotOf(t, executions, e, target, t.order[n]);
      hide SnapshotOf;
      assert a == b;
    }
  }
}
