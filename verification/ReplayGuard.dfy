/** The client half: one call of `ReplayGuard.effect` against the service, proved to be a
    run of the protocol. Nothing else is served during the call; the protocol itself covers
    what other sessions do in between. */
module SDK {
  import opened Values
  import opened Ledger
  import opened BeginCases
  import opened Guards
  import opened Protocol
  import opened Records
  import opened Steps

  /** What the caller's `execute` does, as far as the call waits for it. */
  datatype Outcome =
    | Returns(result: Json, receipt: Json)
    | Throws(message: string, asUnknown: bool)
    | TimesOut(reason: string)               // the timer fires first

  /** What the network does to one attempt to send effect/begin. */
  datatype Fate = Answered | AnswerLost | RequestLost

  datatype Cause =
    | EffectConflict(holder: Id)
    | EffectTimeout
    | OperationError(message: string)
    | BeginFailed

  datatype Result = Value(value: Json) | Raised(cause: Cause)

  /** How often the request is served before an attempt whose answer is heard, if there is one. */
  function Unheard(fates: seq<Fate>): nat {
    if fates == [] || fates[0].Answered? then 0
    else (if fates[0].AnswerLost? then 1 else 0) + Unheard(fates[1..])
  }

  predicate IsHeard(fates: seq<Fate>) { exists i :: 0 <= i < |fates| && fates[i].Answered? }

  /** The answer that is heard, if any: the one to the last of all services. */
  function HeardAnswer(t: Table, executions: map<Id, Execution>, e: Id, op: Operation, fates: seq<Fate>): Option<Answer>
    requires t.Valid()
  {
    if IsHeard(fates)
    then Some(BeginSideEffect(ServedTimes(t, executions, e, op, Unheard(fates)), executions, e, op).1) else None
  }

  /** What the caller is told when nothing is executed. */
  function Told(answer: Option<Answer>): Result {
    match answer
    case Some(Skip(cached)) => Value(cached)
    case Some(Conflict(holder)) => Raised(EffectConflict(holder))
    case _ => Raised(BeginFailed)
  }

  /** What the caller is told when the operation was started. */
  function Finished(outcome: Outcome): Result {
    match outcome
    case Returns(result, _) => Value(result)
    case Throws(message, _) => Raised(OperationError(message))
    case TimesOut(_) => Raised(EffectTimeout)
  }

  /** The report that is sent when the operation was started. */
  predicate Tells(report: Report, outcome: Outcome) {
    match outcome
    case Returns(result, receipt) => report == Commit(result, receipt)
    case Throws(message, true) => report == Unknown("Operation failed: " + message)
    case Throws(message, false) => report == Fail(message, Null)
    case TimesOut(reason) => report == Unknown(reason)
  }

  /** What the row of the effect becomes when the report has arrived; the rest of it stays. */
  predicate Recorded(before: Row, after: Row, outcome: Outcome) {
    match outcome
    case Returns(result, receipt) =>
      after == before.(status := COMMITTED, metadata := if Falsy(result) then Object(map[]) else result,
                       receipt := receipt)
    case Throws(message, true) =>
      after == before.(status := UNKNOWN, metadata := Object(map["reason" := Text("Operation failed: " + message)]))
    case Throws(message, false) =>
      after == before.(status := FAILED, metadata := Object(map["error" := Text(message)]))
    case TimesOut(reason) =>
      after == before.(status := UNKNOWN, metadata := Object(map["reason" := Text(reason)]))
  }

  /** The table and the mail after an operation was started: if the report gets there, the row
      of the effect says what became of it; if not, the report is still under way. */
  ghost predicate ToldTo(before: Table, mail: map<Key, Report>, after: Table, mail': map<Key, Report>, k: Key,
                         outcome: Outcome, delivered: bool)
  {
    && after.order == before.order && k in before.rows && k in after.rows
    && after.rows == before.rows[k := after.rows[k]]
    && (if delivered then Recorded(before.rows[k], after.rows[k], outcome) && mail' == mail - {k}
        else after == before && k in mail' && Tells(mail'[k], outcome) && mail' == mail[k := mail'[k]])
  }

  class ReplayGuard {
    const executionId: Id
    var localCache: map<string, Json>

    constructor (executionId: Id)
      ensures this.executionId == executionId && localCache == map[]
    {
      this.executionId := executionId;
      localCache := map[];
    }

    /** Sends effect/begin until an answer is heard or the attempts are used up. */
    method CallBegin(service: GuardsService, op: Operation, fates: seq<Fate>, ghost start: State, ghost s: State)
      returns (answer: Option<Answer>, ghost s': State)
      requires service.Valid() && s.table == service.table && s.executions == service.executions && Reaches(start, s)
      requires var k := Key(executionId, op.fingerprint);
        BeginPending(s, k) && k in s.sent && s.sent[k].op == op
      modifies service`table
      ensures service.Valid() && Reaches(start, s')
      ensures answer == HeardAnswer(old(service.table), s.executions, executionId, op, fates)
      ensures service.table == ServedTimes(old(service.table), s.executions, executionId, op,
                                           Unheard(fates) + if answer.Some? then 1 else 0)
      ensures s' == if answer.Some?
        then s.(table := service.table,
                clients := s.clients[executionId := Heard(s.clients[executionId], answer.value)])
        else s.(table := service.table)
    {
      hide Reaches, Ledger.BeginSideEffect, Table.Valid, TableAfter, Heard;
      ghost var t, served, k := service.table, 0, Key(executionId, op.fingerprint);
      s' := s;
      var attempt := 0;
      while attempt < |fates|
        invariant 0 <= attempt <= |fates|
        invariant service.Valid() && Reaches(start, s') && s' == s.(table := service.table)
        invariant t.Valid() && service.table == ServedTimes(t, s.executions, executionId, op, served)
        invariant Unheard(fates) == served + Unheard(fates[attempt..]) && IsHeard(fates) == IsHeard(fates[attempt..])
      {
        OneAttempt(fates, attempt);
        match fates[attempt] {
          case RequestLost =>
          case AnswerLost =>
            var _ := service.BeginSideEffect(executionId, op);
            s' := Go(start, s', DeliverBegin(k, false));
            served := served + 1;
          case Answered =>
            var begin := service.BeginSideEffect(executionId, op);
            s' := Go(start, s', DeliverBegin(k, true));
            return Some(begin), s';
        }
        attempt := attempt + 1;
      }
      return None, s';
    }

    /** `guard.effect(...)` under failPolicy CLOSED, inside a session. `s` is the state of
        the world before the call and `s'` after it. */
    method Effect(service: GuardsService, op: Operation, timeoutMs: nat, outcome: Outcome, fates: seq<Fate>,
                  delivered: bool, ghost s: State)
      returns (r: Result, executed: bool, ghost s': State)
      requires service.Valid() && s.table == service.table && s.executions == service.executions
      requires executionId in s.executions && op.workflow == s.executions[executionId].workflow
      requires executionId in s.clients && s.clients[executionId] == Client(Idle, localCache)
      requires outcome.TimesOut? ==> timeoutMs > 0
      modifies this`localCache, service`table
      ensures service.Valid() && Reaches(s, s')
      ensures s'.table == service.table && s'.executions == s.executions
      ensures executionId in s'.clients && s'.clients[executionId].cache == localCache
      ensures r.Value? ==> s'.clients[executionId].phase.Idle? && op.fingerprint in localCache
                           && r.value == localCache[op.fingerprint]
      ensures r.Raised? ==> s'.clients[executionId].phase.Ended? && localCache == old(localCache)
      ensures op.fingerprint in old(localCache) ==>
        r == Value(old(localCache)[op.fingerprint]) && !executed && service.table == old(service.table)
      ensures op.fingerprint !in old(localCache) ==>
        var answer := HeardAnswer(old(service.table), s.executions, executionId, op, fates);
        && (executed <==> answer == Some(Execute))
        && r == if executed then Finished(outcome) else Told(answer)
      ensures s'.log == s.log +
        (if executed && outcome.Returns?
         then [Success(Key(executionId, op.fingerprint), s.executions[executionId].project, outcome.result)] else [])
      ensures op.fingerprint !in old(localCache) ==>
        var k := Key(executionId, op.fingerprint);
        var begun := ServedTimes(old(service.table), s.executions, executionId, op,
                                 Unheard(fates) + if IsHeard(fates) then 1 else 0);
        if executed then ToldTo(begun, s.mail, service.table, s'.mail, k, outcome, delivered)
        else service.table == begun && s'.mail == s.mail
      ensures executed && !delivered && Key(executionId, op.fingerprint) !in old(service.table).rows ==>
        service.table.rows[Key(executionId, op.fingerprint)].status == EXECUTING
      ensures s'.late == s.late
      ensures s'.overdue == if executed && outcome.TimesOut?
        then s.overdue + {Key(executionId, op.fingerprint)} else s.overdue
    {
      hide Reaches, Ledger.BeginSideEffect, ApplyReport, Table.Valid, TableAfter, HeardAnswer, ToldTo, ServedTimes,
        IsHeard;
      var fp := op.fingerprint;
      HeardIfAnswered(old(service.table), s.executions, executionId, op, fates);
      s', executed := s, false;
      ReachesItself(s);

      if fp in localCache {
        r := Value(localCache[fp]);
        return;
      }

      s' := Go(s, s', Call(executionId, op, timeoutMs));
      var begin;
      begin, s' := CallBegin(service, op, fates, s, s');
      if begin.None? {
        s' := Go(s, s', End(executionId));
        r := Raised(BeginFailed);
        return;
      }
      match begin.value {
        case Skip(cached) =>
          localCache := localCache[fp := cached];
          r := Value(cached);
          return;
        case Conflict(holder) =>
          r := Raised(EffectConflict(holder));
          return;
        case Rejected(_) =>
          r := Raised(BeginFailed);
          return;
        case Execute =>
      }

      executed := true;
      StartedRow(old(service.table), s.executions, executionId, op, fates);
      s' := Report(service, op, timeoutMs, outcome, delivered, s, s');
      match outcome {
        case Returns(result, _) =>
          localCache := localCache[fp := result];
          r := Value(result);
        case Throws(message, _) =>
          r := Raised(OperationError(message));
        case TimesOut(_) =>
          r := Raised(EffectTimeout);
      }
    }

    /** The operation has come to an end, or its timer has fired: tell the service, if the
        message gets there. */
    method Report(service: GuardsService, op: Operation, timeoutMs: nat, outcome: Outcome, delivered: bool,
                  ghost start: State, ghost s: State)
      returns (ghost s': State)
      requires service.Valid() && s.table == service.table && s.executions == service.executions && Reaches(start, s)
      requires executionId in s.clients && s.clients[executionId].phase == Running(op, timeoutMs)
      requires executionId in s.executions && (outcome.TimesOut? ==> timeoutMs > 0)
      requires Key(executionId, op.fingerprint) in service.table.rows
      modifies service`table
      ensures ToldTo(old(service.table), s.mail, service.table, s'.mail, Key(executionId, op.fingerprint),
                     outcome, delivered)
      ensures !delivered ==> service.table == old(service.table)
      ensures service.Valid() && Reaches(start, s')
      ensures s'.table == service.table && s'.executions == s.executions
      ensures s'.clients == s.clients[executionId := if outcome.Returns?
        then Client(Idle, s.clients[executionId].cache[op.fingerprint := outcome.result])
        else s.clients[executionId].(phase := Ended)]
      ensures s'.log == s.log +
        (if outcome.Returns?
         then [Success(Key(executionId, op.fingerprint), s.executions[executionId].project, outcome.result)] else [])
      ensures s'.late == s.late
      ensures s'.overdue == if outcome.TimesOut? then s.overdue + {Key(executionId, op.fingerprint)} else s.overdue
    {
      hide Reaches, ApplyReport, Table.Valid, TableAfter, ToldTo;
      var fp, k := op.fingerprint, Key(executionId, op.fingerprint);
      match outcome {
        case Returns(result, receipt) =>
          ReportArrives(service.table, s.mail, k, Commit(result, receipt), outcome);
          s' := Go(start, s, Protocol.Event.Return(executionId, result, receipt));
          if delivered {
            var _ := service.CommitSideEffect(executionId, fp, result, receipt);
            s' := Go(start, s', DeliverReport(k));
          }
        case Throws(message, asUnknown) =>
          if asUnknown {
            ReportArrives(service.table, s.mail, k, Unknown("Operation failed: " + message), outcome);
            s' := Go(start, s, Throw(executionId, Unknown("Operation failed: " + message)));
            if delivered {
              var _ := service.MarkUnknown(executionId, fp, "Operation failed: " + message);
              s' := Go(start, s', DeliverReport(k));
            }
          } else {
            ReportArrives(service.table, s.mail, k, Fail(message, Null), outcome);
            s' := Go(start, s, Throw(executionId, Fail(message, Null)));
            if delivered {
              var _ := service.MarkFailed(executionId, fp, message, Null);
              s' := Go(start, s', DeliverReport(k));
            }
          }
        case TimesOut(reason) =>
          ReportArrives(service.table, s.mail, k, Unknown(reason), outcome);
          s' := Go(start, s, TimeOut(executionId, reason));
          if delivered {
            var _ := service.MarkUnknown(executionId, fp, reason);
            s' := Go(start, s', DeliverReport(k));
          }
      }
    }
  }

  lemma HeardIfAnswered(t: Table, executions: map<Id, Execution>, e: Id, op: Operation, fates: seq<Fate>)
    requires t.Valid()
    ensures HeardAnswer(t, executions, e, op, fates).Some? <==> IsHeard(fates)
  {
  }

  lemma ReportArrives(t: Table, mail: map<Key, Report>, k: Key, report: Report, outcome: Outcome)
    requires k in t.rows && Tells(report, outcome)
    ensures ToldTo(t, mail, ApplyReport(t, k, report), mail[k := report] - {k}, k, outcome, true)
    ensures ToldTo(t, mail, t, mail[k := report], k, outcome, false)
  {
    ReportWrites(t, k, report);
    hide ApplyReport;
    assert mail[k := report] - {k} == mail - {k};
    assert t.rows[k := t.rows[k]] == t.rows;
    var rows := ApplyReport(t, k, report).rows;
    assert t.rows[k := rows[k]] == rows;
  }

  /** An operation is started with a row of its own, which is EXECUTING unless it was there before. */
  lemma StartedRow(t: Table, executions: map<Id, Execution>, e: Id, op: Operation, fates: seq<Fate>)
    requires t.Valid() && HeardAnswer(t, executions, e, op, fates) == Some(Execute)
    ensures var k, begun := Key(e, op.fingerprint), ServedTimes(t, executions, e, op, Unheard(fates) + 1);
      k in begun.rows && (k !in t.rows ==> begun.rows[k].status == EXECUTING)
  {
    hide BeginSideEffect;
    AnsweredRow(ServedTimes(t, executions, e, op, Unheard(fates)), executions, e, op);
    if Key(e, op.fingerprint) !in t.rows && Unheard(fates) >= 1 { RepeatedCallIsTold(t, executions, e, op, fates); }
  }

  lemma OneAttempt(fates: seq<Fate>, i: nat)
    requires i < |fates|
    ensures var rest := fates[i..];
      && Unheard(rest) == (if fates[i].Answered? then 0
                           else (if fates[i].AnswerLost? then 1 else 0) + Unheard(fates[i + 1..]))
      && (IsHeard(rest) <==> fates[i].Answered? || IsHeard(fates[i + 1..]))
  {
    var rest, tail := fates[i..], fates[i + 1..];
    assert rest[1..] == tail;
    if j :| 0 <= j < |tail| && tail[j].Answered? { assert rest[j + 1].Answered?; }
    if j :| 0 < j < |rest| && rest[j].Answered? { assert tail[j - 1].Answered?; }
    if fates[i].Answered? { assert rest[0].Answered?; }
  }

  /** What a call gets if its request was served before without being heard, and nothing else was
      served in between: never the operation anew. What was granted and lost comes back as a value
      that nobody computed, a conflict or a replay as an error. With other services in between the
      answer is the one of Guarantees.ServedRequestIsTold. */
  lemma RepeatedCallIsTold(t: Table, executions: map<Id, Execution>, e: Id, op: Operation, fates: seq<Fate>)
    requires t.Valid() && IsHeard(fates) && Unheard(fates) >= 1 && Key(e, op.fingerprint) !in t.rows
    ensures HeardAnswer(t, executions, e, op, fates) != Some(Execute)
    ensures Told(HeardAnswer(t, executions, e, op, fates)) ==
      if BeginSideEffect(t, executions, e, op).1.Execute? then Value(RaceNote) else Raised(BeginFailed)
  {
    hide BeginSideEffect, ServedTimes;
    AnswerOnRepeat(t, executions, e, op, Unheard(fates));
  }
}
