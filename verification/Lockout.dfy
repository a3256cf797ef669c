/** The lockout of accounts after failed sign-ins. */
module Lockout {
  import opened Values
  import opened SlidingWindow

  const MAX_FAILED_ATTEMPTS := 10
  const LOCKOUT_DURATION_MS := 15 * 60 * 1000

  datatype User = User(failedAttempts: nat, lockedUntil: Option<int>, hasPassword: bool)

  datatype Response = TooManyRequests(minutes: int) | Unauthorized | SignedIn

  function Fresh(hasPassword: bool): User { User(0, None, hasPassword) }

  function RemainingMinutes(ms: int): int { (ms + 59_999) / 60_000 }

  /** One sign-in request of an account: the lock is looked at when it comes in, the outcome
      is written once the password has been compared. */
  datatype Request = Request(valid: bool, checkedAt: int, recordedAt: int)

  predicate Locked(u: User, now: int) { u.lockedUntil.Some? && u.lockedUntil.value > now }

  function Checked(u: User, now: int): User {
    if u.lockedUntil.Some? && u.lockedUntil.value <= now
    then u.(failedAttempts := 0, lockedUntil := None) else u
  }

  function Failed(u: User, now: int): User {
    var attempts := u.failedAttempts + 1;
    u.(failedAttempts := attempts,
       lockedUntil := if attempts >= MAX_FAILED_ATTEMPTS then Some(now + LOCKOUT_DURATION_MS) else None)
  }

  function Handle(u: User, q: Request): (User, Response) {
    if Locked(u, q.checkedAt) then (u, TooManyRequests(RemainingMinutes(u.lockedUntil.value - q.checkedAt)))
    else
      var open := Checked(u, q.checkedAt);
      if !u.hasPassword || !q.valid then (Failed(open, q.recordedAt), Unauthorized)
      else (open.(failedAttempts := 0, lockedUntil := None), SignedIn)
  }

  class AuthRouter {
    var users: map<string, User>

    constructor ()
      ensures users == map[]
    {
      users := map[];
    }

    /** The minutes for which the account stays locked; an expired lock is removed. */
    method CheckLockout(email: string, now: int) returns (locked: Option<int>)
      modifies this
      ensures email !in old(users) ==> users == old(users) && locked.None?
      ensures email in old(users) ==>
        && users == old(users)[email := if Locked(old(users)[email], now) then old(users)[email]
                                        else Checked(old(users)[email], now)]
        && locked == if Locked(old(users)[email], now)
                     then Some(RemainingMinutes(old(users)[email].lockedUntil.value - now)) else None
    {
      if email !in users {
        return None;
      }
      var user := users[email];
      if user.lockedUntil.Some? && user.lockedUntil.value > now {
        assert users[email := user] == users;
        return Some(RemainingMinutes(user.lockedUntil.value - now));
      }
      if user.lockedUntil.Some? && user.lockedUntil.value <= now {
        user := user.(failedAttempts := 0, lockedUntil := None);
      }
      users := users[email := user];
      return None;
    }

    method RecordFailedAttempt(email: string, now: int)
      modifies this
      ensures users == if email in old(users) then old(users)[email := Failed(old(users)[email], now)] else old(users)
    {
      if email !in users {
        return;
      }
      var newAttempts := users[email].failedAttempts + 1;
      var lockedUntil := None;
      if newAttempts >= MAX_FAILED_ATTEMPTS {
        lockedUntil := Some(now + LOCKOUT_DURATION_MS);
      }
      users := users[email := users[email].(failedAttempts := newAttempts, lockedUntil := lockedUntil)];
    }

    method ClearLockout(email: string)
      modifies this
      ensures users == if email in old(users)
                       then old(users)[email := old(users)[email].(failedAttempts := 0, lockedUntil := None)]
                       else old(users)
    {
      if email in users {
        users := users[email := users[email].(failedAttempts := 0, lockedUntil := None)];
      }
    }

    /** POST /signin for a normalised email. */
    method SignIn(email: string, q: Request) returns (response: Response)
      modifies this
      ensures email !in old(users) ==> users == old(users) && response == Unauthorized
      ensures email in old(users) ==>
        (users, response) == (old(users)[email := Handle(old(users)[email], q).0], Handle(old(users)[email], q).1)
    {
      ghost var before := users;
      var locked := CheckLockout(email, q.checkedAt);
      if locked.Some? {
        return TooManyRequests(locked.value);
      }
      if email !in users || !users[email].hasPassword {
        RecordFailedAttempt(email, q.recordedAt);
        assert email in users ==> users == before[email := users[email]];
        return Unauthorized;
      }
      if !q.valid {
        RecordFailedAttempt(email, q.recordedAt);
        assert email in users ==> users == before[email := users[email]];
        return Unauthorized;
      }
      ClearLockout(email);
      assert users == before[email := users[email]];
      return SignedIn;
    }
  }

  // ---------------------------------------------------------------- runs

  /** The requests of one account, one after the other. */
  ghost predicate Sequential(qs: seq<Request>) {
    && (forall i | 0 <= i < |qs| :: qs[i].checkedAt <= qs[i].recordedAt)
    && (forall i, j | 0 <= i < j < |qs| :: qs[i].recordedAt <= qs[j].checkedAt)
  }

  function Run(hasPassword: bool, qs: seq<Request>): User {
    if qs == [] then Fresh(hasPassword) else Handle(Run(hasPassword, qs[..|qs| - 1]), qs[|qs| - 1]).0
  }

  function ResponseTo(hasPassword: bool, qs: seq<Request>, i: nat): Response
    requires i < |qs|
  {
    Handle(Run(hasPassword, qs[..i]), qs[i]).1
  }

  /** When password checks failed. */
  function Failures(hasPassword: bool, qs: seq<Request>): seq<int> {
    if qs == [] then []
    else
      var n := |qs| - 1;
      var earlier := Failures(hasPassword, qs[..n]);
      if ResponseTo(hasPassword, qs, n).Unauthorized? then earlier + [qs[n].recordedAt] else earlier
  }

  /** The failures since the last success. */
  function Pending(hasPassword: bool, qs: seq<Request>): seq<int> {
    if qs == [] then []
    else
      var n := |qs| - 1;
      var earlier := Pending(hasPassword, qs[..n]);
      match ResponseTo(hasPassword, qs, n)
      case Unauthorized => earlier + [qs[n].recordedAt]
      case SignedIn => []
      case TooManyRequests(_) => earlier
  }

  // ---------------------------------------------------------------- the counter

  /** The counter stands for the last failures, and those before them are a lockout away
      from them and from now. */
  ghost predicate Consistent(u: User, times: seq<int>, now: int) {
    var n := u.failedAttempts;
    && n <= MAX_FAILED_ATTEMPTS && n <= |times|
    && u.lockedUntil == (if n == MAX_FAILED_ATTEMPTS then Some(times[|times| - 1] + LOCKOUT_DURATION_MS) else None)
    && Ordered(times) && (forall i | 0 <= i < |times| :: times[i] <= now)
    && (forall i | 0 <= i < |times| - n :: times[i] + LOCKOUT_DURATION_MS <= now)
    && (forall i, j | 0 <= i < |times| - n <= j < |times| :: times[i] + LOCKOUT_DURATION_MS <= times[j])
    && Spaced(times, MAX_FAILED_ATTEMPTS, LOCKOUT_DURATION_MS)
  }

  lemma FailureKeepsConsistent(u: User, times: seq<int>, now: int, at: int)
    requires Consistent(u, times, now) && now <= at && u.lockedUntil.None?
    ensures Consistent(Failed(u, at), times + [at], at)
  {
  }

  lemma CheckKeepsConsistent(u: User, times: seq<int>, now: int, at: int)
    requires Consistent(u, times, now) && now <= at && !Locked(u, at)
    ensures Consistent(Checked(u, at), times, at) && Checked(u, at).lockedUntil.None?
  {
  }

  lemma {:induction false} RunConsistent(hasPassword: bool, qs: seq<Request>)
    requires Sequential(qs)
    ensures qs == [] ==> Run(hasPassword, qs) == Fresh(hasPassword)
    ensures qs != [] ==> Consistent(Run(hasPassword, qs), Pending(hasPassword, qs), qs[|qs| - 1].recordedAt)
  {
    hide Consistent;
    if qs != [] {
      var n := |qs| - 1;
      var rest, q := qs[..n], qs[n];
      var u, times := Run(hasPassword, rest), Pending(hasPassword, rest);
      RunConsistent(hasPassword, rest);
      var before := if n == 0 then q.checkedAt else qs[n - 1].recordedAt;
      if n == 0 { FreshConsistent(hasPassword, before); }
      if Locked(u, q.checkedAt) {
        Later(u, times, before, q.recordedAt);
      } else {
        CheckKeepsConsistent(u, times, before, q.checkedAt);
        var open := Checked(u, q.checkedAt);
        Later(open, times, q.checkedAt, q.recordedAt);
        if !u.hasPassword || !q.valid {
          FailureKeepsConsistent(open, times, q.recordedAt, q.recordedAt);
        } else {
          FreshConsistent(u.hasPassword, q.recordedAt);
        }
      }
    }
  }

  lemma FreshConsistent(hasPassword: bool, now: int)
    ensures Consistent(Fresh(hasPassword), [], now)
  {
  }

  lemma Later(u: User, times: seq<int>, now: int, now': int)
    requires Consistent(u, times, now) && now <= now'
    ensures Consistent(u, times, now')
  {
  }

  /** The counter never exceeds ten, and is ten exactly while a lock is recorded; the lock
      ends a lockout after the last failure. */
  lemma LockedExactlyAtTen(hasPassword: bool, qs: seq<Request>)
    requires Sequential(qs)
    ensures var u, times := Run(hasPassword, qs), Pending(hasPassword, qs);
      && u.failedAttempts <= MAX_FAILED_ATTEMPTS && u.failedAttempts <= |times|
      && (u.lockedUntil.Some? <==> u.failedAttempts == MAX_FAILED_ATTEMPTS)
      && (u.lockedUntil.Some? ==> u.lockedUntil.value == times[|times| - 1] + LOCKOUT_DURATION_MS)
  {
    RunConsistent(hasPassword, qs);
  }

  // ---------------------------------------------------------------- every reply

  /** The counter starts again after every ten failures. */
  function RoundOf(failures: nat): nat {
    if failures == 0 then 0 else (failures - 1) % 10 + 1
  }

  lemma {:induction false} CounterIsRound(hasPassword: bool, qs: seq<Request>)
    requires Sequential(qs)
    ensures Run(hasPassword, qs).failedAttempts == RoundOf(|Pending(hasPassword, qs)|)
    ensures Run(hasPassword, qs).hasPassword == hasPassword
  {
    if qs != [] {
      var rest, q := qs[..|qs| - 1], qs[|qs| - 1];
      CounterIsRound(hasPassword, rest);
      LockedExactlyAtTen(hasPassword, rest);
      RoundThen(Run(hasPassword, rest), |Pending(hasPassword, rest)|, q);
      hide Handle, RoundOf;
    }
  }

  lemma RoundThen(u: User, failures: nat, q: Request)
    requires u.failedAttempts == RoundOf(failures) && (u.lockedUntil.Some? <==> u.failedAttempts == 10)
    ensures var (u', reply) := Handle(u, q);
      && u'.hasPassword == u.hasPassword
      && u'.failedAttempts ==
           RoundOf(match reply case Unauthorized => failures + 1 case SignedIn => 0 case _ => failures)
  {
    NextRound(failures);
    hide RoundOf;
    assert RoundOf(0) == 0 by { NoRound(); }
  }

  lemma NextRound(n: nat)
    ensures RoundOf(n + 1) == if RoundOf(n) == 10 then 1 else RoundOf(n) + 1
  {
  }

  lemma NoRound()
    ensures RoundOf(0) == 0
  {
  }

  /** A lock is running at `now`: the failures since the last success are ten, or twenty, and so
      on, and the last of them is less than a quarter of an hour ago. */
  predicate LockRuns(failures: seq<int>, now: int) {
    |failures| > 0 && |failures| % 10 == 0 && now - failures[|failures| - 1] < 900_000
  }

  /** The reply to every request of every sequential run, from the replies before it: it is turned
      away exactly while a lock is running, with the minutes that are left, rounded up; otherwise
      it signs in exactly with the right password of an account that has one. */
  lemma RepliesExactly(hasPassword: bool, qs: seq<Request>, i: nat)
    requires Sequential(qs) && i < |qs|
    ensures var failures, now, reply := Pending(hasPassword, qs[..i]), qs[i].checkedAt, ResponseTo(hasPassword, qs, i);
      && (reply.TooManyRequests? <==> LockRuns(failures, now))
      && (reply.TooManyRequests? ==>
            var left := failures[|failures| - 1] + 900_000 - now;
            (reply.minutes - 1) * 60_000 < left <= reply.minutes * 60_000)
      && (reply.SignedIn? <==> !LockRuns(failures, now) && hasPassword && qs[i].valid)
      && (reply.Unauthorized? <==> !LockRuns(failures, now) && !(hasPassword && qs[i].valid))
  {
    SequentialPrefix(qs, i);
    LockedExactlyAtTen(hasPassword, qs[..i]);
    CounterIsRound(hasPassword, qs[..i]);
    hide Run, Pending;
    RoundIsTen(|Pending(hasPassword, qs[..i])|);
  }

  lemma RoundIsTen(n: nat)
    ensures RoundOf(n) == 10 <==> n > 0 && n % 10 == 0
  {
  }

  lemma SequentialPrefix(qs: seq<Request>, i: nat)
    requires Sequential(qs) && i <= |qs|
    ensures Sequential(qs[..i])
  {
  }

  // ---------------------------------------------------------------- the rate of guesses

  lemma {:induction false} FailuresPast(hasPassword: bool, qs: seq<Request>)
    requires Sequential(qs)
    ensures qs != [] ==>
      forall i | 0 <= i < |Failures(hasPassword, qs)| :: Failures(hasPassword, qs)[i] <= qs[|qs| - 1].recordedAt
  {
    if qs != [] {
      var n := |qs| - 1;
      FailuresPast(hasPassword, qs[..n]);
      assert n > 0 ==> qs[n - 1].recordedAt <= qs[n].checkedAt <= qs[n].recordedAt;
      assert n == 0 ==> Failures(hasPassword, qs[..n]) == [];
    }
  }

  ghost predicate NoSuccessIn(hasPassword: bool, qs: seq<Request>, lo: int, hi: int) {
    forall i | 0 <= i < |qs| && ResponseTo(hasPassword, qs, i).SignedIn? :: !(lo <= qs[i].recordedAt < hi)
  }

  lemma NoSuccessBefore(hasPassword: bool, qs: seq<Request>, lo: int, hi: int)
    requires qs != [] && NoSuccessIn(hasPassword, qs, lo, hi)
    ensures NoSuccessIn(hasPassword, qs[..|qs| - 1], lo, hi)
  {
    var rest := qs[..|qs| - 1];
    forall i | 0 <= i < |rest| ensures ResponseTo(hasPassword, rest, i) == ResponseTo(hasPassword, qs, i) {
      assert rest[..i] == qs[..i];
    }
  }

  /** Up to the end of a window without success, its failures are all pending. */
  lemma {:induction false} WindowIsPending(hasPassword: bool, qs: seq<Request>, lo: int, hi: int)
    requires Sequential(qs) && NoSuccessIn(hasPassword, qs, lo, hi)
    requires qs != [] ==> qs[|qs| - 1].recordedAt < hi
    ensures Count(Failures(hasPassword, qs), lo, hi) == Count(Pending(hasPassword, qs), lo, hi)
  {
    hide Count, ResponseTo;
    if qs != [] {
      var n := |qs| - 1;
      var failures, pending := Failures(hasPassword, qs[..n]), Pending(hasPassword, qs[..n]);
      NoSuccessBefore(hasPassword, qs, lo, hi);
      WindowIsPending(hasPassword, qs[..n], lo, hi);
      match ResponseTo(hasPassword, qs, n) {
        case SignedIn =>
          FailuresPast(hasPassword, qs);
          CountAtMost(Failures(hasPassword, qs), lo, hi, |Failures(hasPassword, qs)|);
          CountAtMost([], lo, hi, 0);
        case Unauthorized =>
          CountAppend(failures, qs[n].recordedAt, lo, hi);
          CountAppend(pending, qs[n].recordedAt, lo, hi);
        case TooManyRequests(_) =>
      }
    }
  }

  /** No half-open quarter of an hour without a successful sign-in has more than ten failed
      password checks of one account. */
  lemma {:induction false} TenGuessesPerLockout(hasPassword: bool, qs: seq<Request>, lo: int)
    requires Sequential(qs) && NoSuccessIn(hasPassword, qs, lo, lo + LOCKOUT_DURATION_MS)
    ensures Count(Failures(hasPassword, qs), lo, lo + LOCKOUT_DURATION_MS) <= MAX_FAILED_ATTEMPTS
  {
    hide Handle;
    var hi := lo + LOCKOUT_DURATION_MS;
    if qs != [] {
      var n := |qs| - 1;
      if qs[n].recordedAt < hi {
        WindowIsPending(hasPassword, qs, lo, hi);
        RunConsistent(hasPassword, qs);
        SpacedExactly(Pending(hasPassword, qs), MAX_FAILED_ATTEMPTS, LOCKOUT_DURATION_MS);
      } else {
        NoSuccessBefore(hasPassword, qs, lo, hi);
        TenGuessesPerLockout(hasPassword, qs[..n], lo);
        CountAppend(Failures(hasPassword, qs[..n]), qs[n].recordedAt, lo, hi);
      }
    }
  }

  /** Eleven failures in a row without a success between them take a lockout or more. */
  lemma ElevenFailuresTakeALockout(hasPassword: bool, qs: seq<Request>, i: nat)
    requires Sequential(qs) && i + MAX_FAILED_ATTEMPTS < |Pending(hasPassword, qs)|
    ensures Pending(hasPassword, qs)[i + MAX_FAILED_ATTEMPTS] - Pending(hasPassword, qs)[i] >= LOCKOUT_DURATION_MS
  {
    RunConsistent(hasPassword, qs);
  }
}
