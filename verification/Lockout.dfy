/** AuthService: login with its failure counter, timed lockout and security log. */
module Lockout {
  import opened Options

  const MAX_FAILED_ATTEMPTS := 5
  const LOCKOUT_DURATION := 900000 // 15 minutes, in milliseconds

  /** The length of n lockouts. */
  function Lockouts(n: int): (length: int)
    ensures n == 1 ==> length == LOCKOUT_DURATION
  {
    900000 * n
  }

  /** Security log entries; only their kind matters here. */
  datatype Entry = LoginFailed | AccountLocked | LoginSuccess

  datatype Security = Security(failed: nat, lockedUntil: Option<int>, logs: seq<Entry>)

  const Fresh := Security(0, None, [])

  /** What the password check and the later steps of login will say. A user without a stored hash counts as
      a failure; a failing device registration throws before the counter is reset. */
  datatype Attempt = WrongPassword | NoStoredHash | DeviceRejected | Correct

  datatype Result = Locked | InvalidCredentials | DeviceError | LoggedIn
  datatype Outcome = Outcome(security: Security, result: Result)

  predicate IsAccountLocked(s: Security, now: int) {
    s.lockedUntil.Some? && now < s.lockedUntil.value
  }

  function HandleFailedLogin(s: Security, now: int): Security {
    var failed := s.failed + 1;
    if failed >= MAX_FAILED_ATTEMPTS
    then Security(failed, Some(now + LOCKOUT_DURATION), s.logs + [LoginFailed, AccountLocked])
    else Security(failed, s.lockedUntil, s.logs + [LoginFailed])
  }

  function HandleSuccessfulLogin(s: Security): Security {
    if s.failed > 0 then Security(0, None, s.logs + [LoginSuccess]) else s
  }

  function Login(s: Security, now: int, attempt: Attempt): Outcome {
    if IsAccountLocked(s, now) then Outcome(s, Locked)
    else match attempt
      case WrongPassword => Outcome(HandleFailedLogin(s, now), InvalidCredentials)
      case NoStoredHash => Outcome(HandleFailedLogin(s, now), InvalidCredentials)
      case DeviceRejected => Outcome(s, DeviceError)
      case Correct => Outcome(HandleSuccessfulLogin(s), LoggedIn)
  }

  // ---------------------------------------------------------------- runs

  datatype Timed = Timed(at: int, attempt: Attempt)

  predicate Ascending(from: int, run: seq<Timed>)
    decreases |run|
  {
    run != [] ==> from <= run[0].at && Ascending(run[0].at, run[1..])
  }

  function After(s: Security, run: seq<Timed>): Security
    decreases |run|
  {
    if run == [] then s else After(Login(s, run[0].at, run[0].attempt).security, run[1..])
  }

  /** Password checks of the run that were carried out and failed. */
  function Failures(s: Security, run: seq<Timed>): nat
    decreases |run|
  {
    if run == [] then 0
    else (if Login(s, run[0].at, run[0].attempt).result == InvalidCredentials then 1 else 0)
         + Failures(Login(s, run[0].at, run[0].attempt).security, run[1..])
  }

  predicate NoSuccess(s: Security, run: seq<Timed>)
    decreases |run|
  {
    run != [] ==>
      Login(s, run[0].at, run[0].attempt).result != LoggedIn
      && NoSuccess(Login(s, run[0].at, run[0].attempt).security, run[1..])
  }

  // ---------------------------------------------------------------- the log tells the counter

  /** Failed logins logged since the last logged success. */
  function FailuresLogged(logs: seq<Entry>): nat {
    if logs == [] then 0
    else match logs[|logs|-1]
      case LoginSuccess => 0
      case LoginFailed => FailuresLogged(logs[..|logs|-1]) + 1
      case AccountLocked => FailuresLogged(logs[..|logs|-1])
  }

  /** Locks logged since the last logged success. */
  function LocksLogged(logs: seq<Entry>): nat {
    if logs == [] then 0
    else match logs[|logs|-1]
      case LoginSuccess => 0
      case LoginFailed => LocksLogged(logs[..|logs|-1])
      case AccountLocked => LocksLogged(logs[..|logs|-1]) + 1
  }

  /** The counter is what the log says, every failure from the fifth on is logged as a lock, and the account
      carries a lock time iff it has failed five times. */
  predicate Consistent(s: Security) {
    && s.failed == FailuresLogged(s.logs)
    && LocksLogged(s.logs) == (if s.failed >= MAX_FAILED_ATTEMPTS then s.failed - (MAX_FAILED_ATTEMPTS - 1) else 0)
    && (s.lockedUntil.Some? <==> s.failed >= MAX_FAILED_ATTEMPTS)
  }

  lemma LogAppend(logs: seq<Entry>, e: Entry)
    ensures FailuresLogged(logs + [e]) == match e
                                          case LoginSuccess => 0
                                          case LoginFailed => FailuresLogged(logs) + 1
                                          case AccountLocked => FailuresLogged(logs)
    ensures LocksLogged(logs + [e]) == match e
                                       case LoginSuccess => 0
                                       case LoginFailed => LocksLogged(logs)
                                       case AccountLocked => LocksLogged(logs) + 1
  {}

  lemma FailureConsistent(s: Security, now: int)
    requires Consistent(s)
    ensures Consistent(HandleFailedLogin(s, now))
  {
    var failed := s.logs + [LoginFailed];
    LogAppend(s.logs, LoginFailed);
    LogAppend(failed, AccountLocked);
    assert failed + [AccountLocked] == s.logs + [LoginFailed, AccountLocked];
  }

  lemma SuccessConsistent(s: Security)
    requires Consistent(s)
    ensures Consistent(HandleSuccessfulLogin(s))
  {
    LogAppend(s.logs, LoginSuccess);
  }

  lemma LoginConsistent(s: Security, now: int, attempt: Attempt)
    requires Consistent(s)
    ensures Consistent(Login(s, now, attempt).security)
  {
    FailureConsistent(s, now);
    SuccessConsistent(s);
  }

  /** In every run, successes included, counter, lock time and log agree. */
  lemma {:induction false} RunConsistent(s: Security, run: seq<Timed>)
    requires Consistent(s)
    ensures Consistent(After(s, run))
    decreases |run|
  {
    if run != [] {
      LoginConsistent(s, run[0].at, run[0].attempt);
      RunConsistent(Login(s, run[0].at, run[0].attempt).security, run[1..]);
    }
  }

  /** Without a success the counter grows by exactly the processed failures. */
  lemma {:induction false} CounterCountsFailures(s: Security, run: seq<Timed>)
    requires NoSuccess(s, run)
    ensures After(s, run).failed == s.failed + Failures(s, run)
    decreases |run|
  {
    if run != [] { CounterCountsFailures(Login(s, run[0].at, run[0].attempt).security, run[1..]); }
  }

  // ---------------------------------------------------------------- the lockout bound

  /** The failures left before the first lock; at least the one that an expired lock lets through. */
  function Allowance(s: Security): nat {
    if s.failed < MAX_FAILED_ATTEMPTS then MAX_FAILED_ATTEMPTS - s.failed else 1
  }

  /** A locked account at lock time `until` fails at most once per lockout after it. */
  lemma {:induction false} LockedBound(s: Security, from: int, run: seq<Timed>, last: int)
    requires Consistent(s) && s.lockedUntil.Some? && Ascending(from, run) && NoSuccess(s, run)
    requires forall x :: x in run ==> x.at <= last
    ensures Failures(s, run) > 0 ==>
              s.lockedUntil.value <= last && from <= last
              && Lockouts(Failures(s, run) - 1)
                 <= last - (if s.lockedUntil.value > from then s.lockedUntil.value else from)
    decreases |run|
  {
    if run != [] {
      var t := Login(s, run[0].at, run[0].attempt).security;
      assert run[0] in run && forall x :: x in run[1..] ==> x in run;
      LoginConsistent(s, run[0].at, run[0].attempt);
      LockedBound(t, run[0].at, run[1..], last);
    }
  }

  /** From any consistent state, n failures without a success take at least (n - allowance) lockouts. */
  lemma {:induction false} FailureBound(s: Security, from: int, run: seq<Timed>, last: int)
    requires Consistent(s) && Ascending(from, run) && NoSuccess(s, run) && from <= last
    requires forall x :: x in run ==> x.at <= last
    ensures Lockouts(Failures(s, run)) <= Lockouts(Allowance(s)) + (last - from)
    decreases |run|
  {
    if s.lockedUntil.Some? {
      LockedBound(s, from, run, last);
    } else if run != [] {
      var t := Login(s, run[0].at, run[0].attempt).security;
      assert run[0] in run && forall x :: x in run[1..] ==> x in run;
      LoginConsistent(s, run[0].at, run[0].attempt);
      if t.lockedUntil.Some? {
        LockedBound(t, run[0].at, run[1..], last);
      } else {
        FailureBound(t, run[0].at, run[1..], last);
      }
    }
  }

  /** Main result: in any stretch without a success, wherever in a run it starts, the number n of failed
      password checks and the time T it spans satisfy n <= 5 + T / 15 min. */
  lemma {:induction false} LockoutBound(before: seq<Timed>, run: seq<Timed>)
    requires run != [] && Ascending(run[0].at, run) && NoSuccess(After(Fresh, before), run)
    ensures var t := run[|run|-1].at - run[0].at;
            t >= 0 && Lockouts(Failures(After(Fresh, before), run)) <= Lockouts(MAX_FAILED_ATTEMPTS) + t
  {
    RunConsistent(Fresh, before);
    LastIsLatest(run[0].at, run);
    assert run[|run|-1] in run;
    FailureBound(After(Fresh, before), run[0].at, run, run[|run|-1].at);
  }

  lemma {:induction false} LastIsLatest(from: int, run: seq<Timed>)
    requires run != [] && Ascending(from, run)
    ensures from <= run[|run|-1].at
    ensures forall x :: x in run ==> x.at <= run[|run|-1].at
    decreases |run|
  {
    if |run| > 1 {
      LastIsLatest(run[0].at, run[1..]);
      assert run == [run[0]] + run[1..];
    }
  }

  /** One wrong password each time the lock runs out, k times. */
  function Later(at: int, k: nat): seq<Timed>
    decreases k
  {
    if k == 0 then [] else [Timed(at + LOCKOUT_DURATION, WrongPassword)] + Later(at + LOCKOUT_DURATION, k - 1)
  }

  /** A burst of j wrong passwords at time 0, then k later ones. */
  function Guesses(j: nat, k: nat): seq<Timed>
    decreases j
  {
    if j == 0 then Later(0, k) else [Timed(0, WrongPassword)] + Guesses(j - 1, k)
  }

  lemma {:induction false} TightTail(s: Security, at: int, k: nat)
    requires s.failed >= MAX_FAILED_ATTEMPTS && s.lockedUntil == Some(at + LOCKOUT_DURATION)
    ensures Ascending(at, Later(at, k)) && NoSuccess(s, Later(at, k)) && Failures(s, Later(at, k)) == k
    ensures |Later(at, k)| == k && (k > 0 ==> Later(at, k)[k-1].at == at + Lockouts(k))
    decreases k
  {
    if k > 0 {
      var next := at + LOCKOUT_DURATION;
      assert Later(at, k)[1..] == Later(next, k - 1);
      TightTail(HandleFailedLogin(s, next), next, k - 1);
    }
  }

  lemma {:induction false} TightBurst(s: Security, j: nat, k: nat)
    requires 1 <= j && s.failed + j == MAX_FAILED_ATTEMPTS && s.lockedUntil == None
    ensures var run := Guesses(j, k);
            && |run| == j + k && Ascending(0, run) && NoSuccess(s, run) && Failures(s, run) == j + k
            && run[0].at == 0 && run[|run|-1].at == Lockouts(k)
    decreases j
  {
    var t, rest := HandleFailedLogin(s, 0), Guesses(j - 1, k);
    assert Guesses(j, k)[1..] == rest;
    if j == 1 {
      TightTail(t, 0, k);
    } else {
      TightBurst(t, j - 1, k);
    }
  }

  /** The bound is tight: five wrong passwords at once, then one each time the lock runs out. */
  lemma {:induction false} BoundIsTight(k: nat)
    ensures var run := Guesses(MAX_FAILED_ATTEMPTS, k);
            && run != [] && Ascending(0, run) && NoSuccess(Fresh, run)
            && Failures(Fresh, run) == MAX_FAILED_ATTEMPTS + k
            && run[|run|-1].at - run[0].at == Lockouts(k)
  {
    TightBurst(Fresh, MAX_FAILED_ATTEMPTS, k);
  }

  // ---------------------------------------------------------------- what a login answers

  /** A correct password logs in exactly when no lock time lies ahead; a lock hides every other answer; a rejected
      device changes nothing and does not log in; only the two failing answers of the password check count. */
  lemma LoginAnswers(s: Security, now: int, attempt: Attempt)
    ensures var locked := s.lockedUntil.Some? && now < s.lockedUntil.value;
            var r := Login(s, now, attempt);
            && (r.result == Locked <==> locked)
            && (r.result == LoggedIn <==> attempt == Correct && !locked)
            && (r.result == InvalidCredentials <==> (attempt == WrongPassword || attempt == NoStoredHash) && !locked)
            && (r.result == DeviceError <==> attempt == DeviceRejected && !locked)
            && (r.result == Locked || r.result == DeviceError ==> r.security == s)
            && (r.result == InvalidCredentials ==> r.security.failed == s.failed + 1)
            && (r.result == LoggedIn ==> r.security.failed == 0)
  {}

  /** Every failure is logged, every success that cleared a failure too, and nothing else. */
  lemma LoginLogs(s: Security, now: int, attempt: Attempt)
    ensures var r := Login(s, now, attempt);
            && (r.result == InvalidCredentials ==>
                  r.security.logs == s.logs + if s.failed >= 4 then [LoginFailed, AccountLocked] else [LoginFailed])
            && (r.result == LoggedIn ==> r.security.logs == s.logs + if s.failed > 0 then [LoginSuccess] else [])
            && (r.result in {Locked, DeviceError} ==> r.security.logs == s.logs)
  {}

  /** In every run a success clears the counter and the lock time. */
  lemma SuccessClears(before: seq<Timed>, now: int)
    requires Login(After(Fresh, before), now, Correct).result == LoggedIn
    ensures var s := Login(After(Fresh, before), now, Correct).security; s.failed == 0 && s.lockedUntil == None
  {
    RunConsistent(Fresh, before);
    LoginConsistent(After(Fresh, before), now, Correct);
  }

  predicate AllWrong(run: seq<Timed>) {
    forall x <- run :: x.attempt == WrongPassword || x.attempt == NoStoredHash
  }

  lemma {:induction false} WrongsCount(s: Security, run: seq<Timed>)
    requires s.lockedUntil == None && s.failed + |run| <= 5 && AllWrong(run)
    ensures After(s, run).failed == s.failed + |run|
    ensures s.failed + |run| < 5 ==> After(s, run).lockedUntil == None
    ensures s.failed + |run| == 5 && run != [] ==> After(s, run).lockedUntil == Some(run[|run|-1].at + 900000)
    decreases |run|
  {
    if run != [] {
      assert run[0] in run && forall x :: x in run[1..] ==> x in run;
      var t := Login(s, run[0].at, run[0].attempt).security;
      if |run| == 1 {
        assert run[1..] == [] && After(s, run) == After(t, []);
      } else {
        WrongsCount(t, run[1..]);
      }
    }
  }

  /** After a success, wherever in a run, the account takes four wrong passwords without a lock; the fifth locks it
      against every attempt until exactly 15 minutes later. */
  lemma FifthWrongLocks(before: seq<Timed>, now: int, run: seq<Timed>, later: int, attempt: Attempt)
    requires Login(After(Fresh, before), now, Correct).result == LoggedIn
    requires AllWrong(run) && |run| <= 5
    ensures var s := After(Login(After(Fresh, before), now, Correct).security, run);
            && s.failed == |run|
            && (|run| <= 4 ==> s.lockedUntil == None && Login(s, later, attempt).result != Locked)
            && (|run| == 5 ==> (Login(s, later, attempt).result == Locked <==> later < run[4].at + 900000))
  {
    SuccessClears(before, now);
    WrongsCount(Login(After(Fresh, before), now, Correct).security, run);
  }

  // ---------------------------------------------------------------- the document, updated in place

  class UserSecurity {
    var failedLoginAttempts: nat
    var lockedUntil: Option<int>
    var securityLogs: seq<Entry>

    constructor ()
      ensures Document() == Fresh && Consistent(Document())
    {
      failedLoginAttempts, lockedUntil, securityLogs := 0, None, [];
    }

    function Document(): Security
      reads this
    {
      Security(failedLoginAttempts, lockedUntil, securityLogs)
    }

    method RecordFailure(now: int)
      modifies this
      ensures Document() == HandleFailedLogin(old(Document()), now)
    {
      failedLoginAttempts := failedLoginAttempts + 1;
      securityLogs := securityLogs + [LoginFailed];
      if failedLoginAttempts >= MAX_FAILED_ATTEMPTS {
        lockedUntil := Some(now + LOCKOUT_DURATION);
        securityLogs := securityLogs + [AccountLocked];
      }
    }

    method RecordSuccess()
      modifies this
      ensures Document() == HandleSuccessfulLogin(old(Document()))
    {
      if failedLoginAttempts > 0 {
        failedLoginAttempts := 0;
        lockedUntil := None;
        securityLogs := securityLogs + [LoginSuccess];
      }
    }

    method TryLogin(now: int, attempt: Attempt) returns (result: Result)
      modifies this
      ensures Outcome(Document(), result) == Login(old(Document()), now, attempt)
      ensures old(Consistent(Document())) ==> Consistent(Document())
      ensures result == LoggedIn <==> attempt == Correct && !(old(lockedUntil).Some? && now < old(lockedUntil).value)
      ensures result == LoggedIn ==> failedLoginAttempts == 0
    {
      ghost var before := Document();
      if lockedUntil.Some? && now < lockedUntil.value {
        return Locked;
      }
      if attempt.WrongPassword? || attempt.NoStoredHash? {
        RecordFailure(now);
        result := InvalidCredentials;
      } else if attempt.DeviceRejected? {
        result := DeviceError;
      } else {
        RecordSuccess();
        result := LoggedIn;
      }
      if Consistent(before) { LoginConsistent(before, now, attempt); }
    }
  }
}
