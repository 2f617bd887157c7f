/** The login limiter: five wrong passwords within fifteen minutes of the first block a client for
    another fifteen. Times are in nanoseconds, the resolution of the clock every call reads. */
module Limiter {
  import opened Wrappers

  type Time = int

  const WINDOW: Time := 15 * 60 * 1_000_000_000
  const LIMIT: nat := 5

  /** A loginAttempt; blockedUntil is None for Go's zero time. */
  datatype Attempt = Attempt(failures: nat, firstFailure: Time, blockedUntil: Option<Time>)

  type Table = map<string, Attempt>

  // ---------------------------------------------------------------- what the three operations do

  predicate Blocked(a: Attempt, now: Time) {
    a.blockedUntil.Some? && a.blockedUntil.value > now
  }

  predicate Expired(a: Attempt, now: Time) {
    now - a.firstFailure >= WINDOW
  }

  predicate Allows(t: Table, key: string, now: Time) {
    key in t ==> !Blocked(t[key], now)
  }

  function AfterAllow(t: Table, key: string, now: Time): Table {
    if key in t && !Blocked(t[key], now) && Expired(t[key], now) then t - {key} else t
  }

  function NextAttempt(a: Option<Attempt>, now: Time): Attempt {
    var base := if a.None? || Expired(a.value, now) then Attempt(0, now, None) else a.value;
    var failures := base.failures + 1;
    Attempt(failures, base.firstFailure, if failures >= LIMIT then Some(now + WINDOW) else base.blockedUntil)
  }

  function Lookup(t: Table, key: string): Option<Attempt> {
    if key in t then Some(t[key]) else None
  }

  function AfterFail(t: Table, key: string, now: Time): Table {
    t[key := NextAttempt(Lookup(t, key), now)]
  }

  // ---------------------------------------------------------------- one login

  /** What the handler finds once the limiter let the request through, and when it says so. */
  datatype Finding = Unreadable | StoreFailed | Wrong(at: Time) | Right(at: Time)

  datatype Login = Login(key: string, start: Time, finding: Finding)

  datatype Answer = TooMany | BadRequest | ServerError | Unauthorized | Welcome

  function AnswerTo(t: Table, l: Login): Answer {
    if !Allows(t, l.key, l.start) then TooMany
    else match l.finding
      case Unreadable => BadRequest
      case StoreFailed => ServerError
      case Wrong(_) => Unauthorized
      case Right(_) => Welcome
  }

  function AfterLogin(t: Table, l: Login): Table {
    var u := AfterAllow(t, l.key, l.start);
    match AnswerTo(t, l)
    case Unauthorized => AfterFail(u, l.key, l.finding.at)
    case Welcome => u - {l.key}
    case _ => u
  }

  class LoginLimiter {
    var attempts: Table

    constructor ()
      ensures attempts == map[]
    {
      attempts := map[];
    }

    method Allow(key: string, now: Time) returns (ok: bool)
      modifies this
      ensures ok == Allows(old(attempts), key, now)
      ensures attempts == AfterAllow(old(attempts), key, now)
    {
      if key !in attempts {
        return true;
      }
      var attempt := attempts[key];
      if attempt.blockedUntil.Some? && attempt.blockedUntil.value > now {
        return false;
      }
      if now - attempt.firstFailure >= WINDOW {
        attempts := attempts - {key};
      }
      return true;
    }

    method Fail(key: string, now: Time)
      modifies this
      ensures attempts == AfterFail(old(attempts), key, now)
    {
      var attempt := if key in attempts then attempts[key] else Attempt(0, now, None);
      if now - attempt.firstFailure >= WINDOW {
        attempt := Attempt(0, now, None);
      }
      attempt := attempt.(failures := attempt.failures + 1);
      if attempt.failures >= LIMIT {
        attempt := attempt.(blockedUntil := Some(now + WINDOW));
      }
      attempts := attempts[key := attempt];
    }

    method Clear(key: string)
      modifies this
      ensures attempts == old(attempts) - {key}
      ensures forall now :: Allows(attempts, key, now)
    {
      attempts := attempts - {key};
    }

    /** The limiter's part of the login handler: allow, then fail or clear. */
    method Serve(l: Login) returns (answer: Answer)
      modifies this
      ensures answer == AnswerTo(old(attempts), l)
      ensures attempts == AfterLogin(old(attempts), l)
    {
      var ok := Allow(l.key, l.start);
      if !ok {
        return TooMany;
      }
      match l.finding
      case Unreadable =>
        answer := BadRequest;
      case StoreFailed =>
        answer := ServerError;
      case Wrong(at) =>
        Fail(l.key, at);
        answer := Unauthorized;
      case Right(at) =>
        Clear(l.key);
        answer := Welcome;
    }
  }

  // ---------------------------------------------------------------- runs

  function EndOf(l: Login): Time {
    if l.finding.Wrong? || l.finding.Right? then l.finding.at else l.start
  }

  /** Logins one after the other against a clock that never goes back. */
  predicate Timed(steps: seq<Login>) {
    && (forall i :: 0 <= i < |steps| ==> steps[i].start <= EndOf(steps[i]))
    && (forall i, j :: 0 <= i < j < |steps| ==> EndOf(steps[i]) <= steps[j].start)
  }

  function Run(steps: seq<Login>): Table {
    if steps == [] then map[] else AfterLogin(Run(steps[..|steps| - 1]), steps[|steps| - 1])
  }

  function NextLog(t: Table, l: Login, log: seq<Time>): seq<Time> {
    match AnswerTo(t, l)
    case Unauthorized => log + [l.finding.at]
    case Welcome => []
    case _ => log
  }

  /** Times of the failures recorded for a key since its last successful login. */
  function Log(steps: seq<Login>, key: string): seq<Time> {
    if steps == [] then []
    else
      var before, l := steps[..|steps| - 1], steps[|steps| - 1];
      if l.key == key then NextLog(Run(before), l, Log(before, key)) else Log(before, key)
  }

  predicate Sorted(log: seq<Time>) {
    forall i, j :: 0 <= i <= j < |log| ==> log[i] <= log[j]
  }

  /** The ninth failure comes at least a window after the first. */
  predicate Spread(log: seq<Time>) {
    forall i, j :: 0 <= i < |log| && 0 <= j < |log| && j == i + 8 ==> log[j] >= log[i] + WINDOW
  }

  /** How an entry sits on the log: it covers the last failures, opened a full window after the
      failure four places before it, and blocks exactly at the fifth. */
  predicate Fits(entry: Option<Attempt>, log: seq<Time>, clock: Time) {
    var n := |log|;
    && Sorted(log) && Spread(log)
    && (forall i :: 0 <= i < n ==> log[i] <= clock)
    && match entry
       case None => n >= 4 ==> clock >= log[n - 4] + WINDOW
       case Some(a) =>
         && 1 <= a.failures <= LIMIT && a.failures <= n
         && a.firstFailure == log[n - a.failures]
         && a.blockedUntil == (if a.failures == LIMIT then Some(log[n - 1] + WINDOW) else None)
         && (n - a.failures >= 4 ==> a.firstFailure >= log[n - a.failures - 4] + WINDOW)
  }

  lemma FitsLater(entry: Option<Attempt>, log: seq<Time>, clock: Time, later: Time)
    requires Fits(entry, log, clock) && clock <= later
    ensures Fits(entry, log, later)
  {
  }

  lemma AllowFits(a: Attempt, log: seq<Time>, now: Time)
    requires Fits(Some(a), log, now) && !Blocked(a, now)
    ensures Expired(a, now) ==> Fits(None, log, now)
    ensures !Expired(a, now) ==> a.failures < LIMIT
  {
    var n := |log|;
    assert log[n - a.failures] <= log[n - 1];
    if a.failures < LIMIT && n >= 4 {
      assert log[n - 4] <= log[n - a.failures];
    }
  }

  lemma FailFits(entry: Option<Attempt>, log: seq<Time>, now: Time)
    requires Fits(entry, log, now) && (entry.Some? ==> entry.value.failures < LIMIT)
    ensures Fits(Some(NextAttempt(entry, now)), log + [now], now)
  {
    var next, more := NextAttempt(entry, now), log + [now];
    var n := |log|;
    var s := n + 1 - next.failures;
    if next.failures == 1 && n >= 4 {
      assert more[s] >= more[s - 4] + WINDOW by {
        if entry.Some? { assert log[n - 4] <= log[n - entry.value.failures]; }
      }
    }
    if n >= 8 {
      assert more[n - 8] <= more[s - 4];
      assert more[s] <= more[n];
    }
  }

  lemma LoginFits(t: Table, l: Login, log: seq<Time>)
    requires l.start <= EndOf(l) && Fits(Lookup(t, l.key), log, l.start)
    ensures Fits(Lookup(AfterLogin(t, l), l.key), NextLog(t, l, log), EndOf(l))
  {
    var entry := Lookup(t, l.key);
    if Allows(t, l.key, l.start) {
      if entry.Some? { AllowFits(entry.value, log, l.start); }
      var kept := Lookup(AfterAllow(t, l.key, l.start), l.key);
      assert Fits(kept, log, l.start) && (kept.Some? ==> kept.value.failures < LIMIT);
      assert Fits(None, [], EndOf(l));
      hide Fits;
      FitsLater(kept, log, l.start, EndOf(l));
      if l.finding.Wrong? { FailFits(kept, log, l.finding.at); }
    } else {
      FitsLater(entry, log, l.start, EndOf(l));
    }
  }

  lemma OtherKeysStay(t: Table, l: Login, key: string)
    requires l.key != key
    ensures Lookup(AfterLogin(t, l), key) == Lookup(t, key)
  {
  }

  lemma RunFits(steps: seq<Login>, key: string, clock: Time)
    requires Timed(steps) && (steps != [] ==> EndOf(steps[|steps| - 1]) <= clock)
    ensures Fits(Lookup(Run(steps), key), Log(steps, key), clock)
  {
    if steps != [] {
      var before, l := steps[..|steps| - 1], steps[|steps| - 1];
      RunFits(before, key, l.start);
      hide Fits, AfterLogin, NextLog, Lookup;
      if l.key == key {
        LoginFits(Run(before), l, Log(before, key));
        FitsLater(Lookup(Run(steps), key), Log(steps, key), EndOf(l), clock);
      } else {
        OtherKeysStay(Run(before), l, key);
        FitsLater(Lookup(Run(steps), key), Log(steps, key), l.start, clock);
      }
    }
  }

  // ---------------------------------------------------------------- the bounds

  /** Failures in the half-open interval [from, to). */
  function CountIn(log: seq<Time>, from: Time, to: Time): nat {
    if log == [] then 0
    else CountIn(log[..|log| - 1], from, to) + (if from <= log[|log| - 1] < to then 1 else 0)
  }

  lemma {:induction false} CountAtMost(log: seq<Time>, from: Time, to: Time, skip: nat)
    requires skip <= |log| && forall i :: 0 <= i < skip ==> log[i] < from
    ensures CountIn(log, from, to) <= |log| - skip
  {
    if log != [] {
      if skip < |log| {
        CountAtMost(log[..|log| - 1], from, to, skip);
      } else {
        CountAtMost(log[..|log| - 1], from, to, skip - 1);
      }
    }
  }

  lemma {:induction false} WindowHoldsEight(log: seq<Time>, from: Time)
    requires Sorted(log) && Spread(log)
    ensures CountIn(log, from, from + WINDOW) <= 8
  {
    if log != [] {
      var n := |log|;
      if from <= log[n - 1] < from + WINDOW {
        if n > 8 {
          assert log[n - 9] < from;
          CountAtMost(log, from, from + WINDOW, n - 8);
        } else {
          CountAtMost(log, from, from + WINDOW, 0);
        }
      } else {
        WindowHoldsEight(log[..n - 1], from);
      }
    }
  }

  /** In every run, no entry counts more than five failures and no fifteen minutes hold more than
      eight recorded failures of one key without a successful login between them. */
  lemma FailuresAreBounded(steps: seq<Login>, key: string, from: Time)
    requires Timed(steps)
    ensures key in Run(steps) ==> 1 <= Run(steps)[key].failures <= 5
    ensures CountIn(Log(steps, key), from, from + 900_000_000_000) <= 8
  {
    RunFits(steps, key, if steps == [] then 0 else EndOf(steps[|steps| - 1]));
    WindowHoldsEight(Log(steps, key), from);
  }

  lemma RefusedChangesNothing(t: Table, l: Login, log: seq<Time>)
    requires l.key in t && Blocked(t[l.key], l.start)
    ensures AnswerTo(t, l) == TooMany && AfterLogin(t, l) == t && NextLog(t, l, log) == log
  {
  }

  lemma {:induction false} BlockHolds(steps: seq<Login>, more: seq<Login>, key: string)
    requires key in Run(steps) && forall i :: 0 <= i < |more| ==> Blocked(Run(steps)[key], more[i].start)
    ensures forall i :: 0 <= i < |more| && more[i].key == key ==> AnswerTo(Run(steps + more[..i]), more[i]) == TooMany
    ensures Lookup(Run(steps + more), key) == Lookup(Run(steps), key) && Log(steps + more, key) == Log(steps, key)
  {
    if more == [] {
      assert steps + more == steps;
    } else {
      var most, l := more[..|more| - 1], more[|more| - 1];
      assert (steps + more)[..|steps + more| - 1] == steps + most;
      BlockHolds(steps, most, key);
      assert forall i :: 0 <= i < |most| ==> more[i] == most[i] && more[..i] == most[..i];
      hide AnswerTo, AfterLogin, NextLog, Blocked;
      if l.key == key {
        RefusedChangesNothing(Run(steps + most), l, Log(steps, key));
      } else {
        OtherKeysStay(Run(steps + most), l, key);
      }
    }
  }

  /** After a fifth failure every attempt in the next fifteen minutes is refused, whatever else
      happens in between, and none of them is recorded. */
  lemma FifthFailureLocksOut(steps: seq<Login>, more: seq<Login>, key: string)
    requires Timed(steps)
    requires key in Run(steps) && Run(steps)[key].failures == 5
    requires forall i :: 0 <= i < |more| && Log(steps, key) != [] ==>
               more[i].start < Log(steps, key)[|Log(steps, key)| - 1] + 900_000_000_000
    ensures forall i :: 0 <= i < |more| && more[i].key == key ==> AnswerTo(Run(steps + more[..i]), more[i]) == TooMany
    ensures Log(steps + more, key) == Log(steps, key)
  {
    RunFits(steps, key, if steps == [] then 0 else EndOf(steps[|steps| - 1]));
    BlockHolds(steps, more, key);
  }

  /** The failures of an entry lie within one window. */
  predicate Tight(entry: Option<Attempt>, log: seq<Time>) {
    entry.Some? ==> log != [] && log[|log| - 1] < entry.value.firstFailure + WINDOW
  }

  lemma LoginTight(t: Table, l: Login, log: seq<Time>)
    requires Tight(Lookup(t, l.key), log)
    ensures Tight(Lookup(AfterLogin(t, l), l.key), NextLog(t, l, log))
  {
  }

  lemma {:induction false} RunTight(steps: seq<Login>, key: string)
    ensures Tight(Lookup(Run(steps), key), Log(steps, key))
  {
    if steps != [] {
      var before, l := steps[..|steps| - 1], steps[|steps| - 1];
      RunTight(before, key);
      if l.key == key {
        LoginTight(Run(before), l, Log(before, key));
      } else {
        OtherKeysStay(Run(before), l, key);
      }
      hide AfterLogin, NextLog, Tight;
    }
  }

  /** Nobody is refused without cause: behind every refusal stand five wrong passwords of that client
      since its last success, all within fifteen minutes, the last of them less than fifteen minutes ago. */
  lemma RefusedOnlyAfterFive(steps: seq<Login>, l: Login)
    requires Timed(steps + [l]) && AnswerTo(Run(steps), l) == TooMany
    ensures var log := Log(steps, l.key);
            var n := |log|;
            && n >= 5
            && (forall i, j :: n - 5 <= i <= j < n ==> log[i] <= log[j] < log[i] + 900_000_000_000)
            && l.start < log[n - 1] + 900_000_000_000
  {
    assert Timed(steps) by {
      assert forall i :: 0 <= i < |steps| ==> (steps + [l])[i] == steps[i];
    }
    if steps != [] {
      assert (steps + [l])[|steps| - 1] == steps[|steps| - 1] && (steps + [l])[|steps|] == l;
    }
    RunFits(steps, l.key, if steps == [] then l.start else EndOf(steps[|steps| - 1]));
    RunTight(steps, l.key);
    hide Run, Log, Timed;
  }

  /** The eighth failure of a window is always one that blocks. */
  lemma EighthFailureBlocks(steps: seq<Login>, key: string)
    requires Timed(steps) && |Log(steps, key)| >= 8
    requires var log := Log(steps, key); log[|log| - 1] < log[|log| - 8] + WINDOW
    requires key in Run(steps)
    ensures Run(steps)[key].failures == LIMIT
  {
    RunFits(steps, key, if steps == [] then 0 else EndOf(steps[|steps| - 1]));
  }

  // ---------------------------------------------------------------- eight is reached

  function Miss(at: Time): Login { Login("client", at, Wrong(at)) }

  const MISSES: seq<Time> := 
    [0, WINDOW - 1, WINDOW - 1, WINDOW - 1, WINDOW, WINDOW, WINDOW, WINDOW, WINDOW]

  const NINE: seq<Login> := seq(9, i requires 0 <= i < 9 => Miss(MISSES[i]))

  /** The table after the first k misses. */
  function TableAfter(k: nat): Table {
    if k == 0 then map[]
    else if k <= 4 then map["client" := Attempt(k, 0, None)]
    else map["client" := Attempt(k - 4, WINDOW, if k == 9 then Some(2 * WINDOW) else None)]
  }

  lemma NineStep(k: nat)
    requires k < 9
    ensures AfterLogin(TableAfter(k), Miss(MISSES[k])) == TableAfter(k + 1)
    ensures AnswerTo(TableAfter(k), Miss(MISSES[k])) == Unauthorized
  {
  }

  lemma OneMore(steps: seq<Login>, l: Login)
    ensures Run(steps + [l]) == AfterLogin(Run(steps), l)
    ensures Log(steps + [l], l.key) == NextLog(Run(steps), l, Log(steps, l.key))
  {
    assert (steps + [l])[..|steps|] == steps;
  }

  lemma {:induction false} NineRun(k: nat)
    requires k <= 9
    ensures Log(NINE[..k], "client") == MISSES[..k] && Run(NINE[..k]) == TableAfter(k)
  {
    if k > 0 {
      NineRun(k - 1);
      NineStep(k - 1);
      OneMore(NINE[..k - 1], Miss(MISSES[k - 1]));
      hide Run, Log, AfterLogin, AnswerTo, TableAfter;
      assert NINE[..k] == NINE[..k - 1] + [Miss(MISSES[k - 1])];
      assert MISSES[..k] == MISSES[..k - 1] + [MISSES[k - 1]];
    } else {
      assert NINE[..0] == [];
    }
  }

  lemma {:induction false} CountMisses(k: nat)
    requires k <= 9
    ensures CountIn(MISSES[..k], WINDOW - 1, WINDOW - 1 + WINDOW) == if k == 0 then 0 else k - 1
  {
    if k > 0 {
      CountMisses(k - 1);
      assert MISSES[..k][..k - 1] == MISSES[..k - 1];
    }
  }

  /** The bound of eight is exact: nine misses, the last eight of them within one nanosecond. */
  lemma EightIsReached()
    ensures Timed(NINE) && CountIn(Log(NINE, "client"), WINDOW - 1, WINDOW - 1 + WINDOW) == 8
  {
    NineRun(9);
    CountMisses(9);
    assert NINE[..9] == NINE && MISSES[..9] == MISSES;
  }
}
