/** Login lockout under concurrent failed attempts.

    Every call of `registerFailedAttempt` is a little program of separate
    database statements, and the statements of any number of calls interleave
    on one user row. */
module LoginLockout {
  import opened Common

  datatype Config = Config(maxFailedAttempts: nat, lockoutDurationMs: nat)

  /** Where one call stands, between two of its statements. */
  datatype Caller =
    | Starting
    | Resetting
    | Incrementing
    | Claiming
    | Rereading
    | Done(justLocked: bool, until: Option<int>)

  /** The user row's two lockout columns and the calls in flight. */
  datatype State = State(failedLoginAttempts: nat, lockedUntil: Option<int>, callers: seq<Caller>)

  /** One scheduled statement: which call runs, and what its clock shows. */
  datatype Tick = Tick(caller: nat, now: int)

  predicate LockoutExpired(lockedUntil: Option<int>, now: int) {
    lockedUntil.Some? && lockedUntil.value <= now
  }

  function Step(cfg: Config, s: State, t: Tick): State
    requires t.caller < |s.callers|
  {
    var i := t.caller;
    match s.callers[i]
    case Starting =>
      s.(callers := s.callers[i := if LockoutExpired(s.lockedUntil, t.now) then Resetting else Incrementing])
    case Resetting =>
      if s.lockedUntil.Some?
      then State(0, None, s.callers[i := Incrementing])
      else s.(callers := s.callers[i := Incrementing])
    case Incrementing =>
      var after := s.failedLoginAttempts + 1;
      var next :=
        if s.lockedUntil.Some? then Done(false, s.lockedUntil)
        else if after < cfg.maxFailedAttempts then Done(false, None)
        else Claiming;
      State(after, s.lockedUntil, s.callers[i := next])
    case Claiming =>
      if s.lockedUntil.None? then
        var until := Some(t.now + cfg.lockoutDurationMs);
        State(s.failedLoginAttempts, until, s.callers[i := Done(true, until)])
      else s.(callers := s.callers[i := Rereading])
    case Rereading =>
      s.(callers := s.callers[i := Done(false, s.lockedUntil)])
    case Done(_, _) => s
  }

  predicate ValidSchedule(n: nat, schedule: seq<Tick>) {
    forall k :: 0 <= k < |schedule| ==> schedule[k].caller < n
  }

  function Run(cfg: Config, s: State, schedule: seq<Tick>): (r: State)
    requires ValidSchedule(|s.callers|, schedule)
    ensures |r.callers| == |s.callers|
    decreases |schedule|
  {
    if schedule == [] then s
    else Run(cfg, Step(cfg, s, schedule[0]), schedule[1..])
  }

  /** No statement of the run meets a lock that has already passed. */
  ghost predicate NoExpiry(cfg: Config, s: State, schedule: seq<Tick>)
    requires ValidSchedule(|s.callers|, schedule)
    decreases |schedule|
  {
    schedule == [] ||
    (!LockoutExpired(s.lockedUntil, schedule[0].now) && NoExpiry(cfg, Step(cfg, s, schedule[0]), schedule[1..]))
  }

  predicate Incremented(c: Caller) { c.Claiming? || c.Rereading? || c.Done? }
  predicate ReportsLock(c: Caller) { c.Done? && c.justLocked }
  predicate AtClaim(c: Caller) { c.Claiming? }

  function Begin(c: nat, n: nat): State {
    State(c, None, seq(n, _ => Starting))
  }

  /** What every interleaving keeps, from counter `c` onwards: no increment is
      lost, the lock is set by exactly one call, and once the threshold is
      reached either the lock is set or some call is about to set it. */
  ghost predicate Inv(cfg: Config, c: nat, s: State) {
    && (forall i :: 0 <= i < |s.callers| ==> !s.callers[i].Resetting?)
    && s.failedLoginAttempts == c + Count(s.callers, Incremented)
    && Count(s.callers, ReportsLock) == (if s.lockedUntil.Some? then 1 else 0)
    && (s.lockedUntil.Some? ==> s.failedLoginAttempts >= cfg.maxFailedAttempts)
    && (s.failedLoginAttempts >= cfg.maxFailedAttempts && s.lockedUntil.None? ==> Count(s.callers, AtClaim) > 0)
    && (Count(s.callers, AtClaim) > 0 ==> s.failedLoginAttempts >= cfg.maxFailedAttempts)
  }

  lemma StepKeepsInv(cfg: Config, c: nat, s: State, t: Tick)
    requires t.caller < |s.callers| && Inv(cfg, c, s)
    requires !LockoutExpired(s.lockedUntil, t.now)
    ensures Inv(cfg, c, Step(cfg, s, t))
  {
    var x := Step(cfg, s, t).callers[t.caller];
    CountUpdate(s.callers, t.caller, x, Incremented);
    CountUpdate(s.callers, t.caller, x, ReportsLock);
    CountUpdate(s.callers, t.caller, x, AtClaim);
    assert Step(cfg, s, t).callers == s.callers[t.caller := x];
    CountZero(s.callers, AtClaim);
  }

  lemma {:induction false} RunKeepsInv(cfg: Config, c: nat, s: State, schedule: seq<Tick>)
    requires ValidSchedule(|s.callers|, schedule)
    requires Inv(cfg, c, s) && NoExpiry(cfg, s, schedule)
    ensures Inv(cfg, c, Run(cfg, s, schedule))
    decreases |schedule|
  {
    if schedule != [] {
      StepKeepsInv(cfg, c, s, schedule[0]);
      RunKeepsInv(cfg, c, Step(cfg, s, schedule[0]), schedule[1..]);
    }
  }

  /** The lockout race: whatever the interleaving of `n` failed attempts on an
      unlocked account with `c` earlier failures, the counter ends at c + n, and
      exactly one call reports having locked the account if the threshold was
      reached, none otherwise. */
  lemma LockoutRace(cfg: Config, c: nat, n: nat, schedule: seq<Tick>)
    requires c < cfg.maxFailedAttempts
    requires ValidSchedule(n, schedule) && NoExpiry(cfg, Begin(c, n), schedule)
    requires var r := Run(cfg, Begin(c, n), schedule); forall i :: 0 <= i < n ==> r.callers[i].Done?
    ensures var r := Run(cfg, Begin(c, n), schedule);
      && r.failedLoginAttempts == c + n
      && (r.lockedUntil.Some? <==> c + n >= cfg.maxFailedAttempts)
      && Count(r.callers, ReportsLock) == (if c + n >= cfg.maxFailedAttempts then 1 else 0)
  {
    var b := Begin(c, n);
    CountZero(b.callers, Incremented);
    CountZero(b.callers, ReportsLock);
    CountZero(b.callers, AtClaim);
    RunKeepsInv(cfg, c, b, schedule);
    var r := Run(cfg, b, schedule);
    CountFull(r.callers, Incremented);
    CountZero(r.callers, AtClaim);
  }

  /** A lock set during a run is set by one of its statements, for the lockout duration from
      then on. */
  lemma {:induction false} LockIsTimed(cfg: Config, s: State, schedule: seq<Tick>)
    requires ValidSchedule(|s.callers|, schedule)
    ensures var r := Run(cfg, s, schedule);
      || r.lockedUntil.None? || r.lockedUntil == s.lockedUntil
      || exists k :: 0 <= k < |schedule| && r.lockedUntil.value == schedule[k].now + cfg.lockoutDurationMs
    decreases |schedule|
  {
    if schedule != [] {
      LockIsTimed(cfg, Step(cfg, s, schedule[0]), schedule[1..]);
      assert forall k :: 0 <= k < |schedule[1..]| ==> schedule[1..][k] == schedule[k + 1];
    }
  }

  lemma RunCons(cfg: Config, s: State, t: Tick, rest: seq<Tick>)
    requires t.caller < |s.callers| && ValidSchedule(|s.callers|, rest)
    ensures ValidSchedule(|s.callers|, [t] + rest) && Run(cfg, s, [t] + rest) == Run(cfg, Step(cfg, s, t), rest)
  {
    hide Step;
    assert ([t] + rest)[1..] == rest;
  }

  /** Without that condition the race can lose count: the first call locks the account,
      its lock passes, and the second call resets the counter, counts from zero and
      locks the account again. */
  lemma PassedLockLosesCount(first: int, second: int)
    requires second >= first + 10
    ensures var early, late := Tick(0, first), Tick(1, second);
      var schedule := [early] + ([early] + ([early] + ([late] + ([late] + ([late] + ([late] + []))))));
      var cfg := Config(1, 10);
      && ValidSchedule(2, schedule)
      && var r := Run(cfg, Begin(0, 2), schedule);
      && r.callers == [Done(true, Some(first + 10)), Done(true, Some(second + 10))] && r.failedLoginAttempts == 1
  {
    var cfg, early, late := Config(1, 10), Tick(0, first), Tick(1, second);
    var done0, done1 := Done(true, Some(first + 10)), Done(true, Some(second + 10));
    var s0 := State(0, None, [Starting, Starting]);
    var s1 := State(0, None, [Incrementing, Starting]);
    var s2 := State(1, None, [Claiming, Starting]);
    var s3 := State(1, Some(first + 10), [done0, Starting]);
    var s4 := State(1, Some(first + 10), [done0, Resetting]);
    var s5 := State(0, None, [done0, Incrementing]);
    var s6 := State(1, None, [done0, Claiming]);
    var s7 := State(1, Some(second + 10), [done0, done1]);
    assert Begin(0, 2) == s0;
    assert Step(cfg, s0, early) == s1 && Step(cfg, s1, early) == s2 && Step(cfg, s2, early) == s3;
    assert Step(cfg, s3, late) == s4 && Step(cfg, s4, late) == s5 && Step(cfg, s5, late) == s6
      && Step(cfg, s6, late) == s7;
    hide Step, Begin;
    var last := [late] + [];
    var lasts := [late] + ([late] + ([late] + last));
    RunCons(cfg, s6, late, []);
    RunCons(cfg, s5, late, last);
    RunCons(cfg, s4, late, [late] + last);
    RunCons(cfg, s3, late, [late] + ([late] + last));
    RunCons(cfg, s2, early, lasts);
    RunCons(cfg, s1, early, [early] + lasts);
    RunCons(cfg, s0, early, [early] + ([early] + lasts));
  }

  /** Statements that all run within one lockout duration meet no lock that has
      passed, whatever their order. */
  lemma {:induction false} WithinOneLockout(cfg: Config, s: State, schedule: seq<Tick>, start: int)
    requires ValidSchedule(|s.callers|, schedule)
    requires forall k :: 0 <= k < |schedule| ==> start <= schedule[k].now < start + cfg.lockoutDurationMs
    requires s.lockedUntil.Some? ==> s.lockedUntil.value >= start + cfg.lockoutDurationMs
    ensures NoExpiry(cfg, s, schedule)
    decreases |schedule|
  {
    if schedule != [] {
      WithinOneLockout(cfg, Step(cfg, s, schedule[0]), schedule[1..], start);
    }
  }

  /** The race, with a side condition on the clock alone. */
  lemma LockoutRaceInTime(cfg: Config, c: nat, n: nat, schedule: seq<Tick>, start: int)
    requires c < cfg.maxFailedAttempts && ValidSchedule(n, schedule)
    requires forall k :: 0 <= k < |schedule| ==> start <= schedule[k].now < start + cfg.lockoutDurationMs
    requires var r := Run(cfg, Begin(c, n), schedule); forall i :: 0 <= i < n ==> r.callers[i].Done?
    ensures var r := Run(cfg, Begin(c, n), schedule);
      && r.failedLoginAttempts == c + n
      && (r.lockedUntil.Some? <==> c + n >= cfg.maxFailedAttempts)
      && Count(r.callers, ReportsLock) == (if c + n >= cfg.maxFailedAttempts then 1 else 0)
  {
    hide Run, Step;
    WithinOneLockout(cfg, Begin(c, n), schedule, start);
    LockoutRace(cfg, c, n, schedule);
  }

  /** Statements a call still has to run, at most. */
  function Remaining(c: Caller): nat {
    match c
    case Starting => 5 case Resetting => 4 case Incrementing => 3
    case Claiming => 2 case Rereading => 1 case Done(_, _) => 0
  }

  /** No call can wait for another one: scheduling a call always brings that
      call closer to its end, and five turns are enough whatever runs between. */
  lemma {:induction false} FiveTurnsSuffice(cfg: Config, s: State, schedule: seq<Tick>, i: nat)
    requires ValidSchedule(|s.callers|, schedule) && i < |s.callers|
    requires Count(schedule, (t: Tick) => t.caller == i) >= Remaining(s.callers[i])
    ensures Run(cfg, s, schedule).callers[i].Done?
    decreases |schedule|
  {
    if schedule != [] {
      FiveTurnsSuffice(cfg, Step(cfg, s, schedule[0]), schedule[1..], i);
    }
  }

  /** The user row as `registerFailedAttempt` updates it when nothing runs in
      between. */
  class UserRow {
    var failedLoginAttempts: nat
    var lockedUntil: Option<int>

    constructor (attempts: nat)
      ensures failedLoginAttempts == attempts && lockedUntil == None
    {
      failedLoginAttempts := attempts;
      lockedUntil := None;
    }

    /** The atomic null-guarded claim. */
    method ClaimLock(until: int) returns (claimed: bool)
      modifies this`lockedUntil
      ensures claimed == old(lockedUntil).None?
      ensures lockedUntil == if claimed then Some(until) else old(lockedUntil)
    {
      claimed := lockedUntil.None?;
      if claimed { lockedUntil := Some(until); }
    }

    /** The whole call, run alone, is the five-turn schedule of the interleaved
        model, so the race theorem speaks about the same statements. */
    method RegisterFailedAttempt(cfg: Config, now: int) returns (justLocked: bool, until: Option<int>)
      modifies this
      ensures State(failedLoginAttempts, lockedUntil, [Done(justLocked, until)])
           == Run(cfg, State(old(failedLoginAttempts), old(lockedUntil), [Starting]), seq(5, _ => Tick(0, now)))
      ensures var passed := old(lockedUntil).Some? && old(lockedUntil).value <= now;
        && failedLoginAttempts == (if passed then 1 else old(failedLoginAttempts) + 1)
        && lockedUntil == until
        && if old(lockedUntil).Some? && !passed then !justLocked && until == old(lockedUntil)
           else
             && (justLocked <==> failedLoginAttempts >= cfg.maxFailedAttempts)
             && until == if justLocked then Some(now + cfg.lockoutDurationMs) else None
    {
      ghost var turns := seq(5, _ => Tick(0, now));
      ghost var s0 := State(failedLoginAttempts, lockedUntil, [Starting]);
      FiveTurns(cfg, s0, Tick(0, now));
      if lockedUntil.Some? && lockedUntil.value <= now {
        failedLoginAttempts := 0;
        lockedUntil := None;
      }
      failedLoginAttempts := failedLoginAttempts + 1;
      if lockedUntil.Some? { return false, lockedUntil; }
      if failedLoginAttempts < cfg.maxFailedAttempts { return false, None; }
      var claimed := ClaimLock(now + cfg.lockoutDurationMs);
      return claimed, lockedUntil;
    }
  }

  /** Unrolls a schedule that gives one call five turns in a row. */
  lemma FiveTurns(cfg: Config, s: State, t: Tick)
    requires t.caller < |s.callers|
    ensures Run(cfg, s, seq(5, _ => t))
         == Step(cfg, Step(cfg, Step(cfg, Step(cfg, Step(cfg, s, t), t), t), t), t)
  {
    var s1 := Step(cfg, s, t);
    var s2 := Step(cfg, s1, t);
    var s3 := Step(cfg, s2, t);
    var s4 := Step(cfg, s3, t);
    assert seq(5, _ => t)[1..] == seq(4, _ => t);
    assert seq(4, _ => t)[1..] == seq(3, _ => t);
    assert seq(3, _ => t)[1..] == seq(2, _ => t);
    assert seq(2, _ => t)[1..] == seq(1, _ => t);
    assert Run(cfg, s4, seq(1, _ => t)) == Step(cfg, s4, t);
    assert Run(cfg, s3, seq(2, _ => t)) == Run(cfg, s4, seq(1, _ => t));
    assert Run(cfg, s2, seq(3, _ => t)) == Run(cfg, s3, seq(2, _ => t));
    assert Run(cfg, s1, seq(4, _ => t)) == Run(cfg, s2, seq(3, _ => t));
  }
}
