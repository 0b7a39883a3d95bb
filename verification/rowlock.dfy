/** The refresh race under the row lock: n consumers present the same refresh
    generation at once, and every statement of their transactions interleaves. */
module RefreshRowLock {
  import opened Common

  /** The generation being refreshed and the child it may get. */
  datatype Rows = Rows(rotated: bool, revoked: bool, linked: bool, child: Option<Child>)
  datatype Child = Child(revoked: bool)

  datatype Outcome = Rotated | Replay | Invalid

  /** Where one transaction stands, between two of its statements. */
  datatype Consumer =
    | Waiting
    | Locked
    | Revoking
    | Claiming
    | Inserting
    | Linking
    | Committing(outcome: Outcome)
    | Done(outcome: Outcome)

  /** `rows` is what is committed; `holder` is the consumer that holds the row
      lock and `draft` the rows as its own transaction sees them. */
  datatype State = State(rows: Rows, holder: Option<nat>, draft: Rows, consumers: seq<Consumer>)

  const LIVE := Rows(false, false, false, None)

  function Begin(n: nat): State {
    State(LIVE, None, LIVE, seq(n, _ => Waiting))
  }

  /** A waiting consumer runs only when the lock is free; nothing else waits. */
  predicate Enabled(s: State, i: nat) {
    i < |s.consumers| && !s.consumers[i].Done? && (s.consumers[i].Waiting? ==> s.holder.None?)
  }

  /** Revokes every row of the family that is visible and not yet revoked. */
  function RevokeFamily(r: Rows): Rows {
    r.(revoked := true, child := if r.child.Some? then Some(Child(true)) else None)
  }

  function Step(s: State, i: nat): State
    requires Enabled(s, i)
  {
    match s.consumers[i]
    case Waiting => State(s.rows, Some(i), s.rows, s.consumers[i := Locked])
    case Locked =>
      var next :=
        if s.draft.revoked then Committing(Invalid)
        else if s.draft.rotated then Revoking
        else Claiming;
      s.(consumers := s.consumers[i := next])
    case Revoking => s.(draft := RevokeFamily(s.draft), consumers := s.consumers[i := Committing(Replay)])
    case Claiming => s.(draft := s.draft.(rotated := true), consumers := s.consumers[i := Inserting])
    case Inserting => s.(draft := s.draft.(child := Some(Child(false))), consumers := s.consumers[i := Linking])
    case Linking => s.(draft := s.draft.(linked := true), consumers := s.consumers[i := Committing(Rotated)])
    case Committing(o) => State(s.draft, None, s.draft, s.consumers[i := Done(o)])
    case Done(_) => s
  }

  ghost predicate ValidRun(s: State, schedule: seq<nat>)
    decreases |schedule|
  {
    schedule == [] || (Enabled(s, schedule[0]) && ValidRun(Step(s, schedule[0]), schedule[1..]))
  }

  ghost function Run(s: State, schedule: seq<nat>): (r: State)
    requires ValidRun(s, schedule)
    ensures |r.consumers| == |s.consumers|
    decreases |schedule|
  {
    if schedule == [] then s else Run(Step(s, schedule[0]), schedule[1..])
  }

  predicate EndedRotated(c: Consumer) { c == Done(Rotated) }
  predicate EndedReplay(c: Consumer) { c == Done(Replay) }
  predicate EndedInvalid(c: Consumer) { c == Done(Invalid) }
  predicate Outside(c: Consumer) { c.Waiting? || c.Done? }

  /** A child exists exactly when the generation is rotated, and shares its
      revocation: no committed state has a child that escaped. */
  ghost predicate Settled(r: Rows) {
    && (r.rotated <==> r.child.Some?) && (r.rotated <==> r.linked)
    && (r.revoked ==> r.rotated)
    && (r.child.Some? ==> r.child.value.revoked == r.revoked)
  }

  /** What the lock holder has done so far. */
  ghost predicate DraftOk(rows: Rows, c: Consumer, draft: Rows) {
    match c
    case Locked => draft == rows
    case Revoking => draft == rows && rows.rotated && !rows.revoked
    case Claiming => draft == rows && !rows.rotated
    case Inserting => draft == rows.(rotated := true) && !rows.rotated
    case Linking => draft == rows.(rotated := true, child := Some(Child(false))) && !rows.rotated
    case Committing(Rotated) => draft == Rows(true, false, true, Some(Child(false))) && !rows.rotated
    case Committing(Replay) => draft == Rows(true, true, true, Some(Child(true))) && rows.rotated && !rows.revoked
    case Committing(Invalid) => draft == rows && rows.revoked
    case _ => false
  }

  ghost predicate Inv(s: State) {
    && Settled(s.rows)
    && (forall i :: 0 <= i < |s.consumers| && s.holder != Some(i) ==> Outside(s.consumers[i]))
    && (s.holder.Some? ==> s.holder.value < |s.consumers| && DraftOk(s.rows, s.consumers[s.holder.value], s.draft))
    && Count(s.consumers, EndedRotated) == (if s.rows.rotated then 1 else 0)
    && Count(s.consumers, EndedReplay) == (if s.rows.revoked then 1 else 0)
    && (Count(s.consumers, EndedInvalid) > 0 ==> s.rows.revoked)
  }

  lemma StepKeepsInv(s: State, i: nat)
    requires Inv(s) && Enabled(s, i)
    ensures Inv(Step(s, i))
  {
    var next := Step(s, i).consumers[i];
    assert Step(s, i).consumers == s.consumers[i := next];
    CountUpdate(s.consumers, i, next, EndedRotated);
    CountUpdate(s.consumers, i, next, EndedReplay);
    CountUpdate(s.consumers, i, next, EndedInvalid);
  }

  lemma {:induction false} RunKeepsInv(s: State, schedule: seq<nat>)
    requires Inv(s) && ValidRun(s, schedule)
    ensures Inv(Run(s, schedule))
    decreases |schedule|
  {
    if schedule != [] {
      StepKeepsInv(s, schedule[0]);
      RunKeepsInv(Step(s, schedule[0]), schedule[1..]);
    }
  }

  lemma BeginHasInv(n: nat)
    ensures Inv(Begin(n))
  {
    CountZero(Begin(n).consumers, EndedRotated);
    CountZero(Begin(n).consumers, EndedReplay);
    CountZero(Begin(n).consumers, EndedInvalid);
  }

  predicate AllDone(s: State) {
    forall i :: 0 <= i < |s.consumers| ==> s.consumers[i].Done?
  }

  /** For n >= 2 consumers, every interleaving ends with exactly one "rotated",
      exactly one "replay" and otherwise "invalid", and with the one child that
      was inserted revoked. */
  lemma RefreshRace(n: nat, schedule: seq<nat>)
    requires n >= 2 && ValidRun(Begin(n), schedule) && AllDone(Run(Begin(n), schedule))
    ensures var r := Run(Begin(n), schedule);
      && Count(r.consumers, EndedRotated) == 1
      && Count(r.consumers, EndedReplay) == 1
      && Count(r.consumers, EndedInvalid) == n - 2
      && r.rows == Rows(true, true, true, Some(Child(true)))
  {
    BeginHasInv(n);
    RunKeepsInv(Begin(n), schedule);
    CountByOutcome(Run(Begin(n), schedule).consumers);
  }

  lemma {:induction false} CountByOutcome(cs: seq<Consumer>)
    requires forall i :: 0 <= i < |cs| ==> cs[i].Done?
    ensures Count(cs, EndedRotated) + Count(cs, EndedReplay) + Count(cs, EndedInvalid) == |cs|
  {
    if cs != [] {
      CountByOutcome(cs[1..]);
      assert cs[0].Done?;
      match cs[0].outcome
      case Rotated => assert EndedRotated(cs[0]);
      case Replay => assert EndedReplay(cs[0]);
      case Invalid => assert EndedInvalid(cs[0]);
    }
  }

  /** At every point of every run, not only at the end: a committed child is
      never left usable once a replay has been answered. */
  lemma NoChildEscapes(n: nat, schedule: seq<nat>)
    requires ValidRun(Begin(n), schedule)
    ensures var r := Run(Begin(n), schedule);
      (exists i :: 0 <= i < n && r.consumers[i] == Done(Replay)) ==> r.rows.child == Some(Child(true))
  {
    BeginHasInv(n);
    RunKeepsInv(Begin(n), schedule);
    CountZero(Run(Begin(n), schedule).consumers, EndedReplay);
  }

  /** The race cannot stall: until all are done some consumer can run. */
  lemma SomeoneCanRun(s: State)
    requires Inv(s) && !AllDone(s)
    ensures exists i :: Enabled(s, i)
  {
    var i :| 0 <= i < |s.consumers| && !s.consumers[i].Done?;
    assert Enabled(s, if s.holder.Some? then s.holder.value else i);
  }

  /** Statements still to run. */
  function Left(c: Consumer): nat {
    match c
    case Waiting => 6 case Locked => 5 case Claiming => 4 case Inserting => 3
    case Linking => 2 case Revoking => 2 case Committing(_) => 1 case Done(_) => 0
  }

  function TotalLeft(cs: seq<Consumer>): nat {
    if cs == [] then 0 else Left(cs[0]) + TotalLeft(cs[1..])
  }

  lemma {:induction false} TotalLeftUpdate(cs: seq<Consumer>, i: nat, c: Consumer)
    requires i < |cs|
    ensures TotalLeft(cs[i := c]) == TotalLeft(cs) - Left(cs[i]) + Left(c)
  {
    if i > 0 {
      TotalLeftUpdate(cs[1..], i - 1, c);
      assert cs[i := c][1..] == cs[1..][i - 1 := c];
    } else {
      assert cs[0 := c][1..] == cs[1..];
    }
  }

  lemma StepUsesOne(s: State, i: nat)
    requires Enabled(s, i)
    ensures TotalLeft(Step(s, i).consumers) < TotalLeft(s.consumers)
  {
    var next := Step(s, i).consumers[i];
    assert Step(s, i).consumers == s.consumers[i := next];
    TotalLeftUpdate(s.consumers, i, next);
    hide TotalLeft;
  }

  /** Each statement run is one of those that were left. */
  lemma {:induction false} StatementsRunOut(s: State, schedule: seq<nat>)
    requires ValidRun(s, schedule)
    ensures |schedule| + TotalLeft(Run(s, schedule).consumers) <= TotalLeft(s.consumers)
    decreases |schedule|
  {
    hide Step, Enabled, TotalLeft;
    if schedule != [] {
      StepUsesOne(s, schedule[0]);
      StatementsRunOut(Step(s, schedule[0]), schedule[1..]);
    }
  }

  lemma {:induction false} WaitingHaveSix(cs: seq<Consumer>)
    requires forall i :: 0 <= i < |cs| ==> cs[i].Waiting?
    ensures TotalLeft(cs) == 6 * |cs|
  {
    if cs != [] { WaitingHaveSix(cs[1..]); }
  }

  /** And it ends: no run of the race of n consumers has more than 6n statements. */
  lemma RaceEnds(n: nat, schedule: seq<nat>)
    requires ValidRun(Begin(n), schedule)
    ensures |schedule| <= 6 * n
  {
    StatementsRunOut(Begin(n), schedule);
    WaitingHaveSix(Begin(n).consumers);
  }
}
