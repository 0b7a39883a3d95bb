/** Administrative operations under an idempotency key: any number of callers
    with one (actor, operation, key) race through `execute`. */
module AdminIdempotency {
  import opened Common
  import opened Json

  /** The stored row. The request hash stands for the canonical form it digests:
      equal hashes are equal canonical forms. */
  datatype Row = Row(requestHash: Json, response: int)

  datatype Outcome =
    | Returned(response: int)
    | Conflict
    | Failed

  /** Where one call stands. `Holding` has inserted its row but not committed. */
  datatype Caller =
    | Looking
    | InTransaction
    | Working
    | Inserting(response: int)
    | Holding(response: int)
    | LookingAgain
    | Finished(outcome: Outcome)

  datatype State = State(row: Option<Row>, holder: Option<nat>, commits: seq<nat>, callers: seq<Caller>)

  /** What happens next to one call. Work may fail, and may itself break a unique
      constraint, which the code cannot tell from losing the race. */
  datatype Event =
    | Advance(caller: nat)
    | WorkDone(caller: nat, response: int)
    | WorkFails(caller: nat)
    | WorkBreaksUnique(caller: nat)
    | TransactionFails(caller: nat)

  function Replay(row: Row, incoming: Json): Outcome {
    if row.requestHash != incoming then Conflict else Returned(row.response)
  }

  predicate Enabled(s: State, e: Event) {
    e.caller < |s.callers| &&
    match e
    case Advance(i) =>
      (match s.callers[i]
       case Working => false
       case Finished(_) => false
       // The unique index makes a second insert wait for the first to end.
       case Inserting(_) => s.holder.None?
       case _ => true)
    case WorkDone(i, _) => s.callers[i].Working?
    case WorkFails(i) => s.callers[i].Working?
    case WorkBreaksUnique(i) => s.callers[i].Working?
    case TransactionFails(i) => s.callers[i].Holding?
  }

  /** `hashes[i]` is the request hash of caller i. */
  function Step(hashes: seq<Json>, s: State, e: Event): (r: State)
    requires |hashes| == |s.callers| && Enabled(s, e)
    ensures |r.callers| == |s.callers|
  {
    var i := e.caller;
    match e
    case WorkDone(_, response) => s.(callers := s.callers[i := Inserting(response)])
    case WorkFails(_) => s.(callers := s.callers[i := Finished(Failed)])
    case WorkBreaksUnique(_) => s.(callers := s.callers[i := LookingAgain])
    case TransactionFails(_) => s.(holder := None, callers := s.callers[i := Finished(Failed)])
    case Advance(_) =>
      match s.callers[i]
      case Looking =>
        if s.row.Some? then s.(callers := s.callers[i := Finished(Replay(s.row.value, hashes[i]))])
        else s.(callers := s.callers[i := InTransaction])
      case InTransaction =>
        if s.row.Some? then s.(callers := s.callers[i := Finished(Replay(s.row.value, hashes[i]))])
        else s.(callers := s.callers[i := Working])
      case Inserting(response) =>
        if s.row.Some? then s.(callers := s.callers[i := LookingAgain])
        else s.(holder := Some(i), callers := s.callers[i := Holding(response)])
      case Holding(response) =>
        State(Some(Row(hashes[i], response)), None, s.commits + [i], s.callers[i := Finished(Returned(response))])
      case LookingAgain =>
        if s.row.Some? then s.(callers := s.callers[i := Finished(Replay(s.row.value, hashes[i]))])
        else s.(callers := s.callers[i := Finished(Conflict)])
      case _ => s
  }

  /** A run: every event was enabled when it happened. */
  ghost predicate ValidRun(hashes: seq<Json>, s: State, events: seq<Event>)
    requires |hashes| == |s.callers|
    decreases |events|
  {
    events == [] || (Enabled(s, events[0]) && ValidRun(hashes, Step(hashes, s, events[0]), events[1..]))
  }

  ghost function Run(hashes: seq<Json>, s: State, events: seq<Event>): (r: State)
    requires |hashes| == |s.callers| && ValidRun(hashes, s, events)
    ensures |r.callers| == |s.callers|
    decreases |events|
  {
    if events == [] then s else Run(hashes, Step(hashes, s, events[0]), events[1..])
  }

  function Begin(n: nat): State {
    State(None, None, [], seq(n, _ => Looking))
  }

  ghost predicate Inv(hashes: seq<Json>, s: State) {
    && |hashes| == |s.callers|
    && |s.commits| == (if s.row.Some? then 1 else 0)
    && (s.row.Some? ==> s.holder.None?)
    && (forall i :: 0 <= i < |s.callers| ==> (s.callers[i].Holding? <==> s.holder == Some(i)))
    && (s.row.Some? ==>
          var w := s.commits[0];
          w < |hashes| && s.row.value.requestHash == hashes[w]
            && s.callers[w] == Finished(Returned(s.row.value.response)))
    && (forall i :: 0 <= i < |s.callers| && s.callers[i].Finished? && s.callers[i].outcome.Returned? ==>
          s.row == Some(Row(hashes[i], s.callers[i].outcome.response)))
  }

  lemma StepKeepsInv(hashes: seq<Json>, s: State, e: Event)
    requires Inv(hashes, s) && Enabled(s, e)
    ensures Inv(hashes, Step(hashes, s, e))
  {
  }

  lemma {:induction false} RunKeepsInv(hashes: seq<Json>, s: State, events: seq<Event>)
    requires Inv(hashes, s) && ValidRun(hashes, s, events)
    ensures Inv(hashes, Run(hashes, s, events))
    decreases |events|
  {
    if events != [] {
      StepKeepsInv(hashes, s, events[0]);
      RunKeepsInv(hashes, Step(hashes, s, events[0]), events[1..]);
    }
  }

  ghost function Hashes(less: (string, string) -> bool, payloads: seq<Json>): (r: seq<Json>)
    ensures |r| == |payloads| && forall i :: 0 <= i < |payloads| ==> r[i] == Canonicalize(less, payloads[i])
  {
    seq(|payloads|, i requires 0 <= i < |payloads| => Canonicalize(less, payloads[i]))
  }

  /** Exactly once: whatever the interleaving, at most one caller's work commits;
      if anyone returns, exactly one has committed, every returned response is
      that caller's, and every caller that returned or committed had a payload
      deeply equal to its. Nothing is asked of the key order. */
  lemma ExactlyOnce(less: (string, string) -> bool, payloads: seq<Json>, events: seq<Event>)
    requires forall i :: 0 <= i < |payloads| ==> WellFormed(payloads[i])
    requires ValidRun(Hashes(less, payloads), Begin(|payloads|), events)
    ensures var r := Run(Hashes(less, payloads), Begin(|payloads|), events);
      && |r.commits| <= 1
      && forall i :: 0 <= i < |payloads| && r.callers[i].Finished? && r.callers[i].outcome.Returned? ==>
           && |r.commits| == 1 && r.commits[0] < |payloads|
           && r.callers[r.commits[0]] == r.callers[i]
           && DeepEqual(payloads[i], payloads[r.commits[0]])
  {
    var hashes := Hashes(less, payloads);
    RunKeepsInv(hashes, Begin(|payloads|), events);
    var r := Run(hashes, Begin(|payloads|), events);
    forall i | 0 <= i < |payloads| && r.callers[i].Finished? && r.callers[i].outcome.Returned?
      ensures DeepEqual(payloads[i], payloads[r.commits[0]])
    {
      CanonicalImpliesDeepEqual(less, payloads[i], payloads[r.commits[0]]);
    }
  }

  /** The other side: when caller `w` has committed, a caller whose payload is not
      deeply equal to w's has neither returned nor committed, at any point of any
      run. */
  lemma DifferentPayloadNeverReturns(less: (string, string) -> bool, payloads: seq<Json>, events: seq<Event>,
        w: nat, i: nat)
    requires forall j :: 0 <= j < |payloads| ==> WellFormed(payloads[j])
    requires ValidRun(Hashes(less, payloads), Begin(|payloads|), events)
    requires w < |payloads| && i < |payloads| && !DeepEqual(payloads[i], payloads[w])
    requires w in Run(Hashes(less, payloads), Begin(|payloads|), events).commits
    ensures var r := Run(Hashes(less, payloads), Begin(|payloads|), events);
      i !in r.commits && !(r.callers[i].Finished? && r.callers[i].outcome.Returned?)
  {
    ExactlyOnce(less, payloads, events);
    DeepEqualReflexive(payloads[w]);
  }

  // ------------------------------------------------------------ run in place

  ghost predicate Reaches(hashes: seq<Json>, s: State, events: seq<Event>, r: State) {
    |hashes| == |s.callers| && ValidRun(hashes, s, events) && Run(hashes, s, events) == r
  }

  lemma NoEvents(hashes: seq<Json>, s: State)
    requires |hashes| == |s.callers|
    ensures Reaches(hashes, s, [], s)
  {
  }

  lemma {:induction false} Then(hashes: seq<Json>, s: State, events: seq<Event>, m: State, e: Event)
    requires Reaches(hashes, s, events, m) && Enabled(m, e)
    ensures Reaches(hashes, s, events + [e], Step(hashes, m, e))
    decreases |events|
  {
    hide Step, Enabled;
    if events == [] {
      assert events + [e] == [e] && [e][1..] == [];
      assert ValidRun(hashes, Step(hashes, s, e), []) && Run(hashes, Step(hashes, s, e), []) == Step(hashes, s, e);
    } else {
      Then(hashes, Step(hashes, s, events[0]), events[1..], m, e);
      assert (events + [e])[1..] == events[1..] + [e];
    }
  }

  /** What the business transaction does. */
  datatype Work = Answers(response: int) | Fails | BreaksUnique | CommitFails(response: int)

  /** Whether another caller, ready to insert its row, commits between two statements
      of the call, and which row that is. */
  datatype Race = Unraced | BeforeRecheck(rival: Row) | BeforeInsert(rival: Row)

  /** A call at `c`, and its rival before or after its own commit. */
  function Racing(c: Caller, race: Race, committed: bool): (r: seq<Caller>)
    ensures |r| == |RacingHashes(Null, race)| && r[0] == c
  {
    if race.Unraced? then [c]
    else [c, if committed then Finished(Returned(race.rival.response)) else Inserting(race.rival.response)]
  }

  lemma RacingMoves(c: Caller, next: Caller, race: Race, committed: bool)
    ensures Racing(c, race, committed)[0 := next] == Racing(next, race, committed)
    ensures Racing(c, race, committed)[0] == c
  {
  }

  /** Whether the call gets as far as the place where its rival commits. */
  predicate RivalWins(row: Option<Row>, race: Race, work: Work) {
    row.None? && (race.BeforeRecheck? || (race.BeforeInsert? && !work.Fails?))
  }

  function RacingHashes(hash: Json, race: Race): seq<Json> {
    if race.Unraced? then [hash] else [hash, race.rival.requestHash]
  }

  /** The row of one key, the effects of the work committed under it, and who committed
      it: this call is 0, its rival 1. */
  class IdempotencyTable {
    var row: Option<Row>
    var effects: seq<int>
    ghost var commits: seq<nat>
    ghost var start: State
    ghost var events: seq<Event>

    constructor ()
      ensures row == None && effects == [] && commits == []
    {
      row, effects, commits := None, [], [];
      start, events := Begin(0), [];
    }

    /** The machine with this table, a call at `c` and its rival. */
    ghost function Machine(c: Caller, race: Race, committed: bool): State
      reads this
    {
      State(row, None, commits, Racing(c, race, committed))
    }

    /** The statements so far are a run of the machine. */
    ghost predicate At(hash: Json, c: Caller, race: Race, committed: bool)
      reads this
    {
      Reaches(RacingHashes(hash, race), start, events, Machine(c, race, committed))
    }

    /** One more step of the machine, which the table has just followed. */
    ghost method Follow(hashes: seq<Json>, from: State, e: Event)
      requires Reaches(hashes, start, events, from) && Enabled(from, e)
      modifies this`events
      ensures Reaches(hashes, start, events, Step(hashes, from, e))
    {
      hide Enabled, Step, Reaches;
      Then(hashes, start, events, from, e);
      events := events + [e];
    }

    /** The rival's insert and commit. */
    method RivalCommits(hash: Json, ghost c: Caller, race: Race)
      requires !race.Unraced? && row.None? && At(hash, c, race, false)
      modifies this`row, this`effects, this`commits, this`events
      ensures At(hash, c, race, true) && row == Some(race.rival)
      ensures effects == old(effects) + [race.rival.response] && commits == old(commits) + [1]
    {
      hide Reaches, Replay;
      ghost var hashes := RacingHashes(hash, race);
      ghost var before := Machine(c, race, false);
      Follow(hashes, before, Advance(1));
      ghost var held := State(None, Some(1), commits, [c, Holding(race.rival.response)]);
      assert Step(hashes, before, Advance(1)) == held;
      row := Some(race.rival);
      effects := effects + [race.rival.response];
      commits := commits + [1];
      Follow(hashes, held, Advance(1));
      assert Step(hashes, held, Advance(1)) == Machine(c, race, true);
    }

    /** One call, statement by statement: the lookup, the lookup inside the transaction,
        the work, the insert and commit, and the lookup after an insert that failed. A
        stored or rival row is replayed and this call leaves no effect; otherwise its
        work and its row are stored together or not at all. And the table follows the
        interleaved machine. */
    method Execute(less: (string, string) -> bool, payload: Json, work: Work, race: Race) returns (outcome: Outcome)
      modifies this
      ensures At(Canonicalize(less, payload), Finished(outcome), race, RivalWins(old(row), race, work))
      ensures start == State(old(row), None, old(commits), Racing(Looking, race, false))
      ensures old(row).Some? ==>
        row == old(row) && effects == old(effects) && outcome == Replay(old(row).value, Canonicalize(less, payload))
      ensures RivalWins(old(row), race, work) ==>
        && row == Some(race.rival) && effects == old(effects) + [race.rival.response] && commits == old(commits) + [1]
        && outcome == Replay(race.rival, Canonicalize(less, payload))
      ensures old(row).None? && !RivalWins(None, race, work) && work.Answers? ==>
        && row == Some(Row(Canonicalize(less, payload), work.response)) && effects == old(effects) + [work.response]
        && outcome == Returned(work.response)
      ensures old(row).None? && !RivalWins(None, race, work) && !work.Answers? ==>
        row == None && effects == old(effects) && outcome == if work.BreaksUnique? then Conflict else Failed
    {
      hide Reaches, Canonicalize, Racing;
      var hash := Canonicalize(less, payload);
      ghost var hashes := RacingHashes(hash, race);
      start, events := Machine(Looking, race, false), [];
      NoEvents(hashes, start);
      RacingMoves(Looking, if row.Some? then Finished(Replay(row.value, hash)) else InTransaction, race, false);
      Follow(hashes, start, Advance(0));
      if row.Some? { return Replay(row.value, hash); }
      outcome := Transact(hash, work, race);
    }

    /** The transaction, and what follows when it breaks the unique constraint. */
    method Transact(hash: Json, work: Work, race: Race) returns (outcome: Outcome)
      requires row.None? && At(hash, InTransaction, race, false)
      modifies this`row, this`effects, this`commits, this`events
      ensures At(hash, Finished(outcome), race, RivalWins(None, race, work))
      ensures RivalWins(None, race, work) ==>
        && row == Some(race.rival) && effects == old(effects) + [race.rival.response] && commits == old(commits) + [1]
        && outcome == Replay(race.rival, hash)
      ensures !RivalWins(None, race, work) && work.Answers? ==>
        row == Some(Row(hash, work.response)) && effects == old(effects) + [work.response]
          && outcome == Returned(work.response)
      ensures !RivalWins(None, race, work) && !work.Answers? ==>
        row == None && effects == old(effects) && outcome == if work.BreaksUnique? then Conflict else Failed
    {
      hide Reaches, Racing;
      ghost var hashes := RacingHashes(hash, race);
      if race.BeforeRecheck? { RivalCommits(hash, InTransaction, race); }
      RacingMoves(InTransaction, if row.Some? then Finished(Replay(row.value, hash)) else Working, race,
        race.BeforeRecheck?);
      Follow(hashes, Machine(InTransaction, race, race.BeforeRecheck?), Advance(0));
      if row.Some? { return Replay(row.value, hash); }
      ghost var working := Machine(Working, race, false);
      if work.Fails? {
        RacingMoves(Working, Finished(Failed), race, false);
        Follow(hashes, working, WorkFails(0));
        return Failed;
      }
      if work.BreaksUnique? {
        RacingMoves(Working, LookingAgain, race, false);
        Follow(hashes, working, WorkBreaksUnique(0));
        if race.BeforeInsert? { RivalCommits(hash, LookingAgain, race); }
        outcome := LookAgain(hash, race, race.BeforeInsert?);
        return;
      }
      RacingMoves(Working, Inserting(work.response), race, false);
      Follow(hashes, working, WorkDone(0, work.response));
      if race.BeforeInsert? { RivalCommits(hash, Inserting(work.response), race); }
      outcome := InsertAndCommit(hash, work, race, race.BeforeInsert?);
    }

    /** The insert meets the unique index; the effects count once it is committed. */
    method InsertAndCommit(hash: Json, work: Work, race: Race, ghost committed: bool) returns (outcome: Outcome)
      requires (work.Answers? || work.CommitFails?) && At(hash, Inserting(work.response), race, committed)
      requires committed ==> !race.Unraced? && row.Some?
      modifies this`row, this`effects, this`commits, this`events
      ensures At(hash, Finished(outcome), race, committed)
      ensures old(row).Some? ==>
        row == old(row) && effects == old(effects) && commits == old(commits) && outcome == Replay(row.value, hash)
      ensures old(row).None? && work.Answers? ==>
        && row == Some(Row(hash, work.response)) && effects == old(effects) + [work.response]
          && commits == old(commits) + [0]
        && outcome == Returned(work.response)
      ensures old(row).None? && work.CommitFails? ==>
        row == None && effects == old(effects) && commits == old(commits) && outcome == Failed
    {
      hide Reaches, Racing;
      ghost var hashes := RacingHashes(hash, race);
      ghost var inserting := Machine(Inserting(work.response), race, committed);
      RacingMoves(Inserting(work.response), if row.Some? then LookingAgain else Holding(work.response), race,
        committed);
      Follow(hashes, inserting, Advance(0));
      if row.Some? {
        outcome := LookAgain(hash, race, committed);
        return;
      }
      ghost var holding := Machine(Holding(work.response), race, committed).(holder := Some(0));
      if work.CommitFails? {
        RacingMoves(Holding(work.response), Finished(Failed), race, committed);
        Follow(hashes, holding, TransactionFails(0));
        return Failed;
      }
      row := Some(Row(hash, work.response));
      effects := effects + [work.response];
      commits := commits + [0];
      RacingMoves(Holding(work.response), Finished(Returned(work.response)), race, committed);
      Follow(hashes, holding, Advance(0));
      return Returned(work.response);
    }

    /** The lookup after a broken unique constraint. */
    method LookAgain(hash: Json, race: Race, ghost committed: bool) returns (outcome: Outcome)
      requires At(hash, LookingAgain, race, committed)
      modifies this`events
      ensures At(hash, Finished(outcome), race, committed)
      ensures outcome == if row.Some? then Replay(row.value, hash) else Conflict
    {
      hide Reaches, Racing;
      RacingMoves(LookingAgain, Finished(if row.Some? then Replay(row.value, hash) else Conflict), race, committed);
      Follow(RacingHashes(hash, race), Machine(LookingAgain, race, committed), Advance(0));
      outcome := if row.Some? then Replay(row.value, hash) else Conflict;
    }

    /** A second request under the key has no effect, and returns only if it is deeply
        equal to the first. Where no object of the first has tied keys, one that is
        deeply equal gets the same answer, its entries in any order. */
    method ExecuteTwice(less: (string, string) -> bool, first: Json, second: Json, work: int, retried: Work)
      returns (a: Outcome, b: Outcome)
      requires WeakOrder(less) && WellFormed(first) && WellFormed(second)
      modifies this
      ensures old(row).None? ==>
        a == Returned(work) && effects == old(effects) + [work] && (b.Returned? ==> DeepEqual(first, second))
      ensures old(row).None? ==> b == Returned(work) || b == Conflict
      ensures old(row).None? && !DeepEqual(first, second) ==> b == Conflict
      ensures NoTies(less, first) && DeepEqual(first, second) ==> b == a
    {
      if Canonicalize(less, first) == Canonicalize(less, second) { CanonicalImpliesDeepEqual(less, first, second); }
      if NoTies(less, first) && DeepEqual(first, second) { NoTiesSuffices(less, first, second); }
      hide WeakOrder, WellFormed, DeepEqual, Canonicalize, NoTies;
      a := Execute(less, first, Answers(work), Unraced);
      b := Execute(less, second, retried, Unraced);
    }
  }

  /** Which payloads can be sent again in any form: exactly those without tied keys. For
      any other there is a deeply equal request that is refused under the same key. */
  lemma RetriesAreSafe(less: (string, string) -> bool, first: Json, response: int)
    requires WeakOrder(less) && WellFormed(first)
    ensures NoTies(less, first) <==>
      forall second :: WellFormed(second) && DeepEqual(first, second) ==>
        Replay(Row(Canonicalize(less, first), response), Canonicalize(less, second)) == Returned(response)
  {
    hide WeakOrder, WellFormed, DeepEqual, Canonicalize, NoTies;
    NoTiesIffOneForm(less, first);
  }
}
