/** The AI spend ledger: concurrent inferences reserve, settle, release or retain
    cost on one shared daily counter, inside a fallback loop. All within one UTC
    day, so on one counter key. Costs are whole micros. */
module SpendLedger {
  import opened Common

  /** A profile's budget, and how many routes each inference may try: a request may ask
      for fewer attempts than there are routes. */
  datatype Config = Config(maxPerRequest: nat, maxPerDay: nat, failClosed: bool, routes: nat -> nat)

  /** The error codes the fallback policy and the reservation handling tell apart. */
  datatype Code = TIMEOUT | MODEL_NOT_AVAILABLE | PROVIDER_ERROR | RATE_LIMITED | BUDGET_EXCEEDED | OTHER

  /** What became of a reservation. `Unreleased` was abandoned by an error of the
      counter store itself. */
  datatype Status = Outstanding | Retained | Unreleased | Settled(actual: nat) | Released

  /** One successful reservation: who made it, on which route, for how much. */
  datatype Entry = Entry(owner: nat, route: nat, amount: nat, status: Status)

  /** Where one inference stands in its attempt loop. */
  datatype Caller =
    | Idle(route: nat)
    | HasRead(route: nat, snapshot: int)
    | InFlight(route: nat, snapshot: int, ticket: nat)
    | Settling(route: nat, ticket: nat, actual: nat)
    | Releasing(route: nat, ticket: nat, code: Code)
    | Checking(route: nat, ticket: nat)
    | Caught(route: nat, code: Code)
    | Succeeded(ticket: nat)
    | Thrown

  datatype State = State(counter: int, ledger: seq<Entry>, callers: seq<Caller>)

  /** A store script either ran and answered, ran while its answer was lost, or did
      not run. */
  datatype Fate = Answered | AnswerLost | NotRun

  datatype Event =
    | Read(caller: nat)
    | Reserve(caller: nat, estimate: Option<nat>, fate: Fate)
    | Respond(caller: nat, cost: Option<nat>)
    | TransportFails(caller: nat, code: Code)
    | Settle(caller: nat, fate: Fate, code: Code)
    | Release(caller: nat, fate: Fate)
    | PassChecks(caller: nat)
    | FailChecks(caller: nat, code: Code)
    | Recover(caller: nat)
    | Die(caller: nat)

  function Max(a: int, b: int): int { if a < b then b else a }

  // The three counter scripts.

  function ReserveScript(counter: int, estimate: nat, limit: nat): (int, bool) {
    if counter + estimate > limit then (counter, false) else (counter + estimate, true)
  }

  function SettleScript(counter: int, reserved: nat, actual: nat, limit: nat): (int, bool) {
    var settled := Max(0, counter - reserved + actual);
    (settled, settled <= limit)
  }

  function ReleaseScript(counter: int, reserved: nat): int {
    Max(0, counter - reserved)
  }

  /** The cost policy's refusal, before and after the call to the provider. */
  predicate Refused(cfg: Config, snapshot: int, cost: Option<nat>) {
    match cost
    case None => cfg.failClosed
    case Some(c) => c > cfg.maxPerRequest || snapshot + c > cfg.maxPerDay
  }

  predicate CanFallback(routes: nat, code: Code, route: nat) {
    route + 1 < routes && code in {MODEL_NOT_AVAILABLE, PROVIDER_ERROR, RATE_LIMITED, TIMEOUT}
  }

  predicate Enabled(s: State, e: Event) {
    e.caller < |s.callers| &&
    var c := s.callers[e.caller];
    match e
    case Read(_) => c.Idle?
    case Reserve(_, _, _) => c.HasRead?
    case Respond(_, _) => c.InFlight?
    case TransportFails(_, _) => c.InFlight? && c.ticket < |s.ledger|
    case Settle(_, _, _) => c.Settling? && c.ticket < |s.ledger|
    case Release(_, _) => c.Releasing? && c.ticket < |s.ledger|
    case PassChecks(_) => c.Checking?
    case FailChecks(_, _) => c.Checking?
    case Recover(_) => c.Caught?
    case Die(_) => !c.Succeeded?
  }

  function Mark(ledger: seq<Entry>, ticket: nat, status: Status): seq<Entry>
    requires ticket < |ledger|
  {
    ledger[ticket := ledger[ticket].(status := status)]
  }

  function Move(s: State, i: nat, c: Caller): State
    requires i < |s.callers|
  {
    s.(callers := s.callers[i := c])
  }

  function Step(cfg: Config, s: State, e: Event): State
    requires Enabled(s, e)
  {
    var i := e.caller;
    var c := s.callers[i];
    match e
    case Read(_) => Move(s, i, HasRead(c.route, s.counter))
    case Reserve(_, estimate, fate) => ReserveStep(cfg, s, i, estimate, fate)
    case Respond(_, cost) =>
      if Refused(cfg, c.snapshot, cost) then Move(s, i, Releasing(c.route, c.ticket, BUDGET_EXCEEDED))
      else Move(s, i, Settling(c.route, c.ticket, if cost.Some? then cost.value else 0))
    case TransportFails(_, code) =>
      if code.TIMEOUT? then Move(s, i, Caught(c.route, code)).(ledger := Mark(s.ledger, c.ticket, Retained))
      else Move(s, i, Releasing(c.route, c.ticket, code))
    case Settle(_, fate, code) => SettleStep(cfg, s, i, fate, code)
    case Release(_, fate) =>
      if fate.NotRun? then Move(s, i, Caught(c.route, c.code)).(ledger := Mark(s.ledger, c.ticket, Unreleased))
      else
        State(ReleaseScript(s.counter, s.ledger[c.ticket].amount), Mark(s.ledger, c.ticket, Released),
              s.callers[i := Caught(c.route, c.code)])
    case PassChecks(_) => Move(s, i, Succeeded(c.ticket))
    case FailChecks(_, code) => Move(s, i, Caught(c.route, code))
    case Recover(_) => Move(s, i, if CanFallback(cfg.routes(i), c.code, c.route) then Idle(c.route + 1) else Thrown)
    case Die(_) => Move(s, i, Thrown)
  }

  /** Estimate, policy and reservation come before the guarded region: any failure
      here ends the inference. */
  function ReserveStep(cfg: Config, s: State, i: nat, estimate: Option<nat>, fate: Fate): State
    requires i < |s.callers| && s.callers[i].HasRead?
  {
    var c := s.callers[i];
    if Refused(cfg, c.snapshot, estimate) || estimate.None? || fate.NotRun? then Move(s, i, Thrown)
    else
      var (counter, reserved) := ReserveScript(s.counter, estimate.value, cfg.maxPerDay);
      if !reserved then Move(s, i, Thrown)
      else
        var ticket := |s.ledger|;
        var entry := Entry(i, c.route, estimate.value, if fate.Answered? then Outstanding else Unreleased);
        State(counter, s.ledger + [entry],
              s.callers[i := if fate.Answered? then InFlight(c.route, c.snapshot, ticket) else Thrown])
  }

  function SettleStep(cfg: Config, s: State, i: nat, fate: Fate, code: Code): State
    requires i < |s.callers| && s.callers[i].Settling? && s.callers[i].ticket < |s.ledger|
  {
    var c := s.callers[i];
    if fate.NotRun? then Move(s, i, Caught(c.route, code)).(ledger := Mark(s.ledger, c.ticket, Unreleased))
    else
      var (counter, within) := SettleScript(s.counter, s.ledger[c.ticket].amount, c.actual, cfg.maxPerDay);
      var next :=
        if fate.AnswerLost? then Caught(c.route, code)
        else if !within then Caught(c.route, BUDGET_EXCEEDED)
        else Checking(c.route, c.ticket);
      State(counter, Mark(s.ledger, c.ticket, Settled(c.actual)), s.callers[i := next])
  }

  // ------------------------------------------------------------ accounting

  /** What an entry contributes to the day's spend, and by how much its actual cost
      went over its reservation. */
  function Contribution(e: Entry): nat {
    match e.status
    case Settled(actual) => actual
    case Released => 0
    case _ => e.amount
  }

  function Overshoot(e: Entry): nat {
    if e.status.Settled? && e.status.actual > e.amount then e.status.actual - e.amount else 0
  }

  ghost function Sum(ledger: seq<Entry>, f: Entry -> nat): nat {
    if ledger == [] then 0 else Sum(ledger[..|ledger| - 1], f) + f(ledger[|ledger| - 1])
  }

  lemma SumAppend(ledger: seq<Entry>, e: Entry, f: Entry -> nat)
    ensures Sum(ledger + [e], f) == Sum(ledger, f) + f(e)
  {
    assert (ledger + [e])[..|ledger|] == ledger;
  }

  lemma {:induction false} SumUpdate(ledger: seq<Entry>, t: nat, e: Entry, f: Entry -> nat)
    requires t < |ledger|
    ensures Sum(ledger[t := e], f) == Sum(ledger, f) - f(ledger[t]) + f(e)
    ensures f(ledger[t]) <= Sum(ledger, f)
  {
    var n := |ledger| - 1;
    if t < n {
      SumUpdate(ledger[..n], t, e, f);
      assert ledger[t := e][..n] == ledger[..n][t := e];
    } else {
      assert ledger[t := e][..n] == ledger[..n];
    }
  }

  predicate HoldsTicket(c: Caller) {
    c.InFlight? || c.Settling? || c.Releasing?
  }

  /** A caller that holds a ticket holds its own, and it is still outstanding. */
  ghost predicate TicketOk(s: State, i: nat)
    requires i < |s.callers|
  {
    var c := s.callers[i];
    && (HoldsTicket(c) ==>
          c.ticket < |s.ledger| && s.ledger[c.ticket].owner == i && s.ledger[c.ticket].route == c.route
          && s.ledger[c.ticket].status.Outstanding?)
    && ((c.Checking? || c.Succeeded?) ==>
          c.ticket < |s.ledger| && s.ledger[c.ticket].owner == i && s.ledger[c.ticket].status.Settled?)
  }

  /** How far a caller has come: the routes it may have reserved on already. */
  function RoutesUsed(routes: nat, c: Caller): nat {
    match c
    case Idle(r) => r
    case HasRead(r, _) => r
    case InFlight(r, _, _) => r + 1
    case Settling(r, _, _) => r + 1
    case Releasing(r, _, _) => r + 1
    case Checking(r, _) => r + 1
    case Caught(r, _) => r + 1
    case _ => routes
  }

  ghost predicate RouteOk(cfg: Config, s: State, i: nat)
    requires i < |s.callers|
  {
    var c := s.callers[i];
    && RoutesUsed(cfg.routes(i), c) <= cfg.routes(i)
    && (c.Idle? || c.HasRead? ==> c.route < cfg.routes(i))
    && forall t :: 0 <= t < |s.ledger| && s.ledger[t].owner == i ==> s.ledger[t].route < RoutesUsed(cfg.routes(i), c)
  }

  /** No caller reserves twice on one route. */
  ghost predicate OnePerRoute(ledger: seq<Entry>) {
    forall t, u :: 0 <= t < u < |ledger| && ledger[t].owner == ledger[u].owner ==> ledger[t].route != ledger[u].route
  }

  ghost predicate Inv(cfg: Config, s: State) {
    && s.counter == Sum(s.ledger, Contribution)
    && s.counter <= cfg.maxPerDay + Sum(s.ledger, Overshoot)
    && OnePerRoute(s.ledger)
    && (forall i :: 0 <= i < |s.callers| ==> TicketOk(s, i) && RouteOk(cfg, s, i))
  }

  /** Resolving a ticket, whatever it becomes: the books stay balanced if the
      counter moves by what the entry's contribution moves. */
  lemma MarkKeepsInv(cfg: Config, s: State, i: nat, status: Status, counter: int, next: Caller)
    requires Inv(cfg, s) && i < |s.callers| && HoldsTicket(s.callers[i]) && s.callers[i].ticket < |s.ledger|
    requires var e := s.ledger[s.callers[i].ticket];
      && counter == s.counter - e.amount + Contribution(e.(status := status))
      && counter <= s.counter + Overshoot(e.(status := status))
    requires RoutesUsed(cfg.routes(i), next) == s.callers[i].route + 1 && !next.Idle? && !next.HasRead?
      && !HoldsTicket(next)
    requires next.Checking? || next.Succeeded? ==> next.ticket == s.callers[i].ticket && status.Settled?
    ensures Inv(cfg, State(counter, Mark(s.ledger, s.callers[i].ticket, status), s.callers[i := next]))
  {
    assert TicketOk(s, i) && RouteOk(cfg, s, i);
    var t := s.callers[i].ticket;
    var e := s.ledger[t].(status := status);
    var r := State(counter, Mark(s.ledger, t, status), s.callers[i := next]);
    SumUpdate(s.ledger, t, e, Contribution);
    SumUpdate(s.ledger, t, e, Overshoot);
    forall k | 0 <= k < |r.callers| ensures TicketOk(r, k) && RouteOk(cfg, r, k) {
      assert TicketOk(s, k) && RouteOk(cfg, s, k);
    }
  }

  /** A move that leaves counter and ledger alone. */
  lemma MoveKeepsInv(cfg: Config, s: State, i: nat, next: Caller)
    requires Inv(cfg, s) && i < |s.callers|
    requires RoutesUsed(cfg.routes(i), s.callers[i]) <= RoutesUsed(cfg.routes(i), next) <= cfg.routes(i)
    requires next.Idle? || next.HasRead? ==> next.route < cfg.routes(i)
    requires HoldsTicket(next) ==>
      HoldsTicket(s.callers[i]) && next.ticket == s.callers[i].ticket && next.route == s.callers[i].route
    requires next.Checking? || next.Succeeded? ==>
      (s.callers[i].Checking? || s.callers[i].Succeeded?) && next.ticket == s.callers[i].ticket
    ensures Inv(cfg, Move(s, i, next))
  {
    var r := Move(s, i, next);
    forall k | 0 <= k < |r.callers| ensures TicketOk(r, k) && RouteOk(cfg, r, k) {
      assert TicketOk(s, k) && RouteOk(cfg, s, k);
    }
  }

  /** The two outcomes of the reserve step: the inference ends, or it has a new entry. */
  lemma ReserveOutcome(cfg: Config, s: State, i: nat, estimate: Option<nat>, fate: Fate)
    returns (moved: bool, e: Entry, next: Caller)
    requires i < |s.callers| && s.callers[i].HasRead?
    ensures moved ==> ReserveStep(cfg, s, i, estimate, fate) == Move(s, i, Thrown)
    ensures !moved ==>
      && ReserveStep(cfg, s, i, estimate, fate) == State(s.counter + e.amount, s.ledger + [e], s.callers[i := next])
      && s.counter + e.amount <= cfg.maxPerDay && IsNew(s, i, e, next)
  {
    var r := ReserveStep(cfg, s, i, estimate, fate);
    moved, next := |r.ledger| == |s.ledger|, r.callers[i];
    e := if moved then Entry(i, 0, 0, Outstanding) else r.ledger[|s.ledger|];
  }

  /** An entry just reserved, outstanding exactly if its owner goes on with it. */
  predicate IsNew(s: State, i: nat, e: Entry, next: Caller)
    requires i < |s.callers| && s.callers[i].HasRead?
  {
    && e.owner == i && e.route == s.callers[i].route
    && (if next.InFlight? then next.route == e.route && next.ticket == |s.ledger| && e.status.Outstanding?
        else next.Thrown? && e.status.Unreleased?)
  }

  lemma ReserveKeepsInv(cfg: Config, s: State, i: nat, estimate: Option<nat>, fate: Fate)
    requires Inv(cfg, s) && i < |s.callers| && s.callers[i].HasRead?
    ensures Inv(cfg, ReserveStep(cfg, s, i, estimate, fate))
  {
    hide ReserveStep, TicketOk, OnePerRoute, Sum;
    assert RouteOk(cfg, s, i);
    hide Inv, RouteOk;
    var moved, e, next := ReserveOutcome(cfg, s, i, estimate, fate);
    if moved {
      MoveKeepsInv(cfg, s, i, Thrown);
    } else {
      AppendKeepsInv(cfg, s, i, e, next);
    }
  }

  /** A new entry: its amount is added to the counter within the daily limit, and its
      owner moves past the route. */
  lemma AppendKeepsInv(cfg: Config, s: State, i: nat, e: Entry, next: Caller)
    requires Inv(cfg, s) && i < |s.callers| && s.callers[i].HasRead?
    requires s.counter + e.amount <= cfg.maxPerDay && IsNew(s, i, e, next)
    ensures Inv(cfg, State(s.counter + e.amount, s.ledger + [e], s.callers[i := next]))
  {
    assert RouteOk(cfg, s, i);
    var r := State(s.counter + e.amount, s.ledger + [e], s.callers[i := next]);
    SumAppend(s.ledger, e, Contribution);
    SumAppend(s.ledger, e, Overshoot);
    assert OnePerRoute(r.ledger) by { hide TicketOk, Sum; }
    forall k | 0 <= k < |r.callers| ensures TicketOk(r, k) && RouteOk(cfg, r, k) {
      AppendKeepsCaller(cfg, s, i, e, next, k);
    }
    hide TicketOk, RouteOk, OnePerRoute, Sum;
  }

  lemma AppendKeepsCaller(cfg: Config, s: State, i: nat, e: Entry, next: Caller, k: nat)
    requires i < |s.callers| && s.callers[i].HasRead? && k < |s.callers|
    requires TicketOk(s, k) && RouteOk(cfg, s, k) && RouteOk(cfg, s, i)
    requires IsNew(s, i, e, next)
    ensures var r := State(s.counter + e.amount, s.ledger + [e], s.callers[i := next]);
      TicketOk(r, k) && RouteOk(cfg, r, k)
  {
  }

  /** The counter never clamps: a held reservation is part of the sum, so taking it
      away leaves at least zero. */
  lemma NeverClamps(cfg: Config, s: State, i: nat)
    requires Inv(cfg, s) && i < |s.callers| && HoldsTicket(s.callers[i])
    ensures s.callers[i].ticket < |s.ledger| && s.counter - s.ledger[s.callers[i].ticket].amount >= 0
  {
    assert TicketOk(s, i);
    var t := s.callers[i].ticket;
    SumUpdate(s.ledger, t, s.ledger[t], Contribution);
  }

  lemma StepKeepsInv(cfg: Config, s: State, e: Event)
    requires Inv(cfg, s) && Enabled(s, e)
    ensures Inv(cfg, Step(cfg, s, e))
  {
    var i := e.caller;
    assert TicketOk(s, i) && RouteOk(cfg, s, i);
    if HoldsTicket(s.callers[i]) { NeverClamps(cfg, s, i); }
    hide Inv, Sum, TicketOk, RouteOk, OnePerRoute;
    var c := s.callers[i];
    match e
    case Reserve(_, estimate, fate) => ReserveKeepsInv(cfg, s, i, estimate, fate);
    case Settle(_, fate, code) =>
      var r := SettleStep(cfg, s, i, fate, code);
      MarkKeepsInv(cfg, s, i, r.ledger[c.ticket].status, r.counter, r.callers[i]);
    case Release(_, fate) =>
      var r := Step(cfg, s, e);
      MarkKeepsInv(cfg, s, i, r.ledger[c.ticket].status, r.counter, r.callers[i]);
    case TransportFails(_, code) =>
      if code.TIMEOUT? { MarkKeepsInv(cfg, s, i, Retained, s.counter, Caught(c.route, code)); }
      else { MoveKeepsInv(cfg, s, i, Releasing(c.route, c.ticket, code)); }
    case _ => MoveKeepsInv(cfg, s, i, Step(cfg, s, e).callers[i]);
  }

  // --------------------------------------------------------------- whole runs

  ghost predicate ValidRun(cfg: Config, s: State, events: seq<Event>)
    decreases |events|
  {
    events == [] || (Enabled(s, events[0]) && ValidRun(cfg, Step(cfg, s, events[0]), events[1..]))
  }

  ghost function Run(cfg: Config, s: State, events: seq<Event>): State
    requires ValidRun(cfg, s, events)
    decreases |events|
  {
    if events == [] then s else Run(cfg, Step(cfg, s, events[0]), events[1..])
  }

  /** A new day: nothing spent, any number of inferences about to start. */
  function Begin(cfg: Config, n: nat): State {
    State(0, [], seq(n, i requires 0 <= i < n => if cfg.routes(i) > 0 then Idle(0) else Thrown))
  }

  lemma {:induction false} RunKeepsInv(cfg: Config, s: State, events: seq<Event>)
    requires Inv(cfg, s) && ValidRun(cfg, s, events)
    ensures Inv(cfg, Run(cfg, s, events))
    decreases |events|
  {
    hide Inv, Step;
    if events != [] {
      StepKeepsInv(cfg, s, events[0]);
      RunKeepsInv(cfg, Step(cfg, s, events[0]), events[1..]);
    }
  }

  /** Over every interleaving the counter is the settled costs plus everything still
      reserved, retained or unreleased, and goes over the daily limit by no more
      than settled costs went over their reservations. */
  lemma CounterIsTheLedger(cfg: Config, n: nat, events: seq<Event>)
    requires ValidRun(cfg, Begin(cfg, n), events)
    ensures var r := Run(cfg, Begin(cfg, n), events);
      && r.counter == Sum(r.ledger, Contribution)
      && r.counter <= cfg.maxPerDay + Sum(r.ledger, Overshoot)
      && (NoneOver(r.ledger) ==> 0 <= r.counter <= cfg.maxPerDay)
  {
    RunKeepsInv(cfg, Begin(cfg, n), events);
    hide Run, ValidRun, Contribution;
    var r := Run(cfg, Begin(cfg, n), events);
    if NoneOver(r.ledger) { NoOvershoot(r.ledger); }
  }

  /** In no run does a script's lower bound of zero ever bite: releasing or settling a
      held reservation moves the counter by exactly what it should. */
  lemma RunNeverClamps(cfg: Config, n: nat, events: seq<Event>, i: nat, actual: nat, limit: nat)
    requires ValidRun(cfg, Begin(cfg, n), events)
    requires i < |Run(cfg, Begin(cfg, n), events).callers| && HoldsTicket(Run(cfg, Begin(cfg, n), events).callers[i])
    ensures var r := Run(cfg, Begin(cfg, n), events);
      var t := r.callers[i].ticket;
      && t < |r.ledger|
      && ReleaseScript(r.counter, r.ledger[t].amount) == r.counter - r.ledger[t].amount
      && SettleScript(r.counter, r.ledger[t].amount, actual, limit).0 == r.counter - r.ledger[t].amount + actual
  {
    RunKeepsInv(cfg, Begin(cfg, n), events);
    hide Inv, Run, ValidRun;
    NeverClamps(cfg, Run(cfg, Begin(cfg, n), events), i);
  }

  /** No settled cost is more than was reserved for it. */
  ghost predicate NoneOver(ledger: seq<Entry>) {
    forall t :: 0 <= t < |ledger| && ledger[t].status.Settled? ==> ledger[t].status.actual <= ledger[t].amount
  }

  lemma {:induction false} NoOvershoot(ledger: seq<Entry>)
    requires NoneOver(ledger)
    ensures Sum(ledger, Overshoot) == 0
  {
    if ledger != [] { NoOvershoot(ledger[..|ledger| - 1]); }
  }

  /** Each reservation is resolved at most once: what is no longer outstanding never
      changes again, and nothing is ever taken out of the ledger. */
  lemma {:induction false} ResolvedOnce(cfg: Config, s: State, events: seq<Event>, t: nat)
    requires Inv(cfg, s) && ValidRun(cfg, s, events) && t < |s.ledger|
    ensures var r := Run(cfg, s, events);
      && t < |r.ledger|
      && r.ledger[t].(status := Outstanding) == s.ledger[t].(status := Outstanding)
      && (!s.ledger[t].status.Outstanding? ==> r.ledger[t] == s.ledger[t])
    decreases |events|
  {
    if events != [] {
      var next := Step(cfg, s, events[0]);
      StepKeepsInv(cfg, s, events[0]);
      StepResolvesOutstanding(cfg, s, events[0], t);
      hide Inv, Step;
      ResolvedOnce(cfg, next, events[1..], t);
    }
  }

  lemma StepResolvesOutstanding(cfg: Config, s: State, e: Event, t: nat)
    requires Inv(cfg, s) && Enabled(s, e) && t < |s.ledger|
    ensures var r := Step(cfg, s, e);
      && t < |r.ledger|
      && r.ledger[t].(status := Outstanding) == s.ledger[t].(status := Outstanding)
      && (!s.ledger[t].status.Outstanding? ==> r.ledger[t] == s.ledger[t])
  {
    assert TicketOk(s, e.caller);
    hide Inv, RouteOk, Sum;
  }

  /** Where an error leads: on to the next route if there is one and the error is one of
      these four, and out of the inference otherwise. */
  lemma FallbackMeans(cfg: Config, s: State, i: nat)
    requires Enabled(s, Recover(i))
    ensures var r := Step(cfg, s, Recover(i));
      && (r.callers[i] == Idle(s.callers[i].route + 1) <==>
            && s.callers[i].route + 1 < cfg.routes(i) && FallsBack(s.callers[i].code))
      && (r.callers[i].Idle? || r.callers[i].Thrown?)
      && r.counter == s.counter && r.ledger == s.ledger
      && forall k :: 0 <= k < |s.callers| && k != i ==> r.callers[k] == s.callers[k]
  {
  }

  /** A response is refused for its cost by the spend as this inference read it before it
      reserved, whatever others have reserved or settled since. */
  lemma ResponseMeans(cfg: Config, s: State, i: nat, cost: Option<nat>)
    requires Enabled(s, Respond(i, cost))
    ensures var c := s.callers[i];
      var tooMuch :=
        || (cost.None? && cfg.failClosed)
        || (cost.Some? && (cost.value > cfg.maxPerRequest || c.snapshot + cost.value > cfg.maxPerDay));
      Step(cfg, s, Respond(i, cost)) == s.(callers := s.callers[i :=
        if tooMuch then Releasing(c.route, c.ticket, BUDGET_EXCEEDED)
        else Settling(c.route, c.ticket, if cost.Some? then cost.value else 0)])
  {
  }

  predicate FallsBack(code: Code) {
    code == MODEL_NOT_AVAILABLE || code == PROVIDER_ERROR || code == RATE_LIMITED || code == TIMEOUT
  }

  /** No reservation, settled cost or cost about to be settled is more than a request may cost. */
  ghost predicate WithinRequest(cfg: Config, s: State) {
    && (forall t :: 0 <= t < |s.ledger| ==>
          && s.ledger[t].amount <= cfg.maxPerRequest
          && (s.ledger[t].status.Settled? ==> s.ledger[t].status.actual <= cfg.maxPerRequest))
    && (forall i :: 0 <= i < |s.callers| && s.callers[i].Settling? ==> s.callers[i].actual <= cfg.maxPerRequest)
  }

  lemma StepStaysWithinRequest(cfg: Config, s: State, e: Event)
    requires WithinRequest(cfg, s) && Enabled(s, e)
    ensures WithinRequest(cfg, Step(cfg, s, e))
  {
    hide ReserveScript, SettleScript, ReleaseScript, CanFallback;
  }

  lemma {:induction false} RunStaysWithinRequest(cfg: Config, s: State, events: seq<Event>)
    requires WithinRequest(cfg, s) && ValidRun(cfg, s, events)
    ensures WithinRequest(cfg, Run(cfg, s, events))
    decreases |events|
  {
    hide WithinRequest, Step;
    if events != [] {
      StepStaysWithinRequest(cfg, s, events[0]);
      RunStaysWithinRequest(cfg, Step(cfg, s, events[0]), events[1..]);
    }
  }

  /** In no interleaving does a reservation or a settled cost exceed what one request
      may cost. */
  lemma NoRequestOverLimit(cfg: Config, n: nat, events: seq<Event>, t: nat)
    requires ValidRun(cfg, Begin(cfg, n), events) && t < |Run(cfg, Begin(cfg, n), events).ledger|
    ensures var e := Run(cfg, Begin(cfg, n), events).ledger[t];
      e.amount <= cfg.maxPerRequest && (e.status.Settled? ==> e.status.actual <= cfg.maxPerRequest)
  {
    hide Run, ValidRun;
    RunStaysWithinRequest(cfg, Begin(cfg, n), events);
  }

  /** An inference makes at most one reservation per route, and an inference that
      succeeded has a settled one. */
  lemma AttemptsAreBounded(cfg: Config, n: nat, events: seq<Event>, i: nat)
    requires ValidRun(cfg, Begin(cfg, n), events) && i < |Run(cfg, Begin(cfg, n), events).callers|
    ensures var r := Run(cfg, Begin(cfg, n), events);
      && OnePerRoute(r.ledger)
      && (forall t :: 0 <= t < |r.ledger| && r.ledger[t].owner == i ==> r.ledger[t].route < cfg.routes(i))
      && (r.callers[i].Succeeded? ==>
            exists t :: 0 <= t < |r.ledger| && r.ledger[t].owner == i && r.ledger[t].status.Settled?)
  {
    RunKeepsInv(cfg, Begin(cfg, n), events);
    hide Run, ValidRun, Sum;
    assert TicketOk(Run(cfg, Begin(cfg, n), events), i) && RouteOk(cfg, Run(cfg, Begin(cfg, n), events), i);
  }

  // ------------------------------------------- one inference, undisturbed

  /** What one attempt meets: the estimate, the transport's answer or error, the
      later checks, and what each store script does. */
  datatype Attempt = Attempt(
    estimate: Option<nat>, reply: Option<Option<nat>>, failure: Code, checksPass: bool, reserveFate: Fate,
    settleFate: Fate, releaseFate: Fate)

  /** The step an inference takes next, given what its attempt meets. */
  function Next(a: Attempt, c: Caller): Event
    requires !c.Succeeded? && !c.Thrown?
  {
    match c
    case Idle(_) => Read(0)
    case HasRead(_, _) => Reserve(0, a.estimate, a.reserveFate)
    case InFlight(_, _, _) => if a.reply.Some? then Respond(0, a.reply.value) else TransportFails(0, a.failure)
    case Settling(_, _, _) => Settle(0, a.settleFate, a.failure)
    case Releasing(_, _, _) => Release(0, a.releaseFate)
    case Checking(_, _) => if a.checksPass then PassChecks(0) else FailChecks(0, a.failure)
    case Caught(_, _) => Recover(0)
  }

  /** At most six steps an attempt, and an attempt a route. */
  function StepsLeft(routes: nat, c: Caller): nat {
    match c
    case Idle(r) => if r < routes then 7 * (routes - r) + 6 else 6
    case HasRead(r, _) => if r < routes then 7 * (routes - r) + 5 else 5
    case InFlight(r, _, _) => if r < routes then 7 * (routes - r) + 4 else 4
    case Settling(r, _, _) => if r < routes then 7 * (routes - r) + 3 else 3
    case Releasing(r, _, _) => if r < routes then 7 * (routes - r) + 3 else 3
    case Checking(r, _) => if r < routes then 7 * (routes - r) + 2 else 2
    case Caught(r, _) => if r < routes then 7 * (routes - r) + 1 else 1
    case _ => 0
  }

  /** One inference on its own machine can take the step its attempt asks for. */
  predicate CanGo(cfg: Config, s: State, attempts: seq<Attempt>) {
    && |s.callers| == 1 && !s.callers[0].Succeeded? && !s.callers[0].Thrown?
    && s.callers[0].route < |attempts|
    && Enabled(s, Next(attempts[s.callers[0].route], s.callers[0]))
  }

  function Go(cfg: Config, s: State, attempts: seq<Attempt>): State
    requires CanGo(cfg, s, attempts)
  {
    Step(cfg, s, Next(attempts[s.callers[0].route], s.callers[0]))
  }

  lemma GoComesCloser(cfg: Config, s: State, attempts: seq<Attempt>)
    requires CanGo(cfg, s, attempts)
    ensures var r := Go(cfg, s, attempts);
      |r.callers| == 1 && StepsLeft(cfg.routes(0), r.callers[0]) < StepsLeft(cfg.routes(0), s.callers[0])
  {
    hide Refused, ReleaseScript, SettleScript, ReserveScript;
  }

  /** Where an inference that nothing disturbs comes out. */
  ghost function Drive(cfg: Config, s: State, attempts: seq<Attempt>): (r: State)
    requires |s.callers| == 1
    ensures |r.callers| == 1
    decreases StepsLeft(cfg.routes(0), s.callers[0])
  {
    if !CanGo(cfg, s, attempts) then s
    else
      GoComesCloser(cfg, s, attempts);
      Drive(cfg, Go(cfg, s, attempts), attempts)
  }

  /** What the inference holds was reserved from `start` on, and nothing else from there
      on is outstanding. */
  ghost predicate Tidy(s: State, start: nat) {
    && |s.callers| == 1 && start <= |s.ledger|
    && (HoldsTicket(s.callers[0]) ==> start <= s.callers[0].ticket)
    && forall t :: start <= t < |s.ledger| && s.ledger[t].status.Outstanding? ==>
         HoldsTicket(s.callers[0]) && s.callers[0].ticket == t
  }

  /** What one step of one inference does to the ledger: nothing, while it keeps what it
      holds; resolve what it holds; or add an entry to hold. */
  ghost predicate LedgerMoves(s: State, r: State)
    requires |s.callers| == |r.callers| == 1
  {
    var c, next := s.callers[0], r.callers[0];
    || (r.ledger == s.ledger && (HoldsTicket(c) <==> HoldsTicket(next)) && (HoldsTicket(c) ==> next.ticket == c.ticket))
    || (HoldsTicket(c) && !HoldsTicket(next) && c.ticket < |s.ledger| == |r.ledger|
        && !r.ledger[c.ticket].status.Outstanding? && r.ledger == s.ledger[c.ticket := r.ledger[c.ticket]])
    || (!HoldsTicket(c) && |r.ledger| == |s.ledger| + 1 && r.ledger == s.ledger + [r.ledger[|s.ledger|]]
        && (if HoldsTicket(next) then next.ticket == |s.ledger| else !r.ledger[|s.ledger|].status.Outstanding?))
  }

  lemma SettleMoves(cfg: Config, s: State, fate: Fate, code: Code)
    requires |s.callers| == 1 && s.callers[0].Settling? && s.callers[0].ticket < |s.ledger|
    ensures var r := SettleStep(cfg, s, 0, fate, code); |r.callers| == 1 && LedgerMoves(s, r)
  {
    hide SettleScript;
  }

  lemma ReserveMoves(cfg: Config, s: State, estimate: Option<nat>, fate: Fate)
    requires |s.callers| == 1 && s.callers[0].HasRead?
    ensures var r := ReserveStep(cfg, s, 0, estimate, fate); |r.callers| == 1 && LedgerMoves(s, r)
  {
    hide ReserveStep;
    var moved, e, next := ReserveOutcome(cfg, s, 0, estimate, fate);
  }

  lemma GoMoves(cfg: Config, s: State, attempts: seq<Attempt>)
    requires CanGo(cfg, s, attempts)
    ensures var r := Go(cfg, s, attempts); |r.callers| == 1 && LedgerMoves(s, r)
  {
    hide ReserveStep, SettleStep, Refused, CanFallback, ReleaseScript, ReserveScript, SettleScript;
    var e := Next(attempts[s.callers[0].route], s.callers[0]);
    if e.Reserve? {
      hide LedgerMoves;
      ReserveMoves(cfg, s, e.estimate, e.fate);
    } else if e.Settle? {
      hide LedgerMoves;
      SettleMoves(cfg, s, e.fate, e.code);
    }
  }

  lemma MovesStayTidy(s: State, r: State, start: nat)
    requires Tidy(s, start) && |r.callers| == 1 && LedgerMoves(s, r)
    ensures Tidy(r, start) && |s.ledger| <= |r.ledger| && forall t :: 0 <= t < start ==> r.ledger[t] == s.ledger[t]
  {
  }

  /** An undisturbed inference ends, succeeded or failed; it keeps the books, leaves
      nothing outstanding of its own and touches no earlier entry. */
  lemma {:induction false} DriveEnds(cfg: Config, s: State, attempts: seq<Attempt>, start: nat)
    requires Inv(cfg, s) && Tidy(s, start) && |attempts| == cfg.routes(0)
    ensures var r := Drive(cfg, s, attempts);
      && Inv(cfg, r) && (r.callers[0].Succeeded? || r.callers[0].Thrown?)
      && start <= |r.ledger| && (forall t :: 0 <= t < start ==> r.ledger[t] == s.ledger[t])
      && (forall t :: start <= t < |r.ledger| ==> !r.ledger[t].status.Outstanding?)
    decreases StepsLeft(cfg.routes(0), s.callers[0])
  {
    hide Inv, Go, CanGo;
    if s.callers[0].Succeeded? || s.callers[0].Thrown? {
      Stops(cfg, s, attempts);
    } else {
      InvCanGo(cfg, s, attempts);
      GoKeepsInv(cfg, s, attempts);
      GoMoves(cfg, s, attempts);
      MovesStayTidy(s, Go(cfg, s, attempts), start);
      GoComesCloser(cfg, s, attempts);
      hide Tidy, LedgerMoves;
      DriveEnds(cfg, Go(cfg, s, attempts), attempts, start);
    }
  }

  lemma InvCanGo(cfg: Config, s: State, attempts: seq<Attempt>)
    requires Inv(cfg, s) && |attempts| == cfg.routes(0) && |s.callers| == 1
    requires !s.callers[0].Succeeded? && !s.callers[0].Thrown?
    ensures CanGo(cfg, s, attempts)
  {
    assert TicketOk(s, 0) && RouteOk(cfg, s, 0);
    hide Inv, TicketOk, RouteOk, Sum;
  }

  lemma GoKeepsInv(cfg: Config, s: State, attempts: seq<Attempt>)
    requires Inv(cfg, s) && CanGo(cfg, s, attempts)
    ensures Inv(cfg, Go(cfg, s, attempts))
  {
    hide Inv, Step, Enabled, Next;
    StepKeepsInv(cfg, s, Next(attempts[s.callers[0].route], s.callers[0]));
  }

  // ---------------------------------------------- attempts judged in one go

  /** How an attempt ends: it passes every check, it is refused before its guarded
      region and ends the inference, or it fails inside with an error code. */
  datatype Ending = Passed | Stopped | Failed(code: Code)

  /** The ending of an attempt, the counter it leaves and the entry it leaves, if any. */
  datatype Verdict = Verdict(ending: Ending, counter: int, entry: Option<Entry>)

  /** One undisturbed attempt, judged without machine, scripts or policy: from the
      counter it meets and what it meets. */
  function Judge(cfg: Config, a: Attempt, counter: int, route: nat): Verdict {
    if a.estimate.None? || a.estimate.value > cfg.maxPerRequest || counter + a.estimate.value > cfg.maxPerDay
      || a.reserveFate.NotRun?
    then Verdict(Stopped, counter, None)
    else
      var reserved := counter + a.estimate.value;
      var entry := (status: Status) => Some(Entry(0, route, a.estimate.value, status));
      if a.reserveFate.AnswerLost? then Verdict(Stopped, reserved, entry(Unreleased))
      else if a.reply == None && a.failure == TIMEOUT then Verdict(Failed(TIMEOUT), reserved, entry(Retained))
      else if a.reply == None || CostsTooMuch(cfg, counter, a.reply.value) then
        var ending := Failed(if a.reply == None then a.failure else BUDGET_EXCEEDED);
        if a.releaseFate.NotRun? then Verdict(ending, reserved, entry(Unreleased))
        else Verdict(ending, if counter < 0 then 0 else counter, entry(Released))
      else if a.settleFate.NotRun? then Verdict(Failed(a.failure), reserved, entry(Unreleased))
      else
        var actual := if a.reply.value.Some? then a.reply.value.value else 0;
        var settled := if counter + actual < 0 then 0 else counter + actual;
        var ending :=
          if a.settleFate.AnswerLost? then Failed(a.failure)
          else if settled > cfg.maxPerDay then Failed(BUDGET_EXCEEDED)
          else if a.checksPass then Passed
          else Failed(a.failure);
        Verdict(ending, settled, entry(Settled(actual)))
  }

  predicate CostsTooMuch(cfg: Config, counter: int, cost: Option<nat>) {
    (cost.None? && cfg.failClosed)
    || (cost.Some? && (cost.value > cfg.maxPerRequest || counter + cost.value > cfg.maxPerDay))
  }

  /** The attempt on each route, each judged from the counter the one before left. */
  function Judged(cfg: Config, attempts: seq<Attempt>, counter: int, route: nat): Verdict
    requires route < |attempts|
    decreases route, 1
  {
    Judge(cfg, attempts[route], CounterAt(cfg, attempts, counter, route), route)
  }

  function CounterAt(cfg: Config, attempts: seq<Attempt>, counter: int, route: nat): int
    requires route <= |attempts|
    decreases route, 0
  {
    if route == 0 then counter else Judged(cfg, attempts, counter, route - 1).counter
  }

  /** What the first `made` attempts leave in the ledger. */
  function EntriesOf(cfg: Config, attempts: seq<Attempt>, counter: int, made: nat): seq<Entry>
    requires made <= |attempts|
  {
    if made == 0 then []
    else
      var v := Judged(cfg, attempts, counter, made - 1);
      EntriesOf(cfg, attempts, counter, made - 1) + if v.entry.Some? then [v.entry.value] else []
  }

  /** An attempt that fails in a way that lets the next route be tried. */
  predicate MovesOn(v: Verdict) {
    v.ending.Failed? && FallsBack(v.ending.code)
  }

  /** `made` attempts were made: each but the last failed with one of the four codes, and
      the last did not or there are no more routes. */
  ghost predicate IsMade(cfg: Config, attempts: seq<Attempt>, counter: int, made: nat) {
    && made <= |attempts|
    && (forall k :: 0 <= k < made - 1 ==> MovesOn(Judged(cfg, attempts, counter, k)))
    && (made < |attempts| ==> made > 0 && !MovesOn(Judged(cfg, attempts, counter, made - 1)))
  }

  /** Where a judged attempt leaves its inference. */
  function After(v: Verdict, route: nat, ledger: seq<Entry>): State {
    Alone(v.counter, Left(v, ledger),
          match v.ending
          case Passed => Succeeded(|ledger|)
          case Stopped => Thrown
          case Failed(code) => Caught(route, code))
  }

  /** The machine, driven from the settlement on, comes to what the judgement says. */
  lemma SettlementJudged(cfg: Config, attempts: seq<Attempt>, counter: int, ledger: seq<Entry>, route: nat)
    requires route < |attempts|
    requires var a := attempts[route];
      && a.estimate.Some? && a.estimate.value <= cfg.maxPerRequest && counter + a.estimate.value <= cfg.maxPerDay
      && a.reserveFate.Answered? && a.reply.Some? && !CostsTooMuch(cfg, counter, a.reply.value)
    ensures var a := attempts[route];
      var actual := if a.reply.value.Some? then a.reply.value.value else 0;
      var held := ledger + [Entry(0, route, a.estimate.value, Outstanding)];
      Drive(cfg, Alone(counter + a.estimate.value, held, Settling(route, |ledger|, actual)), attempts)
        == Drive(cfg, After(Judge(cfg, a, counter, route), route, ledger), attempts)
  {
    hide Drive;
    var a := attempts[route];
    var actual := if a.reply.value.Some? then a.reply.value.value else 0;
    var held := ledger + [Entry(0, route, a.estimate.value, Outstanding)];
    var s := Alone(counter + a.estimate.value, held, Settling(route, |ledger|, actual));
    var v := Judge(cfg, a, counter, route);
    assert Mark(held, |ledger|, v.entry.value.status) == ledger + [v.entry.value];
    Onward(cfg, s, attempts, Go(cfg, s, attempts));
    var next := Go(cfg, s, attempts);
    if next.callers[0].Checking? {
      Onward(cfg, next, attempts, Go(cfg, next, attempts));
      assert Go(cfg, next, attempts) == After(v, route, ledger);
    } else {
      assert next == After(v, route, ledger);
    }
  }

  lemma GuardedJudged(cfg: Config, attempts: seq<Attempt>, counter: int, ledger: seq<Entry>, route: nat)
    requires route < |attempts|
    requires var a := attempts[route];
      && a.estimate.Some? && a.estimate.value <= cfg.maxPerRequest && counter + a.estimate.value <= cfg.maxPerDay
      && a.reserveFate.Answered?
    ensures var a := attempts[route];
      var held := ledger + [Entry(0, route, a.estimate.value, Outstanding)];
      Drive(cfg, Alone(counter + a.estimate.value, held, InFlight(route, counter, |ledger|)), attempts)
        == Drive(cfg, After(Judge(cfg, a, counter, route), route, ledger), attempts)
  {
    hide Drive;
    var a := attempts[route];
    var held := ledger + [Entry(0, route, a.estimate.value, Outstanding)];
    var s := Alone(counter + a.estimate.value, held, InFlight(route, counter, |ledger|));
    var v := Judge(cfg, a, counter, route);
    assert Mark(held, |ledger|, v.entry.value.status) == ledger + [v.entry.value];
    Onward(cfg, s, attempts, Go(cfg, s, attempts));
    var next := Go(cfg, s, attempts);
    if next.callers[0].Settling? {
      SettlementJudged(cfg, attempts, counter, ledger, route);
      assert next.callers == [next.callers[0]];
    } else if next.callers[0].Releasing? {
      Onward(cfg, next, attempts, Go(cfg, next, attempts));
      assert Go(cfg, next, attempts) == After(v, route, ledger);
    } else {
      assert next == After(v, route, ledger);
    }
  }

  /** One attempt of the machine comes to what it is judged to come to. */
  lemma AttemptJudged(cfg: Config, attempts: seq<Attempt>, counter: int, ledger: seq<Entry>, route: nat)
    requires route < |attempts|
    ensures Drive(cfg, Alone(counter, ledger, Idle(route)), attempts)
      == Drive(cfg, After(Judge(cfg, attempts[route], counter, route), route, ledger), attempts)
  {
    hide Drive;
    var read := Alone(counter, ledger, HasRead(route, counter));
    Onward(cfg, Alone(counter, ledger, Idle(route)), attempts, read);
    Onward(cfg, read, attempts, Go(cfg, read, attempts));
    var next := Go(cfg, read, attempts);
    if next.callers[0].InFlight? {
      GuardedJudged(cfg, attempts, counter, ledger, route);
      assert next.callers == [InFlight(route, counter, |ledger|)];
    } else {
      assert next == After(Judge(cfg, attempts[route], counter, route), route, ledger);
    }
  }

  /** And so does the whole loop, from any route on that the attempts before lead to. */
  lemma {:induction false} LoopJudged(cfg: Config, attempts: seq<Attempt>, counter: int, ledger: seq<Entry>, route: nat)
    returns (made: nat)
    requires route <= |attempts| == cfg.routes(0)
    requires forall k :: 0 <= k < route ==> MovesOn(Judged(cfg, attempts, counter, k))
    ensures IsMade(cfg, attempts, counter, made)
    ensures var s := Alone(CounterAt(cfg, attempts, counter, route),
                           ledger + EntriesOf(cfg, attempts, counter, route), Idle(route));
      var r := Drive(cfg, s, attempts);
      && r.counter == CounterAt(cfg, attempts, counter, made)
      && r.ledger == ledger + EntriesOf(cfg, attempts, counter, made)
      && (r.callers[0].Succeeded? <==> made > 0 && Judged(cfg, attempts, counter, made - 1).ending.Passed?)
    decreases |attempts| - route
  {
    hide Drive, Judge, Alone, After;
    var before := ledger + EntriesOf(cfg, attempts, counter, route);
    var at := CounterAt(cfg, attempts, counter, route);
    made := route;
    if route == |attempts| {
      StopsHere(cfg, attempts, at, before, route);
    } else {
      var v := Judged(cfg, attempts, counter, route);
      AttemptJudged(cfg, attempts, at, before, route);
      VerdictLeads(cfg, attempts, v, before, route);
      assert Left(v, before) == ledger + EntriesOf(cfg, attempts, counter, route + 1);
      made := route + 1;
      if MovesOn(v) && route + 1 < |attempts| {
        made := LoopJudged(cfg, attempts, counter, ledger, route + 1);
      }
    }
  }

  lemma StopsHere(cfg: Config, attempts: seq<Attempt>, counter: int, ledger: seq<Entry>, route: nat)
    requires route >= |attempts|
    ensures var r := Drive(cfg, Alone(counter, ledger, Idle(route)), attempts);
      r.counter == counter && r.ledger == ledger && !r.callers[0].Succeeded?
  {
    Stops(cfg, Alone(counter, ledger, Idle(route)), attempts);
  }

  /** What a judged attempt leaves behind it in the ledger. */
  function Left(v: Verdict, ledger: seq<Entry>): seq<Entry> {
    if v.entry.Some? then ledger + [v.entry.value] else ledger
  }

  /** A failure that moves on leads to the next route, if there is one; every other
      ending is where the inference ends. */
  lemma VerdictLeads(cfg: Config, attempts: seq<Attempt>, v: Verdict, ledger: seq<Entry>, route: nat)
    requires route < |attempts| == cfg.routes(0)
    ensures var r := Drive(cfg, After(v, route, ledger), attempts);
      if MovesOn(v) && route + 1 < |attempts|
      then r == Drive(cfg, Alone(v.counter, Left(v, ledger), Idle(route + 1)), attempts)
      else r.counter == v.counter && r.ledger == Left(v, ledger) && (r.callers[0].Succeeded? <==> v.ending.Passed?)
  {
    hide Drive;
    var s := After(v, route, ledger);
    if v.ending.Failed? {
      var place := if MovesOn(v) && route + 1 < |attempts| then Idle(route + 1) else Thrown;
      var next := Alone(v.counter, Left(v, ledger), place);
      assert Go(cfg, s, attempts) == next;
      Onward(cfg, s, attempts, next);
      if next.callers[0].Thrown? { Stops(cfg, next, attempts); }
    } else {
      Stops(cfg, s, attempts);
    }
  }

  lemma JudgedFromStart(cfg: Config, attempts: seq<Attempt>, counter: int, ledger: seq<Entry>)
    ensures CounterAt(cfg, attempts, counter, 0) == counter
    ensures ledger + EntriesOf(cfg, attempts, counter, 0) == ledger
  {
  }

  /** An inference passes exactly when some attempt does and all before it failed in a way
      that moves on; and what it reserves on a route it reserves after such failures only. */
  lemma MadeMeans(cfg: Config, attempts: seq<Attempt>, counter: int, made: nat)
    requires IsMade(cfg, attempts, counter, made)
    ensures (made > 0 && Judged(cfg, attempts, counter, made - 1).ending.Passed?)
      <==> (exists r: nat :: Wins(cfg, attempts, counter, r))
    ensures forall e :: e in EntriesOf(cfg, attempts, counter, made) ==>
      e.route < |attempts| && forall k :: 0 <= k < e.route ==> MovesOn(Judged(cfg, attempts, counter, k))
  {
    hide Judged;
    if made > 0 && Judged(cfg, attempts, counter, made - 1).ending.Passed? {
      assert Wins(cfg, attempts, counter, made - 1);
    }
    if r: nat :| Wins(cfg, attempts, counter, r) {
      assert r < made - 1 ==> MovesOn(Judged(cfg, attempts, counter, r));
    }
    EntriesOnRoutes(cfg, attempts, counter, made);
  }

  /** The attempt on this route passes, and each before it fails with one of the four codes. */
  ghost predicate Wins(cfg: Config, attempts: seq<Attempt>, counter: int, route: nat) {
    && route < |attempts| && Judged(cfg, attempts, counter, route).ending.Passed?
    && forall k :: 0 <= k < route ==> MovesOn(Judged(cfg, attempts, counter, k))
  }

  lemma {:induction false} EntriesOnRoutes(cfg: Config, attempts: seq<Attempt>, counter: int, made: nat)
    requires made <= |attempts|
    ensures forall e :: e in EntriesOf(cfg, attempts, counter, made) ==> e.route < made
  {
    if made > 0 { EntriesOnRoutes(cfg, attempts, counter, made - 1); }
  }

  // ------------------------------------------------------------ run in place

  /** The shared daily counter. */
  class UsageMeter {
    var counter: int

    constructor ()
      ensures counter == 0
    {
      counter := 0;
    }

    method ReserveDailyCost(estimate: nat, limit: nat) returns (reserved: bool)
      modifies this
      ensures (counter, reserved) == ReserveScript(old(counter), estimate, limit)
    {
      var proposed := counter + estimate;
      if proposed > limit { return false; }
      counter := proposed;
      return true;
    }

    method SettleDailyCost(reserved: nat, actual: nat, limit: nat) returns (within: bool)
      modifies this
      ensures (counter, within) == SettleScript(old(counter), reserved, actual, limit)
    {
      counter := Max(0, counter - reserved + actual);
      return counter <= limit;
    }

    method ReleaseDailyCost(reserved: nat)
      modifies this
      ensures counter == ReleaseScript(old(counter), reserved)
    {
      counter := Max(0, counter - reserved);
    }
  }

  /** A machine of one inference. */
  function Alone(counter: int, ledger: seq<Entry>, c: Caller): State {
    State(counter, ledger, [c])
  }

  /** The guarded region of one attempt, from the transport's call to the end of the
      error handling, with its reservation in hand. */
  method TryRoute(cfg: Config, meter: UsageMeter, attempts: seq<Attempt>, route: nat, snapshot: int,
        estimate: nat, ghost ledger: seq<Entry>)
    returns (ok: bool, code: Code, ghost after: seq<Entry>)
    requires route < |attempts|
    modifies meter
    ensures Drive(cfg, Alone(old(meter.counter), ledger + [Entry(0, route, estimate, Outstanding)],
                             InFlight(route, snapshot, |ledger|)), attempts)
      == Drive(cfg, Alone(meter.counter, after, if ok then Succeeded(|ledger|) else Caught(route, code)), attempts)
  {
    hide Drive;
    var a := attempts[route];
    ghost var t := |ledger|;
    code, after := a.failure, ledger + [Entry(0, route, estimate, Outstanding)];
    ghost var s := Alone(meter.counter, after, InFlight(route, snapshot, t));
    if a.reply.Some? && !Refused(cfg, snapshot, a.reply.value) {
      var actual := if a.reply.value.Some? then a.reply.value.value else 0;
      Onward(cfg, s, attempts, Alone(meter.counter, after, Settling(route, t, actual)));
      s := Alone(meter.counter, after, Settling(route, t, actual));
      ok, code, after := SettleAndCheck(cfg, meter, attempts, route, estimate, actual, t, after);
    } else if a.reply.None? && a.failure.TIMEOUT? {
      ok, after := false, Mark(after, t, Retained);
      Onward(cfg, s, attempts, Alone(meter.counter, after, Caught(route, code)));
    } else {
      if a.reply.Some? { code := BUDGET_EXCEEDED; }
      Onward(cfg, s, attempts, Alone(meter.counter, after, Releasing(route, t, code)));
      s := Alone(meter.counter, after, Releasing(route, t, code));
      ok, after := false, Mark(after, t, if a.releaseFate.NotRun? then Unreleased else Released);
      if !a.releaseFate.NotRun? {
        meter.ReleaseDailyCost(estimate);
      }
      Onward(cfg, s, attempts, Alone(meter.counter, after, Caught(route, code)));
    }
  }

  method SettleAndCheck(cfg: Config, meter: UsageMeter, attempts: seq<Attempt>, route: nat, estimate: nat,
        actual: nat, ghost t: nat, ghost ledger: seq<Entry>)
    returns (ok: bool, code: Code, ghost after: seq<Entry>)
    requires route < |attempts| && t < |ledger| && ledger[t].amount == estimate
    modifies meter
    ensures Drive(cfg, Alone(old(meter.counter), ledger, Settling(route, t, actual)), attempts)
      == Drive(cfg, Alone(meter.counter, after, if ok then Succeeded(t) else Caught(route, code)), attempts)
  {
    hide Drive;
    var a := attempts[route];
    ghost var s := Alone(meter.counter, ledger, Settling(route, t, actual));
    ok, code := false, a.failure;
    if a.settleFate.NotRun? {
      after := Mark(ledger, t, Unreleased);
      Onward(cfg, s, attempts, Alone(meter.counter, after, Caught(route, code)));
      return;
    }
    after := Mark(ledger, t, Settled(actual));
    var within := meter.SettleDailyCost(estimate, actual, cfg.maxPerDay);
    if a.settleFate.AnswerLost? || !within {
      code := if a.settleFate.AnswerLost? then code else BUDGET_EXCEEDED;
      Onward(cfg, s, attempts, Alone(meter.counter, after, Caught(route, code)));
    } else {
      Onward(cfg, s, attempts, Alone(meter.counter, after, Checking(route, t)));
      s := Alone(meter.counter, after, Checking(route, t));
      ok := a.checksPass;
      Onward(cfg, s, attempts, Alone(meter.counter, after, if ok then Succeeded(t) else Caught(route, code)));
    }
  }

  lemma Stops(cfg: Config, s: State, attempts: seq<Attempt>)
    requires |s.callers| == 1 && (s.callers[0].Succeeded? || s.callers[0].Thrown? || s.callers[0].route >= |attempts|)
    ensures Drive(cfg, s, attempts) == s
  {
    hide Go;
  }

  lemma Onward(cfg: Config, s: State, attempts: seq<Attempt>, next: State)
    requires CanGo(cfg, s, attempts) && next == Go(cfg, s, attempts)
    ensures |next.callers| == 1 && Drive(cfg, s, attempts) == Drive(cfg, next, attempts)
  {
    hide Go, CanGo;
    GoComesCloser(cfg, s, attempts);
  }

  /** Estimate, policy and reservation, before the guarded region. */
  method TryReserve(cfg: Config, meter: UsageMeter, attempts: seq<Attempt>, route: nat, snapshot: int,
        ghost ledger: seq<Entry>)
    returns (reserved: bool, ghost after: seq<Entry>)
    requires route < |attempts|
    modifies meter
    ensures reserved ==>
      attempts[route].estimate.Some? && after == ledger + [Entry(0, route, attempts[route].estimate.value, Outstanding)]
    ensures Drive(cfg, Alone(old(meter.counter), ledger, HasRead(route, snapshot)), attempts)
      == Drive(cfg, Alone(meter.counter, after, if reserved then InFlight(route, snapshot, |ledger|) else Thrown),
        attempts)
  {
    hide Drive;
    var a := attempts[route];
    ghost var s := Alone(meter.counter, ledger, HasRead(route, snapshot));
    reserved, after := false, ledger;
    if Refused(cfg, snapshot, a.estimate) || a.estimate.None? || a.reserveFate.NotRun? {
      Onward(cfg, s, attempts, Alone(meter.counter, after, Thrown));
      return;
    }
    reserved := meter.ReserveDailyCost(a.estimate.value, cfg.maxPerDay);
    if reserved {
      reserved := a.reserveFate.Answered?;
      after := ledger + [Entry(0, route, a.estimate.value, if reserved then Outstanding else Unreleased)];
    }
    ghost var next := if reserved then InFlight(route, snapshot, |ledger|) else Thrown;
    Onward(cfg, s, attempts, Alone(meter.counter, after, next));
  }

  /** The attempt loop of one inference that nothing disturbs: the counter it leaves, and
      whether it returns or throws, are what the machine comes out with, driven by the same
      estimates, replies and store failures. It returns exactly if some attempt passes every
      check and each before it failed with one of the four codes, and it reserves on no route
      after the first attempt that ended in another way. */
  method InferOrThrow(cfg: Config, meter: UsageMeter, attempts: seq<Attempt>, ghost ledger: seq<Entry>)
    returns (ok: bool, ghost after: seq<Entry>, ghost made: nat)
    requires |attempts| == cfg.routes(0)
    modifies meter
    ensures var r := Drive(cfg, Alone(old(meter.counter), ledger, Idle(0)), attempts);
      r.counter == meter.counter && r.ledger == after && (ok <==> r.callers[0].Succeeded?)
    ensures IsMade(cfg, attempts, old(meter.counter), made)
    ensures meter.counter == CounterAt(cfg, attempts, old(meter.counter), made)
    ensures after == ledger + EntriesOf(cfg, attempts, old(meter.counter), made)
    ensures ok <==> exists r: nat :: Wins(cfg, attempts, old(meter.counter), r)
    ensures forall e :: e in after[|ledger|..] ==>
      e.route < |attempts| && forall k :: 0 <= k < e.route ==> MovesOn(Judged(cfg, attempts, old(meter.counter), k))
  {
    hide Drive, Judge, Judged, IsMade, EntriesOf, CounterAt, MovesOn;
    ok, after := false, ledger;
    ghost var start := Alone(meter.counter, ledger, Idle(0));
    ghost var s := start;
    for route := 0 to cfg.routes(0)
      invariant s == Alone(meter.counter, after, Idle(route)) && Drive(cfg, start, attempts) == Drive(cfg, s, attempts)
      invariant !ok
    {
      var snapshot := meter.counter;
      Onward(cfg, Alone(snapshot, after, Idle(route)), attempts, Alone(snapshot, after, HasRead(route, snapshot)));
      var reserved;
      ghost var before := after;
      reserved, after := TryReserve(cfg, meter, attempts, route, snapshot, before);
      s := Alone(meter.counter, after, if reserved then InFlight(route, snapshot, |before|) else Thrown);
      if !reserved { break; }
      var code;
      ok, code, after := TryRoute(cfg, meter, attempts, route, snapshot, attempts[route].estimate.value, before);
      s := Alone(meter.counter, after, if ok then Succeeded(|before|) else Caught(route, code));
      if ok { break; }
      var fallback := CanFallback(cfg.routes(0), code, route);
      ghost var next := Alone(meter.counter, after, if fallback then Idle(route + 1) else Thrown);
      Onward(cfg, s, attempts, next);
      s := next;
      if !fallback { break; }
    }
    Stops(cfg, s, attempts);
    JudgedFromStart(cfg, attempts, old(meter.counter), ledger);
    made := LoopJudged(cfg, attempts, old(meter.counter), ledger, 0);
    MadeMeans(cfg, attempts, old(meter.counter), made);
  }
}
