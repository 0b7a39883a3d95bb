/** The circuit breaker in front of the model provider, with any number of
    calls in flight and completions arriving in any order. */
module CircuitBreaker {

  datatype Circuit = CLOSED | OPEN | HALF_OPEN

  /** The breaker's four fields as a value. */
  datatype Breaker = Breaker(state: Circuit, consecutiveFailures: nat, openedAt: int, halfOpenProbeActive: bool)

  /** Threshold and reset delay, fixed when the client is built. */
  datatype Config = Config(failureThreshold: nat, resetMs: int)

  const INITIAL := Breaker(CLOSED, 0, 0, false)

  /** `beforeRequest` answers whether the call may go out. */
  function BeforeRequest(cfg: Config, b: Breaker, now: int): (Breaker, bool) {
    if b.state.OPEN? && now - b.openedAt < cfg.resetMs then (b, false)
    else
      var b1 := if b.state.OPEN? then b.(state := HALF_OPEN) else b;
      if b1.state.HALF_OPEN?
      then if b1.halfOpenProbeActive then (b1, false) else (b1.(halfOpenProbeActive := true), true)
      else (b1, true)
  }

  function RecordSuccess(b: Breaker): Breaker {
    Breaker(CLOSED, 0, b.openedAt, false)
  }

  function RecordFailure(cfg: Config, b: Breaker, now: int): Breaker {
    var failures := b.consecutiveFailures + 1;
    if b.state.HALF_OPEN? || failures >= cfg.failureThreshold
    then Breaker(OPEN, failures, now, false)
    else Breaker(b.state, failures, b.openedAt, false)
  }

  function RecordIgnored(b: Breaker): Breaker {
    if b.state.HALF_OPEN? then Breaker(CLOSED, 0, b.openedAt, false) else b.(halfOpenProbeActive := false)
  }

  /** HALF_OPEN holds exactly when a probe is under way, CLOSED exactly below the
      threshold. */
  predicate Sound(cfg: Config, b: Breaker) {
    && (b.state.HALF_OPEN? <==> b.halfOpenProbeActive)
    && (b.state.CLOSED? <==> b.consecutiveFailures < cfg.failureThreshold)
  }

  /** The breaker object; each method is the function above on its fields, and keeps
      them sound. */
  class OpenRouterCircuitBreaker {
    const cfg: Config
    var state: Circuit
    var consecutiveFailures: nat
    var openedAt: int
    var halfOpenProbeActive: bool

    constructor (cfg: Config)
      ensures this.cfg == cfg && View() == INITIAL && Valid()
    {
      this.cfg := cfg;
      state, consecutiveFailures, openedAt, halfOpenProbeActive := CLOSED, 0, 0, false;
    }

    ghost function View(): Breaker
      reads this
    {
      Breaker(state, consecutiveFailures, openedAt, halfOpenProbeActive)
    }

    /** What the object keeps, for a threshold of at least one failure. */
    ghost predicate Valid()
      reads this
    {
      cfg.failureThreshold >= 1 ==> Sound(cfg, View())
    }

    method Before(now: int) returns (admitted: bool)
      requires Valid()
      modifies this
      ensures Valid()
      ensures (View(), admitted) == BeforeRequest(cfg, old(View()), now)
      ensures var waited := old(state).OPEN? && now - old(openedAt) >= cfg.resetMs;
        && (admitted <==> old(state).CLOSED? || ((waited || old(state).HALF_OPEN?) && !old(halfOpenProbeActive)))
        && state == (if waited then HALF_OPEN else old(state))
        && (halfOpenProbeActive <==> old(halfOpenProbeActive) || (admitted && state.HALF_OPEN?))
      ensures consecutiveFailures == old(consecutiveFailures) && openedAt == old(openedAt)
    {
      if state == OPEN {
        if now - openedAt < cfg.resetMs { return false; }
        state := HALF_OPEN;
      }
      if state == HALF_OPEN {
        if halfOpenProbeActive { return false; }
        halfOpenProbeActive := true;
      }
      return true;
    }

    method Success()
      requires Valid()
      modifies this
      ensures Valid()
      ensures View() == RecordSuccess(old(View()))
      ensures state.CLOSED? && consecutiveFailures == 0 && !halfOpenProbeActive && openedAt == old(openedAt)
    {
      state := CLOSED;
      consecutiveFailures := 0;
      halfOpenProbeActive := false;
    }

    method Failure(now: int)
      requires Valid()
      modifies this
      ensures Valid()
      ensures View() == RecordFailure(cfg, old(View()), now)
      ensures consecutiveFailures == old(consecutiveFailures) + 1 && !halfOpenProbeActive
      ensures var opens := old(state).HALF_OPEN? || consecutiveFailures >= cfg.failureThreshold;
        state == (if opens then OPEN else old(state)) && openedAt == if opens then now else old(openedAt)
    {
      halfOpenProbeActive := false;
      consecutiveFailures := consecutiveFailures + 1;
      if state == HALF_OPEN || consecutiveFailures >= cfg.failureThreshold {
        state := OPEN;
        openedAt := now;
      }
    }

    method Ignored()
      requires Valid()
      modifies this
      ensures Valid()
      ensures View() == RecordIgnored(old(View()))
      ensures !halfOpenProbeActive && openedAt == old(openedAt)
      ensures state == (if old(state).HALF_OPEN? then CLOSED else old(state))
      ensures consecutiveFailures == if old(state).HALF_OPEN? then 0 else old(consecutiveFailures)
    {
      halfOpenProbeActive := false;
      if state == HALF_OPEN {
        state := CLOSED;
        consecutiveFailures := 0;
      }
    }
  }

  /** What `complete` does to the breaker: it asks once on entry, and an admitted
      call reports exactly one of three results when it ends. */
  datatype Event =
    | Ask(now: int)
    | Succeed(now: int)
    | Fail(now: int)
    | Ignore(now: int)

  /** The breaker and the number of admitted calls that have not reported yet. */
  datatype System = System(breaker: Breaker, inFlight: nat)

  predicate Possible(s: System, e: Event) {
    e.Ask? || s.inFlight > 0
  }

  predicate Admits(cfg: Config, s: System, e: Event) {
    e.Ask? && BeforeRequest(cfg, s.breaker, e.now).1
  }

  function Step(cfg: Config, s: System, e: Event): System
    requires Possible(s, e)
  {
    match e
    case Ask(now) =>
      var (b, admitted) := BeforeRequest(cfg, s.breaker, now);
      System(b, if admitted then s.inFlight + 1 else s.inFlight)
    case Succeed(_) => System(RecordSuccess(s.breaker), s.inFlight - 1)
    case Fail(now) => System(RecordFailure(cfg, s.breaker, now), s.inFlight - 1)
    case Ignore(_) => System(RecordIgnored(s.breaker), s.inFlight - 1)
  }

  /** A history of the client: every event was possible and led to the next
      system, and the clock never runs backwards. */
  ghost predicate History(cfg: Config, sys: seq<System>, events: seq<Event>) {
    && |sys| == |events| + 1
    && sys[0] == System(INITIAL, 0)
    && (forall k :: 0 <= k < |events| ==> Possible(sys[k], events[k]) && sys[k + 1] == Step(cfg, sys[k], events[k]))
    && (forall j, k :: 0 <= j <= k < |events| ==> events[j].now <= events[k].now)
  }

  ghost predicate Inv(cfg: Config, s: System) {
    Sound(cfg, s.breaker) && (s.breaker.state.HALF_OPEN? ==> s.inFlight > 0)
  }

  /** HALF_OPEN holds exactly when a probe flag is set, CLOSED exactly below the
      threshold, and a half-open circuit always has a call in flight whose end
      will leave that state: the breaker cannot get stuck. */
  lemma {:induction false} HistoryKeepsInv(cfg: Config, sys: seq<System>, events: seq<Event>, k: nat)
    requires cfg.failureThreshold >= 1
    requires History(cfg, sys, events) && k <= |events|
    ensures Inv(cfg, sys[k])
  {
    if k > 0 {
      HistoryKeepsInv(cfg, sys, events, k - 1);
      assert sys[k] == Step(cfg, sys[k - 1], events[k - 1]);
    }
  }

  /** Whatever ends first leaves HALF_OPEN, so no state of the circuit is final. */
  lemma AnyCompletionLeavesHalfOpen(cfg: Config, s: System, e: Event)
    requires s.breaker.state.HALF_OPEN? && Possible(s, e) && !e.Ask?
    ensures !Step(cfg, s, e).breaker.state.HALF_OPEN?
  {
  }

  /** A HALF_OPEN episode: the circuit is half open after each of the events
      from `i` to `j`, and was not before event `i`. */
  ghost predicate Episode(cfg: Config, sys: seq<System>, events: seq<Event>, i: nat, j: nat) {
    && History(cfg, sys, events) && i <= j < |events|
    && !sys[i].breaker.state.HALF_OPEN?
    && (forall k :: i < k <= j + 1 ==> sys[k].breaker.state.HALF_OPEN?)
  }

  /** Each HALF_OPEN episode admits exactly one request, the one that opens it;
      nothing else than refused requests happens until it ends. */
  lemma EpisodeAdmitsOne(cfg: Config, sys: seq<System>, events: seq<Event>, i: nat, j: nat)
    requires cfg.failureThreshold >= 1
    requires Episode(cfg, sys, events, i, j)
    ensures Admits(cfg, sys[i], events[i])
    ensures forall k :: i < k <= j ==> events[k].Ask? && !Admits(cfg, sys[k], events[k])
  {
    HistoryKeepsInv(cfg, sys, events, i);
    assert sys[i + 1] == Step(cfg, sys[i], events[i]);
    forall k | i < k <= j ensures events[k].Ask? && !Admits(cfg, sys[k], events[k]) {
      HistoryKeepsInv(cfg, sys, events, k);
      assert sys[k + 1] == Step(cfg, sys[k], events[k]);
    }
  }

  /** Once a failure has left the circuit open at time t, no request is admitted
      before t + resetMs, unless a call that was still in flight reports success
      in between. */
  lemma {:induction false} OpenHoldsForResetMs(cfg: Config, sys: seq<System>, events: seq<Event>, i: nat, j: nat)
    requires cfg.failureThreshold >= 1
    requires History(cfg, sys, events) && i < j < |events|
    requires events[i].Fail? && sys[i + 1].breaker.state.OPEN?
    requires forall k :: i < k < j ==> !events[k].Succeed?
    requires Admits(cfg, sys[j], events[j])
    ensures events[j].now >= events[i].now + cfg.resetMs
  {
    if events[j].now < events[i].now + cfg.resetMs {
      StaysOpen(cfg, sys, events, i, j);
    }
  }

  /** And no longer than that: while the circuit is still open and no further failure has been
      reported, a request is admitted exactly if the reset delay has passed. */
  lemma OpenAdmitsAgain(cfg: Config, sys: seq<System>, events: seq<Event>, i: nat, j: nat)
    requires cfg.failureThreshold >= 1
    requires History(cfg, sys, events) && i < j < |events|
    requires events[i].Fail? && sys[i + 1].breaker.state.OPEN?
    requires forall k :: i < k < j ==> !events[k].Fail?
    requires sys[j].breaker.state.OPEN? && events[j].Ask?
    ensures Admits(cfg, sys[j], events[j]) <==> events[j].now >= events[i].now + cfg.resetMs
    ensures Admits(cfg, sys[j], events[j]) ==> sys[j + 1].breaker.state.HALF_OPEN?
  {
    HistoryKeepsInv(cfg, sys, events, i);
    HistoryKeepsInv(cfg, sys, events, j);
    OpenedAtStays(cfg, sys, events, i, j);
    assert sys[j + 1] == Step(cfg, sys[j], events[j]);
  }

  lemma {:induction false} OpenedAtStays(cfg: Config, sys: seq<System>, events: seq<Event>, i: nat, j: nat)
    requires cfg.failureThreshold >= 1
    requires History(cfg, sys, events) && i < j <= |events|
    requires events[i].Fail? && sys[i + 1].breaker.state.OPEN?
    requires forall k :: i < k < j ==> !events[k].Fail?
    ensures sys[j].breaker.openedAt == events[i].now
  {
    if j == i + 1 {
      HistoryKeepsInv(cfg, sys, events, i);
      assert sys[j] == Step(cfg, sys[i], events[i]);
    } else {
      OpenedAtStays(cfg, sys, events, i, j - 1);
      assert sys[j] == Step(cfg, sys[j - 1], events[j - 1]);
    }
  }

  /** A closed circuit admits, a half-open one does not: its one probe is under way. */
  lemma OthersAdmitIfClosed(cfg: Config, sys: seq<System>, events: seq<Event>, k: nat)
    requires cfg.failureThreshold >= 1
    requires History(cfg, sys, events) && k < |events| && events[k].Ask? && !sys[k].breaker.state.OPEN?
    ensures Admits(cfg, sys[k], events[k]) <==> sys[k].breaker.state.CLOSED?
  {
    HistoryKeepsInv(cfg, sys, events, k);
  }

  /** The failures reported since the circuit was last reset: by a success, or by a call
      that ended half-open without a verdict. */
  ghost function FailuresSince(sys: seq<System>, events: seq<Event>, k: nat): nat
    requires k <= |events| < |sys|
  {
    if k == 0 then 0
    else
      match events[k - 1]
      case Ask(_) => FailuresSince(sys, events, k - 1)
      case Succeed(_) => 0
      case Fail(_) => FailuresSince(sys, events, k - 1) + 1
      case Ignore(_) => if sys[k - 1].breaker.state.HALF_OPEN? then 0 else FailuresSince(sys, events, k - 1)
  }

  /** The circuit is closed exactly while fewer failures than the threshold have been reported
      since its last reset. */
  lemma {:induction false} ClosedBelowThreshold(cfg: Config, sys: seq<System>, events: seq<Event>, k: nat)
    requires cfg.failureThreshold >= 1
    requires History(cfg, sys, events) && k <= |events|
    ensures sys[k].breaker.consecutiveFailures == FailuresSince(sys, events, k)
    ensures sys[k].breaker.state.CLOSED? <==> FailuresSince(sys, events, k) < cfg.failureThreshold
  {
    HistoryKeepsInv(cfg, sys, events, k);
    if k > 0 {
      ClosedBelowThreshold(cfg, sys, events, k - 1);
      assert sys[k] == Step(cfg, sys[k - 1], events[k - 1]);
    }
  }

  /** The exception is real: two calls in flight, one fails and opens the circuit, the
      other succeeds and closes it, and the next request goes out long before the reset
      delay has passed. */
  lemma LateSuccessAdmits(resetMs: int) returns (sys: seq<System>, events: seq<Event>)
    requires resetMs > 2
    ensures var cfg := Config(1, resetMs);
      && History(cfg, sys, events) && |events| == 5
      && events[2].Fail? && sys[3].breaker.state.OPEN?
      && Admits(cfg, sys[4], events[4]) && events[4].now < events[2].now + resetMs
  {
    var cfg := Config(1, resetMs);
    events := [Ask(0), Ask(0), Fail(1), Succeed(2), Ask(3)];
    var open := Breaker(OPEN, 1, 1, false);
    var closed := Breaker(CLOSED, 0, 1, false);
    sys := [System(INITIAL, 0), System(INITIAL, 1), System(INITIAL, 2), System(open, 1), System(closed, 0),
      System(closed, 1)];
  }

  lemma {:induction false} StaysOpen(cfg: Config, sys: seq<System>, events: seq<Event>, i: nat, j: nat)
    requires cfg.failureThreshold >= 1
    requires History(cfg, sys, events) && i < j < |events|
    requires events[i].Fail? && sys[i + 1].breaker.state.OPEN?
    requires forall k :: i < k < j ==> !events[k].Succeed?
    requires events[j].now < events[i].now + cfg.resetMs
    ensures sys[j].breaker.state.OPEN? && sys[j].breaker.openedAt >= events[i].now
  {
    assert sys[i + 1] == Step(cfg, sys[i], events[i]);
    HistoryKeepsInv(cfg, sys, events, i);
    if j > i + 1 {
      StaysOpen(cfg, sys, events, i, j - 1);
      HistoryKeepsInv(cfg, sys, events, j - 1);
      assert sys[j] == Step(cfg, sys[j - 1], events[j - 1]);
    }
  }
}
