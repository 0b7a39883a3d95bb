/** The automation engine: any number of workers claim one execution by compare and
    set, run its actions in order, retry with backoff and dead-letter. Transactions
    are atomic steps with a known outcome, a worker may die between any two steps,
    and an action that timed out may still take effect later. */
module AutomationEngine {
  import opened Common

  // ---------------------------------------------------------------- data model

  /** What the stored definition and event come to: unreadable, conditions not met,
      or a list of actions to run. */
  datatype Definition = Invalid | Unsatisfied | Satisfied

  datatype Action = CommunicationSend | NotImplemented

  datatype Policy = Policy(maxAttempts: nat, initialDelayMs: nat, maximumDelayMs: nat, jitter: bool)

  datatype Config = Config(definition: Definition, actions: seq<Action>, policy: Policy)

  /** What parsing guarantees of a definition it accepts. */
  predicate WellParsed(cfg: Config) {
    cfg.definition.Invalid? ||
    (|cfg.actions| >= 1 && cfg.policy.maxAttempts >= 1 && cfg.policy.initialDelayMs <= cfg.policy.maximumDelayMs)
  }

  datatype StepStatus = STEP_RUNNING | STEP_SUCCEEDED | RETRY_PENDING | STEP_DEAD_LETTER | SKIPPED

  datatype StepRow = StepRow(status: StepStatus, attemptCount: nat, nextAttemptAt: Option<int>)

  datatype ExecutionStatus = PENDING | RUNNING | FAILED | SUCCEEDED | DEAD_LETTER

  /** Where a worker stands with the action it has started. */
  datatype Phase = Started | Logged | Awaiting | Replied | Erred(retryable: bool)

  datatype Worker =
    | Off
    | Claimed
    | Rejecting
    | Declining
    | AtAction(index: nat, snapshot: map<nat, StepRow>)
    | Busy(index: nat, snapshot: map<nat, StepRow>, attempt: nat, phase: Phase)

  /** One execution's rows and everyone at work on them. `retries` holds for each
      retry row, keyed by action and attempt, whether it is finished; `runs` counts
      how often each action was invoked; `attempted` are the actions whose send may
      be under way; `communications` names the action behind each message created. */
  datatype State = State(
    status: ExecutionStatus, steps: map<nat, StepRow>, retries: map<(nat, nat), bool>, deadLetter: bool,
    runs: seq<nat>, attempted: set<nat>, communications: seq<nat>, now: int, workers: seq<Worker>)

  /** What one worker does, or what happens beside the workers. */
  datatype Deed =
    | Claim
    | Load
    | Conclude
    | Advance
    | Log
    | Invoke
    | Reply
    | Fail(retryable: bool)
    | RecordSuccess
    | RecordFailure(delay: int)
    | Die

  datatype Event =
    | By(worker: nat, deed: Deed)
    | TakeEffect(index: nat)
    | Tick(elapsed: nat)

  // ------------------------------------------------------------------- backoff

  function Pow2(n: nat): (p: nat)
    ensures p >= 1
  {
    if n == 0 then 1 else 2 * Pow2(n - 1)
  }

  /** The delay before jitter, after `attempt` attempts. */
  function BackoffBase(p: Policy, attempt: nat): nat {
    var exponent := if attempt >= 1 then attempt - 1 else 0;
    var exponential := p.initialDelayMs * Pow2(exponent);
    if exponential < p.maximumDelayMs then exponential else p.maximumDelayMs
  }

  /** The delay, for a random number in [0, 1). */
  function BackoffDelay(p: Policy, attempt: nat, random: real): int {
    var base := BackoffBase(p, attempt);
    if !p.jitter || base == 0 then base
    else (base as real / 2.0 + random * (base as real / 2.0)).Floor
  }

  lemma {:induction false} ExponentialGrows(initial: nat, n: nat)
    ensures initial <= initial * Pow2(n) <= initial * Pow2(n + 1)
  {
    if n > 0 { ExponentialGrows(initial, n - 1); }
    var p := Pow2(n);
    assert initial * (2 * p) == initial * p + initial * p;
  }

  lemma HalfAndSome(base: nat, random: real)
    requires 0.0 <= random < 1.0
    ensures base / 2 <= (base as real / 2.0 + random * (base as real / 2.0)).Floor <= base
  {
    var half := base as real / 2.0;
    var rest := 1.0 - random;
    var delay := half + random * half;
    ProductIsNonNegative(random, half);
    ProductIsNonNegative(rest, half);
    assert random * half + rest * half == half;
    assert (base / 2) as real <= half <= delay <= base as real;
    assert delay.Floor as real <= delay;
  }

  lemma ProductIsNonNegative(a: real, b: real)
    requires a >= 0.0 && b >= 0.0
    ensures a * b >= 0.0
  {
  }

  /** Each delay lies between half its base, rounded down, and the base, which grows
      with the attempts and never passes the maximum. */
  lemma BackoffBounds(p: Policy, attempt: nat, random: real)
    requires attempt >= 1 && 0.0 <= random < 1.0 && p.initialDelayMs <= p.maximumDelayMs
    ensures BackoffBase(p, attempt) / 2 <= BackoffDelay(p, attempt, random)
    ensures BackoffDelay(p, attempt, random) <= BackoffBase(p, attempt) <= p.maximumDelayMs
    ensures p.initialDelayMs <= BackoffBase(p, attempt) <= BackoffBase(p, attempt + 1)
  {
    hide Pow2;
    ExponentialGrows(p.initialDelayMs, attempt - 1);
    HalfAndSome(BackoffBase(p, attempt), random);
  }

  /** The base starts at the initial delay and doubles with every attempt up to the maximum;
      without jitter it is the delay, and with it the delay is the whole part of the point
      that lies the fraction `random` of the way from half the base to the base. */
  lemma BackoffDoubles(p: Policy, attempt: nat, random: real)
    requires attempt >= 1 && p.initialDelayMs <= p.maximumDelayMs
    ensures BackoffBase(p, 1) == p.initialDelayMs
    ensures var doubled := 2 * BackoffBase(p, attempt);
      BackoffBase(p, attempt + 1) == if doubled <= p.maximumDelayMs then doubled else p.maximumDelayMs
    ensures !p.jitter ==> BackoffDelay(p, attempt, random) == BackoffBase(p, attempt)
    ensures p.jitter ==>
      var base, delay := BackoffBase(p, attempt) as real, BackoffDelay(p, attempt, random) as real;
      delay <= base / 2.0 + random * (base / 2.0) < delay + 1.0
  {
    var i, n := p.initialDelayMs, Pow2(attempt - 1);
    assert Pow2(attempt) == 2 * n && i * (2 * n) == 2 * (i * n);
  }

  // --------------------------------------------------------------------- steps

  ghost predicate Enabled(cfg: Config, s: State, e: Event) {
    match e
    case By(worker, deed) => worker < |s.workers| && CanDo(cfg, s, s.workers[worker], deed)
    case TakeEffect(index) => index in s.attempted
    case Tick(_) => true
  }

  ghost predicate CanDo(cfg: Config, s: State, w: Worker, deed: Deed) {
    match deed
    case Claim => w.Off?
    case Load => w.Claimed?
    case Conclude => w.Rejecting? || w.Declining?
    case Advance => w.AtAction?
    case Log => w.Busy? && w.phase.Started?
    case Invoke => w.Busy? && w.phase.Logged? && w.index < |cfg.actions| && w.index < |s.runs|
    case Reply => w.Busy? && w.phase.Awaiting?
    case Fail(retryable) => w.Busy? && (w.phase.Awaiting? || (w.phase.Replied? && retryable))
    case RecordSuccess => w.Busy? && w.phase.Replied? && w.index in s.steps
    case RecordFailure(delay) =>
      w.Busy? && w.phase.Erred? && w.index in s.steps &&
      exists random: real :: 0.0 <= random < 1.0 && delay == BackoffDelay(cfg.policy, w.attempt, random)
    case Die => true
  }

  /** The communications service: a send whose key it has seen returns the message
      already there. */
  function Send(communications: seq<nat>, index: nat): seq<nat> {
    if index in communications then communications else communications + [index]
  }

  function Step(cfg: Config, s: State, e: Event): State
    requires Enabled(cfg, s, e)
  {
    match e
    case By(worker, deed) => Do(cfg, s, worker, deed)
    case TakeEffect(index) => s.(communications := Send(s.communications, index))
    case Tick(elapsed) => s.(now := s.now + elapsed)
  }

  function Do(cfg: Config, s: State, i: nat, deed: Deed): State
    requires i < |s.workers| && CanDo(cfg, s, s.workers[i], deed)
  {
    var w := s.workers[i];
    match deed
    case Claim =>
      if s.status.PENDING? || s.status.FAILED? then s.(status := RUNNING, workers := s.workers[i := Claimed]) else s
    case Load =>
      var next :=
        (match cfg.definition
         case Invalid => Rejecting
         case Unsatisfied => Declining
         case Satisfied => AtAction(0, s.steps));
      s.(workers := s.workers[i := next])
    case Conclude => ConcludeStep(s, i)
    case Advance => AdvanceStep(cfg, s, i)
    case Log => s.(retries := s.retries[(w.index, w.attempt) := false], workers := s.workers[i := w.(phase := Logged)])
    case Invoke => InvokeStep(cfg, s, i)
    case Reply =>
      s.(communications := Send(s.communications, w.index), workers := s.workers[i := w.(phase := Replied)])
    case Fail(retryable) => s.(workers := s.workers[i := w.(phase := Erred(retryable))])
    case RecordSuccess =>
      s.(retries := s.retries[(w.index, w.attempt) := true],
         steps := s.steps[w.index := s.steps[w.index].(status := STEP_SUCCEEDED, nextAttemptAt := None)],
         workers := s.workers[i := AtAction(w.index + 1, w.snapshot)])
    case RecordFailure(delay) => RecordFailureStep(cfg, s, i, delay)
    case Die => s.(workers := s.workers[i := Off])
  }

  /** A definition that cannot be run dead-letters an execution that is still
      running; conditions that do not hold end it. */
  function ConcludeStep(s: State, i: nat): State
    requires i < |s.workers|
  {
    if s.workers[i].Declining? then s.(status := SUCCEEDED, workers := s.workers[i := Off])
    else if !s.status.RUNNING? then s.(workers := s.workers[i := Off])
    else s.(status := DEAD_LETTER, deadLetter := true, workers := s.workers[i := Off])
  }

  /** The head of the action loop, which goes by the rows read after the claim. */
  function AdvanceStep(cfg: Config, s: State, i: nat): State
    requires i < |s.workers| && s.workers[i].AtAction?
  {
    var w := s.workers[i];
    var k := w.index;
    if k >= |cfg.actions| then s.(status := SUCCEEDED, workers := s.workers[i := Off])
    else if k in w.snapshot && (w.snapshot[k].status.STEP_SUCCEEDED? || w.snapshot[k].status.SKIPPED?) then
      s.(workers := s.workers[i := AtAction(k + 1, w.snapshot)])
    else if k in w.snapshot && w.snapshot[k].nextAttemptAt.Some? && w.snapshot[k].nextAttemptAt.value > s.now then
      s.(status := FAILED, workers := s.workers[i := Off])
    else
      var attempt := (if k in w.snapshot then w.snapshot[k].attemptCount else 0) + 1;
      s.(steps := s.steps[k := StepRow(STEP_RUNNING, attempt, None)],
         workers := s.workers[i := Busy(k, w.snapshot, attempt, Started)])
  }

  function InvokeStep(cfg: Config, s: State, i: nat): State
    requires i < |s.workers| && s.workers[i].Busy?
    requires s.workers[i].index < |cfg.actions| && s.workers[i].index < |s.runs|
  {
    var w := s.workers[i];
    var counted := s.(runs := s.runs[w.index := s.runs[w.index] + 1]);
    if cfg.actions[w.index].CommunicationSend? then
      counted.(attempted := s.attempted + {w.index}, workers := s.workers[i := w.(phase := Awaiting)])
    else counted.(workers := s.workers[i := w.(phase := Erred(false))])
  }

  function RecordFailureStep(cfg: Config, s: State, i: nat, delay: int): State
    requires i < |s.workers| && s.workers[i].Busy? && s.workers[i].phase.Erred? && s.workers[i].index in s.steps
  {
    var w := s.workers[i];
    var shouldRetry := w.phase.retryable && w.attempt < cfg.policy.maxAttempts;
    var row := s.steps[w.index].(
      status := if shouldRetry then RETRY_PENDING else STEP_DEAD_LETTER,
      nextAttemptAt := if shouldRetry then Some(s.now + delay) else None);
    s.(retries := s.retries[(w.index, w.attempt) := true],
       steps := s.steps[w.index := row],
       status := if shouldRetry then FAILED else DEAD_LETTER,
       deadLetter := s.deadLetter || !shouldRetry,
       workers := s.workers[i := Off])
  }

  // ----------------------------------------------------------------- invariant

  predicate Done(steps: map<nat, StepRow>, k: nat) {
    k in steps && steps[k].status.STEP_SUCCEEDED?
  }

  /** Succeeded steps are a prefix of the actions with at most one unfinished step
      after it, and no step has more attempts than the policy allows. */
  ghost predicate StepsOk(cfg: Config, steps: map<nat, StepRow>) {
    && (steps != map[] ==> cfg.definition.Satisfied?)
    && (forall k :: k in steps ==> k < |cfg.actions|)
    && (forall j: nat, k :: k in steps && j < k ==> Done(steps, j))
    && (forall k :: k in steps ==> RowOk(cfg, steps[k]))
  }

  predicate RowOk(cfg: Config, row: StepRow) {
    && 1 <= row.attemptCount <= cfg.policy.maxAttempts
    && (row.nextAttemptAt.Some? <==> row.status.RETRY_PENDING?)
    && (row.status.RETRY_PENDING? ==> row.attemptCount < cfg.policy.maxAttempts)
    && !row.status.SKIPPED?
  }

  /** Retry rows exist for attempts that were started, and for all of those of an idle
      step, finished. */
  ghost predicate RetriesOk(steps: map<nat, StepRow>, retries: map<(nat, nat), bool>) {
    && (forall k, a :: (k, a) in retries ==> k in steps && 1 <= a <= steps[k].attemptCount)
    && (forall k, a: nat ::
          k in steps && 1 <= a <= steps[k].attemptCount && (a < steps[k].attemptCount || !steps[k].status.STEP_RUNNING?)
          ==> (k, a) in retries && retries[(k, a)])
  }

  /** Every step is done or waits for a retry. */
  ghost predicate Resumable(steps: map<nat, StepRow>) {
    forall k :: k in steps ==> steps[k].status.STEP_SUCCEEDED? || steps[k].status.RETRY_PENDING?
  }

  /** Every step is done but `k`. */
  ghost predicate LastStep(steps: map<nat, StepRow>, k: nat) {
    k in steps && forall j :: j in steps && j != k ==> Done(steps, j)
  }

  /** What each status of the execution says of its steps and its dead letter. */
  ghost predicate StatusOk(cfg: Config, status: ExecutionStatus, steps: map<nat, StepRow>, deadLetter: bool) {
    && (deadLetter <==> status.DEAD_LETTER?)
    && match status
       case PENDING => steps == map[]
       case RUNNING => forall k :: k in steps ==> !steps[k].status.STEP_DEAD_LETTER?
       case FAILED => exists k :: LastStep(steps, k) && steps[k].status.RETRY_PENDING?
       case SUCCEEDED =>
         || (cfg.definition.Satisfied? && forall k: nat :: k < |cfg.actions| ==> Done(steps, k))
         || (cfg.definition.Unsatisfied? && steps == map[])
       case DEAD_LETTER =>
         || (cfg.definition.Invalid? && steps == map[])
         || (exists k :: LastStep(steps, k) && steps[k].status.STEP_DEAD_LETTER?)
  }

  /** At most one live worker owns the execution, and only while it is running. */
  ghost predicate OwnersOk(status: ExecutionStatus, workers: seq<Worker>) {
    && (forall i :: 0 <= i < |workers| && !workers[i].Off? ==> status.RUNNING?)
    && (forall i, j :: 0 <= i < j < |workers| ==> workers[i].Off? || workers[j].Off?)
  }

  /** From action `from` on, the rows read after the claim are the rows there are. */
  ghost predicate SnapshotOk(snapshot: map<nat, StepRow>, steps: map<nat, StepRow>, from: nat) {
    forall k: nat :: k >= from ==> (k in snapshot <==> k in steps) && (k in steps ==> snapshot[k] == steps[k])
  }

  ghost predicate WorkerOk(cfg: Config, s: State, w: Worker) {
    match w
    case Off => true
    case Claimed => Resumable(s.steps)
    case Rejecting => cfg.definition.Invalid?
    case Declining => cfg.definition.Unsatisfied?
    case AtAction(k, snapshot) =>
      && cfg.definition.Satisfied? && k <= |cfg.actions| && Resumable(s.steps)
      && (forall j: nat :: j < k ==> Done(s.steps, j))
      && SnapshotOk(snapshot, s.steps, k)
    case Busy(k, snapshot, a, phase) =>
      && cfg.definition.Satisfied? && k < |cfg.actions| && k < |s.runs|
      && k in s.steps && s.steps[k] == StepRow(STEP_RUNNING, a, None)
      && SnapshotOk(snapshot, s.steps, k + 1)
      && (phase.Started? || (k, a) in s.retries)
      && (phase.Started? || phase.Logged? ==> s.runs[k] < a)
      && (phase.Awaiting? || phase.Replied? ==> k in s.attempted)
      && (phase.Replied? ==> k in s.communications)
  }

  /** An action is invoked no more often than its step has attempts. */
  ghost predicate RunsOk(cfg: Config, steps: map<nat, StepRow>, runs: seq<nat>) {
    && |runs| == |cfg.actions|
    && forall k :: 0 <= k < |runs| ==> runs[k] <= if k in steps then steps[k].attemptCount else 0
  }

  /** No two messages for one action, none for an action that was not attempted, and
      one for every action that succeeded. */
  ghost predicate CommunicationsOk(cfg: Config, steps: map<nat, StepRow>, attempted: set<nat>,
                                   communications: seq<nat>)
  {
    && (forall a, b :: 0 <= a < b < |communications| ==> communications[a] != communications[b])
    && (forall k :: k in communications ==> k in attempted)
    && (forall k :: k in attempted ==> k in steps && k < |cfg.actions| && cfg.actions[k].CommunicationSend?)
    && (forall k :: Done(steps, k) ==> k in communications)
  }

  ghost predicate Inv(cfg: Config, s: State) {
    && StepsOk(cfg, s.steps)
    && RetriesOk(s.steps, s.retries)
    && StatusOk(cfg, s.status, s.steps, s.deadLetter)
    && OwnersOk(s.status, s.workers)
    && RunsOk(cfg, s.steps, s.runs)
    && CommunicationsOk(cfg, s.steps, s.attempted, s.communications)
    && forall i :: 0 <= i < |s.workers| ==> WorkerOk(cfg, s, s.workers[i])
  }

  // ------------------------------------------------------------ steps keep it

  /** While one worker owns the execution every other is off, so only its own
      condition has to be shown again. */
  lemma OnlyTheOwner(cfg: Config, s: State, i: nat, r: State, next: Worker)
    requires i < |s.workers| && !s.workers[i].Off? && OwnersOk(s.status, s.workers)
    requires r.workers == s.workers[i := next] && WorkerOk(cfg, r, next) && (next.Off? || r.status.RUNNING?)
    ensures OwnersOk(r.status, r.workers)
    ensures forall j :: 0 <= j < |r.workers| ==> WorkerOk(cfg, r, r.workers[j])
  {
    forall j | 0 <= j < |r.workers| && j != i ensures r.workers[j].Off? {
      assert s.workers[j].Off?;
    }
    hide Resumable, SnapshotOk;
  }

  /** A running execution of a live worker has at most its own step unfinished. */
  lemma LastIsLast(cfg: Config, steps: map<nat, StepRow>, k: nat)
    requires StepsOk(cfg, steps) && k in steps && !Done(steps, k)
    ensures LastStep(steps, k)
    ensures forall j :: j in steps ==> j <= k
  {
    assert forall j :: j in steps && k < j ==> Done(steps, k);
  }

  lemma ClaimKeepsInv(cfg: Config, s: State, i: nat)
    requires Inv(cfg, s) && i < |s.workers| && CanDo(cfg, s, s.workers[i], Claim)
    ensures Inv(cfg, Do(cfg, s, i, Claim))
  {
    hide StepsOk, RetriesOk, RunsOk, CommunicationsOk;
    var r := Do(cfg, s, i, Claim);
    if s.status.PENDING? || s.status.FAILED? {
      assert forall j :: 0 <= j < |s.workers| ==> s.workers[j].Off?;
      if s.status.FAILED? {
        var k :| LastStep(s.steps, k) && s.steps[k].status.RETRY_PENDING?;
      }
      assert StatusOk(cfg, RUNNING, s.steps, s.deadLetter);
      hide StatusOk;
      assert Resumable(s.steps);
      forall j | 0 <= j < |r.workers| ensures WorkerOk(cfg, r, r.workers[j]) {
        assert r.workers[j] == if j == i then Claimed else Off;
      }
    }
  }

  lemma LoadKeepsInv(cfg: Config, s: State, i: nat)
    requires Inv(cfg, s) && i < |s.workers| && CanDo(cfg, s, s.workers[i], Load)
    ensures Inv(cfg, Do(cfg, s, i, Load))
  {
    hide StepsOk, RetriesOk, RunsOk, CommunicationsOk, StatusOk;
    var r := Do(cfg, s, i, Load);
    assert WorkerOk(cfg, s, s.workers[i]);
    OnlyTheOwner(cfg, s, i, r, r.workers[i]);
  }

  lemma ConcludeKeepsInv(cfg: Config, s: State, i: nat)
    requires Inv(cfg, s) && i < |s.workers| && CanDo(cfg, s, s.workers[i], Conclude)
    ensures Inv(cfg, Do(cfg, s, i, Conclude))
  {
    assert WorkerOk(cfg, s, s.workers[i]);
    assert s.steps == map[];
    hide RetriesOk, RunsOk, CommunicationsOk, StepsOk;
    var r := Do(cfg, s, i, Conclude);
    OnlyTheOwner(cfg, s, i, r, Off);
  }

  // What one new row does to each part of the books.

  lemma RowKeepsSteps(cfg: Config, steps: map<nat, StepRow>, k: nat, row: StepRow)
    requires StepsOk(cfg, steps) && cfg.definition.Satisfied? && k < |cfg.actions| && RowOk(cfg, row)
    requires (forall j: nat :: j < k ==> Done(steps, j)) && forall j :: j in steps ==> j <= k
    ensures StepsOk(cfg, steps[k := row])
  {
    hide RowOk;
    var after := steps[k := row];
    forall j: nat | j < k ensures Done(after, j) {
      assert Done(steps, j);
    }
  }

  lemma StartKeepsRetries(steps: map<nat, StepRow>, retries: map<(nat, nat), bool>, k: nat, row: StepRow)
    requires RetriesOk(steps, retries) && row.status.STEP_RUNNING?
    requires k in steps ==> !steps[k].status.STEP_RUNNING?
    requires row.attemptCount == (if k in steps then steps[k].attemptCount else 0) + 1
    ensures RetriesOk(steps[k := row], retries)
  {
  }

  lemma FinishKeepsRetries(steps: map<nat, StepRow>, retries: map<(nat, nat), bool>, k: nat, row: StepRow)
    requires RetriesOk(steps, retries) && k in steps && 1 <= steps[k].attemptCount == row.attemptCount
    ensures RetriesOk(steps[k := row], retries[(k, row.attemptCount) := true])
  {
  }

  lemma RowKeepsRuns(cfg: Config, steps: map<nat, StepRow>, runs: seq<nat>, k: nat, row: StepRow)
    requires RunsOk(cfg, steps, runs) && k < |cfg.actions|
    requires k in steps ==> steps[k].attemptCount <= row.attemptCount
    ensures RunsOk(cfg, steps[k := row], runs)
  {
  }

  lemma RowKeepsCommunications(cfg: Config, steps: map<nat, StepRow>, attempted: set<nat>,
        communications: seq<nat>, k: nat, row: StepRow)
    requires CommunicationsOk(cfg, steps, attempted, communications)
    requires row.status.STEP_SUCCEEDED? ==> k in communications
    ensures CommunicationsOk(cfg, steps[k := row], attempted, communications)
  {
    forall j | Done(steps[k := row], j) ensures j in communications {
      assert j != k ==> Done(steps, j);
    }
  }

  /** A step that starts is the next of the prefix, or the one waiting for a retry. */
  lemma StartsNext(cfg: Config, s: State, i: nat)
    requires WellParsed(cfg) && StepsOk(cfg, s.steps) && i < |s.workers| && s.workers[i].AtAction?
    requires WorkerOk(cfg, s, s.workers[i]) && AdvanceStep(cfg, s, i).workers[i].Busy?
    ensures var w := s.workers[i]; var k := w.index;
      && k < |cfg.actions| && (k in s.steps ==> !Done(s.steps, k) && !s.steps[k].status.STEP_RUNNING?)
      && (forall j :: j in s.steps ==> j <= k)
      && var row := StepRow(STEP_RUNNING, (if k in s.steps then s.steps[k].attemptCount else 0) + 1, None);
      && RowOk(cfg, row) && SnapshotOk(w.snapshot, s.steps[k := row], k + 1)
      && AdvanceStep(cfg, s, i) ==
           s.(steps := s.steps[k := row], workers := s.workers[i := Busy(k, w.snapshot, row.attemptCount, Started)])
  {
    var k := s.workers[i].index;
    assert k in s.steps ==> RowOk(cfg, s.steps[k]);
    assert forall j :: j in s.steps && k < j ==> Done(s.steps, k);
  }

  lemma StartKeepsInv(cfg: Config, s: State, i: nat)
    requires WellParsed(cfg) && Inv(cfg, s) && i < |s.workers| && s.workers[i].AtAction?
    requires AdvanceStep(cfg, s, i).workers[i].Busy?
    ensures Inv(cfg, AdvanceStep(cfg, s, i))
  {
    hide StepsOk, RetriesOk, CommunicationsOk, AdvanceStep, RowOk, Done, Resumable, SnapshotOk;
    var r := AdvanceStep(cfg, s, i);
    var k := s.workers[i].index;
    assert WorkerOk(cfg, s, s.workers[i]);
    StartsNext(cfg, s, i);
    var row := r.steps[k];
    RowKeepsSteps(cfg, s.steps, k, row);
    StartKeepsRetries(s.steps, s.retries, k, row);
    RowKeepsRuns(cfg, s.steps, s.runs, k, row);
    RowKeepsCommunications(cfg, s.steps, s.attempted, s.communications, k, row);
    assert s.runs[k] < row.attemptCount;
    OnlyTheOwner(cfg, s, i, r, r.workers[i]);
  }

  lemma AdvanceKeepsInv(cfg: Config, s: State, i: nat)
    requires WellParsed(cfg) && Inv(cfg, s) && i < |s.workers| && s.workers[i].AtAction?
    ensures Inv(cfg, AdvanceStep(cfg, s, i))
  {
    if AdvanceStep(cfg, s, i).workers[i].Busy? {
      hide *;
      StartKeepsInv(cfg, s, i);
    } else {
      hide RetriesOk, RunsOk, CommunicationsOk;
      assert WorkerOk(cfg, s, s.workers[i]);
      var r := AdvanceStep(cfg, s, i);
      var k := s.workers[i].index;
      if r.status.FAILED? {
        assert RowOk(cfg, s.steps[k]);
        LastIsLast(cfg, s.steps, k);
      }
      hide StepsOk;
      OnlyTheOwner(cfg, s, i, r, r.workers[i]);
    }
  }

  /** A finished attempt closes its retry row and its step. */
  lemma FinishKeepsInv(cfg: Config, s: State, i: nat, row: StepRow, r: State, next: Worker)
    requires Inv(cfg, s) && i < |s.workers| && s.workers[i].Busy? && !s.workers[i].phase.Started?
    requires var w := s.workers[i]; var k := w.index;
      && k in s.steps && row.attemptCount == s.steps[k].attemptCount && RowOk(cfg, row)
      && (row.status.STEP_SUCCEEDED? ==> k in s.communications)
      && r == State(r.status, s.steps[k := row], s.retries[(k, w.attempt) := true], r.deadLetter, s.runs, s.attempted,
                    s.communications, s.now, s.workers[i := next])
    requires row.status.STEP_SUCCEEDED? ==>
      r.status == s.status && r.deadLetter == s.deadLetter
        && next == AtAction(s.workers[i].index + 1, s.workers[i].snapshot)
    requires row.status.RETRY_PENDING? ==> r.status.FAILED? && r.deadLetter == s.deadLetter && next.Off?
    requires row.status.STEP_DEAD_LETTER? ==> r.status.DEAD_LETTER? && r.deadLetter && next.Off?
    requires !row.status.STEP_RUNNING?
    ensures Inv(cfg, r)
  {
    var w := s.workers[i];
    var k := w.index;
    assert WorkerOk(cfg, s, w);
    LastIsLast(cfg, s.steps, k);
    assert RowOk(cfg, s.steps[k]) && forall j: nat :: j < k ==> Done(s.steps, j);
    hide StepsOk, RetriesOk, RunsOk, CommunicationsOk;
    RowKeepsSteps(cfg, s.steps, k, row);
    FinishKeepsRetries(s.steps, s.retries, k, row);
    RowKeepsRuns(cfg, s.steps, s.runs, k, row);
    RowKeepsCommunications(cfg, s.steps, s.attempted, s.communications, k, row);
    assert forall j :: j in s.steps && j != k ==> Done(r.steps, j);
    if !row.status.STEP_SUCCEEDED? { assert LastStep(r.steps, k); }
    OnlyTheOwner(cfg, s, i, r, next);
  }

  lemma RecordKeepsInv(cfg: Config, s: State, i: nat, deed: Deed)
    requires Inv(cfg, s) && i < |s.workers| && CanDo(cfg, s, s.workers[i], deed)
    requires deed.RecordSuccess? || deed.RecordFailure?
    ensures Inv(cfg, Do(cfg, s, i, deed))
  {
    var k := s.workers[i].index;
    assert WorkerOk(cfg, s, s.workers[i]);
    assert RowOk(cfg, s.steps[k]);
    hide Inv, WorkerOk, BackoffDelay;
    var r := Do(cfg, s, i, deed);
    FinishKeepsInv(cfg, s, i, r.steps[k], r, r.workers[i]);
  }

  lemma LogKeepsInv(cfg: Config, s: State, i: nat)
    requires Inv(cfg, s) && i < |s.workers| && CanDo(cfg, s, s.workers[i], Log)
    ensures Inv(cfg, Do(cfg, s, i, Log))
  {
    hide StepsOk, CommunicationsOk, StatusOk, SnapshotOk, RunsOk;
    assert WorkerOk(cfg, s, s.workers[i]);
    var r := Do(cfg, s, i, Log);
    assert RetriesOk(r.steps, r.retries) by { hide WorkerOk; assert 1 <= s.workers[i].attempt; }
    hide RetriesOk;
    OnlyTheOwner(cfg, s, i, r, r.workers[i]);
  }

  lemma InvokeKeepsInv(cfg: Config, s: State, i: nat)
    requires Inv(cfg, s) && i < |s.workers| && CanDo(cfg, s, s.workers[i], Invoke)
    ensures Inv(cfg, Do(cfg, s, i, Invoke))
  {
    hide StepsOk, RetriesOk, StatusOk, SnapshotOk;
    assert WorkerOk(cfg, s, s.workers[i]);
    var r := InvokeStep(cfg, s, i);
    OnlyTheOwner(cfg, s, i, r, r.workers[i]);
  }

  /** Sending under a key already seen adds nothing, under a new key that key's one
      message. */
  lemma SendKeepsCommunications(cfg: Config, steps: map<nat, StepRow>, attempted: set<nat>,
        communications: seq<nat>, k: nat)
    requires CommunicationsOk(cfg, steps, attempted, communications) && k in attempted
    ensures CommunicationsOk(cfg, steps, attempted, Send(communications, k))
    ensures forall j :: j in Send(communications, k) <==> j in communications || j == k
    ensures multiset(Send(communications, k))
      == multiset(communications) + (if k in communications then multiset{} else multiset{k})
  {
  }

  lemma ReplyKeepsInv(cfg: Config, s: State, i: nat)
    requires Inv(cfg, s) && i < |s.workers| && CanDo(cfg, s, s.workers[i], Reply)
    ensures Inv(cfg, Do(cfg, s, i, Reply))
  {
    hide StepsOk, RetriesOk, StatusOk, SnapshotOk, CommunicationsOk, RunsOk, Send;
    assert WorkerOk(cfg, s, s.workers[i]);
    var r := Do(cfg, s, i, Reply);
    SendKeepsCommunications(cfg, s.steps, s.attempted, s.communications, s.workers[i].index);
    OnlyTheOwner(cfg, s, i, r, r.workers[i]);
  }

  lemma StandKeepsInv(cfg: Config, s: State, i: nat, deed: Deed)
    requires Inv(cfg, s) && i < |s.workers| && CanDo(cfg, s, s.workers[i], deed)
    requires deed.Fail? || deed.Die?
    ensures Inv(cfg, Do(cfg, s, i, deed))
  {
    hide StepsOk, RetriesOk, StatusOk, SnapshotOk, CommunicationsOk, RunsOk;
    assert WorkerOk(cfg, s, s.workers[i]);
    var r := Do(cfg, s, i, deed);
    if s.workers[i].Off? {
      assert r.workers == s.workers;
    } else {
      OnlyTheOwner(cfg, s, i, r, r.workers[i]);
    }
  }

  lemma StepKeepsInv(cfg: Config, s: State, e: Event)
    requires WellParsed(cfg) && Inv(cfg, s) && Enabled(cfg, s, e)
    ensures Inv(cfg, Step(cfg, s, e))
  {
    match e
    case TakeEffect(k) =>
      hide StepsOk, RetriesOk, StatusOk, SnapshotOk, CommunicationsOk, RunsOk, Send, OwnersOk;
      SendKeepsCommunications(cfg, s.steps, s.attempted, s.communications, k);
      forall i | 0 <= i < |s.workers| ensures WorkerOk(cfg, Step(cfg, s, e), s.workers[i]) {
        assert WorkerOk(cfg, s, s.workers[i]);
      }
    case Tick(_) =>
      hide StepsOk, RetriesOk, StatusOk, SnapshotOk, CommunicationsOk, RunsOk, OwnersOk;
      forall i | 0 <= i < |s.workers| ensures WorkerOk(cfg, Step(cfg, s, e), s.workers[i]) {
        assert WorkerOk(cfg, s, s.workers[i]);
      }
    case By(i, deed) =>
      hide Inv, WellParsed;
      match deed {
        case Claim => ClaimKeepsInv(cfg, s, i);
        case Load => LoadKeepsInv(cfg, s, i);
        case Conclude => ConcludeKeepsInv(cfg, s, i);
        case Advance => AdvanceKeepsInv(cfg, s, i);
        case Log => LogKeepsInv(cfg, s, i);
        case Invoke => InvokeKeepsInv(cfg, s, i);
        case Reply => ReplyKeepsInv(cfg, s, i);
        case RecordSuccess => RecordKeepsInv(cfg, s, i, deed);
        case RecordFailure(_) => RecordKeepsInv(cfg, s, i, deed);
        case _ => StandKeepsInv(cfg, s, i, deed);
      }
  }

  // --------------------------------------------------------------- whole runs

  ghost predicate ValidRun(cfg: Config, s: State, events: seq<Event>)
    decreases |events|
  {
    events == [] || (Enabled(cfg, s, events[0]) && ValidRun(cfg, Step(cfg, s, events[0]), events[1..]))
  }

  ghost function Run(cfg: Config, s: State, events: seq<Event>): State
    requires ValidRun(cfg, s, events)
    decreases |events|
  {
    if events == [] then s else Run(cfg, Step(cfg, s, events[0]), events[1..])
  }

  /** An execution just created, and `n` workers about to call. */
  function Begin(cfg: Config, n: nat, now: int): State {
    State(PENDING, map[], map[], false, seq(|cfg.actions|, _ => 0), {}, [], now, seq(n, _ => Off))
  }

  lemma {:induction false} RunKeepsInv(cfg: Config, s: State, events: seq<Event>)
    requires WellParsed(cfg) && Inv(cfg, s) && ValidRun(cfg, s, events)
    ensures Inv(cfg, Run(cfg, s, events))
    decreases |events|
  {
    hide Inv, Step, Enabled, WellParsed;
    if events != [] {
      StepKeepsInv(cfg, s, events[0]);
      RunKeepsInv(cfg, Step(cfg, s, events[0]), events[1..]);
    }
  }

  lemma BeginInv(cfg: Config, n: nat, now: int)
    ensures Inv(cfg, Begin(cfg, n, now))
  {
    hide WorkerOk, SnapshotOk, Resumable;
    var s := Begin(cfg, n, now);
    forall i | 0 <= i < |s.workers| ensures WorkerOk(cfg, s, s.workers[i]) {
      OffIsOk(cfg, s);
    }
  }

  lemma OffIsOk(cfg: Config, s: State)
    ensures WorkerOk(cfg, s, Off)
  {
  }

  /** In every interleaving, worker deaths included: at most one live worker owns the
      execution; succeeded steps are a prefix of the actions, with at most one
      unfinished step after it; no step passes the attempts allowed; and the retry
      rows of an idle step are exactly its attempts, each finished. */
  lemma EveryRun(cfg: Config, n: nat, now: int, events: seq<Event>)
    requires WellParsed(cfg) && ValidRun(cfg, Begin(cfg, n, now), events)
    ensures var r := Run(cfg, Begin(cfg, n, now), events);
      && (forall i, j :: 0 <= i < j < |r.workers| ==> r.workers[i].Off? || r.workers[j].Off?)
      && (forall i :: 0 <= i < |r.workers| && !r.workers[i].Off? ==> r.status.RUNNING?)
      && (forall j: nat, k :: k in r.steps && j < k ==> Done(r.steps, j))
      && (forall k :: k in r.steps ==> k < |cfg.actions| && 1 <= r.steps[k].attemptCount <= cfg.policy.maxAttempts)
      && (forall k, a: nat :: k in r.steps && !r.steps[k].status.STEP_RUNNING? ==>
            ((k, a) in r.retries <==> 1 <= a <= r.steps[k].attemptCount) && ((k, a) in r.retries ==> r.retries[(k, a)]))
  {
    BeginInv(cfg, n, now);
    RunKeepsInv(cfg, Begin(cfg, n, now), events);
    hide Begin, Run, ValidRun, WellParsed, StatusOk, WorkerOk, RunsOk, CommunicationsOk;
  }

  /** FAILED means exactly one step waits for a retry, with attempts left and all
      others done; SUCCEEDED that every action is done, unless the conditions did not
      hold; and a dead letter exists exactly under DEAD_LETTER. */
  lemma StatusTells(cfg: Config, n: nat, now: int, events: seq<Event>)
    requires WellParsed(cfg) && ValidRun(cfg, Begin(cfg, n, now), events)
    ensures var r := Run(cfg, Begin(cfg, n, now), events);
      && (r.deadLetter <==> r.status.DEAD_LETTER?)
      && (r.status.FAILED? ==>
            exists k :: LastStep(r.steps, k) && RowOk(cfg, r.steps[k]) && r.steps[k].status.RETRY_PENDING?
                        && r.steps[k].attemptCount < cfg.policy.maxAttempts)
      && (r.status.SUCCEEDED? && !cfg.definition.Unsatisfied? ==>
        forall k: nat :: k < |cfg.actions| ==> Done(r.steps, k))
  {
    BeginInv(cfg, n, now);
    RunKeepsInv(cfg, Begin(cfg, n, now), events);
    hide Begin, Run, ValidRun, WellParsed, RetriesOk, OwnersOk, WorkerOk, RunsOk, CommunicationsOk, LastStep;
  }

  lemma StepKeepsDone(cfg: Config, s: State, e: Event, k: nat)
    requires WellParsed(cfg) && Inv(cfg, s) && Enabled(cfg, s, e) && Done(s.steps, k)
    ensures var r := Step(cfg, s, e);
      && k in r.steps && r.steps[k] == s.steps[k] && k < |s.runs| == |r.runs| && r.runs[k] == s.runs[k]
  {
    hide RetriesOk, StatusOk, CommunicationsOk, OwnersOk, BackoffDelay, SnapshotOk, Resumable, RowOk;
    if e.By? {
      assert WorkerOk(cfg, s, s.workers[e.worker]);
      if e.deed.Advance? {
        assert k < |s.runs|;
        hide RunsOk, WorkerOk, Inv;
        AdvanceKeepsDone(cfg, s, e.worker, k);
      }
    }
  }

  lemma AdvanceKeepsDone(cfg: Config, s: State, i: nat, k: nat)
    requires WellParsed(cfg) && StepsOk(cfg, s.steps) && i < |s.workers| && s.workers[i].AtAction?
    requires WorkerOk(cfg, s, s.workers[i]) && Done(s.steps, k)
    ensures var r := AdvanceStep(cfg, s, i); r.runs == s.runs && k in r.steps && r.steps[k] == s.steps[k]
  {
    hide StepsOk, WorkerOk;
    if AdvanceStep(cfg, s, i).workers[i].Busy? { StartsNext(cfg, s, i); }
  }

  /** A step that succeeded never runs again: its row and the number of its
      invocations stay as they are. */
  lemma {:induction false} SucceededStepIsFinal(cfg: Config, s: State, events: seq<Event>, k: nat)
    requires WellParsed(cfg) && Inv(cfg, s) && ValidRun(cfg, s, events) && Done(s.steps, k)
    ensures var r := Run(cfg, s, events);
      k in r.steps && r.steps[k] == s.steps[k] && k < |s.runs| == |r.runs| && r.runs[k] == s.runs[k]
    decreases |events|
  {
    hide Step, Enabled, WellParsed;
    if events == [] {
      assert k < |s.runs|;
    } else {
      hide Inv;
      StepKeepsDone(cfg, s, events[0], k);
      StepKeepsInv(cfg, s, events[0]);
      SucceededStepIsFinal(cfg, Step(cfg, s, events[0]), events[1..], k);
    }
  }

  /** SUCCEEDED and DEAD_LETTER are never left, and nothing of the execution's record
      changes under them; only sends that were attempted before and have not taken
      effect yet may still do so. */
  lemma {:induction false} TerminalIsFinal(cfg: Config, s: State, events: seq<Event>)
    requires WellParsed(cfg) && Inv(cfg, s) && ValidRun(cfg, s, events)
    requires s.status.SUCCEEDED? || s.status.DEAD_LETTER?
    ensures var r := Run(cfg, s, events);
      && r == s.(communications := r.communications, now := r.now)
      && s.communications <= r.communications
      && (forall k :: k in r.communications ==> k in s.communications || k in s.attempted)
    decreases |events|
  {
    hide WellParsed;
    if events != [] {
      StepKeepsInv(cfg, s, events[0]);
      TerminalStands(cfg, s, events[0]);
      hide Inv, Step, Enabled;
      TerminalIsFinal(cfg, Step(cfg, s, events[0]), events[1..]);
    }
  }

  lemma TerminalStands(cfg: Config, s: State, e: Event)
    requires OwnersOk(s.status, s.workers) && Enabled(cfg, s, e)
    requires s.status.SUCCEEDED? || s.status.DEAD_LETTER?
    ensures var r := Step(cfg, s, e);
      && r == s.(communications := r.communications, now := r.now)
      && s.communications <= r.communications
      && (forall k :: k in r.communications ==> k in s.communications || k in s.attempted)
  {
    hide BackoffDelay;
    if e.By? {
      assert s.workers[e.worker].Off?;
      assert s.workers[e.worker := Off] == s.workers;
    }
  }

  /** And each of those may: an attempted send that has not taken effect adds exactly
      its own message when it does, whatever the status. */
  lemma LateSend(cfg: Config, s: State, k: nat)
    requires k in s.attempted && k !in s.communications
    ensures ValidRun(cfg, s, [TakeEffect(k)])
    ensures Run(cfg, s, [TakeEffect(k)]) == s.(communications := s.communications + [k])
  {
    hide CanDo, Do;
    var e := TakeEffect(k);
    assert [e][1..] == [];
    assert ValidRun(cfg, Step(cfg, s, e), []) && Run(cfg, Step(cfg, s, e), []) == Step(cfg, s, e);
  }

  /** A run goes on by one event. */
  lemma {:induction false} RunThen(cfg: Config, s: State, events: seq<Event>, e: Event)
    requires ValidRun(cfg, s, events) && Enabled(cfg, Run(cfg, s, events), e)
    ensures ValidRun(cfg, s, events + [e]) && Run(cfg, s, events + [e]) == Step(cfg, Run(cfg, s, events), e)
    decreases |events|
  {
    hide Enabled, Step;
    if events == [] {
      assert events + [e] == [e] && [e][1..] == [];
      assert ValidRun(cfg, Step(cfg, s, e), []) && Run(cfg, Step(cfg, s, e), []) == Step(cfg, s, e);
    } else {
      RunThen(cfg, Step(cfg, s, events[0]), events[1..], e);
      assert (events + [e])[1..] == events[1..] + [e];
    }
  }

  const ONE_SEND := Config(Satisfied, [CommunicationSend], Policy(1, 0, 0, false))

  function Alone(status: ExecutionStatus, steps: map<nat, StepRow>, retries: map<(nat, nat), bool>, runs: nat, now: int,
        w: Worker): State {
    State(status, steps, retries, status.DEAD_LETTER?, [runs], if runs > 0 then {0} else {}, [], now, [w])
  }

  lemma Goes(now: int, events: seq<Event>, deed: Deed, next: State) returns (more: seq<Event>)
    requires ValidRun(ONE_SEND, Begin(ONE_SEND, 1, now), events)
    requires var s := Run(ONE_SEND, Begin(ONE_SEND, 1, now), events);
      Enabled(ONE_SEND, s, By(0, deed)) && Step(ONE_SEND, s, By(0, deed)) == next
    ensures ValidRun(ONE_SEND, Begin(ONE_SEND, 1, now), more) && Run(ONE_SEND, Begin(ONE_SEND, 1, now), more) == next
  {
    hide *;
    RunThen(ONE_SEND, Begin(ONE_SEND, 1, now), events, By(0, deed));
    more := events + [By(0, deed)];
  }

  /** A run in which the last attempt at a send times out, the execution dead-letters,
      and the message goes out all the same. */
  lemma MessageAfterDeadLetter(now: int) returns (events: seq<Event>)
    ensures ValidRun(ONE_SEND, Begin(ONE_SEND, 1, now), events)
    ensures var r := Run(ONE_SEND, Begin(ONE_SEND, 1, now), events); r.status.DEAD_LETTER? && r.communications == [0]
  {
    hide Run, ValidRun, BackoffDelay;
    var row := map[0 := StepRow(STEP_RUNNING, 1, None)];
    var open, shut := map[(0, 1) := false], map[(0, 1) := true];
    var dead := Alone(DEAD_LETTER, map[0 := StepRow(STEP_DEAD_LETTER, 1, None)], shut, 1, now, Off);
    NoEvents(ONE_SEND, Begin(ONE_SEND, 1, now));
    assert Begin(ONE_SEND, 1, now) == Alone(PENDING, map[], map[], 0, now, Off);
    events := Goes(now, [], Claim, Alone(RUNNING, map[], map[], 0, now, Claimed));
    events := Goes(now, events, Load, Alone(RUNNING, map[], map[], 0, now, AtAction(0, map[])));
    events := Goes(now, events, Advance, Alone(RUNNING, row, map[], 0, now, Busy(0, map[], 1, Started)));
    events := Goes(now, events, Log, Alone(RUNNING, row, open, 0, now, Busy(0, map[], 1, Logged)));
    events := Goes(now, events, Invoke, Alone(RUNNING, row, open, 1, now, Busy(0, map[], 1, Awaiting)));
    events := Goes(now, events, Fail(true), Alone(RUNNING, row, open, 1, now, Busy(0, map[], 1, Erred(true))));
    NoDelay();
    events := Goes(now, events, RecordFailure(0), dead);
    RunThen(ONE_SEND, Begin(ONE_SEND, 1, now), events, TakeEffect(0));
    events := events + [TakeEffect(0)];
  }

  lemma NoEvents(cfg: Config, s: State)
    ensures ValidRun(cfg, s, []) && Run(cfg, s, []) == s
  {
  }

  lemma NoDelay()
    ensures exists random: real :: 0.0 <= random < 1.0 && 0 == BackoffDelay(ONE_SEND.policy, 1, random)
  {
    assert 0.0 <= 0.5 < 1.0 && BackoffDelay(ONE_SEND.policy, 1, 0.5) == 0;
  }

  ghost function Total(runs: seq<nat>): nat {
    if runs == [] then 0 else Total(runs[..|runs| - 1]) + runs[|runs| - 1]
  }

  lemma {:induction false} TotalAtMost(runs: seq<nat>, bound: nat)
    requires forall k :: 0 <= k < |runs| ==> runs[k] <= bound
    ensures Total(runs) <= |runs| * bound
  {
    if runs != [] {
      TotalAtMost(runs[..|runs| - 1], bound);
      assert |runs| * bound == (|runs| - 1) * bound + bound;
    }
  }

  /** Actions run at most as often as there are actions times attempts. */
  lemma RunsAreBounded(cfg: Config, n: nat, now: int, events: seq<Event>)
    requires WellParsed(cfg) && ValidRun(cfg, Begin(cfg, n, now), events)
    ensures Total(Run(cfg, Begin(cfg, n, now), events).runs) <= |cfg.actions| * cfg.policy.maxAttempts
  {
    BeginInv(cfg, n, now);
    RunKeepsInv(cfg, Begin(cfg, n, now), events);
    hide Begin, Run, ValidRun, WellParsed, RetriesOk, StatusOk, OwnersOk, WorkerOk, CommunicationsOk, Total;
    var r := Run(cfg, Begin(cfg, n, now), events);
    TotalAtMost(r.runs, cfg.policy.maxAttempts);
  }

  // ------------------------------------- several executions, one send service

  /** The idempotency key of a send: its execution and the action's place in it. */
  datatype Key = Key(execution: nat, action: nat)

  /** Any number of executions, and the messages the shared service has created. Each
      execution's `communications` is its own view of them. */
  datatype World = World(executions: seq<State>, sent: seq<Key>)

  datatype WorldEvent = At(execution: nat, event: Event)

  /** The service returns the message already there for a key it has seen. */
  function SendKey(sent: seq<Key>, key: Key): seq<Key> {
    if key in sent then sent else sent + [key]
  }

  /** The action whose send takes effect in this event, if any. */
  function SentIn(s: State, e: Event): Option<nat> {
    match e
    case TakeEffect(k) => Some(k)
    case By(i, Reply) => if i < |s.workers| && s.workers[i].Busy? then Some(s.workers[i].index) else None
    case _ => None
  }

  ghost predicate WorldEnabled(cfgs: seq<Config>, w: World, e: WorldEvent) {
    e.execution < |w.executions| == |cfgs| && Enabled(cfgs[e.execution], w.executions[e.execution], e.event)
  }

  function WorldStep(cfgs: seq<Config>, w: World, e: WorldEvent): World
    requires WorldEnabled(cfgs, w, e)
  {
    var x := e.execution;
    var sent := SentIn(w.executions[x], e.event);
    World(w.executions[x := Step(cfgs[x], w.executions[x], e.event)],
          if sent.Some? then SendKey(w.sent, Key(x, sent.value)) else w.sent)
  }

  ghost predicate ValidWorldRun(cfgs: seq<Config>, w: World, events: seq<WorldEvent>)
    decreases |events|
  {
    events == [] ||
    (WorldEnabled(cfgs, w, events[0]) && ValidWorldRun(cfgs, WorldStep(cfgs, w, events[0]), events[1..]))
  }

  ghost function WorldRun(cfgs: seq<Config>, w: World, events: seq<WorldEvent>): World
    requires ValidWorldRun(cfgs, w, events)
    decreases |events|
  {
    if events == [] then w else WorldRun(cfgs, WorldStep(cfgs, w, events[0]), events[1..])
  }

  /** Executions just created, each with `n` workers about to call. */
  function BeginWorld(cfgs: seq<Config>, n: nat, now: int): World {
    World(seq(|cfgs|, x requires 0 <= x < |cfgs| => Begin(cfgs[x], n, now)), [])
  }

  /** Every message was created once, and for the execution that sees it. */
  ghost predicate SentOk(executions: seq<State>, sent: seq<Key>) {
    && (forall a, b :: 0 <= a < b < |sent| ==> sent[a] != sent[b])
    && (forall key :: key in sent ==>
      key.execution < |executions| && key.action in executions[key.execution].communications)
    && (forall x: nat, k :: x < |executions| && k in executions[x].communications ==> Key(x, k) in sent)
  }

  ghost predicate WorldInv(cfgs: seq<Config>, w: World) {
    && |cfgs| == |w.executions| && SentOk(w.executions, w.sent)
    && forall x :: 0 <= x < |cfgs| ==> WellParsed(cfgs[x]) && Inv(cfgs[x], w.executions[x])
  }

  lemma StepSends(cfg: Config, s: State, e: Event)
    requires Enabled(cfg, s, e)
    ensures Step(cfg, s, e).communications
      == if SentIn(s, e).Some? then Send(s.communications, SentIn(s, e).value) else s.communications
  {
    hide BackoffDelay, Send;
  }

  lemma SendKeepsSent(executions: seq<State>, sent: seq<Key>, x: nat, k: nat, s: State)
    requires SentOk(executions, sent) && x < |executions| && s.communications == Send(executions[x].communications, k)
    ensures SentOk(executions[x := s], SendKey(sent, Key(x, k)))
  {
  }

  lemma WorldStepKeepsInv(cfgs: seq<Config>, w: World, e: WorldEvent)
    requires WorldInv(cfgs, w) && WorldEnabled(cfgs, w, e)
    ensures WorldInv(cfgs, WorldStep(cfgs, w, e))
  {
    hide Inv, Step, Enabled, WellParsed, SentIn, Send, SendKey;
    var x := e.execution;
    var s := w.executions[x];
    StepKeepsInv(cfgs[x], s, e.event);
    StepSends(cfgs[x], s, e.event);
    if SentIn(s, e.event).Some? {
      hide SentOk;
      SendKeepsSent(w.executions, w.sent, x, SentIn(s, e.event).value, Step(cfgs[x], s, e.event));
    }
  }

  lemma {:induction false} WorldRunKeepsInv(cfgs: seq<Config>, w: World, events: seq<WorldEvent>)
    requires WorldInv(cfgs, w) && ValidWorldRun(cfgs, w, events)
    ensures WorldInv(cfgs, WorldRun(cfgs, w, events))
    decreases |events|
  {
    hide WorldInv, WorldStep, WorldEnabled;
    if events != [] {
      WorldStepKeepsInv(cfgs, w, events[0]);
      WorldRunKeepsInv(cfgs, WorldStep(cfgs, w, events[0]), events[1..]);
    }
  }

  /** Over any number of executions, workers and interleavings: retries, late
      completions and rolled-back success records never make more than one message per
      execution and action, a succeeded action has exactly one, and only communication
      actions have any. */
  lemma OneMessagePerAction(cfgs: seq<Config>, n: nat, now: int, events: seq<WorldEvent>, key: Key)
    requires forall x :: 0 <= x < |cfgs| ==> WellParsed(cfgs[x])
    requires ValidWorldRun(cfgs, BeginWorld(cfgs, n, now), events)
    ensures var r := WorldRun(cfgs, BeginWorld(cfgs, n, now), events);
      && |r.executions| == |cfgs| && multiset(r.sent)[key] <= 1
      && (key.execution < |cfgs| && Done(r.executions[key.execution].steps, key.action) ==> multiset(r.sent)[key] == 1)
      && (multiset(r.sent)[key] == 1 ==> Sends(cfgs, key))
  {
    var begin := BeginWorld(cfgs, n, now);
    forall x | 0 <= x < |cfgs| ensures Inv(cfgs[x], begin.executions[x]) { BeginInv(cfgs[x], n, now); }
    hide Inv, Begin, ValidWorldRun, WorldRun, WellParsed;
    WorldRunKeepsInv(cfgs, begin, events);
    var r := WorldRun(cfgs, begin, events);
    DistinctCountsOnce(r.sent, key);
    if key.execution < |cfgs| { MessagesOf(cfgs[key.execution], r.executions[key.execution], key.action); }
  }

  predicate Sends(cfgs: seq<Config>, key: Key) {
    && key.execution < |cfgs| && key.action < |cfgs[key.execution].actions|
    && cfgs[key.execution].actions[key.action].CommunicationSend?
  }

  lemma MessagesOf(cfg: Config, s: State, k: nat)
    requires Inv(cfg, s)
    ensures Done(s.steps, k) ==> k in s.communications
    ensures k in s.communications ==> k < |cfg.actions| && cfg.actions[k].CommunicationSend?
  {
    hide StepsOk, RetriesOk, StatusOk, OwnersOk, WorkerOk, RunsOk;
  }

  lemma {:induction false} DistinctCountsOnce<T>(xs: seq<T>, x: T)
    requires forall a, b :: 0 <= a < b < |xs| ==> xs[a] != xs[b]
    ensures multiset(xs)[x] == if x in xs then 1 else 0
  {
    if xs != [] {
      var front, last := xs[..|xs| - 1], xs[|xs| - 1];
      assert xs == front + [last];
      DistinctCountsOnce(front, x);
    }
  }

  /** A retry never starts before its time. */
  lemma RetryWaits(cfg: Config, s: State, i: nat)
    requires WellParsed(cfg) && Inv(cfg, s) && i < |s.workers| && s.workers[i].AtAction?
    requires AdvanceStep(cfg, s, i).workers[i].Busy? && s.workers[i].index in s.steps
    ensures s.steps[s.workers[i].index].nextAttemptAt.Some? && s.steps[s.workers[i].index].nextAttemptAt.value <= s.now
  {
    hide RetriesOk, StatusOk, CommunicationsOk, OwnersOk, RunsOk;
    assert WorkerOk(cfg, s, s.workers[i]);
    assert RowOk(cfg, s.steps[s.workers[i].index]);
    StartsNext(cfg, s, i);
  }

  /** A failed attempt is retried exactly when that is allowed, and its time is at least
      half the base delay, rounded down, and at most the maximum delay after it. */
  lemma FailureSchedules(cfg: Config, s: State, i: nat, delay: int)
    requires WellParsed(cfg) && Inv(cfg, s) && i < |s.workers| && CanDo(cfg, s, s.workers[i], RecordFailure(delay))
    ensures var w := s.workers[i]; var r := Do(cfg, s, i, RecordFailure(delay));
      && (r.status.FAILED? <==> w.phase.retryable && w.attempt < cfg.policy.maxAttempts)
      && (r.status.DEAD_LETTER? <==> !r.status.FAILED?)
      && (r.status.FAILED? ==>
            && r.steps[w.index].nextAttemptAt.Some?
            && s.now + BackoffBase(cfg.policy, w.attempt) / 2 <= r.steps[w.index].nextAttemptAt.value
            && r.steps[w.index].nextAttemptAt.value <= s.now + cfg.policy.maximumDelayMs)
  {
    var w := s.workers[i];
    assert WorkerOk(cfg, s, w);
    assert RowOk(cfg, s.steps[w.index]);
    hide Inv, WorkerOk, BackoffBase, BackoffDelay;
    var random: real :| 0.0 <= random < 1.0 && delay == BackoffDelay(cfg.policy, w.attempt, random);
    BackoffBounds(cfg.policy, w.attempt, random);
  }

  // ----------------------------------------------- one worker, undisturbed

  /** What one call meets at each action: the send's answer, whether the success
      could be stored, and the random number of a backoff. */
  datatype Outcome = Outcome(answered: bool, retryable: bool, stored: bool, random: real)

  function NextDeed(cfg: Config, w: Worker, o: Outcome): Deed {
    match w
    case Off => Die
    case Claimed => Load
    case Rejecting => Conclude
    case Declining => Conclude
    case AtAction(_, _) => Advance
    case Busy(_, _, attempt, phase) =>
      (match phase
       case Started => Log
       case Logged => Invoke
       case Awaiting => if o.answered then Reply else Fail(o.retryable)
       case Replied => if o.stored then RecordSuccess else Fail(true)
       case Erred(_) => RecordFailure(BackoffDelay(cfg.policy, attempt, o.random)))
  }

  /** The outcome for the action a worker stands at; any other place needs none. */
  function OutcomeAt(w: Worker, outcomes: seq<Outcome>): Outcome {
    if w.Busy? && w.index < |outcomes| then outcomes[w.index] else Outcome(false, false, false, 0.0)
  }

  ghost predicate CanGo(cfg: Config, s: State, outcomes: seq<Outcome>) {
    && |s.workers| == 1 && !s.workers[0].Off? && (s.workers[0].Busy? ==> s.workers[0].index < |cfg.actions|)
    && CanDo(cfg, s, s.workers[0], NextDeed(cfg, s.workers[0], OutcomeAt(s.workers[0], outcomes)))
  }

  ghost function Go(cfg: Config, s: State, outcomes: seq<Outcome>): State
    requires CanGo(cfg, s, outcomes)
  {
    Do(cfg, s, 0, NextDeed(cfg, s.workers[0], OutcomeAt(s.workers[0], outcomes)))
  }

  function PhaseRank(phase: Phase): nat {
    match phase
    case Started => 5
    case Logged => 4
    case Awaiting => 3
    case Replied => 2
    case Erred(_) => 1
  }

  function StepsLeft(n: nat, w: Worker): nat {
    match w
    case Off => 0
    case Claimed => 8 * n + 7
    case Rejecting => 1
    case Declining => 1
    case AtAction(k, _) => if k < n then 8 * (n - k) + 6 else 6
    case Busy(k, _, _, phase) => (if k < n then 8 * (n - k) else 0) + PhaseRank(phase)
  }

  lemma AdvanceComesCloser(cfg: Config, s: State, i: nat)
    requires i < |s.workers| && s.workers[i].AtAction?
    ensures var r := AdvanceStep(cfg, s, i);
      && |r.workers| == |s.workers|
      && StepsLeft(|cfg.actions|, r.workers[i]) < StepsLeft(|cfg.actions|, s.workers[i])
      && (r.workers[i].Off? ==> !r.status.RUNNING?)
  {
  }

  lemma DeedComesCloser(cfg: Config, s: State, i: nat, deed: Deed)
    requires i < |s.workers| && CanDo(cfg, s, s.workers[i], deed) && !deed.Claim? && !deed.Die?
    requires s.workers[i].Busy? ==> s.workers[i].index < |cfg.actions|
    ensures var r := Do(cfg, s, i, deed);
      && |r.workers| == |s.workers|
      && StepsLeft(|cfg.actions|, r.workers[i]) < StepsLeft(|cfg.actions|, s.workers[i])
      && (r.workers[i].Off? ==> !r.status.RUNNING?)
  {
    hide AdvanceStep, BackoffDelay;
    if deed.Advance? { AdvanceComesCloser(cfg, s, i); }
  }

  lemma GoComesCloser(cfg: Config, s: State, outcomes: seq<Outcome>)
    requires CanGo(cfg, s, outcomes)
    ensures var r := Go(cfg, s, outcomes);
      && |r.workers| == 1 && StepsLeft(|cfg.actions|, r.workers[0]) < StepsLeft(|cfg.actions|, s.workers[0])
      && (r.workers[0].Off? ==> !r.status.RUNNING?)
  {
    hide Do, CanDo, StepsLeft;
    DeedComesCloser(cfg, s, 0, NextDeed(cfg, s.workers[0], OutcomeAt(s.workers[0], outcomes)));
  }

  /** Where a call that nothing disturbs comes out. */
  ghost function Drive(cfg: Config, s: State, outcomes: seq<Outcome>): (r: State)
    requires |s.workers| == 1
    ensures |r.workers| == 1
    decreases StepsLeft(|cfg.actions|, s.workers[0])
  {
    if !CanGo(cfg, s, outcomes) then s
    else
      GoComesCloser(cfg, s, outcomes);
      Drive(cfg, Go(cfg, s, outcomes), outcomes)
  }

  lemma Onward(cfg: Config, s: State, outcomes: seq<Outcome>, next: State)
    requires CanGo(cfg, s, outcomes) && next == Go(cfg, s, outcomes)
    ensures |next.workers| == 1 && Drive(cfg, s, outcomes) == Drive(cfg, next, outcomes)
  {
    hide Go, CanGo;
    GoComesCloser(cfg, s, outcomes);
  }

  lemma InvCanGo(cfg: Config, s: State, outcomes: seq<Outcome>)
    requires Inv(cfg, s) && |s.workers| == 1 && !s.workers[0].Off?
    requires forall o :: o in outcomes ==> 0.0 <= o.random < 1.0
    ensures CanGo(cfg, s, outcomes)
  {
    assert WorkerOk(cfg, s, s.workers[0]);
    hide StepsOk, RetriesOk, StatusOk, CommunicationsOk, OwnersOk, BackoffDelay;
    var o := OutcomeAt(s.workers[0], outcomes);
    assert 0.0 <= o.random < 1.0;
  }

  /** A worker that claims an execution and is not disturbed always brings it out of
      RUNNING, with everything the invariant says. */
  lemma {:induction false} CallEnds(cfg: Config, s: State, outcomes: seq<Outcome>)
    requires WellParsed(cfg) && Inv(cfg, s) && |s.workers| == 1 && !s.workers[0].Off?
    requires forall o :: o in outcomes ==> 0.0 <= o.random < 1.0
    ensures var r := Drive(cfg, s, outcomes); Inv(cfg, r) && r.workers[0].Off? && !r.status.RUNNING?
    decreases StepsLeft(|cfg.actions|, s.workers[0])
  {
    hide Inv, WellParsed, Do, CanDo;
    InvCanGo(cfg, s, outcomes);
    GoComesCloser(cfg, s, outcomes);
    StepKeepsInv(cfg, s, By(0, NextDeed(cfg, s.workers[0], OutcomeAt(s.workers[0], outcomes))));
    var r := Go(cfg, s, outcomes);
    if !r.workers[0].Off? { CallEnds(cfg, r, outcomes); }
  }

  // -------------------------------------------- what a call does to the rows

  function AttemptsOf(steps: map<nat, StepRow>, k: nat): nat {
    if k in steps then steps[k].attemptCount else 0
  }

  ghost predicate SameRow(before: map<nat, StepRow>, after: map<nat, StepRow>, k: nat) {
    (k in after <==> k in before) && (k in before ==> after[k] == before[k])
  }

  /** The action is sent, answered and its success stored. */
  predicate Passes(cfg: Config, outcomes: seq<Outcome>, k: nat)
    requires k < |cfg.actions| == |outcomes|
  {
    cfg.actions[k].CommunicationSend? && outcomes[k].answered && outcomes[k].stored
  }

  /** A failure that may be tried again: a send that failed in a way that allows it, or whose
      success could not be stored. */
  predicate MayRetry(cfg: Config, outcomes: seq<Outcome>, k: nat)
    requires k < |cfg.actions| == |outcomes|
  {
    cfg.actions[k].CommunicationSend? && (outcomes[k].answered || outcomes[k].retryable)
  }

  /** The first step from `k` on that has not succeeded. */
  ghost function FirstOpen(n: nat, steps: map<nat, StepRow>, k: nat): (m: nat)
    requires k <= n
    ensures k <= m <= n && (m < n ==> !Done(steps, m)) && forall j: nat :: k <= j < m ==> Done(steps, j)
    decreases n - k
  {
    if k < n && Done(steps, k) then FirstOpen(n, steps, k + 1) else k
  }

  /** The first action from `k` on that does not pass. */
  ghost function FirstFailing(cfg: Config, outcomes: seq<Outcome>, k: nat): (m: nat)
    requires k <= |cfg.actions| == |outcomes|
    ensures k <= m <= |cfg.actions| && (m < |cfg.actions| ==> !Passes(cfg, outcomes, m))
    ensures forall j: nat :: k <= j < m ==> Passes(cfg, outcomes, j)
    decreases |cfg.actions| - k
  {
    if k < |cfg.actions| && Passes(cfg, outcomes, k) then FirstFailing(cfg, outcomes, k + 1) else k
  }

  /** The actions from `first` up to but not including `k` have each been invoked once more
      and succeeded; of the others nothing has changed. */
  ghost predicate Ran(s: State, r: State, first: nat, k: nat) {
    && |r.runs| == |s.runs| && r.now == s.now && r.deadLetter == s.deadLetter
    && (forall j: nat :: j < |s.runs| ==> r.runs[j] == s.runs[j] + if first <= j < k then 1 else 0)
    && (forall j: nat :: first <= j < k ==>
          j in r.steps && r.steps[j] == StepRow(STEP_SUCCEEDED, AttemptsOf(s.steps, j) + 1, None))
    && (forall j: nat :: !(first <= j < k) ==> SameRow(s.steps, r.steps, j))
    && (forall j: nat :: j in r.communications <==> j in s.communications || first <= j < k)
  }

  /** Action `k` has been invoked once more and failed: there is one attempt more, and it
      waits for a retry, or is dead and the execution with it. */
  ghost predicate Failed(cfg: Config, s: State, outcomes: seq<Outcome>, k: nat, r: State)
    requires k < |cfg.actions| == |outcomes| == |s.runs|
  {
    var attempt := AttemptsOf(s.steps, k) + 1;
    && r.runs == s.runs[k := s.runs[k] + 1]
    && (forall j: nat :: j != k ==> SameRow(s.steps, r.steps, j))
    && (forall j: nat :: j in r.communications <==>
          j in s.communications || (j == k && cfg.actions[k].CommunicationSend? && outcomes[k].answered))
    && k in r.steps
    && if MayRetry(cfg, outcomes, k) && attempt < cfg.policy.maxAttempts then
         var next := s.now + BackoffDelay(cfg.policy, attempt, outcomes[k].random);
         && r.status.FAILED? && r.deadLetter == s.deadLetter
         && r.steps[k] == StepRow(RETRY_PENDING, attempt, Some(next))
       else
         r.status.DEAD_LETTER? && r.deadLetter && r.steps[k] == StepRow(STEP_DEAD_LETTER, attempt, None)
  }

  /** What the action loop leaves, from the first open step on. */
  ghost predicate IsServed(cfg: Config, s: State, outcomes: seq<Outcome>, first: nat, r: State)
    requires first <= |cfg.actions| == |outcomes|
  {
    var stop := FirstFailing(cfg, outcomes, first);
    if stop == |cfg.actions| then r.status.SUCCEEDED? && Ran(s, r, first, stop)
    else
      exists mid: State ::
        |mid.runs| == |cfg.actions| && Ran(s, mid, first, stop) && Failed(cfg, mid, outcomes, stop, r)
  }

  /** What one undisturbed call leaves of an execution, said of its rows. It takes on only
      an execution that is pending or failed; an unreadable definition dead-letters it and
      unmet conditions end it; a step that waits for its time is left waiting. Otherwise
      every action from the first open step on is invoked once, up to the first that fails:
      if none does the execution has succeeded. */
  ghost predicate IsCall(cfg: Config, s: State, outcomes: seq<Outcome>, r: State)
    requires |outcomes| == |cfg.actions| == |s.runs|
  {
    if !s.status.PENDING? && !s.status.FAILED? then r == s
    else
      match cfg.definition
      case Invalid => r == s.(status := DEAD_LETTER, deadLetter := true)
      case Unsatisfied => r == s.(status := SUCCEEDED)
      case Satisfied =>
        var first := FirstOpen(|cfg.actions|, s.steps, 0);
        if first in s.steps && NotDue(s.steps, s.now, first) then r == s else IsServed(cfg, s, outcomes, first, r)
  }

  predicate NotDue(steps: map<nat, StepRow>, now: int, k: nat)
    requires k in steps
  {
    steps[k].nextAttemptAt.Some? && steps[k].nextAttemptAt.value > now
  }

  lemma Stops(cfg: Config, s: State, outcomes: seq<Outcome>)
    requires |s.workers| == 1 && s.workers[0].Off?
    ensures Drive(cfg, s, outcomes) == s
  {
    hide Go;
  }

  /** A lone worker at the head of the loop, about to start action `k`. */
  ghost predicate AtOpen(cfg: Config, s: State, outcomes: seq<Outcome>, k: nat, snapshot: map<nat, StepRow>) {
    && s.workers == [AtAction(k, snapshot)] && k < |cfg.actions| == |outcomes| == |s.runs|
    && SameRow(s.steps, snapshot, k) && !Done(s.steps, k)
    && (k in s.steps ==> !s.steps[k].status.SKIPPED? && !NotDue(s.steps, s.now, k))
    && 0.0 <= outcomes[k].random < 1.0
  }

  /** The rows while action `k` is attempted. */
  function Trying(cfg: Config, s: State, k: nat, communications: seq<nat>, w: Worker): State
    requires k < |cfg.actions| == |s.runs|
  {
    var attempt := AttemptsOf(s.steps, k) + 1;
    s.(steps := s.steps[k := StepRow(STEP_RUNNING, attempt, None)], retries := s.retries[(k, attempt) := false],
       runs := s.runs[k := s.runs[k] + 1],
       attempted := if cfg.actions[k].CommunicationSend? then s.attempted + {k} else s.attempted,
       communications := communications, workers := [w])
  }

  /** The rows when action `k` is about to be invoked. */
  function Logging(s: State, k: nat, snapshot: map<nat, StepRow>): State {
    var attempt := AttemptsOf(s.steps, k) + 1;
    s.(steps := s.steps[k := StepRow(STEP_RUNNING, attempt, None)], retries := s.retries[(k, attempt) := false],
       workers := [Busy(k, snapshot, attempt, Logged)])
  }

  lemma TryIsLogged(cfg: Config, s: State, outcomes: seq<Outcome>, k: nat, snapshot: map<nat, StepRow>)
    requires AtOpen(cfg, s, outcomes, k, snapshot)
    ensures Drive(cfg, s, outcomes) == Drive(cfg, Logging(s, k, snapshot), outcomes)
  {
    hide Drive, RecordFailureStep, ConcludeStep, InvokeStep, Send, BackoffDelay;
    var attempt := AttemptsOf(s.steps, k) + 1;
    var started := s.(steps := s.steps[k := StepRow(STEP_RUNNING, attempt, None)],
                      workers := [Busy(k, snapshot, attempt, Started)]);
    Onward(cfg, s, outcomes, started);
    Onward(cfg, started, outcomes, Logging(s, k, snapshot));
  }

  /** The attempt begins: row, retry row and invocation. */
  lemma TryStarts(cfg: Config, s: State, outcomes: seq<Outcome>, k: nat, snapshot: map<nat, StepRow>)
    requires AtOpen(cfg, s, outcomes, k, snapshot)
    ensures var phase := if cfg.actions[k].CommunicationSend? then Awaiting else Erred(false);
      var next := Busy(k, snapshot, AttemptsOf(s.steps, k) + 1, phase);
      Drive(cfg, s, outcomes) == Drive(cfg, Trying(cfg, s, k, s.communications, next), outcomes)
  {
    hide Drive, RecordFailureStep, ConcludeStep, AdvanceStep, Send, BackoffDelay;
    TryIsLogged(cfg, s, outcomes, k, snapshot);
    var phase := if cfg.actions[k].CommunicationSend? then Awaiting else Erred(false);
    var next := Busy(k, snapshot, AttemptsOf(s.steps, k) + 1, phase);
    Onward(cfg, Logging(s, k, snapshot), outcomes, Trying(cfg, s, k, s.communications, next));
  }

  lemma TryIsSent(cfg: Config, s: State, outcomes: seq<Outcome>, k: nat, snapshot: map<nat, StepRow>)
    requires AtOpen(cfg, s, outcomes, k, snapshot) && cfg.actions[k].CommunicationSend? && outcomes[k].answered
    ensures var next := Busy(k, snapshot, AttemptsOf(s.steps, k) + 1, Replied);
      Drive(cfg, s, outcomes) == Drive(cfg, Trying(cfg, s, k, Send(s.communications, k), next), outcomes)
  {
    hide Drive, Send, RecordFailureStep, ConcludeStep, AdvanceStep, InvokeStep, BackoffDelay;
    TryStarts(cfg, s, outcomes, k, snapshot);
    var attempt := AttemptsOf(s.steps, k) + 1;
    Onward(cfg, Trying(cfg, s, k, s.communications, Busy(k, snapshot, attempt, Awaiting)), outcomes,
      Trying(cfg, s, k, Send(s.communications, k), Busy(k, snapshot, attempt, Replied)));
  }

  /** A send that was answered, and what became of storing its success. */
  lemma TryIsAnswered(cfg: Config, s: State, outcomes: seq<Outcome>, k: nat, snapshot: map<nat, StepRow>)
    returns (r: State)
    requires AtOpen(cfg, s, outcomes, k, snapshot) && cfg.actions[k].CommunicationSend? && outcomes[k].answered
    ensures |r.workers| == 1
    ensures var attempt := AttemptsOf(s.steps, k) + 1;
      var sent := Send(s.communications, k);
      && r == (if outcomes[k].stored
               then Trying(cfg, s, k, sent, AtAction(k + 1, snapshot)).(
                      steps := s.steps[k := StepRow(STEP_SUCCEEDED, attempt, None)],
                      retries := s.retries[(k, attempt) := true])
               else Trying(cfg, s, k, sent, Busy(k, snapshot, attempt, Erred(true))))
      && Drive(cfg, s, outcomes) == Drive(cfg, r, outcomes)
  {
    hide Drive, Send, RecordFailureStep, ConcludeStep, AdvanceStep, InvokeStep, BackoffDelay;
    TryIsSent(cfg, s, outcomes, k, snapshot);
    var attempt, sent := AttemptsOf(s.steps, k) + 1, Send(s.communications, k);
    var replied := Trying(cfg, s, k, sent, Busy(k, snapshot, attempt, Replied));
    if outcomes[k].stored {
      r := Trying(cfg, s, k, sent, AtAction(k + 1, snapshot)).(
        steps := s.steps[k := StepRow(STEP_SUCCEEDED, attempt, None)], retries := s.retries[(k, attempt) := true]);
    } else {
      r := Trying(cfg, s, k, sent, Busy(k, snapshot, attempt, Erred(true)));
    }
    Onward(cfg, replied, outcomes, r);
  }

  lemma TryPasses(cfg: Config, s: State, outcomes: seq<Outcome>, k: nat, snapshot: map<nat, StepRow>)
    returns (r: State)
    requires AtOpen(cfg, s, outcomes, k, snapshot) && Passes(cfg, outcomes, k)
    ensures r.workers == [AtAction(k + 1, snapshot)] && Drive(cfg, s, outcomes) == Drive(cfg, r, outcomes)
    ensures Ran(s, r, k, k + 1)
  {
    hide Drive, NotDue;
    r := TryIsAnswered(cfg, s, outcomes, k, snapshot);
  }

  lemma TryErrs(cfg: Config, s: State, outcomes: seq<Outcome>, k: nat, snapshot: map<nat, StepRow>)
    returns (communications: seq<nat>)
    requires AtOpen(cfg, s, outcomes, k, snapshot) && !Passes(cfg, outcomes, k)
    ensures forall j: nat :: j in communications <==>
      j in s.communications || (j == k && cfg.actions[k].CommunicationSend? && outcomes[k].answered)
    ensures var attempt := AttemptsOf(s.steps, k) + 1;
      Drive(cfg, s, outcomes) == Drive(cfg, Trying(cfg, s, k, communications,
        Busy(k, snapshot, attempt, Erred(MayRetry(cfg, outcomes, k)))), outcomes)
  {
    hide Drive, NotDue;
    communications := s.communications;
    var attempt := AttemptsOf(s.steps, k) + 1;
    TryStarts(cfg, s, outcomes, k, snapshot);
    if cfg.actions[k].CommunicationSend? {
      if outcomes[k].answered {
        var r := TryIsAnswered(cfg, s, outcomes, k, snapshot);
        communications := r.communications;
      } else {
        Onward(cfg, Trying(cfg, s, k, communications, Busy(k, snapshot, attempt, Awaiting)), outcomes,
          Trying(cfg, s, k, communications, Busy(k, snapshot, attempt, Erred(outcomes[k].retryable))));
      }
    }
  }

  lemma TryFails(cfg: Config, s: State, outcomes: seq<Outcome>, k: nat, snapshot: map<nat, StepRow>)
    requires AtOpen(cfg, s, outcomes, k, snapshot) && !Passes(cfg, outcomes, k)
    ensures Failed(cfg, s, outcomes, k, Drive(cfg, s, outcomes))
  {
    hide Drive, NotDue, BackoffDelay;
    var communications := TryErrs(cfg, s, outcomes, k, snapshot);
    var attempt := AttemptsOf(s.steps, k) + 1;
    var erred := Trying(cfg, s, k, communications, Busy(k, snapshot, attempt, Erred(MayRetry(cfg, outcomes, k))));
    assert CanGo(cfg, erred, outcomes);
    var r := Go(cfg, erred, outcomes);
    Onward(cfg, erred, outcomes, r);
    Stops(cfg, r, outcomes);
  }

  lemma RanOn(s: State, mid: State, r: State, first: nat, k: nat)
    requires first <= k && Ran(s, mid, first, k) && Ran(mid, r, k, k + 1)
    ensures Ran(s, r, first, k + 1)
  {
    assert SameRow(s.steps, mid.steps, k);
    forall j: nat | !(first <= j < k + 1) ensures SameRow(s.steps, r.steps, j) {
      assert SameRow(s.steps, mid.steps, j) && SameRow(mid.steps, r.steps, j);
    }
    forall j: nat | first <= j < k
      ensures j in r.steps && r.steps[j] == StepRow(STEP_SUCCEEDED, AttemptsOf(s.steps, j) + 1, None)
    {
      assert SameRow(mid.steps, r.steps, j);
    }
  }

  /** `first` is the first open step of an idle execution, and its time has come. */
  ghost predicate IsFirst(cfg: Config, s: State, outcomes: seq<Outcome>, first: nat) {
    && first <= |cfg.actions| == |outcomes| == |s.runs|
    && (forall j: nat :: j in s.steps && first <= j ==> j == first && first < |cfg.actions|)
    && (first in s.steps ==> !Done(s.steps, first) && !s.steps[first].status.SKIPPED? && !NotDue(s.steps, s.now, first))
    && forall o :: o in outcomes ==> 0.0 <= o.random < 1.0
  }

  lemma {:induction false} LoopServes(cfg: Config, s: State, outcomes: seq<Outcome>, first: nat, here: State, k: nat)
    requires IsFirst(cfg, s, outcomes, first) && first <= k <= FirstFailing(cfg, outcomes, first)
    requires Ran(s, here, first, k) && here.workers == [AtAction(k, s.steps)]
    ensures IsServed(cfg, s, outcomes, first, Drive(cfg, here, outcomes))
    decreases |cfg.actions| - k
  {
    hide Drive, Ran, Failed, Passes, NotDue;
    if k == |cfg.actions| {
      LoopSucceeds(cfg, s, outcomes, first, here);
    } else {
      StaysOpen(cfg, s, outcomes, first, here, k);
      if Passes(cfg, outcomes, k) {
        var next := TryPasses(cfg, here, outcomes, k, s.steps);
        RanOn(s, here, next, first, k);
        LoopServes(cfg, s, outcomes, first, next, k + 1);
      } else {
        TryFails(cfg, here, outcomes, k, s.steps);
      }
    }
  }

  lemma LoopSucceeds(cfg: Config, s: State, outcomes: seq<Outcome>, first: nat, here: State)
    requires Ran(s, here, first, |cfg.actions|) && here.workers == [AtAction(|cfg.actions|, s.steps)]
    ensures var r := Drive(cfg, here, outcomes); r.status.SUCCEEDED? && Ran(s, r, first, |cfg.actions|)
  {
    hide Drive;
    var r := here.(status := SUCCEEDED, workers := [Off]);
    Onward(cfg, here, outcomes, r);
    Stops(cfg, r, outcomes);
  }

  lemma StaysOpen(cfg: Config, s: State, outcomes: seq<Outcome>, first: nat, here: State, k: nat)
    requires IsFirst(cfg, s, outcomes, first) && first <= k < |cfg.actions|
    requires Ran(s, here, first, k) && here.workers == [AtAction(k, s.steps)]
    ensures AtOpen(cfg, here, outcomes, k, s.steps) && |here.runs| == |cfg.actions|
  {
    assert SameRow(s.steps, here.steps, k);
    assert outcomes[k] in outcomes;
  }

  /** The loop passes over what has succeeded. */
  lemma {:induction false} LoopSkips(cfg: Config, s: State, outcomes: seq<Outcome>, k: nat, first: nat)
    requires k <= first <= |cfg.actions| && forall j: nat :: j < first ==> Done(s.steps, j)
    ensures Drive(cfg, s.(workers := [AtAction(k, s.steps)]), outcomes)
      == Drive(cfg, s.(workers := [AtAction(first, s.steps)]), outcomes)
    decreases first - k
  {
    hide Drive;
    if k < first {
      var here, next := s.(workers := [AtAction(k, s.steps)]), s.(workers := [AtAction(k + 1, s.steps)]);
      assert Done(s.steps, k);
      Onward(cfg, here, outcomes, next);
      LoopSkips(cfg, s, outcomes, k + 1, first);
    }
  }

  /** The loop stops at a step whose time has not come, and leaves everything as it is. */
  lemma LoopWaits(cfg: Config, s: State, outcomes: seq<Outcome>, first: nat)
    requires first < |cfg.actions| && first in s.steps && s.steps[first].status.RETRY_PENDING?
    requires NotDue(s.steps, s.now, first)
    ensures Drive(cfg, s.(workers := [AtAction(first, s.steps)]), outcomes) == s.(status := FAILED, workers := [Off])
  {
    hide Drive;
    var here, r := s.(workers := [AtAction(first, s.steps)]), s.(status := FAILED, workers := [Off]);
    Onward(cfg, here, outcomes, r);
    Stops(cfg, r, outcomes);
  }

  /** An idle execution that can be claimed: what its first open step is. */
  lemma FirstOfIdle(cfg: Config, s: State, outcomes: seq<Outcome>)
    requires WellParsed(cfg) && Inv(cfg, s) && (s.status.PENDING? || s.status.FAILED?)
    requires |outcomes| == |cfg.actions| && forall o :: o in outcomes ==> 0.0 <= o.random < 1.0
    ensures var first := FirstOpen(|cfg.actions|, s.steps, 0);
      && |s.runs| == |cfg.actions| && !s.deadLetter
      && (first in s.steps ==>
            && first < |cfg.actions| && s.status.FAILED? && cfg.definition.Satisfied?
            && s.steps[first].status.RETRY_PENDING? && s.steps[first].nextAttemptAt.Some?)
      && ((first in s.steps && NotDue(s.steps, s.now, first)) || IsFirst(cfg, s, outcomes, first))
      && (forall j: nat :: j < first ==> Done(s.steps, j))
      && forall k :: k in s.steps && s.steps[k].status.RETRY_PENDING? ==> k == first
  {
    hide RetriesOk, CommunicationsOk, OwnersOk, WorkerOk, NotDue;
    var first := FirstOpen(|cfg.actions|, s.steps, 0);
    forall j: nat | j in s.steps && first <= j ensures j == first && first < |cfg.actions| {
      assert forall i: nat :: i < j ==> Done(s.steps, i);
    }
    if first in s.steps {
      var k :| LastStep(s.steps, k) && s.steps[k].status.RETRY_PENDING?;
    }
    forall k | k in s.steps && s.steps[k].status.RETRY_PENDING? ensures k == first {
      assert k < first ==> Done(s.steps, k);
    }
  }

  /** An undisturbed call does to the rows of any idle execution what `IsCall` says. */
  lemma CallMeans(cfg: Config, s: State, outcomes: seq<Outcome>)
    requires WellParsed(cfg) && Inv(cfg, s) && s.workers == [Off]
    requires |outcomes| == |cfg.actions| && forall o :: o in outcomes ==> 0.0 <= o.random < 1.0
    ensures |s.runs| == |cfg.actions| && |Do(cfg, s, 0, Claim).workers| == 1
    ensures IsCall(cfg, s, outcomes, Drive(cfg, Do(cfg, s, 0, Claim), outcomes))
  {
    assert RunsOk(cfg, s.steps, s.runs);
    if !s.status.PENDING? && !s.status.FAILED? {
      hide Drive, Inv, WellParsed;
      Stops(cfg, s, outcomes);
    } else if cfg.definition.Satisfied? {
      SatisfiedCall(cfg, s, outcomes);
    } else {
      OtherCall(cfg, s, outcomes);
    }
  }

  lemma OtherCall(cfg: Config, s: State, outcomes: seq<Outcome>)
    requires s.workers == [Off] && (s.status.PENDING? || s.status.FAILED?) && !cfg.definition.Satisfied?
    ensures Drive(cfg, Do(cfg, s, 0, Claim), outcomes)
      == if cfg.definition.Invalid? then s.(status := DEAD_LETTER, deadLetter := true) else s.(status := SUCCEEDED)
  {
    hide Drive;
    var claimed := s.(status := RUNNING, workers := [Claimed]);
    assert Do(cfg, s, 0, Claim) == claimed;
    var loaded := claimed.(workers := [if cfg.definition.Invalid? then Rejecting else Declining]);
    var r := if cfg.definition.Invalid? then s.(status := DEAD_LETTER, deadLetter := true) else s.(status := SUCCEEDED);
    Onward(cfg, claimed, outcomes, loaded);
    Onward(cfg, loaded, outcomes, r);
    Stops(cfg, r, outcomes);
  }

  lemma SatisfiedCall(cfg: Config, s: State, outcomes: seq<Outcome>)
    requires WellParsed(cfg) && Inv(cfg, s) && s.workers == [Off] && cfg.definition.Satisfied?
    requires s.status.PENDING? || s.status.FAILED?
    requires |outcomes| == |cfg.actions| && forall o :: o in outcomes ==> 0.0 <= o.random < 1.0
    ensures var first := FirstOpen(|cfg.actions|, s.steps, 0);
      var r := Drive(cfg, Do(cfg, s, 0, Claim), outcomes);
      && |s.runs| == |cfg.actions|
      && if first in s.steps && NotDue(s.steps, s.now, first) then r == s else IsServed(cfg, s, outcomes, first, r)
  {
    hide Drive, Inv, WellParsed, IsServed, NotDue;
    FirstOfIdle(cfg, s, outcomes);
    var first := FirstOpen(|cfg.actions|, s.steps, 0);
    var claimed := s.(status := RUNNING, workers := [Claimed]);
    assert Do(cfg, s, 0, Claim) == claimed;
    Onward(cfg, claimed, outcomes, claimed.(workers := [AtAction(0, s.steps)]));
    LoopSkips(cfg, claimed, outcomes, 0, first);
    var here := claimed.(workers := [AtAction(first, s.steps)]);
    if first in s.steps && NotDue(s.steps, s.now, first) {
      LoopWaits(cfg, claimed, outcomes, first);
    } else {
      LoopServes(cfg, s, outcomes, first, here, first);
    }
  }

  /** A failed execution is taken up again once its step's time has come, and only then: the
      step is invoked exactly once more and has one attempt more. */
  ghost predicate RetriesWhenDue(s: State, r: State) {
    s.status.FAILED? ==>
      forall k :: k in s.steps && s.steps[k].status.RETRY_PENDING? ==>
        && s.steps[k].nextAttemptAt.Some? && k < |s.runs| == |r.runs|
        && if s.steps[k].nextAttemptAt.value > s.now then r == s
           else
             && r.runs[k] == s.runs[k] + 1
             && k in r.steps && r.steps[k].attemptCount == s.steps[k].attemptCount + 1
  }

  /** A call on an execution that can be claimed, is not waiting, and all of whose actions are
      answered and stored, ends it succeeded, each unfinished action invoked exactly once. */
  ghost predicate SucceedsWhenClean(cfg: Config, s: State, outcomes: seq<Outcome>, r: State)
    requires |outcomes| == |cfg.actions| == |s.runs|
  {
    && (s.status.PENDING? || s.status.FAILED?) && cfg.definition.Satisfied?
    && (forall k :: k in s.steps && s.steps[k].nextAttemptAt.Some? ==> s.steps[k].nextAttemptAt.value <= s.now)
    && (forall k :: 0 <= k < |cfg.actions| ==>
          cfg.actions[k].CommunicationSend? && outcomes[k].answered && outcomes[k].stored)
    ==>
      && r.status.SUCCEEDED? && !r.deadLetter && |r.runs| == |s.runs|
      && forall k: nat :: k < |cfg.actions| ==>
           k in r.steps && r.steps[k].status.STEP_SUCCEEDED?
           && r.runs[k] == s.runs[k] + if Done(s.steps, k) then 0 else 1
  }

  lemma CallRetries(cfg: Config, s: State, outcomes: seq<Outcome>)
    requires WellParsed(cfg) && Inv(cfg, s) && s.workers == [Off]
    requires |outcomes| == |cfg.actions| && forall o :: o in outcomes ==> 0.0 <= o.random < 1.0
    ensures RetriesWhenDue(s, Drive(cfg, Do(cfg, s, 0, Claim), outcomes))
  {
    hide Drive, Do, Inv, WellParsed, Passes, MayRetry, BackoffDelay;
    CallMeans(cfg, s, outcomes);
    var r := Drive(cfg, Do(cfg, s, 0, Claim), outcomes);
    if s.status.FAILED? {
      FirstOfIdle(cfg, s, outcomes);
      var k := FirstOpen(|cfg.actions|, s.steps, 0);
      if k in s.steps && !NotDue(s.steps, s.now, k) {
        var stop := FirstFailing(cfg, outcomes, k);
        if stop < |cfg.actions| {
          var mid: State :|
            |mid.runs| == |cfg.actions| && Ran(s, mid, k, stop) && Failed(cfg, mid, outcomes, stop, r);
          RanThenFailed(cfg, s, mid, outcomes, k, stop, r);
          hide Ran, Failed;
        }
      }
    }
  }

  lemma RanThenFailed(cfg: Config, s: State, mid: State, outcomes: seq<Outcome>, k: nat, stop: nat, r: State)
    requires k <= stop < |cfg.actions| == |outcomes| == |mid.runs| && k in s.steps
    requires Ran(s, mid, k, stop) && Failed(cfg, mid, outcomes, stop, r)
    ensures |r.runs| == |s.runs| && r.runs[k] == s.runs[k] + 1
    ensures k in r.steps && r.steps[k].attemptCount == s.steps[k].attemptCount + 1
  {
    hide MayRetry, BackoffDelay;
    assert SameRow(s.steps, mid.steps, stop);
    assert k < stop ==> SameRow(mid.steps, r.steps, k);
  }

  lemma CallSucceeds(cfg: Config, s: State, outcomes: seq<Outcome>)
    requires WellParsed(cfg) && Inv(cfg, s) && s.workers == [Off]
    requires |outcomes| == |cfg.actions| && forall o :: o in outcomes ==> 0.0 <= o.random < 1.0
    ensures |s.runs| == |cfg.actions|
    ensures SucceedsWhenClean(cfg, s, outcomes, Drive(cfg, Do(cfg, s, 0, Claim), outcomes))
  {
    hide Drive, Do, Inv, WellParsed;
    CallMeans(cfg, s, outcomes);
    var r := Drive(cfg, Do(cfg, s, 0, Claim), outcomes);
    if s.status.PENDING? || s.status.FAILED? {
      FirstOfIdle(cfg, s, outcomes);
      var first := FirstOpen(|cfg.actions|, s.steps, 0);
      forall k: nat | k < first && Ran(s, r, first, |cfg.actions|)
        ensures k in r.steps && r.steps[k].status.STEP_SUCCEEDED?
      {
        assert Done(s.steps, k) && SameRow(s.steps, r.steps, k);
      }
    }
  }

  // ------------------------------------------------------------ run in place

  /** The rows of one execution, updated in place by the engine. */
  class Engine {
    var status: ExecutionStatus
    var steps: map<nat, StepRow>
    var retries: map<(nat, nat), bool>
    var deadLetter: bool
    var runs: seq<nat>
    var attempted: set<nat>
    var communications: seq<nat>
    const now: int

    constructor (cfg: Config, now: int)
      ensures Machine(Off) == Begin(cfg, 1, now)
    {
      status, steps, retries, deadLetter := PENDING, map[], map[], false;
      runs, attempted, communications := seq(|cfg.actions|, _ => 0), {}, [];
      this.now := now;
    }

    /** The rows, with one worker at `w`. */
    ghost function Machine(w: Worker): State
      reads this
    {
      State(status, steps, retries, deadLetter, runs, attempted, communications, now, [w])
    }

    /** One call on one execution, alone on its rows: it leaves them as the machine
        does, driven by the same outcomes, and of any idle execution what `IsCall` says. */
    method ProcessExecution(cfg: Config, outcomes: seq<Outcome>)
      requires |outcomes| == |cfg.actions| == |runs| && forall o :: o in outcomes ==> 0.0 <= o.random < 1.0
      modifies this
      ensures Machine(Off) == Drive(cfg, Do(cfg, old(Machine(Off)), 0, Claim), outcomes)
      ensures WellParsed(cfg) && old(Inv(cfg, Machine(Off))) ==>
        && IsCall(cfg, old(Machine(Off)), outcomes, Machine(Off))
        && RetriesWhenDue(old(Machine(Off)), Machine(Off))
        && SucceedsWhenClean(cfg, old(Machine(Off)), outcomes, Machine(Off))
    {
      hide Drive, AdvanceStep, IsCall, RetriesWhenDue, SucceedsWhenClean, Inv, WellParsed;
      ghost var before := Machine(Off);
      if WellParsed(cfg) && Inv(cfg, before) {
        CallMeans(cfg, before, outcomes);
        CallRetries(cfg, before, outcomes);
        CallSucceeds(cfg, before, outcomes);
      }
      if status != PENDING && status != FAILED {
        Stops(cfg, before, outcomes);
        return;
      }
      status := RUNNING;
      ghost var claimed := Machine(Claimed);
      assert Do(cfg, before, 0, Claim) == claimed;
      match cfg.definition {
        case Invalid =>
          Onward(cfg, claimed, outcomes, Machine(Rejecting));
          FailDefinition(cfg, outcomes);
        case Unsatisfied =>
          ghost var declining := Machine(Declining);
          Onward(cfg, claimed, outcomes, declining);
          status := SUCCEEDED;
          Onward(cfg, declining, outcomes, Machine(Off));
          Stops(cfg, Machine(Off), outcomes);
        case Satisfied =>
          Onward(cfg, claimed, outcomes, Machine(AtAction(0, steps)));
          RunActions(cfg, outcomes, steps);
      }
    }

    method FailDefinition(cfg: Config, outcomes: seq<Outcome>)
      modifies this
      ensures runs == old(runs) && Machine(Off) == Drive(cfg, old(Machine(Rejecting)), outcomes)
    {
      hide Drive;
      ghost var before := Machine(Rejecting);
      if status == RUNNING {
        status, deadLetter := DEAD_LETTER, true;
      }
      Onward(cfg, before, outcomes, Machine(Off));
      Stops(cfg, Machine(Off), outcomes);
    }

    /** The action loop, over the rows read after the claim. */
    method RunActions(cfg: Config, outcomes: seq<Outcome>, snapshot: map<nat, StepRow>)
      requires |outcomes| == |cfg.actions| == |runs| && forall o :: o in outcomes ==> 0.0 <= o.random < 1.0
      modifies this
      ensures Machine(Off) == Drive(cfg, old(Machine(AtAction(0, snapshot))), outcomes)
    {
      hide Drive;
      ghost var start := Machine(AtAction(0, snapshot));
      for index := 0 to |cfg.actions|
        invariant |runs| == |cfg.actions|
        invariant Drive(cfg, start, outcomes) == Drive(cfg, Machine(AtAction(index, snapshot)), outcomes)
      {
        ghost var here := Machine(AtAction(index, snapshot));
        if index in snapshot && (snapshot[index].status == STEP_SUCCEEDED || snapshot[index].status == SKIPPED) {
          Onward(cfg, here, outcomes, Machine(AtAction(index + 1, snapshot)));
        } else if index in snapshot && snapshot[index].nextAttemptAt.Some?
          && snapshot[index].nextAttemptAt.value > now {
          status := FAILED;
          Onward(cfg, here, outcomes, Machine(Off));
          Stops(cfg, Machine(Off), outcomes);
          return;
        } else {
          var attempt := (if index in snapshot then snapshot[index].attemptCount else 0) + 1;
          steps := steps[index := StepRow(STEP_RUNNING, attempt, None)];
          Onward(cfg, here, outcomes, Machine(Busy(index, snapshot, attempt, Started)));
          var ok := Attempt(cfg, outcomes, index, snapshot, attempt);
          if !ok {
            Stops(cfg, Machine(Off), outcomes);
            return;
          }
        }
      }
      ghost var last := Machine(AtAction(|cfg.actions|, snapshot));
      status := SUCCEEDED;
      Onward(cfg, last, outcomes, Machine(Off));
      Stops(cfg, Machine(Off), outcomes);
    }

    /** One attempt at one action, from its retry row to its record. */
    method Attempt(cfg: Config, outcomes: seq<Outcome>, index: nat, snapshot: map<nat, StepRow>,
          attempt: nat) returns (ok: bool)
      requires index < |outcomes| == |cfg.actions| == |runs| && index in steps && 0.0 <= outcomes[index].random < 1.0
      modifies this
      ensures |runs| == old(|runs|)
      ensures Drive(cfg, old(Machine(Busy(index, snapshot, attempt, Started))), outcomes)
        == Drive(cfg, Machine(if ok then AtAction(index + 1, snapshot) else Off), outcomes)
    {
      hide Drive, RecordFailureStep;
      ghost var started := Machine(Busy(index, snapshot, attempt, Started));
      retries := retries[(index, attempt) := false];
      ghost var logged := Machine(Busy(index, snapshot, attempt, Logged));
      Onward(cfg, started, outcomes, logged);
      runs := runs[index := runs[index] + 1];
      if cfg.actions[index] != CommunicationSend {
        Onward(cfg, logged, outcomes, Machine(Busy(index, snapshot, attempt, Erred(false))));
        RecordFailed(cfg, outcomes, index, snapshot, attempt, false);
        return false;
      }
      attempted := attempted + {index};
      Onward(cfg, logged, outcomes, Machine(Busy(index, snapshot, attempt, Awaiting)));
      ok := AwaitSend(cfg, outcomes, index, snapshot, attempt);
    }

    /** The send's answer, or its failure, and the record of either. */
    method AwaitSend(cfg: Config, outcomes: seq<Outcome>, index: nat, snapshot: map<nat, StepRow>,
          attempt: nat) returns (ok: bool)
      requires index < |outcomes| == |cfg.actions| && index in steps && 0.0 <= outcomes[index].random < 1.0
      modifies this
      ensures runs == old(runs)
      ensures Drive(cfg, old(Machine(Busy(index, snapshot, attempt, Awaiting))), outcomes)
        == Drive(cfg, Machine(if ok then AtAction(index + 1, snapshot) else Off), outcomes)
    {
      hide Drive, RecordFailureStep;
      var o := outcomes[index];
      ghost var awaiting := Machine(Busy(index, snapshot, attempt, Awaiting));
      if !o.answered {
        Onward(cfg, awaiting, outcomes, Machine(Busy(index, snapshot, attempt, Erred(o.retryable))));
        RecordFailed(cfg, outcomes, index, snapshot, attempt, o.retryable);
        return false;
      }
      communications := Send(communications, index);
      ghost var replied := Machine(Busy(index, snapshot, attempt, Replied));
      Onward(cfg, awaiting, outcomes, replied);
      if !o.stored {
        Onward(cfg, replied, outcomes, Machine(Busy(index, snapshot, attempt, Erred(true))));
        RecordFailed(cfg, outcomes, index, snapshot, attempt, true);
        return false;
      }
      retries := retries[(index, attempt) := true];
      steps := steps[index := steps[index].(status := STEP_SUCCEEDED, nextAttemptAt := None)];
      Onward(cfg, replied, outcomes, Machine(AtAction(index + 1, snapshot)));
      return true;
    }

    /** The failure transaction: retry or dead-letter. */
    method RecordFailed(cfg: Config, outcomes: seq<Outcome>, index: nat, snapshot: map<nat, StepRow>,
          attempt: nat, retryable: bool)
      requires index < |outcomes| == |cfg.actions| && index in steps && 0.0 <= outcomes[index].random < 1.0
      modifies this
      ensures runs == old(runs)
      ensures Drive(cfg, old(Machine(Busy(index, snapshot, attempt, Erred(retryable)))), outcomes)
        == Drive(cfg, Machine(Off), outcomes)
    {
      hide Drive, BackoffDelay;
      ghost var before := Machine(Busy(index, snapshot, attempt, Erred(retryable)));
      retries := retries[(index, attempt) := true];
      var delay := BackoffDelay(cfg.policy, attempt, outcomes[index].random);
      if retryable && attempt < cfg.policy.maxAttempts {
        steps := steps[index := steps[index].(status := RETRY_PENDING, nextAttemptAt := Some(now + delay))];
        status := FAILED;
      } else {
        steps := steps[index := steps[index].(status := STEP_DEAD_LETTER, nextAttemptAt := None)];
        status, deadLetter := DEAD_LETTER, true;
      }
      Onward(cfg, before, outcomes, Machine(Off));
    }
  }
}
