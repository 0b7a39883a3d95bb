/** Crash-safe provisioning of the AI secret. Every step touches one file; the process
    may die between any two, or meet an error. The pending pointer is written before
    the environment file and names a backup of it; renaming it to the last backup
    commits. One process at a time holds the lock. */
module Provisioner {
  import opened Common
  import EnvFile

  // ---------------------------------------------------------------- data model

  type Path = nat

  /** A backup directory: its copy of the environment, and its metadata. */
  datatype Backup = Backup(env: Option<string>, metadata: bool)

  datatype Command = Provision(rotate: bool, secret: string) | Rollback

  /** Where the process stands. */
  datatype Point =
    | Idle
    | Locked(command: Command)
    | Restored(command: Command)
    | Ready(command: Command)
    | Planned(original: string, secret: string)
    | BackupMade(original: string, secret: string, backup: Path)
    | EnvCopied(original: string, secret: string, backup: Path)
    | BackupDone(original: string, secret: string, backup: Path)
    | PointerSet(original: string, secret: string, backup: Path)
    | EnvWritten(original: string, secret: string, backup: Path)
    | Undoing(original: string)
    | Undone
    | Withdrawing(original: string)
    | RollingBack(content: string)
    | RolledBack

  /** The files, the process, and two things no file holds: the bytes last committed,
      and the bytes before the last provisioning that was committed. */
  datatype State = State(
    env: string, pending: Option<Path>, lastBackup: Option<Path>, backups: map<Path, Backup>, point: Point,
    committed: string, before: string)

  datatype Event =
    | Start(command: Command)
    | Next
    | MakeBackup(path: Path)
    | CommitUnsynced
    | Fail
    | Crash
    | Edit(content: string)

  function Rendered(original: string, secret: string): string { EnvFile.Rendered(original, secret) }

  predicate Complete(backups: map<Path, Backup>, p: Path) {
    p in backups && backups[p].env.Some? && backups[p].metadata
  }

  // --------------------------------------------------------------------- steps

  predicate Enabled(s: State, e: Event) {
    match e
    case Start(_) => s.point.Idle?
    case Next => !s.point.Idle? && !s.point.Planned?
    case MakeBackup(path) => s.point.Planned? && path !in s.backups
    case CommitUnsynced => s.point.EnvWritten?
    case Fail => true
    case Crash => true
    case Edit(_) => s.point.Idle?
  }

  function Step(s: State, e: Event): State
    requires Enabled(s, e)
  {
    match e
    case Start(command) => s.(point := Locked(command))
    case Next => NextStep(s)
    case MakeBackup(path) =>
      s.(backups := s.backups[path := Backup(None, false)], point := BackupMade(s.point.original, s.point.secret, path))
    case CommitUnsynced => Commit(s).(point := Withdrawing(s.point.original))
    case Fail =>
      s.(point := if s.point.PointerSet? || s.point.EnvWritten? then Undoing(s.point.original) else Idle)
    case Crash => s.(point := Idle)
    // An edit made while a transaction is pending will be overwritten by its recovery.
    case Edit(content) => s.(env := content, committed := if s.pending.None? then content else s.committed)
  }

  /** Renaming the pending pointer to the last backup. */
  function Commit(s: State): State
    requires s.point.EnvWritten?
  {
    s.(pending := None, lastBackup := s.pending, point := Idle, committed := s.env, before := s.point.original)
  }

  function NextStep(s: State): State
    requires !s.point.Idle? && !s.point.Planned?
  {
    match s.point
    case Locked(command) => RecoverStep(s, command)
    case Restored(command) => s.(pending := None, point := if command.Rollback? then Idle else Ready(command))
    case Ready(command) => if command.Rollback? then LoadStep(s) else PlanStep(s, command.rotate, command.secret)
    case BackupMade(original, secret, p) =>
      s.(backups := s.backups[p := Backup(Some(s.env), false)], point := EnvCopied(original, secret, p))
    case EnvCopied(original, secret, p) =>
      s.(backups := s.backups[p := Backup(if p in s.backups then s.backups[p].env else None, true)],
         point := BackupDone(original, secret, p))
    case BackupDone(original, secret, p) => s.(pending := Some(p), point := PointerSet(original, secret, p))
    case PointerSet(original, secret, p) =>
      s.(env := Rendered(original, secret), point := EnvWritten(original, secret, p))
    case EnvWritten(original, _, _) => if Accepted(s.env) then Commit(s) else s.(point := Undoing(original))
    case Undoing(original) => s.(env := original, point := Undone)
    case Undone => s.(pending := None, point := Idle)
    case Withdrawing(original) => s.(env := original, committed := original, point := Idle)
    case RollingBack(content) => s.(env := content, committed := content, point := RolledBack)
    case RolledBack => s.(lastBackup := None, point := Idle)
    case _ => s
  }

  /** The check after the write. */
  predicate Accepted(env: string) {
    var parsed := EnvFile.Parse(env);
    parsed.Values? && EnvFile.ConfigurationValid(parsed.values)
  }

  /** Recovery: a pending pointer brings its backup back, unless that is not whole. */
  function RecoverStep(s: State, command: Command): State {
    match s.pending
    case None => s.(point := Ready(command))
    case Some(p) =>
      if Complete(s.backups, p) then s.(env := s.backups[p].env.value, point := Restored(command))
      else s.(point := Idle)
  }

  /** A first provisioning needs a file that is not configured, a rotation one that is;
      both need one that parses, and a valid secret. */
  predicate CanProvision(env: string, rotate: bool, secret: string) {
    var parsed := EnvFile.Parse(env);
    parsed.Values? && (EnvFile.ConfigurationValid(parsed.values) <==> rotate) && EnvFile.ValidSecret(secret)
  }

  /** That, said of the file: a rotation takes exactly a file that parses to the three values
      with a valid secret, a first provisioning any other that parses. */
  ghost predicate Eligible(env: string, rotate: bool, secret: string) {
    && EnvFile.Parse(env).Values? && EnvFile.ValidSecret(secret)
    && (rotate <==> EnvFile.IsConfigured(env))
  }

  lemma CanProvisionMeans(env: string, rotate: bool, secret: string)
    ensures CanProvision(env, rotate, secret) <==> Eligible(env, rotate, secret)
    ensures Accepted(env) <==> EnvFile.IsConfigured(env)
  {
    hide EnvFile.Parse, EnvFile.ConfigurationValid, EnvFile.ValidSecret, EnvFile.IsConfigured;
    EnvFile.ConfiguredFiles(env);
  }

  function PlanStep(s: State, rotate: bool, secret: string): State {
    s.(point := if CanProvision(s.env, rotate, secret) then Planned(s.env, secret) else Idle)
  }

  function LoadStep(s: State): State {
    if s.lastBackup.Some? && Complete(s.backups, s.lastBackup.value)
    then s.(point := RollingBack(s.backups[s.lastBackup.value].env.value)) else s.(point := Idle)
  }

  // ----------------------------------------------------------------- invariant

  /** A pointer names a whole backup, and that is a backup of `content`. */
  predicate Names(backups: map<Path, Backup>, pointer: Option<Path>, content: string) {
    pointer.Some? ==> Complete(backups, pointer.value) && backups[pointer.value].env == Some(content)
  }

  predicate PointOk(s: State) {
    match s.point
    case Idle => true
    case Locked(_) => true
    case Restored(_) => s.env == s.committed
    case Ready(_) => s.pending.None?
    case Planned(original, secret) => s.pending.None? && original == s.env && EnvFile.ValidSecret(secret)
    case BackupMade(original, secret, p) =>
      s.pending.None? && original == s.env && EnvFile.ValidSecret(secret) && p in s.backups && s.lastBackup != Some(p)
    case EnvCopied(original, secret, p) =>
      && s.pending.None? && original == s.env && EnvFile.ValidSecret(secret) && s.lastBackup != Some(p)
      && p in s.backups && s.backups[p].env == Some(original)
    case BackupDone(original, secret, p) =>
      s.pending.None? && original == s.env && EnvFile.ValidSecret(secret) && Names(s.backups, Some(p), original)
    case PointerSet(original, secret, p) =>
      s.pending == Some(p) && original == s.env == s.committed && EnvFile.ValidSecret(secret)
    case EnvWritten(original, secret, p) =>
      && s.pending == Some(p) && original == s.committed && EnvFile.ValidSecret(secret)
      && s.env == Rendered(original, secret)
    case Undoing(original) => s.pending.Some? && original == s.committed
    case Undone => s.env == s.committed
    case Withdrawing(original) => s.pending.None? && original == s.before
    case RollingBack(content) => s.pending.None? && content == s.before && s.lastBackup.Some?
    case RolledBack => s.pending.None? && s.env == s.before
  }

  /** Without a pending pointer the environment is what was last committed; a pending
      pointer names a whole backup of that, and the last backup is one of the bytes
      before the last provisioning. */
  predicate Inv(s: State) {
    && (s.pending.None? ==> s.env == s.committed)
    && Names(s.backups, s.pending, s.committed)
    && Names(s.backups, s.lastBackup, s.before)
    && PointOk(s)
  }

  /** The steps that bring a file back. */
  predicate Restoring(point: Point) {
    || point.Locked? || point.Restored? || point.Undoing? || point.Undone? || point.Withdrawing? || point.RollingBack?
    || point.RolledBack?
  }

  lemma RestoringKeepsInv(s: State)
    requires Inv(s) && Restoring(s.point)
    ensures Inv(NextStep(s))
  {
    hide PlanStep, Commit, LoadStep, EnvFile.ValidSecret, Accepted, Rendered;
  }

  lemma ForwardKeepsInv(s: State)
    requires Inv(s) && !Restoring(s.point) && !s.point.Idle? && !s.point.Planned?
    ensures Inv(NextStep(s))
  {
    hide RecoverStep, EnvFile.Parse, EnvFile.ValidSecret, EnvFile.ConfigurationValid, Accepted, Rendered;
  }

  lemma StepKeepsInv(s: State, e: Event)
    requires Inv(s) && Enabled(s, e)
    ensures Inv(Step(s, e))
  {
    hide NextStep, Rendered, EnvFile.ValidSecret;
    if e.Next? {
      hide Inv;
      if Restoring(s.point) { RestoringKeepsInv(s); } else { ForwardKeepsInv(s); }
    }
  }

  // --------------------------------------------------------------- whole runs

  ghost predicate ValidRun(s: State, events: seq<Event>)
    decreases |events|
  {
    events == [] || (Enabled(s, events[0]) && ValidRun(Step(s, events[0]), events[1..]))
  }

  ghost function Run(s: State, events: seq<Event>): State
    requires ValidRun(s, events)
    decreases |events|
  {
    if events == [] then s else Run(Step(s, events[0]), events[1..])
  }

  /** A managed file and nothing else. */
  function Begin(env: string): State {
    State(env, None, None, map[], Idle, env, env)
  }

  lemma {:induction false} RunKeepsInv(s: State, events: seq<Event>)
    requires Inv(s) && ValidRun(s, events)
    ensures Inv(Run(s, events))
    decreases |events|
  {
    hide Inv, Step, Enabled;
    if events != [] {
      StepKeepsInv(s, events[0]);
      RunKeepsInv(Step(s, events[0]), events[1..]);
    }
  }

  /** After any run, crashes included, in which nothing is under way any more, the next
      run's recovery succeeds, brings the environment to exactly the bytes last
      committed, and leaves no pointer pending. */
  lemma RecoveryRestores(env: string, events: seq<Event>, command: Command)
    requires ValidRun(Begin(env), events) && Run(Begin(env), events).point.Idle?
    ensures var r := Run(Begin(env), events);
      var recovered := NextStep(Step(r, Start(command)));
      && recovered.env == recovered.committed == r.committed
      && recovered.point == (if r.pending.None? then Ready(command) else Restored(command))
      && (r.pending.Some? ==>
            NextStep(recovered)
            == recovered.(pending := None, point := if command.Rollback? then Idle else Ready(command)))
  {
    RunKeepsInv(Begin(env), events);
    hide Run, ValidRun, EnvFile.Parse;
  }

  /** A pending pointer always names a whole backup of what was last committed, and
      without one the environment is that. */
  lemma PointersAreGood(env: string, events: seq<Event>)
    requires ValidRun(Begin(env), events)
    ensures var r := Run(Begin(env), events);
      && Names(r.backups, r.pending, r.committed) && Names(r.backups, r.lastBackup, r.before)
      && (r.pending.None? ==> r.env == r.committed)
  {
    RunKeepsInv(Begin(env), events);
    hide Run, ValidRun, Names;
  }

  /** The check after the write passes exactly when the file hides no setting from the
      printer; otherwise the write is undone. */
  lemma WrittenIsAccepted(s: State)
    requires Inv(s) && s.point.EnvWritten?
    ensures Accepted(s.env) <==> EnvFile.NothingHidden(s.point.original)
    ensures NextStep(s)
      == if EnvFile.NothingHidden(s.point.original) then Commit(s) else s.(point := Undoing(s.point.original))
  {
    hide EnvFile.NothingHidden, EnvFile.Parse, EnvFile.Rendered, EnvFile.ConfigurationValid, EnvFile.Provisioned,
      EnvFile.ValidSecret;
    EnvFile.RenderedParses(s.point.original, s.point.secret);
  }

  /** A file the program takes on, renders and then has to put back. */
  lemma HiddenSettingIsUndone(s: State, original: string, secret: string, backup: Path)
    requires Inv(s) && s.point == EnvWritten(original, secret, backup)
    requires original == "#\U{c}" + EnvFile.Setting(EnvFile.ENABLED_KEY, "true")
    ensures CanProvision(original, false, secret)
    ensures NextStep(s) == s.(point := Undoing(original)) && NextStep(NextStep(s)).env == original
  {
    hide *;
    SecretIsValid(s);
    EnvFile.HiddenSetting(secret);
    WrittenIsAccepted(s);
    TakesOn(original, secret);
    UndoRestores(s, original);
  }

  lemma SecretIsValid(s: State)
    requires Inv(s) && s.point.EnvWritten?
    ensures EnvFile.ValidSecret(s.point.secret)
  {
  }

  lemma TakesOn(env: string, secret: string)
    requires EnvFile.Parse(env).Values? && !EnvFile.ConfigurationValid(EnvFile.Parse(env).values)
      && EnvFile.ValidSecret(secret)
    ensures CanProvision(env, false, secret)
  {
    hide EnvFile.Parse, EnvFile.ConfigurationValid, EnvFile.ValidSecret;
  }

  lemma UndoRestores(s: State, original: string)
    ensures NextStep(s.(point := Undoing(original))).env == original
  {
    hide EnvFile.Parse, EnvFile.Rendered;
  }

  /** What is committed changes at four steps only: the commit, its withdrawal when
      it could not be synced, a rollback's write, and an operator's edit. */
  lemma CommitsMean(s: State, e: Event)
    requires Inv(s) && Enabled(s, e) && Step(s, e).committed != s.committed
    ensures var r := Step(s, e);
      || (s.point.EnvWritten? && (e.Next? || e.CommitUnsynced?) && EnvFile.ValidSecret(s.point.secret)
          && r.committed == Rendered(s.committed, s.point.secret) && r.before == s.committed)
      || ((s.point.Withdrawing? || s.point.RollingBack?) && e.Next? && r.committed == s.before == r.before)
      || (e.Edit? && s.point.Idle? && s.pending.None?)
  {
    hide EnvFile.Parse, EnvFile.Rendered, EnvFile.ValidSecret, EnvFile.ConfigurationValid;
  }

  /** The secret a process at this point works with, if it has one. */
  function SecretOf(point: Point): Option<string> {
    match point
    case Locked(Provision(_, secret)) => Some(secret)
    case Restored(Provision(_, secret)) => Some(secret)
    case Ready(Provision(_, secret)) => Some(secret)
    case Planned(_, secret) => Some(secret)
    case BackupMade(_, secret, _) => Some(secret)
    case EnvCopied(_, secret, _) => Some(secret)
    case BackupDone(_, secret, _) => Some(secret)
    case PointerSet(_, secret, _) => Some(secret)
    case EnvWritten(_, secret, _) => Some(secret)
    case _ => None
  }

  predicate InRollback(point: Point) {
    || point.RollingBack? || point.RolledBack?
    || ((point.Locked? || point.Restored? || point.Ready?) && point.command.Rollback?)
  }

  /** Only provisioning with this secret, however often it dies or fails. */
  predicate OnlyProvisions(events: seq<Event>, secret: string) {
    forall e :: e in events ==> !e.Edit? && (e.Start? ==> e.command.Provision? && e.command.secret == secret)
  }

  /** All or nothing: after any number of attempts with one secret, crashes, failures
      and withdrawals included, what is committed is the file as it was or that file
      rendered, once. */
  lemma {:induction false} ProvisionIsAtomic(s: State, events: seq<Event>, secret: string, base: string)
    requires Inv(s) && ValidRun(s, events) && OnlyProvisions(events, secret)
    requires !InRollback(s.point) && (SecretOf(s.point).Some? ==> SecretOf(s.point) == Some(secret))
    requires s.committed in {base, Rendered(base, secret)}
    requires s.point.Withdrawing? ==> s.before in {base, Rendered(base, secret)}
    ensures Run(s, events).committed in {base, Rendered(base, secret)}
    decreases |events|
  {
    if events != [] {
      var e := events[0];
      assert e in events;
      var r := Step(s, e);
      StepKeepsInv(s, e);
      ProvisionStep(s, e, secret, base);
      assert OnlyProvisions(events[1..], secret);
      hide Inv, Step, Enabled, InRollback, SecretOf, Rendered;
      ProvisionIsAtomic(r, events[1..], secret, base);
    }
  }

  lemma ProvisionStep(s: State, e: Event, secret: string, base: string)
    requires Inv(s) && Enabled(s, e) && !e.Edit? && (e.Start? ==> e.command.Provision? && e.command.secret == secret)
    requires !InRollback(s.point) && (SecretOf(s.point).Some? ==> SecretOf(s.point) == Some(secret))
    requires s.committed in {base, Rendered(base, secret)}
    requires s.point.Withdrawing? ==> s.before in {base, Rendered(base, secret)}
    ensures var r := Step(s, e);
      && !InRollback(r.point) && (SecretOf(r.point).Some? ==> SecretOf(r.point) == Some(secret))
      && r.committed in {base, Rendered(base, secret)}
      && (r.point.Withdrawing? ==> r.before in {base, Rendered(base, secret)})
  {
    hide Complete, CanProvision, Accepted, Names;
    hide EnvFile.Parse, EnvFile.Rendered, EnvFile.ValidSecret, EnvFile.ConfigurationValid;
    if s.point.EnvWritten? { EnvFile.RenderAgain(base, secret, secret); }
  }

  /** The steps that commit a provisioning, synced or not. */
  predicate Commits(s: State, e: Event) {
    s.point.EnvWritten? && (e.CommitUnsynced? || (e.Next? && Accepted(s.env)))
  }

  ghost predicate NoCommit(s: State, events: seq<Event>)
    requires ValidRun(s, events)
    decreases |events|
  {
    events == [] || (!Commits(s, events[0]) && NoCommit(Step(s, events[0]), events[1..]))
  }

  lemma BeforeStays(s: State, e: Event)
    requires Enabled(s, e) && !Commits(s, e)
    ensures Step(s, e).before == s.before
  {
    hide Accepted, CanProvision, Complete, EnvFile.Rendered;
  }

  lemma {:induction false} BeforeStaysLong(s: State, events: seq<Event>)
    requires ValidRun(s, events) && NoCommit(s, events)
    ensures Run(s, events).before == s.before
    decreases |events|
  {
    hide Step, Enabled, Commits;
    if events != [] {
      BeforeStays(s, events[0]);
      BeforeStaysLong(Step(s, events[0]), events[1..]);
    }
  }

  /** An undisturbed rollback where nothing is pending and there is a last backup. */
  lemma RollbackRestores(s: State)
    requires Inv(s) && s.point.Idle? && s.pending.None? && s.lastBackup.Some?
    ensures var rolling := NextStep(NextStep(Step(s, Start(Rollback))));
      && rolling.point == RollingBack(s.before)
      && var r := NextStep(NextStep(rolling));
      && r.env == r.committed == s.before && r.point.Idle? && r.pending.None? && r.lastBackup.None?
  {
    hide EnvFile.Parse, EnvFile.Rendered, EnvFile.ValidSecret, EnvFile.ConfigurationValid;
  }

  /** A rollback restores the bytes before the last commit and uses the backup up,
      whatever failed attempts, crashes, recoveries and edits lie in between. */
  lemma RollbackUndoes(s: State, commit: Event, later: seq<Event>)
    requires Inv(s) && Enabled(s, commit) && Commits(s, commit)
    requires ValidRun(Step(s, commit), later) && NoCommit(Step(s, commit), later)
    requires var r := Run(Step(s, commit), later); r.point.Idle? && r.pending.None? && r.lastBackup.Some?
    ensures var rolling := NextStep(NextStep(Step(Run(Step(s, commit), later), Start(Rollback))));
      && rolling.point == RollingBack(s.committed)
      && var r := NextStep(NextStep(rolling));
      && r.env == r.committed == s.committed && r.point.Idle? && r.pending.None? && r.lastBackup.None?
  {
    CommitKeepsOriginal(s, commit);
    hide Inv, Step, Enabled, NextStep, Run, ValidRun, NoCommit, Commits;
    StepKeepsInv(s, commit);
    RunKeepsInv(Step(s, commit), later);
    BeforeStaysLong(Step(s, commit), later);
    RollbackRestores(Run(Step(s, commit), later));
  }

  lemma CommitKeepsOriginal(s: State, commit: Event)
    requires Inv(s) && Enabled(s, commit) && Commits(s, commit)
    ensures Step(s, commit).before == s.committed
  {
    hide EnvFile.Parse, EnvFile.Rendered, EnvFile.ValidSecret, EnvFile.ConfigurationValid;
  }

  /** However often rollbacks die or fail, what is committed is either still the same
      or the bytes before the last provisioning. */
  lemma {:induction false} RollbackIsAtomic(s: State, events: seq<Event>, base: string)
    requires Inv(s) && ValidRun(s, events) && (s.point.Idle? || InRollback(s.point))
    requires forall e :: e in events ==> !e.Edit? && (e.Start? ==> e.command.Rollback?)
    requires s.committed in {base, s.before}
    ensures var r := Run(s, events); r.before == s.before && r.committed in {base, s.before}
    decreases |events|
  {
    if events != [] {
      var e := events[0];
      assert e in events;
      StepKeepsInv(s, e);
      RollbackStep(s, e, base);
      hide Inv, Step, Enabled, InRollback;
      RollbackIsAtomic(Step(s, e), events[1..], base);
    }
  }

  lemma RollbackStep(s: State, e: Event, base: string)
    requires Inv(s) && Enabled(s, e) && (s.point.Idle? || InRollback(s.point))
    requires !e.Edit? && (e.Start? ==> e.command.Rollback?) && s.committed in {base, s.before}
    ensures var r := Step(s, e);
      (r.point.Idle? || InRollback(r.point)) && r.before == s.before && r.committed in {base, s.before}
  {
    hide EnvFile.Parse, EnvFile.Rendered, EnvFile.ValidSecret, EnvFile.ConfigurationValid;
  }

  // ------------------------------------------------------------ run in place

  ghost predicate Reaches(s: State, events: seq<Event>, r: State) {
    ValidRun(s, events) && Run(s, events) == r
  }

  lemma {:induction false} ReachesThen(s: State, events: seq<Event>, m: State, e: Event)
    requires Reaches(s, events, m) && Enabled(m, e)
    ensures Reaches(s, events + [e], Step(m, e))
    decreases |events|
  {
    hide Step, Enabled;
    if events == [] {
      assert events + [e] == [e] && [e][1..] == [] && m == s;
      assert ValidRun(Step(s, e), []) && Run(Step(s, e), []) == Step(s, e);
    } else {
      ReachesThen(Step(s, events[0]), events[1..], m, e);
      assert (events + [e])[1..] == events[1..] + [e];
    }
  }

  datatype Outcome = CONFIGURED | ROTATED | ALREADY_CONFIGURED | ROLLED_BACK | RECOVERED | FAILED

  /** The failures that can be injected: making the backup, before a rename, and after
      the environment was written. */
  datatype Faults = Faults(backup: bool, beforeRename: bool, afterRename: bool)

  /** The files, changed in place. */
  class Files {
    var env: string
    var pending: Option<Path>
    var lastBackup: Option<Path>
    var backups: map<Path, Backup>
    var nextPath: Path
    ghost var start: State
    ghost var events: seq<Event>
    ghost var committed: string
    ghost var before: string

    constructor (content: string)
      ensures start == Begin(content) && At(Idle) && NewNames()
    {
      env, pending, lastBackup, backups, nextPath := content, None, None, map[], 0;
      start, events, committed, before := Begin(content), [], content, content;
    }

    ghost function Machine(point: Point): State
      reads this
    {
      State(env, pending, lastBackup, backups, point, committed, before)
    }

    /** The steps taken so far lead the machine here. */
    ghost predicate At(point: Point)
      reads this
    {
      Reaches(start, events, Machine(point))
    }

    ghost predicate NewNames()
      reads this
    {
      forall p :: p in backups ==> p < nextPath
    }

    /** The environment recovery leaves: the pending backup's, or the one there is. */
    ghost function Recovered(): Option<string>
      reads this
    {
      if pending.None? then Some(env)
      else if pending.value in backups && backups[pending.value].metadata then backups[pending.value].env
      else None
    }

    /** One more step of the machine, which the files have just followed. */
    ghost method Follow(from: State, e: Event)
      requires Reaches(start, events, from) && Enabled(from, e)
      modifies this`events
      ensures events == old(events) + [e] && Reaches(start, events, Step(from, e))
    {
      hide Enabled, Step, Reaches;
      ReachesThen(start, events, from, e);
      events := events + [e];
    }

    /** Recovery of a pending transaction. */
    method RecoverPending(command: Command, faults: Faults) returns (ok: bool, recovered: bool)
      requires At(Locked(command))
      modifies this`env, this`pending, this`events
      ensures At(if !ok || (recovered && command.Rollback?) then Idle else Ready(command))
      ensures ok <==> old(Recovered()).Some? && (old(pending).None? || !faults.beforeRename)
      ensures ok ==> pending.None? && old(Recovered()) == Some(env) && (recovered <==> old(pending).Some?)
      ensures !ok ==> pending == old(pending) && env == old(env)
    {
      hide Reaches, PlanStep, LoadStep, Commit, Rendered, Accepted;
      ghost var here := Machine(Locked(command));
      if pending.None? {
        Follow(here, Next);
        return true, false;
      }
      var p := pending.value;
      if p !in backups || backups[p].env.None? || !backups[p].metadata {
        Follow(here, Next);
        return false, false;
      }
      if faults.beforeRename {
        Follow(here, Fail);
        return false, false;
      }
      env := backups[p].env.value;
      Follow(here, Next);
      here := Machine(Restored(command));
      pending := None;
      Follow(here, Next);
      return true, true;
    }

    /** A backup directory under a new name: the environment, then its metadata. */
    method CreateBackup(secret: string, faults: Faults) returns (backup: Option<Path>)
      requires At(Planned(env, secret)) && NewNames()
      modifies this`backups, this`nextPath, this`events
      ensures At(if backup.Some? then BackupDone(env, secret, backup.value) else Idle) && NewNames()
      ensures backup.Some? <==> !faults.backup && !faults.beforeRename
      ensures backup.Some? ==> backup.value !in old(backups) && Names(backups, backup, env)
      ensures forall p :: p in old(backups) ==> p in backups && backups[p] == old(backups)[p]
    {
      hide Reaches, PlanStep, LoadStep, RecoverStep, Commit, Rendered, Accepted;
      ghost var here := Machine(Planned(env, secret));
      if faults.backup {
        Follow(here, Fail);
        return None;
      }
      var p := nextPath;
      nextPath := nextPath + 1;
      backups := backups[p := Backup(None, false)];
      Follow(here, MakeBackup(p));
      here := Machine(BackupMade(env, secret, p));
      if faults.beforeRename {
        Follow(here, Fail);
        return None;
      }
      backups := backups[p := Backup(Some(env), false)];
      Follow(here, Next);
      here := Machine(EnvCopied(env, secret, p));
      backups := backups[p := Backup(Some(env), true)];
      Follow(here, Next);
      return Some(p);
    }

    /** Write the environment under a pending pointer and commit, or undo. */
    method WriteAndCommit(secret: string, backup: Path, rendered: string, faults: Faults) returns (ok: bool)
      requires At(BackupDone(env, secret, backup)) && rendered == Rendered(env, secret) && EnvFile.ValidSecret(secret)
      requires pending.None? && !faults.beforeRename
      modifies this`env, this`pending, this`lastBackup, this`events, this`committed, this`before
      ensures At(Idle) && pending.None? && (ok <==> !faults.afterRename && EnvFile.NothingHidden(old(env)))
      ensures ok ==> env == rendered && lastBackup == Some(backup) && committed == env && before == old(env)
      ensures !ok ==> env == old(env) && lastBackup == old(lastBackup) && committed == old(committed)
    {
      hide Reaches, Rendered, Accepted, PlanStep, LoadStep, RecoverStep, Commit, EnvFile.NothingHidden;
      var original := env;
      ghost var here := Machine(BackupDone(original, secret, backup));
      pending := Some(backup);
      Follow(here, Next);
      here := Machine(PointerSet(original, secret, backup));
      env := rendered;
      Follow(here, Next);
      ok := CommitOrUndo(original, secret, backup, faults);
    }

    method CommitOrUndo(original: string, ghost secret: string, ghost backup: Path, faults: Faults) returns (ok: bool)
      requires At(EnvWritten(original, secret, backup)) && env == Rendered(original, secret)
        && EnvFile.ValidSecret(secret)
      modifies this`env, this`pending, this`lastBackup, this`events, this`committed, this`before
      ensures At(Idle) && pending.None? && (ok <==> !faults.afterRename && EnvFile.NothingHidden(original))
      ensures ok ==> env == old(env) && lastBackup == old(pending) && committed == env && before == original
      ensures !ok ==> env == original && lastBackup == old(lastBackup) && committed == old(committed)
    {
      hide Reaches, Rendered, Accepted, PlanStep, LoadStep, RecoverStep, EnvFile.NothingHidden;
      ghost var here := Machine(EnvWritten(original, secret, backup));
      var accepted := CheckWritten(original, secret);
      if faults.afterRename || !accepted {
        Follow(here, if faults.afterRename then Fail else Next);
        Undo(original);
        return false;
      }
      lastBackup, pending := pending, None;
      committed, before := env, original;
      Follow(here, Next);
      return true;
    }

    /** An error after the pointer was set: the bytes go back, then the pointer. */
    method Undo(original: string)
      requires At(Undoing(original))
      modifies this`env, this`pending, this`events
      ensures At(Idle) && env == original && pending.None?
    {
      hide Reaches, PlanStep, LoadStep, RecoverStep, Commit, Rendered, Accepted;
      ghost var here := Machine(Undoing(original));
      env := original;
      Follow(here, Next);
      here := Machine(Undone);
      pending := None;
      Follow(here, Next);
    }

    /** The check after the write, which fails exactly on a hidden setting. */
    method CheckWritten(ghost original: string, ghost secret: string) returns (accepted: bool)
      requires env == Rendered(original, secret) && EnvFile.ValidSecret(secret)
      ensures accepted == Accepted(env) == EnvFile.NothingHidden(original)
    {
      hide EnvFile.NothingHidden, EnvFile.Parse, EnvFile.Rendered, EnvFile.ConfigurationValid, EnvFile.Provisioned,
        EnvFile.ValidSecret;
      EnvFile.RenderedParses(original, secret);
      var _, parsed := EnvFile.ParseEnv(env);
      accepted := parsed.Values? && EnvFile.ConfigurationValid(parsed.values);
    }

    /** First provisioning or rotation. It succeeds exactly when nothing fails, the file
        parses, is configured if and only if this is a rotation, hides no setting from
        the printer, and the secret is valid; then the file is rendered and its old
        bytes are the last backup.
        Otherwise the file is as recovery left it. Either way the files follow the
        machine. */
    method ProvisionEnv(rotate: bool, secret: string, faults: Faults) returns (r: Outcome)
      requires At(Idle) && NewNames()
      modifies this
      ensures start == old(start) && At(Idle) && NewNames()
      ensures r.FAILED? || r.ALREADY_CONFIGURED? || r == if rotate then ROTATED else CONFIGURED
      ensures r.CONFIGURED? || r.ROTATED? ==>
        && old(Recovered()).Some? && env == Rendered(old(Recovered()).value, secret) && pending.None?
          && committed == env
        && Names(backups, lastBackup, old(Recovered()).value) && lastBackup.Some? && lastBackup.value !in old(backups)
      ensures r.ALREADY_CONFIGURED? ==> old(Recovered()) == Some(env) && pending.None?
      ensures r.ALREADY_CONFIGURED? <==>
        && !rotate && old(Recovered()).Some? && EnvFile.IsConfigured(old(Recovered()).value)
        && (old(pending).None? || !faults.beforeRename)
      ensures r.FAILED? ==>
        && lastBackup == old(lastBackup) && committed == old(committed)
        && ((old(Recovered()) == Some(env) && pending.None?) || (env == old(env) && pending == old(pending)))
      ensures (r.CONFIGURED? || r.ROTATED?) <==>
        && old(Recovered()).Some? && faults == Faults(false, false, false)
        && Eligible(old(Recovered()).value, rotate, secret) && EnvFile.NothingHidden(old(Recovered()).value)
    {
      hide Reaches, Rendered, CanProvision, NextStep, Accepted, EnvFile.NothingHidden, EnvFile.IsConfigured;
      Follow(Machine(Idle), Start(Provision(rotate, secret)));
      var ok, _ := RecoverPending(Provision(rotate, secret), faults);
      if !ok { return FAILED; }
      CanProvisionMeans(env, rotate, secret);
      hide Eligible;
      var proceed, already, rendered := Plan(rotate, secret);
      if !proceed { return if already then ALREADY_CONFIGURED else FAILED; }
      var backup := CreateBackup(secret, faults);
      if backup.None? { return FAILED; }
      ok := WriteAndCommit(secret, backup.value, rendered, faults);
      r := if !ok then FAILED else if rotate then ROTATED else CONFIGURED;
    }

    /** Read and parse the file, decide, and render. */
    method Plan(rotate: bool, secret: string) returns (proceed: bool, already: bool, rendered: string)
      requires At(Ready(Provision(rotate, secret)))
      modifies this`events
      ensures At(if proceed then Planned(env, secret) else Idle)
      ensures proceed <==> CanProvision(env, rotate, secret)
      ensures proceed ==> EnvFile.ValidSecret(secret) && rendered == Rendered(env, secret)
      ensures already <==> !rotate && Accepted(env)
    {
      hide Reaches, EnvFile.ValidSecret, EnvFile.ConfigurationValid, EnvFile.Parse, EnvFile.Render, EnvFile.SplitLines;
      hide RecoverStep, LoadStep, Commit;
      var lines, parsed := EnvFile.ParseEnv(env);
      var configured := parsed.Values? && EnvFile.ConfigurationValid(parsed.values);
      already := configured && !rotate;
      proceed := parsed.Values? && configured == rotate && EnvFile.ValidSecret(secret);
      Follow(Machine(Ready(Provision(rotate, secret))), Next);
      EnvFile.JoinOfSplit(EnvFile.Bytes, env);
      rendered := EnvFile.RenderEnv(lines, secret);
    }

    /** A rollback restores the last backup and uses it up, unless there was a pending
        transaction to recover instead. */
    method RollbackEnv(faults: Faults) returns (r: Outcome)
      requires At(Idle)
      modifies this
      ensures start == old(start) && At(Idle)
      ensures r.FAILED? || r.RECOVERED? || r.ROLLED_BACK?
      ensures r.RECOVERED? ==>
        old(pending).Some? && old(Recovered()) == Some(env) && pending.None? && lastBackup == old(lastBackup)
      ensures r.ROLLED_BACK? ==>
        && old(pending).None? && old(lastBackup).Some? && old(lastBackup).value in old(backups)
        && old(backups)[old(lastBackup).value].env == Some(env) && lastBackup.None? && pending.None? && committed == env
      ensures r.FAILED? ==> env == old(env) && pending == old(pending) && lastBackup == old(lastBackup)
      ensures r.ROLLED_BACK? <==>
        && old(pending).None? && !faults.beforeRename && old(lastBackup).Some?
        && old(lastBackup).value in old(backups)
        && old(backups)[old(lastBackup).value].env.Some? && old(backups)[old(lastBackup).value].metadata
    {
      hide Reaches, NextStep;
      Follow(Machine(Idle), Start(Rollback));
      var ok, recovered := RecoverPending(Rollback, faults);
      if !ok { return FAILED; }
      if recovered { return RECOVERED; }
      ok := RestoreLast(faults);
      r := if ok then ROLLED_BACK else FAILED;
    }

    method RestoreLast(faults: Faults) returns (ok: bool)
      requires At(Ready(Rollback)) && pending.None?
      modifies this`env, this`lastBackup, this`committed, this`events
      ensures At(Idle)
      ensures ok <==> !faults.beforeRename && old(lastBackup).Some? && Complete(backups, old(lastBackup).value)
      ensures ok ==> backups[old(lastBackup).value].env == Some(env) && lastBackup.None? && committed == env
      ensures !ok ==> env == old(env) && lastBackup == old(lastBackup) && committed == old(committed)
    {
      hide Reaches, PlanStep, RecoverStep, Commit, Rendered, Accepted;
      ghost var here := Machine(Ready(Rollback));
      if lastBackup.None? || lastBackup.value !in backups || backups[lastBackup.value].env.None?
        || !backups[lastBackup.value].metadata {
        Follow(here, Next);
        return false;
      }
      var content := backups[lastBackup.value].env.value;
      Follow(here, Next);
      here := Machine(RollingBack(content));
      if faults.beforeRename {
        Follow(here, Fail);
        return false;
      }
      env, committed := content, content;
      Follow(here, Next);
      here := Machine(RolledBack);
      lastBackup := None;
      Follow(here, Next);
      return true;
    }
  }
}
