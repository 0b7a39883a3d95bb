# Protocol models of the platform

This project models the protocols of the platform whose correctness does not show in
any single function, and proves what they promise over every input, every run and
every interleaving. Each module is one protocol. Most of them follow one plan:

- the statements, scripts or file operations of the code are the steps of a state
  machine on plain values, and any number of participants interleave them;
- an invariant is kept by every step (`StepKeepsInv`, or one lemma a transaction) and so
  by every run (`RunKeepsInv`); the promises are read off the invariant or proved by
  induction over the run;
- where the code updates rows, counters, fields or files step by step, a class or method
  does the same in place, and its contract equates what it leaves with the machine's
  own steps, or with the function it computes, so that the theorems speak about it;
- what an operation does is stated a second time without the definitions it runs on: of
  the rows, fields and files themselves, or by a reference definition that shares nothing
  with the machine (`IsCall`, `Judge`, `IsRotation`, `IsConfigured`, `Satisfies`,
  `IsSelected`), and a lemma proves that both agree on all inputs.

| file | protocol |
|---|---|
| `timeline.dfy` | three append-only tables read page by page behind one keyset cursor, against "sort everything, then slice" |
| `automation.dfy` | workers that claim an execution by compare and set, run actions in order, retry with backoff and dead-letter |
| `envfile.dfy`, `provisioner.dfy` | the environment file's parser and printer; crash-safe provisioning, rotation and rollback of the AI secret |
| `ledger.dfy` | reserve, settle, release or retain on one shared daily counter, inside the fallback loop |
| `breaker.dfy` | the circuit breaker with completions in any order |
| `sessions.dfy` | refresh families with reuse detection (the technique of section 5.2.2.3 of RFC 6819), password epochs, reset tokens, step-up assurance; transactions are atomic |
| `rowlock.dfy` | the race of n consumers of one refresh generation, statement by statement |
| `json.dfy`, `idempotency.dfy` | canonical form and deep equality; exactly-once execution under an idempotency key |
| `schema.dfy` | the bounded JSON Schema inspection and matcher (combinators as in section 10.2.1 of JSON Schema Core 2020-12) |
| `lockout.dfy` | the login lockout counter under concurrent failures |
| `common.dfy` | optional values and counting |

What is abstract: ids, tokens, hashes and backup paths are numbers, fresh or compared
for equality; an id in the timeline is the place of the UUID in id order; the key
comparison of the canonical form is any relation on keys (enumerating integer-like keys
first is part of it), consistent where a result says so; a request hash stands for the
canonical form it digests; costs are whole micros; a cursor is the triple it encodes;
clocks, random numbers, replies of other services and injected failures are parameters
or events.

## What the proofs show about the code

- `apps/api/src/modules/audit/audit-timeline.service.ts:236`: after a KNOWLEDGE cursor the
  security predicate keeps rows of the same time with a smaller id, although those sort
  before the cursor. `WholeRun` gives the exact condition under which paging is complete,
  `ThreeRowLoop` three rows for which it never ends, and `CorrectedRun` shows that
  treating a KNOWLEDGE cursor like an AUDIT one repairs it for all inputs.
- `ops/production/provision-ai-runtime.py:126-127`: the parser splits the decoded text, the
  printer the bytes, and Python's text lines end at eight characters more (form feed,
  NEL, U+2028 and so on). A managed setting behind one of them is seen by the parser and
  kept by the printer, so the rendered file has it twice and the run is undone.
  `RenderedParses` with `HiddenByOwnLines` gives the exact condition, `HiddenSetting` a file, and
  `PlainHidesNothing` the ordinary case.
- `apps/api/src/common/idempotency/admin-business-idempotency.service.ts:11` sorts keys with
  `localeCompare`, which by ECMA-262 answers 0 for canonically equivalent keys (composed
  and decomposed accents). Exactly-once does not depend on that (`ExactlyOnce` asks
  nothing of the comparison). What depends on it is whether a retry is recognised:
  `RetriesAreSafe` and `NoTiesIffOneForm` say for which payloads every deeply equal retry
  is answered, namely those no object of which has two tied keys, and `OtherForm` gives a
  retry that is refused for any other.
- `apps/api/src/modules/ai-gateway/json-schema-validator.ts:223-233`: the inspection reads
  `type` through string conversion, the matcher compares it as it stands, so `null` and
  `["string"]` pass and are then ignored. `TypeConstrainsIffString` says when a type
  constrains anything.
- `apps/api/src/modules/automation/automation-engine.service.ts:135-145`: a send that timed
  out may still go out after its execution has dead-lettered. `MessageAfterDeadLetter` is
  such a run; `TerminalIsFinal` and `LateSend` say that exactly the sends attempted and
  not yet in effect can, and `OneMessagePerAction` that each does at most once.
- `apps/api/src/modules/auth/session.service.ts:117-126` describes the claim of a rotation
  as a guarded update; the code (lines 142-188) takes a row lock and reads again. The
  models follow the code.

## Model

| member | source | states |
|---|---|---|
| `AuditTimeline.PageIsExact` | apps/api/src/modules/audit/audit-timeline.service.ts:29-59 | cutting each table at pageSize + 1, merging, sorting and slicing gives the first pageSize rows of everything the predicates select in the global order; nextCursor is null exactly when nothing more is selected and otherwise names the last row served; total is the length of the whole history |
| `AuditTimeline.CutAndMerge` | apps/api/src/modules/audit/audit-timeline.service.ts:29-52 | for any three tables with distinct rows and any cut n, the first n rows of the sorted merge of the cut tables are the first n rows of the sorted whole |
| `AuditTimeline.CutLosesNothing` | apps/api/src/modules/audit/audit-timeline.service.ts:29-52 | the same for the service's own three filtered queries |
| `AuditTimeline.CursorMeaning` | apps/api/src/modules/audit/audit-timeline.service.ts:223-245 | the three cursor predicates say "strictly after the cursor in the global order", except that a KNOWLEDGE cursor also lets back in SECURITY rows of the same time with a smaller id (line 236); the corrected predicate has no exception |
| `AuditTimeline.SelectedElements` | apps/api/src/modules/audit/audit-timeline.service.ts:29-46 | the selection is strictly sorted and holds exactly the rows of the tables that match, whose source the source filter names (a SECURITY row only if the action filter can name it), and that come after the cursor in the global order or are stray to it |
| `AuditTimeline.HistoryMeans` | apps/api/src/modules/audit/audit-timeline.service.ts:31-46 | a row is in the history exactly if it is in the table of its source, matches, and the source filter names its source (SECURITY only if the action filter can name a security event) |
| `AuditTimeline.PageMeans` | apps/api/src/modules/audit/audit-timeline.service.ts:29-59 | the same of one page: its items are in order, at most pageSize, each to be selected, and a row to be selected that is not among them comes after a full page with a next cursor |
| `AuditTimeline.SelectsTheRest` | apps/api/src/modules/audit/audit-timeline.service.ts:223-245 | after a cursor without stray rows the predicates select exactly the rest of the history |
| `AuditTimeline.PageFrom` | apps/api/src/modules/audit/audit-timeline.service.ts:28-62 | a page from such a place is the next slice of the history, with the cursor of the place after it |
| `AuditTimeline.SafeRunServes` | apps/api/src/modules/audit/audit-timeline.service.ts:28-62 | from any place ahead of which every page boundary is safe, enough requests serve the rest of the history once and end |
| `AuditTimeline.UnsafePage` | apps/api/src/modules/audit/audit-timeline.service.ts:230-237 | after an unsafe cursor the next page begins with a row other than the one due |
| `AuditTimeline.UnsafeRunFails` | apps/api/src/modules/audit/audit-timeline.service.ts:230-237 | once an unsafe boundary lies ahead no number of requests serves what is left |
| `AuditTimeline.WholeRun` | apps/api/src/modules/audit/audit-timeline.service.ts:28-62 | main result: following nextCursor from the first page ends having served every matching row exactly once in order if and only if no page but the last ends at a KNOWLEDGE row sharing its time with a SECURITY row of smaller id; otherwise no number of requests does it |
| `AuditTimeline.WholeRunWhileGrowing` | apps/api/src/modules/audit/audit-timeline.service.ts:28-62 | main result for tables that grow: while rows newer than the cursor are appended between the requests, the run still ends having served the history its first request met, exactly once and in order, if and only if the boundaries in it are safe |
| `AuditTimeline.GrowingServesAlike` | apps/api/src/modules/audit/audit-timeline.service.ts:28-62 | a run over growing tables serves what the same run over the tables of its first request serves, and ends when it does |
| `AuditTimeline.GrownPage` | apps/api/src/modules/audit/audit-timeline.service.ts:29-59 | rows newer than the cursor change neither the items of a page nor its next cursor |
| `AuditTimeline.TotalIsTheSum` | apps/api/src/modules/audit/audit-timeline.service.ts:28-62 | in a complete run the page lengths add up to the total each page reports |
| `AuditTimeline.CorrectedRun` | apps/api/src/modules/audit/audit-timeline.service.ts:230-237 | with line 236 treating a KNOWLEDGE cursor like an AUDIT one, the run is complete for all tables, filters and page sizes |
| `AuditTimeline.RunWithoutInversions` | apps/api/src/modules/audit/audit-timeline.service.ts:28-62 | the code as written is complete for every page size when no SECURITY row shares a time with a KNOWLEDGE row of larger id |
| `AuditTimeline.ThreeRowLoop` | apps/api/src/modules/audit/audit-timeline.service.ts:230-237 | the counterexample: rows S(T,5), K(T,9), A(T,id) read one by one give S, K, S, K, ... for any number of requests and never A |
| `AutomationEngine.BackoffBounds` | apps/api/src/modules/automation/automation-engine.service.ts:512-519 | each backoff lies between half its base, rounded down, and the base; the base is at least the initial delay, grows with the attempts and never passes maximumDelayMs |
| `AutomationEngine.BackoffDoubles` | apps/api/src/modules/automation/automation-engine.service.ts:512-519 | the base starts at the initial delay and doubles with every attempt up to maximumDelayMs; without jitter it is the delay, with jitter the delay is the whole part of the point the fraction random of the way from half the base to the base |
| `AutomationEngine.StepKeepsInv` | apps/api/src/modules/automation/automation-engine.service.ts:67-229 | every statement of every worker, worker death, late effect and tick keeps the invariant: single owner, prefix of succeeded steps, bookkeeping of retries, status and dead letter, snapshot still accurate, messages deduplicated |
| `AutomationEngine.StartKeepsInv` | apps/api/src/modules/automation/automation-engine.service.ts:112-134 | starting a step from the rows read at the claim keeps the books: it is the next of the prefix or the one waiting for a retry, and its attempt number is right |
| `AutomationEngine.FinishKeepsInv` | apps/api/src/modules/automation/automation-engine.service.ts:146-215 | the success and the failure transaction each leave retry row, step, execution and dead letter consistent |
| `AutomationEngine.RunKeepsInv` | apps/api/src/modules/automation/automation-engine.service.ts:67-229 | the invariant holds after every interleaving |
| `AutomationEngine.EveryRun` | apps/api/src/modules/automation/automation-engine.service.ts:67-163 | main result: in every interleaving of any number of workers at most one live worker owns the execution and only while it is RUNNING; succeeded steps are a prefix with at most one unfinished step after it; attemptCount never passes maxAttempts; retry rows of an idle step are exactly attempts 1..attemptCount, each finished |
| `AutomationEngine.StatusTells` | apps/api/src/modules/automation/automation-engine.service.ts:164-229 | FAILED means exactly one RETRY_PENDING step, with attempts left, and all others done; SUCCEEDED means every action done unless the conditions did not hold; a dead-letter row exists exactly under DEAD_LETTER |
| `AutomationEngine.SucceededStepIsFinal` | apps/api/src/modules/automation/automation-engine.service.ts:112-115 | a step that succeeded never runs again in any continuation: its row and invocation count never change |
| `AutomationEngine.TerminalIsFinal` | apps/api/src/modules/automation/automation-engine.service.ts:67-72 | SUCCEEDED and DEAD_LETTER are never left and nothing of the record changes under them; messages are only added, and only for sends attempted before |
| `AutomationEngine.LateSend` | apps/api/src/modules/automation/automation-engine.service.ts:521-531 | and each of those may be added: an attempted send that has not taken effect adds exactly its own message when it does |
| `AutomationEngine.MessageAfterDeadLetter` | apps/api/src/modules/automation/automation-engine.service.ts:135-215 | a run from the start in which the last attempt at a send times out, the execution dead-letters, and the message goes out all the same |
| `AutomationEngine.RunsAreBounded` | apps/api/src/modules/automation/automation-engine.service.ts:112-134 | actions are invoked at most actions times maxAttempts times over any run |
| `AutomationEngine.OneMessagePerAction` | apps/api/src/modules/automation/automation-engine.service.ts:287-318 | main result: over any number of executions sharing one send service, retries, late completions and rolled-back success records never create more than one communication per execution and action index, a succeeded action has exactly one, and only communication actions have any |
| `AutomationEngine.WorldStepKeepsInv` | apps/api/src/modules/automation/automation-engine.service.ts:293-299 | every event of every execution keeps the keys of the messages distinct and each message with the execution and action that sent it |
| `AutomationEngine.SendKeepsCommunications` | packages/connect-contracts/src/communications.ts:369-377 | sending under a key already seen adds nothing, under a new key exactly its one message, and the messages stay those of attempted actions |
| `AutomationEngine.RetryWaits` | apps/api/src/modules/automation/automation-engine.service.ts:116-122 | a retry starts no earlier than its nextAttemptAt |
| `AutomationEngine.FailureSchedules` | apps/api/src/modules/automation/automation-engine.service.ts:164-197 | a failed attempt is retried if and only if it is retryable with attempts left, and then no sooner than half the base delay and no later than maximumDelayMs after it; otherwise the execution dead-letters |
| `AutomationEngine.CallEnds` | apps/api/src/modules/automation/automation-engine.service.ts:67-229 | a worker that has claimed and is not disturbed always brings the execution out of RUNNING, within the invariant |
| `AutomationEngine.CallMeans` | apps/api/src/modules/automation/automation-engine.service.ts:67-229 | main result: what an undisturbed call leaves of the rows of any idle execution, without the machine: attempts, invocations, statuses, the time of the next attempt, dead letter and messages, for every definition and every outcome of every action |
| `AutomationEngine.CallRetries` | apps/api/src/modules/automation/automation-engine.service.ts:67-72 | a FAILED execution whose waiting step is due invokes it exactly once more, with one attempt more; one not yet due comes back unchanged |
| `AutomationEngine.CallSucceeds` | apps/api/src/modules/automation/automation-engine.service.ts:67-229 | a claimable execution that does not wait, all of whose actions are sends that are answered and stored, ends SUCCEEDED, every unfinished action invoked exactly once and no other |
| `AutomationEngine.Engine.constructor` | apps/api/src/modules/automation/automation-engine.service.ts:67-72 | an execution as created: PENDING, no steps, nothing sent |
| `AutomationEngine.Engine.ProcessExecution` | apps/api/src/modules/automation/automation-engine.service.ts:67-110 | in place: a call leaves all rows exactly as the interleaved machine does when it alone moves and meets the same outcomes; and said of the rows of any idle execution without that machine: it takes on only a PENDING or FAILED one, dead-letters an unreadable definition, ends one whose conditions do not hold, leaves a step waiting until its time, and otherwise invokes every action from the first open step on once, up to the first that fails; so a due retry runs exactly once more, and a call all of whose actions are answered and stored ends SUCCEEDED |
| `AutomationEngine.Engine.RunActions` | apps/api/src/modules/automation/automation-engine.service.ts:112-229 | in place: the action loop over the rows read at the claim is that machine from the head of the loop on |
| `AutomationEngine.Engine.Attempt` | apps/api/src/modules/automation/automation-engine.service.ts:122-145 | in place: start of the retry row and invocation of one action |
| `AutomationEngine.Engine.AwaitSend` | apps/api/src/modules/automation/automation-engine.service.ts:135-163 | in place: the answer of the send, or its failure, and the success transaction |
| `AutomationEngine.Engine.RecordFailed` | apps/api/src/modules/automation/automation-engine.service.ts:164-215 | in place: the failure transaction, retry or dead letter |
| `AutomationEngine.Engine.FailDefinition` | apps/api/src/modules/automation/automation-engine.service.ts:326-353 | in place: an unreadable definition dead-letters an execution that is still RUNNING |
| `EnvFile.ParseEnv` | ops/production/provision-ai-runtime.py:120-139 | the parser returns the byte lines of the file and what its text lines, read from first to last, make of the managed keys |
| `EnvFile.CollectValues` | ops/production/provision-ai-runtime.py:127-138 | the parsing loop returns the managed values of the lines, or the first duplicated key |
| `EnvFile.CollectMeans` | ops/production/provision-ai-runtime.py:125-138 | the values are exactly those the lines set, and there are values exactly if no two lines set one key; otherwise the key reported is set twice |
| `EnvFile.EntryMeans` | ops/production/provision-ai-runtime.py:26-138 | a line sets a managed key exactly if it is that key, an equals sign and the value, after nothing but white space, with no line feed in the value |
| `EnvFile.LineMeans` | ops/production/provision-ai-runtime.py:125-127 | a line breaks nowhere but at its end, where CR and LF are one break |
| `EnvFile.NoCrLfApart` | ops/production/provision-ai-runtime.py:125-127 | and no CRLF is split between two lines |
| `EnvFile.CodePoints` | ops/production/provision-ai-runtime.py:125-128 | the white space that is stripped and the characters that end a line, by code point |
| `EnvFile.SecretMeans` | ops/production/provision-ai-runtime.py:142-150 | a secret is valid exactly if it is 20 to 512 visible ASCII characters without quotation mark, dollar sign, apostrophe and backslash |
| `EnvFile.ConfiguredMeans` | ops/production/provision-ai-runtime.py:164-169 | managed values are a valid configuration exactly if they are what a provisioning writes for some valid secret |
| `EnvFile.ConfiguredFiles` | ops/production/provision-ai-runtime.py:164-169 | a file is configured exactly if it parses to AI_RUNTIME_ENABLED true, a valid secret and the pinned address, and nothing else |
| `EnvFile.RenderEnv` | ops/production/provision-ai-runtime.py:172-192 | the rendering loop returns the kept lines, completed by a line feed if the last has no break, followed by the three settings |
| `EnvFile.JoinOfSplit` | ops/production/provision-ai-runtime.py:120-126 | under either notion of a line, splitting keeps every character, and each piece is one line |
| `EnvFile.SplitOfJoin` | ops/production/provision-ai-runtime.py:172-192 | joining any selection of lines and splitting again gives back their non-empty bodies in order, even where a CR and a bare LF merge into one CRLF |
| `EnvFile.KeptIsUnmanaged` | ops/production/provision-ai-runtime.py:172-183 | however the kept lines run together, no line of the kept text is managed to the printer |
| `EnvFile.RenderedParses` | ops/production/provision-ai-runtime.py:120-192 | main result: for every content and valid secret, parsing the rendered file gives exactly the three managed values, valid and without duplicates, if and only if the kept text hides no setting behind a break only the parser knows; otherwise it does not parse |
| `EnvFile.HiddenByOwnLines` | ops/production/provision-ai-runtime.py:120-192 | that condition on the file's own lines: no byte line the printer keeps holds a text line that is managed to the parser |
| `EnvFile.PlainHidesNothing` | ops/production/provision-ai-runtime.py:120-192 | a file whose only line breaks are LF, CR and CRLF hides nothing, so there parser and printer always agree |
| `EnvFile.HiddenSetting` | ops/production/provision-ai-runtime.py:126-127 | a concrete file, a comment, a form feed and a managed setting on one byte line: the parser accepts it as not configured, and rendered it does not parse |
| `EnvFile.OthersAreKept` | ops/production/provision-ai-runtime.py:172-192 | rendering cuts the managed lines out of the content, adds at most one line feed and the settings; the bodies of all other lines come back in order |
| `EnvFile.RenderAgain` | ops/production/provision-ai-runtime.py:172-192 | rendering a rendered file with another secret is rendering the original with it; with the same secret nothing changes |
| `Provisioner.StepKeepsInv` | ops/production/provision-ai-runtime.py:293-435 | every file step, error, crash, withdrawal, rollback and operator edit keeps the write-ahead invariant |
| `Provisioner.PointersAreGood` | ops/production/provision-ai-runtime.py:213-231 | after any run a pending pointer names a complete backup of the last committed bytes, the last backup is one of the bytes before the last provisioning, and without a pending pointer the file is what was committed |
| `Provisioner.RecoveryRestores` | ops/production/provision-ai-runtime.py:293-305 | main result: after any run with crashes anywhere, the next run's recovery succeeds, brings the file to exactly the bytes last committed and clears the pointer |
| `Provisioner.WrittenIsAccepted` | ops/production/provision-ai-runtime.py:381-385 | the check after the write passes, and the run commits, exactly when the file hid no setting; otherwise the write is undone |
| `Provisioner.CanProvisionMeans` | ops/production/provision-ai-runtime.py:362-373 | a rotation goes on exactly with a configured file, a first provisioning with any other that parses, both with a valid secret; the check after the write accepts exactly a configured file |
| `Provisioner.HiddenSettingIsUndone` | ops/production/provision-ai-runtime.py:364-392 | that file is one a first provisioning takes on, renders, and then has to put back |
| `Provisioner.CommitsMean` | ops/production/provision-ai-runtime.py:354-435 | what is committed changes only at the commit (to the rendering of the old bytes with a valid secret), its withdrawal or a rollback (to the bytes before), and an operator's edit with nothing pending |
| `Provisioner.ProvisionIsAtomic` | ops/production/provision-ai-runtime.py:354-397 | all or nothing: after any number of attempts with one secret, crashes, faults and withdrawals included, what is committed is the original file or that file rendered once |
| `Provisioner.RollbackUndoes` | ops/production/provision-ai-runtime.py:418-435 | a rollback restores the bytes before the last commit and uses the backup up, whatever failed attempts, crashes, recoveries and edits lie in between |
| `Provisioner.RollbackRestores` | ops/production/provision-ai-runtime.py:418-435 | from any such state with nothing pending and a last backup, an undisturbed rollback leaves the bytes before the last provisioning |
| `Provisioner.RollbackIsAtomic` | ops/production/provision-ai-runtime.py:418-435 | after any number of interrupted rollbacks what is committed is unchanged or the bytes before the last provisioning |
| `Provisioner.Files.constructor` | ops/production/provision-ai-runtime.py:354-361 | a managed file and nothing else: nothing pending, no backup |
| `Provisioner.Files.RecoverPending` | ops/production/provision-ai-runtime.py:293-305 | in place: recovery succeeds exactly when the pending backup is whole and the write does not fail, and then leaves its bytes and no pointer |
| `Provisioner.Files.CreateBackup` | ops/production/provision-ai-runtime.py:213-231 | in place: a whole backup of the file under a new name, older backups untouched, unless a fault stops it |
| `Provisioner.Files.WriteAndCommit` | ops/production/provision-ai-runtime.py:374-392 | in place: pointer, write, check and commit, or the undo; the old bytes are the last backup or the file again |
| `Provisioner.Files.Undo` | ops/production/provision-ai-runtime.py:386-392 | in place: the original bytes go back before the pointer goes |
| `Provisioner.Files.ProvisionEnv` | ops/production/provision-ai-runtime.py:354-397 | in place: succeeds exactly when nothing fails, the recovered file parses, is configured (parses to the three values with a valid secret) if and only if this is a rotation, hides no setting, and the secret is valid; then the file is the recovered one rendered and its old bytes are the last backup; answers ALREADY_CONFIGURED exactly for a first provisioning of a configured file whose recovery does not fail; otherwise the file is as recovery left it; either way a run of the machine |
| `Provisioner.Files.RollbackEnv` | ops/production/provision-ai-runtime.py:418-435 | in place: restores and uses up a whole last backup exactly when nothing is pending and nothing fails; recovers instead when something is pending; a run of the machine |
| `SpendLedger.StepKeepsInv` | apps/api/src/modules/ai-gateway/openrouter-provider.ts:174-316 | every step of every concurrent inference keeps the books balanced and each held ticket the caller's own |
| `SpendLedger.RunKeepsInv` | apps/api/src/modules/ai-gateway/openrouter-provider.ts:174-316 | so does every interleaving |
| `SpendLedger.CounterIsTheLedger` | apps/api/src/modules/ai-gateway/redis-usage-meter.ts:25-81 | main result: over every interleaving of any number of inferences the counter equals settled costs plus outstanding, timeout-retained and unreleased reservations, and exceeds the daily limit by at most the sum of actual minus reserved; never, if no actual exceeds its reservation |
| `SpendLedger.RunNeverClamps` | apps/api/src/modules/ai-gateway/redis-usage-meter.ts:45-81 | math.max(0, ...) in the settle and release scripts never clamps |
| `SpendLedger.ResolvedOnce` | apps/api/src/modules/ai-gateway/openrouter-provider.ts:209-286 | each reservation is resolved at most once: what is no longer outstanding never changes and no entry disappears |
| `SpendLedger.AttemptsAreBounded` | apps/api/src/modules/ai-gateway/openrouter-provider.ts:164-192 | an inference reserves at most once per route and on no more routes than its request allows, and a successful one has a settled reservation |
| `SpendLedger.DriveEnds` | apps/api/src/modules/ai-gateway/openrouter-provider.ts:174-316 | an undisturbed inference ends in success or failure, keeps the books, leaves none of its reservations outstanding and leaves every earlier entry, outstanding or not, as it was |
| `SpendLedger.NoRequestOverLimit` | apps/api/src/modules/ai-gateway/policies.ts:83-107 | in no interleaving does a reservation or a settled cost exceed what one request may cost |
| `SpendLedger.FallbackMeans` | apps/api/src/modules/ai-gateway/policies.ts:36-46 | a caught error leads to the next route if and only if there is one and its code is one of those four, and out of the inference otherwise; nobody else is touched |
| `SpendLedger.ResponseMeans` | apps/api/src/modules/ai-gateway/openrouter-provider.ts:213-226 | a response is refused for its cost by the spend as this inference read it before it reserved, whatever others have done since |
| `SpendLedger.AttemptJudged` | apps/api/src/modules/ai-gateway/openrouter-provider.ts:174-316 | one undisturbed attempt of the machine comes to what it is judged to come to in one go: ending, counter, and the entry it leaves settled, released, retained or unreleased |
| `SpendLedger.LoopJudged` | apps/api/src/modules/ai-gateway/openrouter-provider.ts:174-316 | main result: so does the whole loop; each attempt but the last failed with one of the four codes, and the last did not or was on the last route |
| `SpendLedger.MadeMeans` | apps/api/src/modules/ai-gateway/openrouter-provider.ts:313-316 | such a loop succeeds exactly if some attempt passes and all before it moved on, and reserves on a route only after such attempts |
| `SpendLedger.UsageMeter.constructor` | apps/api/src/modules/ai-gateway/redis-usage-meter.ts:10-23 | a day with nothing spent |
| `SpendLedger.UsageMeter.ReserveDailyCost` | apps/api/src/modules/ai-gateway/redis-usage-meter.ts:25-43 | in place: adds the estimate and answers true unless that would pass the limit, then changes nothing |
| `SpendLedger.UsageMeter.SettleDailyCost` | apps/api/src/modules/ai-gateway/redis-usage-meter.ts:45-65 | in place: replaces the reserved by the actual cost, not below zero, and answers whether the limit holds |
| `SpendLedger.UsageMeter.ReleaseDailyCost` | apps/api/src/modules/ai-gateway/redis-usage-meter.ts:67-81 | in place: takes the reserved cost away, not below zero |
| `SpendLedger.TryReserve` | apps/api/src/modules/ai-gateway/openrouter-provider.ts:177-197 | in place: estimate, policy and reservation before the guarded region; any failure ends the inference |
| `SpendLedger.TryRoute` | apps/api/src/modules/ai-gateway/openrouter-provider.ts:198-316 | in place: the guarded region of one attempt, with release, retention on timeout, or settlement |
| `SpendLedger.SettleAndCheck` | apps/api/src/modules/ai-gateway/openrouter-provider.ts:219-268 | in place: settlement and the checks after it, where an error no longer touches the reservation |
| `SpendLedger.InferOrThrow` | apps/api/src/modules/ai-gateway/openrouter-provider.ts:174-316 | in place: the attempt loop leaves the counter, its reservations and its result exactly as the interleaved machine does when driven by the same estimates, replies and store failures; and judged attempt by attempt without that machine: it returns exactly if some attempt passes every check and each before it failed with MODEL_NOT_AVAILABLE, PROVIDER_ERROR, RATE_LIMITED or TIMEOUT, it reserves on no route after an attempt that ended in another way, and counter and ledger are what the attempts made leave |
| `CircuitBreaker.HistoryKeepsInv` | apps/api/src/modules/ai-gateway/openrouter-client.ts:305-357 | in every history, stale completions included, HALF_OPEN holds exactly when a probe flag is set, CLOSED exactly below the threshold, and a half-open circuit has a call in flight |
| `CircuitBreaker.AnyCompletionLeavesHalfOpen` | apps/api/src/modules/ai-gateway/openrouter-client.ts:332-357 | whichever call ends first leaves HALF_OPEN |
| `CircuitBreaker.EpisodeAdmitsOne` | apps/api/src/modules/ai-gateway/openrouter-client.ts:317-330 | each HALF_OPEN episode admits exactly one request, the one that opens it |
| `CircuitBreaker.OpenHoldsForResetMs` | apps/api/src/modules/ai-gateway/openrouter-client.ts:317-348 | after a failure opened the circuit at t no request is admitted before t + resetMs unless a call still in flight succeeds in between |
| `CircuitBreaker.OpenAdmitsAgain` | apps/api/src/modules/ai-gateway/openrouter-client.ts:317-330 | and no longer: while the circuit is open and no further failure was reported, a request is admitted exactly if the reset delay has passed since it opened, and then the circuit is half open |
| `CircuitBreaker.OthersAdmitIfClosed` | apps/api/src/modules/ai-gateway/openrouter-client.ts:317-330 | in every history a circuit that is not open admits exactly if it is closed |
| `CircuitBreaker.ClosedBelowThreshold` | apps/api/src/modules/ai-gateway/openrouter-client.ts:332-357 | in every history the circuit is closed exactly while fewer failures than the threshold were reported since its last reset |
| `CircuitBreaker.LateSuccessAdmits` | apps/api/src/modules/ai-gateway/openrouter-client.ts:332-336 | the exception is real: a history in which a late success closes the circuit and a request goes out before the reset delay has passed |
| `CircuitBreaker.OpenRouterCircuitBreaker.constructor` | apps/api/src/modules/ai-gateway/openrouter-client.ts:305-316 | in place: closed, no failures, no probe; sound for a threshold of at least one |
| `CircuitBreaker.OpenRouterCircuitBreaker.Before` | apps/api/src/modules/ai-gateway/openrouter-client.ts:317-330 | in place: admits exactly when closed, or when half open or open for resetMs and no probe is under way; half open from then on unless closed; and the fields stay sound |
| `CircuitBreaker.OpenRouterCircuitBreaker.Success` | apps/api/src/modules/ai-gateway/openrouter-client.ts:332-336 | in place: closed with no failures, and sound |
| `CircuitBreaker.OpenRouterCircuitBreaker.Failure` | apps/api/src/modules/ai-gateway/openrouter-client.ts:338-348 | in place: one more failure, no probe, open as of now at the threshold or from half open and otherwise as before, and sound |
| `CircuitBreaker.OpenRouterCircuitBreaker.Ignored` | apps/api/src/modules/ai-gateway/openrouter-client.ts:350-357 | in place: the probe flag is cleared, half open closes, and sound |
| `AuthProtocol.ApplyKeepsSessions` | apps/api/src/modules/auth/session.service.ts:42-332 | every transaction keeps the families linked as chains, reported families dead and every unrevoked session on the current password |
| `AuthProtocol.ApplyKeepsResets` | apps/api/src/modules/auth/password-reset-token.service.ts:72-119 | every transaction keeps at most one live reset token a user and no token used twice |
| `AuthProtocol.ApplyKeepsAssurance` | apps/api/src/modules/auth/session.service.ts:103-212 | every transaction keeps step-up assurance younger than the password |
| `AuthProtocol.RotateLinked` | apps/api/src/modules/auth/session.service.ts:159-188 | rotation appends its child to the end of the family's chain |
| `AuthProtocol.RotateMeans` | apps/api/src/modules/auth/session.service.ts:142-188 | a refresh is rotated exactly if its session is unrevoked, unexpired and not rotated yet, and then links it to a fresh session of its user and family; it is a replay exactly if unrevoked, unexpired and rotated, and then revokes the family; otherwise it is invalid and changes nothing |
| `AuthProtocol.RunKeepsInv` | apps/api/src/modules/auth/session.service.ts:42-332 | all of this holds after every serial run |
| `AuthProtocol.FamilyIsOneChain` | apps/api/src/modules/auth/session.service.ts:127-189 | in linked tables each family is a single chain by rotatedToSessionId from its founder through every member, and exactly its end is unrotated |
| `AuthProtocol.FamiliesAreChains` | apps/api/src/modules/auth/session.service.ts:127-189 | main result: after every serial run each family is such a chain and no refresh token was rotated twice |
| `AuthProtocol.ReplayIsFinal` | apps/api/src/modules/auth/auth.service.ts:332-375 | main result: once replay is reported for a family no session of it, old or new, is usable after any further transactions |
| `AuthProtocol.SessionsFollowThePassword` | apps/api/src/modules/auth/auth.service.ts:195-253 | main result: every unrevoked session stems, through any number of rotations, from a login checked against the current password or from the session that performed the latest change |
| `AuthProtocol.ResetTokensSingleUse` | apps/api/src/modules/auth/password-recovery.service.ts:288-335 | main result: each reset token changes the password at most once, is dead afterwards, and a user never has two live ones |
| `AuthProtocol.AssuranceFollowsThePassword` | apps/api/src/modules/auth/password-recovery.service.ts:394-436 | step-up assurance on an unrevoked session was always given after the last password change; refreshing never renews it |
| `AuthProtocol.AuthTables.constructor` | apps/api/src/modules/auth/session.service.ts:36-40 | accounts without session, token or history |
| `AuthProtocol.AuthTables.PersistAuthenticatedLogin` | apps/api/src/modules/auth/auth.service.ts:195-253 | in place: founds a family exactly when the user is active and hash and change time are still the ones verified, with a session that expires after its time to live; is the Login transaction |
| `AuthProtocol.AuthTables.Rotate` | apps/api/src/modules/auth/session.service.ts:127-189 | in place: the statements of one rotation are the Refresh transaction, with the same outcome, said of the rows as by RotateMeans |
| `AuthProtocol.AuthTables.MarkStepUpVerified` | apps/api/src/modules/auth/session.service.ts:103-115 | in place: marks exactly a session of that user that is unrevoked, unrotated and unexpired, and no other row |
| `AuthProtocol.AuthTables.IssueResetToken` | apps/api/src/modules/auth/password-reset-token.service.ts:72-94 | in place: for an active user supersedes exactly the unused, unsuperseded, unexpired tokens of that user and adds a live one |
| `AuthProtocol.AuthTables.Reset` | apps/api/src/modules/auth/password-recovery.service.ts:288-335 | in place: exactly for a token that is unused, unsuperseded and unexpired, of an active user whose hash is unchanged, uses the token, sets the password and revokes all of the user's sessions; all or nothing |
| `AuthProtocol.AuthTables.Change` | apps/api/src/modules/auth/password-recovery.service.ts:394-436 | in place: exactly for an active user whose hash is unchanged and a session of theirs that is unrevoked, unrotated and unexpired, sets the password, revokes all other sessions and clears the assurance of this one; all or nothing |
| `AuthProtocol.AuthTables.Revoke` | apps/api/src/modules/auth/session.service.ts:225-332 | in place: the revoke variants touch exactly the rows their guards name |
| `RefreshRowLock.StepKeepsInv` | apps/api/src/modules/auth/session.service.ts:142-188 | every statement of every consumer keeps the committed rows settled and one rotation and one replay per committed state |
| `RefreshRowLock.RunKeepsInv` | apps/api/src/modules/auth/session.service.ts:142-188 | so does every interleaving |
| `RefreshRowLock.RefreshRace` | apps/api/src/modules/auth/session.service.ts:127-189 | main result: for n >= 2 consumers of one live generation every interleaving of lock, read, claim, insert, link and commit ends with exactly one rotated, exactly one replay and otherwise invalid, and with the one inserted child revoked |
| `RefreshRowLock.NoChildEscapes` | apps/api/src/modules/auth/session.service.ts:142-188 | at every point of every run, a committed child is revoked once a replay has been answered |
| `RefreshRowLock.SomeoneCanRun` | apps/api/src/modules/auth/session.service.ts:142-146 | the race never stalls on its lock |
| `RefreshRowLock.RaceEnds` | apps/api/src/modules/auth/session.service.ts:127-189 | a race of n consumers takes at most 6n statements |
| `AdminIdempotency.StepKeepsInv` | apps/api/src/common/idempotency/admin-business-idempotency.service.ts:24-51 | every step of every caller keeps one committed row that is its writer's, and every answer the row's |
| `AdminIdempotency.RunKeepsInv` | apps/api/src/common/idempotency/admin-business-idempotency.service.ts:24-51 | so does every interleaving |
| `AdminIdempotency.ExactlyOnce` | apps/api/src/common/idempotency/admin-business-idempotency.service.ts:24-51 | main result, whatever the key comparison ties: for any interleaving of callers with one actor, operation and key at most one caller's work commits, and every caller that returns gets its response and had a payload deeply equal to its |
| `AdminIdempotency.DifferentPayloadNeverReturns` | apps/api/src/common/idempotency/admin-business-idempotency.service.ts:24-51 | whatever the key comparison ties, a caller whose payload is not deeply equal to the committed one neither returns nor commits, at any point of any run |
| `AdminIdempotency.RetriesAreSafe` | apps/api/src/common/idempotency/admin-business-idempotency.service.ts:48-51 | a stored request can be sent again in every deeply equal form and be answered if and only if no object in it has two tied keys |
| `AdminIdempotency.IdempotencyTable.constructor` | apps/api/src/common/idempotency/admin-business-idempotency.service.ts:20-22 | an empty table and no effects |
| `AdminIdempotency.IdempotencyTable.Execute` | apps/api/src/common/idempotency/admin-business-idempotency.service.ts:24-51 | in place: lookup, lookup in the transaction, work, insert, commit and the lookup after a broken unique constraint are a run of the interleaved machine, alone or with a rival that commits in between; a stored or rival row is replayed and the call leaves no effect, otherwise its work and its row are stored together or not at all |
| `AdminIdempotency.IdempotencyTable.Transact` | apps/api/src/common/idempotency/admin-business-idempotency.service.ts:32-45 | in place: the transaction and what follows when it breaks the unique constraint |
| `AdminIdempotency.IdempotencyTable.InsertAndCommit` | apps/api/src/common/idempotency/admin-business-idempotency.service.ts:36-45 | in place: the insert meets the unique index; effects and row count together once committed |
| `AdminIdempotency.IdempotencyTable.LookAgain` | apps/api/src/common/idempotency/admin-business-idempotency.service.ts:40-45 | in place: after a broken unique constraint the winner's row is replayed, or there is none and the call conflicts |
| `AdminIdempotency.IdempotencyTable.RivalCommits` | apps/api/src/common/idempotency/admin-business-idempotency.service.ts:36-38 | in place: another caller's insert and commit, between two statements of this call |
| `AdminIdempotency.IdempotencyTable.ExecuteTwice` | apps/api/src/common/idempotency/admin-business-idempotency.service.ts:24-51 | a second request has no effect, returns only if it is deeply equal to the first and conflicts otherwise; where no object of the first has tied keys, a deeply equal one gets the same answer, its entries in any order |
| `Json.CanonicalImpliesDeepEqual` | apps/api/src/common/idempotency/admin-business-idempotency.service.ts:8-18 | for every comparison, values with one canonical form are deeply equal |
| `Json.NoTiesIffOneForm` | apps/api/src/common/idempotency/admin-business-idempotency.service.ts:8-18 | main result: for every consistent comparison and every value with distinct keys, all values deeply equal to it have its canonical form if and only if no object in it, at any depth, has two keys the comparison ties |
| `Json.CanonicalIffDeepEqual` | apps/api/src/common/idempotency/admin-business-idempotency.service.ts:8-18 | for a value without tied keys, its canonical form is another value's exactly when the two are deeply equal |
| `Json.NoTiesSuffices` | apps/api/src/common/idempotency/admin-business-idempotency.service.ts:8-14 | a value without tied keys has the canonical form of every value deeply equal to it |
| `Json.OtherForm` | apps/api/src/common/idempotency/admin-business-idempotency.service.ts:8-14 | for a value with a tie anywhere, a deeply equal one with another canonical form |
| `Json.SortKeepsTied` | apps/api/src/common/idempotency/admin-business-idempotency.service.ts:10-12 | the sort is stable: entries with tied keys keep their order |
| `Json.SortSame` | apps/api/src/common/idempotency/admin-business-idempotency.service.ts:10-12 | whatever the comparison, sorting only permutes the entries |
| `Json.StrictOrderIsNeeded` | apps/api/src/common/idempotency/admin-business-idempotency.service.ts:10-12 | said of the comparison: the canonical form decides deep equality of all values if and only if no two keys are tied |
| `Json.LexicographicIsStrict` | apps/api/src/common/idempotency/admin-business-idempotency.service.ts:10-12 | comparing keys character by character ties none |
| `Json.TiedKeysKeepTheirOrder` | apps/api/src/common/idempotency/admin-business-idempotency.service.ts:10-12 | for any two keys the order cannot tell apart there are two deeply equal objects with different canonical forms |
| `Json.SortAlike` | apps/api/src/common/idempotency/admin-business-idempotency.service.ts:8-14 | two objects' entries, the keys of one untied, sort alike exactly when they are the same entries |
| `Json.SameCountSameKeys` | apps/api/src/modules/ai-gateway/json-schema-validator.ts:239-260 | the key-count argument: as many keys and all of one among the other's gives the same keys |
| `Json.GetFinds` | apps/api/src/modules/ai-gateway/json-schema-validator.ts:250-256 | with distinct keys a lookup finds each entry's own value |
| `Json.DeepEqualReflexive` | apps/api/src/modules/ai-gateway/json-schema-validator.ts:239-260 | deep equality is reflexive, as the identity shortcut assumes |
| `Json.DeepEqualSymmetric` | apps/api/src/modules/ai-gateway/json-schema-validator.ts:239-260 | deep equality is symmetric, though the code walks the left operand only |
| `Json.DeepEqualTransitive` | apps/api/src/modules/ai-gateway/json-schema-validator.ts:239-260 | deep equality is transitive |
| `Json.CanonicalIsEqual` | apps/api/src/common/idempotency/admin-business-idempotency.service.ts:8-14 | for every comparison, the canonical form is a well-formed value deeply equal to the one it came from |
| `Json.CanonicalIdempotent` | apps/api/src/common/idempotency/admin-business-idempotency.service.ts:8-14 | canonicalizing twice is canonicalizing once, tied keys or not |
| `SchemaValidator.InspectSchema` | apps/api/src/modules/ai-gateway/json-schema-validator.ts:47-113 | in place: the recursive inspection with its shared node counter refuses exactly a schema some node of which is ill-formed, too deep, or beyond the node limit, and on acceptance the counter has moved by the size of the schema tree |
| `SchemaValidator.InspectKeywords` | apps/api/src/modules/ai-gateway/json-schema-validator.ts:56-82 | in place: the keyword checks of one node refuse only a node that is ill-formed, each code for its own keyword, and with sound combinators accept only one that is well-formed |
| `SchemaValidator.InspectCombinator` | apps/api/src/modules/ai-gateway/json-schema-validator.ts:101-112 | in place: the schemas of one combinator |
| `SchemaValidator.InspectChildren` | apps/api/src/modules/ai-gateway/json-schema-validator.ts:47-113 | in place: a list of child schemas, counted on one shared state |
| `SchemaValidator.AssertSupported` | apps/api/src/modules/ai-gateway/json-schema-validator.ts:35-38 | accepts exactly the well-formed schemas of depth at most 20 with at most 1000 nodes |
| `SchemaValidator.CutoffInvisible` | apps/api/src/modules/ai-gateway/json-schema-validator.ts:115-220 | main result: where a schema is no deeper than the cutoff leaves room for, the bounded matcher agrees with the same semantics without cutoff on every value, under non-monotone oneOf too |
| `SchemaValidator.MatchesMeans` | apps/api/src/modules/ai-gateway/json-schema-validator.ts:115-220 | main result: the matcher without cutoff decides the meaning of a schema: const and enum, all of allOf, some of anyOf, exactly one of oneOf, and for the named type its kind, bounds, items, members and keys |
| `SchemaValidator.NodeMeans` | apps/api/src/modules/ai-gateway/json-schema-validator.ts:56-112 | a node is well-formed exactly if every keyword is known and each keyword that is checked has the form it asks for |
| `SchemaValidator.SupportedTypeMeans` | apps/api/src/modules/ai-gateway/json-schema-validator.ts:223-233 | a type passes exactly if it is null or the name of a type inside any number of one-element arrays |
| `SchemaValidator.ChildrenMean` | apps/api/src/modules/ai-gateway/json-schema-validator.ts:87-112 | what hangs below a schema is the schemas of its properties, of its items and of its three combinators, and nothing else |
| `SchemaValidator.EqualValuesMatchAlike` | apps/api/src/modules/ai-gateway/json-schema-validator.ts:115-220 | matching cannot tell deeply equal values apart, whatever the order of their entries |
| `SchemaValidator.AssertMatches` | apps/api/src/modules/ai-gateway/json-schema-validator.ts:40-45 | a structured output passes exactly when its schema is supported and it satisfies the schema, whose meaning is defined clause by clause without matcher, depth or cutoff |
| `SchemaValidator.TypeConstrainsIffString` | apps/api/src/modules/ai-gateway/json-schema-validator.ts:223-233 | a type that passes the inspection constrains values exactly when it is a string: null and one-element arrays pass through string conversion and are then ignored by the matcher |
| `LoginLockout.StepKeepsInv` | apps/api/src/modules/auth/login-attempt.service.ts:90-133 | every statement of every call keeps: no increment lost, the lock set by one call, and a reached threshold locked or about to be |
| `LoginLockout.RunKeepsInv` | apps/api/src/modules/auth/login-attempt.service.ts:90-133 | so does every interleaving without expiry |
| `LoginLockout.LockoutRace` | apps/api/src/modules/auth/login-attempt.service.ts:90-133 | main result: n concurrent failed attempts on an unlocked account with c earlier failures always end at c + n, locked exactly if that reaches the maximum, and then exactly one call reports justLocked |
| `LoginLockout.LockoutRaceInTime` | apps/api/src/modules/auth/login-attempt.service.ts:90-133 | the same for all statements that run within one lockout duration, a condition on the clock alone |
| `LoginLockout.LockIsTimed` | apps/api/src/modules/auth/login-attempt.service.ts:115-122 | a lock set during a run is set by one of its statements, for the lockout duration from then on |
| `LoginLockout.PassedLockLosesCount` | apps/api/src/modules/auth/login-attempt.service.ts:93-101 | without such a condition it can fail: a schedule of two calls in which the lock passes, the count is reset and both report justLocked |
| `LoginLockout.WithinOneLockout` | apps/api/src/modules/auth/login-attempt.service.ts:67-69 | such statements never meet a lock that has passed |
| `LoginLockout.FiveTurnsSuffice` | apps/api/src/modules/auth/login-attempt.service.ts:90-133 | no call waits for another: five turns end it whatever runs between |
| `LoginLockout.UserRow.constructor` | apps/api/src/modules/auth/login-attempt.service.ts:90-91 | an unlocked account with earlier failures |
| `LoginLockout.UserRow.ClaimLock` | apps/api/src/modules/auth/login-attempt.service.ts:118-122 | in place: the null-guarded claim sets the lock exactly if there is none |
| `LoginLockout.UserRow.RegisterFailedAttempt` | apps/api/src/modules/auth/login-attempt.service.ts:90-133 | in place: a call run alone is its five turns of the interleaved model; it counts one more failure, or the first after a lock that has passed, leaves a lock that holds, and otherwise locks for the lockout duration exactly if the maximum is reached |

## Left out

- Database, Redis, HTTP and file system clients: modelled as tables, a counter, replies and a map of files, each with a known outcome. A lost answer is modelled only for the counter scripts.
- Argon2, HMAC, JWT, UUID generation and hashing: abstract values. Collisions are not modelled.
- Encoding and decoding of the timeline cursor, and the UTF-8, UUID and date checks on it: the cursor is the triple it carries.
- The row filters of the timeline on action, actor, result and dates, and the mapping of rows to display items: `matches` is any predicate. The three reads of one page see the same tables, and rows appended during a run are newer than its cursor.
- Rehash on login (`apps/api/src/modules/auth/auth.service.ts:165-168`): an unguarded write of the password hash.
- Statement-level effects across different session rows (logout of all sessions, or the replay of an old generation, racing the rotation of a later one): the lock of a rotation covers one row, so the serial model claims nothing about them.
- AuthProtocol.AssuranceFollowsThePassword: the clock of a transaction is read when it commits. The code takes the time of a change or of a verification before its transaction (`apps/api/src/modules/auth/password-recovery.service.ts:289`, `:395`, `apps/api/src/modules/auth/session.service.ts:103`), so two of them that overlap may carry times in the other order than they commit.
- The mandatory events written in the same transactions, and the MFA enforcement that can roll a refresh back: a transaction that rolls back is no step.
- Reset of the counter by a successful login, and who calls `registerFailedAttempt`: login policy.
- LoginLockout.LockoutRace: does not cover a lock that passes during the race, because the reset of a stale lock (`apps/api/src/modules/auth/login-attempt.service.ts:93-101`) erases increments of calls that ran before it; `PassedLockLosesCount` is such a run, and `LockoutRaceInTime` gives a condition on the clock that excludes it; the branch itself is part of `Step` and of `RegisterFailedAttempt`.
- Roll-over of the UTC day between reserve and settle: all claims of the ledger are about one counter key. Costs that are not whole micros, and a counter that cannot be read, end the inference and are its `Die` step.
- SpendLedger.CounterIsTheLedger: speaks of settled amounts; a response refused by the cost check after the call is released, not settled (`apps/api/src/modules/ai-gateway/openrouter-provider.ts:222-226`), so what the provider bills for it is not in the counter.
- Routing, structured output, tool and data policies of the gateway: single branches; a failed check after settlement is one event.
- AutomationEngine.StepKeepsInv: a worker that dies leaves RUNNING for good, so nothing is claimed about progress after a death; `CallEnds` covers the undisturbed call.
- `processReadyRetries` (`apps/api/src/modules/automation/automation-engine.service.ts:231-242`): it only chooses which execution to call `processExecution` on; the machine lets any worker call at any time.
- `readPath`, `setPath`, the conditions and the parse functions of the automation engine: their result is the definition a load meets, or the failure of an action.
- Transactions of the automation engine whose commit succeeds while its answer is lost: outcomes are known.
- Undecodable bytes in the environment file: refused by parser and printer alike, and not modelled.
- Ownership, permissions, symbolic links and path checks of the provisioner, its read-only `verify`, and a failed fsync other than the one after the commit (`CommitUnsynced`), which leave the same files as a crash at that point.
- An operator's edit while a process is under way; an edit between runs is a step, and one made while a transaction is pending is overwritten by its recovery.
- Provisioner.Files.ProvisionEnv: a failed fsync after the commit is a step of the machine and not of the method.
- SchemaValidator.InspectSchema: says whether a schema is refused, not with which code.
- SchemaValidator.CutoffInvisible: keywords that the code reads only beside `type` are read only there in the unbounded semantics too; that is the code's meaning of a schema, not the standard's.
- Idempotent execution without a key, and the check of a key's form: the first runs unprotected, the second refuses before anything happens.
- JSON numbers are finite reals without negative zero, `undefined` and class instances do not occur, and string lengths count characters.
- Classification of errors into breaker success, failure and ignored, and the request and response mapping of the OpenRouter client.
- Lifecycle tables, RBAC, legal catalogs, environment validation, redaction, release installers, `provision-stack-env.py`, controllers and all user interfaces: tables, single branches or wiring.
