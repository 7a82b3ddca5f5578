# Heartbeat: a verified model of the control plane's hard parts

Heartbeat runs read-only T-SQL probes against databases, configures the collectors that run them,
and ships logs and audit records. This project models the parts of it with the most branching and
the most concurrency, in Dafny 4.11, and proves what each is for. `dafny verify dfyconfig.toml`
checks all of it.

## How the models are built

Code that loops over one structure is a `method` with the source's loop, proved equal to a
specification function or against a declarative predicate; lemmas are about those. Protocols of
several processes, where PostgreSQL row locks, Redis `MULTI` blocks or a mutex decide what is
atomic, are state machines on values: `Enabled` says when a step may happen, `Next` what it does,
`Run` is a sequence of states one step apart from a start, and the results hold in every state of
every run. Waits, deadlines, crashes and errors are steps that may happen at any time; clocks and
timestamps are counters.

`Basics` and `InventoryTypes` hold what several models use. The `…Steps` files hold the routine half of two state
machines' invariants, one fact at a time; the results are in the `…Laws` files.

| files | what they model |
|---|---|
| `SqlLexer`, `SqlTokens`, `SqlValidate`, `DerivedTable`, `SqlMasking` | the T-SQL tokenizer, the read-only validator, and the extraction of a derived table |
| `OtlpSplit`, `OtlpSplitLaws`, `Delivery` (with modules `Outbox` and `Draining`) | packing log records into requests, exporting them, and the audit outbox |
| `LogQueue` | the bounded queue of a service's own log records |
| `Sessions`, `SessionSteps`, `SessionLaws` | logins, session touches, password changes and disablings |
| `Limits` (with modules `LoginFlow` and `LoginAttempts`) | the failed-login counter, the exits of a login and of a password change, and those exits as paths of the counter's machine |
| `LastAdmin` | concurrent changes of users and roles |
| `Collectors`, `Reconcile`, `Executions`, `Reloading`, `ReloadExamples` | config diffs, reconciliation with rollback, the calls of one that fails or succeeds, reloads and the shutdown, and runs that end otherwise than the snapshot says |
| `Supervisor`, `Refinement`, `CallRuns`, `ServiceRuns` | the poller lifecycle and its supervisors, that a reload's view of them is faithful, and whole reloads on their runs |
| `Inventory`, `Refusals`, `ApplyFile`, `InventoryService` | applying an environment's inventory file, and what refuses it |
| `Approvals`, `ApprovalSteps`, `ApprovalLaws` | probe assignments, approvals, the applied check and the render |

Modelling choices that matter:

- A query is a sequence of characters. Which characters beyond ASCII are letters, digits, spaces
  or controls is a parameter (`Classes`), fixed on ASCII.
- A pieces-and-look-ahead grammar (`Fits`, `Chain`) is stated apart from the scanner, and
  `LexemesCharacterized` shows the scanner computes exactly its cuts. The results on derived tables
  and masking are compositional facts about that grammar.
- A reload sees a collector through its slot: free, live, cancelled and not exited, exited with its
  waiters not told yet, or done and still registered. `Collectors.Do` is what each lifecycle call
  does to its own ID for every way a wait can end; the reconciliation is proved from the contract
  `LifecycleContract` alone, for any interleaving of the calls of a parallel phase. What is
  registered and the health of each collector are read one after the other, while pollers exit.
  `Refinement` shows that the steps of the supervisors and of the calls, interleaved, do to a slot
  what `Do` and `Drifted` say; `CallRuns` that every call keeps the contract on its ID whatever the
  machine does meanwhile; `ServiceRuns` that a whole reload on a run of the machine is a reload as
  `ReloadStep` says, so that `EveryRun` holds over the machine's runs.
- Rows of the inventory are keyed by the names the database holds unique; telemetry sources, which
  have no such constraint, by an ID whose order is the order the rows are read in. The file's
  targets are settled in its order, which decides when one moves to a database that another
  leaves; the rows of the other phases in any order, which includes the source's.
- A session's key is fresh at each creation. A Redis command that failed at the client may still be
  carried out, at any later step.

## Where the code and what is said of it differ

- A rolled-back reload is documented to leave the runtime as the active snapshot says
  (`internal/config/manager.go:125-128`). It can also start a collector the snapshot does not want:
  `Stop` on an entry whose poller has exited succeeds and leaves the entry registered
  (`services/db-collector/internal/app/lifecycle.go:325-342` and `357-372`), a later plan is made
  against what is registered, and undoing it starts the entry again. `UndivergedWithMore` is a run
  that ends so. Before a call, `AnyPlanRollsBack`: every successful rollback leaves what ran if and
  only if, where an ID of the target is registered with something to wait for, every such
  registration is running, and where another ID is, every registration. For one plan,
  `RollsBackAlways`. Where a plan can fail, `RollbackOf` gives the calls of a reload that does and
  is rolled back without an error. After a call, `RolledBack`, by the phase that failed. Over every
  sequence of reloads, `EveryRun`.
- A reload that returns nil is documented to have converged on the candidate
  (`services/db-collector/internal/app/app.go:584-587`). It can leave a collector of the candidate
  not running: `configs` and each `needsRestart` take the mutex on their own (`app.go:589` and `597`,
  `lifecycle.go:389-394`), and one that is registered as stopping may exit in between; it is then
  unchanged by the diff and needs no restart, so the plan has no step for it. The input: y runs; a
  reload to x and a changed y gives up on y's old poller, undoes y, and gives up on stopping x; a
  reload to x and y finds x stopping, x exits, and the reload publishes x and y while y runs alone.
  `UndivergedWithLess` is that run. Before a call, `AppliesAlways`: every reload that applies leaves
  exactly the candidate running if and only if no wanted registration with the wanted configuration
  is stopping. Where one is, `MissesOf` gives the calls of a reload that misses it. Over every
  sequence of reloads, `EveryRun`.
- The applied check is documented to mark what the collector runs as rendered
  (`apps/api/internal/inventory/applied.go:33-41`). `MarkedExactly`: at a mark, every answer that led
  to it matches what is current if and only if the target is where it was when it was listed. For
  an API-managed target that always is so (`MarkedIsCurrent`); for a config-managed one it is not:
  `MovedByFile` says which file breaks it, and `MovedInARun` is a run in which one does.

## Model

| member | source | states |
|---|---|---|
| SqlLexer.LexemesCharacterized | internal/config/query.go:278-350 | the scan of a text succeeds with a list of pieces exactly when they spell the text and each fits, with one character of look-ahead, before the next |
| SqlLexer.ScanCharacterized | internal/config/query.go:285-347 | the first piece scanned is x exactly when x fits before the next character, for comments, quoted texts, variables, words, numbers and punctuation |
| SqlLexer.ScanNumber | internal/config/query.go:371-397 | a number ends where the literal grammar (hexadecimal, exponent, money) can take no further character |
| SqlTokens.NumberEnd | internal/config/query.go:371-397 | the loop over a number ends where the states of the literal grammar do |
| SqlTokens.QuotedEnd | internal/config/query.go:413-425 | the loop over a quoted text ends at the first closer that is not doubled, or finds none |
| SqlTokens.BlockCommentEnd | internal/config/query.go:429-444 | the loop over a block comment ends where its nesting closes, or finds no end |
| SqlTokens.Tokenize | internal/config/query.go:278-350 | the tokenizer's loop computes the tokens of the pieces, or the first piece's error |
| SqlTokens.TokensSigns | internal/config/query.go:278-350 | a token's kind, text and afterDot depend on the kinds and texts of the pieces before it and on nothing else |
| SqlTokens.TokensSpaced | internal/config/query.go:278-350 | token spans are non-empty, in order, disjoint and within the query |
| SqlValidate.CheckStatement | internal/config/query.go:43-108 | on a statement that starts with SELECT or WITH, the one-pass check finds no fault exactly when it is read-only as `ReadOnly` declares it |
| SqlValidate.ValidateReadOnlySelect | internal/config/query.go:43-108 | a query passes exactly when it can be tokenized and its statement is read-only |
| SqlValidate.VerdictCharacterized | internal/config/query.go:43-108 | the verdict is none exactly when every position is clean: balanced depth and cases, no forbidden word outside a name, no second statement, one query per set operator |
| SqlValidate.TrimSemicolons | internal/config/query.go:234-243 | a stretch of the tokens is left that no semicolon starts or ends, and all that is dropped around it is semicolons |
| DerivedTable.DerivedTable | internal/config/query.go:117-160 | a query is accepted exactly when it is read-only and holdable as a derived table, and the text is the stretch from its first to its last token |
| DerivedTable.RefuseClauses | internal/config/query.go:131-158 | no refusal exactly when no top-level FOR or OPTION stands in it and a top-level ORDER BY has its TOP or OFFSET |
| DerivedTable.EmbeddedTokens | internal/config/query.go:110-160 | the tokens of the text put between "FROM (" and ") AS q" are FROM, (, exactly the statement's tokens, ), AS and Q |
| DerivedTable.EmbeddedParentheses | internal/config/query.go:110-160 | the inserted opening parenthesis is matched by the inserted closing one and by no other |
| DerivedTable.ExtractedTwice | internal/config/query.go:117-160 | the text of an accepted query is accepted, and extracts to itself |
| SqlMasking.MaskQuoted | internal/config/query.go:413-425 | replacing the body of a string, bracketed or double-quoted token by any body with its closers doubled and no control characters keeps every other token and the verdict |
| SqlMasking.MaskComment | internal/config/query.go:429-444 | replacing a line or nested block comment by a space keeps the tokens and the verdict |
| OtlpSplit.AddRecord | internal/otlp/logs.go:247-277 | one turn of the packing loop closes the request when the record would take it past the limit and places the record under its headers |
| OtlpSplit.Split | internal/otlp/logs.go:234-283 | the nested loops compute the greedy packing of the records |
| OtlpSplitLaws.SplitConserves | internal/otlp/logs.go:234-283 | the requests put together hold every record once, in order, under its own resource and scope |
| OtlpSplitLaws.SplitBounded | internal/otlp/logs.go:62-63 | the protobuf size of each request, counted field by field with varint lengths, is at most the limit unless it holds one record |
| OtlpSplitLaws.SplitOptimal | internal/otlp/logs.go:234-283 | no order-preserving cut into allowed requests has fewer requests |
| OtlpSplitLaws.SplitAllowed | internal/otlp/logs.go:234-283 | the split is itself an allowed cut |
| Delivery.Client.Send | internal/otlp/logs.go:123-148 | a request is sent until accepted; success means the last attempt was accepted and all before it could be retried, attempts and waits are bounded |
| Delivery.Client.Export | internal/otlp/logs.go:107-119 | nil only after every request of the split was accepted, in order; on error, one of encoding included, exactly a proper prefix was |
| Delivery.ExportedAll | internal/otlp/logs.go:103-119 | after a successful export the receiver has every record once, in order, with its resource and scope |
| Outbox.NoRecordLost | apps/api/internal/audit/outbox.go:51-95 | for any number of drainers that fail or stop anywhere, every committed record is in the outbox or was accepted, and no two drainers hold one row |
| Outbox.ClaimExclusive | apps/api/internal/store/audit.sql.gen.go:34-40 | claiming rows that are not locked keeps the drainers' rows disjoint |
| Draining.Deliver | apps/api/internal/audit/drainer.go:154-176 | what the receiver accepted of a round's rows is all of them, each once and in order, when the delivery succeeds, and otherwise a first part |
| Draining.Round | apps/api/internal/audit/outbox.go:80-82 | a round's delivery is a step of the outbox that adds to the accepted records just the rows the receiver accepted |
| LogQueue.QueueConserves | internal/telemetry/logs.go:273-350 | records added are exported, dropped, queued, in the batch or in a call; the byte counter is what those hold; accepted unsent records fit 8 MiB |
| LogQueue.AccountedKept | internal/telemetry/logs.go:273-287 | every step keeps the byte counter equal to the bytes held and the accepted ones within the bound |
| SessionLaws.EndedSessionsStayEnded | apps/api/internal/users/manage.go:286-317 | once a password change or a disabling committed, a returned token that still opens a session of the user comes from a login recorded after it, which checked no hash of the user replaced up to then by a change or an upgrade |
| SessionLaws.ReplacedHashLogsInNoMore | apps/api/internal/auth/login.go:323-331 | a login that checked a hash replaced by a change or an upgrade is recorded before that or never, and its session is gone once a change or a disabling followed |
| SessionSteps.InvKept | apps/api/internal/auth/login.go:299-377 | every step of logins, touches, deletions and changes keeps the protocol's invariant |
| SessionSteps.IndexPut | apps/api/internal/auth/sessions.go:98-125 | creating a session keeps every session in its user's index, which outlives it |
| SessionSteps.IndexTouch | apps/api/internal/auth/sessions.go:130-168 | a touch, even a late one with an old time, keeps that |
| SessionSteps.LocksRelease | apps/api/internal/store/users.sql.gen.go:294-297 | a row's lock goes with the transaction that holds it, and with nothing else |
| Limits.CountCovers | apps/api/internal/auth/limits.go:48-118 | over every run the address counter falls short of the attempts in flight and the failures by at most the counts taken back twice, at most that many beyond 50 are admitted and unreturned, and with no errors, no repetition and nothing in flight it is the failures |
| Limits.InvKept | apps/api/internal/auth/limits.go:48-118 | every step, Redis errors and commands carried out more than once included, keeps each count with its attempt, its failure or its error |
| LoginFlow.Login | apps/api/internal/auth/login.go:185-247 | every exit settles its count once: kept exactly when the password was checked and failed, else taken back by one call |
| LoginFlow.ChangePassword | apps/api/internal/auth/login.go:459-509 | the same for a change of one's own password |
| LoginFlow.SettledNet | apps/api/internal/auth/limits.go:84-118 | a settled attempt leaves the count one higher exactly when it is a failure |
| LoginAttempts.FlowIsAPath | apps/api/internal/auth/login.go:185-247 | however steps of other attempts come in between and whichever counter refuses it, an attempt is where its own steps lead and the next of them can be taken: the exits are paths of the counter's machine |
| LoginAttempts.FlowChangesCount | apps/api/internal/auth/limits.go:48-118 | all of an attempt's steps change the counter by one for a kept failure and not at all otherwise |
| LastAdmin.AlwaysAnAdmin | apps/api/internal/users/manage.go:188-263 | from any users with an active admin, every interleaving of disabling, enabling, granting, revoking and creating keeps one, and a role for every user |
| LastAdmin.EndsKeptByCommit | apps/api/internal/users/manage.go:416-425 | between a transaction's count of other admins and its commit, no other commit takes the last of them |
| LastAdmin.RoleLeft | apps/api/internal/users/manage.go:373-376 | taking a role from a user who has more than one leaves one |
| Collectors.DiffCollectors | internal/config/manager.go:187-209 | the diff names each collector once, as added, updated, removed or unchanged, and updates only what differs |
| Collectors.LifecycleContract | internal/config/manager.go:211-223 | a lifecycle call that succeeds leaves its ID running what was asked, a stop of what runs frees it, what is done or free fails no call, and no call touches another ID |
| Reconcile.Advance | internal/config/manager.go:319-343 | a call of one step of a phase brings that step on and leaves the others where they were |
| Reconcile.Lifecycle.RunSteps | internal/config/manager.go:319-343 | for every interleaving and unless a shutdown comes: with no error every step's ID runs what its calls were to leave, an error is of a step that had something to wait for, and other IDs are untouched |
| Reconcile.Lifecycle.ReconcileWithRollback | internal/config/manager.go:286-315 | unless a shutdown comes: nil leaves exactly the next collectors running but for those left alone that did not run; a phase fails only where one of its IDs had something to wait for; with no rollback error every touched ID runs its previous configuration, the others what they ran, and nothing new is registered |
| Reconcile.AllAchieved | internal/config/manager.go:286-315 | three phases done mean exactly the target runs, but for what the plan left alone and did not run |
| Reconcile.AllUndone | internal/config/manager.go:308-314 | the touched phases undone mean the touched IDs run what the plan holds as previous |
| Reconcile.PhasesFit | internal/config/manager.go:345-399 | no two steps of a plan deal with one ID |
| Reloading.Service.PlanReload | services/db-collector/internal/app/app.go:588-607 | the plan leads from what is registered, as read, to the candidate, and leaves alone only what was live, or stopping and gone when its health was read |
| Reloading.PlanIsRead | services/db-collector/internal/app/app.go:588-607 | every plan of that kind is made: pollers may exit and crash so that the health checks find just what it leaves alone not to be restarted |
| Reloading.Restarted | services/db-collector/internal/app/app.go:595-604 | moving an unchanged collector to the updated ones keeps the plan a plan |
| Reloading.Service.Reload | internal/config/manager.go:129-161 | a reload answers busy or invalid and changes nothing, applies and publishes with exactly the candidate running but for what its plan missed, or keeps the snapshot and records a failed rollback |
| Reloading.RolledBack | internal/config/manager.go:286-315 | after a reload that reports a successful rollback, what runs is what ran before if and only if it had touched no registered collector that was not running |
| Reloading.RollsBackAlways | internal/config/manager.go:286-315 | every way a plan can end with a successful rollback leaves what ran if and only if, where its updates can fail, no ID of the target that it touches is registered without running, and where its removals can, no ID that it touches is |
| Reloading.AnyPlanRollsBack | internal/config/manager.go:125-128 | before the call, whatever the plan: every successful rollback leaves what ran if and only if, where an ID of the target is registered with something to wait for, none is registered without running, and where another ID is, no ID at all is |
| Reloading.AppliesAlways | services/db-collector/internal/app/app.go:584-607 | before the call: every reload that applies leaves exactly the candidate running if and only if no wanted registration with the wanted configuration is stopping |
| Reloading.MissesOf | services/db-collector/internal/app/lifecycle.go:325-342 | where one is, it exits before its health is read and calls, all in time, are a reload that applies and leaves it not running |
| Reloading.AddingCannotFail | services/db-collector/internal/app/lifecycle.go:149-160 | what a plan adds is free, so its first phase has nothing to wait for |
| Reloading.RollbackOf | internal/config/manager.go:286-343 | where a phase has something to wait for, there are calls of the plan that fail in that phase and are undone without an error, and the service's reload may end so |
| Executions.RollbackPlays | internal/config/manager.go:286-343 | the calls of a plan up to a phase, of which one gives up waiting in that phase, and of their undoing in reverse, leave every touched registration running its configuration and every other slot as it was |
| Reloading.EveryRun | internal/config/manager.go:129-161 | over every sequence of reloads with a shutdown at any point: until it, while the snapshot does not say diverged everything it wants runs if and only if the last applied reload missed nothing, and nothing else does if and only if no rollback since then revived a stale registration; after it nothing runs |
| Reloading.EveryRunExactly | internal/config/manager.go:129-161 | exactly what such a snapshot wants runs if and only if both are so |
| Executions.ForwardPlays | internal/config/manager.go:286-307 | the calls of a plan, all in time, phase by phase, leave exactly the target running but for what it leaves alone and does not run |
| ReloadExamples.AppliedLeavesStale | services/db-collector/internal/app/lifecycle.go:357-372 | lifecycle calls, with how their waits end, after which both a drain and a stop succeed and an exited collector stays registered |
| ReloadExamples.RollbackRestartsStale | services/db-collector/internal/app/lifecycle.go:325-342 | from there, lifecycle calls of a removal that gives up and whose undoing has no error and starts that collector again |
| ReloadExamples.UndivergedWithMore | internal/config/manager.go:129-161 | a run of the service that ends with a snapshot that wants one collector and does not say diverged, while two run; its slots are those of the calls above |
| ReloadExamples.StoppingStays | services/db-collector/internal/app/lifecycle.go:354-372 | lifecycle calls of a reload that is rolled back with an error and leaves a collector registered as stopping, which may exit |
| ReloadExamples.UndivergedWithLess | services/db-collector/internal/app/app.go:588-607 | a run of the service that ends with a snapshot that wants two collectors and does not say diverged, while one runs |
| Supervisor.OneActiveRun | services/db-collector/internal/app/lifecycle.go:152-246 | in every state of every run each ID has at most one active poller run, that of its registered entry |
| Supervisor.PhaseTellsSupervision | services/db-collector/internal/app/lifecycle.go:265-342 | a running or backing-off phase means nobody told the supervisor to end; one told to end shows restarting, stopping, draining or, finished, failed |
| Supervisor.RecordsRespectPhase | services/db-collector/internal/app/lifecycle.go:265-305 | a supervisor's records never overwrite restarting, stopping or draining |
| Supervisor.CancelledForGood | services/db-collector/internal/app/lifecycle.go:307-322 | no cycle of a cancelled run is stored, nothing is uncancelled, and who has finished stays so |
| Supervisor.QuietAfterShutdown | services/db-collector/internal/app/lifecycle.go:433-456 | after a shutdown returned nil, at no later step is a run active or a supervisor left that could start one |
| Supervisor.InvKept | services/db-collector/internal/app/lifecycle.go:152-246 | every step of every call and supervisor keeps the invariant |
| Refinement.SupervisorDrifts | services/db-collector/internal/app/lifecycle.go:224-342 | whatever a supervisor does, a reload sees as drift of its slots: live stays live, cancelled exits to free or stays registered |
| Refinement.StretchDrifts | services/db-collector/internal/app/lifecycle.go:224-342 | over any stretch of a run in which no other call touches an ID, its slot drifts and its entry is not replaced |
| Refinement.CancelSlots | services/db-collector/internal/app/lifecycle.go:174-178 | cancelling what is registered under an ID changes that slot to stuck and no other |
| Refinement.UpdateInTime | services/db-collector/internal/app/lifecycle.go:168-194 | an update from its first step to its last does to the slot what the reload counts on: the new collector is live |
| Refinement.UpdateLate | services/db-collector/internal/app/lifecycle.go:168-186 | an update that gives up leaves the old entry cancelled and registered, or exited |
| Refinement.StopDone | services/db-collector/internal/app/lifecycle.go:357-372 | a stop that waited to the end leaves the slot free, unless the poller had exited before: then it stays registered |
| Refinement.StopLate | services/db-collector/internal/app/lifecycle.go:357-372 | a stop that gives up leaves the entry stopping, or as it drifts from there |
| CallRuns.CallPerforms | services/db-collector/internal/app/lifecycle.go:152-372 | on every run of the machine a start, update, drain or stop, with anything of other IDs and of every supervisor in between, keeps the lifecycle's contract on its ID; what is done fails none |
| CallRuns.CallsLead | internal/config/manager.go:319-343 | so do the calls on one ID, one after the other |
| ServiceRuns.PlanRead | services/db-collector/internal/app/app.go:588-607 | a plan made on a run of the machine, its health checks at any times, is one of those of `PlanReload`, and what it missed is not registered at the end |
| ServiceRuns.ReloadIsStep | services/db-collector/internal/app/app.go:553-560 | a whole reload on a run of the machine, its calls on different IDs and every supervisor interleaved in any way, is a reload of the service |
| ServiceRuns.EveryServiceRun | internal/config/manager.go:129-161 | over every run of the machine with any reloads, drifts and shutdowns, `EveryRun` holds after each of them |
| Supervisor.Delay | services/db-collector/internal/app/lifecycle.go:59-66 | the restart delay doubles with every crash up to the longest |
| ApplyFile.Applier.Write | apps/api/internal/inventory/apply.go:92-103 | every change of a row is one audit record that shows the row as it was and as it is |
| ApplyFile.Applier.ApplyApplications | apps/api/internal/inventory/apply.go:195-263 | listed applications hold the file's fields, unlisted config-managed ones are disabled; settled rows are left alone |
| ApplyFile.Applier.ApplySources | apps/api/internal/inventory/apply.go:339-440 | each listed source holds the file's fields and no other application claims its name; unlisted ones are disabled |
| ApplyFile.PlacedKept | apps/api/internal/inventory/apply.go:373-390 | settling one source leaves the others settled, their claims included |
| ApplyFile.Applier.ApplyTargets | apps/api/internal/inventory/apply.go:447-571 | listed targets hold the file's fields, unlisted ones are disabled, and an assignment still applied has its target's old connection |
| ApplyFile.Applier.ApplyAssignments | apps/api/internal/inventory/apply.go:576-693 | listed assignments hold the file's policy and are approved or applied, unlisted ones are disabled |
| ApplyFile.PhasesSettle | apps/api/internal/inventory/apply.go:120-139 | what each phase settles, the later ones leave settled |
| Inventory.OwnedRespects | apps/api/internal/inventory/apply.go:110-116 | a chain of the file's own changes leaves API-managed rows and other environments' as they were, and no row's manager changes |
| InventoryService.Store.ApplyFile | apps/api/internal/inventory/apply.go:50-78 | success settles the rows, replaying its audit records over the rows before gives the rows after with one record for each change; refused, nothing changes; it is refused exactly when something of the rows blocks it (what the API manages, a claimed application name, another engine, a database held by a target not settled by then, a definition missing or disabled) or it makes a change and the collectors would refuse the render |
| InventoryService.Store.ApplyTwice | apps/api/internal/inventory/apply.go:50-78 | applying the same file again makes no change |
| ApplyFile.Applier.Apply | apps/api/internal/inventory/apply.go:120-139 | the phases succeed exactly on rows that block nothing of the file |
| ApplyFile.StoppedAt | apps/api/internal/inventory/apply.go:473-521 | in the middle of settling the targets in the file's order, the next one is stopped exactly by what the rows of the start say of it and of the targets not settled yet |
| ApplyFile.NoneRefusedAfter | apps/api/internal/inventory/apply.go:361-390 | once the unlisted sources are disabled, a listed one is refused exactly when the API managed its row or another application's claim before |
| ApplyFile.SettledUnblocked | apps/api/internal/inventory/apply.go:120-139 | nothing blocks a file whose rows are settled |
| InventoryService.WantsSettled | apps/api/internal/inventory/apply.go:120-139 | the phases' goals together are what the file says of every row |
| InventoryService.SameComponent | apps/api/internal/inventory/file.go:363-381 | a parsed file names each application and component once |
| Approvals.RunsAsRendered | apps/api/internal/inventory/applied.go:101-117 | the collector runs an assignment exactly when the first target at its place has its probe |
| ApprovalLaws.ApprovalCoversWhatRuns | apps/api/internal/inventory/targets.go:393-412 | an approved assignment of an API-managed target has the definition version and policy, and its target the connection, of its latest approval |
| ApprovalLaws.AssignmentsManagedAsTargets | apps/api/internal/inventory/assignments.go:233-237 | in every reachable state an assignment is managed as its target is |
| ApprovalLaws.MarkedIsCurrent | apps/api/internal/inventory/applied.go:42-97 | for an API-managed target, whenever the applied check marks, the answer matched what assignment, definition and target say at the mark, whatever ran since the list |
| ApprovalLaws.MarkedExactly | apps/api/internal/inventory/applied.go:42-97 | at a mark, every answer that led to it matches what is current if and only if the target is where it was when listed |
| ApprovalLaws.MovedByFile | apps/api/internal/inventory/apply.go:557-571 | a file that moves the target leaves an approved assignment as it is: the check marks it on an answer that runs it at the old place and nowhere else |
| ApprovalLaws.MovedInARun | apps/api/internal/inventory/apply.go:522-571 | a run in which that happens |
| ApprovalLaws.RenderNeverClashes | apps/api/internal/inventory/assignments.go:371-381 | in every reachable state no target is rendered with two intervals or one probe twice, and no probe may outlast its interval |
| ApprovalSteps.ProbesFiled | apps/api/internal/inventory/assignments.go:522-546 | a file applied to a target keeps its probes distinct |
| ApprovalSteps.IntervalsFiled | apps/api/internal/inventory/file.go:441-478 | a file applied to a target leaves its enabled approved assignments at one interval |
| ApprovalSteps.VersionsKept | apps/api/internal/probedefs/probedefs.go:270-322 | every version of a definition overrides the same probe |
| ApprovalLaws.Render | apps/api/internal/inventory/render.go:95-141 | refused exactly when a target has two intervals; else one collector for each target, at its interval, with all of its probes in order |
| ApprovalSteps.InvKept | apps/api/internal/inventory/assignments.go:214-403 | every change through the API, file or check keeps the approval machine's invariant |

## Left out

- Invalid UTF-8 and byte offsets: positions are counted in characters, and a query is text that decoded.
- The wording of refusals and errors, and which of several problems a message names first.
- Character classes beyond ASCII are a parameter; case folding beyond ASCII is that of the parameter.
- gzip, protobuf encoding beyond sizes, HTTP, JSON and YAML decoding, JSON Schema and the collector's own loader as checks of a render; the verdict of those checks is an input of `InventoryService.Store.ApplyFile`.
- Password hashing, token and ID generation: hashes, keys and IDs are fresh values.
- Real time: deadlines and timers end when they may, and the failure window of the login limits does not end.
- The API's clock is not ahead of Redis's: a session's creation and a touch carry times that Redis's clock has reached.
- Limits.CountCovers: speaks of the address counter; a success deletes the account's counter, so that one is not tied to the attempts in flight, and whether it refuses an attempt is an input.
- Delivery.Client.Send: does not model a context without an end that retries for ever; the script of attempts is finite, and its end is the context's.
- In-place update: the concurrent protocols (sessions, limits, users, supervisor, approvals, outbox, log queue) are state machines on values, so sharing of the source's objects is not captured there; the reload, the inventory applier and the exporter are classes.
- The pollers' base context ends only with a shutdown: the service hands the lifecycle a context that the process's own end does not cancel (`services/db-collector/internal/app/app.go:260`).
- A shutdown that comes while a reload is under way says only that nothing is live when the reload ends, and not what the reload answers.
- SessionLaws.EndedSessionsStayEnded: a session's creation is carried out at most once. The Redis client sends a command again when its answer is lost; a creation carried out a second time after the deletions of a change would open the returned session again.
- InventoryService.Store.ApplyFile: runs alone. The transaction locks the rows that it reads; a row the API inserts meanwhile, such as a telemetry source that claims a name after the sources were locked, is not covered.
- Sorting of diffs and of listed rows: the results hold for any order.
- Of several rows with one telemetry source's name the last is matched, as the source does; which row that is follows from the order of IDs, in place of the query's.
- ApplyFile.Applier.SettleTarget: the unique index on server, port and database compares database names as they are, without folding case.
- Environment, application and component changes through the API, target labels and field validators: they would only add easy members.
- Metrics, logging, tracing, HTTP handlers, link rendering, URL redaction, migrations and commands.
