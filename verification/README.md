# Verification of the agent farm

A Dafny model of the durable task farm and its worker-side tools, with proofs about whole
runs: any sequence of steps, with a crash possible between any two writes.

The project has seven parts.

* **Farm protocol** (`farm_*.dfy`, `transitions.dfy`). Task files, an append-only audit log,
  a one-slot redo journal, a deployment manifest with its own embedded redo record, and an
  offline-recovery marker, changed by a reconciler, a master, workers' receipts, node
  handoff, stop and recovery. `farm_machine.dfy` is the state machine (one action is one
  write, observation, external effect or failure); `farm_invariants.dfy` the invariants;
  `farm_*_proofs.dfy` their preservation; `farm_theorems.dfy` and `farm_history.dfy` the
  theorems about runs; `farm_admission.dfy` what the farm must let through in every run;
  `farm_cycles.dfy` what moves of several actors achieve together, and `farm_outcomes.dfy`
  what each turn and decision must do, with the records written out. `farm_code.dfy` and
  `farm_reconciler.dfy` are the program: classes whose methods write one file at a time and
  may die at any write. Their `Valid()` says that everything an object has done is a run of
  the machine, so the theorems hold of it.
* **Durability** (`durable_store.dfy`, `durable_manifest.dfy`). The commit journal and the
  manifest's redo record when a power loss may also take back writes that were never synced.
* **Health check** (`doctor.dfy`). The one-pass loop against the invariant it decides.
* **Executor** (`executor.dfy`, `executor_code.dfy`, `executor_contract.dfy`). Attempt ids,
  dispatch guard, pidfile and receipts under delayed, lost and repeated sends; and the proof
  that they deliver what the farm protocol assumes, so the two compose.
* **Runner** (`classify.dfy`, `attempt_ledger.dfy`, `ledger_files.dfy`, `runner.dfy`). The
  attempt ledger and its files, submit intents, retry budgets, releases, dependencies and
  termination of a tick.
* **Publishing and reading** (`publish_dir.dfy`, `event_pages.dfy`, `watch.dfy`). The
  directory swap, event paging, the tail read and the watcher.
* **Access generations** (`access.dfy`). Immutable records and the compare-and-swap pointer.

Some statements do not hold as one might expect, and are settled exactly.

* `TaskStore._recover_locked` replays a visible journal without making it durable first. A
  process crash (or failed sync) between the journal's rename and its directory sync, then
  the replay, then a power loss before the audit record is durable leaves a task revision
  without its event. `DurableStore.ReplaySafeIffAnchored` gives the exact condition,
  `UnanchoredReplayLosesAnEvent` the run; process crashes alone (`AuditIsComplete`) and power
  losses alone (`PowerLossAloneIsSafe`) are harmless.
* `finish_deployment_event` replays the manifest's redo record in the same way. The same three
  failures leave a deployment event without its control, and the retry is then refused for a
  spent id; `DurableManifest.FinishSafeIffAnchored` gives the exact condition.
* `events_tail` reports a blank line as a malformed event while `events_after` skips it: the
  two agree if and only if none of the last n lines is blank.
* `split_cursor` and `parse_ruling` undo their counterparts under the stated conditions only.

What the model takes for granted:

* Worker, lease, event, attempt and recovery ids are fresh when minted; `initial`, recovery
  ids and handoff ids do not collide; digests are injective, so a seal stands for the archived
  task map and a record digest for the record.
* A captured checkpoint has text left once stripped. `snapshot_file` tests bytes while
  `clean_surrender` tests stripped text, so a whitespace-only file would pass the first and
  fail the second (`FarmCycles.SurrenderIsCleanIffNotBlank`); the model refuses it on entry.
* Locks exclude each other, and one replace, append or unlink is one step.
* `max_auto_restarts` is fixed for the run. The grace window, the preflight and the wait
  observers may answer anything.
* A shell reads a script at once and runs in the PID namespace of the runtime that sent it;
  an invocation writes receipts only while it is alive, no two of them equal.
* The steps table is fixed, every step declares an output, and creation stamps increase, so
  attempts are listed in the order they were made (`LedgerFiles.NewIsLast`). `adopt` and
  `verify` are not run in between.

## Model

| member | source | states |
|---|---|---|
| `Transitions.TransitionTask` | src/agent_farm_runtime/transitions.py:41-84 | a step succeeds if and only if the graph allows it, the writer names the lease of a task under way, and DONE comes with an acceptance on record; it yields exactly the task with the new state, lease and metadata; each refusal has its own cause |
| `Transitions.PathToDone` | src/agent_farm_runtime/transitions.py:13-38 | along the graph DONE comes only straight after a submission and a submission only straight after a run; nothing follows DONE or FAILED; READY is re-entered only out of BLOCKED |
| `Transitions.EnteredFrom` | src/agent_farm_runtime/transitions.py:13-38 | who may enter each state: FAILED from everything unfinished, RUNNING from everything unfinished that does not run, BLOCKED from RUNNING or WAITING, WAITING and SUBMITTED from RUNNING, DONE from SUBMITTED, READY from BLOCKED, and nobody else |
| `Transitions.NothingIsStuck` | src/agent_farm_runtime/transitions.py:13-38 | from every state that is not final a way along the graph leads to DONE, and one step to FAILED |
| `Transitions.HandOver` | src/agent_farm_runtime/transitions.py:99-137 | a lease is granted only on a task without one and taken away only from its named holder; after both, the new holder alone owns the task and the old lease id can move it nowhere while it is under way |
| `FarmCycles.ReworkCycle` | src/agent_farm_runtime/master.py:67-78 | a submitted task sent back for rework can no longer be accepted; the next start gives a new worker under a new lease, a full restart budget and a cleared request, and forgets no issued worker |
| `FarmCycles.RulingCycle` | src/agent_farm_runtime/reconciler.py:138-150 | at its restart limit a task is paused instead of adopted and no observation wakes it; after a ruling a positively dead holder is resumed under the same lease with its budget restored |
| `FarmCycles.RotationCycle` | src/agent_farm_runtime/reconciler.py:258-284 | request, yield receipt, retirement and restart compose: no adoption meanwhile, retirement only on a positive death with the yielded checkpoint, and the rotation's own wait releases the next start |
| `FarmCycles.SurrenderIsCleanIffNotBlank` | src/agent_farm_runtime/turnover.py:65-75 | a retirement certifies a clean surrender if and only if the checkpoint's text is not blank; on a blank one nobody can start the task again |
| `FarmCycles.RecoveryCycle` | src/agent_farm_runtime/master.py:59-66 | a task held by offline recovery is started or resumed by nobody until a ruling; then it is READY, leaseless and starts with a fresh budget |
| `FarmCycles.DecisionsLeaveOwnership` | src/agent_farm_runtime/master.py:38-80 | no master decision takes a lease, issues a worker or dispatches; only accept records an acceptance, only amend changes the contract |
| `FarmTheorems.Always` | src/agent_farm_runtime/doctor.py:25-69 | every reachable farm, crashes between any two writes included, satisfies all invariants: states and leases agree, leases, workers and reserved workspaces are distinct, every live worker is accounted for, every event is recorded once |
| `FarmTheorems.LaunchIsSafe` | src/agent_farm_runtime/reconciler.py:131-187 | a worker is started or woken only when the task on disk already names its lease, it has no invocation running, and every worker ever dispatched for the task is dead, reported SUBMITTED or was attested stopped |
| `FarmTheorems.RestartBudget` | src/agent_farm_runtime/reconciler.py:138-165 | over any run a task's adoptions number at most the limit times one plus its ruling, rework and recovery-release decisions |
| `FarmTheorems.RunsOnlyAfterRuling` | src/agent_farm_runtime/reconciler.py:384-397 | a task paused at its restart limit runs again only after a ruling or recovery release has been recorded for it, whatever happens in between |
| `FarmTheorems.PausedUntilRuled` | src/agent_farm_runtime/reconciler.py:243-246 | from a paused task every run either leaves it paused or has recorded a ruling |
| `FarmTheorems.ReleaseCertificate` | src/agent_farm_runtime/turnover.py:169-206 | when release seals a farm no worker issued in its epoch is alive, none ever is again under that epoch, and no dispatch happens in it |
| `FarmTheorems.OldEpochNeverCommits` | src/agent_farm_runtime/turnover.py:40-62 | once an epoch has been left or its farm released, no writer bound to that epoch passes the writer check in any later state |
| `FarmTheorems.ClosedForever` | src/agent_farm_runtime/turnover.py:56-61 | a closed epoch stays closed, and dead workers of it stay dead, over every run |
| `FarmTheorems.HandoffFences` | src/agent_farm_runtime/turnover.py:40-62 | in every reachable farm a draining record withholds every dispatch, the one already owed included, and a released one every dispatch and commit; while a record stands nobody passes the check but the recorded host and build, and a dispatch not even of theirs while it drains |
| `FarmAdmission.WriterAdmitted` | src/agent_farm_runtime/turnover.py:40-62 | the writer check passes if and only if no recovery and no redo record is pending, the epoch is the current one where one is given, and: there is no control, or the writer is the recorded identity and the farm is claimed, or drains and the writer does not dispatch |
| `FarmAdmission.FreshIsAdmissible` | src/agent_farm_runtime/store.py:130-151 | a proposal made on the task as it is on disk is never refused as stale, illegal or for its workspace, unless it reserves a workspace that another unfinished task has |
| `FarmAdmission.FreshCommitEnabled` | src/agent_farm_runtime/store.py:109-160 | in every reachable farm with nothing pending, any actor's move proposed on the task as it is on disk can be committed whenever the phase admits it: always without a control, dispatches excepted while draining, nothing once released |
| `FarmAdmission.DrainRetires` | src/agent_farm_runtime/reconciler.py:258-284 | in every reachable draining farm the reconciler can commit the retirement of a positively dead holder that left a checkpoint, after which the task has no lease |
| `FarmAdmission.HandoffCompletes` | src/agent_farm_runtime/turnover.py:141-241 | from every reachable drained farm, whatever came before: its own host can archive and seal, the named target with the same build can claim and start a reconciler on the very tasks that were sealed in an epoch of its own, and can drain it again; the whole resulting state is written out |
| `FarmHistory.HandoffMovesOnce` | src/agent_farm_runtime/turnover.py:40-62 | over a whole run, write access under one handoff record moves at most once: in every continuation in which the record stands, whoever passes the writer check is the same host and build in the same phase, or the named target after the source once the farm is claimed |
| `FarmHistory.FencingLasts` | src/agent_farm_runtime/turnover.py:141-241 | a record that has been in force never falls back to an earlier phase nor changes its target, and its id stays spent |
| `FarmHistory.StatesFollowGraph` | src/agent_farm_runtime/transitions.py:13-38 | over any run, crashes and recovery holds included, the states a task goes through begin at READY and follow the graph |
| `FarmHistory.AcceptedAfterRun` | src/agent_farm_runtime/transitions.py:41-84 | a task that is DONE in any reachable farm has been RUNNING, then SUBMITTED, and only then accepted |
| `FarmHistory.FinalForever` | src/agent_farm_runtime/transitions.py:36-38 | DONE and FAILED are final over every run, and so is the evidence a task was accepted on |
| `FarmHistory.LeaseStays` | src/agent_farm_runtime/reconciler.py:117-119 | once minted a worker is given no other task and no other lease |
| `FarmTheorems.ClaimFindsSealedTasks` | src/agent_farm_runtime/turnover.py:209-241 | as long as the released control stands the task map is the sealed one, and the named host's claim is never refused for its tasks |
| `FarmTheorems.LoggedExactlyOnce` | src/agent_farm_runtime/turnover.py:106-132 | the event of every commit, drain, release, claim, stop and recovery is logged at most once ever, and exactly once whenever nothing is pending |
| `FarmTheorems.AuditIsComplete` | src/agent_farm_runtime/store.py:78-100 | with nothing pending each task's audit events carry revisions 1, 2, ... up to the stored revision, over every run with process crashes at any write |
| `FarmTheorems.RecoveryConverges` | src/agent_farm_runtime/recovery.py:101-158 | however often recovery is interrupted and retried it ends only in the one state its plan determines; that no ordinary commit is admitted meanwhile is the writer check read off |
| `FarmTheorems.RecoveryEndsWell` | src/agent_farm_runtime/recovery.py:101-158 | the final state: each leased task BLOCKED, leaseless, revision raised by one, one RECOVERY_HELD each; the others untouched; one FARM_RECOVERED; the prepared manifest in place |
| `FarmTheorems.PlanIsFixed` | src/agent_farm_runtime/recovery.py:170-186 | a pending recovery's plan is replaced by nothing but its own completion |
| `FarmTheorems.PlanNeverRefused` | src/agent_farm_runtime/recovery.py:35-58 | in a reachable farm without a pending transaction the plan is never refused for duplicate ownership or an unsupported state |
| `FarmLogical.NowStep` | src/agent_farm_runtime/store.py:78-100 | replaying a prepared transaction changes nothing in the logical task map; a commit or hold replaces exactly one task |
| `FarmLogical.AuditStep` | src/agent_farm_runtime/store.py:78-100 | every action appends to the logical audit log exactly what it emits; a stop control cleared at startup is the one that may precede the journal's event |
| `FarmControlProofs.HandoffKept` | src/agent_farm_runtime/turnover.py:106-241 | which deployment events a control has caused is decided by its phase, after every action |
| `FarmControlProofs.EpochKept` | src/agent_farm_runtime/turnover.py:36-37 | the current epoch is known, never reused, and a running reconciler is bound to it, after every action |
| `FarmWorkerProofs.WorkerKept` | src/agent_farm_runtime/reconciler.py:153-156 | every launched worker is in the dispatches of its task for its epoch, and a live one is the holder or excused, after every action |
| `FarmCode.Farm.RecoverLocked` | src/agent_farm_runtime/store.py:78-100 | finishing a transaction leaves the logical tasks and log as they were wherever it stops; done means nothing pending; a torn log means nothing was written |
| `FarmCode.Farm.CommitLocked` | src/agent_farm_runtime/store.py:130-160 | a commit has wholly happened or not at all wherever it stops; done means it was admissible and its task and event are on disk |
| `FarmCode.Farm.SaveTransaction` | src/agent_farm_runtime/store.py:152-160 | from the journal write on the commit has happened, wherever the process stops |
| `FarmCode.Farm.Commit` | src/agent_farm_runtime/store.py:109-128 | an author who fails the writer check or has nothing to propose changes nothing; an allowed commit is refused only for a damaged log or a stale or inadmissible snapshot, and takes at most seven writes; its task and its event are saved together or not at all; a completed one is followed by exactly the dispatch it owes, unless the executor lost it, of a worker that was quiet, and nothing is launched otherwise |
| `FarmCode.Farm.Discharge` | src/agent_farm_runtime/store.py:121-127 | the dispatch a commit owes is made at most once, only after a completed commit, and never replayed |
| `FarmCode.Farm.AppendLog` | src/agent_farm_runtime/events.py:18-24 | one event is appended whole, or a torn record marks the log damaged |
| `FarmCode.Farm.LogIds` | src/agent_farm_runtime/events.py:32-43 | the loop over the log returns exactly the ids of its records |
| `FarmCode.Farm.FinishDeploymentEvent` | src/agent_farm_runtime/turnover.py:106-123 | completing the manifest's redo record changes no logical state; it is completed only by the host and build it belongs to, and refused only to a foreign identity or for a torn log |
| `FarmCode.Farm.Publish` | src/agent_farm_runtime/turnover.py:126-132 | the manifest changes to the published one or not at all, with its event recorded once the call completes |
| `FarmCode.Farm.DrainFarm` | src/agent_farm_runtime/turnover.py:141-166 | a completed drain leaves the manifest as it was but for the new control, draining under the request towards the target, with its event logged; a repeated one leaves it alone; the tasks are untouched; it is refused only when a named precondition fails |
| `FarmCode.Farm.ReleaseFarm` | src/agent_farm_runtime/turnover.py:169-206 | a completed release leaves the manifest as it was but for the control, released and sealed with the tasks of the call, every worker of the epoch positively dead; it is refused only for an unsurrendered lease, an unproven death, a foreign control or a torn log, each written out |
| `FarmCode.Farm.ClaimFarm` | src/agent_farm_runtime/turnover.py:209-241 | a completed claim leaves exactly the claimant's identity, the handoff's epoch, never used before, and the sealed control as claimed, on the sealed tasks; the named host and build are refused only for a torn log or a second daemon |
| `FarmCode.Farm.StopDrain` | src/agent_farm_runtime/lifecycle.py:48-68 | a completed stop leaves the manifest as it was but for the stop control, logged, or what an earlier stop wrote; never over a pending node handoff; refused only when a named precondition fails |
| `FarmCode.Farm.ClearStopControl` | src/agent_farm_runtime/lifecycle.py:71-90 | a stop control is dropped with its cleared event logged, a node handoff is left alone |
| `FarmCode.Farm.Boot` | src/agent_farm_runtime/cli.py:339-380 | a reconciler starts only without recovery or redo record, on an unreleased farm, bound to the current epoch, and leaves the manifest as it was but for its identity, a finished redo record and a dropped stop control; it is refused only when one of the startup conditions fails |
| `FarmCode.Farm.RecoverFarm` | src/agent_farm_runtime/recovery.py:161-188 | applying a plan, or finishing a pending one, ends in the recovered state; a fresh one ends with the manifest of the plane that ran it, in the recovery's own epoch, without control or redo record, and a crash leaves a marker that this plane's retry finishes; it is not refused on an intact log; refusals and crashes leave an existing marker alone |
| `FarmCode.Farm.HoldOne` | src/agent_farm_runtime/recovery.py:139-145 | one task is put on hold by one commit, or already was, and no other task changes |
| `FarmCode.Farm.HoldAll` | src/agent_farm_runtime/recovery.py:139-145 | the loop leaves every planned hold on disk |
| `FarmCode.Farm.PollWorker` | src/agent_farm_runtime/adapters/base.py:23-37 | the answer is what the executor says whenever that is about this worker and true of it, and unknown otherwise |
| `FarmReconciler.DispatchNeedsDeath` | src/agent_farm_runtime/reconciler.py:230-256 | whatever a turn is due, it starts or wakes a worker for a leased task only on a positive death of its holder, and none while dispatch is withheld or at the restart limit without a ruling |
| `FarmReconciler.Reconciler.Supervise` | src/agent_farm_runtime/reconciler.py:353-382 | the turn of a RUNNING task carries out exactly what the executor's answer calls for: the fenced receipt, else the cleared error of a live worker, else adoption or pause of a dead one past its grace, else nothing; made on the record on disk it is refused only for a damaged log, and it crashes only with the process (what each case leaves: FarmOutcomes) |
| `FarmReconciler.Reconciler.StartTask` | src/agent_farm_runtime/reconciler.py:131-187 | a start carries out the new lease and its dispatch as one change, and nothing when dispatch is withheld or the preflight failed; on the record on disk it is refused only for a damaged log |
| `FarmReconciler.Reconciler.TakeOver` | src/agent_farm_runtime/reconciler.py:131-187 | a dead holder's task is adopted below the restart limit, paused at it, and left alone when dispatch is withheld or the workspace unusable |
| `FarmReconciler.Reconciler.Await` | src/agent_farm_runtime/reconciler.py:384-397 | the turn of a WAITING task carries out exactly one of: retiring a rotated lease, restarting a clean surrender whose wait is over, resuming a dead holder whose wait is over, nothing |
| `FarmReconciler.Reconciler.Yield` | src/agent_farm_runtime/reconciler.py:337-341 | while draining, a leased task without a rotation is asked to rotate under the control's id, and the turn goes on with the record so saved; otherwise nothing happens; on the record on disk it is refused only for a damaged log |
| `FarmReconciler.Reconciler.ReconcileTask` | src/agent_farm_runtime/reconciler.py:320-397 | a completed turn, draining and raising ones included, leaves exactly the tasks AfterTurn names for what the executor has to say: the rotation request, then the one change due, then the error raised; a due dispatch is made unless lost; on the record on disk it is refused only for a damaged log; interrupted it has touched no other task, made at most three revisions of this one, and made no dispatch but the one due, of a worker that was quiet |
| `FarmReconciler.Reconciler.NoteError` | src/agent_farm_runtime/reconciler.py:322-334 | an error is recorded on the task as it is now unless it is the one already recorded, and nothing is started |
| `FarmReconciler.Reconciler.ReconcileOnce` | src/agent_farm_runtime/reconciler.py:312-335 | a completed pass has given every task its turn: each record is the one its turn leaves for what the executor had to say when the pass began, and each due dispatch was made unless lost; of a pass interrupted anywhere: at most one turn and one worker per task, none if its holder was alive, none at all while dispatch is withheld; it is refused only for a damaged log or a pending redo record |
| `FarmOutcomes.StartTurn` | src/agent_farm_runtime/reconciler.py:131-187 | a first start, a rework, or a surrendered task whose wait is over and which is not held at its limit must run under a new worker and lease; the record is written out: what asked for the start is answered, and a rework or a ruling restores the restart budget |
| `FarmOutcomes.FinalReceiptTurn` | src/agent_farm_runtime/reconciler.py:189-228 | a SUBMITTED receipt that names the holder's worker, task and lease makes a RUNNING task SUBMITTED and a FAILED one makes it FAILED, leaseless, the rotation and error cleared and the rest kept, alive or not and withheld or not |
| `FarmOutcomes.AwaitingReceiptTurn` | src/agent_farm_runtime/reconciler.py:189-228 | an AWAITING receipt makes it WAITING under the same lease on the wait it names or implies, with its checkpoint; one that answers another rotation or brings an unusable checkpoint changes nothing |
| `FarmOutcomes.SilentTurn` | src/agent_farm_runtime/reconciler.py:366-373 | without a report, an error is cleared exactly when the worker is alive, and an unknown one is left alone |
| `FarmOutcomes.DeadTurn` | src/agent_farm_runtime/reconciler.py:374-382 | a dead holder past its grace is replaced while restarts are left and the workspace is usable, paused for a ruling once none are, and left alone over an error, an open rotation or withheld dispatch, each record written out |
| `FarmOutcomes.RetireTurn` | src/agent_farm_runtime/reconciler.py:258-284 | a rotated WAITING task with a checkpoint given or left for the rotation surrenders its lease exactly when its holder is dead, withheld dispatch or not, with the surrender written out |
| `FarmOutcomes.NoRetireTurn` | src/agent_farm_runtime/reconciler.py:258-284 | without such a checkpoint it never does |
| `FarmOutcomes.ResumeTurn` | src/agent_farm_runtime/reconciler.py:230-256 | a WAITING holder is woken under its own lease exactly when it is dead, its wait is over, its limit, if reached, was ruled on, the workspace is usable and nothing is withheld; the record is written out |
| `FarmOutcomes.IdleTurn` | src/agent_farm_runtime/reconciler.py:342-397 | a leaseless task that is not startable, and every start that is withheld or whose workspace is unusable, is left alone |
| `FarmOutcomes.NoCleanSurrender` | src/agent_farm_runtime/turnover.py:65-75 | a leaseless wait without a surrender, with a blank checkpoint or with another wait than the one surrendered is neither started nor ruled on |
| `FarmOutcomes.TurnInFull` | src/agent_farm_runtime/reconciler.py:320-346 | what a whole turn leaves: the holder is asked first exactly while the farm drains and it was not, then the change that is due is saved as one revision, then the error raised is noted once; an error at once or before the commit skips what would have followed |
| `FarmOutcomes.PassStarts` | src/agent_farm_runtime/reconciler.py:312-349 | after a completed pass, undisturbed and not draining, a startable task runs under a worker that is alive unless its dispatch was lost |
| `FarmOutcomes.PassSubmits` | src/agent_farm_runtime/reconciler.py:312-365 | after such a pass a RUNNING task whose holder had reported its work under its lease is SUBMITTED, leaseless, and otherwise as it was |
| `FarmOutcomes.PassReplaces` | src/agent_farm_runtime/reconciler.py:312-382 | after such a pass one whose holder had died without a word, past its grace and with restarts left, runs under another worker, alive unless its dispatch was lost |
| `FarmOutcomes.SubmissionCycle` | src/agent_farm_runtime/reconciler.py:189-228 | a reported RUNNING task is SUBMITTED at the next turn even while draining; then it can be accepted, which makes it DONE on that evidence, or sent back, which starts it again under a new worker whose report makes it SUBMITTED again |
| `FarmOutcomes.SubmissionDecisions` | src/agent_farm_runtime/master.py:38-80 | acceptance and rework are possible exactly on a submission that was not sent back, with the records they leave written out |
| `FarmOutcomes.RulingDecision` | src/agent_farm_runtime/master.py:59-78 | a ruling releases a held task to READY with its budget restored, is recorded once on a waiting one, and is refused on any other |
| `FarmOutcomes.AmendDecision` | src/agent_farm_runtime/master.py:48-58 | a contract is amended exactly on a task that neither runs nor is finished, and nothing else changes |
| `FarmOutcomes.RotationRequest` | src/agent_farm_runtime/turnover.py:78-103 | a rotation is opened on a leased task without one, and the same request may bring or replace the checkpoint of a waiting one; any other changes nothing |
| `FarmOutcomes.NoRotation` | src/agent_farm_runtime/turnover.py:78-103 | none is opened without a lease, after a surrender under this id, or with a checkpoint that is blank or for a task that runs |
| `FarmOutcomes.HeldRecord` | src/agent_farm_runtime/recovery.py:73-99 | what a recovery's hold changes of a task, written out |
| `DurableStore.CrashAtomic` | src/agent_farm_runtime/store.py:78-160 | in any run whose replays start from a durable journal, with power losses resolving every unsynced file either way, the log records exactly the revisions the tasks have once the pending transaction is applied |
| `DurableStore.ReplaySafeIffAnchored` | src/agent_farm_runtime/store.py:78-100 | a replay survives a power loss after every step if and only if its journal was durable when it began |
| `DurableStore.UnanchoredReplayLosesAnEvent` | src/agent_farm_runtime/store.py:78-100 | the failing case exists: process crash between rename and directory sync of the journal, replay, power loss leave a task without its event |
| `DurableStore.PowerLossAloneIsSafe` | src/agent_farm_runtime/store.py:109-117 | losing all unsynced writes at any points is harmless when the process is never killed in between |
| `DurableStore.CommitCompletes` | src/agent_farm_runtime/store.py:130-160 | uninterrupted, every transaction that can be journalled is committed: task and event on disk, journal gone, all of it durable |
| `DurableStore.TornLogStops` | src/agent_farm_runtime/events.py:32-43 | with a torn log and a pending transaction no step changes anything but another power loss |
| `DurableStore.Kept` | src/agent_farm_runtime/store.py:78-160 | every write, sync, crash and power loss keeps the durability invariant |
| `DurableManifest.CrashAtomic` | src/agent_farm_runtime/turnover.py:106-132 | in any run whose finishes start from a durable manifest, or have nothing left to record, every manifest a power loss may bring back agrees with every log it may leave once the redo record is finished |
| `DurableManifest.FinishSafeIffAnchored` | src/agent_farm_runtime/turnover.py:106-123 | finishing a redo record survives a power loss after every step if and only if the manifest was durable when it began or its event had been recorded before |
| `DurableManifest.UnanchoredFinishLosesTheControl` | src/agent_farm_runtime/turnover.py:106-132 | the failing case exists: process crash between rename and directory sync of the manifest, retry, power loss leave the event without its control, and the control's id spent |
| `DurableManifest.PublishingCompletes` | src/agent_farm_runtime/turnover.py:106-132 | uninterrupted, every control that can be published is: its event logged once, no redo record left, all of it durable |
| `DurableManifest.Kept` | src/agent_farm_runtime/turnover.py:106-132 | every write, sync, crash and power loss keeps manifest and log in agreement |
| `Doctor.RunDoctor` | src/agent_farm_runtime/doctor.py:25-69 | the one-pass loop reports a failure exactly when the quantified invariant is violated; every violation of one task, every hold and error, and every lease, worker or workspace shared by two tasks is reported by name, and a shared workspace names two tasks that share it |
| `Doctor.ExamineAlone` | src/agent_farm_runtime/doctor.py:26-69 | the checks of one task fail exactly when that task alone is unhealthy; each check, failure or warning, is given exactly when due |
| `Doctor.ReachableIsSound` | src/agent_farm_runtime/doctor.py:25-69 | no reachable farm fails these checks with nothing pending and well-formed wait conditions |
| `Executor.AtMostOneInvocation` | src/agent_farm_runtime/adapters/codex.py:465-558 | with sends delayed, lost or repeated and crashes anywhere: an attempt starts at most once, at most one invocation runs, none is queued beside it, and all queued sends stand for one attempt |
| `Executor.DeadMeansNone` | src/agent_farm_runtime/procutil.py:21-64 | an observed death implies that nothing is running, queued or about to be queued |
| `Executor.DeadUntilPrepared` | src/agent_farm_runtime/adapters/codex.py:394-403 | a dead worker stays dead over every run until the next attempt is prepared |
| `Executor.ObservedExactly` | src/agent_farm_runtime/procutil.py:21-64 | a worker is called dead if and only if its host was booted again, or from the same host, boot and namespace its current attempt's recorded process is gone, a zombie or another one; alive if and only if it is shown there under its pid and start time; unknown otherwise |
| `Executor.ExitIsSeen` | src/agent_farm_runtime/procutil.py:21-64 | in every run, once the current attempt has recorded its process, whoever can read who it is from that place finds it dead as soon as its pid is gone, or is a zombie or another process's, and alive until then |
| `Executor.RebootIsSeen` | src/agent_farm_runtime/procutil.py:21-42 | in every run, after a power cycle of its host a worker prepared there reads as dead whatever its pidfile says |
| `Executor.ReceiptsAreFenced` | src/agent_farm_runtime/adapters/codex.py:288-297 | a receipt is surfaced exactly when the current attempt wrote it |
| `Executor.PreparingFencesTheReceipt` | src/agent_farm_runtime/adapters/codex.py:394-403 | an attempt is prepared only for a quiet worker and withdraws the receipt on disk |
| `Executor.NextAttempt` | src/agent_farm_runtime/adapters/codex.py:465-511 | a worker observed dead can be given another attempt by the same owner: looked at, its receipt kept to be fenced, the attempt saved under the runtime's own identity |
| `Executor.AttemptRuns` | src/agent_farm_runtime/adapters/codex.py:185-273 | a prepared attempt can be carried through: written, sent, delivered past its guard, started without the old receipt, recorded with pid and start time; and what was sent then starts nothing any more |
| `Executor.Kept` | src/agent_farm_runtime/adapters/codex.py:185-273 | every step of runtime, tmux, shell, invocation and host keeps the protocol invariant |
| `ExecutorContract.ContractHolds` | src/agent_farm_runtime/adapters/base.py:46-66 | in every joint run of farm and executors the farm's picture of liveness and receipts is right, and the farm's part is a run of the farm alone |
| `ExecutorContract.PollIsHonest` | src/agent_farm_runtime/adapters/codex.py:560-575 | whatever poll reports is an observation the farm protocol admits |
| `ExecutorContract.NoSecondInvocation` | src/agent_farm_runtime/adapters/codex.py:465-558 | when an executor commits itself to an invocation, no invocation of any worker dispatched for that task is running or queued unless it reported SUBMITTED or was attested stopped |
| `ExecutorContract.NeverMismatched` | src/agent_farm_runtime/adapters/codex.py:481-482 | whenever the farm asks for a dispatch the executor has recorded nothing for the worker or exactly the task and lease it is asked for, so the mismatch check never fires |
| `ExecutorContract.SealedMeansSilent` | src/agent_farm_runtime/turnover.py:183-206 | when a farm may be sealed the executors of all its epoch's workers are silent |
| `ExecutorCode.Worker.Poll` | src/agent_farm_runtime/adapters/codex.py:560-575 | dead and alive are answered exactly when the recorded process, identities and boots call for it, in both directions; dead means quiet, alive means busy, and a surfaced receipt is the current attempt's |
| `ExecutorCode.Worker.PrepareAttempt` | src/agent_farm_runtime/adapters/codex.py:394-403 | the attempt is persisted with the receipt to fence before anything is dispatched |
| `ExecutorCode.Worker.Launch` | src/agent_farm_runtime/adapters/codex.py:465-511 | answers already running exactly when its own worker is seen alive, unavailable exactly when it was issued for another task or lease or its identity is uncertain, neither changing anything; else one send, of a script that holds the new attempt, for a quiet worker |
| `ExecutorCode.Worker.Resume` | src/agent_farm_runtime/adapters/codex.py:513-558 | as launch, and refused without a prior identity |
| `PublishDir.Publisher.ReplaceDir` | src/farmkit/runner.py:178-213 | from every state interrupted calls leave, all intermediate states are again such states; a call that completes leaves the destination equal to the source, and no staging, marker or, unless something resisted removal, backup; a refusal leaves the destination untouched and means that something did resist |
| `PublishDir.Publisher.Stage` | src/farmkit/runner.py:199-204 | the staging copy is marked complete only when it holds every entry |
| `PublishDir.Publisher.MoveAway` | src/farmkit/runner.py:206-212 | what was published is moved aside, a directory to the backup, only with a complete new version staged |
| `PublishDir.Publisher.Install` | src/farmkit/runner.py:212-214 | the staged version becomes the destination; the marker goes, and so does the backup unless something resists its removal |
| `PublishDir.Publisher.RemoveFresh` | src/farmkit/runner.py:216-224 | at most six partial removals; gone means gone, and it is gone unless something resists |
| `PublishDir.AlwaysAVersion` | src/farmkit/runner.py:179-186 | an attempt may begin from any published version; in every state it leaves behind a complete previous or new version exists if one was published, and once its own version was in place that one stays complete |
| `EventPages.EventsAfter` | src/agent_farm_runtime/status.py:170-205 | a page is exactly the records between the cursor and the new cursor, ends on a line boundary, keeps its limit, and stops short only at the end of the complete lines |
| `EventPages.RecordsAreExact` | src/agent_farm_runtime/status.py:190-205 | the records of a stretch of log are exactly the complete lines that start in it and have something in them, each at its own offset and in the order of the log |
| `EventPages.PagingIsOneScan` | src/agent_farm_runtime/status.py:170-205 | following the cursor with any limits while the log grows collects each complete record once and in order, and all of them once a page stays below its limit |
| `EventPages.PagesProgress` | src/agent_farm_runtime/status.py:194-205 | a positive limit always moves past at least one record while there are any |
| `EventPages.EventsTail` | src/agent_farm_runtime/status.py:33-57 | the backwards chunked read returns the last n complete lines, and a cursor computed from the last newline of what was read that is the end of the complete lines of the whole log |
| `EventPages.ReadBack` | src/agent_farm_runtime/status.py:40-47 | the chunks read are a suffix of the log that is all of it or holds more than n newlines |
| `EventPages.CutAndSplit` | src/agent_farm_runtime/status.py:190-197 | cutting what was read at its last newline and splitting it gives exactly the complete lines of the log from there on |
| `EventPages.LinesAreTheLog` | src/agent_farm_runtime/status.py:190-197 | with their newlines back, the lines are the log up to its last newline, and none has one in it |
| `EventPages.TailIsLastRecords` | src/agent_farm_runtime/status.py:49-57 | the tail read equals the last n records of the scan if and only if none of the last n lines is blank; both end at the same cursor |
| `EventPages.BlankLineDiffers` | src/agent_farm_runtime/status.py:49-57 | a log with a blank last line on which the two reads differ |
| `Watch.Watcher.Watch` | src/farmkit/watch.py:132-163 | the hits returned are exactly the flagged events between the acknowledged and the returned cursor; events come before the until condition, that before the status, a daemon that is down before the parks, and what was acknowledged is not repeated; no look with news was passed over, giving up comes only at the last look, and a return without hits has left none unseen |
| `Watch.Watcher.Drain` | src/farmkit/watch.py:144-154 | pages without hits are passed over, none is stopped at, and the until condition ends the look at the first page it is met |
| `Watch.NewsIs` | src/farmkit/watch.py:154-160 | what a look at the status reports: never what was acknowledged; a daemon that is down or stalled alone, and otherwise every park |
| `Watch.Watcher.Ack` | src/farmkit/watch.py:45-47 | whatever returned cursor is acknowledged, every flagged event before it has been returned |
| `Watch.SplitUndoesJoin` | src/farmkit/watch.py:24-35 | split_cursor undoes join_cursor if and only if the cursor and every state id are nonempty and free of '+' |
| `Classify.ParseUndoesName` | src/farmkit/classify.py:56-80 | parse_ruling gives back the class exactly when the sanitized task id does not begin with owner, and only a code failure is ever master-resolvable |
| `Classify.SanitizedIsClean` | src/farmkit/classify.py:49-50 | a sanitized part is nonempty and uses only the allowed characters |
| `Classify.SanitizeKeepsAWord` | src/farmkit/classify.py:49-50 | a clean part stays as it is; what cannot stand in one is dropped at either end; where nothing is left the part is x |
| `Classify.SanitizeJoinsWords` | src/farmkit/classify.py:49-50 | between two clean parts any run of other characters becomes one dash |
| `Classify.RulingReads` | src/farmkit/classify.py:56-59 | the name of a park written out: task id or task, class, step, beginning of the attempt id |
| `Classify.RulingsDiffer` | src/farmkit/classify.py:56-59 | two parks of one step and class have the same name if and only if their attempt ids begin with the same eight characters |
| `Classify.MasterMayResolve` | src/farmkit/classify.py:62-80 | of all wait references whatsoever the master may resolve exactly those that name a code failure of this very task, and none of a task whose sanitized id begins with owner |
| `AttemptLedger.Latest` | src/farmkit/ledger.py:115-117 | the last record of the step, or none exists |
| `AttemptLedger.AttemptsBounded` | src/farmkit/runner.py:308-333 | the attempts of a step number at most one plus its retry limits summed over the classes plus its releases |
| `AttemptLedger.OneLiveAttempt` | src/farmkit/steps.py:229-241 | at most one attempt of a step can have anything running or queued, and it is the undecided last one |
| `AttemptLedger.UnknownBlocks` | src/farmkit/intent.py:43-64 | an attempt whose submission outcome is unknown keeps its step from being started again |
| `AttemptLedger.ReadyExactly` | src/farmkit/steps.py:226-271 | a step is ready if and only if it has no attempt or its last failure was retried or released, its plain dependencies and all members of its groups are verified, its chain predecessor is queued under a job id and not parked, and no cap is reached; so never when it is verified, pending or parked |
| `AttemptLedger.StaysLaunchable` | src/farmkit/steps.py:259-271 | launching other steps takes this back only through a concurrency cap or a chain predecessor that is itself due for another attempt |
| `AttemptLedger.UndecidedStands` | src/farmkit/ledger.py:119-143 | every undecided attempt waits for somebody: its submission is unknown, its job is with the scheduler, it has ended and is to be judged, or it is a local run or a rejection |
| `AttemptLedger.ChainsAreClosed` | src/farmkit/steps.py:145-174 | if any segment of a chain was attempted, all that its first segment waits for is verified |
| `AttemptLedger.AppendKeeps` | src/farmkit/runner.py:346-366 | a new attempt is sound only after a first, retried or released one, with its dependencies closed |
| `AttemptLedger.SetKeeps` | src/farmkit/ledger.py:71-78 | a write to an undecided attempt keeps the ledger sound, a retry only within its class budget |
| `AttemptLedger.ReleaseKeeps` | src/farmkit/ledger.py:153-167 | a release lifts a parked failure, is counted, and allows one more attempt |
| `Runner.Runner.Sbatch` | src/farmkit/intent.py:43-53 | sbatch is called only for a recorded intent and at most once per attempt |
| `Runner.Runner.Submit` | src/farmkit/intent.py:43-64 | one attempt is added, sbatch called for it once; the record is written out for each answer: queued under the job id, rejected and parked, or still an intent |
| `Runner.Runner.Reconcile` | src/farmkit/intent.py:67-85 | an unknown submission becomes submitted under the job id exactly when accounting shows one row and sbatch was called for it, unverified otherwise; nothing else changes |
| `Runner.Runner.ReconcileAll` | src/farmkit/intent.py:88-89 | every unknown submission is looked up with exactly that result, and nothing else changes |
| `Runner.Runner.Release` | src/farmkit/ledger.py:153-167 | succeeds exactly on a step whose last attempt awaits a ruling, changes only that record, makes another attempt due and counts one release |
| `Runner.Runner.JudgeEnd` | src/farmkit/classify.py:24-46 | an attempt passes exactly when it completed and verified; otherwise the class is the warranted one: node and boot failures infra, a timeout budget, other bad ends, a missing output and an unusable one code, a usable result that is wrong science |
| `Runner.Runner.Fail` | src/farmkit/runner.py:308-333 | the record is written out: retried exactly when the failures of the class so far are fewer than the table allows, by default one for infra and none else, parked otherwise; a new attempt is made exactly when retried |
| `Runner.Runner.Finalize` | src/farmkit/runner.py:296-333 | an ended attempt is judged: state, verdict, warranted class and retry or park as they must be; other attempts are untouched, a new one is made exactly when retried, and the recursion through launch ends by the remaining retry budget |
| `Runner.Runner.Launch` | src/farmkit/runner.py:346-366 | a launch adds attempts of its step only and changes no earlier one |
| `Runner.Runner.RunLocal` | src/farmkit/runner.py:481-499 | a local attempt is recorded, run, recorded again and judged by its exit and its outputs; its retries end by the remaining budget |
| `Runner.Runner.FinalizeLeftovers` | src/farmkit/runner.py:106-117 | every execution that ended before a crash is judged by how it ended, and no other attempt changes |
| `Runner.Runner.ObserveJobs` | src/farmkit/runner.py:118-134 | every in-flight attempt takes the state the scheduler answers for its job and is judged if that is terminal, and no other attempt changes |
| `Runner.Runner.NextReady` | src/farmkit/steps.py:259-271 | the first step in table order that must be launched and was not attempted yet, with the conditions written out, or there is none |
| `Runner.Runner.LaunchNext` | src/farmkit/runner.py:87-95 | a step that must be launched and was not attempted yet gets a new attempt, or there is none |
| `Runner.Runner.LaunchReady` | src/farmkit/runner.py:87-95 | a completed loop has attempted every step that must still be launched and every one that had to be at the start and stood, each with a new attempt; a step that was verified, pending or parked gets none; its bound of 2n+1 is never reached |
| `Runner.Runner.Tick` | src/farmkit/runner.py:80-104 | a completed tick has looked up every unknown submission, judged every ended attempt, taken the scheduler's answer for every job in flight and changed no other attempt there was; every step that must be launched has got a new attempt; and the report is the one that fits; interrupted anywhere it leaves a sound later ledger |
| `Runner.Runner.Decide` | src/farmkit/runner.py:527-543 | the report fits, written out: jobs in flight first, then the first unknown submission, then the first parked failure, then SUBMITTED exactly when the whole table is verified |
| `LedgerFiles.OneListing` | src/farmkit/ledger.py:88-99 | the files have one listing in creation order, so two readers agree |
| `LedgerFiles.NewIsLast` | src/farmkit/ledger.py:88-99 | a record stamped after all others is appended to the listing |
| `LedgerFiles.SavedInPlace` | src/farmkit/ledger.py:71-78 | saving a record again keeps its place in the listing |
| `LedgerFiles.LedgerStore.All` | src/farmkit/ledger.py:83-86 | cached or not, a query works on the listing of the files as they are |
| `LedgerFiles.LedgerStore.Save` | src/farmkit/ledger.py:71-78 | one file changes, and no stale listing survives |
| `LedgerFiles.LedgerStore.ReadAll` | src/farmkit/ledger.py:88-99 | every file once, ordered by stamp and id |
| `LedgerFiles.LedgerStore.LatestFile` | src/farmkit/ledger.py:112-117 | the record of the step that no other record of it comes after, or none exists |
| `Access.NeverReturns` | src/agent_farm_runtime/access/registry.py:199-210 | a pointer never comes back to a generation it has left |
| `Access.Registry.Prepare` | src/agent_farm_runtime/access/registry.py:183-197 | binding and record are written only where absent; nothing written before changes |
| `Access.Registry.Commit` | src/agent_farm_runtime/access/registry.py:199-210 | the pointer moves only from the record the generation names, extending the linear history by it, is refused exactly when something else is current, and the other role's pointer stays |
| `Access.Registry.Place` | src/agent_farm_runtime/access/__init__.py:236-262 | the one answer an offer gets: a conflict, exactly on a downgrade or an old-style record over generations; the identical retry, publishing nothing again; stale, exactly when something else is current; else published, unless the endpoint does not live through the call or the process dies |
| `Access.Registry.Publish` | src/agent_farm_runtime/access/__init__.py:178-262 | the one answer an offer gets, with its causes in order and both ways: not ready, conflicting, the identical retry, stale, published; a verified answer is the current record and was published once; the other role's pointer never moves, and nothing written before changes |

## Left out

- Durability beyond the store's journal and the manifest: marker and archives are modelled under process crashes only, and store and manifest each with the log alone.
- `TaskStore.put_authoritative`: an interface for callers outside the protocol.
- `stop --now`, `restart` and the source upgrade: signals and release tooling.
- Worker registry, heartbeats and report lists: observed state that no decision depends on, except the age gate, which may answer anything.
- The wording of evidence and contracts: kept as opaque values, with their identity.
- Transitions.TransitionTask: merging the metadata patch is the caller's; the function takes the merged metadata.
- FarmReconciler.Reconciler.ReconcileTask: what an observer or the executor raises is one error per turn, at its beginning, before its commit or after it.
- FarmCode.Farm.Boot: the daemon's argument checks and the allocation attestation are not modelled.
- FarmCode.Farm.ReleaseFarm: the archive is written before a torn log is noticed, as in the source; its checksum is the archived map itself.
- FarmLogical.AuditStep: a stop control cleared at startup is logged before a pending task event, so the logical order of these two may be swapped.
- Doctor.RunDoctor: the worker registry, manifest and access checks are not modelled; which wait conditions are malformed is a parameter.
- Executor.AtMostOneInvocation: a script rewritten while a shell is still reading it is not modelled, nor the session id files.
- PublishDir.Publisher.ReplaceDir: two attempts that publish the same name in turn are not modelled; leftovers belong to one attempt.
- EventPages.EventsAfter: a log file that does not exist reads as empty at any cursor in the source, and a negative cursor is refused; the model starts from an existing log.
- EventPages.EventsTail: for n = 0 the source returns all lines it read, and nothing is stated about that.
- Watch.Watcher.Watch: what each look at the status finds before the deadline is a parameter, its hits are opaque ids, and which events are flagged is a parameter too.
- FarmReconciler.Reconciler.ReconcileOnce: what the executor has to say about a holder is fixed for the pass; it is polled in the task's own turn.
- Runner.Runner.Tick: barriers, checkpoints, notes and the run directory's links are not modelled; the concurrency cap is evaluated but no cap invariant is claimed.
- Runner.Runner.Verify: verifier content is any outcome that passes only with all declared outputs present.
- Budget carried over by adoption between farms.
- Access.Registry.Publish: probes of allocation, control session and role are three yes-or-no answers; records of the old kind move their pointer without compare-and-swap, as in the source.
- PublishDir.AlwaysAVersion: says nothing of a power loss in the middle of a swap, as the source syncs nothing there.
- Liveness where the source deliberately waits for a person: a crash between prepare and send, or a local step killed while it runs.
