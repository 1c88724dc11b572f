// What each actor must do, state by state, with the record it leaves written out: when a
// turn, a decision or a rotation changes a task, and into what.
module FarmOutcomes {
  import opened Prelude
  import opened FarmTypes
  import opened FarmMoves
  import opened FarmMachine
  import opened FarmInvariants
  import opened FarmReconciler

  // The proposal that turns t into this record.
  function Change(t: Task, state: TaskState, lease: Option<Lease>, meta: Meta, kind: Kind, dispatch: Option<Duty>): Proposal {
    Proposal(Some(t), Task(t.id, state, lease, meta), kind, dispatch)
  }

  // The workers issued to t in this epoch, and one more.
  function Issuing(t: Task, epoch: Epoch, w: WorkerId): Option<Dispatches> {
    match t.meta.dispatches
    case None => Some(Dispatches(epoch, [w]))
    case Some(d) => if d.epoch == epoch then Some(Dispatches(epoch, d.workers + [w])) else Some(Dispatches(epoch, [w]))
  }

  // ---------------------------------------------------------------- a task to start

  // A first start, a rework, or a surrendered task whose wait is over and which is not held
  // at its restart limit.
  predicate Startable(t: Task, turn: Turn) {
    || t.state == READY
    || (t.state == SUBMITTED && t.meta.reworkRequested)
    || (t.state == WAITING && t.lease.None? && (t.meta.restartLimitReached ==> t.meta.resumeRequested)
        && t.meta.surrender.Some? && (turn.unblocked || t.meta.waitingOn == Some(RotationWait(t.meta.surrender.value.id))))
  }

  // It runs under a new worker and lease; whatever asked for the start is answered, and a
  // rework or a ruling restores the restart budget.
  lemma StartTurn(t: Task, turn: Turn, o: Option<Obs>, base: nat, epoch: Epoch, limit: nat)
    requires Good(t, limit) && Startable(t, turn) && turn.usable
    ensures var m := t.meta.(runtimeError := None, checkpoint := None, rotation := None, resumeRequested := false,
                             reworkRequested := false, restartLimitReached := false, dispatches := Issuing(t, epoch, base + 1),
                             automaticRestarts := if t.state == SUBMITTED || t.meta.restartLimitReached then 0
                                                  else t.meta.automaticRestarts);
            Due(t, turn, o, base, false, epoch, limit) ==
              Some(Change(t, RUNNING, Some(Lease(base + 1, base + 2)), m, if t.state == SUBMITTED then ReworkStarted else WorkerLaunched,
                          Some(Duty(t.id, base + 1, base + 2))))
  {
    var issued := Issuing(t, epoch, base + 1);
    assert t.meta.dispatches.None? || t.meta.dispatches.value.epoch != epoch ==> [] + [base + 1] == [base + 1];
  }

  // ---------------------------------------------------------------- a task that runs

  // The receipt answers for this very worker, task and lease.
  predicate Echoes(t: Task, r: Receipt)
    requires t.lease.Some?
  {
    r.worker == t.lease.value.worker && r.lease == t.lease.value.id && r.task == t.id
  }

  // Nothing has been reported: no receipt, one for another ownership, or a mere heartbeat.
  predicate Silent(t: Task, o: Obs)
    requires t.lease.Some?
  {
    o.receipt.None? || !Echoes(t, o.receipt.value) || o.receipt.value.status == Heartbeat
  }

  // The executor has answered about the holder of a running task.
  predicate Answered(t: Task, o: Obs, limit: nat) {
    Good(t, limit) && t.state == RUNNING && o.worker == t.lease.value.worker
  }

  // A final receipt is applied whether or not the worker is still alive, aged or withheld:
  // the task is SUBMITTED or FAILED, leaseless and without its rotation.
  lemma FinalReceiptTurn(t: Task, turn: Turn, o: Obs, base: nat, withheld: bool, epoch: Epoch, limit: nat)
    requires Answered(t, o, limit) && o.receipt.Some? && Echoes(t, o.receipt.value)
    requires o.receipt.value.status in {SubmittedReceipt, FailedReceipt}
    ensures Due(t, turn, Some(o), base, withheld, epoch, limit) ==
              Some(Change(t, if o.receipt.value.status == SubmittedReceipt then SUBMITTED else FAILED, None,
                          t.meta.(runtimeError := None, rotation := None), ReceiptApplied, None))
  {
  }

  // The wait a receipt names, or implies.
  function NamedWait(r: Receipt): Wait {
    match r.waitingOn
    case Some(w) => w
    case None => match r.rotation case Some(id) => RotationWait(id) case None => Unspecified
  }

  // A wait is applied under the same lease, unless it answers another rotation or brings an
  // unusable checkpoint; then nothing is changed.
  lemma AwaitingReceiptTurn(t: Task, turn: Turn, o: Obs, base: nat, withheld: bool, epoch: Epoch, limit: nat)
    requires Answered(t, o, limit) && o.receipt.Some? && Echoes(t, o.receipt.value) && o.receipt.value.status == AwaitingReceipt
    ensures var r := o.receipt.value;
            var usable := (r.rotation.Some? ==> t.meta.rotation.Some? && t.meta.rotation.value.id == r.rotation.value)
                          && (r.checkpoint.Some? ==> !r.checkpoint.value.blank);
            var file := if r.checkpoint.None? then None else Some(Checkpoint(r.checkpoint.value, r.worker, r.lease, r.rotation));
            Due(t, turn, Some(o), base, withheld, epoch, limit) ==
              if usable then
                Some(Change(t, WAITING, t.lease, t.meta.(runtimeError := None, waitingOn := Some(NamedWait(r)), checkpoint := file),
                            ReceiptApplied, None))
              else None
  {
  }

  // With nothing reported a live worker's error is cleared, and an unknown one left alone.
  lemma SilentTurn(t: Task, turn: Turn, o: Obs, base: nat, withheld: bool, epoch: Epoch, limit: nat)
    requires Answered(t, o, limit) && Silent(t, o) && o.alive != Dead
    ensures Due(t, turn, Some(o), base, withheld, epoch, limit) ==
              if o.alive == Alive && t.meta.runtimeError.Some? then
                Some(Change(t, RUNNING, t.lease, t.meta.(runtimeError := None), ExecutorVerified, None))
              else None
  {
  }

  // A dead one past its grace window is replaced while restarts are left and the workspace
  // is usable, paused for a ruling once none are; but not over an unresolved error, an open
  // rotation or while dispatch is withheld.
  lemma DeadTurn(t: Task, turn: Turn, o: Obs, base: nat, withheld: bool, epoch: Epoch, limit: nat)
    requires Answered(t, o, limit) && Silent(t, o) && o.alive == Dead
    ensures Due(t, turn, Some(o), base, withheld, epoch, limit) ==
              if t.meta.runtimeError.Some? || t.meta.rotation.Some? || !turn.aged || withheld then None
              else if t.meta.automaticRestarts == limit then
                Some(Change(t, WAITING, t.lease, t.meta.(waitingOn := Some(RestartLimitRuling), restartLimitReached := true),
                            RestartLimitReached, None))
              else if turn.usable then
                Some(Change(t, RUNNING, Some(Lease(base + 1, base + 2)),
                            t.meta.(checkpoint := None, dispatches := Issuing(t, epoch, base + 1),
                                    automaticRestarts := t.meta.automaticRestarts + 1),
                            WorkerAdopted, Some(Duty(t.id, base + 1, base + 2))))
              else None
  {
    assert t.meta.dispatches.None? || t.meta.dispatches.value.epoch != epoch ==> [] + [base + 1] == [base + 1];
  }

  // ---------------------------------------------------------------- a task that waits

  // The checkpoint a rotation was given, or the one the holder itself left for it.
  predicate SurrendersOn(t: Task, file: Evidence)
    requires t.meta.rotation.Some?
  {
    var q := t.meta.rotation.value;
    || q.checkpoint == Some(file)
    || (q.checkpoint.None? && t.meta.checkpoint.Some? && t.meta.checkpoint.value.file == file
        && t.lease == Some(Lease(t.meta.checkpoint.value.worker, t.meta.checkpoint.value.lease))
        && (q.requestedState == WAITING || t.meta.checkpoint.value.rotation == Some(q.id)))
  }

  // A rotated task gives up its lease once its holder is dead and left a checkpoint, withheld
  // dispatch or not, and in no other case.
  lemma RetireTurn(t: Task, turn: Turn, o: Obs, base: nat, withheld: bool, epoch: Epoch, limit: nat, file: Evidence)
    requires Good(t, limit) && t.state == WAITING && t.lease.Some? && t.meta.rotation.Some? && o.worker == t.lease.value.worker
    requires SurrendersOn(t, file)
    ensures var record := Surrender(t.meta.rotation.value.id, t.lease.value.worker, t.lease.value.id, file, t.meta.waitingOn);
            Due(t, turn, Some(o), base, withheld, epoch, limit) ==
              if o.alive == Dead then
                Some(Change(t, WAITING, None, t.meta.(surrender := Some(record), rotation := None, runtimeError := None),
                            WorkerSurrendered, None))
              else None
  {
  }

  lemma NoRetireTurn(t: Task, turn: Turn, o: Obs, base: nat, withheld: bool, epoch: Epoch, limit: nat)
    requires Good(t, limit) && t.state == WAITING && t.lease.Some? && t.meta.rotation.Some?
    requires forall file :: !SurrendersOn(t, file)
    ensures Due(t, turn, Some(o), base, withheld, epoch, limit) == None
  {
    if RetiringFile(t).Some? {
      assert SurrendersOn(t, RetiringFile(t).value);
    }
  }

  // A holder whose wait is over, or whose limit has been ruled on, is woken once it is
  // dead, under the same lease.
  lemma ResumeTurn(t: Task, turn: Turn, o: Obs, base: nat, withheld: bool, epoch: Epoch, limit: nat)
    requires Good(t, limit) && t.state == WAITING && t.lease.Some? && t.meta.rotation.None? && o.worker == t.lease.value.worker
    ensures Due(t, turn, Some(o), base, withheld, epoch, limit) ==
              if withheld || !turn.usable || !turn.unblocked || o.alive != Dead
                 || (t.meta.restartLimitReached && !t.meta.resumeRequested) then None
              else
                Some(Change(t, RUNNING, t.lease,
                            t.meta.(resumeRequested := false, runtimeError := None, checkpoint := None, restartLimitReached := false,
                                    automaticRestarts := if t.meta.restartLimitReached then 0 else t.meta.automaticRestarts),
                            Resumed, Some(Duty(t.id, t.lease.value.worker, t.lease.value.id))))
  {
  }

  // A task that is neither running nor leased, and not startable, is left alone; so is every
  // start while dispatch is withheld or the workspace unusable.
  lemma IdleTurn(t: Task, turn: Turn, o: Option<Obs>, base: nat, withheld: bool, epoch: Epoch, limit: nat)
    requires Good(t, limit) && t.lease.None? && (!Startable(t, turn) || withheld || !turn.usable)
    ensures Due(t, turn, o, base, withheld, epoch, limit) == None
  {
  }

  // A wait without a holder stands on its surrender: without one, with a blank checkpoint or
  // with another wait than the one surrendered, nothing starts it and no ruling is recorded.
  lemma NoCleanSurrender(t: Task, turn: Turn, o: Option<Obs>, base: nat, withheld: bool, epoch: Epoch, limit: nat)
    requires t.state == WAITING && t.lease.None?
    requires match t.meta.surrender case None => true case Some(s) => s.file.blank || s.waitingOn != t.meta.waitingOn
    ensures Due(t, turn, o, base, withheld, epoch, limit) == None && ProposeRuling(t) == None
  {
  }

  // ---------------------------------------------------------------- decisions

  // A submission may be accepted, or sent back once; a decision on it is final.
  lemma SubmissionDecisions(t: Task, receipt: Evidence, limit: nat)
    requires Good(t, limit)
    ensures ProposeAccept(t, receipt) ==
              if t.state == SUBMITTED && !t.meta.reworkRequested
              then Some(Change(t, DONE, None, t.meta.(acceptance := Some(receipt)), Accepted, None)) else None
    ensures ProposeRework(t) ==
              if t.state == SUBMITTED && !t.meta.reworkRequested
              then Some(Change(t, SUBMITTED, None, t.meta.(reworkRequested := true), ReworkRequested, None)) else None
  {
  }

  // A ruling releases a recovery hold, or is recorded once on a waiting task.
  lemma RulingDecision(t: Task, limit: nat)
    requires Good(t, limit)
    ensures ProposeRuling(t) ==
              if t.state == BLOCKED then
                Some(Change(t, READY, None, t.meta.(recoveryHold := None, automaticRestarts := 0, restartLimitReached := false),
                            RecoveryReleased, None))
              else if t.state == WAITING && !t.meta.resumeRequested then
                Some(Change(t, WAITING, t.lease, t.meta.(resumeRequested := true), RulingRecorded, None))
              else None
  {
  }

  // A contract is amended on any task that is neither running nor finished.
  lemma AmendDecision(t: Task, contract: nat)
    ensures ProposeAmend(t, contract) ==
              if t.state == RUNNING || t.state == DONE || t.state == FAILED then None
              else Some(Change(t, t.state, t.lease, t.meta.(contract := contract), ContractAmended, None))
  {
  }

  // A rotation is opened on a leased task that has none and has not been surrendered under
  // this id; the same request may later bring the checkpoint of a waiting task.
  lemma RotationRequest(t: Task, id: HandoffId, file: Option<Evidence>, limit: nat)
    requires Good(t, limit) && t.lease.Some? && (t.meta.surrender.Some? ==> t.meta.surrender.value.id != id)
    requires file.Some? ==> t.state == WAITING && !file.value.blank
    ensures t.meta.rotation.None? ==>
              ProposeRotation(t, id, file) ==
                Some(Change(t, t.state, t.lease,
                            t.meta.(rotation := Some(Rotation(id, t.lease.value.worker, t.lease.value.id, t.state, file))),
                            RotationRequested, None))
    ensures t.meta.rotation.Some? ==>
              var q := t.meta.rotation.value;
              ProposeRotation(t, id, file) ==
                if q.id == id && file.Some? && q.checkpoint != file then
                  Some(Change(t, t.state, t.lease, t.meta.(rotation := Some(Rotation(id, q.worker, q.lease, q.requestedState, file))),
                              RotationRequested, None))
                else None
  {
  }

  lemma NoRotation(t: Task, id: HandoffId, file: Option<Evidence>, limit: nat)
    requires Good(t, limit)
    requires || t.lease.None? || (t.meta.surrender.Some? && t.meta.surrender.value.id == id)
             || (file.Some? && (t.state != WAITING || file.value.blank))
    ensures ProposeRotation(t, id, file).None?
  {
  }

  // An error is recorded once, on whatever state the task is in.
  lemma ErrorRecorded(t: Task, error: nat)
    ensures ProposeError(t, error) ==
              if t.meta.runtimeError == Some(error) then None
              else Some(Change(t, t.state, t.lease, t.meta.(runtimeError := Some(error)), ExecutorError, None))
  {
  }

  // A new task has nothing but its workspace and contract.
  lemma NewTaskIsBare(id: TaskId, workspace: Option<nat>, contract: nat)
    ensures var t := NewTask(id, workspace, contract);
            && t.id == id && t.state == READY && t.lease.None? && t.meta.workspace == workspace && t.meta.contract == contract
            && t.meta.waitingOn.None? && t.meta.dispatches.None? && t.meta.rotation.None? && t.meta.checkpoint.None?
            && t.meta.surrender.None? && t.meta.acceptance.None? && t.meta.runtimeError.None? && t.meta.recoveryHold.None?
            && !t.meta.resumeRequested && !t.meta.reworkRequested && !t.meta.restartLimitReached && t.meta.automaticRestarts == 0
  {
  }

  // What a recovery's hold changes of a leased task, and nothing else.
  lemma HeldRecord(t: Task, rid: nat)
    ensures Held(t, rid) == Task(t.id, BLOCKED, None,
              t.meta.(recoveryHold := Some(rid), runtimeError := None, resumeRequested := false, rotation := None,
                      revision := t.meta.revision + 1))
  {
  }

  // ---------------------------------------------------------------- submission

  // A running task whose worker reports its work is SUBMITTED at the next turn, whatever the
  // process does, and accepting it then makes it DONE; sent back, it runs again under a new
  // worker and may be submitted again.
  lemma SubmissionCycle(t: Task, turn: Turn, o: Obs, receipt: Evidence, base: nat, epoch: Epoch, limit: nat)
    requires Answered(t, o, limit) && o.receipt.Some? && Echoes(t, o.receipt.value) && o.receipt.value.status == SubmittedReceipt
    requires turn.usable
    ensures var p := Due(t, turn, Some(o), base, true, epoch, limit);
            p.Some? &&
            var t1 := Transaction(p.value, 0).after;
            && t1.state == SUBMITTED && t1.lease.None? && Good(t1, limit)
            && (var a := ProposeAccept(t1, receipt);
                a.Some? && a.value.task.state == DONE && a.value.task.meta.acceptance == Some(receipt))
            && (var q := ProposeRework(t1);
                q.Some? &&
                var t2 := Transaction(q.value, 0).after;
                var s := Due(t2, turn, None, base + 3, false, epoch, limit);
                s.Some? &&
                var t3 := Transaction(s.value, 0).after;
                var again := Obs(base + 4, Dead, Some(Receipt(base + 4, t.id, base + 5, SubmittedReceipt, None, None, None)));
                && t3.state == RUNNING && t3.lease == Some(Lease(base + 4, base + 5)) && t3.meta.revision == t.meta.revision + 3
                && (var p' := Due(t3, turn, Some(again), base + 6, false, epoch, limit);
                    p'.Some? && p'.value.task.state == SUBMITTED))
  {
    FinalReceiptTurn(t, turn, o, base, true, epoch, limit);
    var t1 := Transaction(Due(t, turn, Some(o), base, true, epoch, limit).value, 0).after;
    SubmissionDecisions(t1, receipt, limit);
    var t2 := Transaction(ProposeRework(t1).value, 0).after;
    StartTurn(t2, turn, None, base + 3, epoch, limit);
    var t3 := Transaction(Due(t2, turn, None, base + 3, false, epoch, limit).value, 0).after;
    var again := Obs(base + 4, Dead, Some(Receipt(base + 4, t.id, base + 5, SubmittedReceipt, None, None, None)));
    FinalReceiptTurn(t3, turn, again, base + 6, false, epoch, limit);
  }

  // ---------------------------------------------------------------- a whole turn

  // The record with one revision more.
  function Revised(t: Task): Task {
    t.(meta := t.meta.(revision := t.meta.revision + 1))
  }

  // The drain under control c has still to ask the holder of t to rotate.
  predicate Unasked(t: Task, m: Manifest) {
    && m.control.Some? && m.control.value.phase == Draining && t.lease.Some? && t.meta.rotation.None?
    && (t.meta.surrender.None? || t.meta.surrender.value.id != m.control.value.id)
  }

  // What a turn comes to once the holder has been asked: the change that is due, saved as
  // one revision, or the record as it was.
  function Plainly(t: Task, turn: Turn, o: Option<Obs>, base: nat, m: Manifest, limit: nat): Task {
    match Due(t, turn, o, base + 1, Withholding(m), m.epoch, limit)
    case None => t
    case Some(p) => Task(p.task.id, p.task.state, p.task.lease, p.task.meta.(revision := t.meta.revision + 1))
  }

  // The record with error `e` noted on it, once.
  function WithError(t: Task, e: nat): Task {
    if t.meta.runtimeError == Some(e) then t else Revised(t.(meta := t.meta.(runtimeError := Some(e))))
  }

  function WithRequest(t: Task, id: HandoffId): Task
    requires t.lease.Some?
  {
    Revised(t.(meta := t.meta.(rotation := Some(Rotation(id, t.lease.value.worker, t.lease.value.id, t.state, None)))))
  }

  // A turn asks the holder first while the farm drains, then makes the change that is due,
  // and ends with the error if one was raised: before anything else was done, before the
  // change, or after it.
  lemma TurnInFull(t: Task, turn: Turn, o: Option<Obs>, base: nat, m: Manifest, limit: nat)
    requires Good(t, limit)
    ensures var asked := if Unasked(t, m) then WithRequest(t, m.control.value.id) else t;
            TurnResult(t, turn, o, base, m, m.epoch, limit) ==
              match turn.failure
              case AtOnce => WithError(t, turn.error)
              case BeforeCommit => WithError(asked, turn.error)
              case AfterCommit => WithError(Plainly(asked, turn, o, base, m, limit), turn.error)
              case Never => Plainly(asked, turn, o, base, m, limit)
  {
    AskedInFull(t, base, m, limit);
    var asked := if turn.failure == AtOnce then t else Asked(t, m, base);
    var done := if turn.failure in {AtOnce, BeforeCommit} then asked else Plainly(asked, turn, o, base, m, limit);
    PlainlyDue(asked, turn, o, base, m, limit);
    NotedInFull(done, turn.error, base + 4);
  }

  lemma NotedInFull(t: Task, e: nat, no: EventNo)
    ensures var p := ProposeError(t, e);
            WithError(t, e) == if p.Some? then Transaction(p.value, no).after else t
  {
  }

  lemma AskedInFull(t: Task, base: nat, m: Manifest, limit: nat)
    requires Good(t, limit)
    ensures Asked(t, m, base) == if Unasked(t, m) then WithRequest(t, m.control.value.id) else t
  {
  }

  lemma PlainlyDue(t: Task, turn: Turn, o: Option<Obs>, base: nat, m: Manifest, limit: nat)
    ensures var due := Due(t, turn, o, base + 1, Withholding(m), m.epoch, limit);
            Plainly(t, turn, o, base, m, limit) == if due.Some? then Transaction(due.value, base + 1).after else t
  {
    if Due(t, turn, o, base + 1, Withholding(m), m.epoch, limit).Some? {
      DispatchNeedsDeath(t, turn, o, base + 1, Withholding(m), m.epoch, limit);
    }
  }

  // ---------------------------------------------------------------- a whole pass

  // A turn in which nothing is raised, of a farm without a control or one that was claimed.
  predicate Undisrupted(turn: Turn, m: Manifest) {
    turn.failure == Never && (m.control.Some? ==> m.control.value.phase == Claimed)
  }

  // A pass that gave a startable task its turn has it running, under a worker that is alive
  // unless its dispatch was lost.
  lemma PassStarts(t: Task, now: Task, w: World, live: set<WorkerId>, turn: Turn, m: Manifest, limit: nat)
    requires Good(t, limit) && HadTurn(t, now, w, live, turn, m, limit)
    requires Undisrupted(turn, m) && Startable(t, turn) && turn.usable
    ensures now.state == RUNNING && now.lease.Some? && now.meta.revision == t.meta.revision + 1
    ensures turn.lost || now.lease.value.worker in live
  {
    var no: nat :| TurnMade(t, now, w, live, turn, no, m, limit);
    TurnInFull(t, turn, Heard(w, turn, t), no, m, limit);
    StartTurn(t, turn, Heard(w, turn, t), no + 1, m.epoch, limit);
  }

  // The holder of t reports under its lease that the work is done.
  predicate SaysSubmitted(t: Task, turn: Turn) {
    && t.state == RUNNING && t.lease.Some? && turn.says.receipt.Some?
    && turn.says.worker == t.lease.value.worker
    && turn.says.receipt.value.status == SubmittedReceipt
    && turn.says.receipt.value.worker == t.lease.value.worker
    && turn.says.receipt.value.lease == t.lease.value.id
    && turn.says.receipt.value.task == t.id
  }

  // One that gave a running task its turn has taken a submission its holder had made: the
  // task is SUBMITTED and its holder has no lease any more, alive or not.
  lemma PassSubmits(t: Task, now: Task, w: World, live: set<WorkerId>, turn: Turn, m: Manifest, limit: nat)
    requires Good(t, limit) && HadTurn(t, now, w, live, turn, m, limit) && Undisrupted(turn, m) && SaysSubmitted(t, turn)
    requires turn.says.worker in w.reported && turn.says.alive == (if turn.says.worker in w.live then Alive else Dead)
    ensures now == Task(t.id, SUBMITTED, None, t.meta.(runtimeError := None, rotation := None, revision := t.meta.revision + 1))
  {
    var no: nat :| TurnMade(t, now, w, live, turn, no, m, limit);
    TurnInFull(t, turn, Heard(w, turn, t), no, m, limit);
    FinalReceiptTurn(t, turn, turn.says, no + 1, false, m.epoch, limit);
  }

  // And one whose holder had died without a word, past its grace window and with restarts
  // left, runs under another worker.
  lemma PassReplaces(t: Task, now: Task, w: World, live: set<WorkerId>, turn: Turn, m: Manifest, limit: nat)
    requires Good(t, limit) && HadTurn(t, now, w, live, turn, m, limit) && Undisrupted(turn, m)
    requires t.state == RUNNING && t.meta.runtimeError.None? && t.meta.rotation.None? && t.meta.automaticRestarts < limit
    requires turn.says == Obs(t.lease.value.worker, Dead, None) && turn.says.worker !in w.live && turn.aged && turn.usable
    ensures now.state == RUNNING && now.lease.Some? && now.meta.automaticRestarts == t.meta.automaticRestarts + 1
    ensures turn.lost || now.lease.value.worker in live
  {
    var no: nat :| TurnMade(t, now, w, live, turn, no, m, limit);
    TurnInFull(t, turn, Heard(w, turn, t), no, m, limit);
    DeadTurn(t, turn, turn.says, no + 1, false, m.epoch, limit);
  }
}
