// Which task update each actor proposes. A proposal names the snapshot it was
// computed from; the store compares that snapshot with the disk before it writes.
module FarmMoves {
  import opened Prelude
  import opened FarmTypes
  import opened Transitions

  datatype ReceiptStatus = Heartbeat | AwaitingReceipt | SubmittedReceipt | FailedReceipt

  // Written by the worker, so nothing in it is trusted.
  datatype Receipt = Receipt(worker: WorkerId, task: TaskId, lease: LeaseId, status: ReceiptStatus,
                             waitingOn: Option<Wait>, rotation: Option<HandoffId>, checkpoint: Option<Evidence>)

  datatype Liveness = Alive | Dead | Unknown

  datatype Obs = Obs(worker: WorkerId, alive: Liveness, receipt: Option<Receipt>)

  // The external effect a commit is followed by: start or wake `worker` for `task`.
  datatype Duty = Duty(task: TaskId, worker: WorkerId, lease: LeaseId)

  datatype Move =
    | Create(task: TaskId, workspace: Option<nat>, contract: nat)
    // the reconciler
    | Start(seen: Task, worker: WorkerId, lease: LeaseId)
    | Adopt(seen: Task, worker: WorkerId, lease: LeaseId)
    | PauseAtLimit(seen: Task)
    | ApplyReceipt(seen: Task)
    | Resume(seen: Task)
    | Retire(seen: Task)
    | RecordError(seen: Task, error: nat)
    | ClearError(seen: Task)
    // anyone holding the pinned CLI (the reconciler too, while draining)
    | Rotate(seen: Task, id: HandoffId, file: Option<Evidence>)
    // the master
    | Accept(seen: Task, receipt: Evidence)
    | Amend(seen: Task, contract: nat)
    | Rule(seen: Task)
    | Rework(seen: Task)

  predicate ByReconciler(m: Move) {
    m.Start? || m.Adopt? || m.PauseAtLimit? || m.ApplyReceipt? || m.Resume? || m.Retire? || m.RecordError? || m.ClearError?
  }

  // Fresh identifiers a move needs.
  function Minted(m: Move): set<nat> {
    if m.Start? || m.Adopt? then {m.worker, m.lease} else {}
  }

  datatype Proposal = Proposal(expected: Option<Task>, task: Task, kind: Kind, dispatch: Option<Duty>)

  const NOTHING: Option<Proposal> := None

  // ------------------------------------------------------------- reconciler

  // Metadata of a task that is about to be started under a new lease.
  function LaunchMeta(t: Task, worker: WorkerId, epoch: Epoch, adopting: bool): Meta {
    var m := t.meta;
    var issued := if m.dispatches.Some? && m.dispatches.value.epoch == epoch then m.dispatches.value.workers else [];
    var m := m.(runtimeError := None, checkpoint := None, dispatches := Some(Dispatches(epoch, issued + [worker])));
    var m := if CleanSurrender(t) then m.(rotation := None, resumeRequested := false) else m;
    var m := if CleanSurrender(t) && t.meta.restartLimitReached && t.meta.resumeRequested
             then m.(restartLimitReached := false, automaticRestarts := 0) else m;
    var m := if adopting then m.(automaticRestarts := t.meta.automaticRestarts + 1) else m;
    if t.meta.reworkRequested then m.(reworkRequested := false, automaticRestarts := 0) else m
  }

  // Lease acquisition and the step to RUNNING are one persisted mutation.
  function Launched(base: Task, meta: Meta, lease: Lease): Option<Task> {
    var leased := AcquireLease(base, lease, meta);
    if !leased.Ok? then None
    else if base.state in {READY, SUBMITTED, WAITING} then
      var r := TransitionTask(leased.value, RUNNING, Some(lease.id), false, meta, Some(lease));
      if r.Ok? then Some(r.value) else None
    else Some(leased.value)
  }

  // The reconcile pass starts a task without adopting: first start, rework,
  // a leaseless RUNNING repair, or a cleanly surrendered wait.
  predicate MayStart(t: Task) {
    || t.state == READY
    || (t.state == SUBMITTED && t.meta.reworkRequested)
    || (t.state == RUNNING && t.lease.None?)
    || (CleanSurrender(t) && !(t.meta.restartLimitReached && !t.meta.resumeRequested))
  }

  function ProposeStart(t: Task, w: WorkerId, l: LeaseId, epoch: Epoch): Option<Proposal> {
    if !MayStart(t) then NOTHING else
    var after := Launched(t, LaunchMeta(t, w, epoch, false), Lease(w, l));
    if after.None? then NOTHING else
    var kind := if t.state == SUBMITTED then ReworkStarted else if t.state == RUNNING then WorkerRelaunched else WorkerLaunched;
    Some(Proposal(Some(t), after.value, kind, Some(Duty(t.id, w, l))))
  }

  // A receipt counts only when it echoes the authoritative lease.
  function Fenced(t: Task, o: Obs): Option<Receipt>
    requires t.lease.Some?
  {
    if o.receipt.Some? && o.receipt.value.lease == t.lease.value.id && o.receipt.value.worker == t.lease.value.worker
       && o.receipt.value.task == t.id
    then o.receipt else None
  }

  // RUNNING, positively dead, nothing reported, no unresolved error, no rotation.
  predicate MayAdopt(t: Task, o: Option<Obs>) {
    && t.state == RUNNING && t.lease.Some?
    && o.Some? && o.value.worker == t.lease.value.worker && o.value.alive == Dead
    && (Fenced(t, o.value).None? || Fenced(t, o.value).value.status == Heartbeat)
    && t.meta.runtimeError.None? && t.meta.rotation.None?
  }

  function ProposeAdopt(t: Task, w: WorkerId, l: LeaseId, epoch: Epoch, o: Option<Obs>, limit: nat): Option<Proposal> {
    if !MayAdopt(t, o) || t.meta.automaticRestarts >= limit then NOTHING else
    var base := RotateLease(t, t.lease.value.worker);
    if !base.Ok? then NOTHING else
    var after := Launched(base.value, LaunchMeta(t, w, epoch, true), Lease(w, l));
    if after.None? then NOTHING else
    Some(Proposal(Some(t), after.value, WorkerAdopted, Some(Duty(t.id, w, l))))
  }

  function ProposePause(t: Task, o: Option<Obs>, limit: nat): Option<Proposal> {
    if !MayAdopt(t, o) || t.meta.automaticRestarts < limit then NOTHING else
    var r := TransitionTask(t, WAITING, LeaseIdOf(t), false,
                            t.meta.(waitingOn := Some(RestartLimitRuling), restartLimitReached := true), t.lease);
    if r.Ok? then Some(Proposal(Some(t), r.value, RestartLimitReached, None)) else NOTHING
  }

  function ReceiptTarget(s: ReceiptStatus): TaskState
    requires s != Heartbeat
  {
    match s
    case AwaitingReceipt => WAITING
    case SubmittedReceipt => SUBMITTED
    case FailedReceipt => FAILED
  }

  function WaitOf(r: Receipt): Wait {
    if r.waitingOn.Some? then r.waitingOn.value
    else if r.rotation.Some? then RotationWait(r.rotation.value)
    else Unspecified
  }

  function ReceiptMeta(t: Task, r: Receipt): Meta
    requires t.lease.Some? && r.status != Heartbeat
  {
    if r.status == AwaitingReceipt then
      t.meta.(runtimeError := None, waitingOn := Some(WaitOf(r)),
              checkpoint := if r.checkpoint.Some? then Some(Checkpoint(r.checkpoint.value, r.worker, r.lease, r.rotation)) else None)
    else t.meta.(runtimeError := None, rotation := None)
  }

  function ProposeReceipt(t: Task, o: Option<Obs>): Option<Proposal> {
    if t.state != RUNNING || t.lease.None? || o.None? || o.value.worker != t.lease.value.worker then NOTHING else
    var fenced := Fenced(t, o.value);
    if fenced.None? || fenced.value.status == Heartbeat then NOTHING else
    var r := fenced.value;
    // an AWAITING receipt that answers another rotation, or whose checkpoint is unusable, is ignored
    if r.status == AwaitingReceipt && r.rotation.Some? && (t.meta.rotation.None? || t.meta.rotation.value.id != r.rotation.value)
    then NOTHING
    else if r.status == AwaitingReceipt && r.checkpoint.Some? && r.checkpoint.value.blank then NOTHING
    else
      var target := ReceiptTarget(r.status);
      var res := TransitionTask(t, target, LeaseIdOf(t), false, ReceiptMeta(t, r), if target == WAITING then t.lease else None);
      if res.Ok? then Some(Proposal(Some(t), res.value, ReceiptApplied, None)) else NOTHING
  }

  function ProposeResume(t: Task, o: Option<Obs>): Option<Proposal> {
    if t.state != WAITING || t.lease.None? || t.meta.rotation.Some? then NOTHING
    else if t.meta.restartLimitReached && !t.meta.resumeRequested then NOTHING
    else if o.None? || o.value.worker != t.lease.value.worker || o.value.alive != Dead then NOTHING
    else
      var m := t.meta.(resumeRequested := false, runtimeError := None, checkpoint := None);
      var m := if t.meta.restartLimitReached then m.(restartLimitReached := false, automaticRestarts := 0) else m;
      var r := TransitionTask(t, RUNNING, LeaseIdOf(t), false, m, t.lease);
      if r.Ok? then Some(Proposal(Some(t), r.value, Resumed, Some(Duty(t.id, t.lease.value.worker, t.lease.value.id)))) else NOTHING
  }

  // The checkpoint a rotation may retire the holder on.
  function RetiringFile(t: Task): Option<Evidence>
    requires t.lease.Some? && t.meta.rotation.Some?
  {
    var req, c := t.meta.rotation.value, t.meta.checkpoint;
    if req.checkpoint.Some? then req.checkpoint
    else if c.Some? && c.value.worker == t.lease.value.worker && c.value.lease == t.lease.value.id
            && (req.requestedState == WAITING || c.value.rotation == Some(req.id))
    then Some(c.value.file)
    else None
  }

  function ProposeRetire(t: Task, o: Option<Obs>): Option<Proposal> {
    if t.state != WAITING || t.lease.None? || t.meta.rotation.None? then NOTHING else
    var req, lease := t.meta.rotation.value, t.lease.value;
    if req.worker != lease.worker || req.lease != lease.id then NOTHING
    else if RetiringFile(t).None? then NOTHING
    else if o.None? || o.value.worker != lease.worker || o.value.alive != Dead then NOTHING
    else
      var retired := RotateLease(t, lease.worker);
      if !retired.Ok? then NOTHING else
      var record := Surrender(req.id, lease.worker, lease.id, RetiringFile(t).value, t.meta.waitingOn);
      var after := retired.value.(meta := t.meta.(surrender := Some(record), rotation := None, runtimeError := None));
      Some(Proposal(Some(t), after, WorkerSurrendered, None))
  }

  function ProposeError(t: Task, error: nat): Option<Proposal> {
    if t.meta.runtimeError == Some(error) then NOTHING
    else Some(Proposal(Some(t), t.(meta := t.meta.(runtimeError := Some(error))), ExecutorError, None))
  }

  function ProposeClear(t: Task, o: Option<Obs>): Option<Proposal> {
    if t.state == RUNNING && t.lease.Some? && t.meta.runtimeError.Some?
       && o.Some? && o.value.worker == t.lease.value.worker && o.value.alive == Alive
       && (Fenced(t, o.value).None? || Fenced(t, o.value).value.status == Heartbeat)
    then Some(Proposal(Some(t), t.(meta := t.meta.(runtimeError := None)), ExecutorVerified, None))
    else NOTHING
  }

  // ---------------------------------------------------------------- rotation

  function ProposeRotation(t: Task, id: HandoffId, file: Option<Evidence>): Option<Proposal> {
    var previous := t.meta.rotation;
    if t.meta.surrender.Some? && t.meta.surrender.value.id == id then NOTHING
    else if t.state !in {RUNNING, WAITING} || t.lease.None? then NOTHING
    else if previous.Some? && previous.value.id != id then NOTHING
    else if file.Some? && (t.state != WAITING || file.value.blank) then NOTHING
    else if previous.Some? && (file.None? || previous.value.checkpoint == file) then NOTHING
    else
      var record := if previous.Some? then previous.value
                    else Rotation(id, t.lease.value.worker, t.lease.value.id, t.state, None);
      var record := if file.Some? then record.(checkpoint := file) else record;
      Some(Proposal(Some(t), t.(meta := t.meta.(rotation := Some(record))), RotationRequested, None))
  }

  // ------------------------------------------------------------------ master

  function ProposeAccept(t: Task, receipt: Evidence): Option<Proposal> {
    if t.state != SUBMITTED || t.meta.reworkRequested then NOTHING else
    var r := TransitionTask(t, DONE, None, true, t.meta.(acceptance := Some(receipt)), None);
    if r.Ok? then Some(Proposal(Some(t), r.value, Accepted, None)) else NOTHING
  }

  function ProposeAmend(t: Task, contract: nat): Option<Proposal> {
    if t.state in {READY, WAITING, SUBMITTED, BLOCKED}
    then Some(Proposal(Some(t), t.(meta := t.meta.(contract := contract)), ContractAmended, None))
    else NOTHING
  }

  function ProposeRuling(t: Task): Option<Proposal> {
    if t.state == BLOCKED && t.meta.recoveryHold.Some? then
      if t.lease.Some? then NOTHING else
      var r := TransitionTask(t, READY, None, false,
                              t.meta.(recoveryHold := None, resumeRequested := false, automaticRestarts := 0,
                                      restartLimitReached := false), t.lease);
      if r.Ok? then Some(Proposal(Some(t), r.value, RecoveryReleased, None)) else NOTHING
    else if t.state != WAITING || (t.lease.None? && !CleanSurrender(t)) || t.meta.resumeRequested then NOTHING
    else Some(Proposal(Some(t), t.(meta := t.meta.(resumeRequested := true)), RulingRecorded, None))
  }

  function ProposeRework(t: Task): Option<Proposal> {
    if t.state != SUBMITTED || t.meta.reworkRequested then NOTHING
    else Some(Proposal(Some(t), t.(meta := t.meta.(reworkRequested := true)), ReworkRequested, None))
  }

  function NewTask(id: TaskId, workspace: Option<nat>, contract: nat): Task {
    Task(id, READY, None, Meta(0, workspace, None, false, false, false, 0, None, None, None, None, None, None, None, contract))
  }

  // `epoch` and `obs` are those of the reconciler that proposes; `limit` is max_auto_restarts.
  function Propose(m: Move, epoch: Epoch, obs: Option<Obs>, limit: nat): Option<Proposal> {
    match m
    case Create(id, ws, c) => Some(Proposal(None, NewTask(id, ws, c), TaskCreated, None))
    case Start(t, w, l) => ProposeStart(t, w, l, epoch)
    case Adopt(t, w, l) => ProposeAdopt(t, w, l, epoch, obs, limit)
    case PauseAtLimit(t) => ProposePause(t, obs, limit)
    case ApplyReceipt(t) => ProposeReceipt(t, obs)
    case Resume(t) => ProposeResume(t, obs)
    case Retire(t) => ProposeRetire(t, obs)
    case RecordError(t, e) => ProposeError(t, e)
    case ClearError(t) => ProposeClear(t, obs)
    case Rotate(t, id, f) => ProposeRotation(t, id, f)
    case Accept(t, r) => ProposeAccept(t, r)
    case Amend(t, c) => ProposeAmend(t, c)
    case Rule(t) => ProposeRuling(t)
    case Rework(t) => ProposeRework(t)
  }

  // The BLOCKED form offline recovery gives a leased task.
  function Held(t: Task, rid: nat): Task {
    t.(state := BLOCKED, lease := None,
       meta := t.meta.(recoveryHold := Some(rid), runtimeError := None, resumeRequested := false, rotation := None,
                       revision := t.meta.revision + 1))
  }
}
