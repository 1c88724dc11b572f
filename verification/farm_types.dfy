// The records the farm protocol keeps: tasks, audit events, the redo journal,
// the deployment manifest and the offline-recovery marker.
//
// UUIDs, host names, build digests and evidence files are opaque numbers: only
// equality and freshness of them matter to the protocol.
module FarmTypes {
  import opened Prelude

  type TaskId = nat
  type WorkerId = nat
  type LeaseId = nat
  type EventNo = nat

  datatype TaskState = READY | RUNNING | WAITING | SUBMITTED | DONE | BLOCKED | FAILED

  datatype Lease = Lease(worker: WorkerId, id: LeaseId)

  // The execution epoch of a manifest: "initial", a recovery id, or the id of the
  // node handoff that was claimed. The three name spaces are taken as disjoint.
  datatype Epoch = Initial | Recovered(rid: nat) | HandedOver(request: nat)

  // What a task says it is waiting for.
  datatype Wait = RotationWait(rotation: HandoffId) | RestartLimitRuling | Condition(name: nat) | Unspecified

  // A text file captured by snapshot_file. `blank` records whether its text is empty
  // once stripped, which is what a clean surrender tests.
  datatype Evidence = Evidence(content: nat, blank: bool)

  datatype Checkpoint = Checkpoint(file: Evidence, worker: WorkerId, lease: LeaseId, rotation: Option<HandoffId>)

  datatype Rotation = Rotation(id: HandoffId, worker: WorkerId, lease: LeaseId, requestedState: TaskState,
                               checkpoint: Option<Evidence>)

  datatype Surrender = Surrender(id: HandoffId, worker: WorkerId, lease: LeaseId, file: Evidence, waitingOn: Option<Wait>)

  // The workers issued to a task in one execution epoch.
  datatype Dispatches = Dispatches(epoch: Epoch, workers: seq<WorkerId>)

  datatype Meta = Meta(
    revision: nat,
    workspace: Option<nat>,
    waitingOn: Option<Wait>,
    resumeRequested: bool,
    reworkRequested: bool,
    restartLimitReached: bool,
    automaticRestarts: nat,
    rotation: Option<Rotation>,
    checkpoint: Option<Checkpoint>,
    surrender: Option<Surrender>,
    dispatches: Option<Dispatches>,
    runtimeError: Option<nat>,
    recoveryHold: Option<nat>,
    acceptance: Option<Evidence>,
    contract: nat)

  datatype Task = Task(id: TaskId, state: TaskState, lease: Option<Lease>, meta: Meta)

  type Tasks = map<TaskId, Task>

  // ---------------------------------------------------------------- audit log

  datatype Kind =
    | TaskCreated | WorkerLaunched | ReworkStarted | WorkerAdopted | WorkerRelaunched
    | RestartLimitReached | ReceiptApplied | Resumed | WorkerSurrendered
    | ExecutorError | ExecutorVerified | RotationRequested
    | Accepted | ContractAmended | RecoveryReleased | RulingRecorded | ReworkRequested
    | RecoveryHeld(recovery: nat)
    | FarmDrained | FarmReleased | FarmClaimed | FarmStopDrain | FarmStopCleared
    | FarmRecovered

  // A commit event has a fresh UUID; a deployment event is named after its handoff;
  // the recovery event is named after its recovery.
  datatype EventId = CommitEvent(no: EventNo) | DeployEvent(handoff: HandoffId, kind: Kind) | RecoveryEvent(rid: nat)

  // `task` is None for the farm-wide events ("*").
  datatype Event = Event(id: EventId, task: Option<TaskId>, kind: Kind, revision: nat)

  type Log = seq<Event>

  // The single pending transaction of the task store.
  datatype Txn = Txn(before: Option<Task>, after: Task, event: Event)

  // --------------------------------------------------------------- deployment

  datatype Identity = Identity(host: nat, build: nat)

  datatype HandoffId = Request(n: nat) | StopAt(ts: nat)

  datatype Phase = Draining | Released | Claimed

  // `seal` stands for the digest of the release archive: digests are injective, so
  // the digest is modelled by the archived task map itself.
  datatype Control = Control(id: HandoffId, phase: Phase, target: Option<nat>, seal: Option<Tasks>)

  // `identity` is None on a farm that never ran a daemon.
  datatype Manifest = Manifest(identity: Option<Identity>, epoch: Epoch, control: Option<Control>, pending: Option<Event>)

  // The offline-recovery marker: the reviewed plan and the prepared outcome.
  datatype Recovery = Recovery(id: nat, plan: Tasks, changes: Tasks, before: Manifest, after: Manifest)

  // Everything on shared storage.
  datatype Disk = Disk(tasks: Tasks, log: Log, torn: bool, journal: Option<Txn>, manifest: Manifest,
                       marker: Option<Recovery>, archives: map<HandoffId, Tasks>)

  // ------------------------------------------------------------ predicates

  const RESERVED := {READY, RUNNING, WAITING, SUBMITTED}

  // WAITING without a lease is legitimate only with a certified clean surrender.
  predicate CleanSurrender(t: Task) {
    && t.state == WAITING
    && t.lease.None?
    && t.meta.surrender.Some?
    && !t.meta.surrender.value.file.blank
    && t.meta.surrender.value.waitingOn == t.meta.waitingOn
  }

  predicate Holds(t: Task, w: WorkerId) {
    t.lease.Some? && t.lease.value.worker == w
  }

  function Ids(log: Log): set<EventId> {
    set e <- log :: e.id
  }

  // The log once event e has been recorded, whether or not it already was.
  function With(log: Log, e: Option<Event>): Log {
    if e.Some? && e.value.id !in Ids(log) then log + [e.value] else log
  }

  function JournalEvent(d: Disk): Option<Event> {
    if d.journal.Some? then Some(d.journal.value.event) else None
  }

  // The task map and audit log a reader would see once the pending transaction and
  // the pending deployment event have been replayed.
  function Now(d: Disk): Tasks {
    if d.journal.Some? then d.tasks[d.journal.value.after.id := d.journal.value.after] else d.tasks
  }

  function Audit(d: Disk): Log {
    With(With(d.log, d.manifest.pending), JournalEvent(d))
  }
}
