// The farm as a state machine. One action is one write (an atomic replace, an append,
// an unlink), one observation, one external effect, or a failure. A locked section of
// the program is several actions; whatever else can happen may happen between any two
// of them unless the mutation lock forbids it.
module FarmMachine {
  import opened Prelude
  import opened FarmTypes
  import opened Transitions
  import opened FarmMoves

  // The reconciler process: its identity, the epoch it was started in, its last
  // observation and, while it holds the mutation lock after a commit, the effect it owes.
  datatype Rec = Rec(me: Identity, epoch: Epoch, obs: Option<Obs>, duty: Option<Duty>)

  datatype Launch = Launch(task: TaskId, epoch: Epoch)

  // What no process can read: which workers have an invocation running or queued, which
  // were ever launched, which wrote a SUBMITTED receipt, which an operator attested
  // stopped, the identifiers minted so far and every epoch that was ever current.
  datatype World = World(live: set<WorkerId>, launched: map<WorkerId, Launch>, reported: set<WorkerId>,
                         attested: set<WorkerId>, minted: set<nat>, epochs: set<Epoch>)

  datatype State = State(disk: Disk, rec: Option<Rec>, world: World, limit: nat)

  datatype Action =
    // failures and the workers' own behaviour
    | Crash | Tear | Report(w: WorkerId) | Die(w: WorkerId)
    // the reconciler
    | Boot(me: Identity) | Poll(obs: Obs) | Dispatch | DropDispatch
    // the store
    | Commit(me: Identity, move: Move, no: EventNo) | ReplayTask | ReplayLog | ReplayUnlink
    // node handoff and stop
    | FinishAppend(me: Identity, claiming: bool) | FinishClear(me: Identity, claiming: bool)
    | Drain(me: Identity, n: nat, target: nat) | Archive(me: Identity) | Seal(me: Identity) | Claim(me: Identity, n: nat)
    | StopDrain(me: Identity, ts: nat) | StopClearedAppend | StopClearedWrite
    // offline recovery
    | BeginRecovery(rid: nat, plane: Identity) | RecoverPending | Hold(t: TaskId, no: EventNo)
    | RecoverManifest | RecoverLog | RecoverDone

  const EMPTY_DISK := Disk(map[], [], false, None, Manifest(None, Initial, None, None), None, map[])

  function Start0(limit: nat): State {
    State(EMPTY_DISK, None, World({}, map[], {}, {}, {}, {Initial}), limit)
  }

  // --------------------------------------------------------- writer admission

  predicate InPhase(m: Manifest, p: Phase) {
    m.control.Some? && m.control.value.phase == p
  }

  // require_task_writer: evaluated inside the mutation lock by every ordinary commit.
  predicate WriterOk(d: Disk, me: Identity, dispatch: bool, epoch: Option<Epoch>) {
    && d.marker.None?
    && d.manifest.pending.None?
    && (d.manifest.control.Some? ==> d.manifest.identity == Some(me))
    && (epoch.Some? ==> d.manifest.epoch == epoch.value)
    && !InPhase(d.manifest, Released)
    && !(dispatch && InPhase(d.manifest, Draining))
  }

  function Lookup(tasks: Tasks, t: TaskId): Option<Task> {
    if t in tasks then Some(tasks[t]) else None
  }

  // Compare-and-swap, legality of the state change, and workspace reservation.
  predicate Admissible(tasks: Tasks, p: Proposal) {
    && Lookup(tasks, p.task.id) == p.expected
    && (p.expected.Some? && p.expected.value.state != p.task.state ==>
          TransitionTask(p.expected.value, p.task.state, LeaseIdOf(p.expected.value), p.task.meta.acceptance.Some?,
                         p.task.meta, p.task.lease).Ok?)
    && (p.task.meta.workspace.Some? && p.task.state in RESERVED ==>
          forall o <- tasks | o != p.task.id && tasks[o].state in RESERVED :: tasks[o].meta.workspace != p.task.meta.workspace)
  }

  function NextRevision(expected: Option<Task>): nat {
    if expected.Some? then expected.value.meta.revision + 1 else 1
  }

  function Transaction(p: Proposal, no: EventNo): Txn {
    var saved := p.task.(meta := p.task.meta.(revision := NextRevision(p.expected)));
    Txn(p.expected, saved, Event(CommitEvent(no), Some(saved.id), p.kind, NextRevision(p.expected)))
  }

  // The mutation lock is held from a dispatching commit until its effect is over.
  predicate Unlocked(s: State) {
    s.rec.None? || s.rec.value.duty.None?
  }

  function ProposalOf(s: State, m: Move): Option<Proposal> {
    if !ByReconciler(m) then Propose(m, Initial, None, s.limit)
    else if s.rec.Some? then Propose(m, s.rec.value.epoch, s.rec.value.obs, s.limit)
    else None
  }

  predicate CommitOk(s: State, me: Identity, m: Move, no: EventNo) {
    && Unlocked(s)
    && s.disk.journal.None?
    && no !in s.world.minted && no !in Minted(m) && Minted(m) !! s.world.minted
    && (m.Start? || m.Adopt? ==> m.worker != m.lease)
    && ProposalOf(s, m).Some?
    && (ByReconciler(m) ==> s.rec.Some? && s.rec.value.me == me)
    && WriterOk(s.disk, me, ProposalOf(s, m).value.dispatch.Some?,
                if ByReconciler(m) then Some(s.rec.value.epoch) else None)
    && Admissible(s.disk.tasks, ProposalOf(s, m).value)
  }

  function AfterCommit(s: State, m: Move, no: EventNo): State
    requires ProposalOf(s, m).Some?
  {
    var p := ProposalOf(s, m).value;
    s.(disk := s.disk.(journal := Some(Transaction(p, no))),
       rec := if ByReconciler(m) && s.rec.Some? then Some(s.rec.value.(duty := p.dispatch)) else s.rec,
       world := s.world.(minted := s.world.minted + Minted(m) + {no}))
  }

  // --------------------------------------------------------------- node handoff

  function Deployed(c: Control, k: Kind): Event {
    Event(DeployEvent(c.id, k), None, k, 0)
  }

  predicate MayReplaceControl(m: Manifest) {
    m.control.None? || InPhase(m, Claimed)
  }

  predicate NoLeases(tasks: Tasks) {
    forall t <- tasks :: tasks[t].lease.None?
  }

  // Every lease cleanly surrendered and every worker issued in this epoch observed dead.
  predicate Quiesced(s: State) {
    && (forall t <- s.disk.tasks ::
          && s.disk.tasks[t].lease.None? && s.disk.tasks[t].state != RUNNING
          && (s.disk.tasks[t].state == WAITING ==> CleanSurrender(s.disk.tasks[t])))
    && (forall t <- s.disk.tasks | s.disk.tasks[t].meta.dispatches.Some?
                                    && s.disk.tasks[t].meta.dispatches.value.epoch == s.disk.manifest.epoch ::
          forall w <- s.disk.tasks[t].meta.dispatches.value.workers :: w !in s.world.live)
  }

  // Holding both locks, with nothing pending.
  predicate Offline(s: State) {
    s.rec.None? && s.disk.marker.None? && s.disk.manifest.pending.None? && s.disk.journal.None?
  }

  predicate ReleaseOk(s: State, me: Identity) {
    && Offline(s)
    && s.disk.manifest.identity == Some(me)
    && InPhase(s.disk.manifest, Draining) && s.disk.manifest.control.value.id.Request?
    && Quiesced(s)
  }

  predicate ClaimOk(s: State, me: Identity, n: nat) {
    && Offline(s) && !s.disk.torn
    && InPhase(s.disk.manifest, Released) && s.disk.manifest.control.value.id == Request(n)
    && s.disk.manifest.control.value.target == Some(me.host)
    && s.disk.manifest.identity.Some? && s.disk.manifest.identity.value.build == me.build
    && Request(n) in s.disk.archives
    && s.disk.manifest.control.value.seal == Some(s.disk.archives[Request(n)])
    && s.disk.archives[Request(n)] == s.disk.tasks
  }

  predicate PendingOwner(m: Manifest, me: Identity, claiming: bool) {
    && m.identity.Some? && m.identity.value.build == me.build
    && (if claiming then m.control.Some? && m.control.value.target == Some(me.host) else m.identity.value.host == me.host)
  }

  // ------------------------------------------------------------ offline recovery

  predicate Supported(t: Task) {
    CleanSurrender(t) || (t.lease.Some? <==> t.state in {RUNNING, WAITING})
  }

  predicate PlanOk(d: Disk) {
    && d.journal.None? && d.manifest.identity.Some?
    && (forall t <- d.tasks :: Supported(d.tasks[t]))
    && (forall t, u | t in d.tasks && u in d.tasks && t != u && d.tasks[t].lease.Some? && d.tasks[u].lease.Some? ::
          d.tasks[t].lease.value.id != d.tasks[u].lease.value.id && d.tasks[t].lease.value.worker != d.tasks[u].lease.value.worker)
  }

  function Changes(tasks: Tasks, rid: nat): Tasks {
    map t | t in tasks && tasks[t].lease.Some? :: Held(tasks[t], rid)
  }

  function MakeRecovery(d: Disk, rid: nat, target: Identity): Recovery {
    Recovery(rid, d.tasks, Changes(d.tasks, rid), d.manifest, Manifest(Some(target), Recovered(rid), None, None))
  }

  predicate PendingLogged(r: Recovery, log: Log) {
    r.before.pending.Some? ==> r.before.pending.value.id in Ids(log)
  }

  // The manifest write and everything after it come once every hold is on disk.
  predicate AllHeld(d: Disk, r: Recovery) {
    d.journal.None? && forall t <- r.changes :: t in d.tasks && d.tasks[t] == r.changes[t]
  }

  function RecoveredEvent(r: Recovery): Event {
    Event(RecoveryEvent(r.id), None, FarmRecovered, 0)
  }

  // ------------------------------------------------------------------- steps

  predicate Enabled(s: State, a: Action) {
    var d := s.disk;
    match a
    case Crash => true
    case Tear => !d.torn
    case Report(w) => w in s.world.live
    case Die(w) => true
    case Boot(me) =>
      && s.rec.None? && d.marker.None? && d.manifest.pending.None?
      && (d.manifest.control.Some? ==>
            && !d.manifest.control.value.id.StopAt? && !InPhase(d.manifest, Released)
            && d.manifest.identity.Some? && d.manifest.identity.value.host == me.host
            && (InPhase(d.manifest, Claimed) || d.manifest.identity == Some(me)))
      && (NoLeases(d.tasks) || (d.manifest.identity.Some? && d.manifest.identity.value.host == me.host))
    case Poll(o) =>
      && s.rec.Some? && s.rec.value.duty.None?
      && (o.alive == Dead ==> o.worker !in s.world.live)
      && (o.alive == Alive ==> o.worker in s.world.live)
      && (o.receipt.Some? && o.receipt.value.status == SubmittedReceipt && o.receipt.value.worker == o.worker ==>
            o.worker in s.world.reported)
    case Dispatch => s.rec.Some? && s.rec.value.duty.Some? && d.journal.None?
    case DropDispatch => s.rec.Some? && s.rec.value.duty.Some?
    case Commit(me, m, no) => CommitOk(s, me, m, no)
    case ReplayTask =>
      && !d.torn && d.journal.Some?
      && Lookup(d.tasks, d.journal.value.after.id) in {d.journal.value.before, Some(d.journal.value.after)}
    case ReplayLog =>
      && !d.torn && d.journal.Some? && d.journal.value.event.id !in Ids(d.log)
      && Lookup(d.tasks, d.journal.value.after.id) == Some(d.journal.value.after)
    case ReplayUnlink =>
      && !d.torn && d.journal.Some? && d.journal.value.event.id in Ids(d.log)
      && Lookup(d.tasks, d.journal.value.after.id) == Some(d.journal.value.after)
    case FinishAppend(me, claiming) =>
      && Unlocked(s) && d.marker.None? && !d.torn && d.manifest.pending.Some?
      && PendingOwner(d.manifest, me, claiming) && d.manifest.pending.value.id !in Ids(d.log)
    case FinishClear(me, claiming) =>
      && Unlocked(s) && d.marker.None? && !d.torn && d.manifest.pending.Some?
      && PendingOwner(d.manifest, me, claiming) && d.manifest.pending.value.id in Ids(d.log)
    case Drain(me, n, target) =>
      && Unlocked(s) && d.marker.None? && d.manifest.pending.None? && d.journal.None? && !d.torn
      && d.manifest.identity == Some(me) && target != me.host && MayReplaceControl(d.manifest)
      && DeployEvent(Request(n), FarmDrained) !in Ids(d.log)
    case Archive(me) => ReleaseOk(s, me)
    case Seal(me) =>
      && ReleaseOk(s, me) && !d.torn && d.manifest.control.value.id in d.archives
      && d.archives[d.manifest.control.value.id] == d.tasks
    case Claim(me, n) => ClaimOk(s, me, n)
    case StopDrain(me, ts) =>
      && Unlocked(s) && d.marker.None? && d.manifest.pending.None? && d.journal.None? && !d.torn
      && d.manifest.identity.Some? && d.manifest.identity.value.host == me.host && MayReplaceControl(d.manifest)
      && DeployEvent(StopAt(ts), FarmStopDrain) !in Ids(d.log)
    case StopClearedAppend =>
      && s.rec.None? && d.marker.None? && d.manifest.pending.None? && !d.torn
      && d.manifest.control.Some? && d.manifest.control.value.id.StopAt?
      && DeployEvent(d.manifest.control.value.id, FarmStopCleared) !in Ids(d.log)
    case StopClearedWrite =>
      && s.rec.None? && d.marker.None? && d.manifest.pending.None? && !d.torn
      && d.manifest.control.Some? && d.manifest.control.value.id.StopAt?
      && DeployEvent(d.manifest.control.value.id, FarmStopCleared) in Ids(d.log)
    case BeginRecovery(rid, plane) =>
      && s.rec.None? && d.marker.None? && PlanOk(d) && rid !in s.world.minted
    case RecoverPending =>
      && d.marker.Some? && !d.torn && d.marker.value.before.pending.Some?
      && d.marker.value.before.pending.value.id !in Ids(d.log)
    case Hold(t, no) =>
      && d.marker.Some? && !d.torn && d.journal.None? && PendingLogged(d.marker.value, d.log)
      && t in d.marker.value.changes && Lookup(d.tasks, t) == Lookup(d.marker.value.plan, t) && no !in s.world.minted
    case RecoverManifest => d.marker.Some? && !d.torn && PendingLogged(d.marker.value, d.log) && AllHeld(d, d.marker.value)
    case RecoverLog =>
      && d.marker.Some? && !d.torn && d.manifest == d.marker.value.after && d.journal.None?
      && RecoveryEvent(d.marker.value.id) !in Ids(d.log)
    case RecoverDone =>
      && d.marker.Some? && !d.torn && d.manifest == d.marker.value.after && d.journal.None?
      && RecoveryEvent(d.marker.value.id) in Ids(d.log)
  }

  function HoldTxn(r: Recovery, t: TaskId, no: EventNo): Txn
    requires t in r.changes
  {
    var after := r.changes[t];
    Txn(Lookup(r.plan, t), after, Event(CommitEvent(no), Some(after.id), RecoveryHeld(r.id), after.meta.revision))
  }

  function Publish(s: State, m: Manifest, k: Kind): State
    requires m.control.Some?
  {
    s.(disk := s.disk.(manifest := m.(pending := Some(Deployed(m.control.value, k)))))
  }

  function Effect(s: State, a: Action): State
    requires Enabled(s, a)
  {
    var d := s.disk;
    match a
    case Crash => s.(rec := None)
    case Tear => s.(disk := d.(torn := true))
    case Report(w) => s.(world := s.world.(reported := s.world.reported + {w}))
    case Die(w) => s.(world := s.world.(live := s.world.live - {w}))
    case Boot(me) => s.(disk := d.(manifest := d.manifest.(identity := Some(me))), rec := Some(Rec(me, d.manifest.epoch, None, None)))
    case Poll(o) => s.(rec := Some(s.rec.value.(obs := Some(o))))
    case Dispatch =>
      var r := s.rec.value;
      s.(rec := Some(r.(obs := None, duty := None)),
         world := s.world.(live := s.world.live + {r.duty.value.worker},
                           launched := s.world.launched[r.duty.value.worker := Launch(r.duty.value.task, r.epoch)]))
    case DropDispatch => s.(rec := Some(s.rec.value.(duty := None)))
    case Commit(_, m, no) => AfterCommit(s, m, no)
    case ReplayTask => s.(disk := d.(tasks := d.tasks[d.journal.value.after.id := d.journal.value.after]))
    case ReplayLog => s.(disk := d.(log := d.log + [d.journal.value.event]))
    case ReplayUnlink => s.(disk := d.(journal := None))
    case FinishAppend(_, _) => s.(disk := d.(log := d.log + [d.manifest.pending.value]))
    case FinishClear(_, _) => s.(disk := d.(manifest := d.manifest.(pending := None)))
    case Drain(me, n, target) => Publish(s, d.manifest.(control := Some(Control(Request(n), Draining, Some(target), None))), FarmDrained)
    case Archive(_) => s.(disk := d.(archives := d.archives[d.manifest.control.value.id := d.tasks]))
    case Seal(_) =>
      var c := d.manifest.control.value;
      Publish(s, d.manifest.(control := Some(c.(phase := Released, seal := Some(d.archives[c.id])))), FarmReleased)
    case Claim(me, n) =>
      var c := d.manifest.control.value;
      var s' := Publish(s, d.manifest.(identity := Some(me), epoch := HandedOver(n), control := Some(c.(phase := Claimed))), FarmClaimed);
      s'.(world := s.world.(epochs := s.world.epochs + {HandedOver(n)}))
    case StopDrain(_, ts) => Publish(s, d.manifest.(control := Some(Control(StopAt(ts), Draining, None, None))), FarmStopDrain)
    case StopClearedAppend => s.(disk := d.(log := d.log + [Deployed(d.manifest.control.value, FarmStopCleared)]))
    case StopClearedWrite => s.(disk := d.(manifest := d.manifest.(control := None)))
    case BeginRecovery(rid, plane) =>
      s.(disk := d.(marker := Some(MakeRecovery(d, rid, plane))),
         world := s.world.(attested := s.world.attested + s.world.launched.Keys, minted := s.world.minted + {rid}))
    case RecoverPending => s.(disk := d.(log := d.log + [d.marker.value.before.pending.value]))
    case Hold(t, no) =>
      s.(disk := d.(journal := Some(HoldTxn(d.marker.value, t, no))), world := s.world.(minted := s.world.minted + {no}))
    case RecoverManifest =>
      s.(disk := d.(manifest := d.marker.value.after), world := s.world.(epochs := s.world.epochs + {d.marker.value.after.epoch}))
    case RecoverLog => s.(disk := d.(log := d.log + [RecoveredEvent(d.marker.value)]))
    case RecoverDone => s.(disk := d.(marker := None))
  }

  // A disabled action leaves the farm as it is.
  function Apply(s: State, a: Action): State {
    if Enabled(s, a) then Effect(s, a) else s
  }

  function Exec(s: State, run: seq<Action>): State
    decreases |run|
  {
    if run == [] then s else Apply(Exec(s, run[..|run| - 1]), run[|run| - 1])
  }

  lemma {:induction false} ExecConcat(s: State, a: seq<Action>, b: seq<Action>)
    ensures Exec(s, a + b) == Exec(Exec(s, a), b)
    decreases |b|
  {
    if b == [] {
      assert a + b == a;
    } else {
      var n := |b| - 1;
      assert (a + b)[..|a + b| - 1] == a + b[..n];
      ExecConcat(s, a, b[..n]);
    }
  }
}
