// What every reachable farm satisfies. All of it is stated on the logical task map and
// audit log (Now, Audit), so that replaying a pending write changes nothing.
module FarmInvariants {
  import opened Prelude
  import opened FarmTypes
  import opened FarmMoves
  import opened FarmMachine

  // ------------------------------------------------------------ event counting

  predicate Matches(e: Event, t: TaskId, ks: set<Kind>) {
    e.task == Some(t) && e.kind in ks
  }

  // Number of events of the given kinds recorded for task t.
  function Tally(log: Log, t: TaskId, ks: set<Kind>): nat {
    if log == [] then 0
    else Tally(log[..|log| - 1], t, ks) + if Matches(log[|log| - 1], t, ks) then 1 else 0
  }

  // Revisions recorded for task t, in log order.
  function Revisions(log: Log, t: TaskId): seq<nat> {
    if log == [] then []
    else Revisions(log[..|log| - 1], t) + if log[|log| - 1].task == Some(t) then [log[|log| - 1].revision] else []
  }

  function UpTo(n: nat): seq<nat> {
    seq(n, i requires 0 <= i => i + 1)
  }

  predicate Unique(log: Log) {
    forall i, j | 0 <= i < j < |log| :: log[i].id != log[j].id
  }

  const ADOPTIONS := {WorkerAdopted}
  const DECISIONS := {RulingRecorded, ReworkRequested, RecoveryReleased}

  // ----------------------------------------------------------------- the disk

  predicate IdMinted(i: EventId, minted: set<nat>) {
    && (i.CommitEvent? ==> i.no in minted)
    && (i.RecoveryEvent? ==> i.rid in minted)
  }

  predicate EventSound(e: Event, minted: set<nat>) {
    && IdMinted(e.id, minted)
    && (e.kind.RecoveryHeld? ==> e.kind.recovery in minted)
  }

  predicate LogSound(s: State) {
    forall e <- s.disk.log :: EventSound(e, s.world.minted)
  }

  predicate JournalInv(s: State) {
    var d := s.disk;
    d.journal.Some? ==>
      var x := d.journal.value;
      && x.event.id.CommitEvent? && EventSound(x.event, s.world.minted)
      && x.event.task == Some(x.after.id) && x.event.revision == x.after.meta.revision
      && Lookup(d.tasks, x.after.id) in {x.before, Some(x.after)}
      && (d.manifest.pending.Some? ==> d.manifest.pending.value.id in Ids(d.log))
  }

  predicate PendingInv(m: Manifest) {
    m.pending.Some? ==> m.pending.value.id.DeployEvent? && m.pending.value.task.None? && !m.pending.value.kind.RecoveryHeld?
  }

  predicate DiskInv(s: State) {
    && (forall t <- s.disk.tasks :: s.disk.tasks[t].id == t)
    && LogSound(s) && JournalInv(s) && PendingInv(s.disk.manifest)
    && Unique(Audit(s.disk))
  }

  // -------------------------------------------------------------- deployment

  // The first event of a handoff or stop: what makes its id single-use.
  function Opening(id: HandoffId): EventId {
    DeployEvent(id, if id.Request? then FarmDrained else FarmStopDrain)
  }

  function PhaseEvent(c: Control): Kind {
    if c.id.StopAt? then FarmStopDrain
    else if c.phase == Draining then FarmDrained else if c.phase == Released then FarmReleased else FarmClaimed
  }

  // Which events the current control has already caused.
  predicate ControlLogged(c: Control, ids: set<EventId>) {
    && Opening(c.id) in ids
    && (c.id.StopAt? ==> c.phase == Draining)
    && (c.id.Request? ==>
          && (DeployEvent(c.id, FarmReleased) in ids <==> c.phase != Draining)
          && (DeployEvent(c.id, FarmClaimed) in ids <==> c.phase == Claimed))
  }

  predicate HandoffInv(s: State) {
    var m, ids := s.disk.manifest, Ids(Audit(s.disk));
    && (forall i <- ids | i.DeployEvent? :: Opening(i.handoff) in ids)
    && (m.control.Some? ==> ControlLogged(m.control.value, ids))
    && (m.pending.Some? ==> m.control.Some? && m.pending.value == Deployed(m.control.value, PhaseEvent(m.control.value)))
  }

  predicate EpochInv(s: State) {
    && s.disk.manifest.epoch in s.world.epochs
    && (forall x <- s.world.launched :: s.world.launched[x].epoch in s.world.epochs)
    && (forall e <- s.world.epochs ::
          && (e.Recovered? ==> e.rid in s.world.minted)
          && (e.HandedOver? ==> DeployEvent(Request(e.request), FarmClaimed) in Ids(Audit(s.disk))))
    && (s.rec.Some? ==> s.rec.value.epoch == s.disk.manifest.epoch && s.disk.marker.None?
                          && !InPhase(s.disk.manifest, Released) && s.disk.manifest.identity.Some?)
    && (s.disk.marker.Some? ==> s.disk.marker.value.before == s.disk.manifest ==> Recovered(s.disk.marker.value.id) !in s.world.epochs)
  }

  // --------------------------------------------------------------------- tasks

  // One task, on its own.
  predicate Good(t: Task, limit: nat) {
    var m := t.meta;
    && m.revision >= 1
    && (t.state == RUNNING ==> t.lease.Some?)
    && (t.state == WAITING ==> (t.lease.Some? || CleanSurrender(t)) && m.waitingOn.Some?)
    && (t.lease.Some? ==> t.state in {RUNNING, WAITING})
    && (t.state == DONE ==> m.acceptance.Some?)
    && (m.reworkRequested ==> t.state == SUBMITTED)
    && (m.resumeRequested ==> t.state == WAITING)
    && (m.restartLimitReached ==> t.state in {WAITING, BLOCKED})
    && (m.recoveryHold.Some? <==> t.state == BLOCKED)
    && m.automaticRestarts <= limit
    && (m.rotation.Some? ==> t.lease == Some(Lease(m.rotation.value.worker, m.rotation.value.lease)))
    && (m.rotation.Some? && m.rotation.value.checkpoint.Some? ==> !m.rotation.value.checkpoint.value.blank)
    && (m.checkpoint.Some? ==> !m.checkpoint.value.file.blank)
  }

  // The holder of a lease was issued in the current epoch.
  predicate LeaseIssued(t: Task, epoch: Epoch) {
    t.lease.Some? ==>
      && t.meta.dispatches.Some? && t.meta.dispatches.value.epoch == epoch
      && t.lease.value.worker in t.meta.dispatches.value.workers
  }

  predicate Apart(a: Task, b: Task) {
    && (a.lease.Some? && b.lease.Some? ==> a.lease.value.worker != b.lease.value.worker && a.lease.value.id != b.lease.value.id)
    && (a.state in RESERVED && b.state in RESERVED && a.meta.workspace.Some? ==> a.meta.workspace != b.meta.workspace)
  }

  predicate TaskInv(s: State) {
    var now := Now(s.disk);
    && (forall t <- now ::
          && now[t].id == t && Good(now[t], s.limit) && LeaseIssued(now[t], s.disk.manifest.epoch)
          && (now[t].lease.Some? ==> now[t].lease.value.worker in s.world.minted && now[t].lease.value.id in s.world.minted))
    && (forall t, u | t in now && u in now && t != u :: Apart(now[t], now[u]))
  }

  // ------------------------------------------------------------------- workers

  // Why a launched worker may still have an invocation running or queued.
  predicate Excused(s: State, x: WorkerId)
    requires x in s.world.launched && s.world.launched[x].task in Now(s.disk)
  {
    var t := Now(s.disk)[s.world.launched[x].task];
    Holds(t, x) || x in s.world.reported || x in s.world.attested || t.state == FAILED
  }

  predicate IssuedNow(t: Task, x: WorkerId, epoch: Epoch) {
    t.meta.dispatches.Some? && t.meta.dispatches.value.epoch == epoch && x in t.meta.dispatches.value.workers
  }

  predicate DutyInv(s: State, u: Duty) {
    var now := Now(s.disk);
    && u.task in now && now[u.task].state == RUNNING && now[u.task].lease == Some(Lease(u.worker, u.lease))
    && s.disk.manifest.pending.None? && !InPhase(s.disk.manifest, Draining)
    && u.worker !in s.world.live && u.worker in s.world.minted
    && (forall x <- s.world.live | x in s.world.launched && s.world.launched[x].task == u.task ::
          x in s.world.reported || x in s.world.attested)
  }

  // One launched worker.
  predicate WorkerOk(s: State, x: WorkerId)
    requires x in s.world.launched
  {
    var l := s.world.launched[x];
    && l.task in Now(s.disk)
    && (x in s.world.live ==> Excused(s, x))
    && (l.epoch == s.disk.manifest.epoch ==> IssuedNow(Now(s.disk)[l.task], x, s.disk.manifest.epoch))
  }

  // A positive death, or a SUBMITTED receipt, stays true once observed.
  predicate ObsInv(s: State) {
    s.rec.Some? && s.rec.value.obs.Some? ==>
      var o := s.rec.value.obs.value;
      && (o.alive == Dead ==> o.worker !in s.world.live)
      && (o.receipt.Some? && o.receipt.value.status == SubmittedReceipt && o.receipt.value.worker == o.worker ==> o.worker in s.world.reported)
  }

  predicate WorkerInv(s: State) {
    && s.world.live <= s.world.launched.Keys <= s.world.minted
    && (forall x <- s.world.launched :: WorkerOk(s, x))
    && ObsInv(s)
    && (s.rec.Some? && s.rec.value.duty.Some? ==> DutyInv(s, s.rec.value.duty.value))
  }

  // A released farm: nothing it issued in its epoch is alive, and its tasks are the sealed ones.
  predicate SealInv(s: State) {
    InPhase(s.disk.manifest, Released) ==>
      && (forall x <- s.world.launched | s.world.launched[x].epoch == s.disk.manifest.epoch :: x !in s.world.live)
      && (s.disk.marker.None? ==> s.disk.journal.None? && NoLeases(s.disk.tasks)
                                     && s.disk.manifest.control.value.seal == Some(s.disk.tasks)
                                     && s.disk.manifest.control.value.id in s.disk.archives
                                     && s.disk.archives[s.disk.manifest.control.value.id] == s.disk.tasks)
  }

  // ------------------------------------------------------------------ counting

  function Credit(t: Task): nat {
    (if t.meta.resumeRequested then 1 else 0) + (if t.meta.reworkRequested then 1 else 0)
  }

  // Adoptions are paid for by the restart counter, which only a decision resets.
  predicate Paid(t: Task, log: Log, limit: nat) {
    Tally(log, t.id, ADOPTIONS) + limit * Credit(t) <= limit * Tally(log, t.id, DECISIONS) + t.meta.automaticRestarts
  }

  ghost predicate Counted(now: Tasks, log: Log, limit: nat) {
    && (forall t <- now :: now[t].id == t && Paid(now[t], log, limit) && Revisions(log, t) == UpTo(now[t].meta.revision))
    && (forall t: TaskId | t !in now :: Tally(log, t, ADOPTIONS) == 0 && Revisions(log, t) == [])
  }

  ghost predicate CountInv(s: State) {
    Counted(Now(s.disk), Audit(s.disk), s.limit)
  }

  // ------------------------------------------------------------ offline recovery

  // Each leased task of the plan is on hold or not yet, and its hold is recorded accordingly.
  predicate HoldsCounted(r: Recovery, now: Tasks, log: Log) {
    && now.Keys == r.plan.Keys
    && forall t <- r.plan ::
         && (now[t] == r.plan[t] || (t in r.changes && now[t] == r.changes[t]))
         && Tally(log, t, {RecoveryHeld(r.id)}) == if t in r.changes && now[t] == r.changes[t] then 1 else 0
  }

  // How far a recovery has got, files and reconciler.
  predicate RecoveryShape(s: State) {
    s.disk.marker.Some? ==>
      var d, r := s.disk, s.disk.marker.value;
      && s.rec.None? && r.id in s.world.minted && s.world.launched.Keys <= s.world.attested
      && r.changes == Changes(r.plan, r.id)
      && (forall t <- r.plan :: r.plan[t].id == t)
      && r.after.epoch == Recovered(r.id) && r.after.control.None? && r.after.pending.None? && r.after.identity.Some?
      && d.manifest in {r.before, r.after}
      && r.before.epoch != r.after.epoch
      && (d.manifest == r.after ==> AllHeld(d, r) && PendingLogged(r, d.log))
      && (d.journal.Some? ==> d.journal.value.after.id in r.changes && d.journal.value.after == r.changes[d.journal.value.after.id]
                               && d.journal.value.before == Lookup(r.plan, d.journal.value.after.id))
      && (RecoveryEvent(r.id) in Ids(Audit(d)) ==> d.manifest == r.after)
  }

  predicate RecoveryInv(s: State) {
    RecoveryShape(s) && (s.disk.marker.Some? ==> HoldsCounted(s.disk.marker.value, Now(s.disk), Audit(s.disk)))
  }

  ghost predicate Inv(s: State) {
    && DiskInv(s) && HandoffInv(s) && EpochInv(s) && TaskInv(s) && WorkerInv(s) && SealInv(s) && CountInv(s) && RecoveryInv(s)
  }
}
