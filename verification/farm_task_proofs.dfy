// The task, worker, seal and count invariants are kept by every action.
module FarmTaskProofs {
  import opened Prelude
  import opened FarmTypes
  import opened FarmMoves
  import opened FarmMachine
  import opened FarmInvariants
  import opened FarmLogical
  import opened FarmControlProofs
  import opened FarmMoveProofs

  // Facts about an admitted commit, in the terms the task invariants use.
  lemma Admitted(s: State, me: Identity, m: Move, no: EventNo)
    requires CommitOk(s, me, m, no) && Inv(s)
    ensures var p := ProposalOf(s, m).value;
            && s.disk.marker.None? && Now(s.disk) == s.disk.tasks && Audit(s.disk) == s.disk.log
            && Lookup(s.disk.tasks, p.task.id) == p.expected
            && FromGood(p, s.limit)
            && (ByReconciler(m) ==> s.rec.Some? && s.rec.value.epoch == s.disk.manifest.epoch && s.rec.value.duty.None?)
  {
  }

  // Two tasks stay apart when one of them is replaced by what a commit saves.
  lemma SavedApart(s: State, me: Identity, m: Move, no: EventNo, o: TaskId)
    requires CommitOk(s, me, m, no) && Inv(s)
    requires o in s.disk.tasks && o != ProposalOf(s, m).value.task.id
    ensures var u := Transaction(ProposalOf(s, m).value, no).after;
            Apart(u, s.disk.tasks[o]) && Apart(s.disk.tasks[o], u)
  {
    Admitted(s, me, m, no);
    var p := ProposalOf(s, m).value;
    var epoch, obs := if ByReconciler(m) then s.rec.value.epoch else Initial, if ByReconciler(m) then s.rec.value.obs else None;
    MoveStepsLease(m, epoch, obs, s.limit);
    MoveKeepsIdentity(m, epoch, obs, s.limit);
    if p.expected.Some? {
      assert p.task.id in s.disk.tasks;
      assert Apart(p.expected.value, s.disk.tasks[o]);
    }
  }

  lemma SavedTask(s: State, me: Identity, m: Move, no: EventNo)
    requires CommitOk(s, me, m, no) && Inv(s)
    ensures var u := Transaction(ProposalOf(s, m).value, no).after;
            && Good(u, s.limit) && LeaseIssued(u, s.disk.manifest.epoch)
            && (u.lease.Some? ==> u.lease.value.worker in s.world.minted + Minted(m) && u.lease.value.id in s.world.minted + Minted(m))
  {
    Admitted(s, me, m, no);
    var p := ProposalOf(s, m).value;
    var epoch, obs := if ByReconciler(m) then s.rec.value.epoch else Initial, if ByReconciler(m) then s.rec.value.obs else None;
    MoveKeepsGood(m, epoch, obs, s.limit, no);
    MoveStepsLease(m, epoch, obs, s.limit);
    MoveKeepsIdentity(m, epoch, obs, s.limit);
  }

  // The task invariant when exactly one task is replaced.
  lemma PutKeepsTasks(s: State, s': State, u: Task)
    requires TaskInv(s) && Now(s'.disk) == Now(s.disk)[u.id := u]
    requires s'.limit == s.limit && s'.disk.manifest.epoch == s.disk.manifest.epoch && s.world.minted <= s'.world.minted
    requires Good(u, s.limit) && LeaseIssued(u, s.disk.manifest.epoch)
    requires u.lease.Some? ==> u.lease.value.worker in s'.world.minted && u.lease.value.id in s'.world.minted
    requires forall o <- Now(s.disk) | o != u.id :: Apart(u, Now(s.disk)[o]) && Apart(Now(s.disk)[o], u)
    ensures TaskInv(s')
  {
  }

  lemma SavedApartFromAll(s: State, me: Identity, m: Move, no: EventNo)
    requires CommitOk(s, me, m, no) && Inv(s)
    ensures var u := Transaction(ProposalOf(s, m).value, no).after;
            forall o <- Now(s.disk) | o != u.id :: Apart(u, Now(s.disk)[o]) && Apart(Now(s.disk)[o], u)
  {
    Admitted(s, me, m, no);
    forall o | o in s.disk.tasks && o != ProposalOf(s, m).value.task.id
      ensures var u := Transaction(ProposalOf(s, m).value, no).after; Apart(u, s.disk.tasks[o]) && Apart(s.disk.tasks[o], u)
    {
      SavedApart(s, me, m, no, o);
    }
  }

  lemma TaskKeptByCommit(s: State, me: Identity, m: Move, no: EventNo)
    requires CommitOk(s, me, m, no) && Inv(s)
    ensures TaskInv(Effect(s, Commit(me, m, no)))
  {
    SavedTask(s, me, m, no);
    SavedApartFromAll(s, me, m, no);
    NowByCommit(s, me, m, no);
    PutKeepsTasks(s, Effect(s, Commit(me, m, no)), Transaction(ProposalOf(s, m).value, no).after);
  }

  lemma HeldGood(t: Task, rid: nat, limit: nat)
    requires Good(t, limit) && t.lease.Some?
    ensures Good(Held(t, rid), limit)
  {
  }

  lemma TaskKeptByHold(s: State, t: TaskId, no: EventNo)
    requires Enabled(s, Hold(t, no)) && Inv(s)
    ensures TaskInv(Effect(s, Hold(t, no)))
  {
    var r, u := s.disk.marker.value, s.disk.marker.value.changes[t];
    NowStep(s, Hold(t, no));
    assert t in Now(s.disk) && u == Held(Now(s.disk)[t], r.id) && Now(s.disk)[t].lease.Some?;
    HeldGood(Now(s.disk)[t], r.id, s.limit);
    forall o <- Now(s.disk) | o != t
      ensures Apart(u, Now(s.disk)[o]) && Apart(Now(s.disk)[o], u)
    {
      assert Apart(Now(s.disk)[t], Now(s.disk)[o]);
    }
    PutKeepsTasks(s, Effect(s, Hold(t, no)), u);
  }

  lemma NoLeaseLeft(s: State, t: TaskId)
    requires Inv(s) && s.disk.marker.Some? && AllHeld(s.disk, s.disk.marker.value) && t in Now(s.disk)
    ensures Now(s.disk)[t].lease.None?
  {
    var r := s.disk.marker.value;
    assert t in r.plan;
    if t in r.changes {
      assert r.changes[t] == Held(r.plan[t], r.id);
    }
  }

  // The task invariant when the task map does not change.
  lemma SameTasks(s: State, s': State)
    requires TaskInv(s) && Now(s'.disk) == Now(s.disk) && s'.limit == s.limit && s.world.minted <= s'.world.minted
    requires s'.disk.manifest.epoch == s.disk.manifest.epoch || forall t <- Now(s.disk) :: Now(s.disk)[t].lease.None?
    ensures TaskInv(s')
  {
  }

  predicate Leaseless(tasks: Tasks) {
    forall t <- tasks :: tasks[t].lease.None?
  }

  lemma GrowsMinted(s: State, a: Action)
    requires Enabled(s, a)
    ensures Effect(s, a).limit == s.limit && s.world.minted <= Effect(s, a).world.minted
  {
  }

  // The epoch changes only when no task holds a lease.
  lemma EpochChangesLeaseless(s: State, a: Action)
    requires Enabled(s, a) && Inv(s)
    ensures Effect(s, a).disk.manifest.epoch == s.disk.manifest.epoch || Leaseless(Now(s.disk))
  {
    if a == RecoverManifest {
      forall t <- Now(s.disk) ensures Now(s.disk)[t].lease.None? {
        NoLeaseLeft(s, t);
      }
    } else if !a.Claim? {
      OnlyTwoChangeEpoch(s, a);
    }
  }

  lemma TaskKept(s: State, a: Action)
    requires Enabled(s, a) && Inv(s)
    ensures TaskInv(Effect(s, a))
  {
    if a.Commit? {
      TaskKeptByCommit(s, a.me, a.move, a.no);
    } else if a.Hold? {
      TaskKeptByHold(s, a.t, a.no);
    } else {
      NowStep(s, a);
      EpochChangesLeaseless(s, a);
      GrowsMinted(s, a);
      SameTasks(s, Effect(s, a));
    }
  }

  // Only a seal releases a farm, and while it is released its control stands.
  lemma OnlySealReleases(s: State, a: Action)
    requires Enabled(s, a) && EpochInv(s) && RecoveryInv(s) && !a.Seal? && InPhase(Effect(s, a).disk.manifest, Released)
    ensures InPhase(s.disk.manifest, Released) && Effect(s, a).disk.manifest.control == s.disk.manifest.control
    ensures Effect(s, a).disk.manifest.epoch == s.disk.manifest.epoch && s.rec.None?
  {
    if !Deploys(a) {
      OnlyDeploysWrite(s, a);
      OnlyTwoChangeEpoch(s, a);
    } else {
      match a
      case Boot(_) =>
      case RecoverManifest =>
      case _ =>
    }
  }

  // What can still happen to a released farm: outside a recovery, nothing to its tasks.
  lemma ReleasedTasksStand(s: State, a: Action)
    requires Enabled(s, a) && EpochInv(s) && SealInv(s) && InPhase(s.disk.manifest, Released) && s.disk.marker.None?
    ensures Effect(s, a).disk.tasks == s.disk.tasks && Effect(s, a).disk.archives == s.disk.archives
    ensures Effect(s, a).disk.journal.None?
  {
  }

  lemma MarkerFallsLast(s: State, a: Action)
    requires Enabled(s, a) && s.disk.marker.Some? && Effect(s, a).disk.marker.None?
    ensures a == RecoverDone
  {
  }

  lemma SealHolds(s: State, me: Identity)
    requires Enabled(s, Seal(me)) && Inv(s)
    ensures SealInv(Effect(s, Seal(me)))
  {
    assert Now(s.disk) == s.disk.tasks;
    forall x <- s.world.launched | s.world.launched[x].epoch == s.disk.manifest.epoch
      ensures x !in s.world.live
    {
      assert WorkerOk(s, x);
    }
  }

  lemma SealKept(s: State, a: Action)
    requires Enabled(s, a) && Inv(s)
    ensures SealInv(Effect(s, a))
  {
    if a.Seal? {
      SealHolds(s, a.me);
    } else if InPhase(Effect(s, a).disk.manifest, Released) {
      OnlySealReleases(s, a);
      if a != Dispatch {
        OnlyDispatchLaunches(s, a);
      }
      if s.disk.marker.None? {
        ReleasedTasksStand(s, a);
      } else if Effect(s, a).disk.marker.None? {
        MarkerFallsLast(s, a);
      }
    }
  }
}
