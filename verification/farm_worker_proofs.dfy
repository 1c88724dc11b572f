// Why a second worker never runs: the worker invariant is kept by every action.
module FarmWorkerProofs {
  import opened Prelude
  import opened FarmTypes
  import opened FarmMoves
  import opened FarmMachine
  import opened FarmInvariants
  import opened FarmLogical
  import opened FarmControlProofs
  import opened FarmMoveProofs
  import opened FarmTaskProofs

  // One worker, when one task is replaced.
  lemma WorkerOkAfterPut(s: State, s': State, u: Task, x: WorkerId)
    requires x in s.world.launched && WorkerOk(s, x) && Now(s'.disk) == Now(s.disk)[u.id := u]
    requires s'.world.launched == s.world.launched && s'.world.live == s.world.live
    requires s'.world.reported == s.world.reported && s'.world.attested == s.world.attested
    requires s'.disk.manifest.epoch == s.disk.manifest.epoch
    requires u.id == s.world.launched[x].task ==>
               var t := Now(s.disk)[u.id];
               && (Holds(t, x) && x in s.world.live ==> Holds(u, x) || x in s.world.reported || x in s.world.attested || u.state == FAILED)
               && (t.state == FAILED ==> u.state == FAILED)
               && (IssuedNow(t, x, s.disk.manifest.epoch) ==> IssuedNow(u, x, s.disk.manifest.epoch))
    ensures WorkerOk(s', x)
  {
  }

  // A launched worker stays accounted for when a commit replaces its task.
  lemma WorkerOkAfterCommit(s: State, me: Identity, m: Move, no: EventNo, x: WorkerId)
    requires CommitOk(s, me, m, no) && Inv(s) && x in s.world.launched
    ensures WorkerOk(Effect(s, Commit(me, m, no)), x)
  {
    Admitted(s, me, m, no);
    assert WorkerOk(s, x);
    var p := ProposalOf(s, m).value;
    var u := Transaction(p, no).after;
    NowStep(s, Commit(me, m, no));
    if s.world.launched[x].task == u.id {
      var t := Now(s.disk)[u.id];
      assert p.expected == Some(t);
      var epoch, obs := if ByReconciler(m) then s.rec.value.epoch else Initial, if ByReconciler(m) then s.rec.value.obs else None;
      MoveStepsLease(m, epoch, obs, s.limit);
      FailedStaysFailed(m, epoch, obs, s.limit);
      if Holds(t, x) && !Holds(u, x) {
        MoveRelieves(m, epoch, obs, s.limit, x);
      }
    }
    WorkerOkAfterPut(s, Effect(s, Commit(me, m, no)), u, x);
  }

  // The obligation a dispatching commit takes on.
  lemma DutyAfterCommit(s: State, me: Identity, m: Move, no: EventNo)
    requires CommitOk(s, me, m, no) && Inv(s) && ProposalOf(s, m).value.dispatch.Some?
    ensures DutyInv(Effect(s, Commit(me, m, no)), ProposalOf(s, m).value.dispatch.value)
  {
    Admitted(s, me, m, no);
    var p := ProposalOf(s, m).value;
    var d := p.dispatch.value;
    var epoch, obs := if ByReconciler(m) then s.rec.value.epoch else Initial, if ByReconciler(m) then s.rec.value.obs else None;
    MoveDispatches(m, epoch, obs, s.limit);
    MoveKeepsIdentity(m, epoch, obs, s.limit);
    var s' := Effect(s, Commit(me, m, no));
    assert p.task.id in s.disk.tasks;
    assert d.worker !in s.world.live;
    forall x | x in s.world.live && s.world.launched[x].task == d.task
      ensures x in s.world.reported || x in s.world.attested
    {
      assert WorkerOk(s, x);
    }
  }

  lemma WorkerKeptByCommit(s: State, me: Identity, m: Move, no: EventNo)
    requires CommitOk(s, me, m, no) && Inv(s)
    ensures WorkerInv(Effect(s, Commit(me, m, no)))
  {
    var s' := Effect(s, Commit(me, m, no));
    forall x <- s'.world.launched ensures WorkerOk(s', x) {
      WorkerOkAfterCommit(s, me, m, no, x);
    }
    if ProposalOf(s, m).value.dispatch.Some? && ByReconciler(m) {
      DutyAfterCommit(s, me, m, no);
    }
    Admitted(s, me, m, no);
  }

  // The task is held by a worker whom an operator has attested stopped.
  predicate Holdable(s: State, t: TaskId) {
    && s.disk.marker.Some? && t in s.disk.marker.value.changes && t in Now(s.disk)
    && s.disk.marker.value.changes[t] == Held(Now(s.disk)[t], s.disk.marker.value.id) && s.disk.marker.value.changes[t].id == t
    && Now(s.disk)[t].lease.Some? && Now(s.disk)[t].state != FAILED && s.world.launched.Keys <= s.world.attested
  }

  lemma HoldFinds(s: State, t: TaskId, no: EventNo)
    requires Enabled(s, Hold(t, no)) && RecoveryInv(s) && TaskInv(s)
    ensures Holdable(s, t)
  {
    assert t in Changes(s.disk.marker.value.plan, s.disk.marker.value.id);
    assert Good(Now(s.disk)[t], s.limit);
  }

  lemma WorkerKeptByHold(s: State, t: TaskId, no: EventNo)
    requires Enabled(s, Hold(t, no)) && DiskInv(s) && RecoveryInv(s) && TaskInv(s) && WorkerInv(s)
    ensures WorkerInv(Effect(s, Hold(t, no)))
  {
    HoldFinds(s, t, no);
    NowByHold(s, t, no);
    forall x <- s.world.launched ensures WorkerOk(Effect(s, Hold(t, no)), x) {
      assert WorkerOk(s, x);
      WorkerOkAfterPut(s, Effect(s, Hold(t, no)), s.disk.marker.value.changes[t], x);
    }
  }

  lemma WorkerKeptByDispatch(s: State)
    requires Enabled(s, Dispatch) && Inv(s)
    ensures WorkerInv(Effect(s, Dispatch))
  {
    var d, s' := s.rec.value.duty.value, Effect(s, Dispatch);
    assert DutyInv(s, d);
    forall x <- s'.world.launched ensures WorkerOk(s', x) {
      if x != d.worker {
        assert WorkerOk(s, x);
      }
    }
  }

  // A new epoch has issued nothing yet.
  lemma EpochIsNew(s: State, a: Action, x: WorkerId)
    requires Enabled(s, a) && DiskInv(s) && HandoffInv(s) && EpochInv(s) && RecoveryInv(s) && (a.Claim? || a == RecoverManifest)
    requires x in s.world.launched && Effect(s, a).disk.manifest.epoch != s.disk.manifest.epoch
    ensures s.world.launched[x].epoch != Effect(s, a).disk.manifest.epoch
  {
    LogInAudit(s.disk);
  }

  // Deaths, reports and attestations only excuse workers.
  lemma ExcusesGrow(s: State, a: Action)
    requires Enabled(s, a) && a != Dispatch
    ensures var w, w' := s.world, Effect(s, a).world;
            && w'.live <= w.live && w'.launched == w.launched && w.reported <= w'.reported && w.attested <= w'.attested
  {
    OnlyDispatchLaunches(s, a);
  }

  // One worker, when no task changes.
  lemma WorkerOkStays(s: State, s': State, x: WorkerId)
    requires x in s.world.launched && WorkerOk(s, x) && Now(s'.disk) == Now(s.disk)
    requires s'.world.launched == s.world.launched && s'.world.live <= s.world.live
    requires s.world.reported <= s'.world.reported && s.world.attested <= s'.world.attested
    requires s'.disk.manifest.epoch != s.disk.manifest.epoch ==> s.world.launched[x].epoch != s'.disk.manifest.epoch
    ensures WorkerOk(s', x)
  {
  }

  lemma WorkerOkByOthers(s: State, a: Action, x: WorkerId)
    requires Enabled(s, a) && DiskInv(s) && HandoffInv(s) && EpochInv(s) && RecoveryInv(s)
    requires !a.Commit? && !a.Hold? && a != Dispatch && x in s.world.launched && WorkerOk(s, x)
    ensures x in Effect(s, a).world.launched && WorkerOk(Effect(s, a), x)
  {
    NowStep(s, a);
    ExcusesGrow(s, a);
    if !a.Claim? && a != RecoverManifest {
      OnlyTwoChangeEpoch(s, a);
    } else if Effect(s, a).disk.manifest.epoch != s.disk.manifest.epoch {
      EpochIsNew(s, a, x);
    }
    WorkerOkStays(s, Effect(s, a), x);
  }

  lemma WorkersMinted(s: State, a: Action)
    requires Enabled(s, a) && WorkerInv(s) && a != Dispatch
    ensures Effect(s, a).world.live <= Effect(s, a).world.launched.Keys <= Effect(s, a).world.minted
  {
    ExcusesGrow(s, a);
    MintedGrow(s, a);
  }

  // A running reconciler keeps its last observation, makes a new one, or forgets it.
  lemma ObsKept(s: State, a: Action)
    requires Enabled(s, a) && ObsInv(s) && a != Dispatch
    ensures ObsInv(Effect(s, a))
  {
    ExcusesGrow(s, a);
  }

  // While a dispatch is owed nothing else happens to its task.
  lemma DutyKept(s: State, a: Action)
    requires Enabled(s, a) && WorkerInv(s) && EpochInv(s) && DiskInv(s) && RecoveryInv(s) && !a.Commit? && !a.Hold? && a != Dispatch
    requires Effect(s, a).rec.Some? && Effect(s, a).rec.value.duty.Some?
    ensures DutyInv(Effect(s, a), Effect(s, a).rec.value.duty.value)
  {
    NowStep(s, a);
    ExcusesGrow(s, a);
    MintedGrow(s, a);
    DutyLocks(s, a);
  }

  lemma DutyLocks(s: State, a: Action)
    requires Enabled(s, a) && !a.Commit? && !a.Hold? && a != Dispatch && (s.rec.Some? ==> s.disk.marker.None?)
    requires Effect(s, a).rec.Some? && Effect(s, a).rec.value.duty.Some?
    ensures s.rec.Some? && s.rec.value.duty == Effect(s, a).rec.value.duty
    ensures Effect(s, a).disk.manifest.control == s.disk.manifest.control
    ensures s.disk.manifest.pending.None? ==> Effect(s, a).disk.manifest.pending.None?
  {
  }

  lemma WorkerKeptByOthers(s: State, a: Action)
    requires Enabled(s, a) && Inv(s) && !a.Commit? && !a.Hold? && a != Dispatch
    ensures WorkerInv(Effect(s, a))
  {
    var s' := Effect(s, a);
    WorkersMinted(s, a);
    ObsKept(s, a);
    forall x <- s'.world.launched ensures WorkerOk(s', x) {
      ExcusesGrow(s, a);
      assert WorkerOk(s, x);
      WorkerOkByOthers(s, a, x);
    }
    if s'.rec.Some? && s'.rec.value.duty.Some? {
      DutyKept(s, a);
    }
  }

  lemma WorkerKept(s: State, a: Action)
    requires Enabled(s, a) && Inv(s)
    ensures WorkerInv(Effect(s, a))
  {
    if a.Commit? {
      WorkerKeptByCommit(s, a.me, a.move, a.no);
    } else if a.Hold? {
      WorkerKeptByHold(s, a.t, a.no);
    } else if a == Dispatch {
      WorkerKeptByDispatch(s);
    } else {
      WorkerKeptByOthers(s, a);
    }
  }
}
