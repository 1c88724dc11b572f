// The disk, handoff, epoch and recovery invariants are kept by every action.
module FarmControlProofs {
  import opened Prelude
  import opened FarmTypes
  import opened FarmMoves
  import opened FarmMachine
  import opened FarmInvariants
  import opened FarmLogical

  // The log grows by at most one sound event.
  predicate LogGrows(log: Log, log': Log, minted: set<nat>) {
    log' == log || (|log'| == |log| + 1 && log' == log + [log'[|log|]] && EventSound(log'[|log|], minted))
  }

  predicate Appends(a: Action) {
    a == ReplayLog || a.FinishAppend? || a == StopClearedAppend || a == RecoverPending || a == RecoverLog
  }

  lemma OnlyAppendsGrow(s: State, a: Action)
    requires Enabled(s, a) && !Appends(a)
    ensures Effect(s, a).disk.log == s.disk.log
  {
  }

  lemma AppendShape(s: State, a: Action)
    requires Enabled(s, a) && Appends(a) && DiskInv(s) && RecoveryInv(s)
    ensures LogGrows(s.disk.log, Effect(s, a).disk.log, s.world.minted)
  {
  }

  lemma LogShape(s: State, a: Action)
    requires Enabled(s, a) && DiskInv(s) && RecoveryInv(s)
    ensures LogGrows(s.disk.log, Effect(s, a).disk.log, s.world.minted)
  {
    if Appends(a) {
      AppendShape(s, a);
    } else {
      OnlyAppendsGrow(s, a);
    }
  }

  lemma MintedGrow(s: State, a: Action)
    requires Enabled(s, a)
    ensures s.world.minted <= Effect(s, a).world.minted
  {
  }

  lemma LogKept(s: State, a: Action)
    requires Enabled(s, a) && Inv(s)
    ensures LogSound(Effect(s, a))
  {
    LogShape(s, a);
    MintedGrow(s, a);
    SoundGrows(s.disk.log, s.world.minted, Effect(s, a).world.minted);
  }

  lemma SoundGrows(log: Log, minted: set<nat>, minted': set<nat>)
    requires minted <= minted' && forall e <- log :: EventSound(e, minted)
    ensures forall e <- log :: EventSound(e, minted')
  {
  }

  // A transaction is prepared only when every deployment event has been recorded.
  lemma JournalByWrite(s: State, a: Action)
    requires Enabled(s, a) && (a.Commit? || a.Hold?) && RecoveryInv(s)
    ensures JournalInv(Effect(s, a))
  {
  }

  lemma JournalByReplay(s: State, a: Action)
    requires Enabled(s, a) && a in {ReplayTask, ReplayUnlink} && DiskInv(s)
    ensures JournalInv(Effect(s, a))
  {
  }

  lemma JournalByAppend(s: State, a: Action)
    requires Enabled(s, a) && Appends(a) && DiskInv(s) && RecoveryInv(s)
    ensures JournalInv(Effect(s, a))
  {
    var log, log' := s.disk.log, Effect(s, a).disk.log;
    assert log' == log + [log'[|log|]];
    IdsAppend(log, log'[|log|]);
  }

  // Deployment and recovery writes come with no transaction prepared, or leave it alone.
  lemma JournalByRest(s: State, a: Action)
    requires Enabled(s, a) && !WritesTasks(a) && !Appends(a) && DiskInv(s) && RecoveryInv(s)
    ensures JournalInv(Effect(s, a))
  {
    OthersLeaveTasks(s, a);
    OnlyAppendsGrow(s, a);
    MintedGrow(s, a);
  }

  lemma JournalKept(s: State, a: Action)
    requires Enabled(s, a) && DiskInv(s) && RecoveryInv(s)
    ensures JournalInv(Effect(s, a))
  {
    if a.Commit? || a.Hold? {
      JournalByWrite(s, a);
    } else if a in {ReplayTask, ReplayUnlink} {
      JournalByReplay(s, a);
    } else if Appends(a) {
      JournalByAppend(s, a);
    } else {
      JournalByRest(s, a);
    }
  }

  lemma DiskKept(s: State, a: Action)
    requires Enabled(s, a) && Inv(s)
    ensures DiskInv(Effect(s, a))
  {
    UniqueStep(s, a);
    LogKept(s, a);
    JournalKept(s, a);
  }

  // The actions that write the control or the identity.
  predicate Deploys(a: Action) {
    a.Boot? || a.Drain? || a.Seal? || a.Claim? || a.StopDrain? || a.StopClearedWrite? || a.RecoverManifest?
  }

  lemma OnlyDeploysWrite(s: State, a: Action)
    requires Enabled(s, a) && !Deploys(a)
    ensures var m, m' := s.disk.manifest, Effect(s, a).disk.manifest;
            m'.control == m.control && m'.identity == m.identity && (m'.pending == m.pending || m'.pending.None?)
  {
  }

  // Nobody else emits a deployment event but one: a stop control is logged as cleared.
  lemma OnlyDeploysEmit(s: State, a: Action)
    requires Enabled(s, a) && !Deploys(a)
    ensures Emitted(s, a).Some? && Emitted(s, a).value.id.DeployEvent? ==>
              a == StopClearedAppend && s.disk.manifest.control.Some? && s.disk.manifest.control.value.id.StopAt?
              && Emitted(s, a).value.id == DeployEvent(s.disk.manifest.control.value.id, FarmStopCleared)
  {
  }

  lemma HandoffByOthers(s: State, a: Action)
    requires Enabled(s, a) && !Deploys(a) && DiskInv(s) && HandoffInv(s) && RecoveryInv(s)
    ensures HandoffInv(Effect(s, a))
  {
    OnlyDeploysWrite(s, a);
    OnlyDeploysEmit(s, a);
    IdsStep(s, a);
  }

  lemma HandoffByDeploy(s: State, a: Action)
    requires Enabled(s, a) && Deploys(a) && DiskInv(s) && HandoffInv(s) && RecoveryInv(s)
    ensures HandoffInv(Effect(s, a))
  {
    IdsStep(s, a);
    LogInAudit(s.disk);
    if a.Drain? || a.StopDrain? {
      NothingOfNew(s, a);
    }
  }

  // A new handoff or stop takes an id under which nothing has been recorded.
  lemma NothingOfNew(s: State, a: Action)
    requires Enabled(s, a) && (a.Drain? || a.StopDrain?) && HandoffInv(s)
    ensures var id := Effect(s, a).disk.manifest.control.value.id;
            forall k :: DeployEvent(id, k) !in Ids(Audit(s.disk))
  {
    LogInAudit(s.disk);
    var id := Effect(s, a).disk.manifest.control.value.id;
    forall k ensures DeployEvent(id, k) !in Ids(Audit(s.disk)) {
      assert DeployEvent(id, k) in Ids(Audit(s.disk)) ==> Opening(id) in Ids(Audit(s.disk));
    }
  }

  lemma HandoffKept(s: State, a: Action)
    requires Enabled(s, a) && DiskInv(s) && HandoffInv(s) && RecoveryInv(s)
    ensures HandoffInv(Effect(s, a))
  {
    if Deploys(a) {
      HandoffByDeploy(s, a);
    } else {
      HandoffByOthers(s, a);
    }
  }

  predicate ReconcilerBound(s: State) {
    s.rec.Some? ==> s.rec.value.epoch == s.disk.manifest.epoch && s.disk.marker.None?
                      && !InPhase(s.disk.manifest, Released) && s.disk.manifest.identity.Some?
  }

  lemma OnlyBootStarts(s: State, a: Action)
    requires Enabled(s, a) && !a.Boot?
    ensures Effect(s, a).rec.Some? ==> s.rec.Some? && Effect(s, a).rec.value.epoch == s.rec.value.epoch
  {
  }

  // What nobody changes while a reconciler runs.
  lemma PlaneStands(s: State, a: Action)
    requires Enabled(s, a) && s.rec.Some? && s.disk.marker.None? && !a.Boot?
    ensures var m, m' := s.disk.manifest, Effect(s, a).disk.manifest;
            m'.epoch == m.epoch && m'.identity == m.identity && (InPhase(m', Released) ==> InPhase(m, Released))
    ensures Effect(s, a).disk.marker.None?
  {
  }

  lemma ReconcilerStaysBound(s: State, a: Action)
    requires Enabled(s, a) && ReconcilerBound(s) && (s.disk.marker.Some? ==> s.rec.None?)
    ensures ReconcilerBound(Effect(s, a))
  {
    if !a.Boot? {
      OnlyBootStarts(s, a);
      if s.rec.Some? {
        PlaneStands(s, a);
      }
    }
  }

  predicate NextEpochUnused(s: State) {
    s.disk.marker.Some? ==> s.disk.marker.value.before == s.disk.manifest ==> Recovered(s.disk.marker.value.id) !in s.world.epochs
  }

  lemma NextEpochStaysUnused(s: State, a: Action)
    requires Enabled(s, a) && EpochInv(s) && RecoveryInv(s)
    ensures NextEpochUnused(Effect(s, a))
  {
  }

  // Every epoch in use is on record, and its id with it.
  predicate EpochsKnown(s: State) {
    && s.disk.manifest.epoch in s.world.epochs
    && (forall x <- s.world.launched :: s.world.launched[x].epoch in s.world.epochs)
    && (forall e <- s.world.epochs | e.Recovered? :: e.rid in s.world.minted)
  }

  // Only a claim and a recovery begin an epoch.
  lemma OnlyTwoChangeEpoch(s: State, a: Action)
    requires Enabled(s, a) && !a.Claim? && a != RecoverManifest
    ensures Effect(s, a).disk.manifest.epoch == s.disk.manifest.epoch && Effect(s, a).world.epochs == s.world.epochs
  {
  }

  // Only a dispatch brings a worker to life.
  lemma OnlyDispatchLaunches(s: State, a: Action)
    requires Enabled(s, a) && a != Dispatch
    ensures Effect(s, a).world.launched == s.world.launched && Effect(s, a).world.live <= s.world.live
  {
  }

  lemma NewEpochsKnown(s: State, a: Action)
    requires Enabled(s, a) && (a == Dispatch || a.Claim? || a == RecoverManifest)
    requires EpochsKnown(s) && ReconcilerBound(s) && RecoveryInv(s)
    ensures EpochsKnown(Effect(s, a))
  {
  }

  lemma EpochsStayKnown(s: State, a: Action)
    requires Enabled(s, a) && EpochsKnown(s) && ReconcilerBound(s) && RecoveryInv(s)
    ensures EpochsKnown(Effect(s, a))
  {
    if a == Dispatch || a.Claim? || a == RecoverManifest {
      NewEpochsKnown(s, a);
    } else {
      OnlyTwoChangeEpoch(s, a);
      OnlyDispatchLaunches(s, a);
      MintedGrow(s, a);
    }
  }

  predicate ClaimsLogged(s: State) {
    forall e <- s.world.epochs | e.HandedOver? :: DeployEvent(Request(e.request), FarmClaimed) in Ids(Audit(s.disk))
  }

  lemma NewEpochs(s: State, a: Action)
    requires Enabled(s, a) && RecoveryInv(s)
    ensures forall e <- Effect(s, a).world.epochs | e.HandedOver? :: e in s.world.epochs || (a.Claim? && e == HandedOver(a.n))
  {
  }

  lemma ClaimsStayLogged(s: State, a: Action)
    requires Enabled(s, a) && DiskInv(s) && HandoffInv(s) && RecoveryInv(s) && ClaimsLogged(s)
    ensures ClaimsLogged(Effect(s, a))
  {
    NewEpochs(s, a);
    IdsStep(s, a);
  }

  lemma EpochKept(s: State, a: Action)
    requires Enabled(s, a) && DiskInv(s) && HandoffInv(s) && EpochInv(s) && RecoveryInv(s)
    ensures EpochInv(Effect(s, a))
  {
    EpochsStayKnown(s, a);
    ClaimsStayLogged(s, a);
    ReconcilerStaysBound(s, a);
    NextEpochStaysUnused(s, a);
  }

  // Nothing has been recorded under a recovery id that is still unused.
  lemma {:induction false} NoHeldYet(log: Log, t: TaskId, rid: nat, minted: set<nat>)
    requires rid !in minted && forall e <- log :: EventSound(e, minted)
    ensures Tally(log, t, {RecoveryHeld(rid)}) == 0
  {
    if log != [] {
      assert EventSound(log[|log| - 1], minted);
      NoHeldYet(log[..|log| - 1], t, rid, minted);
    }
  }

  lemma AuditSound(s: State)
    requires DiskInv(s)
    ensures forall e <- Audit(s.disk) :: EventSound(e, s.world.minted)
  {
  }

  // While the marker stands, a hold is the only action that touches a task.
  lemma OnlyHoldsWrite(s: State, a: Action)
    requires Enabled(s, a) && s.disk.marker.Some? && s.rec.None?
    ensures a.Hold? || (Written(s, a).None? && (Emitted(s, a).Some? ==> Emitted(s, a).value.task.None?))
    ensures !a.Commit? && !a.BeginRecovery? && (a == RecoverDone || Effect(s, a).disk.marker == s.disk.marker)
  {
  }

  // What one hold does to the counts, with the machine out of the way.
  lemma OneHold(r: Recovery, now: Tasks, log: Log, t: TaskId, e: Event)
    requires HoldsCounted(r, now, log) && t in r.changes && t in r.plan
    requires now[t] == r.plan[t] != r.changes[t]
    requires e.task == Some(t) && e.kind == RecoveryHeld(r.id)
    ensures HoldsCounted(r, now[t := r.changes[t]], log + [e])
  {
    forall u <- r.plan {
      CountAdd(log, Some(e), u, {RecoveryHeld(r.id)});
    }
  }

  lemma HoldCounts(s: State, t: TaskId, no: EventNo)
    requires Enabled(s, Hold(t, no)) && DiskInv(s) && HandoffInv(s) && RecoveryInv(s)
    ensures HoldsCounted(s.disk.marker.value, Now(Effect(s, Hold(t, no)).disk), Audit(Effect(s, Hold(t, no)).disk))
  {
    var r, a := s.disk.marker.value, Hold(t, no);
    NowStep(s, a);
    AuditStep(s, a);
    assert r.changes[t] == Held(r.plan[t], r.id) && r.changes[t].id == t;
    OneHold(r, Now(s.disk), Audit(s.disk), t, HoldTxn(r, t, no).event);
  }

  lemma RecoveryCounts(s: State, a: Action)
    requires Enabled(s, a) && DiskInv(s) && HandoffInv(s) && RecoveryInv(s) && s.disk.marker.Some?
    ensures HoldsCounted(s.disk.marker.value, Now(Effect(s, a).disk), Audit(Effect(s, a).disk))
  {
    if a.Hold? {
      HoldCounts(s, a.t, a.no);
    } else {
      OnlyHoldsWrite(s, a);
      NowStep(s, a);
      forall t <- s.disk.marker.value.plan {
        CountStep(s, a, t, {RecoveryHeld(s.disk.marker.value.id)});
      }
    }
  }

  lemma ShapeKeptByHold(s: State, a: Action)
    requires Enabled(s, a) && DiskInv(s) && HandoffInv(s) && RecoveryInv(s) && s.disk.marker.Some? && a.Hold?
    ensures RecoveryShape(Effect(s, a))
  {
    IdsStep(s, a);
    var r := s.disk.marker.value;
    assert r.changes[a.t] == Held(r.plan[a.t], r.id) && r.changes[a.t].id == a.t;
  }

  lemma ShapeKept(s: State, a: Action)
    requires Enabled(s, a) && DiskInv(s) && HandoffInv(s) && RecoveryInv(s) && s.disk.marker.Some? && a != RecoverDone
    ensures RecoveryShape(Effect(s, a))
  {
    if a.Hold? {
      ShapeKeptByHold(s, a);
    } else {
      OnlyHoldsWrite(s, a);
      IdsStep(s, a);
      NowStep(s, a);
      if Effect(s, a).disk.log != s.disk.log {
        IdsAppend(s.disk.log, Effect(s, a).disk.log[|s.disk.log|]);
        assert Effect(s, a).disk.log == s.disk.log + [Effect(s, a).disk.log[|s.disk.log|]];
      }
    }
  }

  lemma RecoveryBegins(s: State, a: Action)
    requires Enabled(s, a) && Inv(s) && a.BeginRecovery?
    ensures RecoveryInv(Effect(s, a))
  {
    AuditSound(s);
    AuditStep(s, a);
    NowStep(s, a);
    var s' := Effect(s, a);
    var r := s'.disk.marker.value;
    forall t <- r.plan
      ensures Tally(Audit(s'.disk), t, {RecoveryHeld(r.id)}) == 0
    {
      NoHeldYet(Audit(s.disk), t, a.rid, s.world.minted);
    }
    assert forall t <- r.changes :: r.changes[t].state == BLOCKED && r.plan[t].lease.Some?;
    if RecoveryEvent(a.rid) in Ids(Audit(s.disk)) {
      MintedInAudit(s, RecoveryEvent(a.rid));
    }
  }

  lemma NoMarkerComes(s: State, a: Action)
    requires Enabled(s, a) && !a.BeginRecovery? && (s.disk.marker.None? || a == RecoverDone)
    ensures Effect(s, a).disk.marker.None?
  {
  }

  lemma RecoveryKept(s: State, a: Action)
    requires Enabled(s, a) && Inv(s)
    ensures RecoveryInv(Effect(s, a))
  {
    if a.BeginRecovery? {
      RecoveryBegins(s, a);
    } else if s.disk.marker.Some? && a != RecoverDone {
      RecoveryGoesOn(s, a);
    } else {
      NoMarkerComes(s, a);
    }
  }

  lemma RecoveryGoesOn(s: State, a: Action)
    requires Enabled(s, a) && DiskInv(s) && HandoffInv(s) && RecoveryInv(s) && s.disk.marker.Some? && a != RecoverDone
    ensures RecoveryInv(Effect(s, a))
  {
    RecoveryCounts(s, a);
    ShapeKept(s, a);
    OnlyHoldsWrite(s, a);
  }
}
