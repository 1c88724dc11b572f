// What the farm must let through: the writer check and the store admit every commit on a
// fresh snapshot that the phase allows, so a drain can be worked off, sealed and claimed.
module FarmAdmission {
  import opened Prelude
  import opened FarmTypes
  import opened Transitions
  import opened FarmMoves
  import opened FarmMachine
  import opened FarmInvariants
  import opened FarmLogical
  import opened FarmMoveProofs
  import opened FarmControlProofs
  import opened FarmTheorems

  // ------------------------------------------------------------- the writer check

  // With no recovery and no redo record pending, a writer of the current epoch passes: with
  // no control anyone does, under a control the recorded identity does, except that a
  // draining farm withholds dispatches and a released one everything.
  lemma WriterAdmitted(d: Disk, me: Identity, dispatch: bool, epoch: Option<Epoch>)
    ensures WriterOk(d, me, dispatch, epoch) <==>
              && d.marker.None? && d.manifest.pending.None?
              && (epoch == None || epoch == Some(d.manifest.epoch))
              && match d.manifest.control
                 case None => true
                 case Some(c) =>
                   d.manifest.identity == Some(me) && (c.phase == Claimed || (c.phase == Draining && !dispatch))
  {
  }

  // A running reconciler is the recorded one.
  predicate RecOwns(s: State) {
    s.rec.Some? ==> s.disk.manifest.identity == Some(s.rec.value.me)
  }

  lemma OnlyBootNames(s: State, a: Action)
    requires Enabled(s, a) && !a.Boot?
    ensures Effect(s, a).rec.Some? ==> s.rec.Some? && Effect(s, a).rec.value.me == s.rec.value.me
  {
  }

  lemma RecOwnsStep(s: State, a: Action)
    requires Enabled(s, a) && RecOwns(s) && (s.disk.marker.Some? ==> s.rec.None?)
    ensures RecOwns(Effect(s, a))
  {
    if !a.Boot? {
      OnlyBootNames(s, a);
      if s.rec.Some? {
        PlaneStands(s, a);
      }
    }
  }

  lemma {:induction false} RecOwnsAlways(limit: nat, run: seq<Action>)
    ensures RecOwns(Exec(Start0(limit), run))
    decreases |run|
  {
    if run != [] {
      var s1, a := Exec(Start0(limit), run[..|run| - 1]), run[|run| - 1];
      RecOwnsAlways(limit, run[..|run| - 1]);
      assert RecoveryInv(s1) by { Always(limit, run[..|run| - 1]); }
      if Enabled(s1, a) {
        RecOwnsStep(s1, a);
      }
    }
  }

  // ------------------------------------------------------------- the store's checks

  // The state graph never stands in the way of a proposal.
  lemma MoveLegal(m: Move, epoch: Epoch, obs: Option<Obs>, limit: nat)
    requires Propose(m, epoch, obs, limit).Some? && FromGood(Propose(m, epoch, obs, limit).value, limit)
    ensures var p := Propose(m, epoch, obs, limit).value;
            p.expected.Some? && p.expected.value.state != p.task.state ==>
              TransitionTask(p.expected.value, p.task.state, LeaseIdOf(p.expected.value), p.task.meta.acceptance.Some?,
                             p.task.meta, p.task.lease).Ok?
  {
  }

  // Only a creation and the release of a recovery hold reserve a workspace anew.
  predicate Reserves(p: Proposal) {
    p.expected.None? || (p.expected.value.state == BLOCKED && p.task.state != BLOCKED)
  }

  lemma OnlyTwoReserve(m: Move, epoch: Epoch, obs: Option<Obs>, limit: nat)
    requires Propose(m, epoch, obs, limit).Some? && FromGood(Propose(m, epoch, obs, limit).value, limit)
    ensures var p := Propose(m, epoch, obs, limit).value;
            p.task.state in {READY, RUNNING, WAITING, SUBMITTED} && !Reserves(p) ==>
              p.expected.value.state in {READY, RUNNING, WAITING, SUBMITTED}
              && p.task.meta.workspace == p.expected.value.meta.workspace && p.task.id == p.expected.value.id
  {
    MoveKeepsIdentity(m, epoch, obs, limit);
  }

  // No other unfinished task works in this workspace.
  predicate WorkspaceFree(tasks: Tasks, t: Task) {
    forall o <- tasks | o != t.id && tasks[o].meta.workspace.Some? && tasks[o].meta.workspace == t.meta.workspace ::
      tasks[o].state in {BLOCKED, DONE, FAILED}
  }

  // A proposal made on the task as it is on disk is never refused as stale, illegal or for
  // its workspace, unless it reserves one that another unfinished task has.
  lemma FreshIsAdmissible(tasks: Tasks, m: Move, epoch: Epoch, obs: Option<Obs>, limit: nat)
    requires Propose(m, epoch, obs, limit).Some? && FromGood(Propose(m, epoch, obs, limit).value, limit)
    requires var p := Propose(m, epoch, obs, limit).value;
             && Lookup(tasks, p.task.id) == p.expected
             && (Reserves(p) ==> WorkspaceFree(tasks, p.task))
    requires forall t, u | t in tasks && u in tasks && t != u :: Apart(tasks[t], tasks[u])
    ensures Admissible(tasks, Propose(m, epoch, obs, limit).value)
  {
    var p := Propose(m, epoch, obs, limit).value;
    MoveLegal(m, epoch, obs, limit);
    OnlyTwoReserve(m, epoch, obs, limit);
    if !Reserves(p) {
      forall o <- tasks | o != p.task.id ensures Apart(tasks[p.task.id], tasks[o]) {
      }
    }
  }

  // The phase admits the move: anyone's commit while there is no control, the recorded
  // plane's afterwards, but no dispatch while draining and nothing once released.
  predicate PhaseAdmits(s: State, me: Identity, m: Move, dispatch: bool) {
    match s.disk.manifest.control
    case None => true
    case Some(c) =>
      (ByReconciler(m) || s.disk.manifest.identity == Some(me)) && (c.phase == Claimed || (c.phase == Draining && !dispatch))
  }

  predicate IdsUnused(s: State, m: Move, no: EventNo) {
    && no !in s.world.minted && no !in Minted(m) && Minted(m) !! s.world.minted
    && (m.Start? || m.Adopt? ==> m.worker != m.lease)
  }

  lemma AdmittedByState(s: State, me: Identity, m: Move, no: EventNo)
    requires Inv(s) && RecOwns(s) && Unlocked(s) && s.disk.journal.None? && s.disk.marker.None? && s.disk.manifest.pending.None?
    requires IdsUnused(s, m, no) && (ByReconciler(m) ==> s.rec.Some? && s.rec.value.me == me) && ProposalOf(s, m).Some?
    requires var p := ProposalOf(s, m).value;
             && Lookup(s.disk.tasks, p.task.id) == p.expected && (Reserves(p) ==> WorkspaceFree(s.disk.tasks, p.task))
             && PhaseAdmits(s, me, m, p.dispatch.Some?)
    ensures Enabled(s, Commit(me, m, no))
  {
    var p := ProposalOf(s, m).value;
    var epoch, obs := if ByReconciler(m) then s.rec.value.epoch else Initial, if ByReconciler(m) then s.rec.value.obs else None;
    FreshGood(s, p);
    FreshIsAdmissible(s.disk.tasks, m, epoch, obs, s.limit);
    WriterAdmitted(s.disk, me, p.dispatch.Some?, if ByReconciler(m) then Some(epoch) else None);
  }

  lemma FreshGood(s: State, p: Proposal)
    requires TaskInv(s) && s.disk.journal.None? && Lookup(s.disk.tasks, p.task.id) == p.expected
    ensures FromGood(p, s.limit)
    ensures forall t, u | t in s.disk.tasks && u in s.disk.tasks && t != u :: Apart(s.disk.tasks[t], s.disk.tasks[u])
  {
    assert Now(s.disk) == s.disk.tasks;
  }

  // Whatever has happened before: with nothing pending, a move proposed on the task as it
  // is on disk can be committed whenever the phase admits it.
  lemma FreshCommitEnabled(limit: nat, run: seq<Action>, me: Identity, m: Move, no: EventNo)
    requires var s := Exec(Start0(limit), run);
             && Unlocked(s) && s.disk.journal.None? && s.disk.marker.None? && s.disk.manifest.pending.None?
             && IdsUnused(s, m, no) && (ByReconciler(m) ==> s.rec.Some? && s.rec.value.me == me) && ProposalOf(s, m).Some?
             && var p := ProposalOf(s, m).value;
                && Lookup(s.disk.tasks, p.task.id) == p.expected && (Reserves(p) ==> WorkspaceFree(s.disk.tasks, p.task))
                && PhaseAdmits(s, me, m, p.dispatch.Some?)
    ensures Enabled(Exec(Start0(limit), run), Commit(me, m, no))
  {
    Always(limit, run);
    RecOwnsAlways(limit, run);
    AdmittedByState(Exec(Start0(limit), run), me, m, no);
  }

  // ------------------------------------------------------------- working off a drain

  // While the farm drains, the reconciler can retire a positively dead holder that left a
  // checkpoint for its rotation.
  lemma DrainRetires(limit: nat, run: seq<Action>, id: TaskId, no: EventNo)
    requires var s := Exec(Start0(limit), run);
             && InPhase(s.disk.manifest, Draining) && s.disk.journal.None? && s.disk.manifest.pending.None? && no !in s.world.minted
             && s.rec.Some? && s.rec.value.duty.None? && s.rec.value.obs.Some? && id in s.disk.tasks
             && var t, o := s.disk.tasks[id], s.rec.value.obs.value;
                && t.state == WAITING && t.lease.Some? && t.meta.rotation.Some? && t.meta.rotation.value.checkpoint.Some?
                && o.worker == t.lease.value.worker && o.alive == Dead
    ensures var s := Exec(Start0(limit), run);
            var a := Commit(s.rec.value.me, Retire(s.disk.tasks[id]), no);
            && Enabled(s, a)
            && Now(Effect(s, a).disk)[id].state == WAITING && Now(Effect(s, a).disk)[id].lease.None?
  {
    var s := Exec(Start0(limit), run);
    var t := s.disk.tasks[id];
    Always(limit, run);
    RetireProposed(s, id);
    FreshCommitEnabled(limit, run, s.rec.value.me, Retire(t), no);
    NowByCommit(s, s.rec.value.me, Retire(t), no);
  }

  lemma RetireProposed(s: State, id: TaskId)
    requires Inv(s) && s.disk.journal.None? && s.rec.Some? && s.rec.value.obs.Some? && id in s.disk.tasks
    requires var t, o := s.disk.tasks[id], s.rec.value.obs.value;
             && t.state == WAITING && t.lease.Some? && t.meta.rotation.Some? && t.meta.rotation.value.checkpoint.Some?
             && o.worker == t.lease.value.worker && o.alive == Dead
    ensures s.disk.marker.None?
    ensures var p := ProposalOf(s, Retire(s.disk.tasks[id]));
            && p.Some? && p.value.task.id == id && p.value.expected == Some(s.disk.tasks[id]) && p.value.dispatch.None?
            && p.value.task.state == WAITING && p.value.task.lease.None?
  {
    assert Now(s.disk) == s.disk.tasks;
    assert Good(s.disk.tasks[id], s.limit);
  }

  // ------------------------------------------------------------- carrying a handoff through

  lemma ExecNext(s: State, run: seq<Action>, a: Action)
    ensures Exec(s, run + [a]) == Apply(Exec(s, run), a)
  {
    assert (run + [a])[..|run|] == run;
  }

  lemma ExecFour(s: State, a: Action, b: Action, c: Action, d: Action)
    ensures Exec(s, [a, b, c, d]) == Apply(Apply(Apply(Apply(s, a), b), c), d)
  {
    ExecNext(s, [], a);
    assert [] + [a] == [a];
    ExecNext(s, [a], b);
    assert [a] + [b] == [a, b];
    ExecNext(s, [a, b], c);
    assert [a, b] + [c] == [a, b, c];
    ExecNext(s, [a, b, c], d);
    assert [a, b, c] + [d] == [a, b, c, d];
  }

  // Drained: the daemon has stopped, no task is leased any more, and nobody issued in this
  // epoch is alive.
  predicate Drained(s: State, me: Identity, n: nat, target: nat) {
    var d := s.disk;
    && s.rec.None? && d.marker.None? && d.journal.None? && d.manifest.pending.None? && !d.torn
    && d.manifest.identity == Some(me)
    && d.manifest.control == Some(Control(Request(n), Draining, Some(target), None))
    && (forall t <- d.tasks :: d.tasks[t].lease.None?)
    && (forall t <- d.tasks | d.tasks[t].meta.dispatches.Some? && d.tasks[t].meta.dispatches.value.epoch == d.manifest.epoch ::
          forall w <- d.tasks[t].meta.dispatches.value.workers :: w !in s.world.live)
  }

  function ReleasedControl(s: State, n: nat, target: nat): Control {
    Control(Request(n), Released, Some(target), Some(s.disk.tasks))
  }

  function AfterSeal(s: State, me: Identity, n: nat, target: nat): State {
    s.(disk := s.disk.(archives := s.disk.archives[Request(n) := s.disk.tasks],
                       manifest := s.disk.manifest.(control := Some(ReleasedControl(s, n, target))),
                       log := s.disk.log + [Event(DeployEvent(Request(n), FarmReleased), None, FarmReleased, 0)]))
  }

  lemma DrainedQuiesces(s: State, me: Identity, n: nat, target: nat)
    requires Inv(s) && Drained(s, me, n, target)
    ensures Enabled(s, Archive(me)) && Enabled(Effect(s, Archive(me)), Seal(me))
  {
    assert Now(s.disk) == s.disk.tasks;
    forall t <- s.disk.tasks ensures s.disk.tasks[t].state != RUNNING && (s.disk.tasks[t].state == WAITING ==> CleanSurrender(s.disk.tasks[t])) {
      assert Good(s.disk.tasks[t], s.limit);
    }
  }

  // The id's later events are not in the log yet.
  lemma NotYetLogged(s: State, n: nat)
    requires Inv(s) && s.disk.manifest.control.Some? && s.disk.manifest.control.value.id == Request(n)
    requires s.disk.manifest.control.value.phase == Draining
    ensures DeployEvent(Request(n), FarmReleased) !in Ids(s.disk.log) && DeployEvent(Request(n), FarmClaimed) !in Ids(s.disk.log)
  {
    LogInAudit(s.disk);
  }

  lemma SealCarriedOut(s: State, me: Identity, n: nat, target: nat)
    requires Inv(s) && Drained(s, me, n, target)
    ensures Exec(s, [Archive(me), Seal(me), FinishAppend(me, false), FinishClear(me, false)]) == AfterSeal(s, me, n, target)
  {
    DrainedQuiesces(s, me, n, target);
    NotYetLogged(s, n);
    ExecFour(s, Archive(me), Seal(me), FinishAppend(me, false), FinishClear(me, false));
    var s2 := Effect(Effect(s, Archive(me)), Seal(me));
    RedoFinishes(s2, me);
  }

  // A published redo record of one's own farm is finished in two writes.
  lemma RedoFinishes(s: State, me: Identity)
    requires s.rec.None? && s.disk.marker.None? && !s.disk.torn && s.disk.manifest.identity == Some(me)
    requires s.disk.manifest.pending.Some? && s.disk.manifest.pending.value.id !in Ids(s.disk.log)
    ensures Apply(Apply(s, FinishAppend(me, false)), FinishClear(me, false)) ==
              s.(disk := s.disk.(log := s.disk.log + [s.disk.manifest.pending.value], manifest := s.disk.manifest.(pending := None)))
  {
    IdsAppend(s.disk.log, s.disk.manifest.pending.value);
  }

  function Claimant(me: Identity, target: nat): Identity {
    Identity(target, me.build)
  }

  function AfterClaim(s: State, me: Identity, n: nat, target: nat): State {
    var d := AfterSeal(s, me, n, target).disk;
    var c := ReleasedControl(s, n, target).(phase := Claimed);
    State(d.(manifest := Manifest(Some(Claimant(me, target)), HandedOver(n), Some(c), None),
             log := d.log + [Event(DeployEvent(Request(n), FarmClaimed), None, FarmClaimed, 0)]),
          Some(Rec(Claimant(me, target), HandedOver(n), None, None)),
          s.world.(epochs := s.world.epochs + {HandedOver(n)}), s.limit)
  }

  lemma ClaimCarriedOut(s: State, me: Identity, n: nat, target: nat)
    requires Inv(s) && Drained(s, me, n, target)
    ensures var him := Claimant(me, target);
            Exec(AfterSeal(s, me, n, target), [Claim(him, n), FinishAppend(him, false), FinishClear(him, false), Boot(him)])
            == AfterClaim(s, me, n, target)
  {
    var s4, him := AfterSeal(s, me, n, target), Claimant(me, target);
    ExecFour(s4, Claim(him, n), FinishAppend(him, false), FinishClear(him, false), Boot(him));
    ClaimTaken(s, me, n, target);
    RedoFinishes(JustClaimed(s, me, n, target), him);
  }

  // The claim with its redo record still to be finished.
  function JustClaimed(s: State, me: Identity, n: nat, target: nat): State {
    var s4, c := AfterSeal(s, me, n, target), ReleasedControl(s, n, target).(phase := Claimed);
    s4.(disk := s4.disk.(manifest := Manifest(Some(Claimant(me, target)), HandedOver(n), Some(c), Some(Deployed(c, FarmClaimed)))),
        world := s4.world.(epochs := s4.world.epochs + {HandedOver(n)}))
  }

  lemma ClaimTaken(s: State, me: Identity, n: nat, target: nat)
    requires Inv(s) && Drained(s, me, n, target)
    ensures Apply(AfterSeal(s, me, n, target), Claim(Claimant(me, target), n)) == JustClaimed(s, me, n, target)
    ensures DeployEvent(Request(n), FarmClaimed) !in Ids(AfterSeal(s, me, n, target).disk.log)
  {
    NotYetLogged(s, n);
    IdsAppend(s.disk.log, Event(DeployEvent(Request(n), FarmReleased), None, FarmReleased, 0));
  }

  // A drained farm can be handed over to the end, whatever came before: its own host seals
  // it, the named target with the same build claims it and starts a reconciler on the very
  // tasks that were sealed, in an epoch of its own.
  lemma HandoffCompletes(limit: nat, run: seq<Action>, me: Identity, n: nat, target: nat)
    requires Drained(Exec(Start0(limit), run), me, n, target)
    ensures var s, him := Exec(Start0(limit), run), Claimant(me, target);
            var s' := Exec(Start0(limit), run + [Archive(me), Seal(me), FinishAppend(me, false), FinishClear(me, false)]
                                              + [Claim(him, n), FinishAppend(him, false), FinishClear(him, false), Boot(him)]);
            && s' == AfterClaim(s, me, n, target)
            && s'.rec == Some(Rec(him, HandedOver(n), None, None)) && s'.disk.tasks == s.disk.tasks
            && (forall k, h :: h != target && DeployEvent(Request(k), FarmDrained) !in Ids(s'.disk.log) ==> Enabled(s', Drain(him, k, h)))
  {
    var s, him := Exec(Start0(limit), run), Claimant(me, target);
    var seal := [Archive(me), Seal(me), FinishAppend(me, false), FinishClear(me, false)];
    var claim := [Claim(him, n), FinishAppend(him, false), FinishClear(him, false), Boot(him)];
    Always(limit, run);
    ExecConcat(Start0(limit), run, seal);
    ExecConcat(Start0(limit), run + seal, claim);
    SealCarriedOut(s, me, n, target);
    ClaimCarriedOut(s, me, n, target);
  }
}
