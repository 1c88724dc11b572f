// The safety of the farm over whole runs: any sequence of actions, with a crash possible
// between any two writes.
module FarmTheorems {
  import opened Prelude
  import opened FarmTypes
  import opened FarmMoves
  import opened FarmMachine
  import opened FarmInvariants
  import opened FarmLogical
  import opened FarmControlProofs
  import opened FarmTaskProofs
  import opened FarmCountProofs
  import opened FarmWorkerProofs

  lemma InvKept(s: State, a: Action)
    requires Inv(s)
    ensures Inv(Apply(s, a))
  {
    if Enabled(s, a) {
      DiskKept(s, a);
      HandoffKept(s, a);
      EpochKept(s, a);
      TaskKept(s, a);
      WorkerKept(s, a);
      SealKept(s, a);
      CountKept(s, a);
      RecoveryKept(s, a);
    }
  }

  lemma {:induction false} InvFrom(s: State, run: seq<Action>)
    requires Inv(s)
    ensures Inv(Exec(s, run))
    decreases |run|
  {
    if run != [] {
      InvFrom(s, run[..|run| - 1]);
      InvKept(Exec(s, run[..|run| - 1]), run[|run| - 1]);
    }
  }

  // Every reachable farm satisfies every invariant.
  lemma Always(limit: nat, run: seq<Action>)
    ensures Inv(Exec(Start0(limit), run))
  {
    InvFrom(Start0(limit), run);
  }

  // ------------------------------------------------------- one worker at a time

  // A worker is started or woken only when the task on disk already names its lease, it
  // has no invocation running or queued, and every worker ever dispatched for the task is
  // dead, reported SUBMITTED itself, or was attested stopped.
  lemma LaunchIsSafe(limit: nat, run: seq<Action>)
    ensures var s := Exec(Start0(limit), run);
            Enabled(s, Dispatch) ==>
              var d := s.rec.value.duty.value;
              && d.task in s.disk.tasks && s.disk.tasks[d.task].state == RUNNING
              && s.disk.tasks[d.task].lease == Some(Lease(d.worker, d.lease))
              && d.worker !in s.world.live
              && forall x <- s.world.launched | s.world.launched[x].task == d.task ::
                   x !in s.world.live || x in s.world.reported || x in s.world.attested
  {
    Always(limit, run);
  }

  // --------------------------------------------------------------- restart budget

  lemma Account(limit: nat, spent: nat, credit: nat, decisions: nat, counter: nat)
    requires spent + limit * credit <= limit * decisions + counter && counter <= limit
    ensures spent <= limit * (1 + decisions)
  {
    Times(limit, 0, credit);
    Times(limit, decisions, decisions);
  }

  lemma PaidUp(t: Task, log: Log, limit: nat)
    requires Paid(t, log, limit) && t.meta.automaticRestarts <= limit
    ensures Tally(log, t.id, ADOPTIONS) <= limit * (1 + Tally(log, t.id, DECISIONS))
  {
    Account(limit, Tally(log, t.id, ADOPTIONS), Credit(t), Tally(log, t.id, DECISIONS), t.meta.automaticRestarts);
  }

  lemma NothingOwed(limit: nat, spent: nat, decisions: nat)
    requires spent == 0
    ensures spent <= limit * (1 + decisions)
  {
  }

  lemma BudgetKept(s: State, t: TaskId)
    requires CountInv(s) && TaskInv(s)
    ensures Tally(Audit(s.disk), t, ADOPTIONS) <= s.limit * (1 + Tally(Audit(s.disk), t, DECISIONS))
  {
    var now, log := Now(s.disk), Audit(s.disk);
    if t in now {
      PaidUp(now[t], log, s.limit);
    } else {
      NothingOwed(s.limit, Tally(log, t, ADOPTIONS), Tally(log, t, DECISIONS));
    }
  }

  // Over any run a task is adopted at most max_auto_restarts times, once for free and once
  // more for each ruling, rework or recovery release recorded for it.
  lemma RestartBudget(limit: nat, run: seq<Action>, t: TaskId)
    ensures var log := Audit(Exec(Start0(limit), run).disk);
            Tally(log, t, ADOPTIONS) <= limit * (1 + Tally(log, t, DECISIONS))
  {
    var s := Exec(Start0(limit), run);
    assert s.limit == limit by { LimitFixed(Start0(limit), run); }
    assert CountInv(s) && TaskInv(s) by { Always(limit, run); }
    BudgetKept(s, t);
  }

  lemma {:induction false} LimitFixed(s: State, run: seq<Action>)
    ensures Exec(s, run).limit == s.limit
    decreases |run|
  {
    if run != [] {
      LimitFixed(s, run[..|run| - 1]);
      var s1, a := Exec(s, run[..|run| - 1]), run[|run| - 1];
      if Enabled(s1, a) {
        GrowsMinted(s1, a);
      }
    }
  }

  const RULINGS := {RulingRecorded, RecoveryReleased}

  predicate Paused(s: State, t: TaskId) {
    t in Now(s.disk) && Now(s.disk)[t].meta.restartLimitReached && !Now(s.disk)[t].meta.resumeRequested
  }

  lemma PausedByHold(s: State, t: TaskId, no: EventNo, u: TaskId)
    requires Enabled(s, Hold(t, no)) && DiskInv(s) && HandoffInv(s) && RecoveryInv(s) && Paused(s, u)
    ensures Paused(Effect(s, Hold(t, no)), u)
  {
    NowStep(s, Hold(t, no));
    assert s.disk.marker.value.changes[t] == Held(Now(s.disk)[t], s.disk.marker.value.id);
  }

  lemma RulingCounts(s: State, me: Identity, m: Move, no: EventNo, t: TaskId)
    requires CommitOk(s, me, m, no) && DiskInv(s) && HandoffInv(s) && RecoveryInv(s)
    requires Matches(Transaction(ProposalOf(s, m).value, no).event, t, RULINGS)
    ensures Tally(Audit(Effect(s, Commit(me, m, no)).disk), t, RULINGS) > Tally(Audit(s.disk), t, RULINGS)
  {
    CountStep(s, Commit(me, m, no), t, RULINGS);
  }

  lemma StaysPaused(s: State, me: Identity, m: Move, no: EventNo, t: TaskId)
    requires CommitOk(s, me, m, no) && Paused(s, t)
    requires var u := Transaction(ProposalOf(s, m).value, no).after;
             u.id == t ==> u.meta.restartLimitReached && !u.meta.resumeRequested
    ensures Paused(Effect(s, Commit(me, m, no)), t)
  {
    NowByCommit(s, me, m, no);
  }

  lemma PausedByCommit(s: State, me: Identity, m: Move, no: EventNo, t: TaskId)
    requires CommitOk(s, me, m, no) && Inv(s) && Paused(s, t)
    ensures var s' := Effect(s, Commit(me, m, no));
            Paused(s', t) || Tally(Audit(s'.disk), t, RULINGS) > Tally(Audit(s.disk), t, RULINGS)
  {
    PausedMove(s, me, m, no, t);
    if Matches(Transaction(ProposalOf(s, m).value, no).event, t, RULINGS) {
      RulingCounts(s, me, m, no, t);
    } else {
      StaysPaused(s, me, m, no, t);
    }
  }

  // One action leaves a paused task paused, or records a ruling on it.
  lemma PausedStep(s: State, a: Action, t: TaskId)
    requires Enabled(s, a) && Inv(s) && Paused(s, t)
    ensures Paused(Effect(s, a), t) || Tally(Audit(Effect(s, a).disk), t, RULINGS) > Tally(Audit(s.disk), t, RULINGS)
  {
    if a.Commit? {
      PausedByCommit(s, a.me, a.move, a.no, t);
    } else if a.Hold? {
      PausedByHold(s, a.t, a.no, t);
    } else {
      NowStep(s, a);
      OthersEmitFarmWide(s, a);
    }
  }

  lemma PausedMove(s: State, me: Identity, m: Move, no: EventNo, t: TaskId)
    requires CommitOk(s, me, m, no) && Inv(s) && Paused(s, t)
    ensures var x := Transaction(ProposalOf(s, m).value, no);
            x.after.id == t ==> (x.after.meta.restartLimitReached && !x.after.meta.resumeRequested) || Matches(x.event, t, RULINGS)
  {
    Admitted(s, me, m, no);
  }

  lemma {:induction false} TallyGrows(s: State, run: seq<Action>, t: TaskId, ks: set<Kind>)
    requires Inv(s)
    ensures Tally(Audit(s.disk), t, ks) <= Tally(Audit(Exec(s, run).disk), t, ks)
    decreases |run|
  {
    if run != [] {
      var s1, a := Exec(s, run[..|run| - 1]), run[|run| - 1];
      TallyGrows(s, run[..|run| - 1], t, ks);
      InvFrom(s, run[..|run| - 1]);
      if Enabled(s1, a) {
        CountStep(s1, a, t, ks);
      }
    }
  }

  lemma {:induction false} PausedUntilRuled(s: State, run: seq<Action>, t: TaskId)
    requires Inv(s) && Paused(s, t)
    ensures Paused(Exec(s, run), t) || Tally(Audit(Exec(s, run).disk), t, RULINGS) > Tally(Audit(s.disk), t, RULINGS)
    decreases |run|
  {
    if run != [] {
      var s1, a := Exec(s, run[..|run| - 1]), run[|run| - 1];
      PausedUntilRuled(s, run[..|run| - 1], t);
      InvFrom(s, run[..|run| - 1]);
      if Enabled(s1, a) {
        CountStep(s1, a, t, RULINGS);
        if Paused(s1, t) {
          PausedStep(s1, a, t);
          TallyGrows(s, run[..|run| - 1], t, RULINGS);
        }
      }
    }
  }

  // A task paused at its restart limit runs again only after a ruling has been recorded
  // for it, whatever observers, receipts, rotations or recoveries happen meanwhile.
  lemma RunsOnlyAfterRuling(limit: nat, before: seq<Action>, run: seq<Action>, t: TaskId)
    ensures var s, s' := Exec(Start0(limit), before), Exec(Start0(limit), before + run);
            Paused(s, t) && t in Now(s'.disk) && Now(s'.disk)[t].state == RUNNING ==>
              Tally(Audit(s'.disk), t, RULINGS) > Tally(Audit(s.disk), t, RULINGS)
  {
    ExecConcat(Start0(limit), before, run);
    Always(limit, before);
    Always(limit, before + run);
    var s := Exec(Start0(limit), before);
    if Paused(s, t) {
      PausedUntilRuled(s, run, t);
    }
  }

  // ------------------------------------------------------------ handoff fencing

  // No writer bound to epoch e can commit any more.
  predicate Closed(s: State, e: Epoch) {
    e in s.world.epochs && (s.disk.manifest.epoch != e || InPhase(s.disk.manifest, Released))
  }

  predicate AllDead(s: State, e: Epoch) {
    forall x <- s.world.launched | s.world.launched[x].epoch == e :: x !in s.world.live
  }

  lemma ClosedStep(s: State, a: Action, e: Epoch)
    requires Enabled(s, a) && Inv(s) && Closed(s, e)
    ensures Closed(Effect(s, a), e)
  {
    LogInAudit(s.disk);
    if a.Claim? || a == RecoverManifest {
    } else {
      OnlyTwoChangeEpoch(s, a);
      if s.disk.manifest.epoch == e {
        StaysReleased(s, a);
      }
    }
  }

  lemma StaysReleased(s: State, a: Action)
    requires Enabled(s, a) && HandoffInv(s) && InPhase(s.disk.manifest, Released) && !a.Claim? && a != RecoverManifest
    ensures InPhase(Effect(s, a).disk.manifest, Released)
  {
    if !Deploys(a) {
      OnlyDeploysWrite(s, a);
    } else {
      match a
      case StopClearedWrite =>
      case _ =>
    }
  }

  lemma DeadStep(s: State, a: Action, e: Epoch)
    requires Enabled(s, a) && Inv(s) && Closed(s, e) && AllDead(s, e)
    ensures AllDead(Effect(s, a), e)
  {
    if a != Dispatch {
      OnlyDispatchLaunches(s, a);
    }
  }

  lemma {:induction false} ClosedForever(s: State, run: seq<Action>, e: Epoch)
    requires Inv(s) && Closed(s, e)
    ensures Closed(Exec(s, run), e)
    ensures AllDead(s, e) ==> AllDead(Exec(s, run), e)
    decreases |run|
  {
    if run != [] {
      var s1, a := Exec(s, run[..|run| - 1]), run[|run| - 1];
      ClosedForever(s, run[..|run| - 1], e);
      InvFrom(s, run[..|run| - 1]);
      if Enabled(s1, a) {
        ClosedStep(s1, a, e);
        if AllDead(s1, e) {
          DeadStep(s1, a, e);
        }
      }
    }
  }

  // Once an epoch has been left, or its farm released, no reconciler started in it commits
  // again: the epoch never comes back.
  lemma OldEpochNeverCommits(limit: nat, before: seq<Action>, run: seq<Action>, e: Epoch, me: Identity, dispatch: bool)
    requires Closed(Exec(Start0(limit), before), e)
    ensures !WriterOk(Exec(Start0(limit), before + run).disk, me, dispatch, Some(e))
  {
    ExecConcat(Start0(limit), before, run);
    Always(limit, before);
    ClosedForever(Exec(Start0(limit), before), run, e);
  }

  lemma SealCloses(s: State, me: Identity)
    requires Inv(s) && Enabled(s, Seal(me))
    ensures Closed(Effect(s, Seal(me)), s.disk.manifest.epoch) && AllDead(Effect(s, Seal(me)), s.disk.manifest.epoch)
  {
    SealKept(s, Seal(me));
  }

  lemma ClosedDispatchesNothing(s: State, e: Epoch)
    requires Inv(s) && Closed(s, e) && Enabled(s, Dispatch)
    ensures s.rec.value.epoch != e
  {
  }

  // The release certificate. When a farm is sealed, every worker issued in its epoch is
  // dead; in every later state none of them is alive under that epoch, and no dispatch can
  // happen in it.
  lemma ReleaseCertificate(limit: nat, before: seq<Action>, me: Identity, run: seq<Action>)
    requires Enabled(Exec(Start0(limit), before), Seal(me))
    ensures var e := Exec(Start0(limit), before).disk.manifest.epoch;
            var s' := Exec(Start0(limit), before + [Seal(me)] + run);
            AllDead(s', e) && (Enabled(s', Dispatch) ==> s'.rec.value.epoch != e)
  {
    var s := Exec(Start0(limit), before);
    var e := s.disk.manifest.epoch;
    Always(limit, before);
    SealCloses(s, me);
    assert (before + [Seal(me)])[..|before|] == before;
    var s1 := Exec(Start0(limit), before + [Seal(me)]);
    assert s1 == Effect(s, Seal(me));
    Always(limit, before + [Seal(me)]);
    ExecConcat(Start0(limit), before + [Seal(me)], run);
    ClosedForever(s1, run, e);
    InvFrom(s1, run);
    var s' := Exec(s1, run);
    if Enabled(s', Dispatch) {
      ClosedDispatchesNothing(s', e);
    }
  }

  // While a handoff record stands, one host and build passes the writer check; a draining
  // farm dispatches nothing and a released one commits nothing.
  lemma HandoffFences(limit: nat, run: seq<Action>, a: Identity, b: Identity, x: bool, y: bool, e: Option<Epoch>, f: Option<Epoch>)
    ensures var s := Exec(Start0(limit), run);
            && (s.disk.manifest.control.Some? && WriterOk(s.disk, a, x, e) && WriterOk(s.disk, b, y, f) ==> a == b)
            && (InPhase(s.disk.manifest, Draining) ==> !Enabled(s, Dispatch))
            && (InPhase(s.disk.manifest, Released) ==>
                  !Enabled(s, Dispatch) && forall me, m, no :: !Enabled(s, Commit(me, m, no)))
  {
    Always(limit, run);
    var s := Exec(Start0(limit), run);
    if InPhase(s.disk.manifest, Released) {
      forall me, m, no ensures !Enabled(s, Commit(me, m, no)) {
        assert !CommitOk(s, me, m, no);
      }
    }
  }

  // The tasks a claim finds are the sealed ones, and the named host's claim is never
  // refused for having found anything else.
  lemma ClaimFindsSealedTasks(limit: nat, before: seq<Action>, run: seq<Action>, me: Identity)
    requires var s, s' := Exec(Start0(limit), before), Exec(Start0(limit), before + run);
             && InPhase(s.disk.manifest, Released) && s.disk.marker.None?
             && s'.disk.manifest.control == s.disk.manifest.control && s'.disk.marker.None?
    ensures var s, s' := Exec(Start0(limit), before), Exec(Start0(limit), before + run);
            && s'.disk.tasks == s.disk.tasks
            && (s'.disk.manifest.pending.None? && !s'.disk.torn && s'.disk.manifest.identity.Some?
                && s'.disk.manifest.identity.value.build == me.build
                && s'.disk.manifest.control.value.target == Some(me.host) && s'.disk.manifest.control.value.id.Request? ==>
                  Enabled(s', Claim(me, s'.disk.manifest.control.value.id.n)))
  {
    Always(limit, before);
    Always(limit, before + run);
  }

  // -------------------------------------------------------------- exactly once

  function Occurrences(log: Log, i: EventId): nat {
    if log == [] then 0 else Occurrences(log[..|log| - 1], i) + if log[|log| - 1].id == i then 1 else 0
  }

  lemma {:induction false} UniqueOccurs(log: Log, i: EventId)
    requires Unique(log)
    ensures Occurrences(log, i) == if i in Ids(log) then 1 else 0
  {
    if log != [] {
      var n := |log| - 1;
      UniqueOccurs(log[..n], i);
      assert log == log[..n] + [log[n]];
      IdsAppend(log[..n], log[n]);
      assert forall k | 0 <= k < n :: log[..n][k].id != log[n].id;
    }
  }

  lemma {:induction false} IdsGrow(s: State, run: seq<Action>, i: EventId)
    requires Inv(s) && i in Ids(Audit(s.disk))
    ensures i in Ids(Audit(Exec(s, run).disk))
    decreases |run|
  {
    if run != [] {
      var s1, a := Exec(s, run[..|run| - 1]), run[|run| - 1];
      IdsGrow(s, run[..|run| - 1], i);
      InvFrom(s, run[..|run| - 1]);
      if Enabled(s1, a) {
        IdsStep(s1, a);
      }
    }
  }

  predicate Settled(d: Disk) {
    d.journal.None? && d.manifest.pending.None?
  }

  // The event of every commit, drain, release, claim, stop and recovery is in the log
  // exactly once whenever nothing is pending, no matter how the run was interrupted, and
  // never more than once.
  lemma LoggedExactlyOnce(limit: nat, before: seq<Action>, a: Action, run: seq<Action>)
    requires Enabled(Exec(Start0(limit), before), a) && Emitted(Exec(Start0(limit), before), a).Some?
    ensures var i := Emitted(Exec(Start0(limit), before), a).value.id;
            var d' := Exec(Start0(limit), before + [a] + run).disk;
            && Occurrences(Exec(Start0(limit), before).disk.log, i) == 0
            && Occurrences(d'.log, i) <= 1
            && (Settled(d') ==> Occurrences(d'.log, i) == 1)
  {
    var s := Exec(Start0(limit), before);
    var i := Emitted(s, a).value.id;
    Always(limit, before);
    EmittedFresh(s, a);
    LogInAudit(s.disk);
    IdsStep(s, a);
    assert (before + [a])[..|before|] == before;
    Always(limit, before + [a]);
    ExecConcat(Start0(limit), before + [a], run);
    IdsGrow(Exec(Start0(limit), before + [a]), run, i);
    Always(limit, before + [a] + run);
    var d' := Exec(Start0(limit), before + [a] + run).disk;
    LogUnique(s.disk);
    UniqueOccurs(s.disk.log, i);
    LogUnique(d');
    UniqueOccurs(d'.log, i);
  }

  lemma LogUnique(d: Disk)
    requires Unique(Audit(d))
    ensures Unique(d.log)
  {
    assert d.log <= Audit(d);
    assert forall k | 0 <= k < |d.log| :: d.log[k] == Audit(d)[k];
  }

  // With nothing pending, each task's recorded revisions are 1, 2, ..., its own.
  lemma AuditIsComplete(limit: nat, run: seq<Action>, t: TaskId)
    ensures var d := Exec(Start0(limit), run).disk;
            Settled(d) ==> Revisions(d.log, t) == UpTo(if t in d.tasks then d.tasks[t].meta.revision else 0)
  {
    Always(limit, run);
  }

  // ---------------------------------------------------------- offline recovery

  // What a finished recovery leaves behind.
  ghost predicate RecoveredFrom(r: Recovery, d: Disk) {
    && d.tasks == r.plan + Changes(r.plan, r.id)
    && d.manifest == r.after
    && (forall t <- r.plan | r.plan[t].lease.Some? ::
          && d.tasks[t] == Task(t, BLOCKED, None,
               r.plan[t].meta.(recoveryHold := Some(r.id), runtimeError := None, resumeRequested := false, rotation := None,
                               revision := r.plan[t].meta.revision + 1))
          && Tally(d.log, t, {RecoveryHeld(r.id)}) == 1)
    && (forall t <- r.plan | r.plan[t].lease.None? :: d.tasks[t] == r.plan[t] && Tally(d.log, t, {RecoveryHeld(r.id)}) == 0)
    && Occurrences(d.log, RecoveryEvent(r.id)) == 1
  }

  // Once every hold is on disk the task map is the planned one, each task held or as it was.
  lemma PlanReached(s: State)
    requires RecoveryInv(s) && s.disk.marker.Some? && AllHeld(s.disk, s.disk.marker.value)
    ensures var r := s.disk.marker.value;
            && s.disk.tasks == r.plan + Changes(r.plan, r.id)
            && forall t <- r.plan ::
                 && t in s.disk.tasks && s.disk.tasks[t] == (if r.plan[t].lease.Some? then Held(r.plan[t], r.id) else r.plan[t])
                 && Tally(Audit(s.disk), t, {RecoveryHeld(r.id)}) == if r.plan[t].lease.Some? then 1 else 0
  {
    var r, d := s.disk.marker.value, s.disk;
    assert Now(d) == d.tasks;
    forall t <- r.plan
      ensures t in d.tasks && d.tasks[t] == (if r.plan[t].lease.Some? then Held(r.plan[t], r.id) else r.plan[t])
      ensures Tally(Audit(d), t, {RecoveryHeld(r.id)}) == if r.plan[t].lease.Some? then 1 else 0
    {
      assert t in r.changes <==> r.plan[t].lease.Some?;
      assert Held(r.plan[t], r.id).meta.revision == r.plan[t].meta.revision + 1;
    }
    assert d.tasks == r.plan + r.changes;
  }

  lemma RecoveryEndsWell(s: State)
    requires Inv(s) && Enabled(s, RecoverDone)
    ensures RecoveredFrom(s.disk.marker.value, Effect(s, RecoverDone).disk)
  {
    var r, d := s.disk.marker.value, s.disk;
    assert Audit(d) == d.log;
    LogUnique(d);
    UniqueOccurs(d.log, RecoveryEvent(r.id));
    assert AllHeld(d, r) by { assert RecoveryInv(s); }
    PlanReached(s);
  }

  // However often a recovery was interrupted and retried, the marker comes down only in
  // the one final state its plan determines; no ordinary commit is admitted before that.
  lemma RecoveryConverges(limit: nat, run: seq<Action>)
    ensures var s := Exec(Start0(limit), run);
            s.disk.marker.Some? ==>
              && (forall me, m, no :: !Enabled(s, Commit(me, m, no)))
              && (Enabled(s, RecoverDone) ==> RecoveredFrom(s.disk.marker.value, Effect(s, RecoverDone).disk))
  {
    Always(limit, run);
    var s := Exec(Start0(limit), run);
    if Enabled(s, RecoverDone) {
      RecoveryEndsWell(s);
    }
  }

  // The plan a recovery finishes is the task map it was reviewed on.
  lemma {:induction false} PlanIsFixed(s: State, run: seq<Action>)
    requires s.disk.marker.Some?
    ensures Exec(s, run).disk.marker == s.disk.marker || exists k :: 0 <= k < |run| && Exec(s, run[..k]).disk.marker == s.disk.marker
                                                                    && run[k] == RecoverDone && Enabled(Exec(s, run[..k]), RecoverDone)
    decreases |run|
  {
    if run != [] {
      var n := |run| - 1;
      PlanIsFixed(s, run[..n]);
      var s1, a := Exec(s, run[..n]), run[n];
      if s1.disk.marker == s.disk.marker {
        if a == RecoverDone && Enabled(s1, a) {
          assert Exec(s, run[..n]).disk.marker == s.disk.marker;
        }
      } else {
        var k :| 0 <= k < n && Exec(s, run[..n][..k]).disk.marker == s.disk.marker && run[..n][k] == RecoverDone
                 && Enabled(Exec(s, run[..n][..k]), RecoverDone);
        assert run[..n][..k] == run[..k];
      }
    }
  }

  // A recovery plan is never refused for an unsupported state or duplicate ownership.
  lemma PlanNeverRefused(limit: nat, run: seq<Action>)
    ensures var d := Exec(Start0(limit), run).disk;
            d.journal.None? && d.manifest.identity.Some? ==> PlanOk(d)
  {
    Always(limit, run);
    var s := Exec(Start0(limit), run);
    if s.disk.journal.None? {
      assert Now(s.disk) == s.disk.tasks;
      forall t, u | t in s.disk.tasks && u in s.disk.tasks && t != u
        ensures Apart(s.disk.tasks[t], s.disk.tasks[u])
      {
      }
    }
  }
}
