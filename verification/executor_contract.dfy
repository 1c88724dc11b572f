// The farm and the executors of all its workers, side by side. What the farm model takes
// for granted about liveness and receipts is what the executors deliver, so the farm's
// launch safety becomes a statement about real invocations.
module ExecutorContract {
  import opened Prelude
  import opened FarmTypes
  import opened FarmMoves
  import F = FarmMachine
  import H = FarmHistory
  import I = FarmInvariants
  import P = FarmControlProofs
  import T = FarmTheorems
  import X = Executor

  // `history` is the farm run this joint run amounts to.
  datatype Joint = Joint(farm: F.State, workers: map<WorkerId, X.Sys>, history: seq<F.Action>)

  datatype Step =
    | Own(b: F.Action)
    | Execute(w: WorkerId, a: X.Action)
    | Observed(w: WorkerId, at: X.Runtime, proc: X.Lookup, receipt: Option<Receipt>)

  function Of(j: Joint, w: WorkerId): X.Sys {
    if w in j.workers then j.workers[w] else X.START
  }

  // Actions the executors decide, not the farm.
  predicate Foreign(b: F.Action) {
    b == F.Dispatch || b.Die? || b.Report? || b.Poll?
  }

  // The liveness poll() answers with.
  function Polled(s: X.Sys, at: X.Runtime, proc: X.Lookup): Liveness {
    if s.saved.None? then Liveness.Unknown else X.Observe(s.pidfile, s.saved.value, X.IdentOf(at), proc)
  }

  // A receipt as the farm reads it from a surfaced file.
  predicate Reads(s: X.Sys, w: WorkerId, r: Option<Receipt>) {
    r.Some? ==> X.Surfaced(s) && (r.value.status == SubmittedReceipt && r.value.worker == w ==> s.receipt.value.submitted)
  }

  // The dispatch the farm owes is one of worker w for this owner.
  predicate Asks(d: Duty, w: WorkerId, o: X.Owner) {
    d.worker == w && o == X.Owner(d.task, d.lease)
  }

  predicate Can(j: Joint, t: Step) {
    match t
    case Own(b) => F.Enabled(j.farm, b) && !Foreign(b)
    case Execute(w, a) =>
      X.Enabled(Of(j, w), a) && (a.Prepare? ==> F.Enabled(j.farm, F.Dispatch) && Asks(j.farm.rec.value.duty.value, w, a.owner))
    case Observed(w, at, proc, r) =>
      && j.farm.rec.Some? && j.farm.rec.value.duty.None?
      && X.UpAt(Of(j, w), at.place) && X.Truthful(Of(j, w), at.place, proc) && Reads(Of(j, w), w, r)
  }

  // What one executor step means to the farm.
  function Echo(w: WorkerId, s: X.Sys, a: X.Action): Option<F.Action>
    requires X.Enabled(s, a)
  {
    if a.Prepare? then Some(F.Dispatch)
    else if a.WriteReceipt? && a.submitted then Some(F.Report(w))
    else if !X.Quiet(s) && X.Quiet(X.Do(s, a)) then Some(F.Die(w))
    else None
  }

  function Take(j: Joint, b: F.Action): Joint {
    j.(farm := F.Apply(j.farm, b), history := j.history + [b])
  }

  function Do(j: Joint, t: Step): Joint
    requires Can(j, t)
  {
    match t
    case Own(b) => Take(j, b)
    case Execute(w, a) =>
      var j' := j.(workers := j.workers[w := X.Do(Of(j, w), a)]);
      var b := Echo(w, Of(j, w), a);
      if b.Some? then Take(j', b.value) else j'
    case Observed(w, at, proc, r) => Take(j, F.Poll(Obs(w, Polled(Of(j, w), at, proc), r)))
  }

  function Run(j: Joint, run: seq<Step>): Joint
    decreases |run|
  {
    if run == [] then j else
    var before := Run(j, run[..|run| - 1]);
    if Can(before, run[|run| - 1]) then Do(before, run[|run| - 1]) else before
  }

  function Start(limit: nat): Joint {
    Joint(F.Start0(limit), map[], [])
  }

  // The farm's picture of worker w is right.
  predicate Related(f: F.State, w: WorkerId, s: X.Sys) {
    && X.Inv(s)
    && (w in f.world.live <==> !X.Quiet(s))
    && (s.receipt.Some? && s.receipt.value.submitted ==> w in f.world.reported)
  }

  ghost predicate Agree(j: Joint, limit: nat) {
    && (forall w: WorkerId :: Related(j.farm, w, Of(j, w)))
    && j.farm == F.Exec(F.Start0(limit), j.history)
  }

  lemma HistoryGrows(j: Joint, b: F.Action, limit: nat)
    requires j.farm == F.Exec(F.Start0(limit), j.history)
    ensures Take(j, b).farm == F.Exec(F.Start0(limit), Take(j, b).history)
  {
    assert (j.history + [b])[..|j.history|] == j.history;
  }

  // The farm's own actions start, stop and report nothing.
  lemma OwnLeavesWorkers(f: F.State, b: F.Action)
    requires F.Enabled(f, b) && !Foreign(b)
    ensures F.Effect(f, b).world.live == f.world.live && F.Effect(f, b).world.reported == f.world.reported
  {
  }

  predicate Submitted(s: X.Sys) {
    s.receipt.Some? && s.receipt.value.submitted
  }

  // What a step other than a preparation shows to the outside.
  lemma StepShows(s: X.Sys, a: X.Action)
    requires X.Inv(s) && X.Enabled(s, a) && !a.Prepare?
    ensures X.Quiet(s) ==> X.Quiet(X.Do(s, a))
    ensures a.WriteReceipt? ==> !X.Quiet(s) && !X.Quiet(X.Do(s, a))
    ensures Submitted(X.Do(s, a)) ==> Submitted(s) || (a.WriteReceipt? && a.submitted)
  {
    if X.Quiet(s) {
      X.QuietStays(s, a);
    }
    if a.WriteReceipt? {
      assert X.Active(s.passes[a.i]);
      assert X.Active(X.Do(s, a).passes[a.i]);
    }
  }

  // A preparation shows as the invocation it commits the executor to.
  lemma PrepareShows(s: X.Sys, a: X.Action)
    requires X.Inv(s) && X.Enabled(s, a) && a.Prepare?
    ensures X.Quiet(s) && !X.Quiet(X.Do(s, a)) && (Submitted(X.Do(s, a)) ==> Submitted(s))
  {
    X.PreparingFencesTheReceipt(s, a.a, a.owner);
    assert X.Dispatching(X.Do(s, a));
  }

  // One executor step and its echo agree on the worker that took it, and leave the others alone.
  lemma ExecuteAgrees(f: F.State, w: WorkerId, s: X.Sys, a: X.Action)
    requires Related(f, w, s) && X.Enabled(s, a)
    requires a.Prepare? ==> F.Enabled(f, F.Dispatch) && f.rec.value.duty.value.worker == w
    ensures var b := Echo(w, s, a);
            var f' := if b.Some? then F.Apply(f, b.value) else f;
            && Related(f', w, X.Do(s, a))
            && (forall x: WorkerId | x != w :: (x in f'.world.live <==> x in f.world.live) && (x in f.world.reported ==> x in f'.world.reported))
  {
    assert X.Inv(X.Do(s, a)) by { X.Kept(s, a); }
    if a.Prepare? {
      PrepareShows(s, a);
    } else {
      StepShows(s, a);
    }
  }

  // Whatever poll() reports is an observation the farm model admits.
  lemma PollIsHonest(f: F.State, w: WorkerId, s: X.Sys, at: X.Runtime, proc: X.Lookup, r: Option<Receipt>)
    requires Related(f, w, s) && f.rec.Some? && f.rec.value.duty.None?
    requires X.UpAt(s, at.place) && X.Truthful(s, at.place, proc) && Reads(s, w, r)
    ensures F.Enabled(f, F.Poll(Obs(w, Polled(s, at, proc), r)))
  {
    if s.saved.Some? {
      if Polled(s, at, proc) == Dead {
        X.DeadIsQuiet(s, at, proc);
      } else if Polled(s, at, proc) == Liveness.Alive {
        X.AliveIsBusy(s, at, proc);
      }
    }
  }

  // The farm's own actions, and its polls, leave its picture of a worker as it is.
  lemma RelatedByFarm(f: F.State, b: F.Action, w: WorkerId, s: X.Sys)
    requires Related(f, w, s) && (b.Poll? || !Foreign(b))
    ensures Related(F.Apply(f, b), w, s)
  {
    if F.Enabled(f, b) && !b.Poll? {
      OwnLeavesWorkers(f, b);
    }
  }

  lemma RelatedByStep(j: Joint, t: Step, w: WorkerId)
    requires Can(j, t) && Related(j.farm, w, Of(j, w))
    requires t.Execute? ==> Related(j.farm, t.w, Of(j, t.w))
    ensures Related(Do(j, t).farm, w, Of(Do(j, t), w))
  {
    match t
    case Own(b) => RelatedByFarm(j.farm, b, w, Of(j, w));
    case Execute(x, a) => ExecuteAgrees(j.farm, x, Of(j, x), a);
    case Observed(x, at, proc, r) => RelatedByFarm(j.farm, F.Poll(Obs(x, Polled(Of(j, x), at, proc), r)), w, Of(j, w));
  }

  // What the farm does in a joint step is a step of the farm.
  lemma HistoryByStep(j: Joint, t: Step, limit: nat)
    requires Can(j, t) && j.farm == F.Exec(F.Start0(limit), j.history)
    ensures Do(j, t).farm == F.Exec(F.Start0(limit), Do(j, t).history)
  {
    match t
    case Own(b) => HistoryGrows(j, b, limit);
    case Execute(x, a) =>
      if Echo(x, Of(j, x), a).Some? {
        HistoryGrows(j, Echo(x, Of(j, x), a).value, limit);
      }
    case Observed(x, at, proc, r) => HistoryGrows(j, F.Poll(Obs(x, Polled(Of(j, x), at, proc), r)), limit);
  }

  lemma StepAgrees(j: Joint, t: Step, limit: nat)
    requires Agree(j, limit) && Can(j, t)
    ensures Agree(Do(j, t), limit)
  {
    HistoryByStep(j, t, limit);
    forall w: WorkerId ensures Related(Do(j, t).farm, w, Of(Do(j, t), w)) {
      assert Related(j.farm, w, Of(j, w)) && (t.Execute? ==> Related(j.farm, t.w, Of(j, t.w)));
      RelatedByStep(j, t, w);
    }
  }

  // The executors discharge the farm's assumptions in every joint run.
  lemma {:induction false} ContractHolds(limit: nat, run: seq<Step>)
    ensures Agree(Run(Start(limit), run), limit)
    decreases |run|
  {
    if run != [] {
      var j, t := Run(Start(limit), run[..|run| - 1]), run[|run| - 1];
      ContractHolds(limit, run[..|run| - 1]);
      if Can(j, t) {
        StepAgrees(j, t, limit);
      }
    }
  }

  // End to end: at the moment an executor commits itself to an invocation of worker w,
  // the task on disk names w's lease, and of every worker ever dispatched for that task no
  // invocation is running, queued or about to be, unless it reported SUBMITTED itself or
  // was attested stopped.
  lemma NoSecondInvocation(limit: nat, run: seq<Step>, w: WorkerId, a: X.Attempt, o: X.Owner)
    ensures var j := Run(Start(limit), run);
            Can(j, Execute(w, X.Prepare(a, o))) ==>
              var d := j.farm.rec.value.duty.value;
              && d.worker == w && d.task in j.farm.disk.tasks && j.farm.disk.tasks[d.task].lease == Some(Lease(w, d.lease))
              && X.Quiet(Of(j, w))
              && forall x <- j.farm.world.launched | j.farm.world.launched[x].task == d.task ::
                   X.Quiet(Of(j, x)) || x in j.farm.world.reported || x in j.farm.world.attested
  {
    var j := Run(Start(limit), run);
    ContractHolds(limit, run);
    if Can(j, Execute(w, X.Prepare(a, o))) {
      T.LaunchIsSafe(limit, j.history);
      forall x <- j.farm.world.launched | j.farm.world.launched[x].task == j.farm.rec.value.duty.value.task
        ensures X.Quiet(Of(j, x)) || x in j.farm.world.reported || x in j.farm.world.attested
      {
        assert Related(j.farm, x, Of(j, x));
      }
      assert Related(j.farm, w, Of(j, w));
    }
  }

  // ------------------------------------------------------ the persisted task and lease

  // What a worker was issued for is what it holds, if it still holds anything.
  predicate Owned(f: F.State, w: WorkerId, s: X.Sys) {
    s.saved.Some? ==>
      && w in f.world.launched
      && forall t <- Now(f.disk) | Holds(Now(f.disk)[t], w) :: s.saved.value.owner == X.Owner(t, Now(f.disk)[t].lease.value.id)
  }

  lemma OwnedByFarmStep(f: F.State, b: F.Action, w: WorkerId, s: X.Sys)
    requires F.Enabled(f, b) && I.Inv(f) && Owned(f, w, s)
    ensures Owned(F.Effect(f, b), w, s)
  {
    if s.saved.Some? {
      H.LeaseStays(f, b, w);
      if b != F.Dispatch {
        P.OnlyDispatchLaunches(f, b);
      }
    }
  }

  // The farm dispatches a worker for the one task and lease it holds.
  lemma DispatchOwned(f: F.State, s: X.Sys)
    requires F.Enabled(f, F.Dispatch) && I.Inv(f)
    requires var d := f.rec.value.duty.value; s.saved.Some? ==> s.saved.value.owner == X.Owner(d.task, d.lease)
    ensures Owned(F.Effect(f, F.Dispatch), f.rec.value.duty.value.worker, s)
  {
    var d, now := f.rec.value.duty.value, Now(f.disk);
    assert I.DutyInv(f, d);
    forall t <- now | Holds(now[t], d.worker) ensures t == d.task {
      assert t != d.task ==> I.Apart(now[t], now[d.task]);
    }
  }

  lemma OnlyPrepareSaves(s: X.Sys, a: X.Action)
    requires X.Enabled(s, a) && !a.Prepare?
    ensures X.Do(s, a).saved == s.saved
  {
  }

  lemma OwnedByExecutor(f: F.State, x: WorkerId, s: X.Sys, a: X.Action, w: WorkerId, own: X.Sys)
    requires I.Inv(f) && X.Enabled(s, a) && Owned(f, x, s) && Owned(f, w, own) && (w == x ==> own == s)
    requires a.Prepare? ==> F.Enabled(f, F.Dispatch) && Asks(f.rec.value.duty.value, x, a.owner)
    ensures var f' := if Echo(x, s, a).Some? then F.Apply(f, Echo(x, s, a).value) else f;
            Owned(f', w, if w == x then X.Do(s, a) else own)
  {
    var b := Echo(x, s, a);
    if a.Prepare? && w == x {
      DispatchOwned(f, X.Do(s, a));
    } else {
      if b.Some? && F.Enabled(f, b.value) {
        OwnedByFarmStep(f, b.value, w, own);
      }
      if !a.Prepare? {
        OnlyPrepareSaves(s, a);
      }
    }
  }

  ghost predicate AllOwned(j: Joint) {
    forall w: WorkerId :: Owned(j.farm, w, Of(j, w))
  }

  lemma OwnedByStep(j: Joint, t: Step, w: WorkerId)
    requires I.Inv(j.farm) && Can(j, t) && Owned(j.farm, w, Of(j, w)) && (t.Execute? ==> Owned(j.farm, t.w, Of(j, t.w)))
    ensures Owned(Do(j, t).farm, w, Of(Do(j, t), w))
  {
    match t
    case Own(b) => OwnedByFarmStep(j.farm, b, w, Of(j, w));
    case Execute(x, a) => OwnedByExecutor(j.farm, x, Of(j, x), a, w, Of(j, w));
    case Observed(x, at, proc, r) =>
      var b := F.Poll(Obs(x, Polled(Of(j, x), at, proc), r));
      if F.Enabled(j.farm, b) {
        OwnedByFarmStep(j.farm, b, w, Of(j, w));
      }
  }

  lemma OwnedStep(j: Joint, t: Step, limit: nat)
    requires Agree(j, limit) && AllOwned(j) && Can(j, t)
    ensures AllOwned(Do(j, t))
  {
    assert I.Inv(j.farm) by { T.Always(limit, j.history); }
    forall w: WorkerId ensures Owned(Do(j, t).farm, w, Of(Do(j, t), w)) {
      assert Owned(j.farm, w, Of(j, w)) && (t.Execute? ==> Owned(j.farm, t.w, Of(j, t.w)));
      OwnedByStep(j, t, w);
    }
  }

  lemma {:induction false} OwnedAlways(limit: nat, run: seq<Step>)
    ensures AllOwned(Run(Start(limit), run))
    decreases |run|
  {
    if run != [] {
      var j, t := Run(Start(limit), run[..|run| - 1]), run[|run| - 1];
      OwnedAlways(limit, run[..|run| - 1]);
      ContractHolds(limit, run[..|run| - 1]);
      if Can(j, t) {
        OwnedStep(j, t, limit);
      }
    }
  }

  // Whenever the farm asks for a dispatch, the executor has recorded nothing for that
  // worker, or exactly the task and lease it is asked for: the mismatch check never fires.
  lemma NeverMismatched(limit: nat, run: seq<Step>)
    ensures var j := Run(Start(limit), run);
            F.Enabled(j.farm, F.Dispatch) ==>
              var d := j.farm.rec.value.duty.value;
              Of(j, d.worker).saved.Some? ==> Of(j, d.worker).saved.value.owner == X.Owner(d.task, d.lease)
  {
    var j := Run(Start(limit), run);
    OwnedAlways(limit, run);
    ContractHolds(limit, run);
    if F.Enabled(j.farm, F.Dispatch) {
      var d := j.farm.rec.value.duty.value;
      T.LaunchIsSafe(limit, j.history);
      assert Owned(j.farm, d.worker, Of(j, d.worker));
      assert Holds(Now(j.farm.disk)[d.task], d.worker);
    }
  }

  // A sealed farm's executors are silent, and stay so under its epoch.
  lemma SealedMeansSilent(limit: nat, run: seq<Step>, me: Identity, x: WorkerId)
    ensures var j := Run(Start(limit), run);
            (F.Enabled(j.farm, F.Seal(me)) && x in j.farm.world.launched
             && j.farm.world.launched[x].epoch == j.farm.disk.manifest.epoch) ==> X.Quiet(Of(j, x))
  {
    var j := Run(Start(limit), run);
    ContractHolds(limit, run);
    assert Related(j.farm, x, Of(j, x));
    if F.Enabled(j.farm, F.Seal(me)) && x in j.farm.world.launched && j.farm.world.launched[x].epoch == j.farm.disk.manifest.epoch {
      T.Always(limit, j.history);
      T.SealCloses(j.farm, me);
      assert x !in F.Effect(j.farm, F.Seal(me)).world.live;
      assert x !in j.farm.world.live;
    }
  }
}
