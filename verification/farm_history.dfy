// What a continuation of a run can no longer change: who may write under one handoff
// record, and which states a task goes through.
module FarmHistory {
  import opened Prelude
  import opened FarmTypes
  import opened Transitions
  import opened FarmMoves
  import opened FarmMachine
  import opened FarmInvariants
  import opened FarmLogical
  import opened FarmMoveProofs
  import opened FarmControlProofs
  import opened FarmTaskProofs
  import opened FarmCountProofs
  import opened FarmWorkerProofs
  import opened FarmTheorems

  // ------------------------------------------------------------ handoff fencing

  function Rank(p: Phase): nat {
    match p
    case Draining => 0
    case Released => 1
    case Claimed => 2
  }

  lemma IdKept(s: State, a: Action, i: EventId)
    requires Enabled(s, a) && DiskInv(s) && HandoffInv(s) && RecoveryInv(s) && i in Ids(Audit(s.disk))
    ensures i in Ids(Audit(Effect(s, a).disk))
  {
    IdsStep(s, a);
  }

  // Record c was in force under identity `who`: it is not in force any more, or its phases
  // have only advanced and, in c's own phase, the farm is still with the same host.
  predicate StillFenced(m: Manifest, c: Control, who: Identity) {
    m.control.Some? && m.control.value.id == c.id ==>
      && Rank(c.phase) <= Rank(m.control.value.phase)
      && m.control.value.target == c.target
      && (m.control.value.phase == c.phase ==>
            m.identity.Some? && m.identity.value.host == who.host && (c.phase != Claimed ==> m.identity == Some(who)))
  }

  // And its id is spent.
  predicate Fencing(s: State, c: Control, who: Identity) {
    Opening(c.id) in Ids(Audit(s.disk)) && StillFenced(s.disk.manifest, c, who)
  }

  // A new record never takes a spent id.
  lemma NewIdUnspent(s: State, a: Action, id: HandoffId)
    requires Enabled(s, a) && (a.Drain? || a.StopDrain?) && Opening(id) in Ids(Audit(s.disk))
    ensures Effect(s, a).disk.manifest.control.Some? && Effect(s, a).disk.manifest.control.value.id != id
  {
    LogInAudit(s.disk);
  }

  // An old record only goes on to its next phase, or away.
  lemma OldAdvances(s: State, a: Action, c: Control, who: Identity)
    requires Enabled(s, a) && Deploys(a) && !a.Drain? && !a.StopDrain? && RecoveryInv(s) && StillFenced(s.disk.manifest, c, who)
    ensures StillFenced(Effect(s, a).disk.manifest, c, who)
  {
    match a
    case Boot(_) =>
    case Seal(_) =>
    case Claim(_, _) =>
    case RecoverManifest =>
    case StopClearedWrite =>
  }

  lemma FencingStep(s: State, a: Action, c: Control, who: Identity)
    requires Enabled(s, a) && DiskInv(s) && HandoffInv(s) && RecoveryInv(s) && Fencing(s, c, who)
    ensures Fencing(Effect(s, a), c, who)
  {
    IdKept(s, a, Opening(c.id));
    if !Deploys(a) {
      OnlyDeploysWrite(s, a);
    } else if a.Drain? || a.StopDrain? {
      NewIdUnspent(s, a, c.id);
    } else {
      OldAdvances(s, a, c, who);
    }
  }

  lemma {:induction false} FencingLasts(s: State, run: seq<Action>, c: Control, who: Identity)
    requires Inv(s) && Fencing(s, c, who)
    ensures Fencing(Exec(s, run), c, who)
    decreases |run|
  {
    if run != [] {
      var s1, a := Exec(s, run[..|run| - 1]), run[|run| - 1];
      FencingLasts(s, run[..|run| - 1], c, who);
      InvFrom(s, run[..|run| - 1]);
      if Enabled(s1, a) {
        FencingStep(s1, a, c, who);
      }
    }
  }

  // A node handoff belongs to its target host exactly from the claim on.
  predicate TargetInv(s: State) {
    var m := s.disk.manifest;
    m.control.Some? && m.control.value.id.Request? ==>
      m.identity.Some? && m.control.value.target.Some?
      && (m.identity.value.host == m.control.value.target.value <==> m.control.value.phase == Claimed)
  }

  lemma TargetStep(s: State, a: Action)
    requires Enabled(s, a) && RecoveryInv(s) && TargetInv(s)
    ensures TargetInv(Effect(s, a))
  {
    if !Deploys(a) {
      OnlyDeploysWrite(s, a);
    } else {
      match a
      case Boot(_) =>
      case Drain(_, _, _) =>
      case Claim(_, _) =>
      case RecoverManifest =>
      case _ =>
    }
  }

  lemma {:induction false} TargetAlways(limit: nat, run: seq<Action>)
    ensures TargetInv(Exec(Start0(limit), run))
    decreases |run|
  {
    if run != [] {
      var s1, a := Exec(Start0(limit), run[..|run| - 1]), run[|run| - 1];
      TargetAlways(limit, run[..|run| - 1]);
      Always(limit, run[..|run| - 1]);
      if Enabled(s1, a) {
        TargetStep(s1, a);
      }
    }
  }

  // Write access under one handoff record moves at most once. Whoever passes the writer
  // check is followed, in every continuation in which the record stands, by itself as long
  // as the phase is the same (a claimed farm may change its build, not its host); and if
  // the phase is another one, a source host has been followed by the named target.
  lemma HandoffMovesOnce(limit: nat, before: seq<Action>, run: seq<Action>, a: Identity, b: Identity,
                         x: bool, y: bool, e: Option<Epoch>, f: Option<Epoch>)
    requires var s, s' := Exec(Start0(limit), before), Exec(Start0(limit), before + run);
             && WriterOk(s.disk, a, x, e) && WriterOk(s'.disk, b, y, f)
             && s.disk.manifest.control.Some? && s'.disk.manifest.control.Some?
             && s'.disk.manifest.control.value.id == s.disk.manifest.control.value.id
    ensures var c := Exec(Start0(limit), before).disk.manifest.control.value;
            var c' := Exec(Start0(limit), before + run).disk.manifest.control.value;
            if c'.phase == c.phase then b.host == a.host && (c.phase != Claimed ==> b == a)
            else c.phase == Draining && c'.phase == Claimed && c.target.Some? && a.host != c.target.value == b.host
  {
    var s := Exec(Start0(limit), before);
    var s' := Exec(s, run);
    var c := s.disk.manifest.control.value;
    ExecConcat(Start0(limit), before, run);
    Always(limit, before);
    Always(limit, before + run);
    TargetAlways(limit, before);
    TargetAlways(limit, before + run);
    FencingLasts(s, run, c, a);
  }

  // ------------------------------------------------------- workers and their leases

  // Worker w has gained nothing: a task it holds it held before, under the same lease.
  predicate GainsNothing(now: Tasks, now': Tasks, w: WorkerId) {
    forall t <- now' | Holds(now'[t], w) :: t in now && now[t].lease == now'[t].lease
  }

  lemma GainsByPut(now: Tasks, u: Task, w: WorkerId)
    requires Holds(u, w) ==> u.id in now && u.lease == now[u.id].lease
    ensures GainsNothing(now, now[u.id := u], w)
  {
  }

  // Only Start and Adopt give a lease, to the worker they mint.
  lemma LeaseOfMove(m: Move, epoch: Epoch, obs: Option<Obs>, limit: nat, w: WorkerId)
    requires Propose(m, epoch, obs, limit).Some? && w !in Minted(m)
    ensures var p := Propose(m, epoch, obs, limit).value;
            Holds(p.task, w) ==> p.expected.Some? && p.expected.value.lease == p.task.lease
  {
    MoveStepsLease(m, epoch, obs, limit);
    MoveKeepsIdentity(m, epoch, obs, limit);
  }

  lemma GainsByCommit(s: State, me: Identity, m: Move, no: EventNo, w: WorkerId)
    requires CommitOk(s, me, m, no) && w in s.world.minted
    ensures GainsNothing(Now(s.disk), Now(Effect(s, Commit(me, m, no)).disk), w)
  {
    if ByReconciler(m) {
      LeaseOfMove(m, s.rec.value.epoch, s.rec.value.obs, s.limit, w);
    } else {
      LeaseOfMove(m, Initial, None, s.limit, w);
    }
    NowByCommit(s, me, m, no);
    GainsByPut(Now(s.disk), Transaction(ProposalOf(s, m).value, no).after, w);
  }

  // Once minted, a worker is given no other task and no other lease than it was minted with.
  lemma LeaseStays(s: State, a: Action, w: WorkerId)
    requires Enabled(s, a) && Inv(s) && w in s.world.minted
    ensures GainsNothing(Now(s.disk), Now(Effect(s, a).disk), w)
  {
    if a.Commit? {
      GainsByCommit(s, a.me, a.move, a.no, w);
    } else {
      NowStep(s, a);
    }
  }

  // ------------------------------------------------------------ the state graph

  // History h once the tasks are `now`.
  function Extended(h: seq<TaskState>, now: Tasks, t: TaskId): seq<TaskState> {
    if t !in now || (h != [] && h[|h| - 1] == now[t].state) then h else h + [now[t].state]
  }

  // The states task t has gone through, repetitions left out.
  function States(s: State, run: seq<Action>, t: TaskId): seq<TaskState>
    decreases |run|
  {
    Extended(if run == [] then [] else States(s, run[..|run| - 1], t), Now(Exec(s, run).disk), t)
  }

  // What one saved task may do to the one before it.
  predicate Follows(t: Task, u: Task) {
    && (u.state == t.state || u.state in Legal(t.state))
    && (t.state == DONE ==> u.meta.acceptance == t.meta.acceptance)
  }

  lemma AcceptanceKept(m: Move, epoch: Epoch, obs: Option<Obs>, limit: nat)
    requires Propose(m, epoch, obs, limit).Some?
    ensures var p := Propose(m, epoch, obs, limit).value;
            && (p.expected.Some? && p.expected.value.state == DONE ==> p.task.meta.acceptance == p.expected.value.meta.acceptance)
            && (p.expected.None? ==> p.task.state == READY)
  {
  }

  // The store checks a change of state against the graph.
  lemma AdmittedFollows(tasks: Tasks, p: Proposal, no: EventNo)
    requires Admissible(tasks, p) && p.expected.Some?
    requires p.expected.value.state == DONE ==> p.task.meta.acceptance == p.expected.value.meta.acceptance
    ensures Follows(p.expected.value, Transaction(p, no).after)
  {
  }

  lemma MoveFollows(s: State, me: Identity, m: Move, no: EventNo)
    requires CommitOk(s, me, m, no)
    ensures var p := ProposalOf(s, m).value;
            if p.expected.Some? then Follows(p.expected.value, Transaction(p, no).after) else p.task.state == READY
  {
    var p := ProposalOf(s, m).value;
    if ByReconciler(m) {
      AcceptanceKept(m, s.rec.value.epoch, s.rec.value.obs, s.limit);
    } else {
      AcceptanceKept(m, Initial, None, s.limit);
    }
    if p.expected.Some? {
      AdmittedFollows(s.disk.tasks, p, no);
    }
  }

  // Every task stays and follows the graph; a new one is READY.
  predicate Advances(now: Tasks, now': Tasks, t: TaskId) {
    && (t in now ==> t in now' && Follows(now[t], now'[t]))
    && (t !in now && t in now' ==> now'[t].state == READY)
  }

  lemma PutAdvances(now: Tasks, u: TaskId, task: Task, t: TaskId)
    requires if u in now then Follows(now[u], task) else task.state == READY
    ensures Advances(now, now[u := task], t)
  {
  }

  lemma StateByCommit(s: State, me: Identity, m: Move, no: EventNo, t: TaskId)
    requires CommitOk(s, me, m, no) && Inv(s)
    ensures Advances(Now(s.disk), Now(Effect(s, Commit(me, m, no)).disk), t)
  {
    NowStep(s, Commit(me, m, no));
    Admitted(s, me, m, no);
    MoveFollows(s, me, m, no);
  }

  lemma HeldFollows(t: Task, rid: nat, limit: nat)
    requires Good(t, limit) && t.lease.Some?
    ensures Follows(t, Held(t, rid))
  {
  }

  lemma StateByHold(s: State, u: TaskId, no: EventNo, t: TaskId)
    requires Enabled(s, Hold(u, no)) && DiskInv(s) && HandoffInv(s) && RecoveryInv(s) && TaskInv(s)
    ensures Advances(Now(s.disk), Now(Effect(s, Hold(u, no)).disk), t)
  {
    HoldFinds(s, u, no);
    var task := Now(s.disk)[u];
    assert Good(task, s.limit);
    HeldFollows(task, s.disk.marker.value.id, s.limit);
    HoldWrites(s, u, no);
    PutAdvances(Now(s.disk), u, Held(task, s.disk.marker.value.id), t);
  }

  lemma StateStep(s: State, a: Action, t: TaskId)
    requires Enabled(s, a) && Inv(s)
    ensures Advances(Now(s.disk), Now(Effect(s, a).disk), t)
  {
    if a.Commit? {
      StateByCommit(s, a.me, a.move, a.no, t);
    } else if a.Hold? {
      StateByHold(s, a.t, a.no, t);
    } else {
      NowStep(s, a);
    }
  }

  // The history follows the graph from READY to the task's present state.
  predicate Traced(h: seq<TaskState>, now: Tasks, t: TaskId) {
    && Path(h) && (h != [] <==> t in now)
    && (h != [] ==> h[0] == READY && h[|h| - 1] == now[t].state)
  }

  lemma TraceStep(h: seq<TaskState>, now: Tasks, now': Tasks, t: TaskId)
    requires Traced(h, now, t) && Advances(now, now', t)
    ensures Traced(Extended(h, now', t), now', t)
  {
  }

  // Over any run a task begins READY and moves along the state graph only, recovery holds
  // included.
  lemma {:induction false} StatesFollowGraph(limit: nat, run: seq<Action>, t: TaskId)
    ensures Traced(States(Start0(limit), run, t), Now(Exec(Start0(limit), run).disk), t)
    decreases |run|
  {
    if run != [] {
      var s1, a := Exec(Start0(limit), run[..|run| - 1]), run[|run| - 1];
      StatesFollowGraph(limit, run[..|run| - 1], t);
      Always(limit, run[..|run| - 1]);
      if Enabled(s1, a) {
        StateStep(s1, a, t);
      }
      TraceStep(States(Start0(limit), run[..|run| - 1], t), Now(s1.disk), Now(Exec(Start0(limit), run).disk), t);
    }
  }

  lemma EndOfPath(h: seq<TaskState>)
    requires Path(h) && h != [] && h[0] == READY && h[|h| - 1] == DONE
    ensures |h| >= 4 && h[|h| - 3..] == [RUNNING, SUBMITTED, DONE]
  {
    PathToDone(h);
    var n := |h| - 1;
    assert h[n] == DONE;
  }

  // An accepted task has run, then been submitted, and only then accepted.
  lemma AcceptedAfterRun(limit: nat, run: seq<Action>, t: TaskId)
    requires t in Now(Exec(Start0(limit), run).disk) && Now(Exec(Start0(limit), run).disk)[t].state == DONE
    ensures var h := States(Start0(limit), run, t);
            |h| >= 4 && h[|h| - 3..] == [RUNNING, SUBMITTED, DONE]
  {
    StatesFollowGraph(limit, run, t);
    EndOfPath(States(Start0(limit), run, t));
  }

  // A finished task is finished the same way.
  predicate SameEnd(now: Tasks, now': Tasks, t: TaskId)
    requires t in now
  {
    && t in now' && now'[t].state == now[t].state
    && (now[t].state == DONE ==> now'[t].meta.acceptance == now[t].meta.acceptance)
  }

  lemma EndStays(now: Tasks, now1: Tasks, now2: Tasks, t: TaskId)
    requires t in now && now[t].state in {DONE, FAILED} && SameEnd(now, now1, t) && Advances(now1, now2, t)
    ensures SameEnd(now, now2, t)
  {
  }

  // DONE and FAILED are final, and so is the evidence a task was accepted on.
  lemma {:induction false} FinalForever(s: State, run: seq<Action>, t: TaskId)
    requires Inv(s) && t in Now(s.disk) && Now(s.disk)[t].state in {DONE, FAILED}
    ensures SameEnd(Now(s.disk), Now(Exec(s, run).disk), t)
    decreases |run|
  {
    if run != [] {
      var s1, a := Exec(s, run[..|run| - 1]), run[|run| - 1];
      FinalForever(s, run[..|run| - 1], t);
      assert Inv(s1) by { InvFrom(s, run[..|run| - 1]); }
      if Enabled(s1, a) {
        StateStep(s1, a, t);
        EndStays(Now(s.disk), Now(s1.disk), Now(Effect(s1, a).disk), t);
      }
    }
  }
}
