// One reconcile pass: every task of a snapshot gets one turn, in which at most one
// change is made to it and at most one worker is started or woken.
module FarmReconciler {
  import opened Prelude
  import opened FarmTypes
  import opened FarmMoves
  import opened FarmMachine
  import opened FarmInvariants
  import opened FarmAdmission
  import opened FarmCode

  // Where in a turn the executor or the file system raises, if it does.
  datatype Failure = Never | AtOnce | BeforeCommit | AfterCommit

  // What the outside world contributes to one turn: what the executor has to say about the
  // holder, whether a dead worker is past its grace window, the workspace passes the
  // preflight, the wait condition is over, a dispatch is lost, and what is raised.
  datatype Turn = Turn(says: Obs, aged: bool, usable: bool, unblocked: bool, lost: bool, failure: Failure, error: nat)

  predicate Withholding(m: Manifest) {
    InPhase(m, Draining) || InPhase(m, Released)
  }

  // What the executor answers about the holder of task t, if it has one.
  function Heard(w: World, turn: Turn, t: Task): Option<Obs> {
    if t.lease.Some? then Some(Reported(w, turn.says, t.lease.value.worker)) else None
  }

  // The record is the one its task has.
  predicate Current(tasks: Tasks, t: Task) {
    t.id in tasks && tasks[t.id] == t
  }

  // ------------------------------------------------------------ what a turn is due

  predicate NeedsStart(t: Task) {
    t.state == READY || (t.state == SUBMITTED && t.meta.reworkRequested) || (t.state == RUNNING && t.lease.None?)
  }

  // The wait of a cleanly surrendered task is over.
  predicate WaitOver(t: Task, turn: Turn) {
    CleanSurrender(t) && (turn.unblocked || t.meta.waitingOn == Some(RotationWait(t.meta.surrender.value.id)))
  }

  // The change the executor's answer calls for on a RUNNING task.
  function DueRunning(t: Task, turn: Turn, o: Option<Obs>, base: nat, withheld: bool, epoch: Epoch, limit: nat): Option<Proposal> {
    if ProposeReceipt(t, o).Some? then ProposeReceipt(t, o)
    else if ProposeClear(t, o).Some? then ProposeClear(t, o)
    else if !MayAdopt(t, o) || !turn.aged || withheld then None
    else if t.meta.automaticRestarts >= limit then ProposePause(t, o, limit)
    else if turn.usable then ProposeAdopt(t, base + 1, base + 2, epoch, o, limit)
    else None
  }

  function DueWaiting(t: Task, turn: Turn, o: Option<Obs>, base: nat, withheld: bool, epoch: Epoch): Option<Proposal> {
    if t.lease.Some? && t.meta.rotation.Some? then ProposeRetire(t, o)
    else if t.meta.restartLimitReached && !t.meta.resumeRequested then None
    else if withheld || !turn.usable then None
    else if WaitOver(t, turn) then ProposeStart(t, base + 1, base + 2, epoch)
    else if t.lease.Some? && turn.unblocked then ProposeResume(t, o)
    else None
  }

  // The one change a turn makes to task t, if any; `o` is the executor's answer.
  function Due(t: Task, turn: Turn, o: Option<Obs>, base: nat, withheld: bool, epoch: Epoch, limit: nat): Option<Proposal> {
    if NeedsStart(t) then if withheld || !turn.usable then None else ProposeStart(t, base + 1, base + 2, epoch)
    else if t.state == RUNNING then DueRunning(t, turn, o, base, withheld, epoch, limit)
    else if t.state == WAITING then DueWaiting(t, turn, o, base, withheld, epoch)
    else None
  }

  // While the farm drains, a leased task is first asked to rotate.
  predicate MustAsk(t: Task, m: Manifest) {
    && InPhase(m, Draining) && t.lease.Some? && t.meta.rotation.None?
    && !(t.meta.surrender.Some? && t.meta.surrender.value.id == m.control.value.id)
  }

  function Asking(t: Task, m: Manifest): Option<Proposal> {
    if MustAsk(t, m) then ProposeRotation(t, m.control.value.id, None) else None
  }

  // The record the rest of the turn works on.
  function Asked(t: Task, m: Manifest, base: nat): Task {
    if Asking(t, m).Some? then Transaction(Asking(t, m).value, base).after else t
  }

  // What a whole turn is due: the rotation request, the change, and the error it ends with.
  function TurnDue(task: Task, turn: Turn, o: Option<Obs>, base: nat, withheld: bool, epoch: Epoch, limit: nat): Option<Proposal> {
    if turn.failure in {AtOnce, BeforeCommit} then None else Due(task, turn, o, base + 1, withheld, epoch, limit)
  }

  function Noted(out: Tasks, t: TaskId, turn: Turn, no: EventNo): Tasks {
    if turn.failure == Never || t !in out then out else Settled(out, ProposeError(out[t], turn.error), no)
  }

  function AfterTurn(before: Tasks, seen: Task, turn: Turn, o: Option<Obs>, base: nat, m: Manifest, epoch: Epoch, limit: nat): Tasks {
    var asked := if turn.failure == AtOnce then before else Settled(before, Asking(seen, m), base);
    var due := TurnDue(Asked(seen, m, base), turn, o, base, Withholding(m), epoch, limit);
    Noted(Settled(asked, due, base + 1), seen.id, turn, base + 4)
  }

  // The record a turn leaves its task with.
  function TurnResult(seen: Task, turn: Turn, o: Option<Obs>, base: nat, m: Manifest, epoch: Epoch, limit: nat): Task {
    var asked := if turn.failure == AtOnce then seen else Asked(seen, m, base);
    var due := TurnDue(asked, turn, o, base, Withholding(m), epoch, limit);
    var done := if due.Some? then Transaction(due.value, base + 1).after else asked;
    var noted := if turn.failure == Never then NOTHING else ProposeError(done, turn.error);
    if noted.Some? then Transaction(noted.value, base + 4).after else done
  }

  lemma AfterTurnIs(before: Tasks, seen: Task, turn: Turn, o: Option<Obs>, base: nat, m: Manifest, epoch: Epoch, limit: nat)
    requires Current(before, seen)
    ensures AfterTurn(before, seen, turn, o, base, m, epoch, limit) ==
              before[seen.id := TurnResult(seen, turn, o, base, m, epoch, limit)]
  {
    var due := TurnDue(Asked(seen, m, base), turn, o, base, Withholding(m), epoch, limit);
    if due.Some? {
      DispatchNeedsDeath(Asked(seen, m, base), turn, o, base + 1, Withholding(m), epoch, limit);
    }
    AskedKeeps(seen, m, base);
  }

  // Nothing is started or woken for a leased task without a positive death of its holder,
  // and nothing at all while dispatch is withheld.
  lemma DispatchNeedsDeath(t: Task, turn: Turn, o: Option<Obs>, base: nat, withheld: bool, epoch: Epoch, limit: nat)
    requires Due(t, turn, o, base, withheld, epoch, limit).Some?
    ensures var p := Due(t, turn, o, base, withheld, epoch, limit).value;
            && p.expected == Some(t) && p.task.id == t.id
            && (p.dispatch.Some? ==>
                  && !withheld && p.dispatch.value.task == t.id
                  && (t.lease.Some? ==> o.Some? && o.value.worker == t.lease.value.worker && o.value.alive == Dead)
                  && !(t.meta.restartLimitReached && !t.meta.resumeRequested && t.state == WAITING))
  {
  }

  lemma AskedKeeps(t: Task, m: Manifest, base: nat)
    ensures Asked(t, m, base).id == t.id && Asked(t, m, base).lease == t.lease && Asked(t, m, base).state == t.state
    ensures Asking(t, m).Some? ==> Asking(t, m).value.expected == Some(t) && Asking(t, m).value.task.id == t.id
                                   && Asking(t, m).value.dispatch.None?
  {
  }

  // ------------------------------------------------------- what it leaves behind

  // Every other task keeps its record, and this one has at most n further revisions.
  predicate Touched(before: Tasks, after: Tasks, t: TaskId, n: nat) {
    && after.Keys == before.Keys
    && (forall u | u in before && u != t :: after[u] == before[u])
    && (t in before ==> after[t] == before[t] || before[t].meta.revision < after[t].meta.revision <= before[t].meta.revision + n)
  }

  lemma TouchedTwice(a: Tasks, b: Tasks, c: Tasks, t: TaskId, n: nat, k: nat)
    requires Touched(a, b, t, n) && Touched(b, c, t, k)
    ensures Touched(a, c, t, n + k)
  {
  }

  lemma CommitTouches(before: Tasks, p: Proposal, no: EventNo)
    requires p.expected.Some? && Admissible(before, p)
    ensures Touched(before, Settled(before, Some(p), no), p.task.id, 1)
  {
  }

  // The request to rotate is one revision, and the executor's answer about the holder stays.
  lemma YieldTouches(seen: Task, m: Manifest, base: nat, r: Outcome, torn: bool, before: Tasks, after: Tasks, w: World, w': World, turn: Turn)
    requires CarriedOut(r, torn, before, after, w, w', Asking(seen, m), base, Initial, false)
    ensures Touched(before, after, seen.id, 1) && SameWorkers(w, w')
    ensures Asked(seen, m, base).id == seen.id && Heard(w', turn, Asked(seen, m, base)) == Heard(w, turn, seen)
    ensures r == Done ==> after == Settled(before, Asking(seen, m), base)
    ensures r == Done && Current(before, seen) ==> Current(after, Asked(seen, m, base))
  {
    AskedKeeps(seen, m, base);
    if after != before {
      CommitTouches(before, Asking(seen, m).value, base);
    }
  }

  // A turn's own change is one revision of its task, or nothing.
  lemma DueTouches(t: Task, turn: Turn, o: Option<Obs>, base: nat, withheld: bool, epoch: Epoch, limit: nat,
                   r: Outcome, torn: bool, before: Tasks, after: Tasks, w: World, w': World)
    requires CarriedOut(r, torn, before, after, w, w', Due(t, turn, o, base, withheld, epoch, limit), base, epoch, turn.lost)
    ensures Touched(before, after, t.id, 1)
  {
    if after != before {
      DispatchNeedsDeath(t, turn, o, base, withheld, epoch, limit);
      CommitTouches(before, Due(t, turn, o, base, withheld, epoch, limit).value, base);
    }
  }

  // Nothing was due, and nothing was done.
  lemma NothingDue(torn: bool, tasks: Tasks, w: World, no: EventNo, epoch: Epoch, lost: bool)
    ensures CarriedOut(Done, torn, tasks, tasks, w, w, None, no, epoch, lost)
  {
  }

  // A pass over `before` that has given the tasks in `turned` their turn. Each of them got
  // at most one worker, and none if its holder lived; nobody else got anything.
  ghost predicate Passed(before: Tasks, after: Tasks, w: World, w': World, turned: set<TaskId>, withheld: bool) {
    && after.Keys == before.Keys && turned <= before.Keys
    && (forall t <- before | t !in turned :: after[t] == before[t])
    && (forall t <- turned :: after[t] == before[t] || before[t].meta.revision < after[t].meta.revision <= before[t].meta.revision + 3)
    && w.live <= w'.live && (withheld ==> w'.live == w.live)
    && (forall x <- w'.live - w.live ::
          && x in w'.launched && w'.launched[x].task in turned
          && (before[w'.launched[x].task].lease.Some? ==> before[w'.launched[x].task].lease.value.worker !in w.live))
    && (forall x, y | x in w'.live - w.live && y in w'.live - w.live && w'.launched[x].task == w'.launched[y].task :: x == y)
  }

  lemma OneLess(all: set<TaskId>, todo: set<TaskId>, t: TaskId)
    requires t in todo && todo <= all
    ensures all - (todo - {t}) == (all - todo) + {t} && todo - {t} <= all && |todo - {t}| < |todo|
  {
  }

  // One more turn, of a task that had none.
  lemma TurnPasses(before: Tasks, mid: Tasks, after: Tasks, w: World, w1: World, w2: World, turned: set<TaskId>, withheld: bool,
                   t: TaskId, owed: Option<Duty>, epoch: Epoch)
    requires Passed(before, mid, w, w1, turned, withheld) && t in before && t !in turned
    requires Touched(mid, after, t, 3) && OneDispatch(w1, w2, owed, epoch)
    requires owed.Some? ==> owed.value.task == t && !withheld && (before[t].lease.Some? ==> before[t].lease.value.worker !in w1.live)
    ensures Passed(before, after, w, w2, turned + {t}, withheld)
  {
  }

  // ------------------------------------------------------- what every turn has done

  // The turn of a task leaves this record, and the dispatch it was due has been made unless
  // the executor lost it. `no` is where the turn's identifiers begin.
  predicate TurnMade(seen: Task, now: Task, w: World, live: set<WorkerId>, turn: Turn, no: nat, m: Manifest, limit: nat) {
    var owed := OwedBy(seen, turn, Heard(w, turn, seen), no, m, limit);
    && now == TurnResult(seen, turn, Heard(w, turn, seen), no, m, m.epoch, limit)
    && (owed.Some? && !turn.lost ==> owed.value.worker in live)
  }

  ghost predicate HadTurn(seen: Task, now: Task, w: World, live: set<WorkerId>, turn: Turn, m: Manifest, limit: nat) {
    exists no: nat :: TurnMade(seen, now, w, live, turn, no, m, limit)
  }

  ghost predicate AllTurned(before: Tasks, after: Tasks, w: World, live: set<WorkerId>, turned: set<TaskId>, turns: TaskId -> Turn,
                            m: Manifest, limit: nat) {
    forall t <- turned :: t in before && t in after && HadTurn(before[t], after[t], w, live, turns(t), m, limit)
  }

  // What the executor knows of the tasks that have not had their turn is as it was.
  predicate Undisturbed(tasks: Tasks, w: World, w': World, turned: set<TaskId>) {
    && w'.reported == w.reported
    && forall t <- tasks | t !in turned && tasks[t].lease.Some? :: tasks[t].lease.value.worker in w'.live <==> tasks[t].lease.value.worker in w.live
  }

  // The dispatch the turn of task `seen` is due.
  function OwedBy(seen: Task, turn: Turn, o: Option<Obs>, base: nat, m: Manifest, limit: nat): Option<Duty> {
    Owed(TurnDue(Asked(seen, m, base), turn, o, base, Withholding(m), m.epoch, limit))
  }

  // How far a pass over `before` has got.
  ghost predicate Underway(before: Tasks, now: Tasks, w: World, w': World, turned: set<TaskId>, turns: TaskId -> Turn, m: Manifest, limit: nat) {
    && Passed(before, now, w, w', turned, Withholding(m)) && Undisturbed(before, w, w', turned)
    && AllTurned(before, now, w, w'.live, turned, turns, m, limit)
  }

  lemma NobodyTurned(before: Tasks, w: World, turns: TaskId -> Turn, m: Manifest, limit: nat)
    ensures Underway(before, before, w, w, {}, turns, m, limit)
  {
  }

  lemma StillCurrent(before: Tasks, now: Tasks, w: World, w': World, turned: set<TaskId>, turns: TaskId -> Turn, m: Manifest, limit: nat, t: TaskId)
    requires Underway(before, now, w, w', turned, turns, m, limit) && t in before && t !in turned && before[t].id == t
    ensures Current(before, before[t]) && Current(now, before[t])
  {
  }

  // Whoever a turn starts or wakes is either new or the holder of this very task, who is dead.
  lemma OwedIsOwn(seen: Task, turn: Turn, w: World, base: nat, m: Manifest, limit: nat)
    requires OwedBy(seen, turn, Heard(w, turn, seen), base, m, limit).Some?
    ensures var d := OwedBy(seen, turn, Heard(w, turn, seen), base, m, limit).value;
            && d.task == seen.id && !Withholding(m) && (d.worker > base || Holds(seen, d.worker))
            && (seen.lease.Some? ==> seen.lease.value.worker !in w.live)
  {
    AskedKeeps(seen, m, base);
    DispatchNeedsDeath(Asked(seen, m, base), turn, Heard(w, turn, seen), base + 1, Withholding(m), m.epoch, limit);
    OwedWorker(Asked(seen, m, base), turn, Heard(w, turn, seen), base + 1, Withholding(m), m.epoch, limit);
  }

  lemma OwedWorker(t: Task, turn: Turn, o: Option<Obs>, base: nat, withheld: bool, epoch: Epoch, limit: nat)
    requires Owed(Due(t, turn, o, base, withheld, epoch, limit)).Some?
    ensures var d := Owed(Due(t, turn, o, base, withheld, epoch, limit)).value;
            d.worker == base + 1 || (t.lease.Some? && t.lease.value.worker == d.worker)
  {
  }

  lemma OthersUndisturbed(before: Tasks, mid: Tasks, w: World, w1: World, w2: World, turned: set<TaskId>, t: TaskId,
                          owed: Option<Duty>, epoch: Epoch, base: nat)
    requires Undisturbed(before, w, w1, turned) && OneDispatch(w1, w2, owed, epoch)
    requires mid.Keys == before.Keys && (forall u <- before | u !in turned :: mid[u] == before[u])
    requires t in mid && t !in turned && (forall u, v | u in mid && v in mid && u != v :: Apart(mid[u], mid[v]))
    requires forall u <- mid | mid[u].lease.Some? :: mid[u].lease.value.worker < base
    requires owed.Some? ==> owed.value.worker > base || Holds(mid[t], owed.value.worker)
    ensures Undisturbed(before, w, w2, turned + {t})
  {
    forall u <- before | u !in turned + {t} && before[u].lease.Some?
      ensures before[u].lease.value.worker in w2.live <==> before[u].lease.value.worker in w.live
    {
      assert Apart(mid[u], mid[t]);
    }
  }

  lemma OneMoreTurned(before: Tasks, mid: Tasks, after: Tasks, w: World, live: set<WorkerId>, live': set<WorkerId>, turned: set<TaskId>,
                      turns: TaskId -> Turn, m: Manifest, limit: nat, t: TaskId, no: nat)
    requires AllTurned(before, mid, w, live, turned, turns, m, limit) && Touched(mid, after, t, 3) && live <= live'
    requires t in before && t in after && t !in turned && TurnMade(before[t], after[t], w, live', turns(t), no, m, limit)
    ensures AllTurned(before, after, w, live', turned + {t}, turns, m, limit)
  {
    forall u <- turned + {t} ensures u in before && u in after && HadTurn(before[u], after[u], w, live', turns(u), m, limit) {
      if u != t {
        var k :| TurnMade(before[u], mid[u], w, live, turns(u), k, m, limit);
        assert TurnMade(before[u], after[u], w, live', turns(u), k, m, limit);
      }
    }
  }

  // Every holder is another's and older than the identifiers still to be minted.
  predicate Separate(tasks: Tasks, base: nat) {
    && (forall u, v | u in tasks && v in tasks && u != v :: Apart(tasks[u], tasks[v]))
    && (forall u <- tasks | tasks[u].lease.Some? :: tasks[u].lease.value.worker < base)
  }

  // What the turn of task `seen` has come to, in a farm with nothing pending.
  predicate TurnEffect(r: Outcome, mid: Tasks, after: Tasks, w: World, w': World, seen: Task, turn: Turn, base: nat, m: Manifest, limit: nat) {
    var o := Heard(w, turn, seen);
    && Touched(mid, after, seen.id, 3)
    && OneDispatch(w, w', OwedBy(seen, turn, o, base, m, limit), m.epoch)
    && (r == Done ==>
          && SameWorkers(Dispatched(w, OwedBy(seen, turn, o, base, m, limit), m.epoch, !turn.lost), w')
          && after == AfterTurn(mid, seen, turn, o, base, m, m.epoch, limit))
  }

  lemma TurnCounts(r: Outcome, before: Tasks, mid: Tasks, after: Tasks, w: World, w1: World, w2: World, turned: set<TaskId>,
                   seen: Task, turns: TaskId -> Turn, base: nat, m: Manifest, limit: nat)
    requires Current(before, seen) && seen.id !in turned && Separate(mid, base)
    requires Underway(before, mid, w, w1, turned, turns, m, limit)
    requires TurnEffect(r, mid, after, w1, w2, seen, turns(seen.id), base, m, limit)
    ensures Passed(before, after, w, w2, turned + {seen.id}, Withholding(m))
    ensures r == Done ==> Underway(before, after, w, w2, turned + {seen.id}, turns, m, limit)
  {
    var owed := OwedBy(seen, turns(seen.id), Heard(w1, turns(seen.id), seen), base, m, limit);
    if owed.Some? {
      OwedIsOwn(seen, turns(seen.id), w1, base, m, limit);
    }
    TurnPasses(before, mid, after, w, w1, w2, turned, Withholding(m), seen.id, owed, m.epoch);
    OthersUndisturbed(before, mid, w, w1, w2, turned, seen.id, owed, m.epoch, base);
    if r == Done {
      DoneIsMade(mid, after, w, w1, w2, seen, turns(seen.id), base, m, limit);
      OneMoreTurned(before, mid, after, w, w1.live, w2.live, turned, turns, m, limit, seen.id, base);
    }
  }

  lemma DoneIsMade(mid: Tasks, after: Tasks, w: World, w1: World, w2: World, seen: Task, turn: Turn, base: nat, m: Manifest, limit: nat)
    requires Current(mid, seen) && Heard(w1, turn, seen) == Heard(w, turn, seen)
    requires TurnEffect(Done, mid, after, w1, w2, seen, turn, base, m, limit)
    ensures after.Keys == mid.Keys && TurnMade(seen, after[seen.id], w, w2.live, turn, base, m, limit) && w1.live <= w2.live
  {
    AfterTurnIs(mid, seen, turn, Heard(w, turn, seen), base, m, m.epoch, limit);
  }

  // What a reconciler's move is made on, and whether it may dispatch.
  lemma MoveOf(m: Move, epoch: Epoch, obs: Option<Obs>, limit: nat)
    requires (ByReconciler(m) || m.Rotate?) && Propose(m, epoch, obs, limit).Some?
    ensures var p := Propose(m, epoch, obs, limit).value;
            && p.expected == Some(m.seen) && p.task.id == m.seen.id && !Reserves(p)
            && (p.dispatch.Some? ==> m.Start? || m.Adopt? || m.Resume?)
  {
  }

  class Reconciler {
    const farm: Farm

    constructor (farm: Farm)
      ensures this.farm == farm
    {
      this.farm := farm;
    }

    ghost predicate Running()
      reads farm
    {
      farm.Valid() && farm.rec.Some? && Unlocked(farm.Snapshot())
    }

    // The record is the one on disk, and no redo record is pending.
    ghost predicate Fresh(t: Task)
      reads farm
    {
      farm.manifest.pending.None? && Current(Now(farm.Files()), t)
    }

    // A running reconciler is the recorded one, in the current epoch of an unreleased farm.
    lemma Recorded()
      requires Running()
      ensures farm.manifest.identity == Some(farm.rec.value.me) && farm.rec.value.epoch == farm.manifest.epoch
      ensures farm.marker.None? && !InPhase(farm.manifest, Released)
      ensures Inv(farm.Snapshot())
    {
      farm.Reachable();
      EndOf(farm.limit, farm.history, farm.Snapshot());
      RecOwnsAlways(farm.limit, farm.history);
    }

    // A leased task on disk can always be asked.
    lemma AskingIsDue(t: Task)
      requires Running()
      ensures Fresh(t) && MustAsk(t, farm.manifest) ==> Asking(t, farm.manifest).Some?
    {
      Recorded();
      if Fresh(t) {
        assert Good(Now(farm.Files())[t.id], farm.limit);
      }
    }

    // A move made on the record on disk passes every check, unless it would dispatch while
    // the farm drains.
    lemma Passes(m: Move)
      requires Running() && (ByReconciler(m) || m.Rotate?) && Fresh(m.seen) && farm.Proposed(m).Some?
      requires m.Start? || m.Adopt? || m.Resume? ==> !Withholding(farm.manifest)
      ensures farm.Allowed(farm.rec.value.me, m) && Admissible(Now(farm.Files()), farm.Proposed(m).value)
    {
      Recorded();
      var epoch, obs := if ByReconciler(m) then farm.rec.value.epoch else Initial, if ByReconciler(m) then farm.rec.value.obs else None;
      MoveOf(m, epoch, obs, farm.limit);
      WriterAdmitted(farm.Files(), farm.rec.value.me, farm.Proposed(m).value.dispatch.Some?, if ByReconciler(m) then Some(epoch) else None);
      FreshIsAdmissible(Now(farm.Files()), m, epoch, obs, farm.limit);
    }

    // One commit of the reconciler's own, with the dispatch that goes with it.
    method Act(m: Move, turn: Turn, base: nat) returns (r: Outcome)
      requires Running() && farm.Above(base) && ByReconciler(m)
      requires m.Start? || m.Adopt? ==> m.worker == base + 1 && m.lease == base + 2
      modifies farm
      ensures farm.Valid() && old(farm.history) <= farm.history && farm.manifest == old(farm.manifest)
      ensures CarriedOut(r, farm.torn, old(Now(farm.Files())), Now(farm.Files()), old(farm.world), farm.world,
                         old(farm.Proposed(m)), base, old(farm.rec.value.epoch), turn.lost)
      ensures r == Done && old(farm.journal).None? ==> farm.journal.None?
      ensures r == Refused && old(Fresh(m.seen)) && (m.Start? || m.Adopt? || m.Resume? ==> !Withholding(farm.manifest)) ==> farm.torn
      ensures if r == Crashed then farm.budget == 0 else Running() && farm.Above(base + 3)
    {
      if farm.Proposed(m).None? {
        BelowGrows(farm.world.minted, {}, farm.world.minted, base, base + 3);
        NothingDue(farm.torn, Now(farm.Files()), farm.world, base, farm.rec.value.epoch, turn.lost);
        return Done;
      }
      ghost var minted := farm.world.minted;
      farm.IdsFrom(m, base);
      if Fresh(m.seen) && (m.Start? || m.Adopt? || m.Resume? ==> !Withholding(farm.manifest)) {
        Passes(m);
      }
      r := farm.Commit(farm.rec.value.me, m, base, turn.lost);
      BelowGrows(minted, Minted(m) + {base}, farm.world.minted, base, base + 3);
    }

    // The request to rotate, when one is due. Answers the record the rest of the turn works on.
    method Yield(seen: Task, base: nat) returns (r: Outcome, task: Task)
      requires Running() && farm.Above(base)
      modifies farm
      ensures farm.Valid() && old(farm.history) <= farm.history && farm.manifest == old(farm.manifest)
      ensures CarriedOut(r, farm.torn, old(Now(farm.Files())), Now(farm.Files()), old(farm.world), farm.world,
                         Asking(seen, farm.manifest), base, Initial, false)
      ensures r == Done && old(farm.journal).None? ==> farm.journal.None?
      ensures r == Done ==> task == Asked(seen, farm.manifest, base) && farm.rec.Some? && farm.rec.value.epoch == old(farm.rec.value.epoch)
      ensures r == Refused && old(Fresh(seen)) ==> farm.torn
      ensures if r == Crashed then farm.budget == 0 else Running() && farm.Above(base + 1)
    {
      task := seen;
      var control := farm.manifest.control;
      AskingIsDue(seen);
      if !InPhase(farm.manifest, Draining) || seen.lease.None? || seen.meta.rotation.Some?
         || (seen.meta.surrender.Some? && seen.meta.surrender.value.id == control.value.id) {
        return Done, task;
      }
      r := Ask(seen, control.value.id, base);
      if r == Done {
        task := farm.tasks[seen.id];
      }
    }

    // The reconciler's own request to rotate, under the id of the handoff.
    method Ask(seen: Task, id: HandoffId, base: nat) returns (r: Outcome)
      requires Running() && farm.Above(base) && seen.lease.Some?
      modifies farm
      ensures farm.Valid() && old(farm.history) <= farm.history && farm.manifest == old(farm.manifest)
      ensures CarriedOut(r, farm.torn, old(Now(farm.Files())), Now(farm.Files()), old(farm.world), farm.world,
                         ProposeRotation(seen, id, None), base, Initial, false)
      ensures r == Done ==> farm.journal.None? && farm.rec.Some? && farm.rec.value.epoch == old(farm.rec.value.epoch)
                            && seen.id in farm.tasks && ProposeRotation(seen, id, None).Some?
                            && farm.tasks[seen.id] == Transaction(ProposeRotation(seen, id, None).value, base).after
      ensures r == Refused && old(Fresh(seen)) && ProposeRotation(seen, id, None).Some? ==> farm.torn
      ensures if r == Crashed then farm.budget == 0 else Running() && farm.Above(base + 1)
    {
      ghost var minted, m := farm.world.minted, Rotate(seen, id, None);
      farm.IdsFrom(m, base);
      if Fresh(seen) && farm.Proposed(m).Some? {
        Passes(m);
      }
      r := farm.Commit(farm.rec.value.me, Rotate(seen, id, None), base, false);
      BelowGrows(minted, {base}, farm.world.minted, base, base + 1);
      if r == Crashed {
        farm.Kill();
      }
    }

    // The turn of a RUNNING task that has a holder: a fenced receipt first, then liveness.
    method Supervise(task: Task, turn: Turn, base: nat) returns (r: Outcome)
      requires Running() && farm.Above(base) && task.state == RUNNING && task.lease.Some?
      modifies farm
      ensures farm.Valid() && old(farm.history) <= farm.history && farm.manifest == old(farm.manifest)
      ensures CarriedOut(r, farm.torn, old(Now(farm.Files())), Now(farm.Files()), old(farm.world), farm.world,
                         DueRunning(task, turn, old(Heard(farm.world, turn, task)), base, old(Withholding(farm.manifest)),
                                    old(farm.rec.value.epoch), farm.limit),
                         base, old(farm.rec.value.epoch), turn.lost)
      ensures r == Done && old(farm.journal).None? ==> farm.journal.None?
      ensures r == Refused && old(Fresh(task)) ==> farm.torn
      ensures if r == Crashed then farm.budget == 0 else Running() && farm.Above(base + 3)
    {
      var o := farm.PollWorker(task.lease.value.worker, turn.says);
      var receipt := Fenced(task, o);
      if receipt.Some? && receipt.value.status != Heartbeat {
        r := Act(ApplyReceipt(task), turn, base);
      } else if o.alive == Liveness.Alive {
        if task.meta.runtimeError.Some? {
          r := Act(ClearError(task), turn, base);
        } else {
          r := Done;
        }
      } else if o.alive == Unknown || task.meta.runtimeError.Some? || task.meta.rotation.Some? || !turn.aged {
        r := Done;
      } else {
        r := TakeOver(task, turn, base);
      }
    }

    // Adoption of a task whose holder is dead, or the pause once its restarts are used up.
    method TakeOver(task: Task, turn: Turn, base: nat) returns (r: Outcome)
      requires Running() && farm.Above(base) && turn.aged && MayAdopt(task, farm.rec.value.obs)
      modifies farm
      ensures farm.Valid() && old(farm.history) <= farm.history && farm.manifest == old(farm.manifest)
      ensures CarriedOut(r, farm.torn, old(Now(farm.Files())), Now(farm.Files()), old(farm.world), farm.world,
                         DueRunning(task, turn, old(farm.rec.value.obs), base, old(Withholding(farm.manifest)),
                                    old(farm.rec.value.epoch), farm.limit),
                         base, old(farm.rec.value.epoch), turn.lost)
      ensures r == Done && old(farm.journal).None? ==> farm.journal.None?
      ensures r == Refused && old(Fresh(task)) ==> farm.torn
      ensures if r == Crashed then farm.budget == 0 else Running() && farm.Above(base + 3)
    {
      if Withholding(farm.manifest) {
        r := Done;
      } else if task.meta.automaticRestarts >= farm.limit {
        r := Act(PauseAtLimit(task), turn, base);
      } else if !turn.usable {
        r := Done;
      } else {
        r := Act(Adopt(task, base + 1, base + 2), turn, base);
      }
    }

    // First start, rework, repair, or restart after a clean surrender.
    method StartTask(task: Task, turn: Turn, base: nat) returns (r: Outcome)
      requires Running() && farm.Above(base)
      modifies farm
      ensures farm.Valid() && old(farm.history) <= farm.history && farm.manifest == old(farm.manifest)
      ensures CarriedOut(r, farm.torn, old(Now(farm.Files())), Now(farm.Files()), old(farm.world), farm.world,
                         if old(Withholding(farm.manifest)) || !turn.usable then None
                         else ProposeStart(task, base + 1, base + 2, old(farm.rec.value.epoch)),
                         base, old(farm.rec.value.epoch), turn.lost)
      ensures r == Done && old(farm.journal).None? ==> farm.journal.None?
      ensures r == Refused && old(Fresh(task)) ==> farm.torn
      ensures if r == Crashed then farm.budget == 0 else Running() && farm.Above(base + 3)
    {
      if Withholding(farm.manifest) || !turn.usable {
        return Done;
      }
      r := Act(Start(task, base + 1, base + 2), turn, base);
    }

    // The turn of a WAITING task.
    method Await(task: Task, turn: Turn, base: nat) returns (r: Outcome)
      requires Running() && farm.Above(base) && task.state == WAITING
      modifies farm
      ensures farm.Valid() && old(farm.history) <= farm.history && farm.manifest == old(farm.manifest)
      ensures CarriedOut(r, farm.torn, old(Now(farm.Files())), Now(farm.Files()), old(farm.world), farm.world,
                         DueWaiting(task, turn, old(Heard(farm.world, turn, task)), base, old(Withholding(farm.manifest)),
                                    old(farm.rec.value.epoch)),
                         base, old(farm.rec.value.epoch), turn.lost)
      ensures r == Done && old(farm.journal).None? ==> farm.journal.None?
      ensures r == Refused && old(Fresh(task)) ==> farm.torn
      ensures if r == Crashed then farm.budget == 0 else Running() && farm.Above(base + 3)
    {
      if task.lease.Some? && task.meta.rotation.Some? {
        var _ := farm.PollWorker(task.lease.value.worker, turn.says);
        r := Act(Retire(task), turn, base);
      } else if task.meta.restartLimitReached && !task.meta.resumeRequested {
        r := Done;
      } else if CleanSurrender(task) {
        if WaitOver(task, turn) {
          r := StartTask(task, turn, base);
        } else {
          r := Done;
        }
      } else if task.lease.Some? && turn.unblocked && turn.usable && !Withholding(farm.manifest) {
        var _ := farm.PollWorker(task.lease.value.worker, turn.says);
        r := Act(Resume(task), turn, base);
      } else {
        r := Done;
      }
    }

    method TakeTurn(task: Task, turn: Turn, base: nat) returns (r: Outcome)
      requires Running() && farm.Above(base)
      modifies farm
      ensures farm.Valid() && old(farm.history) <= farm.history && farm.manifest == old(farm.manifest)
      ensures CarriedOut(r, farm.torn, old(Now(farm.Files())), Now(farm.Files()), old(farm.world), farm.world,
                         Due(task, turn, old(Heard(farm.world, turn, task)), base, old(Withholding(farm.manifest)),
                             old(farm.rec.value.epoch), farm.limit),
                         base, old(farm.rec.value.epoch), turn.lost)
      ensures r == Done && old(farm.journal).None? ==> farm.journal.None?
      ensures r == Refused && old(Fresh(task)) ==> farm.torn
      ensures if r == Crashed then farm.budget == 0 else Running() && farm.Above(base + 3)
    {
      r := Done;
      if NeedsStart(task) {
        r := StartTask(task, turn, base);
      } else if task.state == RUNNING {
        r := Supervise(task, turn, base);
      } else if task.state == WAITING {
        r := Await(task, turn, base);
      }
    }

    // What the executor raised is recorded on the task as it is now.
    method NoteError(t: TaskId, turn: Turn, base: nat) returns (r: Outcome)
      requires Running() && farm.Above(base) && turn.failure != Never
      modifies farm
      ensures farm.Valid() && old(farm.history) <= farm.history && farm.manifest == old(farm.manifest)
      ensures SameWorkers(old(farm.world), farm.world)
      ensures Touched(old(Now(farm.Files())), Now(farm.Files()), t, 1)
      ensures r == Done && old(farm.journal).None? ==>
                farm.journal.None? && Now(farm.Files()) == Noted(old(Now(farm.Files())), t, turn, base)
      ensures r == Refused && old(farm.journal.None? && farm.manifest.pending.None?) ==> farm.torn
      ensures if r == Crashed then farm.budget == 0 else Running() && farm.Above(base + 3)
    {
      r := Done;
      if t in farm.tasks {
        farm.KeysAreIds();
        ghost var before, p := Now(farm.Files()), ProposeError(farm.tasks[t], turn.error);
        r := Act(RecordError(farm.tasks[t], turn.error), turn, base);
        if p.Some? && Admissible(before, p.value) {
          CommitTouches(before, p.value, base);
        }
      }
    }

    // A turn from the change on.
    method Finish(task: Task, turn: Turn, base: nat) returns (r: Outcome)
      requires Running() && farm.Above(base + 1) && turn.failure != AtOnce
      modifies farm
      ensures farm.Valid() && old(farm.history) <= farm.history && farm.manifest == old(farm.manifest)
      ensures Touched(old(Now(farm.Files())), Now(farm.Files()), task.id, 2)
      ensures var due := TurnDue(task, turn, old(Heard(farm.world, turn, task)), base, old(Withholding(farm.manifest)),
                                 old(farm.rec.value.epoch), farm.limit);
              && OneDispatch(old(farm.world), farm.world, Owed(due), old(farm.rec.value.epoch))
              && (r == Done ==> SameWorkers(Dispatched(old(farm.world), Owed(due), old(farm.rec.value.epoch), !turn.lost), farm.world))
              && (r == Done && old(farm.journal).None? ==>
                    farm.journal.None?
                    && Now(farm.Files()) == Noted(Settled(old(Now(farm.Files())), due, base + 1), task.id, turn, base + 4))
      ensures r == Refused && old(farm.journal.None? && Fresh(task)) ==> farm.torn
      ensures if r == Crashed then farm.budget == 0 else Running() && farm.Above(base + 7)
    {
      ghost var before := Now(farm.Files());
      r := Done;
      if turn.failure != BeforeCommit {
        ghost var w, epoch, o := farm.world, farm.rec.value.epoch, Heard(farm.world, turn, task);
        r := TakeTurn(task, turn, base + 1);
        DueTouches(task, turn, o, base + 1, Withholding(farm.manifest), epoch, farm.limit, r, farm.torn, before, Now(farm.Files()), w, farm.world);
      }
      ghost var between := Now(farm.Files());
      if r == Done && turn.failure != Never {
        r := NoteError(task.id, turn, base + 4);
        TouchedTwice(before, between, Now(farm.Files()), task.id, 1, 1);
      }
    }

    // One task's turn.
    method ReconcileTask(seen: Task, turn: Turn, base: nat) returns (r: Outcome)
      requires Running() && farm.Above(base)
      modifies farm
      ensures farm.Valid() && old(farm.history) <= farm.history && farm.manifest == old(farm.manifest)
      ensures Touched(old(Now(farm.Files())), Now(farm.Files()), seen.id, 3)
      ensures var due := TurnDue(Asked(seen, farm.manifest, base), turn, old(Heard(farm.world, turn, seen)), base,
                                 Withholding(farm.manifest), old(farm.rec.value.epoch), farm.limit);
              && OneDispatch(old(farm.world), farm.world, Owed(due), old(farm.rec.value.epoch))
              && (r == Done ==> SameWorkers(Dispatched(old(farm.world), Owed(due), old(farm.rec.value.epoch), !turn.lost), farm.world))
      ensures r == Done && old(farm.journal).None? ==>
                farm.journal.None?
                && Now(farm.Files()) == AfterTurn(old(Now(farm.Files())), seen, turn, old(Heard(farm.world, turn, seen)), base,
                                                  farm.manifest, old(farm.rec.value.epoch), farm.limit)
      ensures r == Refused && old(farm.journal.None? && Fresh(seen)) ==> farm.torn
      ensures if r == Crashed then farm.budget == 0 else Running() && farm.Above(base + 7)
    {
      if turn.failure == AtOnce {
        r := NoteError(seen.id, turn, base + 4);
        return;
      }
      ghost var before, w := Now(farm.Files()), farm.world;
      var task;
      r, task := Yield(seen, base);
      ghost var between := Now(farm.Files());
      YieldTouches(seen, farm.manifest, base, r, farm.torn, before, between, w, farm.world, turn);
      if r == Done {
        r := Finish(task, turn, base);
        TouchedTwice(before, between, Now(farm.Files()), seen.id, 1, 2);
      }
    }

    lemma HoldersApart(base: nat)
      requires Running() && farm.Above(base)
      ensures Separate(Now(farm.Files()), base)
    {
      Recorded();
    }

    // The same with nothing pending, in terms of the manifest's epoch.
    method TurnNow(seen: Task, turn: Turn, base: nat) returns (r: Outcome)
      requires Running() && farm.Above(base) && farm.journal.None?
      modifies farm
      ensures farm.Valid() && old(farm.history) <= farm.history && farm.manifest == old(farm.manifest)
      ensures TurnEffect(r, old(Now(farm.Files())), Now(farm.Files()), old(farm.world), farm.world, seen, turn, base, farm.manifest, farm.limit)
      ensures r == Done ==> farm.journal.None?
      ensures r == Refused && old(Fresh(seen)) ==> farm.torn
      ensures if r == Crashed then farm.budget == 0 else Running() && farm.Above(base + 7)
    {
      Recorded();
      r := ReconcileTask(seen, turn, base);
    }

    // The turn of task t of a snapshot, within a pass.
    method PassTurn(ghost before: Tasks, ghost w: World, ghost turned: set<TaskId>, seen: Task, turns: TaskId -> Turn, base: nat)
      returns (r: Outcome)
      requires Running() && farm.Above(base) && farm.journal.None? && farm.manifest.pending.None?
      requires Underway(before, Now(farm.Files()), w, farm.world, turned, turns, farm.manifest, farm.limit)
      requires Current(before, seen) && seen.id !in turned
      modifies farm
      ensures farm.Valid() && old(farm.history) <= farm.history && farm.manifest == old(farm.manifest)
      ensures Passed(before, Now(farm.Files()), w, farm.world, turned + {seen.id}, Withholding(farm.manifest))
      ensures r == Done ==>
                farm.journal.None? && Underway(before, Now(farm.Files()), w, farm.world, turned + {seen.id}, turns, farm.manifest, farm.limit)
      ensures r == Refused ==> farm.torn
      ensures if r == Crashed then farm.budget == 0 else Running() && farm.Above(base + 7)
    {
      ghost var mid, w1 := Now(farm.Files()), farm.world;
      HoldersApart(base);
      StillCurrent(before, mid, w, w1, turned, turns, farm.manifest, farm.limit, seen.id);
      r := TurnNow(seen, turns(seen.id), base);
      TurnCounts(r, before, mid, Now(farm.Files()), w, w1, farm.world, turned, seen, turns, base, farm.manifest, farm.limit);
    }

    // The turns of a snapshot's tasks, in any order. A rejected commit ends that task's turn
    // and no other; a damaged log ends the pass.
    method Pass(snapshot: Tasks, turns: TaskId -> Turn, base: nat) returns (r: Outcome, ghost turned: set<TaskId>)
      requires Running() && farm.Above(base) && Now(farm.Files()) == snapshot && forall t <- snapshot :: snapshot[t].id == t
      requires farm.journal.None? && farm.manifest.pending.None?
      modifies farm
      ensures farm.Valid() && old(farm.history) <= farm.history && farm.manifest == old(farm.manifest)
      ensures Passed(snapshot, Now(farm.Files()), old(farm.world), farm.world, turned, Withholding(farm.manifest))
      ensures r == Done ==>
                turned == snapshot.Keys
                && AllTurned(snapshot, Now(farm.Files()), old(farm.world), farm.world.live, turned, turns, farm.manifest, farm.limit)
      ensures if r == Crashed then farm.budget == 0 else Running()
      ensures r == Refused ==> farm.torn
    {
      ghost var w := farm.world;
      var todo, no := snapshot.Keys, base;
      r, turned := Done, {};
      NobodyTurned(snapshot, w, turns, farm.manifest, farm.limit);
      while todo != {}
        invariant Running() && farm.Above(no) && old(farm.history) <= farm.history && farm.manifest == old(farm.manifest)
        invariant farm.journal.None? && todo <= snapshot.Keys && turned == snapshot.Keys - todo
        invariant Underway(snapshot, Now(farm.Files()), w, farm.world, turned, turns, farm.manifest, farm.limit)
        decreases |todo|
      {
        var t :| t in todo;
        OneLess(snapshot.Keys, todo, t);
        r := PassTurn(snapshot, w, turned, snapshot[t], turns, no);
        todo, no, turned := todo - {t}, no + 7, turned + {t};
        if r == Crashed || (r == Refused && farm.torn) {
          return;
        }
      }
      r := Done;
    }

    // One whole pass.
    method ReconcileOnce(turns: TaskId -> Turn, base: nat) returns (r: Outcome, ghost turned: set<TaskId>)
      requires Running() && farm.Above(base)
      modifies farm
      ensures farm.Valid() && old(farm.history) <= farm.history && farm.manifest == old(farm.manifest)
      ensures Passed(old(Now(farm.Files())), Now(farm.Files()), old(farm.world), farm.world, turned, Withholding(farm.manifest))
      ensures r == Done ==>
                turned == old(Now(farm.Files())).Keys
                && AllTurned(old(Now(farm.Files())), Now(farm.Files()), old(farm.world), farm.world.live, turned, turns, farm.manifest, farm.limit)
      ensures if r == Crashed then farm.budget == 0 else Running()
      ensures r == Refused ==> farm.torn || farm.manifest.pending.Some?
    {
      turned := {};
      Recorded();
      WriterAdmitted(farm.Files(), farm.rec.value.me, false, None);
      if !farm.Writable() {
        return Refused, turned;
      }
      r := farm.RecoverLocked();
      if r == Crashed {
        farm.Kill();
      }
      if r == Done {
        farm.KeysAreIds();
        r, turned := Pass(farm.tasks, turns, base);
      }
    }
  }
}
