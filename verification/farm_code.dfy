// The program itself: the store, node handoff, offline recovery and the reconciler as
// methods that write one file at a time. `budget` is the number of writes the process
// still gets to make; when it runs out the process dies where it stands, and an append
// may leave a torn record behind.
//
// Valid() says that everything the object has ever done is a run of the state machine, so
// each theorem about runs holds of it after any sequence of calls, interrupted anywhere.
module FarmCode {
  import opened Prelude
  import opened FarmTypes
  import opened FarmMoves
  import opened FarmMachine
  import opened FarmInvariants
  import opened FarmLogical
  import opened FarmTheorems

  datatype Outcome = Done | Refused | Crashed

  lemma ExecSnoc(s: State, run: seq<Action>, a: Action)
    ensures Exec(s, run + [a]) == Apply(Exec(s, run), a)
  {
    assert (run + [a])[..|run|] == run;
  }

  // The run ends in state s. Said of the whole prefix, so that the run is unrolled only
  // where a proof asks for its end.
  ghost predicate EndsIn(limit: nat, run: seq<Action>, s: State) {
    forall n | n == |run| :: s == Exec(Start0(limit), run[..n])
  }

  lemma EndOf(limit: nat, run: seq<Action>, s: State)
    ensures EndsIn(limit, run, s) <==> s == Exec(Start0(limit), run)
  {
    assert run[..|run|] == run;
  }

  lemma EffectOfCommit(s: State, me: Identity, m: Move, p: Proposal, no: EventNo)
    requires Enabled(s, FarmMachine.Action.Commit(me, m, no)) && ProposalOf(s, m) == Some(p)
    ensures ByReconciler(m) ==> s.rec.Some?
    ensures Effect(s, FarmMachine.Action.Commit(me, m, no)) ==
              State(s.disk.(journal := Some(Transaction(p, no))),
                    if ByReconciler(m) then Some(s.rec.value.(duty := p.dispatch)) else s.rec,
                    s.world.(minted := s.world.minted + Minted(m) + {no}), s.limit)
  {
  }

  // The world once a dispatch owed by a commit has been made, if one was.
  function Dispatched(w: World, owed: Option<Duty>, epoch: Epoch, made: bool): World {
    if !made || owed.None? then w
    else w.(live := w.live + {owed.value.worker}, launched := w.launched[owed.value.worker := Launch(owed.value.task, epoch)])
  }

  // The task map once proposal p, if there is one, has been saved.
  function Settled(before: Tasks, p: Option<Proposal>, no: EventNo): Tasks {
    if p.Some? then before[p.value.task.id := Transaction(p.value, no).after] else before
  }

  function Owed(p: Option<Proposal>): Option<Duty> {
    if p.Some? then p.value.dispatch else None
  }

  // Nothing but identifiers was handed out.
  predicate SameWorkers(w: World, w': World) {
    w' == w.(minted := w'.minted)
  }

  // Either no dispatch was made, or just this one, of a worker that was quiet before.
  predicate OneDispatch(w: World, w': World, owed: Option<Duty>, epoch: Epoch) {
    SameWorkers(w, w') || (owed.Some? && owed.value.worker !in w.live && SameWorkers(Dispatched(w, owed, epoch, true), w'))
  }

  // From tasks `before` and world `w` on, proposal p has been carried out with outcome r:
  // done means committed and, unless the executor lost it, dispatched; anything else
  // dispatched nothing, and a rejection with an intact log wrote nothing either.
  predicate CarriedOut(r: Outcome, torn: bool, before: Tasks, after: Tasks, w: World, w': World,
                       p: Option<Proposal>, no: EventNo, epoch: Epoch, lost: bool) {
    && (after == before || (p.Some? && Admissible(before, p.value) && after == Settled(before, p, no)))
    && OneDispatch(w, w', Owed(p), epoch)
    && (if r == Done then after == Settled(before, p, no) && SameWorkers(Dispatched(w, Owed(p), epoch, !lost), w')
        else SameWorkers(w, w') && (r == Refused && !torn ==> after == before))
  }

  lemma Carried(r: Outcome, torn: bool, before: Tasks, after: Tasks, w: World, w': World, p: Proposal, no: EventNo, epoch: Epoch, lost: bool)
    requires after == before || (Admissible(before, p) && after == before[p.task.id := Transaction(p, no).after])
    requires w' == Dispatched(w, p.dispatch, epoch, r == Done && !lost).(minted := w'.minted)
    requires r == Done && !lost && p.dispatch.Some? ==> p.dispatch.value.worker !in w.live
    requires r == Done ==> Admissible(before, p) && after == before[p.task.id := Transaction(p, no).after]
    requires r == Refused && !torn ==> after == before
    ensures CarriedOut(r, torn, before, after, w, w', Some(p), no, epoch, lost)
  {
  }

  lemma StopsNeverRelease(s: State)
    requires HandoffInv(s)
    ensures InPhase(s.disk.manifest, Released) ==> s.disk.manifest.control.value.id.Request?
  {
  }

  // A positive answer about worker w, and a submission it reports, are facts.
  predicate Truthful(w: World, o: Obs) {
    && (o.alive == Dead ==> o.worker !in w.live)
    && (o.alive == Alive ==> o.worker in w.live)
    && (o.receipt.Some? && o.receipt.value.status == SubmittedReceipt && o.receipt.value.worker == o.worker ==> o.worker in w.reported)
  }

  // What the executor answers about worker x when it has `says` to say.
  function Reported(w: World, says: Obs, x: WorkerId): Obs {
    if says.worker == x && Truthful(w, says) then says else Obs(x, Unknown, None)
  }

  predicate Below(ids: set<nat>, base: nat) {
    forall n <- ids :: n < base
  }

  lemma BelowGrows(ids: set<nat>, more: set<nat>, ids': set<nat>, base: nat, base': nat)
    requires Below(ids, base) && Below(more, base') && base <= base' && ids' <= ids + more
    ensures Below(ids', base')
  {
  }

  class Farm {
    // the files on shared storage
    var tasks: Tasks
    var log: Log
    var torn: bool
    var journal: Option<Txn>
    var manifest: Manifest
    var marker: Option<Recovery>
    var archives: map<HandoffId, Tasks>
    // the running reconciler, if any
    var rec: Option<Rec>
    var budget: nat
    const limit: nat

    // the workers themselves, which the program learns about only by polling
    var world: World
    ghost var history: seq<Action>

    ghost function Files(): Disk
      reads this
    {
      Disk(tasks, log, torn, journal, manifest, marker, archives)
    }

    ghost function Snapshot(): State
      reads this
    {
      State(Files(), rec, world, limit)
    }

    ghost predicate Valid()
      reads this
    {
      EndsIn(limit, history, Snapshot())
    }

    constructor (limit: nat)
      ensures Valid() && history == [] && this.limit == limit
    {
      this.limit := limit;
      tasks, log, torn, journal, marker, archives := map[], [], false, None, None, map[];
      manifest := Manifest(None, Initial, None, None);
      rec := None;
      world := World({}, map[], {}, {}, {}, {Initial});
      history := [];
      new;
      EndOf(limit, history, Snapshot());
    }

    lemma Reachable()
      requires Valid()
      ensures Inv(Snapshot())
    {
      EndOf(limit, history, Snapshot());
      Always(limit, history);
    }

    lemma KeysAreIds()
      requires Valid()
      ensures forall t <- tasks :: tasks[t].id == t
    {
      Reachable();
    }

    // The fields have just moved from state s as action a says.
    ghost method Step(s: State, a: Action)
      requires EndsIn(limit, history, s) && Enabled(s, a) && Snapshot() == Effect(s, a)
      modifies this`history
      ensures Valid() && history == old(history) + [a]
    {
      EndOf(limit, history, s);
      ExecSnoc(Start0(limit), history, a);
      history := history + [a];
      EndOf(limit, history, Snapshot());
    }

    // One more write, unless the process dies first.
    method Alive() returns (up: bool)
      modifies this`budget
      ensures up == (old(budget) > 0)
      ensures budget == if up then old(budget) - 1 else 0
    {
      up := budget > 0;
      if up { budget := budget - 1; }
    }

    // ------------------------------------------------------------------- audit log

    method AppendLog(e: Event, ghost a: Action) returns (up: bool)
      requires Valid() && !torn
      requires Enabled(Snapshot(), a) && Effect(Snapshot(), a) == Snapshot().(disk := Files().(log := log + [e]))
      modifies this`log, this`torn, this`budget, this`history
      ensures Valid() && old(history) <= history
      ensures up ==> log == old(log) + [e] && !torn && history == old(history) + [a]
      ensures old(log) <= log
      ensures !up ==> budget == 0 && log == old(log)
      ensures budget + 1 >= old(budget)
    {
      up := Alive();
      if up {
        ghost var s := Snapshot();
        log := log + [e];
        Step(s, a);
      } else if * {
        ghost var s := Snapshot();
        torn := true;
        Step(s, Tear);
      }
    }

    // Loop of EventLog.ids.
    method LogIds() returns (ids: set<EventId>)
      ensures ids == Ids(log)
    {
      ids := {};
      for i := 0 to |log|
        invariant ids == Ids(log[..i])
      {
        IdsAppend(log[..i], log[i]);
        assert log[..i + 1] == log[..i] + [log[i]];
        ids := ids + {log[i].id};
      }
      assert log[..|log|] == log;
    }

    // ----------------------------------------------------------------------- store

    // Replaying a write leaves the logical task map and audit log alone.
    lemma Replays(s: State, a: Action)
      requires Inv(s) && Enabled(s, a) && a in {ReplayTask, ReplayLog, ReplayUnlink}
      ensures Now(Effect(s, a).disk) == Now(s.disk) && Audit(Effect(s, a).disk) == Audit(s.disk)
    {
      NowStep(s, a);
      AuditStep(s, a);
    }

    method ReplaceTask() returns (up: bool)
      requires Valid() && Enabled(Snapshot(), ReplayTask)
      modifies this`tasks, this`budget, this`history
      ensures Valid() && old(history) <= history
      ensures Now(Files()) == old(Now(Files())) && Audit(Files()) == old(Audit(Files()))
      ensures up ==> tasks == old(tasks)[journal.value.after.id := journal.value.after]
      ensures !up ==> budget == 0
      ensures budget + 1 >= old(budget)
    {
      up := Alive();
      if up {
        Reachable();
        Replays(Snapshot(), ReplayTask);
        ghost var s := Snapshot();
        tasks := tasks[journal.value.after.id := journal.value.after];
        Step(s, ReplayTask);
      }
    }

    method UnlinkJournal() returns (up: bool)
      requires Valid() && Enabled(Snapshot(), ReplayUnlink)
      modifies this`journal, this`budget, this`history
      ensures Valid() && old(history) <= history
      ensures Now(Files()) == old(Now(Files())) && Audit(Files()) == old(Audit(Files()))
      ensures up ==> journal.None?
      ensures !up ==> budget == 0
      ensures budget + 1 >= old(budget)
    {
      up := Alive();
      if up {
        Reachable();
        Replays(Snapshot(), ReplayUnlink);
        ghost var s := Snapshot();
        journal := None;
        Step(s, ReplayUnlink);
      }
    }

    method RecordEvent() returns (up: bool)
      requires Valid() && Enabled(Snapshot(), ReplayLog)
      modifies this`log, this`torn, this`budget, this`history
      ensures Valid() && old(history) <= history
      ensures Now(Files()) == old(Now(Files())) && Audit(Files()) == old(Audit(Files()))
      ensures up ==> log == old(log) + [journal.value.event] && !torn
      ensures old(log) <= log
      ensures !up ==> budget == 0
      ensures budget + 1 >= old(budget)
    {
      Reachable();
      Replays(Snapshot(), ReplayLog);
      up := AppendLog(journal.value.event, ReplayLog);
    }

    // Finish a prepared transaction. It changes neither the logical task map nor the
    // logical audit log, wherever it stops.
    method RecoverLocked() returns (r: Outcome)
      requires Valid()
      modifies this`tasks, this`log, this`torn, this`journal, this`budget, this`history
      ensures Valid() && old(history) <= history
      ensures Now(Files()) == old(Now(Files())) && Audit(Files()) == old(Audit(Files()))
      ensures r == Done ==> journal.None? && tasks == old(Now(Files())) && torn == old(torn)
      ensures old(log) <= log
      ensures r == Refused ==> old(torn) && torn && history == old(history)
      ensures r == Crashed ==> budget == 0
      ensures budget + 3 >= old(budget)
    {
      if journal.None? {
        return Done;
      }
      assert JournalInv(Snapshot()) by { Reachable(); }
      var txn := journal.value;
      var current := if txn.after.id in tasks then Some(tasks[txn.after.id]) else None;
      if current != txn.before && current != Some(txn.after) {
        return Refused;
      }
      if torn {
        return Refused;
      }
      r := Replay();
    }

    method Replay() returns (r: Outcome)
      requires Valid() && Enabled(Snapshot(), ReplayTask)
      modifies this`tasks, this`log, this`torn, this`journal, this`budget, this`history
      ensures Valid() && old(history) <= history
      ensures Now(Files()) == old(Now(Files())) && Audit(Files()) == old(Audit(Files()))
      ensures r == Done ==> journal.None? && !torn
      ensures old(log) <= log
      ensures r != Done ==> r == Crashed && budget == 0
      ensures budget + 3 >= old(budget)
    {
      var ids := LogIds();
      var up := ReplaceTask();
      if !up {
        return Crashed;
      }
      up := RecordOnce(ids);
      if !up {
        return Crashed;
      }
      up := UnlinkJournal();
      return if up then Done else Crashed;
    }

    // Append the transaction's event unless the log already has it.
    method RecordOnce(ids: set<EventId>) returns (up: bool)
      requires Valid() && journal.Some? && !torn && ids == Ids(log)
      requires Lookup(tasks, journal.value.after.id) == Some(journal.value.after)
      modifies this`log, this`torn, this`budget, this`history
      ensures Valid() && old(history) <= history
      ensures Now(Files()) == old(Now(Files())) && Audit(Files()) == old(Audit(Files()))
      ensures old(log) <= log
      ensures if up then Enabled(Snapshot(), ReplayUnlink) else budget == 0
      ensures budget + 1 >= old(budget)
    {
      up := true;
      if journal.value.event.id !in ids {
        IdsAppend(log, journal.value.event);
        up := RecordEvent();
      }
    }

    // Identifiers from `base` on are unused.
    ghost predicate Above(base: nat)
      reads this
    {
      Below(world.minted, base)
    }

    lemma IdsFrom(m: Move, base: nat)
      requires Above(base) && (m.Start? || m.Adopt? ==> m.worker == base + 1 && m.lease == base + 2)
      ensures FreshIds(m, base) && Below(Minted(m) + {base}, base + 3)
    {
    }

    // The reconciler process dies.
    method Kill()
      requires Valid()
      modifies this`rec, this`history
      ensures Valid() && history == old(history) + [Crash] && rec.None?
    {
      ghost var s := Snapshot();
      rec := None;
      Step(s, Crash);
    }

    ghost predicate FreshIds(m: Move, no: EventNo)
      reads this
    {
      no !in world.minted && no !in Minted(m) && Minted(m) !! world.minted && (m.Start? || m.Adopt? ==> m.worker != m.lease)
    }

    // The atomic replace of the journal, and what the process then owes.
    method WriteJournal(x: Txn, r: Option<Rec>, w: World, ghost a: Action) returns (up: bool)
      requires Valid() && Enabled(Snapshot(), a)
      requires Effect(Snapshot(), a) == Snapshot().(disk := Files().(journal := Some(x)), rec := r, world := w)
      modifies this`journal, this`rec, this`world, this`budget, this`history
      ensures Valid() && old(history) <= history
      ensures up ==> journal == Some(x) && rec == r && world == w
      ensures !up ==> budget == 0 && Snapshot() == old(Snapshot())
      ensures budget + 1 >= old(budget)
    {
      up := Alive();
      if up {
        ghost var s := Snapshot();
        journal, rec, world := Some(x), r, w;
        Step(s, a);
      }
    }

    // The launch or wake that follows a commit, still inside the mutation lock.
    method Actuate()
      requires Valid() && Enabled(Snapshot(), Dispatch)
      modifies this`rec, this`world, this`history
      ensures Valid() && Snapshot() == Effect(old(Snapshot()), Dispatch) && history == old(history) + [Dispatch]
    {
      ghost var s := Snapshot();
      var d := rec.value.duty.value;
      world := world.(live := world.live + {d.worker}, launched := world.launched[d.worker := Launch(d.task, rec.value.epoch)]);
      rec := Some(rec.value.(obs := None, duty := None));
      Step(s, Dispatch);
    }

    method Abandon()
      requires Valid() && Enabled(Snapshot(), DropDispatch)
      modifies this`rec, this`history
      ensures Valid() && Snapshot() == Effect(old(Snapshot()), DropDispatch) && history == old(history) + [DropDispatch]
    {
      ghost var s := Snapshot();
      rec := Some(rec.value.(duty := None));
      Step(s, DropDispatch);
    }

    // The proposal a move makes in the present state.
    function Proposed(m: Move): Option<Proposal>
      reads this`rec
    {
      if !ByReconciler(m) then Propose(m, Initial, None, limit)
      else if rec.Some? then Propose(m, rec.value.epoch, rec.value.obs, limit)
      else None
    }

    // Whether the running reconciler passes the writer check.
    predicate Writable()
      requires rec.Some?
      reads this
    {
      WriterOk(Disk(tasks, log, torn, journal, manifest, marker, archives), rec.value.me, false, None)
    }

    // What a completed commit leaves on disk, relative to where it started.
    ghost predicate Saved(before: Disk, p: Proposal, no: EventNo)
      reads this
    {
      && journal.None?
      && tasks == Now(before)[p.task.id := Transaction(p, no).after]
      && Audit(Files()) == Audit(before) + [Transaction(p, no).event]
    }

    ghost predicate LogicallySame(before: Disk)
      reads this
    {
      Now(Files()) == Now(before) && Audit(Files()) == Audit(before)
    }

    // A commit has happened or it has not, wherever it stopped.
    ghost predicate AllOrNothing(before: Disk, p: Proposal, no: EventNo)
      reads this
    {
      || LogicallySame(before)
      || (Admissible(Now(before), p)
          && Now(Files()) == Now(before)[p.task.id := Transaction(p, no).after]
          && Audit(Files()) == Audit(before) + [Transaction(p, no).event])
    }

    // The journal write is the commit point: from there on the commit has logically happened.
    lemma Journalled(me: Identity, m: Move, p: Proposal, no: EventNo)
      requires Valid() && FreshIds(m, no) && Unlocked(Snapshot()) && journal.None? && Admissible(tasks, p)
      requires Proposed(m) == Some(p) && (ByReconciler(m) ==> rec.value.me == me)
      requires WriterOk(Files(), me, p.dispatch.Some?, if ByReconciler(m) then Some(rec.value.epoch) else None)
      ensures ProposalOf(Snapshot(), m) == Some(p)
      ensures var a := FarmMachine.Action.Commit(me, m, no);
              && Enabled(Snapshot(), a)
              && Now(Effect(Snapshot(), a).disk) == Now(Files())[p.task.id := Transaction(p, no).after]
              && Audit(Effect(Snapshot(), a).disk) == Audit(Files()) + [Transaction(p, no).event]
              && Effect(Snapshot(), a).rec == if ByReconciler(m) then Some(rec.value.(duty := p.dispatch)) else rec
    {
      assert CommitOk(Snapshot(), me, m, no);
      Reachable();
      NowStep(Snapshot(), FarmMachine.Action.Commit(me, m, no));
      AuditStep(Snapshot(), FarmMachine.Action.Commit(me, m, no));
    }

    // Compare-and-swap, reservation, journal and replay.
    method CommitLocked(me: Identity, m: Move, p: Proposal, no: EventNo) returns (r: Outcome)
      requires Valid() && FreshIds(m, no) && Unlocked(Snapshot())
      requires Proposed(m) == Some(p) && (ByReconciler(m) ==> rec.value.me == me)
      requires WriterOk(Files(), me, p.dispatch.Some?, if ByReconciler(m) then Some(rec.value.epoch) else None)
      modifies this`tasks, this`log, this`torn, this`journal, this`rec, this`world, this`budget, this`history
      ensures Valid() && old(history) <= history
      ensures r == Done ==> old(Admissible(Now(Files()), p)) && Saved(old(Files()), p, no)
      ensures AllOrNothing(old(Files()), p, no)
      ensures world == old(world).(minted := world.minted) && world.minted <= old(world).minted + Minted(m) + {no}
      ensures r == Done && ByReconciler(m) ==> rec == Some(old(rec).value.(duty := p.dispatch))
      ensures r == Refused && !torn ==> LogicallySame(old(Files())) && world == old(world) && rec == old(rec)
      ensures r == Refused ==> torn || !old(Admissible(Now(Files()), p))
      ensures rec == old(rec) || (ByReconciler(m) && rec == Some(old(rec).value.(duty := p.dispatch)))
      ensures r == Crashed ==> budget == 0
      ensures budget + 7 >= old(budget)
    {
      r := RecoverLocked();
      if r != Done {
        return;
      }
      if !Admissible(tasks, p) {
        return Refused;
      }
      r := SaveTransaction(me, m, p, no);
    }

    // Journal the transaction, then apply it.
    method SaveTransaction(me: Identity, m: Move, p: Proposal, no: EventNo) returns (r: Outcome)
      requires Valid() && FreshIds(m, no) && Unlocked(Snapshot()) && journal.None? && Admissible(tasks, p)
      requires Proposed(m) == Some(p) && (ByReconciler(m) ==> rec.value.me == me)
      requires WriterOk(Files(), me, p.dispatch.Some?, if ByReconciler(m) then Some(rec.value.epoch) else None)
      modifies this`tasks, this`log, this`torn, this`journal, this`rec, this`world, this`budget, this`history
      ensures Valid() && old(history) <= history
      ensures r == Done ==> Saved(old(Files()), p, no)
      ensures AllOrNothing(old(Files()), p, no)
      ensures world == old(world).(minted := world.minted) && world.minted <= old(world).minted + Minted(m) + {no}
      ensures rec == old(rec) || (ByReconciler(m) && rec == Some(old(rec).value.(duty := p.dispatch)))
      ensures r == Done && ByReconciler(m) ==> rec == Some(old(rec).value.(duty := p.dispatch))
      ensures r == Refused ==> torn
      ensures r == Crashed ==> budget == 0
      ensures budget + 4 >= old(budget)
    {
      Journalled(me, m, p, no);
      EffectOfCommit(Snapshot(), me, m, p, no);
      var owing := rec;
      if ByReconciler(m) {
        owing := Some(rec.value.(duty := p.dispatch));
      }
      var up := WriteJournal(Transaction(p, no), owing, world.(minted := world.minted + Minted(m) + {no}),
                             FarmMachine.Action.Commit(me, m, no));
      if !up {
        return Crashed;
      }
      r := RecoverLocked();
    }

    // The move makes a proposal, and its author passes the writer check.
    predicate Allowed(me: Identity, m: Move)
      requires ByReconciler(m) ==> rec.Some?
      reads this
    {
      && Proposed(m).Some?
      && WriterOk(Disk(tasks, log, torn, journal, manifest, marker, archives), me, Proposed(m).value.dispatch.Some?,
                  if ByReconciler(m) then Some(rec.value.epoch) else None)
    }

    // An allowed commit of proposal p is refused only for a damaged log or a stale or
    // inadmissible snapshot; and its event is in the audit log exactly if its task is saved.
    ghost predicate Committed(r: Outcome, before: Disk, p: Proposal, no: EventNo)
      reads this
    {
      && AllOrNothing(before, p, no)
      && (r == Done ==> Saved(before, p, no))
      && (r == Refused ==> torn || (!Admissible(Now(before), p) && LogicallySame(before)))
    }

    // The one durable boundary, including the external effect that follows a dispatching
    // commit. `launchLost` is an executor that raises instead of dispatching.
    method Commit(me: Identity, m: Move, no: EventNo, launchLost: bool) returns (r: Outcome)
      requires Valid() && FreshIds(m, no) && Unlocked(Snapshot())
      requires ByReconciler(m) ==> rec.Some? && rec.value.me == me
      modifies this`tasks, this`log, this`torn, this`journal, this`rec, this`world, this`budget, this`history
      ensures Valid() && old(history) <= history
      ensures if old(Allowed(me, m)) then Committed(r, old(Files()), old(Proposed(m)).value, no)
              else r == Refused && Snapshot() == old(Snapshot())
      ensures CarriedOut(r, torn, old(Now(Files())), Now(Files()), old(world), world, old(Proposed(m)), no,
                         if old(rec).Some? then old(rec).value.epoch else Initial, launchLost)
      ensures world.minted <= old(world).minted + Minted(m) + {no}
      ensures rec.Some? ==> old(rec).Some? && rec.value.me == old(rec).value.me && rec.value.epoch == old(rec).value.epoch
      ensures r != Crashed && old(rec).Some? ==> rec.Some?
      ensures r == Crashed ==> budget == 0
      ensures Unlocked(Snapshot())
      ensures budget + 7 >= old(budget)
    {
      if !Allowed(me, m) {
        return Refused;
      }
      ghost var before, w, epoch := Now(Files()), world, if rec.Some? then rec.value.epoch else Initial;
      var p := Proposed(m).value;
      Plain(m);
      r := CommitLocked(me, m, p, no);
      FollowUp(m, p, r, launchLost);
      Carried(r, torn, before, Now(Files()), w, world, p, no, epoch, launchLost);
    }

    // What follows the commit while the lock is still held: nothing, for all but the reconciler.
    method FollowUp(m: Move, p: Proposal, r: Outcome, launchLost: bool)
      requires Valid() && (r == Done ==> journal.None?)
      requires if ByReconciler(m) then rec.Some? && (r == Done ==> rec.value.duty == p.dispatch)
               else p.dispatch.None? && Unlocked(Snapshot())
      modifies this`rec, this`world, this`history
      ensures Valid() && old(history) <= history && Unlocked(Snapshot())
      ensures old(rec).Some? ==> world == Dispatched(old(world), p.dispatch, old(rec).value.epoch, r == Done && !launchLost)
      ensures old(rec).None? ==> world == old(world)
      ensures r == Done && !launchLost && p.dispatch.Some? ==> p.dispatch.value.worker !in old(world).live
      ensures rec.Some? ==> old(rec).Some? && rec.value.me == old(rec).value.me && rec.value.epoch == old(rec).value.epoch
      ensures r != Crashed && old(rec).Some? ==> rec.Some?
    {
      if ByReconciler(m) {
        Discharge(r, launchLost);
      }
    }

    lemma OwedIsQuiet()
      requires Valid() && rec.Some? && rec.value.duty.Some?
      ensures rec.value.duty.value.worker !in world.live
    {
      assert WorkerInv(Snapshot()) by { Reachable(); }
    }

    // The dispatch a commit owes, made, lost with the executor or abandoned with the process.
    method Discharge(r: Outcome, launchLost: bool)
      requires Valid() && rec.Some? && (r == Done ==> journal.None?)
      modifies this`rec, this`world, this`history
      ensures Valid() && old(history) <= history
      ensures world == Dispatched(old(world), old(rec).value.duty, old(rec).value.epoch, r == Done && !launchLost)
      ensures r == Done && !launchLost && old(rec).value.duty.Some? ==> old(rec).value.duty.value.worker !in old(world).live
      ensures if r == Crashed then rec.None?
              else rec.Some? && rec.value.me == old(rec).value.me && rec.value.epoch == old(rec).value.epoch && rec.value.duty.None?
    {
      if r == Crashed {
        Kill();
      } else if rec.value.duty.Some? {
        if r == Done && !launchLost {
          OwedIsQuiet();
          Actuate();
        } else {
          Abandon();
        }
      }
    }

    // Only the reconciler's moves dispatch.
    lemma Plain(m: Move)
      ensures !ByReconciler(m) && Proposed(m).Some? ==> Proposed(m).value.dispatch.None?
    {
    }

    // --------------------------------------------------------- deployment manifest

    method ReplaceManifest(m: Manifest, ghost a: Action, w: World) returns (up: bool)
      requires Valid() && Enabled(Snapshot(), a)
      requires Effect(Snapshot(), a) == Snapshot().(disk := Files().(manifest := m), world := w)
      modifies this`manifest, this`world, this`budget, this`history
      ensures Valid() && old(history) <= history
      ensures up ==> manifest == m && world == w && history == old(history) + [a]
      ensures !up ==> budget == 0 && Snapshot() == old(Snapshot())
      ensures budget + 1 >= old(budget)
    {
      up := Alive();
      if up {
        ghost var s := Snapshot();
        manifest, world := m, w;
        Step(s, a);
      }
    }

    lemma FinishIsSilent(a: Action)
      requires Valid() && Enabled(Snapshot(), a) && (a.FinishAppend? || a.FinishClear?)
      ensures Now(Effect(Snapshot(), a).disk) == Now(Files()) && Audit(Effect(Snapshot(), a).disk) == Audit(Files())
    {
      Reachable();
      NowStep(Snapshot(), a);
      AuditStep(Snapshot(), a);
    }

    // Complete the redo record embedded in the manifest.
    method FinishDeploymentEvent(me: Identity, claiming: bool) returns (r: Outcome)
      requires Valid() && Unlocked(Snapshot()) && marker.None?
      modifies this`log, this`torn, this`manifest, this`world, this`budget, this`history
      ensures Valid() && old(history) <= history
      ensures LogicallySame(old(Files())) && world == old(world)
      ensures manifest.(pending := None) == old(manifest).(pending := None)
      ensures r == Done ==> manifest.pending.None? && torn == old(torn)
      ensures r == Refused ==> Snapshot() == old(Snapshot()) && history == old(history)
      ensures r == Refused ==> manifest.pending.Some? && (torn || !PendingOwner(manifest, me, claiming))
      ensures r == Done && old(manifest.pending.Some?) ==>
                && manifest.identity.Some? && manifest.identity.value.build == me.build
                && if claiming then manifest.control.Some? && manifest.control.value.target == Some(me.host)
                   else manifest.identity.value.host == me.host
      ensures r == Crashed ==> budget == 0
      ensures budget + 2 >= old(budget)
    {
      if manifest.pending.None? {
        return Done;
      }
      if !PendingOwner(manifest, me, claiming) || torn {
        return Refused;
      }
      r := RecordPending(me, claiming);
      if r == Done {
        r := DropPending(me, claiming);
      }
    }

    method DropPending(me: Identity, claiming: bool) returns (r: Outcome)
      requires Valid() && Enabled(Snapshot(), FinishClear(me, claiming))
      modifies this`manifest, this`world, this`budget, this`history
      ensures Valid() && old(history) <= history
      ensures LogicallySame(old(Files())) && world == old(world)
      ensures if r == Done then manifest == old(manifest).(pending := None) else r == Crashed && budget == 0 && manifest == old(manifest)
      ensures budget + 1 >= old(budget)
    {
      FinishIsSilent(FinishClear(me, claiming));
      var up := ReplaceManifest(manifest.(pending := None), FinishClear(me, claiming), world);
      return if up then Done else Crashed;
    }

    method RecordPending(me: Identity, claiming: bool) returns (r: Outcome)
      requires Valid() && Unlocked(Snapshot()) && marker.None? && !torn && manifest.pending.Some?
      requires PendingOwner(manifest, me, claiming)
      modifies this`log, this`torn, this`budget, this`history
      ensures Valid() && old(history) <= history
      ensures LogicallySame(old(Files()))
      ensures r == Done ==> Enabled(Snapshot(), FinishClear(me, claiming)) && !torn
      ensures r != Done ==> r == Crashed && budget == 0
      ensures budget + 1 >= old(budget)
    {
      var event := manifest.pending.value;
      var ids := LogIds();
      if event.id !in ids {
        FinishIsSilent(FinishAppend(me, claiming));
        IdsAppend(log, event);
        var up := AppendLog(event, FinishAppend(me, claiming));
        if !up {
          return Crashed;
        }
      }
      r := Done;
    }

    // Write the new control with its redo record, then complete the record.
    method Publish(me: Identity, m: Manifest, e: Event, ghost a: Action, w: World) returns (r: Outcome)
      requires Valid() && Unlocked(Snapshot()) && marker.None? && !torn && Enabled(Snapshot(), a)
      requires Effect(Snapshot(), a) == Snapshot().(disk := Files().(manifest := m.(pending := Some(e))), world := w)
      requires Emitted(Snapshot(), a) == Some(e) && Written(Snapshot(), a).None? && a != StopClearedAppend && m.identity == Some(me)
      modifies this`log, this`torn, this`manifest, this`world, this`budget, this`history
      ensures Valid() && old(history) <= history
      ensures r == Done ==> manifest == m.(pending := None) && Audit(Files()) == old(Audit(Files())) + [e] && !torn
      ensures r != Done ==> r == Crashed && budget == 0
      ensures manifest.(pending := None) in {old(manifest).(pending := None), m.(pending := None)}
      ensures budget + 3 >= old(budget)
    {
      Reachable();
      AuditStep(Snapshot(), a);
      var up := ReplaceManifest(m.(pending := Some(e)), a, w);
      if !up {
        return Crashed;
      }
      r := FinishDeploymentEvent(me, false);
    }

    // With no redo record, every deployment event is in the log itself.
    lemma JournalHidesNoDeployment()
      requires Valid() && manifest.pending.None?
      ensures forall i <- Ids(Audit(Files())) | i.DeployEvent? :: i in Ids(log)
    {
      Reachable();
      LogInAudit(Files());
    }

    lemma ControlIsLogged()
      requires Valid() && manifest.pending.None? && manifest.control.Some?
      ensures Opening(manifest.control.value.id) in Ids(log)
    {
      Reachable();
      JournalHidesNoDeployment();
    }

    // A redo record, if there is one, is this caller's to complete.
    ghost predicate OwnsPending(me: Identity, claiming: bool)
      reads this
    {
      manifest.pending.Some? ==> PendingOwner(manifest, me, claiming)
    }

    ghost predicate MayDrain(me: Identity, n: nat, target: nat)
      reads this
    {
      && marker.None? && !torn && OwnsPending(me, false) && manifest.identity == Some(me) && target != me.host
      && if MayReplaceControl(manifest) then Opening(Request(n)) !in Ids(Audit(Files()))
         else manifest.control.value.id == Request(n) && manifest.control.value.target == Some(target)
    }

    method DrainFarm(me: Identity, n: nat, target: nat) returns (r: Outcome)
      requires Valid() && Unlocked(Snapshot())
      modifies this`tasks, this`log, this`torn, this`journal, this`manifest, this`world, this`budget, this`history
      ensures Valid() && old(history) <= history
      ensures r == Done ==>
                if old(manifest.control.None? || manifest.control.value.phase == Claimed)
                then manifest == old(manifest).(control := Some(Control(Request(n), Draining, Some(target), None)), pending := None)
                else manifest == old(manifest).(pending := None)
                     && manifest.control.value.id == Request(n) && manifest.control.value.target == Some(target)
      ensures r == Done ==> Opening(Request(n)) in Ids(log)
      ensures Now(Files()) == old(Now(Files()))
      ensures r == Refused ==> !old(MayDrain(me, n, target))
      ensures r == Crashed ==> budget == 0
      ensures budget + 8 >= old(budget)
    {
      if marker.Some? {
        return Refused;
      }
      r := FinishDeploymentEvent(me, false);
      if r != Done {
        return;
      }
      LogInAudit(Files());
      if manifest.identity != Some(me) || target == me.host {
        return Refused;
      }
      if manifest.control.Some? && manifest.control.value.phase != Claimed {
        if manifest.control.value.id != Request(n) || manifest.control.value.target != Some(target) {
          return Refused;
        }
        ControlIsLogged();
        return Done;
      }
      var ids := LogIds();
      if torn || DeployEvent(Request(n), FarmDrained) in ids {
        return Refused;
      }
      r := StartDrain(me, n, target);
    }

    // The new drain, once its preconditions have been checked.
    method StartDrain(me: Identity, n: nat, target: nat) returns (r: Outcome)
      requires Valid() && Unlocked(Snapshot()) && marker.None? && manifest.pending.None? && !torn
      requires manifest.identity == Some(me) && target != me.host && MayReplaceControl(manifest)
      requires DeployEvent(Request(n), FarmDrained) !in Ids(log)
      modifies this`tasks, this`log, this`torn, this`journal, this`manifest, this`world, this`budget, this`history
      ensures Valid() && old(history) <= history
      ensures r == Done ==> manifest == old(manifest).(control := Some(Control(Request(n), Draining, Some(target), None)))
      ensures r == Done ==> Opening(Request(n)) in Ids(log)
      ensures r != Refused
      ensures Now(Files()) == old(Now(Files()))
      ensures r == Crashed ==> budget == 0
      ensures budget + 6 >= old(budget)
    {
      JournalHidesNoDeployment();
      r := RecoverLocked();
      if r != Done {
        return;
      }
      LogInAudit(Files());
      var c := Control(Request(n), Draining, Some(target), None);
      var a := Drain(me, n, target);
      assert Enabled(Snapshot(), a);
      r := Publish(me, manifest.(control := Some(c)), Deployed(c, FarmDrained), a, world);
      if r == Done {
        ControlIsLogged();
      }
    }

    // Workers issued to the given tasks in the given epoch.
    function Issued(ts: Tasks, e: Epoch): set<WorkerId> {
      set t, w | t in ts && ts[t].meta.dispatches.Some? && ts[t].meta.dispatches.value.epoch == e
                 && w in ts[t].meta.dispatches.value.workers :: w
    }

    predicate Surrendered(t: Task) {
      t.lease.None? && t.state != RUNNING && (t.state == WAITING ==> CleanSurrender(t))
    }

    method WriteArchive(me: Identity) returns (up: bool)
      requires Valid() && Enabled(Snapshot(), Archive(me))
      modifies this`archives, this`budget, this`history
      ensures Valid() && old(history) <= history
      ensures up ==> archives == old(archives)[manifest.control.value.id := tasks]
      ensures !up ==> budget == 0
      ensures budget + 1 >= old(budget)
    {
      up := Alive();
      if up {
        ghost var s := Snapshot();
        archives := archives[manifest.control.value.id := tasks];
        Step(s, Archive(me));
      }
    }

    // Every lease is cleanly surrendered and every worker of the epoch positively dead.
    ghost predicate QuietBy(ts: Tasks, alive: map<WorkerId, Liveness>)
      reads this
    {
      && (forall t <- ts ::
            && ts[t].lease.None? && ts[t].state != RUNNING
            && (ts[t].state == WAITING ==>
                  ts[t].meta.surrender.Some? && !ts[t].meta.surrender.value.file.blank
                  && ts[t].meta.surrender.value.waitingOn == ts[t].meta.waitingOn))
      && (forall t <- ts | ts[t].meta.dispatches.Some? && ts[t].meta.dispatches.value.epoch == manifest.epoch ::
            forall w <- ts[t].meta.dispatches.value.workers :: w in alive && alive[w] == Dead)
    }

    ghost predicate MayRelease(me: Identity, n: nat, alive: map<WorkerId, Liveness>)
      reads this
    {
      && rec.None? && marker.None? && !torn && OwnsPending(me, false) && manifest.identity == Some(me)
      && manifest.control.Some? && manifest.control.value.id == Request(n) && !InPhase(manifest, Claimed)
      && (InPhase(manifest, Draining) ==> QuietBy(Now(Files()), alive))
    }

    // Seal a drained farm. `alive` is what the executor reported for each issued worker;
    // only a positive death counts.
    method ReleaseFarm(me: Identity, n: nat, alive: map<WorkerId, Liveness>) returns (r: Outcome)
      requires Valid()
      requires forall w <- alive | alive[w] == Dead :: w !in world.live
      modifies this`tasks, this`log, this`torn, this`journal, this`manifest, this`archives, this`world, this`budget, this`history
      ensures Valid() && old(history) <= history
      ensures r == Done && old(InPhase(manifest, Released)) ==>
                manifest == old(manifest).(pending := None) && manifest.control.value.id == Request(n)
      ensures r == Done && !old(InPhase(manifest, Released)) ==>
                && old(manifest).control.Some? && old(manifest).control.value.id == Request(n)
                && manifest == old(manifest).(control := Some(Control(Request(n), Released, old(manifest).control.value.target, Some(tasks))),
                                              pending := None)
                && tasks == old(Now(Files())) && AllDead(Snapshot(), manifest.epoch)
      ensures Now(Files()) == old(Now(Files()))
      ensures r == Refused ==> !old(MayRelease(me, n, alive))
      ensures r == Crashed ==> budget == 0
      ensures budget + 9 >= old(budget)
    {
      if rec.Some? || marker.Some? {
        return Refused;
      }
      r := FinishDeploymentEvent(me, false);
      if r == Done {
        r := ReleaseDrained(me, n, alive);
      }
    }

    method ReleaseDrained(me: Identity, n: nat, alive: map<WorkerId, Liveness>) returns (r: Outcome)
      requires Valid() && rec.None? && marker.None? && manifest.pending.None?
      requires forall w <- alive | alive[w] == Dead :: w !in world.live
      modifies this`tasks, this`log, this`torn, this`journal, this`manifest, this`archives, this`world, this`budget, this`history
      ensures Valid() && old(history) <= history
      ensures r == Done && old(InPhase(manifest, Released)) ==>
                manifest == old(manifest).(pending := None) && manifest.control.value.id == Request(n)
      ensures r == Done && !old(InPhase(manifest, Released)) ==>
                && old(manifest).control.Some? && old(manifest).control.value.id == Request(n)
                && manifest == old(manifest).(control := Some(Control(Request(n), Released, old(manifest).control.value.target, Some(tasks))),
                                              pending := None)
                && tasks == old(Now(Files())) && AllDead(Snapshot(), manifest.epoch)
      ensures Now(Files()) == old(Now(Files()))
      ensures r == Refused ==> !old(MayRelease(me, n, alive))
      ensures r == Crashed ==> budget == 0
      ensures budget + 7 >= old(budget)
    {
      if manifest.identity != Some(me) || manifest.control.None? || manifest.control.value.id != Request(n) || InPhase(manifest, Claimed) {
        return Refused;
      }
      if InPhase(manifest, Released) {
        return Done;
      }
      r := RecoverLocked();
      if r == Done {
        r := SealIfQuiet(me, alive);
      }
    }

    method SealIfQuiet(me: Identity, alive: map<WorkerId, Liveness>) returns (r: Outcome)
      requires Valid() && Offline(Snapshot()) && manifest.identity == Some(me)
      requires InPhase(manifest, Draining) && manifest.control.value.id.Request?
      requires forall w <- alive | alive[w] == Dead :: w !in world.live
      modifies this`log, this`torn, this`manifest, this`archives, this`world, this`budget, this`history
      ensures Valid() && old(history) <= history
      ensures r == Done ==> manifest == old(manifest).(control := Some(old(manifest).control.value.(phase := Released, seal := Some(tasks))))
                            && AllDead(Snapshot(), manifest.epoch)
      ensures r == Refused ==> (torn && old(torn)) || !old(QuietBy(tasks, alive))
      ensures r == Crashed ==> budget == 0
      ensures budget + 4 >= old(budget)
    {
      if exists t <- tasks :: !Surrendered(tasks[t]) {
        return Refused;
      }
      var workers := Issued(tasks, manifest.epoch);
      if exists w <- workers :: w !in alive || alive[w] != Dead {
        return Refused;
      }
      QuietMeansQuiesced(alive);
      r := ArchiveAndSeal(me);
    }

    lemma QuietMeansQuiesced(alive: map<WorkerId, Liveness>)
      requires QuietBy(tasks, alive) && forall w <- alive | alive[w] == Dead :: w !in world.live
      ensures Quiesced(Snapshot())
    {
    }

    method ArchiveAndSeal(me: Identity) returns (r: Outcome)
      requires Valid() && ReleaseOk(Snapshot(), me)
      modifies this`log, this`torn, this`manifest, this`archives, this`world, this`budget, this`history
      ensures Valid() && old(history) <= history
      ensures r == Done ==> manifest == old(manifest).(control := Some(old(manifest).control.value.(phase := Released, seal := Some(tasks))))
                            && AllDead(Snapshot(), manifest.epoch)
      ensures r == Refused ==> torn && old(torn)
      ensures r == Crashed ==> budget == 0
      ensures budget + 4 >= old(budget)
    {
      var up := WriteArchive(me);
      if !up {
        return Crashed;
      }
      if torn {
        return Refused;
      }
      r := PublishSeal(me);
    }

    method PublishSeal(me: Identity) returns (r: Outcome)
      requires Valid() && Enabled(Snapshot(), Seal(me))
      modifies this`log, this`torn, this`manifest, this`world, this`budget, this`history
      ensures Valid() && old(history) <= history
      ensures r == Done ==> manifest == old(manifest).(control := Some(old(manifest).control.value.(phase := Released, seal := Some(tasks))))
                            && AllDead(Snapshot(), manifest.epoch)
      ensures r != Done ==> r == Crashed && budget == 0
      ensures budget + 3 >= old(budget)
    {
      Reachable();
      SealCloses(Snapshot(), me);
      var c := manifest.control.value;
      var sealed := c.(phase := Released, seal := Some(archives[c.id]));
      r := Publish(me, manifest.(control := Some(sealed)), Deployed(c, FarmReleased), Seal(me), world);
      if r == Done {
        assert SealInv(Snapshot()) by { Reachable(); }
      }
    }

    ghost predicate MayClaim(me: Identity, n: nat)
      reads this
    {
      && rec.None? && marker.None? && !torn
      && manifest.control.Some? && manifest.control.value.id == Request(n) && manifest.control.value.target == Some(me.host)
      && manifest.control.value.phase != Draining && manifest.identity.Some? && manifest.identity.value.build == me.build
    }

    method ClaimFarm(me: Identity, n: nat) returns (r: Outcome)
      requires Valid()
      modifies this`log, this`torn, this`manifest, this`world, this`budget, this`history
      ensures Valid() && old(history) <= history
      ensures r == Done ==>
                && old(manifest).control.Some? && old(manifest).control.value.id == Request(n)
                && if old(InPhase(manifest, Released))
                   then manifest == Manifest(Some(me), HandedOver(n), Some(old(manifest).control.value.(phase := Claimed)), None)
                        && old(manifest).control.value.seal == Some(tasks) && HandedOver(n) !in old(world).epochs
                   else old(InPhase(manifest, Claimed)) && manifest == old(manifest).(pending := None)
      ensures r == Refused ==> !old(MayClaim(me, n))
      ensures r == Refused && !torn && old(manifest.pending.None?) ==> manifest == old(manifest)
      ensures r == Crashed ==> budget == 0
      ensures budget + 5 >= old(budget)
    {
      if rec.Some? || marker.Some? || manifest.control.None? {
        return Refused;
      }
      var c := manifest.control.value;
      if c.id != Request(n) || c.target != Some(me.host) || manifest.identity.None? || manifest.identity.value.build != me.build
         || c.phase == Draining {
        return Refused;
      }
      r := FinishDeploymentEvent(me, true);
      if r != Done {
        return;
      }
      if c.phase == Claimed {
        return Done;
      }
      r := TakeOver(me, n);
    }

    // The claim proper: the archived tasks are the sealed ones and the ones on disk.
    method TakeOver(me: Identity, n: nat) returns (r: Outcome)
      requires Valid() && rec.None? && marker.None? && manifest.pending.None? && InPhase(manifest, Released)
      requires manifest.control.value.id == Request(n) && manifest.control.value.target == Some(me.host)
      requires manifest.identity.Some? && manifest.identity.value.build == me.build
      modifies this`log, this`torn, this`manifest, this`world, this`budget, this`history
      ensures Valid() && old(history) <= history
      ensures r == Done ==> manifest == Manifest(Some(me), HandedOver(n), Some(old(manifest).control.value.(phase := Claimed)), None)
                            && old(manifest).control.value.seal == Some(tasks) && HandedOver(n) !in old(world).epochs
      ensures r == Refused ==> torn && old(torn) && manifest == old(manifest)
      ensures r == Crashed ==> budget == 0
      ensures budget + 3 >= old(budget)
    {
      var c := manifest.control.value;
      assert SealInv(Snapshot()) by { Reachable(); }
      if c.id !in archives || c.seal != Some(archives[c.id]) || archives[c.id] != tasks || journal.Some? {
        return Refused;
      }
      if torn {
        return Refused;
      }
      assert HandedOver(n) !in world.epochs by { Reachable(); }
      r := Publish(me, manifest.(identity := Some(me), epoch := HandedOver(n), control := Some(c.(phase := Claimed))),
                   Deployed(c, FarmClaimed), Claim(me, n), world.(epochs := world.epochs + {HandedOver(n)}));
    }

    // ------------------------------------------------------------------ stop and start

    ghost predicate MayStop(me: Identity, ts: nat)
      reads this
    {
      && marker.None? && !torn && OwnsPending(me, false) && manifest.identity == Some(me)
      && if MayReplaceControl(manifest) then Opening(StopAt(ts)) !in Ids(Audit(Files())) else manifest.control.value.id.StopAt?
    }

    method StopDrain(me: Identity, ts: nat) returns (r: Outcome)
      requires Valid() && Unlocked(Snapshot())
      modifies this`tasks, this`log, this`torn, this`journal, this`manifest, this`world, this`budget, this`history
      ensures Valid() && old(history) <= history
      ensures r == Done ==>
                if old(manifest.control.None? || manifest.control.value.phase == Claimed)
                then manifest == old(manifest).(control := Some(Control(StopAt(ts), Draining, None, None)), pending := None)
                else manifest == old(manifest).(pending := None) && manifest.control.value.id.StopAt?
      ensures r == Done ==> Opening(manifest.control.value.id) in Ids(log)
      ensures old(manifest.control.Some? && manifest.control.value.id.Request? && !InPhase(manifest, Claimed)) ==>
                r != Done && manifest.control == old(manifest).control
      ensures Now(Files()) == old(Now(Files()))
      ensures r == Refused ==> !old(MayStop(me, ts))
      ensures r == Crashed ==> budget == 0
      ensures budget + 8 >= old(budget)
    {
      if marker.Some? {
        return Refused;
      }
      r := FinishDeploymentEvent(me, false);
      if r != Done {
        return;
      }
      LogInAudit(Files());
      if manifest.identity.None? || manifest.identity.value.host != me.host {
        return Refused;
      }
      if manifest.control.Some? && manifest.control.value.phase != Claimed {
        if manifest.control.value.id.StopAt? {
          ControlIsLogged();
          return Done;
        }
        return Refused;
      }
      var ids := LogIds();
      if torn || DeployEvent(StopAt(ts), FarmStopDrain) in ids {
        return Refused;
      }
      r := StartStop(me, ts);
    }

    method StartStop(me: Identity, ts: nat) returns (r: Outcome)
      requires Valid() && Unlocked(Snapshot()) && marker.None? && manifest.pending.None? && !torn
      requires manifest.identity.Some? && manifest.identity.value.host == me.host && MayReplaceControl(manifest)
      requires DeployEvent(StopAt(ts), FarmStopDrain) !in Ids(log)
      modifies this`tasks, this`log, this`torn, this`journal, this`manifest, this`world, this`budget, this`history
      ensures Valid() && old(history) <= history
      ensures r == Done ==> manifest == old(manifest).(control := Some(Control(StopAt(ts), Draining, None, None)), pending := None)
                            && Opening(StopAt(ts)) in Ids(log)
      ensures r == Refused ==> old(manifest).identity != Some(me)
      ensures Now(Files()) == old(Now(Files()))
      ensures r == Crashed ==> budget == 0
      ensures budget + 6 >= old(budget)
    {
      JournalHidesNoDeployment();
      r := RecoverLocked();
      if r != Done {
        return;
      }
      LogInAudit(Files());
      r := PublishStop(me, ts);
    }

    // The stop control may be written by another build than the deployment's; its audit
    // record is then left for the deployment's own build to complete.
    method PublishStop(me: Identity, ts: nat) returns (r: Outcome)
      requires Valid() && Enabled(Snapshot(), FarmMachine.Action.StopDrain(me, ts))
      modifies this`log, this`torn, this`manifest, this`world, this`budget, this`history
      ensures Valid() && old(history) <= history
      ensures r == Done ==> manifest == old(manifest).(control := Some(Control(StopAt(ts), Draining, None, None)), pending := None)
                            && Opening(StopAt(ts)) in Ids(log)
      ensures r == Refused ==> old(manifest).identity != Some(me)
      ensures r == Crashed ==> budget == 0
      ensures budget + 3 >= old(budget)
    {
      var c := Control(StopAt(ts), Draining, None, None);
      var up := ReplaceManifest(manifest.(control := Some(c), pending := Some(Deployed(c, FarmStopDrain))),
                                FarmMachine.Action.StopDrain(me, ts), world);
      if !up {
        return Crashed;
      }
      r := FinishDeploymentEvent(me, false);
      if r == Done {
        ControlIsLogged();
      }
    }

    // Drop a finished stop control at daemon startup.
    method ClearStopControl() returns (r: Outcome)
      requires Valid() && rec.None? && marker.None? && manifest.pending.None?
      modifies this`log, this`torn, this`manifest, this`world, this`budget, this`history
      ensures Valid() && old(history) <= history && manifest.pending.None?
      ensures r == Done ==> manifest.control.Some? ==> manifest.control.value.id.Request?
      ensures manifest.(control := None) == old(manifest).(control := None)
      ensures old(manifest.control.None? || manifest.control.value.id.Request?) ==> r == Done && manifest == old(manifest)
      ensures r == Done && old(manifest.control.Some? && manifest.control.value.id.StopAt?) ==>
                manifest == old(manifest).(control := None)
                && DeployEvent(old(manifest).control.value.id, FarmStopCleared) in Ids(log)
      ensures r == Refused ==> torn && Snapshot() == old(Snapshot())
      ensures r == Crashed ==> budget == 0
      ensures budget + 4 >= old(budget)
    {
      if manifest.control.None? || !manifest.control.value.id.StopAt? {
        return Done;
      }
      if torn {
        return Refused;
      }
      r := LogCleared();
      if r == Done {
        var up := ReplaceManifest(manifest.(control := None), StopClearedWrite, world);
        r := if up then Done else Crashed;
      }
    }

    method LogCleared() returns (r: Outcome)
      requires Valid() && rec.None? && marker.None? && manifest.pending.None? && !torn
      requires manifest.control.Some? && manifest.control.value.id.StopAt?
      modifies this`log, this`torn, this`budget, this`history
      ensures Valid() && old(history) <= history
      ensures r == Done ==> Enabled(Snapshot(), StopClearedWrite) && DeployEvent(manifest.control.value.id, FarmStopCleared) in Ids(log)
      ensures r != Done ==> r == Crashed && budget == 0
      ensures budget + 1 >= old(budget)
    {
      var event := Deployed(manifest.control.value, FarmStopCleared);
      var ids := LogIds();
      if event.id !in ids {
        IdsAppend(log, event);
        var up := AppendLog(event, StopClearedAppend);
        if !up {
          return Crashed;
        }
      }
      r := Done;
    }

    ghost predicate MayBoot(me: Identity)
      reads this
    {
      && rec.None? && marker.None? && !torn && OwnsPending(me, false)
      && (manifest.control.Some? && manifest.control.value.id.Request? ==>
            && !InPhase(manifest, Released) && manifest.identity.Some? && manifest.identity.value.host == me.host
            && (InPhase(manifest, Claimed) || manifest.identity == Some(me)))
      && (NoLeases(tasks) || (manifest.identity.Some? && manifest.identity.value.host == me.host))
    }

    lemma OnlyHandoffsRelease()
      requires Valid()
      ensures InPhase(manifest, Released) ==> manifest.control.value.id.Request?
    {
      Reachable();
      StopsNeverRelease(Snapshot());
    }

    // Daemon startup: everything that must hold before a reconciler exists.
    method Boot(me: Identity) returns (r: Outcome)
      requires Valid()
      modifies this`log, this`torn, this`manifest, this`world, this`rec, this`budget, this`history
      ensures Valid() && old(history) <= history
      ensures r == Done ==> old(rec).None? && rec == Some(Rec(me, manifest.epoch, None, None)) && marker.None?
      ensures r == Done ==>
                manifest == old(manifest).(identity := Some(me), pending := None,
                                           control := if old(manifest.control.Some? && manifest.control.value.id.StopAt?) then None
                                                      else old(manifest).control)
      ensures r != Done ==> rec == old(rec)
      ensures old(InPhase(manifest, Released)) ==> r != Done
      ensures r == Refused ==> !old(MayBoot(me))
      ensures r == Crashed ==> budget == 0
      ensures budget + 7 >= old(budget)
    {
      if rec.Some? || marker.Some? {
        return Refused;
      }
      OnlyHandoffsRelease();
      r := FinishDeploymentEvent(me, false);
      if r != Done {
        return;
      }
      r := ClearStopControl();
      if r == Done {
        r := Admit(me);
      }
    }

    // The host and phase checks, then the reconciler.
    method Admit(me: Identity) returns (r: Outcome)
      requires Valid() && rec.None? && marker.None? && manifest.pending.None?
      requires manifest.control.Some? ==> manifest.control.value.id.Request?
      modifies this`manifest, this`rec, this`budget, this`history
      ensures Valid() && old(history) <= history
      ensures r == Done ==> rec == Some(Rec(me, manifest.epoch, None, None)) && manifest == old(manifest).(identity := Some(me))
                              && !InPhase(manifest, Released)
      ensures r != Done ==> rec == old(rec) && manifest == old(manifest)
      ensures r == Refused ==>
                || (manifest.control.Some? && (InPhase(manifest, Released) || manifest.identity.None? || manifest.identity.value.host != me.host
                                               || (!InPhase(manifest, Claimed) && manifest.identity != Some(me))))
                || (!NoLeases(tasks) && (manifest.identity.None? || manifest.identity.value.host != me.host))
      ensures r == Crashed ==> budget == 0
      ensures budget + 1 >= old(budget)
    {
      if manifest.control.Some? && (InPhase(manifest, Released) || manifest.identity.None? || manifest.identity.value.host != me.host
                                    || (!InPhase(manifest, Claimed) && manifest.identity != Some(me))) {
        return Refused;
      }
      if !NoLeases(tasks) && (manifest.identity.None? || manifest.identity.value.host != me.host) {
        return Refused;
      }
      r := StartReconciler(me);
    }

    method StartReconciler(me: Identity) returns (r: Outcome)
      requires Valid() && Enabled(Snapshot(), FarmMachine.Action.Boot(me))
      modifies this`manifest, this`rec, this`budget, this`history
      ensures Valid() && old(history) <= history
      ensures r == Done ==> rec == Some(Rec(me, manifest.epoch, None, None)) && manifest == old(manifest).(identity := Some(me))
      ensures r != Done ==> r == Crashed && budget == 0 && rec == old(rec) && manifest == old(manifest)
      ensures budget + 1 >= old(budget)
    {
      var up := Alive();
      if !up {
        return Crashed;
      }
      ghost var s, a := Snapshot(), FarmMachine.Action.Boot(me);
      rec := Some(Rec(me, manifest.epoch, None, None));
      manifest := manifest.(identity := Some(me));
      Step(s, a);
      r := Done;
    }

    // Ask the executor about a worker. What it says is not under the program's control,
    // except that a positive answer is true: anything else reads as unknown.
    method PollWorker(w: WorkerId, says: Obs) returns (o: Obs)
      requires Valid() && rec.Some? && Unlocked(Snapshot())
      modifies this`rec, this`history
      ensures Valid() && old(history) <= history
      ensures o == Reported(world, says, w) && rec == Some(old(rec).value.(obs := Some(o)))
    {
      o := says;
      if o.worker != w
         || (o.alive == Dead && w in world.live) || (o.alive == Liveness.Alive && w !in world.live)
         || (o.receipt.Some? && o.receipt.value.status == SubmittedReceipt && o.receipt.value.worker == w && w !in world.reported) {
        o := Obs(w, Unknown, None);
      }
      ghost var s, a := Snapshot(), Poll(o);
      rec := Some(rec.value.(obs := Some(o)));
      Step(s, a);
    }

    // ------------------------------------------------------------- offline recovery

    method WriteMarker(rid: nat, plane: Identity) returns (up: bool)
      requires Valid() && Enabled(Snapshot(), BeginRecovery(rid, plane))
      modifies this`marker, this`world, this`budget, this`history
      ensures Valid() && old(history) <= history
      ensures up ==> marker == Some(MakeRecovery(old(Files()), rid, plane)) && world.minted == old(world).minted + {rid}
      ensures !up ==> budget == 0 && marker == old(marker) && world == old(world)
      ensures budget + 1 >= old(budget)
    {
      up := Alive();
      if up {
        ghost var s, a := Snapshot(), BeginRecovery(rid, plane);
        marker := Some(Recovery(rid, tasks, Changes(tasks, rid), manifest, Manifest(Some(plane), Recovered(rid), None, None)));
        world := world.(attested := world.attested + world.launched.Keys, minted := world.minted + {rid});
        Step(s, a);
      }
    }

    lemma MarkerMeansStopped()
      requires Valid() && marker.Some?
      ensures rec.None?
    {
      assert RecoveryInv(Snapshot()) by { Reachable(); }
    }

    lemma PlanFits()
      requires Valid() && journal.None? && manifest.identity.Some?
      ensures PlanOk(Files())
    {
      EndOf(limit, history, Snapshot());
      PlanNeverRefused(limit, history);
    }

    // Apply a reviewed plan, or finish one whose marker is already there.
    method RecoverFarm(plane: Identity, base: nat) returns (r: Outcome)
      requires Valid() && Above(base)
      modifies this`tasks, this`log, this`torn, this`journal, this`manifest, this`marker, this`world, this`budget, this`history
      ensures Valid() && old(history) <= history
      ensures r == Done ==> marker.None?
      ensures r == Done && old(marker).Some? ==> RecoveredFrom(old(marker).value, Files())
      ensures r == Done && old(marker).None? ==> RecoveredFrom(MakeRecovery(old(Files()), base, plane), Files())
      ensures r == Done && old(marker).None? ==> manifest == Manifest(Some(plane), Recovered(base), None, None)
      ensures r != Done && old(marker).None? && marker.Some? ==>
                marker.value.after == Manifest(Some(plane), Recovered(base), None, None) && marker.value.plan == old(tasks)
      ensures r != Done && old(marker).Some? ==> marker == old(marker)
      ensures old(rec.None? && marker.None? && journal.None? && manifest.identity.Some? && !torn) ==> r != Refused
      ensures old(marker.Some? && marker.value.after.identity == Some(plane) && !torn) ==> r != Refused
      ensures r == Crashed ==> budget == 0
      ensures budget + 4 * |if old(marker).Some? then old(marker).value.changes else old(Changes(tasks, base))| + 8 >= old(budget)
    {
      if marker.Some? {
        MarkerMeansStopped();
      }
      if rec.Some? {
        return Refused;
      }
      if marker.None? {
        if journal.Some? || manifest.identity.None? {
          return Refused;
        }
        PlanFits();
        var up := WriteMarker(base, plane);
        if !up {
          return Crashed;
        }
      } else if marker.value.after.identity != Some(plane) {
        return Refused;
      }
      r := Finish(base + 1);
    }

    // The recorded tasks are as planned or as prepared, and nothing else is pending.
    predicate Undisturbed(m: Recovery)
      reads this
    {
      && tasks.Keys == m.plan.Keys
      && (forall t <- m.plan :: tasks[t] == m.plan[t] || (t in m.changes && tasks[t] == m.changes[t]))
      && manifest in {m.before, m.after}
      && (journal.Some? ==> journal.value.after.id in m.changes && journal.value.after == m.changes[journal.value.after.id]
                              && journal.value.before == Lookup(m.plan, journal.value.after.id))
    }

    lemma NothingElseWrote()
      requires Valid() && marker.Some?
      ensures Undisturbed(marker.value)
    {
      Reachable();
    }

    method Finish(base: nat) returns (r: Outcome)
      requires Valid() && Above(base) && marker.Some?
      modifies this`tasks, this`log, this`torn, this`journal, this`manifest, this`marker, this`world, this`budget, this`history
      ensures Valid() && old(history) <= history
      ensures r == Done ==> marker.None? && RecoveredFrom(old(marker).value, Files())
      ensures r != Done ==> marker == old(marker)
      ensures r == Refused ==> old(torn)
      ensures r == Crashed ==> budget == 0
      ensures budget + 4 * |old(marker).value.changes| + 7 >= old(budget)
    {
      assert Undisturbed(marker.value) by { NothingElseWrote(); }
      if !Undisturbed(marker.value) || torn {
        return Refused;
      }
      r := Complete(base);
    }

    method Complete(base: nat) returns (r: Outcome)
      requires Valid() && Above(base) && marker.Some? && !torn
      modifies this`tasks, this`log, this`torn, this`journal, this`manifest, this`marker, this`world, this`budget, this`history
      ensures Valid() && old(history) <= history
      ensures r == Done ==> marker.None? && RecoveredFrom(old(marker).value, Files())
      ensures r != Done ==> r == Crashed && budget == 0 && marker == old(marker)
      ensures budget + 4 * |old(marker).value.changes| + 7 >= old(budget)
    {
      r := Settle();
      if r == Done {
        r := HoldAndConclude(base);
      }
    }

    method HoldAndConclude(base: nat) returns (r: Outcome)
      requires Valid() && marker.Some? && journal.None? && !torn && PendingLogged(marker.value, log) && Above(base)
      modifies this`tasks, this`log, this`torn, this`journal, this`manifest, this`marker, this`world, this`budget, this`history
      ensures Valid() && old(history) <= history
      ensures r == Done ==> marker.None? && RecoveredFrom(old(marker).value, Files())
      ensures r != Done ==> r == Crashed && budget == 0 && marker == old(marker)
      ensures budget + 4 * |old(marker).value.changes| + 3 >= old(budget)
    {
      r := HoldAll(base);
      if r == Done {
        r := Conclude();
      }
    }

    // The redo records that were pending when the recovery began come first.
    method Settle() returns (r: Outcome)
      requires Valid() && marker.Some? && !torn
      modifies this`tasks, this`log, this`torn, this`journal, this`budget, this`history
      ensures Valid() && old(history) <= history
      ensures r == Done ==> journal.None? && !torn && PendingLogged(marker.value, log)
      ensures r != Done ==> r == Crashed && budget == 0
      ensures budget + 4 >= old(budget)
    {
      r := LogOldEvent();
      if r == Done {
        r := RecoverLocked();
      }
    }

    method LogOldEvent() returns (r: Outcome)
      requires Valid() && marker.Some? && !torn
      modifies this`log, this`torn, this`budget, this`history
      ensures Valid() && old(history) <= history
      ensures r == Done ==> PendingLogged(marker.value, log) && !torn
      ensures r != Done ==> r == Crashed && budget == 0
      ensures budget + 1 >= old(budget)
    {
      if marker.value.before.pending.None? {
        return Done;
      }
      var e := marker.value.before.pending.value;
      var ids := LogIds();
      if e.id !in ids {
        IdsAppend(log, e);
        var up := AppendLog(e, RecoverPending);
        if !up {
          return Crashed;
        }
      }
      r := Done;
    }

    method WriteHold(t: TaskId, no: EventNo) returns (up: bool)
      requires Valid() && Enabled(Snapshot(), Hold(t, no))
      modifies this`journal, this`world, this`budget, this`history
      ensures Valid() && old(history) <= history
      ensures up ==> journal == Some(HoldTxn(marker.value, t, no)) && world.minted == old(world).minted + {no}
      ensures !up ==> budget == 0 && world == old(world)
      ensures budget + 1 >= old(budget)
    {
      up := Alive();
      if up {
        ghost var s, a := Snapshot(), Hold(t, no);
        journal := Some(HoldTxn(marker.value, t, no));
        world := world.(minted := world.minted + {no});
        Step(s, a);
      }
    }

    // A planned hold is on disk, or may be written now.
    lemma HoldDue(t: TaskId, no: EventNo)
      requires Valid() && marker.Some? && journal.None? && !torn && PendingLogged(marker.value, log)
      requires t in marker.value.changes && no !in world.minted
      ensures t in tasks && marker.value.changes[t].id == t
      ensures tasks[t] == marker.value.changes[t] || Enabled(Snapshot(), Hold(t, no))
    {
      assert RecoveryInv(Snapshot()) by { Reachable(); }
      assert t in Changes(marker.value.plan, marker.value.id);
    }

    // Put one task on hold unless it already is.
    method HoldOne(t: TaskId, no: EventNo) returns (r: Outcome)
      requires Valid() && marker.Some? && journal.None? && !torn && PendingLogged(marker.value, log)
      requires t in marker.value.changes && no !in world.minted
      modifies this`tasks, this`log, this`torn, this`journal, this`world, this`budget, this`history
      ensures Valid() && old(history) <= history
      ensures r == Done ==> journal.None? && !torn && tasks == old(tasks)[t := marker.value.changes[t]]
                              && PendingLogged(marker.value, log)
      ensures world.minted <= old(world).minted + {no}
      ensures r != Done ==> r == Crashed && budget == 0
      ensures budget + 4 >= old(budget)
    {
      HoldDue(t, no);
      if tasks[t] == marker.value.changes[t] {
        return Done;
      }
      var up := WriteHold(t, no);
      if !up {
        return Crashed;
      }
      r := RecoverLocked();
    }

    // Put every leased task of the plan on hold, one commit each.
    method HoldAll(base: nat) returns (r: Outcome)
      requires Valid() && marker.Some? && journal.None? && !torn && PendingLogged(marker.value, log) && Above(base)
      modifies this`tasks, this`log, this`torn, this`journal, this`world, this`budget, this`history
      ensures Valid() && old(history) <= history
      ensures r == Done ==> Enabled(Snapshot(), RecoverManifest)
      ensures r != Done ==> r == Crashed && budget == 0
      ensures budget + 4 * |marker.value.changes| >= old(budget)
    {
      var todo, no, changes := marker.value.changes.Keys, base, marker.value.changes;
      while todo != {}
        invariant Valid() && old(history) <= history && journal.None? && !torn && PendingLogged(marker.value, log) && Above(no)
        invariant todo <= changes.Keys && budget + 4 * (|changes| - |todo|) >= old(budget)
        invariant forall t <- changes | t !in todo :: t in tasks && tasks[t] == changes[t]
        decreases |todo|
      {
        var t :| t in todo;
        r := HoldOne(t, no);
        if r != Done {
          return;
        }
        todo, no := todo - {t}, no + 1;
      }
      r := Done;
    }

    // The new manifest, the closing event, and the marker's removal.
    method Conclude() returns (r: Outcome)
      requires Valid() && marker.Some? && Enabled(Snapshot(), RecoverManifest)
      modifies this`log, this`torn, this`manifest, this`marker, this`world, this`budget, this`history
      ensures Valid() && old(history) <= history
      ensures r == Done ==> marker.None? && RecoveredFrom(old(marker).value, Files())
      ensures r != Done ==> r == Crashed && budget == 0 && marker == old(marker)
      ensures budget + 3 >= old(budget)
    {
      var up := ReplaceManifest(marker.value.after, RecoverManifest,
                                world.(epochs := world.epochs + {marker.value.after.epoch}));
      if !up {
        return Crashed;
      }
      r := LogRecovered();
      if r != Done {
        return;
      }
      up := RemoveMarker();
      return if up then Done else Crashed;
    }

    method LogRecovered() returns (r: Outcome)
      requires Valid() && marker.Some? && manifest == marker.value.after && journal.None? && !torn
      modifies this`log, this`torn, this`budget, this`history
      ensures Valid() && old(history) <= history
      ensures r == Done ==> Enabled(Snapshot(), RecoverDone)
      ensures r != Done ==> r == Crashed && budget == 0
      ensures budget + 1 >= old(budget)
    {
      var e := RecoveredEvent(marker.value);
      var ids := LogIds();
      if e.id !in ids {
        IdsAppend(log, e);
        var up := AppendLog(e, RecoverLog);
        if !up {
          return Crashed;
        }
      }
      r := Done;
    }

    method RemoveMarker() returns (up: bool)
      requires Valid() && Enabled(Snapshot(), RecoverDone)
      modifies this`marker, this`budget, this`history
      ensures Valid() && old(history) <= history
      ensures up ==> marker.None? && RecoveredFrom(old(marker).value, Files())
      ensures !up ==> budget == 0 && marker == old(marker)
      ensures budget + 1 >= old(budget)
    {
      up := Alive();
      if up {
        ghost var s, r := Snapshot(), marker.value;
        assert RecoveredFrom(r, Effect(s, RecoverDone).disk) by {
          Reachable();
          RecoveryEndsWell(s);
        }
        marker := None;
        Step(s, RecoverDone);
      }
    }
  }
}
