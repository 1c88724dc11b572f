// What the moves achieve together: a rework, a ruling, a rotation and a recovery each take
// a task out of service and, through the reconciler, back into it.
module FarmCycles {
  import opened Prelude
  import opened FarmTypes
  import opened FarmMoves
  import opened FarmMachine
  import opened FarmInvariants

  // The task a committed proposal leaves on disk.
  function Saved(p: Option<Proposal>): Task
    requires p.Some?
  {
    Transaction(p.value, 0).after
  }

  // RUNNING under exactly the given lease, which the task's dispatches name.
  predicate RunsUnder(t: Task, w: WorkerId, l: LeaseId, epoch: Epoch) {
    && t.state == RUNNING && t.lease == Some(Lease(w, l))
    && t.meta.dispatches.Some? && t.meta.dispatches.value.epoch == epoch && w in t.meta.dispatches.value.workers
  }

  // A start adds its worker to those issued in the epoch and forgets none of them.
  predicate KeepsIssued(t: Task, u: Task, epoch: Epoch) {
    t.meta.dispatches.Some? && t.meta.dispatches.value.epoch == epoch ==>
      u.meta.dispatches.Some? && forall x <- t.meta.dispatches.value.workers :: x in u.meta.dispatches.value.workers
  }

  // Everything the proposals other than the named ones must leave to their owners.
  predicate SameDeliverable(t: Task, u: Task) {
    u.id == t.id && u.meta.workspace == t.meta.workspace && u.meta.contract == t.meta.contract && u.meta.acceptance == t.meta.acceptance
  }

  // A submitted task sent back for rework cannot be accepted any more; the next start gives
  // it a new worker, a full restart budget and a cleared request.
  lemma ReworkCycle(t: Task, w: WorkerId, l: LeaseId, epoch: Epoch, receipt: Evidence, limit: nat)
    requires Good(t, limit) && t.state == SUBMITTED && !t.meta.reworkRequested
    ensures ProposeAccept(t, receipt).Some? && Saved(ProposeAccept(t, receipt)).state == DONE
            && Saved(ProposeAccept(t, receipt)).meta.acceptance == Some(receipt)
    ensures ProposeRework(t).Some?
    ensures var t1 := Saved(ProposeRework(t));
            && ProposeAccept(t1, receipt).None? && ProposeRework(t1).None?
            && ProposeStart(t1, w, l, epoch).Some?
            && (var p := ProposeStart(t1, w, l, epoch); var t2 := Saved(p);
                && p.value.kind == ReworkStarted && p.value.dispatch == Some(Duty(t.id, w, l))
                && RunsUnder(t2, w, l, epoch) && KeepsIssued(t, t2, epoch) && SameDeliverable(t, t2)
                && t2.meta.automaticRestarts == 0 && !t2.meta.reworkRequested && t2.meta.revision == t.meta.revision + 2)
  {
    var t1 := Saved(ProposeRework(t));
    assert !CleanSurrender(t1);
    assert MayStart(t1);
  }

  // At its restart limit a task waits: it is neither adopted nor resumed, whatever is
  // observed, until a ruling; then the same worker is woken with a full budget.
  lemma RulingCycle(t: Task, o: Option<Obs>, limit: nat)
    requires Good(t, limit) && t.state == RUNNING && MayAdopt(t, o) && t.meta.automaticRestarts >= limit
    ensures ProposePause(t, o, limit).Some?
    ensures forall w, l, epoch :: ProposeAdopt(t, w, l, epoch, o, limit).None?
    ensures var t1 := Saved(ProposePause(t, o, limit));
            && t1.state == WAITING && t1.lease == t.lease && SameDeliverable(t, t1)
            && (forall q :: ProposeResume(t1, q).None?)
            && ProposeRuling(t1).Some?
            && (var t2 := Saved(ProposeRuling(t1));
                && t2.state == WAITING && t2.lease == t.lease
                && ProposeResume(t2, o).Some?
                && (var p := ProposeResume(t2, o); var t3 := Saved(p);
                    && t3.state == RUNNING && t3.lease == t.lease && SameDeliverable(t, t3)
                    && p.value.dispatch == Some(Duty(t.id, t.lease.value.worker, t.lease.value.id))
                    && t3.meta.automaticRestarts == 0 && !t3.meta.restartLimitReached && !t3.meta.resumeRequested
                    && t3.meta.revision == t.meta.revision + 3))
  {
  }

  // The receipt a worker gives when it yields to a rotation.
  function YieldReceipt(t: Task, id: HandoffId, file: Evidence): Receipt
    requires t.lease.Some?
  {
    Receipt(t.lease.value.worker, t.id, t.lease.value.id, AwaitingReceipt, None, Some(id), Some(file))
  }

  // A rotation: asked for, the task is no longer adopted if its worker dies; the worker
  // yields with a checkpoint; once it is dead its lease is retired on that checkpoint; and
  // the rotation's own wait lets the next start hand the task to a new worker.
  lemma RotationCycle(t: Task, id: HandoffId, file: Evidence, w: WorkerId, l: LeaseId, epoch: Epoch, limit: nat)
    requires Good(t, limit) && t.state == RUNNING && t.meta.rotation.None? && !file.blank
    requires t.meta.surrender.Some? ==> t.meta.surrender.value.id != id
    ensures ProposeRotation(t, id, None).Some?
    ensures var worker := t.lease.value.worker;
            var t1 := Saved(ProposeRotation(t, id, None));
            var yielded := Some(Obs(worker, Liveness.Alive, Some(YieldReceipt(t1, id, file))));
            var dead := Some(Obs(worker, Dead, Some(YieldReceipt(t1, id, file))));
            && (forall x, y, o :: ProposeAdopt(t1, x, y, epoch, o, limit).None?)
            && ProposeReceipt(t1, yielded).Some?
            && (var t2 := Saved(ProposeReceipt(t1, yielded));
                && t2.state == WAITING && t2.lease == t.lease
                && ProposeRetire(t2, yielded).None? && ProposeRetire(t2, dead).Some?
                && (var t3 := Saved(ProposeRetire(t2, dead));
                    && t3.lease.None? && CleanSurrender(t3) && t3.meta.surrender.value.file == file && t3.meta.surrender.value.id == id
                    && t3.meta.waitingOn == Some(RotationWait(id)) && t3.meta.rotation.None?
                    && ProposeStart(t3, w, l, epoch).Some?
                    && (var t4 := Saved(ProposeStart(t3, w, l, epoch));
                        RunsUnder(t4, w, l, epoch) && KeepsIssued(t, t4, epoch) && SameDeliverable(t, t4)
                        && t4.meta.automaticRestarts == t.meta.automaticRestarts)))
  {
    var t1 := Saved(ProposeRotation(t, id, None));
    var dead := Some(Obs(t.lease.value.worker, Dead, Some(YieldReceipt(t1, id, file))));
    var t2 := Saved(ProposeReceipt(t1, dead));
    var t3 := Saved(ProposeRetire(t2, dead));
    assert t3.meta.surrender.value.waitingOn == t3.meta.waitingOn;
    assert MayStart(t3) by { assert CleanSurrender(t3) && !t3.meta.restartLimitReached; }
  }

  // Retiring a dead holder on its checkpoint gives a certified clean surrender exactly when
  // the checkpoint's text is not blank; a blank one would leave a WAITING task that nobody
  // may start. Rotations and receipts therefore must not let a blank file in.
  lemma SurrenderIsCleanIffNotBlank(t: Task, o: Option<Obs>)
    requires ProposeRetire(t, o).Some?
    ensures RetiringFile(t).Some?
    ensures CleanSurrender(Saved(ProposeRetire(t, o))) <==> !RetiringFile(t).value.blank
    ensures RetiringFile(t).value.blank ==>
              forall w, l, epoch :: ProposeStart(Saved(ProposeRetire(t, o)), w, l, epoch).None?
  {
  }

  // A task held by a recovery: only a ruling moves it, to READY, from where it starts anew.
  lemma RecoveryCycle(t: Task, rid: nat, w: WorkerId, l: LeaseId, epoch: Epoch, limit: nat)
    requires Good(t, limit) && t.lease.Some?
    ensures var h := Held(t, rid);
            && (forall x, y, e :: ProposeStart(h, x, y, e).None?) && (forall o :: ProposeResume(h, o).None?)
            && ProposeRuling(h).Some?
            && (var t1 := Saved(ProposeRuling(h));
                && t1.state == READY && t1.lease.None? && t1.meta.recoveryHold.None?
                && ProposeStart(t1, w, l, epoch).Some?
                && (var t2 := Saved(ProposeStart(t1, w, l, epoch));
                    RunsUnder(t2, w, l, epoch) && KeepsIssued(t, t2, epoch) && SameDeliverable(t, t2)
                    && t2.meta.automaticRestarts == 0 && t2.meta.revision == t.meta.revision + 3))
  {
    var t1 := Saved(ProposeRuling(Held(t, rid)));
    assert MayStart(t1);
  }

  // A master's decision takes no lease away and issues nobody; accepting is the only one
  // that records an acceptance, amending the only one that changes the contract.
  lemma DecisionsLeaveOwnership(m: Move, epoch: Epoch, o: Option<Obs>, limit: nat)
    requires m.Accept? || m.Amend? || m.Rule? || m.Rework?
    requires Good(m.seen, limit) && Propose(m, epoch, o, limit).Some?
    ensures var t, u := m.seen, Propose(m, epoch, o, limit).value.task;
            && u.lease == t.lease && u.meta.dispatches == t.meta.dispatches && u.meta.rotation == t.meta.rotation
            && u.meta.surrender == t.meta.surrender && u.meta.workspace == t.meta.workspace
            && (!m.Accept? ==> u.meta.acceptance == t.meta.acceptance && u.state != DONE)
            && (m.Amend? ==> u == t.(meta := t.meta.(contract := m.contract)))
            && (!m.Amend? ==> u.meta.contract == t.meta.contract)
            && Propose(m, epoch, o, limit).value.dispatch.None?
  {
  }
}
