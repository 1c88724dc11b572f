// What each proposed move does to its task, whoever proposes it.
module FarmMoveProofs {
  import opened Prelude
  import opened FarmTypes
  import opened FarmMoves
  import opened FarmMachine
  import opened FarmInvariants

  // Every move but a creation starts from a task that satisfied the invariant.
  predicate FromGood(p: Proposal, limit: nat) {
    p.expected.Some? ==> Good(p.expected.value, limit)
  }

  lemma MoveKeepsGood(m: Move, epoch: Epoch, obs: Option<Obs>, limit: nat, no: EventNo)
    requires Propose(m, epoch, obs, limit).Some? && FromGood(Propose(m, epoch, obs, limit).value, limit)
    ensures Good(Transaction(Propose(m, epoch, obs, limit).value, no).after, limit)
  {
  }

  predicate SameOwner(t: Task, u: Task) {
    u.id == t.id && u.meta.workspace == t.meta.workspace
  }

  lemma MoveKeepsIdentity(m: Move, epoch: Epoch, obs: Option<Obs>, limit: nat)
    requires Propose(m, epoch, obs, limit).Some?
    ensures var p := Propose(m, epoch, obs, limit).value;
            (p.expected.None? <==> m.Create?) && (p.expected.Some? ==> SameOwner(p.expected.value, p.task))
  {
  }

  // A lease is kept, dropped, or freshly minted by Start and Adopt.
  predicate LeaseStep(t: Task, u: Task, m: Move) {
    || u.lease == t.lease
    || u.lease.None?
    || ((m.Start? || m.Adopt?) && u.lease == Some(Lease(m.worker, m.lease)))
  }

  predicate DispatchStep(t: Task, u: Task, m: Move, epoch: Epoch) {
    if m.Start? || m.Adopt? then
      && u.meta.dispatches.Some? && u.meta.dispatches.value.epoch == epoch
      && m.worker in u.meta.dispatches.value.workers
      && (t.meta.dispatches.Some? && t.meta.dispatches.value.epoch == epoch ==>
            forall w <- t.meta.dispatches.value.workers :: w in u.meta.dispatches.value.workers)
    else u.meta.dispatches == t.meta.dispatches
  }

  lemma MoveStepsLease(m: Move, epoch: Epoch, obs: Option<Obs>, limit: nat)
    requires Propose(m, epoch, obs, limit).Some?
    ensures var p := Propose(m, epoch, obs, limit).value;
            p.expected.Some? ==> LeaseStep(p.expected.value, p.task, m) && DispatchStep(p.expected.value, p.task, m, epoch)
    ensures m.Create? ==> Propose(m, epoch, obs, limit).value.task.lease.None?
  {
  }

  // A holder loses its lease only once it was observed dead, reported SUBMITTED, or the task failed.
  predicate Relieved(w: WorkerId, t: Task, u: Task, obs: Option<Obs>) {
    || u.state == FAILED
    || (obs.Some? && obs.value.worker == w
        && (|| obs.value.alive == Dead
            || (obs.value.receipt.Some? && obs.value.receipt.value.status == SubmittedReceipt && obs.value.receipt.value.worker == w)))
  }

  lemma MoveRelieves(m: Move, epoch: Epoch, obs: Option<Obs>, limit: nat, w: WorkerId)
    requires Propose(m, epoch, obs, limit).Some? && FromGood(Propose(m, epoch, obs, limit).value, limit)
    requires var p := Propose(m, epoch, obs, limit).value; p.expected.Some? && Holds(p.expected.value, w) && !Holds(p.task, w)
    ensures var p := Propose(m, epoch, obs, limit).value; Relieved(w, p.expected.value, p.task, obs)
  {
  }

  lemma FailedStaysFailed(m: Move, epoch: Epoch, obs: Option<Obs>, limit: nat)
    requires Propose(m, epoch, obs, limit).Some? && FromGood(Propose(m, epoch, obs, limit).value, limit)
    ensures var p := Propose(m, epoch, obs, limit).value; p.expected.Some? && p.expected.value.state == FAILED ==> p.task.state == FAILED
  {
  }

  // A dispatching move leaves the task RUNNING under exactly the lease it dispatches, and
  // any worker it takes over from, or wakes, was observed dead.
  lemma MoveDispatches(m: Move, epoch: Epoch, obs: Option<Obs>, limit: nat)
    requires Propose(m, epoch, obs, limit).Some? && FromGood(Propose(m, epoch, obs, limit).value, limit)
    requires Propose(m, epoch, obs, limit).value.dispatch.Some?
    ensures var p := Propose(m, epoch, obs, limit).value;
            var u, t := p.dispatch.value, p.expected.value;
            && p.expected.Some? && (m.Start? || m.Adopt? || m.Resume?)
            && u.task == p.task.id && p.task.state == RUNNING && p.task.lease == Some(Lease(u.worker, u.lease))
            && t.state != FAILED
            && (t.lease.Some? ==> obs.Some? && obs.value.worker == t.lease.value.worker && obs.value.alive == Dead)
            && (m.Resume? ==> t.lease == p.task.lease)
            && (!m.Resume? ==> u.worker == m.worker && u.lease == m.lease)
  {
  }

  // How a move moves the restart account: an adoption spends, a decision tops up, and the
  // counter is reset only against a pending decision.
  lemma MovePays(m: Move, epoch: Epoch, obs: Option<Obs>, limit: nat)
    requires Propose(m, epoch, obs, limit).Some? && FromGood(Propose(m, epoch, obs, limit).value, limit)
    ensures var p := Propose(m, epoch, obs, limit).value;
            var u := p.task;
            p.expected.Some? ==>
              var t := p.expected.value;
              if p.kind == WorkerAdopted then Credit(u) == Credit(t) && u.meta.automaticRestarts == t.meta.automaticRestarts + 1
              else if p.kind in {RulingRecorded, ReworkRequested} then
                Credit(u) == Credit(t) + 1 && u.meta.automaticRestarts == t.meta.automaticRestarts
              else if p.kind == RecoveryReleased then Credit(t) == Credit(u) == 0 && u.meta.automaticRestarts == 0
              else || (Credit(u) <= Credit(t) && u.meta.automaticRestarts == t.meta.automaticRestarts)
                   || (Credit(u) < Credit(t) && u.meta.automaticRestarts == 0)
    ensures m.Create? ==> Credit(Propose(m, epoch, obs, limit).value.task) == 0
    ensures !Propose(m, epoch, obs, limit).value.kind.RecoveryHeld?
  {
  }
}
