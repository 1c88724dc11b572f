// The task state graph and the lease primitives.
module Transitions {
  import opened Prelude
  import opened FarmTypes

  datatype Result<+T> = Ok(value: T) | IllegalTransition | StaleLease | DoneNeedsAcceptance | AlreadyLeased | NotHolder

  function Legal(s: TaskState): set<TaskState> {
    match s
    case READY => {RUNNING, FAILED}
    case RUNNING => {WAITING, SUBMITTED, BLOCKED, FAILED}
    case WAITING => {RUNNING, BLOCKED, FAILED}
    case SUBMITTED => {RUNNING, DONE, FAILED}
    case BLOCKED => {READY, RUNNING, FAILED}
    case DONE => {}
    case FAILED => {}
  }

  function LeaseIdOf(t: Task): Option<LeaseId> {
    if t.lease.Some? then Some(t.lease.value.id) else None
  }

  // While a leased task is under way, only the writer that names its lease may move it.
  predicate PassesFence(t: Task, leaseId: Option<LeaseId>) {
    t.state in {RUNNING, WAITING} && t.lease.Some? ==> leaseId == LeaseIdOf(t)
  }

  // `meta` is the task's metadata with the patch already merged in.
  function TransitionTask(t: Task, target: TaskState, leaseId: Option<LeaseId>, accepted: bool, meta: Meta,
                          lease: Option<Lease>): (r: Result<Task>)
    ensures r.Ok? <==> target in Legal(t.state) && PassesFence(t, leaseId)
                       && (target == DONE ==> accepted && meta.acceptance.Some?)
    ensures r.Ok? ==> r.value == Task(t.id, target, lease, meta)
    ensures r.IllegalTransition? <==> target !in Legal(t.state)
    ensures r.StaleLease? <==> target in Legal(t.state) && !PassesFence(t, leaseId)
    ensures !r.AlreadyLeased? && !r.NotHolder?
  {
    if target !in Legal(t.state) then IllegalTransition
    else if t.state in {RUNNING, WAITING} && t.lease.Some? && leaseId != LeaseIdOf(t) then StaleLease
    else if target == DONE && (!accepted || meta.acceptance.None?) then DoneNeedsAcceptance
    else Ok(t.(state := target, meta := meta, lease := lease))
  }

  // Who may enter each state. A task fails from wherever it is not finished, and only one
  // that runs can pause or submit.
  lemma EnteredFrom(s: TaskState)
    ensures FAILED in Legal(s) <==> s != DONE && s != FAILED
    ensures RUNNING in Legal(s) <==> s == READY || s == WAITING || s == SUBMITTED || s == BLOCKED
    ensures BLOCKED in Legal(s) <==> s == RUNNING || s == WAITING
    ensures WAITING in Legal(s) <==> s == RUNNING
    ensures SUBMITTED in Legal(s) <==> s == RUNNING
    ensures DONE in Legal(s) <==> s == SUBMITTED
    ensures READY in Legal(s) <==> s == BLOCKED
  {
  }

  // The way to DONE from a state that is not final.
  function WayToDone(s: TaskState): seq<TaskState>
    requires s !in {DONE, FAILED}
  {
    match s
    case SUBMITTED => [SUBMITTED, DONE]
    case RUNNING => [RUNNING, SUBMITTED, DONE]
    case _ => [s, RUNNING, SUBMITTED, DONE]
  }

  // Every task that is neither accepted nor failed can still be accepted, and can fail.
  lemma NothingIsStuck(s: TaskState)
    requires s !in {DONE, FAILED}
    ensures var p := WayToDone(s);
            Path(p) && p[0] == s && p[|p| - 1] == DONE && Path([s, FAILED])
  {
  }

  // States a task goes through, one legal step at a time.
  predicate Path(p: seq<TaskState>) {
    forall i | 0 < i < |p| :: p[i] in Legal(p[i - 1])
  }

  // A task that began as READY is DONE only straight after a submission, and every
  // submission comes straight after a run. Nothing follows DONE or FAILED, and READY is
  // entered again only out of BLOCKED.
  lemma {:induction false} PathToDone(p: seq<TaskState>)
    requires Path(p) && |p| > 0 && p[0] == READY
    ensures forall i | 0 <= i < |p| - 1 :: p[i] != DONE && p[i] != FAILED
    ensures forall i | 0 <= i < |p| && p[i] == DONE :: i >= 3 && p[i - 1] == SUBMITTED && p[i - 2] == RUNNING
    ensures forall i, j | 0 <= i < j < |p| && p[i] == p[j] == SUBMITTED :: RUNNING in p[i..j]
    ensures forall i | 0 < i < |p| && p[i] == READY :: p[i - 1] == BLOCKED
  {
    forall i | 0 <= i < |p| - 1 ensures p[i] != DONE && p[i] != FAILED {
      assert p[i + 1] in Legal(p[i + 1 - 1]);
    }
    forall i | 0 <= i < |p| && p[i] == DONE ensures i >= 3 && p[i - 1] == SUBMITTED && p[i - 2] == RUNNING {
      assert p[i - 1] in Legal(p[i - 2]);
    }
    forall i, j | 0 <= i < j < |p| && p[i] == p[j] == SUBMITTED ensures RUNNING in p[i..j] {
      assert p[i..j][j - 1 - i] == RUNNING;
    }
  }

  function AcquireLease(t: Task, lease: Lease, meta: Meta): Result<Task> {
    if t.lease.Some? then AlreadyLeased else Ok(t.(lease := Some(lease), meta := meta))
  }

  // Refuses to take a lease away from anyone but the named holder.
  function RotateLease(t: Task, dead: WorkerId): (r: Result<Task>)
    ensures r.Ok? <==> Holds(t, dead)
    ensures r.Ok? ==> r.value == t.(lease := None)
  {
    if Holds(t, dead) then Ok(t.(lease := None)) else NotHolder
  }

  // Ownership changes hands only by taking the lease from its holder and granting a new
  // one. Afterwards the new holder alone owns the task: nothing more can be granted, the
  // old holder has nothing left to lose, and its lease id moves the task nowhere.
  lemma HandOver(t: Task, named: WorkerId, next: Lease, meta: Meta)
    requires t.lease.Some?
    ensures AcquireLease(t, next, meta) == AlreadyLeased
    ensures RotateLease(t, named).Ok? <==> named == t.lease.value.worker
    ensures RotateLease(t, named).Ok? ==>
              var freed := RotateLease(t, named).value;
              var taken := AcquireLease(freed, next, meta);
              && RotateLease(freed, named) == NotHolder
              && taken.Ok? && Holds(taken.value, next.worker) && taken.value.state == t.state
              && (forall l, m :: AcquireLease(taken.value, l, m) == AlreadyLeased)
              && (named != next.worker ==> RotateLease(taken.value, named) == NotHolder)
              && (t.lease.value.id != next.id && t.state in {RUNNING, WAITING} ==>
                    forall target, ok, m, l | target in Legal(t.state) ::
                      TransitionTask(taken.value, target, LeaseIdOf(t), ok, m, l) == StaleLease)
  {
  }
}
