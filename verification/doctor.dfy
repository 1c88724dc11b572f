// The one-pass health check over the task list, and the invariant it decides.
module Doctor {
  import opened Prelude
  import opened FarmTypes
  import opened FarmMachine
  import opened FarmInvariants
  import opened FarmTheorems

  datatype Check =
    | SharedWorkspace(workspace: nat, first: TaskId, second: TaskId)
    | DuplicateLease(lease: LeaseId)
    | WorkerLeasedTwice(worker: WorkerId)
    | RunningWithoutLease(task: TaskId)
    | WaitingUnowned(task: TaskId)
    | WaitingForNothing(task: TaskId)
    | InvalidWait(task: TaskId)
    | DoneWithoutAcceptance(task: TaskId)
    // warnings
    | RecoveryHold(task: TaskId)
    | UnresolvedError(task: TaskId)
    | RestartsExhausted(task: TaskId)

  predicate Failure(c: Check) {
    !c.RecoveryHold? && !c.UnresolvedError? && !c.RestartsExhausted?
  }

  predicate Failing(checks: seq<Check>) {
    exists c <- checks :: Failure(c)
  }

  // One task on its own. `malformed` is the set of wait conditions the observers reject.
  predicate Healthy(t: Task, malformed: set<Wait>) {
    && (t.state == RUNNING ==> t.lease.Some?)
    && (t.state == WAITING && t.lease.None? ==> CleanSurrender(t))
    && (t.state == WAITING ==> t.meta.waitingOn.Some? && t.meta.waitingOn.value !in malformed)
    && (t.state == DONE ==> t.meta.acceptance.Some?)
  }

  // The invariant: every task is healthy, and no two share a lease, a worker or a reserved workspace.
  predicate Sound(tasks: seq<Task>, malformed: set<Wait>) {
    && (forall i | 0 <= i < |tasks| :: Healthy(tasks[i], malformed))
    && (forall i, j | 0 <= i < j < |tasks| :: Apart(tasks[i], tasks[j]))
  }

  predicate Reserves(t: Task, ws: nat) {
    t.state in RESERVED && t.meta.workspace == Some(ws)
  }

  // What the pass remembers of the tasks before index n.
  ghost predicate Remembered(tasks: seq<Task>, n: nat, leases: set<LeaseId>, workers: map<WorkerId, TaskId>, active: map<nat, TaskId>)
    requires n <= |tasks|
  {
    && (forall l :: l in leases <==> exists k :: 0 <= k < n && tasks[k].lease.Some? && tasks[k].lease.value.id == l)
    && (forall w :: w in workers <==> exists k :: 0 <= k < n && Holds(tasks[k], w))
    && (forall ws :: ws in active <==> exists k :: 0 <= k < n && Reserves(tasks[k], ws))
    && (forall ws <- active :: exists k :: 0 <= k < n && Reserves(tasks[k], ws) && tasks[k].id == active[ws])
  }

  // Checks on one task alone.
  method ExamineAlone(t: Task, malformed: set<Wait>) returns (checks: seq<Check>)
    ensures Failing(checks) <==> !Healthy(t, malformed)
    ensures forall c <- checks :: !c.SharedWorkspace?
    ensures RecoveryHold(t.id) in checks <==> t.meta.recoveryHold.Some?
    ensures RestartsExhausted(t.id) in checks <==> t.meta.restartLimitReached
    ensures UnresolvedError(t.id) in checks <==> t.meta.runtimeError.Some?
    ensures RunningWithoutLease(t.id) in checks <==> t.state == RUNNING && t.lease.None?
    ensures DoneWithoutAcceptance(t.id) in checks <==> t.state == DONE && t.meta.acceptance.None?
    ensures WaitingUnowned(t.id) in checks <==> t.state == WAITING && t.lease.None? && !CleanSurrender(t)
    ensures WaitingForNothing(t.id) in checks <==> t.state == WAITING && t.meta.waitingOn.None?
    ensures InvalidWait(t.id) in checks <==> t.state == WAITING && t.meta.waitingOn.Some? && t.meta.waitingOn.value in malformed
  {
    var warnings := Warnings(t);
    var failures := [];
    if t.state == RUNNING && t.lease.None? { failures := failures + [RunningWithoutLease(t.id)]; }
    if t.state == WAITING && t.lease.None? && !CleanSurrender(t) { failures := failures + [WaitingUnowned(t.id)]; }
    if t.state == WAITING && t.meta.waitingOn.None? {
      failures := failures + [WaitingForNothing(t.id)];
    } else if t.state == WAITING && t.meta.waitingOn.value in malformed {
      failures := failures + [InvalidWait(t.id)];
    }
    if t.state == DONE && t.meta.acceptance.None? { failures := failures + [DoneWithoutAcceptance(t.id)]; }
    assert Healthy(t, malformed) <==> failures == [];
    assert failures != [] ==> failures[0] in failures;
    FailingConcat(warnings, failures);
    checks := warnings + failures;
  }

  method Warnings(t: Task) returns (checks: seq<Check>)
    ensures forall c <- checks :: !Failure(c) && !c.SharedWorkspace?
    ensures RecoveryHold(t.id) in checks <==> t.meta.recoveryHold.Some?
    ensures RestartsExhausted(t.id) in checks <==> t.meta.restartLimitReached
    ensures UnresolvedError(t.id) in checks <==> t.meta.runtimeError.Some?
  {
    checks := [];
    if t.meta.recoveryHold.Some? { checks := checks + [RecoveryHold(t.id)]; }
    if t.meta.runtimeError.Some? { checks := checks + [UnresolvedError(t.id)]; }
    if t.meta.restartLimitReached { checks := checks + [RestartsExhausted(t.id)]; }
  }

  // Each resource of t that was seen before is reported by name.
  predicate ClashNamed(t: Task, leases: set<LeaseId>, workers: map<WorkerId, TaskId>, active: map<nat, TaskId>, checks: seq<Check>) {
    && (t.lease.Some? && t.lease.value.id in leases ==> DuplicateLease(t.lease.value.id) in checks)
    && (t.lease.Some? && t.lease.value.worker in workers ==> WorkerLeasedTwice(t.lease.value.worker) in checks)
    && (t.state in RESERVED && t.meta.workspace.Some? && t.meta.workspace.value in active ==>
          SharedWorkspace(t.meta.workspace.value, active[t.meta.workspace.value], t.id) in checks)
  }

  // Everything wrong with t alone, and every hold on it, is reported by name.
  predicate Named(t: Task, malformed: set<Wait>, checks: seq<Check>) {
    && (t.meta.recoveryHold.Some? ==> RecoveryHold(t.id) in checks)
    && (t.meta.runtimeError.Some? ==> UnresolvedError(t.id) in checks)
    && (t.meta.restartLimitReached ==> RestartsExhausted(t.id) in checks)
    && (t.state == RUNNING && t.lease.None? ==> RunningWithoutLease(t.id) in checks)
    && (t.state == WAITING && t.lease.None? && !CleanSurrender(t) ==> WaitingUnowned(t.id) in checks)
    && (t.state == WAITING && t.meta.waitingOn.None? ==> WaitingForNothing(t.id) in checks)
    && (t.state == WAITING && t.meta.waitingOn.Some? && t.meta.waitingOn.value in malformed ==> InvalidWait(t.id) in checks)
    && (t.state == DONE && t.meta.acceptance.None? ==> DoneWithoutAcceptance(t.id) in checks)
  }

  predicate Flagged(checks: seq<Check>, ws: nat, second: TaskId) {
    exists c <- checks :: c.SharedWorkspace? && c.workspace == ws && c.second == second
  }

  // What a and the later b share is reported by name.
  predicate PairNamed(a: Task, b: Task, checks: seq<Check>) {
    && (a.lease.Some? && b.lease.Some? && a.lease.value.id == b.lease.value.id ==> DuplicateLease(b.lease.value.id) in checks)
    && (a.lease.Some? && b.lease.Some? && a.lease.value.worker == b.lease.value.worker ==> WorkerLeasedTwice(b.lease.value.worker) in checks)
    && (a.state in RESERVED && b.state in RESERVED && a.meta.workspace.Some? && a.meta.workspace == b.meta.workspace ==>
          Flagged(checks, b.meta.workspace.value, b.id))
  }

  // The task's resources against everything seen before.
  method ExamineOwnership(t: Task, leases: set<LeaseId>, workers: map<WorkerId, TaskId>, active: map<nat, TaskId>) returns (checks: seq<Check>)
    ensures forall c <- checks :: Failure(c)
    ensures checks != [] <==> || (t.state in RESERVED && t.meta.workspace.Some? && t.meta.workspace.value in active)
                              || (t.lease.Some? && (t.lease.value.id in leases || t.lease.value.worker in workers))
    ensures forall c <- checks | c.SharedWorkspace? ::
              Reserves(t, c.workspace) && c.workspace in active && c.first == active[c.workspace] && c.second == t.id
    ensures ClashNamed(t, leases, workers, active, checks)
  {
    checks := [];
    if t.state in RESERVED && t.meta.workspace.Some? && t.meta.workspace.value in active {
      checks := checks + [SharedWorkspace(t.meta.workspace.value, active[t.meta.workspace.value], t.id)];
    }
    if t.lease.Some? {
      if t.lease.value.id in leases { checks := checks + [DuplicateLease(t.lease.value.id)]; }
      if t.lease.value.worker in workers { checks := checks + [WorkerLeasedTwice(t.lease.value.worker)]; }
    }
  }

  predicate Clashes(t: Task, leases: set<LeaseId>, workers: map<WorkerId, TaskId>, active: map<nat, TaskId>) {
    || (t.state in RESERVED && t.meta.workspace.Some? && t.meta.workspace.value in active)
    || (t.lease.Some? && (t.lease.value.id in leases || t.lease.value.worker in workers))
  }

  // Adding one task to what is remembered flags it exactly when it clashes with an earlier one.
  lemma FlagsClashes(tasks: seq<Task>, n: nat, leases: set<LeaseId>, workers: map<WorkerId, TaskId>, active: map<nat, TaskId>)
    requires n < |tasks| && Remembered(tasks, n, leases, workers, active)
    ensures var t := tasks[n];
            (forall k | 0 <= k < n :: Apart(tasks[k], t)) <==> !Clashes(t, leases, workers, active)
  {
    var t := tasks[n];
    if t.state in RESERVED && t.meta.workspace.Some? && t.meta.workspace.value in active {
      var k :| 0 <= k < n && Reserves(tasks[k], t.meta.workspace.value);
      assert !Apart(tasks[k], t);
    } else if t.lease.Some? && t.lease.value.id in leases {
      var k :| 0 <= k < n && tasks[k].lease.Some? && tasks[k].lease.value.id == t.lease.value.id;
      assert !Apart(tasks[k], t);
    } else if t.lease.Some? && t.lease.value.worker in workers {
      var k :| 0 <= k < n && Holds(tasks[k], t.lease.value.worker);
      assert !Apart(tasks[k], t);
    } else {
      forall k | 0 <= k < n ensures Apart(tasks[k], t) {
        if tasks[k].lease.Some? {
          assert Holds(tasks[k], tasks[k].lease.value.worker);
        }
        if tasks[k].meta.workspace.Some? && tasks[k].state in RESERVED {
          assert Reserves(tasks[k], tasks[k].meta.workspace.value);
        }
      }
    }
  }

  // What is remembered once task n has been looked at.
  lemma RemembersNext(tasks: seq<Task>, n: nat, leases: set<LeaseId>, workers: map<WorkerId, TaskId>, active: map<nat, TaskId>)
    requires n < |tasks| && Remembered(tasks, n, leases, workers, active)
    ensures var t := tasks[n];
            Remembered(tasks, n + 1,
                       if t.lease.Some? then leases + {t.lease.value.id} else leases,
                       if t.lease.Some? then workers[t.lease.value.worker := t.id] else workers,
                       if t.state in RESERVED && t.meta.workspace.Some? && t.meta.workspace.value !in active
                       then active[t.meta.workspace.value := t.id] else active)
  {
    var t := tasks[n];
    if t.lease.Some? {
      assert Holds(tasks[n], t.lease.value.worker);
    }
    if t.meta.workspace.Some? && t.state in RESERVED {
      assert Reserves(tasks[n], t.meta.workspace.value);
    }
  }

  // Two tasks before index n share the reported workspace.
  ghost predicate Shared(tasks: seq<Task>, n: nat, c: Check)
    requires n <= |tasks| && c.SharedWorkspace?
  {
    exists i, j :: 0 <= i < j < n && Reserves(tasks[i], c.workspace) && Reserves(tasks[j], c.workspace)
                   && tasks[i].id == c.first && tasks[j].id == c.second
  }

  lemma SharedNext(tasks: seq<Task>, n: nat, leases: set<LeaseId>, workers: map<WorkerId, TaskId>, active: map<nat, TaskId>, c: Check)
    requires n < |tasks| && Remembered(tasks, n, leases, workers, active) && c.SharedWorkspace?
    requires Reserves(tasks[n], c.workspace) && c.workspace in active && c.first == active[c.workspace] && c.second == tasks[n].id
    ensures Shared(tasks, n + 1, c)
  {
    var k :| 0 <= k < n && Reserves(tasks[k], c.workspace) && tasks[k].id == active[c.workspace];
  }

  // Everything found while looking at task t.
  ghost predicate FoundFor(t: Task, malformed: set<Wait>, found: seq<Check>, leases: set<LeaseId>, workers: map<WorkerId, TaskId>,
                           active: map<nat, TaskId>) {
    && (forall c <- found | c.SharedWorkspace? ::
          Reserves(t, c.workspace) && c.workspace in active && c.first == active[c.workspace] && c.second == t.id)
    && Named(t, malformed, found) && ClashNamed(t, leases, workers, active, found)
  }

  method ExamineTask(t: Task, malformed: set<Wait>, leases: set<LeaseId>, workers: map<WorkerId, TaskId>, active: map<nat, TaskId>)
    returns (checks: seq<Check>)
    ensures Failing(checks) <==> !Healthy(t, malformed) || Clashes(t, leases, workers, active)
    ensures FoundFor(t, malformed, checks, leases, workers, active)
  {
    var alone := ExamineAlone(t, malformed);
    var ownership := ExamineOwnership(t, leases, workers, active);
    FailingConcat(ownership, alone);
    assert ownership != [] ==> ownership[0] in ownership;
    checks := ownership + alone;
  }

  // The report on the tasks before index n, once they have all been looked at.
  ghost predicate Reported(tasks: seq<Task>, n: nat, malformed: set<Wait>, checks: seq<Check>)
    requires n <= |tasks|
  {
    && (Failing(checks) <==> !Sound(tasks[..n], malformed))
    && (forall c <- checks | c.SharedWorkspace? :: Shared(tasks, n, c))
    && (forall k | 0 <= k < n :: Named(tasks[k], malformed, checks))
    && (forall i, j | 0 <= i < j < n :: PairNamed(tasks[i], tasks[j], checks))
  }

  lemma NamedStays(t: Task, malformed: set<Wait>, checks: seq<Check>, found: seq<Check>)
    requires Named(t, malformed, checks) || Named(t, malformed, found)
    ensures Named(t, malformed, checks + found)
  {
  }

  lemma PairStays(a: Task, b: Task, checks: seq<Check>, found: seq<Check>)
    requires PairNamed(a, b, checks)
    ensures PairNamed(a, b, checks + found)
  {
    if b.meta.workspace.Some? && Flagged(checks, b.meta.workspace.value, b.id) {
      var c :| c in checks && c.SharedWorkspace? && c.workspace == b.meta.workspace.value && c.second == b.id;
      assert c in checks + found;
    }
  }

  // A clash with what is remembered names the pair.
  lemma ClashNamesPair(tasks: seq<Task>, n: nat, k: nat, leases: set<LeaseId>, workers: map<WorkerId, TaskId>, active: map<nat, TaskId>,
                       checks: seq<Check>, found: seq<Check>)
    requires k < n < |tasks| && Remembered(tasks, n, leases, workers, active) && ClashNamed(tasks[n], leases, workers, active, found)
    ensures PairNamed(tasks[k], tasks[n], checks + found)
  {
    var a, b := tasks[k], tasks[n];
    if a.lease.Some? {
      assert Holds(tasks[k], a.lease.value.worker);
    }
    if a.state in RESERVED && b.state in RESERVED && a.meta.workspace.Some? && a.meta.workspace == b.meta.workspace {
      assert Reserves(tasks[k], b.meta.workspace.value);
      assert SharedWorkspace(b.meta.workspace.value, active[b.meta.workspace.value], b.id) in checks + found;
    }
  }

  lemma ReportGrows(tasks: seq<Task>, n: nat, malformed: set<Wait>, checks: seq<Check>, found: seq<Check>,
                    leases: set<LeaseId>, workers: map<WorkerId, TaskId>, active: map<nat, TaskId>)
    requires n < |tasks| && Remembered(tasks, n, leases, workers, active) && Reported(tasks, n, malformed, checks)
    requires Failing(found) <==> !Healthy(tasks[n], malformed) || Clashes(tasks[n], leases, workers, active)
    requires FoundFor(tasks[n], malformed, found, leases, workers, active)
    ensures Reported(tasks, n + 1, malformed, checks + found)
  {
    assert Failing(checks + found) <==> !Sound(tasks[..n + 1], malformed) by {
      FlagsClashes(tasks, n, leases, workers, active);
      SoundNext(tasks, n, malformed);
      FailingConcat(checks, found);
    }
    forall c <- checks + found | c.SharedWorkspace? ensures Shared(tasks, n + 1, c) {
      if c in found {
        SharedNext(tasks, n, leases, workers, active, c);
      } else {
        assert Shared(tasks, n, c);
      }
    }
    forall k | 0 <= k < n + 1 ensures Named(tasks[k], malformed, checks + found) {
      NamedStays(tasks[k], malformed, checks, found);
    }
    forall i, j | 0 <= i < j < n + 1 ensures PairNamed(tasks[i], tasks[j], checks + found) {
      if j < n {
        PairStays(tasks[i], tasks[j], checks, found);
      } else {
        ClashNamesPair(tasks, n, i, leases, workers, active, checks, found);
      }
    }
  }

  // The pass reports a failure exactly when the invariant does not hold.
  method RunDoctor(tasks: seq<Task>, malformed: set<Wait>) returns (checks: seq<Check>)
    ensures Failing(checks) <==> !Sound(tasks, malformed)
    ensures forall c <- checks | c.SharedWorkspace? :: Shared(tasks, |tasks|, c)
    ensures forall k | 0 <= k < |tasks| :: Named(tasks[k], malformed, checks)
    ensures forall i, j | 0 <= i < j < |tasks| :: PairNamed(tasks[i], tasks[j], checks)
  {
    checks := [];
    var leases: set<LeaseId>, workers: map<WorkerId, TaskId>, active: map<nat, TaskId> := {}, map[], map[];
    for i := 0 to |tasks|
      invariant Remembered(tasks, i, leases, workers, active)
      invariant Reported(tasks, i, malformed, checks)
    {
      var t := tasks[i];
      var found := ExamineTask(t, malformed, leases, workers, active);
      ReportGrows(tasks, i, malformed, checks, found, leases, workers, active);
      RemembersNext(tasks, i, leases, workers, active);
      checks := checks + found;
      if t.state in RESERVED && t.meta.workspace.Some? && t.meta.workspace.value !in active {
        active := active[t.meta.workspace.value := t.id];
      }
      if t.lease.Some? {
        leases, workers := leases + {t.lease.value.id}, workers[t.lease.value.worker := t.id];
      }
    }
    assert tasks[..|tasks|] == tasks;
  }

  lemma SoundNext(tasks: seq<Task>, n: nat, malformed: set<Wait>)
    requires n < |tasks|
    ensures Sound(tasks[..n + 1], malformed) <==>
              Sound(tasks[..n], malformed) && Healthy(tasks[n], malformed) && forall k | 0 <= k < n :: Apart(tasks[k], tasks[n])
  {
    var a, b := tasks[..n], tasks[..n + 1];
    assert forall k | 0 <= k < n :: a[k] == b[k] == tasks[k];
    assert b[n] == tasks[n];
    if Sound(b, malformed) {
      forall k | 0 <= k < n ensures Apart(tasks[k], tasks[n]) {
        assert Apart(b[k], b[n]);
      }
      forall i, j | 0 <= i < j < n ensures Apart(a[i], a[j]) {
        assert Apart(b[i], b[j]);
      }
    }
    if Sound(a, malformed) && Healthy(tasks[n], malformed) && forall k | 0 <= k < n :: Apart(tasks[k], tasks[n]) {
      forall i, j | 0 <= i < j < n + 1 ensures Apart(b[i], b[j]) {
        if j < n {
          assert Apart(a[i], a[j]);
        }
      }
    }
  }

  lemma FailingConcat(a: seq<Check>, b: seq<Check>)
    ensures Failing(a + b) <==> Failing(a) || Failing(b)
  {
    if Failing(a) {
      var c :| c in a && Failure(c);
      assert c in a + b;
    }
    if Failing(b) {
      var c :| c in b && Failure(c);
      assert c in a + b;
    }
  }

  // A listing of the task files: each once, in any order.
  predicate Lists(listing: seq<Task>, tasks: Tasks) {
    && (forall t <- listing :: t.id in tasks && tasks[t.id] == t)
    && (forall i, j | 0 <= i < j < |listing| :: listing[i].id != listing[j].id)
  }

  predicate WellFormedWaits(listing: seq<Task>, malformed: set<Wait>) {
    forall t <- listing | t.state == WAITING && t.meta.waitingOn.Some? :: t.meta.waitingOn.value !in malformed
  }

  // No reachable farm fails the check: with nothing pending, and every wait condition one
  // the observers accept, the invariant holds of its task files however it got there.
  lemma ReachableIsSound(limit: nat, run: seq<Action>, listing: seq<Task>, malformed: set<Wait>)
    ensures var d := Exec(Start0(limit), run).disk;
            d.journal.None? && Lists(listing, d.tasks) && WellFormedWaits(listing, malformed) ==> Sound(listing, malformed)
  {
    var s := Exec(Start0(limit), run);
    assert TaskInv(s) by { Always(limit, run); }
    if s.disk.journal.None? && Lists(listing, s.disk.tasks) {
      assert Now(s.disk) == s.disk.tasks;
      ListedTasksAreSound(s, listing);
      assert forall i | 0 <= i < |listing| :: listing[i] in listing;
    }
  }

  lemma ListedTasksAreSound(s: State, listing: seq<Task>)
    requires TaskInv(s) && Now(s.disk) == s.disk.tasks && Lists(listing, s.disk.tasks)
    ensures forall i | 0 <= i < |listing| :: Good(listing[i], s.limit)
    ensures forall i, j | 0 <= i < j < |listing| :: Apart(listing[i], listing[j])
  {
    forall i | 0 <= i < |listing| ensures Good(listing[i], s.limit) {
      assert listing[i] in listing;
      assert Good(s.disk.tasks[listing[i].id], s.limit);
    }
    forall i, j | 0 <= i < j < |listing| ensures Apart(listing[i], listing[j]) {
      assert listing[i] in listing && listing[j] in listing;
      assert Apart(s.disk.tasks[listing[i].id], s.disk.tasks[listing[j].id]);
    }
  }
}
