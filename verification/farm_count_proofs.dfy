// The audit log numbers every task's revisions without a gap, and the restart account
// balances, after every action.
module FarmCountProofs {
  import opened Prelude
  import opened FarmTypes
  import opened FarmMoves
  import opened FarmMachine
  import opened FarmInvariants
  import opened FarmLogical
  import opened FarmMoveProofs
  import opened FarmTaskProofs

  // The effect of one saved task on its own account.
  predicate Pays(t: Task, u: Task, k: Kind, limit: nat) {
    if k == WorkerAdopted then Credit(u) <= Credit(t) && u.meta.automaticRestarts == t.meta.automaticRestarts + 1
    else if k in {RulingRecorded, ReworkRequested} then
      Credit(u) <= Credit(t) + 1 && u.meta.automaticRestarts == t.meta.automaticRestarts
    else if k == RecoveryReleased then Credit(u) == 0
    else || (Credit(u) <= Credit(t) && u.meta.automaticRestarts == t.meta.automaticRestarts)
         || Credit(u) < Credit(t)
  }

  lemma Times(limit: nat, a: nat, b: nat)
    requires a <= b
    ensures limit * a <= limit * b
    ensures limit * (a + 1) == limit * a + limit
  {
  }

  // The account's arithmetic: `spent` adoptions, `dec` decisions, credits c before and d
  // after, counters k before and l after.
  lemma Balance(limit: nat, spent: nat, dec: nat, c: nat, k: nat, spent': nat, dec': nat, d: nat, l: nat)
    requires spent + limit * c <= limit * dec + k && k <= limit
    requires || (spent' == spent && dec' == dec && d <= c && l == k)
             || (spent' == spent && dec' == dec && d < c)
             || (spent' == spent + 1 && dec' == dec && d <= c && l == k + 1)
             || (spent' == spent && dec' == dec + 1 && d <= c + 1 && l == k)
             || (spent' == spent && dec' == dec + 1 && d == 0)
    ensures spent' + limit * d <= limit * dec' + l
  {
    Times(limit, dec, dec);
    if d <= c {
      Times(limit, d, c);
      if d < c {
        Times(limit, d + 1, c);
        Times(limit, d, d);
      }
    } else if d <= c + 1 {
      Times(limit, d, c + 1);
      Times(limit, c, c);
    }
  }

  lemma PaidStep(t: Task, u: Task, log: Log, e: Event, limit: nat)
    requires Paid(t, log, limit) && Pays(t, u, e.kind, limit) && t.id == u.id && e.task == Some(t.id)
    requires t.meta.automaticRestarts <= limit
    ensures Paid(u, log + [e], limit)
  {
    CountAdd(log, Some(e), t.id, ADOPTIONS);
    CountAdd(log, Some(e), t.id, DECISIONS);
    Balance(limit, Tally(log, t.id, ADOPTIONS), Tally(log, t.id, DECISIONS), Credit(t), t.meta.automaticRestarts,
            Tally(log + [e], t.id, ADOPTIONS), Tally(log + [e], t.id, DECISIONS), Credit(u), u.meta.automaticRestarts);
  }

  predicate SameFor(log: Log, log': Log, t: TaskId) {
    && Tally(log', t, ADOPTIONS) == Tally(log, t, ADOPTIONS) && Tally(log', t, DECISIONS) == Tally(log, t, DECISIONS)
    && Revisions(log', t) == Revisions(log, t)
  }

  lemma OthersUncounted(log: Log, e: Event, t: TaskId)
    requires e.task != Some(t)
    ensures SameFor(log, log + [e], t)
  {
    CountAdd(log, Some(e), t, ADOPTIONS);
    CountAdd(log, Some(e), t, DECISIONS);
  }

  // A task saved over the one before it.
  lemma NextPaid(t: Task, u: Task, log: Log, e: Event, limit: nat)
    requires Paid(t, log, limit) && Pays(t, u, e.kind, limit) && t.id == u.id && e.task == Some(t.id) && e.revision == u.meta.revision
    requires t.meta.automaticRestarts <= limit && u.meta.revision == t.meta.revision + 1 && Revisions(log, t.id) == UpTo(t.meta.revision)
    ensures Paid(u, log + [e], limit) && Revisions(log + [e], u.id) == UpTo(u.meta.revision)
  {
    PaidStep(t, u, log, e, limit);
    CountAdd(log, Some(e), u.id, ADOPTIONS);
    assert UpTo(u.meta.revision) == UpTo(t.meta.revision) + [u.meta.revision];
  }

  lemma FirstPaid(u: Task, log: Log, e: Event, limit: nat)
    requires Tally(log, u.id, ADOPTIONS) == 0 && Revisions(log, u.id) == [] && Credit(u) == 0 && u.meta.revision == 1
    requires e.task == Some(u.id) && e.revision == 1 && e.kind != WorkerAdopted
    ensures Paid(u, log + [e], limit) && Revisions(log + [e], u.id) == UpTo(1)
  {
    CountAdd(log, Some(e), u.id, ADOPTIONS);
    Times(limit, 0, Tally(log + [e], u.id, DECISIONS));
  }

  // One task replaced and its event appended.
  lemma PutKeepsCounts(now: Tasks, log: Log, u: Task, e: Event, limit: nat)
    requires Counted(now, log, limit)
    requires e.task == Some(u.id) && e.revision == u.meta.revision
    requires u.id in now ==> u.meta.revision == now[u.id].meta.revision + 1 && Pays(now[u.id], u, e.kind, limit)
                               && now[u.id].meta.automaticRestarts <= limit
    requires u.id !in now ==> u.meta.revision == 1 && Credit(u) == 0 && e.kind != WorkerAdopted
    ensures Counted(now[u.id := u], log + [e], limit)
  {
    assert Paid(u, log + [e], limit) && Revisions(log + [e], u.id) == UpTo(u.meta.revision) by {
      if u.id in now {
        NextPaid(now[u.id], u, log, e, limit);
      } else {
        FirstPaid(u, log, e, limit);
      }
    }
    forall t: TaskId | t != u.id ensures SameFor(log, log + [e], t) {
      OthersUncounted(log, e, t);
    }
    CountedAfterPut(now, log, log + [e], u, limit);
  }

  lemma CountedAfterPut(now: Tasks, log: Log, log': Log, u: Task, limit: nat)
    requires Counted(now, log, limit) && Paid(u, log', limit) && Revisions(log', u.id) == UpTo(u.meta.revision)
    requires forall t: TaskId | t != u.id :: SameFor(log, log', t)
    ensures Counted(now[u.id := u], log', limit)
  {
    forall t <- now | t != u.id ensures Paid(now[t], log', limit) && Revisions(log', t) == Revisions(log, t) {
      assert SameFor(log, log', t);
    }
    forall t: TaskId | t !in now && t != u.id ensures Tally(log', t, ADOPTIONS) == 0 && Revisions(log', t) == [] {
      assert SameFor(log, log', t);
    }
  }

  lemma CountKeptByCommit(s: State, me: Identity, m: Move, no: EventNo)
    requires CommitOk(s, me, m, no) && Inv(s)
    ensures CountInv(Effect(s, Commit(me, m, no)))
  {
    Admitted(s, me, m, no);
    var p := ProposalOf(s, m).value;
    var x := Transaction(p, no);
    var epoch, obs := if ByReconciler(m) then s.rec.value.epoch else Initial, if ByReconciler(m) then s.rec.value.obs else None;
    MovePays(m, epoch, obs, s.limit);
    MoveKeepsIdentity(m, epoch, obs, s.limit);
    AuditStep(s, Commit(me, m, no));
    NowStep(s, Commit(me, m, no));
    PutKeepsCounts(Now(s.disk), Audit(s.disk), x.after, x.event, s.limit);
  }

  // A hold costs nothing and records the next revision.
  lemma HoldPays(t: Task, rid: nat, limit: nat)
    ensures Held(t, rid).id == t.id && Held(t, rid).meta.revision == t.meta.revision + 1
    ensures Pays(t, Held(t, rid), RecoveryHeld(rid), limit)
  {
  }

  // A hold replaces a planned task by its held form and records that.
  predicate Holding(s: State, t: TaskId, no: EventNo, s': State) {
    && s.disk.marker.Some? && t in s.disk.marker.value.changes && t in Now(s.disk) && Now(s.disk)[t].id == t
    && s.disk.marker.value.changes[t] == Held(Now(s.disk)[t], s.disk.marker.value.id)
    && Now(s'.disk) == Now(s.disk)[t := s.disk.marker.value.changes[t]]
    && Audit(s'.disk) == Audit(s.disk) + [HoldTxn(s.disk.marker.value, t, no).event]
    && s'.limit == s.limit
  }

  lemma HoldWrites(s: State, t: TaskId, no: EventNo)
    requires Enabled(s, Hold(t, no)) && DiskInv(s) && HandoffInv(s) && RecoveryInv(s)
    ensures Holding(s, t, no, Effect(s, Hold(t, no)))
  {
    AuditStep(s, Hold(t, no));
    NowByHold(s, t, no);
  }

  lemma CountKeptByHold(s: State, t: TaskId, no: EventNo)
    requires Enabled(s, Hold(t, no)) && DiskInv(s) && HandoffInv(s) && RecoveryInv(s) && TaskInv(s) && CountInv(s)
    ensures CountInv(Effect(s, Hold(t, no)))
  {
    HoldWrites(s, t, no);
    var r, now := s.disk.marker.value, Now(s.disk);
    HoldPays(now[t], r.id, s.limit);
    assert now[t].meta.automaticRestarts <= s.limit by { assert Good(now[t], s.limit); }
    PutKeepsCounts(now, Audit(s.disk), r.changes[t], HoldTxn(r, t, no).event, s.limit);
  }

  // Every other event belongs to no task.
  lemma OthersEmitFarmWide(s: State, a: Action)
    requires Enabled(s, a) && !a.Commit? && !a.Hold?
    ensures Written(s, a).None? && (Emitted(s, a).Some? ==> Emitted(s, a).value.task.None?)
  {
  }

  lemma SameCounts(now: Tasks, log: Log, log': Log, limit: nat)
    requires Counted(now, log, limit)
    requires forall t: TaskId :: SameFor(log, log', t)
    ensures Counted(now, log', limit)
  {
    forall t <- now ensures Paid(now[t], log', limit) && Revisions(log', t) == Revisions(log, t) {
      assert SameFor(log, log', t);
    }
    forall t: TaskId | t !in now ensures Tally(log', t, ADOPTIONS) == 0 && Revisions(log', t) == [] {
      assert SameFor(log, log', t);
    }
  }

  lemma SameForOthers(s: State, a: Action, t: TaskId)
    requires Enabled(s, a) && Inv(s) && !a.Commit? && !a.Hold?
    ensures SameFor(Audit(s.disk), Audit(Effect(s, a).disk), t)
  {
    OthersEmitFarmWide(s, a);
    CountStep(s, a, t, ADOPTIONS);
    CountStep(s, a, t, DECISIONS);
  }

  lemma CountKept(s: State, a: Action)
    requires Enabled(s, a) && Inv(s)
    ensures CountInv(Effect(s, a))
  {
    if a.Commit? {
      CountKeptByCommit(s, a.me, a.move, a.no);
    } else if a.Hold? {
      CountKeptByHold(s, a.t, a.no);
    } else {
      var s' := Effect(s, a);
      OthersEmitFarmWide(s, a);
      NowStep(s, a);
      GrowsMinted(s, a);
      forall t: TaskId ensures SameFor(Audit(s.disk), Audit(s'.disk), t) {
        SameForOthers(s, a, t);
      }
      SameCounts(Now(s.disk), Audit(s.disk), Audit(s'.disk), s.limit);
    }
  }
}
