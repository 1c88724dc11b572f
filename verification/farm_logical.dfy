// How one action changes the logical task map and audit log: a commit replaces one task
// and appends one event, a few actions append one event, all the others change neither.
module FarmLogical {
  import opened Prelude
  import opened FarmTypes
  import opened FarmMoves
  import opened FarmMachine
  import opened FarmInvariants

  // The event an enabled action adds to the logical audit log.
  function Emitted(s: State, a: Action): Option<Event>
    requires Enabled(s, a)
  {
    var m := s.disk.manifest;
    match a
    case Commit(_, mv, no) => Some(Transaction(ProposalOf(s, mv).value, no).event)
    case Hold(t, no) => Some(HoldTxn(s.disk.marker.value, t, no).event)
    case Drain(_, n, target) => Some(Deployed(Control(Request(n), Draining, Some(target), None), FarmDrained))
    case Seal(_) => Some(Deployed(m.control.value, FarmReleased))
    case Claim(_, _) => Some(Deployed(m.control.value, FarmClaimed))
    case StopDrain(_, ts) => Some(Deployed(Control(StopAt(ts), Draining, None, None), FarmStopDrain))
    case StopClearedAppend => Some(Deployed(m.control.value, FarmStopCleared))
    case RecoverLog => Some(RecoveredEvent(s.disk.marker.value))
    case _ => None
  }

  // The task an enabled action writes.
  function Written(s: State, a: Action): Option<Task>
    requires Enabled(s, a)
  {
    match a
    case Commit(_, mv, no) => Some(Transaction(ProposalOf(s, mv).value, no).after)
    case Hold(t, _) => Some(s.disk.marker.value.changes[t])
    case _ => None
  }

  function Put(tasks: Tasks, t: Option<Task>): Tasks {
    if t.Some? then tasks[t.value.id := t.value] else tasks
  }

  function Add(log: Log, e: Option<Event>): Log {
    if e.Some? then log + [e.value] else log
  }

  lemma IdsAppend(log: Log, e: Event)
    ensures Ids(log + [e]) == Ids(log) + {e.id}
  {
    assert e in log + [e];
  }

  lemma WithKnown(log: Log, e: Option<Event>)
    requires e.Some? ==> e.value.id in Ids(log)
    ensures With(log, e) == log
  {
  }

  lemma IdsWith(log: Log, e: Option<Event>)
    ensures Ids(log) <= Ids(With(log, e))
    ensures e.Some? ==> e.value.id in Ids(With(log, e))
    ensures Ids(With(log, e)) == Ids(log) + if e.Some? then {e.value.id} else {}
  {
    if e.Some? && e.value.id !in Ids(log) {
      IdsAppend(log, e.value);
    }
  }

  // An id already in the log is in the audit log.
  lemma LogInAudit(d: Disk)
    ensures Ids(Audit(d)) == Ids(d.log) + (if d.manifest.pending.Some? then {d.manifest.pending.value.id} else {})
                                        + (if d.journal.Some? then {d.journal.value.event.id} else {})
  {
    IdsWith(d.log, d.manifest.pending);
    IdsWith(With(d.log, d.manifest.pending), JournalEvent(d));
  }

  // The event is new: its id occurs nowhere in the audit log.
  predicate Fresh(s: State, a: Action)
    requires Enabled(s, a)
  {
    Emitted(s, a).Some? ==> Emitted(s, a).value.id !in Ids(Audit(s.disk))
  }

  lemma MintedInAudit(s: State, i: EventId)
    requires DiskInv(s) && i in Ids(Audit(s.disk))
    ensures IdMinted(i, s.world.minted)
  {
    LogInAudit(s.disk);
  }

  lemma EmittedFresh(s: State, a: Action)
    requires Enabled(s, a) && DiskInv(s) && HandoffInv(s) && RecoveryInv(s)
    ensures Fresh(s, a)
  {
    LogInAudit(s.disk);
    if Emitted(s, a).Some? && Emitted(s, a).value.id in Ids(Audit(s.disk)) {
      MintedInAudit(s, Emitted(s, a).value.id);
      assert false;
    }
  }

  lemma NowByHold(s: State, t: TaskId, no: EventNo)
    requires Enabled(s, Hold(t, no)) && RecoveryInv(s)
    ensures Now(Effect(s, Hold(t, no)).disk) == Put(Now(s.disk), Written(s, Hold(t, no)))
  {
  }

  lemma NowByReplay(s: State, a: Action)
    requires Enabled(s, a) && DiskInv(s) && a in {ReplayTask, ReplayLog, ReplayUnlink}
    ensures Now(Effect(s, a).disk) == Now(s.disk) && Written(s, a).None?
  {
  }

  lemma NowByCommit(s: State, me: Identity, m: Move, no: EventNo)
    requires Enabled(s, Commit(me, m, no))
    ensures Now(Effect(s, Commit(me, m, no)).disk) == Put(Now(s.disk), Written(s, Commit(me, m, no)))
  {
  }

  predicate WritesTasks(a: Action) {
    a.Commit? || a.Hold? || a in {ReplayTask, ReplayLog, ReplayUnlink}
  }

  lemma OthersLeaveTasks(s: State, a: Action)
    requires Enabled(s, a) && !WritesTasks(a)
    ensures var d, d' := s.disk, Effect(s, a).disk; d'.tasks == d.tasks && d'.journal == d.journal && Written(s, a).None?
  {
  }

  lemma NowStep(s: State, a: Action)
    requires Enabled(s, a) && DiskInv(s) && RecoveryInv(s)
    ensures Now(Effect(s, a).disk) == Put(Now(s.disk), Written(s, a))
  {
    if a.Commit? {
      NowByCommit(s, a.me, a.move, a.no);
    } else if a.Hold? {
      NowByHold(s, a.t, a.no);
    } else if WritesTasks(a) {
      NowByReplay(s, a);
    } else {
      OthersLeaveTasks(s, a);
    }
  }

  // The part of the audit log that is still only in the journal.
  function Tail(d: Disk): Log {
    if d.journal.Some? && d.journal.value.event.id !in Ids(d.log) then [d.journal.value.event] else []
  }

  // The audit log grows by what the action emits.
  predicate AuditGrows(s: State, a: Action)
    requires Enabled(s, a)
  {
    Audit(Effect(s, a).disk) == Add(Audit(s.disk), Emitted(s, a))
  }

  // Writing down what was pending changes nothing.
  lemma AuditByRecord(s: State, a: Action)
    requires Enabled(s, a) && DiskInv(s) && HandoffInv(s) && RecoveryInv(s) && (a == ReplayLog || a.FinishAppend? || a == RecoverPending)
    ensures AuditGrows(s, a)
  {
    var d := s.disk;
    if a == ReplayLog {
      IdsAppend(d.log, d.journal.value.event);
      WithKnown(d.log, d.manifest.pending);
    } else if a.FinishAppend? {
      IdsAppend(d.log, d.manifest.pending.value);
    } else {
      IdsAppend(d.log, d.marker.value.before.pending.value);
    }
  }

  // Nor does taking down what is recorded.
  lemma AuditByClear(s: State, a: Action)
    requires Enabled(s, a) && (a == ReplayUnlink || a.FinishClear?)
    ensures AuditGrows(s, a)
  {
    IdsWith(s.disk.log, s.disk.manifest.pending);
  }

  // A prepared transaction is recorded last.
  lemma AuditByJournal(s: State, a: Action)
    requires Enabled(s, a) && DiskInv(s) && HandoffInv(s) && RecoveryInv(s) && (a.Commit? || a.Hold?)
    ensures AuditGrows(s, a)
  {
    EmittedFresh(s, a);
    LogInAudit(s.disk);
  }

  // A published control waits for its event behind no transaction.
  lemma AuditByPublish(s: State, a: Action)
    requires Enabled(s, a) && DiskInv(s) && HandoffInv(s) && RecoveryInv(s) && (a.Drain? || a.Seal? || a.Claim? || a.StopDrain?)
    ensures AuditGrows(s, a)
  {
    EmittedFresh(s, a);
    LogInAudit(s.disk);
  }

  lemma AuditByRecovery(s: State, a: Action)
    requires Enabled(s, a) && DiskInv(s) && HandoffInv(s) && RecoveryInv(s) && (a == RecoverLog || a == RecoverManifest)
    ensures AuditGrows(s, a)
  {
    EmittedFresh(s, a);
    LogInAudit(s.disk);
    if a == RecoverManifest {
      WithKnown(s.disk.log, s.disk.manifest.pending);
    }
  }

  predicate WritesAudit(a: Action) {
    a.Commit? || a.Hold? || a.FinishAppend? || a.FinishClear? || a.Drain? || a.Seal? || a.Claim? || a.StopDrain?
    || a in {ReplayLog, ReplayUnlink, StopClearedAppend, RecoverPending, RecoverManifest, RecoverLog}
  }

  lemma OthersLeaveAudit(s: State, a: Action)
    requires Enabled(s, a) && !WritesAudit(a)
    ensures AuditGrows(s, a)
  {
  }

  // A stop control is cleared at startup before the journal is replayed, so its event lands
  // before the journal's.
  lemma AuditByStop(s: State)
    requires Enabled(s, StopClearedAppend) && DiskInv(s) && HandoffInv(s) && RecoveryInv(s)
    ensures Audit(s.disk) == s.disk.log + Tail(s.disk)
    ensures Audit(Effect(s, StopClearedAppend).disk) == s.disk.log + [Emitted(s, StopClearedAppend).value] + Tail(s.disk)
  {
    EmittedFresh(s, StopClearedAppend);
    LogInAudit(s.disk);
    IdsAppend(s.disk.log, Emitted(s, StopClearedAppend).value);
  }

  // Every action appends what it emits, with the one exception.
  lemma AuditStep(s: State, a: Action)
    requires Enabled(s, a) && DiskInv(s) && HandoffInv(s) && RecoveryInv(s)
    ensures a != StopClearedAppend ==> Audit(Effect(s, a).disk) == Add(Audit(s.disk), Emitted(s, a))
    ensures a == StopClearedAppend ==>
              && Audit(s.disk) == s.disk.log + Tail(s.disk)
              && Audit(Effect(s, a).disk) == s.disk.log + [Emitted(s, a).value] + Tail(s.disk)
  {
    if a == StopClearedAppend {
      AuditByStop(s);
    } else if !WritesAudit(a) {
      OthersLeaveAudit(s, a);
    } else if a.Commit? || a.Hold? {
      AuditByJournal(s, a);
    } else if a == ReplayUnlink || a.FinishClear? {
      AuditByClear(s, a);
    } else if a.Drain? || a.Seal? || a.Claim? || a.StopDrain? {
      AuditByPublish(s, a);
    } else if a == RecoverLog || a == RecoverManifest {
      AuditByRecovery(s, a);
    } else {
      AuditByRecord(s, a);
    }
  }

  lemma IdsStep(s: State, a: Action)
    requires Enabled(s, a) && DiskInv(s) && HandoffInv(s) && RecoveryInv(s)
    ensures Ids(Audit(Effect(s, a).disk)) == Ids(Audit(s.disk)) + if Emitted(s, a).Some? then {Emitted(s, a).value.id} else {}
  {
    AuditStep(s, a);
    if a == StopClearedAppend {
      var e := Emitted(s, a).value;
      IdsConcat(s.disk.log, Tail(s.disk));
      IdsAppend(s.disk.log, e);
      IdsConcat(s.disk.log + [e], Tail(s.disk));
    } else if Emitted(s, a).Some? {
      IdsAppend(Audit(s.disk), Emitted(s, a).value);
    }
  }

  lemma IdsConcat(a: Log, b: Log)
    ensures Ids(a + b) == Ids(a) + Ids(b)
  {
    assert forall e :: e in a + b <==> e in a || e in b;
  }

  lemma UniqueInsert(pre: Log, e: Event, suf: Log)
    requires Unique(pre + suf) && e.id !in Ids(pre + suf)
    ensures Unique(pre + [e] + suf)
  {
    var log, log', n := pre + suf, pre + [e] + suf, |pre|;
    assert forall i | 0 <= i < |log| :: log[i].id in Ids(log);
    forall i, j | 0 <= i < j < |log'| ensures log'[i].id != log'[j].id {
      assert log'[i] == if i < n then log[i] else if i == n then e else log[i - 1];
      assert log'[j] == if j < n then log[j] else if j == n then e else log[j - 1];
    }
  }

  lemma UniqueStep(s: State, a: Action)
    requires Enabled(s, a) && DiskInv(s) && HandoffInv(s) && RecoveryInv(s)
    ensures Unique(Audit(Effect(s, a).disk))
  {
    AuditStep(s, a);
    EmittedFresh(s, a);
    if a == StopClearedAppend {
      UniqueInsert(s.disk.log, Emitted(s, a).value, Tail(s.disk));
    } else if Emitted(s, a).Some? {
      var log, e := Audit(s.disk), Emitted(s, a).value;
      assert log + [] == log && log + [e] + [] == log + [e];
      UniqueInsert(log, e, []);
    }
  }

  lemma {:induction false} TallyConcat(a: Log, b: Log, t: TaskId, ks: set<Kind>)
    ensures Tally(a + b, t, ks) == Tally(a, t, ks) + Tally(b, t, ks)
    decreases |b|
  {
    if b == [] {
      assert a + b == a;
    } else {
      assert (a + b)[..|a + b| - 1] == a + b[..|b| - 1];
      TallyConcat(a, b[..|b| - 1], t, ks);
    }
  }

  lemma {:induction false} RevisionsConcat(a: Log, b: Log, t: TaskId)
    ensures Revisions(a + b, t) == Revisions(a, t) + Revisions(b, t)
    decreases |b|
  {
    if b == [] {
      assert a + b == a;
    } else {
      assert (a + b)[..|a + b| - 1] == a + b[..|b| - 1];
      RevisionsConcat(a, b[..|b| - 1], t);
    }
  }

  lemma CountInsert(pre: Log, e: Event, suf: Log, t: TaskId, ks: set<Kind>)
    ensures Tally(pre + [e] + suf, t, ks) == Tally(pre + suf, t, ks) + if Matches(e, t, ks) then 1 else 0
    ensures e.task.None? ==> Revisions(pre + [e] + suf, t) == Revisions(pre + suf, t)
    ensures Revisions(pre + [e], t) == Revisions(pre, t) + if e.task == Some(t) then [e.revision] else []
  {
    assert [e][..0] == [];
    TallyConcat(pre, suf, t, ks);
    TallyConcat(pre, [e], t, ks);
    TallyConcat(pre + [e], suf, t, ks);
    RevisionsConcat(pre, suf, t);
    RevisionsConcat(pre, [e], t);
    RevisionsConcat(pre + [e], suf, t);
  }

  // Counts and revisions follow what is emitted, wherever it lands.
  lemma CountStep(s: State, a: Action, t: TaskId, ks: set<Kind>)
    requires Enabled(s, a) && DiskInv(s) && HandoffInv(s) && RecoveryInv(s)
    ensures Tally(Audit(Effect(s, a).disk), t, ks) ==
              Tally(Audit(s.disk), t, ks) + if Emitted(s, a).Some? && Matches(Emitted(s, a).value, t, ks) then 1 else 0
    ensures Revisions(Audit(Effect(s, a).disk), t) ==
              Revisions(Audit(s.disk), t) + if Emitted(s, a).Some? && Emitted(s, a).value.task == Some(t)
                                            then [Emitted(s, a).value.revision] else []
  {
    AuditStep(s, a);
    var log, log', o := Audit(s.disk), Audit(Effect(s, a).disk), Emitted(s, a);
    if a == StopClearedAppend {
      CountInsert(s.disk.log, o.value, Tail(s.disk), t, ks);
    } else {
      CountAdd(log, o, t, ks);
    }
  }

  lemma CountAdd(log: Log, o: Option<Event>, t: TaskId, ks: set<Kind>)
    ensures Tally(Add(log, o), t, ks) == Tally(log, t, ks) + if o.Some? && Matches(o.value, t, ks) then 1 else 0
    ensures Revisions(Add(log, o), t) == Revisions(log, t) + if o.Some? && o.value.task == Some(t) then [o.value.revision] else []
  {
    if o.Some? {
      CountInsert(log, o.value, [], t, ks);
      assert log + [o.value] + [] == log + [o.value] && log + [] == log;
    }
  }
}
