// The task store under crashes that may also lose writes the kernel never made durable.
//
// A file that is replaced by rename has one visible value and a set of values it may turn
// out to have after a power loss; syncing its directory leaves only the visible one. The
// audit log has a durable prefix. A process crash (or a failed sync) loses nothing that is
// visible; a power loss resolves every file to one of its possible values.
module DurableStore {
  import opened Prelude
  import opened FarmTypes
  import opened FarmInvariants
  import opened FarmLogical

  datatype Slot<T> = Slot(seen: T, maybe: set<T>)

  function Settle<T>(v: T): Slot<T> {
    Slot(v, {v})
  }

  function Replaced<T>(s: Slot<T>, v: T): Slot<T> {
    Slot(v, s.maybe + {v})
  }

  type Record = Slot<Option<Task>>

  // Where the process holding the mutation lock stands.
  datatype Pc = Idle | JournalWritten | TaskNext | TaskWritten | LogNext | LogWritten | UnlinkNext | Unlinked

  // `used` holds every event id ever minted.
  datatype Store = Store(tasks: map<TaskId, Record>, log: Log, kept: nat, torn: bool, journal: Slot<Option<Txn>>,
                         pc: Pc, used: set<EventId>)

  // What a power loss makes of each file.
  datatype Loss = Loss(tasks: map<TaskId, Option<Task>>, records: nat, torn: bool, journal: Option<Txn>)

  datatype Step =
    | WriteJournal(txn: Txn) | SyncJournal
    | StartReplay | WriteTask | SyncTasks | WriteLog | SyncLog | Unlink | SyncUnlink
    | TearLog | ProcessCrash | PowerLoss(loss: Loss)

  const EMPTY := Store(map[], [], 0, false, Settle(None), Idle, {})

  function At(s: Store, t: TaskId): Record {
    if t in s.tasks then s.tasks[t] else Settle(None)
  }

  function RevisionOf(o: Option<Task>): nat {
    if o.Some? then o.value.meta.revision else 0
  }

  // A transaction as _commit_locked prepares it.
  predicate TxnOk(x: Txn) {
    && x.after.meta.revision == RevisionOf(x.before) + 1
    && x.event.task == Some(x.after.id) && x.event.revision == x.after.meta.revision
  }

  predicate Possible(s: Store, l: Loss) {
    && l.tasks.Keys == s.tasks.Keys && (forall t <- s.tasks :: l.tasks[t] in s.tasks[t].maybe)
    && s.kept <= l.records <= |s.log| && (l.torn ==> s.torn || l.records < |s.log|)
    && l.journal in s.journal.maybe
  }

  predicate Can(s: Store, a: Step) {
    match a
    case WriteJournal(x) =>
      s.pc == Idle && s.journal.seen.None? && x.before == At(s, x.after.id).seen && TxnOk(x) && x.event.id !in s.used
    case SyncJournal => s.pc == JournalWritten
    case StartReplay =>
      && s.pc == Idle && s.journal.seen.Some? && !s.torn
      && At(s, s.journal.seen.value.after.id).seen in {s.journal.seen.value.before, Some(s.journal.seen.value.after)}
    case WriteTask => s.pc == TaskNext && s.journal.seen.Some?
    case SyncTasks => s.pc == TaskWritten
    case WriteLog => s.pc == LogNext && s.journal.seen.Some?
    case SyncLog => s.pc == LogWritten
    case Unlink => s.pc == UnlinkNext
    case SyncUnlink => s.pc == Unlinked
    case TearLog => s.pc == LogNext && s.journal.seen.Some? && s.journal.seen.value.event.id !in Ids(s.log)
    case ProcessCrash => true
    case PowerLoss(l) => Possible(s, l)
  }

  function Do(s: Store, a: Step): Store
    requires Can(s, a)
  {
    match a
    case WriteJournal(x) => s.(journal := Replaced(s.journal, Some(x)), pc := JournalWritten, used := s.used + {x.event.id})
    case SyncJournal => s.(journal := Settle(s.journal.seen), pc := Idle)
    case StartReplay => s.(pc := TaskNext)
    case WriteTask =>
      var x := s.journal.seen.value;
      s.(tasks := s.tasks[x.after.id := Replaced(At(s, x.after.id), Some(x.after))], pc := TaskWritten)
    case SyncTasks => s.(tasks := map t | t in s.tasks :: Settle(s.tasks[t].seen), pc := LogNext)
    case WriteLog => s.(log := With(s.log, Some(s.journal.seen.value.event)), pc := LogWritten)
    case SyncLog => s.(kept := |s.log|, pc := UnlinkNext)
    case Unlink => s.(journal := Replaced(s.journal, None), pc := Unlinked)
    case SyncUnlink => s.(journal := Settle(s.journal.seen), pc := Idle)
    case TearLog => s.(torn := true, pc := Idle)
    case ProcessCrash => s.(pc := Idle)
    case PowerLoss(l) =>
      s.(tasks := map t | t in s.tasks :: Settle(l.tasks[t]), log := s.log[..l.records], kept := l.records, torn := l.torn,
         journal := Settle(l.journal), pc := Idle)
  }

  function Run(s: Store, run: seq<Step>): Store
    decreases |run|
  {
    if run == [] then s else
    var before := Run(s, run[..|run| - 1]);
    if Can(before, run[|run| - 1]) then Do(before, run[|run| - 1]) else before
  }

  // The pending journal would survive a power loss.
  predicate Anchored(s: Store) {
    s.journal.maybe == {s.journal.seen}
  }

  // Every replay of the run starts from a journal that is already durable.
  predicate Careful(s: Store, run: seq<Step>)
    decreases |run|
  {
    run == [] ||
    (Careful(s, run[..|run| - 1]) &&
     (run[|run| - 1] == StartReplay && Can(Run(s, run[..|run| - 1]), StartReplay) ==> Anchored(Run(s, run[..|run| - 1]))))
  }

  // --------------------------------------------------------------------- soundness

  // The log records revisions 1, 2, ... of every task, up to the one it has.
  ghost predicate Complete(log: Log, tasks: map<TaskId, Record>) {
    forall t: TaskId :: Revisions(log, t) == UpTo(if t in tasks then RevisionOf(tasks[t].seen) else 0)
  }

  // What recovery needs: the pending transaction applies, and applying it completes the log.
  ghost predicate Recoverable(s: Store) {
    match s.journal.seen
    case None => Complete(s.log, s.tasks)
    case Some(x) =>
      && At(s, x.after.id).seen in {x.before, Some(x.after)}
      && Complete(With(s.log, Some(x.event)), s.tasks[x.after.id := Settle(Some(x.after))])
  }

  predicate Synced(s: Store, t: TaskId) {
    At(s, t).maybe == {At(s, t).seen}
  }

  predicate Finished(s: Store, x: Txn) {
    At(s, x.after.id) == Settle(Some(x.after)) && x.event.id in Ids(s.log)
  }

  predicate Pristine(s: Store, x: Txn) {
    At(s, x.after.id) == Settle(x.before) && x.event.id !in Ids(s.log)
  }

  // Nothing is half done: a journal that is or may be there is finished or not begun.
  ghost predicate Quiet(s: Store) {
    && (forall t <- s.tasks :: Synced(s, t)) && s.kept == |s.log| && Complete(s.log, s.tasks)
    && forall c <- s.journal.maybe | c.Some? ::
         TxnOk(c.value) && (Finished(s, c.value) || (c == s.journal.seen && Pristine(s, c.value)))
  }

  predicate Recorded(log: Log, e: Event) {
    log != [] && log[|log| - 1] == e
  }

  function Base(log: Log, e: Event): Log {
    if Recorded(log, e) then log[..|log| - 1] else log
  }

  // A durable journal is being applied.
  ghost predicate Applying(s: Store) {
    s.journal.seen.Some? && Anchored(s) &&
    var x := s.journal.seen.value;
    var base := Base(s.log, x.event);
    && TxnOk(x)
    && (forall t <- s.tasks | t != x.after.id :: Synced(s, t))
    && At(s, x.after.id).seen in At(s, x.after.id).maybe && At(s, x.after.id).maybe <= {x.before, Some(x.after)}
    && |base| <= s.kept && x.event.id !in Ids(base)
    && (Recorded(s.log, x.event) ==> At(s, x.after.id) == Settle(Some(x.after)))
    && (forall t: TaskId :: Revisions(base, t) == UpTo(RevisionOf(if t == x.after.id then x.before else At(s, t).seen)))
  }

  predicate PcOk(s: Store) {
    && (s.pc == JournalWritten ==> s.journal.seen.Some?)
    && (s.pc in {TaskNext, TaskWritten, LogNext, LogWritten, UnlinkNext} ==> s.journal.seen.Some? && Anchored(s))
    && (s.pc == TaskWritten ==> At(s, s.journal.seen.value.after.id).seen == Some(s.journal.seen.value.after))
    && (s.pc in {LogNext, LogWritten, UnlinkNext} ==> At(s, s.journal.seen.value.after.id) == Settle(Some(s.journal.seen.value.after)))
    && (s.pc in {LogWritten, UnlinkNext} ==> s.journal.seen.value.event.id in Ids(s.log))
    && (s.pc == Unlinked ==> s.journal.seen.None?)
  }

  predicate Books(s: Store) {
    && s.kept <= |s.log| && s.journal.seen in s.journal.maybe
    && (forall t <- s.tasks :: s.tasks[t].seen in s.tasks[t].maybe)
    && Ids(s.log) <= s.used && (forall c <- s.journal.maybe | c.Some? :: c.value.event.id in s.used)
  }

  ghost predicate Inv(s: Store) {
    && Books(s) && PcOk(s)
    && (Quiet(s) || (Applying(s) && s.pc != JournalWritten))
    && (s.pc in {UnlinkNext, Unlinked} ==> Quiet(s))
  }

  // ------------------------------------------------------------- preservation

  lemma BaseThenEvent(log: Log, e: Event, t: TaskId)
    requires Recorded(log, e)
    ensures Revisions(log, t) == Revisions(Base(log, e), t) + if e.task == Some(t) then [e.revision] else []
    ensures log == Base(log, e) + [e] && Ids(log) == Ids(Base(log, e)) + {e.id}
  {
    assert log == Base(log, e) + [e];
    CountAdd(Base(log, e), Some(e), t, {});
    IdsAppend(Base(log, e), e);
  }

  lemma UpToNext(n: nat)
    ensures UpTo(n + 1) == UpTo(n) + [n + 1]
  {
  }

  // An applied and recorded journal leaves nothing half done.
  lemma AppliedIsComplete(s: Store)
    requires Applying(s) && At(s, s.journal.seen.value.after.id) == Settle(Some(s.journal.seen.value.after))
    requires s.journal.seen.value.event.id in Ids(s.log)
    ensures Recorded(s.log, s.journal.seen.value.event) && Complete(s.log, s.tasks)
  {
    var x := s.journal.seen.value;
    forall t: TaskId ensures Revisions(s.log, t) == UpTo(RevisionOf(At(s, t).seen)) {
      BaseThenEvent(s.log, x.event, t);
      UpToNext(RevisionOf(x.before));
    }
  }

  // The store with the after-image written but not synced.
  function Applied(s: Store): Store
    requires s.journal.seen.Some?
  {
    var x := s.journal.seen.value;
    s.(tasks := s.tasks[x.after.id := Replaced(At(s, x.after.id), Some(x.after))])
  }

  lemma ApplyingStarts(s: Store)
    requires s.journal.seen.Some? && Quiet(s) && Anchored(s) && TxnOk(s.journal.seen.value) && Pristine(s, s.journal.seen.value)
    ensures Applying(Applied(s))
  {
    var x, s' := s.journal.seen.value, Applied(s);
    assert Base(s.log, x.event) == s.log;
    forall t: TaskId | t != x.after.id ensures At(s', t) == At(s, t) {
    }
  }

  lemma ApplyingGoesOn(s: Store)
    requires Applying(s)
    ensures Applying(Applied(s))
  {
    var x, s' := s.journal.seen.value, Applied(s);
    forall t: TaskId | t != x.after.id ensures At(s', t) == At(s, t) {
    }
    assert {Some(x.after)} + {Some(x.after)} == {Some(x.after)};
  }

  lemma FinishedStays(s: Store)
    requires s.journal.seen.Some? && Finished(s, s.journal.seen.value)
    ensures Applied(s) == s
  {
    var x := s.journal.seen.value;
    assert {Some(x.after)} + {Some(x.after)} == {Some(x.after)};
    assert Applied(s).tasks == s.tasks;
  }

  lemma AppliedIsSound(s: Store)
    requires s.journal.seen.Some? && Anchored(s) && (Quiet(s) || Applying(s))
    ensures Quiet(Applied(s)) || Applying(Applied(s))
  {
    if Applying(s) {
      ApplyingGoesOn(s);
    } else if Finished(s, s.journal.seen.value) {
      FinishedStays(s);
    } else {
      assert s.journal.seen in s.journal.maybe;
      ApplyingStarts(s);
    }
  }

  lemma PcIsNoMatter(s: Store, pc: Pc)
    ensures Quiet(s) ==> Quiet(s.(pc := pc))
    ensures Applying(s) ==> Applying(s.(pc := pc))
  {
  }

  lemma WriteTaskKeeps(s: Store)
    requires Inv(s) && Can(s, WriteTask)
    ensures Inv(Do(s, WriteTask))
  {
    assert Quiet(Do(s, WriteTask)) || Applying(Do(s, WriteTask)) by {
      AppliedIsSound(s);
      PcIsNoMatter(Applied(s), TaskWritten);
    }
    assert Books(Do(s, WriteTask));
  }

  // Every task file settled at its visible value.
  function TasksSynced(s: Store): Store {
    s.(tasks := map t | t in s.tasks :: Settle(s.tasks[t].seen))
  }

  lemma SyncedIsSound(s: Store)
    requires (Quiet(s) || Applying(s)) && forall t <- s.tasks :: s.tasks[t].seen in s.tasks[t].maybe
    ensures Quiet(s) ==> Quiet(TasksSynced(s))
    ensures !Quiet(s) ==> Applying(TasksSynced(s))
  {
    var s' := TasksSynced(s);
    forall t: TaskId ensures At(s', t) == Settle(At(s, t).seen) {
    }
    if Quiet(s) {
      assert s'.tasks == s.tasks;
    }
  }

  lemma SyncTasksKeeps(s: Store)
    requires Inv(s) && Can(s, SyncTasks)
    ensures Inv(Do(s, SyncTasks))
  {
    SyncedIsSound(s);
    PcIsNoMatter(TasksSynced(s), LogNext);
    assert At(TasksSynced(s), s.journal.seen.value.after.id) == Settle(Some(s.journal.seen.value.after));
  }

  lemma RecordingKeeps(s: Store)
    requires Applying(s) && s.kept <= |s.log| && s.journal.seen.value.event.id !in Ids(s.log)
    requires At(s, s.journal.seen.value.after.id) == Settle(Some(s.journal.seen.value.after))
    ensures Applying(s.(log := s.log + [s.journal.seen.value.event]))
  {
    var e := s.journal.seen.value.event;
    assert !Recorded(s.log, e);
    assert Base(s.log + [e], e) == s.log;
  }

  lemma WriteLogIsSound(s: Store)
    requires Inv(s) && Can(s, WriteLog)
    ensures Quiet(Do(s, WriteLog)) || Applying(Do(s, WriteLog))
  {
    var x := s.journal.seen.value;
    if x.event.id !in Ids(s.log) {
      RecordingKeeps(s);
      PcIsNoMatter(s.(log := s.log + [x.event]), LogWritten);
    } else {
      PcIsNoMatter(s, LogWritten);
    }
  }

  lemma WriteLogKeeps(s: Store)
    requires Inv(s) && Can(s, WriteLog)
    ensures Inv(Do(s, WriteLog))
  {
    assert Quiet(Do(s, WriteLog)) || Applying(Do(s, WriteLog)) by { WriteLogIsSound(s); }
    IdsAppend(s.log, s.journal.seen.value.event);
  }

  lemma SyncLogKeeps(s: Store)
    requires Inv(s) && Can(s, SyncLog)
    ensures Inv(Do(s, SyncLog))
  {
    if !Quiet(s) {
      AppliedIsComplete(s);
    }
  }

  lemma PrefixIds(log: Log, n: nat)
    requires n <= |log|
    ensures Ids(log[..n]) <= Ids(log)
  {
  }

  lemma QuietSurvives(s: Store, l: Loss)
    requires Quiet(s) && Can(s, PowerLoss(l)) && s.kept <= |s.log|
    ensures Quiet(Do(s, PowerLoss(l)))
  {
    var s' := Do(s, PowerLoss(l));
    forall t <- s.tasks ensures s'.tasks[t] == s.tasks[t] {
      assert Synced(s, t);
    }
    assert s'.tasks == s.tasks && s'.log == s.log;
  }

  lemma PowerLossKeeps(s: Store, l: Loss)
    requires Inv(s) && Can(s, PowerLoss(l))
    ensures Inv(Do(s, PowerLoss(l)))
  {
    PrefixIds(s.log, l.records);
    if Quiet(s) {
      QuietSurvives(s, l);
    } else {
      ApplyingSurvives(s, l);
    }
  }

  lemma NotRecordedTwice(log: Log, e: Event)
    requires e.id !in Ids(log)
    ensures !Recorded(log, e)
  {
    assert log != [] ==> log[|log| - 1] in log;
  }

  lemma ApplyingSurvives(s: Store, l: Loss)
    requires Applying(s) && s.kept <= |s.log| && Can(s, PowerLoss(l))
    ensures Applying(Do(s, PowerLoss(l)))
  {
    var s', x := Do(s, PowerLoss(l)), s.journal.seen.value;
    var base := Base(s.log, x.event);
    assert s'.log == base || s'.log == s.log;
    NotRecordedTwice(base, x.event);
    assert Base(s'.log, x.event) == base;
    assert forall t | t != x.after.id :: At(s', t).seen == At(s, t).seen;
  }

  lemma JournalStepKeeps(s: Store, a: Step)
    requires Inv(s) && Can(s, a) && (a.WriteJournal? || a in {SyncJournal, Step.Unlink, SyncUnlink})
    ensures Inv(Do(s, a))
  {
    var s' := Do(s, a);
    if Quiet(s) {
      assert Quiet(s');
    }
  }

  lemma Kept(s: Store, a: Step)
    requires Inv(s) && Can(s, a) && (a == StartReplay ==> Anchored(s))
    ensures Inv(Do(s, a))
  {
    match a
    case WriteTask => WriteTaskKeeps(s);
    case SyncTasks => SyncTasksKeeps(s);
    case WriteLog => WriteLogKeeps(s);
    case SyncLog => SyncLogKeeps(s);
    case PowerLoss(l) => PowerLossKeeps(s, l);
    case WriteJournal(_) => JournalStepKeeps(s, a);
    case SyncJournal => JournalStepKeeps(s, a);
    case Unlink => JournalStepKeeps(s, a);
    case SyncUnlink => JournalStepKeeps(s, a);
    case _ => BookkeepingKeeps(s, a);
  }

  lemma BookkeepingKeeps(s: Store, a: Step)
    requires Inv(s) && Can(s, a) && a in {StartReplay, TearLog, ProcessCrash} && (a == StartReplay ==> Anchored(s))
    ensures Inv(Do(s, a))
  {
    var s' := Do(s, a);
    if Quiet(s) {
      assert Quiet(s');
    } else {
      assert Applying(s');
    }
  }

  // ---------------------------------------------------------------- whole runs

  lemma {:induction false} CarefulRunsKeep(s: Store, run: seq<Step>)
    requires Inv(s) && Careful(s, run)
    ensures Inv(Run(s, run))
    decreases |run|
  {
    if run != [] {
      var s1, a := Run(s, run[..|run| - 1]), run[|run| - 1];
      CarefulRunsKeep(s, run[..|run| - 1]);
      if Can(s1, a) {
        Kept(s1, a);
      }
    }
  }

  lemma EmptyIsSound()
    ensures Inv(EMPTY)
  {
  }

  lemma QuietRecovers(s: Store, x: Txn)
    requires Quiet(s) && s.journal.seen == Some(x) && TxnOk(x) && (Finished(s, x) || Pristine(s, x))
    ensures Recoverable(s)
  {
    var tasks := s.tasks[x.after.id := Settle(Some(x.after))];
    forall t: TaskId
      ensures Revisions(With(s.log, Some(x.event)), t) == UpTo(if t in tasks then RevisionOf(tasks[t].seen) else 0)
    {
      assert Revisions(s.log, t) == UpTo(RevisionOf(At(s, t).seen));
      if Pristine(s, x) {
        NextRevisions(s.log, x.event, RevisionOf(At(s, t).seen), t);
      }
    }
  }

  lemma WithBase(log: Log, e: Event)
    requires e.id !in Ids(Base(log, e))
    ensures With(log, Some(e)) == Base(log, e) + [e]
  {
    if Recorded(log, e) {
      BaseThenEvent(log, e, 0);
    }
  }

  lemma NextRevisions(base: Log, e: Event, before: nat, t: TaskId)
    requires Revisions(base, t) == UpTo(before) && (e.task == Some(t) ==> e.revision == before + 1)
    ensures Revisions(base + [e], t) == UpTo(if e.task == Some(t) then before + 1 else before)
  {
    UpToNext(before);
    CountAdd(base, Some(e), t, {});
  }

  lemma ApplyingRecovers(s: Store)
    requires Applying(s)
    ensures Recoverable(s)
  {
    var x := s.journal.seen.value;
    var base, tasks := Base(s.log, x.event), s.tasks[x.after.id := Settle(Some(x.after))];
    WithBase(s.log, x.event);
    forall t: TaskId
      ensures Revisions(base + [x.event], t) == UpTo(if t in tasks then RevisionOf(tasks[t].seen) else 0)
    {
      NextRevisions(base, x.event, RevisionOf(if t == x.after.id then x.before else At(s, t).seen), t);
    }
  }

  lemma InvRecovers(s: Store)
    requires Inv(s)
    ensures Recoverable(s)
  {
    if s.journal.seen.Some? {
      if Quiet(s) {
        assert s.journal.seen in s.journal.maybe;
        QuietRecovers(s, s.journal.seen.value);
      } else {
        ApplyingRecovers(s);
      }
    }
  }

  // Crash-atomic commit. Whatever was interrupted, and whatever a power loss takes away
  // next, the audit log records exactly the revisions the tasks have once the pending
  // transaction is applied - as long as no replay starts from a journal that is not durable.
  lemma CrashAtomic(run: seq<Step>, loss: Loss)
    requires Careful(EMPTY, run)
    ensures var s := Run(EMPTY, run);
            Recoverable(s) && (Possible(s, loss) ==> Recoverable(Do(s, PowerLoss(loss))))
  {
    EmptyIsSound();
    CarefulRunsKeep(EMPTY, run);
    var s := Run(EMPTY, run);
    InvRecovers(s);
    if Possible(s, loss) {
      PowerLossKeeps(s, loss);
      InvRecovers(Do(s, PowerLoss(loss)));
    }
  }

  // The process itself is never killed: the only failure is a power loss.
  predicate Unkilled(run: seq<Step>) {
    forall a <- run :: a != ProcessCrash && a != TearLog
  }

  lemma {:induction false} PowerLossRunsAreCareful(run: seq<Step>)
    requires Unkilled(run)
    ensures Careful(EMPTY, run)
    ensures var s := Run(EMPTY, run);
            (s.pc !in {JournalWritten, Unlinked} ==> Anchored(s)) && (s.pc == JournalWritten ==> s.journal.seen.Some?)
    decreases |run|
  {
    if run != [] {
      var n := |run| - 1;
      assert forall a <- run[..n] :: a in run;
      PowerLossRunsAreCareful(run[..n]);
      assert run[n] in run;
    }
  }

  // Losing every unsynced write at any point is harmless when nothing else goes wrong.
  lemma PowerLossAloneIsSafe(run: seq<Step>)
    requires Unkilled(run)
    ensures Recoverable(Run(EMPTY, run))
  {
    PowerLossRunsAreCareful(run);
    EmptyIsSound();
    CarefulRunsKeep(EMPTY, run);
    InvRecovers(Run(EMPTY, run));
  }

  // A damaged log stops recovery: nothing but another failure can happen.
  lemma TornLogStops(s: Store, a: Step)
    requires s.torn && s.pc == Idle && s.journal.seen.Some? && Can(s, a)
    ensures a.PowerLoss? || Do(s, a) == s
  {
  }

  // --------------------------------------------- exactly when a replay is safe

  const REPLAY := [StartReplay, WriteTask, SyncTasks, WriteLog, SyncLog, Step.Unlink, SyncUnlink]

  // Interrupting the replay of s's journal after k steps by a power loss is survivable.
  ghost predicate SafeAfter(s: Store, k: nat, loss: Loss)
    requires k <= |REPLAY|
  {
    var s' := Run(s, REPLAY[..k]);
    Possible(s', loss) ==> Recoverable(Do(s', PowerLoss(loss)))
  }

  ghost predicate ReplaySafe(s: Store) {
    forall k: nat, loss | k <= |REPLAY| :: SafeAfter(s, k, loss)
  }

  lemma {:induction false} AnchoredReplayIsCareful(s: Store, k: nat)
    requires k <= |REPLAY| && Anchored(s)
    ensures Careful(s, REPLAY[..k])
  {
    if k > 0 {
      assert REPLAY[..k][..k - 1] == REPLAY[..k - 1];
      AnchoredReplayIsCareful(s, k - 1);
      assert REPLAY[..k][k - 1] == StartReplay ==> k == 1;
      assert REPLAY[..0] == [];
    }
  }

  // The journal has been replayed as far as the task file.
  function TaskReplayed(s: Store): Store
    requires Can(s, StartReplay)
  {
    Do(Do(Do(s, StartReplay), WriteTask), SyncTasks)
  }

  lemma RunsToTask(s: Store)
    requires Can(s, StartReplay)
    ensures Run(s, REPLAY[..3]) == TaskReplayed(s)
  {
    assert REPLAY[..3][..2] == REPLAY[..2] && REPLAY[..2][..1] == REPLAY[..1] && REPLAY[..1][..0] == [];
    assert Run(s, REPLAY[..1]) == Do(s, StartReplay);
    assert Run(s, REPLAY[..2]) == Do(Do(s, StartReplay), WriteTask);
  }

  // The loss that brings back journal c and nothing else.
  function LoseJournal(s: Store, c: Option<Txn>): Loss {
    Loss(map t | t in s.tasks :: s.tasks[t].seen, |s.log|, false, c)
  }

  lemma LostJournal(s: Store, c: Option<Txn>)
    requires Inv(s) && Quiet(s) && s.journal.seen.Some? && Pristine(s, s.journal.seen.value) && Can(s, StartReplay)
    requires c in s.journal.maybe && c != s.journal.seen
    ensures var s' := TaskReplayed(s);
            Possible(s', LoseJournal(s', c)) && !Recoverable(Do(s', PowerLoss(LoseJournal(s', c))))
  {
    var x, s1 := s.journal.seen.value, TaskReplayed(s);
    var s2 := Do(s1, PowerLoss(LoseJournal(s1, c)));
    assert s2.log == s.log;
    assert At(s2, x.after.id).seen == Some(x.after);
    assert Revisions(s.log, x.after.id) == UpTo(RevisionOf(x.before));
    assert |UpTo(RevisionOf(x.before))| != |UpTo(RevisionOf(Some(x.after)))|;
    if c.Some? {
      assert Finished(s, c.value);
      assert With(s.log, Some(c.value.event)) == s.log;
    }
  }

  // Replaying a transaction survives every power loss if and only if its journal was
  // durable when the replay began.
  lemma ReplaySafeIffAnchored(s: Store)
    requires Inv(s) && Quiet(s) && Can(s, StartReplay) && Pristine(s, s.journal.seen.value)
    ensures ReplaySafe(s) <==> Anchored(s)
  {
    if Anchored(s) {
      forall k: nat, loss | k <= |REPLAY| ensures SafeAfter(s, k, loss) {
        AnchoredReplayIsCareful(s, k);
        CarefulRunsKeep(s, REPLAY[..k]);
        var s' := Run(s, REPLAY[..k]);
        if Possible(s', loss) {
          PowerLossKeeps(s', loss);
          InvRecovers(Do(s', PowerLoss(loss)));
        }
      }
    } else {
      var c :| c in s.journal.maybe && c != s.journal.seen;
      LostJournal(s, c);
      RunsToTask(s);
      assert !SafeAfter(s, 3, LoseJournal(TaskReplayed(s), c));
    }
  }

  lemma RunSnoc(s: Store, run: seq<Step>, a: Step)
    ensures Run(s, run + [a]) == if Can(Run(s, run), a) then Do(Run(s, run), a) else Run(s, run)
  {
    assert (run + [a])[..|run + [a]| - 1] == run;
  }

  // A commit killed between the rename of its journal and the sync of the directory.
  function Killed(x: Txn): Store {
    EMPTY.(journal := Slot(Some(x), {None, Some(x)}), used := {x.event.id})
  }

  lemma JournalRenamed(x: Txn)
    requires x.before.None? && TxnOk(x)
    ensures Can(EMPTY, WriteJournal(x)) && Do(EMPTY, WriteJournal(x)) == Killed(x).(pc := JournalWritten)
  {
    assert {None} + {Some(x)} == {None, Some(x)};
  }

  lemma KilledCommit(x: Txn)
    requires x.before.None? && TxnOk(x)
    ensures Run(EMPTY, [WriteJournal(x), ProcessCrash]) == Killed(x)
  {
    var first := [WriteJournal(x)];
    JournalRenamed(x);
    RunSnoc(EMPTY, [], WriteJournal(x));
    assert [] + [WriteJournal(x)] == first;
    RunSnoc(EMPTY, first, ProcessCrash);
    assert first + [ProcessCrash] == [WriteJournal(x), ProcessCrash];
  }

  lemma KilledReplay(x: Txn, run: seq<Step>)
    requires Run(EMPTY, run) == Killed(x)
    ensures Run(EMPTY, run + [StartReplay] + [WriteTask] + [SyncTasks])
            == Killed(x).(tasks := map[x.after.id := Settle(Some(x.after))], pc := LogNext)
    requires x.before.None?
  {
    RunSnoc(EMPTY, run, StartReplay);
    RunSnoc(EMPTY, run + [StartReplay], WriteTask);
    RunSnoc(EMPTY, run + [StartReplay] + [WriteTask], SyncTasks);
  }

  // The failing family has a member: a process crash between the rename of the journal and
  // the sync of its directory, a replay, and a power loss before the audit record leave a
  // task at revision 1 with no journal and an empty log.
  lemma UnanchoredReplayLosesAnEvent(x: Txn)
    requires x.before.None? && TxnOk(x)
    ensures var loss := Loss(map[x.after.id := Some(x.after)], 0, false, None);
            var s := Run(EMPTY, [WriteJournal(x), ProcessCrash, StartReplay, WriteTask, SyncTasks, PowerLoss(loss)]);
            && s.journal == Settle(None) && s.log == [] && At(s, x.after.id) == Settle(Some(x.after)) && !Recoverable(s)
  {
    var loss := Loss(map[x.after.id := Some(x.after)], 0, false, None);
    var run := [WriteJournal(x), ProcessCrash];
    KilledCommit(x);
    KilledReplay(x, run);
    RunSnoc(EMPTY, run + [StartReplay] + [WriteTask] + [SyncTasks], PowerLoss(loss));
    assert run + [StartReplay] + [WriteTask] + [SyncTasks] + [PowerLoss(loss)]
           == [WriteJournal(x), ProcessCrash, StartReplay, WriteTask, SyncTasks, PowerLoss(loss)];
    assert |Revisions([], x.after.id)| != |UpTo(1)|;
  }

  lemma RunLast(s: Store, run: seq<Step>, a: Step)
    ensures Run(s, run + [a]) == if Can(Run(s, run), a) then Do(Run(s, run), a) else Run(s, run)
  {
    assert (run + [a])[..|run + [a]| - 1] == run;
  }

  // Uninterrupted, a transaction that can be journalled is committed: its task and event are
  // on disk, the journal is gone, and no power loss can undo any of it.
  lemma CommitCompletes(s: Store, x: Txn)
    requires Can(s, WriteJournal(x)) && !s.torn && x.event.id !in Ids(s.log)
    ensures Run(s, [WriteJournal(x), SyncJournal, StartReplay, WriteTask, SyncTasks, WriteLog, SyncLog, Step.Unlink, SyncUnlink]) ==
              s.(tasks := (map t | t in s.tasks :: Settle(s.tasks[t].seen))[x.after.id := Settle(Some(x.after))],
                 log := s.log + [x.event], kept := |s.log| + 1, journal := Settle(None), used := s.used + {x.event.id})
  {
    var r1 := [WriteJournal(x)];
    var r2 := r1 + [SyncJournal];
    RunLast(s, [], WriteJournal(x));
    assert [] + [WriteJournal(x)] == r1;
    RunLast(s, r1, SyncJournal);
    ReplayCompletes(s, r2, x);
    assert r2 + REPLAY == [WriteJournal(x), SyncJournal, StartReplay, WriteTask, SyncTasks, WriteLog, SyncLog, Step.Unlink, SyncUnlink];
  }

  lemma ReplayCompletes(s: Store, run: seq<Step>, x: Txn)
    requires var s' := Run(s, run);
             && s'.pc == Idle && !s'.torn && s'.journal == Settle(Some(x)) && At(s', x.after.id).seen == x.before
             && x.event.id !in Ids(s'.log)
    ensures var s' := Run(s, run);
            Run(s, run + REPLAY) ==
              s'.(tasks := (map t | t in s'.tasks :: Settle(s'.tasks[t].seen))[x.after.id := Settle(Some(x.after))],
                  log := s'.log + [x.event], kept := |s'.log| + 1, journal := Settle(None))
  {
    var r1 := run + [StartReplay];
    var r2 := r1 + [WriteTask];
    var r3 := r2 + [SyncTasks];
    RunLast(s, run, StartReplay);
    RunLast(s, r1, WriteTask);
    RunLast(s, r2, SyncTasks);
    assert Run(s, r3).tasks == (map t | t in Run(s, run).tasks :: Settle(Run(s, run).tasks[t].seen))[x.after.id := Settle(Some(x.after))];
    RecordingCompletes(s, r3, x);
    assert r3 + [WriteLog, SyncLog, Step.Unlink, SyncUnlink] == run + REPLAY;
  }

  lemma RecordingCompletes(s: Store, run: seq<Step>, x: Txn)
    requires var s' := Run(s, run); s'.pc == LogNext && s'.journal.seen == Some(x) && x.event.id !in Ids(s'.log)
    ensures var s' := Run(s, run);
            Run(s, run + [WriteLog, SyncLog, Step.Unlink, SyncUnlink]) ==
              s'.(log := s'.log + [x.event], kept := |s'.log| + 1, journal := Settle(None), pc := Idle)
  {
    var r1 := run + [WriteLog];
    var r2 := r1 + [SyncLog];
    var r3 := r2 + [Step.Unlink];
    RunLast(s, run, WriteLog);
    RunLast(s, r1, SyncLog);
    RunLast(s, r2, Step.Unlink);
    RunLast(s, r3, SyncUnlink);
    assert r3 + [SyncUnlink] == run + [WriteLog, SyncLog, Step.Unlink, SyncUnlink];
  }
}
