// The deployment manifest under crashes that may also lose writes the kernel never made
// durable. The manifest carries its own redo record: the event of the control it has just
// taken over. Files behave as in the task store.
module DurableManifest {
  import opened Prelude
  import opened FarmTypes
  import opened FarmLogical
  import D = DurableStore

  // A manifest, by the events of the controls it went through, the pending one included.
  datatype Man = Man(published: Log, pending: Option<Event>)

  datatype Pc = Idle | Published | LogNext | LogWritten | ClearNext | Cleared

  // The log holds the deployment events only; its first `kept` records are durable.
  datatype Plane = Plane(man: D.Slot<Man>, log: Log, kept: nat, torn: bool, pc: Pc)

  datatype Loss = Loss(man: Man, records: nat, torn: bool)

  datatype Step =
    | WriteControl(e: Event) | SyncControl
    | StartFinish | WriteLog | SyncLog | Clear | SyncClear
    | TearLog | ProcessCrash | PowerLoss(loss: Loss)

  const EMPTY := Plane(D.Settle(Man([], None)), [], 0, false, Idle)

  predicate Possible(s: Plane, l: Loss) {
    l.man in s.man.maybe && s.kept <= l.records <= |s.log| && (l.torn ==> s.torn || l.records < |s.log|)
  }

  predicate Can(s: Plane, a: Step) {
    match a
    case WriteControl(e) => s.pc == Idle && !s.torn && s.man.seen.pending.None? && e.id !in Ids(s.log)
    case SyncControl => s.pc == Published
    case StartFinish => s.pc == Idle && !s.torn && s.man.seen.pending.Some?
    case WriteLog => s.pc == LogNext && s.man.seen.pending.Some?
    case SyncLog => s.pc == LogWritten
    case Clear => s.pc == ClearNext
    case SyncClear => s.pc == Cleared
    case TearLog => s.pc == LogNext && s.man.seen.pending.Some? && s.man.seen.pending.value.id !in Ids(s.log)
    case ProcessCrash => true
    case PowerLoss(l) => Possible(s, l)
  }

  function Do(s: Plane, a: Step): Plane
    requires Can(s, a)
  {
    match a
    case WriteControl(e) => s.(man := D.Replaced(s.man, Man(s.man.seen.published + [e], Some(e))), pc := Published)
    case SyncControl => s.(man := D.Settle(s.man.seen), pc := Idle)
    case StartFinish => s.(pc := LogNext)
    case WriteLog => s.(log := With(s.log, s.man.seen.pending), pc := LogWritten)
    case SyncLog => s.(kept := |s.log|, pc := ClearNext)
    case Clear => s.(man := D.Replaced(s.man, s.man.seen.(pending := None)), pc := Cleared)
    case SyncClear => s.(man := D.Settle(s.man.seen), pc := Idle)
    case TearLog => s.(torn := true, pc := Idle)
    case ProcessCrash => s.(pc := Idle)
    case PowerLoss(l) => Plane(D.Settle(l.man), s.log[..l.records], l.records, l.torn, Idle)
  }

  function Run(s: Plane, run: seq<Step>): Plane
    decreases |run|
  {
    if run == [] then s else
    var before := Run(s, run[..|run| - 1]);
    if Can(before, run[|run| - 1]) then Do(before, run[|run| - 1]) else before
  }

  // The manifest a reader sees would survive a power loss.
  predicate Anchored(s: Plane) {
    s.man.maybe == {s.man.seen}
  }

  // The pending event is in the log already.
  predicate Recorded(s: Plane) {
    s.man.seen.pending.Some? && s.man.seen.pending.value.id in Ids(s.log)
  }

  // Every finish of the run starts from a durable manifest, or has nothing left to record.
  predicate Careful(s: Plane, run: seq<Step>)
    decreases |run|
  {
    run == [] ||
    (Careful(s, run[..|run| - 1]) &&
     (run[|run| - 1] == StartFinish && Can(Run(s, run[..|run| - 1]), StartFinish) ==>
        Anchored(Run(s, run[..|run| - 1])) || Recorded(Run(s, run[..|run| - 1]))))
  }

  // Once the redo record is finished, the log holds exactly the events of the controls.
  predicate Agrees(log: Log, m: Man) {
    With(log, m.pending) == m.published
  }

  // Every manifest a power loss may bring back agrees with every log it may leave.
  predicate Sound(s: Plane) {
    && s.kept <= |s.log| && s.man.seen in s.man.maybe
    && forall m, n | m in s.man.maybe && s.kept <= n <= |s.log| :: Agrees(s.log[..n], m)
  }

  predicate PcOk(s: Plane) {
    && (s.pc in {LogNext, LogWritten, ClearNext} ==> s.man.seen.pending.Some?)
    && (s.pc == LogNext ==> Anchored(s) || Recorded(s))
    && (s.pc in {LogWritten, ClearNext} ==> Recorded(s))
    && (s.pc == ClearNext ==> s.kept == |s.log|)
  }

  predicate Inv(s: Plane) {
    Sound(s) && PcOk(s)
  }

  lemma SoundNow(s: Plane, m: Man)
    requires Sound(s) && m in s.man.maybe
    ensures Agrees(s.log, m)
  {
    assert s.log[..|s.log|] == s.log;
  }

  // Publishing: nothing is pending, so the log is complete and durable.
  lemma ControlKeeps(s: Plane, e: Event)
    requires Inv(s) && Can(s, WriteControl(e))
    ensures Inv(Do(s, WriteControl(e)))
  {
    var s' := Do(s, WriteControl(e));
    forall m, n | m in s'.man.maybe && s.kept <= n <= |s.log| ensures Agrees(s'.log[..n], m) {
      assert Agrees(s.log[..n], s.man.seen);
      SoundNow(s, s.man.seen);
    }
  }

  lemma LogKeeps(s: Plane)
    requires Inv(s) && Can(s, WriteLog)
    ensures Inv(Do(s, WriteLog))
  {
    var s', e := Do(s, WriteLog), s.man.seen.pending.value;
    SoundNow(s, s.man.seen);
    if !Recorded(s) {
      IdsAppend(s.log, e);
      forall m, n | m in s'.man.maybe && s.kept <= n <= |s'.log| ensures Agrees(s'.log[..n], m) {
        if n <= |s.log| {
          assert s'.log[..n] == s.log[..n];
        } else {
          assert s'.log[..n] == s'.log;
        }
      }
    }
  }

  lemma ClearKeeps(s: Plane)
    requires Inv(s) && Can(s, Clear)
    ensures Inv(Do(s, Clear))
  {
    SoundNow(s, s.man.seen);
  }

  lemma LossKeeps(s: Plane, l: Loss)
    requires Inv(s) && Can(s, PowerLoss(l))
    ensures Inv(Do(s, PowerLoss(l)))
  {
    var s' := Do(s, PowerLoss(l));
    assert s'.log[..l.records] == s.log[..l.records];
    assert Agrees(s.log[..l.records], l.man);
  }

  lemma Kept(s: Plane, a: Step)
    requires Inv(s) && Can(s, a) && (a == StartFinish ==> Anchored(s) || Recorded(s))
    ensures Inv(Do(s, a))
  {
    match a
    case WriteControl(e) => ControlKeeps(s, e);
    case WriteLog => LogKeeps(s);
    case Clear => ClearKeeps(s);
    case PowerLoss(l) => LossKeeps(s, l);
    case _ =>
  }

  lemma {:induction false} CarefulRunsKeep(s: Plane, run: seq<Step>)
    requires Inv(s) && Careful(s, run)
    ensures Inv(Run(s, run))
    decreases |run|
  {
    if run != [] {
      var s1, a := Run(s, run[..|run| - 1]), run[|run| - 1];
      CarefulRunsKeep(s, run[..|run| - 1]);
      if Can(s1, a) {
        Kept(s1, a);
      }
    }
  }

  // Whatever was interrupted, and whatever a power loss takes away next, manifest and log
  // agree once the redo record is finished - as long as no finish that has something to
  // record starts from a manifest that is not durable.
  lemma CrashAtomic(run: seq<Step>, loss: Loss)
    requires Careful(EMPTY, run)
    ensures var s := Run(EMPTY, run);
            Agrees(s.log, s.man.seen) && (Possible(s, loss) ==> Agrees(s.log[..loss.records], loss.man))
  {
    CarefulRunsKeep(EMPTY, run);
    var s := Run(EMPTY, run);
    SoundNow(s, s.man.seen);
  }

  // --------------------------------------------- exactly when a finish is safe

  const FINISH := [StartFinish, WriteLog, SyncLog, Clear, SyncClear]

  // Interrupting the finish after k steps by a power loss is survivable.
  predicate SafeAfter(s: Plane, k: nat, l: Loss)
    requires k <= |FINISH|
  {
    var s' := Run(s, FINISH[..k]);
    Possible(s', l) ==> Agrees(s'.log[..l.records], l.man)
  }

  ghost predicate FinishSafe(s: Plane) {
    forall k: nat, l | k <= |FINISH| :: SafeAfter(s, k, l)
  }

  lemma {:induction false} FinishIsCareful(s: Plane, k: nat)
    requires k <= |FINISH| && (Anchored(s) || Recorded(s))
    ensures Careful(s, FINISH[..k])
  {
    if k > 0 {
      assert FINISH[..k][..k - 1] == FINISH[..k - 1];
      FinishIsCareful(s, k - 1);
      assert FINISH[..k][k - 1] == StartFinish ==> k == 1;
      assert FINISH[..0] == [];
    }
  }

  // Another manifest that agrees with the log does not once the event has been added.
  lemma OthersDisagree(log: Log, seen: Man, m: Man)
    requires seen.pending.Some? && seen.pending.value.id !in Ids(log)
    requires Agrees(log, seen) && Agrees(log, m) && m != seen
    ensures !Agrees(log + [seen.pending.value], m)
  {
    var e := seen.pending.value;
    IdsAppend(log, e);
    assert |log + [e]| != |log|;
    if m.pending.Some? && m.pending.value.id !in Ids(log) {
      assert (log + [e])[|log|] == e && (log + [m.pending.value])[|log|] == m.pending.value;
    }
  }

  lemma RunsToLog(s: Plane)
    requires Can(s, StartFinish)
    ensures Run(s, FINISH[..2]) == s.(log := With(s.log, s.man.seen.pending), pc := LogWritten)
  {
    assert FINISH[..2][..1] == FINISH[..1] && FINISH[..1][..0] == [];
    assert Run(s, FINISH[..1]) == Do(s, StartFinish);
  }

  // Finishing a redo record survives every power loss if and only if its manifest was
  // durable when the finish began, or its event had been recorded before.
  lemma FinishSafeIffAnchored(s: Plane)
    requires Inv(s) && Can(s, StartFinish)
    ensures FinishSafe(s) <==> Anchored(s) || Recorded(s)
  {
    if Anchored(s) || Recorded(s) {
      forall k: nat, l | k <= |FINISH| ensures SafeAfter(s, k, l) {
        FinishIsCareful(s, k);
        CarefulRunsKeep(s, FINISH[..k]);
      }
    } else {
      var m :| m in s.man.maybe && m != s.man.seen;
      SoundNow(s, s.man.seen);
      SoundNow(s, m);
      RunsToLog(s);
      OthersDisagree(s.log, s.man.seen, m);
      var s', l := Run(s, FINISH[..2]), Loss(m, |s.log| + 1, false);
      assert Possible(s', l) && s'.log[..l.records] == s'.log;
      assert !SafeAfter(s, 2, l);
    }
  }

  lemma RunSnoc(s: Plane, run: seq<Step>, a: Step)
    ensures Run(s, run + [a]) == if Can(Run(s, run), a) then Do(Run(s, run), a) else Run(s, run)
  {
    assert (run + [a])[..|run + [a]| - 1] == run;
  }

  // The failing family has a member: a process killed between the rename of the manifest
  // and the sync of its directory, a retry, and a power loss that brings the old manifest
  // back after the log was written. The event is recorded without its control, and the same
  // control cannot be published again, for its id is spent.
  lemma UnanchoredFinishLosesTheControl(e: Event)
    ensures var loss := Loss(Man([], None), 1, false);
            var s := Run(EMPTY, [WriteControl(e), ProcessCrash, StartFinish, WriteLog, PowerLoss(loss)]);
            s.log == [e] && s.man == D.Settle(Man([], None)) && !Agrees(s.log, s.man.seen) && !Can(s, WriteControl(e))
  {
    var loss := Loss(Man([], None), 1, false);
    var r1 := [WriteControl(e)];
    var r2 := r1 + [ProcessCrash];
    var r3 := r2 + [StartFinish];
    var r4 := r3 + [WriteLog];
    RunSnoc(EMPTY, [], WriteControl(e));
    assert [] + [WriteControl(e)] == r1;
    RunSnoc(EMPTY, r1, ProcessCrash);
    RunSnoc(EMPTY, r2, StartFinish);
    RunSnoc(EMPTY, r3, WriteLog);
    RunSnoc(EMPTY, r4, PowerLoss(loss));
    assert r4 + [PowerLoss(loss)] == [WriteControl(e), ProcessCrash, StartFinish, WriteLog, PowerLoss(loss)];
    assert e in [e];
  }

  // Uninterrupted, a control that can be published is: its event is logged once, nothing is
  // pending any more, and no power loss can undo either.
  lemma PublishingCompletes(s: Plane, e: Event)
    requires Can(s, WriteControl(e))
    ensures Run(s, [WriteControl(e), SyncControl, StartFinish, WriteLog, SyncLog, Clear, SyncClear]) ==
              s.(man := D.Settle(Man(s.man.seen.published + [e], None)), log := s.log + [e], kept := |s.log| + 1)
  {
    var r1 := [WriteControl(e)];
    var r2 := r1 + [SyncControl];
    var r3 := r2 + [StartFinish];
    var r4 := r3 + [WriteLog];
    var r5 := r4 + [SyncLog];
    var r6 := r5 + [Clear];
    RunSnoc(s, [], WriteControl(e));
    assert [] + [WriteControl(e)] == r1;
    RunSnoc(s, r1, SyncControl);
    RunSnoc(s, r2, StartFinish);
    RunSnoc(s, r3, WriteLog);
    RunSnoc(s, r4, SyncLog);
    RunSnoc(s, r5, Clear);
    RunSnoc(s, r6, SyncClear);
    assert r6 + [SyncClear] == [WriteControl(e), SyncControl, StartFinish, WriteLog, SyncLog, Clear, SyncClear];
  }
}
