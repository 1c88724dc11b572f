// One worker of the tmux executor: persisted identity, generated scripts, dispatch guard
// directories, the pidfile, and commands that tmux may deliver late, twice or never.
//
// A shell reads its script at once, runs where the runtime that sent it runs (same host,
// boot and PID namespace), and an invocation writes receipts only while it is alive.
module Executor {
  import opened Prelude
  import opened FarmMoves

  datatype Place = Place(host: nat, boot: nat, ns: nat)

  // What host_identity() reads: either id may be unreadable.
  datatype Ident = Ident(host: nat, boot: Option<nat>, ns: Option<nat>)

  type Attempt = nat

  datatype Slip = Slip(content: nat, author: Attempt, submitted: bool)

  // What the worker was issued for.
  datatype Owner = Owner(task: nat, lease: nat)

  datatype Saved = Saved(ident: Ident, attempt: Attempt, prior: Option<Slip>, owner: Owner)

  // The words of the pidfile; `start` is None for the word "unknown".
  datatype Pidfile = Missing | Garbled | Full(pid: int, start: Option<nat>, attempt: Attempt) | Short(pid: int, word: nat)

  // What /proc says about a pid.
  datatype Lookup = Absent | Shown(start: nat, zombie: bool) | Unreadable

  // The positive-evidence rule for liveness.
  function Observe(file: Pidfile, saved: Saved, current: Ident, proc: Lookup): Liveness {
    var id := saved.ident;
    if id.host != current.host then Liveness.Unknown
    else if id.boot.None? || current.boot.None? then Liveness.Unknown
    else if id.boot != current.boot then Dead
    else if id.ns.None? || id.ns != current.ns then Liveness.Unknown
    else
      match file
      case Full(pid, start, a) => if a == saved.attempt && pid > 0 then Judge(start, proc) else Liveness.Unknown
      case Short(pid, w) => if w == saved.attempt && pid > 0 then Judge(None, proc) else Liveness.Unknown
      case _ => Liveness.Unknown
  }

  function Judge(start: Option<nat>, proc: Lookup): Liveness {
    match proc
    case Absent => Dead
    case Unreadable => Liveness.Unknown
    case Shown(st, z) =>
      if start.None? then Liveness.Unknown else if st == start.value && !z then Liveness.Alive else Dead
  }

  // Both identities are readable, and the same.
  predicate SameRuntime(id: Ident, current: Ident) {
    id.host == current.host && id.boot.Some? && id.boot == current.boot && id.ns.Some? && id.ns == current.ns
  }

  // The host has been booted again since.
  predicate Rebooted(id: Ident, current: Ident) {
    id.host == current.host && id.boot.Some? && current.boot.Some? && id.boot != current.boot
  }

  // A usable pid is on record for this attempt.
  predicate OnRecord(file: Pidfile, a: Attempt) {
    || (file.Full? && file.attempt == a && file.pid > 0)
    || (file.Short? && file.word == a && file.pid > 0)
  }

  // The recorded process is gone, is a zombie, or is another one under the same pid.
  predicate Exited(file: Pidfile, proc: Lookup) {
    || proc == Absent
    || (file.Full? && file.start.Some? && proc.Shown? && (proc.zombie || proc.start != file.start.value))
  }

  predicate Lives(file: Pidfile, proc: Lookup) {
    file.Full? && file.start.Some? && proc == Shown(file.start.value, false)
  }

  // When a worker must be called dead, when alive, and that it is called neither otherwise.
  lemma ObservedExactly(file: Pidfile, saved: Saved, current: Ident, proc: Lookup)
    ensures Observe(file, saved, current, proc) == Dead <==>
              || Rebooted(saved.ident, current)
              || (SameRuntime(saved.ident, current) && OnRecord(file, saved.attempt) && Exited(file, proc))
    ensures Observe(file, saved, current, proc) == Liveness.Alive <==>
              SameRuntime(saved.ident, current) && OnRecord(file, saved.attempt) && Lives(file, proc)
  {
  }

  // --------------------------------------------------------------------- the system

  datatype Script = LaunchSh | ResumeSh

  // A command typed into a pane. It names the script, not the attempt.
  datatype Send = Send(script: Script, place: Place)

  datatype Stage = Guarded | Cleaned | Spawned | Recorded | Gone

  // One pass of a script beyond its guard.
  datatype Pass = Pass(attempt: Attempt, place: Place, stage: Stage, pid: int, start: nat, alive: bool)

  // Progress of the runtime process inside launch() or resume().
  datatype Step = Resting | Cleared | Fencing(prior: Option<Slip>) | Prepared | Written(script: Script)

  datatype Runtime = Runtime(place: Place, bootReadable: bool, nsReadable: bool, step: Step)

  datatype Sys = Sys(
    // files on shared storage
    saved: Option<Saved>, scripts: map<Script, Attempt>, guards: set<Attempt>, pidfile: Pidfile, receipt: Option<Slip>,
    // the machines
    boots: map<nat, nat>, sends: set<Send>, passes: seq<Pass>, runtime: Option<Runtime>,
    // identifiers handed out so far, and where the current attempt was prepared
    attempts: set<Attempt>, contents: set<nat>, home: Place)

  function IdentOf(r: Runtime): Ident {
    Ident(r.place.host, if r.bootReadable then Some(r.place.boot) else None, if r.nsReadable then Some(r.place.ns) else None)
  }

  predicate Running(p: Pass) {
    p.stage in {Spawned, Recorded} && p.alive
  }

  // A pass whose shell has not got as far as recording the invocation.
  predicate Unfinished(p: Pass) {
    p.stage in {Guarded, Cleaned, Spawned}
  }

  // A pass that is, or will be, an invocation.
  predicate Active(p: Pass) {
    p.stage in {Guarded, Cleaned} || Running(p)
  }

  // Delivered now, the command would start an invocation.
  predicate Starts(s: Sys, x: Send) {
    x.script in s.scripts && s.scripts[x.script] !in s.guards
  }

  predicate Pending(s: Sys) {
    exists x <- s.sends :: Starts(s, x)
  }

  predicate Busy(s: Sys) {
    exists i :: 0 <= i < |s.passes| && Active(s.passes[i])
  }

  // The runtime is committed to sending an attempt that has not run yet.
  predicate Dispatching(s: Sys) {
    && s.runtime.Some? && (s.runtime.value.step.Prepared? || s.runtime.value.step.Written?)
    && s.saved.Some? && s.saved.value.attempt !in s.guards
  }

  // No invocation of the worker is running, queued or about to be queued.
  predicate Quiet(s: Sys) {
    !Pending(s) && !Busy(s) && !Dispatching(s)
  }

  // /proc shows a live process, and shows it as live, exactly under its own pid and start time.
  predicate Truthful(s: Sys, at: Place, proc: Lookup) {
    match s.pidfile
    case Full(pid, _, _) => TruthAbout(s, at, pid, proc)
    case Short(pid, _) => TruthAbout(s, at, pid, proc)
    case _ => true
  }

  predicate TruthAbout(s: Sys, at: Place, pid: int, proc: Lookup) {
    && (forall p <- s.passes | p.stage in {Spawned, Recorded} && p.place == at && p.pid == pid && p.alive ::
          proc == Unreadable || proc == Shown(p.start, false))
    && (forall p <- s.passes | p.stage in {Spawned, Recorded} && p.place == at && p.pid == pid && proc == Shown(p.start, false) :: p.alive)
  }

  datatype Action =
    // the runtime
    | Enter(r: Runtime) | Look(proc: Lookup) | Fence | Prepare(a: Attempt, owner: Owner) | WriteScript(script: Script) | SendKeys | Quit
    // tmux and the shell
    | Deliver(x: Send) | RemoveReceipt(i: nat) | Spawn(i: nat, pid: int, start: nat) | GiveUp(i: nat)
    | TruncatePidfile(i: nat) | RecordPid(i: nat, captured: bool, legacy: bool)
    // the invocation
    | WriteReceipt(i: nat, content: nat, submitted: bool) | Exit(i: nat)
    // the host
    | Reboot(host: nat, boot: nat)

  const START := Sys(None, map[], {}, Missing, None, map[], {}, [], None, {}, {}, Place(0, 0, 0))

  predicate UpAt(s: Sys, p: Place) {
    p.host in s.boots && s.boots[p.host] == p.boot
  }

  predicate StageIs(s: Sys, i: nat, g: Stage) {
    i < |s.passes| && s.passes[i].stage == g
  }

  predicate StepIs(s: Sys, t: Step) {
    s.runtime.Some? && s.runtime.value.step == t
  }

  predicate Enabled(s: Sys, a: Action) {
    match a
    case Enter(r) => s.runtime.None? && UpAt(s, r.place) && r.step == Resting
    case Look(proc) => StepIs(s, Resting) && Truthful(s, s.runtime.value.place, proc)
    case Fence => StepIs(s, Cleared)
    case Prepare(a, o) =>
      && s.runtime.Some? && s.runtime.value.step.Fencing? && a !in s.attempts
      && (s.saved.Some? ==> s.saved.value.owner == o)
    case WriteScript(_) => StepIs(s, Prepared) && s.saved.Some?
    case SendKeys => s.runtime.Some? && s.runtime.value.step.Written?
    case Quit => true
    case Deliver(x) => x in s.sends && Starts(s, x)
    case RemoveReceipt(i) => StageIs(s, i, Guarded)
    case Spawn(i, pid, start) =>
      && StageIs(s, i, Cleaned) && pid > 0
      && forall p <- s.passes | p.stage in {Spawned, Recorded} && p.place == s.passes[i].place :: p.pid != pid || p.start != start
    case GiveUp(i) => StageIs(s, i, Guarded) || StageIs(s, i, Cleaned)
    case TruncatePidfile(i) => StageIs(s, i, Spawned)
    case RecordPid(i, captured, legacy) => StageIs(s, i, Spawned) && (legacy ==> !captured)
    case WriteReceipt(i, content, _) => i < |s.passes| && Running(s.passes[i]) && content !in s.contents
    case Exit(i) => i < |s.passes| && Running(s.passes[i])
    case Reboot(host, boot) => host !in s.boots || s.boots[host] < boot
  }

  function SetStep(s: Sys, t: Step): Sys
    requires s.runtime.Some?
  {
    s.(runtime := Some(s.runtime.value.(step := t)))
  }

  function SetPass(s: Sys, i: nat, p: Pass): Sys
    requires i < |s.passes|
  {
    s.(passes := s.passes[i := p])
  }

  // A power cycle ends every process and every queued command of its host.
  function Ended(p: Pass, host: nat): Pass {
    if p.place.host != host then p
    else if Unfinished(p) then p.(stage := Gone, alive := false)
    else p.(alive := false)
  }

  function Do(s: Sys, a: Action): Sys
    requires Enabled(s, a)
  {
    match a
    case Enter(r) => s.(runtime := Some(r))
    case Look(proc) =>
      if s.saved.None? || Observe(s.pidfile, s.saved.value, IdentOf(s.runtime.value), proc) == Dead then SetStep(s, Cleared) else s
    case Fence => SetStep(s, Fencing(s.receipt))
    case Prepare(a, o) =>
      SetStep(s, Prepared).(saved := Some(Saved(IdentOf(s.runtime.value), a, s.runtime.value.step.prior, o)),
                            attempts := s.attempts + {a}, home := s.runtime.value.place)
    case WriteScript(x) => SetStep(s, Written(x)).(scripts := s.scripts[x := s.saved.value.attempt])
    case SendKeys => SetStep(s, Resting).(sends := s.sends + {Send(s.runtime.value.step.script, s.runtime.value.place)})
    case Quit => s.(runtime := None)
    case Deliver(x) =>
      s.(guards := s.guards + {s.scripts[x.script]}, passes := s.passes + [Pass(s.scripts[x.script], x.place, Guarded, 0, 0, false)])
    case RemoveReceipt(i) => SetPass(s, i, s.passes[i].(stage := Cleaned)).(receipt := None)
    case Spawn(i, pid, start) => SetPass(s, i, s.passes[i].(stage := Spawned, pid := pid, start := start, alive := true))
    case GiveUp(i) => SetPass(s, i, s.passes[i].(stage := Gone))
    case TruncatePidfile(_) => s.(pidfile := Garbled)
    case RecordPid(i, captured, legacy) =>
      var p := s.passes[i];
      SetPass(s, i, p.(stage := Recorded)).(pidfile :=
        if legacy then Short(p.pid, p.attempt) else Full(p.pid, if captured then Some(p.start) else None, p.attempt))
    case WriteReceipt(i, content, submitted) =>
      s.(receipt := Some(Slip(content, s.passes[i].attempt, submitted)), contents := s.contents + {content})
    case Exit(i) => SetPass(s, i, s.passes[i].(alive := false))
    case Reboot(host, boot) =>
      s.(boots := s.boots[host := boot], sends := (set x | x in s.sends && x.place.host != host),
         passes := seq(|s.passes|, i requires 0 <= i < |s.passes| => Ended(s.passes[i], host)),
         runtime := if s.runtime.Some? && s.runtime.value.place.host == host then None else s.runtime)
  }

  function Apply(s: Sys, a: Action): Sys {
    if Enabled(s, a) then Do(s, a) else s
  }

  function Exec(s: Sys, run: seq<Action>): Sys
    decreases |run|
  {
    if run == [] then s else Apply(Exec(s, run[..|run| - 1]), run[|run| - 1])
  }

  // --------------------------------------------------------------------- invariant

  predicate PassesOk(s: Sys) {
    && (forall i, j | 0 <= i < j < |s.passes| :: s.passes[i].attempt != s.passes[j].attempt)
    && (forall p <- s.passes :: p.attempt in s.guards && (p.stage in {Gone, Guarded, Cleaned} ==> !p.alive)
                                && (p.stage in {Spawned, Recorded} ==> p.pid > 0))
    && (forall p <- s.passes | Active(p) || Unfinished(p) ::
          s.saved.Some? && p.attempt == s.saved.value.attempt && p.place == s.home && UpAt(s, p.place))
    && (forall p <- s.passes | s.saved.Some? && p.attempt == s.saved.value.attempt :: p.place == s.home)
  }

  predicate SendsOk(s: Sys) {
    && s.guards <= s.attempts
    && (forall x <- s.scripts :: s.scripts[x] in s.attempts)
    && (forall x <- s.sends ::
          && s.saved.Some? && x.place == s.home && UpAt(s, x.place)
          && x.script in s.scripts && (s.scripts[x.script] in s.guards || s.scripts[x.script] == s.saved.value.attempt))
  }

  predicate IsNamed(p: Pass, pid: int, start: Option<nat>, a: Attempt) {
    p.attempt == a && p.pid == pid && p.stage == Recorded && (start.Some? ==> p.start == start.value)
  }

  predicate Named(s: Sys, pid: int, start: Option<nat>, a: Attempt) {
    exists i :: 0 <= i < |s.passes| && IsNamed(s.passes[i], pid, start, a)
  }

  // The pidfile speaks of this pass.
  predicate Names(file: Pidfile, p: Pass) {
    match file
    case Full(pid, start, a) => pid == p.pid && a == p.attempt && (start.Some? ==> start.value == p.start)
    case Short(pid, a) => pid == p.pid && a == p.attempt
    case _ => false
  }

  predicate CurrentNamed(s: Sys) {
    forall p <- s.passes | s.saved.Some? && p.attempt == s.saved.value.attempt && p.stage == Recorded :: Names(s.pidfile, p) && p.pid > 0
  }

  predicate NoneUnfinished(s: Sys) {
    forall p <- s.passes :: !Unfinished(p)
  }

  predicate PidfileOk(s: Sys) {
    match s.pidfile
    case Full(pid, start, a) => Named(s, pid, start, a)
    case Short(pid, a) => Named(s, pid, None, a)
    case _ => true
  }

  predicate SavedOk(s: Sys) {
    s.saved.Some? ==>
      && s.saved.value.attempt in s.attempts
      && s.saved.value.ident.host == s.home.host
      && (s.saved.value.ident.boot.Some? ==> s.saved.value.ident.boot.value == s.home.boot)
      && (s.saved.value.ident.ns.Some? ==> s.saved.value.ident.ns.value == s.home.ns)
  }

  predicate RuntimeOk(s: Sys) {
    s.runtime.Some? ==>
      var r := s.runtime.value;
      && UpAt(s, r.place)
      && (r.step == Cleared || r.step.Fencing? ==> Quiet(s) && NoneUnfinished(s) && (s.sends == {} || s.home == r.place))
      && (r.step.Fencing? ==> r.step.prior == s.receipt)
      && (r.step == Prepared || r.step.Written? ==> s.saved.Some? && s.home == r.place)
      && (r.step == Prepared ==> (forall x <- s.scripts :: s.scripts[x] != s.saved.value.attempt) && s.saved.value.attempt !in s.guards)
      && (r.step.Written? ==> r.step.script in s.scripts && s.scripts[r.step.script] == s.saved.value.attempt)
  }

  predicate ReceiptOk(s: Sys) {
    && (s.receipt.Some? ==> s.receipt.value.content in s.contents)
    && (s.receipt.Some? ==> s.saved.Some? && (s.receipt == s.saved.value.prior || s.receipt.value.author == s.saved.value.attempt))
    && (s.saved.Some? && s.saved.value.prior.Some? ==>
          s.saved.value.prior.value.content in s.contents && s.saved.value.prior.value.author != s.saved.value.attempt
          && s.saved.value.prior.value.author in s.attempts)
    && (s.receipt.Some? ==> s.receipt.value.author in s.attempts)
    && (s.receipt.Some? && s.saved.Some? && s.saved.value.prior.Some? && s.receipt.value.content == s.saved.value.prior.value.content ==>
          s.receipt == s.saved.value.prior)
  }

  predicate Inv(s: Sys) {
    PassesOk(s) && SendsOk(s) && PidfileOk(s) && CurrentNamed(s) && SavedOk(s) && RuntimeOk(s) && ReceiptOk(s)
  }

  // ------------------------------------------------------------------ preservation

  // An observed death means that nothing is running, queued or about to be queued.
  lemma DeadIsQuiet(s: Sys, r: Runtime, proc: Lookup)
    requires Inv(s) && s.saved.Some? && UpAt(s, r.place) && Truthful(s, r.place, proc)
    requires Observe(s.pidfile, s.saved.value, IdentOf(r), proc) == Dead
    ensures Quiet(s) && NoneUnfinished(s) && (s.sends == {} || s.home == r.place)
  {
  }

  // The recorded passes keep what the pidfile says of them.
  lemma PidfileStays(s: Sys, s': Sys)
    requires PidfileOk(s) && s'.pidfile == s.pidfile && |s.passes| <= |s'.passes|
    requires forall i | 0 <= i < |s.passes| && s.passes[i].stage == Recorded ::
               s'.passes[i] == s.passes[i].(alive := s'.passes[i].alive)
    ensures PidfileOk(s')
  {
    match s.pidfile
    case Full(pid, start, a) =>
      var i :| 0 <= i < |s.passes| && IsNamed(s.passes[i], pid, start, a);
      assert IsNamed(s'.passes[i], pid, start, a);
    case Short(pid, a) =>
      var i :| 0 <= i < |s.passes| && IsNamed(s.passes[i], pid, None, a);
      assert IsNamed(s'.passes[i], pid, None, a);
    case _ =>
  }

  lemma RuntimeStepKeeps(s: Sys, a: Action)
    requires Inv(s) && Enabled(s, a) && (a.Enter? || a.Look? || a == Fence || a == SendKeys || a == Quit)
    ensures Inv(Do(s, a))
  {
    PidfileStays(s, Do(s, a));
    if a.Look? && s.saved.Some? && Observe(s.pidfile, s.saved.value, IdentOf(s.runtime.value), a.proc) == Dead {
      DeadIsQuiet(s, s.runtime.value, a.proc);
    }
  }

  lemma PrepareKeeps(s: Sys, a: Action)
    requires Inv(s) && Enabled(s, a) && (a.Prepare? || a.WriteScript?)
    ensures Inv(Do(s, a))
  {
    PidfileStays(s, Do(s, a));
  }

  lemma DeliverKeeps(s: Sys, x: Send)
    requires Inv(s) && Enabled(s, Deliver(x))
    ensures Inv(Do(s, Deliver(x)))
  {
    PidfileStays(s, Do(s, Deliver(x)));
  }

  lemma PassKeeps(s: Sys, a: Action)
    requires Inv(s) && Enabled(s, a)
    requires a.RemoveReceipt? || a.Spawn?
    ensures Inv(Do(s, a))
  {
    PidfileStays(s, Do(s, a));
    assert Do(s, a).passes[a.i] in Do(s, a).passes && s.passes[a.i] in s.passes;
  }

  lemma EndKeeps(s: Sys, a: Action)
    requires Inv(s) && Enabled(s, a)
    requires a.GiveUp? || a.Exit?
    ensures Inv(Do(s, a))
  {
    PidfileStays(s, Do(s, a));
    assert Do(s, a).passes[a.i] in Do(s, a).passes && s.passes[a.i] in s.passes;
  }

  // The pass that records itself is the only one of its attempt.
  lemma RecordNames(s: Sys, a: Action)
    requires Inv(s) && Enabled(s, a) && (a.TruncatePidfile? || a.RecordPid?)
    ensures CurrentNamed(Do(s, a))
  {
    var s' := Do(s, a);
    assert s.passes[a.i] in s.passes;
    forall p | p in s'.passes && s'.saved.Some? && p.attempt == s'.saved.value.attempt && p.stage == Recorded
      ensures Names(s'.pidfile, p) && p.pid > 0
    {
      var j :| 0 <= j < |s'.passes| && s'.passes[j] == p;
      assert j == a.i;
    }
  }

  lemma RecordKeeps(s: Sys, a: Action)
    requires Inv(s) && Enabled(s, a)
    requires a.TruncatePidfile? || a.RecordPid?
    ensures Inv(Do(s, a))
  {
    var p := s.passes[a.i];
    assert p in s.passes;
    RecordNames(s, a);
    if a.RecordPid? {
      assert IsNamed(Do(s, a).passes[a.i], p.pid, if a.captured then Some(p.start) else None, p.attempt);
    }
  }

  lemma ReceiptKeeps(s: Sys, a: Action)
    requires Inv(s) && Enabled(s, a) && a.WriteReceipt?
    ensures Inv(Do(s, a))
  {
    assert s.passes[a.i] in s.passes;
    PidfileStays(s, Do(s, a));
  }

  lemma RebootPass(s: Sys, host: nat, boot: nat, p: Pass) returns (i: nat)
    requires Enabled(s, Reboot(host, boot)) && p in Do(s, Reboot(host, boot)).passes
    ensures i < |s.passes| && s.passes[i] in s.passes && p == Ended(s.passes[i], host) == Do(s, Reboot(host, boot)).passes[i]
  {
    var s' := Do(s, Reboot(host, boot));
    i :| 0 <= i < |s'.passes| && s'.passes[i] == p;
  }

  lemma RebootKeepsPasses(s: Sys, host: nat, boot: nat)
    requires PassesOk(s) && Enabled(s, Reboot(host, boot))
    ensures PassesOk(Do(s, Reboot(host, boot)))
  {
    var s' := Do(s, Reboot(host, boot));
    forall p <- s'.passes
      ensures p.attempt in s'.guards && (p.stage in {Gone, Guarded, Cleaned} ==> !p.alive)
      ensures Active(p) ==> s'.saved.Some? && p.attempt == s'.saved.value.attempt && p.place == s'.home && UpAt(s', p.place)
      ensures s'.saved.Some? && p.attempt == s'.saved.value.attempt ==> p.place == s'.home
    {
      var i := RebootPass(s, host, boot, p);
    }
  }

  lemma RebootKeepsQuiet(s: Sys, host: nat, boot: nat)
    requires Quiet(s) && Enabled(s, Reboot(host, boot))
    ensures Quiet(Do(s, Reboot(host, boot)))
  {
    var s' := Do(s, Reboot(host, boot));
    forall i | 0 <= i < |s'.passes| ensures !Active(s'.passes[i]) {
      assert s'.passes[i] == Ended(s.passes[i], host) && !Active(s.passes[i]);
    }
  }

  lemma RebootKeeps(s: Sys, host: nat, boot: nat)
    requires Inv(s) && Enabled(s, Reboot(host, boot))
    ensures Inv(Do(s, Reboot(host, boot)))
  {
    var s' := Do(s, Reboot(host, boot));
    RebootKeepsPasses(s, host, boot);
    PidfileStays(s, s');
    if Quiet(s) {
      RebootKeepsQuiet(s, host, boot);
    }
    assert SendsOk(s');
    assert RuntimeOk(s');
  }

  lemma Kept(s: Sys, a: Action)
    requires Inv(s) && Enabled(s, a)
    ensures Inv(Do(s, a))
  {
    match a
    case Prepare(_, _) => PrepareKeeps(s, a);
    case WriteScript(_) => PrepareKeeps(s, a);
    case Deliver(x) => DeliverKeeps(s, x);
    case RemoveReceipt(_) => PassKeeps(s, a);
    case Spawn(_, _, _) => PassKeeps(s, a);
    case GiveUp(_) => EndKeeps(s, a);
    case Exit(_) => EndKeeps(s, a);
    case TruncatePidfile(_) => RecordKeeps(s, a);
    case RecordPid(_, _, _) => RecordKeeps(s, a);
    case WriteReceipt(_, _, _) => ReceiptKeeps(s, a);
    case Reboot(host, boot) => RebootKeeps(s, host, boot);
    case _ => RuntimeStepKeeps(s, a);
  }

  lemma {:induction false} Always(run: seq<Action>)
    ensures Inv(Exec(START, run))
    decreases |run|
  {
    if run != [] {
      var s, a := Exec(START, run[..|run| - 1]), run[|run| - 1];
      Always(run[..|run| - 1]);
      if Enabled(s, a) {
        Kept(s, a);
      }
    }
  }

  // ---------------------------------------------------------------- the contract

  // Commands delayed, lost or repeated, crashes and reboots anywhere: an attempt is
  // started at most once, at most one invocation is running, none is queued while one
  // runs, and all queued commands stand for the same single attempt.
  lemma AtMostOneInvocation(run: seq<Action>)
    ensures var s := Exec(START, run);
            && (forall i, j | 0 <= i < j < |s.passes| :: s.passes[i].attempt != s.passes[j].attempt)
            && (forall i, j | 0 <= i < |s.passes| && 0 <= j < |s.passes| && Active(s.passes[i]) && Active(s.passes[j]) :: i == j)
            && (Pending(s) ==> !Busy(s))
            && (forall x, y | x in s.sends && y in s.sends && Starts(s, x) && Starts(s, y) ::
                  s.scripts[x.script] == s.scripts[y.script])
  {
    Always(run);
    var s := Exec(START, run);
    forall i, j | 0 <= i < |s.passes| && 0 <= j < |s.passes| && Active(s.passes[i]) && Active(s.passes[j]) ensures i == j {
      assert s.passes[i] in s.passes && s.passes[j] in s.passes;
    }
    forall i | 0 <= i < |s.passes| && Pending(s) ensures !Active(s.passes[i]) {
      assert s.passes[i] in s.passes;
    }
  }

  // poll() answering "dead" is positive evidence: nothing runs and nothing is queued.
  lemma DeadMeansNone(run: seq<Action>, r: Runtime, proc: Lookup)
    ensures var s := Exec(START, run);
            (s.saved.Some? && UpAt(s, r.place) && Truthful(s, r.place, proc)
             && Observe(s.pidfile, s.saved.value, IdentOf(r), proc) == Dead) ==> Quiet(s)
  {
    Always(run);
    var s := Exec(START, run);
    if s.saved.Some? && UpAt(s, r.place) && Truthful(s, r.place, proc)
       && Observe(s.pidfile, s.saved.value, IdentOf(r), proc) == Dead {
      DeadIsQuiet(s, r, proc);
    }
  }

  lemma AliveIsBusy(s: Sys, r: Runtime, proc: Lookup)
    requires Inv(s) && s.saved.Some? && Truthful(s, r.place, proc)
    requires Observe(s.pidfile, s.saved.value, IdentOf(r), proc) == Liveness.Alive
    requires r.place.host == s.home.host
    ensures Busy(s)
  {
    var file := s.pidfile;
    assert file.Full? && file.start.Some?;
    var i :| 0 <= i < |s.passes| && IsNamed(s.passes[i], file.pid, file.start, file.attempt);
    assert s.passes[i] in s.passes && s.passes[i].place == s.home == r.place;
    assert Active(s.passes[i]);
  }

  lemma QuietStays(s: Sys, a: Action)
    requires Inv(s) && Enabled(s, a) && Quiet(s) && !a.Prepare?
    ensures Quiet(Do(s, a))
  {
    var s' := Do(s, a);
    if a.Reboot? {
      RebootKeepsQuiet(s, a.host, a.boot);
    } else if Busy(s') {
      var i :| 0 <= i < |s'.passes| && Active(s'.passes[i]);
      assert i < |s.passes| ==> !Active(s.passes[i]);
    }
  }

  // Once dead, a worker stays dead until the next attempt is prepared.
  lemma {:induction false} DeadUntilPrepared(s: Sys, run: seq<Action>)
    requires Inv(s) && Quiet(s) && forall a <- run :: !a.Prepare?
    ensures Inv(Exec(s, run)) && Quiet(Exec(s, run))
    decreases |run|
  {
    if run != [] {
      var s1, a := Exec(s, run[..|run| - 1]), run[|run| - 1];
      assert a in run && forall b <- run[..|run| - 1] :: b in run;
      DeadUntilPrepared(s, run[..|run| - 1]);
      if Enabled(s1, a) {
        Kept(s1, a);
        QuietStays(s1, a);
      }
    }
  }

  // Is the receipt on disk one that was not there when the current attempt was prepared?
  predicate Surfaced(s: Sys) {
    s.receipt.Some? && s.saved.Some? && (s.saved.value.prior.None? || s.saved.value.prior.value.content != s.receipt.value.content)
  }

  // A receipt is surfaced exactly when the current attempt wrote it.
  lemma ReceiptsAreFenced(run: seq<Action>)
    ensures var s := Exec(START, run);
            s.receipt.Some? ==> s.saved.Some? && (Surfaced(s) <==> s.receipt.value.author == s.saved.value.attempt)
  {
    Always(run);
  }

  // Preparing withdraws whatever receipt is on disk.
  lemma PreparingFencesTheReceipt(s: Sys, a: Attempt, o: Owner)
    requires Inv(s) && Enabled(s, Prepare(a, o))
    ensures !Surfaced(Do(s, Prepare(a, o))) && Quiet(s)
  {
  }

  // The runtime can read who it is, and could when the current attempt was prepared.
  predicate Legible(s: Sys, r: Runtime) {
    r.bootReadable && r.nsReadable && s.saved.Some? && s.saved.value.ident.boot.Some? && s.saved.value.ident.ns.Some?
  }

  // In every run: once the current attempt has recorded its process, whoever looks from the
  // same place finds it dead as soon as it has exited and its pid is gone, or shown as a
  // zombie or another process when the start time was captured; and alive until then.
  lemma ExitIsSeen(run: seq<Action>, i: nat, r: Runtime, proc: Lookup)
    requires var s := Exec(START, run);
             && i < |s.passes| && s.passes[i].stage == Recorded && r.place == s.home && Legible(s, r)
             && s.passes[i].attempt == s.saved.value.attempt
    ensures var s := Exec(START, run);
            var seen := Observe(s.pidfile, s.saved.value, IdentOf(r), proc);
            && (proc == Absent ==> seen == Dead)
            && (s.pidfile.Full? && s.pidfile.start.Some? && proc.Shown? && (proc.zombie || proc.start != s.passes[i].start) ==> seen == Dead)
            && (s.pidfile.Full? && s.pidfile.start.Some? && proc == Shown(s.passes[i].start, false) ==> seen == Liveness.Alive)
  {
    var s := Exec(START, run);
    Always(run);
    assert Names(s.pidfile, s.passes[i]) by { assert s.passes[i] in s.passes; }
    ObservedExactly(s.pidfile, s.saved.value, IdentOf(r), proc);
  }

  // After a power cycle of its host every worker prepared there reads as dead, whatever its
  // pidfile says.
  lemma RebootIsSeen(run: seq<Action>, r: Runtime, proc: Lookup)
    requires var s := Exec(START, run);
             s.saved.Some? && s.saved.value.ident.boot.Some? && r.bootReadable && r.place.host == s.home.host && r.place.boot != s.home.boot
    ensures var s := Exec(START, run); Observe(s.pidfile, s.saved.value, IdentOf(r), proc) == Dead
  {
    Always(run);
    var s := Exec(START, run);
    ObservedExactly(s.pidfile, s.saved.value, IdentOf(r), proc);
  }

  // ------------------------------------------------------------ what can always happen

  lemma ExecLast(s: Sys, run: seq<Action>, a: Action)
    ensures Exec(s, run + [a]) == Apply(Exec(s, run), a)
  {
    assert (run + [a])[..|run|] == run;
  }

  lemma ExecThree(s: Sys, a: Action, b: Action, c: Action)
    ensures Exec(s, [a, b, c]) == Apply(Apply(Apply(s, a), b), c)
  {
    ExecLast(s, [], a);
    assert [] + [a] == [a];
    ExecLast(s, [a], b);
    assert [a] + [b] == [a, b];
    ExecLast(s, [a, b], c);
    assert [a, b] + [c] == [a, b, c];
  }

  // A dead worker can be given another attempt: the runtime looks, keeps the receipt it
  // finds, and saves the new attempt under its own identity, for the same owner.
  lemma NextAttempt(s: Sys, proc: Lookup, a: Attempt, owner: Owner)
    requires StepIs(s, Resting) && s.saved.Some? && Truthful(s, s.runtime.value.place, proc)
    requires Observe(s.pidfile, s.saved.value, IdentOf(s.runtime.value), proc) == Dead
    requires a !in s.attempts && owner == s.saved.value.owner
    ensures Exec(s, [Look(proc), Fence, Prepare(a, owner)]) ==
              s.(saved := Some(Saved(IdentOf(s.runtime.value), a, s.receipt, owner)), attempts := s.attempts + {a},
                 home := s.runtime.value.place, runtime := Some(s.runtime.value.(step := Prepared)))
  {
    ExecThree(s, Look(proc), Fence, Prepare(a, owner));
    assert Apply(s, Look(proc)) == SetStep(s, Cleared);
    assert Apply(SetStep(s, Cleared), Fence) == SetStep(s, Fencing(s.receipt));
  }

  // What is on file once the prepared attempt has been sent.
  function AfterSend(s: Sys, script: Script): Sys
    requires s.runtime.Some? && s.saved.Some?
  {
    s.(scripts := s.scripts[script := s.saved.value.attempt], sends := s.sends + {Send(script, s.runtime.value.place)},
       runtime := Some(s.runtime.value.(step := Resting)))
  }

  lemma SendsAndDelivers(s: Sys, script: Script)
    requires StepIs(s, Prepared) && s.saved.Some? && s.saved.value.attempt !in s.guards
    ensures var a, at := s.saved.value.attempt, s.runtime.value.place;
            && Pending(AfterSend(s, script))
            && Exec(s, [WriteScript(script), SendKeys, Deliver(Send(script, at))]) ==
                 AfterSend(s, script).(guards := s.guards + {a}, passes := s.passes + [Pass(a, at, Guarded, 0, 0, false)])
  {
    var x := Send(script, s.runtime.value.place);
    ExecThree(s, WriteScript(script), SendKeys, Deliver(x));
    assert Starts(AfterSend(s, script), x);
  }

  // What a shell that got past its guard leaves once it has recorded its invocation.
  function AfterShell(s: Sys, before: seq<Pass>, a: Attempt, at: Place, pid: int, start: nat): Sys {
    s.(passes := before + [Pass(a, at, Recorded, pid, start, true)], receipt := None, pidfile := Full(pid, Some(start), a))
  }

  lemma ShellRuns(s: Sys, before: seq<Pass>, a: Attempt, at: Place, pid: int, start: nat)
    requires s.passes == before + [Pass(a, at, Guarded, 0, 0, false)] && pid > 0
    requires forall p <- before | p.stage in {Spawned, Recorded} && p.place == at :: p.pid != pid || p.start != start
    ensures var n := |before|;
            Exec(s, [RemoveReceipt(n), Spawn(n, pid, start), RecordPid(n, true, false)]) == AfterShell(s, before, a, at, pid, start)
  {
    var n := |before|;
    ExecThree(s, RemoveReceipt(n), Spawn(n, pid, start), RecordPid(n, true, false));
    ShellCleans(s, before, a, at);
    var s1 := s.(passes := before + [Pass(a, at, Cleaned, 0, 0, false)], receipt := None);
    ShellSpawns(s1, before, a, at, pid, start);
    ShellRecords(s1.(passes := before + [Pass(a, at, Spawned, pid, start, true)]), before, a, at, pid, start);
  }

  lemma ShellCleans(s: Sys, before: seq<Pass>, a: Attempt, at: Place)
    requires s.passes == before + [Pass(a, at, Guarded, 0, 0, false)]
    ensures Apply(s, RemoveReceipt(|before|)) == s.(passes := before + [Pass(a, at, Cleaned, 0, 0, false)], receipt := None)
  {
    PassGoes(before, Pass(a, at, Guarded, 0, 0, false), Pass(a, at, Cleaned, 0, 0, false));
  }

  lemma ShellSpawns(s: Sys, before: seq<Pass>, a: Attempt, at: Place, pid: int, start: nat)
    requires s.passes == before + [Pass(a, at, Cleaned, 0, 0, false)] && pid > 0
    requires forall p <- before | p.stage in {Spawned, Recorded} && p.place == at :: p.pid != pid || p.start != start
    ensures Apply(s, Spawn(|before|, pid, start)) == s.(passes := before + [Pass(a, at, Spawned, pid, start, true)])
  {
    PassGoes(before, Pass(a, at, Cleaned, 0, 0, false), Pass(a, at, Spawned, pid, start, true));
  }

  lemma ShellRecords(s: Sys, before: seq<Pass>, a: Attempt, at: Place, pid: int, start: nat)
    requires s.passes == before + [Pass(a, at, Spawned, pid, start, true)]
    ensures Apply(s, RecordPid(|before|, true, false)) ==
              s.(passes := before + [Pass(a, at, Recorded, pid, start, true)], pidfile := Full(pid, Some(start), a))
  {
    PassGoes(before, Pass(a, at, Spawned, pid, start, true), Pass(a, at, Recorded, pid, start, true));
  }

  // A prepared attempt can be carried through to an invocation: written, sent, delivered
  // past its guard, started without the old receipt, and recorded with pid and start time;
  // and what was sent starts nothing any more.
  lemma AttemptRuns(s: Sys, script: Script, pid: int, start: nat)
    requires StepIs(s, Prepared) && s.saved.Some? && s.saved.value.attempt !in s.guards && pid > 0
    requires forall p <- s.passes | p.stage in {Spawned, Recorded} && p.place == s.runtime.value.place :: p.pid != pid || p.start != start
    ensures var a, at, n := s.saved.value.attempt, s.runtime.value.place, |s.passes|;
            var sent := Exec(s, [WriteScript(script), SendKeys, Deliver(Send(script, at))]);
            var ran := Exec(sent, [RemoveReceipt(n), Spawn(n, pid, start), RecordPid(n, true, false)]);
            && Pending(AfterSend(s, script))
            && ran == AfterShell(AfterSend(s, script).(guards := s.guards + {a}), s.passes, a, at, pid, start)
            && !Starts(ran, Send(script, at)) && Busy(ran)
  {
    var a, at := s.saved.value.attempt, s.runtime.value.place;
    SendsAndDelivers(s, script);
    var sent := Exec(s, [WriteScript(script), SendKeys, Deliver(Send(script, at))]);
    ShellRuns(sent, s.passes, a, at, pid, start);
    assert Active((s.passes + [Pass(a, at, Recorded, pid, start, true)])[|s.passes|]);
  }

  lemma PassGoes(passes: seq<Pass>, p: Pass, p': Pass)
    ensures (passes + [p])[|passes| := p'] == passes + [p']
  {
  }
}
