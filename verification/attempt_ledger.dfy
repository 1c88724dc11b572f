// The attempt ledger of one workspace, the questions the steps table asks of it, and what
// every write keeps. A step is its index in the table; records are in creation order.
module AttemptLedger {
  import opened Prelude
  import opened Classify

  datatype After = Step(id: nat) | Group(name: nat) | Chain(prev: nat)

  datatype Spec = Spec(sbatch: bool, after: seq<After>, group: Option<nat>, retry: map<Class, nat>,
                       pool: nat, segment: Option<nat>, root: nat, concurrency: Option<nat>)

  datatype Submit = Intent | Unverified | Rejected | Submitted(job: nat) | Local

  datatype Failure = Failure(cls: Class, retried: bool, parked: bool, released: bool)

  // `seen` is the last observed state; `verdict` whether verification passed.
  datatype Rec = Rec(step: nat, sub: Submit, seen: JobState, verdict: Option<bool>, failure: Option<Failure>)

  type Ledger = seq<Rec>

  function MaxAuto(spec: Spec, c: Class): nat {
    if c in spec.retry then spec.retry[c] else DefaultRetries(c)
  }

  // ------------------------------------------------------------------ queries

  // The most recent attempt of a step.
  function Latest(l: Ledger, s: nat): (i: Option<nat>)
    ensures i.Some? ==> i.value < |l| && l[i.value].step == s && forall j | i.value < j < |l| :: l[j].step != s
    ensures i.None? ==> forall j | 0 <= j < |l| :: l[j].step != s
  {
    if l == [] then None
    else if l[|l| - 1].step == s then Some(|l| - 1)
    else Latest(l[..|l| - 1], s)
  }

  predicate Done(r: Rec) {
    r.verdict == Some(true)
  }

  predicate Ok(l: Ledger, s: nat) {
    Latest(l, s).Some? && Done(l[Latest(l, s).value])
  }

  predicate Parked(r: Rec) {
    r.failure.Some? && r.failure.value.parked
  }

  // A ruling or a retry decision allows one more attempt after this one.
  predicate Superseded(r: Rec) {
    r.failure.Some? && !r.failure.value.parked && (r.failure.value.retried || r.failure.value.released)
  }

  predicate Unresolved(l: Ledger, s: nat) {
    Latest(l, s).Some? &&
    var r := l[Latest(l, s).value];
    !Done(r) && !Parked(r) && !(r.failure.Some? && r.failure.value.released) && !Superseded(r)
  }

  // The job id under which the latest attempt of a step was queued.
  function JobOf(l: Ledger, s: nat): Option<nat> {
    if Latest(l, s).Some? && l[Latest(l, s).value].sub.Submitted? then Some(l[Latest(l, s).value].sub.job) else None
  }

  predicate Member(specs: seq<Spec>, g: nat, s: nat) {
    s < |specs| && specs[s].group == Some(g)
  }

  predicate Met(specs: seq<Spec>, l: Ledger, dep: After) {
    match dep
    case Step(d) => Ok(l, d)
    case Group(g) => (exists s | 0 <= s < |specs| :: Member(specs, g, s)) && forall s | 0 <= s < |specs| && Member(specs, g, s) :: Ok(l, s)
    case Chain(p) => JobOf(l, p).Some? && !Parked(l[Latest(l, p).value])
  }

  // Chains of the pool with a segment still open.
  function ActiveRoots(specs: seq<Spec>, l: Ledger, pool: nat): set<nat> {
    set s | 0 <= s < |specs| && specs[s].pool == pool && specs[s].segment.Some? && Unresolved(l, s) :: specs[s].root
  }

  predicate Ready(specs: seq<Spec>, l: Ledger, s: nat)
    requires s < |specs|
  {
    && !Ok(l, s) && !Unresolved(l, s)
    && !(Latest(l, s).Some? && Parked(l[Latest(l, s).value]))
    && (forall dep <- specs[s].after :: Met(specs, l, dep))
    && !(specs[s].concurrency.Some? && specs[s].concurrency.value > 0 && specs[s].segment == Some(1)
         && |ActiveRoots(specs, l, specs[s].pool)| >= specs[s].concurrency.value)
  }

  // A record whose job or process may still be running or be queued.
  predicate MayRun(r: Rec) {
    r.seen !in TERMINAL_STATES && !r.sub.Rejected?
  }

  predicate InFlight(r: Rec) {
    r.sub.Submitted? && r.seen !in TERMINAL_STATES
  }

  predicate Unfinalized(r: Rec) {
    r.seen in TERMINAL_STATES && r.verdict.None? && r.failure.None?
  }

  predicate UnknownOutcome(r: Rec) {
    r.sub in {Intent, Unverified}
  }

  // ----------------------------------------------------------------- counting

  datatype Tag = Any | Failed(c: Class) | Retried(c: Class) | Released | Open | Closed

  predicate Has(r: Rec, tag: Tag) {
    match tag
    case Any => true
    case Failed(c) => r.failure.Some? && r.failure.value.cls == c
    case Retried(c) => r.failure.Some? && r.failure.value.cls == c && r.failure.value.retried
    case Released => r.failure.Some? && r.failure.value.released
    case Open => !Superseded(r)
    case Closed => Superseded(r)
  }

  function Count(l: Ledger, s: nat, tag: Tag): nat {
    if l == [] then 0
    else Count(l[..|l| - 1], s, tag) + if l[|l| - 1].step == s && Has(l[|l| - 1], tag) then 1 else 0
  }

  function One(r: Rec, s: nat, tag: Tag): nat {
    if r.step == s && Has(r, tag) then 1 else 0
  }

  lemma CountAppend(l: Ledger, r: Rec, s: nat, tag: Tag)
    ensures Count(l + [r], s, tag) == Count(l, s, tag) + One(r, s, tag)
  {
    assert (l + [r])[..|l|] == l;
  }

  lemma {:induction false} CountUpdate(l: Ledger, i: nat, r: Rec, s: nat, tag: Tag)
    requires i < |l|
    ensures Count(l[i := r], s, tag) + One(l[i], s, tag) == Count(l, s, tag) + One(r, s, tag)
  {
    var n := |l| - 1;
    if i < n {
      assert l[i := r][..n] == l[..n][i := r];
      CountUpdate(l[..n], i, r, s, tag);
    } else {
      assert l[i := r][..n] == l[..n];
    }
  }

  lemma {:induction false} CountSplits(l: Ledger, s: nat)
    ensures Count(l, s, Any) == Count(l, s, Open) + Count(l, s, Closed)
    ensures Count(l, s, Closed) <= Count(l, s, Released) + Count(l, s, Retried(Code)) + Count(l, s, Retried(Science))
                                   + Count(l, s, Retried(Budget)) + Count(l, s, Retried(Infra)) + Count(l, s, Retried(Unknown))
    ensures forall c :: Count(l, s, Retried(c)) <= Count(l, s, Failed(c))
  {
    if l != [] {
      CountSplits(l[..|l| - 1], s);
    }
  }

  // ---------------------------------------------------------------- invariant

  // A failure is either retried, or parked, or was parked and has been released.
  predicate FailureOk(f: Failure) {
    && (f.retried ==> !f.parked && !f.released)
    && (f.parked ==> !f.released)
    && (f.retried || f.parked || f.released)
  }

  predicate RecOk(specs: seq<Spec>, r: Rec) {
    && r.step < |specs|
    && (r.sub.Local? <==> !specs[r.step].sbatch)
    && (r.seen in TERMINAL_STATES ==> r.sub.Submitted? || r.sub.Local?)
    && (Done(r) ==> r.failure.None? && r.seen == COMPLETED)
    && (r.failure.Some? ==> FailureOk(r.failure.value) && (r.seen in TERMINAL_STATES || r.sub.Rejected?))
  }

  // Everything a step waits for has happened; a chained segment's predecessor was attempted.
  predicate ClosedUnder(specs: seq<Spec>, l: Ledger, dep: After) {
    match dep
    case Step(d) => Ok(l, d)
    case Group(g) => (exists s | 0 <= s < |specs| :: Member(specs, g, s)) && forall s | 0 <= s < |specs| && Member(specs, g, s) :: Ok(l, s)
    case Chain(p) => Latest(l, p).Some?
  }

  predicate Dependencies(specs: seq<Spec>, l: Ledger, s: nat) {
    s < |specs| && forall dep <- specs[s].after :: ClosedUnder(specs, l, dep)
  }

  // Only the last attempt of a step can be open.
  predicate InOrder(l: Ledger) {
    forall i | 0 <= i < |l| :: Latest(l, l[i].step) == Some(i) || Superseded(l[i])
  }

  ghost predicate Budgeted(specs: seq<Spec>, l: Ledger, releases: map<nat, nat>) {
    && (forall s: nat, c | s < |specs| :: Count(l, s, Retried(c)) <= MaxAuto(specs[s], c))
    && (forall s: nat | s < |specs| :: s in releases && Count(l, s, Released) == releases[s])
  }

  // `called` holds the attempts sbatch has been called for, `releases` counts rulings by step.
  ghost predicate Sound(specs: seq<Spec>, l: Ledger, called: set<nat>, releases: map<nat, nat>) {
    && (forall r <- l :: RecOk(specs, r))
    && InOrder(l)
    && Budgeted(specs, l, releases)
    && (forall r <- l :: Dependencies(specs, l, r.step))
    && (forall i <- called :: i < |l| && !l[i].sub.Local?)
    && (forall i | 0 <= i < |l| && (l[i].sub.Submitted? || l[i].sub.Rejected?) :: i in called)
  }

  // What no write ever undoes: a verified attempt and a recorded failure stay, and a step
  // that is ok gets no further attempt.
  predicate Later(l: Ledger, l': Ledger) {
    && |l| <= |l'|
    && (forall i | 0 <= i < |l| ::
          && l'[i].step == l[i].step
          && (Done(l[i]) ==> l'[i] == l[i])
          && (l[i].failure.Some? ==> l'[i].failure.Some? && l'[i].failure.value.cls == l[i].failure.value.cls
                                       && l'[i].failure.value.retried == l[i].failure.value.retried
                                       && (l[i].failure.value.released ==> l'[i].failure.value.released)))
    && (forall i | |l| <= i < |l'| :: !Ok(l, l'[i].step))
  }

  lemma LatestIs(l: Ledger, s: nat, i: nat)
    requires i < |l| && l[i].step == s && forall j | i < j < |l| :: l[j].step != s
    ensures Latest(l, s) == Some(i)
  {
  }

  lemma OkStays(l: Ledger, l': Ledger, s: nat)
    requires Later(l, l') && Ok(l, s)
    ensures Ok(l', s) && Latest(l', s) == Latest(l, s)
  {
    LatestIs(l', s, Latest(l, s).value);
  }

  lemma LaterTrans(a: Ledger, b: Ledger, c: Ledger)
    requires Later(a, b) && Later(b, c)
    ensures Later(a, c)
  {
    forall i | |a| <= i < |c| ensures !Ok(a, c[i].step) {
      if i < |b| {
        assert b[i].step == c[i].step;
      } else if Ok(a, c[i].step) {
        OkStays(a, b, c[i].step);
      }
    }
  }

  lemma DependenciesStay(specs: seq<Spec>, l: Ledger, l': Ledger, s: nat)
    requires Later(l, l') && Dependencies(specs, l, s)
    ensures Dependencies(specs, l', s)
  {
    forall dep <- specs[s].after ensures ClosedUnder(specs, l', dep) {
      assert ClosedUnder(specs, l, dep);
      match dep
      case Step(d) => OkStays(l, l', d);
      case Group(g) =>
        forall m | 0 <= m < |specs| && Member(specs, g, m) ensures Ok(l', m) {
          OkStays(l, l', m);
        }
      case Chain(p) => assert l'[Latest(l, p).value].step == p;
    }
  }

  // A dependency that is met is closed.
  lemma MetIsClosed(specs: seq<Spec>, l: Ledger, s: nat)
    requires s < |specs| && forall dep <- specs[s].after :: Met(specs, l, dep)
    ensures Dependencies(specs, l, s)
  {
    forall dep <- specs[s].after ensures ClosedUnder(specs, l, dep) {
      assert Met(specs, l, dep);
    }
  }

  // ------------------------------------------------------------------- writes

  // The step may get another attempt: it never had one, or its last one was superseded.
  predicate MayStart(l: Ledger, s: nat) {
    Latest(l, s).None? || Superseded(l[Latest(l, s).value])
  }

  function NewRec(specs: seq<Spec>, s: nat): Rec
    requires s < |specs|
  {
    Rec(s, if specs[s].sbatch then Intent else Local, Missing, None, None)
  }

  lemma AppendLater(l: Ledger, r: Rec)
    requires MayStart(l, r.step) && forall x <- l :: Done(x) ==> x.failure.None?
    ensures Later(l, l + [r])
  {
    if Latest(l, r.step).Some? {
      assert l[Latest(l, r.step).value] in l;
    }
  }

  lemma AppendInOrder(l: Ledger, r: Rec)
    requires InOrder(l) && MayStart(l, r.step)
    ensures InOrder(l + [r])
  {
    var l' := l + [r];
    forall i | 0 <= i < |l'| ensures Latest(l', l'[i].step) == Some(i) || Superseded(l'[i]) {
      if i < |l| && l[i].step != r.step {
        assert Latest(l, l[i].step) == Some(i) || Superseded(l[i]);
        if Latest(l, l[i].step) == Some(i) {
          LatestIs(l', l[i].step, i);
        }
      } else if i < |l| {
        assert Latest(l, r.step).Some?;
      }
    }
  }

  lemma AppendBudgeted(specs: seq<Spec>, l: Ledger, releases: map<nat, nat>, s: nat)
    requires Budgeted(specs, l, releases) && s < |specs|
    ensures Budgeted(specs, l + [NewRec(specs, s)], releases)
  {
    var r := NewRec(specs, s);
    forall x: nat, tag: Tag ensures Count(l + [r], x, tag) == Count(l, x, tag) + One(r, x, tag) {
      CountAppend(l, r, x, tag);
    }
  }

  lemma AppendKeeps(specs: seq<Spec>, l: Ledger, called: set<nat>, releases: map<nat, nat>, s: nat)
    requires Sound(specs, l, called, releases) && s < |specs| && MayStart(l, s) && Dependencies(specs, l, s)
    ensures Sound(specs, l + [NewRec(specs, s)], called, releases) && Later(l, l + [NewRec(specs, s)])
  {
    var l' := l + [NewRec(specs, s)];
    AppendLater(l, NewRec(specs, s));
    AppendInOrder(l, NewRec(specs, s));
    AppendBudgeted(specs, l, releases, s);
    forall x <- l' ensures Dependencies(specs, l', x.step) {
      DependenciesStay(specs, l, l', x.step);
    }
  }

  // The attempt is the last of its step and nothing has been decided about it yet.
  predicate Undecided(l: Ledger, i: nat) {
    i < |l| && Latest(l, l[i].step) == Some(i) && !Done(l[i]) && l[i].failure.None?
  }

  // A write to an undecided attempt.
  predicate MayBecome(specs: seq<Spec>, l: Ledger, called: set<nat>, i: nat, r: Rec) {
    && Undecided(l, i) && r.step == l[i].step && RecOk(specs, r)
    && (r.sub.Submitted? || r.sub.Rejected? ==> i in called)
    && (i in called ==> !r.sub.Local?)
    && (r.failure.Some? ==> !r.failure.value.released)
    && (r.failure.Some? && r.failure.value.retried ==>
          Count(l, r.step, Failed(r.failure.value.cls)) < MaxAuto(specs[r.step], r.failure.value.cls))
  }

  lemma SetLater(l: Ledger, i: nat, r: Rec)
    requires Undecided(l, i) && r.step == l[i].step
    ensures Later(l, l[i := r])
    ensures forall s: nat :: Latest(l[i := r], s) == Latest(l, s)
  {
    var l' := l[i := r];
    forall s: nat ensures Latest(l', s) == Latest(l, s) {
      if Latest(l, s).Some? {
        LatestIs(l', s, Latest(l, s).value);
      }
    }
  }

  lemma SetKeeps(specs: seq<Spec>, l: Ledger, called: set<nat>, releases: map<nat, nat>, i: nat, r: Rec)
    requires Sound(specs, l, called, releases) && MayBecome(specs, l, called, i, r)
    ensures Sound(specs, l[i := r], called, releases) && Later(l, l[i := r])
  {
    var l' := l[i := r];
    SetLater(l, i, r);
    forall s: nat, c | s < |specs| ensures Count(l', s, Retried(c)) <= MaxAuto(specs[s], c) {
      CountUpdate(l, i, r, s, Retried(c));
      CountSplits(l, s);
    }
    forall s: nat | s < |specs| ensures Count(l', s, Released) == Count(l, s, Released) {
      CountUpdate(l, i, r, s, Released);
    }
    forall x <- l' ensures RecOk(specs, x) && Dependencies(specs, l', x.step) {
      if x in l {
        DependenciesStay(specs, l, l', x.step);
      } else {
        assert l[i] in l;
        DependenciesStay(specs, l, l', l[i].step);
      }
    }
  }

  // A ruling lifts the parked failure of a step's last attempt.
  function Lifted(r: Rec): Rec
    requires Parked(r)
  {
    r.(failure := Some(r.failure.value.(parked := false, released := true)))
  }

  lemma LiftLater(l: Ledger, s: nat)
    requires Latest(l, s).Some? && Parked(l[Latest(l, s).value]) && !Done(l[Latest(l, s).value])
    ensures var l' := l[Latest(l, s).value := Lifted(l[Latest(l, s).value])];
            Later(l, l') && (forall x: nat :: Latest(l', x) == Latest(l, x))
  {
    var i := Latest(l, s).value;
    var l' := l[i := Lifted(l[i])];
    forall x: nat ensures Latest(l', x) == Latest(l, x) {
      if Latest(l, x).Some? {
        LatestIs(l', x, Latest(l, x).value);
      }
    }
  }

  lemma LiftCounts(l: Ledger, i: nat, s: nat, c: Class)
    requires i < |l| && Parked(l[i]) && FailureOk(l[i].failure.value)
    ensures Count(l[i := Lifted(l[i])], s, Retried(c)) == Count(l, s, Retried(c))
    ensures Count(l[i := Lifted(l[i])], s, Released) == Count(l, s, Released) + if s == l[i].step then 1 else 0
  {
    CountUpdate(l, i, Lifted(l[i]), s, Retried(c));
    CountUpdate(l, i, Lifted(l[i]), s, Released);
  }

  lemma LiftBudget(specs: seq<Spec>, l: Ledger, releases: map<nat, nat>, i: nat)
    requires Budgeted(specs, l, releases) && i < |l| && Parked(l[i]) && FailureOk(l[i].failure.value) && l[i].step < |specs|
    ensures Budgeted(specs, l[i := Lifted(l[i])], releases[l[i].step := releases[l[i].step] + 1])
  {
    forall s: nat, c | s < |specs| ensures Count(l[i := Lifted(l[i])], s, Retried(c)) <= MaxAuto(specs[s], c) {
      LiftCounts(l, i, s, c);
    }
    forall s: nat | s < |specs|
      ensures Count(l[i := Lifted(l[i])], s, Released) == Count(l, s, Released) + if s == l[i].step then 1 else 0
    {
      LiftCounts(l, i, s, Code);
    }
  }

  lemma LiftDependencies(specs: seq<Spec>, l: Ledger, i: nat)
    requires i < |l| && Parked(l[i]) && Later(l, l[i := Lifted(l[i])]) && forall r <- l :: RecOk(specs, r) && Dependencies(specs, l, r.step)
    ensures forall r <- l[i := Lifted(l[i])] :: RecOk(specs, r) && Dependencies(specs, l[i := Lifted(l[i])], r.step)
  {
    var l' := l[i := Lifted(l[i])];
    assert l[i] in l;
    forall x <- l' ensures RecOk(specs, x) && Dependencies(specs, l', x.step) {
      DependenciesStay(specs, l, l', if x in l then x.step else l[i].step);
    }
  }

  lemma ReleaseKeeps(specs: seq<Spec>, l: Ledger, called: set<nat>, releases: map<nat, nat>, s: nat)
    requires Sound(specs, l, called, releases) && s < |specs| && Latest(l, s).Some? && Parked(l[Latest(l, s).value])
    ensures var i := Latest(l, s).value;
            var l' := l[i := Lifted(l[i])];
            Sound(specs, l', called, releases[s := releases[s] + 1]) && Later(l, l') && MayStart(l', s)
  {
    var i := Latest(l, s).value;
    assert l[i] in l;
    LiftLater(l, s);
    LiftBudget(specs, l, releases, i);
    LiftDependencies(specs, l, i);
    assert InOrder(l[i := Lifted(l[i])]);
  }

  // ---------------------------------------------------------------- consequences

  lemma {:induction false} NoOpenAttempts(l: Ledger, s: nat)
    requires forall r <- l | r.step == s :: Superseded(r)
    ensures Count(l, s, Open) == 0
  {
    if l != [] {
      NoOpenAttempts(l[..|l| - 1], s);
    }
  }

  lemma {:induction false} OneOpenAttempt(l: Ledger, s: nat)
    requires forall i | 0 <= i < |l| && l[i].step == s :: Latest(l, s) == Some(i) || Superseded(l[i])
    ensures Count(l, s, Open) <= 1
  {
    if l != [] {
      var n := |l| - 1;
      if l[n].step == s {
        NoOpenAttempts(l[..n], s);
      } else {
        OneOpenAttempt(l[..n], s);
      }
    }
  }

  function AllRetries(spec: Spec): nat {
    MaxAuto(spec, Code) + MaxAuto(spec, Science) + MaxAuto(spec, Budget) + MaxAuto(spec, Infra) + MaxAuto(spec, Unknown)
  }

  function AttemptsOf(l: Ledger, s: nat): set<nat> {
    set i | 0 <= i < |l| && l[i].step == s
  }

  // The attempts of a step that failed in this class, whatever was decided about them.
  function FailuresOf(l: Ledger, s: nat, c: Class): set<nat> {
    set i | 0 <= i < |l| && l[i].step == s && l[i].failure.Some? && l[i].failure.value.cls == c
  }

  lemma AttemptsGrow(l: Ledger, s: nat)
    requires l != []
    ensures var n := |l| - 1; |AttemptsOf(l, s)| == |AttemptsOf(l[..n], s)| + if l[n].step == s then 1 else 0
  {
    var n := |l| - 1;
    assert AttemptsOf(l, s) == AttemptsOf(l[..n], s) + if l[n].step == s then {n} else {};
  }

  lemma FailuresGrow(l: Ledger, s: nat, c: Class)
    requires l != []
    ensures var n := |l| - 1;
            |FailuresOf(l, s, c)| ==
              |FailuresOf(l[..n], s, c)| + if l[n].step == s && l[n].failure.Some? && l[n].failure.value.cls == c then 1 else 0
  {
    var n := |l| - 1;
    if l[n].step == s && l[n].failure.Some? && l[n].failure.value.cls == c {
      assert FailuresOf(l, s, c) == FailuresOf(l[..n], s, c) + {n};
    } else {
      assert FailuresOf(l, s, c) == FailuresOf(l[..n], s, c);
    }
  }

  lemma {:induction false} CountsAttempts(l: Ledger, s: nat)
    ensures Count(l, s, Any) == |AttemptsOf(l, s)|
  {
    if l != [] {
      var n := |l| - 1;
      CountsAttempts(l[..n], s);
      AttemptsGrow(l, s);
    }
  }

  lemma {:induction false} CountsFailures(l: Ledger, s: nat, c: Class)
    ensures Count(l, s, Failed(c)) == |FailuresOf(l, s, c)|
  {
    if l != [] {
      var n := |l| - 1;
      CountsFailures(l[..n], s, c);
      FailuresGrow(l, s, c);
    }
  }

  // A step gets one attempt, one more per automatic retry its classes allow, and one more
  // per release.
  lemma AttemptsBounded(specs: seq<Spec>, l: Ledger, called: set<nat>, releases: map<nat, nat>, s: nat)
    requires Sound(specs, l, called, releases) && s < |specs|
    ensures |AttemptsOf(l, s)| <= 1 + AllRetries(specs[s]) + releases[s]
  {
    CountSplits(l, s);
    OneOpenAttempt(l, s);
    CountsAttempts(l, s);
  }

  // At most one attempt of a step can have something running or queued.
  lemma OneLiveAttempt(specs: seq<Spec>, l: Ledger, called: set<nat>, releases: map<nat, nat>, i: nat, j: nat)
    requires Sound(specs, l, called, releases) && i < |l| && j < |l| && l[i].step == l[j].step && MayRun(l[i]) && MayRun(l[j])
    ensures i == j && Undecided(l, i)
  {
    assert l[i] in l && l[j] in l;
  }

  // An attempt whose outcome is unknown keeps its step from being started again.
  lemma UnknownBlocks(specs: seq<Spec>, l: Ledger, called: set<nat>, releases: map<nat, nat>, i: nat)
    requires Sound(specs, l, called, releases) && i < |l| && UnknownOutcome(l[i])
    ensures !MayStart(l, l[i].step) && !Ready(specs, l, l[i].step)
  {
    assert l[i] in l;
  }

  // Through a chain, an attempted segment's first segment was attempted as well.
  ghost predicate ChainTo(specs: seq<Spec>, path: seq<nat>) {
    && path != [] && (forall k | 0 <= k < |path| :: path[k] < |specs|)
    && forall k | 0 <= k < |path| - 1 :: Chain(path[k + 1]) in specs[path[k]].after
  }

  // So all that the first segment waits for is verified.
  lemma {:induction false} ChainsAreClosed(specs: seq<Spec>, l: Ledger, called: set<nat>, releases: map<nat, nat>, path: seq<nat>)
    requires Sound(specs, l, called, releases) && ChainTo(specs, path) && Latest(l, path[0]).Some?
    ensures Latest(l, path[|path| - 1]).Some? && Dependencies(specs, l, path[|path| - 1])
  {
    assert l[Latest(l, path[0]).value] in l;
    if |path| > 1 {
      assert ClosedUnder(specs, l, Chain(path[1]));
      ChainsAreClosed(specs, l, called, releases, path[1..]);
    }
  }

  // ------------------------------------------------------- when a step must be launched

  predicate IsLast(l: Ledger, s: nat, i: nat) {
    i < |l| && l[i].step == s && forall j | i < j < |l| :: l[j].step != s
  }

  predicate Untried(l: Ledger, s: nat) {
    forall i | 0 <= i < |l| :: l[i].step != s
  }

  // The last attempt passed verification.
  predicate Verified(l: Ledger, s: nat) {
    exists i | 0 <= i < |l| :: IsLast(l, s, i) && l[i].verdict == Some(true)
  }

  // The last attempt failed, and a retry was decided or a ruling has released it.
  predicate AnotherDue(l: Ledger, s: nat) {
    exists i | 0 <= i < |l| :: IsLast(l, s, i) && l[i].verdict != Some(true) && l[i].failure.Some?
                              && !l[i].failure.value.parked && (l[i].failure.value.retried || l[i].failure.value.released)
  }

  // The last attempt is still to be decided.
  predicate Pending(l: Ledger, s: nat) {
    exists i | 0 <= i < |l| :: IsLast(l, s, i) && l[i].verdict != Some(true)
                              && (l[i].failure.None? || (!l[i].failure.value.parked && !l[i].failure.value.retried && !l[i].failure.value.released))
  }

  // The last attempt waits for a ruling.
  predicate AwaitsRuling(l: Ledger, s: nat) {
    exists i | 0 <= i < |l| :: IsLast(l, s, i) && l[i].failure.Some? && l[i].failure.value.parked
  }

  // The last attempt is known to the scheduler under a job id, and is not parked.
  predicate Queued(l: Ledger, s: nat) {
    exists i | 0 <= i < |l| :: IsLast(l, s, i) && l[i].sub.Submitted? && (l[i].failure.Some? ==> !l[i].failure.value.parked)
  }

  // What a step waits for has happened: a plain step is verified, a group has members and
  // all of them are verified, a chain's predecessor is queued.
  predicate Happened(specs: seq<Spec>, l: Ledger, dep: After) {
    match dep
    case Step(d) => Verified(l, d)
    case Group(g) =>
      && (exists m | 0 <= m < |specs| :: specs[m].group == Some(g))
      && (forall m | 0 <= m < |specs| && specs[m].group == Some(g) :: Verified(l, m))
    case Chain(p) => Queued(l, p)
  }

  predicate Awaited(specs: seq<Spec>, l: Ledger, s: nat)
    requires s < |specs|
  {
    forall k | 0 <= k < |specs[s].after| :: Happened(specs, l, specs[s].after[k])
  }

  // Chains of the pool that have a pending segment.
  function OpenRoots(specs: seq<Spec>, l: Ledger, pool: nat): set<nat> {
    set m | 0 <= m < |specs| && specs[m].pool == pool && specs[m].segment.Some? && Pending(l, m) :: specs[m].root
  }

  // A first segment under a cap, with as many chains of its pool open as the cap allows.
  predicate CapReached(specs: seq<Spec>, l: Ledger, s: nat)
    requires s < |specs|
  {
    match specs[s].concurrency
    case None => false
    case Some(cap) => cap > 0 && specs[s].segment == Some(1) && |OpenRoots(specs, l, specs[s].pool)| >= cap
  }

  predicate Launchable(specs: seq<Spec>, l: Ledger, s: nat)
    requires s < |specs|
  {
    (Untried(l, s) || AnotherDue(l, s)) && Awaited(specs, l, s) && !CapReached(specs, l, s)
  }

  lemma LastIsLatest(l: Ledger, s: nat)
    ensures forall i: nat :: IsLast(l, s, i) <==> Latest(l, s) == Some(i)
    ensures Untried(l, s) <==> Latest(l, s).None?
    ensures Verified(l, s) <==> Ok(l, s)
  {
    forall i: nat | IsLast(l, s, i) ensures Latest(l, s) == Some(i) {
      LatestIs(l, s, i);
    }
  }

  lemma PendingIsUnresolved(l: Ledger, s: nat)
    ensures Pending(l, s) <==> Unresolved(l, s)
    ensures AwaitsRuling(l, s) <==> Latest(l, s).Some? && Parked(l[Latest(l, s).value])
    ensures Queued(l, s) <==> JobOf(l, s).Some? && !Parked(l[Latest(l, s).value])
  {
    LastIsLatest(l, s);
    if Latest(l, s).Some? {
      assert IsLast(l, s, Latest(l, s).value);
    }
  }

  lemma HappenedIsMet(specs: seq<Spec>, l: Ledger, dep: After)
    ensures Happened(specs, l, dep) <==> Met(specs, l, dep)
  {
    match dep
    case Step(d) => LastIsLatest(l, d);
    case Group(g) =>
      forall m: nat ensures Verified(l, m) <==> Ok(l, m) {
        LastIsLatest(l, m);
      }
      assert forall m | 0 <= m < |specs| :: Member(specs, g, m) <==> specs[m].group == Some(g);
    case Chain(p) => PendingIsUnresolved(l, p);
  }

  lemma AwaitedIsMet(specs: seq<Spec>, l: Ledger, s: nat)
    requires s < |specs|
    ensures Awaited(specs, l, s) <==> forall dep <- specs[s].after :: Met(specs, l, dep)
  {
    forall dep ensures Happened(specs, l, dep) <==> Met(specs, l, dep) {
      HappenedIsMet(specs, l, dep);
    }
  }

  lemma CapWritten(specs: seq<Spec>, l: Ledger, s: nat)
    requires s < |specs|
    ensures CapReached(specs, l, s) <==>
              specs[s].concurrency.Some? && specs[s].concurrency.value > 0 && specs[s].segment == Some(1)
              && |ActiveRoots(specs, l, specs[s].pool)| >= specs[s].concurrency.value
  {
    forall m: nat ensures Pending(l, m) <==> Unresolved(l, m) {
      PendingIsUnresolved(l, m);
    }
    assert OpenRoots(specs, l, specs[s].pool) == ActiveRoots(specs, l, specs[s].pool);
  }

  // A step is ready exactly when it has no attempt or another one is due, what it waits for
  // has happened, and no cap is reached; so never when it is verified, pending or parked.
  lemma ReadyExactly(specs: seq<Spec>, l: Ledger, s: nat)
    requires s < |specs|
    ensures Ready(specs, l, s) <==> Launchable(specs, l, s)
    ensures Ready(specs, l, s) ==> !Verified(l, s) && !Pending(l, s) && !AwaitsRuling(l, s)
  {
    LastIsLatest(l, s);
    PendingIsUnresolved(l, s);
    AwaitedIsMet(specs, l, s);
    CapWritten(specs, l, s);
    if Latest(l, s).Some? {
      assert IsLast(l, s, Latest(l, s).value);
    }
  }

  // With the old records as they were, a step whose last attempt is not superseded has got
  // no other.
  lemma NoOtherAttempt(l: Ledger, l': Ledger, s: nat, i: nat)
    requires l <= l' && InOrder(l') && IsLast(l, s, i) && !Superseded(l[i])
    ensures IsLast(l', s, i)
  {
    assert l'[i] == l[i];
    LastIsLatest(l', s);
  }

  // Neither a cap nor a predecessor that is about to be attempted again can take back that
  // the step may be launched.
  predicate Settled(specs: seq<Spec>, l: Ledger, s: nat)
    requires s < |specs|
  {
    && (specs[s].concurrency.None? || specs[s].concurrency == Some(0) || specs[s].segment != Some(1))
    && forall k | 0 <= k < |specs[s].after| :: specs[s].after[k].Chain? ==> !AnotherDue(l, specs[s].after[k].prev)
  }

  lemma HappenedStays(specs: seq<Spec>, l: Ledger, l': Ledger, dep: After)
    requires l <= l' && Later(l, l') && InOrder(l') && Happened(specs, l, dep) && (dep.Chain? ==> !AnotherDue(l, dep.prev))
    requires forall r <- l :: Done(r) ==> r.failure.None?
    ensures Happened(specs, l', dep)
  {
    match dep
    case Step(d) => VerifiedStays(l, l', d);
    case Group(g) =>
      forall m | 0 <= m < |specs| && specs[m].group == Some(g) ensures Verified(l', m) {
        VerifiedStays(l, l', m);
      }
    case Chain(p) =>
      var i :| 0 <= i < |l| && IsLast(l, p, i) && l[i].sub.Submitted? && (l[i].failure.Some? ==> !l[i].failure.value.parked);
      assert l[i] in l && !Superseded(l[i]);
      NoOtherAttempt(l, l', p, i);
      assert IsLast(l', p, i) && l'[i] == l[i];
  }

  lemma VerifiedStays(l: Ledger, l': Ledger, s: nat)
    requires Later(l, l') && Verified(l, s)
    ensures Verified(l', s)
  {
    LastIsLatest(l, s);
    OkStays(l, l', s);
    LastIsLatest(l', s);
  }

  lemma StaysLaunchable(specs: seq<Spec>, l: Ledger, l': Ledger, s: nat)
    requires s < |specs| && l <= l' && Later(l, l') && InOrder(l') && Launchable(specs, l, s) && Settled(specs, l, s)
    requires forall r <- l :: Done(r) ==> r.failure.None?
    requires forall i | |l| <= i < |l'| :: l'[i].step != s
    ensures Launchable(specs, l', s)
  {
    forall k | 0 <= k < |specs[s].after| ensures Happened(specs, l', specs[s].after[k]) {
      HappenedStays(specs, l, l', specs[s].after[k]);
    }
    if AnotherDue(l, s) {
      var i :| 0 <= i < |l| && IsLast(l, s, i) && l[i].verdict != Some(true) && l[i].failure.Some?
               && !l[i].failure.value.parked && (l[i].failure.value.retried || l[i].failure.value.released);
      assert IsLast(l', s, i) && l'[i] == l[i];
    } else {
      assert forall i | 0 <= i < |l| :: l'[i] == l[i];
    }
  }

  // ------------------------------------------------------- where an undecided attempt stands

  // Every undecided attempt waits for somebody: its submission is unknown, its job is with
  // the scheduler, it has ended and is to be verified, or it is a local run.
  lemma UndecidedStands(specs: seq<Spec>, r: Rec)
    requires RecOk(specs, r) && r.failure.None? && r.verdict.None?
    ensures UnknownOutcome(r) <==> r.sub.Intent? || r.sub.Unverified?
    ensures InFlight(r) <==> r.sub.Submitted? && (r.seen.PREEMPTED? || r.seen.Other? || r.seen.Missing?)
    ensures Unfinalized(r) <==> !(r.seen.PREEMPTED? || r.seen.Other? || r.seen.Missing?)
    ensures UnknownOutcome(r) || InFlight(r) || Unfinalized(r) || r.sub.Local? || r.sub.Rejected?
  {
  }
}
