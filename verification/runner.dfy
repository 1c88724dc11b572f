// One worker's runner over its attempt ledger: reconcile, observe, verify, launch, decide.
// `budget` counts the ledger writes the process still gets to make; where it runs out the
// process dies, and the ledger is what the next tick starts from.
module Runner {
  import opened Prelude
  import opened Classify
  import opened AttemptLedger

  datatype Outcome = Finished | Refused | Crashed

  datatype SbatchAnswer = NoAnswer | Rejects | Queues(job: nat)

  datatype Accounting = QueryFailed | NoRow | OneRow(job: nat) | SeveralRows

  datatype Decision = AwaitJobs | AwaitSubmission(attempt: nat) | AwaitRuling(attempt: nat) | SUBMITTED | NoProgress

  // ------------------------------------------------------------ retry budget left

  function Left(spec: Spec, l: Ledger, s: nat, c: Class): nat {
    if Count(l, s, Failed(c)) < MaxAuto(spec, c) then MaxAuto(spec, c) - Count(l, s, Failed(c)) else 0
  }

  function Remaining(spec: Spec, l: Ledger, s: nat): nat {
    Left(spec, l, s, Code) + Left(spec, l, s, Science) + Left(spec, l, s, Budget) + Left(spec, l, s, Infra) + Left(spec, l, s, Unknown)
  }

  lemma SameRemaining(spec: Spec, l: Ledger, l': Ledger, s: nat)
    requires forall c :: Count(l', s, Failed(c)) == Count(l, s, Failed(c))
    ensures Remaining(spec, l', s) == Remaining(spec, l, s)
  {
  }

  lemma SpentRemaining(spec: Spec, l: Ledger, i: nat, r: Rec)
    requires i < |l| && l[i].failure.None? && r.failure.Some? && r.step == l[i].step
    requires Count(l, r.step, Failed(r.failure.value.cls)) < MaxAuto(spec, r.failure.value.cls)
    ensures Remaining(spec, l[i := r], r.step) < Remaining(spec, l, r.step)
  {
    forall c ensures Count(l[i := r], r.step, Failed(c)) == Count(l, r.step, Failed(c)) + if c == r.failure.value.cls then 1 else 0 {
      CountUpdate(l, i, r, r.step, Failed(c));
    }
  }

  lemma NoNewFailure(spec: Spec, l: Ledger, i: nat, r: Rec)
    requires i < |l| && l[i].failure.None? && r.failure.None? && r.step == l[i].step
    ensures Remaining(spec, l[i := r], r.step) == Remaining(spec, l, r.step)
  {
    forall c ensures Count(l[i := r], r.step, Failed(c)) == Count(l, r.step, Failed(c)) {
      CountUpdate(l, i, r, r.step, Failed(c));
    }
    SameRemaining(spec, l, l[i := r], r.step);
  }

  lemma NewAttemptIsFree(spec: Spec, l: Ledger, r: Rec)
    requires r.failure.None?
    ensures Remaining(spec, l + [r], r.step) == Remaining(spec, l, r.step)
  {
    forall c ensures Count(l + [r], r.step, Failed(c)) == Count(l, r.step, Failed(c)) {
      CountAppend(l, r, r.step, Failed(c));
    }
    SameRemaining(spec, l, l + [r], r.step);
  }

  // Of the attempts there were, at most attempt i was written; new ones are of step s.
  predicate Wrote(l: Ledger, l': Ledger, s: nat, i: nat) {
    && |l| <= |l'|
    && (forall k | 0 <= k < |l| && k != i :: l'[k] == l[k])
    && (forall k | |l| <= k < |l'| :: l'[k].step == s)
  }

  lemma OthersUndecided(l: Ledger, l': Ledger, i: nat, k: nat)
    requires i < |l| && Wrote(l, l', l[i].step, i) && Later(l, l') && Undecided(l, k) && l[k].step != l[i].step
    ensures Undecided(l', k) && l'[k] == l[k]
  {
    assert forall j | k < j < |l'| && j < |l| :: l'[j].step == l[j].step;
    LatestIs(l', l[k].step, k);
  }

  function Range(n: nat): (r: set<nat>)
    ensures forall k: nat :: k in r <==> k < n
  {
    if n == 0 then {} else Range(n - 1) + {n - 1}
  }

  lemma ReplacedLast(l: Ledger, r: Rec, r': Rec)
    ensures (l + [r])[|l|] == r && (l + [r])[|l| := r'] == l + [r']
  {
  }

  lemma WrittenTwice(l: Ledger, i: nat, r: Rec, r': Rec)
    requires i < |l|
    ensures l[i := r][i := r'] == l[i := r']
  {
  }

  lemma LastStays(l: Ledger, i: nat, r: Rec)
    requires i < |l| && Latest(l, l[i].step) == Some(i) && r.step == l[i].step
    ensures Wrote(l, l[i := r], r.step, i) && Latest(l[i := r], r.step) == Some(i)
  {
    LatestIs(l[i := r], r.step, i);
  }

  lemma LastWrote(l: Ledger, r: Rec)
    ensures Wrote(l, l + [r], r.step, |l|)
  {
  }

  function NoReleases(n: nat): (m: map<nat, nat>)
    ensures forall s: nat :: (s in m <==> s < n) && (s in m ==> m[s] == 0)
  {
    if n == 0 then map[] else NoReleases(n - 1)[n - 1 := 0]
  }

  // There are no more attempts in one tick than steps.
  lemma {:induction false} StepsBound(n: nat, attempted: set<nat>)
    requires forall s <- attempted :: s < n
    ensures |attempted| <= n
  {
    if n > 0 {
      StepsBound(n - 1, attempted - {n - 1});
    } else {
      assert attempted == {};
    }
  }

  // The step has an attempt it did not have before.
  predicate NewAttempt(l: Ledger, l': Ledger, s: nat) {
    exists k :: |l| <= k < |l'| && l'[k].step == s
  }

  predicate AllAttempted(l: Ledger, l': Ledger, steps: set<nat>) {
    forall s <- steps :: NewAttempt(l, l', s)
  }

  lemma OneMoreAttempted(a: Ledger, b: Ledger, c: Ledger, steps: set<nat>, s: nat)
    requires |a| <= |b| && Later(b, c) && AllAttempted(a, b, steps) && NewAttempt(b, c, s)
    ensures AllAttempted(a, c, steps + {s})
  {
    forall x <- steps ensures NewAttempt(a, c, x) {
      var k :| |a| <= k < |b| && b[k].step == x;
      assert c[k].step == x;
    }
  }

  // The steps attempted again, with what the write of attempt i has added.
  lemma Relaunched(a: Ledger, b: Ledger, c: Ledger, steps: set<nat>, s: nat, i: nat, launched: bool)
    requires |a| <= |b| && Later(b, c) && AllAttempted(a, b, steps) && Wrote(b, c, s, i) && (launched ==> |b| < |c|)
    ensures AllAttempted(a, c, if launched then steps + {s} else steps)
  {
    if launched {
      assert c[|b|].step == s;
      OneMoreAttempted(a, b, c, steps, s);
    } else {
      forall x <- steps ensures NewAttempt(a, c, x) {
        var k :| |a| <= k < |b| && b[k].step == x;
        assert c[k].step == x;
      }
    }
  }

  lemma StillAttempted(a: Ledger, b: Ledger, c: Ledger, steps: set<nat>)
    requires |a| <= |b| && Later(b, c) && AllAttempted(a, b, steps)
    ensures AllAttempted(a, c, steps)
  {
    forall x <- steps ensures NewAttempt(a, c, x) {
      var k :| |a| <= k < |b| && b[k].step == x;
      assert c[k].step == x;
    }
  }

  lemma EarlierAttempted(a: Ledger, b: Ledger, c: Ledger, steps: set<nat>)
    requires |a| <= |b| && AllAttempted(b, c, steps)
    ensures AllAttempted(a, c, steps)
  {
    forall x <- steps ensures NewAttempt(a, c, x) {
      assert NewAttempt(b, c, x);
    }
  }

  // The class of a failure: a node or boot failure is the infrastructure's, a wall-time limit
  // the budget's; any other end but a clean one, a missing output and an output that is not
  // a product of this run are the code's; only a usable result that is wrong is science.
  predicate Warranted(state: JobState, found: Verdict, present: bool, c: Class) {
    match c
    case Infra => state in {NODE_FAIL, BOOT_FAIL}
    case Budget => state == TIMEOUT
    case Code => state in {FAILED, OUT_OF_MEMORY, CANCELLED, DEADLINE} || (state == COMPLETED && !found.ok && (!present || found.unusable))
    case Science => state == COMPLETED && !found.ok && present && !found.unusable
    case Unknown => false
  }

  // An ended attempt as it is recorded: with its state and, after a clean end, the verdict;
  // verified, or else failed in a warranted class and then retried or parked.
  predicate Judged(was: Rec, now: Rec, state: JobState, found: Verdict, present: bool) {
    && now.step == was.step && now.sub == was.sub && now.seen == state
    && now.verdict == (if state == COMPLETED then Some(found.ok) else None)
    && (now.failure.None? <==> state == COMPLETED && found.ok)
    && (now.failure.Some? ==>
          && Warranted(state, found, present, now.failure.value.cls)
          && now.failure.value.parked == !now.failure.value.retried && !now.failure.value.released)
  }

  // What a tick's observation makes of an attempt: one that had ended is judged, one in
  // flight has the state the scheduler answers, and is judged if that is terminal; any other
  // is left alone.
  predicate Attended(was: Rec, now: Rec, answer: nat -> JobState, found: Verdict, present: bool) {
    if was.seen in TERMINAL_STATES && was.verdict.None? && was.failure.None? then Judged(was, now, was.seen, found, present)
    else if was.sub.Submitted? && was.seen !in TERMINAL_STATES then
      if answer(was.sub.job) in TERMINAL_STATES then Judged(was, now, answer(was.sub.job), found, present)
      else now == was.(seen := answer(was.sub.job))
    else now == was
  }

  // One more failure of this class may be retried: as often as the table says for the step,
  // and otherwise once for the infrastructure's failures and never for any other.
  predicate RetryDue(spec: Spec, l: Ledger, s: nat, c: Class) {
    |FailuresOf(l, s, c)| < if c in spec.retry then spec.retry[c] else if c == Infra then 1 else 0
  }

  // How far the judging of a snapshot's leftovers has got: those before i are judged, the
  // others wait, and nothing else has changed.
  ghost predicate Swept(l: Ledger, snapshot: Ledger, i: nat, finds: nat -> Verdict, produced: nat -> bool) {
    && i <= |snapshot| <= |l|
    && (forall k | 0 <= k < |snapshot| ::
          if k < i && Unfinalized(snapshot[k]) then Judged(snapshot[k], l[k], snapshot[k].seen, finds(k), produced(k)) else l[k] == snapshot[k])
    && (forall k | i <= k < |snapshot| && Unfinalized(snapshot[k]) :: Undecided(l, k))
  }

  lemma SweptNext(l: Ledger, l': Ledger, snapshot: Ledger, i: nat, finds: nat -> Verdict, produced: nat -> bool)
    requires Swept(l, snapshot, i, finds, produced) && i < |snapshot|
    requires if Unfinalized(snapshot[i]) then Later(l, l') && Wrote(l, l', l[i].step, i) && Judged(l[i], l'[i], l[i].seen, finds(i), produced(i))
             else l' == l
    ensures Swept(l', snapshot, i + 1, finds, produced)
  {
    if Unfinalized(snapshot[i]) {
      forall k | i + 1 <= k < |snapshot| && Unfinalized(snapshot[k]) ensures Undecided(l', k) {
        assert Undecided(l, i) && Undecided(l, k);
        OthersUndecided(l, l', i, k);
      }
    }
  }

  // The same for the jobs in flight and what the scheduler answers about them.
  ghost predicate AllHeard(l: Ledger, snapshot: Ledger, i: nat, answer: nat -> JobState, finds: nat -> Verdict, produced: nat -> bool) {
    && i <= |snapshot| <= |l|
    && (forall k | 0 <= k < |snapshot| ::
          if k < i && InFlight(snapshot[k]) then Attended(snapshot[k], l[k], answer, finds(k), produced(k)) else l[k] == snapshot[k])
    && (forall k | i <= k < |snapshot| && InFlight(snapshot[k]) :: Undecided(l, k))
  }

  lemma HeardNext(l: Ledger, l': Ledger, snapshot: Ledger, i: nat, answer: nat -> JobState, finds: nat -> Verdict, produced: nat -> bool)
    requires AllHeard(l, snapshot, i, answer, finds, produced) && i < |snapshot|
    requires if InFlight(snapshot[i]) then Later(l, l') && Wrote(l, l', l[i].step, i) && Attended(l[i], l'[i], answer, finds(i), produced(i))
             else l' == l
    ensures AllHeard(l', snapshot, i + 1, answer, finds, produced)
  {
    if InFlight(snapshot[i]) {
      forall k | i + 1 <= k < |snapshot| && InFlight(snapshot[k]) ensures Undecided(l', k) {
        assert Undecided(l, i) && Undecided(l, k);
        OthersUndecided(l, l', i, k);
      }
    }
  }

  // Leftovers first, then the jobs in flight: every attempt has been attended to.
  lemma BothAttend(was: Ledger, mid: Ledger, now: Ledger, answer: nat -> JobState, finds: nat -> Verdict, produced: nat -> bool)
    requires Swept(mid, was, |was|, finds, produced) && AllHeard(now, mid, |mid|, answer, finds, produced)
    ensures |was| <= |now| && forall k | 0 <= k < |was| :: Attended(was[k], now[k], answer, finds(k), produced(k))
  {
    forall k | 0 <= k < |was| ensures Attended(was[k], now[k], answer, finds(k), produced(k)) {
      if Unfinalized(was[k]) {
        assert Judged(was[k], mid[k], was[k].seen, finds(k), produced(k));
        assert now[k] == mid[k];
      }
    }
  }

  // An unknown submission once accounting has answered: exactly one row settles it, anything
  // else leaves it unverified.
  function Resolved(r: Rec, rows: Accounting, wasCalled: bool): Rec {
    match rows
    case OneRow(job) => r.(sub := if wasCalled then Submitted(job) else Unverified)
    case _ => r.(sub := Unverified)
  }

  // The unknown submissions before n have been looked up, and nothing else has changed.
  predicate LookedUp(l: Ledger, l': Ledger, rows: nat -> Accounting, called: set<nat>, n: nat) {
    |l'| == |l| &&
    forall k | 0 <= k < |l| :: l'[k] == if k < n && UnknownOutcome(l[k]) then Resolved(l[k], rows(k), k in called) else l[k]
  }

  lemma LookedUpNext(l: Ledger, l': Ledger, rows: nat -> Accounting, called: set<nat>, n: nat)
    requires LookedUp(l, l', rows, called, n) && n < |l|
    ensures l'[n] == l[n]
    ensures LookedUp(l, if UnknownOutcome(l[n]) then l'[n := Resolved(l[n], rows(n), n in called)] else l', rows, called, n + 1)
  {
  }

  // A failed attempt's record after the ruling that lifts its park.
  function Freed(r: Rec): Rec {
    match r.failure
    case None => r
    case Some(f) => Rec(r.step, r.sub, r.seen, r.verdict, Some(Failure(f.cls, f.retried, false, true)))
  }

  lemma FreedIsDue(l: Ledger, s: nat, i: nat)
    requires Latest(l, s) == Some(i) && Parked(l[i]) && !Done(l[i])
    ensures Lifted(l[i]) == Freed(l[i]) && (forall j: nat :: IsLast(l, s, j) <==> j == i)
    ensures AnotherDue(l[i := Lifted(l[i])], s)
  {
    LastIsLatest(l, s);
    assert IsLast(l[i := Lifted(l[i])], s, i);
  }

  // An attempt's record once sbatch has answered.
  function Answered(r: Rec, answer: SbatchAnswer): Rec {
    match answer
    case Queues(job) => r.(sub := Submitted(job))
    case Rejects => r.(sub := Rejected, failure := Some(Failure(Code, false, true, false)))
    case NoAnswer => r.(sub := Intent)
  }

  class Runner {
    const specs: seq<Spec>
    // what happens to attempt i outside: sbatch's answer, whether a local process exits with
    // zero, what the verifier finds and whether every declared output is there
    const sbatchSays: nat -> SbatchAnswer
    const exitsClean: nat -> bool
    const finds: nat -> Verdict
    const produced: nat -> bool
    var ledger: Ledger
    var budget: nat
    // the scheduler's own books: attempts sbatch was called for
    var called: set<nat>
    ghost var releases: map<nat, nat>

    ghost predicate Valid()
      reads this
    {
      Sound(specs, ledger, called, releases)
    }

    constructor (specs: seq<Spec>, sbatchSays: nat -> SbatchAnswer, exitsClean: nat -> bool, finds: nat -> Verdict, produced: nat -> bool)
      ensures Valid() && ledger == [] && this.specs == specs
    {
      this.specs, this.sbatchSays, this.exitsClean, this.finds, this.produced := specs, sbatchSays, exitsClean, finds, produced;
      ledger, called := [], {};
      releases := NoReleases(|specs|);
    }

    method Alive() returns (up: bool)
      modifies this`budget
      ensures up == (old(budget) > 0) && budget == if up then old(budget) - 1 else 0
    {
      up := budget > 0;
      if up { budget := budget - 1; }
    }

    // ------------------------------------------------------------------- ledger

    method SaveNew(s: nat) returns (up: bool)
      requires Valid() && s < |specs| && MayStart(ledger, s) && Dependencies(specs, ledger, s)
      modifies this`ledger, this`budget
      ensures Valid() && Later(old(ledger), ledger) && Wrote(old(ledger), ledger, s, |old(ledger)|)
      ensures up ==> ledger == old(ledger) + [NewRec(specs, s)] && Undecided(ledger, |ledger| - 1) && |ledger| - 1 !in called
      ensures up ==> Remaining(specs[s], ledger, s) == Remaining(specs[s], old(ledger), s)
      ensures !up ==> budget == 0 && ledger == old(ledger)
      ensures budget + 1 >= old(budget)
    {
      up := Alive();
      if up {
        AppendKeeps(specs, ledger, called, releases, s);
        NewAttemptIsFree(specs[s], ledger, NewRec(specs, s));
        ledger := ledger + [NewRec(specs, s)];
      }
    }

    method Save(i: nat, r: Rec) returns (up: bool)
      requires Valid() && MayBecome(specs, ledger, called, i, r)
      modifies this`ledger, this`budget
      ensures Valid() && Later(old(ledger), ledger) && Wrote(old(ledger), ledger, r.step, i)
      ensures up ==> ledger == old(ledger)[i := r] && Latest(ledger, r.step) == Some(i)
      ensures up && r.failure.None? ==> Remaining(specs[r.step], ledger, r.step) == Remaining(specs[r.step], old(ledger), r.step)
      ensures !up ==> budget == 0 && ledger == old(ledger)
      ensures budget + 1 >= old(budget)
    {
      up := Alive();
      if up {
        SetKeeps(specs, ledger, called, releases, i, r);
        SetLater(ledger, i, r);
        if r.failure.None? {
          NoNewFailure(specs[r.step], ledger, i, r);
        }
        ledger := ledger[i := r];
      }
    }

    // Lift a parked failure after a ruling.
    method Release(s: nat) returns (r: Outcome)
      requires Valid() && s < |specs|
      modifies this`ledger, this`budget, this`releases
      ensures Valid() && Later(old(ledger), ledger)
      ensures r == Finished ==> AnotherDue(ledger, s) && releases == old(releases)[s := old(releases)[s] + 1]
      ensures r == Finished ==> forall i: nat | IsLast(old(ledger), s, i) :: ledger == old(ledger)[i := Freed(old(ledger)[i])]
      ensures r != Finished ==> ledger == old(ledger) && releases == old(releases)
      ensures r == Refused <==> !old(AwaitsRuling(ledger, s))
      ensures r == Crashed ==> budget == 0
      ensures budget + 1 >= old(budget)
    {
      var parked := IsParked(s);
      r := Refused;
      if parked {
        r := LiftParked(s);
      }
    }

    method LiftParked(s: nat) returns (r: Outcome)
      requires Valid() && s < |specs| && AwaitsRuling(ledger, s)
      modifies this`ledger, this`budget, this`releases
      ensures Valid() && Later(old(ledger), ledger) && r != Refused
      ensures r == Finished ==> AnotherDue(ledger, s) && releases == old(releases)[s := old(releases)[s] + 1]
      ensures r == Finished ==> forall i: nat | IsLast(old(ledger), s, i) :: ledger == old(ledger)[i := Freed(old(ledger)[i])]
      ensures r == Crashed ==> budget == 0 && ledger == old(ledger) && releases == old(releases)
      ensures budget + 1 >= old(budget)
    {
      var up := Alive();
      if !up {
        return Crashed;
      }
      Lift(s);
      r := Finished;
    }

    method IsParked(s: nat) returns (parked: bool)
      ensures parked <==> AwaitsRuling(ledger, s)
    {
      PendingIsUnresolved(ledger, s);
      parked := Latest(ledger, s).Some? && Parked(ledger[Latest(ledger, s).value]);
    }

    method Lift(s: nat)
      requires Valid() && s < |specs| && AwaitsRuling(ledger, s)
      modifies this`ledger, this`releases
      ensures Valid() && Later(old(ledger), ledger) && AnotherDue(ledger, s) && releases == old(releases)[s := old(releases)[s] + 1]
      ensures forall i: nat | IsLast(old(ledger), s, i) :: ledger == old(ledger)[i := Freed(old(ledger)[i])]
    {
      PendingIsUnresolved(ledger, s);
      ReleaseKeeps(specs, ledger, called, releases, s);
      var i := Latest(ledger, s).value;
      assert ledger[i] in ledger;
      FreedIsDue(ledger, s, i);
      ledger, releases := ledger[i := Lifted(ledger[i])], releases[s := releases[s] + 1];
    }

    // ------------------------------------------------------------------- submit

    // The one call of sbatch for an attempt, which its recorded intent must precede.
    method Sbatch(i: nat) returns (answer: SbatchAnswer)
      requires Valid() && i < |ledger| && ledger[i].sub == Intent && i !in called
      modifies this`called
      ensures Valid() && called == old(called) + {i} && answer == sbatchSays(i)
    {
      called := called + {i};
      answer := sbatchSays(i);
    }

    // Intent first, then sbatch once; whatever is not a clear answer stays an intent.
    method Submit(s: nat) returns (r: Outcome, launched: bool)
      requires Valid() && s < |specs| && specs[s].sbatch && MayStart(ledger, s) && Dependencies(specs, ledger, s)
      modifies this`ledger, this`budget, this`called
      ensures Valid() && Later(old(ledger), ledger) && Wrote(old(ledger), ledger, s, |old(ledger)|)
      ensures called - old(called) <= {|old(ledger)|} && old(called) <= called
      ensures r == Crashed ==> budget == 0
      ensures r != Refused
      ensures launched <==> r == Finished && sbatchSays(|old(ledger)|).Queues?
      ensures r == Finished ==> |ledger| == |old(ledger)| + 1 && |old(ledger)| in called
      ensures r == Finished ==>
                match sbatchSays(|old(ledger)|)
                case Queues(job) => ledger == old(ledger) + [Rec(s, Submitted(job), Missing, None, None)]
                case Rejects => ledger == old(ledger) + [Rec(s, Rejected, Missing, None, Some(Failure(Code, false, true, false)))]
                case NoAnswer => ledger == old(ledger) + [Rec(s, Intent, Missing, None, None)]
      ensures budget + 3 >= old(budget)
    {
      launched := false;
      var i := |ledger|;
      var up := SaveNew(s);
      if !up {
        return Crashed, false;
      }
      ghost var was, rec := ledger[..i], NewRec(specs, s);
      assert ledger == was + [rec] && was == old(ledger);
      var answer := Sbatch(i);
      up := RecordAnswer(i, answer);
      LaterTrans(was, was + [rec], ledger);
      ReplacedLast(was, rec, Answered(rec, answer));
      LastWrote(was, rec);
      LastWrote(was, Answered(rec, answer));
      r, launched := if up then Finished else Crashed, up && answer.Queues?;
    }

    method RecordAnswer(i: nat, answer: SbatchAnswer) returns (up: bool)
      requires Valid() && Undecided(ledger, i) && ledger[i].sub == Intent && i in called && ledger[i].seen == Missing
      modifies this`ledger, this`budget
      ensures Valid() && Later(old(ledger), ledger) && |ledger| == |old(ledger)| && Wrote(old(ledger), ledger, old(ledger[i].step), i)
      ensures Latest(ledger, ledger[i].step) == Some(i) && ledger[i].step == old(ledger[i].step)
      ensures up ==> ledger == old(ledger)[i := Answered(old(ledger)[i], answer)]
      ensures !up ==> budget == 0
      ensures budget + 2 >= old(budget)
    {
      assert ledger[i] in ledger;
      if answer.Rejects? {
        up := Refuse(i);
      } else {
        up := Save(i, ledger[i].(sub := if answer.Queues? then Submitted(answer.job) else Intent));
      }
    }

    // sbatch itself refused: recorded as such, then parked.
    method Refuse(i: nat) returns (up: bool)
      requires Valid() && Undecided(ledger, i) && ledger[i].sub == Intent && i in called && ledger[i].seen == Missing
      modifies this`ledger, this`budget
      ensures Valid() && Later(old(ledger), ledger) && |ledger| == |old(ledger)| && Wrote(old(ledger), ledger, old(ledger[i].step), i)
      ensures Latest(ledger, ledger[i].step) == Some(i) && ledger[i].step == old(ledger[i].step)
      ensures if up then ledger == old(ledger)[i := Answered(old(ledger)[i], Rejects)] else budget == 0
      ensures budget + 2 >= old(budget)
    {
      ghost var was := ledger;
      up := Reject(i);
      LastStays(was, i, was[i].(sub := Rejected));
      if up {
        ghost var rejected := ledger;
        up := ParkRejected(i);
        LaterTrans(was, rejected, ledger);
        WrittenTwice(was, i, was[i].(sub := Rejected), Answered(was[i], Rejects));
        LastStays(was, i, Answered(was[i], Rejects));
      }
    }

    method Reject(i: nat) returns (up: bool)
      requires Valid() && Undecided(ledger, i) && ledger[i].sub == Intent && i in called && ledger[i].seen == Missing
      modifies this`ledger, this`budget
      ensures Valid() && Later(old(ledger), ledger)
      ensures if up then ledger == old(ledger)[i := old(ledger)[i].(sub := Rejected)] && Undecided(ledger, i)
              else budget == 0 && ledger == old(ledger)
      ensures budget + 1 >= old(budget)
    {
      assert ledger[i] in ledger;
      up := Save(i, ledger[i].(sub := Rejected));
    }

    method ParkRejected(i: nat) returns (up: bool)
      requires Valid() && Undecided(ledger, i) && ledger[i].sub == Rejected && i in called
      modifies this`ledger, this`budget
      ensures Valid() && Later(old(ledger), ledger) && |ledger| == |old(ledger)|
      ensures Latest(ledger, ledger[i].step) == Some(i)
      ensures if up then ledger == old(ledger)[i := old(ledger)[i].(failure := Some(Failure(Code, false, true, false)))]
              else budget == 0 && ledger == old(ledger)
      ensures budget + 1 >= old(budget)
    {
      assert ledger[i] in ledger;
      up := Save(i, ledger[i].(failure := Some(Failure(Code, false, true, false))));
    }

    // Look an unknown submission up in accounting, which answers `rows`; a row that carries
    // the attempt's id exists only if sbatch was called. Nothing here submits anything.
    method Reconcile(i: nat, rows: Accounting) returns (r: Outcome)
      requires Valid() && i < |ledger| && UnknownOutcome(ledger[i])
      modifies this`ledger, this`budget
      ensures Valid() && Later(old(ledger), ledger) && Wrote(old(ledger), ledger, old(ledger[i].step), i) && |ledger| == |old(ledger)|
      ensures r == Finished ==> ledger == old(ledger)[i := Resolved(old(ledger)[i], rows, i in called)]
      ensures r != Refused && (r == Crashed ==> budget == 0)
      ensures budget + 1 >= old(budget)
    {
      assert ledger[i] in ledger;
      var sub := if rows.OneRow? && i in called then Submitted(rows.job) else Unverified;
      var up := Save(i, ledger[i].(sub := sub));
      r := if up then Finished else Crashed;
    }

    method ReconcileAll(rows: nat -> Accounting) returns (r: Outcome)
      requires Valid()
      modifies this`ledger, this`budget
      ensures Valid() && Later(old(ledger), ledger) && |ledger| == |old(ledger)|
      ensures r == Finished ==> LookedUp(old(ledger), ledger, rows, called, |ledger|)
      ensures r != Refused && (r == Crashed ==> budget == 0)
      ensures budget + |ledger| >= old(budget)
    {
      r := Finished;
      for i := 0 to |ledger|
        invariant Valid() && Later(old(ledger), ledger) && |ledger| == |old(ledger)| && r == Finished
        invariant LookedUp(old(ledger), ledger, rows, called, i)
        invariant budget + i >= old(budget)
      {
        LookedUpNext(old(ledger), ledger, rows, called, i);
        if UnknownOutcome(ledger[i]) {
          ghost var before := ledger;
          r := Reconcile(i, rows(i));
          LaterTrans(old(ledger), before, ledger);
          if r != Finished {
            return;
          }
        }
      }
    }

    // ------------------------------------------------------------------- verify

    // What the verifier finds; it passes only if every declared output is there.
    method Verify(i: nat) returns (v: Verdict, present: bool)
      ensures v == finds(i) && present == (produced(i) || finds(i).ok)
    {
      v := finds(i);
      present := produced(i) || v.ok;
    }

    // Record what became of an ended attempt: verified, retried at once, or parked.
    method Finalize(i: nat, state: JobState) returns (r: Outcome, launched: bool)
      requires Valid() && Undecided(ledger, i) && state in TERMINAL_STATES
      requires ledger[i].sub.Submitted? || ledger[i].sub.Local?
      modifies this`ledger, this`budget, this`called
      ensures Valid() && Later(old(ledger), ledger) && Wrote(old(ledger), ledger, old(ledger[i].step), i)
      ensures r == Finished ==> Judged(old(ledger)[i], ledger[i], state, finds(i), produced(i))
      ensures r == Finished && ledger[i].failure.Some? ==>
                (ledger[i].failure.value.retried <==> RetryDue(specs[ledger[i].step], old(ledger), ledger[i].step, ledger[i].failure.value.cls))
      ensures r == Finished ==> (|ledger| > |old(ledger)| <==> ledger[i].failure.Some? && ledger[i].failure.value.retried)
      ensures launched ==> r == Finished && |old(ledger)| < |ledger|
      ensures r != Refused && (r == Crashed ==> budget == 0)
      decreases Remaining(specs[ledger[i].step], ledger, ledger[i].step), 1
    {
      assert ledger[i] in ledger;
      var cls, verdict := JudgeEnd(i, state);
      if cls.None? {
        r := Pass(i);
        launched := false;
      } else {
        r, launched := Fail(i, ledger[i].(seen := state, verdict := verdict), cls.value);
      }
    }

    // Verification happens only after a clean end; its outcome decides the class.
    method JudgeEnd(i: nat, state: JobState) returns (cls: Option<Class>, verdict: Option<bool>)
      requires state in TERMINAL_STATES
      ensures cls.None? <==> state == COMPLETED && finds(i).ok
      ensures cls.Some? ==> Warranted(state, finds(i), produced(i), cls.value)
      ensures verdict == if state == COMPLETED then Some(finds(i).ok) else None
    {
      if state != COMPLETED {
        return FailureClass(state, None, true, false), None;
      }
      var v, present := Verify(i);
      cls, verdict := FailureClass(state, Some(v), present, false), Some(v.ok);
    }

    method Pass(i: nat) returns (r: Outcome)
      requires Valid() && Undecided(ledger, i) && (ledger[i].sub.Submitted? || ledger[i].sub.Local?)
      modifies this`ledger, this`budget
      ensures Valid() && Later(old(ledger), ledger) && Wrote(old(ledger), ledger, old(ledger[i].step), i) && |ledger| == |old(ledger)|
      ensures if r == Finished then ledger == old(ledger)[i := old(ledger)[i].(seen := COMPLETED, verdict := Some(true))]
              else r == Crashed && budget == 0
      ensures budget + 1 >= old(budget)
    {
      assert ledger[i] in ledger;
      var up := Save(i, ledger[i].(seen := COMPLETED, verdict := Some(true)));
      r := if up then Finished else Crashed;
    }

    // Retry within the budget of the class, else park.
    method Fail(i: nat, rec: Rec, cls: Class) returns (r: Outcome, launched: bool)
      requires Valid() && Undecided(ledger, i) && rec.seen in TERMINAL_STATES && !Done(rec)
      requires rec == ledger[i].(seen := rec.seen, verdict := rec.verdict) && (rec.sub.Submitted? || rec.sub.Local?)
      modifies this`ledger, this`budget, this`called
      ensures Valid() && Later(old(ledger), ledger) && Wrote(old(ledger), ledger, rec.step, i)
      ensures r == Finished ==>
                var again := RetryDue(specs[rec.step], old(ledger), rec.step, cls);
                && ledger[i] == rec.(failure := Some(Failure(cls, again, !again, false)))
                && (|ledger| > |old(ledger)| <==> again)
      ensures launched ==> r == Finished && |old(ledger)| < |ledger|
      ensures r != Refused && (r == Crashed ==> budget == 0)
      decreases Remaining(specs[ledger[i].step], ledger, ledger[i].step), 0
    {
      assert ledger[i] in ledger;
      var used, max := Count(ledger, rec.step, Failed(cls)), MaxAuto(specs[rec.step], cls);
      CountsFailures(ledger, rec.step, cls);
      var failed := rec.(failure := Some(Failure(cls, used < max, used >= max, false)));
      ghost var before := ledger;
      var up := Save(i, failed);
      if !up {
        return Crashed, false;
      }
      assert ledger[i] in ledger;
      if used < max {
        SpentRemaining(specs[rec.step], before, i, failed);
        ghost var saved := ledger;
        r, launched := Launch(rec.step);
        LaterTrans(before, saved, ledger);
      } else {
        r, launched := Finished, false;
      }
    }

    // A new attempt of a step that may have one.
    method Launch(s: nat) returns (r: Outcome, launched: bool)
      requires Valid() && s < |specs| && MayStart(ledger, s) && Dependencies(specs, ledger, s)
      modifies this`ledger, this`budget, this`called
      ensures Valid() && Later(old(ledger), ledger) && Wrote(old(ledger), ledger, s, |old(ledger)|)
      ensures r == Finished ==> |ledger| > |old(ledger)|
      ensures launched ==> r == Finished
      ensures r != Refused && (r == Crashed ==> budget == 0)
      decreases Remaining(specs[s], ledger, s), 3
    {
      if specs[s].sbatch {
        r, launched := Submit(s);
      } else {
        r := RunLocal(s);
        launched := r == Finished;
      }
    }

    // A local step runs to its end and is verified in the same tick.
    method RunLocal(s: nat) returns (r: Outcome)
      requires Valid() && s < |specs| && !specs[s].sbatch && MayStart(ledger, s) && Dependencies(specs, ledger, s)
      modifies this`ledger, this`budget, this`called
      ensures Valid() && Later(old(ledger), ledger) && Wrote(old(ledger), ledger, s, |old(ledger)|)
      ensures r == Finished ==>
                var i := |old(ledger)|;
                && i < |ledger|
                && Judged(Rec(s, Local, Missing, None, None), ledger[i], if exitsClean(i) then COMPLETED else FAILED, finds(i), produced(i))
      ensures r != Refused && (r == Crashed ==> budget == 0)
      decreases Remaining(specs[s], ledger, s), 2
    {
      var i := |ledger|;
      var up, state := Execute(s);
      if !up {
        return Crashed;
      }
      ghost var ran := ledger;
      var launched;
      r, launched := Finalize(i, state);
      LaterTrans(old(ledger), ran, ledger);
    }

    // Record the attempt, run it, record how it ended.
    method Execute(s: nat) returns (up: bool, state: JobState)
      requires Valid() && s < |specs| && !specs[s].sbatch && MayStart(ledger, s) && Dependencies(specs, ledger, s)
      modifies this`ledger, this`budget
      ensures Valid() && Later(old(ledger), ledger) && Wrote(old(ledger), ledger, s, |old(ledger)|)
      ensures up ==> ledger == old(ledger) + [NewRec(specs, s).(seen := state)] && state == if exitsClean(|old(ledger)|) then COMPLETED else FAILED
      ensures up ==> Undecided(ledger, |old(ledger)|) && Remaining(specs[s], ledger, s) == Remaining(specs[s], old(ledger), s)
      ensures !up ==> budget == 0
      ensures budget + 2 >= old(budget)
    {
      state := Missing;
      up := SaveNew(s);
      if up {
        ghost var was, rec := ledger[..|ledger| - 1], NewRec(specs, s);
        assert ledger == was + [rec] && was == old(ledger);
        up, state := RunProcess(|ledger| - 1);
        LaterTrans(was, was + [rec], ledger);
        ReplacedLast(was, rec, rec.(seen := state));
        LastWrote(was, rec);
        LastWrote(was, rec.(seen := state));
      }
    }

    // The process itself, and the record of its end.
    method RunProcess(i: nat) returns (up: bool, state: JobState)
      requires Valid() && Undecided(ledger, i) && ledger[i].sub.Local?
      modifies this`ledger, this`budget
      ensures Valid() && Later(old(ledger), ledger) && state == if exitsClean(i) then COMPLETED else FAILED
      ensures up ==> ledger == old(ledger)[i := old(ledger)[i].(seen := state)] && Undecided(ledger, i)
      ensures up ==> Remaining(specs[ledger[i].step], ledger, ledger[i].step)
                     == Remaining(specs[ledger[i].step], old(ledger), ledger[i].step)
      ensures !up ==> budget == 0 && ledger == old(ledger)
      ensures budget + 1 >= old(budget)
    {
      assert ledger[i] in ledger;
      state := if exitsClean(i) then COMPLETED else FAILED;
      up := Save(i, ledger[i].(seen := state));
    }

    // ------------------------------------------------------------------ observe

    lemma StillOpen(i: nat)
      requires Valid() && i < |ledger| && (Unfinalized(ledger[i]) || InFlight(ledger[i]))
      ensures Undecided(ledger, i) && (ledger[i].sub.Submitted? || ledger[i].sub.Local?)
    {
      assert ledger[i] in ledger;
    }

    // Executions that had ended before a crash are verified, not run again.
    method FinalizeLeftovers() returns (r: Outcome, relaunched: set<nat>)
      requires Valid()
      modifies this`ledger, this`budget, this`called
      ensures Valid() && Later(old(ledger), ledger)
      ensures relaunched <= Range(|specs|) && AllAttempted(old(ledger), ledger, relaunched)
      ensures r == Finished ==> Swept(ledger, old(ledger), |old(ledger)|, finds, produced)
      ensures r != Refused && (r == Crashed ==> budget == 0)
    {
      var snapshot := ledger;
      r, relaunched := Finished, {};
      forall k | 0 <= k < |snapshot| && Unfinalized(snapshot[k]) ensures Undecided(ledger, k) {
        StillOpen(k);
      }
      for i := 0 to |snapshot|
        invariant Valid() && Later(old(ledger), ledger) && relaunched <= Range(|specs|) && r == Finished
        invariant AllAttempted(old(ledger), ledger, relaunched)
        invariant Swept(ledger, snapshot, i, finds, produced)
      {
        ghost var was := ledger;
        if Unfinalized(snapshot[i]) {
          StillOpen(i);
          var launched;
          assert ledger[i] in ledger;
          r, launched := Finalize(i, snapshot[i].seen);
          LaterTrans(old(ledger), was, ledger);
          Relaunched(old(ledger), was, ledger, relaunched, snapshot[i].step, i, launched);
          if r != Finished {
            return;
          }
          if launched {
            relaunched := relaunched + {snapshot[i].step};
          }
        }
        SweptNext(was, ledger, snapshot, i, finds, produced);
      }
    }

    // Ask the scheduler about every submitted attempt without a terminal observation.
    // `answer` is what it says of each job.
    method ObserveJobs(answer: nat -> JobState) returns (r: Outcome, relaunched: set<nat>)
      requires Valid()
      modifies this`ledger, this`budget, this`called
      ensures Valid() && Later(old(ledger), ledger)
      ensures relaunched <= Range(|specs|) && AllAttempted(old(ledger), ledger, relaunched)
      ensures r == Finished ==> AllHeard(ledger, old(ledger), |old(ledger)|, answer, finds, produced)
      ensures r != Refused && (r == Crashed ==> budget == 0)
    {
      var snapshot := ledger;
      r, relaunched := Finished, {};
      forall k | 0 <= k < |snapshot| && InFlight(snapshot[k]) ensures Undecided(ledger, k) {
        StillOpen(k);
      }
      for i := 0 to |snapshot|
        invariant Valid() && Later(old(ledger), ledger) && relaunched <= Range(|specs|) && r == Finished
        invariant AllAttempted(old(ledger), ledger, relaunched)
        invariant AllHeard(ledger, snapshot, i, answer, finds, produced)
      {
        ghost var was := ledger;
        if InFlight(snapshot[i]) {
          StillOpen(i);
          assert ledger[i] in ledger;
          var launched;
          r, launched := Observed(i, answer(ledger[i].sub.job));
          LaterTrans(old(ledger), was, ledger);
          Relaunched(old(ledger), was, ledger, relaunched, snapshot[i].step, i, launched);
          if r != Finished {
            return;
          }
          if launched {
            relaunched := relaunched + {snapshot[i].step};
          }
        }
        HeardNext(was, ledger, snapshot, i, answer, finds, produced);
      }
    }

    method Observed(i: nat, state: JobState) returns (r: Outcome, launched: bool)
      requires Valid() && Undecided(ledger, i) && InFlight(ledger[i])
      modifies this`ledger, this`budget, this`called
      ensures Valid() && Later(old(ledger), ledger) && Wrote(old(ledger), ledger, old(ledger[i].step), i)
      ensures r == Finished && state in TERMINAL_STATES ==> Judged(old(ledger)[i], ledger[i], state, finds(i), produced(i))
      ensures r == Finished && state !in TERMINAL_STATES ==> ledger == old(ledger)[i := old(ledger)[i].(seen := state)]
      ensures launched ==> r == Finished && |old(ledger)| < |ledger|
      ensures r != Refused && (r == Crashed ==> budget == 0)
    {
      assert ledger[i] in ledger;
      if state in TERMINAL_STATES {
        r, launched := Finalize(i, state);
      } else {
        var up := Save(i, ledger[i].(seen := state));
        r, launched := if up then Finished else Crashed, false;
      }
    }

    // ----------------------------------------------------------------------- tick

    lemma ReadyMayStart(s: nat)
      requires Valid() && s < |specs| && Launchable(specs, ledger, s)
      ensures MayStart(ledger, s) && Dependencies(specs, ledger, s)
    {
      ReadyExactly(specs, ledger, s);
      MetIsClosed(specs, ledger, s);
      if Latest(ledger, s).Some? {
        assert ledger[Latest(ledger, s).value] in ledger;
      }
    }

    // The first step in table order that is ready and was not attempted this tick.
    method NextReady(attempted: set<nat>) returns (next: Option<nat>)
      ensures next.Some? ==> next.value < |specs| && Launchable(specs, ledger, next.value) && next.value !in attempted
                             && forall s | 0 <= s < next.value && Launchable(specs, ledger, s) :: s in attempted
      ensures next.None? ==> forall s | 0 <= s < |specs| && Launchable(specs, ledger, s) :: s in attempted
    {
      for s := 0 to |specs|
        invariant forall k | 0 <= k < s && Launchable(specs, ledger, k) :: k in attempted
      {
        ReadyExactly(specs, ledger, s);
        if Ready(specs, ledger, s) && s !in attempted {
          return Some(s);
        }
      }
      next := None;
    }

    // Launch the next ready step, if there is one.
    method LaunchNext(attempted: set<nat>) returns (r: Outcome, next: Option<nat>)
      requires Valid()
      modifies this`ledger, this`budget, this`called
      ensures Valid() && Later(old(ledger), ledger) && old(ledger) <= ledger
      ensures next.Some? ==> next.value < |specs| && next.value !in attempted && old(Launchable(specs, ledger, next.value))
      ensures next.Some? && r == Finished ==> NewAttempt(old(ledger), ledger, next.value)
      ensures next.Some? ==> forall k | |old(ledger)| <= k < |ledger| :: ledger[k].step == next.value
      ensures next.None? ==> ledger == old(ledger) && forall s | 0 <= s < |specs| && Launchable(specs, ledger, s) :: s in attempted
      ensures r != Refused && (r == Crashed ==> budget == 0)
    {
      r := Finished;
      next := NextReady(attempted);
      if next.Some? {
        ReadyMayStart(next.value);
        ghost var n := |ledger|;
        var launched;
        r, launched := Launch(next.value);
        assert r == Finished ==> ledger[n].step == next.value;
      }
    }

    // Launch until nothing new becomes ready. A step that could be launched at the start is
    // launched, unless what it was waiting for may be taken back; and one that was verified,
    // pending or parked gets no other attempt.
    method LaunchReady(relaunched: set<nat>) returns (r: Outcome, attempted: set<nat>)
      requires Valid() && relaunched <= Range(|specs|)
      modifies this`ledger, this`budget, this`called
      ensures Valid() && Later(old(ledger), ledger) && old(ledger) <= ledger && relaunched <= attempted <= Range(|specs|)
      ensures r == Finished ==> forall k | |old(ledger)| <= k < |ledger| :: ledger[k].step in attempted
      ensures r == Finished ==> forall s | 0 <= s < |specs| && Launchable(specs, ledger, s) :: s in attempted
      ensures r == Finished ==>
                forall s | 0 <= s < |specs| && old(Launchable(specs, ledger, s)) && old(Settled(specs, ledger, s)) :: s in attempted
      ensures forall s: nat, i: nat | IsLast(old(ledger), s, i) && !Superseded(old(ledger)[i]) :: IsLast(ledger, s, i)
      ensures r == Finished ==> AllAttempted(old(ledger), ledger, attempted - relaunched)
      ensures r != Refused && (r == Crashed ==> budget == 0)
    {
      r, attempted := LaunchWhileReady(relaunched);
      SameLast(old(ledger));
      if r == Finished {
        LaunchedWhatStood(old(ledger), attempted);
      }
    }

    // How far the launching has got since the ledger was `was`.
    ghost predicate Launching(was: Ledger, relaunched: set<nat>, attempted: set<nat>)
      reads this
    {
      && Later(was, ledger) && was <= ledger && relaunched <= attempted <= Range(|specs|)
      && (forall j | |was| <= j < |ledger| :: ledger[j].step in attempted)
      && AllAttempted(was, ledger, attempted - relaunched)
    }

    // One step after the other. The loop's bound is never what ends it.
    method LaunchWhileReady(relaunched: set<nat>) returns (r: Outcome, attempted: set<nat>)
      requires Valid() && relaunched <= Range(|specs|)
      modifies this`ledger, this`budget, this`called
      ensures Valid() && Later(old(ledger), ledger) && old(ledger) <= ledger && relaunched <= attempted <= Range(|specs|)
      ensures r == Finished ==> Launching(old(ledger), relaunched, attempted)
      ensures r == Finished ==> forall s | 0 <= s < |specs| && Launchable(specs, ledger, s) :: s in attempted
      ensures r != Refused && (r == Crashed ==> budget == 0)
    {
      attempted := relaunched;
      var k, quiet := 0, false;
      while k < 2 * |specs| + 1 && !quiet
        invariant Valid() && Launching(old(ledger), relaunched, attempted)
        invariant k <= |attempted| && k <= 2 * |specs| + 1
        invariant quiet ==> forall s | 0 <= s < |specs| && Launchable(specs, ledger, s) :: s in attempted
        decreases 2 * |specs| + 1 - k + if quiet then 0 else 1
      {
        var next;
        r, next := LaunchOne(old(ledger), relaunched, attempted);
        if r != Finished {
          return;
        }
        if next.None? {
          quiet := true;
        } else {
          attempted, k := attempted + {next.value}, k + 1;
        }
      }
      StepsBound(|specs|, attempted);
      r := Finished;
    }

    method LaunchOne(ghost was: Ledger, relaunched: set<nat>, attempted: set<nat>) returns (r: Outcome, next: Option<nat>)
      requires Valid() && Launching(was, relaunched, attempted)
      modifies this`ledger, this`budget, this`called
      ensures Valid() && Later(was, ledger) && was <= ledger
      ensures r == Finished ==>
                match next
                case None =>
                  Launching(was, relaunched, attempted) && forall s | 0 <= s < |specs| && Launchable(specs, ledger, s) :: s in attempted
                case Some(s) => s !in attempted && Launching(was, relaunched, attempted + {s})
      ensures r != Refused && (r == Crashed ==> budget == 0)
    {
      ghost var before := ledger;
      r, next := LaunchNext(attempted);
      LaterTrans(was, before, ledger);
      if r == Finished && next.Some? {
        OneMoreAttempted(was, before, ledger, attempted - relaunched, next.value);
        assert attempted + {next.value} - relaunched == attempted - relaunched + {next.value};
      }
    }

    // What could be launched at the start, and stood, has been.
    lemma LaunchedWhatStood(was: Ledger, attempted: set<nat>)
      requires Valid() && was <= ledger && Later(was, ledger) && forall r <- was :: RecOk(specs, r)
      requires forall k | |was| <= k < |ledger| :: ledger[k].step in attempted
      requires forall s | 0 <= s < |specs| && Launchable(specs, ledger, s) :: s in attempted
      ensures forall s | 0 <= s < |specs| && Launchable(specs, was, s) && Settled(specs, was, s) :: s in attempted
    {
      forall s | 0 <= s < |specs| && Launchable(specs, was, s) && Settled(specs, was, s) ensures s in attempted {
        if s !in attempted {
          StaysLaunchable(specs, was, ledger, s);
        }
      }
    }

    lemma SameLast(was: Ledger)
      requires Valid() && was <= ledger
      ensures forall s: nat, i: nat | IsLast(was, s, i) && !Superseded(was[i]) :: IsLast(ledger, s, i)
    {
      forall s: nat, i: nat | IsLast(was, s, i) && !Superseded(was[i]) ensures IsLast(ledger, s, i) {
        NoOtherAttempt(was, ledger, s, i);
      }
    }

    // Everything a worker does in one wake-up, in order. `rows` is what accounting says about
    // unknown submissions, where it can be asked; `answer` what the scheduler says of jobs.
    method Tick(rows: Option<nat -> Accounting>, answer: nat -> JobState) returns (r: Outcome, decision: Decision)
      requires Valid()
      modifies this`ledger, this`budget, this`called
      ensures Valid() && Later(old(ledger), ledger)
      ensures r == Finished ==>
                forall k | 0 <= k < |old(ledger)| ::
                  var was := old(ledger)[k];
                  var known := if rows.Some? && UnknownOutcome(was) then Resolved(was, rows.value(k), k in old(called)) else was;
                  Attended(known, ledger[k], answer, finds(k), produced(k))
      ensures r == Finished ==>
                forall s | 0 <= s < |specs| && Launchable(specs, ledger, s) :: NewAttempt(old(ledger), ledger, s)
      ensures r == Finished ==> Fits(decision)
      ensures r == Finished ==> (decision == SUBMITTED <==> forall s | 0 <= s < |specs| :: Verified(ledger, s))
      ensures r != Refused && (r == Crashed ==> budget == 0)
    {
      decision := NoProgress;
      if rows.Some? {
        r := ReconcileAll(rows.value);
        if r != Finished { return; }
      }
      ghost var reconciled := ledger;
      r := Advance(answer);
      LaterTrans(old(ledger), reconciled, ledger);
      if r != Finished { return; }
      decision := Decide();
    }

    // Observe, then launch.
    method Advance(answer: nat -> JobState) returns (r: Outcome)
      requires Valid()
      modifies this`ledger, this`budget, this`called
      ensures Valid() && Later(old(ledger), ledger)
      ensures r == Finished ==> forall k | 0 <= k < |old(ledger)| :: Attended(old(ledger)[k], ledger[k], answer, finds(k), produced(k))
      ensures r == Finished ==>
                forall s | 0 <= s < |specs| && Launchable(specs, ledger, s) :: NewAttempt(old(ledger), ledger, s)
      ensures r != Refused && (r == Crashed ==> budget == 0)
    {
      var relaunched, attempted;
      r, relaunched := Observe(answer);
      if r != Finished { return; }
      ghost var observed := ledger;
      r, attempted := LaunchReady(relaunched);
      LaterTrans(old(ledger), observed, ledger);
      if r == Finished {
        StillAttempted(old(ledger), observed, ledger, relaunched);
        EarlierAttempted(old(ledger), observed, ledger, attempted - relaunched);
      }
    }

    // The ends that were left over, then the jobs in flight.
    method Observe(answer: nat -> JobState) returns (r: Outcome, relaunched: set<nat>)
      requires Valid()
      modifies this`ledger, this`budget, this`called
      ensures Valid() && Later(old(ledger), ledger)
      ensures r == Finished ==> forall k | 0 <= k < |old(ledger)| :: Attended(old(ledger)[k], ledger[k], answer, finds(k), produced(k))
      ensures relaunched <= Range(|specs|) && AllAttempted(old(ledger), ledger, relaunched)
      ensures r != Refused && (r == Crashed ==> budget == 0)
    {
      var first, second;
      r, first := FinalizeLeftovers();
      relaunched := first;
      if r != Finished { return; }
      ghost var l2 := ledger;
      r, second := ObserveJobs(answer);
      LaterTrans(old(ledger), l2, ledger);
      StillAttempted(old(ledger), l2, ledger, first);
      EarlierAttempted(old(ledger), l2, ledger, second);
      if r == Finished {
        BothAttend(old(ledger), l2, ledger, answer, finds, produced);
      }
      relaunched := first + second;
    }

    // i is the first attempt that is picked.
    predicate IsFirst(pick: Rec -> bool, i: nat)
      reads this`ledger
    {
      i < |ledger| && pick(ledger[i]) && forall j | 0 <= j < i :: !pick(ledger[j])
    }

    method Find(pick: Rec -> bool) returns (i: Option<nat>)
      ensures i.Some? ==> IsFirst(pick, i.value)
      ensures i.None? ==> forall r <- ledger :: !pick(r)
    {
      for k := 0 to |ledger|
        invariant forall j | 0 <= j < k :: !pick(ledger[j])
      {
        if pick(ledger[k]) {
          return Some(k);
        }
      }
      i := None;
    }

    // What a report of each kind means: jobs in flight come first, then the first submission
    // whose outcome is unknown, then the first parked failure; without any of them the table
    // is verified, or nothing can be done.
    predicate Fits(d: Decision)
      reads this
    {
      var flying, unknown, parked := exists r <- ledger :: InFlight(r), exists r <- ledger :: UnknownOutcome(r), exists r <- ledger :: Parked(r);
      match d
      case AwaitJobs => flying
      case AwaitSubmission(i) => !flying && IsFirst(UnknownOutcome, i)
      case AwaitRuling(i) => !flying && !unknown && IsFirst(Parked, i)
      case SUBMITTED => !flying && !unknown && !parked && forall s | 0 <= s < |specs| :: Verified(ledger, s)
      case NoProgress => !flying && !unknown && !parked && exists s | 0 <= s < |specs| :: !Verified(ledger, s)
    }

    // With every step verified, nothing is running, unknown or parked.
    lemma AllOkMeansSettled(r: Rec)
      requires Valid() && r in ledger && forall s | 0 <= s < |specs| :: Ok(ledger, s)
      ensures !InFlight(r) && !UnknownOutcome(r) && !Parked(r)
    {
      var i :| 0 <= i < |ledger| && ledger[i] == r;
      assert RecOk(specs, r) && Ok(ledger, r.step);
    }

    lemma SettledWhenAllOk()
      requires Valid()
      ensures (forall s | 0 <= s < |specs| :: Ok(ledger, s)) ==>
                forall r <- ledger :: !InFlight(r) && !UnknownOutcome(r) && !Parked(r)
    {
      if forall s | 0 <= s < |specs| :: Ok(ledger, s) {
        forall r <- ledger ensures !InFlight(r) && !UnknownOutcome(r) && !Parked(r) {
          AllOkMeansSettled(r);
        }
      }
    }

    lemma VerifiedIsOk()
      ensures forall s: nat :: Verified(ledger, s) <==> Ok(ledger, s)
    {
      forall s: nat ensures Verified(ledger, s) <==> Ok(ledger, s) {
        LastIsLatest(ledger, s);
      }
    }

    // What to report: the deliverable is ready only when the whole table is verified.
    method Decide() returns (d: Decision)
      requires Valid()
      ensures Fits(d)
      ensures d == SUBMITTED <==> forall s | 0 <= s < |specs| :: Verified(ledger, s)
    {
      SettledWhenAllOk();
      VerifiedIsOk();
      var flying := Find(InFlight);
      if flying.Some? {
        assert ledger[flying.value] in ledger;
        return AwaitJobs;
      }
      var unknown := Find(UnknownOutcome);
      if unknown.Some? {
        assert ledger[unknown.value] in ledger;
        return AwaitSubmission(unknown.value);
      }
      var parked := Find(Parked);
      if parked.Some? {
        assert ledger[parked.value] in ledger;
        return AwaitRuling(parked.value);
      }
      d := if forall s | 0 <= s < |specs| :: Ok(ledger, s) then SUBMITTED else NoProgress;
    }
  }
}
