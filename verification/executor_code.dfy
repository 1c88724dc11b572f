// launch(), resume() and poll() of one worker, one file at a time. `budget` is the number
// of writes the runtime still gets to make before it dies.
module ExecutorCode {
  import opened Prelude
  import opened FarmMoves
  import opened Executor

  datatype Outcome = Sent | AlreadyRunning | Unavailable | Crashed

  lemma ExecSnoc(run: seq<Action>, a: Action)
    ensures Exec(START, run + [a]) == Apply(Exec(START, run), a)
  {
    assert (run + [a])[..|run|] == run;
  }

  // The run ends in state s, said of the whole prefix so that it is unrolled only on demand.
  ghost predicate EndsIn(run: seq<Action>, s: Sys) {
    forall n | n == |run| :: s == Exec(START, run[..n])
  }

  lemma EndOf(run: seq<Action>, s: Sys)
    ensures EndsIn(run, s) <==> s == Exec(START, run)
  {
    assert run[..|run|] == run;
  }

  class Worker {
    // files
    var saved: Option<Saved>
    var scripts: map<Script, Attempt>
    var guards: set<Attempt>
    var pidfile: Pidfile
    var receipt: Option<Slip>
    // the machines
    var boots: map<nat, nat>
    var sends: set<Send>
    var passes: seq<Pass>
    var runtime: Option<Runtime>
    var budget: nat

    ghost var attempts: set<Attempt>
    ghost var contents: set<nat>
    ghost var home: Place
    ghost var history: seq<Action>

    ghost function System(): Sys
      reads this
    {
      Sys(saved, scripts, guards, pidfile, receipt, boots, sends, passes, runtime, attempts, contents, home)
    }

    // Everything the object has done is a run of the protocol.
    ghost predicate Valid()
      reads this
    {
      EndsIn(history, System())
    }

    constructor ()
      ensures Valid() && history == []
    {
      saved, scripts, guards, pidfile, receipt := None, map[], {}, Missing, None;
      boots, sends, passes, runtime := map[], {}, [], None;
      attempts, contents, home, history := {}, {}, Place(0, 0, 0), [];
      new;
      EndOf(history, System());
    }

    lemma Reachable()
      requires Valid()
      ensures Inv(System())
    {
      EndOf(history, System());
      Always(history);
    }

    ghost method Log(a: Action, before: Sys)
      requires EndsIn(history, before) && System() == Apply(before, a)
      modifies this`history
      ensures Valid() && history == old(history) + [a]
    {
      EndOf(history, before);
      ExecSnoc(history, a);
      history := history + [a];
      EndOf(history, System());
    }

    method Alive() returns (up: bool)
      modifies this`budget
      ensures up == (old(budget) > 0) && budget == if up then old(budget) - 1 else 0
    {
      up := budget > 0;
      if up { budget := budget - 1; }
    }

    // What poll() answers about liveness.
    function Seen(proc: Lookup): Liveness
      requires runtime.Some?
      reads this
    {
      if saved.None? then Liveness.Unknown else Observe(pidfile, saved.value, IdentOf(runtime.value), proc)
    }

    // The runtime is where the attempt was prepared, and the pidfile names that attempt.
    predicate Recorded()
      requires runtime.Some? && saved.Some?
      reads this
    {
      SameRuntime(saved.value.ident, IdentOf(runtime.value)) && OnRecord(pidfile, saved.value.attempt)
    }

    // Read the worker's liveness. `proc` is what /proc answers about the recorded pid.
    method Poll(proc: Lookup) returns (alive: Liveness, surfaced: Option<Slip>)
      requires Valid() && runtime.Some? && UpAt(System(), runtime.value.place) && Truthful(System(), runtime.value.place, proc)
      ensures alive == Seen(proc)
      ensures alive == Dead <==> saved.Some? && (|| Rebooted(saved.value.ident, IdentOf(runtime.value))
                                                 || (Recorded() && Exited(pidfile, proc)))
      ensures alive == Liveness.Alive <==> saved.Some? && Recorded() && Lives(pidfile, proc)
      ensures alive == Dead ==> Quiet(System())
      ensures alive == Liveness.Alive ==> Busy(System())
      ensures surfaced.Some? <==> Surfaced(System())
      ensures surfaced.Some? ==> surfaced == receipt && surfaced.value.author == saved.value.attempt
    {
      Reachable();
      if saved.None? {
        return Liveness.Unknown, None;
      }
      surfaced := if receipt.Some? && (saved.value.prior.None? || saved.value.prior.value.content != receipt.value.content)
                  then receipt else None;
      alive := Observe(pidfile, saved.value, IdentOf(runtime.value), proc);
      ObservedExactly(pidfile, saved.value, IdentOf(runtime.value), proc);
      if alive == Dead {
        DeadIsQuiet(System(), runtime.value, proc);
      } else if alive == Liveness.Alive {
        AliveIsBusy(System(), runtime.value, proc);
      }
    }

    // Note a death, or that there never was a prior attempt.
    method Clear(proc: Lookup)
      requires Valid() && Enabled(System(), Look(proc))
      requires saved.None? || Observe(pidfile, saved.value, IdentOf(runtime.value), proc) == Dead
      modifies this`runtime, this`history
      ensures Valid() && runtime == Some(old(runtime).value.(step := Cleared)) && Quiet(System())
    {
      ghost var s := System();
      runtime := Some(runtime.value.(step := Cleared));
      Log(Look(proc), s);
      Reachable();
    }

    // Read the receipt that the next attempt will fence.
    method ReadPrior()
      requires Valid() && Enabled(System(), Fence)
      modifies this`runtime, this`history
      ensures Valid() && runtime == Some(old(runtime).value.(step := Fencing(receipt)))
    {
      ghost var s := System();
      runtime := Some(runtime.value.(step := Fencing(receipt)));
      Log(Fence, s);
    }

    // Persist the uncertainty before anything is dispatched, and fence the old receipt.
    method PrepareAttempt(a: Attempt, o: Owner) returns (up: bool)
      requires Valid() && runtime.Some? && runtime.value.step == Fencing(receipt) && a !in attempts
      requires saved.Some? ==> saved.value.owner == o
      modifies this`runtime, this`saved, this`attempts, this`home, this`budget, this`history
      ensures Valid()
      ensures up ==> saved == Some(Saved(IdentOf(old(runtime).value), a, receipt, o))
                     && runtime == Some(old(runtime).value.(step := Prepared))
      ensures !up ==> budget == 0 && saved == old(saved)
      ensures budget + 1 >= old(budget)
    {
      up := Alive();
      if up {
        ghost var s := System();
        saved, runtime, attempts, home :=
          Some(Saved(IdentOf(runtime.value), a, receipt, o)), Some(runtime.value.(step := Prepared)), attempts + {a}, runtime.value.place;
        Log(Prepare(a, o), s);
      }
    }

    method Render(script: Script) returns (up: bool)
      requires Valid() && Enabled(System(), WriteScript(script))
      modifies this`scripts, this`runtime, this`budget, this`history
      ensures Valid()
      ensures up ==> System() == Do(old(System()), WriteScript(script))
      ensures !up ==> budget == 0
      ensures budget + 1 >= old(budget)
    {
      up := Alive();
      if up {
        ghost var s := System();
        scripts := scripts[script := saved.value.attempt];
        runtime := Some(runtime.value.(step := Written(script)));
        assert System() == Do(s, WriteScript(script));
        Log(WriteScript(script), s);
      }
    }

    method Type() returns (up: bool)
      requires Valid() && Enabled(System(), SendKeys)
      modifies this`runtime, this`sends, this`budget, this`history
      ensures Valid()
      ensures up ==> System() == Do(old(System()), SendKeys)
      ensures !up ==> budget == 0 && sends == old(sends)
      ensures budget + 1 >= old(budget)
    {
      up := Alive();
      if up {
        ghost var s := System();
        sends := sends + {Send(runtime.value.step.script, runtime.value.place)};
        runtime := Some(runtime.value.(step := Resting));
        assert System() == Do(s, SendKeys);
        Log(SendKeys, s);
      }
    }

    // Write the script, then type its name into the worker's pane.
    method Dispatch(script: Script) returns (up: bool)
      requires Valid() && Enabled(System(), WriteScript(script))
      modifies this`scripts, this`runtime, this`sends, this`budget, this`history
      ensures Valid()
      ensures up ==> sends == old(sends) + {Send(script, old(runtime).value.place)} && scripts == old(scripts)[script := saved.value.attempt]
      ensures !up ==> budget == 0 && sends == old(sends)
      ensures budget + 2 >= old(budget)
    {
      up := Render(script);
      if up {
        up := Type();
      }
    }

    // The worker is dead or new: note that, and the receipt to be fenced.
    method Withdraw(proc: Lookup)
      requires Valid() && Enabled(System(), Look(proc))
      requires saved.None? || Observe(pidfile, saved.value, IdentOf(runtime.value), proc) == Dead
      modifies this`runtime, this`history
      ensures Valid() && runtime == Some(old(runtime).value.(step := Fencing(receipt)))
      ensures old(Quiet(System()))
    {
      Clear(proc);
      ReadPrior();
    }

    method NewAttempt(script: Script, proc: Lookup, a: Attempt, o: Owner) returns (r: Outcome)
      requires Valid() && Enabled(System(), Look(proc)) && a !in attempts
      requires saved.None? || (saved.value.owner == o && Observe(pidfile, saved.value, IdentOf(runtime.value), proc) == Dead)
      modifies this`runtime, this`saved, this`attempts, this`home, this`scripts, this`sends, this`budget, this`history
      ensures Valid()
      ensures r in {Sent, Crashed} && (r == Crashed ==> budget == 0 && sends == old(sends))
      ensures r == Sent ==>
                && old(Quiet(System())) && saved.Some? && saved.value.attempt == a && saved.value.owner == o && saved.value.prior == receipt
                && sends == old(sends) + {Send(script, old(runtime).value.place)} && scripts == old(scripts)[script := a]
      ensures budget + 3 >= old(budget)
    {
      Withdraw(proc);
      var up := PrepareAttempt(a, o);
      if up {
        up := Dispatch(script);
      }
      r := if up then Sent else Crashed;
    }

    // Start the worker unless it is alive; withhold if it was issued for another task or
    // lease, or its identity is uncertain.
    method Launch(o: Owner, proc: Lookup, a: Attempt) returns (r: Outcome)
      requires Valid() && Enabled(System(), Look(proc)) && a !in attempts
      modifies this`runtime, this`saved, this`attempts, this`home, this`scripts, this`sends, this`budget, this`history
      ensures Valid()
      ensures r == Sent ==> old(Quiet(System())) && saved.Some? && saved.value.attempt == a && saved.value.owner == o
                            && scripts == old(scripts)[LaunchSh := a] && sends == old(sends) + {Send(LaunchSh, old(runtime).value.place)}
      ensures r == AlreadyRunning ==> old(Busy(System()))
      ensures r == AlreadyRunning <==> old(Seen(proc)) == Liveness.Alive && old(saved).value.owner == o
      ensures r == Unavailable <==> old(saved).Some? && (old(saved).value.owner != o || old(Seen(proc)) == Liveness.Unknown)
      ensures r in {AlreadyRunning, Unavailable} ==> System() == old(System())
      ensures r == Crashed ==> budget == 0 && sends == old(sends)
      ensures budget + 3 >= old(budget)
    {
      if saved.Some? {
        if saved.value.owner != o {
          return Unavailable;
        }
        assert RuntimeOk(System()) by { Reachable(); }
        var alive, _ := Poll(proc);
        if alive != Dead {
          return if alive == Liveness.Alive then AlreadyRunning else Unavailable;
        }
      }
      r := NewAttempt(LaunchSh, proc, a, o);
    }

    // Wake a worker that has run before.
    method Resume(o: Owner, proc: Lookup, a: Attempt) returns (r: Outcome)
      requires Valid() && Enabled(System(), Look(proc)) && a !in attempts
      modifies this`runtime, this`saved, this`attempts, this`home, this`scripts, this`sends, this`budget, this`history
      ensures Valid()
      ensures r == Sent ==> old(Quiet(System())) && saved.Some? && saved.value.attempt == a && saved.value.owner == o
                            && scripts == old(scripts)[ResumeSh := a] && sends == old(sends) + {Send(ResumeSh, old(runtime).value.place)}
      ensures r == AlreadyRunning ==> old(Busy(System()))
      ensures r == AlreadyRunning <==> old(Seen(proc)) == Liveness.Alive && old(saved).value.owner == o
      ensures r == Unavailable <==> old(saved).None? || old(saved).value.owner != o || old(Seen(proc)) == Liveness.Unknown
      ensures r in {AlreadyRunning, Unavailable} ==> System() == old(System())
      ensures r == Crashed ==> budget == 0 && sends == old(sends)
      ensures budget + 3 >= old(budget)
    {
      if saved.None? || saved.value.owner != o {
        return Unavailable;
      }
      assert RuntimeOk(System()) by { Reachable(); }
      var alive, _ := Poll(proc);
      if alive != Dead {
        return if alive == Liveness.Alive then AlreadyRunning else Unavailable;
      }
      r := NewAttempt(ResumeSh, proc, a, o);
    }
  }
}
