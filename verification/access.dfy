// Endpoint generations of one access target: immutable records, and per role group one
// current pointer that moves only by compare-and-swap on the digest of the record it names.
//
// Publishers of a target hold its lock for the whole call. `budget` counts the file writes
// the publisher still gets to make.
module Access {
  import opened Prelude

  datatype Role = Interactive | Daemon

  // A record of the old kind has no generation and is filed under its execution epoch.
  // `body` is everything else that was observed about the endpoint.
  datatype Record = Record(farm: nat, epoch: nat, generation: Option<nat>, previous: Option<nat>, role: Option<Role>,
                           body: nat, publishedAt: nat)

  datatype Pointer = Pointer(epoch: nat, generation: Option<nat>, digest: nat)

  datatype Outcome = Verified(record: Record) | Conflict | StaleRegistry | NotReady | Crashed

  // The digest of a record's canonical encoding, taken to be collision-free.
  ghost predicate Injective(digest: Record -> nat) {
    forall a, b :: digest(a) == digest(b) ==> a == b
  }

  // Daemon endpoints have a pointer of their own.
  predicate ForDaemon(role: Option<Role>) {
    role == Some(Daemon)
  }

  // ------------------------------------------------------------------ linear history

  // Every generation names the digest of the record that was current just before it, and
  // once there is one, no record of the old kind becomes current again.
  predicate Succeeds(history: seq<Record>, digest: Record -> nat, i: nat)
    requires i < |history|
  {
    history[i].generation.Some? ==> history[i].previous == if i == 0 then None else Some(digest(history[i - 1]))
  }

  ghost predicate Linear(history: seq<Record>, digest: Record -> nat) {
    && (forall i | 0 <= i < |history| :: Succeeds(history, digest, i))
    && (forall i, j | 0 <= i < j < |history| && history[i].generation.Some? :: history[j].generation.Some?)
  }

  // The pointer never comes back to a generation it has left.
  lemma {:induction false} NeverReturns(history: seq<Record>, digest: Record -> nat, i: nat, j: nat)
    requires Linear(history, digest) && Injective(digest) && i < j < |history| && history[i].generation.Some?
    ensures history[i] != history[j]
    decreases i
  {
    assert history[j].generation.Some? && Succeeds(history, digest, i) && Succeeds(history, digest, j);
    if i > 0 {
      if history[i - 1].generation.Some? {
        NeverReturns(history, digest, i - 1, j - 1);
      } else {
        assert history[j - 1].generation.Some?;
      }
      assert digest(history[i - 1]) != digest(history[j - 1]);
    }
  }

  lemma LinearNext(history: seq<Record>, digest: Record -> nat, r: Record)
    requires Linear(history, digest)
    requires r.generation.Some? ==> r.previous == if history == [] then None else Some(digest(history[|history| - 1]))
    requires r.generation.None? ==> history == [] || history[|history| - 1].generation.None?
    ensures Linear(history + [r], digest)
  {
    var n := |history|;
    assert forall i | 0 <= i < n :: (history + [r])[i] == history[i];
    forall i | 0 <= i < n + 1 ensures Succeeds(history + [r], digest, i) {
      assert i < n ==> Succeeds(history, digest, i);
    }
    forall i, j | 0 <= i < j < n + 1 && (history + [r])[i].generation.Some? ensures (history + [r])[j].generation.Some? {
      assert i < n - 1 ==> history[n - 1].generation.Some?;
    }
  }

  // The record a pointer names.
  predicate Resolves(generations: map<nat, Record>, epochs: map<nat, Record>, digest: Record -> nat, p: Pointer) {
    match p.generation
    case Some(g) => g in generations && digest(generations[g]) == p.digest
    case None => p.epoch in epochs && digest(epochs[p.epoch]) == p.digest
  }

  function Named(generations: map<nat, Record>, epochs: map<nat, Record>, p: Pointer): Record
    requires if p.generation.Some? then p.generation.value in generations else p.epoch in epochs
  {
    if p.generation.Some? then generations[p.generation.value] else epochs[p.epoch]
  }

  // A pointer stands at the last record of its history.
  ghost predicate Follows(generations: map<nat, Record>, epochs: map<nat, Record>, digest: Record -> nat, p: Option<Pointer>, h: seq<Record>) {
    && (p.Some? <==> h != [])
    && (p.Some? ==> Resolves(generations, epochs, digest, p.value) && Named(generations, epochs, p.value) == h[|h| - 1])
    && Linear(h, digest)
  }

  lemma FollowsStays(generations: map<nat, Record>, epochs: map<nat, Record>, digest: Record -> nat, p: Option<Pointer>, h: seq<Record>, r: Record)
    requires Follows(generations, epochs, digest, p, h)
    ensures r.generation.Some? && (r.generation.value in generations ==> generations[r.generation.value] == r) ==>
              Follows(generations[r.generation.value := r], epochs, digest, p, h)
    ensures (r.epoch in epochs ==> epochs[r.epoch] == r) ==> Follows(generations, epochs[r.epoch := r], digest, p, h)
  {
  }

  // Pointing at a stored successor of the last record.
  lemma FollowsNext(generations: map<nat, Record>, epochs: map<nat, Record>, digest: Record -> nat, p: Option<Pointer>, h: seq<Record>, r: Record)
    requires Follows(generations, epochs, digest, p, h)
    requires if r.generation.Some? then r.generation.value in generations && generations[r.generation.value] == r
             else r.epoch in epochs && epochs[r.epoch] == r
    requires r.generation.Some? ==> r.previous == if h == [] then None else Some(digest(h[|h| - 1]))
    requires r.generation.None? ==> h == [] || h[|h| - 1].generation.None?
    ensures Follows(generations, epochs, digest, Some(Pointer(r.epoch, r.generation, digest(r))), h + [r])
  {
    LinearNext(h, digest, r);
  }

  class Registry {
    const digest: Record -> nat
    var binding: Option<nat>
    var generations: map<nat, Record>
    var epochs: map<nat, Record>
    var current: Option<Pointer>
    var daemon: Option<Pointer>
    var budget: nat
    // the records that each pointer has named, in order
    ghost var history: seq<Record>
    ghost var daemonHistory: seq<Record>

    ghost predicate Valid()
      reads this
    {
      && Injective(digest)
      && (forall g <- generations :: generations[g].generation == Some(g) && binding == Some(generations[g].farm))
      && (forall e <- epochs :: epochs[e].generation.None? && epochs[e].epoch == e && epochs[e].role.None? && binding == Some(epochs[e].farm))
      && Follows(generations, epochs, digest, current, history)
      && Follows(generations, epochs, digest, daemon, daemonHistory)
      && (forall r <- history :: !ForDaemon(r.role)) && (forall r <- daemonHistory :: ForDaemon(r.role))
    }

    // Nothing that was ever written is changed, and no pointer is turned back.
    twostate predicate Grown()
      reads this
    {
      && (forall g <- old(generations) :: g in generations && generations[g] == old(generations)[g])
      && (forall e <- old(epochs) :: e in epochs && epochs[e] == old(epochs)[e])
      && (old(binding).Some? ==> binding == old(binding))
      && old(history) <= history && old(daemonHistory) <= daemonHistory
    }

    // The pointer of the other role group has not moved.
    twostate predicate OtherKept(role: Option<Role>)
      reads this
    {
      if role == Some(Daemon) then current == old(current) && history == old(history)
      else daemon == old(daemon) && daemonHistory == old(daemonHistory)
    }

    constructor (digest: Record -> nat)
      requires Injective(digest)
      ensures Valid() && history == [] && daemonHistory == []
    {
      this.digest := digest;
      binding, generations, epochs, current, daemon := None, map[], map[], None, None;
      history, daemonHistory := [], [];
    }

    method Alive() returns (up: bool)
      modifies this`budget
      ensures up == (old(budget) > 0) && budget == if up then old(budget) - 1 else 0
    {
      up := budget > 0;
      if up { budget := budget - 1; }
    }

    function PointerFor(role: Option<Role>): Option<Pointer>
      reads this`current, this`daemon
    {
      if ForDaemon(role) then daemon else current
    }

    ghost function HistoryOf(role: Option<Role>): seq<Record>
      reads this`history, this`daemonHistory
    {
      if role == Some(Daemon) then daemonHistory else history
    }

    // The file a record is kept in.
    function Stored(r: Record): Option<Record>
      reads this
    {
      if r.generation.Some? then
        if r.generation.value in generations then Some(generations[r.generation.value]) else None
      else if r.epoch in epochs then Some(epochs[r.epoch]) else None
    }

    // The permanent farm binding.
    method Bind(farm: nat) returns (up: bool)
      requires Valid() && (binding.None? || binding == Some(farm))
      modifies this`binding, this`budget
      ensures Valid() && Grown() && (binding == old(binding) || binding == Some(farm))
      ensures if up then binding == Some(farm) else budget == 0
      ensures budget + 1 >= old(budget)
    {
      up := Alive();
      if up {
        binding := Some(farm);
      }
    }

    // The immutable record file.
    method WriteRecord(r: Record) returns (up: bool)
      requires Valid() && binding == Some(r.farm) && Stored(r) in {None, Some(r)} && (r.generation.None? ==> r.role.None?)
      modifies this`generations, this`epochs, this`budget
      ensures Valid() && Grown()
      ensures if up then Stored(r) == Some(r) else budget == 0
      ensures budget + 1 >= old(budget)
    {
      up := Alive();
      if up {
        FollowsStays(generations, epochs, digest, current, history, r);
        FollowsStays(generations, epochs, digest, daemon, daemonHistory, r);
        if r.generation.Some? {
          generations := generations[r.generation.value := r];
        } else {
          epochs := epochs[r.epoch := r];
        }
      }
    }

    // Write the binding and the record, each only if it is not there yet.
    method Prepare(r: Record) returns (up: bool)
      requires Valid() && (binding.None? || binding == Some(r.farm)) && Stored(r) in {None, Some(r)}
      requires r.generation.None? ==> r.role.None?
      modifies this`binding, this`generations, this`epochs, this`budget
      ensures Valid() && Grown()
      ensures if up then Stored(r) == Some(r) else budget == 0
      ensures budget + 2 >= old(budget)
    {
      up := Bind(r.farm);
      if up {
        up := WriteRecord(r);
      }
    }

    // Move the pointer, if it still names what the generation expects.
    method Commit(r: Record) returns (outcome: Outcome)
      requires Valid() && Stored(r) == Some(r)
      requires r.generation.None? ==> r.role.None? && (current.Some? ==> current.value.generation.None?)
      modifies this`current, this`daemon, this`history, this`daemonHistory, this`budget
      ensures Valid()
      ensures old(history) <= history && old(daemonHistory) <= daemonHistory
      ensures outcome in {Verified(r), StaleRegistry, Crashed}
      ensures outcome == Verified(r) ==> HistoryOf(r.role) == old(HistoryOf(r.role)) + [r]
      ensures OtherKept(r.role)
      ensures outcome != Verified(r) ==> history == old(history) && daemonHistory == old(daemonHistory)
      ensures outcome == StaleRegistry <==> r.generation.Some? && r.previous != old(CurrentDigest(r.role))
      ensures outcome == Crashed ==> budget == 0
      ensures budget + 1 >= old(budget)
    {
      PointerTells(r.role);
      var observed := if PointerFor(r.role).Some? then Some(PointerFor(r.role).value.digest) else None;
      if r.generation.Some? && observed != r.previous {
        return StaleRegistry;
      }
      var up := Alive();
      if !up {
        return Crashed;
      }
      Point(r);
      outcome := Verified(r);
    }

    // The atomic replace of the role's pointer.
    method Point(r: Record)
      requires Valid() && Stored(r) == Some(r)
      requires r.generation.Some? ==> r.previous == CurrentDigest(r.role)
      requires r.generation.None? ==> r.role.None? && (current.Some? ==> current.value.generation.None?)
      modifies this`current, this`daemon, this`history, this`daemonHistory
      ensures Valid() && OtherKept(r.role)
      ensures HistoryOf(r.role) == old(HistoryOf(r.role)) + [r]
    {
      PointerTells(None);
      var p := Pointer(r.epoch, r.generation, digest(r));
      FollowsNext(generations, epochs, digest, PointerFor(r.role), HistoryOf(r.role), r);
      if ForDaemon(r.role) {
        daemon, daemonHistory := Some(p), daemonHistory + [r];
      } else {
        current, history := Some(p), history + [r];
      }
    }

    // The record an offer conflicts with: another farm's target, another record under the
    // same name, a downgrade to an untyped endpoint, an old-style record over generations.
    ghost predicate Conflicts(offer: Record)
      reads this
    {
      var h := HistoryOf(offer.role);
      || (binding.Some? && binding != Some(offer.farm))
      || (Stored(offer).Some? && Stored(offer).value.(publishedAt := offer.publishedAt) != offer)
      || (h != [] && h[|h| - 1].role.Some? && offer.role.None?)
      || (h != [] && h[|h| - 1].generation.Some? && offer.generation.None?)
    }

    // The digest of what is current for the role, None where nothing is.
    ghost function CurrentDigest(role: Option<Role>): Option<nat>
      reads this`history, this`daemonHistory
    {
      if HistoryOf(role) == [] then None else Some(digest(HistoryOf(role)[|HistoryOf(role)| - 1]))
    }

    // The offer is what is current already, up to its time of publication.
    ghost predicate Republishes(offer: Record)
      reads this
    {
      var h := HistoryOf(offer.role);
      offer.generation.Some? && h != [] && h[|h| - 1].(publishedAt := offer.publishedAt) == offer
    }

    // The one answer an offer gets: not ready, then a conflict, then the identical retry,
    // then staleness; whatever remains is published unless the endpoint does not live
    // through the call or the process dies.
    ghost predicate Answers(offer: Record, ready: bool, live: bool, stillLive: bool, outcome: Outcome)
      reads this
    {
      if !ready then outcome == NotReady
      else if Conflicts(offer) then outcome == Conflict
      else if Republishes(offer) then if live then outcome.Verified? else outcome == NotReady
      else if offer.generation.Some? && offer.previous != CurrentDigest(offer.role) then outcome == StaleRegistry
      else if !live then outcome == NotReady
      else outcome == Crashed || if stillLive then outcome.Verified? else outcome == NotReady
    }

    // Publish the record built from what was observed; `offer.previous` is the digest that
    // the operator reviewed. `ready` and `live` are what the observers say before and during
    // the call.
    method Publish(offer: Record, ready: bool, live: bool, stillLive: bool) returns (outcome: Outcome)
      requires Valid()
      requires offer.role.Some? || offer.previous.Some? ==> offer.generation.Some?
      modifies this
      ensures Valid() && Grown()
      // what is answered is current, and was published by this call or is the identical retry
      ensures outcome.Verified? ==>
                && HistoryOf(offer.role) != [] && outcome.record == HistoryOf(offer.role)[|HistoryOf(offer.role)| - 1]
                && outcome.record.(publishedAt := offer.publishedAt) == offer
                && HistoryOf(offer.role) in {old(HistoryOf(offer.role)), old(HistoryOf(offer.role)) + [outcome.record]}
      ensures old(Answers(offer, ready, live, stillLive, outcome))
      ensures OtherKept(offer.role)
      ensures outcome.Verified? && !old(Republishes(offer)) ==> HistoryOf(offer.role) == old(HistoryOf(offer.role)) + [outcome.record]
      ensures !outcome.Verified? || old(Republishes(offer)) ==> history == old(history) && daemonHistory == old(daemonHistory)
      ensures outcome == Crashed ==> budget == 0
      ensures budget + 3 >= old(budget)
    {
      if !ready {
        return NotReady;
      }
      if binding.Some? && binding != Some(offer.farm) {
        return Conflict;
      }
      var r, prior := offer, Stored(offer);
      if prior.Some? {
        r := offer.(publishedAt := prior.value.publishedAt);
        if r != prior.value {
          return Conflict;
        }
      }
      SameOffer(offer, r, live, stillLive);
      outcome := Place(r, live, stillLive);
    }

    // With another time of publication the same answers fit.
    lemma SameOffer(offer: Record, r: Record, live: bool, stillLive: bool)
      requires r == offer.(publishedAt := r.publishedAt) && Stored(offer) in {None, Some(r)}
      requires binding.None? || binding == Some(offer.farm)
      ensures Stored(r) == Stored(offer) && (Republishes(r) <==> Republishes(offer))
      ensures forall o: Outcome :: Answers(r, true, live, stillLive, o) <==> Answers(offer, true, live, stillLive, o)
    {
      assert Conflicts(r) <==> Conflicts(offer);
    }

    // What a pointer says of the record it names.
    lemma PointerTells(role: Option<Role>)
      requires Valid()
      ensures var p, h := PointerFor(role), HistoryOf(role);
              if p.None? then h == []
              else h != [] && Resolves(generations, epochs, digest, p.value) && Named(generations, epochs, p.value) == h[|h| - 1]
                   && p.value.digest == digest(h[|h| - 1]) && (p.value.generation == h[|h| - 1].generation)
    {
      assert Follows(generations, epochs, digest, PointerFor(role), HistoryOf(role));
    }

    // An offer whose name is free or holds it is the current record exactly when their
    // digests agree.
    lemma RetryIsCurrent(r: Record)
      requires Valid() && Stored(r) in {None, Some(r)} && r.generation.Some?
      ensures Republishes(r) <==> PointerFor(r.role).Some? && PointerFor(r.role).value.digest == digest(r)
    {
      PointerTells(r.role);
    }

    // The name is free or already holds this record: compare with what is current.
    method Place(r: Record, live: bool, stillLive: bool) returns (outcome: Outcome)
      requires Valid() && (binding.None? || binding == Some(r.farm)) && Stored(r) in {None, Some(r)}
      requires r.role.Some? || r.previous.Some? ==> r.generation.Some?
      modifies this
      ensures Valid() && Grown()
      ensures outcome.Verified? ==> outcome.record == r && HistoryOf(r.role) != [] && HistoryOf(r.role)[|HistoryOf(r.role)| - 1] == r
                                    && HistoryOf(r.role) in {old(HistoryOf(r.role)), old(HistoryOf(r.role)) + [r]}
      ensures old(Answers(r, true, live, stillLive, outcome))
      ensures OtherKept(r.role)
      ensures outcome.Verified? && !old(Republishes(r)) ==> HistoryOf(r.role) == old(HistoryOf(r.role)) + [r]
      ensures !outcome.Verified? || old(Republishes(r)) ==> history == old(history) && daemonHistory == old(daemonHistory)
      ensures outcome == Crashed ==> budget == 0
      ensures budget + 3 >= old(budget)
    {
      var answer := Compare(r, live);
      if answer.Some? {
        return answer.value;
      }
      outcome := Write(r, live, stillLive);
    }

    // What can be answered without writing anything.
    method Compare(r: Record, live: bool) returns (answer: Option<Outcome>)
      requires Valid() && (binding.None? || binding == Some(r.farm)) && Stored(r) in {None, Some(r)}
      requires r.role.Some? || r.previous.Some? ==> r.generation.Some?
      ensures answer == if Conflicts(r) then Some(Conflict)
                        else if Republishes(r) then Some(if live then Verified(r) else NotReady)
                        else if r.generation.Some? && r.previous != CurrentDigest(r.role) then Some(StaleRegistry)
                        else None
      ensures Republishes(r) ==> HistoryOf(r.role)[|HistoryOf(r.role)| - 1] == r
      ensures answer.None? && r.generation.None? ==> current.Some? ==> current.value.generation.None?
    {
      var p := PointerFor(r.role);
      PointerTells(r.role);
      if r.generation.Some? {
        RetryIsCurrent(r);
      }
      if p.Some? && Named(generations, epochs, p.value).role.Some? && r.role.None? {
        return Some(Conflict);
      }
      if r.generation.Some? {
        if p.Some? && p.value.digest == digest(r) {
          return Some(if live then Verified(r) else NotReady);
        }
        if r.previous != (if p.Some? then Some(p.value.digest) else None) {
          return Some(StaleRegistry);
        }
      } else if p.Some? && p.value.generation.Some? {
        return Some(Conflict);
      }
      answer := None;
    }

    method Write(r: Record, live: bool, stillLive: bool) returns (outcome: Outcome)
      requires Valid() && (binding.None? || binding == Some(r.farm)) && Stored(r) in {None, Some(r)}
      requires r.generation.None? ==> r.role.None? && (current.Some? ==> current.value.generation.None?)
      requires r.generation.Some? ==> r.previous == CurrentDigest(r.role)
      modifies this
      ensures Valid() && Grown()
      ensures if !live then outcome == NotReady else outcome == Crashed || outcome == if stillLive then Verified(r) else NotReady
      ensures outcome == Verified(r) ==> HistoryOf(r.role) == old(HistoryOf(r.role)) + [r]
      ensures OtherKept(r.role)
      ensures outcome != Verified(r) ==> history == old(history) && daemonHistory == old(daemonHistory)
      ensures outcome == Crashed ==> budget == 0
      ensures budget + 3 >= old(budget)
    {
      if !live {
        return NotReady;
      }
      var up := Prepare(r);
      if !up {
        return Crashed;
      }
      if !stillLive {
        return NotReady;
      }
      outcome := Commit(r);
    }
  }
}
