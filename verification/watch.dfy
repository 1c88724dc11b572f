// The master's blocking wake-up call over a log that keeps growing, and its cursor tokens.
module Watch {
  import opened Prelude
  import opened EventPages

  // The flagged events, in order.
  function Hits(rs: seq<Rec>, flagged: Bytes -> bool): seq<Rec> {
    if rs == [] then [] else (if flagged(rs[0].raw) then [rs[0]] else []) + Hits(rs[1..], flagged)
  }

  lemma {:induction false} HitsConcat(a: seq<Rec>, b: seq<Rec>, flagged: Bytes -> bool)
    ensures Hits(a + b, flagged) == Hits(a, flagged) + Hits(b, flagged)
  {
    if a == [] {
      assert a + b == b;
    } else {
      assert (a + b)[1..] == a[1..] + b && (a + b)[0] == a[0];
      HitsConcat(a[1..], b, flagged);
      Assoc(if flagged(a[0].raw) then [a[0]] else [], Hits(a[1..], flagged), Hits(b, flagged));
    }
  }

  lemma {:induction false} HitsAreFlagged(rs: seq<Rec>, flagged: Bytes -> bool, r: Rec)
    ensures r in Hits(rs, flagged) <==> r in rs && flagged(r.raw)
  {
    if rs != [] {
      HitsAreFlagged(rs[1..], flagged, r);
    }
  }

  function Members(hits: seq<Rec>): set<Rec> {
    set h <- hits
  }

  // ------------------------------------------------------------- cursor tokens

  // str.split("+")
  function Parts(s: string): (ps: seq<string>)
    ensures ps != [] && forall p <- ps :: '+' !in p
  {
    if s == "" then [""]
    else if s[0] == '+' then [""] + Parts(s[1..])
    else [[s[0]] + Parts(s[1..])[0]] + Parts(s[1..])[1..]
  }

  // "+".join(ps)
  function Joined(ps: seq<string>): string
    requires ps != []
  {
    if |ps| == 1 then ps[0] else ps[0] + "+" + Joined(ps[1..])
  }

  // `states` lists the acknowledged state ids; the source sorts them.
  function JoinCursor(cursor: Option<string>, states: seq<string>): string {
    Joined([if cursor.Some? && cursor.value != "" then cursor.value else "0"] + states)
  }

  function SplitCursor(token: string): (Option<string>, set<string>) {
    if token == "" then (None, {})
    else
      var ps := Parts(token);
      (if ps[0] == "" then None else Some(ps[0]), set p <- ps[1..] | p != "")
  }

  predicate Plain(s: string) {
    s != "" && '+' !in s
  }

  lemma {:induction false} PartsOfPlain(a: string, rest: string)
    requires '+' !in a
    ensures Parts(a) == [a] && Parts(a + "+" + rest) == [a] + Parts(rest)
  {
    if a == "" {
      assert a + "+" + rest == "+" + rest;
    } else {
      PartsOfPlain(a[1..], rest);
      assert (a + "+" + rest)[1..] == a[1..] + "+" + rest;
      assert [a[0]] + a[1..] == a;
    }
  }

  lemma {:induction false} PartsOfJoined(ps: seq<string>)
    requires ps != [] && forall p <- ps :: '+' !in p
    ensures Parts(Joined(ps)) == ps
  {
    if |ps| == 1 {
      PartsOfPlain(ps[0], "");
    } else {
      PartsOfJoined(ps[1..]);
      PartsOfPlain(ps[0], Joined(ps[1..]));
    }
  }

  lemma FirstPart(first: string, rest: seq<string>)
    requires Plain(first)
    ensures Joined([first] + rest) != "" && Parts(Joined([first] + rest))[0] == first
  {
    if rest == [] {
      PartsOfPlain(first, "");
    } else {
      assert ([first] + rest)[1..] == rest;
      PartsOfPlain(first, Joined(rest));
    }
  }

  // split_cursor undoes join_cursor exactly when the events cursor and every state id are
  // non-empty and contain no '+'.
  lemma SplitUndoesJoin(cursor: Option<string>, states: seq<string>)
    ensures SplitCursor(JoinCursor(cursor, states)) == (cursor, set p <- states)
            <==> cursor.Some? && Plain(cursor.value) && forall p <- states :: Plain(p)
  {
    var first := if cursor.Some? && cursor.value != "" then cursor.value else "0";
    if '+' !in first {
      FirstPart(first, states);
    }
    var token := JoinCursor(cursor, states);
    var split := SplitCursor(token);
    if '+' !in first && forall p <- states :: Plain(p) {
      PartsOfJoined([first] + states);
      assert ([first] + states)[1..] == states;
      assert split.1 == set p <- states;
    }
    if split == (cursor, set p <- states) {
      forall p <- states ensures Plain(p) {
        assert p in split.1;
      }
      assert cursor.Some? ==> cursor.value == Parts(token)[0];
    }
  }

  datatype Reason = Events | Until | Status | Timeout

  datatype Token = Token(cursor: nat, states: set<string>)

  // One look at the farm's status: the pages of that look at which the `until` condition is
  // met, the daemon if it is down or stalled, and the parked tasks.
  datatype Look = Look(met: set<nat>, down: Option<string>, parks: set<string>)

  // What it reports that was not acknowledged; a daemon that is down comes before the parks.
  function News(look: Look, acked: set<string>): set<string> {
    if look.down.Some? && look.down.value !in acked then {look.down.value} else look.parks - acked
  }

  // What a look comes to: events before the `until` condition, that before the status, and
  // giving up only at the last.
  predicate Answers(look: Look, last: bool, acked: set<string>, hits: seq<Rec>, states: set<string>, reason: Reason, page: nat) {
    && (reason == Events <==> hits != [])
    && (reason == Until <==> hits == [] && page in look.met)
    && (reason == Status <==> hits == [] && page !in look.met && News(look, acked) != {})
    && (reason == Timeout ==> last)
    && states == if reason == Status then News(look, acked) else {}
  }

  // Whatever was acknowledged is never reported again; a daemon that is down is, alone, and
  // otherwise every park that was not acknowledged.
  lemma NewsIs(look: Look, acked: set<string>, id: string)
    ensures id in News(look, acked) <==>
              id !in acked && (look.down == Some(id) || (id in look.parks && (look.down.None? || look.down.value in acked)))
  {
  }

  class Watcher {
    const flagged: Bytes -> bool
    const limit: nat
    var log: Bytes
    // what the master acknowledged last
    var acked: Token
    // every hit ever returned, and every token
    ghost var returned: set<Rec>
    ghost var offered: set<Token>

    // No flagged event before position c has been missed.
    ghost predicate Covered(c: nat)
      reads this
    {
      && Boundary(log, c)
      && forall r <- Records(log, 0, c) | flagged(r.raw) :: r in returned
    }

    ghost predicate Valid()
      reads this
    {
      && limit > 0 && acked in offered
      && forall t <- offered :: Covered(t.cursor)
    }

    constructor (flagged: Bytes -> bool, limit: nat)
      requires limit > 0
      ensures Valid() && acked == Token(0, {}) && log == "" && this.flagged == flagged && this.limit == limit
    {
      this.flagged, this.limit := flagged, limit;
      log, acked := "", Token(0, {});
      returned, offered := {}, {Token(0, {})};
    }

    lemma GrowthKeeps(before: Bytes, c: nat)
      requires Boundary(before, c) && before <= log
      ensures Boundary(log, c) && Records(log, 0, c) == Records(before, 0, c)
    {
      RecordsStay(before, log, 0, c);
    }

    // Other processes append to the log, up to what it will be at the end of the call.
    method Grow(future: Bytes)
      requires Valid() && log <= future
      modifies this`log
      ensures Valid() && old(log) <= log <= future
    {
      var n: nat := *;
      if |log| <= n <= |future| {
        ghost var before := log;
        log := future[..n];
        forall t <- offered ensures Covered(t.cursor) {
          GrowthKeeps(before, t.cursor);
        }
      }
    }

    // The hits between the acknowledged position and `position`. Said of the whole of `hits`,
    // so that the records are unrolled only where a proof asks for them.
    ghost predicate Gathered(hits: seq<Rec>, position: nat)
      reads this
    {
      && acked.cursor <= position && Boundary(log, position)
      && forall n | n == |hits| :: hits[..n] == Hits(Records(log, acked.cursor, position), flagged)
    }

    lemma GatheredIs(hits: seq<Rec>, position: nat)
      requires acked.cursor <= position && Boundary(log, position)
      ensures Gathered(hits, position) <==> hits == Hits(Records(log, acked.cursor, position), flagged)
    {
      assert hits[..|hits|] == hits;
    }

    // Nothing flagged lies between the acknowledged position and `scan`.
    ghost predicate QuietUpTo(scan: nat)
      reads this
    {
      Gathered([], scan)
    }

    ghost predicate NoneBeyond(scan: nat)
      reads this
    {
      forall n | n == |log| :: scan <= n && Records(log, scan, n) == []
    }

    lemma StillQuiet(before: Bytes, scan: nat)
      requires before <= log && acked.cursor <= scan && Boundary(before, scan) && Boundary(before, acked.cursor)
      requires Hits(Records(before, acked.cursor, scan), flagged) == []
      ensures QuietUpTo(scan)
    {
      RecordsStay(before, log, acked.cursor, scan);
      GatheredIs([], scan);
    }

    // The page read from a quiet scan position holds every hit since the acknowledgement.
    lemma PageHits(scan: nat, events: seq<Rec>, position: nat)
      requires Valid() && QuietUpTo(scan) && IsPage(log, scan, limit, events, position)
      ensures Gathered(Hits(events, flagged), position)
    {
      assert Covered(acked.cursor);
      GatheredIs([], scan);
      RecordsSplit(log, acked.cursor, scan, position);
      HitsConcat(Records(log, acked.cursor, scan), events, flagged);
      GatheredIs(Hits(events, flagged), position);
    }

    // A page without records means that there are none, whatever blank lines it passed.
    lemma EmptyPageIsLast(scan: nat, position: nat)
      requires limit > 0 && IsPage(log, scan, limit, [], position)
      ensures NoneBeyond(scan)
    {
      RecordsSplit(log, scan, position, |log|);
      NothingAfterComplete(log, position);
    }

    // Hand out a token for position c together with all the hits up to it.
    ghost method Offer(t: Token, hits: seq<Rec>)
      requires Valid() && Gathered(hits, t.cursor)
      modifies this`returned, this`offered
      ensures Valid() && offered == old(offered) + {t} && returned == old(returned) + Members(hits)
    {
      assert Covered(acked.cursor);
      GatheredIs(hits, t.cursor);
      RecordsSplit(log, 0, acked.cursor, t.cursor);
      returned := returned + Members(hits);
      offered := offered + {t};
      forall r <- Records(log, 0, t.cursor) | flagged(r.raw) ensures r in returned {
        HitsAreFlagged(Records(log, acked.cursor, t.cursor), flagged, r);
      }
    }

    // One page, of a log that may have grown meanwhile.
    method NextPage(future: Bytes, scan: nat) returns (events: seq<Rec>, hits: seq<Rec>, position: nat)
      requires Valid() && QuietUpTo(scan) && log <= future
      modifies this`log
      ensures Valid() && old(log) <= log <= future
      ensures scan <= position && Gathered(hits, position)
      ensures if events == [] then hits == [] && QuietUpTo(scan) && NoneBeyond(scan) else scan < position
    {
      ghost var before := log;
      assert Covered(acked.cursor);
      GatheredIs([], scan);
      Grow(future);
      StillQuiet(before, scan);
      var page := EventsAfter(log, scan, limit);
      PageHits(scan, page.events, page.cursor);
      events, hits, position := page.events, Hits(page.events, flagged), page.cursor;
      if events == [] {
        EmptyPageIsLast(scan, position);
      } else {
        SomethingRead(scan, position, events);
      }
    }

    lemma SomethingRead(scan: nat, position: nat, events: seq<Rec>)
      requires IsPage(log, scan, limit, events, position) && events != []
      ensures scan < position
    {
      NoRecords(log, scan);
    }

    // Read pages until one has a hit, the `until` condition is met or none is left.
    method Drain(future: Bytes, start: nat, met: set<nat>)
      returns (found: bool, hits: seq<Rec>, scan: nat, until: bool, page: nat)
      requires Valid() && QuietUpTo(start) && log <= future
      modifies this`log
      ensures Valid() && old(log) <= log <= future && Gathered(hits, scan)
      ensures found <==> hits != [] || until
      ensures (until <==> page in met) && forall j | 0 <= j < page :: j !in met
      ensures !found ==> NoneBeyond(scan)
    {
      scan, page := start, 0;
      while true
        invariant Valid() && QuietUpTo(scan) && old(log) <= log <= future
        invariant forall j | 0 <= j < page :: j !in met
        decreases |future| - scan
      {
        var events, position;
        events, hits, position := NextPage(future, scan);
        until := page in met;
        if hits != [] || until {
          return true, hits, position, until, page;
        }
        if events == [] {
          return false, [], scan, false, page;
        }
        scan, page := position, page + 1;
      }
    }

    // One look: the pages first, then the status. `last` is a look at the deadline.
    method TakeLook(future: Bytes, start: nat, look: Look, last: bool)
      returns (ended: bool, hits: seq<Rec>, states: set<string>, scan: nat, reason: Reason, page: nat)
      requires Valid() && QuietUpTo(start) && log <= future
      modifies this`log
      ensures Valid() && old(log) <= log <= future && Gathered(hits, scan)
      ensures if ended then Answers(look, last, acked.states, hits, states, reason, page)
              else hits == [] && page !in look.met && News(look, acked.states) == {} && !last
      ensures hits == [] && page !in look.met ==> NoneBeyond(scan)
    {
      var until;
      ended, hits, scan, until, page := Drain(future, start, look.met);
      if ended {
        return true, hits, {}, scan, if hits != [] then Events else Until, page;
      }
      states := News(look, acked.states);
      if states != {} {
        return true, [], states, scan, Status, page;
      }
      return last, [], {}, scan, Timeout, page;
    }

    // Block until a hit, a status condition, or the last of the looks without either. `looks`
    // is what each look at the status finds before the deadline; `n` is the one that ends the call.
    method Watch(future: Bytes, looks: seq<Look>)
      returns (hits: seq<Rec>, states: set<string>, token: Token, reason: Reason, n: nat, page: nat)
      requires Valid() && log <= future && looks != []
      modifies this`log, this`returned, this`offered
      ensures Valid() && acked == old(acked) && old(log) <= log <= future
      ensures token in offered && returned == old(returned) + Members(hits)
      // exactly the flagged events since the acknowledgement, in order
      ensures Boundary(log, acked.cursor) && acked.cursor <= token.cursor <= |log|
      ensures hits == Hits(Records(log, acked.cursor, token.cursor), flagged)
      // a call that returns without an event has left none unseen
      ensures reason in {Status, Timeout} ==> hits == [] && Records(log, token.cursor, |log|) == []
      ensures token.states == acked.states + states
      ensures n < |looks| && Answers(looks[n], n == |looks| - 1, acked.states, hits, states, reason, page)
      // no look that had something to report was passed over
      ensures forall k | 0 <= k < n :: News(looks[k], acked.states) == {}
    {
      assert Covered(acked.cursor);
      var scan, ended := acked.cursor, false;
      n := 0;
      StartsQuiet();
      while true
        invariant Valid() && QuietUpTo(scan) && old(log) <= log <= future && returned == old(returned)
        invariant n < |looks| && forall k | 0 <= k < n :: News(looks[k], acked.states) == {}
        decreases |looks| - n
      {
        ended, hits, states, scan, reason, page := TakeLook(future, scan, looks[n], n == |looks| - 1);
        if ended {
          token := Token(scan, acked.states + states);
          Offer(token, hits);
          Told(hits, scan);
          return;
        }
        n := n + 1;
      }
    }

    lemma StartsQuiet()
      requires Valid()
      ensures QuietUpTo(acked.cursor)
    {
      assert Covered(acked.cursor);
      NoRecords(log, acked.cursor);
      GatheredIs([], acked.cursor);
    }

    lemma Told(hits: seq<Rec>, position: nat)
      requires Valid() && Gathered(hits, position)
      ensures Boundary(log, acked.cursor) && acked.cursor <= position <= |log|
      ensures hits == Hits(Records(log, acked.cursor, position), flagged)
      ensures NoneBeyond(position) ==> Records(log, position, |log|) == []
    {
      assert Covered(acked.cursor);
      GatheredIs(hits, position);
    }

    // The master acknowledges any token it was ever given.
    method Ack(token: Token)
      requires Valid() && token in offered
      modifies this`acked
      ensures Valid() && acked == token
      // nothing flagged before the acknowledged position was never returned
      ensures forall r <- Records(log, 0, acked.cursor) | flagged(r.raw) :: r in returned
    {
      acked := token;
      assert Covered(token.cursor);
    }
  }
}
