// Replacing a published directory by rename, resumable after an interruption anywhere.
//
// Directories are copied and removed one entry at a time. `budget` counts the filesystem
// operations the process still gets to make; every intermediate state goes to `trace`.
module PublishDir {
  import opened Prelude

  type Entries = map<string, string>

  // The published path: nothing, a directory, or a file or symlink.
  datatype Node = Absent | Dir(entries: Entries) | Single(content: string)

  // The published path and the three names beside it that belong to one attempt.
  datatype View = View(staging: Option<Entries>, marker: bool, dst: Node, backup: Option<Entries>)

  // A complete new version is staged.
  predicate Staged(v: View, src: Entries) {
    v.staging == Some(src) && v.marker
  }

  // Version `base` is still in place; the staging copy counts for nothing without its marker.
  predicate Untouched(v: View, base: Node, src: Entries) {
    && v.dst == base
    && (v.marker && v.staging.Some? ==> v.staging == Some(src))
    && (v.marker && v.staging.None? ==> base == Dir(src))
    && (v.backup.Some? ==> Staged(v, src))
  }

  // Version `base` has been moved away and the new one not yet moved in.
  predicate Swapping(v: View, base: Node, src: Entries) {
    && Staged(v, src) && v.dst == Absent
    && (base.Dir? ==> v.backup == Some(base.entries))
  }

  // The new version is in place.
  predicate Installed(v: View, src: Entries) {
    v.dst == Dir(src) && v.staging.None?
  }

  // Every state a call may leave behind. `prev` is what was published before the attempt.
  predicate Left(v: View, prev: Node, src: Entries) {
    || Untouched(v, prev, src) || Untouched(v, Dir(src), src)
    || Swapping(v, prev, src) || Swapping(v, Dir(src), src)
    || Installed(v, src)
  }

  // A path holds all of version n.
  predicate Complete(v: View, n: Node) {
    v.dst == n || (n.Dir? && (v.backup == Some(n.entries) || (v.staging == Some(n.entries) && v.marker)))
  }

  // An attempt may begin from any published version. In every state it can leave behind a
  // complete version exists if one was published before; and once the attempt's own version
  // has been in place, that version is complete in all later states.
  lemma AlwaysAVersion(v: View, prev: Node, src: Entries)
    ensures Left(View(None, false, prev, None), prev, src)
    ensures Left(v, prev, src) && prev != Absent ==> Complete(v, prev) || Complete(v, Dir(src))
    ensures Left(v, prev, src) && prev != Absent && v.dst == Absent ==> Staged(v, src)
    ensures Left(v, Dir(src), src) ==> Complete(v, Dir(src))
  {
  }

  datatype Outcome = Done | StepsError | Crashed
  datatype Removal = Gone | Stuck | Died

  class Publisher {
    const src: Entries
    ghost const prev: Node
    var staging: Option<Entries>
    var marker: bool
    var dst: Node
    var backup: Option<Entries>
    var budget: nat
    ghost var trace: seq<View>

    ghost function Now(): View
      reads this
    {
      View(staging, marker, dst, backup)
    }

    ghost predicate Valid()
      reads this
    {
      Left(Now(), prev, src) && forall v <- trace :: Left(v, prev, src)
    }

    constructor (src: Entries, start: View, ghost prev: Node)
      requires Left(start, prev, src)
      ensures Valid() && this.src == src && this.prev == prev && Now() == start && trace == []
    {
      this.src, this.prev := src, prev;
      staging, marker, dst, backup := start.staging, start.marker, start.dst, start.backup;
      trace := [];
    }

    method Alive() returns (up: bool)
      modifies this`budget
      ensures up == (old(budget) > 0) && budget == if up then old(budget) - 1 else 0
    {
      up := budget > 0;
      if up { budget := budget - 1; }
    }

    ghost method Note()
      requires Valid()
      modifies this`trace
      ensures Valid() && trace == old(trace) + [Now()]
    {
      trace := trace + [Now()];
    }

    // rmtree with errors ignored: every entry goes, or only some if anything `resists`; the
    // directory itself goes if it is empty.
    method RemoveFreshOnce(resists: bool) returns (up: bool)
      requires Valid() && staging.Some? && !marker
      modifies this`staging, this`budget, this`trace
      ensures Valid() && old(trace) <= trace
      ensures up && !resists ==> staging.None?
      ensures !up ==> budget == 0
    {
      var todo := staging.value.Keys;
      while todo != {}
        invariant Valid() && staging.Some? && todo <= staging.value.Keys && old(trace) <= trace
        invariant !resists ==> todo == staging.value.Keys
        decreases |todo|
      {
        var k :| k in todo;
        todo := todo - {k};
        var goes: bool := *;
        if goes || !resists {
          up := Alive();
          if !up { return; }
          staging := Some(staging.value - {k});
          Note();
        }
      }
      up := Alive();
      if up && staging.value == map[] {
        staging := None;
        Note();
      }
    }

    method RemoveFresh(resists: bool) returns (r: Removal)
      requires Valid() && staging.Some? && !marker
      modifies this`staging, this`budget, this`trace
      ensures Valid() && old(trace) <= trace
      ensures r == Gone ==> staging.None?
      ensures r == Stuck ==> staging.Some? && resists
      ensures r == Died ==> budget == 0
    {
      for i := 0 to 6
        invariant Valid() && staging.Some? && old(trace) <= trace && (i > 0 ==> resists)
      {
        var up := RemoveFreshOnce(resists);
        if !up { return Died; }
        if staging.None? { return Gone; }
      }
      r := Stuck;
    }

    // Removing the backup is allowed while a complete new version is staged or installed.
    ghost predicate BackupSpare()
      reads this
    {
      (Staged(Now(), src) && dst in {prev, Dir(src)}) || Installed(Now(), src)
    }

    method RemoveOldOnce(resists: bool) returns (up: bool)
      requires Valid() && BackupSpare() && backup.Some?
      modifies this`backup, this`budget, this`trace
      ensures Valid() && BackupSpare() && old(trace) <= trace
      ensures up && !resists ==> backup.None?
      ensures !up ==> budget == 0
    {
      var todo := backup.value.Keys;
      while todo != {}
        invariant Valid() && BackupSpare() && backup.Some? && todo <= backup.value.Keys && old(trace) <= trace
        invariant !resists ==> todo == backup.value.Keys
        decreases |todo|
      {
        var k :| k in todo;
        todo := todo - {k};
        var goes: bool := *;
        if goes || !resists {
          up := Alive();
          if !up { return; }
          backup := Some(backup.value - {k});
          Note();
        }
      }
      up := Alive();
      if up && backup.value == map[] {
        backup := None;
        Note();
      }
    }

    method RemoveOld(resists: bool) returns (r: Removal)
      requires Valid() && BackupSpare()
      modifies this`backup, this`budget, this`trace
      ensures Valid() && BackupSpare() && old(trace) <= trace
      ensures r == Gone ==> backup.None?
      ensures r == Stuck ==> backup.Some? && resists
      ensures r == Died ==> budget == 0
    {
      if backup.None? { return Gone; }
      for i := 0 to 6
        invariant Valid() && BackupSpare() && backup.Some? && old(trace) <= trace && (i > 0 ==> resists)
      {
        var up := RemoveOldOnce(resists);
        if !up { return Died; }
        if backup.None? { return Gone; }
      }
      r := Stuck;
    }

    method ClearMarker() returns (up: bool)
      requires Valid() && staging.None?
      modifies this`marker, this`budget, this`trace
      ensures Valid() && old(trace) <= trace
      ensures if up then !marker else budget == 0
    {
      up := Alive();
      if up {
        marker := false;
        Note();
      }
    }

    // The staging directory is made and filled entry by entry, still without its marker.
    method CopyEntries() returns (up: bool)
      requires Valid() && backup.None? && !marker && dst in {prev, Dir(src)}
      modifies this`staging, this`budget, this`trace
      ensures Valid() && old(trace) <= trace
      ensures if up then staging == Some(src) else budget == 0
    {
      up := true;
      staging := Some(map[]);
      Note();
      var todo := src.Keys;
      while todo != {}
        invariant Valid() && staging.Some? && !marker && old(trace) <= trace && todo <= src.Keys
        invariant staging.value == map k | k in src && k !in todo :: src[k]
        decreases |todo|
      {
        var k :| k in todo;
        up := Alive();
        if !up { return; }
        staging := Some(staging.value[k := src[k]]);
        todo := todo - {k};
        Note();
      }
      assert staging.value == src;
    }

    // Copy the source entry by entry, then mark the copy complete.
    method Stage() returns (up: bool)
      requires Valid() && staging.None? && backup.None? && dst in {prev, Dir(src)}
      modifies this`staging, this`marker, this`budget, this`trace
      ensures Valid() && old(trace) <= trace
      ensures if up then Staged(Now(), src) else budget == 0
    {
      up := ClearMarker();
      if !up { return; }
      up := Alive();
      if !up { return; }
      up := CopyEntries();
      if !up { return; }
      up := Alive();
      if !up { return; }
      marker := true;
      Note();
    }

    // Move what is published out of the way.
    method MoveAway(resists: bool) returns (r: Outcome)
      requires Valid() && Staged(Now(), src) && dst in {prev, Dir(src), Absent}
      modifies this`dst, this`backup, this`budget, this`trace
      ensures Valid() && old(trace) <= trace
      ensures r == Done ==> dst == Absent && backup == if old(dst).Dir? then Some(old(dst).entries) else old(backup)
      ensures r == StepsError ==> dst == old(dst) && backup.Some? && resists
      ensures r == Crashed ==> budget == 0
    {
      if dst.Single? {
        var up := Alive();
        if !up { return Crashed; }
        dst := Absent;
        Note();
      } else if dst.Dir? {
        var gone := RemoveOld(resists);
        if gone != Gone {
          return if gone == Stuck then StepsError else Crashed;
        }
        var up := Alive();
        if !up { return Crashed; }
        dst, backup := Absent, Some(dst.entries);
        Note();
      }
      r := Done;
    }

    // Move the staged version in and clean up as far as possible.
    method Install(resists: bool) returns (up: bool)
      requires Valid() && Staged(Now(), src) && dst == Absent
      modifies this`dst, this`staging, this`backup, this`marker, this`budget, this`trace
      ensures Valid() && old(trace) <= trace
      ensures if up then Installed(Now(), src) && !marker && (!resists ==> backup.None?) else budget == 0
    {
      up := Alive();
      if !up { return; }
      dst, staging := Dir(src), None;
      Note();
      var gone := RemoveOld(resists);
      if gone == Died { return false; }
      up := ClearMarker();
    }

    // Called in any state left by interrupted calls for this attempt. Every state on the
    // way is again one of them; a call that is not interrupted and not refused ends with
    // the destination equal to the source, and with nothing left over unless something
    // `resists` its removal, which is also the only cause of a refusal.
    method ReplaceDir(resists: bool) returns (r: Outcome)
      requires Valid()
      modifies this`dst, this`staging, this`backup, this`marker, this`budget, this`trace
      ensures Valid() && old(trace) <= trace
      ensures r == Done ==> dst == Dir(src) && staging.None? && !marker && (!resists ==> backup.None?)
      ensures r == StepsError ==> resists
      ensures r == StepsError ==> dst == old(dst) && ((old(staging).Some? && !old(marker) && staging.Some?) || backup.Some?)
      ensures r == Crashed ==> budget == 0
    {
      if staging.Some? && !marker {
        var gone := RemoveFresh(resists);
        if gone != Gone {
          return if gone == Stuck then StepsError else Crashed;
        }
      }
      if staging.None? {
        if backup.Some? && dst != Absent {
          var gone := RemoveOld(resists);
          if gone == Died { return Crashed; }
          var up := ClearMarker();
          return if up then Done else Crashed;
        }
        var up := Stage();
        if !up { return Crashed; }
      }
      r := MoveAway(resists);
      if r != Done { return; }
      var up := Install(resists);
      return if up then Done else Crashed;
    }
  }
}
