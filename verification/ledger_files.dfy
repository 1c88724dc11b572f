// The ledger as files: one record per attempt id, listed by creation stamp, with a cache of
// the listing that every save drops.
module LedgerFiles {
  import opened Prelude
  import opened AttemptLedger

  // `stamp` is the creation time; `body` is the rest of the record.
  datatype File = File(stamp: nat, id: nat, body: Rec)

  type Files = map<nat, File>

  predicate Before(a: File, b: File) {
    a.stamp < b.stamp || (a.stamp == b.stamp && a.id < b.id)
  }

  predicate Ordered(list: seq<File>) {
    forall i, j | 0 <= i < j < |list| :: Before(list[i], list[j])
  }

  // Every file once, in creation order.
  ghost predicate Lists(files: Files, list: seq<File>) {
    && Ordered(list)
    && (forall f <- list :: f.id in files && files[f.id] == f)
    && (forall id <- files :: files[id].id == id && files[id] in list)
  }

  // There is only one such listing, so two readers of the same files agree.
  lemma {:induction false} OneListing(files: Files, a: seq<File>, b: seq<File>)
    requires Lists(files, a) && Lists(files, b)
    ensures a == b
    decreases |a|
  {
    BothEmpty(files, a, b);
    if a != [] {
      SameFirst(files, a, b);
      var rest := files - {a[0].id};
      TailLists(files, a);
      TailLists(files, b);
      OneListing(rest, a[1..], b[1..]);
      assert a == [a[0]] + a[1..] && b == [b[0]] + b[1..];
    }
  }

  lemma BothEmpty(files: Files, a: seq<File>, b: seq<File>)
    requires Lists(files, a) && Lists(files, b)
    ensures a == [] <==> b == []
  {
    assert a != [] ==> a[0] in a;
    assert b != [] ==> b[0] in b;
  }

  lemma SameFirst(files: Files, a: seq<File>, b: seq<File>)
    requires Lists(files, a) && Lists(files, b) && a != []
    ensures b != [] && a[0] == b[0]
  {
    assert a[0] in a && a[0] in b;
    assert b[0] in b && b[0] in a;
  }

  lemma TailLists(files: Files, list: seq<File>)
    requires Lists(files, list) && list != []
    ensures Lists(files - {list[0].id}, list[1..])
  {
    var rest, tail := files - {list[0].id}, list[1..];
    forall i, j | 0 <= i < j < |tail| ensures Before(tail[i], tail[j]) {
      assert tail[i] == list[i + 1] && tail[j] == list[j + 1];
    }
    forall f <- tail ensures f.id in rest && rest[f.id] == f {
      var k :| 0 <= k < |tail| && tail[k] == f;
      assert list[k + 1] == f && Before(list[0], list[k + 1]);
      assert list[0] in list && f in list;
    }
    forall id <- rest ensures rest[id].id == id && rest[id] in tail {
      var k :| 0 <= k < |list| && list[k] == files[id];
      assert k > 0 ==> tail[k - 1] == files[id];
    }
  }

  function Bodies(list: seq<File>): Ledger {
    seq(|list|, i requires 0 <= i < |list| => list[i].body)
  }

  // A record stamped after all others is listed last: saving it appends to the ledger.
  lemma NewIsLast(files: Files, list: seq<File>, f: File)
    requires Lists(files, list) && f.id !in files && forall g <- list :: g.stamp < f.stamp
    ensures Lists(files[f.id := f], list + [f]) && Bodies(list + [f]) == Bodies(list) + [f.body]
  {
    var files', list' := files[f.id := f], list + [f];
    forall i, j | 0 <= i < j < |list'| ensures Before(list'[i], list'[j]) {
      assert list[i] in list;
    }
    assert f in list';
    forall id <- files ensures files'[id] in list' {
      assert files[id] in list;
    }
  }

  // Saving a record again keeps its place.
  lemma SavedInPlace(files: Files, list: seq<File>, i: nat, f: File)
    requires Lists(files, list) && i < |list| && f.id == list[i].id && f.stamp == list[i].stamp
    ensures Lists(files[f.id := f], list[i := f]) && Bodies(list[i := f]) == Bodies(list)[i := f.body]
  {
    var files', list' := files[f.id := f], list[i := f];
    assert list[i] in list && list'[i] in list';
    forall a, b | 0 <= a < b < |list'| ensures Before(list'[a], list'[b]) {
      assert Before(list[a], list[b]);
    }
    forall g <- list' ensures g.id in files' && files'[g.id] == g {
      var k :| 0 <= k < |list'| && list'[k] == g;
      if k != i {
        assert list[k] in list && (Before(list[k], list[i]) || Before(list[i], list[k]));
      }
    }
    forall id <- files' ensures files'[id].id == id && files'[id] in list' {
      if id != f.id {
        var k :| 0 <= k < |list| && list[k] == files[id];
        assert k != i && list'[k] == files[id];
      }
    }
  }

  // Where a file goes in an ordered listing.
  function Insert(list: seq<File>, f: File): seq<File> {
    if list == [] || Before(f, list[0]) then [f] + list else [list[0]] + Insert(list[1..], f)
  }

  lemma {:induction false} InsertOrders(list: seq<File>, f: File)
    requires Ordered(list) && forall g <- list :: g.id != f.id
    ensures Ordered(Insert(list, f)) && forall g :: g in Insert(list, f) <==> g in list || g == f
    ensures Insert(list, f) != [] && (Insert(list, f)[0] == f || (list != [] && Insert(list, f)[0] == list[0]))
  {
    if list != [] && !Before(f, list[0]) {
      var rest := list[1..];
      assert list == [list[0]] + rest;
      assert list[0] in list && forall g <- rest :: g in list;
      forall i, j | 0 <= i < j < |rest| ensures Before(rest[i], rest[j]) {
        assert rest[i] == list[i + 1] && rest[j] == list[j + 1];
      }
      InsertOrders(rest, f);
      var tail := Insert(rest, f);
      forall j | 0 <= j < |tail| ensures Before(list[0], tail[j]) {
        assert tail[j] in tail;
        if tail[j] in rest {
          var k :| 0 <= k < |rest| && rest[k] == tail[j];
          assert list[k + 1] == tail[j];
        }
      }
    }
  }

  class LedgerStore {
    var files: Files
    var cache: Option<seq<File>>

    ghost predicate Valid()
      reads this
    {
      && (forall id <- files :: files[id].id == id)
      && (cache.Some? ==> Lists(files, cache.value))
    }

    constructor ()
      ensures Valid() && files == map[]
    {
      files, cache := map[], None;
    }

    // Read every file and sort.
    method ReadAll() returns (list: seq<File>)
      requires forall id <- files :: files[id].id == id
      ensures Lists(files, list)
    {
      list := [];
      var todo := files.Keys;
      while todo != {}
        invariant todo <= files.Keys && Ordered(list)
        invariant forall f <- list :: f.id in files && f.id !in todo && files[f.id] == f
        invariant forall id <- files | id !in todo :: files[id] in list
        decreases |todo|
      {
        var id :| id in todo;
        InsertOrders(list, files[id]);
        list := Insert(list, files[id]);
        todo := todo - {id};
      }
    }

    // What a query works on: the files as they are now, cached or not.
    method All() returns (list: seq<File>)
      requires Valid()
      modifies this`cache
      ensures Valid() && Lists(files, list)
    {
      if cache.None? {
        list := ReadAll();
        cache := Some(list);
      } else {
        list := cache.value;
      }
    }

    // Write one record and drop the cache; the rebuilt index reads the files again.
    method Save(f: File)
      requires Valid()
      modifies this
      ensures Valid() && files == old(files)[f.id := f]
    {
      files := files[f.id := f];
      cache := None;
      var _ := All();
    }

    // The last attempt of a step, straight from the files.
    method LatestFile(step: nat) returns (latest: Option<File>)
      requires Valid()
      modifies this`cache
      ensures Valid()
      ensures latest.None? ==> forall id <- files :: files[id].body.step != step
      ensures latest.Some? ==> latest.value.id in files && files[latest.value.id] == latest.value && latest.value.body.step == step
                                 && forall id <- files | files[id].body.step == step :: files[id] == latest.value || Before(files[id], latest.value)
    {
      var list := All();
      var i: nat := |list|;
      while i > 0
        invariant i <= |list|
        invariant forall k | i <= k < |list| :: list[k].body.step != step
      {
        i := i - 1;
        if list[i].body.step == step {
          assert list[i] in list;
          return Some(list[i]);
        }
      }
      latest := None;
    }
  }
}
