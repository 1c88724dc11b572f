// Reading the audit log by byte offset: forward in pages, and backwards from the end.
module EventPages {

  // One char stands for one byte.
  type Bytes = string

  const NEWLINE := '\n'

  // An event as it stands in the log: where its line starts, and the line. Decoding a line
  // (or reporting it as malformed, with its offset) depends on nothing else.
  datatype Rec = Rec(offset: nat, raw: Bytes)

  predicate Space(c: char) {
    c in {' ', '\t', '\r', 11 as char, 12 as char, NEWLINE}
  }

  predicate Blank(line: Bytes) {
    forall c <- line :: Space(c)
  }

  // Spaces, and the controls from tab to carriage return.
  lemma BlankIs(line: Bytes)
    ensures Blank(line) <==> forall k | 0 <= k < |line| :: line[k] as int == 32 || 9 <= line[k] as int <= 13
  {
    forall c: char ensures Space(c) <==> c as int == 32 || 9 <= c as int <= 13 {
    }
    if Blank(line) {
      forall k | 0 <= k < |line| ensures line[k] as int == 32 || 9 <= line[k] as int <= 13 {
        assert Space(line[k]);
      }
    }
  }

  // Where the line that starts at p ends: its newline, or the end of the log.
  function LineEnd(log: Bytes, p: nat): (i: nat)
    requires p <= |log|
    ensures p <= i <= |log| && (i < |log| ==> log[i] == NEWLINE)
    ensures forall k | p <= k < i :: log[k] != NEWLINE
    decreases |log| - p
  {
    if p == |log| || log[p] == NEWLINE then p else LineEnd(log, p + 1)
  }

  // A line starts at k.
  predicate Boundary(log: Bytes, k: nat) {
    k <= |log| && (k == 0 || log[k - 1] == NEWLINE)
  }

  // The end of the last complete line.
  function CompleteEnd(log: Bytes): (e: nat)
    ensures Boundary(log, e) && forall k | e <= k < |log| :: log[k] != NEWLINE
  {
    if log == "" || log[|log| - 1] == NEWLINE then |log| else
    CompleteEnd(log[..|log| - 1])
  }

  function Entry(log: Bytes, p: nat, i: nat): seq<Rec>
    requires p <= i <= |log|
  {
    if Blank(log[p..i]) then [] else [Rec(p, log[p..i])]
  }

  // The non-blank lines that start at or after p and are complete before q.
  function Records(log: Bytes, p: nat, q: nat): seq<Rec>
    requires p <= q <= |log|
    decreases q - p
  {
    var i := LineEnd(log, p);
    if i >= q then [] else Entry(log, p, i) + Records(log, i + 1, q)
  }

  // The complete lines from p on: what split(b"\n")[:-1] makes of the data.
  function Lines(log: Bytes, p: nat): seq<Bytes>
    requires p <= |log|
    decreases |log| - p
  {
    var i := LineEnd(log, p);
    if i == |log| then [] else [log[p..i]] + Lines(log, i + 1)
  }

  lemma Assoc<T>(a: seq<T>, b: seq<T>, c: seq<T>)
    ensures a + (b + c) == (a + b) + c
  {
  }

  lemma FirstRecord(log: Bytes, p: nat, q: nat)
    requires p <= q <= |log| && LineEnd(log, p) < q
    ensures Records(log, p, q) == Entry(log, p, LineEnd(log, p)) + Records(log, LineEnd(log, p) + 1, q)
  {
  }

  lemma LineEndsBefore(log: Bytes, p: nat, k: nat)
    requires p < k && Boundary(log, k)
    ensures LineEnd(log, p) < k
  {
  }

  lemma NoRecords(log: Bytes, p: nat)
    requires p <= |log|
    ensures Records(log, p, p) == []
  {
  }

  // Records split at any line boundary.
  lemma {:induction false} RecordsSplit(log: Bytes, p: nat, k: nat, q: nat)
    requires p <= k <= q <= |log| && (p == k || Boundary(log, k))
    ensures Records(log, p, q) == Records(log, p, k) + Records(log, k, q)
    decreases q - p
  {
    if p == k {
      NoRecords(log, p);
    } else {
      var i := LineEnd(log, p);
      LineEndsBefore(log, p, k);
      RecordsSplit(log, i + 1, k, q);
      FirstRecord(log, p, q);
      FirstRecord(log, p, k);
      Assoc(Entry(log, p, i), Records(log, i + 1, k), Records(log, k, q));
    }
  }

  lemma {:induction false} LineEndStays(log: Bytes, log': Bytes, p: nat)
    requires p <= |log| && log <= log'
    ensures LineEnd(log', p) >= LineEnd(log, p)
    ensures LineEnd(log, p) < |log| ==> LineEnd(log', p) == LineEnd(log, p)
    decreases |log| - p
  {
    if p < |log| && log[p] != NEWLINE {
      LineEndStays(log, log', p + 1);
    }
  }

  lemma FirstRecordStays(log: Bytes, log': Bytes, p: nat, q: nat)
    requires p <= q <= |log| && log <= log'
    ensures LineEnd(log, p) < q ==> LineEnd(log', p) == LineEnd(log, p) && Entry(log', p, LineEnd(log, p)) == Entry(log, p, LineEnd(log, p))
    ensures LineEnd(log, p) >= q ==> LineEnd(log', p) >= q
  {
    LineEndStays(log, log', p);
    assert log'[p..LineEnd(log, p)] == log[p..LineEnd(log, p)];
  }

  lemma RecordsBeyond(log: Bytes, p: nat, q: nat)
    requires p <= q <= |log| && LineEnd(log, p) >= q
    ensures Records(log, p, q) == []
  {
  }

  // A complete line of the log with something in it, starting at or after p and ending before q.
  predicate IsRecord(log: Bytes, p: nat, q: nat, r: Rec)
    requires p <= q <= |log|
  {
    var end := r.offset + |r.raw|;
    && p <= r.offset && (r.offset == p || Boundary(log, r.offset)) && end < q
    && log[r.offset..end] == r.raw && log[end] == NEWLINE && NEWLINE !in r.raw && !Blank(r.raw)
  }

  predicate Ascending(records: seq<Rec>) {
    forall i, j | 0 <= i < j < |records| :: records[i].offset < records[j].offset
  }

  lemma StillAscending(a: seq<Rec>, b: seq<Rec>, end: nat)
    requires |a| <= 1 && Ascending(b) && (forall r <- a :: r.offset <= end) && forall r <- b :: r.offset > end
    ensures Ascending(a + b)
  {
  }

  lemma LineFrom(log: Bytes, p: nat, q: nat, r: Rec)
    requires p <= q <= |log| && IsRecord(log, p, q, r) && r.offset == p
    ensures LineEnd(log, p) == p + |r.raw|
  {
    assert forall k | p <= k < p + |r.raw| :: log[k] == r.raw[k - p];
  }

  // The records are exactly the non-blank complete lines, in the order of the log.
  lemma {:induction false} RecordsAreExact(log: Bytes, p: nat, q: nat)
    requires p <= q <= |log|
    ensures forall r :: r in Records(log, p, q) <==> IsRecord(log, p, q, r)
    ensures Ascending(Records(log, p, q))
    decreases q - p
  {
    var end := LineEnd(log, p);
    if end < q {
      RecordsAreExact(log, end + 1, q);
      forall r ensures r in Records(log, p, q) <==> IsRecord(log, p, q, r) {
        FirstOrLater(log, p, q, r);
      }
      StillAscending(Entry(log, p, end), Records(log, end + 1, q), end);
    } else {
      forall r ensures !IsRecord(log, p, q, r) {
        NoneBeforeLineEnd(log, p, q, r);
      }
    }
  }

  lemma NoneBeforeLineEnd(log: Bytes, p: nat, q: nat, r: Rec)
    requires p <= q <= |log| && LineEnd(log, p) >= q
    ensures !IsRecord(log, p, q, r)
  {
  }

  lemma FirstOrLater(log: Bytes, p: nat, q: nat, r: Rec)
    requires p <= q <= |log| && LineEnd(log, p) < q
    ensures IsRecord(log, p, q, r) <==> r in Entry(log, p, LineEnd(log, p)) || IsRecord(log, LineEnd(log, p) + 1, q, r)
  {
    if r.offset == p {
      FirstIs(log, p, q, r);
    } else {
      LaterIs(log, p, q, r);
    }
  }

  lemma FirstIs(log: Bytes, p: nat, q: nat, r: Rec)
    requires p <= q <= |log| && LineEnd(log, p) < q && r.offset == p
    ensures IsRecord(log, p, q, r) <==> r in Entry(log, p, LineEnd(log, p))
  {
    if IsRecord(log, p, q, r) {
      LineFrom(log, p, q, r);
    }
  }

  lemma LaterIs(log: Bytes, p: nat, q: nat, r: Rec)
    requires p <= q <= |log| && LineEnd(log, p) < q && r.offset != p
    ensures IsRecord(log, p, q, r) <==> IsRecord(log, LineEnd(log, p) + 1, q, r)
  {
    if p < r.offset && Boundary(log, r.offset) {
      LineEndsBefore(log, p, r.offset);
    }
  }

  // An append leaves the records before it alone.
  lemma {:induction false} RecordsStay(log: Bytes, log': Bytes, p: nat, q: nat)
    requires p <= q <= |log| && log <= log'
    ensures Records(log', p, q) == Records(log, p, q)
    decreases q - p
  {
    FirstRecordStays(log, log', p, q);
    if LineEnd(log, p) < q {
      FirstRecord(log, p, q);
      FirstRecord(log', p, q);
      RecordsStay(log, log', LineEnd(log, p) + 1, q);
    } else {
      RecordsBeyond(log, p, q);
      RecordsBeyond(log', p, q);
    }
  }

  // No line is complete beyond the last newline.
  lemma NothingAfterComplete(log: Bytes, p: nat)
    requires p <= |log| && forall k | p <= k < |log| :: log[k] != NEWLINE
    ensures Records(log, p, |log|) == []
  {
  }

  // ------------------------------------------------------------------ one page

  // What one call of events_after returns for a cursor within the log.
  ghost predicate IsPage(log: Bytes, cursor: nat, limit: nat, events: seq<Rec>, position: nat) {
    && cursor <= position <= |log|
    && (position == cursor || Boundary(log, position))
    && events == Records(log, cursor, position)
    && |events| <= limit
    // short of its limit, the page reaches the end of the complete lines
    && (|events| < limit ==> forall k | position <= k < |log| :: log[k] != NEWLINE)
  }

  datatype PageResult = BadCursor | Page(events: seq<Rec>, cursor: nat, truncated: bool)

  // Reading one more line.
  lemma NextLine(log: Bytes, cursor: nat, position: nat)
    requires cursor <= position <= |log| && (position == cursor || Boundary(log, position)) && LineEnd(log, position) < |log|
    ensures var end := LineEnd(log, position);
            && Boundary(log, end + 1)
            && Records(log, cursor, end + 1) == Records(log, cursor, position) + Entry(log, position, end)
            && Lines(log, position) == [log[position..end]] + Lines(log, end + 1)
  {
    var end := LineEnd(log, position);
    RecordsSplit(log, cursor, position, end + 1);
    FirstRecord(log, position, end + 1);
    NoRecords(log, end + 1);
  }

  // rfind(b"\n"): the index of the last newline, or -1.
  function RFind(data: Bytes): (end: int)
    ensures -1 <= end < |data| && (end >= 0 ==> data[end] == NEWLINE)
    ensures forall k | end < k < |data| :: data[k] != NEWLINE
  {
    if data == "" then -1
    else if data[|data| - 1] == NEWLINE then |data| - 1
    else RFind(data[..|data| - 1])
  }

  // The bytes read from pos on have the log's lines from pos on.
  lemma {:induction false} LineEndFrom(log: Bytes, pos: nat, p: nat)
    requires pos + p <= |log|
    ensures LineEnd(log[pos..], p) + pos == LineEnd(log, pos + p)
    decreases |log| - p
  {
    if pos + p < |log| && log[pos + p] != NEWLINE {
      LineEndFrom(log, pos, p + 1);
    }
  }

  lemma {:induction false} LinesFrom(log: Bytes, pos: nat, p: nat)
    requires pos + p <= |log|
    ensures Lines(log[pos..], p) == Lines(log, pos + p)
    decreases |log| - p
  {
    LineEndFrom(log, pos, p);
    var i := LineEnd(log[pos..], p);
    if pos + i < |log| {
      LinesFrom(log, pos, i + 1);
      assert log[pos..][p..i] == log[pos + p..pos + i];
    }
  }

  // Cutting off what follows the last newline costs no line.
  lemma {:induction false} CompleteLines(data: Bytes, e: nat, p: nat)
    requires p <= e <= |data| && Boundary(data, e) && forall k | e <= k < |data| :: data[k] != NEWLINE
    ensures Lines(data[..e], p) == Lines(data, p)
    decreases |data| - p
  {
    var i := LineEnd(data, p);
    LineEndStays(data[..e], data, p);
    if i < |data| {
      CompleteLines(data, e, i + 1);
      assert data[..e][p..i] == data[p..i];
    }
  }

  // What both readers do with the bytes they have read: cut at the last newline, split.
  method CutAndSplit(ghost log: Bytes, ghost pos: nat, data: Bytes) returns (end: int, lines: seq<Bytes>)
    requires pos <= |log| && data == log[pos..]
    ensures end == RFind(data) && lines == Lines(log, pos)
  {
    end := RFind(data);
    SplitsToLines(log, pos);
    lines := Lines(if end >= 0 then data[..end + 1] else "", 0);
  }

  lemma SplitsToLines(log: Bytes, pos: nat)
    requires pos <= |log|
    ensures var data := log[pos..]; var end := RFind(data);
            Lines(if end >= 0 then data[..end + 1] else "", 0) == Lines(log, pos)
  {
    var data := log[pos..];
    CompleteLines(data, RFind(data) + 1, 0);
    LinesFrom(log, pos, 0);
    assert data[..0] == "";
  }

  // The lines with their newlines back.
  function Text(lines: seq<Bytes>): Bytes {
    if lines == [] then "" else lines[0] + [NEWLINE] + Text(lines[1..])
  }

  // Put together again the lines are the log up to its last newline, and none has one in it.
  lemma {:induction false} LinesAreTheLog(log: Bytes, p: nat)
    requires p <= |log|
    ensures Text(Lines(log, p)) == if p <= CompleteEnd(log) then log[p..CompleteEnd(log)] else ""
    ensures forall line <- Lines(log, p) :: NEWLINE !in line
    decreases |log| - p
  {
    var i, e := LineEnd(log, p), CompleteEnd(log);
    if i < |log| {
      LinesAreTheLog(log, i + 1);
      assert i < e;
      assert log[p..i] + [NEWLINE] + log[i + 1..e] == log[p..e];
    } else if p <= e {
      assert log[p..e] == "";
    }
  }

  // A cursor beyond the end means that the log was replaced.
  method EventsAfter(log: Bytes, cursor: nat, limit: nat) returns (r: PageResult)
    ensures r.BadCursor? <==> cursor > |log|
    ensures r.Page? ==> IsPage(log, cursor, limit, r.events, r.cursor)
    ensures r.Page? ==> (r.truncated <==> LineEnd(log, r.cursor) < |log|)
    ensures r.Page? && r.truncated ==> |r.events| == limit
  {
    if cursor > |log| {
      return BadCursor;
    }
    var _, lines := CutAndSplit(log, cursor, log[cursor..]);
    var events, position, rest := TakeLines(log, cursor, limit, lines);
    if rest != [] {
      ScanPaused(log, cursor, limit, position, events, rest);
    } else {
      ScanOver(log, cursor, limit, position, events);
    }
    r := Page(events, position, rest != []);
  }

  // The lines one by one, until the page is full or none is left.
  method TakeLines(ghost log: Bytes, cursor: nat, limit: nat, lines: seq<Bytes>)
    returns (events: seq<Rec>, position: nat, rest: seq<Bytes>)
    requires cursor <= |log| && lines == Lines(log, cursor)
    ensures Scanned(log, cursor, limit, position, events, rest) && (rest == [] || |events| >= limit)
  {
    events, position, rest := [], cursor, lines;
    ScanStarts(log, cursor, limit);
    while rest != [] && |events| < limit
      invariant Scanned(log, cursor, limit, position, events, rest)
      decreases |rest|
    {
      var raw := rest[0];
      ScanOn(log, cursor, limit, position, events, rest);
      events := if Blank(raw) then events else events + [Rec(position, raw)];
      position, rest := position + |raw| + 1, rest[1..];
    }
  }

  // How far a page's scan has got, and the lines it has still before it. Said of the whole
  // of `lines`, so that they are unrolled only where a proof asks for them.
  ghost predicate Scanned(log: Bytes, cursor: nat, limit: nat, position: nat, events: seq<Rec>, lines: seq<Bytes>) {
    forall n | n == |lines| :: ScannedTo(log, cursor, limit, position, events, lines[..n])
  }

  predicate ScannedTo(log: Bytes, cursor: nat, limit: nat, position: nat, events: seq<Rec>, lines: seq<Bytes>) {
    && cursor <= position <= |log| && (position == cursor || Boundary(log, position))
    && lines == Lines(log, position)
    && |events| <= limit && events == Records(log, cursor, position)
  }

  lemma ScannedIs(log: Bytes, cursor: nat, limit: nat, position: nat, events: seq<Rec>, lines: seq<Bytes>)
    ensures Scanned(log, cursor, limit, position, events, lines) <==> ScannedTo(log, cursor, limit, position, events, lines)
  {
    assert lines[..|lines|] == lines;
  }

  lemma ScanStarts(log: Bytes, cursor: nat, limit: nat)
    requires cursor <= |log|
    ensures Scanned(log, cursor, limit, cursor, [], Lines(log, cursor))
  {
    NoRecords(log, cursor);
    ScannedIs(log, cursor, limit, cursor, [], Lines(log, cursor));
  }

  lemma ScanOn(log: Bytes, cursor: nat, limit: nat, position: nat, events: seq<Rec>, lines: seq<Bytes>)
    requires Scanned(log, cursor, limit, position, events, lines) && lines != [] && |events| < limit
    ensures var raw := lines[0];
            Scanned(log, cursor, limit, position + |raw| + 1, if Blank(raw) then events else events + [Rec(position, raw)], lines[1..])
  {
    var raw := lines[0];
    ScannedIs(log, cursor, limit, position, events, lines);
    NextLine(log, cursor, position);
    ScannedIs(log, cursor, limit, position + |raw| + 1, if Blank(raw) then events else events + [Rec(position, raw)], lines[1..]);
  }

  lemma ScanPaused(log: Bytes, cursor: nat, limit: nat, position: nat, events: seq<Rec>, lines: seq<Bytes>)
    requires Scanned(log, cursor, limit, position, events, lines) && lines != [] && |events| >= limit
    ensures IsPage(log, cursor, limit, events, position) && LineEnd(log, position) < |log| && |events| == limit
  {
    ScannedIs(log, cursor, limit, position, events, lines);
  }

  lemma ScanOver(log: Bytes, cursor: nat, limit: nat, position: nat, events: seq<Rec>)
    requires Scanned(log, cursor, limit, position, events, [])
    ensures IsPage(log, cursor, limit, events, position) && LineEnd(log, position) == |log|
  {
    ScannedIs(log, cursor, limit, position, events, []);
  }

  // ---------------------------------------------------------------- many pages

  // One call: the log as it was then, and the limit given.
  datatype Call = Call(log: Bytes, limit: nat, events: seq<Rec>, position: nat)

  // Each call starts at the previous call's cursor, on a log that has only grown.
  ghost predicate Follows(calls: seq<Call>, cursor: nat)
    decreases |calls|
  {
    calls == [] ||
    (IsPage(calls[0].log, cursor, calls[0].limit, calls[0].events, calls[0].position)
     && (|calls| > 1 ==> calls[0].log <= calls[1].log)
     && Follows(calls[1..], calls[0].position))
  }

  function Collected(calls: seq<Call>): seq<Rec> {
    if calls == [] then [] else calls[0].events + Collected(calls[1..])
  }

  lemma {:induction false} LogsGrow(calls: seq<Call>, cursor: nat)
    requires calls != [] && Follows(calls, cursor)
    ensures calls[0].log <= calls[|calls| - 1].log
    ensures cursor <= calls[|calls| - 1].position <= |calls[|calls| - 1].log|
    decreases |calls|
  {
    if |calls| > 1 {
      LogsGrow(calls[1..], calls[0].position);
    }
  }

  // Following the cursor with any limits while the log grows is one scan: what has been
  // collected is, in order and once each, exactly the complete records between the first
  // cursor and the last; and the last page that stays below its limit leaves none behind.
  lemma {:induction false} PagingIsOneScan(calls: seq<Call>, cursor: nat)
    requires calls != [] && Follows(calls, cursor)
    ensures var last := calls[|calls| - 1];
            && cursor <= last.position <= |last.log|
            && (last.position == cursor || Boundary(last.log, last.position))
            && Collected(calls) == Records(last.log, cursor, last.position)
            && (|last.events| < last.limit ==> Collected(calls) == Records(last.log, cursor, |last.log|))
    decreases |calls|
  {
    var first, last := calls[0], calls[|calls| - 1];
    LogsGrow(calls, cursor);
    RecordsStay(first.log, last.log, cursor, first.position);
    if |calls| == 1 {
      assert Collected(calls[1..]) == [];
    } else {
      PagingIsOneScan(calls[1..], first.position);
      assert Boundary(last.log, first.position) || first.position == cursor;
      RecordsSplit(last.log, cursor, first.position, last.position);
    }
    RecordsSplit(last.log, cursor, last.position, |last.log|);
    if |last.events| < last.limit {
      AtTheEnd(calls, cursor);
      NothingAfterComplete(last.log, last.position);
    }
  }

  lemma {:induction false} AtTheEnd(calls: seq<Call>, cursor: nat)
    requires calls != [] && Follows(calls, cursor) && |calls[|calls| - 1].events| < calls[|calls| - 1].limit
    ensures var last := calls[|calls| - 1];
            forall k | last.position <= k < |last.log| :: last.log[k] != NEWLINE
    decreases |calls|
  {
    if |calls| > 1 {
      AtTheEnd(calls[1..], calls[0].position);
    }
  }

  // A page with a positive limit makes progress while there are records.
  lemma PagesProgress(log: Bytes, cursor: nat, limit: nat, events: seq<Rec>, position: nat)
    requires IsPage(log, cursor, limit, events, position) && limit > 0 && Records(log, cursor, |log|) != []
    ensures events != [] && position > cursor
  {
    if events == [] {
      RecordsSplit(log, cursor, position, |log|);
      NothingAfterComplete(log, position);
    }
  }

  // ------------------------------------------------------------ from the end

  const CHUNK := 65536

  function Count(log: Bytes, p: nat): nat
    requires p <= |log|
    decreases |log| - p
  {
    if p == |log| then 0 else Count(log, p + 1) + if log[p] == NEWLINE then 1 else 0
  }

  // lines[-n:]; for n == 0 that is everything.
  function LastN<T>(xs: seq<T>, n: nat): seq<T> {
    if n == 0 || n > |xs| then xs else xs[|xs| - n..]
  }

  lemma {:induction false} CountToLineEnd(log: Bytes, p: nat)
    requires p <= |log|
    ensures LineEnd(log, p) < |log| ==> Count(log, p) == Count(log, LineEnd(log, p) + 1) + 1
    ensures LineEnd(log, p) == |log| ==> Count(log, p) == 0
    decreases |log| - p
  {
    if p < |log| && log[p] != NEWLINE {
      CountToLineEnd(log, p + 1);
    }
  }

  lemma {:induction false} CountIsLines(log: Bytes, p: nat)
    requires p <= |log|
    ensures Count(log, p) == |Lines(log, p)|
    decreases |log| - p
  {
    CountToLineEnd(log, p);
    if LineEnd(log, p) < |log| {
      CountIsLines(log, LineEnd(log, p) + 1);
    }
  }

  lemma {:induction false} SameLineEnd(log: Bytes, p: nat, q: nat)
    requires p <= |log| && p <= q <= LineEnd(log, p)
    ensures LineEnd(log, q) == LineEnd(log, p)
    decreases q - p
  {
    if p < q {
      SameLineEnd(log, p + 1, q);
    }
  }

  // Reading from q instead of p costs at most the beginning of one line.
  lemma {:induction false} LinesSuffix(log: Bytes, p: nat, q: nat)
    requires p <= q <= |log|
    ensures var a, b := Lines(log, p), Lines(log, q);
            |b| <= |a| && (b != [] ==> a[|a| - |b| + 1..] == b[1..])
    decreases |log| - p
  {
    var i := LineEnd(log, p);
    if q <= i {
      SameLineEnd(log, p, q);
    } else {
      LinesSuffix(log, i + 1, q);
    }
  }

  lemma SuffixLastN<T>(a: seq<T>, b: seq<T>, n: nat)
    requires 0 < n < |b| <= |a| && a[|a| - |b| + 1..] == b[1..]
    ensures LastN(b, n) == LastN(a, n)
  {
    var k := |b| - 1 - n;
    assert b[1..][k..] == b[|b| - n..];
    assert a[|a| - |b| + 1..][k..] == a[|a| - n..];
  }

  // A suffix with more than n newlines holds the last n lines whole.
  lemma SuffixHoldsLastLines(log: Bytes, pos: nat, n: nat)
    requires pos <= |log| && n > 0 && (pos == 0 || Count(log, pos) > n)
    ensures LastN(Lines(log, pos), n) == LastN(Lines(log, 0), n)
  {
    if pos > 0 {
      CountIsLines(log, pos);
      LinesSuffix(log, 0, pos);
      SuffixLastN(Lines(log, 0), Lines(log, pos), n);
    }
  }

  lemma {:induction false} CountFrom(log: Bytes, pos: nat, p: nat)
    requires pos + p <= |log|
    ensures Count(log[pos..], p) == Count(log, pos + p)
    decreases |log| - p
  {
    if pos + p < |log| {
      CountFrom(log, pos, p + 1);
    }
  }

  // No newline was read exactly when none is counted.
  lemma {:induction false} CountZero(log: Bytes, p: nat)
    requires p <= |log|
    ensures Count(log, p) == 0 <==> forall k | p <= k < |log| :: log[k] != NEWLINE
    decreases |log| - p
  {
    if p < |log| {
      CountZero(log, p + 1);
    }
  }

  lemma CompleteEndIs(log: Bytes, e: nat)
    requires Boundary(log, e) && forall k | e <= k < |log| :: log[k] != NEWLINE
    ensures CompleteEnd(log) == e
  {
    var c := CompleteEnd(log);
    assert c > 0 ==> log[c - 1] == NEWLINE;
    assert e > 0 ==> log[e - 1] == NEWLINE;
  }

  // The last newline of the bytes read, as a position in the log.
  lemma RFindFrom(log: Bytes, pos: nat)
    requires pos <= |log|
    ensures var end := RFind(log[pos..]);
            && (end >= 0 ==> Boundary(log, pos + end + 1))
            && forall k | pos + end + 1 <= k < |log| :: log[k] != NEWLINE
  {
    var data := log[pos..];
    assert forall k | pos <= k < |log| :: log[k] == data[k - pos];
  }

  // The position computed from the bytes read is the end of the log's complete lines.
  lemma CursorIsCompleteEnd(log: Bytes, pos: nat)
    requires pos <= |log| && (pos == 0 || Count(log, pos) > 0)
    ensures var data := log[pos..]; var end := RFind(data);
            CompleteEnd(log) == if end >= 0 then |log| - (|data| - end - 1) else 0
  {
    var end := RFind(log[pos..]);
    RFindFrom(log, pos);
    CountZero(log, pos);
    CompleteEndIs(log, if end >= 0 then pos + end + 1 else 0);
  }

  lemma OneChunkMore(log: Bytes, p: nat, q: nat)
    requires p <= q <= |log|
    ensures log[p..q] + log[q..] == log[p..]
  {
  }

  // Read backwards, chunk by chunk, until more than n newlines are in or the log is used up.
  method ReadBack(log: Bytes, n: nat) returns (pos: nat, data: Bytes)
    ensures pos <= |log| && data == log[pos..]
    ensures pos == 0 || Count(log, pos) > n
  {
    pos, data := |log|, "";
    while pos > 0 && Count(data, 0) <= n
      invariant pos <= |log| && data == log[pos..]
      decreases pos
    {
      var step := if CHUNK < pos then CHUNK else pos;
      OneChunkMore(log, pos - step, pos);
      pos, data := pos - step, log[pos - step..pos] + data;
    }
    CountFrom(log, pos, 0);
  }

  // The last n complete lines, and the position after them.
  method EventsTail(log: Bytes, n: nat) returns (events: seq<Bytes>, cursor: nat)
    ensures cursor == CompleteEnd(log)
    ensures n > 0 ==> events == LastN(Lines(log, 0), n)
  {
    var size := |log|;
    var pos, data := ReadBack(log, n);
    var end, lines := CutAndSplit(log, pos, data);
    events := LastN(lines, n);
    if n > 0 {
      SuffixHoldsLastLines(log, pos, n);
    }
    CursorIsCompleteEnd(log, pos);
    cursor := if end >= 0 then size - (|data| - end - 1) else 0;
  }

  function NonBlank(lines: seq<Bytes>): seq<Bytes> {
    if lines == [] then [] else (if Blank(lines[0]) then [] else [lines[0]]) + NonBlank(lines[1..])
  }

  function Raws(records: seq<Rec>): seq<Bytes> {
    seq(|records|, i requires 0 <= i < |records| => records[i].raw)
  }

  lemma RawsConcat(a: seq<Rec>, b: seq<Rec>)
    ensures Raws(a + b) == Raws(a) + Raws(b)
  {
  }

  lemma RawsOfEntry(log: Bytes, p: nat, i: nat)
    requires p <= i <= |log|
    ensures Raws(Entry(log, p, i)) == NonBlank([log[p..i]])
  {
  }

  lemma {:induction false} RecordsAreLines(log: Bytes, p: nat)
    requires p <= |log|
    ensures Raws(Records(log, p, |log|)) == NonBlank(Lines(log, p))
    decreases |log| - p
  {
    var i := LineEnd(log, p);
    if i < |log| {
      RecordsAreLines(log, i + 1);
      FirstRecord(log, p, |log|);
      RawsConcat(Entry(log, p, i), Records(log, i + 1, |log|));
      RawsOfEntry(log, p, i);
      NonBlankConcat([log[p..i]], Lines(log, i + 1));
    }
  }

  lemma {:induction false} NonBlankConcat(a: seq<Bytes>, b: seq<Bytes>)
    ensures NonBlank(a + b) == NonBlank(a) + NonBlank(b)
  {
    if a == [] {
      assert a + b == b;
    } else {
      assert (a + b)[0] == a[0] && (a + b)[1..] == a[1..] + b;
      NonBlankConcat(a[1..], b);
      Assoc(if Blank(a[0]) then [] else [a[0]], NonBlank(a[1..]), NonBlank(b));
    }
  }

  lemma {:induction false} NonBlankKeeps(lines: seq<Bytes>)
    ensures (forall l <- lines :: !Blank(l)) <==> NonBlank(lines) == lines
    ensures forall l <- NonBlank(lines) :: !Blank(l)
    ensures |NonBlank(lines)| <= |lines|
  {
    if lines != [] {
      NonBlankKeeps(lines[1..]);
      assert lines == [lines[0]] + lines[1..];
    }
  }

  lemma LastNonBlank(lines: seq<Bytes>, n: nat)
    requires n > 0
    ensures LastN(lines, n) == LastN(NonBlank(lines), n) <==> forall l <- LastN(lines, n) :: !Blank(l)
  {
    var k := if n > |lines| then 0 else |lines| - n;
    var a, b := lines[..k], lines[k..];
    assert lines == a + b && LastN(lines, n) == b;
    NonBlankConcat(a, b);
    NonBlankKeeps(lines);
    NonBlankKeeps(a);
    NonBlankKeeps(b);
  }

  // The tail read returns the last n records of the scan, and the scan's own final cursor,
  // if and only if none of the last n lines is blank: a blank line is reported by the one
  // and skipped by the other.
  lemma TailIsLastRecords(log: Bytes, n: nat)
    requires n > 0
    ensures LastN(Lines(log, 0), n) == LastN(Raws(Records(log, 0, |log|)), n)
            <==> forall l <- LastN(Lines(log, 0), n) :: !Blank(l)
    ensures forall limit, events, position :: IsPage(log, 0, limit, events, position) && |events| < limit ==> position == CompleteEnd(log)
  {
    RecordsAreLines(log, 0);
    LastNonBlank(Lines(log, 0), n);
    forall limit, events, position | IsPage(log, 0, limit, events, position) && |events| < limit
      ensures position == CompleteEnd(log)
    {
      assert position > 0 ==> log[position - 1] == NEWLINE;
      assert CompleteEnd(log) > 0 ==> log[CompleteEnd(log) - 1] == NEWLINE;
    }
  }

  // A blank line does make the two reads differ.
  lemma BlankLineDiffers()
    ensures var log := ['a', NEWLINE, NEWLINE];
            LastN(Lines(log, 0), 1) == [""] && LastN(Raws(Records(log, 0, |log|)), 1) == ["a"]
  {
    var log: Bytes := ['a', NEWLINE, NEWLINE];
    assert LineEnd(log, 0) == 1 && LineEnd(log, 2) == 2 && LineEnd(log, 3) == 3;
    assert log[0..1] == "a" && log[2..2] == "";
    assert Lines(log, 3) == [] && Lines(log, 2) == [""] && Lines(log, 0) == ["a", ""];
    assert 'a' in "a" && !Blank("a") && Blank("");
    assert Records(log, 2, 3) == [] && Records(log, 0, 3) == [Rec(0, "a")];
  }
}
