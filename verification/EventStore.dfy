/** The thread's stored events, listed by sequence within the run, and the pre-retrieval cache
    that a turn rebuilds from them. */
module EventStore {
  import opened Text
  import opened DocCache

  const PRERETRIEVAL := "preretrieval"
  const CACHE_SCAN_LIMIT := 100

  datatype Payload = Payload(
    query: string,
    queryHash: string,
    mode: string,
    allowedChunkIds: seq<string>,
    tenantId: string,
    userId: string,
    maxClassification: string,
    allowedScopes: seq<string>,
    policyContextHash: string)

  datatype StoredEvent = Retrieval(payload: Payload) | ToolEnd(callId: string) | OtherEvent

  /** `id` grows over the whole store, `sequence` counts within one run. */
  datatype Row = Row(id: nat, runId: string, sequence: nat, event: StoredEvent)

  predicate Precedes(a: Row, b: Row) {
    a.sequence < b.sequence || (a.sequence == b.sequence && a.id < b.id)
  }

  predicate IdsAscend(rows: seq<Row>) {
    forall i, j :: 0 <= i < j < |rows| ==> rows[i].id < rows[j].id
  }

  predicate Listing(rows: seq<Row>) {
    forall i, j :: 0 <= i < j < |rows| ==> Precedes(rows[i], rows[j])
  }

  function LastSequence(rows: seq<Row>, runId: string): nat {
    if rows == [] then 0
    else
      var before := LastSequence(rows[..|rows| - 1], runId);
      var last := rows[|rows| - 1];
      if last.runId == runId && last.sequence > before then last.sequence else before
  }

  function LastId(rows: seq<Row>): nat {
    if rows == [] then 0 else rows[|rows| - 1].id
  }

  predicate EndsCall(row: Row, runId: string, callId: string) {
    row.runId == runId && row.event.ToolEnd? && row.event.callId == callId
  }

  /** A tool_end whose stripped call id the run has already ended is not stored again. */
  predicate AlreadyEnded(rows: seq<Row>, runId: string, event: StoredEvent) {
    event.ToolEnd? && Strip(event.callId) != "" && exists y :: y in rows && EndsCall(y, runId, Strip(event.callId))
  }

  function Appended(rows: seq<Row>, runId: string, event: StoredEvent): seq<Row> {
    if AlreadyEnded(rows, runId, event) then rows
    else rows + [Row(LastId(rows) + 1, runId, LastSequence(rows, runId) + 1, event)]
  }

  lemma AppendKeepsIds(rows: seq<Row>, runId: string, event: StoredEvent)
    requires IdsAscend(rows)
    ensures IdsAscend(Appended(rows, runId, event))
  {
  }

  // ----- listing -----

  function InsertRow(x: Row, s: seq<Row>): (r: seq<Row>)
    requires Listing(s) && forall y :: y in s ==> y.id != x.id
    ensures Listing(r) && |r| == |s| + 1
    ensures forall y :: y in r <==> y == x || y in s
  {
    if s == [] || Precedes(x, s[0]) then [x] + s
    else
      assert forall y :: y in s[1..] ==> y in s;
      var rest := InsertRow(x, s[1..]);
      assert forall y :: y in rest ==> Precedes(s[0], y) by {
        assert Precedes(s[0], x);
        forall y | y in rest ensures Precedes(s[0], y) {
          if y != x {
            var i :| 0 <= i < |s[1..]| && s[1..][i] == y;
            assert Precedes(s[0], s[i + 1]);
          }
        }
      }
      [s[0]] + rest
  }

  /** All rows in listing order. */
  function InOrder(rows: seq<Row>): (r: seq<Row>)
    requires IdsAscend(rows)
    ensures Listing(r) && |r| == |rows|
    ensures forall y :: y in r <==> y in rows
  {
    if rows == [] then []
    else
      var front, last := rows[..|rows| - 1], rows[|rows| - 1];
      assert rows == front + [last];
      assert forall y :: y in front ==> y.id != last.id;
      InsertRow(last, InOrder(front))
  }

  /** The first `limit` rows in listing order. */
  function Listed(rows: seq<Row>, limit: nat): (r: seq<Row>)
    requires IdsAscend(rows)
    ensures Listing(r)
    ensures forall y :: y in r ==> y in rows
  {
    var all := InOrder(rows);
    if |all| <= limit then all else all[..limit]
  }

  class Store {
    var rows: seq<Row>

    constructor ()
      ensures rows == []
    {
      rows := [];
    }

    method FindToolEnd(runId: string, callId: string) returns (found: Option<Row>)
      requires Strip(callId) != ""
      ensures found.Some? <==> exists y :: y in rows && EndsCall(y, runId, callId)
      ensures found.Some? ==> found.value in rows && EndsCall(found.value, runId, callId)
    {
      for i := 0 to |rows|
        invariant forall y :: y in rows[..i] ==> !EndsCall(y, runId, callId)
      {
        if EndsCall(rows[i], runId, callId) {
          return Some(rows[i]);
        }
      }
      assert rows[..|rows|] == rows;
      return None;
    }

    /** Stores an event under the next id and the next sequence number of its run, unless it ends a
        call that has ended; either way the row that stands for it is returned. */
    method Append(runId: string, event: StoredEvent) returns (row: Row)
      requires IdsAscend(rows)
      modifies this
      ensures rows == Appended(old(rows), runId, event) && IdsAscend(rows)
      ensures row in rows && row.runId == runId
      ensures if AlreadyEnded(old(rows), runId, event) then EndsCall(row, runId, Strip(event.callId))
              else row == rows[|rows| - 1] && row.event == event
    {
      AppendKeepsIds(rows, runId, event);
      if event.ToolEnd? && Strip(event.callId) != "" {
        StripTwice(event.callId);
        var found := FindToolEnd(runId, Strip(event.callId));
        if found.Some? {
          return found.value;
        }
      }
      var sequence := 0;
      for i := 0 to |rows|
        invariant sequence == LastSequence(rows[..i], runId)
        invariant rows == old(rows)
      {
        assert rows[..i + 1][..i] == rows[..i];
        if rows[i].runId == runId && rows[i].sequence > sequence {
          sequence := rows[i].sequence;
        }
      }
      assert rows[..|rows|] == rows;
      row := Row(LastId(rows) + 1, runId, sequence + 1, event);
      rows := rows + [row];
    }

    /** Looks backwards through the listed events for a usable pre-retrieval. */
    method LatestPreretrievalCache() returns (cache: Option<Cache>)
      requires IdsAscend(rows)
      ensures cache == LatestCache(rows)
    {
      var listed := Listed(rows, CACHE_SCAN_LIMIT);
      var i := |listed|;
      assert listed[..i] == listed;
      while i > 0
        invariant 0 <= i <= |listed|
        invariant LastUsable(listed) == LastUsable(listed[..i])
      {
        i := i - 1;
        LastUsableStep(listed, i);
        if listed[i].event.Retrieval? {
          if listed[i].event.payload.mode == PRERETRIEVAL {
            if listed[i].event.payload.allowedChunkIds != [] {
              return Some(RebuiltCache(listed[i].event.payload));
            }
          }
        }
      }
      return None;
    }
  }

  // ----- the rebuilt cache -----

  predicate Usable(row: Row) {
    row.event.Retrieval? && row.event.payload.mode == PRERETRIEVAL && row.event.payload.allowedChunkIds != []
  }

  function LastUsable(rows: seq<Row>): (r: Option<Row>)
    ensures r.Some? ==> r.value in rows && Usable(r.value)
    ensures r.None? <==> forall y :: y in rows ==> !Usable(y)
  {
    if rows == [] then None
    else
      var front, last := rows[..|rows| - 1], rows[|rows| - 1];
      assert rows == front + [last];
      if Usable(last) then Some(last) else LastUsable(front)
  }

  /** The cache as the event log remembers it: without chunk keys. */
  function RebuiltCache(p: Payload): Cache {
    Cache(p.query, p.queryHash, None, p.allowedChunkIds, p.tenantId, p.userId, p.maxClassification,
          p.allowedScopes, p.policyContextHash)
  }

  function LatestCache(rows: seq<Row>): Option<Cache>
    requires IdsAscend(rows)
  {
    match LastUsable(Listed(rows, CACHE_SCAN_LIMIT))
    case None => None
    case Some(row) => Some(RebuiltCache(row.event.payload))
  }

  /** A found cache is that of a stored usable pre-retrieval. */
  lemma LatestCacheHasRow(rows: seq<Row>) returns (row: Row)
    requires IdsAscend(rows) && LatestCache(rows).Some?
    ensures row in rows && Usable(row) && LatestCache(rows) == Some(RebuiltCache(row.event.payload))
  {
    row := LastUsable(Listed(rows, CACHE_SCAN_LIMIT)).value;
  }

  lemma LastUsableStep(rows: seq<Row>, i: nat)
    requires i < |rows|
    ensures LastUsable(rows[..i + 1]) == if Usable(rows[i]) then Some(rows[i]) else LastUsable(rows[..i])
  {
    assert rows[..i + 1][..i] == rows[..i];
  }

  lemma {:induction false} LastUsableIsGreatest(rows: seq<Row>)
    requires Listing(rows)
    ensures LastUsable(rows).Some? ==>
              forall y :: y in rows && Usable(y) && y != LastUsable(rows).value ==> Precedes(y, LastUsable(rows).value)
  {
    if rows != [] {
      var front, last := rows[..|rows| - 1], rows[|rows| - 1];
      LastUsableIsGreatest(front);
      assert rows == front + [last];
      forall y | y in front ensures Precedes(y, last) {
        var i :| 0 <= i < |front| && front[i] == y;
        assert Precedes(rows[i], rows[|rows| - 1]);
      }
    }
  }

  lemma {:induction false} LastUsableIsNewest(rows: seq<Row>)
    requires IdsAscend(rows)
    ensures LastUsable(rows).Some? ==>
              forall y :: y in rows && Usable(y) && y != LastUsable(rows).value ==> y.id < LastUsable(rows).value.id
  {
    if rows != [] {
      var front, last := rows[..|rows| - 1], rows[|rows| - 1];
      LastUsableIsNewest(front);
      assert rows == front + [last];
      forall y | y in front ensures y.id < last.id {
        var i :| 0 <= i < |front| && front[i] == y;
        assert rows[i].id < rows[|rows| - 1].id;
      }
    }
  }

  /** The scan finds the thread's newest usable pre-retrieval exactly when that one is among the
      first 100 listed events and no other listed one has a larger sequence number within its
      own run. */
  lemma LatestIsNewestIff(rows: seq<Row>)
    requires IdsAscend(rows)
    requires LastUsable(rows).Some?
    ensures var newest := LastUsable(rows).value;
            var listed := Listed(rows, CACHE_SCAN_LIMIT);
            LastUsable(listed) == Some(newest) <==>
              newest in listed && forall y :: y in listed && Usable(y) ==> y.sequence <= newest.sequence
  {
    var newest, listed := LastUsable(rows).value, Listed(rows, CACHE_SCAN_LIMIT);
    LastUsableIsNewest(rows);
    LastUsableIsGreatest(listed);
  }

  /** The rows of a thread whose first run retrieved at its second event and whose second run
      retrieved at its first. */
  function TwoRuns(earlier: Payload, later: Payload): seq<Row> {
    [Row(1, "run-1", 1, OtherEvent), Row(2, "run-1", 2, Retrieval(earlier)), Row(3, "run-2", 1, Retrieval(later))]
  }

  lemma TwoRunsAppended(earlier: Payload, later: Payload)
    ensures var a1 := Appended([], "run-1", OtherEvent);
            var a2 := Appended(a1, "run-1", Retrieval(earlier));
            Appended(a2, "run-2", Retrieval(later)) == TwoRuns(earlier, later)
  {
    var r1, r2 := Row(1, "run-1", 1, OtherEvent), Row(2, "run-1", 2, Retrieval(earlier));
    LastSequenceSnoc([], r1, "run-1");
    LastSequenceSnoc([], r1, "run-2");
    LastSequenceSnoc([r1], r2, "run-2");
    assert [] + [r1] == [r1] && [r1] + [r2] == [r1, r2];
    assert Appended([], "run-1", OtherEvent) == [r1];
    assert Appended([r1], "run-1", Retrieval(earlier)) == [r1, r2];
  }

  lemma LastSequenceSnoc(front: seq<Row>, last: Row, runId: string)
    ensures var before := LastSequence(front, runId);
            LastSequence(front + [last], runId) == if last.runId == runId && last.sequence > before then last.sequence else before
  {
    assert (front + [last])[..|front|] == front;
  }

  /** With two runs in a thread, logged in this order, the newer retrieval can be hidden by the older one. */
  lemma OlderRunHidesNewer(earlier: Payload, later: Payload)
    requires earlier.mode == PRERETRIEVAL && earlier.allowedChunkIds != []
    requires later.mode == PRERETRIEVAL && later.allowedChunkIds != []
    ensures var rows := Appended(Appended([], "run-1", OtherEvent), "run-1", Retrieval(earlier));
            TwoRuns(earlier, later) == Appended(rows, "run-2", Retrieval(later))
    ensures IdsAscend(TwoRuns(earlier, later))
    ensures LatestCache(TwoRuns(earlier, later)) == Some(RebuiltCache(earlier))
    ensures LastUsable(TwoRuns(earlier, later)) == Some(Row(3, "run-2", 1, Retrieval(later)))
  {
    TwoRunsAppended(earlier, later);
    var rows := TwoRuns(earlier, later);
    var listed := Listed(rows, CACHE_SCAN_LIMIT);
    assert rows[1] in rows && rows[2] in rows;
    assert |InOrder(rows)| == 3 && listed == InOrder(rows);
    var found := LastUsable(listed);
    assert Usable(rows[1]) && rows[1] in listed;
    assert !Usable(rows[0]);
    LastUsableIsGreatest(listed);
    assert found.value in rows && found.value in {rows[0], rows[1], rows[2]};
    assert !Precedes(rows[1], rows[2]);
  }

  // ----- calls end once -----

  /** No run has two tool_end rows for one call id, among ids without surrounding blanks. */
  predicate EndedOnce(rows: seq<Row>) {
    forall i, j :: 0 <= i < j < |rows| && rows[i].event.ToolEnd? && EndsCall(rows[j], rows[i].runId, rows[i].event.callId) ==>
      rows[i].event.callId == "" || Strip(rows[i].event.callId) != rows[i].event.callId
  }

  /** Appending anything keeps it so. */
  lemma CallsEndOnce(rows: seq<Row>, runId: string, event: StoredEvent)
    requires EndedOnce(rows)
    ensures EndedOnce(Appended(rows, runId, event))
  {
    forall i | 0 <= i < |rows| && event.ToolEnd? && EndsCall(rows[i], runId, event.callId)
               && event.callId != "" && Strip(event.callId) == event.callId
      ensures AlreadyEnded(rows, runId, event)
    {
      assert rows[i] in rows;
    }
  }

  /** A call id with surrounding blanks is not found again: its end is stored each time, if and only
      if no row of the run has the stripped id. */
  lemma BlankIdsEndAgain(rows: seq<Row>, runId: string, callId: string)
    requires Strip(callId) != "" && Strip(callId) != callId
    ensures var once := Appended(rows, runId, ToolEnd(callId));
            var twice := Appended(once, runId, ToolEnd(callId));
            |twice| == |rows| + 2 <==> forall y :: y in rows ==> !EndsCall(y, runId, Strip(callId))
  {
    var once := Appended(rows, runId, ToolEnd(callId));
    if forall y :: y in rows ==> !EndsCall(y, runId, Strip(callId)) {
      assert forall y :: y in once ==> y in rows || y.event == ToolEnd(callId);
    }
  }

  // ----- which rows are listed, which sequence comes next -----

  /** The sequence number of a run's last event: the greatest there is, zero without events. */
  lemma {:induction false} LastSequenceIsGreatest(rows: seq<Row>, runId: string)
    ensures forall y :: y in rows && y.runId == runId ==> y.sequence <= LastSequence(rows, runId)
    ensures LastSequence(rows, runId) == 0 || exists y :: y in rows && y.runId == runId && y.sequence == LastSequence(rows, runId)
  {
    if rows != [] {
      var front, last := rows[..|rows| - 1], rows[|rows| - 1];
      LastSequenceIsGreatest(front, runId);
      assert rows == front + [last];
      assert forall y :: y in rows <==> y in front || y == last;
    }
  }

  /** The rows that come before a row: smaller sequence numbers, or the same and stored earlier. */
  function Earlier(rows: seq<Row>, y: Row): set<Row> {
    set z | z in rows && (z.sequence < y.sequence || (z.sequence == y.sequence && z.id < y.id))
  }

  function RowSet(s: seq<Row>): set<Row> { set z | z in s }

  lemma {:induction false} ListingCounts(s: seq<Row>)
    requires Listing(s)
    ensures |RowSet(s)| == |s|
  {
    if s != [] {
      var front, last := s[..|s| - 1], s[|s| - 1];
      ListingCounts(front);
      assert s == front + [last];
      assert forall j :: 0 <= j < |front| ==> Precedes(s[j], last);
      assert RowSet(s) == RowSet(front) + {last};
    }
  }

  /** A row is listed exactly when fewer than the limit come before it. */
  lemma ListedExactly(rows: seq<Row>, limit: nat, y: Row)
    requires IdsAscend(rows)
    ensures y in Listed(rows, limit) <==> y in rows && |Earlier(rows, y)| < limit
  {
    var all := InOrder(rows);
    if y in rows {
      var i :| 0 <= i < |all| && all[i] == y;
      EarlierArePrefix(rows, i);
      ListingCounts(all[..i]);
      if i < limit && limit < |all| {
        assert all[..limit][i] == y;
      } else if limit <= i {
        assert forall j :: 0 <= j < limit ==> Precedes(all[j], all[i]);
      }
    }
  }

  lemma EarlierArePrefix(rows: seq<Row>, i: nat)
    requires IdsAscend(rows) && i < |InOrder(rows)|
    ensures Earlier(rows, InOrder(rows)[i]) == RowSet(InOrder(rows)[..i])
  {
    var all := InOrder(rows);
    forall z | z in Earlier(rows, all[i]) ensures z in all[..i] {
      var j :| 0 <= j < |all| && all[j] == z;
      PlaceInListing(all, j, i);
      assert all[..i][j] == z;
    }
    forall z | z in all[..i] ensures z in Earlier(rows, all[i]) {
      var j :| 0 <= j < i && all[..i][j] == z;
      PlaceInListing(all, j, i);
    }
  }

  lemma PlaceInListing(s: seq<Row>, j: nat, i: nat)
    requires Listing(s) && i < |s| && j < |s|
    ensures Precedes(s[j], s[i]) <==> j < i
  {
  }

  /** While a thread has no more events than are scanned, any usable pre-retrieval gives a cache. */
  lemma ShortLogGivesCache(rows: seq<Row>, y: Row)
    requires IdsAscend(rows) && |rows| <= 100 && y in rows && Usable(y)
    ensures LatestCache(rows).Some?
  {
    assert Listed(rows, CACHE_SCAN_LIMIT) == InOrder(rows);
    assert y in Listed(rows, CACHE_SCAN_LIMIT);
  }
}
