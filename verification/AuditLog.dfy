/** The run's append-only event log, and the records of calls that were blocked before they had
    an effect. */
module AuditLog {
  import opened Text
  import opened Messages
  import opened Routes
  import opened Plans
  import opened PolicyGate

  datatype Event =
    | PlanCreated(route: Route, plan: Plan)
    | PathsMerged(route: Route, paths: seq<string>)
    | Replanned(plan: Plan)
    | CredentialAudited(audit: Audit)
    | PolicyDecided(traceId: nat, decision: string, tool: string, relatedCall: string)
    | SideEffect(callId: string, tool: string, policyTrace: Option<nat>, blocked: bool)

  /** The log together with the supply of policy trace ids. */
  datatype Ledger = Ledger(log: seq<Event>, nextTrace: nat)

  function AfterDecision(l: Ledger, logged: bool, decision: string, tool: string, callId: string): Ledger {
    Ledger(if logged then l.log + [PolicyDecided(l.nextTrace, decision, tool, callId)] else l.log, l.nextTrace + 1)
  }

  function AfterAudit(l: Ledger, audit: Audit): Ledger {
    var l' := l.(log := l.log + [CredentialAudited(audit)]);
    if audit.denied then AfterDecision(l', true, "deny", audit.tool, "") else l'
  }

  function AfterAudits(l: Ledger, audits: seq<Audit>): Ledger {
    if audits == [] then l
    else AfterAudit(AfterAudits(l, audits[..|audits| - 1]), audits[|audits| - 1])
  }

  // ----- blocked records -----

  function RecordedIds(log: seq<Event>): set<string> {
    set e | e in log && e.SideEffect? :: e.callId
  }

  /** The ledger keeps records of write tools only. */
  predicate Writes(call: ToolCall) { call.name == "http_post" }

  function TraceFor(byCall: map<string, nat>, default: Option<nat>, id: string): Option<nat> {
    if id in byCall then Some(byCall[id]) else default
  }

  function BlockedRecord(call: ToolCall, existing: set<string>, byCall: map<string, nat>, default: Option<nat>): seq<Event> {
    var id := Strip(call.id);
    if (id != "" && id in existing) || !Writes(call) then []
    else [SideEffect(id, call.name, TraceFor(byCall, default, id), true)]
  }

  function BlockedRecords(calls: seq<ToolCall>, existing: set<string>, byCall: map<string, nat>, default: Option<nat>): seq<Event> {
    if calls == [] then []
    else BlockedRecords(calls[..|calls| - 1], existing, byCall, default)
         + BlockedRecord(calls[|calls| - 1], existing, byCall, default)
  }

  /** The non-empty call ids of blocked records, in log order. */
  function BlockedIds(log: seq<Event>): seq<string> {
    if log == [] then []
    else
      var e := log[|log| - 1];
      BlockedIds(log[..|log| - 1]) + if e.SideEffect? && e.blocked && e.callId != "" then [e.callId] else []
  }

  /** The ids for which a batch would write a new blocked record. */
  function NewIds(calls: seq<ToolCall>, existing: set<string>): seq<string> {
    if calls == [] then []
    else
      var last := calls[|calls| - 1];
      var id := Strip(last.id);
      NewIds(calls[..|calls| - 1], existing) + if Writes(last) && id != "" && id !in existing then [id] else []
  }

  predicate Distinct(ids: seq<string>) { forall i, j :: 0 <= i < j < |ids| ==> ids[i] != ids[j] }

  /** At most one blocked record for each non-empty call id. */
  predicate BlockedOnce(log: seq<Event>) { Distinct(BlockedIds(log)) }

  lemma {:induction false} BlockedIdsConcat(a: seq<Event>, b: seq<Event>)
    ensures BlockedIds(a + b) == BlockedIds(a) + BlockedIds(b)
  {
    if b == [] {
      assert a + b == a;
    } else {
      BlockedIdsConcat(a, b[..|b| - 1]);
      assert (a + b)[..|a + b| - 1] == a + b[..|b| - 1];
    }
  }

  lemma {:induction false} BlockedIdsAreRecorded(log: seq<Event>)
    ensures forall id :: id in BlockedIds(log) ==> id in RecordedIds(log) && id != ""
  {
    if log != [] {
      var front, last := log[..|log| - 1], log[|log| - 1];
      BlockedIdsAreRecorded(front);
      assert log == front + [last];
      assert forall e :: e in front ==> e in log;
    }
  }

  lemma {:induction false} BlockedIdsOfRecords(calls: seq<ToolCall>, existing: set<string>, byCall: map<string, nat>, default: Option<nat>)
    ensures BlockedIds(BlockedRecords(calls, existing, byCall, default)) == NewIds(calls, existing)
    ensures forall id :: id in NewIds(calls, existing) ==> id !in existing
  {
    if calls != [] {
      var front, last := calls[..|calls| - 1], calls[|calls| - 1];
      BlockedIdsOfRecords(front, existing, byCall, default);
      var record := BlockedRecord(last, existing, byCall, default);
      BlockedIdsConcat(BlockedRecords(front, existing, byCall, default), record);
      assert |record| == 1 ==> record[..0] == [];
    }
  }

  lemma DistinctConcat(a: seq<string>, b: seq<string>)
    requires forall x :: x in b ==> x !in a
    ensures Distinct(a + b) <==> Distinct(a) && Distinct(b)
  {
    if Distinct(a + b) {
      forall i, j | 0 <= i < j < |b| ensures b[i] != b[j] {
        assert (a + b)[|a| + i] != (a + b)[|a| + j];
      }
      forall i, j | 0 <= i < j < |a| ensures a[i] != a[j] {
        assert (a + b)[i] != (a + b)[j];
      }
    }
    if Distinct(a) && Distinct(b) {
      forall i, j | 0 <= i < j < |a + b| ensures (a + b)[i] != (a + b)[j] {
        if i < |a| <= j {
          assert b[j - |a|] in b;
        } else if |a| <= i {
          assert b[i - |a|] != b[j - |a|];
        }
      }
    }
  }

  /** Recording a blocked batch keeps the log free of double records exactly when the batch does
      not itself name one new call id twice. */
  lemma BlockedOnceStep(log: seq<Event>, calls: seq<ToolCall>, byCall: map<string, nat>, default: Option<nat>)
    requires BlockedOnce(log)
    ensures BlockedOnce(log + BlockedRecords(calls, RecordedIds(log), byCall, default))
            <==> Distinct(NewIds(calls, RecordedIds(log)))
  {
    var existing := RecordedIds(log);
    var records := BlockedRecords(calls, existing, byCall, default);
    BlockedIdsConcat(log, records);
    BlockedIdsOfRecords(calls, existing, byCall, default);
    BlockedIdsAreRecorded(log);
    DistinctConcat(BlockedIds(log), NewIds(calls, existing));
  }

  /** No two write calls of the batch share a non-blank id. */
  predicate DistinctCalls(calls: seq<ToolCall>) {
    forall i, j :: 0 <= i < j < |calls| && Writes(calls[i]) && Writes(calls[j]) && Strip(calls[i].id) != ""
                   ==> Strip(calls[i].id) != Strip(calls[j].id)
  }

  predicate WrittenBy(calls: seq<ToolCall>, id: string) {
    exists i :: 0 <= i < |calls| && Writes(calls[i]) && Strip(calls[i].id) == id
  }

  lemma WrittenByLonger(calls: seq<ToolCall>, id: string)
    requires calls != [] && WrittenBy(calls[..|calls| - 1], id)
    ensures WrittenBy(calls, id)
    ensures var last := calls[|calls| - 1];
            DistinctCalls(calls) && Writes(last) && id != "" ==> id != Strip(last.id)
  {
    var front := calls[..|calls| - 1];
    var i :| 0 <= i < |front| && Writes(front[i]) && Strip(front[i].id) == id;
    assert calls[i] == front[i];
  }

  lemma {:induction false} NewIdsFromCalls(calls: seq<ToolCall>, existing: set<string>)
    ensures forall id :: id in NewIds(calls, existing) ==> id != "" && WrittenBy(calls, id)
    ensures DistinctCalls(calls) ==> Distinct(NewIds(calls, existing))
  {
    if calls != [] {
      var front, last := calls[..|calls| - 1], calls[|calls| - 1];
      NewIdsFromCalls(front, existing);
      forall id | id in NewIds(front, existing)
        ensures WrittenBy(calls, id) && (DistinctCalls(calls) && Writes(last) ==> id != Strip(last.id))
      {
        WrittenByLonger(calls, id);
      }
      if DistinctCalls(calls) {
        assert DistinctCalls(front);
        var added := if Writes(last) && Strip(last.id) != "" && Strip(last.id) !in existing then [Strip(last.id)] else [];
        DistinctConcat(NewIds(front, existing), added);
      }
    }
  }

  // ----- policy traces of blocked records -----

  /** The decision of that trace about that call is on record. */
  predicate DecidedFor(log: seq<Event>, trace: nat, call: string) {
    exists i :: 0 <= i < |log| && log[i].PolicyDecided? && log[i].traceId == trace && log[i].relatedCall == call
  }

  /** A decision with the record's trace that is about the record's call. */
  predicate Concerns(d: Event, e: Event) {
    d.PolicyDecided? && e.SideEffect? && e.policyTrace == Some(d.traceId) && Strip(d.relatedCall) == e.callId
  }

  predicate NamesOwnDecision(log: seq<Event>, e: Event) {
    exists i :: 0 <= i < |log| && Concerns(log[i], e)
  }

  /** Event i denies a batch under that trace, and all that follows are blocked records of the same
      batch. */
  predicate DeniesBatchAt(log: seq<Event>, trace: Option<nat>, i: int) {
    && 0 <= i < |log|
    && log[i].PolicyDecided? && log[i].decision == "deny" && Some(log[i].traceId) == trace
    && forall m :: i < m < |log| ==> log[m].SideEffect? && log[m].blocked && log[m].policyTrace == trace
  }

  predicate NamesBatchDenial(log: seq<Event>, e: Event) {
    e.SideEffect? && exists i :: 0 <= i < |log| && DeniesBatchAt(log, e.policyTrace, i)
  }

  /** A blocked record that names a policy trace names the decision about its own call, or the
      denial of the batch that it was recorded with. */
  predicate TraceKnown(log: seq<Event>, e: Event) {
    e.SideEffect? && e.blocked && e.policyTrace.Some? ==> NamesOwnDecision(log, e) || NamesBatchDenial(log, e)
  }

  /** Every blocked record that names a policy trace names such a decision logged before it. */
  predicate TracesBacked(log: seq<Event>) {
    forall j :: 0 <= j < |log| ==> TraceKnown(log[..j], log[j])
  }

  /** Every blocked record names a policy trace. */
  predicate AllTraced(log: seq<Event>) {
    forall e :: e in log && e.SideEffect? && e.blocked ==> e.policyTrace.Some?
  }

  lemma OwnDecisionLonger(log: seq<Event>, more: seq<Event>, e: Event)
    requires NamesOwnDecision(log, e)
    ensures NamesOwnDecision(log + more, e)
  {
    var i :| 0 <= i < |log| && Concerns(log[i], e);
    assert (log + more)[i] == log[i];
  }

  lemma DecidedForLonger(log: seq<Event>, more: seq<Event>, trace: nat, call: string)
    requires DecidedFor(log, trace, call)
    ensures DecidedFor(log + more, trace, call)
  {
    var i :| 0 <= i < |log| && log[i].PolicyDecided? && log[i].traceId == trace && log[i].relatedCall == call;
    assert (log + more)[i] == log[i];
  }

  lemma TracesBackedConcat(log: seq<Event>, more: seq<Event>)
    requires TracesBacked(log)
    requires forall k :: 0 <= k < |more| ==> TraceKnown(log + more[..k], more[k])
    ensures TracesBacked(log + more)
  {
    var all := log + more;
    forall j | 0 <= j < |all| ensures TraceKnown(all[..j], all[j]) {
      if j < |log| {
        assert all[..j] == log[..j] && all[j] == log[j];
      } else {
        var k := j - |log|;
        assert all[..j] == log + more[..k] && all[j] == more[k];
      }
    }
  }

  lemma {:induction false} BlockedRecordsTraced(calls: seq<ToolCall>, existing: set<string>, byCall: map<string, nat>, default: Option<nat>)
    ensures forall e :: e in BlockedRecords(calls, existing, byCall, default) ==>
              && e.SideEffect? && e.blocked
              && e.policyTrace == TraceFor(byCall, default, e.callId)
              && exists c :: c in calls && Writes(c) && Strip(c.id) == e.callId
  {
    if calls != [] {
      var front, last := calls[..|calls| - 1], calls[|calls| - 1];
      BlockedRecordsTraced(front, existing, byCall, default);
      assert last in calls;
      assert forall c :: c in front ==> c in calls;
    }
  }
}
