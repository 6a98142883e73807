/** That nothing is missing from the log: every refusal, pause and rejection is recorded, call by
    call. */
module LedgerComplete {
  import opened Text
  import opened Messages
  import opened Routes
  import opened PolicyGate
  import opened AuditLog
  import opened AgentNodes
  import opened AgentRun
  import opened AgentLedger

  /** The log has a side effect under this call id. */
  predicate OnRecord(log: seq<Event>, id: string) {
    id != "" && exists e :: e in log && e.SideEffect? && e.callId == id
  }

  /** Each write call gets a blocked record, unless its id is on record. */
  lemma {:induction false} EachWriteBlocked(calls: seq<ToolCall>, existing: set<string>, byCall: map<string, nat>, default: Option<nat>, c: ToolCall)
    requires c in calls && c.name == "http_post" && !(Strip(c.id) != "" && Strip(c.id) in existing)
    ensures SideEffect(Strip(c.id), "http_post", TraceFor(byCall, default, Strip(c.id)), true) in BlockedRecords(calls, existing, byCall, default)
  {
    if c != calls[|calls| - 1] {
      EachWriteBlocked(calls[..|calls| - 1], existing, byCall, default, c);
    }
  }

  /** And nothing else does. */
  lemma {:induction false} OnlyWritesBlocked(calls: seq<ToolCall>, existing: set<string>, byCall: map<string, nat>, default: Option<nat>, e: Event)
    requires e in BlockedRecords(calls, existing, byCall, default)
    ensures e.SideEffect? && e.blocked && e.tool == "http_post" && !(e.callId != "" && e.callId in existing)
    ensures exists c :: c in calls && c.name == "http_post" && Strip(c.id) == e.callId
  {
    var front, last := calls[..|calls| - 1], calls[|calls| - 1];
    if e in BlockedRecords(front, existing, byCall, default) {
      OnlyWritesBlocked(front, existing, byCall, default, e);
    } else {
      assert last in calls;
    }
  }

  lemma {:induction false} EachAuditLogged(l: Ledger, audits: seq<Audit>, a: Audit)
    requires a in audits
    ensures CredentialAudited(a) in AfterAudits(l, audits).log
  {
    var front, last := audits[..|audits| - 1], audits[|audits| - 1];
    if a in front {
      EachAuditLogged(l, front, a);
    } else {
      assert a == last;
    }
  }

  predicate BlockedOrOnRecord(before: seq<Event>, after: seq<Event>, c: ToolCall, trace: Option<nat>) {
    OnRecord(before, Strip(c.id)) || SideEffect(Strip(c.id), "http_post", trace, true) in after
  }

  lemma OnRecordIsRecorded(log: seq<Event>, id: string)
    ensures OnRecord(log, id) <==> id != "" && id in RecordedIds(log)
  {
  }

  /** A batch that the policy denies leaves its credential audits, one denial that names the deciding
      call, and under that denial's trace a blocked record for each of its write calls. */
  lemma DenialIsRecorded(cfg: RunConfig, ms: seq<Message>, route: Option<Route>, confirm: bool, resume: Option<bool>, l: Ledger)
    returns (trace: nat)
    requires cfg.threadId != "" && cfg.runId != "" && PendingCalls(ms) != []
    requires !Decide(cfg.policy, PendingCalls(ms), confirm, []).allowed
    ensures var calls := PendingCalls(ms);
            var d := Decide(cfg.policy, calls, confirm, []);
            var after := Gate(cfg, ms, route, confirm, resume, l).ledger.log;
            && l.log <= after
            && (forall a :: a in d.audits ==> CredentialAudited(a) in after)
            && PolicyDecided(trace, "deny", d.tool, d.callId) in after
            && (forall c :: c in calls && c.name == "http_post" ==> BlockedOrOnRecord(l.log, after, c, Some(trace)))
  {
    var calls := PendingCalls(ms);
    var d := Decide(cfg.policy, calls, confirm, []);
    var l1 := AfterAudits(l, d.audits);
    trace := l1.nextTrace;
    AuditsAreNeutral(l, d.audits);
    NeutralFacts(l, l1);
    DenialLedger(cfg, d, calls, l1);
    var after := Gate(cfg, ms, route, confirm, resume, l).ledger.log;
    assert after == DenyLedger(cfg, d, calls, l1).log;
    forall a | a in d.audits ensures CredentialAudited(a) in after {
      EachAuditLogged(l, d.audits, a);
    }
    forall c | c in calls && c.name == "http_post" ensures BlockedOrOnRecord(l.log, after, c, Some(trace)) {
      OnRecordIsRecorded(l.log, Strip(c.id));
      OnRecordIsRecorded(l1.log, Strip(c.id));
    }
  }

  lemma DenialLedger(cfg: RunConfig, d: Decision, calls: seq<ToolCall>, l: Ledger)
    requires cfg.Recording()
    ensures var after := DenyLedger(cfg, d, calls, l).log;
            && l.log <= after
            && PolicyDecided(l.nextTrace, "deny", d.tool, d.callId) in after
            && (forall c :: c in calls && c.name == "http_post" ==> BlockedOrOnRecord(l.log, after, c, Some(l.nextTrace)))
  {
    var decided := AfterDecision(l, true, "deny", d.tool, d.callId);
    var after := DenyLedger(cfg, d, calls, l).log;
    DecisionIsNeutral(l, true, "deny", d.tool, d.callId);
    NeutralFacts(l, decided);
    assert decided.log[|l.log|] in after;
    forall c | c in calls && c.name == "http_post" ensures BlockedOrOnRecord(l.log, after, c, Some(l.nextTrace)) {
      OnRecordIsRecorded(l.log, Strip(c.id));
      if !OnRecord(l.log, Strip(c.id)) {
        EachWriteBlocked(calls, RecordedIds(decided.log), map[], Some(l.nextTrace), c);
      }
    }
  }

  lemma {:induction false} EachBlockDecided(l: Ledger, calls: seq<ToolCall>, c: ToolCall) returns (trace: nat)
    requires c in calls
    ensures PolicyDecided(trace, "block", c.name, c.id) in AfterRouteDecisions(l, true, calls).ledger.log
  {
    var front, last := calls[..|calls| - 1], calls[|calls| - 1];
    var before := AfterRouteDecisions(l, true, front).ledger;
    var after := AfterRouteDecisions(l, true, calls).ledger.log;
    if c in front {
      trace := EachBlockDecided(l, front, c);
    } else {
      assert c == last;
      trace := before.nextTrace;
      assert after[|before.log|] == PolicyDecided(trace, "block", c.name, c.id);
    }
  }

  predicate BlockDecided(log: seq<Event>, c: ToolCall) {
    exists e :: e in log && e.PolicyDecided? && e.decision == "block" && e.tool == c.name && e.relatedCall == c.id
  }

  predicate BlockedSomehow(before: seq<Event>, after: seq<Event>, c: ToolCall) {
    OnRecord(before, Strip(c.id)) || exists e :: e in after && e.SideEffect? && e.blocked && e.callId == Strip(c.id)
  }

  /** A batch that the route stops leaves one block decision for every call off the route, and a
      blocked record for every write call among them. */
  lemma RouteStopIsRecorded(cfg: RunConfig, route: Route, calls: seq<ToolCall>, l: Ledger)
    requires cfg.threadId != "" && cfg.runId != ""
    ensures var after := RouteStopLedger(cfg, route, calls, l).log;
            && l.log <= after
            && (forall c :: c in calls && !ToolAllowed(route, c.name) ==>
                  BlockDecided(after, c) && (c.name == "http_post" ==> BlockedSomehow(l.log, after, c)))
  {
    var blocked := RouteBlocked(route, calls);
    var traced := AfterRouteDecisions(l, true, blocked);
    var after := RouteStopLedger(cfg, route, calls, l).log;
    RouteBlockedMeaning(route, calls);
    RouteDecisionsAreNeutral(l, true, blocked);
    NeutralFacts(l, traced.ledger);
    forall c | c in calls && !ToolAllowed(route, c.name)
      ensures BlockDecided(after, c) && (c.name == "http_post" ==> BlockedSomehow(l.log, after, c))
    {
      var trace := EachBlockDecided(l, blocked, c);
      assert PolicyDecided(trace, "block", c.name, c.id) in after;
      OnRecordIsRecorded(l.log, Strip(c.id));
      if c.name == "http_post" && !OnRecord(l.log, Strip(c.id)) {
        EachWriteBlocked(blocked, RecordedIds(traced.ledger.log), traced.byCall, None, c);
      }
    }
  }

  /** A pause leaves the question in the log. */
  lemma PauseIsRecorded(cfg: RunConfig, ms: seq<Message>, route: Option<Route>, confirm: bool, resume: Option<bool>, l: Ledger)
    requires cfg.threadId != "" && cfg.runId != ""
    requires Gate(cfg, ms, route, confirm, resume, l).outcome.Paused?
    ensures var d := Decide(cfg.policy, PendingCalls(ms), confirm, []);
            var after := Gate(cfg, ms, route, confirm, resume, l).ledger.log;
            after != [] && after[|after| - 1].PolicyDecided? && after[|after| - 1].decision == "ask"
            && after[|after| - 1].tool == d.tool && after[|after| - 1].relatedCall == d.callId
  {
  }

  predicate RejectionOnRecord(log: seq<Event>, c: ToolCall) {
    exists e :: e in log && e.PolicyDecided? && e.decision == "deny" && e.tool == c.name && e.relatedCall == Strip(c.id)
                && (c.name == "http_post" ==> SideEffect(Strip(c.id), "http_post", Some(e.traceId), true) in log)
  }

  lemma RejectionOnRecordLonger(log: seq<Event>, more: seq<Event>, c: ToolCall)
    requires RejectionOnRecord(log, c)
    ensures RejectionOnRecord(log + more, c)
  {
    var e :| e in log && e.PolicyDecided? && e.decision == "deny" && e.tool == c.name && e.relatedCall == Strip(c.id)
             && (c.name == "http_post" ==> SideEffect(Strip(c.id), "http_post", Some(e.traceId), true) in log);
    assert e in log + more;
  }

  /** A rejection leaves a denial for every call with an id that is not on record, and with it a
      blocked record for every write call. */
  lemma {:induction false} RejectionIsRecorded(l: Ledger, existing: set<string>, calls: seq<ToolCall>, c: ToolCall)
    requires c in calls && Strip(c.id) != "" && Strip(c.id) !in existing
    ensures RejectionOnRecord(AfterRejection(l, existing, calls).log, c)
  {
    var front, last := calls[..|calls| - 1], calls[|calls| - 1];
    var before, after := AfterRejection(l, existing, front), AfterRejection(l, existing, calls);
    assert before.log <= after.log;
    if c in front {
      RejectionIsRecorded(l, existing, front, c);
      RejectionOnRecordLonger(before.log, after.log[|before.log|..], c);
      assert after.log == before.log + after.log[|before.log|..];
    } else {
      assert c == last;
      assert after.log[|before.log|] == PolicyDecided(before.nextTrace, "deny", c.name, Strip(c.id));
      if c.name == "http_post" {
        assert after.log[|before.log| + 1] == SideEffect(Strip(c.id), "http_post", Some(before.nextTrace), true);
      }
    }
  }
}
