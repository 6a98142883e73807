/** What a run leaves in its log: merged paths, replans, and records of blocked calls. */
module AgentLedger {
  import opened Text
  import opened Messages
  import opened Routes
  import opened Plans
  import opened PathMerge
  import opened PolicyGate
  import opened AuditLog
  import opened AgentNodes
  import opened AgentRun

  // ----- decisions leave everything else alone -----

  predicate IsDecision(e: Event) { e.CredentialAudited? || e.PolicyDecided? }

  /** Only decisions and credential audits were appended. */
  predicate Neutral(l: Ledger, l': Ledger) {
    l.log <= l'.log && forall e :: e in l'.log[|l.log|..] ==> IsDecision(e)
  }

  lemma NeutralTrans(a: Ledger, b: Ledger, c: Ledger)
    requires Neutral(a, b) && Neutral(b, c)
    ensures Neutral(a, c)
  {
    assert c.log[|a.log|..] == b.log[|a.log|..] + c.log[|b.log|..];
  }

  lemma DecisionIsNeutral(l: Ledger, logged: bool, decision: string, tool: string, callId: string)
    ensures Neutral(l, AfterDecision(l, logged, decision, tool, callId))
    ensures logged ==> DecidedFor(AfterDecision(l, logged, decision, tool, callId).log, l.nextTrace, callId)
  {
    var l' := AfterDecision(l, logged, decision, tool, callId);
    if logged {
      assert l'.log[|l.log|..] == [PolicyDecided(l.nextTrace, decision, tool, callId)];
      assert l'.log[|l.log|] == PolicyDecided(l.nextTrace, decision, tool, callId);
    }
  }

  lemma {:induction false} AuditsAreNeutral(l: Ledger, audits: seq<Audit>)
    ensures Neutral(l, AfterAudits(l, audits))
  {
    if audits != [] {
      var front := audits[..|audits| - 1];
      AuditsAreNeutral(l, front);
      var before, audit := AfterAudits(l, front), audits[|audits| - 1];
      var audited := before.(log := before.log + [CredentialAudited(audit)]);
      assert audited.log[|before.log|..] == [CredentialAudited(audit)];
      NeutralTrans(l, before, audited);
      DecisionIsNeutral(audited, true, "deny", audit.tool, "");
      NeutralTrans(l, audited, AfterDecision(audited, true, "deny", audit.tool, ""));
    }
  }

  lemma {:induction false} RouteDecisionsAreNeutral(l: Ledger, logged: bool, calls: seq<ToolCall>)
    ensures var t := AfterRouteDecisions(l, logged, calls);
            && Neutral(l, t.ledger)
            && t.byCall.Keys == (set c | c in calls && c.id != "" :: c.id)
            && (logged ==> forall id :: id in t.byCall ==> DecidedFor(t.ledger.log, t.byCall[id], id))
  {
    if calls != [] {
      var front, c := calls[..|calls| - 1], calls[|calls| - 1];
      RouteDecisionsAreNeutral(l, logged, front);
      var before := AfterRouteDecisions(l, logged, front);
      DecisionIsNeutral(before.ledger, logged, "block", c.name, c.id);
      var t := AfterRouteDecisions(l, logged, calls);
      NeutralTrans(l, before.ledger, t.ledger);
      assert calls == front + [c];
      if logged {
        forall id | id in before.byCall ensures DecidedFor(t.ledger.log, before.byCall[id], id) {
          DecidedForLonger(before.ledger.log, [PolicyDecided(before.ledger.nextTrace, "block", c.name, c.id)], before.byCall[id], id);
        }
      }
    }
  }

  /** A neutral step keeps every property of blocked records and plan events. */
  lemma NeutralFacts(l: Ledger, l': Ledger)
    requires Neutral(l, l')
    ensures BlockedIds(l'.log) == BlockedIds(l.log)
    ensures RecordedIds(l'.log) == RecordedIds(l.log)
    ensures TracesBacked(l.log) ==> TracesBacked(l'.log)
    ensures AllTraced(l.log) ==> AllTraced(l'.log)
  {
    var more := l'.log[|l.log|..];
    assert l'.log == l.log + more;
    BlockedIdsConcat(l.log, more);
    NoBlockedIds(more);
    assert forall e :: e in l'.log <==> e in l.log || e in more;
    if TracesBacked(l.log) {
      TracesBackedConcat(l.log, more);
    }
  }

  lemma {:induction false} NoBlockedIds(events: seq<Event>)
    requires forall e :: e in events ==> !e.SideEffect? || !e.blocked
    ensures BlockedIds(events) == []
  {
    if events != [] {
      assert forall e :: e in events[..|events| - 1] ==> e in events;
      NoBlockedIds(events[..|events| - 1]);
    }
  }

  // ----- the audit invariant -----

  /** The write calls of a batch carry ids that stripping leaves alone and that are not blank. */
  predicate CleanIds(calls: seq<ToolCall>) {
    forall c :: c in calls && Writes(c) ==> Strip(c.id) == c.id && c.id != ""
  }

  /** Blocked records name their decisions; with distinct call ids there is one per call, with
      clean call ids each names a trace. */
  predicate Audited(l: Ledger, distinct: bool, clean: bool) {
    && TracesBacked(l.log)
    && (distinct ==> BlockedOnce(l.log))
    && (clean ==> AllTraced(l.log))
  }

  /** The log ends with the denial of that trace. */
  predicate EndsDenied(log: seq<Event>, trace: nat) {
    log != [] && log[|log| - 1].PolicyDecided? && log[|log| - 1].decision == "deny" && log[|log| - 1].traceId == trace
  }

  /** Blocked records name the decision about their call, or the denial that the log ends with. */
  lemma BlockedRecordsBacked(log: seq<Event>, calls: seq<ToolCall>, existing: set<string>, byCall: map<string, nat>, default: Option<nat>)
    requires TracesBacked(log)
    requires forall id :: id in byCall ==> DecidedFor(log, byCall[id], id)
    requires default.Some? ==> byCall == map[] && EndsDenied(log, default.value)
    ensures TracesBacked(log + BlockedRecords(calls, existing, byCall, default))
  {
    var records := BlockedRecords(calls, existing, byCall, default);
    BlockedRecordsTraced(calls, existing, byCall, default);
    forall k | 0 <= k < |records| ensures TraceKnown(log + records[..k], records[k]) {
      var e := records[k];
      assert e in records;
      if default.Some? {
        assert forall m :: 0 <= m < k ==> records[m] in records && records[..k][m] == records[m];
        assert DeniesBatchAt(log + records[..k], e.policyTrace, |log| - 1);
      } else if e.policyTrace.Some? {
        var c :| c in calls && Writes(c) && Strip(c.id) == e.callId;
        StripTwice(c.id);
        var i :| 0 <= i < |log| && log[i].PolicyDecided? && log[i].traceId == byCall[e.callId] && log[i].relatedCall == e.callId;
        assert Concerns(log[i], e);
        OwnDecisionLonger(log, records[..k], e);
      }
    }
    TracesBackedConcat(log, records);
  }

  /** Appending blocked records whose traces are decided keeps the log in order. */
  lemma BlockedKeepsAudited(recording: bool, l: Ledger, calls: seq<ToolCall>, byCall: map<string, nat>,
                            default: Option<nat>, distinct: bool, clean: bool)
    requires Audited(l, distinct, clean)
    requires recording ==> forall id :: id in byCall ==> DecidedFor(l.log, byCall[id], id)
    requires recording && default.Some? ==> byCall == map[] && EndsDenied(l.log, default.value)
    requires distinct ==> DistinctCalls(calls)
    requires clean ==> default.Some? || forall c :: c in calls && Writes(c) ==> Strip(c.id) in byCall
    ensures Audited(AfterBlocked(recording, l, calls, byCall, default), distinct, clean)
  {
    if recording {
      var existing := RecordedIds(l.log);
      var records := BlockedRecords(calls, existing, byCall, default);
      BlockedRecordsTraced(calls, existing, byCall, default);
      BlockedRecordsBacked(l.log, calls, existing, byCall, default);
      if distinct {
        NewIdsFromCalls(calls, existing);
        BlockedOnceStep(l.log, calls, byCall, default);
      }
      assert forall e :: e in l.log + records <==> e in l.log || e in records;
    }
  }

  lemma {:induction false} RouteBlockedDistinct(route: Route, calls: seq<ToolCall>)
    requires DistinctCalls(calls)
    ensures DistinctCalls(RouteBlocked(route, calls))
  {
    if calls != [] {
      var front, last := calls[..|calls| - 1], calls[|calls| - 1];
      RouteBlockedDistinct(route, front);
      RouteBlockedMeaning(route, front);
      var blocked := RouteBlocked(route, front);
      forall i | 0 <= i < |blocked| && Writes(blocked[i]) && Writes(last) && Strip(blocked[i].id) != ""
        ensures Strip(blocked[i].id) != Strip(last.id)
      {
        assert blocked[i] in blocked;
        var k :| 0 <= k < |front| && front[k] == blocked[i];
        assert calls[k] == front[k] && calls[|calls| - 1] == last;
      }
    }
  }

  /** A route block names the decision for a call exactly when some blocked call carries the
      stripped id verbatim: a call id with surrounding blanks loses its trace. */
  lemma RouteRecordTraceIff(l: Ledger, logged: bool, calls: seq<ToolCall>, existing: set<string>, e: Event)
    requires e in BlockedRecords(calls, existing, AfterRouteDecisions(l, logged, calls).byCall, None)
    ensures e.SideEffect? && (e.policyTrace.Some? <==> exists c :: c in calls && c.id == e.callId && c.id != "")
  {
    RouteDecisionsAreNeutral(l, logged, calls);
    BlockedRecordsTraced(calls, existing, AfterRouteDecisions(l, logged, calls).byCall, None);
  }

  lemma GateKeepsAudited(cfg: RunConfig, ms: seq<Message>, route: Option<Route>, confirm: bool, resume: Option<bool>,
                         l: Ledger, distinct: bool, clean: bool)
    requires Audited(l, distinct, clean)
    requires distinct ==> DistinctCalls(PendingCalls(ms))
    requires clean ==> CleanIds(PendingCalls(ms))
    ensures Audited(Gate(cfg, ms, route, confirm, resume, l).ledger, distinct, clean)
  {
    var calls := PendingCalls(ms);
    if calls != [] {
      var d := Decide(cfg.policy, calls, confirm, []);
      var l1 := if cfg.Recording() then AfterAudits(l, d.audits) else l;
      AuditsAreNeutral(l, d.audits);
      NeutralFacts(l, AfterAudits(l, d.audits));
      if !d.allowed {
        DenyKeepsAudited(cfg, d, calls, l1, distinct, clean);
      } else if RouteStops(cfg, route, calls) {
        RouteStopKeepsAudited(cfg, route.value, calls, l1, distinct, clean);
      } else if d.requiresApproval {
        DecisionIsNeutral(l1, true, "ask", d.tool, d.callId);
        NeutralFacts(l1, AfterDecision(l1, true, "ask", d.tool, d.callId));
      }
    }
  }

  lemma DenyKeepsAudited(cfg: RunConfig, d: PolicyGate.Decision, calls: seq<ToolCall>, l: Ledger, distinct: bool, clean: bool)
    requires Audited(l, distinct, clean)
    requires distinct ==> DistinctCalls(calls)
    ensures Audited(DenyLedger(cfg, d, calls, l), distinct, clean)
  {
    var decided := AfterDecision(l, cfg.Recording(), "deny", d.tool, d.callId);
    DecisionIsNeutral(l, cfg.Recording(), "deny", d.tool, d.callId);
    NeutralFacts(l, decided);
    BlockedKeepsAudited(cfg.Recording(), decided, calls, map[], Some(l.nextTrace), distinct, clean);
  }

  lemma RouteStopKeepsAudited(cfg: RunConfig, route: Route, calls: seq<ToolCall>, l: Ledger, distinct: bool, clean: bool)
    requires Audited(l, distinct, clean)
    requires distinct ==> DistinctCalls(calls)
    requires clean ==> CleanIds(calls)
    ensures Audited(RouteStopLedger(cfg, route, calls, l), distinct, clean)
  {
    var blocked := RouteBlocked(route, calls);
    var traced := AfterRouteDecisions(l, cfg.runId != "", blocked);
    RouteDecisionsAreNeutral(l, cfg.runId != "", blocked);
    NeutralFacts(l, traced.ledger);
    RouteBlockedMeaning(route, calls);
    if distinct {
      RouteBlockedDistinct(route, calls);
    }
    BlockedKeepsAudited(cfg.Recording(), traced.ledger, blocked, traced.byCall, None, distinct, clean);
  }

  lemma BlockedIdsSnoc(log: seq<Event>, e: Event)
    ensures BlockedIds(log + [e]) == BlockedIds(log) + if e.SideEffect? && e.blocked && e.callId != "" then [e.callId] else []
  {
    assert (log + [e])[..|log|] == log;
  }

  lemma NewIdsOfOne(call: ToolCall, existing: set<string>)
    ensures var id := Strip(call.id);
            NewIds([call], existing) == if Writes(call) && id != "" && id !in existing then [id] else []
  {
    assert [call][..0] == [];
  }

  /** From one log to a longer one, blocked records were added for these ids in good order. */
  predicate Recorded(log: seq<Event>, after: seq<Event>, ids: seq<string>) {
    && (TracesBacked(log) ==> TracesBacked(after))
    && (AllTraced(log) ==> AllTraced(after))
    && BlockedIds(after) == BlockedIds(log) + ids
  }

  lemma RecordedTrans(a: seq<Event>, b: seq<Event>, c: seq<Event>, ids: seq<string>, more: seq<string>)
    requires Recorded(a, b, ids) && Recorded(b, c, more)
    ensures Recorded(a, c, ids + more)
  {
  }

  /** One rejected call: its decision comes first, then its blocked record. */
  lemma RejectedCallParts(l: Ledger, existing: set<string>, call: ToolCall)
    ensures Recorded(l.log, AfterRejectedCall(l, existing, call).log, NewIds([call], existing))
  {
    var id := Strip(call.id);
    NewIdsOfOne(call, existing);
    if id != "" && id !in existing {
      var decided := AfterDecision(l, true, "deny", call.name, id);
      DecisionIsNeutral(l, true, "deny", call.name, id);
      NeutralFacts(l, decided);
      if Writes(call) {
        StripTwice(call.id);
        assert decided.log[|l.log|] == PolicyDecided(l.nextTrace, "deny", call.name, id);
        RecordBehindDecision(decided.log, SideEffect(id, call.name, Some(l.nextTrace), true));
        RecordedTrans(l.log, decided.log, AfterRejectedCall(l, existing, call).log, [], [id]);
      }
    }
  }

  /** A blocked record right behind the decision about its call. */
  lemma RecordBehindDecision(log: seq<Event>, record: Event)
    requires log != [] && Concerns(log[|log| - 1], record) && record.blocked && record.callId != ""
    ensures Recorded(log, log + [record], [record.callId])
  {
    if TracesBacked(log) {
      assert log + [record][..0] == log;
      TracesBackedConcat(log, [record]);
    }
    BlockedIdsSnoc(log, record);
    assert forall e :: e in log + [record] <==> e in log || e == record;
  }

  lemma {:induction false} RejectionParts(l: Ledger, existing: set<string>, calls: seq<ToolCall>)
    ensures Recorded(l.log, AfterRejection(l, existing, calls).log, NewIds(calls, existing))
  {
    if calls != [] {
      var front, last := calls[..|calls| - 1], calls[|calls| - 1];
      RejectionParts(l, existing, front);
      var before := AfterRejection(l, existing, front);
      RejectedCallParts(before, existing, last);
      assert AfterRejection(l, existing, calls) == AfterRejectedCall(before, existing, last);
      NewIdsSnoc(front, last, existing);
      assert calls == front + [last];
      RecordedTrans(l.log, before.log, AfterRejection(l, existing, calls).log, NewIds(front, existing), NewIds([last], existing));
    }
  }

  lemma NewIdsSnoc(front: seq<ToolCall>, last: ToolCall, existing: set<string>)
    ensures NewIds(front + [last], existing) == NewIds(front, existing) + NewIds([last], existing)
  {
    assert (front + [last])[..|front|] == front;
    assert [last][..0] == [];
  }

  lemma RejectionKeepsAudited(l: Ledger, calls: seq<ToolCall>, distinct: bool, clean: bool)
    requires Audited(l, distinct, clean)
    requires distinct ==> DistinctCalls(calls)
    ensures Audited(AfterRejection(l, RecordedIds(l.log), calls), distinct, clean)
  {
    var existing := RecordedIds(l.log);
    RejectionParts(l, existing, calls);
    if distinct {
      NewIdsFromCalls(calls, existing);
      BlockedIdsAreRecorded(l.log);
      BlockedIdsOfRecords(calls, existing, map[], None);
      DistinctConcat(BlockedIds(l.log), NewIds(calls, existing));
    }
  }

  /** Every batch the model proposes has distinct write-call ids, or clean ones. */
  predicate AllBatches(inputs: seq<Input>, distinct: bool, clean: bool) {
    forall i :: i in inputs && i.ModelAnswers? ==> (distinct ==> DistinctCalls(i.calls)) && (clean ==> CleanIds(i.calls))
  }

  ghost predicate AuditInvariant(s: RunState, distinct: bool, clean: bool) {
    && Audited(s.ledger, distinct, clean)
    && (s.phase == AtGate || s.phase == Waiting || s.phase == AtTools ==>
          (distinct ==> DistinctCalls(PendingCalls(s.messages))) && (clean ==> CleanIds(PendingCalls(s.messages))))
  }

  lemma HarmlessKeepsAudited(l: Ledger, more: seq<Event>, distinct: bool, clean: bool)
    requires Audited(l, distinct, clean)
    requires forall e :: e in more ==> !e.SideEffect? || !e.blocked
    ensures Audited(l.(log := l.log + more), distinct, clean)
  {
    BlockedIdsConcat(l.log, more);
    NoBlockedIds(more);
    TracesBackedConcat(l.log, more);
    assert forall e :: e in l.log + more <==> e in l.log || e in more;
  }

  lemma AssistantKeepsAudited(cfg: RunConfig, s: RunState, diagnosis: Option<string>, answer: Message, distinct: bool, clean: bool)
    requires Audited(s.ledger, distinct, clean) && answer.AI?
    requires (distinct ==> DistinctCalls(answer.toolCalls)) && (clean ==> CleanIds(answer.toolCalls))
    ensures AuditInvariant(AssistantStep(cfg, s, diagnosis, answer), distinct, clean)
  {
    var events := MergeEvents(cfg, Some(s.route), s.messages) + ReplanEvents(cfg, Some(s.plan), Some(s.route.kind), s.messages);
    HarmlessKeepsAudited(s.ledger, events, distinct, clean);
    assert PendingCalls(AssistantStep(cfg, s, diagnosis, answer).messages) == answer.toolCalls;
  }

  lemma GateStepKeepsAudited(cfg: RunConfig, s: RunState, distinct: bool, clean: bool)
    requires AuditInvariant(s, distinct, clean) && s.phase == AtGate
    ensures AuditInvariant(GateStep(cfg, s), distinct, clean)
  {
    GateKeepsAudited(cfg, s.messages, Some(s.route), s.confirm, s.resume, s.ledger, distinct, clean);
  }

  lemma HumanStepKeepsAudited(s: RunState, approve: bool, distinct: bool, clean: bool)
    requires AuditInvariant(s, distinct, clean) && s.phase == Waiting
    ensures AuditInvariant(HumanStep(s, approve), distinct, clean)
  {
    RejectionKeepsAudited(s.ledger, PendingCalls(s.messages), distinct, clean);
  }

  lemma StepKeepsAudited(cfg: RunConfig, s: RunState, input: Input, distinct: bool, clean: bool)
    requires AuditInvariant(s, distinct, clean)
    requires input.ModelAnswers? ==> (distinct ==> DistinctCalls(input.calls)) && (clean ==> CleanIds(input.calls))
    ensures AuditInvariant(Step(cfg, s, input), distinct, clean)
  {
    match (s.phase, input)
    case (AtAssistant, ModelAnswers(diagnosis, text, calls)) =>
      AssistantKeepsAudited(cfg, s, diagnosis, AI(text, calls), distinct, clean);
    case (AtGate, GateRuns) =>
      GateStepKeepsAudited(cfg, s, distinct, clean);
    case (AtTools, ToolsReport(reports, effects)) =>
      HarmlessKeepsAudited(s.ledger, EffectEvents(effects), distinct, clean);
    case (Waiting, HumanDecides(approve)) =>
      HumanStepKeepsAudited(s, approve, distinct, clean);
    case _ =>
  }

  /** The blocked-call log over every run: each blocked record's policy trace is that of a decision
      logged before it, which is about the record's own call or denies the batch that the record
      was written with; when no batch repeats a write-call id there is at most one blocked record
      per call id; when write-call ids are non-blank and already stripped every blocked record
      names its trace. */
  lemma {:induction false} BlockedLogInOrder(cfg: RunConfig, messages: seq<Message>, route: Route, plan: Plan, confirm: bool,
                                             inputs: seq<Input>, distinct: bool, clean: bool)
    requires AllBatches(inputs, distinct, clean)
    ensures var log := Run(cfg, Start(cfg, messages, route, plan, confirm), inputs).ledger.log;
            && TracesBacked(log)
            && (distinct ==> BlockedOnce(log))
            && (clean ==> AllTraced(log))
    ensures AuditInvariant(Run(cfg, Start(cfg, messages, route, plan, confirm), inputs), distinct, clean)
  {
    if inputs != [] {
      var front, last := inputs[..|inputs| - 1], inputs[|inputs| - 1];
      assert forall i :: i in front ==> i in inputs;
      assert last in inputs;
      BlockedLogInOrder(cfg, messages, route, plan, confirm, front, distinct, clean);
      StepKeepsAudited(cfg, Run(cfg, Start(cfg, messages, route, plan, confirm), front), last, distinct, clean);
    }
  }

  // ----- merged paths and replans -----

  function CountMerges(log: seq<Event>): nat {
    if log == [] then 0 else CountMerges(log[..|log| - 1]) + if log[|log| - 1].PathsMerged? then 1 else 0
  }

  function CountReplans(log: seq<Event>): nat {
    if log == [] then 0 else CountReplans(log[..|log| - 1]) + if log[|log| - 1].Replanned? then 1 else 0
  }

  lemma {:induction false} CountConcat(a: seq<Event>, b: seq<Event>)
    ensures CountMerges(a + b) == CountMerges(a) + CountMerges(b)
    ensures CountReplans(a + b) == CountReplans(a) + CountReplans(b)
  {
    if b == [] {
      assert a + b == a;
    } else {
      CountConcat(a, b[..|b| - 1]);
      assert (a + b)[..|a + b| - 1] == a + b[..|b| - 1];
    }
  }

  /** Nothing but decisions, audits and side-effect records was appended. */
  predicate NoPlanEvents(l: Ledger, l': Ledger) {
    l.log <= l'.log && forall e :: e in l'.log[|l.log|..] ==> !e.PathsMerged? && !e.Replanned?
  }

  lemma {:induction false} NoPlanEventsCount(events: seq<Event>)
    requires forall e :: e in events ==> !e.PathsMerged? && !e.Replanned?
    ensures CountMerges(events) == 0 && CountReplans(events) == 0
  {
    if events != [] {
      assert forall e :: e in events[..|events| - 1] ==> e in events;
      NoPlanEventsCount(events[..|events| - 1]);
    }
  }

  lemma NoPlanEventsKeepsCounts(l: Ledger, l': Ledger)
    requires NoPlanEvents(l, l')
    ensures CountMerges(l'.log) == CountMerges(l.log) && CountReplans(l'.log) == CountReplans(l.log)
  {
    assert l'.log == l.log + l'.log[|l.log|..];
    CountConcat(l.log, l'.log[|l.log|..]);
    NoPlanEventsCount(l'.log[|l.log|..]);
  }

  lemma AfterBlockedNoPlanEvents(recording: bool, l0: Ledger, l: Ledger, calls: seq<ToolCall>, byCall: map<string, nat>, default: Option<nat>)
    requires Neutral(l0, l)
    ensures NoPlanEvents(l0, AfterBlocked(recording, l, calls, byCall, default))
  {
    var records := BlockedRecords(calls, RecordedIds(l.log), byCall, default);
    BlockedRecordsTraced(calls, RecordedIds(l.log), byCall, default);
    assert (l.log + records)[|l0.log|..] == l.log[|l0.log|..] + records;
  }

  lemma GateNoPlanEvents(cfg: RunConfig, ms: seq<Message>, route: Option<Route>, confirm: bool, resume: Option<bool>, l: Ledger)
    ensures NoPlanEvents(l, Gate(cfg, ms, route, confirm, resume, l).ledger)
  {
    var calls := PendingCalls(ms);
    if calls != [] {
      var d := Decide(cfg.policy, calls, confirm, []);
      var l1 := if cfg.Recording() then AfterAudits(l, d.audits) else l;
      AuditsAreNeutral(l, d.audits);
      assert Neutral(l, l1);
      if !d.allowed {
        DecisionIsNeutral(l1, cfg.Recording(), "deny", d.tool, d.callId);
        var l2 := AfterDecision(l1, cfg.Recording(), "deny", d.tool, d.callId);
        NeutralTrans(l, l1, l2);
        AfterBlockedNoPlanEvents(cfg.Recording(), l, l2, calls, map[], Some(l1.nextTrace));
      } else if RouteStops(cfg, route, calls) {
        var blocked := RouteBlocked(route.value, calls);
        RouteDecisionsAreNeutral(l1, cfg.runId != "", blocked);
        var traced := AfterRouteDecisions(l1, cfg.runId != "", blocked);
        NeutralTrans(l, l1, traced.ledger);
        AfterBlockedNoPlanEvents(cfg.Recording(), l, traced.ledger, blocked, traced.byCall, None);
      } else if d.requiresApproval {
        DecisionIsNeutral(l1, true, "ask", d.tool, d.callId);
        NeutralTrans(l, l1, AfterDecision(l1, true, "ask", d.tool, d.callId));
      }
    }
  }

  lemma {:induction false} RejectionNoPlanEvents(l: Ledger, existing: set<string>, calls: seq<ToolCall>)
    ensures NoPlanEvents(l, AfterRejection(l, existing, calls))
  {
    if calls != [] {
      RejectionNoPlanEvents(l, existing, calls[..|calls| - 1]);
      var before := AfterRejection(l, existing, calls[..|calls| - 1]);
      var after := AfterRejection(l, existing, calls);
      assert before.log <= after.log;
      assert after.log[|l.log|..] == before.log[|l.log|..] + after.log[|before.log|..];
    }
  }

  ghost predicate PathInvariant(cfg: RunConfig, start: RunState, s: RunState) {
    && s.seen <= |s.messages|
    && PathsAreHinted(cfg, start.route, s.route, s.messages[..s.seen])
    && CountMerges(s.ledger.log) <= |s.route.suggestedPaths| - |start.route.suggestedPaths|
    && CountReplans(s.ledger.log) <= s.replans
  }

  lemma CountOne(e: Event)
    ensures CountMerges([e]) == (if e.PathsMerged? then 1 else 0)
    ensures CountReplans([e]) == (if e.Replanned? then 1 else 0)
  {
    assert [e][..0] == [];
  }

  lemma AssistantEventCounts(cfg: RunConfig, log: seq<Event>, route: Route, plan: Plan, ms: seq<Message>)
    ensures var kind := Some(route.kind);
            var log' := log + (MergeEvents(cfg, Some(route), ms) + ReplanEvents(cfg, Some(plan), kind, ms));
            && CountMerges(log') <= CountMerges(log) + (if MergeInto(cfg, Some(route), ms) != Some(route) then 1 else 0)
            && CountReplans(log') <= CountReplans(log) + (if ReplansNow(Some(plan), kind, ms) then 1 else 0)
  {
    var merges, replans := MergeEvents(cfg, Some(route), ms), ReplanEvents(cfg, Some(plan), Some(route.kind), ms);
    CountConcat(log, merges + replans);
    CountConcat(merges, replans);
    if merges != [] {
      CountOne(merges[0]);
    }
    if replans != [] {
      CountOne(replans[0]);
    }
  }

  lemma AssistantKeepsPaths(cfg: RunConfig, start: RunState, s: RunState, diagnosis: Option<string>, answer: Message)
    requires PathInvariant(cfg, start, s)
    ensures PathInvariant(cfg, start, AssistantStep(cfg, s, diagnosis, answer))
  {
    var s' := AssistantStep(cfg, s, diagnosis, answer);
    MergeKeepsPaths(cfg, start.route, s.route, s.messages[..s.seen], s.messages[s.seen..]);
    assert s.messages == s.messages[..s.seen] + s.messages[s.seen..];
    AssistantEventCounts(cfg, s.ledger.log, s.route, s.plan, s.messages);
    assert s'.messages[..s'.seen] == s.messages;
  }

  /** The paths are the initial ones plus those hinted in the messages seen so far. */
  ghost predicate PathsAreHinted(cfg: RunConfig, initial: Route, current: Route, seen: seq<Message>) {
    var paths := current.suggestedPaths;
    && |initial.suggestedPaths| <= |paths|
    && (cfg.injectPaths ==> Elements(paths) == Elements(initial.suggestedPaths) + HintedPaths(seen, cfg.parse))
    && (!cfg.injectPaths ==> current == initial)
    && (NoDup(initial.suggestedPaths) ==> NoDup(paths))
  }

  lemma MergeKeepsPaths(cfg: RunConfig, initial: Route, current: Route, seen: seq<Message>, rest: seq<Message>)
    requires PathsAreHinted(cfg, initial, current, seen)
    ensures var merged := MergeInto(cfg, Some(current), seen + rest);
            && merged.Some? && PathsAreHinted(cfg, initial, merged.value, seen + rest)
            && |merged.value.suggestedPaths| >= |current.suggestedPaths| + (if merged.value != current then 1 else 0)
  {
    MergedRouteParts(current, seen + rest, cfg.parse);
    HintedPathsConcat(seen, rest, cfg.parse);
  }

  /** A step that leaves route and plan alone and logs nothing about them. */
  predicate QuietStep(s: RunState, s': RunState) {
    && NoPlanEvents(s.ledger, s'.ledger)
    && s.messages <= s'.messages
    && s'.route == s.route && s'.seen == s.seen && s'.replans == s.replans
  }

  lemma GateIsQuiet(cfg: RunConfig, s: RunState)
    ensures QuietStep(s, GateStep(cfg, s))
  {
    GateNoPlanEvents(cfg, s.messages, Some(s.route), s.confirm, s.resume, s.ledger);
  }

  lemma ToolsAreQuiet(s: RunState, reports: seq<ToolReport>, effects: seq<string>)
    ensures QuietStep(s, ToolsStep(s, reports, effects))
  {
  }

  lemma HumanIsQuiet(s: RunState, approve: bool)
    ensures QuietStep(s, HumanStep(s, approve))
  {
    RejectionNoPlanEvents(s.ledger, RecordedIds(s.ledger.log), PendingCalls(s.messages));
  }

  lemma QuietStepKeepsPaths(cfg: RunConfig, start: RunState, s: RunState, s': RunState)
    requires PathInvariant(cfg, start, s) && QuietStep(s, s')
    ensures PathInvariant(cfg, start, s')
  {
    NoPlanEventsKeepsCounts(s.ledger, s'.ledger);
    assert s'.messages[..s.seen] == s.messages[..s.seen];
  }

  lemma StepKeepsPaths(cfg: RunConfig, start: RunState, s: RunState, input: Input)
    requires PathInvariant(cfg, start, s)
    ensures PathInvariant(cfg, start, Step(cfg, s, input))
  {
    var s' := Step(cfg, s, input);
    match (s.phase, input)
    case (AtAssistant, ModelAnswers(diagnosis, text, calls)) =>
      AssistantKeepsPaths(cfg, start, s, diagnosis, AI(text, calls));
    case (AtGate, GateRuns) =>
      GateIsQuiet(cfg, s);
      QuietStepKeepsPaths(cfg, start, s, s');
    case (AtTools, ToolsReport(reports, effects)) =>
      ToolsAreQuiet(s, reports, effects);
      QuietStepKeepsPaths(cfg, start, s, s');
    case (Waiting, HumanDecides(approve)) =>
      HumanIsQuiet(s, approve);
      QuietStepKeepsPaths(cfg, start, s, s');
    case _ =>
  }

  /** Path merging over every run: with path injection on, the route's paths are the planner's
      plus every path hinted in what the last assistant step saw, without duplicates if there
      were none; each path_merge event added at least one path, so there are no more such events
      than new paths; and at most one replan event is logged. */
  lemma {:induction false} PathsOverRun(cfg: RunConfig, messages: seq<Message>, route: Route, plan: Plan, confirm: bool, inputs: seq<Input>)
    ensures var s := Run(cfg, Start(cfg, messages, route, plan, confirm), inputs);
            var paths := s.route.suggestedPaths;
            && s.seen <= |s.messages|
            && (cfg.injectPaths ==> Elements(paths) == Elements(route.suggestedPaths) + HintedPaths(s.messages[..s.seen], cfg.parse))
            && (!cfg.injectPaths ==> s.route == route)
            && (NoDup(route.suggestedPaths) ==> NoDup(paths))
            && CountMerges(s.ledger.log) <= |paths| - |route.suggestedPaths|
            && CountReplans(s.ledger.log) <= 1
    ensures PathInvariant(cfg, Start(cfg, messages, route, plan, confirm), Run(cfg, Start(cfg, messages, route, plan, confirm), inputs))
  {
    var start := Start(cfg, messages, route, plan, confirm);
    if inputs == [] {
      assert messages[..0] == [];
      assert [PlanCreated(route, plan)][..0] == [];
    } else {
      var front := inputs[..|inputs| - 1];
      PathsOverRun(cfg, messages, route, plan, confirm, front);
      StepKeepsPaths(cfg, start, Run(cfg, start, front), inputs[|inputs| - 1]);
    }
    PlanClosedForm(cfg, messages, route, plan, confirm, inputs);
  }
}
