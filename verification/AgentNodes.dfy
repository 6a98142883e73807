/** The nodes of the agent graph: planner, assistant and safety gate. */
module AgentNodes {
  import opened Text
  import opened Messages
  import opened Routes
  import opened Plans
  import opened PathMerge
  import opened PolicyGate
  import opened AuditLog
  import TurnAssembly

  /** Settings, policy and identity of a run. `parse` reads the raw path hints out of a tool
      report's text. */
  datatype RunConfig = RunConfig(
    policy: PolicyConfig,
    enforceRoute: bool,
    injectPaths: bool,
    parse: string -> seq<string>,
    threadId: string,
    runId: string)
  {
    predicate Recording() { threadId != "" && runId != "" }
  }

  // ----- the assistant -----

  function MergeInto(cfg: RunConfig, route: Option<Route>, ms: seq<Message>): Option<Route> {
    if route.Some? && cfg.injectPaths then Some(MergedRoute(route.value, ms, cfg.parse)) else route
  }

  function MergeEvents(cfg: RunConfig, route: Option<Route>, ms: seq<Message>): seq<Event> {
    var merged := MergeInto(cfg, route, ms);
    if merged != route && cfg.Recording() then [PathsMerged(merged.value, ExtractedPaths(ms, cfg.parse))] else []
  }

  function KindOfRoute(route: Option<Route>): Option<RouteKind> {
    match route
    case None => None
    case Some(r) => Some(r.kind)
  }

  function AdvancePlan(plan: Option<Plan>, kind: Option<RouteKind>, ms: seq<Message>): Option<Plan> {
    match plan
    case None => None
    case Some(p) => Some(Advanced(p, kind, ms))
  }

  predicate ReplansNow(plan: Option<Plan>, kind: Option<RouteKind>, ms: seq<Message>) {
    plan.Some? && Replans(Updated(plan.value, ToolNames(ms)), kind, ms)
  }

  function ReplanEvents(cfg: RunConfig, plan: Option<Plan>, kind: Option<RouteKind>, ms: seq<Message>): seq<Event> {
    if ReplansNow(plan, kind, ms) && cfg.Recording()
    then [Replanned(AdvancePlan(plan, kind, ms).value)] else []
  }

  /** System messages put before the model's answer: a new route and a diagnosis outline, unless
      the same text is there already. */
  function Injected(route: Option<Route>, merged: Option<Route>, diagnosis: Option<string>, ms: seq<Message>): seq<Message> {
    var existing := TurnAssembly.SystemContents(ms);
    (if merged != route && merged.Some? && Strip(RouteSystemText(merged.value)) !in existing
     then [System(RouteSystemText(merged.value))] else [])
    + (if diagnosis.Some? && Strip(diagnosis.value) !in existing then [System(diagnosis.value)] else [])
  }

  // ----- the safety gate -----

  datatype GateOutcome = Through | Refused(text: string) | Paused

  /** The gate's outcome with the ledger it leaves. */
  datatype GateResult = GateResult(outcome: GateOutcome, ledger: Ledger)

  const REJECTED_TEXT := "Dangerous tool call was rejected by the user."

  /** The tool calls of the last message, if it is the model's. */
  function PendingCalls(ms: seq<Message>): seq<ToolCall> {
    if ms != [] && ms[|ms| - 1].AI? then ms[|ms| - 1].toolCalls else []
  }

  function RouteBlocked(route: Route, calls: seq<ToolCall>): seq<ToolCall> {
    if calls == [] then []
    else RouteBlocked(route, calls[..|calls| - 1])
         + if ToolAllowed(route, calls[|calls| - 1].name) then [] else [calls[|calls| - 1]]
  }

  predicate RouteAllows(route: Route, calls: seq<ToolCall>) {
    forall c :: c in calls ==> ToolAllowed(route, c.name)
  }

  lemma {:induction false} RouteBlockedMeaning(route: Route, calls: seq<ToolCall>)
    ensures RouteBlocked(route, calls) == [] <==> RouteAllows(route, calls)
    ensures forall c :: c in RouteBlocked(route, calls) <==> c in calls && !ToolAllowed(route, c.name)
  {
    if calls != [] {
      RouteBlockedMeaning(route, calls[..|calls| - 1]);
      assert calls == calls[..|calls| - 1] + [calls[|calls| - 1]];
    }
  }

  /** The ledger after the route decisions, and the trace id decided for each raw call id. */
  datatype Traced = Traced(ledger: Ledger, byCall: map<string, nat>)

  function AfterRouteDecisions(l: Ledger, logged: bool, calls: seq<ToolCall>): Traced {
    if calls == [] then Traced(l, map[])
    else
      var before := AfterRouteDecisions(l, logged, calls[..|calls| - 1]);
      var c := calls[|calls| - 1];
      Traced(AfterDecision(before.ledger, logged, "block", c.name, c.id),
             if c.id != "" then before.byCall[c.id := before.ledger.nextTrace] else before.byCall)
  }

  function AfterBlocked(recording: bool, l: Ledger, calls: seq<ToolCall>, byCall: map<string, nat>, default: Option<nat>): Ledger {
    if recording then l.(log := l.log + BlockedRecords(calls, RecordedIds(l.log), byCall, default)) else l
  }

  predicate RouteStops(cfg: RunConfig, route: Option<Route>, calls: seq<ToolCall>) {
    cfg.enforceRoute && route.Some? && RouteBlocked(route.value, calls) != []
  }

  function DenyLedger(cfg: RunConfig, d: Decision, calls: seq<ToolCall>, l: Ledger): Ledger {
    AfterBlocked(cfg.Recording(), AfterDecision(l, cfg.Recording(), "deny", d.tool, d.callId), calls,
                 map[], Some(l.nextTrace))
  }

  function RouteStopLedger(cfg: RunConfig, route: Route, calls: seq<ToolCall>, l: Ledger): Ledger {
    var blocked := RouteBlocked(route, calls);
    var traced := AfterRouteDecisions(l, cfg.runId != "", blocked);
    AfterBlocked(cfg.Recording(), traced.ledger, blocked, traced.byCall, None)
  }

  function Gate(cfg: RunConfig, ms: seq<Message>, route: Option<Route>, confirm: bool, resume: Option<bool>, l: Ledger): GateResult {
    var calls := PendingCalls(ms);
    if calls == [] then GateResult(Through, l)
    else
      var d := Decide(cfg.policy, calls, confirm, []);
      var l1 := if cfg.Recording() then AfterAudits(l, d.audits) else l;
      if !d.allowed then GateResult(Refused(d.reason), DenyLedger(cfg, d, calls, l1))
      else if RouteStops(cfg, route, calls) then
        GateResult(Refused("tool_route_forbidden"), RouteStopLedger(cfg, route.value, calls, l1))
      else if d.requiresApproval then
        var l2 := if cfg.Recording() then AfterDecision(l1, true, "ask", d.tool, d.callId) else l1;
        match resume
        case None => GateResult(Paused, l2)
        case Some(approved) => GateResult(if approved then Through else Refused(REJECTED_TEXT), l2)
      else GateResult(Through, l1)
  }

  class Nodes {
    const cfg: RunConfig
    var log: seq<Event>
    var nextTrace: nat

    constructor (cfg: RunConfig)
      ensures this.cfg == cfg && log == [] && nextTrace == 0
    {
      this.cfg := cfg;
      log, nextTrace := [], 0;
    }

    function Ledger(): Ledger
      reads this
    {
      AuditLog.Ledger(log, nextTrace)
    }

    /** Chooses the run's route and plan: the model's when it planned, the rules' otherwise. */
    method Planner(baseline: Route, goal: string, fromModel: Option<(Route, Plan)>) returns (route: Route, plan: Plan)
      modifies this`log
      ensures fromModel.Some? ==> (route, plan) == fromModel.value
      ensures fromModel.None? ==> route == baseline && plan.routeKind == Some(baseline.kind)
                                  && forall s :: s in plan.steps ==> s.status == Pending
      ensures log == old(log) + if cfg.runId != "" then [PlanCreated(route, plan)] else []
    {
      route := baseline;
      plan := BuildPlanFromRoute(route, goal);
      if fromModel.Some? {
        route, plan := fromModel.value.0, fromModel.value.1;
      }
      if cfg.runId != "" {
        log := log + [PlanCreated(route, plan)];
      }
    }

    /** One assistant step up to the model's answer: merge hinted paths, advance the plan, decide
        what to inject. */
    method Assistant(ms: seq<Message>, route: Option<Route>, plan: Option<Plan>, diagnosis: Option<string>)
      returns (route': Option<Route>, plan': Option<Plan>, injected: seq<Message>)
      modifies this`log
      ensures route' == MergeInto(cfg, route, ms)
      ensures plan' == AdvancePlan(plan, KindOfRoute(route), ms)
      ensures injected == Injected(route, route', diagnosis, ms)
      ensures log == old(log) + MergeEvents(cfg, route, ms) + ReplanEvents(cfg, plan, KindOfRoute(route), ms)
    {
      route', plan' := route, plan;
      if route.Some? && cfg.injectPaths {
        var paths := ExtractSuggestedPaths(ms, cfg.parse);
        var merged, changed := MergeApiPaths(route.value, paths);
        if changed {
          route' := Some(merged);
          if cfg.Recording() {
            log := log + [PathsMerged(merged, paths)];
          }
        }
      }
      var kind := KindOfRoute(route');
      ghost var mergedLog := log;
      assert mergedLog == old(log) + MergeEvents(cfg, route, ms);
      if plan.Some? {
        var updated := UpdatePlanOutcomes(plan.value, ms);
        var replanned := MaybeReplanTroubleshooting(updated, kind, ms);
        if replanned.Some? {
          updated := replanned.value;
          if cfg.Recording() {
            log := log + [Replanned(updated)];
          }
        }
        plan' := Some(updated);
      }
      assert log == mergedLog + ReplanEvents(cfg, plan, KindOfRoute(route), ms);
      injected := InjectedMessages(route, route', diagnosis, ms);
    }

    method InjectedMessages(route: Option<Route>, merged: Option<Route>, diagnosis: Option<string>, ms: seq<Message>)
      returns (injected: seq<Message>)
      ensures injected == Injected(route, merged, diagnosis, ms)
    {
      injected := [];
      var existing := TurnAssembly.ExistingSystemContents(ms);
      if merged != route && merged.Some? {
        var text := RouteSystemText(merged.value);
        if Strip(text) !in existing {
          injected := [System(text)];
        }
      }
      if diagnosis.Some? && Strip(diagnosis.value) !in existing {
        injected := injected + [System(diagnosis.value)];
      }
    }

    method RecordAudits(audits: seq<Audit>)
      modifies this
      ensures Ledger() == AfterAudits(old(Ledger()), audits)
    {
      for i := 0 to |audits|
        invariant Ledger() == AfterAudits(old(Ledger()), audits[..i])
      {
        assert audits[..i + 1][..i] == audits[..i];
        log := log + [CredentialAudited(audits[i])];
        if audits[i].denied {
          log := log + [PolicyDecided(nextTrace, "deny", audits[i].tool, "")];
          nextTrace := nextTrace + 1;
        }
      }
      assert audits[..|audits|] == audits;
    }

    method RecordDecision(logged: bool, decision: string, tool: string, callId: string) returns (trace: nat)
      modifies this
      ensures Ledger() == AfterDecision(old(Ledger()), logged, decision, tool, callId)
      ensures trace == old(nextTrace)
    {
      trace := nextTrace;
      nextTrace := nextTrace + 1;
      if logged {
        log := log + [PolicyDecided(trace, decision, tool, callId)];
      }
    }

    /** Records each write call of the batch as blocked, unless its id is on record already. */
    method AppendBlockedSideEffects(calls: seq<ToolCall>, byCall: map<string, nat>, default: Option<nat>)
      modifies this`log
      ensures Ledger() == AfterBlocked(cfg.Recording(), old(Ledger()), calls, byCall, default)
    {
      if !cfg.Recording() {
        return;
      }
      var existing := RecordedIds(log);
      ghost var before := log;
      for i := 0 to |calls|
        invariant log == before + BlockedRecords(calls[..i], existing, byCall, default)
      {
        assert calls[..i + 1][..i] == calls[..i];
        var id := Strip(calls[i].id);
        if !(id != "" && id in existing) {
          if Writes(calls[i]) {
            log := log + [SideEffect(id, calls[i].name, TraceFor(byCall, default, id), true)];
          }
        }
      }
      assert calls[..|calls|] == calls;
    }

    method BlockedByRoute(route: Route, calls: seq<ToolCall>) returns (blocked: seq<ToolCall>)
      ensures blocked == RouteBlocked(route, calls)
    {
      blocked := [];
      for i := 0 to |calls|
        invariant blocked == RouteBlocked(route, calls[..i])
      {
        assert calls[..i + 1][..i] == calls[..i];
        if !ToolAllowed(route, calls[i].name) {
          blocked := blocked + [calls[i]];
        }
      }
      assert calls[..|calls|] == calls;
    }

    method RecordRouteDecisions(blocked: seq<ToolCall>) returns (byCall: map<string, nat>)
      modifies this
      ensures Traced(Ledger(), byCall) == AfterRouteDecisions(old(Ledger()), cfg.runId != "", blocked)
    {
      byCall := map[];
      for i := 0 to |blocked|
        invariant Traced(Ledger(), byCall) == AfterRouteDecisions(old(Ledger()), cfg.runId != "", blocked[..i])
      {
        assert blocked[..i + 1][..i] == blocked[..i];
        var trace := RecordDecision(cfg.runId != "", "block", blocked[i].name, blocked[i].id);
        if blocked[i].id != "" {
          byCall := byCall[blocked[i].id := trace];
        }
      }
      assert blocked[..|blocked|] == blocked;
    }

    /** Lets the pending batch through, refuses it, or pauses for the human; `resume` is the
        human's answer when the node is run again after a pause. */
    method SafetyGate(ms: seq<Message>, route: Option<Route>, confirm: bool, resume: Option<bool>) returns (outcome: GateOutcome)
      modifies this
      ensures GateResult(outcome, Ledger()) == Gate(cfg, ms, route, confirm, resume, old(Ledger()))
    {
      var calls := PendingCalls(ms);
      if calls == [] {
        return Through;
      }
      var d := EvaluateToolCalls(cfg.policy, calls, confirm);
      if d.audits != [] && cfg.Recording() {
        RecordAudits(d.audits);
      }
      if !d.allowed {
        var trace := RecordDecision(cfg.Recording(), "deny", d.tool, d.callId);
        AppendBlockedSideEffects(calls, map[], Some(trace));
        return Refused(d.reason);
      }
      if cfg.enforceRoute && route.Some? {
        var blocked := BlockedByRoute(route.value, calls);
        if blocked != [] {
          var byCall := RecordRouteDecisions(blocked);
          AppendBlockedSideEffects(blocked, byCall, None);
          return Refused("tool_route_forbidden");
        }
      }
      if d.requiresApproval {
        if cfg.Recording() {
          var _ := RecordDecision(true, "ask", d.tool, d.callId);
        }
        match resume
        case None => return Paused;
        case Some(approved) =>
          if !approved {
            return Refused(REJECTED_TEXT);
          }
      }
      return Through;
    }
  }

  // ----- what the gate guarantees -----

  /** The gate's verdict without its bookkeeping. */
  lemma GateMeaning(cfg: RunConfig, ms: seq<Message>, route: Option<Route>, confirm: bool, resume: Option<bool>, l: Ledger)
    requires PendingCalls(ms) != []
    ensures var calls := PendingCalls(ms);
            var d := Decide(cfg.policy, calls, confirm, []);
            var permitted := d.allowed && (cfg.enforceRoute && route.Some? ==> RouteAllows(route.value, calls));
            var outcome := Gate(cfg, ms, route, confirm, resume, l).outcome;
            && (outcome.Through? <==> permitted && (d.requiresApproval ==> resume == Some(true)))
            && (outcome.Paused? <==> permitted && d.requiresApproval && resume.None?)
  {
    if route.Some? {
      RouteBlockedMeaning(route.value, PendingCalls(ms));
    }
  }

  /** Approval never overrides a refusal: run again after an approval, with the confirmation that
      comes with it, the gate lets a batch through exactly when no single call is denied and the
      route allows all of them, whatever was asked before. */
  lemma ApprovedGate(cfg: RunConfig, ms: seq<Message>, route: Option<Route>, l: Ledger)
    requires PendingCalls(ms) != []
    ensures var calls := PendingCalls(ms);
            Gate(cfg, ms, route, true, Some(true), l).outcome.Through? <==>
              && (forall c :: c in calls ==> !Denied(cfg.policy, c))
              && (cfg.enforceRoute && route.Some? ==> RouteAllows(route.value, calls))
  {
    GateMeaning(cfg, ms, route, true, Some(true), l);
    ConfirmedDecision(cfg.policy, PendingCalls(ms));
  }

  /** What an approval is worth. The first call that asks ends the evaluation, so a denied call
      behind it is seen only when the gate runs again: a batch that paused goes through after
      approval exactly when none of its calls is denied, and is refused exactly when one is. */
  lemma ApprovalAfterPause(cfg: RunConfig, ms: seq<Message>, route: Option<Route>, l: Ledger, l': Ledger)
    requires Gate(cfg, ms, route, false, None, l).outcome.Paused?
    ensures Gate(cfg, ms, route, true, Some(true), l').outcome.Through? <==> forall c :: c in PendingCalls(ms) ==> !Denied(cfg.policy, c)
    ensures Gate(cfg, ms, route, true, Some(true), l').outcome.Refused? <==> exists c :: c in PendingCalls(ms) && Denied(cfg.policy, c)
  {
    GateMeaning(cfg, ms, route, false, None, l);
    ApprovedGate(cfg, ms, route, l');
    GateMeaning(cfg, ms, route, true, Some(true), l');
  }
}
