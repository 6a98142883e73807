/** What an assistant step logs and injects, said of the messages, the route and the plan. */
module AssistantShape {
  import opened Text
  import opened Messages
  import opened Routes
  import opened Plans
  import opened PathMerge
  import opened PolicyGate
  import opened AuditLog
  import opened AgentNodes
  import opened AgentRun
  import TurnAssembly
  import TurnContents

  predicate Logs(cfg: RunConfig) { cfg.threadId != "" && cfg.runId != "" }

  predicate NewHint(cfg: RunConfig, route: Route, ms: seq<Message>) {
    exists m :: m in ms && m.Tool? && exists raw :: raw in cfg.parse(m.content) && Strip(raw) != "" && Strip(raw) !in route.suggestedPaths
  }

  lemma NewHintIsHinted(cfg: RunConfig, route: Route, ms: seq<Message>)
    ensures NewHint(cfg, route, ms) <==> !(HintedPaths(ms, cfg.parse) <= Elements(route.suggestedPaths))
  {
    if m :| m in ms && m.Tool? && exists raw :: raw in cfg.parse(m.content) && Strip(raw) != "" && Strip(raw) !in route.suggestedPaths {
      var raw :| raw in cfg.parse(m.content) && Strip(raw) != "" && Strip(raw) !in route.suggestedPaths;
      HintedExactly(ms, cfg.parse, Strip(raw));
      assert StripsTo(cfg.parse(m.content), Strip(raw));
    }
    if path :| path in HintedPaths(ms, cfg.parse) && path !in Elements(route.suggestedPaths) {
      HintedExactly(ms, cfg.parse, path);
      var m :| m in ms && m.Tool? && StripsTo(cfg.parse(m.content), path);
      var raw :| raw in cfg.parse(m.content) && Strip(raw) == path;
    }
  }

  /** A step merges and logs exactly when path injection is on and some tool report hints a path that
      the route does not have; the event carries the merged route and all extracted paths. */
  lemma MergesExactly(cfg: RunConfig, route: Route, ms: seq<Message>)
    ensures var merged := MergeInto(cfg, Some(route), ms);
            && merged.Some?
            && (merged.value != route <==> cfg.injectPaths && NewHint(cfg, route, ms))
            && MergeEvents(cfg, Some(route), ms) ==
                 (if Logs(cfg) && cfg.injectPaths && NewHint(cfg, route, ms)
                  then [PathsMerged(merged.value, ExtractedPaths(ms, cfg.parse))] else [])
    ensures MergeInto(cfg, None, ms) == None && MergeEvents(cfg, None, ms) == []
  {
    MergedRouteParts(route, ms, cfg.parse);
    NewHintIsHinted(cfg, route, ms);
  }

  /** A replan is logged exactly when the run logs and the plan gets its summary step. */
  lemma ReplanEventsExactly(cfg: RunConfig, plan: Plan, kind: Option<RouteKind>, ms: seq<Message>)
    ensures var now := && kind == Some(Troubleshooting)
                       && Reported(ms, "search_docs") && Reported(ms, "http_get") && !HasAnswered(ms)
                       && forall s :: s in plan.steps ==> s.id != "step-replan-summary";
            && ReplansNow(Some(plan), kind, ms) == now
            && AdvancePlan(Some(plan), kind, ms) ==
                 Some(if now then WithSummary(Updated(plan, ToolNames(ms))) else Updated(plan, ToolNames(ms)))
            && ReplanEvents(cfg, Some(plan), kind, ms) ==
                 (if Logs(cfg) && now then [Replanned(WithSummary(Updated(plan, ToolNames(ms))))] else [])
  {
    var updated := Updated(plan, ToolNames(ms));
    ReplansExactly(updated, kind, ms);
    SameIds(plan.steps, updated.steps, "step-replan-summary");
  }

  lemma SameIds(a: seq<PlanStep>, b: seq<PlanStep>, id: string)
    requires |a| == |b| && forall i :: 0 <= i < |a| ==> a[i].id == b[i].id
    ensures (forall s :: s in a ==> s.id != id) <==> (forall s :: s in b ==> s.id != id)
  {
    if s :| s in a && s.id == id {
      var i :| 0 <= i < |a| && a[i] == s;
      assert b[i] in b;
    }
    if s :| s in b && s.id == id {
      var i :| 0 <= i < |b| && b[i] == s;
      assert a[i] in a;
    }
  }

  predicate Says(ms: seq<Message>, text: string) {
    text != "" && exists m :: m in ms && m.System? && Strip(m.content) == text
  }

  /** Before the model answers it is told the route when that has changed, and the diagnosis outline
      when there is one, each unless a system message says the same already. */
  lemma InjectedExactly(route: Option<Route>, merged: Option<Route>, diagnosis: Option<string>, ms: seq<Message>)
    ensures Injected(route, merged, diagnosis, ms) ==
              (if merged.Some? && merged != route && !Says(ms, Strip(RouteSystemText(merged.value)))
               then [System(RouteSystemText(merged.value))] else [])
              + (if diagnosis.Some? && !Says(ms, Strip(diagnosis.value)) then [System(diagnosis.value)] else [])
  {
    if merged.Some? {
      TurnContents.SystemContentsExactly(ms, Strip(RouteSystemText(merged.value)));
    }
    if diagnosis.Some? {
      TurnContents.SystemContentsExactly(ms, Strip(diagnosis.value));
    }
  }

  // ----- how a run's messages grow -----

  /** An assistant step adds what it injects and ends with the answer. */
  lemma AssistantMessages(cfg: RunConfig, s: RunState, diagnosis: Option<string>, answer: Message)
    ensures var s' := AssistantStep(cfg, s, diagnosis, answer);
            s'.messages == s.messages + Injected(Some(s.route), Some(s'.route), diagnosis, s.messages) + [answer]
  {
  }

  /** The tools add their reports, in order. */
  lemma ToolsMessages(s: RunState, reports: seq<ToolReport>, effects: seq<string>)
    ensures var s' := ToolsStep(s, reports, effects);
            && |s'.messages| == |s.messages| + |reports| && s.messages <= s'.messages
            && forall i :: 0 <= i < |reports| ==>
                 s'.messages[|s.messages| + i] == Tool(reports[i].content, reports[i].callId, reports[i].name)
  {
  }

  /** The gate adds nothing when it lets a batch through or pauses, and one message without calls
      when it refuses: the policy's reason, the route's, or the human's. */
  lemma GateMessages(cfg: RunConfig, s: RunState)
    requires PendingCalls(s.messages) != []
    ensures var d := Decide(cfg.policy, PendingCalls(s.messages), s.confirm, []);
            var outcome := Gate(cfg, s.messages, Some(s.route), s.confirm, s.resume, s.ledger).outcome;
            var refusal := if !d.allowed then d.reason
                           else if cfg.enforceRoute && !RouteAllows(s.route, PendingCalls(s.messages)) then "tool_route_forbidden"
                           else "Dangerous tool call was rejected by the user.";
            GateStep(cfg, s).messages == if outcome.Refused? then s.messages + [AI(refusal, [])] else s.messages
  {
    RouteBlockedMeaning(s.route, PendingCalls(s.messages));
  }
}
