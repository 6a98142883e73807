/** What the policy decides, said of the configuration's fields: which calls are open, why a call is
    denied, what is audited, and what a run executes. */
module PolicyMeaning {
  import opened Text
  import opened Messages
  import opened Routes
  import opened Plans
  import opened PolicyGate
  import opened AgentNodes
  import opened AgentRun

  // ----- open calls -----

  predicate ListsOpen(cfg: PolicyConfig, tool: string) {
    tool !in cfg.denylist && (cfg.allowlist == {} || tool in cfg.allowlist)
  }

  /** The credential binding grants every scope that the tool requires. */
  predicate ScopesOpen(cfg: PolicyConfig, tool: string) {
    tool in cfg.registry && cfg.registry[tool].requiredScopes != [] ==>
      cfg.grantedScopes.Some? && forall scope :: scope in cfg.registry[tool].requiredScopes ==> scope in cfg.grantedScopes.value
  }

  predicate McpOpen(cfg: PolicyConfig, tool: string) {
    tool in cfg.registry && cfg.registry[tool].category == "mcp" ==>
      && (cfg.mcpServerAllowlist == {} || cfg.registry[tool].mcpServer in cfg.mcpServerAllowlist)
      && (cfg.mcpToolAllowlist == {} || tool in cfg.mcpToolAllowlist || cfg.registry[tool].mcpTool in cfg.mcpToolAllowlist)
  }

  /** `front` is the path up to its query, or all of it. */
  predicate IsBeforeQuery(path: string, front: string) {
    front <= path && '?' !in front && (|front| < |path| ==> path[|front|] == '?')
  }

  predicate SamePathBeforeQuery(a: string, b: string) {
    exists n: nat :: n <= |a| && IsBeforeQuery(a, a[..n]) && IsBeforeQuery(b, a[..n])
  }

  predicate Dangerous(cfg: PolicyConfig, call: ToolCall) {
    call.name == "http_post" &&
    exists p :: p in cfg.dangerousPaths && Strip(p) != "" && SamePathBeforeQuery(p, call.args.path)
  }

  /** Nothing in the configuration forbids the call. */
  predicate Open(cfg: PolicyConfig, call: ToolCall) {
    && ListsOpen(cfg, call.name) && ScopesOpen(cfg, call.name) && McpOpen(cfg, call.name)
    && (Dangerous(cfg, call) ==> cfg.allowJobPost)
  }

  lemma {:induction false} BeforeQueryIs(path: string)
    ensures IsBeforeQuery(path, BeforeQuery(path))
  {
    if path != "" && path[0] != '?' {
      BeforeQueryIs(path[1..]);
    }
  }

  lemma BeforeQueryUnique(path: string, a: string, b: string)
    requires IsBeforeQuery(path, a) && IsBeforeQuery(path, b)
    ensures a == b
  {
    assert a == path[..|a|] && b == path[..|b|];
  }

  lemma GatedIsDangerous(cfg: PolicyConfig, call: ToolCall)
    ensures Gated(cfg, call) <==> Dangerous(cfg, call)
  {
    var path := call.args.path;
    BeforeQueryIs(path);
    forall p ensures BeforeQuery(p) == BeforeQuery(path) <==> SamePathBeforeQuery(p, path) {
      BeforeQueryIs(p);
      assert p[..|BeforeQuery(p)|] == BeforeQuery(p);
      if n: nat :| n <= |p| && IsBeforeQuery(p, p[..n]) && IsBeforeQuery(path, p[..n]) {
        BeforeQueryUnique(p, p[..n], BeforeQuery(p));
        BeforeQueryUnique(path, p[..n], BeforeQuery(path));
      }
    }
  }

  /** A call is denied if and only if it is not open. */
  lemma DeniedIffNotOpen(cfg: PolicyConfig, call: ToolCall)
    ensures Denied(cfg, call) <==> !Open(cfg, call)
  {
    GatedIsDangerous(cfg, call);
  }

  /** With confirmation a batch is allowed if and only if all of its calls are open: their scopes
      granted, their tools and servers listed, their posts switched on. */
  lemma ConfirmedIffOpen(cfg: PolicyConfig, calls: seq<ToolCall>)
    ensures Decide(cfg, calls, true, []).allowed <==> forall c :: c in calls ==> Open(cfg, c)
  {
    ConfirmedDecision(cfg, calls);
    forall c ensures Denied(cfg, c) <==> !Open(cfg, c) {
      DeniedIffNotOpen(cfg, c);
    }
  }

  // ----- reasons and audits -----

  /** The checks come in a fixed order, and the first that fails gives reason and source. */
  lemma ReasonOfVerdict(cfg: PolicyConfig, call: ToolCall, confirm: bool)
    ensures var v := CallVerdict(cfg, call, confirm);
            if call.name in cfg.denylist then v == Deny("scenario_tool_denied", "scenario_tool_policy")
            else if !ListsOpen(cfg, call.name) then v == Deny("scenario_tool_not_allowed", "scenario_tool_policy")
            else if !ScopesOpen(cfg, call.name) then
              v == Deny(if cfg.grantedScopes.None? then "credential_binding_missing" else "credential_scope_denied", "credential_scope")
            else if !McpOpen(cfg, call.name) then
              && v.Deny? && v.source == "scenario_mcp_policy"
              && (v.reason == "scenario_mcp_server_denied" || v.reason == "scenario_mcp_tool_denied")
              && (v.reason == "scenario_mcp_server_denied" <==>
                    cfg.mcpServerAllowlist != {} && cfg.registry[call.name].mcpServer !in cfg.mcpServerAllowlist)
            else if Dangerous(cfg, call) && !cfg.allowJobPost then v == Deny("job_post_disabled", "deployment_policy")
            else if Dangerous(cfg, call) && !confirm then
              v == Ask("dangerous_tool_requires_approval", "scenario_approval_policy",
                       call.name in cfg.registry ==> cfg.registry[call.name].requiresApproval(call.args))
            else if !confirm && call.name in cfg.registry && cfg.registry[call.name].requiresApproval(call.args) then
              v == Ask("tool_requires_approval", "tool_approval_policy", true)
            else v == Pass
  {
    GatedIsDangerous(cfg, call);
  }

  /** Scopes are audited for every registered tool that requires some and is not refused by the
      lists before. */
  lemma AuditOfCall(cfg: PolicyConfig, call: ToolCall)
    ensures var audits := CallAudits(cfg, call);
            if ListsOpen(cfg, call.name) && call.name in cfg.registry && cfg.registry[call.name].requiredScopes != [] then
              audits == [Audit(!ScopesOpen(cfg, call.name), call.name,
                               if ScopesOpen(cfg, call.name) then "credential_scope_allowed"
                               else if cfg.grantedScopes.None? then "credential_binding_missing" else "credential_scope_denied")]
            else audits == []
  {
  }

  function AuditsOf(cfg: PolicyConfig, calls: seq<ToolCall>): seq<Audit> {
    if calls == [] then [] else CallAudits(cfg, calls[0]) + AuditsOf(cfg, calls[1..])
  }

  /** The decision was settled at call k: all before it pass, and it has k's tool, id and reason and
      the audits of all calls up to k, that one included. */
  predicate SettledAt(cfg: PolicyConfig, calls: seq<ToolCall>, confirm: bool, audits: seq<Audit>, k: nat, d: Decision) {
    && k <= |calls|
    && (forall i :: 0 <= i < k ==> CallVerdict(cfg, calls[i], confirm).Pass?)
    && if k == |calls| then
         d == Decision(true, false, "tool_calls_allowed", "kernel", "", "", audits + AuditsOf(cfg, calls))
       else
         var v := CallVerdict(cfg, calls[k], confirm);
         && !v.Pass?
         && d == Decision(v.Ask?, v.Ask? && v.pauses, v.reason, v.source, calls[k].name, calls[k].id,
                          audits + AuditsOf(cfg, calls[..k + 1]))
  }

  lemma {:induction false} DecisionTells(cfg: PolicyConfig, calls: seq<ToolCall>, confirm: bool, audits: seq<Audit>) returns (k: nat)
    ensures SettledAt(cfg, calls, confirm, audits, k, Decide(cfg, calls, confirm, audits))
  {
    k := 0;
    if calls != [] {
      if CallVerdict(cfg, calls[0], confirm).Pass? {
        var now := audits + CallAudits(cfg, calls[0]);
        var rest := DecisionTells(cfg, calls[1..], confirm, now);
        SettledLater(cfg, calls, confirm, audits, rest, Decide(cfg, calls[1..], confirm, now));
        k := rest + 1;
      } else {
        assert calls[..1][1..] == [];
      }
    }
  }

  lemma SettledLater(cfg: PolicyConfig, calls: seq<ToolCall>, confirm: bool, audits: seq<Audit>, rest: nat, d: Decision)
    requires calls != [] && CallVerdict(cfg, calls[0], confirm).Pass?
    requires SettledAt(cfg, calls[1..], confirm, audits + CallAudits(cfg, calls[0]), rest, d)
    ensures SettledAt(cfg, calls, confirm, audits, rest + 1, d)
  {
    var now := audits + CallAudits(cfg, calls[0]);
    assert forall i :: 1 <= i < |calls| ==> calls[i] == calls[1..][i - 1];
    if rest < |calls[1..]| {
      assert calls[..rest + 2][1..] == calls[1..][..rest + 1];
      assert audits + AuditsOf(cfg, calls[..rest + 2]) == now + AuditsOf(cfg, calls[1..][..rest + 1]);
    } else {
      assert audits + AuditsOf(cfg, calls) == now + AuditsOf(cfg, calls[1..]);
    }
  }

  // ----- over whole runs -----

  /** What the planner's route lets a tool do. */
  predicate RouteLets(route: Route, tool: string) {
    && route.kind != SafetyReject && route.recommendedTools != [] && tool !in route.forbiddenTools
    && !(route.kind == Knowledge && tool in {"http_get", "http_post"})
  }

  /** Every call executed in a run that is started confirmed, or in which no soft ask is open, is
      open. */
  lemma RunsExecuteOpenCalls(cfg: RunConfig, messages: seq<Message>, route: Route, plan: Plan, confirm: bool, inputs: seq<Input>)
    requires confirm || NoOpenSoftAsk(cfg, route)
    ensures forall b, c :: b in Run(cfg, Start(cfg, messages, route, plan, confirm), inputs).executed && c in b.calls ==> Open(cfg.policy, c)
  {
    var s := Run(cfg, Start(cfg, messages, route, plan, confirm), inputs);
    ExecutedCallsArePermitted(cfg, messages, route, plan, confirm, inputs);
    forall b, c | b in s.executed && c in b.calls ensures Open(cfg.policy, c) {
      DeniedIffNotOpen(cfg.policy, c);
    }
  }

  /** With enforcement on every executed call is one that the planner's route lets through. */
  lemma RunsKeepToRoute(cfg: RunConfig, messages: seq<Message>, route: Route, plan: Plan, confirm: bool, inputs: seq<Input>)
    requires cfg.enforceRoute
    ensures forall b, c :: b in Run(cfg, Start(cfg, messages, route, plan, confirm), inputs).executed && c in b.calls ==> RouteLets(route, c.name)
  {
    ExecutedBatchesAreCleared(cfg, messages, route, plan, confirm, inputs);
  }

  /** The converse: a batch of open calls that the route lets through and that asks nobody, or is
      confirmed, goes through the gate and is executed, from whatever state the run is in. */
  lemma OpenBatchIsExecuted(cfg: RunConfig, s: RunState, calls: seq<ToolCall>)
    requires s.phase == AtAssistant && s.resume.None? && calls != []
    requires forall c :: c in calls ==>
               && Open(cfg.policy, c) && (cfg.enforceRoute ==> RouteLets(s.route, c.name))
               && (s.confirm || !NeedsApproval(cfg.policy, c))
    ensures var s' := Run(cfg, s, [ModelAnswers(None, "", calls), GateRuns, ToolsReport([], [])]);
            s'.executed == s.executed + [Batch(calls, s.confirm)]
  {
    var s1 := AssistantStep(cfg, s, None, AI("", calls));
    FirstAnswer(cfg, s, calls);
    OpenBatchPassesGate(cfg, s.route, s1);
    OneRound(cfg, s, calls);
  }

  lemma OpenBatchPassesGate(cfg: RunConfig, chosen: Route, s: RunState)
    requires SameRoute(chosen, s.route) && s.resume.None? && PendingCalls(s.messages) != []
    requires forall c :: c in PendingCalls(s.messages) ==>
               && Open(cfg.policy, c) && (cfg.enforceRoute ==> RouteLets(chosen, c.name))
               && (s.confirm || !NeedsApproval(cfg.policy, c))
    ensures GateStep(cfg, s) == s.(phase := AtTools, ledger := GateStep(cfg, s).ledger)
  {
    var calls := PendingCalls(s.messages);
    forall c ensures Denied(cfg.policy, c) <==> !Open(cfg.policy, c) {
      DeniedIffNotOpen(cfg.policy, c);
    }
    SameRouteAllows(chosen, s.route, calls);
    GateMeaning(cfg, s.messages, Some(s.route), s.confirm, None, s.ledger);
    if s.confirm {
      ConfirmedDecision(cfg.policy, calls);
    } else {
      UnconfirmedDecision(cfg.policy, calls);
    }
  }

  /** What an approval leads to: the gate runs again under the run's confirmation, and the paused
      batch goes to the tools if and only if all its calls are open; else the run ends. */
  lemma ApprovedThenExecuted(cfg: RunConfig, s: RunState)
    requires s.phase == Waiting && PendingCalls(s.messages) != []
    requires cfg.enforceRoute ==> RouteAllows(s.route, PendingCalls(s.messages))
    ensures var s' := GateStep(cfg, HumanStep(s, true));
            && s'.confirm && s'.approvals == s.approvals + 1
            && (s'.phase == AtTools <==> forall c :: c in PendingCalls(s.messages) ==> Open(cfg.policy, c))
            && (s'.phase == AtTools || s'.phase == Finished)
  {
    var calls := PendingCalls(s.messages);
    GateMeaning(cfg, s.messages, Some(s.route), true, Some(true), s.ledger);
    ConfirmedIffOpen(cfg.policy, calls);
    ConfirmedDecision(cfg.policy, calls);
  }
}
