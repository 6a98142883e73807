/** The policy's verdict on a batch of tool calls: allow, ask the human, or deny. */
module PolicyGate {
  import opened Text
  import opened Messages

  datatype ToolSpec = ToolSpec(
    category: string,
    requiresApproval: CallArgs -> bool,
    requiredScopes: seq<string>,
    mcpServer: string,
    mcpTool: string)

  /** The scenario's lists, the tool registry and the scopes granted to the credential binding
      (None when no binding is configured). */
  datatype PolicyConfig = PolicyConfig(
    allowlist: set<string>,
    denylist: set<string>,
    dangerousPaths: seq<string>,
    mcpServerAllowlist: set<string>,
    mcpToolAllowlist: set<string>,
    registry: map<string, ToolSpec>,
    grantedScopes: Option<seq<string>>,
    allowJobPost: bool)

  datatype Audit = Audit(denied: bool, tool: string, reason: string)

  datatype Verdict =
    | Pass
    | Deny(reason: string, source: string)
    | Ask(reason: string, source: string, pauses: bool)

  datatype Decision = Decision(
    allowed: bool,
    requiresApproval: bool,
    reason: string,
    source: string,
    tool: string,
    callId: string,
    audits: seq<Audit>)

  /** The part of a path before its query. */
  function BeforeQuery(path: string): (r: string)
    ensures r <= path && '?' !in r
    ensures '?' !in path ==> r == path
  {
    if path == "" || path[0] == '?' then "" else [path[0]] + BeforeQuery(path[1..])
  }

  predicate Blank(s: string) { Strip(s) == "" }

  /** Whether the policy treats a path as dangerous: both sides are compared without query. */
  predicate DangerousPath(cfg: PolicyConfig, path: string) {
    exists p :: p in cfg.dangerousPaths && !Blank(p) && BeforeQuery(p) == BeforeQuery(path)
  }

  /** The approval rule that the http tools are registered with: only the call's path loses its
      query. */
  predicate DangerousPostRule(paths: seq<string>, args: CallArgs) {
    exists p :: p in paths && !Blank(p) && p == BeforeQuery(args.path)
  }

  predicate Gated(cfg: PolicyConfig, call: ToolCall) {
    call.name == "http_post" && DangerousPath(cfg, call.args.path)
  }

  predicate SpecAsks(cfg: PolicyConfig, call: ToolCall) {
    call.name in cfg.registry && cfg.registry[call.name].requiresApproval(call.args)
  }

  function ScopeAudit(cfg: PolicyConfig, name: string): Option<Audit> {
    if name !in cfg.registry || cfg.registry[name].requiredScopes == [] then None
    else
      match cfg.grantedScopes
      case None => Some(Audit(true, name, "credential_binding_missing"))
      case Some(granted) =>
        if forall scope :: scope in cfg.registry[name].requiredScopes ==> scope in granted
        then Some(Audit(false, name, "credential_scope_allowed"))
        else Some(Audit(true, name, "credential_scope_denied"))
  }

  predicate ListDenied(cfg: PolicyConfig, name: string) {
    name in cfg.denylist || (cfg.allowlist != {} && name !in cfg.allowlist)
  }

  predicate McpServerDenied(cfg: PolicyConfig, name: string) {
    && name in cfg.registry && cfg.registry[name].category == "mcp"
    && cfg.mcpServerAllowlist != {} && cfg.registry[name].mcpServer !in cfg.mcpServerAllowlist
  }

  predicate McpToolDenied(cfg: PolicyConfig, name: string) {
    && name in cfg.registry && cfg.registry[name].category == "mcp"
    && cfg.mcpToolAllowlist != {}
    && name !in cfg.mcpToolAllowlist && cfg.registry[name].mcpTool !in cfg.mcpToolAllowlist
  }

  /** A tool that the lists or the credential scopes refuse, whatever the call. */
  predicate ToolDenied(cfg: PolicyConfig, name: string) {
    || ListDenied(cfg, name)
    || (ScopeAudit(cfg, name).Some? && ScopeAudit(cfg, name).value.denied)
    || McpServerDenied(cfg, name)
    || McpToolDenied(cfg, name)
  }

  /** A single call the policy refuses, whoever confirmed what. */
  predicate Denied(cfg: PolicyConfig, call: ToolCall) {
    || ToolDenied(cfg, call.name)
    || (Gated(cfg, call) && !cfg.allowJobPost)
  }

  function CallVerdict(cfg: PolicyConfig, call: ToolCall, confirm: bool): Verdict {
    if call.name in cfg.denylist then Deny("scenario_tool_denied", "scenario_tool_policy")
    else if cfg.allowlist != {} && call.name !in cfg.allowlist then Deny("scenario_tool_not_allowed", "scenario_tool_policy")
    else if ScopeAudit(cfg, call.name).Some? && ScopeAudit(cfg, call.name).value.denied then
      Deny(ScopeAudit(cfg, call.name).value.reason, "credential_scope")
    else if McpServerDenied(cfg, call.name) then Deny("scenario_mcp_server_denied", "scenario_mcp_policy")
    else if McpToolDenied(cfg, call.name) then Deny("scenario_mcp_tool_denied", "scenario_mcp_policy")
    else if Gated(cfg, call) && !cfg.allowJobPost then Deny("job_post_disabled", "deployment_policy")
    else if Gated(cfg, call) && !confirm then
      Ask("dangerous_tool_requires_approval", "scenario_approval_policy",
          if call.name in cfg.registry then SpecAsks(cfg, call) else true)
    else if SpecAsks(cfg, call) && !confirm then Ask("tool_requires_approval", "tool_approval_policy", true)
    else Pass
  }

  function CallAudits(cfg: PolicyConfig, call: ToolCall): seq<Audit> {
    if ListDenied(cfg, call.name) then []
    else
      match ScopeAudit(cfg, call.name)
      case None => []
      case Some(audit) => [audit]
  }

  function DecisionOf(v: Verdict, call: ToolCall, audits: seq<Audit>): Decision
    requires !v.Pass?
  {
    match v
    case Deny(reason, source) => Decision(false, false, reason, source, call.name, call.id, audits)
    case Ask(reason, source, pauses) => Decision(true, pauses, reason, source, call.name, call.id, audits)
  }

  /** The first call that does not simply pass settles the whole batch. */
  function Decide(cfg: PolicyConfig, calls: seq<ToolCall>, confirm: bool, audits: seq<Audit>): Decision {
    if calls == [] then Decision(true, false, "tool_calls_allowed", "kernel", "", "", audits)
    else
      var audits' := audits + CallAudits(cfg, calls[0]);
      var v := CallVerdict(cfg, calls[0], confirm);
      if v.Pass? then Decide(cfg, calls[1..], confirm, audits') else DecisionOf(v, calls[0], audits')
  }

  method EvaluateToolCalls(cfg: PolicyConfig, calls: seq<ToolCall>, confirm: bool) returns (d: Decision)
    ensures d == Decide(cfg, calls, confirm, [])
  {
    var audits: seq<Audit> := [];
    var i := 0;
    while i < |calls|
      invariant 0 <= i <= |calls|
      invariant Decide(cfg, calls, confirm, []) == Decide(cfg, calls[i..], confirm, audits)
    {
      audits := audits + CallAudits(cfg, calls[i]);
      var v := CallVerdict(cfg, calls[i], confirm);
      if !v.Pass? {
        return DecisionOf(v, calls[i], audits);
      }
      i := i + 1;
    }
    return Decision(true, false, "tool_calls_allowed", "kernel", "", "", audits);
  }

  // ----- what a decision says about the single calls -----

  /** A call is denied or not independently of any confirmation, and a confirmed call is never
      asked about. */
  lemma VerdictMeaning(cfg: PolicyConfig, call: ToolCall, confirm: bool)
    ensures CallVerdict(cfg, call, confirm).Deny? <==> Denied(cfg, call)
    ensures CallVerdict(cfg, call, confirm).Ask?
            <==> (!confirm && !Denied(cfg, call) && (Gated(cfg, call) || SpecAsks(cfg, call)))
  {
  }

  /** A gated call that the registered approval rule does not ask about. */
  predicate SoftAsk(cfg: PolicyConfig, call: ToolCall) {
    Gated(cfg, call) && call.name in cfg.registry && !SpecAsks(cfg, call)
  }

  predicate NeedsApproval(cfg: PolicyConfig, call: ToolCall) {
    Gated(cfg, call) || SpecAsks(cfg, call)
  }

  /** The calls up to k pass; call k, if there is one, does not. */
  ghost predicate StopsAt(cfg: PolicyConfig, calls: seq<ToolCall>, confirm: bool, k: nat) {
    && k <= |calls|
    && (forall i :: 0 <= i < k ==> CallVerdict(cfg, calls[i], confirm).Pass?)
    && (k < |calls| ==> !CallVerdict(cfg, calls[k], confirm).Pass?)
  }

  lemma StopsOnce(cfg: PolicyConfig, calls: seq<ToolCall>, confirm: bool, i: nat, k: nat)
    requires StopsAt(cfg, calls, confirm, i) && StopsAt(cfg, calls, confirm, k)
    ensures i == k
  {
  }

  lemma {:induction false} DecideStops(cfg: PolicyConfig, calls: seq<ToolCall>, confirm: bool, audits: seq<Audit>)
    returns (k: nat)
    ensures StopsAt(cfg, calls, confirm, k)
    ensures var d := Decide(cfg, calls, confirm, audits);
            && (k == |calls| ==> d.allowed && !d.requiresApproval)
            && (k < |calls| ==>
                  && d.allowed == CallVerdict(cfg, calls[k], confirm).Ask?
                  && d.requiresApproval == (CallVerdict(cfg, calls[k], confirm).Ask? && CallVerdict(cfg, calls[k], confirm).pauses)
                  && d.tool == calls[k].name && d.callId == calls[k].id)
  {
    if calls == [] {
      k := 0;
    } else if CallVerdict(cfg, calls[0], confirm).Pass? {
      var k' := DecideStops(cfg, calls[1..], confirm, audits + CallAudits(cfg, calls[0]));
      k := k' + 1;
      forall i | 0 <= i < k ensures CallVerdict(cfg, calls[i], confirm).Pass? {
        assert i > 0 ==> calls[i] == calls[1..][i - 1];
      }
    } else {
      k := 0;
    }
  }

  /** With confirmation a batch is allowed exactly when no single call is denied, and nobody is
      asked. */
  lemma ConfirmedDecision(cfg: PolicyConfig, calls: seq<ToolCall>)
    ensures var d := Decide(cfg, calls, true, []);
            && (d.allowed <==> forall c :: c in calls ==> !Denied(cfg, c))
            && !d.requiresApproval
  {
    var k := DecideStops(cfg, calls, true, []);
    forall i | 0 <= i < |calls|
      ensures CallVerdict(cfg, calls[i], true).Deny? <==> Denied(cfg, calls[i])
      ensures !CallVerdict(cfg, calls[i], true).Ask?
    {
      VerdictMeaning(cfg, calls[i], true);
    }
  }

  /** Without confirmation a batch goes through unasked exactly when every call passes on its
      own, or the first call that does not is a soft ask. */
  lemma UnconfirmedDecision(cfg: PolicyConfig, calls: seq<ToolCall>)
    ensures var d := Decide(cfg, calls, false, []);
            (d.allowed && !d.requiresApproval) <==>
              || (forall c :: c in calls ==> !Denied(cfg, c) && !NeedsApproval(cfg, c))
              || (exists k: nat :: k < |calls| && StopsAt(cfg, calls, false, k)
                                   && !Denied(cfg, calls[k]) && SoftAsk(cfg, calls[k]))
  {
    var k := DecideStops(cfg, calls, false, []);
    forall i | 0 <= i < |calls|
      ensures CallVerdict(cfg, calls[i], false).Pass? <==> (!Denied(cfg, calls[i]) && !NeedsApproval(cfg, calls[i]))
    {
      VerdictMeaning(cfg, calls[i], false);
    }
    forall i: nat | StopsAt(cfg, calls, false, i) ensures i == k {
      StopsOnce(cfg, calls, false, i, k);
    }
    if k < |calls| {
      assert calls[k] in calls;
    }
  }

  /** A batch the human is asked about: every call before the asking one passes, the asking one
      is not denied. Nothing is known about the calls after it. */
  lemma AskedDecision(cfg: PolicyConfig, calls: seq<ToolCall>, confirm: bool)
    ensures var d := Decide(cfg, calls, confirm, []);
            d.requiresApproval <==>
              exists k: nat :: k < |calls| && StopsAt(cfg, calls, confirm, k)
                && !confirm && !Denied(cfg, calls[k]) && NeedsApproval(cfg, calls[k]) && !SoftAsk(cfg, calls[k])
    ensures Decide(cfg, calls, confirm, []).requiresApproval ==> Decide(cfg, calls, confirm, []).allowed
  {
    var k := DecideStops(cfg, calls, confirm, []);
    forall i: nat | StopsAt(cfg, calls, confirm, i) ensures i == k {
      StopsOnce(cfg, calls, confirm, i, k);
    }
    if k < |calls| {
      VerdictMeaning(cfg, calls[k], confirm);
    }
  }

  // ----- when the two notions of a dangerous path agree -----

  ghost predicate UsesDangerousPostRule(cfg: PolicyConfig) {
    "http_post" in cfg.registry
    && forall path, other ::
         cfg.registry["http_post"].requiresApproval(CallArgs(path, other))
         == DangerousPostRule(cfg.dangerousPaths, CallArgs(path, other))
  }

  /** Every configured dangerous path is also configured without its query. */
  predicate PathsLackQueries(cfg: PolicyConfig) {
    forall p :: p in cfg.dangerousPaths && !Blank(p) ==> BeforeQuery(p) in cfg.dangerousPaths && !Blank(BeforeQuery(p))
  }

  /** With the registered rule a gated post that nobody denies is always asked about, if and only
      if such posts are switched off, the posting tool is refused as such, or every dangerous path
      is also configured without its query. */
  lemma SoftAsksDeniedIff(cfg: PolicyConfig)
    requires UsesDangerousPostRule(cfg)
    ensures (forall call :: SoftAsk(cfg, call) ==> Denied(cfg, call)) <==>
              !cfg.allowJobPost || ToolDenied(cfg, "http_post") || PathsLackQueries(cfg)
  {
    if PathsLackQueries(cfg) {
      forall call ensures !SoftAsk(cfg, call) {
        if Gated(cfg, call) {
          var p :| p in cfg.dangerousPaths && !Blank(p) && BeforeQuery(p) == BeforeQuery(call.args.path);
          assert DangerousPostRule(cfg.dangerousPaths, CallArgs(call.args.path, call.args.other));
        }
      }
    } else if cfg.allowJobPost && !ToolDenied(cfg, "http_post") {
      var p :| p in cfg.dangerousPaths && !Blank(p) && !(BeforeQuery(p) in cfg.dangerousPaths && !Blank(BeforeQuery(p)));
      var call := ToolCall("", "http_post", CallArgs(BeforeQuery(p), ""));
      assert BeforeQuery(BeforeQuery(p)) == BeforeQuery(p);
      assert DangerousPath(cfg, call.args.path);
      assert SoftAsk(cfg, call) && !Denied(cfg, call);
    }
  }
}
