/** A whole run of the agent graph, with the model, the tools and the human as arbitrary inputs. */
module AgentRun {
  import opened Text
  import opened Messages
  import opened Routes
  import opened Plans
  import opened PathMerge
  import opened PolicyGate
  import opened AuditLog
  import opened AgentNodes

  datatype Phase = AtAssistant | AtGate | AtTools | Waiting | Finished

  /** A batch handed to the tools, with the confirmation flag it went through under. */
  datatype Batch = Batch(calls: seq<ToolCall>, confirm: bool)

  /** The graph state, the run's confirmation flag and ledger, and a history of what happened:
      batches executed, pauses, approvals, replans, and how many messages the last assistant step
      saw. */
  datatype RunState = RunState(
    phase: Phase,
    messages: seq<Message>,
    route: Route,
    plan: Plan,
    ledger: Ledger,
    confirm: bool,
    resume: Option<bool>,
    executed: seq<Batch>,
    pauses: nat,
    approvals: nat,
    replans: nat,
    seen: nat)

  datatype ToolReport = ToolReport(content: string, callId: string, name: string)

  /** What the outside world contributes to one step. */
  datatype Input =
    | ModelAnswers(diagnosis: Option<string>, text: string, calls: seq<ToolCall>)
    | GateRuns
    | ToolsReport(reports: seq<ToolReport>, effects: seq<string>)
    | HumanDecides(approve: bool)

  /** The state after the planner chose a route and a plan. */
  function Start(cfg: RunConfig, messages: seq<Message>, route: Route, plan: Plan, confirm: bool): RunState {
    RunState(AtAssistant, messages, route, plan,
             AuditLog.Ledger(if cfg.runId != "" then [PlanCreated(route, plan)] else [], 0),
             confirm, None, [], 0, 0, 0, 0)
  }

  function RouteAfterAssistant(ms: seq<Message>): Phase {
    if PendingCalls(ms) != [] then AtGate else Finished
  }

  function RouteAfterSafetyGate(ms: seq<Message>): Phase {
    if PendingCalls(ms) != [] then AtTools else Finished
  }

  function AssistantStep(cfg: RunConfig, s: RunState, diagnosis: Option<string>, answer: Message): RunState {
    var merged := MergeInto(cfg, Some(s.route), s.messages);
    var kind := Some(s.route.kind);
    var messages := s.messages + Injected(Some(s.route), merged, diagnosis, s.messages) + [answer];
    var events := MergeEvents(cfg, Some(s.route), s.messages) + ReplanEvents(cfg, Some(s.plan), kind, s.messages);
    s.(phase := RouteAfterAssistant(messages),
       messages := messages,
       route := merged.value,
       plan := Advanced(s.plan, kind, s.messages),
       ledger := s.ledger.(log := s.ledger.log + events),
       replans := s.replans + if ReplansNow(Some(s.plan), kind, s.messages) then 1 else 0,
       seen := |s.messages|)
  }

  function GateStep(cfg: RunConfig, s: RunState): RunState {
    var g := Gate(cfg, s.messages, Some(s.route), s.confirm, s.resume, s.ledger);
    var s' := s.(ledger := g.ledger, resume := None);
    match g.outcome
    case Through => s'.(phase := RouteAfterSafetyGate(s.messages))
    case Refused(text) =>
      var messages := s.messages + [AI(text, [])];
      s'.(messages := messages, phase := RouteAfterSafetyGate(messages))
    case Paused => s'.(phase := Waiting, pauses := s.pauses + 1)
  }

  function ToolMessages(reports: seq<ToolReport>): seq<Message> {
    seq(|reports|, i requires 0 <= i < |reports| => Tool(reports[i].content, reports[i].callId, reports[i].name))
  }

  function EffectEvents(effects: seq<string>): seq<Event> {
    seq(|effects|, i requires 0 <= i < |effects| => SideEffect(effects[i], "http_post", None, false))
  }

  function ToolsStep(s: RunState, reports: seq<ToolReport>, effects: seq<string>): RunState {
    s.(phase := AtAssistant,
       messages := s.messages + ToolMessages(reports),
       executed := s.executed + [Batch(PendingCalls(s.messages), s.confirm)],
       ledger := s.ledger.(log := s.ledger.log + EffectEvents(effects)))
  }

  // ----- the human's answer -----

  function AfterRejectedCall(l: Ledger, existing: set<string>, call: ToolCall): Ledger {
    var id := Strip(call.id);
    if id == "" || id in existing then l
    else
      var l' := AfterDecision(l, true, "deny", call.name, id);
      if Writes(call) then l'.(log := l'.log + [SideEffect(id, call.name, Some(l.nextTrace), true)]) else l'
  }

  /** A rejection records every call of the paused batch that is not on record yet. */
  function AfterRejection(l: Ledger, existing: set<string>, calls: seq<ToolCall>): Ledger {
    if calls == [] then l
    else AfterRejectedCall(AfterRejection(l, existing, calls[..|calls| - 1]), existing, calls[|calls| - 1])
  }

  method RecordRejection(l: Ledger, calls: seq<ToolCall>) returns (out: Ledger)
    ensures out == AfterRejection(l, RecordedIds(l.log), calls)
  {
    var existing := RecordedIds(l.log);
    out := l;
    for i := 0 to |calls|
      invariant out == AfterRejection(l, existing, calls[..i])
    {
      assert calls[..i + 1][..i] == calls[..i];
      var id := Strip(calls[i].id);
      if id != "" && id !in existing {
        var trace := out.nextTrace;
        out := Ledger(out.log + [PolicyDecided(trace, "deny", calls[i].name, id)], trace + 1);
        if Writes(calls[i]) {
          out := out.(log := out.log + [SideEffect(id, calls[i].name, Some(trace), true)]);
        }
      }
    }
    assert calls[..|calls|] == calls;
  }

  /** Approving resumes the run with the confirmation flag up; rejecting resumes it with the flag
      down. Either way the gate runs again from the top. */
  function HumanStep(s: RunState, approve: bool): RunState {
    if approve then
      s.(phase := AtGate, confirm := true, resume := Some(true), approvals := s.approvals + 1)
    else
      s.(phase := AtGate, confirm := false, resume := Some(false),
         ledger := AfterRejection(s.ledger, RecordedIds(s.ledger.log), PendingCalls(s.messages)))
  }

  /** One step; an input that does not fit the phase changes nothing. */
  function Step(cfg: RunConfig, s: RunState, input: Input): RunState {
    match (s.phase, input)
    case (AtAssistant, ModelAnswers(diagnosis, text, calls)) => AssistantStep(cfg, s, diagnosis, AI(text, calls))
    case (AtGate, GateRuns) => GateStep(cfg, s)
    case (AtTools, ToolsReport(reports, effects)) => ToolsStep(s, reports, effects)
    case (Waiting, HumanDecides(approve)) => HumanStep(s, approve)
    case _ => s
  }

  function Run(cfg: RunConfig, s: RunState, inputs: seq<Input>): RunState {
    if inputs == [] then s
    else Step(cfg, Run(cfg, s, inputs[..|inputs| - 1]), inputs[|inputs| - 1])
  }

  // ----- control: what each phase implies -----

  /** The route the planner chose, with possibly more suggested paths. */
  predicate SameRoute(chosen: Route, current: Route) {
    current == chosen.(suggestedPaths := current.suggestedPaths) && chosen.suggestedPaths <= current.suggestedPaths
  }

  predicate RoutePermits(cfg: RunConfig, chosen: Route, calls: seq<ToolCall>) {
    cfg.enforceRoute ==> RouteAllows(chosen, calls)
  }

  /** The policy lets the batch through without asking anybody. */
  predicate Cleared(cfg: RunConfig, chosen: Route, calls: seq<ToolCall>, confirm: bool) {
    var d := Decide(cfg.policy, calls, confirm, []);
    d.allowed && !d.requiresApproval && RoutePermits(cfg, chosen, calls)
  }

  /** The human is asked about the batch: unconfirmed, allowed and permitted by the route. */
  predicate Asked(cfg: RunConfig, chosen: Route, calls: seq<ToolCall>) {
    var d := Decide(cfg.policy, calls, false, []);
    d.allowed && d.requiresApproval && RoutePermits(cfg, chosen, calls)
  }

  ghost predicate Control(cfg: RunConfig, start: RunState, s: RunState) {
    var calls := PendingCalls(s.messages);
    && SameRoute(start.route, s.route)
    && (s.confirm <==> start.confirm || s.approvals > 0)
    && s.approvals <= s.pauses <= 1
    && (start.confirm ==> s.pauses == 0)
    && (s.resume.Some? ==> s.phase == AtGate)
    && (s.phase == AtGate ==> calls != [])
    && (s.phase == AtTools ==> calls != [] && Cleared(cfg, start.route, calls, s.confirm))
    && (s.phase == Waiting ==> calls != [] && s.pauses == 1 && !s.confirm && Asked(cfg, start.route, calls))
    && (s.resume == Some(true) ==> s.confirm)
    && (s.resume == Some(false) ==> !s.confirm && Asked(cfg, start.route, calls))
    && (s.pauses == 1 && s.approvals == 0 ==> s.phase == Waiting || s.phase == Finished || s.resume == Some(false))
    && (forall b :: b in s.executed ==> Cleared(cfg, start.route, b.calls, b.confirm)
                                         && (b.confirm ==> s.confirm) && (start.confirm ==> b.confirm))
  }

  lemma SameRouteAllows(chosen: Route, current: Route, calls: seq<ToolCall>)
    requires SameRoute(chosen, current)
    ensures RouteAllows(chosen, calls) <==> RouteAllows(current, calls)
  {
    forall c | c in calls ensures ToolAllowed(chosen, c.name) <==> ToolAllowed(current, c.name) {}
  }

  lemma GateControl(cfg: RunConfig, start: RunState, s: RunState)
    requires Control(cfg, start, s) && s.phase == AtGate
    ensures Control(cfg, start, GateStep(cfg, s))
  {
    var calls := PendingCalls(s.messages);
    GateMeaning(cfg, s.messages, Some(s.route), s.confirm, s.resume, s.ledger);
    SameRouteAllows(start.route, s.route, calls);
    if s.confirm {
      ConfirmedDecision(cfg.policy, calls);
    }
  }

  lemma AssistantControl(cfg: RunConfig, start: RunState, s: RunState, diagnosis: Option<string>, answer: Message)
    requires Control(cfg, start, s) && s.phase == AtAssistant
    ensures Control(cfg, start, AssistantStep(cfg, s, diagnosis, answer))
  {
    MergedRouteParts(s.route, s.messages, cfg.parse);
  }

  lemma {:induction false} RunControl(cfg: RunConfig, start: RunState, inputs: seq<Input>)
    requires start.phase == AtAssistant && start.resume.None? && start.executed == []
    requires start.pauses == 0 && start.approvals == 0
    ensures Control(cfg, start, Run(cfg, start, inputs))
  {
    if inputs != [] {
      var s, input := Run(cfg, start, inputs[..|inputs| - 1]), inputs[|inputs| - 1];
      RunControl(cfg, start, inputs[..|inputs| - 1]);
      match (s.phase, input)
      case (AtAssistant, ModelAnswers(diagnosis, text, calls)) => AssistantControl(cfg, start, s, diagnosis, AI(text, calls));
      case (AtGate, GateRuns) => GateControl(cfg, start, s);
      case _ =>
    }
  }

  /** Gate safety over every run: whatever the model, the tools and the human do, every batch the
      tools execute was cleared by the policy under the run's confirmation flag, uses only tools
      that the route chosen by the planner allows (with enforcement on), and went through with
      the flag up only if the run was started confirmed or the human approved it before. */
  lemma ExecutedBatchesAreCleared(cfg: RunConfig, messages: seq<Message>, route: Route, plan: Plan, confirm: bool, inputs: seq<Input>)
    ensures var s := Run(cfg, Start(cfg, messages, route, plan, confirm), inputs);
            forall b :: b in s.executed ==>
              && Decide(cfg.policy, b.calls, b.confirm, []).allowed
              && !Decide(cfg.policy, b.calls, b.confirm, []).requiresApproval
              && (cfg.enforceRoute ==> forall c :: c in b.calls ==> ToolAllowed(route, c.name))
              && (b.confirm ==> confirm || s.approvals > 0)
  {
    RunControl(cfg, Start(cfg, messages, route, plan, confirm), inputs);
  }

  /** No executed call is denied by the policy, and one that needs approval was executed in a run
      that was started confirmed or approved. */
  predicate OnlyPermitted(cfg: RunConfig, s: RunState, confirm: bool) {
    forall b, c :: b in s.executed && c in b.calls ==>
      !Denied(cfg.policy, c) && (NeedsApproval(cfg.policy, c) ==> confirm || s.approvals > 0)
  }

  predicate RouteOpen(cfg: RunConfig, route: Route, tool: string) {
    cfg.enforceRoute ==> ToolAllowed(route, tool)
  }

  /** Every gated post that its tool's rule would not ask about is denied, or off the route. */
  ghost predicate NoOpenSoftAsk(cfg: RunConfig, route: Route) {
    forall call :: SoftAsk(cfg.policy, call) && RouteOpen(cfg, route, call.name) ==> Denied(cfg.policy, call)
  }

  lemma ExecutedCallsArePermitted(cfg: RunConfig, messages: seq<Message>, route: Route, plan: Plan, confirm: bool, inputs: seq<Input>)
    requires confirm || NoOpenSoftAsk(cfg, route)
    ensures OnlyPermitted(cfg, Run(cfg, Start(cfg, messages, route, plan, confirm), inputs), confirm)
  {
    var start := Start(cfg, messages, route, plan, confirm);
    var s := Run(cfg, start, inputs);
    RunControl(cfg, start, inputs);
    forall b | b in s.executed
      ensures forall c :: c in b.calls ==> !Denied(cfg.policy, c) && (NeedsApproval(cfg.policy, c) ==> b.confirm)
    {
      ClearedIsPermitted(cfg, route, b.calls, b.confirm);
    }
  }

  lemma ClearedIsPermitted(cfg: RunConfig, route: Route, calls: seq<ToolCall>, confirm: bool)
    requires Cleared(cfg, route, calls, confirm)
    requires confirm || NoOpenSoftAsk(cfg, route)
    ensures forall c :: c in calls ==> !Denied(cfg.policy, c) && (NeedsApproval(cfg.policy, c) ==> confirm)
  {
    if confirm {
      ConfirmedDecision(cfg.policy, calls);
    } else {
      UnconfirmedDecision(cfg.policy, calls);
    }
  }

  /** An open soft ask is executed without anybody being asked, together with whatever call stands
      behind it, denied or not. */
  lemma SoftAskRuns(cfg: RunConfig, messages: seq<Message>, route: Route, plan: Plan, soft: ToolCall, behind: ToolCall)
    requires SoftAsk(cfg.policy, soft) && !Denied(cfg.policy, soft)
    requires RouteOpen(cfg, route, soft.name) && RouteOpen(cfg, route, behind.name)
    ensures var inputs := [ModelAnswers(None, "", [soft, behind]), GateRuns, ToolsReport([], [])];
            var s := Run(cfg, Start(cfg, messages, route, plan, false), inputs);
            s.executed == [Batch([soft, behind], false)] && s.approvals == 0
  {
    var start := Start(cfg, messages, route, plan, false);
    var s1 := AssistantStep(cfg, start, None, AI("", [soft, behind]));
    FirstAnswer(cfg, start, [soft, behind]);
    SoftAskPassesGate(cfg, route, s1, soft, behind);
    OneRound(cfg, start, [soft, behind]);
  }

  lemma OneRound(cfg: RunConfig, s: RunState, calls: seq<ToolCall>)
    requires s.phase == AtAssistant
    requires AssistantStep(cfg, s, None, AI("", calls)).phase == AtGate
    requires GateStep(cfg, AssistantStep(cfg, s, None, AI("", calls))).phase == AtTools
    ensures Run(cfg, s, [ModelAnswers(None, "", calls), GateRuns, ToolsReport([], [])])
            == ToolsStep(GateStep(cfg, AssistantStep(cfg, s, None, AI("", calls))), [], [])
  {
    RunOfThree(cfg, s, ModelAnswers(None, "", calls), GateRuns, ToolsReport([], []));
  }

  lemma FirstAnswer(cfg: RunConfig, s: RunState, calls: seq<ToolCall>)
    requires calls != []
    ensures var s1 := AssistantStep(cfg, s, None, AI("", calls));
            && s1.phase == AtGate && PendingCalls(s1.messages) == calls && SameRoute(s.route, s1.route)
            && s1.confirm == s.confirm && s1.resume == s.resume && s1.executed == s.executed && s1.approvals == s.approvals
  {
    MergedRouteParts(s.route, s.messages, cfg.parse);
  }

  lemma RunOfThree(cfg: RunConfig, s: RunState, i1: Input, i2: Input, i3: Input)
    ensures Run(cfg, s, [i1, i2, i3]) == Step(cfg, Step(cfg, Step(cfg, s, i1), i2), i3)
  {
    assert [i1, i2, i3] == [i1, i2] + [i3] && [i1, i2] == [i1] + [i2] && [i1] == [] + [i1];
    RunSnoc(cfg, s, [i1, i2], i3);
    RunSnoc(cfg, s, [i1], i2);
    RunSnoc(cfg, s, [], i1);
    assert Run(cfg, s, []) == s;
  }

  lemma RunSnoc(cfg: RunConfig, s: RunState, front: seq<Input>, last: Input)
    ensures Run(cfg, s, front + [last]) == Step(cfg, Run(cfg, s, front), last)
  {
    assert (front + [last])[..|front|] == front;
  }

  lemma SoftAskPassesGate(cfg: RunConfig, chosen: Route, s: RunState, soft: ToolCall, behind: ToolCall)
    requires SameRoute(chosen, s.route) && !s.confirm && s.resume.None?
    requires PendingCalls(s.messages) == [soft, behind]
    requires SoftAsk(cfg.policy, soft) && !Denied(cfg.policy, soft)
    requires RouteOpen(cfg, chosen, soft.name) && RouteOpen(cfg, chosen, behind.name)
    ensures GateStep(cfg, s) == s.(phase := AtTools, ledger := GateStep(cfg, s).ledger)
  {
    SameRouteAllows(chosen, s.route, [soft, behind]);
    GateMeaning(cfg, s.messages, Some(s.route), false, None, s.ledger);
    VerdictMeaning(cfg.policy, soft, false);
  }

  /** Over all runs only permitted calls are executed, if and only if the run is started confirmed
      or there is no open soft ask. */
  lemma PermittedRunsIff(cfg: RunConfig, messages: seq<Message>, route: Route, plan: Plan, confirm: bool)
    ensures (forall inputs :: OnlyPermitted(cfg, Run(cfg, Start(cfg, messages, route, plan, confirm), inputs), confirm))
            <==> confirm || NoOpenSoftAsk(cfg, route)
  {
    if confirm || NoOpenSoftAsk(cfg, route) {
      forall inputs ensures OnlyPermitted(cfg, Run(cfg, Start(cfg, messages, route, plan, confirm), inputs), confirm) {
        ExecutedCallsArePermitted(cfg, messages, route, plan, confirm, inputs);
      }
    } else {
      var soft :| SoftAsk(cfg.policy, soft) && RouteOpen(cfg, route, soft.name) && !Denied(cfg.policy, soft);
      SoftAskRuns(cfg, messages, route, plan, soft, soft);
      var inputs := [ModelAnswers(None, "", [soft, soft]), GateRuns, ToolsReport([], [])];
      NotOnlyPermitted(cfg, Run(cfg, Start(cfg, messages, route, plan, confirm), inputs), soft);
    }
  }

  lemma NotOnlyPermitted(cfg: RunConfig, s: RunState, soft: ToolCall)
    requires SoftAsk(cfg.policy, soft) && s.executed == [Batch([soft, soft], false)] && s.approvals == 0
    ensures !OnlyPermitted(cfg, s, false)
  {
    var b := Batch([soft, soft], false);
    assert s.executed[0] == b && b.calls[0] == soft;
    assert b in s.executed && soft in b.calls && NeedsApproval(cfg.policy, soft);
  }

  /** The same condition in terms of the configuration, with the registered approval rule. */
  lemma PermittedRunsByConfiguration(cfg: RunConfig, messages: seq<Message>, route: Route, plan: Plan, confirm: bool)
    requires UsesDangerousPostRule(cfg.policy)
    ensures (forall inputs :: OnlyPermitted(cfg, Run(cfg, Start(cfg, messages, route, plan, confirm), inputs), confirm))
            <==> || confirm || !RouteOpen(cfg, route, "http_post") || !cfg.policy.allowJobPost
                 || ToolDenied(cfg.policy, "http_post") || PathsLackQueries(cfg.policy)
  {
    PermittedRunsIff(cfg, messages, route, plan, confirm);
    SoftAsksDeniedIff(cfg.policy);
    if RouteOpen(cfg, route, "http_post") {
      assert NoOpenSoftAsk(cfg, route) <==> forall call :: SoftAsk(cfg.policy, call) ==> Denied(cfg.policy, call);
    }
  }

  /** A run pauses for the human at most once, and never when it was started confirmed: an
      approval holds for the rest of the run, a rejection ends it. While it waits, the pending
      batch is one the route permits and the policy allows so far. */
  lemma AtMostOnePause(cfg: RunConfig, messages: seq<Message>, route: Route, plan: Plan, confirm: bool, inputs: seq<Input>)
    ensures var s := Run(cfg, Start(cfg, messages, route, plan, confirm), inputs);
            && s.approvals <= s.pauses <= (if confirm then 0 else 1)
            && (s.confirm <==> confirm || s.approvals > 0)
            && (s.phase == Waiting ==> !s.confirm && Asked(cfg, route, PendingCalls(s.messages)))
            && SameRoute(route, s.route)
  {
    RunControl(cfg, Start(cfg, messages, route, plan, confirm), inputs);
  }

  /** A rejected batch is refused and ends the run; none of it is executed. */
  lemma RejectionEndsRun(cfg: RunConfig, messages: seq<Message>, route: Route, plan: Plan, confirm: bool, inputs: seq<Input>)
    ensures var s := Run(cfg, Start(cfg, messages, route, plan, confirm), inputs);
            s.phase == Waiting ==>
              var s' := Step(cfg, Step(cfg, s, HumanDecides(false)), GateRuns);
              s'.phase == Finished && s'.executed == s.executed
              && s'.messages == s.messages + [AI(REJECTED_TEXT, [])]
  {
    var s := Run(cfg, Start(cfg, messages, route, plan, confirm), inputs);
    RunControl(cfg, Start(cfg, messages, route, plan, confirm), inputs);
    if s.phase == Waiting {
      GateRefusesRejected(cfg, route, HumanStep(s, false));
    }
  }

  lemma GateRefusesRejected(cfg: RunConfig, chosen: Route, s: RunState)
    requires s.phase == AtGate && s.resume == Some(false) && !s.confirm && SameRoute(chosen, s.route)
    requires PendingCalls(s.messages) != [] && Asked(cfg, chosen, PendingCalls(s.messages))
    ensures var s' := GateStep(cfg, s);
            && s'.phase == Finished && s'.executed == s.executed
            && s'.messages == s.messages + [AI(REJECTED_TEXT, [])]
  {
    GateMeaning(cfg, s.messages, Some(s.route), false, Some(false), s.ledger);
    SameRouteAllows(chosen, s.route, PendingCalls(s.messages));
    RouteBlockedMeaning(s.route, PendingCalls(s.messages));
  }

  // ----- the plan -----

  ghost predicate PlanInvariant(cfg: RunConfig, start: RunState, s: RunState) {
    && s.seen <= |s.messages|
    && s.replans <= 1
    && s.plan == ClosedForm(start.plan, s.messages[..s.seen], s.replans == 1)
  }

  lemma AssistantKeepsPlan(cfg: RunConfig, start: RunState, s: RunState, diagnosis: Option<string>, answer: Message)
    requires PlanInvariant(cfg, start, s)
    ensures PlanInvariant(cfg, start, AssistantStep(cfg, s, diagnosis, answer))
  {
    var s' := AssistantStep(cfg, s, diagnosis, answer);
    var seen, rest := s.messages[..s.seen], s.messages[s.seen..];
    assert s.messages == seen + rest;
    ClosedFormStep(start.plan, seen, rest, s.replans == 1, Some(s.route.kind));
    assert s'.messages[..s'.seen] == s.messages;
  }

  lemma PlanStepKeeps(cfg: RunConfig, start: RunState, s: RunState, input: Input)
    requires PlanInvariant(cfg, start, s)
    ensures PlanInvariant(cfg, start, Step(cfg, s, input))
  {
    var s' := Step(cfg, s, input);
    if s.phase == AtAssistant && input.ModelAnswers? {
      AssistantKeepsPlan(cfg, start, s, input.diagnosis, AI(input.text, input.calls));
    } else {
      OtherStepsLeavePlan(cfg, s, input);
      assert s'.messages[..s.seen] == s.messages[..s.seen];
    }
  }

  lemma OtherStepsLeavePlan(cfg: RunConfig, s: RunState, input: Input)
    requires !(s.phase == AtAssistant && input.ModelAnswers?)
    ensures var s' := Step(cfg, s, input);
            s.messages <= s'.messages && s'.plan == s.plan && s'.seen == s.seen && s'.replans == s.replans
  {
  }

  /** Plan evolution in closed form: after any run the plan is the planner's, marked off once
      against everything the last assistant step saw, plus at most one summary step; at most one
      replan happens in a run. */
  lemma {:induction false} PlanClosedForm(cfg: RunConfig, messages: seq<Message>, route: Route, plan: Plan, confirm: bool, inputs: seq<Input>)
    ensures var s := Run(cfg, Start(cfg, messages, route, plan, confirm), inputs);
            && s.seen <= |s.messages|
            && s.replans <= 1
            && s.plan == ClosedForm(plan, s.messages[..s.seen], s.replans == 1)
  {
    var start := Start(cfg, messages, route, plan, confirm);
    if inputs == [] {
      assert Updated(plan, {}) == plan by {
        assert UpdatedSteps(plan.steps, {}) == plan.steps;
      }
      assert messages[..0] == [];
    } else {
      var front := inputs[..|inputs| - 1];
      PlanClosedForm(cfg, messages, route, plan, confirm, front);
      PlanStepKeeps(cfg, start, Run(cfg, start, front), inputs[|inputs| - 1]);
    }
  }
}
