/** The plan of a run: built from the route, marked off as tools report, extended once. */
module Plans {
  import opened Text
  import opened Messages
  import opened Routes

  datatype StepStatus = Pending | InProgress | Completed | Skipped | Failed

  datatype PlanStep = PlanStep(id: string, goal: string, toolHint: string, status: StepStatus, outcome: string)

  datatype Plan = Plan(goal: string, routeKind: Option<RouteKind>, steps: seq<PlanStep>)

  const REPLAN_ID := "step-replan-summary"

  const SUMMARY_STEP :=
    PlanStep(REPLAN_ID, "Summarize troubleshooting findings from docs and live API checks", "", Pending, "")

  function Shortened(goal: string): string {
    if |goal| <= 120 then goal else goal[..120]
  }

  function ToolStep(index: nat, tool: string, goal: string): PlanStep {
    PlanStep("step-" + Decimal(index), "Execute " + tool + " for: " + Shortened(goal), tool, Pending, "")
  }

  /** One pending step per recommended tool, numbered from 1; a single answering step when no
      tool is recommended. */
  method BuildPlanFromRoute(route: Route, goal: string) returns (plan: Plan)
    ensures plan.goal == goal && plan.routeKind == Some(route.kind)
    ensures forall s :: s in plan.steps ==> s.status == Pending
    ensures route.recommendedTools != [] ==>
              && |plan.steps| == |route.recommendedTools|
              && forall i :: 0 <= i < |plan.steps| ==>
                   && plan.steps[i].id == "step-" + Decimal(i + 1)
                   && plan.steps[i].toolHint == route.recommendedTools[i]
                   && plan.steps[i].goal == "Execute " + route.recommendedTools[i] + " for: " + (if |goal| > 120 then goal[..120] else goal)
                   && plan.steps[i].outcome == ""
    ensures route.recommendedTools == [] ==>
              && |plan.steps| == 1 && plan.steps[0].id == "step-1" && plan.steps[0].toolHint == "" && plan.steps[0].outcome == ""
              && plan.steps[0].goal == "Answer without tools: " + (if |goal| > 120 then goal[..120] else goal)
  {
    var steps: seq<PlanStep> := [];
    for i := 0 to |route.recommendedTools|
      invariant |steps| == i
      invariant forall j :: 0 <= j < i ==> steps[j] == ToolStep(j + 1, route.recommendedTools[j], goal)
    {
      steps := steps + [ToolStep(i + 1, route.recommendedTools[i], goal)];
    }
    if steps == [] {
      steps := [PlanStep("step-1", "Answer without tools: " + Shortened(goal), "", Pending, "")];
    }
    plan := Plan(goal, Some(route.kind), steps);
  }

  /** The names of the tools that have reported. */
  function ToolNames(ms: seq<Message>): set<string> {
    if ms == [] then {}
    else
      var last := ms[|ms| - 1];
      ToolNames(ms[..|ms| - 1]) + if last.Tool? && Strip(last.name) != "" then {Strip(last.name)} else {}
  }

  method CollectToolNames(ms: seq<Message>) returns (names: set<string>)
    ensures names == ToolNames(ms)
  {
    names := {};
    for i := 0 to |ms|
      invariant names == ToolNames(ms[..i])
    {
      assert ms[..i + 1][..i] == ms[..i];
      if ms[i].Tool? {
        var name := Strip(ms[i].name);
        if name != "" {
          names := names + {name};
        }
      }
    }
    assert ms[..|ms|] == ms;
  }

  /** Exactly the tools that have reported under a name. */
  lemma {:induction false} ToolNamesExactly(ms: seq<Message>, name: string)
    ensures name in ToolNames(ms) <==> name != "" && exists m :: m in ms && m.Tool? && Strip(m.name) == name
  {
    if ms != [] {
      var front, last := ms[..|ms| - 1], ms[|ms| - 1];
      ToolNamesExactly(front, name);
      assert ms == front + [last];
      assert forall m :: m in ms <==> m in front || m == last;
    }
  }

  lemma {:induction false} ToolNamesConcat(a: seq<Message>, b: seq<Message>)
    ensures ToolNames(a + b) == ToolNames(a) + ToolNames(b)
  {
    if b == [] {
      assert a + b == a;
    } else {
      var front := b[..|b| - 1];
      ToolNamesConcat(a, front);
      assert (a + b)[..|a + b| - 1] == a + front;
    }
  }

  function UpdatedStep(step: PlanStep, names: set<string>): PlanStep {
    var hint := Strip(step.toolHint);
    if hint != "" && hint in names && step.status == Pending
    then step.(status := Completed, outcome := hint + " executed")
    else step
  }

  function UpdatedSteps(steps: seq<PlanStep>, names: set<string>): (r: seq<PlanStep>)
    ensures |r| == |steps|
    ensures forall i :: 0 <= i < |steps| ==> r[i] == UpdatedStep(steps[i], names)
  {
    seq(|steps|, i requires 0 <= i < |steps| => UpdatedStep(steps[i], names))
  }

  function Updated(plan: Plan, names: set<string>): Plan {
    plan.(steps := UpdatedSteps(plan.steps, names))
  }

  method UpdatePlanOutcomes(plan: Plan, ms: seq<Message>) returns (r: Plan)
    ensures r == Updated(plan, ToolNames(ms))
  {
    var names := CollectToolNames(ms);
    var steps: seq<PlanStep> := [];
    for i := 0 to |plan.steps|
      invariant |steps| == i
      invariant forall j :: 0 <= j < i ==> steps[j] == UpdatedStep(plan.steps[j], names)
    {
      var step := plan.steps[i];
      var hint := Strip(step.toolHint);
      if hint != "" && hint in names && step.status == Pending {
        steps := steps + [step.(status := Completed, outcome := hint + " executed")];
      } else {
        steps := steps + [step];
      }
    }
    assert steps == UpdatedSteps(plan.steps, names);
    r := plan.(steps := steps);
  }

  /** Marking off in two goes, over a growing set of reports, is marking off once. */
  lemma UpdateTwice(plan: Plan, early: set<string>, late: set<string>)
    requires early <= late
    ensures Updated(Updated(plan, early), late) == Updated(plan, late)
  {
    assert UpdatedSteps(UpdatedSteps(plan.steps, early), late) == UpdatedSteps(plan.steps, late);
  }

  /** update(update(p, M1), M1 + M2) == update(p, M1 + M2). */
  lemma UpdateOverMessages(plan: Plan, m1: seq<Message>, m2: seq<Message>)
    ensures Updated(Updated(plan, ToolNames(m1)), ToolNames(m1 + m2)) == Updated(plan, ToolNames(m1 + m2))
  {
    ToolNamesConcat(m1, m2);
    UpdateTwice(plan, ToolNames(m1), ToolNames(m1 + m2));
  }

  /** Whether the model has already answered: its last message has text and calls no tool. */
  function LastAI(ms: seq<Message>): Option<Message> {
    if ms == [] then None
    else if ms[|ms| - 1].AI? then Some(ms[|ms| - 1])
    else LastAI(ms[..|ms| - 1])
  }

  predicate Answered(ms: seq<Message>) {
    match LastAI(ms)
    case None => false
    case Some(m) => Strip(m.content) != "" && m.AI? && m.toolCalls == []
  }

  /** The model's last message says something and calls no tool. */
  predicate HasAnswered(ms: seq<Message>) {
    exists i :: 0 <= i < |ms| && ms[i].AI? && Strip(ms[i].content) != "" && ms[i].toolCalls == []
                && forall j :: i < j < |ms| ==> !ms[j].AI?
  }

  lemma {:induction false} AnsweredExactly(ms: seq<Message>)
    ensures Answered(ms) <==> HasAnswered(ms)
  {
    if ms != [] && !ms[|ms| - 1].AI? {
      AnsweredExactly(ms[..|ms| - 1]);
    }
  }

  predicate HasReplanStep(plan: Plan) {
    exists s :: s in plan.steps && s.id == REPLAN_ID
  }

  predicate Replans(plan: Plan, kind: Option<RouteKind>, ms: seq<Message>) {
    && kind == Some(Troubleshooting)
    && {"search_docs", "http_get"} <= ToolNames(ms)
    && !Answered(ms)
    && !HasReplanStep(plan)
  }

  function WithSummary(plan: Plan): Plan {
    plan.(steps := plan.steps + [SUMMARY_STEP])
  }

  method MaybeReplanTroubleshooting(plan: Plan, kind: Option<RouteKind>, ms: seq<Message>) returns (r: Option<Plan>)
    ensures r == if Replans(plan, kind, ms) then Some(WithSummary(plan)) else None
  {
    if kind != Some(Troubleshooting) {
      return None;
    }
    var names := CollectToolNames(ms);
    if !({"search_docs", "http_get"} <= names) {
      return None;
    }
    var i := |ms| - 1;
    assert ms[..i + 1] == ms;
    while i >= 0 && !ms[i].AI?
      invariant -1 <= i < |ms|
      invariant LastAI(ms) == LastAI(ms[..i + 1])
    {
      assert ms[..i + 1][..i] == ms[..i];
      i := i - 1;
    }
    if i >= 0 {
      if Strip(ms[i].content) != "" && ms[i].toolCalls == [] {
        return None;
      }
    }
    if HasReplanStep(plan) {
      return None;
    }
    return Some(WithSummary(plan));
  }

  predicate Reported(ms: seq<Message>, tool: string) {
    exists m :: m in ms && m.Tool? && Strip(m.name) == tool
  }

  /** Exactly when the plan gets its summary step: in a troubleshooting run in which both tools have
      reported, the model has not answered, and the step is not there. */
  lemma ReplansExactly(plan: Plan, kind: Option<RouteKind>, ms: seq<Message>)
    ensures Replans(plan, kind, ms) <==>
              && kind == Some(Troubleshooting) && Reported(ms, "search_docs") && Reported(ms, "http_get") && !HasAnswered(ms)
              && forall s :: s in plan.steps ==> s.id != "step-replan-summary"
    ensures WithSummary(plan) == plan.(steps := plan.steps +
              [PlanStep("step-replan-summary", "Summarize troubleshooting findings from docs and live API checks", "", Pending, "")])
  {
    ToolNamesExactly(ms, "search_docs");
    ToolNamesExactly(ms, "http_get");
    AnsweredExactly(ms);
  }

  lemma UpdateWithSummary(plan: Plan, names: set<string>)
    ensures Updated(WithSummary(plan), names) == WithSummary(Updated(plan, names))
    ensures HasReplanStep(WithSummary(plan))
  {
    assert WithSummary(plan).steps[|plan.steps|] == SUMMARY_STEP;
    assert Strip("") == "";
    assert UpdatedSteps(plan.steps + [SUMMARY_STEP], names) == UpdatedSteps(plan.steps, names) + [SUMMARY_STEP];
  }

  /** What one assistant step does to the plan. */
  function Advanced(plan: Plan, kind: Option<RouteKind>, ms: seq<Message>): Plan {
    var updated := Updated(plan, ToolNames(ms));
    if Replans(updated, kind, ms) then WithSummary(updated) else updated
  }

  /** The closed form of a plan after any number of assistant steps: the planner's plan marked
      off once against all messages, with at most one summary step behind it. */
  function ClosedForm(plan: Plan, ms: seq<Message>, summarised: bool): Plan {
    var updated := Updated(plan, ToolNames(ms));
    if summarised then WithSummary(updated) else updated
  }

  /** One assistant step keeps the closed form; the summary is added at most once. */
  lemma ClosedFormStep(plan: Plan, m1: seq<Message>, m2: seq<Message>, summarised: bool, kind: Option<RouteKind>)
    ensures var ms := m1 + m2;
            var current := ClosedForm(plan, m1, summarised);
            var replans := Replans(Updated(current, ToolNames(ms)), kind, ms);
            && Advanced(current, kind, ms) == ClosedForm(plan, ms, summarised || replans)
            && !(summarised && replans)
  {
    var ms := m1 + m2;
    var current := ClosedForm(plan, m1, summarised);
    UpdateOverMessages(plan, m1, m2);
    if summarised {
      UpdateWithSummary(Updated(plan, ToolNames(m1)), ToolNames(ms));
      UpdateWithSummary(Updated(plan, ToolNames(ms)), {});
    }
  }

  /** Marking off only ever turns pending steps into completed ones, and only those whose tool
      has reported. */
  lemma StatusesOnlyComplete(plan: Plan, names: set<string>, i: nat)
    requires i < |plan.steps|
    ensures var before := plan.steps[i];
            var after := Updated(plan, names).steps[i];
            && after.id == before.id && after.goal == before.goal && after.toolHint == before.toolHint
            && (after.status != before.status ==> before.status == Pending && after.status == Completed)
            && (before.status == Pending ==>
                  (after.status == Completed <==> Strip(before.toolHint) != "" && Strip(before.toolHint) in names))
            && after.outcome == (if after.status != before.status then Strip(before.toolHint) + " executed" else before.outcome)
  {
  }
}
