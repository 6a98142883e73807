/** The tool route chosen for a user turn, and which tools it lets through. */
module Routes {
  import opened Text

  datatype RouteKind = Knowledge | LiveStatus | Troubleshooting | DangerousExecute | SafetyReject
  {
    function Name(): string {
      match this
      case Knowledge => "knowledge"
      case LiveStatus => "live_status"
      case Troubleshooting => "troubleshooting"
      case DangerousExecute => "dangerous_execute"
      case SafetyReject => "safety_reject"
    }
  }

  datatype Route = Route(
    kind: RouteKind,
    recommendedTools: seq<string>,
    forbiddenTools: seq<string>,
    suggestedPaths: seq<string>,
    rationale: string)

  predicate ToolAllowed(route: Route, tool: string) {
    && tool !in route.forbiddenTools
    && route.kind != SafetyReject
    && route.recommendedTools != []
    && !(route.kind == Knowledge && (tool == "http_get" || tool == "http_post"))
  }

  const ROUTE_HEADLINE := "Tool routing plan for this user turn (follow before choosing tools):"

  function Lines(route: Route): seq<string> {
    [ROUTE_HEADLINE, "- Intent: " + route.kind.Name()]
    + [if route.recommendedTools != []
       then "- Recommended tool order: " + Join(" -> ", route.recommendedTools)
       else "- Recommended: respond without calling tools"]
    + (if route.forbiddenTools != [] then ["- Do not call: " + Join(", ", route.forbiddenTools)] else [])
    + (if route.suggestedPaths != []
       then ["- Suggested API paths (http_get whitelist): " + Join(", ", route.suggestedPaths)] else [])
    + ["- Rationale: " + route.rationale]
  }

  /** The system message that tells the model its route. */
  function RouteSystemText(route: Route): string {
    Join("\n", Lines(route))
  }

  // ----- what the route text says -----

  /** The part stands somewhere in the text. */
  predicate StandsIn(text: string, part: string) {
    exists i: nat :: i <= |text| && part <= text[i..]
  }

  lemma StandsInsideOf(text: string, front: string, middle: string, part: string, back: string)
    requires StandsIn(middle, part) && text == front + middle + back
    ensures StandsIn(text, part)
  {
    var i: nat :| i <= |middle| && part <= middle[i..];
    assert text[|front| + i..] == middle[i..] + back;
  }

  lemma StandsInItself(part: string)
    ensures StandsIn(part, part)
  {
    assert part[0..] == part;
  }

  lemma {:induction false} JoinHolds(sep: string, parts: seq<string>, part: string)
    requires part in parts
    ensures StandsIn(Join(sep, parts), part)
  {
    StandsInItself(part);
    if |parts| == 1 {
      assert parts == [part];
    } else if part == parts[0] {
      StandsInsideOf(Join(sep, parts), "", parts[0], part, sep + Join(sep, parts[1..]));
    } else {
      JoinHolds(sep, parts[1..], part);
      StandsInsideOf(Join(sep, parts), parts[0] + sep, Join(sep, parts[1..]), part, "");
    }
  }

  /** The text names the intent and the rationale, the recommended tools in order or that none are to
      be called, the forbidden tools behind "Do not call", and the suggested paths. */
  lemma RouteTextTells(route: Route)
    ensures var text := RouteSystemText(route);
            && StandsIn(text, "- Intent: " + route.kind.Name())
            && StandsIn(text, "- Rationale: " + route.rationale)
            && (route.recommendedTools != [] ==> StandsIn(text, "- Recommended tool order: " + Join(" -> ", route.recommendedTools)))
            && (route.recommendedTools == [] ==> StandsIn(text, "- Recommended: respond without calling tools"))
            && (route.forbiddenTools != [] ==> StandsIn(text, "- Do not call: " + Join(", ", route.forbiddenTools)))
            && (route.suggestedPaths != [] ==>
                  StandsIn(text, "- Suggested API paths (http_get whitelist): " + Join(", ", route.suggestedPaths)))
  {
    var lines := Lines(route);
    LinesExactly(route);
    forall line | line in lines ensures StandsIn(RouteSystemText(route), line) {
      JoinHolds("\n", lines, line);
    }
  }

  lemma LinesExactly(route: Route)
    ensures "- Intent: " + route.kind.Name() in Lines(route) && "- Rationale: " + route.rationale in Lines(route)
    ensures (if route.recommendedTools != [] then "- Recommended tool order: " + Join(" -> ", route.recommendedTools)
             else "- Recommended: respond without calling tools") in Lines(route)
    ensures route.forbiddenTools != [] ==> "- Do not call: " + Join(", ", route.forbiddenTools) in Lines(route)
    ensures route.suggestedPaths != [] ==>
              "- Suggested API paths (http_get whitelist): " + Join(", ", route.suggestedPaths) in Lines(route)
  {
    var lines := Lines(route);
    assert lines[1] == "- Intent: " + route.kind.Name() && lines[|lines| - 1] == "- Rationale: " + route.rationale;
    assert lines[2] == if route.recommendedTools != []
                       then "- Recommended tool order: " + Join(" -> ", route.recommendedTools)
                       else "- Recommended: respond without calling tools";
    if route.forbiddenTools != [] {
      assert lines[3] == "- Do not call: " + Join(", ", route.forbiddenTools);
    }
  }
}
