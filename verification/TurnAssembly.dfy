/** Building the messages of one turn, and fitting history and turn together into one budget. */
module TurnAssembly {
  import opened Text
  import opened Messages
  import opened Routes
  import opened CheckpointTrim
  import opened CheckpointStore
  import opened CheckpointPack
  import opened TurnPacking

  /** What a turn is built from. `skillLines` and `ragText` are empty when there is none. */
  datatype TurnInput = TurnInput(
    systemPrompt: string,
    memoryEnabled: bool,
    memoryPreview: string,
    route: Option<Route>,
    skillLines: seq<string>,
    ragText: Option<string>,
    turnMessages: seq<Message>,
    dedupeSystemPrompt: bool,
    dedupeMemoryMessages: bool)

  // ----- the client's turn -----

  datatype ClientMessage = ClientMessage(role: string, content: string)

  /** The role as it is compared: no other letter than those of ASCII becomes one of the role
      names when it is put in lower case. */
  predicate HasRole(c: ClientMessage, role: string) { Lower(c.role) == role }

  function ToMessage(c: ClientMessage): Message {
    if HasRole(c, "user") then Human(c.content)
    else if HasRole(c, "assistant") then AI(c.content, [])
    else if HasRole(c, "system") then System(c.content)
    else Human(c.content)
  }

  /** Roles count in any letter case; whatever is not the assistant's or the system's is the user's. */
  lemma RolesExactly(c: ClientMessage)
    ensures ToMessage(c).content == c.content
    ensures c.role in {"assistant", "Assistant", "ASSISTANT"} ==> ToMessage(c) == AI(c.content, [])
    ensures c.role in {"system", "System", "SYSTEM"} ==> ToMessage(c).System?
    ensures ToMessage(c).AI? ==> Lower(c.role) == "assistant"
    ensures ToMessage(c).System? ==> Lower(c.role) == "system"
  {
    assert Lower("assistant") == Lower("Assistant") == Lower("ASSISTANT") == "assistant";
    assert Lower("system") == Lower("System") == Lower("SYSTEM") == "system";
  }

  function ToMessages(turn: seq<ClientMessage>): seq<Message> {
    seq(|turn|, i requires 0 <= i < |turn| => ToMessage(turn[i]))
  }

  /** The index of the last user message, or -1. */
  function LastUser(ms: seq<ClientMessage>): (i: int)
    ensures -1 <= i < |ms|
    ensures i >= 0 ==> HasRole(ms[i], "user")
    ensures forall j :: i < j < |ms| ==> !HasRole(ms[j], "user")
  {
    if ms == [] then -1
    else if HasRole(ms[|ms| - 1], "user") then |ms| - 1
    else LastUser(ms[..|ms| - 1])
  }

  /** The last user message, or the last message when no user spoke. */
  function TurnOf(ms: seq<ClientMessage>): seq<ClientMessage> {
    if ms == [] then []
    else if LastUser(ms) >= 0 then [ms[LastUser(ms)]]
    else [ms[|ms| - 1]]
  }

  /** What the user asks: the text of the last user message, empty when no user spoke. */
  function LastUserContent(ms: seq<ClientMessage>): string {
    if LastUser(ms) >= 0 then ms[LastUser(ms)].content else ""
  }

  method CurrentTurn(ms: seq<ClientMessage>) returns (turn: seq<ClientMessage>)
    ensures turn == TurnOf(ms)
  {
    if ms == [] {
      return [];
    }
    var i := |ms| - 1;
    while i >= 0
      invariant -1 <= i < |ms|
      invariant forall j :: i < j < |ms| ==> !HasRole(ms[j], "user")
    {
      if HasRole(ms[i], "user") {
        return [ms[i]];
      }
      i := i - 1;
    }
    return [ms[|ms| - 1]];
  }

  /** A turn is at most one message; it asks what the conversation asks, and is the user's own
      message exactly when a user spoke. */
  lemma TurnOfMeaning(ms: seq<ClientMessage>)
    ensures |TurnOf(ms)| <= 1 && (TurnOf(ms) == [] <==> ms == [])
    ensures ms != [] ==> exists i :: 0 <= i < |ms| && TurnOf(ms) == [ms[i]]
                                     && (forall j :: i < j < |ms| ==> !HasRole(ms[j], "user"))
                                     && (HasRole(ms[i], "user") || (i == |ms| - 1 && LastUser(ms) < 0))
    ensures LastUserContent(TurnOf(ms)) == LastUserContent(ms)
    ensures forall m :: m in ToMessages(TurnOf(ms)) && !m.Human? ==> LastUser(ms) < 0
  {
    var turn := TurnOf(ms);
    if turn != [] {
      assert LastUser(turn) == 0 <==> HasRole(turn[0], "user");
    }
  }

  // ----- the turn's messages -----

  /** The stripped, non-blank texts of the system messages. */
  function SystemContents(ms: seq<Message>): set<string> {
    if ms == [] then {}
    else
      var last := ms[|ms| - 1];
      SystemContents(ms[..|ms| - 1])
      + if last.System? && Strip(last.content) != "" then {Strip(last.content)} else {}
  }

  method ExistingSystemContents(ms: seq<Message>) returns (contents: set<string>)
    ensures contents == SystemContents(ms)
  {
    contents := {};
    for i := 0 to |ms|
      invariant contents == SystemContents(ms[..i])
    {
      assert ms[..i + 1][..i] == ms[..i];
      if ms[i].System? {
        var content := Strip(ms[i].content);
        if content != "" {
          contents := contents + {content};
        }
      }
    }
    assert ms[..|ms|] == ms;
  }

  function MemoryMessages(input: TurnInput): seq<Message> {
    var preview := Strip(input.memoryPreview);
    if !input.memoryEnabled || preview == "" then [] else [System(preview)]
  }

  predicate SameMarked(marker: string, prior: string, text: string) {
    marker <= prior && marker <= text && prior == text
  }

  /** Whether a memory text was injected before: blank, already present, or equal to a present
      text with the same marker. */
  predicate MemorySeen(existing: set<string>, content: string) {
    var text := Strip(content);
    || text == ""
    || text in existing
    || exists prior :: prior in existing &&
         (|| SameMarked(EPISODIC_PREFIX, prior, text)
          || SameMarked(MEMORY_CONTEXT_PREFIX, prior, text)
          || SameMarked(LONG_TERM_PREFIX, prior, text))
  }

  function RouteMessages(input: TurnInput): seq<Message> {
    if input.route.Some? then [System(RouteSystemText(input.route.value))] else []
  }

  function SkillMessages(input: TurnInput): seq<Message> {
    if input.skillLines != [] then [System("[Skills]\n" + Join("\n", input.skillLines))] else []
  }

  function DocMessages(input: TurnInput): seq<Message> {
    if input.ragText.Some? then [System(RAG_PREFIX + "\n" + input.ragText.value)] else []
  }

  function ExtraMessages(input: TurnInput): seq<Message> {
    RouteMessages(input) + SkillMessages(input) + DocMessages(input)
  }

  predicate SkipsExtra(text: string, dedupe: bool, existing: set<string>) {
    text == "" || (dedupe && text in existing)
  }

  function FreshExtras(extras: seq<Message>, dedupe: bool, existing: set<string>): seq<Message> {
    if extras == [] then []
    else
      var last := extras[|extras| - 1];
      FreshExtras(extras[..|extras| - 1], dedupe, existing)
      + if SkipsExtra(Strip(last.content), dedupe, existing) then [] else [last]
  }

  function PromptMessages(input: TurnInput, history: seq<Message>, existing: set<string>): seq<Message> {
    var prompt := Strip(input.systemPrompt);
    if (input.dedupeSystemPrompt && exists m :: m in history && m.Human?) || prompt == "" || prompt in existing
    then [] else [System(prompt)]
  }

  function FreshMemory(input: TurnInput, existing: set<string>): seq<Message> {
    if input.dedupeMemoryMessages && MemorySeen(existing, Strip(input.memoryPreview)) then []
    else MemoryMessages(input)
  }

  function Existing(input: TurnInput, history: seq<Message>): set<string> {
    if input.dedupeMemoryMessages then SystemContents(history) else {}
  }

  function GraphTurn(input: TurnInput, history: seq<Message>): seq<Message> {
    var existing := Existing(input, history);
    PromptMessages(input, history, existing)
    + FreshMemory(input, existing)
    + FreshExtras(ExtraMessages(input), input.dedupeMemoryMessages, existing)
    + input.turnMessages
  }

  method KeepFreshExtras(extras: seq<Message>, dedupe: bool, existing: set<string>)
    returns (out: seq<Message>)
    ensures out == FreshExtras(extras, dedupe, existing)
  {
    out := [];
    for i := 0 to |extras|
      invariant out == FreshExtras(extras[..i], dedupe, existing)
    {
      assert extras[..i + 1][..i] == extras[..i];
      var text := Strip(extras[i].content);
      if !SkipsExtra(text, dedupe, existing) {
        out := out + [extras[i]];
      }
    }
    assert extras[..|extras|] == extras;
  }

  method BuildGraphTurnMessages(input: TurnInput, history: seq<Message>) returns (out: seq<Message>)
    ensures out == GraphTurn(input, history)
  {
    var hasPrior := exists m :: m in history && m.Human?;
    var existing: set<string> := {};
    if input.dedupeMemoryMessages {
      existing := ExistingSystemContents(history);
    }
    assert existing == Existing(input, history);
    out := [];
    if !(input.dedupeSystemPrompt && hasPrior) {
      var prompt := Strip(input.systemPrompt);
      if prompt != "" && prompt !in existing {
        out := out + [System(prompt)];
      }
    }
    assert out == PromptMessages(input, history, existing);
    if !(input.dedupeMemoryMessages && MemorySeen(existing, Strip(input.memoryPreview))) {
      out := out + MemoryMessages(input);
    }
    assert out == PromptMessages(input, history, existing) + FreshMemory(input, existing);
    var extras := KeepFreshExtras(ExtraMessages(input), input.dedupeMemoryMessages, existing);
    out := out + extras + input.turnMessages;
  }

  // ----- at most one memory and one document message -----

  lemma {:induction false} FreshExtrasCount(extras: seq<Message>, dedupe: bool, existing: set<string>, kind: Kind)
    ensures CountKind(FreshExtras(extras, dedupe, existing), kind) <= CountKind(extras, kind)
  {
    if extras != [] {
      var front, last := extras[..|extras| - 1], extras[|extras| - 1];
      FreshExtrasCount(front, dedupe, existing, kind);
      FreshExtrasStep(front, last, dedupe, existing);
      assert extras == front + [last];
      PartsConcat(front, [last], kind);
      PartsConcat(FreshExtras(front, dedupe, existing), [last], kind);
    }
  }

  lemma FreshExtrasStep(front: seq<Message>, last: Message, dedupe: bool, existing: set<string>)
    ensures var kept := FreshExtras(front, dedupe, existing);
            FreshExtras(front + [last], dedupe, existing) == kept || FreshExtras(front + [last], dedupe, existing) == kept + [last]
  {
    assert (front + [last])[..|front|] == front;
    assert FreshExtras(front, dedupe, existing) + [] == FreshExtras(front, dedupe, existing);
  }

  lemma RouteTextIsRouterKind(route: Route)
    ensures KindOf(System(RouteSystemText(route))) == Router
  {
    var text := RouteSystemText(route);
    HeadlineStartsRouteText(route);
    HeadlineHasRouterPrefix();
    PrefixTrans(ROUTER_PREFIX, ROUTE_HEADLINE, text);
    RouterTextKind(text);
  }

  lemma HeadlineHasRouterPrefix()
    ensures ROUTER_PREFIX <= ROUTE_HEADLINE
  {
  }

  lemma HeadlineStartsRouteText(route: Route)
    ensures ROUTE_HEADLINE <= RouteSystemText(route)
  {
  }

  lemma RouterTextKind(text: string)
    requires ROUTER_PREFIX <= text
    ensures KindOf(System(text)) == Router
  {
    assert text[0] == ROUTER_PREFIX[0] == 'T';
  }

  lemma PrefixTrans(a: string, b: string, c: string)
    requires a <= b && b <= c
    ensures a <= c
  {
  }

  /** The skills text is an ordinary system message, the retrieved documents are recognised. */
  lemma ExtraTextKinds(skills: string, docs: string)
    ensures KindOf(System("[Skills]\n" + skills)) != Memory && KindOf(System("[Skills]\n" + skills)) != Rag
    ensures KindOf(System(RAG_PREFIX + "\n" + docs)) == Rag
  {
    assert ("[Skills]\n" + skills)[1] == 'S';
    assert RAG_PREFIX[1] == 'P' && EPISODIC_PREFIX[1] == 'E' && LONG_TERM_PREFIX[1] == 'L';
    assert RAG_PREFIX <= RAG_PREFIX + "\n" + docs;
  }

  lemma CountOfEach(a: seq<Message>, b: seq<Message>, c: seq<Message>, kind: Kind)
    ensures CountKind(a + b + c, kind) == CountKind(a, kind) + CountKind(b, kind) + CountKind(c, kind)
  {
    PartsConcat(a + b, c, kind);
    PartsConcat(a, b, kind);
  }

  lemma ExtraMessagesCount(input: TurnInput)
    ensures CountKind(ExtraMessages(input), Memory) == 0
    ensures CountKind(ExtraMessages(input), Rag) == if input.ragText.Some? then 1 else 0
  {
    var a, b, c := RouteMessages(input), SkillMessages(input), DocMessages(input);
    RouteAndSkillsCount(input);
    DocsCount(input);
    CountOfEach(a, b, c, Memory);
    CountOfEach(a, b, c, Rag);
  }

  lemma RouteAndSkillsCount(input: TurnInput)
    ensures NothingToTrim(RouteMessages(input)) && NothingToTrim(SkillMessages(input))
  {
    if input.route.Some? {
      RouteTextIsRouterKind(input.route.value);
    }
    ExtraTextKinds(Join("\n", input.skillLines), "");
  }

  lemma DocsCount(input: TurnInput)
    ensures CountKind(DocMessages(input), Memory) == 0
    ensures CountKind(DocMessages(input), Rag) == if input.ragText.Some? then 1 else 0
  {
    if input.ragText.Some? {
      ExtraTextKinds("", input.ragText.value);
    }
  }

  lemma FreshExtrasMarks(input: TurnInput, existing: set<string>)
    ensures var extras := FreshExtras(ExtraMessages(input), input.dedupeMemoryMessages, existing);
            CountKind(extras, Memory) == 0 && CountKind(extras, Rag) <= if input.ragText.Some? then 1 else 0
  {
    ExtraMessagesCount(input);
    FreshExtrasCount(ExtraMessages(input), input.dedupeMemoryMessages, existing, Memory);
    FreshExtrasCount(ExtraMessages(input), input.dedupeMemoryMessages, existing, Rag);
  }

  /** Injected memory is rendered with its marker in front, or is blank. */
  predicate RenderedMemory(preview: string) {
    Strip(preview) == "" || MEMORY_CONTEXT_PREFIX <= Strip(preview)
  }

  /** The scenario prompt carries no marker of its own, memory is rendered, and the turn is at most
      one message, which comes without documents when it is a system message. */
  predicate OrdinaryInputs(input: TurnInput) {
    && !Trimmable(System(Strip(input.systemPrompt)))
    && RenderedMemory(input.memoryPreview)
    && |input.turnMessages| <= 1
    && forall m :: m in input.turnMessages && m.System? ==> input.ragText.None?
  }

  lemma CountFour(a: seq<Message>, b: seq<Message>, c: seq<Message>, d: seq<Message>, kind: Kind)
    ensures CountKind(a + b + c + d, kind)
            == CountKind(a, kind) + CountKind(b, kind) + CountKind(c, kind) + CountKind(d, kind)
  {
    PartsConcat(a + b + c, d, kind);
    PartsConcat(a + b, c, kind);
    PartsConcat(a, b, kind);
  }

  lemma PromptAndMemoryCount(input: TurnInput, history: seq<Message>, existing: set<string>)
    requires !Trimmable(System(Strip(input.systemPrompt)))
    ensures NothingToTrim(PromptMessages(input, history, existing))
    ensures RenderedMemory(input.memoryPreview) ==> NothingToTrim(FreshMemory(input, existing))
  {
    var memory := FreshMemory(input, existing);
    if RenderedMemory(input.memoryPreview) && memory != [] {
      MemoryContextIsPlain(memory[0]);
    }
  }

  /** Prompt, memory and skills bring nothing to trim: what there is to trim are the documents and
      the turn itself. */
  lemma TurnCounts(input: TurnInput, history: seq<Message>)
    requires !Trimmable(System(Strip(input.systemPrompt))) && RenderedMemory(input.memoryPreview)
    ensures CountKind(GraphTurn(input, history), Memory) == CountKind(input.turnMessages, Memory)
    ensures CountKind(input.turnMessages, Rag) <= CountKind(GraphTurn(input, history), Rag)
    ensures CountKind(GraphTurn(input, history), Rag) <= CountKind(input.turnMessages, Rag) + (if input.ragText.Some? then 1 else 0)
  {
    var existing := Existing(input, history);
    var prompt := PromptMessages(input, history, existing);
    var memory := FreshMemory(input, existing);
    var extras := FreshExtras(ExtraMessages(input), input.dedupeMemoryMessages, existing);
    PromptAndMemoryCount(input, history, existing);
    FreshExtrasMarks(input, existing);
    CountFour(prompt, memory, extras, input.turnMessages, Memory);
    CountFour(prompt, memory, extras, input.turnMessages, Rag);
  }

  /** The turn list holds at most one memory and one document message. */
  lemma TurnHasOneOfEach(input: TurnInput, history: seq<Message>)
    requires OrdinaryInputs(input)
    ensures CountKind(GraphTurn(input, history), Memory) <= 1
    ensures CountKind(GraphTurn(input, history), Rag) <= 1
  {
    TurnCounts(input, history);
    CountOfOne(input.turnMessages, Memory);
    CountOfOne(input.turnMessages, Rag);
  }

  lemma CountOfOne(ms: seq<Message>, kind: Kind)
    requires |ms| <= 1
    ensures CountKind(ms, kind) <= 1
    ensures CountKind(ms, kind) == 1 ==> ms[0] in ms && KindOf(ms[0]) == kind
  {
  }

  // ----- what packing does to injected memory -----

  /** Injected memory that is rendered with its marker outlives every packing, and no memory stage
      ever fires unless the client's own turn is a memory text. */
  lemma InjectedMemoryIsKept(input: TurnInput, history: seq<Message>, limit: int, enabled: bool)
    requires !Trimmable(System(Strip(input.systemPrompt))) && RenderedMemory(input.memoryPreview)
    ensures var graph := GraphTurn(input, history);
            var packed := PackTurn(graph, limit, enabled);
            && (forall m :: m in FreshMemory(input, Existing(input, history)) ==> m in UntrimmableOnly(packed.messages))
            && (CountKind(input.turnMessages, Memory) == 0 ==> forall s :: s in packed.steps ==> s == "truncated_rag" || s == "dropped_rag")
  {
    var graph, memory := GraphTurn(input, history), FreshMemory(input, Existing(input, history));
    PackTurnParts(graph, limit, enabled);
    if memory != [] {
      MemoryContextIsPlain(memory[0]);
      assert memory[0] in graph;
      UntrimmableMember(graph, memory[0]);
    }
    TurnCounts(input, history);
    if CountKind(graph, Memory) == 0 {
      NoMemoryNoMemorySteps(graph, limit, enabled);
    }
  }

  /** The packer can take a memory text away, trimmed or dropped at some limit, in exactly two cases:
      the text begins with one of the two memory markers the packer knows; or it begins with the
      documents' marker and there are no documents behind it, or it is longer than 400 characters. */
  lemma MemoryLossIff(input: TurnInput, history: seq<Message>, m: Message)
    requires !Trimmable(System(Strip(input.systemPrompt))) && NothingToTrim(input.turnMessages)
    requires FreshMemory(input, Existing(input, history)) == [m]
    ensures var extras := FreshExtras(ExtraMessages(input), input.dedupeMemoryMessages, Existing(input, history));
            (exists limit: int :: limit > 0 && m !in PackTurn(GraphTurn(input, history), limit, true).messages) <==>
              || KindOf(m) == Memory
              || (KindOf(m) == Rag && (CountKind(extras, Rag) == 0 || |m.content| > 400))
  {
    var extras := FreshExtras(ExtraMessages(input), input.dedupeMemoryMessages, Existing(input, history));
    var front := PromptMessages(input, history, Existing(input, history));
    TurnAroundMemory(input, history, m);
    LossAmong(front, m, extras + input.turnMessages);
  }

  lemma TurnAroundMemory(input: TurnInput, history: seq<Message>, m: Message)
    requires !Trimmable(System(Strip(input.systemPrompt))) && NothingToTrim(input.turnMessages)
    requires FreshMemory(input, Existing(input, history)) == [m]
    ensures var front := PromptMessages(input, history, Existing(input, history));
            var extras := FreshExtras(ExtraMessages(input), input.dedupeMemoryMessages, Existing(input, history));
            var rest := extras + input.turnMessages;
            && GraphTurn(input, history) == front + [m] + rest
            && NothingToTrim(front) && m.System?
            && CountKind(rest, Memory) == 0 && CountKind(rest, Rag) == CountKind(extras, Rag) <= 1
  {
    var existing := Existing(input, history);
    var extras := FreshExtras(ExtraMessages(input), input.dedupeMemoryMessages, existing);
    PromptAndMemoryCount(input, history, existing);
    FreshExtrasMarks(input, existing);
    PartsConcat(extras, input.turnMessages, Memory);
    PartsConcat(extras, input.turnMessages, Rag);
    Regroup(PromptMessages(input, history, existing), [m], extras, input.turnMessages);
  }

  lemma Regroup(a: seq<Message>, b: seq<Message>, c: seq<Message>, d: seq<Message>)
    ensures a + b + c + d == a + b + (c + d)
  {
  }

  // ----- no system text is given twice -----

  lemma {:induction false} SystemContentsConcat(a: seq<Message>, b: seq<Message>)
    ensures SystemContents(a + b) == SystemContents(a) + SystemContents(b)
  {
    if b == [] {
      assert a + b == a;
    } else {
      SystemContentsConcat(a, b[..|b| - 1]);
      assert (a + b)[..|a + b| - 1] == a + b[..|b| - 1];
    }
  }

  lemma {:induction false} SystemContentsMember(ms: seq<Message>, m: Message)
    requires m in ms && m.System? && Strip(m.content) != ""
    ensures Strip(m.content) in SystemContents(ms)
  {
    if m != ms[|ms| - 1] {
      SystemContentsMember(ms[..|ms| - 1], m);
    }
  }

  /** Every extra is skipped because it is blank or known, or it is kept. */
  lemma {:induction false} FreshExtrasMembers(extras: seq<Message>, existing: set<string>)
    ensures forall e :: e in extras ==> SkipsExtra(Strip(e.content), true, existing) || e in FreshExtras(extras, true, existing)
    ensures (forall e :: e in extras ==> SkipsExtra(Strip(e.content), true, existing)) ==> FreshExtras(extras, true, existing) == []
    ensures forall e :: e in FreshExtras(extras, true, existing) ==>
              e in extras && Strip(e.content) != "" && Strip(e.content) !in existing
  {
    if extras != [] {
      var front, last := extras[..|extras| - 1], extras[|extras| - 1];
      FreshExtrasMembers(front, existing);
      assert extras == front + [last];
    }
  }

  /** With deduplication on, what a turn puts before the client's messages is a list of system
      texts none of which the history has. */
  lemma TurnAddsNothingSeen(input: TurnInput, history: seq<Message>)
    requires input.dedupeMemoryMessages
    ensures var graph := GraphTurn(input, history);
            var added := |graph| - |input.turnMessages|;
            && added >= 0 && graph[added..] == input.turnMessages
            && forall m :: m in graph[..added] ==> NewText(m, SystemContents(history))
  {
    var existing := SystemContents(history);
    var graph, head := GraphTurn(input, history), TurnHead(input, history, existing);
    HeadIsNew(input, history, existing);
    assert graph == head + input.turnMessages;
    assert graph[..|head|] == head;
  }

  predicate NewText(m: Message, existing: set<string>) {
    m.System? && Strip(m.content) != "" && Strip(m.content) !in existing
  }

  lemma HeadIsNew(input: TurnInput, history: seq<Message>, existing: set<string>)
    requires input.dedupeMemoryMessages
    ensures forall m :: m in TurnHead(input, history, existing) ==> NewText(m, existing)
  {
    FreshExtrasMembers(ExtraMessages(input), existing);
    PromptAndMemoryAreNew(input, history, existing);
    ExtrasAreSystem(input);
    assert forall m :: m in FreshExtras(ExtraMessages(input), true, existing) ==> NewText(m, existing);
  }

  lemma PromptAndMemoryAreNew(input: TurnInput, history: seq<Message>, existing: set<string>)
    requires input.dedupeMemoryMessages
    ensures forall m :: m in PromptMessages(input, history, existing) ==> NewText(m, existing)
    ensures forall m :: m in FreshMemory(input, existing) ==> NewText(m, existing)
  {
    StripTwice(input.systemPrompt);
    StripTwice(input.memoryPreview);
  }

  lemma ExtrasAreSystem(input: TurnInput)
    ensures forall m :: m in ExtraMessages(input) ==> m.System?
  {
  }

  function TurnHead(input: TurnInput, history: seq<Message>, existing: set<string>): seq<Message> {
    PromptMessages(input, history, existing) + FreshMemory(input, existing)
    + FreshExtras(ExtraMessages(input), input.dedupeMemoryMessages, existing)
  }

  /** Building the same turn again, on a history that holds the first one, adds nothing but the
      client's messages. */
  lemma SecondTurnAddsNothing(input: TurnInput, history: seq<Message>)
    requires input.dedupeMemoryMessages
    ensures GraphTurn(input, history + GraphTurn(input, history)) == input.turnMessages
  {
    var before := SystemContents(history);
    var graph := GraphTurn(input, history);
    var head := TurnHead(input, history, before);
    var after := SystemContents(history + graph);
    SystemContentsConcat(history, graph);
    assert graph == head + input.turnMessages;
    SystemContentsConcat(head, input.turnMessages);
    assert before <= after && SystemContents(head) <= after;
    SecondPromptAndMemory(input, history, graph, before, after);
    var extras := ExtraMessages(input);
    FreshExtrasMembers(extras, before);
    FreshExtrasMembers(extras, after);
    ExtrasAreSystem(input);
    forall e | e in extras ensures SkipsExtra(Strip(e.content), true, after) {
      if !SkipsExtra(Strip(e.content), true, before) {
        SystemContentsMember(head, e);
      }
    }
    assert TurnHead(input, history + graph, after) == [];
  }

  lemma SecondPromptAndMemory(input: TurnInput, history: seq<Message>, graph: seq<Message>, before: set<string>, after: set<string>)
    requires input.dedupeMemoryMessages && before <= after
    requires SystemContents(TurnHead(input, history, before)) <= after
    ensures PromptMessages(input, history + graph, after) == []
    ensures FreshMemory(input, after) == []
  {
    var prompt, memory := PromptMessages(input, history, before), FreshMemory(input, before);
    SystemContentsConcat(prompt + memory, FreshExtras(ExtraMessages(input), input.dedupeMemoryMessages, before));
    SystemContentsConcat(prompt, memory);
    OwnTextIsContent(input.systemPrompt);
    OwnTextIsContent(input.memoryPreview);
  }

  lemma OwnTextIsContent(text: string)
    ensures SystemContents([System(Strip(text))]) == if Strip(text) != "" then {Strip(text)} else {}
  {
    StripTwice(text);
    assert [System(Strip(text))][..0] == [];
  }

  // ----- history and turn in one budget -----

  datatype Budgeted = Budgeted(
    checkpoint: PackReport,
    graphMessages: seq<Message>,
    usedChars: int,
    truncationSteps: seq<string>)

  function Remaining(budget: int, checkpointChars: nat): nat {
    if budget - checkpointChars >= 0 then budget - checkpointChars else 0
  }

  function Max(a: int, b: int): int { if a >= b then a else b }

  /** Whether history and packed turn stay within the budget, or within the packed history plus
      the part of the turn that is never trimmed. */
  predicate Bounded(graph: seq<Message>, packed: seq<Message>, checkpointChars: nat, budget: int) {
    checkpointChars + TotalChars(packed) <= Max(budget, checkpointChars + TotalChars(UntrimmableOnly(graph)))
  }

  /** End-to-end budget: with the turn packer on, the total is bounded exactly when the history
      leaves something of the budget or the turn has nothing to trim. When the history already
      fills the budget the turn packer is skipped and marked messages stay in. */
  lemma EndToEndBudget(input: TurnInput, history: seq<Message>, checkpointChars: nat, budget: int)
    requires OrdinaryInputs(input)
    ensures var graph := GraphTurn(input, history);
            var packed := PackTurn(graph, Remaining(budget, checkpointChars), true).messages;
            Bounded(graph, packed, checkpointChars, budget) <==> (checkpointChars < budget || NothingToTrim(graph))
  {
    TurnHasOneOfEach(input, history);
    TurnBudget(GraphTurn(input, history), checkpointChars, budget);
  }

  lemma TurnBudget(graph: seq<Message>, checkpointChars: nat, budget: int)
    requires CountKind(graph, Memory) <= 1 && CountKind(graph, Rag) <= 1
    ensures var packed := PackTurn(graph, Remaining(budget, checkpointChars), true).messages;
            && (Bounded(graph, packed, checkpointChars, budget) <==> (checkpointChars < budget || NothingToTrim(graph)))
            && (checkpointChars + TotalChars(packed) > budget ==> NothingToTrim(packed) || checkpointChars >= budget)
            && TotalChars(packed) <= TotalChars(graph)
  {
    NothingToTrimIsUntrimmable(graph);
    PackTurnParts(graph, Remaining(budget, checkpointChars), true);
    if checkpointChars < budget {
      PackTurnFitsOrIsBare(graph, Remaining(budget, checkpointChars));
    }
  }

  /** Assembles a turn within a budget: history first, then the turn in what is left. The
      reported character count is the true total of the history and turn that result. */
  method AssembleWithinBudget(store: Store, policy: PackPolicy, input: TurnInput, budget: int,
                              packing: bool, persist: bool)
    returns (r: Budgeted, history: seq<Message>)
    requires persist ==> AllIds(store.entries)
    modifies store`entries
    ensures var graph := GraphTurn(input, Bare(old(store.entries)));
            var h := Outcome(policy, old(store.entries), old(store.interrupted), budget, TotalChars(graph), persist);
            var t := PackTurn(graph, Remaining(budget, h.report.checkpointChars), packing);
            && r.checkpoint == h.report && history == h.messages && store.entries == h.entries
            && r.graphMessages == t.messages
            && r.truncationSteps == h.report.steps + t.steps
    ensures r.usedChars == TotalChars(history) + TotalChars(r.graphMessages)
    ensures if persist then Bare(store.entries) == history else store.entries == old(store.entries)
  {
    var graph := BuildGraphTurnMessages(input, Bare(store.entries));
    var newTurn := TotalChars(graph);
    PackClosedForm(policy, store.entries, store.interrupted, budget, newTurn, persist);
    var checkpoint;
    checkpoint, history := PackCheckpointForBudget(store, policy, budget, newTurn, persist);
    var remaining := Remaining(budget, checkpoint.checkpointChars);
    var packed := PackGraphMessages(graph, remaining, packing);
    r := Budgeted(checkpoint, packed.messages, packed.usedChars + checkpoint.checkpointChars,
                  checkpoint.steps + packed.steps);
  }

  /** Over budget in the end means: history packing could do no more (only user messages and
      summaries, or one short message, are left), and the turn kept marked messages only because
      the history alone fills the budget. */
  lemma OverBudgetExplained(policy: PackPolicy, input: TurnInput, entries: seq<Stored>, interrupted: bool,
                            budget: int, persist: bool)
    requires OrdinaryInputs(input) && (persist ==> AllIds(entries))
    requires policy.packEnabled && budget > 0
    ensures var graph := GraphTurn(input, Bare(entries));
            var history := Outcome(policy, entries, interrupted, budget, TotalChars(graph), persist).messages;
            var packed := PackTurn(graph, Remaining(budget, TotalChars(history)), true).messages;
            TotalChars(history) + TotalChars(packed) > budget ==>
              && (AllProtected(history) || (|history| == 1 && |history[0].content| <= TRUNCATE_ABOVE))
              && (NothingToTrim(packed) || TotalChars(history) >= budget)
  {
    var graph := GraphTurn(input, Bare(entries));
    HistoryFitsOrIsTight(policy, entries, interrupted, budget, TotalChars(graph), persist);
    TurnHasOneOfEach(input, Bare(entries));
    TurnBudget(graph, TotalChars(Outcome(policy, entries, interrupted, budget, TotalChars(graph), persist).messages), budget);
  }

  lemma HistoryFitsOrIsTight(policy: PackPolicy, entries: seq<Stored>, interrupted: bool,
                             budget: int, newTurn: nat, persist: bool)
    requires persist ==> AllIds(entries)
    requires policy.packEnabled && budget > 0
    ensures var history := Outcome(policy, entries, interrupted, budget, newTurn, persist).messages;
            || Fits(history, newTurn, budget)
            || AllProtected(history)
            || (|history| == 1 && |history[0].content| <= TRUNCATE_ABOVE)
  {
    PackClosedForm(policy, entries, interrupted, budget, newTurn, persist);
    PackExit(policy, entries, interrupted, budget, newTurn, persist);
  }
}
