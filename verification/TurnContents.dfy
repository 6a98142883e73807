/** What a turn's message list consists of, said of the inputs and the history alone. */
module TurnContents {
  import opened Text
  import opened Messages
  import opened Routes
  import opened TurnPacking
  import opened TurnAssembly

  /** The history has a system message with this text, and such repetitions are left out. */
  predicate Repeats(input: TurnInput, history: seq<Message>, text: string) {
    input.dedupeMemoryMessages && exists m :: m in history && m.System? && Strip(m.content) == text
  }

  predicate UserSpoke(history: seq<Message>) {
    exists m :: m in history && m.Human?
  }

  function Shown(b: bool, text: string): seq<Message> {
    if b then [System(text)] else []
  }

  lemma {:induction false} SystemContentsExactly(ms: seq<Message>, x: string)
    ensures x in SystemContents(ms) <==> x != "" && exists m :: m in ms && m.System? && Strip(m.content) == x
  {
    if ms != [] {
      var front, last := ms[..|ms| - 1], ms[|ms| - 1];
      SystemContentsExactly(front, x);
      assert ms == front + [last];
      assert forall m :: m in ms <==> m in front || m == last;
    }
  }

  lemma ExistingExactly(input: TurnInput, history: seq<Message>, x: string)
    requires x != ""
    ensures x in Existing(input, history) <==> Repeats(input, history, x)
  {
    SystemContentsExactly(history, x);
  }

  lemma {:induction false} FreshExtrasConcat(a: seq<Message>, b: seq<Message>, dedupe: bool, existing: set<string>)
    ensures FreshExtras(a + b, dedupe, existing) == FreshExtras(a, dedupe, existing) + FreshExtras(b, dedupe, existing)
  {
    if b == [] {
      assert a + b == a;
    } else {
      FreshExtrasConcat(a, b[..|b| - 1], dedupe, existing);
      assert (a + b)[..|a + b| - 1] == a + b[..|b| - 1];
    }
  }

  /** An extra message is there exactly when it is not blank and does not repeat the history. */
  lemma FreshExtraExactly(input: TurnInput, history: seq<Message>, text: string)
    requires Strip(text) != ""
    ensures FreshExtras([System(text)], input.dedupeMemoryMessages, Existing(input, history))
            == Shown(!Repeats(input, history, Strip(text)), text)
  {
    ExistingExactly(input, history, Strip(text));
    assert [System(text)][..0] == [];
  }

  lemma {:induction false} StripFindsText(s: string, i: nat)
    requires i < |s| && !IsSpace(s[i])
    ensures Strip(s) != ""
  {
    if IsSpace(s[0]) {
      StripFindsText(s[1..], i - 1);
    } else if IsSpace(s[|s| - 1]) {
      StripFindsText(s[..|s| - 1], i);
    }
  }

  function SkillsText(input: TurnInput): string { "[Skills]" + "\n" + Join("\n", input.skillLines) }

  function DocsText(text: string): string { "[PreRetrievedDocs]" + "\n" + text }

  lemma ExtrasExactly(input: TurnInput, history: seq<Message>)
    ensures FreshExtras(ExtraMessages(input), input.dedupeMemoryMessages, Existing(input, history)) ==
              (match input.route
               case None => []
               case Some(route) => Shown(!Repeats(input, history, Strip(RouteSystemText(route))), RouteSystemText(route)))
              + Shown(input.skillLines != [] && !Repeats(input, history, Strip(SkillsText(input))), SkillsText(input))
              + (match input.ragText
                 case None => []
                 case Some(text) => Shown(!Repeats(input, history, Strip(DocsText(text))), DocsText(text)))
  {
    var existing := Existing(input, history);
    FreshExtrasConcat(RouteMessages(input) + SkillMessages(input), DocMessages(input), input.dedupeMemoryMessages, existing);
    FreshExtrasConcat(RouteMessages(input), SkillMessages(input), input.dedupeMemoryMessages, existing);
    RouteExactly(input, history);
    SkillsExactly(input, history);
    DocsExactly(input, history);
  }

  lemma RouteExactly(input: TurnInput, history: seq<Message>)
    ensures FreshExtras(RouteMessages(input), input.dedupeMemoryMessages, Existing(input, history)) ==
              match input.route
              case None => []
              case Some(route) => Shown(!Repeats(input, history, Strip(RouteSystemText(route))), RouteSystemText(route))
  {
    if input.route.Some? {
      var text := RouteSystemText(input.route.value);
      RouteTextIsRouterKind(input.route.value);
      assert ROUTER_PREFIX[0] == 'T' && text[0] == ROUTER_PREFIX[0];
      StripFindsText(text, 0);
      FreshExtraExactly(input, history, text);
    }
  }

  lemma SkillsExactly(input: TurnInput, history: seq<Message>)
    ensures FreshExtras(SkillMessages(input), input.dedupeMemoryMessages, Existing(input, history))
            == Shown(input.skillLines != [] && !Repeats(input, history, Strip(SkillsText(input))), SkillsText(input))
  {
    if input.skillLines != [] {
      assert SkillsText(input)[0] == '[';
      StripFindsText(SkillsText(input), 0);
      assert "[Skills]\n" == "[Skills]" + "\n";
      assert "[Skills]\n" + Join("\n", input.skillLines) == SkillsText(input);
      FreshExtraExactly(input, history, SkillsText(input));
    }
  }

  lemma DocsExactly(input: TurnInput, history: seq<Message>)
    ensures FreshExtras(DocMessages(input), input.dedupeMemoryMessages, Existing(input, history)) ==
              match input.ragText
              case None => []
              case Some(text) => Shown(!Repeats(input, history, Strip(DocsText(text))), DocsText(text))
  {
    if input.ragText.Some? {
      var text := DocsText(input.ragText.value);
      assert text[0] == '[';
      StripFindsText(text, 0);
      FreshExtraExactly(input, history, text);
    }
  }

  /** Everything a turn says, in order, each part if and only if it is there and not left out: the
      prompt unless it is blank, repeats the history, or has been given to a thread in which the
      user has spoken; the memory text, the route, the skills and the documents unless they repeat
      the history; and the client's messages. */
  lemma TurnExactly(input: TurnInput, history: seq<Message>)
    ensures var prompt, memory := Strip(input.systemPrompt), Strip(input.memoryPreview);
            GraphTurn(input, history) ==
              Shown(prompt != "" && !Repeats(input, history, prompt) && !(input.dedupeSystemPrompt && UserSpoke(history)), prompt)
              + Shown(input.memoryEnabled && memory != "" && !Repeats(input, history, memory), memory)
              + ((match input.route
                  case None => []
                  case Some(route) => Shown(!Repeats(input, history, Strip(RouteSystemText(route))), RouteSystemText(route)))
                 + Shown(input.skillLines != [] && !Repeats(input, history, Strip(SkillsText(input))), SkillsText(input))
                 + (match input.ragText
                    case None => []
                    case Some(text) => Shown(!Repeats(input, history, Strip(DocsText(text))), DocsText(text))))
              + input.turnMessages
  {
    ExtrasExactly(input, history);
    PromptExactly(input, history);
    MemoryExactly(input, history);
  }

  lemma PromptExactly(input: TurnInput, history: seq<Message>)
    ensures var prompt := Strip(input.systemPrompt);
            PromptMessages(input, history, Existing(input, history))
            == Shown(prompt != "" && !Repeats(input, history, prompt) && !(input.dedupeSystemPrompt && UserSpoke(history)), prompt)
  {
    var prompt := Strip(input.systemPrompt);
    if prompt != "" {
      ExistingExactly(input, history, prompt);
    }
  }

  lemma MemoryExactly(input: TurnInput, history: seq<Message>)
    ensures var memory := Strip(input.memoryPreview);
            FreshMemory(input, Existing(input, history))
            == Shown(input.memoryEnabled && memory != "" && !Repeats(input, history, memory), memory)
  {
    var memory := Strip(input.memoryPreview);
    StripTwice(input.memoryPreview);
    if memory != "" {
      ExistingExactly(input, history, memory);
    }
  }
}
