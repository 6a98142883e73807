/** How the context manager fills the inputs of a turn: the client's current message, the query it
    asks, and the documents retrieved for that query. */
module ManagerTurn {
  import opened Text
  import opened Messages
  import opened TurnPacking
  import opened TurnAssembly
  import EventStore
  import RetrievalGate

  const DOCS_PREAMBLE := "Pre-retrieved documentation snippets for this turn (prefer over guessing; you may still call search_docs for follow-up):\n\n"

  /** The text of the documents message, if there is one. `excerpts` is what the guarded context
      renders of the hits. */
  function RagText(env: RetrievalGate.GateEnv, rows: seq<EventStore.Row>, turn: RetrievalGate.Turn, excerpts: string): Option<string>
    requires EventStore.IdsAscend(rows)
  {
    if RetrievalGate.Retrieves(env, rows, turn) && Strip(excerpts) != "" then Some(DOCS_PREAMBLE + excerpts) else None
  }

  /** The turn's inputs come from the client's messages and from the turn's own retrieval. */
  predicate FromClient(env: RetrievalGate.GateEnv, rows: seq<EventStore.Row>, turn: RetrievalGate.Turn, excerpts: string,
                       client: seq<ClientMessage>, input: TurnInput)
    requires EventStore.IdsAscend(rows)
  {
    && turn.query == LastUserContent(TurnOf(client))
    && input.turnMessages == ToMessages(TurnOf(client))
    && input.ragText == RagText(env, rows, turn, excerpts)
  }

  /** Whatever the client sends, the turn is ordinary: without a user's message there is no query,
      and without a query there are no documents. */
  lemma ClientTurnIsOrdinary(env: RetrievalGate.GateEnv, rows: seq<EventStore.Row>, turn: RetrievalGate.Turn, excerpts: string,
                             client: seq<ClientMessage>, input: TurnInput)
    requires EventStore.IdsAscend(rows) && FromClient(env, rows, turn, excerpts, client, input)
    requires !Trimmable(System(Strip(input.systemPrompt))) && RenderedMemory(input.memoryPreview)
    ensures OrdinaryInputs(input)
  {
    TurnOfMeaning(client);
  }

  /** The budget of every assembled turn: over every client conversation, thread history, policy and
      memory text, history plus packed turn is bounded exactly when the history leaves something of
      the budget or the turn has nothing to trim. */
  lemma ClientTurnBudget(env: RetrievalGate.GateEnv, rows: seq<EventStore.Row>, turn: RetrievalGate.Turn, excerpts: string,
                         client: seq<ClientMessage>, input: TurnInput, history: seq<Message>, checkpointChars: nat, budget: int)
    requires EventStore.IdsAscend(rows) && FromClient(env, rows, turn, excerpts, client, input)
    requires !Trimmable(System(Strip(input.systemPrompt))) && RenderedMemory(input.memoryPreview)
    ensures var graph := GraphTurn(input, history);
            var packed := PackTurn(graph, Remaining(budget, checkpointChars), true).messages;
            Bounded(graph, packed, checkpointChars, budget) <==> (checkpointChars < budget || NothingToTrim(graph))
  {
    ClientTurnIsOrdinary(env, rows, turn, excerpts, client, input);
    EndToEndBudget(input, history, checkpointChars, budget);
  }

  /** A conversation in which a user spoke brings nothing of its own to trim: only the documents
      can be. */
  lemma UserTurnTrimsDocumentsOnly(client: seq<ClientMessage>, input: TurnInput, history: seq<Message>)
    requires LastUser(client) >= 0 && input.turnMessages == ToMessages(TurnOf(client))
    requires !Trimmable(System(Strip(input.systemPrompt))) && RenderedMemory(input.memoryPreview)
    ensures CountKind(GraphTurn(input, history), Memory) == 0
    ensures CountKind(GraphTurn(input, history), Rag) <= if input.ragText.Some? then 1 else 0
  {
    TurnOfMeaning(client);
    TurnCounts(input, history);
    CountsMembers(input.turnMessages, Memory);
    CountsMembers(input.turnMessages, Rag);
  }
}
