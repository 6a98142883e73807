/** What turns decide about retrieval, said of the query, the route, the settings and the log, and
    what one turn's retrieval does for the next. */
module RetrievalRuns {
  import opened Text
  import opened Routes
  import opened QuerySimilarity
  import opened DocCache
  import opened PolicyContext
  import opened EventStore
  import opened RetrievalGate

  predicate Live(env: GateEnv, turn: Turn) {
    env.liveIntent(Strip(turn.query)) || turn.route.kind == LiveStatus
  }

  /** The route asks for documents and is neither refused nor dangerous. */
  predicate WantsDocs(env: GateEnv, turn: Turn) {
    env.preretrievalEnabled && "search_docs" in turn.route.recommendedTools && turn.route.kind !in {SafetyReject, DangerousExecute}
  }

  /** The cache answers the query under the request's policy and has allowed chunks. */
  predicate Answers(env: GateEnv, cache: Cache, text: string, request: RetrievalRequest) {
    && cache.query != "" && (env.digest(text) == cache.queryHash || QueriesEquivalent(env.norm, text, cache.query))
    && (cache.allowedChunkIds != [] || (cache.chunkKeys.Some? && cache.chunkKeys.value != []))
    && (if cache.policyContextHash != "" then cache.policyContextHash == env.digest(Canonical(request))
        else cache.tenantId == request.tenantId && cache.userId == request.userId
             && cache.maxClassification == request.maxClassification.Name()
             && multiset(cache.allowedScopes) == multiset(request.allowedScopes))
  }

  lemma ReusableIffAnswers(env: GateEnv, text: string, cache: Cache, request: RetrievalRequest)
    ensures CacheReusable(env, text, Some(cache), request) <==> Answers(env, cache, text, request)
  {
    SimilarityAgrees(env.norm, env.digest, text, cache.query, cache.queryHash);
    assert multiset(SortedScopes(cache.allowedScopes)) == multiset(cache.allowedScopes);
    assert multiset(SortedScopes(request.allowedScopes)) == multiset(request.allowedScopes);
    if multiset(cache.allowedScopes) == multiset(request.allowedScopes) {
      SortedUnique(SortedScopes(cache.allowedScopes), SortedScopes(request.allowedScopes));
    }
  }

  /** Exactly when a turn does what. Blank queries get nothing; live questions go to the tools; a
      cache that answers is reused; what memory answers and small talk get nothing; documents are
      retrieved for a documentation question or when the route wants them. */
  lemma DecisionExactly(env: GateEnv, rows: seq<Row>, turn: Turn)
    requires IdsAscend(rows)
    ensures var text := Strip(turn.query);
            var answered := LatestCache(rows).Some? && Answers(env, LatestCache(rows).value, text, turn.request);
            TurnDecision(env, rows, turn) ==
              (if text == "" then Decision(SkipRag, "empty_query", env.digest(Canonical(turn.request)))
               else if Live(env, turn) then Decision(RouteToToolApi, "live_or_freshness_intent", env.digest(Canonical(turn.request)))
               else if answered then Decision(ReuseCache, "similar_query_cache_reusable", env.digest(Canonical(turn.request)))
               else if turn.memoryAnswers then Decision(SkipRag, "memory_high_confidence_answer", env.digest(Canonical(turn.request)))
               else if env.smallTalk(text) then Decision(SkipRag, "conversation_or_formatting_intent", env.digest(Canonical(turn.request)))
               else if env.docIntent(text) then Decision(Retrieve, "documentation_intent", env.digest(Canonical(turn.request)))
               else if WantsDocs(env, turn) then Decision(Retrieve, "route_recommends_search_docs", env.digest(Canonical(turn.request)))
               else Decision(SkipRag, "route_does_not_need_rag", env.digest(Canonical(turn.request))))
  {
    if LatestCache(rows).Some? {
      ReusableIffAnswers(env, Strip(turn.query), LatestCache(rows).value, turn.request);
    }
  }

  /** Which turns search the documents: those that ask something, are not live, have no answer in
      cache or memory, are no small talk, and whose route wants documents. They get all the hits. */
  lemma HitsExactly(env: GateEnv, rows: seq<Row>, turn: Turn)
    requires IdsAscend(rows)
    ensures var text := Strip(turn.query);
            var answered := LatestCache(rows).Some? && Answers(env, LatestCache(rows).value, text, turn.request);
            TurnHits(env, rows, turn) ==
              if text != "" && !Live(env, turn) && !answered && !turn.memoryAnswers && !env.smallTalk(text) && WantsDocs(env, turn)
              then turn.hits else []
  {
    DecisionExactly(env, rows, turn);
  }

  /** A live question neither retrieves nor reuses, and hands no cache to the tools. */
  lemma LiveTurnsAskTheTools(env: GateEnv, rows: seq<Row>, turn: Turn)
    requires IdsAscend(rows) && Live(env, turn)
    ensures TurnHits(env, rows, turn) == [] && !Records(env, rows, turn)
    ensures TurnDecision(env, rows, turn).action != ReuseCache
  {
    DecisionExactly(env, rows, turn);
    HitsExactly(env, rows, turn);
  }

  // ----- two turns -----

  lemma {:induction false} AppendAllKeeps(rows: seq<Row>, runId: string, events: seq<StoredEvent>)
    requires IdsAscend(rows)
    ensures rows <= AppendAll(rows, runId, events)
    ensures |AppendAll(rows, runId, events)| <= |rows| + |events|
  {
    if events != [] {
      AppendAllKeeps(rows, runId, events[..|events| - 1]);
    }
  }

  lemma FirstRow(runId: string, event: StoredEvent)
    ensures AppendAll([], runId, [event]) == [Row(1, runId, 1, event)]
  {
    assert [event][..0] == [];
  }

  lemma OneTurn(env: GateEnv, turn: Turn)
    ensures History(env, [turn]) == AfterTurn(env, [], turn)
  {
    assert [turn][..0] == [];
  }

  /** The log after a first turn that retrieved: its record, then whatever followed. */
  lemma FirstTurnIsRecorded(env: GateEnv, turn: Turn)
    requires Strip(turn.query) != "" && !Live(env, turn) && !turn.memoryAnswers && !env.smallTalk(Strip(turn.query)) && WantsDocs(env, turn)
    requires turn.hits != [] && turn.runId != "" && env.recordEvents && turn.allowedIds != []
    requires OrdinaryLater(turn) && |turn.later| <= 99
    ensures TurnHits(env, [], turn) == turn.hits
    ensures LatestCache(History(env, [turn])) ==
              Some(Cache(turn.query, env.digest(turn.query), None, turn.allowedIds, turn.request.tenantId, turn.request.userId,
                         turn.request.maxClassification.Name(), turn.request.allowedScopes, env.digest(Canonical(turn.request))))
  {
    HitsExactly(env, [], turn);
    var first := [Row(1, turn.runId, 1, Retrieval(PayloadOf(env, turn)))];
    FirstRow(turn.runId, Retrieval(PayloadOf(env, turn)));
    OneTurn(env, turn);
    var rows := History(env, [turn]);
    AppendAllKeeps(first, turn.runId, turn.later);
    assert rows[0] == first[0] && Usable(first[0]);
    ShortLogGivesCache(rows, first[0]);
    var row := LatestCacheHasRow(rows);
    assert row in first || row.event in turn.later;
  }

  /** Retrieval serves the next turn: when a thread's first turn retrieved and recorded allowed
      chunks, a second one with the same query under the same policy reuses the cache of the first,
      unless it is a live question; and it searches nothing. */
  lemma SecondTurnReuses(env: GateEnv, first: Turn, second: Turn)
    requires Strip(first.query) != "" && !Live(env, first) && !first.memoryAnswers && !env.smallTalk(Strip(first.query)) && WantsDocs(env, first)
    requires first.hits != [] && first.runId != "" && env.recordEvents && first.allowedIds != []
    requires OrdinaryLater(first) && |first.later| <= 99
    requires Strip(second.query) == Strip(first.query) && SamePolicy(first.request, second.request) && !Live(env, second)
    requires first.query == Strip(first.query) || env.norm(first.query) == env.norm(Strip(first.query)) != ""
    ensures TurnDecision(env, History(env, [first]), second).action == ReuseCache
    ensures TurnHits(env, History(env, [first]), second) == []
  {
    var rows := History(env, [first]);
    FirstTurnIsRecorded(env, first);
    SamePolicySameText(first.request, second.request);
    assert first.query != "" by { assert Strip("") == ""; }
    DecisionExactly(env, rows, second);
    HitsExactly(env, rows, second);
  }
}
