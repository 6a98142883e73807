/** Deciding whether a turn retrieves, reuses the cache or goes without, over a thread's history. */
module RetrievalGate {
  import opened Text
  import opened Routes
  import opened QuerySimilarity
  import opened DocCache
  import opened PolicyContext
  import opened EventStore

  /** The normaliser, the digest, the intent detectors and two settings. */
  datatype GateEnv = GateEnv(
    norm: string -> string,
    digest: string -> string,
    liveIntent: string -> bool,
    smallTalk: string -> bool,
    docIntent: string -> bool,
    preretrievalEnabled: bool,
    recordEvents: bool)

  datatype Action = Retrieve | ReuseCache | SkipRag | RouteToToolApi

  datatype Decision = Decision(action: Action, reason: string, policyContextHash: string)

  function PolicyContextHash(env: GateEnv, request: RetrievalRequest): string { env.digest(Canonical(request)) }

  /** A cache with a policy hash must match it; one without is compared field by field. */
  predicate CachePolicyCompatible(env: GateEnv, cache: Cache, request: RetrievalRequest) {
    if cache.policyContextHash != "" then cache.policyContextHash == PolicyContextHash(env, request)
    else
      && cache.tenantId == request.tenantId && cache.userId == request.userId
      && cache.maxClassification == request.maxClassification.Name()
      && SortedScopes(cache.allowedScopes) == SortedScopes(request.allowedScopes)
  }

  predicate CacheHasAllowedChunks(cache: Cache) {
    cache.allowedChunkIds != [] || (cache.chunkKeys.Some? && cache.chunkKeys.value != [])
  }

  predicate ShouldPreretrieve(env: GateEnv, route: Route) {
    && env.preretrievalEnabled
    && "search_docs" in route.recommendedTools
    && route.kind != SafetyReject && route.kind != DangerousExecute
  }

  predicate CacheReusable(env: GateEnv, text: string, cache: Option<Cache>, request: RetrievalRequest) {
    && cache.Some?
    && AtLeastThreeQuarters(CacheSimilarity(env.norm, env.digest, text, cache.value.query, cache.value.queryHash))
    && CacheHasAllowedChunks(cache.value)
    && CachePolicyCompatible(env, cache.value, request)
  }

  function DecideRetrieval(env: GateEnv, query: string, route: Route, memoryAnswers: bool,
                           request: RetrievalRequest, cache: Option<Cache>): Decision
  {
    var hash := PolicyContextHash(env, request);
    var text := Strip(query);
    if text == "" then Decision(SkipRag, "empty_query", hash)
    else if env.liveIntent(text) || route.kind == LiveStatus then Decision(RouteToToolApi, "live_or_freshness_intent", hash)
    else if CacheReusable(env, text, cache, request) then Decision(ReuseCache, "similar_query_cache_reusable", hash)
    else if memoryAnswers then Decision(SkipRag, "memory_high_confidence_answer", hash)
    else if env.smallTalk(text) then Decision(SkipRag, "conversation_or_formatting_intent", hash)
    else if env.docIntent(text) then Decision(Retrieve, "documentation_intent", hash)
    else if ShouldPreretrieve(env, route) then Decision(Retrieve, "route_recommends_search_docs", hash)
    else Decision(SkipRag, "route_does_not_need_rag", hash)
  }

  /** One turn of a thread: `hits` is what the document store would return for it, `allowedIds`
      the chunk ids its policy check allowed, `later` the events that follow in the turn. */
  datatype Turn = Turn(
    runId: string,
    query: string,
    route: Route,
    memoryAnswers: bool,
    request: RetrievalRequest,
    hits: seq<DocChunk>,
    allowedIds: seq<string>,
    later: seq<StoredEvent>)

  function TurnDecision(env: GateEnv, rows: seq<Row>, turn: Turn): Decision
    requires IdsAscend(rows)
  {
    DecideRetrieval(env, turn.query, turn.route, turn.memoryAnswers, turn.request, LatestCache(rows))
  }

  /** Whether the turn searches for documents. */
  predicate Retrieves(env: GateEnv, rows: seq<Row>, turn: Turn)
    requires IdsAscend(rows)
  {
    TurnDecision(env, rows, turn).action.Retrieve? && Strip(turn.query) != "" && ShouldPreretrieve(env, turn.route)
  }

  function TurnHits(env: GateEnv, rows: seq<Row>, turn: Turn): seq<DocChunk>
    requires IdsAscend(rows)
  {
    if Retrieves(env, rows, turn) then turn.hits else []
  }

  function PayloadOf(env: GateEnv, turn: Turn): Payload {
    Payload(turn.query, env.digest(turn.query), PRERETRIEVAL, turn.allowedIds,
            turn.request.tenantId, turn.request.userId, turn.request.maxClassification.Name(),
            turn.request.allowedScopes, PolicyContextHash(env, turn.request))
  }

  /** Whether a turn leaves a pre-retrieval event. */
  predicate Records(env: GateEnv, rows: seq<Row>, turn: Turn)
    requires IdsAscend(rows)
  {
    TurnHits(env, rows, turn) != [] && turn.runId != "" && env.recordEvents
  }

  function AppendAll(rows: seq<Row>, runId: string, events: seq<StoredEvent>): (r: seq<Row>)
    requires IdsAscend(rows)
    ensures IdsAscend(r)
    ensures forall y :: y in r && y !in rows ==> y.event in events
  {
    if events == [] then rows
    else
      var front := events[..|events| - 1];
      var before := AppendAll(rows, runId, front);
      AppendKeepsIds(before, runId, events[|events| - 1]);
      assert events == front + [events[|events| - 1]];
      Appended(before, runId, events[|events| - 1])
  }

  function AfterTurn(env: GateEnv, rows: seq<Row>, turn: Turn): (r: seq<Row>)
    requires IdsAscend(rows)
    ensures IdsAscend(r)
  {
    if turn.runId == "" then rows
    else
      var own := if Records(env, rows, turn) then [Retrieval(PayloadOf(env, turn))] else [];
      AppendAll(AppendAll(rows, turn.runId, own), turn.runId, turn.later)
  }

  /** The event log of a thread after a sequence of turns. */
  function History(env: GateEnv, turns: seq<Turn>): (rows: seq<Row>)
    ensures IdsAscend(rows)
  {
    if turns == [] then [] else AfterTurn(env, History(env, turns[..|turns| - 1]), turns[|turns| - 1])
  }

  /** Later events of a turn (tools, policy, model) are never pre-retrievals. */
  predicate OrdinaryLater(turn: Turn) {
    forall e :: e in turn.later && e.Retrieval? ==> e.payload.mode != PRERETRIEVAL
  }

  predicate RecordedBy(env: GateEnv, turns: seq<Turn>, k: nat, p: Payload) {
    k < |turns| && Records(env, History(env, turns[..k]), turns[k]) && p == PayloadOf(env, turns[k])
  }

  lemma RecordedByLonger(env: GateEnv, turns: seq<Turn>, k: nat, p: Payload)
    requires turns != [] && RecordedBy(env, turns[..|turns| - 1], k, p)
    ensures RecordedBy(env, turns, k, p)
  {
    assert turns[..|turns| - 1][..k] == turns[..k];
  }

  /** Every pre-retrieval event of a thread was recorded by one of its turns. */
  lemma {:induction false} HistoryIsRecorded(env: GateEnv, turns: seq<Turn>, row: Row) returns (k: nat)
    requires forall t :: t in turns ==> OrdinaryLater(t)
    requires row in History(env, turns) && Usable(row)
    ensures RecordedBy(env, turns, k, row.event.payload)
  {
    var front, last := turns[..|turns| - 1], turns[|turns| - 1];
    assert last in turns && forall t :: t in front ==> t in turns;
    var rows := History(env, front);
    if row in rows {
      k := HistoryIsRecorded(env, front, row);
      RecordedByLonger(env, turns, k, row.event.payload);
    } else {
      var own := if Records(env, rows, last) then [Retrieval(PayloadOf(env, last))] else [];
      var middle := AppendAll(rows, last.runId, own);
      assert row in middle || row.event in last.later;
      k := |turns| - 1;
    }
  }

  /** Two different texts with the same digest. */
  predicate Collide(digest: string -> string, x: string, y: string) {
    x != y && digest(x) == digest(y)
  }

  predicate SameExceptPii(a: RetrievalRequest, b: RetrievalRequest) {
    && a.tenantId == b.tenantId && a.userId == b.userId && a.maxClassification == b.maxClassification
    && multiset(a.allowedScopes) == multiset(b.allowedScopes)
  }

  /** What reusing a cache of an earlier request says about the new one: the canonical texts are
      equal, unless the digest collides; a digest that yields nothing leaves the field by field
      comparison, which does not look at the PII flag. */
  predicate PolicyAgrees(env: GateEnv, earlier: RetrievalRequest, request: RetrievalRequest) {
    || Collide(env.digest, Canonical(earlier), Canonical(request))
    || (if PolicyContextHash(env, earlier) == "" then SameExceptPii(earlier, request)
        else Canonical(earlier) == Canonical(request))
  }

  /** Cache reuse respects the policy over any thread history: a turn that reuses the cache has an
      earlier turn that recorded a pre-retrieval with allowed chunks under the same canonical
      policy, for the same or an equivalent query, unless the digest collides. On separator-free
      requests that is the same tenant, user, classification, PII flag and scopes. */
  lemma ReuseRespectsPolicy(env: GateEnv, turns: seq<Turn>, turn: Turn) returns (k: nat)
    requires forall t :: t in turns ==> OrdinaryLater(t)
    requires TurnDecision(env, History(env, turns), turn).action == ReuseCache
    ensures k < |turns| && Records(env, History(env, turns[..k]), turns[k]) && turns[k].allowedIds != []
    ensures PolicyAgrees(env, turns[k].request, turn.request)
    ensures SeparatorFree(turns[k].request) && SeparatorFree(turn.request) && PolicyContextHash(env, turns[k].request) != "" ==>
              || SamePolicy(turns[k].request, turn.request)
              || Collide(env.digest, Canonical(turns[k].request), Canonical(turn.request))
    ensures || Strip(turn.query) == turns[k].query
            || QueriesEquivalent(env.norm, Strip(turn.query), turns[k].query)
            || Collide(env.digest, Strip(turn.query), turns[k].query)
  {
    var row := ReuseHasRow(env, History(env, turns), turn);
    k := HistoryIsRecorded(env, turns, row);
    ReusedCacheFits(env, turns[k], turn);
    if SeparatorFree(turns[k].request) && SeparatorFree(turn.request) {
      CanonicalIffSamePolicy(turns[k].request, turn.request);
    }
  }

  /** Only a reusable cache makes a turn reuse it. */
  lemma ReuseNeedsReusable(env: GateEnv, query: string, route: Route, memoryAnswers: bool,
                           request: RetrievalRequest, cache: Option<Cache>)
    requires DecideRetrieval(env, query, route, memoryAnswers, request, cache).action == ReuseCache
    ensures CacheReusable(env, Strip(query), cache, request)
  {
  }

  lemma ReuseHasRow(env: GateEnv, rows: seq<Row>, turn: Turn) returns (row: Row)
    requires IdsAscend(rows)
    requires TurnDecision(env, rows, turn).action == ReuseCache
    ensures row in rows && Usable(row)
    ensures CacheReusable(env, Strip(turn.query), Some(RebuiltCache(row.event.payload)), turn.request)
  {
    var cache := LatestCache(rows);
    ReuseNeedsReusable(env, turn.query, turn.route, turn.memoryAnswers, turn.request, cache);
    row := LatestCacheHasRow(rows);
  }

  /** A reusable cache that was rebuilt from a turn's record agrees with its policy and its query. */
  lemma ReusedCacheFits(env: GateEnv, earlier: Turn, turn: Turn)
    requires CacheReusable(env, Strip(turn.query), Some(RebuiltCache(PayloadOf(env, earlier))), turn.request)
    ensures PolicyAgrees(env, earlier.request, turn.request)
    ensures || Strip(turn.query) == earlier.query
            || QueriesEquivalent(env.norm, Strip(turn.query), earlier.query)
            || Collide(env.digest, Strip(turn.query), earlier.query)
  {
    SimilarityAgrees(env.norm, env.digest, Strip(turn.query), earlier.query, env.digest(earlier.query));
    if PolicyContextHash(env, earlier.request) == "" {
      NamesAreClean(earlier.request.maxClassification, turn.request.maxClassification);
    }
  }

  /** The converse: when the newest cache fits the policy and the query is the recorded one, a
      turn without live intent reuses it, whatever the order of its scopes. */
  lemma SameTurnReuses(env: GateEnv, rows: seq<Row>, turn: Turn, earlier: Turn)
    requires IdsAscend(rows)
    requires LatestCache(rows) == Some(RebuiltCache(PayloadOf(env, earlier))) && earlier.allowedIds != []
    requires SeparatorFree(earlier.request) && SeparatorFree(turn.request) && SamePolicy(earlier.request, turn.request)
    requires env.digest(Canonical(turn.request)) != ""
    requires Strip(turn.query) == earlier.query && earlier.query != ""
    requires !env.liveIntent(earlier.query) && turn.route.kind != LiveStatus
    ensures TurnDecision(env, rows, turn).action == ReuseCache
    ensures TurnHits(env, rows, turn) == []
  {
    CanonicalIffSamePolicy(earlier.request, turn.request);
  }

  // ----- the cache a turn hands to its tools -----

  /** The cache of the turn: fresh when it retrieved, the old one when it reuses, else none. */
  method TurnCache(env: GateEnv, rows: seq<Row>, turn: Turn) returns (cache: Option<Cache>)
    requires IdsAscend(rows)
    ensures var hits := TurnHits(env, rows, turn);
            && (hits != [] ==> cache.Some? && cache.value.query == turn.query && cache.value.chunkKeys.Some?
                               && ParsedKeys(cache.value.chunkKeys.value) == ChunkKeys(hits)
                               && cache.value.policyContextHash == PolicyContextHash(env, turn.request))
            && (hits == [] && TurnDecision(env, rows, turn).action == ReuseCache ==> cache == LatestCache(rows))
            && (hits == [] && TurnDecision(env, rows, turn).action != ReuseCache ==> cache.None?)
  {
    var hits := TurnHits(env, rows, turn);
    if hits != [] {
      var keys := WriteChunkKeys(hits);
      var ids := seq(|hits|, i requires 0 <= i < |hits| => hits[i].chunkId);
      cache := Some(Cache(turn.query, env.digest(turn.query), Some(keys), ids,
                          turn.request.tenantId, turn.request.userId, turn.request.maxClassification.Name(),
                          SortedScopes(turn.request.allowedScopes), PolicyContextHash(env, turn.request)));
    } else if TurnDecision(env, rows, turn).action == ReuseCache {
      cache := LatestCache(rows);
    } else {
      cache := None;
    }
  }

  /** search_docs within a turn, with the dedupe setting on: after a retrieval in the same turn it loses exactly the hits whose
      key was pre-retrieved, if the query is equivalent; in a turn that reuses the old cache, and
      in one without a cache, it loses nothing. */
  method SearchDocs(env: GateEnv, rows: seq<Row>, turn: Turn, query: string, found: seq<DocChunk>, dedupe: bool)
    returns (kept: seq<DocChunk>, dropped: int)
    requires IdsAscend(rows)
    ensures |found| == |kept| + dropped
    ensures var hits := TurnHits(env, rows, turn);
            if dedupe && hits != [] && QueriesEquivalent(env.norm, query, turn.query)
            then kept == NewChunks(ChunkKeys(hits), found) else kept == found
  {
    var cache := TurnCache(env, rows, turn);
    var meta;
    kept, meta := ApplyPreretrievalDedupe(env.norm, query, found, cache, dedupe);
    dropped := meta.dedupedCount;
    if TurnHits(env, rows, turn) == [] {
      NothingRemovedWithoutKeys(env.norm, query, found, cache, dedupe);
    }
  }
}
