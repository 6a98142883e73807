/** The pre-retrieval cache: chunk keys written as text and read back, and the removal of chunks
    that were already shown. */
module DocCache {
  import opened Text
  import opened QuerySimilarity

  datatype DocChunk = DocChunk(source: string, startLine: int, chunkId: string)
  {
    function Key(): (string, int) { (source, startLine) }
  }

  /** What the dedupe and the gate read of a cache; `chunkKeys` is None when the cache was rebuilt
      from the event log. */
  datatype Cache = Cache(
    query: string,
    queryHash: string,
    chunkKeys: Option<seq<string>>,
    allowedChunkIds: seq<string>,
    tenantId: string,
    userId: string,
    maxClassification: string,
    allowedScopes: seq<string>,
    policyContextHash: string)

  function ChunkKeys(hits: seq<DocChunk>): set<(string, int)> {
    set c | c in hits :: c.Key()
  }

  // ----- the key codec -----

  function EncodeKey(key: (string, int)): string { key.0 + ":" + Decimal(key.1) }

  /** The position of the last colon, or -1. */
  function LastColon(s: string): (i: int)
    ensures -1 <= i < |s|
    ensures i >= 0 ==> s[i] == ':'
    ensures forall j :: i < j < |s| ==> s[j] != ':'
  {
    if s == "" then -1
    else if s[|s| - 1] == ':' then |s| - 1
    else LastColon(s[..|s| - 1])
  }

  function ParseKey(s: string): Option<(string, int)> {
    var i := LastColon(s);
    if i < 0 then None
    else
      match ParseInt(s[i + 1..])
      case None => None
      case Some(line) => Some((s[..i], line))
  }

  /** Reading a written key gives the key back, for any source, with or without colons in it, and
      any line number. */
  lemma ParseKeyOfEncodeKey(key: (string, int))
    ensures ParseKey(EncodeKey(key)) == Some(key)
  {
    var s, digits := EncodeKey(key), Decimal(key.1);
    var i := |key.0|;
    assert s[i] == ':';
    forall j | i < j < |s| ensures s[j] != ':' {
      assert s[j] == digits[j - i - 1] && digits[j - i - 1] in digits;
    }
    assert LastColon(s) == i;
    assert s[i + 1..] == digits && s[..i] == key.0;
    ParseIntOfDecimal(key.1);
  }

  /** Which texts are keys: those with a whole number behind their last colon; the source is all that
      stands before it. */
  lemma ParseKeyExactly(s: string, key: (string, int))
    ensures ParseKey(s) == Some(key) <==>
              exists i :: 0 <= i < |s| && s[i] == ':' && (forall j :: i < j < |s| ==> s[j] != ':')
                          && key.0 == s[..i] && ParseInt(s[i + 1..]) == Some(key.1)
  {
    var i := LastColon(s);
    if k :| 0 <= k < |s| && s[k] == ':' && (forall j :: k < j < |s| ==> s[j] != ':')
            && key.0 == s[..k] && ParseInt(s[k + 1..]) == Some(key.1) {
      assert k == i;
    }
  }

  function ParsedKeys(raw: seq<string>): set<(string, int)> {
    set s | s in raw && ParseKey(s).Some? :: ParseKey(s).value
  }

  lemma ParsedOneMore(raw: seq<string>, s: string)
    ensures ParsedKeys(raw + [s]) == ParsedKeys(raw) + if ParseKey(s).Some? then {ParseKey(s).value} else {}
  {
    assert forall t :: t in raw + [s] <==> t in raw || t == s;
  }

  method WriteKeys(keys: set<(string, int)>) returns (raw: seq<string>)
    ensures ParsedKeys(raw) == keys && |raw| == |keys|
  {
    var rest := keys;
    raw := [];
    while rest != {}
      invariant rest <= keys
      invariant ParsedKeys(raw) == keys - rest
      invariant |raw| + |rest| == |keys|
      decreases |rest|
    {
      var key :| key in rest;
      var text := EncodeKey(key);
      ParseKeyOfEncodeKey(key);
      ParsedOneMore(raw, text);
      raw := raw + [text];
      rest := rest - {key};
    }
  }

  /** Writes the keys of the hits, in whatever order the set yields them; they read back as
      exactly the hits' keys, each written once. */
  method WriteChunkKeys(hits: seq<DocChunk>) returns (raw: seq<string>)
    ensures ParsedKeys(raw) == ChunkKeys(hits)
    ensures |raw| == |ChunkKeys(hits)|
  {
    raw := WriteKeys(ChunkKeys(hits));
  }

  method AddParsed(keys: set<(string, int)>, text: string) returns (out: set<(string, int)>)
    ensures out == keys + if ParseKey(text).Some? then {ParseKey(text).value} else {}
  {
    out := keys;
    var colon := LastColon(text);
    if colon >= 0 {
      var line := ParseInt(text[colon + 1..]);
      if line.Some? {
        out := out + {(text[..colon], line.value)};
      }
    }
  }

  method ParseCacheKeys(chunkKeys: Option<seq<string>>) returns (keys: set<(string, int)>)
    ensures keys == CacheKeys(chunkKeys)
  {
    keys := {};
    if chunkKeys.None? {
      return;
    }
    var raw := chunkKeys.value;
    for i := 0 to |raw|
      invariant keys == ParsedKeys(raw[..i])
    {
      assert raw[..i + 1] == raw[..i] + [raw[i]];
      ParsedOneMore(raw[..i], raw[i]);
      keys := AddParsed(keys, raw[i]);
    }
    assert raw[..|raw|] == raw;
  }

  function CacheKeys(chunkKeys: Option<seq<string>>): set<(string, int)> {
    if chunkKeys.Some? then ParsedKeys(chunkKeys.value) else {}
  }

  // ----- removing what was shown already -----

  function NewChunks(existing: set<(string, int)>, hits: seq<DocChunk>): (r: seq<DocChunk>)
    ensures |r| <= |hits|
  {
    if hits == [] then []
    else
      var last := hits[|hits| - 1];
      NewChunks(existing, hits[..|hits| - 1]) + if last.Key() in existing then [] else [last]
  }

  datatype DedupeMeta = DedupeMeta(enabled: bool, dedupedCount: int, skippedAllDuplicate: bool, sameQuery: bool)

  /** Drops the chunks that the turn's pre-retrieval already injected. */
  method ApplyPreretrievalDedupe(norm: string -> string, query: string, hits: seq<DocChunk>,
                                 cache: Option<Cache>, enabled: bool)
    returns (filtered: seq<DocChunk>, meta: DedupeMeta)
    ensures filtered == Deduped(norm, query, hits, cache, enabled)
    ensures |hits| == |filtered| + meta.dedupedCount
    ensures meta.skippedAllDuplicate <==> hits != [] && filtered == []
    ensures meta.enabled == enabled
    ensures meta.sameQuery <==> enabled && cache.Some? && QueriesEquivalent(norm, query, cache.value.query)
  {
    meta := DedupeMeta(enabled, 0, false, false);
    if !enabled || cache.None? {
      return hits, meta;
    }
    meta := meta.(sameQuery := QueriesEquivalent(norm, query, cache.value.query));
    if !meta.sameQuery {
      return hits, meta;
    }
    var existing := ParseCacheKeys(cache.value.chunkKeys);
    if existing == {} {
      NothingKnown(hits);
      return hits, meta;
    }
    filtered := NewChunks(existing, hits);
    meta := meta.(dedupedCount := |hits| - |filtered|, skippedAllDuplicate := hits != [] && filtered == []);
  }

  function Deduped(norm: string -> string, query: string, hits: seq<DocChunk>, cache: Option<Cache>, enabled: bool): seq<DocChunk> {
    if enabled && cache.Some? && QueriesEquivalent(norm, query, cache.value.query)
    then NewChunks(CacheKeys(cache.value.chunkKeys), hits)
    else hits
  }

  lemma {:induction false} NothingKnown(hits: seq<DocChunk>)
    ensures NewChunks({}, hits) == hits
  {
    if hits != [] {
      NothingKnown(hits[..|hits| - 1]);
    }
  }

  /** The kept chunks are a subsequence of the hits, given by increasing positions. */
  ghost predicate KeptAt(hits: seq<DocChunk>, kept: seq<DocChunk>, at: seq<nat>) {
    && |at| == |kept|
    && (forall i :: 0 <= i < |at| ==> at[i] < |hits| && hits[at[i]] == kept[i])
    && (forall i, j :: 0 <= i < j < |at| ==> at[i] < at[j])
  }

  /** The positions of the hits with an unknown key. */
  ghost predicate UnknownAt(existing: set<(string, int)>, hits: seq<DocChunk>, at: seq<nat>) {
    forall i :: 0 <= i < |hits| ==> (hits[i].Key() !in existing <==> i in at)
  }

  /** What is kept are exactly the hits with an unknown key, in their order. */
  lemma {:induction false} NewChunksExactly(existing: set<(string, int)>, hits: seq<DocChunk>) returns (at: seq<nat>)
    ensures KeptAt(hits, NewChunks(existing, hits), at)
    ensures UnknownAt(existing, hits, at)
  {
    at := [];
    if hits != [] {
      var n := |hits| - 1;
      at := NewChunksExactly(existing, hits[..n]);
      var kept := NewChunks(existing, hits[..n]);
      NewChunksSnoc(existing, hits);
      KeptAtSnoc(hits, kept, at);
      UnknownAtSnoc(existing, hits, kept, at);
      at := if hits[n].Key() in existing then at else at + [n];
    }
  }

  lemma NewChunksSnoc(existing: set<(string, int)>, hits: seq<DocChunk>)
    requires hits != []
    ensures var n := |hits| - 1;
            NewChunks(existing, hits) ==
              if hits[n].Key() in existing then NewChunks(existing, hits[..n]) else NewChunks(existing, hits[..n]) + [hits[n]]
  {
  }

  lemma KeptAtSnoc(hits: seq<DocChunk>, kept: seq<DocChunk>, at: seq<nat>)
    requires hits != [] && KeptAt(hits[..|hits| - 1], kept, at)
    ensures KeptAt(hits, kept, at)
    ensures KeptAt(hits, kept + [hits[|hits| - 1]], at + [|hits| - 1])
  {
  }

  lemma UnknownAtSnoc(existing: set<(string, int)>, hits: seq<DocChunk>, kept: seq<DocChunk>, at: seq<nat>)
    requires hits != [] && KeptAt(hits[..|hits| - 1], kept, at) && UnknownAt(existing, hits[..|hits| - 1], at)
    ensures UnknownAt(existing, hits, if hits[|hits| - 1].Key() in existing then at else at + [|hits| - 1])
  {
    var n := |hits| - 1;
    assert n !in at;
    forall i | 0 <= i < |hits|
      ensures hits[i].Key() !in existing <==> i in if hits[n].Key() in existing then at else at + [n]
    {
      assert i < n ==> hits[i] == hits[..n][i];
      assert i in at + [n] <==> i in at || i == n;
    }
  }

  /** Exact across functions: when search_docs repeats the turn's query after a retrieval in the
      same turn, it loses precisely the hits whose key was pre-retrieved. */
  lemma DedupeIsExact(norm: string -> string, query: string, hits: seq<DocChunk>, shown: seq<DocChunk>, cache: Cache)
    returns (at: seq<nat>)
    requires QueriesEquivalent(norm, query, cache.query)
    requires cache.chunkKeys.Some? && ParsedKeys(cache.chunkKeys.value) == ChunkKeys(shown)
    ensures KeptAt(hits, Deduped(norm, query, hits, Some(cache), true), at)
    ensures forall i :: 0 <= i < |hits| ==> (Shown(shown, hits[i]) <==> i !in at)
  {
    at := NewChunksExactly(ChunkKeys(shown), hits);
    forall i | 0 <= i < |hits| ensures Shown(shown, hits[i]) <==> hits[i].Key() in ChunkKeys(shown) {
      if hits[i].Key() in ChunkKeys(shown) {
        var c :| c in shown && c.Key() == hits[i].Key();
      }
    }
  }

  predicate Shown(shown: seq<DocChunk>, hit: DocChunk) {
    exists c :: c in shown && c.Key() == hit.Key()
  }

  /** A cache rebuilt from the event log carries no keys, and a resumed run carries no cache:
      nothing is removed then, whatever the query. */
  lemma NothingRemovedWithoutKeys(norm: string -> string, query: string, hits: seq<DocChunk>, cache: Option<Cache>, enabled: bool)
    requires cache.None? || cache.value.chunkKeys.None?
    ensures Deduped(norm, query, hits, cache, enabled) == hits
  {
    NothingKnown(hits);
  }
}
