/** Fitting the messages of one turn into what the history leaves of the budget: trim memory,
    trim retrieved documents, then drop them. */
module TurnPacking {
  import opened Text
  import opened Messages

  const RAG_PREFIX := "[PreRetrievedDocs]"
  const ROUTER_PREFIX := "Tool routing plan for this user turn"
  const EPISODIC_PREFIX := "[EpisodicMemory]"
  const LONG_TERM_PREFIX := "[LongTermMemory]"
  const MEMORY_CONTEXT_PREFIX := "[MemoryContext]"

  datatype Kind = User | Other | Rag | Memory | Router | Plain
  {
    function Name(): string {
      match this
      case User => "user"
      case Other => "other"
      case Rag => "rag"
      case Memory => "memory"
      case Router => "router"
      case Plain => "system"
    }
  }

  function KindOf(m: Message): Kind {
    if m.Human? then User
    else if !m.System? then Other
    else if RAG_PREFIX <= m.content then Rag
    else if EPISODIC_PREFIX <= m.content || LONG_TERM_PREFIX <= m.content then Memory
    else if ROUTER_PREFIX <= m.content then Router
    else Plain
  }

  predicate Trimmable(m: Message) {
    KindOf(m) == Memory || KindOf(m) == Rag
  }

  function CountKind(ms: seq<Message>, kind: Kind): nat {
    if ms == [] then 0 else (if KindOf(ms[0]) == kind then 1 else 0) + CountKind(ms[1..], kind)
  }

  function UntrimmableOnly(ms: seq<Message>): seq<Message> {
    if ms == [] then []
    else (if Trimmable(ms[0]) then [] else [ms[0]]) + UntrimmableOnly(ms[1..])
  }

  predicate NothingToTrim(ms: seq<Message>) {
    CountKind(ms, Memory) == 0 && CountKind(ms, Rag) == 0
  }

  lemma {:induction false} PartsConcat(a: seq<Message>, b: seq<Message>, kind: Kind)
    ensures CountKind(a + b, kind) == CountKind(a, kind) + CountKind(b, kind)
    ensures UntrimmableOnly(a + b) == UntrimmableOnly(a) + UntrimmableOnly(b)
  {
    if a == [] {
      assert a + b == b;
    } else {
      PartsConcat(a[1..], b, kind);
      assert (a + b)[1..] == a[1..] + b;
    }
  }

  lemma {:induction false} NothingToTrimIsUntrimmable(ms: seq<Message>)
    ensures NothingToTrim(ms) <==> UntrimmableOnly(ms) == ms
    ensures TotalChars(UntrimmableOnly(ms)) <= TotalChars(ms)
    ensures |UntrimmableOnly(ms)| <= |ms|
    ensures NothingToTrim(ms) <==> TotalChars(UntrimmableOnly(ms)) == TotalChars(ms)
  {
    if ms != [] {
      NothingToTrimIsUntrimmable(ms[1..]);
      assert UntrimmableOnly(ms) == ms ==> UntrimmableOnly(ms[1..]) == ms[1..];
      TotalCharsConcat(if Trimmable(ms[0]) then [] else [ms[0]], UntrimmableOnly(ms[1..]));
      assert Trimmable(ms[0]) ==> |ms[0].content| > 0;
    }
  }

  // ----- trimming one message -----

  function TruncatedText(content: string, maxChars: nat): (r: string)
    ensures |content| <= maxChars ==> r == content
    ensures |r| <= maxChars || r == content
    ensures |content| > maxChars ==> |r| <= maxChars
  {
    if |content| <= maxChars then content
    else if maxChars <= 3 then content[..maxChars]
    else Rstrip(content[..maxChars - 3]) + "..."
  }

  /** Trimming keeps the marker a message is recognised by. */
  lemma TruncatedKeepsPrefix(content: string, maxChars: nat, prefix: string)
    requires prefix <= content && prefix != [] && !IsSpace(prefix[|prefix| - 1])
    requires |prefix| + 3 <= maxChars
    ensures prefix <= TruncatedText(content, maxChars)
  {
    if |content| > maxChars {
      var cut := content[..maxChars - 3];
      assert prefix <= cut;
      assert |Rstrip(cut)| >= |prefix|;
    }
  }

  lemma TruncatedKeepsKind(m: Message, maxChars: nat)
    requires Trimmable(m) && maxChars >= 200
    ensures KindOf(System(TruncatedText(m.content, maxChars))) == KindOf(m)
  {
    var prefix := if RAG_PREFIX <= m.content then RAG_PREFIX
                  else if EPISODIC_PREFIX <= m.content then EPISODIC_PREFIX else LONG_TERM_PREFIX;
    TruncatedKeepsPrefix(m.content, maxChars, prefix);
    var text := TruncatedText(m.content, maxChars);
    if KindOf(m) == Memory {
      assert text[1] == prefix[1] && RAG_PREFIX[1] == 'P';
    }
  }

  /** Trims the first message of the kind when it is longer than target. */
  function TrimFirst(ms: seq<Message>, kind: Kind, target: nat): seq<Message> {
    if ms == [] then []
    else if KindOf(ms[0]) == kind then [System(TruncatedText(ms[0].content, target))] + ms[1..]
    else [ms[0]] + TrimFirst(ms[1..], kind, target)
  }

  /** Removes the last message of the kind. */
  function DropLast(ms: seq<Message>, kind: Kind): seq<Message> {
    if ms == [] then []
    else
      var last := |ms| - 1;
      if KindOf(ms[last]) == kind then ms[..last] else DropLast(ms[..last], kind) + [ms[last]]
  }

  lemma {:induction false} TrimFirstParts(ms: seq<Message>, kind: Kind, target: nat)
    requires (kind == Memory || kind == Rag) && target >= 200
    ensures var out := TrimFirst(ms, kind, target);
            && |out| == |ms|
            && UntrimmableOnly(out) == UntrimmableOnly(ms)
            && CountKind(out, Memory) == CountKind(ms, Memory)
            && CountKind(out, Rag) == CountKind(ms, Rag)
            && (out != ms ==> TotalChars(out) < TotalChars(ms))
  {
    if ms != [] {
      if KindOf(ms[0]) == kind {
        TruncatedKeepsKind(ms[0], target);
        assert TrimFirst(ms, kind, target)[1..] == ms[1..];
      } else {
        TrimFirstParts(ms[1..], kind, target);
        assert TrimFirst(ms, kind, target)[1..] == TrimFirst(ms[1..], kind, target);
        assert ms == [ms[0]] + ms[1..];
      }
    }
  }

  lemma {:induction false} DropLastParts(ms: seq<Message>, kind: Kind)
    requires kind == Memory || kind == Rag
    ensures var out := DropLast(ms, kind);
            && UntrimmableOnly(out) == UntrimmableOnly(ms)
            && CountKind(out, kind) == (if CountKind(ms, kind) == 0 then 0 else CountKind(ms, kind) - 1)
            && CountKind(out, if kind == Rag then Memory else Rag) == CountKind(ms, if kind == Rag then Memory else Rag)
            && (CountKind(ms, kind) == 0 <==> out == ms)
            && (CountKind(ms, kind) > 0 ==> TotalChars(out) < TotalChars(ms))
  {
    if ms != [] {
      var last := |ms| - 1;
      var front, tail := ms[..last], [ms[last]];
      assert ms == front + tail;
      PartsConcat(front, tail, Memory);
      PartsConcat(front, tail, Rag);
      TotalCharsConcat(front, tail);
      if KindOf(ms[last]) != kind {
        DropLastParts(front, kind);
        PartsConcat(DropLast(front, kind), tail, Memory);
        PartsConcat(DropLast(front, kind), tail, Rag);
        TotalCharsConcat(DropLast(front, kind), tail);
      }
    }
  }

  // ----- the packing -----

  datatype Packing = Packing(messages: seq<Message>, steps: seq<string>)

  predicate Within(ms: seq<Message>, maxChars: int) { TotalChars(ms) <= maxChars }

  function TrimStage(p: Packing, kind: Kind, target: nat, maxChars: int): Packing {
    var next := TrimFirst(p.messages, kind, target);
    if Within(p.messages, maxChars) || next == p.messages then p
    else Packing(next, p.steps + ["truncated_" + kind.Name()])
  }

  function DropStage(p: Packing, kind: Kind, maxChars: int): Packing {
    if Within(p.messages, maxChars) || CountKind(p.messages, kind) == 0 then p
    else Packing(DropLast(p.messages, kind), p.steps + ["dropped_" + kind.Name()])
  }

  function AtLeast(low: nat, n: int): nat {
    if n >= low then n else low
  }

  function TrimBoth(ms: seq<Message>, maxChars: int): Packing {
    var p := TrimStage(Packing(ms, []), Memory, AtLeast(200, maxChars / 8), maxChars);
    TrimStage(p, Rag, AtLeast(400, maxChars / 4), maxChars)
  }

  function PackTurn(ms: seq<Message>, maxChars: int, enabled: bool): Packing {
    if !enabled || maxChars <= 0 then Packing(ms, [])
    else DropStage(DropStage(TrimBoth(ms, maxChars), Memory, maxChars), Rag, maxChars)
  }

  datatype PackResult = PackResult(messages: seq<Message>, usedChars: int, truncated: bool, steps: seq<string>)

  lemma {:induction false} TrimFirstAt(ms: seq<Message>, kind: Kind, target: nat, i: nat)
    requires i <= |ms| && forall j :: 0 <= j < i ==> KindOf(ms[j]) != kind
    ensures i == |ms| ==> TrimFirst(ms, kind, target) == ms
    ensures i < |ms| && KindOf(ms[i]) == kind
            ==> TrimFirst(ms, kind, target) == ms[i := System(TruncatedText(ms[i].content, target))]
  {
    if i > 0 {
      TrimFirstAt(ms[1..], kind, target, i - 1);
      assert ms == [ms[0]] + ms[1..];
    }
  }

  method TrimKind(working: seq<Message>, used: int, steps: seq<string>, kind: Kind, target: nat)
    returns (working': seq<Message>, used': int, steps': seq<string>, changed: bool)
    requires kind == Memory || kind == Rag
    ensures working' == TrimFirst(working, kind, target)
    ensures changed <==> working' != working
    ensures used' - used == TotalChars(working') - TotalChars(working)
    ensures steps' == if changed then steps + ["truncated_" + kind.Name()] else steps
  {
    var i := 0;
    while i < |working|
      invariant 0 <= i <= |working|
      invariant forall j :: 0 <= j < i ==> KindOf(working[j]) != kind
    {
      if KindOf(working[i]) == kind {
        TrimFirstAt(working, kind, target, i);
        var current := |working[i].content|;
        if current <= target {
          assert working == working[i := working[i]];
          return working, used, steps, false;
        }
        var trimmed := System(TruncatedText(working[i].content, target));
        TotalCharsUpdate(working, i, trimmed);
        return working[i := trimmed], used + |trimmed.content| - current, steps + ["truncated_" + kind.Name()], true;
      }
      i := i + 1;
    }
    TrimFirstAt(working, kind, target, |working|);
    return working, used, steps, false;
  }

  lemma {:induction false} DropLastAt(ms: seq<Message>, kind: Kind, i: int)
    requires -1 <= i < |ms| && forall j :: i < j < |ms| ==> KindOf(ms[j]) != kind
    ensures i == -1 ==> CountKind(ms, kind) == 0
    ensures i >= 0 && KindOf(ms[i]) == kind
            ==> CountKind(ms, kind) > 0 && DropLast(ms, kind) == ms[..i] + ms[i + 1..]
  {
    if ms != [] {
      var last := |ms| - 1;
      var front := ms[..last];
      assert ms == front + [ms[last]];
      PartsConcat(front, [ms[last]], kind);
      if i < last {
        DropLastAt(front, kind, i);
        if i >= 0 {
          assert ms[..i] == front[..i] && ms[i + 1..] == front[i + 1..] + [ms[last]];
        }
      } else {
        assert ms[..i] + ms[i + 1..] == ms[..last];
      }
    }
  }

  method DropKind(working: seq<Message>, used: int, steps: seq<string>, kind: Kind)
    returns (working': seq<Message>, used': int, steps': seq<string>, changed: bool)
    ensures changed <==> CountKind(working, kind) > 0
    ensures working' == if changed then DropLast(working, kind) else working
    ensures used' - used == TotalChars(working') - TotalChars(working)
    ensures steps' == if changed then steps + ["dropped_" + kind.Name()] else steps
  {
    var i := |working| - 1;
    while i >= 0
      invariant -1 <= i < |working|
      invariant forall j :: i < j < |working| ==> KindOf(working[j]) != kind
    {
      if KindOf(working[i]) == kind {
        DropLastAt(working, kind, i);
        TotalCharsSplit(working, i);
        return working[..i] + working[i + 1..], used - |working[i].content|, steps + ["dropped_" + kind.Name()], true;
      }
      i := i - 1;
    }
    DropLastAt(working, kind, -1);
    return working, used, steps, false;
  }

  /** Packs the turn; the running count of characters is the true total of what is returned. */
  method PackGraphMessages(messages: seq<Message>, maxChars: int, enabled: bool) returns (r: PackResult)
    ensures Packing(r.messages, r.steps) == PackTurn(messages, maxChars, enabled)
    ensures r.usedChars == TotalChars(r.messages)
    ensures r.truncated <==> r.steps != []
  {
    var used: int := TotalChars(messages);
    if !enabled || maxChars <= 0 {
      return PackResult(messages, used, false, []);
    }
    if used <= maxChars {
      return PackResult(messages, used, false, []);
    }
    var working, steps := messages, [];
    ghost var p0 := Packing(messages, []);
    ghost var p1 := TrimStage(p0, Memory, AtLeast(200, maxChars / 8), maxChars);
    ghost var p2 := TrimStage(p1, Rag, AtLeast(400, maxChars / 4), maxChars);
    ghost var p3 := DropStage(p2, Memory, maxChars);
    ghost var p4 := DropStage(p3, Rag, maxChars);
    assert PackTurn(messages, maxChars, enabled) == p4;
    var again := true;
    while used > maxChars && again
      invariant used == TotalChars(working)
      invariant Packing(working, steps) == if again then p0 else p4
      decreases again
    {
      again := false;
      var changed;
      working, used, steps, changed := TrimKind(working, used, steps, Memory, AtLeast(200, maxChars / 8));
      assert Packing(working, steps) == p1;
      if changed && used <= maxChars { break; }
      working, used, steps, changed := TrimKind(working, used, steps, Rag, AtLeast(400, maxChars / 4));
      assert Packing(working, steps) == p2;
      if changed && used <= maxChars { break; }
      working, used, steps, changed := DropKind(working, used, steps, Memory);
      assert Packing(working, steps) == p3;
      if changed && used <= maxChars { break; }
      working, used, steps, changed := DropKind(working, used, steps, Rag);
    }
    assert Packing(working, steps) == p4;
    r := PackResult(working, used, steps != [], steps);
  }

  // ----- what packing guarantees -----

  function OneFewer(n: nat): nat { if n == 0 then 0 else n - 1 }

  ghost predicate Kept(before: seq<Message>, after: seq<Message>) {
    && UntrimmableOnly(after) == UntrimmableOnly(before)
    && TotalChars(after) <= TotalChars(before)
  }

  lemma TrimBothParts(ms: seq<Message>, maxChars: int)
    ensures var p := TrimBoth(ms, maxChars);
            && Kept(ms, p.messages)
            && CountKind(p.messages, Memory) == CountKind(ms, Memory)
            && CountKind(p.messages, Rag) == CountKind(ms, Rag)
            && (Within(ms, maxChars) ==> p == Packing(ms, []))
            && (p.messages == ms <==> p.steps == [])
  {
    var target := AtLeast(200, maxChars / 8);
    TrimFirstParts(ms, Memory, target);
    var p := TrimStage(Packing(ms, []), Memory, target, maxChars);
    TrimFirstParts(p.messages, Rag, AtLeast(400, maxChars / 4));
  }

  /** Packing never touches anything but memory and retrieved documents and never adds
      characters; when the result is still too long, one memory message and one document
      message are gone, if there were any. */
  lemma PackTurnParts(ms: seq<Message>, maxChars: int, enabled: bool)
    ensures var out := PackTurn(ms, maxChars, enabled);
            && Kept(ms, out.messages)
            && (out.messages == ms <==> out.steps == [])
            && (enabled && maxChars > 0 && !Within(out.messages, maxChars) ==>
                  && CountKind(out.messages, Memory) == OneFewer(CountKind(ms, Memory))
                  && CountKind(out.messages, Rag) == OneFewer(CountKind(ms, Rag)))
            && CountKind(out.messages, Memory) <= CountKind(ms, Memory)
            && CountKind(out.messages, Rag) <= CountKind(ms, Rag)
  {
    TrimBothParts(ms, maxChars);
    var p := TrimBoth(ms, maxChars);
    DropLastParts(p.messages, Memory);
    var q := DropStage(p, Memory, maxChars);
    DropLastParts(q.messages, Rag);
    var out := DropStage(q, Rag, maxChars);
    if out.messages == ms && out.steps != [] {
      assert TotalChars(out.messages) == TotalChars(ms);
    }
  }

  /** With at most one memory and one document message the result is within the limit, or
      neither of them is left. */
  lemma PackTurnFitsOrIsBare(ms: seq<Message>, maxChars: int)
    requires maxChars > 0
    requires CountKind(ms, Memory) <= 1 && CountKind(ms, Rag) <= 1
    ensures var out := PackTurn(ms, maxChars, true);
            Within(out.messages, maxChars) || out.messages == UntrimmableOnly(ms)
  {
    PackTurnParts(ms, maxChars, true);
    NothingToTrimIsUntrimmable(PackTurn(ms, maxChars, true).messages);
  }

  /** Packing again changes nothing exactly when the first result fits or holds no memory and no
      document message; so a second pass is idle whenever there was at most one of each. */
  lemma PackTurnTwice(ms: seq<Message>, maxChars: int)
    requires maxChars > 0
    ensures var out := PackTurn(ms, maxChars, true).messages;
            var idle := PackTurn(out, maxChars, true) == Packing(out, []);
            && (idle <==> (Within(out, maxChars) || NothingToTrim(out)))
            && (CountKind(ms, Memory) <= 1 && CountKind(ms, Rag) <= 1 ==> idle)
  {
    var out := PackTurn(ms, maxChars, true).messages;
    var again := PackTurn(out, maxChars, true);
    PackTurnParts(ms, maxChars, true);
    PackTurnParts(out, maxChars, true);
    NothingToTrimIsUntrimmable(out);
    NothingToTrimIsUntrimmable(again.messages);
  }

  /** The marker of injected memory is not one of those that packing knows. */
  lemma MemoryContextIsPlain(m: Message)
    requires m.System? && MEMORY_CONTEXT_PREFIX <= m.content
    ensures KindOf(m) == Plain && !Trimmable(m)
  {
    assert m.content[1] == 'M' && m.content[2] == 'e' && m.content[0] == '[';
    assert RAG_PREFIX[1] == 'P' && EPISODIC_PREFIX[1] == 'E' && LONG_TERM_PREFIX[1] == 'L' && ROUTER_PREFIX[0] == 'T';
  }

  lemma {:induction false} UntrimmableMember(ms: seq<Message>, m: Message)
    requires m in ms && !Trimmable(m)
    ensures m in UntrimmableOnly(ms)
  {
    if m != ms[0] {
      UntrimmableMember(ms[1..], m);
    }
  }

  lemma {:induction false} CountsMembers(ms: seq<Message>, kind: Kind)
    ensures CountKind(ms, kind) == 0 <==> forall m :: m in ms ==> KindOf(m) != kind
  {
    if ms != [] {
      CountsMembers(ms[1..], kind);
      assert ms == [ms[0]] + ms[1..];
    }
  }

  /** Without a memory message the memory stages leave list and labels alone. */
  lemma NoMemoryStages(ms: seq<Message>, maxChars: int)
    requires CountKind(ms, Memory) == 0
    ensures TrimBoth(ms, maxChars) == TrimStage(Packing(ms, []), Rag, AtLeast(400, maxChars / 4), maxChars)
    ensures var p := TrimBoth(ms, maxChars);
            DropStage(p, Memory, maxChars) == p
  {
    CountsMembers(ms, Memory);
    TrimFirstAt(ms, Memory, AtLeast(200, maxChars / 8), |ms|);
    TrimBothParts(ms, maxChars);
  }

  lemma NoMemoryNoMemorySteps(ms: seq<Message>, maxChars: int, enabled: bool)
    requires CountKind(ms, Memory) == 0
    ensures forall s :: s in PackTurn(ms, maxChars, enabled).steps ==> s == "truncated_rag" || s == "dropped_rag"
  {
    NoMemoryStages(ms, maxChars);
    assert "truncated_" + Rag.Name() == "truncated_rag" && "dropped_" + Rag.Name() == "dropped_rag";
  }

  lemma {:induction false} DropLastConcat(a: seq<Message>, b: seq<Message>, kind: Kind)
    requires CountKind(b, kind) > 0
    ensures DropLast(a + b, kind) == a + DropLast(b, kind)
  {
    var last := |b| - 1;
    assert (a + b)[..|a + b| - 1] == a + b[..last];
    if KindOf(b[last]) != kind {
      assert b == b[..last] + [b[last]];
      PartsConcat(b[..last], [b[last]], kind);
      DropLastConcat(a, b[..last], kind);
    }
  }

  /** When some limit makes packing take away m, which stands alone among plain messages in front
      and at most one document message behind. */
  lemma LossAmong(front: seq<Message>, m: Message, rest: seq<Message>)
    requires NothingToTrim(front) && CountKind(rest, Memory) == 0 && CountKind(rest, Rag) <= 1
    requires m.System?
    ensures (exists limit: int :: limit > 0 && m !in PackTurn(front + [m] + rest, limit, true).messages) <==>
              || KindOf(m) == Memory
              || (KindOf(m) == Rag && (CountKind(rest, Rag) == 0 || |m.content| > 400))
  {
    var all := front + [m] + rest;
    CountOfThree(front, m, rest, Memory);
    CountOfThree(front, m, rest, Rag);
    if KindOf(m) == Memory || (KindOf(m) == Rag && CountKind(rest, Rag) == 0) {
      LostWhenAlone(all, m);
    } else if KindOf(m) == Rag && |m.content| > 400 {
      LongOneIsTrimmed(front, m, rest);
    } else {
      forall limit: int | limit > 0 ensures m in PackTurn(all, limit, true).messages {
        if KindOf(m) == Rag {
          ShortOneIsKept(front, m, rest, limit);
        } else {
          assert m in all;
          UntrimmableMember(all, m);
          PackTurnParts(all, limit, true);
          MemberOfUntrimmable(PackTurn(all, limit, true).messages, m);
        }
      }
    }
  }

  lemma CountOfThree(front: seq<Message>, m: Message, rest: seq<Message>, kind: Kind)
    ensures CountKind(front + [m] + rest, kind)
            == CountKind(front, kind) + (if KindOf(m) == kind then 1 else 0) + CountKind(rest, kind)
  {
    PartsConcat(front + [m], rest, kind);
    PartsConcat(front, [m], kind);
  }

  lemma {:induction false} MemberOfUntrimmable(ms: seq<Message>, m: Message)
    requires m in UntrimmableOnly(ms)
    ensures m in ms
  {
    if Trimmable(ms[0]) || m != ms[0] {
      MemberOfUntrimmable(ms[1..], m);
    }
  }

  /** The only message of its kind is gone when the limit is a single character. */
  lemma LostWhenAlone(ms: seq<Message>, m: Message)
    requires m in ms && Trimmable(m) && CountKind(ms, KindOf(m)) <= 1 && CountKind(ms, Memory) <= 1
    ensures m !in PackTurn(ms, 1, true).messages
  {
    var out := PackTurn(ms, 1, true).messages;
    PackTurnParts(ms, 1, true);
    CountsMembers(out, KindOf(m));
    assert |m.content| > 1;
    if m in out {
      CharsOfMember(out, m);
    }
  }

  lemma {:induction false} CharsOfMember(ms: seq<Message>, m: Message)
    requires m in ms
    ensures |m.content| <= TotalChars(ms)
  {
    if m != ms[0] {
      CharsOfMember(ms[1..], m);
    }
  }

  /** A long text with the documents' marker is trimmed in place of the documents behind it, which
      are then dropped. */
  lemma LongOneIsTrimmed(front: seq<Message>, m: Message, rest: seq<Message>)
    requires NothingToTrim(front) && CountKind(rest, Memory) == 0 && CountKind(rest, Rag) == 1
    requires KindOf(m) == Rag && |m.content| > 400
    ensures m !in PackTurn(front + [m] + rest, 1, true).messages
  {
    var cut := System(TruncatedText(m.content, 400));
    CountOfThree(front, m, rest, Memory);
    LongOneIsCut(front, m, rest, cut);
    var trimmed, after := front + [cut] + rest, DropLast(rest, Rag);
    CountOfThree(front, cut, rest, Rag);
    PackedAtOne(front + [m] + rest, trimmed);
    DropLastConcat(front + [cut], rest, Rag);
    DropLastParts(rest, Rag);
    CountsMembers(front, Rag);
    CountsMembers(after, Rag);
    assert m !in front && m != cut && m !in after;
    assert m !in (front + [cut]) + after;
  }

  lemma TrimFirstBehind(front: seq<Message>, m: Message, rest: seq<Message>, target: nat)
    requires NothingToTrim(front) && KindOf(m) == Rag
    ensures TrimFirst(front + [m] + rest, Rag, target) == front + [System(TruncatedText(m.content, target))] + rest
  {
    var cut := System(TruncatedText(m.content, target));
    CountsMembers(front, Rag);
    TrimFirstAt(front + [m] + rest, Rag, target, |front|);
    assert (front + [m] + rest)[|front| := cut] == front + [cut] + rest;
  }

  lemma LongOneIsCut(front: seq<Message>, m: Message, rest: seq<Message>, cut: Message)
    requires NothingToTrim(front)
    requires KindOf(m) == Rag && |m.content| > 400 && cut == System(TruncatedText(m.content, 400))
    ensures TrimFirst(front + [m] + rest, Rag, 400) == front + [cut] + rest
    ensures !Within(front + [m] + rest, 1) && !Within(front + [cut] + rest, 1)
    ensures KindOf(cut) == Rag && cut != m && front + [cut] + rest != front + [m] + rest
  {
    var all, trimmed := front + [m] + rest, front + [cut] + rest;
    TrimFirstBehind(front, m, rest, 400);
    assert all[|front|] == m && trimmed[|front|] == cut;
    assert m in all && cut in trimmed;
    CharsOfMember(all, m);
    CharsOfMember(trimmed, cut);
    TruncatedKeepsKind(m, 400);
    assert RAG_PREFIX <= cut.content;
  }

  lemma PackedAtOne(ms: seq<Message>, trimmed: seq<Message>)
    requires CountKind(ms, Memory) == 0 && trimmed == TrimFirst(ms, Rag, 400) && trimmed != ms
    requires !Within(ms, 1) && !Within(trimmed, 1) && CountKind(trimmed, Rag) > 0
    ensures PackTurn(ms, 1, true).messages == DropLast(trimmed, Rag)
  {
    NoMemoryStages(ms, 1);
    assert TrimBoth(ms, 1).messages == trimmed;
  }

  /** A short one is not trimmed, and the documents behind it are dropped first. */
  lemma ShortOneIsKept(front: seq<Message>, m: Message, rest: seq<Message>, limit: int)
    requires NothingToTrim(front) && CountKind(rest, Memory) == 0 && CountKind(rest, Rag) == 1 && limit > 0
    requires m.System? && KindOf(m) == Rag && |m.content| <= 400
    ensures m in PackTurn(front + [m] + rest, limit, true).messages
  {
    var all := front + [m] + rest;
    CountOfThree(front, m, rest, Memory);
    NoMemoryStages(all, limit);
    TrimFirstBehind(front, m, rest, AtLeast(400, limit / 4));
    assert TrimBoth(all, limit).messages == all;
    DropLastConcat(front + [m], rest, Rag);
    assert m in (front + [m]) + DropLast(rest, Rag);
  }
}
