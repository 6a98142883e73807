/** What packing does to a turn, said of the messages themselves: which of five lists it returns, and
    when the documents stay. */
module TurnShape {
  import opened Text
  import opened Messages
  import opened CheckpointTrim
  import opened TurnPacking

  /** The kinds that matter, by their markers. */
  lemma KindsByMarker(m: Message)
    ensures KindOf(m) == Rag <==> m.System? && "[PreRetrievedDocs]" <= m.content
    ensures KindOf(m) == Memory <==> m.System? && ("[EpisodicMemory]" <= m.content || "[LongTermMemory]" <= m.content)
  {
    if m.System? && |m.content| > 1 {
      assert RAG_PREFIX[1] == 'P' && EPISODIC_PREFIX[1] == 'E' && LONG_TERM_PREFIX[1] == 'L';
    }
  }

  /** A trimmed text is the original, or the original cut below the limit with dots behind. */
  lemma TrimmedText(content: string, limit: nat)
    requires limit > 3
    ensures if |content| <= limit then TruncatedText(content, limit) == content
            else CutText(content, limit, TruncatedText(content, limit))
  {
    if |content| > limit {
      var cut := content[..limit - 3];
      var kept := Rstrip(cut);
      assert TruncatedText(content, limit) == kept + "...";
      assert kept == content[..|kept|];
      forall i | |kept| <= i < limit - 3 ensures IsSpace(content[i]) {
        assert cut[i] == content[i];
      }
    }
  }

  /** The four ways to shorten a turn, each applied to the result of the one before. */
  datatype Shortened = Shortened(memoryCut: seq<Message>, bothCut: seq<Message>, noMemory: seq<Message>, noDocs: seq<Message>)

  function Shorten(ms: seq<Message>, limit: nat): Shortened {
    var a := TrimFirst(ms, Memory, if limit / 8 > 200 then limit / 8 else 200);
    var b := TrimFirst(a, Rag, if limit / 4 > 400 then limit / 4 else 400);
    var c := DropLast(b, Memory);
    Shortened(a, b, c, DropLast(c, Rag))
  }

  function When(b: bool, name: string): seq<string> { if b then [name] else [] }

  /** Each step shortens the list or does nothing. */
  lemma StepsShorten(ms: seq<Message>, limit: nat)
    ensures var s := Shorten(ms, limit);
            && TotalChars(s.noDocs) <= TotalChars(s.noMemory) <= TotalChars(s.bothCut) <= TotalChars(s.memoryCut) <= TotalChars(ms)
            && |s.memoryCut| == |s.bothCut| == |ms|
            && CountKind(s.bothCut, Memory) == CountKind(ms, Memory)
            && CountKind(s.noMemory, Rag) == CountKind(s.bothCut, Rag) == CountKind(ms, Rag)
            && (s.noMemory != s.bothCut <==> CountKind(s.bothCut, Memory) > 0)
            && (s.noDocs != s.noMemory <==> CountKind(s.noMemory, Rag) > 0)
  {
    var s := Shorten(ms, limit);
    TrimFirstParts(ms, Memory, if limit / 8 > 200 then limit / 8 else 200);
    TrimFirstParts(s.memoryCut, Rag, if limit / 4 > 400 then limit / 4 else 400);
    DropLastParts(s.bothCut, Memory);
    DropLastParts(s.noMemory, Rag);
  }

  /** Packing stops at the first list that fits: the turn itself, with its first memory text trimmed,
      with its first documents trimmed as well, without its last memory text, without its last
      documents; only the last of these may be too long. The labels name the steps that were taken
      and changed something. */
  lemma FirstThatFits(ms: seq<Message>, limit: nat)
    requires limit > 0
    ensures var s := Shorten(ms, limit);
            var out := PackTurn(ms, limit, true);
            && out.messages == (if TotalChars(ms) <= limit then ms
                                else if TotalChars(s.memoryCut) <= limit then s.memoryCut
                                else if TotalChars(s.bothCut) <= limit then s.bothCut
                                else if TotalChars(s.noMemory) <= limit then s.noMemory
                                else s.noDocs)
            && out.steps == When(TotalChars(ms) > limit && s.memoryCut != ms, "truncated_memory")
                            + When(TotalChars(s.memoryCut) > limit && s.bothCut != s.memoryCut, "truncated_rag")
                            + When(TotalChars(s.bothCut) > limit && s.noMemory != s.bothCut, "dropped_memory")
                            + When(TotalChars(s.noMemory) > limit && s.noDocs != s.noMemory, "dropped_rag")
  {
    StepsShorten(ms, limit);
    TrimmedPart(ms, limit);
    DroppedPart(TrimBoth(ms, limit), limit);
  }

  lemma TrimmedPart(ms: seq<Message>, limit: nat)
    ensures var s := Shorten(ms, limit);
            var p := TrimBoth(ms, limit);
            && p.messages == (if TotalChars(ms) <= limit then ms else if TotalChars(s.memoryCut) <= limit then s.memoryCut else s.bothCut)
            && p.steps == When(TotalChars(ms) > limit && s.memoryCut != ms, "truncated_memory")
                          + When(TotalChars(s.memoryCut) > limit && s.bothCut != s.memoryCut, "truncated_rag")
  {
    StepsShorten(ms, limit);
    if TotalChars(ms) <= limit {
      TrimBothParts(ms, limit);
    } else {
      TrimmedWhenOver(ms, limit);
    }
  }

  lemma TrimmedWhenOver(ms: seq<Message>, limit: nat)
    requires TotalChars(ms) > limit
    ensures var s := Shorten(ms, limit);
            var first := When(s.memoryCut != ms, "truncated_memory");
            TrimBoth(ms, limit) ==
              if TotalChars(s.memoryCut) <= limit then Packing(s.memoryCut, first)
              else Packing(s.bothCut, first + When(s.bothCut != s.memoryCut, "truncated_rag"))
  {
    var s := Shorten(ms, limit);
    LabelNames();
    OneTrim(ms, [], Memory, AtLeast(200, limit / 8), limit);
    assert TrimStage(Packing(ms, []), Memory, AtLeast(200, limit / 8), limit)
           == Packing(s.memoryCut, When(s.memoryCut != ms, "truncated_memory"));
    OneTrim(s.memoryCut, When(s.memoryCut != ms, "truncated_memory"), Rag, AtLeast(400, limit / 4), limit);
  }

  lemma OneTrim(ms: seq<Message>, steps: seq<string>, kind: Kind, target: nat, limit: nat)
    ensures var next := TrimFirst(ms, kind, target);
            TrimStage(Packing(ms, steps), kind, target, limit)
            == if TotalChars(ms) <= limit then Packing(ms, steps)
               else Packing(next, steps + When(next != ms, "truncated_" + kind.Name()))
  {
  }

  lemma DroppedPart(p: Packing, limit: nat)
    ensures var noMemory := DropLast(p.messages, Memory);
            var noDocs := DropLast(noMemory, Rag);
            var out := DropStage(DropStage(p, Memory, limit), Rag, limit);
            && out.messages == (if TotalChars(p.messages) <= limit then p.messages
                                else if TotalChars(noMemory) <= limit then noMemory else noDocs)
            && out.steps == p.steps + When(TotalChars(p.messages) > limit && noMemory != p.messages, "dropped_memory")
                            + When(TotalChars(noMemory) > limit && TotalChars(p.messages) > limit && noDocs != noMemory, "dropped_rag")
  {
    LabelNames();
    DropLastParts(p.messages, Memory);
    DropLastParts(DropLast(p.messages, Memory), Rag);
  }

  lemma LabelNames()
    ensures "truncated_" + Memory.Name() == "truncated_memory" && "truncated_" + Rag.Name() == "truncated_rag"
    ensures "dropped_" + Memory.Name() == "dropped_memory" && "dropped_" + Rag.Name() == "dropped_rag"
  {
  }

  /** Switched off or without a limit, packing changes nothing. */
  lemma NotPacked(ms: seq<Message>, limit: int, enabled: bool)
    ensures !enabled || limit <= 0 ==> PackTurn(ms, limit, enabled) == Packing(ms, [])
  {
  }

  /** A message is dropped only when trimming was not enough. */
  lemma DroppedOnlyWhenNeeded(ms: seq<Message>, limit: nat)
    requires limit > 0
    ensures |PackTurn(ms, limit, true).messages| < |ms| ==> TotalChars(Shorten(ms, limit).bothCut) > limit
  {
    FirstThatFits(ms, limit);
    StepsShorten(ms, limit);
  }

  /** Documents that fit once they are trimmed stay. */
  lemma DocumentsStay(ms: seq<Message>, limit: nat)
    requires limit > 0 && CountKind(ms, Memory) == 0 && CountKind(ms, Rag) == 1
    requires TotalChars(UntrimmableOnly(ms)) + (if limit / 4 > 400 then limit / 4 else 400) <= limit
    ensures var out := PackTurn(ms, limit, true);
            CountKind(out.messages, Rag) == 1 && (out.steps == [] || out.steps == ["truncated_rag"])
  {
    var s := Shorten(ms, limit);
    FirstThatFits(ms, limit);
    StepsShorten(ms, limit);
    CountsMembers(ms, Memory);
    TrimFirstAt(ms, Memory, if limit / 8 > 200 then limit / 8 else 200, |ms|);
    TrimmedDocumentsFit(ms, if limit / 4 > 400 then limit / 4 else 400);
  }

  lemma TrimmedDocumentsFit(ms: seq<Message>, target: nat)
    requires CountKind(ms, Memory) == 0 && CountKind(ms, Rag) == 1
    ensures TotalChars(TrimFirst(ms, Rag, target)) <= TotalChars(UntrimmableOnly(ms)) + target
  {
    var i := OnlyOne(ms);
    TrimFirstAt(ms, Rag, target, i);
    TotalCharsSplit(ms, i);
    TotalCharsUpdate(ms, i, System(TruncatedText(ms[i].content, target)));
  }

  /** Where the only documents message is. */
  lemma {:induction false} OnlyOne(ms: seq<Message>) returns (i: nat)
    requires CountKind(ms, Memory) == 0 && CountKind(ms, Rag) == 1
    ensures i < |ms| && KindOf(ms[i]) == Rag && forall j :: 0 <= j < i ==> KindOf(ms[j]) != Rag
    ensures UntrimmableOnly(ms) == ms[..i] + ms[i + 1..]
  {
    if KindOf(ms[0]) == Rag {
      i := 0;
      NothingToTrimIsUntrimmable(ms[1..]);
    } else {
      var k := OnlyOne(ms[1..]);
      i := k + 1;
      assert ms[..i] + ms[i + 1..] == [ms[0]] + (ms[1..][..k] + ms[1..][k + 1..]);
    }
  }
}
