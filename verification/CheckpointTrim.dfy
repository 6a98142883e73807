/** The two shrinking loops of the checkpoint packer: drop the oldest trimable
    messages, then halve what is left. */
module CheckpointTrim {
  import opened Text
  import opened Messages

  const COMPACTION_PREFIX := "[CheckpointCompaction]"
  const TRUNCATE_ABOVE := 120

  predicate IsCompactionSummary(m: Message) {
    m.System? && COMPACTION_PREFIX <= m.content
  }

  /** User messages and compaction summaries are never dropped or shortened. */
  predicate Protected(m: Message) {
    m.Human? || IsCompactionSummary(m)
  }

  predicate AllProtected(ms: seq<Message>) {
    forall m :: m in ms ==> Protected(m)
  }

  function ProtectedOnly(ms: seq<Message>): seq<Message> {
    if ms == [] then []
    else (if Protected(ms[0]) then [ms[0]] else []) + ProtectedOnly(ms[1..])
  }

  function TrimableOnly(ms: seq<Message>): seq<Message> {
    if ms == [] then []
    else (if Protected(ms[0]) then [] else [ms[0]]) + TrimableOnly(ms[1..])
  }

  predicate Fits(ms: seq<Message>, newTurn: nat, maxTotal: int) {
    TotalChars(ms) + newTurn <= maxTotal
  }

  // ----- dropping -----

  /** The list without its k oldest trimable messages. */
  function RemoveOldest(ms: seq<Message>, k: nat): seq<Message> {
    if k == 0 || ms == [] then ms
    else if Protected(ms[0]) then [ms[0]] + RemoveOldest(ms[1..], k)
    else RemoveOldest(ms[1..], k - 1)
  }

  predicate DropStops(ms: seq<Message>, newTurn: nat, maxTotal: int) {
    Fits(ms, newTurn, maxTotal) || |ms| <= 1 || AllProtected(ms)
  }

  /** k is the least number of oldest trimable messages whose removal lets the loop stop. */
  ghost predicate IsLeastDrop(ms: seq<Message>, newTurn: nat, maxTotal: int, k: nat) {
    && k <= |TrimableOnly(ms)|
    && DropStops(RemoveOldest(ms, k), newTurn, maxTotal)
    && forall j: nat :: j < k ==> !DropStops(RemoveOldest(ms, j), newTurn, maxTotal)
  }

  function DropSteps(dropped: seq<Message>): seq<string> {
    seq(|dropped|, i requires 0 <= i < |dropped| => "dropped_" + ClassName(dropped[i]))
  }

  lemma {:induction false} AllProtectedIffNoTrimable(ms: seq<Message>)
    ensures AllProtected(ms) <==> TrimableOnly(ms) == []
  {
    if ms != [] {
      AllProtectedIffNoTrimable(ms[1..]);
      assert ms == [ms[0]] + ms[1..];
    }
  }

  lemma FilterCons(m: Message, rest: seq<Message>)
    ensures ProtectedOnly([m] + rest) == (if Protected(m) then [m] else []) + ProtectedOnly(rest)
    ensures TrimableOnly([m] + rest) == (if Protected(m) then [] else [m]) + TrimableOnly(rest)
  {
    assert ([m] + rest)[1..] == rest;
  }

  /** What k removals take away, what they leave, and that they compose one at a time. */
  lemma {:induction false} RemoveOldestParts(ms: seq<Message>, k: nat)
    requires k <= |TrimableOnly(ms)|
    ensures TrimableOnly(RemoveOldest(ms, k)) == TrimableOnly(ms)[k..]
    ensures ProtectedOnly(RemoveOldest(ms, k)) == ProtectedOnly(ms)
    ensures |RemoveOldest(ms, k)| == |ms| - k
    ensures RemoveOldest(RemoveOldest(ms, k), 1) == RemoveOldest(ms, k + 1)
  {
    if k == 0 || ms == [] {
    } else if Protected(ms[0]) {
      RemoveOldestParts(ms[1..], k);
      var r := RemoveOldest(ms[1..], k);
      FilterCons(ms[0], r);
      assert ([ms[0]] + r)[1..] == r;
    } else {
      RemoveOldestParts(ms[1..], k - 1);
      assert TrimableOnly(ms)[k..] == TrimableOnly(ms[1..])[k - 1..];
    }
  }

  /** Popping the first trimable index is removing the oldest trimable message. */
  lemma {:induction false} PopIsRemoveOldest(ms: seq<Message>, i: nat)
    requires i < |ms| && !Protected(ms[i])
    requires forall j :: 0 <= j < i ==> Protected(ms[j])
    ensures RemoveOldest(ms, 1) == ms[..i] + ms[i + 1..]
    ensures TrimableOnly(ms) != [] && TrimableOnly(ms)[0] == ms[i]
  {
    if i > 0 {
      PopIsRemoveOldest(ms[1..], i - 1);
      assert ms[..i] + ms[i + 1..] == [ms[0]] + (ms[1..][..i - 1] + ms[1..][i..]);
    }
  }

  /** Pops the first message that is neither a user message nor a compaction summary. */
  method DropOldestTrimable(ms: seq<Message>) returns (rest: seq<Message>, dropped: Option<string>)
    ensures dropped.None? <==> AllProtected(ms)
    ensures dropped.None? ==> rest == ms
    ensures dropped.Some? ==>
              && rest == RemoveOldest(ms, 1)
              && TrimableOnly(ms) != [] && dropped.value == ClassName(TrimableOnly(ms)[0])
  {
    var i := 0;
    while i < |ms|
      invariant 0 <= i <= |ms|
      invariant forall j :: 0 <= j < i ==> Protected(ms[j])
    {
      if !Protected(ms[i]) {
        PopIsRemoveOldest(ms, i);
        return ms[..i] + ms[i + 1..], Some(ClassName(ms[i]));
      }
      i := i + 1;
    }
    return ms, None;
  }

  /** The least drop count, found by trying 0, 1, 2, ... */
  function DropCountFrom(ms: seq<Message>, newTurn: nat, maxTotal: int, from: nat): (k: nat)
    requires from <= |TrimableOnly(ms)|
    requires forall j: nat :: j < from ==> !DropStops(RemoveOldest(ms, j), newTurn, maxTotal)
    ensures IsLeastDrop(ms, newTurn, maxTotal, k)
    decreases |TrimableOnly(ms)| - from
  {
    RemoveOldestParts(ms, from);
    AllProtectedIffNoTrimable(RemoveOldest(ms, from));
    if DropStops(RemoveOldest(ms, from), newTurn, maxTotal) then from
    else DropCountFrom(ms, newTurn, maxTotal, from + 1)
  }

  function DropCount(ms: seq<Message>, newTurn: nat, maxTotal: int): (k: nat)
    ensures IsLeastDrop(ms, newTurn, maxTotal, k)
  {
    DropCountFrom(ms, newTurn, maxTotal, 0)
  }

  function DropPhase(ms: seq<Message>, newTurn: nat, maxTotal: int): seq<Message> {
    RemoveOldest(ms, DropCount(ms, newTurn, maxTotal))
  }

  /** The drop loop removes exactly the least sufficient number of oldest trimable messages. */
  method DropLoop(ms: seq<Message>, newTurn: nat, maxTotal: int, startChars: nat)
    returns (working: seq<Message>, steps: seq<string>, chars: nat)
    requires startChars == TotalChars(ms)
    ensures working == DropPhase(ms, newTurn, maxTotal)
    ensures steps == DropSteps(TrimableOnly(ms)[..DropCount(ms, newTurn, maxTotal)])
    ensures chars == TotalChars(working)
  {
    working, steps, chars := ms, [], startChars;
    ghost var k := 0;
    while chars + newTurn > maxTotal && |working| > 1
      invariant k <= |TrimableOnly(ms)|
      invariant working == RemoveOldest(ms, k)
      invariant chars == TotalChars(working)
      invariant steps == DropSteps(TrimableOnly(ms)[..k])
      invariant forall j: nat :: j < k ==> !DropStops(RemoveOldest(ms, j), newTurn, maxTotal)
      decreases |TrimableOnly(ms)| - k
    {
      RemoveOldestParts(ms, k);
      AllProtectedIffNoTrimable(working);
      var rest, dropped := DropOldestTrimable(working);
      if dropped.None? {
        break;
      }
      assert TrimableOnly(ms)[..k + 1] == TrimableOnly(ms)[..k] + [TrimableOnly(ms)[k]];
      working, steps := rest, steps + ["dropped_" + dropped.value];
      chars := TotalChars(working);
      k := k + 1;
    }
    assert IsLeastDrop(ms, newTurn, maxTotal, k);
    assert k == DropCount(ms, newTurn, maxTotal);
  }

  // ----- truncating -----

  predicate Truncatable(m: Message) {
    !Protected(m) && |m.content| > TRUNCATE_ABOVE
  }

  predicate CanTruncate(ms: seq<Message>) {
    exists m :: m in ms && Truncatable(m)
  }

  /** The text cut three characters short of the limit, without blanks at its end, with dots behind. */
  predicate CutText(content: string, limit: nat, r: string) {
    && 3 <= |r| <= limit <= |content|
    && r == content[..|r| - 3] + "..."
    && (|r| > 3 ==> !IsSpace(content[|r| - 4]))
    && forall i :: |r| - 3 <= i < limit - 3 ==> IsSpace(content[i])
  }

  function TruncatedContent(content: string): (r: string)
    requires |content| > TRUNCATE_ABOVE
    ensures |r| < |content|
    ensures |r| <= 80 || 2 * |r| <= |content|
    ensures CutText(content, if |content| < 160 then 80 else |content| / 2, r)
  {
    var half := |content| / 2;
    var target := if 80 >= half then 80 else half;
    Rstrip(content[..target - 3]) + "..."
  }

  /** A truncated message does not turn into a compaction summary. */
  lemma TruncatedStaysTrimable(m: Message)
    requires Truncatable(m)
    ensures !Protected(WithContent(m, TruncatedContent(m.content)))
  {
    var text := TruncatedContent(m.content);
    var kept := text[..|text| - 3];
    assert kept <= m.content;
    assert |kept| < |COMPACTION_PREFIX| ==> text[|kept|] == '.' && COMPACTION_PREFIX[|kept|] != '.';
  }

  function TruncateOldest(ms: seq<Message>): seq<Message> {
    if ms == [] then []
    else if Truncatable(ms[0]) then [WithContent(ms[0], TruncatedContent(ms[0].content))] + ms[1..]
    else [ms[0]] + TruncateOldest(ms[1..])
  }

  /** One truncation shortens the total and leaves every protected message alone. */
  lemma {:induction false} TruncateOldestShrinks(ms: seq<Message>)
    ensures |TruncateOldest(ms)| == |ms|
    ensures ProtectedOnly(TruncateOldest(ms)) == ProtectedOnly(ms)
    ensures AllProtected(ms) ==> AllProtected(TruncateOldest(ms))
    ensures if CanTruncate(ms) then TotalChars(TruncateOldest(ms)) < TotalChars(ms)
            else TruncateOldest(ms) == ms
  {
    if ms != [] {
      assert ms == [ms[0]] + ms[1..];
      if Truncatable(ms[0]) {
        TruncatedStaysTrimable(ms[0]);
        assert CanTruncate(ms);
      } else {
        TruncateOldestShrinks(ms[1..]);
        assert CanTruncate(ms) <==> CanTruncate(ms[1..]);
      }
    }
  }

  lemma {:induction false} TruncateAtIndex(ms: seq<Message>, i: nat)
    requires i < |ms| && Truncatable(ms[i])
    requires forall j :: 0 <= j < i ==> !Truncatable(ms[j])
    ensures TruncateOldest(ms) == ms[i := WithContent(ms[i], TruncatedContent(ms[i].content))]
  {
    if i > 0 {
      TruncateAtIndex(ms[1..], i - 1);
    }
  }

  /** Halves the content of the first truncatable message, if there is one. */
  method TruncateOldestNonUser(ms: seq<Message>) returns (rest: seq<Message>, changed: bool)
    ensures changed <==> CanTruncate(ms)
    ensures rest == TruncateOldest(ms)
  {
    var i := 0;
    while i < |ms|
      invariant 0 <= i <= |ms|
      invariant forall j :: 0 <= j < i ==> !Truncatable(ms[j])
    {
      if Truncatable(ms[i]) {
        var content := ms[i].content;
        var target := if 80 >= |content| / 2 then 80 else |content| / 2;
        TruncateAtIndex(ms, i);
        return ms[i := WithContent(ms[i], Rstrip(content[..target - 3]) + "...")], true;
      }
      i := i + 1;
    }
    TruncateOldestShrinks(ms);
    return ms, false;
  }

  /** How many truncations the loop performs. */
  function TruncateCount(ms: seq<Message>, newTurn: nat, maxTotal: int): nat
    decreases TotalChars(ms)
  {
    if Fits(ms, newTurn, maxTotal) || !CanTruncate(ms) then 0
    else
      TruncateOldestShrinks(ms);
      1 + TruncateCount(TruncateOldest(ms), newTurn, maxTotal)
  }

  function TruncatePhase(ms: seq<Message>, newTurn: nat, maxTotal: int): seq<Message>
    decreases TotalChars(ms)
  {
    if Fits(ms, newTurn, maxTotal) || !CanTruncate(ms) then ms
    else
      TruncateOldestShrinks(ms);
      TruncatePhase(TruncateOldest(ms), newTurn, maxTotal)
  }

  function TruncateSteps(n: nat): seq<string> {
    seq(n, _ => "truncated_old_message")
  }

  method TruncateLoop(ms: seq<Message>, newTurn: nat, maxTotal: int, startChars: nat)
    returns (working: seq<Message>, steps: seq<string>, chars: nat)
    requires startChars == TotalChars(ms)
    ensures working == TruncatePhase(ms, newTurn, maxTotal)
    ensures steps == TruncateSteps(TruncateCount(ms, newTurn, maxTotal))
    ensures chars == TotalChars(working)
  {
    working, steps, chars := ms, [], startChars;
    while chars + newTurn > maxTotal
      invariant chars == TotalChars(working)
      invariant TruncatePhase(working, newTurn, maxTotal) == TruncatePhase(ms, newTurn, maxTotal)
      invariant steps == TruncateSteps(|steps|)
      invariant |steps| + TruncateCount(working, newTurn, maxTotal) == TruncateCount(ms, newTurn, maxTotal)
      decreases TotalChars(working)
    {
      TruncateOldestShrinks(working);
      var rest, changed := TruncateOldestNonUser(working);
      if !changed {
        break;
      }
      working, steps := rest, steps + ["truncated_old_message"];
      chars := TotalChars(working);
    }
  }

  /** The truncation loop ends with a list that fits or in which nothing is long enough to
      shorten, and it never touches a user message or a compaction summary. */
  lemma {:induction false} TruncatePhaseExit(ms: seq<Message>, newTurn: nat, maxTotal: int)
    ensures var out := TruncatePhase(ms, newTurn, maxTotal);
            && (Fits(out, newTurn, maxTotal) || !CanTruncate(out))
            && |out| == |ms|
            && ProtectedOnly(out) == ProtectedOnly(ms)
            && (AllProtected(ms) ==> AllProtected(out))
            && (out == ms <==> TruncateCount(ms, newTurn, maxTotal) == 0)
            && TotalChars(out) + TruncateCount(ms, newTurn, maxTotal) <= TotalChars(ms)
    decreases TotalChars(ms)
  {
    if !Fits(ms, newTurn, maxTotal) && CanTruncate(ms) {
      TruncateOldestShrinks(ms);
      TruncatePhaseExit(TruncateOldest(ms), newTurn, maxTotal);
    }
  }

  function Pow2(n: nat): nat {
    if n == 0 then 1 else 2 * Pow2(n - 1)
  }

  lemma TruncateCountOfOne(m: Message, newTurn: nat, maxTotal: int)
    requires TruncateCount([m], newTurn, maxTotal) > 0
    ensures Truncatable(m)
    ensures var next := WithContent(m, TruncatedContent(m.content));
            TruncateCount([m], newTurn, maxTotal) == 1 + TruncateCount([next], newTurn, maxTotal)
  {
    assert TruncateOldest([m]) == [WithContent(m, TruncatedContent(m.content))];
  }

  /** Truncating one message t >= 1 times needs a message longer than 120 * 2^(t-1): the loop
      runs at most logarithmically often. */
  lemma {:induction false} TruncationsAreLogarithmic(m: Message, newTurn: nat, maxTotal: int)
    ensures var t := TruncateCount([m], newTurn, maxTotal);
            t >= 1 ==> TRUNCATE_ABOVE * Pow2(t - 1) < |m.content|
    decreases |m.content|
  {
    if TruncateCount([m], newTurn, maxTotal) > 0 {
      TruncateCountOfOne(m, newTurn, maxTotal);
      var next := WithContent(m, TruncatedContent(m.content));
      TruncationsAreLogarithmic(next, newTurn, maxTotal);
      var rest := TruncateCount([next], newTurn, maxTotal);
      if rest > 0 {
        TruncateCountOfOne(next, newTurn, maxTotal);
        assert Pow2(rest) == 2 * Pow2(rest - 1);
        assert 2 * |next.content| <= |m.content|;
      } else {
        assert Pow2(rest) == 1;
      }
    }
  }

  // ----- both loops in sequence -----

  function Trim(ms: seq<Message>, newTurn: nat, maxTotal: int): seq<Message> {
    TruncatePhase(DropPhase(ms, newTurn, maxTotal), newTurn, maxTotal)
  }

  function TrimSteps(ms: seq<Message>, newTurn: nat, maxTotal: int): seq<string> {
    DropSteps(TrimableOnly(ms)[..DropCount(ms, newTurn, maxTotal)])
    + TruncateSteps(TruncateCount(DropPhase(ms, newTurn, maxTotal), newTurn, maxTotal))
  }

  /** After the drop loop a truncation is possible only when one message is left, and t of them
      only when that message is longer than 120 * 2^(t-1). */
  lemma TruncationNeedsOneMessage(ms: seq<Message>, newTurn: nat, maxTotal: int)
    ensures var dropped := DropPhase(ms, newTurn, maxTotal);
            var t := TruncateCount(dropped, newTurn, maxTotal);
            t > 0 ==> |dropped| == 1 && TRUNCATE_ABOVE * Pow2(t - 1) < |dropped[0].content|
  {
    var dropped := DropPhase(ms, newTurn, maxTotal);
    if TruncateCount(dropped, newTurn, maxTotal) > 0 {
      assert |dropped| == 1 && dropped == [dropped[0]];
      TruncationsAreLogarithmic(dropped[0], newTurn, maxTotal);
    }
  }

  /** When the two loops end: the history fits beside the new turn, or only user messages and
      compaction summaries are left, or a single message of at most 120 characters. */
  lemma TrimExit(ms: seq<Message>, newTurn: nat, maxTotal: int)
    ensures var out := Trim(ms, newTurn, maxTotal);
            && (Fits(out, newTurn, maxTotal)
                || AllProtected(out)
                || (|out| == 1 && |out[0].content| <= TRUNCATE_ABOVE))
            && ProtectedOnly(out) == ProtectedOnly(ms)
            && TotalChars(out) <= TotalChars(ms)
            && (out == ms <==> TrimSteps(ms, newTurn, maxTotal) == [])
  {
    var k := DropCount(ms, newTurn, maxTotal);
    var dropped := DropPhase(ms, newTurn, maxTotal);
    RemoveOldestParts(ms, k);
    TruncatePhaseExit(dropped, newTurn, maxTotal);
    RemoveOldestChars(ms, k);
    var out := Trim(ms, newTurn, maxTotal);
    if |out| == 1 && !CanTruncate(out) {
      assert out[0] in out;
    }
  }

  lemma {:induction false} RemoveOldestChars(ms: seq<Message>, k: nat)
    ensures TotalChars(RemoveOldest(ms, k)) <= TotalChars(ms)
  {
    if k == 0 || ms == [] {
    } else if Protected(ms[0]) {
      RemoveOldestChars(ms[1..], k);
      assert ([ms[0]] + RemoveOldest(ms[1..], k))[1..] == RemoveOldest(ms[1..], k);
    } else {
      RemoveOldestChars(ms[1..], k - 1);
    }
  }
}
