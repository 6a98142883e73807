/** What a packing leaves of a stored history, said of the messages themselves: where it is cut,
    what stands for the part before the cut, what is dropped and truncated, and what is reported. */
module CheckpointShape {
  import opened Text
  import opened Messages
  import opened CheckpointTrim
  import opened CheckpointStore
  import opened CheckpointPack

  // ----- the cut -----

  /** The positions of the user messages from k on. */
  function UsersFrom(ms: seq<Message>, k: nat): set<nat> {
    set i: nat | k <= i < |ms| && ms[i].Human?
  }

  /** From k on, beginning with a user message, there are exactly n user messages. */
  predicate StartsLastTurns(ms: seq<Message>, n: int, k: nat) {
    0 < k < |ms| && ms[k].Human? && |UsersFrom(ms, k)| == n
  }

  function Turns(policy: PackPolicy): int {
    if policy.keepRecentTurns > 1 then policy.keepRecentTurns else 1
  }

  lemma UsersFromSnoc(ms: seq<Message>, k: nat)
    requires k < |ms|
    ensures |UsersFrom(ms, k)| == |UsersFrom(ms[..|ms| - 1], k)| + if ms[|ms| - 1].Human? then 1 else 0
  {
    var last := |ms| - 1;
    assert UsersFrom(ms, k) == UsersFrom(ms[..last], k) + if ms[last].Human? then {last} else {};
  }

  lemma {:induction false} UsersCounted(ms: seq<Message>)
    ensures |UserIndices(ms)| == |UsersFrom(ms, 0)| && |UserIndices(ms)| <= |ms|
  {
    if ms != [] {
      UsersCounted(ms[..|ms| - 1]);
      UsersFromSnoc(ms, 0);
    }
  }

  lemma {:induction false} UserIndexAt(ms: seq<Message>, k: nat)
    requires k < |UserIndices(ms)|
    ensures k <= UserIndices(ms)[k] < |ms| && ms[UserIndices(ms)[k]].Human?
    ensures |UsersFrom(ms, UserIndices(ms)[k])| == |UserIndices(ms)| - k
  {
    var front := ms[..|ms| - 1];
    if k < |UserIndices(front)| {
      UserIndexAt(front, k);
      UsersFromSnoc(ms, UserIndices(front)[k]);
    } else {
      UsersCounted(front);
      assert UsersFrom(front, |front|) == {};
      UsersFromSnoc(ms, |front|);
    }
  }

  /** The list is cut in front of the oldest turn that is kept, or not at all. */
  lemma SplitStartsLastTurns(ms: seq<Message>, policy: PackPolicy)
    ensures if |UsersFrom(ms, 0)| > Turns(policy) then StartsLastTurns(ms, Turns(policy), SplitIndex(ms, policy.KeepTurns()))
            else SplitIndex(ms, policy.KeepTurns()) == 0
  {
    UsersCounted(ms);
    if |UsersFrom(ms, 0)| > Turns(policy) {
      UserIndexAt(ms, |UserIndices(ms)| - Turns(policy));
    }
  }

  // ----- the two summaries -----

  /** The list with everything before k replaced by one summary. */
  function SummaryThen(text: string, ms: seq<Message>, k: nat): seq<Message>
    requires k <= |ms|
  {
    [System("[CheckpointCompaction]" + "\n" + text)] + ms[k..]
  }

  /** The count-based compactor acts exactly on an uninterrupted thread that is longer than the
      threshold and has more user turns than are kept; it leaves a summary of everything before the
      oldest kept turn, then that turn and all that follows. */
  lemma CompactionShape(policy: PackPolicy, entries: seq<Stored>, interrupted: bool) returns (k: nat)
    requires AllIds(entries)
    ensures var ms := Bare(entries);
            && (CompactorActs(policy, entries, interrupted) <==>
                  policy.compactEnabled && !interrupted && |ms| > policy.compactThreshold && |UsersFrom(ms, 0)| > Turns(policy))
            && (CompactorActs(policy, entries, interrupted) ==>
                  && StartsLastTurns(ms, Turns(policy), k)
                  && Bare(CompactedEntries(policy, entries)) == SummaryThen(policy.compactorSummary(ms[..k]), ms, k)
                  && CompactionOf(policy, entries, interrupted)
                     == Compacted(|ms|, |ms| - k + 1, k, |ms| - k, |policy.compactorSummary(ms[..k])|))
            && (!CompactorActs(policy, entries, interrupted) ==>
                  CompactionOf(policy, entries, interrupted) ==
                    if !policy.compactEnabled then Idle("disabled", None, None)
                    else if interrupted then Idle("has_interrupt", None, None)
                    else if |ms| <= policy.compactThreshold then Idle("below_threshold", Some(|ms|), Some(policy.compactThreshold))
                    else Idle("nothing_to_compact", Some(|ms|), None))
  {
    var ms := Bare(entries);
    SplitStartsLastTurns(ms, policy);
    k := SplitIndex(ms, policy.KeepTurns());
    CompactedIsExact(policy, entries);
  }

  /** A packing that is not over early summarises exactly when more user turns are stored than are
      kept and the history is over its share. Then the prefix lives on as one summary, which heads
      the final list; the rest is what the two loops leave of it. Otherwise the loops start from the
      stored list itself. */
  lemma SummaryShape(policy: PackPolicy, entries: seq<Stored>, interrupted: bool, maxTotal: int, newTurn: nat, persist: bool)
    returns (k: nat)
    requires persist ==> AllIds(entries)
    ensures var out := Outcome(policy, entries, interrupted, maxTotal, newTurn, persist);
            var ms := BudgetStart(policy, entries, interrupted, persist);
            PastEarlyReturns(out) ==>
              if |UsersFrom(ms, 0)| > Turns(policy) && TotalChars(ms) > maxTotal - newTurn && TotalChars(ms) > 0 then
                && StartsLastTurns(ms, Turns(policy), k)
                && out.messages == Trim(SummaryThen(policy.budgetSummary(ms[..k]), ms, k), newTurn, maxTotal)
                && out.messages != [] && out.messages[0] == System("[CheckpointCompaction]" + "\n" + policy.budgetSummary(ms[..k]))
              else out.messages == Trim(ms, newTurn, maxTotal)
  {
    k := SummarisedShape(policy, BudgetStart(policy, entries, interrupted, persist), maxTotal, newTurn);
    PackClosedForm(policy, entries, interrupted, maxTotal, newTurn, persist);
  }

  lemma SummarisedShape(policy: PackPolicy, ms: seq<Message>, maxTotal: int, newTurn: nat) returns (k: nat)
    ensures var out := Summarised(policy, ms, maxTotal, newTurn);
            if |UsersFrom(ms, 0)| > Turns(policy) && TotalChars(ms) > maxTotal - newTurn && TotalChars(ms) > 0 then
              && StartsLastTurns(ms, Turns(policy), k) && out == SummaryThen(policy.budgetSummary(ms[..k]), ms, k)
              && Trim(out, newTurn, maxTotal) != [] && Trim(out, newTurn, maxTotal)[0] == out[0]
            else out == ms
  {
    SplitStartsLastTurns(ms, policy);
    k := SplitIndex(ms, policy.KeepTurns());
    assert COMPACTION_PREFIX == "[CheckpointCompaction]";
    if k > 0 {
      TrimKeepsHead(SummaryThen(policy.budgetSummary(ms[..k]), ms, k), newTurn, maxTotal);
    }
  }

  lemma TrimKeepsHead(ms: seq<Message>, newTurn: nat, maxTotal: int)
    requires ms != [] && Protected(ms[0])
    ensures Trim(ms, newTurn, maxTotal) != [] && Trim(ms, newTurn, maxTotal)[0] == ms[0]
  {
    TruncateKeepsHead(DropPhase(ms, newTurn, maxTotal), newTurn, maxTotal);
  }

  lemma {:induction false} TruncateKeepsHead(ms: seq<Message>, newTurn: nat, maxTotal: int)
    requires ms != [] && Protected(ms[0])
    ensures TruncatePhase(ms, newTurn, maxTotal) != [] && TruncatePhase(ms, newTurn, maxTotal)[0] == ms[0]
    decreases TotalChars(ms)
  {
    if !Fits(ms, newTurn, maxTotal) && CanTruncate(ms) {
      TruncateOldestShrinks(ms);
      TruncateKeepsHead(TruncateOldest(ms), newTurn, maxTotal);
    }
  }

  // ----- what the loops drop and truncate -----

  predicate Untouchable(m: Message) {
    m.Human? || (m.System? && "[CheckpointCompaction]" <= m.content)
  }

  /** Filtering goes message by message. */
  lemma FilteredExactly(m: Message, rest: seq<Message>)
    ensures ProtectedOnly([m] + rest) == (if Untouchable(m) then [m] else []) + ProtectedOnly(rest)
    ensures TrimableOnly([m] + rest) == (if Untouchable(m) then [] else [m]) + TrimableOnly(rest)
    ensures ProtectedOnly([]) == [] && TrimableOnly([]) == []
  {
    FilterCons(m, rest);
  }

  /** Dropping k messages takes everything that may go out of a front part and leaves the rest of
      the list as it is. */
  lemma {:induction false} DropClearsFront(ms: seq<Message>, k: nat) returns (cut: nat)
    requires k <= |TrimableOnly(ms)|
    ensures cut <= |ms| && |TrimableOnly(ms[..cut])| == k
    ensures RemoveOldest(ms, k) == ProtectedOnly(ms[..cut]) + ms[cut..]
  {
    if k == 0 {
      cut := 0;
    } else {
      var tail := ms[1..];
      var rest := DropClearsFront(tail, if Protected(ms[0]) then k else k - 1);
      cut := rest + 1;
      assert ms[..cut] == [ms[0]] + tail[..rest] && ms[cut..] == tail[rest..];
      FilteredExactly(ms[0], tail[..rest]);
      assert RemoveOldest(ms, k) == (if Protected(ms[0]) then [ms[0]] else []) + (ProtectedOnly(tail[..rest]) + tail[rest..]);
    }
  }

  /** The list after t truncations. */
  function TruncatedTimes(ms: seq<Message>, t: nat): seq<Message>
    decreases t
  {
    if t == 0 then ms else TruncatedTimes(TruncateOldest(ms), t - 1)
  }

  lemma OneMoreTruncation(ms: seq<Message>, t: nat)
    ensures TruncatedTimes(ms, t) == if t == 0 then ms else TruncatedTimes(TruncateOldest(ms), t - 1)
  {
  }

  /** One truncation cuts the first message that is too long and may be touched to half its length,
      but not below eighty characters. */
  lemma OneTruncation(ms: seq<Message>) returns (i: nat)
    ensures i <= |ms| && forall j :: 0 <= j < i ==> Untouchable(ms[j]) || |ms[j].content| <= 120
    ensures i == |ms| ==> TruncateOldest(ms) == ms
    ensures i < |ms| ==>
              && !Untouchable(ms[i]) && |ms[i].content| > 120
              && |TruncateOldest(ms)| == |ms|
              && TruncateOldest(ms) == ms[i := TruncateOldest(ms)[i]]
              && TruncateOldest(ms)[i] == WithContent(ms[i], TruncateOldest(ms)[i].content)
              && CutText(ms[i].content, if |ms[i].content| < 160 then 80 else |ms[i].content| / 2, TruncateOldest(ms)[i].content)
  {
    i := 0;
    while i < |ms| && !Truncatable(ms[i])
      invariant i <= |ms| && forall j :: 0 <= j < i ==> !Truncatable(ms[j])
    {
      i := i + 1;
    }
    if i < |ms| {
      TruncateAtIndex(ms, i);
    } else {
      TruncateOldestShrinks(ms);
    }
  }

  /** The truncation loop goes on exactly while the list is too long and something can be cut: it
      stops after the least number of truncations that ends either. */
  lemma {:induction false} TruncationIsLeast(ms: seq<Message>, newTurn: nat, maxTotal: int)
    ensures IsLeastTruncation(ms, newTurn, maxTotal, TruncateCount(ms, newTurn, maxTotal), TruncatePhase(ms, newTurn, maxTotal))
    decreases TotalChars(ms)
  {
    TruncateOldestShrinks(ms);
    if !Fits(ms, newTurn, maxTotal) && CanTruncate(ms) {
      var next := TruncateOldest(ms);
      TruncationIsLeast(next, newTurn, maxTotal);
      LeastTruncationLater(ms, newTurn, maxTotal, TruncateCount(next, newTurn, maxTotal), TruncatePhase(next, newTurn, maxTotal));
    }
  }

  /** After t truncations the list fits or nothing can be cut, and before that it never fits. */
  ghost predicate IsLeastTruncation(ms: seq<Message>, newTurn: nat, maxTotal: int, t: nat, out: seq<Message>) {
    && out == TruncatedTimes(ms, t)
    && (TotalChars(out) + newTurn <= maxTotal || TruncateOldest(out) == out)
    && forall j: nat :: j < t ==> TotalChars(TruncatedTimes(ms, j)) + newTurn > maxTotal
  }

  lemma LeastTruncationLater(ms: seq<Message>, newTurn: nat, maxTotal: int, t: nat, out: seq<Message>)
    requires TotalChars(ms) + newTurn > maxTotal && IsLeastTruncation(TruncateOldest(ms), newTurn, maxTotal, t, out)
    ensures IsLeastTruncation(ms, newTurn, maxTotal, t + 1, out)
  {
    forall j: nat | j < t + 1 ensures TotalChars(TruncatedTimes(ms, j)) + newTurn > maxTotal {
      OneMoreTruncation(ms, j);
    }
  }

  /** Both loops together: first the least number of oldest messages is dropped with which the list
      fits, is a single message, or has nothing left to drop; then the least number of truncations
      is made. The labels tell the class of each dropped message, in order, and each truncation. */
  lemma LoopsShape(ms: seq<Message>, newTurn: nat, maxTotal: int) returns (k: nat, t: nat)
    ensures k <= |TrimableOnly(ms)|
    ensures forall j: nat :: j < k ==>
              TotalChars(RemoveOldest(ms, j)) + newTurn > maxTotal && |RemoveOldest(ms, j)| > 1
    ensures var dropped := RemoveOldest(ms, k);
            && (TotalChars(dropped) + newTurn <= maxTotal || |dropped| <= 1 || forall m :: m in dropped ==> Untouchable(m))
            && Trim(ms, newTurn, maxTotal) == TruncatedTimes(dropped, t)
            && (forall j: nat :: j < t ==> TotalChars(TruncatedTimes(dropped, j)) + newTurn > maxTotal)
    ensures LabelsTell(TrimSteps(ms, newTurn, maxTotal), TrimableOnly(ms)[..k], t)
  {
    k := DropCount(ms, newTurn, maxTotal);
    t := TruncateCount(DropPhase(ms, newTurn, maxTotal), newTurn, maxTotal);
    TruncationIsLeast(DropPhase(ms, newTurn, maxTotal), newTurn, maxTotal);
    StepsTell(TrimableOnly(ms)[..k], t);
  }

  function DropLabel(m: Message): string {
    match m
    case AI(_, _) => "dropped_aimessage"
    case Tool(_, _, _) => "dropped_toolmessage"
    case System(_) => "dropped_systemmessage"
    case Human(_) => "dropped_humanmessage"
  }

  predicate LabelsTell(steps: seq<string>, dropped: seq<Message>, truncations: nat) {
    && |steps| == |dropped| + truncations
    && (forall i :: 0 <= i < |dropped| ==> steps[i] == DropLabel(dropped[i]))
    && (forall i :: |dropped| <= i < |steps| ==> steps[i] == "truncated_old_message")
  }

  lemma StepsTell(dropped: seq<Message>, t: nat)
    ensures LabelsTell(DropSteps(dropped) + TruncateSteps(t), dropped, t)
  {
    assert "dropped_" + "aimessage" == "dropped_aimessage" && "dropped_" + "toolmessage" == "dropped_toolmessage";
    assert "dropped_" + "systemmessage" == "dropped_systemmessage" && "dropped_" + "humanmessage" == "dropped_humanmessage";
  }

  // ----- the report -----

  /** Reason, flags and target of every report. */
  lemma ReportShape(policy: PackPolicy, entries: seq<Stored>, interrupted: bool, maxTotal: int, newTurn: nat, persist: bool)
    requires persist ==> AllIds(entries)
    ensures var out := Outcome(policy, entries, interrupted, maxTotal, newTurn, persist);
            var r := out.report;
            && (r.reason == "disabled" <==> !policy.packEnabled || maxTotal <= 0)
            && (r.reason == "within_budget" <==>
                  policy.packEnabled && maxTotal > 0 && TotalChars(Bare(entries)) + newTurn <= maxTotal)
            && (r.reason == "compactor" ==> r.compactor.Some? && r.compactor.value.Compacted? && persist
                                            && r.steps == ["checkpoint_compactor"])
            && r.reason in {"disabled", "within_budget", "compactor", "char_budget", "nothing_to_trim"}
            && (r.compacted <==> r.reason == "compactor" || r.reason == "char_budget")
            && (r.compacted <==> r.steps != [])
            && (r.persisted <==> persist && r.compacted)
            && r.newTurnChars == newTurn && r.messageCount == |out.messages| && r.checkpointChars == TotalChars(out.messages)
            && (r.reason == "char_budget" || r.reason == "nothing_to_trim" ==>
                  r.targetChars == Some(if maxTotal > newTurn then maxTotal - newTurn else 0))
  {
    OutcomeCases(policy, entries, interrupted, maxTotal, newTurn, persist);
  }
}
