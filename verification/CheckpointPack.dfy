/** Shrinking the stored history so that it fits beside the new turn, either for live or as a
    dry run that leaves the store alone. */
module CheckpointPack {
  import opened Text
  import opened Messages
  import opened CheckpointTrim
  import opened CheckpointStore

  /** Settings and memory policy. The two summary texts are arbitrary functions of the
      messages they replace. */
  datatype PackPolicy = PackPolicy(
    packEnabled: bool,
    compactEnabled: bool,
    compactThreshold: int,
    keepRecentTurns: int,
    compactorSummary: seq<Message> -> string,
    budgetSummary: seq<Message> -> string)
  {
    function KeepTurns(): (k: nat)
      ensures k >= 1
    {
      if keepRecentTurns >= 1 then keepRecentTurns else 1
    }
  }

  datatype PackReport = PackReport(
    compacted: bool,
    reason: string,
    persisted: bool,
    messageCount: nat,
    checkpointChars: nat,
    newTurnChars: nat,
    steps: seq<string>,
    targetChars: Option<int>,
    compactor: Option<Compaction>)

  /** What the count-based compactor reports: why it did nothing, or how many messages it turned
      into how long a summary. */
  datatype Compaction =
    | Idle(reason: string, messageCount: Option<nat>, threshold: Option<int>)
    | Compacted(beforeCount: nat, afterCount: nat, prefixCount: nat, keptCount: nat, summaryChars: nat)

  // ----- where the history is cut -----

  function UserIndices(ms: seq<Message>): seq<nat> {
    if ms == [] then []
    else
      var last := |ms| - 1;
      UserIndices(ms[..last]) + if ms[last].Human? then [last] else []
  }

  /** Everything before this index may be summarised; 0 when there is nothing to cut. */
  function SplitIndex(ms: seq<Message>, keepTurns: nat): (i: nat)
    requires keepTurns >= 1
    ensures i <= |ms|
  {
    var users := UserIndices(ms);
    OneUserIndexEach(ms);
    if |users| <= keepTurns then 0 else users[|users| - keepTurns]
  }

  function UsersOnly(ms: seq<Message>): seq<Message> {
    if ms == [] then []
    else (if ms[0].Human? then [ms[0]] else []) + UsersOnly(ms[1..])
  }

  lemma {:induction false} UsersOnlyConcat(a: seq<Message>, b: seq<Message>)
    ensures UsersOnly(a + b) == UsersOnly(a) + UsersOnly(b)
  {
    if a == [] {
      assert a + b == b;
    } else {
      UsersOnlyConcat(a[1..], b);
      assert (a + b)[0] == a[0] && (a + b)[1..] == a[1..] + b;
    }
  }

  /** The k-th user index points at the k-th user message: from there on the list holds
      exactly the user messages number k and later. */
  lemma {:induction false} UserIndicesAreUsers(ms: seq<Message>, k: nat)
    requires k < |UserIndices(ms)|
    ensures UserIndices(ms)[k] < |ms| && |UsersOnly(ms)| == |UserIndices(ms)|
    ensures UsersOnly(ms[UserIndices(ms)[k]..]) == UsersOnly(ms)[k..]
  {
    var front, tail := ms[..|ms| - 1], [ms[|ms| - 1]];
    assert ms == front + tail;
    UsersOnlyConcat(front, tail);
    OneUserIndexEach(front);
    OneUserIndexEach(ms);
    if k < |UserIndices(front)| {
      var i := UserIndices(front)[k];
      UserIndicesAreUsers(front, k);
      assert ms[i..] == front[i..] + tail;
      UsersOnlyConcat(front[i..], tail);
    } else {
      assert ms[|ms| - 1..] == tail;
    }
  }

  lemma {:induction false} OneUserIndexEach(ms: seq<Message>)
    ensures |UserIndices(ms)| == |UsersOnly(ms)|
    ensures forall k :: 0 <= k < |UserIndices(ms)| ==> UserIndices(ms)[k] < |ms|
  {
    if ms != [] {
      var front, tail := ms[..|ms| - 1], [ms[|ms| - 1]];
      OneUserIndexEach(front);
      assert ms == front + tail;
      UsersOnlyConcat(front, tail);
    }
  }

  /** The last n elements, or all when there are fewer. */
  function LastOf<T>(s: seq<T>, n: nat): seq<T> {
    if |s| <= n then s else s[|s| - n..]
  }

  /** The kept suffix holds exactly the last keepTurns user messages, or all when fewer. */
  lemma SplitKeepsRecentUsers(ms: seq<Message>, keepTurns: nat)
    requires keepTurns >= 1
    ensures UsersOnly(ms[SplitIndex(ms, keepTurns)..]) == LastOf(UsersOnly(ms), keepTurns)
  {
    var users, all := UserIndices(ms), UsersOnly(ms);
    var split := SplitIndex(ms, keepTurns);
    OneUserIndexEach(ms);
    if |users| <= keepTurns {
      assert split == 0 && ms[split..] == ms;
      assert LastOf(all, keepTurns) == all;
    } else {
      var k := |users| - keepTurns;
      assert split == users[k];
      UserIndicesAreUsers(ms, k);
      assert LastOf(all, keepTurns) == all[k..];
    }
  }

  method SplitMessages(ms: seq<Message>, keepTurns: nat) returns (prefix: seq<Message>, suffix: seq<Message>)
    requires keepTurns >= 1
    ensures prefix == ms[..SplitIndex(ms, keepTurns)] && suffix == ms[SplitIndex(ms, keepTurns)..]
  {
    var users: seq<nat> := [];
    for i := 0 to |ms|
      invariant users == UserIndices(ms[..i])
    {
      assert ms[..i + 1][..i] == ms[..i];
      if ms[i].Human? {
        users := users + [i];
      }
    }
    assert ms[..|ms|] == ms;
    OneUserIndexEach(ms);
    if |users| <= keepTurns {
      prefix, suffix := [], ms;
    } else {
      var split := users[|users| - keepTurns];
      prefix, suffix := ms[..split], ms[split..];
    }
  }

  function SummaryMessage(summary: string): Message {
    System(COMPACTION_PREFIX + "\n" + summary)
  }

  // ----- the stages of one packing -----

  predicate CompactorActs(policy: PackPolicy, entries: seq<Stored>, interrupted: bool) {
    && policy.compactEnabled
    && !interrupted
    && |entries| > policy.compactThreshold
    && SplitIndex(Bare(entries), policy.KeepTurns()) > 0
  }

  function CompactedEntries(policy: PackPolicy, entries: seq<Stored>): seq<Stored> {
    var ms := Bare(entries);
    var split := SplitIndex(ms, policy.KeepTurns());
    Replaced(entries, [Stored("", SummaryMessage(policy.compactorSummary(ms[..split])))] + entries[split..])
  }

  function CompactionOf(policy: PackPolicy, entries: seq<Stored>, interrupted: bool): Compaction {
    var ms := Bare(entries);
    var split := SplitIndex(ms, policy.KeepTurns());
    if !policy.compactEnabled then Idle("disabled", None, None)
    else if interrupted then Idle("has_interrupt", None, None)
    else if |ms| <= policy.compactThreshold then Idle("below_threshold", Some(|ms|), Some(policy.compactThreshold))
    else if split == 0 then Idle("nothing_to_compact", Some(|ms|), None)
    else Compacted(|ms|, |CompactedEntries(policy, entries)|, split, |ms| - split, |policy.compactorSummary(ms[..split])|)
  }

  function TargetChars(maxTotal: int, newTurn: nat): nat {
    if maxTotal - newTurn >= 0 then maxTotal - newTurn else 0
  }

  predicate Summarises(policy: PackPolicy, ms: seq<Message>, maxTotal: int, newTurn: nat) {
    SplitIndex(ms, policy.KeepTurns()) > 0 && TotalChars(ms) > TargetChars(maxTotal, newTurn)
  }

  /** The list after the prefix has been replaced by a summary, if it is. */
  function Summarised(policy: PackPolicy, ms: seq<Message>, maxTotal: int, newTurn: nat): seq<Message> {
    if Summarises(policy, ms, maxTotal, newTurn) then
      var split := SplitIndex(ms, policy.KeepTurns());
      [SummaryMessage(policy.budgetSummary(ms[..split]))] + ms[split..]
    else ms
  }

  /** What a packing returns, what it leaves in the store, and the list it reports on. */
  datatype PackOutcome = PackOutcome(report: PackReport, entries: seq<Stored>, messages: seq<Message>)

  function Unpacked(entries: seq<Stored>, reason: string, newTurn: nat): PackOutcome {
    var ms := Bare(entries);
    PackOutcome(PackReport(false, reason, false, |ms|, TotalChars(ms), newTurn, [], None, None), entries, ms)
  }

  /** A point between two stages: the store, the working list and the step labels so far. */
  datatype Stage = Stage(entries: seq<Stored>, messages: seq<Message>, steps: seq<string>)

  function SummaryStage(policy: PackPolicy, entries: seq<Stored>, before: seq<string>,
                        maxTotal: int, newTurn: nat, persist: bool): Stage
  {
    var ms := Bare(entries);
    if !Summarises(policy, ms, maxTotal, newTurn) then Stage(entries, ms, before)
    else
      var summarised := Summarised(policy, ms, maxTotal, newTurn);
      var steps := before + ["summarized_prefix"];
      if persist then
        var entries2 := Replaced(entries, WithoutIds(summarised));
        Stage(entries2, Bare(entries2), steps)
      else Stage(entries, summarised, steps)
  }

  function TrimStage(stage: Stage, maxTotal: int, newTurn: nat, persist: bool): Stage {
    var trimSteps := TrimSteps(stage.messages, newTurn, maxTotal);
    if trimSteps == [] then stage
    else
      var working := Trim(stage.messages, newTurn, maxTotal);
      if persist then
        var entries3 := Replaced(stage.entries, WithoutIds(working));
        Stage(entries3, Bare(entries3), stage.steps + trimSteps)
      else Stage(stage.entries, working, stage.steps + trimSteps)
  }

  function Finished(stage: Stage, maxTotal: int, newTurn: nat, persist: bool): PackOutcome {
    var compacted := stage.steps != [];
    PackOutcome(
      PackReport(compacted, if compacted then "char_budget" else "nothing_to_trim", persist && compacted,
                 |stage.messages|, TotalChars(stage.messages), newTurn, stage.steps,
                 Some(TargetChars(maxTotal, newTurn)), None),
      stage.entries, stage.messages)
  }

  function BudgetStage(policy: PackPolicy, entries: seq<Stored>, before: seq<string>,
                       maxTotal: int, newTurn: nat, persist: bool): PackOutcome
  {
    var summarised := SummaryStage(policy, entries, before, maxTotal, newTurn, persist);
    Finished(TrimStage(summarised, maxTotal, newTurn, persist), maxTotal, newTurn, persist)
  }

  function EarlyReason(policy: PackPolicy, maxTotal: int): string {
    if !policy.packEnabled || maxTotal <= 0 then "disabled" else "within_budget"
  }

  predicate Early(policy: PackPolicy, entries: seq<Stored>, maxTotal: int, newTurn: nat) {
    !policy.packEnabled || maxTotal <= 0 || Fits(Bare(entries), newTurn, maxTotal)
  }

  function CompactorOutcome(entries: seq<Stored>, newTurn: nat, result: Compaction): PackOutcome {
    var ms := Bare(entries);
    PackOutcome(PackReport(true, "compactor", true, |ms|, TotalChars(ms), newTurn, ["checkpoint_compactor"], None, Some(result)),
                entries, ms)
  }

  function Outcome(policy: PackPolicy, entries: seq<Stored>, interrupted: bool,
                   maxTotal: int, newTurn: nat, persist: bool): PackOutcome
  {
    if Early(policy, entries, maxTotal, newTurn) then
      Unpacked(entries, EarlyReason(policy, maxTotal), newTurn)
    else if persist && CompactorActs(policy, entries, interrupted) then
      var compacted := CompactedEntries(policy, entries);
      if Fits(Bare(compacted), newTurn, maxTotal) then CompactorOutcome(compacted, newTurn, CompactionOf(policy, entries, interrupted))
      else BudgetStage(policy, compacted, ["checkpoint_compactor"], maxTotal, newTurn, persist)
    else BudgetStage(policy, entries, [], maxTotal, newTurn, persist)
  }

  // ----- the methods -----

  /** Compacts the stored history by message count and reports what it did. */
  method CompactIfNeeded(store: Store, policy: PackPolicy) returns (result: Compaction)
    modifies store`entries
    ensures result == CompactionOf(policy, old(store.entries), old(store.interrupted))
    ensures result.Compacted? <==> CompactorActs(policy, old(store.entries), old(store.interrupted))
    ensures store.entries == if result.Compacted? then CompactedEntries(policy, old(store.entries)) else old(store.entries)
  {
    if !policy.compactEnabled {
      return Idle("disabled", None, None);
    }
    if store.interrupted {
      return Idle("has_interrupt", None, None);
    }
    var entries := store.entries;
    if |entries| <= policy.compactThreshold {
      return Idle("below_threshold", Some(|entries|), Some(policy.compactThreshold));
    }
    var prefix, suffix := SplitMessages(Bare(entries), policy.KeepTurns());
    if prefix == [] {
      return Idle("nothing_to_compact", Some(|entries|), None);
    }
    var summary := policy.compactorSummary(prefix);
    store.Update(RemovalIds(entries), [Stored("", SummaryMessage(summary))] + entries[|prefix|..]);
    return Compacted(|entries|, |store.entries|, |prefix|, |suffix|, |summary|);
  }

  method PersistCheckpointMessages(store: Store, prior: seq<Stored>, updated: seq<Message>)
    modifies store`entries
    ensures store.entries == Updated(old(store.entries), RemovalIds(prior), WithoutIds(updated))
  {
    store.Update(RemovalIds(prior), WithoutIds(updated));
  }

  /** Replaces the prefix by a summary when the history is over its share of the budget. */
  method SummarisePrefix(store: Store, policy: PackPolicy, before: seq<string>,
                         maxTotal: int, newTurn: nat, persist: bool)
    returns (messages: seq<Message>, steps: seq<string>)
    modifies store`entries
    ensures Stage(store.entries, messages, steps)
            == SummaryStage(policy, old(store.entries), before, maxTotal, newTurn, persist)
  {
    messages, steps := Bare(store.entries), before;
    var chars := TotalChars(messages);
    var target := if maxTotal - newTurn >= 0 then maxTotal - newTurn else 0;
    var prefix, suffix := SplitMessages(messages, policy.KeepTurns());
    if prefix != [] && chars > target {
      var updated := [SummaryMessage(policy.budgetSummary(prefix))] + suffix;
      if persist {
        PersistCheckpointMessages(store, store.entries, updated);
      }
      steps := steps + ["summarized_prefix"];
      messages := if persist then Bare(store.entries) else updated;
    }
  }

  /** Runs the two loops on the working list and writes the result back if anything changed. */
  method TrimToBudget(store: Store, prior: seq<Message>, before: seq<string>,
                      maxTotal: int, newTurn: nat, persist: bool)
    returns (messages: seq<Message>, steps: seq<string>)
    requires persist ==> prior == Bare(store.entries)
    modifies store`entries
    ensures Stage(store.entries, messages, steps)
            == TrimStage(Stage(old(store.entries), prior, before), maxTotal, newTurn, persist)
  {
    messages := prior;
    var working, dropSteps, chars := DropLoop(prior, newTurn, maxTotal, TotalChars(prior));
    var truncSteps;
    working, truncSteps, chars := TruncateLoop(working, newTurn, maxTotal, chars);
    var loopSteps := dropSteps + truncSteps;
    assert loopSteps == TrimSteps(prior, newTurn, maxTotal);
    var changed := loopSteps != [];
    steps := before + loopSteps;
    if changed && persist {
      PersistCheckpointMessages(store, store.entries, working);
    } else if changed {
      messages := working;
    }
    messages := if persist then Bare(store.entries) else messages;
  }

  /** Packs the checkpoint for a character budget; with persist off the store is only read. */
  method PackCheckpointForBudget(store: Store, policy: PackPolicy, maxTotal: int, newTurn: nat, persist: bool)
    returns (report: PackReport, final: seq<Message>)
    modifies store`entries
    ensures var out := Outcome(policy, old(store.entries), old(store.interrupted), maxTotal, newTurn, persist);
            report == out.report && store.entries == out.entries && final == out.messages
  {
    var messages := Bare(store.entries);
    var chars := TotalChars(messages);
    if !policy.packEnabled || maxTotal <= 0 {
      return PackReport(false, "disabled", false, |messages|, chars, newTurn, [], None, None), messages;
    }
    if chars + newTurn <= maxTotal {
      return PackReport(false, "within_budget", false, |messages|, chars, newTurn, [], None, None), messages;
    }
    var steps: seq<string> := [];
    if persist && policy.compactEnabled && |messages| > policy.compactThreshold {
      var result := CompactIfNeeded(store, policy);
      if result.Compacted? {
        steps := ["checkpoint_compactor"];
        messages := Bare(store.entries);
        chars := TotalChars(messages);
        if chars + newTurn <= maxTotal {
          return PackReport(true, "compactor", true, |messages|, chars, newTurn, steps, None, Some(result)), messages;
        }
      }
    }
    ghost var out := BudgetStage(policy, store.entries, steps, maxTotal, newTurn, persist);
    assert out == Outcome(policy, old(store.entries), old(store.interrupted), maxTotal, newTurn, persist);
    messages, steps := SummarisePrefix(store, policy, steps, maxTotal, newTurn, persist);
    messages, steps := TrimToBudget(store, messages, steps, maxTotal, newTurn, persist);
    chars := TotalChars(messages);
    var target := if maxTotal - newTurn >= 0 then maxTotal - newTurn else 0;
    report := PackReport(steps != [], if steps != [] then "char_budget" else "nothing_to_trim",
                         persist && steps != [], |messages|, chars, newTurn, steps, Some(target), None);
    final := messages;
  }

  // ----- what a packing guarantees -----

  predicate PastEarlyReturns(out: PackOutcome) {
    out.report.reason == "char_budget" || out.report.reason == "nothing_to_trim"
  }

  /** The stored list that the budget stage starts from. */
  function BudgetStart(policy: PackPolicy, entries: seq<Stored>, interrupted: bool, persist: bool): seq<Message> {
    if persist && CompactorActs(policy, entries, interrupted)
    then Bare(CompactedEntries(policy, entries))
    else Bare(entries)
  }

  ghost predicate StageForm(policy: PackPolicy, entries: seq<Stored>, before: seq<string>,
                            maxTotal: int, newTurn: nat, persist: bool, out: PackOutcome)
  {
    var summarised := Summarised(policy, Bare(entries), maxTotal, newTurn);
    && out.messages == Trim(summarised, newTurn, maxTotal)
    && out.report.steps == before
         + (if Summarises(policy, Bare(entries), maxTotal, newTurn) then ["summarized_prefix"] else [])
         + TrimSteps(summarised, newTurn, maxTotal)
    && out.report == PackReport(out.report.steps != [],
                                if out.report.steps != [] then "char_budget" else "nothing_to_trim",
                                persist && out.report.steps != [], |out.messages|, TotalChars(out.messages),
                                newTurn, out.report.steps, Some(TargetChars(maxTotal, newTurn)), None)
    && (if persist then Bare(out.entries) == out.messages && AllIds(out.entries) else out.entries == entries)
    && (out.report.steps == [] ==> out.entries == entries && out.messages == Bare(entries))
  }

  lemma SummaryStageForm(policy: PackPolicy, entries: seq<Stored>, before: seq<string>,
                         maxTotal: int, newTurn: nat, persist: bool)
    requires persist ==> AllIds(entries)
    ensures var stage := SummaryStage(policy, entries, before, maxTotal, newTurn, persist);
            var summarises := Summarises(policy, Bare(entries), maxTotal, newTurn);
            && stage.messages == Summarised(policy, Bare(entries), maxTotal, newTurn)
            && stage.steps == before + (if summarises then ["summarized_prefix"] else [])
            && (if persist then Bare(stage.entries) == stage.messages && AllIds(stage.entries)
                else stage.entries == entries)
            && (!summarises ==> stage.entries == entries)
  {
    ReplaceIsExact(entries, WithoutIds(Summarised(policy, Bare(entries), maxTotal, newTurn)));
  }

  lemma TrimStageForm(stage: Stage, maxTotal: int, newTurn: nat, persist: bool)
    requires persist ==> AllIds(stage.entries) && Bare(stage.entries) == stage.messages
    ensures var out := TrimStage(stage, maxTotal, newTurn, persist);
            && out.messages == Trim(stage.messages, newTurn, maxTotal)
            && out.steps == stage.steps + TrimSteps(stage.messages, newTurn, maxTotal)
            && (if persist then Bare(out.entries) == out.messages && AllIds(out.entries)
                else out.entries == stage.entries)
            && (TrimSteps(stage.messages, newTurn, maxTotal) == [] ==> out == stage)
  {
    TrimExit(stage.messages, newTurn, maxTotal);
    ReplaceIsExact(stage.entries, WithoutIds(Trim(stage.messages, newTurn, maxTotal)));
  }

  lemma BudgetStageClosedForm(policy: PackPolicy, entries: seq<Stored>, before: seq<string>,
                              maxTotal: int, newTurn: nat, persist: bool)
    requires persist ==> AllIds(entries)
    ensures StageForm(policy, entries, before, maxTotal, newTurn, persist,
                      BudgetStage(policy, entries, before, maxTotal, newTurn, persist))
  {
    SummaryStageForm(policy, entries, before, maxTotal, newTurn, persist);
    TrimStageForm(SummaryStage(policy, entries, before, maxTotal, newTurn, persist), maxTotal, newTurn, persist);
  }

  /** In a store that appends what it does not remove, a compaction leaves the summary in front of
      the untouched suffix. */
  lemma CompactedIsExact(policy: PackPolicy, entries: seq<Stored>)
    requires AllIds(entries)
    ensures AllIds(CompactedEntries(policy, entries))
    ensures var ms := Bare(entries);
            var split := SplitIndex(ms, policy.KeepTurns());
            && Bare(CompactedEntries(policy, entries))
               == [SummaryMessage(policy.compactorSummary(ms[..split]))] + ms[split..]
            && |CompactedEntries(policy, entries)| == |ms| - split + 1
  {
    var ms := Bare(entries);
    var split := SplitIndex(ms, policy.KeepTurns());
    var summary := SummaryMessage(policy.compactorSummary(ms[..split]));
    var added := [Stored("", summary)] + entries[split..];
    ReplaceIsExact(entries, added);
    assert Bare(added) == [summary] + ms[split..];
    assert CompactedEntries(policy, entries) == Replaced(entries, added);
  }

  /** Which stage produced an outcome. */
  lemma OutcomeCases(policy: PackPolicy, entries: seq<Stored>, interrupted: bool,
                     maxTotal: int, newTurn: nat, persist: bool)
    requires persist ==> AllIds(entries)
    ensures var out := Outcome(policy, entries, interrupted, maxTotal, newTurn, persist);
            var acts := persist && CompactorActs(policy, entries, interrupted);
            var compacted := CompactedEntries(policy, entries);
            if Early(policy, entries, maxTotal, newTurn) then
              out == Unpacked(entries, EarlyReason(policy, maxTotal), newTurn)
            else if !acts then
              StageForm(policy, entries, [], maxTotal, newTurn, persist, out)
            else if Fits(Bare(compacted), newTurn, maxTotal) then
              out == CompactorOutcome(compacted, newTurn, CompactionOf(policy, entries, interrupted))
            else
              StageForm(policy, compacted, ["checkpoint_compactor"], maxTotal, newTurn, persist, out)
  {
    BudgetStageClosedForm(policy, entries, [], maxTotal, newTurn, persist);
    if persist {
      CompactedIsExact(policy, entries);
      BudgetStageClosedForm(policy, CompactedEntries(policy, entries), ["checkpoint_compactor"], maxTotal, newTurn, persist);
    }
  }

  ghost predicate PackForm(policy: PackPolicy, entries: seq<Stored>, start: seq<Message>,
                           maxTotal: int, newTurn: nat, persist: bool, out: PackOutcome)
  {
    && out.report.checkpointChars == TotalChars(out.messages)
    && out.report.messageCount == |out.messages|
    && (if persist then Bare(out.entries) == out.messages && AllIds(out.entries) else out.entries == entries)
    && (!out.report.compacted ==> out.entries == entries && out.messages == Bare(entries))
    && (PastEarlyReturns(out) ==>
          out.messages == Trim(Summarised(policy, start, maxTotal, newTurn), newTurn, maxTotal))
    && (!PastEarlyReturns(out) && policy.packEnabled && maxTotal > 0 ==> Fits(out.messages, newTurn, maxTotal))
  }

  /** The whole packing in closed form, in a real run for a store whose messages all have ids: what is
      reported is the truth about the final list, that list is what a real run stores and what a
      dry run leaves unstored, nothing compacted means nothing changed, and past the early
      returns it is the summarised list run through the two loops. */
  lemma PackClosedForm(policy: PackPolicy, entries: seq<Stored>, interrupted: bool,
                       maxTotal: int, newTurn: nat, persist: bool)
    requires persist ==> AllIds(entries)
    ensures PackForm(policy, entries, BudgetStart(policy, entries, interrupted, persist), maxTotal, newTurn, persist,
                     Outcome(policy, entries, interrupted, maxTotal, newTurn, persist))
  {
    if persist {
      CompactedIsExact(policy, entries);
    }
    OutcomeCases(policy, entries, interrupted, maxTotal, newTurn, persist);
    if Early(policy, entries, maxTotal, newTurn) {
      assert EarlyReason(policy, maxTotal) != "char_budget" && EarlyReason(policy, maxTotal) != "nothing_to_trim";
    }
  }

  /** Exit theorem: past the early returns the final history fits beside the new turn, or holds
      nothing but user messages and compaction summaries, or is one message of at most 120
      characters; and every user message and summary that stood in the summarised list is still
      there, unchanged and in order. */
  lemma PackExit(policy: PackPolicy, entries: seq<Stored>, interrupted: bool,
                 maxTotal: int, newTurn: nat, persist: bool)
    requires persist ==> AllIds(entries)
    ensures var out := Outcome(policy, entries, interrupted, maxTotal, newTurn, persist);
            var start := BudgetStart(policy, entries, interrupted, persist);
            PastEarlyReturns(out) ==>
              && (Fits(out.messages, newTurn, maxTotal)
                  || AllProtected(out.messages)
                  || (|out.messages| == 1 && |out.messages[0].content| <= TRUNCATE_ABOVE))
              && ProtectedOnly(out.messages) == ProtectedOnly(Summarised(policy, start, maxTotal, newTurn))
  {
    PackClosedForm(policy, entries, interrupted, maxTotal, newTurn, persist);
    TrimExit(Summarised(policy, BudgetStart(policy, entries, interrupted, persist), maxTotal, newTurn), newTurn, maxTotal);
  }

  /** The budget stage reports the same with and without writing; a compactor label in front
      always shows. */
  lemma StagesAgree(policy: PackPolicy, entries: seq<Stored>, maxTotal: int, newTurn: nat,
                    dry: PackOutcome, live: PackOutcome)
    requires StageForm(policy, entries, [], maxTotal, newTurn, false, dry)
    requires StageForm(policy, entries, [], maxTotal, newTurn, true, live)
    ensures dry.report == live.report.(persisted := false)
    ensures dry.messages == live.messages && Bare(live.entries) == dry.messages
    ensures live.report.persisted <==> live.report.compacted
  {
  }

  lemma CompactorShows(policy: PackPolicy, entries: seq<Stored>, compacted: seq<Stored>, result: Compaction,
                       maxTotal: int, newTurn: nat, dry: PackOutcome, live: PackOutcome)
    requires StageForm(policy, entries, [], maxTotal, newTurn, false, dry)
    requires || StageForm(policy, compacted, ["checkpoint_compactor"], maxTotal, newTurn, true, live)
             || live == CompactorOutcome(compacted, newTurn, result)
    ensures dry.report.steps != live.report.steps
    ensures live.report.persisted && live.report.compacted
  {
    NoCompactorStep(Summarised(policy, Bare(entries), maxTotal, newTurn), newTurn, maxTotal);
    assert live.report.steps != [] && live.report.steps[0] == "checkpoint_compactor";
  }

  /** The dry run and the real run of one packing agree on everything they report, except on
      whether the store was written, exactly when the count-based compactor does not act. */
  lemma DryRunIsRealRun(policy: PackPolicy, entries: seq<Stored>, interrupted: bool, maxTotal: int, newTurn: nat)
    requires AllIds(entries)
    ensures var dry := Outcome(policy, entries, interrupted, maxTotal, newTurn, false);
            var live := Outcome(policy, entries, interrupted, maxTotal, newTurn, true);
            var same := Early(policy, entries, maxTotal, newTurn) || !CompactorActs(policy, entries, interrupted);
            && dry.entries == entries && !dry.report.persisted
            && (live.report.persisted <==> live.report.compacted)
            && ((dry.report == live.report.(persisted := false)) <==> same)
            && (same ==> dry.messages == live.messages && Bare(live.entries) == dry.messages)
  {
    var dry := Outcome(policy, entries, interrupted, maxTotal, newTurn, false);
    var live := Outcome(policy, entries, interrupted, maxTotal, newTurn, true);
    OutcomeCases(policy, entries, interrupted, maxTotal, newTurn, false);
    OutcomeCases(policy, entries, interrupted, maxTotal, newTurn, true);
    if !Early(policy, entries, maxTotal, newTurn) {
      if CompactorActs(policy, entries, interrupted) {
        CompactorShows(policy, entries, CompactedEntries(policy, entries), CompactionOf(policy, entries, interrupted),
                       maxTotal, newTurn, dry, live);
      } else {
        StagesAgree(policy, entries, maxTotal, newTurn, dry, live);
      }
    }
  }

  lemma NoCompactorStep(ms: seq<Message>, newTurn: nat, maxTotal: int)
    ensures var steps := TrimSteps(ms, newTurn, maxTotal);
            && (steps != [] ==> steps[0] != "checkpoint_compactor")
            && (["summarized_prefix"] + steps)[0] != "checkpoint_compactor"
  {
    var steps := TrimSteps(ms, newTurn, maxTotal);
    assert steps != [] ==> steps[0][0] == 'd' || steps[0][0] == 't';
    assert "checkpoint_compactor"[0] == 'c' && "summarized_prefix"[0] == 's';
  }

  predicate IsSuffix(s: seq<Message>, t: seq<Message>) {
    |s| <= |t| && s == t[|t| - |s|..]
  }

  lemma {:induction false} ProtectedUsers(ms: seq<Message>)
    ensures UsersOnly(ProtectedOnly(ms)) == UsersOnly(ms)
  {
    if ms != [] {
      ProtectedUsers(ms[1..]);
      var head := if Protected(ms[0]) then [ms[0]] else [];
      UsersOnlyConcat(head, ProtectedOnly(ms[1..]));
    }
  }

  lemma SummarisedKeepsRecentUsers(policy: PackPolicy, ms: seq<Message>, maxTotal: int, newTurn: nat)
    ensures var kept := UsersOnly(Summarised(policy, ms, maxTotal, newTurn));
            IsSuffix(kept, UsersOnly(ms)) && (|kept| == |UsersOnly(ms)| || |kept| == policy.KeepTurns())
  {
    var split := SplitIndex(ms, policy.KeepTurns());
    SplitKeepsRecentUsers(ms, policy.KeepTurns());
    UsersOnlyConcat([SummaryMessage(policy.budgetSummary(ms[..split]))], ms[split..]);
  }

  /** Whatever a packing does, the user messages it leaves are the most recent ones of the
      thread, verbatim: all of them, or exactly as many as the policy keeps. */
  lemma RecentUsersSurvive(policy: PackPolicy, entries: seq<Stored>, interrupted: bool,
                           maxTotal: int, newTurn: nat, persist: bool)
    requires persist ==> AllIds(entries)
    ensures var kept := UsersOnly(Outcome(policy, entries, interrupted, maxTotal, newTurn, persist).messages);
            var all := UsersOnly(Bare(entries));
            IsSuffix(kept, all) && (|kept| == |all| || |kept| == policy.KeepTurns())
  {
    var out := Outcome(policy, entries, interrupted, maxTotal, newTurn, persist);
    var start := BudgetStart(policy, entries, interrupted, persist);
    PackClosedForm(policy, entries, interrupted, maxTotal, newTurn, persist);
    if persist {
      CompactorKeepsRecentUsers(policy, entries);
    }
    if PastEarlyReturns(out) {
      var summarised := Summarised(policy, start, maxTotal, newTurn);
      PackExit(policy, entries, interrupted, maxTotal, newTurn, persist);
      ProtectedUsers(out.messages);
      ProtectedUsers(summarised);
      SummarisedKeepsRecentUsers(policy, start, maxTotal, newTurn);
    }
  }

  lemma CompactorKeepsRecentUsers(policy: PackPolicy, entries: seq<Stored>)
    requires AllIds(entries)
    ensures var kept := UsersOnly(Bare(CompactedEntries(policy, entries)));
            var all := UsersOnly(Bare(entries));
            IsSuffix(kept, all) && (|kept| == |all| || |kept| == policy.KeepTurns())
  {
    var ms := Bare(entries);
    var split := SplitIndex(ms, policy.KeepTurns());
    CompactedIsExact(policy, entries);
    UsersOnlyConcat([SummaryMessage(policy.compactorSummary(ms[..split]))], ms[split..]);
    SplitKeepsRecentUsers(ms, policy.KeepTurns());
  }
}
