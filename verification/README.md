# A verified model of the agent kernel

A Dafny model of the parts of the copilot agent kernel that carry most of its state and
branching, with proofs of what they keep. Each module follows one component.

- **Budget pipeline** — `CheckpointTrim`, `CheckpointStore`, `CheckpointPack` (shrinking the stored
  history, live or as a dry run), `TurnPacking` (shrinking the messages of one turn),
  `TurnAssembly` (building a turn; history and turn in one budget) and `ManagerTurn` (what the
  context manager fills a turn with). The checkpoint store is a class with ids and
  remove-then-append updates; summary texts are arbitrary functions.
- **Agent run** — `PolicyGate` (the policy's verdict on a batch), `Plans`, `PathMerge`, `AuditLog`,
  `AgentNodes` (a class with the node methods, writing the log), `AgentRun` (the graph with
  interrupt and resume as a state machine) and `AgentLedger` (invariants of the log). The model,
  the tools and the human are arbitrary inputs.
- **Pre-retrieval cache** — `QuerySimilarity`, `DocCache` (key codec and dedupe), `PolicyContext`
  (the canonical policy text), `EventStore` (a class with the thread's events), `RetrievalGate` (the
  decision over a thread's whole history).
- **Event envelope** — `EventEnvelope`.
- `Text`, `Messages`, `Routes` hold the shared data types and string operations.

Methods have the source's loops and updates and are proved against specification functions; the
lemmas say what the source promises about those functions. What the functions compute is said a second
time, of messages, positions, configuration fields and rows alone, so that nothing is tied only to
itself: `CheckpointShape` (where a history is cut, what is dropped, truncated and reported),
`TurnContents` and `TurnShape` (what a turn consists of, which list packing returns), `PolicyMeaning`
(open calls, reasons, audits, what a run executes), `AssistantShape` and `LedgerComplete` (what a step
logs and injects, and that nothing is missing from the log), `RetrievalRuns` (what each turn decides,
and one turn's retrieval serving the next), and the lemmas named `...Exactly`.

## Where the code does less than it says

Each of these is proved, with the exact condition under which the promise is met.

- The turn packer has two stages for memory, and they never fire on injected memory: the renderer
  (copilot_agent/memory/injection_render.py:92) always starts it with `[MemoryContext]`, a marker the
  packer does not know, so the text outlives every packing (`TurnAssembly.InjectedMemoryIsKept`). A
  memory text can be trimmed or dropped if and only if it begins with `[EpisodicMemory]` or
  `[LongTermMemory]`, or begins with the documents' marker and has no documents behind it or more
  than 400 characters (`TurnAssembly.MemoryLossIff`).
- The end-to-end bound holds if and only if the history leaves something of the budget or the turn
  has nothing to trim; with nothing left the turn packer is skipped (`TurnAssembly.EndToEndBudget`,
  and `ManagerTurn.ClientTurnBudget` for every client conversation and thread history).
- A dry run reports what a real run does if and only if packing returns early or the count-based
  compactor does not act (`CheckpointPack.DryRunIsRealRun`); writing back is exact if and only if
  every stored message has an id (`CheckpointStore.ReplaceIsExact`).
- The first call of a batch that does not simply pass ends the policy's evaluation, so the human can
  be asked about a batch that a later call dooms: after approval it goes through if and only if none
  of its calls is denied (`AgentNodes.ApprovalAfterPause`).
- A gated post that its tool's rule does not ask about is let through unasked, and with it whatever
  call stands behind it, denied or not (`AgentRun.SoftAskRuns`). Over all runs only permitted calls
  are executed if and only if the run is started confirmed or every such post is denied or off the
  route (`AgentRun.PermittedRunsIff`); with the registered rule that is: started confirmed, or
  `http_post` is off an enforced route, or job posts are switched off (the default), or the lists or
  credential scopes refuse `http_post`, or each configured dangerous path is also configured without
  its query (`AgentRun.PermittedRunsByConfiguration`).
- docs/guardrail-policy-design.md:160-161 lets the tool's own rule ask even when the run is
  confirmed; copilot_agent/policy/registry.py asks only without confirmation, and the model follows
  the code (`PolicyGate.ConfirmedDecision`). One approval therefore covers the rest of the run
  (`AgentRun.AtMostOnePause`).
- A blocked record loses its policy trace when a route-blocked call id has surrounding blanks
  (`AgentLedger.RouteRecordTraceIff`), and only one record per call id is kept if and only if no
  batch names a new id twice (`AuditLog.BlockedOnceStep`).
- Events are listed by their sequence within a run, the first hundred only, so the cache found is
  not always the newest (`EventStore.OlderRunHidesNewer`; exact condition in
  `EventStore.LatestIsNewestIff`).
- A tool_end is kept once per call, except for a call id with surrounding blanks, which is stored again
  if and only if no row of the run has the stripped id (`EventStore.BlankIdsEndAgain`).
- A request shares its canonical policy text with one of another tenant if and only if its tenant or
  user contains `|` or its scope text reads as a policy of its own (`PolicyContext.OtherTenantIff`),
  and with one that differs in its scopes alone if and only if it has no scope, several, an empty
  one, or one that reads as two sorted scopes around a comma (`PolicyContext.ScopesCollideIff`).
- An error event whose payload is its error alone gains a message when it is reloaded
  (`EventEnvelope.LoneErrorGainsMessage`; exact condition in `EventEnvelope.StoreRoundTripIff`).

## Model

| member | source | states |
|---|---|---|
| CheckpointTrim.DropOldestTrimable | copilot_agent/context/checkpoint_pack.py:61-67 | the oldest message that is neither a user message nor a summary is removed and its class reported; none is reported exactly when all are protected |
| CheckpointTrim.RemoveOldestParts | copilot_agent/context/checkpoint_pack.py:61-67 | k removals take exactly the k oldest trimable messages, keep every protected one in order, and compose one at a time |
| CheckpointTrim.DropCount | copilot_agent/context/checkpoint_pack.py:172-178 | the count is the least at which the budget is met, one message is left, or nothing trimable is left |
| CheckpointTrim.DropLoop | copilot_agent/context/checkpoint_pack.py:172-178 | greedy minimality: the loop removes exactly that least number of oldest trimable messages, labels each, and its counter is the recomputed total |
| CheckpointTrim.TruncateOldestNonUser | copilot_agent/context/checkpoint_pack.py:70-90 | halves the first unprotected message above 120 characters, and reports a change exactly when there is one |
| CheckpointTrim.TruncateOldestShrinks | copilot_agent/context/checkpoint_pack.py:70-90 | every truncation strictly shortens the total and leaves protected messages alone, so the loop ends |
| CheckpointTrim.TruncatedStaysTrimable | copilot_agent/context/checkpoint_pack.py:55-90 | truncation never turns a message into a compaction summary |
| CheckpointTrim.TruncateLoop | copilot_agent/context/checkpoint_pack.py:180-185 | the loop computes the fixed truncation phase, with one label per truncation and a true counter |
| CheckpointTrim.TruncatePhaseExit | copilot_agent/context/checkpoint_pack.py:180-185 | it ends fitting or with nothing left to shorten, keeps length and protected messages, and pays at least one character per truncation |
| CheckpointTrim.TruncationsAreLogarithmic | copilot_agent/context/checkpoint_pack.py:70-90 | t truncations of one message need a length above 120 * 2^(t-1) |
| CheckpointTrim.TruncationNeedsOneMessage | copilot_agent/context/checkpoint_pack.py:172-185 | after the drop loop truncation happens only when a single message is left, and only logarithmically often |
| CheckpointTrim.TrimExit | copilot_agent/context/checkpoint_pack.py:168-185 | both loops end fitting, all protected, or with one message of at most 120 characters; protected messages survive in order; labels appear exactly when the list changed |
| CheckpointShape.DropClearsFront | copilot_agent/context/checkpoint_pack.py:61-67 | dropping k messages takes everything that may go from a front part holding k of them and leaves the rest of the list as it is |
| CheckpointShape.OneTruncation | copilot_agent/context/checkpoint_pack.py:70-90 | the first message that is neither the user's nor a summary and longer than 120 is cut to half, not below 80, blanks stripped and dots behind; nothing else changes |
| CheckpointShape.TruncationIsLeast | copilot_agent/context/checkpoint_pack.py:180-185 | the loop makes the least number of truncations after which the list fits or nothing can be cut |
| CheckpointShape.LoopsShape | copilot_agent/context/checkpoint_pack.py:172-185 | both loops stop as early as they can, and the labels name the class of each dropped message in order, then each truncation |
| CheckpointStore.Store.Update | scripts/verify_context_manager.py:61-74 | the new contents are the entries not named for removal followed by the added ones, which get ids in order |
| CheckpointStore.Store.constructor | scripts/verify_context_manager.py:44-51 | every initial message without an id gets the next one |
| CheckpointStore.ReplaceIsExact | copilot_agent/context/checkpoint_pack.py:93-107 | removing all known ids and appending leaves exactly the new list if and only if every stored message had an id, and then all have ids again |
| CheckpointStore.KeptExactly | scripts/verify_context_manager.py:65-66 | removal goes entry by entry and takes exactly those whose id is named |
| CheckpointStore.AssignIdsExactly | scripts/verify_context_manager.py:67-73 | given ids stay; the i-th message without one is numbered on from the old length |
| CheckpointPack.SplitMessages | copilot_agent/memory/checkpoint_compactor.py:89-99 | prefix and suffix are the list cut at the split index |
| CheckpointPack.SplitKeepsRecentUsers | copilot_agent/memory/checkpoint_compactor.py:89-99 | the suffix holds exactly the last user turns the policy keeps, or all when fewer |
| CheckpointPack.CompactIfNeeded | copilot_agent/memory/checkpoint_compactor.py:27-86 | acts exactly when enabled, not interrupted, above the threshold and with a prefix to summarise; reports the reason or the counts; then the store holds the summary and the suffix |
| CheckpointPack.CompactedIsExact | copilot_agent/memory/checkpoint_compactor.py:27-86 | in the remove-then-append store the thread is then one summary followed by the untouched suffix |
| CheckpointShape.SplitStartsLastTurns | copilot_agent/memory/checkpoint_compactor.py:89-99 | the cut is at a user message with exactly the kept number of user messages from there on, or there is none when no more than those are stored |
| CheckpointShape.CompactionShape | copilot_agent/memory/checkpoint_compactor.py:27-86 | exactly when the compactor acts, in terms of settings and user turns; the list it leaves is the summary of everything before the oldest kept turn, then the rest; the counts and reasons it reports |
| CheckpointPack.PersistCheckpointMessages | copilot_agent/context/checkpoint_pack.py:93-107 | removes the ids of the prior list and appends the updated one |
| CheckpointPack.SummarisePrefix | copilot_agent/context/checkpoint_pack.py:157-166 | store, working list and labels become those of the summary stage, written only when persisting; SummaryShape says what that stage is |
| CheckpointShape.SummaryShape | copilot_agent/context/checkpoint_pack.py:157-193 | when more user turns are stored than kept and the history is over its share, the prefix before the oldest kept turn becomes one summary message, which heads the final list; else the loops start from the stored list |
| CheckpointPack.TrimToBudget | copilot_agent/context/checkpoint_pack.py:168-193 | store, working list and labels become those of the trim stage, written only when something changed and persisting |
| CheckpointPack.PackCheckpointForBudget | copilot_agent/context/checkpoint_pack.py:110-204 | report, store and final list are those of the packing outcome for every policy, budget and store |
| CheckpointShape.ReportShape | copilot_agent/context/checkpoint_pack.py:122-204 | exactly when each reason is given, when something was compacted and persisted, and the reported counts and target |
| CheckpointPack.PackClosedForm | copilot_agent/context/checkpoint_pack.py:129-204 | the report is true of the final list; a real run stores that list when all stored messages have ids, a dry run leaves any store; not compacted means unchanged; an early return means it fits or is disabled |
| CheckpointPack.PackExit | copilot_agent/context/checkpoint_pack.py:157-204 | exit theorem: fits, all protected, or one message of at most 120 characters; user messages and summaries after summarisation survive unchanged and in order |
| CheckpointPack.DryRunIsRealRun | copilot_agent/context/checkpoint_pack.py:93-204 | both modes report the same flag, reason, counts and steps if and only if packing returns early or the compactor does not act; the dry run never writes |
| CheckpointPack.RecentUsersSurvive | copilot_agent/context/checkpoint_pack.py:138-193 | the user messages left are a suffix of the thread's, verbatim: all of them or exactly as many as the policy keeps |
| TurnPacking.TruncatedKeepsKind | copilot_agent/context/packing.py:28-49 | a trimmed memory or document message keeps its marker and so its kind |
| TurnPacking.TrimKind | copilot_agent/context/packing.py:80-93 | trims the first message of the kind when above target; the running count moves by exactly the change of the total |
| TurnPacking.DropKind | copilot_agent/context/packing.py:69-78 | removes the last message of the kind; the running count moves by exactly the change of the total |
| TurnPacking.PackGraphMessages | copilot_agent/context/packing.py:52-116 | the result is the four stages in order and the reported count is the recomputed total |
| TurnShape.FirstThatFits | copilot_agent/context/packing.py:95-109 | the result is the first that fits of: the turn, its memory trimmed, its documents trimmed too, its memory dropped, its documents dropped; the labels name the steps that were taken and changed something |
| TurnShape.DroppedOnlyWhenNeeded | copilot_agent/context/packing.py:95-109 | a shorter list means that trimming both was not enough |
| TurnShape.DocumentsStay | copilot_agent/context/packing.py:80-109 | documents that fit once trimmed stay, and nothing is dropped |
| TurnShape.KindsByMarker | copilot_agent/context/packing.py:28-40 | which texts count as documents and as memory, by their markers |
| TurnShape.TrimmedText | copilot_agent/context/packing.py:43-49 | a trimmed text is the original cut below the limit, blanks stripped, dots behind |
| TurnPacking.PackTurnParts | copilot_agent/context/packing.py:52-116 | other messages keep content and order, the total never rises, and a result that is still too long has lost one memory and one document message |
| TurnPacking.PackTurnFitsOrIsBare | copilot_agent/context/packing.py:95-109 | with at most one of each the result fits or is exactly the untrimmable messages |
| TurnPacking.PackTurnTwice | copilot_agent/context/packing.py:95-116 | packing again changes nothing if and only if the first result fits or has nothing to trim; so always with at most one of each |
| TurnAssembly.InjectedMemoryIsKept | copilot_agent/context/packing.py:28-109 | memory rendered with its marker is in every packing's result, for every limit; the memory stages fire only when the client's own turn is a memory text |
| TurnAssembly.MemoryLossIff | copilot_agent/context/packing.py:28-109 | some limit takes a memory text away if and only if it begins with a memory marker the packer knows, or with the documents' marker and it is alone or longer than 400 characters |
| TurnAssembly.CurrentTurn | copilot_agent/agent/message_utils.py:131-142 | the last user message, or the last message when no user spoke |
| TurnAssembly.TurnOfMeaning | copilot_agent/agent/message_utils.py:124-142 | the turn is at most one message, asks what the conversation asks, and is other than the user's only when no user spoke |
| TurnAssembly.RolesExactly | copilot_agent/agent/runner.py:283-300 | roles count in any letter case, and content is kept |
| TurnAssembly.ExistingSystemContents | copilot_agent/context/assemble.py:23-30 | collects exactly the stripped, non-blank system texts |
| TurnAssembly.BuildGraphTurnMessages | copilot_agent/context/assemble.py:62-97 | prompt, memory, extras and turn, each included under its own condition |
| TurnContents.TurnExactly | copilot_agent/context/assemble.py:62-97 | the whole turn list in order: prompt, memory, route, skills and documents each if and only if present and, with dedupe on, not in the history, the prompt also not when deduped against a user's earlier turn; then the client's messages |
| TurnContents.SystemContentsExactly | copilot_agent/context/assemble.py:23-30 | a text is collected if and only if some system message strips to it and it is not blank |
| TurnAssembly.TurnCounts | copilot_agent/context/assemble.py:62-97 | prompt, memory and skills bring nothing to trim: the turn list's memory and documents are those of the client's turn plus the pre-retrieved documents |
| TurnAssembly.TurnHasOneOfEach | copilot_agent/context/assemble.py:62-97 | at most one memory and one document message |
| ManagerTurn.ClientTurnIsOrdinary | copilot_agent/agent/runner.py:168-180 | whatever the client sends, a turn that is not the user's has no query and so no documents: the premises of the budget theorems hold |
| ManagerTurn.ClientTurnBudget | copilot_agent/context/manager.py:231-312 | for every client conversation, thread history and memory text the end-to-end bound holds if and only if the history is below the budget or nothing can be trimmed |
| ManagerTurn.UserTurnTrimsDocumentsOnly | copilot_agent/agent/runner.py:283-300 | when a user spoke the only thing to trim is the documents message |
| TurnAssembly.RouteTextIsRouterKind | copilot_agent/scenario/router/types.py:39-53 | the packer recognises the route text of every route as router text |
| Routes.RouteTextTells | copilot_agent/scenario/router/types.py:39-53 | the text names intent, rationale, recommended tools in order or that none are to be called, forbidden tools and suggested paths |
| TurnAssembly.TurnAddsNothingSeen | copilot_agent/context/assemble.py:43-95 | with dedupe on, all that a turn puts before the client's messages is system text that the history does not have |
| TurnAssembly.SecondTurnAddsNothing | copilot_agent/context/assemble.py:23-97 | building the same turn again on a history that holds it adds only the client's messages |
| TurnAssembly.EndToEndBudget | copilot_agent/context/manager.py:278-312 | history plus packed turn is within max(budget, history + untrimmable turn) if and only if the history is below the budget or nothing can be trimmed |
| TurnAssembly.AssembleWithinBudget | copilot_agent/context/manager.py:287-376 | the reported used_chars is the true sum of the packed history and the packed turn; a dry run leaves the store alone |
| TurnAssembly.OverBudgetExplained | copilot_agent/context/manager.py:297-312 | over budget in the end means the history is down to protected messages or one short message, and marked messages remain only when the history alone fills the budget |
| PolicyGate.EvaluateToolCalls | copilot_agent/policy/registry.py:98-236 | the decision is that of the first call that does not pass, with the credential audits made up to there |
| PolicyMeaning.DeniedIffNotOpen | copilot_agent/policy/registry.py:29-236 | a call is denied if and only if the lists, the granted scopes, the MCP allowlists or the posting switch do not leave it open |
| PolicyMeaning.ConfirmedIffOpen | copilot_agent/policy/registry.py:29-236 | with confirmation a batch is allowed if and only if every call's tool is listed, its required scopes are granted, its MCP server and tool are allowed and its posting is switched on |
| PolicyMeaning.ReasonOfVerdict | copilot_agent/policy/registry.py:115-235 | the order of the checks, with reason and source of the first that fails |
| PolicyMeaning.AuditOfCall | copilot_agent/policy/registry.py:29-96 | scopes are audited exactly for listed, registered tools that require some, as allowed, denied or without a binding |
| PolicyMeaning.DecisionTells | copilot_agent/policy/registry.py:98-236 | a decision carries the audits of all calls up to the deciding one, and that call's reason, tool and id |
| PolicyGate.VerdictMeaning | copilot_agent/policy/registry.py:29-236 | a call is denied or not whatever was confirmed; it is asked about exactly when unconfirmed, not denied and gated or asked for by its tool |
| PolicyGate.DecideStops | copilot_agent/policy/registry.py:98-236 | a batch stops at one call, all before it pass, and the decision names that call |
| PolicyGate.ConfirmedDecision | copilot_agent/policy/registry.py:98-236 | confirmed: allowed if and only if no call is denied, and nobody is asked |
| PolicyGate.UnconfirmedDecision | copilot_agent/policy/registry.py:98-236 | unconfirmed and unasked: if and only if every call passes or the first that does not is a soft ask |
| PolicyGate.AskedDecision | copilot_agent/policy/registry.py:98-236 | the human is asked if and only if the first call that does not pass is undenied, needs approval and its rule asks |
| PolicyGate.SoftAsksDeniedIff | copilot_agent/tools/capability/base.py:29-37 | with the registered rule every gated post it does not ask about is denied if and only if job posts are off, http_post is refused as such, or every dangerous path is also configured without its query |
| AgentNodes.Nodes.Planner | copilot_agent/agent/nodes.py:93-158 | the run's route and plan are the model's or the rules', and one plan_created event records them |
| AgentNodes.Nodes.Assistant | copilot_agent/agent/nodes.py:162-252 | route, plan and injected messages after the step, and exactly the plan events that belong to the changes |
| AgentNodes.Nodes.SafetyGate | copilot_agent/agent/nodes.py:256-459 | outcome and ledger of the gate for every batch, route, confirmation and resume value |
| AgentNodes.Nodes.AppendBlockedSideEffects | copilot_agent/agent/nodes.py:461-494 | appends one blocked record for each write call whose id is not on record yet |
| AssistantShape.MergesExactly | copilot_agent/agent/nodes.py:182-199 | the route changes and a path_merge event is logged if and only if injection is on and some tool report hints a path the route lacks |
| AssistantShape.ReplanEventsExactly | copilot_agent/agent/nodes.py:203-218 | the plan gets its summary step, and a replan event is logged, if and only if the troubleshooting conditions hold |
| AssistantShape.InjectedExactly | copilot_agent/agent/nodes.py:223-244 | the new route text and the diagnosis outline are injected if and only if no system message says the same |
| AssistantShape.GateMessages | copilot_agent/agent/nodes.py:297-457 | the gate adds one message without calls when it refuses, with the policy's, the route's or the human's reason, and nothing otherwise |
| LedgerComplete.EachWriteBlocked | copilot_agent/tools/audit.py:215-250 | every http_post of a blocked batch gets a record unless its id is on record |
| LedgerComplete.OnlyWritesBlocked | copilot_agent/tools/audit.py:157-158 | nothing but http_post calls of the batch gets a blocked record |
| LedgerComplete.DenialIsRecorded | copilot_agent/agent/nodes.py:275-322 | a denied batch leaves all its audits, one denial naming the deciding call, and under its trace a blocked record for each write call |
| LedgerComplete.RouteStopIsRecorded | copilot_agent/agent/nodes.py:326-416 | a batch the route stops leaves a block decision for each call off the route and a blocked record for each write call among them |
| LedgerComplete.PauseIsRecorded | copilot_agent/agent/nodes.py:418-457 | a pause leaves the question with the asking call as the log's last event |
| AgentNodes.GateMeaning | copilot_agent/agent/nodes.py:256-459 | a batch passes if and only if policy and route permit it and approval was given where required; it pauses if and only if it is otherwise permitted |
| AgentNodes.ApprovedGate | copilot_agent/agent/nodes.py:256-459 | an approved re-run lets a batch through if and only if no call is denied and the route allows all: approval never overrides a refusal |
| AgentNodes.ApprovalAfterPause | copilot_agent/agent/nodes.py:256-459 | a batch that paused goes through after approval if and only if no call of it is denied, and is refused if and only if one is |
| AgentRun.RunControl | copilot_agent/agent/graph.py:17-105 | the control invariant of all runs: what each phase implies about route, confirmation, pauses and pending batch |
| AgentRun.ExecutedBatchesAreCleared | copilot_agent/agent/graph.py:27-105 | over every run each executed batch was allowed by the policy under the run's confirmation, needed no further approval, and kept to the planner's route with enforcement on |
| PolicyMeaning.RunsExecuteOpenCalls | copilot_agent/agent/nodes.py:256-459 | over every run started confirmed or without an open soft ask, every executed call is open: scopes granted, lists and MCP allowlists and posting switch in its favour |
| PolicyMeaning.RunsKeepToRoute | copilot_agent/scenario/router/types.py:77-86 | with enforcement on no executed call is forbidden by the planner's route, none runs under a refused route or one without recommended tools, and no HTTP call under a knowledge route |
| PolicyMeaning.OpenBatchIsExecuted | copilot_agent/agent/graph.py:17-105 | the converse: a batch of open calls on the route that needs no question goes through the gate and is executed, from whatever state |
| PolicyMeaning.ApprovedThenExecuted | copilot_agent/runtime/execution_engine.py:299-312 | an approved batch goes to the tools if and only if all its calls are open, else the run ends |
| AgentRun.ExecutedCallsArePermitted | copilot_agent/agent/nodes.py:256-459 | when every open soft ask is denied, no executed call is denied, and one that needs approval runs only in a confirmed or approved run |
| AgentRun.SoftAskRuns | copilot_agent/policy/registry.py:191-222 | an undenied gated post whose rule does not ask is executed unasked, together with any call behind it |
| AgentRun.PermittedRunsIff | copilot_agent/policy/registry.py:98-236 | over all runs only permitted calls are executed if and only if the run is started confirmed or there is no open soft ask |
| AgentRun.PermittedRunsByConfiguration | copilot_agent/tools/capability/base.py:29-37 | the same condition in terms of route, deployment switch, lists, scopes and dangerous paths |
| AgentRun.AtMostOnePause | copilot_agent/runtime/execution_engine.py:274-312 | a run pauses at most once, never when started confirmed; while it waits its batch is otherwise permitted; the route only gains suggested paths |
| AgentRun.RejectionEndsRun | copilot_agent/runtime/execution_engine.py:295-298 | a rejected batch is refused, ends the run, and none of it is executed |
| AgentRun.RecordRejection | copilot_agent/runtime/execution_engine.py:506-551 | each paused call not on record gets a denial, and a write call a blocked record that names it |
| LedgerComplete.RejectionIsRecorded | copilot_agent/runtime/execution_engine.py:506-551 | a rejection leaves a denial for every call whose id is not on record, and a blocked record under it for every http_post |
| AgentRun.PlanClosedForm | copilot_agent/agent/nodes.py:203-221 | after any run the plan is the planner's plan marked off once on everything seen, plus at most one summary step |
| Plans.BuildPlanFromRoute | copilot_agent/agent/plan_builder.py:14-33 | one pending step per recommended tool, numbered in order, or a single answering step |
| Plans.UpdatePlanOutcomes | copilot_agent/agent/plan_builder.py:46-62 | marks off every pending step whose tool has reported, and nothing else |
| Plans.MaybeReplanTroubleshooting | copilot_agent/agent/plan_builder.py:65-84 | adds the summary step exactly for troubleshooting with both tools reported, no answer yet and no such step |
| Plans.ReplansExactly | copilot_agent/agent/plan_builder.py:65-84 | the condition in terms of the messages: both tools reported, the model's last message is no answer, no step has the summary's id; and the step that is added |
| Plans.ToolNamesExactly | copilot_agent/agent/plan_builder.py:36-43 | a tool has reported if and only if some tool message strips to its name |
| Plans.UpdateOverMessages | copilot_agent/agent/plan_builder.py:46-62 | update(update(p, M1), M1 + M2) == update(p, M1 + M2) |
| Plans.ClosedFormStep | copilot_agent/agent/plan_builder.py:46-84 | one assistant step keeps the closed form and never adds a second summary step |
| Plans.StatusesOnlyComplete | copilot_agent/agent/plan_builder.py:46-62 | statuses go only from pending to completed, exactly for steps whose tool reported; nothing else of a step changes |
| PathMerge.ExtractSuggestedPaths | copilot_agent/agent/tool_route_merge.py:26-46 | scans backwards, keeps the first occurrence, reverses |
| PathMerge.ExtractedExactly | copilot_agent/agent/tool_route_merge.py:26-46 | the extracted list is exactly the hinted paths, each once |
| PathMerge.HintedExactly | copilot_agent/agent/tool_route_merge.py:26-46 | a path is hinted if and only if some tool report names it, blanks around it aside |
| PathMerge.ExtractedInOrder | copilot_agent/agent/tool_route_merge.py:26-46 | the order of extraction: the last report's paths come last, reversed, each once, and are taken out of what earlier reports gave |
| PathMerge.MergeApiPaths | copilot_agent/agent/tool_route_merge.py:49-66 | appends the new paths in order; the flag is set exactly when the route changed |
| PathMerge.MergedRouteParts | copilot_agent/agent/tool_route_merge.py:26-66 | merging adds exactly the hinted paths behind the old ones without duplicates and leaves kind, tools and rationale alone |
| AuditLog.BlockedOnceStep | copilot_agent/agent/nodes.py:461-494 | a batch keeps one blocked record per call id if and only if it does not name a new id twice |
| AgentLedger.BlockedLogInOrder | copilot_agent/agent/nodes.py:297-494 | over every run each blocked record's trace is that of an earlier decision about its own call or of the denial of the batch it was written with; records are unique per call id when batches have distinct ids, and all name a trace when ids are clean |
| AgentLedger.RouteRecordTraceIff | copilot_agent/agent/nodes.py:356-394 | a route-blocked record has a trace if and only if some blocked call carries the stripped id verbatim |
| AgentLedger.PathsOverRun | copilot_agent/agent/nodes.py:176-221 | over every run the route's paths are the initial plus all hinted ones, duplicate free; path_merge events are no more than the new paths, replan events at most one |
| QuerySimilarity.EquivalenceSymmetric | copilot_agent/context/preretrieval_dedupe.py:16-31 | query equivalence is symmetric |
| QuerySimilarity.EquivalentExactly | copilot_agent/context/preretrieval_dedupe.py:16-31 | equivalent if and only if both are non-blank once normalised and one occurs in the other or they share three quarters of their words |
| QuerySimilarity.TokensExactly | copilot_agent/context/preretrieval_dedupe.py:25-26 | the tokens are exactly the maximal runs without blanks |
| QuerySimilarity.SimilarityAgrees | copilot_agent/context/retrieval_gate.py:211-245 | the gate's score reaches 0.75 if and only if the hashes match or the dedupe calls the queries equivalent |
| QuerySimilarity.FallbackStaysBelow | copilot_agent/context/retrieval_gate.py:234-245 | the word-overlap fallback never reaches the threshold on its own |
| DocCache.ParseKeyOfEncodeKey | copilot_agent/context/preretrieval_dedupe.py:38-91 | reading a written key returns it, for sources with colons and any integer line |
| DocCache.ParseKeyExactly | copilot_agent/context/preretrieval_dedupe.py:77-91 | exactly the texts with a whole number behind their last colon are keys, the source being all before it |
| DocCache.WriteChunkKeys | copilot_agent/context/preretrieval_dedupe.py:34-50 | in whatever order the keys are written they read back as exactly the hits' keys, each written once |
| DocCache.ParseCacheKeys | copilot_agent/context/preretrieval_dedupe.py:77-91 | the keys read are those of the entries that parse; a cache without keys has none |
| DocCache.ApplyPreretrievalDedupe | copilot_agent/context/preretrieval_dedupe.py:94-122 | hits are the kept ones plus the reported count, and the flags say what happened |
| DocCache.NewChunksExactly | copilot_agent/context/preretrieval_dedupe.py:73-74 | the kept hits are exactly those with an unknown key, in order |
| DocCache.DedupeIsExact | copilot_agent/context/preretrieval_dedupe.py:94-122 | for an equivalent query exactly the hits already shown are lost |
| DocCache.NothingRemovedWithoutKeys | copilot_agent/agent/runner.py:180-193 | a cache rebuilt from events, or none on resume, removes nothing |
| PolicyContext.CanonicalIffSamePolicy | copilot_agent/context/retrieval_gate.py:58-66 | on separator-free requests two canonical texts are equal if and only if tenant, user, classification, PII flag and scope multiset are |
| PolicyContext.SeparatorCollides | copilot_agent/context/retrieval_gate.py:58-66 | every request with a separator in tenant or user shares its text with one of another tenant |
| PolicyContext.OtherTenantIff | copilot_agent/context/retrieval_gate.py:58-66 | another tenant's request has the same text if and only if tenant or user contains the separator, or a classification and a PII flag stand between separators inside the scope text |
| PolicyContext.ScopesCollideIff | copilot_agent/context/retrieval_gate.py:58-66 | a request's text stands for several scope lists if and only if it has no or several scopes, an empty one, or one that reads as two sorted scopes |
| EventStore.Store.Append | copilot_agent/runtime/event_store.py:477-523 | one row is appended with the next id and the next sequence number of its run, unless the run has ended the call already; the row that stands for the event is returned |
| EventStore.LastSequenceIsGreatest | copilot_agent/runtime/event_store.py:488-492 | the number continued from is the greatest sequence of the run, zero without events |
| EventStore.CallsEndOnce | copilot_agent/runtime/event_store.py:477-483 | no append ever gives a run two tool_end rows for one call id without surrounding blanks |
| EventStore.BlankIdsEndAgain | copilot_agent/runtime/event_store.py:506-523 | an id with surrounding blanks is stored each time if and only if no row of the run has the stripped id |
| EventStore.ListedExactly | copilot_agent/runtime/event_store.py:773-796 | a row is listed if and only if fewer rows than the limit come before it by sequence, then by id |
| EventStore.Store.LatestPreretrievalCache | copilot_agent/context/manager.py:494-527 | the cache is rebuilt from the last usable pre-retrieval among the first hundred listed events |
| EventStore.LatestIsNewestIff | copilot_agent/runtime/event_store.py:773-796 | the scan finds the newest usable pre-retrieval if and only if it is listed and no listed one has a larger sequence in its own run |
| EventStore.OlderRunHidesNewer | copilot_agent/runtime/event_store.py:773-796 | a second run that retrieves earlier in its own sequence is hidden by the first, in a log that appending these events produces |
| RetrievalGate.HistoryIsRecorded | copilot_agent/context/manager.py:256-276 | every usable pre-retrieval in a thread's log was recorded by one of its turns with that turn's request |
| RetrievalGate.ReuseRespectsPolicy | copilot_agent/context/retrieval_gate.py:58-191 | a turn that reuses the cache has an earlier turn that recorded allowed chunks under the same canonical policy text for the same or an equivalent query, unless the digest collides; on separator-free requests that is the same tenant, user, classification, PII flag and scopes |
| RetrievalGate.SameTurnReuses | copilot_agent/context/retrieval_gate.py:100-191 | a repeated query under the same policy reuses the newest cache, whatever the order of scopes |
| RetrievalRuns.DecisionExactly | copilot_agent/context/retrieval_gate.py:100-191 | action, reason and hash of every decision in terms of query, intents, route, settings and the cache's fields |
| RetrievalRuns.HitsExactly | copilot_agent/context/manager.py:231-255 | exactly the turns that search documents, and that they get all the hits |
| RetrievalRuns.LiveTurnsAskTheTools | copilot_agent/context/retrieval_gate.py:119-126 | a live question neither retrieves nor reuses nor records |
| RetrievalRuns.FirstTurnIsRecorded | copilot_agent/context/manager.py:231-276 | a thread's first turn that wants documents gets them, and the cache found afterwards has its query, ids and policy |
| RetrievalRuns.SecondTurnReuses | copilot_agent/context/retrieval_gate.py:128-142 | after such a turn a second one with the same stripped query and policy reuses that cache and searches nothing |
| RetrievalGate.TurnCache | copilot_agent/context/manager.py:314-325 | the turn's cache is fresh after a retrieval, the old one on reuse, none otherwise; HitsExactly says which turns retrieve |
| RetrievalGate.SearchDocs | copilot_agent/context/preretrieval_dedupe.py:94-122 | with the dedupe setting on, after a retrieval in the same turn, an equivalent search loses exactly the pre-retrieved keys; otherwise nothing |
| EventEnvelope.ToStorePayload | copilot_agent/contracts/base.py:37-51 | data wins over content defaults and metadata, the version is the event's |
| EventEnvelope.StoredExactly | copilot_agent/contracts/base.py:37-51 | a stored payload key by key: the event's version, the content under its key, else the data's value, else the meta's, and nothing more |
| EventEnvelope.FromPayload | copilot_agent/contracts/base.py:53-90 | version, content and data of the reloaded event |
| EventEnvelope.NormalisedMeaning | copilot_agent/contracts/base.py:37-101 | what reading and storing again does to each key: a non-zero version, token text as text, a message for a lone error, all else untouched |
| EventEnvelope.NormalIffFixed | copilot_agent/contracts/base.py:37-101 | a payload is a fixpoint of normalising if and only if it already has that form |
| EventEnvelope.NormalisedTwice | copilot_agent/contracts/base.py:37-101 | normalising is idempotent for every kind and payload |
| EventEnvelope.StoreRoundTripIff | scripts/verify_contract_events.py:155-169 | a stored event reloads to the same payload if and only if its version is not zero, its token text is text and it is not a lone error |
| EventEnvelope.LoneErrorGainsMessage | copilot_agent/contracts/base.py:37-90 | a lone error gains its message once and is fixed from then on |

## Left out

- CheckpointStore.Store.Update: the store is the remove-then-append double of scripts/verify_context_manager.py:44-74; the deployed graph merges with `add_messages` (copilot_agent/agent/state.py:12), whose code is a library's and is not part of this model.
- CheckpointPack.CompactedIsExact: holds for that double; a reducer that puts a removed and re-added id back into its old place would leave the summary behind the suffix. The packer's own write-back adds messages without ids, so this does not concern it.
- CheckpointPack.CompactIfNeeded: the reported summary model, its format and its sections are not modelled; the summary text is an arbitrary function.
- CheckpointPack.PackCheckpointForBudget: the two summary texts and their length limits are arbitrary functions.
- CheckpointPack.PackClosedForm: a real run on a store with messages that have no id is covered by ReplaceIsExact only.
- TurnAssembly.EndToEndBudget: the scenario's prompt is required to carry no memory or document marker itself, which nothing in the code checks.
- PolicyGate.EvaluateToolCalls: refusal texts are represented by their reason codes, decision metadata is left out, argument records are the path and one opaque rest.
- AgentNodes.Nodes.SafetyGate: policy trace ids come from a counter instead of random ids; refusal texts, spans and the interrupt payload shown to the human are not modelled.
- AgentNodes.Nodes.Planner: the model planner and the route rules are inputs; strategy, planner mode and fallback reason of the event are not modelled.
- AgentNodes.Nodes.Assistant: the diagnosis outline is at most one given text; the model call is an input of the run.
- AgentRun.AtMostOnePause: cancellation, timeouts, restarts and the recursion limit of the graph are not steps of the machine.
- AgentLedger.BlockedLogInOrder: side effects reported by the tools are reduced to their ids, and events of the model and the tools that no property reads are not logged.
- PathMerge.ExtractSuggestedPaths: reading path hints out of a tool report's JSON is a parameter.
- QuerySimilarity.SimilarityAgrees: the normaliser is a parameter, the score an exact ratio instead of a float.
- DocCache.ParseCacheKeys: digits are the ASCII ones; other Unicode digits, which `int` also reads, are not modelled.
- EventStore.Store.LatestPreretrievalCache: sources, PII flag and trace id of the rebuilt cache are left out; nothing that is modelled reads them.
- RetrievalGate.ReuseRespectsPolicy: the digest is a parameter whose collisions are named in the conclusion; the intent detectors are arbitrary predicates and the memory-answer test is an input.
- RetrievalRuns.SecondTurnReuses: the normaliser is a parameter, so a first query with blanks around it is required to normalise to the same non-blank text as the stripped one.
- EventEnvelope.FromPayload: correlation ids, which are not part of the payload, are left out.
- EventEnvelope.StoreRoundTripIff: a boolean and the integer it equals are different values here.
- Tool calls without a matching tool message in a trimmed history: the code does not maintain that pairing.
- Message content that is not text, and message classes other than user, model, tool and system.
- HTTP routes, streaming, MCP management, uploads, the LLM, spans and credential cookies: input and output only.
- Final answers, settings, context blocks and event types that no modelled property reads: only easy members.
