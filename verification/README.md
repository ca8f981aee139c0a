# Verification of the DS agent runtime's control logic

This project models the control logic of the agent runtime in Dafny and proves what it keeps over every run. The
model language, tools, stores and clock are inputs: an LLM reply, a tool result, a verdict or a time is whatever the
caller passes in. Objects that change their fields are classes whose methods are proved against specification
functions; the main results are lemmas about those functions over whole traces.

| component | files |
|---|---|
| workflow tracker, its plan tree, events, diffs and the renderer that folds them | `WorkflowPlan`, `WorkflowTracker`, `TrackerHistory`, `TrackerEvents`, `PlanTree`, `PlanConsumer`, `PlanLinks`, `PlanDiff`, `StringOrder`, `PlanMirror`, `StaleCompletion`, `Replans`, `DispatchTrace` |
| agent turn loop, message grammar, context compression, checkpoints | `Messages`, `ContextManager`, `AgentLoop`, `TurnProtocol`, `TurnContents` |
| continuity block: regular expressions, printer, parser | `TextTools`, `Continuity`, `ContinuityScan`, `ContinuityText`, `ContinuityRoundTrip`, `ContinuityPending`, `ContinuitySurvival` |
| verdict cache of the automatic verifier | `VerdictCache` |
| hook registry and dispatch of one tool call | `HookPipeline` |
| SQL cost guard inside the pipeline | `QueryCostGuard`, `QuerySpending` |
| iteration budget, self-debugging, stage scoring, chunking of channel messages | `IterationBudget`, `SelfDebug`, `StageScore`, `ChunkText` |

Main results, one line each:

- A renderer that only folds `plan.created`, `plan.updated` and `plan.replanned` holds the tracker's plan tree after
  every callback of every trace; the only field that can differ is the root's completion time
  (`PlanMirror.EventsMirrorTracker`), and it differs exactly when the last root completion that no whole tree has
  replaced since is not the present one (`StaleCompletion.RendererIsExactIff`).
- The renderer's rebuild from a flat node list inverts flattening for every well-formed tree of any shape
  (`PlanConsumer.FlattenRebuildRoundTrip`), and so it does when the list leaves all children out and only parent links
  are left (`PlanLinks.LinkedRebuildRoundTrip`).
- The verdict cache is the tail of the recency order: a response is a hit iff its key's LRU stack distance is below 64
  (`VerdictCache.HitIffRecentlyUsed`); a miss answers what its own verifier run comes to, a hit what the key's latest
  one came to (`VerdictCache.MissAnswers`, `VerdictCache.HitAnswers`).
- Every message list the loop ever sends to the model obeys the message grammar, through any sequence of turns,
  compressions, failures, interruptions, resumptions and restarts (`TurnProtocol.LifeIsSound`,
  `TurnProtocol.OneSystemMessage`); compression's own requests are single user messages, and with them a turn makes at
  most twice `max_iterations` calls (`TurnProtocol.CallsAreBounded`).
- What a turn leaves, position by position: the old history, the request, for each answered step the model's message
  with its calls and one tool message per call with that call's own result, and the answer
  (`TurnContents.TurnLeaves`).
- A process that starts after a turn came to an answer goes on without that answer exactly when an exception was raised
  while the turn was finished (`TurnProtocol.RestartAfterRaise`).
- An extracted continuity state survives being printed into a summary and read back iff every value is what its line
  is read as, where a blank value gives way to the next line with text, and without a blocker the next step asks no
  hinted question (`ContinuityRoundTrip.ContinuityRoundTrips`).
- A message records as its blocker the value of a blocker line, else of a pending-question line, else the first item
  under an announcement, else the last hinted question (`ContinuityPending.BlockerPrecedence`).
- However often the context is compressed, the list is the uncompressed one behind a summary whose recorded state is a
  function of the messages and of what each summary is read as (`ContinuitySurvival.CompressionRecords`); as long as
  the states recorded at the cuts come back, that is what an extraction of all the messages it stands for records
  (`ContinuitySurvival.CompressionLosesNoContinuity`).
- Repeated sorted registration is one stable sort, and the pre hooks' verdict belongs to the first hook that denies the
  arguments rewritten so far (`HookPipeline.RegistrationIsOneStableSort`, `HookPipeline.PreVerdict`). Each post hook is
  shown the latest modification, and a dispatch comes to the last one (`HookPipeline.CompletedResult`).
- With hooks that keep the estimate, the SQL session cost never passes its cap over any run
  (`QuerySpending.SpendingStaysWithinCaps`); the caps bound one dispatch, and the sum of all positive charges, exactly
  under the conditions of `QuerySpending.CapsHoldIff` and `QuerySpending.SpendingBoundedIff`.
- A run of the budget issues a warning after a critical event exactly when some call meets the stated condition
  (`IterationBudget.RunWarnsLateIff`). A turn that starts with an exhausted budget calls nothing
  (`TurnProtocol.ExhaustedStartSendsNothing`).

Where the code and its own documentation differ, the model follows the code:

- `mark_replan` documents a `None` result when nothing changed and there is no earlier snapshot. Without an earlier
  snapshot every node counts as added, so that branch is never taken (`Replans.FirstReplanAddsEverything`).
- Root patches never clear a completion time, so a renderer can show a completion time on a running root
  (`StaleCompletion.StaleWitness`).
- The summary is said to keep the continuity state verbatim. A message that lists its blocker as two dashes is recorded
  with a blocker of one space, and the next compression records the next step's line as the blocker
  (`ContinuityRoundTrip.SwallowWitness`).
- Items under a `- Pending questions:` line have a branch of their own. The pattern for whole lines takes the first item
  before that branch is asked, because its white space crosses the line feed (`ContinuityPending.AnnouncedItemIsBlocker`);
  the branch counts only where a later line empties that value (`ContinuityPending.NestedWitness`).
- An empty dictionary returned by a modifying hook is not dispatched; the original arguments are
  (`HookPipeline.RunsOnRewrittenArguments`); a query can be charged past both caps that way
  (`QuerySpending.LiftedCapsWitness`).
- A warning event can follow a critical event, in the same call or in a later one (`IterationBudget.RunWarnsLateIff`).
- A budget seeded from outside is said to be preserved on the first run. Its wall time only decides whether the first
  call is made: the first answered call overwrites it (`TurnProtocol.SeededWallTimeIsForgotten`).
- A negative estimate passes both caps and lowers the session cost, so later queries can spend more than the cap
  (`QuerySpending.RefundThenSpendRuns`).
- A turn that raises between storing its answer and clearing its checkpoint is taken up again from the checkpoint, and
  the new history lacks the answer (`TurnProtocol.LostAnswerWitness`).
- With `keep_recent` 0 compression cuts nothing and makes the list longer (`ContextManager.KeepingNothingCutsNothing`).

## Model

| member | source | states |
|---|---|---|
| WorkflowTracker.WorkflowTrackerHook.OnSessionInit | src/ds_agent/agent/ds_workflow_hooks.py:264-268 | a session start resets every field, announces the plan and completes scoping when a contract is active; new state and emitted events are those of the state machine |
| WorkflowTracker.WorkflowTrackerHook.OnPreToolUse | src/ds_agent/agent/ds_workflow_hooks.py:270-330 | a tracked tool enters its stage: a pending or finished stage starts (again), a running one is left alone; exact new state and event list |
| WorkflowTracker.WorkflowTrackerHook.EnterStage | src/ds_agent/agent/ds_workflow_hooks.py:275-329 | entering a stage: checkpoint, step and two patches, then a replan if the stage was finished before, otherwise a snapshot |
| WorkflowTracker.WorkflowTrackerHook.MarkRunning | src/ds_agent/agent/ds_workflow_hooks.py:279-287 | the dictionary updates of a start; a repeated start also clears completion time and reasoning references |
| WorkflowTracker.WorkflowTrackerHook.EmitRunning | src/ds_agent/agent/ds_workflow_hooks.py:298-322 | the four events of a start: checkpoint, step, stage patch and root patch, in this order |
| WorkflowTracker.WorkflowTrackerHook.OnPostToolUse | src/ds_agent/agent/ds_workflow_hooks.py:332-376 | a tracked tool's outcome sets status and completion time, keeps the current stage id, and emits step, stage patch and root patch |
| WorkflowTracker.WorkflowTrackerHook.OnMarkReplan | src/ds_agent/agent/ds_workflow_hooks.py:378-391 | emits exactly one replan from the stored snapshot to the current tree and returns its diff |
| WorkflowTracker.WorkflowTrackerHook.EmitPlanReplanned | src/ds_agent/agent/ds_workflow_hooks.py:510-536 | the diff is between the flattened snapshot and the flattened current tree, and the snapshot becomes current |
| WorkflowTracker.WorkflowTrackerHook.OnRecordReasoningRef | src/ds_agent/agent/ds_workflow_hooks.py:393-423 | a new reference goes to the named or running stage once; the stage is returned even when the reference was known |
| WorkflowTracker.WorkflowTrackerHook.CurrentActiveStageId | src/ds_agent/agent/ds_workflow_hooks.py:227-237 | the first running stage in workflow order, or none |
| WorkflowTracker.WorkflowTrackerHook.CompleteScopingFromActiveContract | src/ds_agent/agent/ds_workflow_hooks.py:466-499 | an active contract completes scoping unless it is done already |
| WorkflowTracker.WorkflowTrackerHook.EnsurePlanEmitted | src/ds_agent/agent/ds_workflow_hooks.py:462-464 | the plan is announced before the first other event, once |
| WorkflowTracker.WorkflowTrackerHook.EmitPlanCreated | src/ds_agent/agent/ds_workflow_hooks.py:501-505 | the announced tree is the current one and becomes the snapshot |
| WorkflowTracker.WorkflowTrackerHook.SnapshotPlanTree | src/ds_agent/agent/ds_workflow_hooks.py:507-508 | the snapshot becomes the current tree |
| WorkflowTracker.WorkflowTrackerHook.Reset | src/ds_agent/agent/ds_workflow_hooks.py:435-442 | every field returns to its initial value |
| WorkflowTracker.WorkflowTrackerHook.Restore | src/ds_agent/agent/ds_workflow_hooks.py:458-460 | restoring a known current stage id changes that field only; an unknown id is ignored |
| WorkflowPlan.PlanTreeWellFormed | src/ds_agent/agent/ds_workflow_hooks.py:538-577 | every plan tree the tracker builds has unique ids and parent links that agree with nesting |
| WorkflowPlan.RootShowsProgress | src/ds_agent/agent/ds_workflow_hooks.py:120-131 | for every record the root, in the tree and in the patch, is running iff a stage is, or none failed and some but not all are done; failed iff none runs and one failed; completed iff all are done; pending iff all are; never skipped |
| WorkflowPlan.RootShowsTimes | src/ds_agent/agent/ds_workflow_hooks.py:579-606 | the root starts at the least start time any stage has; a completed or failed one completes at the greatest completion time any stage has; the root patch carries both and the status |
| WorkflowPlan.ChildrenShowRecord | src/ds_agent/agent/ds_workflow_hooks.py:558-577 | each child shows the times, references and status recorded of its stage, in workflow order |
| WorkflowPlan.Earliest | src/ds_agent/agent/ds_workflow_hooks.py:594-598 | the root starts at the least recorded start time, or has none |
| WorkflowPlan.Latest | src/ds_agent/agent/ds_workflow_hooks.py:600-606 | a finished root completes at the greatest recorded completion time |
| TrackerHistory.TrackerRefinesHistory | src/ds_agent/agent/ds_workflow_hooks.py:264-376 | on every trace a stage's status, start and completion time are functions of that stage's own events since the last session start |
| TrackerHistory.StartAfterIsLastStart | src/ds_agent/agent/ds_workflow_hooks.py:277-282 | the recorded start is the time of the latest event that began an attempt, and there is none iff no attempt began |
| TrackerHistory.TimestampsMatchStatus | src/ds_agent/agent/ds_workflow_hooks.py:558-577 | completion time iff done or error on every trace; start time iff not pending exactly when the history is empty or contains a start; start before completion under a nondecreasing clock |
| TrackerHistory.UnfinishedStageKeepsRunning | src/ds_agent/agent/ds_workflow_hooks.py:270-376 | a stage that was entered and had no outcome since stays running until its next outcome or session start |
| TrackerEvents.EventsOfCallback | src/ds_agent/agent/ds_workflow_hooks.py:264-423 | from any state: a checkpoint iff a stage starts, a workflow step with the stage's new status and all statuses iff it starts or ends, a created plan iff a session starts or none was announced yet, a replan with its reason iff one is marked or a stage that was over starts again; each at most once, in a fixed order |
| TrackerEvents.CurrentIsLastPut | src/ds_agent/agent/ds_workflow_hooks.py:239-460 | on every trace the current stage is the one that a tool, a contract or a restored id put last, if no session start came behind it |
| TrackerEvents.ReferencesAreHistory | src/ds_agent/agent/ds_workflow_hooks.py:278-287 | on every trace a stage holds, each once, exactly the references recorded for it since the last session start or repeated start of the stage |
| TrackerEvents.ReferencesGrow | src/ds_agent/agent/ds_workflow_hooks.py:409-414 | one more callback clears the references of a stage, adds a new one behind them, or leaves them alone |
| TrackerEvents.ReferenceGoesTo | src/ds_agent/agent/ds_workflow_hooks.py:406-408 | a reference goes to the stage whose id is given, or without one to the first running stage in workflow order |
| DispatchTrace.DispatchedPostsFollowPres | src/ds_agent/agent/core.py:371-405 | whatever the hooks, tools and calls are, the tracker sees an outcome only behind the start of the same call |
| DispatchTrace.DispatchedTimestamps | src/ds_agent/agent/core.py:371-405 | under this dispatch a stage has a start time iff it is not pending, and a completion time iff it is done or failed |
| DispatchTrace.CallDecidesStatus | src/ds_agent/agent/core.py:371-405 | one tool call leaves its stage done or failed when it completes, running when a later hook denies it or the tool crashes, and as it was when an earlier hook denies it |
| DispatchTrace.BrokenCallKeepsRunning | src/ds_agent/agent/core.py:371-393 | a call denied behind the tracker, or whose tool crashes, leaves its stage running until a call for the stage completes or a session starts |
| TrackerHistory.SnapshotAlwaysCurrent | src/ds_agent/agent/ds_workflow_hooks.py:501-536 | after every callback the stored snapshot is the tree that would be built now, and exists once the plan was announced |
| PlanMirror.EventsMirrorTracker | src/ds_agent/agent/ds_workflow_hooks.py:264-606 | folding all events of any trace gives the tracker's tree, except possibly a completion time on a root that has none |
| StaleCompletion.RendererIsExactIff | src/ds_agent/agent/ds_workflow_hooks.py:264-606 | once the plan is announced, the renderer holds exactly the tracker's tree iff the completion time last shown, and not replaced by a whole tree since, is the root's present one |
| StaleCompletion.LosingCompletionGoesStale | src/ds_agent/agent/ds_workflow_hooks.py:579-592 | every callback that takes the root's completion time away without sending a whole tree leaves the old one on show |
| StaleCompletion.MovingOnLeavesCompletionStale | src/ds_agent/agent/ds_workflow_hooks.py:579-592 | in particular, when a plan whose root has failed moves on to an untouched stage |
| StaleCompletion.StaleWitness | src/ds_agent/agent/ds_workflow_hooks.py:579-592 | a run of four callbacks behind which the renderer shows a completion time the root does not have |
| PlanMirror.PatchesDeliver | src/ds_agent/agent/ds_workflow_hooks.py:306-321 | a stage patch followed by the root patch carries the shown tree from one record to the next |
| PlanMirror.ReplanDelivers | electron/src/renderer/application/runtime/applyPlanReplannedDiff.ts:189-197 | whatever was shown, a replan leaves exactly the new tree |
| PlanMirror.RootCompletion | src/ds_agent/agent/ds_workflow_hooks.py:600-606 | when finished stages carry completion times, the root has one iff its status is completed or failed |
| PlanConsumer.FlattenRebuildRoundTrip | electron/src/renderer/application/runtime/applyPlanReplannedDiff.ts:76-145 | rebuilding the flat listing of any well-formed tree gives the tree back |
| PlanConsumer.BuildRestores | electron/src/renderer/application/runtime/applyPlanReplannedDiff.ts:114-142 | from an index that agrees with the tree, building a node restores its whole subtree and visits each node once |
| PlanLinks.LinkedRebuildRoundTrip | electron/src/renderer/application/runtime/applyPlanReplannedDiff.ts:118-142 | a listing without any nested children is rebuilt from its parent links alone, for every well-formed tree |
| PlanLinks.IndexIsLastWins | electron/src/renderer/application/runtime/applyPlanReplannedDiff.ts:84-90 | for every list the index holds, once each, the ids that are not removed, each with the last node that carries it |
| PlanLinks.RootIsFirstFree | electron/src/renderer/application/runtime/applyPlanReplannedDiff.ts:92-111 | for every list the rebuilt root has the first indexed id that is nobody's child and names no indexed parent, or failing that the id of the first node |
| PlanLinks.RevisitIsLeaf | electron/src/renderer/application/runtime/applyPlanReplannedDiff.ts:114-118 | an id met again, as in a cycle of parent links, becomes a leaf and ends the descent |
| PlanDiff.IndexById | src/ds_agent/agent/ds_workflow_hooks.py:166-175 | the loop fills the dictionary of the listing |
| PlanDiff.ByIdIsLastWins | src/ds_agent/agent/ds_workflow_hooks.py:166-175 | an id maps to the last node that carries it, and is present iff some node does |
| PlanDiff.ComputePlanDiff | src/ds_agent/agent/ds_workflow_hooks.py:161-182 | the two set differences and the loop over shared ids give the sorted added, removed and modified ids |
| PlanDiff.DiffIsPartition | src/ds_agent/agent/ds_workflow_hooks.py:176-182 | the three lists are ascending without repetition, pairwise disjoint, and hold exactly the new, gone and changed ids |
| PlanDiff.DiffReverses | src/ds_agent/agent/ds_workflow_hooks.py:161-182 | diffing backwards swaps added with removed and keeps modified |
| PlanDiff.DiffEmptyIff | src/ds_agent/agent/ds_workflow_hooks.py:161-182 | the diff is empty iff both listings have the same ids with the same signatures |
| PlanTree.ChildBlock | src/ds_agent/agent/ds_workflow_hooks.py:134-144 | a child's listing is a contiguous block after the listings of its elder siblings |
| PlanTree.SubtreeInside | src/ds_agent/agent/ds_workflow_hooks.py:134-144 | whatever a listed node lists is listed by its ancestors |
| Replans.ReentryDiffIsExact | src/ds_agent/agent/ds_workflow_hooks.py:278-327 | re-entering a finished stage ends in its one replan, which adds and removes nothing and modifies that stage, the root iff its status changed, and nothing else |
| Replans.MarkedReplanIsEmpty | src/ds_agent/agent/ds_workflow_hooks.py:378-391 | once the plan is announced, a marked replan between callbacks carries an empty diff |
| Replans.FirstReplanAddsEverything | src/ds_agent/agent/ds_workflow_hooks.py:520-525 | a replan without an earlier snapshot lists the whole plan as added |
| Replans.DiffListsStatusChanges | src/ds_agent/agent/ds_workflow_hooks.py:147-182 | between any two records the diff lists exactly the nodes whose status changed |
| VerdictCache.AutoVerifierHook.OnFinalResponse | src/ds_agent/agent/auto_verifier_hook.py:77-231 | one final response: ineligible, hit, or a verifier run with its recorded verdict and stored result |
| VerdictCache.AutoVerifierHook.StoreCachedResult | src/ds_agent/agent/auto_verifier_hook.py:520-529 | assigning, moving to the end and popping while too many entries leaves the newest 64 |
| VerdictCache.PopThenEvict | src/ds_agent/agent/auto_verifier_hook.py:527-528 | popping one oldest entry of an overfull dictionary does not change what eviction leaves |
| VerdictCache.CacheIsRecencyTail | src/ds_agent/agent/auto_verifier_hook.py:103-113 | after any calls the cached keys in order are the last 64 distinct keys of the access history |
| VerdictCache.RecencyIsStackDistance | src/ds_agent/agent/auto_verifier_hook.py:103-113 | a key's place from the end of the recency order is the number of distinct keys accessed since its last access |
| VerdictCache.HitIffRecentlyUsed | src/ds_agent/agent/auto_verifier_hook.py:103-113 | an eligible call is a hit iff its key was accessed before and fewer than 64 distinct keys since |
| VerdictCache.CachedResultIsLatestMiss | src/ds_agent/agent/auto_verifier_hook.py:520-529 | every cached result is the one the key's latest verifier run led to |
| VerdictCache.HitReusesLatestMiss | src/ds_agent/agent/auto_verifier_hook.py:103-113 | a hit returns that result and neither runs the verifier nor records a verdict |
| VerdictCache.MissAnswers | src/ds_agent/agent/auto_verifier_hook.py:115-230 | a miss answers the remediation and a required follow-up iff the verifier judged and blocked, and leaves the response alone otherwise; one run is counted and its verdict or fallback recorded |
| VerdictCache.HitAnswers | src/ds_agent/agent/auto_verifier_hook.py:103-113 | a hit answers what the latest verifier run of its key came to, in the same terms |
| VerdictCache.IneligibleChangesNothing | src/ds_agent/agent/auto_verifier_hook.py:83-94 | without verifier, contract in progress or run id neither memory nor response changes |
| VerdictCache.OneVerdictPerMiss | src/ds_agent/agent/auto_verifier_hook.py:115-189 | the recorded verdicts are those of the misses, in order, one per verifier run |
| HookPipeline.HookRegistry.Register | src/ds_agent/agent/hooks.py:135-137 | registering appends and stably sorts the whole list |
| HookPipeline.RegistrationIsOneStableSort | src/ds_agent/agent/hooks.py:135-137 | after any registrations the list is the one and only stable sort of the registration sequence |
| HookPipeline.HookRegistry.RunPreHooks | src/ds_agent/agent/hooks.py:155-182 | the loop computes the verdict, shows each hook the arguments rewritten so far, and calls no hook after the first that denies |
| HookPipeline.PreVerdict | src/ds_agent/agent/hooks.py:155-182 | denied iff some hook denies the arguments rewritten so far, with the first such hook's answer; otherwise the last rewrite is allowed |
| HookPipeline.ArgumentsAreLatest | src/ds_agent/agent/hooks.py:167-181 | behind any hooks stand the arguments of the last hook that answered with a modification and arguments, or the original ones |
| HookPipeline.PreComposes | src/ds_agent/agent/hooks.py:155-182 | two groups of hooks run as the first group, then the second on what the first lets through |
| HookPipeline.RaisingHookIsSkipped | src/ds_agent/agent/hooks.py:167-181 | a hook that raises on the arguments reaching it changes nothing |
| HookPipeline.MiddleHook | src/ds_agent/agent/hooks.py:155-182 | when a call passes, every hook saw arguments it did not deny, and the later hooks start from its rewrite |
| HookPipeline.HookRegistry.RunPostHooks | src/ds_agent/agent/hooks.py:184-210 | every hook is shown the latest modification of those before it, the last one is the result, which is modified iff some hook modified it, and learning is triggered iff some hook asked |
| HookPipeline.ResultsAreChained | src/ds_agent/agent/hooks.py:184-210 | for every list of hooks: hook by hook what is shown, and in the end what comes out, is the modification of the last hook before that gave one, or the own result if none did |
| HookPipeline.PostComposes | src/ds_agent/agent/hooks.py:184-210 | two groups of post hooks run as the first group, then the second on what the first makes of the result |
| HookPipeline.AsksToLearnIff | src/ds_agent/agent/hooks.py:206-207 | a hook that returns asks to learn iff its flag is set, whether or not it modifies the result |
| HookPipeline.HookRegistry.RunFinalResponseHooks | src/ds_agent/agent/hooks.py:212-233 | modifications chain, a follow-up is required iff some hook asked, and the reason is the last one given |
| HookPipeline.HookRegistry.DispatchSingleTool | src/ds_agent/agent/core.py:361-421 | a dispatch ends denied, crashed without post hooks, or completed with the chained result |
| HookPipeline.CompletedResult | src/ds_agent/agent/core.py:386-421 | a completed dispatch comes to the latest modification of what the tool itself returned for the arguments it ran with |
| HookPipeline.RunsOnRewrittenArguments | src/ds_agent/agent/core.py:371-391 | denied iff some hook denies; otherwise the tool runs on the last rewrite iff that is not an emptied dictionary |
| QueryCostGuard.QueryCostGuardHook.PreToolUse | src/ds_agent/agent/query_cost_guard_hook.py:42-122 | the guard's answer for every tool, argument dictionary and service reply, including raising services |
| QueryCostGuard.QueryCostGuardHook.PostToolUse | src/ds_agent/agent/query_cost_guard_hook.py:124-136 | a successful SQL query adds its numeric, non-boolean estimate and nothing else does |
| QueryCostGuard.GuardChecksEstimate | src/ds_agent/agent/query_cost_guard_hook.py:75-122 | arguments that leave the guard carry no estimate or one within both caps |
| QueryCostGuard.GuardDecides | src/ds_agent/agent/query_cost_guard_hook.py:51-122 | with services that answer, a query is denied iff it is empty, unsafe or over a cap, and otherwise handed on with its amount filled in |
| QueryCostGuard.GuardAsks | src/ds_agent/agent/query_cost_guard_hook.py:83-99 | the guard depends on the estimator only through its answer for the query on the connector named, or the default one, with the time limit given as a number, or none |
| QueryCostGuard.OthersPass | src/ds_agent/agent/query_cost_guard_hook.py:48-136 | other tools pass as they are, and neither they nor failed queries are charged |
| QueryCostGuard.EmptyIff | src/ds_agent/agent/query_cost_guard_hook.py:51-56 | a query counts as empty iff it is none, false, zero, the empty text or an empty container |
| QueryCostGuard.ChargedAsEstimatedIff | src/ds_agent/agent/query_cost_guard_hook.py:75-136 | with services that answer, a passing query is charged its estimate iff it does not carry the flag `true` where the estimate is exactly 1; that flag stays in place and counts as nothing |
| QueryCostGuard.FlagMasksWitness | src/ds_agent/agent/query_cost_guard_hook.py:75-136 | a query flagged `true` with an estimate of 1 passes and is charged nothing |
| QuerySpending.CapsHoldIff | src/ds_agent/agent/core.py:371-405 | whatever the caps of a guard that lets the query pass, they bound what is charged iff it carries no estimate in the end or at most the amount the guard checked |
| QuerySpending.EmptiedRewriteLiftsCaps | src/ds_agent/agent/core.py:377-378 | when the last rewrite empties the dictionary, the query carries its original estimate, and the caps bound it iff that is none or at most the amount the guard checked |
| QuerySpending.LiftedCapsWitness | src/ds_agent/agent/core.py:371-405 | a dispatch that charges 1000 past a guard with caps of 10 and 100, which checked 1 |
| QuerySpending.DispatchedEstimate | src/ds_agent/agent/core.py:371-391 | between any hooks before it and hooks after it that keep query and estimate, a successful query carries an amount within both caps or none, as the tool validates its query too |
| QuerySpending.CostIsLogged | src/ds_agent/agent/query_cost_guard_hook.py:124-136 | over every run the session cost grows by the numeric estimates in the arguments of the successful SQL queries, and the caps never change |
| QuerySpending.SpendingStaysWithinCaps | src/ds_agent/agent/query_cost_guard_hook.py:33-136 | over every run the estimates of the successful queries add up to at most the session cap, and each is within the per-query cap |
| QuerySpending.SpentStaysWithinCapAndRefunds | src/ds_agent/agent/query_cost_guard_hook.py:33-136 | over every run the positive charges alone are at most the session cap plus what negative charges gave back |
| QuerySpending.SpendingBoundedIff | src/ds_agent/agent/query_cost_guard_hook.py:75-136 | the session cap bounds the positive charges of every run whose charges are not below a floor iff the floor is not negative |
| QuerySpending.RefundThenSpendRuns | src/ds_agent/agent/query_cost_guard_hook.py:75-136 | after one query with a negative estimate, queries up to the cap plus that amount pass and are charged |
| IterationBudget.Budget.Consume | src/ds_agent/agent/budget_tracker.py:38-47 | one record is booked and the events of the threshold pass are returned |
| IterationBudget.Budget.CheckThresholds | src/ds_agent/agent/budget_tracker.py:94-145 | the loop over the four dimensions gives the events and flags of the pass and changes nothing else |
| IterationBudget.Budget.Reset | src/ds_agent/agent/budget_tracker.py:80-85 | usage and flags start afresh, under the new policy if one is given |
| IterationBudget.RunTotals | src/ds_agent/agent/budget_tracker.py:38-47 | over any run from any state the iterations grow by the number of calls, tokens and cost by their sums, and the wall time is that of the last call |
| IterationBudget.EventsShowUsage | src/ds_agent/agent/budget_tracker.py:96-143 | every event of a call shows what is used of its dimension and the limit the policy sets, at the level its percentage calls for |
| IterationBudget.WhenFlagsAreSet | src/ds_agent/agent/budget_tracker.py:104-143 | a critical event iff some dimension is in the critical band; a warning iff some dimension in the warning band is not the one the critical event is spent on |
| IterationBudget.ExhaustedEventsAreUsedUp | src/ds_agent/agent/budget_tracker.py:109-119 | the dimensions reported as exhausted are exactly the limited ones that are used up |
| IterationBudget.AtMostOneOfEach | src/ds_agent/agent/budget_tracker.py:120-143 | from any state, a run issues a warning (a critical event) exactly when it sets that flag, and then exactly one |
| IterationBudget.ExhaustionIsReported | src/ds_agent/agent/budget_tracker.py:50-56 | a call reports exhaustion iff some limited dimension is used up; with all limits positive, iff the budget is exhausted |
| IterationBudget.ExhaustionIsAbsorbing | src/ds_agent/agent/budget_tracker.py:38-56 | from any state, with non-negative usage and a clock that does not run backwards, a budget exhausted after a call stays exhausted |
| IterationBudget.SeededExhaustionIff | src/ds_agent/agent/budget_tracker.py:38-56 | for the budget object alone: a seeded state is exhausted after every run of booked calls iff iterations with the next call, tokens or cost reach their limits or the wall time limit is not positive |
| TurnProtocol.ExhaustedStartSendsNothing | src/ds_agent/agent/core.py:226-267 | the agent books nothing on an exhausted budget: a turn that starts with one sends nothing and leaves it as it is |
| TurnProtocol.SeededWallTimeIsForgotten | src/ds_agent/agent/core.py:1114-1123 | two carried-over budgets that differ in wall time alone, neither exhausted, give the same turn once the first call is answered |
| IterationBudget.PassWarnsLateIff | src/ds_agent/agent/budget_tracker.py:104-145 | one pass issues a warning after a critical event iff both are still to be issued and the first dimension in the critical band comes before one in the warning band and after none |
| IterationBudget.RunWarnsLateIff | src/ds_agent/agent/budget_tracker.py:38-145 | a run from any state does so iff at some call the warning is still to be issued, and either an earlier call issued the critical event and a dimension is in the warning band, or that pass does |
| IterationBudget.WarningCanFollowCritical | src/ds_agent/agent/budget_tracker.py:120-143 | in particular when iterations and tokens are in the critical band at once |
| Messages.CutItems | src/ds_agent/agent/context_manager.py:96-97 | any cut through complete items leaves cut-off tool messages followed by complete items |
| Messages.SummaryKeepsConversation | src/ds_agent/agent/context_manager.py:96-142 | a summary in front of the last messages of a conversation is a conversation again |
| Messages.ConversationHasNoSystem | src/ds_agent/agent/context_manager.py:90-91 | a conversation holds no system message |
| Messages.SplitIsPartition | src/ds_agent/agent/context_manager.py:90-91 | every message of any list is among the system messages or among the others, as often as in the list |
| ContextManager.CompressKeepsRequest | src/ds_agent/agent/context_manager.py:88-142 | compression keeps the grammar wherever the cut falls, and leaves the system message, a summary and the last messages |
| ContextManager.CompressedRequest | src/ds_agent/agent/context_manager.py:88-142 | which messages a successful compression keeps, and in which order |
| ContextManager.SummaryIsAskedFor | src/ds_agent/agent/context_manager.py:90-124 | the one request for a summary is made from exactly the messages between the system message and those kept, and from the state extracted from them |
| ContextManager.KeepingNothingCutsNothing | src/ds_agent/agent/context_manager.py:96-97 | with nothing to keep, the slices cut nothing and a summary is added in front |
| AgentLoop.DSAgent.constructor | src/ds_agent/agent/core.py:612-626 | a new agent goes on from the session's checkpoint if there is a store with one, or else from its transcript if there is a store for those |
| AgentLoop.DSAgent.StartTurn | src/ds_agent/agent/core.py:1098-1123 | a budget seeded from outside is carried over, any other is reset |
| AgentLoop.DSAgent.RestoreCheckpoint | src/ds_agent/agent/core.py:650-659 | a checkpoint of another session raises and changes nothing; otherwise history and step are taken over |
| AgentLoop.DSAgent.SaveCheckpoint | src/ds_agent/agent/core.py:627-638 | with a session and a checkpoint store, the step and the messages without the system message are stored |
| AgentLoop.DSAgent.FinalizeTurn | src/ds_agent/agent/core.py:854-904 | history and, with its store, transcript become the messages plus the answer, the turn is reported complete and its checkpoint cleared; an exception at any of the points between leaves what came before it |
| AgentLoop.DSAgent.Loop | src/ds_agent/agent/core.py:226-359 | the while loop with its exits, tool rounds, compression and exceptions before the call, in the call and behind the answer computes the recursive run; it ends because each round uses an iteration |
| AgentLoop.DSAgent.RunTools | src/ds_agent/agent/core.py:310-326 | one tool message per call, in the order of the calls, with the call's id, name and own result |
| AgentLoop.DSAgent.Run | src/ds_agent/agent/core.py:183-359 | a whole turn: start, resume, opening messages, loop, with exceptions before and behind the first saved checkpoint |
| TurnProtocol.TurnIsSound | src/ds_agent/agent/core.py:184-359 | for all inputs a turn keeps history, transcript and checkpoint conversations and sends only requests that obey the grammar |
| TurnProtocol.LifeIsSound | src/ds_agent/agent/core.py:612-659 | the same over any sequence of turns, interruptions, resumptions and restarts |
| TurnProtocol.OneSystemMessage | src/ds_agent/agent/core.py:179-181 | every list the loop ever sent has exactly one system message, the first, and a conversation behind it |
| TurnProtocol.SummaryRequestsAreBare | src/ds_agent/agent/context_manager.py:118-124 | every request for a summary ever sent is a single user message |
| TurnProtocol.NoSystemMessageStored | src/ds_agent/agent/core.py:861-875 | history, transcript and checkpoint never hold a system message |
| TurnProtocol.StartsAtZero | src/ds_agent/agent/core.py:1114-1123 | both ways of starting a turn leave no iteration used |
| TurnProtocol.CallsAreBounded | src/ds_agent/agent/core.py:226-334 | in one turn the loop calls the model at most `max_iterations` times, compression at most as often as the loop, and both together at most twice that |
| TurnProtocol.LoopCounts | src/ds_agent/agent/core.py:226-334 | the iterations counted are the loop's calls, or one fewer when the last call failed; each asks for at most one summary |
| TurnProtocol.TurnProtocolHolds | src/ds_agent/agent/core.py:197-359 | a started turn reports its steps one by one and makes one call per step, save a last one an exception stops; when it returns it reports exactly one completion after at most one failure, when it raises a beginning of that |
| TurnProtocol.TurnSettles | src/ds_agent/agent/core.py:854-904 | every return leaves answer, transcript and no checkpoint; a turn that raises behind its first save leaves a checkpoint its session can resume from, and unless it was being finished the old history and transcript |
| TurnProtocol.TurnEndsLike | src/ds_agent/agent/core.py:854-904 | how an exception while a turn is finished changes it: nothing if the undisturbed turn raises; otherwise it raises, keeps a checkpoint without the answer, and stores the answer iff it came behind that |
| TurnProtocol.RestartAfterRaise | src/ds_agent/agent/core.py:612-626 | what the next process goes on from: the history an undisturbed turn leaves iff nothing was raised at the end, and otherwise exactly that history without the answer |
| TurnProtocol.LostAnswerWitness | src/ds_agent/agent/core.py:874-902 | a turn whose answer is in the stored transcript and not in the history of the next process |
| TurnProtocol.NothingIsLost | src/ds_agent/agent/core.py:861-873 | unless the context fills up, the new history starts with the old one and the user's message |
| TurnContents.TurnLeaves | src/ds_agent/agent/core.py:226-359 | a turn that returns and never fills its context leaves the old history, the request, per answered step the model's content and calls and one tool message per call with that call's id, name and result, and the answer; each request is the list before its step, and the closing events name what ended the turn |
| Continuity.ExtractContinuityState | src/ds_agent/agent/context_manager.py:145-159 | the loop over the messages, newest first, fills what is still missing and stops when nothing is |
| Continuity.ExtractPendingQuestion | src/ds_agent/agent/context_manager.py:196-211 | the line loop returns the first item under an announcement of pending questions |
| ContinuityPending.BlockerPrecedence | src/ds_agent/agent/context_manager.py:175-193 | for every message that is not blank: the blocker line wins, then the pending-question line, then the item under an announcement, then the last hinted question, each only where none before it has a value |
| ContinuityPending.PendingIsFirstItem | src/ds_agent/agent/context_manager.py:196-211 | a pending question is read iff some item follows an announcement with only blank lines and announcements between; then it is the first such item |
| ContinuityPending.QuestionsAreWhole | src/ds_agent/agent/context_manager.py:188 | every question found is text without a sentence end, behind a sentence end or the start, with the whole run of question marks behind it |
| ContinuityPending.MarkIsInQuestion | src/ds_agent/agent/context_manager.py:188 | every question mark of a text belongs to a question found |
| ContinuityPending.HintedIsLast | src/ds_agent/agent/context_manager.py:188-193 | among the questions the last one with a hint in it counts, and none does iff none has a hint |
| ContinuityPending.PendingLineIsBlocker | src/ds_agent/agent/context_manager.py:175-186 | a message with a pending-question line, in either spelling, records its question, or the value of a blocker line next to it |
| ContinuityPending.AnnouncedItemIsBlocker | src/ds_agent/agent/context_manager.py:48-50 | an item printed under an announcement is read by the pattern for whole lines, as that whole line without its outer marks |
| ContinuityPending.SilencedItemIsBlocker | src/ds_agent/agent/context_manager.py:184-186 | when a later line leaves that pattern with nothing, the item itself is recorded |
| ContinuityPending.PendingWitness | src/ds_agent/agent/context_manager.py:180-182 | a message that asks a pending question on one line records it |
| ContinuityPending.NestedWitness | src/ds_agent/agent/context_manager.py:184-186 | a message whose announced item is recorded as an item |
| ContinuityScan.BlockValues | src/ds_agent/agent/context_manager.py:39-50 | in a printed block a pattern finds the values of the lines it takes, in order, where a blank value gives way to the first line with text below it, above any text in which it finds nothing |
| ContinuityScan.BlankValueIsLast | src/ds_agent/agent/context_manager.py:39-50 | where only white space is left behind a colon, the value is its last character that is not a line feed, if there is one |
| ContinuityText.FieldOfText | src/ds_agent/agent/context_manager.py:214-218 | a field read from a summary message is the last value found in its lines, cleaned |
| ContinuityText.TextIsQuiet | src/ds_agent/agent/context_manager.py:196-211 | no pending question is read from a summary message, unless the text below the block announces one |
| ContinuityText.QuestionsOfText | src/ds_agent/agent/context_manager.py:188-193 | the questions of a summary message are those of its lines and of the text below them |
| ContinuityText.StageRoundTrip | src/ds_agent/agent/context_manager.py:162-172 | a printed stage id is read as that stage |
| ContinuityText.CleanIsPlain | src/ds_agent/agent/context_manager.py:221-222 | whatever cleaning returns has no white space but plain spaces, so it can be recorded on one line |
| ContinuityText.CleaningComesToRest | src/ds_agent/agent/context_manager.py:221-222 | cleaning a value with only plain spaces leaves it alone or makes it shorter |
| ContinuityText.PlainProseIsInert | src/ds_agent/agent/context_manager.py:39-51 | text of the model's own without a colon and a question mark adds no field and no question |
| ContinuityRoundTrip.ExtractedIsPlain | src/ds_agent/agent/context_manager.py:145-222 | whatever the messages say, an extracted blocker or next step has only plain spaces and fits on one line |
| ContinuityRoundTrip.SummaryReadsBack | src/ds_agent/agent/context_manager.py:130-159 | what the next compression reads from a summary message of any extractable state: the stage, each value cleaned or, where it is blank, the next line with text, and a hinted question where no blocker is read |
| ContinuityRoundTrip.ContinuityRoundTrips | src/ds_agent/agent/context_manager.py:130-222 | any extractable state comes back unchanged iff every value is not empty and what its line is read as, and without a blocker its next step asks no hinted question |
| ContinuityRoundTrip.KeepsIffStable | src/ds_agent/agent/context_manager.py:221-222 | for values that are not blank this means that cleaning leaves them alone, whatever the model's own summary says |
| ContinuityRoundTrip.BlankBlockerSwallows | src/ds_agent/agent/context_manager.py:42-50 | a blank blocker above a next step never comes back: that line is read as the blocker |
| ContinuityRoundTrip.SwallowWitness | src/ds_agent/agent/context_manager.py:42-50 | a message with a blocker of two dashes is recorded with a blocker of one space, and its summary is read with the next step as blocker |
| ContinuitySurvival.SummaryStandsForMessages | src/ds_agent/agent/context_manager.py:145-159 | extracting from a summary and later messages gives what extracting from the summarised and the later messages gives, when both states are steady |
| ContinuitySurvival.NextSummaryRecords | src/ds_agent/agent/context_manager.py:96-142 | the summary of any summary and later messages records the later findings over what the old one is read as |
| ContinuitySurvival.CompressionRecords | src/ds_agent/agent/context_manager.py:88-142 | after any rounds of new messages and compressions, the list is the uncompressed one behind a summary with the state that these findings add up to, whether or not the states come back |
| ContinuitySurvival.StageIsNeverLost | src/ds_agent/agent/context_manager.py:151-152 | once a summary records a stage, every later one does |
| ContinuitySurvival.CompressionLosesNoContinuity | src/ds_agent/agent/context_manager.py:88-142 | after any rounds of new messages and compressions that keep at least one message, the list is the uncompressed one, or that with its front replaced by the summary of everything in it |
| ContinuitySurvival.ContinuitySurvives | src/ds_agent/agent/context_manager.py:88-142 | a steady state stays in the first message behind the system message through any number of compressions, as long as the messages in between record nothing |
| ChunkText.SplitText | src/ds_agent/channels/base.py:91-109 | the loop ends for every text and limit and computes the pieces |
| ChunkText.ChunksSplitText | src/ds_agent/channels/base.py:99-109 | chunks fit, weave back to the text with runs of line feeds, are torn only at exactly the limit, cut as late as possible, and only the first can be empty |
| ChunkText.OnlyLineFeedsAreLost | src/ds_agent/channels/base.py:91-109 | all other characters are kept, in order, for every limit |
| ChunkText.UntornTexts | src/ds_agent/channels/base.py:93-98 | without a limit a text is one chunk, or none when empty; a text that fits is one chunk, even when empty |
| ChunkText.PlainTextChunks | src/ds_agent/channels/base.py:99-109 | a text without line feeds comes apart into ceil(n / limit) chunks, all full but the last |
| SelfDebug.SelfDebugHook.PostToolUse | src/ds_agent/agent/self_debug_hook.py:204-279 | one finished call: new dictionaries and report |
| SelfDebug.MemoryReflectsTrace | src/ds_agent/agent/self_debug_hook.py:195-232 | what is kept for a tool is a function of that tool's own calls; the signature history has one entry per retry |
| SelfDebug.ReportOnCall | src/ds_agent/agent/self_debug_hook.py:204-279 | a success is passed over in silence; on an error the attempt counts the tool's errors since its last success, repetition means the signature occurred among them, escalation iff the attempt passes the limit, listing every error the tool ever had |
| SelfDebug.OtherToolsDoNotMatter | src/ds_agent/agent/self_debug_hook.py:195-279 | histories that agree on a tool get the same report for it |
| StageScore.ScoreStage | src/ds_agent/agent/ds_workflow_hooks.py:996-1017 | the two loops over the stage's rubric give the verdicts and the passed points minus 30 per failed critical entry, held between 0 and 100 |
| StageScore.PerfectIffAllPass | src/ds_agent/agent/ds_workflow_hooks.py:820-911 | with the rubrics as they are, a stage scores 100 iff every entry passes, and the upper bound never cuts anything off |
| StageScore.PassesIff | src/ds_agent/agent/ds_workflow_hooks.py:1003-1007 | an entry passes iff one of its keywords occurs somewhere in the text; the leakage entry fails iff leakage occurs and a leakage check does not |
| StageScore.MoreTextScoresMore | src/ds_agent/agent/ds_workflow_hooks.py:996-1017 | for entries other than the leakage entry, a score never falls when text is added in front or behind |
| StageScore.StageQualityHook.PostToolUse | src/ds_agent/agent/ds_workflow_hooks.py:914-969 | a successful tool of the mapping replaces its stage's score and verdicts and reports them; anything else changes and reports nothing |
| StageScore.StageQualityHook.GetOverallScore | src/ds_agent/agent/ds_workflow_hooks.py:971-990 | the loop over the weights gives the rounded weighted mean and its grade |
| StageScore.OverallStaysBetween | src/ds_agent/agent/ds_workflow_hooks.py:971-990 | for any recorded weighted stages the overall score lies between their lowest and highest score |
| StageScore.OverallIsNearest | src/ds_agent/agent/ds_workflow_hooks.py:971-990 | the overall score is the nearest integer, ties to even, to the mean of the recorded stages under the six weights |
| StageScore.GradeBands | src/ds_agent/agent/ds_workflow_hooks.py:1090-1099 | the grade tells between which of the four thresholds the overall score lies |
| StageScore.NothingRecorded | src/ds_agent/agent/ds_workflow_hooks.py:988-990 | without a recorded weighted stage the overall score is 0 and the grade the lowest |

## Left out

- The `stages` dictionary in a `workflow.step` payload is the tracker's live object; the model sends its value at the time.
- `toolEventRefs` of plan nodes: no code fills them.
- `restore(stage_statuses=...)` and rewinding to a stage: they rewrite statuses without events and have no caller in the modelled code.
- Node lists whose ids are not strings, and replan lists whose children are missing from the list: the tracker never sends them.
- The renderer's handling of a replan with an empty node list: the tracker's list always holds nine nodes.
- WorkflowTracker.WorkflowTrackerHook.EmitPlanReplanned: has no branch for skipping the event, which FirstReplanAddsEverything shows to be unreachable.
- QuerySpending.SpendingStaysWithinCaps: estimates are finite reals, so infinities and NaN are not modelled.
- Hooks that change an argument dictionary in place, or that are called again while they run: a hook is what it answers.
- The effects of providers, tools, stores, audit files, websockets and result cards, and the persistence of a verdict: they are inputs or counted calls.
- The session-init injections, working memory, goals and mission patches: they only change prompt texts and side stores.
- `_current_turn_messages` and message ids: copies and labels of the message lists.
- AgentLoop.DSAgent.Run: an exception raised while an event is emitted is modelled as one right behind it.
- AgentLoop.DSAgent.RunTools: tool results are inputs of the turn; the dispatch that produces them is modelled beside it in HookPipeline.
- The token threshold of compression and the previews in the summary prompt: when to compress and what the model answers are inputs.
- ContinuityRoundTrip.ContinuityRoundTrips: no line of the model's own summary is taken to match one of the four patterns, to announce pending questions or to ask a hinted question; such lines can add or override fields.
- ContinuitySurvival.CompressionLosesNoContinuity: with a `keep_recent` of 0 nothing is cut, and every compression adds a summary.
- Lower-casing beyond characters whose lower case holds an ASCII letter: no pattern can tell.
- StageScore.StageQualityHook.PostToolUse: code and result come joined and in lower case; a `code` argument that is not a string raises.
- How an error signature, a cache key or an error flag is computed from text: they are inputs.
- StageScore.OverallStaysBetween: weights and means are exact, so the rounding of binary floating point is not modelled.
- IterationBudget.Budget.Consume: percentages are exact reals, and the pricing history that `reset` clears is not modelled.
- Concurrent use of one agent or hook: callbacks run one after the other.
- Permission, approval and organisation policies, confidence and backtrack limits, the desktop and mobile shells and the parity harness: other programs' worth of rules that the modelled core does not depend on.
