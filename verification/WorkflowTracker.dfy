/**
 * The workflow tracker hook: a state machine per stage that publishes its plan tree as events.
 * `Next` says what one callback does to the tracker's state and which events it emits; the class
 * keeps the tracker's fields and is proved against it, callback by callback.
 */
module WorkflowTracker {
  import opened Options
  import opened PlanTree
  import opened PlanDiff
  import opened WorkflowPlan

  datatype ReplanDiff = ReplanDiff(oldNodes: seq<PlanNode>, newNodes: seq<PlanNode>, ids: IdDiff, reason: string)

  datatype Event =
    | Checkpoint(stage: Stage, at: int)
    | WorkflowStep(stage: Stage, status: StageStatus, stages: map<Stage, StageStatus>)
    | PlanCreated(tree: PlanNode)
    | PlanUpdated(nodeId: string, updates: PlanPatch)
    | PlanReplanned(diff: ReplanDiff)

  datatype Tracker = Tracker(book: Book, current: Option<Stage>, planEmitted: bool, previous: Option<PlanNode>)

  const INITIAL: Tracker := Tracker(EmptyBook(), None, false, None)

  datatype Callback =
    | SessionInit(hasContract: bool, now: int)
    | PreToolUse(tool: string, now: int)
    | PostToolUse(tool: string, isError: bool, now: int)
    | RecordReasoningRef(reasoningId: string, stageId: string)
    | MarkReplan(reason: string)
    | RestoreCurrent(stageId: string)

  datatype Step = Step(tracker: Tracker, events: seq<Event>)

  ghost function Then(first: Step, rest: Step): Step {
    Step(rest.tracker, first.events + rest.events)
  }

  ghost function Snapshot(t: Tracker): Tracker {
    t.(previous := Some(PlanTreeOf(t.book)))
  }

  ghost function EmitCreated(t: Tracker): Step {
    Step(Snapshot(t).(planEmitted := true), [PlanCreated(PlanTreeOf(t.book))])
  }

  ghost function EnsureEmitted(t: Tracker): (step: Step)
    ensures step.tracker.book == t.book
  {
    if t.planEmitted then Step(t, []) else EmitCreated(t)
  }

  ghost function Replan(t: Tracker, reason: string): (step: Step)
    ensures step.tracker == Snapshot(t)
  {
    var oldNodes := if t.previous.Some? then Flatten(t.previous.value) else [];
    var newNodes := Flatten(PlanTreeOf(t.book));
    Step(Snapshot(t), [PlanReplanned(ReplanDiff(oldNodes, newNodes, DiffOf(oldNodes, newNodes), reason))])
  }

  ghost function RootUpdate(book: Book): Event {
    PlanUpdated(PLAN_ROOT_ID, RootPatch(book))
  }

  function Reentered(stage: Stage): string {
    "Stage '" + StageId(stage) + "' re-executed"
  }

  /** The record after a stage is entered anew, at `now`. */
  ghost function EnterBook(book: Book, stage: Stage, now: int): Book {
    var again := book.status[stage] == Done || book.status[stage] == Error;
    StageBook(
      book.status[stage := Active],
      book.startedAt[stage := Some(now)],
      if again then book.completedAt[stage := None] else book.completedAt,
      if again then book.reasoningRefs[stage := []] else book.reasoningRefs)
  }

  ghost function Enter(t: Tracker, stage: Stage, now: int): (step: Step)
    ensures step.tracker.book == if t.book.status[stage] == Active then t.book else EnterBook(t.book, stage, now)
  {
    var here := t.(current := Some(stage));
    if t.book.status[stage] == Active then Step(here, [])
    else
      var again := t.book.status[stage] != Idle;
      var book := EnterBook(t.book, stage, now);
      var entered := Step(here.(book := book),
        [Checkpoint(stage, now), WorkflowStep(stage, Active, book.status),
         PlanUpdated(StageId(stage), PlanPatch(Some(Running), Some(now), None, None)), RootUpdate(book)]);
      Then(entered, if again then Replan(entered.tracker, Reentered(stage)) else Step(Snapshot(entered.tracker), []))
  }

  ghost function FinishBook(book: Book, stage: Stage, isError: bool, now: int): Book {
    book.(status := book.status[stage := if isError then Error else Done],
          completedAt := book.completedAt[stage := Some(now)])
  }

  ghost function Finish(t: Tracker, stage: Stage, isError: bool, now: int): (step: Step)
    ensures step.tracker.book == FinishBook(t.book, stage, isError, now)
  {
    var book := FinishBook(t.book, stage, isError, now);
    Step(Snapshot(t.(book := book)),
      [WorkflowStep(stage, book.status[stage], book.status),
       PlanUpdated(StageId(stage), PlanPatch(Some(PlanStatusOf(book.status[stage])), None, Some(now), None)),
       RootUpdate(book)])
  }

  ghost function ContractBook(book: Book, now: int): Book {
    book.(status := book.status[Scoping := Done],
          startedAt := book.startedAt[Scoping := Some(now)],
          completedAt := book.completedAt[Scoping := Some(now)])
  }

  ghost function CompleteScoping(t: Tracker, now: int): Step {
    if t.book.status[Scoping] == Done then Step(t, [])
    else
      var book := ContractBook(t.book, now);
      Step(Snapshot(t.(book := book, current := Some(Scoping))),
        [WorkflowStep(Scoping, Done, book.status),
         PlanUpdated(StageId(Scoping), PlanPatch(Some(Completed), Some(now), Some(now), None)),
         RootUpdate(book)])
  }

  /** `current_active_stage_id`: the first stage, in workflow order, that is running. */
  function ActiveFrom(book: Book, k: nat): (r: Option<Stage>)
    requires k <= |ORDERED_STAGES|
    ensures r.Some? ==> book.status[r.value] == Active
    ensures r.None? ==> forall j :: k <= j < |ORDERED_STAGES| ==> book.status[ORDERED_STAGES[j]] != Active
    decreases |ORDERED_STAGES| - k
  {
    if k == |ORDERED_STAGES| then None
    else if book.status[ORDERED_STAGES[k]] == Active then Some(ORDERED_STAGES[k])
    else ActiveFrom(book, k + 1)
  }

  /** The stage a reasoning reference goes to: the named one, or with no name the running one. */
  function RefTarget(book: Book, stageId: string): Option<Stage> {
    if stageId == "" then ActiveFrom(book, 0) else StageOfId(stageId)
  }

  ghost function RecordRef(t: Tracker, reasoningId: string, stageId: string): (step: Step)
    ensures step.tracker.book == t.book.(reasoningRefs := step.tracker.book.reasoningRefs)
  {
    var target := RefTarget(t.book, stageId);
    if target.None? || reasoningId == "" || reasoningId in t.book.reasoningRefs[target.value] then Step(t, [])
    else
      var refs := t.book.reasoningRefs[target.value] + [reasoningId];
      var book := t.book.(reasoningRefs := t.book.reasoningRefs[target.value := refs]);
      Step(Snapshot(t.(book := book)),
        [PlanUpdated(StageId(target.value), PlanPatch(None, None, None, Some(refs)))])
  }

  ghost function Init(hasContract: bool, now: int): Step {
    var created := EmitCreated(INITIAL);
    if hasContract then Then(created, CompleteScoping(created.tracker, now)) else created
  }

  /** One callback: the state it leaves and the events it emits. */
  ghost function Next(t: Tracker, c: Callback): Step {
    match c
    case SessionInit(hasContract, now) => Init(hasContract, now)
    case PreToolUse(tool, now) =>
      var shown := EnsureEmitted(t);
      var stage := StageOfTool(tool);
      if stage.None? then shown else Then(shown, Enter(shown.tracker, stage.value, now))
    case PostToolUse(tool, isError, now) =>
      var shown := EnsureEmitted(t);
      var stage := StageOfTool(tool);
      if stage.None? then shown else Then(shown, Finish(shown.tracker, stage.value, isError, now))
    case RecordReasoningRef(reasoningId, stageId) => RecordRef(t, reasoningId, stageId)
    case MarkReplan(reason) => Replan(t, reason)
    case RestoreCurrent(stageId) =>
      Step(if StageOfId(stageId).Some? then t.(current := StageOfId(stageId)) else t, [])
  }

  /** A whole run of callbacks, from a freshly constructed tracker. */
  ghost function Run(trace: seq<Callback>): Step {
    if trace == [] then Step(INITIAL, [])
    else
      var before := Run(trace[..|trace| - 1]);
      Then(before, Next(before.tracker, trace[|trace| - 1]))
  }

  // ---- the hook object ----

  /** The part of the hook context the tracker uses; `events` is what it has emitted so far. */
  class HookContext {
    const hasActiveContract: bool
    var events: seq<Event>

    constructor (hasActiveContract: bool)
      ensures this.hasActiveContract == hasActiveContract && events == []
    {
      this.hasActiveContract := hasActiveContract;
      events := [];
    }

    method Emit(event: Event)
      modifies this
      ensures events == old(events) + [event]
    {
      events := events + [event];
    }
  }

  class WorkflowTrackerHook {
    var stages: map<Stage, StageStatus>
    var stageStartedAt: map<Stage, Option<int>>
    var stageCompletedAt: map<Stage, Option<int>>
    var stageReasoningRefs: map<Stage, seq<string>>
    var currentStageId: Option<Stage>
    var planEmitted: bool
    var previousPlanTree: Option<PlanNode>

    ghost predicate Valid()
      reads this
    {
      StageBook(stages, stageStartedAt, stageCompletedAt, stageReasoningRefs).Total()
    }

    function Recorded(): Book
      reads this
      requires Valid()
    {
      StageBook(stages, stageStartedAt, stageCompletedAt, stageReasoningRefs)
    }

    ghost function State(): Tracker
      reads this
      requires Valid()
    {
      Tracker(Recorded(), currentStageId, planEmitted, previousPlanTree)
    }

    constructor ()
      ensures Valid() && State() == INITIAL
    {
      var empty := EmptyBook();
      stages, stageStartedAt := empty.status, empty.startedAt;
      stageCompletedAt, stageReasoningRefs := empty.completedAt, empty.reasoningRefs;
      currentStageId, planEmitted, previousPlanTree := None, false, None;
    }

    method Reset()
      modifies this
      ensures Valid() && State() == INITIAL
    {
      var empty := EmptyBook();
      stages, stageStartedAt := empty.status, empty.startedAt;
      stageCompletedAt, stageReasoningRefs := empty.completedAt, empty.reasoningRefs;
      currentStageId, planEmitted, previousPlanTree := None, false, None;
    }

    method SnapshotPlanTree()
      requires Valid()
      modifies this`previousPlanTree
      ensures Valid() && State() == Snapshot(old(State()))
    {
      previousPlanTree := Some(PlanTreeOf(Recorded()));
    }

    method EmitPlanCreated(context: HookContext)
      requires Valid()
      modifies this`planEmitted, this`previousPlanTree, context
      ensures Valid() && State() == EmitCreated(old(State())).tracker
      ensures context.events == old(context.events) + EmitCreated(old(State())).events
    {
      var tree := PlanTreeOf(Recorded());
      context.Emit(PlanCreated(tree));
      planEmitted := true;
      previousPlanTree := Some(tree);
    }

    method EnsurePlanEmitted(context: HookContext)
      requires Valid()
      modifies this`planEmitted, this`previousPlanTree, context
      ensures Valid() && State() == EnsureEmitted(old(State())).tracker
      ensures context.events == old(context.events) + EnsureEmitted(old(State())).events
    {
      if !planEmitted {
        EmitPlanCreated(context);
      }
    }

    method EmitPlanReplanned(context: HookContext, reason: string) returns (diff: ReplanDiff)
      requires Valid()
      modifies this`previousPlanTree, context
      ensures Valid() && State() == Replan(old(State()), reason).tracker
      ensures context.events == old(context.events) + Replan(old(State()), reason).events
      ensures [PlanReplanned(diff)] == Replan(old(State()), reason).events
    {
      var newTree := PlanTreeOf(Recorded());
      var oldNodes := if previousPlanTree.Some? then Flatten(previousPlanTree.value) else [];
      var newNodes := Flatten(newTree);
      var ids := ComputePlanDiff(oldNodes, newNodes);
      diff := ReplanDiff(oldNodes, newNodes, ids, reason);
      context.Emit(PlanReplanned(diff));
      previousPlanTree := Some(newTree);
    }

    method CompleteScopingFromActiveContract(context: HookContext, now: int)
      requires Valid()
      modifies this, context
      ensures Valid()
      ensures var was := old(State());
        var step := if context.hasActiveContract then CompleteScoping(was, now) else Step(was, []);
        State() == step.tracker && context.events == old(context.events) + step.events
    {
      hide PlanTreeOf, RootPatch, StageId, Snapshot;
      if !context.hasActiveContract || stages[Scoping] == Done {
        return;
      }
      currentStageId := Some(Scoping);
      stages := stages[Scoping := Done];
      stageStartedAt := stageStartedAt[Scoping := Some(now)];
      stageCompletedAt := stageCompletedAt[Scoping := Some(now)];
      context.Emit(WorkflowStep(Scoping, Done, stages));
      context.Emit(PlanUpdated(
        StageId(Scoping), PlanPatch(Some(PlanStatusOf(stages[Scoping])), Some(now), Some(now), None)));
      context.Emit(PlanUpdated(PLAN_ROOT_ID, RootPatch(Recorded())));
      SnapshotPlanTree();
    }

    method OnSessionInit(context: HookContext, now: int)
      modifies this, context
      ensures Valid()
      ensures var step := Next(INITIAL, SessionInit(context.hasActiveContract, now));
        State() == step.tracker && context.events == old(context.events) + step.events
    {
      hide PlanTreeOf, EmptyBook, Snapshot, CompleteScoping;
      Reset();
      EmitPlanCreated(context);
      CompleteScopingFromActiveContract(context, now);
    }

    /** `pre_tool_use`, the dictionary updates of a stage that starts or starts again. */
    method MarkRunning(s: Stage, now: int)
      requires Valid()
      modifies this`stages, this`stageStartedAt, this`stageCompletedAt, this`stageReasoningRefs
      ensures Valid() && Recorded() == EnterBook(old(Recorded()), s, now)
    {
      var reenteringTerminal := stages[s] == Done || stages[s] == Error;
      stages := stages[s := Active];
      stageStartedAt := stageStartedAt[s := Some(now)];
      if reenteringTerminal {
        stageCompletedAt := stageCompletedAt[s := None];
        stageReasoningRefs := stageReasoningRefs[s := []];
      }
    }

    /** `pre_tool_use`, the events of a stage that starts or starts again. */
    method EmitRunning(s: Stage, now: int, context: HookContext)
      requires Valid()
      modifies context
      ensures context.events == old(context.events) +
        [Checkpoint(s, now), WorkflowStep(s, Active, stages),
         PlanUpdated(StageId(s), PlanPatch(Some(Running), Some(now), None, None)), RootUpdate(Recorded())]
    {
      hide RootPatch, StageId, PLAN_ROOT_ID;
      context.Emit(Checkpoint(s, now));
      context.Emit(WorkflowStep(s, Active, stages));
      context.Emit(PlanUpdated(StageId(s), PlanPatch(Some(Running), Some(now), None, None)));
      context.Emit(PlanUpdated(PLAN_ROOT_ID, RootPatch(Recorded())));
    }

    /** `pre_tool_use`, the rest of what it does for a tracked tool. */
    method EnterStage(s: Stage, now: int, context: HookContext)
      requires Valid()
      modifies this, context
      ensures Valid() && State() == Enter(old(State()), s, now).tracker
      ensures context.events == old(context.events) + Enter(old(State()), s, now).events
    {
      hide PlanTreeOf, RootUpdate, StageId, Replan, Snapshot, Reentered, EnterBook;
      currentStageId := Some(s);
      var previousStatus := stages[s];
      var reenteringTerminal := previousStatus == Done || previousStatus == Error;
      if previousStatus == Idle || reenteringTerminal {
        MarkRunning(s, now);
        EmitRunning(s, now, context);
        if reenteringTerminal {
          var diff := EmitPlanReplanned(context, Reentered(s));
        } else {
          SnapshotPlanTree();
        }
      }
    }

    method OnPreToolUse(tool: string, now: int, context: HookContext)
      requires Valid()
      modifies this, context
      ensures Valid()
      ensures var step := Next(old(State()), PreToolUse(tool, now));
        State() == step.tracker && context.events == old(context.events) + step.events
    {
      hide PlanTreeOf, StageOfTool, EnsureEmitted, Enter;
      EnsurePlanEmitted(context);
      var stage := StageOfTool(tool);
      if stage.Some? {
        EnterStage(stage.value, now, context);
      }
    }

    method OnPostToolUse(tool: string, isError: bool, now: int, context: HookContext)
      requires Valid()
      modifies this, context
      ensures Valid()
      ensures var step := Next(old(State()), PostToolUse(tool, isError, now));
        State() == step.tracker && context.events == old(context.events) + step.events
    {
      hide PlanTreeOf, RootPatch, StageId, StageOfTool, EnsureEmitted, EmitCreated, Snapshot;
      EnsurePlanEmitted(context);
      var stage := StageOfTool(tool);
      if stage.Some? {
        var s := stage.value;
        stages := stages[s := if isError then Error else Done];
        stageCompletedAt := stageCompletedAt[s := Some(now)];
        context.Emit(WorkflowStep(s, stages[s], stages));
        context.Emit(PlanUpdated(StageId(s), PlanPatch(Some(PlanStatusOf(stages[s])), None, Some(now), None)));
        context.Emit(PlanUpdated(PLAN_ROOT_ID, RootPatch(Recorded())));
        SnapshotPlanTree();
      }
    }

    method OnMarkReplan(context: HookContext, reason: string) returns (diff: ReplanDiff)
      requires Valid()
      modifies this, context
      ensures Valid()
      ensures var step := Next(old(State()), MarkReplan(reason));
        State() == step.tracker && context.events == old(context.events) + step.events
        && step.events == [PlanReplanned(diff)]
    {
      hide PlanTreeOf, Replan;
      diff := EmitPlanReplanned(context, reason);
    }

    method CurrentActiveStageId() returns (r: Option<Stage>)
      requires Valid()
      ensures r == ActiveFrom(Recorded(), 0)
    {
      for k := 0 to |ORDERED_STAGES|
        invariant ActiveFrom(Recorded(), 0) == ActiveFrom(Recorded(), k)
      {
        if stages[ORDERED_STAGES[k]] == Active {
          return Some(ORDERED_STAGES[k]);
        }
      }
      return None;
    }

    /** An empty `stageId` stands for the argument being left out. */
    method OnRecordReasoningRef(context: HookContext, reasoningId: string, stageId: string) returns (r: Option<Stage>)
      requires Valid()
      modifies this, context
      ensures Valid()
      ensures var step := Next(old(State()), RecordReasoningRef(reasoningId, stageId));
        State() == step.tracker && context.events == old(context.events) + step.events
      ensures r == if reasoningId == "" then None else RefTarget(old(Recorded()), stageId)
    {
      hide PlanTreeOf, StageId, StageOfId;
      r := None;
      var target := StageOfId(stageId);
      if stageId == "" {
        target := CurrentActiveStageId();
      }
      if target.None? || reasoningId == "" {
        return;
      }
      r := target;
      var refs := stageReasoningRefs[target.value];
      if reasoningId in refs {
        return;
      }
      refs := refs + [reasoningId];
      stageReasoningRefs := stageReasoningRefs[target.value := refs];
      context.Emit(PlanUpdated(StageId(target.value), PlanPatch(None, None, None, Some(refs))));
      SnapshotPlanTree();
    }

    /** `restore(current_stage_id=...)`. */
    method Restore(stageId: string)
      requires Valid()
      modifies this`currentStageId
      ensures Valid() && State() == Next(old(State()), RestoreCurrent(stageId)).tracker
    {
      if StageOfId(stageId).Some? {
        currentStageId := StageOfId(stageId);
      }
    }
  }
}
