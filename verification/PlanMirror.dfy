/**
 * The event-sourced mirror: a renderer that only folds the tracker's events holds the tracker's
 * plan tree after every callback, up to one field whose staleness is known exactly.
 */
module PlanMirror {
  import opened Options
  import opened PlanTree
  import opened PlanConsumer
  import opened PlanDiff
  import opened StringOrder
  import opened WorkflowPlan
  import opened WorkflowTracker
  import TrackerHistory

  /** The renderer's reaction to one event. Replans whose node list is not self-contained are not modelled. */
  ghost function Consume(shown: Option<PlanNode>, event: Event): Option<PlanNode> {
    match event
    case PlanCreated(tree) => Some(tree)
    case PlanUpdated(nodeId, updates) =>
      if shown.None? then None else Some(PatchNode(shown.value, nodeId, updates))
    case PlanReplanned(diff) =>
      var removed := Elements(diff.ids.removed);
      if diff.newNodes == [] || !Closed(BuildIndex(diff.newNodes, removed)) || diff.newNodes[0].id in removed then shown
      else Rebuild(diff.newNodes, removed)
    case _ => shown
  }

  ghost function Fold(shown: Option<PlanNode>, events: seq<Event>): Option<PlanNode>
    decreases |events|
  {
    if events == [] then shown else Fold(Consume(shown, events[0]), events[1..])
  }

  lemma {:induction false} FoldConcat(shown: Option<PlanNode>, a: seq<Event>, b: seq<Event>)
    ensures Fold(shown, a + b) == Fold(Fold(shown, a), b)
    decreases |a|
  {
    if a == [] {
      assert a + b == b;
    } else {
      assert (a + b)[0] == a[0] && (a + b)[1..] == a[1..] + b;
      FoldConcat(Consume(shown, a[0]), a[1..], b);
    }
  }

  predicate Terminal(status: PlanStatus) {
    status == Completed || status == Failed
  }

  /**
   * `shown` is the tree, except that the root may still carry an old completion time while the
   * real root, not being completed or failed, has none.
   */
  ghost predicate Mirrors(shown: PlanNode, tree: PlanNode) {
    && shown == tree.(completedAt := shown.completedAt)
    && (shown.completedAt != tree.completedAt ==> tree.completedAt == None && !Terminal(tree.status))
  }

  ghost predicate MirrorsTracker(shown: Option<PlanNode>, t: Tracker) {
    && (t.planEmitted ==> shown.Some?)
    && (shown.Some? ==> Mirrors(shown.value, PlanTreeOf(t.book)))
  }

  // ---- replans ----

  lemma {:induction false} RemovedElsewhere(nodes: seq<PlanNode>, removed: set<string>)
    requires forall n :: n in nodes ==> n.id !in removed
    ensures BuildIndex(nodes, removed) == BuildIndex(nodes, {})
  {
    if nodes != [] {
      RemovedElsewhere(nodes[..|nodes| - 1], removed);
    }
  }

  lemma {:induction false} FlattenHead(tree: PlanNode)
    ensures Flatten(tree) != [] && Flatten(tree)[0] == tree
  {
  }

  /** A diff never removes an id of the new listing. */
  lemma {:induction false} NothingRemoved(oldNodes: seq<PlanNode>, tree: PlanNode)
    requires WellFormed(tree)
    ensures forall n :: n in Flatten(tree) ==> n.id !in Elements(DiffOf(oldNodes, Flatten(tree)).removed)
  {
    hide DiffOf, ById, Flatten;
    ByIdOfDistinct(Flatten(tree));
    DiffIsPartition(oldNodes, Flatten(tree));
  }

  /** Whatever was shown, a replan towards a well-formed tree leaves exactly that tree. */
  lemma {:induction false} ReplanDelivers(
    shown: Option<PlanNode>, oldNodes: seq<PlanNode>, tree: PlanNode, reason: string)
    requires WellFormed(tree)
    ensures var diff := ReplanDiff(oldNodes, Flatten(tree), DiffOf(oldNodes, Flatten(tree)), reason);
      Consume(shown, PlanReplanned(diff)) == Some(tree)
  {
    hide Build, FirstUnreferenced, ReferencedAsChild, BuildIndex, Closed, DiffOf, ById, Sorted, Flatten, Elements;
    var removed := Elements(DiffOf(oldNodes, Flatten(tree)).removed);
    FlattenHead(tree);
    NothingRemoved(oldNodes, tree);
    RemovedElsewhere(Flatten(tree), removed);
    FlattenRebuildRoundTrip(tree);
  }

  // ---- patches ----

  lemma {:induction false} PatchLeaf(book: Book, s: Stage, nodeId: string, patch: PlanPatch)
    ensures PatchNode(StageNode(book, s), nodeId, patch) ==
      if StageId(s) == nodeId then Merge(StageNode(book, s), patch) else StageNode(book, s)
  {
    hide StageId, StageMetadata;
  }

  /** Patching one stage of a shown plan tree rewrites that stage's node and nothing else. */
  lemma {:induction false} StagePatchDelivers(shown: PlanNode, was: Book, now: Book, stage: Stage, patch: PlanPatch)
    requires shown.id == PLAN_ROOT_ID && shown.children == StageNodes(was)
    requires Merge(StageNode(was, stage), patch) == StageNode(now, stage)
    requires forall s: Stage :: s != stage ==> StageNode(now, s) == StageNode(was, s)
    ensures PatchNode(shown, StageId(stage), patch) == shown.(children := StageNodes(now))
  {
    hide StageId, StageNode;
    StageIdInvertible(stage);
    var next := PatchAll(shown.children, StageId(stage), patch);
    forall k | 0 <= k < |ORDERED_STAGES| ensures next[k] == StageNode(now, ORDERED_STAGES[k]) {
      StageIdInjective(ORDERED_STAGES[k], stage);
      PatchLeaf(was, ORDERED_STAGES[k], StageId(stage), patch);
    }
    assert next == StageNodes(now);
  }

  /** Every stage that is over has its completion time: the tracker's record always has this. */
  ghost predicate Timed(book: Book) {
    forall s: Stage :: book.status[s] == Done || book.status[s] == Error ==> book.completedAt[s].Some?
  }

  /** Then the root of the plan tree has a completion time exactly when it is completed or failed. */
  lemma {:induction false} RootCompletion(book: Book)
    requires Timed(book)
    ensures Terminal(PlanTreeOf(book).status) <==> PlanTreeOf(book).completedAt.Some?
  {
    var statuses := StageStatuses(book);
    if Terminal(RootPlanStatus(statuses)) {
      var k :| 0 <= k < |statuses| && (statuses[k] == Failed || statuses[k] == Completed);
      assert book.completedAt[ORDERED_STAGES[k]].Some?;
      assert Times(book.completedAt)[k].Some?;
    }
  }

  /** The root's start time, once present, can move but not disappear, unless a start time disappears. */
  lemma {:induction false} RootStartStays(was: Book, now: Book)
    requires forall s: Stage :: was.startedAt[s].Some? ==> now.startedAt[s].Some?
    ensures RootStartedAt(was).Some? ==> RootStartedAt(now).Some?
  {
    var before, after := Times(was.startedAt), Times(now.startedAt);
    assert forall k :: 0 <= k < |after| && before[k].Some? ==> after[k].Some?;
  }

  lemma {:induction false} RootPatchOnly(shown: PlanNode, now: Book)
    requires shown.id == PLAN_ROOT_ID && shown.children == StageNodes(now)
    ensures PatchNode(shown, PLAN_ROOT_ID, RootPatch(now)) == Merge(shown, RootPatch(now))
  {
    hide StageId, RootPatch;
    var next := PatchAll(shown.children, PLAN_ROOT_ID, RootPatch(now));
    forall k | 0 <= k < |ORDERED_STAGES| ensures next[k] == shown.children[k] {
      StageIdInvertible(ORDERED_STAGES[k]);
      PatchLeaf(now, ORDERED_STAGES[k], PLAN_ROOT_ID, RootPatch(now));
    }
    assert next == shown.children;
  }

  lemma {:induction false} RootPatchDelivers(shown: PlanNode, was: Book, now: Book)
    requires Mirrors(shown.(children := StageNodes(was)), PlanTreeOf(was)) && shown.children == StageNodes(now)
    requires Timed(now)
    requires forall s: Stage :: was.startedAt[s].Some? ==> now.startedAt[s].Some?
    ensures Mirrors(PatchNode(shown, PLAN_ROOT_ID, RootPatch(now)), PlanTreeOf(now))
  {
    RootStartStays(was, now);
    RootCompletion(now);
    hide StageId, StageMetadata, RootPlanStatus, RootStartedAt, StageNodes;
    RootPatchOnly(shown, now);
  }

  // ---- one callback ----

  lemma {:induction false} MirrorShape(shown: PlanNode, book: Book)
    requires Mirrors(shown, PlanTreeOf(book))
    ensures shown.id == PLAN_ROOT_ID && shown.children == StageNodes(book)
  {
    hide StageId, StageNodes, RootPlanStatus, StageStatuses;
  }

  /** A stage patch followed by the root patch carries the mirror from one record to the next. */
  lemma {:induction false} PatchesDeliver(shown: PlanNode, was: Book, now: Book, stage: Stage, patch: PlanPatch)
    requires Mirrors(shown, PlanTreeOf(was))
    requires Merge(StageNode(was, stage), patch) == StageNode(now, stage)
    requires forall s: Stage :: s != stage ==> StageNode(now, s) == StageNode(was, s)
    requires Timed(now) && forall s: Stage :: was.startedAt[s].Some? ==> now.startedAt[s].Some?
    ensures Mirrors(PatchNode(PatchNode(shown, StageId(stage), patch), PLAN_ROOT_ID, RootPatch(now)), PlanTreeOf(now))
  {
    hide PlanTreeOf, StageId, StageNode, StageNodes, RootPatch, Merge, Mirrors, PatchNode;
    MirrorShape(shown, was);
    StagePatchDelivers(shown, was, now, stage, patch);
    var next := shown.(children := StageNodes(now));
    assert next.(children := StageNodes(was)) == shown;
    RootPatchDelivers(next, was, now);
  }

  lemma {:induction false} FoldNone(shown: Option<PlanNode>)
    ensures Fold(shown, []) == shown
  {
  }

  lemma {:induction false} FoldCons(shown: Option<PlanNode>, e: Event, rest: seq<Event>)
    ensures Fold(shown, [e] + rest) == Fold(Consume(shown, e), rest)
  {
    hide Consume;
    assert ([e] + rest)[1..] == rest;
  }

  /** The same, for the events and for a renderer that may not have a tree yet. */
  lemma {:induction false} UpdatesMirrored(
    shown: Option<PlanNode>, was: Tracker, now: Tracker, stage: Stage, patch: PlanPatch)
    requires MirrorsTracker(shown, was) && now.planEmitted == was.planEmitted
    requires Merge(StageNode(was.book, stage), patch) == StageNode(now.book, stage)
    requires forall s: Stage :: s != stage ==> StageNode(now.book, s) == StageNode(was.book, s)
    requires Timed(now.book) && forall s: Stage :: was.book.startedAt[s].Some? ==> now.book.startedAt[s].Some?
    ensures MirrorsTracker(Fold(shown, [PlanUpdated(StageId(stage), patch), RootUpdate(now.book)]), now)
  {
    hide PlanTreeOf, StageId, StageNode, RootPatch, Merge, Mirrors, PatchNode, Fold;
    if shown.Some? {
      PatchesDeliver(shown.value, was.book, now.book, stage, patch);
    }
    var (first, second) := (PlanUpdated(StageId(stage), patch), RootUpdate(now.book));
    assert [first, second] == [first] + [second] && [second] == [second] + [];
    FoldCons(shown, first, [second]);
    FoldCons(Consume(shown, first), second, []);
    FoldNone(Consume(Consume(shown, first), second));
  }

  lemma {:induction false} EntryPatch(book: Book, stage: Stage, now: int)
    requires book.status[stage] == Idle
    ensures Merge(StageNode(book, stage), PlanPatch(Some(Running), Some(now), None, None))
      == StageNode(EnterBook(book, stage, now), stage)
    ensures forall s: Stage :: s != stage ==> StageNode(EnterBook(book, stage, now), s) == StageNode(book, s)
    ensures forall s: Stage :: book.startedAt[s].Some? ==> EnterBook(book, stage, now).startedAt[s].Some?
  {
    hide StageId, StageMetadata;
  }

  lemma {:induction false} FirstEntryMirrored(shown: Option<PlanNode>, t: Tracker, stage: Stage, now: int)
    requires MirrorsTracker(shown, t) && t.book.status[stage] == Idle && Timed(Enter(t, stage, now).tracker.book)
    ensures MirrorsTracker(Fold(shown, Enter(t, stage, now).events), Enter(t, stage, now).tracker)
  {
    hide PlanTreeOf, StageId, StageNode, RootUpdate, EnterBook, Mirrors, MirrorsTracker, Fold, Merge;
    var after := Enter(t, stage, now);
    var patch := PlanPatch(Some(Running), Some(now), None, None);
    EntryPatch(t.book, stage, now);
    UpdatesMirrored(shown, t, after.tracker, stage, patch);
    var updates := [PlanUpdated(StageId(stage), patch), RootUpdate(after.tracker.book)];
    var notices := [Checkpoint(stage, now), WorkflowStep(stage, Active, after.tracker.book.status)];
    assert after.events == [notices[0]] + ([notices[1]] + updates);
    FoldCons(shown, notices[0], [notices[1]] + updates);
    FoldCons(shown, notices[1], updates);
  }

  /** Whatever a run of events leaves, a replan at its end replaces by the current tree. */
  lemma {:induction false} ReplanMirrored(shown: Option<PlanNode>, events: seq<Event>, t: Tracker, reason: string)
    ensures Fold(shown, events + Replan(t, reason).events) == Some(PlanTreeOf(t.book))
  {
    hide PlanTreeOf, Flatten, DiffOf, WellFormed, Consume;
    PlanTreeWellFormed(t.book);
    var oldNodes := if t.previous.Some? then Flatten(t.previous.value) else [];
    ReplanDelivers(Fold(shown, events), oldNodes, PlanTreeOf(t.book), reason);
    FoldConcat(shown, events, Replan(t, reason).events);
    FoldCons(Fold(shown, events), Replan(t, reason).events[0], []);
  }

  lemma {:induction false} ReentryMirrored(shown: Option<PlanNode>, t: Tracker, stage: Stage, now: int)
    requires t.book.status[stage] == Done || t.book.status[stage] == Error
    ensures Fold(shown, Enter(t, stage, now).events) == Some(PlanTreeOf(Enter(t, stage, now).tracker.book))
  {
    hide PlanTreeOf, StageId, RootUpdate, EnterBook, Consume;
    var book := EnterBook(t.book, stage, now);
    var entered := t.(current := Some(stage), book := book);
    ReplanMirrored(shown,
      [Checkpoint(stage, now), WorkflowStep(stage, Active, book.status),
       PlanUpdated(StageId(stage), PlanPatch(Some(Running), Some(now), None, None)), RootUpdate(book)],
      entered, Reentered(stage));
  }

  lemma {:induction false} FinishPatch(book: Book, stage: Stage, isError: bool, now: int)
    ensures var after := FinishBook(book, stage, isError, now);
      && Merge(StageNode(book, stage), PlanPatch(Some(PlanStatusOf(after.status[stage])), None, Some(now), None))
           == StageNode(after, stage)
      && (forall s: Stage :: s != stage ==> StageNode(after, s) == StageNode(book, s))
      && forall s: Stage :: book.startedAt[s].Some? ==> after.startedAt[s].Some?
  {
    hide StageId, StageMetadata;
  }

  lemma {:induction false} FinishMirrored(shown: Option<PlanNode>, t: Tracker, stage: Stage, isError: bool, now: int)
    requires MirrorsTracker(shown, t) && Timed(Finish(t, stage, isError, now).tracker.book)
    ensures MirrorsTracker(Fold(shown, Finish(t, stage, isError, now).events), Finish(t, stage, isError, now).tracker)
  {
    hide PlanTreeOf, StageId, StageNode, RootUpdate, FinishBook, Mirrors, MirrorsTracker, Fold, Merge;
    var after := Finish(t, stage, isError, now);
    var patch := PlanPatch(Some(PlanStatusOf(after.tracker.book.status[stage])), None, Some(now), None);
    FinishPatch(t.book, stage, isError, now);
    UpdatesMirrored(shown, t, after.tracker, stage, patch);
    var updates := [PlanUpdated(StageId(stage), patch), RootUpdate(after.tracker.book)];
    var notice := WorkflowStep(stage, after.tracker.book.status[stage], after.tracker.book.status);
    assert after.events == [notice] + updates;
    FoldCons(shown, notice, updates);
  }

  lemma {:induction false} ContractPatch(book: Book, now: int)
    ensures var after := ContractBook(book, now);
      && Merge(StageNode(book, Scoping), PlanPatch(Some(Completed), Some(now), Some(now), None))
        == StageNode(after, Scoping)
      && (forall s: Stage :: s != Scoping ==> StageNode(after, s) == StageNode(book, s))
      && forall s: Stage :: book.startedAt[s].Some? ==> after.startedAt[s].Some?
  {
    hide StageId, StageMetadata;
  }

  lemma {:induction false} ScopingMirrored(shown: Option<PlanNode>, t: Tracker, now: int)
    requires MirrorsTracker(shown, t) && Timed(CompleteScoping(t, now).tracker.book)
    ensures MirrorsTracker(Fold(shown, CompleteScoping(t, now).events), CompleteScoping(t, now).tracker)
  {
    hide PlanTreeOf, StageId, StageNode, RootUpdate, ContractBook, Mirrors, MirrorsTracker, Fold, Merge;
    var after := CompleteScoping(t, now);
    if t.book.status[Scoping] == Done {
      FoldNone(shown);
    } else {
      var patch := PlanPatch(Some(Completed), Some(now), Some(now), None);
      ContractPatch(t.book, now);
      UpdatesMirrored(shown, t, after.tracker, Scoping, patch);
      var updates := [PlanUpdated(StageId(Scoping), patch), RootUpdate(after.tracker.book)];
      var notice := WorkflowStep(Scoping, Done, after.tracker.book.status);
      assert after.events == [notice] + updates;
      FoldCons(shown, notice, updates);
    }
  }

  /** The root of the tree does not depend on reasoning references. */
  lemma {:induction false} SameRoot(shown: PlanNode, was: Book, now: Book)
    requires Mirrors(shown, PlanTreeOf(was)) && now == was.(reasoningRefs := now.reasoningRefs)
    ensures Mirrors(shown.(children := StageNodes(now)), PlanTreeOf(now))
  {
    hide StageNodes, RootPlanStatus, StageId;
    assert StageStatuses(now) == StageStatuses(was);
  }

  lemma {:induction false} RefPatch(shown: PlanNode, was: Book, now: Book, stage: Stage, patch: PlanPatch)
    requires Mirrors(shown, PlanTreeOf(was))
    requires now == was.(reasoningRefs := now.reasoningRefs)
    requires forall s: Stage :: s != stage ==> now.reasoningRefs[s] == was.reasoningRefs[s]
    requires patch == PlanPatch(None, None, None, Some(now.reasoningRefs[stage]))
    ensures Mirrors(PatchNode(shown, StageId(stage), patch), PlanTreeOf(now))
  {
    MirrorShape(shown, was);
    hide PlanTreeOf, StageNodes, PatchNode, StageId, StageMetadata, Mirrors;
    StagePatchDelivers(shown, was, now, stage, patch);
    SameRoot(shown, was, now);
  }

  lemma {:induction false} RefMirrored(shown: Option<PlanNode>, t: Tracker, reasoningId: string, stageId: string)
    requires MirrorsTracker(shown, t)
    ensures MirrorsTracker(
      Fold(shown, RecordRef(t, reasoningId, stageId).events), RecordRef(t, reasoningId, stageId).tracker)
  {
    hide PlanTreeOf, StageId, StageNode, StageOfId, Mirrors, Fold, Merge, PatchNode, ActiveFrom;
    var after := RecordRef(t, reasoningId, stageId);
    if after.events == [] {
      FoldNone(shown);
    } else {
      var stage := RefTarget(t.book, stageId).value;
      var patch := PlanPatch(None, None, None, Some(after.tracker.book.reasoningRefs[stage]));
      var update := PlanUpdated(StageId(stage), patch);
      assert after.events == [update] + [];
      FoldCons(shown, update, []);
      FoldNone(Consume(shown, update));
      if shown.Some? {
        RefPatch(shown.value, t.book, after.tracker.book, stage, patch);
      }
    }
  }

  // ---- whole runs ----

  lemma {:induction false} EveryStageTimed(trace: seq<Callback>)
    ensures Timed(Run(trace).tracker.book)
  {
    forall s: Stage { TrackerHistory.TimestampsMatchStatus(trace, s); }
  }

  lemma {:induction false} CreatedMirrored(shown: Option<PlanNode>, t: Tracker)
    ensures MirrorsTracker(Fold(shown, EmitCreated(t).events), EmitCreated(t).tracker)
  {
    hide PlanTreeOf, Fold;
    var created := PlanCreated(PlanTreeOf(t.book));
    assert [created] == [created] + [];
    FoldCons(shown, created, []);
    FoldNone(Consume(shown, created));
  }

  lemma {:induction false} ShownFirst(shown: Option<PlanNode>, t: Tracker)
    requires MirrorsTracker(shown, t)
    ensures MirrorsTracker(Fold(shown, EnsureEmitted(t).events), EnsureEmitted(t).tracker)
  {
    hide PlanTreeOf;
    if t.planEmitted {
      FoldNone(shown);
    } else {
      CreatedMirrored(shown, t);
    }
  }

  lemma {:induction false} EnterMirrored(shown: Option<PlanNode>, t: Tracker, stage: Stage, now: int)
    requires MirrorsTracker(shown, t) && Timed(Enter(t, stage, now).tracker.book)
    ensures MirrorsTracker(Fold(shown, Enter(t, stage, now).events), Enter(t, stage, now).tracker)
  {
    hide PlanTreeOf, EnterBook, Fold;
    match t.book.status[stage]
    case Active => FoldNone(shown);
    case Idle => FirstEntryMirrored(shown, t, stage, now);
    case _ => ReentryMirrored(shown, t, stage, now);
  }

  lemma {:induction false} MarkReplanMirrored(shown: Option<PlanNode>, t: Tracker, reason: string)
    ensures MirrorsTracker(Fold(shown, Replan(t, reason).events), Replan(t, reason).tracker)
  {
    hide PlanTreeOf;
    ReplanMirrored(shown, [], t, reason);
    assert [] + Replan(t, reason).events == Replan(t, reason).events;
  }

  lemma {:induction false} RestoreMirrored(shown: Option<PlanNode>, t: Tracker, stageId: string)
    requires MirrorsTracker(shown, t)
    ensures var after := Next(t, RestoreCurrent(stageId)); MirrorsTracker(Fold(shown, after.events), after.tracker)
  {
    hide PlanTreeOf, StageOfId;
    FoldNone(shown);
  }

  /** One callback carries the mirror along. */
  lemma {:induction false} NextMirrored(shown: Option<PlanNode>, t: Tracker, c: Callback)
    requires MirrorsTracker(shown, t) && Timed(Next(t, c).tracker.book)
    ensures MirrorsTracker(Fold(shown, Next(t, c).events), Next(t, c).tracker)
  {
    hide PlanTreeOf, MirrorsTracker, Fold, EnsureEmitted, Enter, Finish;
    hide EmitCreated, CompleteScoping, RecordRef, StageOfTool;
    match c
    case SessionInit(hasContract, now) =>
      var created := EmitCreated(INITIAL);
      CreatedMirrored(shown, INITIAL);
      if hasContract {
        ScopingMirrored(Fold(shown, created.events), created.tracker, now);
        FoldConcat(shown, created.events, CompleteScoping(created.tracker, now).events);
      }
    case PreToolUse(tool, now) =>
      var first := EnsureEmitted(t);
      ShownFirst(shown, t);
      if StageOfTool(tool).Some? {
        var rest := Enter(first.tracker, StageOfTool(tool).value, now);
        EnterMirrored(Fold(shown, first.events), first.tracker, StageOfTool(tool).value, now);
        FoldConcat(shown, first.events, rest.events);
      }
    case PostToolUse(tool, isError, now) =>
      var first := EnsureEmitted(t);
      ShownFirst(shown, t);
      if StageOfTool(tool).Some? {
        var rest := Finish(first.tracker, StageOfTool(tool).value, isError, now);
        FinishMirrored(Fold(shown, first.events), first.tracker, StageOfTool(tool).value, isError, now);
        FoldConcat(shown, first.events, rest.events);
      }
    case RecordReasoningRef(reasoningId, stageId) =>
      RefMirrored(shown, t, reasoningId, stageId);
    case MarkReplan(reason) =>
      MarkReplanMirrored(shown, t, reason);
    case RestoreCurrent(stageId) =>
      RestoreMirrored(shown, t, stageId);
  }

  /**
   * Main result. For every run of callbacks, the renderer that folds the emitted events shows the
   * tracker's tree: every stage node in full, and the root in full except that its completion time
   * may be an old one while the root is neither completed nor failed.
   */
  lemma {:induction false} EventsMirrorTracker(trace: seq<Callback>)
    ensures MirrorsTracker(Fold(None, Run(trace).events), Run(trace).tracker)
  {
    hide PlanTreeOf, Fold, Next;
    if trace == [] {
      FoldNone(None);
    } else {
      var before, c := Run(trace[..|trace| - 1]), trace[|trace| - 1];
      EventsMirrorTracker(trace[..|trace| - 1]);
      EveryStageTimed(trace);
      NextMirrored(Fold(None, before.events), before.tracker, c);
      FoldConcat(None, before.events, Next(before.tracker, c).events);
    }
  }
}
