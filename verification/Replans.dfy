/** What the emitted replan diffs contain, exactly. */
module Replans {
  import opened Options
  import opened PlanTree
  import opened PlanDiff
  import opened StringOrder
  import opened WorkflowPlan
  import opened WorkflowTracker
  import TrackerHistory

  ghost predicate Over(status: StageStatus) {
    status == Done || status == Error
  }

  /** The ids a plan tree lists. */
  ghost predicate PlanId(id: string) {
    id == PLAN_ROOT_ID || exists s: Stage :: id == StageId(s)
  }

  lemma {:induction false} ListingMembers(book: Book)
    ensures var listing := Flatten(PlanTreeOf(book));
      && PlanTreeOf(book) in listing
      && (forall s: Stage :: StageNode(book, s) in listing)
      && (forall n :: n in listing ==> PlanId(n.id))
  {
    PlanTreeListing(book);
    hide PlanTreeOf, Flatten, StageId, StageMetadata;
    var listing := [PlanTreeOf(book)] + StageNodes(book);
    assert listing[0] == PlanTreeOf(book);
    forall s: Stage ensures StageNode(book, s) in listing {
      var k := StageIndex(s);
      assert listing[k + 1] == StageNode(book, s);
    }
    forall n | n in listing ensures PlanId(n.id) {
      var k :| 0 <= k < |listing| && listing[k] == n;
      assert k > 0 ==> n.id == StageId(ORDERED_STAGES[k - 1]);
    }
  }

  lemma {:induction false} StageNodeIds(book: Book)
    ensures forall s: Stage :: StageNode(book, s).id == StageId(s)
  {
    hide StageId, StageMetadata;
  }

  /** Every plan listing has the same nine ids, each under its own node. */
  lemma {:induction false} ListingById(book: Book)
    ensures var byId := ById(Flatten(PlanTreeOf(book)));
      && PLAN_ROOT_ID in byId && byId[PLAN_ROOT_ID] == PlanTreeOf(book)
      && (forall s: Stage :: StageId(s) in byId && byId[StageId(s)] == StageNode(book, s))
      && (forall id :: id in byId <==> PlanId(id))
  {
    var listing := Flatten(PlanTreeOf(book));
    ListingMembers(book);
    PlanTreeWellFormed(book);
    ByIdOfDistinct(listing);
    StageNodeIds(book);
    hide PlanTreeOf, Flatten, ById, StageId, StageNode, PLAN_ROOT_ID;
    var byId := ById(listing);
    assert byId[PlanTreeOf(book).id] == PlanTreeOf(book);
    forall s: Stage ensures StageId(s) in byId && byId[StageId(s)] == StageNode(book, s) {
      assert StageNode(book, s) in listing;
    }
    forall id | id in byId ensures PlanId(id) {
      assert id in Ids(listing);
    }
  }

  lemma {:induction false} StageSignatures(was: Book, now: Book)
    ensures forall s: Stage ::
      SignatureOf(StageNode(was, s)) == SignatureOf(StageNode(now, s)) <==> was.status[s] == now.status[s]
  {
    hide StageId, StageMetadata;
  }

  lemma {:induction false} RootSignature(was: Book, now: Book)
    ensures SignatureOf(PlanTreeOf(was)) == SignatureOf(PlanTreeOf(now))
      <==> PlanTreeOf(was).status == PlanTreeOf(now).status
  {
    hide StageId, StageNodes, RootPlanStatus, StageStatuses;
  }

  /** Between any two records, the diff adds and removes nothing and lists exactly the nodes whose status changed. */
  lemma {:induction false} DiffListsStatusChanges(was: Book, now: Book)
    ensures var d := DiffOf(Flatten(PlanTreeOf(was)), Flatten(PlanTreeOf(now)));
      && d.added == [] && d.removed == [] && Ascending(d.modified)
      && (PLAN_ROOT_ID in d.modified <==> PlanTreeOf(was).status != PlanTreeOf(now).status)
      && (forall s: Stage :: StageId(s) in d.modified <==> was.status[s] != now.status[s])
      && (forall id :: id in d.modified ==> PlanId(id))
  {
    var (a, b) := (Flatten(PlanTreeOf(was)), Flatten(PlanTreeOf(now)));
    ListingById(was);
    ListingById(now);
    DiffIsPartition(a, b);
    RootSignature(was, now);
    StageSignatures(was, now);
    hide PlanTreeOf, Flatten, StageId, StageNode, ById;
    assert ById(a).Keys == ById(b).Keys;
    EmptyElements(DiffOf(a, b).added);
    EmptyElements(DiffOf(a, b).removed);
  }

  /** A diff from the old record's tree to the new one's that modifies the stage, and the root if its status changed. */
  ghost predicate ExactDiff(diff: ReplanDiff, was: Book, now: Book, stage: Stage) {
    && diff.oldNodes == Flatten(PlanTreeOf(was)) && diff.newNodes == Flatten(PlanTreeOf(now))
    && diff.ids.added == [] && diff.ids.removed == [] && Ascending(diff.ids.modified)
    && PlanTreeOf(now).status == Running
    && (forall id :: id in diff.ids.modified <==>
          id == StageId(stage) || (id == PLAN_ROOT_ID && PlanTreeOf(was).status != PlanTreeOf(now).status))
  }

  /** The step ends in its only replan, and that one is exact. */
  ghost predicate ExactReplan(step: Step, was: Book, stage: Stage) {
    && step.events != []
    && (forall k :: 0 <= k < |step.events| - 1 ==> !step.events[k].PlanReplanned?)
    && var last := step.events[|step.events| - 1];
       last.PlanReplanned? && ExactDiff(last.diff, was, step.tracker.book, stage)
  }

  lemma {:induction false} SnapshotBeforeEntry(trace: seq<Callback>)
    ensures EnsureEmitted(Run(trace).tracker).tracker.previous == Some(PlanTreeOf(Run(trace).tracker.book))
  {
    TrackerHistory.SnapshotAlwaysCurrent(trace);
    hide PlanTreeOf, Run;
  }

  lemma {:induction false} OnlyStageAndRoot(ids: seq<string>, stage: Stage, rootToo: bool)
    requires PLAN_ROOT_ID in ids <==> rootToo
    requires forall s: Stage :: StageId(s) in ids <==> s == stage
    requires forall id :: id in ids ==> PlanId(id)
    ensures forall id :: id in ids <==> id == StageId(stage) || (id == PLAN_ROOT_ID && rootToo)
  {
    hide StageId, PLAN_ROOT_ID;
    forall id | id in ids && id != PLAN_ROOT_ID ensures id == StageId(stage) {
      var s :| id == StageId(s);
    }
  }

  lemma {:induction false} StatusesAfterEntry(book: Book, stage: Stage, now: int)
    requires Over(book.status[stage])
    ensures forall s: Stage :: book.status[s] != EnterBook(book, stage, now).status[s] <==> s == stage
  {
  }

  lemma {:induction false} EnteredIsActive(book: Book, stage: Stage, now: int)
    ensures EnterBook(book, stage, now).status[stage] == Active
  {
  }

  lemma {:induction false} RunningRoot(book: Book, stage: Stage)
    requires book.status[stage] == Active
    ensures PlanTreeOf(book).status == Running
  {
    var k := StageIndex(stage);
    assert StageStatuses(book)[k] == Running;
    hide StageId, StageNodes, StageStatuses;
  }

  lemma {:induction false} ReentryIds(was: Book, stage: Stage, now: int)
    requires Over(was.status[stage])
    ensures var (oldNodes, newNodes) := (Flatten(PlanTreeOf(was)), Flatten(PlanTreeOf(EnterBook(was, stage, now))));
      ExactDiff(ReplanDiff(oldNodes, newNodes, DiffOf(oldNodes, newNodes), Reentered(stage)),
                was, EnterBook(was, stage, now), stage)
  {
    hide PlanTreeOf, StageId, EnterBook, DiffOf, Flatten, PLAN_ROOT_ID, Reentered, PlanId, Over;
    var after := EnterBook(was, stage, now);
    DiffListsStatusChanges(was, after);
    EnteredIsActive(was, stage, now);
    RunningRoot(after, stage);
    StatusesAfterEntry(was, stage, now);
    var modified := DiffOf(Flatten(PlanTreeOf(was)), Flatten(PlanTreeOf(after))).modified;
    OnlyStageAndRoot(modified, stage, PlanTreeOf(was).status != PlanTreeOf(after).status);
  }

  /** The events of a re-entry, up to the diff's own definition. */
  lemma {:induction false} ReentryEvents(t: Tracker, stage: Stage, now: int)
    requires Over(t.book.status[stage])
    ensures var shown := EnsureEmitted(t);
      var step := Then(shown, Enter(shown.tracker, stage, now));
      var tree := PlanTreeOf(EnterBook(t.book, stage, now));
      && shown.tracker.previous.Some? ==>
         step.events != [] && step.events[|step.events| - 1] == PlanReplanned(ReplanDiff(
           Flatten(shown.tracker.previous.value), Flatten(tree),
           DiffOf(Flatten(shown.tracker.previous.value), Flatten(tree)), Reentered(stage)))
         && (forall k :: 0 <= k < |step.events| - 1 ==> !step.events[k].PlanReplanned?)
  {
    hide PlanTreeOf, StageId, EnterBook, RootPatch, Reentered, Flatten, DiffOf;
  }

  /**
   * Re-entering a stage that was over emits one replan, as the last event; its diff is from the tree
   * before the callback to the tree after it, adds and removes nothing, and modifies that stage,
   * the root exactly if its status changed, and nothing else.
   */
  lemma {:induction false} ReentryDiffIsExact(trace: seq<Callback>, tool: string, now: int)
    requires StageOfTool(tool).Some?
    requires Over(Run(trace).tracker.book.status[StageOfTool(tool).value])
    ensures var t := Run(trace).tracker; ExactReplan(Next(t, PreToolUse(tool, now)), t.book, StageOfTool(tool).value)
  {
    hide PlanTreeOf, StageId, StageOfTool, EnterBook, EnsureEmitted, Enter, Run, DiffOf, Flatten;
    hide Reentered, PLAN_ROOT_ID, ExactDiff;
    var stage := StageOfTool(tool).value;
    var t := Run(trace).tracker;
    SnapshotBeforeEntry(trace);
    ReentryEvents(t, stage, now);
    ReentryIds(t.book, stage, now);
  }

  lemma {:induction false} RunningRootOpen(book: Book, stage: Stage)
    requires book.status[stage] == Active
    ensures PlanTreeOf(book).completedAt == None && RootPatch(book).completedAt == None
  {
    RunningRoot(book, stage);
    hide StageId, StageNodes, StageStatuses, RootPlanStatus;
  }

  /** Once the plan has been announced, marking a replan between callbacks finds nothing changed. */
  lemma {:induction false} MarkedReplanIsEmpty(trace: seq<Callback>, reason: string)
    requires Run(trace).tracker.planEmitted
    ensures var tree := PlanTreeOf(Run(trace).tracker.book);
      Next(Run(trace).tracker, MarkReplan(reason)).events ==
        [PlanReplanned(ReplanDiff(Flatten(tree), Flatten(tree), IdDiff([], [], []), reason))]
  {
    hide PlanTreeOf, Flatten;
    TrackerHistory.SnapshotAlwaysCurrent(trace);
    var nodes := Flatten(PlanTreeOf(Run(trace).tracker.book));
    DiffEmptyIff(nodes, nodes);
  }

  /** A replan with no earlier snapshot lists the whole plan as added, so the guard that would skip it never fires. */
  lemma {:induction false} FirstReplanAddsEverything(t: Tracker, reason: string)
    requires t.previous.None?
    ensures var events := Replan(t, reason).events;
      && |events| == 1 && events[0].PlanReplanned?
      && (forall id :: id in events[0].diff.ids.added <==> PlanId(id))
      && events[0].diff.ids.added != []
      && events[0].diff.ids.removed == [] && events[0].diff.ids.modified == []
  {
    var nodes := Flatten(PlanTreeOf(t.book));
    ListingById(t.book);
    DiffIsPartition([], nodes);
    hide PlanTreeOf, Flatten, StageId, DiffOf;
    var d := DiffOf([], nodes);
    assert ById([]) == map[];
    assert forall id :: id in d.added <==> PlanId(id);
    assert PlanId(PLAN_ROOT_ID);
    assert Elements(d.removed) == {} && Elements(d.modified) == {};
    EmptyElements(d.removed);
    EmptyElements(d.modified);
  }
}
