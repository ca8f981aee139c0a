/**
 * The one field of the mirrored tree that can be out of date: the root's completion time. Root patches set it but
 * never clear it, so the renderer keeps the last one it was sent until it is handed a whole tree.
 */
module StaleCompletion {
  import opened Options
  import opened PlanMirror
  import opened PlanTree
  import opened Replans
  import opened WorkflowPlan
  import opened WorkflowTracker
  import TrackerHistory

  /** The tracker sends a whole tree: at a new session, a marked replan, or when a finished stage is re-entered. */
  ghost predicate SendsTree(was: Book, c: Callback) {
    || c.SessionInit? || c.MarkReplan?
    || (c.PreToolUse? && StageOfTool(c.tool).Some? && Over(was.status[StageOfTool(c.tool).value]))
  }

  /** The completion time a renderer shows at the root, read off the trace: the last one not cleared by a whole tree. */
  ghost function ShownCompletion(trace: seq<Callback>): Option<int> {
    if trace == [] then None
    else
      var front, c := trace[..|trace| - 1], trace[|trace| - 1];
      var current := PlanTreeOf(Run(trace).tracker.book).completedAt;
      if current.Some? then current
      else if SendsTree(Run(front).tracker.book, c) then None
      else ShownCompletion(front)
  }

  // ---- events that leave the root's completion time alone ----

  /** Folding the event neither replaces the tree nor sets the root's completion time. */
  predicate SparesCompletion(e: Event) {
    match e
    case PlanCreated(_) => false
    case PlanReplanned(_) => false
    case PlanUpdated(nodeId, updates) => nodeId != PLAN_ROOT_ID || updates.completedAt.None?
    case _ => true
  }

  ghost predicate SameCompletion(before: Option<PlanNode>, after: Option<PlanNode>) {
    && (before.Some? <==> after.Some?)
    && (before.Some? ==> after.value.id == before.value.id && after.value.completedAt == before.value.completedAt)
  }

  ghost predicate RootShown(shown: Option<PlanNode>) {
    shown.Some? ==> shown.value.id == PLAN_ROOT_ID
  }

  lemma {:induction false} SparingEvent(shown: Option<PlanNode>, e: Event)
    requires SparesCompletion(e) && RootShown(shown)
    ensures SameCompletion(shown, Consume(shown, e))
  {
  }

  lemma {:induction false} SparingEvents(shown: Option<PlanNode>, events: seq<Event>)
    requires RootShown(shown) && forall i :: 0 <= i < |events| ==> SparesCompletion(events[i])
    ensures SameCompletion(shown, Fold(shown, events))
    decreases |events|
  {
    hide SparesCompletion, Consume;
    if events != [] {
      SparingEvent(shown, events[0]);
      SparingEvents(Consume(shown, events[0]), events[1..]);
    }
  }

  /** Every event spares the completion time, but perhaps a first one that hands over a tree. */
  ghost predicate SparesAfterTree(events: seq<Event>) {
    forall i :: 0 <= i < |events| && !(i == 0 && events[0].PlanCreated?) ==> SparesCompletion(events[i])
  }

  /** The completion time shown after such events: that of the tree handed over, or the one shown before. */
  lemma {:induction false} AfterTree(shown: Option<PlanNode>, events: seq<Event>)
    requires SparesAfterTree(events) && RootShown(shown)
    requires events != [] && events[0].PlanCreated? ==> events[0].tree.id == PLAN_ROOT_ID
    ensures SameCompletion(
      if events != [] && events[0].PlanCreated? then Some(events[0].tree) else shown, Fold(shown, events))
  {
    hide SparesCompletion;
    if events != [] && events[0].PlanCreated? {
      assert forall i :: 0 <= i < |events| - 1 ==> events[1..][i] == events[i + 1];
      SparingEvents(Some(events[0].tree), events[1..]);
    } else {
      SparingEvents(shown, events);
    }
  }

  // ---- what each callback sends ----

  /** A callback that leaves a root without completion time sends no root patch with one. */
  ghost predicate RootPatchOpen(book: Book) {
    PlanTreeOf(book).completedAt == None
  }

  lemma {:induction false} RootUpdateSpares(book: Book)
    requires RootPatchOpen(book)
    ensures SparesCompletion(RootUpdate(book))
  {
    hide StageId, StageNodes;
  }

  lemma {:induction false} StagePatchSpares(stage: Stage, patch: PlanPatch)
    ensures SparesCompletion(PlanUpdated(StageId(stage), patch))
  {
    StageIdInvertible(stage);
    hide StageId, PLAN_ROOT_ID;
  }

  lemma {:induction false} EnterSpares(t: Tracker, stage: Stage, now: int)
    requires !Over(t.book.status[stage]) && RootPatchOpen(Enter(t, stage, now).tracker.book)
    ensures forall e :: e in Enter(t, stage, now).events ==> SparesCompletion(e)
  {
    hide PlanTreeOf, StageId, EnterBook, RootPatchOpen, RootUpdate, Reentered;
    if t.book.status[stage] == Idle {
      RootUpdateSpares(EnterBook(t.book, stage, now));
      StagePatchSpares(stage, PlanPatch(Some(Running), Some(now), None, None));
    }
  }

  lemma {:induction false} FinishSpares(t: Tracker, stage: Stage, isError: bool, now: int)
    requires RootPatchOpen(Finish(t, stage, isError, now).tracker.book)
    ensures forall e :: e in Finish(t, stage, isError, now).events ==> SparesCompletion(e)
  {
    hide PlanTreeOf, StageId, FinishBook, RootPatchOpen, RootUpdate;
    var book := FinishBook(t.book, stage, isError, now);
    RootUpdateSpares(book);
    StagePatchSpares(stage, PlanPatch(Some(PlanStatusOf(book.status[stage])), None, Some(now), None));
  }

  lemma {:induction false} RecordRefSpares(t: Tracker, reasoningId: string, stageId: string)
    ensures forall e :: e in RecordRef(t, reasoningId, stageId).events ==> SparesCompletion(e)
  {
    hide PlanTreeOf, StageId, StageOfId;
    var target := RefTarget(t.book, stageId);
    if target.Some? {
      StagePatchSpares(target.value,
        PlanPatch(None, None, None, Some(t.book.reasoningRefs[target.value] + [reasoningId])));
    }
  }

  lemma {:induction false} ScopingSpares(t: Tracker, now: int)
    requires RootPatchOpen(CompleteScoping(t, now).tracker.book)
    ensures forall e :: e in CompleteScoping(t, now).events ==> SparesCompletion(e)
  {
    hide PlanTreeOf, StageId, ContractBook, RootPatchOpen, RootUpdate;
    if t.book.status[Scoping] != Done {
      RootUpdateSpares(ContractBook(t.book, now));
      StagePatchSpares(Scoping, PlanPatch(Some(Completed), Some(now), Some(now), None));
    }
  }

  /** The events of a callback that leaves the root open, after a possible announcement of the tree before it. */
  ghost predicate SparesFrom(was: Tracker, events: seq<Event>) {
    && SparesAfterTree(events)
    && (events != [] && events[0].PlanCreated? ==>
        events[0].tree == PlanTreeOf(was.book) && !was.planEmitted)
  }

  lemma {:induction false} CreatedNotSparing(e: Event)
    ensures SparesCompletion(e) ==> !e.PlanCreated? && !e.PlanReplanned?
  {
  }

  lemma {:induction false} AnnouncedThenSparing(t: Tracker, events: seq<Event>)
    requires forall e :: e in events ==> SparesCompletion(e)
    ensures SparesFrom(t, EnsureEmitted(t).events + events)
  {
    hide SparesCompletion, PlanTreeOf;
    var all := EnsureEmitted(t).events + events;
    forall i | 0 <= i < |all| && !(i == 0 && all[0].PlanCreated?) ensures SparesCompletion(all[i]) {
      var k := i - |EnsureEmitted(t).events|;
      assert all[i] == events[k];
    }
    if t.planEmitted && events != [] { assert SparesCompletion(events[0]); CreatedNotSparing(events[0]); }
  }

  lemma {:induction false} SparingIsSparesFrom(t: Tracker, events: seq<Event>)
    requires forall e :: e in events ==> SparesCompletion(e)
    ensures SparesFrom(t, events)
  {
    hide SparesCompletion;
    if events != [] { CreatedNotSparing(events[0]); }
  }

  lemma {:induction false} CallbackSpares(t: Tracker, c: Callback)
    requires !SendsTree(t.book, c) && RootPatchOpen(Next(t, c).tracker.book)
    ensures SparesFrom(t, Next(t, c).events)
  {
    hide PlanTreeOf, StageOfTool, StageOfId, Enter, Finish, RecordRef, EnsureEmitted, RootPatchOpen, SparesCompletion;
    hide SparesFrom, Over;
    match c
    case PreToolUse(tool, now) =>
      var shown, stage := EnsureEmitted(t), StageOfTool(tool);
      if stage.Some? {
        EnterSpares(shown.tracker, stage.value, now);
        AnnouncedThenSparing(t, Enter(shown.tracker, stage.value, now).events);
      } else {
        AnnouncedThenSparing(t, []);
        assert shown.events + [] == shown.events;
      }
    case PostToolUse(tool, isError, now) =>
      var shown, stage := EnsureEmitted(t), StageOfTool(tool);
      if stage.Some? {
        FinishSpares(shown.tracker, stage.value, isError, now);
        AnnouncedThenSparing(t, Finish(shown.tracker, stage.value, isError, now).events);
      } else {
        AnnouncedThenSparing(t, []);
        assert shown.events + [] == shown.events;
      }
    case RecordReasoningRef(reasoningId, stageId) =>
      RecordRefSpares(t, reasoningId, stageId);
      SparingIsSparesFrom(t, RecordRef(t, reasoningId, stageId).events);
    case RestoreCurrent(_) =>
      SparingIsSparesFrom(t, []);
    case _ =>
  }

  // ---- before the plan is announced ----

  ghost predicate NothingCompleted(book: Book) {
    forall s: Stage :: book.completedAt[s] == None
  }

  lemma {:induction false} NothingCompletedAtRoot(book: Book)
    requires NothingCompleted(book)
    ensures PlanTreeOf(book).completedAt == None
  {
    assert forall k :: 0 <= k < |Times(book.completedAt)| ==> Times(book.completedAt)[k] == None;
    hide StageId, StageNodes, StageStatuses, RootPlanStatus;
  }

  lemma {:induction false} InitialCompletions()
    ensures NothingCompleted(INITIAL.book)
  {
  }

  lemma {:induction false} StaysUnannounced(t: Tracker, c: Callback)
    requires !Next(t, c).tracker.planEmitted
    ensures !t.planEmitted && Next(t, c).tracker.book.completedAt == t.book.completedAt
  {
    hide PlanTreeOf, StageOfTool, StageOfId, EnterBook, FinishBook, ContractBook, StageId, RootUpdate;
  }

  /** Until the plan is announced nothing has been completed, and nothing is shown as completed. */
  lemma {:induction false} UnannouncedIsFresh(trace: seq<Callback>)
    requires !Run(trace).tracker.planEmitted
    ensures NothingCompleted(Run(trace).tracker.book) && ShownCompletion(trace) == None
  {
    hide PlanTreeOf, Next, SendsTree, EmptyBook;
    if trace == [] {
      InitialCompletions();
    } else {
      var front, c := trace[..|trace| - 1], trace[|trace| - 1];
      StaysUnannounced(Run(front).tracker, c);
      UnannouncedIsFresh(front);
      NothingCompletedAtRoot(Run(trace).tracker.book);
    }
  }

  // ---- the renderer after any trace ----

  lemma {:induction false} TreeShown(before: Option<PlanNode>, tree: PlanNode)
    ensures Consume(before, PlanCreated(tree)) == Some(tree)
  {
  }

  lemma {:induction false} RootIsPlanRoot(book: Book)
    ensures PlanTreeOf(book).id == PLAN_ROOT_ID
  {
    hide StageId, StageNodes, RootPlanStatus;
  }

  lemma {:induction false} InitShowsNone(before: Option<PlanNode>, hasContract: bool, now: int)
    requires RootPatchOpen(Init(hasContract, now).tracker.book)
    ensures var shown := Fold(before, Init(hasContract, now).events);
      shown.Some? && shown.value.completedAt == None
  {
    hide PlanTreeOf, StageId, RootPatchOpen, Consume, SparesCompletion, CompleteScoping, EmptyBook;
    var tree := PlanTreeOf(INITIAL.book);
    InitialCompletions();
    NothingCompletedAtRoot(INITIAL.book);
    var created := EmitCreated(INITIAL);
    var rest := if hasContract then CompleteScoping(created.tracker, now).events else [];
    if hasContract { ScopingSpares(created.tracker, now); }
    assert Init(hasContract, now).events == [PlanCreated(tree)] + rest;
    FoldCons(before, PlanCreated(tree), rest);
    TreeShown(before, tree);
    RootIsPlanRoot(INITIAL.book);
    SparingEvents(Some(tree), rest);
  }

  lemma {:induction false} TreeSentShowsNone(before: Option<PlanNode>, t: Tracker, c: Callback)
    requires SendsTree(t.book, c) && RootPatchOpen(Next(t, c).tracker.book)
    ensures var shown := Fold(before, Next(t, c).events);
      shown.Some? && shown.value.completedAt == None
  {
    hide PlanTreeOf, StageOfTool, Fold, Enter, EnsureEmitted, Init, Replan;
    match c
    case SessionInit(hasContract, now) => InitShowsNone(before, hasContract, now);
    case MarkReplan(reason) =>
      ReplanMirrored(before, [], t, reason);
      assert [] + Replan(t, reason).events == Replan(t, reason).events;
    case PreToolUse(tool, now) =>
      var shown, stage := EnsureEmitted(t), StageOfTool(tool).value;
      FoldConcat(before, shown.events, Enter(shown.tracker, stage, now).events);
      ReentryMirrored(Fold(before, shown.events), shown.tracker, stage, now);
    case _ =>
  }

  lemma {:induction false} SparingCallbackShows(before: Option<PlanNode>, t: Tracker, c: Callback)
    requires SparesFrom(t, Next(t, c).events) && RootShown(before)
    ensures var shown := Fold(before, Next(t, c).events);
      shown.Some? ==>
        || (before.Some? && shown.value.completedAt == before.value.completedAt)
        || (!t.planEmitted && shown.value.completedAt == PlanTreeOf(t.book).completedAt)
  {
    hide PlanTreeOf, Next, Fold, SparesAfterTree;
    RootIsPlanRoot(t.book);
    AfterTree(before, Next(t, c).events);
  }

  /** What the mirror says of the root's completion time. */
  lemma {:induction false} MirroredCompletion(trace: seq<Callback>)
    ensures var (shown, tree) := (Fold(None, Run(trace).events), PlanTreeOf(Run(trace).tracker.book));
      && RootShown(shown) && (Run(trace).tracker.planEmitted ==> shown.Some?)
      && (shown.Some? ==> shown.value == tree.(completedAt := shown.value.completedAt))
      && (shown.Some? && tree.completedAt.Some? ==> shown.value.completedAt == tree.completedAt)
  {
    EventsMirrorTracker(trace);
    RootIsPlanRoot(Run(trace).tracker.book);
    hide PlanTreeOf, Run, Fold;
  }

  /** Whatever the renderer shows, it shows the completion time read off the trace. */
  lemma {:induction false} RendererShowsCompletion(trace: seq<Callback>)
    ensures var shown := Fold(None, Run(trace).events);
      shown.Some? ==> shown.value.completedAt == ShownCompletion(trace)
  {
    hide PlanTreeOf, Next, Fold, SendsTree, SparesFrom, Mirrors, NothingCompleted;
    if trace == [] {
      FoldNone(None);
    } else {
      var front, c := trace[..|trace| - 1], trace[|trace| - 1];
      var t, before := Run(front).tracker, Fold(None, Run(front).events);
      FoldConcat(None, Run(front).events, Next(t, c).events);
      MirroredCompletion(trace);
      if PlanTreeOf(Run(trace).tracker.book).completedAt == None {
        if SendsTree(t.book, c) {
          TreeSentShowsNone(before, t, c);
        } else {
          RendererShowsCompletion(front);
          MirroredCompletion(front);
          CallbackSpares(t, c);
          SparingCallbackShows(before, t, c);
          if !t.planEmitted {
            UnannouncedIsFresh(front);
            NothingCompletedAtRoot(t.book);
          }
        }
      }
    }
  }

  /**
   * The renderer holds the tracker's very tree if and only if the last completion time it was sent, and not cleared
   * by a whole tree since, is the root's completion time now.
   */
  lemma {:induction false} RendererIsExactIff(trace: seq<Callback>)
    requires Run(trace).tracker.planEmitted
    ensures var tree := PlanTreeOf(Run(trace).tracker.book);
      Fold(None, Run(trace).events) == Some(tree) <==> ShownCompletion(trace) == tree.completedAt
  {
    hide PlanTreeOf, Run, Fold, ShownCompletion;
    MirroredCompletion(trace);
    RendererShowsCompletion(trace);
  }

  // ---- ways of going stale ----

  lemma {:induction false} NothingYet()
    ensures !Run([]).tracker.planEmitted
  {
  }

  lemma {:induction false} StaysAnnounced(t: Tracker, c: Callback)
    requires t.planEmitted
    ensures Next(t, c).tracker.planEmitted
  {
    hide PlanTreeOf, StageOfTool, StageOfId, EnterBook, FinishBook, ContractBook, StageId, RootUpdate;
  }

  /**
   * A root that had a completion time and loses it to a callback that sends no whole tree goes stale: by moving on to
   * an untouched stage, or by a second outcome of a stage without a new start.
   */
  lemma {:induction false} LosingCompletionGoesStale(trace: seq<Callback>, c: Callback)
    requires Run(trace).tracker.planEmitted && !SendsTree(Run(trace).tracker.book, c)
    requires PlanTreeOf(Run(trace).tracker.book).completedAt.Some?
    requires PlanTreeOf(Run(trace + [c]).tracker.book).completedAt == None
    ensures var shown := Fold(None, Run(trace + [c]).events);
      shown.Some? && shown.value.completedAt == PlanTreeOf(Run(trace).tracker.book).completedAt
  {
    var longer := trace + [c];
    assert longer[..|longer| - 1] == trace;
    hide PlanTreeOf, Next, Fold, SendsTree;
    assert trace != [] by { if trace == [] { NothingYet(); } }
    assert ShownCompletion(longer) == ShownCompletion(trace);
    StaysAnnounced(Run(trace).tracker, c);
    MirroredCompletion(longer);
    RendererShowsCompletion(longer);
  }

  /** A plan whose root has failed moves on to an untouched stage: the renderer keeps showing the failure's time. */
  lemma {:induction false} MovingOnLeavesCompletionStale(trace: seq<Callback>, tool: string, now: int)
    requires Run(trace).tracker.planEmitted && StageOfTool(tool).Some?
    requires Run(trace).tracker.book.status[StageOfTool(tool).value] == Idle
    requires Terminal(PlanTreeOf(Run(trace).tracker.book).status)
    ensures var longer := trace + [PreToolUse(tool, now)];
      var (shown, tree) := (Fold(None, Run(longer).events), PlanTreeOf(Run(longer).tracker.book));
      shown.Some? && shown.value.completedAt == PlanTreeOf(Run(trace).tracker.book).completedAt
      && shown.value.completedAt.Some? && tree.completedAt == None
  {
    var t, stage := Run(trace).tracker, StageOfTool(tool).value;
    var longer := trace + [PreToolUse(tool, now)];
    assert longer[..|longer| - 1] == trace;
    EveryStageTimed(trace);
    RootCompletion(t.book);
    RunningRootOpen(EnterBook(t.book, stage, now), stage);
    hide PlanTreeOf, StageOfTool, EnterBook, Fold, Enter;
    LosingCompletionGoesStale(trace, PreToolUse(tool, now));
  }

  // ---- a run that goes stale ----

  /** A session whose training fails and which then turns to exploration. */
  const FAILED_RUN: seq<Callback> :=
    [SessionInit(false, 0), PreToolUse("train_model", 1), PostToolUse("train_model", true, 2)]

  lemma {:induction false} FailedHistory(stage: Stage)
    ensures TrackerHistory.History(FAILED_RUN, stage) ==
      if stage == Modeling then [TrackerHistory.Entered(1), TrackerHistory.Finished(true, 2)] else []
  {
    var one, two := [SessionInit(false, 0)], [SessionInit(false, 0), PreToolUse("train_model", 1)];
    assert FAILED_RUN[..2] == two && two[..1] == one;
    assert StageOfTool("train_model") == Some(Modeling);
    hide StageOfTool;
    assert TrackerHistory.History(one, stage) == [];
    assert TrackerHistory.History(two, stage) == if stage == Modeling then [TrackerHistory.Entered(1)] else [];
  }

  lemma {:induction false} InitAnnounces(hasContract: bool, now: int)
    ensures Next(INITIAL, SessionInit(hasContract, now)).tracker.planEmitted
    ensures forall t: Tracker :: Next(t, SessionInit(hasContract, now)).tracker.planEmitted
  {
    hide PlanTreeOf, EmptyBook, ContractBook, RootUpdate, StageId;
  }

  lemma {:induction false} FailedRunAnnounced()
    ensures Run(FAILED_RUN).tracker.planEmitted
  {
    var one, two := [SessionInit(false, 0)], [SessionInit(false, 0), PreToolUse("train_model", 1)];
    assert FAILED_RUN[..2] == two && two[..1] == one;
    InitAnnounces(false, 0);
    hide Next, Init, PlanTreeOf;
    StaysAnnounced(Run(one).tracker, PreToolUse("train_model", 1));
    StaysAnnounced(Run(two).tracker, PostToolUse("train_model", true, 2));
  }

  lemma {:induction false} FailedRun()
    ensures var t := Run(FAILED_RUN).tracker;
      && t.planEmitted && t.book.status[Modeling] == Error && t.book.completedAt[Modeling] == Some(2)
      && (forall s: Stage :: s != Modeling ==> t.book.status[s] == Idle && t.book.completedAt[s] == None)
  {
    hide Run, FAILED_RUN;
    FailedRunAnnounced();
    forall stage: Stage
      ensures var book := Run(FAILED_RUN).tracker.book;
        if stage == Modeling then book.status[stage] == Error && book.completedAt[stage] == Some(2)
        else book.status[stage] == Idle && book.completedAt[stage] == None
    {
      TrackerHistory.TrackerRefinesHistory(FAILED_RUN, stage);
      FailedHistory(stage);
    }
  }

  lemma {:induction false} EdaTool()
    ensures StageOfTool("run_eda") == Some(Eda)
  {
  }

  ghost predicate OnlyModelingFailed(book: Book) {
    && book.status[Modeling] == Error && book.completedAt[Modeling] == Some(2)
    && forall s: Stage :: s != Modeling ==> book.status[s] == Idle && book.completedAt[s] == None
  }

  lemma {:induction false} FailedStatus(book: Book)
    requires OnlyModelingFailed(book)
    ensures RootPlanStatus(StageStatuses(book)) == Failed
  {
    var statuses := StageStatuses(book);
    assert statuses[5] == Failed;
    assert forall k :: 0 <= k < |statuses| ==> statuses[k] == Failed || statuses[k] == Pending;
    hide StageStatuses, OnlyModelingFailed;
  }

  lemma {:induction false} FailedTime(book: Book)
    requires OnlyModelingFailed(book)
    ensures Latest(Times(book.completedAt)) == Some(2)
  {
    var times := Times(book.completedAt);
    assert times[5] == Some(2);
    assert forall k :: 0 <= k < |times| ==> times[k] == None || times[k] == Some(2);
    hide Times, OnlyModelingFailed;
  }

  lemma {:induction false} FailedRoot(book: Book)
    requires OnlyModelingFailed(book)
    ensures PlanTreeOf(book).status == Failed && PlanTreeOf(book).completedAt == Some(2)
  {
    FailedStatus(book);
    FailedTime(book);
    hide StageId, StageNodes, StageStatuses, Times, OnlyModelingFailed, RootPlanStatus, Latest, Earliest;
  }

  /** On this run the renderer shows the failure's completion time on a root that is running and has none. */
  lemma {:induction false} StaleWitness()
    ensures var trace := FAILED_RUN + [PreToolUse("run_eda", 3)];
      var (shown, tree) := (Fold(None, Run(trace).events), PlanTreeOf(Run(trace).tracker.book));
      && shown.Some? && shown.value.completedAt == Some(2) && tree.completedAt == None
      && ShownCompletion(trace) == Some(2)
  {
    hide Run, FAILED_RUN, PlanTreeOf, Fold, ShownCompletion, StageOfTool;
    EdaTool();
    FailedRun();
    FailedRoot(Run(FAILED_RUN).tracker.book);
    MovingOnLeavesCompletionStale(FAILED_RUN, "run_eda", 3);
    RendererShowsCompletion(FAILED_RUN + [PreToolUse("run_eda", 3)]);
  }
}
