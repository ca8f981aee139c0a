/**
 * What the tracker tells besides the plan tree: which events each callback emits, which stage is current, and which
 * reasoning references a stage holds.
 */
module TrackerEvents {
  import opened Options
  import opened PlanTree
  import opened WorkflowPlan
  import opened WorkflowTracker
  import opened TrackerHistory

  // ---- the events of one callback ----

  /** The order in which one callback emits its events. */
  function Rank(e: Event): nat {
    match e
    case PlanCreated(_) => 0
    case Checkpoint(_, _) => 1
    case WorkflowStep(_, _, _) => 2
    case PlanUpdated(nodeId, _) => if nodeId == PLAN_ROOT_ID then 4 else 3
    case PlanReplanned(_) => 5
  }

  /** At most one event of each rank, in order. */
  ghost predicate Ranked(events: seq<Event>) {
    forall i, j :: 0 <= i < j < |events| ==> Rank(events[i]) < Rank(events[j])
  }

  ghost predicate Starts(t: Tracker, c: Callback, stage: Stage) {
    c.PreToolUse? && StageOfTool(c.tool) == Some(stage) && t.book.status[stage] != Active
  }

  ghost predicate Ends(c: Callback, stage: Stage) {
    || (c.PostToolUse? && StageOfTool(c.tool) == Some(stage))
    || (c.SessionInit? && c.hasContract && stage == Scoping)
  }

  /** Callbacks that announce the plan if it was not announced before. */
  predicate Announces(c: Callback) {
    c.SessionInit? || c.PreToolUse? || c.PostToolUse?
  }

  ghost predicate Over(status: StageStatus) {
    status == Done || status == Error
  }

  /** A stage that was over is entered again. */
  ghost predicate Reenters(t: Tracker, c: Callback, stage: Stage) {
    Starts(t, c, stage) && Over(t.book.status[stage])
  }

  ghost predicate TellsStart(t: Tracker, c: Callback, step: Step) {
    forall stage, at :: Checkpoint(stage, at) in step.events <==> Starts(t, c, stage) && c.now == at
  }

  ghost predicate TellsProgress(t: Tracker, c: Callback, step: Step) {
    forall stage, status, stages :: WorkflowStep(stage, status, stages) in step.events <==>
      && (Starts(t, c, stage) || Ends(c, stage))
      && stages == step.tracker.book.status && status == step.tracker.book.status[stage]
  }

  ghost predicate TellsPlan(t: Tracker, c: Callback, step: Step) {
    && (forall tree :: PlanCreated(tree) in step.events <==>
          && Announces(c) && (c.SessionInit? || !t.planEmitted)
          && tree == PlanTreeOf(if c.SessionInit? then EmptyBook() else t.book))
    && step.tracker.planEmitted == (t.planEmitted || Announces(c))
  }

  ghost predicate TellsReplan(t: Tracker, c: Callback, step: Step) {
    && (c.MarkReplan? || (exists stage :: Reenters(t, c, stage)) ==> exists diff :: PlanReplanned(diff) in step.events)
    && forall diff :: PlanReplanned(diff) in step.events ==>
         || (c.MarkReplan? && diff.reason == c.reason)
         || exists stage :: Reenters(t, c, stage) && diff.reason == "Stage '" + StageId(stage) + "' re-executed"
  }

  /** Exactly which events the callback emits, except for what the patches say. */
  ghost predicate Tells(t: Tracker, c: Callback, step: Step) {
    && Ranked(step.events) && TellsStart(t, c, step) && TellsProgress(t, c, step)
    && TellsPlan(t, c, step) && TellsReplan(t, c, step)
  }

  function Slot(e: Option<Event>): seq<Event> {
    if e.None? then [] else [e.value]
  }

  /** Optional events, one of each rank. */
  datatype Told = Told(created: Option<Event>, start: Option<Event>, progress: Option<Event>,
                       patch: Option<Event>, root: Option<Event>, replan: Option<Event>)

  ghost predicate WellRanked(told: Told) {
    && (told.created.Some? ==> told.created.value.PlanCreated?)
    && (told.start.Some? ==> told.start.value.Checkpoint?)
    && (told.progress.Some? ==> told.progress.value.WorkflowStep?)
    && (told.patch.Some? ==> told.patch.value.PlanUpdated? && told.patch.value.nodeId != PLAN_ROOT_ID)
    && (told.root.Some? ==> told.root.value.PlanUpdated? && told.root.value.nodeId == PLAN_ROOT_ID)
    && (told.replan.Some? ==> told.replan.value.PlanReplanned?)
  }

  function Behind(told: Told): seq<Event> {
    Slot(told.start) + (Slot(told.progress) + (Slot(told.patch) + (Slot(told.root) + Slot(told.replan))))
  }

  function Listed(told: Told): seq<Event> {
    Slot(told.created) + Behind(told)
  }

  lemma {:induction false} SlotInFront(e: Option<Event>, rest: seq<Event>, rank: nat)
    requires Ranked(rest) && (e.Some? ==> Rank(e.value) == rank) && forall x :: x in rest ==> Rank(x) > rank
    ensures Ranked(Slot(e) + rest) && forall x :: x in Slot(e) + rest <==> e == Some(x) || x in rest
  {
    hide Rank;
    assert forall i :: 0 <= i < |rest| ==> rest[i] in rest;
  }

  lemma {:induction false} NoSlots()
    ensures Ranked([])
  {
  }

  lemma {:induction false} ListedIsRanked(told: Told)
    requires WellRanked(told)
    ensures Ranked(Listed(told))
    ensures forall e :: e in Listed(told) <==>
      || told.created == Some(e) || told.start == Some(e) || told.progress == Some(e)
      || told.patch == Some(e) || told.root == Some(e) || told.replan == Some(e)
  {
    hide Ranked, PLAN_ROOT_ID, Slot;
    var replan := Slot(told.replan);
    NoSlots();
    SlotInFront(told.replan, [], 5);
    assert replan + [] == replan;
    var root := Slot(told.root) + replan;
    SlotInFront(told.root, replan, 4);
    var patch := Slot(told.patch) + root;
    SlotInFront(told.patch, root, 3);
    var progress := Slot(told.progress) + patch;
    SlotInFront(told.progress, patch, 2);
    var start := Slot(told.start) + progress;
    SlotInFront(told.start, progress, 1);
    SlotInFront(told.created, start, 0);
  }

  lemma {:induction false} StageIsNotRoot(stage: Stage)
    ensures StageId(stage) != PLAN_ROOT_ID
  {
    StageIdInvertible(stage);
  }

  function CreatedFirst(t: Tracker): Option<Event> {
    if t.planEmitted then None else Some(PlanCreated(PlanTreeOf(t.book)))
  }

  lemma {:induction false} InitListed(t: Tracker, hasContract: bool, now: int) returns (told: Told)
    ensures var step := Next(t, SessionInit(hasContract, now));
      && WellRanked(told) && step.events == Listed(told) && step.tracker.planEmitted
      && told.created == Some(PlanCreated(PlanTreeOf(EmptyBook()))) && told.start == None && told.replan == None
      && told.progress == (if hasContract
           then Some(WorkflowStep(Scoping, step.tracker.book.status[Scoping], step.tracker.book.status)) else None)
  {
    hide PlanTreeOf, RootPatch, StageId, PLAN_ROOT_ID;
    StageIsNotRoot(Scoping);
    var events := Next(t, SessionInit(hasContract, now)).events;
    told := if hasContract then Told(Some(events[0]), None, Some(events[1]), Some(events[2]), Some(events[3]), None)
      else Told(Some(events[0]), None, None, None, None, None);
  }

  /** Entering a stage that does not run. */
  lemma {:induction false} EnterListed(t: Tracker, stage: Stage, now: int) returns (told: Told)
    requires t.book.status[stage] != Active
    ensures var step := Enter(t, stage, now);
      && WellRanked(told) && step.events == Listed(told) && told.created == None
      && told.start == Some(Checkpoint(stage, now))
      && told.progress == Some(WorkflowStep(stage, Active, step.tracker.book.status))
      && step.tracker.book.status[stage] == Active && step.tracker.planEmitted == t.planEmitted
      && (told.replan.Some? <==> Over(t.book.status[stage]))
      && (told.replan.Some? ==> told.replan.value.diff.reason == Reentered(stage))
  {
    hide PlanTreeOf, RootPatch, StageId, PLAN_ROOT_ID, Flatten, Reentered;
    StageIsNotRoot(stage);
    var events := Enter(t, stage, now).events;
    told := Told(None, Some(events[0]), Some(events[1]), Some(events[2]), Some(events[3]),
                 if |events| == 5 then Some(events[4]) else None);
    assert events == [events[0], events[1], events[2], events[3]] + Slot(told.replan);
  }

  lemma {:induction false} SameBehind(told: Told, created: Option<Event>)
    ensures Behind(told.(created := created)) == Behind(told)
  {
    hide Slot;
  }

  lemma {:induction false} CreatedInFront(told: Told, created: Option<Event>)
    requires WellRanked(told) && told.created == None && (created.Some? ==> created.value.PlanCreated?)
    ensures WellRanked(told.(created := created)) && Listed(told.(created := created)) == Slot(created) + Listed(told)
  {
    SameBehind(told, created);
    hide PLAN_ROOT_ID, Behind;
    assert Listed(told) == Behind(told);
  }

  lemma {:induction false} EnsureListed(t: Tracker)
    ensures var shown := EnsureEmitted(t);
      && shown.events == Slot(CreatedFirst(t)) && shown.tracker.planEmitted && shown.tracker.book == t.book
      && (CreatedFirst(t).Some? ==> CreatedFirst(t).value.PlanCreated?)
  {
    hide PlanTreeOf;
  }

  lemma {:induction false} PreListed(t: Tracker, tool: string, now: int) returns (told: Told)
    ensures var (step, stage) := (Next(t, PreToolUse(tool, now)), StageOfTool(tool));
      && WellRanked(told) && step.events == Listed(told) && step.tracker.planEmitted
      && told.created == CreatedFirst(t)
      && (stage.None? || t.book.status[stage.value] == Active ==>
            told.start == None && told.progress == None && told.replan == None)
      && (stage.Some? && t.book.status[stage.value] != Active ==>
            && told.start == Some(Checkpoint(stage.value, now))
            && told.progress == Some(WorkflowStep(stage.value, Active, step.tracker.book.status))
            && step.tracker.book.status[stage.value] == Active
            && (told.replan.Some? <==> Over(t.book.status[stage.value]))
            && (told.replan.Some? ==> told.replan.value.diff.reason == Reentered(stage.value)))
  {
    EnsureListed(t);
    var stage := StageOfTool(tool);
    told := Told(None, None, None, None, None, None);
    hide PlanTreeOf, StageOfTool, Reentered, EnsureEmitted, EnterBook, Replan, RootUpdate, StageId, CreatedFirst;
    if stage.Some? && t.book.status[stage.value] != Active {
      hide Enter, WellRanked, Listed;
      told := EnterListed(EnsureEmitted(t).tracker, stage.value, now);
    } else {
      assert WellRanked(told) && Listed(told) == [];
    }
    hide Listed, WellRanked;
    CreatedInFront(told, CreatedFirst(t));
    told := told.(created := CreatedFirst(t));
  }

  lemma {:induction false} PostListed(t: Tracker, tool: string, isError: bool, now: int) returns (told: Told)
    ensures var (step, stage) := (Next(t, PostToolUse(tool, isError, now)), StageOfTool(tool));
      && WellRanked(told) && step.events == Listed(told) && step.tracker.planEmitted
      && told.created == CreatedFirst(t) && told.start == None && told.replan == None
      && told.progress == (if stage.Some?
           then Some(WorkflowStep(stage.value, step.tracker.book.status[stage.value], step.tracker.book.status))
           else None)
  {
    hide PlanTreeOf, RootPatch, StageId, PLAN_ROOT_ID, StageOfTool;
    var stage := StageOfTool(tool);
    told := Told(CreatedFirst(t), None, None, None, None, None);
    if stage.Some? {
      StageIsNotRoot(stage.value);
      var events := Finish(EnsureEmitted(t).tracker, stage.value, isError, now).events;
      told := told.(progress := Some(events[0]), patch := Some(events[1]), root := Some(events[2]));
    }
  }

  /** The slots hold the only events of their kinds. */
  ghost predicate InSlots(events: seq<Event>, told: Told) {
    && Ranked(events)
    && (forall e :: e in events && e.PlanCreated? <==> told.created == Some(e))
    && (forall e :: e in events && e.Checkpoint? <==> told.start == Some(e))
    && (forall e :: e in events && e.WorkflowStep? <==> told.progress == Some(e))
    && (forall e :: e in events && e.PlanReplanned? <==> told.replan == Some(e))
  }

  lemma {:induction false} ListedInSlots(told: Told)
    requires WellRanked(told)
    ensures InSlots(Listed(told), told)
  {
    hide Listed, Ranked;
    ListedIsRanked(told);
  }

  lemma {:induction false} StartTold(t: Tracker, c: Callback, step: Step, told: Told)
    requires InSlots(step.events, told)
    requires (forall stage :: Starts(t, c, stage) ==> told.start == Some(Checkpoint(stage, c.now)))
    requires told.start.Some? ==> exists stage :: Starts(t, c, stage)
    ensures TellsStart(t, c, step)
  {
    hide Ranked, Starts;
  }

  lemma {:induction false} ProgressTold(t: Tracker, c: Callback, step: Step, told: Told)
    requires InSlots(step.events, told)
    requires forall stage :: Starts(t, c, stage) || Ends(c, stage) ==>
      told.progress == Some(WorkflowStep(stage, step.tracker.book.status[stage], step.tracker.book.status))
    requires told.progress.Some? ==> exists stage :: Starts(t, c, stage) || Ends(c, stage)
    ensures TellsProgress(t, c, step)
  {
    hide Ranked, Starts, Ends;
  }

  lemma {:induction false} PlanTold(t: Tracker, c: Callback, step: Step, told: Told)
    requires InSlots(step.events, told) && step.tracker.planEmitted == (t.planEmitted || Announces(c))
    requires told.created == if Announces(c) && (c.SessionInit? || !t.planEmitted)
      then Some(PlanCreated(PlanTreeOf(if c.SessionInit? then EmptyBook() else t.book))) else None
    ensures TellsPlan(t, c, step)
  {
    hide Ranked, PlanTreeOf, EmptyBook;
  }

  lemma {:induction false} ReplanTold(t: Tracker, c: Callback, step: Step, told: Told)
    requires InSlots(step.events, told) && (told.replan.Some? ==> told.replan.value.PlanReplanned?)
    requires c.MarkReplan? ==> told.replan.Some? && told.replan.value.diff.reason == c.reason
    requires forall stage :: Reenters(t, c, stage) ==>
      told.replan.Some? && told.replan.value.diff.reason == "Stage '" + StageId(stage) + "' re-executed"
    requires told.replan.Some? ==> c.MarkReplan? || exists stage :: Reenters(t, c, stage)
    ensures TellsReplan(t, c, step)
  {
    hide Ranked, Reenters, StageId;
    if told.replan.Some? {
      assert PlanReplanned(told.replan.value.diff) in step.events;
    }
  }

  lemma {:induction false} Unslotted(events: seq<Event>, told: Told)
    requires InSlots(events, told)
    ensures Ranked(events)
  {
    hide Ranked;
  }

  lemma {:induction false} InitTells(t: Tracker, hasContract: bool, now: int)
    ensures Tells(t, SessionInit(hasContract, now), Next(t, SessionInit(hasContract, now)))
  {
    hide PlanTreeOf, Next, WellRanked, Listed, EmptyBook, TellsStart, TellsProgress, TellsPlan, TellsReplan;
    var c := SessionInit(hasContract, now);
    var step := Next(t, c);
    var told := InitListed(t, hasContract, now);
    ListedInSlots(told);
    assert hasContract ==> Ends(c, Scoping);
    hide InSlots;
    assert Ranked(step.events) by { Unslotted(step.events, told); }
    StartTold(t, c, step, told);
    ProgressTold(t, c, step, told);
    PlanTold(t, c, step, told);
    ReplanTold(t, c, step, told);
  }

  lemma {:induction false} ReplanSlot(told: Told)
    requires WellRanked(told)
    ensures told.replan.Some? ==> told.replan.value.PlanReplanned?
  {
    hide PLAN_ROOT_ID;
  }

  lemma {:induction false} PreTells(t: Tracker, tool: string, now: int)
    ensures Tells(t, PreToolUse(tool, now), Next(t, PreToolUse(tool, now)))
  {
    hide PlanTreeOf, Next, WellRanked, Listed, EmptyBook, TellsStart, TellsProgress, TellsPlan, TellsReplan;
    hide StageOfTool, StageId, InSlots, Ranked;
    var c := PreToolUse(tool, now);
    var step := Next(t, c);
    var told := PreListed(t, tool, now);
    ListedInSlots(told);
    Unslotted(step.events, told);
    var stage := StageOfTool(tool);
    if stage.Some? && t.book.status[stage.value] != Active {
      assert Starts(t, c, stage.value);
      assert told.replan.Some? ==> Reenters(t, c, stage.value) && told.replan.value.PlanReplanned? by {
        ReplanSlot(told);
      }
    }
    StartTold(t, c, step, told);
    ProgressTold(t, c, step, told);
    PlanTold(t, c, step, told);
    ReplanTold(t, c, step, told);
  }

  lemma {:induction false} PostTells(t: Tracker, tool: string, isError: bool, now: int)
    ensures Tells(t, PostToolUse(tool, isError, now), Next(t, PostToolUse(tool, isError, now)))
  {
    hide PlanTreeOf, Next, WellRanked, Listed, EmptyBook, TellsStart, TellsProgress, TellsPlan, TellsReplan;
    hide StageOfTool, StageId, InSlots, Ranked;
    var c := PostToolUse(tool, isError, now);
    var step := Next(t, c);
    var told := PostListed(t, tool, isError, now);
    ListedInSlots(told);
    Unslotted(step.events, told);
    assert StageOfTool(tool).Some? ==> Ends(c, StageOfTool(tool).value);
    StartTold(t, c, step, told);
    ProgressTold(t, c, step, told);
    PlanTold(t, c, step, told);
    ReplanTold(t, c, step, told);
  }

  lemma {:induction false} OthersListed(t: Tracker, c: Callback) returns (told: Told)
    requires !Announces(c)
    ensures var step := Next(t, c);
      && WellRanked(told) && step.events == Listed(told) && step.tracker.planEmitted == t.planEmitted
      && told.created == None && told.start == None && told.progress == None
      && (c.MarkReplan? <==> told.replan.Some?)
      && (c.MarkReplan? ==> told.replan.value.PlanReplanned? && told.replan.value.diff.reason == c.reason)
  {
    hide PlanTreeOf, StageId, PLAN_ROOT_ID, StageOfId, RefTarget, Flatten;
    var events := Next(t, c).events;
    told := Told(None, None, None, None, None, None);
    if c.RecordReasoningRef? && events != [] {
      StageIsNotRoot(RefTarget(t.book, c.stageId).value);
      told := told.(patch := Some(events[0]));
    }
    if c.MarkReplan? { told := told.(replan := Some(events[0])); }
  }

  lemma {:induction false} OthersTell(t: Tracker, c: Callback)
    requires !Announces(c)
    ensures Tells(t, c, Next(t, c))
  {
    hide PlanTreeOf, Next, WellRanked, Listed, EmptyBook, TellsStart, TellsProgress, TellsPlan, TellsReplan;
    hide InSlots, Ranked, StageId;
    var step := Next(t, c);
    var told := OthersListed(t, c);
    ListedInSlots(told);
    Unslotted(step.events, told);
    StartTold(t, c, step, told);
    ProgressTold(t, c, step, told);
    PlanTold(t, c, step, told);
    ReplanTold(t, c, step, told);
  }

  /** What each callback tells, from any state of the tracker. */
  lemma {:induction false} EventsOfCallback(t: Tracker, c: Callback)
    ensures Tells(t, c, Next(t, c))
  {
    hide Tells, Next;
    match c
    case SessionInit(hasContract, now) => InitTells(t, hasContract, now);
    case PreToolUse(tool, now) => PreTells(t, tool, now);
    case PostToolUse(tool, isError, now) => PostTells(t, tool, isError, now);
    case _ => OthersTell(t, c);
  }

  // ---- the current stage ----

  /** The callback makes `stage` current. */
  ghost predicate Puts(c: Callback, stage: Stage) {
    match c
    case SessionInit(hasContract, _) => hasContract && stage == Scoping
    case PreToolUse(tool, _) => StageOfTool(tool) == Some(stage)
    case RestoreCurrent(stageId) => stageId == StageId(stage)
    case _ => false
  }

  ghost predicate Overrides(c: Callback) {
    c.SessionInit? || exists stage :: Puts(c, stage)
  }

  ghost predicate LastPut(trace: seq<Callback>, k: int, stage: Stage) {
    0 <= k < |trace| && Puts(trace[k], stage) && forall j :: k < j < |trace| ==> !Overrides(trace[j])
  }

  /** An id is looked up as a stage iff it is that stage's id. */
  lemma {:induction false} IdOfStage(id: string, stage: Stage)
    ensures StageOfId(id) == Some(stage) <==> id == StageId(stage)
  {
    if id == StageId(stage) { StageIdInvertible(stage); }
  }

  lemma {:induction false} NextCurrent(t: Tracker, c: Callback, stage: Stage)
    ensures Next(t, c).tracker.current == Some(stage) <==>
      Puts(c, stage) || (t.current == Some(stage) && !Overrides(c))
  {
    hide PlanTreeOf, RootPatch, StageId, StageOfTool, StageOfId, Replan, EnterBook, RefTarget;
    if c.RestoreCurrent? {
      IdOfStage(c.stageId, stage);
      if StageOfId(c.stageId).Some? {
        IdOfStage(c.stageId, StageOfId(c.stageId).value);
        assert Puts(c, StageOfId(c.stageId).value);
      } else {
        forall s: Stage ensures !Puts(c, s) { IdOfStage(c.stageId, s); }
      }
    } else if c.PreToolUse? && StageOfTool(c.tool).Some? {
      assert Puts(c, StageOfTool(c.tool).value);
    }
  }

  /** On every trace the current stage is the one put last, unless a session start came behind. */
  lemma {:induction false} CurrentIsLastPut(trace: seq<Callback>, stage: Stage)
    ensures Run(trace).tracker.current == Some(stage) <==> exists k :: LastPut(trace, k, stage)
  {
    hide Puts, Overrides, Next;
    if trace != [] {
      var n := |trace| - 1;
      var front, c := trace[..n], trace[n];
      CurrentIsLastPut(front, stage);
      NextCurrent(Run(front).tracker, c, stage);
      assert LastPut(trace, n, stage) <==> Puts(c, stage);
      forall k | k < n ensures LastPut(trace, k, stage) <==> LastPut(front, k, stage) && !Overrides(c) {
        if 0 <= k { assert front[k] == trace[k] && forall j :: k < j < n ==> front[j] == trace[j]; }
      }
    }
  }

  // ---- reasoning references ----

  ghost predicate FirstRunningAt(book: Book, lo: nat, k: int) {
    && lo <= k < |ORDERED_STAGES| && book.status[ORDERED_STAGES[k]] == Active
    && forall j :: lo <= j < k ==> book.status[ORDERED_STAGES[j]] != Active
  }

  /** The first running stage in workflow order. */
  ghost predicate FirstRunning(book: Book, stage: Stage) {
    exists k :: FirstRunningAt(book, 0, k) && ORDERED_STAGES[k] == stage
  }

  lemma {:induction false} ActiveIsFirst(book: Book, lo: nat)
    requires lo <= |ORDERED_STAGES|
    ensures ActiveFrom(book, lo).Some? ==>
      exists k :: FirstRunningAt(book, lo, k) && Some(ORDERED_STAGES[k]) == ActiveFrom(book, lo)
    decreases |ORDERED_STAGES| - lo
  {
    hide ORDERED_STAGES;
    if lo < |ORDERED_STAGES| {
      if book.status[ORDERED_STAGES[lo]] == Active {
        assert FirstRunningAt(book, lo, lo);
      } else {
        ActiveIsFirst(book, lo + 1);
        if k :| FirstRunningAt(book, lo + 1, k) && Some(ORDERED_STAGES[k]) == ActiveFrom(book, lo + 1) {
          assert FirstRunningAt(book, lo, k);
        }
      }
    }
  }

  /** A reference goes to the stage of the id, or without one to the first running stage. */
  lemma {:induction false} ReferenceGoesTo(book: Book, stageId: string, stage: Stage)
    ensures RefTarget(book, stageId) == Some(stage) <==>
      if stageId == "" then FirstRunning(book, stage) else stageId == StageId(stage)
  {
    hide StageOfId, StageId, ActiveFrom, ORDERED_STAGES;
    IdOfStage(stageId, stage);
    ActiveIsFirst(book, 0);
    if k :| FirstRunningAt(book, 0, k) && ORDERED_STAGES[k] == stage {
      if i :| FirstRunningAt(book, 0, i) && Some(ORDERED_STAGES[i]) == ActiveFrom(book, 0) {
        assert i == k;
      }
    }
  }

  /** Callback `k` records `id` for the stage. */
  ghost predicate Refers(trace: seq<Callback>, k: int, stage: Stage, id: string) {
    && 0 <= k < |trace| && trace[k].RecordReasoningRef? && trace[k].reasoningId == id != ""
    && (if trace[k].stageId == "" then FirstRunning(Run(trace[..k]).tracker.book, stage)
        else trace[k].stageId == StageId(stage))
  }

  /** Callback `k` starts a session, or enters the stage again when it was over. */
  ghost predicate Clears(trace: seq<Callback>, k: int, stage: Stage) {
    && 0 <= k < |trace|
    && (trace[k].SessionInit?
        || (trace[k].PreToolUse? && StageOfTool(trace[k].tool) == Some(stage)
            && Over(StatusAfter(History(trace[..k], stage)))))
  }

  /** Callback `k` records `id` for the stage, and nothing later clears it. */
  ghost predicate StillRefers(trace: seq<Callback>, k: int, stage: Stage, id: string) {
    Refers(trace, k, stage, id) && forall j :: k < j < |trace| ==> !Clears(trace, j, stage)
  }

  ghost predicate NoRepetition(ids: seq<string>) {
    forall i, j :: 0 <= i < j < |ids| ==> ids[i] != ids[j]
  }

  lemma {:induction false} RunStep(front: seq<Callback>, c: Callback)
    ensures Run(front + [c]).tracker == Next(Run(front).tracker, c).tracker
  {
    hide Next;
    assert (front + [c])[..|front|] == front;
  }

  lemma {:induction false} OtherReferences(t: Tracker, c: Callback, stage: Stage)
    requires !c.SessionInit? && !c.RecordReasoningRef?
    ensures var (was, now) := (t.book.reasoningRefs[stage], Next(t, c).tracker.book.reasoningRefs[stage]);
      now == if c.PreToolUse? && StageOfTool(c.tool) == Some(stage) && Over(t.book.status[stage]) then [] else was
  {
    hide PlanTreeOf, StageId, StageOfTool, StageOfId, Replan, EnsureEmitted, Enter, Finish;
  }

  lemma {:induction false} RecordedReference(t: Tracker, id: string, stageId: string, stage: Stage)
    ensures var (was, now) :=
        (t.book.reasoningRefs[stage], Next(t, RecordReasoningRef(id, stageId)).tracker.book.reasoningRefs[stage]);
      now == if RefTarget(t.book, stageId) == Some(stage) && id != "" && id !in was then was + [id] else was
  {
    hide PlanTreeOf, StageId, RefTarget;
  }

  lemma {:induction false} NothingReferred(t: Tracker, c: Callback, stage: Stage)
    requires c.SessionInit?
    ensures Next(t, c).tracker.book.reasoningRefs[stage] == []
  {
    hide PlanTreeOf, RootPatch, StageId;
  }

  lemma {:induction false} NextReferences(t: Tracker, c: Callback, stage: Stage)
    ensures var (was, now) := (t.book.reasoningRefs[stage], Next(t, c).tracker.book.reasoningRefs[stage]);
      var goes := c.RecordReasoningRef? && (if c.stageId == "" then FirstRunning(t.book, stage)
        else c.stageId == StageId(stage));
      now == if c.SessionInit? || (c.PreToolUse? && StageOfTool(c.tool) == Some(stage) && Over(t.book.status[stage]))
        then []
        else if goes && c.reasoningId != "" && c.reasoningId !in was then was + [c.reasoningId]
        else was
  {
    if c.SessionInit? {
      NothingReferred(t, c, stage);
    } else if c.RecordReasoningRef? {
      hide Next, RefTarget, FirstRunning, StageId;
      ReferenceGoesTo(t.book, c.stageId, stage);
      RecordedReference(t, c.reasoningId, c.stageId, stage);
    } else {
      hide Next, FirstRunning, StageId;
      OtherReferences(t, c, stage);
    }
  }

  /** What one more callback does to a stage's references. */
  lemma {:induction false} ReferencesGrow(front: seq<Callback>, c: Callback, stage: Stage)
    ensures var (trace, n) := (front + [c], |front|);
      var (was, now) := (Run(front).tracker.book.reasoningRefs[stage], Run(trace).tracker.book.reasoningRefs[stage]);
      && (Clears(trace, n, stage) ==> now == [])
      && (!Clears(trace, n, stage) ==>
            now == if c.RecordReasoningRef? && Refers(trace, n, stage, c.reasoningId) && c.reasoningId !in was
              then was + [c.reasoningId] else was)
  {
    var trace := front + [c];
    assert trace[..|front|] == front && trace[|front|] == c;
    TrackerRefinesHistory(front, stage);
    NextReferences(Run(front).tracker, c, stage);
    hide Run, Next, StageOfTool, StageId, FirstRunning, History, StatusAfter;
    assert Run(trace).tracker == Next(Run(front).tracker, c).tracker by { RunStep(front, c); }
  }

  lemma {:induction false} ReferredInFront(front: seq<Callback>, c: Callback, k: int, stage: Stage, id: string)
    requires k < |front|
    ensures StillRefers(front + [c], k, stage, id) <==>
      StillRefers(front, k, stage, id) && !Clears(front + [c], |front|, stage)
  {
    var trace := front + [c];
    hide Run, StageOfTool, StageId, FirstRunning, History, StatusAfter, Over;
    assert k >= 0 ==> trace[k] == front[k] && trace[..k] == front[..k];
    forall j | k < j < |front| ensures Clears(trace, j, stage) <==> Clears(front, j, stage) {
      assert j >= 0 ==> trace[j] == front[j] && trace[..j] == front[..j];
    }
  }

  lemma {:induction false} InTrace(trace: seq<Callback>, k: int, stage: Stage, id: string)
    requires StillRefers(trace, k, stage, id)
    ensures 0 <= k < |trace| && !Clears(trace, k, stage)
  {
    hide FirstRunning, StageId;
  }

  lemma {:induction false} OneMoreReference(front: seq<Callback>, c: Callback, stage: Stage, id: string)
    ensures var trace := front + [c];
      (exists k :: StillRefers(trace, k, stage, id)) <==>
        || Refers(trace, |front|, stage, id)
        || (!Clears(trace, |front|, stage) && exists k :: StillRefers(front, k, stage, id))
  {
    hide Refers, Clears;
    var trace := front + [c];
    if k :| StillRefers(trace, k, stage, id) {
      InTrace(trace, k, stage, id);
      if k < |front| { ReferredInFront(front, c, k, stage, id); }
    }
    if Refers(trace, |front|, stage, id) { assert StillRefers(trace, |front|, stage, id); }
    if k :| StillRefers(front, k, stage, id) && !Clears(trace, |front|, stage) {
      InTrace(front, k, stage, id);
      ReferredInFront(front, c, k, stage, id);
    }
  }

  /** On every trace: the references of a stage are those recorded for it since it was last cleared, each once. */
  lemma {:induction false} ReferencesAreHistory(trace: seq<Callback>, stage: Stage)
    ensures var refs := Run(trace).tracker.book.reasoningRefs[stage];
      NoRepetition(refs) && forall id :: id in refs <==> exists k :: StillRefers(trace, k, stage, id)
  {
    if trace == [] {
    } else {
      var n := |trace| - 1;
      var front, c := trace[..n], trace[n];
      assert trace == front + [c];
      ReferencesAreHistory(front, stage);
      ReferencesGrow(front, c, stage);
      hide Run, Clears, Refers;
      forall id ensures id in Run(trace).tracker.book.reasoningRefs[stage]
        <==> exists k :: StillRefers(trace, k, stage, id)
      {
        OneMoreReference(front, c, stage, id);
      }
    }
  }
}
