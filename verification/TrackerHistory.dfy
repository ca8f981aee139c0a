/**
 * What the tracker's record means: for every run of callbacks, including tools that were denied or
 * that crashed (a pre callback with no post callback), a stage's record is a function of what
 * happened to that stage since the session was last initialised, and nothing else.
 */
module TrackerHistory {
  import opened Options
  import opened WorkflowPlan
  import opened WorkflowTracker

  datatype StageEvent = Entered(at: int) | Finished(isError: bool, at: int) | Contracted(at: int)

  /** What a callback does to one stage, if anything. */
  function EffectOn(c: Callback, stage: Stage): Option<StageEvent> {
    match c
    case SessionInit(hasContract, now) => if hasContract && stage == Scoping then Some(Contracted(now)) else None
    case PreToolUse(tool, now) => if StageOfTool(tool) == Some(stage) then Some(Entered(now)) else None
    case PostToolUse(tool, isError, now) =>
      if StageOfTool(tool) == Some(stage) then Some(Finished(isError, now)) else None
    case _ => None
  }

  /** The events of one stage since the last session start, oldest first. */
  function History(trace: seq<Callback>, stage: Stage): seq<StageEvent> {
    if trace == [] then []
    else
      var c := trace[|trace| - 1];
      var before := if c.SessionInit? then [] else History(trace[..|trace| - 1], stage);
      if EffectOn(c, stage).Some? then before + [EffectOn(c, stage).value] else before
  }

  function StatusAfter(h: seq<StageEvent>): StageStatus {
    if h == [] then Idle
    else match h[|h| - 1]
      case Entered(_) => Active
      case Finished(isError, _) => if isError then Error else Done
      case Contracted(_) => Done
  }

  /** A stage is complete from its last event on, unless that event entered it. */
  function CompletionAfter(h: seq<StageEvent>): Option<int> {
    if h == [] || h[|h| - 1].Entered? then None else Some(h[|h| - 1].at)
  }

  /** Position `k` starts an attempt: the stage is entered (or closed by a contract) and was not running before. */
  predicate StartsAttempt(h: seq<StageEvent>, k: int) {
    0 <= k < |h| && !h[k].Finished? && (h[k].Contracted? || k == 0 || !h[k - 1].Entered?)
  }

  /** The latest attempt start. */
  predicate LastStart(h: seq<StageEvent>, k: int) {
    StartsAttempt(h, k) && forall j :: k < j < |h| ==> !StartsAttempt(h, j)
  }

  /** When the latest attempt started. */
  function StartAfter(h: seq<StageEvent>): Option<int> {
    if h == [] then None
    else if StartsAttempt(h, |h| - 1) then Some(h[|h| - 1].at)
    else StartAfter(h[..|h| - 1])
  }

  lemma {:induction false} StartAfterIsLastStart(h: seq<StageEvent>)
    ensures forall k :: LastStart(h, k) ==> StartAfter(h) == Some(h[k].at)
    ensures (forall k :: !StartsAttempt(h, k)) <==> StartAfter(h) == None
  {
    if h != [] && !StartsAttempt(h, |h| - 1) {
      var front := h[..|h| - 1];
      StartAfterIsLastStart(front);
      forall k ensures StartsAttempt(h, k) <==> StartsAttempt(front, k) {
        if 0 <= k < |front| { assert h[k] == front[k] && (k > 0 ==> h[k - 1] == front[k - 1]); }
      }
      forall k | LastStart(h, k) ensures LastStart(front, k) && h[k] == front[k] {}
    }
  }

  ghost predicate RecordMatches(book: Book, stage: Stage, h: seq<StageEvent>) {
    && book.status[stage] == StatusAfter(h)
    && book.startedAt[stage] == StartAfter(h)
    && book.completedAt[stage] == CompletionAfter(h)
  }

  lemma {:induction false} InitMatches(hasContract: bool, now: int, stage: Stage)
    ensures RecordMatches(Init(hasContract, now).tracker.book, stage,
      if hasContract && stage == Scoping then [Contracted(now)] else [])
  {
    hide PlanTreeOf, RootPatch, StageId;
  }

  /** What a callback other than a session start does to the record. */
  ghost predicate BookFollows(was: Book, now: Book, c: Callback) {
    match c
    case SessionInit(_, _) => false
    case PreToolUse(tool, at) =>
      var stage := StageOfTool(tool);
      now == if stage.None? || was.status[stage.value] == Active then was else EnterBook(was, stage.value, at)
    case PostToolUse(tool, isError, at) =>
      var stage := StageOfTool(tool);
      now == if stage.None? then was else FinishBook(was, stage.value, isError, at)
    case _ => now == was.(reasoningRefs := now.reasoningRefs)
  }

  lemma {:induction false} NextBook(t: Tracker, c: Callback)
    requires !c.SessionInit?
    ensures BookFollows(t.book, Next(t, c).tracker.book, c)
  {
    hide PlanTreeOf, StageOfTool, StageOfId, EnsureEmitted, Enter, Finish, RecordRef, Replan, EnterBook, FinishBook;
  }

  /** The other callbacks leave every stage's status and times alone. */
  lemma {:induction false} Bystander(t: Tracker, c: Callback, stage: Stage)
    requires !c.SessionInit? && EffectOn(c, stage) == None
    ensures var (was, now) := (t.book, Next(t, c).tracker.book);
      now.status[stage] == was.status[stage]
      && now.startedAt[stage] == was.startedAt[stage] && now.completedAt[stage] == was.completedAt[stage]
  {
    hide StageOfTool, Next;
    NextBook(t, c);
  }

  /** How one more event moves what a history says. */
  lemma {:induction false} OneMoreEvent(h: seq<StageEvent>, e: StageEvent)
    ensures StatusAfter(h + [e]) == (if e.Entered? then Active else if e.Finished? && e.isError then Error else Done)
    ensures CompletionAfter(h + [e]) == if e.Entered? then None else Some(e.at)
    ensures StartAfter(h + [e]) ==
      if e.Contracted? || (e.Entered? && StatusAfter(h) != Active) then Some(e.at) else StartAfter(h)
    ensures StatusAfter(h) == Active ==> CompletionAfter(h) == None
    ensures StatusAfter(h) == Idle ==> CompletionAfter(h) == None
  {
    assert (h + [e])[..|h|] == h;
  }

  lemma {:induction false} NextMatches(t: Tracker, c: Callback, stage: Stage, h: seq<StageEvent>)
    requires RecordMatches(t.book, stage, h) && !c.SessionInit?
    ensures RecordMatches(Next(t, c).tracker.book, stage,
      if EffectOn(c, stage).Some? then h + [EffectOn(c, stage).value] else h)
  {
    hide StageOfTool, Next, StatusAfter, StartAfter, CompletionAfter;
    if EffectOn(c, stage).None? {
      Bystander(t, c, stage);
    } else {
      NextBook(t, c);
      OneMoreEvent(h, EffectOn(c, stage).value);
    }
  }

  /** The tracker refines its history, on every trace. */
  lemma {:induction false} TrackerRefinesHistory(trace: seq<Callback>, stage: Stage)
    ensures RecordMatches(Run(trace).tracker.book, stage, History(trace, stage))
  {
    hide PlanTreeOf, RootPatch, StageId, Replan, StageOfTool;
    if trace != [] {
      var front, c := trace[..|trace| - 1], trace[|trace| - 1];
      TrackerRefinesHistory(front, stage);
      if c.SessionInit? {
        InitMatches(c.hasContract, c.now, stage);
        assert History(trace, stage) == if EffectOn(c, stage).Some? then [EffectOn(c, stage).value] else [];
      } else {
        NextMatches(Run(front).tracker, c, stage, History(front, stage));
      }
    }
  }

  // ---- timestamps ----

  function TimeOf(c: Callback): Option<int> {
    match c
    case SessionInit(_, now) => Some(now)
    case PreToolUse(_, now) => Some(now)
    case PostToolUse(_, _, now) => Some(now)
    case _ => None
  }

  ghost predicate ClockNondecreasing(trace: seq<Callback>) {
    forall i, j :: 0 <= i < j < |trace| && TimeOf(trace[i]).Some? && TimeOf(trace[j]).Some? ==>
      TimeOf(trace[i]).value <= TimeOf(trace[j]).value
  }

  ghost predicate InOrder(h: seq<StageEvent>) {
    forall i, j :: 0 <= i < j < |h| ==> h[i].at <= h[j].at
  }

  /** Position `j` is a pre callback for the tool of position `i`, earlier in the same session. */
  ghost predicate OpensFor(trace: seq<Callback>, j: int, i: int) {
    && 0 <= j < i < |trace|
    && trace[j].PreToolUse? && trace[i].PostToolUse? && trace[j].tool == trace[i].tool
    && forall k :: j < k < i ==> !trace[k].SessionInit?
  }

  ghost predicate PostsFollowPres(trace: seq<Callback>) {
    forall i :: 0 <= i < |trace| && trace[i].PostToolUse? ==> exists j :: OpensFor(trace, j, i)
  }

  ghost predicate EntersInThisSession(trace: seq<Callback>, stage: Stage, i: int) {
    && 0 <= i < |trace|
    && trace[i].PreToolUse? && StageOfTool(trace[i].tool) == Some(stage)
    && forall k :: i < k < |trace| ==> !trace[k].SessionInit?
  }

  lemma {:induction false} HistoryInOrder(trace: seq<Callback>, stage: Stage)
    requires ClockNondecreasing(trace)
    ensures InOrder(History(trace, stage))
    ensures forall e :: e in History(trace, stage) ==>
      exists i :: 0 <= i < |trace| && TimeOf(trace[i]) == Some(e.at)
  {
    if trace != [] {
      var front, c := trace[..|trace| - 1], trace[|trace| - 1];
      HistoryInOrder(front, stage);
      var h := History(trace, stage);
      forall e | e in h ensures exists i :: 0 <= i < |trace| && TimeOf(trace[i]) == Some(e.at) {
        if e == h[|h| - 1] && EffectOn(c, stage).Some? {
          assert TimeOf(trace[|trace| - 1]) == Some(e.at);
        } else {
          assert e in History(front, stage);
          var i :| 0 <= i < |front| && TimeOf(front[i]) == Some(e.at);
          assert trace[i] == front[i];
        }
      }
      if !c.SessionInit? && EffectOn(c, stage).Some? {
        var before := History(front, stage);
        forall i | 0 <= i < |before| ensures before[i].at <= h[|before|].at {
          assert before[i] in before;
          var j :| 0 <= j < |front| && TimeOf(front[j]) == Some(before[i].at);
          assert trace[j] == front[j] && TimeOf(trace[|trace| - 1]) == Some(h[|before|].at);
        }
      }
    }
  }

  lemma {:induction false} StartBeforeLast(h: seq<StageEvent>)
    requires InOrder(h) && StartAfter(h).Some?
    ensures h != [] && StartAfter(h).value <= h[|h| - 1].at
  {
    if !StartsAttempt(h, |h| - 1) {
      StartBeforeLast(h[..|h| - 1]);
    }
  }

  /** Sequential dispatch reaches a post callback only through its pre callback, so a history never opens with one. */
  lemma {:induction false} HistoryOpensWithStart(trace: seq<Callback>, stage: Stage)
    requires PostsFollowPres(trace)
    ensures History(trace, stage) != [] ==> StartsAttempt(History(trace, stage), 0)
    ensures forall i :: EntersInThisSession(trace, stage, i) ==> History(trace, stage) != []
  {
    hide StageOfTool;
    if trace != [] {
      var front, c := trace[..|trace| - 1], trace[|trace| - 1];
      forall i | 0 <= i < |front| && front[i].PostToolUse? ensures exists j :: OpensFor(front, j, i) {
        var j :| OpensFor(trace, j, i);
        assert OpensFor(front, j, i);
      }
      HistoryOpensWithStart(front, stage);
      if c.PostToolUse? && StageOfTool(c.tool) == Some(stage) {
        var j :| OpensFor(trace, j, |front|);
        assert EntersInThisSession(front, stage, j);
      }
      forall i | EntersInThisSession(trace, stage, i) ensures History(trace, stage) != [] {
        if i < |front| {
          assert !trace[|trace| - 1].SessionInit?;
          assert EntersInThisSession(front, stage, i);
        }
      }
    }
  }

  /**
   * The timestamps of a stage tell its status. Completion times do on every trace; start times do
   * on every trace in which post callbacks follow pre callbacks.
   */
  lemma {:induction false} TimestampsMatchStatus(trace: seq<Callback>, stage: Stage)
    ensures var book := Run(trace).tracker.book;
      && (book.completedAt[stage].Some? <==> book.status[stage] == Done || book.status[stage] == Error)
      && ((book.startedAt[stage].Some? <==> book.status[stage] != Idle) <==>
            (History(trace, stage) == [] || exists k :: StartsAttempt(History(trace, stage), k)))
      && (PostsFollowPres(trace) ==> (book.startedAt[stage].Some? <==> book.status[stage] != Idle))
      && (ClockNondecreasing(trace) && book.startedAt[stage].Some? && book.completedAt[stage].Some? ==>
            book.startedAt[stage].value <= book.completedAt[stage].value)
  {
    var h := History(trace, stage);
    TrackerRefinesHistory(trace, stage);
    hide Run;
    StartAfterIsLastStart(h);
    if PostsFollowPres(trace) { HistoryOpensWithStart(trace, stage); }
    if ClockNondecreasing(trace) && StartAfter(h).Some? {
      HistoryInOrder(trace, stage);
      StartBeforeLast(h);
    }
  }

  lemma {:induction false} StaysEntered(before: seq<Callback>, later: seq<Callback>, stage: Stage)
    requires StatusAfter(History(before, stage)) == Active
    requires forall c :: c in later ==> !c.SessionInit? && !(c.PostToolUse? && StageOfTool(c.tool) == Some(stage))
    ensures StatusAfter(History(before + later, stage)) == Active
  {
    hide StageOfTool;
    if later == [] {
      assert before + later == before;
    } else {
      var front := later[..|later| - 1];
      StaysEntered(before, front, stage);
      var all := before + later;
      assert all[..|all| - 1] == before + front && all[|all| - 1] == later[|later| - 1];
    }
  }

  /** A start without an outcome leaves its stage running until the stage's next outcome. */
  lemma {:induction false} UnfinishedStageKeepsRunning(
    trace: seq<Callback>, tool: string, now: int, later: seq<Callback>)
    requires StageOfTool(tool).Some?
    requires forall c :: c in later ==> !c.SessionInit? && !(c.PostToolUse? && StageOfTool(c.tool) == StageOfTool(tool))
    ensures Run(trace + [PreToolUse(tool, now)] + later).tracker.book.status[StageOfTool(tool).value] == Active
  {
    var stage := StageOfTool(tool).value;
    hide StageOfTool, Run;
    StaysEntered(trace + [PreToolUse(tool, now)], later, stage);
    TrackerRefinesHistory(trace + [PreToolUse(tool, now)] + later, stage);
  }

  // ---- the stored snapshot ----

  ghost predicate SnapshotCurrent(t: Tracker) {
    && (t.previous.Some? ==> t.previous.value == PlanTreeOf(t.book))
    && (t.planEmitted ==> t.previous.Some?)
  }

  lemma {:induction false} NextKeepsSnapshot(t: Tracker, c: Callback)
    requires SnapshotCurrent(t)
    ensures SnapshotCurrent(Next(t, c).tracker)
  {
    hide PlanTreeOf, RootPatch, StageOfTool, StageOfId, EnterBook, FinishBook, ContractBook;
  }

  /** After every callback of every run, the stored snapshot is the tree that would be built now. */
  lemma {:induction false} SnapshotAlwaysCurrent(trace: seq<Callback>)
    ensures SnapshotCurrent(Run(trace).tracker)
  {
    hide PlanTreeOf;
    if trace != [] {
      SnapshotAlwaysCurrent(trace[..|trace| - 1]);
      hide Next;
      NextKeepsSnapshot(Run(trace[..|trace| - 1]).tracker, trace[|trace| - 1]);
    }
  }
}
