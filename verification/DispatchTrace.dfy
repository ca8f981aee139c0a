/**
 * The callbacks the tracker gets from tool calls: what the dispatch between the registered hooks makes of them, and
 * what that does to the tracker's stages.
 */
module DispatchTrace {
  import opened Options
  import opened HookPipeline
  import opened WorkflowPlan
  import opened WorkflowTracker
  import opened TrackerHistory

  /** A tool call with what the tool answers and the clock before and behind it, or a callback of another kind. */
  datatype Action =
    | Call(request: ToolRequest, tool: (string, Args) -> Reply<string>, isToolError: string -> bool,
        preAt: int, postAt: int)
    | Between(callback: Callback)

  predicate OtherKind(c: Callback) {
    !c.PreToolUse? && !c.PostToolUse?
  }

  ghost predicate WellFormed(actions: seq<Action>) {
    forall a :: a in actions && a.Between? ==> OtherKind(a.callback)
  }

  /** Hook `i` is asked before the tool runs: no hook before it denies. */
  ghost predicate IsAsked(hooks: seq<Hook>, request: ToolRequest, i: nat)
    requires i <= |hooks|
  {
    forall j :: 0 <= j < i ==> !DeniesAt(hooks, request.name, request.arguments, j)
  }

  function Outcome(hooks: seq<Hook>, a: Action): Dispatched
    requires a.Call?
  {
    Dispatch(hooks, a.request, a.tool, a.isToolError)
  }

  /** The callbacks the tracker, hook `i` of the registry, gets from one action. */
  ghost function CallbacksOf(hooks: seq<Hook>, i: nat, a: Action): seq<Callback>
    requires i < |hooks|
  {
    match a
    case Between(c) => [c]
    case Call(request, _, _, preAt, postAt) =>
      var r := Outcome(hooks, a);
      (if IsAsked(hooks, request, i) then [PreToolUse(request.name, preAt)] else [])
      + (if r.Completed? then [PostToolUse(request.name, r.isError, postAt)] else [])
  }

  /** One action after the other. */
  ghost function TraceOf(hooks: seq<Hook>, i: nat, actions: seq<Action>): seq<Callback>
    requires i < |hooks|
  {
    if actions == [] then []
    else TraceOf(hooks, i, actions[..|actions| - 1]) + CallbacksOf(hooks, i, actions[|actions| - 1])
  }

  /** A tool only runs when no hook denies, and then every hook was asked. */
  lemma {:induction false} CompletedWasAsked(hooks: seq<Hook>, i: nat, a: Action)
    requires i < |hooks| && a.Call? && !Outcome(hooks, a).Denied?
    ensures IsAsked(hooks, a.request, i)
  {
    hide Denies, ArgsAt, ResultAt;
    RunsOnRewrittenArguments(hooks, a.request, a.tool, a.isToolError);
  }

  function StartOf(a: Action): Callback
    requires a.Call?
  {
    PreToolUse(a.request.name, a.preAt)
  }

  function EndOf(hooks: seq<Hook>, a: Action): Callback
    requires a.Call? && Outcome(hooks, a).Completed?
  {
    PostToolUse(a.request.name, Outcome(hooks, a).isError, a.postAt)
  }

  /** Start and outcome, the start alone, or nothing. */
  lemma {:induction false} CallbacksOfCall(hooks: seq<Hook>, i: nat, a: Action)
    requires i < |hooks| && a.Call?
    ensures CallbacksOf(hooks, i, a) ==
      if Outcome(hooks, a).Completed? then [StartOf(a), EndOf(hooks, a)]
      else if IsAsked(hooks, a.request, i) then [StartOf(a)]
      else []
  {
    hide Outcome, IsAsked;
    if Outcome(hooks, a).Completed? { CompletedWasAsked(hooks, i, a); }
  }

  lemma {:induction false} NothingToFollow()
    ensures PostsFollowPres([])
  {
  }

  lemma {:induction false} OpensForMore(trace: seq<Callback>, more: seq<Callback>, j: int, i: int)
    requires OpensFor(trace, j, i)
    ensures OpensFor(trace + more, j, i)
  {
    assert forall k :: 0 <= k < |trace| ==> (trace + more)[k] == trace[k];
  }

  /** A callback that is no outcome keeps the property. */
  lemma {:induction false} OneMoreCallback(trace: seq<Callback>, c: Callback)
    requires PostsFollowPres(trace)
    requires c.PostToolUse? ==> trace != [] && trace[|trace| - 1].PreToolUse? && trace[|trace| - 1].tool == c.tool
    ensures PostsFollowPres(trace + [c])
  {
    var all, n := trace + [c], |trace|;
    forall i | 0 <= i < |all| && all[i].PostToolUse? ensures exists j :: OpensFor(all, j, i) {
      if i < n {
        var j :| OpensFor(trace, j, i);
        OpensForMore(trace, [c], j, i);
      } else {
        assert OpensFor(all, n - 1, n);
      }
    }
  }

  lemma {:induction false} MoreFollows(hooks: seq<Hook>, i: nat, trace: seq<Callback>, a: Action)
    requires i < |hooks| && PostsFollowPres(trace) && (a.Between? ==> OtherKind(a.callback))
    ensures PostsFollowPres(trace + CallbacksOf(hooks, i, a))
  {
    hide PostsFollowPres, IsAsked, Outcome;
    match a
    case Between(c) =>
      OneMoreCallback(trace, c);
    case Call(_, _, _, _, _) =>
      CallbacksOfCall(hooks, i, a);
      if Outcome(hooks, a).Completed? {
        OneMoreCallback(trace, StartOf(a));
        OneMoreCallback(trace + [StartOf(a)], EndOf(hooks, a));
        assert trace + [StartOf(a), EndOf(hooks, a)] == trace + [StartOf(a)] + [EndOf(hooks, a)];
      } else if IsAsked(hooks, a.request, i) {
        OneMoreCallback(trace, StartOf(a));
      } else {
        assert trace + [] == trace;
      }
  }

  /** What dispatching calls gives the tracker: an outcome only behind the start of the same call. */
  lemma {:induction false} DispatchedPostsFollowPres(hooks: seq<Hook>, i: nat, actions: seq<Action>)
    requires i < |hooks| && WellFormed(actions)
    ensures PostsFollowPres(TraceOf(hooks, i, actions))
  {
    hide PostsFollowPres, IsAsked, Outcome;
    if actions == [] {
      NothingToFollow();
    } else {
      var front, a := actions[..|actions| - 1], actions[|actions| - 1];
      assert a in actions && forall b :: b in front ==> b in actions;
      DispatchedPostsFollowPres(hooks, i, front);
      MoreFollows(hooks, i, TraceOf(hooks, i, front), a);
    }
  }

  /** Under the agent's dispatch a stage has a start time exactly when it is not idle. */
  lemma {:induction false} DispatchedTimestamps(hooks: seq<Hook>, i: nat, actions: seq<Action>, stage: Stage)
    requires i < |hooks| && WellFormed(actions)
    ensures var book := Run(TraceOf(hooks, i, actions)).tracker.book;
      && (book.startedAt[stage].Some? <==> book.status[stage] != Idle)
      && (book.completedAt[stage].Some? <==> book.status[stage] == Done || book.status[stage] == Error)
  {
    hide Run, TraceOf, PostsFollowPres;
    DispatchedPostsFollowPres(hooks, i, actions);
    TimestampsMatchStatus(TraceOf(hooks, i, actions), stage);
  }

  lemma {:induction false} LastEvent(trace: seq<Callback>, c: Callback, stage: Stage)
    requires !c.SessionInit? && EffectOn(c, stage).Some?
    ensures StatusAfter(History(trace + [c], stage)) == match EffectOn(c, stage).value
      case Entered(_) => Active
      case Finished(isError, _) => if isError then Error else Done
      case Contracted(_) => Done
  {
    hide StageOfTool;
    assert (trace + [c])[..|trace|] == trace;
    OneMoreEvent(History(trace, stage), EffectOn(c, stage).value);
  }

  lemma {:induction false} StatusBehind(trace: seq<Callback>, c: Callback, stage: Stage)
    requires !c.SessionInit? && EffectOn(c, stage).Some?
    ensures Run(trace + [c]).tracker.book.status[stage] == match EffectOn(c, stage).value
      case Entered(_) => Active
      case Finished(isError, _) => if isError then Error else Done
      case Contracted(_) => Done
  {
    hide Run, StageOfTool, StatusAfter, History, EffectOn;
    TrackerRefinesHistory(trace + [c], stage);
    LastEvent(trace, c, stage);
  }

  /** What one tool call leaves of the status of its stage. */
  lemma {:induction false} CallDecidesStatus(hooks: seq<Hook>, i: nat, actions: seq<Action>, a: Action, stage: Stage)
    requires i < |hooks| && a.Call? && StageOfTool(a.request.name) == Some(stage)
    ensures var (was, now, r) := (Run(TraceOf(hooks, i, actions)).tracker.book.status[stage],
        Run(TraceOf(hooks, i, actions + [a])).tracker.book.status[stage], Outcome(hooks, a));
      now == if r.Completed? then (if r.isError then Error else Done)
             else if IsAsked(hooks, a.request, i) then Active
             else was
  {
    hide Run, StageOfTool, IsAsked, Outcome, CallbacksOf, StatusAfter, RecordMatches;
    assert (actions + [a])[..|actions|] == actions;
    var trace := TraceOf(hooks, i, actions);
    CallbacksOfCall(hooks, i, a);
    if Outcome(hooks, a).Completed? {
      StatusBehind(trace + [StartOf(a)], EndOf(hooks, a), stage);
      assert trace + [StartOf(a), EndOf(hooks, a)] == trace + [StartOf(a)] + [EndOf(hooks, a)];
    } else if IsAsked(hooks, a.request, i) {
      StatusBehind(trace, StartOf(a), stage);
    } else {
      assert trace + [] == trace;
    }
  }

  /** No session start, and no tool of the stage comes to an outcome. */
  ghost predicate NoOutcome(hooks: seq<Hook>, actions: seq<Action>, stage: Stage) {
    forall a :: a in actions ==>
      if a.Between? then OtherKind(a.callback) && !a.callback.SessionInit?
      else StageOfTool(a.request.name) == Some(stage) ==> !Outcome(hooks, a).Completed?
  }

  lemma {:induction false} TraceConcat(hooks: seq<Hook>, i: nat, a: seq<Action>, b: seq<Action>)
    requires i < |hooks|
    ensures TraceOf(hooks, i, a + b) == TraceOf(hooks, i, a) + TraceOf(hooks, i, b)
  {
    hide CallbacksOf;
    if b == [] {
      assert a + b == a;
    } else {
      assert (a + b)[..|a + b| - 1] == a + b[..|b| - 1];
      TraceConcat(hooks, i, a, b[..|b| - 1]);
    }
  }

  lemma {:induction false} NoOutcomeInTrace(hooks: seq<Hook>, i: nat, actions: seq<Action>, stage: Stage)
    requires i < |hooks| && NoOutcome(hooks, actions, stage)
    ensures forall c :: c in TraceOf(hooks, i, actions) ==>
      !c.SessionInit? && !(c.PostToolUse? && StageOfTool(c.tool) == Some(stage))
  {
    hide StageOfTool, IsAsked, Outcome;
    if actions != [] {
      var front, a := actions[..|actions| - 1], actions[|actions| - 1];
      assert a in actions && forall b :: b in front ==> b in actions;
      NoOutcomeInTrace(hooks, i, front, stage);
    }
  }

  /**
   * A call that a later hook denies or whose tool crashes leaves its stage running, until a call for the stage
   * comes to an outcome or a session starts.
   */
  lemma {:induction false} BrokenCallKeepsRunning(
    hooks: seq<Hook>, i: nat, before: seq<Action>, a: Action, later: seq<Action>, stage: Stage)
    requires i < |hooks| && a.Call? && StageOfTool(a.request.name) == Some(stage)
    requires IsAsked(hooks, a.request, i) && !Outcome(hooks, a).Completed? && NoOutcome(hooks, later, stage)
    ensures Run(TraceOf(hooks, i, before + [a] + later)).tracker.book.status[stage] == Active
  {
    hide StageOfTool, Run, IsAsked, Outcome, NoOutcome;
    var pre := PreToolUse(a.request.name, a.preAt);
    TraceConcat(hooks, i, before + [a], later);
    assert (before + [a])[..|before|] == before;
    CallbacksOfCall(hooks, i, a);
    NoOutcomeInTrace(hooks, i, later, stage);
    UnfinishedStageKeepsRunning(TraceOf(hooks, i, before), a.request.name, a.preAt, TraceOf(hooks, i, later));
  }
}
