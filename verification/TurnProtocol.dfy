/** What every turn of the agent keeps: the message grammar, the event protocol, bounded calls, safe resumption. */
module TurnProtocol {
  import opened Options
  import opened Messages
  import opened IterationBudget
  import opened ContextManager
  import opened AgentLoop
  import Continuity

  /** A request for a summary: one user message, and no system message. */
  predicate SummaryRequest(ms: seq<Message>) {
    |ms| == 1 && ms[0].User?
  }

  /** Everything the agent holds, stores or has sent obeys the grammar. */
  ghost predicate Sound(c: Config, a: Agent) {
    && Conversation(a.history, c.keepRecent)
    && (a.checkpoint.Some? ==> Conversation(a.checkpoint.value.messages, c.keepRecent))
    && (a.transcript.Some? ==> Conversation(a.transcript.value, c.keepRecent))
    && (forall i :: 0 <= i < |a.sent| ==> Request(a.sent[i], c.keepRecent))
    && forall i :: 0 <= i < |a.summaryRequests| ==> SummaryRequest(a.summaryRequests[i])
  }

  // ---- message lists ----

  lemma {:induction false} ToolRoundIsItems(answer: LlmReply, input: StepInput)
    requires answer.Answered?
    ensures Items([Assistant(answer.content, answer.calls)] + ToolMessages(answer.calls, input.results))
  {
    var tools := ToolMessages(answer.calls, input.results);
    var group := [Assistant(answer.content, answer.calls)] + tools;
    assert group[1..] == tools && tools[|answer.calls|..] == [];
    assert group[1 + |answer.calls|..] == [];
  }

  lemma {:induction false} AfterToolsIsRequest(ms: seq<Message>, answer: LlmReply, input: StepInput, keep: nat)
    requires answer.Answered? && Request(ms, keep)
    ensures Request(AfterTools(ms, answer, input), keep)
    ensures AfterTools(ms, answer, input)[1..] == ms[1..] + AfterTools(ms, answer, input)[|ms|..]
  {
    hide Conversation, Items;
    var group := [Assistant(answer.content, answer.calls)] + ToolMessages(answer.calls, input.results);
    ToolRoundIsItems(answer, input);
    ConversationGrows(ms[1..], group, keep);
    assert (ms + group)[1..] == ms[1..] + group;
  }

  lemma {:induction false} RefreshedRequest(ms: seq<Message>, systemText: string, keep: nat)
    requires Request(ms, keep)
    ensures Refreshed(ms, systemText) == [System(systemText)] + ms[1..] && Request(Refreshed(ms, systemText), keep)
  {
    hide Conversation;
    SplitRequest(ms, keep);
    assert ([System(systemText)] + ms[1..])[1..] == ms[1..];
  }

  lemma {:induction false} AfterCompressionIsRequest(ms: seq<Message>, keep: nat, input: StepInput)
    requires Request(ms, keep)
    ensures Request(AfterCompression(ms, keep, input), keep)
    ensures !input.overThreshold ==> AfterCompression(ms, keep, input)[1..] == ms[1..]
  {
    hide Request, Compress;
    RefreshedRequest(ms, input.systemText, keep);
    CompressKeepsRequest(Refreshed(ms, input.systemText), keep, input.summary);
  }

  lemma {:induction false} OpeningIsRequest(a: Agent, t: TurnInput, keep: nat)
    requires Conversation(a.history, keep)
    ensures Request(Opening(a, t), keep) && Opening(a, t)[1..] == a.history + [User(t.message)]
  {
    var user := [User(t.message)];
    assert Items(user) by { assert user[1..] == []; }
    hide Conversation, Items;
    ConversationGrows(a.history, user, keep);
    assert Opening(a, t)[1..] == a.history + user;
  }

  // ---- one turn ----

  lemma {:induction false} FinalizedIsSound(c: Config, a: Agent, ms: seq<Message>, text: string, ending: EndingFault)
    requires Sound(c, a) && Request(ms, c.keepRecent)
    ensures Sound(c, Finalized(c, a, ms, text, ending).agent)
  {
    var answer := [Assistant(Some(text), [])];
    assert Items(answer) by { assert answer[1..] == []; }
    hide Conversation, Items;
    ConversationGrows(ms[1..], answer, c.keepRecent);
  }

  lemma {:induction false} AskedIsSound(c: Config, a: Agent, ms: seq<Message>)
    requires Sound(c, a) && Request(ms, c.keepRecent)
    ensures Sound(c, Asked(a, ms))
  {
    hide Conversation, Request;
  }

  lemma {:induction false} NextIsSound(c: Config, a: Agent, ms: seq<Message>, input: StepInput)
    requires Sound(c, a) && Request(ms, c.keepRecent) && input.llm.Answered?
    ensures var next := AfterCompression(AfterTools(ms, input.llm, input), c.keepRecent, input);
      Request(next, c.keepRecent) && Sound(c, Saved(c, a, next[1..]))
  {
    hide Conversation, AfterTools, AfterCompression;
    AfterToolsIsRequest(ms, input.llm, input, c.keepRecent);
    AfterCompressionIsRequest(AfterTools(ms, input.llm, input), c.keepRecent, input);
  }

  lemma {:induction false} FailedTurnIsSound(
    c: Config, a: Agent, ms: seq<Message>, reason: FailureReason, t: TurnInput)
    requires Sound(c, a) && Request(ms, c.keepRecent)
    ensures Sound(c, FailedTurn(c, a, ms, reason, t).agent)
  {
    hide Conversation, Request, Finalized;
    FinalizedIsSound(c, a.(events := a.events + [TaskFailed(reason)]), ms, t.finish(c.failureText(reason)), t.ending);
  }

  lemma {:induction false} AnnouncedIsSound(c: Config, a: Agent)
    requires Sound(c, a)
    ensures Sound(c, Announced(a))
  {
    hide Conversation, Request;
  }

  lemma {:induction false} WorkedIsSound(c: Config, a: Agent, ms: seq<Message>, input: StepInput)
    requires Sound(c, a) && Request(ms, c.keepRecent) && input.llm.Answered?
    ensures Sound(c, Worked(c, a, ms, input))
  {
    hide Conversation, Request, AfterTools, Refreshed, NonSystem, Charged, Spend;
    AskedIsSound(c, a, ms);
  }

  lemma {:induction false} AskedKeepsBudget(a: Agent, ms: seq<Message>)
    ensures Asked(a, ms).budget == a.budget
  {
  }

  lemma {:induction false} SavedKeepsBudget(c: Config, a: Agent, ms: seq<Message>)
    ensures Saved(c, a, ms).budget == a.budget
  {
  }

  lemma {:induction false} LoopIsSound(c: Config, a: Agent, ms: seq<Message>, t: TurnInput, n: nat)
    requires Sound(c, a) && Request(ms, c.keepRecent)
    ensures Sound(c, RunLoop(c, a, ms, t, n).agent)
    decreases if IterationsLeft(a.budget) > 0 then IterationsLeft(a.budget) else 0
  {
    hide Conversation, AfterTools, AfterCompression, Finalized, Asked, Announced, Saved, Spend, IsExhausted;
    hide FailedTurn, RequestsFor;
    NotExhausted(a.budget.policy, a.budget.state);
    if IsExhausted(a.budget.policy, a.budget.state) {
      FailedTurnIsSound(c, a, ms, BudgetExhausted, t);
    } else if !t.steps(n).stopped {
      var input, asked := t.steps(n), Asked(a, ms);
      AskedIsSound(c, a, ms);
      match input.llm
      case Cancelled =>
      case TimedOut => FailedTurnIsSound(c, asked, ms, LlmTimeout, t);
      case Failed(detail) => FailedTurnIsSound(c, asked, ms, LlmError(detail), t);
      case Answered(content, calls, usage) =>
        var charged := Charged(asked, usage);
        AskedKeepsBudget(a, ms);
        if input.interruption.Undisturbed? && calls == [] {
          FinalizedIsSound(c, charged, ms, t.finish(GetOr(content, "")), t.ending);
        } else if !input.interruption.BeforeCompression? && calls != [] {
          var worked := Worked(c, a, ms, input);
          WorkedIsSound(c, a, ms, input);
          NextIsSound(c, worked, ms, input);
          var next := AfterCompression(AfterTools(ms, input.llm, input), c.keepRecent, input);
          SavedKeepsBudget(c, worked, next[1..]);
          if input.interruption.Undisturbed? { LoopIsSound(c, Saved(c, worked, next[1..]), next, t, n + 1); }
        }
    } else {
      AnnouncedIsSound(c, a);
    }
  }

  /** A checkpoint to resume from was saved by some sound agent. */
  ghost predicate Resumable(c: Config, resume: Option<Checkpoint>) {
    resume.Some? ==> Conversation(resume.value.messages, c.keepRecent)
  }

  /** Whatever the model, the tools and the clock do, a turn keeps the grammar and sends only requests that obey it. */
  lemma {:induction false} TurnIsSound(c: Config, a: Agent, t: TurnInput)
    requires Sound(c, a) && Resumable(c, t.resume)
    ensures Sound(c, Turn(c, a, t).agent)
  {
    hide Conversation, RunLoop, StartBudget, Refreshed;
    var begun := Begun(c, a, t);
    if !Mismatched(a.sessionId, t.resume) {
      var restored := Restored(begun, t.resume);
      OpeningIsRequest(restored, t, c.keepRecent);
      RefreshedRequest(Opening(restored, t), t.systemText, c.keepRecent);
      LoopIsSound(c, Opened(c, begun, t), Refreshed(Opening(restored, t), t.systemText), t, 0);
    }
  }

  // ---- how many calls ----

  function NonNegative(n: int): nat {
    if n > 0 then n else 0
  }

  /** The budget is not used up, and the model answers with tool calls that run to their end. */
  predicate GoesOn(a: Agent, t: TurnInput, n: nat) {
    && !IsExhausted(a.budget.policy, a.budget.state) && !t.steps(n).stopped
    && t.steps(n).interruption.Undisturbed? && t.steps(n).llm.Answered? && t.steps(n).llm.calls != []
  }

  lemma {:induction false} AtMostOneRequest(c: Config, tools: seq<Message>, input: StepInput)
    ensures |RequestsFor(c, tools, input)| <= 1
  {
  }

  lemma {:induction false} SavedKeepsCounts(c: Config, a: Agent, ms: seq<Message>)
    ensures var r := Saved(c, a, ms);
      && r.budget == a.budget && r.step == a.step && r.events == a.events && r.sent == a.sent
      && r.summaryRequests == a.summaryRequests
  {
  }

  ghost predicate SameCounts(a: Agent, r: Agent) {
    r.budget == a.budget && r.sent == a.sent && r.summaryRequests == a.summaryRequests
  }

  lemma {:induction false} FinalizedKeepsCounts(
    c: Config, a: Agent, ms: seq<Message>, text: string, ending: EndingFault)
    requires ms != []
    ensures SameCounts(a, Finalized(c, a, ms, text, ending).agent)
  {
  }

  lemma {:induction false} FailedKeepsCounts(
    c: Config, a: Agent, ms: seq<Message>, reason: FailureReason, t: TurnInput)
    requires ms != []
    ensures SameCounts(a, FailedTurn(c, a, ms, reason, t).agent)
  {
    hide Finalized;
    FinalizedKeepsCounts(
      c, a.(events := a.events + [TaskFailed(reason)]), ms, t.finish(c.failureText(reason)), t.ending);
  }

  /**
   * The iterations the budget counts during a loop are the answered calls: all calls but a failed last one. Each
   * asks for at most one summary.
   */
  lemma {:induction false} LoopCounts(c: Config, a: Agent, ms: seq<Message>, t: TurnInput, n: nat)
    requires ms != []
    ensures var r := RunLoop(c, a, ms, t, n).agent;
      var (calls, iterations) := (|r.sent| - |a.sent|, r.budget.state.iterationsUsed - a.budget.state.iterationsUsed);
      && 0 <= calls <= NonNegative(IterationsLeft(a.budget))
      && iterations <= calls <= iterations + 1
      && 0 <= |r.summaryRequests| - |a.summaryRequests| <= iterations
    decreases NonNegative(IterationsLeft(a.budget))
  {
    hide AfterTools, AfterCompression, Spend, IsExhausted, RequestsFor, Finalized, FailedTurn, Worked, Saved;
    NotExhausted(a.budget.policy, a.budget.state);
    var input, asked := t.steps(n), Asked(a, ms);
    if input.llm.Answered? { AtMostOneRequest(c, AfterTools(ms, input.llm, input), input); }
    if IsExhausted(a.budget.policy, a.budget.state) {
      FailedKeepsCounts(c, a, ms, BudgetExhausted, t);
    } else if GoesOn(a, t, n) {
      var worked := Worked(c, a, ms, input);
      var next := AfterCompression(AfterTools(ms, input.llm, input), c.keepRecent, input);
      SavedKeepsCounts(c, worked, next[1..]);
      LoopCounts(c, Saved(c, worked, next[1..]), next, t, n + 1);
    } else if input.llm.Answered? {
      FinalizedKeepsCounts(
        c, Charged(asked, input.llm.usage), ms, t.finish(GetOr(input.llm.content, "")), t.ending);
    } else if input.llm.TimedOut? {
      FailedKeepsCounts(c, asked, ms, LlmTimeout, t);
    } else if input.llm.Failed? {
      FailedKeepsCounts(c, asked, ms, LlmError(input.llm.detail), t);
    }
  }

  /** Both ways of starting a turn leave no iteration used. */
  lemma {:induction false} StartsAtZero(b: BudgetRecord, policy: Policy, now: real)
    ensures StartBudget(b, policy, now).state.iterationsUsed == 0 && StartBudget(b, policy, now).policy == policy
  {
  }

  /** The loop calls the model at most `max_iterations` times a turn, and with its requests for summaries twice that. */
  lemma {:induction false} CallsAreBounded(c: Config, a: Agent, t: TurnInput)
    ensures var r := Turn(c, a, t).agent;
      var (calls, summaries) := (|r.sent| - |a.sent|, |r.summaryRequests| - |a.summaryRequests|);
      && 0 <= summaries <= calls <= NonNegative(GetOr(t.policy, c.defaultPolicy).maxIterations)
      && calls + summaries <= 2 * NonNegative(GetOr(t.policy, c.defaultPolicy).maxIterations)
  {
    hide RunLoop, StartBudget, Opening;
    var begun := Begun(c, a, t);
    StartsAtZero(a.budget, GetOr(t.policy, c.defaultPolicy), t.now);
    if !Mismatched(a.sessionId, t.resume) {
      var ready := Opened(c, begun, t);
      LoopCounts(c, ready, Refreshed(Opening(Restored(begun, t.resume), t), t.systemText), t, 0);
    }
  }

  // ---- budgets carried over from outside ----

  /** A turn that starts with an exhausted budget sends nothing and leaves the budget exhausted as it is. */
  lemma {:induction false} ExhaustedStartSendsNothing(c: Config, a: Agent, t: TurnInput)
    requires var b := StartBudget(a.budget, GetOr(t.policy, c.defaultPolicy), t.now); IsExhausted(b.policy, b.state)
    ensures var r := Turn(c, a, t).agent;
      && r.budget == StartBudget(a.budget, GetOr(t.policy, c.defaultPolicy), t.now)
      && r.sent == a.sent && r.summaryRequests == a.summaryRequests
  {
    hide StartBudget, Opening, NonSystem, IsExhausted, FailedTurn;
    var begun := Begun(c, a, t);
    if !Mismatched(a.sessionId, t.resume) {
      var ms := Refreshed(Opening(Restored(begun, t.resume), t), t.systemText);
      FailedKeepsCounts(c, Opened(c, begun, t), ms, BudgetExhausted, t);
    }
  }

  /** Usage was put into the budget before its first iteration, so that a turn carries it over. */
  predicate Seeded(b: BudgetRecord) {
    && b.state.iterationsUsed == 0
    && (b.state.totalTokensUsed > 0 || b.state.totalCostUsd > 0.0 || b.state.wallTimeElapsed > 0.0)
  }

  /** The same agent with another wall time in its budget. */
  function WithWallTime(a: Agent, elapsed: real): Agent {
    a.(budget := a.budget.(state := a.budget.state.(wallTimeElapsed := elapsed)))
  }

  lemma {:induction false} CallOverwritesWallTime(a: Agent, ms: seq<Message>, elapsed: real, usage: Usage)
    ensures Charged(Asked(WithWallTime(a, elapsed), ms), usage) == Charged(Asked(a, ms), usage)
    ensures Charged(Asked(a, ms), usage).budget.state.wallTimeElapsed == usage.now - a.budget.startTime
  {
    hide ScanAll, Checks;
  }

  lemma {:induction false} SameWork(c: Config, a: Agent, elapsed: real, ms: seq<Message>, input: StepInput)
    requires input.llm.Answered?
    ensures Worked(c, WithWallTime(a, elapsed), ms, input) == Worked(c, a, ms, input)
  {
    hide Charged, Asked, RequestsFor, AfterTools;
    CallOverwritesWallTime(a, ms, elapsed, input.llm.usage);
  }

  /** From its first answered call on, a loop does not depend on the wall time it started with. */
  lemma {:induction false} LoopForgetsWallTime(
    c: Config, a: Agent, elapsed: real, ms: seq<Message>, t: TurnInput)
    requires ms != [] && !t.steps(0).stopped && t.steps(0).llm.Answered?
    requires !IsExhausted(a.budget.policy, a.budget.state)
    requires !IsExhausted(a.budget.policy, WithWallTime(a, elapsed).budget.state)
    ensures RunLoop(c, WithWallTime(a, elapsed), ms, t, 0) == RunLoop(c, a, ms, t, 0)
  {
    hide Charged, Asked, AfterTools, AfterCompression, Finalized, RequestsFor, IsExhausted;
    CallOverwritesWallTime(a, ms, elapsed, t.steps(0).llm.usage);
    if t.steps(0).llm.calls != [] { SameWork(c, a, elapsed, ms, t.steps(0)); }
  }

  lemma {:induction false} SameOpening(c: Config, a: Agent, elapsed: real, t: TurnInput)
    ensures Opening(Restored(WithWallTime(a, elapsed), t.resume), t) == Opening(Restored(a, t.resume), t)
    ensures Opened(c, WithWallTime(a, elapsed), t) == WithWallTime(Opened(c, a, t), elapsed)
  {
  }

  /**
   * A seeded wall time only decides whether the first call is made: two turns that carry over budgets which differ in
   * it alone, neither of them exhausted, are the same once the first call is answered.
   */
  lemma {:induction false} SeededWallTimeIsForgotten(c: Config, a: Agent, elapsed: real, t: TurnInput)
    requires Seeded(a.budget) && Seeded(WithWallTime(a, elapsed).budget)
    requires !Mismatched(a.sessionId, t.resume) && t.opening.Opens?
    requires !t.steps(0).stopped && t.steps(0).llm.Answered?
    requires !IsExhausted(GetOr(t.policy, c.defaultPolicy), a.budget.state)
    requires !IsExhausted(GetOr(t.policy, c.defaultPolicy), WithWallTime(a, elapsed).budget.state)
    ensures Turn(c, WithWallTime(a, elapsed), t) == Turn(c, a, t)
  {
    hide RunLoop, IsExhausted, NonSystem, Opening;
    var begun := Begun(c, a, t);
    assert Begun(c, WithWallTime(a, elapsed), t) == WithWallTime(begun, elapsed);
    SameOpening(c, begun, elapsed, t);
    LoopForgetsWallTime(
      c, Opened(c, begun, t), elapsed, Refreshed(Opening(Restored(begun, t.resume), t), t.systemText), t);
  }

  // ---- which events ----

  /** One progress event per call, numbered on from `step`. */
  ghost predicate Steps(es: seq<Event>, step: nat) {
    forall i :: 0 <= i < |es| ==> es[i] == TaskProgress(step + i + 1)
  }

  /** What a turn reports when it is over: at most one failure, then one completion with the iterations used. */
  ghost predicate Closing(es: seq<Event>, iterations: int) {
    || es == [TaskCompleted(iterations)]
    || (|es| == 2 && es[0].TaskFailed? && es[1] == TaskCompleted(iterations))
  }

  /** A turn that raises while it is finished has reported only the beginning. */
  ghost predicate BrokenOff(es: seq<Event>, iterations: int) {
    es == [] || Closing(es, iterations) || (|es| == 1 && es[0].TaskFailed?)
  }

  /**
   * The events of a loop that announced `n` steps from `step` on and made `calls` calls: one progress event per
   * step, then the closing events; every step makes its call, save a last one that an exception stops before it.
   */
  ghost predicate LoopEvents(es: seq<Event>, step: nat, n: int, calls: int, r: TurnEnd) {
    && 0 <= n <= |es| && Steps(es[..n], step) && r.agent.step == step + n
    && if r.outcome.Returned? then calls == n && Closing(es[n..], r.agent.budget.state.iterationsUsed)
       else n - 1 <= calls <= n && BrokenOff(es[n..], r.agent.budget.state.iterationsUsed)
  }

  lemma {:induction false} MoreEvents(step: nat, rest: seq<Event>, n: int, calls: int, r: TurnEnd)
    requires LoopEvents(rest, step + 1, n, calls, r)
    ensures LoopEvents([TaskProgress(step + 1)] + rest, step, n + 1, calls + 1, r)
  {
    hide Closing, BrokenOff;
    var es := [TaskProgress(step + 1)] + rest;
    assert es[..n + 1] == [TaskProgress(step + 1)] + rest[..n] && es[n + 1..] == rest[n..];
    forall i | 0 <= i < n + 1 ensures es[i] == TaskProgress(step + i + 1) {
      if i > 0 { assert es[i] == rest[..n][i - 1]; }
    }
  }

  /** The closing events of a finished turn. */
  lemma {:induction false} FinalizedCloses(c: Config, a: Agent, ms: seq<Message>, text: string, ending: EndingFault)
    returns (es: seq<Event>)
    requires ms != []
    ensures var r := Finalized(c, a, ms, text, ending);
      && r.agent.events == a.events + es && r.agent == a.(events := r.agent.events, history := r.agent.history,
           transcript := r.agent.transcript, checkpoint := r.agent.checkpoint)
      && (es == [] || es == [TaskCompleted(a.budget.state.iterationsUsed)])
      && (r.outcome.Returned? ==> es != [])
  {
    es := if ending.Finishes? || ending.FailsBeforeClearing?
      then [TaskCompleted(a.budget.state.iterationsUsed)] else [];
  }

  lemma {:induction false} OnlyClosing(es: seq<Event>, step: nat, r: TurnEnd)
    requires r.agent.step == step
    requires if r.outcome.Returned? then Closing(es, r.agent.budget.state.iterationsUsed)
      else BrokenOff(es, r.agent.budget.state.iterationsUsed)
    ensures LoopEvents(es, step, 0, 0, r)
  {
    hide Closing, BrokenOff;
    assert es[0..] == es;
  }

  /** A step that an exception ends. */
  lemma {:induction false} StepOnly(step: nat, calls: int, r: TurnEnd)
    requires r.outcome.Raised? && r.agent.step == step + 1 && 0 <= calls <= 1
    ensures LoopEvents([TaskProgress(step + 1)], step, 1, calls, r)
  {
    var es := [TaskProgress(step + 1)];
    assert es[..1] == es && es[1..] == [];
  }

  lemma {:induction false} FailureCloses(c: Config, a: Agent, ms: seq<Message>, reason: FailureReason, t: TurnInput)
    returns (es: seq<Event>)
    requires ms != []
    ensures var r := FailedTurn(c, a, ms, reason, t);
      && r.agent.events == a.events + es && r.agent.sent == a.sent && LoopEvents(es, a.step, 0, 0, r)
  {
    hide Finalized, LoopEvents;
    var failed := a.(events := a.events + [TaskFailed(reason)]);
    var rest := FinalizedCloses(c, failed, ms, t.finish(c.failureText(reason)), t.ending);
    es := [TaskFailed(reason)] + rest;
    assert a.events + es == failed.events + rest;
    OnlyClosing(es, a.step, FailedTurn(c, a, ms, reason, t));
  }

  lemma {:induction false} AnswerCloses(c: Config, a: Agent, ms: seq<Message>, text: string, ending: EndingFault)
    returns (es: seq<Event>)
    requires ms != []
    ensures var r := Finalized(c, a, ms, text, ending);
      && r.agent.events == a.events + es && r.agent.sent == a.sent && LoopEvents(es, a.step, 0, 0, r)
  {
    hide Finalized, LoopEvents;
    es := FinalizedCloses(c, a, ms, text, ending);
    OnlyClosing(es, a.step, Finalized(c, a, ms, text, ending));
  }

  /** The events a loop emits. */
  lemma {:induction false} LoopProtocol(c: Config, a: Agent, ms: seq<Message>, t: TurnInput, n: nat)
    returns (es: seq<Event>, steps: int)
    requires ms != []
    ensures var r := RunLoop(c, a, ms, t, n);
      r.agent.events == a.events + es && LoopEvents(es, a.step, steps, |r.agent.sent| - |a.sent|, r)
    decreases NonNegative(IterationsLeft(a.budget))
  {
    hide AfterTools, AfterCompression, Spend, IsExhausted, Finalized, LoopEvents, FailedTurn, Saved;
    NotExhausted(a.budget.policy, a.budget.state);
    var r := RunLoop(c, a, ms, t, n);
    if IsExhausted(a.budget.policy, a.budget.state) {
      es := FailureCloses(c, a, ms, BudgetExhausted, t);
      steps := 0;
    } else {
      var input, asked := t.steps(n), Asked(a, ms);
      var progress := [TaskProgress(a.step + 1)];
      steps := 1;
      if input.stopped {
        es := progress;
        StepOnly(a.step, 0, r);
      } else {
        match input.llm
        case Cancelled =>
          es := progress;
          StepOnly(a.step, 1, r);
        case TimedOut =>
          var rest := FailureCloses(c, asked, ms, LlmTimeout, t);
          es := progress + rest;
          MoreEvents(a.step, rest, 0, 0, r);
        case Failed(detail) =>
          var rest := FailureCloses(c, asked, ms, LlmError(detail), t);
          es := progress + rest;
          MoreEvents(a.step, rest, 0, 0, r);
        case Answered(content, calls, usage) =>
          var charged := Charged(asked, usage);
          if !input.interruption.Undisturbed? {
            es := progress;
            StepOnly(a.step, 1, r);
          } else if calls == [] {
            var rest := AnswerCloses(c, charged, ms, t.finish(GetOr(content, "")), t.ending);
            es := progress + rest;
            MoreEvents(a.step, rest, 0, 0, r);
          } else {
            var next := AfterCompression(AfterTools(ms, input.llm, input), c.keepRecent, input);
            var worked := Worked(c, a, ms, input);
            var saved := Saved(c, worked, next[1..]);
            SavedKeepsCounts(c, worked, next[1..]);
            var rest, more := LoopProtocol(c, saved, next, t, n + 1);
            es, steps := progress + rest, more + 1;
            MoreEvents(a.step, rest, more, |r.agent.sent| - |saved.sent|, r);
          }
      }
    }
  }

  /**
   * A started turn reports its steps one by one, and when it returns one completion after at most one failure; one
   * that raises has reported a beginning of that.
   */
  lemma {:induction false} TurnProtocolHolds(c: Config, a: Agent, t: TurnInput) returns (es: seq<Event>, steps: int)
    requires !Mismatched(a.sessionId, t.resume)
    ensures var r := Turn(c, a, t);
      && r.agent.events == a.events + [TaskStarted(t.resume.Some?)] + es
      && LoopEvents(es, Restored(a, t.resume).step, steps, |r.agent.sent| - |a.sent|, r)
  {
    hide RunLoop, LoopEvents, Opening, StartBudget;
    var begun := Begun(c, a, t);
    if t.opening.Opens? {
      es, steps := LoopProtocol(
        c, Opened(c, begun, t), Refreshed(Opening(Restored(begun, t.resume), t), t.systemText), t, 0);
    } else {
      es, steps := [], 0;
      OnlyClosing([], Restored(a, t.resume).step, Turn(c, a, t));
    }
  }

  // ---- how a turn ends ----

  /** A turn that returns has answered, stored the transcript and dropped the checkpoint. */
  ghost predicate Concluded(c: Config, a: Agent, text: string) {
    && a.history != [] && a.history[|a.history| - 1] == Assistant(Some(text), [])
    && (KeepsTranscripts(c, a) ==> a.transcript == Some(a.history))
    && (KeepsCheckpoints(c, a) ==> a.checkpoint == None)
  }

  /** The stored checkpoint is the session's own. */
  predicate SavedFor(c: Config, a: Agent) {
    KeepsCheckpoints(c, a) ==> a.checkpoint.Some? && a.checkpoint.value.sessionId == a.sessionId.value
  }

  /** A loop that raises keeps its checkpoint; unless it was being finished, history and transcript are the old ones. */
  ghost predicate Settled(c: Config, a: Agent, t: TurnInput, r: TurnEnd) {
    && r.agent.sessionId == a.sessionId
    && (r.outcome.Returned? ==> Concluded(c, r.agent, r.outcome.text))
    && (r.outcome.Raised? ==>
        && (SavedFor(c, a) ==> SavedFor(c, r.agent))
        && (t.ending.Finishes? ==> r.agent.history == a.history && r.agent.transcript == a.transcript))
  }

  lemma {:induction false} FinalizedSettles(
    c: Config, was: Agent, a: Agent, ms: seq<Message>, text: string, t: TurnInput)
    requires ms != [] && a.sessionId == was.sessionId && (SavedFor(c, was) ==> SavedFor(c, a))
    ensures Settled(c, was, t, Finalized(c, a, ms, text, t.ending))
  {
  }

  lemma {:induction false} FailureSettles(
    c: Config, was: Agent, a: Agent, ms: seq<Message>, reason: FailureReason, t: TurnInput)
    requires ms != [] && a.sessionId == was.sessionId && (SavedFor(c, was) ==> SavedFor(c, a))
    ensures Settled(c, was, t, FailedTurn(c, a, ms, reason, t))
  {
    hide Finalized;
    FinalizedSettles(
      c, was, a.(events := a.events + [TaskFailed(reason)]), ms, t.finish(c.failureText(reason)), t);
  }

  lemma {:induction false} LoopSettles(c: Config, a: Agent, ms: seq<Message>, t: TurnInput, n: nat)
    requires ms != []
    ensures Settled(c, a, t, RunLoop(c, a, ms, t, n))
    decreases NonNegative(IterationsLeft(a.budget))
  {
    hide AfterTools, AfterCompression, Spend, IsExhausted, Finalized;
    NotExhausted(a.budget.policy, a.budget.state);
    var input, asked := t.steps(n), Asked(a, ms);
    if IsExhausted(a.budget.policy, a.budget.state) {
      FailureSettles(c, a, a, ms, BudgetExhausted, t);
    } else if GoesOn(a, t, n) {
      var worked := Worked(c, a, ms, input);
      var next := AfterCompression(AfterTools(ms, input.llm, input), c.keepRecent, input);
      SavedKeepsBudget(c, worked, next[1..]);
      LoopSettles(c, Saved(c, worked, next[1..]), next, t, n + 1);
    } else if input.llm.Answered? {
      FinalizedSettles(c, a, Charged(asked, input.llm.usage), ms, t.finish(GetOr(input.llm.content, "")), t);
    } else if input.llm.TimedOut? {
      FailureSettles(c, a, asked, ms, LlmTimeout, t);
    } else if input.llm.Failed? {
      FailureSettles(c, a, asked, ms, LlmError(input.llm.detail), t);
    }
  }

  /**
   * Every return concludes the turn. A turn that raises behind its first save leaves a checkpoint the same session
   * can resume from.
   */
  lemma {:induction false} TurnSettles(c: Config, a: Agent, t: TurnInput)
    requires !Mismatched(a.sessionId, t.resume)
    ensures var r := Turn(c, a, t);
      && Settled(c, Restored(a, t.resume), t, r)
      && (r.outcome.Raised? && !t.opening.FailsBeforeSaving? ==>
            SavedFor(c, r.agent)
            && !Mismatched(r.agent.sessionId, if KeepsCheckpoints(c, r.agent) then r.agent.checkpoint else None))
  {
    hide RunLoop, Opening, StartBudget;
    var begun := Begun(c, a, t);
    if t.opening.Opens? {
      LoopSettles(c, Opened(c, begun, t), Refreshed(Opening(Restored(begun, t.resume), t), t.systemText), t, 0);
    }
  }

  // ---- exceptions while a turn is finished ----

  /** The same turn with nothing raised while it is finished. */
  function Calm(t: TurnInput): TurnInput {
    t.(ending := Finishes)
  }

  /** The answer reaches the transcript store. */
  predicate StoresAnswer(ending: EndingFault) {
    ending.Finishes? || ending.FailsBeforeCompletion? || ending.FailsBeforeClearing?
  }

  /**
   * How a turn `r` ends against the undisturbed one: they are the same if that one raises or nothing is raised at the
   * end. Otherwise `r` raises and keeps a checkpoint that lacks the answer, which is stored or not.
   */
  ghost predicate EndsLike(was: Agent, t: TurnInput, calm: TurnEnd, r: TurnEnd) {
    && r.agent.sessionId == calm.agent.sessionId == was.sessionId
    && if calm.outcome.Raised? then
         r == calm && r.agent.transcript == was.transcript && r.agent.checkpoint.Some?
       else
         && (r.outcome.Raised? <==> !t.ending.Finishes?)
         && (t.ending.Finishes? ==> r == calm && r.agent.checkpoint == None)
         && r.agent.transcript == (if StoresAnswer(t.ending) then Some(calm.agent.history) else was.transcript)
         && (r.outcome.Raised? ==>
              && r.agent.checkpoint.Some?
              && calm.agent.history
                == r.agent.checkpoint.value.messages + [Assistant(Some(calm.outcome.text), [])])
  }

  ghost predicate SavedAs(c: Config, a: Agent, ms: seq<Message>) {
    && ms != [] && KeepsCheckpoints(c, a) && KeepsTranscripts(c, a)
    && a.checkpoint.Some? && a.checkpoint.value.messages == ms[1..]
  }

  lemma {:induction false} FinalizedEndsLike(
    c: Config, was: Agent, a: Agent, ms: seq<Message>, text: string, t: TurnInput)
    requires SavedAs(c, a, ms) && a.transcript == was.transcript && a.sessionId == was.sessionId
    ensures EndsLike(was, t, Finalized(c, a, ms, text, Finishes), Finalized(c, a, ms, text, t.ending))
  {
  }

  lemma {:induction false} FailureEndsLike(
    c: Config, was: Agent, a: Agent, ms: seq<Message>, reason: FailureReason, t: TurnInput)
    requires SavedAs(c, a, ms) && a.transcript == was.transcript && a.sessionId == was.sessionId
    ensures EndsLike(was, t, FailedTurn(c, a, ms, reason, Calm(t)), FailedTurn(c, a, ms, reason, t))
  {
    hide Finalized, EndsLike;
    FinalizedEndsLike(
      c, was, a.(events := a.events + [TaskFailed(reason)]), ms, t.finish(c.failureText(reason)), t);
  }

  lemma {:induction false} LoopEndsLike(c: Config, a: Agent, ms: seq<Message>, t: TurnInput, n: nat)
    requires SavedAs(c, a, ms)
    ensures EndsLike(a, t, RunLoop(c, a, ms, Calm(t), n), RunLoop(c, a, ms, t, n))
    decreases NonNegative(IterationsLeft(a.budget))
  {
    hide AfterTools, AfterCompression, Spend, IsExhausted, Finalized, FailedTurn, RequestsFor;
    NotExhausted(a.budget.policy, a.budget.state);
    var input, asked := t.steps(n), Asked(a, ms);
    if IsExhausted(a.budget.policy, a.budget.state) {
      FailureEndsLike(c, a, a, ms, BudgetExhausted, t);
    } else if GoesOn(a, t, n) {
      var worked := Worked(c, a, ms, input);
      var next := AfterCompression(AfterTools(ms, input.llm, input), c.keepRecent, input);
      SavedKeepsBudget(c, worked, next[1..]);
      LoopEndsLike(c, Saved(c, worked, next[1..]), next, t, n + 1);
    } else if input.llm.Answered? {
      FinalizedEndsLike(c, a, Charged(asked, input.llm.usage), ms, t.finish(GetOr(input.llm.content, "")), t);
    } else if input.llm.TimedOut? {
      FailureEndsLike(c, a, asked, ms, LlmTimeout, t);
    } else if input.llm.Failed? {
      FailureEndsLike(c, a, asked, ms, LlmError(input.llm.detail), t);
    }
  }

  lemma {:induction false} OpeningIgnoresEnding(a: Agent, t: TurnInput)
    ensures Opening(a, Calm(t)) == Opening(a, t)
  {
  }

  /** How an exception while a turn is finished changes the turn, for every turn with both stores. */
  lemma {:induction false} TurnEndsLike(c: Config, a: Agent, t: TurnInput)
    requires Sound(c, a) && Resumable(c, t.resume)
    requires !Mismatched(a.sessionId, t.resume) && !t.opening.FailsBeforeSaving?
    requires KeepsCheckpoints(c, Restored(a, t.resume)) && KeepsTranscripts(c, Restored(a, t.resume))
    ensures EndsLike(Restored(a, t.resume), t, Turn(c, a, Calm(t)), Turn(c, a, t))
  {
    hide RunLoop, StartBudget, Conversation, Opening, Refreshed;
    var begun := Begun(c, a, t);
    var restored := Restored(begun, t.resume);
    OpeningIsRequest(restored, t, c.keepRecent);
    RefreshedRequest(Opening(restored, t), t.systemText, c.keepRecent);
    OpeningIgnoresEnding(restored, t);
    if t.opening.Opens? {
      LoopEndsLike(c, Opened(c, begun, t), Refreshed(Opening(restored, t), t.systemText), t, 0);
    }
  }

  /**
   * What a process that starts afterwards goes on from. If the turn comes to an answer, its history lacks exactly that
   * answer if and only if something was raised while the turn was finished; the answer is in the transcript store all
   * the same if that was behind storing it.
   */
  lemma {:induction false} RestartAfterRaise(c: Config, a: Agent, t: TurnInput, now: real)
    requires Sound(c, a) && Resumable(c, t.resume)
    requires !Mismatched(a.sessionId, t.resume) && !t.opening.FailsBeforeSaving?
    requires KeepsCheckpoints(c, Restored(a, t.resume)) && KeepsTranscripts(c, Restored(a, t.resume))
    ensures var (calm, r) := (Turn(c, a, Calm(t)), Turn(c, a, t));
      var next := Loaded(c, r.agent.sessionId, r.agent.checkpoint, r.agent.transcript, now);
      if calm.outcome.Raised? then
        r == calm && r.agent.transcript == a.transcript
        && r.agent.checkpoint.Some? && next.history == r.agent.checkpoint.value.messages
      else
        && (r.outcome.Raised? <==> !t.ending.Finishes?)
        && (next.history == calm.agent.history <==> t.ending.Finishes?)
        && (!t.ending.Finishes? ==>
              next.history + [Assistant(Some(calm.outcome.text), [])] == calm.agent.history)
        && r.agent.transcript == if StoresAnswer(t.ending) then Some(calm.agent.history) else a.transcript
  {
    hide Turn, Sound, Resumable;
    TurnEndsLike(c, a, t);
    var calm, r := Turn(c, a, Calm(t)), Turn(c, a, t);
    var next := Loaded(c, r.agent.sessionId, r.agent.checkpoint, r.agent.transcript, now);
    if r.outcome.Raised? {
      assert next.history == r.agent.checkpoint.value.messages;
    } else {
      assert r.agent.checkpoint == None && next.history == r.agent.transcript.value;
    }
  }

  // ---- a run that loses its answer ----

  /** A question that the model answers at once; the process fails before it clears the checkpoint. */
  const LOST_CONFIG := Config(4, DEFAULT_POLICY, (reason: FailureReason) => "failed",
    (state: Continuity.State, cut: seq<Message>) => "summarise", true, true)
  const LOST_AGENT := Loaded(LOST_CONFIG, Some("session"), None, None, 0.0)
  const LOST_TURN := TurnInput("which?", None, None, 0.0, "system", Opens,
    (n: nat) => StepInput(false, Answered(Some("this one"), [], Usage(1, 0.0, 0.0)), (k: nat) => "", Undisturbed,
      "system", false, None),
    (text: string) => text, FailsBeforeClearing)

  lemma {:induction false} LostAgentIsSound()
    ensures Sound(LOST_CONFIG, LOST_AGENT) && !Mismatched(LOST_AGENT.sessionId, None)
    ensures KeepsCheckpoints(LOST_CONFIG, LOST_AGENT) && KeepsTranscripts(LOST_CONFIG, LOST_AGENT)
    ensures LOST_AGENT.history == [] && LOST_AGENT.budget == BudgetRecord(DEFAULT_POLICY, FRESH, 0.0)
  {
  }

  lemma {:induction false} LostMessages()
    ensures var a := Restored(Begun(LOST_CONFIG, LOST_AGENT, LOST_TURN), None);
      && Opening(a, LOST_TURN)[1..] == [User("which?")]
      && Refreshed(Opening(a, LOST_TURN), "system") == [System("system"), User("which?")]
  {
    hide StartBudget;
    var user := [User("which?")];
    var opening := [System("system")] + user;
    assert Opening(Restored(Begun(LOST_CONFIG, LOST_AGENT, LOST_TURN), None), LOST_TURN) == opening;
    assert opening[1..] == user && user[1..] == [];
    assert NonSystem(user) == user && NonSystem(opening) == user;
  }

  lemma {:induction false} LostOpening()
    ensures var ready := Opened(LOST_CONFIG, Begun(LOST_CONFIG, LOST_AGENT, LOST_TURN), LOST_TURN);
      && ready.budget == BudgetRecord(DEFAULT_POLICY, FRESH, 0.0) && ready.sessionId == Some("session")
      && ready.checkpoint == Some(Checkpoint("session", 0, [User("which?")]))
  {
    LostMessages();
    LostAgentIsSound();
    hide Opening;
  }

  /** The model's first answer, without tool calls, ends the loop. */
  lemma {:induction false} AnsweredAtOnce(c: Config, a: Agent, ms: seq<Message>, t: TurnInput)
    requires ms != [] && !IsExhausted(a.budget.policy, a.budget.state)
    requires var input := t.steps(0);
      !input.stopped && input.interruption.Undisturbed? && input.llm.Answered? && input.llm.calls == []
    ensures var input := t.steps(0);
      RunLoop(c, a, ms, t, 0)
        == Finalized(c, Charged(Asked(a, ms), input.llm.usage), ms, t.finish(GetOr(input.llm.content, "")), t.ending)
  {
    hide Finalized, Spend, IsExhausted;
  }

  lemma {:induction false} LostAnswerWitness()
    ensures Sound(LOST_CONFIG, LOST_AGENT)
    ensures var r := Turn(LOST_CONFIG, LOST_AGENT, LOST_TURN).agent;
      && r.transcript == Some([User("which?"), Assistant(Some("this one"), [])])
      && Loaded(LOST_CONFIG, r.sessionId, r.checkpoint, r.transcript, 1.0).history == [User("which?")]
  {
    LostAgentIsSound();
    LostMessages();
    LostOpening();
    hide Sound, Opened, Begun, RunLoop, Refreshed, LOST_AGENT, Spend, Opening;
    var ready := Opened(LOST_CONFIG, Begun(LOST_CONFIG, LOST_AGENT, LOST_TURN), LOST_TURN);
    var ms := [System("system"), User("which?")];
    AnsweredAtOnce(LOST_CONFIG, ready, ms, LOST_TURN);
    assert Turn(LOST_CONFIG, LOST_AGENT, LOST_TURN) == RunLoop(LOST_CONFIG, ready, ms, LOST_TURN, 0);
    assert ms[1..] == [User("which?")];
    assert ms[1..] + [Assistant(Some("this one"), [])] == [User("which?"), Assistant(Some("this one"), [])];
  }

  // ---- what is lost ----

  ghost predicate NeverFull(t: TurnInput) {
    forall n: nat :: !t.steps(n).overThreshold
  }

  lemma {:induction false} LoopKeepsFront(c: Config, a: Agent, ms: seq<Message>, t: TurnInput, n: nat)
    requires Request(ms, c.keepRecent) && NeverFull(t)
    requires RunLoop(c, a, ms, t, n).outcome.Returned?
    ensures ms[1..] <= RunLoop(c, a, ms, t, n).agent.history
    decreases NonNegative(IterationsLeft(a.budget))
  {
    hide Conversation, AfterTools, AfterCompression, Spend, IsExhausted;
    NotExhausted(a.budget.policy, a.budget.state);
    if GoesOn(a, t, n) {
      var input := t.steps(n);
      var worked := Worked(c, a, ms, input);
      var tools := AfterTools(ms, input.llm, input);
      var next := AfterCompression(tools, c.keepRecent, input);
      AfterToolsIsRequest(ms, input.llm, input, c.keepRecent);
      AfterCompressionIsRequest(tools, c.keepRecent, input);
      SavedKeepsBudget(c, worked, next[1..]);
      LoopKeepsFront(c, Saved(c, worked, next[1..]), next, t, n + 1);
    }
  }

  /** Unless the context fills up, a turn only adds to the history: the old one, the request, and what followed. */
  lemma {:induction false} NothingIsLost(c: Config, a: Agent, t: TurnInput)
    requires Sound(c, a) && Resumable(c, t.resume) && NeverFull(t)
    requires Turn(c, a, t).outcome.Returned?
    ensures Restored(a, t.resume).history + [User(t.message)] <= Turn(c, a, t).agent.history
  {
    hide Conversation, RunLoop, StartBudget, Opening, Refreshed, NeverFull;
    var begun := Begun(c, a, t);
    var restored := Restored(begun, t.resume);
    OpeningIsRequest(restored, t, c.keepRecent);
    RefreshedRequest(Opening(restored, t), t.systemText, c.keepRecent);
    LoopKeepsFront(c, Opened(c, begun, t), Refreshed(Opening(restored, t), t.systemText), t, 0);
  }

  // ---- the life of a session ----

  /** A turn, possibly resuming from the stored checkpoint, or a restart of the process. */
  datatype Happening = OneTurn(input: TurnInput, resume: bool) | Restart(now: real)

  function After(c: Config, a: Agent, h: Happening): Agent {
    match h
    case OneTurn(input, resume) => Turn(c, a, input.(resume := if resume then a.checkpoint else None)).agent
    case Restart(now) =>
      Loaded(c, a.sessionId, a.checkpoint, a.transcript, now).(
        events := a.events, sent := a.sent, summaryRequests := a.summaryRequests)
  }

  function Life(c: Config, a: Agent, hs: seq<Happening>): Agent {
    if hs == [] then a else After(c, Life(c, a, hs[..|hs| - 1]), hs[|hs| - 1])
  }

  lemma {:induction false} EmptyIsConversation(keep: nat)
    ensures Conversation([], keep)
  {
  }

  /** Over any sequence of turns, failures, interruptions, resumptions and restarts the grammar is kept. */
  lemma {:induction false} LifeIsSound(c: Config, a: Agent, hs: seq<Happening>)
    requires Sound(c, a)
    ensures Sound(c, Life(c, a, hs))
  {
    if hs != [] {
      hide Conversation, Request, Turn;
      var before, h := Life(c, a, hs[..|hs| - 1]), hs[|hs| - 1];
      LifeIsSound(c, a, hs[..|hs| - 1]);
      match h
      case OneTurn(input, resume) =>
        TurnIsSound(c, before, input.(resume := if resume then before.checkpoint else None));
      case Restart(now) =>
        EmptyIsConversation(c.keepRecent);
    }
  }

  /** Every message list the loop ever sent has exactly one system message, the first. */
  lemma {:induction false} OneSystemMessage(c: Config, a: Agent, hs: seq<Happening>, i: nat)
    requires Sound(c, a) && i < |Life(c, a, hs).sent|
    ensures var ms := Life(c, a, hs).sent[i];
      ms != [] && Systems(ms) == [ms[0]] && Conversation(ms[1..], c.keepRecent)
  {
    LifeIsSound(c, a, hs);
    SplitRequest(Life(c, a, hs).sent[i], c.keepRecent);
  }

  /** Every request for a summary ever sent is a single user message, without a system message. */
  lemma {:induction false} SummaryRequestsAreBare(c: Config, a: Agent, hs: seq<Happening>, i: nat)
    requires Sound(c, a) && i < |Life(c, a, hs).summaryRequests|
    ensures var ms := Life(c, a, hs).summaryRequests[i]; SummaryRequest(ms) && Systems(ms) == []
  {
    LifeIsSound(c, a, hs);
    assert Life(c, a, hs).summaryRequests[i][1..] == [];
  }

  /** No system message is ever stored. */
  lemma {:induction false} NoSystemMessageStored(c: Config, a: Agent, hs: seq<Happening>)
    requires Sound(c, a)
    ensures var r := Life(c, a, hs);
      && NoSystem(r.history)
      && (r.transcript.Some? ==> NoSystem(r.transcript.value))
      && (r.checkpoint.Some? ==> NoSystem(r.checkpoint.value.messages))
  {
    LifeIsSound(c, a, hs);
    hide Conversation, Life;
    var r := Life(c, a, hs);
    ConversationHasNoSystem(r.history, c.keepRecent);
    if r.transcript.Some? { ConversationHasNoSystem(r.transcript.value, c.keepRecent); }
    if r.checkpoint.Some? { ConversationHasNoSystem(r.checkpoint.value.messages, c.keepRecent); }
  }
}
