/**
 * One turn of the agent: call the model, run the tools it asks for, compress when the context is full, and stop
 * on a final answer, a failed call or an exhausted budget. What the model, the tools and the clock answer is input.
 */
module AgentLoop {
  import opened Options
  import opened Messages
  import opened IterationBudget
  import opened ContextManager

  datatype FailureReason = LlmTimeout | LlmError(detail: string) | BudgetExhausted

  datatype Event =
    | TaskStarted(resumed: bool)
    | TaskProgress(step: nat)
    | TaskFailed(reason: FailureReason)
    | TaskCompleted(iterations: int)

  datatype Checkpoint = Checkpoint(sessionId: string, step: nat, messages: seq<Message>)

  /** A cancelled call raises; the other failures end the turn with a message. */
  datatype LlmReply =
    | TimedOut
    | Cancelled
    | Failed(detail: string)
    | Answered(content: Option<string>, calls: seq<ToolCall>, usage: Usage)

  /** Whether an exception is raised behind the model's answer, up to the next saved checkpoint. */
  datatype Interruption = Undisturbed | BeforeCompression | BehindCompression

  /** What one iteration meets; `stopped` is an exception before the call. */
  datatype StepInput = StepInput(
    stopped: bool, llm: LlmReply, results: nat -> string, interruption: Interruption,
    systemText: string, overThreshold: bool, summary: Option<Option<string>>)

  /** Whether an exception is raised between the start of a turn and its first iteration. */
  datatype OpeningFault = Opens | FailsBeforeSaving | FailsAfterSaving

  /** Whether an exception is raised while a turn is finished, and what it prevents. */
  datatype EndingFault =
    | Finishes
    | FailsBeforeHistory
    | FailsBeforeAnswer
    | FailsBeforeTranscript
    | FailsBeforeCompletion
    | FailsBeforeClearing

  /** What one turn is given; `finish` is what final-response hooks and card extraction make of the answer. */
  datatype TurnInput = TurnInput(
    message: string, policy: Option<Policy>, resume: Option<Checkpoint>, now: real, systemText: string,
    opening: OpeningFault, steps: nat -> StepInput, finish: string -> string, ending: EndingFault)

  datatype Config = Config(
    keepRecent: nat, defaultPolicy: Policy, failureText: FailureReason -> string, summaryPrompt: PromptText,
    hasCheckpointStore: bool, hasTranscriptStore: bool)

  datatype BudgetRecord = BudgetRecord(policy: Policy, state: BudgetState, startTime: real)

  /**
   * The agent's fields and stores, and the record of emitted events, of the message lists the loop sent to the model,
   * and of the requests for a summary that compression sent to it.
   */
  datatype Agent = Agent(
    sessionId: Option<string>, step: nat, history: seq<Message>, checkpoint: Option<Checkpoint>,
    transcript: Option<seq<Message>>, budget: BudgetRecord, events: seq<Event>, sent: seq<seq<Message>>,
    summaryRequests: seq<seq<Message>>)

  datatype Outcome = Returned(text: string) | Raised

  datatype TurnEnd = TurnEnd(agent: Agent, outcome: Outcome)

  predicate HasSession(sessionId: Option<string>) {
    sessionId.Some? && sessionId.value != ""
  }

  predicate KeepsCheckpoints(c: Config, a: Agent) {
    c.hasCheckpointStore && HasSession(a.sessionId)
  }

  predicate KeepsTranscripts(c: Config, a: Agent) {
    c.hasTranscriptStore && HasSession(a.sessionId)
  }

  function Max(a: nat, b: nat): nat {
    if a >= b then a else b
  }

  // ---- the pieces of a turn ----

  /** A budget seeded from outside before its first iteration is carried over; any other is reset. */
  function StartBudget(b: BudgetRecord, policy: Policy, now: real): BudgetRecord {
    var s := b.state;
    if s.iterationsUsed == 0 && (s.totalTokensUsed > 0 || s.totalCostUsd > 0.0 || s.wallTimeElapsed > 0.0)
    then b.(policy := policy)
    else BudgetRecord(policy, FRESH, now)
  }

  predicate Mismatched(sessionId: Option<string>, resume: Option<Checkpoint>) {
    resume.Some? && sessionId.Some? && resume.value.sessionId != sessionId.value
  }

  function Restored(a: Agent, resume: Option<Checkpoint>): Agent {
    if resume.None? then a
    else a.(
      sessionId := if HasSession(a.sessionId) then a.sessionId else Some(resume.value.sessionId),
      history := resume.value.messages,
      step := Max(a.step, resume.value.step))
  }

  function Saved(c: Config, a: Agent, messages: seq<Message>): Agent {
    if KeepsCheckpoints(c, a) then a.(checkpoint := Some(Checkpoint(a.sessionId.value, a.step, messages))) else a
  }

  function Refreshed(ms: seq<Message>, systemText: string): seq<Message> {
    [System(systemText)] + NonSystem(ms)
  }

  function ToolMessages(calls: seq<ToolCall>, results: nat -> string): seq<Message> {
    seq(|calls|, i requires 0 <= i < |calls| => Tool(calls[i].id, calls[i].name, results(i)))
  }

  /** The message list after a round of tools. */
  function AfterTools(ms: seq<Message>, answer: LlmReply, input: StepInput): seq<Message>
    requires answer.Answered?
  {
    ms + ([Assistant(answer.content, answer.calls)] + ToolMessages(answer.calls, input.results))
  }

  function AfterCompression(ms: seq<Message>, keep: nat, input: StepInput): (r: seq<Message>)
    ensures r != []
  {
    var refreshed := Refreshed(ms, input.systemText);
    if input.overThreshold then Compress(refreshed, keep, input.summary) else refreshed
  }

  /** The agent with the answer in its history and in the transcript store. */
  function WithAnswer(c: Config, a: Agent, ms: seq<Message>, text: string): Agent
    requires ms != []
  {
    var history := ms[1..] + [Assistant(Some(text), [])];
    a.(history := history, transcript := if KeepsTranscripts(c, a) then Some(history) else a.transcript)
  }

  function Finalized(c: Config, a: Agent, ms: seq<Message>, text: string, ending: EndingFault): TurnEnd
    requires ms != []
  {
    var answered := WithAnswer(c, a, ms, text);
    var completed := answered.(events := a.events + [TaskCompleted(a.budget.state.iterationsUsed)]);
    match ending
    case FailsBeforeHistory => TurnEnd(a, Raised)
    case FailsBeforeAnswer => TurnEnd(a.(history := ms[1..]), Raised)
    case FailsBeforeTranscript => TurnEnd(answered.(transcript := a.transcript), Raised)
    case FailsBeforeCompletion => TurnEnd(answered, Raised)
    case FailsBeforeClearing => TurnEnd(completed, Raised)
    case Finishes =>
      TurnEnd(if KeepsCheckpoints(c, a) then completed.(checkpoint := None) else completed, Returned(text))
  }

  function FailedTurn(c: Config, a: Agent, ms: seq<Message>, reason: FailureReason, t: TurnInput): TurnEnd
    requires ms != []
  {
    Finalized(c, a.(events := a.events + [TaskFailed(reason)]), ms, t.finish(c.failureText(reason)), t.ending)
  }

  /** Counting a step and announcing it. */
  function Announced(a: Agent): Agent {
    a.(step := a.step + 1, events := a.events + [TaskProgress(a.step + 1)])
  }

  /** Announcing a step and sending the messages to the model. */
  function Asked(a: Agent, ms: seq<Message>): Agent {
    Announced(a).(sent := a.sent + [ms])
  }

  function Charged(a: Agent, usage: Usage): (r: Agent)
    ensures r.budget.state.iterationsUsed == a.budget.state.iterationsUsed + 1
    ensures r == a.(budget := r.budget) && r.budget.policy == a.budget.policy
  {
    a.(budget := a.budget.(state := Spend(a.budget.policy, a.budget.state, usage, a.budget.startTime).state))
  }

  /** The requests for a summary of the messages behind a round of tools. */
  function RequestsFor(c: Config, tools: seq<Message>, input: StepInput): seq<seq<Message>> {
    if input.overThreshold
    then SummaryRequests(Refreshed(tools, input.systemText), c.keepRecent, c.summaryPrompt) else []
  }

  /** A step whose tools have run, and whose messages have been compressed if there are too many. */
  function Worked(c: Config, a: Agent, ms: seq<Message>, input: StepInput): (r: Agent)
    requires input.llm.Answered?
    ensures r.budget == Charged(Asked(a, ms), input.llm.usage).budget
    ensures r == Asked(a, ms).(budget := r.budget, summaryRequests := r.summaryRequests)
    ensures r.summaryRequests == a.summaryRequests + RequestsFor(c, AfterTools(ms, input.llm, input), input)
  {
    var charged := Charged(Asked(a, ms), input.llm.usage);
    charged.(summaryRequests := charged.summaryRequests + RequestsFor(c, AfterTools(ms, input.llm, input), input))
  }

  function IterationsLeft(b: BudgetRecord): int {
    b.policy.maxIterations - b.state.iterationsUsed
  }

  lemma {:induction false} NotExhausted(p: Policy, s: BudgetState)
    ensures !IsExhausted(p, s) ==> p.maxIterations - s.iterationsUsed > 0
  {
  }

  function RunLoop(c: Config, a: Agent, ms: seq<Message>, t: TurnInput, n: nat): TurnEnd
    requires ms != []
    decreases if IterationsLeft(a.budget) > 0 then IterationsLeft(a.budget) else 0
  {
    if IsExhausted(a.budget.policy, a.budget.state) then FailedTurn(c, a, ms, BudgetExhausted, t)
    else
      var input, asked := t.steps(n), Asked(a, ms);
      if input.stopped then TurnEnd(Announced(a), Raised)
      else match input.llm
      case Cancelled => TurnEnd(asked, Raised)
      case TimedOut => FailedTurn(c, asked, ms, LlmTimeout, t)
      case Failed(detail) => FailedTurn(c, asked, ms, LlmError(detail), t)
      case Answered(content, calls, usage) =>
        var charged := Charged(asked, usage);
        if input.interruption.BeforeCompression? then TurnEnd(charged, Raised)
        else if calls == [] then
          if input.interruption.Undisturbed? then Finalized(c, charged, ms, t.finish(GetOr(content, "")), t.ending)
          else TurnEnd(charged, Raised)
        else
          var worked := Worked(c, a, ms, input);
          if input.interruption.BehindCompression? then TurnEnd(worked, Raised)
          else
            var next := AfterCompression(AfterTools(ms, input.llm, input), c.keepRecent, input);
            RunLoop(c, Saved(c, worked, next[1..]), next, t, n + 1)
  }

  function Opening(a: Agent, t: TurnInput): seq<Message> {
    [System(t.systemText)] + a.history + [User(t.message)]
  }

  function Begun(c: Config, a: Agent, t: TurnInput): Agent {
    a.(budget := StartBudget(a.budget, GetOr(t.policy, c.defaultPolicy), t.now))
  }

  function Started(a: Agent, t: TurnInput): Agent {
    var restored := Restored(a, t.resume);
    restored.(events := restored.events + [TaskStarted(t.resume.Some?)])
  }

  function Opened(c: Config, a: Agent, t: TurnInput): Agent {
    Saved(c, Started(a, t), Opening(Restored(a, t.resume), t)[1..])
  }

  function Turn(c: Config, a: Agent, t: TurnInput): TurnEnd {
    var begun := Begun(c, a, t);
    if Mismatched(a.sessionId, t.resume) then TurnEnd(begun, Raised)
    else if t.opening.FailsBeforeSaving? then TurnEnd(Started(begun, t), Raised)
    else if t.opening.FailsAfterSaving? then TurnEnd(Opened(c, begun, t), Raised)
    else
      var ready := Opened(c, begun, t);
      RunLoop(c, ready, Refreshed(Opening(Restored(begun, t.resume), t), t.systemText), t, 0)
  }

  /** A new agent for a session: it goes on from the checkpoint, if one is stored, or else from the transcript. */
  function Loaded(c: Config, sessionId: Option<string>, checkpoint: Option<Checkpoint>,
    transcript: Option<seq<Message>>, now: real): Agent
  {
    var stored := if HasSession(sessionId) && c.hasCheckpointStore then checkpoint else None;
    Agent(
      sessionId,
      if stored.Some? then stored.value.step else 0,
      if stored.Some? then stored.value.messages
      else if HasSession(sessionId) && c.hasTranscriptStore then GetOr(transcript, []) else [],
      checkpoint, transcript, BudgetRecord(c.defaultPolicy, FRESH, now), [], [], [])
  }

  class DSAgent {
    const config: Config
    const budget: Budget
    var sessionId: Option<string>
    var step: nat
    var history: seq<Message>
    var checkpoint: Option<Checkpoint>
    var transcript: Option<seq<Message>>
    var events: seq<Event>
    ghost var sent: seq<seq<Message>>
    ghost var summaryRequests: seq<seq<Message>>

    constructor (config: Config, sessionId: Option<string>, checkpoint: Option<Checkpoint>,
      transcript: Option<seq<Message>>, now: real)
      ensures this.config == config && fresh(budget)
      ensures State() == Loaded(config, sessionId, checkpoint, transcript, now)
    {
      this.config, this.sessionId, this.checkpoint, this.transcript := config, sessionId, checkpoint, transcript;
      budget := new Budget(config.defaultPolicy, now);
      step, history, events, sent, summaryRequests := 0, [], [], [], [];
      if HasSession(sessionId) {
        if config.hasCheckpointStore && checkpoint.Some? {
          step, history := Max(0, checkpoint.value.step), checkpoint.value.messages;
        } else if config.hasTranscriptStore && transcript.Some? {
          history := transcript.value;
        }
      }
    }

    ghost function State(): Agent
      reads this, budget
    {
      Agent(sessionId, step, history, checkpoint, transcript,
            BudgetRecord(budget.policy, budget.state, budget.startTime), events, sent, summaryRequests)
    }

    method StartTurn(policy: Option<Policy>, now: real)
      modifies budget
      ensures State() == old(State()).(budget :=
        StartBudget(old(State()).budget, GetOr(policy, config.defaultPolicy), now))
    {
      var effective := GetOr(policy, config.defaultPolicy);
      var s := budget.state;
      if s.iterationsUsed == 0 && (s.totalTokensUsed > 0 || s.totalCostUsd > 0.0 || s.wallTimeElapsed > 0.0) {
        budget.policy := effective;
        return;
      }
      budget.Reset(Some(effective), now);
    }

    /** Raises when the checkpoint belongs to another session. */
    method RestoreCheckpoint(resume: Option<Checkpoint>) returns (raised: bool)
      modifies this
      ensures raised == Mismatched(old(sessionId), resume)
      ensures State() == if raised then old(State()) else Restored(old(State()), resume)
    {
      if resume.None? {
        return false;
      }
      if sessionId.Some? && resume.value.sessionId != sessionId.value {
        return true;
      }
      if !HasSession(sessionId) {
        sessionId := Some(resume.value.sessionId);
      }
      history, step := resume.value.messages, Max(step, resume.value.step);
      raised := false;
    }

    method SaveCheckpoint(messages: seq<Message>)
      modifies this
      ensures State() == Saved(config, old(State()), messages)
    {
      if config.hasCheckpointStore && HasSession(sessionId) {
        checkpoint := Some(Checkpoint(sessionId.value, step, messages));
      }
    }

    method Emit(e: Event)
      modifies this
      ensures State() == old(State()).(events := old(events) + [e])
    {
      events := events + [e];
    }

    method FinalizeTurn(messages: seq<Message>, text: string, ending: EndingFault) returns (outcome: Outcome)
      requires messages != []
      modifies this
      ensures TurnEnd(State(), outcome) == Finalized(config, old(State()), messages, text, ending)
    {
      if ending.FailsBeforeHistory? {
        return Raised;
      }
      history := messages[1..];
      if ending.FailsBeforeAnswer? {
        return Raised;
      }
      history := history + [Assistant(Some(text), [])];
      if ending.FailsBeforeTranscript? {
        return Raised;
      }
      if config.hasTranscriptStore && HasSession(sessionId) {
        transcript := Some(history);
      }
      if ending.FailsBeforeCompletion? {
        return Raised;
      }
      Emit(TaskCompleted(budget.state.iterationsUsed));
      if ending.FailsBeforeClearing? {
        return Raised;
      }
      if config.hasCheckpointStore && HasSession(sessionId) {
        checkpoint := None;
      }
      outcome := Returned(text);
    }

    method Run(t: TurnInput) returns (outcome: Outcome)
      modifies this, budget
      ensures TurnEnd(State(), outcome) == Turn(config, old(State()), t)
    {
      hide Finalized, Charged, Compress, NonSystem, StartBudget, Restored, Spend, IsExhausted, Asked, HasSession;
      hide KeepsCheckpoints;
      StartTurn(t.policy, t.now);
      var raised := RestoreCheckpoint(t.resume);
      if raised {
        return Raised;
      }
      Emit(TaskStarted(t.resume.Some?));
      if t.opening.FailsBeforeSaving? {
        return Raised;
      }
      var messages := [System(t.systemText)] + history + [User(t.message)];
      SaveCheckpoint(messages[1..]);
      if t.opening.FailsAfterSaving? {
        return Raised;
      }
      messages := Refreshed(messages, t.systemText);
      outcome := Loop(t, messages);
    }

    method Loop(t: TurnInput, opening: seq<Message>) returns (outcome: Outcome)
      requires opening != []
      modifies this, budget
      ensures TurnEnd(State(), outcome) == RunLoop(config, old(State()), opening, t, 0)
    {
      hide Finalized, Spend, IsExhausted, Saved, AfterCompression, ToolMessages, HasSession, RequestsFor;
      var messages, n := opening, 0;
      while !IsExhausted(budget.policy, budget.state)
        invariant budget.policy == old(budget.policy)
        invariant messages != []
        invariant RunLoop(config, old(State()), opening, t, 0) == RunLoop(config, State(), messages, t, n)
        decreases budget.policy.maxIterations - budget.state.iterationsUsed
      {
        NotExhausted(budget.policy, budget.state);
        ghost var before := State();
        var input := t.steps(n);
        Announce();
        if input.stopped {
          return Raised;
        }
        sent := sent + [messages];
        assert State() == Asked(before, messages);
        match input.llm {
          case Cancelled =>
            return Raised;
          case TimedOut =>
            Emit(TaskFailed(LlmTimeout));
            outcome := FinalizeTurn(messages, t.finish(config.failureText(LlmTimeout)), t.ending);
            return;
          case Failed(detail) =>
            Emit(TaskFailed(LlmError(detail)));
            outcome := FinalizeTurn(messages, t.finish(config.failureText(LlmError(detail))), t.ending);
            return;
          case Answered(content, calls, usage) =>
            var _ := budget.Consume(usage);
            if calls == [] {
              if !input.interruption.Undisturbed? {
                return Raised;
              }
              outcome := FinalizeTurn(messages, t.finish(GetOr(content, "")), t.ending);
              return;
            }
            ghost var charged, asking := State(), messages;
            messages := messages + [Assistant(content, calls)];
            messages := RunTools(calls, input.results, messages);
            assert messages == AfterTools(asking, input.llm, input);
            if input.interruption.BeforeCompression? {
              return Raised;
            }
            messages := MakeRoom(messages, input);
            assert charged == Charged(Asked(before, asking), usage);
            assert State() == Worked(config, before, asking, input);
            if input.interruption.BehindCompression? {
              return Raised;
            }
            SaveCheckpoint(messages[1..]);
            n := n + 1;
        }
      }
      Emit(TaskFailed(BudgetExhausted));
      outcome := FinalizeTurn(messages, t.finish(config.failureText(BudgetExhausted)), t.ending);
    }

    /** Counts the step. */
    method Announce()
      modifies this
      ensures State() == Announced(old(State()))
    {
      step := step + 1;
      Emit(TaskProgress(step));
    }

    /** Refreshes the system prompt and compresses when the context is full. */
    method MakeRoom(before: seq<Message>, input: StepInput) returns (messages: seq<Message>)
      modifies this
      ensures messages == AfterCompression(before, config.keepRecent, input)
      ensures State() == old(State()).(summaryRequests :=
        old(summaryRequests) + RequestsFor(config, before, input))
    {
      messages := Refreshed(before, input.systemText);
      if input.overThreshold {
        summaryRequests := summaryRequests + SummaryRequests(messages, config.keepRecent, config.summaryPrompt);
        messages := Compress(messages, config.keepRecent, input.summary);
      }
    }

    /** One tool message per call, in the order of the calls; a failing dispatch still answers. */
    method RunTools(calls: seq<ToolCall>, results: nat -> string, before: seq<Message>) returns (messages: seq<Message>)
      ensures messages == before + ToolMessages(calls, results)
    {
      messages := before;
      for k := 0 to |calls|
        invariant messages == before + ToolMessages(calls[..k], results)
      {
        messages := messages + [Tool(calls[k].id, calls[k].name, results(k))];
      }
      assert calls[..|calls|] == calls;
    }
  }
}
