/**
 * What a turn whose context never fills up leaves behind, message by message: the old history, the request, one group
 * per answered step with that step's calls and results, and the answer.
 */
module TurnContents {
  import opened Options
  import opened Messages
  import opened IterationBudget
  import opened ContextManager
  import opened AgentLoop
  import opened TurnProtocol

  /** The tool calls the model asks for at step `i`. */
  function CallsOf(t: TurnInput, i: nat): seq<ToolCall> {
    var llm := t.steps(i).llm;
    if llm.Answered? then llm.calls else []
  }

  /** Where the group of step `i` starts, when that of step `n` starts at `first`. */
  function Place(t: TurnInput, first: nat, n: nat, i: nat): nat
    requires n <= i
    decreases i - n
  {
    if i == n then first else Place(t, first, n, i - 1) + 1 + |CallsOf(t, i - 1)|
  }

  /** At position `at` stands the model's answer of step `i`, and behind it the results of its calls. */
  ghost predicate HoldsGroup(h: seq<Message>, t: TurnInput, i: nat, at: nat) {
    var (llm, calls) := (t.steps(i).llm, CallsOf(t, i));
    && llm.Answered? && calls != [] && at + |calls| < |h|
    && h[at].Assistant? && h[at].content == llm.content && h[at].calls == calls
    && forall k :: 0 <= k < |calls| ==>
         h[at + 1 + k] == Tool(calls[k].id, calls[k].name, t.steps(i).results(k))
  }

  /** Why a loop of `answered` answered rounds and `calls` calls ends, if not with an answer of the model. */
  function FailureOf(t: TurnInput, last: nat, called: bool): Option<FailureReason> {
    if !called then Some(BudgetExhausted)
    else match t.steps(last).llm
      case TimedOut => Some(LlmTimeout)
      case Failed(detail) => Some(LlmError(detail))
      case _ => None
  }

  /** What the turn answers. */
  function AnswerOf(c: Config, t: TurnInput, last: nat, called: bool): string {
    var failure := FailureOf(t, last, called);
    if failure.Some? then t.finish(c.failureText(failure.value))
    else if t.steps(last).llm.Answered? then t.finish(GetOr(t.steps(last).llm.content, ""))
    else ""
  }

  /** The events behind the last step: the failure, if any, and the completion. */
  function ClosingOf(t: TurnInput, last: nat, called: bool, iterations: int): seq<Event> {
    var failure := FailureOf(t, last, called);
    (if failure.Some? then [TaskFailed(failure.value)] else []) + [TaskCompleted(iterations)]
  }

  ghost predicate EndsWith(events: seq<Event>, closing: seq<Event>) {
    |closing| <= |events| && events[|events| - |closing|..] == closing
  }

  /** The system message of the call at step `i`. */
  function SystemAt(ms: seq<Message>, t: TurnInput, n: nat, i: nat): Message
    requires ms != [] && n <= i
  {
    if i == n then ms[0] else System(t.steps(i - 1).systemText)
  }

  /** The messages: from step `n` on one group per answered step, up to `last`, and then the answer. */
  ghost predicate HoldsRounds(h: seq<Message>, c: Config, t: TurnInput, first: nat, n: nat, last: nat, called: bool) {
    && n <= last && |h| == Place(t, first, n, last) + 1
    && (forall i :: n <= i < last ==> HoldsGroup(h, t, i, Place(t, first, n, i)))
    && h[|h| - 1] == Assistant(Some(AnswerOf(c, t, last, called)), [])
  }

  /** Step `i` sends the system message and the history up to its own group. */
  ghost predicate SendsAt(
    sent: seq<seq<Message>>, h: seq<Message>, ms: seq<Message>, t: TurnInput, n: nat, i: nat)
    requires ms != [] && n <= i < n + |sent|
  {
    && Place(t, |ms| - 1, n, i) <= |h|
    && sent[i - n] == [SystemAt(ms, t, n, i)] + h[..Place(t, |ms| - 1, n, i)]
  }

  /** One call for every step before `last`, and one more if the last step made its call. */
  ghost predicate Sends(
    sent: seq<seq<Message>>, h: seq<Message>, ms: seq<Message>, t: TurnInput, n: nat, last: nat, called: bool)
    requires ms != [] && n <= last
  {
    && |sent| == last - n + (if called then 1 else 0)
    && forall i :: n <= i < n + |sent| ==> SendsAt(sent, h, ms, t, n, i)
  }

  /** A loop that started from `ms` at step `n` returned `r` after the rounds of the steps before `last`. */
  ghost predicate Leaves(
    c: Config, a: Agent, ms: seq<Message>, t: TurnInput, n: nat, last: nat, called: bool, r: TurnEnd)
    requires ms != []
  {
    && n <= last && ms[1..] <= r.agent.history
    && HoldsRounds(r.agent.history, c, t, |ms| - 1, n, last, called)
    && r.outcome == Returned(AnswerOf(c, t, last, called))
    && |a.sent| <= |r.agent.sent| && r.agent.sent[..|a.sent|] == a.sent
    && Sends(r.agent.sent[|a.sent|..], r.agent.history, ms, t, n, last, called)
    && EndsWith(r.agent.events, ClosingOf(t, last, called, r.agent.budget.state.iterationsUsed))
    && (!called ==> IsExhausted(r.agent.budget.policy, r.agent.budget.state))
  }

  // ---- the last step ----

  lemma {:induction false} ClosedWith(front: seq<Event>, closing: seq<Event>)
    ensures EndsWith(front + closing, closing)
  {
  }

  lemma {:induction false} LastMessage(c: Config, h: seq<Message>, ms: seq<Message>, t: TurnInput, n: nat, called: bool)
    requires ms != [] && h == ms[1..] + [Assistant(Some(AnswerOf(c, t, n, called)), [])]
    ensures ms[1..] <= h && HoldsRounds(h, c, t, |ms| - 1, n, n, called)
  {
    hide AnswerOf, HoldsGroup;
  }

  lemma {:induction false} LastCall(
    sent: seq<seq<Message>>, h: seq<Message>, ms: seq<Message>, t: TurnInput, n: nat, called: bool)
    requires ms != [] && ms[0].System? && ms[1..] <= h && sent == if called then [ms] else []
    ensures Sends(sent, h, ms, t, n, n, called)
  {
    assert h[..|ms| - 1] == ms[1..] && ms == [ms[0]] + ms[1..];
    if called { assert SendsAt(sent, h, ms, t, n, n); }
  }

  /** The failure, if any, is reported before the completion. */
  lemma {:induction false} LastEvents(events: seq<Event>, t: TurnInput, n: nat, called: bool, iterations: int)
    requires var failure := FailureOf(t, n, called);
      failure.Some? ==> events != [] && events[|events| - 1] == TaskFailed(failure.value)
    ensures EndsWith(events + [TaskCompleted(iterations)], ClosingOf(t, n, called, iterations))
  {
    hide FailureOf;
    var completed := TaskCompleted(iterations);
    if FailureOf(t, n, called).Some? {
      var front := events[..|events| - 1];
      assert events + [completed] == front + ClosingOf(t, n, called, iterations);
      ClosedWith(front, ClosingOf(t, n, called, iterations));
    } else {
      assert [] + [completed] == [completed];
      ClosedWith(events, [completed]);
    }
  }

  lemma {:induction false} FinalizedLeaves(
    c: Config, was: Agent, a: Agent, ms: seq<Message>, t: TurnInput, n: nat, called: bool, r: TurnEnd)
    requires ms != [] && ms[0].System? && t.ending.Finishes?
    requires a.sent == was.sent + (if called then [ms] else [])
    requires r == Finalized(c, a, ms, AnswerOf(c, t, n, called), Finishes)
    requires var failure := FailureOf(t, n, called);
      failure.Some? ==> a.events != [] && a.events[|a.events| - 1] == TaskFailed(failure.value)
    requires !called ==> IsExhausted(a.budget.policy, a.budget.state)
    ensures Leaves(c, was, ms, t, n, n, called, r)
  {
    hide IsExhausted, AnswerOf, FailureOf, HoldsRounds, Sends, EndsWith, ClosingOf;
    LastMessage(c, r.agent.history, ms, t, n, called);
    LastEvents(a.events, t, n, called, a.budget.state.iterationsUsed);
    assert r.agent.sent[..|was.sent|] == was.sent;
    assert r.agent.sent[|was.sent|..] == if called then [ms] else [];
    LastCall(r.agent.sent[|was.sent|..], r.agent.history, ms, t, n, called);
  }

  // ---- one more round ----

  lemma {:induction false} PlaceFrom(t: TurnInput, first: nat, n: nat, i: nat)
    requires n < i
    ensures Place(t, first, n, i) == Place(t, first + 1 + |CallsOf(t, n)|, n + 1, i)
    decreases i - n
  {
    if i > n + 1 {
      PlaceFrom(t, first, n, i - 1);
    } else {
      assert Place(t, first, n, n) == first;
    }
  }

  lemma {:induction false} NextMessages(c: Config, ms: seq<Message>, t: TurnInput, n: nat)
    requires Request(ms, c.keepRecent) && t.steps(n).llm.Answered? && !t.steps(n).overThreshold
    ensures var (input, tools) := (t.steps(n), AfterTools(ms, t.steps(n).llm, t.steps(n)));
      var next := AfterCompression(tools, c.keepRecent, input);
      && Request(next, c.keepRecent) && next[0] == System(input.systemText)
      && next[1..] == ms[1..]
           + ([Assistant(input.llm.content, input.llm.calls)] + ToolMessages(input.llm.calls, input.results))
  {
    hide Conversation;
    var input := t.steps(n);
    var tools := AfterTools(ms, input.llm, input);
    AfterToolsIsRequest(ms, input.llm, input, c.keepRecent);
    AfterCompressionIsRequest(tools, c.keepRecent, input);
    var group := [Assistant(input.llm.content, input.llm.calls)] + ToolMessages(input.llm.calls, input.results);
    assert tools[|ms|..] == group;
  }

  lemma {:induction false} GroupStands(h: seq<Message>, front: seq<Message>, t: TurnInput, i: nat)
    requires t.steps(i).llm.Answered? && CallsOf(t, i) != []
    requires var llm := t.steps(i).llm;
      front + ([Assistant(llm.content, llm.calls)] + ToolMessages(llm.calls, t.steps(i).results)) < h
    ensures HoldsGroup(h, t, i, |front|)
  {
    var llm := t.steps(i).llm;
    var group := [Assistant(llm.content, llm.calls)] + ToolMessages(llm.calls, t.steps(i).results);
    var all := front + group;
    assert forall j :: 0 <= j < |group| ==> h[|front| + j] == all[|front| + j] == group[j];
    assert h[|front| + 0] == group[0];
    forall k | 0 <= k < |llm.calls|
      ensures h[|front| + 1 + k] == Tool(llm.calls[k].id, llm.calls[k].name, t.steps(i).results(k))
    {
      assert h[|front| + (1 + k)] == group[1 + k];
    }
  }

  lemma {:induction false} RoundsFrom(
    h: seq<Message>, c: Config, t: TurnInput, first: nat, n: nat, last: nat, called: bool)
    requires HoldsGroup(h, t, n, first)
    requires HoldsRounds(h, c, t, first + 1 + |CallsOf(t, n)|, n + 1, last, called)
    ensures HoldsRounds(h, c, t, first, n, last, called)
  {
    hide HoldsGroup, AnswerOf;
    PlaceFrom(t, first, n, last);
    forall i | n <= i < last ensures HoldsGroup(h, t, i, Place(t, first, n, i)) {
      if i > n { PlaceFrom(t, first, n, i); }
    }
  }

  lemma {:induction false} SendsFrom(
    sent: seq<seq<Message>>, h: seq<Message>, ms: seq<Message>, next: seq<Message>, t: TurnInput, n: nat, last: nat,
    called: bool)
    requires ms != [] && next != [] && n < last && ms[1..] <= h && ms[0].System?
    requires next[0] == System(t.steps(n).systemText) && |next| == |ms| + 1 + |CallsOf(t, n)|
    requires Sends(sent, h, next, t, n + 1, last, called)
    ensures Sends([ms] + sent, h, ms, t, n, last, called)
  {
    var all := [ms] + sent;
    assert ms == [ms[0]] + ms[1..] && h[..|ms| - 1] == ms[1..];
    forall i | n <= i < n + |all| ensures SendsAt(all, h, ms, t, n, i) {
      if i > n {
        assert SendsAt(sent, h, next, t, n + 1, i);
        PlaceFrom(t, |ms| - 1, n, i);
        assert |ms| - 1 + 1 + |CallsOf(t, n)| == |next| - 1;
        assert Place(t, |ms| - 1, n, i) == Place(t, |next| - 1, n + 1, i);
        assert SystemAt(ms, t, n, i) == SystemAt(next, t, n + 1, i);
        assert all[i - n] == sent[i - (n + 1)];
      } else {
        assert all[i - n] == ms;
      }
    }
  }

  lemma {:induction false} SentBehind(before: seq<seq<Message>>, ms: seq<Message>, sent: seq<seq<Message>>)
    requires |before| + 1 <= |sent| && sent[..|before| + 1] == before + [ms]
    ensures sent[..|before|] == before && sent[|before|..] == [ms] + sent[|before| + 1..]
  {
    assert sent[|before|] == (before + [ms])[|before|];
    assert sent[..|before|] == sent[..|before| + 1][..|before|];
  }

  lemma {:induction false} PlaceNotBefore(t: TurnInput, first: nat, n: nat, i: nat)
    requires n <= i
    ensures Place(t, first, n, i) >= first
    decreases i - n
  {
    if i > n { PlaceNotBefore(t, first, n, i - 1); }
  }

  lemma {:induction false} RoundsLength(
    h: seq<Message>, c: Config, t: TurnInput, first: nat, n: nat, last: nat, called: bool)
    requires HoldsRounds(h, c, t, first, n, last, called)
    ensures |h| > first
  {
    hide HoldsGroup, AnswerOf;
    PlaceNotBefore(t, first, n, last);
  }

  lemma {:induction false} RoundLeaves(
    c: Config, a: Agent, worked: Agent, ms: seq<Message>, next: seq<Message>, t: TurnInput, n: nat, last: nat,
    called: bool, r: TurnEnd)
    requires ms != [] && next != [] && ms[0].System? && t.steps(n).llm.Answered? && CallsOf(t, n) != []
    requires worked.sent == a.sent + [ms] && next[0] == System(t.steps(n).systemText)
    requires var llm := t.steps(n).llm;
      next[1..] == ms[1..] + ([Assistant(llm.content, llm.calls)] + ToolMessages(llm.calls, t.steps(n).results))
    requires Leaves(c, worked, next, t, n + 1, last, called, r)
    ensures Leaves(c, a, ms, t, n, last, called, r)
  {
    hide HoldsGroup, HoldsRounds, Sends, EndsWith, AnswerOf, IsExhausted, ClosingOf;
    var h, sent := r.agent.history, r.agent.sent;
    assert |next| == |ms| + 1 + |CallsOf(t, n)|;
    RoundsLength(h, c, t, |next| - 1, n + 1, last, called);
    GroupStands(h, ms[1..], t, n);
    RoundsFrom(h, c, t, |ms| - 1, n, last, called);
    SendsFrom(sent[|worked.sent|..], h, ms, next, t, n, last, called);
    SentBehind(a.sent, ms, sent);
  }

  // ---- the whole turn ----

  lemma {:induction false} LoopLeaves(c: Config, a: Agent, ms: seq<Message>, t: TurnInput, n: nat)
    returns (last: nat, called: bool)
    requires Request(ms, c.keepRecent) && NeverFull(t) && RunLoop(c, a, ms, t, n).outcome.Returned?
    ensures Leaves(c, a, ms, t, n, last, called, RunLoop(c, a, ms, t, n))
    decreases NonNegative(IterationsLeft(a.budget))
  {
    hide Conversation, AfterTools, AfterCompression, IsExhausted, Spend, Leaves, RequestsFor, ToolMessages;
    NotExhausted(a.budget.policy, a.budget.state);
    var input, asked, r := t.steps(n), Asked(a, ms), RunLoop(c, a, ms, t, n);
    if GoesOn(a, t, n) {
      var worked := Worked(c, a, ms, input);
      var next := AfterCompression(AfterTools(ms, input.llm, input), c.keepRecent, input);
      NextMessages(c, ms, t, n);
      SavedKeepsCounts(c, worked, next[1..]);
      last, called := LoopLeaves(c, Saved(c, worked, next[1..]), next, t, n + 1);
      RoundLeaves(c, a, Saved(c, worked, next[1..]), ms, next, t, n, last, called, r);
    } else {
      last, called := n, !IsExhausted(a.budget.policy, a.budget.state);
      var at := if !called then a.(events := a.events + [TaskFailed(BudgetExhausted)])
        else if input.llm.TimedOut? then asked.(events := asked.events + [TaskFailed(LlmTimeout)])
        else if input.llm.Failed? then asked.(events := asked.events + [TaskFailed(LlmError(input.llm.detail))])
        else if input.llm.Answered? then Charged(asked, input.llm.usage) else asked;
      FinalizedLeaves(c, a, at, ms, t, n, called, r);
    }
  }

  /**
   * A turn that returns and never fills its context leaves the old history, the request, the rounds of its answered
   * steps, and the answer, which is the model's, or the text for what ended the turn.
   */
  lemma {:induction false} TurnLeaves(c: Config, a: Agent, t: TurnInput) returns (last: nat, called: bool)
    requires Sound(c, a) && Resumable(c, t.resume) && NeverFull(t) && Turn(c, a, t).outcome.Returned?
    ensures var (before, r) := (Restored(a, t.resume).history + [User(t.message)], Turn(c, a, t));
      && before <= r.agent.history
      && HoldsRounds(r.agent.history, c, t, |before|, 0, last, called)
      && r.outcome == Returned(AnswerOf(c, t, last, called))
      && |a.sent| <= |r.agent.sent| && r.agent.sent[..|a.sent|] == a.sent
      && Sends(r.agent.sent[|a.sent|..], r.agent.history, [System(t.systemText)] + before, t, 0, last, called)
      && EndsWith(r.agent.events, ClosingOf(t, last, called, r.agent.budget.state.iterationsUsed))
      && (!called ==> IsExhausted(r.agent.budget.policy, r.agent.budget.state))
  {
    hide Conversation, RunLoop, StartBudget, Opening, Refreshed, NeverFull, HoldsRounds, Sends, AnswerOf, ClosingOf;
    hide IsExhausted, EndsWith;
    var begun := Begun(c, a, t);
    var restored := Restored(begun, t.resume);
    OpeningIsRequest(restored, t, c.keepRecent);
    RefreshedRequest(Opening(restored, t), t.systemText, c.keepRecent);
    last, called := LoopLeaves(c, Opened(c, begun, t), Refreshed(Opening(restored, t), t.systemText), t, 0);
  }
}
