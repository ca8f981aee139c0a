/** Context compression: the front of a conversation is replaced by one summary message. */
module ContextManager {
  import opened Options
  import opened Messages
  import Continuity

  /** `message.content` */
  function ContentOf(m: Message): Option<string> {
    match m
    case System(text) => Some(text)
    case User(text) => Some(text)
    case Assistant(content, _) => content
    case Tool(_, _, text) => Some(text)
  }

  function Contents(ms: seq<Message>): seq<Option<string>> {
    seq(|ms|, i requires 0 <= i < |ms| => ContentOf(ms[i]))
  }

  /** Python's `ms[:-n]` and `ms[-n:]`; for 0 the first is empty and the second is everything. */
  function AllButLast<T>(ms: seq<T>, n: nat): seq<T>
    requires n <= |ms|
  {
    if n == 0 then [] else ms[..|ms| - n]
  }

  function Last<T>(ms: seq<T>, n: nat): seq<T>
    requires n <= |ms|
  {
    if n == 0 then ms else ms[|ms| - n..]
  }

  /** The message a compression writes for the messages it cuts. */
  function SummaryOf(cut: seq<Message>, body: Option<string>): Message {
    var state := Continuity.ExtractFrom(Contents(cut), Continuity.NOTHING);
    Assistant(Some(Continuity.SummaryContent(state, body)), [])
  }

  /** How the request for a summary is worded, from the recorded state and the messages that are cut. */
  type PromptText = (Continuity.State, seq<Message>) -> string

  /** The request a compression sends to the model, if it cuts anything: a single user message. */
  function SummaryRequests(ms: seq<Message>, keep: nat, prompt: PromptText): seq<seq<Message>> {
    var others := NonSystem(ms);
    if |others| <= keep then []
    else
      var cut := AllButLast(others, keep);
      [[User(prompt(Continuity.ExtractFrom(Contents(cut), Continuity.NOTHING), cut))]]
  }

  /** `compress`; `summary` is what the model answers to the summary prompt, None when that call fails. */
  function Compress(ms: seq<Message>, keep: nat, summary: Option<Option<string>>): (r: seq<Message>)
    ensures ms != [] ==> r != []
  {
    var others := NonSystem(ms);
    if |others| <= keep || summary.None? then ms
    else Systems(ms) + [SummaryOf(AllButLast(others, keep), summary.value)] + Last(others, keep)
  }

  /** Compression of a request: the system message stays, a summary replaces all but the last `keep` messages. */
  lemma {:induction false} CompressedRequest(ms: seq<Message>, keep: nat, summary: Option<Option<string>>)
    requires Request(ms, keep) && |ms| - 1 > keep && summary.Some?
    ensures Compress(ms, keep, summary) == [ms[0]]
      + [SummaryOf(AllButLast(ms[1..], keep), summary.value)] + Last(ms[1..], keep)
  {
    hide SummaryOf, Conversation;
    SplitRequest(ms, keep);
  }

  /** What the model is asked to summarise: everything between the system message and the last `keep` messages. */
  lemma {:induction false} SummaryIsAskedFor(ms: seq<Message>, keep: nat, prompt: PromptText)
    requires Request(ms, keep)
    ensures |ms| - 1 <= keep ==> SummaryRequests(ms, keep, prompt) == []
    ensures |ms| - 1 > keep > 0 ==>
      exists cut: seq<Message>, state: Continuity.State ::
        && |cut| == |ms| - 1 - keep && (forall i :: 0 <= i < |cut| ==> cut[i] == ms[1 + i])
        && |Contents(cut)| == |cut| && (forall i :: 0 <= i < |cut| ==> Contents(cut)[i] == ContentOf(ms[1 + i]))
        && state == Continuity.ExtractFrom(Contents(cut), Continuity.NOTHING)
        && SummaryRequests(ms, keep, prompt) == [[User(prompt(state, cut))]]
  {
    hide Conversation;
    SplitRequest(ms, keep);
    if |ms| - 1 > keep > 0 {
      var cut := ms[1..|ms| - keep];
      assert AllButLast(ms[1..], keep) == cut;
      assert SummaryRequests(ms, keep, prompt)
        == [[User(prompt(Continuity.ExtractFrom(Contents(cut), Continuity.NOTHING), cut))]];
    }
  }

  /** With no orphans allowed a conversation is complete items, and a summary may stand in front of them. */
  lemma {:induction false} SummaryInFront(ms: seq<Message>, summary: Message)
    requires Conversation(ms, 0) && PlainAssistant(summary)
    ensures Conversation([summary] + ms, 0)
  {
    if ms != [] {
      assert ms[1..][0..] == ms[1..];
    }
    assert ([summary] + ms)[1..] == ms;
  }

  lemma {:induction false} SummaryIsPlain(cut: seq<Message>, body: Option<string>)
    ensures PlainAssistant(SummaryOf(cut, body))
  {
  }

  lemma {:induction false} SummaryInFrontOfLast(conversation: seq<Message>, keep: nat, summary: Message)
    requires Conversation(conversation, keep) && |conversation| > keep && PlainAssistant(summary)
    ensures Conversation([summary] + Last(conversation, keep), keep)
  {
    hide Conversation, PlainAssistant;
    if keep == 0 {
      SummaryInFront(conversation, summary);
    } else {
      SummaryKeepsConversation(conversation, |conversation| - keep, summary, keep);
    }
  }

  lemma {:induction false} LastLength(conversation: seq<Message>, keep: nat)
    requires |conversation| > keep
    ensures |Last(conversation, keep)| == if keep == 0 then |conversation| else keep
  {
  }

  /** A request is still a request after compression, wherever the cut falls. */
  lemma {:induction false} CompressKeepsRequest(ms: seq<Message>, keep: nat, summary: Option<Option<string>>)
    requires Request(ms, keep)
    ensures Request(Compress(ms, keep, summary), keep)
    ensures |ms| - 1 > keep >= 1 && summary.Some? ==> |Compress(ms, keep, summary)| == keep + 2 <= |ms|
  {
    hide Conversation, SummaryOf, Systems, NonSystem, PlainAssistant;
    SplitRequest(ms, keep);
    if |ms| - 1 > keep && summary.Some? {
      CompressedRequest(ms, keep, summary);
      hide Compress, AllButLast, Last;
      var conversation := ms[1..];
      var s := SummaryOf(AllButLast(conversation, keep), summary.value);
      SummaryIsPlain(AllButLast(conversation, keep), summary.value);
      assert ([ms[0]] + [s] + Last(conversation, keep))[1..] == [s] + Last(conversation, keep);
      SummaryInFrontOfLast(conversation, keep, s);
      LastLength(conversation, keep);
    }
  }

  /** With nothing to keep, compression cuts nothing and makes the list longer. */
  lemma {:induction false} KeepingNothingCutsNothing(ms: seq<Message>, summary: Option<Option<string>>)
    requires Request(ms, 0) && |ms| > 1 && summary.Some?
    ensures Compress(ms, 0, summary) == [ms[0], SummaryOf([], summary.value)] + ms[1..]
  {
    CompressedRequest(ms, 0, summary);
  }
}
