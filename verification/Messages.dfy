/**
 * Chat messages and the grammar providers require of a message list: a system message, then user messages,
 * plain assistant messages and tool groups, where a tool group is an assistant message with k tool calls
 * followed by the k tool messages that answer them, in order.
 */
module Messages {
  import opened Options

  datatype ToolCall = ToolCall(id: string, name: string)

  datatype Message =
    | System(text: string)
    | User(text: string)
    | Assistant(content: Option<string>, calls: seq<ToolCall>)
    | Tool(callId: string, name: string, text: string)

  predicate PlainAssistant(m: Message) {
    m.Assistant? && m.calls == []
  }

  /** The next messages answer the calls one by one. */
  predicate Answers(ms: seq<Message>, calls: seq<ToolCall>) {
    && |calls| <= |ms|
    && forall i :: 0 <= i < |calls| ==> ms[i].Tool? && ms[i].callId == calls[i].id && ms[i].name == calls[i].name
  }

  /** A list of complete items: user messages, plain assistant messages and tool groups. */
  predicate Items(ms: seq<Message>)
    decreases |ms|
  {
    ms == [] ||
    match ms[0]
    case System(_) => false
    case Tool(_, _, _) => false
    case User(_) => Items(ms[1..])
    case Assistant(_, calls) => Answers(ms[1..], calls) && Items(ms[1 + |calls|..])
  }

  function LeadingTools(ms: seq<Message>): (n: nat)
    ensures n <= |ms|
    ensures forall i :: 0 <= i < n ==> ms[i].Tool?
    ensures n < |ms| ==> !ms[n].Tool?
  {
    if ms == [] || !ms[0].Tool? then 0 else 1 + LeadingTools(ms[1..])
  }

  /** Tool messages whose group was cut off, then complete items. */
  predicate OrphansThenItems(ms: seq<Message>) {
    Items(ms[LeadingTools(ms)..])
  }

  /**
   * A conversation: complete items, or a summary followed by at most `keep` tool messages whose group was cut
   * off, followed by complete items.
   */
  predicate Conversation(ms: seq<Message>, keep: nat) {
    || Items(ms)
    || (ms != [] && PlainAssistant(ms[0]) && LeadingTools(ms[1..]) <= keep && OrphansThenItems(ms[1..]))
  }

  /** What the provider is sent: one system message, at the front of a conversation. */
  predicate Request(ms: seq<Message>, keep: nat) {
    ms != [] && ms[0].System? && Conversation(ms[1..], keep)
  }

  // ---- the grammar under concatenation and cutting ----

  lemma {:induction false} ItemsConcat(a: seq<Message>, b: seq<Message>)
    requires Items(a)
    ensures Items(a + b) <==> Items(b)
    decreases |a|
  {
    if a == [] {
      assert a + b == b;
    } else {
      var k := if a[0].Assistant? then 1 + |a[0].calls| else 1;
      assert (a + b)[0] == a[0] && (a + b)[k..] == a[k..] + b;
      ItemsConcat(a[k..], b);
      if a[0].Assistant? {
        assert forall i :: 0 <= i < |a[0].calls| ==> (a + b)[1..][i] == a[1..][i];
      }
    }
  }

  lemma {:induction false} ItemsHaveNoLeadingTools(ms: seq<Message>)
    requires Items(ms)
    ensures LeadingTools(ms) == 0
  {
  }

  lemma {:induction false} LeadingToolsConcat(a: seq<Message>, b: seq<Message>)
    requires LeadingTools(b) == 0
    ensures LeadingTools(a + b) == LeadingTools(a)
  {
    if a == [] {
      assert a + b == b;
    } else {
      assert (a + b)[1..] == a[1..] + b;
      LeadingToolsConcat(a[1..], b);
    }
  }

  /** Complete items can be added to a conversation. */
  lemma {:induction false} ConversationGrows(ms: seq<Message>, items: seq<Message>, keep: nat)
    requires Conversation(ms, keep) && Items(items)
    ensures Conversation(ms + items, keep)
  {
    hide Items, LeadingTools, PlainAssistant;
    if Items(ms) {
      ItemsConcat(ms, items);
    } else {
      var tail := ms[1..];
      assert (ms + items)[1..] == tail + items && (ms + items)[0] == ms[0];
      ItemsHaveNoLeadingTools(items);
      LeadingToolsConcat(tail, items);
      var n := LeadingTools(tail);
      assert (tail + items)[n..] == tail[n..] + items;
      ItemsConcat(tail[n..], items);
    }
  }

  lemma {:induction false} DropLeadingTools(ms: seq<Message>, n: nat)
    requires n <= LeadingTools(ms)
    ensures LeadingTools(ms[n..]) == LeadingTools(ms) - n
  {
    if n > 0 {
      assert ms[1..][n - 1..] == ms[n..];
      DropLeadingTools(ms[1..], n - 1);
    } else {
      assert ms[0..] == ms;
    }
  }

  lemma {:induction false} CutGroup(ms: seq<Message>, n: nat, k: nat)
    requires 0 < n <= k <= |ms| && Items(ms[k..]) && forall i :: n <= i < k ==> ms[i].Tool?
    ensures OrphansThenItems(ms[n..])
    decreases k - n
  {
    var tail := ms[n..];
    if n == k {
      ItemsHaveNoLeadingTools(tail);
      assert tail[0..] == tail;
    } else {
      CutGroup(ms, n + 1, k);
      assert tail[0].Tool? && tail[1..] == ms[n + 1..];
      assert tail[1 + LeadingTools(tail[1..])..] == tail[1..][LeadingTools(tail[1..])..];
    }
  }

  /** Any cut through complete items leaves cut-off tool messages followed by complete items. */
  lemma {:induction false} CutItems(ms: seq<Message>, n: nat)
    requires Items(ms) && n <= |ms|
    ensures OrphansThenItems(ms[n..])
    decreases |ms|
  {
    if n == 0 {
      assert ms[0..] == ms;
      ItemsHaveNoLeadingTools(ms);
    } else {
      var k := if ms[0].Assistant? then 1 + |ms[0].calls| else 1;
      if n >= k {
        CutItems(ms[k..], n - k);
        assert ms[k..][n - k..] == ms[n..];
      } else {
        CutGroup(ms, n, k);
      }
    }
  }

  lemma {:induction false} CutOrphans(ms: seq<Message>, n: nat)
    requires OrphansThenItems(ms) && n <= |ms|
    ensures OrphansThenItems(ms[n..])
  {
    var k := LeadingTools(ms);
    if n <= k {
      DropLeadingTools(ms, n);
      assert ms[n..][k - n..] == ms[k..];
    } else {
      CutItems(ms[k..], n - k);
      assert ms[k..][n - k..] == ms[n..];
    }
  }

  /** Cutting the front off a conversation and putting a summary there gives a conversation again. */
  lemma {:induction false} SummaryKeepsConversation(ms: seq<Message>, n: nat, summary: Message, keep: nat)
    requires Conversation(ms, keep) && 0 < n <= |ms| && |ms| - n <= keep && PlainAssistant(summary)
    ensures Conversation([summary] + ms[n..], keep)
  {
    if Items(ms) {
      CutItems(ms, n);
    } else {
      CutOrphans(ms[1..], n - 1);
      assert ms[1..][n - 1..] == ms[n..];
    }
    assert ([summary] + ms[n..])[1..] == ms[n..];
  }

  // ---- system messages ----

  /** `[m for m in messages if m.role != SYSTEM]` */
  function NonSystem(ms: seq<Message>): seq<Message> {
    if ms == [] then [] else (if ms[0].System? then [] else [ms[0]]) + NonSystem(ms[1..])
  }

  function Systems(ms: seq<Message>): seq<Message> {
    if ms == [] then [] else (if ms[0].System? then [ms[0]] else []) + Systems(ms[1..])
  }

  predicate NoSystem(ms: seq<Message>) {
    forall m :: m in ms ==> !m.System?
  }

  lemma {:induction false} WithoutSystem(ms: seq<Message>)
    requires NoSystem(ms)
    ensures NonSystem(ms) == ms && Systems(ms) == []
  {
    if ms != [] {
      assert ms[0] in ms;
      WithoutSystem(ms[1..]);
      assert [ms[0]] + ms[1..] == ms;
    }
  }

  lemma {:induction false} ItemsHaveNoSystem(ms: seq<Message>)
    requires Items(ms)
    ensures NoSystem(ms)
    decreases |ms|
  {
    if ms != [] {
      var k := if ms[0].Assistant? then 1 + |ms[0].calls| else 1;
      ItemsHaveNoSystem(ms[k..]);
      forall m | m in ms ensures !m.System? {
        var i :| 0 <= i < |ms| && ms[i] == m;
        if i >= k {
          assert ms[k..][i - k] == m;
        } else if i > 0 {
          assert ms[1..][i - 1].Tool?;
        }
      }
    }
  }

  /** There is no system message in a conversation. */
  lemma {:induction false} ConversationHasNoSystem(ms: seq<Message>, keep: nat)
    requires Conversation(ms, keep)
    ensures NoSystem(ms)
  {
    hide Items;
    if Items(ms) {
      ItemsHaveNoSystem(ms);
    } else {
      var tail := ms[1..];
      var n := LeadingTools(tail);
      ItemsHaveNoSystem(tail[n..]);
      assert ms == [ms[0]] + tail[..n] + tail[n..];
      assert forall m :: m in tail[..n] ==> m.Tool?;
    }
  }

  /** Taking a request apart gives back its one system message and its conversation. */
  /** Every message of any list is either among the system messages or among the others, as often as in the list. */
  lemma {:induction false} SplitIsPartition(ms: seq<Message>)
    ensures multiset(Systems(ms)) + multiset(NonSystem(ms)) == multiset(ms)
    ensures (forall m :: m in Systems(ms) ==> m.System?) && (forall m :: m in NonSystem(ms) ==> !m.System?)
  {
    if ms != [] {
      assert ms == [ms[0]] + ms[1..];
      SplitIsPartition(ms[1..]);
    }
  }

  lemma {:induction false} SplitRequest(ms: seq<Message>, keep: nat)
    requires Request(ms, keep)
    ensures Systems(ms) == [ms[0]] && NonSystem(ms) == ms[1..]
  {
    ConversationHasNoSystem(ms[1..], keep);
    WithoutSystem(ms[1..]);
  }
}
