/**
 * The self-debugging hook: per tool, the errors since its last success decide the attempt number, whether an
 * error is a repetition, and when to escalate.
 */
module SelfDebug {

  /** A finished tool call; the signature and the shortened message are those of its error text. */
  datatype Call = Call(tool: string, isError: bool, signature: string, message: string)

  datatype Report =
    | Silent
    | Attempt(tool: string, attempt: nat, isRepeated: bool, signature: string)
    | Escalation(tool: string, attempt: nat, errorHistory: seq<string>)

  type Table<T> = map<string, T>

  /** The hook's three dictionaries. */
  datatype Memory = Memory(retries: Table<nat>, signatures: Table<seq<string>>, errors: Table<seq<string>>)

  const EMPTY := Memory(map[], map[], map[])

  /** Reading a `defaultdict`. */
  function Get<T>(table: Table<T>, key: string, default: T): T {
    if key in table then table[key] else default
  }

  function Remembered(m: Memory, c: Call): Memory {
    if !c.isError then
      if c.tool in m.retries
      then m.(retries := m.retries[c.tool := 0], signatures := m.signatures[c.tool := []])
      else m
    else Memory(
      m.retries[c.tool := Get(m.retries, c.tool, 0) + 1],
      m.signatures[c.tool := Get(m.signatures, c.tool, []) + [c.signature]],
      m.errors[c.tool := Get(m.errors, c.tool, []) + [c.message]])
  }

  function Reported(m: Memory, c: Call, maxRetries: int): Report {
    if !c.isError then Silent
    else
      var attempt := Get(m.retries, c.tool, 0) + 1;
      if attempt > maxRetries then Escalation(c.tool, attempt, Get(m.errors, c.tool, []) + [c.message])
      else Attempt(c.tool, attempt, c.signature in Get(m.signatures, c.tool, []), c.signature)
  }

  function Run(calls: seq<Call>): Memory {
    if calls == [] then EMPTY else Remembered(Run(calls[..|calls| - 1]), calls[|calls| - 1])
  }

  class SelfDebugHook {
    const maxRetries: int
    var retryCounts: Table<nat>
    var signatureHistory: Table<seq<string>>
    var errorHistories: Table<seq<string>>

    constructor (maxRetries: int := 3)
      ensures this.maxRetries == maxRetries && State() == EMPTY
    {
      this.maxRetries, retryCounts, signatureHistory, errorHistories := maxRetries, map[], map[], map[];
    }

    function State(): Memory
      reads this
    {
      Memory(retryCounts, signatureHistory, errorHistories)
    }

    method PostToolUse(c: Call) returns (report: Report)
      modifies this
      ensures State() == Remembered(old(State()), c) && report == Reported(old(State()), c, maxRetries)
    {
      if !c.isError {
        if c.tool in retryCounts {
          retryCounts := retryCounts[c.tool := 0];
          signatureHistory := signatureHistory[c.tool := []];
        }
        return Silent;
      }
      var previous := Get(signatureHistory, c.tool, []);
      var isRepeated := c.signature in previous;
      retryCounts := retryCounts[c.tool := Get(retryCounts, c.tool, 0) + 1];
      var attempt := retryCounts[c.tool];
      signatureHistory := signatureHistory[c.tool := previous + [c.signature]];
      errorHistories := errorHistories[c.tool := Get(errorHistories, c.tool, []) + [c.message]];
      if attempt > maxRetries {
        return Escalation(c.tool, attempt, errorHistories[c.tool]);
      }
      report := Attempt(c.tool, attempt, isRepeated, c.signature);
    }
  }

  // ---- what the dictionaries stand for ----

  /** The calls of one tool. */
  function Of(calls: seq<Call>, tool: string): seq<Call> {
    if calls == [] then []
    else
      var last := calls[|calls| - 1];
      Of(calls[..|calls| - 1], tool) + if last.tool == tool then [last] else []
  }

  /** The errors after the last success. */
  function SinceSuccess(calls: seq<Call>): seq<Call> {
    if calls == [] || !calls[|calls| - 1].isError then []
    else SinceSuccess(calls[..|calls| - 1]) + [calls[|calls| - 1]]
  }

  function Errors(calls: seq<Call>): seq<Call> {
    if calls == [] then []
    else
      var last := calls[|calls| - 1];
      Errors(calls[..|calls| - 1]) + if last.isError then [last] else []
  }

  function Signatures(calls: seq<Call>): seq<string> {
    seq(|calls|, i requires 0 <= i < |calls| => calls[i].signature)
  }

  function Messages(calls: seq<Call>): seq<string> {
    seq(|calls|, i requires 0 <= i < |calls| => calls[i].message)
  }

  /** The dictionaries at a tool, in terms of that tool's calls alone. */
  ghost predicate Reflects(m: Memory, own: seq<Call>, tool: string) {
    && Get(m.retries, tool, 0) == |SinceSuccess(own)|
    && Get(m.signatures, tool, []) == Signatures(SinceSuccess(own))
    && Get(m.errors, tool, []) == Messages(Errors(own))
    && (tool !in m.retries ==> SinceSuccess(own) == [] && tool !in m.signatures)
  }

  lemma {:induction false} OneMore(own: seq<Call>, c: Call)
    ensures SinceSuccess(own + [c]) == if c.isError then SinceSuccess(own) + [c] else []
    ensures Errors(own + [c]) == Errors(own) + if c.isError then [c] else []
    ensures Signatures(SinceSuccess(own) + [c]) == Signatures(SinceSuccess(own)) + [c.signature]
    ensures Messages(Errors(own) + [c]) == Messages(Errors(own)) + [c.message]
  {
    assert (own + [c])[..|own|] == own;
  }

  lemma {:induction false} RememberedReflects(m: Memory, own: seq<Call>, c: Call, tool: string)
    requires Reflects(m, own, tool)
    ensures Reflects(Remembered(m, c), own + if c.tool == tool then [c] else [], tool)
  {
    if c.tool == tool {
      OneMore(own, c);
    } else {
      var none: seq<Call> := [];
      assert own + none == own;
    }
  }

  /** After any calls of any tools, what is kept for a tool depends on that tool's calls only. */
  lemma {:induction false} MemoryReflectsTrace(calls: seq<Call>, tool: string)
    ensures Reflects(Run(calls), Of(calls, tool), tool)
  {
    if calls == [] {
      assert Signatures([]) == [] && Messages([]) == [];
    } else {
      hide Reflects, Remembered;
      MemoryReflectsTrace(calls[..|calls| - 1], tool);
      RememberedReflects(Run(calls[..|calls| - 1]), Of(calls[..|calls| - 1], tool), calls[|calls| - 1], tool);
    }
  }

  /**
   * A success is passed over in silence. The report on an error: its attempt number counts the tool's errors since
   * its last success, it is a repetition iff its signature occurred among them, it escalates iff the number passes the
   * limit, and an escalation lists every error the tool ever had.
   */
  lemma {:induction false} ReportOnCall(calls: seq<Call>, c: Call, maxRetries: int)
    ensures var own := Of(calls, c.tool);
      var attempt := |SinceSuccess(own)| + 1;
      Reported(Run(calls), c, maxRetries) ==
        if !c.isError then Silent
        else if attempt > maxRetries then Escalation(c.tool, attempt, Messages(Errors(own + [c])))
        else Attempt(c.tool, attempt, exists e :: e in SinceSuccess(own) && e.signature == c.signature, c.signature)
  {
    var own := Of(calls, c.tool);
    MemoryReflectsTrace(calls, c.tool);
    OneMore(own, c);
    var window := SinceSuccess(own);
    if c.signature in Signatures(window) {
      var i :| 0 <= i < |window| && Signatures(window)[i] == c.signature;
      assert window[i] in window;
    }
    if e :| e in window && e.signature == c.signature {
      var i :| 0 <= i < |window| && window[i] == e;
      assert Signatures(window)[i] == c.signature;
    }
  }

  /** Two histories that agree on a tool's calls get the same report on that tool's next call. */
  lemma {:induction false} OtherToolsDoNotMatter(a: seq<Call>, b: seq<Call>, c: Call, maxRetries: int)
    requires Of(a, c.tool) == Of(b, c.tool)
    ensures Reported(Run(a), c, maxRetries) == Reported(Run(b), c, maxRetries)
  {
    MemoryReflectsTrace(a, c.tool);
    MemoryReflectsTrace(b, c.tool);
  }
}
