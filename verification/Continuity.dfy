/**
 * The continuity state that survives context compression: a block of `- Label: value` lines printed into the
 * summary message, and the line patterns that read it back from any message.
 */
module Continuity {
  import opened Options
  import opened TextTools
  import opened WorkflowPlan

  const SUMMARY_HEADER := "[Conversation Summary]"
  const BLOCK_HEADER := "[Continuity State]"

  const STAGE_LABEL := "Current stage"
  const BLOCKER_LABEL := "Blocker"
  const NEXT_STEP_LABEL := "Next step"

  /** The two spellings a pattern accepts, lower case. */
  datatype Pattern = Pattern(first: string, second: string)

  const STAGE_PATTERN := Pattern("current stage", "stage")
  const BLOCKER_PATTERN := Pattern("active blocker", "blocker")
  const NEXT_STEP_PATTERN := Pattern("next step", "suggested next step")
  const PENDING_PATTERN := Pattern("pending question", "pending questions")

  const PENDING_LINES := ["- pending questions:", "* pending questions:"]
  const QUESTION_HINTS := ["please provide", "which ", "what ", "confirm", "clarify"]

  predicate IsMark(c: char) {
    c == '-' || c == '*'
  }

  function StripMarksFront(s: string): string {
    if s != [] && IsMark(s[0]) then StripMarksFront(s[1..]) else s
  }

  function StripMarksBack(s: string): string {
    if s != [] && IsMark(s[|s| - 1]) then StripMarksBack(s[..|s| - 1]) else s
  }

  /** `_clean_continuity_value` */
  function Clean(value: string): string {
    StripMarksBack(StripMarksFront(Squeeze(value)))
  }

  // ---- the line patterns ----

  predicate LineStart(s: string, i: nat)
    requires i <= |s|
  {
    i == 0 || s[i - 1] == '\n'
  }

  function LineEnd(s: string, i: nat): (r: nat)
    requires i <= |s|
    ensures i <= r <= |s|
    ensures forall j :: i <= j < r ==> s[j] != '\n'
    ensures r < |s| ==> s[r] == '\n'
    decreases |s| - i
  {
    if i < |s| && s[i] != '\n' then LineEnd(s, i + 1) else i
  }

  /** The last line feed in `s[lo..hi]`, or `lo`. */
  function LastLineFeed(s: string, lo: nat, hi: nat): (r: nat)
    requires lo <= hi <= |s|
    ensures lo <= r <= hi
    ensures forall j :: r < j < hi ==> s[j] != '\n'
  {
    if lo == hi || s[hi - 1] == '\n' then (if lo == hi then lo else hi - 1) else LastLineFeed(s, lo, hi - 1)
  }

  predicate SpelledAt(s: string, i: nat, spelling: string) {
    i + |spelling| <= |s| && forall j :: 0 <= j < |spelling| ==> Fold(s[i + j]) == spelling[j]
  }

  predicate ColonAt(s: string, i: nat)
    requires i <= |s|
  {
    SkipSpace(s, i) < |s| && s[SkipSpace(s, i)] == ':'
  }

  /** The position behind the label and its colon, for a label of the pattern at position `i`. */
  function AfterLabel(s: string, i: nat, p: Pattern): (r: Option<nat>)
    requires i <= |s|
    ensures r.Some? ==> i < r.value <= |s| && s[r.value - 1] == ':'
  {
    if SpelledAt(s, i, p.first) && ColonAt(s, i + |p.first|) then Some(SkipSpace(s, i + |p.first|) + 1)
    else if SpelledAt(s, i, p.second) && ColonAt(s, i + |p.second|) then Some(SkipSpace(s, i + |p.second|) + 1)
    else None
  }

  datatype Match = Match(value: string, end: nat)

  function BlankValue(s: string, lo: nat, hi: nat): (r: Option<Match>)
    requires lo <= hi <= |s|
    ensures r.Some? ==> r.value.end == |s|
  {
    if lo == hi then None
    else if s[hi - 1] != '\n' then Some(Match([s[hi - 1]], |s|))
    else BlankValue(s, lo, hi - 1)
  }

  /** The value behind the colon: the rest of the first line that is not blank, without outer white space. */
  function ValueFrom(s: string, i: nat): (r: Option<Match>)
    requires i <= |s|
    ensures r.Some? ==> i <= r.value.end <= |s|
  {
    var e := SkipSpace(s, i);
    if e < |s| then
      var q := TrimEnd(s, e, LineEnd(s, e));
      var t := SkipSpace(s, q);
      Some(Match(s[e..q], if t == |s| then t else LastLineFeed(s, q, t)))
    else
      // Only white space is left: the pattern falls back to its last character that is not a line feed.
      BlankValue(s, i, |s|)
  }

  /** A match of the pattern that starts at the line start `i`. */
  function MatchAt(s: string, i: nat, p: Pattern): (r: Option<Match>)
    requires i <= |s|
    ensures r.Some? ==> i < r.value.end <= |s|
  {
    var a := SkipSpace(s, i);
    if a == |s| || !IsMark(s[a]) then None
    else
      var after := AfterLabel(s, SkipSpace(s, a + 1), p);
      if after.None? then None else ValueFrom(s, after.value)
  }

  /** The values of all matches from position `i` on, as `finditer` yields them. */
  function Values(s: string, i: nat, p: Pattern): seq<string>
    requires i <= |s|
    decreases |s| - i
  {
    var m := if LineStart(s, i) then MatchAt(s, i, p) else None;
    if m.Some? then [m.value.value] + Values(s, m.value.end, p)
    else if i < |s| then Values(s, i + 1, p)
    else []
  }

  /** `_extract_field`: the last match counts. */
  function ExtractField(s: string, p: Pattern): Option<string> {
    var values := Values(s, 0, p);
    if values == [] then None else Some(Clean(values[|values| - 1]))
  }

  // ---- stage, blocker, next step ----

  predicate Truthy(o: Option<string>) {
    o.Some? && o.value != ""
  }

  /** Everything but letters reads as a space. */
  function StageLetter(c: char): string {
    if 'a' <= c <= 'z' || 'A' <= c <= 'Z' || c == '\U{212A}' then LowerChar(c)
    else if c == '\U{130}' then "i "
    else " "
  }

  function StageLetters(s: string): string {
    if s == [] then [] else StageLetter(s[0]) + StageLetters(s[1..])
  }

  function StageNamed(words: string): Option<Stage> {
    if words == "scoping" then Some(Scoping)
    else if words == "data loading" then Some(DataLoading)
    else if words == "profiling" then Some(Profiling)
    else if words == "eda" then Some(Eda)
    else if words == "feature eng" then Some(FeatureEng)
    else if words == "modeling" then Some(Modeling)
    else if words == "evaluation" then Some(Evaluation)
    else if words == "reporting" then Some(Reporting)
    else None
  }

  function StageOfText(text: string): Option<Stage> {
    StageNamed(Squeeze(StageLetters(text)))
  }

  function ExtractStage(s: string): Option<Stage> {
    var extracted := ExtractField(s, STAGE_PATTERN);
    if extracted.None? then None else StageOfText(extracted.value)
  }

  function NestedItem(line: string): Option<string> {
    if |line| >= 2 && IsMark(line[0]) && IsSpace(line[1]) then Some(Clean(line[SkipSpace(line, 1)..])) else None
  }

  /** The first item under a line that announces pending questions. */
  function PendingQuestion(lines: seq<string>, capture: bool): Option<string> {
    if lines == [] then None
    else
      var stripped := Strip(lines[0]);
      if stripped == [] then PendingQuestion(lines[1..], capture)
      else if Lower(stripped) in PENDING_LINES then PendingQuestion(lines[1..], true)
      else if capture && NestedItem(stripped).Some? then NestedItem(stripped)
      else PendingQuestion(lines[1..], false)
  }

  method ExtractPendingQuestion(text: string) returns (r: Option<string>)
    ensures r == PendingQuestion(SplitLines(text), false)
  {
    var capture := false;
    var lines := SplitLines(text);
    for k := 0 to |lines|
      invariant PendingQuestion(lines, false) == PendingQuestion(lines[k..], capture)
    {
      assert lines[k..][1..] == lines[k + 1..];
      var stripped := Strip(lines[k]);
      if stripped == [] {
        continue;
      }
      if Lower(stripped) in PENDING_LINES {
        capture := true;
        continue;
      }
      if capture {
        var item := NestedItem(stripped);
        if item.Some? {
          return item;
        }
        capture := false;
      }
    }
    r := None;
  }

  predicate EndsSentence(c: char) {
    c == '.' || c == '!' || c == '?' || c == '\n'
  }

  function SentenceEnd(s: string): (r: nat)
    ensures r <= |s|
    ensures r < |s| ==> EndsSentence(s[r])
    ensures forall j :: 0 <= j < r ==> !EndsSentence(s[j])
  {
    if s == [] || EndsSentence(s[0]) then 0 else 1 + SentenceEnd(s[1..])
  }

  function QuestionMarks(s: string): (r: nat)
    ensures r <= |s|
  {
    if s == [] || s[0] != '?' then 0 else 1 + QuestionMarks(s[1..])
  }

  /** `findall(r"[^.!?\n]*\?+", s)` */
  function Questions(s: string): seq<string>
    decreases |s|
  {
    var n := SentenceEnd(s);
    if n == |s| then []
    else if s[n] == '?' then
      var k := 1 + QuestionMarks(s[n + 1..]);
      [s[..n + k]] + Questions(s[n + k..])
    else Questions(s[n + 1..])
  }

  predicate Hinted(question: string) {
    exists k :: 0 <= k < |QUESTION_HINTS| && Contains(Lower(Clean(question)), QUESTION_HINTS[k])
  }

  /** The last question with a hint in it. */
  function LastHinted(questions: seq<string>): Option<string> {
    if questions == [] then None
    else
      var last := questions[|questions| - 1];
      if Hinted(last) then Some(Clean(last)) else LastHinted(questions[..|questions| - 1])
  }

  function ExtractBlocker(s: string): Option<string> {
    if Truthy(ExtractField(s, BLOCKER_PATTERN)) then ExtractField(s, BLOCKER_PATTERN)
    else if Truthy(ExtractField(s, PENDING_PATTERN)) then ExtractField(s, PENDING_PATTERN)
    else if Truthy(PendingQuestion(SplitLines(s), false)) then PendingQuestion(SplitLines(s), false)
    else LastHinted(Questions(s))
  }

  // ---- the state over messages ----

  datatype State = State(stage: Option<Stage>, blocker: Option<string>, nextStep: Option<string>)

  const NOTHING := State(None, None, None)

  predicate HasContent(s: State) {
    s.stage.Some? || Truthy(s.blocker) || Truthy(s.nextStep)
  }

  predicate Complete(s: State) {
    s.stage.Some? && Truthy(s.blocker) && Truthy(s.nextStep)
  }

  /** What is still missing is looked for in one more message. */
  function Absorb(s: State, content: string): State {
    State(
      if s.stage.None? then ExtractStage(content) else s.stage,
      if Truthy(s.blocker) then s.blocker else ExtractBlocker(content),
      if Truthy(s.nextStep) then s.nextStep else ExtractField(content, NEXT_STEP_PATTERN))
  }

  /** The messages are read newest first. */
  function ExtractFrom(contents: seq<Option<string>>, s: State): State {
    if contents == [] || Complete(s) then s
    else
      var content := Strip(GetOr(contents[|contents| - 1], ""));
      ExtractFrom(contents[..|contents| - 1], if content == "" then s else Absorb(s, content))
  }

  method ExtractContinuityState(contents: seq<Option<string>>) returns (s: State)
    ensures s == ExtractFrom(contents, NOTHING)
  {
    s := NOTHING;
    var k := |contents|;
    assert contents[..k] == contents;
    while k > 0
      invariant 0 <= k <= |contents|
      invariant ExtractFrom(contents, NOTHING) == ExtractFrom(contents[..k], s)
      invariant !Complete(s)
    {
      k := k - 1;
      assert contents[..k + 1][..k] == contents[..k];
      var content := Strip(GetOr(contents[k], ""));
      if content == "" {
        continue;
      }
      if s.stage.None? {
        s := s.(stage := ExtractStage(content));
      }
      if !Truthy(s.blocker) {
        s := s.(blocker := ExtractBlocker(content));
      }
      if !Truthy(s.nextStep) {
        s := s.(nextStep := ExtractField(content, NEXT_STEP_PATTERN));
      }
      if Complete(s) {
        break;
      }
    }
  }

  // ---- printing ----

  datatype Field = Field(caption: string, value: string)

  function Line(f: Field): string {
    "- " + f.caption + ": " + f.value
  }

  function Render(fields: seq<Field>): string {
    if fields == [] then [] else ['\n'] + Line(fields[0]) + Render(fields[1..])
  }

  function FieldsOf(s: State): seq<Field> {
    (if s.stage.Some? then [Field(STAGE_LABEL, StageId(s.stage.value))] else [])
    + (if Truthy(s.blocker) then [Field(BLOCKER_LABEL, s.blocker.value)] else [])
    + (if Truthy(s.nextStep) then [Field(NEXT_STEP_LABEL, s.nextStep.value)] else [])
  }

  /** The content of the summary message: header, continuity block if any, and the model's own summary if any. */
  function SummaryContent(s: State, body: Option<string>): string {
    SUMMARY_HEADER
    + (if HasContent(s) then "\n\n" + BLOCK_HEADER + Render(FieldsOf(s)) else "")
    + (if Truthy(body) then "\n\n" + body.value else "")
  }
}
