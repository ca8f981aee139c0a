/** What the extractors find in the text of a whole summary message. */
module ContinuityText {
  import opened Options
  import opened TextTools
  import opened WorkflowPlan
  import opened Continuity
  import opened ContinuityScan

  // ---- the headers hold no field ----

  ghost predicate Header(h: string) {
    h != "" && h[0] == '[' && NoLineFeed(h)
  }

  lemma {:induction false} NoMatchAtHeader(s: string, i: nat, p: Pattern)
    requires i < |s|
    requires s[i] == '[' || (i + 1 < |s| && s[i] == '\n' && s[i + 1] == '[')
    ensures MatchAt(s, i, p) == None
  {
    SkipSpaceStops(s, i, if s[i] == '[' then i else i + 1);
  }

  lemma {:induction false} HeadersSkipped(h1: string, h2: string, rest: string, p: Pattern)
    requires Header(h1) && Header(h2)
    ensures var pre := h1 + "\n\n" + h2; Values(pre + rest, 0, p) == Values(pre + rest, |pre|, p)
  {
    hide MatchAt, Values;
    var pre := h1 + "\n\n" + h2;
    var s, n := pre + rest, |h1|;
    assert forall j :: 0 <= j < n ==> s[j] == h1[j];
    assert s[n] == '\n' && s[n + 1] == '\n';
    assert forall j :: 0 <= j < |h2| ==> s[n + 2 + j] == h2[j];
    assert s[n + 2 + 0] == '[';
    forall j | 0 <= j < |pre| ensures !LineStart(s, j) || MatchAt(s, j, p).None? {
      if j == 0 || j == n + 1 || j == n + 2 {
        NoMatchAtHeader(s, j, p);
      } else if j <= n {
        assert s[j - 1] == h1[j - 1];
      } else {
        assert s[n + 2 + (j - 1 - n - 2)] == h2[j - 1 - n - 2];
      }
    }
    SkipUnmatched(s, 0, |pre|, p);
  }

  // ---- the text of a summary ----

  function Headers(): string {
    SUMMARY_HEADER + "\n\n" + BLOCK_HEADER
  }

  function Text(fields: seq<Field>, tail: string): string {
    Headers() + Render(fields) + tail
  }

  lemma {:induction false} HeadersAreHeaders()
    ensures Header(SUMMARY_HEADER) && Header(BLOCK_HEADER)
    ensures Headers() != "" && Headers()[0] == '[' && Headers()[|Headers()| - 1] == ']'
  {
  }

  lemma {:induction false} RenderCons(pre: string, fields: seq<Field>)
    requires fields != []
    ensures pre + Render(fields) == pre + (['\n'] + Line(fields[0])) + Render(fields[1..])
  {
    hide Line;
  }

  lemma {:induction false} RenderLineCons(x: string, fields: seq<Field>, rest: string)
    requires fields != []
    ensures x + Render(fields) + rest == x + ['\n'] + (Line(fields[0]) + Render(fields[1..]) + rest)
  {
    hide Line;
  }

  lemma {:induction false} BlockEnds(pre: string, fields: seq<Field>)
    requires AllPrintable(fields) && pre != "" && pre[|pre| - 1] != '\n'
    ensures var s := pre + Render(fields); s != "" && s[|s| - 1] != '\n'
    decreases |fields|
  {
    hide Printable, Line, Render;
    if fields == [] {
      NothingRendered();
      assert pre + Render(fields) == pre;
    } else {
      assert fields[0] in fields && forall g :: g in fields[1..] ==> g in fields;
      LineEndsWithoutLineFeed(pre, fields[0]);
      BlockEnds(pre + (['\n'] + Line(fields[0])), fields[1..]);
      RenderCons(pre, fields);
    }
  }

  /** A field read from a summary is the last value found in its lines, cleaned. */
  lemma {:induction false} FieldOfText(fields: seq<Field>, rest: string, p: Pattern)
    requires AllPrintable(fields) && Decided(fields, p) && Closed(fields, rest) && SilentFor(rest, p)
    ensures var found := Found(fields, rest, p);
      ExtractField(Text(fields, rest), p) == if found == [] then None else Some(Clean(found[|found| - 1]))
  {
    hide SUMMARY_HEADER, BLOCK_HEADER, Values, Found, Render, Clean, AllPrintable, Decided, Header, Closed;
    HeadersAreHeaders();
    var block := Render(fields) + rest;
    assert Text(fields, rest) == Headers() + block;
    HeadersSkipped(SUMMARY_HEADER, BLOCK_HEADER, block, p);
    BlockEnds(Headers(), fields);
    SilentBelow(Headers() + Render(fields), rest, p);
    BlockValues(Headers(), fields, rest, p);
  }

  /** Trimmed or not, a value is cleaned to the same text. */
  lemma {:induction false} CleanStripped(v: string)
    ensures Clean(Strip(v)) == Clean(v)
  {
    SqueezeStripped(v);
  }

  // ---- captions and patterns ----

  lemma {:induction false} StageCaption()
    ensures Reads(STAGE_PATTERN, STAGE_LABEL) && Ignores(BLOCKER_PATTERN, STAGE_LABEL)
    ensures Ignores(NEXT_STEP_PATTERN, STAGE_LABEL) && Ignores(PENDING_PATTERN, STAGE_LABEL)
  {
    assert Spells(STAGE_LABEL, STAGE_PATTERN.first);
  }

  lemma {:induction false} BlockerCaption()
    ensures Reads(BLOCKER_PATTERN, BLOCKER_LABEL) && Ignores(STAGE_PATTERN, BLOCKER_LABEL)
    ensures Ignores(NEXT_STEP_PATTERN, BLOCKER_LABEL) && Ignores(PENDING_PATTERN, BLOCKER_LABEL)
  {
    assert Spells(BLOCKER_LABEL, BLOCKER_PATTERN.second);
  }

  lemma {:induction false} NextStepCaption()
    ensures Reads(NEXT_STEP_PATTERN, NEXT_STEP_LABEL) && Ignores(STAGE_PATTERN, NEXT_STEP_LABEL)
    ensures Ignores(BLOCKER_PATTERN, NEXT_STEP_LABEL) && Ignores(PENDING_PATTERN, NEXT_STEP_LABEL)
  {
    assert Spells(NEXT_STEP_LABEL, NEXT_STEP_PATTERN.first);
  }

  // ---- the stage line ----

  lemma {:induction false} StageLettersOf(s: string)
    requires forall c :: c in s ==> 'a' <= c <= 'z' || c == '_'
    ensures |StageLetters(s)| == |s|
    ensures forall i :: 0 <= i < |s| ==> StageLetters(s)[i] == if s[i] == '_' then ' ' else s[i]
  {
    if s != [] {
      assert s[0] in s;
      assert forall c :: c in s[1..] ==> c in s;
      StageLettersOf(s[1..]);
    }
  }

  function StageWords(stage: Stage): string {
    match stage
    case Scoping => "scoping"
    case DataLoading => "data loading"
    case Profiling => "profiling"
    case Eda => "eda"
    case FeatureEng => "feature eng"
    case Modeling => "modeling"
    case Evaluation => "evaluation"
    case Reporting => "reporting"
  }

  /** Letters, and underscores that stand alone inside the word. */
  ghost predicate StageWord(id: string) {
    && id != "" && id[0] != '_' && id[|id| - 1] != '_'
    && (forall i :: 0 <= i < |id| ==> 'a' <= id[i] <= 'z' || id[i] == '_')
    && forall i :: 0 <= i < |id| - 1 ==> id[i] != '_' || id[i + 1] != '_'
  }

  lemma {:induction false} StageIdCharacters(stage: Stage)
    ensures forall i :: 0 <= i < |StageId(stage)| ==> 'a' <= StageId(stage)[i] <= 'z' || StageId(stage)[i] == '_'
  {
  }

  lemma {:induction false} StageIdUnderscores(stage: Stage)
    ensures var id := StageId(stage);
      && id != "" && id[0] != '_' && id[|id| - 1] != '_'
      && forall i :: 0 <= i < |id| - 1 && id[i] == '_' ==> id[i + 1] != '_'
  {
  }

  lemma {:induction false} StageIdLetters(stage: Stage)
    ensures StageWord(StageId(stage))
  {
    StageIdCharacters(stage);
    StageIdUnderscores(stage);
    hide StageId;
  }

  lemma {:induction false} StageWordsOfId(stage: Stage)
    ensures |StageWords(stage)| == |StageId(stage)|
    ensures forall i :: 0 <= i < |StageId(stage)| ==>
      StageWords(stage)[i] == if StageId(stage)[i] == '_' then ' ' else StageId(stage)[i]
  {
  }

  lemma {:induction false} StageNamedByWords(stage: Stage)
    ensures StageNamed(StageWords(stage)) == Some(stage)
  {
  }

  lemma {:induction false} WordIsTidy(s: string)
    requires forall i :: 0 <= i < |s| ==> !IsSpace(s[i])
    ensures Tidy(s)
  {
    hide IsSpace;
  }

  /** A word without white space and without marks at its ends is clean. */
  lemma {:induction false} WordIsClean(s: string)
    requires s != "" && (forall i :: 0 <= i < |s| ==> !IsSpace(s[i])) && !IsMark(s[0]) && !IsMark(s[|s| - 1])
    ensures Clean(s) == s && Strip(s) == s
  {
    hide IsSpace, IsMark, Squeeze, Tidy, SkipSpace, TrimEnd;
    WordIsTidy(s);
    SqueezeTidy(s);
    SkipSpaceStops(s, 0, 0);
    TrimEndStops(s, 0, |s|, |s|);
  }

  lemma {:induction false} StageIdIsWord(stage: Stage)
    ensures StageId(stage) != "" && forall i :: 0 <= i < |StageId(stage)| ==> !IsSpace(StageId(stage)[i])
    ensures !IsMark(StageId(stage)[0]) && !IsMark(StageId(stage)[|StageId(stage)| - 1])
    ensures forall c :: c in StageId(stage) ==> 'a' <= c <= 'z' || c == '_'
  {
    StageIdLetters(stage);
    hide StageId;
  }

  lemma {:induction false} StageWordsAreTidy(stage: Stage)
    ensures Tidy(StageWords(stage))
  {
    StageIdLetters(stage);
    StageWordsOfId(stage);
    hide StageId, StageWords;
  }

  /** A printed stage id reads as that stage. */
  lemma {:induction false} StageRoundTrip(stage: Stage)
    ensures StageOfText(Clean(Strip(StageId(stage)))) == Some(stage)
  {
    hide StageId, StageWords, StageNamed, Clean, Strip, Squeeze, StageLetters, Tidy, IsSpace, IsMark;
    var id, words := StageId(stage), StageWords(stage);
    StageIdIsWord(stage);
    WordIsClean(id);
    StageLettersOf(id);
    StageWordsOfId(stage);
    assert StageLetters(id) == words;
    StageWordsAreTidy(stage);
    SqueezeTidy(words);
    StageNamedByWords(stage);
  }

  // ---- no line of the text announces pending questions ----

  predicate Announces(line: string) {
    Lower(Strip(line)) in PENDING_LINES
  }

  ghost predicate OneLine(s: string) {
    forall c :: c in s ==> !IsLineBreak(c)
  }

  ghost predicate NoColon(s: string) {
    forall j :: 0 <= j < |s| ==> s[j] != ':'
  }

  /** A line that does not announce questions can be left out in front. */
  lemma {:induction false} QuietLineFirst(line: string, lines: seq<string>)
    requires !Announces(line)
    ensures PendingQuestion([line] + lines, false) == PendingQuestion(lines, false)
  {
    assert ([line] + lines)[1..] == lines;
  }

  lemma {:induction false} NothingPending(lines: seq<string>)
    requires forall line :: line in lines ==> !Announces(line)
    ensures PendingQuestion(lines, false) == None
  {
    if lines != [] {
      assert lines[0] in lines && !Announces(lines[0]);
      assert forall line :: line in lines[1..] ==> line in lines;
      NothingPending(lines[1..]);
    }
  }

  lemma {:induction false} LowerKeepsColons(s: string)
    requires NoColon(s)
    ensures NoColon(Lower(s))
  {
    if s != [] { LowerKeepsColons(s[1..]); }
  }

  lemma {:induction false} LowerFront(s: string)
    requires |s| >= 3 && s[0] == '-' && s[1] == ' ' && 'A' <= s[2] <= 'Z'
    ensures |Lower(s)| >= 3 && Lower(s)[2] == (s[2] as int + 32) as char
  {
    assert Lower(s[1..]) == LowerChar(s[1]) + Lower(s[2..]);
    assert Lower(s[2..]) == LowerChar(s[2]) + Lower(s[3..]);
  }

  lemma {:induction false} WithoutColonNoAnnouncement(line: string)
    requires NoColon(line)
    ensures !Announces(line)
  {
    LowerKeepsColons(Strip(line));
    assert PENDING_LINES[0][19] == ':' && PENDING_LINES[1][19] == ':';
  }

  lemma {:induction false} HeaderNoAnnouncement(h: string)
    requires Header(h)
    ensures !Announces(h)
  {
    var to := TrimEnd(h, 0, |h|);
    SkipSpaceStops(h, 0, 0);
    assert to > 0;
    assert Strip(h)[0] == '[';
    assert Lower(Strip(h))[0] == '[';
  }

  /** A caption that starts with a capital letter other than P. */
  predicate Capital(caption: string) {
    caption != "" && 'A' <= caption[0] <= 'Z' && caption[0] != 'P'
  }

  lemma {:induction false} FieldNoAnnouncement(f: Field)
    requires Capital(f.caption)
    ensures !Announces(Line(f))
  {
    var line := Line(f);
    assert line[0] == '-' && line[1] == ' ' && line[2] == f.caption[0];
    SkipSpaceStops(line, 0, 0);
    var to := TrimEnd(line, 0, |line|);
    assert to >= 3;
    var stripped := Strip(line);
    assert stripped == line[..to] && stripped[2] == line[2];
    LowerFront(stripped);
    assert PENDING_LINES[0][2] == 'p' && PENDING_LINES[1][2] == 'p';
  }

  lemma {:induction false} LinesWithoutColon(s: string)
    requires NoColon(s)
    ensures forall line :: line in SplitLines(s) ==> NoColon(line)
    decreases |s|
  {
    hide BreakAt;
    if s != [] {
      var n := BreakAt(s);
      if n < |s| {
        LinesWithoutColon(s[n + if s[n] == '\r' && n + 1 < |s| && s[n + 1] == '\n' then 2 else 1..]);
      }
    }
  }

  ghost predicate Quiet(line: string) {
    OneLine(line) && !Announces(line)
  }

  /** No question is pending in a text that stands below others. */
  ghost predicate NotPending(rest: string) {
    Below(rest) && PendingQuestion(SplitLines(rest), false) == None
  }

  lemma {:induction false} EmptyLineIsQuiet()
    ensures Quiet("")
  {
    WithoutColonNoAnnouncement("");
  }

  lemma {:induction false} NothingPendingIn(x: string)
    requires !Announces(x)
    ensures PendingQuestion([x], false) == None
  {
    hide Announces;
    NothingPending([x]);
  }

  lemma {:induction false} LineAboveRest(x: string, rest: string)
    requires Quiet(x) && NotPending(rest)
    ensures PendingQuestion(SplitLines(x + rest), false) == None
  {
    EmptyLineIsQuiet();
    hide Announces, IsLineBreak, PendingQuestion;
    if rest == "" {
      assert x + rest == x;
      if x != "" {
        SplitOneLine(x);
        NothingPendingIn(x);
      }
    } else {
      hide SplitLines;
      var more := rest[1..];
      assert rest == "" + ['\n'] + more && x + rest == x + ['\n'] + more;
      SplitFirstLine("", more);
      SplitFirstLine(x, more);
      QuietLineFirst("", SplitLines(more));
      QuietLineFirst(x, SplitLines(more));
    }
  }

  /** Neither the lines of a printed block nor the text below announce a question. */
  lemma {:induction false} BlockIsQuiet(x: string, fields: seq<Field>, rest: string)
    requires Quiet(x) && (forall f :: f in fields ==> Quiet(Line(f))) && NotPending(rest)
    ensures PendingQuestion(SplitLines(x + Render(fields) + rest), false) == None
    decreases |fields|
  {
    hide Announces, Line, Render, IsLineBreak, SplitLines, PendingQuestion, NotPending;
    if fields == [] {
      NothingRendered();
      assert x + Render(fields) + rest == x + rest;
      LineAboveRest(x, rest);
    } else {
      var f, others := fields[0], fields[1..];
      assert f in fields && forall g :: g in others ==> g in fields;
      var more := Line(f) + Render(others) + rest;
      RenderLineCons(x, fields, rest);
      SplitFirstLine(x, more);
      QuietLineFirst(x, SplitLines(more));
      BlockIsQuiet(Line(f), others, rest);
    }
  }

  lemma {:induction false} HeadedBlockIsQuiet(h1: string, h2: string, fields: seq<Field>, rest: string)
    requires Quiet(h1) && Quiet(h2) && Quiet("") && (forall f :: f in fields ==> Quiet(Line(f))) && NotPending(rest)
    ensures PendingQuestion(SplitLines(h1 + ['\n'] + ("" + ['\n'] + (h2 + Render(fields) + rest))), false) == None
  {
    hide Announces, Render, Line, IsLineBreak, SplitLines, PendingQuestion;
    var block := h2 + Render(fields) + rest;
    SplitFirstLine(h1, "" + ['\n'] + block);
    SplitFirstLine("", block);
    QuietLineFirst(h1, [""] + SplitLines(block));
    QuietLineFirst("", SplitLines(block));
    BlockIsQuiet(h2, fields, rest);
  }

  lemma {:induction false} SplitHeaders(h1: string, h2: string, block: string, tail: string)
    ensures h1 + "\n\n" + h2 + block + tail == h1 + ['\n'] + ("" + ['\n'] + (h2 + block + tail))
  {
    assert "\n\n" == ['\n'] + ("" + ['\n']);
  }

  lemma {:induction false} HeadersAreOneLine()
    ensures OneLine(SUMMARY_HEADER) && OneLine(BLOCK_HEADER)
  {
  }

  lemma {:induction false} HeadersAreQuiet()
    ensures Quiet(SUMMARY_HEADER) && Quiet(BLOCK_HEADER) && Quiet("")
  {
    hide Announces;
    HeadersAreHeaders();
    HeaderNoAnnouncement(SUMMARY_HEADER);
    HeaderNoAnnouncement(BLOCK_HEADER);
    WithoutColonNoAnnouncement("");
    HeadersAreOneLine();
  }

  lemma {:induction false} TextIsQuiet(fields: seq<Field>, tail: string)
    requires (forall f :: f in fields ==> Quiet(Line(f))) && NotPending(tail)
    ensures PendingQuestion(SplitLines(Text(fields, tail)), false) == None
  {
    hide SUMMARY_HEADER, BLOCK_HEADER, Render, Line, Quiet, SplitLines, PendingQuestion, NotPending;
    HeadersAreQuiet();
    HeadedBlockIsQuiet(SUMMARY_HEADER, BLOCK_HEADER, fields, tail);
    SplitHeaders(SUMMARY_HEADER, BLOCK_HEADER, Render(fields), tail);
  }

  // ---- questions ----

  ghost predicate NoQuestion(s: string) {
    forall j :: 0 <= j < |s| ==> s[j] != '?'
  }

  lemma {:induction false} SentenceEndConcat(a: string, b: string)
    ensures SentenceEnd(a + b) == if SentenceEnd(a) < |a| then SentenceEnd(a) else |a| + SentenceEnd(b)
  {
    if a == [] {
      assert a + b == b;
    } else {
      assert (a + b)[1..] == a[1..] + b;
      if !EndsSentence(a[0]) { SentenceEndConcat(a[1..], b); }
    }
  }

  lemma {:induction false} QuestionMarksConcat(a: string, b: string)
    requires b != "" ==> b[0] != '?'
    ensures QuestionMarks(a + b) == QuestionMarks(a)
  {
    if a == [] {
      assert a + b == b;
    } else {
      assert (a + b)[1..] == a[1..] + b;
      QuestionMarksConcat(a[1..], b);
    }
  }

  lemma {:induction false} QuestionFirst(s: string, n: nat, k: nat)
    requires n == SentenceEnd(s) < |s| && s[n] == '?' && k == 1 + QuestionMarks(s[n + 1..])
    ensures Questions(s) == [s[..n + k]] + Questions(s[n + k..])
  {
    hide SentenceEnd, QuestionMarks, EndsSentence;
  }

  lemma {:induction false} StatementFirst(s: string, n: nat)
    requires n == SentenceEnd(s) < |s| && s[n] != '?'
    ensures Questions(s) == Questions(s[n + 1..])
  {
    hide SentenceEnd, QuestionMarks, EndsSentence;
  }

  lemma {:induction false} NoSentence(s: string)
    ensures SentenceEnd(s) == |s| ==> Questions(s) == []
    ensures (forall j :: 0 <= j < |s| ==> !EndsSentence(s[j])) ==> SentenceEnd(s) == |s|
  {
  }

  /** An unfinished sentence before a line feed is no question. */
  lemma {:induction false} QuestionsAtLineFeed(a: string, b: string)
    requires SentenceEnd(a) == |a| && (b != "" ==> b[0] == '\n')
    ensures Questions(a + b) == Questions(b) && Questions(a) == []
  {
    SentenceEndConcat(a, b);
    assert b != "" ==> SentenceEnd(b) == 0;
    hide Questions, SentenceEnd;
    NoSentence(a);
    if b == "" {
      assert a + b == a;
    } else {
      assert (a + b)[|a|] == b[0] && (a + b)[|a| + 1..] == b[1..];
      StatementFirst(a + b, |a|);
      StatementFirst(b, 0);
    }
  }

  /** No question reaches over a line feed. */
  lemma {:induction false} QuestionsConcat(a: string, b: string)
    requires b != "" ==> b[0] == '\n'
    ensures Questions(a + b) == Questions(a) + Questions(b)
    decreases |a|
  {
    hide Questions, SentenceEnd, QuestionMarks;
    var n := SentenceEnd(a);
    SentenceEndConcat(a, b);
    if n == |a| {
      QuestionsAtLineFeed(a, b);
    } else if a[n] == '?' {
      var marks := a[n + 1..];
      assert (a + b)[n + 1..] == marks + b;
      QuestionMarksConcat(marks, b);
      var k := 1 + QuestionMarks(marks);
      QuestionFirst(a, n, k);
      QuestionFirst(a + b, n, k);
      assert (a + b)[..n + k] == a[..n + k] && (a + b)[n + k..] == a[n + k..] + b;
      QuestionsConcat(a[n + k..], b);
    } else {
      StatementFirst(a, n);
      StatementFirst(a + b, n);
      assert (a + b)[n + 1..] == a[n + 1..] + b;
      QuestionsConcat(a[n + 1..], b);
    }
  }

  lemma {:induction false} WithoutQuestionMark(s: string)
    requires NoQuestion(s)
    ensures Questions(s) == []
    decreases |s|
  {
    var n := SentenceEnd(s);
    if n < |s| {
      WithoutQuestionMark(s[n + 1..]);
    }
  }

  /** Text without sentence ends adds no question at the end. */
  lemma {:induction false} UnfinishedAddsNothing(a: string, b: string)
    requires forall j :: 0 <= j < |b| ==> !EndsSentence(b[j])
    ensures Questions(a + b) == Questions(a)
    decreases |a|
  {
    hide Questions, SentenceEnd, QuestionMarks;
    var n := SentenceEnd(a);
    SentenceEndConcat(a, b);
    assert b != "" ==> b[0] != '?';
    if n == |a| {
      NoSentence(a);
      NoSentence(a + b);
    } else if a[n] == '?' {
      var marks := a[n + 1..];
      assert (a + b)[n + 1..] == marks + b;
      QuestionMarksConcat(marks, b);
      var k := 1 + QuestionMarks(marks);
      QuestionFirst(a, n, k);
      QuestionFirst(a + b, n, k);
      assert (a + b)[..n + k] == a[..n + k] && (a + b)[n + k..] == a[n + k..] + b;
      UnfinishedAddsNothing(a[n + k..], b);
    } else {
      StatementFirst(a, n);
      StatementFirst(a + b, n);
      assert (a + b)[n + 1..] == a[n + 1..] + b;
      UnfinishedAddsNothing(a[n + 1..], b);
    }
  }

  function QuestionsIn(fields: seq<Field>): seq<string> {
    if fields == [] then [] else Questions(Line(fields[0])) + QuestionsIn(fields[1..])
  }

  lemma {:induction false} LineFeedFirst(s: string)
    ensures Questions(['\n'] + s) == Questions(s)
  {
    var t := ['\n'] + s;
    assert SentenceEnd(t) == 0 && t[1..] == s;
  }

  lemma {:induction false} QuestionsOfBlock(pre: string, fields: seq<Field>, rest: string)
    requires Below(rest)
    ensures Questions(pre + Render(fields) + rest) == Questions(pre) + QuestionsIn(fields) + Questions(rest)
    decreases |fields|
  {
    hide Questions, Line, Render;
    if fields == [] {
      NothingRendered();
      assert pre + Render(fields) + rest == pre + rest;
      QuestionsConcat(pre, rest);
    } else {
      var more := Line(fields[0]) + Render(fields[1..]) + rest;
      RenderLineCons(pre, fields, rest);
      assert pre + ['\n'] + more == pre + (['\n'] + more);
      QuestionsConcat(pre, ['\n'] + more);
      LineFeedFirst(more);
      QuestionsOfBlock(Line(fields[0]), fields[1..], rest);
    }
  }

  lemma {:induction false} HeadersHaveNoQuestion()
    ensures NoQuestion(Headers())
  {
  }

  /** The questions of a summary are those of its lines and of the text below. */
  lemma {:induction false} QuestionsOfText(fields: seq<Field>, rest: string)
    requires Below(rest)
    ensures Questions(Text(fields, rest)) == QuestionsIn(fields) + Questions(rest)
  {
    HeadersHaveNoQuestion();
    hide Headers, Questions, QuestionsIn;
    QuestionsOfBlock(Headers(), fields, rest);
    WithoutQuestionMark(Headers());
  }

  lemma {:induction false} LastHintedConcat(a: seq<string>, b: seq<string>)
    ensures LastHinted(a + b) == if LastHinted(b).Some? then LastHinted(b) else LastHinted(a)
  {
    hide Hinted, Clean;
    if b == [] {
      assert a + b == a;
    } else {
      assert (a + b)[..|a + b| - 1] == a + b[..|b| - 1];
      LastHintedConcat(a, b[..|b| - 1]);
    }
  }

  // ---- `strip` on the whole text ----

  function TrimRight(s: string): string {
    s[..TrimEnd(s, 0, |s|)]
  }

  lemma {:induction false} TrimRightConcat(a: string, b: string)
    ensures TrimRight(a + b) == if Blank(b) then TrimRight(a) else a + TrimRight(b)
  {
    var s := a + b;
    if Blank(b) {
      var t := TrimEnd(a, 0, |a|);
      assert forall j :: 0 <= j < |a| ==> s[j] == a[j];
      assert forall j :: |a| <= j < |s| ==> s[j] == b[j - |a|];
      TrimEndStops(s, 0, |s|, t);
    } else {
      var t := TrimEnd(b, 0, |b|);
      assert t > 0;
      assert forall j :: |a| <= j < |s| ==> s[j] == b[j - |a|];
      TrimEndStops(s, 0, |s|, |a| + t);
    }
  }

  lemma {:induction false} TrimRightKeepsCore(v: string)
    requires !Blank(v)
    ensures Strip(TrimRight(v)) == Strip(v) && !Blank(TrimRight(v))
    ensures forall c :: c in TrimRight(v) ==> c in v
  {
    var from, to := Core(v);
    TrimEndStops(v, 0, |v|, to);
    var t := TrimRight(v);
    assert t == v[..to];
    StripIs(t, from, to);
    assert t[from] == v[from];
  }

  lemma {:induction false} StripWithoutIndent(s: string)
    requires s != "" && !IsSpace(s[0])
    ensures Strip(s) == TrimRight(s)
  {
    SkipSpaceStops(s, 0, 0);
  }

  // ---- cleaned values ----

  lemma {:induction false} FrontKeepsCharacters(s: string)
    ensures forall c :: c in StripMarksFront(s) ==> c in s
  {
    if s != "" { FrontKeepsCharacters(s[1..]); }
  }

  lemma {:induction false} BackKeepsCharacters(s: string)
    ensures forall c :: c in StripMarksBack(s) ==> c in s
  {
    if s != "" { BackKeepsCharacters(s[..|s| - 1]); }
  }

  lemma {:induction false} StrippedMarks(s: string)
    ensures forall c :: c in StripMarksBack(StripMarksFront(s)) ==> c in s
  {
    FrontKeepsCharacters(s);
    BackKeepsCharacters(StripMarksFront(s));
  }

  /** Whatever cleaning returns has only plain spaces. */
  lemma {:induction false} CleanIsPlain(v: string)
    ensures Plain(Clean(v))
  {
    SqueezePlain(v);
    StrippedMarks(Squeeze(v));
  }

  lemma {:induction false} FrontNotLonger(s: string)
    ensures |StripMarksFront(s)| <= |s| && (|StripMarksFront(s)| == |s| ==> StripMarksFront(s) == s)
  {
    if s != "" { FrontNotLonger(s[1..]); }
  }

  lemma {:induction false} BackNotLonger(s: string)
    ensures |StripMarksBack(s)| <= |s| && (|StripMarksBack(s)| == |s| ==> StripMarksBack(s) == s)
  {
    if s != "" { BackNotLonger(s[..|s| - 1]); }
  }

  lemma {:induction false} MarksNotLonger(s: string)
    ensures var r := StripMarksBack(StripMarksFront(s)); |r| <= |s| && (|r| == |s| ==> r == s)
  {
    FrontNotLonger(s);
    BackNotLonger(StripMarksFront(s));
  }

  /** Cleaning a recorded value again leaves it alone or makes it shorter, so repeated cleaning comes to rest. */
  lemma {:induction false} CleaningComesToRest(v: string)
    requires Plain(v)
    ensures Clean(v) == v || |Clean(v)| < |v|
  {
    hide Squeeze, StripMarksFront, StripMarksBack, Plain;
    SqueezeShrinks(v);
    SqueezeNotLonger(v);
    MarksNotLonger(Squeeze(v));
  }

  lemma {:induction false} PlainIsOneLine(v: string)
    requires Plain(v)
    ensures NoLineFeed(v) && OneLine(v)
  {
    forall j | 0 <= j < |v| ensures v[j] != '\n' { assert v[j] in v; }
  }

  ghost predicate GoodField(f: Field) {
    && Capital(f.caption) && OneLine(f.caption) && NoLineFeed(f.caption) && Plain(f.value)
    && NoColon(f.caption) && NoQuestion(f.caption)
  }

  lemma {:induction false} GoodFieldFacts(f: Field)
    requires GoodField(f)
    ensures Printable(f) && Quiet(Line(f))
  {
    PlainIsOneLine(f.value);
    FieldNoAnnouncement(f);
    hide Announces, Plain;
    forall c | c in Line(f) ensures !IsLineBreak(c) {
      assert Line(f) == "- " + f.caption + ": " + f.value;
      assert c in "- " || c in f.caption || c in ": " || c in f.value;
    }
  }

  // ---- a caption left without value ----

  /** What stripping leaves of a last line whose value is blank. */
  function BareLine(caption: string): string {
    "- " + caption + ":"
  }

  lemma {:induction false} BareLineCharacters(caption: string)
    ensures var (line, n) := (BareLine(caption), |caption|);
      && |line| == n + 3 && line[0] == '-' && line[1] == ' ' && line[n + 2] == ':'
      && forall j :: 0 <= j < n ==> line[2 + j] == caption[j]
  {
  }

  lemma {:induction false} ValueAtEnd(t: string)
    ensures ValueFrom(t, |t|) == None
  {
  }

  lemma {:induction false} NothingBehindColon(t: string, p: Pattern)
    requires |t| >= 3 && t[0] == '\n' && t[1] == '-' && t[|t| - 1] == ':'
    requires forall j :: 1 <= j < |t| - 1 ==> t[j] != ':' && t[j] != '\n'
    ensures Values(t, 1, p) == []
  {
    SkipSpaceStops(t, 1, 1);
    hide SkipSpace, AfterLabel, IsSpace;
    var after := AfterLabel(t, SkipSpace(t, 2), p);
    if after.Some? { ValueAtEnd(t); }
    assert MatchAt(t, 1, p) == None;
    hide MatchAt;
    SkipUnmatched(t, 1, |t|, p);
    EndOfText(t, p);
  }

  /** Behind a bare caption there is no value to read. */
  lemma {:induction false} BareLineIsSilent(caption: string, p: Pattern)
    requires caption != "" && NoColon(caption) && NoLineFeed(caption)
    ensures SilentFor(['\n'] + BareLine(caption), p)
  {
    BareLineCharacters(caption);
    hide BareLine;
    var t := ['\n'] + BareLine(caption);
    assert forall j :: 0 <= j < |caption| + 3 ==> t[1 + j] == BareLine(caption)[j];
    assert forall j :: 3 <= j < |t| - 1 ==> t[j] == caption[j - 3];
    assert t[1] == '-' && t[2] == ' ' && t[|t| - 1] == ':';
    NothingBehindColon(t, p);
  }

  lemma {:induction false} BareLineIsQuiet(caption: string)
    requires Capital(caption) && OneLine(caption)
    ensures Quiet(BareLine(caption))
  {
    BareLineCharacters(caption);
    var line := BareLine(caption);
    forall c | c in line ensures !IsLineBreak(c) { assert c in "- " || c in caption || c in ":"; }
    SkipSpaceStops(line, 0, 0);
    hide BareLine;
    var to := TrimEnd(line, 0, |line|);
    assert to >= 3;
    var stripped := Strip(line);
    assert stripped == line[..to] && stripped[2] == line[2];
    LowerFront(stripped);
    assert PENDING_LINES[0][2] == 'p' && PENDING_LINES[1][2] == 'p';
  }

  // ---- text that stands below the block ----

  const PATTERNS := [STAGE_PATTERN, BLOCKER_PATTERN, NEXT_STEP_PATTERN, PENDING_PATTERN]

  /** No line matches one of the four patterns or announces a pending question, and no question has a hint in it. */
  ghost predicate Inert(rest: string) {
    && (forall p :: p in PATTERNS ==> SilentFor(rest, p))
    && NotPending(rest) && LastHinted(Questions(rest)) == None
  }

  lemma {:induction false} NothingIsInert()
    ensures Inert("")
  {
  }

  lemma {:induction false} BareLineNotPending(caption: string)
    requires Capital(caption) && OneLine(caption)
    ensures NotPending(['\n'] + BareLine(caption))
  {
    BareLineIsQuiet(caption);
    BareLineCharacters(caption);
    hide BareLine, Announces, IsLineBreak, Capital, SplitLines, PendingQuestion;
    var line := BareLine(caption);
    EmptyLineIsQuiet();
    SplitFirstLine("", line);
    assert "" + ['\n'] + line == ['\n'] + line;
    SplitOneLine(line);
    NothingPendingIn(line);
    QuietLineFirst("", [line]);
  }

  lemma {:induction false} BareLineAsksNothing(caption: string)
    requires NoQuestion(caption)
    ensures LastHinted(Questions(['\n'] + BareLine(caption))) == None
  {
    BareLineCharacters(caption);
    hide BareLine, Questions;
    var rest := ['\n'] + BareLine(caption);
    forall j | 0 <= j < |rest| ensures rest[j] != '?' {
      if j > 0 { assert rest[j] == BareLine(caption)[j - 1]; }
      if 3 <= j < 3 + |caption| { assert rest[j] == caption[j - 3]; }
    }
    WithoutQuestionMark(rest);
  }

  lemma {:induction false} CapitalNotEmpty(caption: string)
    requires Capital(caption)
    ensures caption != ""
  {
  }

  lemma {:induction false} BareLineIsInert(caption: string)
    requires Capital(caption) && OneLine(caption) && NoLineFeed(caption) && NoColon(caption) && NoQuestion(caption)
    ensures Inert(['\n'] + BareLine(caption))
  {
    CapitalNotEmpty(caption);
    hide Capital, OneLine, PATTERNS, BareLine, NoColon, NoLineFeed, NoQuestion, SilentFor, NotPending, Questions;
    forall p | p in PATTERNS ensures SilentFor(['\n'] + BareLine(caption), p) { BareLineIsSilent(caption, p); }
    BareLineNotPending(caption);
    BareLineAsksNothing(caption);
  }

  lemma {:induction false} NoColonNoValue(s: string, i: nat, p: Pattern)
    requires i <= |s| && forall j :: i <= j < |s| ==> s[j] != ':'
    ensures Values(s, i, p) == []
    decreases |s| - i
  {
    hide ValueFrom, LineStart;
    if i < |s| { NoColonNoValue(s, i + 1, p); }
    var a := SkipSpace(s, i);
    if a < |s| {
      var after := AfterLabel(s, SkipSpace(s, a + 1), p);
    }
  }

  /** For instance, text without a colon and without a question mark is inert. */
  lemma {:induction false} PlainProseIsInert(rest: string)
    requires Below(rest) && NoColon(rest) && NoQuestion(rest)
    ensures Inert(rest)
  {
    hide PATTERNS;
    forall p | p in PATTERNS ensures SilentFor(rest, p) {
      if rest != "" { NoColonNoValue(rest, 1, p); }
    }
    LinesWithoutColon(rest);
    forall line | line in SplitLines(rest) ensures !Announces(line) { WithoutColonNoAnnouncement(line); }
    NothingPending(SplitLines(rest));
    WithoutQuestionMark(rest);
  }
}
