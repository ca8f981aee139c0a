/** Reading a summary message back: what it gives for every state that can be recorded, and when that is the state. */
module ContinuityRoundTrip {
  import opened Options
  import opened TextTools
  import opened WorkflowPlan
  import opened Continuity
  import opened ContinuityScan
  import opened ContinuityText

  /** Blocker and next step, where present, have only plain spaces: all that extraction can record. */
  ghost predicate PlainState(s: State) {
    (s.blocker.Some? ==> Plain(s.blocker.value)) && (s.nextStep.Some? ==> Plain(s.nextStep.value))
  }

  function TailOf(body: Option<string>): string {
    if Truthy(body) then "\n\n" + body.value else ""
  }

  /** The model's own summary, as stripping leaves it, below the block. */
  function TextBelow(body: Option<string>): string {
    TrimRight(TailOf(body))
  }

  lemma {:induction false} Reassociate(a: string, b: string, c: string, d: string)
    ensures a + (b + c + d) == (a + b + c) + d
    ensures a + (b + (c + d)) == (a + b + c) + d
  {
  }

  lemma {:induction false} SummaryIsText(s: State, body: Option<string>)
    requires HasContent(s)
    ensures SummaryContent(s, body) == Text(FieldsOf(s), TailOf(body))
  {
    hide SUMMARY_HEADER, BLOCK_HEADER, Render, FieldsOf, HasContent, Truthy;
    Reassociate(SUMMARY_HEADER, "\n\n", BLOCK_HEADER, Render(FieldsOf(s)));
  }

  // ---- the fields of a state ----

  lemma {:induction false} CaptionsAreGood(caption: string)
    requires caption in [STAGE_LABEL, BLOCKER_LABEL, NEXT_STEP_LABEL]
    ensures Capital(caption) && OneLine(caption) && NoLineFeed(caption) && NoColon(caption) && NoQuestion(caption)
  {
  }

  lemma {:induction false} StageIdIsPlain(stage: Stage)
    ensures Plain(StageId(stage)) && !Blank(StageId(stage))
  {
    StageIdIsWord(stage);
    hide StageId, IsSpace;
  }

  ghost predicate GoodFields(fields: seq<Field>) {
    forall f :: f in fields ==> GoodField(f)
  }

  /** The value of one caption, if the state has it. */
  function Entry(present: bool, caption: string, value: string): seq<Field> {
    if present then [Field(caption, value)] else []
  }

  function StageText(s: State): string {
    if s.stage.Some? then StageId(s.stage.value) else ""
  }

  function StageEntry(s: State): seq<Field> {
    Entry(s.stage.Some?, STAGE_LABEL, StageText(s))
  }

  function BlockerEntry(s: State): seq<Field> {
    Entry(Truthy(s.blocker), BLOCKER_LABEL, GetOr(s.blocker, ""))
  }

  function NextStepEntry(s: State): seq<Field> {
    Entry(Truthy(s.nextStep), NEXT_STEP_LABEL, GetOr(s.nextStep, ""))
  }

  lemma {:induction false} FieldsSplit(s: State)
    ensures FieldsOf(s) == StageEntry(s) + (BlockerEntry(s) + NextStepEntry(s))
  {
    hide StageId, STAGE_LABEL, BLOCKER_LABEL, NEXT_STEP_LABEL;
  }

  lemma {:induction false} GoodEntry(present: bool, caption: string, value: string)
    requires caption in [STAGE_LABEL, BLOCKER_LABEL, NEXT_STEP_LABEL] && Plain(value)
    ensures GoodFields(Entry(present, caption, value))
  {
    CaptionsAreGood(caption);
    hide Capital, OneLine, NoLineFeed, NoColon, NoQuestion, Plain, STAGE_LABEL, BLOCKER_LABEL, NEXT_STEP_LABEL;
  }

  lemma {:induction false} NothingIsPlain()
    ensures Plain("")
  {
  }

  lemma {:induction false} FieldsAreGood(s: State)
    requires PlainState(s)
    ensures GoodFields(FieldsOf(s))
  {
    if s.stage.Some? { StageIdIsPlain(s.stage.value); }
    NothingIsPlain();
    hide GoodField, StageId, STAGE_LABEL, BLOCKER_LABEL, NEXT_STEP_LABEL, Plain;
    FieldsSplit(s);
    var labels := [STAGE_LABEL, BLOCKER_LABEL, NEXT_STEP_LABEL];
    assert labels[0] in labels && labels[1] in labels && labels[2] in labels;
    GoodEntry(s.stage.Some?, STAGE_LABEL, StageText(s));
    GoodEntry(Truthy(s.blocker), BLOCKER_LABEL, GetOr(s.blocker, ""));
    GoodEntry(Truthy(s.nextStep), NEXT_STEP_LABEL, GetOr(s.nextStep, ""));
  }

  // ---- stripping the message ----

  /** The field itself, or the field with white space trimmed from the end of a value that is not blank. */
  ghost predicate SameLine(a: Field, b: Field) {
    && a.caption == b.caption && Strip(a.value) == Strip(b.value) && (Blank(a.value) <==> Blank(b.value))
    && Strip(Line(a)) == Strip(Line(b)) && Questions(Line(a)) == Questions(Line(b))
  }

  ghost predicate SameLines(a: seq<Field>, b: seq<Field>) {
    |a| == |b| && forall i :: 0 <= i < |a| ==> SameLine(a[i], b[i])
  }

  lemma {:induction false} TrimmedQuestions(pre: string, v: string)
    requires Plain(v)
    ensures Questions(pre + TrimRight(v)) == Questions(pre + v)
  {
    var t := TrimEnd(v, 0, |v|);
    var spaces := v[t..];
    assert pre + v == (pre + TrimRight(v)) + spaces;
    forall j | 0 <= j < |spaces| ensures !EndsSentence(spaces[j]) {
      assert spaces[j] == v[t + j] && IsSpace(v[t + j]) && v[t + j] in v;
    }
    hide Questions;
    UnfinishedAddsNothing(pre + TrimRight(v), spaces);
  }

  lemma {:induction false} PlainTrimmed(v: string)
    requires Plain(v)
    ensures Plain(TrimRight(v))
  {
    hide IsSpace;
    assert forall c :: c in TrimRight(v) ==> c in v;
  }

  lemma {:induction false} LineIsTrimmed(f: Field)
    requires !Blank(f.value)
    ensures TrimRight(Line(f)) == Line(f.(value := TrimRight(f.value)))
  {
    hide TrimRight, Blank;
    var before := "- " + f.caption + ": ";
    assert Line(f) == before + f.value && Line(f.(value := TrimRight(f.value))) == before + TrimRight(f.value);
    TrimRightConcat(before, f.value);
  }

  lemma {:induction false} TrimEndAfter(s: string)
    requires s != "" && !IsSpace(s[0])
    ensures TrimEnd(s, 0, |s|) > 0
  {
    hide IsSpace;
  }

  lemma {:induction false} LineBegins(f: Field)
    ensures Line(f) != "" && !IsSpace(Line(f)[0]) && TrimRight(Line(f)) != "" && TrimRight(Line(f))[0] == Line(f)[0]
  {
    var line := Line(f);
    assert line[0] == '-';
    TrimEndAfter(line);
  }

  lemma {:induction false} TrimmedTwice(s: string)
    ensures TrimRight(TrimRight(s)) == TrimRight(s)
  {
    var t := TrimRight(s);
    TrimEndStops(t, 0, |t|, |t|);
  }

  lemma {:induction false} StrippedLine(f: Field)
    ensures Strip(Line(f)) == TrimRight(Line(f)) == Strip(TrimRight(Line(f)))
  {
    LineBegins(f);
    hide TrimRight, Strip, Line;
    StripWithoutIndent(Line(f));
    StripWithoutIndent(TrimRight(Line(f)));
    TrimmedTwice(Line(f));
  }

  lemma {:induction false} LineQuestions(f: Field)
    requires Plain(f.value)
    ensures Questions(Line(f.(value := TrimRight(f.value)))) == Questions(Line(f))
  {
    hide Questions, TrimRight;
    var before := "- " + f.caption + ": ";
    assert Line(f) == before + f.value && Line(f.(value := TrimRight(f.value))) == before + TrimRight(f.value);
    TrimmedQuestions(before, f.value);
  }

  lemma {:induction false} TrimmedField(f: Field)
    requires GoodField(f) && !Blank(f.value)
    ensures var g := f.(value := TrimRight(f.value));
      GoodField(g) && SameLine(g, f) && !Blank(g.value) && TrimRight(Line(f)) == Line(g)
  {
    hide Questions, Clean, Strip, TrimRight, Capital, Blank, Plain, Line, OneLine, NoLineFeed, NoColon, NoQuestion;
    var g := f.(value := TrimRight(f.value));
    TrimRightKeepsCore(f.value);
    PlainTrimmed(f.value);
    LineIsTrimmed(f);
    StrippedLine(f);
    LineQuestions(f);
  }

  lemma {:induction false} BareLineEnds(caption: string)
    ensures TrimRight(BareLine(caption)) == BareLine(caption)
  {
    var line := BareLine(caption);
    assert line[|line| - 1] == ':';
    TrimEndStops(line, 0, |line|, |line|);
  }

  lemma {:induction false} BlankAgain(v: string)
    requires Blank(v)
    ensures Blank(" " + v)
  {
    assert IsSpace(' ');
    hide IsSpace;
    assert forall j :: 0 < j < |" " + v| ==> (" " + v)[j] == v[j - 1];
  }

  lemma {:induction false} BlankTail(f: Field)
    requires Blank(f.value)
    ensures TrimRight(Line(f)) == TrimRight(BareLine(f.caption))
  {
    hide TrimRight;
    var spaces := " " + f.value;
    assert Line(f) == BareLine(f.caption) + spaces;
    assert Blank(spaces) by { BlankAgain(f.value); }
    TrimRightConcat(BareLine(f.caption), spaces);
  }

  lemma {:induction false} LineAsksNothing(f: Field)
    requires NoQuestion(f.caption) && (NoQuestion(f.value) || Blank(f.value))
    ensures Questions(Line(f)) == []
  {
    var line, front := Line(f), "- " + f.caption + ": ";
    assert line == front + f.value;
    assert !IsSpace('?');
    hide IsSpace, Questions;
    forall j | 0 <= j < |line| ensures line[j] != '?' {
      if 2 <= j < 2 + |f.caption| {
        assert line[j] == f.caption[j - 2];
      } else if j >= |front| {
        assert line[j] == f.value[j - |front|];
      }
    }
    WithoutQuestionMark(line);
  }

  /** A last line whose value is blank is stripped down to its caption. */
  lemma {:induction false} BareField(f: Field)
    requires GoodField(f) && Blank(f.value)
    ensures TrimRight(Line(f)) == BareLine(f.caption) == Strip(Line(f)) && Questions(Line(f)) == []
  {
    BlankTail(f);
    StrippedLine(f);
    BareLineEnds(f.caption);
    LineAsksNothing(f);
  }

  lemma {:induction false} RenderSnoc(fields: seq<Field>, f: Field)
    ensures Render(fields + [f]) == Render(fields) + (['\n'] + Line(f))
  {
    if fields == [] {
      assert fields + [f] == [f] && Render([]) == [];
    } else {
      assert (fields + [f])[1..] == fields[1..] + [f];
      RenderSnoc(fields[1..], f);
    }
  }

  lemma {:induction false} SameLineItself(f: Field)
    ensures SameLine(f, f)
  {
  }

  lemma {:induction false} ReplacedLast(front: seq<Field>, last: Field, f: Field)
    requires GoodFields(front + [last]) && GoodField(f) && SameLine(f, last)
    ensures GoodFields(front + [f]) && SameLines(front + [f], front + [last])
  {
    hide GoodField, SameLine;
    var before, after := front + [last], front + [f];
    forall i | 0 <= i < |after| ensures SameLine(after[i], before[i]) {
      if i < |front| { SameLineItself(front[i]); }
    }
    forall g | g in after ensures GoodField(g) {
      if g in front { assert g in before; }
    }
  }

  lemma {:induction false} SameLength(a: seq<Field>, b: seq<Field>)
    requires SameLines(a, b)
    ensures |a| == |b|
  {
  }

  lemma {:induction false} SameTail(a: seq<Field>, b: seq<Field>, n: nat)
    requires SameLines(a, b) && n <= |a|
    ensures SameLines(a[n..], b[n..])
  {
    hide SameLine;
    assert forall i :: 0 <= i < |a| - n ==> a[n..][i] == a[n + i] && b[n..][i] == b[n + i];
  }

  lemma {:induction false} SameAt(a: seq<Field>, b: seq<Field>, i: nat)
    requires SameLines(a, b) && i < |a|
    ensures |a| == |b| && SameLine(a[i], b[i])
  {
    hide SameLine;
  }

  /** What is found in the lines depends on what stripping leaves of them. */
  lemma {:induction false} SameFound(a: seq<Field>, b: seq<Field>, below: string, other: string, p: Pattern)
    requires SameLines(a, b) && Blank(below) && Blank(other)
    ensures Found(a, below, p) == Found(b, other, p)
    decreases |a|
  {
    hide Reads, Strip, Questions, Line, Blank, FirstLine, SameLines;
    if a != [] {
      SameAt(a, b, 0);
      SameTail(a, b, 1);
      SameFound(a[1..], b[1..], below, other, p);
      if |a| > 1 {
        SameAt(a, b, 1);
        SameTail(a, b, 2);
        SameFound(a[2..], b[2..], below, other, p);
      }
    } else {
      SameLength(a, b);
    }
  }

  lemma {:induction false} SameCaption(f: Field, g: Field)
    requires SameLine(f, g)
    ensures f.caption == g.caption
  {
  }

  lemma {:induction false} SameDecided(a: seq<Field>, b: seq<Field>, p: Pattern)
    requires SameLines(a, b) && Decided(b, p)
    ensures Decided(a, p)
  {
    hide Reads, Ignores, Strip, Questions, Line, Blank, SameLine;
    forall f | f in a ensures Reads(p, f.caption) || Ignores(p, f.caption) {
      var i :| 0 <= i < |a| && a[i] == f;
      assert b[i] in b;
      SameCaption(a[i], b[i]);
    }
  }

  lemma {:induction false} SameQuestions(a: seq<Field>, b: seq<Field>)
    requires SameLines(a, b)
    ensures QuestionsIn(a) == QuestionsIn(b)
  {
    hide Strip, Questions, Line, Blank, SameLines;
    if a != [] {
      SameAt(a, b, 0);
      SameTail(a, b, 1);
      SameQuestions(a[1..], b[1..]);
    } else {
      SameLength(a, b);
    }
  }

  lemma {:induction false} BareLineIsOneLine(caption: string)
    requires NoLineFeed(caption)
    ensures NoLineFeed(BareLine(caption))
  {
    BareLineCharacters(caption);
    hide BareLine;
    var line := BareLine(caption);
    forall j | 0 <= j < |line| ensures line[j] != '\n' {
      if 2 <= j < 2 + |caption| { assert line[2 + (j - 2)] == caption[j - 2]; }
    }
  }

  lemma {:induction false} BareLineStrip(caption: string)
    ensures Strip(BareLine(caption)) == BareLine(caption)
  {
    BareLineCharacters(caption);
    BareLineEnds(caption);
    hide BareLine, TrimRight;
    StripWithoutIndent(BareLine(caption));
  }

  lemma {:induction false} BareRest(last: Field)
    requires GoodField(last) && Blank(last.value)
    ensures var rest := ['\n'] + BareLine(last.caption);
      !Blank(rest) && FirstLine(rest) == Strip(Line(last))
  {
    BareField(last);
    BareLineCharacters(last.caption);
    var line := BareLine(last.caption);
    assert NoLineFeed(line) by { BareLineIsOneLine(last.caption); }
    hide BareLine, Line, Strip, FirstLine, FirstLineEnd, Blank, GoodField;
    FirstLineAfter(line, "");
    assert ['\n'] + line + "" == ['\n'] + line;
    BareLineStrip(last.caption);
  }

  /** A stripped last line counts as text below the lines before it. */
  lemma {:induction false} FoundAboveBareLine(front: seq<Field>, last: Field, below: string, p: Pattern)
    requires GoodField(last) && Blank(last.value) && Blank(below)
    ensures Found(front + [last], below, p) == Found(front, ['\n'] + BareLine(last.caption), p)
    decreases |front|
  {
    hide GoodField, Blank, Reads, Strip, Line, FirstLine, BareLine;
    var rest := ['\n'] + BareLine(last.caption);
    var fields := front + [last];
    BareRest(last);
    if front == [] {
      assert fields == [last];
    } else {
      assert fields[0] == front[0] && fields[1..] == front[1..] + [last];
      FoundAboveBareLine(front[1..], last, below, p);
      if |front| > 1 {
        assert fields[1] == front[1] && fields[2..] == front[2..] + [last];
        FoundAboveBareLine(front[2..], last, below, p);
      } else {
        assert fields[1] == last && fields[2..] == [];
      }
    }
  }

  /** The lines and the text below them that a stripped summary message shows. */
  ghost predicate Shows(kept: seq<Field>, rest: string, s: State, body: Option<string>) {
    && GoodFields(kept) && Closed(kept, rest) && Inert(rest)
    && QuestionsIn(kept) == QuestionsIn(FieldsOf(s))
    && forall p :: p in PATTERNS && Decided(FieldsOf(s), p) ==>
         Decided(kept, p) && Found(kept, rest, p) == Found(FieldsOf(s), TextBelow(body), p)
  }

  lemma {:induction false} TextStart(fields: seq<Field>, tail: string)
    ensures Text(fields, tail) != "" && !IsSpace(Text(fields, tail)[0])
  {
    HeadersAreHeaders();
    hide Headers, Render;
    assert Text(fields, tail)[0] == Headers()[0];
  }

  lemma {:induction false} StrippedSummary(s: State, body: Option<string>)
    requires HasContent(s)
    ensures Strip(SummaryContent(s, body)) == TrimRight(Headers() + Render(FieldsOf(s)) + TailOf(body))
  {
    hide Strip, Render, TrimRight, SummaryContent, Headers, TailOf, FieldsOf, HasContent;
    SummaryIsText(s, body);
    TextStart(FieldsOf(s), TailOf(body));
    StripWithoutIndent(Text(FieldsOf(s), TailOf(body)));
  }

  lemma {:induction false} TailNotBlank(tail: string)
    requires !Blank(tail)
    ensures !Blank(TrimRight(tail))
  {
    TrimRightKeepsCore(tail);
  }

  lemma {:induction false} ClosedAbove(fields: seq<Field>, rest: string)
    requires !Blank(rest)
    ensures Closed(fields, rest)
  {
  }

  /** With text below the block, every line stays as it was printed. */
  lemma {:induction false} ShowsAll(s: State, body: Option<string>)
    requires GoodFields(FieldsOf(s)) && !Blank(TailOf(body)) && Inert(TextBelow(body))
    ensures Shows(FieldsOf(s), TextBelow(body), s, body)
  {
    hide GoodFields, Blank, TrimRight, Inert, TailOf, FieldsOf, Found, QuestionsIn, Decided, PATTERNS, Closed;
    TailNotBlank(TailOf(body));
    ClosedAbove(FieldsOf(s), TextBelow(body));
  }

  lemma {:induction false} LineNotBlank(f: Field)
    ensures !Blank(Line(f))
  {
    assert Line(f)[0] == '-';
  }

  lemma {:induction false} LastLineTrimmed(front: seq<Field>, last: Field)
    requires GoodField(last)
    ensures var text := TrimRight(Headers() + Render(front + [last]));
      if Blank(last.value) then text == Text(front, ['\n'] + BareLine(last.caption))
      else text == Text(front + [last.(value := TrimRight(last.value))], "")
  {
    hide Headers, Render, Line, TrimRight, Blank, BareLine, GoodField;
    var pre := Headers() + Render(front) + ['\n'];
    RenderSnoc(front, last);
    Reassociate(Headers(), Render(front), ['\n'], Line(last));
    LineNotBlank(last);
    TrimRightConcat(pre, Line(last));
    if Blank(last.value) {
      BareField(last);
      assert pre + BareLine(last.caption) == Headers() + Render(front) + (['\n'] + BareLine(last.caption));
    } else {
      var f := last.(value := TrimRight(last.value));
      TrimmedField(last);
      RenderSnoc(front, f);
      Reassociate(Headers(), Render(front), ['\n'], Line(f));
      assert Headers() + Render(front + [f]) + "" == Headers() + Render(front + [f]);
    }
  }

  lemma {:induction false} BlankTrimmed(tail: string)
    requires Blank(tail)
    ensures TrimRight(tail) == "" && Blank("")
  {
    TrimEndStops(tail, 0, |tail|, 0);
  }

  lemma {:induction false} GoodCaption(f: Field)
    requires GoodField(f)
    ensures Capital(f.caption) && OneLine(f.caption) && NoLineFeed(f.caption)
    ensures NoColon(f.caption) && NoQuestion(f.caption)
  {
  }

  lemma {:induction false} DecidedFront(front: seq<Field>, last: Field, p: Pattern)
    requires Decided(front + [last], p)
    ensures Decided(front, p)
  {
    hide Reads, Ignores;
    assert forall f :: f in front ==> f in front + [last];
  }

  lemma {:induction false} QuestionsSnoc(front: seq<Field>, last: Field)
    ensures QuestionsIn(front + [last]) == QuestionsIn(front) + Questions(Line(last))
  {
    hide Questions, Line;
    if front == [] {
      assert front + [last] == [last] && [last][1..] == [];
    } else {
      assert (front + [last])[1..] == front[1..] + [last];
      QuestionsSnoc(front[1..], last);
    }
  }

  lemma {:induction false} BareText(s: State, body: Option<string>, front: seq<Field>, last: Field)
    requires FieldsOf(s) == front + [last] && GoodFields(front + [last]) && Blank(last.value) && Blank(TailOf(body))
    ensures Shows(front, ['\n'] + BareLine(last.caption), s, body)
  {
    hide GoodField, Blank, Found, PATTERNS, FieldsOf, BareLine, TrimRight, TailOf, Questions, Line, Inert, Decided;
    var rest := ['\n'] + BareLine(last.caption);
    var fields := front + [last];
    assert last in fields && forall f :: f in front ==> f in fields;
    BareRest(last);
    ClosedAbove(front, rest);
    BlankTrimmed(TailOf(body));
    GoodCaption(last);
    BareLineIsInert(last.caption);
    BareField(last);
    QuestionsSnoc(front, last);
    forall p | p in PATTERNS && Decided(fields, p)
      ensures Decided(front, p) && Found(front, rest, p) == Found(fields, TextBelow(body), p)
    {
      DecidedFront(front, last, p);
      FoundAboveBareLine(front, last, TextBelow(body), p);
    }
  }

  lemma {:induction false} TrimmedText(s: State, body: Option<string>, front: seq<Field>, last: Field)
    requires FieldsOf(s) == front + [last] && GoodFields(front + [last]) && !Blank(last.value) && Blank(TailOf(body))
    ensures Shows(front + [last.(value := TrimRight(last.value))], "", s, body)
  {
    hide GoodField, Blank, Found, PATTERNS, FieldsOf, TrimRight, TailOf, Questions, Line, Inert, Decided, SameLine;
    var f := last.(value := TrimRight(last.value));
    assert last in front + [last];
    TrimmedField(last);
    ReplacedLast(front, last, f);
    BlankTrimmed(TailOf(body));
    NothingIsInert();
    assert (front + [f])[|front + [f]| - 1] == f;
    forall p | p in PATTERNS && Decided(front + [last], p)
      ensures Decided(front + [f], p) && Found(front + [f], "", p) == Found(front + [last], TextBelow(body), p)
    {
      SameFound(front + [f], front + [last], "", TextBelow(body), p);
      SameDecided(front + [f], front + [last], p);
    }
    SameQuestions(front + [f], front + [last]);
  }

  /** Without, the last line loses white space at its end. */
  lemma {:induction false} StripBlock(s: State, body: Option<string>, front: seq<Field>, last: Field)
    returns (kept: seq<Field>, rest: string)
    requires FieldsOf(s) == front + [last] && GoodFields(front + [last]) && Blank(TailOf(body))
    ensures TrimRight(Headers() + Render(front + [last])) == Text(kept, rest) && Shows(kept, rest, s, body)
  {
    hide Shows, Render, Blank, TrimRight, Headers, TailOf, FieldsOf, GoodField, BareLine;
    assert last in front + [last];
    LastLineTrimmed(front, last);
    if Blank(last.value) {
      kept, rest := front, ['\n'] + BareLine(last.caption);
      BareText(s, body, front, last);
    } else {
      kept, rest := front + [last.(value := TrimRight(last.value))], "";
      TrimmedText(s, body, front, last);
    }
  }

  lemma {:induction false} FieldsNotEmpty(s: State)
    requires HasContent(s)
    ensures FieldsOf(s) != []
  {
  }

  lemma {:induction false} StripText(s: State, body: Option<string>) returns (kept: seq<Field>, rest: string)
    requires HasContent(s) && PlainState(s) && Inert(TextBelow(body))
    ensures Strip(SummaryContent(s, body)) == Text(kept, rest) != "" && Shows(kept, rest, s, body)
  {
    hide Strip, Shows, Render, Blank, TrimRight, Inert, SummaryContent, Headers, PlainState, TailOf, FieldsOf;
    hide HasContent, GoodField;
    var fields, tail := FieldsOf(s), TailOf(body);
    StrippedSummary(s, body);
    FieldsAreGood(s);
    FieldsNotEmpty(s);
    TrimRightConcat(Headers() + Render(fields), tail);
    if !Blank(tail) {
      kept, rest := fields, TextBelow(body);
      ShowsAll(s, body);
    } else {
      var n := |fields| - 1;
      assert fields == fields[..n] + [fields[n]];
      kept, rest := StripBlock(s, body, fields[..n], fields[n]);
    }
    TextStart(kept, rest);
  }

  // ---- what the patterns find in the lines of a state ----

  lemma {:induction false} FoundSkips(
    present: bool, caption: string, v: string, more: seq<Field>, below: string, p: Pattern)
    requires Ignores(p, caption)
    ensures Found(Entry(present, caption, v) + more, below, p) == Found(more, below, p)
  {
    ReadsOrIgnores(p, caption);
    hide Reads, Ignores, Strip, Line, Blank, FirstLine;
    var all := Entry(present, caption, v) + more;
    if present {
      assert all[0] == Field(caption, v) && all[1..] == more;
    } else {
      assert all == more;
    }
  }

  lemma {:induction false} FoundNothing(fields: seq<Field>, below: string, p: Pattern)
    requires forall f :: f in fields ==> Ignores(p, f.caption)
    ensures Found(fields, below, p) == []
  {
    hide Reads, Ignores, Strip, Line, Blank, FirstLine;
    if fields != [] {
      assert fields[0] in fields && forall f :: f in fields[1..] ==> f in fields;
      ReadsOrIgnores(p, fields[0].caption);
      FoundNothing(fields[1..], below, p);
    }
  }

  /** What is read for a printed value with `below` on the lines below it: a blank value gives way to their text. */
  ghost function ReadBack(v: string, below: string): Option<string> {
    if !Blank(v) then Some(Clean(v))
    else if Blank(below) then None
    else Some(Clean(FirstLine(below)))
  }

  ghost function LastCleaned(found: seq<string>): Option<string> {
    if found == [] then None else Some(Clean(found[|found| - 1]))
  }

  /** The first of the lines below, and nothing behind it. */
  lemma {:induction false} LinesBelow(g: Field, others: seq<Field>, below: string, p: Pattern)
    requires GoodFields([g] + others) && Below(below) && forall h :: h in [g] + others ==> Ignores(p, h.caption)
    ensures Found(others, below, p) == []
    ensures !Blank(Render([g] + others) + below) && FirstLine(Render([g] + others) + below) == Strip(Line(g))
  {
    hide Ignores, Line, Blank, FirstLine, FirstLineEnd, Render, GoodField, Strip, Found;
    var fields := [g] + others;
    assert fields[0] == g && g in fields && forall h :: h in others ==> h in fields;
    FoundNothing(others, below, p);
    GoodFieldFacts(g);
    FirstLineOfBlock(g, others, below);
  }

  /** The one line the pattern takes. */
  lemma {:induction false} FoundOne(f: Field, more: seq<Field>, below: string, p: Pattern)
    requires Reads(p, f.caption) && GoodFields(more) && Below(below)
    requires forall g :: g in more ==> Ignores(p, g.caption)
    ensures LastCleaned(Found([f] + more, below, p)) == ReadBack(f.value, Render(more) + below)
  {
    hide Reads, Ignores, Line, Blank, FirstLine, Clean, Render, GoodFields, Strip;
    FoundNothing(more, below, p);
    CleanStripped(f.value);
    assert ([f] + more)[1..] == more;
    if more == [] {
      NothingRendered();
      assert Render(more) + below == below;
    } else if Blank(f.value) {
      assert ([f] + more)[2..] == more[1..] && more == [more[0]] + more[1..];
      LinesBelow(more[0], more[1..], below, p);
    }
  }

  ghost predicate CaptionsDecided(p: Pattern) {
    forall c :: c in [STAGE_LABEL, BLOCKER_LABEL, NEXT_STEP_LABEL] ==> Reads(p, c) || Ignores(p, c)
  }

  /** Which pattern takes which caption. */
  lemma {:induction false} CaptionReaders()
    ensures CaptionsDecided(STAGE_PATTERN) && CaptionsDecided(BLOCKER_PATTERN)
    ensures CaptionsDecided(NEXT_STEP_PATTERN) && CaptionsDecided(PENDING_PATTERN)
    ensures Reads(STAGE_PATTERN, STAGE_LABEL) && Ignores(STAGE_PATTERN, BLOCKER_LABEL)
      && Ignores(STAGE_PATTERN, NEXT_STEP_LABEL)
    ensures Ignores(BLOCKER_PATTERN, STAGE_LABEL) && Reads(BLOCKER_PATTERN, BLOCKER_LABEL)
      && Ignores(BLOCKER_PATTERN, NEXT_STEP_LABEL)
    ensures Ignores(NEXT_STEP_PATTERN, STAGE_LABEL) && Ignores(NEXT_STEP_PATTERN, BLOCKER_LABEL)
      && Reads(NEXT_STEP_PATTERN, NEXT_STEP_LABEL)
    ensures Ignores(PENDING_PATTERN, STAGE_LABEL) && Ignores(PENDING_PATTERN, BLOCKER_LABEL)
      && Ignores(PENDING_PATTERN, NEXT_STEP_LABEL)
  {
    StageCaption();
    BlockerCaption();
    NextStepCaption();
    hide Reads, Ignores, STAGE_LABEL, BLOCKER_LABEL, NEXT_STEP_LABEL;
    hide STAGE_PATTERN, BLOCKER_PATTERN, NEXT_STEP_PATTERN, PENDING_PATTERN;
  }

  lemma {:induction false} StageFound(s: State, below: string)
    ensures LastCleaned(Found(FieldsOf(s), below, STAGE_PATTERN))
      == if s.stage.Some? then Some(Clean(Strip(StageText(s)))) else None
  {
    CaptionReaders();
    if s.stage.Some? { StageIdIsPlain(s.stage.value); }
    hide Reads, Ignores, Strip, Line, Blank, FirstLine, Clean, StageId, STAGE_LABEL, BLOCKER_LABEL, NEXT_STEP_LABEL;
    hide STAGE_PATTERN;
    var more := BlockerEntry(s) + NextStepEntry(s);
    FieldsSplit(s);
    FoundNothing(more, below, STAGE_PATTERN);
    var all := StageEntry(s) + more;
    if s.stage.Some? {
      assert all[0] == Field(STAGE_LABEL, StageText(s)) && all[1..] == more;
    } else {
      assert all == more;
    }
  }

  lemma {:induction false} BlockerFound(s: State, below: string)
    requires PlainState(s) && Below(below)
    ensures LastCleaned(Found(FieldsOf(s), below, BLOCKER_PATTERN))
      == if Truthy(s.blocker) then ReadBack(s.blocker.value, Render(NextStepEntry(s)) + below) else None
  {
    CaptionReaders();
    NothingIsPlain();
    hide Reads, Ignores, Clean, StageId, STAGE_LABEL, BLOCKER_LABEL, NEXT_STEP_LABEL, BLOCKER_PATTERN, ReadBack;
    hide Found, GoodFields, Plain, Render, CaptionsDecided, StageText;
    var next := NextStepEntry(s);
    FieldsSplit(s);
    FoundSkips(s.stage.Some?, STAGE_LABEL, StageText(s), BlockerEntry(s) + next, below, BLOCKER_PATTERN);
    assert NEXT_STEP_LABEL in [STAGE_LABEL, BLOCKER_LABEL, NEXT_STEP_LABEL];
    GoodEntry(Truthy(s.nextStep), NEXT_STEP_LABEL, GetOr(s.nextStep, ""));
    if Truthy(s.blocker) {
      FoundOne(Field(BLOCKER_LABEL, s.blocker.value), next, below, BLOCKER_PATTERN);
    } else {
      assert BlockerEntry(s) + next == next;
      FoundNothing(next, below, BLOCKER_PATTERN);
    }
  }

  function NoFields(): seq<Field> { [] }

  lemma {:induction false} NextStepFound(s: State, below: string)
    requires Below(below)
    ensures LastCleaned(Found(FieldsOf(s), below, NEXT_STEP_PATTERN))
      == if Truthy(s.nextStep) then ReadBack(s.nextStep.value, below) else None
  {
    CaptionReaders();
    hide Reads, Ignores, Clean, StageId, STAGE_LABEL, BLOCKER_LABEL, NEXT_STEP_LABEL, NEXT_STEP_PATTERN, ReadBack;
    hide Found, Render, CaptionsDecided, StageText;
    var next, none := NextStepEntry(s), NoFields();
    FieldsSplit(s);
    FoundSkips(s.stage.Some?, STAGE_LABEL, StageText(s), BlockerEntry(s) + next, below, NEXT_STEP_PATTERN);
    FoundSkips(Truthy(s.blocker), BLOCKER_LABEL, GetOr(s.blocker, ""), next, below, NEXT_STEP_PATTERN);
    if Truthy(s.nextStep) {
      FoundOne(Field(NEXT_STEP_LABEL, s.nextStep.value), none, below, NEXT_STEP_PATTERN);
      NothingRendered();
      assert next + none == next && Render(none) + below == below;
    } else {
      FoundNothing(next, below, NEXT_STEP_PATTERN);
    }
  }

  lemma {:induction false} PendingFound(s: State, below: string)
    ensures LastCleaned(Found(FieldsOf(s), below, PENDING_PATTERN)) == None
  {
    CaptionReaders();
    hide Reads, Ignores, Clean, StageId, STAGE_LABEL, BLOCKER_LABEL, NEXT_STEP_LABEL, PENDING_PATTERN, Found;
    FieldsSplit(s);
    FoundNothing(FieldsOf(s), below, PENDING_PATTERN);
  }

  lemma {:induction false} AllDecided(s: State, p: Pattern)
    requires CaptionsDecided(p)
    ensures Decided(FieldsOf(s), p)
  {
    hide Reads, Ignores, StageId, STAGE_LABEL, BLOCKER_LABEL, NEXT_STEP_LABEL;
    FieldsSplit(s);
    var labels := [STAGE_LABEL, BLOCKER_LABEL, NEXT_STEP_LABEL];
    assert labels[0] in labels && labels[1] in labels && labels[2] in labels;
  }

  // ---- values of spaces and marks ----

  /** Nothing but white space and list marks. */
  ghost predicate Marks(v: string) {
    forall c :: c in v ==> IsSpace(c) || IsMark(c)
  }

  lemma {:induction false} SqueezeKeeps(s: string, c: char)
    requires c in s && !IsSpace(c)
    ensures c in Squeeze(s)
    decreases |s|
  {
    hide WordEnd, IsSpace;
    if IsSpace(s[0]) {
      assert s == [s[0]] + s[1..];
      SqueezeKeeps(s[1..], c);
    } else {
      var n := WordEnd(s);
      assert s == s[..n] + s[n..];
      if c !in s[..n] { SqueezeKeeps(s[n..], c); }
    }
  }

  lemma {:induction false} FrontKeeps(s: string, c: char)
    requires c in s && !IsMark(c)
    ensures c in StripMarksFront(s)
  {
    if IsMark(s[0]) {
      assert s == [s[0]] + s[1..];
      FrontKeeps(s[1..], c);
    }
  }

  lemma {:induction false} BackKeeps(s: string, c: char)
    requires c in s && !IsMark(c)
    ensures c in StripMarksBack(s)
  {
    var n := |s| - 1;
    if IsMark(s[n]) {
      assert s == s[..n] + [s[n]];
      BackKeeps(s[..n], c);
    }
  }

  /** Cleaning keeps everything but white space and marks. */
  lemma {:induction false} CleanKeeps(v: string, c: char)
    requires c in v && !IsSpace(c) && !IsMark(c)
    ensures c in Clean(v)
  {
    hide IsSpace, IsMark, Squeeze, StripMarksFront, StripMarksBack;
    SqueezeKeeps(v, c);
    FrontKeeps(Squeeze(v), c);
    BackKeeps(StripMarksFront(Squeeze(v)), c);
  }

  lemma {:induction false} MarkIsNoQuestion()
    ensures !IsMark('?')
  {
  }

  lemma {:induction false} CleanedAway(v: string)
    requires Blank(v) || Clean(v) == ""
    ensures Marks(v) && NoQuestion(v)
  {
    hide Clean, IsMark;
    assert !IsSpace('?') && !IsMark('?') by { MarkIsNoQuestion(); }
    hide IsSpace;
    forall c | c in v ensures IsSpace(c) || IsMark(c) {
      if !Blank(v) && !IsSpace(c) && !IsMark(c) { CleanKeeps(v, c); }
    }
    forall j | 0 <= j < |v| ensures v[j] != '?' { assert v[j] in v; }
  }

  lemma {:induction false} LowerOfMarks(s: string)
    requires Marks(s)
    ensures Lower(s) == s
  {
    if s != [] {
      assert s[0] in s;
      assert forall c :: c in s[1..] ==> c in s;
      LowerOfMarks(s[1..]);
      assert LowerChar(s[0]) == [s[0]];
    }
  }

  lemma {:induction false} HintStarts(k: nat)
    requires k < |QUESTION_HINTS|
    ensures QUESTION_HINTS[k] != "" && !IsSpace(QUESTION_HINTS[k][0]) && !IsMark(QUESTION_HINTS[k][0])
  {
  }

  /** A hint has letters in it. */
  lemma {:induction false} HintedIsNotMarks(q: string)
    requires Hinted(q)
    ensures !Marks(Clean(q))
  {
    var v := Clean(q);
    hide Clean, Lower, QUESTION_HINTS, IsSpace, IsMark;
    var k :| 0 <= k < |QUESTION_HINTS| && Contains(Lower(v), QUESTION_HINTS[k]);
    HintStarts(k);
    var i :| 0 <= i <= |Lower(v)| && QUESTION_HINTS[k] <= Lower(v)[i..];
    assert Lower(v)[i] == QUESTION_HINTS[k][0] && Lower(v)[i] in Lower(v);
    if Marks(v) { LowerOfMarks(v); }
  }

  lemma {:induction false} LastHintedIsNotMarks(questions: seq<string>)
    ensures LastHinted(questions).Some? ==> !Marks(LastHinted(questions).value)
  {
    hide Clean, Hinted, Marks;
    if questions != [] {
      var last := questions[|questions| - 1];
      if Hinted(last) {
        HintedIsNotMarks(last);
      } else {
        LastHintedIsNotMarks(questions[..|questions| - 1]);
      }
    }
  }

  // ---- reading a summary back ----

  /** The question the next step would be read as, were there no blocker. */
  function Asked(s: State): Option<string> {
    if Truthy(s.nextStep) then LastHinted(Questions(Line(Field(NEXT_STEP_LABEL, s.nextStep.value)))) else None
  }

  lemma {:induction false} AskedIsNotMarks(s: State)
    ensures Asked(s).Some? ==> !Marks(Asked(s).value)
  {
    hide Questions, Line, LastHinted, Marks, NEXT_STEP_LABEL;
    if Truthy(s.nextStep) {
      LastHintedIsNotMarks(Questions(Line(Field(NEXT_STEP_LABEL, s.nextStep.value))));
    }
  }

  /** What is read for the blocker: a blank one gives way to the next step's line or the text below. */
  ghost function ReadBlocker(s: State, body: Option<string>): Option<string> {
    if Truthy(s.blocker) then ReadBack(s.blocker.value, Render(NextStepEntry(s)) + TextBelow(body)) else None
  }

  ghost function ReadNextStep(s: State, body: Option<string>): Option<string> {
    if Truthy(s.nextStep) then ReadBack(s.nextStep.value, TextBelow(body)) else None
  }

  /** What the next compression records. */
  ghost function Recovered(s: State, body: Option<string>): State {
    State(
      s.stage,
      if Truthy(ReadBlocker(s, body)) then ReadBlocker(s, body) else Asked(s),
      ReadNextStep(s, body))
  }

  lemma {:induction false} FieldShown(kept: seq<Field>, rest: string, s: State, body: Option<string>, p: Pattern)
    requires Shows(kept, rest, s, body) && p in PATTERNS && CaptionsDecided(p)
    ensures ExtractField(Text(kept, rest), p) == LastCleaned(Found(FieldsOf(s), TextBelow(body), p))
  {
    hide Reads, Ignores, FieldsOf, Text, ExtractField, Clean, Found, GoodField, PATTERNS, SilentFor, NotPending;
    hide CaptionsDecided, Decided, TextBelow, Questions, QuestionsIn, Closed;
    AllDecided(s, p);
    forall f | f in kept ensures Printable(f) { GoodFieldFacts(f); }
    FieldOfText(kept, rest, p);
  }

  lemma {:induction false} PatternsListed()
    ensures STAGE_PATTERN in PATTERNS && BLOCKER_PATTERN in PATTERNS
    ensures NEXT_STEP_PATTERN in PATTERNS && PENDING_PATTERN in PATTERNS
  {
    hide STAGE_PATTERN, BLOCKER_PATTERN, NEXT_STEP_PATTERN, PENDING_PATTERN;
    assert PATTERNS[0] == STAGE_PATTERN && PATTERNS[1] == BLOCKER_PATTERN;
    assert PATTERNS[2] == NEXT_STEP_PATTERN && PATTERNS[3] == PENDING_PATTERN;
  }

  lemma {:induction false} StageShown(kept: seq<Field>, rest: string, s: State, body: Option<string>)
    requires Shows(kept, rest, s, body)
    ensures ExtractStage(Text(kept, rest)) == s.stage
  {
    CaptionReaders();
    PatternsListed();
    hide Shows, Reads, Ignores, FieldsOf, Text, ExtractField, Clean, Strip, Found, StageId, StageOfText, LastCleaned;
    hide PATTERNS, STAGE_PATTERN, CaptionsDecided;
    FieldShown(kept, rest, s, body, STAGE_PATTERN);
    StageFound(s, TextBelow(body));
    if s.stage.Some? { StageRoundTrip(s.stage.value); }
  }

  lemma {:induction false} ValuesShown(kept: seq<Field>, rest: string, s: State, body: Option<string>)
    requires Shows(kept, rest, s, body) && PlainState(s) && Below(TextBelow(body))
    ensures ExtractField(Text(kept, rest), BLOCKER_PATTERN) == ReadBlocker(s, body)
    ensures ExtractField(Text(kept, rest), NEXT_STEP_PATTERN) == ReadNextStep(s, body)
    ensures ExtractField(Text(kept, rest), PENDING_PATTERN) == None
  {
    CaptionReaders();
    PatternsListed();
    hide Shows, Reads, Ignores, FieldsOf, Text, ExtractField, Clean, Found, LastCleaned, ReadBack, PlainState, Render;
    hide PATTERNS, BLOCKER_PATTERN, NEXT_STEP_PATTERN, PENDING_PATTERN, CaptionsDecided, TextBelow, NextStepEntry;
    FieldShown(kept, rest, s, body, BLOCKER_PATTERN);
    FieldShown(kept, rest, s, body, NEXT_STEP_PATTERN);
    FieldShown(kept, rest, s, body, PENDING_PATTERN);
    BlockerFound(s, TextBelow(body));
    NextStepFound(s, TextBelow(body));
    PendingFound(s, TextBelow(body));
  }

  lemma {:induction false} StageAsksNothing(stage: Stage)
    ensures Questions(Line(Field(STAGE_LABEL, StageId(stage)))) == []
  {
    StageIdLetters(stage);
    var labels := [STAGE_LABEL, BLOCKER_LABEL, NEXT_STEP_LABEL];
    assert labels[0] in labels;
    CaptionsAreGood(STAGE_LABEL);
    hide StageId, STAGE_LABEL, Questions, Line;
    LineAsksNothing(Field(STAGE_LABEL, StageId(stage)));
  }

  lemma {:induction false} QuestionsInEntry(present: bool, caption: string, value: string, more: seq<Field>)
    ensures QuestionsIn(Entry(present, caption, value) + more)
      == (if present then Questions(Line(Field(caption, value))) else []) + QuestionsIn(more)
  {
    hide Questions, Line;
    var all := Entry(present, caption, value) + more;
    if present {
      assert all[0] == Field(caption, value) && all[1..] == more;
    } else {
      assert all == more;
    }
  }

  lemma {:induction false} NothingAsked()
    ensures QuestionsIn([]) == [] && LastHinted([]) == None
  {
  }

  lemma {:induction false} BlockerAsksNothing(v: string)
    requires Blank(v) || Clean(v) == ""
    ensures Questions(Line(Field(BLOCKER_LABEL, v))) == []
  {
    var labels := [STAGE_LABEL, BLOCKER_LABEL, NEXT_STEP_LABEL];
    assert labels[1] in labels;
    CaptionsAreGood(BLOCKER_LABEL);
    hide Questions, Clean, Blank, BLOCKER_LABEL;
    CleanedAway(v);
    LineAsksNothing(Field(BLOCKER_LABEL, v));
  }

  /** When no blocker is read, only the next step can ask. */
  lemma {:induction false} QuestionsWithoutBlocker(s: State, body: Option<string>)
    requires !Truthy(ReadBlocker(s, body))
    ensures LastHinted(QuestionsIn(FieldsOf(s))) == Asked(s)
  {
    hide Questions, Line, StageId, STAGE_LABEL, BLOCKER_LABEL, NEXT_STEP_LABEL, QuestionsIn, LastHinted, Clean;
    hide Render, FieldsOf;
    FieldsSplit(s);
    var none := NoFields();
    assert NextStepEntry(s) + none == NextStepEntry(s);
    QuestionsInEntry(s.stage.Some?, STAGE_LABEL, StageText(s), BlockerEntry(s) + NextStepEntry(s));
    QuestionsInEntry(Truthy(s.blocker), BLOCKER_LABEL, GetOr(s.blocker, ""), NextStepEntry(s));
    QuestionsInEntry(Truthy(s.nextStep), NEXT_STEP_LABEL, GetOr(s.nextStep, ""), none);
    if s.stage.Some? { StageAsksNothing(s.stage.value); }
    if Truthy(s.blocker) { BlockerAsksNothing(s.blocker.value); }
    NothingAsked();
    var asked := QuestionsIn(NextStepEntry(s));
    assert QuestionsIn(BlockerEntry(s) + NextStepEntry(s)) == asked;
    assert QuestionsIn(FieldsOf(s)) == asked;
    assert Truthy(s.nextStep) ==> asked == Questions(Line(Field(NEXT_STEP_LABEL, s.nextStep.value)));
    assert !Truthy(s.nextStep) ==> asked == [];
  }

  lemma {:induction false} QuestionShown(kept: seq<Field>, rest: string, s: State, body: Option<string>)
    requires Shows(kept, rest, s, body) && !Truthy(ReadBlocker(s, body))
    ensures LastHinted(Questions(Text(kept, rest))) == Asked(s)
  {
    hide Text, Questions, LastHinted, QuestionsIn, FieldsOf, GoodFields, Found, PATTERNS, ReadBlocker, Asked, Closed;
    QuestionsOfText(kept, rest);
    LastHintedConcat(QuestionsIn(kept), Questions(rest));
    QuestionsWithoutBlocker(s, body);
  }

  lemma {:induction false} ShownIsRecovered(kept: seq<Field>, rest: string, s: State, body: Option<string>)
    requires Shows(kept, rest, s, body) && PlainState(s) && Below(TextBelow(body))
    ensures Absorb(NOTHING, Text(kept, rest)) == Recovered(s, body)
  {
    hide Text, LastHinted, Questions, Line, PendingQuestion, SplitLines, GoodField, ReadNextStep, FieldsOf;
    hide ExtractField, ExtractStage, Asked, ReadBlocker, PlainState, Found, PATTERNS, QuestionsIn, Closed, SilentFor;
    hide BLOCKER_PATTERN, NEXT_STEP_PATTERN, PENDING_PATTERN, TextBelow, Decided;
    StageShown(kept, rest, s, body);
    ValuesShown(kept, rest, s, body);
    forall f | f in kept ensures Quiet(Line(f)) { GoodFieldFacts(f); }
    TextIsQuiet(kept, rest);
    if !Truthy(ReadBlocker(s, body)) { QuestionShown(kept, rest, s, body); }
  }

  lemma {:induction false} InertIsBelow(rest: string)
    requires Inert(rest)
    ensures Below(rest)
  {
    hide SilentFor, PATTERNS, PendingQuestion, SplitLines, LastHinted, Questions;
  }

  lemma {:induction false} OneMessage(content: string)
    requires Strip(content) != ""
    ensures ExtractFrom([Some(content)], NOTHING) == Absorb(NOTHING, Strip(content))
  {
    hide Strip, Absorb;
    var none: seq<Option<string>> := [];
    assert [Some(content)][..0] == none;
    assert ExtractFrom([Some(content)], NOTHING) == ExtractFrom(none, Absorb(NOTHING, Strip(content)));
  }

  /** What the next compression reads from a summary message. */
  lemma {:induction false} SummaryReadsBack(s: State, body: Option<string>)
    requires HasContent(s) && PlainState(s) && Inert(TextBelow(body))
    ensures ExtractFrom([Some(SummaryContent(s, body))], NOTHING) == Recovered(s, body)
    ensures Strip(SummaryContent(s, body)) != ""
  {
    hide SummaryContent, Text, Absorb, Recovered, Shows, HasContent, PlainState, Inert, TextBelow, Strip;
    InertIsBelow(TextBelow(body));
    var kept, rest := StripText(s, body);
    ShownIsRecovered(kept, rest, s, body);
    OneMessage(SummaryContent(s, body));
  }

  /**
   * Every present value is not empty and is what its line is read as, and without a blocker the next step asks no
   * question with a hint in it.
   */
  ghost predicate Keeps(s: State, body: Option<string>) {
    && (s.blocker.Some? ==> s.blocker.value != "" && ReadBlocker(s, body) == s.blocker)
    && (s.blocker.None? ==> Asked(s) == None)
    && (s.nextStep.Some? ==> s.nextStep.value != "" && ReadNextStep(s, body) == s.nextStep)
  }

  lemma {:induction false} NothingIsMarks()
    ensures Marks("")
  {
  }

  /** What is asked is never an unreadable blocker. */
  lemma {:induction false} AskedIsNotBlocker(s: State, body: Option<string>)
    requires s.blocker.Some? && !Truthy(ReadBlocker(s, body))
    ensures Asked(s) != s.blocker
  {
    hide Clean, Render, FirstLine, TextBelow, Marks, Asked, NextStepEntry;
    NothingIsMarks();
    if s.blocker.value != "" { CleanedAway(s.blocker.value); }
    AskedIsNotMarks(s);
  }

  /** The exact condition under which an extracted state comes back unchanged from its summary message. */
  lemma {:induction false} ContinuityRoundTrips(s: State, body: Option<string>)
    requires HasContent(s) && PlainState(s) && Inert(TextBelow(body))
    ensures ExtractFrom([Some(SummaryContent(s, body))], NOTHING) == s <==> Keeps(s, body)
  {
    hide Asked, SummaryContent, ExtractFrom, ReadBack, TextBelow, Inert, HasContent, PlainState, Strip, Render;
    SummaryReadsBack(s, body);
    if s.blocker.Some? && !Truthy(ReadBlocker(s, body)) { AskedIsNotBlocker(s, body); }
  }

  /** No value is blank, and cleaning the values again does not change them. */
  ghost predicate Stable(s: State) {
    && (s.blocker.Some? ==> !Blank(s.blocker.value) && Clean(s.blocker.value) == s.blocker.value)
    && (s.nextStep.Some? ==> !Blank(s.nextStep.value) && Clean(s.nextStep.value) == s.nextStep.value)
  }

  lemma {:induction false} NothingIsBlank()
    ensures Blank("")
  {
  }

  /** For values that are not blank: cleaning leaves them alone, whatever the model's own summary says. */
  lemma {:induction false} KeepsIffStable(s: State, body: Option<string>)
    requires s.blocker.Some? ==> !Blank(s.blocker.value)
    requires s.nextStep.Some? ==> !Blank(s.nextStep.value)
    ensures Keeps(s, body) <==> Stable(s) && (s.blocker.None? ==> Asked(s) == None)
  {
    hide Clean, Asked, Blank, TextBelow, Render, NextStepEntry, FirstLine;
    NothingIsBlank();
  }

  // ---- a blocker that swallows the next step ----

  lemma {:induction false} NextStepIsGood(s: State)
    requires PlainState(s) && Truthy(s.nextStep)
    ensures GoodField(Field(NEXT_STEP_LABEL, s.nextStep.value))
  {
    var labels := [STAGE_LABEL, BLOCKER_LABEL, NEXT_STEP_LABEL];
    assert labels[2] in labels;
    CaptionsAreGood(NEXT_STEP_LABEL);
  }

  lemma {:induction false} BlankIsMarks(v: string)
    requires Blank(v)
    ensures Marks(v)
  {
    hide IsMark, IsSpace;
  }

  lemma {:induction false} NextStepLineShows(v: string)
    ensures var cleaned := Clean(Line(Field(NEXT_STEP_LABEL, v))); cleaned != "" && !Marks(cleaned)
  {
    var line := Line(Field(NEXT_STEP_LABEL, v));
    assert line[2] == 'N' && line[2] in line;
    hide Clean, Line;
    CleanKeeps(line, 'N');
  }

  /** A blank blocker above a next step never comes back: the next step's line is read as the blocker. */
  lemma {:induction false} BlankBlockerSwallows(s: State, body: Option<string>)
    requires PlainState(s) && Inert(TextBelow(body))
    requires Truthy(s.blocker) && Blank(s.blocker.value) && Truthy(s.nextStep)
    ensures var back := ExtractFrom([Some(SummaryContent(s, body))], NOTHING);
      back != s && back.blocker == Some(Clean(Line(Field(NEXT_STEP_LABEL, s.nextStep.value))))
  {
    hide SummaryContent, ExtractFrom, TextBelow, Inert, Asked, Clean, Render, Line, Blank, FirstLine;
    var g := Field(NEXT_STEP_LABEL, s.nextStep.value);
    InertIsBelow(TextBelow(body));
    SummaryReadsBack(s, body);
    NextStepIsGood(s);
    var none := NoFields();
    assert NextStepEntry(s) == [g] + none;
    GoodFieldFacts(g);
    FirstLineOfBlock(g, none, TextBelow(body));
    CleanStripped(Line(g));
    NextStepLineShows(s.nextStep.value);
    BlankIsMarks(s.blocker.value);
  }

  lemma {:induction false} FirstMatches(a: string, b: string, p: Pattern)
    requires a != "" && a[|a| - 1] == '\n'
    ensures Values(a + b, |a|, p) == Values(b, 0, p)
  {
    hide MatchAt;
    MatchShift(a, b, 0, p);
    var m := MatchAt(b, 0, p);
    if m.Some? {
      ValuesShift(a, b, m.value.end, p);
    } else if b != "" {
      ValuesShift(a, b, 1, p);
    }
  }

  /** The patterns read a message that is nothing but a block of lines the same way. */
  lemma {:induction false} FieldOfBlock(f: Field, more: seq<Field>, p: Pattern)
    requires AllPrintable([f] + more) && Decided([f] + more, p) && Closed([f] + more, "")
    ensures ExtractField(Line(f) + Render(more), p) == LastCleaned(Found([f] + more, "", p))
  {
    hide Values, Line, Render, Found, Closed, Decided, AllPrintable, Clean;
    var fields, block, pre := [f] + more, Line(f) + Render(more), "x";
    BlockEnds(pre, fields);
    SilentBelow(pre + Render(fields), "", p);
    BlockValues(pre, fields, "", p);
    TextCons(pre, f, more, "");
    assert pre + Render(fields) + "" == pre + (['\n'] + block);
    NotLineStart(pre, ['\n'] + block, p);
    assert pre + (['\n'] + block) == (pre + ['\n']) + block;
    FirstMatches(pre + ['\n'], block, p);
  }

  /** The message of a model that lists a blocker of two dashes, and what it is printed from. */
  const DASHES := State(None, Some("- -"), Some("train"))
  const DASHES_LINE := "- Blocker: - -"
  const NEXT_LINE := "- Next step: train"
  const DASHES_MESSAGE := DASHES_LINE + "\n" + NEXT_LINE

  /** What is recorded from it, and what is recorded from its summary. */
  const SPACE_STATE := State(None, Some(" "), Some("train"))
  const SWALLOWED_STATE := State(None, Some(" Next step: train"), Some("train"))

  lemma {:induction false} DashesCleaned()
    ensures Clean("- -") == " " && !Blank("- -")
  {
    var v := "- -";
    SqueezeTidy(v);
    assert v[1..] == " -" && " -"[..1] == " ";
    assert StripMarksFront(v) == " -" && StripMarksBack(" -") == " ";
  }

  lemma {:induction false} TidyIsClean(v: string)
    requires Tidy(v) && v != "" && !IsMark(v[0]) && !IsMark(v[|v| - 1])
    ensures Clean(v) == v && !Blank(v)
  {
    hide Squeeze, IsSpace;
    SqueezeTidy(v);
    assert !IsSpace(v[0]);
  }

  lemma {:induction false} TrainIsClean()
    ensures Clean("train") == "train" && !Blank("train")
  {
    TidyIsClean("train");
  }

  lemma {:induction false} DashesLine()
    ensures Line(Field(BLOCKER_LABEL, "- -")) == DASHES_LINE
  {
  }

  lemma {:induction false} NextLine()
    ensures Line(Field(NEXT_STEP_LABEL, "train")) == NEXT_LINE
  {
  }

  lemma {:induction false} NextLineIsTidy()
    ensures Tidy(NEXT_LINE)
  {
  }

  lemma {:induction false} NextLineMarks()
    ensures NEXT_LINE[1..] == " Next step: train" && |NEXT_LINE| > 1
    ensures IsMark(NEXT_LINE[0]) && !IsMark(NEXT_LINE[1]) && !IsMark(NEXT_LINE[|NEXT_LINE| - 1])
  {
  }

  /** Behind one mark at the front, a tidy text is left as it is. */
  lemma {:induction false} OneMarkCleaned(v: string)
    requires Tidy(v) && |v| > 1 && IsMark(v[0]) && !IsMark(v[1]) && !IsMark(v[|v| - 1])
    ensures Clean(v) == v[1..]
  {
    hide Squeeze, Tidy;
    SqueezeTidy(v);
    assert v[1..][0] == v[1] && v[1..][|v[1..]| - 1] == v[|v| - 1];
    assert StripMarksFront(v[1..]) == v[1..];
    assert StripMarksFront(v) == v[1..];
    assert StripMarksBack(v[1..]) == v[1..];
  }

  lemma {:induction false} NextLineCleaned()
    ensures Clean(Line(Field(NEXT_STEP_LABEL, "train"))) == " Next step: train"
  {
    NextLine();
    NextLineIsTidy();
    NextLineMarks();
    hide Line, Clean, Tidy, NEXT_LINE, IsMark;
    OneMarkCleaned(NEXT_LINE);
  }

  lemma {:induction false} TwoLines(f: Field, g: Field)
    ensures Line(f) + Render([g]) == Line(f) + "\n" + Line(g)
  {
    hide Line;
    NothingRendered();
    assert [g][1..] == NoFields() && Render([g]) == ['\n'] + Line(g) + Render(NoFields());
  }

  lemma {:induction false} DashesFields()
    ensures FieldsOf(DASHES) == [Field(BLOCKER_LABEL, "- -"), Field(NEXT_STEP_LABEL, "train")]
  {
    hide BLOCKER_LABEL, NEXT_STEP_LABEL, StageId, STAGE_LABEL;
  }

  lemma {:induction false} DashesArePlain()
    ensures PlainState(DASHES)
  {
  }

  lemma {:induction false} DashesEnds()
    ensures DASHES_LINE != "" && !IsSpace(DASHES_LINE[0])
    ensures NEXT_LINE != "" && !IsSpace(NEXT_LINE[|NEXT_LINE| - 1])
  {
  }

  lemma {:induction false} DashesMessage()
    ensures var fields := FieldsOf(DASHES);
      && |fields| == 2 && fields == [fields[0]] + fields[1..]
      && DASHES_MESSAGE == Line(fields[0]) + Render(fields[1..])
      && PlainState(DASHES) && Strip(DASHES_MESSAGE) == DASHES_MESSAGE
  {
    DashesFields();
    DashesArePlain();
    DashesLine();
    NextLine();
    DashesEnds();
    hide FieldsOf, Line, Render, DASHES_LINE, NEXT_LINE, PlainState, IsSpace, Strip, BLOCKER_LABEL, NEXT_STEP_LABEL;
    var f, g := Field(BLOCKER_LABEL, "- -"), Field(NEXT_STEP_LABEL, "train");
    assert [f, g][1..] == [g];
    TwoLines(f, g);
    StripIs(DASHES_MESSAGE, 0, |DASHES_MESSAGE|);
  }

  lemma {:induction false} DashesField(p: Pattern)
    requires CaptionsDecided(p)
    ensures ExtractField(DASHES_MESSAGE, p) == LastCleaned(Found(FieldsOf(DASHES), "", p))
  {
    DashesMessage();
    TrainIsClean();
    assert GetOr(DASHES.nextStep, "") == "train";
    hide Line, Render, Found, Decided, Printable, ExtractField, LastCleaned, CaptionsDecided, Blank, GoodField;
    hide DASHES_MESSAGE, PlainState;
    var fields := FieldsOf(DASHES);
    FieldsAreGood(DASHES);
    AllDecided(DASHES, p);
    forall f | f in fields ensures Printable(f) { GoodFieldFacts(f); }
    assert fields[1].value == "train";
    FieldOfBlock(fields[0], fields[1..], p);
  }

  lemma {:induction false} DashesNotEmpty()
    ensures DASHES_MESSAGE != ""
  {
  }

  lemma {:induction false} DashesRecorded()
    ensures ExtractFrom([Some(DASHES_MESSAGE)], NOTHING) == SPACE_STATE
  {
    DashesMessage();
    CaptionReaders();
    DashesCleaned();
    TrainIsClean();
    hide Found, FieldsOf, ExtractField, LastCleaned, CaptionsDecided, Reads, Ignores, PlainState, Render, Clean, Line;
    hide DASHES_MESSAGE, Blank, STAGE_PATTERN, BLOCKER_PATTERN, NEXT_STEP_PATTERN, PENDING_PATTERN, Strip;
    DashesField(STAGE_PATTERN);
    DashesField(BLOCKER_PATTERN);
    DashesField(NEXT_STEP_PATTERN);
    StageFound(DASHES, "");
    BlockerFound(DASHES, "");
    NextStepFound(DASHES, "");
    DashesNotEmpty();
    OneMessage(DASHES_MESSAGE);
  }

  lemma {:induction false} SpaceIsBlank()
    ensures Blank(" ") && PlainState(SPACE_STATE) && Inert(TextBelow(None)) && TextBelow(None) == ""
  {
    NothingIsInert();
    hide Inert;
  }

  /** The recorded blocker is a space; the next compression records the next step's line as the blocker. */
  lemma {:induction false} SwallowWitness()
    ensures ExtractFrom([Some(DASHES_MESSAGE)], NOTHING) == SPACE_STATE
    ensures ExtractFrom([Some(SummaryContent(SPACE_STATE, None))], NOTHING) == SWALLOWED_STATE
  {
    DashesRecorded();
    NextLineCleaned();
    TrainIsClean();
    SpaceIsBlank();
    hide ExtractFrom, SummaryContent, Line, Clean, Inert, DASHES_MESSAGE, Render, FirstLine, Blank, TextBelow;
    hide ReadBlocker, PlainState, NEXT_STEP_LABEL, Asked;
    BlankBlockerSwallows(SPACE_STATE, None);
    SummaryReadsBack(SPACE_STATE, None);
  }

  // ---- what can be extracted at all ----

  lemma {:induction false} NestedIsPlain(line: string)
    ensures NestedItem(line).Some? ==> Plain(NestedItem(line).value)
  {
    hide Plain, Clean, IsSpace, IsMark, SkipSpace;
    if NestedItem(line).Some? { CleanIsPlain(line[SkipSpace(line, 1)..]); }
  }

  lemma {:induction false} PendingIsPlain(lines: seq<string>, capture: bool)
    ensures PendingQuestion(lines, capture).Some? ==> Plain(PendingQuestion(lines, capture).value)
  {
    hide Plain, Clean, Strip, Lower;
    if lines != [] {
      PendingIsPlain(lines[1..], capture);
      PendingIsPlain(lines[1..], true);
      PendingIsPlain(lines[1..], false);
      NestedIsPlain(Strip(lines[0]));
    }
  }

  lemma {:induction false} HintedIsPlain(questions: seq<string>)
    ensures LastHinted(questions).Some? ==> Plain(LastHinted(questions).value)
  {
    hide Plain, Clean, Hinted;
    if questions != [] {
      CleanIsPlain(questions[|questions| - 1]);
      HintedIsPlain(questions[..|questions| - 1]);
    }
  }

  lemma {:induction false} FieldIsPlain(text: string, p: Pattern)
    ensures ExtractField(text, p).Some? ==> Plain(ExtractField(text, p).value)
  {
    hide Plain, Clean, Values;
    var values := Values(text, 0, p);
    if values != [] { CleanIsPlain(values[|values| - 1]); }
  }

  /** Whatever the messages say, an extracted state has values that fit on one line of the block. */
  lemma {:induction false} ExtractedIsPlain(contents: seq<Option<string>>, s: State)
    requires PlainState(s)
    ensures PlainState(ExtractFrom(contents, s))
  {
    hide Plain, ExtractField, PendingQuestion, LastHinted, ExtractStage, Strip, Questions, SplitLines;
    if contents != [] && !Complete(s) {
      var content := Strip(GetOr(contents[|contents| - 1], ""));
      FieldIsPlain(content, BLOCKER_PATTERN);
      FieldIsPlain(content, PENDING_PATTERN);
      FieldIsPlain(content, NEXT_STEP_PATTERN);
      PendingIsPlain(SplitLines(content), false);
      HintedIsPlain(Questions(content));
      ExtractedIsPlain(contents[..|contents| - 1], if content == "" then s else Absorb(s, content));
    }
  }

  // ---- messages that record nothing ----

  predicate Silent(content: Option<string>) {
    var text := Strip(GetOr(content, ""));
    text == "" || Absorb(NOTHING, text) == NOTHING
  }

  /** Silent messages below a message do not change what is read. */
  lemma {:induction false} SilentMessagesPass(first: seq<Option<string>>, others: seq<Option<string>>)
    requires forall c :: c in others ==> Silent(c)
    ensures ExtractFrom(first + others, NOTHING) == ExtractFrom(first, NOTHING)
  {
    hide Absorb, Strip;
    if others == [] {
      assert first + others == first;
    } else {
      var n := |others| - 1;
      var all := first + others;
      assert others[n] in others && Silent(others[n]);
      assert all[|all| - 1] == others[n] && all[..|all| - 1] == first + others[..n];
      assert forall c :: c in others[..n] ==> c in others;
      SilentMessagesPass(first, others[..n]);
    }
  }
}
