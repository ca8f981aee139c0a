/**
 * Which blocker a message records: the last value of a blocker line, of a pending-question line, the first item under
 * an announcement of pending questions, or the last question with a hint in it, in this order.
 */
module ContinuityPending {
  import opened Options
  import opened TextTools
  import opened Continuity
  import opened ContinuityScan
  import opened ContinuityText
  import opened ContinuityRoundTrip

  // ---- the order of precedence ----

  function FirstTruthy(a: Option<string>, b: Option<string>): Option<string> {
    if Truthy(a) then a else b
  }

  /** For every message: each source counts only where none of those before it has a value that is not empty. */
  lemma {:induction false} BlockerPrecedence(content: string)
    requires Strip(content) != ""
    ensures var text := Strip(content);
      var (direct, inline) := (ExtractField(text, BLOCKER_PATTERN), ExtractField(text, PENDING_PATTERN));
      var nested := PendingQuestion(SplitLines(text), false);
      ExtractFrom([Some(content)], NOTHING).blocker
        == FirstTruthy(direct, FirstTruthy(inline, FirstTruthy(nested, LastHinted(Questions(text)))))
  {
    hide Strip, ExtractField, PendingQuestion, LastHinted, SplitLines, Questions, ExtractStage;
    hide BLOCKER_PATTERN, PENDING_PATTERN, NEXT_STEP_PATTERN;
    OneMessage(content);
  }

  // ---- the first item under an announcement ----

  /** What is read for an item: a mark, white space, and the text. */
  lemma {:induction false} ItemText(line: string)
    ensures NestedItem(line).Some? <==> |line| >= 2 && (line[0] == '-' || line[0] == '*') && IsSpace(line[1])
    ensures NestedItem(line).Some? ==> NestedItem(line).value == Clean(line[1..])
  {
    hide IsSpace, Squeeze, StripMarksFront, StripMarksBack;
    if NestedItem(line).Some? {
      var n := SkipSpace(line, 1) - 1;
      var rest := line[1..];
      assert forall i :: 0 <= i < n ==> rest[i] == line[1 + i];
      assert rest[n..] == line[SkipSpace(line, 1)..];
      SqueezeFront(rest, n);
    }
  }

  /**
   * Line `j` is an item, and above it, with nothing but blank lines and announcements between, stands the announcement
   * in line `i`; -1 stands for one in front of all lines.
   */
  ghost predicate ItemUnder(lines: seq<string>, capture: bool, i: int, j: int) {
    && -1 <= i < j < |lines| && (if i == -1 then capture else Announces(lines[i]))
    && (forall k :: i < k < j ==> Strip(lines[k]) == "" || Announces(lines[k]))
    && Strip(lines[j]) != "" && !Announces(lines[j]) && NestedItem(Strip(lines[j])).Some?
  }

  /** Line `j` is the first item under an announcement. */
  ghost predicate FirstItem(lines: seq<string>, capture: bool, i: int, j: int) {
    ItemUnder(lines, capture, i, j) && forall a, b :: ItemUnder(lines, capture, a, b) ==> j <= b
  }

  /** How the first line changes what is captured. */
  function CaptureBehind(line: string, capture: bool): bool {
    if Strip(line) == "" then capture else Announces(line)
  }

  lemma {:induction false} BlankAnnouncesNothing(line: string)
    ensures Strip(line) == "" ==> !Announces(line)
  {
    assert PENDING_LINES[0] != "" && PENDING_LINES[1] != "";
  }

  lemma {:induction false} ItemInRest(lines: seq<string>, capture: bool, i: int, j: int) returns (a: int)
    requires lines != [] && ItemUnder(lines[1..], CaptureBehind(lines[0], capture), i, j)
    ensures ItemUnder(lines, capture, a, j + 1)
  {
    hide Strip, Announces, NestedItem;
    assert forall k :: 0 <= k < |lines| - 1 ==> lines[1..][k] == lines[k + 1];
    a := if i == -1 && Strip(lines[0]) == "" then -1 else i + 1;
  }

  lemma {:induction false} RestOfItem(lines: seq<string>, capture: bool, i: int, j: int) returns (a: int)
    requires lines != [] && ItemUnder(lines, capture, i, j) && j > 0
    ensures ItemUnder(lines[1..], CaptureBehind(lines[0], capture), a, j - 1)
  {
    hide Strip, Announces, NestedItem;
    BlankAnnouncesNothing(lines[0]);
    assert forall k :: 0 <= k < |lines| - 1 ==> lines[1..][k] == lines[k + 1];
    a := if i == -1 then -1 else i - 1;
  }

  ghost predicate NoItemFirst(lines: seq<string>, capture: bool) {
    lines != []
    && (Strip(lines[0]) == "" || Announces(lines[0]) || !capture || NestedItem(Strip(lines[0])).None?)
  }

  lemma {:induction false} ItemNotFirst(lines: seq<string>, capture: bool, i: int, j: int)
    requires NoItemFirst(lines, capture) && ItemUnder(lines, capture, i, j)
    ensures j > 0
  {
    hide Strip, Announces, NestedItem;
  }

  /** When the first line is no item, there are items if there are some in the rest. */
  lemma {:induction false} ItemsOfRest(lines: seq<string>, capture: bool)
    requires NoItemFirst(lines, capture)
    ensures (exists i, j :: ItemUnder(lines, capture, i, j)) <==>
      exists i, j :: ItemUnder(lines[1..], CaptureBehind(lines[0], capture), i, j)
  {
    hide ItemUnder, CaptureBehind, Strip, Announces, NestedItem;
    if i, j :| ItemUnder(lines[1..], CaptureBehind(lines[0], capture), i, j) {
      var a := ItemInRest(lines, capture, i, j);
    }
    if i, j :| ItemUnder(lines, capture, i, j) {
      ItemNotFirst(lines, capture, i, j);
      var a := RestOfItem(lines, capture, i, j);
    }
  }

  lemma {:induction false} FirstItemOfRest(lines: seq<string>, capture: bool, i: int, j: int) returns (a: int)
    requires NoItemFirst(lines, capture) && FirstItem(lines[1..], CaptureBehind(lines[0], capture), i, j)
    ensures FirstItem(lines, capture, a, j + 1)
  {
    hide ItemUnder, CaptureBehind, Strip, Announces, NestedItem;
    a := ItemInRest(lines, capture, i, j);
    forall x, b | ItemUnder(lines, capture, x, b) ensures j + 1 <= b {
      ItemNotFirst(lines, capture, x, b);
      var y := RestOfItem(lines, capture, x, b);
    }
  }

  lemma {:induction false} PendingStep(lines: seq<string>, capture: bool)
    requires lines != []
    ensures NoItemFirst(lines, capture) ==>
      PendingQuestion(lines, capture) == PendingQuestion(lines[1..], CaptureBehind(lines[0], capture))
    ensures !NoItemFirst(lines, capture) ==>
      PendingQuestion(lines, capture) == NestedItem(Strip(lines[0])) && FirstItem(lines, capture, -1, 0)
  {
    hide Strip, Lower, NestedItem;
    BlankAnnouncesNothing(lines[0]);
  }

  lemma {:induction false} ItemPlaced(lines: seq<string>, capture: bool, i: int, j: int)
    requires FirstItem(lines, capture, i, j)
    ensures 0 <= j < |lines| && NestedItem(Strip(lines[j])).Some?
  {
    hide Strip, Announces, NestedItem;
  }

  lemma {:induction false} NoItems(capture: bool)
    ensures PendingQuestion([], capture) == None && forall i, j :: !ItemUnder([], capture, i, j)
  {
  }

  /** The pending question is the first item under an announcement, if there is one. */
  lemma {:induction false} PendingIsFirstItem(lines: seq<string>, capture: bool)
    returns (i: int, j: int)
    ensures PendingQuestion(lines, capture).None? <==> !(exists a, b :: ItemUnder(lines, capture, a, b))
    ensures PendingQuestion(lines, capture).Some? ==>
      && FirstItem(lines, capture, i, j) && 0 <= j < |lines|
      && PendingQuestion(lines, capture) == NestedItem(Strip(lines[j]))
  {
    hide Strip, Announces, NestedItem, CaptureBehind, NoItemFirst, ItemUnder;
    i, j := -1, 0;
    if lines == [] {
      NoItems(capture);
    } else {
      var rest, next := lines[1..], CaptureBehind(lines[0], capture);
      PendingStep(lines, capture);
      if NoItemFirst(lines, capture) {
        var x, y := PendingIsFirstItem(rest, next);
        ItemsOfRest(lines, capture);
        if PendingQuestion(lines, capture).Some? {
          j := y + 1;
          i := FirstItemOfRest(lines, capture, x, y);
        }
      } else {
        ItemPlaced(lines, capture, -1, 0);
      }
    }
  }

  // ---- the last question with a hint ----

  /** The question that counts is the last one with a hint in it. */
  lemma {:induction false} HintedIsLast(questions: seq<string>) returns (i: int)
    ensures LastHinted(questions).None? <==> i == -1
    ensures -1 <= i < |questions| && forall k :: i < k < |questions| ==> !Hinted(questions[k])
    ensures i >= 0 ==> Hinted(questions[i]) && LastHinted(questions) == Some(Clean(questions[i]))
  {
    hide Hinted, Clean;
    i := |questions| - 1;
    if questions != [] && !Hinted(questions[i]) { i := HintedIsLast(questions[..i]); }
  }

  /** `s[lo..hi]` is a question: text without sentence ends behind a sentence end, and a whole run of question marks. */
  ghost predicate QuestionIn(s: string, lo: int, mid: int, hi: int) {
    && 0 <= lo <= mid < hi <= |s| && (lo > 0 ==> EndsSentence(s[lo - 1]))
    && (forall j :: lo <= j < mid ==> !EndsSentence(s[j])) && (forall j :: mid <= j < hi ==> s[j] == '?')
    && (hi < |s| ==> s[hi] != '?')
  }

  lemma {:induction false} RunOfMarks(s: string)
    ensures var k := QuestionMarks(s);
      (forall j :: 0 <= j < k ==> s[j] == '?') && (k < |s| ==> s[k] != '?')
  {
    if s != [] && s[0] == '?' { RunOfMarks(s[1..]); }
  }

  lemma {:induction false} FirstQuestion(s: string)
    ensures var n := SentenceEnd(s);
      n < |s| && s[n] == '?' ==> QuestionIn(s, 0, n, n + 1 + QuestionMarks(s[n + 1..]))
  {
    hide EndsSentence;
    var n := SentenceEnd(s);
    if n < |s| && s[n] == '?' {
      RunOfMarks(s[n + 1..]);
      forall j | n < j < n + 1 + QuestionMarks(s[n + 1..]) ensures s[j] == '?' { assert s[j] == s[n + 1..][j - n - 1]; }
    }
  }

  /** What `Questions` goes on with. */
  function QuestionsFrom(s: string): (n: nat)
    requires SentenceEnd(s) < |s|
    ensures 0 < n <= |s|
  {
    SentenceEnd(s) + 1 + if s[SentenceEnd(s)] == '?' then QuestionMarks(s[SentenceEnd(s) + 1..]) else 0
  }

  /** The question that ends with the first sentence of the text, if that is one. */
  function FirstOf(s: string): seq<string>
    requires SentenceEnd(s) < |s|
  {
    if s[SentenceEnd(s)] == '?' then [s[..QuestionsFrom(s)]] else []
  }

  lemma {:induction false} QuestionFirst(s: string)
    requires SentenceEnd(s) < |s| && s[SentenceEnd(s)] == '?'
    ensures Questions(s) == [s[..QuestionsFrom(s)]] + Questions(s[QuestionsFrom(s)..])
  {
    hide EndsSentence, SentenceEnd, QuestionMarks;
  }

  lemma {:induction false} NoQuestionFirst(s: string)
    requires SentenceEnd(s) < |s| && s[SentenceEnd(s)] != '?'
    ensures Questions(s) == Questions(s[QuestionsFrom(s)..])
  {
    hide EndsSentence, SentenceEnd, QuestionMarks;
  }

  lemma {:induction false} QuestionsSplit(s: string)
    ensures SentenceEnd(s) == |s| ==> Questions(s) == []
    ensures SentenceEnd(s) < |s| ==> Questions(s) == FirstOf(s) + Questions(s[QuestionsFrom(s)..])
  {
    if SentenceEnd(s) < |s| {
      hide EndsSentence, SentenceEnd, QuestionMarks, Questions, QuestionsFrom;
      if s[SentenceEnd(s)] == '?' {
        QuestionFirst(s);
      } else {
        NoQuestionFirst(s);
      }
    }
  }

  lemma {:induction false} QuestionBehind(s: string, n: nat, lo: int, mid: int, hi: int)
    requires 0 < n <= |s| && EndsSentence(s[n - 1]) && QuestionIn(s[n..], lo, mid, hi)
    ensures QuestionIn(s, n + lo, n + mid, n + hi) && s[n..][lo..hi] == s[n + lo..n + hi]
  {
    hide EndsSentence;
    forall j | n <= j < |s| ensures s[j] == s[n..][j - n] {}
  }

  lemma {:induction false} EndBeforeRest(s: string)
    requires SentenceEnd(s) < |s|
    ensures EndsSentence(s[QuestionsFrom(s) - 1])
  {
    var n := SentenceEnd(s);
    if s[n] == '?' { RunOfMarks(s[n + 1..]); }
  }

  lemma {:induction false} InBounds(s: string, lo: int, mid: int, hi: int)
    requires QuestionIn(s, lo, mid, hi)
    ensures 0 <= lo <= mid < hi <= |s|
  {
  }

  lemma {:induction false} FirstAnswers(s: string)
    ensures SentenceEnd(s) < |s| && FirstOf(s) != [] ==>
      FirstOf(s) == [s[0..QuestionsFrom(s)]] && QuestionIn(s, 0, SentenceEnd(s), QuestionsFrom(s))
  {
    FirstQuestion(s);
    hide EndsSentence, SentenceEnd, QuestionMarks, QuestionIn;
  }

  /** Every question found is one, whole. */
  lemma {:induction false} QuestionsAreWhole(s: string, i: nat) returns (lo: nat, mid: nat, hi: nat)
    requires i < |Questions(s)|
    ensures QuestionIn(s, lo, mid, hi) && Questions(s)[i] == s[lo..hi]
    decreases |s|
  {
    FirstQuestion(s);
    FirstAnswers(s);
    hide EndsSentence, QuestionIn, QuestionMarks, Questions, SentenceEnd, QuestionsFrom, FirstOf;
    QuestionsSplit(s);
    var n := QuestionsFrom(s);
    if i < |FirstOf(s)| {
      lo, mid, hi := 0, SentenceEnd(s), n;
    } else {
      EndBeforeRest(s);
      var x, y, z := QuestionsAreWhole(s[n..], i - |FirstOf(s)|);
      InBounds(s[n..], x, y, z);
      QuestionBehind(s, n, x, y, z);
      lo, mid, hi := n + x, n + y, n + z;
    }
  }

  lemma {:induction false} MarkInFirst(s: string, j: nat)
    requires SentenceEnd(s) < |s| && j < QuestionsFrom(s) && s[j] == '?'
    ensures FirstOf(s) == [s[0..QuestionsFrom(s)]]
  {
    assert EndsSentence(s[j]);
    hide SentenceEnd, QuestionMarks;
  }

  lemma {:induction false} MarkEndsSentence(s: string, j: nat)
    requires j < |s| && s[j] == '?'
    ensures SentenceEnd(s) < |s|
  {
    assert EndsSentence(s[j]);
    hide EndsSentence, SentenceEnd;
  }

  lemma {:induction false} SliceBehind(s: string, n: nat, lo: nat, hi: nat)
    requires n <= |s| && lo <= hi <= |s| - n
    ensures s[n..][lo..hi] == s[n + lo..n + hi]
  {
  }

  lemma {:induction false} InFirst(s: string, j: nat)
    requires SentenceEnd(s) < |s| && j < QuestionsFrom(s) && s[j] == '?'
    ensures |Questions(s)| > 0 && Questions(s)[0] == s[0..QuestionsFrom(s)]
  {
    hide EndsSentence, QuestionMarks, Questions, SentenceEnd, QuestionsFrom, FirstOf;
    QuestionsSplit(s);
    MarkInFirst(s, j);
  }

  lemma {:induction false} InRest(s: string, i: nat)
    requires SentenceEnd(s) < |s| && i < |Questions(s[QuestionsFrom(s)..])|
    ensures |FirstOf(s)| + i < |Questions(s)|
    ensures Questions(s)[|FirstOf(s)| + i] == Questions(s[QuestionsFrom(s)..])[i]
  {
    hide EndsSentence, QuestionMarks, Questions, SentenceEnd, QuestionsFrom, FirstOf;
    QuestionsSplit(s);
  }

  /** Every question mark of a text belongs to a question found. */
  lemma {:induction false} MarkIsInQuestion(s: string, j: nat) returns (i: nat, lo: nat, hi: nat)
    requires j < |s| && s[j] == '?'
    ensures i < |Questions(s)| && lo <= j < hi <= |s| && Questions(s)[i] == s[lo..hi]
    decreases |s|
  {
    hide EndsSentence, QuestionMarks, Questions, SentenceEnd, QuestionsFrom, FirstOf;
    MarkEndsSentence(s, j);
    var n := QuestionsFrom(s);
    if j < n {
      InFirst(s, j);
      i, lo, hi := 0, 0, n;
    } else {
      var a, b, c := MarkIsInQuestion(s[n..], j - n);
      InRest(s, a);
      SliceBehind(s, n, b, c);
      i, lo, hi := |FirstOf(s)| + a, n + b, n + c;
    }
  }

  // ---- blocks of lines ----

  function LinesOf(fields: seq<Field>): seq<string> {
    if fields == [] then [] else [Line(fields[0])] + LinesOf(fields[1..])
  }

  ghost predicate OneLines(fields: seq<Field>) {
    forall f :: f in fields ==> OneLine(Line(f))
  }

  lemma {:induction false} LineNotEmpty(f: Field)
    ensures Line(f) != ""
  {
  }

  lemma {:induction false} BlockLines(f: Field, more: seq<Field>)
    requires OneLines([f] + more)
    ensures SplitLines(Line(f) + Render(more)) == LinesOf([f] + more)
    decreases |more|
  {
    hide Line, IsLineBreak, SplitLines;
    assert f in [f] + more && ([f] + more)[1..] == more;
    LineNotEmpty(f);
    if more == [] {
      NothingRendered();
      assert Line(f) + Render(more) == Line(f);
      SplitOneLine(Line(f));
    } else {
      var g, others := more[0], more[1..];
      assert more == [g] + others && forall h :: h in more ==> h in [f] + more;
      RenderLineCons(Line(f), more, "");
      assert Line(f) + Render(more) + "" == Line(f) + Render(more);
      assert Line(g) + Render(others) + "" == Line(g) + Render(others);
      SplitFirstLine(Line(f), Line(g) + Render(others));
      BlockLines(g, others);
    }
  }

  lemma {:induction false} QuestionsOfLines(f: Field, more: seq<Field>)
    ensures Questions(Line(f) + Render(more)) == QuestionsIn([f] + more)
  {
    hide Questions, Line, Render;
    assert ([f] + more)[1..] == more;
    QuestionsOfBlock(Line(f), more, "");
    assert Line(f) + Render(more) + "" == Line(f) + Render(more);
    WithoutQuestionMark("");
  }

  /** What a message that is a block of lines records as blocker. */
  lemma {:induction false} BlockerOfBlock(content: string, f: Field, more: seq<Field>)
    requires var fields := [f] + more;
      && AllPrintable(fields) && OneLines(fields) && Closed(fields, "")
      && Decided(fields, BLOCKER_PATTERN) && Decided(fields, PENDING_PATTERN)
    requires Strip(content) == Line(f) + Render(more)
    ensures var fields := [f] + more;
      var (direct, inline) :=
        (LastCleaned(Found(fields, "", BLOCKER_PATTERN)), LastCleaned(Found(fields, "", PENDING_PATTERN)));
      ExtractFrom([Some(content)], NOTHING).blocker
        == FirstTruthy(direct, FirstTruthy(inline,
             FirstTruthy(PendingQuestion(LinesOf(fields), false), LastHinted(QuestionsIn(fields)))))
  {
    hide Strip, ExtractField, PendingQuestion, LastHinted, SplitLines, Questions, Found, Line, Render, LastCleaned;
    hide AllPrintable, Decided, Closed, OneLines, QuestionsIn, LinesOf, BLOCKER_PATTERN, PENDING_PATTERN;
    LineNotEmpty(f);
    BlockerPrecedence(content);
    FieldOfBlock(f, more, BLOCKER_PATTERN);
    FieldOfBlock(f, more, PENDING_PATTERN);
    BlockLines(f, more);
    QuestionsOfLines(f, more);
  }

  // ---- lines that hold a pending question ----

  const PENDING_LABEL := "Pending question"
  const PENDING_HEADING := "Pending questions"

  lemma {:induction false} LabelWords()
    ensures PENDING_LABEL == "Pending " + "question" && PENDING_PATTERN.first == "pending " + "question"
  {
    hide Fold;
  }

  lemma {:induction false} PendingIsSpelled()
    ensures Spells("Pending ", "pending ")
  {
  }

  lemma {:induction false} QuestionIsSpelled()
    ensures Spells("question", "question")
  {
  }

  lemma {:induction false} SpellsMore(a: string, b: string, v: string, w: string)
    requires Spells(a, v) && Spells(b, w)
    ensures Spells(a + b, v + w)
  {
    hide Fold;
  }

  lemma {:induction false} LabelIsSpelled()
    ensures Spells(PENDING_LABEL, PENDING_PATTERN.first)
  {
    hide Fold, Spells;
    LabelWords();
    PendingIsSpelled();
    QuestionIsSpelled();
    hide PENDING_LABEL, PENDING_PATTERN;
    SpellsMore("Pending ", "question", "pending ", "question");
  }

  lemma {:induction false} LabelIsRead()
    ensures Reads(PENDING_PATTERN, PENDING_LABEL)
  {
    LabelIsSpelled();
    hide Spells, NotFirst;
    assert PENDING_LABEL != "" && PENDING_PATTERN.first != "";
  }

  lemma {:induction false} HeadingIsLonger()
    ensures PENDING_HEADING == PENDING_LABEL + "s" && PENDING_PATTERN.second == PENDING_PATTERN.first + "s"
  {
    hide Fold;
  }

  lemma {:induction false} HeadingIsSpelled()
    ensures Spells(PENDING_HEADING, PENDING_PATTERN.second)
  {
    assert Spells("s", "s");
    HeadingIsLonger();
    LabelIsSpelled();
    hide Fold, Spells, PENDING_LABEL, PENDING_HEADING, PENDING_PATTERN;
    SpellsMore(PENDING_LABEL, "s", PENDING_PATTERN.first, "s");
  }

  lemma {:induction false} HeadingIsNotLabel()
    ensures PENDING_HEADING != "" && PENDING_PATTERN.first != "" && NotFirst(PENDING_PATTERN, PENDING_HEADING)
  {
    hide Fold;
    assert PENDING_HEADING[|PENDING_PATTERN.first|] == 's';
  }

  lemma {:induction false} HeadingIsRead()
    ensures Reads(PENDING_PATTERN, PENDING_HEADING)
  {
    HeadingIsSpelled();
    HeadingIsNotLabel();
    hide Spells, NotFirst, PENDING_HEADING, PENDING_PATTERN;
  }

  lemma {:induction false} PendingStarts()
    ensures Ignores(BLOCKER_PATTERN, PENDING_LABEL) && Ignores(BLOCKER_PATTERN, PENDING_HEADING)
    ensures PENDING_LABEL != "" && !IsSpace(PENDING_LABEL[0]) && PENDING_HEADING != "" && !IsSpace(PENDING_HEADING[0])
  {
  }

  lemma {:induction false} PendingIsOneLine()
    ensures OneLine(PENDING_LABEL) && OneLine(PENDING_HEADING)
    ensures NoLineFeed(PENDING_LABEL) && NoLineFeed(PENDING_HEADING)
  {
  }

  lemma {:induction false} PendingCaption(caption: string)
    requires caption == PENDING_LABEL || caption == PENDING_HEADING
    ensures Reads(PENDING_PATTERN, caption) && Ignores(BLOCKER_PATTERN, caption)
    ensures caption != "" && !IsSpace(caption[0]) && OneLine(caption) && NoLineFeed(caption)
  {
    LabelIsRead();
    HeadingIsRead();
    PendingStarts();
    PendingIsOneLine();
    hide Reads, Ignores, PENDING_LABEL, PENDING_HEADING, PENDING_PATTERN, BLOCKER_PATTERN, OneLine, NoLineFeed, IsSpace;
  }

  lemma {:induction false} PlainLine(caption: string, v: string)
    requires OneLine(caption) && Plain(v)
    ensures OneLine(Line(Field(caption, v)))
  {
    PlainIsOneLine(v);
    hide IsLineBreak, Plain;
    var line := Line(Field(caption, v));
    assert line == "- " + caption + ": " + v;
    forall c | c in line ensures !IsLineBreak(c) { assert c in "- " || c in caption || c in ": " || c in v; }
  }

  lemma {:induction false} NothingStripped()
    ensures StripMarksFront("") == "" && StripMarksBack("") == ""
  {
  }

  lemma {:induction false} NotBlankWhenClean(v: string)
    requires Clean(v) != ""
    ensures !Blank(v)
  {
    hide StripMarksFront, StripMarksBack, Squeeze;
    SqueezeBlank(v);
    assert StripMarksFront("") == "" by { NothingStripped(); }
    assert StripMarksBack("") == "" by { NothingStripped(); }
  }

  /** Of one or two lines with text behind their colons, the values of those the pattern takes. */
  lemma {:induction false} FoundOfPair(f: Field, more: seq<Field>, p: Pattern)
    requires |more| <= 1 && !Blank(f.value) && (more != [] ==> !Blank(more[0].value))
    ensures LastCleaned(Found([f] + more, "", p))
      == if more != [] && Reads(p, more[0].caption) then Some(Clean(more[0].value))
         else if Reads(p, f.caption) then Some(Clean(f.value))
         else None
  {
    hide Reads, Strip, Line, Blank, FirstLine, Clean;
    assert ([f] + more)[1..] == more;
    CleanStripped(f.value);
    var rest := Found(more, "", p);
    assert Found([f] + more, "", p) == if Reads(p, f.caption) then [Strip(f.value)] + rest else rest;
    if more != [] {
      assert more[1..] == NoFields() && Found(NoFields(), "", p) == [];
      assert rest == if Reads(p, more[0].caption) then [Strip(more[0].value)] else [];
      CleanStripped(more[0].value);
    }
  }

  /** A line that stands in a block, whatever the blocker and the pending pattern make of it. */
  ghost predicate Readable(f: Field) {
    && Printable(f) && OneLine(Line(f))
    && (Reads(BLOCKER_PATTERN, f.caption) || Ignores(BLOCKER_PATTERN, f.caption))
    && (Reads(PENDING_PATTERN, f.caption) || Ignores(PENDING_PATTERN, f.caption))
  }

  lemma {:induction false} PendingIsReadable(caption: string, v: string)
    requires (caption == PENDING_LABEL || caption == PENDING_HEADING) && Plain(v)
    ensures Readable(Field(caption, v))
  {
    PendingCaption(caption);
    PlainLine(caption, v);
    PlainIsOneLine(v);
    hide Reads, Ignores, OneLine, IsSpace, Line, NoLineFeed, BLOCKER_PATTERN, PENDING_PATTERN, Plain;
  }

  lemma {:induction false} BlockerIsReadable(v: string)
    requires Plain(v)
    ensures Readable(Field(BLOCKER_LABEL, v))
  {
    var labels := [STAGE_LABEL, BLOCKER_LABEL, NEXT_STEP_LABEL];
    assert labels[1] in labels;
    BlockerCaption();
    CaptionsAreGood(BLOCKER_LABEL);
    PlainLine(BLOCKER_LABEL, v);
    PlainIsOneLine(v);
    assert BLOCKER_LABEL[0] == 'B' && !IsSpace('B');
    hide Reads, Ignores, OneLine, IsSpace, Line, NoLineFeed, BLOCKER_PATTERN, PENDING_PATTERN, Plain;
  }

  /** What a message that is a block of readable lines records as blocker. */
  lemma {:induction false} BlockerOfReadable(content: string, f: Field, more: seq<Field>)
    requires (forall g :: g in [f] + more ==> Readable(g)) && Closed([f] + more, "")
    requires Strip(content) == Line(f) + Render(more)
    ensures var fields := [f] + more;
      var (direct, inline) :=
        (LastCleaned(Found(fields, "", BLOCKER_PATTERN)), LastCleaned(Found(fields, "", PENDING_PATTERN)));
      ExtractFrom([Some(content)], NOTHING).blocker
        == FirstTruthy(direct, FirstTruthy(inline,
             FirstTruthy(PendingQuestion(LinesOf(fields), false), LastHinted(QuestionsIn(fields)))))
  {
    hide Reads, Ignores, OneLine, Printable, Strip, Line, Render, Found, PendingQuestion, LastHinted, LastCleaned;
    hide Closed, QuestionsIn, LinesOf, BLOCKER_PATTERN, PENDING_PATTERN, ExtractFrom;
    BlockerOfBlock(content, f, more);
  }

  /** A message with a pending-question line, and possibly a blocker line: the blocker wins, then comes the question. */
  lemma {:induction false} PendingLineIsBlocker(
    content: string, caption: string, question: string, blocker: Option<string>)
    requires caption == PENDING_LABEL || caption == PENDING_HEADING
    requires Plain(question) && Clean(question) != ""
    requires blocker.Some? ==> Plain(blocker.value) && !Blank(blocker.value)
    requires Strip(content) == Line(Field(caption, question))
      + Render(if blocker.Some? then [Field(BLOCKER_LABEL, blocker.value)] else [])
    ensures ExtractFrom([Some(content)], NOTHING).blocker
      == if blocker.Some? && Clean(blocker.value) != "" then Some(Clean(blocker.value)) else Some(Clean(question))
  {
    var f, more := Field(caption, question), if blocker.Some? then [Field(BLOCKER_LABEL, blocker.value)] else [];
    BlockerCaption();
    PendingCaption(caption);
    NotBlankWhenClean(question);
    PendingIsReadable(caption, question);
    if blocker.Some? { BlockerIsReadable(blocker.value); }
    ReadsOrIgnores(BLOCKER_PATTERN, caption);
    ReadsOrIgnores(PENDING_PATTERN, BLOCKER_LABEL);
    hide Reads, Ignores, Strip, Clean, Line, Render, Plain, Blank, ExtractFrom, Readable, PENDING_LABEL;
    hide PendingQuestion, LastHinted, QuestionsIn, LinesOf, BLOCKER_PATTERN, PENDING_PATTERN, BLOCKER_LABEL, Found;
    hide PENDING_HEADING, LastCleaned;
    FoundOfPair(f, more, PENDING_PATTERN);
    FoundOfPair(f, more, BLOCKER_PATTERN);
    BlockerOfReadable(content, f, more);
  }

  // ---- items under an announcement ----

  lemma {:induction false} LowerMore(a: string, b: string)
    ensures Lower(a + b) == Lower(a) + Lower(b)
  {
    if a == "" {
      assert a + b == b;
    } else {
      assert (a + b)[1..] == a[1..] + b;
      LowerMore(a[1..], b);
      hide Lower;
    }
  }

  lemma {:induction false} MarksOfLine()
    ensures !IsSpace('-') && !IsSpace(':') && IsSpace(' ')
  {
  }

  lemma {:induction false} CaptionStripped(caption: string)
    ensures Strip(Line(Field(caption, ""))) == "- " + caption + ":"
  {
    hide IsSpace;
    var f := Field(caption, "");
    var line := Line(f);
    LineCharacters(f);
    MarksOfLine();
    hide Line;
    StripIs(line, 0, |line| - 1);
    assert line == "- " + caption + ":" + " ";
  }

  lemma {:induction false} PendingLetters()
    ensures "Pending " == "P" + "ending " && Lower("P") == "p" && "pending " == "p" + "ending "
  {
    assert "P"[1..] == "";
  }

  lemma {:induction false} LowerSmall(s: string)
    requires forall c :: c in s ==> LowerChar(c) == [c]
    ensures Lower(s) == s
  {
    hide LowerChar;
    if s != "" {
      LowerSmall(s[1..]);
      assert s == [s[0]] + s[1..];
    }
  }

  lemma {:induction false} LowerEnding()
    ensures Lower("ending ") == "ending "
  {
    LowerSmall("ending ");
  }

  lemma {:induction false} LowerPending()
    ensures Lower("Pending ") == "pending "
  {
    hide Lower, LowerChar;
    PendingLetters();
    LowerEnding();
    LowerMore("P", "ending ");
  }

  lemma {:induction false} LowerQuestions()
    ensures Lower("questions") == "questions"
  {
    LowerSmall("questions");
  }

  lemma {:induction false} HeadingWords()
    ensures PENDING_HEADING == "Pending " + "questions" && "pending " + "questions" == "pending questions"
  {
  }

  lemma {:induction false} LowerHeading()
    ensures Lower(PENDING_HEADING) == "pending questions"
  {
    hide Lower, LowerChar;
    HeadingWords();
    hide PENDING_HEADING;
    LowerPending();
    LowerQuestions();
    LowerMore("Pending ", "questions");
  }

  lemma {:induction false} LowerMarks()
    ensures Lower("- ") == "- " && Lower(":") == ":"
  {
    LowerSmall("- ");
    LowerSmall(":");
  }

  lemma {:induction false} FirstPendingLine()
    ensures "- " + "pending questions" + ":" == PENDING_LINES[0]
  {
  }

  lemma {:induction false} LowerOfHeadingLine()
    ensures Lower("- " + PENDING_HEADING + ":") == PENDING_LINES[0]
  {
    hide Lower, LowerChar;
    FirstPendingLine();
    hide PENDING_HEADING, PENDING_LINES;
    LowerMarks();
    LowerHeading();
    LowerMore("- " + PENDING_HEADING, ":");
    LowerMore("- ", PENDING_HEADING);
  }

  lemma {:induction false} HeadingAnnounces()
    ensures Announces(Line(Field(PENDING_HEADING, "")))
  {
    CaptionStripped(PENDING_HEADING);
    LowerOfHeadingLine();
    hide Lower, Strip, Line, PENDING_HEADING;
    assert PENDING_LINES[0] in PENDING_LINES;
  }

  /** The text of an item that is printed like a field. */
  function ItemOf(f: Field): string {
    f.caption + ": " + f.value
  }

  lemma {:induction false} LineBehindMark(f: Field)
    ensures Line(f)[1..] == " " + ItemOf(f)
  {
    assert Line(f) == "-" + (" " + ItemOf(f));
  }

  lemma {:induction false} CleanBehindSpace(s: string)
    ensures Clean(" " + s) == Clean(s)
  {
    assert (" " + s)[0] == ' ' && IsSpace(' ') && (" " + s)[1..] == s;
    hide IsSpace, Squeeze;
    SqueezeFront(" " + s, 1);
  }

  lemma {:induction false} FieldIsItem(f: Field)
    requires f.value != "" && !IsSpace(f.value[|f.value| - 1])
    ensures Strip(Line(f)) == Line(f) && NestedItem(Strip(Line(f))) == Some(Clean(ItemOf(f)))
  {
    hide IsSpace, Strip, Clean, ItemOf;
    MarksOfLine();
    LineBehindMark(f);
    LineCharacters(f);
    hide Line, NestedItem;
    var line := Line(f);
    assert line[4 + |f.caption| + (|f.value| - 1)] == f.value[|f.value| - 1];
    StripIs(line, 0, |line|);
    ItemText(line);
    CleanBehindSpace(ItemOf(f));
  }

  lemma {:induction false} ItemNotEmpty(f: Field)
    requires Capital(f.caption)
    ensures Clean(ItemOf(f)) != "" && Clean(Line(f)) != ""
  {
    var c := f.caption[0];
    assert ItemOf(f)[0] == c && Line(f)[2] == c && c in ItemOf(f) && c in Line(f);
    assert !IsSpace(c) && !IsMark(c);
    hide Clean, IsSpace, IsMark, Line;
    CleanKeeps(ItemOf(f), c);
    CleanKeeps(Line(f), c);
  }

  /** An item that is printed like a field, with a caption neither pattern takes and text at the end of its line. */
  ghost predicate PlainItem(f: Field) {
    && Readable(f) && Capital(f.caption) && Ignores(BLOCKER_PATTERN, f.caption)
    && f.value != "" && !IsSpace(f.value[|f.value| - 1])
  }

  lemma {:induction false} NotBlankAtEnd(v: string)
    requires v != "" && !IsSpace(v[|v| - 1])
    ensures !Blank(v)
  {
    hide IsSpace;
  }

  /** An announced item is read through the pattern for whole lines, whose white space crosses the line feed. */
  lemma {:induction false} AnnouncedItemIsBlocker(content: string, item: Field)
    requires PlainItem(item)
    requires Strip(content) == Line(Field(PENDING_HEADING, "")) + Render([item])
    ensures ExtractFrom([Some(content)], NOTHING).blocker == Some(Clean(Line(item)))
  {
    var f := Field(PENDING_HEADING, "");
    NothingIsPlain();
    PendingIsReadable(PENDING_HEADING, "");
    PendingCaption(PENDING_HEADING);
    ReadsOrIgnores(BLOCKER_PATTERN, PENDING_HEADING);
    ReadsOrIgnores(BLOCKER_PATTERN, item.caption);
    ItemNotEmpty(item);
    CleanStripped(Line(item));
    NotBlankAtEnd(item.value);
    NothingIsBlank();
    hide Reads, Ignores, Strip, Clean, Line, Render, ExtractFrom, Readable, PENDING_HEADING, Capital, Blank, IsSpace;
    hide PendingQuestion, LastHinted, QuestionsIn, LinesOf, BLOCKER_PATTERN, PENDING_PATTERN;
    var fields := [f] + [item];
    assert fields[1..] == [item] && fields[2..] == NoFields() && [item][1..] == NoFields();
    assert Found(NoFields(), "", PENDING_PATTERN) == [] && Found(NoFields(), "", BLOCKER_PATTERN) == [];
    assert Found(fields, "", PENDING_PATTERN) == [Strip(Line(item))];
    assert Found([item], "", BLOCKER_PATTERN) == [];
    assert Found(fields, "", BLOCKER_PATTERN) == [];
    BlockerOfReadable(content, f, [item]);
  }

  lemma {:induction false} MarkIsReadable()
    ensures Readable(Field(PENDING_LABEL, "-")) && !Blank("-") && Clean("-") == ""
  {
    assert !IsSpace('-');
    assert Plain("-");
    PendingIsReadable(PENDING_LABEL, "-");
    assert Tidy("-");
    SqueezeTidy("-");
    hide Readable, Squeeze;
    assert "-"[1..] == "";
    NothingStripped();
    assert StripMarksFront("-") == "";
  }

  lemma {:induction false} SilencedFound(item: Field)
    requires PlainItem(item)
    ensures var fields := [Field(PENDING_HEADING, ""), item, Field(PENDING_LABEL, "-")];
      && LastCleaned(Found(fields, "", PENDING_PATTERN)) == Some("")
      && LastCleaned(Found(fields, "", BLOCKER_PATTERN)) == None
  {
    var f, last := Field(PENDING_HEADING, ""), Field(PENDING_LABEL, "-");
    PendingCaption(PENDING_HEADING);
    PendingCaption(PENDING_LABEL);
    MarkIsReadable();
    NothingIsBlank();
    ReadsOrIgnores(BLOCKER_PATTERN, PENDING_HEADING);
    ReadsOrIgnores(BLOCKER_PATTERN, PENDING_LABEL);
    ReadsOrIgnores(BLOCKER_PATTERN, item.caption);
    CleanStripped("-");
    hide Reads, Ignores, Strip, Clean, Line, Readable, PENDING_HEADING, PENDING_LABEL, Capital, Blank, IsSpace;
    hide BLOCKER_PATTERN, PENDING_PATTERN;
    var fields := [f, item, last];
    assert fields[1..] == [item, last] && fields[2..] == [last] && [item, last][1..] == [last];
    assert [last][1..] == NoFields();
    assert Found(NoFields(), "", PENDING_PATTERN) == [] && Found(NoFields(), "", BLOCKER_PATTERN) == [];
    assert Found([last], "", PENDING_PATTERN) == [Strip("-")] && Found([last], "", BLOCKER_PATTERN) == [];
    assert Found([item, last], "", BLOCKER_PATTERN) == [];
    assert Found(fields, "", PENDING_PATTERN) == [Strip(Line(item))] + [Strip("-")];
  }

  lemma {:induction false} LineIsText(f: Field)
    ensures Strip(Line(f)) != ""
  {
    hide IsSpace, Strip, Line, Blank;
    LineNotBlank(f);
    StripBlank(Line(f));
  }

  lemma {:induction false} HeadingStep(heading: string, rest: seq<string>)
    requires Announces(heading) && Strip(heading) != ""
    ensures PendingQuestion([heading] + rest, false) == PendingQuestion(rest, true)
  {
    hide Strip, Lower, NestedItem;
    assert ([heading] + rest)[1..] == rest;
  }

  lemma {:induction false} ItemStep(line: string, rest: seq<string>)
    requires !Announces(line) && Strip(line) != "" && NestedItem(Strip(line)).Some?
    ensures PendingQuestion([line] + rest, true) == NestedItem(Strip(line))
  {
    hide Strip, Lower, NestedItem;
  }

  /** The first item right under an announcement is the pending question, whatever follows. */
  lemma {:induction false} ItemUnderHeading(item: Field, more: seq<string>)
    requires PlainItem(item)
    ensures PendingQuestion([Line(Field(PENDING_HEADING, "")), Line(item)] + more, false) == Some(Clean(ItemOf(item)))
  {
    hide Strip, Clean, Line, Announces, PENDING_HEADING, NestedItem, PendingQuestion, ItemOf, Readable;
    hide Ignores, BLOCKER_PATTERN, IsSpace, Capital;
    HeadingAnnounces();
    FieldNoAnnouncement(item);
    FieldIsItem(item);
    var heading := Line(Field(PENDING_HEADING, ""));
    LineIsText(Field(PENDING_HEADING, ""));
    LineIsText(item);
    HeadingStep(heading, [Line(item)] + more);
    ItemStep(Line(item), more);
    assert [heading, Line(item)] + more == [heading] + ([Line(item)] + more);
  }

  lemma {:induction false} SilencedPending(item: Field)
    requires PlainItem(item)
    ensures PendingQuestion(LinesOf([Field(PENDING_HEADING, ""), item, Field(PENDING_LABEL, "-")]), false)
      == Some(Clean(ItemOf(item)))
  {
    hide PlainItem, Clean, Line, PENDING_HEADING, PENDING_LABEL, PendingQuestion, ItemOf;
    var f, last := Field(PENDING_HEADING, ""), Field(PENDING_LABEL, "-");
    var fields := [f, item, last];
    assert fields[1..] == [item, last] && [item, last][1..] == [last];
    assert LinesOf(fields) == [Line(f), Line(item)] + LinesOf([last]);
    ItemUnderHeading(item, LinesOf([last]));
  }

  /** A later pending line of a mark alone silences that pattern: then the item itself is read. */
  lemma {:induction false} SilencedItemIsBlocker(content: string, item: Field)
    requires PlainItem(item)
    requires Strip(content) == Line(Field(PENDING_HEADING, "")) + Render([item, Field(PENDING_LABEL, "-")])
    ensures ExtractFrom([Some(content)], NOTHING).blocker == Some(Clean(ItemOf(item)))
  {
    var f, last := Field(PENDING_HEADING, ""), Field(PENDING_LABEL, "-");
    ItemNotEmpty(item);
    SilencedFound(item);
    SilencedPending(item);
    MarkIsReadable();
    NothingIsPlain();
    PendingIsReadable(PENDING_HEADING, "");
    hide Reads, Ignores, Strip, Clean, Line, Render, ExtractFrom, Readable, PENDING_HEADING, PENDING_LABEL, Capital;
    hide PendingQuestion, LastHinted, QuestionsIn, LinesOf, BLOCKER_PATTERN, PENDING_PATTERN, Found, LastCleaned;
    hide Blank, IsSpace, ItemOf;
    assert [f] + [item, last] == [f, item, last];
    BlockerOfReadable(content, f, [item, last]);
  }

  // ---- two messages ----

  const PENDING_MESSAGE := "- Pending question: name it"
  const NESTED_MESSAGE :=
    "- Pending questions: " + (['\n'] + "- Target: price" + (['\n'] + "- Pending question: -"))
  const TARGET := Field("Target", "price")

  lemma {:induction false} NameIsClean()
    ensures Clean("name it") == "name it" && Plain("name it")
  {
    assert Tidy("name it");
    hide Clean, Tidy;
    TidyIsClean("name it");
    assert Plain("name it");
  }

  lemma {:induction false} TrimmedIsStripped(s: string)
    requires s != "" && !IsSpace(s[0]) && !IsSpace(s[|s| - 1])
    ensures Strip(s) == s
  {
    hide IsSpace;
    StripIs(s, 0, |s|);
  }

  lemma {:induction false} PendingMessage()
    ensures PENDING_MESSAGE == Line(Field(PENDING_LABEL, "name it"))
  {
  }

  lemma {:induction false} PendingEnds()
    ensures PENDING_MESSAGE != "" && PENDING_MESSAGE[0] == '-' && PENDING_MESSAGE[|PENDING_MESSAGE| - 1] == 't'
    ensures !IsSpace('t')
  {
  }

  lemma {:induction false} PendingWitness()
    ensures ExtractFrom([Some(PENDING_MESSAGE)], NOTHING).blocker == Some("name it")
  {
    hide ExtractFrom, PENDING_MESSAGE, PENDING_LABEL, Strip, Clean, Plain, Line, IsSpace;
    NameIsClean();
    PendingMessage();
    PendingEnds();
    MarksOfLine();
    TrimmedIsStripped(PENDING_MESSAGE);
    NothingRendered();
    assert Line(Field(PENDING_LABEL, "name it")) + "" == Line(Field(PENDING_LABEL, "name it"));
    PendingLineIsBlocker(PENDING_MESSAGE, PENDING_LABEL, "name it", None);
  }

  lemma {:induction false} TargetIsItem()
    ensures PlainItem(TARGET) && ItemOf(TARGET) == "Target: price"
  {
    assert Plain("price") && !IsSpace('e') && !IsSpace('T');
    assert OneLine("Target") && NoLineFeed("Target");
    PlainLine("Target", "price");
    PlainIsOneLine("price");
    hide IsSpace, Plain, OneLine, Line;
  }

  lemma {:induction false} TargetIsClean()
    ensures Clean("Target: price") == "Target: price"
  {
    assert Tidy("Target: price");
    hide Clean, Tidy;
    TidyIsClean("Target: price");
  }

  lemma {:induction false} HeadingLine()
    ensures Line(Field(PENDING_HEADING, "")) == "- Pending questions: "
  {
  }

  lemma {:induction false} TargetLine()
    ensures Line(TARGET) == "- Target: price"
  {
  }

  lemma {:induction false} LastPendingLine()
    ensures Line(Field(PENDING_LABEL, "-")) == "- Pending question: -"
  {
  }

  lemma {:induction false} NestedEnds()
    ensures NESTED_MESSAGE != "" && NESTED_MESSAGE[0] == '-' && NESTED_MESSAGE[|NESTED_MESSAGE| - 1] == '-'
  {
    var last := "- Pending question: -";
    assert last[|last| - 1] == '-';
  }

  lemma {:induction false} NestedMessage()
    ensures NESTED_MESSAGE
      == "- Pending questions: " + ((['\n'] + "- Target: price") + (['\n'] + "- Pending question: -"))
  {
  }

  lemma {:induction false} TwoRendered(f: Field, g: Field)
    ensures Render([f, g]) == (['\n'] + Line(f)) + (['\n'] + Line(g))
  {
    hide Line;
    assert [f, g][1..] == [g] && [g][1..] == NoFields();
    assert Render(NoFields()) == "" && Render([g]) == ['\n'] + Line(g);
  }

  /** The heading takes the item over, but a later mark alone empties the value: the item under the heading counts. */
  lemma {:induction false} NestedWitness()
    ensures ExtractFrom([Some(NESTED_MESSAGE)], NOTHING).blocker == Some("Target: price")
  {
    hide ExtractFrom, NESTED_MESSAGE, PENDING_LABEL, PENDING_HEADING, Strip, Clean, Line, TARGET, ItemOf;
    hide PlainItem, IsSpace;
    TargetIsItem();
    TargetIsClean();
    HeadingLine();
    TargetLine();
    LastPendingLine();
    NestedMessage();
    NestedEnds();
    MarksOfLine();
    TrimmedIsStripped(NESTED_MESSAGE);
    TwoRendered(TARGET, Field(PENDING_LABEL, "-"));
    SilencedItemIsBlocker(NESTED_MESSAGE, TARGET);
  }
}
