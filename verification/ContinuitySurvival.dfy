/**
 * Repeated compression: the summary at the front records what would be extracted from all the messages it stands
 * for, however many compressions have taken place.
 */
module ContinuitySurvival {
  import opened Options
  import opened TextTools
  import opened Messages
  import opened ContextManager
  import opened Continuity
  import opened ContinuityScan
  import opened ContinuityText
  import opened ContinuityRoundTrip

  // ---- what extraction makes of a longer conversation ----

  /** Newer findings first, older ones for what is still missing. */
  function Merge(newer: State, former: State): State {
    State(
      if newer.stage.Some? then newer.stage else former.stage,
      if Truthy(newer.blocker) then newer.blocker else former.blocker,
      if Truthy(newer.nextStep) then newer.nextStep else former.nextStep)
  }

  ghost predicate HasText(contents: seq<Option<string>>) {
    exists c :: c in contents && Strip(GetOr(c, "")) != ""
  }

  lemma {:induction false} AbsorbMerges(s: State, text: string)
    ensures Absorb(s, text) == Merge(s, Absorb(NOTHING, text))
  {
    hide ExtractStage, ExtractBlocker, ExtractField;
  }

  lemma {:induction false} MergeAssociates(a: State, b: State, c: State)
    ensures Merge(Merge(a, b), c) == Merge(a, Merge(b, c))
  {
  }

  /** Reading older messages fills in what their own reading finds. */
  lemma {:induction false} ExtractionMerges(contents: seq<Option<string>>, s: State)
    ensures HasText(contents) ==> ExtractFrom(contents, s) == Merge(s, ExtractFrom(contents, NOTHING))
    ensures !HasText(contents) ==> ExtractFrom(contents, s) == s
    ensures !HasText(contents) ==> ExtractFrom(contents, NOTHING) == NOTHING
  {
    hide Absorb, Strip;
    if contents != [] {
      var n := |contents| - 1;
      var former, content := contents[..n], Strip(GetOr(contents[n], ""));
      assert contents == former + [contents[n]] && contents[n] in contents;
      assert forall c :: c in contents ==> c in former || c == contents[n];
      assert forall c :: c in former ==> c in contents;
      if content == "" {
        ExtractionMerges(former, s);
        assert HasText(contents) <==> HasText(former);
      } else {
        var found := Absorb(NOTHING, content);
        AbsorbMerges(s, content);
        ExtractionMerges(former, Absorb(s, content));
        ExtractionMerges(former, found);
        MergeAssociates(s, found, ExtractFrom(former, NOTHING));
      }
    }
  }

  lemma {:induction false} ExtractionConcat(a: seq<Option<string>>, b: seq<Option<string>>, s: State)
    ensures ExtractFrom(a + b, s) == ExtractFrom(a, ExtractFrom(b, s))
  {
    hide Absorb, Strip;
    if b == [] {
      assert a + b == a;
    } else {
      var n := |b| - 1;
      assert (a + b)[|a + b| - 1] == b[n] && (a + b)[..|a + b| - 1] == a + b[..n];
      if !Complete(s) {
        var content := Strip(GetOr(b[n], ""));
        ExtractionConcat(a, b[..n], if content == "" then s else Absorb(s, content));
      }
    }
  }

  // ---- a summary stands for the messages it was written for ----

  /** Cleaning leaves the values alone, and without a blocker the next step asks nothing with a hint in it. */
  ghost predicate Steady(s: State) {
    Stable(s) && (s.blocker.None? ==> Asked(s) == None)
  }

  lemma {:induction false} SteadyWithoutContent(s: State)
    requires Steady(s) && !HasContent(s)
    ensures s == NOTHING
  {
    hide Clean, Asked;
    NothingIsBlank();
  }

  lemma {:induction false} SteadyIsTruthy(s: State)
    requires Steady(s)
    ensures s.nextStep.Some? ==> Truthy(s.nextStep)
    ensures s.blocker.Some? ==> Truthy(s.blocker)
  {
    hide Clean, Asked;
    NothingIsBlank();
  }

  lemma {:induction false} NothingToPrint(body: Option<string>)
    ensures SummaryContent(NOTHING, body) == SUMMARY_HEADER + TailOf(body)
  {
    assert SUMMARY_HEADER + "" == SUMMARY_HEADER;
    hide SUMMARY_HEADER;
  }

  lemma {:induction false} HeaderWithoutQuestion()
    ensures Questions(SUMMARY_HEADER) == []
    ensures !IsSpace(SUMMARY_HEADER[|SUMMARY_HEADER| - 1])
  {
    WithoutQuestionMark(SUMMARY_HEADER);
  }

  lemma {:induction false} HeaderStripped(header: string, tail: string)
    requires Header(header) && !IsSpace(header[|header| - 1])
    ensures Strip(header + tail) == header + TrimRight(tail)
  {
    TrimEndStops(header, 0, |header|, |header|);
    TrimRightConcat(header, tail);
    assert (header + tail)[0] == header[0];
    StripWithoutIndent(header + tail);
    if Blank(tail) { TrimEndStops(tail, 0, |tail|, 0); }
  }

  lemma {:induction false} HeaderHoldsNoField(header: string, rest: string, p: Pattern)
    requires Header(header) && SilentFor(rest, p)
    ensures ExtractField(header + rest, p) == None
  {
    hide MatchAt, Clean;
    var s := header + rest;
    SilentBelow(header, rest, p);
    assert forall j :: 0 <= j < |header| ==> s[j] == header[j];
    NoMatchAtHeader(s, 0, p);
    SkipUnmatched(s, 0, |header|, p);
  }

  lemma {:induction false} HeaderHoldsNoFields(header: string, rest: string)
    requires Header(header) && Inert(rest)
    ensures forall p :: p in PATTERNS ==> ExtractField(header + rest, p) == None
    ensures ExtractField(header + rest, STAGE_PATTERN) == None && ExtractField(header + rest, BLOCKER_PATTERN) == None
    ensures ExtractField(header + rest, NEXT_STEP_PATTERN) == None
    ensures ExtractField(header + rest, PENDING_PATTERN) == None
  {
    PatternsListed();
    hide Header, Questions, ExtractField, NotPending, LastHinted, SilentFor, PATTERNS;
    hide STAGE_PATTERN, BLOCKER_PATTERN, NEXT_STEP_PATTERN, PENDING_PATTERN;
    forall p | p in PATTERNS ensures ExtractField(header + rest, p) == None { HeaderHoldsNoField(header, rest, p); }
  }

  lemma {:induction false} HeaderAsksNothing(header: string, rest: string)
    requires Quiet(header) && Questions(header) == [] && Inert(rest)
    ensures PendingQuestion(SplitLines(header + rest), false) == None && LastHinted(Questions(header + rest)) == None
  {
    InertIsBelow(rest);
    hide Quiet, Questions, SplitLines, PendingQuestion, LastHinted, SilentFor, PATTERNS, NotPending;
    LineAboveRest(header, rest);
    QuestionsConcat(header, rest);
    assert [] + Questions(rest) == Questions(rest);
  }

  lemma {:induction false} HeaderAboveInert(header: string, rest: string)
    requires Header(header) && Quiet(header) && Questions(header) == [] && Inert(rest)
    ensures header + rest != "" && Absorb(NOTHING, header + rest) == NOTHING
  {
    hide Quiet, Questions, ExtractField, SplitLines, PendingQuestion, LastHinted, Inert, IsSpace;
    hide STAGE_PATTERN, BLOCKER_PATTERN, NEXT_STEP_PATTERN, PENDING_PATTERN;
    HeaderHoldsNoFields(header, rest);
    HeaderAsksNothing(header, rest);
  }

  lemma {:induction false} HeaderReadsNothing(body: Option<string>)
    requires Inert(TextBelow(body))
    ensures var content := SummaryContent(NOTHING, body);
      Strip(content) != "" && Absorb(NOTHING, Strip(content)) == NOTHING
  {
    HeadersAreHeaders();
    HeadersAreQuiet();
    HeaderWithoutQuestion();
    hide SUMMARY_HEADER, Inert, TrimRight, Strip, Absorb, Quiet, Blank, Questions;
    assert SummaryContent(NOTHING, body) == SUMMARY_HEADER + TailOf(body) by { NothingToPrint(body); }
    HeaderStripped(SUMMARY_HEADER, TailOf(body));
    HeaderAboveInert(SUMMARY_HEADER, TextBelow(body));
  }

  lemma {:induction false} SteadyComesBack(s: State, body: Option<string>)
    requires Steady(s) && PlainState(s) && Inert(TextBelow(body))
    ensures Strip(SummaryContent(s, body)) != ""
    ensures Absorb(NOTHING, Strip(SummaryContent(s, body))) == s
  {
    hide Clean, Asked, Inert, SummaryContent, Strip, Absorb, PlainState, HasContent, ExtractFrom, Keeps, TextBelow;
    if HasContent(s) {
      SummaryReadsBack(s, body);
      ContinuityRoundTrips(s, body);
      KeepsIffStable(s, body);
      OneMessage(SummaryContent(s, body));
    } else {
      SteadyWithoutContent(s);
      HeaderReadsNothing(body);
    }
  }

  lemma {:induction false} NothingIsPlainState()
    ensures PlainState(NOTHING)
  {
  }

  lemma {:induction false} SummaryFills(content: string, s: State, found: State)
    requires Strip(content) != "" && Absorb(NOTHING, Strip(content)) == s
    ensures ExtractFrom([Some(content)], found) == Merge(found, s)
  {
    hide Absorb, Strip;
    AbsorbMerges(found, Strip(content));
    var none: seq<Option<string>> := [];
    assert [Some(content)][..0] == none;
    assert ExtractFrom(none, Absorb(found, Strip(content))) == Absorb(found, Strip(content));
  }

  /** A summary in front of later messages is read like the messages it was written for. */
  lemma {:induction false} SummaryStandsForMessages(
    past: seq<Option<string>>, later: seq<Option<string>>, body: Option<string>)
    requires Inert(TextBelow(body)) && Steady(ExtractFrom(past, NOTHING))
    requires Steady(ExtractFrom(past + later, NOTHING))
    ensures var summary := Some(SummaryContent(ExtractFrom(past, NOTHING), body));
      ExtractFrom([summary] + later, NOTHING) == ExtractFrom(past + later, NOTHING)
  {
    hide SummaryContent, Strip, Absorb, PlainState, ExtractFrom, TextBelow, Inert, Steady, HasText;
    var s, found := ExtractFrom(past, NOTHING), ExtractFrom(later, NOTHING);
    NothingIsPlainState();
    ExtractedIsPlain(past, NOTHING);
    SteadyComesBack(s, body);
    ExtractionConcat([Some(SummaryContent(s, body))], later, NOTHING);
    ExtractionConcat(past, later, NOTHING);
    ExtractionMerges(past, found);
    SummaryFills(SummaryContent(s, body), s, found);
    SteadyIsTruthy(ExtractFrom(past + later, NOTHING));
  }

  // ---- compression after compression ----

  lemma {:induction false} ContentsConcat(a: seq<Message>, b: seq<Message>)
    ensures Contents(a + b) == Contents(a) + Contents(b)
  {
    hide ContentOf;
  }

  /** What is extracted from the messages before position `m`, behind the system message. */
  function Recorded(full: seq<Message>, m: nat): State
    requires 1 <= m <= |full|
  {
    ExtractFrom(Contents(full[1..m]), NOTHING)
  }

  /** `shown` is the list `full` with the messages before position `m` replaced by their summary. */
  ghost predicate Summarised(shown: seq<Message>, full: seq<Message>, m: nat, body: Option<string>) {
    && 2 <= m <= |full| && Inert(TextBelow(body)) && Steady(Recorded(full, m))
    && shown == [full[0], SummaryOf(full[1..m], body)] + full[m..]
  }

  /** `shown` is the list `full`, or summarises its front. */
  ghost predicate StandsFor(shown: seq<Message>, full: seq<Message>) {
    shown == full || exists m: nat, body: Option<string> :: Summarised(shown, full, m, body)
  }

  lemma {:induction false} SummaryOfSummary(
    past: seq<Message>, later: seq<Message>, earlier: Option<string>, body: Option<string>)
    requires Inert(TextBelow(earlier)) && Steady(ExtractFrom(Contents(past), NOTHING))
    requires Steady(ExtractFrom(Contents(past + later), NOTHING))
    ensures SummaryOf([SummaryOf(past, earlier)] + later, body) == SummaryOf(past + later, body)
  {
    hide ExtractFrom, SummaryContent, Inert, Steady, TextBelow;
    ContentsConcat(past, later);
    var summary := SummaryOf(past, earlier);
    ContentsConcat([summary], later);
    assert Contents([summary]) == [summary.content];
    SummaryStandsForMessages(Contents(past), Contents(later), earlier);
  }

  ghost predicate SteadyCut(full: seq<Message>, keep: nat) {
    |full| >= keep + 2 ==> Steady(Recorded(full, |full| - keep))
  }

  lemma {:induction false} CutBehindFirst<T>(ms: seq<T>, keep: nat)
    requires |ms| - 1 > keep >= 1
    ensures AllButLast(ms[1..], keep) == ms[1..|ms| - keep] && Last(ms[1..], keep) == ms[|ms| - keep..]
  {
  }

  /** A cut behind an item that stands for `ms[1..m]`. */
  lemma {:induction false} CutBehindItem<T>(ms: seq<T>, m: nat, item: T, keep: nat)
    requires 2 <= m <= |ms| && 1 + |ms| - m > keep >= 1
    ensures m <= |ms| - keep && ms[1..m] + ms[m..|ms| - keep] == ms[1..|ms| - keep]
    ensures AllButLast([item] + ms[m..], keep) == [item] + ms[m..|ms| - keep]
    ensures Last([item] + ms[m..], keep) == ms[|ms| - keep..]
  {
    var rest := [item] + ms[m..];
    assert |rest| - keep == 1 + (|ms| - keep - m);
  }

  lemma {:induction false} FirstCut(full: seq<Message>, keep: nat, body: Option<string>)
    requires Request(full, keep) && |full| - 1 > keep >= 1 && SteadyCut(full, keep) && Inert(TextBelow(body))
    ensures Summarised(Compress(full, keep, Some(body)), full, |full| - keep, body)
  {
    hide SummaryOf, Inert, Steady, Conversation, TextBelow, Recorded, Compress, AllButLast, Last;
    CompressedRequest(full, keep, Some(body));
    CutBehindFirst(full, keep);
  }

  lemma {:induction false} SummarisedRest(shown: seq<Message>, full: seq<Message>, m: nat, body: Option<string>)
    requires Summarised(shown, full, m, body)
    ensures 2 <= m <= |full| && |shown| == 2 + |full| - m && shown[0] == full[0]
    ensures shown[1..] == [SummaryOf(full[1..m], body)] + full[m..]
  {
    hide SummaryOf, Inert, Steady, TextBelow, Recorded;
  }

  lemma {:induction false} LaterCut(
    shown: seq<Message>, full: seq<Message>, m: nat, earlier: Option<string>, keep: nat, body: Option<string>)
    requires Summarised(shown, full, m, earlier) && Request(shown, keep) && |shown| - 1 > keep >= 1
    requires SteadyCut(full, keep) && Inert(TextBelow(body))
    ensures |full| >= keep && Summarised(Compress(shown, keep, Some(body)), full, |full| - keep, body)
  {
    hide SummaryOf, Inert, Steady, Request, TextBelow, Compress, ExtractFrom, Contents, AllButLast, Last;
    SummarisedRest(shown, full, m, earlier);
    CompressedRequest(shown, keep, Some(body));
    CutBehindItem(full, m, SummaryOf(full[1..m], earlier), keep);
    SummaryOfSummary(full[1..m], full[m..|full| - keep], earlier, body);
  }

  /** One compression, whatever stands at the front of the list. */
  lemma {:induction false} CompressionStandsFor(
    shown: seq<Message>, full: seq<Message>, keep: nat, summary: Option<Option<string>>)
    requires StandsFor(shown, full) && Request(shown, keep) && keep >= 1 && SteadyCut(full, keep)
    requires summary.Some? ==> Inert(TextBelow(summary.value))
    ensures StandsFor(Compress(shown, keep, summary), full)
  {
    hide SummaryOf, Inert, Steady, Conversation, TextBelow, Summarised, SteadyCut;
    SplitRequest(shown, keep);
    if |shown| - 1 > keep && summary.Some? {
      if shown == full {
        FirstCut(full, keep, summary.value);
        assert Summarised(Compress(shown, keep, summary), full, |full| - keep, summary.value);
      } else {
        var m: nat, body: Option<string> :| Summarised(shown, full, m, body);
        LaterCut(shown, full, m, body, keep, summary.value);
        assert Summarised(Compress(shown, keep, summary), full, |full| - keep, summary.value);
      }
    } else {
      assert Compress(shown, keep, summary) == shown;
    }
  }

  /** New messages stand behind both lists. */
  lemma {:induction false} AddedStandsFor(shown: seq<Message>, full: seq<Message>, added: seq<Message>)
    requires StandsFor(shown, full)
    ensures StandsFor(shown + added, full + added)
  {
    hide SummaryOf, Inert, Steady, TextBelow, ExtractFrom, Contents;
    if shown != full {
      var m: nat, body: Option<string> :| Summarised(shown, full, m, body);
      assert (full + added)[1..m] == full[1..m] && (full + added)[m..] == full[m..] + added;
      assert Summarised(shown + added, full + added, m, body);
    }
  }

  /** Messages come in, then the list is compressed; None when the model's call fails. */
  datatype Round = Round(added: seq<Message>, summary: Option<Option<string>>)

  /** The list after the rounds, each compressed if it is too long. */
  function Rolled(ms: seq<Message>, rounds: seq<Round>, keep: nat): seq<Message> {
    if rounds == [] then ms
    else
      var last := rounds[|rounds| - 1];
      Compress(Rolled(ms, rounds[..|rounds| - 1], keep) + last.added, keep, last.summary)
  }

  /** The list had it never been compressed. */
  function Uncompressed(ms: seq<Message>, rounds: seq<Round>): seq<Message> {
    if rounds == [] then ms else Uncompressed(ms, rounds[..|rounds| - 1]) + rounds[|rounds| - 1].added
  }

  ghost predicate Regular(r: Round) {
    Items(r.added) && (r.summary.Some? ==> Inert(TextBelow(r.summary.value)))
  }

  ghost predicate SteadyCuts(ms: seq<Message>, rounds: seq<Round>, keep: nat) {
    forall k :: 1 <= k <= |rounds| ==> SteadyCut(Uncompressed(ms, rounds[..k]), keep)
  }

  lemma {:induction false} RequestGrows(ms: seq<Message>, added: seq<Message>, keep: nat)
    requires Request(ms, keep) && Items(added)
    ensures Request(ms + added, keep)
  {
    hide Conversation, Items;
    assert (ms + added)[1..] == ms[1..] + added;
    ConversationGrows(ms[1..], added, keep);
  }

  lemma {:induction false} StandsForItself(ms: seq<Message>)
    ensures StandsFor(ms, ms)
  {
  }

  /**
   * After any number of compressions the list is the uncompressed one, or that with its front replaced by the
   * summary of everything in that front.
   */
  lemma {:induction false} CompressionLosesNoContinuity(ms: seq<Message>, rounds: seq<Round>, keep: nat)
    requires Request(ms, keep) && keep >= 1 && (forall r :: r in rounds ==> Regular(r)) && SteadyCuts(ms, rounds, keep)
    ensures Request(Rolled(ms, rounds, keep), keep)
    ensures StandsFor(Rolled(ms, rounds, keep), Uncompressed(ms, rounds))
  {
    hide Request, Compress, Steady, StandsFor, Items, Inert, TextBelow, SteadyCut;
    if rounds == [] {
      StandsForItself(ms);
    } else {
      var n := |rounds| - 1;
      var front, last := rounds[..n], rounds[n];
      assert last in rounds && Regular(last) && forall r :: r in front ==> r in rounds;
      assert forall k :: 1 <= k <= n ==> front[..k] == rounds[..k];
      CompressionLosesNoContinuity(ms, front, keep);
      var shown, full := Rolled(ms, front, keep), Uncompressed(ms, front);
      RequestGrows(shown, last.added, keep);
      AddedStandsFor(shown, full, last.added);
      assert rounds[..n + 1] == rounds;
      CompressionStandsFor(shown + last.added, full + last.added, keep, last.summary);
      CompressKeepsRequest(shown + last.added, keep, last.summary);
    }
  }

  // ---- a recorded state survives ----

  ghost predicate SilentMessages(ms: seq<Message>) {
    forall m :: m in ms ==> Silent(ContentOf(m))
  }

  /** Behind the system message a summary of the state, then messages that record nothing. */
  ghost predicate Remembers(ms: seq<Message>, s: State) {
    |ms| >= 2 && SilentMessages(ms[2..])
    && exists body :: Inert(TextBelow(body)) && ms[1] == Assistant(Some(SummaryContent(s, body)), [])
  }

  lemma {:induction false} SilentContents(ms: seq<Message>, m: nat)
    requires SilentMessages(ms) && m <= |ms|
    ensures forall c :: c in Contents(ms[..m]) ==> Silent(c)
  {
    hide Silent, ContentOf;
    forall c | c in Contents(ms[..m]) ensures Silent(c) {
      var i :| 0 <= i < m && Contents(ms[..m])[i] == c;
      assert ms[i] in ms;
    }
  }

  lemma {:induction false} SummaryMessageContent(m: Message, content: string)
    requires m == Assistant(Some(content), [])
    ensures Contents([m]) == [Some(content)]
  {
  }

  lemma {:induction false} SteadyKeeps(s: State, body: Option<string>)
    requires Steady(s)
    ensures Keeps(s, body)
  {
    hide Clean, Asked;
    KeepsIffStable(s, body);
  }

  lemma {:induction false} RememberedIsRecorded(ms: seq<Message>, s: State, m: nat)
    requires Remembers(ms, s) && HasContent(s) && PlainState(s) && Steady(s) && 2 <= m <= |ms|
    ensures Recorded(ms, m) == s
  {
    hide SummaryContent, Inert, HasContent, PlainState, SilentMessages, Silent, TextBelow, Keeps, Steady, Contents;
    hide ExtractFrom;
    var body :| Inert(TextBelow(body)) && ms[1] == Assistant(Some(SummaryContent(s, body)), []);
    ContinuityRoundTrips(s, body);
    SteadyKeeps(s, body);
    assert ms[1..m] == [ms[1]] + ms[2..][..m - 2];
    ContentsConcat([ms[1]], ms[2..][..m - 2]);
    SummaryMessageContent(ms[1], SummaryContent(s, body));
    SilentContents(ms[2..], m - 2);
    SilentMessagesPass([Some(SummaryContent(s, body))], Contents(ms[2..][..m - 2]));
  }

  lemma {:induction false} SilentTogether(a: seq<Message>, b: seq<Message>)
    requires SilentMessages(a) && SilentMessages(b)
    ensures SilentMessages(a + b)
  {
    hide Silent, ContentOf;
  }

  /** A summary of the state, then nothing more to record. */
  lemma {:induction false} RemembersMore(ms: seq<Message>, rounds: seq<Round>, s: State)
    requires Remembers(ms, s) && forall r :: r in rounds ==> SilentMessages(r.added)
    ensures Remembers(Uncompressed(ms, rounds), s)
  {
    hide SilentMessages, Inert, SummaryContent, TextBelow;
    if rounds != [] {
      var n := |rounds| - 1;
      assert rounds[n] in rounds && forall r :: r in rounds[..n] ==> r in rounds;
      RemembersMore(ms, rounds[..n], s);
      var full, added := Uncompressed(ms, rounds[..n]), rounds[n].added;
      assert (full + added)[2..] == full[2..] + added && (full + added)[1] == full[1];
      SilentTogether(full[2..], added);
    }
  }

  lemma {:induction false} RemembersEverywhere(full: seq<Message>, keep: nat, s: State)
    requires Remembers(full, s) && HasContent(s) && PlainState(s) && Steady(s)
    ensures SteadyCut(full, keep)
  {
    hide HasContent, PlainState, Steady, Recorded, Remembers;
    if |full| >= keep + 2 { RememberedIsRecorded(full, s, |full| - keep); }
  }

  lemma {:induction false} RemembersHasSummary(ms: seq<Message>, s: State)
    requires Remembers(ms, s)
    ensures |ms| >= 2 && exists body :: ms[1] == Assistant(Some(SummaryContent(s, body)), [])
  {
    hide SilentMessages, Inert, SummaryContent;
  }

  lemma {:induction false} SilentTail(ms: seq<Message>, n: nat)
    requires SilentMessages(ms) && n <= |ms|
    ensures SilentMessages(ms[n..])
  {
    hide Silent, ContentOf;
  }

  lemma {:induction false} StandInRemembers(shown: seq<Message>, full: seq<Message>, s: State)
    requires StandsFor(shown, full) && Remembers(full, s)
    requires HasContent(s) && PlainState(s) && Steady(s)
    ensures Remembers(shown, s)
  {
    hide HasContent, PlainState, Steady, SilentMessages, SummaryContent, Inert, TextBelow, ExtractFrom, Contents;
    if shown != full {
      var m: nat, body: Option<string> :| Summarised(shown, full, m, body);
      RememberedIsRecorded(full, s, m);
      assert shown[2..] == full[m..] == full[2..][m - 2..];
      SilentTail(full[2..], m - 2);
      assert shown[1] == Assistant(Some(SummaryContent(s, body)), []);
    }
  }

  /** A recorded state survives any number of compressions, as long as the messages since record nothing. */
  lemma {:induction false} ContinuitySurvives(ms: seq<Message>, rounds: seq<Round>, keep: nat, s: State)
    requires Request(ms, keep) && keep >= 1 && Remembers(ms, s)
    requires HasContent(s) && PlainState(s) && Steady(s)
    requires forall r :: r in rounds ==> Regular(r) && SilentMessages(r.added)
    ensures var shown := Rolled(ms, rounds, keep);
      && Request(shown, keep) && |shown| >= 2
      && (exists body :: shown[1] == Assistant(Some(SummaryContent(s, body)), []))
      && forall m :: 2 <= m <= |shown| ==> Recorded(shown, m) == s
  {
    hide Request, HasContent, PlainState, Steady, Regular, SilentMessages, SummaryContent, Inert, TextBelow, Recorded;
    hide Remembers, StandsFor, Rolled;
    forall k | 1 <= k <= |rounds| ensures SteadyCut(Uncompressed(ms, rounds[..k]), keep) {
      RemembersMore(ms, rounds[..k], s);
      RemembersEverywhere(Uncompressed(ms, rounds[..k]), keep, s);
    }
    CompressionLosesNoContinuity(ms, rounds, keep);
    RemembersMore(ms, rounds, s);
    var shown := Rolled(ms, rounds, keep);
    StandInRemembers(shown, Uncompressed(ms, rounds), s);
    forall m | 2 <= m <= |shown| ensures Recorded(shown, m) == s { RememberedIsRecorded(shown, s, m); }
    RemembersHasSummary(shown, s);
  }

  // ---- what is recorded when states do not come back ----

  /** Without content to print, what is read is nothing. */
  lemma {:induction false} NothingRecovered(s: State, body: Option<string>)
    requires !HasContent(s)
    ensures Recovered(s, body) == NOTHING && SummaryContent(s, body) == SummaryContent(NOTHING, body)
  {
    hide SUMMARY_HEADER;
  }

  lemma {:induction false} SummaryIsRead(s: State, body: Option<string>)
    requires PlainState(s) && Inert(TextBelow(body))
    ensures Strip(SummaryContent(s, body)) != ""
    ensures Absorb(NOTHING, Strip(SummaryContent(s, body))) == Recovered(s, body)
  {
    hide Inert, SummaryContent, Strip, Absorb, PlainState, HasContent, ExtractFrom, TextBelow, Recovered;
    if HasContent(s) {
      SummaryReadsBack(s, body);
      OneMessage(SummaryContent(s, body));
    } else {
      NothingRecovered(s, body);
      HeaderReadsNothing(body);
    }
  }

  /** What the summary of a summary and later messages records: the later findings over what is read back. */
  lemma {:induction false} NextSummaryRecords(
    s: State, body: Option<string>, summary: Message, later: seq<Message>, next: Option<string>)
    requires PlainState(s) && Inert(TextBelow(body))
    requires summary == Assistant(Some(SummaryContent(s, body)), [])
    ensures var recorded := Merge(ExtractFrom(Contents(later), NOTHING), Recovered(s, body));
      && PlainState(recorded)
      && SummaryOf([summary] + later, next) == Assistant(Some(SummaryContent(recorded, next)), [])
  {
    hide ExtractFrom, SummaryContent, Inert, TextBelow, Recovered, Strip, Absorb, PlainState, Contents;
    var content := SummaryContent(s, body);
    SummaryIsRead(s, body);
    ContentsConcat([summary], later);
    SummaryMessageContent(summary, content);
    ExtractionConcat([Some(content)], Contents(later), NOTHING);
    SummaryFills(content, Recovered(s, body), ExtractFrom(Contents(later), NOTHING));
    NothingIsPlainState();
    ExtractedIsPlain([Some(content)] + Contents(later), NOTHING);
  }

  /** The summary at the front: it stands for the messages before position `m`, and records `state`. */
  datatype Standing = Standing(m: nat, state: State, body: Option<string>)

  ghost predicate Placed(st: Option<Standing>, full: seq<Message>) {
    st.Some? ==> 2 <= st.value.m <= |full| && PlainState(st.value.state) && Inert(TextBelow(st.value.body))
  }

  /** The list `full` behind the summary at its front, if any. */
  ghost function ShownBy(full: seq<Message>, st: Option<Standing>): seq<Message>
    requires Placed(st, full)
  {
    if st.None? then full
    else [full[0], Assistant(Some(SummaryContent(st.value.state, st.value.body)), [])] + full[st.value.m..]
  }

  /** The summary after one more compression, which fails or finds too little to cut, or summarises the old one. */
  ghost function NextStanding(st: Option<Standing>, full: seq<Message>, keep: nat, summary: Option<Option<string>>)
    : Option<Standing>
    requires Placed(st, full) && full != []
  {
    var (others, n) := (if st.None? then |full| - 1 else 1 + |full| - st.value.m, |full| - keep);
    if summary.None? || others <= keep || keep == 0 then st
    else if st.None? then Some(Standing(n, Recorded(full, n), summary.value))
    else
      var later := ExtractFrom(Contents(full[st.value.m..n]), NOTHING);
      Some(Standing(n, Merge(later, Recovered(st.value.state, st.value.body)), summary.value))
  }

  lemma {:induction false} RecordedIsPlain(full: seq<Message>, n: nat)
    requires 1 <= n <= |full|
    ensures PlainState(Recorded(full, n))
  {
    hide PlainState, ExtractFrom;
    NothingIsPlainState();
    ExtractedIsPlain(Contents(full[1..n]), NOTHING);
  }

  lemma {:induction false} FirstStanding(full: seq<Message>, keep: nat, body: Option<string>)
    requires Request(full, keep) && |full| - 1 > keep >= 1 && Inert(TextBelow(body))
    ensures var st := Some(Standing(|full| - keep, Recorded(full, |full| - keep), body));
      Placed(st, full) && Compress(full, keep, Some(body)) == ShownBy(full, st)
  {
    hide Inert, Conversation, TextBelow, Compress, AllButLast, Last, PlainState, ExtractFrom, SummaryContent;
    CompressedRequest(full, keep, Some(body));
    CutBehindFirst(full, keep);
    RecordedIsPlain(full, |full| - keep);
  }

  lemma {:induction false} LaterStanding(full: seq<Message>, st: Standing, keep: nat, body: Option<string>)
    requires Placed(Some(st), full) && Request(ShownBy(full, Some(st)), keep) && 1 + |full| - st.m > keep >= 1
    requires Inert(TextBelow(body))
    ensures var next := NextStanding(Some(st), full, keep, Some(body));
      Placed(next, full) && Compress(ShownBy(full, Some(st)), keep, Some(body)) == ShownBy(full, next)
  {
    hide Inert, Conversation, TextBelow, Compress, AllButLast, Last, PlainState, ExtractFrom, SummaryContent;
    hide Recovered, Contents, SummaryOf;
    var shown, summary := ShownBy(full, Some(st)), Assistant(Some(SummaryContent(st.state, st.body)), []);
    assert shown[1..] == [summary] + full[st.m..];
    CompressedRequest(shown, keep, Some(body));
    CutBehindItem(full, st.m, summary, keep);
    NextSummaryRecords(st.state, st.body, summary, full[st.m..|full| - keep], body);
  }

  lemma {:induction false} StandingStep(
    full: seq<Message>, st: Option<Standing>, keep: nat, summary: Option<Option<string>>)
    requires Placed(st, full) && Request(ShownBy(full, st), keep) && keep >= 1
    requires summary.Some? ==> Inert(TextBelow(summary.value))
    ensures var next := NextStanding(st, full, keep, summary);
      Placed(next, full) && Compress(ShownBy(full, st), keep, summary) == ShownBy(full, next)
  {
    hide Inert, Conversation, TextBelow, PlainState, ExtractFrom, SummaryContent, Recovered, Contents, SummaryOf;
    SplitRequest(ShownBy(full, st), keep);
    if summary.Some? {
      if st.None? && |full| - 1 > keep {
        FirstStanding(full, keep, summary.value);
      } else if st.Some? && 1 + |full| - st.value.m > keep {
        LaterStanding(full, st.value, keep, summary.value);
      }
    }
  }

  lemma {:induction false} AddedIsShown(full: seq<Message>, added: seq<Message>, st: Option<Standing>)
    requires Placed(st, full)
    ensures Placed(st, full + added) && ShownBy(full + added, st) == ShownBy(full, st) + added
  {
    hide PlainState, Inert, TextBelow, SummaryContent;
  }

  /** The summary at the front after the rounds, from the messages alone. */
  ghost function StandingAfter(ms: seq<Message>, rounds: seq<Round>, keep: nat): Option<Standing> {
    if rounds == [] then None
    else
      var (front, full) := (rounds[..|rounds| - 1], Uncompressed(ms, rounds));
      var st := StandingAfter(ms, front, keep);
      if full != [] && Placed(st, full) then NextStanding(st, full, keep, rounds[|rounds| - 1].summary) else st
  }

  lemma {:induction false} ShownAlone(ms: seq<Message>)
    ensures ShownBy(ms, None) == ms
  {
  }

  lemma {:induction false} NotEmptyBehind(full: seq<Message>, st: Option<Standing>, keep: nat)
    requires Placed(st, full) && Request(ShownBy(full, st), keep)
    ensures full != []
  {
    hide PlainState, Inert, TextBelow, Conversation;
  }

  /**
   * What any number of compressions record, whether or not the recorded states come back: the list is the
   * uncompressed one behind a summary whose state follows from the messages and from what each summary is read as.
   */
  lemma {:induction false} CompressionRecords(ms: seq<Message>, rounds: seq<Round>, keep: nat)
    requires Request(ms, keep) && keep >= 1 && forall r :: r in rounds ==> Regular(r)
    ensures var (full, st) := (Uncompressed(ms, rounds), StandingAfter(ms, rounds, keep));
      && Placed(st, full) && Rolled(ms, rounds, keep) == ShownBy(full, st)
      && Request(Rolled(ms, rounds, keep), keep)
  {
    hide Request, Compress, Items, Inert, TextBelow, PlainState, NextStanding, ShownBy;
    if rounds == [] {
      ShownAlone(ms);
    } else {
      var n := |rounds| - 1;
      var front, last := rounds[..n], rounds[n];
      assert last in rounds && Regular(last) && forall r :: r in front ==> r in rounds;
      CompressionRecords(ms, front, keep);
      var full, st := Uncompressed(ms, front), StandingAfter(ms, front, keep);
      var shown := Rolled(ms, front, keep);
      RequestGrows(shown, last.added, keep);
      AddedIsShown(full, last.added, st);
      StandingStep(full + last.added, st, keep, last.summary);
      NotEmptyBehind(full + last.added, st, keep);
      CompressKeepsRequest(shown + last.added, keep, last.summary);
    }
  }

  /** Whatever happens to the other values, a recorded stage is never lost again. */
  lemma {:induction false} StageIsNeverLost(ms: seq<Message>, rounds: seq<Round>, keep: nat, k: nat)
    requires k <= |rounds| && StandingAfter(ms, rounds[..k], keep).Some?
    requires StandingAfter(ms, rounds[..k], keep).value.state.stage.Some?
    ensures StandingAfter(ms, rounds, keep).Some? && StandingAfter(ms, rounds, keep).value.state.stage.Some?
    decreases |rounds|
  {
    hide Placed, ExtractFrom, Contents, Uncompressed;
    if k == |rounds| {
      assert rounds[..k] == rounds;
    } else {
      var front := rounds[..|rounds| - 1];
      assert front[..k] == rounds[..k];
      StageIsNeverLost(ms, front, keep, k);
    }
  }
}
