/**
 * What the line patterns find in a printed continuity block: the values of the lines they take, in order, where a
 * blank value gives way to the first line with text below it.
 */
module ContinuityScan {
  import opened Options
  import opened TextTools
  import opened Continuity

  // ---- scanning a text for one pattern ----

  /** Without matches from a position on, there are none from any later position on. */
  lemma {:induction false} NoLaterValues(s: string, i: nat, j: nat, p: Pattern)
    requires i <= j <= |s| && Values(s, i, p) == []
    ensures Values(s, j, p) == []
    decreases j - i
  {
    hide MatchAt, LineStart;
    if i < j { NoLaterValues(s, i + 1, j, p); }
  }

  lemma {:induction false} SkipUnmatched(s: string, i: nat, next: nat, p: Pattern)
    requires i <= next <= |s|
    requires forall j :: i <= j < next ==> !LineStart(s, j) || MatchAt(s, j, p).None?
    ensures Values(s, i, p) == Values(s, next, p)
    decreases next - i
  {
    hide MatchAt, LineStart;
    if i < next { SkipUnmatched(s, i + 1, next, p); }
  }

  ghost predicate NoLineFeed(s: string) {
    forall j :: 0 <= j < |s| ==> s[j] != '\n'
  }

  /** Line `f` stands at position `i` of the text and fills the line up to `stop`. */
  ghost predicate LineAt(s: string, i: nat, f: Field, stop: nat) {
    && i < stop <= |s| && stop == i + |f.caption| + |f.value| + 4
    && LineStart(s, i) && (stop < |s| ==> s[stop] == '\n')
    && s[i] == '-' && s[i + 1] == ' '
    && (forall j :: 0 <= j < |f.caption| ==> s[i + 2 + j] == f.caption[j])
    && s[i + 2 + |f.caption|] == ':' && s[i + 3 + |f.caption|] == ' '
    && (forall j :: 0 <= j < |f.value| ==> s[i + 4 + |f.caption| + j] == f.value[j])
  }

  /** Caption and value each fit on one line. */
  ghost predicate Printable(f: Field) {
    f.caption != "" && !IsSpace(f.caption[0]) && NoLineFeed(f.caption) && NoLineFeed(f.value)
  }

  ghost predicate Spells(caption: string, word: string) {
    |caption| == |word| && forall j :: 0 <= j < |word| ==> Fold(caption[j]) == word[j]
  }

  /** The first spelling breaks off inside the caption, or is another word. */
  ghost predicate NotFirst(p: Pattern, caption: string)
    requires caption != "" && p.first != ""
  {
    || Fold(caption[0]) != p.first[0]
    || (|p.first| < |caption| && !IsSpace(caption[|p.first|]) && caption[|p.first|] != ':')
  }

  /** The pattern takes this caption. */
  ghost predicate Reads(p: Pattern, caption: string) {
    && caption != "" && p.first != ""
    && (Spells(caption, p.first) || (Spells(caption, p.second) && NotFirst(p, caption)))
  }

  /** The first letters already tell that the pattern does not take this caption. */
  ghost predicate Ignores(p: Pattern, caption: string) {
    && caption != "" && p.first != "" && p.second != ""
    && Fold(caption[0]) != p.first[0] && Fold(caption[0]) != p.second[0]
  }

  lemma {:induction false} IgnoredLine(s: string, i: nat, f: Field, stop: nat, p: Pattern)
    requires LineAt(s, i, f, stop) && Printable(f) && Ignores(p, f.caption)
    ensures MatchAt(s, i, p) == None
  {
    SkipSpaceStops(s, i, i);
    SkipSpaceStops(s, i + 1, i + 2);
    assert s[i + 2 + 0] == f.caption[0];
    assert !SpelledAt(s, i + 2, p.first) && !SpelledAt(s, i + 2, p.second);
  }

  lemma {:induction false} FirstBreaksOff(s: string, i: nat, f: Field, stop: nat, p: Pattern)
    requires LineAt(s, i, f, stop) && f.caption != "" && p.first != "" && NotFirst(p, f.caption)
    ensures !SpelledAt(s, i + 2, p.first) || !ColonAt(s, i + 2 + |p.first|)
  {
    assert s[i + 2 + 0] == f.caption[0];
    if |p.first| < |f.caption| && !IsSpace(f.caption[|p.first|]) && f.caption[|p.first|] != ':' {
      var at := i + 2 + |p.first|;
      assert s[at] == f.caption[|p.first|];
      SkipSpaceStops(s, at, at);
    }
  }

  lemma {:induction false} LabelFound(s: string, i: nat, f: Field, stop: nat, p: Pattern)
    requires LineAt(s, i, f, stop) && Printable(f) && Reads(p, f.caption)
    ensures AfterLabel(s, i + 2, p) == Some(i + 3 + |f.caption|)
  {
    var c := i + 2 + |f.caption|;
    SkipSpaceStops(s, c, c);
    assert ColonAt(s, c);
    assert s[i + 2 + 0] == f.caption[0];
    if Spells(f.caption, p.first) {
      assert SpelledAt(s, i + 2, p.first);
    } else {
      assert SpelledAt(s, i + 2, p.second);
      FirstBreaksOff(s, i, f, stop, p);
    }
  }

  lemma {:induction false} LineEndStops(s: string, i: nat, r: nat)
    requires i <= r <= |s| && (forall j :: i <= j < r ==> s[j] != '\n') && (r < |s| ==> s[r] == '\n')
    ensures LineEnd(s, i) == r
    decreases r - i
  {
    if i < r { LineEndStops(s, i + 1, r); }
  }

  lemma {:induction false} StripIs(s: string, from: nat, to: nat)
    requires from < to <= |s| && !IsSpace(s[from]) && !IsSpace(s[to - 1])
    requires (forall j :: 0 <= j < from ==> IsSpace(s[j])) && (forall j :: to <= j < |s| ==> IsSpace(s[j]))
    ensures Strip(s) == s[from..to]
  {
    SkipSpaceStops(s, 0, from);
    TrimEndStops(s, from, |s|, to);
  }

  lemma {:induction false} Core(s: string) returns (from: nat, to: nat)
    requires !Blank(s)
    ensures from < to <= |s| && !IsSpace(s[from]) && !IsSpace(s[to - 1])
    ensures (forall j :: 0 <= j < from ==> IsSpace(s[j])) && (forall j :: to <= j < |s| ==> IsSpace(s[j]))
    ensures Strip(s) == s[from..to]
  {
    from := SkipSpace(s, 0);
    to := TrimEnd(s, from, |s|);
  }

  /** After white space from `i` on, the text `s[e..q]` stands on a line that ends at `stop`. */
  ghost predicate Region(s: string, i: nat, e: nat, q: nat, stop: nat) {
    && i <= e < q <= stop <= |s| && (stop < |s| ==> s[stop] == '\n')
    && (forall j :: i <= j < e ==> IsSpace(s[j])) && !IsSpace(s[e]) && !IsSpace(s[q - 1])
    && (forall j :: e <= j < stop ==> s[j] != '\n') && (forall j :: q <= j < stop ==> IsSpace(s[j]))
  }

  lemma {:induction false} SkipSpaceBeyond(s: string, i: nat, r: nat)
    requires i <= r <= |s| && forall j :: i <= j < r ==> IsSpace(s[j])
    ensures SkipSpace(s, i) >= r
    decreases r - i
  {
    if i < r { SkipSpaceBeyond(s, i + 1, r); }
  }

  lemma {:induction false} LastLineFeedBeyond(s: string, lo: nat, hi: nat, at: nat)
    requires lo <= at < hi <= |s| && s[at] == '\n'
    ensures LastLineFeed(s, lo, hi) >= at
    ensures LastLineFeed(s, lo, hi) < hi
  {
    if at < hi - 1 { LastLineFeedBeyond(s, lo, hi - 1, at); }
  }

  lemma {:induction false} EndOfMatch(s: string, q: nat, stop: nat)
    requires q <= stop <= |s| && (forall j :: q <= j < stop ==> IsSpace(s[j]) && s[j] != '\n')
    requires stop < |s| ==> s[stop] == '\n'
    ensures var t := SkipSpace(s, q);
      && t >= stop && (t < |s| ==> LastLineFeed(s, q, t) >= stop)
      && (stop + 1 < |s| && !IsSpace(s[stop + 1]) ==> t < |s| && LastLineFeed(s, q, t) == stop)
  {
    SkipSpaceBeyond(s, q, stop);
    var t := SkipSpace(s, q);
    if stop + 1 < |s| && !IsSpace(s[stop + 1]) {
      SkipSpaceStops(s, q, stop + 1);
    }
    if t < |s| && stop < |s| {
      SkipSpaceBeyond(s, q, stop + 1);
      LastLineFeedBeyond(s, q, t, stop);
    }
  }

  lemma {:induction false} ValueInRegion(s: string, i: nat, e: nat, q: nat, stop: nat)
    requires Region(s, i, e, q, stop)
    ensures ValueFrom(s, i).Some? && ValueFrom(s, i).value.value == s[e..q] && ValueFrom(s, i).value.end >= stop
    ensures stop + 1 < |s| && !IsSpace(s[stop + 1]) ==> ValueFrom(s, i).value.end == stop
  {
    hide IsSpace, SkipSpace, TrimEnd, LineEnd, LastLineFeed;
    SkipSpaceStops(s, i, e);
    LineEndStops(s, e, stop);
    TrimEndStops(s, e, stop, q);
    EndOfMatch(s, q, stop);
  }

  /** `v` stands behind a space at position `i` and ends its line at `stop`. */
  ghost predicate ValueAt(s: string, i: nat, v: string, stop: nat) {
    && i + 1 + |v| == stop <= |s| && s[i] == ' ' && (stop < |s| ==> s[stop] == '\n')
    && (forall j :: 0 <= j < |v| ==> s[i + 1 + j] == v[j]) && NoLineFeed(v)
  }

  lemma {:induction false} ValueRegion(s: string, i: nat, v: string, stop: nat, from: nat, to: nat)
    requires ValueAt(s, i, v, stop) && from < to <= |v| && !IsSpace(v[from]) && !IsSpace(v[to - 1])
    requires (forall j :: 0 <= j < from ==> IsSpace(v[j])) && (forall j :: to <= j < |v| ==> IsSpace(v[j]))
    ensures Region(s, i, i + 1 + from, i + 1 + to, stop) && s[i + 1 + from..i + 1 + to] == v[from..to]
  {
    assert IsSpace(s[i]);
    hide IsSpace;
    forall j | i < j < stop ensures s[j] == v[j - i - 1] { assert s[i + 1 + (j - i - 1)] == v[j - i - 1]; }
  }

  lemma {:induction false} ValueFound(s: string, i: nat, v: string, stop: nat)
    requires ValueAt(s, i, v, stop) && !Blank(v)
    ensures ValueFrom(s, i).Some? && ValueFrom(s, i).value.value == Strip(v) && ValueFrom(s, i).value.end >= stop
    ensures stop + 1 < |s| && !IsSpace(s[stop + 1]) ==> ValueFrom(s, i).value.end == stop
  {
    hide IsSpace, Strip, Blank, ValueFrom, Region, ValueAt;
    var from, to := Core(v);
    ValueRegion(s, i, v, stop, from, to);
    ValueInRegion(s, i, i + 1 + from, i + 1 + to, stop);
  }

  /** The first line with text, without outer white space. */
  function FirstLine(t: string): string {
    var e := SkipSpace(t, 0);
    t[e..TrimEnd(t, e, LineEnd(t, e))]
  }

  /** Where the first line with text ends. */
  function FirstLineEnd(t: string): nat {
    LineEnd(t, SkipSpace(t, 0))
  }

  lemma {:induction false} FirstLineRegion(t: string) returns (e: nat, q: nat)
    requires !Blank(t)
    ensures Region(t, 0, e, q, FirstLineEnd(t)) && FirstLine(t) == t[e..q]
  {
    e := SkipSpace(t, 0);
    var stop := LineEnd(t, e);
    q := TrimEnd(t, e, stop);
    assert e < |t| && t[e] != '\n';
  }

  /** A blank value gives way to the first line with text below it. */
  lemma {:induction false} BlankRegion(s: string, i: nat, v: string, stop: nat, below: string, e: nat, q: nat)
    requires ValueAt(s, i, v, stop) && Blank(v) && stop + |below| == |s|
    requires forall j :: stop <= j < |s| ==> s[j] == below[j - stop]
    requires Region(below, 0, e, q, FirstLineEnd(below))
    ensures Region(s, i, stop + e, stop + q, stop + FirstLineEnd(below))
  {
    assert IsSpace(s[i]);
    hide IsSpace, FirstLineEnd;
    forall j | i <= j < stop ensures IsSpace(s[j]) {
      if j > i { assert s[i + 1 + (j - i - 1)] == v[j - i - 1]; }
    }
  }

  lemma {:induction false} RegionBounds(s: string, i: nat, e: nat, q: nat, stop: nat)
    requires Region(s, i, e, q, stop)
    ensures i <= e < q <= stop <= |s|
  {
  }

  lemma {:induction false} BlankValueFound(s: string, i: nat, v: string, stop: nat, below: string)
    requires ValueAt(s, i, v, stop) && Blank(v) && !Blank(below) && stop + |below| == |s| && s[stop..] == below
    ensures ValueFrom(s, i).Some? && ValueFrom(s, i).value.value == FirstLine(below)
    ensures ValueFrom(s, i).value.end >= stop + FirstLineEnd(below)
    ensures var next := stop + FirstLineEnd(below);
      next + 1 < |s| && !IsSpace(s[next + 1]) ==> ValueFrom(s, i).value.end == next
  {
    hide IsSpace, ValueFrom, FirstLine, FirstLineEnd, ValueAt, Blank, Region;
    var e, q := FirstLineRegion(below);
    RegionBounds(below, 0, e, q, FirstLineEnd(below));
    BlankRegion(s, i, v, stop, below, e, q);
    ValueInRegion(s, i, stop + e, stop + q, stop + FirstLineEnd(below));
    assert s[stop + e..stop + q] == below[e..q];
  }

  lemma {:induction false} MatchBehindDash(s: string, i: nat, p: Pattern, after: nat)
    requires i + 2 < |s| && s[i] == '-' && s[i + 1] == ' ' && !IsSpace(s[i + 2])
    requires AfterLabel(s, i + 2, p) == Some(after)
    ensures MatchAt(s, i, p) == ValueFrom(s, after)
  {
    hide AfterLabel, ValueFrom;
    SkipSpaceStops(s, i, i);
    SkipSpaceStops(s, i + 1, i + 2);
  }

  lemma {:induction false} ValueOfLine(s: string, i: nat, f: Field, stop: nat)
    requires LineAt(s, i, f, stop) && NoLineFeed(f.value)
    ensures ValueAt(s, i + 3 + |f.caption|, f.value, stop)
  {
    hide NoLineFeed;
  }

  lemma {:induction false} ReadAt(s: string, i: nat, f: Field, stop: nat, p: Pattern)
    requires LineAt(s, i, f, stop) && Printable(f) && Reads(p, f.caption)
    ensures MatchAt(s, i, p) == ValueFrom(s, i + 3 + |f.caption|)
    ensures ValueAt(s, i + 3 + |f.caption|, f.value, stop)
  {
    hide Strip, MatchAt, AfterLabel, ValueFrom, Reads, IsSpace, NoLineFeed, LineStart, ValueAt;
    LabelFound(s, i, f, stop, p);
    assert s[i + 2 + 0] == f.caption[0];
    MatchBehindDash(s, i, p, i + 3 + |f.caption|);
    ValueOfLine(s, i, f, stop);
  }

  // ---- a printed block ----

  ghost predicate AllPrintable(fields: seq<Field>) {
    forall f :: f in fields ==> Printable(f)
  }

  ghost predicate Decided(fields: seq<Field>, p: Pattern) {
    forall f :: f in fields ==> Reads(p, f.caption) || Ignores(p, f.caption)
  }

  /** The values a pattern finds in the lines, above further text in which it finds nothing. */
  ghost function Found(fields: seq<Field>, below: string, p: Pattern): seq<string>
    decreases |fields|
  {
    if fields == [] then []
    else if !Reads(p, fields[0].caption) then Found(fields[1..], below, p)
    else if !Blank(fields[0].value) then [Strip(fields[0].value)] + Found(fields[1..], below, p)
    else if |fields| > 1 then [Strip(Line(fields[1]))] + Found(fields[2..], below, p)
    else if Blank(below) then []
    else [FirstLine(below)]
  }

  /** The characters of a printed line. */
  ghost predicate LineIs(line: string, f: Field) {
    && |line| == 4 + |f.caption| + |f.value|
    && line[0] == '-' && line[1] == ' '
    && (forall j :: 0 <= j < |f.caption| ==> line[2 + j] == f.caption[j])
    && line[2 + |f.caption|] == ':' && line[3 + |f.caption|] == ' '
    && (forall j :: 0 <= j < |f.value| ==> line[4 + |f.caption| + j] == f.value[j])
  }

  lemma {:induction false} LineCharacters(f: Field)
    ensures LineIs(Line(f), f)
  {
    var line, c := Line(f), |f.caption|;
    var front := "- " + f.caption;
    assert line == front + ": " + f.value;
    assert forall j :: 0 <= j < c ==> front[2 + j] == f.caption[j];
    assert forall j :: 0 <= j < |front| ==> line[j] == front[j];
  }

  /** A line copied into a text, at the start of a line and before a line end. */
  lemma {:induction false} CopiedLine(s: string, i: nat, line: string, f: Field)
    requires LineIs(line, f) && i + |line| <= |s| && forall j :: 0 <= j < |line| ==> s[i + j] == line[j]
    requires LineStart(s, i) && (i + |line| < |s| ==> s[i + |line|] == '\n')
    ensures LineAt(s, i, f, i + |line|)
  {
    var c := |f.caption|;
    assert s[i + 0] == line[0] && s[i + 1] == line[1];
    assert s[i + (2 + c)] == line[2 + c] && s[i + (3 + c)] == line[3 + c];
    forall j | 0 <= j < c ensures s[i + 2 + j] == f.caption[j] { assert s[i + (2 + j)] == line[2 + j]; }
    forall j | 0 <= j < |f.value| ensures s[i + 4 + c + j] == f.value[j] {
      assert s[i + (4 + c + j)] == line[4 + c + j];
    }
  }

  lemma {:induction false} PlaceLine(pre: string, f: Field, rest: string)
    requires pre != "" && (rest != "" ==> rest[0] == '\n')
    ensures var s := pre + (['\n'] + Line(f)) + rest;
      LineAt(s, |pre| + 1, f, |pre| + 1 + |Line(f)|)
  {
    hide Line, LineIs, LineAt;
    var line, i := Line(f), |pre| + 1;
    var s := pre + (['\n'] + line) + rest;
    LineCharacters(f);
    var before := pre + ['\n'];
    assert s == before + (line + rest);
    assert forall j :: 0 <= j < |line| ==> s[i + j] == line[j];
    assert s[i - 1] == before[i - 1];
    if rest != "" { assert s[i + |line|] == rest[0]; }
    CopiedLine(s, i, line, f);
  }

  /** Between the start of a line and its end no other line starts. */
  lemma {:induction false} NoStartInside(s: string, i: nat, f: Field, stop: nat)
    requires LineAt(s, i, f, stop) && NoLineFeed(f.caption) && NoLineFeed(f.value)
    ensures forall j :: i < j <= stop ==> !LineStart(s, j)
  {
    forall j | i <= j < stop ensures s[j] != '\n' {
      var k := j - i;
      if 2 <= k < 2 + |f.caption| {
        assert s[i + 2 + (k - 2)] == f.caption[k - 2];
      } else if k >= 4 + |f.caption| {
        assert s[i + 4 + |f.caption| + (k - 4 - |f.caption|)] == f.value[k - 4 - |f.caption|];
      }
    }
  }

  lemma {:induction false} LineBounds(s: string, i: nat, f: Field, stop: nat)
    requires LineAt(s, i, f, stop)
    ensures i < stop <= |s| && LineStart(s, i)
  {
  }

  lemma {:induction false} PassIgnoredLine(s: string, i: nat, f: Field, stop: nat, p: Pattern)
    requires LineAt(s, i, f, stop) && Printable(f) && Ignores(p, f.caption)
    ensures Values(s, i, p) == Values(s, stop, p)
  {
    hide LineAt, Ignores, MatchAt, Values, IsSpace, Blank, NoLineFeed, LineStart, Fold;
    assert i < stop <= |s| by { LineBounds(s, i, f, stop); }
    IgnoredLine(s, i, f, stop, p);
    NoStartInside(s, i, f, stop);
    SkipUnmatched(s, i, stop, p);
  }

  /** A match that ends at the end of the line, or later above text without matches. */
  lemma {:induction false} AfterMatch(s: string, stop: nat, end: nat, p: Pattern)
    requires stop <= end <= |s| && (end == stop || Values(s, stop, p) == [])
    ensures Values(s, end, p) == Values(s, stop, p)
  {
    hide Values;
    if end != stop { NoLaterValues(s, stop, end, p); }
  }

  lemma {:induction false} MatchFirst(s: string, i: nat, p: Pattern)
    requires i <= |s| && LineStart(s, i) && MatchAt(s, i, p).Some?
    ensures Values(s, i, p) == [MatchAt(s, i, p).value.value] + Values(s, MatchAt(s, i, p).value.end, p)
  {
    hide MatchAt, LineStart;
  }

  lemma {:induction false} PassReadLine(s: string, i: nat, f: Field, stop: nat, p: Pattern)
    requires LineAt(s, i, f, stop) && Printable(f) && Reads(p, f.caption) && !Blank(f.value)
    requires (stop + 1 < |s| && !IsSpace(s[stop + 1])) || Values(s, stop, p) == []
    ensures Values(s, i, p) == [Strip(f.value)] + Values(s, stop, p)
  {
    hide MatchAt, Reads, Strip, IsSpace, ValueFrom, ValueAt, LineAt, Blank, NoLineFeed, LineStart, Values;
    LineBounds(s, i, f, stop);
    ReadAt(s, i, f, stop, p);
    ValueFound(s, i + 3 + |f.caption|, f.value, stop);
    MatchFirst(s, i, p);
    AfterMatch(s, stop, MatchAt(s, i, p).value.end, p);
  }

  lemma {:induction false} PassBlankLine(s: string, i: nat, f: Field, stop: nat, below: string, p: Pattern)
    requires LineAt(s, i, f, stop) && Printable(f) && Reads(p, f.caption) && Blank(f.value)
    requires stop + |below| == |s| && s[stop..] == below && !Blank(below)
    requires var next := stop + FirstLineEnd(below);
      next <= |s| && ((next + 1 < |s| && !IsSpace(s[next + 1])) || Values(s, next, p) == [])
    ensures Values(s, i, p) == [FirstLine(below)] + Values(s, stop + FirstLineEnd(below), p)
  {
    hide MatchAt, Reads, Strip, IsSpace, ValueFrom, ValueAt, LineAt, Blank, NoLineFeed, LineStart, Values;
    hide FirstLine, FirstLineEnd;
    LineBounds(s, i, f, stop);
    ReadAt(s, i, f, stop, p);
    BlankValueFound(s, i + 3 + |f.caption|, f.value, stop, below);
    MatchFirst(s, i, p);
    AfterMatch(s, stop + FirstLineEnd(below), MatchAt(s, i, p).value.end, p);
  }

  // ---- the whole block ----

  /** What may follow the lines: nothing, or further text on lines of its own. */
  ghost predicate Below(rest: string) {
    rest == "" || rest[0] == '\n'
  }

  /** The pattern finds nothing in `rest`, at the end of the text. */
  ghost predicate NothingIn(s: string, rest: string, p: Pattern) {
    |rest| <= |s| && Values(s, |s| - |rest|, p) == []
  }

  /** A blank value on the last line has text below it. */
  ghost predicate Closed(fields: seq<Field>, rest: string) {
    fields != [] && Blank(fields[|fields| - 1].value) ==> !Blank(rest)
  }

  lemma {:induction false} RenderStart(fields: seq<Field>, rest: string)
    requires Below(rest)
    ensures Below(Render(fields) + rest)
    ensures fields != [] ==> |Render(fields) + rest| > 1 && (Render(fields) + rest)[1] == '-'
  {
    if fields == [] { assert Render(fields) + rest == rest; }
  }

  lemma {:induction false} LineHasNoLineFeed(f: Field)
    requires Printable(f)
    ensures NoLineFeed(Line(f)) && |Line(f)| >= 4 && Line(f)[0] == '-'
  {
    var line, front := Line(f), "- " + f.caption + ": ";
    assert line == front + f.value;
    forall j | 0 <= j < |line| ensures line[j] != '\n' {
      if 2 <= j < 2 + |f.caption| {
        assert line[j] == f.caption[j - 2];
      } else if j >= |front| {
        assert line[j] == f.value[j - |front|];
      }
    }
  }

  lemma {:induction false} LineEndsWithoutLineFeed(pre: string, f: Field)
    requires Printable(f)
    ensures var s := pre + (['\n'] + Line(f)); s != "" && s[|s| - 1] != '\n'
  {
    hide Line;
    LineHasNoLineFeed(f);
    var s := pre + (['\n'] + Line(f));
    assert s[|s| - 1] == Line(f)[|Line(f)| - 1];
  }

  /** Below a line comes another line, or text the pattern finds nothing in. */
  lemma {:induction false} FollowingText(pre: string, fields: seq<Field>, rest: string, p: Pattern)
    requires Below(rest) && NothingIn(pre + Render(fields) + rest, rest, p)
    ensures var s := pre + Render(fields) + rest;
      (|pre| + 1 < |s| && !IsSpace(s[|pre| + 1])) || Values(s, |pre|, p) == []
  {
    hide Values;
    var s := pre + Render(fields) + rest;
    RenderStart(fields, rest);
    assert s == pre + (Render(fields) + rest);
    if fields != [] { assert s[|pre| + 1] == '-'; }
  }

  /** The line stands at position 1 of the text, after a line feed and up to the end or another one. */
  ghost predicate SecondLineIs(t: string, line: string) {
    && 1 + |line| <= |t| && t[0] == '\n' && (1 + |line| < |t| ==> t[1 + |line|] == '\n')
    && forall j :: 1 <= j < 1 + |line| ==> t[j] == line[j - 1]
  }

  lemma {:induction false} FirstLineIs(t: string, line: string)
    requires line != "" && !IsSpace(line[0]) && NoLineFeed(line) && SecondLineIs(t, line)
    ensures !Blank(t) && FirstLine(t) == Strip(line) && FirstLineEnd(t) == 1 + |line|
  {
    assert IsSpace('\n') && t[1] == line[0];
    hide IsSpace, SkipSpace, TrimEnd, LineEnd;
    SkipSpaceStops(t, 0, 1);
    LineEndStops(t, 1, 1 + |line|);
    SkipSpaceStops(line, 0, 0);
    var to := TrimEnd(line, 0, |line|);
    TrimEndStops(t, 1, 1 + |line|, 1 + to);
    assert t[1..1 + to] == line[..to];
  }

  lemma {:induction false} FirstLineAfter(line: string, rest: string)
    requires line != "" && !IsSpace(line[0]) && NoLineFeed(line) && Below(rest)
    ensures var t := ['\n'] + line + rest;
      !Blank(t) && FirstLine(t) == Strip(line) && FirstLineEnd(t) == 1 + |line|
  {
    hide IsSpace, FirstLine, FirstLineEnd, Blank, Strip, NoLineFeed;
    var t := ['\n'] + line + rest;
    assert SecondLineIs(t, line);
    FirstLineIs(t, line);
  }

  lemma {:induction false} FirstLineOfBlock(f: Field, more: seq<Field>, rest: string)
    requires Printable(f) && Below(rest)
    ensures var below := Render([f] + more) + rest;
      && below == ['\n'] + Line(f) + (Render(more) + rest)
      && !Blank(below) && FirstLine(below) == Strip(Line(f)) && FirstLineEnd(below) == 1 + |Line(f)|
  {
    hide Line;
    LineHasNoLineFeed(f);
    RenderStart(more, rest);
    assert ([f] + more)[1..] == more;
    var below, line := Render([f] + more) + rest, Line(f);
    assert below == ['\n'] + line + (Render(more) + rest);
    FirstLineAfter(line, Render(more) + rest);
  }

  /** One line that its pattern ignores, or reads a value from. */
  lemma {:induction false} OneLineValues(pre: string, f: Field, more: seq<Field>, rest: string, p: Pattern)
    requires Printable(f) && (Ignores(p, f.caption) || (Reads(p, f.caption) && !Blank(f.value)))
    requires Below(rest) && pre != "" && pre[|pre| - 1] != '\n'
    requires NothingIn(pre + (['\n'] + Line(f)) + Render(more) + rest, rest, p)
    ensures var (line, s) := (['\n'] + Line(f), pre + (['\n'] + Line(f)) + Render(more) + rest);
      Values(s, |pre|, p)
        == (if Ignores(p, f.caption) then [] else [Strip(f.value)]) + Values(s, |pre + line|, p)
  {
    var line := ['\n'] + Line(f);
    var s := pre + line + Render(more) + rest;
    hide Printable, Reads, Ignores, Strip, Render, Line, MatchAt, LineAt, NothingIn, Blank;
    RenderStart(more, rest);
    FollowingText(pre + line, more, rest, p);
    assert s == pre + line + (Render(more) + rest);
    PlaceLine(pre, f, Render(more) + rest);
    assert s[|pre| - 1] == pre[|pre| - 1] && |pre| < |s|;
    assert Values(s, |pre|, p) == Values(s, |pre| + 1, p);
    hide Values;
    if Ignores(p, f.caption) {
      PassIgnoredLine(s, |pre| + 1, f, |pre + line|, p);
    } else {
      PassReadLine(s, |pre| + 1, f, |pre + line|, p);
    }
  }

  lemma {:induction false} NotLineStart(pre: string, rest: string, p: Pattern)
    requires pre != "" && pre[|pre| - 1] != '\n' && rest != ""
    ensures Values(pre + rest, |pre|, p) == Values(pre + rest, |pre| + 1, p)
  {
    hide MatchAt;
    assert (pre + rest)[|pre| - 1] == pre[|pre| - 1];
  }

  /** The start of a line, placed in the text. */
  lemma {:induction false} PlacedValues(pre: string, f: Field, below: string, p: Pattern)
    requires pre != "" && pre[|pre| - 1] != '\n' && Below(below)
    ensures var (line, s) := (['\n'] + Line(f), pre + (['\n'] + Line(f)) + below);
      && LineAt(s, |pre| + 1, f, |pre + line|) && s[|pre + line|..] == below && |pre + line| + |below| == |s|
      && Values(s, |pre|, p) == Values(s, |pre| + 1, p)
  {
    hide Line, LineAt, MatchAt;
    var line := ['\n'] + Line(f);
    PlaceLine(pre, f, below);
    assert pre + line + below == pre + (line + below);
    NotLineStart(pre, line + below, p);
  }

  lemma {:induction false} FirstLineEndBound(t: string)
    ensures FirstLineEnd(t) <= |t|
  {
  }

  lemma {:induction false} BlankAboveRest(s: string, i: nat, f: Field, stop: nat, rest: string, p: Pattern)
    requires LineAt(s, i, f, stop) && Printable(f) && Reads(p, f.caption) && Blank(f.value)
    requires stop + |rest| == |s| && s[stop..] == rest && !Blank(rest) && NothingIn(s, rest, p)
    ensures Values(s, i, p) == [FirstLine(rest)]
  {
    hide Printable, Reads, Values, LineAt, Blank, FirstLine, FirstLineEnd;
    FirstLineEndBound(rest);
    NoLaterValues(s, stop, stop + FirstLineEnd(rest), p);
    PassBlankLine(s, i, f, stop, rest, p);
  }

  /** A blank value above the last lines of the text. */
  lemma {:induction false} BlankLastLine(pre: string, f: Field, rest: string, p: Pattern)
    requires Printable(f) && Reads(p, f.caption) && Blank(f.value)
    requires Below(rest) && !Blank(rest) && pre != "" && pre[|pre| - 1] != '\n'
    requires NothingIn(pre + (['\n'] + Line(f)) + rest, rest, p)
    ensures Values(pre + (['\n'] + Line(f)) + rest, |pre|, p) == [FirstLine(rest)]
  {
    hide Printable, Reads, Line, LineAt, Blank, FirstLine, Values, NothingIn;
    PlacedValues(pre, f, rest, p);
    BlankAboveRest(pre + (['\n'] + Line(f)) + rest, |pre| + 1, f, |pre + (['\n'] + Line(f))|, rest, p);
  }

  lemma {:induction false} TextCons(pre: string, f: Field, more: seq<Field>, rest: string)
    ensures pre + Render([f] + more) + rest == pre + (['\n'] + Line(f)) + Render(more) + rest
  {
    hide Line;
    assert ([f] + more)[1..] == more;
    assert Render([f] + more) == (['\n'] + Line(f)) + Render(more);
  }

  lemma {:induction false} BlankAboveLine(
    pre: string, i: nat, f: Field, g: Field, others: seq<Field>, rest: string, p: Pattern)
    requires Printable(f) && Reads(p, f.caption) && Blank(f.value) && Printable(g) && Below(rest)
    requires LineAt(pre + (Render([g] + others) + rest), i, f, |pre|)
    requires NothingIn(pre + Render([g] + others) + rest, rest, p)
    ensures var s := pre + Render([g] + others) + rest;
      Values(s, i, p) == [Strip(Line(g))] + Values(s, |pre + (['\n'] + Line(g))|, p)
  {
    hide Printable, Reads, Strip, Render, Line, MatchAt, LineAt, Blank, FirstLine, FirstLineEnd, Values;
    var below := Render([g] + others) + rest;
    var s := pre + below;
    FirstLineOfBlock(g, others, rest);
    TextCons(pre, g, others, rest);
    assert s == pre + Render([g] + others) + rest;
    FollowingText(pre + (['\n'] + Line(g)), others, rest, p);
    assert s[|pre|..] == below;
    PassBlankLine(s, i, f, |pre|, below, p);
  }

  /** A blank value above another line: the pattern takes that whole line. */
  lemma {:induction false} BlankLineAbove(
    pre: string, f: Field, g: Field, others: seq<Field>, rest: string, p: Pattern)
    requires Printable(f) && Reads(p, f.caption) && Blank(f.value) && Printable(g)
    requires Below(rest) && pre != "" && pre[|pre| - 1] != '\n'
    requires NothingIn(pre + (['\n'] + Line(f)) + Render([g] + others) + rest, rest, p)
    ensures var (line, s) := (['\n'] + Line(f), pre + (['\n'] + Line(f)) + Render([g] + others) + rest);
      Values(s, |pre|, p) == [Strip(Line(g))] + Values(s, |pre + line + (['\n'] + Line(g))|, p)
  {
    hide Printable, Reads, Strip, Render, Line, LineAt, Blank, Values, NothingIn;
    var line, below := ['\n'] + Line(f), Render([g] + others) + rest;
    RenderStart([g] + others, rest);
    PlacedValues(pre, f, below, p);
    assert pre + line + Render([g] + others) + rest == pre + line + below;
    BlankAboveLine(pre + line, |pre| + 1, f, g, others, rest, p);
  }

  lemma {:induction false} NothingRendered()
    ensures Render([]) == ""
  {
  }

  lemma {:induction false} BlankIsFollowed(f: Field, more: seq<Field>, rest: string)
    requires Closed([f] + more, rest) && more == [] && Blank(f.value)
    ensures !Blank(rest)
  {
    hide Blank;
    assert [f] + more == [f];
  }

  lemma {:induction false} ClosedMore(f: Field, more: seq<Field>, rest: string)
    requires Closed([f] + more, rest)
    ensures Closed(more, rest)
  {
    hide Blank;
    if more != [] { assert ([f] + more)[|more|] == more[|more| - 1]; }
  }

  lemma {:induction false} ReadsOrIgnores(p: Pattern, caption: string)
    ensures Ignores(p, caption) ==> !Reads(p, caption)
  {
  }

  /** From the end of the headers on, a pattern finds the values of the lines it takes, in order. */
  lemma {:induction false} BlockValues(pre: string, fields: seq<Field>, rest: string, p: Pattern)
    requires AllPrintable(fields) && Decided(fields, p) && Below(rest) && Closed(fields, rest)
    requires pre != "" && pre[|pre| - 1] != '\n' && NothingIn(pre + Render(fields) + rest, rest, p)
    ensures Values(pre + Render(fields) + rest, |pre|, p) == Found(fields, rest, p)
    decreases |fields|, 0
  {
    hide Values, Printable, Reads, Ignores, Strip, Line, Blank, FirstLine, Render, Closed, Below;
    if fields == [] {
      NothingRendered();
      assert pre + Render(fields) + rest == pre + rest;
    } else {
      var f, more := fields[0], fields[1..];
      assert f in fields && Printable(f) && (Reads(p, f.caption) || Ignores(p, f.caption));
      assert forall g :: g in more ==> g in fields;
      assert fields == [f] + more;
      ReadsOrIgnores(p, f.caption);
      TextCons(pre, f, more, rest);
      ClosedMore(f, more, rest);
      LineEndsWithoutLineFeed(pre, f);
      if Reads(p, f.caption) && Blank(f.value) {
        var line := ['\n'] + Line(f);
        if more == [] {
          BlankIsFollowed(f, more, rest);
          NothingRendered();
          assert pre + line + Render(more) + rest == pre + line + rest;
          BlankLastLine(pre, f, rest, p);
        } else {
          assert more == [more[0]] + more[1..] && more[0] in more;
          BlankLineAbove(pre, f, more[0], more[1..], rest, p);
          BlockBelowBlank(pre + line, f, more, rest, p);
        }
      } else {
        OneLineValues(pre, f, more, rest, p);
        BlockValues(pre + (['\n'] + Line(f)), more, rest, p);
      }
    }
  }

  lemma {:induction false} BlockBelowBlank(pre: string, f: Field, more: seq<Field>, rest: string, p: Pattern)
    requires more != [] && AllPrintable(more) && Decided(more, p) && Below(rest) && Closed(more, rest)
    requires pre != "" && NothingIn(pre + Render(more) + rest, rest, p)
    ensures Values(pre + Render(more) + rest, |pre + (['\n'] + Line(more[0]))|, p) == Found(([f] + more)[2..], rest, p)
    decreases |more|, 0
  {
    hide Values, Printable, Reads, Ignores, Strip, Line, Blank, FirstLine, Render, Closed, Below, Found;
    var g, others := more[0], more[1..];
    assert g in more && ([f] + more)[2..] == others && more == [g] + others;
    assert forall h :: h in others ==> h in more;
    TextCons(pre, g, others, rest);
    ClosedMore(g, others, rest);
    LineEndsWithoutLineFeed(pre, g);
    BlockValues(pre + (['\n'] + Line(g)), others, rest, p);
  }

  // ---- texts whose matches do not depend on what stands before them ----

  lemma {:induction false} SkipSpaceShift(a: string, b: string, i: nat)
    requires i <= |b|
    ensures SkipSpace(a + b, |a| + i) == |a| + SkipSpace(b, i)
    decreases |b| - i
  {
    hide IsSpace;
    if i < |b| { SkipSpaceShift(a, b, i + 1); }
  }

  lemma {:induction false} TrimEndShift(a: string, b: string, lo: nat, hi: nat)
    requires lo <= hi <= |b|
    ensures TrimEnd(a + b, |a| + lo, |a| + hi) == |a| + TrimEnd(b, lo, hi)
  {
    hide IsSpace;
    if lo < hi { TrimEndShift(a, b, lo, hi - 1); }
  }

  lemma {:induction false} LineEndShift(a: string, b: string, i: nat)
    requires i <= |b|
    ensures LineEnd(a + b, |a| + i) == |a| + LineEnd(b, i)
    decreases |b| - i
  {
    if i < |b| { LineEndShift(a, b, i + 1); }
  }

  lemma {:induction false} LastLineFeedShift(a: string, b: string, lo: nat, hi: nat)
    requires lo <= hi <= |b|
    ensures LastLineFeed(a + b, |a| + lo, |a| + hi) == |a| + LastLineFeed(b, lo, hi)
  {
    if lo < hi { LastLineFeedShift(a, b, lo, hi - 1); }
  }

  /** Where only white space is left, its last character that is not a line feed is the value. */
  lemma {:induction false} BlankValueIsLast(s: string, lo: nat, hi: nat)
    requires lo <= hi <= |s|
    ensures BlankValue(s, lo, hi).None? <==> forall k :: lo <= k < hi ==> s[k] == '\n'
    ensures BlankValue(s, lo, hi).Some? ==>
      exists k :: lo <= k < hi && s[k] != '\n' && BlankValue(s, lo, hi) == Some(Match([s[k]], |s|))
        && forall j :: k < j < hi ==> s[j] == '\n'
  {
    if lo < hi && s[hi - 1] == '\n' { BlankValueIsLast(s, lo, hi - 1); }
  }

  lemma {:induction false} BlankValueShift(a: string, b: string, lo: nat, hi: nat)
    requires lo <= hi <= |b|
    ensures BlankValue(a + b, |a| + lo, |a| + hi).Some? <==> BlankValue(b, lo, hi).Some?
    ensures BlankValue(b, lo, hi).Some? ==>
      BlankValue(a + b, |a| + lo, |a| + hi).value.value == BlankValue(b, lo, hi).value.value
  {
    if lo < hi { BlankValueShift(a, b, lo, hi - 1); }
  }

  /** The match moved by `n`. */
  function Moved(m: Option<Match>, n: nat): Option<Match> {
    if m.None? then None else Some(Match(m.value.value, n + m.value.end))
  }

  /** Where a match ends whose value ends at `q`. */
  function EndBehind(s: string, q: nat): nat
    requires q <= |s|
  {
    var t := SkipSpace(s, q);
    if t == |s| then t else LastLineFeed(s, q, t)
  }

  lemma {:induction false} EndShift(a: string, b: string, q: nat)
    requires q <= |b|
    ensures EndBehind(a + b, |a| + q) == |a| + EndBehind(b, q)
  {
    hide SkipSpace, LastLineFeed;
    SkipSpaceShift(a, b, q);
    LastLineFeedShift(a, b, q, SkipSpace(b, q));
  }

  lemma {:induction false} ValueOfText(s: string, i: nat)
    requires i <= |s| && SkipSpace(s, i) < |s|
    ensures var e := SkipSpace(s, i);
      var q := TrimEnd(s, e, LineEnd(s, e)); ValueFrom(s, i) == Some(Match(s[e..q], EndBehind(s, q)))
  {
    hide SkipSpace, TrimEnd, LineEnd, LastLineFeed, BlankValue;
  }

  lemma {:induction false} SliceShift(a: string, b: string, lo: nat, hi: nat)
    requires lo <= hi <= |b|
    ensures (a + b)[|a| + lo..|a| + hi] == b[lo..hi]
  {
  }

  lemma {:induction false} ShiftedText(a: string, b: string, i: nat)
    requires i <= |b| && SkipSpace(b, i) < |b|
    ensures var e := SkipSpace(b, i);
      var (from, to) := (|a| + e, |a| + TrimEnd(b, e, LineEnd(b, e)));
      from <= to <= |a + b| && ValueFrom(a + b, |a| + i) == Some(Match((a + b)[from..to], EndBehind(a + b, to)))
  {
    hide SkipSpace, TrimEnd, LineEnd, ValueFrom, EndBehind;
    var e := SkipSpace(b, i);
    SkipSpaceShift(a, b, i);
    ValueOfText(a + b, |a| + i);
    LineEndShift(a, b, e);
    TrimEndShift(a, b, e, LineEnd(b, e));
  }

  lemma {:induction false} TextShift(a: string, b: string, i: nat)
    requires i <= |b| && SkipSpace(b, i) < |b|
    ensures ValueFrom(a + b, |a| + i) == Moved(ValueFrom(b, i), |a|)
  {
    hide SkipSpace, TrimEnd, LineEnd, ValueFrom, EndBehind;
    var e := SkipSpace(b, i);
    var q := TrimEnd(b, e, LineEnd(b, e));
    ValueOfText(b, i);
    ShiftedText(a, b, i);
    EndShift(a, b, q);
    SliceShift(a, b, e, q);
  }

  lemma {:induction false} ValueFromShift(a: string, b: string, i: nat)
    requires i <= |b|
    ensures ValueFrom(a + b, |a| + i) == Moved(ValueFrom(b, i), |a|)
  {
    hide SkipSpace, TrimEnd, LineEnd, LastLineFeed, BlankValue;
    if SkipSpace(b, i) < |b| {
      TextShift(a, b, i);
    } else {
      SkipSpaceShift(a, b, i);
      BlankValueShift(a, b, i, |b|);
    }
  }

  lemma {:induction false} SpelledShift(a: string, b: string, i: nat, word: string)
    requires i <= |b|
    ensures SpelledAt(a + b, |a| + i, word) <==> SpelledAt(b, i, word)
    ensures SpelledAt(b, i, word) ==> i + |word| <= |b|
  {
    hide Fold;
    if i + |word| <= |b| {
      forall j | 0 <= j < |word| ensures Fold((a + b)[|a| + i + j]) == word[j] <==> Fold(b[i + j]) == word[j] {
        assert (a + b)[|a| + i + j] == b[i + j];
      }
    }
  }

  lemma {:induction false} AfterLabelShift(a: string, b: string, i: nat, p: Pattern)
    requires i <= |b|
    ensures AfterLabel(a + b, |a| + i, p)
      == if AfterLabel(b, i, p).None? then None else Some(|a| + AfterLabel(b, i, p).value)
  {
    hide SkipSpace, SpelledAt;
    SpelledShift(a, b, i, p.first);
    SpelledShift(a, b, i, p.second);
    if SpelledAt(b, i, p.first) { SkipSpaceShift(a, b, i + |p.first|); }
    if SpelledAt(b, i, p.second) { SkipSpaceShift(a, b, i + |p.second|); }
  }

  lemma {:induction false} MatchShift(a: string, b: string, i: nat, p: Pattern)
    requires i <= |b|
    ensures MatchAt(a + b, |a| + i, p) == Moved(MatchAt(b, i, p), |a|)
  {
    hide SkipSpace, AfterLabel, ValueFrom;
    SkipSpaceShift(a, b, i);
    var k := SkipSpace(b, i);
    if k < |b| && IsMark(b[k]) {
      SkipSpaceShift(a, b, k + 1);
      var l := SkipSpace(b, k + 1);
      AfterLabelShift(a, b, l, p);
      if AfterLabel(b, l, p).Some? { ValueFromShift(a, b, AfterLabel(b, l, p).value); }
    }
  }

  /** The matches in the rest of a text do not depend on what stands before it. */
  lemma {:induction false} ValuesShift(a: string, b: string, i: nat, p: Pattern)
    requires 1 <= i <= |b|
    ensures Values(a + b, |a| + i, p) == Values(b, i, p)
    decreases |b| - i
  {
    hide MatchAt;
    MatchShift(a, b, i, p);
    assert (a + b)[|a| + i - 1] == b[i - 1];
    var m := if LineStart(b, i) then MatchAt(b, i, p) else None;
    if m.Some? {
      ValuesShift(a, b, m.value.end, p);
    } else if i < |b| {
      ValuesShift(a, b, i + 1, p);
    }
  }

  /** The pattern finds nothing in a text that stands below others. */
  ghost predicate SilentFor(rest: string, p: Pattern) {
    rest == "" || (rest[0] == '\n' && Values(rest, 1, p) == [])
  }

  lemma {:induction false} EndOfText(s: string, p: Pattern)
    ensures Values(s, |s|, p) == []
  {
  }

  lemma {:induction false} SilentBelow(pre: string, rest: string, p: Pattern)
    requires SilentFor(rest, p) && pre != "" && pre[|pre| - 1] != '\n'
    ensures NothingIn(pre + rest, rest, p)
  {
    hide MatchAt;
    var s := pre + rest;
    if rest == "" {
      EndOfText(s, p);
    } else {
      assert s[|pre| - 1] == pre[|pre| - 1];
      assert Values(s, |pre|, p) == Values(s, |pre| + 1, p);
      hide Values;
      ValuesShift(pre, rest, 1, p);
    }
  }
}
