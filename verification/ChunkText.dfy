/** Splitting a text to fit a channel's message length, preferably at line feeds. */
module ChunkText {

  function LastLineFeedBefore(s: string, n: nat): (r: int)
    requires n <= |s|
    ensures -1 <= r < n
    ensures r >= 0 ==> s[r] == '\n'
    ensures forall j :: r < j < n ==> s[j] != '\n'
  {
    if n == 0 then -1 else if s[n - 1] == '\n' then n - 1 else LastLineFeedBefore(s, n - 1)
  }

  function LeadingLineFeeds(s: string): (r: nat)
    ensures r <= |s|
    ensures forall j :: 0 <= j < r ==> s[j] == '\n'
    ensures r < |s| ==> s[r] != '\n'
  {
    if s == "" || s[0] != '\n' then 0 else 1 + LeadingLineFeeds(s[1..])
  }

  /** `text.lstrip("\n")` */
  function WithoutLeadingLineFeeds(s: string): string {
    s[LeadingLineFeeds(s)..]
  }

  /** Where a text longer than the limit is cut. */
  function SplitAt(s: string, limit: nat): (r: nat)
    requires 0 < limit < |s|
    ensures r <= limit
  {
    var at := LastLineFeedBefore(s, limit);
    if at == -1 then limit else at
  }

  lemma {:induction false} RestIsShorter(s: string, limit: nat)
    requires 0 < limit < |s|
    ensures |WithoutLeadingLineFeeds(s[SplitAt(s, limit)..])| < |s|
  {
    var at := SplitAt(s, limit);
    if at == 0 { assert s[at..][0] == '\n'; }
  }

  function Pieces(s: string, limit: nat): seq<string>
    requires limit > 0
    decreases |s|
  {
    if s == "" then []
    else if |s| <= limit then [s]
    else
      RestIsShorter(s, limit);
      var at := SplitAt(s, limit);
      [s[..at]] + Pieces(WithoutLeadingLineFeeds(s[at..]), limit)
  }

  /** `chunk_text`: without a limit the text stays whole, and a text that fits is one chunk even when empty. */
  function Chunks(s: string, limit: int): seq<string> {
    if limit <= 0 then (if s == "" then [] else [s])
    else if |s| <= limit then [s]
    else Pieces(s, limit)
  }

  lemma {:induction false} PiecesOfLong(s: string, limit: nat)
    requires 0 < limit < |s|
    ensures Pieces(s, limit)
      == [s[..SplitAt(s, limit)]] + Pieces(WithoutLeadingLineFeeds(s[SplitAt(s, limit)..]), limit)
    ensures |WithoutLeadingLineFeeds(s[SplitAt(s, limit)..])| < |s|
  {
    RestIsShorter(s, limit);
  }

  lemma {:induction false} PiecesOfShort(s: string, limit: nat)
    requires limit > 0 && |s| <= limit
    ensures Pieces(s, limit) == if s == "" then [] else [s]
  {
  }

  method SplitText(s: string, limit: int) returns (chunks: seq<string>)
    ensures chunks == Chunks(s, limit)
  {
    hide Pieces, WithoutLeadingLineFeeds, LastLineFeedBefore;
    if limit <= 0 {
      return if s == "" then [] else [s];
    }
    if |s| <= limit {
      return [s];
    }
    chunks := [];
    var rest := s;
    while rest != ""
      invariant chunks + Pieces(rest, limit) == Pieces(s, limit)
      decreases |rest|
    {
      if |rest| <= limit {
        PiecesOfShort(rest, limit);
        chunks := chunks + [rest];
        return;
      }
      PiecesOfLong(rest, limit);
      var at := LastLineFeedBefore(rest, limit);
      if at == -1 {
        at := limit;
      }
      chunks := chunks + [rest[..at]];
      rest := WithoutLeadingLineFeeds(rest[at..]);
    }
    PiecesOfShort(rest, limit);
  }

  // ---- what the chunks are ----

  function LineFeeds(n: nat): string {
    seq(n, i => '\n')
  }

  /** The chunks with a run of line feeds after each. */
  function Weave(chunks: seq<string>, gaps: seq<nat>): string
    requires |chunks| == |gaps|
  {
    if chunks == [] then "" else chunks[0] + LineFeeds(gaps[0]) + Weave(chunks[1..], gaps[1..])
  }

  /** Cut at the last line feed of the window, or at the limit when the window has none. */
  ghost predicate GreedyCut(rest: string, limit: nat, chunk: string) {
    && limit < |rest| && |chunk| <= limit && chunk <= rest
    && (|chunk| < limit ==> rest[|chunk|] == '\n')
    && (forall j :: |chunk| < j < limit ==> rest[j] != '\n')
    && (|chunk| == limit ==> forall j :: 0 <= j < limit ==> rest[j] != '\n')
  }

  /** Every chunk but the last is a greedy cut of what is left when it is made. */
  ghost predicate Greedy(chunks: seq<string>, gaps: seq<nat>, limit: nat)
    requires |chunks| == |gaps|
  {
    forall i :: 0 <= i < |chunks| - 1 ==> GreedyCut(Weave(chunks[i..], gaps[i..]), limit, chunks[i])
  }

  ghost predicate Fits(chunks: seq<string>, limit: nat) {
    forall i :: 0 <= i < |chunks| ==> |chunks[i]| <= limit
  }

  /** A text is torn without a line feed only at exactly the limit. */
  ghost predicate TornAtLimit(chunks: seq<string>, gaps: seq<nat>, limit: nat)
    requires |chunks| == |gaps|
  {
    forall i :: 0 <= i < |chunks| - 1 && gaps[i] == 0 ==> |chunks[i]| == limit
  }

  ghost predicate EmptyOnlyFirst(chunks: seq<string>) {
    forall i :: 0 < i < |chunks| ==> chunks[i] != ""
  }

  lemma {:induction false} PiecesNotEmpty(s: string, limit: nat)
    requires limit > 0 && s != "" && s[0] != '\n'
    ensures Pieces(s, limit) != [] && forall i :: 0 <= i < |Pieces(s, limit)| ==> Pieces(s, limit)[i] != ""
    decreases |s|
  {
    if |s| > limit {
      RestIsShorter(s, limit);
      var at := SplitAt(s, limit);
      var rest := WithoutLeadingLineFeeds(s[at..]);
      if rest != "" { PiecesNotEmpty(rest, limit); }
    }
  }

  /** The text is its chunks with runs of line feeds between them, each cut as late as the limit allows. */
  ghost predicate GoodSplit(s: string, chunks: seq<string>, gaps: seq<nat>, limit: nat) {
    && |gaps| == |chunks| && Weave(chunks, gaps) == s
    && Fits(chunks, limit) && TornAtLimit(chunks, gaps, limit) && Greedy(chunks, gaps, limit)
  }

  lemma {:induction false} ShortSplit(s: string, limit: nat)
    requires |s| <= limit
    ensures GoodSplit(s, [s], [0], limit) && GoodSplit("", [], [], limit)
  {
    assert [s][1..] == [] && [0][1..] == [];
  }

  lemma {:induction false} CutIsGreedy(s: string, limit: nat)
    requires 0 < limit < |s|
    ensures GreedyCut(s, limit, s[..SplitAt(s, limit)])
  {
  }

  lemma {:induction false} WeaveOneMore(chunk: string, chunks: seq<string>, gap: nat, gaps: seq<nat>)
    requires |chunks| == |gaps|
    ensures Weave([chunk] + chunks, [gap] + gaps) == chunk + LineFeeds(gap) + Weave(chunks, gaps)
  {
    assert ([chunk] + chunks)[1..] == chunks && ([gap] + gaps)[1..] == gaps;
  }

  lemma {:induction false} GreedyOneMore(
    s: string, chunk: string, chunks: seq<string>, gap: nat, gaps: seq<nat>, limit: nat)
    requires |chunks| == |gaps| && Greedy(chunks, gaps, limit)
    requires Weave([chunk] + chunks, [gap] + gaps) == s && GreedyCut(s, limit, chunk)
    ensures Greedy([chunk] + chunks, [gap] + gaps, limit)
  {
    hide GreedyCut, Weave;
    var all, runs := [chunk] + chunks, [gap] + gaps;
    assert all[0..] == all && runs[0..] == runs;
    forall i | 0 <= i < |all| - 1 ensures GreedyCut(Weave(all[i..], runs[i..]), limit, all[i]) {
      if i > 0 {
        assert all[i..] == chunks[i - 1..] && runs[i..] == gaps[i - 1..];
        assert GreedyCut(Weave(chunks[i - 1..], gaps[i - 1..]), limit, chunks[i - 1]);
      }
    }
  }

  /** A cut at a line feed leaves a line feed in front of the rest. */
  lemma {:induction false} CutBeforeLineFeed(s: string, limit: nat)
    requires 0 < limit < |s| && LeadingLineFeeds(s[SplitAt(s, limit)..]) == 0
    ensures SplitAt(s, limit) == limit
  {
    var at := SplitAt(s, limit);
    assert s[at..][0] == s[at];
  }

  lemma {:induction false} RunInFront(s: string)
    ensures s == LineFeeds(LeadingLineFeeds(s)) + s[LeadingLineFeeds(s)..]
  {
    var run := LineFeeds(LeadingLineFeeds(s));
    assert run == s[..LeadingLineFeeds(s)];
  }

  lemma {:induction false} Reassociate(a: string, b: string, c: string)
    ensures a + (b + c) == a + b + c
  {
  }

  lemma {:induction false} CutsApart(s: string, at: nat)
    requires at <= |s|
    ensures var gap := LeadingLineFeeds(s[at..]); s == s[..at] + LineFeeds(gap) + s[at..][gap..]
  {
    hide LineFeeds, LeadingLineFeeds;
    var rest := s[at..];
    RunInFront(rest);
    Reassociate(s[..at], LineFeeds(LeadingLineFeeds(rest)), rest[LeadingLineFeeds(rest)..]);
    assert s == s[..at] + rest;
  }

  lemma {:induction false} Prepend(s: string, chunk: string, chunks: seq<string>, gap: nat, gaps: seq<nat>, limit: nat)
    requires 0 < limit < |s| && chunk == s[..SplitAt(s, limit)] && gap == LeadingLineFeeds(s[|chunk|..])
    requires GoodSplit(s[|chunk|..][gap..], chunks, gaps, limit)
    ensures GoodSplit(s, [chunk] + chunks, [gap] + gaps, limit)
  {
    hide GreedyCut, Weave, LeadingLineFeeds, SplitAt, Greedy, LineFeeds;
    if gap == 0 { CutBeforeLineFeed(s, limit); }
    CutsApart(s, |chunk|);
    CutIsGreedy(s, limit);
    WeaveOneMore(chunk, chunks, gap, gaps);
    GreedyOneMore(s, chunk, chunks, gap, gaps, limit);
  }

  lemma {:induction false} PiecesSplit(s: string, limit: nat) returns (gaps: seq<nat>)
    requires limit > 0
    ensures GoodSplit(s, Pieces(s, limit), gaps, limit)
    decreases |s|
  {
    hide GoodSplit;
    if |s| <= limit {
      ShortSplit(s, limit);
      gaps := if s == "" then [] else [0];
    } else {
      RestIsShorter(s, limit);
      var at := SplitAt(s, limit);
      var n := LeadingLineFeeds(s[at..]);
      var rest := WithoutLeadingLineFeeds(s[at..]);
      var more := PiecesSplit(rest, limit);
      gaps := [n] + more;
      Prepend(s, s[..at], Pieces(rest, limit), n, more, limit);
    }
  }

  /** Without a limit nothing is torn and nothing empty is sent; a text that fits is sent as it is, even when empty. */
  lemma {:induction false} UntornTexts(s: string, limit: int)
    ensures limit <= 0 ==> |Chunks(s, limit)| == (if s == "" then 0 else 1)
    ensures limit <= 0 || |s| <= limit ==> forall c :: c in Chunks(s, limit) ==> c == s
    ensures 0 < limit && |s| <= limit ==> |Chunks(s, limit)| == 1
  {
  }

  /** A message list for a channel: every chunk fits, and weaving the chunks with line feeds gives the text back. */
  lemma {:induction false} ChunksSplitText(s: string, limit: nat) returns (gaps: seq<nat>)
    requires limit > 0
    ensures GoodSplit(s, Chunks(s, limit), gaps, limit)
    ensures EmptyOnlyFirst(Chunks(s, limit))
  {
    hide GoodSplit;
    if |s| <= limit {
      ShortSplit(s, limit);
      gaps := [0];
    } else {
      gaps := PiecesSplit(s, limit);
      RestIsShorter(s, limit);
      var rest := WithoutLeadingLineFeeds(s[SplitAt(s, limit)..]);
      if rest != "" { PiecesNotEmpty(rest, limit); }
    }
  }

  /** All chunks together hold every character of the text that is not a line feed, in order. */
  function WithoutLineFeeds(s: string): string {
    if s == "" then "" else (if s[0] == '\n' then "" else [s[0]]) + WithoutLineFeeds(s[1..])
  }

  function Concat(chunks: seq<string>): string {
    if chunks == [] then "" else chunks[0] + Concat(chunks[1..])
  }

  lemma {:induction false} WithoutLineFeedsConcat(a: string, b: string)
    ensures WithoutLineFeeds(a + b) == WithoutLineFeeds(a) + WithoutLineFeeds(b)
  {
    if a == "" {
      assert a + b == b;
    } else {
      assert (a + b)[1..] == a[1..] + b;
      WithoutLineFeedsConcat(a[1..], b);
    }
  }

  lemma {:induction false} OnlyLineFeeds(n: nat)
    ensures WithoutLineFeeds(LineFeeds(n)) == ""
  {
    if n > 0 {
      assert LineFeeds(n)[1..] == LineFeeds(n - 1);
      OnlyLineFeeds(n - 1);
    }
  }

  lemma {:induction false} WeaveHoldsText(chunks: seq<string>, gaps: seq<nat>)
    requires |chunks| == |gaps|
    ensures WithoutLineFeeds(Weave(chunks, gaps)) == WithoutLineFeeds(Concat(chunks))
  {
    if chunks != [] {
      var rest := Weave(chunks[1..], gaps[1..]);
      WeaveHoldsText(chunks[1..], gaps[1..]);
      WithoutLineFeedsConcat(chunks[0] + LineFeeds(gaps[0]), rest);
      WithoutLineFeedsConcat(chunks[0], LineFeeds(gaps[0]));
      OnlyLineFeeds(gaps[0]);
      WithoutLineFeedsConcat(chunks[0], Concat(chunks[1..]));
    }
  }

  /** Nothing but line feeds is lost, for every text and every limit. */
  lemma {:induction false} OnlyLineFeedsAreLost(s: string, limit: int)
    ensures WithoutLineFeeds(Concat(Chunks(s, limit))) == WithoutLineFeeds(s)
  {
    if limit > 0 && |s| > limit {
      var gaps := PiecesSplit(s, limit);
      WeaveHoldsText(Pieces(s, limit), gaps);
    } else {
      assert Concat([s]) == s by { assert [s][1..] == []; }
    }
  }

  lemma {:induction false} PlainCut(s: string, limit: nat)
    requires 0 < limit < |s| && forall i :: 0 <= i < |s| ==> s[i] != '\n'
    ensures SplitAt(s, limit) == limit && WithoutLeadingLineFeeds(s[limit..]) == s[limit..]
  {
  }

  lemma {:induction false} ShortChunks(s: string, limit: nat)
    requires 0 < |s| <= limit
    ensures Chunks(s, limit) == [s]
  {
  }

  lemma {:induction false} PlainStep(s: string, limit: nat)
    requires 0 < limit < |s| && forall i :: 0 <= i < |s| ==> s[i] != '\n'
    ensures Chunks(s, limit) == [s[..limit]] + Chunks(s[limit..], limit)
  {
    PlainCut(s, limit);
  }

  /** Full chunks and a last one, ceil(|s| / limit) in all, that make up the text. */
  ghost predicate FullChunks(s: string, chunks: seq<string>, limit: nat) {
    && chunks != [] && Concat(chunks) == s
    && (|chunks| - 1) * limit < |s| <= |chunks| * limit
    && forall i :: 0 <= i < |chunks| - 1 ==> |chunks[i]| == limit
  }

  lemma {:induction false} OneFullChunk(s: string, limit: nat)
    requires 0 < |s| <= limit
    ensures FullChunks(s, [s], limit)
  {
    assert Concat([s]) == s by { assert [s][1..] == []; }
  }

  lemma {:induction false} OneMoreChunk(first: string, rest: string, chunks: seq<string>, limit: nat)
    requires |first| == limit && FullChunks(rest, chunks, limit)
    ensures FullChunks(first + rest, [first] + chunks, limit)
  {
    assert ([first] + chunks)[1..] == chunks;
    var n := |chunks|;
    assert (n + 1) * limit == n * limit + limit && (n - 1) * limit == n * limit - limit;
  }

  /** A text without line feeds comes apart into full chunks and a last one. */
  lemma {:induction false} PlainTextChunks(s: string, limit: nat)
    requires limit > 0 && s != "" && forall i :: 0 <= i < |s| ==> s[i] != '\n'
    ensures FullChunks(s, Chunks(s, limit), limit)
    decreases |s|
  {
    hide FullChunks, Chunks;
    if |s| <= limit {
      ShortChunks(s, limit);
      OneFullChunk(s, limit);
    } else {
      PlainStep(s, limit);
      PlainTextChunks(s[limit..], limit);
      OneMoreChunk(s[..limit], s[limit..], Chunks(s[limit..], limit), limit);
      assert s == s[..limit] + s[limit..];
    }
  }
}
