/** Python's string operations as far as the continuity block needs them. */
module TextTools {

  /** The characters `str.isspace` and the regular expression class `\s` accept. */
  predicate IsSpace(c: char) {
    || '\t' <= c <= '\r'
    || '\U{1C}' <= c <= ' '
    || c == '\U{85}' || c == '\U{A0}' || c == '\U{1680}'
    || '\U{2000}' <= c <= '\U{200A}'
    || c == '\U{2028}' || c == '\U{2029}' || c == '\U{202F}' || c == '\U{205F}' || c == '\U{3000}'
  }

  /** The first position from `i` on that holds no white space. */
  function SkipSpace(s: string, i: nat): (r: nat)
    requires i <= |s|
    ensures i <= r <= |s|
    ensures forall j :: i <= j < r ==> IsSpace(s[j])
    ensures r < |s| ==> !IsSpace(s[r])
    decreases |s| - i
  {
    if i < |s| && IsSpace(s[i]) then SkipSpace(s, i + 1) else i
  }

  /** The end of `s[lo..hi]` without its trailing white space. */
  function TrimEnd(s: string, lo: nat, hi: nat): (r: nat)
    requires lo <= hi <= |s|
    ensures lo <= r <= hi
    ensures forall j :: r <= j < hi ==> IsSpace(s[j])
    ensures r > lo ==> !IsSpace(s[r - 1])
  {
    if lo < hi && IsSpace(s[hi - 1]) then TrimEnd(s, lo, hi - 1) else hi
  }

  lemma {:induction false} SkipSpaceStops(s: string, i: nat, r: nat)
    requires i <= r <= |s| && (forall j :: i <= j < r ==> IsSpace(s[j])) && (r < |s| ==> !IsSpace(s[r]))
    ensures SkipSpace(s, i) == r
  {
  }

  lemma {:induction false} TrimEndStops(s: string, lo: nat, hi: nat, r: nat)
    requires lo <= r <= hi <= |s| && (forall j :: r <= j < hi ==> IsSpace(s[j])) && (r > lo ==> !IsSpace(s[r - 1]))
    ensures TrimEnd(s, lo, hi) == r
  {
    if r < hi {
      TrimEndStops(s, lo, hi - 1, r);
    }
  }

  /** `str.strip()` */
  function Strip(s: string): string {
    var from := SkipSpace(s, 0);
    s[from..TrimEnd(s, from, |s|)]
  }

  // ---- words ----

  function WordEnd(s: string): (r: nat)
    ensures r <= |s|
    ensures forall j :: 0 <= j < r ==> !IsSpace(s[j])
    ensures r < |s| ==> IsSpace(s[r])
    ensures s != [] && !IsSpace(s[0]) ==> r > 0
  {
    if s == [] || IsSpace(s[0]) then 0 else 1 + WordEnd(s[1..])
  }

  function MoreWords(rest: string): string {
    if rest == [] then [] else [' '] + rest
  }

  /** `" ".join(s.split())` */
  function Squeeze(s: string): string
    decreases |s|
  {
    if s == [] then []
    else if IsSpace(s[0]) then Squeeze(s[1..])
    else s[..WordEnd(s)] + MoreWords(Squeeze(s[WordEnd(s)..]))
  }

  /** The only white space is the plain space. */
  ghost predicate Plain(s: string) {
    forall c :: c in s && IsSpace(c) ==> c == ' '
  }

  /** Neither the first nor the last character is white space. */
  ghost predicate Trimmed(s: string) {
    s != [] ==> !IsSpace(s[0]) && !IsSpace(s[|s| - 1])
  }

  lemma {:induction false} SqueezePlain(s: string)
    ensures Plain(Squeeze(s))
    decreases |s|
  {
    hide WordEnd;
    if s != [] {
      if IsSpace(s[0]) {
        SqueezePlain(s[1..]);
      } else {
        var n := WordEnd(s);
        SqueezePlain(s[n..]);
        hide IsSpace, Squeeze;
        assert forall c :: c in s[..n] ==> !IsSpace(c);
      }
    }
  }

  lemma {:induction false} MoreWordsTrimmed(word: string, rest: string)
    requires word != [] && (forall c :: c in word ==> !IsSpace(c)) && Trimmed(rest)
    ensures Trimmed(word + MoreWords(rest)) && word + MoreWords(rest) != []
  {
    hide IsSpace;
    var all := word + MoreWords(rest);
    assert all[0] == word[0] && word[0] in word && word[|word| - 1] in word;
    if rest == [] {
      assert all == word;
    } else {
      assert all[|all| - 1] == rest[|rest| - 1];
    }
  }

  lemma {:induction false} NothingTrimmed()
    ensures Trimmed([])
  {
  }

  lemma {:induction false} SqueezeTrimmed(s: string)
    ensures Trimmed(Squeeze(s))
    decreases |s|
  {
    hide WordEnd, Trimmed, IsSpace;
    if s == [] {
      NothingTrimmed();
    } else if IsSpace(s[0]) {
      SqueezeTrimmed(s[1..]);
    } else {
      var n := WordEnd(s);
      SqueezeTrimmed(s[n..]);
      MoreWordsTrimmed(s[..n], Squeeze(s[n..]));
    }
  }

  ghost predicate Blank(s: string) {
    forall j :: 0 <= j < |s| ==> IsSpace(s[j])
  }

  lemma {:induction false} BlankTail(s: string)
    requires s != [] && IsSpace(s[0])
    ensures Blank(s) <==> Blank(s[1..])
  {
    hide IsSpace;
    assert forall j :: 0 < j < |s| ==> s[j] == s[1..][j - 1];
    assert forall j :: 0 <= j < |s| - 1 ==> s[1..][j] == s[j + 1];
  }

  lemma {:induction false} SqueezeBlank(s: string)
    ensures Squeeze(s) == [] <==> Blank(s)
    decreases |s|
  {
    hide WordEnd, IsSpace;
    if s != [] && IsSpace(s[0]) {
      SqueezeBlank(s[1..]);
      assert Blank(s) <==> Blank(s[1..]) by { BlankTail(s); }
    }
  }

  lemma {:induction false} SqueezeFront(s: string, n: nat)
    requires n <= |s| && forall i :: 0 <= i < n ==> IsSpace(s[i])
    ensures Squeeze(s[n..]) == Squeeze(s)
  {
    if n > 0 {
      assert s[1..][n - 1..] == s[n..];
      SqueezeFront(s[1..], n - 1);
    } else {
      assert s[0..] == s;
    }
  }

  lemma {:induction false} WordEndBefore(s: string, n: nat)
    requires n < |s| && IsSpace(s[n])
    ensures WordEnd(s) <= n
  {
    if !IsSpace(s[0]) { WordEndBefore(s[1..], n - 1); }
  }

  lemma {:induction false} WordEndPrefix(s: string, n: nat)
    requires WordEnd(s) <= n <= |s|
    ensures WordEnd(s[..n]) == WordEnd(s)
  {
    hide IsSpace;
    if s != [] && !IsSpace(s[0]) {
      assert s[..n][1..] == s[1..][..n - 1];
      WordEndPrefix(s[1..], n - 1);
    }
  }

  lemma {:induction false} SqueezeBack(s: string, n: nat)
    requires n <= |s| && forall i :: n <= i < |s| ==> IsSpace(s[i])
    ensures Squeeze(s[..n]) == Squeeze(s)
    decreases |s|
  {
    hide IsSpace, WordEnd, MoreWords;
    if n == 0 {
      SqueezeBlank(s);
    } else if IsSpace(s[0]) {
      assert s[1..][..n - 1] == s[..n][1..];
      SqueezeBack(s[1..], n - 1);
    } else {
      var k := WordEnd(s);
      if n < |s| { WordEndBefore(s, n); }
      WordEndPrefix(s, n);
      assert s[..n][k..] == s[k..][..n - k] && s[..n][..k] == s[..k];
      SqueezeBack(s[k..], n - k);
    }
  }

  lemma {:induction false} StripBlank(s: string)
    ensures Strip(s) == [] <==> Blank(s)
  {
    hide IsSpace, SkipSpace, TrimEnd;
    var from := SkipSpace(s, 0);
    var to := TrimEnd(s, from, |s|);
    assert Strip(s) == [] <==> to == from;
  }

  /** Outer white space does not matter to the words. */
  lemma {:induction false} SqueezeStripped(s: string)
    ensures Squeeze(Strip(s)) == Squeeze(s)
    ensures Strip(s) == [] <==> Squeeze(s) == []
  {
    hide IsSpace, Squeeze, SkipSpace, TrimEnd;
    var from := SkipSpace(s, 0);
    SqueezeFront(s, from);
    var to := TrimEnd(s, from, |s|);
    var t := s[from..];
    assert Strip(s) == t[..to - from];
    assert forall i :: to - from <= i < |t| ==> t[i] == s[from + i];
    SqueezeBack(t, to - from);
    StripBlank(s);
    SqueezeBlank(s);
  }

  lemma {:induction false} SqueezeWord(s: string, n: nat)
    requires s != [] && !IsSpace(s[0]) && n == WordEnd(s)
    ensures n == |s| ==> Squeeze(s) == s
    ensures n < |s| ==> Squeeze(s) == s[..n] + MoreWords(Squeeze(s[n + 1..]))
  {
    if n == |s| {
      assert s[n..] == [] && s[..n] == s;
    } else {
      assert s[n..][1..] == s[n + 1..];
    }
  }

  /** Words separated by single plain spaces. */
  ghost predicate Tidy(s: string) {
    && Plain(s) && Trimmed(s)
    && forall i :: 0 <= i < |s| - 1 && IsSpace(s[i]) ==> !IsSpace(s[i + 1])
  }

  lemma {:induction false} TidyRest(s: string, n: nat)
    requires Tidy(s) && n < |s| && IsSpace(s[n])
    ensures s[n] == ' ' && n + 1 < |s| && Tidy(s[n + 1..])
  {
    hide IsSpace;
    assert s[n] in s;
    var rest := s[n + 1..];
    assert forall i :: 0 <= i < |rest| ==> rest[i] == s[n + 1 + i];
    assert forall c :: c in rest ==> c in s;
  }

  lemma {:induction false} SplitAtSpace(s: string, n: nat)
    requires n + 1 < |s| && s[n] == ' '
    ensures s == s[..n] + MoreWords(s[n + 1..])
  {
    assert s[n..] == [' '] + s[n + 1..];
  }

  lemma {:induction false} SqueezeTidy(s: string)
    requires Tidy(s)
    ensures Squeeze(s) == s
    decreases |s|
  {
    hide Squeeze, IsSpace, WordEnd, MoreWords;
    if s == [] {
      SqueezeBlank(s);
    } else {
      assert !IsSpace(s[0]);
      var n := WordEnd(s);
      SqueezeWord(s, n);
      if n < |s| {
        TidyRest(s, n);
        hide Tidy;
        SqueezeTidy(s[n + 1..]);
        SplitAtSpace(s, n);
      }
    }
  }

  lemma {:induction false} SqueezeNotLonger(s: string)
    ensures |Squeeze(s)| <= |s|
    decreases |s|
  {
    hide IsSpace;
    if s != [] && IsSpace(s[0]) {
      SqueezeNotLonger(s[1..]);
    } else if s != [] {
      var n := WordEnd(s);
      SqueezeWord(s, n);
      if n < |s| { SqueezeNotLonger(s[n + 1..]); }
    }
  }

  lemma {:induction false} PlainTail(s: string, n: nat)
    requires Plain(s) && n <= |s|
    ensures Plain(s[n..])
  {
    hide IsSpace;
    assert forall c :: c in s[n..] ==> c in s;
  }

  lemma {:induction false} MoreWordsLength(rest: string)
    ensures |MoreWords(rest)| == if rest == [] then 0 else |rest| + 1
  {
  }

  /** A text with only plain spaces is squeezed already, or squeezing makes it shorter. */
  lemma {:induction false} SqueezeShrinks(s: string)
    requires Plain(s)
    ensures Squeeze(s) == s || |Squeeze(s)| < |s|
    decreases |s|
  {
    hide IsSpace, MoreWords, Squeeze, WordEnd;
    if s == [] {
      SqueezeBlank(s);
    } else if IsSpace(s[0]) {
      SqueezeFront(s, 1);
      SqueezeNotLonger(s[1..]);
    } else {
      var n := WordEnd(s);
      SqueezeWord(s, n);
      if n < |s| {
        var rest := s[n + 1..];
        assert s[n] in s;
        PlainTail(s, n + 1);
        SqueezeShrinks(rest);
        SqueezeNotLonger(rest);
        MoreWordsLength(Squeeze(rest));
        if Squeeze(rest) == rest && rest != [] { SplitAtSpace(s, n); }
      }
    }
  }

  // ---- case ----

  /** `str.lower()`, exact on every character whose lower case holds an ASCII letter. */
  function LowerChar(c: char): string {
    if 'A' <= c <= 'Z' then [(c as int + 32) as char]
    else if c == '\U{212A}' then ['k']
    else if c == '\U{130}' then ['i', '\U{307}']
    else [c]
  }

  function Lower(s: string): string {
    if s == [] then [] else LowerChar(s[0]) + Lower(s[1..])
  }

  /** How a case-insensitive pattern reads a character, as far as ASCII letters go. */
  function Fold(c: char): char {
    if 'A' <= c <= 'Z' then (c as int + 32) as char
    else if c == '\U{212A}' then 'k'
    else if c == '\U{130}' || c == '\U{131}' then 'i'
    else if c == '\U{17F}' then 's'
    else c
  }

  /** `part in s` */
  predicate Contains(s: string, part: string) {
    exists i :: 0 <= i <= |s| && part <= s[i..]
  }

  // ---- lines ----

  /** The separators `str.splitlines` knows. */
  predicate IsLineBreak(c: char) {
    '\n' <= c <= '\r' || '\U{1C}' <= c <= '\U{1E}' || c == '\U{85}' || c == '\U{2028}' || c == '\U{2029}'
  }

  function BreakAt(s: string): (r: nat)
    ensures r <= |s|
    ensures forall j :: 0 <= j < r ==> !IsLineBreak(s[j])
    ensures r < |s| ==> IsLineBreak(s[r])
  {
    if s == [] || IsLineBreak(s[0]) then 0 else 1 + BreakAt(s[1..])
  }

  function SplitLines(s: string): seq<string>
    decreases |s|
  {
    if s == [] then []
    else
      var n := BreakAt(s);
      if n == |s| then [s]
      else
        var skip := if s[n] == '\r' && n + 1 < |s| && s[n + 1] == '\n' then 2 else 1;
        [s[..n]] + SplitLines(s[n + skip..])
  }

  lemma {:induction false} SplitFirstLine(line: string, rest: string)
    requires forall c :: c in line ==> !IsLineBreak(c)
    ensures SplitLines(line + ['\n'] + rest) == [line] + SplitLines(rest)
  {
    var s := line + ['\n'] + rest;
    var n := BreakAt(s);
    assert s[|line|] == '\n' && IsLineBreak('\n');
    assert forall j :: 0 <= j < |line| ==> s[j] == line[j] && line[j] in line;
    assert n == |line|;
    assert s[..n] == line && s[n + 1..] == rest;
  }

  lemma {:induction false} NoBreak(line: string)
    requires forall c :: c in line ==> !IsLineBreak(c)
    ensures BreakAt(line) == |line|
  {
    if line != [] {
      assert line[0] in line;
      NoBreak(line[1..]);
    }
  }

  lemma {:induction false} SplitOneLine(line: string)
    requires line != [] && forall c :: c in line ==> !IsLineBreak(c)
    ensures SplitLines(line) == [line]
  {
    NoBreak(line);
  }
}
