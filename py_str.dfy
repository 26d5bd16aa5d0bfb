/**
 * The parts of Python's `str` that the encoder-list parser and the
 * sorting of its results rely on: `isspace`, `strip`, `split()`,
 * `splitlines()`, the substring test `pat in s`, and the ordering `<`.
 */
module PyStr {

  /** `c.isspace()`: the characters Python treats as whitespace. */
  predicate IsSpace(c: char)
  {
    || c == ' '
    || ('\t' <= c <= '\r')
    || ('\U{1c}' <= c <= '\U{1f}')
    || c == '\U{85}' || c == '\U{a0}' || c == '\U{1680}'
    || ('\U{2000}' <= c <= '\U{200a}')
    || c == '\U{2028}' || c == '\U{2029}' || c == '\U{202f}'
    || c == '\U{205f}' || c == '\U{3000}'
  }

  predicate AllSpace(s: string)
  {
    forall i :: 0 <= i < |s| ==> IsSpace(s[i])
  }

  predicate NoSpace(s: string)
  {
    forall i :: 0 <= i < |s| ==> !IsSpace(s[i])
  }

  /** `s.lstrip()` */
  function TrimLeft(s: string): (r: string)
    ensures |r| <= |s| && r == s[|s| - |r|..]
    ensures AllSpace(s[..|s| - |r|])
    ensures r == [] || !IsSpace(r[0])
  {
    if s != [] && IsSpace(s[0]) then
      var r := TrimLeft(s[1..]);
      assert s[..|s| - |r|] == [s[0]] + s[1..][..|s[1..]| - |r|];
      r
    else s
  }

  /** `s.rstrip()` */
  function TrimRight(s: string): (r: string)
    ensures |r| <= |s| && r == s[..|r|]
    ensures AllSpace(s[|r|..])
    ensures r == [] || !IsSpace(r[|r| - 1])
  {
    if s != [] && IsSpace(s[|s| - 1]) then
      var r := TrimRight(s[..|s| - 1]);
      assert s[|r|..] == s[..|s| - 1][|r|..] + [s[|s| - 1]];
      r
    else s
  }

  /** `s.strip()`: empty exactly when `s` is all whitespace. */
  function Strip(s: string): (r: string)
    ensures r == [] <==> AllSpace(s)
    ensures r != [] ==> !IsSpace(r[0]) && !IsSpace(r[|r| - 1])
  {
    var l := TrimLeft(s);
    var r := TrimRight(l);
    assert r == [] ==> l == [];
    assert l == [] ==> s[..|s| - |l|] == s;
    assert r != [] ==> r[0] == l[0];
    r
  }

  /** `m` is the slice of `s` from `k` on, with only whitespace before and after it. */
  predicate MiddleSlice(s: string, m: string, k: nat)
  {
    k + |m| <= |s| && m == s[k..k + |m|] && AllSpace(s[..k]) && AllSpace(s[k + |m|..])
  }

  /** `s.strip()` is `s` with a run of whitespace cut from each end, and no more. */
  lemma {:induction false} StripPieces(s: string)
    ensures MiddleSlice(s, Strip(s), |s| - |TrimLeft(s)|)
  {
    var l := TrimLeft(s);
    var r := TrimRight(l);
    TrimmedPieces(s, l, r);
  }

  /** Cutting a whitespace prefix and then a whitespace suffix leaves a middle slice. */
  lemma {:induction false} TrimmedPieces(s: string, l: string, r: string)
    requires |l| <= |s| && l == s[|s| - |l|..] && AllSpace(s[..|s| - |l|])
    requires |r| <= |l| && r == l[..|r|] && AllSpace(l[|r|..])
    ensures MiddleSlice(s, r, |s| - |l|)
  {
    var k := |s| - |l|;
    assert s[k..k + |r|] == l[..|r|];
    assert s[k + |r|..] == l[|r|..];
  }

  /** Length of the run of non-whitespace characters that `s` starts with. */
  function WordLength(s: string): (n: nat)
    ensures n <= |s| && NoSpace(s[..n])
    ensures n < |s| ==> IsSpace(s[n])
    ensures s != [] && !IsSpace(s[0]) ==> n > 0
  {
    if s == [] || IsSpace(s[0]) then 0 else 1 + WordLength(s[1..])
  }

  /** `s.split()` with no separator: the maximal runs of non-whitespace characters, in order. */
  function Split(s: string): seq<string>
    decreases |s|
  {
    if s == [] then []
    else if IsSpace(s[0]) then Split(s[1..])
    else
      var n := WordLength(s);
      [s[..n]] + Split(s[n..])
  }

  /** No word is empty or holds whitespace, and there are none exactly when `s` is all whitespace. */
  lemma {:induction false} SplitWords(s: string)
    ensures forall k :: 0 <= k < |Split(s)| ==> Split(s)[k] != [] && NoSpace(Split(s)[k])
    ensures Split(s) == [] <==> AllSpace(s)
    decreases |s|
  {
    if s == [] {
    } else if IsSpace(s[0]) {
      SplitWords(s[1..]);
      assert AllSpace(s) <==> AllSpace(s[1..]) by {
        if AllSpace(s[1..]) {
          forall i | 0 <= i < |s| ensures IsSpace(s[i]) {
            if i > 0 { assert s[i] == s[1..][i - 1]; }
          }
        }
      }
    } else {
      SplitWords(s[WordLength(s)..]);
    }
  }

  lemma {:induction false} WordLengthAppendSpace(s: string, ws: string)
    requires AllSpace(ws)
    ensures WordLength(s + ws) == WordLength(s)
    decreases |s|
  {
    if s != [] && !IsSpace(s[0]) {
      assert (s + ws)[1..] == s[1..] + ws;
      WordLengthAppendSpace(s[1..], ws);
    } else if s == [] {
      assert s + ws == ws;
    }
  }

  /** Trailing whitespace adds no words. */
  lemma {:induction false} SplitAppendSpace(s: string, ws: string)
    requires AllSpace(ws)
    ensures Split(s + ws) == Split(s)
    decreases |s|
  {
    if s == [] {
      assert s + ws == ws;
      SplitWords(ws);
    } else if IsSpace(s[0]) {
      assert (s + ws)[1..] == s[1..] + ws;
      SplitAppendSpace(s[1..], ws);
    } else {
      var n := WordLength(s);
      WordLengthAppendSpace(s, ws);
      assert (s + ws)[..n] == s[..n] && (s + ws)[n..] == s[n..] + ws;
      SplitAppendSpace(s[n..], ws);
    }
  }

  /** Leading whitespace adds no words. */
  lemma {:induction false} SplitPrependSpace(ws: string, s: string)
    requires AllSpace(ws)
    ensures Split(ws + s) == Split(s)
    decreases |ws|
  {
    if ws == [] {
      assert ws + s == s;
    } else {
      assert (ws + s)[1..] == ws[1..] + s;
      SplitPrependSpace(ws[1..], s);
    }
  }

  /** A whitespace-free run followed by whitespace or the end of the text is one whole word. */
  lemma {:induction false} WordLengthOf(w: string, rest: string)
    requires w != [] && NoSpace(w)
    requires rest == [] || IsSpace(rest[0])
    ensures WordLength(w + rest) == |w|
    decreases |w|
  {
    assert (w + rest)[0] == w[0];
    assert (w + rest)[1..] == w[1..] + rest;
    if |w| == 1 {
      assert w[1..] + rest == rest;
    } else {
      WordLengthOf(w[1..], rest);
    }
  }

  /**
   * Words are the text between whitespace runs: after leading whitespace,
   * a maximal whitespace-free run `w` is the first word, and the remaining
   * words are those of what follows it. With `Split([]) == []` this fixes
   * `Split` on every text.
   */
  lemma {:induction false} SplitWord(ws: string, w: string, rest: string)
    requires AllSpace(ws) && w != [] && NoSpace(w)
    requires rest == [] || IsSpace(rest[0])
    ensures Split(ws + w + rest) == [w] + Split(rest)
  {
    assert ws + w + rest == ws + (w + rest);
    SplitPrependSpace(ws, w + rest);
    WordLengthOf(w, rest);
    var s := w + rest;
    assert !IsSpace(s[0]);
    assert s[..|w|] == w && s[|w|..] == rest;
  }

  lemma {:induction false} SplitTrimLeft(s: string)
    ensures Split(TrimLeft(s)) == Split(s)
  {
    var l := TrimLeft(s);
    var front := s[..|s| - |l|];
    assert s == front + l;
    SplitPrependSpace(front, l);
  }

  lemma {:induction false} SplitTrimRight(s: string)
    ensures Split(TrimRight(s)) == Split(s)
  {
    var r := TrimRight(s);
    var back := s[|r|..];
    assert s == r + back;
    SplitAppendSpace(r, back);
  }

  /** `s.strip().split() == s.split()` */
  lemma {:induction false} SplitStrip(s: string)
    ensures Split(Strip(s)) == Split(s)
  {
    SplitTrimLeft(s);
    SplitTrimRight(TrimLeft(s));
  }

  /** The characters `str.splitlines()` breaks a line at. */
  predicate IsLineBreak(c: char)
  {
    || c == '\n' || c == '\r' || c == '\U{b}' || c == '\U{c}'
    || c == '\U{1c}' || c == '\U{1d}' || c == '\U{1e}'
    || c == '\U{85}' || c == '\U{2028}' || c == '\U{2029}'
  }

  predicate NoLineBreak(s: string)
  {
    forall i :: 0 <= i < |s| ==> !IsLineBreak(s[i])
  }

  /** Length of the text before the first line break of `s`. */
  function LineLength(s: string): (n: nat)
    ensures n <= |s| && NoLineBreak(s[..n])
    ensures n < |s| ==> IsLineBreak(s[n])
  {
    if s == [] || IsLineBreak(s[0]) then 0 else 1 + LineLength(s[1..])
  }

  /**
   * `s.splitlines()`: the lines of `s` without their terminators, where
   * "\r\n" counts as one terminator and a final terminator does not
   * start another line. No line holds a line break, and empty text has
   * no lines; SplitLinesJoin shows that nothing but the terminators is
   * lost when every break is "\n".
   */
  function SplitLines(s: string): (r: seq<string>)
    decreases |s|
    ensures forall k :: 0 <= k < |r| ==> NoLineBreak(r[k])
    ensures r == [] <==> s == []
    ensures NoLineBreak(s) && s != [] ==> r == [s]
  {
    if s == [] then []
    else
      var n := LineLength(s);
      if n == |s| then [s]
      else
        var next := if s[n] == '\r' && n + 1 < |s| && s[n + 1] == '\n' then n + 2 else n + 1;
        [s[..n]] + SplitLines(s[next..])
  }

  /** `"\n".join(lines)` */
  function JoinLines(lines: seq<string>): string
  {
    if lines == [] then []
    else if |lines| == 1 then lines[0]
    else lines[0] + "\n" + JoinLines(lines[1..])
  }

  /** Every line break in `s`, if any, is "\n". */
  predicate OnlyNewlines(s: string)
  {
    forall i :: 0 <= i < |s| && IsLineBreak(s[i]) ==> s[i] == '\n'
  }

  lemma {:induction false} JoinLinesCons(line: string, lines: seq<string>)
    requires lines != []
    ensures JoinLines([line] + lines) == line + "\n" + JoinLines(lines)
  {
    assert ([line] + lines)[1..] == lines;
  }

  lemma {:induction false} SplitLinesAtNewline(s: string)
    requires LineLength(s) < |s| && s[LineLength(s)] == '\n'
    ensures SplitLines(s) == [s[..LineLength(s)]] + SplitLines(s[LineLength(s) + 1..])
  {
  }

  lemma {:induction false} OnlyNewlinesSuffix(s: string, j: nat)
    requires OnlyNewlines(s) && j <= |s|
    ensures OnlyNewlines(s[j..])
  {
    forall i | 0 <= i < |s[j..]| && IsLineBreak(s[j..][i]) ensures s[j..][i] == '\n' {
      assert s[j..][i] == s[j + i];
    }
  }

  lemma {:induction false} JoinedEnd(line: string, rest: string)
    requires rest != []
    ensures var s := line + "\n" + rest;
      s[|s| - 1] == rest[|rest| - 1] && s[..|s| - 1] == line + "\n" + rest[..|rest| - 1]
  {
  }

  /**
   * Joining the lines with "\n" gives the text back, less the one final
   * "\n" that `splitlines()` does not turn into an empty last line.
   */
  lemma {:induction false} SplitLinesJoin(s: string)
    requires OnlyNewlines(s)
    ensures JoinLines(SplitLines(s)) == if s != [] && s[|s| - 1] == '\n' then s[..|s| - 1] else s
    decreases |s|
  {
    if s != [] {
      var n := LineLength(s);
      if n < |s| {
        var line, rest := s[..n], s[n + 1..];
        assert s == line + "\n" + rest;
        SplitLinesAtNewline(s);
        if rest == [] {
          assert JoinLines([line]) == line;
        } else {
          OnlyNewlinesSuffix(s, n + 1);
          SplitLinesJoin(rest);
          JoinLinesCons(line, SplitLines(rest));
          JoinedEnd(line, rest);
        }
      }
    }
  }

  predicate OccursAt(s: string, pat: string, i: nat)
  {
    i + |pat| <= |s| && s[i..i + |pat|] == pat
  }

  /** `pat in s`, Python's substring test. */
  predicate Contains(s: string, pat: string)
  {
    exists i: nat | i <= |s| :: OccursAt(s, pat, i)
  }

  /** Text with `pat` written somewhere inside it contains `pat`. */
  lemma {:induction false} ContainsJoin(a: string, pat: string, b: string)
    ensures Contains(a + pat + b, pat)
  {
    var s := a + pat + b;
    assert s[|a|..|a| + |pat|] == pat;
    assert OccursAt(s, pat, |a|);
  }

  /** Conversely, text that contains `pat` is some text, then `pat`, then some more text. */
  lemma {:induction false} ContainsPieces(s: string, pat: string)
    requires Contains(s, pat)
    ensures exists i :: 0 <= i <= |s| - |pat| && s == s[..i] + pat + s[i + |pat|..]
  {
    var i: nat :| i <= |s| && OccursAt(s, pat, i);
    assert s == s[..i] + s[i..i + |pat|] + s[i + |pat|..];
  }

  /**
   * Python's `a < b` on strings: lexicographic by code point, a proper
   * prefix being smaller.
   */
  predicate Less(a: string, b: string)
    decreases |a|
  {
    if a == [] then b != []
    else if b == [] then false
    else if a[0] != b[0] then a[0] < b[0]
    else Less(a[1..], b[1..])
  }

  lemma {:induction false} LessIrreflexive(a: string)
    ensures !Less(a, a)
    decreases |a|
  {
    if a != [] {
      LessIrreflexive(a[1..]);
    }
  }

  lemma {:induction false} LessTransitive(a: string, b: string, c: string)
    requires Less(a, b) && Less(b, c)
    ensures Less(a, c)
    decreases |a|
  {
    if a != [] && a[0] == b[0] && b[0] == c[0] {
      LessTransitive(a[1..], b[1..], c[1..]);
    }
  }

  lemma {:induction false} LessTotal(a: string, b: string)
    ensures a == b || Less(a, b) || Less(b, a)
    decreases |a|
  {
    if a != [] && b != [] && a[0] == b[0] {
      LessTotal(a[1..], b[1..]);
      if a[1..] == b[1..] {
        assert a == [a[0]] + a[1..] && b == [b[0]] + b[1..];
      }
    }
  }

  lemma {:induction false} LessAsymmetric(a: string, b: string)
    ensures !(Less(a, b) && Less(b, a))
  {
    if Less(a, b) && Less(b, a) {
      LessTransitive(a, b, a);
      LessIrreflexive(a);
    }
  }
}
