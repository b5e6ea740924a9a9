/**
 * The handful of Python `str` operations the terminal relies on, stated
 * over Dafny strings (`seq<char>`): `isspace`, `strip`, `lower`/`upper`,
 * `startswith`, `split(maxsplit=1)`, `splitlines`, `join` and `str(n)` for
 * a natural number.
 */
module PyText {

  /** Python's `str.isspace` for a single character. */
  predicate IsSpace(c: char) {
    c == ' ' || ('\t' <= c <= '\r') || ('\U{1c}' <= c <= '\U{1f}')
    || c == '\U{85}' || c == '\U{a0}' || c == '\U{1680}'
    || ('\U{2000}' <= c <= '\U{200a}') || c == '\U{2028}' || c == '\U{2029}'
    || c == '\U{202f}' || c == '\U{205f}' || c == '\U{3000}'
  }

  predicate AllSpace(s: string) {
    forall i :: 0 <= i < |s| ==> IsSpace(s[i])
  }

  predicate NoSpace(s: string) {
    forall i :: 0 <= i < |s| ==> !IsSpace(s[i])
  }

  lemma {:induction false} AllSpaceCons(c: char, t: string)
    requires IsSpace(c) && AllSpace(t)
    ensures AllSpace([c] + t)
  {
    forall i | 0 <= i < |t| + 1 ensures IsSpace(([c] + t)[i]) {
      if i > 0 { assert ([c] + t)[i] == t[i - 1]; }
    }
  }

  lemma {:induction false} AllSpaceSnoc(t: string, c: char)
    requires AllSpace(t) && IsSpace(c)
    ensures AllSpace(t + [c])
  {
    forall i | 0 <= i < |t| + 1 ensures IsSpace((t + [c])[i]) {
      if i < |t| { assert (t + [c])[i] == t[i]; }
    }
  }

  /** Neither end of `s` is whitespace. */
  predicate Trimmed(s: string) {
    s == [] || (!IsSpace(s[0]) && !IsSpace(s[|s| - 1]))
  }

  /** `s.lstrip()`: the longest suffix of `s` that does not start with whitespace. */
  function LStrip(s: string): (r: string)
    ensures |r| <= |s| && r == s[|s| - |r|..]
    ensures AllSpace(s[..|s| - |r|])
    ensures r == [] || !IsSpace(r[0])
  {
    if |s| > 0 && IsSpace(s[0]) then
      var r := LStrip(s[1..]);
      assert s[..|s| - |r|] == [s[0]] + s[1..][..|s| - 1 - |r|];
      AllSpaceCons(s[0], s[1..][..|s| - 1 - |r|]);
      assert s[|s| - |r|..] == s[1..][|s| - 1 - |r|..];
      r
    else s
  }

  /** `s.rstrip()`: the longest prefix of `s` that does not end with whitespace. */
  function RStrip(s: string): (r: string)
    ensures |r| <= |s| && r == s[..|r|]
    ensures AllSpace(s[|r|..])
    ensures r == [] || !IsSpace(r[|r| - 1])
  {
    if |s| > 0 && IsSpace(s[|s| - 1]) then
      var r := RStrip(s[..|s| - 1]);
      assert s[|r|..] == s[..|s| - 1][|r|..] + [s[|s| - 1]];
      AllSpaceSnoc(s[..|s| - 1][|r|..], s[|s| - 1]);
      r
    else s
  }

  /** `s.strip()`: `s` without leading and trailing whitespace. */
  function Strip(s: string): (r: string)
    ensures Trimmed(r)
    ensures |r| <= |s|
  {
    RStrip(LStrip(s))
  }

  lemma {:induction false} StripExact(s: string)
    ensures exists i, j :: 0 <= i <= j <= |s| && Strip(s) == s[i..j]
                           && AllSpace(s[..i]) && AllSpace(s[j..])
  {
    var l := LStrip(s);
    var i := |s| - |l|;
    var j := i + |RStrip(l)|;
    assert Strip(s) == s[i..j];
    assert s[j..] == l[|RStrip(l)|..];
  }

  /** Stripping twice is the same as stripping once. */
  lemma {:induction false} StripIdempotent(s: string)
    ensures Strip(Strip(s)) == Strip(s)
  {
    var r := Strip(s);
    if r != [] {
      assert LStrip(r) == r;
      assert RStrip(r) == r;
    }
  }

  /** `s.strip()` is empty exactly when `s` is all whitespace. */
  lemma {:induction false} StripEmptyIff(s: string)
    ensures Strip(s) == [] <==> AllSpace(s)
  {
    var l := LStrip(s);
    StripEmptyIffLeft(s);
    if l != [] {
      assert l[0..] == l;
      assert !IsSpace(l[0]);
    }
  }

  /** A string with no leading or trailing whitespace is its own strip. */
  lemma {:induction false} StripTrimmed(s: string)
    requires Trimmed(s)
    ensures Strip(s) == s
  {
  }

  function LowerChar(c: char): char {
    if 'A' <= c <= 'Z' then (c as int + 32) as char else c
  }

  function UpperChar(c: char): char {
    if 'a' <= c <= 'z' then (c as int - 32) as char else c
  }

  /** `s.lower()`, for the ASCII letters. */
  function Lower(s: string): (r: string)
    ensures |r| == |s|
  {
    seq(|s|, i requires 0 <= i < |s| => LowerChar(s[i]))
  }

  /** `s.upper()`, for the ASCII letters. */
  function Upper(s: string): (r: string)
    ensures |r| == |s|
  {
    seq(|s|, i requires 0 <= i < |s| => UpperChar(s[i]))
  }

  /** ASCII case folding only moves letters, so it never creates or removes whitespace. */
  lemma {:induction false} LowerKeepsSpace(s: string, i: nat)
    requires i < |s|
    ensures IsSpace(Lower(s)[i]) <==> IsSpace(s[i])
  {
  }

  predicate StartsWith(s: string, prefix: string) {
    |prefix| <= |s| && s[..|prefix|] == prefix
  }

  predicate EndsWith(s: string, suffix: string) {
    |suffix| <= |s| && s[|s| - |suffix|..] == suffix
  }

  /** `sub` occurs in `s` starting at index `off`. */
  predicate OccursAt(s: string, sub: string, off: nat) {
    off + |sub| <= |s| && s[off..off + |sub|] == sub
  }

  /** An occurrence in `body` is an occurrence in `head + body`, shifted by `|head|`. */
  lemma {:induction false} OccursAfter(head: string, body: string, sub: string, off: nat)
    requires OccursAt(body, sub, off)
    ensures OccursAt(head + body, sub, |head| + off)
  {
    assert (head + body)[|head| + off..|head| + off + |sub|] == body[off..off + |sub|];
  }

  /** Length of the run of non-whitespace characters at the start of `s`. */
  function TokenLength(s: string): (k: nat)
    ensures k <= |s| && NoSpace(s[..k])
    ensures k < |s| ==> IsSpace(s[k])
  {
    if |s| == 0 || IsSpace(s[0]) then 0
    else
      var k := 1 + TokenLength(s[1..]);
      assert s[..k] == [s[0]] + s[1..][..k - 1];
      k
  }

  /**
   * `s.split(maxsplit=1)`: leading whitespace is skipped, the first token
   * runs up to the next whitespace, and whatever follows the whitespace
   * after it (trailing whitespace included) is the second part.
   */
  function SplitOnce(s: string): (parts: seq<string>)
  {
    var t := LStrip(s);
    if t == [] then []
    else
      var k := TokenLength(t);
      var rest := LStrip(t[k..]);
      if rest == [] then [t[..k]] else [t[..k], rest]
  }

  /**
   * What `split(maxsplit=1)` returns: no part at all for a blank string,
   * otherwise a whitespace-free first token and, when anything but
   * whitespace follows it, a second part that starts with a non-space and
   * ends the string.
   */
  lemma {:induction false} SplitOnceShape(s: string)
    ensures |SplitOnce(s)| <= 2
    ensures SplitOnce(s) == [] <==> AllSpace(s)
    ensures |SplitOnce(s)| >= 1 ==> SplitOnce(s)[0] != [] && NoSpace(SplitOnce(s)[0])
    ensures |SplitOnce(s)| == 2 ==> !IsSpace(SplitOnce(s)[1][0]) && EndsWith(s, SplitOnce(s)[1])
  {
    StripEmptyIffLeft(s);
    var t := LStrip(s);
    if t != [] {
      var k := TokenLength(t);
      var rest := LStrip(t[k..]);
      if rest != [] {
        SplitOnceRest(s, t, k, rest);
      }
    }
  }

  /**
   * `p` is how `split(maxsplit=1)` cuts `s` when its leading whitespace
   * ends at `i`: the first part follows that whitespace; then either only
   * whitespace remains, or a non-empty run of whitespace and the second
   * part, which runs to the end of `s`.
   */
  predicate CutAt(s: string, p: seq<string>, i: nat) {
    && (|p| >= 1 ==> i + |p[0]| <= |s| && AllSpace(s[..i]) && s[i..i + |p[0]|] == p[0])
    && (|p| == 1 ==> AllSpace(s[i + |p[0]|..]))
    && (|p| == 2 ==>
          var j := i + |p[0]|; var m := |s| - |p[1]|;
          j < m && AllSpace(s[j..m]) && s[m..] == p[1])
  }

  /** The parts of `split(maxsplit=1)` are the pieces of `s` itself, cut at its whitespace. */
  lemma {:induction false} SplitOnceRebuilds(s: string)
    ensures CutAt(s, SplitOnce(s), |s| - |LStrip(s)|)
  {
    var t := LStrip(s);
    if t != [] {
      var k := TokenLength(t);
      var u := t[k..];
      var rest := LStrip(u);
      SplitOnceCut(s, |s| - |t|, t, k, u, rest, SplitOnce(s));
    } else {
      assert SplitOnce(s) == [];
    }
  }

  /** The cut of SplitOnceRebuilds, from what LStrip and TokenLength promise. */
  lemma {:induction false} SplitOnceCut(s: string, i: nat, t: string, k: nat, u: string, rest: string, p: seq<string>)
    requires i <= |s| && t == s[i..] && AllSpace(s[..i])
    requires k <= |t| && (k < |t| ==> IsSpace(t[k])) && u == t[k..]
    requires |rest| <= |u| && rest == u[|u| - |rest|..] && AllSpace(u[..|u| - |rest|])
    requires rest == [] || !IsSpace(rest[0])
    requires p == if rest == [] then [t[..k]] else [t[..k], rest]
    ensures CutAt(s, p, i)
  {
    var j := i + k;
    assert |p[0]| == k;
    assert s[i..j] == t[..k];
    assert s[j..] == u;
    if rest == [] {
      assert u[..|u|] == u;
    } else {
      var m := |s| - |rest|;
      assert s[m..] == u[|u| - |rest|..];
      assert s[j..m] == u[..|u| - |rest|];
      assert IsSpace(u[0]) && !IsSpace(u[|u| - |rest|]);
      assert j < m;
    }
  }

  /** A non-empty string without whitespace splits into itself alone. */
  lemma {:induction false} SplitOnceSingle(s: string)
    requires s != [] && NoSpace(s)
    ensures SplitOnce(s) == [s]
  {
    assert LStrip(s) == s;
    TokenLengthAll(s);
    assert s[|s|..] == [];
    assert s[..|s|] == s;
  }

  lemma {:induction false} TokenLengthAll(s: string)
    requires NoSpace(s)
    ensures TokenLength(s) == |s|
  {
    if s != [] {
      assert !IsSpace(s[0]);
      TokenLengthAll(s[1..]);
    }
  }

  lemma {:induction false} SplitOnceRest(s: string, t: string, k: nat, rest: string)
    requires t == LStrip(s) && t != [] && k == TokenLength(t)
    requires rest == LStrip(t[k..]) && rest != []
    ensures EndsWith(s, rest)
  {
    SuffixOfSuffix(t, rest, k);
    SuffixOfSuffix(s, rest, |s| - |t|);
  }

  /** A string that ends `s[j..]` ends `s`. */
  lemma {:induction false} SuffixOfSuffix(s: string, u: string, j: nat)
    requires j <= |s| && EndsWith(s[j..], u)
    ensures EndsWith(s, u) && s[j..] == s[j..][..|s| - j - |u|] + u
  {
    assert s[|s| - |u|..] == s[j..][|s| - j - |u|..];
  }

  lemma {:induction false} StripEmptyIffLeft(s: string)
    ensures LStrip(s) == [] <==> AllSpace(s)
  {
    var l := LStrip(s);
    if l == [] {
      assert s[..|s|] == s;
    } else {
      assert s[|s| - |l|] == l[0];
      assert !IsSpace(s[|s| - |l|]);
    }
  }

  /** The characters on which Python's `str.splitlines` breaks a line. */
  predicate IsLineBreak(c: char) {
    c == '\n' || c == '\r' || c == '\U{0b}' || c == '\U{0c}' || ('\U{1c}' <= c <= '\U{1e}')
    || c == '\U{85}' || c == '\U{2028}' || c == '\U{2029}'
  }

  predicate NoLineBreak(s: string) {
    forall i :: 0 <= i < |s| ==> !IsLineBreak(s[i])
  }

  /** Length of the text before the first line break of `s`. */
  function LineLength(s: string): (k: nat)
    ensures k <= |s| && NoLineBreak(s[..k])
    ensures k < |s| ==> IsLineBreak(s[k])
  {
    if |s| == 0 || IsLineBreak(s[0]) then 0
    else
      var k := 1 + LineLength(s[1..]);
      assert s[..k] == [s[0]] + s[1..][..k - 1];
      k
  }

  /**
   * `s.splitlines()`: the lines of `s` without their terminators, where
   * "\r\n" counts as one terminator and a final terminator does not start
   * an empty line.
   */
  function SplitLines(s: string): seq<string>
    decreases |s|
  {
    if s == [] then []
    else
      var k := LineLength(s);
      if k == |s| then [s]
      else
        var width := if s[k] == '\r' && k + 1 < |s| && s[k + 1] == '\n' then 2 else 1;
        [s[..k]] + SplitLines(s[k + width..])
  }

  /** Each line, followed by "\n", one after the other. */
  function Terminated(lines: seq<string>): string {
    if lines == [] then [] else lines[0] + "\n" + Terminated(lines[1..])
  }

  /** No line `splitlines` returns contains a line break. */
  lemma {:induction false} SplitLinesHaveNoBreaks(s: string)
    ensures forall i :: 0 <= i < |SplitLines(s)| ==> NoLineBreak(SplitLines(s)[i])
    decreases |s|
  {
    if s != [] {
      var k := LineLength(s);
      if k < |s| {
        var width := if s[k] == '\r' && k + 1 < |s| && s[k + 1] == '\n' then 2 else 1;
        SplitLinesHaveNoBreaks(s[k + width..]);
      }
    }
  }

  /** The only line terminator in `s`, if any, is "\n". */
  predicate OnlyNewlines(s: string) {
    forall i :: 0 <= i < |s| && IsLineBreak(s[i]) ==> s[i] == '\n'
  }

  lemma {:induction false} OnlyNewlinesSuffix(s: string, j: nat)
    requires j <= |s| && OnlyNewlines(s)
    ensures OnlyNewlines(s[j..])
  {
    forall i | 0 <= i < |s| - j && IsLineBreak(s[j..][i]) ensures s[j..][i] == '\n' {
      assert s[j..][i] == s[j + i];
    }
  }

  lemma {:induction false} TerminatedOne(line: string, rest: seq<string>)
    ensures Terminated([line] + rest) == line + "\n" + Terminated(rest)
  {
    assert ([line] + rest)[1..] == rest;
  }

  /**
   * For text whose only line terminator is "\n", terminating each line of
   * `splitlines` with "\n" gives the text back, with a final "\n" added
   * when it lacked one.
   */
  lemma {:induction false} TerminatedSplitLines(s: string)
    requires OnlyNewlines(s)
    ensures Terminated(SplitLines(s)) == if s == [] || s[|s| - 1] == '\n' then s else s + "\n"
    decreases |s|
  {
    if s != [] {
      var k := LineLength(s);
      if k == |s| {
        TerminatedSingleLine(s);
      } else {
        var rest := s[k + 1..];
        SplitLinesAtNewline(s, k);
        TerminatedOne(s[..k], SplitLines(rest));
        OnlyNewlinesSuffix(s, k + 1);
        TerminatedSplitLines(rest);
        ReattachLine(s, k);
      }
    }
  }

  lemma {:induction false} SplitLinesAtNewline(s: string, k: nat)
    requires OnlyNewlines(s) && k == LineLength(s) && k < |s|
    ensures s[k] == '\n' && SplitLines(s) == [s[..k]] + SplitLines(s[k + 1..])
  {
  }

  lemma {:induction false} TerminatedSingleLine(s: string)
    requires s != [] && LineLength(s) == |s|
    ensures SplitLines(s) == [s] && s[|s| - 1] != '\n'
    ensures Terminated(SplitLines(s)) == s + "\n"
  {
    assert s[..|s|] == s;
    assert !IsLineBreak(s[|s| - 1]);
    TerminatedOne(s, []);
  }

  lemma {:induction false} ReattachLine(s: string, k: nat)
    requires k < |s| && s[k] == '\n'
    ensures var rest := s[k + 1..];
      s[..k] + "\n" + (if rest == [] || rest[|rest| - 1] == '\n' then rest else rest + "\n")
      == if s[|s| - 1] == '\n' then s else s + "\n"
  {
    var rest := s[k + 1..];
    assert s == s[..k] + "\n" + rest;
    if rest != [] {
      assert rest[|rest| - 1] == s[|s| - 1];
    }
  }

  /** `sep.join(xs)`. */
  function Join(sep: string, xs: seq<string>): string {
    if xs == [] then []
    else if |xs| == 1 then xs[0]
    else xs[0] + sep + Join(sep, xs[1..])
  }

  /** Where the `k`-th element starts in `Join(sep, xs)`. */
  function JoinOffset(sep: string, xs: seq<string>, k: nat): nat
    requires k < |xs|
  {
    if k == 0 then 0 else |xs[0]| + |sep| + JoinOffset(sep, xs[1..], k - 1)
  }

  /** Every joined element appears in the result, after the earlier elements and separators. */
  lemma {:induction false} JoinContains(sep: string, xs: seq<string>, k: nat)
    requires k < |xs|
    ensures OccursAt(Join(sep, xs), xs[k], JoinOffset(sep, xs, k))
  {
    var j := Join(sep, xs);
    if k == 0 {
      assert j[0..|xs[0]|] == xs[0];
    } else {
      JoinContains(sep, xs[1..], k - 1);
      var tail := Join(sep, xs[1..]);
      var off := JoinOffset(sep, xs[1..], k - 1);
      var shift := |xs[0]| + |sep|;
      assert j == xs[0] + sep + tail;
      assert j[shift + off..shift + off + |xs[k]|] == tail[off..off + |xs[k]|];
    }
  }

  function DigitChar(d: nat): char
    requires d < 10
  {
    ('0' as int + d) as char
  }

  /** `str(n)` for a natural number: its decimal digits, most significant first. */
  function DecimalString(n: nat): (r: string)
    ensures r != []
    ensures forall i :: 0 <= i < |r| ==> '0' <= r[i] <= '9'
    ensures |r| > 1 ==> r[0] != '0'
  {
    if n < 10 then [DigitChar(n)] else DecimalString(n / 10) + [DigitChar(n % 10)]
  }

  /** The value of a string of decimal digits. */
  function DecimalValue(s: string): nat
    requires forall i :: 0 <= i < |s| ==> '0' <= s[i] <= '9'
  {
    if s == [] then 0
    else 10 * DecimalValue(s[..|s| - 1]) + (s[|s| - 1] as int - '0' as int)
  }

  /** Reading back the digits of `str(n)` yields `n`. */
  lemma {:induction false} DecimalRoundTrip(n: nat)
    ensures DecimalValue(DecimalString(n)) == n
  {
    if n >= 10 {
      var r := DecimalString(n);
      assert r[..|r| - 1] == DecimalString(n / 10);
      DecimalRoundTrip(n / 10);
    }
  }
}
