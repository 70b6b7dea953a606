/** The small pieces of Python string and list behaviour the pipeline relies on:
    substring tests, `str.split()`, `readlines()`, `strip()`, slices and `str(int)`. */
module Text {

  /** `t` is a prefix of `s` (`s.startswith(t)`). */
  predicate StartsWith(s: string, t: string) {
    |t| <= |s| && s[..|t|] == t
  }

  /** `t in s` for strings. */
  predicate Contains(s: string, t: string)
    decreases |s|
  {
    StartsWith(s, t) || (|s| > 0 && Contains(s[1..], t))
  }

  /** `t` occurs in `s` starting at index `i`. */
  predicate OccursAt(s: string, t: string, i: int) {
    0 <= i <= |s| - |t| && s[i..i + |t|] == t
  }

  lemma {:induction false} ContainsIffAt(s: string, t: string)
    ensures Contains(s, t) <==> exists i :: OccursAt(s, t, i)
  {
    if StartsWith(s, t) {
      assert OccursAt(s, t, 0);
    } else if |s| > 0 {
      ContainsIffAt(s[1..], t);
      if Contains(s[1..], t) {
        var i :| OccursAt(s[1..], t, i);
        assert s[i + 1..i + 1 + |t|] == s[1..][i..i + |t|];
        assert OccursAt(s, t, i + 1);
      } else {
        forall i
          ensures !OccursAt(s, t, i)
        {
          if i == 0 && |t| <= |s| {
            assert s[0..0 + |t|] == s[..|t|];
          } else if 0 < i <= |s| - |t| {
            assert !OccursAt(s[1..], t, i - 1);
            var u, v := s[i..i + |t|], s[1..][i - 1..i - 1 + |t|];
            assert forall k :: 0 <= k < |t| ==> u[k] == v[k];
            assert u == v;
          }
        }
      }
    } else {
      assert |t| > 0;
    }
  }

  /** A text that contains `t` keeps containing it when more text is put around it. */
  lemma {:induction false} ContainsInside(a: string, b: string, c: string, t: string)
    requires Contains(b, t)
    ensures Contains(a + b + c, t)
  {
    ContainsIffAt(b, t);
    var i :| OccursAt(b, t, i);
    assert (a + b + c)[|a| + i..|a| + i + |t|] == b[i..i + |t|];
    assert OccursAt(a + b + c, t, |a| + i);
    ContainsIffAt(a + b + c, t);
  }

  /** The characters `str.split()` and `str.strip()` treat as white space (ASCII ones). */
  predicate IsSpace(c: char) {
    c == ' ' || c == '\t' || c == '\n' || c == '\r' || c == '\U{000B}' || c == '\U{000C}'
  }

  /** The length of the longest prefix of `s` without white space. */
  function WordSpan(s: string): (n: nat)
    ensures n <= |s|
    ensures forall i :: 0 <= i < n ==> !IsSpace(s[i])
    ensures n < |s| ==> IsSpace(s[n])
  {
    if s == [] || IsSpace(s[0]) then 0 else 1 + WordSpan(s[1..])
  }

  /** `s.split()`: the maximal runs of non-space characters, in order. */
  function Words(s: string): seq<string>
    decreases |s|
  {
    if s == [] then []
    else if IsSpace(s[0]) then Words(s[1..])
    else
      var n := WordSpan(s);
      [s[..n]] + Words(s[n..])
  }

  /** A word followed by white space or the end comes out first. */
  lemma {:induction false} WordsStep(w: string, rest: string)
    requires IsWord(w)
    requires rest == [] || IsSpace(rest[0])
    ensures Words(w + rest) == [w] + Words(rest)
  {
    WordSpanAt(w + rest, |w|);
    assert (w + rest)[..|w|] == w && (w + rest)[|w|..] == rest;
  }

  lemma {:induction false} WordSpanAt(s: string, n: nat)
    requires n <= |s| && (n < |s| ==> IsSpace(s[n]))
    requires forall k :: 0 <= k < n ==> !IsSpace(s[k])
    ensures WordSpan(s) == n
  {
    if s != [] && !IsSpace(s[0]) {
      WordSpanAt(s[1..], n - 1);
    }
  }

  /** Leading white space does not make words. */
  lemma {:induction false} WordsSpaces(sp: string, rest: string)
    requires forall i :: 0 <= i < |sp| ==> IsSpace(sp[i])
    ensures Words(sp + rest) == Words(rest)
  {
    if sp != [] {
      assert (sp + rest)[0] == sp[0] && (sp + rest)[1..] == sp[1..] + rest;
      WordsSpaces(sp[1..], rest);
    } else {
      assert sp + rest == rest;
    }
  }

  /** A non-empty run of non-space characters. */
  predicate IsWord(w: string) {
    w != [] && forall i :: 0 <= i < |w| ==> !IsSpace(w[i])
  }

  /** A non-empty run of white space. */
  predicate IsBlank(sp: string) {
    sp != [] && forall i :: 0 <= i < |sp| ==> IsSpace(sp[i])
  }

  /** Four words separated by white space come out as the first four fields. */
  lemma {:induction false} FourWords(w1: string, s1: string, w2: string, s2: string, w3: string, s3: string, w4: string, rest: string)
    requires IsWord(w1) && IsWord(w2) && IsWord(w3) && IsWord(w4)
    requires IsBlank(s1) && IsBlank(s2) && IsBlank(s3)
    requires rest == [] || IsSpace(rest[0])
    ensures Words(w1 + (s1 + (w2 + (s2 + (w3 + (s3 + (w4 + rest))))))) == [w1, w2, w3, w4] + Words(rest)
  {
    var t2 := w3 + (s3 + (w4 + rest));
    TwoWords(w3, s3, w4, rest);
    WordsSpaces(s2, t2);
    TwoWords(w1, s1, w2, s2 + t2);
    assert [w1, w2] + ([w3, w4] + Words(rest)) == [w1, w2, w3, w4] + Words(rest);
  }

  /** Regrouping five pieces and a tail to the right. */
  lemma {:induction false} NestFive(a: string, b: string, c: string, d: string, e: string, t: string)
    ensures a + b + c + d + e + t == a + (b + (c + (d + (e + t))))
  {
  }

  lemma {:induction false} TwoWords(w1: string, s1: string, w2: string, rest: string)
    requires IsWord(w1) && IsWord(w2) && IsBlank(s1)
    requires rest == [] || IsSpace(rest[0])
    ensures Words(w1 + (s1 + (w2 + rest))) == [w1, w2] + Words(rest)
  {
    WordThenSpaces(w1, s1, w2 + rest);
    WordsStep(w2, rest);
  }

  /** A word and the white space after it: the word comes out, the space is dropped. */
  lemma {:induction false} WordThenSpaces(w: string, sp: string, rest: string)
    requires IsWord(w) && IsBlank(sp)
    ensures Words(w + (sp + rest)) == [w] + Words(rest)
  {
    WordsStep(w, sp + rest);
    WordsSpaces(sp, rest);
  }

  /** The length of the longest prefix of `s` without the character `c`. */
  function SpanNot(s: string, c: char): (n: nat)
    ensures n <= |s|
    ensures forall i :: 0 <= i < n ==> s[i] != c
    ensures n < |s| ==> s[n] == c
  {
    if s == [] || s[0] == c then 0 else 1 + SpanNot(s[1..], c)
  }

  /** `readlines()` (and `for line in f`): every line keeps its trailing newline; a last line
      without one is kept; no empty line is produced at the end. */
  function ReadLines(s: string): (r: seq<string>)
    ensures forall k :: 0 <= k < |r| ==> r[k] != []
    decreases |s|
  {
    if s == [] then []
    else
      var n := SpanNot(s, '\n');
      if n == |s| then [s] else [s[..n + 1]] + ReadLines(s[n + 1..])
  }

  /** A line ending in its only newline is read first. */
  lemma {:induction false} ReadLinesStep(line: string, rest: string)
    requires line != [] && line[|line| - 1] == '\n'
    requires forall k :: 0 <= k < |line| - 1 ==> line[k] != '\n'
    ensures ReadLines(line + rest) == [line] + ReadLines(rest)
  {
    var s := line + rest;
    SpanNotAt(s, '\n', |line| - 1);
    assert s[..|line|] == line && s[|line|..] == rest;
  }

  /** A text shorter than `t` does not contain it. */
  lemma {:induction false} ContainsShort(s: string, t: string)
    requires |s| < |t|
    ensures !Contains(s, t)
  {
    if |s| > 0 {
      ContainsShort(s[1..], t);
    }
  }

  /** `s.split(c)` for a one-character separator: the pieces between the separators,
      empty pieces included. */
  function Split(s: string, c: char): (r: seq<string>)
    ensures |r| >= 1
    decreases |s|
  {
    var n := SpanNot(s, c);
    if n == |s| then [s] else [s[..n]] + Split(s[n + 1..], c)
  }

  /** A piece without the separator is cut off whole at the first separator. */
  lemma {:induction false} SplitAt(a: string, rest: string, c: char)
    requires forall k :: 0 <= k < |a| ==> a[k] != c
    ensures Split(a + [c] + rest, c) == [a] + Split(rest, c)
  {
    var s := a + [c] + rest;
    assert SpanNot(s, c) == |a| by {
      SpanNotAt(s, c, |a|);
    }
    assert s[..|a|] == a && s[|a| + 1..] == rest;
  }

  lemma {:induction false} SplitWhole(a: string, c: char)
    requires forall k :: 0 <= k < |a| ==> a[k] != c
    ensures Split(a, c) == [a]
  {
    SpanNotAt(a, c, |a|);
  }

  lemma {:induction false} SpanNotAt(s: string, c: char, n: nat)
    requires n <= |s| && (n < |s| ==> s[n] == c)
    requires forall k :: 0 <= k < n ==> s[k] != c
    ensures SpanNot(s, c) == n
  {
    if s != [] && s[0] != c {
      SpanNotAt(s[1..], c, n - 1);
    }
  }

  /** The concatenation of a list of strings (`''.join(parts)`). */
  function Concat(parts: seq<string>): string {
    if parts == [] then [] else Concat(parts[..|parts| - 1]) + parts[|parts| - 1]
  }

  /** `sep.join(parts)`. */
  function JoinWith(sep: string, parts: seq<string>): string {
    if parts == [] then []
    else if |parts| == 1 then parts[0]
    else JoinWith(sep, parts[..|parts| - 1]) + sep + parts[|parts| - 1]
  }

  /** The number of white-space characters `s` starts with, counted from index `i`. */
  function SpacesFrom(s: string, i: nat): (n: nat)
    requires i <= |s|
    ensures i + n <= |s|
    ensures forall k :: i <= k < i + n ==> IsSpace(s[k])
    ensures i + n < |s| ==> !IsSpace(s[i + n])
    decreases |s| - i
  {
    if i < |s| && IsSpace(s[i]) then 1 + SpacesFrom(s, i + 1) else 0
  }

  /** The number of white-space characters among the first `j` characters of `s` that
      end them. */
  function SpacesBefore(s: string, j: nat): (n: nat)
    requires j <= |s|
    ensures n <= j
    ensures forall k :: j - n <= k < j ==> IsSpace(s[k])
    ensures n < j ==> !IsSpace(s[j - n - 1])
  {
    if 0 < j && IsSpace(s[j - 1]) then 1 + SpacesBefore(s, j - 1) else 0
  }

  /** `s.lstrip()`. */
  function LStrip(s: string): string {
    s[SpacesFrom(s, 0)..]
  }

  /** `s.rstrip()`. */
  function RStrip(s: string): string {
    s[..|s| - SpacesBefore(s, |s|)]
  }

  /** `s.strip()`. */
  function Strip(s: string): string {
    RStrip(LStrip(s))
  }

  /** `s[:n]` for a Python list or string, and `df.head(n)` for a table: a negative `n`
      drops the last `-n` elements instead. */
  function PyPrefix<T>(s: seq<T>, n: int): (r: seq<T>)
    ensures |r| <= |s| && r == s[..|r|]
    ensures n >= 0 ==> |r| == if n <= |s| then n else |s|
    ensures n < 0 ==> |r| == if |s| + n >= 0 then |s| + n else 0
  {
    if n >= 0 then (if n <= |s| then s[..n] else s)
    else if |s| + n >= 0 then s[..|s| + n]
    else []
  }

  /** `s[a:b]` for non-negative bounds: out-of-range bounds are clamped. */
  function PySlice<T>(s: seq<T>, a: nat, b: nat): (r: seq<T>)
    ensures a <= b <= |s| ==> r == s[a..b]
    ensures |r| <= b - a || b < a
  {
    var lo := if a <= |s| then a else |s|;
    var hi := if b <= |s| then (if b < lo then lo else b) else |s|;
    s[lo..hi]
  }

  function DigitChar(d: nat): char
    requires d < 10
  {
    "0123456789"[d]
  }

  predicate IsDigit(c: char) {
    '0' <= c <= '9'
  }

  function DigitValue(c: char): nat
    requires IsDigit(c)
  {
    (c - '0') as nat
  }

  /** `str(n)` for a natural number. */
  function NatToString(n: nat): (r: string)
    ensures r != [] && forall i :: 0 <= i < |r| ==> IsDigit(r[i])
  {
    if n < 10 then [DigitChar(n)] else NatToString(n / 10) + [DigitChar(n % 10)]
  }

  /** `int(s)` for a non-empty string of decimal digits. */
  function DigitsValue(s: string): nat
    requires forall i :: 0 <= i < |s| ==> IsDigit(s[i])
  {
    if s == [] then 0 else DigitsValue(s[..|s| - 1]) * 10 + DigitValue(s[|s| - 1])
  }

  lemma {:induction false} NatToStringRoundTrip(n: nat)
    ensures DigitsValue(NatToString(n)) == n
  {
    if n >= 10 {
      NatToStringRoundTrip(n / 10);
      var r := NatToString(n);
      assert r[..|r| - 1] == NatToString(n / 10);
    }
  }

  /** `str(i)` for an integer. */
  function IntToString(i: int): (r: string)
    ensures r != []
    ensures forall k :: 0 < k < |r| ==> IsDigit(r[k])
    ensures IsDigit(r[0]) <==> i >= 0
  {
    if i < 0 then ['-'] + NatToString(-i) else NatToString(i)
  }

  /** Different integers print differently, so a name built from one identifies it. */
  lemma {:induction false} IntToStringInjective(i: int, j: int)
    requires IntToString(i) == IntToString(j)
    ensures i == j
  {
    IntToStringRoundTrip(i);
    IntToStringRoundTrip(j);
  }

  /** The texts `str()` gives an integer: an optional minus sign, then digits. */
  predicate IsIntText(s: string) {
    s != [] && (s[0] == '-' || IsDigit(s[0])) && forall k :: 0 < k < |s| ==> IsDigit(s[k])
  }

  /** `int(s)`. */
  function IntValue(s: string): int
    requires IsIntText(s)
  {
    if s[0] == '-' then
      assert forall k :: 0 <= k < |s[1..]| ==> s[1..][k] == s[k + 1];
      -(DigitsValue(s[1..]) as int)
    else DigitsValue(s)
  }

  /** `int(str(i)) == i`. */
  lemma {:induction false} IntToStringRoundTrip(i: int)
    ensures IsIntText(IntToString(i)) && IntValue(IntToString(i)) == i
  {
    if i < 0 {
      NegativeRoundTrip(-i);
    } else {
      NatToStringRoundTrip(i);
    }
  }

  lemma {:induction false} NegativeRoundTrip(n: nat)
    ensures IsIntText(['-'] + NatToString(n)) && IntValue(['-'] + NatToString(n)) == -(n as int)
  {
    var d := NatToString(n);
    var r := ['-'] + d;
    assert r[1..] == d;
    NatToStringRoundTrip(n);
  }


}
