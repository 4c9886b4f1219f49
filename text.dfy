/**
 * The string and list operations of Python that the pipeline leans on,
 * written out with their Python semantics: `str.strip`, `str.lower`,
 * `sep.join`, `str.split(sep)`, `str.splitlines`, `in` on strings, slicing
 * with possibly negative bounds, and `str(int)`.
 */
module Text {

  /** Python's `str.isspace()` for one character. */
  predicate IsSpace(c: char) {
    c == ' ' || c == '\t' || c == '\n' || c == '\r' || c == '\U{B}' || c == '\U{C}'
    || c == '\U{1C}' || c == '\U{1D}' || c == '\U{1E}' || c == '\U{1F}'
    || c == '\U{85}' || c == '\U{A0}' || c == '\U{1680}'
    || ('\U{2000}' <= c <= '\U{200A}')
    || c == '\U{2028}' || c == '\U{2029}' || c == '\U{202F}' || c == '\U{205F}' || c == '\U{3000}'
  }

  predicate AllSpace(s: string) {
    forall i :: 0 <= i < |s| ==> IsSpace(s[i])
  }

  /** `s.lstrip()` */
  function LStrip(s: string): (r: string)
    ensures |r| <= |s| && r == s[|s| - |r|..]
    ensures AllSpace(s[..|s| - |r|])
    ensures r != [] ==> !IsSpace(r[0])
  {
    if s != [] && IsSpace(s[0]) then
      var r := LStrip(s[1..]);
      assert s[1..][..|s[1..]| - |r|] == s[1..|s| - |r|];
      r
    else s
  }

  /** `s.rstrip()` */
  function RStrip(s: string): (r: string)
    ensures |r| <= |s| && r == s[..|r|]
    ensures AllSpace(s[|r|..])
    ensures r != [] ==> !IsSpace(r[|r| - 1])
  {
    if s != [] && IsSpace(s[|s| - 1]) then
      var r := RStrip(s[..|s| - 1]);
      assert s[..|s| - 1][|r|..] + [s[|s| - 1]] == s[|r|..];
      r
    else s
  }

  /** `s.strip()` */
  function Strip(s: string): string {
    RStrip(LStrip(s))
  }

  /** A non-empty string with no whitespace at either end: what `strip()` leaves of a non-blank string. */
  predicate IsStripped(s: string) {
    s != [] && !IsSpace(s[0]) && !IsSpace(s[|s| - 1])
  }

  /** A Python string that is falsy once stripped: `not s.strip()`. */
  predicate IsBlank(s: string) {
    Strip(s) == []
  }

  /** `s.rstrip(c)` for a single character `c`. */
  function RStripChar(s: string, c: char): (r: string)
    ensures |r| <= |s| && r == s[..|r|] && (r == [] || r[|r| - 1] != c)
    ensures forall i :: |r| <= i < |s| ==> s[i] == c
  {
    if s != [] && s[|s| - 1] == c then RStripChar(s[..|s| - 1], c) else s
  }

  /** `str.lower()` on ASCII letters; other characters are kept. */
  function LowerChar(c: char): char {
    if 'A' <= c <= 'Z' then (c as int + 32) as char else c
  }

  function Lower(s: string): (r: string)
    ensures |r| == |s| && forall i :: 0 <= i < |s| ==> r[i] == LowerChar(s[i])
  {
    if s == [] then [] else [LowerChar(s[0])] + Lower(s[1..])
  }

  /** `sub` occurs in `s` starting at index `i`. */
  predicate OccursAt(s: string, sub: string, i: int) {
    0 <= i && i + |sub| <= |s| && s[i..i + |sub|] == sub
  }

  /** `sub in s` */
  predicate Contains(s: string, sub: string) {
    exists i :: 0 <= i <= |s| && OccursAt(s, sub, i)
  }

  /** `s.startswith(p)` */
  predicate StartsWith(s: string, p: string) {
    |p| <= |s| && s[..|p|] == p
  }

  lemma StartsWithConcat(a: string, b: string)
    ensures StartsWith(a + b, a)
  {
    assert (a + b)[..|a|] == a;
  }

  lemma StartsWithAssoc(a: string, b: string, c: string)
    ensures a + (b + c) == (a + b) + c && StartsWith(a + (b + c), a + b)
  {
    StartsWithConcat(a + b, c);
  }

  lemma StartsWithExtend(s: string, p: string, more: string)
    requires StartsWith(s, p)
    ensures StartsWith(s + more, p)
  {
    assert (s + more)[..|p|] == s[..|p|];
  }

  /** A prefix of the middle part extends the prefix of the whole. */
  lemma StartsWithChain(a: string, s: string, b: string, rest: string)
    requires StartsWith(s, b)
    ensures StartsWith(a + s + rest, a + b)
  {
    assert s == b + s[|b|..];
    assert a + s + rest == (a + b) + (s[|b|..] + rest);
    StartsWithConcat(a + b, s[|b|..] + rest);
  }

  /** `s.endswith(suffix)` */
  predicate EndsWith(s: string, suffix: string) {
    |suffix| <= |s| && s[|s| - |suffix|..] == suffix
  }

  /** `s.replace(a, b)` for single characters. */
  function ReplaceChar(s: string, a: char, b: char): (r: string)
    ensures |r| == |s|
    ensures forall i :: 0 <= i < |s| ==> r[i] == (if s[i] == a then b else s[i])
  {
    if s == [] then [] else [if s[0] == a then b else s[0]] + ReplaceChar(s[1..], a, b)
  }

  /** `"".join(parts)` */
  function Concat(parts: seq<string>): string {
    if parts == [] then [] else parts[0] + Concat(parts[1..])
  }

  /** `sep.join(parts)` */
  function Join(parts: seq<string>, sep: string): string {
    if parts == [] then []
    else if |parts| == 1 then parts[0]
    else parts[0] + sep + Join(parts[1..], sep)
  }

  /** `xs[:n]` for any integer `n` (a negative `n` counts from the end). */
  function Take<T>(xs: seq<T>, n: int): (r: seq<T>)
    ensures |r| <= |xs| && r == xs[..|r|]
    ensures n >= 0 ==> |r| == if n < |xs| then n else |xs|
    ensures n < 0 ==> |r| == if |xs| + n > 0 then |xs| + n else 0
  {
    if n >= 0 then xs[..if n < |xs| then n else |xs|]
    else xs[..if |xs| + n > 0 then |xs| + n else 0]
  }

  /** `xs[-n:]` for any integer `n`; note that `xs[-0:]` is all of `xs`. */
  function LastN<T>(xs: seq<T>, n: int): (r: seq<T>)
    ensures |r| <= |xs| && r == xs[|xs| - |r|..]
    ensures n > 0 ==> |r| == if n < |xs| then n else |xs|
    ensures n == 0 ==> r == xs
  {
    if n > 0 then xs[if n < |xs| then |xs| - n else 0..]
    else if n == 0 then xs
    else xs[if -n < |xs| then -n else |xs|..]
  }

  /** The index of the first occurrence of `sep` in `s` at or after `from`, or `|s|`. */
  function FindFrom(s: string, sep: string, from: nat): (r: nat)
    requires |sep| > 0 && from <= |s|
    decreases |s| - from
    ensures from <= r <= |s|
    ensures r < |s| ==> OccursAt(s, sep, r)
    ensures forall j :: from <= j < r ==> !OccursAt(s, sep, j)
    ensures r == |s| ==> forall j :: from <= j ==> !OccursAt(s, sep, j)
  {
    if from + |sep| > |s| then |s|
    else if s[from..from + |sep|] == sep then from
    else FindFrom(s, sep, from + 1)
  }

  /** `s.split(sep)` for a non-empty separator. */
  function Split(s: string, sep: string): (r: seq<string>)
    requires |sep| > 0
    decreases |s|
    ensures |r| >= 1
  {
    var i := FindFrom(s, sep, 0);
    if i == |s| then [s] else [s[..i]] + Split(s[i + |sep|..], sep)
  }

  /** One step of re-joining: the piece before the separator, the separator, then the rest. */
  lemma JoinStep(s: string, i: nat, sep: string, tail: seq<string>)
    requires i + |sep| <= |s| && s[i..i + |sep|] == sep
    requires |tail| >= 1 && Join(tail, sep) == s[i + |sep|..]
    ensures Join([s[..i]] + tail, sep) == s
  {
    var parts := [s[..i]] + tail;
    assert parts[0] == s[..i] && parts[1..] == tail && |parts| > 1;
    assert Join(parts, sep) == s[..i] + sep + Join(tail, sep);
    ThreeParts(s, i, i + |sep|);
  }

  /** A string is its three slices at `i` and `j`, put back together. */
  lemma ThreeParts(s: string, i: nat, j: nat)
    requires i <= j <= |s|
    ensures s == s[..i] + s[i..j] + s[j..]
  {
    assert s[..i] + s[i..j] == s[..j];
  }

  /** Joining the pieces of a split with the same separator gives back the string. */
  lemma {:induction false} JoinSplit(s: string, sep: string)
    requires |sep| > 0
    decreases |s|
    ensures Join(Split(s, sep), sep) == s
  {
    var i := FindFrom(s, sep, 0);
    if i == |s| {
      assert Split(s, sep) == [s];
    } else {
      var rest := s[i + |sep|..];
      JoinSplit(rest, sep);
      var tail := Split(rest, sep);
      assert Split(s, sep) == [s[..i]] + tail;
      JoinStep(s, i, sep, tail);
    }
  }

  /** Splitting on a one-character separator undoes a join of pieces free of it. */
  lemma {:induction false} SplitJoinChar(ps: seq<string>, c: char)
    requires ps != []
    requires forall k :: 0 <= k < |ps| ==> c !in ps[k]
    ensures Split(Join(ps, [c]), [c]) == ps
  {
    var s := Join(ps, [c]);
    var i := FindFrom(s, [c], 0);
    forall j | 0 <= j < |ps[0]| ensures !OccursAt(s, [c], j) {
      assert s[j] == ps[0][j];
    }
    if |ps| > 1 {
      var rest := ps[1..];
      assert s == ps[0] + [c] + Join(rest, [c]);
      assert OccursAt(s, [c], |ps[0]|);
      assert i == |ps[0]|;
      assert s[i + 1..] == Join(rest, [c]);
      assert s[..i] == ps[0];
      SplitJoinChar(rest, c);
    }
  }

  /** A prefix that ends before the first occurrence holds no occurrence. */
  lemma PrefixFree(s: string, sep: string, i: nat)
    requires |sep| > 0 && i <= |s|
    requires forall j :: 0 <= j < i ==> !OccursAt(s, sep, j)
    ensures !Contains(s[..i], sep)
  {
    if Contains(s[..i], sep) {
      var j :| 0 <= j <= i && OccursAt(s[..i], sep, j);
      assert 0 <= j && j + |sep| <= i;
      assert s[..i][j..j + |sep|] == s[j..j + |sep|];
      assert OccursAt(s, sep, j);
    }
  }

  /** A string that does not contain the one-character string `[c]` has no `c` in it. */
  lemma NotContainsChar(s: string, c: char)
    requires !Contains(s, [c])
    ensures c !in s
  {
    forall j | 0 <= j < |s| ensures s[j] != c {
      assert !OccursAt(s, [c], j);
      assert s[j..j + 1] == [s[j]];
    }
  }

  /** No piece of a split contains the separator. */
  lemma {:induction false} SplitPiecesFree(s: string, sep: string)
    requires |sep| > 0
    decreases |s|
    ensures forall k :: 0 <= k < |Split(s, sep)| ==> !Contains(Split(s, sep)[k], sep)
  {
    var i := FindFrom(s, sep, 0);
    if i == |s| {
      assert Split(s, sep) == [s];
      PrefixFree(s, sep, |s|);
      assert s[..|s|] == s;
    } else {
      var rest := s[i + |sep|..];
      SplitPiecesFree(rest, sep);
      var tail := Split(rest, sep);
      assert Split(s, sep) == [s[..i]] + tail;
      PrefixFree(s, sep, i);
      forall k | 0 <= k < |Split(s, sep)|
        ensures !Contains(Split(s, sep)[k], sep)
      {
        if k > 0 {
          assert Split(s, sep)[k] == tail[k - 1];
        }
      }
    }
  }

  /** What `strip()` leaves is a slice of the string. */
  lemma StripInside(s: string)
    ensures Contains(s, Strip(s))
  {
    var l := LStrip(s);
    var r := RStrip(l);
    assert s[|s| - |l|..][..|r|] == s[|s| - |l|..|s| - |l| + |r|];
    assert OccursAt(s, r, |s| - |l|);
  }

  /** An occurrence in a part is an occurrence in any string the part is glued into. */
  lemma ContainsInConcat(a: string, b: string, c: string, sub: string)
    requires Contains(b, sub)
    ensures Contains(a + b + c, sub)
  {
    var i :| 0 <= i <= |b| && OccursAt(b, sub, i);
    assert (a + b + c)[|a| + i..|a| + i + |sub|] == b[i..i + |sub|];
    assert OccursAt(a + b + c, sub, |a| + i);
  }

  lemma ContainsSelf(s: string)
    ensures Contains(s, s)
  {
    assert OccursAt(s, s, 0);
  }

  /** Containment is transitive. */
  lemma ContainsTrans(a: string, b: string, c: string)
    requires Contains(a, b) && Contains(b, c)
    ensures Contains(a, c)
  {
    var i :| 0 <= i <= |a| && OccursAt(a, b, i);
    var j :| 0 <= j <= |b| && OccursAt(b, c, j);
    assert a[i..i + |b|] == b;
    forall k | 0 <= k < |c| ensures a[i + j + k] == c[k] {
      assert a[i + j + k] == a[i..i + |b|][j + k] == b[j + k] == b[j..j + |c|][k];
    }
    assert a[i + j..i + j + |c|] == c;
    assert OccursAt(a, c, i + j);
  }

  /** Every part of `sep.join(parts)` occurs in it. */
  lemma {:induction false} JoinContainsParts(parts: seq<string>, sep: string)
    ensures forall i :: 0 <= i < |parts| ==> Contains(Join(parts, sep), parts[i])
  {
    if |parts| == 1 {
      ContainsSelf(parts[0]);
    } else if |parts| > 1 {
      var rest := Join(parts[1..], sep);
      JoinContainsParts(parts[1..], sep);
      forall i | 0 <= i < |parts| ensures Contains(Join(parts, sep), parts[i]) {
        if i == 0 {
          ContainsSelf(parts[0]);
          ContainsInConcat([], parts[0], sep + rest, parts[0]);
          assert [] + parts[0] + (sep + rest) == Join(parts, sep);
        } else {
          assert parts[1..][i - 1] == parts[i];
          ContainsInConcat(parts[0] + sep, rest, [], parts[i]);
          assert parts[0] + sep + rest + [] == Join(parts, sep);
        }
      }
    }
  }

  /** `s.count(c)` for a single character. */
  function CountChar(s: string, c: char): (n: nat)
    ensures n <= |s|
  {
    if s == [] then 0 else (if s[|s| - 1] == c then 1 else 0) + CountChar(s[..|s| - 1], c)
  }

  /** Python's line boundaries for `str.splitlines()`. */
  predicate IsLineBreak(c: char) {
    c == '\n' || c == '\r' || c == '\U{B}' || c == '\U{C}' || c == '\U{1C}' || c == '\U{1D}'
    || c == '\U{1E}' || c == '\U{85}' || c == '\U{2028}' || c == '\U{2029}'
  }

  /** The index of the first line boundary at or after `from`, or `|s|`. */
  function FirstBreak(s: string, from: nat): (r: nat)
    requires from <= |s|
    decreases |s| - from
    ensures from <= r <= |s| && (r < |s| ==> IsLineBreak(s[r]))
    ensures forall j :: from <= j < r ==> !IsLineBreak(s[j])
  {
    if from == |s| then |s| else if IsLineBreak(s[from]) then from else FirstBreak(s, from + 1)
  }

  /** `s.splitlines()`: "\r\n" is one boundary and a final boundary adds no empty line. */
  function SplitLines(s: string): (r: seq<string>)
    decreases |s|
    ensures s == [] <==> r == []
    ensures forall k :: 0 <= k < |r| ==> forall j :: 0 <= j < |r[k]| ==> !IsLineBreak(r[k][j])
  {
    if s == [] then []
    else
      var i := FirstBreak(s, 0);
      if i == |s| then [s]
      else
        var width := if s[i] == '\r' && i + 1 < |s| && s[i + 1] == '\n' then 2 else 1;
        [s[..i]] + SplitLines(s[i + width..])
  }

  function DigitChar(d: nat): char
    requires d < 10
  {
    "0123456789"[d]
  }

  /** `str(n)` for a natural number. */
  function NatToString(n: nat): (r: string)
    ensures |r| >= 1
    ensures forall i :: 0 <= i < |r| ==> '0' <= r[i] <= '9'
  {
    if n < 10 then [DigitChar(n)] else NatToString(n / 10) + [DigitChar(n % 10)]
  }

  /** `str(n)` for any integer. */
  function IntToString(n: int): string {
    if n < 0 then "-" + NatToString(-n) else NatToString(n)
  }

  /** Reading the digits back gives the number: `str` on naturals is injective. */
  function DigitsValue(s: string): int
  {
    if s == [] then 0 else DigitsValue(s[..|s| - 1]) * 10 + (s[|s| - 1] as int - '0' as int)
  }

  lemma {:induction false} NatToStringValue(n: nat)
    ensures DigitsValue(NatToString(n)) == n
  {
    if n >= 10 {
      NatToStringValue(n / 10);
      var r := NatToString(n / 10) + [DigitChar(n % 10)];
      assert r[..|r| - 1] == NatToString(n / 10);
    }
  }

  // ---- facts about Strip ----

  lemma AllSpaceSlice(w: string, a: nat, b: nat)
    requires AllSpace(w) && a <= b <= |w|
    ensures AllSpace(w[a..b])
  {
    forall i | 0 <= i < b - a ensures IsSpace(w[a..b][i]) {
      assert w[a..b][i] == w[a + i];
    }
  }

  lemma {:induction false} LStripOfSpaces(w: string, s: string)
    requires AllSpace(w)
    ensures LStrip(w + s) == LStrip(s)
  {
    if w == [] {
      assert w + s == s;
    } else {
      assert IsSpace(w[0]);
      assert (w + s)[0] == w[0];
      assert (w + s)[1..] == w[1..] + s;
      assert LStrip(w + s) == LStrip((w + s)[1..]);
      AllSpaceSlice(w, 1, |w|);
      LStripOfSpaces(w[1..], s);
    }
  }

  lemma {:induction false} RStripOfSpaces(s: string, w: string)
    requires AllSpace(w)
    ensures RStrip(s + w) == RStrip(s)
  {
    if w == [] {
      assert s + w == s;
    } else {
      assert IsSpace(w[|w| - 1]);
      assert (s + w)[|s + w| - 1] == w[|w| - 1];
      assert (s + w)[..|s + w| - 1] == s + w[..|w| - 1];
      assert RStrip(s + w) == RStrip((s + w)[..|s + w| - 1]);
      AllSpaceSlice(w, 0, |w| - 1);
      RStripOfSpaces(s, w[..|w| - 1]);
    }
  }

  lemma LStripNoLead(s: string)
    requires s == [] || !IsSpace(s[0])
    ensures LStrip(s) == s
  {}

  lemma RStripNoTrail(s: string)
    requires s == [] || !IsSpace(s[|s| - 1])
    ensures RStrip(s) == s
  {}

  /** Right-stripping keeps a leading non-space character in front. */
  lemma RStripKeepsHead(s: string)
    requires s != [] && !IsSpace(s[0])
    ensures RStrip(s) != [] && RStrip(s)[0] == s[0]
  {
    var r := RStrip(s);
    assert AllSpace(s[|r|..]);
  }

  lemma AllSpaceConcat(a: string, b: string)
    requires AllSpace(a) && AllSpace(b)
    ensures AllSpace(a + b)
  {
    forall i | 0 <= i < |a + b| ensures IsSpace((a + b)[i]) {
      if i < |a| { assert (a + b)[i] == a[i]; } else { assert (a + b)[i] == b[i - |a|]; }
    }
  }

  lemma LStripSpacesOnly(w: string)
    requires AllSpace(w)
    ensures LStrip(w) == []
  {
    LStripOfSpaces(w, []);
    assert w + [] == w;
  }

  /** Trailing whitespace survives `lstrip()` unless nothing else is left. */
  lemma {:induction false} LStripAppend(s: string, w: string)
    requires AllSpace(w)
    ensures LStrip(s + w) == if LStrip(s) == [] then [] else LStrip(s) + w
  {
    if s == [] {
      assert s + w == w;
      LStripSpacesOnly(w);
    } else if IsSpace(s[0]) {
      assert (s + w)[0] == s[0];
      assert (s + w)[1..] == s[1..] + w;
      LStripAppend(s[1..], w);
    } else {
      assert (s + w)[0] == s[0];
    }
  }

  /** Whitespace around a text does not change what `strip()` leaves. */
  lemma StripSurrounded(w1: string, s: string, w2: string)
    requires AllSpace(w1) && AllSpace(w2)
    ensures Strip(w1 + s + w2) == Strip(s)
  {
    assert w1 + s + w2 == w1 + (s + w2);
    LStripOfSpaces(w1, s + w2);
    LStripAppend(s, w2);
    if LStrip(s) != [] {
      RStripOfSpaces(LStrip(s), w2);
    }
  }

  /** Stripping twice is stripping once. */
  lemma StripIdempotent(s: string)
    ensures Strip(Strip(s)) == Strip(s)
  {
    var r := RStrip(LStrip(s));
    if r != [] {
      RStripKeepsHead(LStrip(s));
      LStripNoLead(r);
      RStripNoTrail(r);
    }
  }

  /** A text is blank exactly when every character is whitespace. */
  lemma BlankIffAllSpace(s: string)
    ensures IsBlank(s) <==> AllSpace(s)
  {
    var t := LStrip(s);
    if t != [] {
      RStripKeepsHead(t);
      assert t[0] == s[|s| - |t|];
    } else {
      assert s[..|s| - |t|] == s;
    }
  }

  /** What `strip()` leaves of a non-blank string has no whitespace at either end. */
  lemma StripIsStripped(s: string)
    ensures Strip(s) != [] ==> IsStripped(Strip(s))
  {
    if LStrip(s) != [] {
      RStripKeepsHead(LStrip(s));
    }
  }

  /** A string with no whitespace at either end is its own `strip()`. */
  lemma StrippedFixed(s: string)
    requires IsStripped(s)
    ensures Strip(s) == s
  {
    LStripNoLead(s);
    RStripNoTrail(s);
  }
}
