/**
 * The string operations of Python and JavaScript that the model relies on,
 * on `seq<char>`.  Case mapping covers ASCII letters only.
 */
module Strings {

  /** `s.startswith(p)` / `s.startsWith(p)`. */
  predicate StartsWith(s: string, p: string) {
    |p| <= |s| && s[..|p|] == p
  }

  /** `s.endswith(p)` / `s.endsWith(p)`. */
  predicate EndsWith(s: string, p: string) {
    |p| <= |s| && s[|s| - |p|..] == p
  }

  /** `p` occurs in `s` starting at index `i`. */
  predicate OccursAt(s: string, p: string, i: int) {
    0 <= i <= |s| - |p| && s[i..i + |p|] == p
  }

  /** `p in s` (Python) / `s.includes(p)` (JavaScript). */
  predicate Contains(s: string, p: string) {
    exists i | 0 <= i <= |s| - |p| :: OccursAt(s, p, i)
  }

  lemma ContainsPrefixPart(a: string, b: string, p: string)
    requires Contains(a, p)
    ensures Contains(a + b, p)
  {
    var i :| 0 <= i <= |a| - |p| && OccursAt(a, p, i);
    assert (a + b)[i..i + |p|] == a[i..i + |p|];
    assert OccursAt(a + b, p, i);
  }

  lemma StartsWithContains(s: string, p: string)
    requires StartsWith(s, p)
    ensures Contains(s, p)
  {
    assert s[0..|p|] == p;
    assert OccursAt(s, p, 0);
  }

  /** `text` occurs in `a + text + b`. */
  lemma ContainsMiddle(a: string, text: string, b: string)
    ensures Contains(a + text + b, text)
  {
    assert (a + text + b)[|a|..|a| + |text|] == text;
    assert OccursAt(a + text + b, text, |a|);
  }

  /** `text` occurs in `a + (b + text + c)`. */
  lemma ContainsInner(a: string, b: string, text: string, c: string)
    ensures Contains(a + (b + text + c), text)
  {
    assert a + (b + text + c) == (a + b) + text + c;
    ContainsMiddle(a + b, text, c);
  }

  /** Replacing starts with the pattern found at the front. */
  lemma ReplaceAllFront(p: string, t: string, rep: string)
    requires |p| > 0
    ensures ReplaceAll(p + t, p, rep) == rep + ReplaceAll(t, p, rep)
  {
    assert (p + t)[..|p|] == p;
    assert (p + t)[|p|..] == t;
  }

  // ---------------------------------------------------------------------------
  // Case mapping

  function LowerChar(c: char): char {
    if 'A' <= c <= 'Z' then (c as int + 32) as char else c
  }

  function UpperChar(c: char): char {
    if 'a' <= c <= 'z' then (c as int - 32) as char else c
  }

  predicate IsCased(c: char) {
    'A' <= c <= 'Z' || 'a' <= c <= 'z'
  }

  /** `s.lower()`: every character mapped by `LowerChar`, nothing else changes. */
  function Lower(s: string): (r: string)
    ensures |r| == |s|
    ensures forall i :: 0 <= i < |s| ==> r[i] == LowerChar(s[i])
  {
    seq(|s|, i requires 0 <= i < |s| => LowerChar(s[i]))
  }

  lemma LowerConcat(a: string, b: string)
    ensures Lower(a + b) == Lower(a) + Lower(b)
  {
  }

  /** `s.capitalize()`: first character upper-cased, the rest lower-cased. */
  function Capitalize(s: string): (r: string)
    ensures |r| == |s|
  {
    if s == [] then [] else [UpperChar(s[0])] + Lower(s[1..])
  }

  /**
   * `s.title()`: a cased character is upper-cased when the character before
   * it is not cased, lower-cased otherwise.
   */
  function TitleFrom(s: string, afterCased: bool): (r: string)
    ensures |r| == |s|
  {
    if s == [] then []
    else
      var c := s[0];
      var t := if !IsCased(c) then c else if afterCased then LowerChar(c) else UpperChar(c);
      [t] + TitleFrom(s[1..], IsCased(c))
  }

  function Title(s: string): string {
    TitleFrom(s, false)
  }

  predicate IsLowerLetter(c: char) {
    'a' <= c <= 'z'
  }

  /** A run of lower-case letters after a cased character is left as it is. */
  lemma {:induction false} TitleFromLowerRun(w: string, rest: string)
    requires forall i | 0 <= i < |w| :: IsLowerLetter(w[i])
    ensures TitleFrom(w + rest, true) == w + TitleFrom(rest, true)
  {
    if w != [] {
      assert (w + rest)[1..] == w[1..] + rest;
      TitleFromLowerRun(w[1..], rest);
      assert IsCased(w[0]) && LowerChar(w[0]) == w[0];
      assert TitleFrom(w + rest, true) == [w[0]] + (w[1..] + TitleFrom(rest, true));
      assert w == [w[0]] + w[1..];
    } else {
      assert w + rest == rest;
    }
  }

  /** `title()` of two lower-case words joined by a space upper-cases the first letter of each. */
  lemma TitleTwoWords(c: char, u: string, d: char, v: string)
    requires IsLowerLetter(c) && IsLowerLetter(d)
    requires forall i | 0 <= i < |u| :: IsLowerLetter(u[i])
    requires forall i | 0 <= i < |v| :: IsLowerLetter(v[i])
    ensures Title([c] + u + [' '] + [d] + v) == [UpperChar(c)] + u + [' '] + [UpperChar(d)] + v
  {
    var s := [c] + u + [' '] + [d] + v;
    assert s[1..] == u + ([' '] + [d] + v);
    TitleFromLowerRun(u, [' '] + [d] + v);
    assert ([' '] + [d] + v)[1..] == [d] + v;
    assert ([d] + v)[1..] == v;
    TitleFromLowerRun(v, []);
    assert v + [] == v;
  }

  // ---------------------------------------------------------------------------
  // Whitespace

  /** The characters Python's `str.strip()` removes. */
  predicate IsSpace(c: char) {
    var n := c as int;
    (0x09 <= n <= 0x0d) || (0x1c <= n <= 0x20) || n == 0x85 || n == 0xa0 || n == 0x1680
    || (0x2000 <= n <= 0x200a) || n == 0x2028 || n == 0x2029 || n == 0x202f
    || n == 0x205f || n == 0x3000
  }

  function StripLeft(s: string): (r: string)
    ensures |r| <= |s| && r == s[|s| - |r|..]
    ensures r == [] || !IsSpace(r[0])
  {
    if |s| > 0 && IsSpace(s[0]) then StripLeft(s[1..]) else s
  }

  function StripRight(s: string): (r: string)
    ensures |r| <= |s| && r == s[..|r|]
    ensures r == [] || !IsSpace(r[|r| - 1])
  {
    if |s| > 0 && IsSpace(s[|s| - 1]) then StripRight(s[..|s| - 1]) else s
  }

  /** `s.strip()`. */
  function Strip(s: string): string {
    StripRight(StripLeft(s))
  }

  /** `s.rstrip(c)` for a single character `c`. */
  function RStripChar(s: string, c: char): (r: string)
    ensures |r| <= |s| && r == s[..|r|]
    ensures r == [] || r[|r| - 1] != c
    ensures forall i :: |r| <= i < |s| ==> s[i] == c
  {
    if |s| > 0 && s[|s| - 1] == c then RStripChar(s[..|s| - 1], c) else s
  }

  // ---------------------------------------------------------------------------
  // Splitting, joining, replacing

  /**
   * `s.split(sep)[-1]`: the longest suffix of `s` that does not contain `sep`.
   */
  function LastSegment(s: string, sep: char): (r: string)
    ensures |r| <= |s| && r == s[|s| - |r|..]
    ensures sep !in r
    ensures |r| < |s| ==> s[|s| - |r| - 1] == sep
  {
    if s == [] then []
    else if s[|s| - 1] == sep then []
    else LastSegment(s[..|s| - 1], sep) + [s[|s| - 1]]
  }

  /** The last segment after a separator is what follows it, when that is free of separators. */
  lemma {:induction false} LastSegmentAfter(p: string, sep: char, seg: string)
    requires sep !in seg
    ensures LastSegment(p + [sep] + seg, sep) == seg
  {
    var s := p + [sep] + seg;
    if seg == [] {
      assert s[|s| - 1] == sep;
    } else {
      var init := seg[..|seg| - 1];
      assert s[..|s| - 1] == p + [sep] + init;
      LastSegmentAfter(p, sep, init);
      assert seg == init + [seg[|seg| - 1]];
    }
  }

  /**
   * `s.split(sep)[0]`: the longest prefix of `s` that does not contain `sep`.
   */
  function FirstSegment(s: string, sep: char): (r: string)
    ensures |r| <= |s| && r == s[..|r|]
    ensures sep !in r
    ensures |r| < |s| ==> s[|r|] == sep
  {
    if s == [] then []
    else if s[0] == sep then []
    else [s[0]] + FirstSegment(s[1..], sep)
  }

  /** `sep.join(parts)`. */
  function Join(parts: seq<string>, sep: string): string {
    if parts == [] then []
    else if |parts| == 1 then parts[0]
    else parts[0] + sep + Join(parts[1..], sep)
  }

  /**
   * `s.replace(pat, rep)` (Python) / `s.replaceAll(pat, rep)` (JavaScript):
   * non-overlapping occurrences, scanned left to right.
   */
  function ReplaceAll(s: string, pat: string, rep: string): string
    requires |pat| > 0
    decreases |s|
  {
    if |s| < |pat| then s
    else if s[..|pat|] == pat then rep + ReplaceAll(s[|pat|..], pat, rep)
    else [s[0]] + ReplaceAll(s[1..], pat, rep)
  }

  lemma {:induction false} ReplaceAllAbsent(s: string, pat: string, rep: string)
    requires |pat| > 0 && !Contains(s, pat)
    ensures ReplaceAll(s, pat, rep) == s
    decreases |s|
  {
    if |s| >= |pat| {
      assert !OccursAt(s, pat, 0);
      assert s[0..|pat|] == s[..|pat|];
      forall i | 0 <= i <= |s| - 1 - |pat|
        ensures !OccursAt(s[1..], pat, i)
      {
        assert s[1..][i..i + |pat|] == s[i + 1..i + 1 + |pat|];
        assert !OccursAt(s, pat, i + 1);
      }
      ReplaceAllAbsent(s[1..], pat, rep);
    }
  }

  /** `s.split(a).join(b)` for single characters: every `a` becomes `b`. */
  function ReplaceChar(s: string, a: char, b: char): (r: string)
    ensures |r| == |s|
    ensures forall i :: 0 <= i < |s| ==> r[i] == if s[i] == a then b else s[i]
  {
    seq(|s|, i requires 0 <= i < |s| => if s[i] == a then b else s[i])
  }

  /** The number of occurrences of `c` in `s` (`s.count(c)` for one character). */
  function CountChar(s: string, c: char): (n: nat)
    ensures n <= |s|
  {
    if s == [] then 0 else CountChar(s[..|s| - 1], c) + (if s[|s| - 1] == c then 1 else 0)
  }

  // ---------------------------------------------------------------------------
  // Decimal rendering of integers, as f-strings and template literals do it

  function DigitChar(d: nat): char
    requires d < 10
  {
    ('0' as int + d) as char
  }

  function DigitValue(c: char): nat {
    if '0' <= c <= '9' then c as nat - '0' as nat else 0
  }

  predicate IsDigit(c: char) {
    '0' <= c <= '9'
  }

  function NatToString(n: nat): (r: string)
    ensures |r| >= 1
    ensures forall i :: 0 <= i < |r| ==> IsDigit(r[i])
  {
    if n < 10 then [DigitChar(n)] else NatToString(n / 10) + [DigitChar(n % 10)]
  }

  function IntToString(i: int): string {
    if i < 0 then "-" + NatToString(-i) else NatToString(i)
  }

  /** The value of a string of decimal digits. */
  function DigitsValue(s: string): nat {
    if s == [] then 0 else 10 * DigitsValue(s[..|s| - 1]) + DigitValue(s[|s| - 1])
  }

  /** Rendering a number and reading it back gives the number. */
  lemma {:induction false} NatToStringRoundTrip(n: nat)
    ensures DigitsValue(NatToString(n)) == n
  {
    if n >= 10 {
      NatToStringRoundTrip(n / 10);
      var s := NatToString(n);
      assert s[..|s| - 1] == NatToString(n / 10);
      assert DigitValue(s[|s| - 1]) == n % 10;
    }
  }

  /** Different numbers render differently, so ids built from indices are distinct. */
  lemma NatToStringInjective(m: nat, n: nat)
    requires NatToString(m) == NatToString(n)
    ensures m == n
  {
    NatToStringRoundTrip(m);
    NatToStringRoundTrip(n);
  }

  /** A prefix free of `sep` is skipped whole by `FirstSegment`. */
  lemma {:induction false} FirstSegmentSkips(d: string, rest: string, sep: char)
    requires sep !in d
    ensures FirstSegment(d + rest, sep) == d + FirstSegment(rest, sep)
  {
    if d == [] {
      assert d + rest == rest;
    } else {
      assert (d + rest)[0] == d[0];
      assert (d + rest)[1..] == d[1..] + rest;
      FirstSegmentSkips(d[1..], rest, sep);
      assert d == [d[0]] + d[1..];
    }
  }

  /** After a prefix free of "-", the first "-" splits the text back into that prefix and the rest. */
  lemma SplitAtDash(d: string, a: string)
    requires '-' !in d
    ensures FirstSegment(d + ("-" + a), '-') == d
    ensures (d + ("-" + a))[|d| + 1..] == a
  {
    FirstSegmentSkips(d, "-" + a, '-');
    assert FirstSegment("-" + a, '-') == [];
    assert d + [] == d;
  }

  /** The text after the prefix `p` of `p + d + "-" + a`. */
  lemma AfterPrefix(p: string, d: string, a: string)
    ensures (p + d + "-" + a)[|p|..] == d + ("-" + a)
  {
    var x := p + d + "-" + a;
    var t := d + ("-" + a);
    assert |x| == |p| + |t|;
    forall i | 0 <= i < |t|
      ensures x[|p| + i] == t[i]
    {
    }
  }

  /** `p + str(m) + "-" + a` determines `m` and `a`: a rendered number holds no "-". */
  lemma NumberedInjective(p: string, m: nat, a: string, n: nat, b: string)
    requires p + NatToString(m) + "-" + a == p + NatToString(n) + "-" + b
    ensures m == n && a == b
  {
    var sm, sn := NatToString(m), NatToString(n);
    AfterPrefix(p, sm, a);
    AfterPrefix(p, sn, b);
    assert sm + ("-" + a) == sn + ("-" + b);
    SplitAtDash(sm, a);
    SplitAtDash(sn, b);
    NatToStringInjective(m, n);
  }

  // ---------------------------------------------------------------------------
  // Paths

  /**
   * `os.path.join(a, b)` for two POSIX components: an absolute `b` wins,
   * otherwise a single "/" separates them unless `a` is empty or ends in "/".
   */
  function PathJoin(a: string, b: string): (r: string)
    ensures !StartsWith(b, "/") ==> EndsWith(r, b)
  {
    if StartsWith(b, "/") then b
    else if a == [] || EndsWith(a, "/") then a + b
    else a + "/" + b
  }

  /** `os.path.basename(p)`: what follows the last "/". */
  function Basename(p: string): string {
    LastSegment(p, '/')
  }
}
