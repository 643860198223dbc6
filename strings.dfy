/**
 * The JavaScript string operations the schema code relies on (`startsWith`,
 * `endsWith`, `includes`, `split`, `trim`, `toLowerCase`, number formatting),
 * written over `seq<char>`.
 */
module Strings {

  /** `s.startsWith(p)` */
  predicate StartsWith(s: string, p: string) {
    |p| <= |s| && s[..|p|] == p
  }

  /** `s.endsWith(p)` */
  predicate EndsWith(s: string, p: string) {
    |p| <= |s| && s[|s| - |p|..] == p
  }

  /** `s.includes(p)`: `p` starts at some position of `s`. */
  predicate Contains(s: string, p: string)
    decreases |s|
  {
    StartsWith(s, p) || (|s| > 0 && Contains(s[1..], p))
  }

  lemma {:induction false} ContainsAt(s: string, p: string, i: nat)
    requires i <= |s| && StartsWith(s[i..], p)
    ensures Contains(s, p)
  {
    if i > 0 {
      assert s[1..][i - 1..] == s[i..];
      ContainsAt(s[1..], p, i - 1);
    }
  }

  /** A pattern holding a character that `s` lacks does not occur in `s`. */
  lemma {:induction false} NotContainsMissingChar(s: string, p: string, ch: char)
    requires ch in p && ch !in s
    ensures !Contains(s, p)
  {
    var k :| 0 <= k < |p| && p[k] == ch;
    if |p| <= |s| {
      assert s[k] in s;
      assert s[..|p|][k] != p[k];
    }
    if |s| > 0 {
      assert forall c :: c in s[1..] ==> c in s;
      NotContainsMissingChar(s[1..], p, ch);
    }
  }

  // ---------------------------------------------------------------------------
  // regrouping concatenations

  lemma AppendAssoc(a: string, b: string, c: string)
    ensures a + b + c == a + (b + c)
  {
  }

  lemma AppendAssoc3(w: string, a: string, b: string, c: string)
    ensures w + a + b + c == w + (a + b + c)
  {
  }

  lemma AppendAssoc4(w: string, a: string, b: string, c: string, d: string)
    ensures w + a + b + c + d == w + (a + b + c + d)
  {
  }

  lemma AppendAssoc5(w: string, a: string, b: string, c: string, d: string, e: string)
    ensures w + a + b + c + d + e == w + (a + b + c + d + e)
  {
  }

  lemma AppendAssoc7(w: string, a: string, b: string, c: string, d: string, e: string, f: string, g: string)
    ensures w + a + b + c + d + e + f + g == w + (a + b + c + d + e + f + g)
  {
  }

  // ---------------------------------------------------------------------------
  // split

  /**
   * `s.split(sep)` for a one-character separator: the pieces between the
   * separators, so that there is always at least one piece.
   */
  function Split(s: string, sep: char): (parts: seq<string>)
    ensures |parts| >= 1
    ensures forall k :: 0 <= k < |parts| ==> sep !in parts[k]
    ensures StartsWith(s, parts[0])
    ensures |parts[0]| < |s| ==> s[|parts[0]|] == sep
    decreases |s|
  {
    if |s| == 0 then [""]
    else
      var rest := Split(s[1..], sep);
      if s[0] == sep then [""] + rest
      else [[s[0]] + rest[0]] + rest[1..]
  }

  /** Text free of the separator, followed by the separator, is the first piece. */
  lemma {:induction false} SplitAfterSeparator(a: string, sep: char, b: string)
    requires sep !in a
    ensures Split(a + [sep] + b, sep) == [a] + Split(b, sep)
  {
    var s := a + [sep] + b;
    if a == [] {
      assert s[1..] == b;
    } else {
      assert s[1..] == a[1..] + [sep] + b;
      SplitAfterSeparator(a[1..], sep, b);
      assert [s[0]] + a[1..] == a;
    }
  }

  /** Text free of the separator splits into itself alone. */
  lemma {:induction false} SplitWithoutSeparator(a: string, sep: char)
    requires sep !in a
    ensures Split(a, sep) == [a]
  {
    if a != [] {
      SplitWithoutSeparator(a[1..], sep);
      assert [a[0]] + a[1..] == a;
    }
  }

  /** Number of occurrences of `ch` in `s`. */
  function Count(s: string, ch: char): nat
    decreases |s|
  {
    if |s| == 0 then 0 else (if s[0] == ch then 1 else 0) + Count(s[1..], ch)
  }

  lemma {:induction false} CountAppend(a: string, b: string, ch: char)
    ensures Count(a + b, ch) == Count(a, ch) + Count(b, ch)
  {
    if a != [] {
      assert (a + b)[0] == a[0];
      assert (a + b)[1..] == a[1..] + b;
      CountAppend(a[1..], b, ch);
    } else {
      assert a + b == b;
    }
  }

  /** There is one more piece than there are separators. */
  lemma {:induction false} SplitLength(s: string, sep: char)
    ensures |Split(s, sep)| == Count(s, sep) + 1
  {
    if |s| > 0 {
      SplitLength(s[1..], sep);
    }
  }

  /** Every line followed by a newline: the text a `+= line + '\n'` loop builds. */
  function Unlines(lines: seq<string>): string
  {
    if lines == [] then "" else lines[0] + "\n" + Unlines(lines[1..])
  }

  lemma {:induction false} UnlinesAppend(a: seq<string>, b: seq<string>)
    ensures Unlines(a + b) == Unlines(a) + Unlines(b)
  {
    if a != [] {
      assert (a + b)[0] == a[0];
      assert (a + b)[1..] == a[1..] + b;
      UnlinesAppend(a[1..], b);
    } else {
      assert a + b == b;
    }
  }

  /** Splitting newline-terminated lines gives the lines back. */
  lemma {:induction false} SplitUnlines(lines: seq<string>, rest: string)
    requires forall k :: 0 <= k < |lines| ==> '\n' !in lines[k]
    ensures Split(Unlines(lines) + rest, '\n') == lines + Split(rest, '\n')
  {
    if lines == [] {
      assert Unlines(lines) + rest == rest;
    } else {
      var head, tail := lines[0], Unlines(lines[1..]) + rest;
      assert '\n' !in head;
      assert forall k :: 0 <= k < |lines[1..]| ==> '\n' !in lines[1..][k] by {
        assert forall k :: 0 <= k < |lines[1..]| ==> lines[1..][k] == lines[k + 1];
      }
      calc {
        Split(Unlines(lines) + rest, '\n');
        { UnlinesCons(lines, rest); }
        Split(head + ['\n'] + tail, '\n');
        { SplitAfterSeparator(head, '\n', tail); }
        [head] + Split(tail, '\n');
        { SplitUnlines(lines[1..], rest); }
        [head] + (lines[1..] + Split(rest, '\n'));
        { assert lines == [head] + lines[1..]; }
        lines + Split(rest, '\n');
      }
    }
  }

  lemma UnlinesCons(lines: seq<string>, rest: string)
    requires lines != []
    ensures Unlines(lines) + rest == lines[0] + ['\n'] + (Unlines(lines[1..]) + rest)
  {
  }

  // ---------------------------------------------------------------------------
  // trim

  /** The characters JavaScript's `trim` removes: white space and line terminators. */
  const JsSpaces: set<char> := {
    '\t', '\n', '\U{000B}', '\U{000C}', '\r', ' ', '\U{00A0}', '\U{1680}',
    '\U{2000}', '\U{2001}', '\U{2002}', '\U{2003}', '\U{2004}', '\U{2005}',
    '\U{2006}', '\U{2007}', '\U{2008}', '\U{2009}', '\U{200A}',
    '\U{2028}', '\U{2029}', '\U{202F}', '\U{205F}', '\U{3000}', '\U{FEFF}'}

  predicate IsJsSpace(ch: char) {
    ch in JsSpaces
  }

  /** How many characters `trimStart` removes. */
  function LeadingSpaces(s: string): (n: nat)
    ensures n <= |s|
    decreases |s|
  {
    if |s| > 0 && IsJsSpace(s[0]) then 1 + LeadingSpaces(s[1..]) else 0
  }

  /** How many characters `trimEnd` removes. */
  function TrailingSpaces(s: string): (n: nat)
    ensures n <= |s|
    decreases |s|
  {
    if |s| > 0 && IsJsSpace(s[|s| - 1]) then 1 + TrailingSpaces(s[..|s| - 1]) else 0
  }

  /** `s.trim()`: the leading white space off, then the trailing. */
  function Trim(s: string): string {
    var t := s[LeadingSpaces(s)..];
    t[..|t| - TrailingSpaces(t)]
  }

  /** The characters `Trim` removes are white space, and what it keeps has non-space ends. */
  lemma {:induction false} LeadingSpacesAre(s: string)
    ensures forall k :: 0 <= k < LeadingSpaces(s) ==> IsJsSpace(s[k])
    ensures LeadingSpaces(s) < |s| ==> !IsJsSpace(s[LeadingSpaces(s)])
    decreases |s|
  {
    if |s| > 0 && IsJsSpace(s[0]) {
      LeadingSpacesAre(s[1..]);
      assert forall k :: 1 <= k < LeadingSpaces(s) ==> s[k] == s[1..][k - 1];
    }
  }

  lemma {:induction false} LeadingSpacesPadded(pad: string, x: string)
    requires forall k :: 0 <= k < |pad| ==> IsJsSpace(pad[k])
    requires |x| > 0 && !IsJsSpace(x[0])
    ensures LeadingSpaces(pad + x) == |pad|
    decreases |pad|
  {
    if pad == [] {
      assert pad + x == x;
    } else {
      assert (pad + x)[1..] == pad[1..] + x;
      LeadingSpacesPadded(pad[1..], x);
    }
  }

  /** Text with non-space ends, indented by white space, trims to itself. */
  lemma TrimIndented(pad: string, x: string)
    requires forall k :: 0 <= k < |pad| ==> IsJsSpace(pad[k])
    requires |x| > 0 && !IsJsSpace(x[0]) && !IsJsSpace(x[|x| - 1])
    ensures Trim(pad + x) == x
  {
    LeadingSpacesPadded(pad, x);
    assert (pad + x)[|pad|..] == x;
    assert TrailingSpaces(x) == 0;
  }

  // ---------------------------------------------------------------------------
  // character classes and runs

  /** `toLowerCase` on one character, for the ASCII letters. */
  function LowerChar(ch: char): char {
    if 'A' <= ch <= 'Z' then ('a' as int + (ch as int - 'A' as int)) as char else ch
  }

  /** `s.toLowerCase()`, for the ASCII letters. */
  function Lower(s: string): (r: string)
    ensures |r| == |s|
    ensures forall k :: 0 <= k < |s| ==> r[k] == LowerChar(s[k])
  {
    seq(|s|, k requires 0 <= k < |s| => LowerChar(s[k]))
  }

  /** The regular-expression class `\w`. */
  predicate IsWordChar(ch: char) {
    ('a' <= ch <= 'z') || ('A' <= ch <= 'Z') || ('0' <= ch <= '9') || ch == '_'
  }

  /** The regular-expression class `\d`. */
  predicate IsDigit(ch: char) {
    '0' <= ch <= '9'
  }

  /** What the regular-expression `.` matches: anything but a line terminator. */
  predicate IsDotChar(ch: char) {
    ch != '\n' && ch != '\r' && ch != '\U{2028}' && ch != '\U{2029}'
  }

  /** A word character that survives lower-casing unchanged. */
  predicate IsLowerWordChar(ch: char) {
    ('a' <= ch <= 'z') || ('0' <= ch <= '9') || ch == '_'
  }

  /** A non-empty name made of `\w` characters. */
  predicate IsWord(s: string) {
    |s| > 0 && forall k :: 0 <= k < |s| ==> IsWordChar(s[k])
  }

  /** A non-empty name made of lower-case `\w` characters. */
  predicate IsLowerWord(s: string) {
    |s| > 0 && forall k :: 0 <= k < |s| ==> IsLowerWordChar(s[k])
  }

  /** The longest prefix of `s` whose characters all satisfy `P`: a greedy `P*`. */
  function Run(s: string, P: char -> bool): (r: string)
    ensures StartsWith(s, r)
    ensures forall k :: 0 <= k < |r| ==> P(r[k])
    ensures |r| < |s| ==> !P(s[|r|])
    decreases |s|
  {
    if |s| > 0 && P(s[0]) then [s[0]] + Run(s[1..], P) else ""
  }

  /** A run stops exactly where its class ends. */
  lemma RunOf(a: string, b: string, P: char -> bool)
    requires forall k :: 0 <= k < |a| ==> P(a[k])
    requires |b| == 0 || !P(b[0])
    ensures Run(a + b, P) == a
  {
    var r := Run(a + b, P);
    assert forall k :: 0 <= k < |a| ==> (a + b)[k] == a[k];
    assert |b| > 0 ==> (a + b)[|a|] == b[0];
    assert r == (a + b)[..|a|];
  }

  function DigitChar(d: nat): (ch: char)
    requires d < 10
    ensures IsDigit(ch)
  {
    ('0' as int + d) as char
  }

  /** `${n}`: the decimal digits of `n`. */
  function NatToString(n: nat): (r: string)
    ensures |r| > 0
    ensures forall k :: 0 <= k < |r| ==> IsDigit(r[k])
  {
    if n < 10 then [DigitChar(n)] else NatToString(n / 10) + [DigitChar(n % 10)]
  }
}
