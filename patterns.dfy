/**
 * Hand-written recognizers for the three fixed regular expressions of the
 * schema code, each with JavaScript `String.prototype.match` semantics: the
 * leftmost position where the whole pattern matches, greedy quantifiers that
 * back off only as far as the rest of the pattern needs.
 *
 *   - `/CREATE TABLE (\w+)/` and `/REFERENCES (\w+)/`: `KeywordWord`
 *   - `/VALUES \(\d+, '(.+)'\)/`: `MatchValues`
 */
module Patterns {
  import opened Optional
  import opened Strings

  // ---------------------------------------------------------------------------
  // <keyword>(\w+)

  /**
   * The capture of `<kw>(\w+)` at the leftmost position at or after `i` where
   * `kw` is followed by at least one word character; the capture is the whole
   * run of word characters, since `\w+` is greedy and nothing follows it.
   */
  function KeywordWordFrom(s: string, kw: string, i: nat): (r: Option<string>)
    ensures r.Some? ==> IsWord(r.value)
    ensures r.Some? ==> exists j :: i <= j <= |s| && StartsWith(s[j..], kw + r.value)
    decreases |s| + 1 - i
  {
    if i > |s| then None
    else if StartsWith(s[i..], kw) && |Run(s[i + |kw|..], IsWordChar)| > 0 then
      var w := Run(s[i + |kw|..], IsWordChar);
      assert s[i..][..|kw| + |w|] == kw + w by {
        assert s[i..][..|kw|] == kw;
        assert s[i..][|kw|..][..|w|] == w;
      }
      Some(w)
    else KeywordWordFrom(s, kw, i + 1)
  }

  /** `s.match(/<kw>(\w+)/)?.[1]` */
  function KeywordWord(s: string, kw: string): Option<string> {
    KeywordWordFrom(s, kw, 0)
  }

  /** Positions where `kw` does not start can be skipped. */
  lemma {:induction false} KeywordWordSkip(s: string, kw: string, i: nat, q: nat)
    requires i <= q <= |s| + 1
    requires forall j :: i <= j < q && j <= |s| ==> !StartsWith(s[j..], kw)
    ensures KeywordWordFrom(s, kw, i) == KeywordWordFrom(s, kw, q)
    decreases q - i
  {
    if i < q {
      KeywordWordSkip(s, kw, i + 1, q);
    }
  }

  /** `kw` followed by a word that ends the word run is matched there. */
  lemma KeywordWordHere(s: string, kw: string, q: nat, w: string, rest: string)
    requires q <= |s| && s[q..] == kw + w + rest
    requires IsWord(w)
    requires |rest| == 0 || !IsWordChar(rest[0])
    ensures KeywordWordFrom(s, kw, q) == Some(w)
  {
    assert s[q..][..|kw|] == kw;
    assert s[q + |kw|..] == w + rest;
    RunOf(w, rest, IsWordChar);
  }

  /** Where `kw` never starts, nothing matches. */
  lemma KeywordWordAbsent(s: string, kw: string)
    requires forall j :: 0 <= j <= |s| ==> !StartsWith(s[j..], kw)
    ensures KeywordWord(s, kw) == None
  {
    KeywordWordSkip(s, kw, 0, |s| + 1);
  }

  // ---------------------------------------------------------------------------
  // VALUES \(\d+, '(.+)'\)

  /**
   * `'(.+)'\)` at the start of `t`, where the greedy `.+` first takes `k`
   * characters (all the non-terminators there are) and then gives them back
   * one at a time until `')` follows.
   */
  function LongestQuoted(t: string, k: nat): (r: Option<string>)
    requires k <= |t|
    ensures r.Some? ==> 0 < |r.value| <= k && StartsWith(t, r.value)
    ensures r.Some? ==> StartsWith(t[|r.value|..], "')")
    decreases k
  {
    if k == 0 then None
    else if StartsWith(t[k..], "')") then Some(t[..k])
    else LongestQuoted(t, k - 1)
  }

  /** The pattern anchored at the start of `s`. */
  function ValuesAt(s: string): Option<string> {
    if !StartsWith(s, "VALUES (") then None
    else
      var digits := Run(s[8..], IsDigit);
      if |digits| == 0 || !StartsWith(s[8 + |digits|..], ", '") then None
      else
        var body := s[8 + |digits| + 3..];
        LongestQuoted(body, |Run(body, IsDotChar)|)
  }

  /** The capture at the leftmost position at or after `i` where the pattern matches. */
  function ValuesFrom(s: string, i: nat): Option<string>
    decreases |s| + 1 - i
  {
    if i > |s| then None
    else if ValuesAt(s[i..]).Some? then ValuesAt(s[i..])
    else ValuesFrom(s, i + 1)
  }

  /** `line.match(/VALUES \(\d+, '(.+)'\)/)?.[1]` */
  function MatchValues(line: string): Option<string> {
    ValuesFrom(line, 0)
  }

  /** Positions holding no `V` can be skipped. */
  lemma {:induction false} ValuesSkip(s: string, i: nat, q: nat)
    requires i <= q <= |s| + 1
    requires forall j :: i <= j < q && j < |s| ==> s[j] != 'V'
    ensures ValuesFrom(s, i) == ValuesFrom(s, q)
    decreases q - i
  {
    if i < q {
      assert ValuesAt(s[i..]) == None by {
        assert "VALUES ("[0] == 'V';
        if i < |s| {
          assert s[i..][0] == s[i];
        }
        assert !StartsWith(s[i..], "VALUES (");
      }
      ValuesSkip(s, i + 1, q);
    }
  }

  /** The search from position `i` only sees the text from `i` on. */
  lemma {:induction false} ValuesFromShift(s: string, i: nat, j: nat)
    requires i <= |s|
    ensures ValuesFrom(s, i + j) == ValuesFrom(s[i..], j)
    decreases |s| + 1 - (i + j)
  {
    if i + j <= |s| {
      assert s[i + j..] == s[i..][j..];
      ValuesFromShift(s, i, j + 1);
    }
  }

  /** Text holding no `V` in front of a line does not change what the pattern captures. */
  lemma MatchValuesAfter(pre: string, rest: string)
    requires 'V' !in pre
    ensures MatchValues(pre + rest) == MatchValues(rest)
  {
    var s := pre + rest;
    assert forall j :: 0 <= j < |pre| ==> s[j] == pre[j];
    ValuesSkip(s, 0, |pre|);
    ValuesFromShift(s, |pre|, 0);
    assert s[|pre|..] == rest;
  }

  /** Past the fixed `VALUES (<digits>, '` head, the match is decided by the quoted body. */
  lemma ValuesAtHead(digits: string, body: string)
    requires IsDigitString(digits)
    ensures ValuesAt("VALUES (" + digits + ", '" + body) == LongestQuoted(body, |Run(body, IsDotChar)|)
  {
    var s := "VALUES (" + digits + ", '" + body;
    assert s[..8] == "VALUES (";
    assert s[8..] == digits + (", '" + body);
    RunOf(digits, ", '" + body, IsDigit);
    assert s[8 + |digits|..] == ", '" + body;
    assert s[8 + |digits| + 3..] == body;
  }

  /** A non-empty digit string. */
  predicate IsDigitString(s: string) {
    |s| > 0 && forall k :: 0 <= k < |s| ==> IsDigit(s[k])
  }

  /** The greedy `.+` backs off exactly to the final `')`. */
  lemma LongestQuotedInsert(v: string)
    requires |v| > 0 && forall k :: 0 <= k < |v| ==> IsDotChar(v[k])
    ensures LongestQuoted(v + "');", |Run(v + "');", IsDotChar)|) == Some(v)
  {
    var body := v + "');";
    RunOf(body, "", IsDotChar);
    assert body + "" == body;
    var k := |body|;
    assert body[..k - 3] == v;
    assert body[k - 3..] == "');";
    assert LongestQuoted(body, k - 3) == Some(v);
    assert body[k - 2..] == ");";
    assert !StartsWith(");", "')") by { assert ");"[..2][0] != "')"[0]; }
    assert LongestQuoted(body, k - 2) == Some(v);
    assert body[k - 1..] == ";";
    assert LongestQuoted(body, k - 1) == Some(v);
    assert body[k..] == "";
  }

  /**
   * `VALUES (<n>, '<v>');` with a non-empty `v` free of line terminators: the
   * greedy capture is exactly `v`, whatever quotes `v` holds.
   */
  lemma ValuesAtInsert(n: nat, v: string)
    requires |v| > 0 && forall k :: 0 <= k < |v| ==> IsDotChar(v[k])
    ensures ValuesAt("VALUES (" + NatToString(n) + ", '" + v + "');") == Some(v)
  {
    ValuesAtHead(NatToString(n), v + "');");
    assert "VALUES (" + NatToString(n) + ", '" + v + "');" == "VALUES (" + NatToString(n) + ", '" + (v + "');");
    LongestQuotedInsert(v);
  }

  /** With an empty value the greedy `.+` has nothing to take: no match there. */
  lemma ValuesAtEmptyInsert(n: nat)
    ensures ValuesAt("VALUES (" + NatToString(n) + ", '');") == None
  {
    ValuesAtEmptyQuote(NatToString(n));
  }

  lemma ValuesAtEmptyQuote(digits: string)
    requires IsDigitString(digits)
    ensures ValuesAt("VALUES (" + digits + ", '');") == None
  {
    ValuesAtHead(digits, "');");
    assert "VALUES (" + digits + ", '');" == "VALUES (" + digits + ", '" + "');";
    LongestQuotedEmpty();
  }

  lemma LongestQuotedEmpty()
    ensures LongestQuoted("');", |Run("');", IsDotChar)|) == None
  {
    var body := "');";
    assert |Run(body, IsDotChar)| == 3 by {
      RunOf(body, "", IsDotChar);
      assert body + "" == body;
    }
    assert !StartsWith(body[3..], "')");
    assert !StartsWith(body[2..], "')") by { assert body[2..] == ";"; }
    assert !StartsWith(body[1..], "')") by { assert body[1..] == ");"; assert ");"[0] != "')"[0]; }
  }
}
