/**
 * The string operations the handlers use: `String.prototype.trim`, `includes`,
 * `split(",")[0]` and `slice(0, n)`. Strings are sequences of Unicode scalar values.
 */
module Text {

  /** The characters `trim` removes: ECMAScript WhiteSpace and LineTerminator. */
  predicate IsSpace(c: char) {
    || c == '\t' || c == '\n' || c == '\U{000B}' || c == '\U{000C}' || c == '\r'
    || c == ' ' || c == '\U{00A0}' || c == '\U{1680}'
    || ('\U{2000}' <= c <= '\U{200A}')
    || c == '\U{2028}' || c == '\U{2029}' || c == '\U{202F}' || c == '\U{205F}'
    || c == '\U{3000}' || c == '\U{FEFF}'
  }

  /** Every character is white space (the empty string included). */
  predicate Blank(s: string) {
    forall i :: 0 <= i < |s| ==> IsSpace(s[i])
  }

  /** Neither the first nor the last character is white space. */
  predicate Trimmed(s: string) {
    s == [] || (!IsSpace(s[0]) && !IsSpace(s[|s| - 1]))
  }

  /** `s` without its leading white space. */
  function TrimStart(s: string): (r: string)
    ensures |r| <= |s|
  {
    if s != [] && IsSpace(s[0]) then TrimStart(s[1..]) else s
  }

  /** `TrimStart` cuts off a blank prefix and stops at the first non-space. */
  lemma {:induction false} TrimStartFacts(s: string)
    ensures var r := TrimStart(s);
      && r == s[|s| - |r|..]
      && Blank(s[..|s| - |r|])
      && (r == [] || !IsSpace(r[0]))
  {
    if s != [] && IsSpace(s[0]) {
      TrimStartFacts(s[1..]);
      var r := TrimStart(s[1..]);
      assert s[1..][..|s| - 1 - |r|] == s[1..|s| - |r|];
    }
  }

  /** `s` without its trailing white space. */
  function TrimEnd(s: string): (r: string)
    ensures |r| <= |s|
  {
    if s != [] && IsSpace(s[|s| - 1]) then TrimEnd(s[..|s| - 1]) else s
  }

  /** `TrimEnd` cuts off a blank suffix and stops at the last non-space. */
  lemma {:induction false} TrimEndFacts(s: string)
    ensures var r := TrimEnd(s);
      && r == s[..|r|]
      && Blank(s[|r|..])
      && (r == [] || !IsSpace(r[|r| - 1]))
  {
    if s != [] && IsSpace(s[|s| - 1]) {
      TrimEndFacts(s[..|s| - 1]);
      var r := TrimEnd(s[..|s| - 1]);
      assert s[..|s| - 1][|r|..] == s[|r|..|s| - 1];
    }
  }

  /** JavaScript's `s.trim()`: no white space is left at either end. */
  function Trim(s: string): (r: string)
    ensures |r| <= |s|
    ensures Trimmed(r)
  {
    TrimStartFacts(s);
    TrimEndFacts(TrimStart(s));
    TrimEnd(TrimStart(s))
  }

  /** Trimming leaves nothing exactly when the string is all white space. */
  lemma TrimEmptyIffBlank(s: string)
    ensures Trim(s) == [] <==> Blank(s)
  {
    TrimStartFacts(s);
    TrimEndFacts(TrimStart(s));
  }

  /** What `Trim` cuts off: a blank prefix of `s` and a blank suffix. */
  lemma TrimIsMiddle(s: string)
    ensures var a := |s| - |TrimStart(s)|;
      && a + |Trim(s)| <= |s|
      && Trim(s) == s[a..a + |Trim(s)|]
      && Blank(s[..a]) && Blank(s[a + |Trim(s)|..])
  {
    var t := TrimStart(s);
    TrimStartFacts(s);
    TrimEndFacts(t);
    var r := TrimEnd(t);
    var a := |s| - |t|;
    assert t[|r|..] == s[a + |r|..];
  }

  /** Removing a blank prefix from a string whose rest starts with a non-space. */
  lemma {:induction false} TrimStartSkipsBlank(p: string, m: string)
    requires Blank(p)
    requires m == [] || !IsSpace(m[0])
    ensures TrimStart(p + m) == m
  {
    if p != [] {
      assert (p + m)[1..] == p[1..] + m;
      TrimStartSkipsBlank(p[1..], m);
    }
  }

  /** Removing a blank suffix from a string whose body ends with a non-space. */
  lemma {:induction false} TrimEndSkipsBlank(m: string, q: string)
    requires Blank(q)
    requires m == [] || !IsSpace(m[|m| - 1])
    ensures TrimEnd(m + q) == m
  {
    if q != [] {
      assert (m + q)[..|m + q| - 1] == m + q[..|q| - 1];
      TrimEndSkipsBlank(m, q[..|q| - 1]);
    }
  }

  /** `Trim` is determined by its description: cutting blank ends off a trimmed middle gives the middle back. */
  lemma TrimOfPadded(p: string, m: string, q: string)
    requires Blank(p) && Blank(q) && Trimmed(m)
    ensures Trim(p + m + q) == m
  {
    if m == [] {
      assert p + m + q == p + q;
      assert Blank(p + q);
      TrimEmptyIffBlank(p + q);
    } else {
      assert p + m + q == p + (m + q);
      TrimStartSkipsBlank(p, m + q);
      TrimEndSkipsBlank(m, q);
    }
  }

  /** A string with no white space at either end trims to itself. */
  lemma TrimOfTrimmed(s: string)
    requires Trimmed(s)
    ensures Trim(s) == s
  {
    assert [] + s + [] == s;
    TrimOfPadded([], s, []);
  }

  /** Trimming twice is trimming once. */
  lemma TrimIdempotent(s: string)
    ensures Trim(Trim(s)) == Trim(s)
  {
    var r := Trim(s);
    assert [] + r + [] == r;
    TrimOfPadded([], r, []);
  }

  /** Trimming never introduces a character. */
  lemma TrimKeeps(s: string, c: char)
    requires c !in s
    ensures c !in Trim(s)
  {
    TrimIsMiddle(s);
    var a := |s| - |TrimStart(s)|;
    assert Trim(s) == s[a..a + |Trim(s)|];
  }

  /** JavaScript's `s.split(",")[0]`: everything before the first comma (all of `s` if it has none). */
  function BeforeComma(s: string): (r: string)
    ensures r <= s
    ensures ',' !in r
    ensures |r| < |s| ==> s[|r|] == ','
  {
    if s == [] || s[0] == ',' then [] else [s[0]] + BeforeComma(s[1..])
  }

  /** `BeforeComma` is the only comma-free prefix that reaches a comma or the end. */
  lemma {:induction false} BeforeCommaUnique(s: string, p: string)
    requires p <= s && ',' !in p
    requires |p| == |s| || s[|p|] == ','
    ensures BeforeComma(s) == p
  {
    if p != [] {
      assert p[0] == s[0];
      assert p[1..] <= s[1..];
      BeforeCommaUnique(s[1..], p[1..]);
    }
  }

  /** JavaScript's `s.slice(0, n)`: the first `n` characters, or all of `s` when it is shorter. */
  function Take(s: string, n: nat): (r: string)
    ensures r <= s
    ensures |r| <= n
    ensures |s| <= n ==> r == s
    ensures |s| > n ==> |r| == n
  {
    if |s| <= n then s else s[..n]
  }
}
