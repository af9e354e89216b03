/**
 * String helpers with the semantics of the Python and JavaScript built-ins the
 * source relies on: `in` / `includes`, `startswith` / `endswith`,
 * `str.replace(p, "")` and a global-regex `replace`, ASCII lower-casing,
 * JavaScript's `trim`, and the code-point lexicographic order that Python's
 * `sorted` and `<` use on strings.
 */
module Strings {

  /** A model name, such as `gemini-2.5-pro`. */
  type ModelId = string

  predicate StartsWith(s: string, p: string) {
    |p| <= |s| && s[..|p|] == p
  }

  predicate EndsWith(s: string, p: string) {
    |p| <= |s| && s[|s| - |p|..] == p
  }

  /** `p` occurs somewhere in `s` (Python's `p in s`, JavaScript's `s.includes(p)`). */
  predicate Contains(s: string, p: string)
    decreases |s|
  {
    StartsWith(s, p) || (|s| > 0 && Contains(s[1..], p))
  }

  /**
   * Every occurrence of `p` removed, scanning left to right and never
   * overlapping: `s.replace(p, "")` in Python and `s.replace(/p/g, '')` in
   * JavaScript.
   */
  function RemoveAll(s: string, p: string): (r: string)
    requires p != []
    ensures |r| <= |s|
    decreases |s|
  {
    if |s| < |p| then s
    else if s[..|p|] == p then RemoveAll(s[|p|..], p)
    else [s[0]] + RemoveAll(s[1..], p)
  }

  lemma {:induction false} ContainsLength(s: string, p: string)
    requires Contains(s, p)
    ensures |p| <= |s|
    decreases |s|
  {
    if !StartsWith(s, p) {
      ContainsLength(s[1..], p);
    }
  }

  /** An occurrence inside a prefix of `s` is an occurrence inside `s`. */
  lemma {:induction false} ContainsPrefix(s: string, n: nat, p: string)
    requires n <= |s| && Contains(s[..n], p)
    ensures Contains(s, p)
    decreases n
  {
    if StartsWith(s[..n], p) {
      assert s[..n][..|p|] == s[..|p|];
    } else {
      assert s[..n][1..] == s[1..][..n - 1];
      ContainsPrefix(s[1..], n - 1, p);
    }
  }

  /** An occurrence inside a suffix of `s` is an occurrence inside `s`. */
  lemma {:induction false} ContainsSuffix(s: string, k: nat, p: string)
    requires k <= |s| && Contains(s[k..], p)
    ensures Contains(s, p)
    decreases k
  {
    if k > 0 {
      assert s[1..][k - 1..] == s[k..];
      ContainsSuffix(s[1..], k - 1, p);
    }
  }

  /** Removing a pattern that does not occur changes nothing. */
  lemma {:induction false} RemoveAllAbsent(s: string, p: string)
    requires p != [] && !Contains(s, p)
    ensures RemoveAll(s, p) == s
    decreases |s|
  {
    if |s| >= |p| {
      assert s[..|p|] != p;
      RemoveAllAbsent(s[1..], p);
      assert [s[0]] + s[1..] == s;
    }
  }

  /**
   * After removing every ``` from left to right, no ``` is left: a backtick
   * is kept only when it does not start a run of three, so no run of three
   * can be formed across a removed occurrence.
   */
  lemma {:induction false} RemoveAllFenceLeavesNone(s: string)
    ensures !Contains(RemoveAll(s, "```"), "```")
    decreases |s|
  {
    var f := "```";
    var r := RemoveAll(s, f);
    if |s| < 3 {
      if Contains(r, f) { ContainsLength(r, f); }
    } else if s[..3] == f {
      RemoveAllFenceLeavesNone(s[3..]);
    } else {
      var t := RemoveAll(s[1..], f);
      RemoveAllFenceLeavesNone(s[1..]);
      assert r == [s[0]] + t;
      assert r[1..] == t;
      if s[0] == '`' && s[1] == '`' {
        // s starts with two backticks and not three, so the third character
        // survives as r's third and r cannot start with ```
        assert s[2] != '`' by { assert s[..3] == [s[0], s[1], s[2]]; }
        assert s[1..][1..] == s[2..];
        HeadKept(s[2..], f);
      } else if s[0] == '`' {
        assert s[1..][0] == s[1];
        HeadKept(s[1..], f);
      }
    }
  }

  /** An occurrence of `p + q` is an occurrence of `p`. */
  lemma {:induction false} ContainsLonger(s: string, p: string, q: string)
    requires Contains(s, p + q)
    ensures Contains(s, p)
    decreases |s|
  {
    if StartsWith(s, p + q) {
      assert s[..|p|] == (p + q)[..|p|] == p;
    } else {
      ContainsLonger(s[1..], p, q);
    }
  }

  /** When `s` does not start with `p`, its first character survives the removal. */
  lemma HeadKept(s: string, p: string)
    requires p != [] && |s| > 0 && !(|p| <= |s| && s[..|p|] == p)
    ensures |RemoveAll(s, p)| > 0 && RemoveAll(s, p)[0] == s[0]
  {
  }

  // ---------------------------------------------------------------------------
  // JavaScript's String.prototype.length

  /** The number of UTF-16 code units: characters outside the Basic Multilingual Plane take two. */
  function Utf16Length(s: string): (n: nat)
    ensures |s| <= n <= 2 * |s|
  {
    if s == [] then 0 else (if s[0] as int > 0xFFFF then 2 else 1) + Utf16Length(s[1..])
  }

  // ---------------------------------------------------------------------------
  // Case

  function LowerChar(c: char): (d: char)
  {
    if 'A' <= c <= 'Z' then (c as int + 32) as char else c
  }

  /**
   * `toLowerCase` restricted to ASCII letters.  The keywords the source looks
   * for are ASCII and no non-ASCII character lower-cases to one of their
   * letters or digits, so the restriction does not change what they match.
   */
  function Lower(s: string): (r: string)
    ensures |r| == |s|
    ensures forall i :: 0 <= i < |s| ==> r[i] == LowerChar(s[i])
  {
    seq(|s|, i requires 0 <= i < |s| => LowerChar(s[i]))
  }

  /** Lower-casing keeps every occurrence of a word, lower-cased. */
  lemma {:induction false} LowerKeepsContains(s: string, w: string)
    requires Contains(s, w)
    ensures Contains(Lower(s), Lower(w))
    decreases |s|
  {
    if StartsWith(s, w) {
      assert Lower(s)[..|w|] == Lower(w);
    } else {
      LowerKeepsContains(s[1..], w);
      assert Lower(s)[1..] == Lower(s[1..]);
    }
  }

  lemma LowerIdempotent(s: string)
    ensures Lower(Lower(s)) == Lower(s)
  {
  }

  // ---------------------------------------------------------------------------
  // JavaScript's String.prototype.trim

  /** ECMAScript WhiteSpace and LineTerminator code points. */
  predicate IsJsSpace(c: char) {
    c == '\t' || c == '\n' || c == '\U{000B}' || c == '\U{000C}' || c == '\r' || c == ' '
    || c == '\U{00A0}' || c == '\U{1680}' || ('\U{2000}' <= c <= '\U{200A}')
    || c == '\U{2028}' || c == '\U{2029}' || c == '\U{202F}' || c == '\U{205F}'
    || c == '\U{3000}' || c == '\U{FEFF}'
  }

  function TrimStart(s: string): (r: string)
    ensures |r| <= |s| && r == s[|s| - |r|..]
    ensures r == [] || !IsJsSpace(r[0])
  {
    if s != [] && IsJsSpace(s[0]) then TrimStart(s[1..]) else s
  }

  function TrimEnd(s: string): (r: string)
    ensures |r| <= |s| && r == s[..|r|]
    ensures r == [] || !IsJsSpace(r[|r| - 1])
  {
    if s != [] && IsJsSpace(s[|s| - 1]) then TrimEnd(s[..|s| - 1]) else s
  }

  function Trim(s: string): (r: string)
  {
    TrimEnd(TrimStart(s))
  }

  lemma TrimmedFixed(t: string)
    requires t == [] || (!IsJsSpace(t[0]) && !IsJsSpace(t[|t| - 1]))
    ensures Trim(t) == t
  {
  }

  lemma TrimIdempotent(s: string)
    ensures Trim(Trim(s)) == Trim(s)
  {
    var u := TrimStart(s);
    var t := TrimEnd(u);
    assert t != [] ==> t[0] == u[0];
    TrimmedFixed(t);
  }

  /** Trimming cannot create an occurrence. */
  lemma TrimKeepsAbsent(s: string, p: string)
    requires !Contains(s, p)
    ensures !Contains(Trim(s), p)
  {
    var u := TrimStart(s);
    if Contains(u, p) { ContainsSuffix(s, |s| - |u|, p); }
    var t := TrimEnd(u);
    if Contains(t, p) { ContainsPrefix(u, |t|, p); }
  }

  // ---------------------------------------------------------------------------
  // Lexicographic order by code point (Python's str comparison)

  predicate LexLe(a: string, b: string)
    decreases |a|
  {
    |a| == 0 || (|b| > 0 && (a[0] < b[0] || (a[0] == b[0] && LexLe(a[1..], b[1..]))))
  }

  predicate LexLt(a: string, b: string) {
    LexLe(a, b) && a != b
  }

  lemma {:induction false} LexLeRefl(a: string)
    ensures LexLe(a, a)
    decreases |a|
  {
    if |a| > 0 { LexLeRefl(a[1..]); }
  }

  lemma {:induction false} LexLeTotal(a: string, b: string)
    ensures LexLe(a, b) || LexLe(b, a)
    decreases |a|
  {
    if |a| > 0 && |b| > 0 && a[0] == b[0] { LexLeTotal(a[1..], b[1..]); }
  }

  lemma {:induction false} LexLeTrans(a: string, b: string, c: string)
    requires LexLe(a, b) && LexLe(b, c)
    ensures LexLe(a, c)
    decreases |a|
  {
    if |a| > 0 && a[0] == b[0] && b[0] == c[0] { LexLeTrans(a[1..], b[1..], c[1..]); }
  }

  lemma {:induction false} LexLeAntisym(a: string, b: string)
    requires LexLe(a, b) && LexLe(b, a)
    ensures a == b
    decreases |a|
  {
    if |a| > 0 {
      LexLeAntisym(a[1..], b[1..]);
      assert a == [a[0]] + a[1..] && b == [b[0]] + b[1..];
    }
  }

  /**
   * Comparing two concatenations whose first parts have the same length:
   * the first parts decide, unless they are equal.
   */
  lemma {:induction false} LexLeAppend(a1: string, a2: string, b1: string, b2: string)
    requires |a1| == |b1|
    ensures LexLe(a1 + a2, b1 + b2) <==> LexLt(a1, b1) || (a1 == b1 && LexLe(a2, b2))
    decreases |a1|
  {
    if |a1| == 0 {
      assert a1 + a2 == a2 && b1 + b2 == b2;
    } else {
      assert (a1 + a2)[0] == a1[0] && (b1 + b2)[0] == b1[0];
      assert (a1 + a2)[1..] == a1[1..] + a2 && (b1 + b2)[1..] == b1[1..] + b2;
      LexLeAppend(a1[1..], a2, b1[1..], b2);
      assert a1 == [a1[0]] + a1[1..] && b1 == [b1[0]] + b1[1..];
      if a1[0] == b1[0] {
        assert a1 == b1 <==> a1[1..] == b1[1..];
      }
    }
  }
}
