/** The JavaScript string operations the core relies on: `trim()` (only ever
    compared with the empty string) and `includes()`. */
module Strings {

  /** The characters `String.prototype.trim` removes: the ECMAScript
      WhiteSpace and LineTerminator characters. */
  predicate IsWhitespace(c: char) {
    || c == '\t' || c == '\n' || c == '\U{000B}' || c == '\U{000C}' || c == '\r' || c == ' '
    || c == '\U{00A0}' || c == '\U{1680}' || ('\U{2000}' <= c <= '\U{200A}')
    || c == '\U{2028}' || c == '\U{2029}' || c == '\U{202F}' || c == '\U{205F}'
    || c == '\U{3000}' || c == '\U{FEFF}'
  }

  /** Every character of `s` is whitespace (vacuously so for ""). */
  predicate Blank(s: string) {
    forall i :: 0 <= i < |s| ==> IsWhitespace(s[i])
  }

  /** `s` with its leading whitespace removed. */
  function TrimStart(s: string): (r: string)
    ensures |r| <= |s| && r == s[|s| - |r|..]
    ensures Blank(s[..|s| - |r|])
    ensures r != [] ==> !IsWhitespace(r[0])
  {
    if s != [] && IsWhitespace(s[0]) then TrimStart(s[1..]) else s
  }

  /** `s` with its trailing whitespace removed. */
  function TrimEnd(s: string): (r: string)
    ensures |r| <= |s| && r == s[..|r|]
    ensures Blank(s[|r|..])
    ensures r != [] ==> !IsWhitespace(r[|r| - 1])
  {
    if s != [] && IsWhitespace(s[|s| - 1]) then TrimEnd(s[..|s| - 1]) else s
  }

  /** JavaScript's `s.trim()`. */
  function Trim(s: string): (r: string)
    ensures r != [] ==> !IsWhitespace(r[0]) && !IsWhitespace(r[|r| - 1])
  {
    TrimEnd(TrimStart(s))
  }

  /** `!s.trim()` holds exactly for the strings made of whitespace only. */
  lemma TrimEmptyIffBlank(s: string)
    ensures Trim(s) == "" <==> Blank(s)
  {
    var t := TrimStart(s);
    assert t != [] ==> t[0] == s[|s| - |t|];
    assert s == s[..|s| - |t|] + t;
  }

  /** `sub` occurs in `s` at index `i`. */
  predicate OccursAt(s: string, sub: string, i: nat) {
    i + |sub| <= |s| && s[i..i + |sub|] == sub
  }

  lemma OccursAtShift(s: string, sub: string)
    requires s != []
    ensures forall j: nat :: OccursAt(s[1..], sub, j) <==> OccursAt(s, sub, j + 1)
  {
    forall j: nat ensures OccursAt(s[1..], sub, j) <==> OccursAt(s, sub, j + 1) {
      if j + 1 + |sub| <= |s| {
        assert s[1..][j..j + |sub|] == s[j + 1..j + 1 + |sub|];
      }
    }
  }

  /** JavaScript's `s.includes(sub)`: case-sensitive substring search. */
  function Contains(s: string, sub: string): (b: bool)
    ensures b <==> exists i: nat :: OccursAt(s, sub, i)
    decreases |s|
  {
    if |s| < |sub| then false
    else if s[..|sub|] == sub then assert OccursAt(s, sub, 0); true
    else
      OccursAtShift(s, sub);
      assert !OccursAt(s, sub, 0);
      var r := Contains(s[1..], sub);
      assert r ==> exists i: nat :: OccursAt(s, sub, i) by {
        if r { var j: nat :| OccursAt(s[1..], sub, j); assert OccursAt(s, sub, j + 1); }
      }
      assert (exists i: nat :: OccursAt(s, sub, i)) ==> r by {
        if exists i: nat :: OccursAt(s, sub, i) {
          var i: nat :| OccursAt(s, sub, i);
          assert i != 0;
          assert OccursAt(s[1..], sub, i - 1);
        }
      }
      r
  }

  /** A witness occurrence is enough to show `includes` holds. */
  lemma ContainsAt(s: string, sub: string, i: nat)
    requires OccursAt(s, sub, i)
    ensures Contains(s, sub)
  {
  }

  /** `b` occurs in `a + b + c`. */
  lemma ContainsInfix(a: string, b: string, c: string)
    ensures Contains(a + b + c, b)
  {
    assert (a + b + c)[|a|..|a| + |b|] == b;
    ContainsAt(a + b + c, b, |a|);
  }

  /** `u` occurs in `a + (b + u + c) + d`. */
  lemma ContainsNested(a: string, b: string, u: string, c: string, d: string)
    ensures Contains(a + (b + u + c) + d, u)
  {
    assert a + (b + u + c) + d == (a + b) + u + (c + d);
    ContainsInfix(a + b, u, c + d);
  }

  /** A string in which the first character of `sub` appears only at `k`, and
      is not followed there by the second one, does not contain `sub`. */
  lemma AbsentBySoleFirstChar(s: string, sub: string, k: nat)
    requires |sub| >= 2 && k + 1 < |s|
    requires forall j :: 0 <= j < |s| && j != k ==> s[j] != sub[0]
    requires s[k + 1] != sub[1]
    ensures !Contains(s, sub)
  {
    forall i: nat ensures !OccursAt(s, sub, i) {
      if i + |sub| <= |s| {
        assert s[i..i + |sub|][0] == s[i] && s[i..i + |sub|][1] == s[i + 1];
      }
    }
  }
}
