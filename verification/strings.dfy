/**
 ASCII models of the functions of Go's `strings` package that the plugin calls:
 `ToLower`, `TrimSpace`, `Contains` (written `c in s`) and `Split(s, sep)[0]`.
 Characters outside ASCII are left untouched by `ToLower` and are never
 treated as white space.
 */
module Strings {

  predicate IsUpper(c: char) {
    'A' <= c <= 'Z'
  }

  /** The ASCII lower-case of one character; anything but A-Z is kept. */
  function LowerChar(c: char): (d: char)
    ensures !IsUpper(d)
  {
    if IsUpper(c) then (c as int + 32) as char else c
  }

  /** No character of `s` is an upper-case ASCII letter. */
  predicate IsLower(s: string) {
    forall i :: 0 <= i < |s| ==> !IsUpper(s[i])
  }

  /** Two strings that differ at most in the case of ASCII letters. */
  predicate EqualsIgnoreCase(a: string, b: string) {
    |a| == |b| && forall i :: 0 <= i < |a| ==> LowerChar(a[i]) == LowerChar(b[i])
  }

  /** strings.ToLower, restricted to ASCII letters. */
  function ToLower(s: string): (r: string)
    ensures |r| == |s|
    ensures forall i :: 0 <= i < |s| ==> r[i] == LowerChar(s[i])
    ensures IsLower(r)
    decreases |s|
  {
    if s == [] then [] else [LowerChar(s[0])] + ToLower(s[1..])
  }

  /** Comparing the lower-cased input with a lower-case literal is a
      case-insensitive comparison, in both directions. */
  lemma ToLowerMatches(s: string, lit: string)
    requires IsLower(lit)
    ensures ToLower(s) == lit <==> EqualsIgnoreCase(s, lit)
  {
  }

  lemma ToLowerIdempotent(s: string)
    ensures ToLower(ToLower(s)) == ToLower(s)
  {
  }

  /** The white-space characters of ASCII, as unicode.IsSpace sees them. */
  predicate IsSpace(c: char) {
    c == ' ' || c == '\t' || c == '\n' || c == '\r' || c == '\U{B}' || c == '\U{C}'
  }

  predicate AllSpace(s: string) {
    forall i :: 0 <= i < |s| ==> IsSpace(s[i])
  }

  /** Drops leading white space: the result is the longest suffix that
      does not start with white space, and only white space was dropped. */
  function TrimLeft(s: string): (r: string)
    ensures |r| <= |s| && r == s[|s| - |r|..]
    ensures AllSpace(s[..|s| - |r|])
    ensures r == [] || !IsSpace(r[0])
    decreases |s|
  {
    if s != [] && IsSpace(s[0]) then
      var r := TrimLeft(s[1..]);
      assert s[..|s| - |r|] == [s[0]] + s[1..][..|s| - 1 - |r|];
      r
    else
      s
  }

  /** Drops trailing white space, symmetrically to TrimLeft. */
  function TrimRight(s: string): (r: string)
    ensures |r| <= |s| && r == s[..|r|]
    ensures AllSpace(s[|r|..])
    ensures r == [] || !IsSpace(r[|r| - 1])
    decreases |s|
  {
    if s != [] && IsSpace(s[|s| - 1]) then
      var r := TrimRight(s[..|s| - 1]);
      assert s[|r|..] == s[..|s| - 1][|r|..] + [s[|s| - 1]];
      r
    else
      s
  }

  /** `r` is the slice `s[i..j]`, only white space lies outside it, and it
      neither starts nor ends with white space. */
  predicate TrimmedAt(r: string, s: string, i: nat, j: nat) {
    && i <= j <= |s|
    && r == s[i..j]
    && AllSpace(s[..i])
    && AllSpace(s[j..])
    && (r == [] || (!IsSpace(r[0]) && !IsSpace(r[|r| - 1])))
  }

  /** `r` is `s` with its leading and trailing white space removed. */
  ghost predicate IsTrimOf(r: string, s: string) {
    exists i: nat, j: nat :: TrimmedAt(r, s, i, j)
  }

  /** strings.TrimSpace. */
  function TrimSpace(s: string): (r: string)
    ensures IsTrimOf(r, s)
  {
    var l := TrimLeft(s);
    var r := TrimRight(l);
    var i := |s| - |l|;
    var j := i + |r|;
    assert r == s[i..j];
    assert s[j..] == l[|r|..];
    assert TrimmedAt(r, s, i, j);
    r
  }

  /** IsTrimOf pins its result down: a string has exactly one trim. */
  lemma TrimOfUnique(s: string, r1: string, r2: string)
    requires IsTrimOf(r1, s) && IsTrimOf(r2, s)
    ensures r1 == r2
  {
    var i1: nat, j1: nat :| TrimmedAt(r1, s, i1, j1);
    var i2: nat, j2: nat :| TrimmedAt(r2, s, i2, j2);
    SpacesOutside(r1, s, i1, j1);
    SpacesOutside(r2, s, i2, j2);
  }

  /** Every position outside a trim's slice holds white space, and a
      non-empty trim starts and ends on a non-space of `s`. */
  lemma SpacesOutside(r: string, s: string, i: nat, j: nat)
    requires TrimmedAt(r, s, i, j)
    ensures forall k :: 0 <= k < i ==> IsSpace(s[k])
    ensures forall k :: j <= k < |s| ==> IsSpace(s[k])
    ensures r != [] ==> !IsSpace(s[i]) && !IsSpace(s[j - 1])
  {
    forall k | 0 <= k < i
      ensures IsSpace(s[k])
    {
      assert s[..i][k] == s[k];
    }
    forall k | j <= k < |s|
      ensures IsSpace(s[k])
    {
      assert s[j..][k - j] == s[k];
    }
    if r != [] {
      assert s[i] == r[0] && s[j - 1] == r[|r| - 1];
    }
  }

  /** TrimSpace leaves a string that neither starts nor ends with white space alone. */
  lemma TrimSpaceOfTrimmed(s: string)
    requires s == [] || (!IsSpace(s[0]) && !IsSpace(s[|s| - 1]))
    ensures TrimSpace(s) == s
  {
    assert TrimmedAt(s, s, 0, |s|) by {
      assert s[..0] == [] && s[|s|..] == [] && s[0..|s|] == s;
    }
    TrimOfUnique(s, TrimSpace(s), s);
  }

  /** strings.Split(s, string(sep))[0]: everything before the first `sep`,
      or all of `s` when it holds none. */
  function FirstField(s: string, sep: char): (r: string)
    ensures |r| <= |s| && r == s[..|r|]
    ensures sep !in r
    ensures |r| < |s| ==> s[|r|] == sep
    decreases |s|
  {
    if s == [] || s[0] == sep then [] else [s[0]] + FirstField(s[1..], sep)
  }

  /** The three properties of FirstField determine it: any sep-free prefix
      that ends at a `sep` or at the end of `s` is the first field. */
  lemma FirstFieldUnique(s: string, sep: char, p: string)
    requires |p| <= |s| && p == s[..|p|]
    requires sep !in p
    requires |p| < |s| ==> s[|p|] == sep
    ensures p == FirstField(s, sep)
  {
  }
}
