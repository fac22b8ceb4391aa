/**
 * Explicit string models of the host helpers the tools rely on. The engine's
 * own implementations are not part of this model; these definitions state
 * what the model assumes of them:
 *
 *  - ToLower: ASCII lower-casing (FString::ToLower on the ASCII range);
 *  - Contains / ContainsIgnoreCase: substring test (FString::Contains);
 *  - Standardize: every '\' becomes '/' (the separator part of
 *    FPaths::MakeStandardFilename and FPaths::NormalizeFilename);
 *  - NormalizeDirectoryName: Standardize, then drop one trailing '/' unless
 *    the path ends in "//" or ":/" (FPaths::NormalizeDirectoryName);
 *  - GetPath: everything before the last separator, or "" (FPaths::GetPath);
 *  - Join: FPaths::Combine of two parts (FString::PathAppend).
 */
module Paths {

  // ---------------------------------------------------------------------
  // Characters and case
  // ---------------------------------------------------------------------

  function LowerChar(c: char): char {
    if 'A' <= c <= 'Z' then (c as int + 32) as char else c
  }

  function ToLower(s: string): (r: string)
    ensures |r| == |s|
    ensures forall i :: 0 <= i < |s| ==> r[i] == LowerChar(s[i])
  {
    seq(|s|, i requires 0 <= i < |s| => LowerChar(s[i]))
  }

  lemma ToLowerAppend(a: string, b: string)
    ensures ToLower(a + b) == ToLower(a) + ToLower(b)
  {
    assert forall i :: 0 <= i < |a + b| ==> ToLower(a + b)[i] == (ToLower(a) + ToLower(b))[i];
  }

  predicate IsSeparator(c: char) { c == '/' || c == '\\' }

  /** No character of `s` is a path separator. */
  predicate NoSeparator(s: string) {
    forall i :: 0 <= i < |s| ==> !IsSeparator(s[i])
  }

  // ---------------------------------------------------------------------
  // Substrings
  // ---------------------------------------------------------------------

  predicate ContainsAt(s: string, t: string, i: int) {
    0 <= i && i + |t| <= |s| && s[i..i + |t|] == t
  }

  /** `t` occurs somewhere in `s` (case-sensitive). */
  predicate Contains(s: string, t: string) {
    exists i | 0 <= i <= |s| - |t| :: ContainsAt(s, t, i)
  }

  /**
   * FString::Contains with its default ESearchCase::IgnoreCase: `t` occurs
   * in `s` once both are lower-cased.
   */
  predicate ContainsIgnoreCase(s: string, t: string) {
    Contains(ToLower(s), ToLower(t))
  }

  /** FString::Equals with ESearchCase::IgnoreCase. */
  predicate EqualsIgnoreCase(s: string, t: string) {
    ToLower(s) == ToLower(t)
  }

  lemma ContainsInSuffix(a: string, b: string, t: string)
    requires Contains(b, t)
    ensures Contains(a + b, t)
  {
    var i :| 0 <= i <= |b| - |t| && ContainsAt(b, t, i);
    assert (a + b)[|a| + i..|a| + i + |t|] == b[i..i + |t|];
    assert ContainsAt(a + b, t, |a| + i);
  }

  lemma ContainsInPrefix(a: string, b: string, t: string)
    requires Contains(a, t)
    ensures Contains(a + b, t)
  {
    var i :| 0 <= i <= |a| - |t| && ContainsAt(a, t, i);
    assert (a + b)[i..i + |t|] == a[i..i + |t|];
    assert ContainsAt(a + b, t, i);
  }

  lemma ContainsIgnoreCaseInSuffix(a: string, b: string, t: string)
    requires ContainsIgnoreCase(b, t)
    ensures ContainsIgnoreCase(a + b, t)
  {
    ToLowerAppend(a, b);
    ContainsInSuffix(ToLower(a), ToLower(b), ToLower(t));
  }

  lemma ContainsIgnoreCaseInPrefix(a: string, b: string, t: string)
    requires ContainsIgnoreCase(a, t)
    ensures ContainsIgnoreCase(a + b, t)
  {
    ToLowerAppend(a, b);
    ContainsInPrefix(ToLower(a), ToLower(b), ToLower(t));
  }

  // ---------------------------------------------------------------------
  // Separators
  // ---------------------------------------------------------------------

  function SlashOf(c: char): char { if c == '\\' then '/' else c }

  /** Every '\' replaced by '/'. */
  function Standardize(s: string): (r: string)
    ensures |r| == |s|
    ensures forall i :: 0 <= i < |s| ==> r[i] == SlashOf(s[i])
  {
    seq(|s|, i requires 0 <= i < |s| => SlashOf(s[i]))
  }

  predicate NoBackslash(s: string) {
    forall i :: 0 <= i < |s| ==> s[i] != '\\'
  }

  lemma StandardizeFixesClean(s: string)
    requires NoBackslash(s)
    ensures Standardize(s) == s
  {
  }

  lemma StandardizeIdempotent(s: string)
    ensures Standardize(Standardize(s)) == Standardize(s)
  {
  }

  lemma StandardizeAppend(a: string, b: string)
    ensures Standardize(a + b) == Standardize(a) + Standardize(b)
  {
    assert forall i :: 0 <= i < |a + b| ==> Standardize(a + b)[i] == (Standardize(a) + Standardize(b))[i];
  }

  /**
   * Replacing '\' by '/' never changes whether a separator-free token occurs
   * in a path, whatever the case of either.
   */
  lemma {:induction false} StandardizeKeepsToken(p: string, t: string)
    requires NoSeparator(ToLower(t))
    ensures ContainsIgnoreCase(Standardize(p), t) <==> ContainsIgnoreCase(p, t)
  {
    var a, b, u := ToLower(Standardize(p)), ToLower(p), ToLower(t);
    assert |a| == |b|;
    forall i | 0 <= i <= |a| - |u|
      ensures ContainsAt(a, u, i) <==> ContainsAt(b, u, i)
    {
      forall j | 0 <= j < |u|
        ensures a[i + j] == u[j] <==> b[i + j] == u[j]
      {
        assert !IsSeparator(u[j]);
      }
      if i + |u| <= |a| {
        assert a[i..i + |u|] == u <==> b[i..i + |u|] == u;
      }
    }
    if Contains(a, u) {
      var i :| 0 <= i <= |a| - |u| && ContainsAt(a, u, i);
      assert ContainsAt(b, u, i);
    }
    if Contains(b, u) {
      var i :| 0 <= i <= |b| - |u| && ContainsAt(b, u, i);
      assert ContainsAt(a, u, i);
    }
  }

  // ---------------------------------------------------------------------
  // Directory names
  // ---------------------------------------------------------------------

  /** `t` ends in '/' but not in "//" or ":/". */
  predicate DropsTrailingSlash(t: string) {
    |t| > 0 && t[|t| - 1] == '/' && (|t| == 1 || (t[|t| - 2] != '/' && t[|t| - 2] != ':'))
  }

  /** FPaths::NormalizeDirectoryName. */
  function NormalizeDirectoryName(s: string): string {
    var t := Standardize(s);
    if DropsTrailingSlash(t) then t[..|t| - 1] else t
  }

  /** A directory name that NormalizeDirectoryName leaves as it is. */
  predicate IsNormalizedDirectory(s: string) {
    NormalizeDirectoryName(s) == s
  }

  lemma NormalizeIdempotent(s: string)
    ensures IsNormalizedDirectory(NormalizeDirectoryName(s))
  {
    var t := Standardize(s);
    var r := NormalizeDirectoryName(s);
    if DropsTrailingSlash(t) {
      assert r == t[..|t| - 1];
      assert NoBackslash(r);
      StandardizeFixesClean(r);
      if |r| > 0 {
        assert r[|r| - 1] == t[|t| - 2];
      }
    } else {
      assert r == t;
      StandardizeIdempotent(s);
    }
  }

  /** A path that has no '\' and does not end in '/' is already normalized. */
  lemma NormalizedWhenClean(s: string)
    requires NoBackslash(s)
    requires |s| > 0 ==> s[|s| - 1] != '/'
    ensures IsNormalizedDirectory(s)
  {
    StandardizeFixesClean(s);
  }

  /**
   * Dropping the trailing '/' never loses an occurrence of a substring that
   * has no separator in it.
   */
  lemma {:induction false} ContainsDropLast(s: string, u: string)
    requires |s| > 0 && IsSeparator(s[|s| - 1]) && NoSeparator(u)
    requires Contains(s, u)
    ensures Contains(s[..|s| - 1], u)
  {
    var i :| 0 <= i <= |s| - |u| && ContainsAt(s, u, i);
    if |u| == 0 {
      assert ContainsAt(s[..|s| - 1], u, 0);
    } else {
      assert s[i..i + |u|][|u| - 1] == u[|u| - 1];
      assert i + |u| < |s|;
      assert s[..|s| - 1][i..i + |u|] == s[i..i + |u|];
      assert ContainsAt(s[..|s| - 1], u, i);
    }
  }

  lemma {:induction false} NormalizeKeepsToken(s: string, t: string)
    requires NoSeparator(ToLower(t))
    requires ContainsIgnoreCase(s, t)
    ensures ContainsIgnoreCase(NormalizeDirectoryName(s), t)
  {
    var u := Standardize(s);
    StandardizeKeepsToken(s, t);
    if DropsTrailingSlash(u) {
      var lu := ToLower(u);
      assert u[|u| - 1] == '/';
      assert lu[|u| - 1] == '/';
      assert ToLower(u[..|u| - 1]) == lu[..|u| - 1];
      ContainsDropLast(lu, ToLower(t));
    }
  }

  // ---------------------------------------------------------------------
  // Parent directory and combination
  // ---------------------------------------------------------------------

  /** A single, non-empty path segment: a folder or file name. */
  predicate SingleSegment(s: string) {
    s != "" && NoSeparator(s)
  }

  /** Index of the last separator in `s`, or -1. */
  function LastSeparator(s: string): (r: int)
    ensures -1 <= r < |s|
    ensures r >= 0 ==> IsSeparator(s[r])
    ensures forall k :: r < k < |s| ==> !IsSeparator(s[k])
    decreases |s|
  {
    if |s| == 0 then -1
    else if IsSeparator(s[|s| - 1]) then |s| - 1
    else LastSeparator(s[..|s| - 1])
  }

  /** FPaths::GetPath: the part of `s` before its last separator, or "". */
  function GetPath(s: string): (r: string)
    ensures |s| > 0 ==> |r| < |s|
    ensures |s| == 0 ==> r == ""
  {
    var k := LastSeparator(s);
    if k < 0 then "" else s[..k]
  }

  /** FPaths::Combine of two parts, with FString::PathAppend's rules. */
  function Join(a: string, b: string): string {
    if a != "" && !IsSeparator(a[|a| - 1]) && (b == "" || b[0] != '/') then a + "/" + b
    else a + b
  }

  /** The parent of `a/b` is `a` when `b` is a single path segment. */
  lemma GetPathOfJoin(a: string, b: string)
    requires a != "" && !IsSeparator(a[|a| - 1])
    requires b != "" && NoSeparator(b)
    ensures Join(a, b) == a + "/" + b
    ensures GetPath(Join(a, b)) == a
  {
    var s := a + "/" + b;
    var k := LastSeparator(s);
    assert IsSeparator(s[|a|]);
    assert k >= |a|;
    assert forall j :: |a| < j < |s| ==> s[j] == b[j - |a| - 1];
  }

  lemma JoinAppends(a: string, b: string)
    requires a != "" && !IsSeparator(a[|a| - 1])
    requires b != "" && b[0] != '/'
    ensures Join(a, b) == a + "/" + b
  {
  }
  /** Combining never drops the left part: it is a prefix of the result. */
  lemma JoinExtends(a: string, b: string)
    ensures |a| <= |Join(a, b)| && Join(a, b)[..|a|] == a
  {
  }

  /** A substring of the left part survives combination. */
  lemma {:induction false} JoinKeepsToken(a: string, b: string, t: string)
    requires ContainsIgnoreCase(a, t)
    ensures ContainsIgnoreCase(Join(a, b), t)
  {
    var j := Join(a, b);
    JoinExtends(a, b);
    assert j == a + j[|a|..];
    ContainsIgnoreCaseInPrefix(a, j[|a|..], t);
  }

  /**
   * Combining a single segment onto a clean directory gives `a/b`, which is
   * already normalized.
   */
  lemma {:induction false} JoinSegmentNormalized(a: string, b: string)
    requires a != "" && !IsSeparator(a[|a| - 1]) && NoBackslash(a)
    requires SingleSegment(b)
    ensures Join(a, b) == a + "/" + b
    ensures NormalizeDirectoryName(Join(a, b)) == a + "/" + b
  {
    JoinAppends(a, b);
    var j := a + "/" + b;
    assert NoBackslash(j);
    assert j[|j| - 1] == b[|b| - 1];
    NormalizedWhenClean(j);
  }

  /**
   * Normalizing `a` combined with a single segment gives a non-empty path
   * that ends in that segment's last character.
   */
  lemma {:induction false} NormalizeJoinSegment(a: string, b: string)
    requires SingleSegment(b)
    ensures var r := NormalizeDirectoryName(Join(a, b));
      r != "" && r[|r| - 1] == b[|b| - 1] && !IsSeparator(r[|r| - 1])
  {
    var j := Join(a, b);
    assert j[|j| - 1] == b[|b| - 1];
    var t := Standardize(j);
    assert t[|t| - 1] == b[|b| - 1];
    assert !DropsTrailingSlash(t);
  }
}
