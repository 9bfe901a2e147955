/** The few JavaScript string operations the request handler, the flow and the
    client configuration rely on: `toLowerCase`, `includes`, `startsWith`,
    `endsWith` and `trim`, over strings as sequences of characters. */
module JsString {

  /** `toLowerCase` on one character, for ASCII letters only. */
  function LowerChar(c: char): char {
    if 'A' <= c <= 'Z' then (c as int + 32) as char else c
  }

  /** `s.toLowerCase()`, ASCII letters only. */
  function ToLower(s: string): string {
    seq(|s|, i requires 0 <= i < |s| => LowerChar(s[i]))
  }

  /** `p` occurs in `s` starting at index `k`. */
  predicate MatchAt(s: string, p: string, k: int) {
    0 <= k && k + |p| <= |s| && s[k..k + |p|] == p
  }

  /** `s.includes(p)` */
  predicate Includes(s: string, p: string) {
    exists k :: 0 <= k <= |s| && MatchAt(s, p, k)
  }

  /** `s.startsWith(p)` */
  predicate StartsWith(s: string, p: string) {
    |p| <= |s| && s[..|p|] == p
  }

  /** `s.endsWith(p)` */
  predicate EndsWith(s: string, p: string) {
    |p| <= |s| && s[|s| - |p|..] == p
  }

  /** A prefix made of two parts is matched part by part. */
  lemma StartsWithAppend(s: string, a: string, b: string)
    ensures StartsWith(s, a + b) <==> StartsWith(s, a) && StartsWith(s[|a|..], b)
  {
    if StartsWith(s, a) && StartsWith(s[|a|..], b) {
      assert s[..|a + b|] == s[..|a|] + s[|a|..][..|b|];
    }
    if StartsWith(s, a + b) {
      assert s[..|a|] == (a + b)[..|a|];
      assert s[|a|..][..|b|] == (a + b)[|a|..];
    }
  }

  /** The characters `trim` removes: ECMAScript WhiteSpace and LineTerminator. */
  predicate IsWhitespace(c: char) {
    c == '\t' || c == '\n' || c == '\U{000B}' || c == '\U{000C}' || c == '\r' || c == ' '
    || c == '\U{00A0}' || c == '\U{1680}' || '\U{2000}' <= c <= '\U{200A}'
    || c == '\U{2028}' || c == '\U{2029}' || c == '\U{202F}' || c == '\U{205F}'
    || c == '\U{3000}' || c == '\U{FEFF}'
  }

  /** `s.trimStart()`: the longest suffix of `s` that does not start with whitespace. */
  function TrimStart(s: string): (r: string)
    ensures |r| <= |s| && r == s[|s| - |r|..]
    ensures r == [] || !IsWhitespace(r[0])
    ensures forall i :: 0 <= i < |s| - |r| ==> IsWhitespace(s[i])
  {
    if s == [] || !IsWhitespace(s[0]) then s else TrimStart(s[1..])
  }

  /** `s.trimEnd()`: the longest prefix of `s` that does not end with whitespace. */
  function TrimEnd(s: string): (r: string)
    ensures |r| <= |s| && r == s[..|r|]
    ensures r == [] || !IsWhitespace(r[|r| - 1])
    ensures forall i :: |r| <= i < |s| ==> IsWhitespace(s[i])
  {
    if s == [] || !IsWhitespace(s[|s| - 1]) then s else TrimEnd(s[..|s| - 1])
  }

  /** `s.trim()` */
  function Trim(s: string): string {
    TrimEnd(TrimStart(s))
  }

  /** A string trims to nothing exactly when every character is whitespace. */
  lemma TrimEmptyIff(s: string)
    ensures Trim(s) == [] <==> forall i :: 0 <= i < |s| ==> IsWhitespace(s[i])
  {
    var t := TrimStart(s);
    if Trim(s) != [] {
      assert t != [] && !IsWhitespace(s[|s| - |t|]);
    }
  }

  /** A pattern with a character that does not occur in `s` is not in `s`. */
  lemma MissingCharExcludes(s: string, p: string, c: char)
    requires c in p && c !in s
    ensures !Includes(s, p)
  {
    var i :| 0 <= i < |p| && p[i] == c;
    forall k | 0 <= k <= |s| - |p| ensures !MatchAt(s, p, k) {
      assert s[k..k + |p|][i] == s[k + i] != p[i];
    }
  }

  /** No occurrence of `p` in `s` starts before index `j`. */
  ghost predicate NoMatchBefore(s: string, p: string, j: int) {
    forall k :: 0 <= k < j ==> !MatchAt(s, p, k)
  }

  /** A character of `s` that `p` does not contain rules out every occurrence
      of `p` that would cover it, so a scan that has reached a window covering
      it can move past it. */
  lemma ScanBlocker(s: string, p: string, j: int, b: int)
    requires NoMatchBefore(s, p, j) && b - |p| < j <= b + 1
    requires 0 <= b < |s| && s[b] !in p
    ensures NoMatchBefore(s, p, b + 1)
  {
    forall k | 0 <= k <= b ensures !MatchAt(s, p, k) {
      if j <= k && k + |p| <= |s| {
        assert s[k..k + |p|][b - k] == s[b];
      }
    }
  }

  /** A scan moves one position on when the window at `j` differs from `p`
      at offset `i`. */
  lemma ScanMismatch(s: string, p: string, j: int, i: int)
    requires NoMatchBefore(s, p, j) && 0 <= j
    requires 0 <= i < |p| && j + i < |s| && s[j + i] != p[i]
    ensures NoMatchBefore(s, p, j + 1)
  {
    if j + |p| <= |s| {
      assert s[j..j + |p|][i] == s[j + i];
    }
  }

  /** A scan that has passed every window that fits has found no occurrence. */
  lemma ScanDone(s: string, p: string, j: int)
    requires NoMatchBefore(s, p, j) && |s| - |p| < j
    ensures !Includes(s, p)
  {
  }

  /** A lower-case letter occurs in `ToLower(s)` only if it or its upper-case
      form occurs in `s`. */
  lemma LowerCharAbsent(s: string, c: char)
    requires 'a' <= c <= 'z'
    requires c !in s && (c as int - 32) as char !in s
    ensures c !in ToLower(s)
  {
    forall i | 0 <= i < |s| ensures ToLower(s)[i] != c {
      assert s[i] != c && s[i] != (c as int - 32) as char;
    }
  }
}
