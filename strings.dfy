/**
 * The two string operations the error classifiers rely on: lowercasing
 * (Rust's `str::to_lowercase`, restricted here to ASCII letters) and
 * substring search (Rust's `str::contains`).
 */
module Strings {

  predicate IsUpper(c: char) {
    'A' <= c <= 'Z'
  }

  function LowerChar(c: char): (d: char)
    ensures !IsUpper(d)
    ensures IsUpper(c) ==> d as int == c as int + 32
    ensures !IsUpper(c) ==> d == c
  {
    if IsUpper(c) then (c as int + 32) as char else c
  }

  /** Lowercases every ASCII letter and leaves every other character as it is. */
  function ToLower(s: string): (r: string)
    ensures |r| == |s|
    ensures forall i | 0 <= i < |s| :: r[i] == LowerChar(s[i])
    ensures forall i | 0 <= i < |r| :: !IsUpper(r[i])
  {
    seq(|s|, i requires 0 <= i < |s| => LowerChar(s[i]))
  }

  lemma ToLowerIdempotent(s: string)
    ensures ToLower(ToLower(s)) == ToLower(s)
  {
    var t := ToLower(s);
    assert forall i | 0 <= i < |t| :: ToLower(t)[i] == t[i];
  }

  /** Lowercasing commutes with concatenation. */
  lemma ToLowerAppend(a: string, b: string)
    ensures ToLower(a + b) == ToLower(a) + ToLower(b)
  {
    assert forall i | 0 <= i < |a + b| :: ToLower(a + b)[i] == (ToLower(a) + ToLower(b))[i];
  }

  /** `pat` occurs in `s` starting at index `i`. */
  predicate MatchesAt(s: string, pat: string, i: int) {
    0 <= i && i + |pat| <= |s| && s[i..i + |pat|] == pat
  }

  /** Substring test, as `str::contains` with a string pattern. */
  predicate Contains(s: string, pat: string) {
    exists i | 0 <= i <= |s| :: MatchesAt(s, pat, i)
  }

  lemma ContainsAt(s: string, pat: string, i: int)
    requires MatchesAt(s, pat, i)
    ensures Contains(s, pat)
  {
  }

  /** A pattern with a character that `s` lacks does not occur in `s`. */
  lemma NotContainsMissingChar(s: string, pat: string, k: int)
    requires 0 <= k < |pat| && pat[k] !in s
    ensures !Contains(s, pat)
  {
  }

  /** A pattern character missing from both halves is missing from their concatenation. */
  lemma NotContainsInParts(x: string, y: string, pat: string, k: int)
    requires 0 <= k < |pat| && pat[k] !in x && pat[k] !in y
    ensures !Contains(x + y, pat)
  {
    NotContainsMissingChar(x + y, pat, k);
  }

  /**
   * If `s` splits into `x + y` where `pat[k]` never occurs in `x` and
   * `pat[k + 1]` never occurs in `y`, the adjacent pair cannot straddle
   * the split, so `pat` does not occur in `s`.
   */
  lemma NotContainsSplit(x: string, y: string, pat: string, k: int)
    requires 0 <= k && k + 1 < |pat|
    requires pat[k] !in x && pat[k + 1] !in y
    ensures !Contains(x + y, pat)
  {
  }

  /** A match in `y` is a match in any extension `x + y`. */
  lemma ContainsSuffixPart(x: string, y: string, pat: string)
    requires Contains(y, pat)
    ensures Contains(x + y, pat)
  {
    var i :| 0 <= i <= |y| && MatchesAt(y, pat, i);
    assert (x + y)[|x| + i..|x| + i + |pat|] == y[i..i + |pat|];
    assert MatchesAt(x + y, pat, |x| + i);
  }
}
