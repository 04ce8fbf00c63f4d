/**
 * The few Kotlin string operations the voice-assistant code relies on:
 * `Char.isWhitespace`, `String.trim()`, `String.isBlank()`, `String.contains`
 * and `String.lowercase()` (on the letters A-Z only; see README).
 */
module Text {

  /** Kotlin's `Char.isWhitespace()` on the JVM: `Character.isWhitespace(c) || Character.isSpaceChar(c)`. */
  predicate IsWhitespace(c: char) {
    || ('\U{9}' <= c <= '\U{D}')
    || ('\U{1C}' <= c <= '\U{1F}')
    || c == ' '
    || c == '\U{A0}'
    || c == '\U{1680}'
    || ('\U{2000}' <= c <= '\U{200A}')
    || c == '\U{2028}' || c == '\U{2029}'
    || c == '\U{202F}' || c == '\U{205F}' || c == '\U{3000}'
  }

  /** `String.isBlank()`: every character is whitespace (the empty string is blank). */
  predicate IsBlank(s: string) {
    forall k :: 0 <= k < |s| ==> IsWhitespace(s[k])
  }

  /** Lower-case mapping of one character, restricted to the ASCII capitals. */
  function Lower(c: char): char {
    if 'A' <= c <= 'Z' then (c as int - 'A' as int + 'a' as int) as char else c
  }

  /**
   * `String.lowercase()` on the ASCII capitals: the length is kept, no capital
   * is left, each capital becomes its small letter and every other character
   * is unchanged.
   */
  function Lowercase(s: string): (r: string)
    ensures |r| == |s|
    ensures forall k :: 0 <= k < |r| ==> !('A' <= r[k] <= 'Z')
    ensures forall k :: 0 <= k < |s| && 'A' <= s[k] <= 'Z' ==> r[k] as int == s[k] as int + 32
    ensures forall k :: 0 <= k < |s| && !('A' <= s[k] <= 'Z') ==> r[k] == s[k]
  {
    seq(|s|, k requires 0 <= k < |s| => Lower(s[k]))
  }

  /** The index of the first non-whitespace character at or after `i`, or `|s|` when there is none. */
  function SkipLeading(s: string, i: nat): (j: nat)
    requires i <= |s|
    ensures i <= j <= |s|
    ensures forall k :: i <= k < j ==> IsWhitespace(s[k])
    ensures j < |s| ==> !IsWhitespace(s[j])
    decreases |s| - i
  {
    if i < |s| && IsWhitespace(s[i]) then SkipLeading(s, i + 1) else i
  }

  /** The end of the last non-whitespace character of `s[i..j]`, or `i` when there is none. */
  function SkipTrailing(s: string, i: nat, j: nat): (e: nat)
    requires i <= j <= |s|
    ensures i <= e <= j
    ensures forall k :: e <= k < j ==> IsWhitespace(s[k])
    ensures e > i ==> !IsWhitespace(s[e - 1])
    decreases j
  {
    if j > i && IsWhitespace(s[j - 1]) then SkipTrailing(s, i, j - 1) else j
  }

  /** `r` is the slice of `s` that starts at `i`, and only whitespace of `s` lies outside it. */
  predicate SliceWithin(s: string, r: string, i: int) {
    && 0 <= i <= |s| - |r| && r == s[i..i + |r|]
    && (forall k :: 0 <= k < i ==> IsWhitespace(s[k]))
    && (forall k :: i + |r| <= k < |s| ==> IsWhitespace(s[k]))
  }

  /**
   * `String.trim()`: the longest slice of `s` that neither starts nor ends with
   * whitespace, everything outside it being whitespace.
   */
  function Trim(s: string): (r: string)
    ensures exists i :: SliceWithin(s, r, i)
    ensures r != [] ==> !IsWhitespace(r[0]) && !IsWhitespace(r[|r| - 1])
    ensures r == [] <==> IsBlank(s)
  {
    var i := SkipLeading(s, 0);
    var e := SkipTrailing(s, i, |s|);
    TrimBounds(s, i, e);
    TrimBlank(s, i, e);
    s[i..e]
  }

  /** The slice between the skipped ends has only whitespace around it and non-whitespace ends. */
  lemma TrimBounds(s: string, i: nat, e: nat)
    requires i <= |s| && i == SkipLeading(s, 0) && e == SkipTrailing(s, i, |s|)
    ensures SliceWithin(s, s[i..e], i)
    ensures i < e ==> !IsWhitespace(s[i..e][0]) && !IsWhitespace(s[i..e][e - i - 1])
  {
    assert |s[i..e]| == e - i;
    if i < e {
      assert s[i..e][0] == s[i];
      assert s[i..e][e - i - 1] == s[e - 1];
    }
  }

  /** The slice between the skipped ends is empty exactly when `s` is blank. */
  lemma TrimBlank(s: string, i: nat, e: nat)
    requires i <= |s| && i == SkipLeading(s, 0) && e == SkipTrailing(s, i, |s|)
    ensures i == e <==> IsBlank(s)
  {
    if i == e {
      forall k | 0 <= k < |s|
        ensures IsWhitespace(s[k])
      {
        if k < i {
          assert 0 <= k < i;
        }
      }
    }
  }

  /** `s.startsWith(p)`. */
  predicate StartsWith(s: string, p: string) {
    |p| <= |s| && s[..|p|] == p
  }

  /** `s.contains(k)`: `k` occurs in `s` at some position (the empty string occurs everywhere). */
  predicate Contains(s: string, k: string)
    decreases |s|
  {
    StartsWith(s, k) || (|s| > 0 && Contains(s[1..], k))
  }

  /** `k` occurs in `s` starting at index `i`. */
  predicate OccursAt(s: string, k: string, i: int) {
    0 <= i <= |s| - |k| && s[i..i + |k|] == k
  }

  /** `Contains` holds exactly when `k` occurs in `s` at some index. */
  lemma {:induction false} ContainsAt(s: string, k: string)
    ensures Contains(s, k) <==> exists i :: OccursAt(s, k, i)
    decreases |s|
  {
    if StartsWith(s, k) {
      assert OccursAt(s, k, 0);
    } else if |s| > 0 {
      ContainsAt(s[1..], k);
      if exists i :: OccursAt(s, k, i) {
        var i :| OccursAt(s, k, i);
        assert i != 0;
        assert OccursAt(s[1..], k, i - 1);
      }
      if Contains(s[1..], k) {
        var i :| OccursAt(s[1..], k, i);
        assert s[i + 1..i + 1 + |k|] == s[1..][i..i + |k|];
        assert OccursAt(s, k, i + 1);
      }
    }
  }

  /** An occurrence at a known index makes `Contains` true. */
  lemma ContainsWitness(s: string, k: string, i: int)
    requires OccursAt(s, k, i)
    ensures Contains(s, k)
  {
    ContainsAt(s, k);
  }

  lemma LowerKeepsWhitespace(c: char)
    ensures IsWhitespace(Lower(c)) <==> IsWhitespace(c)
  {
  }

  /** Lower-casing twice is lower-casing once. */
  lemma LowercaseIdempotent(s: string)
    ensures Lowercase(Lowercase(s)) == Lowercase(s)
  {
  }

  lemma LowercaseSlice(s: string, i: nat, j: nat)
    requires i <= j <= |s|
    ensures Lowercase(s[i..j]) == Lowercase(s)[i..j]
  {
  }

  /** Lower-casing keeps where the leading whitespace ends. */
  lemma {:induction false} LowercaseSkipLeading(s: string, i: nat)
    requires i <= |s|
    ensures SkipLeading(Lowercase(s), i) == SkipLeading(s, i)
    decreases |s| - i
  {
    if i < |s| {
      LowerKeepsWhitespace(s[i]);
      if IsWhitespace(s[i]) {
        LowercaseSkipLeading(s, i + 1);
      }
    }
  }

  /** Lower-casing keeps where the trailing whitespace starts. */
  lemma {:induction false} LowercaseSkipTrailing(s: string, i: nat, j: nat)
    requires i <= j <= |s|
    ensures SkipTrailing(Lowercase(s), i, j) == SkipTrailing(s, i, j)
    decreases j
  {
    if j > i {
      LowerKeepsWhitespace(s[j - 1]);
      if IsWhitespace(s[j - 1]) {
        LowercaseSkipTrailing(s, i, j - 1);
      }
    }
  }

  /** Lower-casing and trimming commute, because lower-casing maps whitespace to whitespace and nothing else to whitespace. */
  lemma LowercaseTrim(s: string)
    ensures Trim(Lowercase(s)) == Lowercase(Trim(s))
  {
    LowercaseSkipLeading(s, 0);
    var i := SkipLeading(s, 0);
    LowercaseSkipTrailing(s, i, |s|);
    var e := SkipTrailing(s, i, |s|);
    LowercaseSlice(s, i, e);
  }

  /** A string that neither starts nor ends with whitespace is its own trim. */
  lemma TrimmedIsFixed(s: string)
    requires s != [] ==> !IsWhitespace(s[0]) && !IsWhitespace(s[|s| - 1])
    ensures Trim(s) == s
  {
    assert SkipLeading(s, 0) == 0;
    assert SkipTrailing(s, 0, |s|) == |s|;
    assert s[0..|s|] == s;
  }

  /** Trimming a trimmed string changes nothing. */
  lemma TrimIdempotent(s: string)
    ensures Trim(Trim(s)) == Trim(s)
  {
    TrimmedIsFixed(Trim(s));
  }
}
