/**
 * The few string operations the backend relies on: ASCII lower-casing (`str.lower`),
 * substring search (`in` on strings), `str.endswith` and prefixes (`s[:n]`).
 */
module Text {

  function Min(a: int, b: int): (m: int)
    ensures m <= a && m <= b && (m == a || m == b)
  {
    if a <= b then a else b
  }

  predicate IsUpperAscii(c: char)
  {
    'A' <= c <= 'Z'
  }

  /** Lower-cases one character: `A`..`Z` become `a`..`z`, every other character is kept. */
  function ToLowerChar(c: char): (l: char)
    ensures IsUpperAscii(c) ==> l as int == c as int + 32
    ensures !IsUpperAscii(c) ==> l == c
    ensures !IsUpperAscii(l)
  {
    if IsUpperAscii(c) then (c as int + 32) as char else c
  }

  /** Lower-cases a string character by character. */
  function Lower(s: string): (r: string)
    ensures |r| == |s|
    ensures forall i :: 0 <= i < |s| ==> r[i] == ToLowerChar(s[i])
  {
    if s == [] then [] else [ToLowerChar(s[0])] + Lower(s[1..])
  }

  /** `pat` occurs in `s` starting at index `i`. */
  predicate OccursAt(s: string, pat: string, i: int)
  {
    0 <= i && i + |pat| <= |s| && s[i..i + |pat|] == pat
  }

  /** Python's `pat in s` for strings, by scanning the start positions of `s` from the left. */
  function Contains(s: string, pat: string): bool
    decreases |s|
  {
    if |s| < |pat| then false
    else if s[..|pat|] == pat then true
    else Contains(s[1..], pat)
  }

  /** `Contains` is exactly "there is a position where `pat` occurs". */
  lemma {:induction false} ContainsIff(s: string, pat: string)
    ensures Contains(s, pat) <==> exists i :: OccursAt(s, pat, i)
    decreases |s|
  {
    if |s| < |pat| {
      assert forall i :: !OccursAt(s, pat, i);
    } else if s[..|pat|] == pat {
      assert OccursAt(s, pat, 0);
    } else {
      ContainsIff(s[1..], pat);
      if exists i :: OccursAt(s[1..], pat, i) {
        var i :| OccursAt(s[1..], pat, i);
        assert s[1..][i..i + |pat|] == s[i + 1..i + 1 + |pat|];
        assert OccursAt(s, pat, i + 1);
      }
      if exists i :: OccursAt(s, pat, i) {
        var i :| OccursAt(s, pat, i);
        assert i != 0;
        assert s[1..][i - 1..i - 1 + |pat|] == s[i..i + |pat|];
        assert OccursAt(s[1..], pat, i - 1);
      }
    }
  }

  /** Python's `s.endswith(suffix)`: case-sensitive, and `s` may equal `suffix`. */
  predicate EndsWith(s: string, suffix: string)
  {
    |suffix| <= |s| && s[|s| - |suffix|..] == suffix
  }

  predicate IsPrefix(p: string, s: string)
  {
    |p| <= |s| && s[..|p|] == p
  }

  /** Python's `s[:n]` for `n >= 0`: the first `min(n, len(s))` characters. */
  function Take(s: string, n: nat): (p: string)
    ensures |p| == Min(n, |s|)
    ensures IsPrefix(p, s)
  {
    s[..Min(n, |s|)]
  }
}
