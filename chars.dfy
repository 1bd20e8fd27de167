/**
 * Character-level helpers for the input filters and format checks of the
 * KYC page and the PIN dialog: `replace(/\D/g, '')`, ASCII `toUpperCase`,
 * `slice(0, n)` and the fixed-shape patterns `^\d{12}$` and
 * `^[A-Z]{5}[0-9]{4}[A-Z]{1}$`.
 */
module Chars {

  /** `\d` and `[0-9]` in a JavaScript regular expression without the `u` flag. */
  predicate IsDigit(c: char) { '0' <= c <= '9' }

  predicate IsUpper(c: char) { 'A' <= c <= 'Z' }

  predicate IsLower(c: char) { 'a' <= c <= 'z' }

  predicate AllDigits(s: string) {
    forall i :: 0 <= i < |s| ==> IsDigit(s[i])
  }

  predicate NoLower(s: string) {
    forall i :: 0 <= i < |s| ==> !IsLower(s[i])
  }

  /** How many times `c` occurs in `s`. */
  function Count(s: string, c: char): nat {
    if s == [] then 0 else (if s[0] == c then 1 else 0) + Count(s[1..], c)
  }

  /**
   * `r` can be obtained from `s` by deleting characters: the characters of
   * `r` occur in `s` in the same order.
   */
  predicate Subsequence(r: string, s: string)
    decreases |s|
  {
    if r == [] then true
    else if s == [] then false
    else (r[0] == s[0] && Subsequence(r[1..], s[1..])) || Subsequence(r, s[1..])
  }

  /**
   * `s.replace(/\D/g, '')`: the digits of `s` in their order. The result is
   * a subsequence of `s` made of digits alone, and every digit keeps its
   * number of occurrences, so no digit is dropped and none is moved.
   */
  function KeepDigits(s: string): (r: string)
    ensures AllDigits(r)
    ensures Subsequence(r, s)
    ensures |r| <= |s|
    ensures forall c :: IsDigit(c) ==> Count(r, c) == Count(s, c)
    ensures forall c :: !IsDigit(c) ==> Count(r, c) == 0
  {
    if s == [] then []
    else if IsDigit(s[0]) then [s[0]] + KeepDigits(s[1..])
    else KeepDigits(s[1..])
  }

  /** A string of digits is left as it is. */
  lemma {:induction false} KeepDigitsOfDigits(s: string)
    requires AllDigits(s)
    ensures KeepDigits(s) == s
  {
    if s != [] {
      KeepDigitsOfDigits(s[1..]);
    }
  }

  /**
   * The filter works left to right: filtering a concatenation filters each
   * part, so the digits of the first part come first.
   */
  lemma {:induction false} KeepDigitsAppend(a: string, b: string)
    ensures KeepDigits(a + b) == KeepDigits(a) + KeepDigits(b)
    decreases |a|
  {
    if a == [] {
      assert a + b == b;
    } else {
      assert (a + b)[0] == a[0] && (a + b)[1..] == a[1..] + b;
      KeepDigitsAppend(a[1..], b);
    }
  }

  /** The filter keeps every character only when all of them are digits. */
  lemma {:induction false} KeepDigitsShorter(s: string)
    requires |KeepDigits(s)| == |s|
    ensures AllDigits(s)
    decreases |s|
  {
    if s != [] {
      assert IsDigit(s[0]);
      KeepDigitsShorter(s[1..]);
      forall i | 1 <= i < |s| ensures IsDigit(s[i]) {
        assert s[i] == s[1..][i - 1];
      }
    }
  }

  /** ASCII `toUpperCase` of one character: 'a'..'z' become 'A'..'Z', letter for letter. */
  function UpperChar(c: char): (u: char)
    ensures !IsLower(u)
    ensures !IsLower(c) ==> u == c
    ensures IsLower(c) ==> IsUpper(u) && u as int == c as int - 32
  {
    if IsLower(c) then (c as int - 32) as char else c
  }

  /** `s.toUpperCase()` restricted to ASCII letters: same length, no lower-case letter left. */
  function Upper(s: string): (r: string)
    ensures |r| == |s|
    ensures forall i :: 0 <= i < |s| ==> r[i] == UpperChar(s[i])
    ensures NoLower(r)
  {
    if s == [] then [] else [UpperChar(s[0])] + Upper(s[1..])
  }

  /** `s.slice(0, n)`. */
  function Take(s: string, n: nat): (r: string)
    ensures |r| == if |s| < n then |s| else n
    ensures r == s[..|r|]
  {
    if |s| <= n then s else s[..n]
  }

  /** One position of a fixed-length pattern. */
  datatype CharClass = Digit | UpperLetter

  predicate InClass(c: char, k: CharClass) {
    match k
    case Digit => IsDigit(c)
    case UpperLetter => IsUpper(c)
  }

  function Repeat(k: CharClass, n: nat): (p: seq<CharClass>)
    ensures |p| == n && forall i :: 0 <= i < n ==> p[i] == k
  {
    if n == 0 then [] else [k] + Repeat(k, n - 1)
  }

  /** Anchored match of `s` against a pattern of single-character classes. */
  function Matches(s: string, p: seq<CharClass>): bool
    decreases p
  {
    if p == [] then s == []
    else s != [] && InClass(s[0], p[0]) && Matches(s[1..], p[1..])
  }

  /** A pattern match is position by position. */
  lemma {:induction false} MatchesIff(s: string, p: seq<CharClass>)
    ensures Matches(s, p) <==> |s| == |p| && forall i :: 0 <= i < |s| ==> InClass(s[i], p[i])
    decreases p
  {
    if p != [] && s != [] {
      MatchesIff(s[1..], p[1..]);
      if |s| == |p| && forall i :: 0 <= i < |s| ==> InClass(s[i], p[i]) {
        assert forall i :: 0 <= i < |s[1..]| ==> InClass(s[1..][i], p[1..][i]) by {
          forall i | 0 <= i < |s[1..]| ensures InClass(s[1..][i], p[1..][i]) {
            assert InClass(s[i + 1], p[i + 1]);
          }
        }
      }
      if Matches(s, p) {
        forall i | 0 <= i < |s| ensures InClass(s[i], p[i]) {
          if i > 0 {
            assert s[i] == s[1..][i - 1] && p[i] == p[1..][i - 1];
          }
        }
      }
    }
  }
}
