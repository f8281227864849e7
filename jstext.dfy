/**
 * The few JavaScript string operations the generator relies on:
 * `toLowerCase`, `endsWith`, `includes`, `trim` and the whitespace class `\s`.
 */
module JsText {

  /** Lower-casing of one character, on the ASCII letters. */
  function LowerChar(c: char): char
  {
    if 'A' <= c <= 'Z' then (c as int + 32) as char else c
  }

  /** An ASCII upper-case letter. */
  predicate IsUpper(c: char)
  {
    'A' <= c <= 'Z'
  }

  /** Two characters that are equal once case is ignored (on the ASCII letters). */
  predicate SameIgnoringCase(a: char, b: char)
  {
    || a == b
    || (IsUpper(a) && b as int == a as int + 32)
    || (IsUpper(b) && a as int == b as int + 32)
  }

  /**
   * `s.toLowerCase()`, restricted to ASCII letters: the length is kept, no upper-case letter
   * remains, and each character is its input character up to case.
   */
  function Lower(s: string): (r: string)
    ensures |r| == |s|
    ensures forall i :: 0 <= i < |r| ==> !IsUpper(r[i]) && SameIgnoringCase(s[i], r[i])
  {
    seq(|s|, i requires 0 <= i < |s| => LowerChar(s[i]))
  }

  /** Lower-casing twice is lower-casing once. */
  lemma LowerIdempotent(s: string)
    ensures Lower(Lower(s)) == Lower(s)
  {
    assert forall i :: 0 <= i < |s| ==> Lower(Lower(s))[i] == Lower(s)[i];
  }

  /**
   * The comparisons `k.toLowerCase() === …` are case-insensitive: two strings lower-case to the
   * same string exactly when they agree character by character up to case.
   */
  lemma LowerEqualIff(s: string, t: string)
    ensures Lower(s) == Lower(t) <==> |s| == |t| && forall i :: 0 <= i < |s| ==> SameIgnoringCase(s[i], t[i])
  {
    if Lower(s) == Lower(t) {
      forall i | 0 <= i < |s|
        ensures SameIgnoringCase(s[i], t[i])
      {
        assert Lower(s)[i] == Lower(t)[i];
      }
    }
    if |s| == |t| && forall i :: 0 <= i < |s| ==> SameIgnoringCase(s[i], t[i]) {
      forall i | 0 <= i < |s|
        ensures Lower(s)[i] == Lower(t)[i]
      {
        assert SameIgnoringCase(s[i], t[i]);
      }
    }
  }

  /** `s.endsWith(suffix)`. */
  predicate EndsWith(s: string, suffix: string)
  {
    |suffix| <= |s| && s[|s| - |suffix|..] == suffix
  }

  /** `s.startsWith(prefix)`. */
  predicate StartsWith(s: string, prefix: string)
  {
    |prefix| <= |s| && s[..|prefix|] == prefix
  }

  /** `s.includes(sub)`: `sub` occurs in `s` at some position. */
  predicate Contains(s: string, sub: string)
    decreases |s|
  {
    StartsWith(s, sub) || (|s| > 0 && Contains(s[1..], sub))
  }

  /** A character of `sub` occurs in every string that contains `sub`. */
  lemma {:induction false} ContainsHasChar(s: string, sub: string, j: nat)
    requires j < |sub| && Contains(s, sub)
    ensures sub[j] in s
    decreases |s|
  {
    if StartsWith(s, sub) {
      assert s[j] == sub[j];
    } else {
      ContainsHasChar(s[1..], sub, j);
      var k :| 0 <= k < |s[1..]| && s[1..][k] == sub[j];
      assert s[k + 1] == sub[j];
    }
  }

  /**
   * The characters JavaScript's `trim()` removes and its regular-expression class `\s` matches:
   * WhiteSpace and LineTerminator of ECMA-262.
   */
  predicate IsWhitespace(c: char)
  {
    || c == '\t' || c == '\n' || c == '\U{000B}' || c == '\U{000C}' || c == '\r' || c == ' '
    || c == '\U{00A0}' || c == '\U{1680}' || ('\U{2000}' <= c <= '\U{200A}')
    || c == '\U{2028}' || c == '\U{2029}' || c == '\U{202F}' || c == '\U{205F}' || c == '\U{3000}'
    || c == '\U{FEFF}'
  }

  predicate AllWhitespace(s: string)
  {
    forall i :: 0 <= i < |s| ==> IsWhitespace(s[i])
  }

  /** How many whitespace characters `s` starts with. */
  function Leading(s: string): (n: nat)
    ensures n <= |s|
    ensures forall i :: 0 <= i < n ==> IsWhitespace(s[i])
    ensures n == |s| || !IsWhitespace(s[n])
    decreases |s|
  {
    if |s| > 0 && IsWhitespace(s[0]) then
      var n := Leading(s[1..]);
      assert forall i :: 1 <= i < 1 + n ==> s[i] == s[1..][i - 1];
      1 + n
    else
      0
  }

  /** How many whitespace characters `s` ends with. */
  function Trailing(s: string): (n: nat)
    ensures n <= |s|
    ensures forall i :: |s| - n <= i < |s| ==> IsWhitespace(s[i])
    ensures n == |s| || !IsWhitespace(s[|s| - n - 1])
    decreases |s|
  {
    if |s| > 0 && IsWhitespace(s[|s| - 1]) then
      1 + Trailing(s[..|s| - 1])
    else
      0
  }

  /** `s.trimStart()`: the suffix left after dropping the leading whitespace. */
  function TrimStart(s: string): string
  {
    s[Leading(s)..]
  }

  /** `s.trimEnd()`: the prefix left after dropping the trailing whitespace. */
  function TrimEnd(s: string): string
  {
    s[..|s| - Trailing(s)]
  }

  /** `s.trim()`. */
  function Trim(s: string): string
  {
    TrimEnd(TrimStart(s))
  }

  /** Where `s.trim()` starts and ends inside `s`. */
  lemma TrimBounds(s: string) returns (a: nat, b: nat)
    ensures a <= b <= |s| && Trim(s) == s[a..b]
    ensures AllWhitespace(s[..a]) && AllWhitespace(s[b..])
    ensures a < b ==> !IsWhitespace(s[a]) && !IsWhitespace(s[b - 1])
  {
    var t := TrimStart(s);
    a := Leading(s);
    b := |s| - Trailing(t);
    assert t == s[a..];
    assert Trim(s) == s[a..b];
    assert forall i :: 0 <= i < |s| - b ==> s[b..][i] == t[|t| - Trailing(t) + i];
    if a < b {
      assert s[b - 1] == t[|t| - Trailing(t) - 1];
    }
  }

  /** `s.trim()` is the piece of `s` between its leading and its trailing whitespace. */
  lemma TrimIsInnerSlice(s: string)
    ensures exists a, b ::
              && 0 <= a <= b <= |s| && Trim(s) == s[a..b]
              && AllWhitespace(s[..a]) && AllWhitespace(s[b..])
    ensures Trim(s) == [] || (!IsWhitespace(Trim(s)[0]) && !IsWhitespace(Trim(s)[|Trim(s)| - 1]))
  {
    var a, b := TrimBounds(s);
  }

  /** `!s.trim()` in JavaScript: the trimmed string is empty exactly when `s` is all whitespace. */
  lemma TrimEmptyIff(s: string)
    ensures Trim(s) == [] <==> AllWhitespace(s)
  {
    var a, b := TrimBounds(s);
    if Trim(s) == [] {
      assert s == s[..a] + s[b..];
    }
  }

  /** `s.replace(/\s/g, c)`: every whitespace character replaced by `c`. */
  function ReplaceWhitespace(s: string, c: char): (r: string)
    ensures |r| == |s|
    ensures forall i :: 0 <= i < |s| ==> r[i] == (if IsWhitespace(s[i]) then c else s[i])
  {
    if s == [] then []
    else [if IsWhitespace(s[0]) then c else s[0]] + ReplaceWhitespace(s[1..], c)
  }

  /** A non-empty string of decimal digits. */
  predicate IsDigits(s: string)
  {
    |s| > 0 && forall i :: 0 <= i < |s| ==> '0' <= s[i] <= '9'
  }

  /** The number a string of decimal digits denotes, read most significant digit first. */
  function DigitsValue(s: string): nat
    requires IsDigits(s)
    decreases |s|
  {
    var last := s[|s| - 1] as int - '0' as int;
    if |s| == 1 then last else 10 * DigitsValue(s[..|s| - 1]) + last
  }

  /**
   * The decimal digits of `n`, as template literals print a non-negative integer: digits that
   * denote `n`, with no leading zero.
   */
  function DecimalString(n: nat): (r: string)
    ensures IsDigits(r) && DigitsValue(r) == n
    ensures |r| == 1 || r[0] != '0'
  {
    if n < 10 then [('0' as int + n) as char]
    else
      var prefix := DecimalString(n / 10);
      var r := prefix + [('0' as int + n % 10) as char];
      assert r[..|r| - 1] == prefix;
      r
  }
}
