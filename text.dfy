/**
 * The string builders the storefront uses to make identifiers: printing a
 * number in a radix (JavaScript's template literals and
 * `Number.prototype.toString(36)`), slicing (`String.prototype.substring`,
 * Python's `s[:n]`) and upper-casing (`toUpperCase`, Python's `upper`).
 */
module Text {
  import Seqs

  /** `p` is a prefix of `s`. */
  predicate StartsWith(s: string, p: string) {
    |p| <= |s| && s[..|p|] == p
  }

  // ---------------------------------------------------------------------
  // Numbers in a radix

  /** `c` is a digit of `radix` as JavaScript prints them: 0-9, then a-z. */
  predicate IsDigit(c: char, radix: nat) {
    || ('0' <= c <= '9' && (c as int) - ('0' as int) < radix)
    || ('a' <= c <= 'z' && (c as int) - ('a' as int) + 10 < radix)
  }

  function DigitChar(d: nat): (c: char)
    requires d < 36
    ensures DigitValue(c) == d
    ensures forall radix :: d < radix ==> IsDigit(c, radix)
    ensures c == '0' <==> d == 0
  {
    if d < 10 then ((('0' as int) + d) as char) else ((('a' as int) + d - 10) as char)
  }

  function DigitValue(c: char): nat {
    if '0' <= c <= '9' then (c as int) - ('0' as int)
    else if 'a' <= c <= 'z' then (c as int) - ('a' as int) + 10
    else 0
  }

  /**
   * `n` written in `radix`, most significant digit first: `String(n)` for
   * radix 10, `n.toString(36)` for radix 36. Only zero starts with '0'.
   */
  function Radix(n: nat, radix: nat): (s: string)
    requires 2 <= radix <= 36
    ensures s != []
    ensures forall i :: 0 <= i < |s| ==> IsDigit(s[i], radix)
    ensures s[0] == '0' <==> n == 0
    decreases n
  {
    if n < radix then [DigitChar(n)]
    else
      DivMod(n, radix);
      Radix(n / radix, radix) + [DigitChar(n % radix)]
  }

  lemma DivMod(n: nat, radix: nat)
    requires 2 <= radix <= n
    ensures 1 <= n / radix < n
    ensures n % radix < radix
    ensures n == (n / radix) * radix + n % radix
  {
  }

  /** The number a string of digits denotes in `radix` (the inverse of `Radix`). */
  function Value(s: string, radix: nat): nat {
    if s == [] then 0 else Value(s[..|s| - 1], radix) * radix + DigitValue(s[|s| - 1])
  }

  /** Reading back a printed number gives the number. */
  lemma {:induction false} RadixRoundTrip(n: nat, radix: nat)
    requires 2 <= radix <= 36
    ensures Value(Radix(n, radix), radix) == n
  {
    if n >= radix {
      var s := Radix(n / radix, radix);
      var t := s + [DigitChar(n % radix)];
      DivMod(n, radix);
      assert t == Radix(n, radix);
      assert t[..|t| - 1] == s;
      RadixRoundTrip(n / radix, radix);
      var q, d := n / radix, n % radix;
      assert Value(t, radix) == Value(s, radix) * radix + DigitValue(DigitChar(d));
      assert Value(t, radix) == q * radix + d;
    }
  }

  /** Different numbers print differently. */
  lemma RadixInjective(m: nat, n: nat, radix: nat)
    requires 2 <= radix <= 36
    requires Radix(m, radix) == Radix(n, radix)
    ensures m == n
  {
    RadixRoundTrip(m, radix);
    RadixRoundTrip(n, radix);
  }

  // ---------------------------------------------------------------------
  // Slicing

  /** `s.substring(0, n)` in JavaScript, `s[:n]` in Python: at most `n` leading characters. */
  function Prefix(s: string, n: nat): (r: string)
    ensures |r| == if n <= |s| then n else |s|
    ensures StartsWith(s, r)
  {
    if n <= |s| then s[..n] else s
  }

  /**
   * `s.substring(start, end)` in JavaScript: both bounds are clamped to
   * `[0, |s|]` and swapped when `start` exceeds `end`.
   */
  function Substring(s: string, start: int, end: int): (r: string)
    ensures |r| <= |s|
    ensures 0 <= start <= end ==> |r| <= end - start
    ensures 0 <= start <= end <= |s| ==> r == s[start..end]
    ensures 0 <= start <= |s| <= end ==> r == s[start..]
    ensures end <= 0 <= start <= |s| ==> r == s[..start]
    ensures 0 <= end <= start <= |s| ==> r == s[end..start]
    ensures start < 0 <= end <= |s| ==> r == s[..end]
    ensures (start <= 0 && end <= 0) || (|s| <= start && |s| <= end) ==> r == []
  {
    var a := Clamp(start, |s|);
    var b := Clamp(end, |s|);
    if a <= b then s[a..b] else s[b..a]
  }

  function Clamp(i: int, len: nat): (r: nat)
    ensures r <= len
  {
    if i < 0 then 0 else if i > len then len else i
  }

  // ---------------------------------------------------------------------
  // Upper case

  /** Upper-casing of one character; only ASCII letters are mapped. */
  function UpperChar(c: char): char {
    if 'a' <= c <= 'z' then ((c as int) - 32) as char else c
  }

  predicate IsLower(c: char) {
    'a' <= c <= 'z'
  }

  /** `s.toUpperCase()` / `s.upper()` on ASCII text. */
  function ToUpper(s: string): (r: string)
    ensures |r| == |s|
  {
    Seqs.Map(s, UpperChar)
  }

  /** Upper-casing leaves no lower-case letter behind. */
  lemma ToUpperHasNoLower(s: string)
    ensures forall i :: 0 <= i < |s| ==> !IsLower(ToUpper(s)[i])
  {
  }

  /** A string without lower-case letters is its own upper case. */
  lemma ToUpperFixes(s: string)
    requires forall i :: 0 <= i < |s| ==> !IsLower(s[i])
    ensures ToUpper(s) == s
  {
  }

  /** Upper-casing works character by character, so it distributes over concatenation. */
  lemma ToUpperConcat(a: string, b: string)
    ensures ToUpper(a + b) == ToUpper(a) + ToUpper(b)
  {
  }
}
