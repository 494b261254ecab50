/**
 * The few JavaScript string operations the front end relies on:
 * `startsWith`, `trim`, `split(" ")`, `join`, `Number.parseInt` on a
 * decimal page number and `toString` of a natural number.
 */
module Strings {

  import opened Wrappers

  /** `s.startsWith(prefix)`. */
  predicate StartsWith(s: string, prefix: string) {
    |prefix| <= |s| && s[..|prefix|] == prefix
  }

  /** Starting with a longer prefix implies starting with each of its own prefixes. */
  lemma StartsWithTransitive(s: string, p: string, q: string)
    requires StartsWith(s, p) && StartsWith(p, q)
    ensures StartsWith(s, q)
  {
    assert s[..|q|] == s[..|p|][..|q|];
  }

  // ---------------------------------------------------------------------------
  // trim()

  /** The characters `String.prototype.trim` removes: white space and line terminators. */
  predicate IsJsWhitespace(c: char) {
    || c == '\t' || c == '\n' || c == '\U{B}' || c == '\U{C}' || c == '\r' || c == ' '
    || c == '\U{A0}' || c == '\U{1680}' || ('\U{2000}' <= c <= '\U{200A}')
    || c == '\U{2028}' || c == '\U{2029}' || c == '\U{202F}' || c == '\U{205F}'
    || c == '\U{3000}' || c == '\U{FEFF}'
  }

  predicate AllWhitespace(s: string) {
    forall i :: 0 <= i < |s| ==> IsJsWhitespace(s[i])
  }

  /** Leading white space removed: a suffix of `s` that is empty exactly when `s` is all white space. */
  function TrimStart(s: string): (r: string)
    ensures |r| <= |s| && r == s[|s| - |r|..]
    ensures r == [] <==> AllWhitespace(s)
    ensures r != [] ==> !IsJsWhitespace(r[0])
  {
    if s != [] && IsJsWhitespace(s[0]) then TrimStart(s[1..]) else s
  }

  /** A white-space character in front of white space is still white space. */
  lemma WhitespaceCons(c: char, w: string)
    requires IsJsWhitespace(c) && AllWhitespace(w)
    ensures AllWhitespace([c] + w)
  {
    var cw := [c] + w;
    forall m | 0 <= m < |cw| ensures IsJsWhitespace(cw[m]) {
      if m > 0 {
        assert cw[m] == w[m - 1];
      }
    }
  }

  /** Only white space is dropped from the front: the cut-off prefix is all white space. */
  lemma {:induction false} TrimStartDropsOnlyWhite(s: string)
    ensures AllWhitespace(s[..|s| - |TrimStart(s)|])
  {
    if s != [] && IsJsWhitespace(s[0]) {
      var t := s[1..];
      var k := |t| - |TrimStart(t)|;
      TrimStartDropsOnlyWhite(t);
      WhitespaceCons(s[0], t[..k]);
      assert s[..k + 1] == [s[0]] + t[..k];
    }
  }

  /** Trailing white space removed: a prefix of `s` that is empty exactly when `s` is all white space. */
  function TrimEnd(s: string): (r: string)
    ensures |r| <= |s| && r == s[..|r|]
    ensures r == [] <==> AllWhitespace(s)
    ensures r != [] ==> !IsJsWhitespace(r[|r| - 1])
    ensures AllWhitespace(s[|r|..])
  {
    if s != [] && IsJsWhitespace(s[|s| - 1]) then TrimEnd(s[..|s| - 1]) else s
  }

  /** `s.trim()`: no longer than `s`, and empty exactly when `s` is all white space. */
  function Trim(s: string): (t: string)
    ensures |t| <= |s|
    ensures t == [] <==> AllWhitespace(s)
  {
    TrimEnd(TrimStart(s))
  }

  /** `!s.trim()`: blank after trimming, which is exactly when every character is white space. */
  predicate IsBlank(s: string): (b: bool)
    ensures b <==> AllWhitespace(s)
  {
    Trim(s) == ""
  }

  /**
   * A trimmed string neither starts nor ends with white space, and is a
   * contiguous piece of the input with only white space cut off either side.
   */
  lemma TrimIsInfix(s: string)
    ensures Trim(s) != [] ==> !IsJsWhitespace(Trim(s)[0]) && !IsJsWhitespace(Trim(s)[|Trim(s)| - 1])
    ensures exists i, j ::
              0 <= i <= j <= |s| && Trim(s) == s[i..j] && AllWhitespace(s[..i]) && AllWhitespace(s[j..])
  {
    var t := TrimStart(s);
    var r := TrimEnd(t);
    var i := |s| - |t|;
    TrimStartDropsOnlyWhite(s);
    assert r == s[i..i + |r|];
    assert s[i + |r|..] == t[|r|..];
  }

  // ---------------------------------------------------------------------------
  // split(" ") and join

  /** `s.split(" ")`: never empty, and no part contains a space. */
  function SplitSpaces(s: string): (parts: seq<string>)
    ensures |parts| >= 1
    ensures forall k :: 0 <= k < |parts| ==> ' ' !in parts[k]
  {
    if s == [] then [""]
    else
      var rest := SplitSpaces(s[1..]);
      if s[0] == ' ' then [""] + rest
      else [[s[0]] + rest[0]] + rest[1..]
  }

  /** `parts.join(" ")`. */
  function JoinSpaces(parts: seq<string>): (s: string)
    requires |parts| >= 1
  {
    if |parts| == 1 then parts[0] else parts[0] + " " + JoinSpaces(parts[1..])
  }

  /** Splitting on spaces loses nothing: joining the parts back gives the original string. */
  lemma {:induction false} JoinSplit(s: string)
    ensures JoinSpaces(SplitSpaces(s)) == s
  {
    if s != [] {
      var rest := SplitSpaces(s[1..]);
      JoinSplit(s[1..]);
      if s[0] == ' ' {
        assert SplitSpaces(s)[1..] == rest;
      } else {
        var parts := SplitSpaces(s);
        assert parts[1..] == rest[1..];
        if |rest| > 1 {
          assert JoinSpaces(rest) == rest[0] + " " + JoinSpaces(rest[1..]);
        }
      }
    }
  }

  // ---------------------------------------------------------------------------
  // Decimal numbers

  predicate IsDigit(c: char) {
    '0' <= c <= '9'
  }

  predicate AllDigits(s: string) {
    forall i :: 0 <= i < |s| ==> IsDigit(s[i])
  }

  function DigitChar(d: nat): (c: char)
    requires d < 10
    ensures IsDigit(c) && c as int - '0' as int == d
  {
    (d + '0' as int) as char
  }

  /** `n.toString()` for a natural number: a non-empty string of decimal digits. */
  function NatToString(n: nat): (s: string)
    ensures |s| >= 1 && AllDigits(s)
  {
    if n < 10 then [DigitChar(n)] else NatToString(n / 10) + [DigitChar(n % 10)]
  }

  /** The value of a string of decimal digits. */
  function DigitsValue(s: string): (v: nat)
    requires AllDigits(s)
  {
    if s == [] then 0 else DigitsValue(s[..|s| - 1]) * 10 + (s[|s| - 1] as int - '0' as int)
  }

  /** The length of the run of decimal digits at the start of `s`. */
  function LeadingDigits(s: string): (k: nat)
    ensures k <= |s| && AllDigits(s[..k])
    ensures k < |s| ==> !IsDigit(s[k])
  {
    if s != [] && IsDigit(s[0]) then
      var k := 1 + LeadingDigits(s[1..]);
      assert s[..k] == [s[0]] + s[1..][..k - 1];
      k
    else 0
  }

  /**
   * `Number.parseInt(s, 10)` on a string without sign or leading white space:
   * the value of the leading digits, or `None` (NaN) when there are none.
   */
  function ParseDecimal(s: string): (p: Option<nat>)
    ensures p.None? <==> s == [] || !IsDigit(s[0])
  {
    var k := LeadingDigits(s);
    if k == 0 then None else Some(DigitsValue(s[..k]))
  }

  /** On a string of digits, the leading run is the whole string. */
  lemma {:induction false} LeadingDigitsOfDigits(s: string)
    requires AllDigits(s)
    ensures LeadingDigits(s) == |s|
  {
    if s != [] {
      LeadingDigitsOfDigits(s[1..]);
    }
  }

  /** Printing a natural number and parsing it back gives the number again. */
  lemma {:induction false} ParsePrintedNat(n: nat)
    ensures ParseDecimal(NatToString(n)) == Some(n)
  {
    var s := NatToString(n);
    LeadingDigitsOfDigits(s);
    assert s[..|s|] == s;
    ValueOfPrinted(n);
  }

  lemma {:induction false} ValueOfPrinted(n: nat)
    ensures DigitsValue(NatToString(n)) == n
  {
    if n >= 10 {
      var s := NatToString(n);
      ValueOfPrinted(n / 10);
      assert s[..|s| - 1] == NatToString(n / 10);
    }
  }
}
