/**
 * ASCII versions of the JavaScript string primitives the storefront uses:
 * the `\s`, `\d` and `\w` regular-expression classes, `toLowerCase`,
 * `trim` and `replace(/\D/g, '')`. Only ASCII characters are classified;
 * Unicode whitespace and letters are outside the model.
 */
module Ascii {

  /** `\s` and the characters removed by `trim`, restricted to ASCII. */
  predicate IsWhitespace(c: char) {
    c == ' ' || c == '\t' || c == '\n' || c == '\r' || c == '\U{B}' || c == '\U{C}'
  }

  /** `\d` */
  predicate IsDigit(c: char) { '0' <= c <= '9' }

  predicate IsUpper(c: char) { 'A' <= c <= 'Z' }

  predicate IsLower(c: char) { 'a' <= c <= 'z' }

  /** `[a-zA-Z]` */
  predicate IsLetter(c: char) { IsUpper(c) || IsLower(c) }

  /** `\w` */
  predicate IsWordChar(c: char) { IsLetter(c) || IsDigit(c) || c == '_' }

  predicate NoWhitespace(s: string) { forall i :: 0 <= i < |s| ==> !IsWhitespace(s[i]) }

  predicate AllWhitespace(s: string) { forall i :: 0 <= i < |s| ==> IsWhitespace(s[i]) }

  /** `toLowerCase` on one character. */
  function LowerChar(c: char): (r: char)
    ensures !IsUpper(r)
    ensures IsUpper(c) ==> IsLower(r)
    ensures !IsUpper(c) ==> r == c
  {
    if IsUpper(c) then (c as int + 32) as char else c
  }

  /** `toLowerCase` */
  function ToLower(s: string): (r: string)
    ensures |r| == |s|
  {
    seq(|s|, i requires 0 <= i < |s| => LowerChar(s[i]))
  }

  /** The number of whitespace characters `s` starts with. */
  function LeadingWhitespace(s: string): (n: nat)
    ensures n <= |s|
    ensures forall i :: 0 <= i < n ==> IsWhitespace(s[i])
    ensures n < |s| ==> !IsWhitespace(s[n])
  {
    if s == [] || !IsWhitespace(s[0]) then 0 else 1 + LeadingWhitespace(s[1..])
  }

  /** The index just past the last non-whitespace character of `s`. */
  function ContentEnd(s: string): (n: nat)
    ensures n <= |s|
    ensures forall i :: n <= i < |s| ==> IsWhitespace(s[i])
    ensures n > 0 ==> !IsWhitespace(s[n - 1])
  {
    if s == [] || !IsWhitespace(s[|s| - 1]) then |s| else ContentEnd(s[..|s| - 1])
  }

  /** `trimStart` */
  function TrimStart(s: string): string { s[LeadingWhitespace(s)..] }

  /** `trimEnd` */
  function TrimEnd(s: string): string { s[..ContentEnd(s)] }

  /** `trim`: the text between the leading and the trailing whitespace. */
  function Trim(s: string): (r: string)
    ensures |r| <= |s|
    ensures r == [] <==> AllWhitespace(s)
    ensures r != [] ==> !IsWhitespace(r[0]) && !IsWhitespace(r[|r| - 1])
  {
    var t := TrimStart(s);
    var r := TrimEnd(t);
    assert r != [] ==> r[0] == t[0];
    r
  }

  /** `trim` leaves a string alone when it neither starts nor ends with whitespace. */
  lemma TrimUntouched(s: string)
    requires s != [] ==> !IsWhitespace(s[0]) && !IsWhitespace(s[|s| - 1])
    ensures Trim(s) == s
  {
    assert LeadingWhitespace(s) == 0;
    assert TrimStart(s) == s;
  }

  /** `trim` cuts one slice out of `s`, with only whitespace on either side of it. */
  lemma TrimBounds(s: string) returns (lo: nat, hi: nat)
    ensures lo <= hi <= |s| && Trim(s) == s[lo..hi]
    ensures forall i :: 0 <= i < lo ==> IsWhitespace(s[i])
    ensures forall i :: hi <= i < |s| ==> IsWhitespace(s[i])
  {
    lo := LeadingWhitespace(s);
    var t := TrimStart(s);
    hi := lo + ContentEnd(t);
    forall i | hi <= i < |s| ensures IsWhitespace(s[i]) {
      assert s[i] == t[i - lo];
    }
  }

  /**
   * The trimmed text is at least `n` long exactly when two non-whitespace
   * characters of `s` lie at least `n - 1` positions apart.
   */
  lemma TrimSpan(s: string, n: nat)
    requires n >= 1
    ensures |Trim(s)| >= n <==>
      exists i, j :: 0 <= i && i + n - 1 <= j < |s| && !IsWhitespace(s[i]) && !IsWhitespace(s[j])
  {
    var lo, hi := TrimBounds(s);
    var t := Trim(s);
    if |t| >= n {
      assert t[0] == s[lo] && t[|t| - 1] == s[hi - 1];
    }
    if exists i, j :: 0 <= i && i + n - 1 <= j < |s| && !IsWhitespace(s[i]) && !IsWhitespace(s[j]) {
      var i, j :| 0 <= i && i + n - 1 <= j < |s| && !IsWhitespace(s[i]) && !IsWhitespace(s[j]);
      assert lo <= i && j < hi;
    }
  }

  /** `replace(/\D/g, '')`: the digits of `s`, in order. */
  function DigitsOnly(s: string): (r: string)
    ensures |r| <= |s|
    ensures forall i :: 0 <= i < |r| ==> IsDigit(r[i])
  {
    if s == [] then []
    else (if IsDigit(s[0]) then [s[0]] else []) + DigitsOnly(s[1..])
  }

  lemma {:induction false} DigitsOnlyConcat(a: string, b: string)
    ensures DigitsOnly(a + b) == DigitsOnly(a) + DigitsOnly(b)
  {
    if a == [] {
      assert a + b == b;
    } else {
      assert (a + b)[0] == a[0];
      assert (a + b)[1..] == a[1..] + b;
      DigitsOnlyConcat(a[1..], b);
    }
  }

  /** Removing whitespace at either end keeps every digit. */
  lemma DigitsOnlyTrim(s: string)
    ensures DigitsOnly(Trim(s)) == DigitsOnly(s)
  {
    var t := TrimStart(s);
    DigitsOnlyTrimStart(s);
    DigitsOnlyTrimEnd(t);
  }

  lemma DigitsOnlyTrimStart(s: string)
    ensures DigitsOnly(TrimStart(s)) == DigitsOnly(s)
  {
    var k := LeadingWhitespace(s);
    assert s == s[..k] + s[k..];
    DigitsOnlyConcat(s[..k], s[k..]);
    NoDigitsInWhitespace(s[..k]);
  }

  lemma DigitsOnlyTrimEnd(t: string)
    ensures DigitsOnly(TrimEnd(t)) == DigitsOnly(t)
  {
    var k := ContentEnd(t);
    assert t == t[..k] + t[k..];
    DigitsOnlyConcat(t[..k], t[k..]);
    NoDigitsInWhitespace(t[k..]);
  }

  lemma {:induction false} NoDigitsInWhitespace(s: string)
    requires AllWhitespace(s)
    ensures DigitsOnly(s) == []
  {
    if s != [] { NoDigitsInWhitespace(s[1..]); }
  }

  /** A string made only of digits is its own digit string. */
  lemma {:induction false} DigitsOnlyOfDigits(s: string)
    requires forall i :: 0 <= i < |s| ==> IsDigit(s[i])
    ensures DigitsOnly(s) == s
  {
    if s != [] { DigitsOnlyOfDigits(s[1..]); }
  }

  /** A string whose trim is empty holds no digit. */
  lemma DigitsOfBlank(s: string)
    requires Trim(s) == []
    ensures DigitsOnly(s) == []
  {
    NoDigitsInWhitespace(s);
  }
}
