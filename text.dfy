/** String helpers that stand for the JavaScript built-ins the pages rely on:
    `String.prototype.trim` (used by every "is this field blank?" guard) and the
    decimal rendering of a number inside a template literal. */
module Text {

  /** The characters `trim` removes: ECMAScript's WhiteSpace (TAB, VT, FF,
      ZWNBSP and the space separators of category Zs) and LineTerminator
      (LF, CR, LINE SEPARATOR, PARAGRAPH SEPARATOR). */
  const WHITESPACE: set<int> :=
    {0x09, 0x0B, 0x0C, 0x20, 0xA0, 0xFEFF, 0x1680, 0x202F, 0x205F, 0x3000,
     0x2000, 0x2001, 0x2002, 0x2003, 0x2004, 0x2005, 0x2006, 0x2007, 0x2008, 0x2009, 0x200A,
     0x0A, 0x0D, 0x2028, 0x2029}

  predicate IsWhitespace(c: char) {
    c as int in WHITESPACE
  }

  /** Every character of `s` is whitespace (vacuously true of ""). */
  predicate AllWhitespace(s: string) {
    forall i :: 0 <= i < |s| ==> IsWhitespace(s[i])
  }

  /** The first index at or after `i` that does not hold whitespace (|s| if
      there is none): the scan `trim` makes from the left. */
  function SkipStart(s: string, i: nat): (a: nat)
    requires i <= |s|
    ensures i <= a <= |s|
    ensures forall k :: i <= k < a ==> IsWhitespace(s[k])
    ensures a < |s| ==> !IsWhitespace(s[a])
    decreases |s| - i
  {
    if i < |s| && IsWhitespace(s[i]) then SkipStart(s, i + 1) else i
  }

  /** The least end `b` with `lo <= b <= j` such that `s[b..j]` is all
      whitespace: the scan `trim` makes from the right, stopping at `lo`. */
  function SkipEnd(s: string, lo: nat, j: nat): (b: nat)
    requires lo <= j <= |s|
    ensures lo <= b <= j
    ensures forall k :: b <= k < j ==> IsWhitespace(s[k])
    ensures b > lo ==> !IsWhitespace(s[b - 1])
    decreases j
  {
    if j > lo && IsWhitespace(s[j - 1]) then SkipEnd(s, lo, j - 1) else j
  }

  /** `s.trim()`: the slice of `s` left after dropping whitespace at both ends.
      Everything cut off is whitespace; what is left is empty exactly when `s`
      is made of whitespace only, and otherwise neither starts nor ends with
      whitespace. */
  function Trim(s: string): (r: string)
    ensures r == [] <==> AllWhitespace(s)
    ensures r != [] ==> !IsWhitespace(r[0]) && !IsWhitespace(r[|r| - 1])
  {
    var a := SkipStart(s, 0);
    var b := SkipEnd(s, a, |s|);
    assert a == b ==> a == |s|;
    s[a..b]
  }

  /** What `trim` cuts off is whitespace: `s` is some whitespace, then
      `Trim(s)`, then some more whitespace. */
  lemma TrimCutsOnlyWhitespace(s: string)
    ensures exists p, q :: s == p + Trim(s) + q && AllWhitespace(p) && AllWhitespace(q)
  {
    var a := SkipStart(s, 0);
    var b := SkipEnd(s, a, |s|);
    var p, q := s[..a], s[b..];
    assert Trim(s) == s[a..b];
    assert s == p + Trim(s) + q;
    assert AllWhitespace(q) by {
      forall k | 0 <= k < |q| ensures IsWhitespace(q[k]) {
        assert q[k] == s[b + k];
      }
    }
    assert s == p + Trim(s) + q && AllWhitespace(p) && AllWhitespace(q);
  }

  /** The JavaScript test `!s.trim()`: the trimmed string is the falsy "".
      A field is blank exactly when it holds whitespace only. */
  predicate IsBlank(s: string)
    ensures IsBlank(s) <==> AllWhitespace(s)
  {
    Trim(s) == []
  }

  /** The decimal digit character for `d`. */
  function DigitChar(d: nat): (c: char)
    requires d < 10
    ensures '0' <= c <= '9' && c as int - '0' as int == d
  {
    (('0' as int) + d) as char
  }

  /** The value of a string of decimal digits. */
  function DigitsValue(s: string): nat
    requires forall i :: 0 <= i < |s| ==> '0' <= s[i] <= '9'
  {
    if s == [] then 0
    else DigitsValue(s[..|s| - 1]) * 10 + (s[|s| - 1] as int - '0' as int)
  }

  /** How JavaScript renders a non-negative integer in a template literal:
      its shortest decimal representation, which is made of digits only,
      has no leading zero (except "0" itself) and reads back as `n`. */
  function NatToString(n: nat): (r: string)
    ensures |r| >= 1
    ensures forall i :: 0 <= i < |r| ==> '0' <= r[i] <= '9'
    ensures r[0] == '0' ==> n == 0 && r == "0"
  {
    if n < 10 then [DigitChar(n)] else NatToString(n / 10) + [DigitChar(n % 10)]
  }

  /** Reading the decimal rendering back gives the number. */
  lemma {:induction false} NatToStringRoundTrip(n: nat)
    ensures DigitsValue(NatToString(n)) == n
  {
    var r := NatToString(n);
    if n >= 10 {
      NatToStringRoundTrip(n / 10);
      assert r[..|r| - 1] == NatToString(n / 10);
    }
  }

  /** Distinct numbers render as distinct strings. */
  lemma NatToStringInjective(a: nat, b: nat)
    requires NatToString(a) == NatToString(b)
    ensures a == b
  {
    NatToStringRoundTrip(a);
    NatToStringRoundTrip(b);
  }
}
