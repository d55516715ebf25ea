/** String helpers with the meaning JavaScript gives them: `String.prototype.trim`,
    `startsWith`, `split(c).pop()`, ASCII `toLowerCase`, `\d`, and the decimal
    rendering of integers used by template literals. */
module Text {

  /** The characters `trim` removes: WhiteSpace and LineTerminator of ECMAScript
      (tab, VT, FF, space, NBSP, ZWNBSP and Unicode category Zs, LF, CR, LS, PS). */
  predicate IsWhitespace(c: char) {
    c == ' ' || c == '\t' || c == '\n' || c == '\U{000B}' || c == '\U{000C}' || c == '\r'
    || c == '\U{00A0}' || c == '\U{1680}' || ('\U{2000}' <= c <= '\U{200A}')
    || c == '\U{2028}' || c == '\U{2029}' || c == '\U{202F}' || c == '\U{205F}'
    || c == '\U{3000}' || c == '\U{FEFF}'
  }

  /** `\d` of a regular expression without the `u` flag. */
  predicate IsDigit(c: char) {
    '0' <= c <= '9'
  }

  function TrimStart(s: string): (r: string)
    ensures |r| <= |s| && r == s[|s| - |r|..]
    ensures r == [] || !IsWhitespace(r[0])
    ensures forall i :: 0 <= i < |s| - |r| ==> IsWhitespace(s[i])
  {
    if s != [] && IsWhitespace(s[0]) then TrimStart(s[1..]) else s
  }

  function TrimEnd(s: string): (r: string)
    ensures |r| <= |s| && r == s[..|r|]
    ensures r == [] || !IsWhitespace(r[|r| - 1])
    ensures forall i :: |r| <= i < |s| ==> IsWhitespace(s[i])
  {
    if s != [] && IsWhitespace(s[|s| - 1]) then TrimEnd(s[..|s| - 1]) else s
  }

  /** `s.trim()` */
  function Trim(s: string): (r: string)
    ensures |r| <= |s|
    ensures r == [] || (!IsWhitespace(r[0]) && !IsWhitespace(r[|r| - 1]))
  {
    var t := TrimStart(s);
    var r := TrimEnd(t);
    assert r != [] ==> r[0] == t[0];
    r
  }

  /** A string that neither starts nor ends with whitespace is its own trim. */
  lemma TrimOfTrimmed(s: string)
    requires s == [] || (!IsWhitespace(s[0]) && !IsWhitespace(s[|s| - 1]))
    ensures Trim(s) == s
  {
  }

  lemma TrimIdempotent(s: string)
    ensures Trim(Trim(s)) == Trim(s)
  {
    TrimOfTrimmed(Trim(s));
  }

  /** A string made only of whitespace trims to the empty string, and conversely. */
  lemma {:induction false} TrimEmptyIffBlank(s: string)
    ensures Trim(s) == [] <==> forall i :: 0 <= i < |s| ==> IsWhitespace(s[i])
  {
    var t := TrimStart(s);
    if t != [] {
      assert !IsWhitespace(t[0]);
      assert t[0] == s[|s| - |t|];
    }
  }

  predicate StartsWith(s: string, prefix: string) {
    |prefix| <= |s| && s[..|prefix|] == prefix
  }

  /** `s.split(c).pop()`: the text after the last `c`, or all of `s` when it has no `c`. */
  function AfterLast(s: string, c: char): (r: string)
    ensures c !in r
    ensures |r| <= |s| && r == s[|s| - |r|..]
    ensures |r| < |s| ==> s[|s| - |r| - 1] == c
  {
    if s == [] then []
    else if s[|s| - 1] == c then []
    else AfterLast(s[..|s| - 1], c) + [s[|s| - 1]]
  }

  /** Whatever precedes the last `c`, `split(c).pop()` yields the text after it. */
  lemma {:induction false} AfterLastOf(s: string, c: char, t: string)
    requires c !in t
    ensures AfterLast(s + [c] + t, c) == t
  {
    if t != [] {
      var u := s + [c] + t;
      assert u[..|u| - 1] == s + [c] + t[..|t| - 1];
      AfterLastOf(s, c, t[..|t| - 1]);
    }
  }

  /** `toLowerCase` restricted to the ASCII letters. */
  function ToLowerAscii(s: string): (r: string)
    ensures |r| == |s|
    ensures forall i :: 0 <= i < |s| ==> r[i] == (if 'A' <= s[i] <= 'Z' then (s[i] as int + 32) as char else s[i])
  {
    if s == [] then []
    else
      var c := s[0];
      [if 'A' <= c <= 'Z' then (c as int + 32) as char else c] + ToLowerAscii(s[1..])
  }

  /** `s.replace(/\D/g, '')`: the digits of `s`, in order. */
  function Digits(s: string): (r: string)
    ensures |r| <= |s|
    ensures forall i :: 0 <= i < |r| ==> IsDigit(r[i])
  {
    if s == [] then []
    else (if IsDigit(s[0]) then [s[0]] else []) + Digits(s[1..])
  }

  /** A string of digits is its own digit filter. */
  lemma {:induction false} DigitsOfDigits(s: string)
    requires forall i :: 0 <= i < |s| ==> IsDigit(s[i])
    ensures Digits(s) == s
  {
    if s != [] {
      DigitsOfDigits(s[1..]);
    }
  }

  lemma {:induction false} DigitsAppend(a: string, b: string)
    ensures Digits(a + b) == Digits(a) + Digits(b)
  {
    if a == [] {
      assert a + b == b;
    } else {
      assert (a + b)[1..] == a[1..] + b;
      DigitsAppend(a[1..], b);
    }
  }

  /** The decimal digits of a natural number, as `String(n)` renders it. */
  function NatToString(n: nat): (r: string)
    ensures |r| >= 1
    ensures forall i :: 0 <= i < |r| ==> IsDigit(r[i])
  {
    if n < 10 then [DigitChar(n)] else NatToString(n / 10) + [DigitChar(n % 10)]
  }

  function DigitChar(d: nat): (c: char)
    requires d < 10
    ensures IsDigit(c)
  {
    ('0' as int + d) as char
  }

  /** `String(i)` for an integer: a minus sign before the digits of a negative one. */
  function IntToString(i: int): (r: string)
    ensures |r| >= 1
  {
    if i < 0 then "-" + NatToString(-i) else NatToString(i)
  }

  /** A number below 10^k, and at least 10^(k-1) when k > 1, has exactly k digits. */
  lemma {:induction false} NatToStringLength(n: nat, k: nat)
    requires k >= 1 && n < Pow10(k)
    requires k == 1 || Pow10(k - 1) <= n
    ensures |NatToString(n)| == k
  {
    if k > 1 {
      assert Pow10(k) == 10 * Pow10(k - 1);
      assert Pow10(k - 1) >= 10 by { Pow10Grows(k - 1); }
      assert n / 10 < Pow10(k - 1);
      if k > 2 {
        assert Pow10(k - 1) == 10 * Pow10(k - 2);
      }
      NatToStringLength(n / 10, k - 1);
    }
  }

  lemma {:induction false} Pow10Grows(k: nat)
    requires k >= 1
    ensures Pow10(k) >= 10
  {
    if k > 1 { Pow10Grows(k - 1); }
  }

  function Pow10(k: nat): (r: nat)
    ensures r >= 1
  {
    if k == 0 then 1 else 10 * Pow10(k - 1)
  }

  /** `s.padStart(2, "0")` */
  function PadStart2(s: string): (r: string)
    ensures |r| == if |s| >= 2 then |s| else 2
    ensures r[|r| - |s|..] == s
    ensures forall i :: 0 <= i < |r| - |s| ==> r[i] == '0'
  {
    if |s| >= 2 then s else if |s| == 1 then "0" + s else "00"
  }

  function Min(a: int, b: int): int {
    if a <= b then a else b
  }

  /** `s.slice(desde, hasta)` for non-negative bounds, which it clamps to the
      length. */
  function Slice(s: string, desde: nat, hasta: nat): (r: string)
    ensures desde <= hasta <= |s| ==> r == s[desde..hasta]
    ensures desde <= |s| && hasta > |s| ==> r == s[desde..]
    ensures hasta <= desde || |s| <= desde ==> r == []
  {
    var a, b := Min(desde, |s|), Min(hasta, |s|);
    if b <= a then [] else s[a..b]
  }

  /** `s.slice(desde)` for a non-negative start. */
  function SliceFrom(s: string, desde: nat): (r: string)
    ensures desde <= |s| ==> r == s[desde..]
    ensures desde >= |s| ==> r == []
  {
    s[Min(desde, |s|)..]
  }
}
