/** Positional notation: the decimal and hexadecimal printing that ids, timestamps and framing rely on. */
module Digits {
  import opened Wrappers

  /** The two bases in use. */
  predicate Base(b: nat) { b == 10 || b == 16 }

  function Pow(b: nat, w: nat): (r: nat) {
    if w == 0 then 1 else b * Pow(b, w - 1)
  }

  function DigitChar(d: nat): char
    requires d < 16
  {
    if d < 10 then '0' + d as char else 'a' + (d - 10) as char
  }

  /** The value of a digit in either letter case, or None for any other character. */
  function DigitValue(c: char): Option<nat> {
    if '0' <= c <= '9' then Some((c - '0') as nat)
    else if 'a' <= c <= 'f' then Some((c - 'a') as nat + 10)
    else if 'A' <= c <= 'F' then Some((c - 'A') as nat + 10)
    else None
  }

  predicate IsDigits(s: string, b: nat) {
    forall i :: 0 <= i < |s| ==> DigitValue(s[i]).Some? && DigitValue(s[i]).value < b
  }

  /** Exactly `w` digits, zero padded. */
  function Fixed(n: nat, b: nat, w: nat): (s: string)
    requires Base(b)
    ensures |s| == w && IsDigits(s, b)
    ensures forall i :: 0 <= i < w ==> s[i] in "0123456789abcdef"
  {
    if w == 0 then "" else Fixed(n / b, b, w - 1) + [DigitChar(n % b)]
  }

  /** The shortest decimal spelling. */
  function Decimal(n: nat): (s: string)
    ensures s != "" && IsDigits(s, 10)
  {
    if n < 10 then [DigitChar(n)] else Decimal(n / 10) + [DigitChar(n % 10)]
  }

  function Value(s: string, b: nat): nat
    requires IsDigits(s, b)
  {
    if s == "" then 0 else Value(s[..|s| - 1], b) * b + DigitValue(s[|s| - 1]).value
  }

  lemma {:induction false} FixedRoundTrip(n: nat, b: nat, w: nat)
    requires Base(b) && n < Pow(b, w)
    ensures Value(Fixed(n, b, w), b) == n
  {
    if w != 0 {
      Quotient(n, b, Pow(b, w - 1));
      FixedRoundTrip(n / b, b, w - 1);
      var s := Fixed(n, b, w);
      assert s[..|s| - 1] == Fixed(n / b, b, w - 1);
    }
  }

  lemma Quotient(n: nat, b: nat, p: nat)
    requires Base(b) && n < b * p
    ensures n / b < p && n == n / b * b + n % b
  {
  }

  lemma {:induction false} DecimalRoundTrip(n: nat)
    ensures Value(Decimal(n), 10) == n
  {
    if n >= 10 {
      DecimalRoundTrip(n / 10);
      var s := Decimal(n);
      assert s[..|s| - 1] == Decimal(n / 10);
    } else {
      assert Decimal(n)[..0] == "";
    }
  }

  /** The digits in order of value. */
  lemma HexDigits()
    ensures forall d: nat :: d < 16 ==> DigitChar(d) == "0123456789abcdef"[d]
  {
  }
}
