/** Amounts are exact integers in agorot (hundredths of a shekel). This module
    renders them the way `f"{x:.2f}"` renders a two-decimal amount and reads
    such a rendering back. */
module Decimal {
  import opened Wrappers

  predicate IsDigit(c: char)
  {
    '0' <= c <= '9'
  }

  predicate AllDigits(s: string)
  {
    forall i :: 0 <= i < |s| ==> IsDigit(s[i])
  }

  function DigitChar(d: nat): (c: char)
    requires d < 10
    ensures IsDigit(c) && c as int - '0' as int == d
  {
    ('0' as int + d) as char
  }

  function DigitValue(c: char): nat
    requires IsDigit(c)
  {
    c as int - '0' as int
  }

  /** Decimal digits of `n`, without leading zeros ("0" for zero). */
  function NatToString(n: nat): (s: string)
    ensures |s| > 0 && AllDigits(s)
    ensures |s| == 1 <==> n < 10
    ensures n > 0 ==> s[0] != '0'
    decreases n
  {
    if n < 10 then [DigitChar(n)] else NatToString(n / 10) + [DigitChar(n % 10)]
  }

  function ParseNat(s: string): nat
    requires AllDigits(s)
    decreases |s|
  {
    if |s| == 0 then 0 else ParseNat(s[..|s| - 1]) * 10 + DigitValue(s[|s| - 1])
  }

  lemma {:induction false} ParseNatToString(n: nat)
    ensures ParseNat(NatToString(n)) == n
    decreases n
  {
    var s := NatToString(n);
    if n >= 10 {
      assert s[..|s| - 1] == NatToString(n / 10);
      ParseNatToString(n / 10);
    }
  }

  /** The two agorot digits of `m`. */
  function Frac(m: nat): (f: string)
    ensures |f| == 2 && AllDigits(f)
  {
    [DigitChar(m % 100 / 10), DigitChar(m % 10)]
  }

  /** The rendering of a non-negative amount: whole shekels, a point and
      the agorot digits. */
  function Unsigned(m: nat): (s: string)
    ensures |s| >= 4 && s[|s| - 3] == '.' && IsDigit(s[0])
    ensures forall i :: 0 <= i < |s| ==> IsDigit(s[i]) || s[i] == '.'
    ensures forall i :: 0 <= i < |s| && i != |s| - 3 ==> IsDigit(s[i])
    ensures |s| > 4 ==> s[0] != '0'
  {
    NatToString(m / 100) + "." + Frac(m)
  }

  /** `f"{a / 100:.2f}"`: optional minus sign, whole shekels without a
      leading zero, a point and exactly two digits of agorot. */
  function FormatCents(a: int): (s: string)
    ensures |s| >= 4 && s[|s| - 3] == '.'
    ensures forall i :: 0 <= i < |s| ==> IsDigit(s[i]) || s[i] == '.' || s[i] == '-'
    ensures (s[0] == '-') <==> a < 0
    ensures forall i :: 0 <= i < |s| && i != |s| - 3 && !(i == 0 && a < 0) ==> IsDigit(s[i])
    ensures var w := if a < 0 then 1 else 0;
            |s| - w > 4 ==> s[w] != '0'
  {
    if a < 0 then "-" + Unsigned(-a) else Unsigned(a)
  }

  /** Reads an amount written as FormatCents writes it. */
  function ParseCents(s: string): Option<int>
  {
    var neg := |s| > 0 && s[0] == '-';
    var body := if neg then s[1..] else s;
    match ParseUnsigned(body)
    case None => None
    case Some(v) =>
      var x: int := if neg then -(v as int) else v as int;
      Some(x)
  }

  /** Reads whole shekels, a point and two digits of agorot. */
  function ParseUnsigned(body: string): Option<nat>
  {
    if |body| < 4 || body[|body| - 3] != '.' then None
    else
      var whole := body[..|body| - 3];
      var frac := body[|body| - 2..];
      if !AllDigits(whole) || !AllDigits(frac) then None
      else Some(ParseNat(whole) * 100 + ParseNat(frac))
  }

  lemma ParseFrac(m: nat)
    ensures ParseNat(Frac(m)) == m % 100
  {
    var f := Frac(m);
    assert f[..1] == [f[0]] && [f[0]][..0] == [];
    assert ParseNat([f[0]]) == m % 100 / 10;
  }

  lemma ParseUnsignedRendering(m: nat)
    ensures ParseUnsigned(Unsigned(m)) == Some(m)
  {
    var w := NatToString(m / 100);
    var body := Unsigned(m);
    assert body[..|body| - 3] == w;
    assert body[|body| - 2..] == Frac(m);
    ParseNatToString(m / 100);
    ParseFrac(m);
  }

  /** Every rendered amount reads back as itself: the rendering loses nothing. */
  lemma ParseFormatCents(a: int)
    ensures ParseCents(FormatCents(a)) == Some(a)
  {
    if a < 0 {
      var u := Unsigned(-a);
      assert FormatCents(a) == "-" + u;
      assert ("-" + u)[0] == '-' && ("-" + u)[1..] == u;
      ParseUnsignedRendering(-a);
    } else {
      ParseUnsignedRendering(a);
    }
  }
}
