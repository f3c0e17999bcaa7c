/**
  Fixed-point rendering with four decimals, as Python's format spec ".4f"
  renders a float: the exact value is rounded to the nearest multiple of
  1/10000, ties to even, then written as an optional minus sign, the integer
  part in decimal without leading zeros, a point and exactly four digits.
  A float is modelled by the real number it denotes.
 */
module Fixed4 {

  import opened Remote

  predicate IsDigit(c: char)
  {
    '0' <= c <= '9'
  }

  predicate AllDigits(s: string)
  {
    forall i :: 0 <= i < |s| ==> IsDigit(s[i])
  }

  function Digit(d: nat): (c: char)
    requires d < 10
    ensures IsDigit(c) && c as int - '0' as int == d
  {
    (('0' as int) + d) as char
  }

  function DigitValue(c: char): nat
    requires IsDigit(c)
  {
    c as int - '0' as int
  }

  /** The value of a string of decimal digits, most significant first. */
  function DecimalValue(s: string): nat
    requires AllDigits(s)
  {
    if s == [] then 0 else DecimalValue(s[..|s| - 1]) * 10 + DigitValue(s[|s| - 1])
  }

  /** The decimal digits of n, without leading zeros. */
  function NatToDecimal(n: nat): (s: string)
    ensures |s| >= 1 && AllDigits(s)
  {
    if n < 10 then [Digit(n)] else NatToDecimal(n / 10) + [Digit(n % 10)]
  }

  lemma {:induction false} DecimalRoundTrip(n: nat)
    ensures DecimalValue(NatToDecimal(n)) == n
  {
    if n >= 10 {
      var s := NatToDecimal(n);
      assert s[..|s| - 1] == NatToDecimal(n / 10);
      DecimalRoundTrip(n / 10);
    }
  }

  /** The decimal digits start with '0' only for 0 itself, which is the single digit "0". */
  lemma {:induction false} DecimalNoLeadingZero(n: nat)
    ensures NatToDecimal(n)[0] == '0' <==> n == 0
    ensures n == 0 ==> NatToDecimal(n) == "0"
  {
    if n >= 10 {
      DecimalNoLeadingZero(n / 10);
      assert NatToDecimal(n)[0] == NatToDecimal(n / 10)[0];
    }
  }

  /** The four digits of r < 10000, with leading zeros. */
  function FourDigits(r: nat): (s: string)
    requires r < 10000
    ensures |s| == 4 && AllDigits(s)
  {
    [Digit(r / 10 / 10 / 10), Digit(r / 10 / 10 % 10), Digit(r / 10 % 10), Digit(r % 10)]
  }

  lemma FourDigitsRoundTrip(r: nat)
    requires r < 10000
    ensures DecimalValue(FourDigits(r)) == r
  {
    var s := FourDigits(r);
    assert s[..3][..2][..1][..0] == [];
    assert s[..3][..2][..1] == [s[0]];
    assert DecimalValue(s[..3][..2][..1]) == r / 10 / 10 / 10;
    assert DecimalValue(s[..3][..2]) == r / 10 / 10;
    assert DecimalValue(s[..3]) == r / 10;
  }

  /** A string whose point, integer part and four digits are known reads back from those parts. */
  lemma UnsignedFromParts(body: string, whole: string, frac: string)
    requires |body| >= 6 && body[|body| - 5] == '.'
    requires body[..|body| - 5] == whole && AllDigits(whole)
    requires body[|body| - 4..] == frac && AllDigits(frac)
    ensures ParseUnsigned(body) == Some(DecimalValue(whole) * 10000 + DecimalValue(frac))
  {
  }

  /** A body of digits, a point and four digits reads back as its scaled value. */
  lemma ParseBody(whole: string, frac: string)
    requires |whole| >= 1 && AllDigits(whole) && |frac| == 4 && AllDigits(frac)
    ensures ParseUnsigned(whole + "." + frac) == Some(DecimalValue(whole) * 10000 + DecimalValue(frac))
  {
    var body := whole + "." + frac;
    assert |body| == |whole| + 5;
    assert body[|body| - 5] == '.' by {
      assert body[|whole|] == '.';
    }
    assert body[..|body| - 5] == whole by {
      assert body[..|whole|] == whole;
    }
    assert body[|body| - 4..] == frac by {
      assert body[|whole| + 1..] == frac;
    }
    UnsignedFromParts(body, whole, frac);
  }

  function Abs(x: real): real
  {
    if x < 0.0 then -x else x
  }

  /** The integer nearest to y, the even one of the two on a tie. */
  function RoundHalfEven(y: real): (n: int)
    ensures -0.5 <= n as real - y <= 0.5
    ensures n as real - y == 0.5 || n as real - y == -0.5 ==> n % 2 == 0
  {
    var f := y.Floor;
    var frac := y - f as real;
    if frac < 0.5 then f
    else if frac > 0.5 then f + 1
    else if f % 2 == 0 then f else f + 1
  }

  /** The magnitude of x in units of 1/10000, as the rendering rounds it. */
  function Units(x: real): (q: nat)
    ensures -0.5 <= q as real - Abs(x) * 10000.0 <= 0.5
  {
    RoundHalfEven(Abs(x) * 10000.0)
  }

  /** x in units of 1/10000, as the rendering rounds it. */
  function Scaled(x: real): int
  {
    if x < 0.0 then -(Units(x) as int) else Units(x) as int
  }

  /** The integer part of q / 10000 in decimal, a point and the four digits of q % 10000. */
  function UnsignedRendering(q: nat): (s: string)
    ensures |s| >= 6 && s[|s| - 5] == '.' && AllDigits(s[|s| - 4..])
  {
    NatToDecimal(q / 10000) + "." + FourDigits(q % 10000)
  }

  /** The unsigned rendering of q units, after a minus sign when negative. */
  function Rendering(negative: bool, q: nat): (s: string)
    ensures |s| >= 6 && s[|s| - 5] == '.' && AllDigits(s[|s| - 4..])
  {
    if negative then "-" + UnsignedRendering(q) else UnsignedRendering(q)
  }

  /** The rendering f"{x:.4f}". */
  function Format(x: real): (s: string)
    ensures |s| >= 6 && s[|s| - 5] == '.' && AllDigits(s[|s| - 4..])
  {
    Rendering(x < 0.0, Units(x))
  }

  /** Read back an unsigned rendering in units of 1/10000: digits, a point, four digits. */
  function ParseUnsigned(body: string): Option<nat>
  {
    if |body| >= 6 && body[|body| - 5] == '.'
       && AllDigits(body[..|body| - 5]) && AllDigits(body[|body| - 4..])
    then Some(DecimalValue(body[..|body| - 5]) * 10000 + DecimalValue(body[|body| - 4..]))
    else None
  }

  /** Read back a rendering, if s has the shape Format produces. */
  function ParseScaled(s: string): Option<int>
  {
    if |s| > 0 && s[0] == '-' then
      match ParseUnsigned(s[1..])
      case Some(m) => Some(-(m as int))
      case None => None
    else
      match ParseUnsigned(s)
      case Some(m) => Some(m as int)
      case None => None
  }

  /** The unsigned rendering of q units of 1/10000 reads back as q. */
  lemma UnsignedRoundTrip(q: nat)
    ensures ParseUnsigned(UnsignedRendering(q)) == Some(q)
  {
    DecimalRoundTrip(q / 10000);
    FourDigitsRoundTrip(q % 10000);
    ParseBody(NatToDecimal(q / 10000), FourDigits(q % 10000));
  }

  /** A rendering with a leading minus sign reads back negated. */
  lemma ParseNegative(body: string, q: nat)
    requires ParseUnsigned(body) == Some(q)
    ensures ParseScaled("-" + body) == Some(-(q as int))
  {
    assert ("-" + body)[1..] == body;
  }

  /** A rendering starting with a digit reads back as it is. */
  lemma ParseNonNegative(whole: string, frac: string, q: nat)
    requires |whole| > 0 && AllDigits(whole)
    requires ParseUnsigned(whole + "." + frac) == Some(q)
    ensures ParseScaled(whole + "." + frac) == Some(q as int)
  {
    assert (whole + "." + frac)[0] == whole[0];
  }

  /** A rendering reads back as the signed number of units it was made from. */
  lemma RenderingRoundTrip(negative: bool, q: nat)
    ensures ParseScaled(Rendering(negative, q)) == Some(if negative then -(q as int) else q as int)
  {
    UnsignedRoundTrip(q);
    if negative {
      ParseNegative(UnsignedRendering(q), q);
    } else {
      ParseNonNegative(NatToDecimal(q / 10000), FourDigits(q % 10000), q);
    }
  }

  /**
    The rendering is canonical: after the optional minus sign, the integer
    part starts with '0' only when it is the single digit before the point.
   */
  lemma FormatNoLeadingZero(x: real)
    ensures var s := Format(x);
            var body := if x < 0.0 then s[1..] else s;
      |body| >= 2 && (body[0] == '0' ==> body[1] == '.')
  {
    var q := Units(x);
    var whole := NatToDecimal(q / 10000);
    var body := UnsignedRendering(q);
    assert body == whole + ("." + FourDigits(q % 10000));
    assert Format(x) == Rendering(x < 0.0, q);
    if x < 0.0 {
      assert Format(x)[1..] == body;
    }
    DecimalNoLeadingZero(q / 10000);
    assert body[0] == whole[0];
    if whole[0] == '0' {
      assert body[1] == '.';
    }
  }

  /** The rendering carries exactly the rounded value. */
  lemma FormatRoundTrip(x: real)
    ensures ParseScaled(Format(x)) == Some(Scaled(x))
  {
    RenderingRoundTrip(x < 0.0, Units(x));
  }

  /** The rounded value is within 1/20000 of x. */
  lemma ScaledError(x: real)
    ensures -0.5 <= Scaled(x) as real - x * 10000.0 <= 0.5
  {
  }
}
