/** Numbers as they travel between the three programs as text: the firmware's
    "%.2f" and itoa output, Python's float() and str(), and JavaScript's
    Number-to-string conversion. A number that crosses the wire is an exact
    decimal fraction, kept here as a mantissa and a decimal scale. */
module Numbers {
  import opened Text

  /** The number mantissa / 10^scale. */
  datatype Decimal = Decimal(mantissa: int, scale: nat)

  function Value(d: Decimal): real
  {
    d.mantissa as real / Pow10(d.scale) as real
  }

  /** No trailing zero in the fraction: each value has exactly one normal form. */
  predicate IsNormal(d: Decimal)
  {
    d.scale == 0 || d.mantissa % 10 != 0
  }

  /** Drops trailing zeros of the fraction. */
  function Normalize(m: int, scale: nat): (d: Decimal)
    ensures IsNormal(d)
    decreases scale
  {
    if scale > 0 && m % 10 == 0 then Normalize(m / 10, scale - 1) else Decimal(m, scale)
  }

  lemma {:induction false} NormalizeKeepsValue(m: int, scale: nat)
    ensures Value(Normalize(m, scale)) == Value(Decimal(m, scale))
    decreases scale
  {
    if scale > 0 && m % 10 == 0 {
      NormalizeKeepsValue(m / 10, scale - 1);
      assert m as real == 10.0 * (m / 10) as real;
      CancelTen((m / 10) as real, Pow10(scale - 1) as real);
    }
  }

  lemma CancelTen(q: real, p: real)
    requires p > 0.0
    ensures (10.0 * q) / (10.0 * p) == q / p
  {
  }

  lemma NormalizeNormal(d: Decimal)
    requires IsNormal(d)
    ensures Normalize(d.mantissa, d.scale) == d
  {
  }

  /** Whether the value of `d` is strictly greater than the integer `k`,
      decided on integers. */
  predicate GreaterThan(d: Decimal, k: int)
  {
    d.mantissa > k * Pow10(d.scale)
  }

  lemma GreaterThanValue(d: Decimal, k: int)
    ensures GreaterThan(d, k) <==> Value(d) > k as real
  {
    var p := Pow10(d.scale) as real;
    assert Value(d) * p == d.mantissa as real;
    assert (k * Pow10(d.scale)) as real == k as real * p;
    if Value(d) > k as real {
      assert Value(d) * p > k as real * p;
    } else {
      assert Value(d) * p <= k as real * p;
    }
  }

  // ---------------------------------------------------------------------
  // Producers: itoa / str(int), "%.2f", JavaScript's toString
  // ---------------------------------------------------------------------

  /** Decimal text of an integer: C's itoa(_, _, 10) and Python's str(int). */
  function IntToString(i: int): (s: string)
    ensures |s| > 0
  {
    if i < 0 then "-" + NatToString(-i) else NatToString(i)
  }

  function Abs(i: int): nat { if i < 0 then -i else i }

  /** The value m / 10^scale written with exactly `scale` fraction digits:
      a minus sign if negative, the integer part without leading zeros, then
      (for a positive scale) a point and the fraction digits. */
  function FixedText(m: int, scale: nat): (s: string)
    ensures |s| > 0
  {
    (if m < 0 then "-" else "")
    + NatToString(DropDigits(Abs(m), scale))
    + (if scale == 0 then "" else "." + PaddedDigits(Abs(m), scale))
  }

  /** C's printf "%.2f" of the value c / 100 (c in hundredths): a minus sign
      exactly for a negative value, and exactly two digits after the point. */
  function FormatFixed2(c: int): (s: string)
    ensures |s| >= 4 && s[|s| - 3] == '.' && IsDigit(s[|s| - 2]) && IsDigit(s[|s| - 1])
    ensures s[0] == '-' <==> c < 0
  {
    FixedText(c, 2)
  }

  /** JavaScript's Number.prototype.toString() of a value in normal form
      whose magnitude is 0 or lies in [1e-6, 1e21): no point for an integer,
      and no trailing zero after the point. Outside that range JavaScript
      switches to exponent notation, which this function does not produce. */
  function JsNumberText(d: Decimal): (s: string)
    requires IsNormal(d)
    ensures d.scale == 0 ==> '.' !in s
    ensures d.scale > 0 ==> |s| > d.scale && s[|s| - d.scale - 1] == '.' && s[|s| - 1] != '0'
  {
    FixedTextTail(d.mantissa, d.scale);
    FixedText(d.mantissa, d.scale)
  }

  /** Fixed-point text has a point only for a positive scale; then the point
      comes `scale` characters from the end, and the last digit is the last
      digit of the mantissa. */
  lemma FixedTextTail(m: int, scale: nat)
    ensures scale == 0 ==> '.' !in FixedText(m, scale)
    ensures var s := FixedText(m, scale);
            scale > 0 ==> |s| > scale && s[|s| - scale - 1] == '.'
                          && (m % 10 != 0 ==> s[|s| - 1] != '0')
  {
    var a := Abs(m);
    var sign, whole := if m < 0 then "-" else "", NatToString(DropDigits(a, scale));
    if scale == 0 {
      assert FixedText(m, scale) == sign + whole;
      assert forall i :: 0 <= i < |whole| ==> IsDigit(whole[i]);
    } else {
      var frac := PaddedDigits(a, scale);
      var s := FixedText(m, scale);
      assert s == sign + whole + "." + frac;
      assert s[|s| - 1] == frac[scale - 1] == DigitChar(a % 10);
      assert m % 10 != 0 ==> a % 10 != 0;
    }
  }

  // ---------------------------------------------------------------------
  // Consumer: Python's float()
  // ---------------------------------------------------------------------

  /** The longest prefix of `s` made of decimal digits. */
  function LeadingDigits(s: string): (u: string)
    ensures |u| <= |s| && u == s[..|u|] && AllDigits(u)
    ensures |u| < |s| ==> !IsDigit(s[|u|])
  {
    if s != [] && IsDigit(s[0]) then [s[0]] + LeadingDigits(s[1..]) else []
  }

  lemma {:induction false} LeadingDigitsOf(u: string, v: string)
    requires AllDigits(u)
    requires v == [] || !IsDigit(v[0])
    ensures LeadingDigits(u + v) == u
  {
    if u != [] {
      assert (u + v)[1..] == u[1..] + v;
      LeadingDigitsOf(u[1..], v);
    } else {
      assert u + v == v;
    }
  }

  function Signed(negative: bool, n: nat): int { if negative then -(n as int) else n }

  /** The number an unsigned decimal literal `body` denotes: digits, then
      optionally a point and more digits, at least one digit in all. */
  function UnsignedDecimal(negative: bool, body: string): (r: Option<Decimal>)
    ensures r.Some? ==> IsNormal(r.value)
  {
    var whole := LeadingDigits(body);
    var rest := body[|whole|..];
    if rest == [] then
      if whole == [] then None else Some(Normalize(Signed(negative, NumeralValue(whole)), 0))
    else if rest[0] != '.' then None
    else
      var frac := rest[1..];
      if !AllDigits(frac) || (whole == [] && frac == []) then None
      else
        NumeralValueAppend(whole, frac);
        Some(Normalize(Signed(negative, NumeralValue(whole + frac)), |frac|))
  }

  /** An optionally signed decimal literal. */
  function SignedDecimal(s: string): (r: Option<Decimal>)
    ensures r.Some? ==> IsNormal(r.value)
  {
    if s != [] && (s[0] == '-' || s[0] == '+') then UnsignedDecimal(s[0] == '-', s[1..])
    else UnsignedDecimal(false, s)
  }

  /** Python's float() on decimal text: surrounding whitespace is ignored, an
      optional sign, then an unsigned decimal. None stands for the ValueError
      float() raises. */
  function PyFloat(text: string): (r: Option<Decimal>)
    ensures r.Some? ==> IsNormal(r.value)
  {
    SignedDecimal(Strip(text))
  }

  // ---------------------------------------------------------------------
  // Round trips
  // ---------------------------------------------------------------------

  lemma StripOfPlain(s: string)
    requires s != [] && s[0] !in PythonWhitespace && s[|s| - 1] !in PythonWhitespace
    ensures Strip(s) == s
  {
  }

  /** What float() reads back from sign, integer digits and fraction digits. */
  lemma {:induction false} UnsignedDecimalOf(negative: bool, whole: string, frac: string)
    requires IsNumeral(whole) && AllDigits(frac)
    ensures frac == [] ==> UnsignedDecimal(negative, whole)
                           == Some(Normalize(Signed(negative, NumeralValue(whole)), 0))
    ensures AllDigits(whole + frac)
    ensures UnsignedDecimal(negative, whole + "." + frac)
            == Some(Normalize(Signed(negative, NumeralValue(whole + frac)), |frac|))
  {
    NumeralValueAppend(whole, frac);
    if frac == [] {
      LeadingDigitsOf(whole, []);
      assert whole + [] == whole;
    }
    var body := whole + "." + frac;
    assert body == whole + ("." + frac);
    LeadingDigitsOf(whole, "." + frac);
    assert body[|whole|..] == "." + frac;
  }

  lemma NotPythonWhitespace(c: char)
    requires IsDigit(c) || c == '-'
    ensures c !in PythonWhitespace
  {
  }

  /** float() of a sign followed by text that starts and ends with a digit. */
  lemma PyFloatOfSigned(negative: bool, body: string)
    requires body != [] && IsDigit(body[0]) && IsDigit(body[|body| - 1])
    ensures PyFloat((if negative then "-" else "") + body) == UnsignedDecimal(negative, body)
  {
    var s := (if negative then "-" else "") + body;
    assert s[|s| - 1] == body[|body| - 1];
    NotPythonWhitespace(s[0]);
    NotPythonWhitespace(s[|s| - 1]);
    StripOfPlain(s);
    assert PyFloat(s) == SignedDecimal(s);
    if negative {
      assert s[0] == '-' && s[1..] == body;
    } else {
      assert s == body && s[0] != '-' && s[0] != '+';
    }
  }

  /** The digits of a fixed-point text denote the magnitude of its value. */
  lemma FixedDigitsValue(a: nat, scale: nat)
    ensures AllDigits(NatToString(DropDigits(a, scale)) + PaddedDigits(a, scale))
    ensures NumeralValue(NatToString(DropDigits(a, scale)) + PaddedDigits(a, scale)) == a
  {
    var whole, frac := NatToString(DropDigits(a, scale)), PaddedDigits(a, scale);
    NumeralValueAppend(whole, frac);
    NatToStringRoundTrip(DropDigits(a, scale));
    PaddedDigitsValue(a, scale);
    SplitDigits(a, scale);
  }

  /** Python's float() reads back the value of any fixed-point text. */
  lemma PyFloatOfFixedText(m: int, scale: nat)
    ensures PyFloat(FixedText(m, scale)) == Some(Normalize(m, scale))
  {
    if scale == 0 {
      PyFloatOfWholeText(m);
    } else {
      PyFloatOfFractionText(m, scale);
    }
  }

  lemma PyFloatOfWholeText(m: int)
    ensures PyFloat(FixedText(m, 0)) == Some(Normalize(m, 0))
  {
    var a := Abs(m);
    var whole := NatToString(a);
    assert Signed(m < 0, a) == m;
    assert FixedText(m, 0) == (if m < 0 then "-" else "") + whole;
    PyFloatOfSigned(m < 0, whole);
    UnsignedDecimalOf(m < 0, whole, []);
    NatToStringRoundTrip(a);
  }

  lemma PyFloatOfFractionText(m: int, scale: nat)
    requires scale > 0
    ensures PyFloat(FixedText(m, scale)) == Some(Normalize(m, scale))
  {
    var a := Abs(m);
    var whole, frac := NatToString(DropDigits(a, scale)), PaddedDigits(a, scale);
    var body := whole + "." + frac;
    assert Signed(m < 0, a) == m;
    assert FixedText(m, scale) == (if m < 0 then "-" else "") + body;
    assert body[|body| - 1] == frac[|frac| - 1];
    PyFloatOfSigned(m < 0, body);
    UnsignedDecimalOf(m < 0, whole, frac);
    FixedDigitsValue(a, scale);
  }

  /** The server reads back exactly the value the firmware printed with "%.2f". */
  lemma PyFloatOfFixed2(c: int)
    ensures PyFloat(FormatFixed2(c)) == Some(Normalize(c, 2))
  {
    PyFloatOfFractionText(c, 2);
  }

  /** That value is c / 100. */
  lemma Fixed2Value(c: int)
    ensures Value(Normalize(c, 2)) == c as real / 100.0
  {
    NormalizeKeepsValue(c, 2);
    assert Pow10(2) == 100;
  }

  /** Python's float() inverts JavaScript's toString on normal forms. */
  lemma PyFloatOfJsNumberText(d: Decimal)
    requires IsNormal(d)
    ensures PyFloat(JsNumberText(d)) == Some(d)
  {
    PyFloatOfFixedText(d.mantissa, d.scale);
  }

  lemma IntToStringIsFixedText(i: int)
    ensures IntToString(i) == FixedText(i, 0)
  {
  }

  /** The server reads back the integer the firmware printed with itoa. */
  lemma PyFloatOfIntToString(i: int)
    ensures PyFloat(IntToString(i)) == Some(Decimal(i, 0))
  {
    IntToStringIsFixedText(i);
    PyFloatOfFixedText(i, 0);
  }
}
