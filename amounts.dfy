/**
 * Monetary values as the pipeline computes them with Python floats, kept
 * exact: a finite value is a decimal `mantissa * 10^exponent`; the special
 * values `float()` can produce (`-0.0`, `inf`, `-inf`, `nan`) are kept as
 * separate cases so that signs, comparisons and `repr` behave as on floats.
 */
module Amounts {
  import opened Wrappers
  import opened Text

  function Pow10(n: nat): (r: nat)
    ensures r >= 1
  {
    if n == 0 then 1 else 10 * Pow10(n - 1)
  }

  function Abs(n: int): nat {
    if n < 0 then -n else n
  }

  datatype Dec = Dec(mantissa: int, exponent: int)

  /** Trailing zeros are folded into the exponent, so one value has one representation. */
  predicate IsCanonical(d: Dec) {
    if d.mantissa == 0 then d.exponent == 0 else d.mantissa % 10 != 0
  }

  type Decimal = d: Dec | IsCanonical(d) witness Dec(0, 0)

  const Zero: Decimal := Dec(0, 0)

  /** The real number a decimal stands for. */
  function ToReal(d: Dec): real {
    if d.exponent >= 0 then (d.mantissa * Pow10(d.exponent)) as real
    else d.mantissa as real / Pow10(-d.exponent) as real
  }

  function RealAbs(x: real): real {
    if x < 0.0 then -x else x
  }

  /** Negating the mantissa negates the value. */
  lemma ToRealNegate(m: int, e: int)
    ensures ToReal(Dec(-m, e)) == -ToReal(Dec(m, e))
  {
    if e >= 0 {
      assert -m * Pow10(e) == -(m * Pow10(e));
    }
  }

  /** A decimal is below zero exactly when its mantissa is. */
  lemma ToRealSign(d: Dec)
    ensures ToReal(d) < 0.0 <==> d.mantissa < 0
  {
    if d.exponent >= 0 {
      var p := Pow10(d.exponent);
      assert d.mantissa < 0 ==> d.mantissa * p < 0;
      assert d.mantissa >= 0 ==> d.mantissa * p >= 0;
    }
  }

  /** `m * 10^e` in canonical form. */
  function Normalized(m: int, e: int): (d: Decimal)
    ensures (d.mantissa < 0 <==> m < 0) && (d.mantissa > 0 <==> m > 0)
    decreases Abs(m)
  {
    if m == 0 then Zero
    else if m % 10 == 0 then Normalized(m / 10, e + 1)
    else Dec(m, e)
  }

  /** A Python float, exactly. */
  datatype Amount = Finite(value: Decimal) | NegativeZero | Infinity(negative: bool) | NaN

  /** `x > 0`. */
  predicate IsPositive(a: Amount) {
    match a
    case Finite(d) => d.mantissa > 0
    case Infinity(negative) => !negative
    case _ => false
  }

  /** `x < 0`. */
  predicate IsNegative(a: Amount) {
    match a
    case Finite(d) => d.mantissa < 0
    case Infinity(negative) => negative
    case _ => false
  }

  /** A mantissa and its negation have the same last digit, zero or not. */
  lemma TenDividesNegation(m: int)
    ensures m % 10 == 0 <==> (-m) % 10 == 0
  {
    if m % 10 == 0 {
      var q := m / 10;
      assert -m == 10 * -q;
    }
    if (-m) % 10 == 0 {
      var q := (-m) / 10;
      assert m == 10 * -q;
    }
  }

  /** `abs(x)`: a finite value's distance from zero, `0.0` for `-0.0`, `inf` for either infinity. */
  function Magnitude(a: Amount): (r: Amount)
    ensures !IsNegative(r)
    ensures IsPositive(r) <==> IsPositive(a) || IsNegative(a)
    ensures a.Finite? ==> r.Finite? && ToReal(r.value) == RealAbs(ToReal(a.value))
    ensures a.NegativeZero? ==> r == Finite(Zero)
    ensures a.Infinity? ==> r == Infinity(false)
    ensures r.NaN? <==> a.NaN?
  {
    match a
    case Finite(d) =>
      TenDividesNegation(d.mantissa);
      ToRealNegate(d.mantissa, d.exponent);
      ToRealSign(d);
      Finite(Dec(Abs(d.mantissa), d.exponent))
    case NegativeZero => Finite(Zero)
    case Infinity(_) => Infinity(false)
    case NaN => NaN
  }

  lemma MagnitudeIdempotent(a: Amount)
    ensures Magnitude(Magnitude(a)) == Magnitude(a)
  {
  }

  /** `-abs(x)`: minus the magnitude, so that either zero becomes `-0.0` and either infinity `-inf`. */
  function NegatedMagnitude(a: Amount): (r: Amount)
    ensures !IsPositive(r)
    ensures IsNegative(r) <==> IsPositive(a) || IsNegative(a)
    ensures Magnitude(r) == Magnitude(a)
    ensures a.Finite? && a != Finite(Zero) ==> r.Finite? && ToReal(r.value) == -RealAbs(ToReal(a.value))
    ensures a == Finite(Zero) || a.NegativeZero? ==> r == NegativeZero
    ensures a.Infinity? ==> r == Infinity(true)
    ensures r.NaN? <==> a.NaN?
  {
    match a
    case Finite(d) =>
      if d.mantissa == 0 then NegativeZero
      else
        TenDividesNegation(d.mantissa);
        ToRealNegate(d.mantissa, d.exponent);
        ToRealNegate(Abs(d.mantissa), d.exponent);
        ToRealSign(d);
        Finite(Dec(-(Abs(d.mantissa) as int), d.exponent))
    case NegativeZero => NegativeZero
    case Infinity(_) => Infinity(true)
    case NaN => NaN
  }

  // ---------------------------------------------------------------------
  // float(text)
  // ---------------------------------------------------------------------

  /** The outcome of scanning a run of digits: its value, how many digits it had, and where it stopped. */
  datatype Scan = Scan(value: nat, count: nat, end: nat)

  /**
   * Python's `digitpart`: digits, where a single `_` may stand between two digits.
   * Continues the accumulated `value` and `count` from position `i`.
   */
  function ScanDigits(s: string, i: nat, value: nat, count: nat): (r: Scan)
    requires i <= |s|
    ensures i <= r.end <= |s| && r.count >= count
    ensures r.count == count ==> r.end == i && r.value == value
    decreases |s| - i
  {
    if i < |s| && IsDigit(s[i]) then ScanDigits(s, i + 1, value * 10 + DigitValue(s[i]), count + 1)
    else if i + 1 < |s| && s[i] == '_' && count > 0 && IsDigit(s[i + 1]) then ScanDigits(s, i + 1, value, count)
    else Scan(value, count, i)
  }

  /** A scan that counted a digit passed over one. */
  lemma {:induction false} ScanFindsDigit(s: string, i: nat, value: nat, count: nat)
    requires i <= |s|
    ensures var r := ScanDigits(s, i, value, count); r.count > count ==> exists k :: i <= k < r.end && IsDigit(s[k])
    decreases |s| - i
  {
    if i < |s| && IsDigit(s[i]) {
      ScanFindsDigit(s, i + 1, value * 10 + DigitValue(s[i]), count + 1);
    } else if i + 1 < |s| && s[i] == '_' && count > 0 && IsDigit(s[i + 1]) {
      ScanFindsDigit(s, i + 1, value, count);
    }
  }

  /**
   * Python's `floatnumber` (`[digitpart] "." digitpart | digitpart ["."]`, then an
   * optional exponent) read as an unsigned `mantissa * 10^exponent`; `None` when
   * the whole text is not of that form.
   */
  function ParseNumber(s: string): (r: Option<(nat, int)>)
    ensures r.Some? ==> exists k :: 0 <= k < |s| && IsDigit(s[k])
  {
    var whole := ScanDigits(s, 0, 0, 0);
    ScanFindsDigit(s, 0, 0, 0);
    var point := whole.end < |s| && s[whole.end] == '.';
    var frac := if point then ScanDigits(s, whole.end + 1, whole.value, 0) else Scan(whole.value, 0, whole.end);
    ScanFindsDigit(s, if point then whole.end + 1 else whole.end, whole.value, 0);
    var p := frac.end;
    if whole.count == 0 && frac.count == 0 then None
    else if p == |s| then Some((frac.value, -(frac.count as int)))
    else if s[p] != 'e' && s[p] != 'E' then None
    else
      var signed := p + 1 < |s| && (s[p + 1] == '-' || s[p + 1] == '+');
      var q := if signed then p + 2 else p + 1;
      var exp := ScanDigits(s, q, 0, 0);
      if exp.count == 0 || exp.end != |s| then None
      else Some((frac.value, (if signed && s[p + 1] == '-' then -(exp.value as int) else exp.value as int) - frac.count))
  }

  /** The float `float()` builds from a sign and an unsigned decimal. */
  function MakeAmount(negative: bool, m: nat, e: int): Amount {
    if m == 0 then (if negative then NegativeZero else Finite(Zero))
    else Finite(Normalized(if negative then -(m as int) else m, e))
  }

  /**
   * `float(s)` for a text that `strip()` has already trimmed: an optional sign, then a
   * decimal number, `inf`, `infinity` or `nan` in any letter case; `None` where Python
   * raises `ValueError`.
   */
  function ParseFloat(s: string): (r: Option<Amount>)
    ensures s == [] ==> r == None
    ensures r.Some? && IsNegative(r.value) ==> s[0] == '-'
    ensures r.Some? && (IsPositive(r.value) || r.value == Finite(Zero)) ==> s == [] || s[0] != '-'
    ensures r.Some? && (r.value.Finite? || r.value.NegativeZero?) ==> exists k :: 0 <= k < |s| && IsDigit(s[k])
  {
    var negative := |s| > 0 && s[0] == '-';
    var body := if |s| > 0 && (s[0] == '-' || s[0] == '+') then s[1..] else s;
    var word := Lower(body);
    if word == "inf" || word == "infinity" then Some(Infinity(negative))
    else if word == "nan" then Some(NaN)
    else
      match ParseNumber(body)
      case None => None
      case Some((m, e)) => Some(MakeAmount(negative, m, e))
  }

  /** A digit extends the current run. */
  lemma ScanDigit(s: string, i: nat, value: nat, count: nat)
    requires i < |s| && IsDigit(s[i])
    ensures ScanDigits(s, i, value, count) == ScanDigits(s, i + 1, value * 10 + DigitValue(s[i]), count + 1)
  {
  }

  /** Anything but a digit or an underscore ends the run. */
  lemma ScanStop(s: string, i: nat, value: nat, count: nat)
    requires i <= |s| && (i == |s| || (!IsDigit(s[i]) && s[i] != '_'))
    ensures ScanDigits(s, i, value, count) == Scan(value, count, i)
  {
  }

  /** An unsigned text that starts with a digit is read by the number grammar alone. */
  lemma ParseUnsigned(s: string, m: nat, e: int)
    requires |s| > 0 && IsDigit(s[0]) && Lower(s) == s && ParseNumber(s) == Some((m, e))
    ensures ParseFloat(s) == Some(MakeAmount(false, m, e))
  {
    assert s != "inf" && s != "infinity" && s != "nan" by {
      assert "inf"[0] == 'i' && "infinity"[0] == 'i' && "nan"[0] == 'n';
    }
  }

  /** `float("1234.56")` is 1234.56: four whole digits, a point, two fraction digits. */
  lemma ParseDecimalExample()
    ensures ParseFloat("1234.56") == Some(Finite(Dec(123456, -2)))
  {
    var s := "1234.56";
    assert s[0] == '1';
    assert Lower(s) == s;
    DecimalNumberExample();
    ParseUnsigned(s, 123456, -2);
    assert Normalized(123456, -2) == Dec(123456, -2);
  }

  /** The number grammar reads "1234.56" as 123456 * 10^-2. */
  lemma DecimalNumberExample()
    ensures ParseNumber("1234.56") == Some((123456, -2))
  {
    var s := "1234.56";
    assert |s| == 7 && s[0] == '1' && s[1] == '2' && s[2] == '3' && s[3] == '4' && s[4] == '.' && s[5] == '5' && s[6] == '6';
    DecimalNumberOfDigits(s);
  }

  lemma DecimalNumberOfDigits(s: string)
    requires |s| == 7 && s[0] == '1' && s[1] == '2' && s[2] == '3' && s[3] == '4' && s[4] == '.' && s[5] == '5' && s[6] == '6'
    ensures ParseNumber(s) == Some((123456, -2))
  {
    ScanDigit(s, 0, 0, 0);
    ScanDigit(s, 1, 1, 1);
    ScanDigit(s, 2, 12, 2);
    ScanDigit(s, 3, 123, 3);
    ScanStop(s, 4, 1234, 4);
    ScanDigit(s, 5, 1234, 0);
    ScanDigit(s, 6, 12345, 1);
    ScanStop(s, 7, 123456, 2);
  }

  /** `float("-50")` is -50.0, whose canonical form is -5 * 10^1. */
  lemma ParseNegativeExample()
    ensures ParseFloat("-50") == Some(Finite(Dec(-5, 1)))
  {
    var s := "-50";
    var body := "50";
    assert s[1..] == body;
    assert Lower(body) == body;
    assert ScanDigits(body, 2, 50, 2) == Scan(50, 2, 2);
    assert ScanDigits(body, 0, 0, 0) == ScanDigits(body, 1, 5, 1) == ScanDigits(body, 2, 50, 2);
    assert ParseNumber(body) == Some((50, 0));
    assert Normalized(-50, 0) == Normalized(-5, 1) == Dec(-5, 1);
  }

  // ---------------------------------------------------------------------
  // repr(x)
  // ---------------------------------------------------------------------

  /**
   * `repr` of a finite float whose shortest round-tripping digits are those of `d`:
   * positional notation while the leading digit's decimal exponent lies in [-4, 16),
   * scientific notation (`1.5e-05`, `1e+16`) otherwise.
   */
  function DecimalRepr(d: Decimal): (r: string)
    ensures |r| > 0 && (r[0] == '-' <==> d.mantissa < 0)
  {
    if d.mantissa == 0 then "0.0"
    else
      var sign := if d.mantissa < 0 then "-" else "";
      var digits := NatText(Abs(d.mantissa));
      var x := |digits| - 1 + d.exponent;
      if -4 <= x < 16 then
        if d.exponent >= 0 then sign + digits + Zeros(d.exponent) + ".0"
        else if x >= 0 then sign + digits[..x + 1] + "." + digits[x + 1..]
        else sign + "0." + Zeros(-x - 1) + digits
      else
        sign + digits[..1] + (if |digits| > 1 then "." + digits[1..] else "")
        + "e" + (if x < 0 then "-" else "+") + Padded(Abs(x), 2)
  }

  /** `repr(x)`, which is also what `str(x)` and an f-string print. */
  function Repr(a: Amount): (r: string)
    ensures |r| > 0 && (r[0] == '-' <==> IsNegative(a) || a.NegativeZero?)
  {
    match a
    case Finite(d) => DecimalRepr(d)
    case NegativeZero => "-0.0"
    case Infinity(negative) => if negative then "-inf" else "inf"
    case NaN => "nan"
  }
}
