// Decimals of any exponent read as exact eight-place decimals, by way of their
// plain spelling.

module DecimalText {
  import opened Wrappers
  import opened Decimals
  import opened Digits
  import opened ExactText
  import opened Fractions

  // The digits of a magnitude written without an exponent.
  function Plain(digits: string, exponent: int): string {
    if exponent >= 0 then digits + Zeros(exponent) else Pointed(Wide(digits, -exponent), -exponent)
  }

  // A point before the last digits.
  function Pointed(digits: string, places: nat): string
    requires places < |digits|
  {
    digits[..|digits| - places] + "." + digits[|digits| - places..]
  }

  // At least one digit more than stand after the point.
  function Wide(digits: string, places: nat): (w: string)
    ensures |w| > places
  {
    if |digits| > places then digits else Zeros(places + 1 - |digits|) + digits
  }

  function Rendered(d: Decimal): string {
    (if d.negative then "-" else "") + Plain(d.digits, d.exponent)
  }

  function FromDecimal(d: Decimal): Result<int, ParseError> {
    Parse(Rendered(d))
  }

  // The number of units of ten to the minus places that a decimal stands for.
  function UnitsOf(d: Decimal, places: nat): int
    requires WellSpelled(d) && d.exponent + places >= 0
  {
    Coefficient(d) * Pow(10, d.exponent + places)
  }

  // Units of that size add up to the decimal's value.
  lemma UnitsMean(d: Decimal, places: nat)
    requires WellSpelled(d) && d.exponent + places >= 0
    ensures Same(ValueOf(d), Fractions.Fraction(UnitsOf(d, places), Pow(10, places)))
  {
    if d.exponent >= 0 {
      PowAdd(10, d.exponent, places);
      Regrouped(Coefficient(d), Pow(10, d.exponent), Pow(10, places));
    } else {
      PowAdd(10, d.exponent + places, -d.exponent);
      Regrouped(Coefficient(d), Pow(10, d.exponent + places), Pow(10, -d.exponent));
    }
  }

  lemma WideNumber(digits: string, places: nat)
    requires AllDigits(digits)
    ensures AllDigits(Wide(digits, places)) && Number(Wide(digits, places)) == Number(digits)
  {
    if |digits| <= places {
      assert Wide(digits, places) == Zeros(places + 1 - |digits|) + digits;
      NumberConcat(Zeros(places + 1 - |digits|), digits);
      NumberZeros(places + 1 - |digits|);
    }
  }

  lemma PlainWhole(digits: string, e: nat)
    requires AllDigits(digits) && digits != []
    ensures Shaped(Plain(digits, e)) && ScaledOf(Plain(digits, e)) == Number(digits) * Pow(10, e + PLACES)
  {
    NumberConcat(digits, Zeros(e));
    NumberZeros(e);
    ShapeOfWhole(digits + Zeros(e));
    Eight();
    PowAdd(10, e, PLACES);
    Regrouped(Number(digits), Pow(10, e), SCALE);
  }

  lemma Shifted(w: nat, f: nat, p: nat, q: nat, n: nat)
    requires n == w * p + f && p * q == SCALE
    ensures n * q == w * SCALE + f * q
  {
    Regrouped(w, p, q);
    assert n * q == w * p * q + f * q;
  }

  lemma PointedShape(digits: string, k: nat)
    requires AllDigits(digits) && 1 <= k <= PLACES && k < |digits|
    ensures Shaped(Pointed(digits, k)) && ScaledOf(Pointed(digits, k)) == Number(digits) * Pow(10, PLACES - k)
  {
    var w, f := digits[..|digits| - k], digits[|digits| - k..];
    ShapeOfPoint(w, f);
    assert w + f == digits;
    NumberConcat(w, f);
    NumberConcat(f, Zeros(PLACES - k));
    NumberZeros(PLACES - k);
    Eight();
    PowAdd(10, k, PLACES - k);
    Shifted(Number(w), Number(f), Pow(10, k), Pow(10, PLACES - k), Number(digits));
  }

  lemma PointedTooLong(digits: string, k: nat)
    requires AllDigits(digits) && PLACES < k < |digits|
    ensures TooLong(Pointed(digits, k)) && IsDigit(Pointed(digits, k)[0])
  {
    var w, f := digits[..|digits| - k], digits[|digits| - k..];
    TooLongAt(w, f);
  }

  lemma TooLongAt(w: string, f: string)
    requires AllDigits(w) && w != [] && AllDigits(f) && |f| > PLACES
    ensures var text := w + "." + f; TooLong(text) && text[0] == w[0]
  {
    PlainDigits(w);
    PlainDigits(f);
    SplitAtDot(w, f);
    SplitPlain(f);
    assert ([w] + [f])[1] == f;
  }

  lemma RenderedSign(d: Decimal)
    requires var text := Plain(d.digits, d.exponent); text != [] && IsDigit(text[0])
    ensures Signless(Rendered(d)) == Plain(d.digits, d.exponent)
    ensures Sign(Rendered(d)) == if d.negative then -1 else 1
  {
    var text := Plain(d.digits, d.exponent);
    if d.negative {
      assert Rendered(d) == "-" + text && ("-" + text)[1..] == text;
    } else {
      assert Rendered(d) == "" + text && "" + text == text;
    }
  }

  lemma PlainShape(digits: string, e: int)
    requires AllDigits(digits) && digits != []
    ensures var text := Plain(digits, e);
            && text != [] && IsDigit(text[0]) && (e < -PLACES ==> TooLong(text))
            && (e >= -PLACES ==> Shaped(text) && ScaledOf(text) == Number(digits) * Pow(10, e + PLACES))
  {
    var text := Plain(digits, e);
    if e >= 0 {
      PlainWhole(digits, e);
      ParseShaped(text, 1);
    } else {
      WideNumber(digits, -e);
      if e >= -PLACES {
        PointedShape(Wide(digits, -e), -e);
        ParseShaped(text, 1);
      } else {
        PointedTooLong(Wide(digits, -e), -e);
      }
    }
  }

  // Spelled with at most eight places and in range.
  predicate Exact(d: Decimal)
    requires WellSpelled(d)
  {
    d.exponent >= -PLACES && Fits(UnitsOf(d, PLACES))
  }

  // A decimal reads exactly then, whatever its value, and as the number it
  // stands for.
  lemma ReadsExactly(d: Decimal)
    requires WellSpelled(d) && d.digits != []
    ensures FromDecimal(d) == if Exact(d) then Ok(UnitsOf(d, PLACES))
                              else Err(if d.exponent < -PLACES then TooPrecise else OutOfRange)
  {
    PlainShape(d.digits, d.exponent);
    RenderedSign(d);
    ParseRefuses(Rendered(d));
    if d.exponent >= -PLACES {
      SignedUnits(d);
    }
  }

  lemma SignedUnits(d: Decimal)
    requires WellSpelled(d) && d.exponent >= -PLACES
    ensures UnitsOf(d, PLACES) == (if d.negative then -1 else 1) * (Number(d.digits) * Pow(10, d.exponent + PLACES))
  {
    assert (0 - Number(d.digits)) * Pow(10, d.exponent + PLACES) == -(Number(d.digits) * Pow(10, d.exponent + PLACES));
  }
}
