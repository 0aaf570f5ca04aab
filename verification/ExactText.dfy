// Exact decimals as text: the analyzer's parser and printer, and the quantity
// normaliser that the gateway and the browser share.

module ExactText {
  import opened Wrappers
  import opened Decimals
  import opened Digits

  datatype ParseError = Malformed | TooPrecise | OutOfRange

  // ------------------------------------------------------------------- splitting

  function Split(s: string): (parts: seq<string>)
    ensures parts != []
  {
    if s == [] then [[]]
    else
      var rest := Split(s[1..]);
      if s[0] == '.' then [[]] + rest else [[s[0]] + rest[0]] + rest[1..]
  }

  lemma {:induction false} SplitPlain(s: string)
    requires '.' !in s
    ensures Split(s) == [s]
  {
    if s != [] {
      SplitPlain(s[1..]);
      assert [s[0]] + s[1..] == s;
    }
  }

  lemma {:induction false} SplitAtDot(a: string, b: string)
    requires '.' !in a
    ensures Split(a + "." + b) == [a] + Split(b)
  {
    var s := a + "." + b;
    if a == [] {
      assert s[1..] == b;
    } else {
      assert s[1..] == a[1..] + "." + b;
      SplitAtDot(a[1..], b);
      assert [s[0]] + a[1..] == a;
      assert ([a[1..]] + Split(b))[1..] == Split(b);
    }
  }

  // ------------------------------------------------------------- ExactDecimal.parse

  function Parse(raw: string): (r: Result<int, ParseError>)
    ensures r.Ok? ==> Fits(r.value)
  {
    if raw == [] then Err(Malformed)
    else if raw[0] == '-' then ParseMagnitude(raw[1..], -1)
    else if raw[0] == '+' then ParseMagnitude(raw[1..], 1)
    else ParseMagnitude(raw, 1)
  }

  function ParseMagnitude(text: string, sign: int): (r: Result<int, ParseError>)
    ensures r.Ok? ==> Fits(r.value)
  {
    var parts := Split(text);
    if |parts| > 2 || parts[0] == [] then Err(Malformed)
    else if |parts| == 2 && (parts[1] == [] || !AllDigits(parts[1])) then Err(Malformed)
    else if !AllDigits(parts[0]) then Err(Malformed)
    else if |parts| == 2 && |parts[1]| > PLACES then Err(TooPrecise)
    else
      var scaled := sign * Scaled(parts[0], if |parts| == 2 then parts[1] else []);
      if Fits(scaled) then Ok(scaled) else Err(OutOfRange)
  }

  predicate Fits(scaled: int) {
    MIN_SCALED <= scaled <= MAX_SCALED
  }

  function Scaled(whole: string, fraction: string): nat
    requires AllDigits(whole) && AllDigits(fraction) && |fraction| <= PLACES
  {
    Number(whole) * SCALE + Number(fraction + Zeros(PLACES - |fraction|))
  }

  // ----------------------------------------------------------- ExactDecimal.__str__

  function Printed(whole: nat, fraction: nat): string {
    if fraction == 0 then Spelled(whole) else Spelled(whole) + "." + TrimZeros(Padded(fraction, PLACES))
  }

  function Magnitude(n: nat): string {
    Printed(n / SCALE, n % SCALE)
  }

  function Str(scaled: int): string {
    if scaled < 0 then "-" + Magnitude(-scaled) else Magnitude(scaled)
  }

  // ------------------------------------------------------------ shaped magnitudes

  function Whole(text: string): string {
    Split(text)[0]
  }

  function Fraction(text: string): string {
    if |Split(text)| == 2 then Split(text)[1] else []
  }

  // Digits, optionally followed by a point and one to eight more.
  predicate Shaped(text: string) {
    && |Split(text)| <= 2 && Whole(text) != [] && AllDigits(Whole(text)) && AllDigits(Fraction(text))
    && |Fraction(text)| <= PLACES && (|Split(text)| == 2 ==> Fraction(text) != [])
  }

  function ScaledOf(text: string): nat
    requires Shaped(text)
  {
    Scaled(Whole(text), Fraction(text))
  }

  // Shaped but for more than eight digits after the point.
  predicate TooLong(text: string) {
    && |Split(text)| == 2 && Whole(text) != [] && AllDigits(Whole(text)) && AllDigits(Fraction(text))
    && |Fraction(text)| > PLACES
  }

  function Signless(raw: string): string {
    if raw != [] && (raw[0] == '-' || raw[0] == '+') then raw[1..] else raw
  }

  function Sign(raw: string): int {
    if raw != [] && raw[0] == '-' then -1 else 1
  }

  lemma ParseShaped(text: string, sign: int)
    requires Shaped(text)
    ensures text != [] && IsDigit(text[0])
    ensures ParseMagnitude(text, sign) ==
            if Fits(sign * ScaledOf(text)) then Ok(sign * ScaledOf(text)) else Err(OutOfRange)
  {
    assert Whole(text)[0] == text[0];
  }

  // What the parser refuses of any text: everything that is not shaped after its
  // sign, what is shaped but for its length as too precise, and the rest by size.
  lemma ParseRefuses(raw: string)
    ensures var text, sign := Signless(raw), Sign(raw);
            && (Parse(raw).Ok? <==> Shaped(text) && Fits(sign * ScaledOf(text)))
            && (Parse(raw).Ok? ==> Parse(raw).value == sign * ScaledOf(text))
            && (Parse(raw) == Err(TooPrecise) <==> TooLong(text))
            && (Parse(raw) == Err(OutOfRange) <==> Shaped(text) && !Fits(sign * ScaledOf(text)))
            && (Parse(raw) == Err(Malformed) <==> !Shaped(text) && !TooLong(text))
  {
    assert AllDigits([]);
  }

  lemma PlainDigits(s: string)
    requires AllDigits(s)
    ensures '.' !in s
  {
  }

  lemma Eight()
    ensures Pow(10, PLACES) == SCALE
  {
    assert Pow(10, 4) == 10_000;
    PowAdd(10, 4, 4);
  }

  lemma {:induction false} NumberZeros(k: nat)
    ensures Number(Zeros(k)) == 0
  {
    if k > 0 {
      assert Zeros(k)[..k - 1] == Zeros(k - 1);
      NumberZeros(k - 1);
    }
  }

  lemma ShapeOfWhole(w: string)
    requires AllDigits(w) && w != []
    ensures Shaped(w) && Whole(w) == w && Fraction(w) == []
    ensures ScaledOf(w) == Number(w) * SCALE
  {
    PlainDigits(w);
    SplitPlain(w);
    var none: string := [];
    assert none + Zeros(PLACES) == Zeros(PLACES);
    NumberZeros(PLACES);
  }

  lemma ShapeOfPoint(w: string, f: string)
    requires AllDigits(w) && w != [] && AllDigits(f) && 1 <= |f| <= PLACES
    ensures var text := w + "." + f; Shaped(text) && Whole(text) == w && Fraction(text) == f
  {
    PlainDigits(w);
    PlainDigits(f);
    SplitAtDot(w, f);
    SplitPlain(f);
    assert ([w] + [f])[1] == f;
  }

  // Trimming the padded digits of a fraction keeps the fraction.
  lemma TrimmedFraction(n: nat)
    requires 0 < n < SCALE
    ensures var f := TrimZeros(Padded(n, PLACES));
            AllDigits(f) && 1 <= |f| <= PLACES && Number(f + Zeros(PLACES - |f|)) == n
  {
    var padded := Padded(n, PLACES);
    Eight();
    NumberPadded(n, PLACES);
    TrimmedZeros(padded);
    if TrimZeros(padded) == [] {
      NumberPositive(padded);
    }
  }

  // A printed magnitude is shaped and spells the number it was printed from.
  lemma MagnitudeShape(n: nat)
    ensures Shaped(Magnitude(n)) && ScaledOf(Magnitude(n)) == n
  {
    var w := Spelled(n / SCALE);
    NumberSpelled(n / SCALE);
    if n % SCALE == 0 {
      ShapeOfWhole(w);
    } else {
      TrimmedFraction(n % SCALE);
      ShapeOfPoint(w, TrimZeros(Padded(n % SCALE, PLACES)));
    }
  }

  // Parsing undoes printing on every signed 64-bit scaled value.
  lemma ParseUndoesStr(scaled: int)
    requires Fits(scaled)
    ensures Parse(Str(scaled)) == Ok(scaled)
  {
    var sign := if scaled < 0 then -1 else 1;
    var n := if scaled < 0 then -scaled else scaled;
    MagnitudeShape(n);
    ParseShaped(Magnitude(n), sign);
    if scaled < 0 {
      assert Str(scaled)[1..] == Magnitude(n);
    }
  }

  // --------------------------------------------------------- quantity normalisers

  function WithoutPlus(s: string): string {
    if s != [] && s[0] == '+' then s[1..] else s
  }

  // Both normalisers drop a plus, leading zeros and trailing fraction zeros.
  function Canonical(value: string): string {
    var parts := Split(WithoutPlus(value));
    var whole := DropZeros(parts[0]);
    var fraction := TrimZeros(if |parts| > 1 then parts[1] else []);
    if fraction == [] then whole else whole + "." + fraction
  }

  const MAX_LENGTH: nat := 32

  predicate WellFormed(s: string) {
    Shaped(WithoutPlus(s))
  }

  // What the parser reads in a well-formed quantity.
  function QuantityScaled(s: string): nat
    requires WellFormed(s)
  {
    ScaledOf(WithoutPlus(s))
  }

  // The gateway's quantity: refused when malformed, too long or zero.
  function GatewayQuantity(s: string): Option<string> {
    if |s| > MAX_LENGTH || !WellFormed(s) then None
    else
      var text := WithoutPlus(s);
      if Number(DropZeros(Whole(text)) + (Fraction(text) + Zeros(PLACES - |Fraction(text)|))) == 0 then None
      else Some(Canonical(s))
  }

  lemma TenfoldShift(a: int, p: int, b: int, d: int)
    ensures (a * p + b) * 10 + d == a * (10 * p) + (b * 10 + d)
  {
    assert a * (10 * p) == a * p * 10;
  }

  lemma {:induction false} NumberConcat(a: string, b: string)
    requires AllDigits(a) && AllDigits(b)
    ensures Number(a + b) == Number(a) * Pow(10, |b|) + Number(b)
  {
    if b == [] {
      assert a + b == a;
    } else {
      var init := b[..|b| - 1];
      assert a + b == (a + init) + [b[|b| - 1]];
      NumberAppend(a + init, b[|b| - 1]);
      NumberConcat(a, init);
      TenfoldShift(Number(a), Pow(10, |init|), Number(init), DigitValue(b[|b| - 1]));
    }
  }

  lemma {:induction false} NumberDropZeros(s: string)
    requires AllDigits(s)
    ensures Number(DropZeros(s)) == Number(s)
  {
    if |s| > 1 && s[0] == '0' {
      NumberDropZero(s);
      NumberDropZeros(s[1..]);
    }
  }

  lemma DivMod(a: nat, n: nat)
    requires n < SCALE
    ensures (a * SCALE + n) / SCALE == a && (a * SCALE + n) % SCALE == n
  {
  }

  lemma ZeroDigits(s: string)
    requires AllDigits(s)
    ensures Number(s) == 0 <==> TrimZeros(s) == []
  {
    if Number(s) == 0 {
      NumberOfZero(s);
    } else if TrimZeros(s) == [] {
      NumberPositive(s);
    }
  }

  lemma FractionDigits(fraction: string)
    requires AllDigits(fraction) && |fraction| <= PLACES
    ensures var n := Number(fraction + Zeros(PLACES - |fraction|));
            && n < SCALE && (n == 0 <==> TrimZeros(fraction) == [])
            && TrimZeros(Padded(n, PLACES)) == TrimZeros(fraction)
  {
    var padded := fraction + Zeros(PLACES - |fraction|);
    Eight();
    NumberBelow(padded);
    PaddedNumber(padded);
    TrimPadding(fraction, PLACES - |fraction|);
    ZeroDigits(padded);
  }

  // Digits in normal form: no leading and no trailing zeros, no bare point.
  function Joined(w: string, f: string): string {
    if f == [] then w else w + "." + f
  }

  // Printing the number that digits spell gives the digits in normal form.
  lemma PrintedDigits(whole: string, fraction: string)
    requires AllDigits(whole) && AllDigits(fraction) && whole != [] && |fraction| <= PLACES
    ensures var n := Number(fraction + Zeros(PLACES - |fraction|));
            n < SCALE && Printed(Number(whole), n) == Joined(DropZeros(whole), TrimZeros(fraction))
  {
    FractionDigits(fraction);
    SpelledNumber(whole);
  }

  lemma MagnitudeOf(m: nat, a: nat, n: nat, text: string)
    requires m == a * SCALE + n && n < SCALE && Printed(a, n) == text
    ensures Magnitude(m) == text
  {
    DivMod(a, n);
  }

  lemma MagnitudeSpelling(text: string)
    requires Shaped(text)
    ensures Magnitude(ScaledOf(text)) == Joined(DropZeros(Whole(text)), TrimZeros(Fraction(text)))
  {
    var whole, fraction := Whole(text), Fraction(text);
    PrintedDigits(whole, fraction);
    MagnitudeOf(ScaledOf(text), Number(whole), Number(fraction + Zeros(PLACES - |fraction|)),
                Joined(DropZeros(whole), TrimZeros(fraction)));
  }

  // The gateway, the browser and the analyzer spell an accepted quantity alike,
  // whenever it is in the analyzer's range; otherwise the analyzer refuses it.
  lemma OneSpelling(s: string)
    requires WellFormed(s)
    ensures Canonical(s) == Str(QuantityScaled(s))
    ensures Parse(s) == if Fits(QuantityScaled(s)) then Ok(QuantityScaled(s)) else Err(OutOfRange)
  {
    var text := WithoutPlus(s);
    ParseShaped(text, 1);
    MagnitudeSpelling(text);
  }

  // The gateway accepts exactly the positive well-formed quantities, and what
  // it stores is in normal form and reads back as the same number.
  lemma GatewayAccepts(s: string)
    ensures GatewayQuantity(s).Some? <==> |s| <= 32 && WellFormed(s) && QuantityScaled(s) > 0
    ensures GatewayQuantity(s).Some? ==> GatewayQuantity(s).value == Canonical(s)
  {
    if WellFormed(s) {
      var text := WithoutPlus(s);
      NumberConcat(DropZeros(Whole(text)), Fraction(text) + Zeros(PLACES - |Fraction(text)|));
      NumberDropZeros(Whole(text));
      Eight();
    }
  }

  // A normal form is its own normal form and keeps the number.
  lemma CanonicalIsStable(s: string)
    requires WellFormed(s)
    ensures WellFormed(Canonical(s)) && QuantityScaled(Canonical(s)) == QuantityScaled(s)
    ensures Canonical(Canonical(s)) == Canonical(s)
  {
    OneSpelling(s);
    var n := QuantityScaled(s);
    MagnitudeShape(n);
    ParseShaped(Magnitude(n), 1);
    OneSpelling(Magnitude(n));
  }

  // The analyzer prints a stored quantity back unchanged, so comparing the built
  // report with the request cannot fail on spelling; and the browser finds its
  // own input again in the quote.
  lemma StoredQuantityComesBack(s: string)
    requires GatewayQuantity(s).Some? && Fits(QuantityScaled(s))
    ensures var stored := GatewayQuantity(s).value;
            && Parse(stored) == Ok(QuantityScaled(s)) && Str(QuantityScaled(s)) == stored
            && Canonical(stored) == Canonical(s)
  {
    GatewayAccepts(s);
    CanonicalIsStable(s);
    OneSpelling(s);
    OneSpelling(Canonical(s));
  }
}
