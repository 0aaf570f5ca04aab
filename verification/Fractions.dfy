// Exact rationals: finite decimal expansions, common multiples and lots.

module Fractions {
  import opened Wrappers
  import opened Arith
  import opened Decimals
  import opened Digits

  datatype Fraction = Fraction(num: int, den: int)

  datatype Decimal = Decimal(negative: bool, digits: string, exponent: int)

  predicate Proper(f: Fraction) {
    f.den > 0
  }

  // Equality of the numbers, whatever the terms.
  predicate Same(f: Fraction, g: Fraction) {
    f.num * g.den == g.num * f.den
  }

  predicate Times(n: int, k: int, d: int) {
    n == k * d
  }

  ghost predicate Divides(d: int, n: int) {
    exists k: int :: Times(n, k, d)
  }

  // In lowest terms: no common divisor but one.
  ghost predicate Reduced(f: Fraction) {
    Proper(f) && forall d: int :: d > 0 && Divides(d, f.num) && Divides(d, f.den) ==> d == 1
  }

  // The number is some integer over a power of ten.
  ghost predicate Finite(f: Fraction) {
    exists c: int, k: nat :: FiniteAs(f, c, k)
  }

  predicate FiniteAs(f: Fraction, c: int, k: nat) {
    f.num * Pow(10, k) == c * f.den
  }

  // ------------------------------------------------------------ stripping factors

  lemma Interleave(a: int, x: int, b: int, y: int)
    ensures a * x * (b * y) == a * b * (x * y)
  {
    Regrouped(a * x, b, y);
    assert a * x * b == a * b * x;
    Regrouped(a * b, x, y);
  }

  lemma {:induction false} PowMul(a: nat, b: nat, n: nat)
    requires a > 0 && b > 0 && a * b > 0
    ensures Pow(a, n) * Pow(b, n) == Pow(a * b, n)
  {
    if n > 0 {
      PowMul(a, b, n - 1);
      Interleave(a, Pow(a, n - 1), b, Pow(b, n - 1));
    }
  }

  method Strip(n: nat, p: nat) returns (rest: nat, count: nat)
    requires n > 0 && p > 1
    ensures rest > 0 && n == rest * Pow(p, count) && rest % p != 0
  {
    rest, count := n, 0;
    while rest % p == 0
      invariant rest > 0 && n == rest * Pow(p, count)
      decreases rest
    {
      ghost var before := rest;
      rest := rest / p;
      count := count + 1;
      Peel(before, rest, p, Pow(p, count - 1));
    }
  }

  lemma Peel(before: nat, rest: nat, p: nat, power: nat)
    requires p > 1 && before > 0 && before % p == 0 && rest == before / p
    ensures 0 < rest < before && before * power == rest * (p * power)
  {
    ExactQuotient(before, p);
    assert rest * p * power == rest * (p * power);
  }

  lemma ExactQuotient(n: nat, p: nat)
    requires p > 1 && n > 0 && n % p == 0
    ensures n == n / p * p && 0 < n / p < n
  {
    var q := n / p;
    assert n == q * p + n % p;
    MulMono(2, p, q);
  }

  // A factor without twos and fives drops out of a multiple of ten.
  lemma OddFactor(d: int, m: int, n: int)
    requires d * m == 10 * n && d % 2 != 0 && d % 5 != 0
    ensures m % 10 == 0 && d * (m / 10) == n
  {
    Cofactor(d, m, 2, 5 * n);
    Cofactor(d, m, 5, 2 * n);
    var k := TenTimes(m);
    assert d * (10 * k) == 10 * (d * k);
  }

  // A prime two or five that divides a product but not the first factor divides
  // the second.
  lemma Cofactor(d: int, m: int, p: nat, n: int)
    requires p == 2 || p == 5
    requires d * m == p * n && d % p != 0
    ensures m % p == 0
  {
    ModProduct(d, m, p);
    assert p * n == n * p + 0;
    ModShift(n, 0, p);
    PrimeCases(d % p, m % p, p);
  }

  lemma PrimeCases(a: nat, b: nat, p: nat)
    requires p == 2 || p == 5
    requires 0 < a < p && b < p && a * b % p == 0
    ensures b == 0
  {
    if p == 5 {
      FiveCases(a, b);
    }
  }

  lemma TenTimes(m: int) returns (k: int)
    requires m % 2 == 0 && m % 5 == 0
    ensures m == 10 * k && m % 10 == 0 && k == m / 10
  {
    k := m / 10;
  }

  lemma FiveCases(a: nat, b: nat)
    requires 0 < a < 5 && b < 5 && a * b % 5 == 0
    ensures b == 0
  {
  }

  lemma ModProduct(a: int, b: int, p: nat)
    requires p > 0
    ensures a * b % p == (a % p) * (b % p) % p
  {
    var q, r, s, t := a / p, a % p, b / p, b % p;
    assert a * b == (q * p + r) * (s * p + t);
    assert (q * p + r) * (s * p + t) == (q * s * p + q * t + r * s) * p + r * t;
    ModShift(q * s * p + q * t + r * s, r * t, p);
  }

  lemma ModShift(k: int, x: int, p: nat)
    requires p > 0
    ensures (k * p + x) % p == x % p
  {
    var q := x / p;
    assert x == q * p + x % p;
    assert k * p + x == (k + q) * p + x % p;
    Remainder(k * p + x, k + q, x % p, p);
  }

  lemma Remainder(n: int, q: int, r: int, p: nat)
    requires p > 0 && n == q * p + r && 0 <= r < p
    ensures n % p == r && n / p == q
  {
    var q', r' := n / p, n % p;
    assert n == q' * p + r';
    assert (q - q') * p == r' - r;
    if q > q' {
      MulMono(1, q - q', p);
    } else if q < q' {
      MulMono(q - q', -1, p);
    }
  }

  // A divisor of n times a power of ten that has no twos and no fives divides n.
  lemma {:induction false} OnlyTens(d: int, n: int, k: nat, m: int)
    requires d % 2 != 0 && d % 5 != 0 && d * m == n * Pow(10, k)
    ensures Divides(d, n)
  {
    if k == 0 {
      assert Times(n, m, d);
    } else {
      assert n * (10 * Pow(10, k - 1)) == 10 * (n * Pow(10, k - 1));
      OddFactor(d, m, n * Pow(10, k - 1));
      OnlyTens(d, n, k - 1, m / 10);
    }
  }

  // ------------------------------------------------------ is_terminating_fraction

  // In lowest terms, what is left of the denominator of a finite decimal when
  // its twos and fives are gone divides the numerator, so it is one.
  lemma NothingLeft(f: Fraction, rest: nat, tens: nat, c: int, k: nat)
    requires Reduced(f) && rest % 2 != 0 && rest % 5 != 0
    requires f.den == tens * rest && FiniteAs(f, c, k)
    ensures rest == 1
  {
    Rotate(rest, c, tens);
    Regrouped(c, tens, rest);
    Regrouped(rest, c, tens);
    OnlyTens(rest, f.num, k, c * tens);
    assert Times(f.den, tens, rest);
  }

  // The denominator has only twos and fives exactly when the number has a
  // finite decimal expansion.
  lemma FiniteWhenTwosFives(f: Fraction, rest: nat, twos: nat, fives: nat)
    requires Reduced(f) && rest % 2 != 0 && rest % 5 != 0
    requires f.den == rest * Pow(5, fives) * Pow(2, twos)
    ensures rest == 1 <==> Finite(f)
  {
    Rotate(rest, Pow(5, fives), Pow(2, twos));
    FiniteLeavesNothing(f, rest, Pow(5, fives) * Pow(2, twos));
    if rest == 1 {
      RaisedToTens(f, twos, fives, if twos > fives then twos else fives);
    }
  }

  lemma Rotate(a: int, b: int, c: int)
    ensures a * b * c == b * c * a
  {
    Regrouped(a, b, c);
  }

  lemma FiniteLeavesNothing(f: Fraction, rest: nat, tens: nat)
    requires Reduced(f) && rest % 2 != 0 && rest % 5 != 0 && f.den == tens * rest
    ensures Finite(f) ==> rest == 1
  {
    if Finite(f) {
      var c: int, k: nat :| FiniteAs(f, c, k);
      NothingLeft(f, rest, tens, c, k);
    }
  }

  function Raised(num: int, twos: nat, fives: nat, s: nat): int
    requires twos <= s && fives <= s
  {
    num * Pow(2, s - twos) * Pow(5, s - fives)
  }

  lemma RaisedToTens(f: Fraction, twos: nat, fives: nat, s: nat)
    requires twos <= s && fives <= s && f.den == Pow(5, fives) * Pow(2, twos)
    ensures FiniteAs(f, Raised(f.num, twos, fives, s), s)
  {
    PowAdd(2, s - twos, twos);
    PowAdd(5, s - fives, fives);
    PowMul(2, 5, s);
    Regroup(f.num, Pow(2, s - twos), Pow(5, s - fives), Pow(2, twos), Pow(5, fives));
  }

  lemma Regroup(n: int, a: int, b: int, c: int, d: int)
    ensures n * a * b * (d * c) == n * (a * c * (b * d))
  {
  }

  method IsTerminating(f: Fraction) returns (b: bool)
    requires Reduced(f)
    ensures b <==> Finite(f)
  {
    var odd, twos := Strip(f.den, 2);
    var rest, fives := Strip(odd, 5);
    StaysOdd(odd, rest, Pow(5, fives));
    FiniteWhenTwosFives(f, rest, twos, fives);
    b := rest == 1;
  }

  lemma StaysOdd(odd: nat, rest: nat, power: nat)
    requires odd == rest * power && odd % 2 != 0
    ensures rest % 2 != 0
  {
    ModProduct(rest, power, 2);
  }

  // -------------------------------------------------------- fraction_from_decimal

  predicate WellSpelled(d: Decimal) {
    AllDigits(d.digits)
  }

  function Coefficient(d: Decimal): int
    requires WellSpelled(d)
  {
    if d.negative then 0 - Number(d.digits) else Number(d.digits)
  }

  function ValueOf(d: Decimal): (f: Fraction)
    requires WellSpelled(d)
    ensures Proper(f)
  {
    if d.exponent >= 0 then Fraction(Coefficient(d) * Pow(10, d.exponent), 1)
    else Fraction(Coefficient(d), Pow(10, -d.exponent))
  }

  method FractionFromDecimal(d: Decimal) returns (f: Fraction)
    requires WellSpelled(d)
    ensures f == ValueOf(d)
  {
    var coefficient := 0;
    for i := 0 to |d.digits|
      invariant coefficient == Number(d.digits[..i])
    {
      assert d.digits[..i + 1][..i] == d.digits[..i];
      coefficient := coefficient * 10 + DigitValue(d.digits[i]);
    }
    assert d.digits[..|d.digits|] == d.digits;
    if d.negative {
      coefficient := -coefficient;
    }
    if d.exponent >= 0 {
      return Fraction(coefficient * Pow(10, d.exponent), 1);
    }
    return Fraction(coefficient, Pow(10, -d.exponent));
  }

  // Every decimal stands for a number with a finite expansion.
  lemma DecimalsAreFinite(d: Decimal, f: Fraction)
    requires WellSpelled(d) && Proper(f) && Same(ValueOf(d), f)
    ensures Finite(f)
  {
    var c := Coefficient(d);
    if d.exponent >= 0 {
      assert FiniteAs(f, c * Pow(10, d.exponent), 0);
    } else {
      assert FiniteAs(f, c, -d.exponent);
    }
  }

  // -------------------------------------------------------- decimal_from_fraction

  // Exact on the numbers with a finite expansion and on no others; None stands
  // for the rounded output, which by DecimalsAreFinite can never be exact.
  method DecimalFromFraction(f: Fraction) returns (r: Option<Decimal>)
    requires Reduced(f)
    ensures r.Some? <==> Finite(f)
    ensures r.Some? ==> WellSpelled(r.value) && Same(ValueOf(r.value), f)
  {
    var odd, twos := Strip(f.den, 2);
    var rest, fives := Strip(odd, 5);
    StaysOdd(odd, rest, Pow(5, fives));
    FiniteWhenTwosFives(f, rest, twos, fives);
    if rest != 1 {
      return None;
    }
    var scale: int := if twos > fives then twos else fives;
    var coefficient := f.num * Pow(2, scale - twos);
    coefficient := coefficient * Pow(5, scale - fives);
    RaisedToTens(f, twos, fives, scale);
    var size := if coefficient < 0 then -coefficient else coefficient;
    NumberSpelled(size);
    r := Some(Decimal(coefficient < 0, Spelled(size), -scale));
  }

  // ------------------------------------------------------------------ fraction_lcm

  ghost predicate CommonMultiple(a: int, b: int, m: int) {
    Divides(a, m) && Divides(b, m)
  }

  // The least positive common multiple, looked for upwards.
  ghost function LcmFrom(a: int, b: int, m: int): (r: int)
    requires a > 0 && b > 0 && 0 < m <= a * b
    ensures m <= r <= a * b && CommonMultiple(a, b, r)
    ensures forall k :: m <= k < r ==> !CommonMultiple(a, b, k)
    decreases a * b - m
  {
    if CommonMultiple(a, b, m) then m
    else
      assert CommonMultiple(a, b, a * b) by {
        assert a * b == b * a && Times(a * b, b, a) && Times(a * b, a, b);
      }
      LcmFrom(a, b, m + 1)
  }

  function Abs(a: int): nat {
    if a < 0 then -a else a
  }

  ghost function Lcm(a: int, b: int): (m: int)
    ensures m >= 0 && (m > 0 <==> a != 0 && b != 0)
  {
    if a == 0 || b == 0 then 0
    else
      MulMono(1, Abs(a), Abs(b));
      LcmFrom(Abs(a), Abs(b), 1)
  }

  lemma DividesTimes(d: int, n: int, k: int)
    requires Divides(d, n)
    ensures Divides(d, n * k)
  {
    var q: int :| Times(n, q, d);
    assert n * k == (q * k) * d && Times(n * k, q * k, d);
  }

  lemma DividesDifference(d: int, m: int, n: int)
    requires Divides(d, m) && Divides(d, n)
    ensures Divides(d, m - n)
  {
    var p: int :| Times(m, p, d);
    var q: int :| Times(n, q, d);
    assert m - n == (p - q) * d && Times(m - n, p - q, d);
  }

  lemma DividesAbs(d: int, n: int)
    ensures Divides(Abs(d), n) <==> Divides(d, n)
  {
    if Divides(Abs(d), n) {
      var q: int :| Times(n, q, Abs(d));
      assert Times(n, if d < 0 then -q else q, d);
    }
    if Divides(d, n) {
      var q: int :| Times(n, q, d);
      assert Times(n, if d < 0 then -q else q, Abs(d));
    }
  }

  lemma LcmIsCommon(a: int, b: int)
    ensures CommonMultiple(a, b, Lcm(a, b))
  {
    if a == 0 || b == 0 {
      assert Times(0, 0, a) && Times(0, 0, b);
    } else {
      DividesAbs(a, Lcm(a, b));
      DividesAbs(b, Lcm(a, b));
    }
  }

  // The least common multiple divides every common multiple: the remainder
  // would be a smaller one.
  lemma LcmDivides(a: int, b: int, m: int)
    requires CommonMultiple(a, b, m)
    ensures Divides(Lcm(a, b), m)
  {
    var x := Lcm(a, b);
    if a == 0 || b == 0 {
      var k: int :| Times(m, k, if a == 0 then a else b);
      assert Times(m, 0, x);
    } else {
      var q, r := m / x, m % x;
      LcmIsCommon(a, b);
      LeavesMultiple(a, x, m, q, r);
      LeavesMultiple(b, x, m, q, r);
      NoneBelow(a, b, r);
      assert Times(m, q, x);
    }
  }

  lemma NoneBelow(a: int, b: int, r: int)
    requires a != 0 && b != 0 && 0 <= r < Lcm(a, b) && CommonMultiple(a, b, r)
    ensures r == 0
  {
    DividesAbs(a, r);
    DividesAbs(b, r);
    assert CommonMultiple(Abs(a), Abs(b), r);
  }

  lemma LeavesMultiple(d: int, x: int, m: int, q: int, r: int)
    requires Divides(d, x) && m == q * x + r
    ensures Divides(d, m) ==> Divides(d, r)
  {
    if Divides(d, m) {
      DividesTimes(d, x, q);
      assert x * q == q * x;
      DividesDifference(d, m, x * q);
    }
  }

  // The fraction x is the integer k times f.
  predicate Count(x: Fraction, k: int, f: Fraction) {
    x.num * f.den == k * f.num * x.den
  }

  ghost predicate MultipleOf(x: Fraction, f: Fraction) {
    exists k: int :: Count(x, k, f)
  }

  // The numerator of f over the common denominator d.
  function Over(f: Fraction, d: int): int
    requires Proper(f)
  {
    f.num * (d / f.den)
  }

  ghost function FractionLcm(left: Fraction, right: Fraction): (f: Fraction)
    requires Proper(left) && Proper(right)
    ensures Proper(f)
  {
    var d := Lcm(left.den, right.den);
    Fraction(Lcm(Over(left, d), Over(right, d)), d)
  }

  lemma OverSame(f: Fraction, d: int)
    requires Proper(f) && Divides(f.den, d)
    ensures f.num * d == Over(f, d) * f.den
  {
    var a: int :| Times(d, a, f.den);
    Remainder(d, a, 0, f.den);
    assert f.num * (a * f.den) == f.num * a * f.den;
  }

  lemma OverCount(x: Fraction, k: int, f: Fraction, d: int)
    requires Proper(f) && d > 0 && f.num * d == Over(f, d) * f.den
    ensures Count(x, k, f) <==> x.num * d == k * Over(f, d) * x.den
  {
    CrossScale(x.num, f.den, k, f.num, x.den, d, Over(f, d));
  }

  lemma CrossScale(xn: int, fd: int, k: int, fn: int, xd: int, d: int, o: int)
    requires fd > 0 && d > 0 && fn * d == o * fd
    ensures xn * fd == k * fn * xd <==> xn * d == k * o * xd
  {
    calc {
      k * fn * xd * d;
      k * xd * (fn * d);
      k * xd * (o * fd);
      k * o * xd * fd;
    }
    assert xn * fd * d == xn * d * fd;
    Cancel(xn * fd, k * fn * xd, d);
    Cancel(xn * d, k * o * xd, fd);
  }

  lemma Cancel(a: int, b: int, k: int)
    requires k > 0
    ensures a == b <==> a * k == b * k
  {
    if a < b {
      MulMono(a + 1, b, k);
      assert (a + 1) * k == a * k + k;
    } else if b < a {
      MulMono(b + 1, a, k);
      assert (b + 1) * k == b * k + k;
    }
  }

  // A common multiple of both fractions, positive when both are not zero.
  lemma FractionLcmIsCommon(left: Fraction, right: Fraction)
    requires Proper(left) && Proper(right)
    ensures var f := FractionLcm(left, right); MultipleOf(f, left) && MultipleOf(f, right)
    ensures FractionLcm(left, right).num > 0 <==> left.num != 0 && right.num != 0
  {
    var d := Lcm(left.den, right.den);
    var a, b := Over(left, d), Over(right, d);
    LcmIsCommon(left.den, right.den);
    LcmIsCommon(a, b);
    OverMultiple(left, d, Lcm(a, b));
    OverMultiple(right, d, Lcm(a, b));
  }

  lemma OverMultiple(f: Fraction, d: int, m: int)
    requires Proper(f) && d > 0 && Divides(f.den, d) && Divides(Over(f, d), m)
    ensures MultipleOf(Fraction(m, d), f)
    ensures Over(f, d) == 0 <==> f.num == 0
  {
    OverSame(f, d);
    Cancel(f.num, 0, d);
    Cancel(Over(f, d), 0, f.den);
    var k: int :| Times(m, k, Over(f, d));
    OverCount(Fraction(m, d), k, f, d);
  }

  // It divides every common multiple, so it is the smallest.
  lemma FractionLcmDivides(left: Fraction, right: Fraction, x: Fraction)
    requires Proper(left) && Proper(right) && Proper(x) && MultipleOf(x, left) && MultipleOf(x, right)
    ensures MultipleOf(x, FractionLcm(left, right))
  {
    var d := Lcm(left.den, right.den);
    var a, b := Over(left, d), Over(right, d);
    LcmIsCommon(left.den, right.den);
    OverSame(left, d);
    OverSame(right, d);
    var j: int :| Count(x, j, left);
    var k: int :| Count(x, k, right);
    OverCount(x, j, left, d);
    OverCount(x, k, right, d);
    Cancel(j * a, k * b, x.den);
    assert Times(j * a, j, a) && Times(j * a, k, b);
    LcmDivides(a, b, j * a);
    var t: int :| Times(j * a, t, Lcm(a, b));
    assert Count(x, t, FractionLcm(left, right));
  }

  // ---------------------------------------------------------- round_up_to_multiple

  // The least integer at or above the fraction, in whatever terms it is given.
  function Ceiling(units: Fraction): int
    requires Proper(units)
  {
    (units.num + units.den - 1) / units.den
  }

  lemma CeilingIsLeast(units: Fraction, j: int)
    requires Proper(units)
    ensures Ceiling(units) <= j <==> units.num <= j * units.den
  {
    AtMostFloor(j + 1, units.num + units.den - 1, units.den);
    assert (j + 1) * units.den == j * units.den + units.den;
  }

  function Lots(k: int, lot: Fraction): Fraction {
    Fraction(k * lot.num, lot.den)
  }

  predicate AtLeast(f: Fraction, g: Fraction) {
    f.num * g.den >= g.num * f.den
  }

  function RoundUpToMultiple(units: Fraction, lot: Fraction): Fraction
    requires Proper(units)
  {
    Lots(Ceiling(units), lot)
  }

  // With units the quotient of value by lot, the result is the least multiple
  // of the lot that is not below the value.
  lemma RoundUpIsLeast(value: Fraction, lot: Fraction, units: Fraction, j: int)
    requires Proper(value) && Proper(lot) && lot.num > 0 && Proper(units)
    requires Same(units, Fraction(value.num * lot.den, value.den * lot.num))
    ensures AtLeast(RoundUpToMultiple(units, lot), value)
    ensures AtLeast(Lots(j, lot), value) <==> AtLeast(Lots(j, lot), RoundUpToMultiple(units, lot))
  {
    LotsReach(value, lot, units, j);
    LotsReach(value, lot, units, Ceiling(units));
    var c := Ceiling(units);
    MulMono(1, lot.num, lot.den);
    CancelLess(c, j, lot.num * lot.den);
    assert c * (lot.num * lot.den) == c * lot.num * lot.den && j * (lot.num * lot.den) == j * lot.num * lot.den;
  }

  lemma LotsReach(value: Fraction, lot: Fraction, units: Fraction, j: int)
    requires Proper(value) && Proper(lot) && lot.num > 0 && Proper(units)
    requires Same(units, Fraction(value.num * lot.den, value.den * lot.num))
    ensures AtLeast(Lots(j, lot), value) <==> Ceiling(units) <= j
  {
    CeilingIsLeast(units, j);
    MulMono(1, value.den, lot.num);
    Rescale(units.num, units.den, value.num * lot.den, value.den * lot.num, j);
    assert j * (value.den * lot.num) == j * lot.num * value.den;
  }

  lemma Rescale(un: int, ud: int, w: int, v: int, j: int)
    requires ud > 0 && v > 0 && un * v == w * ud
    ensures un <= j * ud <==> w <= j * v
  {
    CancelLess(un, j * ud, v);
    CancelLess(w, j * v, ud);
    assert j * ud * v == j * v * ud;
  }

  lemma CancelLess(a: int, b: int, k: int)
    requires k > 0
    ensures a <= b <==> a * k <= b * k
  {
    if a <= b {
      MulMono(a, b, k);
    } else {
      MulMono(b + 1, a, k);
      assert (b + 1) * k == b * k + k;
    }
  }
}
