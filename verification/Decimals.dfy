// Powers, and the scale of the eight-decimal integers the analyzer trades in.

module Decimals {
  import opened Arith

  const PLACES: int := 8
  const SCALE: int := 100_000_000
  const MIN_SCALED: int := -0x8000_0000_0000_0000
  const MAX_SCALED: int := 0x7fff_ffff_ffff_ffff

  function Pow(b: nat, n: nat): (r: nat)
    requires b > 0
    ensures r > 0
  {
    if n == 0 then 1 else
      MulMono(1, Pow(b, n - 1), b);
      b * Pow(b, n - 1)
  }

  lemma Regrouped(a: int, b: int, c: int)
    ensures a * (b * c) == a * b * c
  {
  }

  lemma {:induction false} PowAdd(b: nat, m: nat, n: nat)
    requires b > 0
    ensures Pow(b, m + n) == Pow(b, m) * Pow(b, n)
  {
    if m > 0 {
      PowAdd(b, m - 1, n);
      Regrouped(b, Pow(b, m - 1), Pow(b, n));
    }
  }
}
