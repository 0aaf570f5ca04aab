// Constant-product exact-input quotes of the evidence report, and their exact
// inverse through the truncated fee and the truncated division.

module Amm {
  import opened Wrappers
  import opened Arith

  const WORD: nat := 0x1_0000_0000_0000_0000_0000_0000_0000_0000_0000_0000_0000_0000_0000_0000_0000_0000
  const BPS: nat := 10_000

  datatype AmmError = InvalidInput | ArithmeticOverflow | InsufficientLiquidity

  predicate ValidInputs(amount: int, reserveIn: int, reserveOut: int, feeBps: int) {
    0 <= amount < WORD && 0 < reserveIn < WORD && 0 < reserveOut < WORD && 0 <= feeBps < BPS
  }

  // The input that reaches the pool once the floored fee is taken.
  function Net(amount: nat, feeBps: nat): (net: nat)
    requires feeBps < BPS
    ensures net <= amount
    ensures BPS * net >= amount * (BPS - feeBps) && BPS * net < amount * (BPS - feeBps) + BPS
  {
    FloorBounds(amount * feeBps, BPS);
    assert amount * (BPS - feeBps) == amount * BPS - amount * feeBps;
    MulMono(feeBps, BPS, amount);
    assert amount * feeBps / BPS <= amount by { AtMostFloor(amount + 1, amount * feeBps, BPS); }
    amount - amount * feeBps / BPS
  }

  function Swap(net: nat, reserveIn: nat, reserveOut: nat): (out: nat)
    requires reserveIn > 0
    ensures out * (reserveIn + net) <= net * reserveOut < (out + 1) * (reserveIn + net)
  {
    FloorBounds(net * reserveOut, reserveIn + net);
    net * reserveOut / (reserveIn + net)
  }

  // The quote without the word-size checks.
  function Output(amount: nat, reserveIn: nat, reserveOut: nat, feeBps: nat): nat
    requires reserveIn > 0 && feeBps < BPS
  {
    Swap(Net(amount, feeBps), reserveIn, reserveOut)
  }

  predicate Fits(amount: nat, reserveIn: nat, reserveOut: nat, feeBps: nat)
    requires feeBps < BPS
  {
    var net := Net(amount, feeBps);
    amount * feeBps < WORD && net * reserveOut < WORD && reserveIn + net < WORD
  }

  function AmountOut(amount: int, reserveIn: int, reserveOut: int, feeBps: int): Result<nat, AmmError> {
    if !ValidInputs(amount, reserveIn, reserveOut, feeBps) then Err(InvalidInput)
    else if amount * feeBps >= WORD then Err(ArithmeticOverflow)
    else
      var net := Net(amount, feeBps);
      if net * reserveOut >= WORD || reserveIn + net >= WORD then Err(ArithmeticOverflow)
      else Ok(Swap(net, reserveIn, reserveOut))
  }

  // The least input that reaches `quantity`, without the word-size checks.
  function LeastInput(quantity: nat, reserveIn: nat, reserveOut: nat, feeBps: nat): nat
    requires 0 < quantity < reserveOut && 0 < reserveIn && feeBps < BPS
  {
    var requiredNet := CeilDiv(quantity * reserveIn, reserveOut - quantity);
    MulMono(1, quantity, reserveIn);
    FloorBounds((requiredNet - 1) * BPS, BPS - feeBps);
    (requiredNet - 1) * BPS / (BPS - feeBps) + 1
  }

  function AmountIn(quantity: int, reserveIn: int, reserveOut: int, feeBps: int): Result<nat, AmmError> {
    if !ValidInputs(quantity, reserveIn, reserveOut, feeBps) then Err(InvalidInput)
    else if quantity >= reserveOut then Err(InsufficientLiquidity)
    else if quantity == 0 then Ok(0)
    else
      var amount := LeastInput(quantity, reserveIn, reserveOut, feeBps);
      var achieved :- AmountOut(amount, reserveIn, reserveOut, feeBps);
      Ok(amount)
  }

  // -------------------------------------------------------------- the quote

  lemma NetReaches(amount: nat, feeBps: nat, n: nat)
    requires feeBps < BPS && n > 0
    ensures Net(amount, feeBps) >= n <==> amount * (BPS - feeBps) > (n - 1) * BPS
  {
  }

  lemma NetMono(a: nat, b: nat, feeBps: nat)
    requires a <= b && feeBps < BPS
    ensures Net(a, feeBps) <= Net(b, feeBps)
  {
    MulMono(a, b, BPS - feeBps);
    var n := Net(a, feeBps);
    if n > 0 {
      NetReaches(a, feeBps, n);
      NetReaches(b, feeBps, n);
    }
  }

  lemma SwapReaches(net: nat, reserveIn: nat, reserveOut: nat, quantity: nat)
    requires reserveIn > 0 && quantity < reserveOut
    ensures Swap(net, reserveIn, reserveOut) >= quantity <==> CeilDiv(quantity * reserveIn, reserveOut - quantity) <= net
  {
    AtMostFloor(quantity, net * reserveOut, reserveIn + net);
    AtLeastCeil(net, quantity * reserveIn, reserveOut - quantity);
    assert quantity * (reserveIn + net) == quantity * reserveIn + quantity * net;
    assert net * (reserveOut - quantity) == net * reserveOut - net * quantity;
  }

  // No input, however large, drains the pool.
  lemma OutputBelowReserve(amount: nat, reserveIn: nat, reserveOut: nat, feeBps: nat)
    requires reserveIn > 0 && reserveOut > 0 && feeBps < BPS
    ensures Output(amount, reserveIn, reserveOut, feeBps) < reserveOut
  {
    var net := Net(amount, feeBps);
    AtMostFloor(reserveOut, net * reserveOut, reserveIn + net);
    assert reserveOut * (reserveIn + net) == reserveOut * reserveIn + net * reserveOut;
    MulMono(1, reserveOut, reserveIn);
  }

  // ------------------------------------------------------------ the inverse

  // An input reaches the quantity exactly when it is at least LeastInput.
  lemma LeastInputDecides(amount: nat, quantity: nat, reserveIn: nat, reserveOut: nat, feeBps: nat)
    requires 0 < quantity < reserveOut && reserveIn > 0 && feeBps < BPS
    ensures Output(amount, reserveIn, reserveOut, feeBps) >= quantity <==>
            amount >= LeastInput(quantity, reserveIn, reserveOut, feeBps)
  {
    var n := CeilDiv(quantity * reserveIn, reserveOut - quantity);
    SwapReaches(Net(amount, feeBps), reserveIn, reserveOut, quantity);
    MulMono(1, quantity, reserveIn);
    AtLeastCeil(0, quantity * reserveIn, reserveOut - quantity);
    NetReaches(amount, feeBps, n);
    AtMostFloor(amount, (n - 1) * BPS, BPS - feeBps);
  }

  lemma OutputMono(a: nat, b: nat, reserveIn: nat, reserveOut: nat, feeBps: nat)
    requires a <= b && reserveIn > 0 && reserveOut > 0 && feeBps < BPS
    ensures Output(a, reserveIn, reserveOut, feeBps) <= Output(b, reserveIn, reserveOut, feeBps)
  {
    var q := Output(a, reserveIn, reserveOut, feeBps);
    OutputBelowReserve(a, reserveIn, reserveOut, feeBps);
    if q > 0 {
      LeastInputDecides(a, q, reserveIn, reserveOut, feeBps);
      LeastInputDecides(b, q, reserveIn, reserveOut, feeBps);
    }
  }

  // Smaller inputs overflow no earlier.
  lemma FitsBelow(a: nat, b: nat, reserveIn: nat, reserveOut: nat, feeBps: nat)
    requires a <= b && feeBps < BPS && Fits(b, reserveIn, reserveOut, feeBps)
    ensures Fits(a, reserveIn, reserveOut, feeBps)
  {
    NetMono(a, b, feeBps);
    MulMono(a, b, feeBps);
    MulMono(Net(a, feeBps), Net(b, feeBps), reserveOut);
  }

  lemma AmountOutIs(amount: nat, reserveIn: int, reserveOut: int, feeBps: int)
    requires 0 < reserveIn < WORD && 0 < reserveOut < WORD && 0 <= feeBps < BPS
    ensures var r := AmountOut(amount, reserveIn, reserveOut, feeBps);
            && (r.Ok? <==> amount < WORD && Fits(amount, reserveIn, reserveOut, feeBps))
            && (r.Ok? ==> r.value == Output(amount, reserveIn, reserveOut, feeBps))
  {
  }

  // What the pool pays, in products: the fee is the floored share of the input,
  // the output the floored share that the rest buys, and nothing else than a
  // word that overflows refuses valid inputs.
  lemma AmountOutMeans(amount: int, reserveIn: int, reserveOut: int, feeBps: int, fee: int)
    requires 10_000 * fee <= amount * feeBps < 10_000 * (fee + 1)
    ensures var r, net := AmountOut(amount, reserveIn, reserveOut, feeBps), amount - fee;
            && (r == Err(InvalidInput) <==>
                  !(0 <= amount < WORD && 0 < reserveIn < WORD && 0 < reserveOut < WORD && 0 <= feeBps < 10_000))
            && (r == Err(ArithmeticOverflow) <==>
                  && r != Err(InvalidInput)
                  && (amount * feeBps >= WORD || net * reserveOut >= WORD || reserveIn + net >= WORD))
            && (r.Ok? ==> r.value * (reserveIn + net) <= net * reserveOut < (r.value + 1) * (reserveIn + net))
            && r != Err(InsufficientLiquidity)
  {
    if AmountOut(amount, reserveIn, reserveOut, feeBps) != Err(InvalidInput) {
      FloorBounds(amount * feeBps, BPS);
      assert fee == amount * feeBps / BPS;
      assert Net(amount, feeBps) == amount - fee;
    }
  }

  // AmountIn returns the least executable input whose quote reaches the
  // quantity: every smaller one is executable and falls short.
  lemma AmountInIsLeast(quantity: int, reserveIn: int, reserveOut: int, feeBps: int, smaller: nat)
    requires AmountIn(quantity, reserveIn, reserveOut, feeBps).Ok?
    ensures var a := AmountIn(quantity, reserveIn, reserveOut, feeBps).value;
            && AmountOut(a, reserveIn, reserveOut, feeBps).Ok?
            && AmountOut(a, reserveIn, reserveOut, feeBps).value >= quantity
            && (smaller < a ==>
                  AmountOut(smaller, reserveIn, reserveOut, feeBps).Ok?
                  && AmountOut(smaller, reserveIn, reserveOut, feeBps).value < quantity)
  {
    var a := AmountIn(quantity, reserveIn, reserveOut, feeBps).value;
    AmountOutIs(a, reserveIn, reserveOut, feeBps);
    if quantity == 0 {
      assert Net(0, feeBps) == 0;
      assert 0 * feeBps == 0;
    } else {
      LeastInputDecides(a, quantity, reserveIn, reserveOut, feeBps);
      if smaller < a {
        LeastInputDecides(smaller, quantity, reserveIn, reserveOut, feeBps);
        FitsBelow(smaller, a, reserveIn, reserveOut, feeBps);
        AmountOutIs(smaller, reserveIn, reserveOut, feeBps);
      }
    }
  }

  // Some input below the word size reaches the quantity, checks aside.
  ghost predicate Reached(quantity: nat, reserveIn: nat, reserveOut: nat, feeBps: nat)
    requires reserveIn > 0 && reserveOut > 0 && feeBps < BPS
  {
    exists a: nat :: a < WORD && Output(a, reserveIn, reserveOut, feeBps) >= quantity
  }

  // Some input that the pool's checks let through reaches the quantity.
  ghost predicate Executable(quantity: int, reserveIn: int, reserveOut: int, feeBps: int) {
    exists a: nat ::
      var r := AmountOut(a, reserveIn, reserveOut, feeBps); r.Ok? && r.value >= quantity
  }

  // AmountIn fails only when it must, and each error has its own case.
  lemma AmountInComplete(quantity: int, reserveIn: int, reserveOut: int, feeBps: int)
    ensures var r, valid := AmountIn(quantity, reserveIn, reserveOut, feeBps),
                            ValidInputs(quantity, reserveIn, reserveOut, feeBps);
            && (r.Ok? <==> valid && Executable(quantity, reserveIn, reserveOut, feeBps))
            && (r == Err(InsufficientLiquidity) <==> valid && quantity >= reserveOut)
            && (r == Err(InvalidInput) <==>
                  !valid || (quantity < reserveOut && !Reached(quantity, reserveIn, reserveOut, feeBps)))
            && (r == Err(ArithmeticOverflow) <==>
                  && valid && quantity < reserveOut && Reached(quantity, reserveIn, reserveOut, feeBps)
                  && !Executable(quantity, reserveIn, reserveOut, feeBps))
  {
    if ValidInputs(quantity, reserveIn, reserveOut, feeBps) {
      OkWhenExecutable(quantity, reserveIn, reserveOut, feeBps);
      if quantity == 0 {
        assert Output(0, reserveIn, reserveOut, feeBps) >= quantity;
      } else if quantity < reserveOut {
        ReachedByLeast(quantity, reserveIn, reserveOut, feeBps);
      }
    }
  }

  lemma ReachedByLeast(quantity: nat, reserveIn: nat, reserveOut: nat, feeBps: nat)
    requires 0 < quantity < reserveOut && reserveIn > 0 && feeBps < BPS
    ensures Reached(quantity, reserveIn, reserveOut, feeBps) <==> LeastInput(quantity, reserveIn, reserveOut, feeBps) < WORD
  {
    var least := LeastInput(quantity, reserveIn, reserveOut, feeBps);
    LeastInputDecides(least, quantity, reserveIn, reserveOut, feeBps);
    if Reached(quantity, reserveIn, reserveOut, feeBps) {
      var a: nat :| a < WORD && Output(a, reserveIn, reserveOut, feeBps) >= quantity;
      LeastInputDecides(a, quantity, reserveIn, reserveOut, feeBps);
    }
  }

  // Some executable input reaches the quantity if and only if AmountIn returns
  // one.
  lemma OkWhenExecutable(quantity: int, reserveIn: int, reserveOut: int, feeBps: int)
    requires ValidInputs(quantity, reserveIn, reserveOut, feeBps)
    ensures AmountIn(quantity, reserveIn, reserveOut, feeBps).Ok? <==>
            Executable(quantity, reserveIn, reserveOut, feeBps)
  {
    if AmountIn(quantity, reserveIn, reserveOut, feeBps).Ok? {
      AmountInIsLeast(quantity, reserveIn, reserveOut, feeBps, 0);
    }
    if Executable(quantity, reserveIn, reserveOut, feeBps) {
      var a: nat :| var r := AmountOut(a, reserveIn, reserveOut, feeBps); r.Ok? && r.value >= quantity;
      AmountOutIs(a, reserveIn, reserveOut, feeBps);
      OutputBelowReserve(a, reserveIn, reserveOut, feeBps);
      if quantity > 0 {
        var least := LeastInput(quantity, reserveIn, reserveOut, feeBps);
        LeastInputDecides(a, quantity, reserveIn, reserveOut, feeBps);
        FitsBelow(least, a, reserveIn, reserveOut, feeBps);
        AmountOutIs(least, reserveIn, reserveOut, feeBps);
      }
    }
  }
}
