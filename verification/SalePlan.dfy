// The browser's plan for selling BTC into the pool in slices that each stay
// under an impact cap.

module SalePlan {
  import opened Arith
  import opened Amm

  datatype Pool = Pool(btc: int, musd: int, feeBps: int)

  datatype Slice = Slice(amountIn: nat, amountOut: nat, fee: nat, impact: nat)

  datatype Reason = BadSettings | NotExecutable | CannotSplit | TooManyParts

  datatype Plan =
    | Executable(totalIn: nat, estimatedOut: nat, estimatedFee: nat, slices: seq<Slice>, aggregateImpact: nat)
    | Refused(reason: Reason)

  const MAX_SLICES: nat := 1000

  predicate Live(pool: Pool) {
    pool.btc > 0 && pool.musd > 0 && 0 <= pool.feeBps < BPS
  }

  // The fee is what 10000 divides out of the amount by its basis points.
  predicate IsFee(amount: int, fee: int, feeBps: int) {
    10_000 * fee <= amount * feeBps < 10_000 * (fee + 1)
  }

  // The output keeps the product of the reserves, the fee left out, as nearly as
  // a whole number can.
  predicate IsOutput(net: int, out: int, btc: int, musd: int) {
    out * (btc + net) <= net * musd < (out + 1) * (btc + net)
  }

  // Impact is the shortfall against the spot price in whole basis points of it.
  predicate IsImpact(amount: int, out: int, impact: int, btc: int, musd: int) {
    impact * (amount * musd) <= (amount * musd - out * btc) * 10_000 < (impact + 1) * (amount * musd)
  }

  function Fee(amount: nat, pool: Pool): (fee: nat)
    requires Live(pool)
    ensures IsFee(amount, fee, pool.feeBps)
  {
    FloorBounds(amount * pool.feeBps, BPS);
    amount * pool.feeBps / BPS
  }

  function Quote(amount: nat, pool: Pool): (out: nat)
    requires Live(pool)
    ensures out < pool.musd && IsOutput(amount - Fee(amount, pool), out, pool.btc, pool.musd)
  {
    OutputBelowReserve(amount, pool.btc, pool.musd, pool.feeBps);
    Swap(Net(amount, pool.feeBps), pool.btc, pool.musd)
  }

  // Shortfall against the spot price, in basis points, floored.
  function Impact(amount: nat, out: nat, pool: Pool): (impact: int)
    requires Live(pool) && amount > 0
    ensures IsImpact(amount, out, impact, pool.btc, pool.musd)
  {
    MulMono(1, amount, pool.musd);
    FloorBounds((amount * pool.musd - out * pool.btc) * BPS, amount * pool.musd);
    (amount * pool.musd - out * pool.btc) * BPS / (amount * pool.musd)
  }

  function ImpactOf(amount: nat, pool: Pool): int
    requires Live(pool) && amount > 0
  {
    Impact(amount, Quote(amount, pool), pool)
  }

  // A sale never gets more than the spot price, so impact is never negative
  // and the truncating division is the floored one.
  lemma ImpactInRange(amount: nat, pool: Pool)
    requires Live(pool) && amount > 0
    ensures Quote(amount, pool) * (pool.btc + Net(amount, pool.feeBps)) <= amount * pool.musd
    ensures 0 <= ImpactOf(amount, pool) <= BPS
  {
    var net, out := Net(amount, pool.feeBps), Quote(amount, pool);
    SpotBounds(amount, net, out, pool.btc, pool.musd);
    ShareInRange(amount * pool.musd - out * pool.btc, amount * pool.musd);
  }

  lemma SpotBounds(amount: nat, net: nat, out: nat, btc: nat, musd: nat)
    requires out * (btc + net) <= net * musd && net <= amount && 0 < amount && 0 < musd
    ensures out * (btc + net) <= amount * musd && 0 <= out * btc <= amount * musd && 0 < amount * musd
  {
    MulMono(net, amount, musd);
    MulMono(btc, btc + net, out);
    MulMono(0, out, btc);
    MulMono(1, amount, musd);
  }

  lemma ShareInRange(part: int, whole: int)
    requires 0 <= part <= whole && 0 < whole
    ensures 0 <= part * BPS / whole <= BPS
  {
    AtMostFloor(0, part * BPS, whole);
    AtMostFloor(BPS + 1, part * BPS, whole);
  }

  // ------------------------------------------------------------------ maxPart

  // Largest under the cap among its neighbours: impact is not monotone under
  // rounding, so this is all a bisection can promise.
  ghost predicate LocallyLargest(part: nat, pool: Pool, cap: nat)
    requires Live(pool)
  {
    && 1 <= part <= pool.btc
    && (part == 1 || ImpactOf(part, pool) <= cap)
    && (part == pool.btc || ImpactOf(part + 1, pool) > cap)
  }

  method MaxPart(pool: Pool, cap: nat) returns (part: nat)
    requires Live(pool)
    ensures LocallyLargest(part, pool, cap)
  {
    var lo, hi := 1, pool.btc;
    while lo < hi
      invariant 1 <= lo <= hi <= pool.btc
      invariant lo == 1 || ImpactOf(lo, pool) <= cap
      invariant hi == pool.btc || ImpactOf(hi + 1, pool) > cap
    {
      var mid := (lo + hi + 1) / 2;
      var out := Quote(mid, pool);
      if Impact(mid, out, pool) <= cap {
        lo := mid;
      } else {
        hi := mid - 1;
      }
    }
    part := lo;
  }

  // ------------------------------------------------------------ replaying slices

  function Traded(pool: Pool, slice: Slice): Pool {
    pool.(btc := pool.btc + slice.amountIn, musd := pool.musd - slice.amountOut)
  }

  // Every slice is quoted on the reserves that the earlier ones leave.
  ghost predicate Replays(pool: Pool, slices: seq<Slice>, cap: nat)
    decreases |slices|
  {
    Live(pool) &&
    (slices == [] ||
     var s := slices[0];
     && s.amountIn > 0 && 0 < s.amountOut && s.amountOut == Quote(s.amountIn, pool)
     && s.fee == Fee(s.amountIn, pool) && s.impact == ImpactOf(s.amountIn, pool) && s.impact <= cap
     && Replays(Traded(pool, s), slices[1..], cap))
  }

  function After(pool: Pool, slices: seq<Slice>): Pool
    decreases |slices|
  {
    if slices == [] then pool else After(Traded(pool, slices[0]), slices[1..])
  }

  function TotalIn(slices: seq<Slice>): nat {
    if slices == [] then 0 else slices[0].amountIn + TotalIn(slices[1..])
  }

  function TotalOut(slices: seq<Slice>): nat {
    if slices == [] then 0 else slices[0].amountOut + TotalOut(slices[1..])
  }

  function TotalFee(slices: seq<Slice>): nat {
    if slices == [] then 0 else slices[0].fee + TotalFee(slices[1..])
  }

  lemma {:induction false} TotalsAppend(slices: seq<Slice>, s: Slice)
    ensures TotalIn(slices + [s]) == TotalIn(slices) + s.amountIn
    ensures TotalOut(slices + [s]) == TotalOut(slices) + s.amountOut
    ensures TotalFee(slices + [s]) == TotalFee(slices) + s.fee
  {
    if slices != [] {
      assert (slices + [s])[1..] == slices[1..] + [s];
      TotalsAppend(slices[1..], s);
    }
  }

  lemma {:induction false} AfterTotals(pool: Pool, slices: seq<Slice>)
    ensures After(pool, slices) == Pool(pool.btc + TotalIn(slices), pool.musd - TotalOut(slices), pool.feeBps)
    decreases |slices|
  {
    if slices != [] {
      AfterTotals(Traded(pool, slices[0]), slices[1..]);
    }
  }

  lemma {:induction false} ReplaysAppend(pool: Pool, slices: seq<Slice>, s: Slice, cap: nat)
    requires Replays(pool, slices, cap) && Live(After(pool, slices))
    requires Replays(After(pool, slices), [s], cap)
    ensures Replays(pool, slices + [s], cap) && After(pool, slices + [s]) == Traded(After(pool, slices), s)
    decreases |slices|
  {
    if slices == [] {
      assert slices + [s] == [s];
    } else {
      assert (slices + [s])[0] == slices[0] && (slices + [s])[1..] == slices[1..] + [s];
      ReplaysAppend(Traded(pool, slices[0]), slices[1..], s, cap);
    }
  }

  // What one slice is on the reserves it met.
  predicate SliceOf(s: Slice, btc: int, musd: int, feeBps: int) {
    && s.amountIn > 0 && s.amountOut > 0 && IsFee(s.amountIn, s.fee, feeBps)
    && IsOutput(s.amountIn - s.fee, s.amountOut, btc, musd)
    && IsImpact(s.amountIn, s.amountOut, s.impact, btc, musd)
  }

  // Slice i met the reserves with all earlier inputs added and outputs taken.
  ghost predicate SlicesOf(pool: Pool, slices: seq<Slice>, cap: nat) {
    forall i :: 0 <= i < |slices| ==>
      && SliceOf(slices[i], pool.btc + TotalIn(slices[..i]), pool.musd - TotalOut(slices[..i]), pool.feeBps)
      && slices[i].impact <= cap
  }

  lemma {:induction false} ReplaysAt(pool: Pool, slices: seq<Slice>, cap: nat, i: nat)
    requires Replays(pool, slices, cap) && i < |slices|
    ensures var met := After(pool, slices[..i]);
            SliceOf(slices[i], met.btc, met.musd, met.feeBps) && slices[i].impact <= cap
    decreases i
  {
    if i > 0 {
      assert slices[..i][0] == slices[0] && slices[..i][1..] == slices[1..][..i - 1];
      ReplaysAt(Traded(pool, slices[0]), slices[1..], cap, i - 1);
    }
  }

  // Every slice of a replaying plan is what the pool's own rule makes of it.
  lemma ReplaysMeans(pool: Pool, slices: seq<Slice>, cap: nat)
    requires Replays(pool, slices, cap)
    ensures SlicesOf(pool, slices, cap)
  {
    forall i | 0 <= i < |slices|
      ensures SliceOf(slices[i], pool.btc + TotalIn(slices[..i]), pool.musd - TotalOut(slices[..i]), pool.feeBps)
      ensures slices[i].impact <= cap
    {
      ReplaysAt(pool, slices, cap, i);
      AfterTotals(pool, slices[..i]);
    }
  }

  // ------------------------------------------------------------- planBtcSale

  predicate GoodSettings(cap: int, slippage: int) {
    0 < cap <= 5000 && 0 <= slippage <= 5000
  }

  // The slice that the pool makes of an amount.
  function Cut(amount: nat, pool: Pool): Slice
    requires Live(pool) && amount > 0 && ImpactOf(amount, pool) >= 0
  {
    Slice(amount, Quote(amount, pool), Fee(amount, pool), ImpactOf(amount, pool))
  }

  lemma CutReplays(pool: Pool, slices: seq<Slice>, met: Pool, amount: nat, cap: nat)
    requires Replays(pool, slices, cap) && met == After(pool, slices) && Live(met) && amount > 0
    requires 0 <= ImpactOf(amount, met) <= cap && Quote(amount, met) > 0
    ensures var s := Cut(amount, met);
            && Replays(pool, slices + [s], cap) && After(pool, slices + [s]) == Traded(met, s)
            && Live(Traded(met, s)) && TotalIn(slices + [s]) == TotalIn(slices) + amount
  {
    var s := Cut(amount, met);
    assert Replays(Traded(met, s), [], cap);
    assert Replays(met, [s], cap);
    ReplaysAppend(pool, slices, s, cap);
    TotalsAppend(slices, s);
  }

  // The aggregate is what the whole sale would be as one slice.
  lemma PlanMeans(pool: Pool, slices: seq<Slice>, cap: nat)
    requires Replays(pool, slices, cap) && TotalIn(slices) > 0
    ensures Live(pool) && Impact(TotalIn(slices), TotalOut(slices), pool) >= 0 && SlicesOf(pool, slices, cap)
    ensures IsImpact(TotalIn(slices), TotalOut(slices), Impact(TotalIn(slices), TotalOut(slices), pool), pool.btc, pool.musd)
  {
    ReplaysMeans(pool, slices, cap);
    AggregateInRange(pool, slices, cap);
  }

  // An executable plan conserves: inputs add up to the total, outputs and fees
  // to the estimates, and each slice replays on the reserves left to it.
  method PlanBtcSale(totalIn: int, pool: Pool, cap: int, slippage: int) returns (plan: Plan)
    ensures plan == Refused(BadSettings) <==> !GoodSettings(cap, slippage)
    ensures plan == Refused(NotExecutable) <==> GoodSettings(cap, slippage) && (totalIn <= 0 || !Live(pool))
    ensures plan.Executable? ==>
              && plan.totalIn == totalIn && totalIn == TotalIn(plan.slices)
              && plan.estimatedOut == TotalOut(plan.slices) && plan.estimatedFee == TotalFee(plan.slices)
              && Live(pool) && Replays(pool, plan.slices, cap) && Live(After(pool, plan.slices))
              && 1 <= |plan.slices| <= MAX_SLICES
              && plan.aggregateImpact == Impact(totalIn, plan.estimatedOut, pool)
              && SlicesOf(pool, plan.slices, cap)
              && IsImpact(totalIn, plan.estimatedOut, plan.aggregateImpact, pool.btc, pool.musd)
              && forall i :: 0 <= i < |plan.slices| - 1 ==> LocallyLargestAt(pool, plan.slices, i, cap)
    ensures plan == Refused(CannotSplit) ==> exists slices, part :: Stuck(pool, slices, totalIn, cap, part)
    ensures plan == Refused(TooManyParts) ==>
              exists slices :: CutAs(pool, slices, cap) && |slices| == MAX_SLICES && TotalIn(slices) < totalIn
  {
    if !GoodSettings(cap, slippage) {
      return Refused(BadSettings);
    }
    if totalIn <= 0 || !Live(pool) {
      return Refused(NotExecutable);
    }
    var slices: seq<Slice> := [];
    var remaining, current := totalIn, pool;
    while remaining > 0 && |slices| < MAX_SLICES
      invariant remaining >= 0 && remaining + TotalIn(slices) == totalIn && |slices| <= MAX_SLICES
      invariant Live(current) && current == After(pool, slices) && Replays(pool, slices, cap)
      invariant remaining > 0 ==> forall i :: 0 <= i < |slices| ==> LocallyLargestAt(pool, slices, i, cap)
      invariant forall i :: 0 <= i < |slices| - 1 ==> LocallyLargestAt(pool, slices, i, cap)
      decreases remaining
    {
      var max := MaxPart(current, cap);
      var part := if remaining < max then remaining else max;
      var out := Quote(part, current);
      var impact := Impact(part, out, current);
      ImpactInRange(part, current);
      if out <= 0 || impact > cap {
        assert Stuck(pool, slices, totalIn, cap, max);
        return Refused(CannotSplit);
      }
      var s := Slice(part, out, Fee(part, current), impact);
      CutReplays(pool, slices, current, part, cap);
      Kept(pool, slices, s, cap);
      if part == max {
        assert (slices + [s])[..|slices|] == slices;
      }
      slices := slices + [s];
      remaining := remaining - part;
      current := Traded(current, s);
    }
    if remaining > 0 {
      assert CutAs(pool, slices, cap);
      return Refused(TooManyParts);
    }
    PlanMeans(pool, slices, cap);
    var aggregate := Impact(totalIn, TotalOut(slices), pool);
    return Executable(totalIn, TotalOut(slices), TotalFee(slices), slices, aggregate);
  }

  // Slice i was cut as large as the bisection found on the reserves it met.
  ghost predicate LocallyLargestAt(pool: Pool, slices: seq<Slice>, i: int, cap: nat)
    requires 0 <= i < |slices|
  {
    var met := After(pool, slices[..i]);
    Live(met) && LocallyLargest(slices[i].amountIn, met, cap)
  }

  // Slices cut one after the other, each as large as the bisection found.
  ghost predicate CutAs(pool: Pool, slices: seq<Slice>, cap: nat) {
    Replays(pool, slices, cap) && forall i :: 0 <= i < |slices| ==> LocallyLargestAt(pool, slices, i, cap)
  }

  // After these slices the next one yields nothing or breaks the cap.
  ghost predicate Stuck(pool: Pool, slices: seq<Slice>, totalIn: int, cap: nat, part: nat) {
    && CutAs(pool, slices, cap) && |slices| < MAX_SLICES && TotalIn(slices) < totalIn
    && var left := After(pool, slices);
       Live(left) && LocallyLargest(part, left, cap) &&
       var next := if totalIn - TotalIn(slices) < part then totalIn - TotalIn(slices) else part;
       Quote(next, left) == 0 || ImpactOf(next, left) > cap
  }

  lemma Kept(pool: Pool, slices: seq<Slice>, s: Slice, cap: nat)
    ensures forall i :: 0 <= i < |slices| ==>
              LocallyLargestAt(pool, slices + [s], i, cap) == LocallyLargestAt(pool, slices, i, cap)
  {
    forall i | 0 <= i < |slices|
      ensures LocallyLargestAt(pool, slices + [s], i, cap) == LocallyLargestAt(pool, slices, i, cap)
    {
      assert (slices + [s])[..i] == slices[..i];
    }
  }

  // ------------------------------------------------- what no splitting can avoid

  lemma SliceGrowsProduct(pool: Pool, amount: nat)
    requires Live(pool) && amount > 0
    ensures var out := Quote(amount, pool);
            (pool.btc + amount) * (pool.musd - out) >= pool.btc * pool.musd
  {
    var net, out := Net(amount, pool.feeBps), Quote(amount, pool);
    MulMono(pool.btc + net, pool.btc + amount, pool.musd - out);
    assert (pool.btc + net) * (pool.musd - out) == pool.btc * pool.musd + net * pool.musd - out * (pool.btc + net);
  }

  // The product of the reserves never falls across the slices of a plan.
  lemma {:induction false} ProductGrows(pool: Pool, slices: seq<Slice>, cap: nat)
    requires Replays(pool, slices, cap)
    ensures After(pool, slices).btc * After(pool, slices).musd >= pool.btc * pool.musd
    decreases |slices|
  {
    if slices != [] {
      SliceGrowsProduct(pool, slices[0].amountIn);
      ProductGrows(Traded(pool, slices[0]), slices[1..], cap);
    }
  }

  lemma GainBound(b: int, m: int, t: int, o: int)
    requires (b + t) * (m - o) >= b * m
    ensures o * (b + t) <= m * t
  {
    assert (b + t) * (m - o) == b * m + m * t - o * (b + t);
  }

  // However a sale is split, it gets no more than the fee-free single trade.
  lemma ProductBound(pool: Pool, slices: seq<Slice>, cap: nat)
    requires Replays(pool, slices, cap)
    ensures TotalOut(slices) * (pool.btc + TotalIn(slices)) <= pool.musd * TotalIn(slices)
  {
    ProductGrows(pool, slices, cap);
    AfterTotals(pool, slices);
    GainBound(pool.btc, pool.musd, TotalIn(slices), TotalOut(slices));
  }

  lemma GapBound(b: nat, m: int, t: int, o: int)
    requires o * (b + t) <= m * t
    ensures (t * m - o * b) * (b + t) >= t * (t * m)
  {
    MulMono(o * (b + t), m * t, b);
    assert (t * m - o * b) * (b + t) == t * m * b + t * (t * m) - o * (b + t) * b;
    assert m * t * b == t * m * b;
  }

  lemma DepthFloor(b: nat, m: int, t: int, o: int)
    requires o * (b + t) <= m * t && t > 0 && m > 0
    ensures t * m > 0 && (t * m - o * b) * BPS / (t * m) >= BPS * t / (b + t)
  {
    GapBound(b, m, t, o);
    MulMono(1, t, m);
    var gap, spot := t * m - o * b, t * m;
    MulMono(t * spot, gap * (b + t), BPS);
    assert gap * (b + t) * BPS == gap * BPS * (b + t);
    assert t * spot * BPS == BPS * t * spot;
    FloorMono(gap * BPS, spot, BPS * t, b + t);
  }

  // No splitting brings the aggregate impact below the depth of the sale.
  lemma AggregateFloor(pool: Pool, slices: seq<Slice>, cap: nat)
    requires Replays(pool, slices, cap) && TotalIn(slices) > 0
    ensures Impact(TotalIn(slices), TotalOut(slices), pool) >= BPS * TotalIn(slices) / (pool.btc + TotalIn(slices))
  {
    ProductBound(pool, slices, cap);
    DepthFloor(pool.btc, pool.musd, TotalIn(slices), TotalOut(slices));
  }

  lemma AggregateInRange(pool: Pool, slices: seq<Slice>, cap: nat)
    requires Replays(pool, slices, cap) && TotalIn(slices) > 0
    ensures Impact(TotalIn(slices), TotalOut(slices), pool) >= 0
  {
    AggregateFloor(pool, slices, cap);
    FloorBounds(BPS * TotalIn(slices), pool.btc + TotalIn(slices));
  }
}
