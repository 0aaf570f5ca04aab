// What filling a quantity from one side of an order book costs when the best
// offers are taken first, against every other way of filling it.

module FillCost {
  import opened Arith

  datatype Side = Buy | Sell

  // Prices and sizes as whole numbers of one unit.
  datatype Offer = Offer(price: int, size: int)

  const BPS: int := 10_000

  predicate Better(side: Side, a: int, b: int) {
    if side.Buy? then a < b else a > b
  }

  // A side of a snapshot: not empty, positive, strictly worse level by level.
  ghost predicate Book(offers: seq<Offer>, side: Side) {
    && offers != []
    && (forall i :: 0 <= i < |offers| ==> offers[i].price > 0 && offers[i].size > 0)
    && (forall i, j :: 0 <= i < j < |offers| ==> Better(side, offers[i].price, offers[j].price))
  }

  // -------------------------------------------------------- what a fill costs

  function Depth(offers: seq<Offer>): int {
    if offers == [] then 0 else offers[0].size + Depth(offers[1..])
  }

  function Taken(q: int, offer: Offer): int {
    if q <= offer.size then q else offer.size
  }

  function Cost(offers: seq<Offer>, q: int): int {
    if offers == [] then 0
    else offers[0].price * Taken(q, offers[0]) + Cost(offers[1..], q - Taken(q, offers[0]))
  }

  // Price of the last unit taken.
  function Worst(offers: seq<Offer>, q: int): int
    requires offers != []
  {
    if q <= offers[0].size || |offers| == 1 then offers[0].price else Worst(offers[1..], q - offers[0].size)
  }

  function Used(offers: seq<Offer>, q: int): nat {
    if offers == [] || q <= 0 then 0 else 1 + Used(offers[1..], q - Taken(q, offers[0]))
  }

  // Any way of buying q from the displayed sizes.
  ghost predicate Allocates(offers: seq<Offer>, parts: seq<int>, q: int) {
    && |parts| == |offers|
    && (forall i :: 0 <= i < |parts| ==> 0 <= parts[i] <= offers[i].size)
    && Total(parts) == q
  }

  ghost function Total(parts: seq<int>): int {
    if parts == [] then 0 else parts[0] + Total(parts[1..])
  }

  ghost function Spend(offers: seq<Offer>, parts: seq<int>): int
    requires |parts| == |offers|
  {
    if offers == [] then 0 else offers[0].price * parts[0] + Spend(offers[1..], parts[1..])
  }

  // ------------------------------------------------- facts of ascending offers

  // Ascending prices of any sign, so that selling is buying at negated prices.
  ghost predicate Ascending(offers: seq<Offer>) {
    && (forall i :: 0 <= i < |offers| ==> offers[i].size > 0)
    && (forall i, j :: 0 <= i < j < |offers| ==> offers[i].price < offers[j].price)
  }

  lemma {:induction false} DepthNonNegative(offers: seq<Offer>)
    requires forall i :: 0 <= i < |offers| ==> offers[i].size > 0
    ensures Depth(offers) >= 0
  {
    if offers != [] {
      DepthNonNegative(offers[1..]);
    }
  }

  // Taking t' instead of t at price f, and the rest of what is more for at
  // least p each, costs at least p for each unit more.
  lemma StepCost(f: int, t: int, t': int, p: int, more: int, left: int, before: int, after: int)
    requires p <= f && t <= t' && left == more - (t' - t) && after >= before + p * left
    ensures f * t' + after >= f * t + before + p * more
  {
    MulMono(p, f, t' - t);
    assert f * (t' - t) == f * t' - f * t;
    assert p * more == p * (t' - t) + p * left;
  }

  lemma {:induction false} CostOfNone(offers: seq<Offer>)
    requires forall i :: 0 <= i < |offers| ==> offers[i].size > 0
    ensures Cost(offers, 0) == 0
  {
    if offers != [] {
      CostOfNone(offers[1..]);
    }
  }

  // The bill for a fill: the first offer's share, then the rest.
  lemma Bill(offers: seq<Offer>, q: int, t: int, rest: int)
    requires offers != [] && t == Taken(q, offers[0]) && rest == Cost(offers[1..], q - t)
    ensures Cost(offers, q) == offers[0].price * t + rest
  {
  }

  // Each further unit costs at least any price that all the offers reach.
  lemma {:induction false} Marginal(offers: seq<Offer>, q: int, more: int, p: int)
    requires Ascending(offers) && 0 <= q && 0 <= more && q + more <= Depth(offers)
    requires offers != [] ==> p <= offers[0].price
    ensures Cost(offers, q + more) >= Cost(offers, q) + p * more
    decreases |offers|, 1
  {
    if offers == [] {
      assert more == 0;
    } else {
      MarginalRest(offers, q, more, p);
    }
  }

  lemma {:induction false} MarginalRest(offers: seq<Offer>, q: int, more: int, p: int)
    requires Ascending(offers) && 0 <= q && 0 <= more && q + more <= Depth(offers)
    requires offers != [] && p <= offers[0].price
    ensures Cost(offers, q + more) >= Cost(offers, q) + p * more
    decreases |offers|, 0
  {
    var first, rest := offers[0], offers[1..];
    var t, t' := Taken(q, first), Taken(q + more, first);
    var before, after := Cost(rest, q - t), Cost(rest, q + more - t');
    var left := more - (t' - t);
    Bill(offers, q, t, before);
    Bill(offers, q + more, t', after);
    assert after >= before + p * left by {
      DepthNonNegative(rest);
      Marginal(rest, q - t, left, p);
      assert q + more - t' == q - t + left;
    }
    StepCost(first.price, t, t', p, more, left, before, after);
  }

  // Each further unit costs at least the last one bought.
  lemma {:induction false} MarginalWorst(offers: seq<Offer>, q: int, more: int)
    requires Ascending(offers) && offers != [] && 0 < q && 0 <= more && q + more <= Depth(offers)
    ensures Cost(offers, q + more) >= Cost(offers, q) + Worst(offers, q) * more
  {
    var first, rest := offers[0], offers[1..];
    if q <= first.size {
      Marginal(offers, q, more, first.price);
    } else {
      assert rest != [];
      MarginalWorst(rest, q - first.size, more);
      assert q + more - first.size == q - first.size + more;
    }
  }

  lemma BlendBounds(f: int, s: int, lo: int, rest: int, hi: int, left: int)
    requires f <= lo <= hi && s >= 0 && left >= 0 && lo * left <= rest <= hi * left
    ensures f * (s + left) <= f * s + rest <= hi * (s + left)
  {
    MulMono(f, lo, left);
    MulMono(f, hi, s);
    assert f * (s + left) == f * s + f * left && hi * (s + left) == hi * s + hi * left;
  }

  // The whole purchase lies between the best and the last price.
  lemma {:induction false} CostBounds(offers: seq<Offer>, q: int)
    requires Ascending(offers) && offers != [] && 0 < q <= Depth(offers)
    ensures offers[0].price * q <= Cost(offers, q) <= Worst(offers, q) * q
    ensures offers[0].price <= Worst(offers, q)
  {
    var first, rest := offers[0], offers[1..];
    if q <= first.size {
      CostOfNone(rest);
    } else {
      var left := q - first.size;
      assert rest != [] && first.price < rest[0].price;
      CostBounds(rest, left);
      BlendBounds(first.price, first.size, rest[0].price, Cost(rest, left), Worst(rest, left), left);
      assert first.size + left == q;
    }
  }

  lemma {:induction false} TotalBounds(offers: seq<Offer>, parts: seq<int>, q: int)
    requires Allocates(offers, parts, q)
    ensures 0 <= q <= Depth(offers)
  {
    if offers != [] {
      TotalBounds(offers[1..], parts[1..], q - parts[0]);
    }
  }

  lemma SwapCost(f: int, a: int, t: int, greedy: int, moved: int, spent: int)
    requires moved >= greedy + f * (t - a) && spent >= moved
    ensures f * t + greedy <= f * a + spent
  {
    assert f * (t - a) == f * t - f * a;
  }

  // No allocation of the same quantity is cheaper than the greedy one.
  lemma {:induction false} Cheapest(offers: seq<Offer>, parts: seq<int>, q: int)
    requires Ascending(offers) && Allocates(offers, parts, q)
    ensures Cost(offers, q) <= Spend(offers, parts)
  {
    if offers != [] {
      var first, rest, a := offers[0], offers[1..], parts[0];
      var t := Taken(q, first);
      assert Allocates(rest, parts[1..], q - a);
      TotalBounds(rest, parts[1..], q - a);
      Cheapest(rest, parts[1..], q - a);
      Marginal(rest, q - t, t - a, first.price);
      assert q - t + (t - a) == q - a;
      SwapCost(first.price, a, t, Cost(rest, q - t), Cost(rest, q - a), Spend(rest, parts[1..]));
    }
  }

  lemma AverageStep(c: int, q: nat, w: int, more: nat, after: int)
    requires c <= w * q && after >= c + w * more
    ensures c * (q + more) <= after * q
  {
    MulMono(c, w * q, more);
    MulMono(c + w * more, after, q);
    assert (c + w * more) * q == c * q + w * q * more;
    assert c * (q + more) == c * q + c * more;
  }

  // Averages do not fall as the quantity grows.
  lemma AverageGrows(offers: seq<Offer>, q: int, larger: int)
    requires Ascending(offers) && offers != [] && 0 < q <= larger <= Depth(offers)
    ensures Cost(offers, q) * larger <= Cost(offers, larger) * q
  {
    MarginalWorst(offers, q, larger - q);
    CostBounds(offers, q);
    AverageStep(Cost(offers, q), q, Worst(offers, q), larger - q, Cost(offers, larger));
  }

  // -------------------------------------------------- selling as mirrored buying

  function Mirror(offers: seq<Offer>): (m: seq<Offer>)
    ensures |m| == |offers|
    ensures forall i :: 0 <= i < |m| ==> m[i] == offers[i].(price := -offers[i].price)
  {
    if offers == [] then [] else [offers[0].(price := -offers[0].price)] + Mirror(offers[1..])
  }

  lemma {:induction false} MirrorCost(offers: seq<Offer>, q: int)
    ensures Cost(Mirror(offers), q) == -Cost(offers, q)
    ensures Depth(Mirror(offers)) == Depth(offers)
    ensures offers != [] ==> Worst(Mirror(offers), q) == -Worst(offers, q)
  {
    if offers != [] {
      var m := Mirror(offers);
      assert m[1..] == Mirror(offers[1..]);
      MirrorCost(offers[1..], q - Taken(q, offers[0]));
      assert m[0].price * Taken(q, offers[0]) == -(offers[0].price * Taken(q, offers[0]));
    }
  }

  lemma {:induction false} MirrorSpend(offers: seq<Offer>, parts: seq<int>)
    requires |parts| == |offers|
    ensures Spend(Mirror(offers), parts) == -Spend(offers, parts)
  {
    if offers != [] {
      var m := Mirror(offers);
      assert m[1..] == Mirror(offers[1..]);
      MirrorSpend(offers[1..], parts[1..]);
      assert m[0].price * parts[0] == -(offers[0].price * parts[0]);
    }
  }

  // ------------------------------------------------------------- the two sides

  // At least as good for the side: paid no more, or received no less.
  predicate NoWorse(side: Side, a: int, b: int) {
    if side.Buy? then a <= b else a >= b
  }

  // The greedy notional beats every allocation of the same quantity.
  lemma GreedyIsBest(offers: seq<Offer>, side: Side, parts: seq<int>, q: int)
    requires Book(offers, side) && Allocates(offers, parts, q)
    ensures NoWorse(side, Cost(offers, q), Spend(offers, parts))
  {
    if side.Buy? {
      Cheapest(offers, parts, q);
    } else {
      assert Allocates(Mirror(offers), parts, q);
      Cheapest(Mirror(offers), parts, q);
      MirrorCost(offers, q);
      MirrorSpend(offers, parts);
    }
  }

  // No allocation of the quantity over the whole book does better.
  ghost predicate Unbeaten(offers: seq<Offer>, side: Side, q: int, notional: int) {
    forall parts :: Allocates(offers, parts, q) ==> NoWorse(side, notional, Spend(offers, parts))
  }

  // The greedy allocation itself: from each offer what is still missing.
  ghost function Greedy(offers: seq<Offer>, q: int): (parts: seq<int>)
    ensures |parts| == |offers|
  {
    if offers == [] then [] else [Taken(q, offers[0])] + Greedy(offers[1..], q - Taken(q, offers[0]))
  }

  // It buys the quantity from the displayed sizes at the greedy cost.
  lemma {:induction false} GreedyIsReached(offers: seq<Offer>, q: int)
    requires (forall i :: 0 <= i < |offers| ==> offers[i].size > 0) && 0 <= q <= Depth(offers)
    ensures Allocates(offers, Greedy(offers, q), q) && Spend(offers, Greedy(offers, q)) == Cost(offers, q)
  {
    if offers != [] {
      var t := Taken(q, offers[0]);
      DepthNonNegative(offers[1..]);
      GreedyIsReached(offers[1..], q - t);
      var parts := Greedy(offers, q);
      assert parts[1..] == Greedy(offers[1..], q - t);
      assert forall i :: 1 <= i < |parts| ==> parts[i] == parts[1..][i - 1] && offers[i] == offers[1..][i - 1];
    }
  }

  lemma GreedyUnbeaten(offers: seq<Offer>, side: Side, q: int)
    requires Book(offers, side)
    ensures Unbeaten(offers, side, q, Cost(offers, q))
  {
    forall parts | Allocates(offers, parts, q)
      ensures NoWorse(side, Cost(offers, q), Spend(offers, parts))
    {
      GreedyIsBest(offers, side, parts, q);
    }
  }

  lemma MirroredBounds(b: int, best: int, c: int, cost: int, w: int, worst: int, q: int)
    requires b == -best && c == -cost && w == -worst && b * q <= c <= w * q
    ensures worst * q <= cost <= best * q
  {
    assert b * q == -(best * q) && w * q == -(worst * q);
  }

  lemma MirroredAverage(c: int, cost: int, larger: int, d: int, dear: int, q: int)
    requires c == -cost && d == -dear && c * larger <= d * q
    ensures dear * q <= cost * larger
  {
    assert c * larger == -(cost * larger) && d * q == -(dear * q);
  }

  // The average lies between the best and the last price taken.
  lemma BetweenBestAndWorst(offers: seq<Offer>, side: Side, q: int)
    requires Book(offers, side) && 0 < q <= Depth(offers)
    ensures NoWorse(side, offers[0].price * q, Cost(offers, q))
    ensures NoWorse(side, Cost(offers, q), Worst(offers, q) * q)
  {
    if side.Buy? {
      CostBounds(offers, q);
    } else {
      var m := Mirror(offers);
      MirrorCost(offers, q);
      CostBounds(m, q);
      MirroredBounds(m[0].price, offers[0].price, Cost(m, q), Cost(offers, q), Worst(m, q), Worst(offers, q), q);
    }
  }

  // A larger quantity never gets a better average on either side.
  lemma LargerIsNoBetter(offers: seq<Offer>, side: Side, q: int, larger: int)
    requires Book(offers, side) && 0 < q <= larger <= Depth(offers)
    ensures NoWorse(side, Cost(offers, q) * larger, Cost(offers, larger) * q)
  {
    if side.Buy? {
      AverageGrows(offers, q, larger);
    } else {
      var m := Mirror(offers);
      MirrorCost(offers, q);
      MirrorCost(offers, larger);
      AverageGrows(m, q, larger);
      MirroredAverage(Cost(m, q), Cost(offers, q), larger, Cost(m, larger), Cost(offers, larger), q);
    }
  }

  // Price impact over the best level, in basis points: numerator over denominator.
  function PriceImpact(offers: seq<Offer>, side: Side, notional: int, q: int): (int, int)
    requires offers != []
  {
    var best := offers[0].price * q;
    ((if side.Buy? then notional - best else best - notional) * BPS, best)
  }

  // The notional is the best price for all of it, moved by the impact: up for a
  // purchase, down for a sale.
  lemma ImpactMeans(offers: seq<Offer>, side: Side, notional: int, q: int)
    requires offers != [] && offers[0].price > 0 && q > 0
    ensures var (num, den) := PriceImpact(offers, side, notional, q);
            && den == offers[0].price * q
            && notional * 10_000 == if side.Buy? then den * 10_000 + num else den * 10_000 - num
  {
  }

  lemma ImpactNeverNegative(offers: seq<Offer>, side: Side, q: int)
    requires Book(offers, side) && 0 < q <= Depth(offers)
    ensures var (num, den) := PriceImpact(offers, side, Cost(offers, q), q); num >= 0 && den > 0
  {
    BetweenBestAndWorst(offers, side, q);
    MulMono(1, offers[0].price, q);
  }

  // --------------------------------------------------------- how far a fill reaches

  lemma {:induction false} DepthSplit(offers: seq<Offer>, k: nat)
    requires k <= |offers|
    ensures Depth(offers) == Depth(offers[..k]) + Depth(offers[k..])
  {
    if k > 0 {
      DepthSplit(offers[1..], k - 1);
      assert offers[..k][1..] == offers[1..][..k - 1] && offers[k..] == offers[1..][k - 1..];
    } else {
      assert offers[..0] == [] && offers[0..] == offers;
    }
  }

  lemma DepthStep(offers: seq<Offer>, k: nat)
    requires k < |offers|
    ensures Depth(offers[..k + 1]) == Depth(offers[..k]) + offers[k].size
  {
    var upto := offers[..k + 1];
    DepthSplit(upto, k);
    assert upto[..k] == offers[..k] && upto[k..] == [offers[k]];
    assert Depth([offers[k]]) == offers[k].size + Depth([]);
  }

  lemma DepthGrows(offers: seq<Offer>, j: nat, k: nat)
    requires j <= k <= |offers| && forall i :: 0 <= i < |offers| ==> offers[i].size > 0
    ensures Depth(offers[..j]) <= Depth(offers[..k])
  {
    var upto := offers[..k];
    DepthSplit(upto, j);
    assert upto[..j] == offers[..j];
    DepthNonNegative(upto[j..]);
  }

  // The consumed offers are the shortest prefix that holds the quantity, and
  // the worst price is that of its last level.
  lemma {:induction false} UsedIsLeast(offers: seq<Offer>, q: int)
    requires (forall i :: 0 <= i < |offers| ==> offers[i].size > 0) && 0 < q <= Depth(offers)
    ensures 1 <= Used(offers, q) <= |offers|
    ensures Depth(offers[..Used(offers, q) - 1]) < q <= Depth(offers[..Used(offers, q)])
    ensures Worst(offers, q) == offers[Used(offers, q) - 1].price
  {
    var first, rest := offers[0], offers[1..];
    if q <= first.size {
      assert offers[..0] == [] && offers[..1] == [first] && Depth([first]) == first.size + Depth([]);
    } else {
      UsedIsLeast(rest, q - first.size);
      var k := Used(rest, q - first.size);
      assert offers[..k] == [first] + rest[..k - 1] && offers[..k + 1] == [first] + rest[..k];
      assert ([first] + rest[..k - 1])[1..] == rest[..k - 1] && ([first] + rest[..k])[1..] == rest[..k];
    }
  }
}
