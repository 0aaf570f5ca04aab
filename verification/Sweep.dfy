// Filling a quantity from one side of an order book, best level first, when the
// levels are decimals as the snapshot spells them.

module Sweep {
  import opened Wrappers
  import opened Arith
  import opened Decimals
  import opened Digits
  import opened Fractions
  import opened ExactText
  import opened DecimalText
  import opened FillCost

  datatype Level = Level(price: Decimal, size: Decimal)

  datatype Failure = BadQuantity | Inadmissible | DepthInsufficient

  // The quantity and the worst price count units of eight places, the notional
  // units of sixteen.
  datatype Fill = Fill(quantity: int, notional: int, worst: int, consumed: nat)

  // ------------------------------------------------------------- the whole book

  function Places(a: nat, exponent: int): (p: nat)
    ensures p >= a && p + exponent >= 0
  {
    if -exponent > a then -exponent else a
  }

  // Decimal places enough for every number of the book, and for quantities.
  function Finest(levels: seq<Level>): (p: nat)
    ensures p >= PLACES
    ensures forall i :: 0 <= i < |levels| ==> levels[i].price.exponent + p >= 0 && levels[i].size.exponent + p >= 0
  {
    if levels == [] then PLACES
    else Places(Places(Finest(levels[1..]), levels[0].price.exponent), levels[0].size.exponent)
  }

  // Both numbers are spelled with digits.
  predicate Spelled(level: Level) {
    && WellSpelled(level.price) && level.price.digits != []
    && WellSpelled(level.size) && level.size.digits != []
  }

  // Both numbers are whole in units of so many places.
  predicate Within(level: Level, places: nat) {
    Spelled(level) && level.price.exponent + places >= 0 && level.size.exponent + places >= 0
  }

  function OfferOf(level: Level, places: nat): Offer
    requires Within(level, places)
  {
    Offer(UnitsOf(level.price, places), UnitsOf(level.size, places))
  }

  // Every level in units of so many places.
  function Offers(levels: seq<Level>, places: nat): (offers: seq<Offer>)
    requires forall i :: 0 <= i < |levels| ==> Within(levels[i], places)
    ensures |offers| == |levels|
    ensures forall i :: 0 <= i < |offers| ==> offers[i] == OfferOf(levels[i], places)
  {
    if levels == [] then [] else [OfferOf(levels[0], places)] + Offers(levels[1..], places)
  }

  predicate AllSpelled(levels: seq<Level>) {
    forall i :: 0 <= i < |levels| ==> Spelled(levels[i])
  }

  // A side of a snapshot: spelled decimals, not empty, positive, strictly worse
  // level by level.
  ghost predicate SideOf(levels: seq<Level>, side: Side) {
    AllSpelled(levels) && Book(Whole(levels), side)
  }

  ghost function Whole(levels: seq<Level>): seq<Offer>
    requires AllSpelled(levels)
  {
    Offers(levels, Finest(levels))
  }

  // Finest units in one unit of eight places.
  function Unit(levels: seq<Level>): nat {
    Pow(10, Finest(levels) - PLACES)
  }

  // ----------------------------------------------------------- what can be read

  predicate Readable(level: Level)
    requires Spelled(level)
  {
    Exact(level.price) && Exact(level.size)
  }

  // The levels before the first that is not an exact decimal, in eight places.
  function Read(levels: seq<Level>): (offers: seq<Offer>)
    requires AllSpelled(levels)
    ensures |offers| <= |levels|
    ensures forall i :: 0 <= i < |offers| ==> Readable(levels[i]) && offers[i] == OfferOf(levels[i], PLACES)
    ensures |offers| < |levels| ==> !Readable(levels[|offers|])
  {
    if levels == [] || !Readable(levels[0]) then [] else [OfferOf(levels[0], PLACES)] + Read(levels[1..])
  }

  // ------------------------------------------------------------- one unit for both

  lemma FinerUnits(d: Decimal, places: nat)
    requires WellSpelled(d) && d.exponent >= -PLACES && places >= PLACES
    ensures UnitsOf(d, places) == Pow(10, places - PLACES) * UnitsOf(d, PLACES)
  {
    PowAdd(10, d.exponent + PLACES, places - PLACES);
    assert d.exponent + PLACES + (places - PLACES) == d.exponent + places;
    Commuted(Coefficient(d), Pow(10, d.exponent + PLACES), Pow(10, places - PLACES));
  }

  lemma Commuted(a: int, b: int, c: int)
    ensures a * (b * c) == c * (a * b)
  {
  }

  predicate Finer(read: Offer, whole: Offer, unit: nat) {
    whole.price == unit * read.price && whole.size == unit * read.size
  }

  // The same offers counted in finer units, and more behind them.
  ghost predicate Refines(read: seq<Offer>, whole: seq<Offer>, unit: nat) {
    && |read| <= |whole|
    && forall i :: 0 <= i < |read| ==> Finer(read[i], whole[i], unit)
  }

  lemma ReadRefines(levels: seq<Level>)
    requires AllSpelled(levels)
    ensures Refines(Read(levels), Whole(levels), Unit(levels))
  {
    forall i | 0 <= i < |Read(levels)|
      ensures Finer(Read(levels)[i], Whole(levels)[i], Unit(levels))
    {
      ReadFiner(levels, i);
    }
  }

  lemma ReadFiner(levels: seq<Level>, i: nat)
    requires AllSpelled(levels) && i < |Read(levels)|
    ensures Finer(Read(levels)[i], Whole(levels)[i], Unit(levels))
  {
    FinerOffer(levels[i], Finest(levels));
  }

  lemma FinerOffer(level: Level, places: nat)
    requires Spelled(level) && Readable(level) && places >= PLACES
    ensures Within(level, places) && Within(level, PLACES)
    ensures Finer(OfferOf(level, PLACES), OfferOf(level, places), Pow(10, places - PLACES))
  {
    FinerUnits(level.price, places);
    FinerUnits(level.size, places);
  }

  lemma FinerCost(unit: nat, price: int, taken: int, rest: int)
    ensures unit * price * (unit * taken) + unit * unit * rest == unit * unit * (price * taken + rest)
  {
    assert unit * price * (unit * taken) == unit * unit * (price * taken);
  }

  lemma FinerLess(unit: nat, a: int, b: int)
    requires unit > 0
    ensures unit * a <= unit * b <==> a <= b
  {
    if a <= b {
      MulMono(a, b, unit);
    } else {
      MulMono(b + 1, a, unit);
    }
  }

  lemma FinerTaken(unit: nat, q: int, read: Offer, whole: Offer)
    requires unit > 0 && Finer(read, whole, unit)
    ensures Taken(unit * q, whole) == unit * Taken(q, read)
    ensures unit * q - Taken(unit * q, whole) == unit * (q - Taken(q, read))
  {
    FinerLess(unit, q, read.size);
  }

  predicate AllPositive(offers: seq<Offer>) {
    forall i :: 0 <= i < |offers| ==> offers[i].price > 0 && offers[i].size > 0
  }

  lemma RefinedRest(read: seq<Offer>, whole: seq<Offer>, unit: nat)
    requires Refines(read, whole, unit) && read != []
    ensures Refines(read[1..], whole[1..], unit) && Finer(read[0], whole[0], unit)
  {
  }

  lemma {:induction false} SameDepth(read: seq<Offer>, whole: seq<Offer>, unit: nat)
    requires Refines(read, whole, unit) && |read| == |whole|
    ensures Depth(whole) == unit * Depth(read)
  {
    if read != [] {
      RefinedRest(read, whole, unit);
      SameDepth(read[1..], whole[1..], unit);
      assert unit * (read[0].size + Depth(read[1..])) == unit * read[0].size + unit * Depth(read[1..]);
    }
  }

  // What the readable levels can fill costs the same in finer units, whatever
  // is behind them.
  lemma {:induction false} SameCost(read: seq<Offer>, whole: seq<Offer>, unit: nat, q: int)
    requires Refines(read, whole, unit) && unit > 0 && 0 <= q <= Depth(read)
    requires AllPositive(read) && AllPositive(whole)
    ensures Cost(whole, unit * q) == unit * unit * Cost(read, q)
  {
    if read == [] {
      CostOfNone(whole);
    } else {
      var t := Taken(q, read[0]);
      FinerTaken(unit, q, read[0], whole[0]);
      RefinedRest(read, whole, unit);
      DepthNonNegative(read[1..]);
      SameCost(read[1..], whole[1..], unit, q - t);
      Bill(read, q, t, Cost(read[1..], q - t));
      Bill(whole, unit * q, unit * t, Cost(whole[1..], unit * (q - t)));
      FinerCost(unit, read[0].price, t, Cost(read[1..], q - t));
    }
  }

  lemma ReadPositive(levels: seq<Level>, side: Side)
    requires SideOf(levels, side)
    ensures AllPositive(Read(levels))
  {
    ReadRefines(levels);
    forall i | 0 <= i < |Read(levels)|
      ensures Read(levels)[i].price > 0 && Read(levels)[i].size > 0
    {
      var read, whole := Read(levels)[i], Whole(levels)[i];
      FinerLess(Unit(levels), 1, read.price);
      FinerLess(Unit(levels), 1, read.size);
      FinerLess(Unit(levels), read.price, 0);
      FinerLess(Unit(levels), read.size, 0);
    }
  }

  // ---------------------------------------------------------------- the sweep

  ghost predicate Reached(offers: seq<Offer>, quantity: int, notional: int) {
    exists parts :: Allocates(offers, parts, quantity) && Spend(offers, parts) == notional
  }

  // Some allocation of the quantity over the whole book costs this much, and none
  // does better, in the finest units.
  ghost predicate NoneBetter(levels: seq<Level>, side: Side, quantity: int, notional: int)
    requires AllSpelled(levels)
  {
    && Unbeaten(Whole(levels), side, Unit(levels) * quantity, Unit(levels) * Unit(levels) * notional)
    && Reached(Whole(levels), Unit(levels) * quantity, Unit(levels) * Unit(levels) * notional)
  }

  method ReadLevel(level: Level) returns (r: Option<Offer>)
    requires Spelled(level)
    ensures r == if Readable(level) then Some(OfferOf(level, PLACES)) else None
  {
    ReadsExactly(level.price);
    ReadsExactly(level.size);
    var price, size := FromDecimal(level.price), FromDecimal(level.size);
    if price.Err? || size.Err? {
      return None;
    }
    return Some(Offer(price.value, size.value));
  }

  // Fills exactly when the levels before the first unreadable one hold the
  // quantity, at the greedy cost of what was read, which no allocation over the
  // whole book beats.
  method SweepDepth(levels: seq<Level>, side: Side, quantity: int) returns (r: Result<Fill, Failure>)
    requires SideOf(levels, side)
    ensures r == Err(BadQuantity) <==> quantity <= 0
    ensures r.Ok? <==> 0 < quantity <= Depth(Read(levels))
    ensures r == Err(Inadmissible) <==> Depth(Read(levels)) < quantity && 0 < quantity && |Read(levels)| < |levels|
    ensures r == Err(DepthInsufficient) <==>
              Depth(Whole(levels)) < Unit(levels) * quantity && 0 < quantity && |Read(levels)| == |levels|
    ensures r.Ok? ==> r.value == Filled(Read(levels), quantity) && NoneBetter(levels, side, quantity, r.value.notional)
  {
    if quantity <= 0 {
      return Err(BadQuantity);
    }
    ReadPositive(levels, side);
    ReadDepth(levels, quantity);
    r := Walk(levels, quantity);
    if r.Ok? {
      NoneBeats(levels, side, quantity);
    }
  }

  function Filled(offers: seq<Offer>, quantity: int): Fill
    requires offers != []
  {
    Fill(quantity, Cost(offers, quantity), Worst(offers, quantity), Used(offers, quantity))
  }

  // What the loop has taken before level i, and what is left to take.
  ghost predicate Taking(read: seq<Offer>, i: nat, quantity: int, remaining: int, notional: int, consumed: nat) {
    && i <= |read| && Depth(read[..i]) + remaining >= quantity
    && (remaining > 0 ==> Depth(read[..i]) + remaining == quantity)
    && Cost(read, quantity) == notional + Cost(read[i..], remaining)
    && Used(read, quantity) == consumed + Used(read[i..], remaining)
    && (i < |read| && remaining > 0 ==> Worst(read, quantity) == Worst(read[i..], remaining))
  }

  lemma TakeOne(read: seq<Offer>, i: nat, quantity: int, remaining: int, notional: int, consumed: nat)
    requires Taking(read, i, quantity, remaining, notional, consumed) && remaining > 0 && i < |read|
    ensures var taken := Taken(remaining, read[i]);
            && Taking(read, i + 1, quantity, remaining - taken, notional + read[i].price * taken, consumed + 1)
            && (remaining == taken ==> Worst(read, quantity) == read[i].price)
  {
    assert read[i..][1..] == read[i + 1..] && read[i..][0] == read[i];
    DepthStep(read, i);
  }

  // The loop over the levels.
  method Walk(levels: seq<Level>, quantity: int) returns (r: Result<Fill, Failure>)
    requires AllSpelled(levels) && AllPositive(Read(levels)) && quantity > 0
    ensures r == if quantity <= Depth(Read(levels)) then Ok(Filled(Read(levels), quantity))
                 else Err(if |Read(levels)| < |levels| then Inadmissible else DepthInsufficient)
  {
    ghost var read := Read(levels);
    var remaining, notional, consumed := quantity, 0, 0;
    var worst: Option<int> := None;
    var i := 0;
    while i < |levels|
      invariant 0 <= i <= |read| && remaining > 0
      invariant Taking(read, i, quantity, remaining, notional, consumed)
    {
      var level := ReadLevel(levels[i]);
      if level.None? {
        assert read[..i] == read;
        return Err(Inadmissible);
      }
      var price, size := level.value.price, level.value.size;
      var taken := if remaining <= size then remaining else size;
      TakeOne(read, i, quantity, remaining, notional, consumed);
      notional := notional + price * taken;
      remaining := remaining - taken;
      consumed := consumed + 1;
      worst := Some(price);
      i := i + 1;
      if remaining == 0 {
        break;
      }
    }
    if remaining != 0 {
      assert read[..i] == read;
      return Err(DepthInsufficient);
    }
    DepthGrows(read, i, |read|);
    assert read[..|read|] == read;
    CostOfNone(read[i..]);
    return Ok(Fill(quantity, notional, worst.value, consumed));
  }

  // When everything is read, the depth read is the depth of the book.
  lemma ReadDepth(levels: seq<Level>, q: int)
    requires AllSpelled(levels)
    ensures |Read(levels)| == |levels| ==>
              (Depth(Whole(levels)) < Unit(levels) * q <==> Depth(Read(levels)) < q)
  {
    ReadRefines(levels);
    if |Read(levels)| == |levels| {
      SameDepth(Read(levels), Whole(levels), Unit(levels));
      FinerLess(Unit(levels), q, Depth(Read(levels)));
    }
  }

  lemma WholeHolds(levels: seq<Level>, side: Side, q: int)
    requires SideOf(levels, side) && 0 <= q <= Depth(Read(levels))
    ensures 0 <= Unit(levels) * q <= Depth(Whole(levels))
  {
    ReadRefines(levels);
    DeeperBehind(Read(levels), Whole(levels), Unit(levels));
    FinerLess(Unit(levels), 0, q);
    FinerLess(Unit(levels), q, Depth(Read(levels)));
  }

  lemma {:induction false} DeeperBehind(read: seq<Offer>, whole: seq<Offer>, unit: nat)
    requires Refines(read, whole, unit) && AllPositive(whole)
    ensures Depth(whole) >= unit * Depth(read)
  {
    if read == [] {
      DepthNonNegative(whole);
    } else {
      RefinedRest(read, whole, unit);
      DeeperBehind(read[1..], whole[1..], unit);
      assert unit * (read[0].size + Depth(read[1..])) == unit * read[0].size + unit * Depth(read[1..]);
    }
  }

  lemma NoneBeats(levels: seq<Level>, side: Side, q: int)
    requires SideOf(levels, side) && 0 <= q <= Depth(Read(levels))
    ensures NoneBetter(levels, side, q, Cost(Read(levels), q))
  {
    ReadRefines(levels);
    ReadPositive(levels, side);
    SameCost(Read(levels), Whole(levels), Unit(levels), q);
    WholeHolds(levels, side, q);
    GreedyIsReached(Whole(levels), Unit(levels) * q);
    GreedyUnbeaten(Whole(levels), side, Unit(levels) * q);
  }

  // ------------------------------------------------------- depth is not enough

  // Five for one, the five spelled with nine places.
  const NINE_PLACES: Level := Level(Decimal(false, "1", 0), Decimal(false, "5000000000", -9))

  lemma NinePlaces()
    ensures SideOf([NINE_PLACES], Buy) && Finest([NINE_PLACES]) == 9 && Unit([NINE_PLACES]) == 10
    ensures Whole([NINE_PLACES]) == [Offer(1_000_000_000, 5_000_000_000)] && Read([NINE_PLACES]) == []
  {
    var levels := [NINE_PLACES];
    Eight();
    PowAdd(10, 8, 1);
    assert Pow(10, 1) == 10 && Pow(10, 0) == 1;
    assert "5000000000" == "5" + Zeros(9);
    NumberConcat("5", Zeros(9));
    NumberZeros(9);
    assert ""[..0] == "" && "5"[..0] == "" && "1"[..0] == "";
    assert Number("5") == 5 && Number("1") == 1;
    assert Finest(levels[1..]) == 8;
  }

  // Depth alone does not decide: the only level holds three, but it cannot be
  // read as an exact decimal and the sweep says so.
  method SweepNinePlaces() returns (r: Result<Fill, Failure>)
    ensures Unit([NINE_PLACES]) * (3 * SCALE) <= Depth(Whole([NINE_PLACES])) && r == Err(Inadmissible)
  {
    NinePlaces();
    r := SweepDepth([NINE_PLACES], Buy, 3 * SCALE);
  }
}
