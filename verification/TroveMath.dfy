// Trove limits and rescue amounts, and the guards of the transaction builder
// that must agree with them.

module TroveMath {
  import opened Wrappers
  import opened Arith

  const WAD: nat := 1_000_000_000_000_000_000

  datatype Trove = Trove(coll: int, principal: int, interest: int, price: int, minimum: int, gasCompensation: int,
                         rate: int, mcr: int, ccr: int, systemColl: int, systemDebt: int,
                         capacity: Option<int>, feeExempt: bool)

  datatype Balances = Balances(btc: int, musd: int, gasReserve: int)

  datatype Limits = Limits(deposit: int, repay: int, borrow: int, safeIcr: int)

  datatype Rescue = Rescue(deposit: nat, repay: nat, alreadyAbove: bool, repayAvailable: bool)

  datatype Failure = InvalidState | InvalidTarget

  function Max(a: int, b: int): int {
    if a > b then a else b
  }

  function Min(a: int, b: int): int {
    if a < b then a else b
  }

  function Debt(s: Trove): int {
    s.principal + s.interest
  }

  predicate ValidState(s: Trove) {
    && s.coll > 0 && s.principal >= 0 && s.interest >= 0 && Debt(s) > 0 && s.price > 0 && s.minimum >= 0
    && s.gasCompensation >= 0 && s.rate >= 0 && 0 < s.mcr <= s.ccr && s.systemColl >= 0 && s.systemDebt > 0
    && (s.capacity.Some? ==> s.capacity.value >= 0)
  }

  // The margin above the critical ratio that a borrow must leave.
  function SafeRatio(s: Trove): (r: int)
    ensures r >= 1_800_000_000_000_000_000 && r >= s.ccr + 100_000_000_000_000_000
    ensures r == 1_800_000_000_000_000_000 || r == s.ccr + 100_000_000_000_000_000
  {
    Max(18 * WAD / 10, s.ccr + WAD / 10)
  }

  function Ratio(coll: int, debt: int, price: int): (r: int)
    requires debt > 0
    ensures r * debt <= coll * price < (r + 1) * debt
  {
    FloorBounds(coll * price, debt);
    coll * price / debt
  }

  // ------------------------------------------------------------ borrowing guards

  // The fee is truncated, unless the borrower is exempt.
  predicate IsFee(s: Trove, amount: int, fee: int) {
    if s.feeExempt then fee == 0
    else fee * 1_000_000_000_000_000_000 <= amount * s.rate < (fee + 1) * 1_000_000_000_000_000_000
  }

  lemma OneFee(s: Trove, amount: int, fee: int, other: int)
    requires IsFee(s, amount, fee) && IsFee(s, amount, other)
    ensures fee == other
  {
  }

  function BorrowingFee(s: Trove, amount: nat): (fee: nat)
    requires s.rate >= 0
    ensures IsFee(s, amount, fee)
  {
    MulMono(0, s.rate, amount);
    FloorBounds(amount * s.rate, WAD);
    if s.feeExempt then 0 else amount * s.rate / WAD
  }

  // What a borrow adds to the debt.
  function Drawn(s: Trove, amount: nat): (d: nat)
    requires s.rate >= 0
    ensures d >= amount
  {
    amount + BorrowingFee(s, amount)
  }

  predicate RecoveryMode(s: Trove): (r: bool)
    requires s.systemDebt > 0
    ensures r <==> s.systemColl * s.price < s.ccr * s.systemDebt
  {
    AtMostFloor(s.ccr, s.systemColl * s.price, s.systemDebt);
    Ratio(s.systemColl, s.systemDebt, s.price) < s.ccr
  }

  // The separate checks that the transaction builder makes on a borrow.
  predicate BorrowAccepted(s: Trove, amount: nat)
    requires ValidState(s)
  {
    var drawn := Drawn(s, amount);
    && !RecoveryMode(s)
    && !(s.capacity.Some? && Debt(s) + drawn > s.capacity.value)
    && !(Ratio(s.coll, Debt(s) + drawn, s.price) < SafeRatio(s))
    && !(Ratio(s.systemColl, s.systemDebt + drawn, s.price) < s.ccr)
  }

  // What the checks are for, in products: the system is not in recovery and stays
  // out of it, the debt stays within the capacity, and the collateral stays above
  // 1.8 times the debt and a tenth above the critical ratio.
  ghost predicate MayBorrow(s: Trove, amount: int, fee: int) {
    var debt := s.principal + s.interest + amount + fee;
    && s.systemColl * s.price >= s.ccr * s.systemDebt
    && s.systemColl * s.price >= s.ccr * (s.systemDebt + amount + fee)
    && (s.capacity.Some? ==> debt <= s.capacity.value)
    && s.coll * s.price >= 1_800_000_000_000_000_000 * debt
    && s.coll * s.price >= (s.ccr + 100_000_000_000_000_000) * debt
  }

  lemma SafeRatioHolds(s: Trove, value: int, debt: int)
    requires debt > 0
    ensures value / debt >= SafeRatio(s) <==>
              value >= 1_800_000_000_000_000_000 * debt && value >= (s.ccr + 100_000_000_000_000_000) * debt
  {
    AtMostFloor(1_800_000_000_000_000_000, value, debt);
    AtMostFloor(s.ccr + 100_000_000_000_000_000, value, debt);
    assert value / debt >= SafeRatio(s) <==>
             value / debt >= 1_800_000_000_000_000_000 && value / debt >= s.ccr + 100_000_000_000_000_000;
  }

  // The checks accept exactly what may be borrowed.
  lemma BorrowAcceptedMeans(s: Trove, amount: nat, fee: int)
    requires ValidState(s) && amount > 0 && IsFee(s, amount, fee)
    ensures BorrowAccepted(s, amount) <==> MayBorrow(s, amount, fee)
  {
    OneFee(s, amount, fee, BorrowingFee(s, amount));
    var drawn := Drawn(s, amount);
    SafeRatioHolds(s, s.coll * s.price, Debt(s) + drawn);
    AtMostFloor(s.ccr, s.systemColl * s.price, s.systemDebt + drawn);
  }

  // ---------------------------------------------------------------- computeLimits

  function NetRoom(s: Trove): int {
    Max(0, Debt(s) - s.gasCompensation - s.minimum)
  }

  function Room(s: Trove): (r: int)
    requires ValidState(s)
    ensures r >= 0
  {
    var system := Min(Max(0, s.coll * s.price / SafeRatio(s) - Debt(s)),
                      Max(0, s.systemColl * s.price / s.ccr - s.systemDebt));
    Min(system, if s.capacity.None? then system else Max(0, s.capacity.value - Debt(s)))
  }

  lemma DrawnMono(s: Trove, a: nat, b: nat)
    requires s.rate >= 0 && a <= b
    ensures Drawn(s, a) <= Drawn(s, b)
  {
    if !s.feeExempt {
      MulMono(a, b, s.rate);
      FloorBounds(a * s.rate, WAD);
      AtMostFloor(a * s.rate / WAD, b * s.rate, WAD);
    }
  }

  // Largest amount whose draw, truncated fee included, fits the room.
  ghost predicate LargestDraw(s: Trove, amount: nat)
    requires ValidState(s)
  {
    forall a: nat :: Drawn(s, a) <= Room(s) <==> a <= amount
  }

  // Up to its limit, and no further, the wallet covers a deposit with the gas, a
  // repayment leaves the minimum net debt, and a draw may be borrowed.
  ghost predicate LimitsMean(s: Trove, b: Balances, limits: Limits) {
    var room := s.principal + s.interest - s.gasCompensation - s.minimum;
    && limits.deposit == (if b.btc < b.gasReserve then 0 else b.btc - b.gasReserve)
    && limits.repay == (if b.musd <= 0 || room <= 0 then 0 else if b.musd < room then b.musd else room)
    && limits.borrow >= 0
    && (forall amount: nat, fee: int :: 0 < amount && IsFee(s, amount, fee) ==>
          (amount <= limits.borrow <==> MayBorrow(s, amount, fee)))
    && limits.safeIcr == (if s.ccr < 1_700_000_000_000_000_000 then 1_800_000_000_000_000_000
                          else s.ccr + 100_000_000_000_000_000)
  }

  lemma LimitsMeanAll(s: Trove, b: Balances, limits: Limits)
    requires ValidState(s) && limits.safeIcr == SafeRatio(s) && limits.deposit == Max(0, b.btc - b.gasReserve)
    requires limits.repay == Min(Max(0, b.musd), NetRoom(s)) && limits.borrow >= 0
    requires forall amount: nat :: 0 < amount ==> (BorrowAccepted(s, amount) <==> amount <= limits.borrow)
    ensures LimitsMean(s, b, limits)
  {
    forall amount: nat, fee: int | 0 < amount && IsFee(s, amount, fee)
      ensures amount <= limits.borrow <==> MayBorrow(s, amount, fee)
    {
      BorrowAcceptedMeans(s, amount, fee);
    }
  }

  method ComputeLimits(s: Trove, b: Balances) returns (r: Result<Limits, Failure>)
    ensures r.Ok? <==> ValidState(s)
    ensures r.Ok? ==> r.value.safeIcr == SafeRatio(s) && r.value.deposit == Max(0, b.btc - b.gasReserve)
    ensures r.Ok? ==> r.value.repay == Min(Max(0, b.musd), NetRoom(s)) && r.value.borrow >= 0
    ensures r.Ok? ==> forall amount: nat :: 0 < amount ==> (BorrowAccepted(s, amount) <==> amount <= r.value.borrow)
    ensures r.Ok? ==> if RecoveryMode(s) then r.value.borrow == 0 else LargestDraw(s, r.value.borrow)
    ensures r.Ok? ==> LimitsMean(s, b, r.value)
  {
    if !ValidState(s) {
      return Err(InvalidState);
    }
    var room := Room(s);
    var rate := if s.feeExempt then 0 else s.rate;
    var lo, hi := 0, room;
    while lo < hi
      invariant 0 <= lo <= hi <= room
      invariant Drawn(s, lo) <= room
      invariant hi == room || Drawn(s, hi + 1) > room
    {
      var mid := (lo + hi + 1) / 2;
      if mid + mid * rate / WAD <= room {
        lo := mid;
      } else {
        hi := mid - 1;
      }
    }
    LargestFound(s, lo);
    var borrow := if Ratio(s.systemColl, s.systemDebt, s.price) < s.ccr then 0 else lo;
    forall amount: nat | 0 < amount
      ensures BorrowAccepted(s, amount) <==> amount <= borrow
    {
      GuardsMatchRoom(s, amount);
    }
    var limits := Limits(Max(0, b.btc - b.gasReserve), Min(Max(0, b.musd), NetRoom(s)), borrow, SafeRatio(s));
    LimitsMeanAll(s, b, limits);
    return Ok(limits);
  }

  lemma LargestFound(s: Trove, lo: nat)
    requires ValidState(s)
    requires Drawn(s, lo) <= Room(s)
    requires lo == Room(s) || Drawn(s, lo + 1) > Room(s)
    ensures LargestDraw(s, lo)
  {
    forall a: nat
      ensures Drawn(s, a) <= Room(s) <==> a <= lo
    {
      if a <= lo {
        DrawnMono(s, a, lo);
      } else {
        DrawnMono(s, lo + 1, a);
      }
    }
  }

  // A floored ratio stays at or above a bound exactly while the debt stays at
  // or below the floored quotient by that bound.
  lemma RatioFlip(value: int, debt: int, bound: int)
    requires debt > 0 && bound > 0
    ensures value / debt >= bound <==> debt <= value / bound
  {
    AtMostFloor(bound, value, debt);
    AtMostFloor(debt, value, bound);
    assert bound * debt == debt * bound;
  }

  // The separate ratio and capacity checks together ask that the draw fits.
  lemma GuardsMatchRoom(s: Trove, amount: nat)
    requires ValidState(s) && amount > 0
    ensures BorrowAccepted(s, amount) <==> !RecoveryMode(s) && Drawn(s, amount) <= Room(s)
  {
    var drawn := Drawn(s, amount);
    RatioFlip(s.coll * s.price, Debt(s) + drawn, SafeRatio(s));
    RatioFlip(s.systemColl * s.price, s.systemDebt + drawn, s.ccr);
  }

  // ----------------------------------------------------- repaying and depositing

  predicate RepayAccepted(s: Trove, b: Balances, amount: nat) {
    amount <= b.musd && amount <= Min(Max(0, b.musd), NetRoom(s))
  }

  function PrincipalAfterRepay(s: Trove, amount: nat): int {
    s.principal - (if amount > s.interest then amount - s.interest else 0)
  }

  // What is left of the principal: the interest is paid before any of it.
  ghost function InterestFirst(s: Trove, amount: int): int {
    if amount <= s.interest then s.principal else s.principal + s.interest - amount
  }

  // A repayment goes through exactly when the wallet holds it and the net debt
  // left is the minimum; interest is paid off first and nothing goes negative.
  lemma RepayGuard(s: Trove, b: Balances, amount: nat)
    requires ValidState(s) && amount > 0
    ensures RepayAccepted(s, b, amount) <==>
              amount <= b.musd && Debt(s) - amount >= s.gasCompensation + s.minimum
    ensures RepayAccepted(s, b, amount) ==>
              var p := PrincipalAfterRepay(s, amount);
              && 0 <= p <= s.principal && 0 <= Debt(s) - amount - p <= s.interest
              && p == InterestFirst(s, amount)
  {
  }

  datatype Kind = Deposit | Repay | Borrow

  datatype Prepared = Prepared(coll: int, debt: int, principal: int, fee: int, value: int)

  datatype Refusal = LowMusd | BelowMinimum | Recovery | OverCapacity | UnsafeRatio | UnsafeSystem | LowGas

  ghost predicate GuardsPass(s: Trove, b: Balances, kind: Kind, amount: nat)
    requires ValidState(s)
  {
    match kind
    case Deposit => true
    case Repay => amount <= b.musd && s.principal + s.interest - amount >= s.gasCompensation + s.minimum
    case Borrow => forall fee: int :: IsFee(s, amount, fee) ==> MayBorrow(s, amount, fee)
  }

  // Why an action is refused: the first of its guards that fails.
  ghost predicate RefusedFor(s: Trove, b: Balances, kind: Kind, amount: nat, reserve: nat, refusal: Refusal)
    requires ValidState(s)
  {
    var fee := BorrowingFee(s, amount);
    var debt := s.principal + s.interest + amount + fee;
    match refusal
    case LowMusd => kind.Repay? && b.musd < amount
    case BelowMinimum =>
      kind.Repay? && amount <= b.musd && s.principal + s.interest - amount < s.gasCompensation + s.minimum
    case Recovery => kind.Borrow? && s.systemColl * s.price < s.ccr * s.systemDebt
    case OverCapacity =>
      kind.Borrow? && s.systemColl * s.price >= s.ccr * s.systemDebt && s.capacity.Some? && debt > s.capacity.value
    case UnsafeRatio =>
      && kind.Borrow? && s.systemColl * s.price >= s.ccr * s.systemDebt && (s.capacity.Some? ==> debt <= s.capacity.value)
      && !(s.coll * s.price >= 1_800_000_000_000_000_000 * debt
           && s.coll * s.price >= (s.ccr + 100_000_000_000_000_000) * debt)
    case UnsafeSystem =>
      && kind.Borrow? && s.systemColl * s.price >= s.ccr * s.systemDebt && (s.capacity.Some? ==> debt <= s.capacity.value)
      && s.coll * s.price >= 1_800_000_000_000_000_000 * debt
      && s.coll * s.price >= (s.ccr + 100_000_000_000_000_000) * debt
      && s.systemColl * s.price < s.ccr * (s.systemDebt + amount + fee)
    case LowGas => GuardsPass(s, b, kind, amount) && reserve + (if kind.Deposit? then amount else 0) > b.btc
  }

  // The checks of a borrow, one after the other.
  method BorrowChecks(s: Trove, amount: nat, fee: nat) returns (refusal: Option<Refusal>)
    requires ValidState(s) && amount > 0 && fee == BorrowingFee(s, amount)
    ensures refusal.None? <==> MayBorrow(s, amount, fee)
    ensures refusal.Some? ==> forall b, reserve :: RefusedFor(s, b, Borrow, amount, reserve, refusal.value)
    ensures refusal != Some(LowGas)
  {
    var debt := Debt(s) + amount + fee;
    AtMostFloor(s.ccr, s.systemColl * s.price, s.systemDebt);
    if Ratio(s.systemColl, s.systemDebt, s.price) < s.ccr {
      return Some(Recovery);
    }
    if s.capacity.Some? && debt > s.capacity.value {
      return Some(OverCapacity);
    }
    SafeRatioHolds(s, s.coll * s.price, debt);
    if Ratio(s.coll, debt, s.price) < SafeRatio(s) {
      return Some(UnsafeRatio);
    }
    AtMostFloor(s.ccr, s.systemColl * s.price, s.systemDebt + amount + fee);
    if Ratio(s.systemColl, s.systemDebt + amount + fee, s.price) < s.ccr {
      return Some(UnsafeSystem);
    }
    return None;
  }

  lemma BorrowPasses(s: Trove, b: Balances, amount: nat)
    requires ValidState(s) && amount > 0
    ensures GuardsPass(s, b, Borrow, amount) <==> MayBorrow(s, amount, BorrowingFee(s, amount))
    ensures BorrowAccepted(s, amount) <==> MayBorrow(s, amount, BorrowingFee(s, amount))
  {
    var fee := BorrowingFee(s, amount);
    assert IsFee(s, amount, fee);
    forall other: int | IsFee(s, amount, other)
      ensures other == fee
    {
      OneFee(s, amount, fee, other);
    }
    BorrowAcceptedMeans(s, amount, fee);
  }

  // An action is prepared exactly when its guards pass and the wallet covers
  // value and gas; what is prepared keeps every bound the guards stand for.
  method PrepareAction(s: Trove, b: Balances, kind: Kind, amount: nat, reserve: nat)
    returns (r: Result<Prepared, Refusal>)
    requires ValidState(s) && amount > 0
    ensures r.Ok? <==> GuardsPass(s, b, kind, amount) && reserve + (if kind.Deposit? then amount else 0) <= b.btc
    ensures r.Err? ==> RefusedFor(s, b, kind, amount, reserve, r.error)
    ensures r.Ok? ==>
              var p := r.value;
              && p.principal <= p.debt && 0 <= p.principal && p.debt - p.principal <= s.interest
              && match kind
                 case Deposit =>
                   p.coll == s.coll + amount && p.value == amount && p.fee == 0
                   && p.debt == s.principal + s.interest && p.principal == s.principal
                 case Repay =>
                   p.coll == s.coll && p.value == 0 && p.fee == 0
                   && p.debt == s.principal + s.interest - amount && p.principal == InterestFirst(s, amount)
                 case Borrow =>
                   p.coll == s.coll && p.value == 0 && IsFee(s, amount, p.fee)
                   && p.debt == s.principal + s.interest + amount + p.fee && p.principal == s.principal + amount + p.fee
    ensures r.Ok? && kind.Borrow? ==>
              var p := r.value;
              && SafeRatio(s) * p.debt <= p.coll * s.price && p.fee == BorrowingFee(s, amount)
              && s.ccr * (s.systemDebt + p.debt - Debt(s)) <= s.systemColl * s.price
              && (s.capacity.Some? ==> p.debt <= s.capacity.value)
  {
    var coll, debt, principal, fee, value := s.coll, Debt(s), s.principal, 0, 0;
    match kind {
      case Deposit =>
        coll := coll + amount;
        value := amount;
        if b.btc < amount {
          return Err(LowGas);
        }
      case Repay =>
        if amount > b.musd {
          return Err(LowMusd);
        }
        var limits := ComputeLimits(s, b);
        RepayGuard(s, b, amount);
        if amount > limits.value.repay {
          return Err(BelowMinimum);
        }
        debt := debt - amount;
        principal := principal - (if amount > s.interest then amount - s.interest else 0);
      case Borrow =>
        BorrowPasses(s, b, amount);
        fee := BorrowingFee(s, amount);
        var refusal := BorrowChecks(s, amount, fee);
        if refusal.Some? {
          return Err(refusal.value);
        }
        debt := debt + amount + fee;
        principal := principal + amount + fee;
        SafeRatioHolds(s, coll * s.price, debt);
        AtMostFloor(SafeRatio(s), coll * s.price, debt);
    }
    if value + reserve > b.btc {
      return Err(LowGas);
    }
    return Ok(Prepared(coll, debt, principal, fee, value));
  }

  // ---------------------------------------------------------------- computeRescue

  // Half a per cent on top, rounded up.
  function Buffered(x: nat): nat {
    CeilDiv(x * 1005, 1000)
  }

  predicate ValidTarget(s: Trove, target: int) {
    s.mcr + WAD / 20 <= target <= 1000 * WAD
  }

  function LeastDeposit(s: Trove, target: nat): nat
    requires ValidState(s)
  {
    MulMono(0, target, Debt(s));
    Max(0, CeilDiv(target * Debt(s), s.price) - s.coll)
  }

  function LeastRepay(s: Trove, target: nat): nat
    requires ValidState(s) && target > 0
  {
    Max(0, Debt(s) - s.coll * s.price / target)
  }

  function ComputeRescue(s: Trove, target: int): Result<Rescue, Failure> {
    if !ValidState(s) then Err(InvalidState)
    else if !ValidTarget(s, target) then Err(InvalidTarget)
    else
      var above := Ratio(s.coll, Debt(s), s.price) >= target;
      var deposit := if above then 0 else Buffered(LeastDeposit(s, target));
      var repay := if above then 0 else Buffered(LeastRepay(s, target));
      Ok(Rescue(deposit, repay, above, repay <= NetRoom(s)))
  }

  lemma BufferedBounds(x: nat)
    ensures x <= Buffered(x) && (Buffered(x) == 0 <==> x == 0)
    ensures 1000 * (Buffered(x) - x) < 5 * x + 1000
  {
    AtLeastCeil(x, x * 1005, 1000);
  }

  // LeastDeposit is the least that lifts the floored ratio to the target.
  lemma LeastDepositIsLeast(s: Trove, target: nat, d: nat)
    requires ValidState(s)
    ensures Ratio(s.coll + d, Debt(s), s.price) >= target <==> d >= LeastDeposit(s, target)
  {
    MulMono(0, target, Debt(s));
    AtMostFloor(target, (s.coll + d) * s.price, Debt(s));
    AtLeastCeil(s.coll + d, target * Debt(s), s.price);
  }

  // LeastRepay is the least that brings the debt down to the target.
  lemma LeastRepayIsLeast(s: Trove, target: nat, r: nat)
    requires ValidState(s) && target > 0
    ensures target * (Debt(s) - r) <= s.coll * s.price <==> r >= LeastRepay(s, target)
  {
    AtMostFloor(Debt(s) - r, s.coll * s.price, target);
    assert target * (Debt(s) - r) == (Debt(s) - r) * target;
    MulMono(1, s.coll, s.price);
    FloorBounds(s.coll * s.price, target);
    if r < LeastRepay(s, target) {
    } else if Debt(s) - r < 0 {
      MulMono(Debt(s) - r, 0, target);
    }
  }

  // Half a per cent more than the least that would do, rounded up.
  ghost predicate HalfPercentMore(amount: int, least: int) {
    least * 1005 <= amount * 1000 < least * 1005 + 1000
  }

  // In products: both amounts are what the least amounts that reach the target
  // come to with the margin, and a repayment is offered while the minimum stays.
  lemma RescueMeans(s: Trove, target: int, d: nat, r: nat)
    ensures ComputeRescue(s, target) == Err(InvalidState) <==> !ValidState(s)
    ensures ComputeRescue(s, target) == Err(InvalidTarget) <==>
              ValidState(s) && !(s.mcr + 50_000_000_000_000_000 <= target <= 1_000_000_000_000_000_000_000)
    ensures ComputeRescue(s, target).Ok? ==>
              var rescue, debt := ComputeRescue(s, target).value, s.principal + s.interest;
              && (rescue.alreadyAbove <==> s.coll * s.price >= target * debt)
              && (rescue.repayAvailable <==> rescue.repay == 0 || debt - rescue.repay >= s.gasCompensation + s.minimum)
              && ((s.coll + d) * s.price >= target * debt && (d > 0 ==> (s.coll + d - 1) * s.price < target * debt) ==>
                    HalfPercentMore(rescue.deposit, d))
              && (target * (debt - r) <= s.coll * s.price && (r > 0 ==> target * (debt - (r - 1)) > s.coll * s.price) ==>
                    HalfPercentMore(rescue.repay, r))
  {
    if ComputeRescue(s, target).Ok? {
      RescueReachesTarget(s, target);
      AtMostFloor(target, s.coll * s.price, Debt(s));
      LeastDepositIsLeast(s, target, d);
      AtMostFloor(target, (s.coll + d) * s.price, Debt(s));
      LeastRepayIsLeast(s, target, r);
      BufferedExactly(LeastDeposit(s, target));
      BufferedExactly(LeastRepay(s, target));
      if d > 0 {
        LeastDepositIsLeast(s, target, d - 1);
        AtMostFloor(target, (s.coll + d - 1) * s.price, Debt(s));
      }
      if r > 0 {
        LeastRepayIsLeast(s, target, r - 1);
      }
    }
  }

  lemma BufferedExactly(x: nat)
    ensures HalfPercentMore(Buffered(x), x)
  {
  }

  // Both amounts reach the target, are zero exactly when it is already met, and
  // are within half a per cent and one unit of the least that would do.
  lemma RescueReachesTarget(s: Trove, target: int)
    requires ValidState(s) && ValidTarget(s, target)
    ensures var Ok(rescue) := ComputeRescue(s, target);
            && (rescue.alreadyAbove <==> Ratio(s.coll, Debt(s), s.price) >= target)
            && (rescue.deposit == 0 <==> rescue.alreadyAbove) && (rescue.repay == 0 <==> rescue.alreadyAbove)
            && Ratio(s.coll + rescue.deposit, Debt(s), s.price) >= target
            && target * (Debt(s) - rescue.repay) <= s.coll * s.price
    ensures var Ok(rescue) := ComputeRescue(s, target);
            && LeastDeposit(s, target) <= rescue.deposit && LeastRepay(s, target) <= rescue.repay
            && 1000 * (rescue.deposit - LeastDeposit(s, target)) < 5 * LeastDeposit(s, target) + 1000
            && 1000 * (rescue.repay - LeastRepay(s, target)) < 5 * LeastRepay(s, target) + 1000
  {
    var Ok(rescue) := ComputeRescue(s, target);
    var least, owed := LeastDeposit(s, target), LeastRepay(s, target);
    LeastDepositIsLeast(s, target, 0);
    LeastDepositIsLeast(s, target, rescue.deposit);
    LeastRepayIsLeast(s, target, 0);
    LeastRepayIsLeast(s, target, rescue.repay);
    AtMostFloor(target, s.coll * s.price, Debt(s));
    BufferedBounds(least);
    BufferedBounds(owed);
  }

  // An available repayment keeps the minimum net debt and the principal.
  lemma AvailableRepayIsAccepted(s: Trove, target: int, b: Balances)
    requires ValidState(s) && ValidTarget(s, target)
    ensures var Ok(rescue) := ComputeRescue(s, target);
            rescue.repayAvailable && !rescue.alreadyAbove && rescue.repay <= b.musd ==>
              && RepayAccepted(s, b, rescue.repay)
              && Debt(s) - rescue.repay >= s.gasCompensation + s.minimum && PrincipalAfterRepay(s, rescue.repay) >= 0
              && (Debt(s) > rescue.repay ==> Ratio(s.coll, Debt(s) - rescue.repay, s.price) >= target)
  {
    var Ok(rescue) := ComputeRescue(s, target);
    RescueReachesTarget(s, target);
    if rescue.repay > 0 {
      RepayGuard(s, b, rescue.repay);
    }
    if Debt(s) > rescue.repay {
      AtMostFloor(target, s.coll * s.price, Debt(s) - rescue.repay);
    }
  }
}
