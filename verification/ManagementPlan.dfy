/** Exact planning of a protection revision (`compileBinanceUsdmProtectionManagementPlan`):
    partial reduction, protected equity at the old and the new stop, and the guards between them. */
module ManagementPlan {
  import opened Wrappers
  import opened Rounding
  import opened RiskPolicy
  import opened MutationContract
  import DecimalText

  /** Price and quantity units are both 10^-8. */
  const SCALE: nat := 100_000_000
  const CENT: nat := 100_000_000_000_000   // SCALE * SCALE / 100: price units times quantity units in one cent

  // ---------------------------------------------------------------- money

  function Gain(direction: Direction, entry: nat, exit: nat): int {
    if direction.Long? then exit - entry else entry - exit
  }

  /** `pnlCents`: signed floor of the exact profit. */
  function PnlCents(direction: Direction, entry: nat, exit: nat, quantity: nat): int {
    FloorSigned(Gain(direction, entry, exit) * quantity * 100, SCALE * SCALE)
  }

  /** `notionalCents` and `costCents`: both rounded up. */
  function NotionalCents(price: nat, quantity: nat): nat { CeilRatio(price * quantity, 100, SCALE * SCALE) }

  function CostCents(price: nat, quantity: nat, bps: nat): nat { CeilRatio(NotionalCents(price, quantity), bps, 10_000) }

  /** Wallet plus profit at the stop less the cost of leaving there. */
  function ProtectedEquity(wallet: int, direction: Direction, entry: nat, stop: nat, quantity: nat, bps: nat): int {
    wallet + PnlCents(direction, entry, stop, quantity) - CostCents(stop, quantity, bps)
  }

  /** Profit is the floor of the exact gain, whichever way the position goes. */
  lemma {:induction false} PnlAdjunction(x: int, direction: Direction, entry: nat, exit: nat, quantity: nat)
    ensures x <= PnlCents(direction, entry, exit, quantity)
        <==> x * CENT <= (if direction.Long? then exit - entry else entry - exit) * quantity
  {
    SignedFloorAdjunction(x, Gain(direction, entry, exit) * quantity * 100, SCALE * SCALE);
  }

  lemma {:induction false} NotionalAdjunction(price: nat, quantity: nat, x: int)
    ensures NotionalCents(price, quantity) <= x <==> price * quantity <= x * CENT
  {
    CeilAdjunction(price * quantity * 100, SCALE * SCALE, x);
  }

  /** A cost is the ceiling of its rate on the ceiled notional. */
  lemma {:induction false} CostAdjunction(price: nat, quantity: nat, bps: nat, x: int)
    ensures CostCents(price, quantity, bps) <= x <==> NotionalCents(price, quantity) * bps <= x * 10_000
  {
    hide NotionalCents;
    CeilAdjunction(NotionalCents(price, quantity) * bps, 10_000, x);
  }

  lemma {:induction false} ProductGap(n: nat, m: nat, bps: nat)
    requires n <= m && bps <= 10_000
    ensures n * bps <= m * bps <= n * bps + (m - n) * 10_000
  {
    var k, slack := m - n, 10_000 - bps;
    assert m * bps == n * bps + k * bps;
    assert k * slack >= 0 && k * bps >= 0;
    assert k * 10_000 == k * bps + k * slack;
  }

  lemma {:induction false} CeilGap(a: nat, b: nat, k: nat, d: nat)
    requires d > 0 && a <= b <= a + k * d
    ensures Ceil(a, d) <= Ceil(b, d) <= Ceil(a, d) + k
  {
    CeilBounds(a, d);
    CeilBounds(b, d);
    CeilAdjunction(a, d, Ceil(b, d));
    CeilAdjunction(b, d, Ceil(a, d) + k);
    assert (Ceil(a, d) + k) * d == Ceil(a, d) * d + k * d;
  }

  /** A cost rate of at most 100% never grows faster than the notional it is charged on. */
  lemma {:induction false} CostIsNonExpansive(n: nat, m: nat, bps: nat)
    requires n <= m && bps <= 10_000
    ensures CeilRatio(n, bps, 10_000) <= CeilRatio(m, bps, 10_000) <= CeilRatio(n, bps, 10_000) + (m - n)
  {
    hide Ceil;
    ProductGap(n, m, bps);
    CeilGap(n * bps, m * bps, m - n, 10_000);
  }

  predicate Tightens(direction: Direction, stop: nat, next: nat) {
    if direction.Long? then stop <= next else next <= stop
  }

  lemma {:induction false} LongMove(entry: nat, stop: nat, next: nat, quantity: nat) returns (cents: nat)
    requires stop <= next
    ensures PnlCents(Long, entry, next, quantity) >= PnlCents(Long, entry, stop, quantity) + cents
    ensures NotionalCents(stop, quantity) <= NotionalCents(next, quantity) <= NotionalCents(stop, quantity) + cents + 1
  {
    hide PnlCents, NotionalCents;
    var p, n, n' := PnlCents(Long, entry, stop, quantity), NotionalCents(stop, quantity), NotionalCents(next, quantity);
    var move := (next - stop) * quantity;
    cents := move / CENT;
    DivBounds(move, CENT);
    assert (next - entry) * quantity == (stop - entry) * quantity + move;
    assert next * quantity == stop * quantity + move;
    PnlAdjunction(p, Long, entry, stop, quantity);
    PnlAdjunction(p + cents, Long, entry, next, quantity);
    NotionalAdjunction(stop, quantity, n);
    NotionalAdjunction(next, quantity, n + cents + 1);
    NotionalAdjunction(next, quantity, n');
    NotionalAdjunction(stop, quantity, n');
  }

  lemma {:induction false} ShortMove(entry: nat, stop: nat, next: nat, quantity: nat)
    requires next <= stop
    ensures PnlCents(Short, entry, next, quantity) >= PnlCents(Short, entry, stop, quantity)
    ensures NotionalCents(next, quantity) <= NotionalCents(stop, quantity)
  {
    hide PnlCents, NotionalCents;
    var p, n := PnlCents(Short, entry, stop, quantity), NotionalCents(stop, quantity);
    var move := (stop - next) * quantity;
    assert (entry - next) * quantity == (entry - stop) * quantity + move;
    assert stop * quantity == next * quantity + move;
    PnlAdjunction(p, Short, entry, stop, quantity);
    PnlAdjunction(p, Short, entry, next, quantity);
    NotionalAdjunction(stop, quantity, n);
    NotionalAdjunction(next, quantity, n);
  }

  /** Tightening a stop lowers the computed protected equity by at most one cent for a long position and
      never for a short one, through a floored profit and a doubly ceiled cost. */
  lemma {:induction false} TighteningBound(wallet: int, direction: Direction, entry: nat, stop: nat, next: nat, quantity: nat, bps: nat)
    requires Tightens(direction, stop, next) && bps <= 10_000
    ensures ProtectedEquity(wallet, direction, entry, next, quantity, bps)
         >= ProtectedEquity(wallet, direction, entry, stop, quantity, bps) - if direction.Long? then 1 else 0
  {
    hide PnlCents, NotionalCents, CeilRatio;
    var n, n' := NotionalCents(stop, quantity), NotionalCents(next, quantity);
    if direction.Long? {
      var cents := LongMove(entry, stop, next, quantity);
      CostIsNonExpansive(n, n', bps);
    } else {
      ShortMove(entry, stop, next, quantity);
      CostIsNonExpansive(n', n, bps);
    }
  }

  /** The cent is real: one price unit of tightening on one coin at 20.00 costs exactly one cent of
      computed protected equity, so the weakening guard refuses it. */
  lemma {:induction false} TighteningCanCostOneCent()
    ensures ProtectedEquity(0, Long, 2_500_000_000, 2_000_000_001, SCALE, 15)
         == ProtectedEquity(0, Long, 2_500_000_000, 2_000_000_000, SCALE, 15) - 1
  {
    var e, s: nat := 2_500_000_000, 2_000_000_000;
    PnlAdjunction(-500, Long, e, s, SCALE);
    PnlAdjunction(-499, Long, e, s, SCALE);
    PnlAdjunction(-500, Long, e, s + 1, SCALE);
    PnlAdjunction(-499, Long, e, s + 1, SCALE);
    NotionalAdjunction(s, SCALE, 2000);
    NotionalAdjunction(s, SCALE, 1999);
    NotionalAdjunction(s + 1, SCALE, 2001);
    NotionalAdjunction(s + 1, SCALE, 2000);
    assert CeilRatio(2000, 15, 10_000) == 3 && CeilRatio(2001, 15, 10_000) == 4;
  }

  // ---------------------------------------------------------------- inputs and result

  datatype Blocker =
    | BindingOrEvidenceNotReady | WalletNotProven | UnrealizedInvalid | StepInvalid | MinimumQuantityInvalid
    | TickInvalid | MinimumNotionalInvalid | MarketInvalid | MarketCrossed | TakerFeeInvalid | NextStopInvalid | NextTargetInvalid
    | StopOffTick | TargetOffTick | StopWrongSide | TargetWrongSide | ReductionBpsInvalid | QuantityInvalid | QuantityOffStep
    | ReductionRoundsToZero | ReductionNotPartial | BelowMinimumQuantity | BelowMinimumNotional | DailyStateInvalid
    | EquityNotPositive | DailyStateNotReconciled | CurrentStopInvalid | ProjectedEquityNotPositive
    | WeakensProtectedEquity | ReachesLossBoundary | ViolatesFloor | OpenRiskExceeded | RevisionInvalid

  /** The planner's inputs once the evidence record is read; texts that decide a branch stay texts. */
  datatype Input = Input(
    revisionIntentId: string, current: OwnedProtection, entryPrice: string, evidenceReady: bool,
    wallet: Option<nat>, unrealized: Option<int>, mark: Option<nat>, bid: Option<nat>, ask: Option<nat>,
    takerRate: Option<nat>, tick: Option<nat>, venueStep: Option<nat>, minimumQuantity: Option<nat>, minimumNotional: Option<nat>,
    nextStopPrice: string, nextTargetPrice: string, reductionBps: Option<int>,
    dayMatches: bool, daily: DailyState, policy: Policy)
  {
    predicate Valid() {
      && policy.Valid()
      && (tick.Some? ==> tick.value > 0) && (venueStep.Some? ==> venueStep.value > 0)
    }
  }

  datatype Risk = Risk(
    venueBps: nat, exitBps: nat, equity: int, usablePot: int, startPot: int, targetProfit: int, lossBoundary: int, activeFloor: Option<int>,
    currentProtected: int, realized: int, reductionCost: nat, projectedWallet: int, projectedEquity: int, projectedProtected: int,
    currentOpenRisk: int, openRisk: int, maximumOpenRisk: int)

  datatype Plan = Plan(
    ready: bool, request: Option<RevisionRequest>, reduction: Option<nat>, remaining: Option<nat>,
    risk: Option<Risk>, blockers: set<Blocker>)

  function Push(fails: bool, blocker: Blocker): set<Blocker> { if fails then {blocker} else {} }

  /** `positiveScaled`: exact at eight decimals and above zero. */
  function PositiveScaled(text: string): Option<nat> {
    match DecimalText.ParseScaled(text, 8, DecimalText.Exact)
    case None => None
    case Some(n) => if n > 0 then Some(n) else None
  }

  /** `canonicalDecimalOrNull` followed by `positiveScaled`. */
  function PriceUnits(text: string): Option<nat> {
    match DecimalText.CanonicalPositive(text)
    case None => None
    case Some(c) => PositiveScaled(c)
  }

  // ---------------------------------------------------------------- the reduction block

  /** The split of a quantity: all of it stays, or the largest reduction on both step grids within the requested
      share goes and the rest stays; nothing stays of a split that would reduce nothing. */
  ghost predicate IsSplit(quantity: nat, policyStep: nat, venueStep: nat, bps: Option<int>, reduction: Option<nat>, remaining: Option<nat>)
    requires policyStep > 0 && venueStep > 0
  {
    if bps.None? then reduction.None? && remaining == Some(quantity)
    else if 0 < bps.value < 10_000 then
      && reduction.Some? && reduction.value < quantity
      && IsMultiple(reduction.value, policyStep) && IsMultiple(reduction.value, venueStep)
      && (forall x: nat | IsMultiple(x, policyStep) && IsMultiple(x, venueStep) :: x * 10_000 <= quantity * bps.value <==> x <= reduction.value)
      && remaining == if reduction.value == 0 then None else Some(quantity - reduction.value)
    else reduction.None? && remaining.None?
  }

  /** Reduction and remainder, and what the block pushes; a reduction is never the whole position. */
  method PlanReduction(quantity: nat, policyStep: nat, venueStep: nat, reductionBps: Option<int>)
    returns (reduction: Option<nat>, remaining: Option<nat>, pushed: set<Blocker>)
    requires quantity > 0 && policyStep > 0 && venueStep > 0
    ensures IsSplit(quantity, policyStep, venueStep, reductionBps, reduction, remaining)
    ensures pushed <= {QuantityOffStep, ReductionRoundsToZero}
    ensures QuantityOffStep in pushed <==> !(IsMultiple(quantity, policyStep) && IsMultiple(quantity, venueStep))
    ensures ReductionRoundsToZero in pushed <==> reduction == Some(0)
    ensures QuantityOffStep !in pushed && remaining.Some? ==> IsMultiple(remaining.value, policyStep) && IsMultiple(remaining.value, venueStep)
  {
    hide Lcm;
    var step := LeastCommonMultiple(policyStep, venueStep);
    reduction, remaining, pushed := None, None, Push(quantity % step != 0, QuantityOffStep);
    LcmIsLeast(policyStep, venueStep, quantity);
    if reductionBps.None? {
      remaining := Some(quantity);
    } else if 0 < reductionBps.value < 10_000 {
      var raw := quantity * reductionBps.value / 10_000;
      var cut := RoundDownToStep(raw, step);
      LargestReduction(quantity, policyStep, venueStep, reductionBps.value, raw, cut);
      reduction := Some(cut);
      if cut <= 0 {
        pushed := pushed + {ReductionRoundsToZero};
      } else if cut >= quantity {
        pushed := pushed + {ReductionNotPartial};
      } else {
        remaining := Some(quantity - cut);
        DifferenceIsMultiple(quantity, cut, step);
        LcmIsLeast(policyStep, venueStep, quantity - cut);
      }
    }
  }

  lemma {:induction false} LargestReduction(quantity: nat, policyStep: nat, venueStep: nat, bps: nat, raw: nat, cut: nat)
    requires quantity > 0 && policyStep > 0 && venueStep > 0 && 0 < bps < 10_000 && Lcm(policyStep, venueStep) > 0
    requires raw == quantity * bps / 10_000 && cut == RoundDownToStep(raw, Lcm(policyStep, venueStep))
    ensures cut < quantity && IsMultiple(cut, Lcm(policyStep, venueStep)) && IsMultiple(cut, policyStep) && IsMultiple(cut, venueStep)
    ensures forall x: nat | IsMultiple(x, policyStep) && IsMultiple(x, venueStep) :: x * 10_000 <= quantity * bps <==> x <= cut
  {
    hide Lcm;
    LcmIsLeast(policyStep, venueStep, 0);
    var step := Lcm(policyStep, venueStep);
    ProductIsMultiple(0, step);
    StepAdjunction(0, raw, step);
    DivBounds(raw, step);
    LcmIsLeast(policyStep, venueStep, cut);
    forall x: nat | IsMultiple(x, policyStep) && IsMultiple(x, venueStep)
      ensures x * 10_000 <= quantity * bps <==> x <= cut
    {
      LcmIsLeast(policyStep, venueStep, x);
      StepAdjunction(x, raw, step);
      FloorAdjunction(x, quantity * bps, 10_000);
    }
    PartIsSmaller(quantity, bps, cut);
  }

  lemma {:induction false} PartIsSmaller(quantity: nat, bps: nat, cut: nat)
    requires quantity > 0 && bps < 10_000 && cut * 10_000 <= quantity * bps
    ensures cut < quantity
  {
    assert quantity * bps < quantity * 10_000;
  }

  lemma {:induction false} DifferenceIsMultiple(a: int, b: int, step: nat)
    requires step > 0 && IsMultiple(b, step)
    ensures IsMultiple(a, step) ==> IsMultiple(a - b, step)
  {
    if IsMultiple(a, step) {
      var i := MultipleWitness(a, step);
      var j := MultipleWitness(b, step);
      assert a - b == (i - j) * step;
      ProductIsMultiple(i - j, step);
    }
  }

  // ---------------------------------------------------------------- the risk block

  /** The numbers the risk block runs on; it runs only when every one of them is known. */
  datatype Numbers = Numbers(
    direction: Direction, wallet: nat, unrealized: int, quantity: nat, reduction: Option<nat>, remaining: nat,
    entry: nat, mark: nat, executable: nat, stop: nat, nextStop: nat, takerRate: nat)

  /** Two taker fills in basis points, rounded up. */
  function VenueBps(takerRate: nat): nat { CeilRatio(takerRate * 2, 10_000, SCALE) }

  /** `floorBps`: BigInt division truncates towards zero. */
  function FloorBps(value: int, bps: nat): int {
    if value >= 0 then value * bps / 10_000 else var magnitude: int := (-value) * bps / 10_000; -magnitude
  }

  lemma {:induction false} FloorBpsIsShare(value: int, bps: nat)
    ensures IsShare(FloorBps(value, bps), value, bps)
  {
    DivBounds(value * bps, 10_000);
    DivBounds(-value * bps, 10_000);
    assert -value * bps == (-value) * bps;
  }

  /** Leaving costs the dearer of the policy's estimate and two taker fills, and the stress charge on top. */
  predicate IsExitRate(takerRate: nat, policy: Policy, venueBps: nat, exitBps: nat) {
    && venueBps * SCALE - SCALE < takerRate * 20_000 <= venueBps * SCALE
    && var rate: int := exitBps - policy.stressedExitCostBps;
    rate >= policy.estimatedRoundTripCostBps && rate >= venueBps && (rate == policy.estimatedRoundTripCostBps || rate == venueBps)
  }

  /** Equity now and as projected, and what the old and the new stop protect of them. */
  predicate MoneyCorrect(n: Numbers, r: Risk) {
    && r.equity == n.wallet + n.unrealized
    && r.currentProtected == ProtectedEquity(n.wallet, n.direction, n.entry, n.stop, n.quantity, r.exitBps)
    && r.realized == (if n.reduction.None? then 0 else PnlCents(n.direction, n.entry, n.executable, n.reduction.value))
    && r.reductionCost == (if n.reduction.None? then 0 else CostCents(n.executable, n.reduction.value, r.exitBps))
    && r.projectedWallet == n.wallet + r.realized - r.reductionCost
    && r.projectedEquity == r.projectedWallet + PnlCents(n.direction, n.entry, n.mark, n.remaining)
    && r.projectedProtected == ProtectedEquity(r.projectedWallet, n.direction, n.entry, n.nextStop, n.remaining, r.exitBps)
  }

  /** The limits of the day and of the policy. */
  predicate LimitsCorrect(policy: Policy, daily: DailyState, r: Risk) {
    && IsPot(r.usablePot, r.projectedEquity, policy.usableBalanceLimitCents)
    && IsPot(r.startPot, daily.startEquityCents, policy.usableBalanceLimitCents)
    && IsShare(r.targetProfit, r.startPot, policy.dailyLockTargetBps)
    && IsShare(daily.startEquityCents - r.lossBoundary, r.startPot, policy.maxDailyLossBps)
    && IsPositivePart(r.currentOpenRisk, r.equity - r.currentProtected)
    && IsPositivePart(r.openRisk, r.projectedEquity - r.projectedProtected)
    && IsShare(r.maximumOpenRisk, if r.usablePot > 0 then r.usablePot else 0, policy.maxOpenRiskBps)
    && (var target := daily.startEquityCents + r.targetProfit;
        IsFloor(daily, target, r.currentProtected >= target || r.projectedProtected >= target, r.activeFloor))
  }

  /** Every number of the block, independently of how it is computed. */
  predicate RiskCorrect(n: Numbers, policy: Policy, daily: DailyState, r: Risk) {
    IsExitRate(n.takerRate, policy, r.venueBps, r.exitBps) && MoneyCorrect(n, r) && LimitsCorrect(policy, daily, r)
  }

  /** One leg's profit, notional and cost, each of which the source refuses outside the safe range. */
  predicate LegIsSafe(direction: Direction, entry: nat, exit: nat, quantity: nat, bps: nat) {
    IsSafe(PnlCents(direction, entry, exit, quantity)) && IsSafe(NotionalCents(exit, quantity)) && IsSafe(CostCents(exit, quantity, bps))
  }

  /** Every number that is checked against the safe range is in it. */
  predicate Representable(n: Numbers, daily: DailyState, r: Risk) {
    && IsSafe(r.equity) && IsSafe(r.venueBps)
    && LegIsSafe(n.direction, n.entry, n.stop, n.quantity, r.exitBps)
    && (n.reduction.Some? ==> LegIsSafe(n.direction, n.entry, n.executable, n.reduction.value, r.exitBps))
    && IsSafe(PnlCents(n.direction, n.entry, n.mark, n.remaining))
    && LegIsSafe(n.direction, n.entry, n.nextStop, n.remaining, r.exitBps)
    && IsSafe(r.targetProfit) && IsSafe(daily.startEquityCents - r.lossBoundary) && IsSafe(r.maximumOpenRisk)
  }

  /** The guards a revision must pass. */
  predicate Guarded(r: Risk) {
    && r.projectedProtected >= r.currentProtected
    && r.projectedProtected > r.lossBoundary
    && (r.activeFloor.Some? ==> r.projectedProtected >= r.activeFloor.value)
    && r.openRisk <= r.maximumOpenRisk
  }

  lemma {:induction false} VenueRate(takerRate: nat)
    ensures VenueBps(takerRate) * SCALE - SCALE < takerRate * 20_000 <= VenueBps(takerRate) * SCALE
  {
    CeilBounds(takerRate * 2 * 10_000, SCALE);
  }

  /** The limits, from the protected amounts. */
  method DayAndPolicyLimits(policy: Policy, daily: DailyState, equity: int, currentProtected: int, projectedEquity: int, projectedProtected: int)
    returns (usablePot: int, startPot: int, targetProfit: int, lossBoundary: int, activeFloor: Option<int>, currentOpenRisk: int, openRisk: int, maximumOpenRisk: int)
    ensures IsPot(usablePot, projectedEquity, policy.usableBalanceLimitCents)
    ensures IsPot(startPot, daily.startEquityCents, policy.usableBalanceLimitCents)
    ensures IsShare(targetProfit, startPot, policy.dailyLockTargetBps)
    ensures IsShare(daily.startEquityCents - lossBoundary, startPot, policy.maxDailyLossBps)
    ensures IsPositivePart(currentOpenRisk, equity - currentProtected) && IsPositivePart(openRisk, projectedEquity - projectedProtected)
    ensures IsShare(maximumOpenRisk, if usablePot > 0 then usablePot else 0, policy.maxOpenRiskBps)
    ensures var target := daily.startEquityCents + targetProfit;
      IsFloor(daily, target, currentProtected >= target || projectedProtected >= target, activeFloor)
  {
    hide FloorBps, IsShare;
    currentOpenRisk := Rounding.Max(0, equity - currentProtected);
    openRisk := Rounding.Max(0, projectedEquity - projectedProtected);
    usablePot := UsablePot(projectedEquity, policy.usableBalanceLimitCents);
    startPot := UsablePot(daily.startEquityCents, policy.usableBalanceLimitCents);
    targetProfit := FloorBps(startPot, policy.dailyLockTargetBps);
    FloorBpsIsShare(startPot, policy.dailyLockTargetBps);
    var targetEquity := daily.startEquityCents + targetProfit;
    lossBoundary := daily.startEquityCents - FloorBps(startPot, policy.maxDailyLossBps);
    FloorBpsIsShare(startPot, policy.maxDailyLossBps);
    activeFloor := daily.activeFloorCents;
    if currentProtected >= targetEquity || projectedProtected >= targetEquity {
      activeFloor := Some(Rounding.Max(if activeFloor.Some? then activeFloor.value else 0, targetEquity));
    }
    maximumOpenRisk := FloorBps(Rounding.Max(0, usablePot), policy.maxOpenRiskBps);
    FloorBpsIsShare(Rounding.Max(0, usablePot), policy.maxOpenRiskBps);
  }

  /** The block past its reading of the current stop. It throws exactly when a number leaves the safe range, and
      pushes exactly the guards that fail. */
  method PlanRisk(n: Numbers, policy: Policy, daily: DailyState) returns (r: Result<(Risk, set<Blocker>), string>)
    ensures r.Success? ==> RiskCorrect(n, policy, daily, r.value.0) && Representable(n, daily, r.value.0)
    ensures r.Failure? ==> exists risk :: RiskCorrect(n, policy, daily, risk) && !Representable(n, daily, risk)
    ensures r.Success? ==> (r.value.1 == {} <==> r.value.0.projectedEquity > 0 && Guarded(r.value.0))
  {
    hide PnlCents, CostCents, NotionalCents, VenueBps, IsShare, IsPot, IsPositivePart, LegIsSafe;
    var venueBps := VenueBps(n.takerRate);
    VenueRate(n.takerRate);
    var exitBps := Rounding.Max(policy.estimatedRoundTripCostBps, venueBps) + policy.stressedExitCostBps;
    var equity := n.wallet + n.unrealized;
    var currentProtected := n.wallet + PnlCents(n.direction, n.entry, n.stop, n.quantity) - CostCents(n.stop, n.quantity, exitBps);
    var realized, cost: nat := 0, 0;
    var projectedWallet: int := n.wallet;
    if n.reduction.Some? {
      realized := PnlCents(n.direction, n.entry, n.executable, n.reduction.value);
      cost := CostCents(n.executable, n.reduction.value, exitBps);
      projectedWallet := projectedWallet + (realized - cost);
    }
    var projectedEquity := projectedWallet + PnlCents(n.direction, n.entry, n.mark, n.remaining);
    var projectedProtected := projectedWallet + PnlCents(n.direction, n.entry, n.nextStop, n.remaining) - CostCents(n.nextStop, n.remaining, exitBps);
    var usablePot, startPot, targetProfit, lossBoundary, activeFloor, currentOpenRisk, openRisk, maximumOpenRisk :=
      DayAndPolicyLimits(policy, daily, equity, currentProtected, projectedEquity, projectedProtected);
    var computed := Risk(venueBps, exitBps, equity, usablePot, startPot, targetProfit, lossBoundary, activeFloor, currentProtected, realized, cost,
                         projectedWallet, projectedEquity, projectedProtected, currentOpenRisk, openRisk, maximumOpenRisk);
    assert RiskCorrect(n, policy, daily, computed);
    if !Representable(n, daily, computed) { return Failure("a number of the risk block exceeds the safe integer range"); }
    var blockers := Push(projectedEquity <= 0, ProjectedEquityNotPositive) + Push(projectedProtected < currentProtected, WeakensProtectedEquity)
      + Push(projectedProtected <= lossBoundary, ReachesLossBoundary)
      + Push(activeFloor.Some? && projectedProtected < activeFloor.value, ViolatesFloor) + Push(openRisk > maximumOpenRisk, OpenRiskExceeded);
    assert blockers == {} ==>
      ProjectedEquityNotPositive !in blockers && WeakensProtectedEquity !in blockers && ReachesLossBoundary !in blockers
      && ViolatesFloor !in blockers && OpenRiskExceeded !in blockers;
    r := Success((computed, blockers));
  }

  /** The rate, the money and the limits determine each other: there is one right answer. */
  lemma {:induction false} RiskIsUnique(n: Numbers, policy: Policy, daily: DailyState, a: Risk, b: Risk)
    requires RiskCorrect(n, policy, daily, a) && RiskCorrect(n, policy, daily, b)
    ensures a == b
  {
    hide PnlCents, CostCents, IsShare, ProtectedEquity;
    RateIsUnique(n.takerRate, policy, a.venueBps, a.exitBps, b.venueBps, b.exitBps);
    ShareIsUnique(a.targetProfit, b.targetProfit, a.startPot, policy.dailyLockTargetBps);
    ShareIsUnique(daily.startEquityCents - a.lossBoundary, daily.startEquityCents - b.lossBoundary, a.startPot, policy.maxDailyLossBps);
    ShareIsUnique(a.maximumOpenRisk, b.maximumOpenRisk, if a.usablePot > 0 then a.usablePot else 0, policy.maxOpenRiskBps);
  }

  lemma {:induction false} RateIsUnique(takerRate: nat, policy: Policy, v: nat, e: nat, v': nat, e': nat)
    requires IsExitRate(takerRate, policy, v, e) && IsExitRate(takerRate, policy, v', e')
    ensures v == v' && e == e'
  {}

  // ---------------------------------------------------------------- the whole compiler

  predicate DailyIsValid(daily: DailyState) {
    && 0 < daily.startEquityCents <= daily.highWaterEquityCents
    && (daily.activeFloorCents.Some? ==> 0 < daily.activeFloorCents.value <= daily.highWaterEquityCents)
    && daily.lockReached == daily.activeFloorCents.Some?
  }

  function Executable(input: Input): Option<nat> {
    if input.current.direction.Long? then input.bid else input.ask
  }

  /** Blockers pushed from the evidence. */
  function EvidenceBlockers(input: Input): set<Blocker> {
    Push(!input.evidenceReady, BindingOrEvidenceNotReady)
    + Push(input.wallet.None? || input.wallet.value == 0, WalletNotProven) + Push(input.unrealized.None?, UnrealizedInvalid)
    + Push(input.tick.None?, TickInvalid) + Push(input.venueStep.None?, StepInvalid) + Push(input.minimumQuantity.None?, MinimumQuantityInvalid)
    + Push(input.minimumNotional.None? || input.minimumNotional.value == 0, MinimumNotionalInvalid)
    + MarketBlockers(input)
  }

  function MarketBlockers(input: Input): set<Blocker> {
    var known := input.bid.Some? && input.ask.Some? && input.mark.Some?;
    Push(!known, MarketInvalid) + Push(known && input.bid.value >= input.ask.value, MarketCrossed)
    + Push(input.takerRate.None?, TakerFeeInvalid)
  }

  predicate IsOffTick(price: nat, tick: Option<nat>) { tick.Some? && tick.value > 0 && price % tick.value != 0 }

  /** Blockers pushed from the requested revision. */
  function RequestBlockers(input: Input): set<Blocker> {
    var stop, target := PriceUnits(input.nextStopPrice), PriceUnits(input.nextTargetPrice);
    var long := input.current.direction.Long?;
    var comparable := stop.Some? && target.Some? && input.mark.Some?;
    Push(stop.None?, NextStopInvalid) + Push(target.None?, NextTargetInvalid)
    + Push(stop.Some? && IsOffTick(stop.value, input.tick), StopOffTick) + Push(target.Some? && IsOffTick(target.value, input.tick), TargetOffTick)
    + Push(comparable && (if long then stop.value >= input.mark.value else stop.value <= input.mark.value), StopWrongSide)
    + Push(comparable && (if long then target.value <= input.mark.value else target.value >= input.mark.value), TargetWrongSide)
    + Push(input.reductionBps.Some? && !(1 <= input.reductionBps.value <= 9_999), ReductionBpsInvalid)
    + Push(!input.dayMatches || !DailyIsValid(input.daily), DailyStateInvalid)
  }

  function InputBlockers(input: Input): set<Blocker> {
    EvidenceBlockers(input) + RequestBlockers(input)
    + Push(PositiveScaled(input.current.quantity).None?, QuantityInvalid)
  }

  /** What the evidence must show: a wallet, the instrument's steps and minima, an uncrossed market, a fee. */
  predicate EvidenceAcceptable(input: Input) {
    && input.evidenceReady && input.wallet.Some? && input.wallet.value > 0 && input.unrealized.Some?
    && input.tick.Some? && input.venueStep.Some? && input.minimumQuantity.Some? && input.minimumNotional.Some? && input.minimumNotional.value > 0
    && input.takerRate.Some? && input.mark.Some? && input.bid.Some? && input.ask.Some? && input.bid.value < input.ask.value
  }

  /** What may be asked for: both prices exact and on the tick, the stop on the losing and the target on the
      winning side of the mark, and a proper part to reduce, under the day's valid record. */
  predicate RequestAcceptable(input: Input) {
    var stop, target := PriceUnits(input.nextStopPrice), PriceUnits(input.nextTargetPrice);
    && stop.Some? && target.Some?
    && (input.tick.Some? && input.tick.value > 0 ==> stop.value % input.tick.value == 0 && target.value % input.tick.value == 0)
    && (input.mark.Some? ==>
      if input.current.direction.Long? then stop.value < input.mark.value < target.value else target.value < input.mark.value < stop.value)
    && (input.reductionBps.Some? ==> 0 < input.reductionBps.value < 10_000)
    && input.dayMatches && DailyIsValid(input.daily)
  }

  predicate Acceptable(input: Input) {
    EvidenceAcceptable(input) && RequestAcceptable(input) && PositiveScaled(input.current.quantity).Some?
  }

  lemma {:induction false} EvidenceDecides(input: Input)
    ensures EvidenceBlockers(input) == {} <==> EvidenceAcceptable(input)
  {
    hide MarketBlockers;
    MarketDecides(input);
    var all := EvidenceBlockers(input);
    assert forall b :: b in MarketBlockers(input) ==> b in all;
    assert all == {} ==> MarketBlockers(input) == {};
    assert all == {} ==> BindingOrEvidenceNotReady !in all && WalletNotProven !in all && UnrealizedInvalid !in all && TickInvalid !in all && StepInvalid !in all;
    assert all == {} ==> MinimumQuantityInvalid !in all && MinimumNotionalInvalid !in all;
  }

  lemma {:induction false} MarketDecides(input: Input)
    ensures MarketBlockers(input) == {} <==>
      input.bid.Some? && input.ask.Some? && input.mark.Some? && input.takerRate.Some? && input.bid.value < input.ask.value
  {
    var all := MarketBlockers(input);
    assert all == {} ==> MarketInvalid !in all && TakerFeeInvalid !in all && MarketCrossed !in all;
  }

  lemma {:induction false} RequestDecides(input: Input)
    ensures RequestBlockers(input) == {} <==> RequestAcceptable(input)
  {
    hide PriceUnits, DailyIsValid;
    var all := RequestBlockers(input);
    assert all == {} ==> NextStopInvalid !in all && NextTargetInvalid !in all && ReductionBpsInvalid !in all && DailyStateInvalid !in all;
    assert all == {} ==> StopOffTick !in all && TargetOffTick !in all && StopWrongSide !in all && TargetWrongSide !in all;
  }

  /** Nothing is pushed exactly for acceptable inputs. */
  lemma {:induction false} BlockersDecide(input: Input)
    ensures InputBlockers(input) == {} <==> Acceptable(input)
  {
    hide EvidenceBlockers, RequestBlockers, PositiveScaled, EvidenceAcceptable, RequestAcceptable;
    var all := InputBlockers(input);
    assert forall b :: b in EvidenceBlockers(input) ==> b in all;
    assert forall b :: b in RequestBlockers(input) ==> b in all;
    assert all == {} ==> EvidenceBlockers(input) == {} && RequestBlockers(input) == {} && QuantityInvalid !in all;
    EvidenceDecides(input);
    RequestDecides(input);
  }

  /** The guard of the risk block. */
  predicate RiskKnown(input: Input) {
    && input.wallet.Some? && input.unrealized.Some? && input.mark.Some? && Executable(input).Some? && input.takerRate.Some?
    && PositiveScaled(input.current.quantity).Some? && PositiveScaled(input.entryPrice).Some? && PriceUnits(input.nextStopPrice).Some?
  }

  /** The numbers the block reads. */
  function ReadNumbers(input: Input, reduction: Option<nat>, remaining: nat): (n: Option<Numbers>) {
    if RiskKnown(input) && PositiveScaled(input.current.stopPrice).Some? then
      Some(Numbers(input.current.direction, input.wallet.value, input.unrealized.value,
                   PositiveScaled(input.current.quantity).value, reduction, remaining,
                   PositiveScaled(input.entryPrice).value, input.mark.value, Executable(input).value,
                   PositiveScaled(input.current.stopPrice).value, PriceUnits(input.nextStopPrice).value, input.takerRate.value))
    else None
  }

  /** They are the evidence's: a reduction is priced at the bid of a long and the ask of a short, and everything
      that stays at the mark. */
  predicate NumbersOf(input: Input, reduction: Option<nat>, remaining: nat, n: Numbers) {
    && n.direction == input.current.direction && input.wallet == Some(n.wallet) && input.unrealized == Some(n.unrealized)
    && PositiveScaled(input.current.quantity) == Some(n.quantity) && n.reduction == reduction && n.remaining == remaining
    && PositiveScaled(input.entryPrice) == Some(n.entry) && input.mark == Some(n.mark)
    && Some(n.executable) == (if input.current.direction.Long? then input.bid else input.ask)
    && PositiveScaled(input.current.stopPrice) == Some(n.stop) && PriceUnits(input.nextStopPrice) == Some(n.nextStop)
    && input.takerRate == Some(n.takerRate)
  }

  /** One reading only. */
  lemma {:induction false} NumbersAreRead(input: Input, reduction: Option<nat>, remaining: nat)
    ensures forall n :: NumbersOf(input, reduction, remaining, n) <==> ReadNumbers(input, reduction, remaining) == Some(n)
  {
    hide PositiveScaled, PriceUnits;
  }

  function RevisionText(input: Input, reduction: Option<nat>): RevisionRequest {
    RevisionRequest(input.revisionIntentId, input.current,
      if reduction.None? then None else Some(DecimalText.Print(reduction.value, 8)),
      if DecimalText.CanonicalPositive(input.nextStopPrice).Some? then DecimalText.CanonicalPositive(input.nextStopPrice).value else "",
      if DecimalText.CanonicalPositive(input.nextTargetPrice).Some? then DecimalText.CanonicalPositive(input.nextTargetPrice).value else "")
  }

  predicate IsOnGrid(units: nat, input: Input) {
    input.venueStep.Some? && input.venueStep.value > 0 && input.policy.quantityStepUnits > 0
    && IsMultiple(units, input.policy.quantityStepUnits) && IsMultiple(units, input.venueStep.value)
  }

  /** The venue's and the policy's minimum sizes. */
  predicate IsLargeEnough(input: Input, remaining: nat) {
    && input.mark.Some? && input.minimumQuantity.Some? && input.minimumNotional.Some?
    && remaining >= input.minimumQuantity.value
    && NotionalCents(input.mark.value, remaining) >= input.minimumNotional.value
    && NotionalCents(input.mark.value, remaining) >= input.policy.minimumNotionalCents
  }

  ghost predicate SplitOf(input: Input, reduction: Option<nat>, remaining: Option<nat>)
    requires input.Valid()
  {
    if PositiveScaled(input.current.quantity).Some? && input.venueStep.Some? then
      IsSplit(PositiveScaled(input.current.quantity).value, input.policy.quantityStepUnits, input.venueStep.value, input.reductionBps, reduction, remaining)
    else reduction.None? && remaining.None?
  }

  /** Equity is positive, now and as projected, and the day's record has seen it; and the guards hold. */
  predicate Sound(r: Risk, daily: DailyState) {
    0 < r.equity <= daily.highWaterEquityCents && r.projectedEquity > 0 && Guarded(r)
  }

  /** When a plan is ready, by the numbers and texts alone. The guards are evaluated exactly when the entry price
      can be read at eight decimals. */
  ghost predicate Passes(input: Input, reduction: Option<nat>, remaining: Option<nat>, risk: Option<Risk>) {
    && Acceptable(input) && remaining.Some?
    && IsOnGrid(PositiveScaled(input.current.quantity).value, input) && IsLargeEnough(input, remaining.value)
    && (PositiveScaled(input.entryPrice).Some? ==> risk.Some? && Sound(risk.value, input.daily))
    && ValidateRevision(RevisionText(input, reduction)).Some?
  }

  /** The risk a plan reports: that of its numbers, when they can all be read. */
  ghost predicate RiskOf(input: Input, reduction: Option<nat>, remaining: Option<nat>, risk: Option<Risk>) {
    && (risk.Some? <==> remaining.Some? && ReadNumbers(input, reduction, remaining.value).Some?)
    && (risk.Some? ==> RiskCorrect(ReadNumbers(input, reduction, remaining.value).value, input.policy, input.daily, risk.value))
  }

  /** Some number the compiler needs on the way is outside the safe range. */
  ghost predicate Overflows(input: Input, remaining: Option<nat>, reduction: Option<nat>, risk: Option<Risk>) {
    || (remaining.Some? && input.mark.Some? && input.minimumNotional.Some? && !IsSafe(NotionalCents(input.mark.value, remaining.value)))
    || RiskOverflows(input, remaining, reduction, risk)
  }

  ghost predicate RiskOverflows(input: Input, remaining: Option<nat>, reduction: Option<nat>, risk: Option<Risk>) {
    && remaining.Some? && RiskKnown(input)
    && (|| !IsSafe(input.wallet.value + input.unrealized.value) || !IsSafe(VenueBps(input.takerRate.value))
        || (risk.Some? && ReadNumbers(input, reduction, remaining.value).Some?
            && !Representable(ReadNumbers(input, reduction, remaining.value).value, input.daily, risk.value)))
  }

  /** What a plan says: the exact split, the exact risk, and readiness exactly when everything passes; the request
      it then makes is the canonical revision of just that split. */
  ghost predicate Describes(input: Input, plan: Plan)
    requires input.Valid()
  {
    && SplitOf(input, plan.reduction, plan.remaining) && RiskOf(input, plan.reduction, plan.remaining, plan.risk)
    && (plan.ready <==> Passes(input, plan.reduction, plan.remaining, plan.risk)) && (plan.ready <==> plan.blockers == {})
    && plan.request == (if plan.ready then CanonicalRevision(input, plan.reduction) else None)
  }

  function CanonicalRevision(input: Input, reduction: Option<nat>): Option<RevisionRequest> {
    match ValidateRevision(RevisionText(input, reduction))
    case Some(p) => Some(RevisionRequestOf(p))
    case None => None
  }

  /** What readiness guarantees. */
  ghost predicate ReadyPlan(input: Input, plan: Plan)
    requires input.Valid()
  {
    && Acceptable(input) && plan.remaining.Some? && plan.blockers == {}
    && plan.request.Some? && plan.request == CanonicalRevision(input, plan.reduction)
    && var quantity := PositiveScaled(input.current.quantity).value;
    // reduction and remainder are on both step grids, split the quantity exactly and are the requested part
    && IsOnGrid(plan.remaining.value, input) && (plan.reduction.Some? ==> IsOnGrid(plan.reduction.value, input))
    && (plan.reduction.Some? <==> input.reductionBps.Some?)
    && 0 < plan.remaining.value == quantity - (if plan.reduction.Some? then plan.reduction.value else 0)
    && SplitOf(input, plan.reduction, plan.remaining) && IsLargeEnough(input, plan.remaining.value)
    // the guards hold exactly when the entry price can be read at eight decimals; otherwise none was evaluated
    && (plan.risk.Some? <==> PositiveScaled(input.entryPrice).Some?)
    && (plan.risk.Some? ==>
      exists n :: NumbersOf(input, plan.reduction, plan.remaining.value, n) && RiskCorrect(n, input.policy, input.daily, plan.risk.value)
                  && Sound(plan.risk.value, input.daily))
  }

  /** Readiness without the guards: what is left when the entry price is not exact and nothing is reduced. */
  ghost predicate UnguardedReady(input: Input) {
    && Acceptable(input)
    && ValidateRevision(RevisionText(input, None)).Some?
    && IsOnGrid(PositiveScaled(input.current.quantity).value, input) && IsLargeEnough(input, PositiveScaled(input.current.quantity).value)
  }

  /** The minimum-size checks on the remainder. */
  method CheckRemainder(input: Input, remaining: Option<nat>) returns (r: Result<set<Blocker>, string>)
    ensures r.Failure? <==>
      remaining.Some? && input.mark.Some? && input.minimumNotional.Some? && !IsSafe(NotionalCents(input.mark.value, remaining.value))
    ensures r.Success? && EvidenceAcceptable(input) && remaining.Some? ==> (r.value == {} <==> IsLargeEnough(input, remaining.value))
  {
    hide NotionalCents;
    var small := remaining.Some? && input.minimumQuantity.Some? && remaining.value < input.minimumQuantity.value;
    var pushed := Push(small, BelowMinimumQuantity);
    if remaining.Some? && input.mark.Some? && input.minimumNotional.Some? {
      var notional := NotionalCents(input.mark.value, remaining.value);
      if !IsSafe(notional) { return Failure("ceiling ratio exceeds safe integer range"); }
      pushed := pushed + Push(notional < Rounding.Max(input.minimumNotional.value, input.policy.minimumNotionalCents), BelowMinimumNotional);
      assert small ==> BelowMinimumQuantity in pushed;
      assert notional < Rounding.Max(input.minimumNotional.value, input.policy.minimumNotionalCents) ==> BelowMinimumNotional in pushed;
    }
    r := Success(pushed);
  }

  /** The whole risk block: equity against the day's record, then the current stop, then the guards. */
  method CheckRisk(input: Input, reduction: Option<nat>, remaining: Option<nat>) returns (r: Result<(Option<Risk>, set<Blocker>), string>)
    ensures r.Success? ==> RiskOf(input, reduction, remaining, r.value.0) && !RiskOverflows(input, remaining, reduction, r.value.0)
    ensures r.Failure? ==> exists risk :: RiskOf(input, reduction, remaining, risk) && RiskOverflows(input, remaining, reduction, risk)
    ensures r.Success? ==> (r.value.1 == {} <==> (remaining.Some? && RiskKnown(input) ==> r.value.0.Some? && Sound(r.value.0.value, input.daily)))
  {
    hide PositiveScaled, PriceUnits, Guarded, RiskCorrect, Representable, VenueBps;
    if remaining.None? || !RiskKnown(input) { return Success((None, {})); }
    var n := ReadNumbers(input, reduction, remaining.value);
    var planned: Option<Result<(Risk, set<Blocker>), string>> := None;
    ghost var right: Option<Risk> := None;
    if n.Some? {
      var outcome := PlanRisk(n.value, input.policy, input.daily);
      planned := Some(outcome);
      if outcome.Success? {
        right := Some(outcome.value.0);
      } else {
        var risk :| RiskCorrect(n.value, input.policy, input.daily, risk) && !Representable(n.value, input.daily, risk);
        right := Some(risk);
      }
    }
    assert RiskOf(input, reduction, remaining, right);
    var equity := input.wallet.value + input.unrealized.value;
    if !IsSafe(equity) { return Failure("management equity exceeds safe integer range"); }
    if !IsSafe(VenueBps(input.takerRate.value)) { return Failure("ceiling ratio exceeds safe integer range"); }
    var pushed := Push(equity <= 0, EquityNotPositive) + Push(input.daily.highWaterEquityCents < equity, DailyStateNotReconciled);
    assert pushed == {} <==> 0 < equity <= input.daily.highWaterEquityCents by {
      assert pushed == {} ==> EquityNotPositive !in pushed && DailyStateNotReconciled !in pushed;
    }
    if planned.None? { return Success((None, pushed + {CurrentStopInvalid})); }
    if planned.value.Failure? { return Failure(planned.value.error); }
    EquityIsRead(input, reduction, remaining.value, right.value);
    r := Success((Some(planned.value.value.0), pushed + planned.value.value.1));
    assert r.value.1 == {} <==> pushed == {} && planned.value.value.1 == {};
  }

  lemma {:induction false} EquityIsRead(input: Input, reduction: Option<nat>, remaining: nat, r: Risk)
    requires ReadNumbers(input, reduction, remaining).Some? && RiskCorrect(ReadNumbers(input, reduction, remaining).value, input.policy, input.daily, r)
    ensures r.equity == input.wallet.value + input.unrealized.value
  {
    hide PositiveScaled, PriceUnits, LimitsCorrect, IsExitRate, ProtectedEquity, PnlCents, CostCents;
  }

  lemma {:induction false} NothingPushed(a: set<Blocker>, b: set<Blocker>, c: set<Blocker>, d: set<Blocker>, e: set<Blocker>)
    ensures a + b + c + d + e == {} <==> a == {} && b == {} && c == {} && d == {} && e == {}
  {
    if a + b + c + d + e == {} {
      assert forall x :: x in a || x in b || x in c || x in d || x in e ==> x in a + b + c + d + e;
    }
  }

  /** The five sources of blockers against the conditions of readiness. */
  lemma {:induction false} ReadyDecides(input: Input, reduction: Option<nat>, remaining: Option<nat>, risk: Option<Risk>,
                                        offered: set<Blocker>, small: set<Blocker>, risky: set<Blocker>, invalid: bool)
    requires input.Valid() && SplitOf(input, reduction, remaining)
    requires PositiveScaled(input.current.quantity).Some? && PositiveScaled(input.current.quantity).value > 0 && input.venueStep.Some? ==>
      && offered <= {QuantityOffStep, ReductionRoundsToZero} && (ReductionRoundsToZero in offered <==> reduction == Some(0))
      && (QuantityOffStep in offered <==> !IsOnGrid(PositiveScaled(input.current.quantity).value, input))
    requires EvidenceAcceptable(input) && remaining.Some? ==> (small == {} <==> IsLargeEnough(input, remaining.value))
    requires risky == {} <==> (remaining.Some? && RiskKnown(input) ==> risk.Some? && Sound(risk.value, input.daily))
    requires remaining.Some? && PriceUnits(input.nextStopPrice).Some? && PriceUnits(input.nextTargetPrice).Some? ==>
      (invalid <==> ValidateRevision(RevisionText(input, reduction)).None?)
    ensures Acceptable(input) && offered == {} && small == {} && risky == {} && !invalid <==> Passes(input, reduction, remaining, risk)
    ensures Passes(input, reduction, remaining, risk) ==>
      remaining.Some? && PriceUnits(input.nextStopPrice).Some? && PriceUnits(input.nextTargetPrice).Some?
  {
    hide PositiveScaled, PriceUnits, RevisionText, ValidateRevision, Sound, IsLargeEnough, DailyIsValid, IsOnGrid;
    QuantityIsPositive(input.current.quantity);
    assert offered == {} ==> QuantityOffStep !in offered && ReductionRoundsToZero !in offered;
  }

  lemma {:induction false} PassingIsReady(input: Input, plan: Plan)
    requires input.Valid() && Describes(input, plan) && plan.ready
    requires plan.remaining.Some? ==> IsOnGrid(plan.remaining.value, input)
    ensures ReadyPlan(input, plan)
  {
    hide PositiveScaled, PriceUnits, RevisionText, ValidateRevision, Sound, IsLargeEnough, DailyIsValid, RiskCorrect;
    NumbersAreRead(input, plan.reduction, plan.remaining.value);
    QuantityIsPositive(input.current.quantity);
  }

  lemma {:induction false} UnguardedDecides(input: Input, reduction: Option<nat>, remaining: Option<nat>, risk: Option<Risk>)
    requires input.Valid() && SplitOf(input, reduction, remaining) && PositiveScaled(input.entryPrice).None? && input.reductionBps.None?
    ensures Passes(input, reduction, remaining, risk) <==> UnguardedReady(input)
    ensures UnguardedReady(input) ==> remaining == PositiveScaled(input.current.quantity)
    ensures UnguardedReady(input) ==>
      (Overflows(input, remaining, reduction, risk) <==> !IsSafe(NotionalCents(input.mark.value, PositiveScaled(input.current.quantity).value)))
  {
    hide PositiveScaled, PriceUnits, RevisionText, ValidateRevision, Sound, DailyIsValid, NotionalCents, Representable, VenueBps;
    QuantityIsPositive(input.current.quantity);
  }

  method Compile(input: Input) returns (r: Result<Plan, string>)
    requires input.Valid()
    ensures r.Success? ==> Describes(input, r.value) && !Overflows(input, r.value.remaining, r.value.reduction, r.value.risk)
    ensures r.Failure? ==> exists remaining, reduction, risk ::
      SplitOf(input, reduction, remaining) && RiskOf(input, reduction, remaining, risk) && Overflows(input, remaining, reduction, risk)
    ensures r.Success? && r.value.ready ==> ReadyPlan(input, r.value)
    ensures r.Success? && PositiveScaled(input.entryPrice).None? && input.reductionBps.None? ==>
      (r.value.ready <==> UnguardedReady(input))
    ensures PositiveScaled(input.entryPrice).None? && input.reductionBps.None? && UnguardedReady(input) ==>
      (r.Success? <==> IsSafe(NotionalCents(input.mark.value, PositiveScaled(input.current.quantity).value)))
  {
    hide InputBlockers, PositiveScaled, PriceUnits, RevisionText, ValidateRevision, RiskCorrect, NotionalCents, Lcm, Representable, Sound, VenueBps,
      EvidenceAcceptable, RequestAcceptable, IsLargeEnough, RiskKnown, IsSplit, UnguardedReady, RiskOverflows, RiskOf, ReadNumbers, Passes, ReadyPlan, Acceptable;
    BlockersDecide(input);
    var blockers := InputBlockers(input);
    var quantity := PositiveScaled(input.current.quantity);
    var reduction: Option<nat> := None;
    var remaining: Option<nat> := None;
    var offered: set<Blocker> := {};
    if quantity.Some? && input.venueStep.Some? {
      assert quantity.value > 0 by { QuantityIsPositive(input.current.quantity); }
      reduction, remaining, offered := PlanReduction(quantity.value, input.policy.quantityStepUnits, input.venueStep.value, input.reductionBps);
    }
    var checked := CheckRemainder(input, remaining);
    var risked := CheckRisk(input, reduction, remaining);
    ghost var risk: Option<Risk>;
    if risked.Success? {
      risk := risked.value.0;
    } else {
      risk :| RiskOf(input, reduction, remaining, risk) && RiskOverflows(input, remaining, reduction, risk);
    }
    if PositiveScaled(input.entryPrice).None? && input.reductionBps.None? { UnguardedDecides(input, reduction, remaining, risk); }
    if checked.Failure? {
      assert Overflows(input, remaining, reduction, risk);
      return Failure(checked.error);
    }
    if risked.Failure? {
      assert Overflows(input, remaining, reduction, risk);
      return Failure(risked.error);
    }
    var request: Option<RevisionRequest> := None;
    var invalid := false;
    if remaining.Some? && PriceUnits(input.nextStopPrice).Some? && PriceUnits(input.nextTargetPrice).Some? {
      var valid := ValidateRevision(RevisionText(input, reduction));
      if valid.Some? { request := Some(RevisionRequestOf(valid.value)); } else { invalid := true; }
    }
    var all := blockers + offered + checked.value + risked.value.1 + Push(invalid, RevisionInvalid);
    if all != {} { request := None; }
    r := Success(Plan(all == {} && request.Some?, request, reduction, remaining, risked.value.0, all));
    ReadyDecides(input, reduction, remaining, risk, offered, checked.value, risked.value.1, invalid);
    assert all == {} <==> blockers == {} && offered == {} && checked.value == {} && risked.value.1 == {} && !invalid by {
      NothingPushed(blockers, offered, checked.value, risked.value.1, Push(invalid, RevisionInvalid));
    }
    if all == {} { PassingIsReady(input, r.value); }
  }

  lemma {:induction false} QuantityIsPositive(text: string)
    ensures PositiveScaled(text).Some? ==> PositiveScaled(text).value > 0
  {}

  // ---------------------------------------------------------------- the ratchet over successive plans

  lemma {:induction false} UnitsAreValue(text: string, units: nat)
    requires DecimalText.IsPlain(text) && units > 0
    ensures PositiveScaled(text) == Some(units) <==> DecimalText.Scale(DecimalText.Value(text), 8) == units as real
  {
    DecimalText.ParseScaledMeaning(text, 8);
  }

  /** Between two texts of one value nothing changes at any scale. */
  lemma {:induction false} SameValueSameUnits(a: string, b: string)
    requires DecimalText.IsPlain(a) && DecimalText.IsPlain(b) && DecimalText.Value(a) == DecimalText.Value(b)
    ensures PositiveScaled(a) == PositiveScaled(b)
  {
    DecimalText.ParseScaledMeaning(a, 8);
    DecimalText.ParseScaledMeaning(b, 8);
  }

  lemma {:induction false} CanonicalUnits(text: string)
    requires DecimalText.CanonicalPositive(text).Some?
    ensures PositiveScaled(DecimalText.CanonicalPositive(text).value) == PositiveScaled(text)
  {
    DecimalText.CanonicalPositiveIff(text);
    SameValueSameUnits(DecimalText.CanonicalPositive(text).value, text);
  }

  /** The texts the revision stores denote exactly the planned units. */
  lemma {:induction false} StoredUnits(input: Input, reduction: Option<nat>, quantity: nat, remaining: nat)
    requires ValidateRevision(RevisionText(input, reduction)).Some?
    requires PositiveScaled(input.current.quantity) == Some(quantity)
    requires PriceUnits(input.nextStopPrice).Some? && PriceUnits(input.nextTargetPrice).Some?
    requires 0 < remaining == quantity - (if reduction.Some? then reduction.value else 0)
    ensures var next := NextOwned(ValidateRevision(RevisionText(input, reduction)).value);
      && PositiveScaled(next.quantity) == Some(remaining)
      && PositiveScaled(next.stopPrice) == PriceUnits(input.nextStopPrice)
      && PositiveScaled(next.targetPrice) == PriceUnits(input.nextTargetPrice)
      && next.direction == input.current.direction
  {
    hide DecimalText.IsPlain, DecimalText.Value, DecimalText.Scale, PositiveScaled, PriceUnits, ValidateRevision, RevisionText, ReductionValue, IsOwned;
    var split := RevisionText(input, reduction);
    var p := ValidateRevision(split).value;
    RevisionSplitsQuantity(split);
    CurrentKeepsQuantity(input, reduction);
    CanonicalPriceUnits(input, reduction);
    UnitsAreValue(p.current.quantity, quantity);
    UnitsAreValue(p.remainingQuantity, remaining);
    DecimalText.ScaleAdds(DecimalText.Value(p.current.quantity), ReductionValue(p), 8);
    ReductionUnits(input, reduction);
  }

  lemma {:induction false} CurrentKeepsQuantity(input: Input, reduction: Option<nat>)
    requires ValidateRevision(RevisionText(input, reduction)).Some? && PositiveScaled(input.current.quantity).Some?
    ensures var current := ValidateRevision(RevisionText(input, reduction)).value.current;
      && PositiveScaled(current.quantity) == PositiveScaled(input.current.quantity)
      && current.direction == input.current.direction
  {
    hide DecimalText.CanonicalPositive, DecimalText.IsPlain, PositiveScaled;
    CanonicalUnits(input.current.quantity);
  }

  lemma {:induction false} CanonicalPriceUnits(input: Input, reduction: Option<nat>)
    requires ValidateRevision(RevisionText(input, reduction)).Some?
    requires PriceUnits(input.nextStopPrice).Some? && PriceUnits(input.nextTargetPrice).Some?
    ensures var p := ValidateRevision(RevisionText(input, reduction)).value;
      PositiveScaled(p.nextStopPrice) == PriceUnits(input.nextStopPrice) && PositiveScaled(p.nextTargetPrice) == PriceUnits(input.nextTargetPrice)
  {
    hide DecimalText.CanonicalPositive, DecimalText.IsPlain, PositiveScaled, ValidateRevision, RevisionText;
    RevisionKeepsPrices(input, reduction);
    CanonicalUnits(input.nextStopPrice);
    CanonicalUnits(input.nextTargetPrice);
  }

  lemma {:induction false} RevisionKeepsPrices(input: Input, reduction: Option<nat>)
    requires ValidateRevision(RevisionText(input, reduction)).Some?
    requires PriceUnits(input.nextStopPrice).Some? && PriceUnits(input.nextTargetPrice).Some?
    ensures DecimalText.CanonicalPositive(input.nextStopPrice).Some? && DecimalText.CanonicalPositive(input.nextTargetPrice).Some?
    ensures var p := ValidateRevision(RevisionText(input, reduction)).value;
      && p.nextStopPrice == DecimalText.CanonicalPositive(input.nextStopPrice).value
      && p.nextTargetPrice == DecimalText.CanonicalPositive(input.nextTargetPrice).value
  {
    hide DecimalText.CanonicalPositive, DecimalText.IsPlain, PositiveScaled, ValidateOwned;
    PositiveIsFixed(input.nextStopPrice);
    PositiveIsFixed(input.nextTargetPrice);
  }

  lemma {:induction false} ReductionUnits(input: Input, reduction: Option<nat>)
    requires ValidateRevision(RevisionText(input, reduction)).Some?
    ensures DecimalText.Scale(ReductionValue(ValidateRevision(RevisionText(input, reduction)).value), 8)
         == (if reduction.Some? then reduction.value else 0) as real
  {
    hide DecimalText.CanonicalPositive, DecimalText.IsPlain, DecimalText.Value, DecimalText.Print, ValidateOwned;
    var p := ValidateRevision(RevisionText(input, reduction)).value;
    if reduction.Some? {
      var text := DecimalText.Print(reduction.value, 8);
      DecimalText.PrintMeaning(reduction.value, 8);
      DecimalText.CanonicalPositiveIff(text);
    } else {
      assert ReductionValue(p) == 0.0;
      DecimalText.ShiftIsScale(0, 8);
      DecimalText.ShiftIsProduct(0, 8);
    }
  }

  datatype Step = Step(input: Input, plan: Plan)

  /** A ready plan whose entry price is exact at eight decimals. */
  ghost predicate Admitted(s: Step) {
    s.input.Valid() && ReadyPlan(s.input, s.plan) && s.plan.risk.Some?
  }

  /** The next plan manages what the last one left, at unchanged cost, with at least the modelled wallet. */
  ghost predicate Follows(a: Step, b: Step)
    requires Admitted(a) && Admitted(b)
  {
    && b.input.current == NextOwned(ValidateRevision(RevisionText(a.input, a.plan.reduction)).value)
    && b.input.entryPrice == a.input.entryPrice
    && b.plan.risk.value.exitBps == a.plan.risk.value.exitBps
    && b.input.wallet.Some? && b.input.wallet.value >= a.plan.risk.value.projectedWallet
  }

  ghost predicate Chain(steps: seq<Step>) {
    && (forall i :: 0 <= i < |steps| ==> Admitted(steps[i]))
    && (forall i :: 0 <= i < |steps| - 1 ==> Follows(steps[i], steps[i + 1]))
  }

  /** The numbers an admitted plan was checked on. */
  lemma {:induction false} AdmittedNumbers(s: Step) returns (n: Numbers)
    requires Admitted(s)
    ensures NumbersOf(s.input, s.plan.reduction, s.plan.remaining.value, n)
    ensures RiskCorrect(n, s.input.policy, s.input.daily, s.plan.risk.value) && Sound(s.plan.risk.value, s.input.daily)
  {
    hide PositiveScaled, RiskCorrect, ValidateRevision, Acceptable, NumbersOf, Sound, SplitOf, IsLargeEnough, CanonicalRevision;
    n :| NumbersOf(s.input, s.plan.reduction, s.plan.remaining.value, n) && RiskCorrect(n, s.input.policy, s.input.daily, s.plan.risk.value)
         && Sound(s.plan.risk.value, s.input.daily);
  }

  /** What one plan projects is a lower bound for what the next one starts from. */
  lemma {:induction false} LinkKeepsEquity(a: Step, b: Step)
    requires Admitted(a) && Admitted(b) && Follows(a, b)
    ensures b.plan.risk.value.currentProtected >= a.plan.risk.value.projectedProtected
    ensures b.plan.risk.value.projectedProtected >= a.plan.risk.value.projectedProtected
    ensures PositiveScaled(b.input.current.quantity) == a.plan.remaining
  {
    hide ProtectedEquity, PositiveScaled, PriceUnits, ValidateRevision, LimitsCorrect, IsExitRate, PnlCents, CostCents, SplitOf, IsLargeEnough, EvidenceAcceptable;
    var quantity := PositiveScaled(a.input.current.quantity).value;
    StoredUnits(a.input, a.plan.reduction, quantity, a.plan.remaining.value);
    var n := AdmittedNumbers(a);
    var m := AdmittedNumbers(b);
    assert m.entry == n.entry && m.stop == n.nextStop && m.quantity == n.remaining && m.direction == n.direction;
    WalletOrder(m.wallet, a.plan.risk.value.projectedWallet, n.direction, n.entry, n.nextStop, n.remaining, a.plan.risk.value.exitBps);
  }

  lemma {:induction false} WalletOrder(w: int, v: int, direction: Direction, entry: nat, stop: nat, quantity: nat, bps: nat)
    requires w >= v
    ensures ProtectedEquity(w, direction, entry, stop, quantity, bps) >= ProtectedEquity(v, direction, entry, stop, quantity, bps)
  {}

  lemma {:induction false} AdmittedFacts(s: Step)
    requires Admitted(s)
    ensures Guarded(s.plan.risk.value) && LimitsCorrect(s.input.policy, s.input.daily, s.plan.risk.value)
    ensures PositiveScaled(s.input.current.quantity).Some? && s.plan.remaining.Some?
    ensures s.plan.remaining.value <= PositiveScaled(s.input.current.quantity).value
  {
    hide PositiveScaled, LimitsCorrect, MoneyCorrect, IsExitRate, ValidateRevision, EvidenceAcceptable, RequestAcceptable, NumbersOf, SplitOf, IsLargeEnough, Guarded;
    var n := AdmittedNumbers(s);
  }

  /** The ratchet: along any chain of admitted plans protected equity never falls, always stays above the
      day's loss boundary and at or above the active floor, each being what the day's start and the policy make
      it, and the position never grows. */
  lemma {:induction false} ProtectedEquityRatchet(steps: seq<Step>, i: nat, j: nat)
    requires Chain(steps) && i <= j < |steps|
    ensures steps[j].plan.risk.value.projectedProtected >= steps[i].plan.risk.value.projectedProtected
    ensures LimitsCorrect(steps[j].input.policy, steps[j].input.daily, steps[j].plan.risk.value)
    ensures steps[j].plan.risk.value.projectedProtected > steps[j].plan.risk.value.lossBoundary
    ensures steps[j].plan.risk.value.activeFloor.Some? ==>
      steps[j].plan.risk.value.projectedProtected >= steps[j].plan.risk.value.activeFloor.value
    ensures steps[j].plan.remaining.value <= steps[i].plan.remaining.value
    decreases j
  {
    hide Admitted, Follows, PositiveScaled, LimitsCorrect;
    AdmittedFacts(steps[j]);
    if i < j {
      var a, b := steps[j - 1], steps[j];
      assert steps[j - 1 + 1] == b;
      ProtectedEquityRatchet(steps, i, j - 1);
      AdmittedFacts(a);
      LinkKeepsEquity(a, b);
    }
  }

  // ---------------------------------------------------------------- where the guards are not evaluated

  lemma {:induction false} PrintedUnits(n: nat)
    requires n > 0
    ensures var t := DecimalText.Print(n, 8);
      PositiveScaled(t) == Some(n) && PriceUnits(t) == Some(n) && DecimalText.CanonicalPositive(t) == Some(t)
  {
    var t := DecimalText.Print(n, 8);
    DecimalText.PrintParseRoundTrip(n, 8);
    DecimalText.PrintMeaning(n, 8);
    DecimalText.ScaleOrder(0.0, DecimalText.Value(t), 8);
    DecimalText.ShiftIsScale(0, 8);
    DecimalText.ShiftIsProduct(0, 8);
    DecimalText.CanonicalPositiveIff(t);
  }

  /** A ninth decimal that is not zero cannot be read at eight. */
  lemma {:induction false} NinthDecimalIsInexact(n: nat)
    requires n % 10 != 0
    ensures PositiveScaled(DecimalText.Print(n, 9)).None?
  {
    hide DecimalText.Print, DecimalText.Value, DecimalText.IsPlain, DecimalText.ParseScaled, DecimalText.Scale;
    var t := DecimalText.Print(n, 9);
    DecimalText.PrintMeaning(n, 9);
    DecimalText.CanonicalIsPlain(t);
    DecimalText.ParseScaledMeaning(t, 8);
    DecimalText.ScaleStep(DecimalText.Value(t), 8);
    var x := DecimalText.Scale(DecimalText.Value(t), 8);
    assert x == x.Floor as real ==> n == 10 * x.Floor;
  }

  /** One coin long at 100.000000001, mark 100, stop 90: the stop may be moved down to 10 and the target kept. */
  function LooseningInput(): Input {
    Input("00000000-0000-1000-8000-000000000000",
      OwnedProtection("00000000-0000-1000-8000-000000000001", "BTCUSDT", Long,
        DecimalText.Print(100_000_000, 8), DecimalText.Print(9_000_000_000, 8), DecimalText.Print(20_000_000_000, 8), "s", "t"),
      DecimalText.Print(100_000_000_001, 9), true,
      Some(100_000), Some(0), Some(10_000_000_000), Some(9_999_000_000), Some(10_001_000_000),
      Some(40_000), Some(1), Some(1), Some(1), Some(1),
      DecimalText.Print(1_000_000_000, 8), DecimalText.Print(20_000_000_000, 8), None,
      true, DailyState(100_000, 100_000, false, None),
      Policy(50, None, 3, 50, 100, 200, 10, 5, 1, 1))
  }

  /** With an entry price that is not exact at eight decimals no guard is evaluated: this plan is ready
      although it moves the stop 80 away from the market, and lowers protected equity by thousands of cents
      at every entry price. */
  lemma {:induction false} InexactEntryPriceSkipsTheGuards()
    ensures var i := LooseningInput();
      && i.Valid() && PositiveScaled(i.entryPrice).None? && i.reductionBps.None? && UnguardedReady(i)
      && IsSafe(NotionalCents(i.mark.value, PositiveScaled(i.current.quantity).value))
    ensures forall entry: nat ::
      ProtectedEquity(100_000, Long, entry, 1_000_000_000, SCALE, 15) < ProtectedEquity(100_000, Long, entry, 9_000_000_000, SCALE, 15)
  {
    LooseningIsReady();
    forall entry: nat
      ensures ProtectedEquity(100_000, Long, entry, 1_000_000_000, SCALE, 15) < ProtectedEquity(100_000, Long, entry, 9_000_000_000, SCALE, 15)
    {
      LooseningLoses(entry);
    }
  }

  lemma {:induction false} LooseningLoses(entry: nat)
    ensures ProtectedEquity(100_000, Long, entry, 1_000_000_000, SCALE, 15) < ProtectedEquity(100_000, Long, entry, 9_000_000_000, SCALE, 15)
  {
    hide PnlCents, NotionalCents;
    var p := PnlCents(Long, entry, 1_000_000_000, SCALE);
    PnlAdjunction(p, Long, entry, 1_000_000_000, SCALE);
    PnlAdjunction(p + 8_000, Long, entry, 9_000_000_000, SCALE);
    NotionalAdjunction(9_000_000_000, SCALE, 9_000);
    CostIsNonExpansive(0, NotionalCents(9_000_000_000, SCALE), 15);
    CostIsNonExpansive(NotionalCents(9_000_000_000, SCALE), 9_000, 15);
    assert CeilRatio(9_000, 15, 10_000) == 14;
  }

  lemma {:induction false} DifferentUnitsDiffer(a: string, b: string)
    requires DecimalText.CanonicalPositive(a) == Some(a) && DecimalText.CanonicalPositive(b) == Some(b)
    requires PositiveScaled(a) != PositiveScaled(b)
    ensures !DecimalText.DecimalEquals(a, b)
  {
    hide PositiveScaled, DecimalText.IsPlain;
  }

  lemma {:induction false} LooseningTexts()
    ensures var i := LooseningInput(); var c := i.current;
      && PositiveScaled(i.entryPrice).None?
      && PositiveScaled(c.quantity) == Some(100_000_000)
      && PriceUnits(i.nextStopPrice) == Some(1_000_000_000) && PriceUnits(i.nextTargetPrice) == Some(20_000_000_000)
      && (forall t :: t in {c.quantity, c.stopPrice, c.targetPrice, i.nextStopPrice, i.nextTargetPrice} ==> DecimalText.CanonicalPositive(t) == Some(t))
      && !DecimalText.DecimalEquals(i.nextStopPrice, c.stopPrice)
  {
    hide PositiveScaled, PriceUnits, DecimalText.Print, DecimalText.CanonicalPositive, DecimalText.DecimalEquals;
    NinthDecimalIsInexact(100_000_000_001);
    PrintedUnits(100_000_000);
    PrintedUnits(9_000_000_000);
    PrintedUnits(20_000_000_000);
    PrintedUnits(1_000_000_000);
    DifferentUnitsDiffer(DecimalText.Print(1_000_000_000, 8), DecimalText.Print(9_000_000_000, 8));
  }

  lemma {:induction false} LooseningIdentifiers()
    ensures var i := LooseningInput(); var c := i.current;
      && CanonicalUuid(i.revisionIntentId) == Some(i.revisionIntentId)
      && CanonicalUuid(c.positionIntentId) == Some(c.positionIntentId)
      && CanonicalSymbol(c.symbol) == Some(c.symbol)
      && IsClientId(c.stopId) && IsClientId(c.targetId) && c.stopId != c.targetId
      && |DeriveRevisionIds(i.revisionIntentId).stop| > 1 && |DeriveRevisionIds(i.revisionIntentId).target| > 1
  {
    hide DecimalText.Print, CanonicalUuid, CanonicalSymbol, Compact, IsUuid;
    var i := LooseningInput();
    LooseningUuids();
    CanonicalIdentifiersAreFixed(i.revisionIntentId);
    CanonicalIdentifiersAreFixed(i.current.positionIntentId);
    CanonicalIdentifiersAreFixed(i.current.symbol);
  }

  lemma {:induction false} LooseningUuids()
    ensures IsUuid("00000000-0000-1000-8000-000000000000") && IsUuid("00000000-0000-1000-8000-000000000001")
  {}

  lemma {:induction false} LooseningRevisionIsValid()
    ensures ValidateRevision(RevisionText(LooseningInput(), None)).Some?
  {
    hide PositiveScaled, PriceUnits, DecimalText.Print, DecimalText.CanonicalPositive, DecimalText.DecimalEquals;
    hide CanonicalUuid, CanonicalSymbol, IsClientId, DeriveRevisionIds;
    LooseningTexts();
    LooseningIdentifiers();
    var i := LooseningInput();
    assert ValidateOwned(i.current).Some?;
  }

  lemma {:induction false} LooseningIsReady()
    ensures var i := LooseningInput();
      && i.Valid() && PositiveScaled(i.entryPrice).None? && i.reductionBps.None? && UnguardedReady(i)
      && IsSafe(NotionalCents(i.mark.value, PositiveScaled(i.current.quantity).value))
  {
    hide PositiveScaled, PriceUnits, DecimalText.Print, DecimalText.CanonicalPositive, DecimalText.DecimalEquals, ValidateRevision, RevisionText, NotionalCents;
    LooseningTexts();
    LooseningRevisionIsValid();
    NotionalAdjunction(10_000_000_000, 100_000_000, 9_999);
    NotionalAdjunction(10_000_000_000, 100_000_000, 10_000);
    var i := LooseningInput();
    assert EvidenceAcceptable(i) && RequestAcceptable(i);
  }
}
