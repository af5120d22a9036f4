/** Exact sizing of a protected entry (`compileBinanceUsdmProtectedEntryPlan`). */
module EntryPlan {
  import opened Wrappers
  import opened Rounding
  import opened RiskPolicy
  import opened MutationContract
  import DecimalText

  datatype Blocker =
    | ContextNotReady | EquityNotProven | AvailableNotProven | EntryPriceNotProven | StopNotExact | TargetNotExact
    | TickNotSupported | QuantityStepInvalid | MinimumQuantityInvalid | MinimumNotionalInvalid | TakerFeeInvalid
    | StopWrongSide | TargetWrongSide | StopOffTick | TargetOffTick
    | LeverageOutsidePolicy | LeverageMutationUnsupported | RequestedRiskOutsidePolicy
    | DailyStateInvalid | DailyStateStale | DailyStateNotReconciled
    | DailyLossBoundaryReached | ActiveFloorNotProtected | NoVenueValidQuantity
    | MarginExceeded | TradeRiskExceeded | OpenRiskExceeded
    | ProjectedLossBoundary | ProjectedFloorViolation | RequestInvalid

  datatype Input = Input(
    intentId: string, symbol: string, direction: Direction, stopPrice: string, targetPrice: string,
    requestedRiskBps: Option<int>, requestedLeverage: Option<int>,
    walletBalance: string, availableBalance: string, bestBid: string, bestAsk: string,
    tickSize: string, quantityStep: string, minimumQuantity: string, minimumNotional: string,
    takerRate: string, leverage: Option<int>,
    contextReady: bool, dayMatches: bool, dailyFresh: bool, daily: DailyState, policy: Policy)

  /** The numbers the sizing block runs on, once its guard has admitted them. */
  datatype Numbers = Numbers(
    equity: nat, available: nat, entry: nat, stop: nat, target: nat, venueStep: nat,
    minimumQuantity: nat, minimumNotional: nat, takerRate: nat, leverage: nat, riskBps: nat)
  {
    predicate Valid() {
      equity > 0 && available > 0 && entry > 0 && stop > 0 && target > 0 && venueStep > 0
      && minimumQuantity > 0 && minimumNotional > 0 && leverage > 0 && riskBps > 0
    }
  }

  datatype Sizing = Sizing(
    usablePot: int, startPot: int, targetProfit: int, lossBoundary: int, activeFloor: Option<int>,
    stopDistanceBps: nat, venueRoundTripBps: nat, appliedRoundTripBps: nat, totalLossBps: nat,
    riskBudget: nat, marginBudget: nat, effectiveStep: nat,
    quantity: nat, notional: nat, margin: nat, plannedLoss: nat, projectedProtected: int, minimumNotional: nat)

  datatype Plan = Plan(ready: bool, request: Option<EntryRequest>, sizing: Option<Sizing>, blockers: set<Blocker>)

  function Push(fails: bool, blocker: Blocker): set<Blocker> { if fails then {blocker} else {} }

  // ---------------------------------------------------------------- what a quantity costs

  function Notional(entry: nat, quantity: nat): nat { CeilRatio(entry, quantity, QUANTITY_SCALE) }

  function MarginRequired(entry: nat, quantity: nat, leverage: nat): nat
    requires leverage > 0
  {
    Ceil(Notional(entry, quantity), leverage)
  }

  function PlannedLoss(entry: nat, quantity: nat, totalLossBps: nat): nat {
    CeilRatio(Notional(entry, quantity), totalLossBps, 10_000)
  }

  /** Both budgets respected, charging every rounding against the trader. */
  predicate Affordable(entry: nat, quantity: nat, totalLossBps: nat, riskBudget: nat, leverage: nat, marginBudget: nat)
    requires leverage > 0
  {
    && PlannedLoss(entry, quantity, totalLossBps) <= riskBudget
    && MarginRequired(entry, quantity, leverage) <= marginBudget
  }

  /** The quantity the source's chain of floors arrives at, before rounding to a step. */
  function RawQuantity(entry: nat, totalLossBps: nat, riskBudget: nat, leverage: nat, marginBudget: nat): nat
    requires entry > 0 && totalLossBps > 0
  {
    var byRisk: nat := FloorRatio(riskBudget, 10_000, totalLossBps);
    var byMargin: nat := marginBudget * leverage;
    FloorRatio(Min(byRisk, byMargin), QUANTITY_SCALE, entry)
  }

  /** Four nested roundings collapse: a quantity is affordable exactly when it is at most the raw quantity. */
  lemma {:induction false} AffordableIff(entry: nat, q: nat, total: nat, riskBudget: nat, leverage: nat, marginBudget: nat)
    requires entry > 0 && total > 0 && leverage > 0
    ensures Affordable(entry, q, total, riskBudget, leverage, marginBudget)
        <==> q <= RawQuantity(entry, total, riskBudget, leverage, marginBudget)
  {
    var n := Notional(entry, q);
    CeilAdjunction(n * total, 10_000, riskBudget);
    FloorAdjunction(n, riskBudget * 10_000, total);
    CeilAdjunction(n, leverage, marginBudget);
    var byRisk, byMargin := FloorRatio(riskBudget, 10_000, total), marginBudget * leverage;
    var limit := Min(byRisk, byMargin);
    CeilAdjunction(entry * q, QUANTITY_SCALE, limit);
    FloorAdjunction(q, limit * QUANTITY_SCALE, entry);
    assert entry * q == q * entry;
  }

  /** Sizing is sound and optimal: among the quantities on both step grids, exactly those up to the
      chosen one are affordable, and the chosen one is on both grids. */
  ghost predicate Optimal(entry: nat, chosen: nat, policyStep: nat, venueStep: nat,
                          total: nat, riskBudget: nat, leverage: nat, marginBudget: nat)
    requires policyStep > 0 && venueStep > 0 && leverage > 0
  {
    && IsMultiple(chosen, policyStep) && IsMultiple(chosen, venueStep)
    && forall q: nat | IsMultiple(q, policyStep) && IsMultiple(q, venueStep) ::
         Affordable(entry, q, total, riskBudget, leverage, marginBudget) <==> q <= chosen
  }

  lemma {:induction false} SizingIsOptimal(entry: nat, policyStep: nat, venueStep: nat,
                                           total: nat, riskBudget: nat, leverage: nat, marginBudget: nat)
    requires entry > 0 && total > 0 && leverage > 0 && policyStep > 0 && venueStep > 0
    ensures Lcm(policyStep, venueStep) > 0
    ensures var raw := RawQuantity(entry, total, riskBudget, leverage, marginBudget);
      var chosen := RoundDownToStep(raw, Lcm(policyStep, venueStep));
      && Optimal(entry, chosen, policyStep, venueStep, total, riskBudget, leverage, marginBudget)
      && PlannedLoss(entry, chosen, total) <= riskBudget
      && MarginRequired(entry, chosen, leverage) <= marginBudget
  {
    hide Lcm, RawQuantity, Affordable;
    LcmIsLeast(policyStep, venueStep, 0);
    var step := Lcm(policyStep, venueStep);
    var raw := RawQuantity(entry, total, riskBudget, leverage, marginBudget);
    var chosen := RoundDownToStep(raw, step);
    ProductIsMultiple(0, step);
    StepAdjunction(0, raw, step);
    LcmIsLeast(policyStep, venueStep, chosen);
    forall q: nat | IsMultiple(q, policyStep) && IsMultiple(q, venueStep)
      ensures Affordable(entry, q, total, riskBudget, leverage, marginBudget) <==> q <= chosen
    {
      LcmIsLeast(policyStep, venueStep, q);
      StepAdjunction(q, raw, step);
      AffordableIff(entry, q, total, riskBudget, leverage, marginBudget);
    }
    ChosenIsAffordable(entry, chosen, policyStep, venueStep, total, riskBudget, leverage, marginBudget);
  }

  lemma {:induction false} ChosenIsAffordable(entry: nat, chosen: nat, policyStep: nat, venueStep: nat,
                                              total: nat, riskBudget: nat, leverage: nat, marginBudget: nat)
    requires policyStep > 0 && venueStep > 0 && leverage > 0
    requires Optimal(entry, chosen, policyStep, venueStep, total, riskBudget, leverage, marginBudget)
    ensures PlannedLoss(entry, chosen, total) <= riskBudget
    ensures MarginRequired(entry, chosen, leverage) <= marginBudget
  {
    assert Affordable(entry, chosen, total, riskBudget, leverage, marginBudget);
  }

  // ---------------------------------------------------------------- what a stopped trade really loses

  /** Exact loss when the stop fills at its price and both cost rates are paid on the entry notional,
      in units of one cent over 10,000 * QUANTITY_SCALE (so that it is an integer). */
  function TrueLoss(entry: nat, stop: nat, quantity: nat, costBps: nat): nat {
    Abs(entry - stop) * quantity * 10_000 + costBps * (entry * quantity)
  }

  const LOSS_SCALE: nat := 10_000 * QUANTITY_SCALE

  lemma {:induction false} ProductsOrder(a: nat, b: nat, c: nat, d: nat)
    requires a <= b && c <= d
    ensures a * c <= b * d
  {
    assert b * d == a * c + (b - a) * c + b * (d - c);
    assert (b - a) * c >= 0 && b * (d - c) >= 0;
  }

  lemma {:induction false} RateOnNotional(base: nat, n: nat, total: nat, loss: nat)
    requires base <= n * QUANTITY_SCALE && n * total <= loss * 10_000
    ensures base * total <= loss * LOSS_SCALE
  {
    ProductsOrder(base, n * QUANTITY_SCALE, total, total);
    assert (n * QUANTITY_SCALE) * total == (n * total) * QUANTITY_SCALE;
  }

  lemma {:induction false} TrueLossWithinRates(entry: nat, distance: nat, quantity: nat, stopBps: nat, costBps: nat)
    requires distance * 10_000 <= stopBps * entry
    ensures distance * quantity * 10_000 + costBps * (entry * quantity) <= (entry * quantity) * (stopBps + costBps)
  {
    ProductsOrder(distance * 10_000, stopBps * entry, quantity, quantity);
    assert (stopBps * entry) * quantity == stopBps * (entry * quantity);
    assert (distance * 10_000) * quantity == distance * quantity * 10_000;
  }

  /** The planned loss never understates the true loss, whatever was rounded on the way. */
  lemma {:induction false} PlannedLossCoversTrueLoss(entry: nat, stop: nat, quantity: nat, costBps: nat)
    requires entry > 0
    ensures var total := CeilRatio(Abs(entry - stop), 10_000, entry) + costBps;
      PlannedLoss(entry, quantity, total) * LOSS_SCALE >= TrueLoss(entry, stop, quantity, costBps)
  {
    var distance := Abs(entry - stop);
    var stopBps := CeilRatio(distance, 10_000, entry);
    var total := stopBps + costBps;
    var n, loss := Notional(entry, quantity), PlannedLoss(entry, quantity, total);
    CeilBounds(distance * 10_000, entry);
    CeilBounds(entry * quantity, QUANTITY_SCALE);
    CeilBounds(n * total, 10_000);
    hide Ceil, CeilRatio;
    RateOnNotional(entry * quantity, n, total, loss);
    TrueLossWithinRates(entry, distance, quantity, stopBps, costBps);
  }

  /** The venue's fee is never understated: the applied rate is at least the policy's estimate and at
      least two taker fills (rate units are 10^-8, basis points 10^-4). */
  lemma {:induction false} AppliedRateCoversTaker(policyBps: nat, takerRate: nat)
    ensures var applied := Rounding.Max(policyBps, CeilRatio(takerRate, 20_000, 100_000_000));
      applied >= policyBps && applied * 10_000 >= 2 * takerRate
  {
    CeilBounds(takerRate * 20_000, 100_000_000);
  }

  // ---------------------------------------------------------------- the sizing block

  predicate Safe(x: int) { 0 <= x <= MAX_SAFE_INTEGER }

  /** The day's limits: the share of the starting pot that may be lost, and the floor, raised once equity is at the
      day's target. */
  predicate DayCorrect(n: Numbers, policy: Policy, daily: DailyState, s: Sizing) {
    && IsPot(s.startPot, daily.startEquityCents, policy.usableBalanceLimitCents)
    && IsShare(s.targetProfit, s.startPot, policy.dailyLockTargetBps)
    && IsShare(daily.startEquityCents - s.lossBoundary, s.startPot, policy.maxDailyLossBps)
    && (var target := daily.startEquityCents + s.targetProfit; IsFloor(daily, target, n.equity >= target, s.activeFloor))
  }

  predicate IsCeil(x: int, n: nat, d: nat) { x * d - d < n <= x * d }

  /** The rates: the distance to the stop and two taker fills rounded up, the dearer of these and the policy's
      estimate, and the stress charge. */
  predicate RatesCorrect(n: Numbers, policy: Policy, s: Sizing) {
    && IsCeil(s.stopDistanceBps, (if n.entry >= n.stop then n.entry - n.stop else n.stop - n.entry) * 10_000, n.entry)
    && IsCeil(s.venueRoundTripBps, n.takerRate * 20_000, 100_000_000)
    && s.appliedRoundTripBps >= policy.estimatedRoundTripCostBps && s.appliedRoundTripBps >= s.venueRoundTripBps
    && (s.appliedRoundTripBps == policy.estimatedRoundTripCostBps || s.appliedRoundTripBps == s.venueRoundTripBps)
    && s.totalLossBps == s.stopDistanceBps + s.appliedRoundTripBps + policy.stressedExitCostBps
  }

  /** The budgets: the requested share of the usable pot, and as much margin as is both usable and available. */
  predicate BudgetsCorrect(n: Numbers, policy: Policy, s: Sizing) {
    && IsPot(s.usablePot, n.equity, policy.usableBalanceLimitCents) && s.usablePot > 0
    && IsShare(s.riskBudget, s.usablePot, n.riskBps)
    && IsPot(s.marginBudget, s.usablePot, Some(n.available))
    && s.minimumNotional >= policy.minimumNotionalCents && s.minimumNotional >= n.minimumNotional
    && (s.minimumNotional == policy.minimumNotionalCents || s.minimumNotional == n.minimumNotional)
  }

  /** Every number of the block, independently of how it is computed: the quantity is the largest on both step
      grids that respects both budgets, and the planned loss covers what the trade can really lose. */
  ghost predicate SizingCorrect(n: Numbers, policy: Policy, daily: DailyState, s: Sizing)
    requires n.Valid() && policy.Valid()
  {
    && DayCorrect(n, policy, daily, s) && RatesCorrect(n, policy, s) && BudgetsCorrect(n, policy, s)
    && s.effectiveStep == Lcm(policy.quantityStepUnits, n.venueStep)
    && Optimal(n.entry, s.quantity, policy.quantityStepUnits, n.venueStep, s.totalLossBps, s.riskBudget, n.leverage, s.marginBudget)
    && s.notional == Notional(n.entry, s.quantity)
    && s.margin == MarginRequired(n.entry, s.quantity, n.leverage) <= s.marginBudget
    && s.plannedLoss == PlannedLoss(n.entry, s.quantity, s.totalLossBps) <= s.riskBudget
    && s.plannedLoss * LOSS_SCALE >= TrueLoss(n.entry, n.stop, s.quantity, s.appliedRoundTripBps + policy.stressedExitCostBps)
    && s.projectedProtected == n.equity - s.plannedLoss
  }

  /** The quantities the block computes, as the chain of roundings it computes them by. */
  ghost predicate Computed(n: Numbers, policy: Policy, s: Sizing)
    requires n.Valid() && policy.Valid()
  {
    && s.usablePot == UsablePot(n.equity, policy.usableBalanceLimitCents)
    && s.stopDistanceBps == CeilRatio(Abs(n.entry - n.stop), 10_000, n.entry)
    && s.venueRoundTripBps == CeilRatio(n.takerRate, 20_000, 100_000_000)
    && s.appliedRoundTripBps == Rounding.Max(policy.estimatedRoundTripCostBps, s.venueRoundTripBps)
    && s.totalLossBps == s.stopDistanceBps + s.appliedRoundTripBps + policy.stressedExitCostBps > 0
    && s.riskBudget == FloorRatio(s.usablePot, n.riskBps, 10_000)
    && s.marginBudget == Min(s.usablePot, n.available)
    && s.minimumNotional == Rounding.Max(policy.minimumNotionalCents, n.minimumNotional)
    && s.effectiveStep == Lcm(policy.quantityStepUnits, n.venueStep) > 0
    && s.quantity == RoundDownToStep(RawQuantity(n.entry, s.totalLossBps, s.riskBudget, n.leverage, s.marginBudget), s.effectiveStep)
    && s.notional == Notional(n.entry, s.quantity)
    && s.margin == MarginRequired(n.entry, s.quantity, n.leverage)
    && s.plannedLoss == PlannedLoss(n.entry, s.quantity, s.totalLossBps)
    && s.projectedProtected == n.equity - s.plannedLoss
  }

  lemma {:induction false} ComputedRates(n: Numbers, policy: Policy, s: Sizing)
    requires n.Valid() && policy.Valid() && Computed(n, policy, s)
    ensures RatesCorrect(n, policy, s)
    ensures s.stopDistanceBps == CeilRatio(Abs(n.entry - n.stop), 10_000, n.entry)
  {
    hide Lcm, RoundDownToStep, RawQuantity, Notional, MarginRequired, PlannedLoss, Ceil;
    CeilBounds(Abs(n.entry - n.stop) * 10_000, n.entry);
    CeilBounds(n.takerRate * 20_000, 100_000_000);
  }

  lemma {:induction false} ComputedBudgets(n: Numbers, policy: Policy, s: Sizing)
    requires n.Valid() && policy.Valid() && Computed(n, policy, s)
    ensures BudgetsCorrect(n, policy, s)
  {
    hide CeilRatio, Lcm, RoundDownToStep, RawQuantity, Notional, MarginRequired, PlannedLoss;
    DivBounds(s.usablePot * n.riskBps, 10_000);
  }

  lemma {:induction false} ComputedIsCorrect(n: Numbers, policy: Policy, daily: DailyState, s: Sizing)
    requires n.Valid() && policy.Valid() && Computed(n, policy, s) && DayCorrect(n, policy, daily, s)
    ensures SizingCorrect(n, policy, daily, s)
    ensures n.riskBps <= policy.maxOpenRiskBps ==> s.plannedLoss <= FloorRatio(s.usablePot, policy.maxOpenRiskBps, 10_000)
  {
    hide FloorRatio, CeilRatio, Lcm, Optimal, TrueLoss, RoundDownToStep, RawQuantity, Notional, MarginRequired, PlannedLoss,
      DayCorrect, RatesCorrect, BudgetsCorrect;
    ComputedRates(n, policy, s);
    ComputedBudgets(n, policy, s);
    SizingIsOptimal(n.entry, policy.quantityStepUnits, n.venueStep, s.totalLossBps, s.riskBudget, n.leverage, s.marginBudget);
    PlannedLossCoversTrueLoss(n.entry, n.stop, s.quantity, s.appliedRoundTripBps + policy.stressedExitCostBps);
    if n.riskBps <= policy.maxOpenRiskBps { RiskBudgetOrder(s.usablePot, n.riskBps, policy.maxOpenRiskBps); }
  }

  lemma {:induction false} RiskBudgetOrder(pot: nat, a: nat, b: nat)
    requires a <= b
    ensures FloorRatio(pot, a, 10_000) <= FloorRatio(pot, b, 10_000)
  {
    ProductsOrder(pot, pot, a, b);
    DivBounds(pot * a, 10_000);
    FloorAdjunction(FloorRatio(pot, a, 10_000), pot * b, 10_000);
  }

  /** The floor the day has earned so far, which only rises, and the boundary below which it may not fall. */
  method DayLimits(equity: nat, startPot: nat, policy: Policy, daily: DailyState)
    returns (targetProfit: nat, activeFloor: Option<int>, lossBoundary: int)
    ensures IsShare(targetProfit, startPot, policy.dailyLockTargetBps)
    ensures IsShare(daily.startEquityCents - lossBoundary, startPot, policy.maxDailyLossBps) && lossBoundary <= daily.startEquityCents
    ensures var target := daily.startEquityCents + targetProfit; IsFloor(daily, target, equity >= target, activeFloor)
  {
    DivBounds(startPot * policy.maxDailyLossBps, 10_000);
    DivBounds(startPot * policy.dailyLockTargetBps, 10_000);
    targetProfit := FloorRatio(startPot, policy.dailyLockTargetBps, 10_000);
    var targetEquity := daily.startEquityCents + targetProfit;
    activeFloor := daily.activeFloorCents;
    if equity >= targetEquity {
      activeFloor := Some(Rounding.Max(if activeFloor.Some? then activeFloor.value else 0, targetEquity));
    }
    lossBoundary := daily.startEquityCents - FloorRatio(startPot, policy.maxDailyLossBps, 10_000);
  }

  /** So two guards cannot fire. */
  lemma {:induction false} CorrectMeans(n: Numbers, policy: Policy, daily: DailyState, s: Sizing)
    requires n.Valid() && policy.Valid() && SizingCorrect(n, policy, daily, s)
    ensures s.margin <= s.marginBudget && s.plannedLoss <= s.riskBudget && s.usablePot > 0
  {
    hide FloorRatio, CeilRatio, Optimal, TrueLoss, Notional, MarginRequired, PlannedLoss, DayCorrect, RatesCorrect;
  }

  /** A trade that can lose nothing at all: the source then divides by zero. */
  predicate CostsNothing(n: Numbers, policy: Policy) {
    n.stop == n.entry && n.takerRate == 0 && policy.estimatedRoundTripCostBps == 0 && policy.stressedExitCostBps == 0
  }

  lemma {:induction false} TotalIsZero(n: Numbers, policy: Policy)
    requires n.Valid()
    ensures var stop, trip := CeilRatio(Abs(n.entry - n.stop), 10_000, n.entry), CeilRatio(n.takerRate, 20_000, 100_000_000);
      stop + Rounding.Max(policy.estimatedRoundTripCostBps, trip) + policy.stressedExitCostBps == 0 <==> CostsNothing(n, policy)
  {
    hide Ceil;
    CeilBounds(Abs(n.entry - n.stop) * 10_000, n.entry);
    CeilBounds(n.takerRate * 20_000, 100_000_000);
  }

  /** Every number that is checked against the safe range is in it. */
  predicate Representable(n: Numbers, policy: Policy, daily: DailyState, s: Sizing)
    requires n.Valid() && s.totalLossBps > 0
  {
    && Safe(s.targetProfit) && Safe(daily.startEquityCents - s.lossBoundary)
    && Safe(s.stopDistanceBps) && Safe(s.venueRoundTripBps) && Safe(s.riskBudget) && Safe(s.effectiveStep)
    && Safe(FloorRatio(s.riskBudget, 10_000, s.totalLossBps))
    && Safe(RawQuantity(n.entry, s.totalLossBps, s.riskBudget, n.leverage, s.marginBudget))
    && Safe(s.notional) && Safe(s.plannedLoss) && (s.usablePot >= 0 ==> Safe(FloorRatio(s.usablePot, policy.maxOpenRiskBps, 10_000)))
  }

  /** The guards of the block. */
  predicate Sound(n: Numbers, policy: Policy, s: Sizing) {
    && n.equity > s.lossBoundary && (s.activeFloor.Some? ==> n.equity >= s.activeFloor.value)
    && s.quantity >= n.minimumQuantity && s.notional >= s.minimumNotional
    && s.plannedLoss * 10_000 <= s.usablePot * policy.maxOpenRiskBps
    && s.projectedProtected > s.lossBoundary && (s.activeFloor.Some? ==> s.projectedProtected >= s.activeFloor.value)
  }

  /** Two guards of the source can never fire, and a third only when more risk was asked than policy allows. */
  predicate GuardsThatFire(n: Numbers, policy: Policy, pushed: set<Blocker>) {
    && MarginExceeded !in pushed && TradeRiskExceeded !in pushed
    && (OpenRiskExceeded in pushed ==> n.riskBps > policy.maxOpenRiskBps)
    && pushed <= {DailyLossBoundaryReached, ActiveFloorNotProtected, NoVenueValidQuantity, OpenRiskExceeded, ProjectedLossBoundary, ProjectedFloorViolation}
  }

  /** The numbers of the block, in the order the source computes them. */
  method ComputeSizing(n: Numbers, policy: Policy, daily: DailyState) returns (s: Sizing)
    requires n.Valid() && policy.Valid() && daily.startEquityCents > 0 && !CostsNothing(n, policy)
    ensures SizingCorrect(n, policy, daily, s) && s.totalLossBps > 0
    ensures n.riskBps <= policy.maxOpenRiskBps && s.usablePot >= 0 ==> s.plannedLoss <= FloorRatio(s.usablePot, policy.maxOpenRiskBps, 10_000)
  {
    hide FloorRatio, CeilRatio, Ceil, Lcm, RoundDownToStep, SizingCorrect, RawQuantity, IsFloor, IsShare, IsPot;
    var usablePot := UsablePot(n.equity, policy.usableBalanceLimitCents);
    var startPot := UsablePot(daily.startEquityCents, policy.usableBalanceLimitCents);
    PotIsPot(daily.startEquityCents, policy.usableBalanceLimitCents);
    var targetProfit, activeFloor, lossBoundary := DayLimits(n.equity, startPot, policy, daily);
    var stopDistance := CeilRatio(Abs(n.entry - n.stop), 10_000, n.entry);
    var venueRoundTrip := CeilRatio(n.takerRate, 20_000, 100_000_000);
    var applied := Rounding.Max(policy.estimatedRoundTripCostBps, venueRoundTrip);
    var total := stopDistance + applied + policy.stressedExitCostBps;
    TotalIsZero(n, policy);
    var riskBudget := FloorRatio(usablePot, n.riskBps, 10_000);
    var marginBudget: nat := Min(usablePot, n.available);
    var step := LeastCommonMultiple(policy.quantityStepUnits, n.venueStep);
    var quantity := RoundDownToStep(RawQuantity(n.entry, total, riskBudget, n.leverage, marginBudget), step);
    var notional := Notional(n.entry, quantity);
    var plannedLoss := PlannedLoss(n.entry, quantity, total);
    s := Sizing(usablePot, startPot, targetProfit, lossBoundary, activeFloor, stopDistance, venueRoundTrip, applied, total, riskBudget,
                marginBudget, step, quantity, notional, MarginRequired(n.entry, quantity, n.leverage), plannedLoss,
                n.equity - plannedLoss, Rounding.Max(policy.minimumNotionalCents, n.minimumNotional));
    ComputedIsCorrect(n, policy, daily, s);
  }

  /** The block throws exactly when the trade costs nothing or a number leaves the safe range, and pushes exactly
      the guards that fail. */
  method SizeEntry(n: Numbers, policy: Policy, daily: DailyState) returns (r: Result<(Sizing, set<Blocker>), string>)
    requires n.Valid() && policy.Valid() && daily.startEquityCents > 0
    ensures r.Success? ==> !CostsNothing(n, policy)
    ensures r.Success? ==>
      SizingCorrect(n, policy, daily, r.value.0) && r.value.0.totalLossBps > 0 && Representable(n, policy, daily, r.value.0)
    ensures r.Failure? && !CostsNothing(n, policy) ==>
      exists s :: SizingCorrect(n, policy, daily, s) && s.totalLossBps > 0 && !Representable(n, policy, daily, s)
    ensures r.Success? ==> (r.value.1 == {} <==> Sound(n, policy, r.value.0)) && GuardsThatFire(n, policy, r.value.1)
  {
    hide FloorRatio, SizingCorrect, Representable, CostsNothing, Sound, GuardsThatFire;
    if CostsNothing(n, policy) { return Failure("division by zero"); }
    var sizing := ComputeSizing(n, policy, daily);
    CorrectMeans(n, policy, daily, sizing);
    if !Representable(n, policy, daily, sizing) { return Failure("a number of the sizing block exceeds the safe integer range"); }
    var pushed := Guards(n, policy, sizing);
    r := Success((sizing, pushed));
  }

  lemma {:induction false} PotIsPot(equity: int, limit: Option<nat>)
    ensures IsPot(UsablePot(equity, limit), equity, limit)
  {}

  /** The block's guards, in order. */
  method Guards(n: Numbers, policy: Policy, s: Sizing) returns (pushed: set<Blocker>)
    requires s.margin <= s.marginBudget && s.plannedLoss <= s.riskBudget && s.usablePot >= 0
    requires n.riskBps <= policy.maxOpenRiskBps ==> s.plannedLoss <= FloorRatio(s.usablePot, policy.maxOpenRiskBps, 10_000)
    requires s.minimumNotional >= 0
    ensures pushed == {} <==> Sound(n, policy, s)
    ensures GuardsThatFire(n, policy, pushed)
  {
    var openRiskLimit := FloorRatio(s.usablePot, policy.maxOpenRiskBps, 10_000);
    FloorAdjunction(s.plannedLoss, s.usablePot * policy.maxOpenRiskBps, 10_000);
    pushed := Push(n.equity <= s.lossBoundary, DailyLossBoundaryReached)
      + Push(s.activeFloor.Some? && n.equity < s.activeFloor.value, ActiveFloorNotProtected)
      + Push(s.quantity < n.minimumQuantity || s.notional < s.minimumNotional, NoVenueValidQuantity)
      + Push(s.margin > s.marginBudget, MarginExceeded) + Push(s.plannedLoss > s.riskBudget, TradeRiskExceeded)
      + Push(s.plannedLoss > openRiskLimit, OpenRiskExceeded)
      + Push(s.projectedProtected <= s.lossBoundary, ProjectedLossBoundary)
      + Push(s.activeFloor.Some? && s.projectedProtected < s.activeFloor.value, ProjectedFloorViolation);
    assert pushed == {} ==>
      DailyLossBoundaryReached !in pushed && ActiveFloorNotProtected !in pushed && NoVenueValidQuantity !in pushed && OpenRiskExceeded !in pushed
      && ProjectedLossBoundary !in pushed && ProjectedFloorViolation !in pushed;
  }

  // ---------------------------------------------------------------- the whole compiler

  /** `decimalToScaled`: null above the safe range. */
  function DecimalToScaled(value: string, digits: nat, mode: DecimalText.Rounding): Option<nat> {
    match DecimalText.ParseScaled(value, digits, mode)
    case None => None
    case Some(n) => if n <= MAX_SAFE_INTEGER then Some(n) else None
  }

  function RiskBps(input: Input): int {
    if input.requestedRiskBps.Some? then input.requestedRiskBps.value else input.policy.maxTradeRiskBps
  }

  predicate DailyIsValid(daily: DailyState) {
    && 0 < daily.startEquityCents <= daily.highWaterEquityCents
    && (daily.activeFloorCents.Some? ==> daily.activeFloorCents.value > 0)
    && daily.lockReached == daily.activeFloorCents.Some?
  }

  function Reading(value: Option<nat>): nat { if value.Some? then value.value else 0 }

  /** The numbers read from the venue's texts: balances rounded down, minimum notional and fee rounded up,
      prices, ticks and steps exact; zero stands for a text the source refuses. */
  function ReadNumbers(input: Input): Numbers {
    Numbers(
      Reading(DecimalToScaled(input.walletBalance, 2, DecimalText.Floor)),
      Reading(DecimalToScaled(input.availableBalance, 2, DecimalText.Floor)),
      Reading(DecimalToScaled(if input.direction.Long? then input.bestAsk else input.bestBid, 2, DecimalText.Exact)),
      Reading(DecimalToScaled(input.stopPrice, 2, DecimalText.Exact)),
      Reading(DecimalToScaled(input.targetPrice, 2, DecimalText.Exact)),
      Reading(DecimalToScaled(input.quantityStep, 8, DecimalText.Exact)),
      Reading(DecimalToScaled(input.minimumQuantity, 8, DecimalText.Exact)),
      Reading(DecimalToScaled(input.minimumNotional, 2, DecimalText.Ceil)),
      Reading(DecimalToScaled(input.takerRate, 8, DecimalText.Ceil)),
      if input.leverage.Some? && input.leverage.value > 0 then input.leverage.value else 0,
      if RiskBps(input) > 0 then RiskBps(input) else 0)
  }

  /** What each number reads, side by side with its text: the entry is priced at the ask of a long and the bid
      of a short. */
  predicate NumbersOf(input: Input, n: Numbers) {
    && DecimalToScaled(input.walletBalance, 2, DecimalText.Floor) == Some(n.equity)
    && DecimalToScaled(input.availableBalance, 2, DecimalText.Floor) == Some(n.available)
    && DecimalToScaled(if input.direction.Long? then input.bestAsk else input.bestBid, 2, DecimalText.Exact) == Some(n.entry)
    && DecimalToScaled(input.stopPrice, 2, DecimalText.Exact) == Some(n.stop)
    && DecimalToScaled(input.targetPrice, 2, DecimalText.Exact) == Some(n.target)
    && DecimalToScaled(input.quantityStep, 8, DecimalText.Exact) == Some(n.venueStep)
    && DecimalToScaled(input.minimumQuantity, 8, DecimalText.Exact) == Some(n.minimumQuantity)
    && DecimalToScaled(input.minimumNotional, 2, DecimalText.Ceil) == Some(n.minimumNotional)
    && DecimalToScaled(input.takerRate, 8, DecimalText.Ceil) == Some(n.takerRate)
    && input.leverage == Some(n.leverage)
    && n.riskBps == (if input.requestedRiskBps.Some? then input.requestedRiskBps.value else input.policy.maxTradeRiskBps)
  }

  /** What must hold of the inputs besides the sizing: the context and the day's record are ready, fresh and of
      this day, prices are on the tick and on their sides of the executable price, leverage and risk are within
      policy, and no other leverage was asked for. */
  predicate Acceptable(input: Input, n: Numbers) {
    && NumbersOf(input, n) && n.Valid()
    && input.contextReady && input.dayMatches && input.dailyFresh
    && DailyIsValid(input.daily) && n.equity <= input.daily.highWaterEquityCents
    && (var tick := DecimalToScaled(input.tickSize, 2, DecimalText.Exact);
        tick.Some? && tick.value > 0 && n.stop % tick.value == 0 && n.target % tick.value == 0)
    && (if input.direction.Long? then n.stop < n.entry < n.target else n.target < n.entry < n.stop)
    && n.leverage <= input.policy.maxLeverage && n.riskBps <= input.policy.maxTradeRiskBps
    && (input.requestedLeverage.Some? ==> input.requestedLeverage == input.leverage)
  }

  /** When a plan is ready, by the numbers and texts alone. */
  predicate Passes(input: Input, n: Numbers, s: Sizing) {
    Acceptable(input, n) && Sound(n, input.policy, s) && ValidateEntry(RequestText(input, n, s.quantity)).Some?
  }

  /** What a ready plan guarantees about the order it requests. */
  ghost predicate ReadyPlan(input: Input, plan: Plan, n: Numbers)
    requires input.policy.Valid()
  {
    && Acceptable(input, n)
    && plan.sizing.Some? && plan.request.Some? && plan.blockers == {}
    && var s := plan.sizing.value; var r := plan.request.value;
    && SizingCorrect(n, input.policy, input.daily, s) && Sound(n, input.policy, s)
    // the request prints exactly the sized quantity and survives its own validation
    && ValidateEntry(r).Some? && EntryRequestOf(ValidateEntry(r).value) == r
    && CanonicalUuid(input.intentId) == Some(r.intentId) && CanonicalSymbol(input.symbol) == Some(r.symbol) && r.direction == input.direction
    && DecimalText.ParseScaled(r.quantity, 8, DecimalText.Exact) == Some(s.quantity)
    && DecimalText.ParseScaled(r.stopPrice, 2, DecimalText.Exact) == Some(n.stop)
    && DecimalText.ParseScaled(r.targetPrice, 2, DecimalText.Exact) == Some(n.target)
    // after the stop, in exact arithmetic, equity is above the day's loss boundary and not below the floor
    && EquityAfterStopIsSafe(n, input.policy, s)
  }

  ghost predicate EquityAfterStopIsSafe(n: Numbers, policy: Policy, s: Sizing) {
    var after: int := n.equity * LOSS_SCALE - TrueLoss(n.entry, n.stop, s.quantity, s.appliedRoundTripBps + policy.stressedExitCostBps);
    && after > s.lossBoundary * LOSS_SCALE
    && (s.activeFloor.Some? ==> after >= s.activeFloor.value * LOSS_SCALE)
  }

  lemma {:induction false} ProjectionIsSafe(n: Numbers, policy: Policy, daily: DailyState, s: Sizing)
    requires n.Valid() && policy.Valid() && SizingCorrect(n, policy, daily, s)
    requires s.projectedProtected > s.lossBoundary
    requires s.activeFloor.Some? ==> s.projectedProtected >= s.activeFloor.value
    ensures EquityAfterStopIsSafe(n, policy, s)
  {
    hide Optimal, FloorRatio, TrueLoss, Notional, PlannedLoss, MarginRequired, DayCorrect, RatesCorrect, BudgetsCorrect;
  }

  /** The canonical request built from the sized numbers. */
  function RequestText(input: Input, n: Numbers, quantity: nat): EntryRequest {
    EntryRequest(input.intentId, input.symbol, input.direction,
      DecimalText.Print(quantity, 8), DecimalText.Print(n.stop, 2), DecimalText.Print(n.target, 2))
  }

  lemma {:induction false} RequestTextIsExact(input: Input, n: Numbers, quantity: nat)
    requires n.stop > 0 && n.target > 0
    ensures var r := RequestText(input, n, quantity);
      ValidateEntry(r).Some? ==>
        var c := EntryRequestOf(ValidateEntry(r).value);
        && ValidateEntry(c) == ValidateEntry(r)
        && CanonicalUuid(input.intentId) == Some(c.intentId) && CanonicalSymbol(input.symbol) == Some(c.symbol)
        && c.direction == input.direction
        && DecimalText.ParseScaled(c.quantity, 8, DecimalText.Exact) == Some(quantity)
        && DecimalText.ParseScaled(c.stopPrice, 2, DecimalText.Exact) == Some(n.stop)
        && DecimalText.ParseScaled(c.targetPrice, 2, DecimalText.Exact) == Some(n.target)
  {
    hide DecimalText.IsPlain, DecimalText.Print, DecimalText.ParseScaled, CanonicalUuid, CanonicalSymbol;
    var r := RequestText(input, n, quantity);
    PrintedTextIsKept(quantity, 8);
    PrintedTextIsKept(n.stop, 2);
    PrintedTextIsKept(n.target, 2);
    if ValidateEntry(r).Some? { EntryIsCanonical(r); }
  }

  lemma {:induction false} PrintedTextIsKept(n: nat, digits: nat)
    ensures var t := DecimalText.Print(n, digits);
      && DecimalText.ParseScaled(t, digits, DecimalText.Exact) == Some(n)
      && (DecimalText.CanonicalPositive(t).Some? ==> DecimalText.CanonicalPositive(t).value == t)
  {
    DecimalText.PrintParseRoundTrip(n, digits);
    DecimalText.PrintMeaning(n, digits);
  }

  /** Blockers pushed while the venue's texts are read. */
  function NumberBlockers(input: Input): set<Blocker> {
    var n := ReadNumbers(input);
    Push(!input.contextReady, ContextNotReady)
    + Push(n.equity == 0, EquityNotProven) + Push(n.available == 0, AvailableNotProven)
    + Push(n.entry == 0, EntryPriceNotProven) + Push(n.stop == 0, StopNotExact) + Push(n.target == 0, TargetNotExact)
    + VenueBlockers(input)
  }

  function VenueBlockers(input: Input): set<Blocker> {
    var n := ReadNumbers(input);
    Push(Tick(input) == 0, TickNotSupported) + Push(n.venueStep == 0, QuantityStepInvalid)
    + Push(n.minimumQuantity == 0, MinimumQuantityInvalid) + Push(n.minimumNotional == 0, MinimumNotionalInvalid)
    + Push(TakerRate(input).None?, TakerFeeInvalid)
  }

  function Tick(input: Input): nat { Reading(DecimalToScaled(input.tickSize, 2, DecimalText.Exact)) }

  function TakerRate(input: Input): Option<nat> { DecimalToScaled(input.takerRate, 8, DecimalText.Ceil) }

  /** Blockers about the sides and ticks of the two protective prices. */
  function GeometryBlockers(input: Input): set<Blocker> {
    var n := ReadNumbers(input);
    var stop := DecimalToScaled(input.stopPrice, 2, DecimalText.Exact);
    var target := DecimalToScaled(input.targetPrice, 2, DecimalText.Exact);
    var entry := DecimalToScaled(if input.direction.Long? then input.bestAsk else input.bestBid, 2, DecimalText.Exact);
    var comparable := stop.Some? && target.Some? && entry.Some?;
    Push(comparable && (if input.direction.Long? then n.stop >= n.entry else n.stop <= n.entry), StopWrongSide)
    + Push(comparable && (if input.direction.Long? then n.target <= n.entry else n.target >= n.entry), TargetWrongSide)
    + Push(Tick(input) > 0 && stop.Some? && n.stop % Tick(input) != 0, StopOffTick)
    + Push(Tick(input) > 0 && target.Some? && n.target % Tick(input) != 0, TargetOffTick)
  }

  /** Blockers about leverage, requested risk and the day's record. */
  function AccountBlockers(input: Input): set<Blocker> {
    var wallet := DecimalToScaled(input.walletBalance, 2, DecimalText.Floor);
    Push(input.leverage.None? || input.leverage.value < 1 || input.leverage.value > input.policy.maxLeverage, LeverageOutsidePolicy)
    + Push(input.requestedLeverage.Some? && input.requestedLeverage != input.leverage, LeverageMutationUnsupported)
    + Push(RiskBps(input) < 1 || RiskBps(input) > input.policy.maxTradeRiskBps, RequestedRiskOutsidePolicy)
    + Push(!input.dayMatches || !DailyIsValid(input.daily), DailyStateInvalid)
    + Push(!input.dailyFresh, DailyStateStale)
    + Push(wallet.Some? && input.daily.highWaterEquityCents < wallet.value, DailyStateNotReconciled)
  }

  /** Each group of blockers is empty exactly when its conditions hold. */
  lemma {:induction false} NumbersDecide(input: Input)
    ensures NumberBlockers(input) == {} <==>
      var n := ReadNumbers(input);
      && input.contextReady && n.equity > 0 && n.available > 0 && n.entry > 0 && n.stop > 0 && n.target > 0
      && Tick(input) > 0 && n.venueStep > 0 && n.minimumQuantity > 0 && n.minimumNotional > 0 && TakerRate(input).Some?
  {
    hide ReadNumbers, Tick, TakerRate, VenueBlockers;
    VenueDecides(input);
    var all := NumberBlockers(input);
    assert forall b :: b in VenueBlockers(input) ==> b in all;
    assert all == {} ==> VenueBlockers(input) == {} && ContextNotReady !in all && EquityNotProven !in all && AvailableNotProven !in all;
    assert all == {} ==> EntryPriceNotProven !in all && StopNotExact !in all && TargetNotExact !in all;
  }

  lemma {:induction false} VenueDecides(input: Input)
    ensures VenueBlockers(input) == {} <==>
      var n := ReadNumbers(input);
      Tick(input) > 0 && n.venueStep > 0 && n.minimumQuantity > 0 && n.minimumNotional > 0 && TakerRate(input).Some?
  {
    hide ReadNumbers, Tick, TakerRate;
    var all := VenueBlockers(input);
    assert all == {} ==> TickNotSupported !in all && QuantityStepInvalid !in all && MinimumQuantityInvalid !in all;
    assert all == {} ==> MinimumNotionalInvalid !in all && TakerFeeInvalid !in all;
  }

  lemma {:induction false} GeometryDecides(input: Input)
    requires ReadNumbers(input).entry > 0 && ReadNumbers(input).stop > 0 && ReadNumbers(input).target > 0 && Tick(input) > 0
    ensures GeometryBlockers(input) == {} <==>
      var n := ReadNumbers(input);
      && (if input.direction.Long? then n.stop < n.entry < n.target else n.target < n.entry < n.stop)
      && n.stop % Tick(input) == 0 && n.target % Tick(input) == 0
  {
    hide DecimalToScaled, Tick;
    var all := GeometryBlockers(input);
    assert all == {} ==> StopWrongSide !in all && TargetWrongSide !in all && StopOffTick !in all && TargetOffTick !in all;
  }

  lemma {:induction false} AccountDecides(input: Input)
    ensures AccountBlockers(input) == {} <==>
      && input.leverage.Some? && 1 <= input.leverage.value <= input.policy.maxLeverage
      && (input.requestedLeverage.Some? ==> input.requestedLeverage == input.leverage)
      && 1 <= RiskBps(input) <= input.policy.maxTradeRiskBps
      && input.dayMatches && DailyIsValid(input.daily) && input.dailyFresh
      && (var wallet := DecimalToScaled(input.walletBalance, 2, DecimalText.Floor); wallet.Some? ==> wallet.value <= input.daily.highWaterEquityCents)
    ensures DailyStateInvalid in AccountBlockers(input) <==> !(input.dayMatches && DailyIsValid(input.daily))
  {
    hide DecimalToScaled, DailyIsValid, RiskBps;
    var all := AccountBlockers(input);
    assert all == {} ==> LeverageOutsidePolicy !in all && LeverageMutationUnsupported !in all && RequestedRiskOutsidePolicy !in all;
    assert all == {} ==> DailyStateInvalid !in all && DailyStateStale !in all && DailyStateNotReconciled !in all;
  }

  lemma {:induction false} AcceptableIsRead(input: Input, n: Numbers)
    requires n.Valid()
    ensures NumbersOf(input, n) <==> ReadNumbers(input) == n && TakerRate(input).Some?
  {
    hide DecimalToScaled;
  }

  /** Nothing is pushed exactly for acceptable inputs. */
  lemma {:induction false} BlockersDecide(input: Input)
    ensures NumberBlockers(input) == {} && GeometryBlockers(input) == {} && AccountBlockers(input) == {} <==> Acceptable(input, ReadNumbers(input))
  {
    hide NumberBlockers, GeometryBlockers, AccountBlockers, DailyIsValid, DecimalToScaled, ReadNumbers;
    NumbersDecide(input);
    AccountDecides(input);
    var n := ReadNumbers(input);
    NumbersAreRead(input);
    if n.entry > 0 && n.stop > 0 && n.target > 0 && Tick(input) > 0 { GeometryDecides(input); }
    if n.Valid() { AcceptableIsRead(input, n); }
  }

  lemma {:induction false} NumbersAreRead(input: Input)
    ensures var n := ReadNumbers(input);
      && (n.equity > 0 ==> DecimalToScaled(input.walletBalance, 2, DecimalText.Floor) == Some(n.equity))
      && n.leverage == (if input.leverage.Some? && input.leverage.value > 0 then input.leverage.value else 0)
      && n.riskBps == (if RiskBps(input) > 0 then RiskBps(input) else 0)
  {
    hide DecimalToScaled;
  }

  lemma {:induction false} VenueBlockersAreApart(input: Input)
    ensures VenueBlockers(input) !! {MarginExceeded, TradeRiskExceeded, OpenRiskExceeded, DailyStateInvalid}
  {
    hide ReadNumbers, Tick, TakerRate;
  }

  lemma {:induction false} NumberBlockersAreApart(input: Input)
    ensures NumberBlockers(input) !! {MarginExceeded, TradeRiskExceeded, OpenRiskExceeded, DailyStateInvalid}
  {
    hide ReadNumbers, Tick, TakerRate, VenueBlockers;
    VenueBlockersAreApart(input);
  }

  lemma {:induction false} GeometryBlockersAreApart(input: Input)
    ensures GeometryBlockers(input) !! {MarginExceeded, TradeRiskExceeded, OpenRiskExceeded, DailyStateInvalid}
  {
    hide DecimalToScaled, Tick, ReadNumbers;
  }

  lemma {:induction false} AccountBlockersAreApart(input: Input)
    ensures AccountBlockers(input) !! {MarginExceeded, TradeRiskExceeded, OpenRiskExceeded}
    ensures RequestedRiskOutsidePolicy !in AccountBlockers(input) ==> ReadNumbers(input).riskBps <= input.policy.maxTradeRiskBps
  {
    hide DecimalToScaled, DailyIsValid;
  }

  /** Which blockers the inputs alone can push. */
  lemma {:induction false} InputBlockersAreApart(input: Input)
    ensures var all := NumberBlockers(input) + GeometryBlockers(input) + AccountBlockers(input);
      && MarginExceeded !in all && TradeRiskExceeded !in all && OpenRiskExceeded !in all
      && (DailyStateInvalid in all <==> DailyStateInvalid in AccountBlockers(input))
      && (RequestedRiskOutsidePolicy !in all ==> ReadNumbers(input).riskBps <= input.policy.maxTradeRiskBps)
      && (all == {} <==> NumberBlockers(input) == {} && GeometryBlockers(input) == {} && AccountBlockers(input) == {})
  {
    hide NumberBlockers, GeometryBlockers, AccountBlockers, ReadNumbers;
    NumberBlockersAreApart(input);
    GeometryBlockersAreApart(input);
    AccountBlockersAreApart(input);
    NothingPushed(NumberBlockers(input), GeometryBlockers(input), AccountBlockers(input));
  }

  lemma {:induction false} NothingPushed(a: set<Blocker>, b: set<Blocker>, c: set<Blocker>)
    ensures a + b + c == {} <==> a == {} && b == {} && c == {}
  {
    assert a + b + c == {} ==> forall x :: x in a || x in b || x in c ==> x in a + b + c;
  }

  /** When the sizing block runs. */
  predicate CanSize(input: Input) {
    ReadNumbers(input).Valid() && TakerRate(input).Some? && input.dayMatches && DailyIsValid(input.daily)
  }

  lemma {:induction false} AcceptableCanSize(input: Input)
    requires Acceptable(input, ReadNumbers(input))
    ensures CanSize(input)
  {
    hide DecimalToScaled, ReadNumbers, DailyIsValid;
    AcceptableIsRead(input, ReadNumbers(input));
  }

  lemma {:induction false} SoundProjection(n: Numbers, policy: Policy, daily: DailyState, s: Sizing)
    requires n.Valid() && policy.Valid() && SizingCorrect(n, policy, daily, s) && Sound(n, policy, s)
    ensures EquityAfterStopIsSafe(n, policy, s)
  {
    hide SizingCorrect, EquityAfterStopIsSafe;
    ProjectionIsSafe(n, policy, daily, s);
  }

  method Compile(input: Input) returns (r: Result<Plan, string>)
    requires input.policy.Valid()
    // the sizing is the right one, and it is there whenever its inputs are
    ensures r.Success? ==> (r.value.sizing.Some? <==> CanSize(input))
    ensures r.Success? && r.value.sizing.Some? ==> SizingCorrect(ReadNumbers(input), input.policy, input.daily, r.value.sizing.value)
    // ready exactly when everything passes, and a ready plan keeps its promises
    ensures r.Success? ==> (r.value.ready <==> r.value.sizing.Some? && Passes(input, ReadNumbers(input), r.value.sizing.value))
    ensures r.Success? ==> (r.value.ready <==> r.value.request.Some?) && (r.value.ready <==> r.value.blockers == {})
    ensures r.Success? && r.value.ready ==> ReadyPlan(input, r.value, ReadNumbers(input))
    // it throws exactly when the trade costs nothing or a number of the block is out of range
    ensures r.Failure? ==> CanSize(input)
    ensures r.Failure? && !CostsNothing(ReadNumbers(input), input.policy) ==>
      exists s :: SizingCorrect(ReadNumbers(input), input.policy, input.daily, s) && s.totalLossBps > 0
                  && !Representable(ReadNumbers(input), input.policy, input.daily, s)
    ensures r.Success? && CanSize(input) ==>
      && !CostsNothing(ReadNumbers(input), input.policy) && r.value.sizing.value.totalLossBps > 0
      && Representable(ReadNumbers(input), input.policy, input.daily, r.value.sizing.value)
    // guards that cannot fire
    ensures r.Success? ==> MarginExceeded !in r.value.blockers && TradeRiskExceeded !in r.value.blockers
    ensures r.Success? && OpenRiskExceeded in r.value.blockers ==> RequestedRiskOutsidePolicy in r.value.blockers
  {
    hide DecimalToScaled, SizingCorrect, ValidateEntry, RequestText, EquityAfterStopIsSafe, Sound, Acceptable, DailyIsValid, Representable, CostsNothing;
    hide NumberBlockers, GeometryBlockers, AccountBlockers, ReadNumbers;
    var n := ReadNumbers(input);
    var blockers := NumberBlockers(input) + GeometryBlockers(input) + AccountBlockers(input);
    BlockersDecide(input);
    AccountDecides(input);
    InputBlockersAreApart(input);
    if Acceptable(input, n) { AcceptableCanSize(input); }

    var sizing: Option<Sizing> := None;
    var request: Option<EntryRequest> := None;
    if n.Valid() && TakerRate(input).Some? && DailyStateInvalid !in blockers {
      assert input.daily.startEquityCents > 0 by { DailyIsPositive(input.daily); }
      var sized := SizeEntry(n, input.policy, input.daily);
      if sized.Failure? { return Failure(sized.error); }
      sizing := Some(sized.value.0);
      NothingPushed(blockers, sized.value.1, {});
      blockers := blockers + sized.value.1;
      if blockers == {} {
        var text := RequestText(input, n, sizing.value.quantity);
        RequestTextIsExact(input, n, sizing.value.quantity);
        var valid := ValidateEntry(text);
        if valid.Some? {
          request := Some(EntryRequestOf(valid.value));
        } else {
          blockers := blockers + {RequestInvalid};
        }
        SoundProjection(n, input.policy, input.daily, sizing.value);
      }
    }
    r := Success(Plan(blockers == {} && request.Some?, request, sizing, blockers));
  }

  lemma {:induction false} DailyIsPositive(daily: DailyState)
    requires DailyIsValid(daily)
    ensures daily.startEquityCents > 0
  {}
}
