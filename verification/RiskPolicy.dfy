/** The risk policy, the day's risk record, and the integer range of the source's numbers. */
module RiskPolicy {
  import opened Wrappers
  import opened Rounding

  const MAX_SAFE_INTEGER: nat := 9_007_199_254_740_991
  /** `Number.isSafeInteger`. */
  predicate IsSafe(x: int) { 0 <= x + MAX_SAFE_INTEGER && x <= MAX_SAFE_INTEGER }

  const QUANTITY_SCALE: nat := 100_000_000

  datatype Policy = Policy(
    dailyLockTargetBps: nat, usableBalanceLimitCents: Option<nat>, maxLeverage: nat,
    maxTradeRiskBps: nat, maxOpenRiskBps: nat, maxDailyLossBps: nat,
    estimatedRoundTripCostBps: nat, stressedExitCostBps: nat,
    quantityStepUnits: nat, minimumNotionalCents: nat)
  {
    /** `validatePolicy`. */
    predicate Valid() {
      && 1 <= dailyLockTargetBps <= 1_000
      && (usableBalanceLimitCents.Some? ==> 1_000 <= usableBalanceLimitCents.value <= MAX_SAFE_INTEGER)
      && 1 <= maxLeverage <= 10
      && 1 <= maxTradeRiskBps <= 500
      && maxTradeRiskBps <= maxOpenRiskBps <= 1_000
      && maxOpenRiskBps <= maxDailyLossBps <= 2_000
      && estimatedRoundTripCostBps <= 500
      && stressedExitCostBps <= 500
      && 1 <= quantityStepUnits <= 100_000_000
      && 1 <= minimumNotionalCents <= MAX_SAFE_INTEGER
    }
  }

  datatype DailyState = DailyState(
    startEquityCents: int, highWaterEquityCents: int, lockReached: bool, activeFloorCents: Option<int>)

  /** `Math.min(equity, limit ?? equity)`. */
  function UsablePot(equity: int, limit: Option<nat>): int {
    if limit.None? then equity else Min(equity, limit.value)
  }

  /** The share of an amount that lies in so many basis points, cut to a whole cent towards zero. */
  predicate IsShare(x: int, amount: int, bps: nat) {
    if amount >= 0 then x * 10_000 <= amount * bps < x * 10_000 + 10_000 else -x * 10_000 <= -amount * bps < -x * 10_000 + 10_000
  }

  /** What of an equity is usable: all of it, or as much as the policy's limit. */
  predicate IsPot(pot: int, equity: int, limit: Option<nat>) {
    pot <= equity && (limit.Some? ==> pot <= limit.value) && (pot == equity || (limit.Some? && pot == limit.value))
  }

  predicate IsPositivePart(x: int, y: int) { x >= 0 && x >= y && (x == 0 || x == y) }

  /** The day's floor stands until its target is reached; then it is raised to that target. It is never lowered. */
  predicate IsFloor(daily: DailyState, target: int, reached: bool, floor: Option<int>) {
    if !reached then floor == daily.activeFloorCents
    else
      var standing := if daily.activeFloorCents.Some? then daily.activeFloorCents.value else 0;
      floor.Some? && floor.value >= target && floor.value >= standing && (floor.value == target || floor.value == standing)
  }

  lemma {:induction false} ShareIsUnique(x: int, y: int, amount: int, bps: nat)
    requires IsShare(x, amount, bps)
    ensures IsShare(y, amount, bps) <==> x == y
  {}
}
