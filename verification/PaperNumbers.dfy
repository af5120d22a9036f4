/** The paper account's numbers and outcomes, stated apart from how they are computed: what each amount is to the
    half cent, when each operation is accepted, and what it then leaves. */
module PaperNumbers {
  import opened Wrappers
  import opened Rounding
  import opened RiskPolicy
  import opened PaperLedger

  // ---------------------------------------------------------------- amounts

  /** The nearest whole number to n / d, halves upwards. */
  predicate IsNearest(x: int, n: int, d: nat) { 2 * (x * d) - d <= 2 * n < 2 * (x * d) + d }

  lemma {:induction false} RoundIsNearest(n: int, d: nat)
    requires d > 0
    ensures IsNearest(Round(n, d), n, d)
  {
    RoundBounds(n, d);
  }

  /** A profit is the exact gain to half a cent, and has its sign: a long gains as the price rises, a short as
      it falls. */
  lemma {:induction false} PnlIsGain(side: PositionSide, entry: nat, exit: nat, quantity: nat)
    ensures IsNearest(PnlCents(side, entry, exit, quantity), (if side.Long? then exit - entry else entry - exit) * quantity, QUANTITY_SCALE)
    ensures (if side.Long? then exit >= entry else exit <= entry) ==> PnlCents(side, entry, exit, quantity) >= 0
    ensures (if side.Long? then exit <= entry else exit >= entry) ==> PnlCents(side, entry, exit, quantity) <= 0
  {
    var gain := if side.Long? then exit - entry else entry - exit;
    RoundIsNearest(gain * quantity, QUANTITY_SCALE);
    RoundExact(0, QUANTITY_SCALE);
    if gain >= 0 {
      assert gain * quantity >= 0;
      RoundIsMonotone(0, gain * quantity, QUANTITY_SCALE);
    }
    if gain <= 0 {
      assert gain * quantity <= 0;
      RoundIsMonotone(gain * quantity, 0, QUANTITY_SCALE);
    }
  }

  lemma {:induction false} BpsIsNearest(value: int, bps: nat)
    ensures IsNearest(ApplyBps(value, bps), value * bps, 10_000)
  {
    RoundIsNearest(value * bps, 10_000);
  }

  lemma {:induction false} NotionalIsNearest(price: nat, quantity: int)
    ensures IsNearest(NotionalCents(price, quantity), price * quantity, QUANTITY_SCALE)
  {
    RoundIsNearest(price * quantity, QUANTITY_SCALE);
  }

  /** Each side of a trade pays half the round trip, rounded up to a basis point. */
  lemma {:induction false} HalfIsHalf(policy: Policy)
    ensures policy.estimatedRoundTripCostBps <= 2 * HalfCostBps(policy) <= policy.estimatedRoundTripCostBps + 1
  {}

  /** The distance to a stop in basis points of the price, rounded up; and a margin, rounded up. */
  lemma {:induction false} DistanceIsCeiled(price: nat, stop: nat, notional: int, leverage: Quantity)
    requires price > 0
    ensures var d := StopDistanceBps(price, stop);
      d * price - price < (if stop <= price then price - stop else stop - price) * 10_000 <= d * price
    ensures var m := CeilSigned(notional, leverage); m * leverage - leverage < notional <= m * leverage
  {
    CeilBounds(Abs(price - stop) * 10_000, price);
    DivBounds(-notional, leverage);
  }

  /** The account at the mark: the balance, and the profit an open position would book now. */
  lemma {:induction false} EquityIsMarked(l: Ledger)
    ensures l.positions == [] ==> EquityCents(l) == l.balance
    ensures forall p :: l.positions == [p] ==> EquityCents(l) == l.balance + PnlCents(p.side, p.entryPriceCents, l.mark, p.quantityUnits)
  {
    hide PnlCents;
    if |l.positions| == 1 {
      assert l.positions[1..] == [] && OpenPnl([], l.mark) == 0;
      assert forall p :: l.positions == [p] ==> p == l.positions[0];
    }
  }

  /** What is at risk: the loss from the mark to the stop, if there is any left, and the stressed cost of leaving. */
  lemma {:induction false} RiskIsDistance(l: Ledger)
    ensures l.positions == [] ==> OpenRisk(l.positions, l.mark, l.policy) == 0
    ensures forall p :: l.positions == [p] ==>
      var exit := ApplyBps(NotionalCents(l.mark, p.quantityUnits), l.policy.stressedExitCostBps);
      var loss := if p.side.Long? then l.mark - p.stopPriceCents else p.stopPriceCents - l.mark;
      IsNearest(OpenRisk(l.positions, l.mark, l.policy) - exit, if loss > 0 then loss * p.quantityUnits else 0, QUANTITY_SCALE)
  {
    hide ApplyBps, NotionalCents, IsNearest, Round;
    if |l.positions| == 1 {
      var p := l.positions[0];
      assert l.positions[1..] == [] && OpenRisk([], l.mark, l.policy) == 0;
      var loss := if p.side.Long? then l.mark - p.stopPriceCents else p.stopPriceCents - l.mark;
      RoundIsNearest(Max(0, loss) * p.quantityUnits, QUANTITY_SCALE);
      assert loss <= 0 ==> Max(0, loss) * p.quantityUnits == 0;
    }
  }

  // ---------------------------------------------------------------- the snapshot

  /** The floor is the highest of the standing one and, once reached, the day's target; nothing at zero or below. */
  predicate IsRaised(standing: Option<int>, reached: bool, target: int, floor: Option<int>) {
    && (floor.None? <==> standing.None? && (!reached || target <= 0))
    && (floor.Some? ==>
      && (standing.Some? ==> floor.value >= standing.value) && (reached ==> floor.value >= target)
      && (floor == standing || (reached && floor.value == target)))
  }

  /** Every number and every reason of a snapshot. */
  lemma {:induction false} SnapshotMeaning(l: Ledger, day: string)
    requires day in l.daily ==> DayHolds(l.daily[day])
    ensures var s, limit := TakeSnapshot(l, day), l.policy.usableBalanceLimitCents;
      var equity := EquityCents(l);
      var d := if day in l.daily then l.daily[day] else DailyState(equity, equity, false, None);
      var startPot := UsablePot(d.startEquityCents, limit);
      var target := d.startEquityCents + ApplyBps(startPot, l.policy.dailyLockTargetBps);
      && s.openRisk == OpenRisk(l.positions, l.mark, l.policy) && s.protectedEquity == equity - s.openRisk
      && IsPot(s.usablePot, equity, limit) && IsPot(startPot, d.startEquityCents, limit)
      && IsNearest(d.startEquityCents - s.lossBoundary, startPot * l.policy.maxDailyLossBps, 10_000)
      && IsNearest(target - d.startEquityCents, startPot * l.policy.dailyLockTargetBps, 10_000)
      && IsRaised(d.activeFloorCents, s.protectedEquity >= target, target, s.daily.activeFloorCents)
      && s.daily.startEquityCents == d.startEquityCents && (s.daily.lockReached <==> s.daily.activeFloorCents.Some?)
      && s.daily.highWaterEquityCents == (if d.highWaterEquityCents < equity then equity else d.highWaterEquityCents)
      && (DailyLossBoundaryReached in s.reasons <==> s.protectedEquity <= s.lossBoundary)
      && (MaximumOpenRiskExceeded in s.reasons <==> s.openRisk > ApplyBps(s.usablePot, l.policy.maxOpenRiskBps))
      && (DailyLockFloorNotProtected in s.reasons <==> s.daily.activeFloorCents.Some? && s.protectedEquity < s.daily.activeFloorCents.value)
      && (UsablePotBelowMinimumNotional in s.reasons <==> s.usablePot < l.policy.minimumNotionalCents)
  {
    hide EquityCents, OpenRisk, ApplyBps, IsNearest, IsRaised, RaisedFloor;
    var d := DailyOf(l, day);
    var startPot := UsablePot(d.startEquityCents, l.policy.usableBalanceLimitCents);
    BpsIsNearest(startPot, l.policy.maxDailyLossBps);
    BpsIsNearest(startPot, l.policy.dailyLockTargetBps);
    var s := TakeSnapshot(l, day);
    var target := d.startEquityCents + ApplyBps(startPot, l.policy.dailyLockTargetBps);
    assert d.startEquityCents - s.lossBoundary == ApplyBps(startPot, l.policy.maxDailyLossBps);
    assert target - d.startEquityCents == ApplyBps(startPot, l.policy.dailyLockTargetBps);
    RaisedIsRaised(d.activeFloorCents, s.protectedEquity >= target, target);
  }

  lemma {:induction false} RaisedIsRaised(standing: Option<int>, reached: bool, target: int)
    requires standing.Some? ==> standing.value > 0
    ensures IsRaised(standing, reached, target, RaisedFloor(standing, if reached then Some(target) else None))
  {}

  // ---------------------------------------------------------------- closing

  /** A close as it must be booked: the exact gain to half a cent, the part of the entry fee that goes with the
      quantity, half the round trip on what is sold, and the rest net. */
  predicate IsTrade(t: Trade, p: Position, quantity: nat, exit: nat, policy: Policy) {
    && t.trancheId == p.trancheId && t.side == p.side && t.quantityUnits == quantity && t.entryPriceCents == p.entryPriceCents && t.exitPriceCents == exit
    && IsNearest(t.grossPnlCents, (if p.side.Long? then exit - p.entryPriceCents else p.entryPriceCents - exit) * quantity, QUANTITY_SCALE)
    && IsNearest(t.entryFeeCents, p.entryFeeCents * quantity, p.quantityUnits)
    && t.exitFeeCents == ApplyBps(NotionalCents(exit, quantity), HalfCostBps(policy))
    && t.netPnlCents == t.grossPnlCents - t.entryFeeCents - t.exitFeeCents
  }

  /** What a close books: one such trade, and its profit less its fee. */
  predicate Books(l: Ledger, x: Ledger, p: Position, quantity: nat, exit: nat) {
    && |x.trades| == |l.trades| + 1 && x.trades[..|l.trades|] == l.trades
    && var t := x.trades[|l.trades|];
    && IsTrade(t, p, quantity, exit, l.policy) && x.balance == l.balance + t.grossPnlCents - t.exitFeeCents
    // a winning close never books a loss, and a losing one never a gain
    && ((if p.side.Long? then exit >= p.entryPriceCents else exit <= p.entryPriceCents) ==> x.balance >= l.balance - t.exitFeeCents)
    && ((if p.side.Long? then exit <= p.entryPriceCents else exit >= p.entryPriceCents) ==> x.balance <= l.balance - t.exitFeeCents)
    && x.mark == l.mark && x.policy == l.policy && x.gatewayEnabled == l.gatewayEnabled
  }

  lemma {:induction false} CloseBooks(l: Ledger, p: Position, quantity: nat, exit: nat, day: string)
    requires quantity <= p.quantityUnits
    ensures Books(l, Closed(l, p, quantity, exit, day), p, quantity, exit) && Closed(l, p, quantity, exit, day).running == l.running
  {
    hide TakeSnapshot, PnlCents, ApplyBps, NotionalCents, Without, Replacing, HalfCostBps, IsNearest;
    PnlIsGain(p.side, p.entryPriceCents, exit, quantity);
    RoundIsNearest(p.entryFeeCents * quantity, p.quantityUnits);
    assert (l.trades + [TradeOf(p, quantity, exit, l.policy)])[..|l.trades|] == l.trades;
  }

  /** The whole position closed: one trade, nothing left. */
  predicate ClosesAt(l: Ledger, x: Ledger, p: Position, exit: nat) { Books(l, x, p, p.quantityUnits, exit) && x.positions == [] }

  lemma {:induction false} CloseOnly(l: Ledger, p: Position, exit: nat, day: string)
    requires l.positions == [p]
    ensures ClosesAt(l, Closed(l, p, p.quantityUnits, exit, day), p, exit) && Closed(l, p, p.quantityUnits, exit, day).running == l.running
  {
    hide Books, TakeSnapshot, TradeOf;
    CloseBooks(l, p, p.quantityUnits, exit, day);
    WithoutOnly(p);
  }

  lemma {:induction false} FlattenOutcome(l: Ledger, p: Position, day: string)
    requires l.positions == [p]
    ensures ClosesAt(l, Flattened(l, day), p, l.mark) && !Flattened(l, day).running
  {
    hide Closed, TakeSnapshot, IsTrade;
    var start := l.(running := false);
    CloseOnly(start, p, l.mark, day);
    assert [p][1..] == [];
    assert AllClosed(Closed(start, p, p.quantityUnits, l.mark, day), [], l.mark, day) == Closed(start, p, p.quantityUnits, l.mark, day);
    assert AllClosed(start, [p], l.mark, day) == Closed(start, p, p.quantityUnits, l.mark, day);
  }

  // ---------------------------------------------------------------- a mark move

  predicate StopTouched(p: Position, mark: nat) { if p.side.Long? then mark <= p.stopPriceCents else mark >= p.stopPriceCents }

  predicate TargetTouched(p: Position, mark: nat) { if p.side.Long? then mark >= p.targetPriceCents else mark <= p.targetPriceCents }

  /** Above the loss boundary, and at the floor where there is one. */
  predicate IsProtected(s: Snapshot) {
    s.protectedEquity > s.lossBoundary && (s.daily.activeFloorCents.Some? ==> s.protectedEquity >= s.daily.activeFloorCents.value)
  }

  /** So a position is flattened exactly when it is not protected. */
  lemma {:induction false} FlattenDecides(l: Ledger, s: Snapshot)
    ensures MustFlatten(l, s) <==> l.positions != [] && !IsProtected(s)
  {}

  /** A touched stop is closed at the mark, however far the mark has jumped past it; a touched target at the
      target; and what is touched by neither stays, unless the guards flatten it at the mark and stop the runtime. */
  lemma {:induction false} MarkOutcome(l: Ledger, p: Position, mark: nat, day: string)
    requires l.positions == [p]
    ensures var x, moved := Marked(l, mark, day), l.(mark := mark);
      if StopTouched(p, mark) then ClosesAt(moved, x, p, mark) && x.running == l.running
      else if TargetTouched(p, mark) then ClosesAt(moved, x, p, p.targetPriceCents) && x.running == l.running
      else if !IsProtected(TakeSnapshot(moved, day)) then ClosesAt(moved, x, p, mark) && !x.running
      else x == moved.(daily := x.daily)
  {
    hide Closed, TakeSnapshot, Flattened, ClosesAt;
    var moved := l.(mark := mark);
    var exit := ExitPrice(p, mark);
    assert [p][1..] == [];
    var touched := TouchedClosed(moved, [p], mark, day);
    if exit.Some? {
      CloseOnly(moved, p, exit.value, day);
      assert touched == Closed(moved, p, p.quantityUnits, exit.value, day) by {
        assert TouchedClosed(Closed(moved, p, p.quantityUnits, exit.value, day), [], mark, day) == Closed(moved, p, p.quantityUnits, exit.value, day);
      }
      ClosesAndStays(moved, touched, p, exit.value, day);
    } else {
      assert touched == moved by { assert TouchedClosed(moved, [], mark, day) == moved; }
      FlattenOutcome(Snapped(moved, day), p, day);
      FlattenedLater(moved, p, day);
    }
  }

  /** Recording the day changes nothing else. */
  lemma {:induction false} ClosesAndStays(l: Ledger, x: Ledger, p: Position, exit: nat, day: string)
    requires ClosesAt(l, x, p, exit)
    ensures x.positions == [] && ClosesAt(l, Snapped(Snapped(x, day), day), p, exit) && Snapped(Snapped(x, day), day).running == x.running
  {
    hide TakeSnapshot, IsTrade;
  }

  lemma {:induction false} FlattenedLater(l: Ledger, p: Position, day: string)
    requires ClosesAt(Snapped(l, day), Flattened(Snapped(l, day), day), p, l.mark) && !Flattened(Snapped(l, day), day).running
    ensures var x := Snapped(Flattened(Snapped(l, day), day), day); ClosesAt(l, x, p, l.mark) && !x.running
  {
    hide TakeSnapshot, IsTrade, Flattened;
  }

  // ---------------------------------------------------------------- an entry

  /** What an order asks for, within the policy. */
  function RiskBpsOf(l: Ledger, order: EntryOrder): int {
    if order.riskBps.Some? && order.riskBps.value < l.policy.maxTradeRiskBps then order.riskBps.value else l.policy.maxTradeRiskBps
  }

  function LeverageOf(l: Ledger, order: EntryOrder): int {
    if order.leverage.Some? && order.leverage.value < l.policy.maxLeverage then order.leverage.value else l.policy.maxLeverage
  }

  function LossBps(l: Ledger, order: EntryOrder): nat
    requires l.mark > 0
  {
    StopDistanceBps(l.mark, order.stop) + l.policy.estimatedRoundTripCostBps
  }

  /** A quantity whose notional, rounded up, loses no more than the budget and needs no more than the margin. */
  predicate Fits(quantity: nat, mark: nat, lossBps: nat, budget: int, margin: int) {
    var notional := Ceil(mark * quantity, QUANTITY_SCALE);
    notional * lossBps <= budget * 10_000 && notional <= margin
  }

  /** The largest quantity on the step grid that fits: every smaller one fits too, and no larger one does. */
  ghost predicate LargestFit(quantity: int, step: nat, mark: nat, lossBps: nat, budget: int, margin: int)
    requires step > 0
  {
    IsMultiple(quantity, step) && forall q: nat | IsMultiple(q, step) :: Fits(q, mark, lossBps, budget, margin) <==> q <= quantity
  }

  lemma {:induction false} ChosenIsLargest(step: nat, mark: nat, lossBps: nat, budget: int, margin: nat)
    requires step > 0 && mark > 0 && lossBps > 0
    ensures LargestFit(((Min((budget * 10_000) / lossBps, margin) * QUANTITY_SCALE) / mark / step) * step, step, mark, lossBps, budget, margin)
  {
    hide Ceil;
    var limit := Min((budget * 10_000) / lossBps, margin);
    var raw := (limit * QUANTITY_SCALE) / mark;
    ProductIsMultiple(raw / step, step);
    forall q: nat | IsMultiple(q, step)
      ensures Fits(q, mark, lossBps, budget, margin) <==> q <= (raw / step) * step
    {
      var n := Ceil(mark * q, QUANTITY_SCALE);
      FloorAdjunction(n, budget * 10_000, lossBps);
      CeilAdjunction(mark * q, QUANTITY_SCALE, limit);
      FloorAdjunction(q, limit * QUANTITY_SCALE, mark);
      assert mark * q == q * mark;
      MultipleBelow(q, raw, step);
    }
  }

  lemma {:induction false} MultipleBelow(q: nat, raw: int, step: nat)
    requires step > 0 && IsMultiple(q, step)
    ensures q <= raw <==> q <= (raw / step) * step
  {
    var k := MultipleWitness(q, step);
    FloorAdjunction(k, raw, step);
    MulOrder(k, raw / step, step);
  }

  /** A quantity the account may open: the largest that fits, of the minimum size, and leaving open risk, loss
      boundary and floor respected. */
  ghost predicate Admissible(l: Ledger, s: Snapshot, order: EntryOrder, quantity: int)
    requires l.mark > 0 && l.policy.quantityStepUnits > 0
  {
    var notional := NotionalCents(l.mark, quantity);
    var loss := ApplyBps(notional, LossBps(l, order));
    && quantity > 0 && LeverageOf(l, order) >= 1 && RiskBpsOf(l, order) > 0 && LossBps(l, order) > 0
    && LargestFit(quantity, l.policy.quantityStepUnits, l.mark, LossBps(l, order), ApplyBps(s.usablePot, RiskBpsOf(l, order)),
                  FreeMargin(l, s) * LeverageOf(l, order))
    && notional >= l.policy.minimumNotionalCents
    && s.openRisk + loss <= ApplyBps(s.usablePot, l.policy.maxOpenRiskBps)
    && s.protectedEquity - loss > s.lossBoundary
    && (s.daily.activeFloorCents.Some? ==> s.protectedEquity - loss >= s.daily.activeFloorCents.value)
  }

  function FreeMargin(l: Ledger, s: Snapshot): int {
    var free := s.usablePot - UsedMargin(l.positions, l.mark);
    if free > 0 then free else 0
  }

  /** A sizing is returned exactly when some quantity is admissible, and then it is that one, at its own numbers. */
  lemma {:induction false} SizeDecides(l: Ledger, s: Snapshot, order: EntryOrder)
    requires l.mark > 0 && l.policy.quantityStepUnits > 0
    ensures forall q: int :: Admissible(l, s, order, q) ==> Size(l, s, order).Some? && Size(l, s, order).value.quantityUnits == q
    ensures Size(l, s, order).Some? ==>
      var z := Size(l, s, order).value;
      && Admissible(l, s, order, z.quantityUnits)
      && z.notionalCents == NotionalCents(l.mark, z.quantityUnits) && z.leverage == LeverageOf(l, order)
      && z.marginCents == CeilSigned(z.notionalCents, z.leverage)
      && z.riskBudgetCents == ApplyBps(s.usablePot, RiskBpsOf(l, order))
      && z.plannedLossCents == ApplyBps(z.notionalCents, LossBps(l, order))
  {
    hide NotionalCents, ApplyBps, StopDistanceBps, CeilSigned, LargestFit, UsedMargin;
    var lossBps, leverage := LossBps(l, order), LeverageOf(l, order);
    if leverage >= 1 && lossBps > 0 && RiskBpsOf(l, order) > 0 {
      var budget, margin := ApplyBps(s.usablePot, RiskBpsOf(l, order)), FreeMargin(l, s) * leverage;
      assert margin >= 0;
      ChosenIsLargest(l.policy.quantityStepUnits, l.mark, lossBps, budget, margin);
      var chosen := ((Min((budget * 10_000) / lossBps, margin) * QUANTITY_SCALE) / l.mark / l.policy.quantityStepUnits) * l.policy.quantityStepUnits;
      forall q: int | q > 0 && LargestFit(q, l.policy.quantityStepUnits, l.mark, lossBps, budget, margin)
        ensures q == chosen
      {
        LargestIsUnique(q, chosen, l.policy.quantityStepUnits, l.mark, lossBps, budget, margin);
      }
    }
  }

  lemma {:induction false} LargestIsUnique(q: int, r: int, step: nat, mark: nat, lossBps: nat, budget: int, margin: int)
    requires step > 0 && q > 0 && LargestFit(q, step, mark, lossBps, budget, margin) && LargestFit(r, step, mark, lossBps, budget, margin)
    ensures q == r
  {
    hide Fits;
    assert Fits(q, mark, lossBps, budget, margin);
    assert r > 0;
  }

  /** When an entry is accepted, and what it leaves: exactly one position at the mark under the order's stop and
      target, paid for with half the round trip; a refused one leaves everything but the day's record. */
  lemma {:induction false} EntryOutcome(l: Ledger, order: EntryOrder, day: string)
    requires l.mark > 0
    ensures var (x, z) := Entered(l, order, day);
      && (z.Some? <==>
            && l.running && l.gatewayEnabled && l.positions == [] && TakeSnapshot(l, day).reasons == {}
            && (if order.side.Long? then order.stop < l.mark < order.target else order.target < l.mark < order.stop)
            && Size(l, TakeSnapshot(l, day), order).Some?)
      && (z.None? ==> x == l.(daily := x.daily))
      && (z.Some? ==>
            && z == Size(l, TakeSnapshot(l, day), order)
            && var fee := ApplyBps(z.value.notionalCents, HalfCostBps(l.policy));
            x == l.(daily := x.daily, balance := l.balance - fee,
                    positions := [Position(order.trancheId, order.side, z.value.quantityUnits, l.mark, order.stop, order.target, z.value.leverage, fee)]))
  {
    hide TakeSnapshot, Size, ApplyBps, HalfCostBps;
    SnapshotIsIdempotent(l, day);
    SizeIgnoresDays(l, Snapped(l, day), TakeSnapshot(l, day), order);
  }

  lemma {:induction false} SizeIgnoresDays(l: Ledger, x: Ledger, s: Snapshot, order: EntryOrder)
    requires l.mark > 0 && x == l.(daily := x.daily)
    ensures Size(x, s, order) == Size(l, s, order)
  {
    hide NotionalCents, ApplyBps, StopDistanceBps, CeilSigned, UsedMargin;
  }

  // ---------------------------------------------------------------- amendments and partial closes

  /** A stop moves exactly when it stays on its side of the mark and the amended account keeps the policy; nothing
      else changes, and a refused move changes nothing at all. */
  lemma {:induction false} StopMoveOutcome(l: Ledger, p: Position, stop: nat, day: string)
    requires l.positions == [p]
    ensures var (x, accepted) := StopMoved(l, p.trancheId, stop, day);
      var amended := l.(positions := [p.(stopPriceCents := stop)]);
      && (accepted <==>
            && (if p.side.Long? then stop < l.mark else stop > l.mark)
            && MaximumOpenRiskExceeded !in TakeSnapshot(amended, day).reasons && DailyLockFloorNotProtected !in TakeSnapshot(amended, day).reasons
            && DailyLossBoundaryReached !in TakeSnapshot(amended, day).reasons)
      && (accepted ==> x == Snapped(amended, day)) && (!accepted ==> x == l)
  {
    hide TakeSnapshot;
    WithoutOnly(p);
    assert [p][0] == p;
    var reasons := TakeSnapshot(l.(positions := [p.(stopPriceCents := stop)]), day).reasons;
    assert forall r :: r in reasons * STOP_REASONS <==> r in reasons && r in STOP_REASONS;
    if reasons * STOP_REASONS != {} {
      var r :| r in reasons * STOP_REASONS;
      assert r in reasons;
    }
  }

  lemma {:induction false} TargetMoveOutcome(l: Ledger, p: Position, target: nat)
    requires l.positions == [p]
    ensures var (x, accepted) := TargetMoved(l, p.trancheId, target);
      && (accepted <==> if p.side.Long? then target > l.mark else target < l.mark)
      && x == (if accepted then l.(positions := [p.(targetPriceCents := target)]) else l)
  {
    WithoutOnly(p);
    assert [p][0] == p;
  }

  /** A partial close takes the largest step multiple within its share, and is refused exactly when that is
      nothing or would leave less than a step. */
  lemma {:induction false} PartialDecides(p: Position, percent: real, step: nat, q: nat)
    requires 0.0 < percent < 100.0 && step > 0 && IsMultiple(q, step)
    requires forall x: nat | IsMultiple(x, step) :: x as real <= Share(p.quantityUnits, percent) <==> x <= q
    ensures PartialQuantity(p, percent, step) == if 0 < q && q + step <= p.quantityUnits then Some(q) else None
  {
    hide Share;
    var share := Share(p.quantityUnits, percent);
    var chosen := (share.Floor / step) * step;
    assert share >= 0.0 by { ShareIsNonnegative(p.quantityUnits, percent); }
    ProductIsMultiple(share.Floor / step, step);
    DivBounds(share.Floor, step);
    FloorAtMostReal(share);
    MultipleBelow(q, share.Floor, step);
    assert q as real <= share && chosen as real <= share;
    assert q <= share.Floor;
  }

  lemma {:induction false} ShareIsNonnegative(quantity: nat, percent: real)
    requires percent > 0.0
    ensures Share(quantity, percent) >= 0.0
  {}
}
