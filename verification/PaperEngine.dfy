/** The paper trading engine itself: the stored account, changed step by step, proved against the account
    functions and their invariant. Each method is one call run to its end. */
module PaperEngine {
  import opened Wrappers
  import opened Rounding
  import opened RiskPolicy
  import opened PaperLedger
  import PaperNumbers

  class Engine {
    const initialEquityCents: int
    var balance: int
    var mark: nat
    var positions: seq<Position>
    var trades: seq<Trade>
    var daily: map<string, DailyState>
    var policy: Policy
    var running: bool
    var gatewayEnabled: bool

    /** The stored account as a value. */
    ghost function Value(): Ledger
      reads this
    {
      Ledger(balance, mark, positions, trades, daily, policy, running, gatewayEnabled)
    }

    ghost predicate Valid()
      reads this
    {
      Invariant(Value(), initialEquityCents)
    }

    /** What every operation keeps: each cent accounted for, at most one straddled position, no day's floor lowered. */
    twostate predicate Kept()
      reads this
    {
      Valid() && DaysGrow(old(daily), daily)
    }

    constructor (initialEquityCents: int, mark: nat, policy: Policy)
      requires policy.Valid()
      ensures Valid() && this.initialEquityCents == initialEquityCents
      ensures Value() == Ledger(initialEquityCents, mark, [], [], map[], policy, false, true)
    {
      this.initialEquityCents, balance, this.mark, this.policy := initialEquityCents, initialEquityCents, mark, policy;
      positions, trades, daily, running, gatewayEnabled := [], [], map[], false, true;
    }

    /** `snapshot`: reads the account, and records the day. */
    method Snapshot(day: string) returns (s: PaperLedger.Snapshot)
      modifies this`daily
      ensures s == TakeSnapshot(old(Value()), day) && Value() == Snapped(old(Value()), day)
    {
      hide PositionRisk, PnlCents, ApplyBps;
      var equity, openRisk := balance, 0;
      for i := 0 to |positions|
        invariant equity + OpenPnl(positions[i..], mark) == EquityCents(Value())
        invariant openRisk + OpenRisk(positions[i..], mark, policy) == OpenRisk(positions, mark, policy)
      {
        var p := positions[i];
        assert positions[i..][0] == p && positions[i..][1..] == positions[i + 1..];
        equity := equity + PnlCents(p.side, p.entryPriceCents, mark, p.quantityUnits);
        openRisk := openRisk + PositionRisk(p, mark, policy);
      }
      assert OpenPnl(positions[|positions|..], mark) == 0 && OpenRisk(positions[|positions|..], mark, policy) == 0;
      var protectedEquity := equity - openRisk;
      var today := if day in daily then daily[day] else DailyState(equity, equity, false, None);
      var startPot := UsablePot(today.startEquityCents, policy.usableBalanceLimitCents);
      var pot := UsablePot(equity, policy.usableBalanceLimitCents);
      var target := today.startEquityCents + ApplyBps(startPot, policy.dailyLockTargetBps);
      var floor := RaisedFloor(today.activeFloorCents, if protectedEquity >= target then Some(target) else None);
      var boundary := today.startEquityCents - ApplyBps(startPot, policy.maxDailyLossBps);
      var reasons: set<Reason> := {};
      if protectedEquity <= boundary { reasons := reasons + {DailyLossBoundaryReached}; }
      if openRisk > ApplyBps(pot, policy.maxOpenRiskBps) { reasons := reasons + {MaximumOpenRiskExceeded}; }
      if floor.Some? && protectedEquity < floor.value { reasons := reasons + {DailyLockFloorNotProtected}; }
      if pot < policy.minimumNotionalCents { reasons := reasons + {UsablePotBelowMinimumNotional}; }
      today := DailyState(today.startEquityCents, Max(today.highWaterEquityCents, equity), floor.Some?, floor);
      daily := daily[day := today];
      s := PaperLedger.Snapshot(pot, boundary, openRisk, protectedEquity, today, reasons);
    }

    /** `closeQuantity`. */
    method CloseQuantity(p: Position, quantity: nat, exit: nat, day: string)
      requires quantity <= p.quantityUnits
      modifies this
      ensures Value() == Closed(old(Value()), p, quantity, exit, day)
      // the exact gain to half a cent is booked, with its sign, and charged its fee
      ensures PaperNumbers.Books(old(Value()), Value(), p, quantity, exit)
    {
      hide TakeSnapshot, PnlCents, NotionalCents, ApplyBps, Without, Replacing, PaperNumbers.Books;
      PaperNumbers.CloseBooks(Value(), p, quantity, exit, day);
      var gross := PnlCents(p.side, p.entryPriceCents, exit, quantity);
      var fee := AllocatedFee(p, quantity);
      var exitFee := ApplyBps(NotionalCents(exit, quantity), HalfCostBps(policy));
      var trade := Trade(p.trancheId, p.side, quantity, p.entryPriceCents, exit, gross, fee, exitFee, gross - fee - exitFee);
      balance := balance + gross - exitFee;
      var remaining := p.quantityUnits - quantity;
      if remaining == 0 {
        positions := Without(positions, p.trancheId);
      } else {
        positions := Replacing(positions, p.(quantityUnits := remaining, entryFeeCents := p.entryFeeCents - fee));
      }
      trades := trades + [trade];
      var _ := Snapshot(day);
    }

    /** `flattenAll`: always ends flat and stopped. */
    method FlattenAll(day: string)
      requires Sound(Value(), initialEquityCents)
      modifies this
      ensures Value() == Flattened(old(Value()), day)
      ensures Kept() && positions == [] && !running
    {
      hide TakeSnapshot, Closed, Sound, Invariant, DaysGrow;
      ghost var before := Value();
      FlattenKeeps(before, day, initialEquityCents);
      running := false;
      var open, exit := positions, mark;
      ghost var start := Value();
      for i := 0 to |open|
        invariant AllClosed(Value(), open[i..], exit, day) == AllClosed(start, open, exit, day)
        invariant mark == exit
      {
        assert open[i..][0] == open[i] && open[i..][1..] == open[i + 1..];
        ClosedMark(Value(), open[i], open[i].quantityUnits, exit, day);
        CloseQuantity(open[i], open[i].quantityUnits, exit, day);
      }
      var _ := Snapshot(day);
    }

    /** `updatePaperMark`: positions the new mark touches are closed, and everything is when the protected equity
        has reached the loss boundary or fallen below the day's floor. */
    method UpdatePaperMark(markPriceCents: nat, day: string)
      requires Valid()
      modifies this
      ensures Value() == Marked(old(Value()), markPriceCents, day)
      // a touched stop closes at the mark, a touched target at the target
      ensures forall p :: old(positions) == [p] && PaperNumbers.StopTouched(p, markPriceCents) ==>
        PaperNumbers.ClosesAt(old(Value()).(mark := markPriceCents), Value(), p, markPriceCents)
      ensures forall p :: old(positions) == [p] && PaperNumbers.TargetTouched(p, markPriceCents) && !PaperNumbers.StopTouched(p, markPriceCents) ==>
        PaperNumbers.ClosesAt(old(Value()).(mark := markPriceCents), Value(), p, p.targetPriceCents)
      ensures Kept() && (positions == [] || PaperNumbers.IsProtected(TakeSnapshot(Value(), day)))
    {
      hide TakeSnapshot, Closed, Sound, Invariant, DaysGrow, Flattened, PaperNumbers.StopTouched, PaperNumbers.TargetTouched, PaperNumbers.ClosesAt,
        PaperNumbers.IsProtected;
      ghost var before := Value();
      if |positions| == 1 { PaperNumbers.MarkOutcome(before, positions[0], markPriceCents, day); }
      PaperNumbers.FlattenDecides(Marked(before, markPriceCents, day), TakeSnapshot(Marked(before, markPriceCents, day), day));
      MarkKeeps(before, markPriceCents, day, initialEquityCents);
      mark := markPriceCents;
      var open := positions;
      ghost var start := Value();
      for i := 0 to |open|
        invariant TouchedClosed(Value(), open[i..], markPriceCents, day) == TouchedClosed(start, open, markPriceCents, day)
      {
        var p := open[i];
        assert open[i..][0] == p && open[i..][1..] == open[i + 1..];
        if p.side.Long? && markPriceCents <= p.stopPriceCents {
          CloseQuantity(p, p.quantityUnits, markPriceCents, day);
        } else if p.side.Short? && markPriceCents >= p.stopPriceCents {
          CloseQuantity(p, p.quantityUnits, markPriceCents, day);
        } else if p.side.Long? && markPriceCents >= p.targetPriceCents {
          CloseQuantity(p, p.quantityUnits, p.targetPriceCents, day);
        } else if p.side.Short? && markPriceCents <= p.targetPriceCents {
          CloseQuantity(p, p.quantityUnits, p.targetPriceCents, day);
        }
      }
      ghost var touched := Value();
      var risk := Snapshot(day);
      TouchedIsSound(before, markPriceCents, day, initialEquityCents);
      if positions != [] && (risk.protectedEquity <= risk.lossBoundary
        || (risk.daily.activeFloorCents.Some? && risk.protectedEquity < risk.daily.activeFloorCents.value)) {
        FlattenAll(day);
      }
      var _ := Snapshot(day);
    }

    /** `calculateEntrySizing` at the mark. */
    method CalculateEntrySizing(order: EntryOrder, day: string) returns (z: Option<Sizing>)
      requires mark > 0
      modifies this`daily
      ensures Value() == Snapped(old(Value()), day)
      ensures z == Size(Value(), TakeSnapshot(old(Value()), day), order)
    {
      hide TakeSnapshot, ApplyBps, NotionalCents, CeilSigned, StopDistanceBps;
      var risk := Snapshot(day);
      var lossBps := StopDistanceBps(mark, order.stop) + policy.estimatedRoundTripCostBps;
      var riskBps := Min(if order.riskBps.Some? then order.riskBps.value else policy.maxTradeRiskBps, policy.maxTradeRiskBps);
      var leverage := Min(if order.leverage.Some? then order.leverage.value else policy.maxLeverage, policy.maxLeverage);
      if lossBps <= 0 || riskBps <= 0 || leverage < 1 || policy.quantityStepUnits == 0 { return None; }
      var usedMargin := 0;
      for i := 0 to |positions|
        invariant usedMargin + UsedMargin(positions[i..], mark) == UsedMargin(positions, mark)
      {
        assert positions[i..][0] == positions[i] && positions[i..][1..] == positions[i + 1..];
        usedMargin := usedMargin + CeilSigned(NotionalCents(mark, positions[i].quantityUnits), positions[i].leverage);
      }
      assert UsedMargin(positions[|positions|..], mark) == 0;
      var budget := ApplyBps(risk.usablePot, riskBps);
      var byRisk := (budget * 10_000) / lossBps;
      var byMargin := Max(0, risk.usablePot - usedMargin) * leverage;
      var raw := (Min(byRisk, byMargin) * QUANTITY_SCALE) / mark;
      var quantity := (raw / policy.quantityStepUnits) * policy.quantityStepUnits;
      var notional := NotionalCents(mark, quantity);
      var loss := ApplyBps(notional, lossBps);
      if quantity <= 0 || notional < policy.minimumNotionalCents { return None; }
      if risk.openRisk + loss > ApplyBps(risk.usablePot, policy.maxOpenRiskBps) { return None; }
      if risk.protectedEquity - loss <= risk.lossBoundary { return None; }
      if risk.daily.activeFloorCents.Some? && risk.protectedEquity - loss < risk.daily.activeFloorCents.value { return None; }
      z := Some(Sizing(quantity, notional, CeilSigned(notional, leverage), budget, loss, leverage));
    }

    /** `enter`: with the paper venue's confirmed fill at the mark. */
    method EnterPosition(order: EntryOrder, day: string) returns (z: Option<Sizing>)
      requires Valid()
      modifies this
      ensures (Value(), z) == Entered(old(Value()), order, day)
      // the largest quantity that fits the budget and the margin, and only while every guard holds
      ensures z.Some? ==> old(mark) > 0 && PaperNumbers.Admissible(old(Value()), TakeSnapshot(old(Value()), day), order, z.value.quantityUnits)
      ensures Kept()
    {
      hide TakeSnapshot, Size, Invariant, DaysGrow, ApplyBps, HalfCostBps, PaperNumbers.Admissible;
      PolicyHolds(Value(), initialEquityCents);
      if mark > 0 {
        PaperNumbers.EntryOutcome(Value(), order, day);
        PaperNumbers.SizeDecides(Value(), TakeSnapshot(Value(), day), order);
      }
      EnterKeeps(Value(), order, day, initialEquityCents);
      Unchanged(Value(), initialEquityCents);
      z := None;
      if !running || !gatewayEnabled || |positions| > 0 { return; }
      var risk := Snapshot(day);
      if risk.reasons != {} { return; }
      if !StopSideValid(order.side, mark, order.stop) || !TargetSideValid(order.side, mark, order.target) { return; }
      z := CalculateEntrySizing(order, day);
      if z.None? { return; }
      var entryFee := ApplyBps(z.value.notionalCents, HalfCostBps(policy));
      balance := balance - entryFee;
      positions := positions + [Position(order.trancheId, order.side, z.value.quantityUnits, mark, order.stop, order.target, z.value.leverage, entryFee)];
      var _ := Snapshot(day);
    }

    /** `moveStop`: in a transaction, rolled back when the amended account would break the policy. */
    method MoveStopTo(id: string, stop: nat, day: string) returns (accepted: bool)
      requires Valid()
      modifies this
      ensures (Value(), accepted) == StopMoved(old(Value()), id, stop, day)
      ensures Kept()
    {
      hide TakeSnapshot, Invariant, DaysGrow, Replacing;
      StopMoveKeeps(Value(), id, stop, day, initialEquityCents);
      accepted := false;
      var position := Find(positions, id);
      if position.None? || !StopSideValid(position.value.side, mark, stop) { return; }
      var savedPositions, savedDaily := positions, daily;
      positions := Replacing(positions, position.value.(stopPriceCents := stop));
      var snapshot := Snapshot(day);
      if snapshot.reasons * STOP_REASONS != {} {
        positions, daily := savedPositions, savedDaily;
      } else {
        accepted := true;
      }
    }

    /** `moveTarget`. */
    method MoveTargetTo(id: string, target: nat) returns (accepted: bool)
      requires Valid()
      modifies this
      ensures (Value(), accepted) == TargetMoved(old(Value()), id, target)
      ensures Kept()
    {
      hide Invariant, DaysGrow, Replacing;
      TargetMoveKeeps(Value(), id, target, initialEquityCents);
      accepted := false;
      var position := Find(positions, id);
      if position.None? || !TargetSideValid(position.value.side, mark, target) { return; }
      positions := Replacing(positions, position.value.(targetPriceCents := target));
      accepted := true;
    }

    /** `reduce`. */
    method ReducePosition(id: string, percent: real, day: string) returns (accepted: bool)
      requires Valid() && 0.0 < percent < 100.0
      modifies this
      ensures (Value(), accepted) == Reduced(old(Value()), id, percent, day)
      ensures Kept()
    {
      hide Invariant, DaysGrow, Closed, Share;
      OperationKeeps(Value(), Reduce(id, percent), day, initialEquityCents);
      accepted := false;
      var position := Find(positions, id);
      if position.None? || policy.quantityStepUnits == 0 { return; }
      var requested := Share(position.value.quantityUnits, percent).Floor;
      var quantity := (requested / policy.quantityStepUnits) * policy.quantityStepUnits;
      if quantity <= 0 || quantity >= position.value.quantityUnits { return; }
      if position.value.quantityUnits - quantity < policy.quantityStepUnits { return; }
      CloseQuantity(position.value, quantity, mark, day);
      accepted := true;
    }

    /** The `EXIT` intent. */
    method ExitPosition(id: string, day: string) returns (accepted: bool)
      requires Valid()
      modifies this
      ensures (Value(), accepted) == Exited(old(Value()), id, day)
      ensures Kept()
    {
      hide Invariant, DaysGrow, Closed;
      OperationKeeps(Value(), Exit(id), day, initialEquityCents);
      accepted := false;
      var position := Find(positions, id);
      if position.None? { return; }
      CloseQuantity(position.value, position.value.quantityUnits, mark, day);
      accepted := true;
    }

    /** `updatePolicy`, after the patch. */
    method SetPolicy(next: Policy, day: string) returns (accepted: bool)
      requires Valid()
      modifies this
      ensures (Value(), accepted) == PolicySet(old(Value()), next, day)
      ensures Kept()
    {
      hide Invariant, DaysGrow, TakeSnapshot;
      OperationKeeps(Value(), UpdatePolicy(next), day, initialEquityCents);
      accepted := next.Valid();
      if accepted {
        policy := next;
        var _ := Snapshot(day);
      }
    }

    /** `start`. */
    method StartRunning(day: string) returns (accepted: bool)
      requires Valid()
      modifies this
      ensures (Value(), accepted) == Started(old(Value()), day)
      ensures Kept()
    {
      hide Invariant, DaysGrow, TakeSnapshot;
      OperationKeeps(Value(), Start, day, initialEquityCents);
      accepted := gatewayEnabled;
      if accepted {
        running := true;
        var _ := Snapshot(day);
      }
    }

    /** `stop`. */
    method StopRunning(day: string)
      requires Valid()
      modifies this
      ensures Value() == Stopped(old(Value()), day)
      ensures Kept()
    {
      hide Invariant, DaysGrow, TakeSnapshot;
      OperationKeeps(Value(), Stop, day, initialEquityCents);
      running := false;
      var _ := Snapshot(day);
    }
  }

  lemma {:induction false} ClosedMark(l: Ledger, p: Position, quantity: nat, exit: nat, day: string)
    requires quantity <= p.quantityUnits
    ensures Closed(l, p, quantity, exit, day).mark == l.mark
  {}

  lemma {:induction false} TouchedIsSound(l: Ledger, mark: nat, day: string, initial: int)
    requires Invariant(l, initial)
    ensures Sound(Snapped(TouchedClosed(l.(mark := mark), l.positions, mark, day), day), initial)
  {
    hide TouchedClosed, TakeSnapshot, Sound;
    Remarked(l, mark, initial);
    TouchedKeeps(l.(mark := mark), mark, day, initial);
    SnappedIsSound(TouchedClosed(l.(mark := mark), l.positions, mark, day), initial, day);
  }
}
