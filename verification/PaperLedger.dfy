/** The paper account: entries, partial closes, mark moves and amendments of a stop or target, each as a
    function of the account, and what every run of them keeps. */
module PaperLedger {
  import opened Wrappers
  import opened Rounding
  import opened RiskPolicy

  datatype PositionSide = Long | Short

  type Quantity = n: nat | n > 0 witness 1

  datatype Position = Position(
    trancheId: string, side: PositionSide, quantityUnits: Quantity, entryPriceCents: nat,
    stopPriceCents: nat, targetPriceCents: nat, leverage: Quantity, entryFeeCents: int)

  datatype Trade = Trade(
    trancheId: string, side: PositionSide, quantityUnits: nat, entryPriceCents: nat, exitPriceCents: nat,
    grossPnlCents: int, entryFeeCents: int, exitFeeCents: int, netPnlCents: int)

  datatype Ledger = Ledger(
    balance: int, mark: nat, positions: seq<Position>, trades: seq<Trade>,
    daily: map<string, DailyState>, policy: Policy, running: bool, gatewayEnabled: bool)

  // ---------------------------------------------------------------- money

  function ApplyBps(value: int, bps: nat): int { Round(value * bps, 10_000) }

  function NotionalCents(price: nat, quantity: int): int { Round(price * quantity, QUANTITY_SCALE) }

  function PnlCents(side: PositionSide, entry: nat, exit: nat, quantity: nat): int {
    Round((if side.Long? then exit - entry else entry - exit) * quantity, QUANTITY_SCALE)
  }

  function HalfCostBps(policy: Policy): nat { Ceil(policy.estimatedRoundTripCostBps, 2) }

  // ---------------------------------------------------------------- risk

  function OpenPnl(positions: seq<Position>, mark: nat): int {
    if positions == [] then 0
    else PnlCents(positions[0].side, positions[0].entryPriceCents, mark, positions[0].quantityUnits) + OpenPnl(positions[1..], mark)
  }

  function EquityCents(l: Ledger): int { l.balance + OpenPnl(l.positions, l.mark) }

  /** Loss to the stop, plus the stressed cost of getting out at the mark. */
  function PositionRisk(p: Position, mark: nat, policy: Policy): int {
    var distance := Max(0, if p.side.Long? then mark - p.stopPriceCents else p.stopPriceCents - mark);
    Round(distance * p.quantityUnits, QUANTITY_SCALE) + ApplyBps(NotionalCents(mark, p.quantityUnits), policy.stressedExitCostBps)
  }

  function OpenRisk(positions: seq<Position>, mark: nat, policy: Policy): int {
    if positions == [] then 0 else PositionRisk(positions[0], mark, policy) + OpenRisk(positions[1..], mark, policy)
  }

  datatype Reason = DailyLossBoundaryReached | MaximumOpenRiskExceeded | DailyLockFloorNotProtected | UsablePotBelowMinimumNotional

  datatype Snapshot = Snapshot(
    usablePot: int, lossBoundary: int, openRisk: int, protectedEquity: int, daily: DailyState, reasons: set<Reason>)

  function DailyOf(l: Ledger, day: string): DailyState {
    if day in l.daily then l.daily[day] else DailyState(EquityCents(l), EquityCents(l), false, None)
  }

  /** `Math.max(old ?? 0, earned ?? 0) || null`. */
  function RaisedFloor(floor: Option<int>, earned: Option<int>): Option<int> {
    var raised := Max(if floor.Some? then floor.value else 0, if earned.Some? then earned.value else 0);
    if raised == 0 then None else Some(raised)
  }

  function If(condition: bool, reason: Reason): set<Reason> { if condition then {reason} else {} }

  function TakeSnapshot(l: Ledger, day: string): Snapshot {
    var equity := EquityCents(l);
    var openRisk := OpenRisk(l.positions, l.mark, l.policy);
    var protectedEquity := equity - openRisk;
    var daily := DailyOf(l, day);
    var startPot := UsablePot(daily.startEquityCents, l.policy.usableBalanceLimitCents);
    var pot := UsablePot(equity, l.policy.usableBalanceLimitCents);
    var target := daily.startEquityCents + ApplyBps(startPot, l.policy.dailyLockTargetBps);
    var floor := RaisedFloor(daily.activeFloorCents, if protectedEquity >= target then Some(target) else None);
    var boundary := daily.startEquityCents - ApplyBps(startPot, l.policy.maxDailyLossBps);
    Snapshot(pot, boundary, openRisk, protectedEquity,
             DailyState(daily.startEquityCents, Max(daily.highWaterEquityCents, equity), floor.Some?, floor),
             If(protectedEquity <= boundary, DailyLossBoundaryReached)
             + If(openRisk > ApplyBps(pot, l.policy.maxOpenRiskBps), MaximumOpenRiskExceeded)
             + If(floor.Some? && protectedEquity < floor.value, DailyLockFloorNotProtected)
             + If(pot < l.policy.minimumNotionalCents, UsablePotBelowMinimumNotional))
  }

  /** The account after a snapshot, which records the day. */
  function Snapped(l: Ledger, day: string): Ledger { l.(daily := l.daily[day := TakeSnapshot(l, day).daily]) }

  // ---------------------------------------------------------------- entry

  predicate StopSideValid(side: PositionSide, price: nat, stop: nat) { if side.Long? then stop < price else stop > price }

  predicate TargetSideValid(side: PositionSide, price: nat, target: nat) { if side.Long? then target > price else target < price }

  datatype EntryOrder = EntryOrder(trancheId: string, side: PositionSide, stop: nat, target: nat, riskBps: Option<int>, leverage: Option<int>)

  datatype Sizing = Sizing(quantityUnits: Quantity, notionalCents: int, marginCents: int, riskBudgetCents: int, plannedLossCents: int, leverage: Quantity)

  function UsedMargin(positions: seq<Position>, mark: nat): int {
    if positions == [] then 0
    else CeilSigned(NotionalCents(mark, positions[0].quantityUnits), positions[0].leverage) + UsedMargin(positions[1..], mark)
  }

  /** `Math.ceil(n / d)`. */
  function CeilSigned(n: int, d: Quantity): int { -((-n) / d) }

  function StopDistanceBps(price: nat, stop: nat): nat
    requires price > 0
  {
    Ceil(Abs(price - stop) * 10_000, price)
  }

  /** `calculateEntrySizing` at the mark, on the account its own snapshot has just been taken of. */
  function Size(l: Ledger, s: Snapshot, order: EntryOrder): Option<Sizing>
    requires l.mark > 0
  {
    var lossBps := StopDistanceBps(l.mark, order.stop) + l.policy.estimatedRoundTripCostBps;
    var riskBps := Min(if order.riskBps.Some? then order.riskBps.value else l.policy.maxTradeRiskBps, l.policy.maxTradeRiskBps);
    var leverage := Min(if order.leverage.Some? then order.leverage.value else l.policy.maxLeverage, l.policy.maxLeverage);
    if lossBps <= 0 || riskBps <= 0 || leverage < 1 || l.policy.quantityStepUnits == 0 then None
    else
      var budget := ApplyBps(s.usablePot, riskBps);
      var byRisk := (budget * 10_000) / lossBps;
      var byMargin := Max(0, s.usablePot - UsedMargin(l.positions, l.mark)) * leverage;
      var raw := (Min(byRisk, byMargin) * QUANTITY_SCALE) / l.mark;
      var quantity := (raw / l.policy.quantityStepUnits) * l.policy.quantityStepUnits;
      var notional := NotionalCents(l.mark, quantity);
      var loss := ApplyBps(notional, lossBps);
      if quantity <= 0 || notional < l.policy.minimumNotionalCents then None
      else if s.openRisk + loss > ApplyBps(s.usablePot, l.policy.maxOpenRiskBps) then None
      else if s.protectedEquity - loss <= s.lossBoundary then None
      else if s.daily.activeFloorCents.Some? && s.protectedEquity - loss < s.daily.activeFloorCents.value then None
      else Some(Sizing(quantity, notional, CeilSigned(notional, leverage), budget, loss, leverage))
  }

  function EntryFee(l: Ledger, z: Sizing): int { ApplyBps(z.notionalCents, HalfCostBps(l.policy)) }

  /** The paper venue fills at the mark and confirms protection. */
  function Opened(l: Ledger, order: EntryOrder, z: Sizing): Ledger {
    var p := Position(order.trancheId, order.side, z.quantityUnits, l.mark, order.stop, order.target, z.leverage, EntryFee(l, z));
    l.(balance := l.balance - EntryFee(l, z), positions := l.positions + [p])
  }

  predicate MayEnter(l: Ledger) { l.running && l.gatewayEnabled && l.positions == [] }

  /** A refused entry may still have recorded the day. */
  function Entered(l: Ledger, order: EntryOrder, day: string): (Ledger, Option<Sizing>) {
    if !MayEnter(l) then (l, None)
    else
      var s := TakeSnapshot(l, day);
      var snapped := Snapped(l, day);
      if s.reasons != {} || !StopSideValid(order.side, l.mark, order.stop) || !TargetSideValid(order.side, l.mark, order.target) then (snapped, None)
      else
        var again := Snapped(snapped, day);
        var z := Size(again, TakeSnapshot(snapped, day), order);
        if z.None? then (again, None) else (Snapped(Opened(again, order, z.value), day), z)
  }

  // ---------------------------------------------------------------- closing

  function Without(positions: seq<Position>, id: string): seq<Position> {
    if positions == [] then []
    else if positions[0].trancheId == id then Without(positions[1..], id)
    else [positions[0]] + Without(positions[1..], id)
  }

  function Replacing(positions: seq<Position>, p: Position): seq<Position> {
    if positions == [] then []
    else [if positions[0].trancheId == p.trancheId then p else positions[0]] + Replacing(positions[1..], p)
  }

  function AllocatedFee(p: Position, quantity: nat): int { Round(p.entryFeeCents * quantity, p.quantityUnits) }

  function TradeOf(p: Position, quantity: nat, exit: nat, policy: Policy): Trade {
    var gross := PnlCents(p.side, p.entryPriceCents, exit, quantity);
    var fee := AllocatedFee(p, quantity);
    var exitFee := ApplyBps(NotionalCents(exit, quantity), HalfCostBps(policy));
    Trade(p.trancheId, p.side, quantity, p.entryPriceCents, exit, gross, fee, exitFee, gross - fee - exitFee)
  }

  /** `closeQuantity` of a position, all of it or a part. */
  function Closed(l: Ledger, p: Position, quantity: nat, exit: nat, day: string): Ledger
    requires quantity <= p.quantityUnits
  {
    var t := TradeOf(p, quantity, exit, l.policy);
    var positions :=
      if quantity == p.quantityUnits then Without(l.positions, p.trancheId)
      else Replacing(l.positions, p.(quantityUnits := p.quantityUnits - quantity, entryFeeCents := p.entryFeeCents - t.entryFeeCents));
    Snapped(l.(balance := l.balance + t.grossPnlCents - t.exitFeeCents, positions := positions, trades := l.trades + [t]), day)
  }

  function AllClosed(l: Ledger, open: seq<Position>, exit: nat, day: string): Ledger
    decreases |open|
  {
    if open == [] then l else AllClosed(Closed(l, open[0], open[0].quantityUnits, exit, day), open[1..], exit, day)
  }

  /** `flattenAll`, with the snapshot of the state it returns. */
  function Flattened(l: Ledger, day: string): Ledger {
    Snapped(AllClosed(l.(running := false), l.positions, l.mark, day), day)
  }

  /** Where a position is closed when the mark touches it: at the mark for its stop, at its target otherwise. */
  function ExitPrice(p: Position, mark: nat): Option<nat> {
    if (if p.side.Long? then mark <= p.stopPriceCents else mark >= p.stopPriceCents) then Some(mark)
    else if (if p.side.Long? then mark >= p.targetPriceCents else mark <= p.targetPriceCents) then Some(p.targetPriceCents)
    else None
  }

  function TouchedClosed(l: Ledger, open: seq<Position>, mark: nat, day: string): Ledger
    decreases |open|
  {
    if open == [] then l
    else
      var exit := ExitPrice(open[0], mark);
      TouchedClosed(if exit.None? then l else Closed(l, open[0], open[0].quantityUnits, exit.value, day), open[1..], mark, day)
  }

  predicate MustFlatten(l: Ledger, s: Snapshot) {
    l.positions != [] &&
    (s.protectedEquity <= s.lossBoundary || (s.daily.activeFloorCents.Some? && s.protectedEquity < s.daily.activeFloorCents.value))
  }

  /** `updatePaperMark`. */
  function Marked(l: Ledger, mark: nat, day: string): Ledger {
    var touched := TouchedClosed(l.(mark := mark), l.positions, mark, day);
    var snapped := Snapped(touched, day);
    Snapped(if MustFlatten(touched, TakeSnapshot(touched, day)) then Flattened(snapped, day) else snapped, day)
  }

  // ---------------------------------------------------------------- management

  function Find(positions: seq<Position>, id: string): (r: Option<Position>)
    ensures r.Some? ==> r.value in positions && r.value.trancheId == id
    ensures r.None? ==> forall p :: p in positions ==> p.trancheId != id
  {
    if positions == [] then None else if positions[0].trancheId == id then Some(positions[0]) else Find(positions[1..], id)
  }

  /** Reasons that forbid a stop amendment. */
  const STOP_REASONS: set<Reason> := {MaximumOpenRiskExceeded, DailyLockFloorNotProtected, DailyLossBoundaryReached}

  /** `moveStop`: the transaction rolls everything back when the amended account breaks the policy. */
  function StopMoved(l: Ledger, id: string, stop: nat, day: string): (Ledger, bool) {
    var p := Find(l.positions, id);
    if p.None? || !StopSideValid(p.value.side, l.mark, stop) then (l, false)
    else
      var amended := l.(positions := Replacing(l.positions, p.value.(stopPriceCents := stop)));
      if TakeSnapshot(amended, day).reasons * STOP_REASONS != {} then (l, false) else (Snapped(amended, day), true)
  }

  function TargetMoved(l: Ledger, id: string, target: nat): (Ledger, bool) {
    var p := Find(l.positions, id);
    if p.None? || !TargetSideValid(p.value.side, l.mark, target) then (l, false)
    else (l.(positions := Replacing(l.positions, p.value.(targetPriceCents := target))), true)
  }

  function Share(quantity: nat, percent: real): real { quantity as real * percent / 100.0 }

  /** The venue quantity a fraction of a position stands for, when it is a valid partial close. */
  function PartialQuantity(p: Position, percent: real, step: nat): Option<Quantity>
    requires 0.0 < percent < 100.0
  {
    if step == 0 then None
    else
      var requested := Share(p.quantityUnits, percent).Floor;
      var quantity := (requested / step) * step;
      if quantity <= 0 || quantity >= p.quantityUnits || p.quantityUnits - quantity < step then None else Some(quantity)
  }

  function Reduced(l: Ledger, id: string, percent: real, day: string): (Ledger, bool)
    requires 0.0 < percent < 100.0
  {
    var p := Find(l.positions, id);
    if p.None? then (l, false)
    else
      var quantity := PartialQuantity(p.value, percent, l.policy.quantityStepUnits);
      if quantity.None? then (l, false) else (Closed(l, p.value, quantity.value, l.mark, day), true)
  }

  function Exited(l: Ledger, id: string, day: string): (Ledger, bool) {
    var p := Find(l.positions, id);
    if p.None? then (l, false) else (Closed(l, p.value, p.value.quantityUnits, l.mark, day), true)
  }

  /** `updatePolicy` after the patch: an invalid policy is refused. */
  function PolicySet(l: Ledger, policy: Policy, day: string): (Ledger, bool) {
    if !policy.Valid() then (l, false) else (Snapped(l.(policy := policy), day), true)
  }

  function Started(l: Ledger, day: string): (Ledger, bool) {
    if !l.gatewayEnabled then (l, false) else (Snapped(l.(running := true), day), true)
  }

  function Stopped(l: Ledger, day: string): Ledger { Snapped(l.(running := false), day) }

  // ---------------------------------------------------------------- the invariant of every run

  function NetPnl(trades: seq<Trade>): int
    decreases |trades|
  {
    if trades == [] then 0 else NetPnl(trades[..|trades| - 1]) + trades[|trades| - 1].netPnlCents
  }

  function HeldFees(positions: seq<Position>): int {
    if positions == [] then 0 else positions[0].entryFeeCents + HeldFees(positions[1..])
  }

  /** Every cent: the balance is the initial equity plus what the trades netted less the entry fees that open
      positions still hold. */
  predicate Conserved(l: Ledger, initial: int) { l.balance == initial + NetPnl(l.trades) - HeldFees(l.positions) }

  /** Stop and target lie strictly on either side of the mark. */
  predicate Straddles(p: Position, mark: nat) { StopSideValid(p.side, mark, p.stopPriceCents) && TargetSideValid(p.side, mark, p.targetPriceCents) }

  predicate DayHolds(d: DailyState) {
    && (d.activeFloorCents.Some? ==> d.activeFloorCents.value > 0)
    && (d.lockReached <==> d.activeFloorCents.Some?)
    && d.highWaterEquityCents >= d.startEquityCents
  }

  predicate Sound(l: Ledger, initial: int) {
    && Conserved(l, initial) && |l.positions| <= 1 && l.policy.Valid()
    && forall day :: day in l.daily ==> DayHolds(l.daily[day])
  }

  predicate Invariant(l: Ledger, initial: int) {
    Sound(l, initial) && forall p :: p in l.positions ==> Straddles(p, l.mark)
  }

  predicate FloorAtMost(a: Option<int>, b: Option<int>) { a.Some? ==> b.Some? && a.value <= b.value }

  /** No day is forgotten, restarted, or has its floor lowered. */
  predicate DaysGrow(a: map<string, DailyState>, b: map<string, DailyState>) {
    forall day :: day in a ==> day in b && DayGrows(a[day], b[day])
  }

  predicate DayGrows(a: DailyState, b: DailyState) {
    && a.startEquityCents == b.startEquityCents && a.highWaterEquityCents <= b.highWaterEquityCents
    && FloorAtMost(a.activeFloorCents, b.activeFloorCents)
  }

  // ---------------------------------------------------------------- snapshots

  /** A snapshot only raises the day's floor, whatever the policy says now. */
  lemma {:induction false} SnapshotKeeps(l: Ledger, day: string)
    requires forall d :: d in l.daily ==> DayHolds(l.daily[d])
    ensures var x := Snapped(l, day);
      (forall d :: d in x.daily ==> DayHolds(x.daily[d])) && DaysGrow(l.daily, x.daily)
  {
    hide EquityCents, OpenRisk, ApplyBps;
  }

  lemma {:induction false} SnappedIsSound(l: Ledger, initial: int, day: string)
    requires Sound(l, initial)
    ensures Sound(Snapped(l, day), initial) && DaysGrow(l.daily, Snapped(l, day).daily)
  {
    hide TakeSnapshot, DayHolds, NetPnl, HeldFees;
    SnapshotKeeps(l, day);
  }

  lemma {:induction false} DaysGrowOn(a: map<string, DailyState>, b: map<string, DailyState>, c: map<string, DailyState>)
    requires DaysGrow(a, b) && DaysGrow(b, c)
    ensures DaysGrow(a, c)
  {
    forall day | day in a
      ensures day in c && DayGrows(a[day], c[day])
    {
      assert DayGrows(a[day], b[day]) && DayGrows(b[day], c[day]);
    }
  }

  /** Recording the day twice is recording it once: reading the state changes nothing a second time. */
  lemma {:induction false} SnapshotIsIdempotent(l: Ledger, day: string)
    ensures Snapped(Snapped(l, day), day) == Snapped(l, day)
    ensures TakeSnapshot(Snapped(l, day), day) == TakeSnapshot(l, day)
  {
    hide EquityCents, OpenRisk, ApplyBps;
    var x := Snapped(l, day);
    SameEquity(l, x);
    assert x.daily[day] == TakeSnapshot(l, day).daily;
  }

  lemma {:induction false} SameEquity(l: Ledger, x: Ledger)
    requires x.balance == l.balance && x.positions == l.positions && x.mark == l.mark
    ensures EquityCents(x) == EquityCents(l)
  {}

  // ---------------------------------------------------------------- closing

  lemma {:induction false} OneOrNone(positions: seq<Position>, p: Position)
    requires |positions| <= 1 && p in positions
    ensures positions == [p]
  {}

  lemma {:induction false} NetPnlAppends(trades: seq<Trade>, t: Trade)
    ensures NetPnl(trades + [t]) == NetPnl(trades) + t.netPnlCents
  {
    var all := trades + [t];
    assert all[..|all| - 1] == trades;
  }

  /** The whole entry fee goes with the whole position. */
  lemma {:induction false} FullCloseAllocatesAll(p: Position)
    ensures AllocatedFee(p, p.quantityUnits) == p.entryFeeCents
  {
    RoundExact(p.entryFeeCents, p.quantityUnits);
  }

  lemma {:induction false} WithoutOnly(p: Position)
    ensures Without([p], p.trancheId) == []
    ensures forall q: Position :: q.trancheId == p.trancheId ==> Replacing([p], q) == [q]
    ensures HeldFees([p]) == p.entryFeeCents
  {
    assert [p][1..] == [];
  }

  /** Closing any part of the open position conserves every cent and keeps stop and target. */
  lemma {:induction false} CloseKeeps(l: Ledger, initial: int, p: Position, quantity: nat, exit: nat, day: string)
    requires Sound(l, initial) && p in l.positions && 0 < quantity <= p.quantityUnits
    ensures var x := Closed(l, p, quantity, exit, day);
      && Sound(x, initial) && DaysGrow(l.daily, x.daily) && x.mark == l.mark
      && (if quantity == p.quantityUnits then x.positions == []
          else |x.positions| == 1 && x.positions[0].stopPriceCents == p.stopPriceCents && x.positions[0].targetPriceCents == p.targetPriceCents
               && x.positions[0].side == p.side && x.positions[0].quantityUnits == p.quantityUnits - quantity)
  {
    hide TakeSnapshot, DayHolds, NetPnl, HeldFees, Without, Replacing, PnlCents, AllocatedFee, ApplyBps, NotionalCents;
    OneOrNone(l.positions, p);
    var t := TradeOf(p, quantity, exit, l.policy);
    NetPnlAppends(l.trades, t);
    WithoutOnly(p);
    var positions :=
      if quantity == p.quantityUnits then Without(l.positions, p.trancheId)
      else Replacing(l.positions, p.(quantityUnits := p.quantityUnits - quantity, entryFeeCents := p.entryFeeCents - t.entryFeeCents));
    if quantity == p.quantityUnits {
      FullCloseAllocatesAll(p);
      NoFees();
    } else {
      WithoutOnly(positions[0]);
    }
    SnappedIsSound(l.(balance := l.balance + t.grossPnlCents - t.exitFeeCents, positions := positions, trades := l.trades + [t]), initial, day);
  }

  lemma {:induction false} NoFees()
    ensures HeldFees([]) == 0
  {}

  // ---------------------------------------------------------------- every operation

  predicate Keeps(l: Ledger, x: Ledger, initial: int) { Invariant(x, initial) && DaysGrow(l.daily, x.daily) }

  lemma {:induction false} DaysStay(l: Ledger)
    ensures DaysGrow(l.daily, l.daily)
  {}

  lemma {:induction false} SnapKeeps(l: Ledger, x: Ledger, initial: int, day: string)
    requires Invariant(x, initial) && DaysGrow(l.daily, x.daily)
    ensures Keeps(l, Snapped(x, day), initial)
  {
    hide TakeSnapshot, Sound, DaysGrow;
    SnappedIsSound(x, initial, day);
    DaysGrowOn(l.daily, x.daily, Snapped(x, day).daily);
  }

  lemma {:induction false} OpenKeeps(l: Ledger, order: EntryOrder, z: Sizing, initial: int)
    requires Invariant(l, initial) && l.positions == []
    requires StopSideValid(order.side, l.mark, order.stop) && TargetSideValid(order.side, l.mark, order.target)
    ensures Invariant(Opened(l, order, z), initial) && Opened(l, order, z).daily == l.daily
  {
    hide NetPnl, EntryFee, DayHolds;
    var x := Opened(l, order, z);
    WithoutOnly(x.positions[0]);
    assert x.positions == [x.positions[0]];
  }

  lemma {:induction false} EnterKeeps(l: Ledger, order: EntryOrder, day: string, initial: int)
    requires Invariant(l, initial)
    ensures Keeps(l, Entered(l, order, day).0, initial)
  {
    hide TakeSnapshot, Size, Invariant, DaysGrow, Opened;
    DaysStay(l);
    if MayEnter(l) {
      SnapKeeps(l, l, initial, day);
      var snapped := Snapped(l, day);
      SnapKeeps(l, snapped, initial, day);
      var again := Snapped(snapped, day);
      if StopSideValid(order.side, l.mark, order.stop) && TargetSideValid(order.side, l.mark, order.target) {
        var z := Size(again, TakeSnapshot(snapped, day), order);
        if z.Some? {
          OpenKeeps(again, order, z.value, initial);
          SnapKeeps(l, Opened(again, order, z.value), initial, day);
        }
      }
    }
  }

  lemma {:induction false} AllClosedKeeps(l: Ledger, exit: nat, day: string, initial: int)
    requires Sound(l, initial)
    ensures var x := AllClosed(l, l.positions, exit, day);
      Sound(x, initial) && x.positions == [] && DaysGrow(l.daily, x.daily) && x.mark == l.mark && x.running == l.running
  {
    hide Closed, Sound, DaysGrow;
    DaysStay(l);
    AtMostOne(l, initial);
    if l.positions != [] {
      var p := l.positions[0];
      CloseKeeps(l, initial, p, p.quantityUnits, exit, day);
      assert l.positions[1..] == [];
      ClosedRuns(l, p, p.quantityUnits, exit, day);
    }
  }

  lemma {:induction false} ClosedRuns(l: Ledger, p: Position, quantity: nat, exit: nat, day: string)
    requires quantity <= p.quantityUnits
    ensures Closed(l, p, quantity, exit, day).running == l.running
  {}

  lemma {:induction false} AtMostOne(l: Ledger, initial: int)
    requires Sound(l, initial)
    ensures |l.positions| <= 1
  {}

  lemma {:induction false} SoundWithout(l: Ledger, initial: int)
    requires Sound(l, initial) && l.positions == []
    ensures Invariant(l, initial)
  {}

  lemma {:induction false} Unstarted(l: Ledger, initial: int)
    requires Sound(l, initial)
    ensures Sound(l.(running := false), initial) && Sound(l.(running := true), initial)
  {}

  /** Flattening always ends flat and stopped. */
  lemma {:induction false} FlattenKeeps(l: Ledger, day: string, initial: int)
    requires Sound(l, initial)
    ensures var x := Flattened(l, day); Keeps(l, x, initial) && x.positions == [] && !x.running
  {
    hide AllClosed, Sound, Invariant, DaysGrow, TakeSnapshot;
    Unstarted(l, initial);
    AllClosedKeeps(l.(running := false), l.mark, day, initial);
    var x := AllClosed(l.(running := false), l.positions, l.mark, day);
    SoundWithout(x, initial);
    SnapKeeps(l, x, initial, day);
  }

  lemma {:induction false} TouchedKeeps(l: Ledger, mark: nat, day: string, initial: int)
    requires Sound(l, initial) && l.mark == mark
    ensures var x := TouchedClosed(l, l.positions, mark, day); Keeps(l, x, initial)
  {
    hide Closed, Sound, DaysGrow;
    DaysStay(l);
    AtMostOne(l, initial);
    if l.positions != [] {
      var p := l.positions[0];
      var exit := ExitPrice(p, mark);
      assert l.positions[1..] == [];
      if exit.Some? { CloseKeeps(l, initial, p, p.quantityUnits, exit.value, day); }
    }
  }

  lemma {:induction false} Remarked(l: Ledger, mark: nat, initial: int)
    requires Sound(l, initial)
    ensures Sound(l.(mark := mark), initial)
  {}

  /** A mark move conserves every cent, closes what it touches, and leaves a position open only between its
      stop and target and only while the protected equity is above the boundary and at the floor. */
  lemma {:induction false} MarkKeeps(l: Ledger, mark: nat, day: string, initial: int)
    requires Invariant(l, initial)
    ensures var x := Marked(l, mark, day); Keeps(l, x, initial) && !MustFlatten(x, TakeSnapshot(x, day))
  {
    hide TouchedClosed, Flattened, Sound, DaysGrow, TakeSnapshot;
    Remarked(l, mark, initial);
    var start := l.(mark := mark);
    TouchedKeeps(start, mark, day, initial);
    var touched := TouchedClosed(start, l.positions, mark, day);
    SnapKeeps(l, touched, initial, day);
    var snapped := Snapped(touched, day);
    if MustFlatten(touched, TakeSnapshot(touched, day)) {
      FlattenKeeps(snapped, day, initial);
      DaysGrowOn(l.daily, snapped.daily, Flattened(snapped, day).daily);
      SnapKeeps(l, Flattened(snapped, day), initial, day);
    } else {
      SnapshotIsIdempotent(touched, day);
      SnapKeeps(l, snapped, initial, day);
    }
  }

  lemma {:induction false} AmendKeeps(l: Ledger, p: Position, q: Position, initial: int)
    requires Invariant(l, initial) && p in l.positions && q.trancheId == p.trancheId && q.entryFeeCents == p.entryFeeCents && Straddles(q, l.mark)
    ensures Invariant(l.(positions := Replacing(l.positions, q)), initial)
  {
    hide NetPnl, DayHolds, Replacing, HeldFees;
    OneOrNone(l.positions, p);
    WithoutOnly(p);
    WithoutOnly(q);
    assert Replacing([p], q) == [q];
  }

  lemma {:induction false} StopMoveKeeps(l: Ledger, id: string, stop: nat, day: string, initial: int)
    requires Invariant(l, initial)
    ensures Keeps(l, StopMoved(l, id, stop, day).0, initial)
  {
    hide TakeSnapshot, DaysGrow, Replacing, Sound;
    DaysStay(l);
    var p := Find(l.positions, id);
    if p.Some? && StopSideValid(p.value.side, l.mark, stop) {
      AmendKeeps(l, p.value, p.value.(stopPriceCents := stop), initial);
      SnapKeeps(l, l.(positions := Replacing(l.positions, p.value.(stopPriceCents := stop))), initial, day);
    }
  }

  lemma {:induction false} TargetMoveKeeps(l: Ledger, id: string, target: nat, initial: int)
    requires Invariant(l, initial)
    ensures Keeps(l, TargetMoved(l, id, target).0, initial)
  {
    hide DaysGrow, Replacing, Sound;
    DaysStay(l);
    var p := Find(l.positions, id);
    if p.Some? && TargetSideValid(p.value.side, l.mark, target) {
      AmendKeeps(l, p.value, p.value.(targetPriceCents := target), initial);
    }
  }

  lemma {:induction false} PartKeeps(l: Ledger, p: Position, quantity: nat, day: string, initial: int)
    requires Invariant(l, initial) && p in l.positions && 0 < quantity <= p.quantityUnits
    ensures Keeps(l, Closed(l, p, quantity, l.mark, day), initial)
  {
    hide Closed, Sound, DaysGrow;
    CloseKeeps(l, initial, p, quantity, l.mark, day);
  }

  /** Everything an operator, an agent or the market may do. */
  datatype Operation =
    | Enter(order: EntryOrder)
    | Exit(trancheId: string)
    | Reduce(trancheId: string, percent: real)
    | MoveStop(trancheId: string, stop: nat)
    | MoveTarget(trancheId: string, target: nat)
    | UpdateMark(mark: nat)
    | FlattenAll
    | UpdatePolicy(policy: Policy)
    | Start
    | Stop
    | Read

  function After(l: Ledger, op: Operation, day: string): Ledger {
    match op
    case Enter(order) => Entered(l, order, day).0
    case Exit(id) => Exited(l, id, day).0
    case Reduce(id, percent) => if 0.0 < percent < 100.0 then Reduced(l, id, percent, day).0 else l
    case MoveStop(id, stop) => StopMoved(l, id, stop, day).0
    case MoveTarget(id, target) => TargetMoved(l, id, target).0
    case UpdateMark(mark) => Marked(l, mark, day)
    case FlattenAll => Flattened(l, day)
    case UpdatePolicy(policy) => PolicySet(l, policy, day).0
    case Start => Started(l, day).0
    case Stop => Stopped(l, day)
    case Read => Snapped(l, day)
  }

  lemma {:induction false} ControlKeeps(l: Ledger, x: Ledger, initial: int, day: string)
    requires Invariant(l, initial) && x == l.(policy := x.policy, running := x.running) && x.policy.Valid()
    ensures Keeps(l, Snapped(x, day), initial)
  {
    hide TakeSnapshot, NetPnl, HeldFees, DayHolds;
    DaysStay(l);
    SnapKeeps(l, x, initial, day);
  }

  lemma {:induction false} OperationKeeps(l: Ledger, op: Operation, day: string, initial: int)
    requires Invariant(l, initial)
    ensures Keeps(l, After(l, op, day), initial)
  {
    hide Keeps, Invariant, Entered, Marked, Flattened, StopMoved, TargetMoved, Closed, TakeSnapshot, PartialQuantity, Sound;
    match op {
      case Enter(order) => EnterKeeps(l, order, day, initial);
      case MoveStop(id, stop) => StopMoveKeeps(l, id, stop, day, initial);
      case MoveTarget(id, target) => TargetMoveKeeps(l, id, target, initial);
      case UpdateMark(mark) => MarkKeeps(l, mark, day, initial);
      case FlattenAll => InvariantIsSound(l, initial); FlattenKeeps(l, day, initial);
      case UpdatePolicy(policy) => Unchanged(l, initial); if policy.Valid() { ControlKeeps(l, l.(policy := policy), initial, day); }
      case Start => Unchanged(l, initial); PolicyHolds(l, initial); ControlKeeps(l, l.(running := true), initial, day);
      case Stop => PolicyHolds(l, initial); ControlKeeps(l, l.(running := false), initial, day);
      case Read => PolicyHolds(l, initial); ControlKeeps(l, l, initial, day);
      case Exit(id) =>
        Unchanged(l, initial);
        var p := Find(l.positions, id);
        if p.Some? { PartKeeps(l, p.value, p.value.quantityUnits, day, initial); }
      case Reduce(id, percent) =>
        Unchanged(l, initial);
        var p := Find(l.positions, id);
        if 0.0 < percent < 100.0 && p.Some? {
          var quantity := PartialQuantity(p.value, percent, l.policy.quantityStepUnits);
          if quantity.Some? { PartialIsPart(p.value, percent, l.policy.quantityStepUnits); PartKeeps(l, p.value, quantity.value, day, initial); }
        }
    }
  }

  lemma {:induction false} Unchanged(l: Ledger, initial: int)
    requires Invariant(l, initial)
    ensures Keeps(l, l, initial)
  {
    hide Sound;
  }

  lemma {:induction false} InvariantIsSound(l: Ledger, initial: int)
    requires Invariant(l, initial)
    ensures Sound(l, initial)
  {
    hide Sound;
  }

  lemma {:induction false} PolicyHolds(l: Ledger, initial: int)
    requires Invariant(l, initial)
    ensures l.policy.Valid()
  {}

  /** A partial close leaves at least one step and is a multiple of it. */
  lemma {:induction false} PartialIsPart(p: Position, percent: real, step: nat)
    requires 0.0 < percent < 100.0
    ensures var q := PartialQuantity(p, percent, step);
      q.Some? ==> q.value + step <= p.quantityUnits && q.value % step == 0 && q.value as real <= Share(p.quantityUnits, percent)
  {
    hide Share;
    if step > 0 { StepDown(Share(p.quantityUnits, percent).Floor, step); }
    FloorAtMostReal(Share(p.quantityUnits, percent));
  }

  lemma {:induction false} StepDown(value: int, step: nat)
    requires step > 0
    ensures ((value / step) * step) % step == 0 && (value / step) * step <= value
  {
    ProductIsMultiple(value / step, step);
    DivBounds(value, step);
  }

  lemma {:induction false} FloorAtMostReal(x: real)
    ensures x.Floor as real <= x
  {}

  function Run(l: Ledger, ops: seq<(Operation, string)>): Ledger
    decreases |ops|
  {
    if ops == [] then l else After(Run(l, ops[..|ops| - 1]), ops[|ops| - 1].0, ops[|ops| - 1].1)
  }

  /** Whole runs: every cent is conserved, at most one position is open, its stop and target straddle the mark,
      and no day's floor is ever lowered, even across policy changes and days. */
  lemma {:induction false} RunsKeep(l: Ledger, ops: seq<(Operation, string)>, initial: int)
    requires Invariant(l, initial)
    ensures Keeps(l, Run(l, ops), initial)
    decreases |ops|
  {
    hide Invariant, After, DaysGrow;
    if ops == [] {
      Unchanged(l, initial);
    } else {
      var init := ops[..|ops| - 1];
      RunsKeep(l, init, initial);
      var x := Run(l, init);
      var op := ops[|ops| - 1];
      OperationKeeps(x, op.0, op.1, initial);
      DaysGrowOn(l.daily, x.daily, After(x, op.0, op.1).daily);
    }
  }

  /** A flat account holds exactly what it started with and what its trades netted. */
  lemma {:induction false} FlatIsRealised(l: Ledger, ops: seq<(Operation, string)>, initial: int)
    requires Invariant(l, initial) && Run(l, ops).positions == []
    ensures EquityCents(Run(l, ops)) == initial + NetPnl(Run(l, ops).trades)
  {
    hide Run, NetPnl;
    RunsKeep(l, ops, initial);
  }

  // ---------------------------------------------------------------- what an accepted entry promises

  /** Sizing never exceeds the risk budget, the free margin or a quantity step. */
  lemma {:induction false} SizingIsWithinBudget(l: Ledger, s: Snapshot, order: EntryOrder)
    requires l.mark > 0 && Size(l, s, order).Some? && l.policy.Valid()
    ensures var z := Size(l, s, order).value;
      && z.plannedLossCents <= z.riskBudgetCents
      && z.marginCents <= Max(0, s.usablePot - UsedMargin(l.positions, l.mark))
      && z.quantityUnits % l.policy.quantityStepUnits == 0
      && z.notionalCents >= l.policy.minimumNotionalCents
  {
    var lossBps := StopDistanceBps(l.mark, order.stop) + l.policy.estimatedRoundTripCostBps;
    var z := Size(l, s, order).value;
    var available := Max(0, s.usablePot - UsedMargin(l.positions, l.mark));
    SizingChain(z.riskBudgetCents, lossBps, available, z.leverage, l.mark, l.policy.quantityStepUnits);
  }

  lemma {:induction false} SizingChain(budget: int, lossBps: nat, available: nat, leverage: Quantity, mark: nat, step: nat)
    requires lossBps > 0 && mark > 0 && step > 0
    ensures var byRisk := (budget * 10_000) / lossBps;
      var quantity := (((Min(byRisk, available * leverage) * QUANTITY_SCALE) / mark) / step) * step;
      var notional := NotionalCents(mark, quantity);
      quantity % step == 0 && ApplyBps(notional, lossBps) <= budget && CeilSigned(notional, leverage) <= available
  {
    hide NotionalCents, ApplyBps, CeilSigned;
    var byRisk := (budget * 10_000) / lossBps;
    var requested := Min(byRisk, available * leverage);
    var raw := (requested * QUANTITY_SCALE) / mark;
    StepDown(raw, step);
    var quantity := (raw / step) * step;
    NotionalWithin(mark, quantity, raw, requested);
    LossWithin(NotionalCents(mark, quantity), byRisk, budget, lossBps);
    MarginWithin(NotionalCents(mark, quantity), available, leverage);
  }

  lemma {:induction false} NotionalWithin(mark: nat, quantity: int, raw: int, requested: int)
    requires mark > 0 && quantity <= raw && raw == (requested * QUANTITY_SCALE) / mark
    ensures NotionalCents(mark, quantity) <= requested
  {
    DivBounds(requested * QUANTITY_SCALE, mark);
    MulOrder(quantity, raw, mark);
    assert mark * quantity == quantity * mark;
    RoundIsMonotone(mark * quantity, requested * QUANTITY_SCALE, QUANTITY_SCALE);
    RoundExact(requested, QUANTITY_SCALE);
  }

  lemma {:induction false} LossWithin(notional: int, byRisk: int, budget: int, lossBps: nat)
    requires lossBps > 0 && notional <= byRisk && byRisk == (budget * 10_000) / lossBps
    ensures ApplyBps(notional, lossBps) <= budget
  {
    DivBounds(budget * 10_000, lossBps);
    MulOrder(notional, byRisk, lossBps);
    RoundIsMonotone(notional * lossBps, budget * 10_000, 10_000);
    RoundExact(budget, 10_000);
  }

  lemma {:induction false} MarginWithin(notional: int, available: nat, leverage: Quantity)
    requires notional <= available * leverage
    ensures CeilSigned(notional, leverage) <= available
  {
    var a: int := available;
    FloorAdjunction(-a, -notional, leverage);
    assert (-a) * leverage == -(a * leverage);
  }

  /** What the account shows right after an accepted entry, against what was projected when it was admitted. */
  function ProjectedEquity(l: Ledger, z: Sizing, day: string): int { TakeSnapshot(l, day).protectedEquity - z.plannedLossCents }

  /** With h, s, r, d the half and stressed exit costs, the round trip and the stop distance in basis points: the
      notional carries the difference of the costs; four roundings of half a cent, the d / 20,000 the notional may
      hide and the basis point u by which d may be rounded up are all that can be added. */
  lemma {:induction false} RoundingSum(n: int, fee: int, price: int, exit: int, loss: int, h: nat, s: nat, r: nat, d: nat, u: nat)
    requires 20_000 * fee - 10_000 <= 2 * (n * h) < 20_000 * fee + 10_000
    requires 20_000 * exit - 10_000 <= 2 * (n * s) < 20_000 * exit + 10_000
    requires 2 * (n * (d - u)) - d - 10_000 < 20_000 * price <= 2 * (n * d) + d + 10_000
    requires 20_000 * loss - 10_000 <= 2 * (n * (d + r)) < 20_000 * loss + 10_000
    ensures 2 * (n * (h + s - r - u)) - d - 40_000 < 20_000 * (fee + price + exit - loss) < 2 * (n * (h + s - r)) + d + 40_000
  {
    assert n * (d + r) == n * d + n * r && n * (d - u) == n * d - n * u;
    assert n * (h + s - r) == n * h + n * s - n * r;
    assert n * (h + s - r - u) == n * (h + s - r) - n * u;
  }

  /** The rounded price loss at the stop, against the rounded notional and the rounded-up stop distance. */
  lemma {:induction false} PriceLossBound(mark: nat, distance: nat, quantity: nat)
    requires mark > 0 && distance > 0
    ensures var n, d := NotionalCents(mark, quantity), Ceil(distance * 10_000, mark);
      2 * (n * (d - RoundedUp(distance, mark))) - d - 10_000 < 20_000 * Round(distance * quantity, QUANTITY_SCALE) <= 2 * (n * d) + d + 10_000
  {
    var n, d := NotionalCents(mark, quantity), Ceil(distance * 10_000, mark);
    CeilBounds(distance * 10_000, mark);
    RoundBounds(mark * quantity, QUANTITY_SCALE);
    RoundBounds(distance * quantity, QUANTITY_SCALE);
    PriceLossChain(mark, distance, quantity, n, d, Round(distance * quantity, QUANTITY_SCALE));
    CeilIsPositive(distance * 10_000, mark);
    LeastStop(distance, mark);
    PriceLossLeast(mark, distance, quantity, n, d - RoundedUp(distance, mark), d, Round(distance * quantity, QUANTITY_SCALE));
  }

  /** Whether the stop distance is rounded up to whole basis points. */
  function RoundedUp(distance: nat, price: nat): nat
    requires price > 0
  {
    if (distance * 10_000) % price == 0 then 0 else 1
  }

  lemma {:induction false} LeastStop(distance: nat, price: nat)
    requires price > 0 && distance > 0
    ensures var e := Ceil(distance * 10_000, price) - RoundedUp(distance, price);
      0 <= e && e * price <= distance * 10_000
  {
    var x: nat := distance * 10_000;
    CeilBounds(x, price);
    CeilIsPositive(x, price);
    assert (Ceil(x, price) - 1) * price == Ceil(x, price) * price - price;
    if x % price == 0 {
      assert x == (x / price) * price;
      CeilAdjunction(x, price, x / price);
      MulOrder(Ceil(x, price), x / price, price);
    }
  }

  lemma {:induction false} CeilIsPositive(n: nat, d: nat)
    requires n > 0 && d > 0
    ensures Ceil(n, d) >= 1
  {
    CeilAdjunction(n, d, 0);
  }

  lemma {:induction false} PriceLossLeast(mark: nat, distance: nat, quantity: nat, n: int, e: int, d: nat, price: int)
    requires 0 <= e <= d && e * mark <= distance * 10_000
    requires 2 * (n * QUANTITY_SCALE) - QUANTITY_SCALE <= 2 * (mark * quantity)
    requires 2 * (distance * quantity) < 2 * (price * QUANTITY_SCALE) + QUANTITY_SCALE
    ensures 2 * (n * e) - d - 10_000 < 20_000 * price
  {
    var scale, m := QUANTITY_SCALE as int, mark * quantity;
    if quantity > 0 { MulOrder(e * mark, distance * 10_000, quantity); }
    assert (e * mark) * quantity == e * m;
    assert (distance * 10_000) * quantity == 10_000 * (distance * quantity);
    assert e * (2 * m - (2 * (n * scale) - scale)) >= 0;
    assert e * (2 * m - (2 * (n * scale) - scale)) == 2 * (e * m) - 2 * ((n * e) * scale) + e * scale by { Expand(n, e, scale, m); }
    MulOrder(2 * (n * e) - e, 20_000 * price + 10_000, QUANTITY_SCALE);
    assert (2 * (n * e) - e) * scale == 2 * ((n * e) * scale) - e * scale;
  }

  lemma {:induction false} PriceLossChain(mark: nat, distance: nat, quantity: nat, n: int, d: nat, price: int)
    requires distance * 10_000 <= d * mark
    requires 2 * (mark * quantity) < 2 * (n * QUANTITY_SCALE) + QUANTITY_SCALE
    requires 2 * (price * QUANTITY_SCALE) - QUANTITY_SCALE <= 2 * (distance * quantity)
    ensures 20_000 * price - 10_000 <= 2 * (n * d) + d
  {
    var scale := QUANTITY_SCALE as int;
    if quantity > 0 { MulOrder(distance * 10_000, d * mark, quantity); }
    assert (distance * 10_000) * quantity == 10_000 * (distance * quantity);
    assert (d * mark) * quantity == d * (mark * quantity);
    var e := 2 * (n * scale) + scale - 2 * (mark * quantity);
    assert d * e >= 0;
    assert d * e == 2 * ((n * d) * scale) + d * scale - 2 * (d * (mark * quantity)) by { Expand(n, d, scale, mark * quantity); }
  }

  lemma {:induction false} Expand(n: int, d: int, scale: int, m: int)
    ensures d * (2 * (n * scale) + scale - 2 * m) == 2 * ((n * d) * scale) + d * scale - 2 * (d * m)
  {
    assert d * (2 * (n * scale)) == 2 * ((n * d) * scale);
  }

  /** The basis points by which half the round trip and the stressed exit are dearer than the round trip. */
  function Dearness(policy: Policy): int { HalfCostBps(policy) + policy.stressedExitCostBps - policy.estimatedRoundTripCostBps }

  /** A shortfall in cents, on a notional, is what the dearness makes of it, give or take the roundings. */
  predicate WithinCosts(policy: Policy, notional: int, stopBps: nat, roundedUp: nat, shortfall: int) {
    2 * (notional * (Dearness(policy) - roundedUp)) - stopBps - 40_000 < 20_000 * shortfall < 2 * (notional * Dearness(policy)) + stopBps + 40_000
  }

  /** What opening costs against what was planned for it. */
  lemma {:induction false} CostsWithinPlan(policy: Policy, side: PositionSide, mark: nat, stop: nat, quantity: Quantity)
    requires mark > 0 && StopSideValid(side, mark, stop)
    ensures var n := NotionalCents(mark, quantity);
      WithinCosts(policy, n, StopDistanceBps(mark, stop), RoundedUp(Abs(mark - stop), mark),
        ApplyBps(n, HalfCostBps(policy)) + Round(Abs(mark - stop) * quantity, QUANTITY_SCALE) + ApplyBps(n, policy.stressedExitCostBps)
        - ApplyBps(n, StopDistanceBps(mark, stop) + policy.estimatedRoundTripCostBps))
  {
    var n, d := NotionalCents(mark, quantity), StopDistanceBps(mark, stop);
    var h, s, r := HalfCostBps(policy), policy.stressedExitCostBps, policy.estimatedRoundTripCostBps;
    BpsBounds(n, h);
    BpsBounds(n, s);
    BpsBounds(n, d + r);
    PriceLossBound(mark, Abs(mark - stop), quantity);
    hide ApplyBps, NotionalCents, StopDistanceBps, HalfCostBps, RoundedUp;
    RoundingSum(n, ApplyBps(n, h), Round(Abs(mark - stop) * quantity, QUANTITY_SCALE), ApplyBps(n, s), ApplyBps(n, d + r), h, s, r, d,
                RoundedUp(Abs(mark - stop), mark));
  }

  lemma {:induction false} BpsBounds(value: int, bps: nat)
    ensures 20_000 * ApplyBps(value, bps) - 10_000 <= 2 * (value * bps) < 20_000 * ApplyBps(value, bps) + 10_000
  {
    RoundBounds(value * bps, 10_000);
  }

  lemma {:induction false} NotionalIsNonnegative(mark: nat, quantity: nat)
    ensures NotionalCents(mark, quantity) >= 0
  {
    assert mark * quantity >= 0;
    RoundIsMonotone(0, mark * quantity, QUANTITY_SCALE);
  }

  lemma {:induction false} ProtectedOf(l: Ledger, day: string)
    ensures TakeSnapshot(l, day).protectedEquity == EquityCents(l) - OpenRisk(l.positions, l.mark, l.policy)
  {
    hide EquityCents, OpenRisk;
  }

  /** The equity protected right after opening at the mark. */
  lemma {:induction false} OpenedProtects(l: Ledger, order: EntryOrder, z: Sizing, day: string)
    requires l.positions == [] && StopSideValid(order.side, l.mark, order.stop)
    ensures TakeSnapshot(Opened(l, order, z), day).protectedEquity ==
      l.balance - EntryFee(l, z) - Round(Abs(l.mark - order.stop) * z.quantityUnits, QUANTITY_SCALE)
      - ApplyBps(NotionalCents(l.mark, z.quantityUnits), l.policy.stressedExitCostBps)
    ensures TakeSnapshot(l, day).protectedEquity == l.balance
  {
    hide TakeSnapshot, ApplyBps, NotionalCents, EntryFee;
    var x := Opened(l, order, z);
    var p := x.positions[0];
    ProtectedOf(x, day);
    ProtectedOf(l, day);
    assert x.positions == [p] && [p][1..] == [];
    assert PnlCents(p.side, l.mark, l.mark, p.quantityUnits) == 0 by { RoundExact(0, QUANTITY_SCALE); }
    assert OpenPnl([p], l.mark) == 0;
    assert OpenRisk([p], l.mark, l.policy) == PositionRisk(p, l.mark, l.policy);
  }

  /** What a returned sizing satisfies. */
  lemma {:induction false} SizeMeaning(l: Ledger, s: Snapshot, order: EntryOrder)
    requires l.mark > 0 && Size(l, s, order).Some?
    ensures var z := Size(l, s, order).value;
      && z.notionalCents == NotionalCents(l.mark, z.quantityUnits)
      && z.plannedLossCents == ApplyBps(z.notionalCents, StopDistanceBps(l.mark, order.stop) + l.policy.estimatedRoundTripCostBps)
      && s.protectedEquity - z.plannedLossCents > s.lossBoundary
      && (s.daily.activeFloorCents.Some? ==> s.protectedEquity - z.plannedLossCents >= s.daily.activeFloorCents.value)
  {
    hide NotionalCents, ApplyBps, StopDistanceBps, UsedMargin, CeilSigned;
  }

  /** The account right after an accepted entry, against what was projected when it was admitted, for every
      policy and every stop: the difference is the dearness of the exit on the whole notional, give or take the
      roundings, and each guard was checked on the projection. */
  lemma {:induction false} ProjectionError(l: Ledger, order: EntryOrder, day: string)
    requires Entered(l, order, day).1.Some? && l.mark > 0
    ensures var z := Entered(l, order, day).1.value; var x := Entered(l, order, day).0;
      && x.positions == [Position(order.trancheId, order.side, z.quantityUnits, l.mark, order.stop, order.target, z.leverage, EntryFee(l, z))]
      && WithinCosts(l.policy, z.notionalCents, StopDistanceBps(l.mark, order.stop), RoundedUp(Abs(l.mark - order.stop), l.mark),
                     ProjectedEquity(l, z, day) - TakeSnapshot(x, day).protectedEquity)
      && ProjectedEquity(l, z, day) > TakeSnapshot(l, day).lossBoundary
      && (TakeSnapshot(l, day).daily.activeFloorCents.Some? ==> ProjectedEquity(l, z, day) >= TakeSnapshot(l, day).daily.activeFloorCents.value)
  {
    hide TakeSnapshot, Size, ApplyBps, NotionalCents, StopDistanceBps, HalfCostBps, WithinCosts;
    SnapshotIsIdempotent(l, day);
    var snapped := Snapped(l, day);
    var z := Entered(l, order, day).1.value;
    SizeMeaning(snapped, TakeSnapshot(l, day), order);
    SnapshotIsIdempotent(Opened(snapped, order, z), day);
    OpenedProtects(snapped, order, z, day);
    CostsWithinPlan(l.policy, order.side, l.mark, order.stop, z.quantityUnits);
  }

  /** When half the round trip and the stressed exit together cost no more than the round trip, that is at most
      2 cents for a stop no further away than the price, and one cent more for each 20,000 basis points beyond. */
  lemma {:induction false} ProjectionHolds(l: Ledger, order: EntryOrder, day: string)
    requires Entered(l, order, day).1.Some? && l.mark > 0 && Dearness(l.policy) <= 0
    ensures var z := Entered(l, order, day).1.value; var x := Entered(l, order, day).0; var d := StopDistanceBps(l.mark, order.stop);
      && 20_000 * (ProjectedEquity(l, z, day) - TakeSnapshot(x, day).protectedEquity) < d + 40_000
      && (d <= 10_000 ==> TakeSnapshot(x, day).protectedEquity >= ProjectedEquity(l, z, day) - 2)
  {
    hide TakeSnapshot, Entered, StopDistanceBps, HalfCostBps;
    ProjectionError(l, order, day);
    AcceptedNotional(l, order, day);
    var n := Entered(l, order, day).1.value.notionalCents;
    assert n * Dearness(l.policy) <= 0;
  }

  lemma {:induction false} AcceptedNotional(l: Ledger, order: EntryOrder, day: string)
    requires Entered(l, order, day).1.Some? && l.mark > 0
    ensures Entered(l, order, day).1.value.notionalCents >= 0
  {
    hide TakeSnapshot, Size, NotionalCents;
    SnapshotIsIdempotent(l, day);
    SizeMeaning(Snapped(l, day), TakeSnapshot(l, day), order);
    NotionalIsNonnegative(l.mark, Entered(l, order, day).1.value.quantityUnits);
  }

  /** And whenever it is dearer, by more than the basis point a stop distance may be rounded up by, the shortfall
      exceeds any amount as the notional grows. */
  lemma {:induction false} ProjectionFails(l: Ledger, order: EntryOrder, day: string, amount: nat)
    requires Entered(l, order, day).1.Some? && l.mark > 0 && Dearness(l.policy) > RoundedUp(Abs(l.mark - order.stop), l.mark)
    requires Entered(l, order, day).1.value.notionalCents >= 10_000 * (amount + 2) + StopDistanceBps(l.mark, order.stop)
    ensures TakeSnapshot(Entered(l, order, day).0, day).protectedEquity < ProjectedEquity(l, Entered(l, order, day).1.value, day) - amount
  {
    hide TakeSnapshot, Entered, StopDistanceBps, HalfCostBps, RoundedUp;
    ProjectionError(l, order, day);
    var n, e := Entered(l, order, day).1.value.notionalCents, Dearness(l.policy) - RoundedUp(Abs(l.mark - order.stop), l.mark);
    MulOrder(1, e, n);
    assert e * n == n * e;
  }

  // ---------------------------------------------------------------- when the exit is dearer than planned

  /** A flat account of so many times 10,000 dollars. */
  function DearExit(k: nat): Ledger {
    Ledger(1_000_000 * k, 10_000, [], [], map[], Policy(50, None, 10, 500, 1_000, 2_000, 0, 500, 1, 1), true, true)
  }

  const DEAR_ORDER: EntryOrder := EntryOrder("TR-1", Long, 9_900, 10_100, None, None)

  function DearSnapshot(k: nat): Snapshot {
    Snapshot(1_000_000 * k, 800_000 * k, 0, 1_000_000 * k, DailyState(1_000_000 * k, 1_000_000 * k, false, None), {})
  }

  /** The first snapshot of a day on a flat account. */
  lemma {:induction false} FlatSnapshot(l: Ledger, day: string, pot: int, target: int, loss: int, open: int)
    requires l.positions == [] && day !in l.daily && pot == UsablePot(l.balance, l.policy.usableBalanceLimitCents)
    requires target == ApplyBps(pot, l.policy.dailyLockTargetBps) > 0
    requires loss == ApplyBps(pot, l.policy.maxDailyLossBps) > 0
    requires open == ApplyBps(pot, l.policy.maxOpenRiskBps) >= 0
    requires pot >= l.policy.minimumNotionalCents
    ensures TakeSnapshot(l, day) == Snapshot(pot, l.balance - loss, 0, l.balance, DailyState(l.balance, l.balance, false, None), {})
  {
    hide ApplyBps, UsablePot;
  }

  /** A whole number of cents, of basis points of it. */
  lemma {:induction false} WholeBps(value: int, bps: nat, cents: int)
    requires value * bps == cents * 10_000
    ensures ApplyBps(value, bps) == cents
  {
    RoundExact(cents, 10_000);
  }

  lemma {:induction false} DearDay(k: nat)
    requires k > 0
    ensures TakeSnapshot(DearExit(k), "day") == DearSnapshot(k)
  {
    hide TakeSnapshot, ApplyBps;
    WholeBps(1_000_000 * k, 50, 5_000 * k);
    WholeBps(1_000_000 * k, 2_000, 200_000 * k);
    WholeBps(1_000_000 * k, 1_000, 100_000 * k);
    FlatSnapshot(DearExit(k), "day", 1_000_000 * k, 5_000 * k, 200_000 * k, 100_000 * k);
  }

  lemma {:induction false} DearNotional(k: nat)
    ensures NotionalCents(10_000, 50_000_000_000 * k) == 5_000_000 * k
    ensures Round(Abs(10_000 - 9_900) * (50_000_000_000 * k), QUANTITY_SCALE) == 50_000 * k
  {
    RoundExact(5_000_000 * k, QUANTITY_SCALE);
    RoundExact(50_000 * k, QUANTITY_SCALE);
    assert 10_000 * (50_000_000_000 * k) == (5_000_000 * k) * QUANTITY_SCALE;
    assert Abs(10_000 - 9_900) * (50_000_000_000 * k) == (50_000 * k) * QUANTITY_SCALE;
  }

  lemma {:induction false} DearSizing(l: Ledger, k: nat)
    requires l.mark == 10_000 && l.positions == [] && l.policy == DearExit(k).policy && k > 0
    ensures var z := Size(l, DearSnapshot(k), DEAR_ORDER);
      z.Some? && z.value.quantityUnits == 50_000_000_000 * k && z.value.notionalCents == 5_000_000 * k && z.value.plannedLossCents == 50_000 * k
  {
    hide ApplyBps, NotionalCents, StopDistanceBps, CeilSigned;
    assert StopDistanceBps(10_000, 9_900) == 100 by { DearDistance(); }
    assert UsedMargin([], 10_000) == 0;
    WholeBps(1_000_000 * k, 500, 50_000 * k);
    WholeBps(1_000_000 * k, 1_000, 100_000 * k);
    DearNotional(k);
    WholeBps(5_000_000 * k, 100, 50_000 * k);
    DearQuantity(k);
  }

  lemma {:induction false} DearDistance()
    ensures StopDistanceBps(10_000, 9_900) == 100
  {}

  lemma {:induction false} DearQuantity(k: nat)
    ensures ((50_000 * k) * 10_000) / 100 == 5_000_000 * k
    ensures (Min(5_000_000 * k, 1_000_000 * k * 10) * QUANTITY_SCALE) / 10_000 == 50_000_000_000 * k
  {}

  /** A valid policy whose stressed exit costs more than its round trip: the entry is admitted with 19 twentieths
      of the account projected, and at once protects 14, below the 16 of the daily loss boundary. So the projection
      fails by any amount. */
  lemma {:induction false} DearExitBreaksProjection(k: nat)
    requires k > 0
    ensures DearExit(k).policy.Valid() && Entered(DearExit(k), DEAR_ORDER, "day").1.Some?
    ensures ProjectedEquity(DearExit(k), Entered(DearExit(k), DEAR_ORDER, "day").1.value, "day") == 950_000 * k
    ensures TakeSnapshot(Entered(DearExit(k), DEAR_ORDER, "day").0, "day").protectedEquity == 700_000 * k
    ensures TakeSnapshot(DearExit(k), "day").lossBoundary == 800_000 * k
  {
    hide TakeSnapshot, Size, ApplyBps, NotionalCents, StopDistanceBps, Round;
    var l := DearExit(k);
    DearDay(k);
    SnapshotIsIdempotent(l, "day");
    var snapped := Snapped(l, "day");
    DearSizing(snapped, k);
    var z := Size(snapped, TakeSnapshot(l, "day"), DEAR_ORDER).value;
    OpenedProtects(snapped, DEAR_ORDER, z, "day");
    SnapshotIsIdempotent(Opened(snapped, DEAR_ORDER, z), "day");
    DearNotional(k);
    assert HalfCostBps(snapped.policy) == 0;
    WholeBps(5_000_000 * k, 0, 0);
    WholeBps(5_000_000 * k, 500, 250_000 * k);
  }
}
