/** Runs of a protected entry that end badly: a fill after the flatten, a stop after the flatten, and a second
    invocation over the exits of the first. */
module EntryRuns {
  import opened Wrappers
  import opened DecimalText
  import opened MutationContract
  import opened Evidence
  import opened Venue
  import opened ProtectionGuard
  import opened Lookups
  import opened OwnedState
  import opened Lifecycle
  import opened EntryCoordinator

  // ---------------------------------------------------------------- a fill after the flatten

  const NOTHING: Venue.State := Venue.State(0.0, map[], map[], {})

  /** A market entry fills in part; the part is closed; then the rest of the entry fills. */
  ghost function LateFillRun(p: ValidatedEntry, executed: string): seq<Venue.State> {
    var sent := Send(NOTHING, EntryOrder(p));
    var partial := Env(sent, Land(EntryOrder(p), executed, "1"));
    var closing := Send(partial, FlattenOrder(p, executed));
    var closed := Env(closing, Land(FlattenOrder(p, executed), executed, "1"));
    [NOTHING, sent, partial, closing, closed, Env(closed, Fill(p.ids.entry, p.quantity, "1"))]
  }

  function EntryProofAt(v: Venue.State, p: ValidatedEntry): Option<OrdinaryEvidence> {
    ProveOrdinaryFill(OrderAnswer(v, p.ids.entry).payload, p.symbol, EntrySide(p.direction), p.ids.entry, false, None)
  }

  function CloseProofAt(v: Venue.State, p: ValidatedEntry, executed: string): Option<OrdinaryEvidence> {
    ProveOrdinaryFill(OrderAnswer(v, p.ids.emergencyClose).payload, p.symbol, ExitSide(p.direction), p.ids.emergencyClose, true, Some(executed))
  }

  /** On a calm, answering, truthful venue the two answers prove a confirmed flatten that the durable record
      accepts; the position then left is the rest of the entry, and no algo order exists to stop it. */
  lemma {:induction false} LateFillIsUnprotected(p: ValidatedEntry, executed: string)
    requires IsEntryPlan(p) && IsCanonicalPositive(executed) && Value(executed) < Value(p.quantity)
    ensures var h := LateFillRun(p, executed);
      var entry, close := EntryProofAt(h[2], p), CloseProofAt(h[4], p, executed);
      var r := Described(p, EmergencyFlattenConfirmed, FlattenReason(PartialEntry, true), entry, None, None, close);
      && h[1] == Send(h[0], EntryOrder(p)) && EnvStep(Calm(true), h[1], h[2])
      && h[3] == Send(h[2], FlattenOrder(p, executed)) && EnvStep(Calm(true), h[3], h[4]) && EnvStep(Calm(true), h[4], h[5])
      && entry.Some? && entry.value.status == "PARTIALLY_FILLED" && entry.value.executedQuantity == executed
      && Supports(p, r) && EntryProofsHold(p, r)
      && Exposure(h[4], p.direction) == 0.0
      && Exposure(h[5], p.direction) == Value(p.quantity) - Value(executed) > 0.0
      && h[5].algos == map[]
  {
    hide IsEntryPlan, CanonicalPositive, Env, FlattenReason, Supports, EntryProofsHold, Described, FlattenOrder, EntryOrder;
    var h := LateFillRun(p, executed);
    LateFillStates(p, executed);
    LateFillProofs(p, executed);
    ChoiceIsStep(Calm(true), h[1], Land(EntryOrder(p), executed, "1"));
    ChoiceIsStep(Calm(true), h[3], Land(FlattenOrder(p, executed), executed, "1"));
    ChoiceIsStep(Calm(true), h[4], Fill(p.ids.entry, p.quantity, "1"));
    FlattenReasonIsGiven(PartialEntry, true);
    var entry, close := EntryProofAt(h[2], p), CloseProofAt(h[4], p, executed);
    DescribedSupports(p, EmergencyFlattenConfirmed, FlattenReason(PartialEntry, true), entry, None, None, close);
    EntryAgreement(p, Described(p, EmergencyFlattenConfirmed, FlattenReason(PartialEntry, true), entry, None, None, close));
  }

  lemma {:induction false} OneIsPositive()
    ensures IsPositiveText("1")
  {}

  /** The order at the venue once it has executed so much. */
  function EntryAt(p: ValidatedEntry, executed: string): Venue.Order {
    Venue.Order(p.symbol, EntrySide(p.direction), p.quantity, executed, "1", false)
  }

  function CloseAt(p: ValidatedEntry, executed: string): Venue.Order {
    Venue.Order(p.symbol, ExitSide(p.direction), executed, executed, "1", true)
  }

  lemma {:induction false} LateFillStates(p: ValidatedEntry, executed: string)
    requires IsEntryPlan(p) && IsCanonicalPositive(executed) && Value(executed) < Value(p.quantity)
    ensures var h := LateFillRun(p, executed);
      && h[2].orders == map[p.ids.entry := EntryAt(p, executed)]
      && h[4].orders == map[p.ids.entry := EntryAt(p, executed), p.ids.emergencyClose := CloseAt(p, executed)]
      && Exposure(h[4], p.direction) == 0.0 && h[5].algos == map[]
      && Exposure(h[5], p.direction) == Value(p.quantity) - Value(executed)
  {
    hide IsEntryPlan, IsPlain, Value, CanonicalPositive, Env, Send;
    PlanNumbers(p);
    OneIsPositive();
    CanonicalPositiveIff(executed);
    EntryLands(p, executed);
    CloseLands(p, executed, map[], {});
    RestLands(p, executed);
  }

  function Held(p: ValidatedEntry, amount: real): real { if p.direction.Long? then amount else -amount }

  lemma {:induction false} EntryLands(p: ValidatedEntry, executed: string)
    requires IsPlain(p.quantity) && IsPlain(executed) && 0.0 < Value(executed) <= Value(p.quantity)
    ensures Env(Send(NOTHING, EntryOrder(p)), Land(EntryOrder(p), executed, "1")) ==
      Venue.State(Held(p, Value(executed)), map[p.ids.entry := EntryAt(p, executed)], map[], {})
  {
    hide IsPlain, Value;
    OneIsPositive();
  }

  lemma {:induction false} CloseLands(p: ValidatedEntry, executed: string, algos: map<string, Algo>, inflight: set<Request>)
    requires p.ids.entry != p.ids.emergencyClose && IsPlain(executed) && 0.0 < Value(executed) && FlattenOrder(p, executed) !in inflight
    ensures var held := Venue.State(Held(p, Value(executed)), map[p.ids.entry := EntryAt(p, executed)], algos, inflight);
      Env(Send(held, FlattenOrder(p, executed)), Land(FlattenOrder(p, executed), executed, "1")) ==
        Venue.State(0.0, map[p.ids.entry := EntryAt(p, executed), p.ids.emergencyClose := CloseAt(p, executed)], algos, inflight)
  {
    hide IsPlain, Value;
    OneIsPositive();
  }

  lemma {:induction false} RestLands(p: ValidatedEntry, executed: string)
    requires IsPlain(p.quantity) && IsPlain(executed) && 0.0 < Value(executed) < Value(p.quantity)
    ensures var closed := Venue.State(0.0, map[p.ids.entry := EntryAt(p, executed), p.ids.emergencyClose := CloseAt(p, executed)], map[], {});
      p.ids.entry != p.ids.emergencyClose ==>
        && Env(closed, Fill(p.ids.entry, p.quantity, "1")).algos == map[]
        && Env(closed, Fill(p.ids.entry, p.quantity, "1")).position == Held(p, Value(p.quantity) - Value(executed))
  {
    hide IsPlain, Value;
    OneIsPositive();
  }

  lemma {:induction false} LateFillProofs(p: ValidatedEntry, executed: string)
    requires IsEntryPlan(p) && IsCanonicalPositive(executed) && Value(executed) < Value(p.quantity)
    ensures var h := LateFillRun(p, executed);
      var entry, close := EntryProofAt(h[2], p), CloseProofAt(h[4], p, executed);
      && entry.Some? && entry.value.status == "PARTIALLY_FILLED" && entry.value.executedQuantity == executed
      && close.Some? && close.value.status == "FILLED" && DecimalEquals(close.value.executedQuantity, executed)
      && IsFillOf(entry.value, p.symbol, EntrySide(p.direction), p.ids.entry, false)
      && IsFillOf(close.value, p.symbol, ExitSide(p.direction), p.ids.emergencyClose, true)
  {
    hide IsEntryPlan, IsPlain, Value, LateFillRun, CanonicalDecimal;
    PlanNumbers(p);
    LateFillStates(p, executed);
    OneIsPositive();
    CanonicalPositiveIff(executed);
    CanonicalPositiveIff("1");
    DecimalEqualsDecides(executed, executed);
  }

  // ---------------------------------------------------------------- what recovery makes of a lost flatten

  /** The exit of the whole entry, working at the venue. */
  function ExitAt(p: ValidatedEntry, t: AlgoType): Algo {
    Algo(p.symbol, ExitSide(p.direction), t, p.quantity, ExitPrice(p, t), Working)
  }

  function WholeExit(p: ValidatedEntry, t: AlgoType): Request { ExitOrder(p, t, p.quantity) }

  function ExitProofAt(v: Venue.State, p: ValidatedEntry, t: AlgoType): Option<AlgoEvidence> {
    ProveAlgoOrder(AlgoAnswer(v, ExitId(p, t)).payload, p.symbol, ExitSide(p.direction), t, ExitId(p, t), p.quantity, ExitPrice(p, t))
  }

  /** A full entry with these exits at the venue and these requests in flight, and the same once it is closed. */
  function Entered(p: ValidatedEntry, algos: map<string, Algo>, inflight: set<Request>): Venue.State {
    Venue.State(Held(p, Amount(p.quantity)), map[p.ids.entry := EntryAt(p, p.quantity)], algos, inflight)
  }

  function Closed(p: ValidatedEntry, algos: map<string, Algo>, inflight: set<Request>): Venue.State {
    Venue.State(0.0, map[p.ids.entry := EntryAt(p, p.quantity), p.ids.emergencyClose := CloseAt(p, p.quantity)], algos, inflight)
  }

  /** One venue state follows another because a request was sent or because the calm environment moved. */
  ghost predicate Follows(v: Venue.State, w: Venue.State, p: ValidatedEntry) {
    || EnvStep(Calm(true), v, w)
    || w == Send(v, EntryOrder(p)) || w == Send(v, FlattenOrder(p, p.quantity))
    || w == Send(v, WholeExit(p, StopMarket)) || w == Send(v, WholeExit(p, TakeProfitMarket))
  }

  ghost predicate IsRun(h: seq<Venue.State>, p: ValidatedEntry) {
    h != [] && h[0] == NOTHING && forall k :: 0 <= k < |h| - 1 ==> Follows(h[k], h[k + 1], p)
  }

  /** The entry fills; its stop is sent and not found in time; the entry is closed; then the stop arrives. */
  function LateStopRun(p: ValidatedEntry): seq<Venue.State> {
    var stop := WholeExit(p, StopMarket);
    [NOTHING, Send(NOTHING, EntryOrder(p)), Entered(p, map[], {}), Entered(p, map[], {stop}),
     Send(Entered(p, map[], {stop}), FlattenOrder(p, p.quantity)), Closed(p, map[], {stop}), Closed(p, map[p.ids.stop := ExitAt(p, StopMarket)], {})]
  }

  /** The entry fills, its stop is proven and its target sent; a second invocation of the same entry finds it
      filled, has its stop refused and closes it; then the target of the first invocation arrives. */
  function TwoInvocationRun(p: ValidatedEntry): seq<Venue.State> {
    var stop, target := WholeExit(p, StopMarket), WholeExit(p, TakeProfitMarket);
    var stopped := map[p.ids.stop := ExitAt(p, StopMarket)];
    [NOTHING, Send(NOTHING, EntryOrder(p)), Entered(p, map[], {}), Entered(p, map[], {stop}), Entered(p, stopped, {}), Entered(p, stopped, {target}),
     Entered(p, stopped, {target, EntryOrder(p)}),
     Send(Entered(p, stopped, {target, EntryOrder(p)}), FlattenOrder(p, p.quantity)), Closed(p, stopped, {target, EntryOrder(p)}),
     Closed(p, stopped[p.ids.target := ExitAt(p, TakeProfitMarket)], {EntryOrder(p)})]
  }

  /** What is proven once the close has landed is a confirmed flatten that the durable record accepts. */
  ghost predicate ProvesFlatten(v: Venue.State, p: ValidatedEntry, c: Cause) {
    var r := Described(p, EmergencyFlattenConfirmed, FlattenReason(c, true), EntryProofAt(v, p), None, None, CloseProofAt(v, p, p.quantity));
    Supports(p, r) && EntryProofsHold(p, r) && Exposure(v, p.direction) == 0.0
  }

  ghost predicate ProvesOpen(v: Venue.State, p: ValidatedEntry) {
    var r := Described(p, OpenProtected, RestartReason(OpenProtected, false), EntryProofAt(v, p),
                       ExitProofAt(v, p, StopMarket), ExitProofAt(v, p, TakeProfitMarket), None);
    Supports(p, r) && EntryProofsHold(p, r)
  }

  lemma {:induction false} EntryFills(p: ValidatedEntry)
    requires IsEntryPlan(p)
    ensures EnvStep(Calm(true), Send(NOTHING, EntryOrder(p)), Entered(p, map[], {}))
  {
    hide IsEntryPlan, IsPlain, Value, CanonicalPositive, Env, Send, EnvStep;
    PlanNumbers(p);
    QuantityIsPositive(p);
    EntryLands(p, p.quantity);
    ChoiceIsStep(Calm(true), Send(NOTHING, EntryOrder(p)), Land(EntryOrder(p), p.quantity, "1"));
  }

  lemma {:induction false} CloseFills(p: ValidatedEntry, algos: map<string, Algo>, inflight: set<Request>)
    requires IsEntryPlan(p) && FlattenOrder(p, p.quantity) !in inflight
    ensures EnvStep(Calm(true), Send(Entered(p, algos, inflight), FlattenOrder(p, p.quantity)), Closed(p, algos, inflight))
  {
    hide IsEntryPlan, IsPlain, Value, CanonicalPositive, Env, Send, EnvStep;
    PlanNumbers(p);
    QuantityIsPositive(p);
    CloseLands(p, p.quantity, algos, inflight);
    ChoiceIsStep(Calm(true), Send(Entered(p, algos, inflight), FlattenOrder(p, p.quantity)), Land(FlattenOrder(p, p.quantity), p.quantity, "1"));
  }

  lemma {:induction false} ExitLands(p: ValidatedEntry, t: AlgoType, v: Venue.State)
    requires WholeExit(p, t) in v.inflight && ExitId(p, t) !in v.algos
    ensures EnvStep(Calm(true), v, v.(inflight := v.inflight - {WholeExit(p, t)}, algos := v.algos[ExitId(p, t) := ExitAt(p, t)]))
  {
    hide EnvStep;
    ChoiceIsStep(Calm(true), v, Land(WholeExit(p, t), "", "1"));
  }

  lemma {:induction false} QuantityIsPositive(p: ValidatedEntry)
    requires IsEntryPlan(p)
    ensures IsPlain(p.quantity) && Value(p.quantity) > 0.0 && IsCanonicalPositive(p.quantity)
  {
    PlanQuantityIsCanonical(p);
    hide IsEntryPlan, IsPlain, Value, CanonicalPositive;
    CanonicalPositiveIff(p.quantity);
  }

  /** What the two orders show once they have filled. */
  lemma {:induction false} ClosedShows(p: ValidatedEntry, algos: map<string, Algo>, inflight: set<Request>)
    requires IsEntryPlan(p)
    ensures var v := Closed(p, algos, inflight);
      && EntryShows(v, p) && Holds(v, CloseFact(p, p.quantity)) && FlattenComplete(v, p, p.quantity, true)
  {
    hide IsEntryPlan, IsPlain, Value, CanonicalPositive;
    PlanNumbers(p);
    QuantityIsPositive(p);
    OneIsPositive();
  }

  lemma {:induction false} EnteredShows(p: ValidatedEntry, algos: map<string, Algo>, inflight: set<Request>)
    requires IsEntryPlan(p)
    ensures EntryShows(Entered(p, algos, inflight), p)
  {
    hide IsEntryPlan, IsPlain, Value, CanonicalPositive;
    QuantityIsPositive(p);
    OneIsPositive();
  }

  /** A proof of the entry read off a venue that shows it. */
  lemma {:induction false} EntryReads(v: Venue.State, p: ValidatedEntry)
    requires IsEntryPlan(p) && EntryShows(v, p)
    ensures var e := EntryProofAt(v, p);
      && e.Some? && e.value.status == "FILLED" && e.value.executedQuantity == p.quantity
      && IsFillOf(e.value, p.symbol, EntrySide(p.direction), p.ids.entry, false)
  {
    hide IsEntryPlan, FilledOrder, ProveOrdinaryFill, OrderAnswer, CanonicalPositive, IsPlain, Value;
    QuantityIsPositive(p);
    var payload := OrderAnswer(v, p.ids.entry).payload;
    AnsweredFill(v, p.ids.entry, p.symbol, EntrySide(p.direction), false, Amount(p.quantity), true, None);
    ProducedFill(payload, p.symbol, EntrySide(p.direction), p.ids.entry, false, None);
    SameText(EntryProofAt(v, p).value, p);
  }

  lemma {:induction false} CloseReads(v: Venue.State, p: ValidatedEntry)
    requires IsEntryPlan(p) && Holds(v, CloseFact(p, p.quantity))
    ensures var e := CloseProofAt(v, p, p.quantity);
      && e.Some? && e.value.status == "FILLED" && DecimalEquals(e.value.executedQuantity, p.quantity)
      && IsFillOf(e.value, p.symbol, ExitSide(p.direction), p.ids.emergencyClose, true)
  {
    hide IsEntryPlan, FilledOrder, ProveOrdinaryFill, OrderAnswer, IsFillOf, CanonicalPositive, IsPlain, Value, DecimalEquals;
    QuantityIsPositive(p);
    var payload := OrderAnswer(v, p.ids.emergencyClose).payload;
    AnsweredFill(v, p.ids.emergencyClose, p.symbol, ExitSide(p.direction), true, Amount(p.quantity), true, Some(p.quantity));
    ProducedFill(payload, p.symbol, ExitSide(p.direction), p.ids.emergencyClose, true, Some(p.quantity));
    DecimalEqualsDecides(CloseProofAt(v, p, p.quantity).value.executedQuantity, p.quantity);
  }

  lemma {:induction false} ClosedProves(p: ValidatedEntry, algos: map<string, Algo>, inflight: set<Request>, c: Cause)
    requires IsEntryPlan(p)
    ensures ProvesFlatten(Closed(p, algos, inflight), p, c)
  {
    hide IsEntryPlan, IsPlain, Value, CanonicalPositive, Holds, FilledOrder, FlattenReason, FlattenComplete, Supports, Described, DecimalEquals, EntryProofAt, CloseProofAt, EntryProofsHold, EntryShows;
    var v := Closed(p, algos, inflight);
    PlanNumbers(p);
    ClosedShows(p, algos, inflight);
    EntryReads(v, p);
    CloseReads(v, p);
    FlattenReasonIsGiven(c, true);
    DecimalEqualsDecides(p.quantity, p.quantity);
    DescribedSupports(p, EmergencyFlattenConfirmed, FlattenReason(c, true), EntryProofAt(v, p), None, None, CloseProofAt(v, p, p.quantity));
    EntryAgreement(p, Described(p, EmergencyFlattenConfirmed, FlattenReason(c, true), EntryProofAt(v, p), None, None, CloseProofAt(v, p, p.quantity)));
  }

  /** An exit at the venue is shown and proven. */
  lemma {:induction false} ExitReadsAt(v: Venue.State, p: ValidatedEntry, t: AlgoType)
    requires IsEntryPlan(p) && ExitId(p, t) in v.algos && v.algos[ExitId(p, t)] == ExitAt(p, t)
    ensures ExitShows(v, p, t, p.quantity)
    ensures ExitProofAt(v, p, t).Some?
    ensures AlgoProofMatches(ExitProofAt(v, p, t), p.symbol, ExitSide(p.direction), t, ExitId(p, t), p.quantity, ExitPrice(p, t))
  {
    hide IsEntryPlan, IsPlain, Value, AlgoProofMatches, ProveAlgoOrder;
    PlanNumbers(p);
    AnsweredAlgo(v, p.symbol, ExitSide(p.direction), t, ExitId(p, t), p.quantity, ExitPrice(p, t));
    ProvenAlgoMatches(AlgoAnswer(v, ExitId(p, t)).payload, p.symbol, ExitSide(p.direction), t, ExitId(p, t), p.quantity, ExitPrice(p, t));
  }

  /** A lost flatten whose stop arrives late: within one invocation, flat, and recovery stays at
      `open_protected_target_pending`. */
  lemma {:induction false} LateStopStalls(p: ValidatedEntry)
    requires IsEntryPlan(p)
    ensures var h := LateStopRun(p);
      && IsRun(h, p) && ExitProofAt(h[3], p, StopMarket).None? && ProvesFlatten(h[5], p, StopNotProven)
      && Exposure(h[6], p.direction) == 0.0 && Exclusive(h[6], p)
      && FlattenComplete(h[6], p, p.quantity, true) && FlattenRecoversTo(h[6], p, p.quantity, true) == OpenProtectedTargetPending
  {
    hide IsEntryPlan, ProvesFlatten, FlattenComplete, IsRun, Exclusive, FlattenRecoversTo;
    LateStopRuns(p);
    ClosedProves(p, map[], {WholeExit(p, StopMarket)}, StopNotProven);
    LateStopRecovers(p);
  }

  lemma {:induction false} LateStopRecovers(p: ValidatedEntry)
    requires IsEntryPlan(p)
    ensures var v := Closed(p, map[p.ids.stop := ExitAt(p, StopMarket)], {});
      FlattenComplete(v, p, p.quantity, true) && Exclusive(v, p) && FlattenRecoversTo(v, p, p.quantity, true) == OpenProtectedTargetPending
  {
    hide IsEntryPlan, IsPlain, Value, FlattenComplete, ActiveAlgo, Amount, EntryShows, FilledOrder, Exclusive, AlgoProofMatches, ExitProofAt, EntryAt,
      CloseAt, CloseFact, TargetShown;
    var stopped := map[p.ids.stop := ExitAt(p, StopMarket)];
    var v := Closed(p, stopped, {});
    PlanNumbers(p);
    ClosedShows(p, stopped, {});
    ExitReadsAt(v, p, StopMarket);
    assert Holds(v, NotPlaced(p.ids.target));
    NoTargetIsExclusive(v, p);
    FlattenConverges(v, p, p.quantity, true);
  }

  lemma {:induction false} NoTargetIsExclusive(v: Venue.State, p: ValidatedEntry)
    requires Holds(v, NotPlaced(p.ids.target))
    ensures Exclusive(v, p)
  {
    hide Holds;
    assert NotPlaced(p.ids.target) in ExclusiveGuard(p);
  }

  lemma {:induction false} LateStopRuns(p: ValidatedEntry)
    requires IsEntryPlan(p)
    ensures IsRun(LateStopRun(p), p)
  {
    hide IsEntryPlan, IsPlain, Value, EnvStep, EntryOrder, EntryAt, CloseAt, ExitAt, Held;
    var h, stop := LateStopRun(p), WholeExit(p, StopMarket);
    PlanNumbers(p);
    EntryFills(p);
    CloseFills(p, map[], {stop});
    ExitLands(p, StopMarket, h[5]);
    assert h[6] == h[5].(inflight := h[5].inflight - {stop}, algos := h[5].algos[p.ids.stop := ExitAt(p, StopMarket)]);
    assert h[3] == Send(h[2], stop);
    forall k | 0 <= k < |h| - 1
      ensures Follows(h[k], h[k + 1], p)
    {
      assert k in {0, 1, 2, 3, 4, 5};
    }
  }

  /** A flatten by a second invocation leaves the exits of the first at the venue: flat, and recovery proves
      the position open to the durable record's satisfaction. */
  lemma {:induction false} TwoInvocationsReopen(p: ValidatedEntry)
    requires IsEntryPlan(p)
    ensures var h := TwoInvocationRun(p);
      && IsRun(h, p) && ExitProofAt(h[5], p, StopMarket).Some? && ExitProofAt(h[5], p, TakeProfitMarket).None?
      && ProvesFlatten(h[8], p, StopRejected)
      && Exposure(h[9], p.direction) == 0.0 && !Exclusive(h[9], p) && ProvesOpen(h[9], p)
      && FlattenComplete(h[9], p, p.quantity, true) && FlattenRecoversTo(h[9], p, p.quantity, true) == OpenProtected
  {
    hide IsEntryPlan, ProvesFlatten, ProvesOpen, FlattenComplete, IsRun, Exclusive, FlattenRecoversTo, AlgoProofMatches, ExitShows;
    var stopped := map[p.ids.stop := ExitAt(p, StopMarket)];
    TwoInvocationRuns(p);
    ClosedProves(p, stopped, {WholeExit(p, TakeProfitMarket), EntryOrder(p)}, StopRejected);
    ExitReadsAt(TwoInvocationRun(p)[5], p, StopMarket);
    PlanNumbers(p);
    TwoInvocationRecovers(p);
  }

  lemma {:induction false} TwoInvocationRuns(p: ValidatedEntry)
    requires IsEntryPlan(p)
    ensures IsRun(TwoInvocationRun(p), p)
  {
    hide IsEntryPlan, IsPlain, Value, EnvStep, EntryAt, CloseAt, ExitAt, Held;
    var h, stop, target := TwoInvocationRun(p), WholeExit(p, StopMarket), WholeExit(p, TakeProfitMarket);
    var stopped := map[p.ids.stop := ExitAt(p, StopMarket)];
    PlanNumbers(p);
    EntryFills(p);
    CloseFills(p, stopped, {target, EntryOrder(p)});
    ExitLands(p, StopMarket, h[3]);
    ExitLands(p, TakeProfitMarket, h[8]);
    assert h[4] == h[3].(inflight := h[3].inflight - {stop}, algos := h[3].algos[p.ids.stop := ExitAt(p, StopMarket)]);
    assert h[9] == h[8].(inflight := h[8].inflight - {target}, algos := h[8].algos[p.ids.target := ExitAt(p, TakeProfitMarket)]);
    assert h[3] == Send(h[2], stop) && h[5] == Send(h[4], target) && h[6] == Send(h[5], EntryOrder(p));
    forall k | 0 <= k < |h| - 1
      ensures Follows(h[k], h[k + 1], p)
    {
      assert k in {0, 1, 2, 3, 4, 5, 6, 7, 8};
    }
  }

  lemma {:induction false} TwoInvocationRecovers(p: ValidatedEntry)
    requires IsEntryPlan(p)
    ensures var v := TwoInvocationRun(p)[9];
      && Exposure(v, p.direction) == 0.0 && !Exclusive(v, p) && ProvesOpen(v, p)
      && FlattenComplete(v, p, p.quantity, true) && FlattenRecoversTo(v, p, p.quantity, true) == OpenProtected
  {
    hide IsEntryPlan, IsPlain, Value, FlattenComplete, ActiveAlgo, Amount, EntryShows, FilledOrder, AlgoProofMatches, ExitProofAt, EntryProofAt,
      EntryAt, CloseFact, RestartReason, Supports, EntryProofsHold, Described, DecimalEquals, CanonicalPositive;
    var both := map[p.ids.stop := ExitAt(p, StopMarket), p.ids.target := ExitAt(p, TakeProfitMarket)];
    var v := TwoInvocationRun(p)[9];
    PlanNumbers(p);
    assert v == Closed(p, both, {EntryOrder(p)});
    ClosedShows(p, both, {EntryOrder(p)});
    ExitReadsAt(v, p, StopMarket);
    ExitReadsAt(v, p, TakeProfitMarket);
    BothIsNotExclusive(v, p);
    EntryReads(v, p);
    RestartReasonIsGiven(OpenProtected, false);
    var entry, stop, target := EntryProofAt(v, p), ExitProofAt(v, p, StopMarket), ExitProofAt(v, p, TakeProfitMarket);
    DescribedSupports(p, OpenProtected, RestartReason(OpenProtected, false), entry, stop, target, None);
    EntryAgreement(p, Described(p, OpenProtected, RestartReason(OpenProtected, false), entry, stop, target, None));
    QuantityIsPositive(p);
    DecimalEqualsDecides(p.quantity, p.quantity);
  }

  lemma {:induction false} BothIsNotExclusive(v: Venue.State, p: ValidatedEntry)
    requires p.ids.target in v.algos && p.ids.emergencyClose in v.orders
    ensures !Exclusive(v, p)
  {}
}
