/** Opening a protected position: market entry, stop, target, and an emergency flatten whenever the entry is
    partial or its stop is not proven. */
module EntryCoordinator {
  import opened Wrappers
  import opened DecimalText
  import opened MutationContract
  import opened Evidence
  import opened Venue
  import opened ProtectionGuard
  import opened Lookups
  import opened OwnedState
  import opened Lifecycle

  // ---------------------------------------------------------------- results

  datatype Cause = PartialEntry | StopRejected | StopNotProven

  function CauseText(c: Cause): string {
    match c
    case PartialEntry => "partial_entry_requires_emergency_flatten"
    case StopRejected => "native_stop_rejected"
    case StopNotProven => "native_stop_not_proven"
  }

  function FlattenReason(c: Cause, proven: bool): string {
    CauseText(c) + (if proven then "_close_proven" else "_close_requires_reconciliation")
  }

  /** The reason of a live outcome that is not a flatten. */
  function LiveReason(o: EntryOutcome): string {
    match o
    case RejectedBeforeExposure => "entry_rejected"
    case EntryVisibilityPending => "entry_outcome_requires_reconciliation"
    case OpenProtectedTargetPending => "native_stop_proven_target_requires_reconciliation"
    case _ => "native_stop_and_target_proven"
  }

  /** The reason recovery gives. */
  function RestartReason(o: EntryOutcome, partial: bool): string {
    match o
    case EmergencyFlattenPending =>
      if partial then "restart_partial_entry_requires_emergency_flatten" else "restart_native_stop_absent_emergency_flatten_required"
    case EmergencyFlattenConfirmed =>
      if partial then "restart_partial_entry_close_proven" else "restart_native_stop_absent_close_proven"
    case OpenProtectedTargetPending => "restart_native_stop_proven_target_not_proven"
    case OpenProtected => "restart_native_stop_and_target_proven"
    case _ => "restart_entry_not_proven"
  }

  lemma {:induction false} FlattenReasonIsGiven(c: Cause, proven: bool)
    ensures FlattenReason(c, proven) != ""
  {
    hide CauseText;
    assert |FlattenReason(c, proven)| > 0;
  }

  lemma {:induction false} LiveReasonIsGiven(o: EntryOutcome)
    ensures LiveReason(o) != ""
  {}

  lemma {:induction false} RestartReasonIsGiven(o: EntryOutcome, partial: bool)
    ensures RestartReason(o, partial) != ""
  {}

  /** `result`. */
  function Described(p: ValidatedEntry, state: EntryOutcome, reason: string, entry: Option<OrdinaryEvidence>,
                     stop: Option<AlgoEvidence>, target: Option<AlgoEvidence>, close: Option<OrdinaryEvidence>): EntryResult {
    EntryResult(p.intentId, state, reason, p.ids, entry, stop, target, close)
  }

  predicate IsEntryPlan(p: ValidatedEntry) { ValidateEntry(EntryRequestOf(p)) == Some(p) }

  lemma {:induction false} PlanNumbers(p: ValidatedEntry)
    requires IsEntryPlan(p)
    ensures IsPlain(p.quantity) && IsPlain(p.stopPrice) && IsPlain(p.targetPrice)
    ensures p.ids.entry != p.ids.emergencyClose && p.ids.stop != p.ids.target
  {
    hide IsPlain, Value, CanonicalPositive, CanonicalUuid, CanonicalSymbol, DeriveEntryIds;
    CanonicalPositiveIff(p.quantity);
    CanonicalPositiveIff(p.stopPrice);
    CanonicalPositiveIff(p.targetPrice);
    EntryIdsDiffer(p.intentId);
  }

  lemma {:induction false} EntryIdsDiffer(intentId: string)
    requires IsUuid(intentId)
    ensures var ids := DeriveEntryIds(intentId); ids.entry != ids.emergencyClose && ids.stop != ids.target
  {
    hide IsUuid, OrderId;
    var ids := DeriveEntryIds(intentId);
    if ids.entry == ids.emergencyClose { OrderIdInjective("gce", intentId, "gcf", intentId); }
    if ids.stop == ids.target { OrderIdInjective("gcs", intentId, "gct", intentId); }
  }

  // ---------------------------------------------------------------- what a result always carries

  /** The outcome says exactly what was proven, and what was proven is about this plan; protection is of what
      the entry executed, and a close is of as much. */
  predicate Supports(p: ValidatedEntry, r: EntryResult) {
    && EntryResultIdentifies(p, r)
    && Accounts(p, r.state, r.entry, r.stop, r.target, r.emergencyClose)
  }

  predicate Accounts(p: ValidatedEntry, state: EntryOutcome, entry: Option<OrdinaryEvidence>,
                     stop: Option<AlgoEvidence>, target: Option<AlgoEvidence>, close: Option<OrdinaryEvidence>) {
    && (entry.Some? ==> IsFillOf(entry.value, p.symbol, EntrySide(p.direction), p.ids.entry, false))
    && (stop.Some? ==>
          && entry.Some? && entry.value.status == "FILLED"
          && AlgoProofMatches(stop, p.symbol, ExitSide(p.direction), StopMarket, p.ids.stop, entry.value.executedQuantity, p.stopPrice))
    && (target.Some? ==>
          && stop.Some?
          && AlgoProofMatches(target, p.symbol, ExitSide(p.direction), TakeProfitMarket, p.ids.target, entry.value.executedQuantity, p.targetPrice))
    && (close.Some? ==>
          && entry.Some? && stop.None?
          && IsFillOf(close.value, p.symbol, ExitSide(p.direction), p.ids.emergencyClose, true)
          && DecimalEquals(close.value.executedQuantity, entry.value.executedQuantity))
    && match state
       case RejectedBeforeExposure => entry.None?
       case EntryVisibilityPending => entry.None?
       case EmergencyFlattenPending => entry.Some? && stop.None? && close.None?
       case EmergencyFlattenConfirmed => close.Some?
       case OpenProtectedTargetPending => stop.Some? && target.None?
       case OpenProtected => target.Some?
  }

  lemma {:induction false} DescribedFields(p: ValidatedEntry, state: EntryOutcome, reason: string, entry: Option<OrdinaryEvidence>,
                     stop: Option<AlgoEvidence>, target: Option<AlgoEvidence>, close: Option<OrdinaryEvidence>)
    ensures var r := Described(p, state, reason, entry, stop, target, close);
      r.state == state && r.entry == entry && r.stop == stop && r.target == target && r.emergencyClose == close
  {}

  lemma {:induction false} DescribedSupports(p: ValidatedEntry, state: EntryOutcome, reason: string, entry: Option<OrdinaryEvidence>,
                     stop: Option<AlgoEvidence>, target: Option<AlgoEvidence>, close: Option<OrdinaryEvidence>)
    requires reason != "" && Accounts(p, state, entry, stop, target, close)
    ensures var r := Described(p, state, reason, entry, stop, target, close);
      r.state == state && r.entry == entry && r.stop == stop && r.emergencyClose == close && Supports(p, r)
  {
    hide Accounts;
  }

  /** Which results the durable record accepts, for arbitrary venue payloads: an open position is accepted
      exactly when the entry executed the planned quantity; a flatten exactly when a filled entry did and the
      venue calls the close itself filled. */
  lemma {:induction false} EntryAgreement(p: ValidatedEntry, r: EntryResult)
    requires IsEntryPlan(p) && Supports(p, r)
    ensures r.state.OpenProtected? ==> (EntryProofsHold(p, r) <==> DecimalEquals(r.entry.value.executedQuantity, p.quantity))
    ensures r.state.EmergencyFlattenConfirmed? ==> (EntryProofsHold(p, r) <==>
      && (r.entry.value.status == "FILLED" ==> DecimalEquals(r.entry.value.executedQuantity, p.quantity))
      && r.emergencyClose.value.status == "FILLED")
    ensures !r.state.OpenProtected? && !r.state.EmergencyFlattenConfirmed? ==> EntryProofsHold(p, r)
  {
    hide IsEntryPlan, DecimalEquals, CanonicalPositive;
    PlanNumbers(p);
    if r.state.OpenProtected? {
      SameQuantity(r.entry.value.executedQuantity, p.quantity, r.stop.value.quantity);
      SameQuantity(r.entry.value.executedQuantity, p.quantity, r.target.value.quantity);
    }
  }

  /** Two texts that equal the same number equal each other. */
  lemma {:induction false} SameQuantity(a: string, b: string, q: string)
    requires IsCanonicalPositive(a) && IsPlain(b) && DecimalEquals(q, a)
    ensures DecimalEquals(a, b) ==> DecimalEquals(q, b)
  {
    hide IsPlain, Value, DecimalEquals;
    CanonicalPositiveIff(a);
    DecimalEqualsDecides(q, a);
    DecimalEqualsDecides(a, b);
    DecimalEqualsDecides(q, b);
  }

  // ---------------------------------------------------------------- what the venue must show

  ghost function OpeningOf(p: ValidatedEntry): Opening { Opening(p.direction, p.ids.entry, p.ids.emergencyClose) }

  /** The position an entry of this quantity opens. */
  ghost function GuardOf(p: ValidatedEntry, executed: string): Guard {
    Guard(p.direction, Amount(executed), p.ids.emergencyClose)
  }

  ghost function EntryFact(p: ValidatedEntry, executed: string, full: bool): Fact {
    HasFilled(p.ids.entry, p.symbol, EntrySide(p.direction), false, Amount(executed), full)
  }

  /** What stays known of an entry fill: all of it when no more can follow, otherwise that at least so much is executed. */
  ghost function SeenFact(mood: Mood, p: ValidatedEntry, executed: string, full: bool): Fact {
    if full || !FillsLater(mood) then EntryFact(p, executed, full)
    else HasExecuted(p.ids.entry, p.symbol, EntrySide(p.direction), false, Amount(executed))
  }

  ghost function CloseFact(p: ValidatedEntry, executed: string): Fact {
    HasFilled(p.ids.emergencyClose, p.symbol, ExitSide(p.direction), true, Amount(executed), true)
  }

  ghost function CoverFact(p: ValidatedEntry, executed: string): Fact {
    IsCovered(GuardOf(p, executed), p.ids.stop, Amount(executed))
  }

  ghost function StopFact(p: ValidatedEntry, executed: string): Fact {
    HasActive(p.ids.stop, p.symbol, ExitSide(p.direction), StopMarket, Amount(executed), Amount(p.stopPrice))
  }

  ghost function TargetFact(p: ValidatedEntry, executed: string): Fact {
    HasActive(p.ids.target, p.symbol, ExitSide(p.direction), TakeProfitMarket, Amount(executed), Amount(p.targetPrice))
  }

  ghost function Common(p: ValidatedEntry): set<Fact> {
    {IsOpened(OpeningOf(p)), AsRequested(p.ids.entry, p.quantity), NotCancelling(p.ids.stop), NotCancelling(p.ids.target)}
  }

  ghost function FreshFacts(p: ValidatedEntry): set<Fact> {
    Common(p) + {NotSent(p.ids.emergencyClose), NotPlaced(p.ids.target)}
  }

  /** No position beyond what this entry may already have opened, and no close or target of it yet. */
  ghost predicate StartsFresh(v: Venue.State, p: ValidatedEntry) { AllHold(v, FreshFacts(p)) }

  /** Everything a finished open leaves at the venue. */
  ghost predicate OpenComplete(v: Venue.State, p: ValidatedEntry, executed: string) {
    AllHold(v, OpenFacts(p, executed))
  }

  ghost function OpenFacts(p: ValidatedEntry, executed: string): set<Fact> {
    {EntryFact(p, executed, true), StopFact(p, executed), TargetFact(p, executed)}
  }

  /** Nothing but this entry and its emergency close moves the position. */
  ghost predicate StartsBalanced(v: Venue.State, p: ValidatedEntry) { Holds(v, IsBalanced(OpeningOf(p))) }

  /** Everything a confirmed flatten leaves at the venue; a stop whose placement was never proven may be among it. */
  ghost predicate FlattenComplete(v: Venue.State, p: ValidatedEntry, executed: string, full: bool) {
    AllHold(v, FlattenFacts(p, executed, full))
  }

  /** After a close of `executed`, the position is at most what the entry has filled beyond that; so nothing,
      when the entry was full or what an order executes it executes at once. */
  ghost predicate FlattenLeaves(mood: Mood, v: Venue.State, p: ValidatedEntry, executed: string, full: bool) {
    && 0.0 <= Exposure(v, p.direction) <= FilledAmount(v, p.ids.entry) - Amount(executed)
    && Holds(v, SeenFact(mood, p, executed, full)) && Holds(v, CloseFact(p, executed))
    && (full || !FillsLater(mood) ==> Exposure(v, p.direction) == 0.0 && FlattenComplete(v, p, executed, full))
  }

  /** The position is exactly what the entry has filled beyond that: it is flat if and only if the entry has
      filled no further. */
  ghost predicate LeavesExactly(v: Venue.State, p: ValidatedEntry, executed: string) {
    && Exposure(v, p.direction) == FilledAmount(v, p.ids.entry) - Amount(executed)
    && (Exposure(v, p.direction) == 0.0 <==> FilledAmount(v, p.ids.entry) == Amount(executed))
  }

  ghost function FlattenFacts(p: ValidatedEntry, executed: string, full: bool): set<Fact> {
    {EntryFact(p, executed, full), CloseFact(p, executed)}
  }

  /** One invocation never has both a target and an emergency close at the venue or on the way. */
  ghost predicate Exclusive(v: Venue.State, p: ValidatedEntry) { Secure(v, ExclusiveGuard(p)) }

  ghost function ExclusiveGuard(p: ValidatedEntry): set<Fact> { {NotPlaced(p.ids.target), NotSent(p.ids.emergencyClose)} }

  /** Whatever recovery relies on: the position is only this entry's, its stop and target are not being
      cancelled, and no target was placed if a close was sent. */
  ghost predicate Recoverable(v: Venue.State, p: ValidatedEntry) { AllHold(v, Common(p)) && Exclusive(v, p) }

  /** In every state passed through since then. */
  ghost predicate RecoverableThroughout(past: seq<Venue.State>, h: seq<Venue.State>, p: ValidatedEntry) {
    past != [] && past <= h && forall k :: |past| - 1 <= k < |h| ==> Recoverable(h[k], p)
  }

  // ---------------------------------------------------------------- what opening may rely on

  datatype Stage =
    | Fresh
    | Filled(executed: string, full: bool)
    | StopProven(executed: string)
    | TargetSent(executed: string)
    | PairProven(executed: string)
    | Flattening(executed: string, full: bool)
    | Flattened(executed: string, full: bool)

  /** An entry under observation since a past history, with or without the premises of its promises. */
  datatype Watch = Watch(mood: Mood, past: seq<Venue.State>, plan: ValidatedEntry, safe: bool, exact: bool)

  ghost function StageFacts(w: Watch, stage: Stage): set<Fact> {
    if w.safe then PlanFacts(w.plan, w.mood, stage) + Exactly(w) else {}
  }

  ghost function Exactly(w: Watch): set<Fact> { if w.exact && !w.mood.Wild? then {IsBalanced(OpeningOf(w.plan))} else {} }

  ghost function PlanFacts(p: ValidatedEntry, mood: Mood, stage: Stage): set<Fact> {
    var noClose, noTarget, calm := NotSent(p.ids.emergencyClose), NotPlaced(p.ids.target), !mood.Wild?;
    match stage
    case Fresh => FreshFacts(p)
    case Filled(e, f) => FreshFacts(p) + {SeenFact(mood, p, e, f)}
    case StopProven(e) => FreshFacts(p) + Covering(p, calm, e)
    case TargetSent(e) => Common(p) + {noClose} + Covering(p, calm, e)
    case PairProven(e) => Common(p) + {noClose} + Covering(p, calm, e) + (if calm then {TargetFact(p, e)} else {})
    case Flattening(e, f) => Common(p) + {noTarget, SeenFact(mood, p, e, f), AsRequested(p.ids.emergencyClose, e)}
    case Flattened(e, f) => Common(p) + {noTarget, SeenFact(mood, p, e, f), AsRequested(p.ids.emergencyClose, e), CloseFact(p, e)}
  }

  ghost function Covering(p: ValidatedEntry, calm: bool, e: string): set<Fact> {
    {EntryFact(p, e, true), CoverFact(p, e)} + (if calm then {StopFact(p, e)} else {})
  }

  ghost function Guards(w: Watch): set<set<Fact>> { if w.safe then PlanGuards(w.plan) else {} }

  ghost function PlanGuards(p: ValidatedEntry): set<set<Fact>> {
    {ExclusiveGuard(p), {IsOpened(OpeningOf(p))}, {AsRequested(p.ids.entry, p.quantity)}, {NotCancelling(p.ids.stop)}, {NotCancelling(p.ids.target)}}
  }

  /** Facts that include the common ones, and either the target or the close unsent, rely on every guard. */
  lemma {:induction false} ReliesOnAll(p: ValidatedEntry, facts: set<Fact>)
    requires Common(p) <= facts && Relied(facts, ExclusiveGuard(p))
    ensures forall g :: g in PlanGuards(p) ==> Relied(facts, g)
  {
    hide ExclusiveGuard;
    assert Relied(facts, {IsOpened(OpeningOf(p))});
    assert Relied(facts, {AsRequested(p.ids.entry, p.quantity)});
    assert Relied(facts, {NotCancelling(p.ids.stop)});
    assert Relied(facts, {NotCancelling(p.ids.target)});
  }

  /** And a state secure under every guard is recoverable. */
  lemma {:induction false} SecureIsRecoverable(v: Venue.State, p: ValidatedEntry)
    requires forall g :: g in PlanGuards(p) ==> Secure(v, g)
    ensures Recoverable(v, p)
  {
    hide Holds, ExclusiveGuard;
    assert ExclusiveGuard(p) in PlanGuards(p);
    forall f | f in Common(p)
      ensures Holds(v, f)
    {
      assert {f} in PlanGuards(p);
    }
  }

  ghost predicate At(w: Watch, h: seq<Venue.State>, stage: Stage) {
    w.past != [] && w.past <= h && Known(w.mood, h, |w.past| - 1, StageFacts(w, stage), Guards(w))
  }

  lemma {:induction false} AtLast(w: Watch, h: seq<Venue.State>, stage: Stage)
    requires At(w, h, stage)
    ensures h != [] && w.past != [] && w.past <= h
    ensures forall f :: f in StageFacts(w, stage) ==> Holds(h[|h| - 1], f)
  {
    hide Holds, StageFacts;
  }

  lemma {:induction false} Relies(p: ValidatedEntry, facts: set<Fact>)
    requires NotPlaced(p.ids.target) in facts || NotSent(p.ids.emergencyClose) in facts
    ensures Relied(facts, ExclusiveGuard(p))
  {
    if NotPlaced(p.ids.target) in facts { assert NotPlaced(p.ids.target) in ExclusiveGuard(p); }
    else { assert NotSent(p.ids.emergencyClose) in ExclusiveGuard(p); }
  }

  lemma {:induction false} BeginsAt(w: Watch, h: seq<Venue.State>)
    requires h != [] && w.past == h
    requires w.safe ==> StartsFresh(h[|h| - 1], w.plan) && (w.exact ==> StartsBalanced(h[|h| - 1], w.plan))
    ensures At(w, h, Fresh)
  {
    hide Holds, PlanGuards;
    if w.safe {
      var facts := StageFacts(w, Fresh);
      Relies(w.plan, facts);
      ReliesOnAll(w.plan, facts);
      forall g | g in PlanGuards(w.plan)
        ensures Secure(h[|h| - 1], g)
      {
        StillSecure(h[|h| - 1], facts, g);
      }
    }
  }

  lemma {:induction false} Waits(w: Watch, past: seq<Venue.State>, h: seq<Venue.State>, stage: Stage)
    requires At(w, past, stage) && Quiet(w.mood, past, h)
    ensures At(w, h, stage)
  {
    hide Known, Quiet;
    Waited(w.mood, past, h, |w.past| - 1, StageFacts(w, stage), Guards(w));
  }

  /** What each stage may send. */
  predicate MaySend(p: ValidatedEntry, r: Request, stage: Stage) {
    || (stage.Fresh? && r == PostOrder(p.ids.entry, p.symbol, EntrySide(p.direction), p.quantity, false))
    || (stage.Filled? && r.PostAlgo? && r.algoId == p.ids.stop)
    || (stage.TargetSent? && r.PostAlgo? && r.algoId == p.ids.target)
    || (stage.Flattening? && r == PostOrder(p.ids.emergencyClose, p.symbol, ExitSide(p.direction), stage.executed, true))
  }

  lemma {:induction false} StageSpares(w: Watch, r: Request, stage: Stage)
    requires IsEntryPlan(w.plan) && MaySend(w.plan, r, stage)
    ensures AllSpared(r, StageFacts(w, stage))
  {
    hide IsEntryPlan, IsPlain, Value;
    PlanNumbers(w.plan);
  }

  lemma {:induction false} Sends(w: Watch, past: seq<Venue.State>, h: seq<Venue.State>, r: Request, rejected: bool, stage: Stage)
    requires At(w, past, stage) && Sent(w.mood, past, h, r, rejected) && IsEntryPlan(w.plan) && MaySend(w.plan, r, stage)
    ensures At(w, h, stage)
  {
    hide Known, Sent, IsEntryPlan, MaySend;
    StageSpares(w, r, stage);
    Requested(w.mood, past, h, r, rejected, |w.past| - 1, StageFacts(w, stage), Guards(w));
  }

  /** Moving on: drop what will no longer hold, then add what has been learnt. */
  lemma {:induction false} Moves(w: Watch, h: seq<Venue.State>, from: Stage, to: Stage, fewer: set<Fact>, more: set<Fact>)
    requires At(w, h, from) && StageFacts(w, to) == fewer + more && fewer <= StageFacts(w, from)
    requires forall f :: f in more ==> Holds(h[|h| - 1], f) && Lasting(w.mood, f)
    requires w.safe ==> Common(w.plan) <= fewer && Relied(fewer, ExclusiveGuard(w.plan))
    ensures At(w, h, to)
  {
    hide Holds, StageFacts, Lasting, Secure, ExclusiveGuard, Common, PlanGuards;
    if w.safe {
      ReliesOnAll(w.plan, fewer);
      forall g | g in PlanGuards(w.plan)
        ensures Relied(StageFacts(w, to), g)
      {
        var f :| f in fewer && f in g;
        assert f in StageFacts(w, to);
      }
    }
    Dropped(w.mood, h, |w.past| - 1, StageFacts(w, from), Guards(w), fewer);
  }

  lemma {:induction false} ToFilled(w: Watch, h: seq<Venue.State>, executed: string, full: bool)
    requires At(w, h, Fresh)
    requires w.safe ==> FilledOrder(h[|h| - 1], w.plan.ids.entry, w.plan.symbol, EntrySide(w.plan.direction), false, Amount(executed), full)
    ensures At(w, h, Filled(executed, full))
  {
    hide Known, FilledOrder, Amount;
    var more := if w.safe then {SeenFact(w.mood, w.plan, executed, full)} else {};
    if w.safe {
      Relies(w.plan, StageFacts(w, Fresh));
      FilledIsSeen(h[|h| - 1], w.mood, w.plan, executed, full);
    }
    Moves(w, h, Fresh, Filled(executed, full), StageFacts(w, Fresh), more);
  }

  lemma {:induction false} FilledIsSeen(v: Venue.State, mood: Mood, p: ValidatedEntry, executed: string, full: bool)
    requires FilledOrder(v, p.ids.entry, p.symbol, EntrySide(p.direction), false, Amount(executed), full)
    ensures Holds(v, SeenFact(mood, p, executed, full)) && Lasting(mood, SeenFact(mood, p, executed, full))
  {
    hide IsPositiveText, IsPlain, Value;
  }

  /** A proven stop of what the entry executed covers the position. */
  lemma {:induction false} ToStopProven(w: Watch, h: seq<Venue.State>, executed: string)
    requires At(w, h, Filled(executed, true))
    requires w.safe ==>
      ActiveAlgo(h[|h| - 1], w.plan.ids.stop, w.plan.symbol, ExitSide(w.plan.direction), StopMarket, Amount(executed), Amount(w.plan.stopPrice))
    ensures At(w, h, StopProven(executed))
  {
    hide Known, ActiveAlgo, Amount, Common, Holds;
    var p := w.plan;
    var stop := if w.safe && !w.mood.Wild? then {StopFact(p, executed)} else {};
    var more := (if w.safe then {CoverFact(p, executed)} else {}) + stop;
    if w.safe {
      StopCovers(w, h, executed);
      FreshHas(p);
      Relies(p, StageFacts(w, Filled(executed, true)));
    }
    Moves(w, h, Filled(executed, true), StopProven(executed), StageFacts(w, Filled(executed, true)), more);
  }

  lemma {:induction false} FreshHas(p: ValidatedEntry)
    ensures NotSent(p.ids.emergencyClose) in FreshFacts(p) && NotPlaced(p.ids.target) in FreshFacts(p)
  {}

  lemma {:induction false} StopCovers(w: Watch, h: seq<Venue.State>, executed: string)
    requires At(w, h, Filled(executed, true)) && w.safe
    requires ActiveAlgo(h[|h| - 1], w.plan.ids.stop, w.plan.symbol, ExitSide(w.plan.direction), StopMarket, Amount(executed), Amount(w.plan.stopPrice))
    ensures Holds(h[|h| - 1], CoverFact(w.plan, executed)) && Holds(h[|h| - 1], StopFact(w.plan, executed))
  {
    hide Known, ActiveAlgo, Amount, Opened, Contained, Covers, FilledOrder;
    var p, v := w.plan, LastOf(w, h, Filled(executed, true));
    AtLast(w, h, Filled(executed, true));
    assert Holds(v, IsOpened(OpeningOf(p))) && Holds(v, EntryFact(p, executed, true)) && Holds(v, NotCancelling(p.ids.stop));
    OpenedIsContained(v, OpeningOf(p), p.symbol, EntrySide(p.direction), Amount(executed));
    StopTakesOver(v, GuardOf(p, executed), p.symbol, p.ids.stop, Amount(executed), Amount(p.stopPrice));
  }

  ghost function LastOf(w: Watch, h: seq<Venue.State>, stage: Stage): Venue.State
    requires At(w, h, stage)
  {
    h[|h| - 1]
  }

  /** Once a target may be on its way, only the close is still known not to be. */
  lemma {:induction false} ToTargetSent(w: Watch, h: seq<Venue.State>, executed: string)
    requires At(w, h, StopProven(executed))
    ensures At(w, h, TargetSent(executed))
  {
    hide Known, Amount;
    if w.safe { Relies(w.plan, StageFacts(w, TargetSent(executed))); }
    assert StageFacts(w, TargetSent(executed)) <= StageFacts(w, StopProven(executed));
    Moves(w, h, StopProven(executed), TargetSent(executed), StageFacts(w, TargetSent(executed)), {});
  }

  lemma {:induction false} ToPairProven(w: Watch, h: seq<Venue.State>, executed: string)
    requires At(w, h, TargetSent(executed))
    requires w.safe ==>
      ActiveAlgo(h[|h| - 1], w.plan.ids.target, w.plan.symbol, ExitSide(w.plan.direction), TakeProfitMarket, Amount(executed), Amount(w.plan.targetPrice))
    ensures At(w, h, PairProven(executed))
  {
    hide Known, ActiveAlgo, Amount, Covering, Holds, Common;
    var p := w.plan;
    var more := if w.safe && !w.mood.Wild? then {TargetFact(p, executed)} else {};
    if w.safe {
      TargetHolds(w, h, executed);
      Relies(p, StageFacts(w, TargetSent(executed)));
    }
    Moves(w, h, TargetSent(executed), PairProven(executed), StageFacts(w, TargetSent(executed)), more);
  }

  lemma {:induction false} TargetHolds(w: Watch, h: seq<Venue.State>, executed: string)
    requires At(w, h, TargetSent(executed)) && w.safe
    requires ActiveAlgo(h[|h| - 1], w.plan.ids.target, w.plan.symbol, ExitSide(w.plan.direction), TakeProfitMarket, Amount(executed), Amount(w.plan.targetPrice))
    ensures Holds(h[|h| - 1], TargetFact(w.plan, executed))
  {
    hide Known, ActiveAlgo, Amount, Covering;
    AtLast(w, h, TargetSent(executed));
    assert Holds(LastOf(w, h, TargetSent(executed)), NotCancelling(w.plan.ids.target));
  }

  /** Once a close may be on its way, only the target is still known not to be. */
  lemma {:induction false} ToFlattening(w: Watch, h: seq<Venue.State>, executed: string, full: bool)
    requires At(w, h, Filled(executed, full))
    ensures At(w, h, Flattening(executed, full))
  {
    hide Known, Amount, Common, Holds;
    var p := w.plan;
    var fewer := if w.safe then Common(p) + {NotPlaced(p.ids.target), SeenFact(w.mood, p, executed, full)} + Exactly(w) else {};
    var more := if w.safe then {AsRequested(p.ids.emergencyClose, executed)} else {};
    if w.safe {
      CloseAsRequested(w, h, executed, full);
      Relies(p, fewer);
    }
    Moves(w, h, Filled(executed, full), Flattening(executed, full), fewer, more);
  }

  lemma {:induction false} CloseAsRequested(w: Watch, h: seq<Venue.State>, executed: string, full: bool)
    requires At(w, h, Filled(executed, full)) && w.safe
    ensures Holds(h[|h| - 1], AsRequested(w.plan.ids.emergencyClose, executed))
  {
    hide Known, Amount, Common;
    AtLast(w, h, Filled(executed, full));
    assert Holds(LastOf(w, h, Filled(executed, full)), NotSent(w.plan.ids.emergencyClose));
  }

  /** A close of what the entry was seen to execute leaves no more than the entry fills after that. */
  lemma {:induction false} ToFlattened(w: Watch, h: seq<Venue.State>, executed: string, full: bool, closed: string, closedFull: bool)
    requires At(w, h, Flattening(executed, full)) && IsPlain(executed) && Amount(closed) == Amount(executed)
    requires w.safe ==> FilledOrder(h[|h| - 1], w.plan.ids.emergencyClose, w.plan.symbol, ExitSide(w.plan.direction), true, Amount(closed), closedFull)
    ensures At(w, h, Flattened(executed, full)) && (w.safe ==> closedFull)
  {
    hide Known, IsPlain, Value;
    var p := w.plan;
    var more := if w.safe then {CloseFact(p, executed)} else {};
    if w.safe {
      ClosedIsFull(w, h, executed, full, closed, closedFull);
      Relies(p, StageFacts(w, Flattening(executed, full)));
    }
    assert StageFacts(w, Flattened(executed, full)) == StageFacts(w, Flattening(executed, full)) + more;
    Moves(w, h, Flattening(executed, full), Flattened(executed, full), StageFacts(w, Flattening(executed, full)), more);
  }

  lemma {:induction false} ClosedIsFull(w: Watch, h: seq<Venue.State>, executed: string, full: bool, closed: string, closedFull: bool)
    requires At(w, h, Flattening(executed, full)) && IsPlain(executed) && Amount(closed) == Amount(executed) && w.safe
    requires FilledOrder(h[|h| - 1], w.plan.ids.emergencyClose, w.plan.symbol, ExitSide(w.plan.direction), true, Amount(closed), closedFull)
    ensures closedFull
    ensures Holds(h[|h| - 1], CloseFact(w.plan, executed))
  {
    hide Known, IsPlain, Value, Opened;
    var p, v := w.plan, LastOf(w, h, Flattening(executed, full));
    AtLast(w, h, Flattening(executed, full));
    CommonHolds(w, Flattening(executed, full));
    assert Holds(v, AsRequested(p.ids.emergencyClose, executed));
  }

  lemma {:induction false} CommonHolds(w: Watch, stage: Stage)
    ensures w.safe ==> Common(w.plan) <= StageFacts(w, stage)
  {
    hide Common, Covering;
  }

  /** A full fill executed the planned quantity. */
  lemma {:induction false} FullMeansPlanned(w: Watch, h: seq<Venue.State>, stage: Stage, executed: string)
    requires At(w, h, stage) && w.safe && EntryFact(w.plan, executed, true) in StageFacts(w, stage)
    requires IsPlain(executed) && IsPlain(w.plan.quantity)
    ensures DecimalEquals(executed, w.plan.quantity)
  {
    hide Known, IsPlain, Value, DecimalEquals, Opened, StageFacts;
    var p, v := w.plan, LastOf(w, h, stage);
    AtLast(w, h, stage);
    CommonHolds(w, stage);
    assert Holds(v, EntryFact(p, executed, true)) && Holds(v, AsRequested(p.ids.entry, p.quantity));
    DecimalEqualsDecides(executed, p.quantity);
  }

  lemma {:induction false} CoverAt(w: Watch, h: seq<Venue.State>, stage: Stage)
    requires At(w, h, stage) && w.safe && (stage.StopProven? || stage.TargetSent? || stage.PairProven?)
    ensures Holds(LastOf(w, h, stage), CoverFact(w.plan, stage.executed))
    ensures stage.PairProven? && !w.mood.Wild? ==> OpenComplete(LastOf(w, h, stage), w.plan, stage.executed)
  {
    hide Known, Common, FreshFacts, Holds, CoverFact, StopFact, TargetFact, EntryFact;
    AtLast(w, h, stage);
    assert CoverFact(w.plan, stage.executed) in StageFacts(w, stage);
  }

  lemma {:induction false} LeftAt(w: Watch, h: seq<Venue.State>, stage: Stage)
    requires At(w, h, stage) && w.safe && stage.Flattened?
    ensures FlattenLeaves(w.mood, LastOf(w, h, stage), w.plan, stage.executed, stage.full)
    ensures w.exact && !w.mood.Wild? ==> LeavesExactly(LastOf(w, h, stage), w.plan, stage.executed)
  {
    hide Known, FilledOrder, Opened, OrdersBalance, Amount, ExecutedOrder;
    var p, v := w.plan, LastOf(w, h, stage);
    AtLast(w, h, stage);
    CommonHolds(w, stage);
    assert SeenFact(w.mood, p, stage.executed, stage.full) in StageFacts(w, stage) && CloseFact(p, stage.executed) in StageFacts(w, stage);
    assert Holds(v, IsOpened(OpeningOf(p))) && Holds(v, CloseFact(p, stage.executed)) && Holds(v, SeenFact(w.mood, p, stage.executed, stage.full));
    ClosedLeaves(w.mood, v, p, stage.executed, stage.full);
    if w.exact && !w.mood.Wild? {
      assert IsBalanced(OpeningOf(p)) in StageFacts(w, stage);
      BalancedLeaves(v, p, stage.executed);
    }
  }

  lemma {:induction false} ClosedLeaves(mood: Mood, v: Venue.State, p: ValidatedEntry, executed: string, full: bool)
    requires Holds(v, IsOpened(OpeningOf(p))) && Holds(v, CloseFact(p, executed)) && Holds(v, SeenFact(mood, p, executed, full))
    ensures FlattenLeaves(mood, v, p, executed, full)
  {
    hide IsPlain, Value, IsPositiveText, IsFull;
    PositiveIsPlain(v.orders[p.ids.emergencyClose].executed);
    PositiveIsPlain(v.orders[p.ids.entry].executed);
  }

  lemma {:induction false} BalancedLeaves(v: Venue.State, p: ValidatedEntry, executed: string)
    requires Holds(v, IsBalanced(OpeningOf(p))) && Holds(v, CloseFact(p, executed))
    ensures LeavesExactly(v, p, executed)
  {
    hide IsPlain, Value, IsPositiveText, IsFull, Opened, MayFill;
    PositiveIsPlain(v.orders[p.ids.emergencyClose].executed);
  }

  /** A guarded history, in the terms of the contract. */
  lemma {:induction false} EndsAt(w: Watch, h: seq<Venue.State>, stage: Stage)
    requires At(w, h, stage)
    ensures h != [] && LastOf(w, h, stage) == h[|h| - 1] && w.past <= h
    ensures w.safe ==> RecoverableThroughout(w.past, h, w.plan)
  {
    hide Holds, PlanGuards, StageFacts, Secure, Recoverable;
    if w.safe {
      forall k | |w.past| - 1 <= k < |h|
        ensures Recoverable(h[k], w.plan)
      {
        SecureIsRecoverable(h[k], w.plan);
      }
    }
  }

  /** What an outcome means at the venue: an open position is covered by its stop, a confirmed flatten leaves
      nothing but what the entry has filled since it was seen. */
  ghost predicate Secured(mood: Mood, v: Venue.State, p: ValidatedEntry, r: EntryResult) {
    && (r.state.OpenProtected? || r.state.OpenProtectedTargetPending? ==> r.entry.Some? && Holds(v, CoverFact(p, r.entry.value.executedQuantity)))
    && (r.state.EmergencyFlattenConfirmed? ==>
          r.entry.Some? && FlattenLeaves(mood, v, p, r.entry.value.executedQuantity, r.entry.value.status == "FILLED"))
  }

  /** The stage an outcome ends in. */
  ghost predicate EndStage(stage: Stage, r: EntryResult) {
    match r.state
    case RejectedBeforeExposure => stage.Fresh?
    case EntryVisibilityPending => stage.Fresh?
    case EmergencyFlattenPending => stage.Flattening?
    case EmergencyFlattenConfirmed => r.entry.Some? && stage == Flattened(r.entry.value.executedQuantity, r.entry.value.status == "FILLED")
    case OpenProtectedTargetPending => r.entry.Some? && stage == TargetSent(r.entry.value.executedQuantity)
    case OpenProtected => r.entry.Some? && stage == PairProven(r.entry.value.executedQuantity)
  }

  /** What a result promises of the venue it was reached at. */
  ghost predicate Fulfils(w: Watch, h: seq<Venue.State>, r: EntryResult) {
    && h != [] && w.past <= h
    && (w.safe ==>
          && RecoverableThroughout(w.past, h, w.plan) && Secured(w.mood, h[|h| - 1], w.plan, r) && EntryProofsHold(w.plan, r)
          && (r.state.EmergencyFlattenConfirmed? && w.exact && !w.mood.Wild? ==>
                r.entry.Some? && LeavesExactly(h[|h| - 1], w.plan, r.entry.value.executedQuantity))
          && (r.state.OpenProtected? && !w.mood.Wild? ==> r.entry.Some? && OpenComplete(h[|h| - 1], w.plan, r.entry.value.executedQuantity)))
  }

  lemma {:induction false} Ends(w: Watch, h: seq<Venue.State>, stage: Stage, r: EntryResult)
    requires At(w, h, stage) && EndStage(stage, r) && IsEntryPlan(w.plan) && Supports(w.plan, r)
    requires r.state.EmergencyFlattenConfirmed? && w.safe ==> r.emergencyClose.Some? && r.emergencyClose.value.status == "FILLED"
    ensures Fulfils(w, h, r)
  {
    hide At, IsEntryPlan, RecoverableThroughout, OpenComplete, FlattenLeaves, LeavesExactly, EntryProofsHold, Accounts, Holds, CoverFact, DecimalEquals, EntryResultIdentifies;
    EndsAt(w, h, stage);
    EntryAgreement(w.plan, r);
    if w.safe {
      if stage.Flattened? { LeftAt(w, h, stage); }
      if stage.TargetSent? || stage.PairProven? { CoverAt(w, h, stage); }
      PlannedAt(w, h, stage, r);
    }
  }

  /** A filled entry executed the planned quantity, wherever its run ends. */
  lemma {:induction false} PlannedAt(w: Watch, h: seq<Venue.State>, stage: Stage, r: EntryResult)
    requires At(w, h, stage) && EndStage(stage, r) && IsEntryPlan(w.plan) && Supports(w.plan, r) && w.safe
    ensures (r.state.OpenProtected? || r.state.EmergencyFlattenConfirmed?) && r.entry.value.status == "FILLED" ==>
      DecimalEquals(r.entry.value.executedQuantity, w.plan.quantity)
    ensures r.state.OpenProtected? ==> r.entry.value.status == "FILLED"
  {
    hide At, IsEntryPlan, IsPlain, Value, DecimalEquals, Common, AlgoProofMatches, EntryResultIdentifies, CanonicalPositive;
    if (r.state.OpenProtected? || r.state.EmergencyFlattenConfirmed?) && r.entry.value.status == "FILLED" {
      CanonicalPositiveIff(r.entry.value.executedQuantity);
      PlanNumbers(w.plan);
      FullMeansPlanned(w, h, stage, r.entry.value.executedQuantity);
    }
  }

  // ---------------------------------------------------------------- what recovery may rely on

  lemma {:induction false} FactsStay(mood: Mood, past: seq<Venue.State>, h: seq<Venue.State>, facts: set<Fact>)
    requires Quiet(mood, past, h) && AllHold(past[|past| - 1], facts) && forall f :: f in facts ==> Lasting(mood, f)
    ensures h != [] && AllHold(h[|h| - 1], facts)
  {
    hide AllHold, EnvPath, Lasting;
    QuietKeeps(mood, past, h, facts);
  }

  lemma {:induction false} CommonLasts(mood: Mood, p: ValidatedEntry)
    ensures forall f :: f in Common(p) ==> Lasting(mood, f)
  {}

  lemma {:induction false} RecoverableStays(mood: Mood, past: seq<Venue.State>, h: seq<Venue.State>, p: ValidatedEntry)
    requires Quiet(mood, past, h) && Recoverable(past[|past| - 1], p)
    ensures h != [] && Recoverable(h[|h| - 1], p)
  {
    hide Holds, EnvPath, Common;
    CommonLasts(mood, p);
    FactsStay(mood, past, h, Common(p));
    var f :| f in ExclusiveGuard(p) && Holds(past[|past| - 1], f);
    FactsStay(mood, past, h, {f});
    assert f in {f};
  }

  lemma {:induction false} CoverStays(mood: Mood, past: seq<Venue.State>, h: seq<Venue.State>, f: Fact)
    requires Quiet(mood, past, h) && Holds(past[|past| - 1], f) && Lasting(mood, f)
    ensures h != [] && Holds(h[|h| - 1], f)
  {
    hide Holds, EnvPath, Lasting;
    FactsStay(mood, past, h, {f});
    assert f in {f};
  }

  /** A filled entry whose stop is proven is covered; one whose close is proven is flat. */
  lemma {:induction false} RecoveredCover(v: Venue.State, p: ValidatedEntry, executed: string)
    requires AllHold(v, Common(p)) && Holds(v, EntryFact(p, executed, true))
    requires ActiveAlgo(v, p.ids.stop, p.symbol, ExitSide(p.direction), StopMarket, Amount(executed), Amount(p.stopPrice))
    ensures Holds(v, CoverFact(p, executed))
  {
    hide ActiveAlgo, Amount, Opened, Contained, Covers, FilledOrder;
    assert Holds(v, IsOpened(OpeningOf(p))) && Holds(v, NotCancelling(p.ids.stop));
    OpenedIsContained(v, OpeningOf(p), p.symbol, EntrySide(p.direction), Amount(executed));
    StopTakesOver(v, GuardOf(p, executed), p.symbol, p.ids.stop, Amount(executed), Amount(p.stopPrice));
  }

  lemma {:induction false} RecoveredFlat(mood: Mood, v: Venue.State, p: ValidatedEntry, executed: string, full: bool, closedFull: bool)
    requires AllHold(v, Common(p)) && Holds(v, SeenFact(mood, p, executed, full)) && IsPlain(executed)
    requires FilledOrder(v, p.ids.emergencyClose, p.symbol, ExitSide(p.direction), true, Amount(executed), closedFull)
    ensures LeavesSince(mood, v, p, executed, full)
  {
    hide IsPlain, Value, IsPositiveText, IsFull;
    assert Holds(v, IsOpened(OpeningOf(p)));
    PositiveIsPlain(v.orders[p.ids.emergencyClose].executed);
    PositiveIsPlain(v.orders[p.ids.entry].executed);
  }

  /** What is left of a flattened position: at most what the entry has filled since it was seen. */
  ghost predicate LeavesSince(mood: Mood, v: Venue.State, p: ValidatedEntry, executed: string, full: bool) {
    && 0.0 <= Exposure(v, p.direction) <= FilledAmount(v, p.ids.entry) - Amount(executed)
    && (full || !FillsLater(mood) ==> Exposure(v, p.direction) == 0.0)
  }

  lemma {:induction false} RecoveredPlanned(v: Venue.State, p: ValidatedEntry, executed: string)
    requires AllHold(v, Common(p)) && Holds(v, EntryFact(p, executed, true)) && IsPlain(executed) && IsPlain(p.quantity)
    ensures DecimalEquals(executed, p.quantity)
  {
    hide IsPlain, Value, DecimalEquals, Opened;
    assert Holds(v, AsRequested(p.ids.entry, p.quantity));
    DecimalEqualsDecides(executed, p.quantity);
  }

  /** A recoverable venue at which this entry fill is a fact. */
  ghost predicate EntrySeen(mood: Mood, v: Venue.State, p: ValidatedEntry, entry: OrdinaryEvidence) {
    Recoverable(v, p) && Holds(v, SeenFact(mood, p, entry.executedQuantity, entry.status == "FILLED"))
  }

  lemma {:induction false} EntryStaysSeen(mood: Mood, past: seq<Venue.State>, h: seq<Venue.State>, p: ValidatedEntry, entry: OrdinaryEvidence)
    requires Quiet(mood, past, h) && EntrySeen(mood, past[|past| - 1], p, entry)
    ensures h != [] && EntrySeen(mood, h[|h| - 1], p, entry)
  {
    hide Holds, Recoverable, EnvPath;
    RecoverableStays(mood, past, h, p);
    CoverStays(mood, past, h, SeenFact(mood, p, entry.executedQuantity, entry.status == "FILLED"));
  }

  /** The executed text of the entry order at the venue. */
  function EntryText(v: Venue.State, p: ValidatedEntry): string {
    if p.ids.entry in v.orders then v.orders[p.ids.entry].executed else ""
  }

  ghost predicate StopShown(v: Venue.State, p: ValidatedEntry, executed: string) {
    ActiveAlgo(v, p.ids.stop, p.symbol, ExitSide(p.direction), StopMarket, Amount(executed), Amount(p.stopPrice))
  }

  ghost predicate TargetShown(v: Venue.State, p: ValidatedEntry, executed: string) {
    ActiveAlgo(v, p.ids.target, p.symbol, ExitSide(p.direction), TakeProfitMarket, Amount(executed), Amount(p.targetPrice))
  }

  ghost predicate PairHolds(v: Venue.State, p: ValidatedEntry, executed: string) {
    Holds(v, StopFact(p, executed)) && Holds(v, TargetFact(p, executed))
  }

  /** What waiting keeps, as recovery looks for the exits. */
  lemma {:induction false} ExitStep(mood: Mood, past: seq<Venue.State>, h: seq<Venue.State>, p: ValidatedEntry, entry: OrdinaryEvidence)
    requires Quiet(mood, past, h)
    ensures h != []
    ensures EntrySeen(mood, past[|past| - 1], p, entry) ==> EntrySeen(mood, h[|h| - 1], p, entry)
    ensures !mood.Wild? && PairHolds(past[|past| - 1], p, entry.executedQuantity) ==> PairHolds(h[|h| - 1], p, entry.executedQuantity)
    ensures Holds(past[|past| - 1], CoverFact(p, entry.executedQuantity)) ==> Holds(h[|h| - 1], CoverFact(p, entry.executedQuantity))
    ensures mood.Frozen? ==> h[|h| - 1] == past[|past| - 1]
  {
    hide EntrySeen, Holds, EnvPath, Amount;
    var v, e := past[|past| - 1], entry.executedQuantity;
    if EntrySeen(mood, v, p, entry) { EntryStaysSeen(mood, past, h, p, entry); }
    if !mood.Wild? && PairHolds(v, p, e) {
      CoverStays(mood, past, h, StopFact(p, e));
      CoverStays(mood, past, h, TargetFact(p, e));
    }
    if Holds(v, CoverFact(p, e)) { CoverStays(mood, past, h, CoverFact(p, e)); }
    if mood.Frozen? { FrozenStays(past, h); }
  }

  /** What the exits shown by the venue mean. */
  lemma {:induction false} ExitReads(mood: Mood, v: Venue.State, p: ValidatedEntry, entry: OrdinaryEvidence)
    ensures PairHolds(v, p, entry.executedQuantity) ==> StopShown(v, p, entry.executedQuantity) && TargetShown(v, p, entry.executedQuantity)
    ensures EntrySeen(mood, v, p, entry) && entry.status == "FILLED" && StopShown(v, p, entry.executedQuantity) ==> Holds(v, CoverFact(p, entry.executedQuantity))
    ensures EntrySeen(mood, v, p, entry) && TargetShown(v, p, entry.executedQuantity) ==> Holds(v, NotSent(p.ids.emergencyClose))
  {
    hide Common, Amount, FilledOrder, Covers, Contained;
    var e := entry.executedQuantity;
    if EntrySeen(mood, v, p, entry) && entry.status == "FILLED" && StopShown(v, p, e) { RecoveredCover(v, p, e); }
    if EntrySeen(mood, v, p, entry) && TargetShown(v, p, e) { TargetMeansOpen(v, p); }
  }

  /** What recovery makes of a flattened position on a quiet venue. */
  ghost function FlattenRecoversTo(v: Venue.State, p: ValidatedEntry, executed: string, full: bool): EntryOutcome {
    if !full || !StopShown(v, p, executed) then EmergencyFlattenConfirmed
    else if TargetShown(v, p, executed) then OpenProtected
    else OpenProtectedTargetPending
  }

  /** After a confirmed flatten within one invocation, recovery confirms it again exactly when the entry was
      partial or the unproven stop is not there; otherwise it stays at `open_protected_target_pending`, safe but
      never terminal. */
  lemma {:induction false} FlattenConverges(v: Venue.State, p: ValidatedEntry, executed: string, full: bool)
    requires FlattenComplete(v, p, executed, full) && Exclusive(v, p)
    ensures FlattenRecoversTo(v, p, executed, full) ==
      if !full || !StopShown(v, p, executed) then EmergencyFlattenConfirmed else OpenProtectedTargetPending
  {
    hide StopShown, FilledOrder;
    assert Holds(v, CloseFact(p, executed));
    FilledIsOrder(v, p.ids.emergencyClose, p.symbol, ExitSide(p.direction), true, Amount(executed), true);
    ClosedMeansNoTarget(v, p);
  }

  lemma {:induction false} ClosedMeansNoTarget(v: Venue.State, p: ValidatedEntry)
    requires Exclusive(v, p) && p.ids.emergencyClose in v.orders
    ensures p.ids.target !in v.algos
  {}

  lemma {:induction false} FilledIsOrder(v: Venue.State, id: string, symbol: string, side: string, reduceOnly: bool, executed: real, full: bool)
    requires FilledOrder(v, id, symbol, side, reduceOnly, executed, full)
    ensures id in v.orders
  {}

  lemma {:induction false} FlatNow(mood: Mood, past: seq<Venue.State>, h: seq<Venue.State>, p: ValidatedEntry, entry: OrdinaryEvidence, close: OrdinaryEvidence)
    requires Quiet(mood, past, h) && EntrySeen(mood, past[|past| - 1], p, entry)
    requires IsPlain(entry.executedQuantity) && DecimalEquals(close.executedQuantity, entry.executedQuantity)
    requires h != []
    requires FilledOrder(h[|h| - 1], p.ids.emergencyClose, p.symbol, ExitSide(p.direction), true, Amount(close.executedQuantity), close.status == "FILLED")
    ensures LeavesSince(mood, h[|h| - 1], p, entry.executedQuantity, entry.status == "FILLED")
  {
    hide FilledOrder, IsPlain, Value, Holds, Common, EnvPath, DecimalEquals, LeavesSince;
    DecimalEqualsDecides(close.executedQuantity, entry.executedQuantity);
    EntryStaysSeen(mood, past, h, p, entry);
    RecoveredFlat(mood, h[|h| - 1], p, entry.executedQuantity, entry.status == "FILLED", close.status == "FILLED");
  }

  /** A target at the venue means that no close was sent. */
  lemma {:induction false} TargetMeansOpen(v: Venue.State, p: ValidatedEntry)
    requires Exclusive(v, p) && p.ids.target in v.algos
    ensures Holds(v, NotSent(p.ids.emergencyClose))
  {}

  /** Whether the entry order at the venue executed all it asked for. */
  predicate EntryIsFull(v: Venue.State, p: ValidatedEntry) { p.ids.entry in v.orders && IsFull(v.orders[p.ids.entry]) }

  /** A finished open, and a finished flatten, read off the venue itself. */
  ghost predicate OpenShown(v: Venue.State, p: ValidatedEntry) { OpenComplete(v, p, EntryText(v, p)) }

  ghost predicate FlattenShown(v: Venue.State, p: ValidatedEntry) { FlattenComplete(v, p, EntryText(v, p), EntryIsFull(v, p)) }

  /** A text of the same amount describes the same exits. */
  lemma {:induction false} SameExits(v: Venue.State, p: ValidatedEntry, a: string, b: string)
    requires Amount(a) == Amount(b)
    ensures PairHolds(v, p, a) <==> PairHolds(v, p, b)
    ensures StopShown(v, p, a) <==> StopShown(v, p, b)
    ensures TargetShown(v, p, a) <==> TargetShown(v, p, b)
    ensures OpenComplete(v, p, a) <==> OpenComplete(v, p, b)
    ensures forall full :: FlattenComplete(v, p, a, full) <==> FlattenComplete(v, p, b, full)
    ensures CloseFact(p, a) == CloseFact(p, b) && forall full :: EntryFact(p, a, full) == EntryFact(p, b, full)
  {
    hide Amount, ActiveAlgo, Holds;
  }

  lemma {:induction false} EntryTextOf(v: Venue.State, p: ValidatedEntry, executed: string, full: bool)
    requires Holds(v, EntryFact(p, executed, full))
    ensures Amount(EntryText(v, p)) == Amount(executed) && EntryIsFull(v, p) == full
  {
    hide IsPlain, Value;
  }

  /** What a live run leaves is what recovery reads. */
  lemma {:induction false} CompleteIsShown(v: Venue.State, p: ValidatedEntry, executed: string, full: bool)
    ensures OpenComplete(v, p, executed) ==> OpenShown(v, p)
    ensures FlattenComplete(v, p, executed, full) ==> FlattenShown(v, p) && FlattenRecoversTo(v, p, EntryText(v, p), full) == FlattenRecoversTo(v, p, executed, full)
  {
    hide Amount, Holds, StopShown, TargetShown, EntryFact, EntryIsFull, EntryText;
    if OpenComplete(v, p, executed) {
      assert Holds(v, EntryFact(p, executed, true));
      EntryTextOf(v, p, executed, true);
      SameExits(v, p, EntryText(v, p), executed);
    }
    if FlattenComplete(v, p, executed, full) {
      assert Holds(v, EntryFact(p, executed, full));
      EntryTextOf(v, p, executed, full);
      SameExits(v, p, EntryText(v, p), executed);
    }
  }

  /** What recovery's claims mean at the venue: open is covered, proven and not flattened; flattened leaves at
      most what the entry has filled since. */
  ghost predicate RecoveredSoundly(mood: Mood, v: Venue.State, p: ValidatedEntry, r: EntryResult) {
    && (r.state.OpenProtected? || r.state.OpenProtectedTargetPending? ==> r.entry.Some? && Holds(v, CoverFact(p, r.entry.value.executedQuantity)))
    && (r.state.OpenProtected? ==> EntryProofsHold(p, r) && Holds(v, NotSent(p.ids.emergencyClose)))
    && (r.state.EmergencyFlattenConfirmed? ==>
          r.entry.Some? && LeavesSince(mood, v, p, r.entry.value.executedQuantity, r.entry.value.status == "FILLED"))
  }

  lemma {:induction false} OpenLasts(mood: Mood, p: ValidatedEntry, executed: string)
    requires !mood.Wild?
    ensures forall f :: f in OpenFacts(p, executed) ==> Lasting(mood, f)
  {}

  /** What an answering venue says of the entry after a finished open. */
  lemma {:induction false} OpenReads(mood: Mood, past: seq<Venue.State>, h: seq<Venue.State>, p: ValidatedEntry)
    requires Quiet(mood, past, h) && !mood.Wild? && OpenShown(past[|past| - 1], p)
    ensures h != []
    ensures var v := h[|h| - 1]; var e := ProveOrdinaryFill(OrderAnswer(v, p.ids.entry).payload, p.symbol, EntrySide(p.direction), p.ids.entry, false, None);
      e.Some? && e.value.status == "FILLED" && PairHolds(v, p, e.value.executedQuantity)
  {
    hide Holds, EnvPath, ProveOrdinaryFill, OrderAnswer, EntryText, StopFact, TargetFact, IsPlain, Value;
    var x := EntryText(past[|past| - 1], p);
    OpenLasts(mood, p, x);
    FactsStay(mood, past, h, OpenFacts(p, x));
    var v := h[|h| - 1];
    assert Holds(v, EntryFact(p, x, true)) && Holds(v, StopFact(p, x)) && Holds(v, TargetFact(p, x));
    AnsweredFill(v, p.ids.entry, p.symbol, EntrySide(p.direction), false, Amount(x), true, None);
    var e := ProveOrdinaryFill(OrderAnswer(v, p.ids.entry).payload, p.symbol, EntrySide(p.direction), p.ids.entry, false, None);
    SameExits(v, p, x, e.value.executedQuantity);
  }

  /** And after a finished flatten. */
  lemma {:induction false} FlattenReads(past: seq<Venue.State>, h: seq<Venue.State>, p: ValidatedEntry)
    requires Quiet(Frozen, past, h) && FlattenShown(past[|past| - 1], p)
    ensures h != [] && h[|h| - 1] == past[|past| - 1]
    ensures var v := h[|h| - 1]; var e := ProveOrdinaryFill(OrderAnswer(v, p.ids.entry).payload, p.symbol, EntrySide(p.direction), p.ids.entry, false, None);
      && e.Some? && (e.value.status == "FILLED" <==> EntryIsFull(v, p)) && Amount(e.value.executedQuantity) == Amount(EntryText(v, p))
  {
    hide Holds, EnvPath, ProveOrdinaryFill, OrderAnswer, EntryText, EntryIsFull, IsPlain, Value;
    FrozenStays(past, h);
    var v := h[|h| - 1];
    assert Holds(v, EntryFact(p, EntryText(v, p), EntryIsFull(v, p)));
    AnsweredFill(v, p.ids.entry, p.symbol, EntrySide(p.direction), false, Amount(EntryText(v, p)), EntryIsFull(v, p), None);
  }

  lemma {:induction false} FlattenHasClose(v: Venue.State, p: ValidatedEntry, executed: string, full: bool)
    ensures FlattenComplete(v, p, executed, full) ==> Holds(v, CloseFact(p, executed))
  {
    hide Holds;
  }

  lemma {:induction false} SoundOpenIsProven(mood: Mood, v: Venue.State, p: ValidatedEntry, r: EntryResult)
    requires RecoveredSoundly(mood, v, p, r) && r.state.OpenProtected?
    ensures EntryProofsHold(p, r)
  {
    hide EntryProofsHold;
  }

  lemma {:induction false} PendingIsSound(mood: Mood, v: Venue.State, p: ValidatedEntry, r: EntryResult)
    requires r.state.EntryVisibilityPending?
    ensures RecoveredSoundly(mood, v, p, r)
  {}

  lemma {:induction false} FlatIsSound(mood: Mood, v: Venue.State, p: ValidatedEntry, r: EntryResult)
    requires (r.state.EmergencyFlattenPending? || r.state.EmergencyFlattenConfirmed?) && r.entry.Some?
    ensures (r.state.EmergencyFlattenConfirmed? ==> LeavesSince(mood, v, p, r.entry.value.executedQuantity, r.entry.value.status == "FILLED")) ==>
      RecoveredSoundly(mood, v, p, r)
  {}

  lemma {:induction false} OpenIsSound(mood: Mood, v: Venue.State, p: ValidatedEntry, entry: OrdinaryEvidence, r: EntryResult)
    requires EntrySeen(mood, v, p, entry) && entry.status == "FILLED" && IsEntryPlan(p) && Supports(p, r) && r.entry == Some(entry) && IsPlain(entry.executedQuantity)
    requires r.state.OpenProtected? || r.state.OpenProtectedTargetPending?
    requires Holds(v, CoverFact(p, entry.executedQuantity))
    requires r.state.OpenProtected? ==> Holds(v, NotSent(p.ids.emergencyClose))
    ensures RecoveredSoundly(mood, v, p, r)
  {
    hide Holds, IsEntryPlan, IsPlain, Common, Accounts, EntryProofsHold, DecimalEquals;
    PlanNumbers(p);
    RecoveredPlanned(v, p, entry.executedQuantity);
    EntryAgreement(p, r);
  }

  // ---------------------------------------------------------------- on a prompt venue

  function EntryOrder(p: ValidatedEntry): Request { PostOrder(p.ids.entry, p.symbol, EntrySide(p.direction), p.quantity, false) }

  function ExitOrder(p: ValidatedEntry, t: AlgoType, executed: string): Request {
    PostAlgo(ExitId(p, t), p.symbol, ExitSide(p.direction), executed, ExitPrice(p, t), t)
  }

  function ExitId(p: ValidatedEntry, t: AlgoType): string { if t.StopMarket? then p.ids.stop else p.ids.target }

  function ExitPrice(p: ValidatedEntry, t: AlgoType): string { if t.StopMarket? then p.stopPrice else p.targetPrice }

  /** The venue after each request of an entry has landed in turn. */
  function AfterEntry(v: Venue.State, p: ValidatedEntry): Venue.State { Landed(v, EntryOrder(p)) }

  function AfterStop(v: Venue.State, p: ValidatedEntry): Venue.State { Landed(AfterEntry(v, p), ExitOrder(p, StopMarket, p.quantity)) }

  function OpenedAt(v: Venue.State, p: ValidatedEntry): Venue.State { Landed(AfterStop(v, p), ExitOrder(p, TakeProfitMarket, p.quantity)) }

  /** The entry can be filled and the identities of its exits are new. */
  ghost predicate Executable(v: Venue.State, p: ValidatedEntry) {
    Fillable(v, EntryOrder(p), p.quantity, "1") && p.ids.stop !in v.algos && p.ids.target !in v.algos
  }

  ghost predicate EntryShows(v: Venue.State, p: ValidatedEntry) {
    FilledOrder(v, p.ids.entry, p.symbol, EntrySide(p.direction), false, Amount(p.quantity), true)
  }

  ghost predicate ExitShows(v: Venue.State, p: ValidatedEntry, t: AlgoType, executed: string) {
    ActiveAlgo(v, ExitId(p, t), p.symbol, ExitSide(p.direction), t, Amount(executed), Amount(ExitPrice(p, t)))
  }

  function FlattenOrder(p: ValidatedEntry, executed: string): Request {
    PostOrder(p.ids.emergencyClose, p.symbol, ExitSide(p.direction), executed, true)
  }

  ghost predicate CloseShows(v: Venue.State, p: ValidatedEntry, executed: string) {
    FilledOrder(v, p.ids.emergencyClose, p.symbol, ExitSide(p.direction), true, Amount(executed), true)
  }

  /** The entry can be filled, its stop cannot be shown, and the whole of it can be closed. */
  ghost predicate Closable(v: Venue.State, p: ValidatedEntry) {
    && Fillable(v, EntryOrder(p), p.quantity, "1") && !ExitShows(AfterStop(v, p), p, StopMarket, p.quantity)
    && Fillable(AfterStop(v, p), FlattenOrder(p, p.quantity), p.quantity, "1")
  }

  function ClosedAt(v: Venue.State, p: ValidatedEntry): Venue.State { Landed(AfterStop(v, p), FlattenOrder(p, p.quantity)) }

  /** Then the close is shown, and the position is what it was. */
  lemma {:induction false} PromptCloses(v: Venue.State, p: ValidatedEntry)
    requires Closable(v, p) && IsEntryPlan(p)
    ensures EntryShows(AfterEntry(v, p), p) && !ExitShows(AfterStop(v, p), p, StopMarket, p.quantity) && CloseShows(ClosedAt(v, p), p, p.quantity)
    ensures Exposure(ClosedAt(v, p), p.direction) == Exposure(v, p.direction)
  {
    hide IsEntryPlan, IsPlain, Value, Landed, Fillable, FilledOrder, ActiveAlgo;
    PlanNumbers(p);
    SentIsFilled(v, EntryOrder(p));
    SentIsFilled(AfterStop(v, p), FlattenOrder(p, p.quantity));
    FilledMoves(v, EntryOrder(p));
    StopMovesNothing(AfterEntry(v, p), p);
    FilledMoves(AfterStop(v, p), FlattenOrder(p, p.quantity));
  }

  lemma {:induction false} FilledMoves(v: Venue.State, r: Request)
    requires r.PostOrder? && Fillable(v, r, r.quantity, "1")
    ensures Landed(v, r).position == Moved(v.position, r.side, Value(r.quantity))
  {
    hide IsPlain, Value, Moved;
  }

  lemma {:induction false} StopMovesNothing(v: Venue.State, p: ValidatedEntry)
    ensures Landed(v, ExitOrder(p, StopMarket, p.quantity)).position == v.position
  {}

  lemma {:induction false} PromptRuns(v: Venue.State, p: ValidatedEntry)
    requires Executable(v, p) && IsEntryPlan(p)
    ensures EntryShows(AfterEntry(v, p), p)
    ensures ExitShows(AfterStop(v, p), p, StopMarket, p.quantity) && ExitShows(OpenedAt(v, p), p, TakeProfitMarket, p.quantity)
  {
    hide IsEntryPlan, IsPlain, Value, Landed, Fillable, FilledOrder;
    PlanNumbers(p);
    SentIsFilled(v, EntryOrder(p));
    LandingSpares(v, EntryOrder(p), p.ids.stop);
    LandingSpares(v, EntryOrder(p), p.ids.target);
    PlacedIsActive(AfterEntry(v, p), ExitOrder(p, StopMarket, p.quantity));
    LandingSpares(AfterEntry(v, p), ExitOrder(p, StopMarket, p.quantity), p.ids.target);
    PlacedIsActive(AfterStop(v, p), ExitOrder(p, TakeProfitMarket, p.quantity));
  }

  /** Canonical evidence of the planned quantity is the planned text. */
  lemma {:induction false} SameText(e: OrdinaryEvidence, p: ValidatedEntry)
    requires IsEntryPlan(p) && IsCanonicalPositive(e.executedQuantity) && Amount(e.executedQuantity) == Amount(p.quantity)
    ensures e.executedQuantity == p.quantity
  {
    PlanQuantityIsCanonical(p);
    hide IsEntryPlan, IsPlain, Value, CanonicalDecimal;
    CanonicalPositiveIff(e.executedQuantity);
    CanonicalPositiveIff(p.quantity);
    CanonicalDecides(e.executedQuantity, p.quantity);
  }

  lemma {:induction false} PlanQuantityIsCanonical(p: ValidatedEntry)
    requires IsEntryPlan(p)
    ensures IsCanonicalPositive(p.quantity)
  {
    hide IsPlain, CanonicalPositive, CanonicalUuid, CanonicalSymbol, DeriveEntryIds;
  }

  /** A filled entry proven on an answering, truthful venue carries exactly the planned text. */
  lemma {:induction false} EntryEvidenceIsPlanned(v: Venue.State, e: OrdinaryEvidence, p: ValidatedEntry)
    requires IsEntryPlan(p) && IsCanonicalPositive(e.executedQuantity) && EntryShows(v, p)
    requires FilledOrder(v, p.ids.entry, p.symbol, EntrySide(p.direction), false, Amount(e.executedQuantity), e.status == "FILLED")
    ensures e.status == "FILLED" && e.executedQuantity == p.quantity
  {
    hide IsEntryPlan, IsPlain, Value, CanonicalDecimal, IsPositiveText;
    assert Amount(e.executedQuantity) == Amount(p.quantity) && e.status == "FILLED";
    SameText(e, p);
  }

  /** What resolving a shown entry returns on a truthful, answering venue. */
  lemma {:induction false} PromptEntry(v: Venue.State, e: Option<OrdinaryEvidence>, p: ValidatedEntry)
    requires IsEntryPlan(p) && EntryShows(v, p)
    requires e.None? ==> ProveOrdinaryFill(OrderAnswer(v, p.ids.entry).payload, p.symbol, EntrySide(p.direction), p.ids.entry, false, None).None?
    requires e.Some? ==> IsFillOf(e.value, p.symbol, EntrySide(p.direction), p.ids.entry, false)
    requires e.Some? ==> FilledOrder(v, p.ids.entry, p.symbol, EntrySide(p.direction), false, Amount(e.value.executedQuantity), e.value.status == "FILLED")
    ensures e.Some? && e.value.status == "FILLED" && e.value.executedQuantity == p.quantity
  {
    hide IsEntryPlan, FilledOrder, Amount, ProveOrdinaryFill, OrderAnswer;
    AnsweredFill(v, p.ids.entry, p.symbol, EntrySide(p.direction), false, Amount(p.quantity), true, None);
    EntryEvidenceIsPlanned(v, e.value, p);
  }

  // ---------------------------------------------------------------- what is sent and asked

  function EntryKey(p: ValidatedEntry): FillKey { FillKey(p.ids.entry, p.symbol, EntrySide(p.direction), false, None, false) }

  function CloseKey(p: ValidatedEntry, executed: string): FillKey {
    FillKey(p.ids.emergencyClose, p.symbol, ExitSide(p.direction), true, Some(executed), false)
  }

  function ExitKey(p: ValidatedEntry, t: AlgoType, executed: string): AlgoKey {
    AlgoKey(ExitId(p, t), p.symbol, ExitSide(p.direction), t, executed, ExitPrice(p, t))
  }

  /** Request `m` was the emergency close of what the entry executed, and nothing was sent after it. */
  ghost predicate FlattenTrace(p: ValidatedEntry, entry: OrdinaryEvidence, c: Cause, r: EntryResult, t: Trail, m: nat) {
    var executed, close := entry.executedQuantity, r.emergencyClose;
    && |t.requests| == m + 1 && FillTrace(t, m, FlattenOrder(p, executed), CloseKey(p, executed), t.requests[m].refused, close)
    && r == Described(p, if close.None? then EmergencyFlattenPending else EmergencyFlattenConfirmed, FlattenReason(c, close.Some?),
                      Some(entry), None, None, close)
  }

  /** Request `m` was the target, and nothing was sent after it. */
  ghost predicate TargetTrace(p: ValidatedEntry, entry: OrdinaryEvidence, stop: Option<AlgoEvidence>, r: EntryResult, t: Trail, m: nat) {
    var executed, state := entry.executedQuantity, if r.target.None? then OpenProtectedTargetPending else OpenProtected;
    && |t.requests| == m + 1
    && AlgoTrace(t, m, ExitOrder(p, TakeProfitMarket, executed), ExitKey(p, TakeProfitMarket, executed), t.requests[m].refused, r.target)
    && r == Described(p, state, LiveReason(state), Some(entry), stop, r.target, None)
  }

  /** Request `m` was the stop; without its proof the entry is flattened, with it the target follows. */
  ghost predicate StopTrace(p: ValidatedEntry, entry: OrdinaryEvidence, r: EntryResult, t: Trail, m: nat) {
    var executed := entry.executedQuantity;
    && m < |t.requests|
    && AlgoTrace(t, m, ExitOrder(p, StopMarket, executed), ExitKey(p, StopMarket, executed), t.requests[m].refused, r.stop)
    && if r.stop.None? then FlattenTrace(p, entry, if t.requests[m].refused then StopRejected else StopNotProven, r, t, m + 1)
       else TargetTrace(p, entry, r.stop, r, t, m + 1)
  }

  /** Everything one invocation sent, in order, what it went by, and so what it reports: the entry; if it was seen
      in part, its emergency close; if in full, its stop, and then its target or again the close. */
  ghost predicate EntryTrace(p: ValidatedEntry, r: EntryResult, t: Trail, m: nat) {
    && m < |t.requests| && FillTrace(t, m, EntryOrder(p), EntryKey(p), t.requests[m].refused, r.entry)
    && if r.entry.None? then
         var state := if t.requests[m].refused then RejectedBeforeExposure else EntryVisibilityPending;
         |t.requests| == m + 1 && r == Described(p, state, LiveReason(state), None, None, None, None)
       else if r.entry.value.status != "FILLED" then FlattenTrace(p, r.entry.value, PartialEntry, r, t, m + 1)
       else StopTrace(p, r.entry.value, r, t, m + 1)
  }

  /** What recovery makes of a position that is not proven protected: was its close filled? */
  ghost predicate ClosedTrace(p: ValidatedEntry, entry: OrdinaryEvidence, r: EntryResult, t: Trail) {
    var state := if r.emergencyClose.None? then EmergencyFlattenPending else EmergencyFlattenConfirmed;
    && AskedFill(t.answers, t.since, |t.requests|, CloseKey(p, entry.executedQuantity), r.emergencyClose)
    && r == Described(p, state, RestartReason(state, entry.status != "FILLED"), Some(entry), None, None, r.emergencyClose)
  }

  ghost predicate ExitsTrace(p: ValidatedEntry, entry: OrdinaryEvidence, stop: Option<AlgoEvidence>, target: Option<AlgoEvidence>, t: Trail) {
    && AskedAlgo(t.answers, t.since, |t.requests|, ExitKey(p, StopMarket, entry.executedQuantity), stop)
    && if stop.None? then target.None? else AskedAlgo(t.answers, t.since, |t.requests|, ExitKey(p, TakeProfitMarket, entry.executedQuantity), target)
  }

  /** What recovery asked, and so what it reports: the entry; of a full one its stop and then its target; of any
      other, or without a stop, the close of what the entry executed. */
  ghost predicate RecoveryTrace(p: ValidatedEntry, r: EntryResult, t: Trail) {
    && AskedFill(t.answers, t.since, |t.requests|, EntryKey(p), r.entry)
    && if r.entry.None? then
         r == Described(p, EntryVisibilityPending, RestartReason(EntryVisibilityPending, false), None, None, None, None)
       else if r.entry.value.status != "FILLED" then ClosedTrace(p, r.entry.value, r, t)
       else FilledRecovery(p, r.entry.value, r, t)
  }

  ghost predicate FilledRecovery(p: ValidatedEntry, entry: OrdinaryEvidence, r: EntryResult, t: Trail) {
    var state := if r.target.None? then OpenProtectedTargetPending else OpenProtected;
    && ExitsTrace(p, entry, r.stop, r.target, t)
    && if r.stop.None? then ClosedTrace(p, entry, r, t)
       else r == Described(p, state, RestartReason(state, false), Some(entry), r.stop, r.target, None)
  }

  lemma {:induction false} RecoveryLasts(p: ValidatedEntry, entry: OrdinaryEvidence, r: EntryResult, t: Trail, u: Trail)
    requires t.requests == u.requests && t.answers <= u.answers && u.since <= t.since
    ensures ClosedTrace(p, entry, r, t) ==> ClosedTrace(p, entry, r, u)
    ensures forall stop, target :: ExitsTrace(p, entry, stop, target, t) ==> ExitsTrace(p, entry, stop, target, u)
    ensures FilledRecovery(p, entry, r, t) ==> FilledRecovery(p, entry, r, u)
    ensures forall k, e :: AskedFill(t.answers, t.since, |t.requests|, k, e) ==> AskedFill(u.answers, u.since, |u.requests|, k, e)
  {
    hide AskedFill, AskedAlgo, ResolvedFill, Inspected, CancelledAs, Described, RestartReason;
    AskedLasts(t.answers, u.answers, u.since, t.since, |t.requests|);
  }

  /** An entry that was seen but whose stop is not proven is closed, unless the venue refused that very order. */
  lemma {:induction false} UnprotectedIsFlattened(p: ValidatedEntry, r: EntryResult, t: Trail, m: nat)
    requires EntryTrace(p, r, t, m) && r.entry.Some? && r.stop.None?
    ensures t.requests != [] && t.requests[|t.requests| - 1].request == FlattenOrder(p, r.entry.value.executedQuantity)
  {
    hide FillTrace, AlgoTrace;
    FillTraceIs(t, |t.requests| - 1, FlattenOrder(p, r.entry.value.executedQuantity), CloseKey(p, r.entry.value.executedQuantity),
                t.requests[|t.requests| - 1].refused, r.emergencyClose);
  }

  lemma {:induction false} FlattenTraceIs(p: ValidatedEntry, entry: OrdinaryEvidence, c: Cause, r: EntryResult, t: Trail, m: nat)
    requires FlattenTrace(p, entry, c, r, t, m)
    ensures |t.requests| == m + 1 && r.entry == Some(entry) && r.stop.None?
  {
    hide FillTrace;
  }

  lemma {:induction false} TargetTraceIs(p: ValidatedEntry, entry: OrdinaryEvidence, stop: Option<AlgoEvidence>, r: EntryResult, t: Trail, m: nat)
    requires TargetTrace(p, entry, stop, r, t, m)
    ensures |t.requests| == m + 1 && r.entry == Some(entry) && r.stop == stop
  {
    hide AlgoTrace;
  }

  lemma {:induction false} StopTraceIs(p: ValidatedEntry, entry: OrdinaryEvidence, r: EntryResult, t: Trail, m: nat)
    requires StopTrace(p, entry, r, t, m)
    ensures r.entry == Some(entry)
  {
    hide AlgoTrace, FlattenTrace, TargetTrace;
    if r.stop.None? { FlattenTraceIs(p, entry, if t.requests[m].refused then StopRejected else StopNotProven, r, t, m + 1); }
    else { TargetTraceIs(p, entry, r.stop, r, t, m + 1); }
  }

  lemma {:induction false} FlattenTraceLasts(p: ValidatedEntry, entry: OrdinaryEvidence, c: Cause, r: EntryResult, t: Trail, since: nat, m: nat)
    requires FlattenTrace(p, entry, c, r, t, m) && since <= t.since
    ensures FlattenTrace(p, entry, c, r, Since(t, since), m)
  {
    hide FillTrace, AlgoTrace, Described, FlattenReason;
    TraceLasts(t, Since(t, since), m);
  }

  lemma {:induction false} TargetTraceLasts(p: ValidatedEntry, entry: OrdinaryEvidence, stop: Option<AlgoEvidence>, r: EntryResult, t: Trail, since: nat, m: nat)
    requires TargetTrace(p, entry, stop, r, t, m) && since <= t.since
    ensures TargetTrace(p, entry, stop, r, Since(t, since), m)
  {
    hide FillTrace, AlgoTrace, Described, LiveReason;
    TraceLasts(t, Since(t, since), m);
  }

  lemma {:induction false} StopTraceLasts(p: ValidatedEntry, entry: OrdinaryEvidence, r: EntryResult, t: Trail, since: nat, m: nat)
    requires StopTrace(p, entry, r, t, m) && since <= t.since
    ensures StopTrace(p, entry, r, Since(t, since), m)
  {
    hide FillTrace, AlgoTrace, FlattenTrace, TargetTrace;
    TraceLasts(t, Since(t, since), m);
    if r.stop.None? { FlattenTraceLasts(p, entry, if t.requests[m].refused then StopRejected else StopNotProven, r, t, since, m + 1); }
    else { TargetTraceLasts(p, entry, r.stop, r, t, since, m + 1); }
  }

  /** How one invocation's trace is made up. */
  lemma {:induction false} UnseenTrace(p: ValidatedEntry, refused: bool, r: EntryResult, t: Trail, m: nat)
    requires |t.requests| == m + 1 && FillTrace(t, m, EntryOrder(p), EntryKey(p), refused, None)
    requires var state := if refused then RejectedBeforeExposure else EntryVisibilityPending;
      r == Described(p, state, LiveReason(state), None, None, None, None)
    ensures EntryTrace(p, r, t, m)
  {
    hide FillTrace, LiveReason;
    FillTraceIs(t, m, EntryOrder(p), EntryKey(p), refused, None);
  }

  lemma {:induction false} PartialTrace(p: ValidatedEntry, refused: bool, entry: OrdinaryEvidence, r: EntryResult, first: Trail, t: Trail, m: nat)
    requires |first.requests| == m + 1 && FillTrace(first, m, EntryOrder(p), EntryKey(p), refused, Some(entry)) && entry.status != "FILLED"
    requires first.requests <= t.requests && first.answers <= t.answers && first.since <= t.since
    requires FlattenTrace(p, entry, PartialEntry, r, t, m + 1)
    ensures EntryTrace(p, r, Since(t, first.since), m) && r.entry == Some(entry)
  {
    hide FillTrace, FlattenTrace;
    FillTraceIs(first, m, EntryOrder(p), EntryKey(p), refused, Some(entry));
    TraceLasts(first, Since(t, first.since), m);
    FlattenTraceIs(p, entry, PartialEntry, r, t, m + 1);
    FlattenTraceLasts(p, entry, PartialEntry, r, t, first.since, m + 1);
  }

  lemma {:induction false} FilledTrace(p: ValidatedEntry, refused: bool, entry: OrdinaryEvidence, r: EntryResult, first: Trail, t: Trail, m: nat)
    requires |first.requests| == m + 1 && FillTrace(first, m, EntryOrder(p), EntryKey(p), refused, Some(entry)) && entry.status == "FILLED"
    requires first.requests <= t.requests && first.answers <= t.answers && first.since <= t.since
    requires StopTrace(p, entry, r, t, m + 1)
    ensures EntryTrace(p, r, Since(t, first.since), m) && r.entry == Some(entry)
  {
    hide FillTrace, StopTrace;
    FillTraceIs(first, m, EntryOrder(p), EntryKey(p), refused, Some(entry));
    TraceLasts(first, Since(t, first.since), m);
    StopTraceIs(p, entry, r, t, m + 1);
    StopTraceLasts(p, entry, r, t, first.since, m + 1);
  }

  lemma {:induction false} RejectedSawNothing(p: ValidatedEntry, r: EntryResult)
    requires Supports(p, r)
    ensures r.state.RejectedBeforeExposure? ==> r.entry.None?
  {
    hide AlgoProofMatches;
  }

  /** The close of what the entry executed was the last thing sent, and it went out unless the venue refused it. */
  ghost predicate FlattenWasSent(p: ValidatedEntry, executed: string, requests: seq<Submission>, history: seq<Venue.State>) {
    && requests != [] && requests[|requests| - 1].request == FlattenOrder(p, executed)
    && (requests[|requests| - 1].refused || WentOut(history, FlattenOrder(p, executed)))
  }

  lemma {:induction false} SentWhenUnprotected(p: ValidatedEntry, r: EntryResult, t: Trail, m: nat, history: seq<Venue.State>)
    requires EntryTrace(p, r, t, m) && r.entry.Some? && r.stop.None? && SentAll(history, t.requests)
    ensures FlattenWasSent(p, r.entry.value.executedQuantity, t.requests, history)
  {
    hide EntryTrace, WentOut;
    UnprotectedIsFlattened(p, r, t, m);
  }

  lemma {:induction false} Fulfilled(w: Watch, h: seq<Venue.State>, r: EntryResult)
    requires Fulfils(w, h, r)
    ensures h != [] && w.past <= h
    ensures w.safe ==>
      && RecoverableThroughout(w.past, h, w.plan) && Secured(w.mood, h[|h| - 1], w.plan, r) && EntryProofsHold(w.plan, r)
      && (r.state.EmergencyFlattenConfirmed? && w.exact && !w.mood.Wild? ==> r.entry.Some? && LeavesExactly(h[|h| - 1], w.plan, r.entry.value.executedQuantity))
      && (r.state.OpenProtected? && !w.mood.Wild? ==> r.entry.Some? && OpenComplete(h[|h| - 1], w.plan, r.entry.value.executedQuantity))
  {}

  // ---------------------------------------------------------------- the coordinator

  class EntryProtection {
    const client: Client

    constructor (client: Client)
      ensures this.client == client
    {
      this.client := client;
    }

    /** The market entry, and its proof when it can be had. */
    method PlaceEntry(p: ValidatedEntry, ghost w: Watch) returns (rejected: bool, e: Option<OrdinaryEvidence>)
      requires client.Valid() && client.mood == w.mood && At(w, client.history, Fresh) && w.plan == p && IsEntryPlan(p)
      requires w.safe ==> client.truthful
      modifies client
      ensures client.Valid()
      ensures rejected ==> e.None? && Quiet(client.mood, old(client.history), client.history)
      ensures e.Some? ==> IsFillOf(e.value, p.symbol, EntrySide(p.direction), p.ids.entry, false) && IsPlain(e.value.executedQuantity)
      ensures At(w, client.history, if e.None? then Fresh else Filled(e.value.executedQuantity, e.value.status == "FILLED"))
      ensures |client.requests| == |old(client.requests)| + 1 && old(client.requests) <= client.requests && old(client.answers) <= client.answers
      ensures FillTrace(Trail(client.requests, client.answers, |old(client.answers)|), |old(client.requests)|, EntryOrder(p), EntryKey(p), rejected, e)
      ensures client.prompt ==> client.venue == AfterEntry(old(client.venue), p) && !rejected
      ensures client.prompt && client.answering && client.truthful && EntryShows(client.venue, p) ==>
        e.Some? && e.value.status == "FILLED" && e.value.executedQuantity == p.quantity
    {
      hide IsEntryPlan, IsPlain, At, Quiet, OrderTruthful, FilledOrder, Amount, Landed, ProveOrdinaryFill, OrderAnswer, IsFillOf, EntryShows, ResolvedFill;
      var order := EntryOrder(p);
      var submission := client.PlaceOrder(order);
      Sends(w, old(client.history), client.history, order, submission.disposition.Rejected?, Fresh);
      rejected, e := submission.disposition.Rejected?, None;
      if !rejected {
        ghost var h := client.history;
        e := ResolveOrdinaryFill(client, submission, p.symbol, EntrySide(p.direction), p.ids.entry, false, None);
        Waits(w, h, client.history, Fresh);
        if client.answering && client.truthful && EntryShows(client.venue, p) { PromptEntry(client.venue, e, p); }
        if e.Some? { ToFilled(w, client.history, e.value.executedQuantity, e.value.status == "FILLED"); }
      }
    }

    /** A reduce-only algo order of what the entry executed, and its proof when it can be had. */
    method PlaceExit(p: ValidatedEntry, t: AlgoType, executed: string, ghost w: Watch, ghost stage: Stage)
      returns (rejected: bool, e: Option<AlgoEvidence>)
      requires client.Valid() && client.mood == w.mood && At(w, client.history, stage) && w.plan == p && IsEntryPlan(p)
      requires IsPlain(executed)
      requires (stage.Filled? && t.StopMarket?) || (stage.TargetSent? && t.TakeProfitMarket?)
      modifies client
      ensures client.Valid() && At(w, client.history, stage)
      ensures rejected ==> e.None?
      ensures e.Some? ==> AlgoProofMatches(e, p.symbol, ExitSide(p.direction), t, ExitId(p, t), executed, ExitPrice(p, t))
      ensures client.truthful && e.Some? ==> ExitShows(client.venue, p, t, executed)
      ensures |client.requests| == |old(client.requests)| + 1 && old(client.requests) <= client.requests && old(client.answers) <= client.answers
      ensures AlgoTrace(Trail(client.requests, client.answers, |old(client.answers)|), |old(client.requests)|, ExitOrder(p, t, executed),
                        ExitKey(p, t, executed), rejected, e)
      ensures client.prompt ==> client.venue == Landed(old(client.venue), ExitOrder(p, t, executed))
      ensures client.prompt && client.answering && ExitShows(client.venue, p, t, executed) ==> e.Some?
    {
      hide IsEntryPlan, IsPlain, At, Quiet, Sent, ActiveAlgo, AlgoProofMatches, Amount, Landed, AskedAlgo;
      PlanNumbers(p);
      var order := ExitOrder(p, t, executed);
      var submission := client.PlaceAlgo(order);
      Sends(w, old(client.history), client.history, order, submission.Rejected?, stage);
      rejected, e := submission.Rejected?, None;
      if !rejected {
        ghost var h := client.history;
        e := LookupAlgo(client, p.symbol, ExitSide(p.direction), t, ExitId(p, t), executed, ExitPrice(p, t));
        Waits(w, h, client.history, stage);
      }
    }

    /** `emergencyFlatten`. */
    method EmergencyFlatten(p: ValidatedEntry, entry: OrdinaryEvidence, cause: Cause, ghost w: Watch) returns (r: EntryResult)
      requires client.Valid() && client.mood == w.mood && w.plan == p && IsEntryPlan(p)
      requires w.safe ==> client.truthful
      requires IsFillOf(entry, p.symbol, EntrySide(p.direction), p.ids.entry, false) && IsPlain(entry.executedQuantity)
      requires At(w, client.history, Filled(entry.executedQuantity, entry.status == "FILLED"))
      modifies client
      ensures client.Valid() && Supports(p, r) && Fulfils(w, client.history, r)
      ensures r.state.EmergencyFlattenConfirmed? && w.safe ==> r.emergencyClose.Some? && r.emergencyClose.value.status == "FILLED"
      ensures old(client.requests) <= client.requests && old(client.answers) <= client.answers
      ensures FlattenTrace(p, entry, cause, r, Trail(client.requests, client.answers, |old(client.answers)|), |old(client.requests)|)
      ensures client.prompt ==> client.venue == Landed(old(client.venue), FlattenOrder(p, entry.executedQuantity))
      ensures client.prompt && client.answering && CloseShows(client.venue, p, entry.executedQuantity) ==> r.state.EmergencyFlattenConfirmed?
    {
      hide IsEntryPlan, IsPlain, Value, At, IsFillOf, FlattenReason, Supports, Described, DecimalEquals, Landed, FillTrace, Fulfils, CloseShows;
      var full := entry.status == "FILLED";
      ToFlattening(w, client.history, entry.executedQuantity, full);
      var rejected, close := PlaceClose(p, entry.executedQuantity, full, w);
      FlattenReasonIsGiven(cause, close.Some?);
      var state := if close.None? then EmergencyFlattenPending else EmergencyFlattenConfirmed;
      r := Described(p, state, FlattenReason(cause, close.Some?), Some(entry), None, None, close);
      DescribedSupports(p, state, FlattenReason(cause, close.Some?), Some(entry), None, None, close);
      DescribedFields(p, state, FlattenReason(cause, close.Some?), Some(entry), None, None, close);
      FillTraceIs(Trail(client.requests, client.answers, |old(client.answers)|), |old(client.requests)|, FlattenOrder(p, entry.executedQuantity),
                  CloseKey(p, entry.executedQuantity), rejected, close);
      if close.Some? {
        DecimalEqualsDecides(close.value.executedQuantity, entry.executedQuantity);
        ToFlattened(w, client.history, entry.executedQuantity, full, close.value.executedQuantity, close.value.status == "FILLED");
      }
      Ends(w, client.history, if close.Some? then Flattened(entry.executedQuantity, full) else Flattening(entry.executedQuantity, full), r);
    }

    /** The emergency close, and its proof when it can be had. */
    method PlaceClose(p: ValidatedEntry, executed: string, full: bool, ghost w: Watch) returns (rejected: bool, close: Option<OrdinaryEvidence>)
      requires client.Valid() && client.mood == w.mood && w.plan == p && IsEntryPlan(p) && IsPlain(executed)
      requires At(w, client.history, Flattening(executed, full))
      modifies client
      ensures client.Valid() && At(w, client.history, Flattening(executed, full))
      ensures close.Some? ==> IsFillOf(close.value, p.symbol, ExitSide(p.direction), p.ids.emergencyClose, true)
      ensures close.Some? ==> IsPlain(close.value.executedQuantity) && DecimalEquals(close.value.executedQuantity, executed)
      ensures client.truthful && close.Some? ==>
        FilledOrder(client.venue, p.ids.emergencyClose, p.symbol, ExitSide(p.direction), true, Amount(close.value.executedQuantity), close.value.status == "FILLED")
      ensures |client.requests| == |old(client.requests)| + 1 && old(client.requests) <= client.requests && old(client.answers) <= client.answers
      ensures FillTrace(Trail(client.requests, client.answers, |old(client.answers)|), |old(client.requests)|, FlattenOrder(p, executed),
                        CloseKey(p, executed), rejected, close)
      ensures client.prompt ==> client.venue == Landed(old(client.venue), FlattenOrder(p, executed))
      ensures client.prompt && client.answering && CloseShows(client.venue, p, executed) ==> close.Some?
    {
      hide IsEntryPlan, IsPlain, Value, At, Quiet, OrderTruthful, FilledOrder, IsFillOf, DecimalEquals, Landed, ResolvedFill, ProveOrdinaryFill;
      ghost var h := client.history;
      var order := FlattenOrder(p, executed);
      var submission := client.PlaceOrder(order);
      Sends(w, h, client.history, order, submission.disposition.Rejected?, Flattening(executed, full));
      rejected, close := submission.disposition.Rejected?, None;
      if !rejected {
        h := client.history;
        close := ResolveOrdinaryFill(client, submission, p.symbol, ExitSide(p.direction), p.ids.emergencyClose, true, Some(executed));
        Waits(w, h, client.history, Flattening(executed, full));
        if client.answering && CloseShows(client.venue, p, executed) {
          AnsweredFill(client.venue, p.ids.emergencyClose, p.symbol, ExitSide(p.direction), true, Amount(executed), true, Some(executed));
        }
      }
    }

    /** `createProtectedEntry`. */
    method CreateProtectedEntry(p: ValidatedEntry) returns (r: EntryResult)
      requires client.Valid() && IsEntryPlan(p)
      modifies client
      ensures client.Valid() && old(client.history) <= client.history
      ensures Supports(p, r)
      ensures r.state.RejectedBeforeExposure? ==> Quiet(client.mood, old(client.history), client.history)
      // what was sent, in order, and what the report goes by
      ensures old(client.requests) <= client.requests && old(client.answers) <= client.answers
      ensures EntryTrace(p, r, Trail(client.requests, client.answers, |old(client.answers)|), |old(client.requests)|)
      // an entry that was seen and is not protected was closed, unless that very order was refused
      ensures r.entry.Some? && r.stop.None? ==> FlattenWasSent(p, r.entry.value.executedQuantity, client.requests, client.history)
      ensures client.truthful && StartsFresh(old(client.venue), p) ==>
        && EntryProofsHold(p, r)
        && RecoverableThroughout(old(client.history), client.history, p)
        && Secured(client.mood, client.venue, p, r)
        && (r.state.OpenProtected? && !client.mood.Wild? ==> r.entry.Some? && OpenComplete(client.venue, p, r.entry.value.executedQuantity))
        && (r.state.EmergencyFlattenConfirmed? && !client.mood.Wild? && StartsBalanced(old(client.venue), p) ==>
              r.entry.Some? && LeavesExactly(client.venue, p, r.entry.value.executedQuantity))
      ensures client.prompt && client.answering && client.truthful && Executable(old(client.venue), p) ==>
        r.state.OpenProtected? && client.venue == OpenedAt(old(client.venue), p)
      ensures client.prompt && client.answering && client.truthful && Closable(old(client.venue), p) ==>
        && r.state.EmergencyFlattenConfirmed? && client.venue == ClosedAt(old(client.venue), p)
        && Exposure(client.venue, p.direction) == Exposure(old(client.venue), p.direction)
    {
      hide IsEntryPlan, At, Quiet, Supports, EntryTrace, Fulfils, StartsFresh, StartsBalanced, Executable, Closable, SentAll, FlattenWasSent,
        RecoverableThroughout, Secured, EntryProofsHold, LeavesExactly, OpenComplete, OpenedAt, ClosedAt;
      ghost var w := Watch(client.mood, client.history, p, client.truthful && StartsFresh(client.venue, p), StartsBalanced(client.venue, p));
      BeginsAt(w, client.history);
      r := Enter(p, w);
      Fulfilled(w, client.history, r);
      if r.entry.Some? && r.stop.None? { SentWhenUnprotected(p, r, Trail(client.requests, client.answers, |old(client.answers)|), |old(client.requests)|, client.history); }
    }

    /** Its steps, under observation. */
    method Enter(p: ValidatedEntry, ghost w: Watch) returns (r: EntryResult)
      requires client.Valid() && client.mood == w.mood && w.plan == p && IsEntryPlan(p)
      requires w.safe ==> client.truthful
      requires At(w, client.history, Fresh)
      modifies client
      ensures client.Valid() && Supports(p, r) && Fulfils(w, client.history, r)
      ensures r.state.RejectedBeforeExposure? ==> Quiet(client.mood, old(client.history), client.history)
      ensures old(client.requests) <= client.requests && old(client.answers) <= client.answers
      ensures EntryTrace(p, r, Trail(client.requests, client.answers, |old(client.answers)|), |old(client.requests)|)
      ensures client.prompt && client.answering && client.truthful && Executable(old(client.venue), p) ==>
        r.state.OpenProtected? && client.venue == OpenedAt(old(client.venue), p)
      ensures client.prompt && client.answering && client.truthful && Closable(old(client.venue), p) ==>
        && r.state.EmergencyFlattenConfirmed? && client.venue == ClosedAt(old(client.venue), p)
        && Exposure(client.venue, p.direction) == Exposure(old(client.venue), p.direction)
    {
      hide IsEntryPlan, IsPlain, Value, At, Quiet, IsFillOf, Supports, Described, LiveReason, FillTrace, FlattenTrace, StopTrace, EntryTrace, Fulfils,
        Executable, Closable, EntryShows, ExitShows, CloseShows, AfterEntry, Landed, FilledOrder, SentAll;
      ghost var v := client.venue;
      if Executable(v, p) { PromptRuns(v, p); }
      if Closable(v, p) { PromptCloses(v, p); }
      var rejected, entry := PlaceEntry(p, w);
      ghost var first := Trail(client.requests, client.answers, |old(client.answers)|);
      if entry.None? {
        var state := if rejected then RejectedBeforeExposure else EntryVisibilityPending;
        LiveReasonIsGiven(state);
        r := Described(p, state, LiveReason(state), None, None, None, None);
        DescribedSupports(p, state, LiveReason(state), None, None, None, None);
        UnseenTrace(p, rejected, r, first, |old(client.requests)|);
        Ends(w, client.history, Fresh, r);
      } else if entry.value.status != "FILLED" {
        r := EmergencyFlatten(p, entry.value, PartialEntry, w);
        PartialTrace(p, rejected, entry.value, r, first, Trail(client.requests, client.answers, |first.answers|), |old(client.requests)|);
      } else {
        r := ProtectFilled(p, entry.value, w);
        FilledTrace(p, rejected, entry.value, r, first, Trail(client.requests, client.answers, |first.answers|), |old(client.requests)|);
      }
      RejectedSawNothing(p, r);
    }

    /** What it does once the entry is filled. */
    method ProtectFilled(p: ValidatedEntry, entry: OrdinaryEvidence, ghost w: Watch) returns (r: EntryResult)
      requires client.Valid() && client.mood == w.mood && w.plan == p && IsEntryPlan(p)
      requires w.safe ==> client.truthful
      requires entry.status == "FILLED" && IsPlain(entry.executedQuantity)
      requires IsFillOf(entry, p.symbol, EntrySide(p.direction), p.ids.entry, false)
      requires At(w, client.history, Filled(entry.executedQuantity, true))
      modifies client
      ensures client.Valid() && Supports(p, r) && Fulfils(w, client.history, r)
      ensures old(client.requests) <= client.requests && old(client.answers) <= client.answers
      ensures StopTrace(p, entry, r, Trail(client.requests, client.answers, |old(client.answers)|), |old(client.requests)|)
      ensures var x := entry.executedQuantity; var stopped := Landed(old(client.venue), ExitOrder(p, StopMarket, x));
        client.prompt && client.answering && ExitShows(stopped, p, StopMarket, x) ==>
          var both := Landed(stopped, ExitOrder(p, TakeProfitMarket, x));
          client.venue == both && (ExitShows(both, p, TakeProfitMarket, x) ==> r.state.OpenProtected?)
      ensures var x := entry.executedQuantity; var stopped := Landed(old(client.venue), ExitOrder(p, StopMarket, x));
        client.prompt && client.answering && client.truthful && !ExitShows(stopped, p, StopMarket, x) ==>
          var closed := Landed(stopped, FlattenOrder(p, x));
          client.venue == closed && (CloseShows(closed, p, x) ==> r.state.EmergencyFlattenConfirmed?)
    {
      hide IsEntryPlan, IsPlain, Value, At, IsFillOf, Supports, Described, AlgoProofMatches, ActiveAlgo, Landed, AlgoTrace, FlattenTrace, TargetTrace, Fulfils,
        CloseShows, Amount;
      var x := entry.executedQuantity;
      var rejected, stop := PlaceExit(p, StopMarket, x, w, Filled(x, true));
      ghost var first := Trail(client.requests, client.answers, |old(client.answers)|);
      AlgoTraceIs(first, |old(client.requests)|, ExitOrder(p, StopMarket, x), ExitKey(p, StopMarket, x), rejected, stop);
      ghost var cause := if rejected then StopRejected else StopNotProven;
      if stop.None? {
        r := EmergencyFlatten(p, entry, if rejected then StopRejected else StopNotProven, w);
        FlattenTraceIs(p, entry, cause, r, Trail(client.requests, client.answers, |first.answers|), |first.requests|);
        FlattenTraceLasts(p, entry, cause, r, Trail(client.requests, client.answers, |first.answers|), |old(client.answers)|, |first.requests|);
      } else {
        r := PlaceTarget(p, Some(entry), stop, w);
        TargetTraceIs(p, entry, stop, r, Trail(client.requests, client.answers, |first.answers|), |first.requests|);
        TargetTraceLasts(p, entry, stop, r, Trail(client.requests, client.answers, |first.answers|), |old(client.answers)|, |first.requests|);
      }
      TraceLasts(first, Trail(client.requests, client.answers, |old(client.answers)|), |old(client.requests)|);
    }

    /** What it does once the stop is proven. */
    method PlaceTarget(p: ValidatedEntry, entry: Option<OrdinaryEvidence>, stop: Option<AlgoEvidence>, ghost w: Watch) returns (r: EntryResult)
      requires client.Valid() && client.mood == w.mood && w.plan == p && IsEntryPlan(p)
      requires w.safe ==> client.truthful
      requires entry.Some? && entry.value.status == "FILLED" && IsPlain(entry.value.executedQuantity)
      requires IsFillOf(entry.value, p.symbol, EntrySide(p.direction), p.ids.entry, false)
      requires stop.Some? && AlgoProofMatches(stop, p.symbol, ExitSide(p.direction), StopMarket, p.ids.stop, entry.value.executedQuantity, p.stopPrice)
      requires At(w, client.history, Filled(entry.value.executedQuantity, true))
      requires client.truthful ==>
        ActiveAlgo(client.venue, p.ids.stop, p.symbol, ExitSide(p.direction), StopMarket, Amount(entry.value.executedQuantity), Amount(p.stopPrice))
      modifies client
      ensures client.Valid() && Supports(p, r) && Fulfils(w, client.history, r)
      ensures old(client.requests) <= client.requests && old(client.answers) <= client.answers
      ensures TargetTrace(p, entry.value, stop, r, Trail(client.requests, client.answers, |old(client.answers)|), |old(client.requests)|)
      ensures client.prompt ==> client.venue == Landed(old(client.venue), ExitOrder(p, TakeProfitMarket, entry.value.executedQuantity))
      ensures client.prompt && client.answering && ExitShows(client.venue, p, TakeProfitMarket, entry.value.executedQuantity) ==> r.state.OpenProtected?
    {
      hide IsEntryPlan, IsPlain, Value, At, Quiet, IsFillOf, Supports, Described, AlgoProofMatches, ActiveAlgo, LiveReason, Fulfils, Amount, Landed, AlgoTrace;
      var executed := entry.value.executedQuantity;
      PlanNumbers(p);
      ToStopProven(w, client.history, executed);
      ToTargetSent(w, client.history, executed);
      var rejected, target := PlaceExit(p, TakeProfitMarket, executed, w, TargetSent(executed));
      var state := if target.None? then OpenProtectedTargetPending else OpenProtected;
      LiveReasonIsGiven(state);
      r := Described(p, state, LiveReason(state), entry, stop, target, None);
      DescribedSupports(p, state, LiveReason(state), entry, stop, target, None);
      DescribedFields(p, state, LiveReason(state), entry, stop, target, None);
      AlgoTraceIs(Trail(client.requests, client.answers, |old(client.answers)|), |old(client.requests)|, ExitOrder(p, TakeProfitMarket, executed),
                  ExitKey(p, TakeProfitMarket, executed), rejected, target);
      if target.Some? { ToPairProven(w, client.history, executed); }
      Ends(w, client.history, if target.None? then TargetSent(executed) else PairProven(executed), r);
    }

    /** The entry as recovery sees it. */
    method RecoverEntry(p: ValidatedEntry) returns (e: Option<OrdinaryEvidence>)
      requires client.Valid() && IsEntryPlan(p)
      modifies client
      ensures client.Valid() && Quiet(client.mood, old(client.history), client.history)
      ensures e.Some? ==> IsFillOf(e.value, p.symbol, EntrySide(p.direction), p.ids.entry, false) && IsPlain(e.value.executedQuantity)
      ensures client.requests == old(client.requests) && old(client.answers) <= client.answers
      ensures AskedFill(client.answers, |old(client.answers)|, |client.requests|, EntryKey(p), e)
      ensures client.truthful && Recoverable(old(client.venue), p) && e.Some? ==> EntrySeen(client.mood, client.venue, p, e.value)
      ensures client.answering && !client.mood.Wild? && OpenShown(old(client.venue), p) ==>
        e.Some? && e.value.status == "FILLED" && PairHolds(client.venue, p, e.value.executedQuantity)
      ensures client.answering && client.mood.Frozen? && FlattenShown(old(client.venue), p) ==>
        && e.Some? && (e.value.status == "FILLED" <==> EntryIsFull(client.venue, p))
        && client.venue == old(client.venue) && Amount(e.value.executedQuantity) == Amount(EntryText(client.venue, p))
    {
      hide IsEntryPlan, IsPlain, Quiet, IsFillOf, FilledOrder, Recoverable, ProveOrdinaryFill, OpenShown, FlattenShown, EntryIsFull, EntryText, PairHolds, Amount, Holds;
      e := LookupOrdinaryFill(client, p.symbol, EntrySide(p.direction), p.ids.entry, false, None);
      if Recoverable(old(client.venue), p) { RecoverableStays(client.mood, old(client.history), client.history, p); }
      if client.truthful && e.Some? { FilledIsSeen(client.venue, client.mood, p, e.value.executedQuantity, e.value.status == "FILLED"); }
      if client.answering && !client.mood.Wild? && OpenShown(old(client.venue), p) {
        OpenReads(client.mood, old(client.history), client.history, p);
      }
      if client.answering && client.mood.Frozen? && FlattenShown(old(client.venue), p) {
        FlattenReads(old(client.history), client.history, p);
      }
    }

    /** Recovery's last resort: was the position flattened? */
    method RecoverFlatten(p: ValidatedEntry, entry: OrdinaryEvidence) returns (r: EntryResult)
      requires client.Valid() && IsEntryPlan(p)
      requires IsFillOf(entry, p.symbol, EntrySide(p.direction), p.ids.entry, false) && IsPlain(entry.executedQuantity)
      modifies client
      ensures client.Valid() && Quiet(client.mood, old(client.history), client.history)
      ensures Supports(p, r) && (r.state.EmergencyFlattenPending? || r.state.EmergencyFlattenConfirmed?) && r.entry == Some(entry)
      ensures client.requests == old(client.requests) && old(client.answers) <= client.answers
      ensures ClosedTrace(p, entry, r, Trail(client.requests, client.answers, |old(client.answers)|)) && r.stop.None? && r.target.None?
      ensures client.truthful && EntrySeen(client.mood, old(client.venue), p, entry) && r.state.EmergencyFlattenConfirmed? ==>
        LeavesSince(client.mood, client.venue, p, entry.executedQuantity, entry.status == "FILLED")
      ensures client.answering && Holds(old(client.venue), CloseFact(p, entry.executedQuantity)) ==> r.state.EmergencyFlattenConfirmed?
    {
      hide IsEntryPlan, IsPlain, Value, Quiet, IsFillOf, FilledOrder, EntrySeen, RestartReason, Supports, Described, ProveOrdinaryFill, DecimalEquals, AskedFill, LeavesSince;
      var close := LookupOrdinaryFill(client, p.symbol, ExitSide(p.direction), p.ids.emergencyClose, true, Some(entry.executedQuantity));
      var partial := entry.status != "FILLED";
      var state := if close.None? then EmergencyFlattenPending else EmergencyFlattenConfirmed;
      RestartReasonIsGiven(state, partial);
      r := Described(p, state, RestartReason(state, partial), Some(entry), None, None, close);
      DescribedSupports(p, state, RestartReason(state, partial), Some(entry), None, None, close);
      DescribedFields(p, state, RestartReason(state, partial), Some(entry), None, None, close);
      if client.answering && Holds(old(client.venue), CloseFact(p, entry.executedQuantity)) {
        CoverStays(client.mood, old(client.history), client.history, CloseFact(p, entry.executedQuantity));
        AnsweredFill(client.venue, p.ids.emergencyClose, p.symbol, ExitSide(p.direction), true, Amount(entry.executedQuantity), true, Some(entry.executedQuantity));
      }
      if client.truthful && EntrySeen(client.mood, old(client.venue), p, entry) && close.Some? {
        FlatNow(client.mood, old(client.history), client.history, p, entry, close.value);
      }
    }

    /** The exits of a filled entry as recovery sees them. */
    method RecoverExits(p: ValidatedEntry, entry: OrdinaryEvidence) returns (stop: Option<AlgoEvidence>, target: Option<AlgoEvidence>)
      requires client.Valid() && IsEntryPlan(p) && entry.status == "FILLED" && IsPlain(entry.executedQuantity)
      modifies client
      ensures client.Valid() && Quiet(client.mood, old(client.history), client.history)
      ensures stop.None? ==> target.None?
      ensures client.requests == old(client.requests) && old(client.answers) <= client.answers
      ensures ExitsTrace(p, entry, stop, target, Trail(client.requests, client.answers, |old(client.answers)|))
      ensures stop.Some? ==> AlgoProofMatches(stop, p.symbol, ExitSide(p.direction), StopMarket, p.ids.stop, entry.executedQuantity, p.stopPrice)
      ensures target.Some? ==> AlgoProofMatches(target, p.symbol, ExitSide(p.direction), TakeProfitMarket, p.ids.target, entry.executedQuantity, p.targetPrice)
      ensures client.truthful && EntrySeen(client.mood, old(client.venue), p, entry) ==>
        && EntrySeen(client.mood, client.venue, p, entry)
        && (stop.Some? ==> Holds(client.venue, CoverFact(p, entry.executedQuantity)))
        && (target.Some? ==> Holds(client.venue, NotSent(p.ids.emergencyClose)))
      ensures client.answering && !client.mood.Wild? && PairHolds(old(client.venue), p, entry.executedQuantity) ==> target.Some?
      ensures client.truthful && client.answering && client.mood.Frozen? ==>
        && client.venue == old(client.venue)
        && (stop.Some? <==> StopShown(old(client.venue), p, entry.executedQuantity))
        && (target.Some? <==> stop.Some? && TargetShown(old(client.venue), p, entry.executedQuantity))
    {
      hide IsEntryPlan, IsPlain, Quiet, AlgoProofMatches, ActiveAlgo, Amount, EntrySeen, PairHolds, Holds, AskedAlgo, AskedFill, ResolvedFill, Inspected, CancelledAs;
      PlanNumbers(p);
      target := None;
      stop := LookupAlgo(client, p.symbol, ExitSide(p.direction), StopMarket, p.ids.stop, entry.executedQuantity, p.stopPrice);
      ghost var h := client.history;
      ExitStep(client.mood, old(client.history), h, p, entry);
      ExitReads(client.mood, client.venue, p, entry);
      if stop.None? { return; }
      ghost var a := client.answers;
      target := LookupAlgo(client, p.symbol, ExitSide(p.direction), TakeProfitMarket, p.ids.target, entry.executedQuantity, p.targetPrice);
      AskedLasts(a, client.answers, |old(client.answers)|, |old(client.answers)|, |client.requests|);
      AskedLasts(client.answers, client.answers, |old(client.answers)|, |a|, |client.requests|);
      ExitStep(client.mood, h, client.history, p, entry);
      ExitReads(client.mood, client.venue, p, entry);
      QuietTwice(client.mood, old(client.history), h, client.history);
    }

    /** What recovery makes of a filled entry. */
    method ReconcileFilled(p: ValidatedEntry, entry: OrdinaryEvidence) returns (r: EntryResult)
      requires client.Valid() && IsEntryPlan(p) && entry.status == "FILLED" && IsPlain(entry.executedQuantity)
      requires IsFillOf(entry, p.symbol, EntrySide(p.direction), p.ids.entry, false)
      modifies client
      ensures client.Valid() && Quiet(client.mood, old(client.history), client.history)
      ensures Supports(p, r) && !r.state.RejectedBeforeExposure? && r.entry == Some(entry)
      ensures client.requests == old(client.requests) && old(client.answers) <= client.answers
      ensures FilledRecovery(p, entry, r, Trail(client.requests, client.answers, |old(client.answers)|))
      ensures client.truthful && EntrySeen(client.mood, old(client.venue), p, entry) ==> RecoveredSoundly(client.mood, client.venue, p, r)
      ensures client.answering && !client.mood.Wild? && PairHolds(old(client.venue), p, entry.executedQuantity) ==> r.state.OpenProtected?
      ensures client.truthful && client.answering && client.mood.Frozen? && Holds(old(client.venue), CloseFact(p, entry.executedQuantity)) ==>
        r.state == FlattenRecoversTo(old(client.venue), p, entry.executedQuantity, true)
    {
      hide IsEntryPlan, IsPlain, Quiet, AlgoProofMatches, EntrySeen, Amount, IsFillOf, Supports, RecoveredSoundly, PairHolds, RestartReason,
        Described, Holds, StopShown, TargetShown, ExitsTrace, ClosedTrace;
      var stop, target := RecoverExits(p, entry);
      if stop.None? {
        ghost var h, t := client.history, Trail(client.requests, client.answers, |old(client.answers)|);
        r := RecoverFlatten(p, entry);
        RecoveryLasts(p, entry, r, t, Trail(client.requests, client.answers, |old(client.answers)|));
        RecoveryLasts(p, entry, r, Trail(client.requests, client.answers, |t.answers|), Trail(client.requests, client.answers, |old(client.answers)|));
        QuietTwice(client.mood, old(client.history), h, client.history);
        FlatIsSound(client.mood, client.venue, p, r);
        return;
      }
      var state := if target.None? then OpenProtectedTargetPending else OpenProtected;
      RestartReasonIsGiven(state, false);
      r := Described(p, state, RestartReason(state, false), Some(entry), stop, target, None);
      DescribedSupports(p, state, RestartReason(state, false), Some(entry), stop, target, None);
      DescribedFields(p, state, RestartReason(state, false), Some(entry), stop, target, None);
      if client.truthful && EntrySeen(client.mood, old(client.venue), p, entry) { OpenIsSound(client.mood, client.venue, p, entry, r); }
    }

    /** `reconcileProtectedEntry`: queries only. What it records as open is covered and was not flattened; it
        records a finished open whenever a live run left the venue so, and a finished flatten as far as
        `FlattenRecoversTo` says. */
    method ReconcileProtectedEntry(p: ValidatedEntry) returns (r: EntryResult)
      requires client.Valid() && IsEntryPlan(p)
      modifies client
      ensures client.Valid() && Quiet(client.mood, old(client.history), client.history)
      ensures Supports(p, r) && !r.state.RejectedBeforeExposure?
      // nothing is sent, and what is reported is what the answers prove
      ensures client.requests == old(client.requests) && old(client.answers) <= client.answers
      ensures RecoveryTrace(p, r, Trail(client.requests, client.answers, |old(client.answers)|))
      ensures client.truthful && Recoverable(old(client.venue), p) ==> RecoveredSoundly(client.mood, client.venue, p, r)
      ensures client.answering && !client.mood.Wild? && OpenShown(old(client.venue), p) ==> r.state.OpenProtected?
      ensures client.truthful && client.answering && client.mood.Frozen? && FlattenShown(old(client.venue), p) ==>
        r.state == FlattenRecoversTo(old(client.venue), p, EntryText(old(client.venue), p), EntryIsFull(old(client.venue), p))
    {
      hide IsEntryPlan, IsPlain, Quiet, Recoverable, OpenShown, Amount, IsFillOf, Supports, RecoveredSoundly, PairHolds, RestartReason, Described,
        FlattenComplete, EntrySeen, EntryText, EntryIsFull, Holds, StopShown, TargetShown, ClosedTrace, FilledRecovery, AskedFill;
      var entry := RecoverEntry(p);
      if entry.None? {
        RestartReasonIsGiven(EntryVisibilityPending, false);
        r := Described(p, EntryVisibilityPending, RestartReason(EntryVisibilityPending, false), None, None, None, None);
        DescribedSupports(p, EntryVisibilityPending, RestartReason(EntryVisibilityPending, false), None, None, None, None);
        DescribedFields(p, EntryVisibilityPending, RestartReason(EntryVisibilityPending, false), None, None, None, None);
        PendingIsSound(client.mood, client.venue, p, r);
        return;
      }
      ghost var h, v, t := client.history, client.venue, Trail(client.requests, client.answers, |old(client.answers)|);
      if client.answering && client.mood.Frozen? && FlattenShown(old(client.venue), p) {
        SameExits(v, p, entry.value.executedQuantity, EntryText(v, p));
        FlattenHasClose(v, p, entry.value.executedQuantity, EntryIsFull(v, p));
      }
      if entry.value.status != "FILLED" {
        r := RecoverFlatten(p, entry.value);
        FlatIsSound(client.mood, client.venue, p, r);
      } else {
        r := ReconcileFilled(p, entry.value);
      }
      RecoveryLasts(p, entry.value, r, t, Trail(client.requests, client.answers, |old(client.answers)|));
      RecoveryLasts(p, entry.value, r, Trail(client.requests, client.answers, |t.answers|), Trail(client.requests, client.answers, |old(client.answers)|));
      QuietTwice(client.mood, old(client.history), h, client.history);
    }
  }
}
