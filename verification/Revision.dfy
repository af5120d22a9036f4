/** Changing an owned position's protection: reduce, place the replacement pair, prove it, and only then
    cancel the current pair. */
module Revision {
  import opened Wrappers
  import opened DecimalText
  import opened MutationContract
  import opened Evidence
  import opened Venue
  import opened ProtectionGuard
  import opened Lookups
  import opened OwnedState
  import opened Lifecycle

  // ---------------------------------------------------------------- results

  /** The reason a live revision gives for its outcome. */
  function LiveReason(o: RevisionOutcome): string {
    match o
    case CurrentProtectionNotProven => "exact_current_stop_and_target_required_before_revision"
    case ReductionRejected => "reduce_only_partial_rejected_current_protection_retained"
    case ReductionVisibilityPending => "reduce_only_partial_requires_position_reconciliation"
    case ReplacementStopPending => "replacement_stop_not_proven_current_protection_retained"
    case ReplacementTargetPending => "replacement_stop_proven_target_pending_current_protection_retained"
    case RevisionProtectedCleanupPending => "replacement_pair_proven_current_cleanup_pending"
    case RevisionProtected => "replacement_pair_and_current_cleanup_proven"
  }

  /** The reason recovery gives; it never reports the first two outcomes. */
  function RestartReason(o: RevisionOutcome): string {
    match o
    case ReductionVisibilityPending => "restart_reduce_only_partial_not_proven"
    case ReplacementStopPending => "restart_replacement_stop_not_proven"
    case ReplacementTargetPending => "restart_replacement_stop_proven_target_not_proven"
    case RevisionProtectedCleanupPending => "restart_replacement_pair_proven_current_cleanup_pending"
    case _ => "restart_replacement_pair_and_current_cleanup_proven"
  }

  lemma {:induction false} LiveReasonIsGiven(o: RevisionOutcome)
    ensures LiveReason(o) != ""
  {}

  lemma {:induction false} RestartReasonIsGiven(o: RevisionOutcome)
    ensures RestartReason(o) != ""
  {}

  /** `revisionResult`. */
  function Described(p: ValidatedRevision, state: RevisionOutcome, reason: string,
                     currentStop: Option<AlgoEvidence>, currentTarget: Option<AlgoEvidence>, reduction: Option<OrdinaryEvidence>,
                     replacementStop: Option<AlgoEvidence>, replacementTarget: Option<AlgoEvidence>,
                     currentTargetCleanup: Option<Cleanup>, currentStopCleanup: Option<Cleanup>): RevisionResult {
    RevisionResult(p.revisionIntentId, p.current.positionIntentId, state, reason, p.current, NextOf(p),
                   currentStop, currentTarget, reduction, replacementStop, replacementTarget, currentTargetCleanup, currentStopCleanup)
  }

  /** A plan that validation returned. */
  predicate IsPlan(p: ValidatedRevision) { ValidateRevision(RevisionRequestOf(p)) == Some(p) }

  /** The numbers behind a plan's texts. */
  lemma {:induction false} PlanNumbers(p: ValidatedRevision)
    requires IsPlan(p)
    ensures IsPlain(p.current.quantity) && IsPlain(p.current.stopPrice) && IsPlain(p.current.targetPrice)
    ensures IsPlain(p.remainingQuantity) && IsPlain(p.nextStopPrice) && IsPlain(p.nextTargetPrice)
    ensures p.reductionQuantity.Some? ==> IsPlain(p.reductionQuantity.value)
    ensures Value(p.remainingQuantity) == Value(p.current.quantity) - (if p.reductionQuantity.Some? then Value(p.reductionQuantity.value) else 0.0)
    ensures p.ids.stop != p.ids.target && {p.ids.stop, p.ids.target} !! {p.current.stopId, p.current.targetId}
    ensures p.current.stopId != p.current.targetId
  {
    hide IsPlain, Value, CanonicalPositive, SubtractPositive, DecimalEquals, IsClientId, CanonicalUuid, CanonicalSymbol;
    RevisionSplitsQuantity(RevisionRequestOf(p));
    OwnedQuantities(p.current);
    if p.ids.stop == p.ids.target { OrderIdInjective("grs", p.revisionIntentId, "grt", p.revisionIntentId); }
  }

  lemma {:induction false} PlanTexts(p: ValidatedRevision)
    requires IsPlan(p)
    ensures IsPlain(p.current.quantity) && IsPlain(p.current.stopPrice) && IsPlain(p.current.targetPrice)
    ensures IsPlain(p.remainingQuantity) && IsPlain(p.nextStopPrice) && IsPlain(p.nextTargetPrice)
  {
    hide IsPlan, Value, ReductionValue;
    PlanNumbers(p);
  }

  // ---------------------------------------------------------------- what the venue must show

  ghost function GuardOf(p: ValidatedRevision): Guard {
    Guard(p.current.direction, Amount(p.current.quantity), p.ids.reduction)
  }

  /** The current stop covers the whole position. */
  ghost function CurrentCover(p: ValidatedRevision): Fact {
    IsCovered(GuardOf(p), p.current.stopId, Amount(p.current.quantity))
  }

  /** The replacement stop covers what the reduction leaves. */
  ghost function NextCover(p: ValidatedRevision): Fact {
    IsCovered(GuardOf(p), p.ids.stop, Amount(p.remainingQuantity))
  }

  ghost function ReductionFact(p: ValidatedRevision): Fact
    requires p.reductionQuantity.Some?
  {
    HasFilled(p.ids.reduction, p.current.symbol, ExitSide(p.current.direction), true, Amount(p.reductionQuantity.value), true)
  }

  ghost function NextStopFact(p: ValidatedRevision): Fact {
    HasActive(p.ids.stop, p.current.symbol, ExitSide(p.current.direction), StopMarket, Amount(p.remainingQuantity), Amount(p.nextStopPrice))
  }

  ghost function NextTargetFact(p: ValidatedRevision): Fact {
    HasActive(p.ids.target, p.current.symbol, ExitSide(p.current.direction), TakeProfitMarket, Amount(p.remainingQuantity), Amount(p.nextTargetPrice))
  }

  /** Everything a finished revision leaves at the venue. */
  ghost function CompleteFacts(p: ValidatedRevision): set<Fact> {
    (if p.reductionQuantity.Some? then {ReductionFact(p)} else {})
    + {NextStopFact(p), NextTargetFact(p), HasCanceled(p.current.targetId), HasCanceled(p.current.stopId)}
  }

  ghost predicate RevisionComplete(v: Venue.State, p: ValidatedRevision) {
    AllHold(v, CompleteFacts(p))
  }

  /** The replacement identities are not being cancelled. */
  ghost predicate Unspent(v: Venue.State, p: ValidatedRevision) {
    CancelAlgo(p.ids.stop) !in v.inflight && CancelAlgo(p.ids.target) !in v.inflight
  }

  /** The owned position is covered by its current stop and nothing in flight can undo that. */
  ghost predicate StartsCovered(v: Venue.State, p: ValidatedRevision) {
    Holds(v, CurrentCover(p)) && CancelAlgo(p.ids.stop) !in v.inflight
  }

  /** The current or the replacement stop covers the position, and nobody is cancelling the replacement. */
  ghost predicate Covered(v: Venue.State, p: ValidatedRevision) {
    Secure(v, {CurrentCover(p), NextCover(p)}) && CancelAlgo(p.ids.stop) !in v.inflight
  }

  ghost predicate EndsCovered(v: Venue.State, p: ValidatedRevision, state: RevisionOutcome) {
    Holds(v, if IsDone(state) then NextCover(p) else CurrentCover(p))
  }

  /** In every state passed through since then, that is at every step and at every point a crash can leave. */
  ghost predicate CoveredThroughout(past: seq<Venue.State>, h: seq<Venue.State>, p: ValidatedRevision) {
    past != [] && past <= h && forall k :: |past| - 1 <= k < |h| ==> Covered(h[k], p)
  }

  /** A covered position is flat or has a working stop at least its size. */
  lemma {:induction false} CoveredMeansProtected(v: Venue.State, p: ValidatedRevision)
    requires Covered(v, p)
    ensures Protected(v, p.current.direction, {p.current.stopId, p.ids.stop})
  {
    hide Covers, Contained, Protected;
    var f :| f in {CurrentCover(p), NextCover(p)} && Holds(v, f);
    CoversProtects(v, p.current.direction, f.stopId, f.size, {p.current.stopId, p.ids.stop});
  }

  /** What a result promises to the durable record: it is about this plan and carries the proofs it claims. */
  predicate Supports(p: ValidatedRevision, r: RevisionResult) {
    RevisionResultIdentifies(p, r) && (IsDone(r.state) ==> RevisionProof(p, r))
  }

  lemma {:induction false} FillIsFact(v: Venue.State, p: ValidatedRevision)
    requires p.reductionQuantity.Some?
    requires FilledOrder(v, p.ids.reduction, p.current.symbol, ExitSide(p.current.direction), true, Amount(p.reductionQuantity.value), true)
    ensures Holds(v, ReductionFact(p))
  {
    hide FilledOrder;
  }

  /** The outcome says exactly which proof is the first one missing; recovery does not look at the current pair. */
  predicate Accounts(p: ValidatedRevision, state: RevisionOutcome, live: bool,
                     currentStop: Option<AlgoEvidence>, currentTarget: Option<AlgoEvidence>, reduction: Option<OrdinaryEvidence>,
                     stop: Option<AlgoEvidence>, target: Option<AlgoEvidence>, targetCleanup: Option<Cleanup>, stopCleanup: Option<Cleanup>) {
    var started := live ==> currentStop.Some? && currentTarget.Some?;
    var reduced := p.reductionQuantity.Some? ==> reduction.Some?;
    var cleaned := CleanupIsComplete(targetCleanup) && CleanupIsComplete(stopCleanup);
    match state
    case CurrentProtectionNotProven => !started
    case ReductionRejected => live && started && !reduced
    case ReductionVisibilityPending => started && !reduced
    case ReplacementStopPending => started && reduced && stop.None?
    case ReplacementTargetPending => started && reduced && stop.Some? && target.None?
    case RevisionProtectedCleanupPending => started && reduced && stop.Some? && target.Some? && !cleaned
    case RevisionProtected => started && reduced && stop.Some? && target.Some? && cleaned
  }

  predicate Explains(p: ValidatedRevision, r: RevisionResult, live: bool) {
    Accounts(p, r.state, live, r.currentStop, r.currentTarget, r.reduction, r.replacementStop, r.replacementTarget, r.currentTargetCleanup, r.currentStopCleanup)
  }

  predicate PairIsProven(p: ValidatedRevision, reduction: Option<OrdinaryEvidence>, stop: Option<AlgoEvidence>, target: Option<AlgoEvidence>) {
    && (p.reductionQuantity.Some? ==>
      OrdinaryFillMatches(reduction, p.current.symbol, ExitSide(p.current.direction), p.ids.reduction, true, p.reductionQuantity.value))
    && AlgoProofMatches(stop, p.current.symbol, ExitSide(p.current.direction), StopMarket, p.ids.stop, p.remainingQuantity, p.nextStopPrice)
    && AlgoProofMatches(target, p.current.symbol, ExitSide(p.current.direction), TakeProfitMarket, p.ids.target, p.remainingQuantity, p.nextTargetPrice)
  }

  /** A built result identifies its plan; one that claims no more than it proved supports it. */
  lemma {:induction false} DescribedSupports(p: ValidatedRevision, state: RevisionOutcome, live: bool,
                     currentStop: Option<AlgoEvidence>, currentTarget: Option<AlgoEvidence>, reduction: Option<OrdinaryEvidence>,
                     stop: Option<AlgoEvidence>, target: Option<AlgoEvidence>, targetCleanup: Option<Cleanup>, stopCleanup: Option<Cleanup>)
    requires IsDone(state) ==> PairIsProven(p, reduction, stop, target)
    requires Accounts(p, state, live, currentStop, currentTarget, reduction, stop, target, targetCleanup, stopCleanup)
    ensures var reason := if live then LiveReason(state) else RestartReason(state);
      var r := Described(p, state, reason, currentStop, currentTarget, reduction, stop, target, targetCleanup, stopCleanup);
      r.state == state && Supports(p, r) && Explains(p, r, live)
  {
    hide LiveReason, RestartReason, OrdinaryFillMatches, AlgoProofMatches;
    LiveReasonIsGiven(state);
    RestartReasonIsGiven(state);
  }

  ghost predicate CurrentPairActive(v: Venue.State, p: ValidatedRevision) {
    var c := p.current;
    && ActiveAlgo(v, c.stopId, c.symbol, ExitSide(c.direction), StopMarket, Amount(c.quantity), Amount(c.stopPrice))
    && ActiveAlgo(v, c.targetId, c.symbol, ExitSide(c.direction), TakeProfitMarket, Amount(c.quantity), Amount(c.targetPrice))
  }

  // ---------------------------------------------------------------- what revising may rely on

  /** How far a revision has come. */
  datatype Stage = Started | Reduced | StopProven | PairProven | Retiring(targetGone: bool) | Retired(targetGone: bool, stopGone: bool)

  /** A revision under observation since a past history, with or without the premises of the two
      promises about it (a covered position; a truthful, calm venue). */
  datatype Watch = Watch(mood: Mood, past: seq<Venue.State>, plan: ValidatedRevision, safe: bool, calm: bool)

  ghost function StageFacts(w: Watch, stage: Stage): set<Fact> {
    var p := w.plan;
    var start := (if w.safe then {CurrentCover(p), NotCancelling(p.ids.stop)} else {})
      + (if w.calm then {NotCancelling(p.ids.stop), NotCancelling(p.ids.target)} else {});
    var reduced := if (w.safe || w.calm) && p.reductionQuantity.Some? then {ReductionFact(p)} else {};
    var stop := (if w.safe then {NextCover(p)} else {}) + (if w.calm then {NextStopFact(p)} else {});
    var target := if w.calm then {NextTargetFact(p)} else {};
    match stage
    case Started => start
    case Reduced => start + reduced
    case StopProven => start + reduced + stop
    case PairProven => start + reduced + stop + target
    case Retiring(t) => start - {CurrentCover(p)} + reduced + stop + target + Gone(w, t, p.current.targetId)
    case Retired(t, s) => start - {CurrentCover(p)} + reduced + stop + target + Gone(w, t, p.current.targetId) + Gone(w, s, p.current.stopId)
  }

  ghost function Gone(w: Watch, gone: bool, id: string): set<Fact> { if w.calm && gone then {HasCanceled(id)} else {} }

  ghost function StopGuards(w: Watch): set<set<Fact>> {
    if w.safe then {{CurrentCover(w.plan), NextCover(w.plan)}, {NotCancelling(w.plan.ids.stop)}} else {}
  }

  ghost predicate At(w: Watch, h: seq<Venue.State>, stage: Stage) {
    w.past != [] && w.past <= h && Known(w.mood, h, |w.past| - 1, StageFacts(w, stage), StopGuards(w)) && (w.calm ==> !w.mood.Wild?)
  }

  lemma {:induction false} BeginsAt(w: Watch, h: seq<Venue.State>)
    requires h != [] && w.past == h
    requires w.safe ==> StartsCovered(h[|h| - 1], w.plan)
    requires w.calm ==> Unspent(h[|h| - 1], w.plan) && !w.mood.Wild?
    ensures At(w, h, Started)
  {
    hide Contained, Covers, IsPlain, Value, NextCover;
    var p := w.plan;
    if w.safe {
      var g := {CurrentCover(p), NextCover(p)};
      assert CurrentCover(p) in StageFacts(w, Started);
      assert Relied(StageFacts(w, Started), g);
      assert Secure(h[|h| - 1], g);
      var n := {NotCancelling(p.ids.stop)};
      assert NotCancelling(p.ids.stop) in StageFacts(w, Started) && NotCancelling(p.ids.stop) in n;
      assert Relied(StageFacts(w, Started), n);
      assert Holds(h[|h| - 1], NotCancelling(p.ids.stop));
      assert Secure(h[|h| - 1], n);
    }
  }

  lemma {:induction false} Waits(w: Watch, past: seq<Venue.State>, h: seq<Venue.State>, stage: Stage)
    requires At(w, past, stage) && Quiet(w.mood, past, h)
    ensures At(w, h, stage)
  {
    hide Known, Quiet;
    Waited(w.mood, past, h, |w.past| - 1, StageFacts(w, stage), StopGuards(w));
  }

  /** The only cancel that breaks a stage's facts is that of the current stop, before the replacement covers. */
  lemma {:induction false} StageSpares(w: Watch, r: Request, stage: Stage)
    requires IsPlan(w.plan)
    requires r.PostOrder? ==> r.reduceOnly
    requires r.CancelAlgo? ==>
      r.algoId == w.plan.current.targetId || (r.algoId == w.plan.current.stopId && (stage.Retiring? || stage.Retired?))
    ensures AllSpared(r, StageFacts(w, stage))
  {
    hide IsPlan, IsPlain, Value, ReductionValue;
    PlanNumbers(w.plan);
  }

  lemma {:induction false} Sends(w: Watch, past: seq<Venue.State>, h: seq<Venue.State>, r: Request, rejected: bool, stage: Stage)
    requires At(w, past, stage) && Sent(w.mood, past, h, r, rejected) && IsPlan(w.plan)
    requires r.PostOrder? ==> r.reduceOnly
    requires !r.CancelAlgo?
    ensures At(w, h, stage)
  {
    hide Known, Sent, IsPlan;
    StageSpares(w, r, stage);
    Requested(w.mood, past, h, r, rejected, |w.past| - 1, StageFacts(w, stage), StopGuards(w));
  }

  lemma {:induction false} Cancels(w: Watch, past: seq<Venue.State>, h: seq<Venue.State>, id: string, stage: Stage)
    requires At(w, past, stage) && SentEither(w.mood, past, h, CancelAlgo(id)) && IsPlan(w.plan)
    requires id == w.plan.current.targetId || (id == w.plan.current.stopId && stage.Retiring?)
    ensures At(w, h, stage)
  {
    hide Known, SentEither, IsPlan;
    StageSpares(w, CancelAlgo(id), stage);
    MaybeRequested(w.mood, past, h, CancelAlgo(id), |w.past| - 1, StageFacts(w, stage), StopGuards(w));
  }

  /** Some of the venue's known facts. */
  lemma {:induction false} NowHolds(w: Watch, h: seq<Venue.State>, stage: Stage, f: Fact)
    requires At(w, h, stage) && f in StageFacts(w, stage)
    ensures h != [] && Holds(h[|h| - 1], f)
  {
    hide Holds, StageFacts;
  }

  lemma {:induction false} Adds(w: Watch, h: seq<Venue.State>, from: Stage, to: Stage, more: set<Fact>)
    requires At(w, h, from) && StageFacts(w, to) == StageFacts(w, from) + more
    requires forall f :: f in more ==> Holds(h[|h| - 1], f) && Lasting(w.mood, f)
    ensures At(w, h, to)
  {
    hide Holds, StageFacts, Lasting, Secure;
  }

  lemma {:induction false} ToReduced(w: Watch, h: seq<Venue.State>)
    requires At(w, h, Started)
    requires w.plan.reductionQuantity.Some? && (w.safe || w.calm) ==> Holds(h[|h| - 1], ReductionFact(w.plan))
    ensures At(w, h, Reduced)
  {
    hide At, Holds, CurrentCover, NextCover;
    var more := if (w.safe || w.calm) && w.plan.reductionQuantity.Some? then {ReductionFact(w.plan)} else {};
    Adds(w, h, Started, Reduced, more);
  }

  /** The replacement stop, once proven, takes over the whole of what is left. */
  lemma {:induction false} ToStopProven(w: Watch, h: seq<Venue.State>)
    requires At(w, h, Reduced) && IsPlan(w.plan)
    requires w.safe || w.calm ==> var p := w.plan;
      ActiveAlgo(h[|h| - 1], p.ids.stop, p.current.symbol, ExitSide(p.current.direction), StopMarket, Amount(p.remainingQuantity), Amount(p.nextStopPrice))
    ensures At(w, h, StopProven)
  {
    hide At, Holds, Contained, Covers, IsPlain, Value, ActiveAlgo, FilledOrder, IsPlan;
    var p := w.plan;
    var more := (if w.safe then {NextCover(p)} else {}) + (if w.calm then {NextStopFact(p)} else {});
    if w.safe { SafeStop(w, h); }
    if w.calm { CalmFact(w, h, Reduced, NextStopFact(p)); }
    Adds(w, h, Reduced, StopProven, more);
  }

  lemma {:induction false} SafeStop(w: Watch, h: seq<Venue.State>)
    requires At(w, h, Reduced) && IsPlan(w.plan) && w.safe
    requires var p := w.plan;
      ActiveAlgo(h[|h| - 1], p.ids.stop, p.current.symbol, ExitSide(p.current.direction), StopMarket, Amount(p.remainingQuantity), Amount(p.nextStopPrice))
    ensures Holds(h[|h| - 1], NextCover(w.plan))
  {
    hide Known, Contained, Covers, IsPlain, Value, ActiveAlgo, FilledOrder, IsPlan, ReductionValue;
    var p, v := w.plan, h[|h| - 1];
    PlanNumbers(p);
    NowHolds(w, h, Reduced, CurrentCover(p));
    NowHolds(w, h, Reduced, NotCancelling(p.ids.stop));
    if p.reductionQuantity.Some? { NowHolds(w, h, Reduced, ReductionFact(p)); }
    StopTakesOver(v, GuardOf(p), p.current.symbol, p.ids.stop, Amount(p.remainingQuantity), Amount(p.nextStopPrice));
  }

  lemma {:induction false} CalmFact(w: Watch, h: seq<Venue.State>, stage: Stage, f: Fact)
    requires At(w, h, stage) && w.calm && f.HasActive? && NotCancelling(f.id) in StageFacts(w, stage)
    requires ActiveAlgo(h[|h| - 1], f.id, f.symbol, f.side, f.orderType, f.quantity, f.trigger)
    ensures Holds(h[|h| - 1], f) && Lasting(w.mood, f)
  {
    hide ActiveAlgo, StageFacts;
    NowHolds(w, h, stage, NotCancelling(f.id));
  }

  lemma {:induction false} ToPairProven(w: Watch, h: seq<Venue.State>)
    requires At(w, h, StopProven)
    requires w.calm ==> var p := w.plan;
      ActiveAlgo(h[|h| - 1], p.ids.target, p.current.symbol, ExitSide(p.current.direction), TakeProfitMarket, Amount(p.remainingQuantity), Amount(p.nextTargetPrice))
    ensures At(w, h, PairProven)
  {
    hide At, Holds, CurrentCover, NextCover, ActiveAlgo;
    var p := w.plan;
    if w.calm { CalmFact(w, h, StopProven, NextTargetFact(p)); }
    Adds(w, h, StopProven, PairProven, if w.calm then {NextTargetFact(p)} else {});
  }

  lemma {:induction false} RetiringFacts(w: Watch, targetGone: bool, stopGone: bool)
    requires IsPlan(w.plan)
    ensures var p := w.plan; var pair := StageFacts(w, PairProven) - {CurrentCover(p)};
      && (w.safe ==> NextCover(p) in pair && NotCancelling(p.ids.stop) in pair)
      && StageFacts(w, Retiring(targetGone)) == pair + Gone(w, targetGone, p.current.targetId)
      && StageFacts(w, Retired(targetGone, stopGone)) == StageFacts(w, Retiring(targetGone)) + Gone(w, stopGone, p.current.stopId)
  {
    hide IsPlan, IsPlain, Value, ReductionValue;
    PlanNumbers(w.plan);
  }

  /** From here on the replacement stop is what the position relies on. */
  lemma {:induction false} ToRetiring(w: Watch, h: seq<Venue.State>, gone: bool)
    requires At(w, h, PairProven) && IsPlan(w.plan)
    requires w.calm && gone ==> CanceledAlgo(h[|h| - 1], w.plan.current.targetId)
    ensures At(w, h, Retiring(gone))
  {
    hide Known, CurrentCover, NextCover, CanceledAlgo, IsPlan, StageFacts;
    var p := w.plan;
    RetiringFacts(w, gone, gone);
    var pair := StageFacts(w, PairProven) - {CurrentCover(p)};
    if w.safe { assert Relied(pair, {CurrentCover(p), NextCover(p)}) && Relied(pair, {NotCancelling(p.ids.stop)}); }
    Dropped(w.mood, h, |w.past| - 1, StageFacts(w, PairProven), StopGuards(w), pair);
    AddsGone(w, h, pair, gone, p.current.targetId);
  }

  lemma {:induction false} AddsGone(w: Watch, h: seq<Venue.State>, facts: set<Fact>, gone: bool, id: string)
    requires w.past != [] && Known(w.mood, h, |w.past| - 1, facts, StopGuards(w))
    requires w.calm && gone ==> CanceledAlgo(h[|h| - 1], id)
    ensures Known(w.mood, h, |w.past| - 1, facts + Gone(w, gone, id), StopGuards(w))
  {
    hide Known, StopGuards, CanceledAlgo;
    if w.calm && gone { LearnedCancel(w.mood, h, |w.past| - 1, facts, StopGuards(w), id); }
    else { assert facts + Gone(w, gone, id) == facts; }
  }

  lemma {:induction false} ToRetired(w: Watch, h: seq<Venue.State>, targetGone: bool, gone: bool)
    requires At(w, h, Retiring(targetGone)) && IsPlan(w.plan)
    requires w.calm && gone ==> CanceledAlgo(h[|h| - 1], w.plan.current.stopId)
    ensures At(w, h, Retired(targetGone, gone))
  {
    hide Known, CurrentCover, NextCover, CanceledAlgo, IsPlan, StageFacts, StopGuards;
    RetiringFacts(w, targetGone, gone);
    AddsGone(w, h, StageFacts(w, Retiring(targetGone)), gone, w.plan.current.stopId);
  }

  lemma {:induction false} NotCancellingNow(v: Venue.State, id: string)
    requires Secure(v, {NotCancelling(id)})
    ensures CancelAlgo(id) !in v.inflight
  {}

  /** A guarded history, in the terms of the contract. */
  lemma {:induction false} EndsAt(w: Watch, h: seq<Venue.State>, stage: Stage, state: RevisionOutcome)
    requires At(w, h, stage) && w.safe && IsPlan(w.plan)
    requires if IsDone(state) then stage.Retired? else !stage.Retiring? && !stage.Retired?
    ensures EndsCovered(h[|h| - 1], w.plan, state)
    ensures CoveredThroughout(w.past, h, w.plan)
  {
    hide Holds, Secure, IsPlain, Value, CurrentCover, NextCover, IsPlan;
    if IsDone(state) { RetiringFacts(w, stage.targetGone, stage.stopGone); }
    var g := {CurrentCover(w.plan), NextCover(w.plan)};
    var n := {NotCancelling(w.plan.ids.stop)};
    assert g in StopGuards(w) && n in StopGuards(w);
    forall k | |w.past| - 1 <= k < |h|
      ensures Covered(h[k], w.plan)
    {
      assert Secure(h[k], g) && Secure(h[k], n);
      NotCancellingNow(h[k], w.plan.ids.stop);
    }
    assert (if IsDone(state) then NextCover(w.plan) else CurrentCover(w.plan)) in StageFacts(w, stage);
  }

  lemma {:induction false} CompleteAt(w: Watch, h: seq<Venue.State>)
    requires At(w, h, Retired(true, true)) && w.calm && IsPlan(w.plan)
    ensures RevisionComplete(h[|h| - 1], w.plan)
  {
    hide Holds, IsPlan;
    assert CompleteFacts(w.plan) <= StageFacts(w, Retired(true, true));
  }

  /** A revision that ends before its pair is proven. */
  lemma {:induction false} Stops(w: Watch, h: seq<Venue.State>, stage: Stage, state: RevisionOutcome)
    requires At(w, h, stage) && IsPlan(w.plan) && !IsDone(state) && !stage.Retiring? && !stage.Retired?
    ensures w.past <= h
    ensures w.safe ==> EndsCovered(h[|h| - 1], w.plan, state) && CoveredThroughout(w.past, h, w.plan)
  {
    hide Known, IsPlan, EndsCovered, CoveredThroughout;
    if w.safe { EndsAt(w, h, stage, state); }
  }

  /** A revision that proves its pair. */
  lemma {:induction false} Finishes(w: Watch, h: seq<Venue.State>, targetGone: bool, stopGone: bool, state: RevisionOutcome)
    requires At(w, h, Retired(targetGone, stopGone)) && IsPlan(w.plan) && IsDone(state)
    requires state.RevisionProtected? ==> targetGone && stopGone
    ensures w.past <= h
    ensures w.safe ==> EndsCovered(h[|h| - 1], w.plan, state) && CoveredThroughout(w.past, h, w.plan)
    ensures w.calm && state.RevisionProtected? ==> RevisionComplete(h[|h| - 1], w.plan)
  {
    hide Known, IsPlan, EndsCovered, CoveredThroughout, RevisionComplete;
    if w.safe { EndsAt(w, h, Retired(targetGone, stopGone), state); }
    if w.calm && state.RevisionProtected? { CompleteAt(w, h); }
  }

  // ---------------------------------------------------------------- what recovery may rely on

  /** Nothing can enlarge the position or cancel the replacement stop. */
  ghost predicate Recoverable(v: Venue.State, p: ValidatedRevision) { RecoversAt(v, p, false, false) }

  /** So whatever a covered revision leaves, wherever it stops, can be recovered soundly. */
  lemma {:induction false} CoveredIsRecoverable(v: Venue.State, p: ValidatedRevision)
    requires Covered(v, p)
    ensures Recoverable(v, p)
  {
    hide Contained, Covers;
    var f :| f in {CurrentCover(p), NextCover(p)} && Holds(v, f);
  }

  /** And while the client only waits, the position stays covered. */
  lemma {:induction false} CoveredStays(mood: Mood, past: seq<Venue.State>, h: seq<Venue.State>, p: ValidatedRevision)
    requires Quiet(mood, past, h) && Covered(past[|past| - 1], p)
    ensures h != [] && Covered(h[|h| - 1], p)
  {
    hide Contained, Covers, EnvPath, CurrentCover, NextCover;
    var f :| f in {CurrentCover(p), NextCover(p)} && Holds(past[|past| - 1], f);
    CoverLasts(mood, p);
    QuietKeeps(mood, past, h, {f, NotCancelling(p.ids.stop)});
    assert Holds(h[|h| - 1], f) && Holds(h[|h| - 1], NotCancelling(p.ids.stop));
  }

  lemma {:induction false} CoverLasts(mood: Mood, p: ValidatedRevision)
    ensures Lasting(mood, CurrentCover(p)) && Lasting(mood, NextCover(p)) && Lasting(mood, NotCancelling(p.ids.stop))
  {}

  ghost predicate RecoversAt(v: Venue.State, p: ValidatedRevision, reduced: bool, covered: bool) {
    AllHold(v, RecoveryFacts(p, reduced, covered))
  }

  ghost function RecoveryFacts(p: ValidatedRevision, reduced: bool, covered: bool): set<Fact> {
    {IsContained(GuardOf(p)), NotCancelling(p.ids.stop)}
    + (if reduced && p.reductionQuantity.Some? then {ReductionFact(p)} else {})
    + (if covered then {NextCover(p)} else {})
  }

  lemma {:induction false} RecoveryWaits(mood: Mood, past: seq<Venue.State>, h: seq<Venue.State>, p: ValidatedRevision, reduced: bool, covered: bool)
    requires Quiet(mood, past, h)
    ensures h != []
    ensures RecoversAt(past[|past| - 1], p, reduced, covered) ==> RecoversAt(h[|h| - 1], p, reduced, covered)
    ensures RevisionComplete(past[|past| - 1], p) && !mood.Wild? ==> RevisionComplete(h[|h| - 1], p)
  {
    hide AllHold, EnvPath, CompleteFacts;
    if RecoversAt(past[|past| - 1], p, reduced, covered) { QuietKeeps(mood, past, h, RecoveryFacts(p, reduced, covered)); }
    if RevisionComplete(past[|past| - 1], p) && !mood.Wild? {
      CompleteLasts(mood, p);
      QuietKeeps(mood, past, h, CompleteFacts(p));
    }
  }

  lemma {:induction false} CompleteLasts(mood: Mood, p: ValidatedRevision)
    requires !mood.Wild?
    ensures forall f :: f in CompleteFacts(p) ==> Lasting(mood, f)
  {}

  lemma {:induction false} RecoveredReduction(v: Venue.State, p: ValidatedRevision)
    requires RecoversAt(v, p, false, false)
    requires p.reductionQuantity.Some? ==>
      FilledOrder(v, p.ids.reduction, p.current.symbol, ExitSide(p.current.direction), true, Amount(p.reductionQuantity.value), true)
    ensures RecoversAt(v, p, true, false)
  {
    hide FilledOrder, Contained;
  }

  lemma {:induction false} RecoveredStop(v: Venue.State, p: ValidatedRevision)
    requires RecoversAt(v, p, true, false) && IsPlan(p)
    requires ActiveAlgo(v, p.ids.stop, p.current.symbol, ExitSide(p.current.direction), StopMarket, Amount(p.remainingQuantity), Amount(p.nextStopPrice))
    ensures RecoversAt(v, p, true, true)
  {
    hide FilledOrder, Contained, ActiveAlgo, Covers, IsPlan, ReductionValue, IsPlain, Value;
    PlanNumbers(p);
    assert Holds(v, IsContained(GuardOf(p))) && Holds(v, NotCancelling(p.ids.stop));
    if p.reductionQuantity.Some? { assert Holds(v, ReductionFact(p)); }
    StopTakesOver(v, GuardOf(p), p.current.symbol, p.ids.stop, Amount(p.remainingQuantity), Amount(p.nextStopPrice));
  }

  lemma {:induction false} RecoveredCover(v: Venue.State, p: ValidatedRevision)
    requires RecoversAt(v, p, true, true)
    ensures Holds(v, NextCover(p))
  {
    hide Holds;
  }

  /** What a complete revision shows to the lookups of recovery. */
  lemma {:induction false} CompleteReads(v: Venue.State, p: ValidatedRevision)
    requires RevisionComplete(v, p)
    ensures p.reductionQuantity.Some? ==>
      FilledOrder(v, p.ids.reduction, p.current.symbol, ExitSide(p.current.direction), true, Amount(p.reductionQuantity.value), true)
    ensures ActiveAlgo(v, p.ids.stop, p.current.symbol, ExitSide(p.current.direction), StopMarket, Amount(p.remainingQuantity), Amount(p.nextStopPrice))
    ensures ActiveAlgo(v, p.ids.target, p.current.symbol, ExitSide(p.current.direction), TakeProfitMarket, Amount(p.remainingQuantity), Amount(p.nextTargetPrice))
    ensures CanceledAlgo(v, p.current.targetId) && CanceledAlgo(v, p.current.stopId)
  {
    hide FilledOrder, ActiveAlgo, CanceledAlgo;
    assert Holds(v, NextStopFact(p)) && Holds(v, NextTargetFact(p));
    assert Holds(v, HasCanceled(p.current.targetId)) && Holds(v, HasCanceled(p.current.stopId));
    if p.reductionQuantity.Some? { assert Holds(v, ReductionFact(p)); }
  }

  // ---------------------------------------------------------------- on a prompt venue

  function ReductionOrder(p: ValidatedRevision): Request
    requires p.reductionQuantity.Some?
  {
    PostOrder(p.ids.reduction, p.current.symbol, ExitSide(p.current.direction), p.reductionQuantity.value, true)
  }

  function NextId(p: ValidatedRevision, t: AlgoType): string { if t.StopMarket? then p.ids.stop else p.ids.target }

  function NextPrice(p: ValidatedRevision, t: AlgoType): string { if t.StopMarket? then p.nextStopPrice else p.nextTargetPrice }

  function ReplacementOrder(p: ValidatedRevision, t: AlgoType): Request {
    PostAlgo(NextId(p, t), p.current.symbol, ExitSide(p.current.direction), p.remainingQuantity, NextPrice(p, t), t)
  }

  ghost predicate NextShown(v: Venue.State, p: ValidatedRevision, t: AlgoType) {
    ActiveAlgo(v, NextId(p, t), p.current.symbol, ExitSide(p.current.direction), t, Amount(p.remainingQuantity), Amount(NextPrice(p, t)))
  }

  /** The venue after each request of a revision has landed in turn. */
  function AfterReduction(v: Venue.State, p: ValidatedRevision): Venue.State {
    if p.reductionQuantity.Some? then Landed(v, ReductionOrder(p)) else v
  }

  function BothLanded(v: Venue.State, p: ValidatedRevision): Venue.State {
    Landed(Landed(v, ReplacementOrder(p, StopMarket)), ReplacementOrder(p, TakeProfitMarket))
  }

  function BothCancelled(v: Venue.State, p: ValidatedRevision): Venue.State {
    Landed(Landed(v, CancelAlgo(p.current.targetId)), CancelAlgo(p.current.stopId))
  }

  function Revised(v: Venue.State, p: ValidatedRevision): Venue.State { BothCancelled(BothLanded(AfterReduction(v, p), p), p) }

  /** What those venues show to the lookups in between. */
  ghost predicate PairShows(v: Venue.State, p: ValidatedRevision) {
    NextShown(Landed(v, ReplacementOrder(p, StopMarket)), p, StopMarket) && NextShown(BothLanded(v, p), p, TakeProfitMarket)
  }

  ghost predicate CancelsShow(v: Venue.State, p: ValidatedRevision) {
    CanceledAlgo(Landed(v, CancelAlgo(p.current.targetId)), p.current.targetId) && CanceledAlgo(BothCancelled(v, p), p.current.stopId)
  }

  /** The current pair works, the replacement identities are new, and the reduction can be filled. */
  ghost predicate Executable(v: Venue.State, p: ValidatedRevision) {
    && CurrentPairActive(v, p) && p.ids.stop !in v.algos && p.ids.target !in v.algos
    && (p.reductionQuantity.Some? ==> Fillable(v, ReductionOrder(p), p.reductionQuantity.value, "1"))
  }

  ghost predicate ReductionShows(v: Venue.State, p: ValidatedRevision) {
    p.reductionQuantity.Some? ==>
      FilledOrder(v, p.ids.reduction, p.current.symbol, ExitSide(p.current.direction), true, Amount(p.reductionQuantity.value), true)
  }

  /** So every lookup in between finds what it asks for. */
  lemma {:induction false} PromptRuns(v: Venue.State, p: ValidatedRevision)
    requires Executable(v, p) && IsPlan(p)
    ensures CurrentPairActive(v, p) && ReductionShows(AfterReduction(v, p), p)
    ensures p.reductionQuantity.None? ==> AfterReduction(v, p) == v
    ensures PairShows(AfterReduction(v, p), p) && CancelsShow(BothLanded(AfterReduction(v, p), p), p)
    ensures Revised(v, p) == BothCancelled(BothLanded(AfterReduction(v, p), p), p)
  {
    hide IsPlan, IsPlain, Value, ReductionValue, Landed, Fillable, FilledOrder, CanceledAlgo;
    PlanNumbers(p);
    var r := AfterReduction(v, p);
    var s := Landed(r, ReplacementOrder(p, StopMarket));
    var t := BothLanded(r, p);
    var c := Landed(t, CancelAlgo(p.current.targetId));
    if p.reductionQuantity.Some? {
      SentIsFilled(v, ReductionOrder(p));
      forall id | id in {p.ids.stop, p.ids.target, p.current.stopId, p.current.targetId}
        ensures (id in r.algos <==> id in v.algos) && (id in v.algos ==> r.algos[id] == v.algos[id])
      {
        LandingSpares(v, ReductionOrder(p), id);
      }
    }
    PlacedIsActive(r, ReplacementOrder(p, StopMarket));
    LandingSpares(r, ReplacementOrder(p, StopMarket), p.ids.target);
    LandingSpares(r, ReplacementOrder(p, StopMarket), p.current.stopId);
    LandingSpares(r, ReplacementOrder(p, StopMarket), p.current.targetId);
    PlacedIsActive(s, ReplacementOrder(p, TakeProfitMarket));
    LandingSpares(s, ReplacementOrder(p, TakeProfitMarket), p.current.stopId);
    LandingSpares(s, ReplacementOrder(p, TakeProfitMarket), p.current.targetId);
    CancelledIsGone(t, p.current.targetId);
    LandingSpares(t, CancelAlgo(p.current.targetId), p.current.stopId);
    CancelledIsGone(c, p.current.stopId);
  }

  // ---------------------------------------------------------------- what is sent and asked

  function CurrentKey(p: ValidatedRevision, t: AlgoType): AlgoKey {
    var c := p.current;
    if t.StopMarket? then AlgoKey(c.stopId, c.symbol, ExitSide(c.direction), t, c.quantity, c.stopPrice)
    else AlgoKey(c.targetId, c.symbol, ExitSide(c.direction), t, c.quantity, c.targetPrice)
  }

  function ReductionKey(p: ValidatedRevision): FillKey
    requires p.reductionQuantity.Some?
  {
    FillKey(p.ids.reduction, p.current.symbol, ExitSide(p.current.direction), true, p.reductionQuantity, true)
  }

  function NextKey(p: ValidatedRevision, t: AlgoType): AlgoKey {
    AlgoKey(NextId(p, t), p.current.symbol, ExitSide(p.current.direction), t, p.remainingQuantity, NextPrice(p, t))
  }

  /** The current pair was asked for first, before any request. */
  ghost predicate CurrentAsked(p: ValidatedRevision, stop: Option<AlgoEvidence>, target: Option<AlgoEvidence>, t: Trail, m: nat) {
    AskedAlgo(t.answers, t.since, m, CurrentKey(p, StopMarket), stop) && AskedAlgo(t.answers, t.since, m, CurrentKey(p, TakeProfitMarket), target)
  }

  ghost predicate NextPlaced(p: ValidatedRevision, a: AlgoType, e: Option<AlgoEvidence>, t: Trail, m: nat) {
    m < |t.requests| && AlgoTrace(t, m, ReplacementOrder(p, a), NextKey(p, a), t.requests[m].refused, e)
  }

  /** Requests `m` and `m + 1` were the cancels of the current target and of the current stop, the last of all. */
  ghost predicate Cancelled(p: ValidatedRevision, target: Cleanup, stop: Cleanup, t: Trail, m: nat) {
    && |t.requests| == m + 2
    && t.requests[m].request == CancelAlgo(p.current.targetId) && CancelledAs(t.answers, t.since, m + 1, p.current.targetId, target)
    && t.requests[m + 1].request == CancelAlgo(p.current.stopId) && CancelledAs(t.answers, t.since, m + 2, p.current.stopId, stop)
  }

  /** From request `m` on, the replacement stop; once it is proven, the target; once both are, the cancels. */
  ghost predicate PairTrace(p: ValidatedRevision, r: RevisionResult, t: Trail, m: nat) {
    && NextPlaced(p, StopMarket, r.replacementStop, t, m)
    && if r.replacementStop.None? then |t.requests| == m + 1 && r == Reported(p, ReplacementStopPending, r)
       else
         && NextPlaced(p, TakeProfitMarket, r.replacementTarget, t, m + 1)
         && if r.replacementTarget.None? then |t.requests| == m + 2 && r == Reported(p, ReplacementTargetPending, r)
            else
              && r.currentTargetCleanup.Some? && r.currentStopCleanup.Some?
              && Cancelled(p, r.currentTargetCleanup.value, r.currentStopCleanup.value, t, m + 2)
              && r == Reported(p, if CleanupComplete(r.currentTargetCleanup.value) && CleanupComplete(r.currentStopCleanup.value) then RevisionProtected
                                  else RevisionProtectedCleanupPending, r)
  }

  /** A result in this state with the proofs it carries; nothing is carried that was not yet asked for. */
  function Reported(p: ValidatedRevision, state: RevisionOutcome, r: RevisionResult): RevisionResult {
    Described(p, state, LiveReason(state), r.currentStop, r.currentTarget, r.reduction, r.replacementStop,
              if r.replacementStop.None? then None else r.replacementTarget,
              if r.replacementTarget.None? then None else r.currentTargetCleanup, if r.replacementTarget.None? then None else r.currentStopCleanup)
  }

  /** Everything a revision sent, in order, what it went by, and so what it reports: nothing without both current
      proofs; the reduction first, if one is planned, told apart by whether the venue refused it; then the pair. */
  ghost predicate RevisionTrace(p: ValidatedRevision, r: RevisionResult, t: Trail, m: nat) {
    && CurrentAsked(p, r.currentStop, r.currentTarget, t, m)
    && if r.currentStop.None? || r.currentTarget.None? then
         |t.requests| == m && r == Described(p, CurrentProtectionNotProven, LiveReason(CurrentProtectionNotProven), r.currentStop, r.currentTarget, None, None, None, None, None)
       else StartedTrace(p, r, t, m)
  }

  ghost predicate StartedTrace(p: ValidatedRevision, r: RevisionResult, t: Trail, m: nat) {
    if p.reductionQuantity.None? then r.reduction.None? && PairTrace(p, r, t, m)
    else
      && m < |t.requests| && FillTrace(t, m, ReductionOrder(p), ReductionKey(p), t.requests[m].refused, r.reduction)
      && if r.reduction.None? then
           var state := if t.requests[m].refused then ReductionRejected else ReductionVisibilityPending;
           |t.requests| == m + 1 && r == Described(p, state, LiveReason(state), r.currentStop, r.currentTarget, None, None, None, None, None)
         else PairTrace(p, r, t, m + 1)
  }

  /** What recovery asked, and so what it reports: the reduction, if one was planned; then the replacement stop,
      the replacement target, and what became of the current pair, each only once the one before is proven. */
  ghost predicate RecoveryTrace(p: ValidatedRevision, r: RevisionResult, t: Trail) {
    && (if p.reductionQuantity.Some? then AskedFill(t.answers, t.since, |t.requests|, ReductionKey(p), r.reduction) else r.reduction.None?)
    && if p.reductionQuantity.Some? && r.reduction.None? then r == Recovered(p, ReductionVisibilityPending, None, None, None, None, None)
       else
         && AskedAlgo(t.answers, t.since, |t.requests|, NextKey(p, StopMarket), r.replacementStop)
         && if r.replacementStop.None? then r == Recovered(p, ReplacementStopPending, r.reduction, None, None, None, None)
            else
              && AskedAlgo(t.answers, t.since, |t.requests|, NextKey(p, TakeProfitMarket), r.replacementTarget)
              && if r.replacementTarget.None? then r == Recovered(p, ReplacementTargetPending, r.reduction, r.replacementStop, None, None, None)
                 else RetiredTrace(p, r, t)
  }

  ghost predicate RetiredTrace(p: ValidatedRevision, r: RevisionResult, t: Trail) {
    && r.currentTargetCleanup.Some? && r.currentStopCleanup.Some?
    && Inspected(t.answers, t.since, |t.requests|, p.current.targetId, r.currentTargetCleanup.value)
    && Inspected(t.answers, t.since, |t.requests|, p.current.stopId, r.currentStopCleanup.value)
    && r == Recovered(p, if CleanupComplete(r.currentTargetCleanup.value) && CleanupComplete(r.currentStopCleanup.value) then RevisionProtected
                         else RevisionProtectedCleanupPending,
                      r.reduction, r.replacementStop, r.replacementTarget, r.currentTargetCleanup, r.currentStopCleanup)
  }

  function Recovered(p: ValidatedRevision, state: RevisionOutcome, reduction: Option<OrdinaryEvidence>, stop: Option<AlgoEvidence>,
                     target: Option<AlgoEvidence>, targetCleanup: Option<Cleanup>, stopCleanup: Option<Cleanup>): RevisionResult {
    Described(p, state, RestartReason(state), None, None, reduction, stop, target, targetCleanup, stopCleanup)
  }

  lemma {:induction false} NextPlacedLasts(p: ValidatedRevision, t: Trail, u: Trail, m: nat)
    requires t.requests <= u.requests && t.answers <= u.answers && u.since <= t.since
    ensures forall a, e :: NextPlaced(p, a, e, t, m) ==> NextPlaced(p, a, e, u, m)
  {
    hide AlgoTrace, FillTrace;
    TraceLasts(t, u, m);
  }

  lemma {:induction false} PairTraceLasts(p: ValidatedRevision, r: RevisionResult, t: Trail, since: nat, m: nat)
    requires PairTrace(p, r, t, m) && since <= t.since
    ensures PairTrace(p, r, Since(t, since), m)
  {
    hide AlgoTrace, FillTrace, Reported, AskedAlgo, AskedFill, ResolvedFill, Inspected, CancelledAs;
    NextPlacedLasts(p, t, Since(t, since), m);
    NextPlacedLasts(p, t, Since(t, since), m + 1);
    AskedLasts(t.answers, t.answers, since, t.since, m + 3);
    AskedLasts(t.answers, t.answers, since, t.since, m + 4);
  }

  lemma {:induction false} CurrentAskedLasts(p: ValidatedRevision, t: Trail, u: Trail, m: nat)
    requires t.answers <= u.answers && u.since <= t.since
    ensures forall stop, target :: CurrentAsked(p, stop, target, t, m) ==> CurrentAsked(p, stop, target, u, m)
  {
    hide AskedAlgo, AskedFill, ResolvedFill, Inspected, CancelledAs;
    AskedLasts(t.answers, u.answers, u.since, t.since, m);
  }

  lemma {:induction false} DescribedFields(p: ValidatedRevision, state: RevisionOutcome,
                     currentStop: Option<AlgoEvidence>, currentTarget: Option<AlgoEvidence>, reduction: Option<OrdinaryEvidence>,
                     stop: Option<AlgoEvidence>, target: Option<AlgoEvidence>, targetCleanup: Option<Cleanup>, stopCleanup: Option<Cleanup>)
    ensures var r := Described(p, state, LiveReason(state), currentStop, currentTarget, reduction, stop, target, targetCleanup, stopCleanup);
      && r.state == state && r.currentStop == currentStop && r.currentTarget == currentTarget && r.reduction == reduction
      && r.replacementStop == stop && r.replacementTarget == target && r.currentTargetCleanup == targetCleanup && r.currentStopCleanup == stopCleanup
  {
    hide LiveReason;
  }

  lemma {:induction false} RecoveredFields(p: ValidatedRevision, state: RevisionOutcome, reduction: Option<OrdinaryEvidence>, stop: Option<AlgoEvidence>,
                     target: Option<AlgoEvidence>, targetCleanup: Option<Cleanup>, stopCleanup: Option<Cleanup>)
    ensures var r := Recovered(p, state, reduction, stop, target, targetCleanup, stopCleanup);
      && r == Described(p, state, RestartReason(state), None, None, reduction, stop, target, targetCleanup, stopCleanup)
      && r.state == state && r.reduction == reduction && r.replacementStop == stop && r.replacementTarget == target
      && r.currentTargetCleanup == targetCleanup && r.currentStopCleanup == stopCleanup
  {
    hide RestartReason;
  }

  /** How the trace of a pair is made up. */
  lemma {:induction false} StopPendingTrace(p: ValidatedRevision, r: RevisionResult, t: Trail, m: nat)
    requires |t.requests| == m + 1 && NextPlaced(p, StopMarket, None, t, m)
    requires r.replacementStop.None? && r.replacementTarget.None?
    requires r == Described(p, ReplacementStopPending, LiveReason(ReplacementStopPending), r.currentStop, r.currentTarget, r.reduction, None, None, None, None)
    ensures PairTrace(p, r, t, m)
  {
    hide NextPlaced, LiveReason, Cancelled;
  }

  lemma {:induction false} TargetPendingTrace(p: ValidatedRevision, r: RevisionResult, t: Trail, m: nat)
    requires |t.requests| == m + 2 && r.replacementStop.Some? && r.replacementTarget.None?
    requires NextPlaced(p, StopMarket, r.replacementStop, t, m) && NextPlaced(p, TakeProfitMarket, None, t, m + 1)
    requires r == Described(p, ReplacementTargetPending, LiveReason(ReplacementTargetPending), r.currentStop, r.currentTarget, r.reduction,
                            r.replacementStop, None, None, None)
    ensures PairTrace(p, r, t, m)
  {
    hide NextPlaced, LiveReason, Cancelled;
  }

  lemma {:induction false} DoneTrace(p: ValidatedRevision, r: RevisionResult, first: Trail, t: Trail, m: nat)
    requires |first.requests| == m + 2 && r.replacementStop.Some? && r.replacementTarget.Some?
    requires NextPlaced(p, StopMarket, r.replacementStop, first, m) && NextPlaced(p, TakeProfitMarket, r.replacementTarget, first, m + 1)
    requires first.requests <= t.requests && first.answers <= t.answers && first.since <= t.since
    requires r.currentTargetCleanup.Some? && r.currentStopCleanup.Some?
    requires Cancelled(p, r.currentTargetCleanup.value, r.currentStopCleanup.value, t, m + 2)
    requires var state := if CleanupComplete(r.currentTargetCleanup.value) && CleanupComplete(r.currentStopCleanup.value) then RevisionProtected
                          else RevisionProtectedCleanupPending;
      r == Described(p, state, LiveReason(state), r.currentStop, r.currentTarget, r.reduction, r.replacementStop, r.replacementTarget,
                     r.currentTargetCleanup, r.currentStopCleanup)
    ensures PairTrace(p, r, Since(t, first.since), m)
  {
    hide NextPlaced, LiveReason, CleanupComplete, CancelledAs, AskedAlgo, AskedFill, ResolvedFill, Inspected;
    NextPlacedLasts(p, first, Since(t, first.since), m);
    NextPlacedLasts(p, first, Since(t, first.since), m + 1);
    AskedLasts(t.answers, t.answers, first.since, t.since, m + 3);
    AskedLasts(t.answers, t.answers, first.since, t.since, m + 4);
  }

  /** And that of a revision. */
  lemma {:induction false} UnstartedTrace(p: ValidatedRevision, r: RevisionResult, t: Trail, m: nat)
    requires |t.requests| == m && CurrentAsked(p, r.currentStop, r.currentTarget, t, m) && (r.currentStop.None? || r.currentTarget.None?)
    requires r == Described(p, CurrentProtectionNotProven, LiveReason(CurrentProtectionNotProven), r.currentStop, r.currentTarget, None, None, None, None, None)
    ensures RevisionTrace(p, r, t, m)
  {
    hide CurrentAsked, LiveReason;
  }

  lemma {:induction false} UnreducedTrace(p: ValidatedRevision, refused: bool, r: RevisionResult, t: Trail, m: nat)
    requires p.reductionQuantity.Some? && r.reduction.None?
    requires |t.requests| == m + 1 && FillTrace(t, m, ReductionOrder(p), ReductionKey(p), refused, None)
    requires var state := if refused then ReductionRejected else ReductionVisibilityPending;
      r == Described(p, state, LiveReason(state), r.currentStop, r.currentTarget, None, None, None, None, None)
    ensures StartedTrace(p, r, t, m)
  {
    hide LiveReason, FillTrace;
    FillTraceIs(t, m, ReductionOrder(p), ReductionKey(p), refused, None);
  }

  lemma {:induction false} WholeTrace(p: ValidatedRevision, r: RevisionResult, t: Trail, m: nat)
    requires p.reductionQuantity.None? && r.reduction.None? && PairTrace(p, r, t, m)
    ensures StartedTrace(p, r, t, m)
  {
    hide PairTrace;
  }

  lemma {:induction false} ReducedTrace(p: ValidatedRevision, refused: bool, r: RevisionResult, reduced: Trail, t: Trail, m: nat)
    requires p.reductionQuantity.Some? && r.reduction.Some? && |reduced.requests| == m + 1
    requires FillTrace(reduced, m, ReductionOrder(p), ReductionKey(p), refused, r.reduction)
    requires PairTrace(p, r, t, m + 1)
    requires reduced.answers <= t.answers && reduced.since <= t.since && reduced.requests <= t.requests
    ensures StartedTrace(p, r, Since(t, reduced.since), m)
  {
    hide LiveReason, PairTrace, FillTrace;
    FillTraceIs(reduced, m, ReductionOrder(p), ReductionKey(p), refused, r.reduction);
    TraceLasts(reduced, Since(t, reduced.since), m);
    PairTraceLasts(p, r, t, reduced.since, m + 1);
  }

  lemma {:induction false} BegunTrace(p: ValidatedRevision, r: RevisionResult, asked: Trail, t: Trail, m: nat)
    requires |asked.requests| == m && CurrentAsked(p, r.currentStop, r.currentTarget, asked, m) && r.currentStop.Some? && r.currentTarget.Some?
    requires StartedTrace(p, r, t, m) && asked.answers <= t.answers && asked.since <= t.since
    ensures RevisionTrace(p, r, Since(t, asked.since), m)
  {
    hide CurrentAsked, LiveReason, PairTrace, FillTrace;
    CurrentAskedLasts(p, asked, Since(t, asked.since), m);
    if p.reductionQuantity.None? { PairTraceLasts(p, r, t, asked.since, m); }
    else {
      TraceLasts(t, Since(t, asked.since), m);
      if r.reduction.Some? { PairTraceLasts(p, r, t, asked.since, m + 1); }
    }
  }

  lemma {:induction false} ReductionWentOut(p: ValidatedRevision, t: Trail, m: nat, history: seq<Venue.State>)
    requires p.reductionQuantity.Some? && FillTrace(t, m, ReductionOrder(p), ReductionKey(p), false, None) && SentAll(history, t.requests)
    ensures WentOut(history, ReductionOrder(p))
  {
    hide WentOut, ResolvedFill;
  }

  // ---------------------------------------------------------------- the coordinator

  class RevisionCoordinator {
    const client: Client

    constructor (client: Client)
      ensures this.client == client
    {
      this.client := client;
    }

    /** `lookupProtection`; the ghost parameters carry along what is known of the venue. */
    method LookupProtection(p: ValidatedRevision, t: AlgoType, id: string, quantity: string, trigger: string,
                            ghost w: Watch, ghost stage: Stage) returns (e: Option<AlgoEvidence>)
      requires client.Valid() && client.mood == w.mood && At(w, client.history, stage) && IsPlain(quantity) && IsPlain(trigger)
      modifies client
      ensures client.Valid() && At(w, client.history, stage) && Quiet(client.mood, old(client.history), client.history)
      ensures client.requests == old(client.requests) && old(client.answers) <= client.answers
      ensures AskedAlgo(client.answers, |old(client.answers)|, |client.requests|, AlgoKey(id, p.current.symbol, ExitSide(p.current.direction), t, quantity, trigger), e)
      ensures client.prompt ==> client.venue == old(client.venue)
      ensures e.Some? ==> AlgoProofMatches(e, p.current.symbol, ExitSide(p.current.direction), t, id, quantity, trigger)
      ensures client.answering && ActiveAlgo(client.venue, id, p.current.symbol, ExitSide(p.current.direction), t, Amount(quantity), Amount(trigger)) ==> e.Some?
      ensures client.truthful && e.Some? ==>
        ActiveAlgo(client.venue, id, p.current.symbol, ExitSide(p.current.direction), t, Amount(quantity), Amount(trigger))
    {
      hide IsPlain, At, Quiet, ActiveAlgo, AlgoProofMatches, Amount, AskedAlgo;
      e := LookupAlgo(client, p.current.symbol, ExitSide(p.current.direction), t, id, quantity, trigger);
      Waits(w, old(client.history), client.history, stage);
    }

    /** The reduce-only market order, and its proof when it can be had. */
    method PlaceReduction(p: ValidatedRevision, ghost w: Watch) returns (rejected: bool, e: Option<OrdinaryEvidence>)
      requires client.Valid() && client.mood == w.mood && At(w, client.history, Started) && w.plan == p && IsPlan(p) && p.reductionQuantity.Some?
      modifies client
      ensures client.Valid() && At(w, client.history, Started)
      ensures rejected ==> e.None?
      ensures e.Some? ==>
        OrdinaryFillMatches(e, p.current.symbol, ExitSide(p.current.direction), p.ids.reduction, true, p.reductionQuantity.value)
      ensures client.truthful && e.Some? ==> Holds(client.venue, ReductionFact(p))
      ensures |client.requests| == |old(client.requests)| + 1 && old(client.requests) <= client.requests && old(client.answers) <= client.answers
      ensures FillTrace(Trail(client.requests, client.answers, |old(client.answers)|), |old(client.requests)|, ReductionOrder(p), ReductionKey(p), rejected, e)
      ensures rejected ==> Quiet(client.mood, old(client.history), client.history)
      ensures client.prompt ==> client.venue == AfterReduction(old(client.venue), p) && !rejected
      ensures client.prompt && client.answering && ReductionShows(client.venue, p) ==> e.Some?
    {
      hide IsPlan, IsPlain, At, Quiet, Holds, OrdinaryFillMatches, OrderTruthful, FilledOrder, Amount, ReductionValue, Landed, ResolvedFill;
      PlanNumbers(p);
      var order := ReductionOrder(p);
      var submission := client.PlaceOrder(order);
      Sends(w, old(client.history), client.history, order, submission.disposition.Rejected?, Started);
      rejected, e := submission.disposition.Rejected?, None;
      if !rejected {
        ghost var h := client.history;
        e := ResolveFill(client, submission, p.current.symbol, ExitSide(p.current.direction), p.ids.reduction, p.reductionQuantity.value);
        Waits(w, h, client.history, Started);
        if client.truthful && e.Some? { FillIsFact(client.venue, p); }
      }
    }

    /** A replacement order, and its proof when it can be had. */
    method PlaceReplacement(p: ValidatedRevision, t: AlgoType, ghost w: Watch, ghost stage: Stage) returns (e: Option<AlgoEvidence>)
      requires client.Valid() && client.mood == w.mood && At(w, client.history, stage) && w.plan == p && IsPlan(p)
      modifies client
      ensures client.Valid() && At(w, client.history, stage)
      ensures e.Some? ==> AlgoProofMatches(e, p.current.symbol, ExitSide(p.current.direction), t, NextId(p, t), p.remainingQuantity, NextPrice(p, t))
      ensures client.truthful && e.Some? ==> NextShown(client.venue, p, t)
      ensures |client.requests| == |old(client.requests)| + 1 && old(client.requests) <= client.requests && old(client.answers) <= client.answers
      ensures NextPlaced(p, t, e, Trail(client.requests, client.answers, |old(client.answers)|), |old(client.requests)|)
      ensures client.prompt ==> client.venue == Landed(old(client.venue), ReplacementOrder(p, t))
      ensures client.prompt && client.answering && NextShown(client.venue, p, t) ==> e.Some?
    {
      hide IsPlan, IsPlain, At, Quiet, Sent, ActiveAlgo, AlgoProofMatches, Amount, Landed, AskedAlgo;
      PlanTexts(p);
      var order := ReplacementOrder(p, t);
      var submission := client.PlaceAlgo(order);
      Sends(w, old(client.history), client.history, order, submission.Rejected?, stage);
      e := None;
      if !submission.Rejected? {
        e := LookupProtection(p, t, NextId(p, t), p.remainingQuantity, NextPrice(p, t), w, stage);
      }
    }

    method Retire(id: string, ghost w: Watch, ghost stage: Stage) returns (c: Cleanup)
      requires client.Valid() && client.mood == w.mood && At(w, client.history, stage) && IsPlan(w.plan)
      requires id == w.plan.current.targetId || (id == w.plan.current.stopId && stage.Retiring?)
      modifies client
      ensures client.Valid() && At(w, client.history, stage)
      ensures CleanupComplete(c) <==> c.disposition.Canceled?
      ensures Submitted(old(client.requests), client.requests, CancelAlgo(id)) && old(client.answers) <= client.answers
      ensures CancelledAs(client.answers, |old(client.answers)|, |client.requests|, id, c)
      ensures client.truthful && c.disposition.Canceled? ==> CanceledAlgo(client.venue, id)
      ensures client.prompt ==> client.venue == Landed(old(client.venue), CancelAlgo(id))
      ensures client.answering && CanceledAlgo(client.venue, id) ==> c.disposition.Canceled?
    {
      hide IsPlan, At, SentEither, CanceledAlgo, Landed, CancelledAs;
      c := CancelOwnedAlgo(client, id);
      Cancels(w, old(client.history), client.history, id, stage);
    }

    /** The replacement stop, and once it is proven the replacement target. */
    method PlacePair(p: ValidatedRevision, ghost w: Watch) returns (stop: Option<AlgoEvidence>, target: Option<AlgoEvidence>)
      requires client.Valid() && client.mood == w.mood && At(w, client.history, Reduced) && w.plan == p && IsPlan(p)
      requires w.safe || w.calm ==> client.truthful
      modifies client
      ensures client.Valid() && At(w, client.history, if stop.None? then Reduced else if target.None? then StopProven else PairProven)
      ensures stop.None? ==> target.None?
      ensures |client.requests| == |old(client.requests)| + (if stop.None? then 1 else 2) && old(client.requests) <= client.requests
      ensures old(client.answers) <= client.answers
      ensures NextPlaced(p, StopMarket, stop, Trail(client.requests, client.answers, |old(client.answers)|), |old(client.requests)|)
      ensures stop.Some? ==> NextPlaced(p, TakeProfitMarket, target, Trail(client.requests, client.answers, |old(client.answers)|), |old(client.requests)| + 1)
      ensures stop.Some? ==> AlgoProofMatches(stop, p.current.symbol, ExitSide(p.current.direction), StopMarket, p.ids.stop, p.remainingQuantity, p.nextStopPrice)
      ensures target.Some? ==>
        AlgoProofMatches(target, p.current.symbol, ExitSide(p.current.direction), TakeProfitMarket, p.ids.target, p.remainingQuantity, p.nextTargetPrice)
      ensures client.prompt && client.answering && PairShows(old(client.venue), p) ==> target.Some? && client.venue == BothLanded(old(client.venue), p)
    {
      hide IsPlan, At, ActiveAlgo, AlgoProofMatches, Amount, Landed, NextPlaced;
      target := None;
      stop := PlaceReplacement(p, StopMarket, w, Reduced);
      if stop.None? { return; }
      ghost var t := Trail(client.requests, client.answers, |old(client.answers)|);
      ToStopProven(w, client.history);
      target := PlaceReplacement(p, TakeProfitMarket, w, StopProven);
      NextPlacedLasts(p, t, Trail(client.requests, client.answers, |old(client.answers)|), |old(client.requests)|);
      NextPlacedLasts(p, Trail(client.requests, client.answers, |t.answers|), Trail(client.requests, client.answers, |old(client.answers)|), |t.requests|);
      if target.Some? { ToPairProven(w, client.history); }
    }

    /** Cancels the current target, then the current stop. */
    method RetireCurrent(p: ValidatedRevision, ghost w: Watch) returns (target: Cleanup, stop: Cleanup)
      requires client.Valid() && client.mood == w.mood && At(w, client.history, PairProven) && w.plan == p && IsPlan(p)
      requires w.calm ==> client.truthful
      modifies client
      ensures client.Valid() && At(w, client.history, Retired(target.disposition.Canceled?, stop.disposition.Canceled?))
      ensures (CleanupComplete(target) <==> target.disposition.Canceled?) && (CleanupComplete(stop) <==> stop.disposition.Canceled?)
      ensures old(client.requests) <= client.requests && old(client.answers) <= client.answers
      ensures Cancelled(p, target, stop, Trail(client.requests, client.answers, |old(client.answers)|), |old(client.requests)|)
      ensures client.prompt && client.answering && CancelsShow(old(client.venue), p) ==>
        target.disposition.Canceled? && stop.disposition.Canceled? && client.venue == BothCancelled(old(client.venue), p)
    {
      hide IsPlan, At, CanceledAlgo, Landed, CancelledAs, AskedAlgo, AskedFill, ResolvedFill, Inspected;
      target := Retire(p.current.targetId, w, PairProven);
      ghost var a, n := client.answers, |client.requests|;
      ToRetiring(w, client.history, target.disposition.Canceled?);
      stop := Retire(p.current.stopId, w, Retiring(target.disposition.Canceled?));
      AskedLasts(a, client.answers, |old(client.answers)|, |old(client.answers)|, n);
      AskedLasts(client.answers, client.answers, |old(client.answers)|, |a|, |client.requests|);
      ToRetired(w, client.history, target.disposition.Canceled?, stop.disposition.Canceled?);
    }

    /** The proofs a revision asks for first. */
    method ProveCurrent(p: ValidatedRevision, ghost w: Watch) returns (stop: Option<AlgoEvidence>, target: Option<AlgoEvidence>)
      requires client.Valid() && client.mood == w.mood && At(w, client.history, Started) && w.plan == p && IsPlan(p)
      modifies client
      ensures client.Valid() && At(w, client.history, Started) && Quiet(client.mood, old(client.history), client.history)
      ensures client.requests == old(client.requests) && old(client.answers) <= client.answers
      ensures CurrentAsked(p, stop, target, Trail(client.requests, client.answers, |old(client.answers)|), |old(client.requests)|)
      ensures client.truthful && client.answering && client.mood.Frozen? ==>
        (stop.Some? && target.Some? <==> CurrentPairActive(old(client.venue), p))
      ensures client.prompt ==> client.venue == old(client.venue)
      ensures client.prompt && client.answering && CurrentPairActive(old(client.venue), p) ==> stop.Some? && target.Some?
    {
      hide IsPlan, IsPlain, At, Quiet, ActiveAlgo, AlgoProofMatches, Amount, AskedAlgo, AskedFill, ResolvedFill, Inspected, CancelledAs;
      PlanTexts(p);
      stop := LookupProtection(p, StopMarket, p.current.stopId, p.current.quantity, p.current.stopPrice, w, Started);
      ghost var h, a := client.history, client.answers;
      target := LookupProtection(p, TakeProfitMarket, p.current.targetId, p.current.quantity, p.current.targetPrice, w, Started);
      AskedLasts(a, client.answers, |old(client.answers)|, |old(client.answers)|, |client.requests|);
      AskedLasts(client.answers, client.answers, |old(client.answers)|, |a|, |client.requests|);
      QuietTwice(client.mood, old(client.history), h, client.history);
      if client.mood.Frozen? {
        FrozenStays(old(client.history), h);
        FrozenStays(h, client.history);
      }
    }

    /** The end of `revise`, with both replacements proven. */
    method RetireAndReport(p: ValidatedRevision, currentStop: Option<AlgoEvidence>, currentTarget: Option<AlgoEvidence>,
                           reduction: Option<OrdinaryEvidence>, stop: Option<AlgoEvidence>, target: Option<AlgoEvidence>, ghost w: Watch)
        returns (r: RevisionResult)
      requires client.Valid() && client.mood == w.mood && At(w, client.history, PairProven) && w.plan == p && IsPlan(p)
      requires w.calm ==> client.truthful
      requires currentStop.Some? && currentTarget.Some? && (p.reductionQuantity.Some? ==> reduction.Some?)
      requires p.reductionQuantity.Some? ==>
        OrdinaryFillMatches(reduction, p.current.symbol, ExitSide(p.current.direction), p.ids.reduction, true, p.reductionQuantity.value)
      requires stop.Some? && AlgoProofMatches(stop, p.current.symbol, ExitSide(p.current.direction), StopMarket, p.ids.stop, p.remainingQuantity, p.nextStopPrice)
      requires target.Some?
        && AlgoProofMatches(target, p.current.symbol, ExitSide(p.current.direction), TakeProfitMarket, p.ids.target, p.remainingQuantity, p.nextTargetPrice)
      modifies client
      ensures client.Valid() && w.past <= client.history
      ensures Supports(p, r) && Explains(p, r, true) && IsDone(r.state)
      ensures old(client.requests) <= client.requests && old(client.answers) <= client.answers
      ensures r.currentStop == currentStop && r.currentTarget == currentTarget && r.reduction == reduction
      ensures r.replacementStop == stop && r.replacementTarget == target && r.currentTargetCleanup.Some? && r.currentStopCleanup.Some?
      ensures Cancelled(p, r.currentTargetCleanup.value, r.currentStopCleanup.value, Trail(client.requests, client.answers, |old(client.answers)|), |old(client.requests)|)
      ensures var state := if CleanupComplete(r.currentTargetCleanup.value) && CleanupComplete(r.currentStopCleanup.value) then RevisionProtected
                           else RevisionProtectedCleanupPending;
        r == Described(p, state, LiveReason(state), currentStop, currentTarget, reduction, stop, target, r.currentTargetCleanup, r.currentStopCleanup)
      ensures w.safe ==> EndsCovered(client.venue, p, r.state) && CoveredThroughout(w.past, client.history, p)
      ensures w.calm && r.state.RevisionProtected? ==> RevisionComplete(client.venue, p)
      ensures client.prompt && client.answering && CancelsShow(old(client.venue), p) ==>
        r.state.RevisionProtected? && client.venue == BothCancelled(old(client.venue), p)
    {
      hide ExitSide, CleanupComplete, Described, IsPlan, At, EndsCovered, AlgoProofMatches, OrdinaryFillMatches, CancelsShow, BothCancelled, Cancelled,
        Explains, RevisionComplete, LiveReason, Supports, CoveredThroughout, SentAll;
      var targetCleanup, stopCleanup := RetireCurrent(p, w);
      var complete := CleanupComplete(targetCleanup) && CleanupComplete(stopCleanup);
      var state := if complete then RevisionProtected else RevisionProtectedCleanupPending;
      r := Described(p, state, LiveReason(state), currentStop, currentTarget, reduction, stop, target, Some(targetCleanup), Some(stopCleanup));
      DescribedSupports(p, state, true, currentStop, currentTarget, reduction, stop, target, Some(targetCleanup), Some(stopCleanup));
      DescribedFields(p, state, currentStop, currentTarget, reduction, stop, target, Some(targetCleanup), Some(stopCleanup));
      Finishes(w, client.history, targetCleanup.disposition.Canceled?, stopCleanup.disposition.Canceled?, state);
    }

    /** What `revise` does once the reduction, if any, is proven. */
    method ReplacePair(p: ValidatedRevision, currentStop: Option<AlgoEvidence>, currentTarget: Option<AlgoEvidence>,
                       reduction: Option<OrdinaryEvidence>, ghost w: Watch) returns (r: RevisionResult)
      requires client.Valid() && client.mood == w.mood && At(w, client.history, Reduced) && w.plan == p && IsPlan(p)
      requires w.safe || w.calm ==> client.truthful
      requires currentStop.Some? && currentTarget.Some?
      requires p.reductionQuantity.Some? ==>
        OrdinaryFillMatches(reduction, p.current.symbol, ExitSide(p.current.direction), p.ids.reduction, true, p.reductionQuantity.value)
      modifies client
      ensures client.Valid() && w.past <= client.history
      ensures Supports(p, r) && Explains(p, r, true) && !r.state.CurrentProtectionNotProven?
      ensures old(client.requests) <= client.requests && old(client.answers) <= client.answers
      ensures PairTrace(p, r, Trail(client.requests, client.answers, |old(client.answers)|), |old(client.requests)|)
      ensures r.currentStop == currentStop && r.currentTarget == currentTarget && r.reduction == reduction
      ensures !r.state.ReductionRejected? && !r.state.ReductionVisibilityPending?
      ensures w.safe ==> EndsCovered(client.venue, p, r.state) && CoveredThroughout(w.past, client.history, p)
      ensures w.calm && r.state.RevisionProtected? ==> RevisionComplete(client.venue, p)
      ensures client.prompt && client.answering && PairShows(old(client.venue), p) && CancelsShow(BothLanded(old(client.venue), p), p) ==>
        r.state.RevisionProtected? && client.venue == BothCancelled(BothLanded(old(client.venue), p), p)
    {
      hide ExitSide, CleanupComplete, Described, StageFacts, StopGuards, IsPlan, IsPlain, Holds, At, Covered, EndsCovered, AlgoProofMatches,
        PairShows, CancelsShow, BothLanded, BothCancelled, NextPlaced, Cancelled, PairTrace,
        Explains, RevisionComplete, LiveReason, Supports, RevisionProof, CoveredThroughout;
      assert p.reductionQuantity.Some? ==> reduction.Some?;
      var replacementStop, replacementTarget := PlacePair(p, w);
      ghost var first := Trail(client.requests, client.answers, |old(client.answers)|);
      if replacementStop.None? {
        r := Described(p, ReplacementStopPending, LiveReason(ReplacementStopPending), currentStop, currentTarget, reduction, None, None, None, None);
        DescribedSupports(p, ReplacementStopPending, true, currentStop, currentTarget, reduction, None, None, None, None);
        DescribedFields(p, ReplacementStopPending, currentStop, currentTarget, reduction, None, None, None, None);
        StopPendingTrace(p, r, first, |old(client.requests)|);
        Stops(w, client.history, Reduced, ReplacementStopPending);
        return;
      }
      if replacementTarget.None? {
        r := Described(p, ReplacementTargetPending, LiveReason(ReplacementTargetPending), currentStop, currentTarget, reduction, replacementStop, None, None, None);
        DescribedSupports(p, ReplacementTargetPending, true, currentStop, currentTarget, reduction, replacementStop, None, None, None);
        DescribedFields(p, ReplacementTargetPending, currentStop, currentTarget, reduction, replacementStop, None, None, None);
        TargetPendingTrace(p, r, first, |old(client.requests)|);
        Stops(w, client.history, StopProven, ReplacementTargetPending);
        return;
      }
      r := RetireAndReport(p, currentStop, currentTarget, reduction, replacementStop, replacementTarget, w);
      DoneTrace(p, r, first, Trail(client.requests, client.answers, |first.answers|), |old(client.requests)|);
    }

    /** What `revise` does once the current pair is proven: the reduction, if one is planned, and then the pair. */
    method ReduceAndReplace(p: ValidatedRevision, currentStop: Option<AlgoEvidence>, currentTarget: Option<AlgoEvidence>, ghost w: Watch)
        returns (r: RevisionResult)
      requires client.Valid() && client.mood == w.mood && At(w, client.history, Started) && w.plan == p && IsPlan(p)
      requires w.safe || w.calm ==> client.truthful
      requires currentStop.Some? && currentTarget.Some?
      modifies client
      ensures client.Valid() && w.past <= client.history
      ensures Supports(p, r) && Explains(p, r, true) && !r.state.CurrentProtectionNotProven?
      ensures r.currentStop == currentStop && r.currentTarget == currentTarget
      ensures old(client.requests) <= client.requests && old(client.answers) <= client.answers
      ensures StartedTrace(p, r, Trail(client.requests, client.answers, |old(client.answers)|), |old(client.requests)|)
      ensures r.state.ReductionRejected? ==> Quiet(client.mood, old(client.history), client.history)
      ensures r.state.ReductionVisibilityPending? ==> p.reductionQuantity.Some? && WentOut(client.history, ReductionOrder(p))
      ensures w.safe ==> EndsCovered(client.venue, p, r.state) && CoveredThroughout(w.past, client.history, p)
      ensures w.calm && r.state.RevisionProtected? ==> RevisionComplete(client.venue, p)
      ensures client.prompt && client.answering && Executable(old(client.venue), p) ==>
        r.state.RevisionProtected? && client.venue == Revised(old(client.venue), p)
    {
      hide ExitSide, CleanupComplete, Described, StageFacts, StopGuards, IsPlan, IsPlain, Holds, At, Covered, EndsCovered,
        ActiveAlgo, CanceledAlgo, AlgoProofMatches, OrdinaryFillMatches, FilledOrder, Landed,
        Executable, Revised, AfterReduction, ReductionShows, PairShows, CancelsShow, BothLanded, BothCancelled,
        CurrentPairActive, Explains, RevisionComplete, LiveReason, Supports, RevisionProof, Amount, CoveredThroughout, ReductionFact,
        FillTrace, PairTrace, StartedTrace, Quiet, AskedAlgo, WentOut;
      if Executable(client.venue, p) { PromptRuns(client.venue, p); }
      if p.reductionQuantity.None? {
        ToReduced(w, client.history);
        r := ReplacePair(p, currentStop, currentTarget, None, w);
        WholeTrace(p, r, Trail(client.requests, client.answers, |old(client.answers)|), |old(client.requests)|);
        return;
      }
      var rejected, reduction := PlaceReduction(p, w);
      ghost var reduced := Trail(client.requests, client.answers, |old(client.answers)|);
      if reduction.None? {
        var state := if rejected then ReductionRejected else ReductionVisibilityPending;
        r := Described(p, state, LiveReason(state), currentStop, currentTarget, None, None, None, None, None);
        DescribedSupports(p, state, true, currentStop, currentTarget, None, None, None, None, None);
        DescribedFields(p, state, currentStop, currentTarget, None, None, None, None, None);
        UnreducedTrace(p, rejected, r, reduced, |old(client.requests)|);
        if !rejected { ReductionWentOut(p, reduced, |old(client.requests)|, client.history); }
        Stops(w, client.history, Started, state);
        return;
      }
      ToReduced(w, client.history);
      r := ReplacePair(p, currentStop, currentTarget, reduction, w);
      ReducedTrace(p, rejected, r, reduced, Trail(client.requests, client.answers, |reduced.answers|), |old(client.requests)|);
    }

    /** `revise`. */
    method Revise(p: ValidatedRevision) returns (r: RevisionResult)
      requires client.Valid() && IsPlan(p)
      modifies client
      ensures client.Valid() && old(client.history) <= client.history
      ensures Supports(p, r) && Explains(p, r, true)
      // what was sent, in order, and what the report goes by
      ensures old(client.requests) <= client.requests && old(client.answers) <= client.answers
      ensures RevisionTrace(p, r, Trail(client.requests, client.answers, |old(client.answers)|), |old(client.requests)|)
      // a reduction that was refused changed nothing; one that is only not proven went out
      ensures r.state.ReductionRejected? ==> Quiet(client.mood, old(client.history), client.history)
      ensures r.state.ReductionVisibilityPending? ==> p.reductionQuantity.Some? && WentOut(client.history, ReductionOrder(p))
      ensures client.truthful && client.answering && client.mood.Frozen? ==>
        (r.state.CurrentProtectionNotProven? <==> !CurrentPairActive(old(client.venue), p))
      ensures client.truthful && StartsCovered(old(client.venue), p) ==>
        EndsCovered(client.venue, p, r.state) && CoveredThroughout(old(client.history), client.history, p)
      ensures client.truthful && !client.mood.Wild? && Unspent(old(client.venue), p) && r.state.RevisionProtected? ==>
        RevisionComplete(client.venue, p)
      ensures client.prompt && client.answering && Executable(old(client.venue), p) ==>
        r.state.RevisionProtected? && client.venue == Revised(old(client.venue), p)
    {
      hide ExitSide, CleanupComplete, Described, StageFacts, StopGuards, IsPlan, IsPlain, Holds, At, Covered, EndsCovered, StartsCovered,
        Unspent, ActiveAlgo, CanceledAlgo, AlgoProofMatches, OrdinaryFillMatches, FilledOrder, Landed,
        Executable, Revised, CurrentPairActive, Explains, RevisionComplete, LiveReason, Supports, RevisionProof, Amount, CoveredThroughout, ReductionFact,
        AfterReduction, ReductionShows, PairShows, CancelsShow, BothLanded, BothCancelled, ReductionOrder, FillTrace, StartedTrace, CurrentAsked, RevisionTrace, Quiet, AskedAlgo, WentOut, SentAll;
      ghost var safe := client.truthful && StartsCovered(client.venue, p);
      ghost var calm := client.truthful && !client.mood.Wild? && Unspent(client.venue, p);
      ghost var w := Watch(client.mood, client.history, p, safe, calm);
      BeginsAt(w, client.history);
      ghost var v := client.venue;
      if Executable(v, p) { PromptRuns(v, p); }

      var currentStop, currentTarget := ProveCurrent(p, w);
      ghost var h, asked := client.history, Trail(client.requests, client.answers, |old(client.answers)|);
      if currentStop.None? || currentTarget.None? {
        r := Described(p, CurrentProtectionNotProven, LiveReason(CurrentProtectionNotProven), currentStop, currentTarget, None, None, None, None, None);
        DescribedSupports(p, CurrentProtectionNotProven, true, currentStop, currentTarget, None, None, None, None, None);
        DescribedFields(p, CurrentProtectionNotProven, currentStop, currentTarget, None, None, None, None, None);
        UnstartedTrace(p, r, asked, |old(client.requests)|);
        Stops(w, client.history, Started, CurrentProtectionNotProven);
        return;
      }
      r := ReduceAndReplace(p, currentStop, currentTarget, w);
      if r.state.ReductionRejected? { QuietTwice(client.mood, old(client.history), h, client.history); }
      BegunTrace(p, r, asked, Trail(client.requests, client.answers, |asked.answers|), |old(client.requests)|);
    }

    /** `reconcile`'s lookup of the reduction, when one is planned. */
    method RecoverReduction(p: ValidatedRevision) returns (e: Option<OrdinaryEvidence>)
      requires client.Valid() && IsPlan(p)
      modifies client
      ensures client.Valid() && Quiet(client.mood, old(client.history), client.history)
      ensures client.requests == old(client.requests) && old(client.answers) <= client.answers
      ensures if p.reductionQuantity.Some? then AskedFill(client.answers, |old(client.answers)|, |client.requests|, ReductionKey(p), e) else e.None?
      ensures e.Some? && p.reductionQuantity.Some? ==>
        OrdinaryFillMatches(e, p.current.symbol, ExitSide(p.current.direction), p.ids.reduction, true, p.reductionQuantity.value)
      ensures client.truthful && RecoversAt(old(client.venue), p, false, false) && (p.reductionQuantity.Some? ==> e.Some?) ==>
        RecoversAt(client.venue, p, true, false)
      ensures client.answering && !client.mood.Wild? && RevisionComplete(old(client.venue), p) ==>
        RevisionComplete(client.venue, p) && (p.reductionQuantity.Some? ==> e.Some?)
    {
      hide IsPlan, IsPlain, RecoversAt, RevisionComplete, FilledOrder, OrdinaryFillMatches, Amount, ActiveAlgo, CanceledAlgo, AskedFill, SentAll, FillFound;
      e := None;
      if p.reductionQuantity.Some? {
        PlanNumbers(p);
        e := LookupFill(client, p.current.symbol, ExitSide(p.current.direction), p.ids.reduction, p.reductionQuantity.value);
      }
      RecoveryWaits(client.mood, old(client.history), client.history, p, false, false);
      if RevisionComplete(client.venue, p) { CompleteReads(client.venue, p); }
      if client.truthful && RecoversAt(client.venue, p, false, false) && (p.reductionQuantity.Some? ==> e.Some?) { RecoveredReduction(client.venue, p); }
    }

    /** `reconcile`'s lookups of the replacement pair. */
    method RecoverPair(p: ValidatedRevision) returns (stop: Option<AlgoEvidence>, target: Option<AlgoEvidence>)
      requires client.Valid() && IsPlan(p)
      modifies client
      ensures client.Valid() && Quiet(client.mood, old(client.history), client.history)
      ensures stop.None? ==> target.None?
      ensures client.requests == old(client.requests) && old(client.answers) <= client.answers
      ensures AskedAlgo(client.answers, |old(client.answers)|, |client.requests|, NextKey(p, StopMarket), stop)
      ensures stop.Some? ==> AskedAlgo(client.answers, |old(client.answers)|, |client.requests|, NextKey(p, TakeProfitMarket), target)
      ensures stop.Some? ==> AlgoProofMatches(stop, p.current.symbol, ExitSide(p.current.direction), StopMarket, p.ids.stop, p.remainingQuantity, p.nextStopPrice)
      ensures target.Some? ==>
        AlgoProofMatches(target, p.current.symbol, ExitSide(p.current.direction), TakeProfitMarket, p.ids.target, p.remainingQuantity, p.nextTargetPrice)
      ensures client.truthful && RecoversAt(old(client.venue), p, true, false) && stop.Some? ==> RecoversAt(client.venue, p, true, true)
      ensures client.answering && !client.mood.Wild? && RevisionComplete(old(client.venue), p) ==>
        RevisionComplete(client.venue, p) && stop.Some? && target.Some?
    {
      hide IsPlan, IsPlain, RecoversAt, RevisionComplete, FilledOrder, Amount, ActiveAlgo, CanceledAlgo, AlgoProofMatches, EnvPath, AskedAlgo, SentAll;
      PlanTexts(p);
      target := None;
      stop := LookupAlgo(client, p.current.symbol, ExitSide(p.current.direction), StopMarket, p.ids.stop, p.remainingQuantity, p.nextStopPrice);
      RecoveryWaits(client.mood, old(client.history), client.history, p, true, false);
      if RevisionComplete(client.venue, p) { CompleteReads(client.venue, p); }
      if stop.None? { return; }
      if client.truthful && RecoversAt(client.venue, p, true, false) { RecoveredStop(client.venue, p); }
      ghost var h, a := client.history, client.answers;
      target := LookupAlgo(client, p.current.symbol, ExitSide(p.current.direction), TakeProfitMarket, p.ids.target, p.remainingQuantity, p.nextTargetPrice);
      AskedTogether(old(client.answers), a, client.answers, |client.requests|);
      RecoveryWaits(client.mood, h, client.history, p, true, true);
      QuietTwice(client.mood, old(client.history), h, client.history);
      if RevisionComplete(client.venue, p) { CompleteReads(client.venue, p); }
    }

    /** `reconcile`'s inspection of the retired pair. */
    method InspectRetired(p: ValidatedRevision) returns (target: Cleanup, stop: Cleanup)
      requires client.Valid()
      modifies client
      ensures client.Valid() && Quiet(client.mood, old(client.history), client.history)
      ensures client.requests == old(client.requests) && old(client.answers) <= client.answers
      ensures Inspected(client.answers, |old(client.answers)|, |client.requests|, p.current.targetId, target)
      ensures Inspected(client.answers, |old(client.answers)|, |client.requests|, p.current.stopId, stop)
      ensures RecoversAt(old(client.venue), p, true, true) ==> RecoversAt(client.venue, p, true, true)
      ensures client.answering && !client.mood.Wild? && RevisionComplete(old(client.venue), p) ==>
        target.disposition.Canceled? && stop.disposition.Canceled?
    {
      hide RecoversAt, RevisionComplete, FilledOrder, ActiveAlgo, CanceledAlgo, EnvPath, Inspected, SentAll;
      target := InspectAlgoCleanup(client, p.current.targetId);
      RecoveryWaits(client.mood, old(client.history), client.history, p, true, true);
      if RevisionComplete(client.venue, p) { CompleteReads(client.venue, p); }
      ghost var h, a := client.history, client.answers;
      stop := InspectAlgoCleanup(client, p.current.stopId);
      AskedTogether(old(client.answers), a, client.answers, |client.requests|);
      RecoveryWaits(client.mood, h, client.history, p, true, true);
      QuietTwice(client.mood, old(client.history), h, client.history);
      if RevisionComplete(client.venue, p) { CompleteReads(client.venue, p); }
    }

    /** `reconcile`: queries only. Its claim to a proven pair is true of the venue, and it reaches that claim
        whenever a finished live revision left the venue so. */
    method Reconcile(p: ValidatedRevision) returns (r: RevisionResult)
      requires client.Valid() && IsPlan(p)
      modifies client
      ensures client.Valid() && Quiet(client.mood, old(client.history), client.history)
      ensures Supports(p, r) && Explains(p, r, false)
      // nothing is sent, and what is reported is what the answers prove
      ensures client.requests == old(client.requests) && old(client.answers) <= client.answers
      ensures RecoveryTrace(p, r, Trail(client.requests, client.answers, |old(client.answers)|))
      ensures client.truthful && Recoverable(old(client.venue), p) && IsDone(r.state) ==> Holds(client.venue, NextCover(p))
      ensures client.answering && !client.mood.Wild? && RevisionComplete(old(client.venue), p) ==> r.state.RevisionProtected?
    {
      hide ExitSide, Described, IsPlan, IsPlain, Holds, RecoversAt, RevisionComplete, AlgoProofMatches, OrdinaryFillMatches, Explains, Supports,
        RestartReason, NextCover, EnvPath, AskedFill, AskedAlgo, Inspected, SentAll;
      var reduction := RecoverReduction(p);
      if p.reductionQuantity.Some? && reduction.None? {
        r := Described(p, ReductionVisibilityPending, RestartReason(ReductionVisibilityPending), None, None, None, None, None, None, None);
        DescribedSupports(p, ReductionVisibilityPending, false, None, None, None, None, None, None, None);
        RecoveredFields(p, ReductionVisibilityPending, None, None, None, None, None);
        return;
      }
      ghost var h, a := client.history, client.answers;
      var stop, target := RecoverPair(p);
      AskedTogether(old(client.answers), a, client.answers, |client.requests|);
      QuietTwice(client.mood, old(client.history), h, client.history);
      if stop.None? {
        r := Described(p, ReplacementStopPending, RestartReason(ReplacementStopPending), None, None, reduction, None, None, None, None);
        DescribedSupports(p, ReplacementStopPending, false, None, None, reduction, None, None, None, None);
        RecoveredFields(p, ReplacementStopPending, reduction, None, None, None, None);
        return;
      }
      if target.None? {
        r := Described(p, ReplacementTargetPending, RestartReason(ReplacementTargetPending), None, None, reduction, stop, None, None, None);
        DescribedSupports(p, ReplacementTargetPending, false, None, None, reduction, stop, None, None, None);
        RecoveredFields(p, ReplacementTargetPending, reduction, stop, None, None, None);
        return;
      }
      h, a := client.history, client.answers;
      var targetCleanup, stopCleanup := InspectRetired(p);
      AskedTogether(old(client.answers), a, client.answers, |client.requests|);
      QuietTwice(client.mood, old(client.history), h, client.history);
      var complete := CleanupComplete(targetCleanup) && CleanupComplete(stopCleanup);
      var state := if complete then RevisionProtected else RevisionProtectedCleanupPending;
      r := Described(p, state, RestartReason(state), None, None, reduction, stop, target, Some(targetCleanup), Some(stopCleanup));
      DescribedSupports(p, state, false, None, None, reduction, stop, target, Some(targetCleanup), Some(stopCleanup));
      RecoveredFields(p, state, reduction, stop, target, Some(targetCleanup), Some(stopCleanup));
      if RecoversAt(client.venue, p, true, true) { RecoveredCover(client.venue, p); }
    }
  }
}
