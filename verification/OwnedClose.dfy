/** Closing an owned position: one reduce-only order for all of it, and no cancel before that fill is proven. */
module OwnedClose {
  import opened Wrappers
  import opened DecimalText
  import opened MutationContract
  import opened Evidence
  import opened Venue
  import opened ProtectionGuard
  import opened Lookups
  import opened OwnedState

  // ---------------------------------------------------------------- results

  /** The reason a live close gives for its outcome; a rejected order is told apart from an unproven one. */
  function LiveCloseReason(o: CloseOutcome, rejected: bool): string {
    match o
    case OwnedProtectionNotProven => "exact_current_stop_and_target_required_before_close"
    case CloseVisibilityPending =>
      if rejected then "reduce_only_close_rejected_requires_position_reconciliation" else "reduce_only_close_requires_position_reconciliation"
    case ClosedCleanupPending => "reduce_only_close_proven_current_cleanup_pending"
    case Closed => "reduce_only_close_and_current_cleanup_proven"
  }

  function RestartCloseReason(o: CloseOutcome): string {
    match o
    case CloseVisibilityPending => "restart_reduce_only_close_not_proven"
    case ClosedCleanupPending => "restart_close_proven_current_cleanup_pending"
    case _ => "restart_close_and_current_cleanup_proven"
  }

  lemma {:induction false} LiveCloseReasonIsGiven(o: CloseOutcome, rejected: bool)
    ensures LiveCloseReason(o, rejected) != ""
  {}

  lemma {:induction false} RestartCloseReasonIsGiven(o: CloseOutcome)
    ensures RestartCloseReason(o) != ""
  {}

  /** `ownedCloseResult`. */
  function Described(p: ValidatedClose, state: CloseOutcome, reason: string,
                     currentStop: Option<AlgoEvidence>, currentTarget: Option<AlgoEvidence>, close: Option<OrdinaryEvidence>,
                     targetCleanup: Option<Cleanup>, stopCleanup: Option<Cleanup>): CloseResult {
    CloseResult(p.closeIntentId, p.current.positionIntentId, state, reason, p.current, p.closeId,
                currentStop, currentTarget, close, targetCleanup, stopCleanup)
  }

  predicate IsClosePlan(p: ValidatedClose) { ValidateClose(CloseRequestOf(p)) == Some(p) }

  lemma {:induction false} PlanTexts(p: ValidatedClose)
    requires IsClosePlan(p)
    ensures IsPlain(p.current.quantity) && IsPlain(p.current.stopPrice) && IsPlain(p.current.targetPrice)
    ensures p.current.stopId != p.current.targetId
  {
    hide IsPlain, Value, CanonicalPositive, IsClientId, CanonicalUuid, CanonicalSymbol;
    OwnedIsCanonical(p.current);
    OwnedQuantities(p.current);
  }

  predicate IsClosed(o: CloseOutcome) { o.Closed? || o.ClosedCleanupPending? }

  /** What a result promises to the durable record. */
  predicate Supports(p: ValidatedClose, r: CloseResult) {
    CloseResultIdentifies(p, r) && (IsClosed(r.state) ==> CloseProof(p, r))
  }

  /** The outcome says exactly which proof is the first one missing; recovery does not look at the current pair. */
  predicate Accounts(state: CloseOutcome, live: bool,
                     currentStop: Option<AlgoEvidence>, currentTarget: Option<AlgoEvidence>, close: Option<OrdinaryEvidence>,
                     targetCleanup: Option<Cleanup>, stopCleanup: Option<Cleanup>) {
    var started := live ==> currentStop.Some? && currentTarget.Some?;
    var cleaned := CleanupIsComplete(targetCleanup) && CleanupIsComplete(stopCleanup);
    match state
    case OwnedProtectionNotProven => !started
    case CloseVisibilityPending => started && close.None?
    case ClosedCleanupPending => started && close.Some? && !cleaned
    case Closed => started && close.Some? && cleaned
  }

  predicate Explains(r: CloseResult, live: bool) {
    Accounts(r.state, live, r.currentStop, r.currentTarget, r.close, r.currentTargetCleanup, r.currentStopCleanup)
  }

  lemma {:induction false} DescribedSupports(p: ValidatedClose, state: CloseOutcome, live: bool, rejected: bool,
                     currentStop: Option<AlgoEvidence>, currentTarget: Option<AlgoEvidence>, close: Option<OrdinaryEvidence>,
                     targetCleanup: Option<Cleanup>, stopCleanup: Option<Cleanup>)
    requires close.Some? ==> OrdinaryFillMatches(close, p.current.symbol, ExitSide(p.current.direction), p.closeId, true, p.current.quantity)
    requires Accounts(state, live, currentStop, currentTarget, close, targetCleanup, stopCleanup)
    ensures var reason := if live then LiveCloseReason(state, rejected) else RestartCloseReason(state);
      var r := Described(p, state, reason, currentStop, currentTarget, close, targetCleanup, stopCleanup);
      && r.state == state && Supports(p, r) && Explains(r, live) && r.currentStop == currentStop && r.currentTarget == currentTarget
      && r.close == close && r.currentTargetCleanup == targetCleanup && r.currentStopCleanup == stopCleanup
  {
    hide LiveCloseReason, RestartCloseReason, OrdinaryFillMatches;
    LiveCloseReasonIsGiven(state, rejected);
    RestartCloseReasonIsGiven(state);
  }

  // ---------------------------------------------------------------- what the venue must show

  ghost function GuardOf(p: ValidatedClose): Guard {
    Guard(p.current.direction, Amount(p.current.quantity), p.closeId)
  }

  ghost function Cover(p: ValidatedClose): Fact { IsCovered(GuardOf(p), p.current.stopId, Amount(p.current.quantity)) }

  ghost function Flat(p: ValidatedClose): Fact { IsFlat(GuardOf(p)) }

  ghost function CloseFill(p: ValidatedClose): Fact {
    HasFilled(p.closeId, p.current.symbol, ExitSide(p.current.direction), true, Amount(p.current.quantity), true)
  }

  /** The owned stop covers the whole position and nobody is cancelling the target. */
  ghost predicate StartsOwned(v: Venue.State, p: ValidatedClose) {
    Holds(v, Cover(p)) && CancelAlgo(p.current.targetId) !in v.inflight
  }

  /** No owned order is being cancelled, and the stop covers the position, unless the position is gone. */
  ghost predicate Kept(v: Venue.State, p: ValidatedClose) {
    || Holds(v, Flat(p))
    || (Holds(v, Cover(p)) && CancelAlgo(p.current.stopId) !in v.inflight && CancelAlgo(p.current.targetId) !in v.inflight)
  }

  /** A kept position is flat or has its own working stop at least its size. */
  lemma {:induction false} KeptIsProtected(v: Venue.State, p: ValidatedClose)
    requires Kept(v, p)
    ensures Protected(v, p.current.direction, {p.current.stopId})
  {
    hide Contained, Covers;
    if Holds(v, Cover(p)) { CoversProtects(v, p.current.direction, p.current.stopId, Amount(p.current.quantity), {p.current.stopId}); }
  }

  /** In every state passed through since then. */
  ghost predicate KeptThroughout(past: seq<Venue.State>, h: seq<Venue.State>, p: ValidatedClose) {
    past != [] && past <= h && forall k :: |past| - 1 <= k < |h| ==> Kept(h[k], p)
  }

  ghost function CompleteFacts(p: ValidatedClose): set<Fact> {
    {CloseFill(p), HasCanceled(p.current.targetId), HasCanceled(p.current.stopId)}
  }

  /** Everything a finished close leaves at the venue. */
  ghost predicate CloseComplete(v: Venue.State, p: ValidatedClose) { AllHold(v, CompleteFacts(p)) }

  // ---------------------------------------------------------------- what closing may rely on

  datatype Stage = Owned | Sold(targetGone: bool, stopGone: bool)

  /** A close under observation since a past history, with or without the premises of its promises. */
  datatype Watch = Watch(mood: Mood, past: seq<Venue.State>, plan: ValidatedClose, safe: bool, truthful: bool)

  ghost function StageFacts(w: Watch, stage: Stage): set<Fact> {
    var p := w.plan;
    match stage
    case Owned => if w.safe then {Cover(p), NotCancelling(p.current.targetId)} else {}
    case Sold(t, s) =>
      (if w.safe then {Flat(p)} else {}) + (if w.truthful then {CloseFill(p)} else {})
      + (if w.truthful && t then {HasCanceled(p.current.targetId)} else {}) + (if w.truthful && s then {HasCanceled(p.current.stopId)} else {})
  }

  ghost function StopGuard(p: ValidatedClose): set<Fact> { {Cover(p), Flat(p)} }

  ghost function TargetGuard(p: ValidatedClose): set<Fact> { {NotCancelling(p.current.targetId), Flat(p)} }

  ghost function Guards(w: Watch): set<set<Fact>> {
    if w.safe then {StopGuard(w.plan), TargetGuard(w.plan)} else {}
  }

  ghost predicate At(w: Watch, h: seq<Venue.State>, stage: Stage) {
    w.past != [] && w.past <= h && Known(w.mood, h, |w.past| - 1, StageFacts(w, stage), Guards(w))
  }

  lemma {:induction false} BeginsAt(w: Watch, h: seq<Venue.State>)
    requires h != [] && w.past == h
    requires w.safe ==> StartsOwned(h[|h| - 1], w.plan)
    ensures At(w, h, Owned)
  {
    hide Contained, Covers, IsPlain, Value;
    var p := w.plan;
    if w.safe {
      var facts := StageFacts(w, Owned);
      assert Cover(p) in facts && Cover(p) in StopGuard(p);
      assert NotCancelling(p.current.targetId) in facts && NotCancelling(p.current.targetId) in TargetGuard(p);
      assert Relied(facts, StopGuard(p)) && Relied(facts, TargetGuard(p));
      assert Holds(h[|h| - 1], Cover(p)) && Holds(h[|h| - 1], NotCancelling(p.current.targetId));
      assert Secure(h[|h| - 1], StopGuard(p)) && Secure(h[|h| - 1], TargetGuard(p));
    }
  }

  lemma {:induction false} Waits(w: Watch, past: seq<Venue.State>, h: seq<Venue.State>, stage: Stage)
    requires At(w, past, stage) && Quiet(w.mood, past, h)
    ensures At(w, h, stage)
  {
    hide Known, Quiet;
    Waited(w.mood, past, h, |w.past| - 1, StageFacts(w, stage), Guards(w));
  }

  lemma {:induction false} Sends(w: Watch, past: seq<Venue.State>, h: seq<Venue.State>, r: Request, rejected: bool)
    requires At(w, past, Owned) && Sent(w.mood, past, h, r, rejected) && r.PostOrder? && r.reduceOnly
    ensures At(w, h, Owned)
  {
    hide Known, Sent;
    Requested(w.mood, past, h, r, rejected, |w.past| - 1, StageFacts(w, Owned), Guards(w));
  }

  /** Cancels are sent only once the close is proven. */
  lemma {:induction false} Cancels(w: Watch, past: seq<Venue.State>, h: seq<Venue.State>, id: string, stage: Stage)
    requires At(w, past, stage) && SentEither(w.mood, past, h, CancelAlgo(id)) && stage.Sold?
    ensures At(w, h, stage)
  {
    hide Known, SentEither;
    MaybeRequested(w.mood, past, h, CancelAlgo(id), |w.past| - 1, StageFacts(w, stage), Guards(w));
  }

  /** A proven close empties the position. */
  lemma {:induction false} ToSold(w: Watch, h: seq<Venue.State>)
    requires At(w, h, Owned)
    requires w.safe || w.truthful ==>
      FilledOrder(h[|h| - 1], w.plan.closeId, w.plan.current.symbol, ExitSide(w.plan.current.direction), true, Amount(w.plan.current.quantity), true)
    ensures At(w, h, Sold(false, false))
  {
    hide Known, Contained, Covers, FilledOrder, Amount, Guards;
    var p, from := w.plan, |w.past| - 1;
    var owned := StageFacts(w, Owned);
    var v := LastOf(w, h, Owned);
    var more := StageFacts(w, Sold(false, false));
    if w.safe {
      LastHolds(w, h, Owned, Cover(p));
      FullFillIsFlat(v, GuardOf(p), p.current.symbol);
      Learned(w.mood, h, from, owned, Guards(w), Flat(p));
    }
    var sold := owned + (if w.safe then {Flat(p)} else {});
    assert !w.safe ==> sold == owned;
    if w.truthful { Learned(w.mood, h, from, sold, Guards(w), CloseFill(p)); }
    SoldSuffices(w);
    assert !w.truthful ==> sold + (if w.truthful then {CloseFill(p)} else {}) == sold;
    Dropped(w.mood, h, from, sold + (if w.truthful then {CloseFill(p)} else {}), Guards(w), more);
  }

  lemma {:induction false} SoldSuffices(w: Watch)
    ensures var more := StageFacts(w, Sold(false, false)); forall g :: g in Guards(w) ==> Relied(more, g)
  {
    if w.safe {
      assert Flat(w.plan) in StageFacts(w, Sold(false, false)) && Flat(w.plan) in StopGuard(w.plan) && Flat(w.plan) in TargetGuard(w.plan);
    }
  }

  ghost function LastOf(w: Watch, h: seq<Venue.State>, stage: Stage): Venue.State
    requires At(w, h, stage)
  {
    h[|h| - 1]
  }

  lemma {:induction false} LastHolds(w: Watch, h: seq<Venue.State>, stage: Stage, f: Fact)
    requires At(w, h, stage) && f in StageFacts(w, stage)
    ensures Holds(LastOf(w, h, stage), f)
  {
    hide Holds, StageFacts;
  }

  lemma {:induction false} ToGone(w: Watch, h: seq<Venue.State>, from: Stage, to: Stage, gone: bool, id: string)
    requires At(w, h, from) && from.Sold? && to.Sold?
    requires (id == w.plan.current.targetId && from == Sold(false, false) && to == Sold(gone, false))
      || (id == w.plan.current.stopId && !from.stopGone && to == Sold(from.targetGone, gone))
    requires w.truthful && gone ==> CanceledAlgo(LastOf(w, h, from), id)
    ensures At(w, h, to)
  {
    hide Known, Flat, CloseFill, CanceledAlgo, Guards;
    if w.truthful && gone { LearnedCancel(w.mood, h, |w.past| - 1, StageFacts(w, from), Guards(w), id); }
    assert StageFacts(w, to) == StageFacts(w, from) + (if w.truthful && gone then {HasCanceled(id)} else {});
    assert !(w.truthful && gone) ==> StageFacts(w, to) == StageFacts(w, from);
  }

  /** A guarded history, in the terms of the contract. */
  lemma {:induction false} EndsAt(w: Watch, h: seq<Venue.State>, stage: Stage)
    requires At(w, h, stage)
    ensures w.past <= h
    ensures w.safe ==> KeptThroughout(w.past, h, w.plan) && Holds(LastOf(w, h, stage), if stage.Sold? then Flat(w.plan) else Cover(w.plan))
    ensures w.truthful && stage == Sold(true, true) ==> CloseComplete(LastOf(w, h, stage), w.plan)
  {
    hide Contained, Covers, FilledOrder, CanceledAlgo;
    if w.safe {
      forall k | |w.past| - 1 <= k < |h|
        ensures Kept(h[k], w.plan)
      {
        assert StopGuard(w.plan) in Guards(w) && TargetGuard(w.plan) in Guards(w);
        assert Secure(h[k], StopGuard(w.plan)) && Secure(h[k], TargetGuard(w.plan));
        SecureIsKept(h[k], w.plan);
      }
      LastHolds(w, h, stage, if stage.Sold? then Flat(w.plan) else Cover(w.plan));
    }
    if w.truthful && stage == Sold(true, true) { assert CompleteFacts(w.plan) <= StageFacts(w, stage); }
  }

  lemma {:induction false} SecureIsKept(v: Venue.State, p: ValidatedClose)
    requires Secure(v, StopGuard(p)) && Secure(v, TargetGuard(p))
    ensures Kept(v, p)
  {
    hide Contained;
    var f :| f in StopGuard(p) && Holds(v, f);
    var g :| g in TargetGuard(p) && Holds(v, g);
  }

  // ---------------------------------------------------------------- what recovery may rely on

  /** What a complete close shows to the lookups of recovery, now and later. */
  lemma {:induction false} CompleteStays(mood: Mood, past: seq<Venue.State>, h: seq<Venue.State>, p: ValidatedClose)
    requires Quiet(mood, past, h)
    ensures h != []
    ensures CloseComplete(past[|past| - 1], p) ==> CloseComplete(h[|h| - 1], p)
  {
    hide AllHold, EnvPath, CompleteFacts;
    if CloseComplete(past[|past| - 1], p) {
      assert forall f :: f in CompleteFacts(p) ==> Lasting(mood, f) by { CompleteLasts(mood, p); }
      QuietKeeps(mood, past, h, CompleteFacts(p));
    }
  }

  lemma {:induction false} CompleteLasts(mood: Mood, p: ValidatedClose)
    ensures forall f :: f in CompleteFacts(p) ==> Lasting(mood, f)
  {}

  lemma {:induction false} CompleteReads(v: Venue.State, p: ValidatedClose)
    requires CloseComplete(v, p)
    ensures FilledOrder(v, p.closeId, p.current.symbol, ExitSide(p.current.direction), true, Amount(p.current.quantity), true)
    ensures CanceledAlgo(v, p.current.targetId) && CanceledAlgo(v, p.current.stopId)
  {
    hide FilledOrder, CanceledAlgo;
    assert Holds(v, CloseFill(p)) && Holds(v, HasCanceled(p.current.targetId)) && Holds(v, HasCanceled(p.current.stopId));
  }

  /** The position is contained: nothing can enlarge it. */
  ghost predicate Bounded(v: Venue.State, p: ValidatedClose) { Contained(v, GuardOf(p)) }

  lemma {:induction false} BoundedStays(mood: Mood, past: seq<Venue.State>, h: seq<Venue.State>, p: ValidatedClose)
    requires Quiet(mood, past, h) && Bounded(past[|past| - 1], p)
    ensures Bounded(h[|h| - 1], p)
  {
    hide Contained, EnvPath;
    assert AllHold(past[|past| - 1], {IsContained(GuardOf(p))});
    QuietKeeps(mood, past, h, {IsContained(GuardOf(p))});
    assert AllHold(h[|h| - 1], {IsContained(GuardOf(p))});
    assert Holds(h[|h| - 1], IsContained(GuardOf(p)));
  }

  lemma {:induction false} KeptIsBounded(v: Venue.State, p: ValidatedClose)
    requires Kept(v, p)
    ensures Bounded(v, p)
  {
    hide Contained, Covers;
  }

  /** While the client only waits, the position stays kept. */
  lemma {:induction false} KeptStays(mood: Mood, past: seq<Venue.State>, h: seq<Venue.State>, p: ValidatedClose)
    requires Quiet(mood, past, h) && Kept(past[|past| - 1], p)
    ensures h != [] && Kept(h[|h| - 1], p)
  {
    hide Contained, Covers, EnvPath;
    var v := past[|past| - 1];
    var facts := if Holds(v, Flat(p)) then {Flat(p)} else {Cover(p), NotCancelling(p.current.stopId), NotCancelling(p.current.targetId)};
    QuietKeeps(mood, past, h, facts);
    assert AllHold(h[|h| - 1], facts);
    if Holds(v, Flat(p)) { assert Holds(h[|h| - 1], Flat(p)); }
    else {
      assert Holds(h[|h| - 1], Cover(p)) && Holds(h[|h| - 1], NotCancelling(p.current.stopId)) && Holds(h[|h| - 1], NotCancelling(p.current.targetId));
    }
  }

  lemma {:induction false} FlatStays(mood: Mood, past: seq<Venue.State>, h: seq<Venue.State>, p: ValidatedClose)
    requires Quiet(mood, past, h) && Holds(past[|past| - 1], Flat(p))
    ensures Exposure(h[|h| - 1], p.current.direction) == 0.0
  {
    hide Contained, EnvPath;
    QuietKeeps(mood, past, h, {Flat(p)});
    assert AllHold(h[|h| - 1], {Flat(p)});
    assert Holds(h[|h| - 1], Flat(p));
  }

  lemma {:induction false} SoldIsFlat(v: Venue.State, p: ValidatedClose)
    requires Bounded(v, p)
    requires FilledOrder(v, p.closeId, p.current.symbol, ExitSide(p.current.direction), true, Amount(p.current.quantity), true)
    ensures Holds(v, Flat(p))
  {
    hide Contained, FilledOrder;
    FullFillIsFlat(v, GuardOf(p), p.current.symbol);
  }

  lemma {:induction false} AtLast(w: Watch, h: seq<Venue.State>, stage: Stage)
    requires At(w, h, stage)
    ensures h != [] && LastOf(w, h, stage) == h[|h| - 1]
  {
    hide Known;
  }

  ghost predicate CurrentPairActive(v: Venue.State, p: ValidatedClose) {
    var c := p.current;
    && ActiveAlgo(v, c.stopId, c.symbol, ExitSide(c.direction), StopMarket, Amount(c.quantity), Amount(c.stopPrice))
    && ActiveAlgo(v, c.targetId, c.symbol, ExitSide(c.direction), TakeProfitMarket, Amount(c.quantity), Amount(c.targetPrice))
  }

  // ---------------------------------------------------------------- on a prompt venue

  function CloseOrder(p: ValidatedClose): Request {
    PostOrder(p.closeId, p.current.symbol, ExitSide(p.current.direction), p.current.quantity, true)
  }

  function BothCancelled(v: Venue.State, p: ValidatedClose): Venue.State {
    Landed(Landed(v, CancelAlgo(p.current.targetId)), CancelAlgo(p.current.stopId))
  }

  /** The venue after each request of a close has landed in turn. */
  function ClosedOut(v: Venue.State, p: ValidatedClose): Venue.State { BothCancelled(Landed(v, CloseOrder(p)), p) }

  /** The owned pair works and the whole position can be sold. */
  ghost predicate Executable(v: Venue.State, p: ValidatedClose) {
    CurrentPairActive(v, p) && Fillable(v, CloseOrder(p), p.current.quantity, "1")
  }

  ghost predicate CloseShows(v: Venue.State, p: ValidatedClose) {
    FilledOrder(v, p.closeId, p.current.symbol, ExitSide(p.current.direction), true, Amount(p.current.quantity), true)
  }

  ghost predicate CancelsShow(v: Venue.State, p: ValidatedClose) {
    CanceledAlgo(Landed(v, CancelAlgo(p.current.targetId)), p.current.targetId) && CanceledAlgo(BothCancelled(v, p), p.current.stopId)
  }

  lemma {:induction false} PromptRuns(v: Venue.State, p: ValidatedClose)
    requires Executable(v, p) && IsClosePlan(p)
    ensures CurrentPairActive(v, p) && CloseShows(Landed(v, CloseOrder(p)), p) && CancelsShow(Landed(v, CloseOrder(p)), p)
    ensures ClosedOut(v, p) == BothCancelled(Landed(v, CloseOrder(p)), p)
  {
    hide IsClosePlan, IsPlain, Value, Landed, Fillable, FilledOrder, CanceledAlgo;
    PlanTexts(p);
    var sold := Landed(v, CloseOrder(p));
    SentIsFilled(v, CloseOrder(p));
    LandingSpares(v, CloseOrder(p), p.current.stopId);
    LandingSpares(v, CloseOrder(p), p.current.targetId);
    CancelledIsGone(sold, p.current.targetId);
    LandingSpares(sold, CancelAlgo(p.current.targetId), p.current.stopId);
    CancelledIsGone(Landed(sold, CancelAlgo(p.current.targetId)), p.current.stopId);
  }

  // ---------------------------------------------------------------- what is sent and asked

  function CurrentKey(p: ValidatedClose, t: AlgoType): AlgoKey {
    var c := p.current;
    if t.StopMarket? then AlgoKey(c.stopId, c.symbol, ExitSide(c.direction), t, c.quantity, c.stopPrice)
    else AlgoKey(c.targetId, c.symbol, ExitSide(c.direction), t, c.quantity, c.targetPrice)
  }

  function CloseKey(p: ValidatedClose): FillKey {
    FillKey(p.closeId, p.current.symbol, ExitSide(p.current.direction), true, Some(p.current.quantity), true)
  }

  /** The current pair was asked for first, before any request. */
  ghost predicate CurrentAsked(p: ValidatedClose, stop: Option<AlgoEvidence>, target: Option<AlgoEvidence>, t: Trail, m: nat) {
    AskedAlgo(t.answers, t.since, m, CurrentKey(p, StopMarket), stop) && AskedAlgo(t.answers, t.since, m, CurrentKey(p, TakeProfitMarket), target)
  }

  ghost predicate ClosePlaced(p: ValidatedClose, refused: bool, e: Option<OrdinaryEvidence>, t: Trail, m: nat) {
    FillTrace(t, m, CloseOrder(p), CloseKey(p), refused, e)
  }

  /** Requests `m` and `m + 1` were the cancels of the target and of the stop, the last of all. */
  ghost predicate Cancelled(p: ValidatedClose, target: Cleanup, stop: Cleanup, t: Trail, m: nat) {
    && |t.requests| == m + 2
    && t.requests[m].request == CancelAlgo(p.current.targetId) && CancelledAs(t.answers, t.since, m + 1, p.current.targetId, target)
    && t.requests[m + 1].request == CancelAlgo(p.current.stopId) && CancelledAs(t.answers, t.since, m + 2, p.current.stopId, stop)
  }

  /** Everything a close sent, in order, what it went by, and so what it reports: nothing without both current
      proofs; then the reduce-only order; and no cancel before its fill is proven. */
  ghost predicate CloseTrace(p: ValidatedClose, r: CloseResult, t: Trail, m: nat) {
    && CurrentAsked(p, r.currentStop, r.currentTarget, t, m)
    && if r.currentStop.None? || r.currentTarget.None? then |t.requests| == m && r == Live(p, OwnedProtectionNotProven, false, r, None, None, None)
       else SellTrace(p, r, t, m)
  }

  ghost predicate SellTrace(p: ValidatedClose, r: CloseResult, t: Trail, m: nat) {
    && m < |t.requests| && ClosePlaced(p, t.requests[m].refused, r.close, t, m)
    && if r.close.None? then |t.requests| == m + 1 && r == Live(p, CloseVisibilityPending, t.requests[m].refused, r, None, None, None)
       else
         && r.currentTargetCleanup.Some? && r.currentStopCleanup.Some?
         && Cancelled(p, r.currentTargetCleanup.value, r.currentStopCleanup.value, t, m + 1)
         && r == Live(p, if CleanupComplete(r.currentTargetCleanup.value) && CleanupComplete(r.currentStopCleanup.value) then Closed
                         else ClosedCleanupPending, false, r, r.close, r.currentTargetCleanup, r.currentStopCleanup)
  }

  function Live(p: ValidatedClose, state: CloseOutcome, rejected: bool, r: CloseResult, close: Option<OrdinaryEvidence>,
                targetCleanup: Option<Cleanup>, stopCleanup: Option<Cleanup>): CloseResult {
    Described(p, state, LiveCloseReason(state, rejected), r.currentStop, r.currentTarget, close, targetCleanup, stopCleanup)
  }

  /** What recovery asked, and so what it reports. */
  ghost predicate RecoveryTrace(p: ValidatedClose, r: CloseResult, t: Trail) {
    && AskedFill(t.answers, t.since, |t.requests|, CloseKey(p), r.close)
    && if r.close.None? then r == Recovered(p, CloseVisibilityPending, None, None, None)
       else
         && r.currentTargetCleanup.Some? && r.currentStopCleanup.Some?
         && Inspected(t.answers, t.since, |t.requests|, p.current.targetId, r.currentTargetCleanup.value)
         && Inspected(t.answers, t.since, |t.requests|, p.current.stopId, r.currentStopCleanup.value)
         && r == Recovered(p, if CleanupComplete(r.currentTargetCleanup.value) && CleanupComplete(r.currentStopCleanup.value) then Closed
                              else ClosedCleanupPending, r.close, r.currentTargetCleanup, r.currentStopCleanup)
  }

  function Recovered(p: ValidatedClose, state: CloseOutcome, close: Option<OrdinaryEvidence>,
                     targetCleanup: Option<Cleanup>, stopCleanup: Option<Cleanup>): CloseResult {
    Described(p, state, RestartCloseReason(state), None, None, close, targetCleanup, stopCleanup)
  }

  lemma {:induction false} CurrentAskedLasts(p: ValidatedClose, t: Trail, u: Trail, m: nat)
    requires t.answers <= u.answers && u.since <= t.since
    ensures forall stop, target :: CurrentAsked(p, stop, target, t, m) ==> CurrentAsked(p, stop, target, u, m)
  {
    hide AskedAlgo, AskedFill, ResolvedFill, Inspected, CancelledAs;
    AskedLasts(t.answers, u.answers, u.since, t.since, m);
  }

  /** How the trace of a close is made up. */
  lemma {:induction false} UnstartedTrace(p: ValidatedClose, r: CloseResult, t: Trail, m: nat)
    requires |t.requests| == m && CurrentAsked(p, r.currentStop, r.currentTarget, t, m) && (r.currentStop.None? || r.currentTarget.None?)
    requires r == Live(p, OwnedProtectionNotProven, false, r, None, None, None)
    ensures CloseTrace(p, r, t, m)
  {
    hide CurrentAsked, LiveCloseReason;
  }

  lemma {:induction false} BegunTrace(p: ValidatedClose, r: CloseResult, asked: Trail, t: Trail, m: nat)
    requires |asked.requests| == m && CurrentAsked(p, r.currentStop, r.currentTarget, asked, m) && r.currentStop.Some? && r.currentTarget.Some?
    requires SellTrace(p, r, t, m) && asked.answers <= t.answers && asked.since <= t.since
    ensures CloseTrace(p, r, Since(t, asked.since), m)
  {
    hide CurrentAsked, Live, FillTrace, CleanupComplete, CancelledAs, AskedAlgo, AskedFill, ResolvedFill, Inspected;
    CurrentAskedLasts(p, asked, Since(t, asked.since), m);
    TraceLasts(t, Since(t, asked.since), m);
    AskedLasts(t.answers, t.answers, asked.since, t.since, m + 2);
    AskedLasts(t.answers, t.answers, asked.since, t.since, m + 3);
  }

  lemma {:induction false} UnsoldTrace(p: ValidatedClose, refused: bool, r: CloseResult, t: Trail, m: nat)
    requires |t.requests| == m + 1 && ClosePlaced(p, refused, None, t, m) && r.close.None?
    requires r == Live(p, CloseVisibilityPending, refused, r, None, None, None)
    ensures SellTrace(p, r, t, m) && t.requests[m].refused == refused
  {
    hide Live, FillTrace;
    FillTraceIs(t, m, CloseOrder(p), CloseKey(p), refused, None);
  }

  lemma {:induction false} SoldTrace(p: ValidatedClose, refused: bool, r: CloseResult, sold: Trail, t: Trail, m: nat)
    requires |sold.requests| == m + 1 && ClosePlaced(p, refused, r.close, sold, m) && r.close.Some?
    requires sold.answers <= t.answers && sold.since <= t.since && sold.requests <= t.requests
    requires r.currentTargetCleanup.Some? && r.currentStopCleanup.Some?
    requires Cancelled(p, r.currentTargetCleanup.value, r.currentStopCleanup.value, t, m + 1)
    requires r == Live(p, if CleanupComplete(r.currentTargetCleanup.value) && CleanupComplete(r.currentStopCleanup.value) then Closed
                          else ClosedCleanupPending, false, r, r.close, r.currentTargetCleanup, r.currentStopCleanup)
    ensures SellTrace(p, r, Since(t, sold.since), m)
  {
    hide Live, FillTrace, CleanupComplete, CancelledAs, AskedAlgo, AskedFill, ResolvedFill, Inspected;
    FillTraceIs(sold, m, CloseOrder(p), CloseKey(p), refused, r.close);
    TraceLasts(sold, Since(t, sold.since), m);
    AskedLasts(t.answers, t.answers, sold.since, t.since, m + 2);
    AskedLasts(t.answers, t.answers, sold.since, t.since, m + 3);
  }

  class OwnedCloseCoordinator {
    const client: Client

    constructor (client: Client)
      ensures this.client == client
    {
      this.client := client;
    }

    /** `lookupOwnedProtection`. */
    method LookupOwned(p: ValidatedClose, t: AlgoType, id: string, trigger: string, ghost w: Watch) returns (e: Option<AlgoEvidence>)
      requires client.Valid() && client.mood == w.mood && At(w, client.history, Owned) && IsPlain(p.current.quantity) && IsPlain(trigger)
      modifies client
      ensures client.Valid() && At(w, client.history, Owned) && Quiet(client.mood, old(client.history), client.history)
      ensures client.requests == old(client.requests) && old(client.answers) <= client.answers
      ensures AskedAlgo(client.answers, |old(client.answers)|, |client.requests|,
                        AlgoKey(id, p.current.symbol, ExitSide(p.current.direction), t, p.current.quantity, trigger), e)
      ensures client.prompt ==> client.venue == old(client.venue)
      ensures client.truthful && e.Some? ==>
        ActiveAlgo(client.venue, id, p.current.symbol, ExitSide(p.current.direction), t, Amount(p.current.quantity), Amount(trigger))
      ensures ActiveAlgo(client.venue, id, p.current.symbol, ExitSide(p.current.direction), t, Amount(p.current.quantity), Amount(trigger)) ==>
        client.answering ==> e.Some?
    {
      hide IsPlain, At, Quiet, ActiveAlgo, AlgoProofMatches, Amount, AskedAlgo;
      e := LookupAlgo(client, p.current.symbol, ExitSide(p.current.direction), t, id, p.current.quantity, trigger);
      Waits(w, old(client.history), client.history, Owned);
    }

    /** The proofs a close asks for first. */
    method ProveCurrent(p: ValidatedClose, ghost w: Watch) returns (stop: Option<AlgoEvidence>, target: Option<AlgoEvidence>)
      requires client.Valid() && client.mood == w.mood && At(w, client.history, Owned) && IsClosePlan(p)
      modifies client
      ensures client.Valid() && At(w, client.history, Owned) && Quiet(client.mood, old(client.history), client.history)
      ensures client.requests == old(client.requests) && old(client.answers) <= client.answers
      ensures CurrentAsked(p, stop, target, Trail(client.requests, client.answers, |old(client.answers)|), |old(client.requests)|)
      ensures client.truthful && client.answering && client.mood.Frozen? ==>
        (stop.Some? && target.Some? <==> CurrentPairActive(old(client.venue), p))
      ensures client.prompt ==> client.venue == old(client.venue)
      ensures client.prompt && client.answering && CurrentPairActive(old(client.venue), p) ==> stop.Some? && target.Some?
    {
      hide IsClosePlan, IsPlain, At, Quiet, ActiveAlgo, AlgoProofMatches, Amount, AskedAlgo, AskedFill, ResolvedFill, Inspected, CancelledAs;
      PlanTexts(p);
      stop := LookupOwned(p, StopMarket, p.current.stopId, p.current.stopPrice, w);
      ghost var h, a := client.history, client.answers;
      target := LookupOwned(p, TakeProfitMarket, p.current.targetId, p.current.targetPrice, w);
      AskedTogether(old(client.answers), a, client.answers, |client.requests|);
      QuietTwice(client.mood, old(client.history), h, client.history);
      if client.mood.Frozen? {
        FrozenStays(old(client.history), h);
        FrozenStays(h, client.history);
      }
    }

    /** The reduce-only close, and its proof when it can be had. */
    method PlaceClose(p: ValidatedClose, ghost w: Watch) returns (rejected: bool, e: Option<OrdinaryEvidence>)
      requires client.Valid() && client.mood == w.mood && At(w, client.history, Owned) && w.plan == p && IsClosePlan(p)
      requires w.safe || w.truthful ==> client.truthful
      modifies client
      ensures client.Valid() && At(w, client.history, if e.Some? then Sold(false, false) else Owned)
      ensures rejected ==> e.None?
      ensures |client.requests| == |old(client.requests)| + 1 && old(client.requests) <= client.requests && old(client.answers) <= client.answers
      ensures ClosePlaced(p, rejected, e, Trail(client.requests, client.answers, |old(client.answers)|), |old(client.requests)|)
      ensures rejected ==> Quiet(client.mood, old(client.history), client.history)
      ensures !rejected ==> WentOut(client.history, CloseOrder(p))
      ensures e.Some? ==> OrdinaryFillMatches(e, p.current.symbol, ExitSide(p.current.direction), p.closeId, true, p.current.quantity)
      ensures client.prompt ==> client.venue == Landed(old(client.venue), CloseOrder(p)) && !rejected
      ensures client.prompt && client.answering && CloseShows(client.venue, p) ==> e.Some?
    {
      hide IsClosePlan, IsPlain, At, Quiet, Sent, OrdinaryFillMatches, OrderTruthful, FilledOrder, Amount, Landed, ResolvedFill, WentOut;
      PlanTexts(p);
      var order := CloseOrder(p);
      var submission := client.PlaceOrder(order);
      Sends(w, old(client.history), client.history, order, submission.disposition.Rejected?);
      rejected, e := submission.disposition.Rejected?, None;
      if !rejected {
        ghost var h := client.history;
        e := ResolveFill(client, submission, p.current.symbol, ExitSide(p.current.direction), p.closeId, p.current.quantity);
        Waits(w, h, client.history, Owned);
        if e.Some? { ToSold(w, client.history); }
      }
    }

    /** Cancels the target, then the stop. */
    method RetireCurrent(p: ValidatedClose, ghost w: Watch) returns (target: Cleanup, stop: Cleanup)
      requires client.Valid() && client.mood == w.mood && At(w, client.history, Sold(false, false)) && w.plan == p
      requires w.truthful ==> client.truthful
      modifies client
      ensures client.Valid() && At(w, client.history, Sold(target.disposition.Canceled?, stop.disposition.Canceled?))
      ensures (CleanupComplete(target) <==> target.disposition.Canceled?) && (CleanupComplete(stop) <==> stop.disposition.Canceled?)
      ensures old(client.requests) <= client.requests && old(client.answers) <= client.answers
      ensures Cancelled(p, target, stop, Trail(client.requests, client.answers, |old(client.answers)|), |old(client.requests)|)
      ensures client.prompt && client.answering && CancelsShow(old(client.venue), p) ==>
        target.disposition.Canceled? && stop.disposition.Canceled? && client.venue == BothCancelled(old(client.venue), p)
    {
      hide At, CanceledAlgo, SentEither, Landed, CancelledAs, AskedAlgo, AskedFill, ResolvedFill, Inspected, SentAll;
      target := CancelOwnedAlgo(client, p.current.targetId);
      Cancels(w, old(client.history), client.history, p.current.targetId, Sold(false, false));
      AtLast(w, client.history, Sold(false, false));
      ToGone(w, client.history, Sold(false, false), Sold(target.disposition.Canceled?, false), target.disposition.Canceled?, p.current.targetId);
      ghost var h, a, n := client.history, client.answers, |client.requests|;
      stop := CancelOwnedAlgo(client, p.current.stopId);
      AskedLasts(a, client.answers, |old(client.answers)|, |old(client.answers)|, n);
      AskedLasts(client.answers, client.answers, |old(client.answers)|, |a|, |client.requests|);
      Cancels(w, h, client.history, p.current.stopId, Sold(target.disposition.Canceled?, false));
      AtLast(w, client.history, Sold(target.disposition.Canceled?, false));
      ToGone(w, client.history, Sold(target.disposition.Canceled?, false), Sold(target.disposition.Canceled?, stop.disposition.Canceled?),
             stop.disposition.Canceled?, p.current.stopId);
    }

    /** What a close does once the current pair is proven: the reduce-only order, and the cancels once it is filled. */
    method SellOwned(p: ValidatedClose, currentStop: Option<AlgoEvidence>, currentTarget: Option<AlgoEvidence>, ghost w: Watch) returns (r: CloseResult)
      requires client.Valid() && client.mood == w.mood && At(w, client.history, Owned) && w.plan == p && IsClosePlan(p)
      requires w.safe || w.truthful ==> client.truthful
      requires currentStop.Some? && currentTarget.Some?
      modifies client
      ensures client.Valid() && w.past <= client.history
      ensures Supports(p, r) && Explains(r, true) && !r.state.OwnedProtectionNotProven?
      ensures r.currentStop == currentStop && r.currentTarget == currentTarget
      ensures old(client.requests) <= client.requests && old(client.answers) <= client.answers
      ensures SellTrace(p, r, Trail(client.requests, client.answers, |old(client.answers)|), |old(client.requests)|)
      ensures r.state.CloseVisibilityPending? ==>
        if client.requests[|old(client.requests)|].refused then Quiet(client.mood, old(client.history), client.history)
        else WentOut(client.history, CloseOrder(p))
      ensures w.safe ==> KeptThroughout(w.past, client.history, p) && Holds(client.venue, if IsClosed(r.state) then Flat(p) else Cover(p))
      ensures w.truthful && r.state.Closed? ==> CloseComplete(client.venue, p)
      ensures client.prompt && client.answering && Executable(old(client.venue), p) ==>
        r.state.Closed? && client.venue == ClosedOut(old(client.venue), p)
    {
      hide ExitSide, CleanupComplete, Described, IsClosePlan, Holds, At, AlgoProofMatches, OrdinaryFillMatches, CurrentPairActive,
        Explains, Supports, LiveCloseReason, KeptThroughout, CloseComplete, Flat, Cover, Executable, CloseShows, CancelsShow,
        ClosedOut, BothCancelled, CloseOrder, Landed, SellTrace, ClosePlaced, Cancelled, WentOut, SentAll, Quiet;
      if Executable(client.venue, p) { PromptRuns(client.venue, p); }
      var rejected, close := PlaceClose(p, w);
      ghost var sold := Trail(client.requests, client.answers, |old(client.answers)|);
      if close.None? {
        r := Described(p, CloseVisibilityPending, LiveCloseReason(CloseVisibilityPending, rejected), currentStop, currentTarget, None, None, None);
        DescribedSupports(p, CloseVisibilityPending, true, rejected, currentStop, currentTarget, None, None, None);
        UnsoldTrace(p, rejected, r, sold, |old(client.requests)|);
        EndsAt(w, client.history, Owned);
        AtLast(w, client.history, Owned);
        return;
      }
      var targetCleanup, stopCleanup := RetireCurrent(p, w);
      var complete := CleanupComplete(targetCleanup) && CleanupComplete(stopCleanup);
      var state := if complete then Closed else ClosedCleanupPending;
      r := Described(p, state, LiveCloseReason(state, false), currentStop, currentTarget, close, Some(targetCleanup), Some(stopCleanup));
      DescribedSupports(p, state, true, false, currentStop, currentTarget, close, Some(targetCleanup), Some(stopCleanup));
      SoldTrace(p, rejected, r, sold, Trail(client.requests, client.answers, |sold.answers|), |old(client.requests)|);
      EndsAt(w, client.history, Sold(targetCleanup.disposition.Canceled?, stopCleanup.disposition.Canceled?));
      AtLast(w, client.history, Sold(targetCleanup.disposition.Canceled?, stopCleanup.disposition.Canceled?));
    }

    /** `closeOwnedProtection`. */
    method CloseOwnedProtection(p: ValidatedClose) returns (r: CloseResult)
      requires client.Valid() && IsClosePlan(p)
      modifies client
      ensures client.Valid() && old(client.history) <= client.history
      ensures Supports(p, r) && Explains(r, true)
      // what was sent, in order, and what the report goes by
      ensures old(client.requests) <= client.requests && old(client.answers) <= client.answers
      ensures CloseTrace(p, r, Trail(client.requests, client.answers, |old(client.answers)|), |old(client.requests)|)
      // a close that is only not proven went out, unless the venue refused it, and then nothing changed
      ensures r.state.CloseVisibilityPending? ==>
        && |old(client.requests)| < |client.requests|
        && if client.requests[|old(client.requests)|].refused then Quiet(client.mood, old(client.history), client.history)
           else WentOut(client.history, CloseOrder(p))
      ensures client.truthful && client.answering && client.mood.Frozen? ==>
        (r.state.OwnedProtectionNotProven? <==> !CurrentPairActive(old(client.venue), p))
      ensures client.truthful && StartsOwned(old(client.venue), p) ==>
        && KeptThroughout(old(client.history), client.history, p)
        && Holds(client.venue, if IsClosed(r.state) then Flat(p) else Cover(p))
      ensures client.truthful && r.state.Closed? ==> CloseComplete(client.venue, p)
      ensures client.prompt && client.answering && Executable(old(client.venue), p) ==>
        r.state.Closed? && client.venue == ClosedOut(old(client.venue), p)
    {
      hide ExitSide, CleanupComplete, Described, IsClosePlan, Holds, At, AlgoProofMatches, OrdinaryFillMatches, CurrentPairActive,
        Explains, Supports, LiveCloseReason, KeptThroughout, CloseComplete, StartsOwned, Flat, Cover, Executable, CloseShows, CancelsShow,
        ClosedOut, BothCancelled, CloseOrder, Landed, CloseTrace, CurrentAsked, ClosePlaced, Cancelled, WentOut, SentAll, Quiet;
      ghost var v := client.venue;
      if Executable(v, p) { PromptRuns(v, p); }
      ghost var w := Watch(client.mood, client.history, p, client.truthful && StartsOwned(client.venue, p), client.truthful);
      BeginsAt(w, client.history);
      var currentStop, currentTarget := ProveCurrent(p, w);
      ghost var h, asked := client.history, Trail(client.requests, client.answers, |old(client.answers)|);
      if currentStop.None? || currentTarget.None? {
        r := Described(p, OwnedProtectionNotProven, LiveCloseReason(OwnedProtectionNotProven, false), currentStop, currentTarget, None, None, None);
        DescribedSupports(p, OwnedProtectionNotProven, true, false, currentStop, currentTarget, None, None, None);
        UnstartedTrace(p, r, asked, |old(client.requests)|);
        EndsAt(w, client.history, Owned);
        AtLast(w, client.history, Owned);
        return;
      }
      r := SellOwned(p, currentStop, currentTarget, w);
      BegunTrace(p, r, asked, Trail(client.requests, client.answers, |asked.answers|), |old(client.requests)|);
      if r.state.CloseVisibilityPending? && client.requests[|old(client.requests)|].refused { QuietTwice(client.mood, old(client.history), h, client.history); }
    }

    /** Recovery's lookup of the close; a fill it finds has emptied the position. */
    method RecoverClose(p: ValidatedClose) returns (close: Option<OrdinaryEvidence>)
      requires client.Valid() && IsClosePlan(p)
      modifies client
      ensures client.Valid() && Quiet(client.mood, old(client.history), client.history)
      ensures client.requests == old(client.requests) && old(client.answers) <= client.answers
      ensures AskedFill(client.answers, |old(client.answers)|, |client.requests|, CloseKey(p), close)
      ensures close.Some? ==> OrdinaryFillMatches(close, p.current.symbol, ExitSide(p.current.direction), p.closeId, true, p.current.quantity)
      ensures client.truthful && Bounded(old(client.venue), p) && close.Some? ==> Holds(client.venue, Flat(p))
      ensures client.answering && CloseComplete(old(client.venue), p) ==> CloseComplete(client.venue, p) && close.Some?
    {
      hide IsClosePlan, IsPlain, OrdinaryFillMatches, FilledOrder, CloseComplete, Amount, Bounded, EnvPath, CanceledAlgo, AskedFill, SentAll, Holds, Flat, FillFound;
      PlanTexts(p);
      close := LookupFill(client, p.current.symbol, ExitSide(p.current.direction), p.closeId, p.current.quantity);
      CompleteStays(client.mood, old(client.history), client.history, p);
      if CloseComplete(client.venue, p) { CompleteReads(client.venue, p); }
      if client.truthful && Bounded(old(client.venue), p) && close.Some? {
        BoundedStays(client.mood, old(client.history), client.history, p);
        SoldIsFlat(client.venue, p);
      }
    }

    method InspectRetired(p: ValidatedClose) returns (target: Cleanup, stop: Cleanup)
      requires client.Valid()
      modifies client
      ensures client.Valid() && Quiet(client.mood, old(client.history), client.history)
      ensures client.requests == old(client.requests) && old(client.answers) <= client.answers
      ensures Inspected(client.answers, |old(client.answers)|, |client.requests|, p.current.targetId, target)
      ensures Inspected(client.answers, |old(client.answers)|, |client.requests|, p.current.stopId, stop)
      ensures Holds(old(client.venue), Flat(p)) ==> Exposure(client.venue, p.current.direction) == 0.0
      ensures client.answering && CloseComplete(old(client.venue), p) ==> target.disposition.Canceled? && stop.disposition.Canceled?
    {
      hide FilledOrder, CloseComplete, CanceledAlgo, EnvPath, Inspected, SentAll, InspectCleanup, Holds;
      target := InspectAlgoCleanup(client, p.current.targetId);
      CompleteStays(client.mood, old(client.history), client.history, p);
      if CloseComplete(client.venue, p) { CompleteReads(client.venue, p); }
      ghost var h, a := client.history, client.answers;
      stop := InspectAlgoCleanup(client, p.current.stopId);
      AskedTogether(old(client.answers), a, client.answers, |client.requests|);
      CompleteStays(client.mood, h, client.history, p);
      if CloseComplete(client.venue, p) { CompleteReads(client.venue, p); }
      QuietTwice(client.mood, old(client.history), h, client.history);
      if Holds(old(client.venue), Flat(p)) { FlatStays(client.mood, old(client.history), client.history, p); }
    }

    /** `reconcileOwnedProtectionClose`: queries only. A close it claims has emptied the position, and it
        reaches that claim whenever a finished live close left the venue so. */
    method ReconcileOwnedProtectionClose(p: ValidatedClose) returns (r: CloseResult)
      requires client.Valid() && IsClosePlan(p)
      modifies client
      ensures client.Valid() && Quiet(client.mood, old(client.history), client.history)
      ensures Supports(p, r) && Explains(r, false)
      // nothing is sent, and what is reported is what the answers prove
      ensures client.requests == old(client.requests) && old(client.answers) <= client.answers
      ensures RecoveryTrace(p, r, Trail(client.requests, client.answers, |old(client.answers)|))
      ensures client.truthful && Bounded(old(client.venue), p) && IsClosed(r.state) ==> Exposure(client.venue, p.current.direction) == 0.0
      ensures client.answering && CloseComplete(old(client.venue), p) ==> r.state.Closed?
    {
      hide ExitSide, Described, IsClosePlan, OrdinaryFillMatches, Explains, Supports, RestartCloseReason, CloseComplete,
        Bounded, EnvPath, AskedFill, AskedAlgo, Inspected, SentAll, Holds, Flat;
      var close := RecoverClose(p);
      if close.None? {
        r := Described(p, CloseVisibilityPending, RestartCloseReason(CloseVisibilityPending), None, None, None, None, None);
        DescribedSupports(p, CloseVisibilityPending, false, false, None, None, None, None, None);
        return;
      }
      ghost var h, a := client.history, client.answers;
      var targetCleanup, stopCleanup := InspectRetired(p);
      AskedTogether(old(client.answers), a, client.answers, |client.requests|);
      QuietTwice(client.mood, old(client.history), h, client.history);
      var complete := CleanupComplete(targetCleanup) && CleanupComplete(stopCleanup);
      var state := if complete then Closed else ClosedCleanupPending;
      r := Described(p, state, RestartCloseReason(state), None, None, close, Some(targetCleanup), Some(stopCleanup));
      DescribedSupports(p, state, false, false, None, None, close, Some(targetCleanup), Some(stopCleanup));
    }
  }
}
