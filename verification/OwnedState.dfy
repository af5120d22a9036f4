/** The durable ownership record: at most one owned position, at most one pending transition, and the
    stage/apply functions that are the only way it changes. A thrown error is a Failure. */
module OwnedState {
  import opened Wrappers
  import opened DecimalText
  import opened MutationContract
  import opened Evidence

  datatype EntryOutcome =
    | RejectedBeforeExposure | EntryVisibilityPending | EmergencyFlattenPending | EmergencyFlattenConfirmed
    | OpenProtectedTargetPending | OpenProtected

  datatype RevisionOutcome =
    | CurrentProtectionNotProven | ReductionRejected | ReductionVisibilityPending | ReplacementStopPending
    | ReplacementTargetPending | RevisionProtectedCleanupPending | RevisionProtected

  datatype CloseOutcome = OwnedProtectionNotProven | CloseVisibilityPending | ClosedCleanupPending | Closed

  datatype EntryResult = EntryResult(
    intentId: string, state: EntryOutcome, reason: string, ids: EntryIds,
    entry: Option<OrdinaryEvidence>, stop: Option<AlgoEvidence>, target: Option<AlgoEvidence>,
    emergencyClose: Option<OrdinaryEvidence>)

  datatype NextProtection = NextProtection(quantity: string, stopPrice: string, targetPrice: string, ids: RevisionIds)

  datatype RevisionResult = RevisionResult(
    revisionIntentId: string, positionIntentId: string, state: RevisionOutcome, reason: string,
    current: OwnedProtection, next: NextProtection,
    currentStop: Option<AlgoEvidence>, currentTarget: Option<AlgoEvidence>, reduction: Option<OrdinaryEvidence>,
    replacementStop: Option<AlgoEvidence>, replacementTarget: Option<AlgoEvidence>,
    currentTargetCleanup: Option<Cleanup>, currentStopCleanup: Option<Cleanup>)

  datatype CloseResult = CloseResult(
    closeIntentId: string, positionIntentId: string, state: CloseOutcome, reason: string,
    current: OwnedProtection, closeId: string,
    currentStop: Option<AlgoEvidence>, currentTarget: Option<AlgoEvidence>, close: Option<OrdinaryEvidence>,
    currentTargetCleanup: Option<Cleanup>, currentStopCleanup: Option<Cleanup>)

  /** Where a pending transition stands: only its intent is durable, or a non-terminal result is too. */
  datatype Progress<S> = IntentPersisted | Resulted(outcome: S)

  datatype Pending =
    | PendingEntry(intentId: string, entryProgress: Progress<EntryOutcome>, reason: string, entry: EntryRequest)
    | PendingRevision(intentId: string, revisionProgress: Progress<RevisionOutcome>, reason: string, revision: RevisionRequest)
    | PendingClose(intentId: string, closeProgress: Progress<CloseOutcome>, reason: string, close: CloseRequest)

  datatype Kind = EntryKind | RevisionKind | CloseKind

  datatype LastTransition = LastTransition(kind: Kind, intentId: string, reason: string)

  datatype State = State(
    sequence: nat, current: Option<OwnedProtection>, pending: Option<Pending>,
    last: Option<LastTransition>, updated: Option<nat>)

  const INITIAL: State := State(0, None, None, None, None)

  // ---------------------------------------------------------------- validation

  /** `canonicalPending`: a terminal result may not be pending. */
  function CanonicalPending(p: Pending): Option<Pending> {
    if p.reason == "" then None
    else match p
      case PendingEntry(id, progress, reason, request) =>
        (match ValidateEntry(request)
         case None => None
         case Some(plan) =>
           if id != plan.intentId then None
           else if progress.Resulted? && progress.outcome !in {EntryVisibilityPending, EmergencyFlattenPending, OpenProtectedTargetPending} then None
           else Some(PendingEntry(id, progress, reason, EntryRequestOf(plan))))
      case PendingRevision(id, progress, reason, request) =>
        (match ValidateRevision(request)
         case None => None
         case Some(plan) =>
           if id != plan.revisionIntentId then None
           else if progress.Resulted? && progress.outcome in {ReductionRejected, RevisionProtected} then None
           else Some(PendingRevision(id, progress, reason, RevisionRequestOf(plan))))
      case PendingClose(id, progress, reason, request) =>
        (match ValidateClose(request)
         case None => None
         case Some(plan) =>
           if id != plan.closeIntentId then None
           else if progress.Resulted? && progress.outcome.Closed? then None
           else Some(PendingClose(id, progress, reason, CloseRequestOf(plan))))
  }

  /** `validateOwnedProtectionState`. */
  function ValidateState(s: State): Option<State> {
    var current := if s.current.None? then None else ValidateOwned(s.current.value);
    var pending := if s.pending.None? then None else CanonicalPending(s.pending.value);
    if s.current.Some? && current.None? then None
    else if s.pending.Some? && pending.None? then None
    else if s.last.Some? && (s.last.value.intentId == "" || s.last.value.reason == "") then None
    else if (s.sequence == 0) != (s.last.None? && s.updated.None?) then None
    else if pending.Some? && pending.value.PendingEntry? && current.Some? then None
    else if pending.Some? && !pending.value.PendingEntry? && current.None? then None
    else Some(s.(current := current, pending := pending))
  }

  /** A canonical state: what the repository stores and returns. */
  predicate IsState(s: State) { ValidateState(s) == Some(s) }

  function NextState(s: State, current: Option<OwnedProtection>, pending: Option<Pending>,
                     kind: Kind, intentId: string, reason: string, now: nat): Result<State, string> {
    match ValidateState(State(s.sequence + 1, current, pending, Some(LastTransition(kind, intentId, reason)), Some(now)))
    case None => Failure("owned-protection state contract is invalid")
    case Some(next) => Success(next)
  }

  /** `assertTransitionAvailable`; canonical JSON equality is structural equality. */
  predicate EntryAvailable(s: State, request: EntryRequest) {
    s.pending.None? || (s.pending.value.PendingEntry? && s.pending.value.entry == request)
  }

  predicate RevisionAvailable(s: State, request: RevisionRequest) {
    s.pending.None? || (s.pending.value.PendingRevision? && s.pending.value.revision == request)
  }

  predicate CloseAvailable(s: State, request: CloseRequest) {
    s.pending.None? || (s.pending.value.PendingClose? && s.pending.value.close == request)
  }

  // ---------------------------------------------------------------- staging

  function StageEntry(state: State, request: EntryRequest, now: nat): Result<State, string> {
    match (ValidateState(state), ValidateEntry(request))
    case (Some(s), Some(plan)) =>
      if s.pending.Some? then
        if EntryAvailable(s, EntryRequestOf(plan)) then Success(s)
        else Failure("owned-protection transition conflicts with pending reconciliation")
      else if s.current.Some? then Failure("protected entry cannot replace an active owned position")
      else NextState(s, None, Some(PendingEntry(plan.intentId, IntentPersisted, "protected_entry_intent_persisted_before_transport", EntryRequestOf(plan))),
                     EntryKind, plan.intentId, "protected_entry_intent_persisted_before_transport", now)
    case _ => Failure("invalid state or request")
  }

  function StageRevision(state: State, request: RevisionRequest, now: nat): Result<State, string> {
    match (ValidateState(state), ValidateRevision(request))
    case (Some(s), Some(plan)) =>
      if s.pending.Some? then
        if RevisionAvailable(s, RevisionRequestOf(plan)) then Success(s)
        else Failure("owned-protection transition conflicts with pending reconciliation")
      else if s.current != Some(plan.current) then Failure("protection revision current pointer does not match durable ownership")
      else NextState(s, Some(plan.current),
                     Some(PendingRevision(plan.revisionIntentId, IntentPersisted, "protection_revision_intent_persisted_before_transport", RevisionRequestOf(plan))),
                     RevisionKind, plan.revisionIntentId, "protection_revision_intent_persisted_before_transport", now)
    case _ => Failure("invalid state or request")
  }

  function StageClose(state: State, request: CloseRequest, now: nat): Result<State, string> {
    match (ValidateState(state), ValidateClose(request))
    case (Some(s), Some(plan)) =>
      if s.pending.Some? then
        if CloseAvailable(s, CloseRequestOf(plan)) then Success(s)
        else Failure("owned-protection transition conflicts with pending reconciliation")
      else if s.current != Some(plan.current) then Failure("owned close current pointer does not match durable ownership")
      else NextState(s, Some(plan.current),
                     Some(PendingClose(plan.closeIntentId, IntentPersisted, "owned_position_close_intent_persisted_before_transport", CloseRequestOf(plan))),
                     CloseKind, plan.closeIntentId, "owned_position_close_intent_persisted_before_transport", now)
    case _ => Failure("invalid state or request")
  }

  // ---------------------------------------------------------------- proof checks

  /** `assertProtectedEntryResult`. */
  predicate EntryResultIdentifies(p: ValidatedEntry, r: EntryResult) {
    r.intentId == p.intentId && r.ids == p.ids && r.reason != ""
  }

  predicate EntryProof(p: ValidatedEntry, r: EntryResult) {
    && OrdinaryFillMatches(r.entry, p.symbol, EntrySide(p.direction), p.ids.entry, false, p.quantity)
    && AlgoProofMatches(r.stop, p.symbol, ExitSide(p.direction), StopMarket, p.ids.stop, p.quantity, p.stopPrice)
    && AlgoProofMatches(r.target, p.symbol, ExitSide(p.direction), TakeProfitMarket, p.ids.target, p.quantity, p.targetPrice)
  }

  /** `assertEmergencyFlattenProof`. */
  predicate FlattenProof(p: ValidatedEntry, r: EntryResult) {
    && r.entry.Some?
    && var e := r.entry.value; var executed := CanonicalPositive(e.executedQuantity);
    && executed.Some?
    && e.clientOrderId == p.ids.entry && e.symbol == p.symbol && e.side == EntrySide(p.direction)
    && (e.status == "FILLED" || e.status == "PARTIALLY_FILLED") && !e.reduceOnly
    && (e.status == "FILLED" ==> DecimalEquals(executed.value, p.quantity))
    && OrdinaryFillMatches(r.emergencyClose, p.symbol, ExitSide(p.direction), p.ids.emergencyClose, true, executed.value)
  }

  function NextOf(p: ValidatedRevision): NextProtection {
    NextProtection(p.remainingQuantity, p.nextStopPrice, p.nextTargetPrice, p.ids)
  }

  predicate RevisionResultIdentifies(p: ValidatedRevision, r: RevisionResult) {
    && r.revisionIntentId == p.revisionIntentId && r.positionIntentId == p.current.positionIntentId
    && r.current == p.current && r.next == NextOf(p) && r.reason != ""
  }

  /** `assertProtectionRevisionProof`. */
  predicate RevisionProof(p: ValidatedRevision, r: RevisionResult) {
    && (p.reductionQuantity.Some? ==>
      OrdinaryFillMatches(r.reduction, p.current.symbol, ExitSide(p.current.direction), p.ids.reduction, true, p.reductionQuantity.value))
    && AlgoProofMatches(r.replacementStop, p.current.symbol, ExitSide(p.current.direction), StopMarket, p.ids.stop, p.remainingQuantity, p.nextStopPrice)
    && AlgoProofMatches(r.replacementTarget, p.current.symbol, ExitSide(p.current.direction), TakeProfitMarket, p.ids.target, p.remainingQuantity, p.nextTargetPrice)
    && (r.state.RevisionProtected? ==> CleanupIsComplete(r.currentTargetCleanup) && CleanupIsComplete(r.currentStopCleanup))
  }

  predicate CloseResultIdentifies(p: ValidatedClose, r: CloseResult) {
    && r.closeIntentId == p.closeIntentId && r.positionIntentId == p.current.positionIntentId
    && r.closeId == p.closeId && r.current == p.current && r.reason != ""
  }

  /** `assertOwnedProtectionCloseProof`. */
  predicate CloseProof(p: ValidatedClose, r: CloseResult) {
    && OrdinaryFillMatches(r.close, p.current.symbol, ExitSide(p.current.direction), p.closeId, true, p.current.quantity)
    && (r.state.Closed? ==> CleanupIsComplete(r.currentTargetCleanup) && CleanupIsComplete(r.currentStopCleanup))
  }

  // ---------------------------------------------------------------- applying results

  function OpenedBy(p: ValidatedEntry): OwnedProtection {
    OwnedProtection(p.intentId, p.symbol, p.direction, p.quantity, p.stopPrice, p.targetPrice, p.ids.stop, p.ids.target)
  }

  function ApplyEntry(state: State, request: EntryRequest, r: EntryResult, now: nat): Result<State, string> {
    match (ValidateState(state), ValidateEntry(request))
    case (Some(s), Some(plan)) =>
      if !EntryAvailable(s, EntryRequestOf(plan)) then Failure("owned-protection transition conflicts with pending reconciliation")
      else if s.current.Some? then Failure("protected entry cannot replace an active owned position")
      else if !EntryResultIdentifies(plan, r) then Failure("protected-entry result does not match its canonical request")
      else if s.pending.Some? && r.state.RejectedBeforeExposure? then Failure("ambiguous protected entry cannot later be treated as rejected")
      else if r.state.OpenProtected? then
        if !EntryProof(plan, r) then Failure("protected-entry proof is incomplete")
        else NextState(s, Some(OpenedBy(plan)), None, EntryKind, plan.intentId, r.reason, now)
      else if r.state.RejectedBeforeExposure? || r.state.EmergencyFlattenConfirmed? then
        if r.state.EmergencyFlattenConfirmed? && !FlattenProof(plan, r) then Failure("emergency-flatten proof is incomplete")
        else NextState(s, None, None, EntryKind, plan.intentId, r.reason, now)
      else NextState(s, None, Some(PendingEntry(plan.intentId, Resulted(r.state), r.reason, EntryRequestOf(plan))),
                     EntryKind, plan.intentId, r.reason, now)
    case _ => Failure("invalid state or request")
  }

  function ApplyRevision(state: State, request: RevisionRequest, r: RevisionResult, now: nat): Result<State, string> {
    match (ValidateState(state), ValidateRevision(request))
    case (Some(s), Some(plan)) =>
      if !RevisionAvailable(s, RevisionRequestOf(plan)) then Failure("owned-protection transition conflicts with pending reconciliation")
      else if s.pending.None? && s.current != Some(plan.current) then Failure("protection revision current pointer does not match durable ownership")
      else if !RevisionResultIdentifies(plan, r) then Failure("protection-revision result does not match its canonical request")
      else if s.pending.Some? && r.state.ReductionRejected? then Failure("ambiguous protection revision cannot later be treated as rejected")
      else if (r.state.RevisionProtected? || r.state.RevisionProtectedCleanupPending?) && !RevisionProof(plan, r) then
        Failure("protection-revision proof is incomplete")
      else (match ValidateOwned(NextOwned(plan))
        case None => Failure("invalid next ownership")
        case Some(next) =>
          if r.state.RevisionProtected? then NextState(s, Some(next), None, RevisionKind, plan.revisionIntentId, r.reason, now)
          else if r.state.ReductionRejected? then NextState(s, Some(plan.current), None, RevisionKind, plan.revisionIntentId, r.reason, now)
          else NextState(s, if r.state.RevisionProtectedCleanupPending? then Some(next) else s.current,
                         Some(PendingRevision(plan.revisionIntentId, Resulted(r.state), r.reason, RevisionRequestOf(plan))),
                         RevisionKind, plan.revisionIntentId, r.reason, now))
    case _ => Failure("invalid state or request")
  }

  function ApplyClose(state: State, request: CloseRequest, r: CloseResult, now: nat): Result<State, string> {
    match (ValidateState(state), ValidateClose(request))
    case (Some(s), Some(plan)) =>
      if !CloseAvailable(s, CloseRequestOf(plan)) then Failure("owned-protection transition conflicts with pending reconciliation")
      else if s.pending.None? && s.current != Some(plan.current) then Failure("owned close current pointer does not match durable ownership")
      else if !CloseResultIdentifies(plan, r) then Failure("owned-position close result does not match its canonical request")
      else if (r.state.Closed? || r.state.ClosedCleanupPending?) && !CloseProof(plan, r) then Failure("owned-position close proof is incomplete")
      else if r.state.Closed? then NextState(s, None, None, CloseKind, plan.closeIntentId, r.reason, now)
      else NextState(s, s.current, Some(PendingClose(plan.closeIntentId, Resulted(r.state), r.reason, CloseRequestOf(plan))),
                     CloseKind, plan.closeIntentId, r.reason, now)
    case _ => Failure("invalid state or request")
  }

  // ---------------------------------------------------------------- canonical states

  /** Validation is idempotent, so every stored state is canonical. */
  lemma {:induction false} PendingIsCanonical(p: Pending)
    requires CanonicalPending(p).Some?
    ensures CanonicalPending(CanonicalPending(p).value) == CanonicalPending(p)
  {
    hide ValidateEntry, ValidateRevision, ValidateClose;
    match p {
      case PendingEntry(_, _, _, request) => EntryIsCanonical(request);
      case PendingRevision(_, _, _, request) => RevisionIsCanonical(request);
      case PendingClose(_, _, _, request) => CloseIsCanonical(request);
    }
  }

  lemma {:induction false} StateIsCanonical(s: State)
    requires ValidateState(s).Some?
    ensures IsState(ValidateState(s).value)
  {
    hide ValidateOwned, CanonicalPending;
    if s.current.Some? { OwnedIsCanonical(s.current.value); }
    if s.pending.Some? { PendingIsCanonical(s.pending.value); }
  }

  /** What `nextState` returns, when it returns. */
  lemma {:induction false} NextStateMeaning(s: State, current: Option<OwnedProtection>, pending: Option<Pending>,
                                            kind: Kind, intentId: string, reason: string, now: nat)
    requires current.Some? ==> IsOwned(current.value)
    requires pending.Some? ==> CanonicalPending(pending.value) == pending
    ensures var n := NextState(s, current, pending, kind, intentId, reason, now);
      && (n.Success? <==> intentId != "" && reason != "" && (pending.Some? ==> (pending.value.PendingEntry? <==> current.None?)))
      && (n.Success? ==>
            IsState(n.value) && n.value == State(s.sequence + 1, current, pending, Some(LastTransition(kind, intentId, reason)), Some(now)))
  {
    hide ValidateOwned, CanonicalPending;
    var t := State(s.sequence + 1, current, pending, Some(LastTransition(kind, intentId, reason)), Some(now));
    if ValidateState(t).Some? { StateIsCanonical(t); }
  }

  /** A stored state never waits for what is already final, nor for a request that is not valid or not its own. */
  lemma {:induction false} PendingIsOpen(s: State)
    requires IsState(s) && s.pending.Some?
    ensures match s.pending.value
      case PendingEntry(id, progress, reason, request) =>
        && reason != "" && s.current.None? && ValidateEntry(request).Some? && id == ValidateEntry(request).value.intentId
        && (progress.Resulted? ==> !progress.outcome.OpenProtected? && !progress.outcome.EmergencyFlattenConfirmed? && !progress.outcome.RejectedBeforeExposure?)
      case PendingRevision(id, progress, reason, request) =>
        && reason != "" && s.current.Some? && ValidateRevision(request).Some? && id == ValidateRevision(request).value.revisionIntentId
        && (progress.Resulted? ==> !progress.outcome.RevisionProtected? && !progress.outcome.ReductionRejected?)
      case PendingClose(id, progress, reason, request) =>
        && reason != "" && s.current.Some? && ValidateClose(request).Some? && id == ValidateClose(request).value.closeIntentId
        && (progress.Resulted? ==> !progress.outcome.Closed?)
  {
    hide ValidateEntry, ValidateRevision, ValidateClose, ValidateOwned;
  }
}
