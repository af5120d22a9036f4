/** The durable record over whole lives of a position: what each stage and each apply does to it, and
    what every run of them keeps. */
module Lifecycle {
  import opened Wrappers
  import opened DecimalText
  import opened MutationContract
  import opened Evidence
  import opened OwnedState

  // ---------------------------------------------------------------- one transition

  /** A canonical state whose pending transition is this plan's. */
  predicate AwaitsEntry(s: State, p: ValidatedEntry) {
    IsState(s) && s.pending.Some? && s.pending.value.PendingEntry? && ValidateEntry(s.pending.value.entry) == Some(p)
  }

  predicate AwaitsRevision(s: State, p: ValidatedRevision) {
    IsState(s) && s.pending.Some? && s.pending.value.PendingRevision? && ValidateRevision(s.pending.value.revision) == Some(p)
  }

  predicate AwaitsClose(s: State, p: ValidatedClose) {
    IsState(s) && s.pending.Some? && s.pending.value.PendingClose? && ValidateClose(s.pending.value.close) == Some(p)
  }

  lemma {:induction false} PendingRequestIsCanonical(s: State)
    requires IsState(s) && s.pending.Some?
    ensures CanonicalPending(s.pending.value) == s.pending
    ensures s.pending.value.PendingEntry? ==>
      ValidateEntry(s.pending.value.entry).Some? && s.pending.value.entry == EntryRequestOf(ValidateEntry(s.pending.value.entry).value) && s.current.None?
    ensures s.pending.value.PendingRevision? ==>
      && ValidateRevision(s.pending.value.revision).Some?
      && s.pending.value.revision == RevisionRequestOf(ValidateRevision(s.pending.value.revision).value) && s.current.Some?
    ensures s.pending.value.PendingClose? ==>
      ValidateClose(s.pending.value.close).Some? && s.pending.value.close == CloseRequestOf(ValidateClose(s.pending.value.close).value) && s.current.Some?
  {
    hide ValidateEntry, ValidateRevision, ValidateClose, ValidateOwned;
  }

  lemma {:induction false} CurrentIsOwned(s: State)
    requires IsState(s)
    ensures s.current.Some? ==> IsOwned(s.current.value)
  {
    hide ValidateOwned, CanonicalPending;
  }

  /** The identifiers and pointers a valid revision carries. */
  lemma {:induction false} RevisionPointers(request: RevisionRequest)
    requires ValidateRevision(request).Some?
    ensures var p := ValidateRevision(request).value;
      && IsOwned(p.current) && IsOwned(NextOwned(p)) && p.revisionIntentId != "" && NextOwned(p) != p.current
      && ValidateRevision(RevisionRequestOf(p)) == Some(p)
  {
    RevisionSplitsQuantity(request);
    RevisionIsCanonical(request);
    RevisionIdentity(request);
    hide IsPlain, Value, IsOwned, ReductionValue, ValidateRevision;
  }

  lemma {:induction false} RevisionIdentity(request: RevisionRequest)
    requires ValidateRevision(request).Some?
    ensures var p := ValidateRevision(request).value;
      p.revisionIntentId != "" && p.ids.stop != p.current.stopId
  {
    hide ValidateOwned, CanonicalPositive, SubtractPositive, DecimalEquals;
    UuidIsNonempty(request.revisionIntentId);
  }

  lemma {:induction false} EntryIdentity(request: EntryRequest)
    requires ValidateEntry(request).Some?
    ensures var p := ValidateEntry(request).value;
      p.intentId != "" && ValidateEntry(EntryRequestOf(p)) == Some(p)
  {
    hide CanonicalPositive;
    UuidIsNonempty(request.intentId);
    EntryIsCanonical(request);
  }

  lemma {:induction false} CloseIdentity(request: CloseRequest)
    requires ValidateClose(request).Some?
    ensures var p := ValidateClose(request).value;
      p.closeIntentId != "" && ValidateClose(CloseRequestOf(p)) == Some(p) && IsOwned(p.current)
  {
    hide ValidateOwned;
    UuidIsNonempty(request.closeIntentId);
    CloseIsCanonical(request);
    OwnedIsCanonical(request.current);
  }

  /** Staging a revision succeeds on an idle state exactly when its pointer is the durable one, and stores
      the canonical request before anything else can happen. */
  lemma {:induction false} StageRevisionMeaning(s: State, request: RevisionRequest, now: nat)
    requires IsState(s) && s.pending.None?
    ensures var staged := StageRevision(s, request, now);
      && (staged.Success? <==> ValidateRevision(request).Some? && s.current == Some(ValidateRevision(request).value.current))
      && (staged.Success? ==>
        var p, reason := ValidateRevision(request).value, "protection_revision_intent_persisted_before_transport";
        && AwaitsRevision(staged.value, p)
        && staged.value == State(s.sequence + 1, s.current, Some(PendingRevision(p.revisionIntentId, IntentPersisted, reason, RevisionRequestOf(p))),
                                 Some(LastTransition(RevisionKind, p.revisionIntentId, reason)), Some(now)))
  {
    hide ValidateOwned, CanonicalPending, ValidateState, NextState, IsOwned, ValidateRevision;
    if ValidateRevision(request).Some? {
      var p := ValidateRevision(request).value;
      RevisionPointers(request);
      var pending := Some(PendingRevision(p.revisionIntentId, IntentPersisted, "protection_revision_intent_persisted_before_transport", RevisionRequestOf(p)));
      PendingRevisionIsCanonical(p, IntentPersisted, "protection_revision_intent_persisted_before_transport");
      NextStateMeaning(s, Some(p.current), pending, RevisionKind, p.revisionIntentId, "protection_revision_intent_persisted_before_transport", now);
    }
  }

  lemma {:induction false} UuidIsNonempty(value: string)
    ensures CanonicalUuid(value).Some? ==> CanonicalUuid(value).value != ""
  {}

  lemma {:induction false} PendingRevisionIsCanonical(p: ValidatedRevision, progress: Progress<RevisionOutcome>, reason: string)
    requires ValidateRevision(RevisionRequestOf(p)) == Some(p) && reason != ""
    requires progress.Resulted? ==> progress.outcome !in {ReductionRejected, RevisionProtected}
    ensures var pending := PendingRevision(p.revisionIntentId, progress, reason, RevisionRequestOf(p));
      CanonicalPending(pending) == Some(pending)
  {
    hide ValidateRevision;
  }

  lemma {:induction false} PendingEntryIsCanonical(p: ValidatedEntry, progress: Progress<EntryOutcome>, reason: string)
    requires ValidateEntry(EntryRequestOf(p)) == Some(p) && reason != ""
    requires progress.Resulted? ==> progress.outcome in {EntryVisibilityPending, EmergencyFlattenPending, OpenProtectedTargetPending}
    ensures var pending := PendingEntry(p.intentId, progress, reason, EntryRequestOf(p));
      CanonicalPending(pending) == Some(pending)
  {
    hide ValidateEntry;
  }

  lemma {:induction false} PendingCloseIsCanonical(p: ValidatedClose, progress: Progress<CloseOutcome>, reason: string)
    requires ValidateClose(CloseRequestOf(p)) == Some(p) && reason != ""
    requires progress.Resulted? ==> !progress.outcome.Closed?
    ensures var pending := PendingClose(p.closeIntentId, progress, reason, CloseRequestOf(p));
      CanonicalPending(pending) == Some(pending)
  {
    hide ValidateClose;
  }

  predicate IsDone(o: RevisionOutcome) { o.RevisionProtected? || o.RevisionProtectedCleanupPending? }

  /** Applying to a pending revision succeeds exactly when the result is about this plan, carries the proofs its
      state claims, and is not a rejection; ownership then moves forward only, and pending is cleared only by
      `revision_protected`. */
  lemma {:induction false} ApplyRevisionMeaning(s: State, p: ValidatedRevision, r: RevisionResult, now: nat)
    requires AwaitsRevision(s, p)
    ensures var applied := ApplyRevision(s, s.pending.value.revision, r, now);
      && (applied.Success? <==>
        RevisionResultIdentifies(p, r) && !r.state.ReductionRejected? && (IsDone(r.state) ==> RevisionProof(p, r)))
      && (applied.Success? ==>
        && IsState(applied.value) && applied.value.sequence == s.sequence + 1 && applied.value.updated == Some(now)
        && applied.value.current == (if IsDone(r.state) then Some(NextOwned(p)) else s.current)
        && applied.value.pending == (if r.state.RevisionProtected? then None
                                     else Some(PendingRevision(p.revisionIntentId, Resulted(r.state), r.reason, RevisionRequestOf(p))))
        && applied.value.last == Some(LastTransition(RevisionKind, p.revisionIntentId, r.reason))
        && (applied.value.pending.Some? ==> AwaitsRevision(applied.value, p)))
  {
    hide CanonicalPending, ValidateState, NextState, RevisionProof, RevisionResultIdentifies, ValidateRevision, ValidateOwned;
    PendingRequestIsCanonical(s);
    CurrentIsOwned(s);
    var request := s.pending.value.revision;
    RevisionPointers(request);
    RevisionReason(p, r);
    var current := if IsDone(r.state) then Some(NextOwned(p)) else s.current;
    if r.reason != "" {
      if r.state.RevisionProtected? {
        NextStateMeaning(s, current, None, RevisionKind, p.revisionIntentId, r.reason, now);
      } else if !r.state.ReductionRejected? {
        PendingRevisionIsCanonical(p, Resulted(r.state), r.reason);
        NextStateMeaning(s, current, Some(PendingRevision(p.revisionIntentId, Resulted(r.state), r.reason, request)),
                         RevisionKind, p.revisionIntentId, r.reason, now);
      }
    }
  }

  lemma {:induction false} RevisionReason(p: ValidatedRevision, r: RevisionResult)
    ensures RevisionResultIdentifies(p, r) ==> r.reason != ""
  {}

  /** The same law for a pending close: only a proven `closed` clears it and the ownership with it. */
  lemma {:induction false} ApplyCloseMeaning(s: State, p: ValidatedClose, r: CloseResult, now: nat)
    requires AwaitsClose(s, p)
    ensures var applied := ApplyClose(s, s.pending.value.close, r, now);
      && (applied.Success? <==>
        CloseResultIdentifies(p, r) && (r.state.Closed? || r.state.ClosedCleanupPending? ==> CloseProof(p, r)))
      && (applied.Success? ==>
        && IsState(applied.value) && applied.value.sequence == s.sequence + 1 && applied.value.updated == Some(now)
        && applied.value.current == (if r.state.Closed? then None else s.current)
        && applied.value.pending == (if r.state.Closed? then None
                                     else Some(PendingClose(p.closeIntentId, Resulted(r.state), r.reason, CloseRequestOf(p))))
        && applied.value.last == Some(LastTransition(CloseKind, p.closeIntentId, r.reason))
        && (applied.value.pending.Some? ==> AwaitsClose(applied.value, p)))
  {
    hide ValidateOwned, CanonicalPending, ValidateState, NextState, CloseProof, ValidateClose;
    PendingRequestIsCanonical(s);
    CurrentIsOwned(s);
    var request := s.pending.value.close;
    CloseIdentity(request);
    if r.reason != "" {
      if r.state.Closed? {
        NextStateMeaning(s, None, None, CloseKind, p.closeIntentId, r.reason, now);
      } else {
        PendingCloseIsCanonical(p, Resulted(r.state), r.reason);
        NextStateMeaning(s, s.current, Some(PendingClose(p.closeIntentId, Resulted(r.state), r.reason, request)),
                         CloseKind, p.closeIntentId, r.reason, now);
      }
    }
  }

  predicate EntryProofsHold(p: ValidatedEntry, r: EntryResult) {
    && (r.state.OpenProtected? ==> EntryProof(p, r))
    && (r.state.EmergencyFlattenConfirmed? ==> FlattenProof(p, r))
  }

  /** The same law for a pending entry: only a proven `open_protected` creates ownership, only it and a proven
      flatten clear pending, and a rejection is refused. */
  lemma {:induction false} ApplyEntryMeaning(s: State, p: ValidatedEntry, r: EntryResult, now: nat)
    requires AwaitsEntry(s, p)
    ensures var applied := ApplyEntry(s, s.pending.value.entry, r, now);
      && (applied.Success? <==> EntryResultIdentifies(p, r) && !r.state.RejectedBeforeExposure? && EntryProofsHold(p, r))
      && (applied.Success? ==>
        && IsState(applied.value) && applied.value.sequence == s.sequence + 1 && applied.value.updated == Some(now)
        && applied.value.current == (if r.state.OpenProtected? then Some(OpenedBy(p)) else None)
        && applied.value.pending == (if r.state.OpenProtected? || r.state.EmergencyFlattenConfirmed? then None
                                     else Some(PendingEntry(p.intentId, Resulted(r.state), r.reason, EntryRequestOf(p))))
        && applied.value.last == Some(LastTransition(EntryKind, p.intentId, r.reason))
        && (applied.value.pending.Some? ==> AwaitsEntry(applied.value, p)))
  {
    hide ValidateOwned, CanonicalPending, ValidateState, NextState, EntryProof, FlattenProof, IsOwned, ValidateEntry;
    PendingRequestIsCanonical(s);
    var request := s.pending.value.entry;
    EntryIdentity(request);
    OpenedIsOwned(request);
    if r.reason != "" {
      if r.state.OpenProtected? {
        NextStateMeaning(s, Some(OpenedBy(p)), None, EntryKind, p.intentId, r.reason, now);
      } else if r.state.EmergencyFlattenConfirmed? {
        NextStateMeaning(s, None, None, EntryKind, p.intentId, r.reason, now);
      } else if !r.state.RejectedBeforeExposure? {
        PendingEntryIsCanonical(p, Resulted(r.state), r.reason);
        NextStateMeaning(s, None, Some(PendingEntry(p.intentId, Resulted(r.state), r.reason, request)),
                         EntryKind, p.intentId, r.reason, now);
      }
    }
  }

  lemma {:induction false} OpenedIsOwned(request: EntryRequest)
    requires ValidateEntry(request).Some?
    ensures IsOwned(OpenedBy(ValidateEntry(request).value))
    ensures OpenedBy(ValidateEntry(request).value).quantity == ValidateEntry(request).value.quantity
    ensures IsPlain(ValidateEntry(request).value.quantity)
  {
    hide CanonicalPositive, IsPlain, IsUuid, IsSymbol, IsClientId;
    var p := ValidateEntry(request).value;
    CanonicalIdentifiersAreFixed(p.intentId);
    CanonicalIdentifiersAreFixed(p.symbol);
    PositiveIsFixed(request.quantity);
    PositiveIsFixed(request.stopPrice);
    PositiveIsFixed(request.targetPrice);
    CanonicalPositiveIff(request.quantity);
    OrderIdIsClientId("gcs", p.intentId);
    OrderIdIsClientId("gct", p.intentId);
    if p.ids.stop == p.ids.target { OrderIdInjective("gcs", p.intentId, "gct", p.intentId); }
  }

  lemma {:induction false} StageEntryMeaning(s: State, request: EntryRequest, now: nat)
    requires IsState(s) && s.pending.None?
    ensures var staged := StageEntry(s, request, now);
      && (staged.Success? <==> ValidateEntry(request).Some? && s.current.None?)
      && (staged.Success? ==>
        var p, reason := ValidateEntry(request).value, "protected_entry_intent_persisted_before_transport";
        && AwaitsEntry(staged.value, p)
        && staged.value == State(s.sequence + 1, None, Some(PendingEntry(p.intentId, IntentPersisted, reason, EntryRequestOf(p))),
                                 Some(LastTransition(EntryKind, p.intentId, reason)), Some(now)))
  {
    hide ValidateOwned, CanonicalPending, ValidateState, NextState, ValidateEntry;
    if ValidateEntry(request).Some? {
      var p := ValidateEntry(request).value;
      EntryIdentity(request);
      PendingEntryIsCanonical(p, IntentPersisted, "protected_entry_intent_persisted_before_transport");
      NextStateMeaning(s, None, Some(PendingEntry(p.intentId, IntentPersisted, "protected_entry_intent_persisted_before_transport", EntryRequestOf(p))),
                       EntryKind, p.intentId, "protected_entry_intent_persisted_before_transport", now);
    }
  }

  lemma {:induction false} StageCloseMeaning(s: State, request: CloseRequest, now: nat)
    requires IsState(s) && s.pending.None?
    ensures var staged := StageClose(s, request, now);
      && (staged.Success? <==> ValidateClose(request).Some? && s.current == Some(ValidateClose(request).value.current))
      && (staged.Success? ==>
        var p, reason := ValidateClose(request).value, "owned_position_close_intent_persisted_before_transport";
        && AwaitsClose(staged.value, p)
        && staged.value == State(s.sequence + 1, s.current, Some(PendingClose(p.closeIntentId, IntentPersisted, reason, CloseRequestOf(p))),
                                 Some(LastTransition(CloseKind, p.closeIntentId, reason)), Some(now)))
  {
    hide ValidateOwned, CanonicalPending, ValidateState, NextState, IsOwned, ValidateClose;
    if ValidateClose(request).Some? {
      var p := ValidateClose(request).value;
      CloseIdentity(request);
      PendingCloseIsCanonical(p, IntentPersisted, "owned_position_close_intent_persisted_before_transport");
      var pending := Some(PendingClose(p.closeIntentId, IntentPersisted, "owned_position_close_intent_persisted_before_transport", CloseRequestOf(p)));
      NextStateMeaning(s, Some(p.current), pending, CloseKind, p.closeIntentId, "owned_position_close_intent_persisted_before_transport", now);
    }
  }

  /** A result whose intent was never staged: it also needs the pointer to be the durable one, and a rejection
      is recorded, leaving ownership as it was. */
  lemma {:induction false} ApplyEntryUnstaged(s: State, request: EntryRequest, r: EntryResult, now: nat)
    requires IsState(s) && s.pending.None? && ValidateEntry(request).Some?
    ensures var p, applied := ValidateEntry(request).value, ApplyEntry(s, request, r, now);
      && (applied.Success? <==> s.current.None? && EntryResultIdentifies(p, r) && EntryProofsHold(p, r))
      && (applied.Success? ==>
            applied.value == State(s.sequence + 1, if r.state.OpenProtected? then Some(OpenedBy(p)) else None,
              if r.state.OpenProtected? || r.state.EmergencyFlattenConfirmed? || r.state.RejectedBeforeExposure? then None
              else Some(PendingEntry(p.intentId, Resulted(r.state), r.reason, EntryRequestOf(p))),
              Some(LastTransition(EntryKind, p.intentId, r.reason)), Some(now)))
  {
    hide ValidateOwned, CanonicalPending, ValidateState, NextState, EntryProof, FlattenProof, IsOwned, ValidateEntry;
    var p := ValidateEntry(request).value;
    EntryIdentity(request);
    OpenedIsOwned(request);
    if r.reason != "" && s.current.None? {
      if r.state.OpenProtected? {
        NextStateMeaning(s, Some(OpenedBy(p)), None, EntryKind, p.intentId, r.reason, now);
      } else if r.state.EmergencyFlattenConfirmed? || r.state.RejectedBeforeExposure? {
        NextStateMeaning(s, None, None, EntryKind, p.intentId, r.reason, now);
      } else {
        PendingEntryIsCanonical(p, Resulted(r.state), r.reason);
        NextStateMeaning(s, None, Some(PendingEntry(p.intentId, Resulted(r.state), r.reason, EntryRequestOf(p))),
                         EntryKind, p.intentId, r.reason, now);
      }
    }
  }

  lemma {:induction false} ApplyRevisionUnstaged(s: State, request: RevisionRequest, r: RevisionResult, now: nat)
    requires IsState(s) && s.pending.None? && ValidateRevision(request).Some?
    ensures var p, applied := ValidateRevision(request).value, ApplyRevision(s, request, r, now);
      && (applied.Success? <==> s.current == Some(p.current) && RevisionResultIdentifies(p, r) && (IsDone(r.state) ==> RevisionProof(p, r)))
      && (applied.Success? ==>
            applied.value == State(s.sequence + 1, Some(if IsDone(r.state) then NextOwned(p) else p.current),
              if r.state.RevisionProtected? || r.state.ReductionRejected? then None
              else Some(PendingRevision(p.revisionIntentId, Resulted(r.state), r.reason, RevisionRequestOf(p))),
              Some(LastTransition(RevisionKind, p.revisionIntentId, r.reason)), Some(now)))
  {
    hide CanonicalPending, ValidateState, NextState, RevisionProof, RevisionResultIdentifies, ValidateRevision, ValidateOwned;
    var p := ValidateRevision(request).value;
    RevisionPointers(request);
    RevisionReason(p, r);
    var current := Some(if IsDone(r.state) then NextOwned(p) else p.current);
    if r.reason != "" {
      if r.state.RevisionProtected? || r.state.ReductionRejected? {
        NextStateMeaning(s, current, None, RevisionKind, p.revisionIntentId, r.reason, now);
      } else {
        PendingRevisionIsCanonical(p, Resulted(r.state), r.reason);
        NextStateMeaning(s, current, Some(PendingRevision(p.revisionIntentId, Resulted(r.state), r.reason, RevisionRequestOf(p))),
                         RevisionKind, p.revisionIntentId, r.reason, now);
      }
    }
  }

  lemma {:induction false} ApplyCloseUnstaged(s: State, request: CloseRequest, r: CloseResult, now: nat)
    requires IsState(s) && s.pending.None? && ValidateClose(request).Some?
    ensures var p, applied := ValidateClose(request).value, ApplyClose(s, request, r, now);
      && (applied.Success? <==>
            s.current == Some(p.current) && CloseResultIdentifies(p, r) && (r.state.Closed? || r.state.ClosedCleanupPending? ==> CloseProof(p, r)))
      && (applied.Success? ==>
            applied.value == State(s.sequence + 1, if r.state.Closed? then None else Some(p.current),
              if r.state.Closed? then None else Some(PendingClose(p.closeIntentId, Resulted(r.state), r.reason, CloseRequestOf(p))),
              Some(LastTransition(CloseKind, p.closeIntentId, r.reason)), Some(now)))
  {
    hide ValidateOwned, CanonicalPending, ValidateState, NextState, CloseProof, ValidateClose, IsOwned;
    var p := ValidateClose(request).value;
    CloseIdentity(request);
    if r.reason != "" {
      if r.state.Closed? {
        NextStateMeaning(s, None, None, CloseKind, p.closeIntentId, r.reason, now);
      } else {
        PendingCloseIsCanonical(p, Resulted(r.state), r.reason);
        NextStateMeaning(s, Some(p.current), Some(PendingClose(p.closeIntentId, Resulted(r.state), r.reason, CloseRequestOf(p))),
                         CloseKind, p.closeIntentId, r.reason, now);
      }
    }
  }

  // ---------------------------------------------------------------- whole runs

  /** What the orchestrator does to the record: stage an intent, or apply a result to the pending one. */
  datatype Event =
    | EntryStaged(entry: EntryRequest, now: nat)
    | EntryApplied(entryResult: EntryResult, now: nat)
    | RevisionStaged(revision: RevisionRequest, now: nat)
    | RevisionApplied(revisionResult: RevisionResult, now: nat)
    | CloseStaged(close: CloseRequest, now: nat)
    | CloseApplied(closeResult: CloseResult, now: nat)

  /** A refused transition throws and leaves the record as it was. */
  function Outcome(s: State, r: Result<State, string>): State { if r.Success? then r.value else s }

  function After(s: State, e: Event): State {
    match e
    case EntryStaged(request, now) => Outcome(s, StageEntry(s, request, now))
    case RevisionStaged(request, now) => Outcome(s, StageRevision(s, request, now))
    case CloseStaged(request, now) => Outcome(s, StageClose(s, request, now))
    case EntryApplied(r, now) =>
      if s.pending.Some? && s.pending.value.PendingEntry? then Outcome(s, ApplyEntry(s, s.pending.value.entry, r, now)) else s
    case RevisionApplied(r, now) =>
      if s.pending.Some? && s.pending.value.PendingRevision? then Outcome(s, ApplyRevision(s, s.pending.value.revision, r, now)) else s
    case CloseApplied(r, now) =>
      if s.pending.Some? && s.pending.value.PendingClose? then Outcome(s, ApplyClose(s, s.pending.value.close, r, now)) else s
  }

  /** The quantities proven filled over the life of one position, read from the evidence itself. */
  datatype Ledger = Ledger(origin: Option<OwnedProtection>, entered: real, reduced: real, closed: real)

  const NO_LIFE: Ledger := Ledger(None, 0.0, 0.0, 0.0)

  function Executed(e: Option<OrdinaryEvidence>): real {
    if e.Some? && IsPlain(e.value.executedQuantity) then Value(e.value.executedQuantity) else 0.0
  }

  predicate PlansReduction(s: State) {
    s.pending.Some? && s.pending.value.PendingRevision? && s.pending.value.revision.reductionQuantity.Some?
  }

  /** Evidence is booked when, and only when, ownership changes because of it. */
  function Booked(g: Ledger, s: State, e: Event, t: State): Ledger {
    if e.EntryApplied? && s.current.None? && t.current.Some? then Ledger(t.current, Executed(e.entryResult.entry), 0.0, 0.0)
    else if e.RevisionApplied? && s.current != t.current && PlansReduction(s) then g.(reduced := g.reduced + Executed(e.revisionResult.reduction))
    else if e.CloseApplied? && s.current.Some? && t.current.None? then g.(closed := Executed(e.closeResult.close))
    else g
  }

  function RunState(events: seq<Event>): State
    decreases |events|
  {
    if events == [] then INITIAL else After(RunState(events[..|events| - 1]), events[|events| - 1])
  }

  function RunLedger(events: seq<Event>): Ledger
    decreases |events|
  {
    if events == [] then NO_LIFE
    else
      var init := events[..|events| - 1];
      Booked(RunLedger(init), RunState(init), events[|events| - 1], RunState(events))
  }

  predicate SameLife(a: OwnedProtection, b: OwnedProtection) {
    a.positionIntentId == b.positionIntentId && a.symbol == b.symbol && a.direction == b.direction
  }

  /** Durable ownership under a pending transition: a revision's current or its computed next, a close's current. */
  predicate PendingPointer(s: State) {
    s.pending.Some? ==>
      match s.pending.value
      case PendingEntry(_, _, _, _) => s.current.None?
      case PendingRevision(_, _, _, request) =>
        var p := ValidateRevision(request); p.Some? && (s.current == Some(p.value.current) || s.current == Some(NextOwned(p.value)))
      case PendingClose(_, _, _, request) =>
        var p := ValidateClose(request); p.Some? && s.current == Some(p.value.current)
  }

  predicate Balanced(s: State, g: Ledger) {
    if s.current.Some? then
      && g.origin.Some? && SameLife(g.origin.value, s.current.value) && g.closed == 0.0
      && IsPlain(s.current.value.quantity) && g.entered == g.reduced + Value(s.current.value.quantity)
    else g.entered == g.reduced + g.closed
  }

  predicate Invariant(s: State, g: Ledger) { IsState(s) && PendingPointer(s) && Balanced(s, g) }

  lemma {:induction false} EntryEvidence(p: ValidatedEntry, r: EntryResult)
    requires IsPlain(p.quantity) && EntryProof(p, r)
    ensures Executed(r.entry) == Value(p.quantity)
  {
    hide IsPlain, Value, AlgoProofMatches;
    DecimalEqualsDecides(r.entry.value.executedQuantity, p.quantity);
  }

  lemma {:induction false} ReductionEvidence(request: RevisionRequest, r: RevisionResult)
    requires ValidateRevision(request).Some? && RevisionProof(ValidateRevision(request).value, r)
    ensures ValidateRevision(request).value.reductionQuantity.Some? ==> Executed(r.reduction) == ReductionValue(ValidateRevision(request).value)
  {
    hide IsPlain, Value, AlgoProofMatches, ValidateRevision, CleanupIsComplete, IsOwned;
    RevisionSplitsQuantity(request);
    var p := ValidateRevision(request).value;
    if p.reductionQuantity.Some? { DecimalEqualsDecides(r.reduction.value.executedQuantity, p.reductionQuantity.value); }
  }

  lemma {:induction false} CloseEvidence(p: ValidatedClose, r: CloseResult)
    requires IsPlain(p.current.quantity) && CloseProof(p, r)
    ensures Executed(r.close) == Value(p.current.quantity)
  {
    hide IsPlain, Value, CleanupIsComplete;
    DecimalEqualsDecides(r.close.value.executedQuantity, p.current.quantity);
  }

  lemma {:induction false} EntryStep(s: State, g: Ledger, r: EntryResult, now: nat)
    requires Invariant(s, g) && s.pending.Some? && s.pending.value.PendingEntry?
    ensures Invariant(After(s, EntryApplied(r, now)), Booked(g, s, EntryApplied(r, now), After(s, EntryApplied(r, now))))
  {
    hide IsPlain, Value, ValidateEntry, IsState, EntryProof, FlattenProof, EntryResultIdentifies, ApplyEntry, Executed, Balanced, Booked, PendingPointer;
    PendingRequestIsCanonical(s);
    var p := ValidateEntry(s.pending.value.entry).value;
    var applied := ApplyEntry(s, s.pending.value.entry, r, now);
    ApplyEntryMeaning(s, p, r, now);
    if applied.Success? {
      FlatPointer(applied.value);
      if r.state.OpenProtected? {
        OpenedIsOwned(s.pending.value.entry);
        EntryEvidence(p, r);
        OpeningBooks(s, g, r, now, p, applied.value);
      } else {
        FlatBooks(s, g, EntryApplied(r, now), applied.value);
      }
    } else {
      FlatBooks(s, g, EntryApplied(r, now), s);
    }
  }

  lemma {:induction false} FlatPointer(t: State)
    requires t.pending.Some? ==> t.pending.value.PendingEntry? && t.current.None?
    ensures PendingPointer(t)
  {}

  /** Opening starts a new life, with what was proven filled. */
  lemma {:induction false} OpeningBooks(s: State, g: Ledger, r: EntryResult, now: nat, p: ValidatedEntry, t: State)
    requires s.current.None? && t.current == Some(OpenedBy(p)) && IsPlain(p.quantity) && Executed(r.entry) == Value(p.quantity)
    ensures Balanced(t, Booked(g, s, EntryApplied(r, now), t))
  {
    hide IsPlain, Value, Executed;
  }

  lemma {:induction false} FlatBooks(s: State, g: Ledger, e: Event, t: State)
    requires e.EntryApplied? && s.current.None? && t.current.None? && Balanced(s, g)
    ensures Balanced(t, Booked(g, s, e, t))
  {}

  lemma {:induction false} RevisionStep(s: State, g: Ledger, r: RevisionResult, now: nat)
    requires Invariant(s, g) && s.pending.Some? && s.pending.value.PendingRevision?
    ensures Invariant(After(s, RevisionApplied(r, now)), Booked(g, s, RevisionApplied(r, now), After(s, RevisionApplied(r, now))))
  {
    hide IsPlain, Value, ValidateRevision, IsState, RevisionProof, RevisionResultIdentifies, ApplyRevision, Executed, IsOwned, ReductionValue;
    PendingRequestIsCanonical(s);
    var request := s.pending.value.revision;
    var p := ValidateRevision(request).value;
    ApplyRevisionMeaning(s, p, r, now);
    RevisionSplitsQuantity(request);
    RevisionPointers(request);
    if IsDone(r.state) && RevisionProof(p, r) { ReductionEvidence(request, r); NoReduction(p); }
  }

  lemma {:induction false} NoReduction(p: ValidatedRevision)
    ensures p.reductionQuantity.None? ==> ReductionValue(p) == 0.0
  {}

  lemma {:induction false} CloseStep(s: State, g: Ledger, r: CloseResult, now: nat)
    requires Invariant(s, g) && s.pending.Some? && s.pending.value.PendingClose?
    ensures Invariant(After(s, CloseApplied(r, now)), Booked(g, s, CloseApplied(r, now), After(s, CloseApplied(r, now))))
  {
    hide IsPlain, Value, ValidateClose, IsState, CloseProof, CloseResultIdentifies, ApplyClose, Executed;
    PendingRequestIsCanonical(s);
    var p := ValidateClose(s.pending.value.close).value;
    ApplyCloseMeaning(s, p, r, now);
    if r.state.Closed? && CloseProof(p, r) { CloseEvidence(p, r); }
  }

  lemma {:induction false} RestageIsIdentity(s: State, e: Event)
    requires IsState(s) && s.pending.Some? && (e.EntryStaged? || e.RevisionStaged? || e.CloseStaged?)
    ensures After(s, e) == s
  {
    hide ValidateOwned, CanonicalPending, ValidateRevision, ValidateEntry, ValidateClose, NextState;
  }

  /** Staging books nothing. */
  lemma {:induction false} StagedBooks(s: State, g: Ledger, e: Event, t: State)
    requires (e.EntryStaged? || e.RevisionStaged? || e.CloseStaged?) && Balanced(s, g)
    ensures t.current == s.current ==> Balanced(t, Booked(g, s, e, t))
  {
    hide IsPlain, Value;
  }

  lemma {:induction false} StageStep(s: State, g: Ledger, e: Event)
    requires Invariant(s, g) && (e.EntryStaged? || e.RevisionStaged? || e.CloseStaged?)
    ensures Invariant(After(s, e), Booked(g, s, e, After(s, e)))
  {
    hide IsPlain, Value, ValidateRevision, ValidateEntry, ValidateClose, IsState, StageEntry, StageRevision, StageClose, Booked, Balanced;
    StagedBooks(s, g, e, After(s, e));
    if s.pending.Some? {
      RestageIsIdentity(s, e);
    } else {
      match e {
        case EntryStaged(request, now) => StageEntryMeaning(s, request, now);
        case RevisionStaged(request, now) => StageRevisionMeaning(s, request, now);
        case CloseStaged(request, now) => StageCloseMeaning(s, request, now);
        case _ =>
      }
    }
  }

  /** Whole-life conservation: in every state any run can reach, the proven entry fill equals the proven
      reductions plus what is owned now; identity and direction never change; under a pending revision the
      pointer is its current or its next; and once closed, entry = reductions + close, so net exposure is zero. */
  lemma {:induction false} WholeLifeConservation(events: seq<Event>)
    ensures Invariant(RunState(events), RunLedger(events))
    decreases |events|
  {
    hide After, Booked, IsState, PendingPointer, Balanced;
    if events == [] {
      InitialInvariant();
    } else {
      var init, e := events[..|events| - 1], events[|events| - 1];
      WholeLifeConservation(init);
      StepKeepsInvariant(RunState(init), RunLedger(init), e);
    }
  }

  lemma {:induction false} InitialInvariant()
    ensures Invariant(INITIAL, NO_LIFE)
  {}

  lemma {:induction false} StepKeepsInvariant(s: State, g: Ledger, e: Event)
    requires Invariant(s, g)
    ensures Invariant(After(s, e), Booked(g, s, e, After(s, e)))
  {
    hide IsState, PendingPointer, Balanced;
    match e {
      case EntryApplied(r, now) => if s.pending.Some? && s.pending.value.PendingEntry? { EntryStep(s, g, r, now); }
      case RevisionApplied(r, now) => if s.pending.Some? && s.pending.value.PendingRevision? { RevisionStep(s, g, r, now); }
      case CloseApplied(r, now) => if s.pending.Some? && s.pending.value.PendingClose? { CloseStep(s, g, r, now); }
      case _ => StageStep(s, g, e);
    }
  }

  /** While one revision stays pending, ownership that reached its next never goes back. */
  lemma {:induction false} RevisionNeverGoesBack(s: State, p: ValidatedRevision, e: Event)
    requires AwaitsRevision(s, p) && s.current == Some(NextOwned(p))
    ensures After(s, e).current == Some(NextOwned(p))
    ensures AwaitsRevision(After(s, e), p) || (e.RevisionApplied? && After(s, e).pending.None? && e.revisionResult.state.RevisionProtected?)
  {
    hide ValidateRevision, IsState, RevisionProof, RevisionResultIdentifies, ApplyRevision, StageEntry, StageRevision, StageClose;
    match e {
      case RevisionApplied(r, now) => ApplyRevisionMeaning(s, p, r, now);
      case EntryStaged(_, _) => RestageIsIdentity(s, e);
      case RevisionStaged(_, _) => RestageIsIdentity(s, e);
      case CloseStaged(_, _) => RestageIsIdentity(s, e);
      case _ =>
    }
  }

  /** Pending leaves only through a terminal result for the same request, with its proofs; nothing else clears it. */
  lemma {:induction false} PendingLeavesOnlyByProof(s: State, e: Event)
    requires IsState(s) && s.pending.Some? && After(s, e).pending.None?
    ensures match s.pending.value
      case PendingEntry(_, _, _, request) =>
        var p := ValidateEntry(request);
        e.EntryApplied? && p.Some? && EntryResultIdentifies(p.value, e.entryResult) &&
        ((e.entryResult.state.OpenProtected? && EntryProof(p.value, e.entryResult))
          || (e.entryResult.state.EmergencyFlattenConfirmed? && FlattenProof(p.value, e.entryResult)))
      case PendingRevision(_, _, _, request) =>
        var p := ValidateRevision(request);
        e.RevisionApplied? && p.Some? && RevisionResultIdentifies(p.value, e.revisionResult)
        && e.revisionResult.state.RevisionProtected? && RevisionProof(p.value, e.revisionResult)
      case PendingClose(_, _, _, request) =>
        var p := ValidateClose(request);
        e.CloseApplied? && p.Some? && CloseResultIdentifies(p.value, e.closeResult)
        && e.closeResult.state.Closed? && CloseProof(p.value, e.closeResult)
  {
    hide ValidateEntry, ValidateRevision, ValidateClose, IsState, EntryProof, FlattenProof, RevisionProof, CloseProof;
    hide EntryResultIdentifies, RevisionResultIdentifies, CloseResultIdentifies;
    hide ApplyEntry, ApplyRevision, ApplyClose, StageEntry, StageRevision, StageClose;
    PendingRequestIsCanonical(s);
    match e {
      case EntryApplied(r, now) =>
        if s.pending.value.PendingEntry? { ApplyEntryMeaning(s, ValidateEntry(s.pending.value.entry).value, r, now); }
      case RevisionApplied(r, now) =>
        if s.pending.value.PendingRevision? { ApplyRevisionMeaning(s, ValidateRevision(s.pending.value.revision).value, r, now); }
      case CloseApplied(r, now) =>
        if s.pending.value.PendingClose? { ApplyCloseMeaning(s, ValidateClose(s.pending.value.close).value, r, now); }
      case _ => RestageIsIdentity(s, e);
    }
  }
}
