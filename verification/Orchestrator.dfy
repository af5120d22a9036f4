/** One orchestrator process: validate the permit, load, stage and save the intent, call the coordinator,
    apply and save the result; or recover what is pending by queries. Other processes may write the store
    whenever this one waits. */
module Orchestrator {
  import opened Wrappers
  import opened DecimalText
  import opened MutationContract
  import opened Evidence
  import opened Venue
  import opened OwnedState
  import opened Lifecycle
  import Revision
  import OwnedClose
  import EntryCoordinator
  import Processes
  import ProtectionGuard

  // ---------------------------------------------------------------- permits

  datatype PermitAction = ProtectedEntry | ProtectionRevision | OwnedPositionClose

  /** A permit binds one action of one intent to the hash of its plan, for a while and up to a quantity. */
  datatype Permit = Permit(permitId: string, intentId: string, symbol: string, action: PermitAction,
                           proofHash: string, maximumQuantity: string, issued: int, expires: int)

  const MAXIMUM_PERMIT_LIFETIME := 300_000

  predicate IsHash(s: string) { |s| == 64 && forall i :: 0 <= i < 64 ==> IsHex(s[i]) }

  /** `validatePermit`. */
  predicate PermitAllows(permit: Permit, action: PermitAction, intentId: string, symbol: string, quantity: string, proofHash: string, now: int) {
    var maximum := CanonicalPositive(permit.maximumQuantity);
    && maximum.Some?
    && IsUuid(permit.permitId) && permit.intentId == intentId && IsUuid(permit.intentId)
    && permit.symbol == "BTCUSDT" && symbol == permit.symbol && permit.action == action
    && IsHash(permit.proofHash) && permit.proofHash == proofHash
    && permit.issued <= now < permit.expires && permit.expires - permit.issued <= MAXIMUM_PERMIT_LIFETIME
    && IsPlain(quantity) && IsPlain(maximum.value) && ComparePositive(quantity, maximum.value) <= 0
  }

  /** A permit caps the quantity as a number, however either text is written. */
  lemma {:induction false} PermitCapsQuantity(permit: Permit, action: PermitAction, intentId: string, symbol: string, quantity: string, proofHash: string, now: int)
    requires IsPlain(quantity) && IsPlain(permit.maximumQuantity)
    ensures PermitAllows(permit, action, intentId, symbol, quantity, proofHash, now) <==>
      && IsUuid(permit.permitId) && IsUuid(intentId) && permit.intentId == intentId
      && permit.symbol == "BTCUSDT" && symbol == "BTCUSDT" && permit.action == action
      && IsHash(permit.proofHash) && permit.proofHash == proofHash
      && permit.issued <= now < permit.expires && permit.expires - permit.issued <= MAXIMUM_PERMIT_LIFETIME
      && Value(permit.maximumQuantity) > 0.0 && Value(quantity) <= Value(permit.maximumQuantity)
  {
    hide IsPlain, Value, CanonicalPositive, ComparePositive, IsUuid, IsHash;
    CanonicalPositiveIff(permit.maximumQuantity);
    if CanonicalPositive(permit.maximumQuantity).Some? { CompareDecides(quantity, CanonicalPositive(permit.maximumQuantity).value); }
  }

  // ---------------------------------------------------------------- the store

  /** The runtime-state row of the ownership record: a version, and the state stored under it. */
  class Repository {
    const alone: bool   // no other process writes
    var version: nat
    var stored: Option<OwnedState.State>
    ghost var commits: seq<OwnedState.State>   // every state committed so far; the version is their number

    ghost predicate Valid()
      reads this
    {
      && |commits| == version
      && (forall i :: 0 <= i < |commits| ==> IsState(commits[i]))
      && stored == if version == 0 then None else Some(commits[version - 1])
    }

    constructor (alone: bool)
      ensures Valid() && version == 0 && this.alone == alone
    {
      this.alone := alone;
      version, stored, commits := 0, None, [];
    }

    /** What `load` returns: the initial state while nothing is stored. */
    ghost function Current(): OwnedState.State
      reads this
    {
      if stored.Some? then stored.value else INITIAL
    }

    method Load() returns (loaded: nat, state: OwnedState.State)
      requires Valid()
      ensures loaded == version && state == Current() && IsState(state)
    {
      hide ValidateOwned, CanonicalPending;
      loaded := version;
      state := if stored.Some? then stored.value else INITIAL;
    }

    /** `save`: the state is stored, canonical, exactly when nobody wrote since the version it is based on. */
    method Save(expected: nat, state: OwnedState.State) returns (saved: bool)
      requires Valid()
      modifies this
      ensures Valid()
      ensures saved <==> old(version) == expected && ValidateState(state).Some?
      ensures commits == if saved then old(commits) + [ValidateState(state).value] else old(commits)
    {
      hide ValidateOwned, CanonicalPending;
      var canonical := ValidateState(state);
      saved := canonical.Some? && version == expected;
      if saved {
        StateIsCanonical(state);
        version, stored, commits := version + 1, canonical, commits + [canonical.value];
      }
    }

    /** Time passes in which other processes may save. */
    method OtherWriters()
      requires Valid()
      modifies this
      ensures Valid() && old(commits) <= commits
      ensures alone ==> commits == old(commits)
    {
      hide IsState;
      if alone { return; }
      var writes: int := *;
      for i := 0 to if writes < 0 then 0 else writes
        invariant Valid() && old(commits) <= commits
      {
        var state: OwnedState.State := *;
        var saved := Save(version, state);
      }
    }
  }

  // ---------------------------------------------------------------- what an operation did

  /** Refused before anything was called; called, but its result does not apply; applied, but another process
      had written; or recorded. */
  datatype Report<R> = Refused | Unapplied(result: R) | Conflicted(result: R) | Recorded(result: R)

  /** The commits a report stands for when nobody else writes. */
  function Writes<R>(r: Report<R>): nat {
    match r
    case Refused => 0
    case Recorded(_) => 2
    case _ => 1
  }

  /** When an operation over a store of `before` commits reports so, with `after` commits at its end: it is
      refused only if it had to be or another process wrote, and it conflicts only if another process wrote. */
  predicate Serves<R>(r: Report<R>, accepts: bool, alone: bool, before: nat, after: nat) {
    && (!r.Refused? ==> accepts)
    && (r.Refused? && accepts ==> before < after)
    && (r.Conflicted? ==> before + 1 < after)
    && (alone ==> (r.Refused? <==> !accepts) && !r.Conflicted? && after == before + Writes(r))
  }

  /** When an operation that has begun reports so: it conflicts only if another process wrote meanwhile. */
  predicate Finishes<R>(r: Report<R>, alone: bool, before: nat, after: nat) {
    && (r.Conflicted? ==> before < after)
    && (alone ==> !r.Conflicted? && after == before + (if r.Recorded? then 1 else 0))
  }

  datatype Recovery =
    | Busy
    | NothingPending
    | EntryRecovery(entry: Report<EntryResult>)
    | RevisionRecovery(revision: Report<RevisionResult>)
    | CloseRecovery(close: Report<CloseResult>)

  function Plan(request: RevisionRequest): ValidatedRevision
    requires ValidateRevision(request).Some?
  {
    ValidateRevision(request).value
  }

  function ClosePlan(closeIntentId: string, bound: OwnedState.State): Option<ValidatedClose>
    requires bound.current.Some?
  {
    ValidateClose(CloseRequest(closeIntentId, bound.current.value))
  }

  /** The record as it stands takes this job: a fresh or the very same pending entry, or a revision or close of
      exactly the position it owns, planned against exactly this state. */
  predicate Takes(s: OwnedState.State, job: Processes.Job) {
    match job
    case Enter(request) =>
      ValidateEntry(request).Some? &&
      if s.pending.None? then s.current.None?
      else s.pending.value.PendingEntry? && s.pending.value.entry == EntryRequestOf(ValidateEntry(request).value)
    case Revise(request, bound) => bound == s && ValidateRevision(request).Some? && s.current == Some(Plan(request).current)
    case Close(id, bound) => bound == s && s.current.Some? && ClosePlan(id, bound).Some?
  }

  lemma {:induction false} StagesExactly(s: OwnedState.State, job: Processes.Job, now: nat)
    requires IsState(s) && Processes.Ready(job)
    ensures Processes.BoundTo(job, s) && Processes.Staged(s, job, now).Success? <==> Takes(s, job)
  {
    hide ValidateState, ValidateEntry, ValidateRevision, ValidateClose, IsState, NextState, StageRevision, StageClose;
    match job {
      case Enter(request) =>
        if s.pending.None? { StageEntryMeaning(s, request, now); } else { SameStateStages(s); }
      case Revise(request, bound) => if bound == s { StageRevisionMeaning(s, request, now); }
      case Close(id, bound) =>
        if bound == s {
          StageCloseMeaning(s, Processes.CloseRequestFor(job), now);
          CloseIsOfCurrent(s, id);
        }
    }
  }

  lemma {:induction false} SameStateStages(s: OwnedState.State)
    requires IsState(s)
    ensures ValidateState(s) == Some(s)
  {
    hide ValidateState;
  }

  lemma {:induction false} CloseIsOfCurrent(s: OwnedState.State, id: string)
    requires IsState(s) && s.current.Some?
    ensures ClosePlan(id, s).Some? ==> ClosePlan(id, s).value.current == s.current.value
  {
    hide IsState, ValidateOwned;
    CurrentIsOwned(s);
  }

  /** Some commit since then holds the canonical intent of the job. */
  ghost predicate IntentCommitted(past: seq<OwnedState.State>, commits: seq<OwnedState.State>, job: Processes.Job) {
    exists k :: |past| <= k < |commits| && Processes.Intends(commits[k], job)
  }

  lemma {:induction false} IntentLasts(past: seq<OwnedState.State>, commits: seq<OwnedState.State>, more: seq<OwnedState.State>, job: Processes.Job)
    requires IntentCommitted(past, commits, job) && commits <= more
    ensures IntentCommitted(past, more, job)
  {
    hide Processes.Intends;
    var k :| |past| <= k < |commits| && Processes.Intends(commits[k], job);
    assert more[k] == commits[k];
  }

  lemma {:induction false} IntentIsLast(past: seq<OwnedState.State>, mid: seq<OwnedState.State>, staged: OwnedState.State, job: Processes.Job)
    requires past <= mid && Processes.Intends(staged, job)
    ensures IntentCommitted(past, mid + [staged], job)
  {
    hide Processes.Intends;
    assert (mid + [staged])[|mid|] == staged;
  }

  /** What a recorded result leaves in the store, to the last field. */
  predicate RevisionRecorded(s: OwnedState.State, before: Option<OwnedProtection>, p: ValidatedRevision, r: RevisionResult, now: nat) {
    && s.current == (if IsDone(r.state) then Some(NextOwned(p)) else before)
    && s.pending == (if r.state.RevisionProtected? then None else Some(PendingRevision(p.revisionIntentId, Resulted(r.state), r.reason, RevisionRequestOf(p))))
    && s.last == Some(LastTransition(RevisionKind, p.revisionIntentId, r.reason)) && s.updated == Some(now)
    && (s.pending.Some? ==> AwaitsRevision(s, p))
  }

  predicate CloseRecorded(s: OwnedState.State, before: Option<OwnedProtection>, p: ValidatedClose, r: CloseResult, now: nat) {
    && s.current == (if r.state.Closed? then None else before)
    && s.pending == (if r.state.Closed? then None else Some(PendingClose(p.closeIntentId, Resulted(r.state), r.reason, CloseRequestOf(p))))
    && s.last == Some(LastTransition(CloseKind, p.closeIntentId, r.reason)) && s.updated == Some(now)
    && (s.pending.Some? ==> AwaitsClose(s, p))
  }

  predicate EntryRecorded(s: OwnedState.State, p: ValidatedEntry, r: EntryResult, now: nat) {
    && s.current == (if r.state.OpenProtected? then Some(OpenedBy(p)) else None)
    && s.pending == (if r.state.OpenProtected? || r.state.EmergencyFlattenConfirmed? then None
                     else Some(PendingEntry(p.intentId, Resulted(r.state), r.reason, EntryRequestOf(p))))
    && s.last == Some(LastTransition(EntryKind, p.intentId, r.reason)) && s.updated == Some(now)
    && (s.pending.Some? ==> AwaitsEntry(s, p))
  }

  /** Applying a coordinator's result: with its proofs it cannot be refused, except for a rejected reduction. */
  lemma {:induction false} RevisionApplies(s: OwnedState.State, request: RevisionRequest, p: ValidatedRevision, r: RevisionResult, now: nat)
    requires AwaitsRevision(s, p) && ValidateRevision(request) == Some(p) && Revision.Supports(p, r)
    ensures var t := ApplyRevision(s, request, r, now);
      && (t.Success? <==> !r.state.ReductionRejected?)
      && (t.Success? ==> ValidateState(t.value) == Some(t.value) && RevisionRecorded(t.value, s.current, p, r, now))
  {
    hide ValidateRevision, IsState, ApplyRevision, RevisionResultIdentifies, RevisionProof, ValidateState;
    PendingRequestIsCanonical(s);
    ApplyRevisionMeaning(s, p, r, now);
    Processes.RevisionAppliesAlike(s, request, r, now);
    if ApplyRevision(s, request, r, now).Success? { Processes.StateIsItself(ApplyRevision(s, request, r, now).value); }
  }

  lemma {:induction false} CloseApplies(s: OwnedState.State, request: CloseRequest, p: ValidatedClose, r: CloseResult, now: nat)
    requires AwaitsClose(s, p) && ValidateClose(request) == Some(p) && OwnedClose.Supports(p, r)
    ensures var t := ApplyClose(s, request, r, now);
      t.Success? && ValidateState(t.value) == Some(t.value) && CloseRecorded(t.value, s.current, p, r, now)
  {
    hide ValidateClose, IsState, ApplyClose, CloseResultIdentifies, CloseProof, ValidateState;
    PendingRequestIsCanonical(s);
    ApplyCloseMeaning(s, p, r, now);
    Processes.CloseAppliesAlike(s, request, r, now);
    if ApplyClose(s, request, r, now).Success? { Processes.StateIsItself(ApplyClose(s, request, r, now).value); }
  }

  lemma {:induction false} EntryApplies(s: OwnedState.State, request: EntryRequest, p: ValidatedEntry, r: EntryResult, now: nat)
    requires AwaitsEntry(s, p) && ValidateEntry(request) == Some(p) && EntryCoordinator.Supports(p, r)
    ensures var t := ApplyEntry(s, request, r, now);
      && (t.Success? <==> !r.state.RejectedBeforeExposure? && EntryProofsHold(p, r))
      && (t.Success? ==> ValidateState(t.value) == Some(t.value) && EntryRecorded(t.value, p, r, now))
  {
    hide ValidateEntry, IsState, ApplyEntry, EntryResultIdentifies, EntryProofsHold, ValidateState;
    PendingRequestIsCanonical(s);
    ApplyEntryMeaning(s, p, r, now);
    Processes.EntryAppliesAlike(s, request, r, now);
    if ApplyEntry(s, request, r, now).Success? { Processes.StateIsItself(ApplyEntry(s, request, r, now).value); }
  }

  lemma {:induction false} IntendedRevision(s: OwnedState.State, request: RevisionRequest, bound: OwnedState.State)
    requires Processes.Intends(s, Processes.Revise(request, bound))
    ensures ValidateRevision(request).Some? && AwaitsRevision(s, ValidateRevision(request).value) && Revision.IsPlan(ValidateRevision(request).value)
  {
    hide ValidateRevision, IsState;
    RevisionIsCanonical(request);
  }

  lemma {:induction false} IntendedClose(s: OwnedState.State, job: Processes.Job)
    requires Processes.Intends(s, job) && job.Close?
    ensures var request := Processes.CloseRequestFor(job);
      ValidateClose(request).Some? && AwaitsClose(s, ValidateClose(request).value) && OwnedClose.IsClosePlan(ValidateClose(request).value)
  {
    hide ValidateClose, IsState;
    CloseIsCanonical(Processes.CloseRequestFor(job));
  }

  lemma {:induction false} IntendedEntry(s: OwnedState.State, request: EntryRequest)
    requires Processes.Intends(s, Processes.Enter(request))
    ensures ValidateEntry(request).Some? && AwaitsEntry(s, ValidateEntry(request).value) && EntryCoordinator.IsEntryPlan(ValidateEntry(request).value)
  {
    hide ValidateEntry, IsState;
    EntryIsCanonical(request);
  }

  /** What is pending in a stored state, as a plan. */
  lemma {:induction false} PendingPlans(s: OwnedState.State)
    requires IsState(s) && s.pending.Some?
    ensures match s.pending.value
      case PendingEntry(_, _, _, request) =>
        ValidateEntry(request).Some? && AwaitsEntry(s, ValidateEntry(request).value) && EntryCoordinator.IsEntryPlan(ValidateEntry(request).value)
      case PendingRevision(_, _, _, request) =>
        ValidateRevision(request).Some? && AwaitsRevision(s, ValidateRevision(request).value) && Revision.IsPlan(ValidateRevision(request).value)
      case PendingClose(_, _, _, request) =>
        ValidateClose(request).Some? && AwaitsClose(s, ValidateClose(request).value) && OwnedClose.IsClosePlan(ValidateClose(request).value)
  {
    hide ValidateEntry, ValidateRevision, ValidateClose, IsState;
    PendingRequestIsCanonical(s);
    match s.pending.value {
      case PendingEntry(_, _, _, request) => EntryIsCanonical(request);
      case PendingRevision(_, _, _, request) => RevisionIsCanonical(request);
      case PendingClose(_, _, _, request) => CloseIsCanonical(request);
    }
  }

  /** A recovery is of what was pending and goes by what the venue answered; a revision's or a close's result always applies, an entry's when its
      proofs are complete; and what is recorded is what the result says. */
  ghost predicate RecoveredFrom(before: OwnedState.State, after: OwnedState.State, r: Recovery, t: Trail, now: nat) {
    before.pending.Some? &&
    match before.pending.value
    case PendingEntry(_, _, _, request) =>
      && r.EntryRecovery? && ValidateEntry(request).Some? && !r.entry.Refused?
      && EntryCoordinator.RecoveryTrace(ValidateEntry(request).value, r.entry.result, t)
      && (r.entry.Unapplied? <==> !EntryProofsHold(ValidateEntry(request).value, r.entry.result))
      && (r.entry.Recorded? ==> EntryRecorded(after, ValidateEntry(request).value, r.entry.result, now))
    case PendingRevision(_, _, _, request) =>
      && r.RevisionRecovery? && ValidateRevision(request).Some? && (r.revision.Recorded? || r.revision.Conflicted?)
      && Revision.RecoveryTrace(Plan(request), r.revision.result, t)
      && (r.revision.Recorded? ==> RevisionRecorded(after, before.current, Plan(request), r.revision.result, now))
    case PendingClose(_, _, _, request) =>
      && r.CloseRecovery? && ValidateClose(request).Some? && (r.close.Recorded? || r.close.Conflicted?)
      && OwnedClose.RecoveryTrace(ValidateClose(request).value, r.close.result, t)
      && (r.close.Recorded? ==> CloseRecorded(after, before.current, ValidateClose(request).value, r.close.result, now))
  }

  /** The venue as a live run leaves it whose result would have been terminal: open, revised or closed. */
  ghost predicate LeftFinished(v: Venue.State, s: OwnedState.State) {
    s.pending.Some? &&
    match s.pending.value
    case PendingEntry(_, _, _, request) => ValidateEntry(request).Some? && EntryCoordinator.OpenShown(v, ValidateEntry(request).value)
    case PendingRevision(_, _, _, request) => ValidateRevision(request).Some? && Revision.RevisionComplete(v, Plan(request))
    case PendingClose(_, _, _, request) => ValidateClose(request).Some? && OwnedClose.CloseComplete(v, ValidateClose(request).value)
  }

  /** The same of a recovery. */
  predicate Recovers(r: Recovery, alone: bool, before: nat, after: nat) {
    match r
    case Busy => alone ==> after == before
    case NothingPending => alone ==> after == before
    case EntryRecovery(e) => Finishes(e, alone, before, after)
    case RevisionRecovery(e) => Finishes(e, alone, before, after)
    case CloseRecovery(e) => Finishes(e, alone, before, after)
  }

  /** The venue as a live run may leave it at any point, as far as recovery relies on it. */
  ghost predicate LeftSafe(v: Venue.State, s: OwnedState.State) {
    s.pending.Some? &&
    match s.pending.value
    case PendingEntry(_, _, _, request) => ValidateEntry(request).Some? && EntryCoordinator.Recoverable(v, ValidateEntry(request).value)
    case PendingRevision(_, _, _, request) => ValidateRevision(request).Some? && Revision.Recoverable(v, Plan(request))
    case PendingClose(_, _, _, request) => ValidateClose(request).Some? && OwnedClose.Bounded(v, ValidateClose(request).value)
  }

  /** What a recovery claims is so at the venue: an open position is covered and was not flattened, a proven
      pair covers what is left, a proven close has emptied the position. */
  ghost predicate ClaimsSoundly(mood: Mood, v: Venue.State, s: OwnedState.State, r: Recovery) {
    s.pending.Some? &&
    match s.pending.value
    case PendingEntry(_, _, _, request) =>
      ValidateEntry(request).Some? && r.EntryRecovery? && !r.entry.Refused?
      && EntryCoordinator.RecoveredSoundly(mood, v, ValidateEntry(request).value, r.entry.result)
    case PendingRevision(_, _, _, request) =>
      ValidateRevision(request).Some? && r.RevisionRecovery? && !r.revision.Refused?
      && (IsDone(r.revision.result.state) ==> NextCovers(v, Plan(request)))
    case PendingClose(_, _, _, request) =>
      ValidateClose(request).Some? && r.CloseRecovery? && !r.close.Refused?
      && (OwnedClose.IsClosed(r.close.result.state) ==> Exposure(v, ValidateClose(request).value.current.direction) == 0.0)
  }

  predicate ClaimsFinished(r: Recovery) {
    match r
    case EntryRecovery(e) => !e.Refused? && e.result.state.OpenProtected?
    case RevisionRecovery(e) => !e.Refused? && e.result.state.RevisionProtected?
    case CloseRecovery(e) => !e.Refused? && e.result.state.Closed?
    case _ => false
  }

  /** The replacement stop covers what is left of the position. */
  ghost predicate NextCovers(v: Venue.State, p: ValidatedRevision) {
    ProtectionGuard.Holds(v, Revision.NextCover(p))
  }

  lemma {:induction false} NeverRejected(p: ValidatedRevision, r: RevisionResult)
    requires Revision.Explains(p, r, false)
    ensures !r.state.ReductionRejected?
  {}

  class TestnetOrchestrator {
    const repository: Repository
    const client: Client
    const entries: EntryCoordinator.EntryProtection
    const revisions: Revision.RevisionCoordinator
    const closes: OwnedClose.OwnedCloseCoordinator
    var active: bool

    ghost predicate Valid()
      reads this, repository, client
    {
      repository.Valid() && client.Valid() && entries.client == client && revisions.client == client && closes.client == client
    }

    constructor (repository: Repository, client: Client)
      requires repository.Valid() && client.Valid()
      ensures Valid() && !active && this.repository == repository && this.client == client
    {
      this.repository, this.client, active := repository, client, false;
      entries := new EntryCoordinator.EntryProtection(client);
      revisions := new Revision.RevisionCoordinator(client);
      closes := new OwnedClose.OwnedCloseCoordinator(client);
    }

    /** Load, refuse a plan bound to another state, stage, save: the intent is committed or nothing is. */
    method CommitIntent(job: Processes.Job, now: nat) returns (committed: bool, version: nat, staged: OwnedState.State)
      requires Valid() && Processes.Ready(job)
      modifies repository
      ensures Valid() && old(repository.commits) <= repository.commits
      ensures committed ==>
        && Processes.Intends(staged, job) && (!job.Enter? ==> staged.current == job.bound.current)
        && version == repository.version && repository.Current() == staged
        && IntentCommitted(old(repository.commits), repository.commits, job)
      ensures committed ==> Takes(old(repository.Current()), job) && |old(repository.commits)| < |repository.commits|
      ensures !committed && Takes(old(repository.Current()), job) ==> |old(repository.commits)| < |repository.commits|
      ensures repository.alone ==> |repository.commits| == |old(repository.commits)| + (if committed then 1 else 0)
    {
      hide Takes, IsState, Processes.Intends, Processes.Staged, ValidateState, IntentCommitted, Processes.Ready;
      var loaded, state := repository.Load();
      StagesExactly(state, job, now);
      repository.OtherWriters();
      committed, version, staged := false, loaded + 1, state;
      if !Processes.BoundTo(job, state) { return; }
      var next := Processes.Staged(state, job, now);
      if next.Failure? { return; }
      Processes.StagedMeaning(state, job, now);
      Processes.StagedState(state, job, next.value);
      Processes.StateIsItself(next.value);
      ghost var past := repository.commits;
      staged := next.value;
      committed := repository.Save(loaded, staged);
      if committed { IntentIsLast(old(repository.commits), past, staged, job); }
    }

    /** Apply a result to the state staged under a version, and save it unless another process has written. */
    method Record<R>(next: Result<OwnedState.State, string>, version: nat, result: R) returns (r: Report<R>)
      requires Valid() && (next.Success? ==> ValidateState(next.value) == Some(next.value))
      modifies repository
      ensures Valid() && old(repository.commits) <= repository.commits
      ensures !r.Refused? && r.result == result
      ensures r.Unapplied? <==> next.Failure?
      ensures r.Recorded? <==> next.Success? && old(repository.version) == version
      ensures |repository.commits| == |old(repository.commits)| + (if r.Recorded? then 1 else 0)
      ensures r.Recorded? ==> repository.Current() == next.value
    {
      hide ValidateState;
      if next.Failure? { return Unapplied(result); }
      var saved := repository.Save(version, next.value);
      r := if saved then Recorded(result) else Conflicted(result);
    }

    /** `executeProtectionRevision`. Nothing is called unless the intent was committed in this very operation;
        a result that comes back is refused by the record only when the reduction was rejected. */
    method ExecuteProtectionRevision(request: RevisionRequest, bound: OwnedState.State, ready: bool, proofHash: string, permit: Permit,
                                     now: nat, later: nat) returns (r: Report<RevisionResult>)
      requires Valid() && (ready ==> bound.pending.None?)
      modifies this, repository, client
      ensures Valid() && active == old(active)
      ensures old(repository.commits) <= repository.commits && old(client.history) <= client.history
      ensures old(active) ==> r.Refused? && repository.commits == old(repository.commits)
      ensures r.Refused? ==> client.history == old(client.history) && client.requests == old(client.requests)
      ensures old(client.requests) <= client.requests && old(client.answers) <= client.answers
      ensures Serves(r,
        && !old(active) && ready && Takes(old(repository.Current()), Processes.Revise(request, bound))
        && PermitAllows(permit, ProtectionRevision, request.revisionIntentId, request.current.symbol, request.current.quantity, proofHash, now),
        repository.alone, |old(repository.commits)|, |repository.commits|)
      ensures !r.Refused? ==>
        && IntentCommitted(old(repository.commits), repository.commits, Processes.Revise(request, bound))
        && ValidateRevision(request).Some? && Revision.Supports(Plan(request), r.result) && Revision.Explains(Plan(request), r.result, true)
      ensures !r.Refused? ==>
        Revision.RevisionTrace(Plan(request), r.result, Trail(client.requests, client.answers, |old(client.answers)|), |old(client.requests)|)
      ensures !r.Refused? ==> (r.Unapplied? <==> r.result.state.ReductionRejected?)
      ensures r.Recorded? ==> RevisionRecorded(repository.Current(), bound.current, Plan(request), r.result, later)
      ensures !r.Refused? && client.truthful && Revision.StartsCovered(old(client.venue), Plan(request)) ==>
        Revision.CoveredThroughout(old(client.history), client.history, Plan(request)) && Revision.EndsCovered(client.venue, Plan(request), r.result.state)
      ensures !r.Refused? && client.truthful && !client.mood.Wild? && Revision.Unspent(old(client.venue), Plan(request)) && r.result.state.RevisionProtected? ==>
        Revision.RevisionComplete(client.venue, Plan(request))
      ensures !r.Refused? && client.prompt && client.answering && Revision.Executable(old(client.venue), Plan(request)) ==>
        (r.Recorded? || r.Conflicted?) && r.result.state.RevisionProtected? && client.venue == Revision.Revised(old(client.venue), Plan(request))
    {
      hide Takes, IsState, ValidateRevision, Processes.Intends, ValidateState, IntentCommitted, PermitAllows, RevisionRecorded, ApplyRevision, AwaitsRevision,
        Revision.Supports, Revision.Explains, Revision.StartsCovered, Revision.CoveredThroughout, Revision.EndsCovered, Revision.Unspent,
        Revision.RevisionComplete, Revision.IsPlan, Revision.Executable, Revision.Revised, Revision.RevisionTrace, WentOut, SentAll, Quiet;
      if active { return Refused; }
      active := true;
      r := Refused;
      if ready && PermitAllows(permit, ProtectionRevision, request.revisionIntentId, request.current.symbol, request.current.quantity, proofHash, now) {
        var committed, version, staged := CommitIntent(Processes.Revise(request, bound), now);
        if committed {
          IntendedRevision(staged, request, bound);
          ghost var past := repository.commits;
          var result := revisions.Revise(ValidateRevision(request).value);
          repository.OtherWriters();
          RevisionApplies(staged, request, ValidateRevision(request).value, result, later);
          r := Record(ApplyRevision(staged, request, result, later), version, result);
          IntentLasts(old(repository.commits), past, repository.commits, Processes.Revise(request, bound));
        }
      }
      active := false;
    }

    /** `executeOwnedPositionClose`. Whatever comes back applies. */
    method ExecuteOwnedPositionClose(closeIntentId: string, bound: OwnedState.State, ready: bool, proofHash: string, permit: Permit,
                                     now: nat, later: nat) returns (r: Report<CloseResult>)
      requires Valid() && (ready ==> bound.pending.None? && bound.current.Some?)
      modifies this, repository, client
      ensures Valid() && active == old(active)
      ensures old(repository.commits) <= repository.commits && old(client.history) <= client.history
      ensures old(active) ==> r.Refused? && repository.commits == old(repository.commits)
      ensures r.Refused? ==> client.history == old(client.history) && client.requests == old(client.requests)
      ensures old(client.requests) <= client.requests && old(client.answers) <= client.answers
      ensures Serves(r,
        && !old(active) && ready && Takes(old(repository.Current()), Processes.Close(closeIntentId, bound))
        && PermitAllows(permit, OwnedPositionClose, closeIntentId, bound.current.value.symbol, bound.current.value.quantity, proofHash, now),
        repository.alone, |old(repository.commits)|, |repository.commits|)
      ensures !r.Refused? ==>
        && bound.current.Some?
        && IntentCommitted(old(repository.commits), repository.commits, Processes.Close(closeIntentId, bound))
        && ClosePlan(closeIntentId, bound).Some?
        && OwnedClose.Supports(ClosePlan(closeIntentId, bound).value, r.result) && OwnedClose.Explains(r.result, true)
      ensures !r.Refused? ==>
        OwnedClose.CloseTrace(ClosePlan(closeIntentId, bound).value, r.result, Trail(client.requests, client.answers, |old(client.answers)|), |old(client.requests)|)
      ensures !r.Unapplied?
      ensures r.Recorded? ==> CloseRecorded(repository.Current(), bound.current, ClosePlan(closeIntentId, bound).value, r.result, later)
      ensures !r.Refused? && client.truthful && OwnedClose.StartsOwned(old(client.venue), ClosePlan(closeIntentId, bound).value) ==>
        OwnedClose.KeptThroughout(old(client.history), client.history, ClosePlan(closeIntentId, bound).value)
      ensures !r.Refused? && client.truthful && r.result.state.Closed? ==> OwnedClose.CloseComplete(client.venue, ClosePlan(closeIntentId, bound).value)
      ensures !r.Refused? && client.prompt && client.answering && OwnedClose.Executable(old(client.venue), ClosePlan(closeIntentId, bound).value) ==>
        r.result.state.Closed? && client.venue == OwnedClose.ClosedOut(old(client.venue), ClosePlan(closeIntentId, bound).value)
    {
      hide Takes, IsState, ValidateClose, Processes.Intends, ValidateState, IntentCommitted, PermitAllows, CloseRecorded, ApplyClose, AwaitsClose,
        OwnedClose.Supports, OwnedClose.Explains, OwnedClose.StartsOwned, OwnedClose.KeptThroughout, OwnedClose.CloseComplete, OwnedClose.IsClosePlan,
        OwnedClose.Executable, OwnedClose.ClosedOut, OwnedClose.CloseTrace, OwnedClose.CloseOrder, WentOut, SentAll, Quiet, ProtectionGuard.Holds, OwnedClose.Flat, OwnedClose.Cover;
      if active { return Refused; }
      active := true;
      r := Refused;
      if ready && PermitAllows(permit, OwnedPositionClose, closeIntentId, bound.current.value.symbol, bound.current.value.quantity, proofHash, now) {
        var job := Processes.Close(closeIntentId, bound);
        var request := CloseRequest(closeIntentId, bound.current.value);
        var committed, version, staged := CommitIntent(job, now);
        if committed {
          IntendedClose(staged, job);
          ghost var past := repository.commits;
          var result := closes.CloseOwnedProtection(ValidateClose(request).value);
          repository.OtherWriters();
          CloseApplies(staged, request, ValidateClose(request).value, result, later);
          r := Record(ApplyClose(staged, request, result, later), version, result);
          IntentLasts(old(repository.commits), past, repository.commits, job);
        }
      }
      active := false;
    }

    /** `executeProtectedEntry`. On a truthful venue a result that comes back applies unless the entry itself
        was rejected; for arbitrary answers it applies exactly when its proofs are complete. */
    method ExecuteProtectedEntry(request: EntryRequest, ready: bool, proofHash: string, permit: Permit, now: nat, later: nat) returns (r: Report<EntryResult>)
      requires Valid()
      modifies this, repository, client
      ensures Valid() && active == old(active)
      ensures old(repository.commits) <= repository.commits && old(client.history) <= client.history
      ensures old(active) ==> r.Refused? && repository.commits == old(repository.commits)
      ensures r.Refused? ==> client.history == old(client.history) && client.requests == old(client.requests)
      ensures old(client.requests) <= client.requests && old(client.answers) <= client.answers
      ensures Serves(r,
        && !old(active) && ready && Takes(old(repository.Current()), Processes.Enter(request))
        && PermitAllows(permit, ProtectedEntry, request.intentId, request.symbol, request.quantity, proofHash, now),
        repository.alone, |old(repository.commits)|, |repository.commits|)
      ensures !r.Refused? ==>
        && IntentCommitted(old(repository.commits), repository.commits, Processes.Enter(request))
        && ValidateEntry(request).Some? && EntryCoordinator.Supports(ValidateEntry(request).value, r.result)
      ensures !r.Refused? ==>
        EntryCoordinator.EntryTrace(ValidateEntry(request).value, r.result, Trail(client.requests, client.answers, |old(client.answers)|), |old(client.requests)|)
      ensures !r.Refused? ==> (r.Unapplied? <==> r.result.state.RejectedBeforeExposure? || !EntryProofsHold(ValidateEntry(request).value, r.result))
      ensures r.Recorded? ==> EntryRecorded(repository.Current(), ValidateEntry(request).value, r.result, later)
      ensures !r.Refused? && client.truthful && EntryCoordinator.StartsFresh(old(client.venue), ValidateEntry(request).value) ==>
        && (r.Unapplied? ==> r.result.state.RejectedBeforeExposure?)
        && EntryCoordinator.RecoverableThroughout(old(client.history), client.history, ValidateEntry(request).value)
        && EntryCoordinator.Secured(client.mood, client.venue, ValidateEntry(request).value, r.result)
      ensures client.prompt && client.answering && client.truthful && !r.Refused? ==>
        EntryCoordinator.Executable(old(client.venue), ValidateEntry(request).value) ==> r.result.state.OpenProtected?
    {
      hide Takes, IsState, ValidateEntry, Processes.Intends, ValidateState, IntentCommitted, PermitAllows, EntryRecorded, ApplyEntry, AwaitsEntry, EntryProofsHold,
        EntryCoordinator.Supports, EntryCoordinator.StartsFresh, EntryCoordinator.RecoverableThroughout, EntryCoordinator.Secured, EntryCoordinator.IsEntryPlan,
        EntryCoordinator.OpenComplete, EntryCoordinator.Executable, EntryCoordinator.OpenedAt, EntryCoordinator.EntryTrace, EntryCoordinator.FlattenWasSent,
        EntryCoordinator.Closable, EntryCoordinator.ClosedAt, SentAll, Quiet;
      if active { return Refused; }
      active := true;
      r := Refused;
      if ready && PermitAllows(permit, ProtectedEntry, request.intentId, request.symbol, request.quantity, proofHash, now) {
        var committed, version, staged := CommitIntent(Processes.Enter(request), now);
        if committed {
          IntendedEntry(staged, request);
          ghost var past := repository.commits;
          var result := entries.CreateProtectedEntry(ValidateEntry(request).value);
          repository.OtherWriters();
          EntryApplies(staged, request, ValidateEntry(request).value, result, later);
          r := Record(ApplyEntry(staged, request, result, later), version, result);
          IntentLasts(old(repository.commits), past, repository.commits, Processes.Enter(request));
        }
      }
      active := false;
    }

    /** `recoverPending`, for a pending revision: what is recorded is what the venue proves, and it is the same
        as the finished live run would have recorded. */
    method RecoverRevision(version: nat, state: OwnedState.State, later: nat) returns (r: Report<RevisionResult>)
      requires Valid() && IsState(state) && state.pending.Some? && state.pending.value.PendingRevision?
      requires version == repository.version
      modifies repository, client
      ensures Valid() && old(repository.commits) <= repository.commits && Quiet(client.mood, old(client.history), client.history)
      ensures client.requests == old(client.requests) && old(client.answers) <= client.answers
      ensures ValidateRevision(state.pending.value.revision).Some? && (r.Recorded? || r.Conflicted?)
      ensures Revision.RecoveryTrace(Plan(state.pending.value.revision), r.result, Trail(client.requests, client.answers, |old(client.answers)|))
      ensures Finishes(r, repository.alone, |old(repository.commits)|, |repository.commits|)
      ensures r.Recorded? ==> RevisionRecorded(repository.Current(), state.current, Plan(state.pending.value.revision), r.result, later)
      ensures client.truthful && Revision.Recoverable(old(client.venue), Plan(state.pending.value.revision)) && IsDone(r.result.state) ==>
        NextCovers(client.venue, Plan(state.pending.value.revision))
      ensures client.answering && !client.mood.Wild? && Revision.RevisionComplete(old(client.venue), Plan(state.pending.value.revision)) ==>
        r.result.state.RevisionProtected?
    {
      hide IsState, ValidateRevision, ValidateState, RevisionRecorded, ApplyRevision, AwaitsRevision, Revision.Supports, Revision.Explains,
        Revision.Recoverable, Revision.RevisionComplete, Revision.IsPlan, Revision.RecoveryTrace, Quiet, SentAll;
      PendingPlans(state);
      var request := state.pending.value.revision;
      var result := revisions.Reconcile(ValidateRevision(request).value);
      repository.OtherWriters();
      RevisionApplies(state, request, ValidateRevision(request).value, result, later);
      NeverRejected(ValidateRevision(request).value, result);
      r := Record(ApplyRevision(state, request, result, later), version, result);
    }

    /** For a pending close. */
    method RecoverClose(version: nat, state: OwnedState.State, later: nat) returns (r: Report<CloseResult>)
      requires Valid() && IsState(state) && state.pending.Some? && state.pending.value.PendingClose?
      requires version == repository.version
      modifies repository, client
      ensures Valid() && old(repository.commits) <= repository.commits && Quiet(client.mood, old(client.history), client.history)
      ensures client.requests == old(client.requests) && old(client.answers) <= client.answers
      ensures ValidateClose(state.pending.value.close).Some? && (r.Recorded? || r.Conflicted?)
      ensures OwnedClose.RecoveryTrace(ValidateClose(state.pending.value.close).value, r.result, Trail(client.requests, client.answers, |old(client.answers)|))
      ensures Finishes(r, repository.alone, |old(repository.commits)|, |repository.commits|)
      ensures r.Recorded? ==> CloseRecorded(repository.Current(), state.current, ValidateClose(state.pending.value.close).value, r.result, later)
      ensures client.truthful && OwnedClose.Bounded(old(client.venue), ValidateClose(state.pending.value.close).value) && OwnedClose.IsClosed(r.result.state) ==>
        Exposure(client.venue, ValidateClose(state.pending.value.close).value.current.direction) == 0.0
      ensures client.answering && OwnedClose.CloseComplete(old(client.venue), ValidateClose(state.pending.value.close).value) ==> r.result.state.Closed?
    {
      hide IsState, ValidateClose, ValidateState, CloseRecorded, ApplyClose, AwaitsClose, OwnedClose.Supports, OwnedClose.Explains,
        OwnedClose.Bounded, OwnedClose.CloseComplete, OwnedClose.IsClosePlan, OwnedClose.RecoveryTrace, Quiet, SentAll;
      PendingPlans(state);
      var request := state.pending.value.close;
      var result := closes.ReconcileOwnedProtectionClose(ValidateClose(request).value);
      repository.OtherWriters();
      CloseApplies(state, request, ValidateClose(request).value, result, later);
      r := Record(ApplyClose(state, request, result, later), version, result);
    }

    /** For a pending entry: an open position is recorded only if it was not flattened. */
    method RecoverEntry(version: nat, state: OwnedState.State, later: nat) returns (r: Report<EntryResult>)
      requires Valid() && IsState(state) && state.pending.Some? && state.pending.value.PendingEntry?
      requires version == repository.version
      modifies repository, client
      ensures Valid() && old(repository.commits) <= repository.commits && Quiet(client.mood, old(client.history), client.history)
      ensures client.requests == old(client.requests) && old(client.answers) <= client.answers
      ensures ValidateEntry(state.pending.value.entry).Some? && !r.Refused?
      ensures EntryCoordinator.RecoveryTrace(ValidateEntry(state.pending.value.entry).value, r.result, Trail(client.requests, client.answers, |old(client.answers)|))
      ensures Finishes(r, repository.alone, |old(repository.commits)|, |repository.commits|)
      ensures r.Unapplied? <==> !EntryProofsHold(ValidateEntry(state.pending.value.entry).value, r.result)
      ensures r.Recorded? ==> EntryRecorded(repository.Current(), ValidateEntry(state.pending.value.entry).value, r.result, later)
      ensures client.truthful && EntryCoordinator.Recoverable(old(client.venue), ValidateEntry(state.pending.value.entry).value) ==>
        EntryCoordinator.RecoveredSoundly(client.mood, client.venue, ValidateEntry(state.pending.value.entry).value, r.result)
      ensures client.answering && !client.mood.Wild? && EntryCoordinator.OpenShown(old(client.venue), ValidateEntry(state.pending.value.entry).value) ==>
        r.result.state.OpenProtected?
    {
      hide IsState, ValidateEntry, ValidateState, EntryRecorded, ApplyEntry, AwaitsEntry, EntryProofsHold, EntryCoordinator.Supports,
        EntryCoordinator.Recoverable, EntryCoordinator.RecoveredSoundly, EntryCoordinator.OpenShown, EntryCoordinator.FlattenShown,
        EntryCoordinator.IsEntryPlan, EntryCoordinator.FlattenRecoversTo, EntryCoordinator.RecoveryTrace, Quiet, SentAll;
      PendingPlans(state);
      var request := state.pending.value.entry;
      var result := entries.ReconcileProtectedEntry(ValidateEntry(request).value);
      repository.OtherWriters();
      EntryApplies(state, request, ValidateEntry(request).value, result, later);
      r := Record(ApplyEntry(state, request, result, later), version, result);
    }

    /** `recoverPending`: it only queries the venue. */
    method RecoverPending(later: nat) returns (r: Recovery)
      requires Valid()
      modifies this, repository, client
      ensures Valid() && active == old(active)
      ensures old(repository.commits) <= repository.commits && Quiet(client.mood, old(client.history), client.history)
      ensures client.requests == old(client.requests) && old(client.answers) <= client.answers
      ensures r.Busy? <==> old(active)
      ensures r.NothingPending? <==> !old(active) && old(repository.Current()).pending.None?
      ensures Recovers(r, repository.alone, |old(repository.commits)|, |repository.commits|)
      ensures client.truthful && !r.Busy? && LeftSafe(old(client.venue), old(repository.Current())) ==>
        ClaimsSoundly(client.mood, client.venue, old(repository.Current()), r)
      ensures r.EntryRecovery? || r.RevisionRecovery? || r.CloseRecovery? ==> 
        RecoveredFrom(old(repository.Current()), repository.Current(), r, Trail(client.requests, client.answers, |old(client.answers)|), later)
      ensures client.answering && !client.mood.Wild? && !r.Busy? && LeftFinished(old(client.venue), old(repository.Current())) ==> ClaimsFinished(r)
    {
      hide IsState, ValidateEntry, ValidateRevision, ValidateClose, EntryRecorded, RevisionRecorded, CloseRecorded, EntryProofsHold,
        Revision.RevisionComplete, OwnedClose.CloseComplete, EntryCoordinator.OpenShown, EntryCoordinator.RecoveredSoundly, Revision.Recoverable,
        EntryCoordinator.Recoverable, OwnedClose.Bounded, NextCovers, Revision.RecoveryTrace, OwnedClose.RecoveryTrace, EntryCoordinator.RecoveryTrace, SentAll;
      if active { return Busy; }
      active := true;
      var version, state := repository.Load();
      if state.pending.None? {
        r := NothingPending;
      } else if state.pending.value.PendingEntry? {
        var report := RecoverEntry(version, state, later);
        r := EntryRecovery(report);
      } else if state.pending.value.PendingRevision? {
        var report := RecoverRevision(version, state, later);
        r := RevisionRecovery(report);
      } else {
        var report := RecoverClose(version, state, later);
        r := CloseRecovery(report);
      }
      active := false;
    }
  }
}
