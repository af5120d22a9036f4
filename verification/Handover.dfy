/** What each operation leaves at the venue is what the next one starts from: an opened position is covered when
    it is first revised or closed, and so is a revised one. New identities have not been used before. */
module Handover {
  import opened Wrappers
  import opened DecimalText
  import opened MutationContract
  import opened Evidence
  import opened Venue
  import opened ProtectionGuard
  import opened OwnedState
  import opened Lifecycle
  import Revision
  import OwnedClose
  import EntryCoordinator

  /** A covered position, seen through the guard of another reduce-only order that was never sent. */
  lemma {:induction false} CoverUnderOther(v: Venue.State, g: Guard, stopId: string, size: real, reduceId: string)
    requires Holds(v, IsCovered(g, stopId, size)) && Holds(v, NotSent(reduceId))
    ensures Holds(v, IsCovered(Guard(g.direction, size, reduceId), stopId, size))
  {
    hide IsPlain, Value;
  }

  /** An open position that the record owns is covered by its own stop, at the owned quantity. */
  lemma {:induction false} OpenIsOwned(mood: Mood, v: Venue.State, p: ValidatedEntry, r: EntryResult)
    requires EntryCoordinator.IsEntryPlan(p) && EntryCoordinator.Supports(p, r) && EntryProofsHold(p, r)
    requires r.state.OpenProtected? && EntryCoordinator.Secured(mood, v, p, r)
    ensures var c := OpenedBy(p);
      Holds(v, IsCovered(Guard(c.direction, Amount(c.quantity), p.ids.emergencyClose), c.stopId, Amount(c.quantity)))
  {
    hide EntryCoordinator.IsEntryPlan, EntryCoordinator.Supports, EntryProofsHold, Covers, Contained, IsPlain, Value, DecimalEquals;
    EntryCoordinator.EntryAgreement(p, r);
    EntryCoordinator.PlanNumbers(p);
    ExecutedIsPlain(p, r);
    DecimalEqualsDecides(r.entry.value.executedQuantity, p.quantity);
  }

  lemma {:induction false} ExecutedIsPlain(p: ValidatedEntry, r: EntryResult)
    requires EntryCoordinator.Supports(p, r) && r.state.OpenProtected?
    ensures r.entry.Some? && IsPlain(r.entry.value.executedQuantity)
  {
    hide IsPlain, Value, CanonicalPositive, AlgoProofMatches, DecimalEquals;
    CanonicalPositiveIff(r.entry.value.executedQuantity);
  }

  /** From opening to the first revision, and to a close. */
  lemma {:induction false} OpenStartsCovered(mood: Mood, v: Venue.State, p: ValidatedEntry, r: EntryResult, q: ValidatedRevision)
    requires EntryCoordinator.IsEntryPlan(p) && EntryCoordinator.Supports(p, r) && EntryProofsHold(p, r)
    requires r.state.OpenProtected? && EntryCoordinator.Secured(mood, v, p, r)
    requires q.current == OpenedBy(p) && Holds(v, NotSent(q.ids.reduction)) && Holds(v, NotCancelling(q.ids.stop))
    ensures Revision.StartsCovered(v, q)
  {
    hide EntryCoordinator.IsEntryPlan, EntryCoordinator.Supports, EntryCoordinator.Secured, EntryProofsHold, Covers, Contained, IsPlain, Value;
    OpenIsOwned(mood, v, p, r);
    CoverUnderOther(v, Guard(p.direction, Amount(p.quantity), p.ids.emergencyClose), p.ids.stop, Amount(p.quantity), q.ids.reduction);
  }

  lemma {:induction false} OpenStartsOwned(mood: Mood, v: Venue.State, p: ValidatedEntry, r: EntryResult, c: ValidatedClose)
    requires EntryCoordinator.IsEntryPlan(p) && EntryCoordinator.Supports(p, r) && EntryProofsHold(p, r)
    requires r.state.OpenProtected? && EntryCoordinator.Secured(mood, v, p, r) && EntryCoordinator.Recoverable(v, p)
    requires c.current == OpenedBy(p) && Holds(v, NotSent(c.closeId))
    ensures OwnedClose.StartsOwned(v, c)
  {
    hide EntryCoordinator.IsEntryPlan, EntryCoordinator.Supports, EntryCoordinator.Secured, EntryProofsHold, Covers, Contained, IsPlain, Value,
      EntryCoordinator.Exclusive;
    OpenIsOwned(mood, v, p, r);
    CoverUnderOther(v, Guard(p.direction, Amount(p.quantity), p.ids.emergencyClose), p.ids.stop, Amount(p.quantity), c.closeId);
    assert NotCancelling(p.ids.target) in EntryCoordinator.Common(p);
  }

  /** From one revision to the next, and to a close. */
  lemma {:induction false} RevisedStartsCovered(v: Venue.State, q: ValidatedRevision, state: RevisionOutcome, next: ValidatedRevision)
    requires Revision.EndsCovered(v, q, state) && next.current == (if IsDone(state) then NextOwned(q) else q.current)
    requires Holds(v, NotSent(next.ids.reduction)) && Holds(v, NotCancelling(next.ids.stop))
    ensures Revision.StartsCovered(v, next)
  {
    hide Covers, Contained, IsPlain, Value;
    RevisedCover(v, q, state, next.ids.reduction);
  }

  lemma {:induction false} RevisedStartsOwned(v: Venue.State, q: ValidatedRevision, state: RevisionOutcome, c: ValidatedClose)
    requires Revision.EndsCovered(v, q, state) && c.current == (if IsDone(state) then NextOwned(q) else q.current)
    requires Holds(v, NotSent(c.closeId)) && Holds(v, NotCancelling(c.current.targetId))
    ensures OwnedClose.StartsOwned(v, c)
  {
    hide Covers, Contained, IsPlain, Value;
    RevisedCover(v, q, state, c.closeId);
  }

  lemma {:induction false} RevisedCover(v: Venue.State, q: ValidatedRevision, state: RevisionOutcome, reduceId: string)
    requires Revision.EndsCovered(v, q, state) && Holds(v, NotSent(reduceId))
    ensures var c := if IsDone(state) then NextOwned(q) else q.current;
      Holds(v, IsCovered(Guard(c.direction, Amount(c.quantity), reduceId), c.stopId, Amount(c.quantity)))
  {
    hide Covers, Contained, IsPlain, Value;
    var f := if IsDone(state) then Revision.NextCover(q) else Revision.CurrentCover(q);
    CoverUnderOther(v, f.guard, f.stopId, f.size, reduceId);
  }
}
