/** A process dies and another recovers over the same store. At whatever await the crash happens, recovery only
    queries, and what it claims is so; after the last venue call, on a quiet venue that answers, the recovered
    result and the lost one agree. */
module CrashRecovery {
  import opened Wrappers
  import opened MutationContract
  import opened Evidence
  import opened Venue
  import opened OwnedState
  import opened Lifecycle
  import opened Orchestrator
  import Revision
  import OwnedClose
  import EntryCoordinator

  // ---------------------------------------------------------------- a crash at any await

  /** A point of the history passed through since then. */
  ghost predicate IsCut(past: seq<Venue.State>, h: seq<Venue.State>, at: nat) {
    past != [] && past <= h && |past| - 1 <= at < |h|
  }

  method PickCut(from: nat, length: nat) returns (at: nat)
    requires from < length
    ensures from <= at < length
  {
    at := *;
    if at < from || length <= at { at := from; }
  }

  /** A live revision crashes at any await. */
  method CutRevision(live: Revision.RevisionCoordinator, p: ValidatedRevision) returns (at: nat)
    requires live.client.Valid() && Revision.IsPlan(p) && live.client.truthful && Revision.StartsCovered(live.client.venue, p)
    modifies live.client
    ensures live.client.Valid() && IsCut(old(live.client.history), live.client.history, at) && Revision.Covered(live.client.history[at], p)
  {
    hide Revision.RevisionTrace, WentOut, SentAll, Quiet, Revision.RevisionComplete, Revision.Supports, Revision.Explains, Revision.Unspent,
      Revision.IsPlan, Revision.StartsCovered, Revision.EndsCovered, Revision.Covered, Revision.CurrentPairActive, Revision.Executable;
    var first := |live.client.history| - 1;
    var lost := live.Revise(p);
    at := PickCut(first, |live.client.history|);
  }

  /** The position stays covered, a revision recovery calls proven is covered by its own stop, and the durable
      record moves to the next position exactly then. */
  method CrashedRevision(live: Revision.RevisionCoordinator, p: ValidatedRevision, store: Repository, mood: Mood, answering: bool, later: nat)
    returns (at: nat, venue: Venue.State, ghost h: seq<Venue.State>, recovered: Recovery)
    requires live.client.Valid() && store.Valid() && AwaitsRevision(store.Current(), p) && Revision.IsPlan(p)
    requires live.client.truthful && Revision.StartsCovered(live.client.venue, p)
    modifies live.client, store
    ensures store.Valid() && IsCut(old(live.client.history), live.client.history, at)
    ensures Quiet(mood, [live.client.history[at]], h) && h != [] && venue == h[|h| - 1]
    ensures Revision.Covered(live.client.history[at], p) && Revision.Covered(venue, p)
    ensures recovered.RevisionRecovery? && (recovered.revision.Recorded? || recovered.revision.Conflicted?)
    ensures IsDone(recovered.revision.result.state) ==> NextCovers(venue, p)
    ensures recovered.revision.Recorded? ==> RevisionRecorded(store.Current(), old(store.Current()).current, p, recovered.revision.result, later)
    ensures recovered.revision.Conflicted? ==> |old(store.commits)| < |store.commits|
    ensures store.alone ==> recovered.revision.Recorded? && |store.commits| == |old(store.commits)| + 1
  {
    hide Revision.RecoveryTrace, SentAll, IsState, ValidateRevision, Revision.RevisionComplete, Revision.IsPlan,
      Revision.StartsCovered, Revision.Covered, Revision.Recoverable, ValidateState, RevisionRecorded, NextCovers, EnvPath;
    at := CutRevision(live, p);
    Revision.CoveredIsRecoverable(live.client.history[at], p);
    var client := new Client(live.client.history[at], true, answering, false, mood);
    var next := new TestnetOrchestrator(store, client);
    recovered := next.RecoverPending(later);
    venue, h := client.venue, client.history;
    Revision.CoveredStays(mood, [live.client.history[at]], h, p);
  }

  /** A live close crashes at any await. */
  method CutClose(live: OwnedClose.OwnedCloseCoordinator, p: ValidatedClose) returns (at: nat)
    requires live.client.Valid() && OwnedClose.IsClosePlan(p) && live.client.truthful && OwnedClose.StartsOwned(live.client.venue, p)
    modifies live.client
    ensures live.client.Valid() && IsCut(old(live.client.history), live.client.history, at) && OwnedClose.Kept(live.client.history[at], p)
  {
    hide OwnedClose.CloseTrace, OwnedClose.CloseOrder, WentOut, SentAll, Quiet, OwnedClose.CloseComplete, OwnedClose.Supports, OwnedClose.Explains,
      OwnedClose.IsClosePlan, OwnedClose.StartsOwned, OwnedClose.Kept, OwnedClose.Flat, OwnedClose.Cover, OwnedClose.IsClosed, OwnedClose.CurrentPairActive;
    var first := |live.client.history| - 1;
    var lost := live.CloseOwnedProtection(p);
    at := PickCut(first, |live.client.history|);
  }

  /** While the position is not flat its stop covers it and nothing cancels its orders; a close recovery calls
      proven has emptied the position; ownership ends exactly with a recovery that is `closed`. */
  method CrashedClose(live: OwnedClose.OwnedCloseCoordinator, p: ValidatedClose, store: Repository, mood: Mood, answering: bool, later: nat)
    returns (at: nat, venue: Venue.State, ghost h: seq<Venue.State>, recovered: Recovery)
    requires live.client.Valid() && store.Valid() && AwaitsClose(store.Current(), p) && OwnedClose.IsClosePlan(p)
    requires live.client.truthful && OwnedClose.StartsOwned(live.client.venue, p)
    modifies live.client, store
    ensures store.Valid() && IsCut(old(live.client.history), live.client.history, at)
    ensures Quiet(mood, [live.client.history[at]], h) && h != [] && venue == h[|h| - 1]
    ensures OwnedClose.Kept(live.client.history[at], p) && OwnedClose.Kept(venue, p)
    ensures recovered.CloseRecovery? && (recovered.close.Recorded? || recovered.close.Conflicted?)
    ensures OwnedClose.IsClosed(recovered.close.result.state) ==> Exposure(venue, p.current.direction) == 0.0
    ensures recovered.close.Recorded? ==> CloseRecorded(store.Current(), old(store.Current()).current, p, recovered.close.result, later)
    ensures recovered.close.Conflicted? ==> |old(store.commits)| < |store.commits|
    ensures store.alone ==> recovered.close.Recorded? && |store.commits| == |old(store.commits)| + 1
  {
    hide OwnedClose.RecoveryTrace, WentOut, SentAll, IsState, ValidateClose, OwnedClose.CloseComplete, OwnedClose.IsClosePlan,
      OwnedClose.StartsOwned, OwnedClose.Kept, OwnedClose.Bounded, OwnedClose.Flat, OwnedClose.Cover, OwnedClose.IsClosed, ValidateState, CloseRecorded,
      LeftFinished, ClaimsFinished, EnvPath;
    at := CutClose(live, p);
    OwnedClose.KeptIsBounded(live.client.history[at], p);
    var client := new Client(live.client.history[at], true, answering, false, mood);
    var next := new TestnetOrchestrator(store, client);
    recovered := next.RecoverPending(later);
    venue, h := client.venue, client.history;
    OwnedClose.KeptStays(mood, [live.client.history[at]], h, p);
  }

  /** An entry recovery calls open is covered, proven to the record's satisfaction and was not flattened; one it
      calls flattened leaves at most what the entry has filled since; ownership begins exactly with a recovery
      that is `open_protected`. */
  method CrashedEntry(live: EntryCoordinator.EntryProtection, p: ValidatedEntry, store: Repository, mood: Mood, answering: bool, later: nat)
    returns (at: nat, venue: Venue.State, ghost h: seq<Venue.State>, recovered: Recovery)
    requires live.client.Valid() && store.Valid() && AwaitsEntry(store.Current(), p) && EntryCoordinator.IsEntryPlan(p)
    requires live.client.truthful && EntryCoordinator.StartsFresh(live.client.venue, p)
    modifies live.client, store
    ensures store.Valid() && IsCut(old(live.client.history), live.client.history, at)
    ensures Quiet(mood, [live.client.history[at]], h) && h != [] && venue == h[|h| - 1]
    ensures EntryCoordinator.Recoverable(live.client.history[at], p) && EntryCoordinator.Recoverable(venue, p)
    ensures recovered.EntryRecovery? && !recovered.entry.Refused?
    ensures EntryCoordinator.RecoveredSoundly(mood, venue, p, recovered.entry.result)
    ensures recovered.entry.Unapplied? <==> !EntryProofsHold(p, recovered.entry.result)
    ensures recovered.entry.Recorded? ==> EntryRecorded(store.Current(), p, recovered.entry.result, later)
    ensures recovered.entry.Conflicted? ==> |old(store.commits)| < |store.commits|
    ensures store.alone ==> !recovered.entry.Conflicted? && |store.commits| == |old(store.commits)| + (if recovered.entry.Recorded? then 1 else 0)
  {
    hide EntryCoordinator.EntryTrace, EntryCoordinator.RecoveryTrace, EntryCoordinator.FlattenWasSent, EntryCoordinator.Closable, SentAll, IsState, ValidateEntry, EntryCoordinator.OpenComplete, EntryCoordinator.OpenShown, EntryCoordinator.IsEntryPlan, AlgoProofMatches,
      EntryCoordinator.StartsFresh, EntryCoordinator.Secured, EntryCoordinator.Recoverable, EntryCoordinator.RecoveredSoundly, EntryProofsHold, ValidateState,
      EntryRecorded, EnvPath;
    var first := |live.client.history| - 1;
    var lost := live.CreateProtectedEntry(p);
    at := PickCut(first, |live.client.history|);
    var client := new Client(live.client.history[at], true, answering, false, mood);
    var next := new TestnetOrchestrator(store, client);
    recovered := next.RecoverPending(later);
    venue, h := client.venue, client.history;
    EntryCoordinator.RecoverableStays(mood, [live.client.history[at]], h, p);
  }

  // ---------------------------------------------------------------- a crash after the last venue call

  /** The record the lost result would have made. */
  ghost predicate Agrees(lost: Result<OwnedState.State, string>, store: OwnedState.State) {
    lost.Success? && lost.value.current == store.current && lost.value.pending.None? && store.pending.None?
  }

  method LostRevision(live: Revision.RevisionCoordinator, p: ValidatedRevision, store: Repository, later: nat)
    returns (lost: RevisionResult, recovered: Recovery)
    requires live.client.Valid() && store.Valid() && AwaitsRevision(store.Current(), p) && Revision.IsPlan(p)
    requires live.client.truthful && !live.client.mood.Wild? && Revision.Unspent(live.client.venue, p)
    modifies live.client, store
    ensures lost.state.RevisionProtected? ==>
      && recovered.RevisionRecovery? && !recovered.revision.Refused? && recovered.revision.result.state.RevisionProtected?
      && (recovered.revision.Conflicted? ==> |old(store.commits)| < |store.commits|)
      && (store.alone ==> recovered.revision.Recorded?)
      && (recovered.revision.Recorded? ==>
            Agrees(ApplyRevision(old(store.Current()), old(store.Current()).pending.value.revision, lost, later), store.Current()))
  {
    hide Revision.RevisionTrace, Revision.RecoveryTrace, WentOut, SentAll, IsState, ValidateRevision, Revision.RevisionComplete, Revision.Supports, Revision.Explains, Revision.Unspent, Revision.IsPlan, ApplyRevision,
      Revision.StartsCovered, Revision.EndsCovered, Revision.CoveredThroughout, ValidateState;
    ghost var before := store.Current();
    lost := live.Revise(p);
    RevisionApplies(before, before.pending.value.revision, p, lost, later);
    var quiet := new Client(live.client.venue, true, true, false, Calm(true));
    var next := new TestnetOrchestrator(store, quiet);
    recovered := next.RecoverPending(later);
  }

  method LostClose(live: OwnedClose.OwnedCloseCoordinator, p: ValidatedClose, store: Repository, later: nat)
    returns (lost: CloseResult, recovered: Recovery)
    requires live.client.Valid() && store.Valid() && AwaitsClose(store.Current(), p) && OwnedClose.IsClosePlan(p)
    requires live.client.truthful
    modifies live.client, store
    ensures lost.state.Closed? ==>
      && recovered.CloseRecovery? && !recovered.close.Refused? && recovered.close.result.state.Closed?
      && (recovered.close.Conflicted? ==> |old(store.commits)| < |store.commits|)
      && (store.alone ==> recovered.close.Recorded?)
      && (recovered.close.Recorded? ==>
            Agrees(ApplyClose(old(store.Current()), old(store.Current()).pending.value.close, lost, later), store.Current()))
  {
    hide OwnedClose.CloseTrace, OwnedClose.CloseOrder, OwnedClose.RecoveryTrace, WentOut, SentAll, IsState, ValidateClose, OwnedClose.CloseComplete, OwnedClose.Supports, OwnedClose.Explains, OwnedClose.IsClosePlan, ApplyClose,
      OwnedClose.StartsOwned, OwnedClose.KeptThroughout, ValidateState;
    ghost var before := store.Current();
    lost := live.CloseOwnedProtection(p);
    CloseApplies(before, before.pending.value.close, p, lost, later);
    var quiet := new Client(live.client.venue, true, true, false, Calm(true));
    var next := new TestnetOrchestrator(store, quiet);
    recovered := next.RecoverPending(later);
  }

  lemma {:induction false} OpenAgrees(before: OwnedState.State, p: ValidatedEntry, lost: EntryResult, after: OwnedState.State, recovered: EntryResult, later: nat)
    requires AwaitsEntry(before, p) && EntryCoordinator.Supports(p, lost) && EntryProofsHold(p, lost)
    requires lost.state.OpenProtected? && recovered.state.OpenProtected? && EntryRecorded(after, p, recovered, later)
    ensures Agrees(ApplyEntry(before, before.pending.value.entry, lost, later), after)
  {
    hide IsState, ValidateEntry, EntryCoordinator.Supports, EntryProofsHold, ApplyEntry, ValidateState;
    EntryApplies(before, before.pending.value.entry, p, lost, later);
  }

  lemma {:induction false} OpenHasEntry(p: ValidatedEntry, r: EntryResult)
    requires EntryCoordinator.Supports(p, r)
    ensures r.state.OpenProtected? ==> r.entry.Some?
  {
    hide AlgoProofMatches;
  }

  method LostEntry(live: EntryCoordinator.EntryProtection, p: ValidatedEntry, store: Repository, later: nat)
    returns (lost: EntryResult, recovered: Recovery)
    requires live.client.Valid() && store.Valid() && AwaitsEntry(store.Current(), p) && EntryCoordinator.IsEntryPlan(p)
    requires live.client.truthful && !live.client.mood.Wild? && EntryCoordinator.StartsFresh(live.client.venue, p)
    modifies live.client, store
    ensures lost.state.OpenProtected? ==>
      && recovered.EntryRecovery? && !recovered.entry.Refused? && recovered.entry.result.state.OpenProtected?
      && (recovered.entry.Conflicted? ==> |old(store.commits)| < |store.commits|)
      && (store.alone ==> recovered.entry.Recorded?)
      && (recovered.entry.Recorded? ==>
            Agrees(ApplyEntry(old(store.Current()), old(store.Current()).pending.value.entry, lost, later), store.Current()))
  {
    hide EntryCoordinator.EntryTrace, EntryCoordinator.RecoveryTrace, EntryCoordinator.FlattenWasSent, EntryCoordinator.Closable, SentAll, IsState, ValidateEntry, EntryCoordinator.OpenComplete, EntryCoordinator.OpenShown, EntryCoordinator.IsEntryPlan, ApplyEntry, AlgoProofMatches,
      EntryCoordinator.StartsFresh, EntryCoordinator.Recoverable, EntryCoordinator.RecoveredSoundly, EntryCoordinator.Secured, EntryProofsHold, EntryRecorded, Agrees, ValidateState, EnvPath,
      EntryCoordinator.StartsBalanced, EntryCoordinator.LeavesExactly, EntryCoordinator.Supports;
    ghost var before := store.Current();
    lost := live.CreateProtectedEntry(p);
    OpenHasEntry(p, lost);
    if lost.state.OpenProtected? { EntryCoordinator.CompleteIsShown(live.client.venue, p, lost.entry.value.executedQuantity, true); }
    var quiet := new Client(live.client.venue, true, true, false, Calm(true));
    var next := new TestnetOrchestrator(store, quiet);
    recovered := next.RecoverPending(later);
    if lost.state.OpenProtected? {
      EntryCoordinator.SoundOpenIsProven(Calm(true), quiet.venue, p, recovered.entry.result);
      if recovered.entry.Recorded? { OpenAgrees(before, p, lost, store.Current(), recovered.entry.result, later); }
    }
  }
}
