/** Any number of orchestrator processes over one versioned store: they load, stage and save an intent,
    call the venue, apply and save the result, recover, or die at any point in between. */
module Processes {
  import opened Wrappers
  import opened MutationContract
  import opened Evidence
  import opened OwnedState
  import opened Lifecycle

  /** What a process was asked to do. A management plan and a close binding name the durable state they were
      compiled against; the source compares hashes of canonical states, which this model takes to be injective. */
  datatype Job =
    | Enter(entry: EntryRequest)
    | Revise(revision: RevisionRequest, bound: State)
    | Close(closeIntentId: string, bound: State)

  datatype Reply = EntryReply(entryResult: EntryResult) | RevisionReply(revisionResult: RevisionResult) | CloseReply(closeResult: CloseResult)

  /** Ready plans and bindings are compiled from a state with nothing pending, and a close from one with an owner. */
  predicate Ready(job: Job) {
    match job
    case Enter(_) => true
    case Revise(_, bound) => bound.pending.None?
    case Close(_, bound) => bound.pending.None? && bound.current.Some?
  }

  predicate BoundTo(job: Job, s: State) { job.Enter? || job.bound == s }

  function CloseRequestFor(job: Job): CloseRequest
    requires job.Close? && Ready(job)
  {
    CloseRequest(job.closeIntentId, job.bound.current.value)
  }

  function Staged(s: State, job: Job, now: nat): Result<State, string>
    requires Ready(job)
  {
    match job
    case Enter(request) => StageEntry(s, request, now)
    case Revise(request, _) => StageRevision(s, request, now)
    case Close(_, _) => StageClose(s, CloseRequestFor(job), now)
  }

  function StageEvent(job: Job, now: nat): Event
    requires Ready(job)
  {
    match job
    case Enter(request) => EntryStaged(request, now)
    case Revise(request, _) => RevisionStaged(request, now)
    case Close(_, _) => CloseStaged(CloseRequestFor(job), now)
  }

  function Applied(s: State, job: Job, reply: Reply, now: nat): Result<State, string>
    requires Ready(job)
  {
    match (job, reply)
    case (Enter(request), EntryReply(r)) => ApplyEntry(s, request, r, now)
    case (Revise(request, _), RevisionReply(r)) => ApplyRevision(s, request, r, now)
    case (Close(_, _), CloseReply(r)) => ApplyClose(s, CloseRequestFor(job), r, now)
    case _ => Failure("result of another operation")
  }

  function ApplyEvent(reply: Reply, now: nat): Event {
    match reply
    case EntryReply(r) => EntryApplied(r, now)
    case RevisionReply(r) => RevisionApplied(r, now)
    case CloseReply(r) => CloseApplied(r, now)
  }

  /** `recoverPending` applies the query result to the pending request itself. */
  function Recovered(s: State, reply: Reply, now: nat): Result<State, string> {
    if s.pending.None? then Failure("nothing pending")
    else match (s.pending.value, reply)
      case (PendingEntry(_, _, _, request), EntryReply(r)) => ApplyEntry(s, request, r, now)
      case (PendingRevision(_, _, _, request), RevisionReply(r)) => ApplyRevision(s, request, r, now)
      case (PendingClose(_, _, _, request), CloseReply(r)) => ApplyClose(s, request, r, now)
      case _ => Failure("result of another operation")
  }

  // ---------------------------------------------------------------- the machine

  /** Where a process stands; a snapshot is a storage version and the state stored there. */
  datatype Phase =
    | Idle
    | Loaded(job: Job, version: nat, state: State)
    | Committed(job: Job, version: nat, state: State)
    | Calling(job: Job, version: nat, state: State)
    | Recovering(version: nat, state: State)

  /** A mutating effect that was called, and the commit it was called under. */
  datatype Call = Call(job: Job, at: nat)

  /** The store as the sequence of all values committed to it, indexed by version; the processes; and what
      has been called and recorded. */
  datatype World = World(commits: seq<State>, procs: map<nat, Phase>, calls: seq<Call>, trace: seq<Event>)

  datatype Action =
    | Begin(pid: nat, job: Job)
    | BeginRecovery(pid: nat)
    | Stage(pid: nat, now: nat)
    | Invoke(pid: nat)
    | Finish(pid: nat, reply: Reply, now: nat)
    | FinishRecovery(pid: nat, reply: Reply, now: nat)
    | Crash(pid: nat)

  const START: World := World([INITIAL], map[], [], [])

  function PhaseOf(w: World, pid: nat): Phase { if pid in w.procs then w.procs[pid] else Idle }

  function Put(w: World, pid: nat, phase: Phase): World { w.(procs := w.procs[pid := phase]) }

  /** `compareAndSetRuntimeState`, and the event it records. */
  function CompareAndSet(w: World, expected: nat, next: Result<State, string>, e: Event): Option<World> {
    if next.Failure? || expected != |w.commits| - 1 then None
    else Some(w.(commits := w.commits + [next.value], trace := w.trace + [e]))
  }

  /** One step of one process; a step that throws, or whose write conflicts, ends its operation. */
  function Step(w: World, a: Action): (x: World)
    requires w.commits != []
    ensures x.commits != []
  {
    var version, state := |w.commits| - 1, w.commits[|w.commits| - 1];
    match a
    case Begin(pid, job) =>
      if !PhaseOf(w, pid).Idle? || !Ready(job) || !BoundTo(job, state) then w else Put(w, pid, Loaded(job, version, state))
    case BeginRecovery(pid) =>
      if !PhaseOf(w, pid).Idle? || state.pending.None? then w else Put(w, pid, Recovering(version, state))
    case Stage(pid, now) =>
      (match PhaseOf(w, pid)
       case Loaded(job, v, s) =>
         if !Ready(job) then w
         else
           var next := Staged(s, job, now);
           var saved := CompareAndSet(w, v, next, StageEvent(job, now));
           if saved.None? then Put(w, pid, Idle) else Put(saved.value, pid, Committed(job, v + 1, next.value))
       case _ => w)
    case Invoke(pid) =>
      (match PhaseOf(w, pid)
       case Committed(job, v, s) => Put(w.(calls := w.calls + [Call(job, v)]), pid, Calling(job, v, s))
       case _ => w)
    case Finish(pid, reply, now) =>
      (match PhaseOf(w, pid)
       case Calling(job, v, s) =>
         if !Ready(job) then w
         else
           var saved := CompareAndSet(w, v, Applied(s, job, reply, now), ApplyEvent(reply, now));
           Put(if saved.None? then w else saved.value, pid, Idle)
       case _ => w)
    case FinishRecovery(pid, reply, now) =>
      (match PhaseOf(w, pid)
       case Recovering(v, s) =>
         var saved := CompareAndSet(w, v, Recovered(s, reply, now), ApplyEvent(reply, now));
         Put(if saved.None? then w else saved.value, pid, Idle)
       case _ => w)
    case Crash(pid) => Put(w, pid, Idle)
  }

  /** What is stored now. */
  function Current(w: World): State
    requires w.commits != []
  {
    w.commits[|w.commits| - 1]
  }

  function Run(actions: seq<Action>): (w: World)
    ensures w.commits != []
    decreases |actions|
  {
    if actions == [] then START else Step(Run(actions[..|actions| - 1]), actions[|actions| - 1])
  }

  // ---------------------------------------------------------------- what every run keeps

  /** The canonical request of this job is what is pending. */
  predicate Intends(s: State, job: Job) {
    && Ready(job) && IsState(s) && s.pending.Some?
    && match job
       case Enter(request) =>
         ValidateEntry(request).Some? && s.pending.value.PendingEntry? && s.pending.value.entry == EntryRequestOf(ValidateEntry(request).value)
       case Revise(request, _) =>
         ValidateRevision(request).Some? && s.pending.value.PendingRevision? && s.pending.value.revision == RevisionRequestOf(ValidateRevision(request).value)
       case Close(_, _) =>
         var request := CloseRequestFor(job);
         ValidateClose(request).Some? && s.pending.value.PendingClose? && s.pending.value.close == CloseRequestOf(ValidateClose(request).value)
  }

  /** Version `at` committed the job's intent; a revision's or close's over the very state it was bound to. */
  predicate CommittedAt(commits: seq<State>, at: nat, job: Job) {
    && at < |commits| && Intends(commits[at], job)
    && (!job.Enter? ==> at > 0 && commits[at - 1] == job.bound && commits[at].sequence == job.bound.sequence + 1)
  }

  predicate PhaseHolds(w: World, phase: Phase) {
    match phase
    case Idle => true
    case Loaded(job, v, s) => v < |w.commits| && w.commits[v] == s && Ready(job) && BoundTo(job, s)
    case Committed(job, v, s) => CommittedAt(w.commits, v, job) && w.commits[v] == s && forall i :: 0 <= i < |w.calls| ==> w.calls[i].at != v
    case Calling(job, v, s) => CommittedAt(w.commits, v, job) && w.commits[v] == s
    case Recovering(v, s) => v < |w.commits| && w.commits[v] == s
  }

  predicate Advances(s: State, t: State) { t == s || t.sequence == s.sequence + 1 }

  predicate StoreHolds(w: World) {
    && w.commits != []
    && (forall i :: 0 <= i < |w.commits| ==> IsState(w.commits[i]))
    && (forall i :: 0 < i < |w.commits| ==> Advances(w.commits[i - 1], w.commits[i]))
    && w.commits[|w.commits| - 1] == RunState(w.trace)
  }

  predicate CallsHold(w: World) {
    && (forall i :: 0 <= i < |w.calls| ==> CommittedAt(w.commits, w.calls[i].at, w.calls[i].job))
    && (forall i, j :: 0 <= i < j < |w.calls| ==> w.calls[i].at != w.calls[j].at)
  }

  predicate ProcsHold(w: World) {
    && (forall pid :: pid in w.procs ==> PhaseHolds(w, w.procs[pid]))
    && (forall p, q :: p in w.procs && q in w.procs && p != q && w.procs[p].Committed? && w.procs[q].Committed? ==> w.procs[p].version != w.procs[q].version)
  }

  predicate Invariant(w: World) { StoreHolds(w) && CallsHold(w) && ProcsHold(w) }

  // ---------------------------------------------------------------- what one commit does

  /** Staging commits the job's canonical intent; over a bound state it is a new transition. */
  lemma {:induction false} StagedMeaning(s: State, job: Job, now: nat)
    requires IsState(s) && Ready(job) && BoundTo(job, s) && Staged(s, job, now).Success?
    ensures var t := Staged(s, job, now).value;
      && Intends(t, job) && Advances(s, t) && t == After(s, StageEvent(job, now)) && t.current == s.current
      && (!job.Enter? ==> t.sequence == s.sequence + 1)
  {
    hide IsState, ValidateEntry, ValidateRevision, ValidateClose, StageEntry, StageRevision, StageClose;
    match job {
      case Enter(request) => EntryStages(s, request, now);
      case Revise(request, _) => StageRevisionMeaning(s, request, now); AwaitsRevisionIntends(Staged(s, job, now).value, ValidateRevision(request).value);
      case Close(_, _) => StageCloseMeaning(s, CloseRequestFor(job), now); AwaitsCloseIntends(Staged(s, job, now).value, ValidateClose(CloseRequestFor(job)).value);
    }
  }

  lemma {:induction false} EntryStages(s: State, request: EntryRequest, now: nat)
    requires IsState(s) && StageEntry(s, request, now).Success?
    ensures var t := StageEntry(s, request, now).value; Intends(t, Enter(request)) && Advances(s, t) && t.current == s.current
  {
    hide IsState, ValidateEntry, ValidateState, NextState, CanonicalPending, ValidateOwned;
    if s.pending.None? {
      StageEntryMeaning(s, request, now);
      AwaitsEntryIntends(StageEntry(s, request, now).value, ValidateEntry(request).value);
    } else {
      StateIsItself(s);
    }
  }

  lemma {:induction false} StateIsItself(s: State)
    requires IsState(s)
    ensures ValidateState(s) == Some(s)
  {
    hide ValidateState;
  }

  lemma {:induction false} AwaitsEntryIntends(t: State, p: ValidatedEntry)
    requires AwaitsEntry(t, p)
    ensures t.pending.value.entry == EntryRequestOf(p) && IsState(t)
  {
    hide ValidateEntry, IsState;
    PendingRequestIsCanonical(t);
  }

  lemma {:induction false} AwaitsRevisionIntends(t: State, p: ValidatedRevision)
    requires AwaitsRevision(t, p)
    ensures t.pending.value.revision == RevisionRequestOf(p) && IsState(t)
  {
    hide ValidateRevision, IsState;
    PendingRequestIsCanonical(t);
  }

  lemma {:induction false} AwaitsCloseIntends(t: State, p: ValidatedClose)
    requires AwaitsClose(t, p)
    ensures t.pending.value.close == CloseRequestOf(p) && IsState(t)
  {
    hide ValidateClose, IsState;
    PendingRequestIsCanonical(t);
  }

  /** Applying to the pending request is one transition of the record. */
  lemma {:induction false} RecoveredMeaning(s: State, reply: Reply, now: nat)
    requires IsState(s) && Recovered(s, reply, now).Success?
    ensures var t := Recovered(s, reply, now).value; IsState(t) && t.sequence == s.sequence + 1 && t == After(s, ApplyEvent(reply, now))
  {
    hide IsState, ValidateEntry, ValidateRevision, ValidateClose, ApplyEntry, ApplyRevision, ApplyClose, EntryProofsHold, RevisionProof, CloseProof,
      EntryResultIdentifies, RevisionResultIdentifies, CloseResultIdentifies;
    PendingRequestIsCanonical(s);
    match (s.pending.value, reply) {
      case (PendingEntry(_, _, _, request), EntryReply(r)) => ApplyEntryMeaning(s, ValidateEntry(request).value, r, now);
      case (PendingRevision(_, _, _, request), RevisionReply(r)) => ApplyRevisionMeaning(s, ValidateRevision(request).value, r, now);
      case (PendingClose(_, _, _, request), CloseReply(r)) => ApplyCloseMeaning(s, ValidateClose(request).value, r, now);
      case _ =>
    }
  }

  predicate IsReplyTo(job: Job, reply: Reply) {
    match job
    case Enter(_) => reply.EntryReply?
    case Revise(_, _) => reply.RevisionReply?
    case Close(_, _) => reply.CloseReply?
  }

  /** The live path applies to its own request, which is the pending one. */
  lemma {:induction false} AppliedIsRecovered(s: State, job: Job, reply: Reply, now: nat)
    requires Intends(s, job)
    ensures Applied(s, job, reply, now).Success? ==> Applied(s, job, reply, now) == Recovered(s, reply, now)
    ensures IsReplyTo(job, reply) ==> Applied(s, job, reply, now) == Recovered(s, reply, now)
  {
    match job {
      case Enter(request) => if reply.EntryReply? { EntryAppliesAlike(s, request, reply.entryResult, now); }
      case Revise(request, _) => if reply.RevisionReply? { RevisionAppliesAlike(s, request, reply.revisionResult, now); }
      case Close(_, _) => if reply.CloseReply? { CloseAppliesAlike(s, CloseRequestFor(job), reply.closeResult, now); }
    }
  }

  lemma {:induction false} EntryAppliesAlike(s: State, request: EntryRequest, r: EntryResult, now: nat)
    requires ValidateEntry(request).Some?
    ensures ApplyEntry(s, request, r, now) == ApplyEntry(s, EntryRequestOf(ValidateEntry(request).value), r, now)
  {
    hide ValidateEntry, ValidateState, NextState, EntryResultIdentifies, EntryProof, FlattenProof;
    EntryIsCanonical(request);
  }

  lemma {:induction false} RevisionAppliesAlike(s: State, request: RevisionRequest, r: RevisionResult, now: nat)
    requires ValidateRevision(request).Some?
    ensures ApplyRevision(s, request, r, now) == ApplyRevision(s, RevisionRequestOf(ValidateRevision(request).value), r, now)
  {
    hide ValidateRevision, ValidateState, NextState, RevisionResultIdentifies, RevisionProof, ValidateOwned;
    RevisionIsCanonical(request);
  }

  lemma {:induction false} CloseAppliesAlike(s: State, request: CloseRequest, r: CloseResult, now: nat)
    requires ValidateClose(request).Some?
    ensures ApplyClose(s, request, r, now) == ApplyClose(s, CloseRequestOf(ValidateClose(request).value), r, now)
  {
    hide ValidateClose, ValidateState, NextState, CloseResultIdentifies, CloseProof;
    CloseIsCanonical(request);
  }

  // ---------------------------------------------------------------- every step keeps the invariant

  lemma {:induction false} CommitKeepsStore(w: World, next: State, e: Event)
    requires StoreHolds(w) && IsState(next) && Advances(w.commits[|w.commits| - 1], next) && next == After(w.commits[|w.commits| - 1], e)
    ensures StoreHolds(w.(commits := w.commits + [next], trace := w.trace + [e]))
  {
    hide IsState, After, Advances;
    var t := w.trace + [e];
    assert t[..|t| - 1] == w.trace && t[|t| - 1] == e;
  }

  lemma {:induction false} CommittedAtLasts(commits: seq<State>, more: seq<State>, at: nat, job: Job)
    requires CommittedAt(commits, at, job) && commits <= more
    ensures CommittedAt(more, at, job)
  {
    hide Intends;
  }

  /** A longer store keeps every process and every call where it was. */
  lemma {:induction false} GrowthKeeps(w: World, x: World)
    requires CallsHold(w) && ProcsHold(w) && w.commits <= x.commits && x.calls == w.calls && x.procs == w.procs
    ensures CallsHold(x) && ProcsHold(x)
  {
    hide CommittedAt, BoundTo, Ready;
    forall i | 0 <= i < |x.calls|
      ensures CommittedAt(x.commits, x.calls[i].at, x.calls[i].job)
    {
      CommittedAtLasts(w.commits, x.commits, w.calls[i].at, w.calls[i].job);
    }
    forall pid | pid in x.procs
      ensures PhaseHolds(x, x.procs[pid])
    {
      PhaseLasts(w, x, w.procs[pid]);
    }
  }

  lemma {:induction false} PhaseLasts(w: World, x: World, phase: Phase)
    requires PhaseHolds(w, phase) && w.commits <= x.commits && x.calls == w.calls
    ensures PhaseHolds(x, phase)
  {
    hide BoundTo, Ready, Intends;
    if phase.Committed? || phase.Calling? { CommittedAtLasts(w.commits, x.commits, phase.version, phase.job); }
  }

  predicate OnlyCommitted(w: World, pid: nat, version: nat) {
    forall q :: q in w.procs && q != pid && w.procs[q].Committed? ==> w.procs[q].version != version
  }

  lemma {:induction false} PutKeeps(w: World, pid: nat, phase: Phase)
    requires Invariant(w) && PhaseHolds(w, phase) && (phase.Committed? ==> OnlyCommitted(w, pid, phase.version))
    ensures Invariant(Put(w, pid, phase))
  {
    hide StoreHolds, CommittedAt, BoundTo, Ready, IsState;
    var x := Put(w, pid, phase);
    assert StoreHolds(x) by { SameStore(w, x); }
    forall q | q in x.procs
      ensures PhaseHolds(x, x.procs[q])
    {
      if q != pid { assert PhaseHolds(w, w.procs[q]); }
      SamePhase(w, x, x.procs[q]);
    }
  }

  lemma {:induction false} SameStore(w: World, x: World)
    requires StoreHolds(w) && x.commits == w.commits && x.trace == w.trace
    ensures StoreHolds(x)
  {
    hide IsState, Advances, RunState;
  }

  lemma {:induction false} SamePhase(w: World, x: World, phase: Phase)
    requires PhaseHolds(w, phase) && x.commits == w.commits && x.calls == w.calls
    ensures PhaseHolds(x, phase)
  {
    hide CommittedAt, BoundTo, Ready;
  }

  /** A successful write: the snapshot was current, so the record makes one transition. */
  lemma {:induction false} WriteKeeps(w: World, v: nat, next: State, e: Event)
    requires Invariant(w) && v == |w.commits| - 1
    requires IsState(next) && Advances(w.commits[v], next) && next == After(w.commits[v], e)
    ensures Invariant(w.(commits := w.commits + [next], trace := w.trace + [e]))
  {
    hide StoreHolds, CallsHold, ProcsHold, IsState, Advances, After;
    CommitKeepsStore(w, next, e);
    GrowthKeeps(w, w.(commits := w.commits + [next], trace := w.trace + [e]));
  }

  /** What a phase of a process in an invariant world says. */
  lemma {:induction false} PhaseOfHolds(w: World, pid: nat)
    requires Invariant(w)
    ensures PhaseHolds(w, PhaseOf(w, pid)) && w.commits != []
    ensures PhaseOf(w, pid).Committed? ==> OnlyCommitted(w, pid, PhaseOf(w, pid).version)
  {
    hide IsState, RunState, CommittedAt, BoundTo, Ready, Advances;
  }

  lemma {:induction false} StoredIsState(w: World, v: nat)
    requires StoreHolds(w) && v < |w.commits|
    ensures IsState(w.commits[v])
  {
    hide IsState, RunState, Advances;
  }

  lemma {:induction false} StageKeeps(w: World, pid: nat, now: nat)
    requires Invariant(w) && PhaseOf(w, pid).Loaded?
    ensures Invariant(Step(w, Stage(pid, now)))
  {
    hide StoreHolds, CallsHold, ProcsHold, IsState, Advances, After, Staged, StageEvent, Intends;
    PhaseOfHolds(w, pid);
    var f := PhaseOf(w, pid);
    StoredIsState(w, f.version);
    var next := Staged(f.state, f.job, now);
    if next.Success? && f.version == |w.commits| - 1 {
      StagedMeaning(f.state, f.job, now);
      var t := next.value;
      StagedState(f.state, f.job, t);
      WriteKeeps(w, f.version, t, StageEvent(f.job, now));
      var x := w.(commits := w.commits + [t], trace := w.trace + [StageEvent(f.job, now)]);
      NewVersion(w, x, pid);
      assert x.commits[f.version] == w.commits[f.version];
      PutKeeps(x, pid, Committed(f.job, f.version + 1, t));
    } else {
      PutKeeps(w, pid, Idle);
    }
  }

  lemma {:induction false} StagedState(s: State, job: Job, t: State)
    requires Intends(t, job)
    ensures IsState(t)
  {
    hide IsState;
  }

  /** No call and no other process refers to a version that has only now been written. */
  lemma {:induction false} NewVersion(w: World, x: World, pid: nat)
    requires Invariant(w) && x.calls == w.calls && x.procs == w.procs
    ensures forall i :: 0 <= i < |x.calls| ==> x.calls[i].at != |w.commits|
    ensures OnlyCommitted(x, pid, |w.commits|)
  {
    hide StoreHolds, IsState, Intends;
    forall q | q in w.procs && w.procs[q].Committed?
      ensures w.procs[q].version != |w.commits|
    {
      assert PhaseHolds(w, w.procs[q]);
    }
  }

  lemma {:induction false} InvokeKeeps(w: World, pid: nat)
    requires Invariant(w) && PhaseOf(w, pid).Committed?
    ensures Invariant(Step(w, Invoke(pid)))
  {
    hide StoreHolds, CommittedAt, IsState, BoundTo, Ready;
    PhaseOfHolds(w, pid);
    var f := PhaseOf(w, pid);
    var x := w.(calls := w.calls + [Call(f.job, f.version)], procs := w.procs[pid := Calling(f.job, f.version, f.state)]);
    SameStore(w, x);
    forall i | 0 <= i < |x.calls|
      ensures CommittedAt(x.commits, x.calls[i].at, x.calls[i].job)
    {
      if i < |w.calls| { assert CommittedAt(w.commits, w.calls[i].at, w.calls[i].job); }
    }
    forall q | q in x.procs
      ensures PhaseHolds(x, x.procs[q])
    {
      if q != pid { assert PhaseHolds(w, w.procs[q]); }
    }
  }

  lemma {:induction false} SaveKeeps(w: World, pid: nat, v: nat, s: State, next: Result<State, string>, e: Event)
    requires Invariant(w) && v < |w.commits| && w.commits[v] == s
    requires next.Success? ==> IsState(next.value) && next.value.sequence == s.sequence + 1 && next.value == After(s, e)
    ensures var saved := CompareAndSet(w, v, next, e); Invariant(Put(if saved.None? then w else saved.value, pid, Idle))
  {
    hide Invariant, IsState, After;
    var saved := CompareAndSet(w, v, next, e);
    if saved.Some? { WriteKeeps(w, v, next.value, e); }
    PutKeeps(if saved.None? then w else saved.value, pid, Idle);
  }

  lemma {:induction false} FinishKeeps(w: World, pid: nat, reply: Reply, now: nat)
    requires Invariant(w) && PhaseOf(w, pid).Calling?
    ensures Invariant(Step(w, Finish(pid, reply, now)))
  {
    hide StoreHolds, CallsHold, ProcsHold, IsState, After, Applied, Recovered, ApplyEvent, ValidateEntry, ValidateRevision, ValidateClose;
    PhaseOfHolds(w, pid);
    var f := PhaseOf(w, pid);
    StoredIsState(w, f.version);
    AppliedIsRecovered(f.state, f.job, reply, now);
    if Applied(f.state, f.job, reply, now).Success? { RecoveredMeaning(f.state, reply, now); }
    SaveKeeps(w, pid, f.version, f.state, Applied(f.state, f.job, reply, now), ApplyEvent(reply, now));
  }

  lemma {:induction false} RecoveryKeeps(w: World, pid: nat, reply: Reply, now: nat)
    requires Invariant(w) && PhaseOf(w, pid).Recovering?
    ensures Invariant(Step(w, FinishRecovery(pid, reply, now)))
  {
    hide StoreHolds, CallsHold, ProcsHold, IsState, After, Recovered, ApplyEvent;
    PhaseOfHolds(w, pid);
    var f := PhaseOf(w, pid);
    StoredIsState(w, f.version);
    if Recovered(f.state, reply, now).Success? { RecoveredMeaning(f.state, reply, now); }
    SaveKeeps(w, pid, f.version, f.state, Recovered(f.state, reply, now), ApplyEvent(reply, now));
  }

  lemma {:induction false} BeginKeeps(w: World, a: Action)
    requires Invariant(w) && (a.Begin? || a.BeginRecovery? || a.Crash?)
    ensures Invariant(Step(w, a))
  {
    hide StoreHolds, CallsHold, ProcsHold, BoundTo, Ready;
    PhaseOfHolds(w, a.pid);
    var version, state := |w.commits| - 1, w.commits[|w.commits| - 1];
    match a {
      case Begin(pid, job) => if PhaseOf(w, pid).Idle? && Ready(job) && BoundTo(job, state) { PutKeeps(w, pid, Loaded(job, version, state)); }
      case BeginRecovery(pid) => if PhaseOf(w, pid).Idle? && state.pending.Some? { PutKeeps(w, pid, Recovering(version, state)); }
      case Crash(pid) => PutKeeps(w, pid, Idle);
    }
  }

  lemma {:induction false} StepKeepsInvariant(w: World, a: Action)
    requires Invariant(w)
    ensures Invariant(Step(w, a))
  {
    hide Invariant, CompareAndSet, Staged, Applied, Recovered;
    PhaseOfHolds(w, a.pid);
    match a {
      case Stage(pid, now) => if PhaseOf(w, pid).Loaded? { StageKeeps(w, pid, now); }
      case Invoke(pid) => if PhaseOf(w, pid).Committed? { InvokeKeeps(w, pid); }
      case Finish(pid, reply, now) => if PhaseOf(w, pid).Calling? { FinishKeeps(w, pid, reply, now); }
      case FinishRecovery(pid, reply, now) => if PhaseOf(w, pid).Recovering? { RecoveryKeeps(w, pid, reply, now); }
      case _ => BeginKeeps(w, a);
    }
  }

  lemma {:induction false} StartHolds()
    ensures Invariant(START)
  {
    assert RunState([]) == INITIAL;
    assert IsState(INITIAL);
  }

  /** In every run, whatever crashes, retries and competing writers do: every call of a mutating effect was
      made under a commit of its own canonical intent, a revision's or close's over the very state its plan was
      bound to, and what is stored is a run of the durable record. */
  lemma {:induction false} RunsKeepInvariant(actions: seq<Action>)
    ensures Invariant(Run(actions))
    decreases |actions|
  {
    hide Invariant, Step;
    if actions == [] {
      StartHolds();
    } else {
      RunsKeepInvariant(actions[..|actions| - 1]);
      StepKeepsInvariant(Run(actions[..|actions| - 1]), actions[|actions| - 1]);
    }
  }

  /** Only invoking calls an effect; every other step leaves the calls alone. */
  lemma {:induction false} OnlyInvokeCalls(w: World, a: Action)
    requires w.commits != [] && !(a.Invoke? && PhaseOf(w, a.pid).Committed?)
    ensures Step(w, a).calls == w.calls
  {
    hide Staged, Applied, Recovered, BoundTo, Ready;
  }

  /** A step that calls an effect finds its intent already committed. */
  lemma {:induction false} StageBeforeEffect(actions: seq<Action>, a: Action)
    ensures var w := Run(actions); var x := Step(w, a);
      x.calls == w.calls || (exists c :: x.calls == w.calls + [c] && x.commits == w.commits && CommittedAt(w.commits, c.at, c.job))
  {
    hide Invariant, Run, CommittedAt;
    var w := Run(actions);
    RunsKeepInvariant(actions);
    if a.Invoke? && PhaseOf(w, a.pid).Committed? {
      CalledUnderCommit(w, a.pid);
    } else {
      OnlyInvokeCalls(w, a);
    }
  }

  lemma {:induction false} CalledUnderCommit(w: World, pid: nat)
    requires Invariant(w) && PhaseOf(w, pid).Committed?
    ensures var x := Step(w, Invoke(pid)); var f := PhaseOf(w, pid);
      x.calls == w.calls + [Call(f.job, f.version)] && x.commits == w.commits && CommittedAt(w.commits, f.version, f.job)
  {
    hide Invariant, CommittedAt;
    PhaseOfHolds(w, pid);
  }

  /** Sequence numbers never fall along the store. */
  lemma {:induction false} SequencesGrow(w: World, i: nat, j: nat)
    requires StoreHolds(w) && i <= j < |w.commits|
    ensures w.commits[i].sequence <= w.commits[j].sequence
    decreases j
  {
    hide IsState, RunState;
    if i < j { SequencesGrow(w, i, j - 1); assert Advances(w.commits[j - 1], w.commits[j]); }
  }

  /** One revision or close plan is bound to one durable state, and no two calls are bound to the same: across
      crashes, retries and competing writers its effect is called at most once. */
  lemma {:induction false} AtMostOnce(actions: seq<Action>, i: nat, j: nat)
    requires i < j < |Run(actions).calls|
    requires !Run(actions).calls[i].job.Enter? && !Run(actions).calls[j].job.Enter?
    ensures Run(actions).calls[i].job.bound != Run(actions).calls[j].job.bound
  {
    hide Run, Intends, IsState, RunState, ProcsHold, StoreHolds;
    RunsKeepInvariant(actions);
    var w := Run(actions);
    var c, d := w.calls[i], w.calls[j];
    assert CommittedAt(w.commits, c.at, c.job) && CommittedAt(w.commits, d.at, d.job);
    if c.at < d.at { SequencesGrow(w, c.at, d.at - 1); } else { SequencesGrow(w, d.at, c.at - 1); }
  }

  /** What is stored at any moment is balanced: its ledger is that of a run of the durable record. */
  lemma {:induction false} StoreConserves(actions: seq<Action>)
    ensures Lifecycle.Invariant(Current(Run(actions)), RunLedger(Run(actions).trace))
  {
    hide Run, RunLedger, RunState, CallsHold, ProcsHold, IsState, Advances;
    RunsKeepInvariant(actions);
    WholeLifeConservation(Run(actions).trace);
  }

  /** What a reply must prove to clear this pending transition. */
  predicate Clears(p: Pending, reply: Reply) {
    match (p, reply)
    case (PendingEntry(_, _, _, request), EntryReply(r)) =>
      ValidateEntry(request).Some? && EntryResultIdentifies(ValidateEntry(request).value, r)
      && (r.state.OpenProtected? || r.state.EmergencyFlattenConfirmed?) && EntryProofsHold(ValidateEntry(request).value, r)
    case (PendingRevision(_, _, _, request), RevisionReply(r)) =>
      ValidateRevision(request).Some? && RevisionResultIdentifies(ValidateRevision(request).value, r)
      && r.state.RevisionProtected? && RevisionProof(ValidateRevision(request).value, r)
    case (PendingClose(_, _, _, request), CloseReply(r)) =>
      ValidateClose(request).Some? && CloseResultIdentifies(ValidateClose(request).value, r)
      && r.state.Closed? && CloseProof(ValidateClose(request).value, r)
    case _ => false
  }

  lemma {:induction false} AppliedClears(s: State, reply: Reply, now: nat)
    requires IsState(s) && s.pending.Some? && Recovered(s, reply, now).Success? && Recovered(s, reply, now).value.pending.None?
    ensures Clears(s.pending.value, reply)
  {
    hide IsState, ValidateEntry, ValidateRevision, ValidateClose, ApplyEntry, ApplyRevision, ApplyClose, EntryProofsHold, RevisionProof, CloseProof,
      EntryResultIdentifies, RevisionResultIdentifies, CloseResultIdentifies;
    PendingRequestIsCanonical(s);
    match (s.pending.value, reply) {
      case (PendingEntry(_, _, _, request), EntryReply(r)) => ApplyEntryMeaning(s, ValidateEntry(request).value, r, now);
      case (PendingRevision(_, _, _, request), RevisionReply(r)) => ApplyRevisionMeaning(s, ValidateRevision(request).value, r, now);
      case (PendingClose(_, _, _, request), CloseReply(r)) => ApplyCloseMeaning(s, ValidateClose(request).value, r, now);
      case _ =>
    }
  }

  lemma {:induction false} SaveClears(w: World, v: nat, s: State, reply: Reply, now: nat, next: Result<State, string>)
    requires Invariant(w) && v < |w.commits| && w.commits[v] == s && Current(w).pending.Some?
    requires next.Success? ==> next == Recovered(s, reply, now)
    ensures var saved := CompareAndSet(w, v, next, ApplyEvent(reply, now));
      Current(if saved.None? then w else saved.value).pending.None? ==> Clears(Current(w).pending.value, reply)
  {
    hide Recovered, Clears, IsState, RunState, CallsHold, ProcsHold, ApplyEvent, Advances;
    if next.Success? && v == |w.commits| - 1 && next.value.pending.None? {
      StoredIsState(w, v);
      AppliedClears(s, reply, now);
    }
  }

  /** Pending leaves the store only by a terminal, proof-complete result for the same request. */
  lemma {:induction false} ClearedOnlyByProof(actions: seq<Action>, a: Action)
    requires Current(Run(actions)).pending.Some? && Current(Step(Run(actions), a)).pending.None?
    ensures (a.Finish? || a.FinishRecovery?) && Clears(Current(Run(actions)).pending.value, a.reply)
  {
    hide Run, Step, Current, Clears, Invariant;
    RunsKeepInvariant(actions);
    ClearedByStep(Run(actions), a);
  }

  lemma {:induction false} ClearedByStep(w: World, a: Action)
    requires Invariant(w) && Current(w).pending.Some? && Current(Step(w, a)).pending.None?
    ensures (a.Finish? || a.FinishRecovery?) && Clears(Current(w).pending.value, a.reply)
  {
    hide Clears, Invariant, Step, Current;
    PhaseOfHolds(w, a.pid);
    var f := PhaseOf(w, a.pid);
    if a.Finish? && f.Calling? { FinishClears(w, a.pid, a.reply, a.now); }
    else if a.FinishRecovery? && f.Recovering? { RecoveryClears(w, a.pid, a.reply, a.now); }
    else if a.Stage? && f.Loaded? { StagePends(w, a.pid, a.now); }
    else { OthersKeepStore(w, a); }
  }

  lemma {:induction false} FinishClears(w: World, pid: nat, reply: Reply, now: nat)
    requires Invariant(w) && PhaseOf(w, pid).Calling? && Current(w).pending.Some? && Current(Step(w, Finish(pid, reply, now))).pending.None?
    ensures Clears(Current(w).pending.value, reply)
  {
    hide Clears, StoreHolds, CallsHold, ProcsHold, Applied, Recovered, ApplyEvent, IsState, CompareAndSet, Intends, BoundTo, Ready;
    PhaseOfHolds(w, pid);
    var f := PhaseOf(w, pid);
    AppliedIsRecovered(f.state, f.job, reply, now);
    CallingIsReady(w, f);
    SaveClears(w, f.version, f.state, reply, now, Applied(f.state, f.job, reply, now));
  }

  lemma {:induction false} RecoveryClears(w: World, pid: nat, reply: Reply, now: nat)
    requires Invariant(w) && PhaseOf(w, pid).Recovering? && Current(w).pending.Some? && Current(Step(w, FinishRecovery(pid, reply, now))).pending.None?
    ensures Clears(Current(w).pending.value, reply)
  {
    hide Clears, StoreHolds, CallsHold, ProcsHold, Recovered, ApplyEvent, IsState, CompareAndSet;
    PhaseOfHolds(w, pid);
    var f := PhaseOf(w, pid);
    SaveClears(w, f.version, f.state, reply, now, Recovered(f.state, reply, now));
  }

  lemma {:induction false} OthersKeepStore(w: World, a: Action)
    requires w.commits != []
    requires !(a.Finish? && PhaseOf(w, a.pid).Calling?) && !(a.FinishRecovery? && PhaseOf(w, a.pid).Recovering?) && !(a.Stage? && PhaseOf(w, a.pid).Loaded?)
    ensures Current(Step(w, a)) == Current(w)
  {
    hide BoundTo, Ready;
  }

  lemma {:induction false} CallingIsReady(w: World, f: Phase)
    requires PhaseHolds(w, f) && f.Calling?
    ensures Ready(f.job)
  {
    hide IsState, ValidateEntry, ValidateRevision, ValidateClose;
  }

  lemma {:induction false} StagePends(w: World, pid: nat, now: nat)
    requires Invariant(w) && PhaseOf(w, pid).Loaded? && Current(w).pending.Some?
    ensures Current(Step(w, Stage(pid, now))).pending.Some?
  {
    hide CallsHold, ProcsHold, IsState, Advances, After, Staged, StageEvent, RunState, ValidateEntry, ValidateRevision, ValidateClose;
    PhaseOfHolds(w, pid);
    var f := PhaseOf(w, pid);
    StoredIsState(w, f.version);
    if Staged(f.state, f.job, now).Success? { StagedMeaning(f.state, f.job, now); }
  }

  // ---------------------------------------------------------------- what gets done

  /** A process that nobody disturbs commits its intent, calls its effect once under that commit, and commits the
      result; exactly those two states are added to the store. */
  lemma {:induction false} LoneOperation(w: World, pid: nat, job: Job, now: nat, reply: Reply, later: nat)
    requires w.commits != [] && PhaseOf(w, pid).Idle? && Ready(job) && BoundTo(job, Current(w))
    requires Staged(Current(w), job, now).Success? && Applied(Staged(Current(w), job, now).value, job, reply, later).Success?
    ensures var staged := Staged(Current(w), job, now).value;
      var x := Step(Step(Step(Step(w, Begin(pid, job)), Stage(pid, now)), Invoke(pid)), Finish(pid, reply, later));
      && x.commits == w.commits + [staged, Applied(staged, job, reply, later).value]
      && x.calls == w.calls + [Call(job, |w.commits|)] && x.trace == w.trace + [StageEvent(job, now), ApplyEvent(reply, later)]
      && PhaseOf(x, pid).Idle?
  {
    hide Staged, Applied, BoundTo, Ready, StageEvent, ApplyEvent;
    var staged := Staged(Current(w), job, now).value;
    var x1 := Step(w, Begin(pid, job));
    assert PhaseOf(x1, pid) == Loaded(job, |w.commits| - 1, Current(w));
    var x2 := Step(x1, Stage(pid, now));
    assert PhaseOf(x2, pid) == Committed(job, |w.commits|, staged) && x2.commits == w.commits + [staged];
    var x3 := Step(x2, Invoke(pid));
    assert PhaseOf(x3, pid) == Calling(job, |w.commits|, staged) && x3.commits == x2.commits;
    assert (w.commits + [staged]) + [Applied(staged, job, reply, later).value] == w.commits + [staged, Applied(staged, job, reply, later).value];
    assert (w.trace + [StageEvent(job, now)]) + [ApplyEvent(reply, later)] == w.trace + [StageEvent(job, now), ApplyEvent(reply, later)];
  }

  /** So does a recovery, without any call. */
  lemma {:induction false} LoneRecovery(w: World, pid: nat, reply: Reply, now: nat)
    requires w.commits != [] && PhaseOf(w, pid).Idle? && Current(w).pending.Some? && Recovered(Current(w), reply, now).Success?
    ensures var x := Step(Step(w, BeginRecovery(pid)), FinishRecovery(pid, reply, now));
      && x.commits == w.commits + [Recovered(Current(w), reply, now).value] && x.calls == w.calls
      && x.trace == w.trace + [ApplyEvent(reply, now)] && PhaseOf(x, pid).Idle?
  {
    hide Recovered, ApplyEvent;
    assert PhaseOf(Step(w, BeginRecovery(pid)), pid) == Recovering(|w.commits| - 1, Current(w));
  }

  /** A write based on a version that is no longer the last one is lost and ends its operation; and so does a write
      the record refuses. Nothing is stored and nothing is called. */
  lemma {:induction false} StaleWriteIsLost(w: World, a: Action)
    requires w.commits != []
    requires match a
      case Stage(pid, now) => PhaseOf(w, pid).Loaded? && Ready(PhaseOf(w, pid).job)
        && (PhaseOf(w, pid).version != |w.commits| - 1 || Staged(PhaseOf(w, pid).state, PhaseOf(w, pid).job, now).Failure?)
      case Finish(pid, reply, now) => PhaseOf(w, pid).Calling? && Ready(PhaseOf(w, pid).job)
        && (PhaseOf(w, pid).version != |w.commits| - 1 || Applied(PhaseOf(w, pid).state, PhaseOf(w, pid).job, reply, now).Failure?)
      case FinishRecovery(pid, reply, now) => PhaseOf(w, pid).Recovering?
        && (PhaseOf(w, pid).version != |w.commits| - 1 || Recovered(PhaseOf(w, pid).state, reply, now).Failure?)
      case _ => false
    ensures Step(w, a) == w.(procs := w.procs[a.pid := Idle])
  {
    hide Staged, Applied, Recovered, Ready;
  }

  /** A crash loses the process and nothing else. */
  lemma {:induction false} CrashKeepsStore(w: World, pid: nat)
    requires w.commits != []
    ensures Step(w, Crash(pid)) == w.(procs := w.procs[pid := Idle])
  {}
}
