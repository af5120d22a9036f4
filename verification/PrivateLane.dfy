/** The live account lane: listen keys, REST reconciliation with buffering, restarts whose cleanup is
    itself asynchronous. Each function of `Event` is one run-to-completion step. */
module PrivateLane {
  import opened Wrappers
  import opened StreamReplay
  import PrivateState

  type Account = PrivateState.Account

  datatype Phase = Stopped | Connecting | Synchronizing | Running | Backoff

  /** How far the connection of an epoch has come: its key is requested, its socket exists, has opened with a
      snapshot awaited, waits for no snapshot; or it never had a socket. */
  datatype Stage = KeyRequested | Created | Opened | Answered | Dead

  /** `connections` and `decoding` are the continuations the source has pending: one connection an epoch, and the
      frames that have arrived and are still being decoded. */
  datatype Lane = Lane(
    maximumBuffered: nat, desiredRunning: bool, state: Phase, epoch: nat, reconnectAttempt: nat, listenKey: bool,
    buffer: seq<PrivateState.Event>, restartPending: bool, restartTimer: Option<nat>,
    connections: map<nat, Stage>, decoding: multiset<PrivateState.Event>,
    account: Account, log: seq<Record>)

  datatype Event =
    | Start
    | Stop
    | ListenKeyCreated(epoch: nat)
    | ListenKeyFailed(epoch: nat)
    | SocketOpened(epoch: nat)
    | SnapshotArrived(epoch: nat, reconciliation: PrivateState.Reconciliation)
    | SnapshotFailed(epoch: nat)
    | FrameArrived(epoch: nat, frame: PrivateState.Event)
    | MessageDecoded(event: PrivateState.Event)   // after the decode await: the epoch is not checked again
    | SocketError(epoch: nat)
    | SocketClosed(epoch: nat)
    | KeepAliveFailed(epoch: nat)
    | CleanupDone(restartEpoch: nat)
    | TimerFired

  function Idle(maximumBuffered: nat): Lane {
    Lane(maximumBuffered, false, Stopped, 0, 0, false, [], false, None, map[], multiset{}, PrivateState.NEW_ACCOUNT, [])
  }

  // ---------------------------------------------------------------- the steps as functions

  function Log(l: Lane, r: Record): Lane { l.(log := l.log + [r]) }

  function Connect(l: Lane): Lane {
    if !l.desiredRunning then l
    else
      Log(l.(restartTimer := None, epoch := l.epoch + 1, state := Connecting, buffer := [],
             connections := l.connections[l.epoch + 1 := KeyRequested]),
          PrivateTransition(CreatingListenKey))
  }

  function ScheduleRestart(l: Lane): Lane {
    if !l.desiredRunning || l.restartPending then l
    else
      Log(l.(restartPending := true, epoch := l.epoch + 1, listenKey := false, buffer := [], state := Backoff,
             reconnectAttempt := l.reconnectAttempt + 1, restartTimer := None),
          PrivateTransition(PrivateBackoff))
  }

  function Synchronize(l: Lane, r: PrivateState.Reconciliation): Lane {
    var recorded := Log(l, StreamReplay.PrivateReconciliation(r));
    var applied := recorded.(account := PrivateState.ApplyAll(PrivateState.Reconcile(l.account, r), l.buffer), buffer := []);
    if applied.account.streamExpired then ScheduleRestart(applied)
    else Log(applied.(reconnectAttempt := 0, state := Running), PrivateTransition(PrivateRunning))
  }

  function Staged(l: Lane, epoch: nat, stage: Stage): Lane { l.(connections := l.connections[epoch := stage]) }

  function Receive(l: Lane, e: PrivateState.Event): Lane {
    var recorded := Log(l, PrivateMessage(e));
    if !l.state.Running? then
      var pushed := recorded.(buffer := l.buffer + [e]);
      if |pushed.buffer| > l.maximumBuffered then ScheduleRestart(pushed) else pushed
    else
      var applied := recorded.(account := PrivateState.ApplyEvent(l.account, e).0);
      if applied.account.streamExpired then ScheduleRestart(applied) else applied
  }

  function Halt(l: Lane): Lane {
    Log(l.(desiredRunning := false, epoch := l.epoch + 1, restartTimer := None, listenKey := false, buffer := [], state := Stopped),
        PrivateTransition(PrivateStopped))
  }

  function Handle(l: Lane, e: Event): Lane {
    match e
    case Start => if l.desiredRunning then l else Connect(l.(desiredRunning := true))
    case Stop => Halt(l)
    case ListenKeyCreated(epoch) =>
      if epoch != l.epoch || !l.desiredRunning then Staged(l, epoch, Dead)
      else Log(Staged(l, epoch, Created).(listenKey := true), PrivateTransition(PrivateConnecting))
    case ListenKeyFailed(epoch) =>
      if epoch != l.epoch then Staged(l, epoch, Dead) else ScheduleRestart(Log(Staged(l, epoch, Dead), OtherRecord))
    case SocketOpened(epoch) =>
      if epoch != l.epoch || !l.desiredRunning then Staged(l, epoch, Answered)
      else Log(Staged(l, epoch, Opened).(state := Synchronizing), PrivateTransition(PrivateSynchronizing))
    case SnapshotArrived(epoch, r) =>
      var answered := Staged(l, epoch, Answered);
      if epoch != l.epoch || !l.desiredRunning then answered else Synchronize(answered, r)
    case SnapshotFailed(epoch) =>
      var answered := Staged(l, epoch, Answered);
      if epoch != l.epoch then answered else ScheduleRestart(Log(answered, OtherRecord))
    case FrameArrived(epoch, frame) =>
      if epoch != l.epoch || !l.desiredRunning then l else l.(decoding := l.decoding + multiset{frame})
    case MessageDecoded(event) => Receive(l.(decoding := l.decoding - multiset{event}), event)
    case SocketError(epoch) => if epoch != l.epoch then l else ScheduleRestart(Log(l, OtherRecord))
    case SocketClosed(epoch) =>
      if epoch != l.epoch || !l.desiredRunning then l
      else ScheduleRestart(Log(l, PrivateTransition(PrivateClosed)))
    case KeepAliveFailed(epoch) => if epoch != l.epoch then l else ScheduleRestart(Log(l, OtherRecord))
    case CleanupDone(restartEpoch) =>
      if !l.desiredRunning || l.epoch != restartEpoch then l.(restartPending := false)
      else l.(restartTimer := Some(restartEpoch))
    case TimerFired =>
      if l.restartTimer.None? then l
      else
        var fired := l.(restartTimer := None, restartPending := false);
        if l.desiredRunning && l.epoch == l.restartTimer.value then Connect(fired) else fired
  }

  // ---------------------------------------------------------------- the lane as an object

  class LaneObject {
    const maximumBuffered: nat
    const privateState: PrivateState.State
    var desiredRunning: bool
    var state: Phase
    var epoch: nat
    var reconnectAttempt: nat
    var listenKey: bool
    var buffer: seq<PrivateState.Event>
    var restartPending: bool
    var restartTimer: Option<nat>
    var log: seq<Record>
    ghost var connections: map<nat, Stage>
    ghost var decoding: multiset<PrivateState.Event>

    ghost predicate Valid()
      reads this, privateState
    {
      privateState.Valid()
    }

    ghost function View(): Lane
      requires Valid()
      reads this, privateState
    {
      Lane(maximumBuffered, desiredRunning, state, epoch, reconnectAttempt, listenKey, buffer, restartPending, restartTimer,
           connections, decoding, privateState.View(), log)
    }

    constructor (maximumBuffered: nat)
      ensures Valid() && View() == Idle(maximumBuffered) && fresh(privateState)
    {
      this.maximumBuffered := maximumBuffered;
      privateState := new PrivateState.State();
      desiredRunning, state, epoch, reconnectAttempt, listenKey := false, Stopped, 0, 0, false;
      buffer, restartPending, restartTimer, log := [], false, None, [];
      connections, decoding := map[], multiset{};
    }

    method StartLane()
      requires Valid()
      modifies this
      ensures Valid() && View() == Handle(old(View()), Start)
    {
      if desiredRunning { return; }
      desiredRunning := true;
      ConnectLane();
    }

    method StopLane()
      requires Valid()
      modifies this
      ensures Valid() && View() == Halt(old(View()))
    {
      desiredRunning := false;
      epoch := epoch + 1;
      restartTimer := None;
      listenKey := false;
      buffer := [];
      state := Stopped;
      RecordEvidence(PrivateTransition(PrivateStopped));
    }

    method ConnectLane()
      requires Valid()
      modifies this
      ensures Valid() && View() == Connect(old(View()))
    {
      if !desiredRunning { return; }
      restartTimer := None;
      epoch := epoch + 1;
      state := Connecting;
      buffer := [];
      connections := connections[epoch := KeyRequested];
      RecordEvidence(PrivateTransition(CreatingListenKey));
    }

    /** The rest of `connect` once the listen key exists. */
    method OnListenKey(createdEpoch: nat)
      requires Valid()
      modifies this
      ensures Valid() && View() == Handle(old(View()), ListenKeyCreated(createdEpoch))
    {
      connections := connections[createdEpoch := if createdEpoch != epoch || !desiredRunning then Dead else Created];
      if createdEpoch != epoch || !desiredRunning { return; }
      listenKey := true;
      RecordEvidence(PrivateTransition(PrivateConnecting));
    }

    method OnListenKeyFailed(createdEpoch: nat)
      requires Valid()
      modifies this
      ensures Valid() && View() == Handle(old(View()), ListenKeyFailed(createdEpoch))
    {
      connections := connections[createdEpoch := Dead];
      if createdEpoch != epoch { return; }
      RecordEvidence(OtherRecord);
      Restart();
    }

    method OnOpen(socketEpoch: nat)
      requires Valid()
      modifies this
      ensures Valid() && View() == Handle(old(View()), SocketOpened(socketEpoch))
    {
      connections := connections[socketEpoch := if socketEpoch != epoch || !desiredRunning then Answered else Opened];
      if socketEpoch != epoch || !desiredRunning { return; }
      state := Synchronizing;
      RecordEvidence(PrivateTransition(PrivateSynchronizing));
    }

    /** The rest of `onOpen` once the account snapshot has arrived. */
    method OnSnapshot(socketEpoch: nat, r: PrivateState.Reconciliation)
      requires Valid()
      modifies this, privateState
      ensures Valid() && View() == Handle(old(View()), SnapshotArrived(socketEpoch, r))
    {
      hide PrivateState.Reconcile, PrivateState.ApplyAll, Synchronize;
      connections := connections[socketEpoch := Answered];
      if socketEpoch != epoch || !desiredRunning { return; }
      Synchronized(r);
    }

    method Synchronized(r: PrivateState.Reconciliation)
      requires Valid()
      modifies this, privateState
      ensures Valid() && View() == Synchronize(old(View()), r)
    {
      hide PrivateState.Reconcile, PrivateState.ApplyAll;
      RecordEvidence(StreamReplay.PrivateReconciliation(r));
      privateState.ReconcileWith(r);
      var buffered := buffer;
      buffer := [];
      ApplyBuffer(privateState, buffered);
      if privateState.streamExpired {
        Restart();
        return;
      }
      reconnectAttempt := 0;
      state := Running;
      RecordEvidence(PrivateTransition(PrivateRunning));
    }

    method OnSnapshotFailed(socketEpoch: nat)
      requires Valid()
      modifies this
      ensures Valid() && View() == Handle(old(View()), SnapshotFailed(socketEpoch))
    {
      connections := connections[socketEpoch := Answered];
      if socketEpoch != epoch { return; }
      RecordEvidence(OtherRecord);
      Restart();
    }

    /** `onMessage` up to its await: a frame of another epoch, or of a lane that is not to run, is dropped. */
    method OnFrame(socketEpoch: nat, frame: PrivateState.Event)
      requires Valid()
      modifies this`decoding
      ensures Valid() && View() == Handle(old(View()), FrameArrived(socketEpoch, frame))
    {
      if socketEpoch != epoch || !desiredRunning { return; }
      decoding := decoding + multiset{frame};
    }

    /** The rest of `onMessage` once the frame is decoded. */
    method OnMessage(event: PrivateState.Event)
      requires Valid()
      modifies this, privateState
      ensures Valid() && View() == Handle(old(View()), MessageDecoded(event))
    {
      hide PrivateState.ApplyEvent, Receive;
      decoding := decoding - multiset{event};
      Received(event);
    }

    method Received(event: PrivateState.Event)
      requires Valid()
      modifies this, privateState
      ensures Valid() && View() == Receive(old(View()), event)
    {
      hide PrivateState.ApplyEvent;
      RecordEvidence(PrivateMessage(event));
      if !state.Running? {
        buffer := buffer + [event];
        if |buffer| > maximumBuffered { Restart(); }
        return;
      }
      var _ := privateState.Apply(event);
      if privateState.streamExpired { Restart(); }
    }

    method OnSocketError(socketEpoch: nat)
      requires Valid()
      modifies this
      ensures Valid() && View() == Handle(old(View()), SocketError(socketEpoch))
    {
      if socketEpoch != epoch { return; }
      RecordEvidence(OtherRecord);
      Restart();
    }

    method OnSocketClosed(socketEpoch: nat)
      requires Valid()
      modifies this
      ensures Valid() && View() == Handle(old(View()), SocketClosed(socketEpoch))
    {
      if socketEpoch != epoch || !desiredRunning { return; }
      RecordEvidence(PrivateTransition(PrivateClosed));
      Restart();
    }

    method OnKeepAliveFailed(socketEpoch: nat)
      requires Valid()
      modifies this
      ensures Valid() && View() == Handle(old(View()), KeepAliveFailed(socketEpoch))
    {
      if socketEpoch != epoch { return; }
      RecordEvidence(OtherRecord);
      Restart();
    }

    /** The `finally` of the listen-key cleanup started by a restart. */
    method OnCleanupDone(restartEpoch: nat)
      requires Valid()
      modifies this
      ensures Valid() && View() == Handle(old(View()), CleanupDone(restartEpoch))
    {
      if !desiredRunning || epoch != restartEpoch {
        restartPending := false;
        return;
      }
      restartTimer := Some(restartEpoch);
    }

    method OnTimer()
      requires Valid()
      modifies this
      ensures Valid() && View() == Handle(old(View()), TimerFired)
    {
      if restartTimer.None? { return; }
      var restartEpoch := restartTimer.value;
      restartTimer := None;
      restartPending := false;
      if desiredRunning && epoch == restartEpoch { ConnectLane(); }
    }

    method Restart()
      requires Valid()
      modifies this
      ensures Valid() && View() == ScheduleRestart(old(View()))
    {
      if !desiredRunning || restartPending { return; }
      restartPending := true;
      epoch := epoch + 1;
      listenKey := false;
      buffer := [];
      state := Backoff;
      reconnectAttempt := reconnectAttempt + 1;
      RecordEvidence(PrivateTransition(PrivateBackoff));
      restartTimer := None;
    }

    method RecordEvidence(r: Record)
      requires Valid()
      modifies this`log
      ensures log == old(log) + [r]
    {
      log := log + [r];
    }
  }

  // ---------------------------------------------------------------- the simulation relation

  function Replayed(l: Lane): Replay { StreamReplay.Of(l.log) }

  /** What replay must know in each phase so that every continuation agrees again. */
  ghost predicate Simulates(l: Lane) {
    var r := Replayed(l);
    && r.account == l.account
    && match l.state {
         case Running => r.synchronized
         case Synchronizing => !r.synchronized && r.buffer == l.buffer
         case Connecting => l.buffer == []
         case Backoff => !r.synchronized
         case Stopped => true
       }
  }

  ghost predicate WellFormed(l: Lane) {
    && l.maximumBuffered >= 1
    && (l.desiredRunning <==> !l.state.Stopped?)
    && (forall epoch :: epoch in l.connections ==> epoch <= l.epoch)
    && (l.epoch in l.connections ==> StageFits(l.connections[l.epoch], l.state))
  }

  /** Where the lane stands while its current connection has come so far. */
  predicate StageFits(stage: Stage, state: Phase) {
    match stage
    case Opened => state.Synchronizing?
    case Answered => state.Synchronizing? || state.Running?
    case _ => state.Connecting?
  }

  /** The source's behaviour agrees with its own replay exactly when each step satisfies this guard:
      no frame finishes decoding between a connect and the socket's open, none that is new and supported
      finishes after a stop, and an expired stream is never met with a restart already pending. */
  ghost predicate Benign(l: Lane, e: Event) {
    match e
    case MessageDecoded(event) =>
      && !l.state.Connecting?
      && (l.state.Stopped? && Replayed(l).synchronized ==> PrivateState.Ignores(l.account, event))
    case SnapshotArrived(epoch, r) =>
      epoch == l.epoch && l.desiredRunning ==>
        !(l.restartPending && PrivateState.ApplyAll(PrivateState.Reconcile(l.account, r), l.buffer).streamExpired)
    case _ => true
  }

  ghost predicate IsAt(l: Lane, epoch: nat, stages: set<Stage>) { epoch in l.connections && l.connections[epoch] in stages }

  /** What the runtime may deliver: each continuation of a connection once and in its order, no frame before the
      socket has opened, and only frames that have arrived are decoded, in any order. */
  ghost predicate Possible(l: Lane, e: Event) {
    match e
    case ListenKeyCreated(epoch) => IsAt(l, epoch, {KeyRequested})
    case ListenKeyFailed(epoch) => IsAt(l, epoch, {KeyRequested})
    case SocketOpened(epoch) => IsAt(l, epoch, {Created})
    case SnapshotArrived(epoch, _) => IsAt(l, epoch, {Opened})
    case SnapshotFailed(epoch) => IsAt(l, epoch, {Opened})
    case FrameArrived(epoch, _) => IsAt(l, epoch, {Opened, Answered})
    case MessageDecoded(event) => event in l.decoding
    case SocketError(epoch) => IsAt(l, epoch, {Created, Opened, Answered})
    case SocketClosed(epoch) => IsAt(l, epoch, {Created, Opened, Answered})
    case KeepAliveFailed(epoch) => IsAt(l, epoch, {Answered})
    case _ => true
  }

  /** So a continuation of the current epoch finds the lane where it left it. */
  lemma {:induction false} PossibleFits(l: Lane, e: Event)
    requires WellFormed(l) && Possible(l, e)
    ensures e.ListenKeyCreated? && e.epoch == l.epoch ==> l.state.Connecting?
    ensures e.SocketOpened? && e.epoch == l.epoch ==> l.state.Connecting?
    ensures e.SnapshotArrived? && e.epoch == l.epoch ==> l.state.Synchronizing?
  {}

  predicate Resets(phase: PrivatePhase) { phase.PrivateConnecting? || phase.PrivateSynchronizing? || phase.PrivateBackoff? }

  /** What replay makes of one more transition or notice. */
  lemma {:induction false} LogTransition(l: Lane, phase: PrivatePhase)
    ensures var r, t := Replayed(l), Replayed(Log(l, PrivateTransition(phase)));
      && t.account == r.account
      && (if Resets(phase) then !t.synchronized && t.buffer == [] else t.synchronized == r.synchronized && t.buffer == r.buffer)
  {
    StreamReplay.OfAppend(l.log, PrivateTransition(phase));
  }

  lemma {:induction false} LogNotice(l: Lane)
    ensures var r, t := Replayed(l), Replayed(Log(l, OtherRecord));
      t.account == r.account && t.synchronized == r.synchronized && t.buffer == r.buffer
  {
    StreamReplay.OfAppend(l.log, OtherRecord);
  }

  lemma {:induction false} RestartSimulates(l: Lane)
    requires Simulates(l)
    ensures Simulates(ScheduleRestart(l))
  {
    StreamReplay.OfAppend(l.log, PrivateTransition(PrivateBackoff));
  }

  lemma {:induction false} ActualRestartSimulates(l: Lane)
    requires l.desiredRunning && !l.restartPending && Replayed(l).account == l.account
    ensures Simulates(ScheduleRestart(l))
  {
    StreamReplay.OfAppend(l.log, PrivateTransition(PrivateBackoff));
  }

  lemma {:induction false} NoticeSimulates(l: Lane, r: Record)
    requires Simulates(l) && (r == OtherRecord || r == PrivateTransition(PrivateClosed))
    ensures Simulates(Log(l, r)) && Simulates(ScheduleRestart(Log(l, r)))
  {
    StreamReplay.OfAppend(l.log, r);
    RestartSimulates(Log(l, r));
  }

  lemma {:induction false} SynchronizeSimulatesIff(l: Lane, r: PrivateState.Reconciliation)
    requires Simulates(l) && l.state.Synchronizing? && l.desiredRunning
    ensures Simulates(Synchronize(l, r)) <==>
      !(l.restartPending && PrivateState.ApplyAll(PrivateState.Reconcile(l.account, r), l.buffer).streamExpired)
  {
    hide PrivateState.Reconcile, PrivateState.ApplyAll;
    var recorded := Log(l, StreamReplay.PrivateReconciliation(r));
    StreamReplay.OfAppend(l.log, StreamReplay.PrivateReconciliation(r));
    var applied := recorded.(account := PrivateState.ApplyAll(PrivateState.Reconcile(l.account, r), l.buffer), buffer := []);
    assert Replayed(applied).account == applied.account && Replayed(applied).synchronized;
    if applied.account.streamExpired {
      if !l.restartPending { ActualRestartSimulates(applied); }
    } else {
      StreamReplay.OfAppend(applied.log, PrivateTransition(PrivateRunning));
    }
  }

  lemma {:induction false} RunningMessageSimulates(l: Lane, e: PrivateState.Event)
    requires Simulates(l) && l.state.Running?
    ensures Simulates(Receive(l, e))
  {
    hide PrivateState.ApplyEvent;
    StreamReplay.OfAppend(l.log, PrivateMessage(e));
    var applied := Log(l, PrivateMessage(e)).(account := PrivateState.ApplyEvent(l.account, e).0);
    RestartSimulates(applied);
  }

  lemma {:induction false} BufferedMessageSimulates(l: Lane, e: PrivateState.Event)
    requires Simulates(l) && (l.state.Synchronizing? || l.state.Backoff?)
    ensures Simulates(Receive(l, e))
  {
    hide PrivateState.ApplyEvent;
    StreamReplay.OfAppend(l.log, PrivateMessage(e));
    RestartSimulates(Log(l, PrivateMessage(e)).(buffer := l.buffer + [e]));
  }

  lemma {:induction false} IdleMessageSimulatesIff(l: Lane, e: PrivateState.Event)
    requires WellFormed(l) && Simulates(l) && (l.state.Connecting? || l.state.Stopped?)
    ensures Simulates(Receive(l, e)) <==> Benign(l, MessageDecoded(e))
  {
    hide PrivateState.ApplyEvent, PrivateState.Ignores;
    PrivateState.IgnoresIff(l.account, e);
    StreamReplay.OfAppend(l.log, PrivateMessage(e));
    assert |l.buffer + [e]| > 0;
  }

  lemma {:induction false} MessageSimulatesIff(l: Lane, e: PrivateState.Event)
    requires WellFormed(l) && Simulates(l)
    ensures Simulates(Receive(l, e)) <==> Benign(l, MessageDecoded(e))
  {
    hide Simulates, Receive;
    match l.state {
      case Running => RunningMessageSimulates(l, e);
      case Synchronizing => BufferedMessageSimulates(l, e);
      case Backoff => BufferedMessageSimulates(l, e);
      case _ => IdleMessageSimulatesIff(l, e);
    }
  }

  lemma {:induction false} ConnectSimulates(l: Lane)
    requires l.desiredRunning && Replayed(l).account == l.account
    ensures Simulates(Connect(l))
  {
    StreamReplay.OfAppend(l.log, PrivateTransition(CreatingListenKey));
  }

  lemma {:induction false} ProgressSimulates(l: Lane, e: Event)
    requires WellFormed(l) && Simulates(l) && Possible(l, e) && (e.ListenKeyCreated? || e.SocketOpened?)
    ensures Simulates(Handle(l, e))
  {
    hide StreamReplay.Of, WellFormed, Possible;
    PossibleFits(l, e);
    LogTransition(Staged(l, e.epoch, Created).(listenKey := true), PrivateConnecting);
    LogTransition(Staged(l, e.epoch, Opened).(state := Synchronizing), PrivateSynchronizing);
  }

  lemma {:induction false} ControlSimulates(l: Lane, e: Event)
    requires Simulates(l) && (e.Start? || e.Stop? || e.TimerFired? || e.CleanupDone?)
    ensures Simulates(Handle(l, e))
  {
    hide StreamReplay.Of, Connect;
    match e {
      case Start => if !l.desiredRunning { ConnectSimulates(l.(desiredRunning := true)); }
      case Stop =>
        LogTransition(l.(desiredRunning := false, epoch := l.epoch + 1, restartTimer := None, listenKey := false, buffer := [], state := Stopped),
                      PrivateStopped);
      case TimerFired =>
        if l.restartTimer.Some? && l.desiredRunning && l.epoch == l.restartTimer.value {
          ConnectSimulates(l.(restartTimer := None, restartPending := false));
        }
      case CleanupDone(_) =>
    }
  }

  lemma {:induction false} FailureSimulates(l: Lane, e: Event)
    requires Simulates(l)
    requires e.ListenKeyFailed? || e.SnapshotFailed? || e.SocketError? || e.SocketClosed? || e.KeepAliveFailed?
    ensures Simulates(Handle(l, e))
  {
    hide Simulates, ScheduleRestart;
    NoticeSimulates(l, OtherRecord);
    NoticeSimulates(l, PrivateTransition(PrivateClosed));
    StagedSimulates(l, e.epoch, Dead);
    StagedSimulates(l, e.epoch, Answered);
    NoticeSimulates(Staged(l, e.epoch, Dead), OtherRecord);
    NoticeSimulates(Staged(l, e.epoch, Answered), OtherRecord);
  }

  /** Pending continuations are not part of what replay must know. */
  lemma {:induction false} StagedSimulates(l: Lane, epoch: nat, stage: Stage)
    ensures Simulates(Staged(l, epoch, stage)) == Simulates(l)
  {}

  lemma {:induction false} DecodingSimulates(l: Lane, decoding: multiset<PrivateState.Event>, e: Event)
    ensures Simulates(l.(decoding := decoding)) == Simulates(l)
    ensures Benign(l.(decoding := decoding), e) == Benign(l, e)
  {
    hide PrivateState.Reconcile, PrivateState.ApplyAll, PrivateState.Ignores;
  }

  lemma {:induction false} DecodingKeepsShape(l: Lane, decoding: multiset<PrivateState.Event>)
    ensures WellFormed(l.(decoding := decoding)) == WellFormed(l)
  {}

  lemma {:induction false} StepKeepsShape(l: Lane, e: Event)
    requires WellFormed(l) && Possible(l, e)
    ensures WellFormed(Handle(l, e)) && Handle(l, e).maximumBuffered == l.maximumBuffered
  {
    hide ScheduleRestart, Connect, Synchronize, Receive;
    match e {
      case Start => ConnectKeepsShape(l.(desiredRunning := true));
      case TimerFired => ConnectKeepsShape(l.(restartTimer := None, restartPending := false));
      case SnapshotArrived(epoch, r) => if epoch == l.epoch && l.desiredRunning { SynchronizeKeepsShape(Staged(l, epoch, Answered), r); }
      case MessageDecoded(event) => ReceiveKeepsShape(l.(decoding := l.decoding - multiset{event}), event);
      case ListenKeyFailed(epoch) => RestartKeepsShape(Log(Staged(l, epoch, Dead), OtherRecord));
      case SnapshotFailed(epoch) => RestartKeepsShape(Log(Staged(l, epoch, Answered), OtherRecord));
      case SocketClosed(_) => RestartKeepsShape(Log(l, PrivateTransition(PrivateClosed)));
      case SocketError(_) => RestartKeepsShape(Log(l, OtherRecord));
      case KeepAliveFailed(_) => RestartKeepsShape(Log(l, OtherRecord));
      case _ => PlainStepKeepsShape(l, e);
    }
  }

  lemma {:induction false} PlainStepKeepsShape(l: Lane, e: Event)
    requires WellFormed(l) && Possible(l, e)
    requires e.Stop? || e.ListenKeyCreated? || e.SocketOpened? || e.FrameArrived? || e.CleanupDone?
    ensures WellFormed(Handle(l, e)) && Handle(l, e).maximumBuffered == l.maximumBuffered
  {
    hide PrivateState.Reconcile, PrivateState.ApplyAll, PrivateState.ApplyEvent, ScheduleRestart, Connect, Synchronize, Receive;
  }

  lemma {:induction false} RestartKeepsShape(l: Lane)
    ensures WellFormed(l) ==> WellFormed(ScheduleRestart(l))
    ensures ScheduleRestart(l).maximumBuffered == l.maximumBuffered
  {}

  lemma {:induction false} ConnectKeepsShape(l: Lane)
    ensures l.desiredRunning && l.maximumBuffered >= 1 && (forall epoch :: epoch in l.connections ==> epoch <= l.epoch) ==> WellFormed(Connect(l))
    ensures Connect(l).maximumBuffered == l.maximumBuffered
  {}

  lemma {:induction false} SynchronizeKeepsShape(l: Lane, r: PrivateState.Reconciliation)
    requires WellFormed(l) && l.desiredRunning && IsAt(l, l.epoch, {Answered})
    ensures WellFormed(Synchronize(l, r)) && Synchronize(l, r).maximumBuffered == l.maximumBuffered
  {
    hide PrivateState.Reconcile, PrivateState.ApplyAll;
  }

  lemma {:induction false} ReceiveKeepsShape(l: Lane, e: PrivateState.Event)
    requires WellFormed(l)
    ensures WellFormed(Receive(l, e)) && Receive(l, e).maximumBuffered == l.maximumBuffered
  {
    hide PrivateState.ApplyEvent;
  }

  /** Step by step and in both directions: a step keeps replay and the live lane in step if and only if it is benign. */
  lemma {:induction false} StepSimulatesIff(l: Lane, e: Event)
    requires WellFormed(l) && Simulates(l) && Possible(l, e)
    ensures Simulates(Handle(l, e)) <==> Benign(l, e)
  {
    hide Simulates, Receive, Synchronize, ScheduleRestart, Connect, WellFormed, Possible;
    PossibleFits(l, e);
    match e {
      case SnapshotArrived(epoch, r) =>
        StagedSimulates(l, epoch, Answered);
        if epoch == l.epoch && l.desiredRunning { SynchronizeSimulatesIff(Staged(l, epoch, Answered), r); }
      case FrameArrived(_, frame) => DecodingSimulates(l, l.decoding + multiset{frame}, e);
      case MessageDecoded(event) =>
        DecodingSimulates(l, l.decoding - multiset{event}, e);
        DecodingKeepsShape(l, l.decoding - multiset{event});
        MessageSimulatesIff(l.(decoding := l.decoding - multiset{event}), event);
      case Start => ControlSimulates(l, e);
      case Stop => ControlSimulates(l, e);
      case ListenKeyCreated(_) => ProgressSimulates(l, e);
      case SocketOpened(_) => ProgressSimulates(l, e);
      case TimerFired => ControlSimulates(l, e);
      case CleanupDone(_) => ControlSimulates(l, e);
      case _ => FailureSimulates(l, e);
    }
  }

  // ---------------------------------------------------------------- whole runs

  function Run(l: Lane, events: seq<Event>): Lane
    decreases |events|
  {
    if events == [] then l else Handle(Run(l, events[..|events| - 1]), events[|events| - 1])
  }

  ghost predicate PossibleRun(l: Lane, events: seq<Event>) {
    forall i :: 0 <= i < |events| ==> Possible(Run(l, events[..i]), events[i])
  }

  ghost predicate BenignRun(l: Lane, events: seq<Event>) {
    forall i :: 0 <= i < |events| ==> Benign(Run(l, events[..i]), events[i])
  }

  lemma {:induction false} PrefixRuns(l: Lane, events: seq<Event>)
    requires events != []
    ensures var init, last := events[..|events| - 1], events[|events| - 1];
      && (PossibleRun(l, events) <==> PossibleRun(l, init) && Possible(Run(l, init), last))
      && (BenignRun(l, events) <==> BenignRun(l, init) && Benign(Run(l, init), last))
  {
    hide Possible, Benign, Run;
    var init := events[..|events| - 1];
    assert forall i :: 0 <= i < |init| ==> init[..i] == events[..i] && init[i] == events[i];
  }

  /** With frames arriving during the snapshot await, buffer overflow, listen-key expiry, reconnects and stale
      continuations in any order, the account rebuilt from the log equals the live one after every handler of
      every run whose steps are benign. */
  lemma {:induction false} ReplayRefinesPrivateLane(maximumBuffered: nat, events: seq<Event>)
    requires maximumBuffered >= 1
    requires PossibleRun(Idle(maximumBuffered), events) && BenignRun(Idle(maximumBuffered), events)
    ensures Simulates(Run(Idle(maximumBuffered), events)) && WellFormed(Run(Idle(maximumBuffered), events))
    ensures Replayed(Run(Idle(maximumBuffered), events)).account == Run(Idle(maximumBuffered), events).account
    decreases |events|
  {
    hide Handle, Benign, Possible, PossibleRun, BenignRun;
    var start := Idle(maximumBuffered);
    if events != [] {
      PrefixRuns(start, events);
      var init, last := events[..|events| - 1], events[|events| - 1];
      ReplayRefinesPrivateLane(maximumBuffered, init);
      StepSimulatesIff(Run(start, init), last);
      StepKeepsShape(Run(start, init), last);
    }
  }

  // ---------------------------------------------------------------- the ways it fails

  /** A run the runtime may deliver, and the lane it ends in. */
  ghost predicate Reaches(maximumBuffered: nat, events: seq<Event>, l: Lane) {
    PossibleRun(Idle(maximumBuffered), events) && Run(Idle(maximumBuffered), events) == l
  }

  lemma {:induction false} Next(maximumBuffered: nat, events: seq<Event>, l: Lane, e: Event)
    requires Reaches(maximumBuffered, events, l) && Possible(l, e)
    ensures Reaches(maximumBuffered, events + [e], Handle(l, e))
  {
    hide Handle, Possible, PossibleRun, Idle;
    PrefixRuns(Idle(maximumBuffered), events + [e]);
    assert (events + [e])[..|events|] == events;
  }

  const NO_CHANGE: PrivateState.Reconciliation := PrivateState.Reconciliation(None, None, None, None)

  /** What matters of a lane that has applied nothing yet, and of its replay. */
  ghost predicate Looks(l: Lane, maximumBuffered: nat, state: Phase, epoch: nat, restartPending: bool, restartTimer: Option<nat>) {
    && l.maximumBuffered == maximumBuffered && l.state == state && l.epoch == epoch && l.desiredRunning == !state.Stopped?
    && l.restartPending == restartPending && l.restartTimer == restartTimer
    && l.account == PrivateState.NEW_ACCOUNT && Replayed(l).account == PrivateState.NEW_ACCOUNT
  }

  /** The first connection opens and awaits its snapshot. */
  function Opening(): seq<Event> { [] + [Start] + [ListenKeyCreated(1)] + [SocketOpened(1)] }

  lemma {:induction false} FirstOpens(maximumBuffered: nat) returns (l: Lane)
    ensures Reaches(maximumBuffered, Opening(), l) && Looks(l, maximumBuffered, Synchronizing, 1, false, None)
    ensures l.buffer == [] && l.connections == map[1 := Opened] && l.decoding == multiset{} && !Replayed(l).synchronized && Replayed(l).buffer == []
  {
    hide StreamReplay.Of, Reaches;
    var s0 := Idle(maximumBuffered);
    assert Reaches(maximumBuffered, [], s0) by { StartReaches(maximumBuffered); }
    EmptyReplay();
    var s1, s2 := Handle(s0, Start), Handle(Handle(s0, Start), ListenKeyCreated(1));
    LogTransition(s0.(desiredRunning := true, restartTimer := None, epoch := 1, state := Connecting, buffer := [], connections := map[1 := KeyRequested]),
                  CreatingListenKey);
    LogTransition(Staged(s1, 1, Created).(listenKey := true), PrivateConnecting);
    LogTransition(Staged(s2, 1, Opened).(state := Synchronizing), PrivateSynchronizing);
    l := Handle(s2, SocketOpened(1));
    Next(maximumBuffered, [], s0, Start);
    Next(maximumBuffered, [] + [Start], s1, ListenKeyCreated(1));
    Next(maximumBuffered, [] + [Start] + [ListenKeyCreated(1)], s2, SocketOpened(1));
  }

  lemma {:induction false} StartReaches(maximumBuffered: nat)
    ensures Reaches(maximumBuffered, [], Idle(maximumBuffered))
  {}

  lemma {:induction false} EmptyReplay()
    ensures StreamReplay.Of([]) == StreamReplay.START
  {}

  /** A frame of the first connection arrives; the connection fails; the frame is decoded while the second one
      is being set up, which then synchronizes. */
  function FrameThenFailure(e: PrivateState.Event): seq<Event> { Opening() + [FrameArrived(1, e)] + [SocketError(1)] }

  function Reconnecting(e: PrivateState.Event): seq<Event> { FrameThenFailure(e) + [CleanupDone(2)] + [TimerFired] }

  function LateFrame(e: PrivateState.Event): seq<Event> {
    Reconnecting(e) + [MessageDecoded(e)] + [ListenKeyCreated(3)] + [SocketOpened(3)] + [SnapshotArrived(3, NO_CHANGE)]
  }

  lemma {:induction false} SecondConnect(maximumBuffered: nat, e: PrivateState.Event) returns (l: Lane)
    ensures Reaches(maximumBuffered, Reconnecting(e), l) && Looks(l, maximumBuffered, Connecting, 3, false, None)
    ensures l.buffer == [] && IsAt(l, 3, {KeyRequested}) && l.decoding == multiset{e} && !Replayed(l).synchronized && Replayed(l).buffer == []
  {
    hide StreamReplay.Of, Reaches, FrameThenFailure;
    var s5 := FirstFails(maximumBuffered, e);
    var s6 := Handle(s5, CleanupDone(2));
    Next(maximumBuffered, FrameThenFailure(e), s5, CleanupDone(2));
    l := Handle(s6, TimerFired);
    LogTransition(s6.(restartTimer := None, restartPending := false, epoch := 3, state := Connecting, buffer := [],
                      connections := s6.connections[3 := KeyRequested]), CreatingListenKey);
    Next(maximumBuffered, FrameThenFailure(e) + [CleanupDone(2)], s6, TimerFired);
  }

  lemma {:induction false} FirstFails(maximumBuffered: nat, e: PrivateState.Event) returns (l: Lane)
    ensures Reaches(maximumBuffered, FrameThenFailure(e), l) && Looks(l, maximumBuffered, Backoff, 2, true, None)
    ensures l.buffer == [] && l.connections == map[1 := Opened] && l.decoding == multiset{e} && !Replayed(l).synchronized && Replayed(l).buffer == []
  {
    hide StreamReplay.Of, Reaches, Opening;
    var s3 := FirstOpens(maximumBuffered);
    var s4 := Handle(s3, FrameArrived(1, e));
    Next(maximumBuffered, Opening(), s3, FrameArrived(1, e));
    l := Handle(s4, SocketError(1));
    LogNotice(s4);
    LogTransition(Log(s4, OtherRecord).(restartPending := true, epoch := 2, listenKey := false, buffer := [], state := Backoff,
                    reconnectAttempt := s4.reconnectAttempt + 1, restartTimer := None), PrivateBackoff);
    Next(maximumBuffered, Opening() + [FrameArrived(1, e)], s4, SocketError(1));
  }

  /** Not only the bookkeeping but the account itself differs afterwards: the live lane applied the late frame
      and replay dropped it, although every continuation ran once and in order. */
  lemma {:induction false} LateFrameIsLostByReplay(maximumBuffered: nat, e: PrivateState.Event)
    requires maximumBuffered >= 1 && e.OrderUpdate?
    ensures var l := Run(Idle(maximumBuffered), LateFrame(e));
      && PossibleRun(Idle(maximumBuffered), LateFrame(e))
      && l.state.Running? && Replayed(l).synchronized
      && l.account.appliedCount == 1 && Replayed(l).account.appliedCount == 0
  {
    hide StreamReplay.Of, Reconnecting;
    var m, run := maximumBuffered, Reconnecting(e);
    var s7 := SecondConnect(m, e);
    var s8 := Handle(s7, MessageDecoded(e));
    StreamReplay.OfAppend(s7.log, PrivateMessage(e));
    assert s7.buffer + [e] == [e];
    LateFrameSynchronizes(s8, e);
    var s9 := Handle(s8, ListenKeyCreated(3));
    var s10 := Handle(s9, SocketOpened(3));
    hide Handle, Reaches;
    Next(m, run, s7, MessageDecoded(e));
    Next(m, run + [MessageDecoded(e)], s8, ListenKeyCreated(3));
    Next(m, run + [MessageDecoded(e)] + [ListenKeyCreated(3)], s9, SocketOpened(3));
    Next(m, run + [MessageDecoded(e)] + [ListenKeyCreated(3)] + [SocketOpened(3)], s10, SnapshotArrived(3, NO_CHANGE));
    ReachesRun(m, LateFrame(e), Handle(s10, SnapshotArrived(3, NO_CHANGE)));
  }

  lemma {:induction false} ReachesRun(maximumBuffered: nat, events: seq<Event>, l: Lane)
    requires Reaches(maximumBuffered, events, l)
    ensures PossibleRun(Idle(maximumBuffered), events) && Run(Idle(maximumBuffered), events) == l
  {}

  /** Setting up a connection whose key is requested, with one frame already in the buffer. */
  lemma {:induction false} LateFrameSynchronizes(l: Lane, e: PrivateState.Event)
    requires l.state.Connecting? && l.desiredRunning && l.epoch == 3 && !l.restartPending && l.buffer == [e] && e.OrderUpdate?
    requires IsAt(l, 3, {KeyRequested})
    requires l.account == PrivateState.NEW_ACCOUNT && Replayed(l).account == PrivateState.NEW_ACCOUNT
    ensures Possible(l, ListenKeyCreated(3)) && Possible(Handle(l, ListenKeyCreated(3)), SocketOpened(3))
    ensures Possible(Handle(Handle(l, ListenKeyCreated(3)), SocketOpened(3)), SnapshotArrived(3, NO_CHANGE))
    ensures var t := Handle(Handle(Handle(l, ListenKeyCreated(3)), SocketOpened(3)), SnapshotArrived(3, NO_CHANGE));
      && t.state.Running? && Replayed(t).synchronized
      && t.account.appliedCount == 1 && Replayed(t).account.appliedCount == 0
  {
    hide StreamReplay.Of, PrivateState.ApplyAll, PrivateState.Reconcile;
    var s7 := Handle(l, ListenKeyCreated(3));
    LogTransition(Staged(l, 3, Created).(listenKey := true), PrivateConnecting);
    var s8 := Handle(s7, SocketOpened(3));
    LogTransition(Staged(s7, 3, Opened).(state := Synchronizing), PrivateSynchronizing);
    SingleEvent(e);
    var answered := Staged(s8, 3, Answered);
    LogReconciliation(answered, NO_CHANGE);
    var applied := Log(answered, StreamReplay.PrivateReconciliation(NO_CHANGE))
      .(account := PrivateState.ApplyAll(PrivateState.Reconcile(s8.account, NO_CHANGE), s8.buffer), buffer := [], reconnectAttempt := 0, state := Running);
    LogTransition(applied, PrivateRunning);
  }

  lemma {:induction false} LogReconciliation(l: Lane, r: PrivateState.Reconciliation)
    ensures var t := Replayed(Log(l, StreamReplay.PrivateReconciliation(r)));
      && t.account == PrivateState.ApplyAll(PrivateState.Reconcile(Replayed(l).account, r), Replayed(l).buffer)
      && t.synchronized
  {
    StreamReplay.OfAppend(l.log, StreamReplay.PrivateReconciliation(r));
  }

  lemma {:induction false} SingleEvent(e: PrivateState.Event)
    requires e.OrderUpdate?
    ensures var a := PrivateState.Reconcile(PrivateState.NEW_ACCOUNT, NO_CHANGE);
      && PrivateState.ApplyAll(a, []).appliedCount == 0
      && PrivateState.ApplyAll(a, [e]).appliedCount == 1 && !PrivateState.ApplyAll(a, [e]).streamExpired
  {
    var a := PrivateState.Reconcile(PrivateState.NEW_ACCOUNT, NO_CHANGE);
    assert [e][1..] == [];
    assert PrivateState.ApplyAll(a, [e]) == PrivateState.ApplyAll(PrivateState.ApplyEvent(a, e).0, []);
  }

  /** A frame of the first connection arrives before its snapshot and is decoded after the lane has stopped. */
  function FrameInRun(e: PrivateState.Event): seq<Event> { Opening() + [FrameArrived(1, e)] + [SnapshotArrived(1, NO_CHANGE)] }

  function FrameAfterStop(e: PrivateState.Event): seq<Event> { FrameInRun(e) + [Stop] + [MessageDecoded(e)] }

  lemma {:induction false} FirstRuns(maximumBuffered: nat, e: PrivateState.Event) returns (l: Lane)
    ensures Reaches(maximumBuffered, FrameInRun(e), l)
    ensures l.account == PrivateState.NEW_ACCOUNT && Replayed(l).account == PrivateState.NEW_ACCOUNT && Replayed(l).synchronized
    ensures l.decoding == multiset{e} && l.buffer == []
  {
    hide StreamReplay.Of, Reaches, Opening;
    var s3 := FirstOpens(maximumBuffered);
    var s4 := Handle(s3, FrameArrived(1, e));
    assert s4 == s3.(decoding := multiset{e});
    l := Handle(s4, SnapshotArrived(1, NO_CHANGE));
    EmptySynchronizes(s4, 1);
    hide Handle;
    Next(maximumBuffered, Opening(), s3, FrameArrived(1, e));
    Next(maximumBuffered, Opening() + [FrameArrived(1, e)], s4, SnapshotArrived(1, NO_CHANGE));
  }

  lemma {:induction false} StoppedReceives(l: Lane, e: PrivateState.Event)
    requires l.state.Stopped? && !l.desiredRunning && e.OrderUpdate?
    requires l.account == PrivateState.NEW_ACCOUNT && Replayed(l).account == PrivateState.NEW_ACCOUNT && Replayed(l).synchronized
    ensures var t := Receive(l.(decoding := l.decoding - multiset{e}), e);
      t.state.Stopped? && t.account.appliedCount == 0 && Replayed(t).account.appliedCount == 1
  {
    hide StreamReplay.Of;
    StreamReplay.OfAppend(l.log, PrivateMessage(e));
  }

  /** Replay applies it and the live lane does not. */
  lemma {:induction false} FrameAfterStopIsReplayed(maximumBuffered: nat, e: PrivateState.Event)
    requires e.OrderUpdate?
    ensures var l := Run(Idle(maximumBuffered), FrameAfterStop(e));
      && PossibleRun(Idle(maximumBuffered), FrameAfterStop(e))
      && l.state.Stopped? && l.account.appliedCount == 0 && Replayed(l).account.appliedCount == 1
  {
    hide StreamReplay.Of, FrameInRun, Reaches;
    var m, run := maximumBuffered, FrameInRun(e);
    var s5 := FirstRuns(m, e);
    var s6 := Halt(s5);
    LogTransition(s5.(desiredRunning := false, epoch := s5.epoch + 1, restartTimer := None, listenKey := false, buffer := [], state := Stopped), PrivateStopped);
    var s7 := Receive(s6.(decoding := s6.decoding - multiset{e}), e);
    StoppedReceives(s6, e);
    Next(m, run, s5, Stop);
    Next(m, run + [Stop], s6, MessageDecoded(e));
    ReachesRun(m, FrameAfterStop(e), s7);
  }

  /** A snapshot that changes nothing, with nothing buffered. */
  lemma {:induction false} EmptySynchronizes(l: Lane, epoch: nat)
    requires l.state.Synchronizing? && l.desiredRunning && l.epoch == epoch && l.buffer == []
    requires l.account == PrivateState.NEW_ACCOUNT && Replayed(l).account == PrivateState.NEW_ACCOUNT && Replayed(l).buffer == []
    ensures var t := Handle(l, SnapshotArrived(epoch, NO_CHANGE));
      && t.state.Running? && t.account == PrivateState.NEW_ACCOUNT && Replayed(t).account == PrivateState.NEW_ACCOUNT && Replayed(t).synchronized
      && t.decoding == l.decoding && t.buffer == [] && t.maximumBuffered == l.maximumBuffered
  {
    hide StreamReplay.Of;
    var answered := Staged(l, epoch, Answered);
    LogReconciliation(answered, NO_CHANGE);
    var applied := Log(answered, StreamReplay.PrivateReconciliation(NO_CHANGE)).(account := PrivateState.NEW_ACCOUNT, buffer := [], reconnectAttempt := 0, state := Running);
    LogTransition(applied, PrivateRunning);
  }

  /** The first connection fails, the lane is stopped while the restart timer is armed and started again, and
      the next connection opens. */
  function Rearmed(): seq<Event> { Opening() + [SocketError(1)] + [CleanupDone(2)] + [Stop] }

  function Reopened(): seq<Event> { Rearmed() + [Start] + [ListenKeyCreated(4)] + [SocketOpened(4)] }

  lemma {:induction false} StopsArmed(maximumBuffered: nat) returns (l: Lane)
    ensures Reaches(maximumBuffered, Rearmed(), l) && Looks(l, maximumBuffered, Stopped, 3, true, None)
    ensures l.decoding == multiset{}
  {
    hide StreamReplay.Of, Reaches, Opening;
    var s3 := FirstOpens(maximumBuffered);
    var s4 := Handle(s3, SocketError(1));
    LogNotice(s3);
    LogTransition(Log(s3, OtherRecord).(restartPending := true, epoch := 2, listenKey := false, buffer := [], state := Backoff,
                    reconnectAttempt := s3.reconnectAttempt + 1, restartTimer := None), PrivateBackoff);
    var s5 := Handle(s4, CleanupDone(2));
    l := Handle(s5, Stop);
    LogTransition(s5.(desiredRunning := false, epoch := 3, restartTimer := None, listenKey := false, buffer := [], state := Stopped), PrivateStopped);
    hide Handle;
    Next(maximumBuffered, Opening(), s3, SocketError(1));
    Next(maximumBuffered, Opening() + [SocketError(1)], s4, CleanupDone(2));
    Next(maximumBuffered, Opening() + [SocketError(1)] + [CleanupDone(2)], s5, Stop);
  }

  lemma {:induction false} ReopensStuck(maximumBuffered: nat) returns (l: Lane)
    ensures Reaches(maximumBuffered, Reopened(), l) && Looks(l, maximumBuffered, Synchronizing, 4, true, None)
    ensures l.buffer == [] && IsAt(l, 4, {Opened}) && l.decoding == multiset{} && !Replayed(l).synchronized && Replayed(l).buffer == []
  {
    hide StreamReplay.Of, Reaches, Rearmed;
    var s6 := StopsArmed(maximumBuffered);
    var s7 := Handle(s6, Start);
    LogTransition(s6.(desiredRunning := true, restartTimer := None, epoch := 4, state := Connecting, buffer := [],
                      connections := s6.connections[4 := KeyRequested]), CreatingListenKey);
    var s8 := Handle(s7, ListenKeyCreated(4));
    LogTransition(Staged(s7, 4, Created).(listenKey := true), PrivateConnecting);
    l := Handle(s8, SocketOpened(4));
    LogTransition(Staged(s8, 4, Opened).(state := Synchronizing), PrivateSynchronizing);
    hide Handle;
    Next(maximumBuffered, Rearmed(), s6, Start);
    Next(maximumBuffered, Rearmed() + [Start], s7, ListenKeyCreated(4));
    Next(maximumBuffered, Rearmed() + [Start] + [ListenKeyCreated(4)], s8, SocketOpened(4));
  }

  /** Then the stream expires while it synchronizes, and one more frame arrives. */
  function Expiry(x: PrivateState.Event): seq<Event> {
    Reopened() + [FrameArrived(4, x)] + [MessageDecoded(x)] + [SnapshotArrived(4, NO_CHANGE)]
  }

  function ExpiryUnrestarted(x: PrivateState.Event, e: PrivateState.Event): seq<Event> { Expiry(x) + [FrameArrived(4, e)] + [MessageDecoded(e)] }

  lemma {:induction false} ExpiresStuck(maximumBuffered: nat, x: PrivateState.Event) returns (l: Lane)
    requires maximumBuffered >= 1 && x.ListenKeyExpired?
    ensures Reaches(maximumBuffered, Expiry(x), l) && l.maximumBuffered == maximumBuffered
    ensures l.state.Synchronizing? && l.desiredRunning && l.epoch == 4 && l.buffer == [] && l.decoding == multiset{} && IsAt(l, 4, {Answered})
    ensures l.account.streamExpired && l.account.appliedCount == 1 && l.account.window == [x.body]
    ensures Replayed(l).account == l.account && Replayed(l).synchronized
  {
    hide StreamReplay.Of, Reopened, Reaches;
    var m, run := maximumBuffered, Reopened();
    var s9 := ReopensStuck(m);
    var s10 := Handle(s9, FrameArrived(4, x));
    assert s10 == s9.(decoding := multiset{x});
    var s11 := Handle(s10, MessageDecoded(x));
    StreamReplay.OfAppend(s10.log, PrivateMessage(x));
    assert s9.buffer + [x] == [x];
    l := Handle(s11, SnapshotArrived(4, NO_CHANGE));
    ExpirySynchronizes(s11, x);
    hide Handle;
    Next(m, run, s9, FrameArrived(4, x));
    Next(m, run + [FrameArrived(4, x)], s10, MessageDecoded(x));
    Next(m, run + [FrameArrived(4, x)] + [MessageDecoded(x)], s11, SnapshotArrived(4, NO_CHANGE));
  }

  /** No restart happens, so the lane goes on synchronizing for ever: it buffers what replay applies. */
  lemma {:induction false} ExpiryWithoutRestart(maximumBuffered: nat, x: PrivateState.Event, e: PrivateState.Event)
    requires maximumBuffered >= 1 && x.ListenKeyExpired? && e.OrderUpdate? && x.body != e.body
    ensures var l := Run(Idle(maximumBuffered), ExpiryUnrestarted(x, e));
      && PossibleRun(Idle(maximumBuffered), ExpiryUnrestarted(x, e))
      && l.state.Synchronizing? && l.account.streamExpired && l.account.appliedCount == 1 && Replayed(l).account.appliedCount == 2
  {
    hide StreamReplay.Of, Expiry, Reaches;
    var m, run := maximumBuffered, Expiry(x);
    var s12 := ExpiresStuck(m, x);
    var s13 := Handle(s12, FrameArrived(4, e));
    var s14 := Handle(s13, MessageDecoded(e));
    StreamReplay.OfAppend(s13.log, PrivateMessage(e));
    hide Handle;
    Next(m, run, s12, FrameArrived(4, e));
    Next(m, run + [FrameArrived(4, e)], s13, MessageDecoded(e));
    ReachesRun(m, ExpiryUnrestarted(x, e), s14);
  }

  /** An expiry in the buffer, met with a restart already pending. */
  lemma {:induction false} ExpirySynchronizes(l: Lane, x: PrivateState.Event)
    requires l.state.Synchronizing? && l.desiredRunning && l.epoch == 4 && l.restartPending && l.buffer == [x] && x.ListenKeyExpired?
    requires l.account == PrivateState.NEW_ACCOUNT && Replayed(l).account == PrivateState.NEW_ACCOUNT && Replayed(l).buffer == [x]
    ensures var t := Handle(l, SnapshotArrived(4, NO_CHANGE));
      && t.state.Synchronizing? && t.desiredRunning && t.epoch == 4 && t.buffer == [] && t.decoding == l.decoding && t.maximumBuffered == l.maximumBuffered
      && IsAt(t, 4, {Answered}) && t.account.streamExpired && t.account.appliedCount == 1 && t.account.window == [x.body]
      && Replayed(t).account == t.account && Replayed(t).synchronized
  {
    hide StreamReplay.Of;
    var answered := Staged(l, 4, Answered);
    LogReconciliation(answered, NO_CHANGE);
    var a := PrivateState.Reconcile(PrivateState.NEW_ACCOUNT, NO_CHANGE);
    assert [x][1..] == [];
    assert PrivateState.ApplyAll(a, [x]) == PrivateState.ApplyAll(PrivateState.ApplyEvent(a, x).0, []);
    assert [] + [x.body] == [x.body];
  }

  /** Stopping while a restart timer is armed clears the timer but not the pending flag. From then on no error,
      overflow or expiry restarts the lane again, however often it is started, until some cleanup completes. */
  lemma {:induction false} StopDuringBackoffDisablesRestarts(l: Lane, events: seq<Event>)
    requires l.restartPending && l.restartTimer.Some?
    requires forall i :: 0 <= i < |events| ==> !events[i].CleanupDone?
    ensures var t := Run(Handle(l, Stop), events);
      t.restartPending && t.restartTimer.None? && !t.state.Backoff? && ScheduleRestart(t) == t
    decreases |events|
  {
    hide Handle, ScheduleRestart;
    var stopped := Handle(l, Stop);
    if events == [] {
      StopSticks(l);
    } else {
      StopDuringBackoffDisablesRestarts(l, events[..|events| - 1]);
      StaysStuck(Run(stopped, events[..|events| - 1]), events[|events| - 1]);
    }
  }

  /** A restart is pending that nothing will carry out. */
  predicate Stuck(l: Lane) { l.restartPending && l.restartTimer.None? && !l.state.Backoff? && ScheduleRestart(l) == l }

  lemma {:induction false} StopSticks(l: Lane)
    requires l.restartPending && l.restartTimer.Some?
    ensures Stuck(Handle(l, Stop))
  {}

  lemma {:induction false} StaysStuck(l: Lane, e: Event)
    requires Stuck(l) && !e.CleanupDone?
    ensures Stuck(Handle(l, e))
  {
    hide PrivateState.ApplyEvent, PrivateState.ApplyAll, PrivateState.Reconcile;
  }

  // ---------------------------------------------------------------- what the lane makes of its traffic

  predicate IsFailure(e: Event) { e.ListenKeyFailed? || e.SnapshotFailed? || e.SocketError? || e.SocketClosed? || e.KeepAliveFailed? }

  /** A failure of the current connection, with no restart pending yet, leads back: the lane waits under a new epoch
      without key or buffer, the cleanup arms its timer, and when that fires it asks for a new key. The account stays. */
  lemma {:induction false} FailureReconnects(l: Lane, e: Event)
    requires l.desiredRunning && !l.restartPending && IsFailure(e) && e.epoch == l.epoch
    ensures var x := Handle(l, e);
      && x.state.Backoff? && x.epoch == l.epoch + 1 && x.restartPending && !x.listenKey && x.buffer == [] && x.reconnectAttempt == l.reconnectAttempt + 1
      && x.account == l.account && x.desiredRunning
    ensures var x := Handle(l, e); Handle(x, CleanupDone(x.epoch)) == x.(restartTimer := Some(x.epoch))
    ensures var x := Handle(l, e); var z := Handle(Handle(x, CleanupDone(x.epoch)), TimerFired);
      && z.state.Connecting? && z.epoch == x.epoch + 1 && !z.restartPending && z.restartTimer.None? && z.buffer == [] && z.desiredRunning
      && z.connections == x.connections[z.epoch := KeyRequested] && z.account == l.account
  {}

  /** A continuation of another epoch changes nothing but what is pending. */
  lemma {:induction false} StaleIsIgnored(l: Lane, e: Event)
    requires IsFailure(e) || e.ListenKeyCreated? || e.SocketOpened? || e.SnapshotArrived? || e.FrameArrived?
    requires e.epoch != l.epoch
    ensures Handle(l, e) == l.(connections := Handle(l, e).connections)
  {}

  function Decoded(events: seq<PrivateState.Event>): seq<Event> { seq(|events|, i requires 0 <= i < |events| => MessageDecoded(events[i])) }

  lemma {:induction false} DecodedGrows(events: seq<PrivateState.Event>)
    requires events != []
    ensures |Decoded(events)| == |events| && Decoded(events)[|events| - 1] == MessageDecoded(events[|events| - 1])
    ensures Decoded(events)[..|Decoded(events)| - 1] == Decoded(events[..|events| - 1])
  {}

  lemma {:induction false} RunningStep(l: Lane, e: PrivateState.Event)
    requires l.state.Running? && !PrivateState.ApplyEvent(l.account, e).0.streamExpired
    ensures var x := Handle(l, MessageDecoded(e)); x == l.(account := PrivateState.ApplyEvent(l.account, e).0, log := x.log, decoding := x.decoding)
  {
    hide PrivateState.ApplyEvent;
  }

  lemma {:induction false} WaitingStep(l: Lane, e: PrivateState.Event)
    requires !l.state.Running? && |l.buffer| < l.maximumBuffered
    ensures var x := Handle(l, MessageDecoded(e)); x == l.(buffer := l.buffer + [e], log := x.log, decoding := x.decoding)
  {}

  /** While the lane runs, every decoded event reaches the account, in order. */
  lemma {:induction false} MessagesAreApplied(l: Lane, events: seq<PrivateState.Event>)
    requires l.state.Running? && !PrivateState.ApplyAll(l.account, events).streamExpired
    ensures var x := Run(l, Decoded(events)); x == l.(account := PrivateState.ApplyAll(l.account, events), log := x.log, decoding := x.decoding)
    decreases |events|
  {
    hide PrivateState.ApplyEvent, PrivateState.ApplyAll, Decoded, Handle;
    PrivateState.ApplyAllConcat(l.account, [], []);
    if events == [] {
      assert Decoded(events) == [] by { NothingDecoded(); }
    } else {
      var init, last := events[..|events| - 1], events[|events| - 1];
      assert events == init + [last];
      PrivateState.ApplyAllConcat(l.account, init, [last]);
      PrivateState.ExpiryStays(PrivateState.ApplyAll(l.account, init), [last]);
      PrivateState.ApplyAllConcat(PrivateState.ApplyAll(l.account, init), [], []);
      MessagesAreApplied(l, init);
      DecodedGrows(events);
      assert Run(l, Decoded(events)) == Handle(Run(l, Decoded(init)), MessageDecoded(last));
      RunningStep(Run(l, Decoded(init)), last);
    }
  }

  lemma {:induction false} NothingDecoded()
    ensures Decoded([]) == []
  {}

  /** Before it runs they wait in the buffer, up to its size. */
  lemma {:induction false} MessagesWait(l: Lane, events: seq<PrivateState.Event>)
    requires !l.state.Running? && |l.buffer| + |events| <= l.maximumBuffered
    ensures var x := Run(l, Decoded(events)); x == l.(buffer := l.buffer + events, log := x.log, decoding := x.decoding)
    decreases |events|
  {
    hide Decoded, Handle;
    if events == [] {
      NothingDecoded();
      assert l.buffer + [] == l.buffer;
    } else {
      var init, last := events[..|events| - 1], events[|events| - 1];
      MessagesWait(l, init);
      DecodedGrows(events);
      assert Run(l, Decoded(events)) == Handle(Run(l, Decoded(init)), MessageDecoded(last));
      WaitingStep(Run(l, Decoded(init)), last);
      assert (l.buffer + init) + [last] == l.buffer + events;
    }
  }

  /** One too many, or a stream that has expired, sends the lane back unless it is going already. */
  lemma {:induction false} OverflowReconnects(l: Lane, e: PrivateState.Event)
    requires l.desiredRunning && !l.restartPending
    requires if l.state.Running? then PrivateState.ApplyEvent(l.account, e).0.streamExpired else |l.buffer| == l.maximumBuffered
    ensures var x := Handle(l, MessageDecoded(e));
      x.state.Backoff? && x.epoch == l.epoch + 1 && x.restartPending && x.buffer == [] && x.reconnectAttempt == l.reconnectAttempt + 1
  {
    hide PrivateState.ApplyEvent;
  }

  /** A whole connection: what arrives before the snapshot waits, the snapshot replaces what it brings, and then
      every event is applied once and in order; the lane runs, in its epoch. */
  lemma {:induction false} ConnectionFollows(l: Lane, before: seq<PrivateState.Event>, r: PrivateState.Reconciliation, after: seq<PrivateState.Event>)
    requires l.desiredRunning && l.state.Connecting? && l.buffer == [] && |before| <= l.maximumBuffered
    requires !PrivateState.ApplyAll(PrivateState.Reconcile(l.account, r), before + after).streamExpired
    ensures var events := [ListenKeyCreated(l.epoch), SocketOpened(l.epoch)] + Decoded(before) + [SnapshotArrived(l.epoch, r)] + Decoded(after);
      var x := Run(l, events);
      && x.state.Running? && x.epoch == l.epoch && x.desiredRunning && x.listenKey && x.reconnectAttempt == 0 && x.buffer == []
      && x.account == PrivateState.ApplyAll(PrivateState.Reconcile(l.account, r), before + after)
  {
    hide PrivateState.ApplyAll, PrivateState.ApplyEvent, PrivateState.Reconcile, Decoded;
    var ready := Handle(Handle(l, ListenKeyCreated(l.epoch)), SocketOpened(l.epoch));
    var account := PrivateState.Reconcile(l.account, r);
    PrivateState.ApplyAllConcat(account, before, after);
    PrivateState.ExpiryStays(PrivateState.ApplyAll(account, before), after);
    MessagesWait(ready, before);
    assert [] + before == before;
    var waiting := Run(ready, Decoded(before));
    var synchronized := Handle(waiting, SnapshotArrived(l.epoch, r));
    MessagesAreApplied(synchronized, after);
    RunTwo(l, ListenKeyCreated(l.epoch), SocketOpened(l.epoch));
    hide Handle;
    RunConcat(l, [ListenKeyCreated(l.epoch), SocketOpened(l.epoch)], Decoded(before));
    RunOne(l, [ListenKeyCreated(l.epoch), SocketOpened(l.epoch)] + Decoded(before), SnapshotArrived(l.epoch, r));
    RunConcat(l, [ListenKeyCreated(l.epoch), SocketOpened(l.epoch)] + Decoded(before) + [SnapshotArrived(l.epoch, r)], Decoded(after));
  }

  lemma {:induction false} RunOne(l: Lane, events: seq<Event>, e: Event)
    ensures Run(l, events + [e]) == Handle(Run(l, events), e)
  {
    hide Handle;
    assert (events + [e])[..|events|] == events;
  }

  lemma {:induction false} RunTwo(l: Lane, d: Event, e: Event)
    ensures Run(l, [d, e]) == Handle(Handle(l, d), e)
  {
    hide Handle;
    assert [d, e][..1] == [d] && [d][..0] == [];
    assert Run(l, [d]) == Handle(Run(l, []), d);
  }

  lemma {:induction false} RunConcat(l: Lane, events: seq<Event>, more: seq<Event>)
    ensures Run(l, events + more) == Run(Run(l, events), more)
    decreases |more|
  {
    hide Handle;
    if more == [] {
      assert events + more == events;
    } else {
      var init := more[..|more| - 1];
      RunConcat(l, events, init);
      assert (events + more)[..|events + more| - 1] == events + init;
    }
  }
}
