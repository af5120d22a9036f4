/** The live depth lane: epochs, snapshot synchronisation and restarts around one order book, writing
    every transition, snapshot and frame to the evidence log. Each function of `Event` is one
    run-to-completion step; a step that follows an `await` carries the epoch it was started in. */
module PublicLane {
  import opened Wrappers
  import opened OrderBook
  import StreamReplay

  datatype Phase = Stopped | Connecting | Synchronizing | Running | Backoff

  /** A depth frame that parses; `eventType` and the symbol are checked only after it was recorded. */
  datatype Frame = Frame(eventType: string, delta: Delta)

  /** The epochs whose socket has opened, and the frames that have arrived and are still being decoded. */
  datatype Traffic = Traffic(live: set<nat>, decoding: multiset<(nat, Frame)>)

  datatype Lane = Lane(
    symbol: string, desiredRunning: bool, state: Phase, epoch: nat, reconnectAttempt: nat, restartTimer: Option<nat>,
    traffic: Traffic, book: State, log: seq<StreamReplay.Record>)

  datatype Event =
    | Start
    | Stop
    | SocketError(epoch: nat)
    | SocketClosed(epoch: nat)
    | SocketOpened(epoch: nat)
    | SnapshotArrived(epoch: nat, raw: bool, snapshot: Snapshot)
    | SnapshotFailed(epoch: nat)
    | FrameArrived(epoch: nat, frame: Frame)
    | FrameDecoded(epoch: nat, frame: Frame)   // after the decode await: nothing is checked again before recording
    | TimerFired

  function Idle(symbol: string): Lane { Lane(symbol, false, Stopped, 0, 0, None, Traffic({}, multiset{}), EMPTY, []) }

  // ---------------------------------------------------------------- the steps as functions

  function Log(l: Lane, r: StreamReplay.Record): Lane { l.(log := l.log + [r]) }

  function Connect(l: Lane): Lane {
    if !l.desiredRunning then l
    else Log(l.(restartTimer := None, epoch := l.epoch + 1, state := Connecting, book := EMPTY),
             StreamReplay.PublicTransition(StreamReplay.PublicConnecting))
  }

  function ScheduleRestart(l: Lane): Lane {
    if !l.desiredRunning || l.state.Backoff? then l
    else
      var restartEpoch := l.epoch + 1;
      Log(l.(epoch := restartEpoch, book := EMPTY, state := Backoff, reconnectAttempt := l.reconnectAttempt + 1,
             restartTimer := Some(restartEpoch)),
          StreamReplay.PublicTransition(StreamReplay.PublicBackoff))
  }

  function Synchronize(l: Lane, raw: bool, snapshot: Snapshot): Lane {
    var recorded := if raw then Log(l, StreamReplay.PublicRawSnapshot) else l;
    var loaded := Log(recorded, StreamReplay.PublicSnapshot(snapshot)).(book := Loaded(l.book, snapshot));
    if loaded.book.status.Gapped? then ScheduleRestart(loaded)
    else Log(loaded.(reconnectAttempt := 0, state := Running), StreamReplay.PublicTransition(StreamReplay.PublicRunning))
  }

  /** `assertDepthStreamIdentity`. */
  predicate IsOwnFrame(symbol: string, f: Frame) { f.eventType == "depthUpdate" && f.delta.symbol == Some(symbol) }

  function Receive(l: Lane, epoch: nat, f: Frame): Lane {
    var recorded := Log(l, StreamReplay.PublicMessage(f.delta));
    if IsOwnFrame(l.symbol, f) then
      var (book, result) := Ingested(l.book, f.delta);
      var next := recorded.(book := book);
      if result == GapFound then ScheduleRestart(next) else next
    else if epoch != l.epoch then recorded
    else ScheduleRestart(Log(recorded, StreamReplay.OtherRecord))
  }

  function Opened(l: Lane, epoch: nat): Lane { l.(traffic := l.traffic.(live := l.traffic.live + {epoch})) }

  function Taken(l: Lane, epoch: nat, f: Frame): Lane {
    l.(traffic := l.traffic.(decoding := l.traffic.decoding - multiset{(epoch, f)}))
  }

  function Handle(l: Lane, e: Event): Lane {
    match e
    case Start => if l.desiredRunning then l else Connect(l.(desiredRunning := true))
    case Stop =>
      Log(l.(desiredRunning := false, epoch := l.epoch + 1, restartTimer := None, state := Stopped, book := EMPTY),
          StreamReplay.PublicTransition(StreamReplay.PublicStopped))
    case SocketError(epoch) => if epoch != l.epoch then l else ScheduleRestart(Log(l, StreamReplay.OtherRecord))
    case SocketClosed(epoch) =>
      if epoch != l.epoch || !l.desiredRunning then l
      else ScheduleRestart(Log(l, StreamReplay.PublicTransition(StreamReplay.PublicClosed)))
    case SocketOpened(epoch) =>
      var next := Opened(l, epoch);
      if epoch != l.epoch || !l.desiredRunning then next
      else Log(next.(state := Synchronizing), StreamReplay.PublicTransition(StreamReplay.PublicSynchronizing))
    case SnapshotArrived(epoch, raw, snapshot) =>
      if epoch != l.epoch || !l.desiredRunning then l else Synchronize(l, raw, snapshot)
    case SnapshotFailed(epoch) => if epoch != l.epoch then l else ScheduleRestart(Log(l, StreamReplay.OtherRecord))
    case FrameArrived(epoch, frame) =>
      if epoch != l.epoch || !l.desiredRunning then l else l.(traffic := l.traffic.(decoding := l.traffic.decoding + multiset{(epoch, frame)}))
    case FrameDecoded(epoch, frame) => Receive(Taken(l, epoch, frame), epoch, frame)
    case TimerFired =>
      if l.restartTimer.None? then l
      else
        var fired := l.(restartTimer := None);
        if l.desiredRunning && l.epoch == l.restartTimer.value then Connect(fired) else fired
  }

  // ---------------------------------------------------------------- the lane as an object

  class LaneObject {
    const symbol: string
    const orderBook: Book
    var desiredRunning: bool
    var state: Phase
    var epoch: nat
    var reconnectAttempt: nat
    var restartTimer: Option<nat>
    var log: seq<StreamReplay.Record>
    ghost var traffic: Traffic

    ghost function View(): Lane
      reads this, orderBook
    {
      Lane(symbol, desiredRunning, state, epoch, reconnectAttempt, restartTimer, traffic, orderBook.View(), log)
    }

    constructor (symbol: string)
      ensures View() == Idle(symbol) && fresh(orderBook)
    {
      this.symbol := symbol;
      orderBook := new Book();
      desiredRunning, state, epoch, reconnectAttempt, restartTimer, log := false, Stopped, 0, 0, None, [];
      traffic := Traffic({}, multiset{});
    }

    method StartLane()
      modifies this, orderBook
      ensures View() == Handle(old(View()), Start)
    {
      if desiredRunning { return; }
      desiredRunning := true;
      ConnectLane();
    }

    method StopLane()
      modifies this, orderBook
      ensures View() == Handle(old(View()), Stop)
    {
      desiredRunning := false;
      epoch := epoch + 1;
      restartTimer := None;
      state := Stopped;
      orderBook.Reset();
      Record(StreamReplay.PublicTransition(StreamReplay.PublicStopped));
    }

    method ConnectLane()
      modifies this, orderBook
      ensures View() == Connect(old(View()))
    {
      if !desiredRunning { return; }
      restartTimer := None;
      epoch := epoch + 1;
      state := Connecting;
      orderBook.Reset();
      Record(StreamReplay.PublicTransition(StreamReplay.PublicConnecting));
    }

    method OnSocketError(socketEpoch: nat)
      modifies this, orderBook
      ensures View() == Handle(old(View()), SocketError(socketEpoch))
    {
      if socketEpoch != epoch { return; }
      Record(StreamReplay.OtherRecord);
      Restart();
    }

    method OnSocketClosed(socketEpoch: nat)
      modifies this, orderBook
      ensures View() == Handle(old(View()), SocketClosed(socketEpoch))
    {
      if socketEpoch != epoch || !desiredRunning { return; }
      Record(StreamReplay.PublicTransition(StreamReplay.PublicClosed));
      Restart();
    }

    method OnOpen(socketEpoch: nat)
      modifies this
      ensures View() == Handle(old(View()), SocketOpened(socketEpoch))
    {
      traffic := traffic.(live := traffic.live + {socketEpoch});
      if socketEpoch != epoch || !desiredRunning { return; }
      state := Synchronizing;
      Record(StreamReplay.PublicTransition(StreamReplay.PublicSynchronizing));
    }

    /** The rest of `onOpen` once the snapshot request has settled. */
    method OnSnapshot(socketEpoch: nat, raw: bool, snapshot: Snapshot)
      modifies this, orderBook
      ensures View() == Handle(old(View()), SnapshotArrived(socketEpoch, raw, snapshot))
    {
      hide Loaded;
      if socketEpoch != epoch || !desiredRunning { return; }
      if raw { Record(StreamReplay.PublicRawSnapshot); }
      Record(StreamReplay.PublicSnapshot(snapshot));
      orderBook.LoadSnapshot(snapshot);
      if orderBook.status.Gapped? {
        Restart();
        return;
      }
      reconnectAttempt := 0;
      state := Running;
      Record(StreamReplay.PublicTransition(StreamReplay.PublicRunning));
    }

    method OnSnapshotFailed(socketEpoch: nat)
      modifies this, orderBook
      ensures View() == Handle(old(View()), SnapshotFailed(socketEpoch))
    {
      if socketEpoch != epoch { return; }
      Record(StreamReplay.OtherRecord);
      Restart();
    }

    /** `onMessage` up to its await: a frame of another epoch, or of a lane that is not to run, is dropped. */
    method OnArrival(socketEpoch: nat, frame: Frame)
      modifies this`traffic
      ensures View() == Handle(old(View()), FrameArrived(socketEpoch, frame))
    {
      if socketEpoch != epoch || !desiredRunning { return; }
      traffic := traffic.(decoding := traffic.decoding + multiset{(socketEpoch, frame)});
    }

    /** The rest of `onMessage` once the frame is decoded. */
    method OnFrame(socketEpoch: nat, frame: Frame)
      modifies this, orderBook
      ensures View() == Handle(old(View()), FrameDecoded(socketEpoch, frame))
    {
      hide Ingested;
      traffic := traffic.(decoding := traffic.decoding - multiset{(socketEpoch, frame)});
      Record(StreamReplay.PublicMessage(frame.delta));
      if IsOwnFrame(symbol, frame) {
        var result := orderBook.Ingest(frame.delta);
        if result == GapFound { Restart(); }
      } else if socketEpoch == epoch {
        Record(StreamReplay.OtherRecord);
        Restart();
      }
    }

    method OnTimer()
      modifies this, orderBook
      ensures View() == Handle(old(View()), TimerFired)
    {
      if restartTimer.None? { return; }
      var restartEpoch := restartTimer.value;
      restartTimer := None;
      if desiredRunning && epoch == restartEpoch { ConnectLane(); }
    }

    method Restart()
      modifies this, orderBook
      ensures View() == ScheduleRestart(old(View()))
    {
      if !desiredRunning || state.Backoff? { return; }
      epoch := epoch + 1;
      orderBook.Reset();
      state := Backoff;
      reconnectAttempt := reconnectAttempt + 1;
      Record(StreamReplay.PublicTransition(StreamReplay.PublicBackoff));
      restartTimer := Some(epoch);
    }

    method Record(r: StreamReplay.Record)
      modifies this`log
      ensures View() == Log(old(View()), r)
    {
      log := log + [r];
    }
  }

  // ---------------------------------------------------------------- replay refines the lane

  function Replayed(l: Lane): State { StreamReplay.Of(l.log).book }

  ghost predicate Agrees(l: Lane) { Replayed(l) == l.book }

  /** Between a stop and the next connect the two may differ, because replay does not reset on `stopped`. */
  ghost predicate Refined(l: Lane) { l.state.Stopped? || Agrees(l) }

  /** When a foreign frame is harmless: the lane restarts because of it, or replaying it changes nothing. */
  ghost predicate Harmless(l: Lane, e: Event) {
    e.FrameDecoded? && !IsOwnFrame(l.symbol, e.frame) ==>
      || l.state.Stopped?
      || (e.epoch == l.epoch && l.desiredRunning && !l.state.Backoff?)
      || Ingested(l.book, e.frame.delta).0 == l.book
  }

  lemma {:induction false} RestartAgrees(l: Lane)
    requires Agrees(l)
    ensures Agrees(ScheduleRestart(l)) && (ScheduleRestart(l).state.Stopped? ==> l.state.Stopped?)
  {
    StreamReplay.OfAppend(l.log, StreamReplay.PublicTransition(StreamReplay.PublicBackoff));
  }

  lemma {:induction false} RestartResets(l: Lane)
    requires l.desiredRunning && !l.state.Backoff?
    ensures Agrees(ScheduleRestart(l))
  {
    StreamReplay.OfAppend(l.log, StreamReplay.PublicTransition(StreamReplay.PublicBackoff));
  }

  lemma {:induction false} ConnectAgrees(l: Lane)
    requires l.desiredRunning
    ensures Agrees(Connect(l))
  {
    StreamReplay.OfAppend(l.log, StreamReplay.PublicTransition(StreamReplay.PublicConnecting));
  }

  lemma {:induction false} SnapshotAgrees(l: Lane, raw: bool, snapshot: Snapshot)
    requires Agrees(l) && !l.state.Stopped?
    ensures Refined(Synchronize(l, raw, snapshot))
  {
    hide Loaded;
    var recorded := if raw then Log(l, StreamReplay.PublicRawSnapshot) else l;
    if raw { StreamReplay.OfAppend(l.log, StreamReplay.PublicRawSnapshot); }
    StreamReplay.OfAppend(recorded.log, StreamReplay.PublicSnapshot(snapshot));
    var loaded := Log(recorded, StreamReplay.PublicSnapshot(snapshot)).(book := Loaded(l.book, snapshot));
    assert Agrees(loaded);
    RestartAgrees(loaded);
    StreamReplay.OfAppend(loaded.log, StreamReplay.PublicTransition(StreamReplay.PublicRunning));
  }

  lemma {:induction false} OwnFrameAgrees(l: Lane, epoch: nat, f: Frame)
    requires Agrees(l) && !l.state.Stopped? && IsOwnFrame(l.symbol, f)
    ensures Agrees(Receive(l, epoch, f))
  {
    hide Ingested, ScheduleRestart;
    StreamReplay.OfAppend(l.log, StreamReplay.PublicMessage(f.delta));
    RestartAgrees(Log(l, StreamReplay.PublicMessage(f.delta)).(book := Ingested(l.book, f.delta).0));
  }

  lemma {:induction false} ForeignFrameRestarts(l: Lane, f: Frame)
    requires l.desiredRunning && !l.state.Backoff? && !IsOwnFrame(l.symbol, f)
    ensures Agrees(Receive(l, l.epoch, f))
  {
    hide Ingested, ScheduleRestart;
    RestartResets(Log(Log(l, StreamReplay.PublicMessage(f.delta)), StreamReplay.OtherRecord));
  }

  lemma {:induction false} ForeignFrameIgnored(l: Lane, epoch: nat, f: Frame)
    requires Agrees(l) && !l.state.Stopped? && !IsOwnFrame(l.symbol, f)
    requires epoch != l.epoch || !l.desiredRunning || l.state.Backoff?
    ensures Refined(Receive(l, epoch, f)) <==> Ingested(l.book, f.delta).0 == l.book
  {
    hide Ingested;
    var recorded := Log(l, StreamReplay.PublicMessage(f.delta));
    StreamReplay.OfAppend(l.log, StreamReplay.PublicMessage(f.delta));
    assert Replayed(recorded) == Ingested(l.book, f.delta).0;
    StreamReplay.OfAppend(recorded.log, StreamReplay.OtherRecord);
  }

  lemma {:induction false} FrameAgreesIff(l: Lane, epoch: nat, f: Frame)
    requires Agrees(l) && !l.state.Stopped?
    ensures Refined(Receive(l, epoch, f)) <==> Harmless(l, FrameDecoded(epoch, f))
  {
    hide Ingested, Receive, IsOwnFrame, Agrees;
    if IsOwnFrame(l.symbol, f) {
      OwnFrameAgrees(l, epoch, f);
    } else if epoch == l.epoch && l.desiredRunning && !l.state.Backoff? {
      ForeignFrameRestarts(l, f);
    } else {
      ForeignFrameIgnored(l, epoch, f);
    }
  }

  lemma {:induction false} StepKeepsShape(l: Lane, e: Event)
    requires l.state.Stopped? <==> !l.desiredRunning
    ensures Handle(l, e).state.Stopped? <==> !Handle(l, e).desiredRunning
    ensures Handle(l, e).symbol == l.symbol
    ensures e.FrameDecoded? ==> Handle(l, e).desiredRunning == l.desiredRunning
  {
    hide Loaded, Ingested;
  }

  /** Every step of the lane keeps replay and the live book equal, with one exact exception: a frame of
      another stream that finishes decoding when the lane will not restart because of it. */
  lemma {:induction false} StepRefinesIff(l: Lane, e: Event)
    requires Refined(l)
    requires l.state.Stopped? <==> !l.desiredRunning
    ensures Refined(Handle(l, e)) <==> Harmless(l, e)
  {
    hide Loaded, Ingested, Synchronize, Receive, Connect;
    match e {
      case Start =>
        if !l.desiredRunning { ConnectAgrees(l.(desiredRunning := true)); }
      case Stop =>
      case SocketError(_) =>
        StreamReplay.OfAppend(l.log, StreamReplay.OtherRecord);
        if Agrees(l) { RestartAgrees(Log(l, StreamReplay.OtherRecord)); }
      case SocketClosed(_) =>
        StreamReplay.OfAppend(l.log, StreamReplay.PublicTransition(StreamReplay.PublicClosed));
        if Agrees(l) { RestartAgrees(Log(l, StreamReplay.PublicTransition(StreamReplay.PublicClosed))); }
      case SocketOpened(_) =>
        StreamReplay.OfAppend(l.log, StreamReplay.PublicTransition(StreamReplay.PublicSynchronizing));
      case SnapshotArrived(_, raw, snapshot) =>
        if Agrees(l) && !l.state.Stopped? { SnapshotAgrees(l, raw, snapshot); }
      case SnapshotFailed(_) =>
        StreamReplay.OfAppend(l.log, StreamReplay.OtherRecord);
        if Agrees(l) { RestartAgrees(Log(l, StreamReplay.OtherRecord)); }
      case FrameDecoded(epoch, frame) =>
        StepKeepsShape(l, e);
        if !l.state.Stopped? { FrameAgreesIff(Taken(l, epoch, frame), epoch, frame); }
      case FrameArrived(_, _) =>
      case TimerFired =>
        if l.restartTimer.Some? && l.desiredRunning && l.epoch == l.restartTimer.value {
          ConnectAgrees(l.(restartTimer := None));
        }
    }
  }

  function Run(l: Lane, events: seq<Event>): Lane
    decreases |events|
  {
    if events == [] then l else Handle(Run(l, events[..|events| - 1]), events[|events| - 1])
  }

  /** Every frame that was decoded belongs to this lane's stream. */
  ghost predicate OwnFramesOnly(symbol: string, events: seq<Event>) {
    forall i :: 0 <= i < |events| && events[i].FrameDecoded? ==> IsOwnFrame(symbol, events[i].frame)
  }

  lemma {:induction false} RunKeepsShape(symbol: string, events: seq<Event>)
    ensures var l := Run(Idle(symbol), events);
      l.symbol == symbol && (l.state.Stopped? <==> !l.desiredRunning)
    decreases |events|
  {
    hide Handle;
    if events != [] {
      RunKeepsShape(symbol, events[..|events| - 1]);
      StepKeepsShape(Run(Idle(symbol), events[..|events| - 1]), events[|events| - 1]);
    }
  }

  /** For every interleaving of starts, stops, opens, snapshots, frames, errors, closes and timers, with
      stale epochs and late decodes included, folding the log written so far rebuilds the live book after
      every handler, except between a stop and the next connect. */
  lemma {:induction false} ReplayRefinesPublicLane(symbol: string, events: seq<Event>)
    requires OwnFramesOnly(symbol, events)
    ensures Refined(Run(Idle(symbol), events))
    decreases |events|
  {
    hide Handle;
    if events != [] {
      var init, last := events[..|events| - 1], events[|events| - 1];
      ReplayRefinesPublicLane(symbol, init);
      RunKeepsShape(symbol, init);
      StepRefinesIff(Run(Idle(symbol), init), last);
    }
  }

  // ---------------------------------------------------------------- the way it fails

  /** What the runtime may deliver: frames only on a socket that has opened, decoded once each after they arrived. */
  predicate Possible(l: Lane, e: Event) {
    match e
    case FrameArrived(epoch, _) => epoch in l.traffic.live
    case FrameDecoded(epoch, frame) => (epoch, frame) in l.traffic.decoding
    case _ => true
  }

  ghost predicate PossibleRun(l: Lane, events: seq<Event>) {
    forall i :: 0 <= i < |events| ==> Possible(Run(l, events[..i]), events[i])
  }

  /** The socket opens, a frame of another stream arrives, the socket fails, and then the frame is decoded. */
  function ForeignRun(f: Frame): seq<Event> { [Start, SocketOpened(1), FrameArrived(1, f), SocketError(1), FrameDecoded(1, f)] }

  /** Replay buffers what the live lane, waiting to reconnect, does not take: the books differ, and the lane is
      not stopped. */
  lemma {:induction false} ForeignFrameBreaksReplay(symbol: string, f: Frame)
    requires !IsOwnFrame(symbol, f)
    ensures var l := Run(Idle(symbol), ForeignRun(f));
      && PossibleRun(Idle(symbol), ForeignRun(f))
      && l.state.Backoff? && l.book == EMPTY && Replayed(l).buffered == [f.delta] && !Refined(l)
  {
    hide StreamReplay.Of, IsOwnFrame;
    var s0, run := Idle(symbol), ForeignRun(f);
    var s1 := Handle(s0, Start);
    var s2 := Handle(s1, SocketOpened(1));
    var s3 := Handle(s2, FrameArrived(1, f));
    var s4 := Handle(s3, SocketError(1));
    var s5 := Handle(s4, FrameDecoded(1, f));
    assert s3.traffic.decoding == multiset{(1, f)};
    RestartResets(Log(s3, StreamReplay.OtherRecord));
    StreamReplay.OfAppend(s4.log, StreamReplay.PublicMessage(f.delta));
    assert [] + [f.delta] == [f.delta];
    ForeignStates(symbol, f);
  }

  /** The lanes along that run. */
  lemma {:induction false} ForeignStates(symbol: string, f: Frame)
    ensures var s0, run := Idle(symbol), ForeignRun(f);
      var s1 := Handle(s0, Start); var s2 := Handle(s1, SocketOpened(1)); var s3 := Handle(s2, FrameArrived(1, f)); var s4 := Handle(s3, SocketError(1));
      && Run(s0, run[..0]) == s0 && Run(s0, run[..1]) == s1 && Run(s0, run[..2]) == s2 && Run(s0, run[..3]) == s3 && Run(s0, run[..4]) == s4
      && Run(s0, run) == Handle(s4, FrameDecoded(1, f))
  {
    hide Handle, Idle;
    var run := ForeignRun(f);
    assert run[..1][..0] == run[..0] && run[..2][..1] == run[..1] && run[..3][..2] == run[..2] && run[..4][..3] == run[..3];
  }

  // ---------------------------------------------------------------- what the lane makes of its traffic

  /** In every state: a gapped book is seen only with a reconnect armed, a waiting lane has its timer armed under its
      own epoch, and a running lane shows a ready book. */
  predicate LaneHolds(l: Lane) {
    && (l.state.Stopped? <==> !l.desiredRunning)
    && (l.book.status.Gapped? ==> l.restartTimer == Some(l.epoch))
    && (l.state.Backoff? ==> l.restartTimer == Some(l.epoch))
    && (l.state.Stopped? ==> l.restartTimer.None? && l.book.updateId.None?)
    && (l.state.Running? ==> l.book.status.Ready? && l.book.updateId.Some?)
  }

  lemma {:induction false} IngestedStatus(s: State, d: Delta)
    ensures var (t, result) := Ingested(s, d);
      && (result == GapFound <==> t.status.Gapped?) && (s.updateId.None? ==> t.updateId.None?)
      && (s.updateId.None? && !s.status.Gapped? ==> !t.status.Gapped?)
      && (s.status.Ready? && s.updateId.Some? && result != GapFound ==> t.status.Ready? && t.updateId.Some?)
  {
    if !s.status.Gapped? && s.updateId.Some? { NeverReadyToGapped(s, d); }
  }

  lemma {:induction false} NeverReadyToGapped(s: State, d: Delta)
    requires s.updateId.Some? && !s.status.Gapped?
    ensures var (t, result) := LiveStep(s, d);
      (result == GapFound <==> t.status.Gapped?) && (s.status.Ready? && result != GapFound ==> t.status.Ready? && t.updateId.Some?)
  {
    hide LiveStep;
    LiveStepMeaning(s, d);
  }

  lemma {:induction false} LoadedStatus(s: State, snapshot: Snapshot)
    ensures var t := Loaded(s, snapshot); (t.status.Ready? || t.status.Gapped?) && t.updateId.Some?
  {
    PendingStatus(Fresh(s, snapshot), s.buffered);
  }

  lemma {:induction false} PendingStatus(s: State, pending: seq<Delta>)
    requires s.updateId.Some? && s.status.Ready?
    ensures var t := ApplyPending(s, pending); (t.status.Ready? || t.status.Gapped?) && t.updateId.Some?
    decreases |pending|
  {
    hide LiveStep;
    if pending != [] {
      NeverReadyToGapped(s, pending[0]);
      var (next, result) := LiveStep(s, pending[0]);
      if result != GapFound { PendingStatus(next, pending[1..]); }
    }
  }

  lemma {:induction false} StepHolds(l: Lane, e: Event)
    requires LaneHolds(l)
    ensures LaneHolds(Handle(l, e))
  {
    hide Ingested, Loaded, IsOwnFrame;
    if e.FrameDecoded? { IngestedStatus(l.book, e.frame.delta); }
    if e.SnapshotArrived? { LoadedStatus(l.book, e.snapshot); }
  }

  /** Whatever happens, in whatever order. */
  lemma {:induction false} RunHolds(symbol: string, events: seq<Event>)
    ensures LaneHolds(Run(Idle(symbol), events))
    decreases |events|
  {
    hide Handle, LaneHolds;
    if events == [] {
      assert LaneHolds(Idle(symbol)) by { IdleHolds(symbol); }
    } else {
      RunHolds(symbol, events[..|events| - 1]);
      StepHolds(Run(Idle(symbol), events[..|events| - 1]), events[|events| - 1]);
    }
  }

  lemma {:induction false} IdleHolds(symbol: string)
    ensures LaneHolds(Idle(symbol))
  {}

  predicate IsFailure(e: Event) { e.SocketError? || e.SocketClosed? || e.SnapshotFailed? }

  /** A failure of the current connection of a lane that is to run always leads back: the lane drops its book and
      waits under a new epoch with its timer armed, and when that fires it connects anew. */
  lemma {:induction false} FailureReconnects(l: Lane, e: Event)
    requires LaneHolds(l) && l.desiredRunning && !l.state.Backoff? && IsFailure(e) && e.epoch == l.epoch
    ensures var x := Handle(l, e);
      && x.state.Backoff? && x.epoch == l.epoch + 1 && x.restartTimer == Some(x.epoch) && x.book == EMPTY && x.reconnectAttempt == l.reconnectAttempt + 1
      && var y := Handle(x, TimerFired);
      y.state.Connecting? && y.epoch == x.epoch + 1 && y.restartTimer.None? && y.book == EMPTY && y.desiredRunning
  {}

  /** A continuation of another epoch changes nothing but what is on its way; a decoded frame is the exception. */
  lemma {:induction false} StaleIsIgnored(l: Lane, e: Event)
    requires IsFailure(e) || e.SocketOpened? || e.SnapshotArrived? || e.FrameArrived?
    requires e.epoch != l.epoch
    ensures Handle(l, e) == l.(traffic := Handle(l, e).traffic)
  {}

  predicate AllOwn(symbol: string, frames: seq<Frame>) { forall i :: 0 <= i < |frames| ==> IsOwnFrame(symbol, frames[i]) }

  function Decoded(epoch: nat, frames: seq<Frame>): seq<Event> { seq(|frames|, i requires 0 <= i < |frames| => FrameDecoded(epoch, frames[i])) }

  function Deltas(frames: seq<Frame>): seq<Delta> { seq(|frames|, i requires 0 <= i < |frames| => frames[i].delta) }

  /** Own frames that leave no gap are all taken, in order, and the connection stays. */
  lemma {:induction false} FramesAreTaken(l: Lane, epoch: nat, frames: seq<Frame>)
    requires AllOwn(l.symbol, frames) && !Feed(l.book, Deltas(frames)).status.Gapped?
    ensures var x := Run(l, Decoded(epoch, frames));
      x == l.(book := Feed(l.book, Deltas(frames)), log := x.log, traffic := x.traffic)
    decreases |frames|
  {
    hide Ingested, IsOwnFrame;
    if frames == [] {
      assert Feed(l.book, []) == l.book;
    } else {
      var init, last := frames[..|frames| - 1], frames[|frames| - 1];
      assert Decoded(epoch, frames)[..|frames| - 1] == Decoded(epoch, init);
      assert Deltas(frames) == Deltas(init) + [last.delta];
      FeedConcat(l.book, Deltas(init), [last.delta]);
      assert Feed(Feed(l.book, Deltas(init)), [last.delta]) == Ingested(Feed(l.book, Deltas(init)), last.delta).0 by { OneFed(Feed(l.book, Deltas(init)), last.delta); }
      if Feed(l.book, Deltas(init)).status.Gapped? { GapFreezes(Feed(l.book, Deltas(init)), [last.delta]); }
      FramesAreTaken(l, epoch, init);
      var x := Run(l, Decoded(epoch, init));
      IngestedStatus(x.book, last.delta);
      assert Run(l, Decoded(epoch, frames)) == Handle(x, FrameDecoded(epoch, last));
    }
  }

  lemma {:induction false} OneFed(s: State, d: Delta)
    ensures Feed(s, [d]) == Ingested(s, d).0
  {
    hide Ingested;
    assert [d][1..] == [];
    assert Feed(Ingested(s, d).0, []) == Ingested(s, d).0;
  }

  /** A whole connection: updates before the snapshot are kept, the snapshot is loaded under them, updates after it
      follow; as long as none of all of them breaks the chain, the lane runs, in its epoch, with exactly the book of
      that chain. */
  lemma {:induction false} UnbrokenConnectionRuns(l: Lane, before: seq<Frame>, raw: bool, snapshot: Snapshot, after: seq<Frame>)
    requires l.desiredRunning && l.state.Synchronizing? && l.book == EMPTY && AllOwn(l.symbol, before) && AllOwn(l.symbol, after)
    requires !Breaks(snapshot.lastUpdateId, true, None, Deltas(before) + Deltas(after))
    ensures var events := Decoded(l.epoch, before) + [SnapshotArrived(l.epoch, raw, snapshot)] + Decoded(l.epoch, after);
      var x := Run(l, events);
      && x.state.Running? && x.epoch == l.epoch && x.desiredRunning && x.reconnectAttempt == 0
      && x.book == Feed(Loaded(Feed(EMPTY, Deltas(before)), snapshot), Deltas(after)) && x.book.status.Ready?
  {
    hide Loaded, Feed, Breaks, AllOwn, Decoded, Deltas;
    EmptyFeeds(Deltas(before));
    FramesAreTaken(l, l.epoch, before);
    var s1 := Run(l, Decoded(l.epoch, before));
    var s2 := Handle(s1, SnapshotArrived(l.epoch, raw, snapshot));
    SynchronisedBook(snapshot, Deltas(before), Deltas(after), "");
    if s2.book.status.Gapped? { GapFreezes(s2.book, Deltas(after)); }
    LoadedStatus(s1.book, snapshot);
    var loaded := Loaded(s1.book, snapshot);
    if loaded.status.Gapped? { GapFreezes(loaded, Deltas(after)); }
    FramesAreTaken(s2, l.epoch, after);
    RunConcat(l, Decoded(l.epoch, before) + [SnapshotArrived(l.epoch, raw, snapshot)], Decoded(l.epoch, after));
    RunOne(l, Decoded(l.epoch, before), SnapshotArrived(l.epoch, raw, snapshot));
  }

  lemma {:induction false} RunOne(l: Lane, events: seq<Event>, e: Event)
    ensures Run(l, events + [e]) == Handle(Run(l, events), e)
  {
    hide Handle;
    assert (events + [e])[..|events|] == events;
  }

  lemma {:induction false} RunConcat(l: Lane, events: seq<Event>, more: seq<Event>)
    ensures Run(l, events + more) == Run(Run(l, events), more)
    decreases |more|
  {
    hide Handle;
    if more == [] {
      assert events + more == events;
    } else {
      var init := more[..|more| - 1];
      RunConcat(l, events, init);
      assert (events + more)[..|events + more| - 1] == events + init;
    }
  }

  /** Before the snapshot nothing can gap. */
  lemma {:induction false} EmptyFeeds(deltas: seq<Delta>)
    ensures !Feed(EMPTY, deltas).status.Gapped?
  {
    BufferingFeeds(EMPTY, deltas);
  }

  lemma {:induction false} BufferingFeeds(s: State, deltas: seq<Delta>)
    requires s.updateId.None? && !s.status.Gapped?
    ensures Feed(s, deltas).updateId.None? && !Feed(s, deltas).status.Gapped?
    decreases |deltas|
  {
    if deltas != [] { BufferingFeeds(Ingested(s, deltas[0]).0, deltas[1..]); }
  }

  /** And the first update that breaks it sends a running lane back to reconnect. */
  lemma {:induction false} BrokenChainReconnects(l: Lane, f: Frame)
    requires LaneHolds(l) && l.state.Running? && IsOwnFrame(l.symbol, f)
    requires Breaks(l.book.updateId.value, l.book.awaitingFirst, l.book.symbol, [f.delta])
    ensures var x := Handle(l, FrameDecoded(l.epoch, f));
      x.state.Backoff? && x.epoch == l.epoch + 1 && x.restartTimer == Some(x.epoch) && x.book == EMPTY && x.reconnectAttempt == l.reconnectAttempt + 1
  {
    hide Feed, Ingested, IsOwnFrame;
    BookIsUnbrokenChain(l.book, [f.delta]);
    OneFed(l.book, f.delta);
    IngestedStatus(l.book, f.delta);
  }
}
