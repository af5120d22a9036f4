/** The evidence log both stream lanes write, and the loop that rebuilds their state from it. */
module StreamReplay {
  import opened Wrappers
  import OrderBook
  import PrivateState

  datatype PublicPhase = PublicConnecting | PublicSynchronizing | PublicRunning | PublicBackoff | PublicClosed | PublicStopped

  datatype PrivatePhase =
    | CreatingListenKey | PrivateConnecting | PrivateSynchronizing | PrivateRunning | PrivateBackoff | PrivateClosed | PrivateStopped

  /** Evidence records, with the payloads replay looks at. */
  datatype Record =
    | PublicTransition(publicPhase: PublicPhase)
    | PublicRawSnapshot
    | PublicSnapshot(snapshot: OrderBook.Snapshot)
    | PublicMessage(delta: OrderBook.Delta)
    | PrivateTransition(privatePhase: PrivatePhase)
    | PrivateReconciliation(reconciliation: PrivateState.Reconciliation)
    | PrivateMessage(event: PrivateState.Event)
    | OtherRecord   // errors and keepalives of either channel

  datatype Replay = Replay(
    book: OrderBook.State, account: PrivateState.Account, synchronized: bool, buffer: seq<PrivateState.Event>,
    processed: nat, ignored: nat)

  const START: Replay := Replay(OrderBook.EMPTY, PrivateState.NEW_ACCOUNT, false, [], 0, 0)

  function Step(r: Replay, record: Record): Replay {
    match record
    case PublicTransition(phase) =>
      r.(book := if phase.PublicConnecting? || phase.PublicBackoff? then OrderBook.EMPTY else r.book, ignored := r.ignored + 1)
    case PublicSnapshot(snapshot) => r.(book := OrderBook.Loaded(r.book, snapshot), processed := r.processed + 1)
    case PublicMessage(delta) => r.(book := OrderBook.Ingested(r.book, delta).0, processed := r.processed + 1)
    case PrivateTransition(phase) =>
      if phase.PrivateConnecting? || phase.PrivateSynchronizing? || phase.PrivateBackoff? then
        r.(synchronized := false, buffer := [], ignored := r.ignored + 1)
      else r.(ignored := r.ignored + 1)
    case PrivateReconciliation(reconciliation) =>
      r.(account := PrivateState.ApplyAll(PrivateState.Reconcile(r.account, reconciliation), r.buffer),
         buffer := [], synchronized := true, processed := r.processed + 1)
    case PrivateMessage(event) =>
      if r.synchronized then r.(account := PrivateState.ApplyEvent(r.account, event).0, processed := r.processed + 1)
      else r.(buffer := r.buffer + [event], processed := r.processed + 1)
    case PublicRawSnapshot => r.(ignored := r.ignored + 1)
    case OtherRecord => r.(ignored := r.ignored + 1)
  }

  /** The state after a whole log. */
  function Of(log: seq<Record>): Replay
    decreases |log|
  {
    if log == [] then START else Step(Of(log[..|log| - 1]), log[|log| - 1])
  }

  lemma {:induction false} OfAppend(log: seq<Record>, record: Record)
    ensures Of(log + [record]) == Step(Of(log), record)
  {
    assert (log + [record])[..|log|] == log;
  }

  /** The loop's mutable state: two objects, a flag, a buffer and two counters. */
  class Replayer {
    const orderBook: OrderBook.Book
    const privateState: PrivateState.State
    var privateSynchronized: bool
    var privateBuffer: seq<PrivateState.Event>
    var processed: nat
    var ignored: nat

    ghost predicate Valid()
      reads this, privateState
    {
      privateState.Valid()
    }

    ghost function View(): Replay
      requires Valid()
      reads this, orderBook, privateState
    {
      Replay(orderBook.View(), privateState.View(), privateSynchronized, privateBuffer, processed, ignored)
    }

    constructor ()
      ensures Valid() && View() == START && fresh(orderBook) && fresh(privateState)
    {
      orderBook := new OrderBook.Book();
      privateState := new PrivateState.State();
      privateSynchronized, privateBuffer, processed, ignored := false, [], 0, 0;
    }

    method Consume(record: Record)
      requires Valid()
      modifies this, orderBook, privateState
      ensures Valid() && View() == Step(old(View()), record)
    {
      hide OrderBook.Loaded, OrderBook.Ingested, PrivateState.ApplyEvent, PrivateState.ApplyAll, PrivateState.Reconcile;
      match record {
        case PublicTransition(phase) =>
          if phase.PublicConnecting? || phase.PublicBackoff? { orderBook.Reset(); }
          ignored := ignored + 1;
        case PublicSnapshot(snapshot) =>
          orderBook.LoadSnapshot(snapshot);
          processed := processed + 1;
        case PublicMessage(delta) =>
          var _ := orderBook.Ingest(delta);
          processed := processed + 1;
        case PrivateTransition(phase) =>
          if phase.PrivateConnecting? || phase.PrivateSynchronizing? || phase.PrivateBackoff? {
            privateSynchronized, privateBuffer := false, [];
          }
          ignored := ignored + 1;
        case PrivateReconciliation(reconciliation) =>
          privateState.ReconcileWith(reconciliation);
          ApplyBuffer(privateState, privateBuffer);
          privateBuffer, privateSynchronized := [], true;
          processed := processed + 1;
        case PrivateMessage(event) =>
          if privateSynchronized { var _ := privateState.Apply(event); } else { privateBuffer := privateBuffer + [event]; }
          processed := processed + 1;
        case _ =>
          ignored := ignored + 1;
      }
    }
  }

  /** `replayBinanceStreamEvidence`: one forward loop; every record is either processed or ignored. */
  method ReplayEvidence(records: seq<Record>) returns (replayer: Replayer)
    ensures fresh(replayer) && replayer.Valid() && replayer.View() == Of(records)
    ensures replayer.processed + replayer.ignored == |records|
  {
    hide Step;
    replayer := new Replayer();
    for i := 0 to |records|
      invariant fresh(replayer) && fresh(replayer.orderBook) && fresh(replayer.privateState)
      invariant replayer.Valid() && replayer.View() == Of(records[..i])
      invariant replayer.processed + replayer.ignored == i
    {
      assert records[..i + 1] == records[..i] + [records[i]];
      OfAppend(records[..i], records[i]);
      CountsOne(replayer.View(), records[i]);
      replayer.Consume(records[i]);
    }
    assert records[..|records|] == records;
  }

  lemma {:induction false} CountsOne(r: Replay, record: Record)
    ensures Step(r, record).processed + Step(r, record).ignored == r.processed + r.ignored + 1
  {}

  /** The loop over buffered events after a reconciliation. */
  method ApplyBuffer(account: PrivateState.State, buffer: seq<PrivateState.Event>)
    requires account.Valid()
    modifies account
    ensures account.Valid() && account.View() == PrivateState.ApplyAll(old(account.View()), buffer)
  {
    hide PrivateState.ApplyEvent;
    for i := 0 to |buffer|
      invariant account.Valid()
      invariant PrivateState.ApplyAll(account.View(), buffer[i..]) == PrivateState.ApplyAll(old(account.View()), buffer)
    {
      assert buffer[i..][0] == buffer[i] && buffer[i..][1..] == buffer[i + 1..];
      var _ := account.Apply(buffer[i]);
    }
  }
}
