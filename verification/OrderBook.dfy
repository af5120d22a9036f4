/** The streamed depth book: levels keyed by price text, a buffer before the snapshot, and the rules
    that accept, ignore or reject an update. */
module OrderBook {
  import opened Wrappers
  import DecimalText

  datatype Level = Level(price: string, quantity: string)

  /** A parsed depth snapshot and a parsed depth update. */
  datatype Snapshot = Snapshot(lastUpdateId: nat, bids: seq<Level>, asks: seq<Level>)

  datatype Delta = Delta(
    first: nat, final: nat, previous: Option<nat>, bids: seq<Level>, asks: seq<Level>,
    eventTime: Option<nat>, transactionTime: Option<nat>, symbol: Option<string>)

  datatype Status = Empty | Buffering | Ready | Gapped

  datatype GapReason =
    | SnapshotUpdateGap(current: nat, first: nat)
    | PreviousUpdateMismatch(current: nat, previous: nat)
    | FirstUpdateGap(current: nat, first: nat)
    | SymbolChanged(from: string, to: string)

  datatype ApplyResult = Buffered | Applied | Ignored | GapFound

  type Levels = map<string, string>

  /** The whole state of a book as a value. */
  datatype State = State(
    bids: Levels, asks: Levels, buffered: seq<Delta>, status: Status, symbol: Option<string>,
    updateId: Option<nat>, eventTime: Option<nat>, transactionTime: Option<nat>,
    gapReason: Option<GapReason>, awaitingFirst: bool)

  const EMPTY: State := State(map[], map[], [], Empty, None, None, None, None, None, false)

  // ---------------------------------------------------------------- specification of the operations

  /** `Number(quantity) === 0` on a plain decimal text. */
  predicate IsZero(quantity: string) { DecimalText.CanonicalDecimal(quantity) == "0" }

  function Put(book: Levels, level: Level): Levels {
    if IsZero(level.quantity) then book - {level.price} else book[level.price := level.quantity]
  }

  function PutAll(book: Levels, levels: seq<Level>): Levels
    decreases |levels|
  {
    if levels == [] then book else PutAll(Put(book, levels[0]), levels[1..])
  }

  function Gap(s: State, reason: GapReason): State { s.(status := Gapped, gapReason := Some(reason)) }

  function Or<T>(x: Option<T>, y: Option<T>): Option<T> { if x.Some? then x else y }

  /** `applyLevelsAndAdvance`. */
  function Advance(s: State, d: Delta): (State, bool) {
    if d.symbol.Some? && s.symbol.Some? && s.symbol != d.symbol then
      (Gap(s, SymbolChanged(s.symbol.value, d.symbol.value)), false)
    else
      (s.(bids := PutAll(s.bids, d.bids), asks := PutAll(s.asks, d.asks), updateId := Some(d.final),
          eventTime := Or(d.eventTime, s.eventTime), transactionTime := Or(d.transactionTime, s.transactionTime),
          symbol := Or(d.symbol, s.symbol), status := Ready), true)
  }

  /** `applyLive`. */
  function LiveStep(s: State, d: Delta): (State, ApplyResult)
    requires s.updateId.Some?
  {
    var current := s.updateId.value;
    if s.awaitingFirst then
      if d.final < current then (s, Ignored)
      else if !(d.first <= current <= d.final) && d.previous != Some(current) then
        (Gap(s, SnapshotUpdateGap(current, d.first)), GapFound)
      else
        var (next, ok) := Advance(s, d);
        if ok then (next.(awaitingFirst := false), Applied) else (next, GapFound)
    else if d.final <= current then (s, Ignored)
    else if d.previous.Some? && d.previous.value != current then
      (Gap(s, PreviousUpdateMismatch(current, d.previous.value)), GapFound)
    else if d.previous.None? && d.first > current + 1 then
      (Gap(s, FirstUpdateGap(current, d.first)), GapFound)
    else
      var (next, ok) := Advance(s, d);
      (next, if ok then Applied else GapFound)
  }

  function Ingested(s: State, d: Delta): (State, ApplyResult) {
    if s.status.Gapped? then (s, GapFound)
    else if s.updateId.None? then (s.(status := Buffering, buffered := s.buffered + [d]), Buffered)
    else LiveStep(s, d)
  }

  /** The book right after a snapshot, before the buffered updates are replayed onto it. */
  function Fresh(s: State, snapshot: Snapshot): State {
    State(PutAll(map[], snapshot.bids), PutAll(map[], snapshot.asks), [], Ready, s.symbol,
          Some(snapshot.lastUpdateId), None, None, None, true)
  }

  /** The loop of `loadSnapshot` over the pending updates: it stops at the first gap. */
  function ApplyPending(s: State, pending: seq<Delta>): (t: State)
    requires s.updateId.Some?
    ensures t.updateId.Some?
    decreases |pending|
  {
    if pending == [] then s
    else
      var (next, result) := LiveStep(s, pending[0]);
      if result == GapFound then next else ApplyPending(next, pending[1..])
  }

  function Loaded(s: State, snapshot: Snapshot): State {
    ApplyPending(Fresh(s, snapshot), s.buffered)
  }

  // ---------------------------------------------------------------- the book as an object

  class Book {
    var bids: Levels
    var asks: Levels
    var buffered: seq<Delta>
    var status: Status
    var symbol: Option<string>
    var updateId: Option<nat>
    var eventTime: Option<nat>
    var transactionTime: Option<nat>
    var gapReason: Option<GapReason>
    var awaitingFirst: bool

    /** The object's state as a value. */
    function View(): State
      reads this
    {
      State(bids, asks, buffered, status, symbol, updateId, eventTime, transactionTime, gapReason, awaitingFirst)
    }

    constructor ()
      ensures View() == EMPTY
    {
      bids, asks, buffered, status := map[], map[], [], Empty;
      symbol, updateId, eventTime, transactionTime := None, None, None, None;
      gapReason, awaitingFirst := None, false;
    }

    method Reset()
      modifies this
      ensures View() == EMPTY
    {
      bids, asks, buffered, status := map[], map[], [], Empty;
      symbol, updateId, eventTime, transactionTime := None, None, None, None;
      gapReason, awaitingFirst := None, false;
    }

    method Ingest(delta: Delta) returns (result: ApplyResult)
      modifies this
      ensures (View(), result) == Ingested(old(View()), delta)
    {
      if status.Gapped? { return GapFound; }
      if updateId.None? {
        status := Buffering;
        buffered := buffered + [delta];
        return Buffered;
      }
      result := ApplyLive(delta);
    }

    method LoadSnapshot(snapshot: Snapshot)
      modifies this
      ensures View() == Loaded(old(View()), snapshot)
    {
      hide LiveStep, PutAll;
      bids := PutLevels(map[], snapshot.bids);
      asks := PutLevels(map[], snapshot.asks);
      updateId := Some(snapshot.lastUpdateId);
      eventTime, transactionTime, gapReason := None, None, None;
      status, awaitingFirst := Ready, true;
      var pending := buffered;
      buffered := [];
      var i := 0;
      while i < |pending|
        invariant 0 <= i <= |pending|
        invariant updateId.Some?
        invariant ApplyPending(View(), pending[i..]) == Loaded(old(View()), snapshot)
      {
        var result := ApplyLive(pending[i]);
        if result == GapFound { return; }
        i := i + 1;
      }
    }

    method ApplyLive(delta: Delta) returns (result: ApplyResult)
      requires updateId.Some?
      modifies this
      ensures (View(), result) == LiveStep(old(View()), delta)
      ensures updateId.Some?
    {
      var current := updateId.value;
      if awaitingFirst {
        if delta.final < current { return Ignored; }
        var overlapsSnapshot := delta.first <= current && delta.final >= current;
        var directlyFollows := delta.previous == Some(current);
        if !overlapsSnapshot && !directlyFollows {
          MarkGap(SnapshotUpdateGap(current, delta.first));
          return GapFound;
        }
        var ok := ApplyLevelsAndAdvance(delta);
        if !ok { return GapFound; }
        awaitingFirst := false;
        return Applied;
      }
      if delta.final <= current { return Ignored; }
      if delta.previous.Some? {
        if delta.previous.value != current {
          MarkGap(PreviousUpdateMismatch(current, delta.previous.value));
          return GapFound;
        }
      } else if delta.first > current + 1 {
        MarkGap(FirstUpdateGap(current, delta.first));
        return GapFound;
      }
      var ok := ApplyLevelsAndAdvance(delta);
      result := if ok then Applied else GapFound;
    }

    method ApplyLevelsAndAdvance(delta: Delta) returns (ok: bool)
      modifies this
      ensures (View(), ok) == Advance(old(View()), delta)
    {
      if delta.symbol.Some? && symbol.Some? && symbol != delta.symbol {
        MarkGap(SymbolChanged(symbol.value, delta.symbol.value));
        return false;
      }
      bids := PutLevels(bids, delta.bids);
      asks := PutLevels(asks, delta.asks);
      updateId := Some(delta.final);
      eventTime := Or(delta.eventTime, eventTime);
      transactionTime := Or(delta.transactionTime, transactionTime);
      if delta.symbol.Some? { symbol := delta.symbol; }
      status := Ready;
      ok := true;
    }

    method MarkGap(reason: GapReason)
      modifies this
      ensures View() == Gap(old(View()), reason)
    {
      status := Gapped;
      gapReason := Some(reason);
    }
  }

  /** `applyLevels`: later mentions of a price overwrite earlier ones, a zero quantity deletes it. */
  method PutLevels(book: Levels, levels: seq<Level>) returns (result: Levels)
    ensures result == PutAll(book, levels)
  {
    result := book;
    for i := 0 to |levels|
      invariant PutAll(result, levels[i..]) == PutAll(book, levels)
    {
      if IsZero(levels[i].quantity) {
        result := result - {levels[i].price};
      } else {
        result := result[levels[i].price := levels[i].quantity];
      }
    }
  }

  // ---------------------------------------------------------------- what a run of updates does

  function Feed(s: State, deltas: seq<Delta>): State
    decreases |deltas|
  {
    if deltas == [] then s else Feed(Ingested(s, deltas[0]).0, deltas[1..])
  }

  lemma {:induction false} FeedConcat(s: State, a: seq<Delta>, b: seq<Delta>)
    ensures Feed(s, a + b) == Feed(Feed(s, a), b)
    decreases |a|
  {
    if a == [] {
      assert a + b == b;
    } else {
      assert (a + b)[1..] == a[1..] + b;
      FeedConcat(Ingested(s, a[0]).0, a[1..], b);
    }
  }

  /** Before a snapshot every update is only buffered. */
  lemma {:induction false} FeedBuffers(s: State, deltas: seq<Delta>)
    requires s.updateId.None? && !s.status.Gapped?
    ensures Feed(s, deltas) == s.(buffered := s.buffered + deltas, status := if deltas == [] then s.status else Buffering)
    decreases |deltas|
  {
    if deltas == [] {
      assert s.buffered + deltas == s.buffered;
    } else {
      var next := Ingested(s, deltas[0]).0;
      FeedBuffers(next, deltas[1..]);
      assert s.buffered + [deltas[0]] + deltas[1..] == s.buffered + deltas;
    }
  }

  /** A gap freezes the book: nothing fed afterwards changes anything. */
  lemma {:induction false} GapFreezes(s: State, deltas: seq<Delta>)
    requires s.status.Gapped?
    ensures Feed(s, deltas) == s
    decreases |deltas|
  {
    if deltas != [] { GapFreezes(s, deltas[1..]); }
  }

  /** Replaying the buffer in the snapshot loop and ingesting the updates one by one are the same. */
  lemma {:induction false} PendingIsFeed(s: State, pending: seq<Delta>)
    requires s.updateId.Some? && !s.status.Gapped?
    ensures ApplyPending(s, pending) == Feed(s, pending)
    decreases |pending|
  {
    if pending != [] {
      var (next, result) := LiveStep(s, pending[0]);
      if result == GapFound { GapFreezes(next, pending[1..]); } else { PendingIsFeed(next, pending[1..]); }
    }
  }

  /** From a reset book it does not matter whether the snapshot arrives before, among or after the updates. */
  lemma {:induction false} SnapshotPositionIndependence(snapshot: Snapshot, before: seq<Delta>, after: seq<Delta>)
    ensures Feed(Loaded(Feed(EMPTY, before), snapshot), after)
         == Feed(Loaded(EMPTY, snapshot), before + after)
  {
    FeedBuffers(EMPTY, before);
    assert [] + before == before;
    var started := Fresh(EMPTY, snapshot);
    PendingIsFeed(started, before);
    FeedConcat(started, before, after);
  }

  // ---------------------------------------------------------------- what a book holds

  /** An update the book already has. */
  predicate IsOlder(id: nat, first: bool, d: Delta) { if first then d.final < id else d.final <= id }

  predicate IsOfOther(symbol: Option<string>, d: Delta) { symbol.Some? && d.symbol.Some? && symbol != d.symbol }

  /** The updates a book must take, by their ids and symbols alone: older ones are passed over, and the first
      one that neither is older nor links ends the chain. */
  function Chain(id: nat, first: bool, symbol: Option<string>, deltas: seq<Delta>): seq<Delta>
    decreases |deltas|
  {
    if deltas == [] then []
    else if IsOlder(id, first, deltas[0]) then Chain(id, first, symbol, deltas[1..])
    else if Links(id, first, deltas[0]) && !IsOfOther(symbol, deltas[0]) then
      [deltas[0]] + Chain(deltas[0].final, false, Or(deltas[0].symbol, symbol), deltas[1..])
    else []
  }

  /** Some update neither is older nor links. */
  predicate Breaks(id: nat, first: bool, symbol: Option<string>, deltas: seq<Delta>)
    decreases |deltas|
  {
    deltas != [] &&
    if IsOlder(id, first, deltas[0]) then Breaks(id, first, symbol, deltas[1..])
    else if Links(id, first, deltas[0]) && !IsOfOther(symbol, deltas[0]) then
      Breaks(deltas[0].final, false, Or(deltas[0].symbol, symbol), deltas[1..])
    else true
  }

  /** An unbroken chain of updates from an update id: the first overlaps or follows the snapshot,
      every later one is newer and names its predecessor (or, unnamed, leaves no id out). */
  ghost predicate Unbroken(id: nat, first: bool, chain: seq<Delta>)
    decreases |chain|
  {
    chain == [] || (Links(id, first, chain[0]) && Unbroken(chain[0].final, false, chain[1..]))
  }

  predicate Links(id: nat, first: bool, d: Delta) {
    if first then d.final >= id && (d.first <= id || d.previous == Some(id))
    else d.final > id && (d.previous == Some(id) || (d.previous.None? && d.first <= id + 1))
  }

  /** One update, decided by its ids and symbol alone: an older one is ignored without effect, a linked one of
      the same symbol is applied, and anything else is a gap that leaves all but the status alone. */
  lemma {:induction false} LiveStepMeaning(s: State, d: Delta)
    requires s.updateId.Some?
    ensures var (t, result) := LiveStep(s, d); var id := s.updateId.value;
      if IsOlder(id, s.awaitingFirst, d) then result == Ignored && t == s
      else if Links(id, s.awaitingFirst, d) && !IsOfOther(s.symbol, d) then
        && result == Applied && t.updateId == Some(d.final) && t.status.Ready? && !t.awaitingFirst
        && t.bids == PutAll(s.bids, d.bids) && t.asks == PutAll(s.asks, d.asks)
        && t.symbol == Or(d.symbol, s.symbol) && t.eventTime == Or(d.eventTime, s.eventTime)
        && t.transactionTime == Or(d.transactionTime, s.transactionTime) && t.buffered == s.buffered && t.gapReason == s.gapReason
      else
        && result == GapFound && t == s.(status := Gapped, gapReason := t.gapReason)
        && t.gapReason == Some(
             if Links(id, s.awaitingFirst, d) then SymbolChanged(s.symbol.value, d.symbol.value)
             else if s.awaitingFirst then SnapshotUpdateGap(id, d.first)
             else if d.previous.Some? then PreviousUpdateMismatch(id, d.previous.value)
             else FirstUpdateGap(id, d.first))
  {
    hide PutAll;
  }

  /** The id after a chain. */
  function LastId(id: nat, chain: seq<Delta>): nat {
    if chain == [] then id else chain[|chain| - 1].final
  }

  function AllBids(chain: seq<Delta>): seq<Level> { if chain == [] then [] else chain[0].bids + AllBids(chain[1..]) }

  function AllAsks(chain: seq<Delta>): seq<Level> { if chain == [] then [] else chain[0].asks + AllAsks(chain[1..]) }

  lemma {:induction false} PutAllConcat(book: Levels, a: seq<Level>, b: seq<Level>)
    ensures PutAll(book, a + b) == PutAll(PutAll(book, a), b)
    decreases |a|
  {
    if a == [] {
      assert a + b == b;
    } else {
      assert (a + b)[1..] == a[1..] + b;
      PutAllConcat(Put(book, a[0]), a[1..], b);
    }
  }

  /** The latest symbol and times a chain carries. */
  function LastSymbol(symbol: Option<string>, chain: seq<Delta>): Option<string>
    decreases |chain|
  {
    if chain == [] then symbol else LastSymbol(Or(chain[0].symbol, symbol), chain[1..])
  }

  function LastEventTime(time: Option<nat>, chain: seq<Delta>): Option<nat>
    decreases |chain|
  {
    if chain == [] then time else LastEventTime(Or(chain[0].eventTime, time), chain[1..])
  }

  function LastTransactionTime(time: Option<nat>, chain: seq<Delta>): Option<nat>
    decreases |chain|
  {
    if chain == [] then time else LastTransactionTime(Or(chain[0].transactionTime, time), chain[1..])
  }

  /** At any time a book with a snapshot is that snapshot followed by the chain its updates make, an unbroken one;
      it is gapped if and only if some update broke it. Its update id is the chain's last and never went back. */
  lemma {:induction false} BookIsUnbrokenChain(s: State, deltas: seq<Delta>)
    requires s.updateId.Some? && !s.status.Gapped?
    ensures var chain := Chain(s.updateId.value, s.awaitingFirst, s.symbol, deltas); var t := Feed(s, deltas);
      && Unbroken(s.updateId.value, s.awaitingFirst, chain)
      && t.updateId == Some(LastId(s.updateId.value, chain)) && t.updateId.value >= s.updateId.value
      && t.bids == PutAll(s.bids, AllBids(chain)) && t.asks == PutAll(s.asks, AllAsks(chain))
      && t.symbol == LastSymbol(s.symbol, chain) && t.eventTime == LastEventTime(s.eventTime, chain)
      && t.transactionTime == LastTransactionTime(s.transactionTime, chain)
      && (t.status.Gapped? <==> Breaks(s.updateId.value, s.awaitingFirst, s.symbol, deltas))
      && t.awaitingFirst == (s.awaitingFirst && chain == [])
    decreases |deltas|
  {
    hide LiveStep;
    if deltas != [] {
      LiveStepMeaning(s, deltas[0]);
      var d, rest := deltas[0], deltas[1..];
      var (next, result) := LiveStep(s, d);
      if result == GapFound {
        GapFreezes(next, rest);
      } else {
        BookIsUnbrokenChain(next, rest);
        if result == Applied {
          var tail := Chain(d.final, false, Or(d.symbol, s.symbol), rest);
          var chain := [d] + tail;
          assert chain[1..] == tail;
          PutAllConcat(s.bids, d.bids, AllBids(tail));
          PutAllConcat(s.asks, d.asks, AllAsks(tail));
        }
      }
    }
  }

  /** Index of the last mention of a price, or -1. */
  function LastMention(levels: seq<Level>, price: string): (i: int)
    ensures -1 <= i < |levels|
    ensures i >= 0 ==> levels[i].price == price
    ensures forall j :: i < j < |levels| ==> levels[j].price != price
  {
    if levels == [] then -1
    else if levels[|levels| - 1].price == price then |levels| - 1
    else LastMention(levels[..|levels| - 1], price)
  }

  lemma {:induction false} EmptyPutAll(book: Levels)
    ensures PutAll(book, []) == book
  {}

  lemma {:induction false} PutLast(book: Levels, levels: seq<Level>)
    requires levels != []
    ensures PutAll(book, levels) == Put(PutAll(book, levels[..|levels| - 1]), levels[|levels| - 1])
  {
    var init, last := levels[..|levels| - 1], levels[|levels| - 1];
    assert levels == init + [last];
    PutAllConcat(book, init, [last]);
    assert [last][1..] == [];
  }

  /** What one price shows depends only on its last mention. */
  lemma {:induction false} LastMentionDecides(book: Levels, levels: seq<Level>, price: string)
    ensures var i := LastMention(levels, price); var result := PutAll(book, levels);
      if i < 0 then (price in result <==> price in book) && (price in book ==> result[price] == book[price])
      else (price in result <==> !IsZero(levels[i].quantity)) && (price in result ==> result[price] == levels[i].quantity)
    decreases |levels|
  {
    hide PutAll, IsZero;
    if levels == [] {
      EmptyPutAll(book);
    } else {
      var init, last := levels[..|levels| - 1], levels[|levels| - 1];
      LastMentionDecides(book, init, price);
      PutLast(book, levels);
    }
  }

  /** The whole law of a synchronised book, from reset through any interleaving of one snapshot and updates. */
  lemma {:induction false} SynchronisedBook(snapshot: Snapshot, before: seq<Delta>, after: seq<Delta>, price: string)
    ensures var book := Feed(Loaded(Feed(EMPTY, before), snapshot), after);
      var chain := Chain(snapshot.lastUpdateId, true, None, before + after);
      && Unbroken(snapshot.lastUpdateId, true, chain)
      && book.updateId == Some(LastId(snapshot.lastUpdateId, chain))
      && book.symbol == LastSymbol(None, chain) && book.eventTime == LastEventTime(None, chain)
      && book.transactionTime == LastTransactionTime(None, chain) && book.buffered == []
      && book.status == (if Breaks(snapshot.lastUpdateId, true, None, before + after) then Gapped else Ready)
      && ShowsLast(book.bids, snapshot.bids + AllBids(chain), price) && ShowsLast(book.asks, snapshot.asks + AllAsks(chain), price)
  {
    hide ShowsLast, LiveStep;
    var chain := Chain(snapshot.lastUpdateId, true, None, before + after);
    SnapshotPositionIndependence(snapshot, before, after);
    BookIsUnbrokenChain(Fresh(EMPTY, snapshot), before + after);
    FedIsReady(Fresh(EMPTY, snapshot), before + after);
    PutAllConcat(map[], snapshot.bids, AllBids(chain));
    PutAllConcat(map[], snapshot.asks, AllAsks(chain));
    PutAllShowsLast(snapshot.bids + AllBids(chain), price);
    PutAllShowsLast(snapshot.asks + AllAsks(chain), price);
  }

  lemma {:induction false} FedIsReady(s: State, deltas: seq<Delta>)
    requires s.updateId.Some? && (s.status.Ready? || s.status.Gapped?)
    ensures var t := Feed(s, deltas); t.buffered == s.buffered && (t.status.Ready? || t.status.Gapped?)
    decreases |deltas|
  {
    hide LiveStep;
    if deltas != [] {
      LiveStepMeaning(s, deltas[0]);
      FedIsReady(Ingested(s, deltas[0]).0, deltas[1..]);
    }
  }

  /** A side shows a price exactly if it was last mentioned with a quantity, and then that quantity. */
  predicate ShowsLast(side: Levels, mentions: seq<Level>, price: string) {
    var i := LastMention(mentions, price);
    && (price in side <==> i >= 0 && !IsZero(mentions[i].quantity))
    && (price in side ==> side[price] == mentions[i].quantity)
  }

  lemma {:induction false} PutAllShowsLast(mentions: seq<Level>, price: string)
    ensures ShowsLast(PutAll(map[], mentions), mentions, price)
  {
    LastMentionDecides(map[], mentions, price);
  }
}
