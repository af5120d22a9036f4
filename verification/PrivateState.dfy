/** The account view kept from private stream events and REST snapshots, with its bounded window of
    already applied events. */
module PrivateState {
  import opened Wrappers

  datatype Balance = Balance(asset: string, wallet: string, crossWallet: string, available: Option<string>, change: Option<string>)

  datatype Position = Position(
    symbol: string, side: string, quantity: string, entryPrice: string, breakEvenPrice: Option<string>,
    realizedPnl: Option<string>, unrealizedPnl: Option<string>, marginType: Option<string>, isolatedWallet: Option<string>)

  datatype Order = Order(
    orderId: nat, symbol: string, clientOrderId: string, side: string, positionSide: string, orderType: string,
    status: string, originalQuantity: string, filledQuantity: string, averagePrice: string, stopPrice: string,
    reduceOnly: bool, closePosition: bool, executionType: string, tradeId: Option<nat>, updateTime: nat)

  /** A stream event as received, with what is parsed from it. Its identity is its body, the canonical text of
      all of it: the source compares hashes, which this model takes to be injective. */
  datatype Event =
    | AccountUpdate(body: string, balances: seq<Balance>, positions: seq<Position>, eventTime: Option<nat>, transactionTime: Option<nat>)
    | OrderUpdate(body: string, order: Order, eventTime: Option<nat>, transactionTime: Option<nat>)
    | ListenKeyExpired(body: string, eventTime: Option<nat>, transactionTime: Option<nat>)
    | Unsupported(body: string, kind: string)

  /** A parsed REST snapshot; a part that is absent leaves its map alone. */
  datatype Reconciliation = Reconciliation(
    balances: Option<seq<Balance>>, positions: Option<seq<Position>>, openOrders: Option<seq<Order>>, observedAt: Option<nat>)

  datatype ApplyResult = Applied | Duplicate | NotSupported

  datatype Maps = Maps(balances: map<string, Balance>, positions: map<string, Position>, orders: map<nat, Order>)

  /** The account as a value; `window` lists the bodies of the remembered events, oldest first. */
  datatype Account = Account(
    maps: Maps, streamExpired: bool, lastEventTime: Option<nat>, lastTransactionTime: Option<nat>,
    lastReconciliationTime: Option<nat>, appliedCount: nat, window: seq<string>)

  const MAXIMUM_EVENTS: nat := 100_000
  const COMPACTION_OFFSET: nat := 10_000

  const NEW_ACCOUNT: Account := Account(Maps(map[], map[], map[]), false, None, None, None, 0, [])

  // ---------------------------------------------------------------- specification

  function PositionKey(p: Position): string { p.symbol + ":" + p.side }

  function PutEach<K, V>(m: map<K, V>, items: seq<V>, key: V -> K): map<K, V>
    decreases |items|
  {
    if items == [] then m else PutEach(m[key(items[0]) := items[0]], items[1..], key)
  }

  function BalanceKey(b: Balance): string { b.asset }

  function OrderKey(o: Order): nat { o.orderId }

  function Or<T>(x: Option<T>, y: Option<T>): Option<T> { if x.Some? then x else y }

  function Update(m: Maps, e: Event): Maps {
    match e
    case AccountUpdate(_, bs, ps, _, _) =>
      m.(balances := PutEach(m.balances, bs, BalanceKey), positions := PutEach(m.positions, ps, PositionKey))
    case OrderUpdate(_, o, _, _) => m.(orders := m.orders[o.orderId := o])
    case _ => m
  }

  function Suffix<T>(s: seq<T>, n: nat): seq<T> { if |s| <= n then s else s[|s| - n..] }

  /** One event: a remembered or unsupported one changes nothing, any other is applied and remembered in a
      first-in first-out window. */
  function ApplyEvent(a: Account, e: Event): (Account, ApplyResult) {
    if e.body in a.window then (a, Duplicate)
    else if e.Unsupported? then (a, NotSupported)
    else
      (Account(Update(a.maps, e), a.streamExpired || e.ListenKeyExpired?, Or(e.eventTime, a.lastEventTime),
               Or(e.transactionTime, a.lastTransactionTime), a.lastReconciliationTime, a.appliedCount + 1,
               Suffix(a.window + [e.body], MAXIMUM_EVENTS)), Applied)
  }

  /** The event leaves the account as it is. */
  predicate Ignores(a: Account, e: Event) { e.Unsupported? || e.body in a.window }

  lemma {:induction false} IgnoresIff(a: Account, e: Event)
    ensures Ignores(a, e) <==> ApplyEvent(a, e).0 == a
  {
    if !Ignores(a, e) { assert ApplyEvent(a, e).0.appliedCount == a.appliedCount + 1; }
  }

  function ApplyAll(a: Account, events: seq<Event>): Account
    decreases |events|
  {
    if events == [] then a else ApplyAll(ApplyEvent(a, events[0]).0, events[1..])
  }

  lemma {:induction false} ApplyAllConcat(a: Account, events: seq<Event>, more: seq<Event>)
    ensures ApplyAll(a, []) == a && (forall e :: ApplyAll(a, [e]) == ApplyEvent(a, e).0)
    ensures ApplyAll(a, events + more) == ApplyAll(ApplyAll(a, events), more)
    decreases |events|
  {
    hide ApplyEvent;
    forall e
      ensures ApplyAll(a, [e]) == ApplyEvent(a, e).0
    {
      assert [e][1..] == [];
      assert ApplyAll(ApplyEvent(a, e).0, []) == ApplyEvent(a, e).0;
    }
    if events == [] {
      assert events + more == more;
    } else {
      assert (events + more)[1..] == events[1..] + more;
      ApplyAllConcat(ApplyEvent(a, events[0]).0, events[1..], more);
    }
  }

  /** Only a snapshot clears an expiry. */
  lemma {:induction false} ExpiryStays(a: Account, events: seq<Event>)
    ensures a.streamExpired ==> ApplyAll(a, events).streamExpired
    decreases |events|
  {
    hide Update;
    if events != [] { ExpiryStays(ApplyEvent(a, events[0]).0, events[1..]); }
  }

  function Reconcile(a: Account, r: Reconciliation): Account {
    a.(maps := Maps(
         if r.balances.Some? then PutEach(map[], r.balances.value, BalanceKey) else a.maps.balances,
         if r.positions.Some? then PutEach(map[], r.positions.value, PositionKey) else a.maps.positions,
         if r.openOrders.Some? then PutEach(map[], r.openOrders.value, OrderKey) else a.maps.orders),
       lastReconciliationTime := Or(r.observedAt, a.lastReconciliationTime), streamExpired := false)
  }

  // ---------------------------------------------------------------- distinct sequences and their sets

  predicate Distinct<T(==)>(s: seq<T>) { forall i, j :: 0 <= i < j < |s| ==> s[i] != s[j] }

  function Elements<T(==)>(s: seq<T>): set<T> { set x | x in s }

  lemma {:induction false} DistinctSize<T>(s: seq<T>)
    requires Distinct(s)
    ensures |Elements(s)| == |s|
  {
    if s == [] {
      assert Elements(s) == {};
    } else {
      var init := s[..|s| - 1];
      DistinctSize(init);
      assert Elements(s) == Elements(init) + {s[|s| - 1]};
      assert s[|s| - 1] !in Elements(init);
    }
  }

  lemma {:induction false} PushDistinct<T>(s: seq<T>, x: T)
    requires Distinct(s) && x !in Elements(s)
    ensures Distinct(s + [x]) && Elements(s + [x]) == Elements(s) + {x}
  {}

  /** Dropping one more element from the front of a distinct tail. */
  lemma {:induction false} PopDistinct<T>(s: seq<T>, k: nat)
    requires k < |s| && Distinct(s[k..])
    ensures Distinct(s[k + 1..]) && Elements(s[k + 1..]) == Elements(s[k..]) - {s[k]}
    ensures |Elements(s[k + 1..])| == |s| - k - 1
  {
    var t := s[k..];
    assert s[k + 1..] == t[1..] && t == [t[0]] + t[1..];
    DistinctSize(s[k + 1..]);
  }

  // ---------------------------------------------------------------- the object with its lazily compacted array

  class State {
    var balances: map<string, Balance>
    var positions: map<string, Position>
    var orders: map<nat, Order>
    var eventIds: set<string>
    var eventOrder: seq<string>
    var eventOrderOffset: nat
    var appliedCount: nat
    var streamExpired: bool
    var lastEventTime: Option<nat>
    var lastTransactionTime: Option<nat>
    var lastReconciliationTime: Option<nat>

    /** The set and the live part of the array hold the same distinct events, at most the maximum,
        and the array, dead prefix included, stays shorter than twice the maximum. */
    ghost predicate Valid()
      reads this
    {
      && eventOrderOffset <= |eventOrder| < 2 * MAXIMUM_EVENTS
      && (eventOrderOffset < COMPACTION_OFFSET || 2 * eventOrderOffset < |eventOrder|)
      && Distinct(eventOrder[eventOrderOffset..])
      && eventIds == Elements(eventOrder[eventOrderOffset..])
      && |eventOrder| - eventOrderOffset <= MAXIMUM_EVENTS
    }

    ghost function View(): Account
      requires eventOrderOffset <= |eventOrder|
      reads this
    {
      Account(Maps(balances, positions, orders), streamExpired, lastEventTime, lastTransactionTime, lastReconciliationTime, appliedCount,
              eventOrder[eventOrderOffset..])
    }

    constructor ()
      ensures Valid() && View() == NEW_ACCOUNT
    {
      balances, positions, orders := map[], map[], map[];
      eventIds, eventOrder, eventOrderOffset, appliedCount := {}, [], 0, 0;
      streamExpired, lastEventTime, lastTransactionTime, lastReconciliationTime := false, None, None, None;
    }

    method Apply(event: Event) returns (result: ApplyResult)
      requires Valid()
      modifies this
      ensures Valid() && (View(), result) == ApplyEvent(old(View()), event)
    {
      hide Distinct, Suffix, PutEach;
      if event.body in eventIds { return Duplicate; }
      match event {
        case AccountUpdate(_, bs, ps, _, _) =>
          balances := PutItems(balances, bs, BalanceKey);
          positions := PutItems(positions, ps, PositionKey);
        case OrderUpdate(_, order, _, _) =>
          orders := orders[order.orderId := order];
        case ListenKeyExpired(_, _, _) =>
          streamExpired := true;
        case Unsupported(_, _) =>
          return NotSupported;
      }
      RememberEvent(event.body);
      appliedCount := appliedCount + 1;
      lastEventTime := Or(event.eventTime, lastEventTime);
      lastTransactionTime := Or(event.transactionTime, lastTransactionTime);
      result := Applied;
    }

    method RememberEvent(id: string)
      requires Valid() && id !in eventIds
      modifies this`eventIds, this`eventOrder, this`eventOrderOffset
      ensures Valid()
      ensures eventOrder[eventOrderOffset..] == Suffix(old(eventOrder[eventOrderOffset..]) + [id], MAXIMUM_EVENTS)
    {
      hide Distinct, Elements, Suffix;
      ghost var start, window := eventOrderOffset, eventOrder[eventOrderOffset..];
      PushDistinct(window, id);
      DistinctSize(window + [id]);
      eventIds := eventIds + {id};
      eventOrder := eventOrder + [id];
      ghost var order := eventOrder;
      assert order[start..] == window + [id];
      while |eventIds| > MAXIMUM_EVENTS
        invariant eventOrder == order && start <= eventOrderOffset <= |order|
        invariant Distinct(order[eventOrderOffset..]) && eventIds == Elements(order[eventOrderOffset..])
        invariant |eventIds| == |order| - eventOrderOffset
        invariant eventOrderOffset > start ==> |eventIds| >= MAXIMUM_EVENTS
        decreases |order| - eventOrderOffset
      {
        PopDistinct(order, eventOrderOffset);
        var oldest := eventOrder[eventOrderOffset];
        eventOrderOffset := eventOrderOffset + 1;
        eventIds := eventIds - {oldest};
      }
      SuffixOfTail(order, start, eventOrderOffset);
      if eventOrderOffset >= COMPACTION_OFFSET && eventOrderOffset * 2 >= |eventOrder| {
        eventOrder := eventOrder[eventOrderOffset..];
        eventOrderOffset := 0;
        assert eventOrder[0..] == eventOrder;
      }
    }

    method ReconcileWith(r: Reconciliation)
      requires Valid()
      modifies this
      ensures Valid() && View() == Reconcile(old(View()), r)
    {
      if r.balances.Some? { balances := PutItems(map[], r.balances.value, BalanceKey); }
      if r.positions.Some? { positions := PutItems(map[], r.positions.value, PositionKey); }
      if r.openOrders.Some? { orders := PutItems(map[], r.openOrders.value, OrderKey); }
      if r.observedAt.Some? { lastReconciliationTime := r.observedAt; }
      streamExpired := false;
    }
  }

  lemma {:induction false} SuffixOfTail<T>(s: seq<T>, from: nat, to: nat)
    requires from <= to <= |s| && |s| - to <= MAXIMUM_EVENTS
    requires to > from ==> |s| - to == MAXIMUM_EVENTS
    ensures s[to..] == Suffix(s[from..], MAXIMUM_EVENTS)
  {}

  method PutItems<K(==), V>(m: map<K, V>, items: seq<V>, key: V -> K) returns (result: map<K, V>)
    ensures result == PutEach(m, items, key)
  {
    result := m;
    for i := 0 to |items|
      invariant PutEach(result, items[i..], key) == PutEach(m, items, key)
    {
      result := result[key(items[i]) := items[i]];
    }
  }

  // ---------------------------------------------------------------- the window over a whole run

  /** The bodies of the events of a run that took effect, in order. */
  function Effective(a: Account, events: seq<Event>): seq<string>
    decreases |events|
  {
    if events == [] then []
    else
      var (next, result) := ApplyEvent(a, events[0]);
      (if result == Applied then [events[0].body] else []) + Effective(next, events[1..])
  }

  lemma {:induction false} ApplyMeaning(a: Account, e: Event)
    requires Distinct(a.window) && |a.window| <= MAXIMUM_EVENTS
    ensures Distinct(ApplyEvent(a, e).0.window) && |ApplyEvent(a, e).0.window| <= MAXIMUM_EVENTS
    ensures var (next, result) := ApplyEvent(a, e);
      if result == Applied then
        e.body !in a.window && next.window == Suffix(a.window + [e.body], MAXIMUM_EVENTS) && next.appliedCount == a.appliedCount + 1
      else next == a
  {
    hide Update;
    if e.body !in a.window { PushDistinct(a.window, e.body); }
  }

  lemma {:induction false} ShortSuffix<T>(s: seq<T>)
    requires |s| <= MAXIMUM_EVENTS
    ensures Suffix(s, MAXIMUM_EVENTS) == s
  {}

  /** The window is exactly the last hundred thousand effective events, all distinct, and every effective
      event is counted once. */
  lemma {:induction false} WindowIsFifo(a: Account, events: seq<Event>)
    requires Distinct(a.window) && |a.window| <= MAXIMUM_EVENTS
    ensures var b := ApplyAll(a, events); var e := Effective(a, events);
      && b.window == Suffix(a.window + e, MAXIMUM_EVENTS)
      && Distinct(b.window)
      && b.appliedCount == a.appliedCount + |e|
    decreases |events|
  {
    hide ApplyEvent, Suffix;
    if events == [] {
      assert a.window + [] == a.window;
      ShortSuffix(a.window);
    } else {
      var (next, result) := ApplyEvent(a, events[0]);
      ApplyMeaning(a, events[0]);
      var w, rest := a.window, Effective(next, events[1..]);
      if result == Applied {
        PushDistinct(w, events[0].body);
        WindowIsFifo(next, events[1..]);
        assert w + ([events[0].body] + rest) == w + [events[0].body] + rest;
        SuffixOfSuffix(w + [events[0].body], rest, MAXIMUM_EVENTS);
      } else {
        WindowIsFifo(next, events[1..]);
        assert [] + rest == rest;
      }
    }
  }

  lemma {:induction false} SuffixOfSuffix<T>(s: seq<T>, t: seq<T>, n: nat)
    ensures Suffix(Suffix(s, n) + t, n) == Suffix(s + t, n)
  {}

  /** Whatever events come in between, an event is refused as a duplicate exactly when it is among the last
      hundred thousand effective ones; refused events leave the account as it was. */
  lemma {:induction false} DuplicateIff(events: seq<Event>, e: Event)
    requires !e.Unsupported?
    ensures var a := ApplyAll(NEW_ACCOUNT, events);
      && (ApplyEvent(a, e).1 == Duplicate <==> e.body in Suffix(Effective(NEW_ACCOUNT, events), MAXIMUM_EVENTS))
      && (ApplyEvent(a, e).1 == Duplicate ==> ApplyEvent(a, e).0 == a)
      && ApplyEvent(ApplyEvent(a, e).0, e) == (ApplyEvent(a, e).0, Duplicate)
  {
    WindowIsFifo(NEW_ACCOUNT, events);
    assert [] + Effective(NEW_ACCOUNT, events) == Effective(NEW_ACCOUNT, events);
    var a := ApplyAll(NEW_ACCOUNT, events);
    if e.body !in a.window {
      var w := Suffix(a.window + [e.body], MAXIMUM_EVENTS);
      assert w[|w| - 1] == e.body;
    }
  }

  // ---------------------------------------------------------------- what the maps hold after a whole run

  /** The last of the items with this key. */
  ghost predicate LastMention<K(!new), V(!new)>(items: seq<V>, key: V -> K, k: K, v: V) {
    exists i :: 0 <= i < |items| && items[i] == v && key(items[i]) == k && forall j :: i < j < |items| ==> key(items[j]) != k
  }

  /** A key shows its last mention, and what it showed before when it is not mentioned. */
  lemma {:induction false} LastMentionShows<K(!new), V(!new)>(m: map<K, V>, items: seq<V>, key: V -> K, k: K)
    ensures var r := PutEach(m, items, key);
      if forall i :: 0 <= i < |items| ==> key(items[i]) != k then (k in r <==> k in m) && (k in m ==> r[k] == m[k])
      else k in r && LastMention(items, key, k, r[k])
    decreases |items|
  {
    if items != [] {
      var first, rest := items[0], items[1..];
      LastMentionShows(m[key(first) := first], rest, key, k);
      var r := PutEach(m, items, key);
      if forall i :: 0 <= i < |rest| ==> key(rest[i]) != k {
        assert forall i :: 0 < i < |items| ==> key(items[i]) == key(rest[i - 1]);
      } else {
        var i :| 0 <= i < |rest| && rest[i] == r[k] && key(rest[i]) == k && forall j :: i < j < |rest| ==> key(rest[j]) != k;
        assert items[i + 1] == r[k];
        assert forall j :: i + 1 < j < |items| ==> key(items[j]) == key(rest[j - 1]);
        assert key(items[i + 1]) == k;
      }
    }
  }

  lemma {:induction false} PutEachAppends<K, V>(m: map<K, V>, items: seq<V>, more: seq<V>, key: V -> K)
    ensures PutEach(m, items + more, key) == PutEach(PutEach(m, items, key), more, key)
    decreases |items|
  {
    if items == [] {
      assert items + more == more;
    } else {
      assert (items + more)[1..] == items[1..] + more;
      PutEachAppends(m[key(items[0]) := items[0]], items[1..], more, key);
    }
  }

  /** The events of a run that took effect, in order. */
  function Taken(a: Account, events: seq<Event>): seq<Event>
    decreases |events|
  {
    if events == [] then []
    else
      var next := ApplyEvent(a, events[0]).0;
      (if events[0].body !in a.window && !events[0].Unsupported? then [events[0]] else []) + Taken(next, events[1..])
  }

  /** The balances, positions and orders a sequence of events reports, in order. */
  function BalancesOf(events: seq<Event>): seq<Balance> {
    if events == [] then [] else (if events[0].AccountUpdate? then events[0].balances else []) + BalancesOf(events[1..])
  }

  function PositionsOf(events: seq<Event>): seq<Position> {
    if events == [] then [] else (if events[0].AccountUpdate? then events[0].positions else []) + PositionsOf(events[1..])
  }

  function OrdersOf(events: seq<Event>): seq<Order> {
    if events == [] then [] else (if events[0].OrderUpdate? then [events[0].order] else []) + OrdersOf(events[1..])
  }

  /** The last time any of them carries, or the one known before. */
  function LatestEventTime(events: seq<Event>, known: Option<nat>): Option<nat> {
    if events == [] then known
    else LatestEventTime(events[1..], if !events[0].Unsupported? && events[0].eventTime.Some? then events[0].eventTime else known)
  }

  function LatestTransactionTime(events: seq<Event>, known: Option<nat>): Option<nat> {
    if events == [] then known
    else LatestTransactionTime(events[1..], if !events[0].Unsupported? && events[0].transactionTime.Some? then events[0].transactionTime else known)
  }

  /** A run leaves in each map the last mention of every key among the events that took effect, and otherwise what
      was there. */
  lemma {:induction false} RunShowsLastMentions(a: Account, events: seq<Event>)
    ensures var b, taken := ApplyAll(a, events), Taken(a, events);
      b.maps == Maps(PutEach(a.maps.balances, BalancesOf(taken), BalanceKey), PutEach(a.maps.positions, PositionsOf(taken), PositionKey),
                     PutEach(a.maps.orders, OrdersOf(taken), OrderKey))
    decreases |events|
  {
    hide Suffix, PutEach, Update;
    if events == [] {
      NothingPut(a);
    } else {
      var e, next := events[0], ApplyEvent(a, events[0]).0;
      RunShowsLastMentions(next, events[1..]);
      var rest := Taken(next, events[1..]);
      if e.body !in a.window && !e.Unsupported? {
        assert Taken(a, events) == [e] + rest && ([e] + rest)[1..] == rest;
        EventPuts(a.maps, e);
        PutEachAppends(a.maps.balances, if e.AccountUpdate? then e.balances else [], BalancesOf(rest), BalanceKey);
        PutEachAppends(a.maps.positions, if e.AccountUpdate? then e.positions else [], PositionsOf(rest), PositionKey);
        PutEachAppends(a.maps.orders, if e.OrderUpdate? then [e.order] else [], OrdersOf(rest), OrderKey);
      } else {
        assert Taken(a, events) == rest && next == a;
      }
    }
  }

  /** The stream has expired if any of them said so, and the times are the last ones given. */
  lemma {:induction false} RunShowsLastTimes(a: Account, events: seq<Event>)
    ensures var b, taken := ApplyAll(a, events), Taken(a, events);
      && (b.streamExpired <==> a.streamExpired || exists i :: 0 <= i < |taken| && taken[i].ListenKeyExpired?)
      && b.lastEventTime == LatestEventTime(taken, a.lastEventTime) && b.lastTransactionTime == LatestTransactionTime(taken, a.lastTransactionTime)
      && b.lastReconciliationTime == a.lastReconciliationTime
    decreases |events|
  {
    hide Suffix, Update;
    if events != [] {
      var e, next := events[0], ApplyEvent(a, events[0]).0;
      RunShowsLastTimes(next, events[1..]);
      var rest := Taken(next, events[1..]);
      if e.body !in a.window && !e.Unsupported? {
        assert Taken(a, events) == [e] + rest && ([e] + rest)[1..] == rest;
        ExpiredIn(e, rest);
      } else {
        assert Taken(a, events) == rest && next == a;
      }
    }
  }

  lemma {:induction false} NothingPut(a: Account)
    ensures PutEach(a.maps.balances, [], BalanceKey) == a.maps.balances && PutEach(a.maps.positions, [], PositionKey) == a.maps.positions
    ensures PutEach(a.maps.orders, [], OrderKey) == a.maps.orders
  {}

  lemma {:induction false} EventPuts(m: Maps, e: Event)
    ensures Update(m, e) == Maps(PutEach(m.balances, if e.AccountUpdate? then e.balances else [], BalanceKey),
                                 PutEach(m.positions, if e.AccountUpdate? then e.positions else [], PositionKey),
                                 PutEach(m.orders, if e.OrderUpdate? then [e.order] else [], OrderKey))
  {
    if e.OrderUpdate? { assert [e.order][1..] == []; }
  }

  lemma {:induction false} ExpiredIn(e: Event, rest: seq<Event>)
    ensures (exists i :: 0 <= i < |[e] + rest| && ([e] + rest)[i].ListenKeyExpired?)
        <==> e.ListenKeyExpired? || exists i :: 0 <= i < |rest| && rest[i].ListenKeyExpired?
  {
    var all := [e] + rest;
    assert all[0] == e;
    assert forall i :: 0 <= i < |rest| ==> rest[i] == all[i + 1];
    assert forall i :: 0 < i < |all| ==> all[i] == rest[i - 1];
  }

  /** A snapshot replaces each part it brings by exactly what it lists, clears the expiry, and leaves the rest,
      the window of events among it. */
  lemma {:induction false} ReconcileReplaces(a: Account, r: Reconciliation, asset: string, position: string, order: nat)
    ensures var b := Reconcile(a, r);
      && (if r.balances.None? then b.maps.balances == a.maps.balances
          else if forall i :: 0 <= i < |r.balances.value| ==> BalanceKey(r.balances.value[i]) != asset then asset !in b.maps.balances
          else asset in b.maps.balances && LastMention(r.balances.value, BalanceKey, asset, b.maps.balances[asset]))
      && (if r.positions.None? then b.maps.positions == a.maps.positions
          else if forall i :: 0 <= i < |r.positions.value| ==> PositionKey(r.positions.value[i]) != position then position !in b.maps.positions
          else position in b.maps.positions && LastMention(r.positions.value, PositionKey, position, b.maps.positions[position]))
      && (if r.openOrders.None? then b.maps.orders == a.maps.orders
          else if forall i :: 0 <= i < |r.openOrders.value| ==> OrderKey(r.openOrders.value[i]) != order then order !in b.maps.orders
          else order in b.maps.orders && LastMention(r.openOrders.value, OrderKey, order, b.maps.orders[order]))
      && !b.streamExpired && b.lastReconciliationTime == (if r.observedAt.Some? then r.observedAt else a.lastReconciliationTime)
      && b.window == a.window && b.appliedCount == a.appliedCount
      && b.lastEventTime == a.lastEventTime && b.lastTransactionTime == a.lastTransactionTime
  {
    hide PutEach, LastMention, BalanceKey, PositionKey, OrderKey;
    if r.balances.Some? { LastMentionShows(map[], r.balances.value, BalanceKey, asset); }
    if r.positions.Some? { LastMentionShows(map[], r.positions.value, PositionKey, position); }
    if r.openOrders.Some? { LastMentionShows(map[], r.openOrders.value, OrderKey, order); }
  }
}
