/** The exchange as an environment: one net position, ordinary and algo orders keyed by client id, and
    requests in flight that may take effect at any later time or never. Replies are arbitrary; a client can
    assume that they are truthful, that lookups answer, or that the market is calm only where a property
    says so. */
module Venue {
  import opened Wrappers
  import opened DecimalText
  import opened MutationContract
  import opened Evidence

  datatype Order = Order(symbol: string, side: string, requested: string, executed: string, averagePrice: string, reduceOnly: bool)

  datatype AlgoStatus = Working | WasCanceled | Finished

  datatype Algo = Algo(symbol: string, side: string, orderType: AlgoType, quantity: string, triggerPrice: string, status: AlgoStatus)

  datatype Request =
    | PostOrder(orderId: string, symbol: string, side: string, quantity: string, reduceOnly: bool)
    | PostAlgo(algoId: string, symbol: string, side: string, quantity: string, triggerPrice: string, orderType: AlgoType)
    | CancelAlgo(algoId: string)

  datatype State = State(position: real, orders: map<string, Order>, algos: map<string, Algo>, inflight: set<Request>)

  /** Exposure in a direction: negative means the position is on the other side. */
  function Exposure(v: State, d: Direction): real { if d.Long? then v.position else -v.position }

  function Magnitude(v: State): real { if v.position < 0.0 then -v.position else v.position }

  predicate Opposes(v: State, side: string) { (side == "SELL" && v.position > 0.0) || (side == "BUY" && v.position < 0.0) }

  function Moved(position: real, side: string, quantity: real): real {
    if side == "BUY" then position + quantity else if side == "SELL" then position - quantity else position
  }

  predicate IsFull(o: Order) { IsPlain(o.executed) && IsPlain(o.requested) && Value(o.executed) == Value(o.requested) }

  /** Part of the order is still to be filled, and may be at any later time or never. */
  predicate MayFill(o: Order) { IsPlain(o.executed) && IsPlain(o.requested) && Value(o.executed) < Value(o.requested) }

  function StatusText(o: Order): string { if IsFull(o) then "FILLED" else "PARTIALLY_FILLED" }

  // ---------------------------------------------------------------- what the environment can do

  datatype Choice =
    | Land(request: Request, executed: string, averagePrice: string)
    | Drop(request: Request)
    | Fill(orderId: string, executed: string, averagePrice: string)
    | Trigger(algoId: string)
    | Nothing

  predicate IsPositiveText(s: string) { IsPlain(s) && Value(s) > 0.0 }

  /** A fill the venue may report: positive, at most what was asked, and never increasing or flipping the
      position when reduce-only. */
  predicate Fillable(v: State, r: Request, executed: string, averagePrice: string)
    requires r.PostOrder?
  {
    && r.orderId !in v.orders
    && IsPositiveText(executed) && IsPositiveText(averagePrice) && IsPlain(r.quantity) && Value(executed) <= Value(r.quantity)
    && (r.reduceOnly ==> Opposes(v, r.side) && Value(executed) <= Magnitude(v))
  }

  function LandOrder(v: State, r: Request, executed: string, averagePrice: string): State
    requires r.PostOrder?
  {
    if !Fillable(v, r, executed, averagePrice) then v
    else v.(position := Moved(v.position, r.side, Value(executed)),
            orders := v.orders[r.orderId := Order(r.symbol, r.side, r.quantity, executed, averagePrice, r.reduceOnly)])
  }

  function LandRequest(v: State, r: Request, executed: string, averagePrice: string): State {
    match r
    case PostOrder(_, _, _, _, _) => LandOrder(v, r, executed, averagePrice)
    case PostAlgo(id, symbol, side, quantity, trigger, orderType) =>
      if id in v.algos then v else v.(algos := v.algos[id := Algo(symbol, side, orderType, quantity, trigger, Working)])
    case CancelAlgo(id) =>
      if id in v.algos && v.algos[id].status.Working? then v.(algos := v.algos[id := v.algos[id].(status := WasCanceled)]) else v
  }

  /** A further fill of an order at the venue, up to a new total, under the same rules. */
  predicate FillsFurther(v: State, id: string, executed: string, averagePrice: string) {
    && id in v.orders
    && var o := v.orders[id];
    && MayFill(o) && IsPositiveText(executed) && IsPositiveText(averagePrice) && Value(o.executed) < Value(executed) <= Value(o.requested)
    && (o.reduceOnly ==> Opposes(v, o.side) && Value(executed) - Value(o.executed) <= Magnitude(v))
  }

  function FillOrder(v: State, id: string, executed: string, averagePrice: string): State {
    if !FillsFurther(v, id, executed, averagePrice) then v
    else
      var o := v.orders[id];
      v.(position := Moved(v.position, o.side, Value(executed) - Value(o.executed)),
         orders := v.orders[id := o.(executed := executed, averagePrice := averagePrice)])
  }

  /** A triggered algo order closes up to its quantity of an opposing position. */
  function Fire(v: State, id: string): State {
    if id !in v.algos || !v.algos[id].status.Working? || !IsPlain(v.algos[id].quantity) then v
    else
      var a := v.algos[id];
      var fired := v.(algos := v.algos[id := a.(status := Finished)]);
      if !Opposes(v, a.side) then fired
      else fired.(position := Moved(v.position, a.side, if Value(a.quantity) < Magnitude(v) then Value(a.quantity) else Magnitude(v)))
  }

  function Env(v: State, c: Choice): State {
    match c
    case Land(r, executed, average) =>
      if r !in v.inflight then v else LandRequest(v.(inflight := v.inflight - {r}), r, executed, average)
    case Drop(r) => v.(inflight := v.inflight - {r})
    case Fill(id, executed, average) => FillOrder(v, id, executed, average)
    case Trigger(id) => Fire(v, id)
    case Nothing => v
  }

  function Send(v: State, r: Request): State { v.(inflight := v.inflight + {r}) }

  /** A request that takes effect at once and, for an order, in full. */
  function Landed(v: State, r: Request): State {
    Env(Send(v, r), Land(r, if r.PostOrder? then r.quantity else "", "1"))
  }

  /** Wild: anything may happen; Calm: no algo order triggers; Frozen: nothing happens. Without `fills`, what an
      order executes it executes at once. */
  datatype Mood = Wild(fills: bool) | Calm(fills: bool) | Frozen

  predicate FillsLater(mood: Mood) { !mood.Frozen? && mood.fills }

  predicate Allowed(mood: Mood, c: Choice) {
    c.Nothing? || (!mood.Frozen? && (c.Trigger? ==> mood.Wild?) && (c.Fill? ==> mood.fills))
  }

  ghost predicate EnvStep(mood: Mood, v: State, w: State) { exists c :: Allowed(mood, c) && w == Env(v, c) }

  lemma {:induction false} ChoiceIsStep(mood: Mood, v: State, c: Choice)
    requires Allowed(mood, c)
    ensures EnvStep(mood, v, Env(v, c))
  {}

  ghost predicate EnvPath(mood: Mood, h: seq<State>, from: nat) {
    forall k :: from <= k < |h| - 1 ==> EnvStep(mood, h[k], h[k + 1])
  }

  lemma {:induction false} ExtendPath(mood: Mood, h: seq<State>, from: nat, w: State)
    requires from < |h| && EnvPath(mood, h, from) && EnvStep(mood, h[|h| - 1], w)
    ensures EnvPath(mood, h + [w], from)
  {
    var g := h + [w];
    forall k | from <= k < |g| - 1
      ensures EnvStep(mood, g[k], g[k + 1])
    {
      if k < |h| - 1 { assert EnvStep(mood, h[k], h[k + 1]); }
    }
  }

  /** The history after waiting: environment steps only. */
  ghost predicate Quiet(mood: Mood, past: seq<State>, h: seq<State>) {
    past != [] && past <= h && EnvPath(mood, h, |past| - 1)
  }

  /** The history after a request: environment steps only when the venue refused it, otherwise the request
      in flight and then environment steps. */
  ghost predicate Sent(mood: Mood, past: seq<State>, h: seq<State>, r: Request, rejected: bool) {
    if rejected then Quiet(mood, past, h)
    else past != [] && past <= h && |h| > |past| && h[|past|] == Send(past[|past| - 1], r) && EnvPath(mood, h, |past|)
  }

  /** While the venue is frozen, waiting changes nothing. */
  lemma {:induction false} FrozenStays(past: seq<State>, h: seq<State>)
    requires Quiet(Frozen, past, h)
    ensures h != [] && h[|h| - 1] == past[|past| - 1]
    decreases |h|
  {
    if |h| > |past| {
      var g := h[..|h| - 1];
      assert EnvStep(Frozen, h[|h| - 2], h[|h| - 2 + 1]);
      assert forall k :: |past| - 1 <= k < |g| - 1 ==> EnvStep(Frozen, h[k], h[k + 1]);
      FrozenStays(past, g);
    } else {
      assert h == past;
    }
  }

  ghost predicate SentEither(mood: Mood, past: seq<State>, h: seq<State>, r: Request) {
    Sent(mood, past, h, r, true) || Sent(mood, past, h, r, false)
  }

  lemma {:induction false} JoinPaths(mood: Mood, mid: seq<State>, h: seq<State>, from: nat)
    requires from < |mid| && EnvPath(mood, mid, from) && Quiet(mood, mid, h)
    ensures EnvPath(mood, h, from)
  {
    forall k | from <= k < |h| - 1
      ensures EnvStep(mood, h[k], h[k + 1])
    {
      if k < |mid| - 1 { assert EnvStep(mood, mid[k], mid[k + 1]); }
    }
  }

  /** Waiting after waiting is waiting; waiting after a request is still that request. */
  lemma {:induction false} QuietTwice(mood: Mood, past: seq<State>, mid: seq<State>, h: seq<State>)
    requires Quiet(mood, past, mid) && Quiet(mood, mid, h)
    ensures Quiet(mood, past, h)
  {
    JoinPaths(mood, mid, h, |past| - 1);
  }

  lemma {:induction false} SentThenQuiet(mood: Mood, past: seq<State>, mid: seq<State>, h: seq<State>, r: Request, rejected: bool)
    requires Sent(mood, past, mid, r, rejected) && Quiet(mood, mid, h)
    ensures Sent(mood, past, h, r, rejected)
  {
    JoinPaths(mood, mid, h, if rejected then |past| - 1 else |past|);
  }

  // ---------------------------------------------------------------- truthful answers

  /** A payload that claims a fill describes the order that exists. */
  predicate OrderTruthful(v: State, p: OrderPayload) {
    p.OrderRecord? && (p.status == "FILLED" || p.status == "PARTIALLY_FILLED") ==>
      && p.clientOrderId in v.orders
      && var o := v.orders[p.clientOrderId];
      && p.symbol == o.symbol && p.side == o.side && p.reduceOnly == Some(o.reduceOnly) && p.status == StatusText(o)
      && (IsPlain(p.executedQuantity) ==> IsPlain(o.executed) && Value(p.executedQuantity) == Value(o.executed))
      && (IsPlain(p.averagePrice) ==> IsPlain(o.averagePrice) && Value(p.averagePrice) == Value(o.averagePrice))
  }

  /** A payload that claims an active algo order describes one that is; one that claims a cancel, likewise. */
  predicate AlgoTruthful(v: State, p: AlgoPayload) {
    && (p.AlgoRecord? && IsActiveStatus(p.status) ==>
      && p.clientAlgoId in v.algos
      && var a := v.algos[p.clientAlgoId];
      && a.status.Working? && p.symbol == a.symbol && p.side == a.side && p.orderType == TypeText(a.orderType)
      && (IsPlain(p.quantity) ==> IsPlain(a.quantity) && Value(p.quantity) == Value(a.quantity))
      && (IsPlain(p.triggerPrice) ==> IsPlain(a.triggerPrice) && Value(p.triggerPrice) == Value(a.triggerPrice)))
    && (p.AlgoRecord? && p.status == "CANCELED" ==> p.clientAlgoId in v.algos && v.algos[p.clientAlgoId].status.WasCanceled?)
  }

  predicate CancelTruthful(v: State, p: CancelPayload) {
    p.CancelRecord? && p.code == "200" ==> p.clientAlgoId in v.algos && v.algos[p.clientAlgoId].status.WasCanceled?
  }

  /** What an answering lookup returns. */
  function OrderAnswer(v: State, id: string): OrderLookup {
    if id !in v.orders then OrderLookup(NotFound, NoOrder)
    else
      var o := v.orders[id];
      OrderLookup(Found, OrderRecord(id, o.symbol, o.side, StatusText(o), o.executed, o.averagePrice, Some(id), Some(o.reduceOnly)))
  }

  function AlgoAnswer(v: State, id: string): AlgoLookup {
    if id !in v.algos then AlgoLookup(NotFound, NoAlgo)
    else
      var a := v.algos[id];
      var status := if a.status.Working? then "NEW" else if a.status.WasCanceled? then "CANCELED" else "FINISHED";
      AlgoLookup(Found, AlgoRecord(id, a.symbol, a.side, TypeText(a.orderType), status, a.quantity, a.triggerPrice, Some(id), Some(true)))
  }

  // ---------------------------------------------------------------- the client

  /** A request the client made, and whether the venue refused it. */
  datatype Submission = Submission(request: Request, refused: bool)

  /** An answer the client got, and how many requests it had made by then. */
  datatype Answer =
    | PlacementAnswered(id: string, reply: OrderReply, after: nat)
    | OrderAnswered(id: string, order: OrderLookup, after: nat)
    | AlgoAnswered(id: string, algo: AlgoLookup, after: nat)
    | CancelAnswered(id: string, cancellation: CancelPayload, after: nat)

  /** Every request the venue did not refuse went out at some point of the history. */
  ghost predicate SentAll(history: seq<State>, requests: seq<Submission>) {
    forall i :: 0 <= i < |requests| && !requests[i].refused ==> WentOut(history, requests[i].request)
  }

  ghost predicate WentOut(history: seq<State>, r: Request) { exists k :: 0 < k < |history| && history[k] == Send(history[k - 1], r) }

  lemma {:induction false} SentAllLasts(history: seq<State>, more: seq<State>, requests: seq<Submission>)
    requires SentAll(history, requests) && history <= more
    ensures SentAll(more, requests)
  {
    forall i | 0 <= i < |requests| && !requests[i].refused
      ensures WentOut(more, requests[i].request)
    {
      assert WentOut(history, requests[i].request);
      var k :| 0 < k < |history| && history[k] == Send(history[k - 1], requests[i].request);
      assert more[k] == history[k] && more[k - 1] == history[k - 1];
    }
  }

  lemma {:induction false} SentAllGrows(history: seq<State>, requests: seq<Submission>, s: Submission)
    requires SentAll(history, requests) && (!s.refused ==> WentOut(history, s.request))
    ensures SentAll(history, requests + [s])
  {
    hide WentOut;
  }

  /** What a client has sent and been answered, and where in the answers an operation began. */
  datatype Trail = Trail(requests: seq<Submission>, answers: seq<Answer>, since: nat)

  /** One request more than before. */
  predicate Submitted(past: seq<Submission>, now: seq<Submission>, r: Request) {
    |now| == |past| + 1 && now == past + [Submission(r, now[|past|].refused)]
  }

  class Client {
    const truthful: bool
    const answering: bool
    const prompt: bool   // nothing is refused, everything lands at once and in full, and nothing else happens
    const mood: Mood
    var venue: State
    var requests: seq<Submission>
    var answers: seq<Answer>
    var history: seq<State>   // every venue state passed through; a crash at an await stops after any of them

    ghost predicate Valid()
      reads this
    {
      history != [] && history[|history| - 1] == venue && (prompt ==> !mood.Frozen?) && SentAll(history, requests)
    }

    constructor (venue: State, truthful: bool, answering: bool, prompt: bool, mood: Mood)
      requires prompt ==> !mood.Frozen?
      ensures Valid() && this.venue == venue && history == [venue] && requests == [] && answers == []
      ensures this.truthful == truthful && this.answering == answering && this.prompt == prompt && this.mood == mood
    {
      this.venue, this.truthful, this.answering, this.prompt, this.mood := venue, truthful, answering, prompt, mood;
      history, requests, answers := [venue], [], [];
    }

    /** Time passes: any number of environment steps. */
    method Await()
      requires Valid()
      modifies this`venue, this`history
      ensures Valid() && Quiet(mood, old(history), history)
      ensures prompt ==> venue == old(venue)
    {
      if prompt { return; }
      var steps: int := *;
      for i := 0 to if steps < 0 then 0 else steps
        invariant Valid() && old(history) <= history && EnvPath(mood, history, |old(history)| - 1)
      {
        var choice: Choice := *;
        if Allowed(mood, choice) {
          ghost var before := history;
          ChoiceIsStep(mood, venue, choice);
          venue := Env(venue, choice);
          ExtendPath(mood, before, |old(history)| - 1, venue);
          history := history + [venue];
          SentAllLasts(before, history, requests);
        }
      }
    }

    method Submit(r: Request, rejected: bool)
      requires Valid() && (prompt ==> !rejected)
      modifies this`venue, this`history, this`requests
      ensures Valid() && Sent(mood, old(history), history, r, rejected)
      ensures requests == old(requests) + [Submission(r, rejected)]
      ensures prompt ==> venue == Landed(old(venue), r)
    {
      hide Env, Send, SentAll;
      ghost var before := history;
      if !rejected {
        venue := Send(venue, r);
        history := history + [venue];
        assert history[|before|] == Send(history[|before| - 1], r);
      }
      SentAllLasts(before, history, requests);
      SentAllGrows(history, requests, Submission(r, rejected));
      requests := requests + [Submission(r, rejected)];
      before := history;
      if prompt {
        var choice := Land(r, if r.PostOrder? then r.quantity else "", "1");
        ChoiceIsStep(mood, venue, choice);
        venue := Env(venue, choice);
        history := history + [venue];
        SentAllLasts(before, history, requests);
      }
      Await();
    }

    method PlaceOrder(r: Request) returns (reply: OrderReply)
      requires Valid() && r.PostOrder?
      modifies this
      ensures answers == old(answers) + [PlacementAnswered(r.orderId, reply, |requests|)]
      ensures requests == old(requests) + [Submission(r, reply.disposition.Rejected?)]
      ensures Valid() && Sent(mood, old(history), history, r, reply.disposition.Rejected?)
      ensures truthful ==> OrderTruthful(venue, reply.payload)
      ensures prompt ==> venue == Landed(old(venue), r) && !reply.disposition.Rejected?
    {
      var disposition: Disposition := *;
      if prompt { disposition := Accepted; }
      Submit(r, disposition.Rejected?);
      var payload: OrderPayload := *;
      if truthful && !OrderTruthful(venue, payload) { payload := NoOrder; }
      reply := OrderReply(disposition, payload);
      answers := answers + [PlacementAnswered(r.orderId, reply, |requests|)];
    }

    method PlaceAlgo(r: Request) returns (disposition: Disposition)
      requires Valid() && r.PostAlgo?
      modifies this`venue, this`history, this`requests
      ensures requests == old(requests) + [Submission(r, disposition.Rejected?)]
      ensures Valid() && Sent(mood, old(history), history, r, disposition.Rejected?)
      ensures prompt ==> venue == Landed(old(venue), r) && !disposition.Rejected?
    {
      disposition := *;
      if prompt { disposition := Accepted; }
      Submit(r, disposition.Rejected?);
    }

    method Cancel(id: string) returns (payload: CancelPayload)
      requires Valid()
      modifies this
      ensures Submitted(old(requests), requests, CancelAlgo(id))
      ensures answers == old(answers) + [CancelAnswered(id, payload, |requests|)]
      ensures Valid() && SentEither(mood, old(history), history, CancelAlgo(id))
      ensures truthful ==> CancelTruthful(venue, payload)
      ensures prompt ==> venue == Landed(old(venue), CancelAlgo(id))
    {
      var rejected: bool := *;
      if prompt { rejected := false; }
      Submit(CancelAlgo(id), rejected);
      payload := *;
      if truthful && !CancelTruthful(venue, payload) { payload := NoCancel; }
      answers := answers + [CancelAnswered(id, payload, |requests|)];
    }

    method QueryOrder(id: string) returns (lookup: OrderLookup)
      requires Valid()
      modifies this`venue, this`history, this`answers
      ensures answers == old(answers) + [OrderAnswered(id, lookup, |requests|)]
      ensures Valid() && Quiet(mood, old(history), history)
      ensures truthful && lookup.disposition.Found? ==> OrderTruthful(venue, lookup.payload)
      ensures answering ==> lookup == OrderAnswer(venue, id)
      ensures prompt ==> venue == old(venue)
    {
      Await();
      lookup := *;
      if truthful && !OrderTruthful(venue, lookup.payload) { lookup := OrderLookup(Unavailable, NoOrder); }
      if answering { lookup := OrderAnswer(venue, id); }
      answers := answers + [OrderAnswered(id, lookup, |requests|)];
    }

    method QueryAlgo(id: string) returns (lookup: AlgoLookup)
      requires Valid()
      modifies this`venue, this`history, this`answers
      ensures answers == old(answers) + [AlgoAnswered(id, lookup, |requests|)]
      ensures Valid() && Quiet(mood, old(history), history)
      ensures truthful && lookup.disposition.Found? ==> AlgoTruthful(venue, lookup.payload)
      ensures answering ==> lookup == AlgoAnswer(venue, id)
      ensures prompt ==> venue == old(venue)
    {
      Await();
      lookup := *;
      if truthful && !AlgoTruthful(venue, lookup.payload) { lookup := AlgoLookup(Unavailable, NoAlgo); }
      if answering { lookup := AlgoAnswer(venue, id); }
      answers := answers + [AlgoAnswered(id, lookup, |requests|)];
    }
  }
}
