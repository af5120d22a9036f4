/** When is an owned position never left without a stop? The environment invariants behind revising and
    closing: exposure only shrinks, fills are accounted for, and a working stop covers what is left. */
module ProtectionGuard {
  import opened Wrappers
  import opened DecimalText
  import opened MutationContract
  import opened Evidence
  import opened Venue

  /** An owned position, and the one reduce-only order that may be sent for it. */
  datatype Guard = Guard(direction: Direction, quantity: real, reduceId: string)

  /** Nothing at the venue or in flight can enlarge or flip the position, and whatever the reduce-only order
      executed is gone from it. */
  ghost predicate Contained(v: State, g: Guard) {
    && 0.0 <= Exposure(v, g.direction) <= g.quantity
    && (forall id :: id in v.orders && MayFill(v.orders[id]) ==> v.orders[id].reduceOnly)
    && (forall r :: r in v.inflight && r.PostOrder? ==> r.reduceOnly || r.orderId in v.orders)
    && (g.reduceId in v.orders ==>
      IsPlain(v.orders[g.reduceId].executed) && Exposure(v, g.direction) <= g.quantity - Value(v.orders[g.reduceId].executed))
  }

  /** An opening market order and the reduce-only order that may flatten it: nothing else at the venue or in
      flight enlarges the position, which never exceeds what the one executed less what the other did. */
  datatype Opening = Opening(direction: Direction, entryId: string, closeId: string)

  /** The number a text denotes, if any. */
  function Amount(s: string): real { if IsPlain(s) then Value(s) else 0.0 }

  function FilledAmount(v: State, id: string): real { if id in v.orders then Amount(v.orders[id].executed) else 0.0 }

  ghost predicate Opened(v: State, o: Opening) {
    && o.entryId != o.closeId
    && 0.0 <= Exposure(v, o.direction) <= FilledAmount(v, o.entryId) - FilledAmount(v, o.closeId)
    && (o.closeId in v.orders ==> IsPlain(v.orders[o.closeId].executed))
    && (forall id :: id in v.orders && MayFill(v.orders[id]) ==>
      || (id == o.entryId && v.orders[id].side == EntrySide(o.direction))
      || (v.orders[id].reduceOnly && id != o.entryId))
    && forall r :: r in v.inflight && r.PostOrder? ==>
      || r.orderId in v.orders
      || (r.orderId == o.entryId && r.side == EntrySide(o.direction))
      || (r.reduceOnly && r.orderId != o.entryId)
  }

  predicate OwnOrder(o: Opening, id: string, side: string, reduceOnly: bool) {
    (id == o.entryId && side == EntrySide(o.direction)) || (id == o.closeId && side == ExitSide(o.direction) && reduceOnly)
  }

  /** Nothing but these two orders moves the position: it is exactly what the one executed less what the other did. */
  ghost predicate OrdersBalance(v: State, o: Opening) {
    && Opened(v, o)
    && Exposure(v, o.direction) == FilledAmount(v, o.entryId) - FilledAmount(v, o.closeId)
    && (forall id :: id in v.orders && MayFill(v.orders[id]) ==> OwnOrder(o, id, v.orders[id].side, v.orders[id].reduceOnly))
    && forall r :: r in v.inflight && r.PostOrder? ==> r.orderId in v.orders || OwnOrder(o, r.orderId, r.side, r.reduceOnly)
  }

  /** A working stop of exactly this size, which nobody is cancelling, or no position at all. */
  ghost predicate Covers(v: State, direction: Direction, stopId: string, size: real) {
    && CancelAlgo(stopId) !in v.inflight
    && Exposure(v, direction) <= size
    && (Exposure(v, direction) == 0.0 || IsWorking(v, direction, stopId, size))
  }

  ghost predicate IsWorking(v: State, direction: Direction, id: string, size: real) {
    && id in v.algos
    && var a := v.algos[id];
    && a.status.Working? && a.side == ExitSide(direction) && a.orderType.StopMarket? && IsPlain(a.quantity) && Value(a.quantity) == size
  }

  /** What a reader of the venue sees: flat, or a working stop on the exit side at least as large as the position. */
  ghost predicate Protected(v: State, direction: Direction, ids: set<string>) {
    Exposure(v, direction) == 0.0 ||
    exists id :: id in ids && id in v.algos && ShieldedBy(v, direction, v.algos[id])
  }

  ghost predicate ShieldedBy(v: State, direction: Direction, a: Algo) {
    a.status.Working? && a.side == ExitSide(direction) && a.orderType.StopMarket? && IsPlain(a.quantity) && Value(a.quantity) >= Exposure(v, direction)
  }

  lemma {:induction false} CoversProtects(v: State, direction: Direction, id: string, size: real, ids: set<string>)
    requires Covers(v, direction, id, size) && id in ids
    ensures Protected(v, direction, ids)
  {
    if Exposure(v, direction) != 0.0 { assert ShieldedBy(v, direction, v.algos[id]); }
  }

  // ---------------------------------------------------------------- environment steps

  lemma {:induction false} LandKeepsContained(v: State, r: Request, executed: string, average: string, g: Guard)
    requires Contained(v, g) && r in v.inflight
    ensures var w := LandRequest(v.(inflight := v.inflight - {r}), r, executed, average);
      Contained(w, g) && Exposure(w, g.direction) <= Exposure(v, g.direction)
  {
    hide IsPlain, Value;
  }

  lemma {:induction false} FillKeepsContained(v: State, id: string, executed: string, average: string, g: Guard)
    requires Contained(v, g)
    ensures var w := FillOrder(v, id, executed, average);
      Contained(w, g) && Exposure(w, g.direction) <= Exposure(v, g.direction)
  {
    hide IsPlain, Value;
  }

  lemma {:induction false} FireKeepsContained(v: State, id: string, g: Guard)
    requires Contained(v, g)
    ensures Contained(Fire(v, id), g) && Exposure(Fire(v, id), g.direction) <= Exposure(v, g.direction)
  {
    hide IsPlain;
    if id in v.algos && IsPlain(v.algos[id].quantity) { assert Value(v.algos[id].quantity) >= 0.0; }
  }

  /** Whatever the environment does, the position is contained and does not grow. */
  lemma {:induction false} EnvKeepsContained(v: State, c: Choice, g: Guard)
    requires Contained(v, g)
    ensures Contained(Env(v, c), g) && Exposure(Env(v, c), g.direction) <= Exposure(v, g.direction)
  {
    hide IsPlain, Value, LandRequest, FillOrder, Fire;
    match c {
      case Land(r, executed, average) => if r in v.inflight { LandKeepsContained(v, r, executed, average, g); }
      case Drop(r) =>
      case Fill(id, executed, average) => FillKeepsContained(v, id, executed, average, g);
      case Trigger(id) => FireKeepsContained(v, id, g);
      case Nothing =>
    }
  }

  lemma {:induction false} LandKeepsOpened(v: State, r: Request, executed: string, average: string, o: Opening)
    requires Opened(v, o) && r in v.inflight
    ensures Opened(LandRequest(v.(inflight := v.inflight - {r}), r, executed, average), o)
  {
    hide IsPlain, Value;
    if r.PostOrder? && IsPlain(executed) { assert Value(executed) >= 0.0; }
  }

  lemma {:induction false} FillKeepsOpened(v: State, id: string, executed: string, average: string, o: Opening)
    requires Opened(v, o)
    ensures Opened(FillOrder(v, id, executed, average), o)
  {
    hide IsPlain, Value;
    if FillsFurther(v, id, executed, average) {
      assert (id == o.entryId && v.orders[id].side == EntrySide(o.direction)) || (v.orders[id].reduceOnly && id != o.entryId);
    }
  }

  lemma {:induction false} FireKeepsOpened(v: State, id: string, o: Opening)
    requires Opened(v, o)
    ensures Opened(Fire(v, id), o)
  {
    hide IsPlain;
    if id in v.algos && IsPlain(v.algos[id].quantity) { assert Value(v.algos[id].quantity) >= 0.0; }
  }

  lemma {:induction false} EnvKeepsOpened(v: State, c: Choice, o: Opening)
    requires Opened(v, o)
    ensures Opened(Env(v, c), o)
  {
    hide IsPlain, Value, LandRequest, FillOrder, Fire;
    match c {
      case Land(r, executed, average) => if r in v.inflight { LandKeepsOpened(v, r, executed, average, o); }
      case Drop(r) =>
      case Fill(id, executed, average) => FillKeepsOpened(v, id, executed, average, o);
      case Trigger(id) => FireKeepsOpened(v, id, o);
      case Nothing =>
    }
  }

  lemma {:induction false} LandKeepsBalanced(v: State, r: Request, executed: string, average: string, o: Opening)
    requires OrdersBalance(v, o) && r in v.inflight
    ensures OrdersBalance(LandRequest(v.(inflight := v.inflight - {r}), r, executed, average), o)
  {
    hide IsPlain, Value;
    LandKeepsOpened(v, r, executed, average, o);
  }

  lemma {:induction false} FillKeepsBalanced(v: State, id: string, executed: string, average: string, o: Opening)
    requires OrdersBalance(v, o)
    ensures OrdersBalance(FillOrder(v, id, executed, average), o)
  {
    hide IsPlain, Value;
    FillKeepsOpened(v, id, executed, average, o);
    if FillsFurther(v, id, executed, average) { assert OwnOrder(o, id, v.orders[id].side, v.orders[id].reduceOnly); }
  }

  /** Only a triggering algo order unbalances the two. */
  lemma {:induction false} EnvKeepsBalanced(v: State, c: Choice, o: Opening)
    requires OrdersBalance(v, o) && !c.Trigger?
    ensures OrdersBalance(Env(v, c), o)
  {
    hide IsPlain, Value, LandRequest, FillOrder, Opened;
    match c {
      case Land(r, executed, average) => if r in v.inflight { LandKeepsBalanced(v, r, executed, average, o); }
      case Drop(r) => EnvKeepsOpened(v, c, o);
      case Fill(id, executed, average) => FillKeepsBalanced(v, id, executed, average, o);
      case Nothing =>
    }
  }

  lemma {:induction false} LandKeepsWorking(v: State, r: Request, executed: string, average: string, direction: Direction, id: string, size: real)
    requires IsWorking(v, direction, id, size) && r != CancelAlgo(id)
    ensures IsWorking(LandRequest(v.(inflight := v.inflight - {r}), r, executed, average), direction, id, size)
  {
    hide IsPlain, Value, Fillable;
  }

  /** A covering stop either keeps working or closes the whole position as it fires. */
  lemma {:induction false} EnvKeepsCovers(v: State, c: Choice, g: Guard, id: string, size: real)
    requires Contained(v, g) && Covers(v, g.direction, id, size)
    ensures Covers(Env(v, c), g.direction, id, size)
  {
    hide IsPlain, Value, LandRequest;
    EnvKeepsContained(v, c, g);
    match c {
      case Land(r, executed, average) =>
        if r in v.inflight {
          LandKeepsInflight(v.(inflight := v.inflight - {r}), r, executed, average);
          if Exposure(v, g.direction) != 0.0 { LandKeepsWorking(v, r, executed, average, g.direction, id, size); }
        }
      case Drop(r) =>
      case Fill(order, executed, average) =>
      case Trigger(fired) =>
      case Nothing =>
    }
  }

  lemma {:induction false} LandKeepsInflight(v: State, r: Request, executed: string, average: string)
    ensures LandRequest(v, r, executed, average).inflight == v.inflight
  {
    hide IsPlain, Value;
  }

  // ---------------------------------------------------------------- facts that last

  /** What a client can know about the venue and rely on while it waits and sends. */
  datatype Fact =
    | IsContained(guard: Guard)
    | IsCovered(guard: Guard, stopId: string, size: real)
    | IsOpened(opening: Opening)
    | IsBalanced(opening: Opening)
    | NotCancelling(id: string)
    | HasExecuted(id: string, symbol: string, side: string, reduceOnly: bool, atLeast: real)
    | HasFilled(id: string, symbol: string, side: string, reduceOnly: bool, executed: real, full: bool)
    | HasActive(id: string, symbol: string, side: string, orderType: AlgoType, quantity: real, trigger: real)
    | HasCanceled(id: string)
    | IsFlat(guard: Guard)
    | AsRequested(id: string, requested: string)
    | NotSent(id: string)
    | NotPlaced(id: string)

  ghost predicate Holds(v: State, f: Fact) {
    match f
    case IsContained(g) => Contained(v, g)
    case IsCovered(g, id, size) => Contained(v, g) && Covers(v, g.direction, id, size)
    case IsOpened(o) => Opened(v, o)
    case IsBalanced(o) => OrdersBalance(v, o)
    case NotCancelling(id) => CancelAlgo(id) !in v.inflight
    case HasExecuted(id, symbol, side, reduceOnly, atLeast) => ExecutedOrder(v, id, symbol, side, reduceOnly, atLeast)
    case HasFilled(id, symbol, side, reduceOnly, executed, full) => FilledOrder(v, id, symbol, side, reduceOnly, executed, full)
    case HasActive(id, symbol, side, t, quantity, trigger) => CancelAlgo(id) !in v.inflight && ActiveAlgo(v, id, symbol, side, t, quantity, trigger)
    case HasCanceled(id) => CanceledAlgo(v, id)
    case IsFlat(g) => Contained(v, g) && Exposure(v, g.direction) == 0.0
    case AsRequested(id, quantity) =>
      (id in v.orders ==> v.orders[id].requested == quantity) && forall r :: r in v.inflight && r.PostOrder? && r.orderId == id ==> r.quantity == quantity
    case NotSent(id) => id !in v.orders && forall r :: r in v.inflight && r.PostOrder? ==> r.orderId != id
    case NotPlaced(id) => id !in v.algos && forall r :: r in v.inflight && r.PostAlgo? ==> r.algoId != id
  }

  ghost predicate FilledOrder(v: State, id: string, symbol: string, side: string, reduceOnly: bool, executed: real, full: bool) {
    && id in v.orders
    && var o := v.orders[id];
    && o.symbol == symbol && o.side == side && o.reduceOnly == reduceOnly && IsFull(o) == full
    && IsPositiveText(o.executed) && IsPositiveText(o.averagePrice) && Value(o.executed) == executed
  }

  /** At least that much of the order is executed. */
  ghost predicate ExecutedOrder(v: State, id: string, symbol: string, side: string, reduceOnly: bool, atLeast: real) {
    && id in v.orders
    && var o := v.orders[id];
    && o.symbol == symbol && o.side == side && o.reduceOnly == reduceOnly
    && IsPositiveText(o.executed) && IsPositiveText(o.averagePrice) && Value(o.executed) >= atLeast
  }

  ghost predicate ActiveAlgo(v: State, id: string, symbol: string, side: string, t: AlgoType, quantity: real, trigger: real) {
    && id in v.algos
    && var a := v.algos[id];
    && a.status.Working? && a.symbol == symbol && a.side == side && a.orderType == t
    && IsPlain(a.quantity) && Value(a.quantity) == quantity && IsPlain(a.triggerPrice) && Value(a.triggerPrice) == trigger
  }

  ghost predicate CanceledAlgo(v: State, id: string) { id in v.algos && v.algos[id].status.WasCanceled? }

  /** Only a triggering market can end an algo order that nobody cancels, or move a position that only two
      orders move; and only a later fill can add to a partial one. */
  predicate Lasting(mood: Mood, f: Fact) {
    (f.HasActive? || f.IsBalanced? ==> !mood.Wild?) && (f.HasFilled? && !f.full ==> !FillsLater(mood))
  }

  /** Requests that would break a fact. */
  predicate Spares(r: Request, f: Fact) {
    match f
    case IsContained(_) => r.PostOrder? ==> r.reduceOnly
    case IsFlat(_) => r.PostOrder? ==> r.reduceOnly
    case IsCovered(_, id, _) => (r.PostOrder? ==> r.reduceOnly) && r != CancelAlgo(id)
    case IsOpened(o) =>
      r.PostOrder? ==> (r.orderId == o.entryId && r.side == EntrySide(o.direction)) || (r.reduceOnly && r.orderId != o.entryId)
    case IsBalanced(o) => r.PostOrder? ==> OwnOrder(o, r.orderId, r.side, r.reduceOnly)
    case NotCancelling(id) => r != CancelAlgo(id)
    case HasExecuted(_, _, _, _, _) => true
    case HasFilled(_, _, _, _, _, _) => true
    case HasActive(id, _, _, _, _, _) => r != CancelAlgo(id)
    case HasCanceled(_) => true
    case AsRequested(id, quantity) => r.PostOrder? && r.orderId == id ==> r.quantity == quantity
    case NotSent(id) => r.PostOrder? ==> r.orderId != id
    case NotPlaced(id) => r.PostAlgo? ==> r.algoId != id
  }

  /** A fact that is not about the position. */
  predicate IsPlainFact(f: Fact) { !f.IsContained? && !f.IsCovered? && !f.IsOpened? && !f.IsBalanced? && !f.IsFlat? }

  lemma {:induction false} LandKeepsFact(v: State, r: Request, executed: string, average: string, f: Fact)
    requires Holds(v, f) && r in v.inflight && IsPlainFact(f)
    ensures Holds(LandRequest(v.(inflight := v.inflight - {r}), r, executed, average), f)
  {
    hide IsPlain, Value;
  }

  lemma {:induction false} FillKeepsFact(v: State, id: string, executed: string, average: string, f: Fact)
    requires Holds(v, f) && IsPlainFact(f) && (f.HasFilled? ==> f.full)
    ensures Holds(FillOrder(v, id, executed, average), f)
  {
    hide IsPlain, Value;
  }

  lemma {:induction false} FireKeepsFact(v: State, id: string, f: Fact)
    requires Holds(v, f) && IsPlainFact(f) && !f.HasActive?
    ensures Holds(Fire(v, id), f)
  {
    hide IsPlain, Value;
  }

  lemma {:induction false} DropKeepsFact(v: State, r: Request, f: Fact)
    requires Holds(v, f) && IsPlainFact(f)
    ensures Holds(Env(v, Drop(r)), f)
  {
    hide IsPlain, Value;
  }

  lemma {:induction false} EnvKeepsPlainFact(mood: Mood, v: State, c: Choice, f: Fact)
    requires Holds(v, f) && IsPlainFact(f) && Allowed(mood, c) && Lasting(mood, f)
    ensures Holds(Env(v, c), f)
  {
    hide Holds, LandRequest, FillOrder, Fire;
    match c {
      case Land(r, executed, average) => if r in v.inflight { LandKeepsFact(v, r, executed, average, f); }
      case Drop(r) => DropKeepsFact(v, r, f);
      case Fill(id, executed, average) => FillKeepsFact(v, id, executed, average, f);
      case Trigger(id) => FireKeepsFact(v, id, f);
      case Nothing =>
    }
  }

  lemma {:induction false} ContainedIsNonnegative(v: State, g: Guard)
    requires Contained(v, g)
    ensures Exposure(v, g.direction) >= 0.0
  {}

  lemma {:induction false} EnvKeepsFact(mood: Mood, v: State, c: Choice, f: Fact)
    requires Holds(v, f) && Allowed(mood, c) && Lasting(mood, f)
    ensures Holds(Env(v, c), f)
  {
    hide Env, Contained, Covers, Opened, OrdersBalance;
    match f {
      case IsContained(g) => EnvKeepsContained(v, c, g);
      case IsCovered(g, id, size) => EnvKeepsContained(v, c, g); EnvKeepsCovers(v, c, g, id, size);
      case IsOpened(o) => EnvKeepsOpened(v, c, o);
      case IsBalanced(o) => EnvKeepsBalanced(v, c, o);
      case IsFlat(g) => EnvKeepsContained(v, c, g); ContainedIsNonnegative(Env(v, c), g);
      case _ => EnvKeepsPlainFact(mood, v, c, f);
    }
  }

  lemma {:induction false} SendKeepsFact(v: State, r: Request, f: Fact)
    requires Holds(v, f) && Spares(r, f)
    ensures Holds(Send(v, r), f)
  {
    hide IsPlain, Value;
  }

  lemma {:induction false} PathKeepsFact(mood: Mood, h: seq<State>, from: nat, f: Fact, k: nat)
    requires from <= k < |h| && EnvPath(mood, h, from) && Lasting(mood, f) && Holds(h[from], f)
    ensures Holds(h[k], f)
    decreases k
  {
    hide Holds, Lasting, Allowed, Env;
    if k > from {
      PathKeepsFact(mood, h, from, f, k - 1);
      assert EnvStep(mood, h[k - 1], h[k - 1 + 1]);
      var c :| Allowed(mood, c) && h[k] == Env(h[k - 1], c);
      EnvKeepsFact(mood, h[k - 1], c, f);
    }
  }

  ghost predicate AllHold(v: State, facts: set<Fact>) { forall f :: f in facts ==> Holds(v, f) }

  /** What is known stays known, in every state passed through, while the client only waits. */
  lemma {:induction false} QuietKeeps(mood: Mood, past: seq<State>, h: seq<State>, facts: set<Fact>)
    requires Quiet(mood, past, h) && AllHold(past[|past| - 1], facts) && forall f :: f in facts ==> Lasting(mood, f)
    ensures forall k :: |past| - 1 <= k < |h| ==> AllHold(h[k], facts)
  {
    hide Holds, Lasting, EnvPath;
    forall k, f | |past| - 1 <= k < |h| && f in facts
      ensures Holds(h[k], f)
    {
      PathKeepsFact(mood, h, |past| - 1, f, k);
    }
  }

  /** And while it sends a request that spares it. */
  lemma {:induction false} SentKeeps(mood: Mood, past: seq<State>, h: seq<State>, r: Request, rejected: bool, facts: set<Fact>)
    requires Sent(mood, past, h, r, rejected) && AllHold(past[|past| - 1], facts)
    requires forall f :: f in facts ==> Lasting(mood, f) && Spares(r, f)
    ensures forall k :: |past| - 1 <= k < |h| ==> AllHold(h[k], facts)
  {
    hide Holds, Lasting, Spares, EnvPath, Send;
    if rejected {
      QuietKeeps(mood, past, h, facts);
    } else {
      var n := |past|;
      forall f | f in facts
        ensures Holds(h[n], f)
      {
        SendKeepsFact(past[n - 1], r, f);
      }
      forall k, f | n <= k < |h| && f in facts
        ensures Holds(h[k], f)
      {
        PathKeepsFact(mood, h, n, f, k);
      }
    }
  }

  // ---------------------------------------------------------------- histories under guard

  /** One of these facts holds. */
  ghost predicate Secure(v: State, guard: set<Fact>) { exists f :: f in guard && Holds(v, f) }

  /** In every state since `from`, each guard is secure; and all the facts hold now. */
  ghost predicate Known(mood: Mood, h: seq<State>, from: nat, facts: set<Fact>, guards: set<set<Fact>>) {
    && from < |h|
    && AllHold(h[|h| - 1], facts)
    && (forall f :: f in facts ==> Lasting(mood, f))
    && (forall g :: g in guards ==> Relied(facts, g))
    && forall g, k :: g in guards && from <= k < |h| ==> Secure(h[k], g)
  }

  ghost predicate Relied(facts: set<Fact>, guard: set<Fact>) { exists f :: f in facts && f in guard }

  lemma {:induction false} StillSecure(v: State, facts: set<Fact>, guard: set<Fact>)
    requires AllHold(v, facts) && Relied(facts, guard)
    ensures Secure(v, guard)
  {
    hide Holds;
  }

  lemma {:induction false} StaysKnown(mood: Mood, past: seq<State>, h: seq<State>, from: nat, facts: set<Fact>, guards: set<set<Fact>>)
    requires Known(mood, past, from, facts, guards) && past <= h
    requires forall k :: |past| - 1 <= k < |h| ==> AllHold(h[k], facts)
    ensures Known(mood, h, from, facts, guards)
  {
    hide Holds, AllHold, Lasting, Secure, Relied;
    forall g, k | g in guards && from <= k < |h|
      ensures Secure(h[k], g)
    {
      if k < |past| { assert h[k] == past[k]; } else { StillSecure(h[k], facts, g); }
    }
  }

  lemma {:induction false} Waited(mood: Mood, past: seq<State>, h: seq<State>, from: nat, facts: set<Fact>, guards: set<set<Fact>>)
    requires Known(mood, past, from, facts, guards) && Quiet(mood, past, h)
    ensures Known(mood, h, from, facts, guards) && past <= h
  {
    hide Holds, AllHold, Lasting, Secure, Relied, EnvPath;
    QuietKeeps(mood, past, h, facts);
    StaysKnown(mood, past, h, from, facts, guards);
  }

  ghost predicate AllSpared(r: Request, facts: set<Fact>) { forall f :: f in facts ==> Spares(r, f) }

  lemma {:induction false} Requested(mood: Mood, past: seq<State>, h: seq<State>, r: Request, rejected: bool, from: nat, facts: set<Fact>, guards: set<set<Fact>>)
    requires Known(mood, past, from, facts, guards) && Sent(mood, past, h, r, rejected) && AllSpared(r, facts)
    ensures Known(mood, h, from, facts, guards) && past <= h
  {
    hide Holds, AllHold, Lasting, Secure, Relied, EnvPath, Spares;
    SentKeeps(mood, past, h, r, rejected, facts);
    StaysKnown(mood, past, h, from, facts, guards);
  }

  lemma {:induction false} MaybeRequested(mood: Mood, past: seq<State>, h: seq<State>, r: Request, from: nat, facts: set<Fact>, guards: set<set<Fact>>)
    requires Known(mood, past, from, facts, guards) && SentEither(mood, past, h, r) && AllSpared(r, facts)
    ensures Known(mood, h, from, facts, guards) && past <= h
  {
    hide Known, Sent, AllSpared;
    if Sent(mood, past, h, r, true) {
      Requested(mood, past, h, r, true, from, facts, guards);
    } else {
      Requested(mood, past, h, r, false, from, facts, guards);
    }
  }

  lemma {:induction false} Learned(mood: Mood, h: seq<State>, from: nat, facts: set<Fact>, guards: set<set<Fact>>, f: Fact)
    requires Known(mood, h, from, facts, guards) && Holds(h[|h| - 1], f) && Lasting(mood, f)
    ensures Known(mood, h, from, facts + {f}, guards)
  {
    hide Holds, Lasting, Secure;
  }

  lemma {:induction false} LearnedCancel(mood: Mood, h: seq<State>, from: nat, facts: set<Fact>, guards: set<set<Fact>>, id: string)
    requires Known(mood, h, from, facts, guards) && CanceledAlgo(h[|h| - 1], id)
    ensures Known(mood, h, from, facts + {HasCanceled(id)}, guards)
  {
    hide Known;
    Learned(mood, h, from, facts, guards, HasCanceled(id));
  }

  /** A fact that no guard needs any more may be dropped. */
  lemma {:induction false} Dropped(mood: Mood, h: seq<State>, from: nat, facts: set<Fact>, guards: set<set<Fact>>, fewer: set<Fact>)
    requires Known(mood, h, from, facts, guards) && fewer <= facts && forall g :: g in guards ==> Relied(fewer, g)
    ensures Known(mood, h, from, fewer, guards)
  {
    hide Holds, Lasting, Secure, Relied;
  }

  // ---------------------------------------------------------------- proofs read off truthful answers

  /** A proof taken from a truthful answer is a fact. */
  lemma {:induction false} TruthfulFill(v: State, payload: OrderPayload, symbol: string, side: string, id: string, reduceOnly: bool, expected: Option<string>)
    requires OrderTruthful(v, payload)
    requires ProveOrdinaryFill(payload, symbol, side, id, reduceOnly, expected).Some?
    ensures var e := ProveOrdinaryFill(payload, symbol, side, id, reduceOnly, expected).value;
      && IsPlain(e.executedQuantity)
      && Holds(v, HasFilled(id, symbol, side, reduceOnly, Value(e.executedQuantity), e.status == "FILLED"))
      && (expected.Some? && IsPlain(expected.value) ==> Value(e.executedQuantity) == Value(expected.value))
  {
    hide IsPlain, Value, CanonicalDecimal;
    CanonicalPositiveIff(payload.executedQuantity);
    CanonicalPositiveIff(payload.averagePrice);
    if expected.Some? && IsPlain(expected.value) { DecimalEqualsDecides(CanonicalPositive(payload.executedQuantity).value, expected.value); }
  }

  /** And an answering venue proves every such fact again. */
  lemma {:induction false} AnsweredFill(v: State, id: string, symbol: string, side: string, reduceOnly: bool, executed: real, full: bool, expected: Option<string>)
    requires Holds(v, HasFilled(id, symbol, side, reduceOnly, executed, full))
    requires expected.Some? ==> IsPlain(expected.value) && Value(expected.value) == executed
    ensures var lookup := OrderAnswer(v, id); var e := ProveOrdinaryFill(lookup.payload, symbol, side, id, reduceOnly, expected);
      && lookup.disposition.Found? && e.Some?
      && (e.value.status == "FILLED" <==> full)
      && IsPlain(e.value.executedQuantity) && Value(e.value.executedQuantity) == executed
  {
    hide IsPlain, Value, CanonicalDecimal;
    var o := v.orders[id];
    CanonicalPositiveIff(o.executed);
    CanonicalPositiveIff(o.averagePrice);
    if expected.Some? { DecimalEqualsDecides(CanonicalPositive(o.executed).value, expected.value); }
  }

  lemma {:induction false} TruthfulAlgo(v: State, payload: AlgoPayload, symbol: string, side: string, t: AlgoType, id: string, quantity: string, trigger: string)
    requires AlgoTruthful(v, payload) && IsPlain(quantity) && IsPlain(trigger)
    requires ProveAlgoOrder(payload, symbol, side, t, id, quantity, trigger).Some?
    ensures ActiveAlgo(v, id, symbol, side, t, Value(quantity), Value(trigger))
  {
    hide IsPlain, Value, CanonicalDecimal;
    DecimalEqualsDecides(payload.quantity, quantity);
    DecimalEqualsDecides(payload.triggerPrice, trigger);
  }

  lemma {:induction false} AnsweredAlgo(v: State, symbol: string, side: string, t: AlgoType, id: string, quantity: string, trigger: string)
    requires IsPlain(quantity) && IsPlain(trigger) && ActiveAlgo(v, id, symbol, side, t, Value(quantity), Value(trigger))
    ensures var lookup := AlgoAnswer(v, id);
      lookup.disposition.Found? && ProveAlgoOrder(lookup.payload, symbol, side, t, id, quantity, trigger).Some?
  {
    hide IsPlain, Value, CanonicalDecimal;
    DecimalEqualsDecides(v.algos[id].quantity, quantity);
    DecimalEqualsDecides(v.algos[id].triggerPrice, trigger);
  }

  /** A proven replacement stop of what is left takes over from the current one. */
  lemma {:induction false} StopTakesOver(v: State, g: Guard, symbol: string, id: string, size: real, trigger: real)
    requires Contained(v, g) && CancelAlgo(id) !in v.inflight && ActiveAlgo(v, id, symbol, ExitSide(g.direction), StopMarket, size, trigger)
    requires size == g.quantity || FilledOrder(v, g.reduceId, symbol, ExitSide(g.direction), true, g.quantity - size, true)
    ensures Holds(v, IsCovered(g, id, size))
  {}

  /** After a fill of the whole quantity nothing is left. */
  lemma {:induction false} FullFillIsFlat(v: State, g: Guard, symbol: string)
    requires Contained(v, g) && FilledOrder(v, g.reduceId, symbol, ExitSide(g.direction), true, g.quantity, true)
    ensures Holds(v, IsFlat(g))
  {}

  /** A full entry is an owned position of what it executed; nothing of it is left to fill. */
  lemma {:induction false} OpenedIsContained(v: State, o: Opening, symbol: string, side: string, executed: real)
    requires Opened(v, o) && FilledOrder(v, o.entryId, symbol, side, false, executed, true)
    ensures Contained(v, Guard(o.direction, executed, o.closeId))
  {
    hide IsPlain, Value, IsPositiveText;
    assert IsPlain(v.orders[o.entryId].executed) by { PositiveIsPlain(v.orders[o.entryId].executed); }
  }

  lemma {:induction false} PositiveIsPlain(s: string)
    ensures IsPositiveText(s) ==> IsPlain(s)
  {}

  /** A flatten that executed as much as the entry did leaves nothing. */
  lemma {:induction false} FlattenIsFlat(v: State, o: Opening)
    requires Opened(v, o) && FilledAmount(v, o.closeId) == FilledAmount(v, o.entryId)
    ensures Exposure(v, o.direction) == 0.0
  {}

  // ---------------------------------------------------------------- on a prompt venue

  /** A landed algo order with a new identity is working, exactly as asked. */
  lemma {:induction false} PlacedIsActive(v: State, r: Request)
    requires r.PostAlgo? && r.algoId !in v.algos && IsPlain(r.quantity) && IsPlain(r.triggerPrice)
    ensures ActiveAlgo(Landed(v, r), r.algoId, r.symbol, r.side, r.orderType, Amount(r.quantity), Amount(r.triggerPrice))
  {
    hide IsPlain, Value;
  }

  /** A landed order the venue may fill is filled in full. */
  lemma {:induction false} SentIsFilled(v: State, r: Request)
    requires r.PostOrder? && Fillable(v, r, r.quantity, "1")
    ensures FilledOrder(Landed(v, r), r.orderId, r.symbol, r.side, r.reduceOnly, Amount(r.quantity), true)
  {
    hide IsPlain, Value, Moved;
  }

  /** A landed cancel of a working order cancels it. */
  lemma {:induction false} CancelledIsGone(v: State, id: string)
    requires id in v.algos && v.algos[id].status.Working?
    ensures CanceledAlgo(Landed(v, CancelAlgo(id)), id)
  {}

  /** Nothing else touches an algo order. */
  lemma {:induction false} LandingSpares(v: State, r: Request, id: string)
    requires (r.PostAlgo? || r.CancelAlgo?) ==> r.algoId != id
    ensures id in Landed(v, r).algos <==> id in v.algos
    ensures id in v.algos ==> Landed(v, r).algos[id] == v.algos[id]
  {
    hide IsPlain, Value, Fillable, Moved;
  }
}
