/** The queries and cancels both coordinators are built from, and what their results are worth. */
module Lookups {
  import opened Wrappers
  import opened DecimalText
  import opened MutationContract
  import opened Evidence
  import opened Venue
  import opened ProtectionGuard

  // ---------------------------------------------------------------- what was asked and not answered

  /** The fill that is looked for; a full one is wanted for reductions and closes of an owned position. */
  datatype FillKey = FillKey(id: string, symbol: string, side: string, reduceOnly: bool, expected: Option<string>, full: bool)

  datatype AlgoKey = AlgoKey(id: string, symbol: string, side: string, orderType: AlgoType, quantity: string, trigger: string)

  function FillProof(payload: OrderPayload, k: FillKey): Option<OrdinaryEvidence> {
    var e := ProveOrdinaryFill(payload, k.symbol, k.side, k.id, k.reduceOnly, k.expected);
    if e.Some? && k.full && e.value.status != "FILLED" then None else e
  }

  function FillFound(lookup: OrderLookup, k: FillKey): Option<OrdinaryEvidence> {
    if lookup.disposition.Found? then FillProof(lookup.payload, k) else None
  }

  function AlgoFound(lookup: AlgoLookup, k: AlgoKey): Option<AlgoEvidence> {
    if lookup.disposition.Found? then ProveAlgoOrder(lookup.payload, k.symbol, k.side, k.orderType, k.id, k.quantity, k.trigger) else None
  }

  /** The order was looked up after so many requests, and this is what the answer proved. */
  ghost predicate AskedFill(answers: seq<Answer>, since: nat, after: nat, k: FillKey, e: Option<OrdinaryEvidence>) {
    exists i :: since <= i < |answers| && answers[i].OrderAnswered? && answers[i].id == k.id && answers[i].after == after && e == FillFound(answers[i].order, k)
  }

  ghost predicate AskedAlgo(answers: seq<Answer>, since: nat, after: nat, k: AlgoKey, e: Option<AlgoEvidence>) {
    exists i :: since <= i < |answers| && answers[i].AlgoAnswered? && answers[i].id == k.id && answers[i].after == after && e == AlgoFound(answers[i].algo, k)
  }

  /** The placement's own reply proved it, or did not and the order was looked up next. */
  ghost predicate ResolvedFill(answers: seq<Answer>, since: nat, after: nat, k: FillKey, e: Option<OrdinaryEvidence>) {
    exists i :: since <= i < |answers| && PlacementAt(answers, i, after, k) && e == ResolutionAt(answers, i, after, k)
  }

  predicate PlacementAt(answers: seq<Answer>, i: nat, after: nat, k: FillKey) {
    i < |answers| && answers[i].PlacementAnswered? && answers[i].id == k.id && answers[i].after == after
    && (FillProof(answers[i].reply.payload, k).None? ==> LookupAt(answers, i + 1, after, k))
  }

  predicate LookupAt(answers: seq<Answer>, i: nat, after: nat, k: FillKey) {
    i < |answers| && answers[i].OrderAnswered? && answers[i].id == k.id && answers[i].after == after
  }

  function ResolutionAt(answers: seq<Answer>, i: nat, after: nat, k: FillKey): Option<OrdinaryEvidence>
    requires PlacementAt(answers, i, after, k)
  {
    var direct := FillProof(answers[i].reply.payload, k);
    if direct.Some? then direct else FillFound(answers[i + 1].order, k)
  }

  /** The order was inspected, and this is what the answer says of it. */
  ghost predicate Inspected(answers: seq<Answer>, since: nat, after: nat, id: string, c: Cleanup) {
    exists i :: since <= i < |answers| && answers[i].AlgoAnswered? && answers[i].id == id && answers[i].after == after && c == InspectCleanup(answers[i].algo, id)
  }

  /** A cancel was sent; its reply proved it, or did not and the order was inspected next. */
  ghost predicate CancelledAs(answers: seq<Answer>, since: nat, after: nat, id: string, c: Cleanup) {
    exists i :: since <= i < |answers| && CancelAt(answers, i, after, id) && c == CleanupAt(answers, i, after, id)
  }

  predicate CancelAt(answers: seq<Answer>, i: nat, after: nat, id: string) {
    i < |answers| && answers[i].CancelAnswered? && answers[i].id == id && answers[i].after == after
    && (!ProvesCancellation(answers[i].cancellation, id) ==>
          i + 1 < |answers| && answers[i + 1].AlgoAnswered? && answers[i + 1].id == id && answers[i + 1].after == after)
  }

  function CleanupAt(answers: seq<Answer>, i: nat, after: nat, id: string): Cleanup
    requires CancelAt(answers, i, after, id)
  {
    if ProvesCancellation(answers[i].cancellation, id) then Cleanup(id, Canceled)
    else
      var inspected := InspectCleanup(answers[i + 1].algo, id);
      if inspected.disposition.Absent? then Cleanup(id, CleanupPending) else inspected
  }

  /** Later answers do not change what was asked. */
  lemma {:induction false} AskedLasts(answers: seq<Answer>, more: seq<Answer>, since: nat, from: nat, after: nat)
    requires answers <= more && since <= from
    ensures forall k, e :: AskedFill(answers, from, after, k, e) ==> AskedFill(more, since, after, k, e)
    ensures forall k, e :: AskedAlgo(answers, from, after, k, e) ==> AskedAlgo(more, since, after, k, e)
    ensures forall k, e :: ResolvedFill(answers, from, after, k, e) ==> ResolvedFill(more, since, after, k, e)
    ensures forall id, c :: Inspected(answers, from, after, id, c) ==> Inspected(more, since, after, id, c)
    ensures forall id, c :: CancelledAs(answers, from, after, id, c) ==> CancelledAs(more, since, after, id, c)
  {
    hide FillFound, FillProof, AlgoFound, InspectCleanup, ProvesCancellation;
    forall k, e | AskedFill(answers, from, after, k, e)
      ensures AskedFill(more, since, after, k, e)
    {
      var i :| from <= i < |answers| && answers[i].OrderAnswered? && answers[i].id == k.id && answers[i].after == after && e == FillFound(answers[i].order, k);
      assert more[i] == answers[i];
    }
    forall k, e | AskedAlgo(answers, from, after, k, e)
      ensures AskedAlgo(more, since, after, k, e)
    {
      var i :| from <= i < |answers| && answers[i].AlgoAnswered? && answers[i].id == k.id && answers[i].after == after && e == AlgoFound(answers[i].algo, k);
      assert more[i] == answers[i];
    }
    forall k, e | ResolvedFill(answers, from, after, k, e)
      ensures ResolvedFill(more, since, after, k, e)
    {
      var i :| from <= i < |answers| && PlacementAt(answers, i, after, k) && e == ResolutionAt(answers, i, after, k);
      assert more[i] == answers[i] && (i + 1 < |answers| ==> more[i + 1] == answers[i + 1]);
      assert PlacementAt(more, i, after, k);
    }
    forall id, c | Inspected(answers, from, after, id, c)
      ensures Inspected(more, since, after, id, c)
    {
      var i :| from <= i < |answers| && answers[i].AlgoAnswered? && answers[i].id == id && answers[i].after == after && c == InspectCleanup(answers[i].algo, id);
      assert more[i] == answers[i];
    }
    forall id, c | CancelledAs(answers, from, after, id, c)
      ensures CancelledAs(more, since, after, id, c)
    {
      var i :| from <= i < |answers| && CancelAt(answers, i, after, id) && c == CleanupAt(answers, i, after, id);
      assert more[i] == answers[i] && (i + 1 < |answers| ==> more[i + 1] == answers[i + 1]);
      assert CancelAt(more, i, after, id);
    }
  }

  // ---------------------------------------------------------------- one request and what it went by

  /** Two times of asking are one. */
  lemma {:induction false} AskedTogether(past: seq<Answer>, mid: seq<Answer>, now: seq<Answer>, after: nat)
    requires past <= mid <= now
    ensures forall k, e :: AskedFill(mid, |past|, after, k, e) || AskedFill(now, |mid|, after, k, e) ==> AskedFill(now, |past|, after, k, e)
    ensures forall k, e :: AskedAlgo(mid, |past|, after, k, e) || AskedAlgo(now, |mid|, after, k, e) ==> AskedAlgo(now, |past|, after, k, e)
    ensures forall id, c :: Inspected(mid, |past|, after, id, c) || Inspected(now, |mid|, after, id, c) ==> Inspected(now, |past|, after, id, c)
  {
    hide AskedFill, AskedAlgo, ResolvedFill, Inspected, CancelledAs;
    AskedLasts(mid, now, |past|, |past|, after);
    AskedLasts(now, now, |past|, |mid|, after);
  }

  /** Request `m` was this order; nothing is known of it if it was refused, otherwise what its reply or the lookup
      that followed proved. */
  ghost predicate FillTrace(t: Trail, m: nat, order: Request, k: FillKey, refused: bool, e: Option<OrdinaryEvidence>) {
    && m < |t.requests| && t.requests[m] == Submission(order, refused)
    && (if refused then e.None? else ResolvedFill(t.answers, t.since, m + 1, k, e))
  }

  ghost predicate AlgoTrace(t: Trail, m: nat, order: Request, k: AlgoKey, refused: bool, e: Option<AlgoEvidence>) {
    && m < |t.requests| && t.requests[m] == Submission(order, refused)
    && (if refused then e.None? else AskedAlgo(t.answers, t.since, m + 1, k, e))
  }

  lemma {:induction false} FillTraceIs(t: Trail, m: nat, order: Request, k: FillKey, refused: bool, e: Option<OrdinaryEvidence>)
    requires FillTrace(t, m, order, k, refused, e)
    ensures m < |t.requests| && t.requests[m] == Submission(order, refused)
  {}

  lemma {:induction false} AlgoTraceIs(t: Trail, m: nat, order: Request, k: AlgoKey, refused: bool, e: Option<AlgoEvidence>)
    requires AlgoTrace(t, m, order, k, refused, e)
    ensures m < |t.requests| && t.requests[m] == Submission(order, refused)
  {}

  /** The same traces, counted from an earlier answer. */
  function Since(t: Trail, since: nat): Trail { t.(since := since) }

  lemma {:induction false} TraceLasts(t: Trail, u: Trail, m: nat)
    requires t.requests <= u.requests && t.answers <= u.answers && u.since <= t.since
    ensures forall order, k, refused, e :: FillTrace(t, m, order, k, refused, e) ==> FillTrace(u, m, order, k, refused, e)
    ensures forall order, k, refused, e :: AlgoTrace(t, m, order, k, refused, e) ==> AlgoTrace(u, m, order, k, refused, e)
  {
    hide AskedAlgo, ResolvedFill, AskedFill, Inspected, CancelledAs;
    AskedLasts(t.answers, u.answers, u.since, t.since, m + 1);
  }

  // ---------------------------------------------------------------- the queries and cancels

  /** `lookupProtection`, `lookupOwnedProtection` and the entry path's algo lookups. */
  method LookupAlgo(client: Client, symbol: string, side: string, t: AlgoType, id: string, quantity: string, trigger: string) returns (e: Option<AlgoEvidence>)
    requires client.Valid() && IsPlain(quantity) && IsPlain(trigger)
    modifies client
    ensures client.Valid() && Quiet(client.mood, old(client.history), client.history)
    ensures client.prompt ==> client.venue == old(client.venue)
    ensures e.Some? ==> AlgoProofMatches(e, symbol, side, t, id, quantity, trigger)
    ensures client.truthful && e.Some? ==> ActiveAlgo(client.venue, id, symbol, side, t, Amount(quantity), Amount(trigger))
    ensures client.answering && ActiveAlgo(client.venue, id, symbol, side, t, Amount(quantity), Amount(trigger)) ==> e.Some?
    ensures client.requests == old(client.requests) && old(client.answers) <= client.answers
    ensures AskedAlgo(client.answers, |old(client.answers)|, |client.requests|, AlgoKey(id, symbol, side, t, quantity, trigger), e)
  {
    hide ActiveAlgo, AlgoProofMatches, ProveAlgoOrder, Quiet, AlgoTruthful, IsPlain, Value;
    var lookup := client.QueryAlgo(id);
    assert client.answers[|old(client.answers)|] == AlgoAnswered(id, lookup, |client.requests|);
    e := if lookup.disposition.Found? then ProveAlgoOrder(lookup.payload, symbol, side, t, id, quantity, trigger) else None;
    if e.Some? {
      ProvenAlgoMatches(lookup.payload, symbol, side, t, id, quantity, trigger);
      if client.truthful { TruthfulAlgo(client.venue, lookup.payload, symbol, side, t, id, quantity, trigger); }
    }
    if client.answering && ActiveAlgo(client.venue, id, symbol, side, t, Amount(quantity), Amount(trigger)) {
      AnsweredAlgo(client.venue, symbol, side, t, id, quantity, trigger);
    }
  }

  /** Evidence as `proveOrdinaryFill` returns it. */
  predicate IsFillOf(e: OrdinaryEvidence, symbol: string, side: string, id: string, reduceOnly: bool) {
    && e.clientOrderId == id && e.symbol == symbol && e.side == side && e.reduceOnly == reduceOnly
    && (e.status == "FILLED" || e.status == "PARTIALLY_FILLED") && IsCanonicalPositive(e.executedQuantity)
  }

  lemma {:induction false} ProducedFill(payload: OrderPayload, symbol: string, side: string, id: string, reduceOnly: bool, expected: Option<string>)
    requires ProveOrdinaryFill(payload, symbol, side, id, reduceOnly, expected).Some?
    ensures var e := ProveOrdinaryFill(payload, symbol, side, id, reduceOnly, expected).value;
      && IsFillOf(e, symbol, side, id, reduceOnly) && IsPlain(e.executedQuantity)
      && (expected.Some? ==> DecimalEquals(e.executedQuantity, expected.value))
  {
    hide CanonicalPositive, DecimalEquals, IsPlain;
    PositiveIsFixed(payload.executedQuantity);
    CanonicalPositiveIff(payload.executedQuantity);
    CanonicalPositiveIff(CanonicalPositive(payload.executedQuantity).value);
  }

  /** `lookupOrdinaryFill`: any fill counts, partial ones too, unless an executed quantity is expected. */
  method LookupOrdinaryFill(client: Client, symbol: string, side: string, id: string, reduceOnly: bool, expected: Option<string>)
    returns (e: Option<OrdinaryEvidence>)
    requires client.Valid()
    modifies client
    ensures client.Valid() && Quiet(client.mood, old(client.history), client.history)
    ensures client.prompt ==> client.venue == old(client.venue)
    ensures e.Some? ==> IsFillOf(e.value, symbol, side, id, reduceOnly) && IsPlain(e.value.executedQuantity)
    ensures e.Some? && expected.Some? ==> DecimalEquals(e.value.executedQuantity, expected.value)
    ensures client.truthful && e.Some? ==>
      FilledOrder(client.venue, id, symbol, side, reduceOnly, Amount(e.value.executedQuantity), e.value.status == "FILLED")
    ensures client.answering ==> e == ProveOrdinaryFill(OrderAnswer(client.venue, id).payload, symbol, side, id, reduceOnly, expected)
    ensures client.requests == old(client.requests) && old(client.answers) < client.answers
    ensures var a := client.answers[|old(client.answers)|]; a.OrderAnswered? && a.id == id && a.after == |client.requests|
    ensures e == FillFound(client.answers[|old(client.answers)|].order, FillKey(id, symbol, side, reduceOnly, expected, false))
    ensures AskedFill(client.answers, |old(client.answers)|, |client.requests|, FillKey(id, symbol, side, reduceOnly, expected, false), e)
  {
    hide FilledOrder, ProveOrdinaryFill, Quiet, OrderTruthful, IsPlain, Value, IsFillOf, DecimalEquals;
    var lookup := client.QueryOrder(id);
    assert client.answers[|old(client.answers)|] == OrderAnswered(id, lookup, |client.requests|);
    e := if lookup.disposition.Found? then ProveOrdinaryFill(lookup.payload, symbol, side, id, reduceOnly, expected) else None;
    if e.Some? {
      ProducedFill(lookup.payload, symbol, side, id, reduceOnly, expected);
      if client.truthful { TruthfulFill(client.venue, lookup.payload, symbol, side, id, reduceOnly, expected); }
    }
    NoOrderNoProof(symbol, side, id, reduceOnly, expected);
  }

  lemma {:induction false} NoOrderNoProof(symbol: string, side: string, id: string, reduceOnly: bool, expected: Option<string>)
    ensures ProveOrdinaryFill(NoOrder, symbol, side, id, reduceOnly, expected) == None
  {}

  /** `resolveOrdinaryFill`: the placement's own reply when it proves a fill, otherwise a lookup. */
  method ResolveOrdinaryFill(client: Client, reply: OrderReply, symbol: string, side: string, id: string, reduceOnly: bool, expected: Option<string>)
    returns (e: Option<OrdinaryEvidence>)
    requires client.Valid()
    requires client.truthful ==> OrderTruthful(client.venue, reply.payload)
    requires client.answers != [] && client.answers[|client.answers| - 1] == PlacementAnswered(id, reply, |client.requests|)
    modifies client
    ensures client.Valid() && Quiet(client.mood, old(client.history), client.history)
    ensures client.prompt ==> client.venue == old(client.venue)
    ensures e.Some? ==> IsFillOf(e.value, symbol, side, id, reduceOnly) && IsPlain(e.value.executedQuantity)
    ensures e.Some? && expected.Some? ==> DecimalEquals(e.value.executedQuantity, expected.value)
    ensures client.truthful && e.Some? ==>
      FilledOrder(client.venue, id, symbol, side, reduceOnly, Amount(e.value.executedQuantity), e.value.status == "FILLED")
    ensures client.answering && e.None? ==> ProveOrdinaryFill(OrderAnswer(client.venue, id).payload, symbol, side, id, reduceOnly, expected).None?
    ensures client.requests == old(client.requests) && old(client.answers) <= client.answers
    ensures ResolvedFill(client.answers, |old(client.answers)| - 1, |client.requests|, FillKey(id, symbol, side, reduceOnly, expected, false), e)
  {
    hide FilledOrder, ProveOrdinaryFill, OrderTruthful, IsPlain, Value, IsFillOf, DecimalEquals;
    ghost var n, k := |client.answers| - 1, FillKey(id, symbol, side, reduceOnly, expected, false);
    var direct := ProveOrdinaryFill(reply.payload, symbol, side, id, reduceOnly, expected);
    if direct.Some? {
      assert PlacementAt(client.answers, n, |client.requests|, k);
      ProducedFill(reply.payload, symbol, side, id, reduceOnly, expected);
      if client.truthful { TruthfulFill(client.venue, reply.payload, symbol, side, id, reduceOnly, expected); }
      return direct;
    }
    e := LookupOrdinaryFill(client, symbol, side, id, reduceOnly, expected);
    assert PlacementAt(client.answers, n, |client.requests|, k) && e == ResolutionAt(client.answers, n, |client.requests|, k);
  }

  /** `lookupReduction` and `lookupOwnedClose`: only a full fill of the expected quantity counts. */
  method LookupFill(client: Client, symbol: string, side: string, id: string, quantity: string) returns (e: Option<OrdinaryEvidence>)
    requires client.Valid() && IsPlain(quantity)
    modifies client
    ensures client.Valid() && Quiet(client.mood, old(client.history), client.history)
    ensures client.prompt ==> client.venue == old(client.venue)
    ensures e.Some? ==> OrdinaryFillMatches(e, symbol, side, id, true, quantity)
    ensures client.truthful && e.Some? ==> FilledOrder(client.venue, id, symbol, side, true, Amount(quantity), true)
    ensures client.answering && FilledOrder(client.venue, id, symbol, side, true, Amount(quantity), true) ==> e.Some?
    ensures client.requests == old(client.requests) && old(client.answers) < client.answers
    ensures var a := client.answers[|old(client.answers)|]; a.OrderAnswered? && a.id == id && a.after == |client.requests|
    ensures e == FillFound(client.answers[|old(client.answers)|].order, FillKey(id, symbol, side, true, Some(quantity), true))
    ensures AskedFill(client.answers, |old(client.answers)|, |client.requests|, FillKey(id, symbol, side, true, Some(quantity), true), e)
  {
    hide FilledOrder, OrdinaryFillMatches, ProveOrdinaryFill, Quiet, OrderTruthful, IsPlain, Value;
    var lookup := client.QueryOrder(id);
    assert client.answers[|old(client.answers)|] == OrderAnswered(id, lookup, |client.requests|);
    e := None;
    if lookup.disposition.Found? {
      var evidence := ProveOrdinaryFill(lookup.payload, symbol, side, id, true, Some(quantity));
      e := if evidence.Some? && evidence.value.status == "FILLED" then evidence else None;
      if e.Some? {
        ProvenFillMatches(lookup.payload, symbol, side, id, true, quantity);
        if client.truthful { TruthfulFill(client.venue, lookup.payload, symbol, side, id, true, Some(quantity)); }
      }
    }
    if client.answering && FilledOrder(client.venue, id, symbol, side, true, Amount(quantity), true) {
      AnsweredFill(client.venue, id, symbol, side, true, Amount(quantity), true, Some(quantity));
    }
  }

  /** `resolveReduction` and `resolveOwnedClose`: the placement's own reply when it already proves the full
      fill, otherwise a lookup. */
  method ResolveFill(client: Client, reply: OrderReply, symbol: string, side: string, id: string, quantity: string) returns (e: Option<OrdinaryEvidence>)
    requires client.Valid() && IsPlain(quantity)
    requires client.truthful ==> OrderTruthful(client.venue, reply.payload)
    requires client.answers != [] && client.answers[|client.answers| - 1] == PlacementAnswered(id, reply, |client.requests|)
    modifies client
    ensures client.Valid() && Quiet(client.mood, old(client.history), client.history)
    ensures client.prompt ==> client.venue == old(client.venue)
    ensures e.Some? ==> OrdinaryFillMatches(e, symbol, side, id, true, quantity)
    ensures client.truthful && e.Some? ==> FilledOrder(client.venue, id, symbol, side, true, Amount(quantity), true)
    ensures client.answering && FilledOrder(client.venue, id, symbol, side, true, Amount(quantity), true) ==> e.Some?
    ensures client.requests == old(client.requests) && old(client.answers) <= client.answers
    ensures ResolvedFill(client.answers, |old(client.answers)| - 1, |client.requests|, FillKey(id, symbol, side, true, Some(quantity), true), e)
  {
    hide FilledOrder, OrdinaryFillMatches, ProveOrdinaryFill, OrderTruthful, IsPlain, Value;
    ghost var n, k := |client.answers| - 1, FillKey(id, symbol, side, true, Some(quantity), true);
    var direct := ProveOrdinaryFill(reply.payload, symbol, side, id, true, Some(quantity));
    if direct.Some? && direct.value.status == "FILLED" {
      assert PlacementAt(client.answers, n, |client.requests|, k);
      ProvenFillMatches(reply.payload, symbol, side, id, true, quantity);
      if client.truthful { TruthfulFill(client.venue, reply.payload, symbol, side, id, true, Some(quantity)); }
      return direct;
    }
    e := LookupFill(client, symbol, side, id, quantity);
    assert PlacementAt(client.answers, n, |client.requests|, k) && e == ResolutionAt(client.answers, n, |client.requests|, k);
  }

  /** `inspectAlgoCleanup`. */
  method InspectAlgoCleanup(client: Client, id: string) returns (c: Cleanup)
    requires client.Valid()
    modifies client
    ensures client.Valid() && Quiet(client.mood, old(client.history), client.history)
    ensures client.prompt ==> client.venue == old(client.venue)
    ensures c.clientAlgoId == id
    ensures client.truthful && c.disposition.Canceled? ==> CanceledAlgo(client.venue, id)
    ensures client.answering && CanceledAlgo(client.venue, id) ==> c.disposition.Canceled?
    ensures client.requests == old(client.requests) && old(client.answers) < client.answers
    ensures var a := client.answers[|old(client.answers)|]; a.AlgoAnswered? && a.id == id && a.after == |client.requests|
    ensures c == InspectCleanup(client.answers[|old(client.answers)|].algo, id)
    ensures Inspected(client.answers, |old(client.answers)|, |client.requests|, id, c)
  {
    hide Quiet;
    var lookup := client.QueryAlgo(id);
    assert client.answers[|old(client.answers)|] == AlgoAnswered(id, lookup, |client.requests|);
    c := InspectCleanup(lookup, id);
  }

  /** `cancelOwnedAlgo`: complete only on a proven cancel; an order that cannot be found stays pending. */
  method CancelOwnedAlgo(client: Client, id: string) returns (c: Cleanup)
    requires client.Valid()
    modifies client
    ensures client.Valid() && SentEither(client.mood, old(client.history), client.history, CancelAlgo(id))
    ensures c.clientAlgoId == id && (CleanupComplete(c) <==> c.disposition.Canceled?)
    ensures client.truthful && c.disposition.Canceled? ==> CanceledAlgo(client.venue, id)
    ensures client.prompt ==> client.venue == Landed(old(client.venue), CancelAlgo(id))
    ensures client.answering && CanceledAlgo(client.venue, id) ==> c.disposition.Canceled?
    ensures Submitted(old(client.requests), client.requests, CancelAlgo(id)) && old(client.answers) <= client.answers
    ensures CancelledAs(client.answers, |old(client.answers)|, |client.requests|, id, c)
  {
    hide Quiet, Sent, Landed;
    var cancellation := client.Cancel(id);
    ghost var n := |old(client.answers)|;
    if ProvesCancellation(cancellation, id) {
      assert CancelAt(client.answers, n, |client.requests|, id);
      return Cleanup(id, Canceled);
    }
    ghost var mid := client.history;
    var inspected := InspectAlgoCleanup(client, id);
    if Sent(client.mood, old(client.history), mid, CancelAlgo(id), true) {
      SentThenQuiet(client.mood, old(client.history), mid, client.history, CancelAlgo(id), true);
    } else {
      SentThenQuiet(client.mood, old(client.history), mid, client.history, CancelAlgo(id), false);
    }
    c := if inspected.disposition.Absent? then Cleanup(id, CleanupPending) else inspected;
    assert CancelAt(client.answers, n, |client.requests|, id) && c == CleanupAt(client.answers, n, |client.requests|, id);
  }
}
