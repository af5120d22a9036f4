/** What the venue answers, and which answers count as proof of an order. Payloads are arbitrary:
    every text may be missing, malformed or about something else. */
module Evidence {
  import opened Wrappers
  import opened DecimalText

  datatype Disposition = Accepted | Ambiguous | Rejected

  datatype LookupDisposition = Found | NotFound | Unavailable

  datatype OrderPayload =
    | NoOrder
    | OrderRecord(clientOrderId: string, symbol: string, side: string, status: string,
                  executedQuantity: string, averagePrice: string, orderId: Option<string>, reduceOnly: Option<bool>)

  datatype AlgoPayload =
    | NoAlgo
    | AlgoRecord(clientAlgoId: string, symbol: string, side: string, orderType: string, status: string,
                 quantity: string, triggerPrice: string, algoId: Option<string>, reduceOnly: Option<bool>)

  datatype CancelPayload = NoCancel | CancelRecord(clientAlgoId: string, code: string)

  datatype OrderReply = OrderReply(disposition: Disposition, payload: OrderPayload)

  datatype OrderLookup = OrderLookup(disposition: LookupDisposition, payload: OrderPayload)

  datatype AlgoLookup = AlgoLookup(disposition: LookupDisposition, payload: AlgoPayload)

  datatype AlgoType = StopMarket | TakeProfitMarket

  function TypeText(t: AlgoType): string { if t.StopMarket? then "STOP_MARKET" else "TAKE_PROFIT_MARKET" }

  datatype OrdinaryEvidence = OrdinaryEvidence(
    clientOrderId: string, orderId: string, symbol: string, side: string, status: string,
    executedQuantity: string, averagePrice: string, reduceOnly: bool)

  datatype AlgoEvidence = AlgoEvidence(
    clientAlgoId: string, algoId: string, symbol: string, side: string, orderType: AlgoType, status: string,
    quantity: string, triggerPrice: string)

  datatype CleanupDisposition = Canceled | Absent | Active | CleanupUnavailable | CleanupPending

  datatype Cleanup = Cleanup(clientAlgoId: string, disposition: CleanupDisposition)

  predicate IsActiveStatus(status: string) { status == "NEW" || status == "WORKING" }

  /** `proveOrdinaryFill`. */
  function ProveOrdinaryFill(payload: OrderPayload, symbol: string, side: string, clientOrderId: string,
                             reduceOnly: bool, expected: Option<string>): Option<OrdinaryEvidence> {
    if payload.NoOrder? || payload.clientOrderId != clientOrderId || payload.symbol != symbol || payload.side != side
       || (payload.status != "FILLED" && payload.status != "PARTIALLY_FILLED") || payload.reduceOnly != Some(reduceOnly) then None
    else
      var executed := CanonicalPositive(payload.executedQuantity);
      var average := CanonicalPositive(payload.averagePrice);
      if executed.None? || average.None? || payload.orderId.None? then None
      else if expected.Some? && !DecimalEquals(executed.value, expected.value) then None
      else Some(OrdinaryEvidence(clientOrderId, payload.orderId.value, symbol, side, payload.status,
                                 executed.value, average.value, reduceOnly))
  }

  /** `proveAlgoOrder` on a found lookup. */
  function ProveAlgoOrder(payload: AlgoPayload, symbol: string, side: string, orderType: AlgoType, clientAlgoId: string,
                          quantity: string, triggerPrice: string): Option<AlgoEvidence> {
    if payload.NoAlgo? || !IsActiveStatus(payload.status) || payload.algoId.None? || payload.clientAlgoId != clientAlgoId
       || payload.symbol != symbol || payload.side != side || payload.orderType != TypeText(orderType)
       || !DecimalEquals(payload.quantity, quantity) || !DecimalEquals(payload.triggerPrice, triggerPrice)
       || payload.reduceOnly != Some(true) then None
    else Some(AlgoEvidence(clientAlgoId, payload.algoId.value, symbol, side, orderType, payload.status, quantity, triggerPrice))
  }

  /** `proveAlgoCancellation`. */
  predicate ProvesCancellation(payload: CancelPayload, clientAlgoId: string) {
    payload.CancelRecord? && payload.clientAlgoId == clientAlgoId && payload.code == "200"
  }

  /** `inspectAlgoCleanup` on a lookup. */
  function InspectCleanup(lookup: AlgoLookup, clientAlgoId: string): Cleanup {
    if lookup.disposition.NotFound? then Cleanup(clientAlgoId, Absent)
    else if lookup.disposition.Unavailable? then Cleanup(clientAlgoId, CleanupUnavailable)
    else if lookup.payload.NoAlgo? || lookup.payload.clientAlgoId != clientAlgoId then Cleanup(clientAlgoId, CleanupPending)
    else if lookup.payload.status == "CANCELED" then Cleanup(clientAlgoId, Canceled)
    else if IsActiveStatus(lookup.payload.status) then Cleanup(clientAlgoId, Active)
    else Cleanup(clientAlgoId, CleanupPending)
  }

  predicate CleanupComplete(c: Cleanup) { c.disposition.Canceled? || c.disposition.Absent? }

  /** `ordinaryFillMatches`: the consumer's own check of an order proof. */
  predicate OrdinaryFillMatches(evidence: Option<OrdinaryEvidence>, symbol: string, side: string, clientOrderId: string,
                                reduceOnly: bool, quantity: string) {
    && evidence.Some?
    && var e := evidence.value;
    && e.clientOrderId == clientOrderId && e.symbol == symbol && e.side == side && e.status == "FILLED"
    && e.reduceOnly == reduceOnly && DecimalEquals(e.executedQuantity, quantity)
  }

  /** `algoProofMatches`. */
  predicate AlgoProofMatches(evidence: Option<AlgoEvidence>, symbol: string, side: string, orderType: AlgoType,
                             clientAlgoId: string, quantity: string, triggerPrice: string) {
    && evidence.Some?
    && var e := evidence.value;
    && e.clientAlgoId == clientAlgoId && e.symbol == symbol && e.side == side && e.orderType == orderType
    && IsActiveStatus(e.status) && DecimalEquals(e.quantity, quantity) && DecimalEquals(e.triggerPrice, triggerPrice)
  }

  predicate CleanupIsComplete(c: Option<Cleanup>) { c.Some? && CleanupComplete(c.value) }

  /** A produced fill proof passes the consumer's check exactly when the venue called the order filled. */
  lemma {:induction false} ProvenFillMatches(payload: OrderPayload, symbol: string, side: string, id: string, reduceOnly: bool, quantity: string)
    requires ProveOrdinaryFill(payload, symbol, side, id, reduceOnly, Some(quantity)).Some?
    ensures var e := ProveOrdinaryFill(payload, symbol, side, id, reduceOnly, Some(quantity));
      OrdinaryFillMatches(e, symbol, side, id, reduceOnly, quantity) <==> e.value.status == "FILLED"
  {
    hide CanonicalPositive, DecimalEquals;
  }

  /** A produced algo proof always passes the consumer's check. */
  lemma {:induction false} ProvenAlgoMatches(payload: AlgoPayload, symbol: string, side: string, t: AlgoType, id: string, quantity: string, trigger: string)
    requires IsPlain(quantity) && IsPlain(trigger)
    requires ProveAlgoOrder(payload, symbol, side, t, id, quantity, trigger).Some?
    ensures AlgoProofMatches(ProveAlgoOrder(payload, symbol, side, t, id, quantity, trigger), symbol, side, t, id, quantity, trigger)
  {
    hide IsPlain, CanonicalDecimal;
  }
}
