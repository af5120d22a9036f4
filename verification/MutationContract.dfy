/** Requests, their validation into canonical plans, and the client identities derived from intents. */
module MutationContract {
  import opened Wrappers
  import opened DecimalText

  datatype Direction = Long | Short

  function EntrySide(d: Direction): string { if d.Long? then "BUY" else "SELL" }

  function ExitSide(d: Direction): string { if d.Long? then "SELL" else "BUY" }

  datatype EntryRequest = EntryRequest(
    intentId: string, symbol: string, direction: Direction,
    quantity: string, stopPrice: string, targetPrice: string)

  datatype EntryIds = EntryIds(entry: string, stop: string, target: string, emergencyClose: string)

  datatype ValidatedEntry = ValidatedEntry(
    intentId: string, symbol: string, direction: Direction,
    quantity: string, stopPrice: string, targetPrice: string, ids: EntryIds)

  datatype OwnedProtection = OwnedProtection(
    positionIntentId: string, symbol: string, direction: Direction,
    quantity: string, stopPrice: string, targetPrice: string, stopId: string, targetId: string)

  datatype RevisionRequest = RevisionRequest(
    revisionIntentId: string, current: OwnedProtection, reductionQuantity: Option<string>,
    nextStopPrice: string, nextTargetPrice: string)

  datatype RevisionIds = RevisionIds(reduction: string, stop: string, target: string)

  datatype ValidatedRevision = ValidatedRevision(
    revisionIntentId: string, current: OwnedProtection, reductionQuantity: Option<string>,
    remainingQuantity: string, nextStopPrice: string, nextTargetPrice: string, ids: RevisionIds)

  datatype CloseRequest = CloseRequest(closeIntentId: string, current: OwnedProtection)

  datatype ValidatedClose = ValidatedClose(closeIntentId: string, current: OwnedProtection, closeId: string)

  // ---------------------------------------------------------------- text normalisation

  /** Characters removed by `String.prototype.trim`. */
  predicate IsBlank(c: char) {
    || c in {' ', '\t', '\n', '\r', '\U{0B}', '\U{0C}', '\U{A0}', '\U{1680}', '\U{2028}', '\U{2029}'}
    || c in {'\U{202F}', '\U{205F}', '\U{3000}', '\U{FEFF}'}
    || '\U{2000}' <= c <= '\U{200A}'
  }

  function TrimStart(s: string): string {
    if s != "" && IsBlank(s[0]) then TrimStart(s[1..]) else s
  }

  function TrimEnd(s: string): string {
    if s != "" && IsBlank(s[|s| - 1]) then TrimEnd(s[..|s| - 1]) else s
  }

  function Trim(s: string): string { TrimEnd(TrimStart(s)) }

  function LowerChar(c: char): char { if 'A' <= c <= 'Z' then 'a' + (c - 'A') else c }

  function UpperChar(c: char): char { if 'a' <= c <= 'z' then 'A' + (c - 'a') else c }

  function Lower(s: string): (t: string)
    ensures |t| == |s| && forall i :: 0 <= i < |s| ==> t[i] == LowerChar(s[i])
  {
    seq(|s|, i requires 0 <= i < |s| => LowerChar(s[i]))
  }

  function Upper(s: string): (t: string)
    ensures |t| == |s| && forall i :: 0 <= i < |s| ==> t[i] == UpperChar(s[i])
  {
    seq(|s|, i requires 0 <= i < |s| => UpperChar(s[i]))
  }

  predicate IsHex(c: char) { '0' <= c <= '9' || 'a' <= c <= 'f' }

  predicate IsHyphenPlace(i: int) { i == 8 || i == 13 || i == 18 || i == 23 }

  /** The canonical UUID pattern of the mutation contract. */
  predicate IsUuid(s: string) {
    && |s| == 36
    && (forall i :: 0 <= i < 36 ==> if IsHyphenPlace(i) then s[i] == '-' else IsHex(s[i]))
    && '1' <= s[14] <= '5'
    && s[19] in {'8', '9', 'a', 'b'}
  }

  function CanonicalUuid(value: string): (r: Option<string>)
    ensures r.Some? ==> IsUuid(r.value)
  {
    var c := Lower(Trim(value));
    if IsUuid(c) then Some(c) else None
  }

  predicate IsSymbol(s: string) {
    5 <= |s| <= 24 && forall i :: 0 <= i < |s| ==> 'A' <= s[i] <= 'Z' || '0' <= s[i] <= '9'
  }

  function CanonicalSymbol(value: string): (r: Option<string>)
    ensures r.Some? ==> IsSymbol(r.value)
  {
    var c := Upper(Trim(value));
    if IsSymbol(c) then Some(c) else None
  }

  predicate IsClientId(s: string) {
    1 <= |s| <= 36 && forall i :: 0 <= i < |s| ==>
      || 'A' <= s[i] <= 'Z' || 'a' <= s[i] <= 'z' || '0' <= s[i] <= '9'
      || s[i] in {'.', ':', '/', '_', '-'}
  }

  lemma {:induction false} TrimKeeps(s: string)
    requires s != "" && !IsBlank(s[0]) && !IsBlank(s[|s| - 1])
    ensures Trim(s) == s
  {}

  /** Canonical identifiers are fixed points of their own normalisation. */
  lemma {:induction false} CanonicalIdentifiersAreFixed(s: string)
    ensures IsUuid(s) ==> CanonicalUuid(s) == Some(s)
    ensures IsSymbol(s) ==> CanonicalSymbol(s) == Some(s)
  {
    if IsUuid(s) {
      assert IsHex(s[0]) && IsHex(s[35]);
      TrimKeeps(s);
      assert forall i :: 0 <= i < 36 ==> LowerChar(s[i]) == s[i];
      assert Lower(s) == s;
    }
    if IsSymbol(s) {
      TrimKeeps(s);
      assert Upper(s) == s;
    }
  }

  // ---------------------------------------------------------------- identities

  /** `replaceAll("-", "")`. */
  function Compact(s: string): string {
    if s == "" then "" else if s[0] == '-' then Compact(s[1..]) else [s[0]] + Compact(s[1..])
  }

  function OrderId(prefix: string, intentId: string): string { prefix + "-" + Compact(intentId) }

  function DeriveEntryIds(intentId: string): EntryIds {
    EntryIds(OrderId("gce", intentId), OrderId("gcs", intentId), OrderId("gct", intentId), OrderId("gcf", intentId))
  }

  function DeriveRevisionIds(intentId: string): RevisionIds {
    RevisionIds(OrderId("gcr", intentId), OrderId("grs", intentId), OrderId("grt", intentId))
  }

  lemma {:induction false} CompactOfHex(s: string)
    requires forall i :: 0 <= i < |s| ==> IsHex(s[i])
    ensures Compact(s) == s
  {
    if s != "" { CompactOfHex(s[1..]); }
  }

  lemma {:induction false} CompactStep(s: string)
    ensures Compact("") == ""
    ensures s != "" ==> Compact(s) == (if s[0] == '-' then "" else [s[0]]) + Compact(s[1..])
  {}

  lemma {:induction false} CompactConcat(s: string, t: string)
    ensures Compact(s + t) == Compact(s) + Compact(t)
  {
    hide Compact;
    CompactStep(s);
    if s == "" {
      assert s + t == t;
    } else {
      CompactConcat(s[1..], t);
      CompactStep(s + t);
      assert (s + t)[1..] == s[1..] + t;
      var head := if s[0] == '-' then "" else [s[0]];
      assert head + (Compact(s[1..]) + Compact(t)) == (head + Compact(s[1..])) + Compact(t);
    }
  }

  lemma {:induction false} CompactDropsHyphen(s: string, t: string)
    requires forall i :: 0 <= i < |s| ==> IsHex(s[i])
    ensures Compact(s + "-" + t) == s + Compact(t)
  {
    CompactConcat(s + "-", t);
    CompactConcat(s, "-");
    CompactOfHex(s);
    assert "-"[1..] == "";
  }

  /** A text of 36 characters with hyphens in the four places is its five groups and those hyphens. */
  lemma {:induction false} UuidParts(u: string)
    requires |u| == 36 && u[8] == '-' && u[13] == '-' && u[18] == '-' && u[23] == '-'
    ensures u == u[..8] + "-" + (u[9..13] + "-" + (u[14..18] + "-" + (u[19..23] + "-" + u[24..])))
  {
    assert u[19..] == u[19..23] + "-" + u[24..];
    assert u[14..] == u[14..18] + "-" + u[19..];
    assert u[9..] == u[9..13] + "-" + u[14..];
    assert u == u[..8] + "-" + u[9..];
  }

  lemma {:induction false} UuidGroups(u: string)
    requires IsUuid(u)
    ensures u[8] == '-' && u[13] == '-' && u[18] == '-' && u[23] == '-'
    ensures forall i :: 0 <= i < 36 && !IsHyphenPlace(i) ==> IsHex(u[i])
  {
    assert IsHyphenPlace(8) && IsHyphenPlace(13) && IsHyphenPlace(18) && IsHyphenPlace(23);
  }

  /** A UUID's five groups, joined. */
  lemma {:induction false} CompactOfUuid(u: string)
    requires IsUuid(u)
    ensures Compact(u) == u[..8] + u[9..13] + u[14..18] + u[19..23] + u[24..]
    ensures |Compact(u)| == 32
  {
    UuidGroups(u);
    UuidParts(u);
    hide IsUuid, IsHex, Compact;
    var a, b, c, d, e := u[..8], u[9..13], u[14..18], u[19..23], u[24..];
    CompactDropsHyphen(a, b + "-" + (c + "-" + (d + "-" + e)));
    CompactDropsHyphen(b, c + "-" + (d + "-" + e));
    CompactDropsHyphen(c, d + "-" + e);
    CompactDropsHyphen(d, e);
    CompactOfHex(e);
    JoinGroups(a, b, c, d, e);
  }

  lemma {:induction false} JoinGroups(a: string, b: string, c: string, d: string, e: string)
    ensures a + (b + (c + (d + e))) == a + b + c + d + e
  {
    assert c + (d + e) == c + d + e;
    assert b + (c + d + e) == b + c + d + e;
  }

  /** Different intents never share a client identity, and neither do different purposes of one intent. */
  lemma {:induction false} OrderIdInjective(p: string, u: string, q: string, v: string)
    requires |p| == 3 && |q| == 3 && IsUuid(u) && IsUuid(v)
    requires OrderId(p, u) == OrderId(q, v)
    ensures p == q && u == v
  {
    CompactOfUuid(u);
    CompactOfUuid(v);
    var x, y := OrderId(p, u), OrderId(q, v);
    assert x[..3] == p && y[..3] == q && x[4..] == Compact(u) && y[4..] == Compact(v);
    var cu, cv := Compact(u), Compact(v);
    assert cu[..8] == u[..8] && cu[8..12] == u[9..13] && cu[12..16] == u[14..18] && cu[16..20] == u[19..23] && cu[20..] == u[24..];
    assert cv[..8] == v[..8] && cv[8..12] == v[9..13] && cv[12..16] == v[14..18] && cv[16..20] == v[19..23] && cv[20..] == v[24..];
    forall i | 0 <= i < 36
      ensures u[i] == v[i]
    {
      if i < 8 { assert u[i] == u[..8][i] && v[i] == v[..8][i]; }
      else if 9 <= i < 13 { assert u[i] == u[9..13][i - 9] && v[i] == v[9..13][i - 9]; }
      else if 14 <= i < 18 { assert u[i] == u[14..18][i - 14] && v[i] == v[14..18][i - 14]; }
      else if 19 <= i < 23 { assert u[i] == u[19..23][i - 19] && v[i] == v[19..23][i - 19]; }
      else if 24 <= i { assert u[i] == u[24..][i - 24] && v[i] == v[24..][i - 24]; }
      else { assert IsHyphenPlace(i); }
    }
  }

  /** Derived identities always pass the client-id pattern, so `orderId` never throws on a UUID. */
  lemma {:induction false} OrderIdIsClientId(p: string, u: string)
    requires p in {"gce", "gcs", "gct", "gcf", "gcr", "grs", "grt", "gpc"} && IsUuid(u)
    ensures IsClientId(OrderId(p, u))
  {
    CompactOfUuid(u);
    var x := OrderId(p, u);
    forall i | 4 <= i < |x|
      ensures IsHex(x[i])
    {
      assert x[i] == Compact(u)[i - 4];
    }
  }

  // ---------------------------------------------------------------- validation

  function ValidateEntry(r: EntryRequest): Option<ValidatedEntry> {
    var intentId := CanonicalUuid(r.intentId);
    var symbol := CanonicalSymbol(r.symbol);
    var quantity := CanonicalPositive(r.quantity);
    var stop := CanonicalPositive(r.stopPrice);
    var target := CanonicalPositive(r.targetPrice);
    if intentId.None? || symbol.None? || quantity.None? || stop.None? || target.None? then None
    else Some(ValidatedEntry(intentId.value, symbol.value, r.direction, quantity.value, stop.value, target.value,
                             DeriveEntryIds(intentId.value)))
  }

  function ValidateOwned(c: OwnedProtection): Option<OwnedProtection> {
    var intentId := CanonicalUuid(c.positionIntentId);
    var symbol := CanonicalSymbol(c.symbol);
    var quantity := CanonicalPositive(c.quantity);
    var stop := CanonicalPositive(c.stopPrice);
    var target := CanonicalPositive(c.targetPrice);
    if intentId.None? || symbol.None? || quantity.None? || stop.None? || target.None? then None
    else if !IsClientId(c.stopId) || !IsClientId(c.targetId) || c.stopId == c.targetId then None
    else Some(OwnedProtection(intentId.value, symbol.value, c.direction, quantity.value, stop.value, target.value,
                              c.stopId, c.targetId))
  }

  function ValidateRevision(r: RevisionRequest): Option<ValidatedRevision> {
    var intentId := CanonicalUuid(r.revisionIntentId);
    var owned := ValidateOwned(r.current);
    var stop := CanonicalPositive(r.nextStopPrice);
    var target := CanonicalPositive(r.nextTargetPrice);
    if intentId.None? || owned.None? || stop.None? || target.None? then None
    else
      var current := owned.value;
      var reduction := if r.reductionQuantity.None? then None else CanonicalPositive(r.reductionQuantity.value);
      if r.reductionQuantity.Some? && reduction.None? then None
      else if reduction.None? && DecimalEquals(stop.value, current.stopPrice) && DecimalEquals(target.value, current.targetPrice) then None
      else
        var remaining := if reduction.None? then Some(current.quantity)
                         else SubtractPositive(current.quantity, reduction.value);
        var ids := DeriveRevisionIds(intentId.value);
        if remaining.None? then None
        else if ids.stop in {current.stopId, current.targetId} || ids.target in {current.stopId, current.targetId} then None
        else Some(ValidatedRevision(intentId.value, current, reduction, remaining.value, stop.value, target.value, ids))
  }

  function ValidateClose(r: CloseRequest): Option<ValidatedClose> {
    var intentId := CanonicalUuid(r.closeIntentId);
    var owned := ValidateOwned(r.current);
    if intentId.None? || owned.None? then None
    else Some(ValidatedClose(intentId.value, owned.value, OrderId("gpc", intentId.value)))
  }

  /** The request a plan is stored as. */
  function EntryRequestOf(p: ValidatedEntry): EntryRequest {
    EntryRequest(p.intentId, p.symbol, p.direction, p.quantity, p.stopPrice, p.targetPrice)
  }

  function RevisionRequestOf(p: ValidatedRevision): RevisionRequest {
    RevisionRequest(p.revisionIntentId, p.current, p.reductionQuantity, p.nextStopPrice, p.nextTargetPrice)
  }

  function CloseRequestOf(p: ValidatedClose): CloseRequest { CloseRequest(p.closeIntentId, p.current) }

  /** Ownership after a proven revision. */
  function NextOwned(p: ValidatedRevision): OwnedProtection {
    OwnedProtection(p.current.positionIntentId, p.current.symbol, p.current.direction, p.remainingQuantity,
                    p.nextStopPrice, p.nextTargetPrice, p.ids.stop, p.ids.target)
  }

  predicate IsOwned(c: OwnedProtection) { ValidateOwned(c) == Some(c) }

  /** Validation is idempotent: a plan is recovered exactly from the request it is stored as. */
  lemma {:induction false} OwnedIsCanonical(c: OwnedProtection)
    requires ValidateOwned(c).Some?
    ensures IsOwned(ValidateOwned(c).value)
  {
    hide IsPlain, IsCanonical, CanonicalPositive, IsUuid, IsSymbol, IsClientId;
    var o := ValidateOwned(c).value;
    CanonicalIdentifiersAreFixed(o.positionIntentId);
    CanonicalIdentifiersAreFixed(o.symbol);
    PositiveIsFixed(c.quantity);
    PositiveIsFixed(c.stopPrice);
    PositiveIsFixed(c.targetPrice);
  }

  lemma {:induction false} PositiveIsFixed(s: string)
    requires CanonicalPositive(s).Some?
    ensures CanonicalPositive(CanonicalPositive(s).value) == CanonicalPositive(s)
  {
    CanonicalPositiveIff(s);
  }

  lemma {:induction false} EntryIsCanonical(r: EntryRequest)
    requires ValidateEntry(r).Some?
    ensures ValidateEntry(EntryRequestOf(ValidateEntry(r).value)) == ValidateEntry(r)
  {
    hide IsPlain, IsCanonical, CanonicalPositive, IsUuid, IsSymbol, IsClientId;
    var p := ValidateEntry(r).value;
    CanonicalIdentifiersAreFixed(p.intentId);
    CanonicalIdentifiersAreFixed(p.symbol);
    PositiveIsFixed(r.quantity);
    PositiveIsFixed(r.stopPrice);
    PositiveIsFixed(r.targetPrice);
  }

  lemma {:induction false} RevisionIsCanonical(r: RevisionRequest)
    requires ValidateRevision(r).Some?
    ensures ValidateRevision(RevisionRequestOf(ValidateRevision(r).value)) == ValidateRevision(r)
  {
    hide IsPlain, IsCanonical, CanonicalPositive, IsUuid, IsSymbol, IsClientId, SubtractPositive, ValidateOwned, DecimalEquals;
    var p := ValidateRevision(r).value;
    CanonicalIdentifiersAreFixed(p.revisionIntentId);
    OwnedIsCanonical(r.current);
    PositiveIsFixed(r.nextStopPrice);
    PositiveIsFixed(r.nextTargetPrice);
    if r.reductionQuantity.Some? { PositiveIsFixed(r.reductionQuantity.value); }
  }

  lemma {:induction false} CloseIsCanonical(r: CloseRequest)
    requires ValidateClose(r).Some?
    ensures ValidateClose(CloseRequestOf(ValidateClose(r).value)) == ValidateClose(r)
  {
    hide IsUuid, ValidateOwned;
    var p := ValidateClose(r).value;
    CanonicalIdentifiersAreFixed(p.closeIntentId);
    OwnedIsCanonical(r.current);
  }

  /** The quantity a reduction takes away, as a number. */
  function ReductionValue(p: ValidatedRevision): real {
    if p.reductionQuantity.None? then 0.0
    else if IsPlain(p.reductionQuantity.value) then Value(p.reductionQuantity.value) else 0.0
  }

  /** Validated texts are plain and positive; a revision splits the owned quantity exactly, and its
      successor ownership is canonical, keeps identity and direction and uses two fresh identities. */
  lemma {:induction false} OwnedQuantities(c: OwnedProtection)
    requires IsOwned(c)
    ensures IsPlain(c.quantity) && IsPlain(c.stopPrice) && IsPlain(c.targetPrice)
    ensures Value(c.quantity) > 0.0
    ensures IsCanonicalPositive(c.quantity)
  {
    CanonicalPositiveIff(c.quantity);
    CanonicalPositiveIff(c.stopPrice);
    CanonicalPositiveIff(c.targetPrice);
  }

  lemma {:induction false} RevisionSplitsQuantity(r: RevisionRequest)
    requires ValidateRevision(r).Some?
    ensures var p := ValidateRevision(r).value;
      && IsOwned(p.current) && IsOwned(NextOwned(p))
      && IsPlain(p.current.quantity) && IsPlain(p.remainingQuantity) && Value(p.remainingQuantity) > 0.0
      && IsPlain(p.nextStopPrice) && IsPlain(p.nextTargetPrice)
      && (p.reductionQuantity.Some? ==> IsPlain(p.reductionQuantity.value) && ReductionValue(p) > 0.0)
      && Value(p.remainingQuantity) == Value(p.current.quantity) - ReductionValue(p)
  {
    hide IsCanonical, IsUuid, IsSymbol, SubtractPositive, DecimalEquals, IsPlain, Value, CanonicalPositive;
    var p := ValidateRevision(r).value;
    OwnedIsCanonical(r.current);
    OwnedQuantities(p.current);
    CanonicalPositiveIff(r.nextStopPrice);
    CanonicalPositiveIff(r.nextTargetPrice);
    CanonicalIdentifiersAreFixed(p.current.positionIntentId);
    CanonicalIdentifiersAreFixed(p.current.symbol);
    if p.reductionQuantity.Some? {
      CanonicalPositiveIff(r.reductionQuantity.value);
      PositiveIsFixed(r.reductionQuantity.value);
      SubtractMeaning(p.current.quantity, p.reductionQuantity.value);
    }
    OrderIdIsClientId("grs", p.revisionIntentId);
    OrderIdIsClientId("grt", p.revisionIntentId);
    if p.ids.stop == p.ids.target { OrderIdInjective("grs", p.revisionIntentId, "grt", p.revisionIntentId); }
    PositiveIsFixed(r.nextStopPrice);
    PositiveIsFixed(r.nextTargetPrice);
  }

  // ---------------------------------------------------------------- exactly what is valid

  /** A text of a positive number, and the canonical text of the same number. */
  predicate IsAmount(s: string) { IsPlain(s) && Value(s) > 0.0 }

  predicate IsAmountOf(c: string, s: string) { IsCanonicalPositive(c) && IsPlain(c) && IsPlain(s) && Value(c) == Value(s) }

  lemma {:induction false} AmountDecides(s: string)
    ensures CanonicalPositive(s).Some? <==> IsAmount(s)
    ensures CanonicalPositive(s).Some? ==> IsAmountOf(CanonicalPositive(s).value, s)
  {
    CanonicalPositiveIff(s);
  }

  /** An intent is named by a UUID, up to surrounding blanks and letter case; a symbol by its upper case. */
  lemma {:induction false} IdentifiersDecide(value: string)
    ensures CanonicalUuid(value) == (if IsUuid(Lower(Trim(value))) then Some(Lower(Trim(value))) else None)
    ensures CanonicalSymbol(value) == (if IsSymbol(Upper(Trim(value))) then Some(Upper(Trim(value))) else None)
  {
    hide IsUuid, IsSymbol, Lower, Upper, Trim;
  }

  /** An entry is valid exactly when its intent and symbol are and its three amounts are positive numbers; the plan
      keeps them all, and each of its orders is named after the intent and its own purpose. */
  lemma {:induction false} EntryDecides(r: EntryRequest)
    ensures ValidateEntry(r).Some? <==>
      IsUuid(Lower(Trim(r.intentId))) && IsSymbol(Upper(Trim(r.symbol))) && IsAmount(r.quantity) && IsAmount(r.stopPrice) && IsAmount(r.targetPrice)
    ensures ValidateEntry(r).Some? ==>
      var p := ValidateEntry(r).value;
      && p.intentId == Lower(Trim(r.intentId)) && p.symbol == Upper(Trim(r.symbol)) && p.direction == r.direction
      && IsAmountOf(p.quantity, r.quantity) && IsAmountOf(p.stopPrice, r.stopPrice) && IsAmountOf(p.targetPrice, r.targetPrice)
      && p.ids.entry == "gce-" + Compact(p.intentId) && p.ids.stop == "gcs-" + Compact(p.intentId)
      && p.ids.target == "gct-" + Compact(p.intentId) && p.ids.emergencyClose == "gcf-" + Compact(p.intentId)
  {
    hide IsUuid, IsSymbol, Lower, Upper, Trim, CanonicalPositive, IsAmount, IsAmountOf, Compact, CanonicalUuid, CanonicalSymbol;
    IdentifiersDecide(r.intentId);
    IdentifiersDecide(r.symbol);
    AmountDecides(r.quantity);
    AmountDecides(r.stopPrice);
    AmountDecides(r.targetPrice);
    NamedAfter("gce", Lower(Trim(r.intentId)));
    NamedAfter("gcs", Lower(Trim(r.intentId)));
    NamedAfter("gct", Lower(Trim(r.intentId)));
    NamedAfter("gcf", Lower(Trim(r.intentId)));
  }

  lemma {:induction false} NamedAfter(prefix: string, intentId: string)
    ensures OrderId(prefix, intentId) == (prefix + "-") + Compact(intentId)
  {}

  /** So is an owned position, whose two orders must have valid and different names. */
  lemma {:induction false} OwnedDecides(c: OwnedProtection)
    ensures ValidateOwned(c).Some? <==>
      && IsUuid(Lower(Trim(c.positionIntentId))) && IsSymbol(Upper(Trim(c.symbol)))
      && IsAmount(c.quantity) && IsAmount(c.stopPrice) && IsAmount(c.targetPrice)
      && IsClientId(c.stopId) && IsClientId(c.targetId) && c.stopId != c.targetId
    ensures ValidateOwned(c).Some? ==>
      var o := ValidateOwned(c).value;
      && o.positionIntentId == Lower(Trim(c.positionIntentId)) && o.symbol == Upper(Trim(c.symbol)) && o.direction == c.direction
      && IsAmountOf(o.quantity, c.quantity) && IsAmountOf(o.stopPrice, c.stopPrice) && IsAmountOf(o.targetPrice, c.targetPrice)
      && o.stopId == c.stopId && o.targetId == c.targetId
  {
    hide IsUuid, IsSymbol, IsClientId, Lower, Upper, Trim, CanonicalPositive, IsAmount, IsAmountOf, CanonicalUuid, CanonicalSymbol;
    IdentifiersDecide(c.positionIntentId);
    IdentifiersDecide(c.symbol);
    AmountDecides(c.quantity);
    AmountDecides(c.stopPrice);
    AmountDecides(c.targetPrice);
  }

  /** A revision is valid exactly when it is of a valid position, to positive prices, by a proper part of the
      quantity or by none but then to another price, under names that are new. */
  lemma {:induction false} RevisionDecides(r: RevisionRequest)
    ensures ValidateRevision(r).Some? <==>
      && IsUuid(Lower(Trim(r.revisionIntentId))) && ValidateOwned(r.current).Some? && IsAmount(r.nextStopPrice) && IsAmount(r.nextTargetPrice)
      && (if r.reductionQuantity.Some? then IsAmount(r.reductionQuantity.value) && Value(r.reductionQuantity.value) < Value(r.current.quantity)
          else Value(r.nextStopPrice) != Value(r.current.stopPrice) || Value(r.nextTargetPrice) != Value(r.current.targetPrice))
      && NamesAreNew(r)
    ensures ValidateRevision(r).Some? ==>
      var p := ValidateRevision(r).value;
      && p.revisionIntentId == Lower(Trim(r.revisionIntentId)) && p.current == ValidateOwned(r.current).value
      && (p.reductionQuantity.Some? <==> r.reductionQuantity.Some?)
      && (p.reductionQuantity.Some? ==> IsAmountOf(p.reductionQuantity.value, r.reductionQuantity.value))
      && IsAmountOf(p.nextStopPrice, r.nextStopPrice) && IsAmountOf(p.nextTargetPrice, r.nextTargetPrice)
      && p.ids.reduction == "gcr-" + Compact(p.revisionIntentId) && p.ids.stop == "grs-" + Compact(p.revisionIntentId)
      && p.ids.target == "grt-" + Compact(p.revisionIntentId)
  {
    hide IsUuid, Lower, Upper, Trim, CanonicalPositive, IsAmount, Compact, CanonicalUuid, ValidateOwned, IsPlain, Value, DecimalEquals,
      SubtractPositive, IsCanonicalPositive;
    IdentifiersDecide(r.revisionIntentId);
    AmountDecides(r.nextStopPrice);
    AmountDecides(r.nextTargetPrice);
    var id := Lower(Trim(r.revisionIntentId));
    NamedAfter("gcr", id);
    NamedAfter("grs", id);
    NamedAfter("grt", id);
    assert "grs" + "-" == "grs-" && "grt" + "-" == "grt-";
    if ValidateOwned(r.current).Some? {
      var current := ValidateOwned(r.current).value;
      OwnedKeeps(r.current);
      if r.reductionQuantity.Some? { ReductionDecides(current.quantity, r.reductionQuantity.value); }
      if IsAmount(r.nextStopPrice) { SameAmount(r.nextStopPrice, current.stopPrice); }
      if IsAmount(r.nextTargetPrice) { SameAmount(r.nextTargetPrice, current.targetPrice); }
    }
  }

  predicate NamesAreNew(r: RevisionRequest) {
    var id := Compact(Lower(Trim(r.revisionIntentId)));
    && "grs-" + id != r.current.stopId && "grs-" + id != r.current.targetId
    && "grt-" + id != r.current.stopId && "grt-" + id != r.current.targetId
  }

  /** A valid position keeps its numbers and names. */
  lemma {:induction false} OwnedKeeps(c: OwnedProtection)
    requires ValidateOwned(c).Some?
    ensures var o := ValidateOwned(c).value;
      && IsAmountOf(o.quantity, c.quantity) && IsAmountOf(o.stopPrice, c.stopPrice) && IsAmountOf(o.targetPrice, c.targetPrice)
      && o.stopId == c.stopId && o.targetId == c.targetId
  {
    hide ValidateOwned, IsAmountOf, IsAmount, IsUuid, IsSymbol, IsClientId, Lower, Upper, Trim;
    OwnedDecides(c);
  }

  lemma {:induction false} ReductionDecides(quantity: string, reduction: string)
    requires IsCanonicalPositive(quantity)
    ensures CanonicalPositive(reduction).Some? <==> IsAmount(reduction)
    ensures IsAmount(reduction) ==> IsAmountOf(CanonicalPositive(reduction).value, reduction)
    ensures IsAmount(reduction) ==> (SubtractPositive(quantity, CanonicalPositive(reduction).value).Some? <==> Value(reduction) < Value(quantity))
  {
    hide IsPlain, Value, CanonicalPositive, SubtractPositive;
    AmountDecides(reduction);
    if IsAmount(reduction) {
      var c := CanonicalPositive(reduction).value;
      AmountDecides(c);
      PositiveIsFixed(reduction);
      SubtractMeaning(quantity, c);
    }
  }

  /** Canonical texts are compared by their numbers. */
  lemma {:induction false} SameAmount(price: string, standing: string)
    requires IsAmount(price) && IsPlain(standing)
    ensures CanonicalPositive(price).Some?
    ensures DecimalEquals(CanonicalPositive(price).value, standing) <==> Value(price) == Value(standing)
  {
    hide IsPlain, Value, CanonicalPositive, DecimalEquals;
    AmountDecides(price);
    DecimalEqualsDecides(CanonicalPositive(price).value, standing);
  }

  /** A close is valid exactly when its intent and the position are. */
  lemma {:induction false} CloseDecides(r: CloseRequest)
    ensures ValidateClose(r).Some? <==> IsUuid(Lower(Trim(r.closeIntentId))) && ValidateOwned(r.current).Some?
    ensures ValidateClose(r).Some? ==>
      var p := ValidateClose(r).value;
      && p.closeIntentId == Lower(Trim(r.closeIntentId)) && p.current == ValidateOwned(r.current).value
      && p.closeId == "gpc-" + Compact(p.closeIntentId)
  {
    hide IsUuid, Lower, Upper, Trim, Compact, CanonicalUuid, ValidateOwned;
    IdentifiersDecide(r.closeIntentId);
    NamedAfter("gpc", Lower(Trim(r.closeIntentId)));
  }
}
