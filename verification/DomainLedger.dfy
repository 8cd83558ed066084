/** The trade ledger in PostgreSQL: its tables and what each operation of
    beta-app/postgres-domain-adapter.mjs does to them.  Every operation takes one global
    advisory lock for its whole transaction, so it is one atomic step here; a refused
    operation is a transaction rolled back. */
module DomainLedger {
  import opened Wrappers
  import opened ReserveLot

  type TradeId = nat
  type EvidenceId = nat
  type Instant = int


  // EXPIRED is LAPSED here; a trade's DELIVERED and DISPUTED are HANDED_OVER and IN_DISPUTE.
  datatype OrderState = SUBMITTED | COUNTERED | PARTIALLY_ACCEPTED | ACCEPTED | REJECTED | LAPSED | CANCELLED | TRADE_CONFIRMED

  datatype Counter = Counter(price: int, quantity: int, deliveryDays: nat, lot: LotId, supplier: nat)

  datatype OrderRow = OrderRow(buyer: nat, spec: string, state: OrderState, bid: int, requested: int,
                               deadline: int, partialFill: bool, expiresAt: Option<Instant>, counter: Option<Counter>)

  datatype TradeState = CONFIRMED | HANDED_OVER | COMPLETED | IN_DISPUTE

  datatype TradeRow = TradeRow(order: OrderId, lot: LotId, supplier: nat, buyer: nat, state: TradeState, price: int, quantity: int)

  datatype InspectionRow = InspectionRow(reservation: ReservationId, specMatch: bool, qualityPass: bool, state: TradeState)

  /** An observation id is a text; the text of a trade's uuid is the default one. */
  datatype ObservationId = OfTrade(trade: TradeId) | Named(name: string)

  datatype ObservationRow = ObservationRow(trade: TradeId, spec: string, price: int, quantity: int)

  datatype EvidenceKind = COA | SDS | TDS | LOT_TRACE | INVENTORY_PROOF

  datatype EvidenceState = PENDING | VALID | REJECTED_EVIDENCE

  datatype EvidenceRow = EvidenceRow(lot: LotId, kind: EvidenceKind, state: EvidenceState, expiresAt: Option<Instant>, reviewer: nat)

  /** The tables, with the two unique indexes operations look rows up by: an order by its
      buyer's idempotency key, a trade by its order and lot. */
  datatype Domain = Domain(
    lots: map<LotId, LotRow>,
    reservations: seq<ReservationRow>,
    orders: map<OrderId, OrderRow>,
    orderByKey: map<(nat, string), OrderId>,
    trades: map<TradeId, TradeRow>,
    tradeByPair: map<(OrderId, LotId), TradeId>,
    inspections: map<TradeId, InspectionRow>,
    observations: map<ObservationId, ObservationRow>,
    evidences: map<EvidenceId, EvidenceRow>)

  const EMPTY: Domain := Domain(map[], [], map[], map[], map[], map[], map[], map[], map[])

  function TablesOf(d: Domain): Tables {
    Tables(d.lots, d.reservations)
  }

  // ---- requests; the checks against tables outside the ledger arrive as their verdicts ----

  /** One of the five documents of a new lot. */
  datatype Document = Document(id: EvidenceId, kind: EvidenceKind, expiresAt: Option<Instant>)

  datatype LotDraft = LotDraft(lot: LotId, supplier: nat, spec: string, total: int, ask: int, deliveryDays: int,
                               documents: seq<Document>, member: bool, specApproved: bool)

  datatype EvidenceReview = EvidenceReview(evidence: EvidenceId, valid: bool, reviewer: nat, member: bool, now: Instant)

  datatype OrderForm = OrderForm(buyer: nat, spec: string, bid: int, requested: int, deadline: int, partialFill: bool,
                                 expiresAt: Option<Instant>, idempotencyKey: Option<string>, freshOrder: OrderId,
                                 member: bool, specApproved: bool)

  datatype Reservation = Reservation(order: OrderId, lot: LotId, quantity: int, key: string, freshReservation: ReservationId)

  datatype Confirmation = Confirmation(order: OrderId, lot: LotId, supplier: nat, buyer: nat, price: int, quantity: int,
                                       freshTrade: TradeId, member: bool, papersMatch: bool, lotTermsMatch: bool, now: Instant)

  /** `key` is the caller's idempotency key or the default text made of order, lot and quantity. */
  datatype Acceptance = Acceptance(order: OrderId, lot: LotId, supplier: nat, quantity: int, key: string,
                                   freshReservation: ReservationId, freshTrade: TradeId, member: bool, buyerActive: bool,
                                   specMatches: bool, termsMatch: bool, snapshotMatches: bool, now: Instant)

  datatype CounterForm = CounterForm(order: OrderId, counter: Counter, member: bool, termsMatch: bool)

  datatype Delivery = Delivery(trade: TradeId, supplier: nat, member: bool)

  datatype Inspection = Inspection(trade: TradeId, specMatch: bool, qualityPass: bool, member: bool)

  /** The price record that goes with an inspection; what is not given defaults to the trade's. */
  datatype PriceForm = PriceForm(termsMatch: bool, spec: Option<string>, price: Option<int>, quantity: Option<int>,
                                 observation: Option<ObservationId>)

  datatype PriceRecord = PriceRecord(trade: TradeId, spec: string, price: int, quantity: int, inspected: bool,
                                     termsMatch: bool, observation: Option<ObservationId>)

  datatype Request =
    | RegisterLotDraft(draft: LotDraft)
    | ReviewEvidence(review: EvidenceReview)
    | SubmitOrder(form: OrderForm)
    | ReserveInventory(reservation: Reservation)
    | ConfirmTrade(confirmation: Confirmation)
    | AcceptOrder(acceptance: Acceptance)
    | CounterOrder(counter: CounterForm)
    | RejectOrder(order: OrderId, member: bool)
    | ExpireOrder(order: OrderId, now: Instant)
    | MarkDelivered(delivery: Delivery)
    | InspectTrade(inspection: Inspection)
    | InspectAndRecord(inspection: Inspection, price: PriceForm)
    | RecordPrice(record: PriceRecord)

  datatype Code =
    | INVALID_NUMBER | MEMBERSHIP_REQUIRED | SPECIFICATION_REFUSED | DOCUMENTS_REQUIRED | LOT_ALREADY_EXISTS
    | EVIDENCE_NOT_FOUND | EVIDENCE_REVIEW_RETRY_MISMATCH | IDEMPOTENCY_KEY_REUSED | UNIQUE_VIOLATED
    | ORDER_NOT_FOUND | ORDER_STATE_INVALID | RESERVATION_REFUSED(why: Refusal) | BUYER_ORGANIZATION_MISMATCH
    | TRADE_PAPERS_MISMATCH | LOT_NOT_FOUND | LOT_SPEC_MISMATCH | SUPPLIER_ORGANIZATION_MISMATCH | LOT_STATE_INVALID
    | PRETRADE_EVIDENCE_REQUIRED | RESERVATION_REQUIRED | INVALID_ACCEPTED_QUANTITY | ACCEPT_RETRY_MISMATCH
    | SPEC_SNAPSHOT_MISMATCH | COUNTER_RETRY_MISMATCH | INVALID_COUNTER_QUANTITY | COUNTER_LOT_MISMATCH
    | NO_ELIGIBLE_COUNTER_OFFER | ORDER_NOT_EXPIRED | TRADE_NOT_FOUND | INVALID_DELIVERY_STATE
    | INSPECTION_LEDGER_INCONSISTENT | INSPECTION_RETRY_MISMATCH | PRICE_SPEC_MISMATCH | PRICE_TRADE_VALUE_MISMATCH
    | PRICE_OBSERVATION_MISSING | DELIVERY_INSPECTION_REQUIRED | TRADE_NOT_COMPLETED

  /** Done with new tables; `again` marks a retry answered from what is already there. */
  datatype Outcome = Done(after: Domain, again: bool) | Refused(code: Code)

  // ---- reading ----

  const REQUIRED: seq<EvidenceKind> := [COA, SDS, TDS, LOT_TRACE, INVENTORY_PROOF]

  predicate CurrentEvidence(e: EvidenceRow, lot: LotId, kind: EvidenceKind, now: Instant) {
    e.lot == lot && e.kind == kind && e.state == VALID && (e.expiresAt.Some? ==> e.expiresAt.value >= now)
  }

  predicate HasCurrent(evidences: map<EvidenceId, EvidenceRow>, lot: LotId, kind: EvidenceKind, now: Instant) {
    exists e :: e in evidences && CurrentEvidence(evidences[e], lot, kind, now)
  }

  /** All five kinds are covered by a valid, unexpired document. */
  predicate EvidenceComplete(evidences: map<EvidenceId, EvidenceRow>, lot: LotId, now: Instant) {
    forall i :: 0 <= i < |REQUIRED| ==> HasCurrent(evidences, lot, REQUIRED[i], now)
  }

  predicate Tradable(s: OrderState) {
    s == SUBMITTED || s == COUNTERED || s == PARTIALLY_ACCEPTED || s == ACCEPTED
  }

  predicate OpenOrder(s: OrderState) {
    s == SUBMITTED || s == COUNTERED
  }

  predicate Dealable(s: LotState) {
    s == VERIFIED_ELIGIBLE || s == RESERVED
  }

  /** The first reservation row of an order on a lot, or the number of rows. */
  function PairAt(rows: seq<ReservationRow>, order: OrderId, lot: LotId): (i: nat)
    ensures i <= |rows|
    ensures i < |rows| ==> rows[i].order == order && rows[i].lot == lot
    ensures forall j :: 0 <= j < i ==> !(rows[j].order == order && rows[j].lot == lot)
  {
    if rows == [] then 0
    else if rows[0].order == order && rows[0].lot == lot then 0
    else 1 + PairAt(rows[1..], order, lot)
  }

  /** The first active one. */
  function ActiveAt(rows: seq<ReservationRow>, order: OrderId, lot: LotId): (i: nat)
    ensures i <= |rows|
    ensures i < |rows| ==> rows[i].order == order && rows[i].lot == lot && rows[i].state == ACTIVE
    ensures forall j :: 0 <= j < i ==> !(rows[j].order == order && rows[j].lot == lot && rows[j].state == ACTIVE)
  {
    if rows == [] then 0
    else if rows[0].order == order && rows[0].lot == lot && rows[0].state == ACTIVE then 0
    else 1 + ActiveAt(rows[1..], order, lot)
  }

  /** The trade joined with its order and its reservation. */
  predicate Joined(d: Domain, trade: TradeId) {
    trade in d.trades && d.trades[trade].order in d.orders
    && PairAt(d.reservations, d.trades[trade].order, d.trades[trade].lot) < |d.reservations|
  }

  function ReservationOf(d: Domain, trade: TradeId): nat
    requires trade in d.trades
  {
    PairAt(d.reservations, d.trades[trade].order, d.trades[trade].lot)
  }

  // ---- lots and evidence ----

  predicate DocumentsComplete(documents: seq<Document>) {
    |documents| == |REQUIRED| && forall i :: 0 <= i < |REQUIRED| ==> documents[i].kind == REQUIRED[i]
  }

  predicate FreshDocuments(documents: seq<Document>, evidences: map<EvidenceId, EvidenceRow>) {
    (forall i :: 0 <= i < |documents| ==> documents[i].id !in evidences)
    && (forall i, j :: 0 <= i < j < |documents| ==> documents[i].id != documents[j].id)
  }

  function Filed(evidences: map<EvidenceId, EvidenceRow>, lot: LotId, documents: seq<Document>): map<EvidenceId, EvidenceRow> {
    if documents == [] then evidences
    else
      var last := documents[|documents| - 1];
      Filed(evidences, lot, documents[..|documents| - 1])[last.id := EvidenceRow(lot, last.kind, PENDING, last.expiresAt, 0)]
  }

  function RegisterLotDraftStep(d: Domain, r: LotDraft): Outcome {
    if r.total <= 0 || r.ask <= 0 || r.deliveryDays < 0 then Refused(INVALID_NUMBER)
    else if !DocumentsComplete(r.documents) then Refused(DOCUMENTS_REQUIRED)
    else if !r.member then Refused(MEMBERSHIP_REQUIRED)
    else if !r.specApproved then Refused(SPECIFICATION_REFUSED)
    else if r.lot in d.lots then Refused(LOT_ALREADY_EXISTS)
    else if !FreshDocuments(r.documents, d.evidences) then Refused(UNIQUE_VIOLATED)
    else
      var row := LotRow(r.supplier, r.spec, PENDING_VERIFICATION, r.total, r.total, 0, r.ask, r.deliveryDays);
      Done(d.(lots := d.lots[r.lot := row], evidences := Filed(d.evidences, r.lot, r.documents)), false)
  }

  function Promoted(lots: map<LotId, LotRow>, lot: LotId): map<LotId, LotRow> {
    if lot in lots && lots[lot].state == PENDING_VERIFICATION then lots[lot := lots[lot].(state := VERIFIED_ELIGIBLE)] else lots
  }

  function ReviewEvidenceStep(d: Domain, r: EvidenceReview): Outcome {
    var decision := if r.valid then VALID else REJECTED_EVIDENCE;
    if !r.member then Refused(MEMBERSHIP_REQUIRED)
    else if r.evidence !in d.evidences then Refused(EVIDENCE_NOT_FOUND)
    else
      var e := d.evidences[r.evidence];
      if e.state != PENDING then
        if e.state == decision && e.reviewer == r.reviewer then Done(d, true) else Refused(EVIDENCE_REVIEW_RETRY_MISMATCH)
      else
        var evidences := d.evidences[r.evidence := e.(state := decision, reviewer := r.reviewer)];
        Done(d.(evidences := evidences,
                lots := if r.valid && EvidenceComplete(evidences, e.lot, r.now) then Promoted(d.lots, e.lot) else d.lots), false)
  }

  // ---- orders ----

  predicate SameOrder(o: OrderRow, r: OrderForm) {
    o.spec == r.spec && o.bid == r.bid && o.requested == r.requested && o.deadline == r.deadline && o.partialFill == r.partialFill
  }

  function SubmitOrderStep(d: Domain, r: OrderForm): Outcome {
    if r.bid <= 0 || r.requested <= 0 then Refused(INVALID_NUMBER)
    else if !r.member then Refused(MEMBERSHIP_REQUIRED)
    else if !r.specApproved then Refused(SPECIFICATION_REFUSED)
    else if r.idempotencyKey.Some? && (r.buyer, r.idempotencyKey.value) in d.orderByKey then
      var known := d.orderByKey[(r.buyer, r.idempotencyKey.value)];
      if known in d.orders && SameOrder(d.orders[known], r) then Done(d, true) else Refused(IDEMPOTENCY_KEY_REUSED)
    else if r.freshOrder in d.orders then Refused(UNIQUE_VIOLATED)
    else
      var row := OrderRow(r.buyer, r.spec, SUBMITTED, r.bid, r.requested, r.deadline, r.partialFill, r.expiresAt, None);
      Done(d.(orders := d.orders[r.freshOrder := row],
              orderByKey := if r.idempotencyKey.Some? then d.orderByKey[(r.buyer, r.idempotencyKey.value) := r.freshOrder]
                            else d.orderByKey), false)
  }

  function WithOrderState(d: Domain, order: OrderId, s: OrderState): Domain
    requires order in d.orders
  {
    d.(orders := d.orders[order := d.orders[order].(state := s)])
  }

  function CounterOrderStep(d: Domain, r: CounterForm): Outcome {
    var c := r.counter;
    if c.price <= 0 || c.quantity <= 0 then Refused(INVALID_NUMBER)
    else if !r.member then Refused(MEMBERSHIP_REQUIRED)
    else if r.order !in d.orders then Refused(ORDER_NOT_FOUND)
    else
      var o := d.orders[r.order];
      if o.state == COUNTERED then if o.counter == Some(c) then Done(d, true) else Refused(COUNTER_RETRY_MISMATCH)
      else if o.state != SUBMITTED then Refused(ORDER_STATE_INVALID)
      else if c.quantity > o.requested then Refused(INVALID_COUNTER_QUANTITY)
      else if c.lot !in d.lots then Refused(LOT_NOT_FOUND)
      else if d.lots[c.lot].supplier != c.supplier || d.lots[c.lot].spec != o.spec then Refused(COUNTER_LOT_MISMATCH)
      else if !r.termsMatch then Refused(TRADE_PAPERS_MISMATCH)
      else if !Dealable(d.lots[c.lot].state) || d.lots[c.lot].available < c.quantity || d.lots[c.lot].deliveryDays > c.deliveryDays
      then Refused(NO_ELIGIBLE_COUNTER_OFFER)
      else Done(d.(orders := d.orders[r.order := o.(state := COUNTERED, counter := Some(c))]), false)
  }

  function RejectOrderStep(d: Domain, order: OrderId, member: bool): Outcome {
    if !member then Refused(MEMBERSHIP_REQUIRED)
    else if order !in d.orders then Refused(ORDER_NOT_FOUND)
    else if d.orders[order].state == REJECTED then Done(d, true)
    else if !OpenOrder(d.orders[order].state) then Refused(ORDER_STATE_INVALID)
    else Done(WithOrderState(d, order, REJECTED), false)
  }

  function ExpireOrderStep(d: Domain, order: OrderId, now: Instant): Outcome {
    if order !in d.orders then Refused(ORDER_NOT_FOUND)
    else
      var o := d.orders[order];
      if o.state == LAPSED then Done(d, true)
      else if o.expiresAt.None? || o.expiresAt.value > now then Refused(ORDER_NOT_EXPIRED)
      else if !OpenOrder(o.state) then Refused(ORDER_STATE_INVALID)
      else Done(WithOrderState(d, order, LAPSED), false)
  }

  // ---- reservations and trades ----

  function ReserveInventoryStep(d: Domain, r: Reservation): Outcome {
    if r.quantity <= 0 then Refused(INVALID_NUMBER)
    else if r.order !in d.orders then Refused(ORDER_NOT_FOUND)
    else if !Tradable(d.orders[r.order].state) then Refused(ORDER_STATE_INVALID)
    else
      var (t, a) := Reserve(TablesOf(d), d.orders.Keys, Call(r.order, r.lot, r.quantity, r.key, r.freshReservation));
      if a.Raised? then Refused(RESERVATION_REFUSED(a.refusal))
      else Done(d.(lots := t.lots, reservations := t.reservations), false)
  }

  /** Inserts the trade and closes its order. */
  function WithTrade(d: Domain, id: TradeId, t: TradeRow): Domain
    requires t.order in d.orders
  {
    WithOrderState(d, t.order, TRADE_CONFIRMED).(
      trades := d.trades[id := t], tradeByPair := d.tradeByPair[(t.order, t.lot) := id])
  }

  function ConfirmTradeStep(d: Domain, r: Confirmation): Outcome {
    if r.price <= 0 || r.quantity <= 0 then Refused(INVALID_NUMBER)
    else if !r.member then Refused(MEMBERSHIP_REQUIRED)
    else if r.order !in d.orders then Refused(ORDER_NOT_FOUND)
    else if d.orders[r.order].buyer != r.buyer then Refused(BUYER_ORGANIZATION_MISMATCH)
    else if !Tradable(d.orders[r.order].state) then Refused(ORDER_STATE_INVALID)
    else if !r.papersMatch then Refused(TRADE_PAPERS_MISMATCH)
    else if r.lot !in d.lots then Refused(LOT_NOT_FOUND)
    else if d.lots[r.lot].spec != d.orders[r.order].spec then Refused(LOT_SPEC_MISMATCH)
    else if d.lots[r.lot].supplier != r.supplier then Refused(SUPPLIER_ORGANIZATION_MISMATCH)
    else if !r.lotTermsMatch then Refused(TRADE_PAPERS_MISMATCH)
    else if !Dealable(d.lots[r.lot].state) then Refused(LOT_STATE_INVALID)
    else if !EvidenceComplete(d.evidences, r.lot, r.now) then Refused(PRETRADE_EVIDENCE_REQUIRED)
    else
      var at := ActiveAt(d.reservations, r.order, r.lot);
      if at == |d.reservations| || d.reservations[at].quantity < r.quantity then Refused(RESERVATION_REQUIRED)
      else if (r.order, r.lot) in d.tradeByPair || r.freshTrade in d.trades then Refused(UNIQUE_VIOLATED)
      else Done(WithTrade(d, r.freshTrade, TradeRow(r.order, r.lot, r.supplier, r.buyer, CONFIRMED, r.price, r.quantity)), false)
  }

  function AcceptOrderStep(d: Domain, r: Acceptance): Outcome {
    if r.quantity <= 0 then Refused(INVALID_NUMBER)
    else if !r.member then Refused(MEMBERSHIP_REQUIRED)
    else if r.order !in d.orders then Refused(ORDER_NOT_FOUND)
    else if r.quantity > d.orders[r.order].requested then Refused(INVALID_ACCEPTED_QUANTITY)
    else if !r.buyerActive then Refused(MEMBERSHIP_REQUIRED)
    else if (r.order, r.lot) in d.tradeByPair then AcceptAgain(d, r)
    else if !OpenOrder(d.orders[r.order].state) then Refused(ORDER_STATE_INVALID)
    else if !r.specMatches then Refused(SPECIFICATION_REFUSED)
    else if r.lot !in d.lots then Refused(LOT_NOT_FOUND)
    else if d.lots[r.lot].supplier != r.supplier then Refused(SUPPLIER_ORGANIZATION_MISMATCH)
    else if d.lots[r.lot].spec != d.orders[r.order].spec then Refused(LOT_SPEC_MISMATCH)
    else if !r.termsMatch then Refused(TRADE_PAPERS_MISMATCH)
    else if !Dealable(d.lots[r.lot].state) then Refused(LOT_STATE_INVALID)
    else if !EvidenceComplete(d.evidences, r.lot, r.now) then Refused(PRETRADE_EVIDENCE_REQUIRED)
    else
      var (t, a) := Reserve(TablesOf(d), d.orders.Keys, Call(r.order, r.lot, r.quantity, r.key, r.freshReservation));
      if a.Raised? then Refused(RESERVATION_REFUSED(a.refusal))
      else if !r.snapshotMatches then Refused(SPEC_SNAPSHOT_MISMATCH)
      else if r.freshTrade in d.trades then Refused(UNIQUE_VIOLATED)
      else
        var o := d.orders[r.order];
        Done(WithTrade(d.(lots := t.lots, reservations := t.reservations), r.freshTrade,
                       TradeRow(r.order, r.lot, r.supplier, o.buyer, CONFIRMED, o.bid, r.quantity)), false)
  }

  /** The order is already traded on this lot: the same acceptance again, or a mismatch. */
  function AcceptAgain(d: Domain, r: Acceptance): Outcome
    requires r.order in d.orders && (r.order, r.lot) in d.tradeByPair
  {
    var id := d.tradeByPair[(r.order, r.lot)];
    if id in d.trades && d.trades[id].supplier == r.supplier && d.trades[id].quantity == r.quantity
       && d.trades[id].price == d.orders[r.order].bid
    then Done(d, true) else Refused(ACCEPT_RETRY_MISMATCH)
  }

  // ---- delivery, inspection, price ----

  function WithTradeState(d: Domain, trade: TradeId, s: TradeState): Domain
    requires trade in d.trades
  {
    d.(trades := d.trades[trade := d.trades[trade].(state := s)])
  }

  function WithLotState(d: Domain, lot: LotId, s: LotState): Domain {
    if lot in d.lots then d.(lots := d.lots[lot := d.lots[lot].(state := s)]) else d
  }

  function MarkDeliveredStep(d: Domain, r: Delivery): Outcome {
    if !r.member then Refused(MEMBERSHIP_REQUIRED)
    else if !Joined(d, r.trade) then Refused(TRADE_NOT_FOUND)
    else
      var t := d.trades[r.trade];
      if t.supplier != r.supplier then Refused(SUPPLIER_ORGANIZATION_MISMATCH)
      else if t.state != CONFIRMED then Done(d, true)
      else if d.reservations[ReservationOf(d, r.trade)].state != ACTIVE then Refused(INVALID_DELIVERY_STATE)
      else Done(WithLotState(WithTradeState(d, r.trade, HANDED_OVER), t.lot, DELIVERED), false)
  }

  function Verdict(specMatch: bool, qualityPass: bool): TradeState {
    if specMatch && qualityPass then COMPLETED else IN_DISPUTE
  }

  /** The trade, its reservation and its inspection after a verdict. */
  function Judged(d: Domain, trade: TradeId, specMatch: bool, qualityPass: bool): Domain
    requires Joined(d, trade)
  {
    var s := Verdict(specMatch, qualityPass);
    var at := ReservationOf(d, trade);
    var row := d.reservations[at].(state := if s == COMPLETED then CONSUMED else DISPUTED_RESERVATION);
    d.(trades := d.trades[trade := d.trades[trade].(state := s)],
       reservations := d.reservations[at := row],
       inspections := d.inspections[trade := InspectionRow(row.id, specMatch, qualityPass, s)])
  }

  /** All that an inspection writes; a passed lot becomes INSPECTED even if stock remains. */
  function Inspected(d: Domain, trade: TradeId, specMatch: bool, qualityPass: bool): Domain
    requires Joined(d, trade)
  {
    WithLotState(Judged(d, trade, specMatch, qualityPass), d.trades[trade].lot,
                 if Verdict(specMatch, qualityPass) == COMPLETED then INSPECTED else QUARANTINED)
  }

  predicate Closed(s: TradeState) {
    s == COMPLETED || s == IN_DISPUTE
  }

  /** A retry on a closed trade must repeat the recorded verdict. */
  function RetryRefusal(d: Domain, trade: TradeId, specMatch: bool, qualityPass: bool): (c: Option<Code>) {
    if trade !in d.inspections then Some(INSPECTION_LEDGER_INCONSISTENT)
    else if d.inspections[trade].specMatch != specMatch || d.inspections[trade].qualityPass != qualityPass
    then Some(INSPECTION_RETRY_MISMATCH)
    else None
  }

  function InspectTradeStep(d: Domain, r: Inspection): Outcome {
    if !r.member then Refused(MEMBERSHIP_REQUIRED)
    else if !Joined(d, r.trade) then Refused(TRADE_NOT_FOUND)
    else if Closed(d.trades[r.trade].state) then
      var refusal := RetryRefusal(d, r.trade, r.specMatch, r.qualityPass);
      if refusal.Some? then Refused(refusal.value) else Done(d, true)
    else Done(Inspected(d, r.trade, r.specMatch, r.qualityPass), false)
  }

  function Or<T>(given: Option<T>, default: T): T {
    if given.Some? then given.value else default
  }

  /** The price a caller repeats must be the trade's. */
  function PriceRefusal(t: TradeRow, price: int, quantity: int): (c: Option<Code>) {
    if price <= 0 || quantity <= 0 then Some(INVALID_NUMBER)
    else if t.price != price || t.quantity != quantity then Some(PRICE_TRADE_VALUE_MISMATCH)
    else None
  }

  /** Insert, or nothing when the id is taken. */
  function WithObservation(d: Domain, id: ObservationId, row: ObservationRow): Domain {
    if id in d.observations then d else d.(observations := d.observations[id := row])
  }

  function InspectAndRecordStep(d: Domain, r: Inspection, p: PriceForm): Outcome {
    if !r.member then Refused(MEMBERSHIP_REQUIRED)
    else if !Joined(d, r.trade) then Refused(TRADE_NOT_FOUND)
    else if Closed(d.trades[r.trade].state) then InspectAgain(d, r, p)
    else if !p.termsMatch then Refused(TRADE_PAPERS_MISMATCH)
    else Concluded(d, r, p)
  }

  /** The verdict on an open trade, and the price of a passed one; a refused price rolls back both. */
  function Concluded(d: Domain, r: Inspection, p: PriceForm): Outcome
    requires Joined(d, r.trade)
  {
    var t := d.trades[r.trade];
    var after := Inspected(d, r.trade, r.specMatch, r.qualityPass);
    if Verdict(r.specMatch, r.qualityPass) != COMPLETED then Done(after, false)
    else
      var price, quantity := Or(p.price, t.price), Or(p.quantity, t.quantity);
      var refusal := PriceRefusal(t, price, quantity);
      if refusal.Some? then Refused(refusal.value)
      else Done(WithObservation(after, Or(p.observation, OfTrade(r.trade)),
                                ObservationRow(r.trade, Or(p.spec, d.orders[t.order].spec), price, quantity)), false)
  }

  function InspectAgain(d: Domain, r: Inspection, p: PriceForm): Outcome
    requires Joined(d, r.trade)
  {
    var t := d.trades[r.trade];
    var refusal := RetryRefusal(d, r.trade, r.specMatch, r.qualityPass);
    if refusal.Some? then Refused(refusal.value)
    else if t.state == IN_DISPUTE then Done(d, true)
    else if Or(p.spec, d.orders[t.order].spec) != d.orders[t.order].spec then Refused(PRICE_SPEC_MISMATCH)
    else
      var price := PriceRefusal(t, Or(p.price, t.price), Or(p.quantity, t.quantity));
      if price.Some? then Refused(price.value)
      else
        var id := Or(p.observation, OfTrade(r.trade));
        if id !in d.observations || d.observations[id].trade != r.trade then Refused(PRICE_OBSERVATION_MISSING) else Done(d, true)
  }

  /** A retry answers or is refused, and leaves the ledger as it was. */
  lemma AgainChangesNothing(d: Domain, x: Inspection, p: PriceForm)
    requires Joined(d, x.trade)
    ensures InspectAgain(d, x, p).Done? ==> InspectAgain(d, x, p).after == d
  {
    hide RetryRefusal;
    hide PriceRefusal;
  }

  function RecordPriceStep(d: Domain, r: PriceRecord): Outcome {
    if r.price <= 0 || r.quantity <= 0 then Refused(INVALID_NUMBER)
    else if !r.inspected then Refused(DELIVERY_INSPECTION_REQUIRED)
    else if r.trade !in d.trades || d.trades[r.trade].order !in d.orders then Refused(TRADE_NOT_FOUND)
    else
      var t := d.trades[r.trade];
      if t.state != COMPLETED then Refused(TRADE_NOT_COMPLETED)
      else if d.orders[t.order].spec != r.spec then Refused(PRICE_SPEC_MISMATCH)
      else if !r.termsMatch then Refused(TRADE_PAPERS_MISMATCH)
      else
        var refusal := PriceRefusal(t, r.price, r.quantity);
        if refusal.Some? then Refused(refusal.value)
        else
          var id := Or(r.observation, OfTrade(r.trade));
          Done(WithObservation(d, id, ObservationRow(r.trade, r.spec, r.price, r.quantity)), id in d.observations)
  }

  // ---- runs ----

  function Handle(d: Domain, r: Request): Outcome {
    match r
    case RegisterLotDraft(x) => RegisterLotDraftStep(d, x)
    case ReviewEvidence(x) => ReviewEvidenceStep(d, x)
    case SubmitOrder(x) => SubmitOrderStep(d, x)
    case ReserveInventory(x) => ReserveInventoryStep(d, x)
    case ConfirmTrade(x) => ConfirmTradeStep(d, x)
    case AcceptOrder(x) => AcceptOrderStep(d, x)
    case CounterOrder(x) => CounterOrderStep(d, x)
    case RejectOrder(order, member) => RejectOrderStep(d, order, member)
    case ExpireOrder(order, now) => ExpireOrderStep(d, order, now)
    case MarkDelivered(x) => MarkDeliveredStep(d, x)
    case InspectTrade(x) => InspectTradeStep(d, x)
    case InspectAndRecord(x, p) => InspectAndRecordStep(d, x, p)
    case RecordPrice(x) => RecordPriceStep(d, x)
  }

  /** The tables after a request; a refusal rolls back. */
  function After(d: Domain, r: Request): Domain {
    match Handle(d, r)
    case Done(d', _) => d'
    case Refused(_) => d
  }

  function Run(d: Domain, requests: seq<Request>): Domain {
    if requests == [] then d else After(Run(d, requests[..|requests| - 1]), requests[|requests| - 1])
  }
}
