/** The adapter as the class it is: every method runs one transaction on the tables, row by
    row, and a refusal after the first write rolls back.  Each method's contract ties the
    new tables and the answer to the step of module DomainLedger. */
module DomainAdapter {
  import opened Wrappers
  import opened ReserveLot
  import opened DomainLedger

  /** What the caller is told. */
  datatype Reply = Committed(again: bool) | RolledBack(code: Code)

  function ReplyOf(o: Outcome): Reply {
    match o
    case Done(_, again) => Committed(again)
    case Refused(code) => RolledBack(code)
  }

  class PostgresDomainAdapter {
    var lots: map<LotId, LotRow>
    var reservations: seq<ReservationRow>
    var orders: map<OrderId, OrderRow>
    var orderByKey: map<(nat, string), OrderId>
    var trades: map<TradeId, TradeRow>
    var tradeByPair: map<(OrderId, LotId), TradeId>
    var inspections: map<TradeId, InspectionRow>
    var observations: map<ObservationId, ObservationRow>
    var evidences: map<EvidenceId, EvidenceRow>

    constructor ()
      ensures Tables() == EMPTY
    {
      lots, reservations, orders, orderByKey, trades := map[], [], map[], map[], map[];
      tradeByPair, inspections, observations, evidences := map[], map[], map[], map[];
    }

    function Tables(): Domain
      reads this
    {
      Domain(lots, reservations, orders, orderByKey, trades, tradeByPair, inspections, observations, evidences)
    }

    method RegisterLotDraft(r: LotDraft) returns (reply: Reply)
      modifies this
      ensures Tables() == After(old(Tables()), Request.RegisterLotDraft(r))
      ensures reply == ReplyOf(Handle(old(Tables()), Request.RegisterLotDraft(r)))
    {
      hide DocumentsComplete;
      hide FreshDocuments;
      if r.total <= 0 || r.ask <= 0 || r.deliveryDays < 0 { return RolledBack(INVALID_NUMBER); }
      if !DocumentsComplete(r.documents) { return RolledBack(DOCUMENTS_REQUIRED); }
      if !r.member { return RolledBack(MEMBERSHIP_REQUIRED); }
      if !r.specApproved { return RolledBack(SPECIFICATION_REFUSED); }
      if r.lot in lots { return RolledBack(LOT_ALREADY_EXISTS); }
      lots := lots[r.lot := LotRow(r.supplier, r.spec, PENDING_VERIFICATION, r.total, r.total, 0, r.ask, r.deliveryDays)];
      var unused := FreshDocuments(r.documents, evidences);
      if !unused {
        lots := lots - {r.lot};
        assert lots == old(lots);
        return RolledBack(UNIQUE_VIOLATED);
      }
      for i := 0 to |r.documents|
        invariant evidences == Filed(old(evidences), r.lot, r.documents[..i])
        modifies `evidences
      {
        var doc := r.documents[i];
        evidences := evidences[doc.id := EvidenceRow(r.lot, doc.kind, PENDING, doc.expiresAt, 0)];
        assert r.documents[..i + 1][..i] == r.documents[..i];
      }
      assert r.documents[..|r.documents|] == r.documents;
      return Committed(false);
    }

    method ReviewEvidence(r: EvidenceReview) returns (reply: Reply)
      modifies this
      ensures Tables() == After(old(Tables()), Request.ReviewEvidence(r))
      ensures reply == ReplyOf(Handle(old(Tables()), Request.ReviewEvidence(r)))
    {
      if !r.member { return RolledBack(MEMBERSHIP_REQUIRED); }
      if r.evidence !in evidences { return RolledBack(EVIDENCE_NOT_FOUND); }
      var row := evidences[r.evidence];
      var decision := if r.valid then VALID else REJECTED_EVIDENCE;
      if row.state != PENDING {
        if row.state == decision && row.reviewer == r.reviewer { return Committed(true); }
        return RolledBack(EVIDENCE_REVIEW_RETRY_MISMATCH);
      }
      evidences := evidences[r.evidence := row.(state := decision, reviewer := r.reviewer)];
      if r.valid {
        var complete := EvidenceComplete(evidences, row.lot, r.now);
        if complete && row.lot in lots && lots[row.lot].state == PENDING_VERIFICATION {
          lots := lots[row.lot := lots[row.lot].(state := VERIFIED_ELIGIBLE)];
        }
      }
      return Committed(false);
    }

    method SubmitOrder(r: OrderForm) returns (reply: Reply)
      modifies this
      ensures Tables() == After(old(Tables()), Request.SubmitOrder(r))
      ensures reply == ReplyOf(Handle(old(Tables()), Request.SubmitOrder(r)))
    {
      if r.bid <= 0 || r.requested <= 0 { return RolledBack(INVALID_NUMBER); }
      if !r.member { return RolledBack(MEMBERSHIP_REQUIRED); }
      if !r.specApproved { return RolledBack(SPECIFICATION_REFUSED); }
      if r.idempotencyKey.Some? && (r.buyer, r.idempotencyKey.value) in orderByKey {
        var known := orderByKey[(r.buyer, r.idempotencyKey.value)];
        if known in orders && SameOrder(orders[known], r) { return Committed(true); }
        return RolledBack(IDEMPOTENCY_KEY_REUSED);
      }
      if r.freshOrder in orders { return RolledBack(UNIQUE_VIOLATED); }
      orders := orders[r.freshOrder := OrderRow(r.buyer, r.spec, SUBMITTED, r.bid, r.requested, r.deadline, r.partialFill,
                                                r.expiresAt, None)];
      if r.idempotencyKey.Some? {
        orderByKey := orderByKey[(r.buyer, r.idempotencyKey.value) := r.freshOrder];
      }
      return Committed(false);
    }

    /** `reserve_lot` inside the adapter's transaction. */
    method CallReserveLot(c: Call) returns (a: Answer)
      modifies `lots, `reservations
      ensures (ReserveLot.Tables.Tables(lots, reservations), a)
           == Reserve(ReserveLot.Tables.Tables(old(lots), old(reservations)), orders.Keys, c)
    {
      var ledger := new LotLedger(lots, reservations, orders.Keys);
      a := ledger.ReserveLot(c);
      lots, reservations := ledger.lots, ledger.reservations;
    }

    method ReserveInventory(r: Reservation) returns (reply: Reply)
      modifies this
      ensures Tables() == After(old(Tables()), Request.ReserveInventory(r))
      ensures reply == ReplyOf(Handle(old(Tables()), Request.ReserveInventory(r)))
    {
      if r.quantity <= 0 { return RolledBack(INVALID_NUMBER); }
      if r.order !in orders { return RolledBack(ORDER_NOT_FOUND); }
      if !Tradable(orders[r.order].state) { return RolledBack(ORDER_STATE_INVALID); }
      var a := CallReserveLot(Call(r.order, r.lot, r.quantity, r.key, r.freshReservation));
      if a.Raised? { return RolledBack(RESERVATION_REFUSED(a.refusal)); }
      return Committed(false);
    }

    /** Inserts the trade and closes its order. */
    method InsertTrade(id: TradeId, t: TradeRow)
      requires t.order in orders
      modifies `trades, `tradeByPair, `orders
      ensures Tables() == WithTrade(old(Tables()), id, t)
    {
      trades := trades[id := t];
      tradeByPair := tradeByPair[(t.order, t.lot) := id];
      orders := orders[t.order := orders[t.order].(state := TRADE_CONFIRMED)];
    }

    method ConfirmTrade(r: Confirmation) returns (reply: Reply)
      modifies this
      ensures Tables() == After(old(Tables()), Request.ConfirmTrade(r))
      ensures reply == ReplyOf(Handle(old(Tables()), Request.ConfirmTrade(r)))
    {
      if r.price <= 0 || r.quantity <= 0 { return RolledBack(INVALID_NUMBER); }
      if !r.member { return RolledBack(MEMBERSHIP_REQUIRED); }
      if r.order !in orders { return RolledBack(ORDER_NOT_FOUND); }
      var order := orders[r.order];
      if order.buyer != r.buyer { return RolledBack(BUYER_ORGANIZATION_MISMATCH); }
      if !Tradable(order.state) { return RolledBack(ORDER_STATE_INVALID); }
      if !r.papersMatch { return RolledBack(TRADE_PAPERS_MISMATCH); }
      if r.lot !in lots { return RolledBack(LOT_NOT_FOUND); }
      var lot := lots[r.lot];
      if lot.spec != order.spec { return RolledBack(LOT_SPEC_MISMATCH); }
      if lot.supplier != r.supplier { return RolledBack(SUPPLIER_ORGANIZATION_MISMATCH); }
      if !r.lotTermsMatch { return RolledBack(TRADE_PAPERS_MISMATCH); }
      if !Dealable(lot.state) { return RolledBack(LOT_STATE_INVALID); }
      var complete := EvidenceComplete(evidences, r.lot, r.now);
      if !complete { return RolledBack(PRETRADE_EVIDENCE_REQUIRED); }
      var at := ActiveAt(reservations, r.order, r.lot);
      if at == |reservations| || reservations[at].quantity < r.quantity { return RolledBack(RESERVATION_REQUIRED); }
      if (r.order, r.lot) in tradeByPair || r.freshTrade in trades { return RolledBack(UNIQUE_VIOLATED); }
      InsertTrade(r.freshTrade, TradeRow(r.order, r.lot, r.supplier, r.buyer, CONFIRMED, r.price, r.quantity));
      return Committed(false);
    }

    method AcceptOrder(r: Acceptance) returns (reply: Reply)
      modifies this
      ensures Tables() == After(old(Tables()), Request.AcceptOrder(r))
      ensures reply == ReplyOf(Handle(old(Tables()), Request.AcceptOrder(r)))
    {
      if r.quantity <= 0 { return RolledBack(INVALID_NUMBER); }
      if !r.member { return RolledBack(MEMBERSHIP_REQUIRED); }
      if r.order !in orders { return RolledBack(ORDER_NOT_FOUND); }
      var order := orders[r.order];
      if r.quantity > order.requested { return RolledBack(INVALID_ACCEPTED_QUANTITY); }
      if !r.buyerActive { return RolledBack(MEMBERSHIP_REQUIRED); }
      if (r.order, r.lot) in tradeByPair {
        var id := tradeByPair[(r.order, r.lot)];
        if id in trades && trades[id].supplier == r.supplier && trades[id].quantity == r.quantity && trades[id].price == order.bid {
          return Committed(true);
        }
        return RolledBack(ACCEPT_RETRY_MISMATCH);
      }
      if !OpenOrder(order.state) { return RolledBack(ORDER_STATE_INVALID); }
      if !r.specMatches { return RolledBack(SPECIFICATION_REFUSED); }
      if r.lot !in lots { return RolledBack(LOT_NOT_FOUND); }
      var lot := lots[r.lot];
      if lot.supplier != r.supplier { return RolledBack(SUPPLIER_ORGANIZATION_MISMATCH); }
      if lot.spec != order.spec { return RolledBack(LOT_SPEC_MISMATCH); }
      if !r.termsMatch { return RolledBack(TRADE_PAPERS_MISMATCH); }
      if !Dealable(lot.state) { return RolledBack(LOT_STATE_INVALID); }
      var complete := EvidenceComplete(evidences, r.lot, r.now);
      if !complete { return RolledBack(PRETRADE_EVIDENCE_REQUIRED); }
      var lotsBefore, reservationsBefore := lots, reservations;
      var a := CallReserveLot(Call(r.order, r.lot, r.quantity, r.key, r.freshReservation));
      if a.Raised? { return RolledBack(RESERVATION_REFUSED(a.refusal)); }
      if !r.snapshotMatches || r.freshTrade in trades {
        lots, reservations := lotsBefore, reservationsBefore;
        return RolledBack(if !r.snapshotMatches then SPEC_SNAPSHOT_MISMATCH else UNIQUE_VIOLATED);
      }
      InsertTrade(r.freshTrade, TradeRow(r.order, r.lot, r.supplier, order.buyer, CONFIRMED, order.bid, r.quantity));
      return Committed(false);
    }

    method CounterOrder(r: CounterForm) returns (reply: Reply)
      modifies this
      ensures Tables() == After(old(Tables()), Request.CounterOrder(r))
      ensures reply == ReplyOf(Handle(old(Tables()), Request.CounterOrder(r)))
    {
      var c := r.counter;
      if c.price <= 0 || c.quantity <= 0 { return RolledBack(INVALID_NUMBER); }
      if !r.member { return RolledBack(MEMBERSHIP_REQUIRED); }
      if r.order !in orders { return RolledBack(ORDER_NOT_FOUND); }
      var order := orders[r.order];
      if order.state == COUNTERED {
        if order.counter == Some(c) { return Committed(true); }
        return RolledBack(COUNTER_RETRY_MISMATCH);
      }
      if order.state != SUBMITTED { return RolledBack(ORDER_STATE_INVALID); }
      if c.quantity > order.requested { return RolledBack(INVALID_COUNTER_QUANTITY); }
      if c.lot !in lots { return RolledBack(LOT_NOT_FOUND); }
      var lot := lots[c.lot];
      if lot.supplier != c.supplier || lot.spec != order.spec { return RolledBack(COUNTER_LOT_MISMATCH); }
      if !r.termsMatch { return RolledBack(TRADE_PAPERS_MISMATCH); }
      if !Dealable(lot.state) || lot.available < c.quantity || lot.deliveryDays > c.deliveryDays {
        return RolledBack(NO_ELIGIBLE_COUNTER_OFFER);
      }
      orders := orders[r.order := order.(state := COUNTERED, counter := Some(c))];
      return Committed(false);
    }

    method RejectOrder(order: OrderId, member: bool) returns (reply: Reply)
      modifies this
      ensures Tables() == After(old(Tables()), Request.RejectOrder(order, member))
      ensures reply == ReplyOf(Handle(old(Tables()), Request.RejectOrder(order, member)))
    {
      if !member { return RolledBack(MEMBERSHIP_REQUIRED); }
      if order !in orders { return RolledBack(ORDER_NOT_FOUND); }
      if orders[order].state == REJECTED { return Committed(true); }
      if !OpenOrder(orders[order].state) { return RolledBack(ORDER_STATE_INVALID); }
      orders := orders[order := orders[order].(state := REJECTED)];
      return Committed(false);
    }

    method ExpireOrder(order: OrderId, now: Instant) returns (reply: Reply)
      modifies this
      ensures Tables() == After(old(Tables()), Request.ExpireOrder(order, now))
      ensures reply == ReplyOf(Handle(old(Tables()), Request.ExpireOrder(order, now)))
    {
      if order !in orders { return RolledBack(ORDER_NOT_FOUND); }
      var row := orders[order];
      if row.state == LAPSED { return Committed(true); }
      if row.expiresAt.None? || row.expiresAt.value > now { return RolledBack(ORDER_NOT_EXPIRED); }
      if !OpenOrder(row.state) { return RolledBack(ORDER_STATE_INVALID); }
      orders := orders[order := row.(state := LAPSED)];
      return Committed(false);
    }

    method MarkDelivered(r: Delivery) returns (reply: Reply)
      modifies this
      ensures Tables() == After(old(Tables()), Request.MarkDelivered(r))
      ensures reply == ReplyOf(Handle(old(Tables()), Request.MarkDelivered(r)))
    {
      if !r.member { return RolledBack(MEMBERSHIP_REQUIRED); }
      if !Joined(Tables(), r.trade) { return RolledBack(TRADE_NOT_FOUND); }
      var trade := trades[r.trade];
      if trade.supplier != r.supplier { return RolledBack(SUPPLIER_ORGANIZATION_MISMATCH); }
      if trade.state != CONFIRMED { return Committed(true); }
      if reservations[PairAt(reservations, trade.order, trade.lot)].state != ACTIVE { return RolledBack(INVALID_DELIVERY_STATE); }
      trades := trades[r.trade := trade.(state := HANDED_OVER)];
      if trade.lot in lots {
        lots := lots[trade.lot := lots[trade.lot].(state := DELIVERED)];
      }
      return Committed(false);
    }

    /** The updates of an inspection: trade, reservation, lot, inspection. */
    method WriteInspection(id: TradeId, specMatch: bool, qualityPass: bool)
      requires Joined(Tables(), id)
      modifies `trades, `reservations, `lots, `inspections
      ensures Tables() == Inspected(old(Tables()), id, specMatch, qualityPass)
    {
      var trade := trades[id];
      var at := PairAt(reservations, trade.order, trade.lot);
      var passed := specMatch && qualityPass;
      trades := trades[id := trade.(state := if passed then COMPLETED else IN_DISPUTE)];
      reservations := reservations[at := reservations[at].(state := if passed then CONSUMED else DISPUTED_RESERVATION)];
      if trade.lot in lots {
        lots := lots[trade.lot := lots[trade.lot].(state := if passed then INSPECTED else QUARANTINED)];
      }
      inspections := inspections[id := InspectionRow(reservations[at].id, specMatch, qualityPass, trades[id].state)];
    }

    method InspectTrade(r: Inspection) returns (reply: Reply)
      modifies this
      ensures Tables() == After(old(Tables()), Request.InspectTrade(r))
      ensures reply == ReplyOf(Handle(old(Tables()), Request.InspectTrade(r)))
    {
      if !r.member { return RolledBack(MEMBERSHIP_REQUIRED); }
      if !Joined(Tables(), r.trade) { return RolledBack(TRADE_NOT_FOUND); }
      if Closed(trades[r.trade].state) {
        var refusal := RetryRefusal(Tables(), r.trade, r.specMatch, r.qualityPass);
        return if refusal.Some? then RolledBack(refusal.value) else Committed(true);
      }
      WriteInspection(r.trade, r.specMatch, r.qualityPass);
      return Committed(false);
    }

    /** INSERT ... ON CONFLICT DO NOTHING. */
    method InsertObservation(id: ObservationId, row: ObservationRow)
      modifies `observations
      ensures Tables() == WithObservation(old(Tables()), id, row)
    {
      if id !in observations {
        observations := observations[id := row];
      }
    }

    /** The verdict on an open trade and the price that goes with a passed one. */
    method Conclude(r: Inspection, p: PriceForm) returns (reply: Reply)
      requires Joined(Tables(), r.trade)
      modifies this
      ensures var o := Concluded(old(Tables()), r, p);
              reply == ReplyOf(o) && Tables() == if o.Done? then o.after else old(Tables())
    {
      hide Inspected;
      hide PriceRefusal;
      hide WithObservation;
      var trade := trades[r.trade];
      var tradesBefore, reservationsBefore, lotsBefore, inspectionsBefore := trades, reservations, lots, inspections;
      WriteInspection(r.trade, r.specMatch, r.qualityPass);
      if !(r.specMatch && r.qualityPass) { return Committed(false); }
      var price, quantity := Or(p.price, trade.price), Or(p.quantity, trade.quantity);
      var refusal := PriceRefusal(trade, price, quantity);
      if refusal.Some? {
        trades, reservations, lots, inspections := tradesBefore, reservationsBefore, lotsBefore, inspectionsBefore;
        return RolledBack(refusal.value);
      }
      InsertObservation(Or(p.observation, OfTrade(r.trade)),
                        ObservationRow(r.trade, Or(p.spec, orders[trade.order].spec), price, quantity));
      return Committed(false);
    }

    method InspectTradeAndRecordPrice(r: Inspection, p: PriceForm) returns (reply: Reply)
      modifies this
      ensures Tables() == After(old(Tables()), Request.InspectAndRecord(r, p))
      ensures reply == ReplyOf(Handle(old(Tables()), Request.InspectAndRecord(r, p)))
    {
      hide Concluded;
      hide InspectAgain;
      if !r.member { return RolledBack(MEMBERSHIP_REQUIRED); }
      if !Joined(Tables(), r.trade) { return RolledBack(TRADE_NOT_FOUND); }
      if Closed(trades[r.trade].state) {
        AgainChangesNothing(Tables(), r, p);
        return ReplyOf(InspectAgain(Tables(), r, p));
      }
      if !p.termsMatch { return RolledBack(TRADE_PAPERS_MISMATCH); }
      reply := Conclude(r, p);
    }

    method RecordCompletedTradePrice(r: PriceRecord) returns (reply: Reply)
      modifies this
      ensures Tables() == After(old(Tables()), Request.RecordPrice(r))
      ensures reply == ReplyOf(Handle(old(Tables()), Request.RecordPrice(r)))
    {
      if r.price <= 0 || r.quantity <= 0 { return RolledBack(INVALID_NUMBER); }
      if !r.inspected { return RolledBack(DELIVERY_INSPECTION_REQUIRED); }
      if r.trade !in trades || trades[r.trade].order !in orders { return RolledBack(TRADE_NOT_FOUND); }
      var trade := trades[r.trade];
      if trade.state != COMPLETED { return RolledBack(TRADE_NOT_COMPLETED); }
      if orders[trade.order].spec != r.spec { return RolledBack(PRICE_SPEC_MISMATCH); }
      if !r.termsMatch { return RolledBack(TRADE_PAPERS_MISMATCH); }
      var refusal := PriceRefusal(trade, r.price, r.quantity);
      if refusal.Some? { return RolledBack(refusal.value); }
      var id := Or(r.observation, OfTrade(r.trade));
      var known := id in observations;
      InsertObservation(id, ObservationRow(r.trade, r.spec, r.price, r.quantity));
      return Committed(known);
    }
  }
}
