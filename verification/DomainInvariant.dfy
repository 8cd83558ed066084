/** What every run of the PostgreSQL trade ledger keeps, whatever keys its requests use:
    stock is conserved, a trade closes its order and is its only one, its reservation and
    its inspection are in step with it, and no trade exists without five reviewed documents
    (beta-app/postgres-domain-adapter.mjs). */
module DomainInvariant {
  import opened Wrappers
  import opened ReserveLot
  import opened DomainLedger

  // ---- the parts of the invariant ----

  ghost predicate PairsUnique(rows: seq<ReservationRow>) {
    forall i, j :: 0 <= i < j < |rows| ==> !(rows[i].order == rows[j].order && rows[i].lot == rows[j].lot)
  }

  ghost predicate Matches(t: TradeState, r: ReservationState) {
    match t
    case CONFIRMED => r == ACTIVE
    case HANDED_OVER => r == ACTIVE
    case COMPLETED => r == CONSUMED
    case IN_DISPUTE => r == DISPUTED_RESERVATION
  }

  /** The trade's order is closed by it; a reservation of the pair is in the matching state,
      and a closed trade has one. */
  ghost predicate TradeOk(orders: map<OrderId, OrderRow>, rows: seq<ReservationRow>, t: TradeRow) {
    && t.order in orders && orders[t.order].state == TRADE_CONFIRMED
    && var at := PairAt(rows, t.order, t.lot);
       && (at < |rows| ==> Matches(t.state, rows[at].state))
       && (Closed(t.state) ==> at < |rows|)
  }

  /** Stock is conserved, an order reserves a lot at most once, and a reservation without a
      trade is active. */
  ghost predicate RowsOk(t: Tables, orders: set<OrderId>, traded: set<(OrderId, LotId)>) {
    && Conserved(t)
    && PairsUnique(t.reservations)
    && (forall i :: 0 <= i < |t.reservations| ==> RowOk(t.reservations[i], orders, traded))
  }

  ghost predicate RowOk(row: ReservationRow, orders: set<OrderId>, traded: set<(OrderId, LotId)>) {
    row.order in orders && ((row.order, row.lot) !in traded ==> row.state == ACTIVE)
  }

  ghost predicate IndexOk(trades: map<TradeId, TradeRow>, byPair: map<(OrderId, LotId), TradeId>) {
    && (forall id :: id in trades ==> (trades[id].order, trades[id].lot) in byPair
                                      && byPair[(trades[id].order, trades[id].lot)] == id)
    && (forall p :: p in byPair ==> byPair[p] in trades && (trades[byPair[p]].order, trades[byPair[p]].lot) == p)
  }

  ghost predicate TradesOk(orders: map<OrderId, OrderRow>, rows: seq<ReservationRow>, trades: map<TradeId, TradeRow>) {
    && (forall id :: id in trades ==> TradeOk(orders, rows, trades[id]))
    && (forall a, b :: a in trades && b in trades && trades[a].order == trades[b].order ==> a == b)
  }

  ghost predicate InspectionsOk(trades: map<TradeId, TradeRow>, inspections: map<TradeId, InspectionRow>) {
    && (forall id :: id in inspections <==> id in trades && Closed(trades[id].state))
    && (forall id :: id in inspections ==>
          && inspections[id].state == trades[id].state
          && inspections[id].state == Verdict(inspections[id].specMatch, inspections[id].qualityPass))
  }

  /** A document of the kind was once approved for the lot. */
  ghost predicate Approved(evidences: map<EvidenceId, EvidenceRow>, lot: LotId, kind: EvidenceKind) {
    exists e :: e in evidences && evidences[e].lot == lot && evidences[e].kind == kind && evidences[e].state == VALID
  }

  ghost predicate Reviewed(evidences: map<EvidenceId, EvidenceRow>, lot: LotId) {
    forall i :: 0 <= i < |REQUIRED| ==> Approved(evidences, lot, REQUIRED[i])
  }

  /** Only lots with five approved documents leave verification, and only they are traded. */
  ghost predicate EvidenceOk(lots: map<LotId, LotRow>, trades: map<TradeId, TradeRow>, evidences: map<EvidenceId, EvidenceRow>) {
    && (forall lot :: lot in lots && lots[lot].state != PENDING_VERIFICATION ==> Reviewed(evidences, lot))
    && (forall id :: id in trades ==> Reviewed(evidences, trades[id].lot))
  }

  ghost predicate Inv(d: Domain) {
    && RowsOk(TablesOf(d), d.orders.Keys, d.tradeByPair.Keys)
    && IndexOk(d.trades, d.tradeByPair)
    && TradesOk(d.orders, d.reservations, d.trades)
    && InspectionsOk(d.trades, d.inspections)
    && EvidenceOk(d.lots, d.trades, d.evidences)
  }

  // ---- reservation rows ----

  lemma PairAtIs(rows: seq<ReservationRow>, i: nat)
    requires i < |rows| && PairsUnique(rows)
    ensures PairAt(rows, rows[i].order, rows[i].lot) == i
  {
  }

  /** What reserving does: nothing to the rows, or one new active row at the end; and no
      lot enters or leaves verification. */
  lemma ReserveRows(t: Tables, orders: set<OrderId>, c: Call)
    ensures var (t', a) := Reserve(t, orders, c);
            && (t'.reservations == t.reservations
                || (&& a.Returned? && t'.reservations == t.reservations + [NewRow(c)] && c.order in orders
                    && !ActivePair(t.reservations, c.order, c.lot) && !KeyUsed(t.reservations, c.key)))
            && t'.lots.Keys == t.lots.Keys
            && (forall id :: id in t.lots ==> (t'.lots[id].state == PENDING_VERIFICATION <==> t.lots[id].state == PENDING_VERIFICATION))
  {
  }

  /** An order that is not closed by a trade has no trade. */
  lemma NoTradeYet(d: Domain, order: OrderId, lot: LotId)
    requires IndexOk(d.trades, d.tradeByPair) && TradesOk(d.orders, d.reservations, d.trades)
    requires order in d.orders && d.orders[order].state != TRADE_CONFIRMED
    ensures (order, lot) !in d.tradeByPair
    ensures forall id :: id in d.trades ==> d.trades[id].order != order
  {
  }

  /** The tables after a reservation. */
  function AfterReserve(d: Domain, c: Call): Domain {
    var t := Reserve(TablesOf(d), d.orders.Keys, c).0;
    d.(lots := t.lots, reservations := t.reservations)
  }

  lemma ReserveRowsOk(t: Tables, orders: set<OrderId>, traded: set<(OrderId, LotId)>, c: Call)
    requires RowsOk(t, orders, traded) && (c.order, c.lot) !in traded
    ensures RowsOk(Reserve(t, orders, c).0, orders, traded)
  {
    ReserveConserves(t, orders, c);
    ReserveRows(t, orders, c);
    var rows, rows' := t.reservations, Reserve(t, orders, c).0.reservations;
    if rows' != rows {
      forall i | 0 <= i < |rows| ensures !(rows[i].order == c.order && rows[i].lot == c.lot) {
        assert RowOk(rows[i], orders, traded);
        assert !ActivePair(rows, c.order, c.lot);
      }
      assert RowOk(NewRow(c), orders, traded);
    }
  }

  predicate OpenAt(orders: map<OrderId, OrderRow>, order: OrderId) {
    order in orders && orders[order].state != TRADE_CONFIRMED
  }

  /** More rows of other orders leave the reservation of a pair where it was. */
  lemma PairAtMore(rows: seq<ReservationRow>, rows': seq<ReservationRow>, order: OrderId, lot: LotId)
    requires rows <= rows' && forall i :: |rows| <= i < |rows'| ==> rows'[i].order != order
    ensures var at := PairAt(rows, order, lot); PairAt(rows', order, lot) == if at < |rows| then at else |rows'|
  {
    var at, at' := PairAt(rows, order, lot), PairAt(rows', order, lot);
    if at < |rows| { assert rows'[at] == rows[at]; }
    if at' < |rows| { assert rows'[at'] == rows[at']; }
  }

  /** More rows of orders no trade closed leave every trade as it was. */
  lemma TradesSurviveRows(orders: map<OrderId, OrderRow>, rows: seq<ReservationRow>, rows': seq<ReservationRow>,
                          trades: map<TradeId, TradeRow>)
    requires TradesOk(orders, rows, trades) && rows <= rows'
    requires forall i :: |rows| <= i < |rows'| ==> OpenAt(orders, rows'[i].order)
    ensures TradesOk(orders, rows', trades)
  {
    forall id | id in trades ensures TradeOk(orders, rows', trades[id]) {
      assert TradeOk(orders, rows, trades[id]);
      PairAtMore(rows, rows', trades[id].order, trades[id].lot);
    }
  }

  lemma ReserveKeeps(d: Domain, c: Call)
    requires Inv(d) && OpenAt(d.orders, c.order)
    ensures Inv(AfterReserve(d, c))
  {
    NoTradeYet(d, c.order, c.lot);
    ReserveRowsOk(TablesOf(d), d.orders.Keys, d.tradeByPair.Keys, c);
    ReserveRows(TablesOf(d), d.orders.Keys, c);
    TradesSurviveRows(d.orders, d.reservations, AfterReserve(d, c).reservations, d.trades);
  }

  // ---- trades ----

  lemma EvidenceMeansReviewed(evidences: map<EvidenceId, EvidenceRow>, lot: LotId, now: Instant)
    requires EvidenceComplete(evidences, lot, now)
    ensures Reviewed(evidences, lot)
  {
  }

  /** Closing an order by its trade does not disturb the other trades. */
  lemma TradesWithNew(d: Domain, id: TradeId, t: TradeRow)
    requires TradesOk(d.orders, d.reservations, d.trades) && t.order in d.orders
    requires forall a :: a in d.trades ==> d.trades[a].order != t.order
    requires TradeOk(WithTrade(d, id, t).orders, d.reservations, t) && id !in d.trades
    ensures TradesOk(WithTrade(d, id, t).orders, d.reservations, WithTrade(d, id, t).trades)
  {
    var d' := WithTrade(d, id, t);
    forall a | a in d'.trades ensures TradeOk(d'.orders, d.reservations, d'.trades[a]) {
      if a != id { assert TradeOk(d.orders, d.reservations, d.trades[a]); }
    }
  }

  lemma IndexWithNew(trades: map<TradeId, TradeRow>, byPair: map<(OrderId, LotId), TradeId>, id: TradeId, t: TradeRow)
    requires IndexOk(trades, byPair) && id !in trades && (t.order, t.lot) !in byPair
    ensures IndexOk(trades[id := t], byPair[(t.order, t.lot) := id])
  {
  }

  /** More traded pairs ask less of the rows. */
  lemma RowsWithMoreTraded(t: Tables, orders: set<OrderId>, traded: set<(OrderId, LotId)>, traded': set<(OrderId, LotId)>)
    requires RowsOk(t, orders, traded) && traded <= traded'
    ensures RowsOk(t, orders, traded')
  {
  }

  /** A reservation of an order that no trade closes is active. */
  lemma OpenRowMatches(d: Domain, id: TradeId, t: TradeRow)
    requires RowsOk(TablesOf(d), d.orders.Keys, d.tradeByPair.Keys) && (t.order, t.lot) !in d.tradeByPair && t.order in d.orders
    requires t.state == CONFIRMED
    ensures TradeOk(WithTrade(d, id, t).orders, d.reservations, t)
  {
    var at := PairAt(d.reservations, t.order, t.lot);
    if at < |d.reservations| { assert RowOk(d.reservations[at], d.orders.Keys, d.tradeByPair.Keys); }
  }

  /** A new trade on an open order keeps everything. */
  lemma NewTradeKeeps(d: Domain, id: TradeId, t: TradeRow)
    requires Inv(d) && id !in d.trades && OpenAt(d.orders, t.order)
    requires t.state == CONFIRMED && Reviewed(d.evidences, t.lot)
    ensures Inv(WithTrade(d, id, t))
  {
    var d' := WithTrade(d, id, t);
    hide RowsOk;
    hide IndexOk;
    hide TradesOk;
    hide InspectionsOk;
    hide EvidenceOk;
    hide TradeOk;
    NoTradeYet(d, t.order, t.lot);
    EvidenceWithNew(d.lots, d.trades, d.evidences, id, t);
    assert TablesOf(d') == TablesOf(d) && d'.orders.Keys == d.orders.Keys;
    RowsWithMoreTraded(TablesOf(d), d.orders.Keys, d.tradeByPair.Keys, d'.tradeByPair.Keys);
    IndexWithNew(d.trades, d.tradeByPair, id, t);
    OpenRowMatches(d, id, t);
    TradesWithNew(d, id, t);
    InspectionsWithNew(d.trades, d.inspections, id, t);
  }

  lemma EvidenceWithNew(lots: map<LotId, LotRow>, trades: map<TradeId, TradeRow>, evidences: map<EvidenceId, EvidenceRow>,
                        id: TradeId, t: TradeRow)
    requires EvidenceOk(lots, trades, evidences) && Reviewed(evidences, t.lot)
    ensures EvidenceOk(lots, trades[id := t], evidences)
  {
    hide Reviewed;
  }

  lemma InspectionsWithNew(trades: map<TradeId, TradeRow>, inspections: map<TradeId, InspectionRow>, id: TradeId, t: TradeRow)
    requires InspectionsOk(trades, inspections) && id !in trades && t.state == CONFIRMED
    ensures InspectionsOk(trades[id := t], inspections)
  {
  }

  function CallOf(r: Acceptance): Call {
    Call(r.order, r.lot, r.quantity, r.key, r.freshReservation)
  }

  /** What an acceptance that trades does. */
  lemma AcceptedIs(d: Domain, r: Acceptance)
    requires AcceptOrderStep(d, r).Done? && !AcceptOrderStep(d, r).again
    ensures r.order in d.orders && OpenOrder(d.orders[r.order].state) && Reserve(TablesOf(d), d.orders.Keys, CallOf(r)).1.Returned?
    ensures var o := d.orders[r.order];
            AcceptOrderStep(d, r).after
            == WithTrade(AfterReserve(d, CallOf(r)), r.freshTrade,
                         TradeRow(r.order, r.lot, r.supplier, o.buyer, CONFIRMED, o.bid, r.quantity))
  {
    hide Reserve;
    hide EvidenceComplete;
    hide WithTrade;
  }

  lemma AcceptedAgain(d: Domain, r: Acceptance)
    requires AcceptOrderStep(d, r).Done? && AcceptOrderStep(d, r).again
    ensures AcceptOrderStep(d, r).after == d
  {
    hide Reserve;
    hide EvidenceComplete;
  }

  lemma AcceptKeeps(d: Domain, r: Acceptance)
    requires Inv(d) && AcceptOrderStep(d, r).Done?
    ensures Inv(AcceptOrderStep(d, r).after)
  {
    hide Inv;
    if AcceptOrderStep(d, r).again {
      AcceptedAgain(d, r);
    } else {
      AcceptedIs(d, r);
      AcceptedFits(d, r);
      hide AcceptOrderStep;
      ReserveKeeps(d, CallOf(r));
      EvidenceMeansReviewed(d.evidences, r.lot, r.now);
      var o := d.orders[r.order];
      NewTradeKeeps(AfterReserve(d, CallOf(r)), r.freshTrade,
                    TradeRow(r.order, r.lot, r.supplier, o.buyer, CONFIRMED, o.bid, r.quantity));
    }
  }

  lemma AcceptedFits(d: Domain, r: Acceptance)
    requires AcceptOrderStep(d, r).Done? && !AcceptOrderStep(d, r).again
    ensures EvidenceComplete(d.evidences, r.lot, r.now) && r.freshTrade !in d.trades
  {
    hide Reserve;
    hide EvidenceComplete;
  }

  lemma ConfirmKeeps(d: Domain, r: Confirmation)
    requires Inv(d) && ConfirmTradeStep(d, r).Done?
    ensures Inv(ConfirmTradeStep(d, r).after)
  {
    EvidenceMeansReviewed(d.evidences, r.lot, r.now);
    NewTradeKeeps(d, r.freshTrade, ConfirmTradeStep(d, r).after.trades[r.freshTrade]);
  }

  // ---- lots, evidence, orders ----

  /** A lot changing nothing but its state, or a new empty lot, keeps the stock conserved. */
  lemma ConservedWithLot(t: Tables, id: LotId, row: LotRow)
    requires Conserved(t)
    requires if id in t.lots then row == t.lots[id].(state := row.state)
             else row.available == row.total && row.available >= 0 && row.reserved == 0
    ensures Conserved(Tables(t.lots[id := row], t.reservations))
  {
    var t' := Tables(t.lots[id := row], t.reservations);
    if id !in t.lots {
      NothingReserved(t.reservations, id);
    }
    forall k | k in t'.lots ensures LotConserved(t', k) {
      if k in t.lots { assert LotConserved(t, k); }
    }
  }

  lemma {:induction false} NothingReserved(rows: seq<ReservationRow>, lot: LotId)
    requires forall i :: 0 <= i < |rows| ==> rows[i].lot != lot
    ensures SumOn(rows, lot) == 0
  {
    if rows != [] {
      NothingReserved(rows[..|rows| - 1], lot);
    }
  }

  lemma RowsWithLot(t: Tables, orders: set<OrderId>, traded: set<(OrderId, LotId)>, id: LotId, row: LotRow)
    requires RowsOk(t, orders, traded)
    requires if id in t.lots then row == t.lots[id].(state := row.state)
             else row.available == row.total && row.available >= 0 && row.reserved == 0
    ensures RowsOk(Tables(t.lots[id := row], t.reservations), orders, traded)
  {
    ConservedWithLot(t, id, row);
  }

  /** Evidence that only gains approvals keeps every review. */
  lemma ReviewSurvives(old_: map<EvidenceId, EvidenceRow>, new_: map<EvidenceId, EvidenceRow>, lot: LotId)
    requires Reviewed(old_, lot)
    requires forall e :: e in old_ && old_[e].state == VALID ==> e in new_ && new_[e] == old_[e]
    ensures Reviewed(new_, lot)
  {
  }

  lemma {:induction false} FiledKeeps(evidences: map<EvidenceId, EvidenceRow>, lot: LotId, documents: seq<Document>)
    requires forall i :: 0 <= i < |documents| ==> documents[i].id !in evidences
    ensures forall e :: e in evidences ==> e in Filed(evidences, lot, documents) && Filed(evidences, lot, documents)[e] == evidences[e]
  {
    if documents != [] {
      FiledKeeps(evidences, lot, documents[..|documents| - 1]);
    }
  }

  lemma RegisterKeeps(d: Domain, r: LotDraft)
    requires Inv(d) && RegisterLotDraftStep(d, r).Done?
    ensures Inv(RegisterLotDraftStep(d, r).after)
  {
    var row := LotRow(r.supplier, r.spec, PENDING_VERIFICATION, r.total, r.total, 0, r.ask, r.deliveryDays);
    RowsWithLot(TablesOf(d), d.orders.Keys, d.tradeByPair.Keys, r.lot, row);
    FiledKeeps(d.evidences, r.lot, r.documents);
    var evidences := Filed(d.evidences, r.lot, r.documents);
    forall lot | Reviewed(d.evidences, lot) ensures Reviewed(evidences, lot) {
      ReviewSurvives(d.evidences, evidences, lot);
    }
  }

  lemma ReviewKeeps(d: Domain, r: EvidenceReview)
    requires Inv(d) && ReviewEvidenceStep(d, r).Done?
    ensures Inv(ReviewEvidenceStep(d, r).after)
  {
    var d' := ReviewEvidenceStep(d, r).after;
    if d' != d {
      var lot := d.evidences[r.evidence].lot;
      forall l | Reviewed(d.evidences, l) ensures Reviewed(d'.evidences, l) {
        ReviewSurvives(d.evidences, d'.evidences, l);
      }
      if d'.lots != d.lots {
        RowsWithLot(TablesOf(d), d.orders.Keys, d.tradeByPair.Keys, lot, d'.lots[lot]);
        EvidenceMeansReviewed(d'.evidences, lot, r.now);
      }
    }
  }

  /** An order without a trade may appear or change, short of being closed by one. */
  lemma OrderKeeps(d: Domain, id: OrderId, row: OrderRow, byKey: map<(nat, string), OrderId>)
    requires Inv(d) && row.state != TRADE_CONFIRMED
    requires id in d.orders ==> d.orders[id].state != TRADE_CONFIRMED
    ensures Inv(d.(orders := d.orders[id := row], orderByKey := byKey))
  {
    var orders := d.orders[id := row];
    forall t | t in d.trades ensures TradeOk(orders, d.reservations, d.trades[t]) {
      assert TradeOk(d.orders, d.reservations, d.trades[t]);
    }
    RowsWithMoreOrders(TablesOf(d), d.orders.Keys, orders.Keys, d.tradeByPair.Keys);
  }

  lemma RowsWithMoreOrders(t: Tables, orders: set<OrderId>, orders': set<OrderId>, traded: set<(OrderId, LotId)>)
    requires RowsOk(t, orders, traded) && orders <= orders'
    ensures RowsOk(t, orders', traded)
  {
  }

  // ---- delivery and inspection ----

  lemma LotStateKeeps(d: Domain, lot: LotId, s: LotState)
    requires Inv(d) && Reviewed(d.evidences, lot)
    ensures Inv(WithLotState(d, lot, s))
  {
    if lot in d.lots {
      RowsWithLot(TablesOf(d), d.orders.Keys, d.tradeByPair.Keys, lot, d.lots[lot].(state := s));
    }
  }

  /** A trade changing nothing but its state keeps its place in the index and its review. */
  lemma TradeStateOnly(trades: map<TradeId, TradeRow>, byPair: map<(OrderId, LotId), TradeId>,
                       lots: map<LotId, LotRow>, evidences: map<EvidenceId, EvidenceRow>, id: TradeId, s: TradeState)
    requires id in trades && IndexOk(trades, byPair) && EvidenceOk(lots, trades, evidences)
    ensures IndexOk(trades[id := trades[id].(state := s)], byPair)
    ensures EvidenceOk(lots, trades[id := trades[id].(state := s)], evidences)
  {
  }

  lemma TradesHandedOver(orders: map<OrderId, OrderRow>, rows: seq<ReservationRow>, trades: map<TradeId, TradeRow>, id: TradeId)
    requires TradesOk(orders, rows, trades) && id in trades && trades[id].state == CONFIRMED
    ensures TradesOk(orders, rows, trades[id := trades[id].(state := HANDED_OVER)])
  {
  }

  lemma InspectionsHandedOver(trades: map<TradeId, TradeRow>, inspections: map<TradeId, InspectionRow>, id: TradeId)
    requires InspectionsOk(trades, inspections) && id in trades && trades[id].state == CONFIRMED
    ensures InspectionsOk(trades[id := trades[id].(state := HANDED_OVER)], inspections)
  {
  }

  lemma HandedOverKeeps(d: Domain, trade: TradeId)
    requires Inv(d) && trade in d.trades && d.trades[trade].state == CONFIRMED
    ensures Inv(WithTradeState(d, trade, HANDED_OVER))
  {
    hide RowsOk;
    hide IndexOk;
    hide TradesOk;
    hide InspectionsOk;
    hide EvidenceOk;
    TradeStateOnly(d.trades, d.tradeByPair, d.lots, d.evidences, trade, HANDED_OVER);
    TradesHandedOver(d.orders, d.reservations, d.trades, trade);
    InspectionsHandedOver(d.trades, d.inspections, trade);
    assert TablesOf(WithTradeState(d, trade, HANDED_OVER)) == TablesOf(d);
  }

  lemma TradedIsReviewed(d: Domain, trade: TradeId)
    requires Inv(d) && trade in d.trades
    ensures Reviewed(d.evidences, d.trades[trade].lot)
  {
  }

  lemma DeliverKeeps(d: Domain, r: Delivery)
    requires Inv(d) && MarkDeliveredStep(d, r).Done?
    ensures Inv(MarkDeliveredStep(d, r).after)
  {
    hide Inv;
    hide Reviewed;
    if !MarkDeliveredStep(d, r).again {
      HandedOverKeeps(d, r.trade);
      TradedIsReviewed(d, r.trade);
      LotStateKeeps(WithTradeState(d, r.trade, HANDED_OVER), d.trades[r.trade].lot, DELIVERED);
    }
  }

  lemma {:induction false} SumWithState(rows: seq<ReservationRow>, at: nat, s: ReservationState, lot: LotId)
    requires at < |rows|
    ensures SumOn(rows[at := rows[at].(state := s)], lot) == SumOn(rows, lot)
  {
    var rows' := rows[at := rows[at].(state := s)];
    if at == |rows| - 1 {
      assert rows'[..at] == rows[..at];
    } else {
      SumWithState(rows[..|rows| - 1], at, s, lot);
      assert rows'[..|rows| - 1] == rows[..|rows| - 1][at := rows[at].(state := s)];
    }
  }

  lemma {:induction false} PairAtWithState(rows: seq<ReservationRow>, at: nat, s: ReservationState, order: OrderId, lot: LotId)
    requires at < |rows|
    ensures PairAt(rows[at := rows[at].(state := s)], order, lot) == PairAt(rows, order, lot)
  {
    var rows' := rows[at := rows[at].(state := s)];
    if at == 0 {
      assert rows'[1..] == rows[1..];
    } else {
      PairAtWithState(rows[1..], at - 1, s, order, lot);
      assert rows'[1..] == rows[1..][at - 1 := rows[at].(state := s)];
    }
  }

  lemma RowsWithState(t: Tables, orders: set<OrderId>, traded: set<(OrderId, LotId)>, at: nat, s: ReservationState)
    requires RowsOk(t, orders, traded) && at < |t.reservations|
    requires (t.reservations[at].order, t.reservations[at].lot) in traded
    ensures RowsOk(Tables(t.lots, t.reservations[at := t.reservations[at].(state := s)]), orders, traded)
  {
    var t' := Tables(t.lots, t.reservations[at := t.reservations[at].(state := s)]);
    forall id | id in t'.lots ensures LotConserved(t', id) {
      assert LotConserved(t, id);
      SumWithState(t.reservations, at, s, id);
    }
    forall i | 0 <= i < |t'.reservations| ensures RowOk(t'.reservations[i], orders, traded) {
      assert RowOk(t.reservations[i], orders, traded);
    }
  }

  /** Two trades never share a reservation, so a verdict on one leaves the others matched. */
  lemma TradesJudged(d: Domain, trade: TradeId, specMatch: bool, qualityPass: bool)
    requires TradesOk(d.orders, d.reservations, d.trades) && Joined(d, trade)
    ensures var d' := Judged(d, trade, specMatch, qualityPass); TradesOk(d'.orders, d'.reservations, d'.trades)
  {
    var d' := Judged(d, trade, specMatch, qualityPass);
    var at := ReservationOf(d, trade);
    forall id | id in d'.trades ensures TradeOk(d'.orders, d'.reservations, d'.trades[id]) {
      assert TradeOk(d.orders, d.reservations, d.trades[id]);
      PairAtWithState(d.reservations, at, d'.reservations[at].state, d.trades[id].order, d.trades[id].lot);
    }
  }

  lemma InspectionsJudged(d: Domain, trade: TradeId, specMatch: bool, qualityPass: bool)
    requires InspectionsOk(d.trades, d.inspections) && Joined(d, trade)
    ensures var d' := Judged(d, trade, specMatch, qualityPass); InspectionsOk(d'.trades, d'.inspections)
  {
  }

  lemma InspectKeeps(d: Domain, trade: TradeId, specMatch: bool, qualityPass: bool)
    requires Inv(d) && Joined(d, trade)
    ensures Inv(Inspected(d, trade, specMatch, qualityPass))
  {
    var d' := Judged(d, trade, specMatch, qualityPass);
    var at := ReservationOf(d, trade);
    RowsWithState(TablesOf(d), d.orders.Keys, d.tradeByPair.Keys, at, d'.reservations[at].state);
    TradeStateOnly(d.trades, d.tradeByPair, d.lots, d.evidences, trade, Verdict(specMatch, qualityPass));
    TradesJudged(d, trade, specMatch, qualityPass);
    InspectionsJudged(d, trade, specMatch, qualityPass);
    LotStateKeeps(d', d.trades[trade].lot, if Verdict(specMatch, qualityPass) == COMPLETED then INSPECTED else QUARANTINED);
  }

  // ---- every run ----

  function OrderIn(r: Request): OrderId
    requires r.SubmitOrder? || r.CounterOrder? || r.RejectOrder? || r.ExpireOrder?
  {
    match r
    case SubmitOrder(x) => x.freshOrder
    case CounterOrder(x) => x.order
    case RejectOrder(order, _) => order
    case ExpireOrder(order, _) => order
  }

  /** A request about an order changes nothing, or sets one order that no trade closed. */
  lemma OrderOutcome(d: Domain, r: Request)
    requires r.SubmitOrder? || r.CounterOrder? || r.RejectOrder? || r.ExpireOrder?
    ensures var d', id := After(d, r), OrderIn(r);
            d' == d || (&& id in d'.orders && d'.orders[id].state != TRADE_CONFIRMED
                        && (id in d.orders ==> d.orders[id].state != TRADE_CONFIRMED)
                        && d' == d.(orders := d.orders[id := d'.orders[id]], orderByKey := d'.orderByKey))
  {
  }

  lemma OrderStepKeeps(d: Domain, r: Request)
    requires Inv(d) && (r.SubmitOrder? || r.CounterOrder? || r.RejectOrder? || r.ExpireOrder?)
    ensures Inv(After(d, r))
  {
    hide Inv;
    hide Handle;
    var d' := After(d, r);
    OrderOutcome(d, r);
    if d' != d { OrderKeeps(d, OrderIn(r), d'.orders[OrderIn(r)], d'.orderByKey); }
  }

  lemma PlainOutcome(d: Domain, x: Inspection)
    requires After(d, InspectTrade(x)) != d
    ensures Joined(d, x.trade) && After(d, InspectTrade(x)) == Inspected(d, x.trade, x.specMatch, x.qualityPass)
  {
    hide Inspected;
    hide RetryRefusal;
  }

  lemma CombinedOutcome(d: Domain, x: Inspection, p: PriceForm)
    requires After(d, InspectAndRecord(x, p)) != d
    ensures Joined(d, x.trade)
    ensures var after := Inspected(d, x.trade, x.specMatch, x.qualityPass);
            After(d, InspectAndRecord(x, p)) == after.(observations := After(d, InspectAndRecord(x, p)).observations)
  {
    hide Inspected;
    hide RetryRefusal;
    hide PriceRefusal;
  }

  /** An inspection request changes nothing, or inspects and perhaps adds an observation. */
  lemma InspectOutcome(d: Domain, r: Request)
    requires (r.InspectTrade? || r.InspectAndRecord?) && After(d, r) != d
    ensures Joined(d, r.inspection.trade)
    ensures var after := Inspected(d, r.inspection.trade, r.inspection.specMatch, r.inspection.qualityPass);
            After(d, r) == after.(observations := After(d, r).observations)
  {
    hide Inspected;
    hide Handle;
    if r.InspectTrade? { PlainOutcome(d, r.inspection); } else { CombinedOutcome(d, r.inspection, r.price); }
  }

  lemma ObservationsAside(d: Domain, observations: map<ObservationId, ObservationRow>)
    requires Inv(d)
    ensures Inv(d.(observations := observations))
  {
  }

  lemma InspectStepKeeps(d: Domain, r: Request)
    requires Inv(d) && (r.InspectTrade? || r.InspectAndRecord?)
    ensures Inv(After(d, r))
  {
    hide Inv;
    hide Handle;
    hide Inspected;
    var d' := After(d, r);
    if d' != d {
      InspectOutcome(d, r);
      var x := r.inspection;
      InspectKeeps(d, x.trade, x.specMatch, x.qualityPass);
      ObservationsAside(Inspected(d, x.trade, x.specMatch, x.qualityPass), d'.observations);
    }
  }

  lemma ReserveStepKeeps(d: Domain, r: Reservation)
    requires Inv(d) && ReserveInventoryStep(d, r).Done?
    ensures Inv(ReserveInventoryStep(d, r).after)
  {
    ReserveKeeps(d, Call(r.order, r.lot, r.quantity, r.key, r.freshReservation));
  }

  lemma StepKeeps(d: Domain, r: Request)
    requires Inv(d)
    ensures Inv(After(d, r))
  {
    hide Inv;
    if Handle(d, r).Done? {
      match r
      case RegisterLotDraft(x) => RegisterKeeps(d, x);
      case ReviewEvidence(x) => ReviewKeeps(d, x);
      case ReserveInventory(x) => ReserveStepKeeps(d, x);
      case ConfirmTrade(x) => ConfirmKeeps(d, x);
      case AcceptOrder(x) => AcceptKeeps(d, x);
      case MarkDelivered(x) => DeliverKeeps(d, x);
      case InspectTrade(_) => InspectStepKeeps(d, r);
      case InspectAndRecord(_, _) => InspectStepKeeps(d, r);
      case RecordPrice(_) => ObservationsAside(d, After(d, r).observations);
      case _ => OrderStepKeeps(d, r);
    }
  }

  lemma {:induction false} RunKeeps(requests: seq<Request>)
    ensures Inv(Run(EMPTY, requests))
  {
    if requests != [] {
      RunKeeps(requests[..|requests| - 1]);
      StepKeeps(Run(EMPTY, requests[..|requests| - 1]), requests[|requests| - 1]);
    }
  }

  // ---- the main result ----

  /** The ledger is consistent in every reachable state.  Stock is conserved.  A trade closes
      its order and is the only one of it, on a lot with five approved documents; an order
      reserves a lot at most once, and the trade and its reservation are in the same state.
      Inspections exist exactly for the closed trades, with their verdict, and each of them
      has its reservation. */
  lemma LedgerIsConsistent(requests: seq<Request>)
    ensures var d := Run(EMPTY, requests);
            && Conserved(TablesOf(d)) && PairsUnique(d.reservations)
            && (forall id :: id in d.trades ==> TradeOk(d.orders, d.reservations, d.trades[id]) && Reviewed(d.evidences, d.trades[id].lot))
            && (forall a, b :: a in d.trades && b in d.trades && d.trades[a].order == d.trades[b].order ==> a == b)
            && (forall id :: id in d.inspections <==> id in d.trades && Closed(d.trades[id].state))
            && (forall id :: id in d.inspections ==>
                  d.trades[id].state == Verdict(d.inspections[id].specMatch, d.inspections[id].qualityPass))
  {
    RunKeeps(requests);
  }
}
