/** Completion and price record are one step: inspectTradeAndRecordPrice and
    recordCompletedTradePrice of beta-app/postgres-domain-adapter.mjs. */
module PriceRecords {
  import opened Wrappers
  import opened DomainLedger
  import opened DomainInvariant
  import opened ReserveLot

  /** Inspects only together with the price record, under the default id and spec. */
  predicate Default(r: Request) {
    match r
    case InspectTrade(_) => false
    case InspectAndRecord(_, p) => p.observation.None? && p.spec.None?
    case RecordPrice(x) => x.observation.None?
    case _ => true
  }

  /** The trade's price, quantity and spec, recorded. */
  ghost predicate Recorded(orders: map<OrderId, OrderRow>, t: TradeRow, o: ObservationRow) {
    t.order in orders && o.price == t.price && o.quantity == t.quantity && o.spec == orders[t.order].spec
  }

  ghost predicate PricesOk(orders: map<OrderId, OrderRow>, trades: map<TradeId, TradeRow>,
                           observations: map<ObservationId, ObservationRow>) {
    && (forall id :: id in orders ==> orders[id].bid > 0)
    && (forall id :: id in trades ==> trades[id].order in orders && trades[id].price > 0 && trades[id].quantity > 0)
    && (forall id :: id in trades && trades[id].state == COMPLETED ==> OfTrade(id) in observations)
    && (forall o :: o in observations ==> RecordOk(orders, trades, o, observations[o]))
  }

  ghost predicate RecordOk(orders: map<OrderId, OrderRow>, trades: map<TradeId, TradeRow>, o: ObservationId, row: ObservationRow) {
    && o == OfTrade(row.trade) && row.trade in trades && trades[row.trade].state == COMPLETED
    && Recorded(orders, trades[row.trade], row)
  }

  /** No request touches an order's spec, drops an order or adds one without a price. */
  ghost predicate SpecsKept(orders: map<OrderId, OrderRow>, orders': map<OrderId, OrderRow>) {
    && (forall id :: id in orders ==> id in orders' && orders'[id].spec == orders[id].spec)
    && (forall id :: id in orders' ==> orders'[id].bid > 0)
  }

  lemma OrdersMayGrow(orders: map<OrderId, OrderRow>, orders': map<OrderId, OrderRow>,
                      trades: map<TradeId, TradeRow>, observations: map<ObservationId, ObservationRow>)
    requires PricesOk(orders, trades, observations) && SpecsKept(orders, orders')
    ensures PricesOk(orders', trades, observations)
  {
  }

  /** A trade that is not completed may appear, or move to another state short of it. */
  lemma OpenTradeKeeps(orders: map<OrderId, OrderRow>, trades: map<TradeId, TradeRow>,
                       observations: map<ObservationId, ObservationRow>, id: TradeId, t: TradeRow)
    requires PricesOk(orders, trades, observations) && t.order in orders && t.state != COMPLETED
    requires t.price > 0 && t.quantity > 0
    requires id in trades ==> trades[id].state != COMPLETED
    ensures PricesOk(orders, trades[id := t], observations)
  {
  }

  lemma CompletedTradeKeeps(orders: map<OrderId, OrderRow>, trades: map<TradeId, TradeRow>,
                            observations: map<ObservationId, ObservationRow>, id: TradeId, t: TradeRow, row: ObservationRow)
    requires PricesOk(orders, trades, observations) && t.order in orders && t.state == COMPLETED
    requires t.price > 0 && t.quantity > 0
    requires id in trades && trades[id].state != COMPLETED
    requires row.trade == id && Recorded(orders, t, row)
    ensures OfTrade(id) !in observations
    ensures PricesOk(orders, trades[id := t], observations[OfTrade(id) := row])
  {
    forall o | o in observations ensures o != OfTrade(id) {
      assert RecordOk(orders, trades, o, observations[o]);
    }
    var observations' := observations[OfTrade(id) := row];
    forall o | o in observations' ensures RecordOk(orders, trades[id := t], o, observations'[o]) {
      if o != OfTrade(id) { assert RecordOk(orders, trades, o, observations[o]); }
    }
  }

  /** The trade moves to a state, and nothing else a price depends on does. */
  predicate Moves(d: Domain, d': Domain, id: TradeId, s: TradeState) {
    && id in d.trades && d.trades[id].state != COMPLETED && d'.orders == d.orders
    && d'.trades == d.trades[id := d.trades[id].(state := s)]
  }

  lemma DeliveryMoves(d: Domain, x: Delivery)
    ensures var d' := After(d, MarkDelivered(x));
            d' == d || (Moves(d, d', x.trade, HANDED_OVER) && d'.observations == d.observations && Joined(d, x.trade))
  {
  }

  lemma InspectionMoves(d: Domain, x: Inspection)
    ensures var d' := After(d, InspectTrade(x));
            d' == d || (Moves(d, d', x.trade, Verdict(x.specMatch, x.qualityPass)) && d'.observations == d.observations
                        && Joined(d, x.trade) && !Closed(d.trades[x.trade].state) && Handle(d, InspectTrade(x)).Done?)
  {
    hide RetryRefusal;
  }

  function NamedId(x: Inspection, p: PriceForm): ObservationId { Or(p.observation, OfTrade(x.trade)) }

  /** An inspection leaves orders and observations alone, and of its trade changes only the state. */
  lemma JudgedKeeps(d: Domain, trade: TradeId, specMatch: bool, qualityPass: bool)
    requires Joined(d, trade)
    ensures var after := Inspected(d, trade, specMatch, qualityPass);
            && after.orders == d.orders && after.observations == d.observations
            && after.trades == d.trades[trade := d.trades[trade].(state := Verdict(specMatch, qualityPass))]
  {
    hide Verdict;
  }

  lemma CombinedMoves(d: Domain, x: Inspection, p: PriceForm)
    requires Handle(d, InspectAndRecord(x, p)).Done? && Joined(d, x.trade) && !Closed(d.trades[x.trade].state)
    ensures var d', s, t := After(d, InspectAndRecord(x, p)), Verdict(x.specMatch, x.qualityPass), d.trades[x.trade];
            && Moves(d, d', x.trade, s)
            && d'.observations == if s == COMPLETED && NamedId(x, p) !in d.observations
               then d.observations[NamedId(x, p) := ObservationRow(x.trade, Or(p.spec, d.orders[t.order].spec), t.price, t.quantity)]
               else d.observations
  {
    JudgedKeeps(d, x.trade, x.specMatch, x.qualityPass);
    hide InspectAgain;
    hide Inspected;
    hide Joined;
  }

  lemma CombinedStays(d: Domain, x: Inspection, p: PriceForm)
    requires Joined(d, x.trade) ==> Closed(d.trades[x.trade].state)
    ensures After(d, InspectAndRecord(x, p)) == d
  {
    if Joined(d, x.trade) { AgainChangesNothing(d, x, p); }
    hide InspectAgain;
    hide Inspected;
  }

  lemma InspectRecordKeeps(d: Domain, x: Inspection, p: PriceForm)
    requires PricesOk(d.orders, d.trades, d.observations) && p.observation.None? && p.spec.None?
    ensures var d' := After(d, InspectAndRecord(x, p)); PricesOk(d'.orders, d'.trades, d'.observations)
  {
    var d' := After(d, InspectAndRecord(x, p));
    hide InspectAndRecordStep;
    hide PricesOk;
    if Joined(d, x.trade) && !Closed(d.trades[x.trade].state) && Handle(d, InspectAndRecord(x, p)).Done? {
      var t := d.trades[x.trade].(state := Verdict(x.specMatch, x.qualityPass));
      CombinedMoves(d, x, p);
      TradePriced(d, x.trade);
      hide Recorded;
      if t.state == COMPLETED {
        CompletedTradeKeeps(d.orders, d.trades, d.observations, x.trade, t,
                            ObservationRow(x.trade, d.orders[t.order].spec, t.price, t.quantity));
      } else {
        OpenTradeKeeps(d.orders, d.trades, d.observations, x.trade, t);
      }
    } else if Joined(d, x.trade) ==> Closed(d.trades[x.trade].state) {
      CombinedStays(d, x, p);
    }
  }

  lemma TradePriced(d: Domain, id: TradeId)
    requires PricesOk(d.orders, d.trades, d.observations) && id in d.trades
    ensures d.trades[id].price > 0 && d.trades[id].quantity > 0
  {
  }

  lemma RecordKeeps(d: Domain, x: PriceRecord)
    requires PricesOk(d.orders, d.trades, d.observations) && x.observation.None? && RecordPriceStep(d, x).Done?
    ensures RecordPriceStep(d, x).after == d
  {
  }

  /** A new open trade that closes its order. */
  lemma NewTradeKeepsPrices(d: Domain, id: TradeId, t: TradeRow)
    requires PricesOk(d.orders, d.trades, d.observations) && id !in d.trades
    requires t.order in d.orders && t.state == CONFIRMED && t.price > 0 && t.quantity > 0
    ensures var d' := WithTrade(d, id, t); PricesOk(d'.orders, d'.trades, d'.observations)
  {
    OrdersMayGrow(d.orders, WithTrade(d, id, t).orders, d.trades, d.observations);
    OpenTradeKeeps(WithTrade(d, id, t).orders, d.trades, d.observations, id, t);
  }

  lemma AcceptedKeepsPrices(d: Domain, x: Acceptance)
    requires PricesOk(d.orders, d.trades, d.observations) && AcceptOrderStep(d, x).Done?
    ensures var d' := AcceptOrderStep(d, x).after; PricesOk(d'.orders, d'.trades, d'.observations)
  {
    if !AcceptOrderStep(d, x).again {
      var d1 := AfterReserve(d, Call(x.order, x.lot, x.quantity, x.key, x.freshReservation));
      NewTradeKeepsPrices(d1, x.freshTrade, TradeRow(x.order, x.lot, x.supplier, d.orders[x.order].buyer, CONFIRMED,
                                                     d.orders[x.order].bid, x.quantity));
    }
  }

  lemma ConfirmedKeepsPrices(d: Domain, x: Confirmation)
    requires PricesOk(d.orders, d.trades, d.observations) && ConfirmTradeStep(d, x).Done?
    ensures var d' := ConfirmTradeStep(d, x).after; PricesOk(d'.orders, d'.trades, d'.observations)
  {
    NewTradeKeepsPrices(d, x.freshTrade, TradeRow(x.order, x.lot, x.supplier, x.buyer, CONFIRMED, x.price, x.quantity));
  }

  /** Requests about lots and reservations leave orders, trades and observations alone. */
  lemma LotOutcome(d: Domain, r: Request)
    requires r.RegisterLotDraft? || r.ReviewEvidence? || r.ReserveInventory?
    ensures After(d, r).trades == d.trades && After(d, r).observations == d.observations && After(d, r).orders == d.orders
  {
    hide RegisterLotDraftStep;
    hide ReviewEvidenceStep;
    hide ReserveInventoryStep;
    match r
    case RegisterLotDraft(x) => if RegisterLotDraftStep(d, x).Done? { DraftOutcome(d, x); }
    case ReviewEvidence(x) => if ReviewEvidenceStep(d, x).Done? { ReviewOutcome(d, x); }
    case ReserveInventory(x) => if ReserveInventoryStep(d, x).Done? { StockOutcome(d, x); }
  }

  lemma StockOutcome(d: Domain, x: Reservation)
    requires ReserveInventoryStep(d, x).Done?
    ensures var d' := ReserveInventoryStep(d, x).after; d' == d.(lots := d'.lots, reservations := d'.reservations)
  {
    hide Reserve;
  }

  lemma DraftOutcome(d: Domain, x: LotDraft)
    requires RegisterLotDraftStep(d, x).Done?
    ensures var d' := RegisterLotDraftStep(d, x).after; d' == d.(lots := d'.lots, evidences := d'.evidences)
  {
    hide Filed;
    hide DocumentsComplete;
    hide FreshDocuments;
  }

  lemma ReviewOutcome(d: Domain, x: EvidenceReview)
    requires ReviewEvidenceStep(d, x).Done?
    ensures var d' := ReviewEvidenceStep(d, x).after; d' == d.(lots := d'.lots, evidences := d'.evidences)
  {
    hide EvidenceComplete;
    hide Promoted;
  }

  lemma SubmitOutcome(d: Domain, r: OrderForm)
    requires forall id :: id in d.orders ==> d.orders[id].bid > 0
    ensures SpecsKept(d.orders, After(d, SubmitOrder(r)).orders)
  {
    hide SameOrder;
  }

  lemma OrderOutcomes(d: Domain, r: Request)
    requires forall id :: id in d.orders ==> d.orders[id].bid > 0
    requires r.CounterOrder? || r.RejectOrder? || r.ExpireOrder?
    ensures SpecsKept(d.orders, After(d, r).orders)
  {
  }

  predicate Quiet(r: Request) {
    !r.ConfirmTrade? && !r.AcceptOrder? && !r.InspectTrade? && !r.InspectAndRecord? && !r.RecordPrice? && !r.MarkDelivered?
  }

  lemma QuietOutcome(d: Domain, r: Request)
    requires (forall id :: id in d.orders ==> d.orders[id].bid > 0) && Quiet(r)
    ensures After(d, r).trades == d.trades && After(d, r).observations == d.observations
    ensures SpecsKept(d.orders, After(d, r).orders)
  {
    hide Handle;
    if r.RegisterLotDraft? || r.ReviewEvidence? || r.ReserveInventory? {
      LotOutcome(d, r);
    } else {
      OrderOutcome(d, r);
      if r.SubmitOrder? { SubmitOutcome(d, r.form); } else { OrderOutcomes(d, r); }
    }
  }

  lemma QuietKeeps(d: Domain, r: Request)
    requires PricesOk(d.orders, d.trades, d.observations) && Quiet(r)
    ensures var d' := After(d, r); PricesOk(d'.orders, d'.trades, d'.observations)
  {
    QuietOutcome(d, r);
    hide Handle;
    OrdersMayGrow(d.orders, After(d, r).orders, d.trades, d.observations);
  }

  lemma DeliveredKeeps(d: Domain, x: Delivery)
    requires PricesOk(d.orders, d.trades, d.observations) && MarkDeliveredStep(d, x).Done?
    ensures var d' := MarkDeliveredStep(d, x).after; PricesOk(d'.orders, d'.trades, d'.observations)
  {
    if !MarkDeliveredStep(d, x).again {
      OpenTradeKeeps(d.orders, d.trades, d.observations, x.trade, d.trades[x.trade].(state := HANDED_OVER));
    }
  }

  lemma StepKeepsPrices(d: Domain, r: Request)
    requires PricesOk(d.orders, d.trades, d.observations) && Default(r)
    ensures var d' := After(d, r); PricesOk(d'.orders, d'.trades, d'.observations)
  {
    if Handle(d, r).Done? {
      match r
      case ConfirmTrade(x) => ConfirmedKeepsPrices(d, x);
      case AcceptOrder(x) => AcceptedKeepsPrices(d, x);
      case MarkDelivered(x) => DeliveredKeeps(d, x);
      case InspectAndRecord(x, p) => InspectRecordKeeps(d, x, p);
      case RecordPrice(x) => RecordKeeps(d, x);
      case _ => QuietKeeps(d, r);
    }
  }

  lemma {:induction false} RunKeepsPrices(requests: seq<Request>)
    requires forall i :: 0 <= i < |requests| ==> Default(requests[i])
    ensures var d := Run(EMPTY, requests); PricesOk(d.orders, d.trades, d.observations)
  {
    if requests != [] {
      RunKeepsPrices(requests[..|requests| - 1]);
      StepKeepsPrices(Run(EMPTY, requests[..|requests| - 1]), requests[|requests| - 1]);
    }
  }

  // ---- the main results ----

  /** Completion and price record are atomic: over every such run a trade is completed
      exactly when there is an observation of it, there is only that one, and it carries
      the trade's price, quantity and spec.  A disputed or open trade has none. */
  lemma CompletedExactlyWhenPriced(requests: seq<Request>, id: TradeId)
    requires forall i :: 0 <= i < |requests| ==> Default(requests[i])
    requires id in Run(EMPTY, requests).trades
    ensures var d := Run(EMPTY, requests);
            && (d.trades[id].state == COMPLETED <==>
                  exists o :: o in d.observations && d.observations[o].trade == id)
            && (forall o :: o in d.observations && d.observations[o].trade == id ==>
                  o == OfTrade(id) && Recorded(d.orders, d.trades[id], d.observations[o]))
  {
    RunKeepsPrices(requests);
    var d := Run(EMPTY, requests);
    forall o | o in d.observations && d.observations[o].trade == id
      ensures o == OfTrade(id) && d.trades[id].state == COMPLETED && Recorded(d.orders, d.trades[id], d.observations[o])
    {
      assert RecordOk(d.orders, d.trades, o, d.observations[o]);
    }
    if d.trades[id].state == COMPLETED {
      assert RecordOk(d.orders, d.trades, OfTrade(id), d.observations[OfTrade(id)]);
    }
  }

  /** What the retry path answers on ledgers whose inspections and prices are in order. */
  lemma RetryAnswer(d: Domain, x: Inspection, p: PriceForm)
    requires InspectionsOk(d.trades, d.inspections) && PricesOk(d.orders, d.trades, d.observations)
    requires Joined(d, x.trade) && Closed(d.trades[x.trade].state)
    requires p.observation.None? && p.spec.None? && p.price.None? && p.quantity.None?
    ensures x.trade in d.inspections
    ensures var seen := d.inspections[x.trade];
            InspectAgain(d, x, p) == (if seen.specMatch == x.specMatch && seen.qualityPass == x.qualityPass then Done(d, true)
                                      else Refused(INSPECTION_RETRY_MISMATCH))
  {
    if d.trades[x.trade].state == COMPLETED {
      assert RecordOk(d.orders, d.trades, OfTrade(x.trade), d.observations[OfTrade(x.trade)]);
    }
  }

  /** A retry on a closed trade: the same verdict changes nothing, another is refused. */
  lemma RetryOnClosedTrade(requests: seq<Request>, x: Inspection, p: PriceForm)
    requires forall i :: 0 <= i < |requests| ==> Default(requests[i])
    requires var d := Run(EMPTY, requests); x.trade in d.trades && Closed(d.trades[x.trade].state) && x.member
    requires p.observation.None? && p.spec.None? && p.price.None? && p.quantity.None?
    ensures var d := Run(EMPTY, requests);
            && x.trade in d.inspections
            && var seen := d.inspections[x.trade];
               InspectAndRecordStep(d, x, p)
               == (if seen.specMatch == x.specMatch && seen.qualityPass == x.qualityPass then Done(d, true)
                   else Refused(INSPECTION_RETRY_MISMATCH))
  {
    var d := Run(EMPTY, requests);
    RunKeeps(requests);
    RunKeepsPrices(requests);
    assert TradeOk(d.orders, d.reservations, d.trades[x.trade]);
    RetryAnswer(d, x, p);
  }

  // ---- any ids and specs: when a completed trade has its record ----

  /** Some observation of the trade carries its price, quantity and spec. */
  ghost predicate HasRecord(d: Domain, id: TradeId) {
    id in d.trades
    && exists o :: o in d.observations && d.observations[o].trade == id && Recorded(d.orders, d.trades[id], d.observations[o])
  }

  predicate Priced(orders: map<OrderId, OrderRow>, t: TradeRow) {
    t.order in orders && t.price > 0 && t.quantity > 0
  }

  ghost predicate Settled(d: Domain) {
    && (forall id :: id in d.orders ==> d.orders[id].bid > 0)
    && (forall id :: id in d.trades ==> Priced(d.orders, d.trades[id]))
    && (forall o :: o in d.observations ==> d.observations[o].trade in d.trades && d.trades[d.observations[o].trade].state == COMPLETED)
  }

  /** Trades stay, with all but their state, and completion is final. */
  ghost predicate TradesKept(trades: map<TradeId, TradeRow>, trades': map<TradeId, TradeRow>) {
    forall id :: id in trades ==>
      && id in trades' && trades'[id] == trades[id].(state := trades'[id].state)
      && (trades[id].state == COMPLETED ==> trades'[id].state == COMPLETED)
  }

  ghost predicate Keeps(d: Domain, d': Domain) {
    && SpecsKept(d.orders, d'.orders) && TradesKept(d.trades, d'.trades)
    && forall id :: id in d'.trades ==> Priced(d'.orders, d'.trades[id])
  }

  lemma NewTradeKept(d: Domain, id: TradeId, t: TradeRow)
    requires Settled(d) && id !in d.trades && Priced(d.orders, t)
    ensures Keeps(d, WithTrade(d, id, t)) && WithTrade(d, id, t).observations == d.observations
  {
  }

  lemma DealKeeps(d: Domain, r: Request)
    requires Settled(d) && (r.ConfirmTrade? || r.AcceptOrder?)
    ensures Keeps(d, After(d, r)) && After(d, r).observations == d.observations
  {
    if r.ConfirmTrade? { ConfirmationKeeps(d, r.confirmation); } else { AcceptanceKeeps(d, r.acceptance); }
    hide Handle;
    hide Keeps;
    hide Settled;
  }

  lemma ConfirmationKeeps(d: Domain, x: Confirmation)
    requires Settled(d)
    ensures Keeps(d, After(d, ConfirmTrade(x))) && After(d, ConfirmTrade(x)).observations == d.observations
  {
    hide EvidenceComplete;
    NothingKeeps(d, d);
    hide Keeps;
    hide Settled;
    if ConfirmTradeStep(d, x).Done? {
      NewTradeKept(d, x.freshTrade, TradeRow(x.order, x.lot, x.supplier, x.buyer, CONFIRMED, x.price, x.quantity));
    }
  }

  lemma AcceptanceKeeps(d: Domain, x: Acceptance)
    requires Settled(d)
    ensures Keeps(d, After(d, AcceptOrder(x))) && After(d, AcceptOrder(x)).observations == d.observations
  {
    NothingKeeps(d, d);
    if AcceptOrderStep(d, x).Done? {
      if AcceptOrderStep(d, x).again {
        AcceptedAgain(d, x);
      } else {
        AcceptedIs(d, x);
        AcceptedFits(d, x);
        NewTradeKept(AfterReserve(d, CallOf(x)), x.freshTrade, TradeRow(x.order, x.lot, x.supplier, d.orders[x.order].buyer, CONFIRMED,
                                                                        d.orders[x.order].bid, x.quantity));
      }
    }
    hide AcceptOrderStep;
    hide Reserve;
    hide WithTrade;
  }

  lemma StateKept(d: Domain, id: TradeId, s: TradeState)
    requires Settled(d) && id in d.trades && d.trades[id].state != COMPLETED
    ensures TradesKept(d.trades, d.trades[id := d.trades[id].(state := s)]) && SpecsKept(d.orders, d.orders)
    ensures forall k :: k in d.trades ==> Priced(d.orders, d.trades[k])
  {
  }

  lemma RecordingAdds(d: Domain, x: PriceRecord)
    ensures var d', o := After(d, RecordPrice(x)), Or(x.observation, OfTrade(x.trade));
            && d' == d.(observations := d'.observations)
            && (Handle(d, RecordPrice(x)).Done? ==>
                  x.trade in d.trades && d.trades[x.trade].order in d.orders && d.trades[x.trade].state == COMPLETED)
            && d'.observations == if Handle(d, RecordPrice(x)).Done? && o !in d.observations
               then d.observations[o := ObservationRow(x.trade, d.orders[d.trades[x.trade].order].spec, d.trades[x.trade].price,
                                                       d.trades[x.trade].quantity)]
               else d.observations
  {
  }

  lemma MovesKeep(d: Domain, d': Domain, id: TradeId, s: TradeState)
    requires Settled(d) && Moves(d, d', id, s)
    ensures Keeps(d, d')
  {
    StateKept(d, id, s);
  }

  lemma NothingKeeps(d: Domain, d': Domain)
    requires Settled(d) && d'.orders == d.orders && d'.trades == d.trades
    ensures Keeps(d, d')
  {
  }

  lemma TradeRequestKeeps(d: Domain, r: Request)
    requires Settled(d) && (r.MarkDelivered? || r.InspectTrade? || r.InspectAndRecord? || r.RecordPrice?)
    ensures Keeps(d, After(d, r))
    ensures r.MarkDelivered? || r.InspectTrade? ==> After(d, r).observations == d.observations
  {
    var d' := After(d, r);
    hide Moves;
    hide Keeps;
    hide Settled;
    match r
    case MarkDelivered(x) =>
      DeliveryMoves(d, x);
      hide After;
      if d' == d { NothingKeeps(d, d'); } else { MovesKeep(d, d', x.trade, HANDED_OVER); }
    case InspectTrade(x) =>
      InspectionMoves(d, x);
      hide After;
      if d' == d { NothingKeeps(d, d'); } else { MovesKeep(d, d', x.trade, Verdict(x.specMatch, x.qualityPass)); }
    case InspectAndRecord(x, p) => CombinedKeeps(d, x, p);
    case RecordPrice(x) =>
      RecordingAdds(d, x);
      hide After;
      NothingKeeps(d, d');
  }

  lemma CombinedKeeps(d: Domain, x: Inspection, p: PriceForm)
    requires Settled(d)
    ensures Keeps(d, After(d, InspectAndRecord(x, p)))
  {
    hide Moves;
    hide Keeps;
    hide Settled;
    hide InspectAndRecordStep;
    var d' := After(d, InspectAndRecord(x, p));
    if Joined(d, x.trade) && !Closed(d.trades[x.trade].state) && Handle(d, InspectAndRecord(x, p)).Done? {
      CombinedMoves(d, x, p);
      MovesKeep(d, d', x.trade, Verdict(x.specMatch, x.qualityPass));
    } else {
      if !(Joined(d, x.trade) && !Closed(d.trades[x.trade].state)) { CombinedStays(d, x, p); }
      NothingKeeps(d, d');
    }
  }

  lemma StepKeepsTrades(d: Domain, r: Request)
    requires Settled(d)
    ensures Keeps(d, After(d, r))
    ensures !r.InspectAndRecord? && !r.RecordPrice? ==> After(d, r).observations == d.observations
  {
    hide Handle;
    if Quiet(r) {
      QuietOutcome(d, r);
    } else if r.ConfirmTrade? || r.AcceptOrder? {
      DealKeeps(d, r);
    } else {
      TradeRequestKeeps(d, r);
    }
  }

  /** Whether this request writes an observation of the trade with the trade's own values. */
  ghost predicate Writes(d: Domain, r: Request, id: TradeId) {
    && Handle(d, r).Done? && id in d.trades && d.trades[id].order in d.orders
    && match r
       case InspectAndRecord(x, p) =>
         && x.trade == id && !Closed(d.trades[id].state) && x.specMatch && x.qualityPass
         && Or(p.observation, OfTrade(id)) !in d.observations
         && Or(p.spec, d.orders[d.trades[id].order].spec) == d.orders[d.trades[id].order].spec
       case RecordPrice(x) => x.trade == id && Or(x.observation, OfTrade(id)) !in d.observations
       case _ => false
  }

  lemma SameObservations(d: Domain, d': Domain, id: TradeId)
    requires Settled(d) && Keeps(d, d') && d'.observations == d.observations
    ensures HasRecord(d', id) <==> HasRecord(d, id)
    ensures Settled(d')
  {
  }

  lemma RecordStays(d: Domain, d': Domain, id: TradeId)
    requires HasRecord(d, id) && Keeps(d, d')
    requires forall k :: k in d.observations ==> k in d'.observations && d'.observations[k] == d.observations[k]
    ensures HasRecord(d', id)
  {
    var k :| k in d.observations && d.observations[k].trade == id && Recorded(d.orders, d.trades[id], d.observations[k]);
    assert d'.observations[k] == d.observations[k];
  }

  lemma NewRecordOnly(d: Domain, d': Domain, id: TradeId, o: ObservationId, row: ObservationRow)
    requires Settled(d) && Keeps(d, d') && d'.observations == d.observations[o := row] && row.trade in d.trades
    requires HasRecord(d', id)
    ensures HasRecord(d, id) || (row.trade == id && Recorded(d.orders, d.trades[id], row))
  {
    var k :| k in d'.observations && d'.observations[k].trade == id && Recorded(d'.orders, d'.trades[id], d'.observations[k]);
    if k != o { assert k in d.observations && d.observations[k] == d'.observations[k]; }
  }

  lemma OneObservationMore(d: Domain, d': Domain, id: TradeId, o: ObservationId, row: ObservationRow)
    requires Settled(d) && Keeps(d, d') && o !in d.observations && d'.observations == d.observations[o := row]
    requires row.trade in d.trades && d'.trades[row.trade].state == COMPLETED
    ensures HasRecord(d', id) <==> HasRecord(d, id) || (row.trade == id && Recorded(d.orders, d.trades[id], row))
    ensures Settled(d')
  {
    if HasRecord(d, id) { RecordStays(d, d', id); }
    if HasRecord(d', id) { NewRecordOnly(d, d', id, o, row); }
    if row.trade == id && Recorded(d.orders, d.trades[id], row) { assert d'.observations[o] == row; }
  }

  /** The combined inspection of an open trade that goes through. */
  predicate GoesThrough(d: Domain, x: Inspection, p: PriceForm) {
    Joined(d, x.trade) && !Closed(d.trades[x.trade].state) && Handle(d, InspectAndRecord(x, p)).Done?
  }

  lemma ThroughRecords(d: Domain, x: Inspection, p: PriceForm, id: TradeId)
    requires Settled(d) && GoesThrough(d, x, p)
    ensures var r := InspectAndRecord(x, p);
            (HasRecord(After(d, r), id) <==> HasRecord(d, id) || Writes(d, r, id)) && Settled(After(d, r))
  {
    hide After;
    hide Handle;
    hide Keeps;
    hide HasRecord;
    var r := InspectAndRecord(x, p);
    var d', t := After(d, r), d.trades[x.trade];
    CombinedKeeps(d, x, p);
    CombinedMoves(d, x, p);
    hide Settled;
    if d'.observations == d.observations {
      SameObservations(d, d', id);
    } else {
      OneObservationMore(d, d', id, NamedId(x, p), ObservationRow(x.trade, Or(p.spec, d.orders[t.order].spec), t.price, t.quantity));
    }
  }

  lemma StayedRecords(d: Domain, x: Inspection, p: PriceForm, id: TradeId)
    requires Settled(d) && !GoesThrough(d, x, p)
    ensures var r := InspectAndRecord(x, p); After(d, r) == d && !Writes(d, r, id)
  {
    hide InspectAndRecordStep;
    hide Settled;
    NotJoinedIsRefused(d, x, p);
    if !(Joined(d, x.trade) && !Closed(d.trades[x.trade].state)) { CombinedStays(d, x, p); }
  }

  lemma InspectedRecords(d: Domain, x: Inspection, p: PriceForm, id: TradeId)
    requires Settled(d)
    ensures var r := InspectAndRecord(x, p);
            (HasRecord(After(d, r), id) <==> HasRecord(d, id) || Writes(d, r, id)) && Settled(After(d, r))
  {
    hide After;
    hide GoesThrough;
    hide Settled;
    hide HasRecord;
    hide Writes;
    if GoesThrough(d, x, p) { ThroughRecords(d, x, p, id); } else { StayedRecords(d, x, p, id); }
  }

  lemma NotJoinedIsRefused(d: Domain, x: Inspection, p: PriceForm)
    ensures Handle(d, InspectAndRecord(x, p)).Done? ==> Joined(d, x.trade)
  {
    hide InspectAgain;
    hide Inspected;
  }

  lemma PricedRecords(d: Domain, x: PriceRecord, id: TradeId)
    requires Settled(d)
    ensures (HasRecord(After(d, RecordPrice(x)), id) <==> HasRecord(d, id) || Writes(d, RecordPrice(x), id))
            && Settled(After(d, RecordPrice(x)))
  {
    var d', o := After(d, RecordPrice(x)), Or(x.observation, OfTrade(x.trade));
    RecordingAdds(d, x);
    NothingKeeps(d, d');
    hide Keeps;
    hide Settled;
    hide HasRecord;
    hide RecordPriceStep;
    if d'.observations == d.observations {
      SameObservations(d, d', id);
    } else {
      var t := d.trades[x.trade];
      OneObservationMore(d, d', id, o, ObservationRow(x.trade, d.orders[t.order].spec, t.price, t.quantity));
    }
  }

  lemma StepRecords(d: Domain, r: Request, id: TradeId)
    requires Settled(d)
    ensures HasRecord(After(d, r), id) <==> HasRecord(d, id) || Writes(d, r, id)
    ensures Settled(After(d, r))
  {
    hide Handle;
    hide HasRecord;
    hide Settled;
    hide Keeps;
    match r
    case InspectAndRecord(x, p) => InspectedRecords(d, x, p, id);
    case RecordPrice(x) => PricedRecords(d, x, id);
    case _ =>
      StepKeepsTrades(d, r);
      SameObservations(d, After(d, r), id);
  }

  lemma {:induction false} RunSettles(requests: seq<Request>)
    ensures Settled(Run(EMPTY, requests))
  {
    if requests != [] {
      RunSettles(requests[..|requests| - 1]);
      StepRecords(Run(EMPTY, requests[..|requests| - 1]), requests[|requests| - 1], 0);
    }
  }

  /** The form repeats the trade's spec, price and quantity, or leaves them out, and names an
      observation of the trade. */
  predicate RepeatsPrice(d: Domain, id: TradeId, p: PriceForm)
    requires id in d.trades && d.trades[id].order in d.orders
  {
    var t, o := d.trades[id], Or(p.observation, OfTrade(id));
    && Or(p.spec, d.orders[t.order].spec) == d.orders[t.order].spec
    && Or(p.price, t.price) == t.price && Or(p.quantity, t.quantity) == t.quantity
    && o in d.observations && d.observations[o].trade == id
  }

  lemma ClosedIsJoined(d: Domain, id: TradeId)
    requires Inv(d) && Settled(d) && id in d.trades && Closed(d.trades[id].state)
    ensures Joined(d, id) && id in d.inspections && Priced(d.orders, d.trades[id])
  {
    assert TradeOk(d.orders, d.reservations, d.trades[id]);
  }

  predicate SameVerdict(d: Domain, x: Inspection)
    requires x.trade in d.inspections
  {
    d.inspections[x.trade].specMatch == x.specMatch && d.inspections[x.trade].qualityPass == x.qualityPass
  }

  lemma PlainRetrySays(d: Domain, x: Inspection)
    requires Joined(d, x.trade) && Closed(d.trades[x.trade].state) && x.trade in d.inspections && x.member
    ensures InspectTradeStep(d, x) == if SameVerdict(d, x) then Done(d, true) else Refused(INSPECTION_RETRY_MISMATCH)
  {
  }

  lemma CombinedRetrySays(d: Domain, x: Inspection, p: PriceForm)
    requires Joined(d, x.trade) && Closed(d.trades[x.trade].state) && x.trade in d.inspections && x.member
    requires Priced(d.orders, d.trades[x.trade])
    ensures InspectAndRecordStep(d, x, p) == Done(d, true) <==>
            SameVerdict(d, x) && (d.trades[x.trade].state == IN_DISPUTE || RepeatsPrice(d, x.trade, p))
    ensures InspectAndRecordStep(d, x, p).Done? ==> InspectAndRecordStep(d, x, p) == Done(d, true)
    ensures !SameVerdict(d, x) ==> InspectAndRecordStep(d, x, p) == Refused(INSPECTION_RETRY_MISMATCH)
  {
  }

  /** Retries on a closed trade, after any run.  Neither inspection changes anything, and
      another verdict than the recorded one is refused.  With the recorded verdict the plain one
      answers; the combined one answers exactly when the trade is disputed or the form repeats
      its price record. */
  lemma RetryAnsweredExactlyWhen(requests: seq<Request>, x: Inspection, p: PriceForm)
    requires var d := Run(EMPTY, requests); x.trade in d.trades && Closed(d.trades[x.trade].state) && x.member
    ensures var d := Run(EMPTY, requests);
            && x.trade in d.inspections && d.trades[x.trade].order in d.orders
            && var same := SameVerdict(d, x);
               && InspectTradeStep(d, x) == (if same then Done(d, true) else Refused(INSPECTION_RETRY_MISMATCH))
               && (InspectAndRecordStep(d, x, p) == Done(d, true) <==>
                     same && (d.trades[x.trade].state == IN_DISPUTE || RepeatsPrice(d, x.trade, p)))
               && (InspectAndRecordStep(d, x, p).Done? ==> InspectAndRecordStep(d, x, p) == Done(d, true))
               && (!same ==> InspectAndRecordStep(d, x, p) == Refused(INSPECTION_RETRY_MISMATCH))
  {
    hide Run;
    hide Inv;
    hide Settled;
    var d := Run(EMPTY, requests);
    RunKeeps(requests);
    RunSettles(requests);
    ClosedIsJoined(d, x.trade);
    PlainRetrySays(d, x);
    CombinedRetrySays(d, x, p);
  }

  /** One of the requests, at its turn, writes the trade's record. */
  ghost predicate WrittenIn(requests: seq<Request>, id: TradeId) {
    exists k :: 0 <= k < |requests| && Writes(Run(EMPTY, requests[..k]), requests[k], id)
  }

  lemma WrittenStep(pre: seq<Request>, r: Request, id: TradeId)
    ensures WrittenIn(pre + [r], id) <==> WrittenIn(pre, id) || Writes(Run(EMPTY, pre), r, id)
  {
    hide Run;
    hide Writes;
    var all := pre + [r];
    forall k | 0 <= k < |pre| ensures all[..k] == pre[..k] && all[k] == pre[k] { }
    assert all[..|pre|] == pre && all[|pre|] == r;
    if WrittenIn(pre, id) {
      var k :| 0 <= k < |pre| && Writes(Run(EMPTY, pre[..k]), pre[k], id);
      assert Writes(Run(EMPTY, all[..k]), all[k], id);
    }
    if Writes(Run(EMPTY, pre), r, id) { assert Writes(Run(EMPTY, all[..|pre|]), all[|pre|], id); }
  }

  /** Over every run, whatever ids and specs its requests name: a trade has its own correct
      record exactly when one of the requests wrote it, and then for good. */
  lemma {:induction false} RecordedExactlyWhenWritten(requests: seq<Request>, id: TradeId)
    ensures HasRecord(Run(EMPTY, requests), id) <==> WrittenIn(requests, id)
  {
    hide Writes;
    hide Handle;
    if requests != [] {
      var pre, r := requests[..|requests| - 1], requests[|requests| - 1];
      assert requests == pre + [r];
      RecordedExactlyWhenWritten(pre, id);
      RunSettles(pre);
      StepRecords(Run(EMPTY, pre), r, id);
      WrittenStep(pre, r, id);
      hide HasRecord;
      hide Settled;
      hide WrittenIn;
    }
  }

  ghost predicate Completes(d: Domain, r: Request, id: TradeId) {
    id in d.trades && d.trades[id].state != COMPLETED && id in After(d, r).trades && After(d, r).trades[id].state == COMPLETED
  }

  /** Only the two inspections complete a trade, and the recorded one writes under the id it names. */
  lemma CompletedBy(d: Domain, r: Request, id: TradeId)
    requires Settled(d) && Completes(d, r, id)
    ensures (r.InspectTrade? || r.InspectAndRecord?) && r.inspection.trade == id && Joined(d, id)
    ensures Handle(d, r).Done? && !Closed(d.trades[id].state) && r.inspection.specMatch && r.inspection.qualityPass
  {
    hide Settled;
    hide Handle;
    match r
    case ConfirmTrade(_) => NewTradeIsOpen(d, r, id);
    case AcceptOrder(_) => NewTradeIsOpen(d, r, id);
    case MarkDelivered(x) => DeliveryMoves(d, x);
    case InspectTrade(x) => InspectionMoves(d, x);
    case InspectAndRecord(x, p) =>
      NotJoinedIsRefused(d, x, p);
      if Joined(d, x.trade) && !Closed(d.trades[x.trade].state) && Handle(d, r).Done? {
        CombinedMoves(d, x, p);
      } else if Handle(d, r).Done? {
        CombinedStays(d, x, p);
      }
    case RecordPrice(x) => RecordingAdds(d, x);
    case _ => QuietTrades(d, r);
  }

  lemma QuietTrades(d: Domain, r: Request)
    requires Settled(d) && Quiet(r)
    ensures After(d, r).trades == d.trades
  {
    QuietOutcome(d, r);
  }

  lemma NewTradeIsOpen(d: Domain, r: Request, id: TradeId)
    requires (r.ConfirmTrade? || r.AcceptOrder?) && id in d.trades
    ensures id in After(d, r).trades && After(d, r).trades[id] == d.trades[id]
  {
    hide EvidenceComplete;
    hide Reserve;
  }

  /** The step that completes a trade leaves its own correct record exactly when it is the
      combined inspection, the observation id is not taken and the spec is the order's. */
  lemma CompletionLeavesRecord(requests: seq<Request>, r: Request, id: TradeId)
    requires Completes(Run(EMPTY, requests), r, id)
    ensures var d := Run(EMPTY, requests);
            && d.trades[id].order in d.orders
            && (HasRecord(After(d, r), id) <==>
                && r.InspectAndRecord? && Or(r.price.observation, OfTrade(id)) !in d.observations
                && Or(r.price.spec, d.orders[d.trades[id].order].spec) == d.orders[d.trades[id].order].spec)
  {
    var d := Run(EMPTY, requests);
    RunSettles(requests);
    CompletedBy(d, r, id);
    StepRecords(d, r, id);
    hide After;
    hide Handle;
    hide Run;
  }
}
