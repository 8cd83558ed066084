/** When a trade of the PostgreSQL ledger is backed by a reservation: `reserve_lot` compares
    only the key, so an acceptance under a key spent on something else may trade without
    one (data/postgres-schema.sql, beta-app/postgres-domain-adapter.mjs). */
module TradeBacking {
  import opened Wrappers
  import opened ReserveLot
  import opened DomainLedger
  import opened DomainInvariant
  import opened PriceRecords

  predicate Covered(rows: seq<ReservationRow>, order: OrderId, lot: LotId, quantity: int) {
    var at := PairAt(rows, order, lot);
    at < |rows| && rows[at].quantity >= quantity
  }

  /** The trade's order is closed by it, and its reservation covers it in a matching state. */
  ghost predicate Backed(orders: map<OrderId, OrderRow>, rows: seq<ReservationRow>, t: TradeRow) {
    && t.order in orders && orders[t.order].state == TRADE_CONFIRMED
    && Covered(rows, t.order, t.lot, t.quantity)
    && Matches(t.state, rows[PairAt(rows, t.order, t.lot)].state)
  }

  ghost predicate BackedIn(d: Domain, id: TradeId) {
    id in d.trades && Backed(d.orders, d.reservations, d.trades[id])
  }

  /** The request makes the trade. */
  predicate Makes(d: Domain, r: Request, id: TradeId) {
    && Handle(d, r).Done? && !Handle(d, r).again
    && ((r.ConfirmTrade? && r.confirmation.freshTrade == id) || (r.AcceptOrder? && r.acceptance.freshTrade == id))
  }

  /** A confirmation, or an acceptance whose key is new or whose order already holds enough. */
  predicate Firm(d: Domain, r: Request) {
    r.AcceptOrder? ==>
      !KeyUsed(d.reservations, r.acceptance.key)
      || Covered(d.reservations, r.acceptance.order, r.acceptance.lot, r.acceptance.quantity)
  }

  // ---- what a request does to the reservation rows ----

  /** The order, lot and quantity a request reserves under a key. */
  datatype KeyUse = KeyUse(key: string, order: OrderId, lot: LotId, quantity: int)

  function UseOf(r: Request): Option<KeyUse> {
    match r
    case ReserveInventory(x) => Some(KeyUse(x.key, x.order, x.lot, x.quantity))
    case AcceptOrder(x) => Some(KeyUse(x.key, x.order, x.lot, x.quantity))
    case _ => None
  }

  function UseBehind(row: ReservationRow): KeyUse { KeyUse(row.key, row.order, row.lot, row.quantity) }

  /** An existing row keeps all but its state; a new one is what the request asks, for an order
      no trade closed. */
  ghost predicate RowsFollow(d: Domain, rows': seq<ReservationRow>, use: Option<KeyUse>) {
    var rows := d.reservations;
    && |rows| <= |rows'|
    && (forall i :: 0 <= i < |rows| ==> rows'[i] == rows[i].(state := rows'[i].state))
    && (forall i :: |rows| <= i < |rows'| ==> use == Some(UseBehind(rows'[i])) && OpenAt(d.orders, rows'[i].order))
  }

  lemma ReservingFollows(d: Domain, r: Reservation)
    ensures RowsFollow(d, After(d, ReserveInventory(r)).reservations, UseOf(ReserveInventory(r)))
  {
    ReserveRows(TablesOf(d), d.orders.Keys, Call(r.order, r.lot, r.quantity, r.key, r.freshReservation));
    hide Reserve;
  }

  lemma AcceptingFollows(d: Domain, r: Acceptance)
    ensures RowsFollow(d, After(d, AcceptOrder(r)).reservations, UseOf(AcceptOrder(r)))
  {
    hide Reserve;
    hide AcceptOrderStep;
    ReserveRows(TablesOf(d), d.orders.Keys, CallOf(r));
    if AcceptOrderStep(d, r).Done? && !AcceptOrderStep(d, r).again {
      AcceptedIs(d, r);
    } else if AcceptOrderStep(d, r).Done? {
      AcceptedAgain(d, r);
    }
  }

  lemma InspectFollows(d: Domain, r: Request)
    requires r.InspectTrade? || r.InspectAndRecord?
    ensures RowsFollow(d, After(d, r).reservations, UseOf(r))
  {
    if After(d, r) != d {
      InspectOutcome(d, r);
      assert After(d, r).reservations == Judged(d, r.inspection.trade, r.inspection.specMatch, r.inspection.qualityPass).reservations;
    }
  }

  /** No other request touches the reservation rows. */
  lemma OthersLeaveRows(d: Domain, r: Request)
    requires !r.ReserveInventory? && !r.AcceptOrder? && !r.InspectTrade? && !r.InspectAndRecord?
    ensures After(d, r).reservations == d.reservations
  {
  }

  lemma StepFollows(d: Domain, r: Request)
    ensures RowsFollow(d, After(d, r).reservations, UseOf(r))
  {
    hide Handle;
    if r.ReserveInventory? {
      ReservingFollows(d, r.reservation);
    } else if r.AcceptOrder? {
      AcceptingFollows(d, r.acceptance);
    } else if r.InspectTrade? || r.InspectAndRecord? {
      InspectFollows(d, r);
    } else {
      OthersLeaveRows(d, r);
    }
  }

  /** The reservation of an order that a trade closed stays where it is, and so does its absence. */
  lemma PairStays(d: Domain, rows': seq<ReservationRow>, use: Option<KeyUse>, order: OrderId, lot: LotId)
    requires RowsFollow(d, rows', use) && !OpenAt(d.orders, order)
    ensures var at := PairAt(d.reservations, order, lot);
            PairAt(rows', order, lot) == if at < |d.reservations| then at else |rows'|
  {
    var at, at' := PairAt(d.reservations, order, lot), PairAt(rows', order, lot);
    if at < |d.reservations| { assert rows'[at].order == order; }
    if at' < |d.reservations| { assert d.reservations[at'].order == order; }
  }

  // ---- what a request does to the trades ----

  /** A trade keeps all but its state, and that too while it has no reservation. */
  ghost predicate TradeFollows(d: Domain, d': Domain, id: TradeId) {
    && id in d.trades && id in d'.trades && d'.trades[id] == d.trades[id].(state := d'.trades[id].state)
    && (d'.trades[id].state != d.trades[id].state ==> Joined(d, id))
  }

  lemma TradesStep(d: Domain, r: Request, id: TradeId)
    requires Settled(d)
    ensures id in d.trades ==> TradeFollows(d, After(d, r), id)
    ensures id in After(d, r).trades && id !in d.trades ==> Makes(d, r, id)
    ensures Makes(d, r, id) ==> id !in d.trades && id in After(d, r).trades
  {
    hide Settled;
    hide Handle;
    match r
    case ConfirmTrade(x) => ConfirmationMakes(d, x, id);
    case AcceptOrder(x) => AcceptanceMakes(d, x, id);
    case MarkDelivered(x) => DeliveryMoves(d, x);
    case InspectTrade(x) => InspectionMoves(d, x);
    case InspectAndRecord(x, p) =>
      NotJoinedIsRefused(d, x, p);
      if Joined(d, x.trade) && !Closed(d.trades[x.trade].state) && Handle(d, r).Done? {
        CombinedMoves(d, x, p);
      } else if Handle(d, r).Done? {
        CombinedStays(d, x, p);
      }
    case RecordPrice(x) => RecordingAdds(d, x);
    case _ => QuietTrades(d, r);
  }

  lemma ConfirmationMakes(d: Domain, x: Confirmation, id: TradeId)
    ensures var r := ConfirmTrade(x);
            && (id in d.trades ==> TradeFollows(d, After(d, r), id))
            && (id in After(d, r).trades && id !in d.trades ==> Makes(d, r, id))
            && (Makes(d, r, id) ==> id !in d.trades && id in After(d, r).trades)
  {
    hide EvidenceComplete;
  }

  lemma AcceptanceMakes(d: Domain, x: Acceptance, id: TradeId)
    ensures var r := AcceptOrder(x);
            && (id in d.trades ==> TradeFollows(d, After(d, r), id))
            && (id in After(d, r).trades && id !in d.trades ==> Makes(d, r, id))
            && (Makes(d, r, id) ==> id !in d.trades && id in After(d, r).trades)
  {
    hide AcceptOrderStep;
    hide Reserve;
    hide Joined;
    hide EvidenceComplete;
    if AcceptOrderStep(d, x).Done? {
      if AcceptOrderStep(d, x).again {
        AcceptedAgain(d, x);
      } else {
        AcceptedIs(d, x);
        AcceptedFits(d, x);
      }
    }
  }

  // ---- a trade is backed or not from the request that makes it on ----

  /** The row behind a successful reservation covers it exactly when the key was new or the
      order already held a large enough reservation on the lot. */
  lemma ReservedPair(t: Tables, orders: set<OrderId>, traded: set<(OrderId, LotId)>, c: Call)
    requires RowsOk(t, orders, traded) && (c.order, c.lot) !in traded && Reserve(t, orders, c).1.Returned?
    ensures var rows := Reserve(t, orders, c).0.reservations;
            Covered(rows, c.order, c.lot, c.quantity)
            <==> !KeyUsed(t.reservations, c.key) || Covered(t.reservations, c.order, c.lot, c.quantity)
  {
    var rows := Reserve(t, orders, c).0.reservations;
    ReserveRowsOk(t, orders, traded, c);
    ReserveRows(t, orders, c);
    if !KeyUsed(t.reservations, c.key) {
      assert rows == t.reservations + [NewRow(c)];
      PairAtIs(rows, |t.reservations|);
    }
  }

  /** A sound trade is backed exactly when its reservation is large enough. */
  lemma BackedIsCovered(d: Domain, id: TradeId)
    requires Inv(d) && id in d.trades
    ensures BackedIn(d, id) <==> Covered(d.reservations, d.trades[id].order, d.trades[id].lot, d.trades[id].quantity)
  {
    assert TradeOk(d.orders, d.reservations, d.trades[id]);
  }

  lemma AcceptedCovered(d: Domain, x: Acceptance)
    requires Inv(d) && Makes(d, AcceptOrder(x), x.freshTrade)
    ensures var d' := After(d, AcceptOrder(x));
            && x.freshTrade in d'.trades && d'.trades[x.freshTrade].order == x.order && d'.trades[x.freshTrade].lot == x.lot
            && d'.trades[x.freshTrade].quantity == x.quantity && d'.trades[x.freshTrade].state == CONFIRMED
            && (Covered(d'.reservations, x.order, x.lot, x.quantity) <==> Firm(d, AcceptOrder(x)))
  {
    hide AcceptOrderStep;
    hide Reserve;
    hide Covered;
    hide Conserved;
    hide EvidenceOk;
    hide InspectionsOk;
    AcceptedIs(d, x);
    NoTradeYet(d, x.order, x.lot);
    ReservedPair(TablesOf(d), d.orders.Keys, d.tradeByPair.Keys, CallOf(x));
  }

  lemma ConfirmedIs(d: Domain, x: Confirmation)
    requires Makes(d, ConfirmTrade(x), x.freshTrade)
    ensures var at := ActiveAt(d.reservations, x.order, x.lot); at < |d.reservations| && d.reservations[at].quantity >= x.quantity
    ensures x.order in d.orders
    ensures After(d, ConfirmTrade(x))
            == WithTrade(d, x.freshTrade, TradeRow(x.order, x.lot, x.supplier, x.buyer, CONFIRMED, x.price, x.quantity))
  {
    hide EvidenceComplete;
    hide WithTrade;
  }

  lemma ConfirmedCovered(d: Domain, x: Confirmation)
    requires Inv(d) && Makes(d, ConfirmTrade(x), x.freshTrade)
    ensures var d' := After(d, ConfirmTrade(x));
            && x.freshTrade in d'.trades
            && Covered(d'.reservations, d'.trades[x.freshTrade].order, d'.trades[x.freshTrade].lot, d'.trades[x.freshTrade].quantity)
  {
    ConfirmedIs(d, x);
    hide Makes;
    hide After;
    PairAtIs(d.reservations, ActiveAt(d.reservations, x.order, x.lot));
  }

  lemma MadeBacked(d: Domain, r: Request, id: TradeId)
    requires Inv(d) && Makes(d, r, id)
    ensures BackedIn(After(d, r), id) <==> Firm(d, r)
  {
    hide Inv;
    hide Handle;
    hide Covered;
    hide BackedIn;
    StepKeeps(d, r);
    if r.AcceptOrder? { AcceptedCovered(d, r.acceptance); } else { ConfirmedCovered(d, r.confirmation); }
    BackedIsCovered(After(d, r), id);
  }

  lemma TradeCloses(d: Domain, id: TradeId)
    requires Inv(d) && id in d.trades
    ensures !OpenAt(d.orders, d.trades[id].order)
  {
    assert TradeOk(d.orders, d.reservations, d.trades[id]);
  }

  lemma OldBacked(d: Domain, r: Request, id: TradeId)
    requires Inv(d) && Settled(d) && id in d.trades
    ensures BackedIn(After(d, r), id) <==> BackedIn(d, id)
  {
    hide Handle;
    hide After;
    hide Settled;
    hide Inv;
    hide BackedIn;
    hide Makes;
    var d', t := After(d, r), d.trades[id];
    StepKeeps(d, r);
    TradesStep(d, r, id);
    StepFollows(d, r);
    BackedIsCovered(d, id);
    BackedIsCovered(d', id);
    TradeCloses(d, id);
    PairStays(d, d'.reservations, UseOf(r), t.order, t.lot);
  }

  lemma StepBacks(d: Domain, r: Request, id: TradeId)
    requires Inv(d) && Settled(d)
    ensures BackedIn(After(d, r), id) <==> BackedIn(d, id) || (Makes(d, r, id) && Firm(d, r))
  {
    hide Handle;
    hide Inv;
    hide Settled;
    hide Makes;
    TradesStep(d, r, id);
    if id in d.trades { OldBacked(d, r, id); } else if Makes(d, r, id) { MadeBacked(d, r, id); }
  }

  // ---- the requests of a run ----

  /** One of the requests, at its turn, makes the trade; `firm` asks that it makes it firmly. */
  ghost predicate MadeIn(requests: seq<Request>, id: TradeId, firm: bool) {
    exists k :: 0 <= k < |requests| && MadeAt(requests, k, id, firm)
  }

  ghost predicate MadeAt(requests: seq<Request>, k: nat, id: TradeId, firm: bool)
    requires k < |requests|
  {
    var d := Run(EMPTY, requests[..k]);
    Makes(d, requests[k], id) && (firm ==> Firm(d, requests[k]))
  }

  lemma MadeStep(pre: seq<Request>, r: Request, id: TradeId, firm: bool)
    ensures MadeIn(pre + [r], id, firm) <==> MadeIn(pre, id, firm) || MadeAt(pre + [r], |pre|, id, firm)
  {
    hide Run;
    hide Makes;
    hide Firm;
    var all := pre + [r];
    forall k | 0 <= k < |pre| ensures MadeAt(all, k, id, firm) <==> MadeAt(pre, k, id, firm) {
      assert all[..k] == pre[..k] && all[k] == pre[k];
    }
  }

  /** Every trade of a run was made by one of its requests. */
  lemma {:induction false} TradesAreMade(requests: seq<Request>, id: TradeId)
    ensures id in Run(EMPTY, requests).trades <==> MadeIn(requests, id, false)
  {
    hide Makes;
    hide Handle;
    if requests != [] {
      var pre, r := requests[..|requests| - 1], requests[|requests| - 1];
      assert requests == pre + [r] && requests[..|pre|] == pre;
      TradesAreMade(pre, id);
      RunSettles(pre);
      TradesStep(Run(EMPTY, pre), r, id);
      MadeStep(pre, r, id, false);
      hide MadeIn;
    }
  }

  /** Every row was asked for by one of the requests. */
  ghost predicate Asked(rows: seq<ReservationRow>, requests: seq<Request>) {
    forall i :: 0 <= i < |rows| ==> AskedFor(rows[i], requests)
  }

  ghost predicate AskedFor(row: ReservationRow, requests: seq<Request>) {
    exists j :: 0 <= j < |requests| && UseOf(requests[j]) == Some(UseBehind(row))
  }

  lemma StepAsks(d: Domain, r: Request, requests: seq<Request>)
    requires Asked(d.reservations, requests)
    ensures Asked(After(d, r).reservations, requests + [r])
  {
    var rows, rows' := d.reservations, After(d, r).reservations;
    StepFollows(d, r);
    hide After;
    forall i | 0 <= i < |rows'| ensures AskedFor(rows'[i], requests + [r]) {
      if i < |rows| {
        assert AskedFor(rows[i], requests);
        var j :| 0 <= j < |requests| && UseOf(requests[j]) == Some(UseBehind(rows[i]));
        assert (requests + [r])[j] == requests[j];
      } else {
        assert (requests + [r])[|requests|] == r;
      }
    }
  }

  lemma {:induction false} RunAsks(requests: seq<Request>)
    ensures Asked(Run(EMPTY, requests).reservations, requests)
  {
    if requests != [] {
      var pre, r := requests[..|requests| - 1], requests[|requests| - 1];
      assert requests == pre + [r];
      RunAsks(pre);
      StepAsks(Run(EMPTY, pre), r, pre);
    }
  }

  ghost predicate SameUse(a: Option<KeyUse>, b: Option<KeyUse>) {
    a.Some? && b.Some? && a.value.key == b.value.key ==> a == b
  }

  /** No key is used for two different reservations. */
  ghost predicate Disciplined(requests: seq<Request>) {
    forall i, j :: 0 <= i < |requests| && 0 <= j < |requests| ==> SameUse(UseOf(requests[i]), UseOf(requests[j]))
  }

  /** Then a key already spent was spent on this very reservation. */
  lemma DisciplinedIsFirm(requests: seq<Request>, k: nat)
    requires Disciplined(requests) && k < |requests|
    ensures Firm(Run(EMPTY, requests[..k]), requests[k])
  {
    hide Run;
    hide Conserved;
    hide TradeOk;
    hide Reviewed;
    var rows, r := Run(EMPTY, requests[..k]).reservations, requests[k];
    LedgerIsConsistent(requests[..k]);
    RunAsks(requests[..k]);
    if r.AcceptOrder? && KeyUsed(rows, r.acceptance.key) {
      var i :| 0 <= i < |rows| && rows[i].key == r.acceptance.key;
      assert AskedFor(rows[i], requests[..k]);
      var j :| 0 <= j < k && UseOf(requests[..k][j]) == Some(UseBehind(rows[i]));
      assert SameUse(UseOf(requests[j]), UseOf(requests[k]));
      PairAtIs(rows, i);
    }
  }

  // ---- the main results ----

  /** In every reachable state an acceptance that trades is backed exactly when its key is new
      or the order already holds a large enough reservation on the lot. */
  lemma AcceptanceBacked(requests: seq<Request>, r: Acceptance)
    requires Makes(Run(EMPTY, requests), AcceptOrder(r), r.freshTrade)
    ensures var d := Run(EMPTY, requests);
            BackedIn(After(d, AcceptOrder(r)), r.freshTrade) <==>
            !KeyUsed(d.reservations, r.key) || Covered(d.reservations, r.order, r.lot, r.quantity)
  {
    hide Makes;
    hide BackedIn;
    RunKeeps(requests);
    MadeBacked(Run(EMPTY, requests), AcceptOrder(r), r.freshTrade);
  }

  /** Over every run, whatever keys its requests use: a trade of the run is backed at the end
      exactly when the request that made it was a confirmation, or an acceptance whose key was
      new or whose order already held enough.  What happens afterwards makes no difference. */
  lemma {:induction false} BackedExactlyWhen(requests: seq<Request>, id: TradeId)
    ensures BackedIn(Run(EMPTY, requests), id) <==> MadeIn(requests, id, true)
  {
    hide Makes;
    hide Firm;
    hide Handle;
    hide Backed;
    hide Inv;
    hide Settled;
    if requests != [] {
      var pre, r := requests[..|requests| - 1], requests[|requests| - 1];
      assert requests == pre + [r] && requests[..|pre|] == pre;
      BackedExactlyWhen(pre, id);
      RunSettles(pre);
      RunKeeps(pre);
      StepBacks(Run(EMPTY, pre), r, id);
      MadeStep(pre, r, id, true);
      hide BackedIn;
      hide MadeIn;
    }
  }

  /** The reservation rows of an order and lot are the one row at `at`. */
  ghost predicate OnlyRow(rows: seq<ReservationRow>, order: OrderId, lot: LotId, at: nat) {
    at < |rows| && forall i :: 0 <= i < |rows| ==> (rows[i].order == order && rows[i].lot == lot <==> i == at)
  }

  /** When no reservation key is reused for another order, lot or quantity, every trade of
      every reachable state is its order's only trade and closes it, has exactly one reservation
      for its order and lot, covering its quantity and in the matching state, and is on a lot
      with five approved documents. */
  lemma TradesAreBacked(requests: seq<Request>, id: TradeId)
    requires Disciplined(requests) && id in Run(EMPTY, requests).trades
    ensures var d := Run(EMPTY, requests);
            var t := d.trades[id];
            && (forall other :: other in d.trades && d.trades[other].order == t.order ==> other == id)
            && t.order in d.orders && d.orders[t.order].state == TRADE_CONFIRMED
            && (exists at: nat :: OnlyRow(d.reservations, t.order, t.lot, at)
                                  && d.reservations[at].quantity >= t.quantity
                                  && Matches(t.state, d.reservations[at].state))
            && Reviewed(d.evidences, t.lot)
  {
    TradesAreMade(requests, id);
    hide Run;
    hide Firm;
    hide Makes;
    var k :| 0 <= k < |requests| && MadeAt(requests, k, id, false);
    DisciplinedIsFirm(requests, k);
    assert MadeAt(requests, k, id, true);
    BackedExactlyWhen(requests, id);
    RunKeeps(requests);
    var d := Run(EMPTY, requests);
    var at := PairAt(d.reservations, d.trades[id].order, d.trades[id].lot);
    assert OnlyRow(d.reservations, d.trades[id].order, d.trades[id].lot, at);
  }

  /** Confirmed, and no row reserves anything for it. */
  predicate Stranded(d: Domain, id: TradeId) {
    && id in d.trades && d.trades[id].state == CONFIRMED
    && PairAt(d.reservations, d.trades[id].order, d.trades[id].lot) == |d.reservations|
  }

  lemma StrandedStays(d: Domain, r: Request, id: TradeId)
    requires Inv(d) && Settled(d) && Stranded(d, id)
    ensures Stranded(After(d, r), id)
  {
    hide Handle;
    hide After;
    hide Settled;
    hide Inv;
    hide Makes;
    var t := d.trades[id];
    TradesStep(d, r, id);
    StepFollows(d, r);
    TradeCloses(d, id);
    PairStays(d, After(d, r).reservations, UseOf(r), t.order, t.lot);
  }

  lemma {:induction false} StrandedForGood(requests: seq<Request>, more: seq<Request>, id: TradeId)
    requires Stranded(Run(EMPTY, requests), id)
    ensures Stranded(Run(EMPTY, requests + more), id)
  {
    hide Stranded;
    hide Handle;
    if more == [] {
      assert requests + more == requests;
    } else {
      var pre, r := more[..|more| - 1], more[|more| - 1];
      StrandedForGood(requests, pre, id);
      var all := requests + more;
      assert all[..|all| - 1] == requests + pre && all[|all| - 1] == r;
      RunKeeps(requests + pre);
      RunSettles(requests + pre);
      StrandedStays(Run(EMPTY, requests + pre), r, id);
    }
  }

  lemma StrandedIsUnbacked(d: Domain, id: TradeId)
    requires Stranded(d, id)
    ensures !BackedIn(d, id)
  {
  }

  lemma AcceptedStranded(d: Domain, r: Acceptance)
    requires Inv(d) && Makes(d, AcceptOrder(r), r.freshTrade)
    requires KeyUsed(d.reservations, r.key) && PairAt(d.reservations, r.order, r.lot) == |d.reservations|
    ensures var d' := After(d, AcceptOrder(r));
            Stranded(d', r.freshTrade) && d'.reservations == d.reservations && d'.lots == d.lots
  {
    AcceptedCovered(d, r);
    AcceptedIs(d, r);
    hide AcceptOrderStep;
    hide Inv;
  }

  /** An acceptance under a key spent on something else, of an order that holds nothing on the
      lot, trades without reserving anything.  Whatever comes after, the trade never gets a
      reservation, and without one it is never delivered or inspected. */
  lemma ReusedKeyTradesUnbacked(requests: seq<Request>, r: Acceptance, more: seq<Request>)
    requires var d := Run(EMPTY, requests);
             && Makes(d, AcceptOrder(r), r.freshTrade) && KeyUsed(d.reservations, r.key)
             && PairAt(d.reservations, r.order, r.lot) == |d.reservations|
    ensures var d, d' := Run(EMPTY, requests), Run(EMPTY, requests + [AcceptOrder(r)]);
            r.freshTrade in d'.trades && d'.reservations == d.reservations && d'.lots == d.lots
    ensures var e := Run(EMPTY, requests + [AcceptOrder(r)] + more); Stranded(e, r.freshTrade) && !BackedIn(e, r.freshTrade)
  {
    var d, all := Run(EMPTY, requests), requests + [AcceptOrder(r)];
    assert all[..|all| - 1] == requests;
    RunKeeps(requests);
    AcceptedStranded(d, r);
    hide Handle;
    hide Inv;
    hide Makes;
    hide Stranded;
    StrandedForGood(all, more, r.freshTrade);
    StrandedIsUnbacked(Run(EMPTY, all + more), r.freshTrade);
  }
}
