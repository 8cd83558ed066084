/** What every run of the trade engine keeps, restores of any earlier snapshot included. */
module EngineInvariant {
  import opened Texts
  import opened Wrappers
  import opened InventoryLedger
  import opened SnapshotIntegrity
  import opened TradeEngine
  import opened SpecAnswers
  import Gate = Evidence
  import Quarantine

  // ---- ids ----

  lemma OrderIdEnds(n: nat)
    ensures Suffix(OrderId(n)) == n
  {
    PaddedNumberReadsBack(ORDER_PREFIX, n, 5);
  }

  lemma TradeIdEnds(n: nat)
    ensures Suffix(TradeId(n)) == n
  {
    PaddedNumberReadsBack(TRADE_PREFIX, n, 5);
  }

  const COLON: CodeUnit := 58

  /** The text before the first colon: the order a reservation id belongs to. */
  function Owner(key: Text): Text {
    if key == [] || key[0] == COLON then [] else [key[0]] + Owner(key[1..])
  }

  predicate NoColon(t: Text) {
    forall i :: 0 <= i < |t| ==> t[i] != COLON
  }

  lemma {:induction false} OwnerStops(t: Text, rest: Text)
    requires NoColon(t) && (rest == [] || rest[0] == COLON)
    ensures Owner(t + rest) == t
  {
    if t == [] {
      assert t + rest == rest;
    } else {
      assert (t + rest)[1..] == t[1..] + rest;
      OwnerStops(t[1..], rest);
    }
  }

  lemma OrderIdHasNoColon(n: nat)
    ensures NoColon(OrderId(n))
  {
  }

  /** A full or partial reservation id names its order. */
  lemma KeyNamesOrder(id: Text, n: nat, tail: Text)
    requires id == OrderId(n)
    ensures Owner(id) == id && Owner(id + PARTIAL + tail) == id
  {
    OrderIdHasNoColon(n);
    OwnerStops(id, []);
    assert id + [] == id;
    OwnerStops(id, PARTIAL + tail);
    assert id + PARTIAL + tail == id + (PARTIAL + tail);
  }

  // ---- the invariant, component by component ----

  ghost predicate OrdersNumbered(orders: map<Text, Order>, n: nat) {
    && (forall id :: id in orders ==> orders[id].orderId == id && 1 <= Suffix(id) <= n && id == OrderId(Suffix(id)))
    && (forall k :: 1 <= k <= n ==> OrderId(k) in orders)
  }

  ghost predicate TradesNumbered(trades: map<Text, Trade>, n: nat) {
    && (forall id :: id in trades ==> trades[id].tradeId == id && 1 <= Suffix(id) <= n && id == TradeId(Suffix(id)))
    && (forall k :: 1 <= k <= n ==> TradeId(k) in trades)
  }

  /** An order has a trade exactly when it was accepted, in full or in part. */
  predicate OrderFine(o: Order) {
    && CommonRefusal(RestatedOrder(o)) == None && o.terms == CANONICAL && o.specAttributes == APPROVED
    && (o.tradeId.Some? <==> o.status == TRADED || o.status == PARTLY_TRADED)
    && (o.accepted.Some? <==> o.tradeId.Some?)
    && (o.status == TRADED ==> o.accepted == Some(o.quantity))
    && (o.status == PARTLY_TRADED ==> 20 <= o.accepted.value < o.quantity)
  }

  ghost predicate OrdersFine(orders: map<Text, Order>) {
    forall id :: id in orders ==> OrderFine(orders[id])
  }

  /** Each trade is its order's one trade, for the quantity the order says. */
  ghost predicate Linked(orders: map<Text, Order>, trades: map<Text, Trade>) {
    && (forall t :: t in trades ==> trades[t].orderId in orders && orders[trades[t].orderId].tradeId == Some(t))
    && (forall o :: o in orders && orders[o].tradeId.Some? ==>
          orders[o].tradeId.value in trades && trades[orders[o].tradeId.value].orderId == o
          && orders[o].accepted == Some(trades[orders[o].tradeId.value].quantity))
  }

  predicate Tracks(trade: TradeStatus, reservation: ReservationStatus) {
    match trade
    case CONFIRMED => reservation == HELD
    case SENT => reservation == SHIPPED
    case FULFILLED => reservation == PASSED
    case CONTESTED => reservation == FAILED
  }

  predicate BackedBy(t: Trade, reservations: map<Text, Reservation>) {
    && t.reservationId in reservations && Owner(t.reservationId) == t.orderId
    && reservations[t.reservationId].lotId == t.lotSnapshot.lotId
    && reservations[t.reservationId].quantity == t.quantity
    && Tracks(t.status, reservations[t.reservationId].status)
  }

  ghost predicate Backed(trades: map<Text, Trade>, reservations: map<Text, Reservation>) {
    forall t :: t in trades ==> BackedBy(trades[t], reservations)
  }

  /** The reservation of the one trade of the order it is named after. */
  predicate OwnedBy(k: Text, r: Reservation, orders: map<Text, Order>, trades: map<Text, Trade>) {
    && r.reservationId == k && Owner(k) in orders
    && orders[Owner(k)].tradeId.Some? && orders[Owner(k)].tradeId.value in trades
    && trades[orders[Owner(k)].tradeId.value].reservationId == k
  }

  ghost predicate Owned(orders: map<Text, Order>, trades: map<Text, Trade>, reservations: map<Text, Reservation>) {
    forall k :: k in reservations ==> OwnedBy(k, reservations[k], orders, trades)
  }

  predicate Final(s: ReservationStatus) { s == PASSED || s == FAILED }

  ghost predicate Inspected(reservations: map<Text, Reservation>, inspections: map<Text, Inspection>) {
    && (forall k :: k in inspections <==> k in reservations && Final(reservations[k].status))
    && (forall k :: k in inspections ==> inspections[k].reservationId == k && inspections[k].status == reservations[k].status)
  }

  ghost predicate SealsHold(hash: Hash, trades: map<Text, Trade>) {
    forall t :: t in trades ==> Verify(hash, trades[t])
  }

  predicate LotFine(l: Lot) {
    l.lotId != [] && l.available >= 0 && l.askPrice > 0 && l.deliveryDays >= 0 && l.terms == CANONICAL
  }

  predicate LotsFine(lots: seq<Lot>) {
    LotIdsDiffer(lots) && forall i :: 0 <= i < |lots| ==> LotFine(lots[i])
  }

  /** What the first n trades took from a lot. */
  function TakenUpTo(trades: map<Text, Trade>, lotId: Text, n: nat): int {
    if n == 0 then 0
    else
      TakenUpTo(trades, lotId, n - 1)
      + if TradeId(n) in trades && trades[TradeId(n)].lotSnapshot.lotId == lotId then trades[TradeId(n)].quantity else 0
  }

  /** The stock a lot was registered with: no operation changes the sum. */
  function Total(l: Lot): int { l.available + l.reserved }

  /** A lot's reserved stock is what its trades took. */
  ghost predicate StockTaken(lots: seq<Lot>, trades: map<Text, Trade>, n: nat) {
    forall i :: 0 <= i < |lots| ==> lots[i].reserved == TakenUpTo(trades, lots[i].lotId, n)
  }

  /** The sealed remainder of the k-th trade is what the trades up to it left of the lot. */
  predicate Replays1(lots: seq<Lot>, trades: map<Text, Trade>, k: nat, s: LotSnapshot, quantity: int) {
    && LotAt(lots, s.lotId) < |lots| && s.quantity == quantity > 0
    && s.remainingQty == Total(lots[LotAt(lots, s.lotId)]) - TakenUpTo(trades, s.lotId, k)
  }

  ghost predicate StockReplays(lots: seq<Lot>, trades: map<Text, Trade>, n: nat) {
    forall k :: 1 <= k <= n && TradeId(k) in trades ==>
      Replays1(lots, trades, k, trades[TradeId(k)].lotSnapshot, trades[TradeId(k)].quantity)
  }

  ghost predicate Good(hash: Hash, e: Engine) {
    && OrdersNumbered(e.orders, e.orderSequence) && TradesNumbered(e.trades, e.tradeSequence)
    && OrdersFine(e.orders) && Linked(e.orders, e.trades)
    && Backed(e.trades, e.inventory.reservations) && Owned(e.orders, e.trades, e.inventory.reservations)
    && Inspected(e.inventory.reservations, e.inventory.inspections)
    && SealsHold(hash, e.trades)
    && LotsFine(e.inventory.lots)
    && StockTaken(e.inventory.lots, e.trades, e.tradeSequence)
    && StockReplays(e.inventory.lots, e.trades, e.tradeSequence)
  }

  // ---- submitting an order ----

  lemma OrdersNumberedAdd(orders: map<Text, Order>, n: nat, o: Order)
    requires OrdersNumbered(orders, n) && o.orderId == OrderId(n + 1)
    ensures OrdersNumbered(orders[o.orderId := o], n + 1) && o.orderId !in orders
  {
    hide OrderId;
    hide Suffix;
    OrderIdEnds(n + 1);
    forall k | 1 <= k <= n + 1 ensures OrderId(k) in orders[o.orderId := o] {
      if k <= n { assert OrderId(k) in orders; }
    }
  }

  /** Setting an order that has no trade, and had none, unlinks nothing. */
  lemma OrderSetKeeps(orders: map<Text, Order>, trades: map<Text, Trade>, reservations: map<Text, Reservation>, o: Order)
    requires OrdersFine(orders) && Linked(orders, trades) && Owned(orders, trades, reservations)
    requires OrderFine(o) && o.tradeId == None && (o.orderId in orders ==> orders[o.orderId].tradeId == None)
    ensures OrdersFine(orders[o.orderId := o]) && Linked(orders[o.orderId := o], trades)
    ensures Owned(orders[o.orderId := o], trades, reservations)
  {
    hide OrderFine;
    hide Owner;
    var orders' := orders[o.orderId := o];
    forall k | k in reservations ensures OwnedBy(k, reservations[k], orders', trades) {
      assert OwnedBy(k, reservations[k], orders, trades);
    }
  }

  lemma NewOrderIsFine(e: Engine, f: SubmitForm)
    requires SubmitRefusal(e, f) == None
    ensures OrderFine(NewOrder(e, f)) && NewOrder(e, f).orderId == OrderId(e.orderSequence + 1) && NewOrder(e, f).tradeId == None
  {
    hide Candidate;
    ApprovedAnswersItself();
    FilledAgain();
    hide AnswersOf;
    hide Normalized;
    hide FieldRefusal;
  }

  lemma SubmittedKeeps(hash: Hash, e: Engine, f: SubmitForm)
    requires Good(hash, e) && SubmitRefusal(e, f) == None
    ensures Good(hash, Submitted(e, f).engine)
  {
    hide OrdersNumbered;
    hide TradesNumbered;
    hide OrdersFine;
    hide Linked;
    hide Backed;
    hide Owned;
    hide Inspected;
    hide SealsHold;
    hide LotsFine;
    hide StockTaken;
    hide StockReplays;
    hide OrderFine;
    hide NewOrder;
    hide SubmitRefusal;
    var o := NewOrder(e, f);
    NewOrderIsFine(e, f);
    OrdersNumberedAdd(e.orders, e.orderSequence, o);
    OrderSetKeeps(e.orders, e.trades, e.inventory.reservations, o);
  }

  lemma SubmitKeeps(hash: Hash, e: Engine, f: SubmitForm)
    requires Good(hash, e)
    ensures Good(hash, Submit(e, f).engine)
  {
    if !Replays(e, f.key) && SubmitRefusal(e, f) == None { SubmittedKeeps(hash, e, f); }
    hide Good;
    hide SubmitRefusal;
    hide Submitted;
  }

  // ---- closing an open order ----

  /** Only the status and the counter-offer of an order without a trade change. */
  predicate Closes(o: Order, o': Order) {
    Open(o) && o' == o.(status := o'.status, counterOffer := o'.counterOffer) && o'.status != TRADED && o'.status != PARTLY_TRADED
  }

  lemma FineAt(orders: map<Text, Order>, id: Text)
    requires OrdersFine(orders) && id in orders
    ensures OrderFine(orders[id])
  {
  }

  lemma ClosedIsFine(o: Order, o': Order)
    requires OrderFine(o) && Closes(o, o')
    ensures OrderFine(o') && o.tradeId == None && o'.tradeId == None
  {
    hide CommonRefusal;
  }

  lemma ChangeOrderKeeps(hash: Hash, e: Engine, key: Text, o: Order)
    requires Good(hash, e) && o.orderId in e.orders && Closes(e.orders[o.orderId], o)
    ensures Good(hash, ChangeOrder(e, key, o).engine)
  {
    hide OrdersNumbered;
    hide TradesNumbered;
    hide OrdersFine;
    hide Linked;
    hide Backed;
    hide Owned;
    hide Inspected;
    hide SealsHold;
    hide LotsFine;
    hide StockTaken;
    hide StockReplays;
    hide OrderFine;
    hide Closes;
    FineAt(e.orders, o.orderId);
    ClosedIsFine(e.orders[o.orderId], o);
    OrdersNumberedSet(e.orders, e.orderSequence, o);
    OrderSetKeeps(e.orders, e.trades, e.inventory.reservations, o);
  }

  lemma OrdersNumberedSet(orders: map<Text, Order>, n: nat, o: Order)
    requires OrdersNumbered(orders, n) && o.orderId in orders
    ensures OrdersNumbered(orders[o.orderId := o], n)
  {
  }

  lemma KeyedOrder(hash: Hash, e: Engine, id: Text)
    requires Good(hash, e) && id in e.orders
    ensures e.orders[id].orderId == id
  {
  }

  lemma CounterKeeps(hash: Hash, e: Engine, f: CounterForm)
    requires Good(hash, e)
    ensures Good(hash, CounterOffer(e, f).engine)
  {
    hide Good;
    hide ChangeOrder;
    if !Replays(e, f.key) && CounterRefusal(e, f) == None {
      KeyedOrder(hash, e, f.orderId);
      ChangeOrderKeeps(hash, e, f.key, Countered(e, f));
    }
  }

  lemma RejectKeeps(hash: Hash, e: Engine, key: Text, id: Text, supplierId: Text)
    requires Good(hash, e)
    ensures Good(hash, Reject(e, key, id, supplierId).engine)
  {
    hide Good;
    hide ChangeOrder;
    if !Replays(e, key) && RejectRefusal(e, id, supplierId) == None {
      KeyedOrder(hash, e, id);
      ChangeOrderKeeps(hash, e, key, e.orders[id].(status := REJECTED));
    }
  }

  lemma ExpireKeeps(hash: Hash, e: Engine, id: Text, now: Instant)
    requires Good(hash, e)
    ensures Good(hash, Expire(e, id, now).engine)
  {
    hide Good;
    hide ChangeOrder;
    if ExpireRefusal(e, id, now) == None {
      KeyedOrder(hash, e, id);
      ChangeOrderKeeps(hash, e, [], e.orders[id].(status := LAPSED));
    }
  }

  // ---- accepting an order ----

  /** The acceptance passes both rounds of checks. */
  predicate Accepts(e: Engine, f: AcceptForm) {
    AcceptStart(e, f) == None && Acceptable(e, f)
  }

  lemma NormalizedInside(hash: Hash, e: Engine, id: Text)
    requires Good(hash, e) && id in e.orders
    ensures e.orders[id].specAttributes == APPROVED
  {
    GoodOrders(hash, e);
    FineAt(e.orders, id);
    hide Good;
    hide OrdersFine;
    hide CommonRefusal;
  }

  lemma ApprovedRefreshes(o: Order)
    requires o.specAttributes == APPROVED
    ensures o.(specAttributes := Normalized(AnswersOf(o.specAttributes))) == o
  {
    ApprovedAnswersItself();
    hide Lit;
    hide AnswersOf;
    hide Normalized;
    hide AnswerRefusal;
  }

  lemma SetAsItWas(orders: map<Text, Order>, id: Text)
    requires id in orders
    ensures orders[id := orders[id]] == orders
  {
  }

  /** Revalidating an order of a reachable ledger writes back the answers it already has. */
  lemma RefreshIsIdentity(hash: Hash, e: Engine, f: AcceptForm)
    requires Good(hash, e) && f.orderId in e.orders
    ensures Refreshed(e, f) == e
  {
    hide Good;
    hide Lit;
    hide AnswersOf;
    hide Normalized;
    NormalizedInside(hash, e, f.orderId);
    ApprovedRefreshes(e.orders[f.orderId]);
    SetAsItWas(e.orders, f.orderId);
  }

  lemma NothingNamed(orders: map<Text, Order>, trades: map<Text, Trade>, reservations: map<Text, Reservation>, key: Text)
    requires Owned(orders, trades, reservations) && Owner(key) in orders && orders[Owner(key)].tradeId == None
    ensures key !in reservations
  {
    hide Owner;
    forall k | k in reservations ensures k != key { assert OwnedBy(k, reservations[k], orders, trades); }
  }

  lemma KeyOwner(e: Engine, f: AcceptForm)
    requires OrdersNumbered(e.orders, e.orderSequence) && OrdersFine(e.orders) && Accepts(e, f)
    ensures KeyOf(e, f) != [] && Owner(KeyOf(e, f)) == f.orderId && e.orders[f.orderId].orderId == f.orderId
    ensures e.orders[f.orderId].tradeId == None && 20 <= QuantityOf(e, f) <= e.orders[f.orderId].quantity
  {
    hide LotOf;
    hide Differs;
    hide TermsAgree;
    FineAt(e.orders, f.orderId);
    hide OrdersFine;
    KeyNamesOrder(f.orderId, Suffix(f.orderId), Decimal(Natural(QuantityOf(e, f))));
    hide Owner;
    hide OrderId;
    hide Suffix;
    hide Decimal;
  }

  lemma GoodNames(hash: Hash, e: Engine)
    requires Good(hash, e)
    ensures OrdersNumbered(e.orders, e.orderSequence) && OrdersFine(e.orders) && Owned(e.orders, e.trades, e.inventory.reservations)
  {
    hide OrdersNumbered;
    hide OrdersFine;
    hide Owned;
  }

  /** The order has no trade yet, so no reservation is named after it. */
  lemma KeyIsFresh(hash: Hash, e: Engine, f: AcceptForm)
    requires Good(hash, e) && Accepts(e, f)
    ensures KeyOf(e, f) != [] && Owner(KeyOf(e, f)) == f.orderId && KeyOf(e, f) !in e.inventory.reservations
    ensures e.orders[f.orderId].orderId == f.orderId && e.orders[f.orderId].tradeId == None
    ensures 20 <= QuantityOf(e, f) <= e.orders[f.orderId].quantity
  {
    GoodNames(hash, e);
    KeyOwner(e, f);
    NothingNamed(e.orders, e.trades, e.inventory.reservations, KeyOf(e, f));
    hide Good;
    hide OrdersNumbered;
    hide OrdersFine;
    hide Owned;
    hide Owner;
    hide KeyOf;
    hide QuantityOf;
    hide LateRefusal;
    hide AcceptStart;
  }

  /** So stock is taken once, under that name. */
  lemma AcceptReservesAfresh(hash: Hash, e: Engine, f: AcceptForm)
    requires Good(hash, e) && Accepts(e, f) && Reserved(e, f).Ok?
    ensures var o, q, key, v := e.orders[f.orderId], QuantityOf(e, f), KeyOf(e, f), Reserved(e, f).value;
            var i := LotOf(e, Default(f.lotId, o.candidateLotId));
            && o.orderId == f.orderId && o.tradeId == None && 20 <= q <= o.quantity
            && Owner(key) == f.orderId && key !in e.inventory.reservations
            && q <= e.inventory.lots[i].available
            && v.lots == e.inventory.lots[i := Taken(e.inventory.lots[i], q)]
            && v.inspections == e.inventory.inspections
            && v.reservations == e.inventory.reservations[key := v.reservations[key]]
            && v.reservations[key].reservationId == key && v.reservations[key].lotId == e.inventory.lots[i].lotId
            && v.reservations[key].quantity == q && v.reservations[key].status == HELD
  {
    hide Good;
    hide KeyOf;
    hide QuantityOf;
    hide LateRefusal;
    hide AcceptStart;
    hide Owner;
    KeyIsFresh(hash, e, f);
  }

  lemma TradesNumberedAdd(trades: map<Text, Trade>, n: nat, t: Trade)
    requires TradesNumbered(trades, n) && t.tradeId == TradeId(n + 1)
    ensures TradesNumbered(trades[t.tradeId := t], n + 1) && t.tradeId !in trades
  {
    hide TradeId;
    hide Suffix;
    TradeIdEnds(n + 1);
    forall k | 1 <= k <= n + 1 ensures TradeId(k) in trades[t.tradeId := t] {
      if k <= n { assert TradeId(k) in trades; }
    }
  }

  lemma LinkedAdd(orders: map<Text, Order>, trades: map<Text, Trade>, o: Order, t: Trade)
    requires Linked(orders, trades) && t.tradeId !in trades
    requires o.orderId in orders && orders[o.orderId].tradeId == None && t.orderId == o.orderId
    requires o.tradeId == Some(t.tradeId) && o.accepted == Some(t.quantity)
    ensures Linked(orders[o.orderId := o], trades[t.tradeId := t])
  {
  }

  lemma BackedAdd(trades: map<Text, Trade>, reservations: map<Text, Reservation>, t: Trade, r: Reservation)
    requires Backed(trades, reservations) && t.tradeId !in trades && r.reservationId !in reservations
    requires BackedBy(t, reservations[r.reservationId := r])
    ensures Backed(trades[t.tradeId := t], reservations[r.reservationId := r])
  {
    hide Owner;
  }

  lemma OwnedAdd(orders: map<Text, Order>, trades: map<Text, Trade>, reservations: map<Text, Reservation>,
                 o: Order, t: Trade, r: Reservation)
    requires Owned(orders, trades, reservations) && t.tradeId !in trades
    requires o.orderId in orders && orders[o.orderId].tradeId == None
    requires OwnedBy(r.reservationId, r, orders[o.orderId := o], trades[t.tradeId := t])
    ensures Owned(orders[o.orderId := o], trades[t.tradeId := t], reservations[r.reservationId := r])
  {
    hide Owner;
    var orders', trades', reservations' := orders[o.orderId := o], trades[t.tradeId := t], reservations[r.reservationId := r];
    forall k | k in reservations' ensures OwnedBy(k, reservations'[k], orders', trades') {
      if k != r.reservationId { assert OwnedBy(k, reservations[k], orders, trades); }
    }
  }

  lemma {:induction false} TakenIgnoresLater(trades: map<Text, Trade>, t: Trade, lotId: Text, m: nat, n: nat)
    requires m < n && t.tradeId == TradeId(n)
    ensures TakenUpTo(trades[t.tradeId := t], lotId, m) == TakenUpTo(trades, lotId, m)
  {
    if m > 0 {
      TradeIdEnds(m);
      TradeIdEnds(n);
      TakenIgnoresLater(trades, t, lotId, m - 1, n);
    }
  }

  lemma TakenAdd(trades: map<Text, Trade>, t: Trade, lotId: Text, n: nat)
    requires t.tradeId == TradeId(n + 1)
    ensures TakenUpTo(trades[t.tradeId := t], lotId, n + 1)
            == TakenUpTo(trades, lotId, n) + if t.lotSnapshot.lotId == lotId then t.quantity else 0
  {
    TakenIgnoresLater(trades, t, lotId, n, n + 1);
  }

  lemma LotAtKept(lots: seq<Lot>, lots': seq<Lot>, id: Text)
    requires |lots| <= |lots'| && LotIdsDiffer(lots') && forall i :: 0 <= i < |lots| ==> lots'[i].lotId == lots[i].lotId
    requires LotAt(lots, id) < |lots|
    ensures LotAt(lots', id) == LotAt(lots, id)
  {
  }

  lemma StockAdd(lots: seq<Lot>, trades: map<Text, Trade>, n: nat, i: nat, t: Trade)
    requires LotsFine(lots) && StockTaken(lots, trades, n) && i < |lots|
    requires t.tradeId == TradeId(n + 1) && 0 < t.quantity <= lots[i].available
    requires t.lotSnapshot.lotId == lots[i].lotId
    ensures var lots' := lots[i := Taken(lots[i], t.quantity)];
            LotsFine(lots') && StockTaken(lots', trades[t.tradeId := t], n + 1)
  {
    var lots', trades' := lots[i := Taken(lots[i], t.quantity)], trades[t.tradeId := t];
    forall j | 0 <= j < |lots'| ensures lots'[j].reserved == TakenUpTo(trades', lots'[j].lotId, n + 1) {
      TakenAdd(trades, t, lots[j].lotId, n);
    }
  }

  lemma ReplaysKept(lots: seq<Lot>, lots': seq<Lot>, trades: map<Text, Trade>, t: Trade, k: nat, n: nat)
    requires k < n && t.tradeId == TradeId(n) && TradeId(k) in trades
    requires |lots| == |lots'| && LotIdsDiffer(lots')
    requires forall i :: 0 <= i < |lots| ==> lots'[i].lotId == lots[i].lotId && Total(lots'[i]) == Total(lots[i])
    requires Replays1(lots, trades, k, trades[TradeId(k)].lotSnapshot, trades[TradeId(k)].quantity)
    ensures var trades' := trades[t.tradeId := t];
            Replays1(lots', trades', k, trades'[TradeId(k)].lotSnapshot, trades'[TradeId(k)].quantity)
  {
    var s := trades[TradeId(k)].lotSnapshot;
    TradeIdEnds(k);
    TradeIdEnds(n);
    TakenIgnoresLater(trades, t, s.lotId, k, n);
    hide TakenUpTo;
    hide TradeId;
    LotAtKept(lots, lots', s.lotId);
  }

  lemma ReplaysLast(lots: seq<Lot>, trades: map<Text, Trade>, n: nat, i: nat, t: Trade)
    requires LotsFine(lots) && StockTaken(lots, trades, n) && i < |lots|
    requires t.tradeId == TradeId(n + 1) && t.lotSnapshot.quantity == t.quantity > 0
    requires t.lotSnapshot.lotId == lots[i].lotId && t.lotSnapshot.remainingQty == lots[i].available - t.quantity
    ensures Replays1(lots[i := Taken(lots[i], t.quantity)], trades[t.tradeId := t], n + 1, t.lotSnapshot, t.quantity)
  {
    var lots' := lots[i := Taken(lots[i], t.quantity)];
    TakenAdd(trades, t, lots[i].lotId, n);
    hide TakenUpTo;
    hide TradeId;
    LotAtKept(lots, lots', lots[i].lotId);
  }

  /** What a trade says of its lot, in a ledger that has it. */
  predicate TradeReplays(lots: seq<Lot>, trades: map<Text, Trade>, k: nat) {
    TradeId(k) in trades ==> Replays1(lots, trades, k, trades[TradeId(k)].lotSnapshot, trades[TradeId(k)].quantity)
  }

  lemma TakenKeepsLots(lots: seq<Lot>, i: nat, q: int)
    requires LotsFine(lots) && i < |lots|
    ensures var lots' := lots[i := Taken(lots[i], q)];
            LotIdsDiffer(lots') && forall j :: 0 <= j < |lots| ==> lots'[j].lotId == lots[j].lotId && Total(lots'[j]) == Total(lots[j])
  {
  }

  lemma EarlierReplays(lots: seq<Lot>, trades: map<Text, Trade>, n: nat, i: nat, t: Trade, k: nat)
    requires LotsFine(lots) && i < |lots| && k <= n && t.tradeId == TradeId(n + 1) && TradeReplays(lots, trades, k)
    ensures TradeReplays(lots[i := Taken(lots[i], t.quantity)], trades[t.tradeId := t], k)
  {
    hide TradeId;
    hide Suffix;
    hide Replays1;
    TradeIdEnds(k);
    TradeIdEnds(n + 1);
    TakenKeepsLots(lots, i, t.quantity);
    hide LotsFine;
    hide Taken;
    if TradeId(k) in trades { ReplaysKept(lots, lots[i := Taken(lots[i], t.quantity)], trades, t, k, n + 1); }
  }

  lemma ReplaysAdd(lots: seq<Lot>, trades: map<Text, Trade>, n: nat, i: nat, t: Trade)
    requires LotsFine(lots) && StockTaken(lots, trades, n) && StockReplays(lots, trades, n) && i < |lots|
    requires t.tradeId == TradeId(n + 1) && t.lotSnapshot.quantity == t.quantity > 0
    requires t.lotSnapshot.lotId == lots[i].lotId && t.lotSnapshot.remainingQty == lots[i].available - t.quantity
    ensures StockReplays(lots[i := Taken(lots[i], t.quantity)], trades[t.tradeId := t], n + 1)
  {
    hide TradeId;
    hide Replays1;
    hide StockTaken;
    hide LotsFine;
    hide Taken;
    var lots', trades' := lots[i := Taken(lots[i], t.quantity)], trades[t.tradeId := t];
    ReplaysLast(lots, trades, n, i, t);
    forall k | 1 <= k <= n + 1 && TradeId(k) in trades'
      ensures Replays1(lots', trades', k, trades'[TradeId(k)].lotSnapshot, trades'[TradeId(k)].quantity)
    {
      if k <= n {
        assert TradeReplays(lots, trades, k);
        EarlierReplays(lots, trades, n, i, t, k);
        assert TradeReplays(lots', trades', k);
      }
    }
  }

  lemma InspectedAdd(reservations: map<Text, Reservation>, inspections: map<Text, Inspection>, r: Reservation)
    requires Inspected(reservations, inspections) && r.reservationId !in reservations && r.status == HELD
    ensures Inspected(reservations[r.reservationId := r], inspections)
  {
  }

  lemma SealsAdd(hash: Hash, trades: map<Text, Trade>, t: Trade)
    requires SealsHold(hash, trades) && Verify(hash, t)
    ensures SealsHold(hash, trades[t.tradeId := t])
  {
  }

  lemma FineSet(orders: map<Text, Order>, o: Order)
    requires OrdersFine(orders) && OrderFine(o)
    ensures OrdersFine(orders[o.orderId := o])
  {
  }

  lemma AcceptedOrderIsFine(o: Order, q: int, t: Text)
    requires OrderFine(o) && 20 <= q <= o.quantity
    ensures OrderFine(o.(status := if q == o.quantity then TRADED else PARTLY_TRADED, accepted := Some(q), tradeId := Some(t)))
  {
    hide CommonRefusal;
  }

  lemma StockLeftAfter(v: Inventory, lots: seq<Lot>, i: nat, q: int)
    requires LotsFine(lots) && i < |lots| && v.lots == lots[i := Taken(lots[i], q)]
    ensures StockLeft(v, lots[i].lotId) == lots[i].available - q
  {
    LotAtKept(lots, v.lots, lots[i].lotId);
  }

  /** What the new trade says, in terms of the order and the lot it took stock from. */
  predicate Says(t: Trade, n: nat, f: AcceptForm, key: Text, lot: Lot, q: int) {
    && t.tradeId == TradeId(n) && t.orderId == f.orderId && t.quantity == t.lotSnapshot.quantity == q
    && t.lotSnapshot.lotId == lot.lotId && t.lotSnapshot.remainingQty == lot.available - q
    && t.reservationId == key && t.status == CONFIRMED
  }

  lemma DraftSays(e: Engine, f: AcceptForm, r: Reservation, left: int)
    requires Accepts(e, f) && e.orders[f.orderId].orderId == f.orderId
    ensures var lot := e.inventory.lots[LotOf(e, Default(f.lotId, e.orders[f.orderId].candidateLotId))];
            left == lot.available - QuantityOf(e, f) ==>
            Says(DraftTrade(e, f, r, left), e.tradeSequence + 1, f, r.reservationId, lot, QuantityOf(e, f))
  {
    hide LateRefusal;
    hide AcceptStart;
    hide QuantityOf;
    hide TradeId;
    hide Filled;
    hide LotAt;
  }

  lemma SealedSays(hash: Hash, t: Trade, n: nat, f: AcceptForm, key: Text, lot: Lot, q: int)
    requires Says(t, n, f, key, lot, q)
    ensures Says(Seal(hash, t), n, f, key, lot, q)
  {
    hide TradeId;
    hide HashSnapshot;
    hide TradeIntegrityPayload;
  }

  lemma NewTradeSays(hash: Hash, e: Engine, f: AcceptForm)
    requires Good(hash, e) && Accepts(e, f) && Reserved(e, f).Ok?
    ensures var v := Reserved(e, f).value;
            var lot := e.inventory.lots[LotOf(e, Default(f.lotId, e.orders[f.orderId].candidateLotId))];
            var t := NewTrade(hash, e, f, v);
            Says(t, e.tradeSequence + 1, f, KeyOf(e, f), lot, QuantityOf(e, f)) && Verify(hash, t)
  {
    hide Reserved;
    hide KeyOf;
    hide QuantityOf;
    hide StockLeft;
    hide LateRefusal;
    hide AcceptStart;
    hide Verify;
    hide Good;
    hide LotAt;
    hide Says;
    hide Seal;
    hide DraftTrade;
    AcceptReservesAfresh(hash, e, f);
    StockLeftAfterAccept(hash, e, f);
    var v, lot := Reserved(e, f).value, e.inventory.lots[LotOf(e, Default(f.lotId, e.orders[f.orderId].candidateLotId))];
    var r := v.reservations[KeyOf(e, f)];
    var draft := DraftTrade(e, f, r, StockLeft(v, r.lotId));
    DraftSays(e, f, r, StockLeft(v, r.lotId));
    SealedSays(hash, draft, e.tradeSequence + 1, f, KeyOf(e, f), lot, QuantityOf(e, f));
    SealVerifies(hash, draft);
  }

  lemma StockLeftAfterAccept(hash: Hash, e: Engine, f: AcceptForm)
    requires Good(hash, e) && Accepts(e, f) && Reserved(e, f).Ok?
    ensures var lot := e.inventory.lots[LotOf(e, Default(f.lotId, e.orders[f.orderId].candidateLotId))];
            StockLeft(Reserved(e, f).value, lot.lotId) == lot.available - QuantityOf(e, f)
  {
    hide Reserved;
    hide KeyOf;
    hide QuantityOf;
    hide StockLeft;
    hide LateRefusal;
    hide AcceptStart;
    AcceptReservesAfresh(hash, e, f);
    StockLeftAfter(Reserved(e, f).value, e.inventory.lots,
                   LotOf(e, Default(f.lotId, e.orders[f.orderId].candidateLotId)), QuantityOf(e, f));
  }

  /** A trade of an order that had none, on a fresh reservation, for stock the lot still had. */
  ghost predicate Fits(hash: Hash, e: Engine, o: Order, t: Trade, r: Reservation, i: nat) {
    && o.orderId in e.orders && e.orders[o.orderId].tradeId == None && OrderFine(o)
    && o.tradeId == Some(t.tradeId) && o.accepted == Some(t.quantity) && t.orderId == o.orderId
    && t.tradeId == TradeId(e.tradeSequence + 1) && t.status == CONFIRMED && Verify(hash, t)
    && i < |e.inventory.lots| && t.lotSnapshot.lotId == e.inventory.lots[i].lotId
    && t.lotSnapshot.remainingQty == e.inventory.lots[i].available - t.quantity
    && 0 < t.quantity == t.lotSnapshot.quantity <= e.inventory.lots[i].available
    && t.reservationId == r.reservationId && r.reservationId !in e.inventory.reservations && Owner(r.reservationId) == o.orderId
    && r.lotId == t.lotSnapshot.lotId && r.quantity == t.quantity && r.status == HELD
  }

  function WithFit(e: Engine, o: Order, t: Trade, r: Reservation, i: nat): Engine
    requires i < |e.inventory.lots|
  {
    e.(inventory := Inventory(e.inventory.lots[i := Taken(e.inventory.lots[i], t.quantity)],
                              e.inventory.reservations[r.reservationId := r], e.inventory.inspections),
       orders := e.orders[o.orderId := o], trades := e.trades[t.tradeId := t], tradeSequence := e.tradeSequence + 1)
  }

  lemma FitsKeep(hash: Hash, e: Engine, o: Order, t: Trade, r: Reservation, i: nat)
    requires Good(hash, e) && Fits(hash, e, o, t, r, i)
    ensures Good(hash, WithFit(e, o, t, r, i))
  {
    hide OrdersNumbered;
    hide TradesNumbered;
    hide OrdersFine;
    hide Linked;
    hide Backed;
    hide Owned;
    hide Inspected;
    hide SealsHold;
    hide LotsFine;
    hide StockTaken;
    hide StockReplays;
    hide Owner;
    hide OrderFine;
    hide Verify;
    OrdersNumberedSet(e.orders, e.orderSequence, o);
    FineSet(e.orders, o);
    TradesNumberedAdd(e.trades, e.tradeSequence, t);
    LinkedAdd(e.orders, e.trades, o, t);
    assert BackedBy(t, e.inventory.reservations[r.reservationId := r]);
    BackedAdd(e.trades, e.inventory.reservations, t, r);
    assert OwnedBy(r.reservationId, r, e.orders[o.orderId := o], e.trades[t.tradeId := t]);
    OwnedAdd(e.orders, e.trades, e.inventory.reservations, o, t, r);
    InspectedAdd(e.inventory.reservations, e.inventory.inspections, r);
    StockAdd(e.inventory.lots, e.trades, e.tradeSequence, i, t);
    ReplaysAdd(e.inventory.lots, e.trades, e.tradeSequence, i, t);
    SealsAdd(hash, e.trades, t);
  }

  lemma GoodAlike(hash: Hash, e: Engine, f: Engine)
    requires Good(hash, e) && f == e.(idempotency := f.idempotency)
    ensures Good(hash, f)
  {
    hide OrdersNumbered;
    hide TradesNumbered;
    hide OrdersFine;
    hide Linked;
    hide Backed;
    hide Owned;
    hide Inspected;
    hide SealsHold;
    hide LotsFine;
    hide StockTaken;
    hide StockReplays;
  }

  function ClosedBy(o: Order, q: int, t: Text): Order {
    o.(status := if q == o.quantity then TRADED else PARTLY_TRADED, accepted := Some(q), tradeId := Some(t))
  }

  lemma AcceptedOrder(hash: Hash, e: Engine, f: AcceptForm, t: Text)
    requires Good(hash, e) && f.orderId in e.orders && Acceptable(e, f) && 20 <= QuantityOf(e, f) <= e.orders[f.orderId].quantity
    ensures OrderFine(ClosedBy(e.orders[f.orderId], QuantityOf(e, f), t))
  {
    GoodOrders(hash, e);
    FineAt(e.orders, f.orderId);
    hide Good;
    hide OrdersFine;
    hide LateRefusal;
    hide QuantityOf;
    AcceptedOrderIsFine(e.orders[f.orderId], QuantityOf(e, f), t);
    hide OrderFine;
  }

  lemma AcceptedFits(hash: Hash, e: Engine, f: AcceptForm)
    requires Good(hash, e) && Accepts(e, f) && Reserved(e, f).Ok?
    ensures var o, v := e.orders[f.orderId], Reserved(e, f).value;
            var t := NewTrade(hash, e, f, v);
            Fits(hash, e, ClosedBy(o, QuantityOf(e, f), t.tradeId), t, v.reservations[KeyOf(e, f)],
                 LotOf(e, Default(f.lotId, o.candidateLotId)))
  {
    AcceptReservesAfresh(hash, e, f);
    NewTradeSays(hash, e, f);
    hide Good;
    hide Reserved;
    hide LateRefusal;
    hide AcceptStart;
    hide KeyOf;
    hide NewTrade;
    hide QuantityOf;
    hide Owner;
    hide OrderFine;
    hide Verify;
    hide LotAt;
    hide TradeId;
    AcceptedOrder(hash, e, f, NewTrade(hash, e, f, Reserved(e, f).value).tradeId);
  }

  /** What an acceptance writes, in one step. */
  lemma AcceptedWrites(hash: Hash, e: Engine, f: AcceptForm, v: Inventory)
    requires Acceptable(e, f) && KeyOf(e, f) in v.reservations
    ensures var o, t, after := e.orders[f.orderId], NewTrade(hash, e, f, v), Accepted(hash, e, f, v).engine;
            after == e.(inventory := v, tradeSequence := e.tradeSequence + 1, idempotency := after.idempotency,
                        orders := e.orders[f.orderId := ClosedBy(o, QuantityOf(e, f), t.tradeId)], trades := e.trades[t.tradeId := t])
  {
    hide LateRefusal;
    hide KeyOf;
    hide NewTrade;
    hide QuantityOf;
  }

  lemma FitIs(e: Engine, id: Text, o: Order, t: Trade, r: Reservation, v: Inventory, i: nat, kept: map<Text, Response>)
    requires o.orderId == id && i < |e.inventory.lots|
    requires v.lots == e.inventory.lots[i := Taken(e.inventory.lots[i], t.quantity)] && v.inspections == e.inventory.inspections
    requires v.reservations == e.inventory.reservations[r.reservationId := r]
    ensures e.(inventory := v, tradeSequence := e.tradeSequence + 1, idempotency := kept, orders := e.orders[id := o],
               trades := e.trades[t.tradeId := t])
            == WithFit(e, o, t, r, i).(idempotency := kept)
  {
  }

  lemma AcceptedIsFit(hash: Hash, e: Engine, f: AcceptForm)
    requires Good(hash, e) && Accepts(e, f) && Reserved(e, f).Ok?
    ensures var o, v := e.orders[f.orderId], Reserved(e, f).value;
            var t, after := NewTrade(hash, e, f, v), Accepted(hash, e, f, v).engine;
            after == WithFit(e, ClosedBy(o, QuantityOf(e, f), t.tradeId), t, v.reservations[KeyOf(e, f)],
                             LotOf(e, Default(f.lotId, o.candidateLotId))).(idempotency := after.idempotency)
  {
    var o, v := e.orders[f.orderId], Reserved(e, f).value;
    var t := NewTrade(hash, e, f, v);
    AcceptReservesAfresh(hash, e, f);
    NewTradeSays(hash, e, f);
    AcceptedWrites(hash, e, f, v);
    hide Good;
    hide Accepted;
    hide Reserved;
    hide LateRefusal;
    hide AcceptStart;
    hide KeyOf;
    hide NewTrade;
    hide QuantityOf;
    hide Owner;
    hide Verify;
    hide LotAt;
    hide TradeId;
    hide WithFit;
    hide Taken;
    FitIs(e, f.orderId, ClosedBy(o, QuantityOf(e, f), t.tradeId), t, v.reservations[KeyOf(e, f)], v,
          LotOf(e, Default(f.lotId, o.candidateLotId)), Accepted(hash, e, f, v).engine.idempotency);
  }

  lemma AcceptedKeeps(hash: Hash, e: Engine, f: AcceptForm)
    requires Good(hash, e) && Accepts(e, f) && Reserved(e, f).Ok?
    ensures Good(hash, Accepted(hash, e, f, Reserved(e, f).value).engine)
  {
    var o, v := e.orders[f.orderId], Reserved(e, f).value;
    var i, t, r := LotOf(e, Default(f.lotId, o.candidateLotId)), NewTrade(hash, e, f, v), v.reservations[KeyOf(e, f)];
    var o' := ClosedBy(o, QuantityOf(e, f), t.tradeId);
    AcceptedFits(hash, e, f);
    AcceptedIsFit(hash, e, f);
    FitsKeep(hash, e, o', t, r, i);
    hide Fits;
    hide Accepted;
    hide Reserved;
    hide LateRefusal;
    hide AcceptStart;
    hide KeyOf;
    hide NewTrade;
    hide QuantityOf;
    hide WithFit;
    GoodAlike(hash, WithFit(e, o', t, r, i), Accepted(hash, e, f, v).engine);
    hide Good;
  }

  lemma AcceptKeeps(hash: Hash, e: Engine, f: AcceptForm)
    requires Good(hash, e)
    ensures Good(hash, Accept(hash, e, f).engine)
  {
    hide Good;
    hide AcceptStart;
    hide LateRefusal;
    hide Reserved;
    hide Accepted;
    hide Refreshed;
    if !Replays(e, f.key) && AcceptStart(e, f) == None {
      RefreshIsIdentity(hash, e, f);
      if Acceptable(e, f) && Reserved(e, f).Ok? { AcceptedKeeps(hash, e, f); }
    }
  }

  // ---- delivery and inspection ----

  predicate Relabelled(lots: seq<Lot>, lots': seq<Lot>) {
    |lots| == |lots'| && forall i :: 0 <= i < |lots| ==> lots'[i] == lots[i].(status := lots'[i].status)
  }

  /** Only the status and the inspection of the trade change. */
  predicate Advances(t: Trade, t': Trade) {
    t' == t.(status := t'.status, inspection := t'.inspection)
  }

  lemma TradesNumberedSet(trades: map<Text, Trade>, n: nat, t: Trade)
    requires TradesNumbered(trades, n) && t.tradeId in trades
    ensures TradesNumbered(trades[t.tradeId := t], n)
  {
  }

  lemma LinkedSet(orders: map<Text, Order>, trades: map<Text, Trade>, t: Trade)
    requires Linked(orders, trades) && t.tradeId in trades && Advances(trades[t.tradeId], t)
    ensures Linked(orders, trades[t.tradeId := t])
  {
  }

  lemma BackedSet(orders: map<Text, Order>, trades: map<Text, Trade>, reservations: map<Text, Reservation>, t: Trade, r: Reservation)
    requires Linked(orders, trades) && Owned(orders, trades, reservations) && Backed(trades, reservations)
    requires TradesIdentified(trades) && t.tradeId in trades && Advances(trades[t.tradeId], t)
    requires r.reservationId == t.reservationId && r == reservations[t.reservationId].(status := r.status)
    requires Tracks(t.status, r.status)
    ensures Backed(trades[t.tradeId := t], reservations[r.reservationId := r])
  {
    hide Owner;
    var trades', reservations' := trades[t.tradeId := t], reservations[r.reservationId := r];
    assert BackedBy(trades[t.tradeId], reservations);
    forall u | u in trades' ensures BackedBy(trades'[u], reservations') {
      assert BackedBy(trades[u], reservations);
      if u != t.tradeId { OneTradeEach(orders, trades, reservations, u, t.tradeId); }
    }
  }

  predicate TradesIdentified(trades: map<Text, Trade>) {
    forall t :: t in trades ==> trades[t].tradeId == t
  }

  /** Two trades never share a reservation. */
  lemma OneTradeEach(orders: map<Text, Order>, trades: map<Text, Trade>, reservations: map<Text, Reservation>, t: Text, u: Text)
    requires Linked(orders, trades) && Backed(trades, reservations) && t in trades && u in trades && t != u
    ensures trades[t].reservationId != trades[u].reservationId
  {
    hide Owner;
    assert BackedBy(trades[t], reservations) && BackedBy(trades[u], reservations);
  }

  lemma OwnedSet(orders: map<Text, Order>, trades: map<Text, Trade>, reservations: map<Text, Reservation>, t: Trade, r: Reservation)
    requires Owned(orders, trades, reservations) && t.tradeId in trades && Advances(trades[t.tradeId], t)
    requires r.reservationId in reservations && r == reservations[r.reservationId].(status := r.status)
    ensures Owned(orders, trades[t.tradeId := t], reservations[r.reservationId := r])
  {
    hide Owner;
    var trades', reservations' := trades[t.tradeId := t], reservations[r.reservationId := r];
    forall k | k in reservations' ensures OwnedBy(k, reservations'[k], orders, trades') {
      assert OwnedBy(k, reservations[k], orders, trades);
    }
  }

  lemma {:induction false} TakenSame(trades: map<Text, Trade>, t: Trade, lotId: Text, n: nat)
    requires t.tradeId in trades && Advances(trades[t.tradeId], t)
    ensures TakenUpTo(trades[t.tradeId := t], lotId, n) == TakenUpTo(trades, lotId, n)
  {
    if n > 0 { TakenSame(trades, t, lotId, n - 1); }
  }

  lemma RelabelledStock(lots: seq<Lot>, lots': seq<Lot>, trades: map<Text, Trade>, t: Trade, n: nat)
    requires LotsFine(lots) && Relabelled(lots, lots') && StockTaken(lots, trades, n)
    requires t.tradeId in trades && Advances(trades[t.tradeId], t)
    ensures LotsFine(lots') && StockTaken(lots', trades[t.tradeId := t], n)
  {
    forall i | 0 <= i < |lots'| ensures lots'[i].reserved == TakenUpTo(trades[t.tradeId := t], lots'[i].lotId, n) {
      TakenSame(trades, t, lots'[i].lotId, n);
    }
  }

  lemma RelabelledReplays(lots: seq<Lot>, lots': seq<Lot>, trades: map<Text, Trade>, t: Trade, n: nat)
    requires LotsFine(lots') && Relabelled(lots, lots') && StockReplays(lots, trades, n)
    requires t.tradeId in trades && Advances(trades[t.tradeId], t)
    ensures StockReplays(lots', trades[t.tradeId := t], n)
  {
    hide TakenUpTo;
    hide TradeId;
    hide LotFine;
    var trades' := trades[t.tradeId := t];
    forall k | 1 <= k <= n && TradeId(k) in trades'
      ensures Replays1(lots', trades', k, trades'[TradeId(k)].lotSnapshot, trades'[TradeId(k)].quantity)
    {
      var s := trades[TradeId(k)].lotSnapshot;
      assert Replays1(lots, trades, k, s, trades[TradeId(k)].quantity);
      TakenSame(trades, t, s.lotId, k);
      LotAtKept(lots, lots', s.lotId);
    }
  }

  lemma SealsSet(hash: Hash, trades: map<Text, Trade>, t: Trade)
    requires SealsHold(hash, trades) && t.tradeId in trades && Advances(trades[t.tradeId], t)
    ensures SealsHold(hash, trades[t.tradeId := t])
  {
    hide Verify;
    SealSurvives(hash, trades[t.tradeId], t);
  }

  lemma ChangeTradeKeeps(hash: Hash, e: Engine, t: Trade, v: Inventory, r: Reservation)
    requires Good(hash, e) && t.tradeId in e.trades && Advances(e.trades[t.tradeId], t)
    requires t.reservationId in e.inventory.reservations && r.reservationId == t.reservationId
    requires r == e.inventory.reservations[t.reservationId].(status := r.status) && Tracks(t.status, r.status)
    requires v.reservations == e.inventory.reservations[t.reservationId := r] && Relabelled(e.inventory.lots, v.lots)
    requires Inspected(v.reservations, v.inspections)
    ensures Good(hash, ChangeTrade(e, t, v).engine)
  {
    assert TradesIdentified(e.trades);
    hide OrdersNumbered;
    hide TradesNumbered;
    hide OrdersFine;
    hide Linked;
    hide Backed;
    hide Owned;
    hide Inspected;
    hide SealsHold;
    hide LotsFine;
    hide StockTaken;
    hide StockReplays;
    hide Advances;
    hide Relabelled;
    hide TradesIdentified;
    TradesNumberedSet(e.trades, e.tradeSequence, t);
    LinkedSet(e.orders, e.trades, t);
    BackedSet(e.orders, e.trades, e.inventory.reservations, t, r);
    OwnedSet(e.orders, e.trades, e.inventory.reservations, t, r);
    SealsSet(hash, e.trades, t);
    RelabelledStock(e.inventory.lots, v.lots, e.trades, t, e.tradeSequence);
    RelabelledReplays(e.inventory.lots, v.lots, e.trades, t, e.tradeSequence);
  }

  /** The trade's reservation exists, under its own id. */
  lemma ReservationOf(hash: Hash, e: Engine, id: Text)
    requires Good(hash, e) && id in e.trades
    ensures e.trades[id].tradeId == id
    ensures var key := e.trades[id].reservationId;
            key in e.inventory.reservations && e.inventory.reservations[key].reservationId == key
            && Tracks(e.trades[id].status, e.inventory.reservations[key].status)
  {
    hide Owner;
    assert BackedBy(e.trades[id], e.inventory.reservations);
  }

  lemma InspectedSet(reservations: map<Text, Reservation>, inspections: map<Text, Inspection>, r: Reservation)
    requires Inspected(reservations, inspections)
    requires r.reservationId in reservations && !Final(reservations[r.reservationId].status)
    ensures !Final(r.status) ==> Inspected(reservations[r.reservationId := r], inspections)
    ensures forall i: Inspection :: Final(r.status) && i.reservationId == r.reservationId && i.status == r.status
              ==> Inspected(reservations[r.reservationId := r], inspections[r.reservationId := i])
  {
  }

  /** The ledger's own step of a delivery or an inspection: one reservation moves on. */
  predicate MovesOn(v: Inventory, v': Inventory, key: Text, status: ReservationStatus) {
    && key in v.reservations && v'.reservations == v.reservations[key := v.reservations[key].(status := status)]
    && Relabelled(v.lots, v'.lots)
  }

  lemma DeliveryMovesOn(v: Inventory, key: Text)
    requires MarkDelivered(v, key).Ok? && v.reservations[key].reservationId == key
    requires Inspected(v.reservations, v.inspections)
    ensures var v' := MarkDelivered(v, key).value;
            MovesOn(v, v', key, SHIPPED) && Inspected(v'.reservations, v'.inspections)
  {
    InspectedSet(v.reservations, v.inspections, v.reservations[key].(status := SHIPPED));
    hide Inspected;
  }

  lemma InspectionMovesOn(v: Inventory, key: Text, specMatch: bool, qualityPass: bool)
    requires Inspect(v, key, specMatch, qualityPass).Ok? && v.reservations[key].reservationId == key
    requires Inspected(v.reservations, v.inspections)
    ensures var v' := Inspect(v, key, specMatch, qualityPass).value;
            MovesOn(v, v', key, InspectionOf(key, specMatch, qualityPass).status) && Inspected(v'.reservations, v'.inspections)
  {
    var found := InspectionOf(key, specMatch, qualityPass);
    InspectedSet(v.reservations, v.inspections, v.reservations[key].(status := found.status));
    hide Inspected;
  }

  lemma MovedKeeps(hash: Hash, e: Engine, id: Text, t: Trade, v: Inventory, status: ReservationStatus)
    requires Good(hash, e) && id in e.trades && Advances(e.trades[id], t) && Tracks(t.status, status)
    requires MovesOn(e.inventory, v, t.reservationId, status) && Inspected(v.reservations, v.inspections)
    ensures Good(hash, ChangeTrade(e, t, v).engine)
  {
    hide Good;
    hide ChangeTrade;
    hide Inspected;
    ReservationOf(hash, e, id);
    ChangeTradeKeeps(hash, e, t, v, e.inventory.reservations[t.reservationId].(status := status));
  }

  lemma InspectionsAgree(hash: Hash, e: Engine)
    requires Good(hash, e)
    ensures Inspected(e.inventory.reservations, e.inventory.inspections)
  {
  }

  lemma DeliverKeeps(hash: Hash, e: Engine, id: Text)
    requires Good(hash, e)
    ensures Good(hash, Deliver(hash, e, id).engine)
  {
    hide Good;
    hide ChangeTrade;
    hide Inspected;
    hide Verify;
    hide MarkDelivered;
    hide MovesOn;
    if TradeRefusal(hash, e, id, {CONFIRMED}, NOT_DELIVERABLE) == None {
      var t := e.trades[id];
      var r := MarkDelivered(e.inventory, t.reservationId);
      if r.Ok? {
        ReservationOf(hash, e, id);
        InspectionsAgree(hash, e);
        DeliveryMovesOn(e.inventory, t.reservationId);
        MovedKeeps(hash, e, id, t.(status := SENT), r.value, SHIPPED);
      }
    }
  }

  lemma ExamineKeeps(hash: Hash, e: Engine, id: Text, specMatch: bool, qualityPass: bool)
    requires Good(hash, e)
    ensures Good(hash, Examine(hash, e, id, specMatch, qualityPass).engine)
  {
    hide Good;
    hide ChangeTrade;
    hide Inspected;
    hide Verify;
    hide Inspect;
    hide MovesOn;
    if TradeRefusal(hash, e, id, {CONFIRMED, SENT}, NOT_INSPECTABLE) == None {
      var t := e.trades[id];
      var r := Inspect(e.inventory, t.reservationId, specMatch, qualityPass);
      if r.Ok? {
        ReservationOf(hash, e, id);
        InspectionsAgree(hash, e);
        InspectionMovesOn(e.inventory, t.reservationId, specMatch, qualityPass);
        var found := InspectionOf(t.reservationId, specMatch, qualityPass);
        var t' := t.(status := if found.status == PASSED then FULFILLED else CONTESTED, inspection := Some(found));
        MovedKeeps(hash, e, id, t', r.value, found.status);
      }
    }
  }

  // ---- registering a lot ----

  lemma {:induction false} NothingTaken(lots: seq<Lot>, trades: map<Text, Trade>, id: Text, n: nat)
    requires StockReplays(lots, trades, n) && LotAt(lots, id) == |lots|
    ensures TakenUpTo(trades, id, n) == 0
  {
    if n > 0 {
      NothingTaken(lots, trades, id, n - 1);
      assert TradeId(n) in trades ==> Replays1(lots, trades, n, trades[TradeId(n)].lotSnapshot, trades[TradeId(n)].quantity);
    }
  }

  lemma FineNewLot(lots: seq<Lot>, l: Lot)
    requires LotsFine(lots) && LotFine(l) && LotAt(lots, l.lotId) == |lots|
    ensures LotsFine(lots + [l])
  {
    hide LotFine;
  }

  lemma StockOfNewLot(lots: seq<Lot>, trades: map<Text, Trade>, n: nat, l: Lot)
    requires StockTaken(lots, trades, n) && StockReplays(lots, trades, n)
    requires l.reserved == 0 && LotAt(lots, l.lotId) == |lots|
    ensures StockTaken(lots + [l], trades, n)
  {
    hide TakenUpTo;
    hide StockReplays;
    var lots' := lots + [l];
    forall i | 0 <= i < |lots'| ensures lots'[i].reserved == TakenUpTo(trades, lots'[i].lotId, n) {
      if i < |lots| { assert lots'[i] == lots[i]; } else { NothingTaken(lots, trades, l.lotId, n); }
    }
  }

  lemma ReplaysWithNewLot(lots: seq<Lot>, trades: map<Text, Trade>, n: nat, l: Lot)
    requires LotsFine(lots + [l]) && StockReplays(lots, trades, n)
    ensures StockReplays(lots + [l], trades, n)
  {
    hide TakenUpTo;
    hide TradeId;
    hide LotFine;
    var lots' := lots + [l];
    forall k | 1 <= k <= n && TradeId(k) in trades
      ensures Replays1(lots', trades, k, trades[TradeId(k)].lotSnapshot, trades[TradeId(k)].quantity)
    {
      assert Replays1(lots, trades, k, trades[TradeId(k)].lotSnapshot, trades[TradeId(k)].quantity);
      LotAtKept(lots, lots', trades[TradeId(k)].lotSnapshot.lotId);
    }
  }

  lemma LotAdd(lots: seq<Lot>, trades: map<Text, Trade>, n: nat, l: Lot)
    requires LotsFine(lots) && StockTaken(lots, trades, n) && StockReplays(lots, trades, n)
    requires LotFine(l) && l.reserved == 0 && LotAt(lots, l.lotId) == |lots|
    ensures LotsFine(lots + [l]) && StockTaken(lots + [l], trades, n) && StockReplays(lots + [l], trades, n)
  {
    hide StockReplays;
    hide StockTaken;
    hide LotsFine;
    FineNewLot(lots, l);
    StockOfNewLot(lots, trades, n, l);
    ReplaysWithNewLot(lots, trades, n, l);
  }

  lemma RegisterKeeps(hash: Hash, e: Engine, f: RegisterForm)
    requires Good(hash, e)
    ensures Good(hash, Register(e, f).engine)
  {
    if Gate.Admits(f.evidence, f.lotId, f.now) && Filled(f.terms) == CANONICAL {
      Gate.AdmittedIsDated(f.evidence, f.lotId, f.now);
      var r := RegisterLot(e.inventory, NewLot(f));
      if r.Ok? {
        FilledAgain();
        LotAdd(e.inventory.lots, e.trades, e.tradeSequence, r.value.lots[|e.inventory.lots|]);
        hide OrdersNumbered;
        hide TradesNumbered;
        hide OrdersFine;
        hide Linked;
        hide Backed;
        hide Owned;
        hide Inspected;
        hide SealsHold;
        hide LotsFine;
        hide StockTaken;
        hide StockReplays;
      }
    }
  }

  lemma FilledAgain()
    ensures Filled(CANONICAL) == CANONICAL
  {
  }

  // ---- restoring ----

  lemma RefilledIsSame(lots: seq<Lot>)
    requires LotsFine(lots)
    ensures Refilled(lots) == lots
  {
  }

  lemma LargestIs(ids: set<Text>, make: nat -> Text, n: nat)
    requires forall k :: Suffix(make(k)) == k
    requires forall id :: id in ids ==> Suffix(id) <= n
    requires n > 0 ==> make(n) in ids
    ensures LargestSuffix(ids) == n
  {
  }

  lemma OrderCount(orders: map<Text, Order>, n: nat)
    requires OrdersNumbered(orders, n)
    ensures LargestSuffix(orders.Keys) == n
  {
    forall k: nat ensures Suffix(OrderId(k)) == k { OrderIdEnds(k); }
    hide Suffix;
    hide OrderId;
    LargestIs(orders.Keys, OrderId, n);
  }

  lemma TradeCount(trades: map<Text, Trade>, n: nat)
    requires TradesNumbered(trades, n)
    ensures LargestSuffix(trades.Keys) == n
  {
    forall k: nat ensures Suffix(TradeId(k)) == k { TradeIdEnds(k); }
    hide Suffix;
    hide TradeId;
    LargestIs(trades.Keys, TradeId, n);
  }

  lemma GoodNumbers(hash: Hash, e: Engine)
    requires Good(hash, e)
    ensures OrdersNumbered(e.orders, e.orderSequence) && TradesNumbered(e.trades, e.tradeSequence)
  {
    hide OrdersNumbered;
    hide TradesNumbered;
  }

  /** `restore(snapshot())` gives back the same ledger and counters; only the answers kept
      under idempotency keys are forgotten. */
  lemma RestoreForgets(hash: Hash, e: Engine)
    requires Good(hash, e)
    ensures Restore(SnapshotOf(e)) == e.(idempotency := map[])
  {
    GoodNumbers(hash, e);
    GoodLots(hash, e);
    hide Good;
    hide OrdersNumbered;
    hide TradesNumbered;
    RefilledIsSame(e.inventory.lots);
    hide LotsFine;
    hide LargestSuffix;
    hide Refilled;
    OrderCount(e.orders, e.orderSequence);
    TradeCount(e.trades, e.tradeSequence);
  }

  // ---- runs ----

  lemma StepKeeps(hash: Hash, e: Engine, step: Step)
    requires Good(hash, e)
    ensures Good(hash, Perform(hash, e, step).engine)
  {
    hide Good;
    match step
    case Submitting(f) => SubmitKeeps(hash, e, f);
    case Accepting(f) => AcceptKeeps(hash, e, f);
    case Countering(f) => CounterKeeps(hash, e, f);
    case Rejecting(key, id, supplierId) => RejectKeeps(hash, e, key, id, supplierId);
    case Expiring(id, now) => ExpireKeeps(hash, e, id, now);
    case Delivering(id) => DeliverKeeps(hash, e, id);
    case Inspecting(id, specMatch, qualityPass) => ExamineKeeps(hash, e, id, specMatch, qualityPass);
    case Registering(f) => RegisterKeeps(hash, e, f);
  }

  /** An operation, or a restore of the n-th snapshot there ever was. */
  datatype Event = Doing(step: Step) | Restoring(nth: nat)

  datatype History = History(engine: Engine, past: seq<Snapshot>)

  ghost function Next(hash: Hash, h: History, event: Event): History {
    match event
    case Doing(step) =>
      var e := Perform(hash, h.engine, step).engine;
      History(e, h.past + [SnapshotOf(e)])
    case Restoring(n) => if n < |h.past| then h.(engine := Restore(h.past[n])) else h
  }

  ghost function Run(hash: Hash, h: History, events: seq<Event>): History
    decreases |events|
  {
    if events == [] then h else Run(hash, Next(hash, h, events[0]), events[1..])
  }

  const START := History(INITIAL, [SnapshotOf(INITIAL)])

  ghost predicate GoodHistory(hash: Hash, h: History) {
    Good(hash, h.engine) && forall n :: 0 <= n < |h.past| ==> Good(hash, Restore(h.past[n]))
  }

  lemma GoodWithoutKeys(hash: Hash, e: Engine)
    requires Good(hash, e)
    ensures Good(hash, Restore(SnapshotOf(e)))
  {
    RestoreForgets(hash, e);
    hide OrdersNumbered;
    hide TradesNumbered;
    hide OrdersFine;
    hide Linked;
    hide Backed;
    hide Owned;
    hide Inspected;
    hide SealsHold;
    hide LotsFine;
    hide StockTaken;
    hide StockReplays;
  }

  lemma InitialIsGood(hash: Hash)
    ensures Good(hash, INITIAL)
  {
    FilledAgain();
    assert INITIAL_LOT.lotId[0] == 71;
  }

  lemma NextIsGood(hash: Hash, h: History, event: Event)
    requires GoodHistory(hash, h)
    ensures GoodHistory(hash, Next(hash, h, event))
  {
    hide Good;
    match event
    case Doing(step) =>
      StepKeeps(hash, h.engine, step);
      GoodWithoutKeys(hash, Perform(hash, h.engine, step).engine);
    case Restoring(_) =>
  }

  lemma {:induction false} RunIsGood(hash: Hash, h: History, events: seq<Event>)
    requires GoodHistory(hash, h)
    ensures GoodHistory(hash, Run(hash, h, events))
    decreases |events|
  {
    hide GoodHistory;
    if events != [] {
      NextIsGood(hash, h, events[0]);
      RunIsGood(hash, Next(hash, h, events[0]), events[1..]);
    }
  }

  /** The ledger's invariant: orders, trades, reservations, inspections, seals and stock agree
      after every sequence of operations and restores. */
  lemma LedgerInvariant(hash: Hash, events: seq<Event>)
    ensures Good(hash, Run(hash, START, events).engine)
  {
    hide Good;
    hide Lit;
    InitialIsGood(hash);
    GoodWithoutKeys(hash, INITIAL);
    RunIsGood(hash, START, events);
  }

  // ---- what follows about stock ----

  lemma {:induction false} TakenGrows(lots: seq<Lot>, trades: map<Text, Trade>, lotId: Text, k: nat, n: nat)
    requires k <= n && StockReplays(lots, trades, n)
    ensures 0 <= TakenUpTo(trades, lotId, k) <= TakenUpTo(trades, lotId, n)
    decreases n
  {
    if n > 0 {
      assert TradeId(n) in trades ==> Replays1(lots, trades, n, trades[TradeId(n)].lotSnapshot, trades[TradeId(n)].quantity);
      TakenGrows(lots, trades, lotId, if k < n then k else n - 1, n - 1);
    }
  }

  /** No run oversells a lot: the sealed remainder of every trade is what the trades up to it
      left of the lot's stock, and it is never negative. */
  lemma NeverOversold(hash: Hash, events: seq<Event>, k: nat)
    ensures var e := Run(hash, START, events).engine;
            1 <= k <= e.tradeSequence ==>
              && TradeId(k) in e.trades
              && var t := e.trades[TradeId(k)];
                 var i := LotAt(e.inventory.lots, t.lotSnapshot.lotId);
                 && i < |e.inventory.lots| && Verify(hash, t)
                 && t.lotSnapshot.remainingQty
                    == Total(e.inventory.lots[i]) - TakenUpTo(e.trades, t.lotSnapshot.lotId, k) >= 0
  {
    LedgerInvariant(hash, events);
    var e := Run(hash, START, events).engine;
    hide Verify;
    hide Run;
    hide Backed;
    hide Owned;
    hide Linked;
    hide OrdersFine;
    hide OrdersNumbered;
    hide Inspected;
    if 1 <= k <= e.tradeSequence {
      var t := e.trades[TradeId(k)];
      hide TradeId;
      hide TakenUpTo;
      var i := LotAt(e.inventory.lots, t.lotSnapshot.lotId);
      assert Replays1(e.inventory.lots, e.trades, k, t.lotSnapshot, t.quantity);
      assert LotFine(e.inventory.lots[i]);
      TakenGrows(e.inventory.lots, e.trades, t.lotSnapshot.lotId, k, e.tradeSequence);
    }
  }

  lemma ReservationsAgree(hash: Hash, e: Engine)
    requires Good(hash, e)
    ensures Quarantine.Sound(e.inventory)
  {
    hide Owner;
    assert forall k :: k in e.inventory.reservations ==> OwnedBy(k, e.inventory.reservations[k], e.orders, e.trades);
  }

  lemma SettleFixes(hash: Hash, e: Engine, f: AcceptForm)
    requires Quarantine.Sound(e.inventory) && f.orderId in e.orders
    ensures Quarantine.LotsKept(e.inventory.lots, Settle(hash, e, f).engine.inventory.lots)
  {
    hide LateRefusal;
    hide KeyOf;
    hide QuantityOf;
    hide NewTrade;
    hide Reserve;
    hide Quarantine.Sound;
    hide Quarantine.LotsKept;
    KeptByNothing(e.inventory.lots);
    if Acceptable(e, f) {
      var o, q := e.orders[f.orderId], QuantityOf(e, f);
      Quarantine.StepKeeps(e.inventory, Quarantine.Reserving(Default(f.lotId, o.candidateLotId), Some(q), KeyOf(e, f),
                                                             Need(o.specId, q, o.deliveryDays, o.terms), f.now));
    }
  }

  lemma AcceptFixes(hash: Hash, e: Engine, f: AcceptForm)
    requires Quarantine.Sound(e.inventory)
    ensures Quarantine.LotsKept(e.inventory.lots, Accept(hash, e, f).engine.inventory.lots)
  {
    hide AcceptStart;
    hide Settle;
    hide Normalized;
    hide Quarantine.Sound;
    hide Quarantine.LotsKept;
    KeptByNothing(e.inventory.lots);
    if !Replays(e, f.key) && AcceptStart(e, f) == None { SettleFixes(hash, Refreshed(e, f), f); }
  }

  lemma KeptByNothing(lots: seq<Lot>)
    ensures Quarantine.LotsKept(lots, lots)
  {
  }

  lemma TradeStepsFix(hash: Hash, e: Engine, step: Step)
    requires Quarantine.Sound(e.inventory) && (step.Delivering? || step.Inspecting?)
    ensures Quarantine.LotsKept(e.inventory.lots, Perform(hash, e, step).engine.inventory.lots)
  {
    hide Verify;
    hide Inspect;
    hide MarkDelivered;
    hide Quarantine.Sound;
    hide Quarantine.LotsKept;
    KeptByNothing(e.inventory.lots);
    var id := if step.Delivering? then step.deliveredId else step.inspectedId;
    if id in e.trades {
      Quarantine.StepKeeps(e.inventory, Quarantine.Delivering(e.trades[id].reservationId));
      if step.Inspecting? {
        Quarantine.StepKeeps(e.inventory, Quarantine.Inspecting(e.trades[id].reservationId, step.specMatch, step.qualityPass));
      }
    }
  }

  lemma RegisterFixes(e: Engine, f: RegisterForm)
    requires Quarantine.Sound(e.inventory)
    ensures Quarantine.LotsKept(e.inventory.lots, Register(e, f).engine.inventory.lots)
  {
    hide RegisterLot;
    hide NewLot;
    hide Quarantine.Sound;
    hide Quarantine.LotsKept;
    KeptByNothing(e.inventory.lots);
    if Gate.Admits(f.evidence, f.lotId, f.now) {
      Gate.AdmittedIsDated(f.evidence, f.lotId, f.now);
      Quarantine.StepKeeps(e.inventory, Quarantine.Registering(NewLot(f)));
    }
  }

  /** No operation changes the stock a lot was registered with, its price or its terms. */
  lemma StockIsFixed(hash: Hash, e: Engine, step: Step)
    requires Good(hash, e)
    ensures Quarantine.LotsKept(e.inventory.lots, Perform(hash, e, step).engine.inventory.lots)
  {
    hide Good;
    hide Accept;
    hide Deliver;
    hide Examine;
    hide Register;
    hide CommonRefusal;
    hide Quarantine.Sound;
    hide Quarantine.LotsKept;
    ReservationsAgree(hash, e);
    KeptByNothing(e.inventory.lots);
    match step
    case Accepting(f) => AcceptFixes(hash, e, f);
    case Delivering(_) => TradeStepsFix(hash, e, step);
    case Inspecting(_, _, _) => TradeStepsFix(hash, e, step);
    case Registering(f) => RegisterFixes(e, f);
    case _ =>
  }

  // ---- where the stock comes from ----

  /** The lot is the one this registration asked for, on evidence the gate admitted. */
  ghost predicate RegisteredBy(l: Lot, f: RegisterForm) {
    && Gate.Admits(f.evidence, f.lotId, f.now) && (exists i :: 0 <= i < |f.evidence| && Gate.Dated(f.evidence[i]))
    && f.available == Some(Total(l)) && f.askPrice == Some(l.askPrice) && f.deliveryDays == Some(l.deliveryDays)
    && f.lotId == l.lotId && f.supplier == l.supplier && f.supplierId == l.supplierId
    && f.supplierOrganizationId == l.supplierOrganizationId && f.specId == l.specId && l.terms == CANONICAL
    && l.evidence == InventoryLedger.Evidence(VALID, VALID, VALID, VALID, VALID, Some(Gate.LotExpiry(f.evidence)))
  }

  ghost predicate HasOrigin(l: Lot, events: seq<Event>) {
    Quarantine.SameLot(INITIAL_LOT, l) || exists f :: Doing(Registering(f)) in events && RegisteredBy(l, f)
  }

  ghost predicate AllHaveOrigin(lots: seq<Lot>, events: seq<Event>) {
    forall i :: 0 <= i < |lots| ==> HasOrigin(lots[i], events)
  }

  lemma OriginStays(a: Lot, b: Lot, events: seq<Event>)
    requires HasOrigin(a, events) && Quarantine.SameLot(a, b)
    ensures HasOrigin(b, events)
  {
    if !Quarantine.SameLot(INITIAL_LOT, a) {
      var f :| Doing(Registering(f)) in events && RegisteredBy(a, f);
      hide Gate.Admits;
      hide Gate.Dated;
      assert RegisteredBy(b, f);
    }
  }

  lemma SettleAddsNoLot(hash: Hash, e: Engine, f: AcceptForm)
    requires f.orderId in e.orders
    ensures |Settle(hash, e, f).engine.inventory.lots| == |e.inventory.lots|
  {
    hide LateRefusal;
    hide NewTrade;
    hide KeyOf;
    hide QuantityOf;
    hide LotAt;
    hide VerifyLot;
    hide Mismatch;
  }

  lemma TradeStepsAddNoLot(hash: Hash, e: Engine, step: Step)
    requires step.Delivering? || step.Inspecting?
    ensures |Perform(hash, e, step).engine.inventory.lots| == |e.inventory.lots|
  {
    hide Verify;
    hide LotAt;
  }

  /** Only a registration adds a lot. */
  lemma OthersAddNoLot(hash: Hash, e: Engine, step: Step)
    requires !step.Registering?
    ensures |Perform(hash, e, step).engine.inventory.lots| == |e.inventory.lots|
  {
    hide Deliver;
    hide Examine;
    hide AcceptStart;
    hide Settle;
    hide SubmitRefusal;
    hide CounterRefusal;
    hide RejectRefusal;
    hide Normalized;
    match step
    case Accepting(f) =>
      if !Replays(e, f.key) && AcceptStart(e, f) == None { SettleAddsNoLot(hash, Refreshed(e, f), f); }
    case Delivering(_) => TradeStepsAddNoLot(hash, e, step);
    case Inspecting(_, _, _) => TradeStepsAddNoLot(hash, e, step);
    case _ =>
  }

  lemma RegisteredOrigin(e: Engine, f: RegisterForm, events: seq<Event>)
    requires Doing(Registering(f)) in events
    ensures var lots := Register(e, f).engine.inventory.lots;
            lots == e.inventory.lots || (|lots| == |e.inventory.lots| + 1 && HasOrigin(lots[|e.inventory.lots|], events))
  {
    if Register(e, f).reply.OfLot? {
      Gate.AdmittedIsDated(f.evidence, f.lotId, f.now);
      FilledAgain();
      hide Gate.Admits;
      hide Gate.Dated;
      assert RegisteredBy(Register(e, f).engine.inventory.lots[|e.inventory.lots|], f);
    }
  }

  lemma OriginsStay(lots: seq<Lot>, lots': seq<Lot>, events: seq<Event>)
    requires AllHaveOrigin(lots, events) && Quarantine.LotsKept(lots, lots')
    requires |lots'| == |lots| || (|lots'| == |lots| + 1 && HasOrigin(lots'[|lots|], events))
    ensures AllHaveOrigin(lots', events)
  {
    hide HasOrigin;
    hide Quarantine.SameLot;
    forall i | 0 <= i < |lots'| ensures HasOrigin(lots'[i], events) {
      if i < |lots| { OriginStays(lots[i], lots'[i], events); }
    }
  }

  lemma StepKeepsOrigin(hash: Hash, e: Engine, step: Step, events: seq<Event>)
    requires Good(hash, e) && AllHaveOrigin(e.inventory.lots, events) && Doing(step) in events
    ensures AllHaveOrigin(Perform(hash, e, step).engine.inventory.lots, events)
  {
    hide Good;
    hide AllHaveOrigin;
    hide HasOrigin;
    hide Quarantine.LotsKept;
    hide Register;
    StockIsFixed(hash, e, step);
    if step.Registering? { RegisteredOrigin(e, step.form, events); } else { OthersAddNoLot(hash, e, step); }
    assert step.Registering? ==> Perform(hash, e, step) == Register(e, step.form);
    hide Perform;
    OriginsStay(e.inventory.lots, Perform(hash, e, step).engine.inventory.lots, events);
  }

  ghost predicate OriginsKnown(h: History, events: seq<Event>) {
    && AllHaveOrigin(h.engine.inventory.lots, events)
    && forall n :: 0 <= n < |h.past| ==> AllHaveOrigin(h.past[n].inventory.lots, events) && LotsFine(h.past[n].inventory.lots)
  }

  lemma NextKeepsOrigins(hash: Hash, h: History, event: Event, events: seq<Event>)
    requires GoodHistory(hash, h) && OriginsKnown(h, events) && event in events
    ensures OriginsKnown(Next(hash, h, event), events)
  {
    hide AllHaveOrigin;
    match event
    case Doing(step) =>
      StepKeepsOrigin(hash, h.engine, step, events);
      StepKeeps(hash, h.engine, step);
      GoodLots(hash, Perform(hash, h.engine, step).engine);
      hide Good;
      hide Perform;
      hide LotsFine;
    case Restoring(n) =>
      hide Good;
      if n < |h.past| { RefilledIsSame(h.past[n].inventory.lots); }
  }

  lemma GoodLots(hash: Hash, e: Engine)
    requires Good(hash, e)
    ensures LotsFine(e.inventory.lots)
  {
    hide LotsFine;
  }

  lemma GoodOrders(hash: Hash, e: Engine)
    requires Good(hash, e)
    ensures OrdersFine(e.orders)
  {
    hide OrdersFine;
  }

  lemma {:induction false} RunKeepsOrigins(hash: Hash, h: History, events: seq<Event>, all: seq<Event>)
    requires GoodHistory(hash, h) && OriginsKnown(h, all) && (forall x :: x in events ==> x in all)
    ensures OriginsKnown(Run(hash, h, events), all)
    decreases |events|
  {
    hide GoodHistory;
    hide OriginsKnown;
    if events != [] {
      NextKeepsOrigins(hash, h, events[0], all);
      NextIsGood(hash, h, events[0]);
      RunKeepsOrigins(hash, Next(hash, h, events[0]), events[1..], all);
    }
  }

  /** Over every run, restores included, a lot is the initial one or one that a registration of
      the run asked for: its stock, available and reserved together, is the quantity registered. */
  lemma StockWasRegistered(hash: Hash, events: seq<Event>)
    ensures AllHaveOrigin(Run(hash, START, events).engine.inventory.lots, events)
  {
    hide Good;
    hide Lit;
    hide LotsFine;
    InitialIsGood(hash);
    GoodWithoutKeys(hash, INITIAL);
    GoodLots(hash, INITIAL);
    RunKeepsOrigins(hash, START, events, events);
  }

  // ---- what a thrown error leaves behind ----

  /** An acceptance that gets past its first checks while its order's answers are not yet the
      normalized ones. */
  predicate Rewrites(e: Engine, step: Step) {
    step.Accepting? && !Replays(e, step.acceptance.key) && AcceptStart(e, step.acceptance) == None
    && e.orders[step.acceptance.orderId].specAttributes != APPROVED
  }

  lemma ThrownAcceptRewrites(hash: Hash, e: Engine, f: AcceptForm)
    requires Accept(hash, e, f).reply.Thrown?
    ensures Accept(hash, e, f).engine != e <==> Rewrites(e, Accepting(f))
  {
    hide LateRefusal;
    hide Reserved;
    hide AnswersOf;
    if !Replays(e, f.key) && AcceptStart(e, f) == None {
      hide FieldRefusal;
      var o := e.orders[f.orderId];
      assert Normalized(AnswersOf(o.specAttributes)) == APPROVED;
      hide Normalized;
      assert Refreshed(e, f).orders[f.orderId].specAttributes == APPROVED;
      if o.specAttributes == APPROVED { assert e.orders[f.orderId := o] == e.orders; }
    }
  }

  /** The only write before a throw is the acceptance's write-back of the order's answers: it
      shows exactly when they were not normalized yet. */
  lemma ThrownChangesExactlyWhen(hash: Hash, e: Engine, step: Step)
    requires Perform(hash, e, step).reply.Thrown?
    ensures Perform(hash, e, step).engine != e <==> Rewrites(e, step)
  {
    hide Accept;
    hide Verify;
    hide SubmitRefusal;
    hide CounterRefusal;
    hide RejectRefusal;
    hide NewLot;
    if step.Accepting? { ThrownAcceptRewrites(hash, e, step.acceptance); }
  }

  /** No run ends in an engine that a thrown error would change. */
  lemma ThrowingChangesNothing(hash: Hash, events: seq<Event>, step: Step)
    ensures var e := Run(hash, START, events).engine;
            Perform(hash, e, step).reply.Thrown? ==> Perform(hash, e, step).engine == e
  {
    hide Good;
    hide Lit;
    var e := Run(hash, START, events).engine;
    LedgerInvariant(hash, events);
    hide Run;
    if Perform(hash, e, step).reply.Thrown? {
      ThrownChangesExactlyWhen(hash, e, step);
      if Rewrites(e, step) {
        NormalizedInside(hash, e, step.acceptance.orderId);
        assert false;
      }
    }
  }

  lemma RefusedAsTampered(hash: Hash, e: Engine, id: Text, specMatch: bool, qualityPass: bool)
    requires id in e.trades
    ensures var refused := Outcome(e, Thrown(TRADE_SNAPSHOT_TAMPERED));
            && (Deliver(hash, e, id) == refused <==> !Verify(hash, e.trades[id]))
            && (Examine(hash, e, id, specMatch, qualityPass) == refused <==> !Verify(hash, e.trades[id]))
  {
    hide Verify;
  }

  /** Tampering stops a trade.  In any reachable engine, put any trade u in the place of one under
      the same stored seal: its delivery and its inspection are refused as tampered, and change
      nothing, exactly when a sealed field differs and the digest does not collide. */
  lemma TamperingIsRefused(hash: Hash, events: seq<Event>, id: Text, u: Trade, specMatch: bool, qualityPass: bool)
    requires var e := Run(hash, START, events).engine;
             id in e.trades && u.tradeSnapshotHash == e.trades[id].tradeSnapshotHash
    ensures var e := Run(hash, START, events).engine;
            var t, changed := e.trades[id], e.(trades := e.trades[id := u]);
            var refused := Outcome(changed, Thrown(TRADE_SNAPSHOT_TAMPERED));
            var caught := SealedPart(u) != SealedPart(t) && !Collide(hash, SealedText(u), SealedText(t));
            && (Deliver(hash, changed, id) == refused <==> caught)
            && (Examine(hash, changed, id, specMatch, qualityPass) == refused <==> caught)
  {
    hide Run;
    hide Verify;
    hide SealedPart;
    hide SealedText;
    hide Deliver;
    hide Examine;
    var e := Run(hash, START, events).engine;
    SealOfTrade(hash, events, id);
    SealDetectsEveryChange(hash, e.trades[id], u);
    RefusedAsTampered(hash, e.(trades := e.trades[id := u]), id, specMatch, qualityPass);
  }

  lemma SealOfTrade(hash: Hash, events: seq<Event>, id: Text)
    requires id in Run(hash, START, events).engine.trades
    ensures Verify(hash, Run(hash, START, events).engine.trades[id])
  {
    LedgerInvariant(hash, events);
    hide Run;
    hide Verify;
  }
}
