/** What holds of whole simulator runs, for every scenario, stock and sequence of orders. */
module SimulatorRuns {
  import opened Simulator
  import GreedyFill

  predicate LotIdsDiffer(lots: seq<SellerLot>) {
    forall i, j :: 0 <= i < j < |lots| ==> lots[i].id != lots[j].id
  }

  predicate NoneNegative(lots: seq<SellerLot>) {
    forall i :: 0 <= i < |lots| ==> lots[i].available >= 0
  }

  /** A day's buyers are a sample without repetition. */
  predicate BuyersDiffer(orders: seq<BuyerOrder>) {
    forall i, j :: 0 <= i < j < |orders| ==> orders[i].buyer != orders[j].buyer
  }

  // ---- the three claims ----

  datatype Key = Key(buyer: nat, lot: LotId, day: int)

  /** Buyer, seller, lot and day; the lot's id names its seller. */
  function KeyOf(t: Trade): Key {
    Key(t.buyer, t.lot, t.day)
  }

  function KeySet(trades: seq<Trade>): set<Key> {
    set i | 0 <= i < |trades| :: KeyOf(trades[i])
  }

  /** len(keys) - len(set(keys)). */
  function DuplicateTradeCount(trades: seq<Trade>): int {
    |trades| - |KeySet(trades)|
  }

  predicate Hard(r: Reason) {
    r == DOCUMENT_INVALID || r == INVENTORY_NOT_VERIFIED || r == SUPPLIER_NOT_VERIFIED
  }

  predicate Clash(t: Trade, e: Event) {
    e.Blocked? && Hard(e.reason) && t.lot == e.lot && t.day == e.day
  }

  function TradedOf(trades: seq<Trade>, lot: LotId): int {
    if trades == [] then 0
    else TradedOf(trades[..|trades| - 1], lot) + if trades[|trades| - 1].lot == lot then trades[|trades| - 1].qty else 0
  }

  // ---- invariants ----

  predicate FlagsClear(lot: SellerLot) {
    lot.supplierVerified && lot.documentValid && lot.inventoryVerified
  }

  predicate FlagSays(lot: SellerLot, r: Reason) {
    match r
    case SUPPLIER_NOT_VERIFIED => !lot.supplierVerified
    case DOCUMENT_INVALID => !lot.documentValid
    case INVENTORY_NOT_VERIFIED => !lot.inventoryVerified
    case _ => true
  }

  predicate SameIds(lots0: seq<SellerLot>, lots: seq<SellerLot>) {
    |lots0| == |lots| && LotIdsDiffer(lots) && forall i :: 0 <= i < |lots| ==> lots[i].id == lots0[i].id
  }

  /** What a lot has left and what it traded never exceed what it started with. */
  ghost predicate Stocked(lots0: seq<SellerLot>, lots: seq<SellerLot>, trades: seq<Trade>) {
    SameIds(lots0, lots) && NoneNegative(lots)
    && forall i :: 0 <= i < |lots| ==> TradedOf(trades, lots[i].id) + lots[i].available <= lots0[i].available
  }

  ghost predicate TradesToday(lots: seq<SellerLot>, trades: seq<Trade>, day: int) {
    forall t :: t in trades ==>
      t.day <= day && (t.day == day ==> exists i :: 0 <= i < |lots| && lots[i].id == t.lot && FlagsClear(lots[i]))
  }

  ghost predicate EventsToday(lots: seq<SellerLot>, blocked: seq<Event>, day: int) {
    forall e :: e in blocked ==>
      e.day <= day
      && (e.day == day && e.Blocked? ==> exists i :: 0 <= i < |lots| && lots[i].id == e.lot && FlagSays(lots[i], e.reason))
  }

  ghost predicate PastClear(trades: seq<Trade>, blocked: seq<Event>, day: int) {
    forall t, e :: t in trades && e in blocked && t.day < day ==> !Clash(t, e)
  }

  predicate KeysDiffer(trades: seq<Trade>) {
    forall i, j :: 0 <= i < j < |trades| ==> KeyOf(trades[i]) != KeyOf(trades[j])
  }

  /** Who has traded today: only these buyers. */
  ghost predicate OnlyBuyers(trades: seq<Trade>, day: int, buyers: set<nat>) {
    forall t :: t in trades && t.day == day ==> t.buyer in buyers
  }

  ghost predicate Sound(lots0: seq<SellerLot>, b: Book, day: int, buyers: set<nat>) {
    && Stocked(lots0, b.lots, b.trades) && TradesToday(b.lots, b.trades, day) && EventsToday(b.lots, b.blocked, day)
    && PastClear(b.trades, b.blocked, day) && KeysDiffer(b.trades) && OnlyBuyers(b.trades, day, buyers)
  }

  // ---- filling one order ----

  /** This buyer has not traded any lot still queued, and every queued lot passed the gate. */
  ghost predicate Ahead(lots: seq<SellerLot>, trades: seq<Trade>, o: BuyerOrder, day: int, todo: seq<nat>) {
    && Places(todo, lots) && GreedyFill.AllDiffer(todo)
    && (forall k :: 0 <= k < |todo| ==> FlagsClear(lots[todo[k]]))
    && (forall t, k :: t in trades && 0 <= k < |todo| && t.day == day && t.buyer == o.buyer ==> t.lot != lots[todo[k]].id)
  }

  ghost predicate Filling(lots0: seq<SellerLot>, f: Fill, o: BuyerOrder, day: int, buyers: set<nat>, todo: seq<nat>) {
    && Stocked(lots0, f.lots, f.trades) && TradesToday(f.lots, f.trades, day) && KeysDiffer(f.trades)
    && OnlyBuyers(f.trades, day, buyers) && o.buyer in buyers && Ahead(f.lots, f.trades, o, day, todo)
  }

  lemma TradedOfAppend(trades: seq<Trade>, t: Trade, lot: LotId)
    ensures TradedOf(trades + [t], lot) == TradedOf(trades, lot) + if t.lot == lot then t.qty else 0
  {
  }

  lemma StockedAfter(lots0: seq<SellerLot>, lots: seq<SellerLot>, trades: seq<Trade>, i: nat, t: Trade)
    requires Stocked(lots0, lots, trades) && i < |lots| && t.lot == lots[i].id && 0 < t.qty <= lots[i].available
    ensures Stocked(lots0, lots[i := lots[i].(available := lots[i].available - t.qty)], trades + [t])
  {
    var lots' := lots[i := lots[i].(available := lots[i].available - t.qty)];
    hide TradedOf;
    forall j | 0 <= j < |lots| ensures TradedOf(trades + [t], lots'[j].id) + lots'[j].available <= lots0[j].available {
      TradedOfAppend(trades, t, lots[j].id);
    }
  }

  lemma TodayAfter(lots: seq<SellerLot>, lots': seq<SellerLot>, trades: seq<Trade>, day: int, i: nat, t: Trade)
    requires TradesToday(lots, trades, day) && GreedyFill.OnlyStock(lots, lots')
    requires i < |lots| && t.lot == lots[i].id && t.day == day && FlagsClear(lots[i])
    ensures TradesToday(lots', trades + [t], day)
  {
  }

  lemma KeysAfter(lots: seq<SellerLot>, trades: seq<Trade>, o: BuyerOrder, day: int, todo: seq<nat>, t: Trade)
    requires KeysDiffer(trades) && Ahead(lots, trades, o, day, todo) && todo != []
    requires t.buyer == o.buyer && t.day == day && t.lot == lots[todo[0]].id
    ensures KeysDiffer(trades + [t])
  {
  }

  lemma AheadAfter(lots: seq<SellerLot>, lots': seq<SellerLot>, trades: seq<Trade>, o: BuyerOrder, day: int, todo: seq<nat>, more: seq<Trade>)
    requires LotIdsDiffer(lots) && GreedyFill.OnlyStock(lots, lots') && todo != [] && Ahead(lots, trades, o, day, todo)
    requires forall t :: t in more ==> t.lot == lots[todo[0]].id
    ensures Ahead(lots', trades + more, o, day, todo[1..])
  {
  }

  lemma TradingStep(s: Scenario, lots0: seq<SellerLot>, f: Fill, o: BuyerOrder, day: int, buyers: set<nat>, todo: seq<nat>)
    requires Filling(lots0, f, o, day, buyers, todo) && todo != [] && f.remaining > 0 && Share(f, todo[0]) > 0
    ensures Filling(lots0, FillFrom(s, f, o, day, todo[0]), o, day, buyers, todo[1..])
  {
    var i := todo[0];
    var t, g := NewTrade(s, f, o, day, i), FillFrom(s, f, o, day, i);
    TradeIs(s, f, o, day, i);
    hide NewTrade;
    StockedAfter(lots0, f.lots, f.trades, i, t);
    TodayAfter(f.lots, g.lots, f.trades, day, i, t);
    KeysAfter(f.lots, f.trades, o, day, todo, t);
    AheadAfter(f.lots, g.lots, f.trades, o, day, todo, [t]);
    hide Stocked;
    hide TradesToday;
    hide KeysDiffer;
    hide Ahead;
  }

  lemma TradeIs(s: Scenario, f: Fill, o: BuyerOrder, day: int, i: nat)
    requires i < |f.lots|
    ensures var t := NewTrade(s, f, o, day, i);
            t.buyer == o.buyer && t.lot == f.lots[i].id && t.day == day && t.qty == Share(f, i)
  {
  }

  lemma FillStep(s: Scenario, lots0: seq<SellerLot>, f: Fill, o: BuyerOrder, day: int, buyers: set<nat>, todo: seq<nat>)
    requires Filling(lots0, f, o, day, buyers, todo) && todo != []
    ensures Filling(lots0, FillFrom(s, f, o, day, todo[0]), o, day, buyers, todo[1..])
  {
    if f.remaining > 0 && Share(f, todo[0]) > 0 {
      TradingStep(s, lots0, f, o, day, buyers, todo);
      hide Filling;
      hide FillFrom;
    } else {
      assert f.trades + [] == f.trades;
      AheadAfter(f.lots, f.lots, f.trades, o, day, todo, []);
      hide Stocked;
      hide TradesToday;
      hide KeysDiffer;
      hide Ahead;
    }
  }

  lemma {:induction false} FillKeeps(s: Scenario, lots0: seq<SellerLot>, f: Fill, o: BuyerOrder, day: int, buyers: set<nat>, todo: seq<nat>)
    requires Filling(lots0, f, o, day, buyers, todo) && Places(todo, f.lots)
    ensures Filling(lots0, FillAll(s, f, o, day, todo), o, day, buyers, [])
    decreases |todo|
  {
    if todo != [] {
      FillStep(s, lots0, f, o, day, buyers, todo);
      hide Filling;
      hide FillFrom;
      FillPlaces(s, f, o, day, todo);
      FillKeeps(s, lots0, FillFrom(s, f, o, day, todo[0]), o, day, buyers, todo[1..]);
    }
  }

  lemma FillPlaces(s: Scenario, f: Fill, o: BuyerOrder, day: int, todo: seq<nat>)
    requires Places(todo, f.lots) && todo != []
    ensures Places(todo[1..], FillFrom(s, f, o, day, todo[0]).lots)
  {
  }

  /** Filling an order touches only stock, and its trades are of the day. */
  lemma {:induction false} FillTouches(s: Scenario, f: Fill, o: BuyerOrder, day: int, todo: seq<nat>)
    requires Places(todo, f.lots)
    ensures GreedyFill.OnlyStock(f.lots, FillAll(s, f, o, day, todo).lots)
    ensures forall t :: t in FillAll(s, f, o, day, todo).trades ==> t in f.trades || t.day == day
    decreases |todo|
  {
    if todo != [] {
      FillPlaces(s, f, o, day, todo);
      FillTouches(s, FillFrom(s, f, o, day, todo[0]), o, day, todo[1..]);
    }
  }

  // ---- one order ----

  lemma {:induction false} BlocksSay(o: BuyerOrder, lots: seq<SellerLot>, day: int, n: nat)
    requires n <= |lots|
    ensures forall e :: e in BlocksUpTo(o, lots, day, n) ==>
      e.Blocked? && e.day == day && exists i :: 0 <= i < |lots| && lots[i].id == e.lot && FlagSays(lots[i], e.reason)
  {
    if n > 0 {
      BlocksSay(o, lots, day, n - 1);
      assert FlagSays(lots[n - 1], PretradeGate(o, lots[n - 1]));
    }
  }

  lemma EventsAfter(lots: seq<SellerLot>, lots': seq<SellerLot>, blocked: seq<Event>, more: seq<Event>, day: int)
    requires EventsToday(lots, blocked, day) && EventsToday(lots, more, day) && GreedyFill.OnlyStock(lots, lots')
    ensures EventsToday(lots', blocked + more, day)
  {
  }

  lemma PassingIsClear(o: BuyerOrder, lot: SellerLot)
    requires Passes(o, lot)
    ensures FlagsClear(lot)
  {
  }

  lemma OrderStarts(lots0: seq<SellerLot>, b: Book, o: BuyerOrder, day: int, buyers: set<nat>)
    requires Sound(lots0, b, day, buyers) && o.buyer !in buyers
    ensures Filling(lots0, Fill(b.lots, b.trades, o.requested), o, day, buyers + {o.buyer}, EligibleFrom(o, b.lots, 0))
  {
    hide PretradeGate;
    hide Stocked;
    hide TradesToday;
    GreedyFill.EligibleIsSorted(o, b.lots, 0);
    var queue := EligibleFrom(o, b.lots, 0);
    hide EligibleFrom;
    forall k | 0 <= k < |queue| ensures FlagsClear(b.lots[queue[k]]) {
      assert queue[k] in queue;
      PassingIsClear(o, b.lots[queue[k]]);
    }
  }

  /** The events an order leaves: each of the day, each about a lot that says so. */
  lemma OrderEvents(o: BuyerOrder, lots: seq<SellerLot>, day: int, last: seq<Event>)
    requires forall e :: e in last ==> e.Unfilled? && e.day == day
    ensures EventsToday(lots, BlocksUpTo(o, lots, day, |lots|) + last, day)
    ensures forall e :: e in BlocksUpTo(o, lots, day, |lots|) + last ==> e.day == day
  {
    BlocksSay(o, lots, day, |lots|);
    hide FlagSays;
  }

  lemma OrderKeeps(s: Scenario, lots0: seq<SellerLot>, b: Book, o: BuyerOrder, day: int, buyers: set<nat>)
    requires Sound(lots0, b, day, buyers) && o.buyer !in buyers
    ensures Sound(lots0, ExecuteOrder(s, b, o, day), day, buyers + {o.buyer})
  {
    hide EventsToday;
    hide TradesToday;
    hide Stocked;
    hide PastClear;
    hide KeysDiffer;
    hide OnlyBuyers;
    hide Ahead;
    hide FillAll;
    hide EligibleFrom;
    hide BlocksUpTo;
    var f := Filled(s, b, o, day);
    var last := if f.remaining > 0 then [Unfilled(day, o.orderId, f.remaining)] else [];
    var more := BlocksUpTo(o, b.lots, day, |b.lots|) + last;
    OrderStarts(lots0, b, o, day, buyers);
    FillKeeps(s, lots0, Fill(b.lots, b.trades, o.requested), o, day, buyers + {o.buyer}, EligibleFrom(o, b.lots, 0));
    FillTouches(s, Fill(b.lots, b.trades, o.requested), o, day, EligibleFrom(o, b.lots, 0));
    OrderEvents(o, b.lots, day, last);
    EventsAfter(b.lots, f.lots, b.blocked, more, day);
    PastClearAfter(b.trades, b.blocked, f.trades, b.blocked + more, day);
    assert ExecuteOrder(s, b, o, day) == Book(f.lots, f.trades, b.blocked + more) by {
      assert b.blocked + BlocksUpTo(o, b.lots, day, |b.lots|) + last == b.blocked + more;
    }
  }

  lemma PastClearAfter(trades: seq<Trade>, blocked: seq<Event>, trades': seq<Trade>, blocked': seq<Event>, day: int)
    requires PastClear(trades, blocked, day)
    requires forall t :: t in trades' ==> t in trades || t.day == day
    requires forall e :: e in blocked' ==> e in blocked || e.day == day
    ensures PastClear(trades', blocked', day)
  {
  }

  // ---- a day, a run ----

  lemma {:induction false} OrdersKeep(s: Scenario, lots0: seq<SellerLot>, b: Book, orders: seq<BuyerOrder>, day: int, buyers: set<nat>)
    returns (after: set<nat>)
    requires Sound(lots0, b, day, buyers) && BuyersDiffer(orders) && forall i :: 0 <= i < |orders| ==> orders[i].buyer !in buyers
    ensures Sound(lots0, ExecuteAll(s, b, orders, day), day, after)
    decreases |orders|
  {
    if orders == [] {
      after := buyers;
    } else {
      OrderKeeps(s, lots0, b, orders[0], day, buyers);
      hide Sound;
      hide ExecuteOrder;
      after := OrdersKeep(s, lots0, ExecuteOrder(s, b, orders[0], day), orders[1..], day, buyers + {orders[0].buyer});
    }
  }

  /** Yesterday is closed: its trades and events agreed about the flags of the day. */
  lemma DayCloses(lots0: seq<SellerLot>, b: Book, day: int, buyers: set<nat>)
    requires Sound(lots0, b, day, buyers)
    ensures PastClear(b.trades, b.blocked, day + 1)
  {
  }

  lemma ScenarioKeepsStock(s: Scenario, lots0: seq<SellerLot>, lots: seq<SellerLot>, trades: seq<Trade>, day: int)
    requires Stocked(lots0, lots, trades)
    ensures Stocked(lots0, ApplyScenario(s, lots, day), trades)
  {
    hide TradedOf;
    var lots' := ApplyScenario(s, lots, day);
    forall i | 0 <= i < |lots| ensures lots'[i].id == lots[i].id && 0 <= lots'[i].available <= lots[i].available {
    }
  }

  lemma DayOpens(s: Scenario, lots0: seq<SellerLot>, b: Book, day: int, buyers: set<nat>)
    requires Sound(lots0, b, day - 1, buyers)
    ensures Sound(lots0, b.(lots := ApplyScenario(s, b.lots, day)), day, {})
  {
    DayCloses(lots0, b, day - 1, buyers);
    ScenarioKeepsStock(s, lots0, b.lots, b.trades, day);
    hide Stocked;
    hide PastClear;
  }

  lemma {:induction false} DaysKeep(s: Scenario, lots0: seq<SellerLot>, b: Book, days: seq<seq<BuyerOrder>>, day: int, buyers: set<nat>)
    returns (last: int, after: set<nat>)
    requires Sound(lots0, b, day - 1, buyers) && forall d :: 0 <= d < |days| ==> BuyersDiffer(days[d])
    ensures Sound(lots0, RunFrom(s, b, days, day), last, after)
    decreases |days|
  {
    hide Sound;
    if days == [] {
      last, after := day - 1, buyers;
    } else {
      DayOpens(s, lots0, b, day, buyers);
      var today := OrdersKeep(s, lots0, b.(lots := ApplyScenario(s, b.lots, day)), days[0], day, {});
      last, after := DaysKeep(s, lots0, RunDay(s, b, days[0], day), days[1..], day + 1, today);
    }
  }

  lemma {:induction false} DistinctKeysCount(trades: seq<Trade>)
    requires KeysDiffer(trades)
    ensures |KeySet(trades)| == |trades|
  {
    if trades != [] {
      var init, last := trades[..|trades| - 1], trades[|trades| - 1];
      DistinctKeysCount(init);
      assert KeySet(trades) == KeySet(init) + {KeyOf(last)};
      assert KeyOf(last) !in KeySet(init);
    }
  }

  /** For every scenario, stock and sequence of daily samples of buyers: no duplicate trade, no
      trade of a lot on a day it was blocked for its documents, inventory or supplier, and no
      lot ever trades more than it started with. */
  lemma RunsAreSound(s: Scenario, lots: seq<SellerLot>, days: seq<seq<BuyerOrder>>)
    requires LotIdsDiffer(lots) && NoneNegative(lots) && forall d :: 0 <= d < |days| ==> BuyersDiffer(days[d])
    ensures var b := RunAll(s, lots, days);
            && DuplicateTradeCount(b.trades) == 0
            && (forall t, e :: t in b.trades && e in b.blocked ==> !Clash(t, e))
            && |b.lots| == |lots|
            && forall i :: 0 <= i < |lots| ==>
                 b.lots[i].id == lots[i].id && b.lots[i].available >= 0
                 && TradedOf(b.trades, lots[i].id) + b.lots[i].available <= lots[i].available
  {
    var b := RunAll(s, lots, days);
    assert Sound(lots, Book(lots, [], []), 0, {});
    var last, buyers := DaysKeep(s, lots, Book(lots, [], []), days, 1, {});
    DayCloses(lots, b, last, buyers);
    DistinctKeysCount(b.trades);
    hide RunFrom;
    hide TradedOf;
    hide KeySet;
    forall t, e | t in b.trades && e in b.blocked ensures !Clash(t, e) {
      assert t.day <= last;
    }
  }

  // ---- numbers and outcomes ----

  /** Trades are numbered in order, and only the three post-trade scenarios leave one short of
      completion: late deliveries of seller 7, second lots that fail inspection, and settlements
      of trades whose number ends in 3 or 7. */
  predicate Outcomes(s: Scenario, trades: seq<Trade>) {
    forall i :: 0 <= i < |trades| ==>
      var t := trades[i];
      && t.number == i + 1 && t.pretradeVerified
      && (t.status == DISPUTED <==> (s == DELIVERY_DELAY && 35 <= t.day <= 50 && t.lot.seller == 7)
                                    || (s == QUALITY_MISMATCH && 50 <= t.day <= 65 && t.lot.index == 2))
      && (t.status == SETTLEMENT_HOLD <==> s == SETTLEMENT_ERROR && 60 <= t.day <= 75 && (t.number % 10 == 3 || t.number % 10 == 7))
  }

  lemma {:induction false} FillOutcomes(s: Scenario, f: Fill, o: BuyerOrder, day: int, todo: seq<nat>)
    requires Places(todo, f.lots) && Outcomes(s, f.trades)
    ensures Outcomes(s, FillAll(s, f, o, day, todo).trades)
    decreases |todo|
  {
    if todo != [] {
      FillPlaces(s, f, o, day, todo);
      FillOutcomes(s, FillFrom(s, f, o, day, todo[0]), o, day, todo[1..]);
    }
  }

  lemma {:induction false} OrdersOutcomes(s: Scenario, b: Book, orders: seq<BuyerOrder>, day: int)
    requires Outcomes(s, b.trades)
    ensures Outcomes(s, ExecuteAll(s, b, orders, day).trades)
    decreases |orders|
  {
    hide Outcomes;
    if orders != [] {
      FillOutcomes(s, Fill(b.lots, b.trades, orders[0].requested), orders[0], day, EligibleFrom(orders[0], b.lots, 0));
      OrdersOutcomes(s, ExecuteOrder(s, b, orders[0], day), orders[1..], day);
    }
  }

  lemma {:induction false} DaysOutcomes(s: Scenario, b: Book, days: seq<seq<BuyerOrder>>, day: int)
    requires Outcomes(s, b.trades)
    ensures Outcomes(s, RunFrom(s, b, days, day).trades)
    decreases |days|
  {
    hide Outcomes;
    if days != [] {
      OrdersOutcomes(s, b.(lots := ApplyScenario(s, b.lots, day)), days[0], day);
      DaysOutcomes(s, RunDay(s, b, days[0], day), days[1..], day + 1);
    }
  }

  /** Over every run, trade numbers are 1..n, every trade was verified beforehand and a trade's
      outcome is its scenario's. */
  lemma RunOutcomes(s: Scenario, lots: seq<SellerLot>, days: seq<seq<BuyerOrder>>)
    ensures Outcomes(s, RunAll(s, lots, days).trades)
  {
    DaysOutcomes(s, Book(lots, [], []), days, 1);
  }
}
