/** The market simulator of simulator/gaba_beta_simulator.py: what a day's scenario does to the
    lots, how an order is gated and filled, and a whole run. */
module Simulator {
  import opened Texts

  datatype Scenario =
    | NORMAL | DEMAND_SURGE | SUPPLIER_OUTAGE | DOCUMENT_EXPIRY | INVENTORY_MISMATCH | QUALITY_MISMATCH
    | DELIVERY_DELAY | SETTLEMENT_ERROR | PRICE_SPIKE | PRICE_DROP | SELLER_VERIFICATION_FAILURE

  /** LOT-ss-ll: the seller's number and the lot's number at that seller. */
  datatype LotId = LotId(seller: nat, index: nat)

  /** Prices are in hundredths. */
  datatype SellerLot = SellerLot(id: LotId, specId: nat, available: int, askPrice: int, deliveryDays: int,
                                 documentValid: bool, inventoryVerified: bool, supplierVerified: bool,
                                 qualityVerified: bool, maxDailySupply: int)

  datatype BuyerOrder = BuyerOrder(orderId: nat, buyer: nat, specId: nat, bidPrice: int, requested: int, deliveryDays: int)

  datatype TradeStatus = COMPLETED | DISPUTED | SETTLEMENT_HOLD

  datatype Trade = Trade(number: nat, orderId: nat, buyer: nat, lot: LotId, specId: nat, price: int, qty: int, day: int,
                         pretradeVerified: bool, status: TradeStatus)

  datatype Reason =
    | SPEC_MISMATCH | SUPPLIER_NOT_VERIFIED | DOCUMENT_INVALID | INVENTORY_NOT_VERIFIED | QUALITY_NOT_VERIFIED
    | NO_AVAILABLE_INVENTORY | DELIVERY_NOT_FEASIBLE | PRICE_NOT_ACCEPTABLE | PASSES

  datatype Event = Blocked(day: int, orderId: nat, lot: LotId, reason: Reason) | Unfilled(day: int, orderId: nat, remaining: int)

  datatype Book = Book(lots: seq<SellerLot>, trades: seq<Trade>, blocked: seq<Event>)

  // ---- the day's scenario ----

  function Affected(s: Scenario, lot: SellerLot, day: int): SellerLot {
    var reset := lot.(documentValid := true, inventoryVerified := true, supplierVerified := true, qualityVerified := true);
    match s
    case SUPPLIER_OUTAGE => if 20 <= day <= 35 && lot.id.seller in {1, 2, 3} then reset.(available := 0) else reset
    case DOCUMENT_EXPIRY => if 30 <= day <= 45 && lot.id.index == 2 then reset.(documentValid := false) else reset
    case INVENTORY_MISMATCH => if 40 <= day <= 55 && lot.id.index == 1 then reset.(inventoryVerified := false) else reset
    case SELLER_VERIFICATION_FAILURE =>
      if 15 <= day <= 25 && lot.id.seller == 4 then reset.(supplierVerified := false) else reset
    case _ => reset
  }

  function ApplyScenario(s: Scenario, lots: seq<SellerLot>, day: int): seq<SellerLot> {
    seq(|lots|, i requires 0 <= i < |lots| => Affected(s, lots[i], day))
  }

  // ---- the gate ----

  function PretradeGate(o: BuyerOrder, lot: SellerLot): Reason {
    if lot.specId != o.specId then SPEC_MISMATCH
    else if !lot.supplierVerified then SUPPLIER_NOT_VERIFIED
    else if !lot.documentValid then DOCUMENT_INVALID
    else if !lot.inventoryVerified then INVENTORY_NOT_VERIFIED
    else if !lot.qualityVerified then QUALITY_NOT_VERIFIED
    else if lot.available <= 0 then NO_AVAILABLE_INVENTORY
    else if lot.deliveryDays > o.deliveryDays then DELIVERY_NOT_FEASIBLE
    else if lot.askPrice > o.bidPrice then PRICE_NOT_ACCEPTABLE
    else PASSES
  }

  predicate Passes(o: BuyerOrder, lot: SellerLot) {
    PretradeGate(o, lot) == PASSES
  }

  /** The sort key (ask, delivery days, seller id), strictly less; seller ids compare as text. */
  predicate Precedes(a: SellerLot, b: SellerLot) {
    a.askPrice < b.askPrice
    || (a.askPrice == b.askPrice
        && (a.deliveryDays < b.deliveryDays
            || (a.deliveryDays == b.deliveryDays
                && Before(PadZero(Decimal(a.id.seller), 2), PadZero(Decimal(b.id.seller), 2)))))
  }

  predicate Places(queue: seq<nat>, lots: seq<SellerLot>) {
    forall k :: 0 <= k < |queue| ==> queue[k] < |lots|
  }

  /** Ahead of every lot that does not precede it: the sort is stable. */
  function Insert(lots: seq<SellerLot>, i: nat, queue: seq<nat>): (r: seq<nat>)
    requires i < |lots| && Places(queue, lots)
    ensures Places(r, lots) && multiset(r) == multiset{i} + multiset(queue)
  {
    if queue == [] || !Precedes(lots[queue[0]], lots[i]) then [i] + queue
    else
      assert queue == [queue[0]] + queue[1..];
      [queue[0]] + Insert(lots, i, queue[1..])
  }

  /** The places, from i on, of the lots that pass, cheapest first. */
  function EligibleFrom(o: BuyerOrder, lots: seq<SellerLot>, i: nat): (r: seq<nat>)
    requires i <= |lots|
    ensures Places(r, lots)
    decreases |lots| - i
  {
    if i == |lots| then []
    else if Passes(o, lots[i]) then Insert(lots, i, EligibleFrom(o, lots, i + 1))
    else EligibleFrom(o, lots, i + 1)
  }

  /** One event for each lot, up to i, that the gate stops. */
  function BlocksUpTo(o: BuyerOrder, lots: seq<SellerLot>, day: int, i: nat): seq<Event>
    requires i <= |lots|
  {
    if i == 0 then []
    else
      BlocksUpTo(o, lots, day, i - 1)
      + if Passes(o, lots[i - 1]) then [] else [Blocked(day, o.orderId, lots[i - 1].id, PretradeGate(o, lots[i - 1]))]
  }

  // ---- filling an order ----

  function Min(a: int, b: int): int { if a < b then a else b }

  function Settled(s: Scenario, t: Trade): Trade {
    if s == DELIVERY_DELAY && 35 <= t.day <= 50 && t.lot.seller == 7 then t.(status := DISPUTED)
    else if s == QUALITY_MISMATCH && 50 <= t.day <= 65 && t.lot.index == 2 then t.(status := DISPUTED)
    else if s == SETTLEMENT_ERROR && 60 <= t.day <= 75 && t.number % 10 in {3, 7} then t.(status := SETTLEMENT_HOLD)
    else t
  }

  /** An order being filled. */
  datatype Fill = Fill(lots: seq<SellerLot>, trades: seq<Trade>, remaining: int)

  function Share(f: Fill, i: nat): int
    requires i < |f.lots|
  {
    Min(Min(f.remaining, f.lots[i].available), f.lots[i].maxDailySupply)
  }

  function NewTrade(s: Scenario, f: Fill, o: BuyerOrder, day: int, i: nat): Trade
    requires i < |f.lots|
  {
    Settled(s, Trade(|f.trades| + 1, o.orderId, o.buyer, f.lots[i].id, o.specId, f.lots[i].askPrice, Share(f, i), day, true, COMPLETED))
  }

  function FillFrom(s: Scenario, f: Fill, o: BuyerOrder, day: int, i: nat): Fill
    requires i < |f.lots|
  {
    var qty := Share(f, i);
    if f.remaining <= 0 || qty <= 0 then f
    else
      Fill(f.lots[i := f.lots[i].(available := f.lots[i].available - qty)], f.trades + [NewTrade(s, f, o, day, i)], f.remaining - qty)
  }

  function FillAll(s: Scenario, f: Fill, o: BuyerOrder, day: int, queue: seq<nat>): (r: Fill)
    requires Places(queue, f.lots)
    ensures |r.lots| == |f.lots|
    decreases |queue|
  {
    if queue == [] then f else FillAll(s, FillFrom(s, f, o, day, queue[0]), o, day, queue[1..])
  }

  function Filled(s: Scenario, b: Book, o: BuyerOrder, day: int): Fill {
    FillAll(s, Fill(b.lots, b.trades, o.requested), o, day, EligibleFrom(o, b.lots, 0))
  }

  function ExecuteOrder(s: Scenario, b: Book, o: BuyerOrder, day: int): Book {
    var f := Filled(s, b, o, day);
    Book(f.lots, f.trades, b.blocked + BlocksUpTo(o, b.lots, day, |b.lots|)
                           + if f.remaining > 0 then [Unfilled(day, o.orderId, f.remaining)] else [])
  }

  function ExecuteAll(s: Scenario, b: Book, orders: seq<BuyerOrder>, day: int): Book
    decreases |orders|
  {
    if orders == [] then b else ExecuteAll(s, ExecuteOrder(s, b, orders[0], day), orders[1..], day)
  }

  function RunDay(s: Scenario, b: Book, orders: seq<BuyerOrder>, day: int): Book {
    ExecuteAll(s, b.(lots := ApplyScenario(s, b.lots, day)), orders, day)
  }

  /** The days from `day` on, each with the orders it brings. */
  function RunFrom(s: Scenario, b: Book, days: seq<seq<BuyerOrder>>, day: int): Book
    decreases |days|
  {
    if days == [] then b else RunFrom(s, RunDay(s, b, days[0], day), days[1..], day + 1)
  }

  function RunAll(s: Scenario, lots: seq<SellerLot>, days: seq<seq<BuyerOrder>>): Book {
    RunFrom(s, Book(lots, [], []), days, 1)
  }

  // ---- the class ----

  class GabaBetaSimulator {
    const scenario: Scenario
    var lots: seq<SellerLot>
    var trades: seq<Trade>
    var blockedEvents: seq<Event>

    constructor (s: Scenario, made: seq<SellerLot>)
      ensures scenario == s && State() == Book(made, [], [])
    {
      scenario, lots, trades, blockedEvents := s, made, [], [];
    }

    function State(): Book
      reads this
    {
      Book(lots, trades, blockedEvents)
    }

    method ApplyScenarioToLots(day: int)
      modifies this`lots
      ensures lots == ApplyScenario(scenario, old(lots), day)
    {
      for i := 0 to |lots|
        invariant |lots| == |old(lots)|
        invariant forall k :: 0 <= k < i ==> lots[k] == Affected(scenario, old(lots[k]), day)
        invariant forall k :: i <= k < |lots| ==> lots[k] == old(lots[k])
      {
        lots := lots[i := Affected(scenario, lots[i], day)];
      }
    }

    /** The sorted candidates; every other lot leaves an event. */
    method EligibleLots(o: BuyerOrder, day: int) returns (queue: seq<nat>)
      modifies this`blockedEvents
      ensures queue == EligibleFrom(o, lots, 0)
      ensures blockedEvents == old(blockedEvents) + BlocksUpTo(o, lots, day, |lots|)
    {
      for i := 0 to |lots|
        invariant blockedEvents == old(blockedEvents) + BlocksUpTo(o, lots, day, i)
      {
        var reason := PretradeGate(o, lots[i]);
        if reason != PASSES { blockedEvents := blockedEvents + [Blocked(day, o.orderId, lots[i].id, reason)]; }
      }
      queue := EligibleFrom(o, lots, 0);
    }

    method Execute(o: BuyerOrder, day: int)
      modifies this`lots, this`trades, this`blockedEvents
      ensures State() == ExecuteOrder(scenario, old(State()), o, day)
    {
      hide EligibleFrom;
      hide BlocksUpTo;
      hide PretradeGate;
      hide Settled;
      var remaining := o.requested;
      var queue := EligibleLots(o, day);
      var k := 0;
      while k < |queue| && remaining > 0
        invariant 0 <= k <= |queue| && |lots| == |old(lots)|
        invariant FillAll(scenario, Fill(lots, trades, remaining), o, day, queue[k..]) == Filled(scenario, old(State()), o, day)
        invariant blockedEvents == old(blockedEvents) + BlocksUpTo(o, old(lots), day, |lots|)
      {
        var i := queue[k];
        var qty := Min(Min(remaining, lots[i].available), lots[i].maxDailySupply);
        assert queue[k..][1..] == queue[k + 1..];
        if qty > 0 {
          var trade := Trade(|trades| + 1, o.orderId, o.buyer, lots[i].id, o.specId, lots[i].askPrice, qty, day, true, COMPLETED);
          lots := lots[i := lots[i].(available := lots[i].available - qty)];
          remaining := remaining - qty;
          trades := trades + [Settled(scenario, trade)];
        }
        k := k + 1;
      }
      FilledStays(scenario, Fill(lots, trades, remaining), o, day, queue[k..]);
      if remaining > 0 { blockedEvents := blockedEvents + [Unfilled(day, o.orderId, remaining)]; }
    }

    method Run(days: seq<seq<BuyerOrder>>)
      modifies this`lots, this`trades, this`blockedEvents
      ensures State() == RunFrom(scenario, old(State()), days, 1)
    {
      for d := 0 to |days|
        invariant RunFrom(scenario, State(), days[d..], d + 1) == RunFrom(scenario, old(State()), days, 1)
      {
        assert days[d..][0] == days[d] && days[d..][1..] == days[d + 1..];
        ghost var b := State();
        ApplyScenarioToLots(d + 1);
        var orders := days[d];
        for n := 0 to |orders|
          invariant ExecuteAll(scenario, State(), orders[n..], d + 1) == RunDay(scenario, b, orders, d + 1)
        {
          assert orders[n..][0] == orders[n] && orders[n..][1..] == orders[n + 1..];
          Execute(orders[n], d + 1);
        }
      }
    }
  }

  lemma {:induction false} FilledStays(s: Scenario, f: Fill, o: BuyerOrder, day: int, queue: seq<nat>)
    requires Places(queue, f.lots) && (f.remaining <= 0 || queue == [])
    ensures FillAll(s, f, o, day, queue) == f
    decreases |queue|
  {
    if queue != [] { FilledStays(s, f, o, day, queue[1..]); }
  }
}
