/** The verdict simulator/shadow_pilot_runner.py gives on a simulator run, and what it comes to. */
module ShadowPilot {
  import opened Wrappers
  import opened Simulator
  import opened SimulatorRuns
  import GreedyFill

  /** What a scenario of the pilot plan is expected to show. */
  datatype Expected =
    | TRADE_CONFIRMED | BLOCKED_BEFORE_TRADE | PARTIAL_FILL_TRACEABLE | DISPUTED_AFTER_DELIVERY | HELD_AT_SETTLEMENT | OTHER

  // ---- metrics ----

  function Count(trades: seq<Trade>, p: Trade -> bool): nat {
    if trades == [] then 0 else Count(trades[..|trades| - 1], p) + if p(trades[|trades| - 1]) then 1 else 0
  }

  function CountEvents(events: seq<Event>, p: Event -> bool): nat {
    if events == [] then 0 else CountEvents(events[..|events| - 1], p) + if p(events[|events| - 1]) then 1 else 0
  }

  /** round(verified / total, 4) in ten-thousandths, and 0 when there are no trades. */
  function VerificationRate(trades: seq<Trade>): int {
    if trades == [] then 0
    else (20_000 * Count(trades, (t: Trade) => t.pretradeVerified) + |trades|) / (2 * |trades|)
  }

  function BlockReason(s: Scenario): Option<Reason> {
    match s
    case DOCUMENT_EXPIRY => Some(DOCUMENT_INVALID)
    case INVENTORY_MISMATCH => Some(INVENTORY_NOT_VERIFIED)
    case SELLER_VERIFICATION_FAILURE => Some(SUPPLIER_NOT_VERIFIED)
    case _ => None
  }

  predicate BlockedFor(s: Scenario, e: Event) {
    e.Blocked? && BlockReason(s) == Some(e.reason)
  }

  /** Trades of a lot on a day for which one of the scenario's own events names that lot. */
  function InvalidLotTradeCount(s: Scenario, b: Book): nat {
    Count(b.trades, (t: Trade) => exists e :: e in b.blocked && BlockedFor(s, e) && e.lot == t.lot && e.day == t.day)
  }

  // ---- the verdict ----

  datatype Checks = Checks(pretradeVerificationRate: bool, duplicateTradeCount: bool, scenarioBlockedEventCount: bool,
                           invalidLotTradeCount: bool, expectedOutcome: bool)

  /** The checks of `evaluate_scenario`; the two about blocking are made only when it is expected. */
  function Evaluate(s: Scenario, b: Book, expected: Expected): Checks {
    var basic := Checks(VerificationRate(b.trades) == 10_000, DuplicateTradeCount(b.trades) == 0, true, true, true);
    match expected
    case TRADE_CONFIRMED => basic.(expectedOutcome := Count(b.trades, (t: Trade) => t.status == COMPLETED) > 0)
    case BLOCKED_BEFORE_TRADE =>
      var some := CountEvents(b.blocked, (e: Event) => BlockedFor(s, e)) > 0;
      var none := InvalidLotTradeCount(s, b) == 0;
      basic.(scenarioBlockedEventCount := some, invalidLotTradeCount := none, expectedOutcome := some && none)
    case PARTIAL_FILL_TRACEABLE => basic.(expectedOutcome := CountEvents(b.blocked, (e: Event) => e.Unfilled?) > 0)
    case DISPUTED_AFTER_DELIVERY => basic.(expectedOutcome := Count(b.trades, (t: Trade) => t.status == DISPUTED) > 0)
    case HELD_AT_SETTLEMENT => basic.(expectedOutcome := Count(b.trades, (t: Trade) => t.status == SETTLEMENT_HOLD) > 0)
    case OTHER => basic
  }

  predicate Passed(c: Checks) {
    c.pretradeVerificationRate && c.duplicateTradeCount && c.scenarioBlockedEventCount && c.invalidLotTradeCount && c.expectedOutcome
  }

  // ---- counting ----

  lemma {:induction false} CountsSome(trades: seq<Trade>, p: Trade -> bool)
    ensures Count(trades, p) > 0 <==> exists t :: t in trades && p(t)
  {
    if trades != [] {
      var init, last := trades[..|trades| - 1], trades[|trades| - 1];
      assert trades == init + [last];
      CountsSome(init, p);
    }
  }

  lemma {:induction false} CountsAll(trades: seq<Trade>, p: Trade -> bool)
    requires forall t :: t in trades ==> p(t)
    ensures Count(trades, p) == |trades|
  {
    if trades != [] { CountsAll(trades[..|trades| - 1], p); }
  }

  lemma {:induction false} CountsSomeEvent(events: seq<Event>, p: Event -> bool)
    ensures CountEvents(events, p) > 0 <==> exists e :: e in events && p(e)
  {
    if events != [] {
      var init, last := events[..|events| - 1], events[|events| - 1];
      assert events == init + [last];
      CountsSomeEvent(init, p);
    }
  }

  lemma TimesGrows(d: int, a: int, b: int)
    requires d > 0 && a <= b
    ensures d * a <= d * b
  {
  }

  lemma QuotientIs(x: int, d: int, q: int)
    requires d > 0 && d * q <= x < d * q + d
    ensures x / d == q
  {
    var k := x / d;
    assert d * k <= x < d * k + d;
    assert d * (k + 1) == d * k + d && d * (q + 1) == d * q + d;
    if k < q { TimesGrows(d, k + 1, q); }
    if k > q { TimesGrows(d, q + 1, k); }
  }

  lemma FullRate(n: nat)
    requires n > 0
    ensures (20_000 * n + n) / (2 * n) == 10_000
  {
    assert (2 * n) * 10_000 == 20_000 * n;
    QuotientIs(20_000 * n + n, 2 * n, 10_000);
  }

  /** The rate is 1 exactly when there is a trade: every trade is verified. */
  lemma RateIsFull(s: Scenario, trades: seq<Trade>)
    requires Outcomes(s, trades)
    ensures VerificationRate(trades) == 10_000 <==> trades != []
  {
    if trades != [] {
      forall t | t in trades ensures t.pretradeVerified {
        var i :| 0 <= i < |trades| && trades[i] == t;
      }
      CountsAll(trades, (t: Trade) => t.pretradeVerified);
      FullRate(|trades|);
    }
  }

  // ---- what the verdict comes to ----

  predicate InDisputeWindow(s: Scenario, t: Trade) {
    (s == DELIVERY_DELAY && 35 <= t.day <= 50 && t.lot.seller == 7) || (s == QUALITY_MISMATCH && 50 <= t.day <= 65 && t.lot.index == 2)
  }

  predicate InHoldWindow(s: Scenario, t: Trade) {
    s == SETTLEMENT_ERROR && 60 <= t.day <= 75 && (t.number % 10 == 3 || t.number % 10 == 7)
  }

  ghost predicate Shown(s: Scenario, b: Book, expected: Expected) {
    match expected
    case TRADE_CONFIRMED => exists t :: t in b.trades && !InDisputeWindow(s, t) && !InHoldWindow(s, t)
    case BLOCKED_BEFORE_TRADE => exists e :: e in b.blocked && BlockedFor(s, e)
    case PARTIAL_FILL_TRACEABLE => exists e :: e in b.blocked && e.Unfilled?
    case DISPUTED_AFTER_DELIVERY => exists t :: t in b.trades && InDisputeWindow(s, t)
    case HELD_AT_SETTLEMENT => exists t :: t in b.trades && InHoldWindow(s, t)
    case OTHER => true
  }

  lemma StatusSays(s: Scenario, trades: seq<Trade>, t: Trade)
    requires Outcomes(s, trades) && t in trades
    ensures t.status == DISPUTED <==> InDisputeWindow(s, t)
    ensures t.status == SETTLEMENT_HOLD <==> InHoldWindow(s, t)
  {
    var i :| 0 <= i < |trades| && trades[i] == t;
  }

  lemma NoInvalidLotTrades(s: Scenario, b: Book)
    requires forall t, e :: t in b.trades && e in b.blocked ==> !Clash(t, e)
    ensures InvalidLotTradeCount(s, b) == 0
  {
    var p := (t: Trade) => exists e :: e in b.blocked && BlockedFor(s, e) && e.lot == t.lot && e.day == t.day;
    CountsSome(b.trades, p);
    forall t | t in b.trades ensures !p(t) {
      forall e | e in b.blocked && BlockedFor(s, e) ensures !(e.lot == t.lot && e.day == t.day) { assert !Clash(t, e); }
    }
  }

  /** A run passes exactly when it shows what was expected and there was a trade at all: the
      other checks always hold, but the verification rate of no trades counts as 0. */
  lemma PilotVerdict(s: Scenario, lots: seq<SellerLot>, days: seq<seq<BuyerOrder>>, expected: Expected)
    requires LotIdsDiffer(lots) && NoneNegative(lots) && forall d :: 0 <= d < |days| ==> BuyersDiffer(days[d])
    ensures var b := RunAll(s, lots, days); Passed(Evaluate(s, b, expected)) <==> b.trades != [] && Shown(s, b, expected)
  {
    var b := RunAll(s, lots, days);
    RunsAreSound(s, lots, days);
    RunOutcomes(s, lots, days);
    hide RunAll;
    RateIsFull(s, b.trades);
    forall t | t in b.trades
      ensures (t.status == DISPUTED <==> InDisputeWindow(s, t)) && (t.status == SETTLEMENT_HOLD <==> InHoldWindow(s, t))
    {
      StatusSays(s, b.trades, t);
    }
    hide Outcomes;
    hide VerificationRate;
    hide DuplicateTradeCount;
    match expected
    case TRADE_CONFIRMED => CountsSome(b.trades, (t: Trade) => t.status == COMPLETED);
    case BLOCKED_BEFORE_TRADE =>
      NoInvalidLotTrades(s, b);
      CountsSomeEvent(b.blocked, (e: Event) => BlockedFor(s, e));
    case PARTIAL_FILL_TRACEABLE => CountsSomeEvent(b.blocked, (e: Event) => e.Unfilled?);
    case DISPUTED_AFTER_DELIVERY => CountsSome(b.trades, (t: Trade) => t.status == DISPUTED);
    case HELD_AT_SETTLEMENT => CountsSome(b.trades, (t: Trade) => t.status == SETTLEMENT_HOLD);
    case OTHER =>
  }

  // ---- whether a run trades, told from its inputs ----

  /** The lot on a day before which it never traded; an outage takes its stock for good. */
  function Untouched(s: Scenario, lot: SellerLot, day: int): SellerLot {
    Affected(s, if s == SUPPLIER_OUTAGE && day >= 20 && lot.id.seller in {1, 2, 3} then lot.(available := 0) else lot, day)
  }

  predicate CanTrade(s: Scenario, lot: SellerLot, o: BuyerOrder, day: int) {
    Passes(o, Untouched(s, lot, day)) && o.requested > 0 && lot.maxDailySupply > 0
  }

  ghost predicate OrderCanTrade(s: Scenario, lots: seq<SellerLot>, o: BuyerOrder, day: int) {
    exists i :: 0 <= i < |lots| && CanTrade(s, lots[i], o, day)
  }

  ghost predicate DayCanTrade(s: Scenario, lots: seq<SellerLot>, orders: seq<BuyerOrder>, day: int) {
    exists n :: 0 <= n < |orders| && OrderCanTrade(s, lots, orders[n], day)
  }

  /** The days count from `day`. */
  ghost predicate RunCanTrade(s: Scenario, lots: seq<SellerLot>, days: seq<seq<BuyerOrder>>, day: int) {
    exists d :: 0 <= d < |days| && DayCanTrade(s, lots, days[d], day + d)
  }

  predicate AllUntouched(s: Scenario, lots0: seq<SellerLot>, lots: seq<SellerLot>, day: int) {
    |lots| == |lots0| && forall i :: 0 <= i < |lots| ==> lots[i] == Untouched(s, lots0[i], day)
  }

  predicate NoShare(f: Fill, queue: seq<nat>)
    requires Places(queue, f.lots)
  {
    forall k :: 0 <= k < |queue| ==> Share(f, queue[k]) <= 0
  }

  lemma {:induction false} FillMoves(s: Scenario, f: Fill, o: BuyerOrder, day: int, queue: seq<nat>)
    requires Places(queue, f.lots)
    ensures var g := FillAll(s, f, o, day, queue);
            && |g.trades| >= |f.trades| && (|g.trades| == |f.trades| ==> g == f)
            && (g == f <==> NoShare(f, queue))
    decreases |queue|
  {
    if queue != [] {
      FillPlaces(s, f, o, day, queue);
      FillMoves(s, FillFrom(s, f, o, day, queue[0]), o, day, queue[1..]);
      if Share(f, queue[0]) <= 0 {
        assert forall k :: 0 < k < |queue| ==> queue[k] == queue[1..][k - 1];
      }
    }
  }

  lemma CanTradeIsShare(s: Scenario, lot: SellerLot, f: Fill, o: BuyerOrder, day: int, i: nat)
    requires i < |f.lots| && f.lots[i] == Untouched(s, lot, day) && f.remaining == o.requested
    ensures CanTrade(s, lot, o, day) <==> Passes(o, f.lots[i]) && Share(f, i) > 0
  {
    UntouchedKeepsCap(s, lot, day);
    hide Untouched;
  }

  lemma QueueCanTrade(s: Scenario, lots0: seq<SellerLot>, f: Fill, o: BuyerOrder, day: int)
    requires AllUntouched(s, lots0, f.lots, day) && f.remaining == o.requested
    ensures OrderCanTrade(s, lots0, o, day) <==> !NoShare(f, EligibleFrom(o, f.lots, 0))
  {
    var queue := EligibleFrom(o, f.lots, 0);
    GreedyFill.EligibleIsSorted(o, f.lots, 0);
    hide EligibleFrom;
    hide Untouched;
    hide Passes;
    hide Share;
    hide CanTrade;
    hide GreedyFill.Cheapening;
    forall i: nat | i < |lots0| ensures CanTrade(s, lots0[i], o, day) <==> i in queue && Share(f, i) > 0 {
      CanTradeIsShare(s, lots0[i], f, o, day, i);
    }
    if OrderCanTrade(s, lots0, o, day) {
      var i: nat :| i < |lots0| && CanTrade(s, lots0[i], o, day);
      assert i in queue;
    }
    if !NoShare(f, queue) {
      var k :| 0 <= k < |queue| && Share(f, queue[k]) > 0;
      assert queue[k] in queue;
      assert CanTrade(s, lots0[queue[k]], o, day);
    }
  }

  lemma OrderMoves(s: Scenario, lots0: seq<SellerLot>, b: Book, o: BuyerOrder, day: int)
    requires AllUntouched(s, lots0, b.lots, day)
    ensures var c := ExecuteOrder(s, b, o, day);
            && |c.trades| >= |b.trades|
            && (OrderCanTrade(s, lots0, o, day) <==> |c.trades| > |b.trades|)
            && (|c.trades| == |b.trades| ==> c.lots == b.lots && c.trades == b.trades)
  {
    var f, queue := Fill(b.lots, b.trades, o.requested), EligibleFrom(o, b.lots, 0);
    FillMoves(s, f, o, day, queue);
    QueueCanTrade(s, lots0, f, o, day);
    hide NoShare;
    hide EligibleFrom;
    hide FillAll;
    hide AllUntouched;
    hide BlocksUpTo;
    hide OrderCanTrade;
  }

  lemma UntouchedKeepsCap(s: Scenario, lot: SellerLot, day: int)
    ensures Untouched(s, lot, day).maxDailySupply == lot.maxDailySupply
  {
  }

  lemma DayCanSplit(s: Scenario, lots0: seq<SellerLot>, orders: seq<BuyerOrder>, day: int)
    requires orders != []
    ensures DayCanTrade(s, lots0, orders, day) <==> OrderCanTrade(s, lots0, orders[0], day) || DayCanTrade(s, lots0, orders[1..], day)
  {
    hide OrderCanTrade;
    var rest := orders[1..];
    if DayCanTrade(s, lots0, rest, day) {
      var n :| 0 <= n < |rest| && OrderCanTrade(s, lots0, rest[n], day);
      assert rest[n] == orders[n + 1];
    }
    if DayCanTrade(s, lots0, orders, day) {
      var n :| 0 <= n < |orders| && OrderCanTrade(s, lots0, orders[n], day);
      if n > 0 { assert rest[n - 1] == orders[n]; }
    }
  }

  /** Trades are never taken back. */
  lemma TradesStay(s: Scenario, b: Book, o: BuyerOrder, day: int)
    ensures |ExecuteOrder(s, b, o, day).trades| >= |b.trades|
  {
    FillMoves(s, Fill(b.lots, b.trades, o.requested), o, day, EligibleFrom(o, b.lots, 0));
    hide FillAll;
    hide EligibleFrom;
    hide BlocksUpTo;
    hide NoShare;
  }

  /** Once something traded there are trades; until then the lots are untouched. */
  lemma {:induction false} OrdersMove(s: Scenario, lots0: seq<SellerLot>, b: Book, orders: seq<BuyerOrder>, day: int)
    requires b.trades != [] || AllUntouched(s, lots0, b.lots, day)
    ensures var c := ExecuteAll(s, b, orders, day);
            && (c.trades != [] <==> b.trades != [] || DayCanTrade(s, lots0, orders, day))
            && (c.trades == [] ==> AllUntouched(s, lots0, c.lots, day))
    decreases |orders|
  {
    hide OrderCanTrade;
    hide AllUntouched;
    hide ExecuteOrder;
    if orders != [] {
      TradesStay(s, b, orders[0], day);
      if b.trades == [] { OrderMoves(s, lots0, b, orders[0], day); }
      OrdersMove(s, lots0, ExecuteOrder(s, b, orders[0], day), orders[1..], day);
      DayCanSplit(s, lots0, orders, day);
      hide DayCanTrade;
    }
  }

  lemma UntouchedTomorrow(s: Scenario, lots0: seq<SellerLot>, lots: seq<SellerLot>, day: int)
    requires AllUntouched(s, lots0, lots, day)
    ensures AllUntouched(s, lots0, ApplyScenario(s, lots, day + 1), day + 1)
  {
  }

  lemma RunCanSplit(s: Scenario, lots0: seq<SellerLot>, days: seq<seq<BuyerOrder>>, day: int)
    requires days != []
    ensures RunCanTrade(s, lots0, days, day) <==> DayCanTrade(s, lots0, days[0], day) || RunCanTrade(s, lots0, days[1..], day + 1)
  {
    hide DayCanTrade;
    var rest := days[1..];
    if RunCanTrade(s, lots0, rest, day + 1) {
      var d :| 0 <= d < |rest| && DayCanTrade(s, lots0, rest[d], day + 1 + d);
      assert rest[d] == days[d + 1] && day + 1 + d == day + (d + 1);
      assert DayCanTrade(s, lots0, days[d + 1], day + (d + 1));
    }
    if RunCanTrade(s, lots0, days, day) {
      var d :| 0 <= d < |days| && DayCanTrade(s, lots0, days[d], day + d);
      if d > 0 {
        assert rest[d - 1] == days[d] && day + 1 + (d - 1) == day + d;
        assert DayCanTrade(s, lots0, rest[d - 1], day + 1 + (d - 1));
      }
    }
    if DayCanTrade(s, lots0, days[0], day) { assert DayCanTrade(s, lots0, days[0], day + 0); }
  }

  lemma {:induction false} DaysMove(s: Scenario, lots0: seq<SellerLot>, b: Book, days: seq<seq<BuyerOrder>>, day: int)
    requires b.trades != [] || AllUntouched(s, lots0, ApplyScenario(s, b.lots, day), day)
    ensures RunFrom(s, b, days, day).trades != [] <==> b.trades != [] || RunCanTrade(s, lots0, days, day)
    decreases |days|
  {
    hide DayCanTrade;
    hide ApplyScenario;
    hide AllUntouched;
    hide ExecuteAll;
    if days != [] {
      OrdersMove(s, lots0, b.(lots := ApplyScenario(s, b.lots, day)), days[0], day);
      var c := RunDay(s, b, days[0], day);
      if c.trades == [] { UntouchedTomorrow(s, lots0, c.lots, day); }
      DaysMove(s, lots0, c, days[1..], day + 1);
      RunCanSplit(s, lots0, days, day);
      hide RunCanTrade;
    }
  }

  /** A run trades exactly when some lot, untouched, passes the gate for some order of some day. */
  lemma TradesExactlyWhen(s: Scenario, lots: seq<SellerLot>, days: seq<seq<BuyerOrder>>)
    ensures RunAll(s, lots, days).trades != [] <==> RunCanTrade(s, lots, days, 1)
  {
    DaysMove(s, lots, Book(lots, [], []), days, 1);
  }

  // ---- whether it blocks for a reason, told from its inputs ----

  ghost predicate OrderStopped(s: Scenario, lots: seq<SellerLot>, o: BuyerOrder, day: int, r: Reason) {
    exists i :: 0 <= i < |lots| && PretradeGate(o, Affected(s, lots[i], day)) == r
  }

  ghost predicate DayStopped(s: Scenario, lots: seq<SellerLot>, orders: seq<BuyerOrder>, day: int, r: Reason) {
    exists n :: 0 <= n < |orders| && OrderStopped(s, lots, orders[n], day, r)
  }

  ghost predicate RunStopped(s: Scenario, lots: seq<SellerLot>, days: seq<seq<BuyerOrder>>, day: int, r: Reason) {
    exists d :: 0 <= d < |days| && DayStopped(s, lots, days[d], day + d, r)
  }

  predicate Names(blocked: seq<Event>, r: Reason) {
    exists e :: e in blocked && e.Blocked? && e.reason == r
  }

  /** The same lots, whatever their stock and flags. */
  predicate SameOffers(lots0: seq<SellerLot>, lots: seq<SellerLot>) {
    |lots| == |lots0|
    && forall i :: 0 <= i < |lots| ==> lots[i].id == lots0[i].id && lots[i].specId == lots0[i].specId
  }

  predicate FlaggedFor(s: Scenario, lots0: seq<SellerLot>, lots: seq<SellerLot>, day: int) {
    SameOffers(lots0, lots)
    && forall i :: 0 <= i < |lots| ==>
         var a := Affected(s, lots0[i], day);
         lots[i].documentValid == a.documentValid && lots[i].inventoryVerified == a.inventoryVerified
         && lots[i].supplierVerified == a.supplierVerified && lots[i].qualityVerified == a.qualityVerified
  }

  lemma {:induction false} BlocksName(o: BuyerOrder, lots: seq<SellerLot>, day: int, n: nat, r: Reason)
    requires n <= |lots| && r != PASSES
    ensures Names(BlocksUpTo(o, lots, day, n), r) <==> exists i :: 0 <= i < n && PretradeGate(o, lots[i]) == r
  {
    hide PretradeGate;
    if n > 0 {
      BlocksName(o, lots, day, n - 1, r);
      var last := BlocksUpTo(o, lots, day, n)[|BlocksUpTo(o, lots, day, n - 1)|..];
      assert BlocksUpTo(o, lots, day, n) == BlocksUpTo(o, lots, day, n - 1) + last;
      if PretradeGate(o, lots[n - 1]) == r {
        assert Blocked(day, o.orderId, lots[n - 1].id, r) in BlocksUpTo(o, lots, day, n);
      }
    }
  }

  /** The hard reasons are tested before the stock. */
  lemma FlagsDecide(o: BuyerOrder, a: SellerLot, b: SellerLot, r: Reason)
    requires Hard(r) && a.specId == b.specId && a.documentValid == b.documentValid
    requires a.inventoryVerified == b.inventoryVerified && a.supplierVerified == b.supplierVerified
    ensures PretradeGate(o, a) == r <==> PretradeGate(o, b) == r
  {
  }

  lemma StoppedByFlags(s: Scenario, lots0: seq<SellerLot>, lots: seq<SellerLot>, o: BuyerOrder, day: int, r: Reason)
    requires Hard(r) && FlaggedFor(s, lots0, lots, day)
    ensures OrderStopped(s, lots0, o, day, r) <==> exists i :: 0 <= i < |lots| && PretradeGate(o, lots[i]) == r
  {
    hide PretradeGate;
    forall i | 0 <= i < |lots0| ensures PretradeGate(o, Affected(s, lots0[i], day)) == r <==> PretradeGate(o, lots[i]) == r {
      FlagsDecide(o, Affected(s, lots0[i], day), lots[i], r);
    }
    hide Affected;
    if i :| 0 <= i < |lots| && PretradeGate(o, lots[i]) == r {
      assert PretradeGate(o, Affected(s, lots0[i], day)) == r;
    }
  }

  lemma FlagsStay(s: Scenario, lots0: seq<SellerLot>, lots: seq<SellerLot>, lots': seq<SellerLot>, day: int)
    requires FlaggedFor(s, lots0, lots, day) && GreedyFill.OnlyStock(lots, lots')
    ensures FlaggedFor(s, lots0, lots', day)
  {
    hide Affected;
  }

  lemma NamesAny(a: seq<Event>, b: seq<Event>, c: seq<Event>, r: Reason)
    requires forall e :: e in c ==> e.Unfilled?
    ensures Names(a + (b + c), r) <==> Names(a, r) || Names(b, r)
  {
    var all := a + (b + c);
    assert forall e :: e in all <==> e in a || e in b || e in c;
  }

  lemma Executed(s: Scenario, b: Book, o: BuyerOrder, day: int) returns (last: seq<Event>)
    ensures forall e :: e in last ==> e.Unfilled?
    ensures ExecuteOrder(s, b, o, day).blocked == b.blocked + (BlocksUpTo(o, b.lots, day, |b.lots|) + last)
    ensures GreedyFill.OnlyStock(b.lots, ExecuteOrder(s, b, o, day).lots)
  {
    var f := Filled(s, b, o, day);
    last := if f.remaining > 0 then [Unfilled(day, o.orderId, f.remaining)] else [];
    FillTouches(s, Fill(b.lots, b.trades, o.requested), o, day, EligibleFrom(o, b.lots, 0));
    assert b.blocked + BlocksUpTo(o, b.lots, day, |b.lots|) + last == b.blocked + (BlocksUpTo(o, b.lots, day, |b.lots|) + last);
    hide BlocksUpTo;
    hide EligibleFrom;
    hide FillAll;
    hide GreedyFill.OnlyStock;
  }

  lemma OrderNames(s: Scenario, lots0: seq<SellerLot>, b: Book, o: BuyerOrder, day: int, r: Reason)
    requires Hard(r) && FlaggedFor(s, lots0, b.lots, day)
    ensures var c := ExecuteOrder(s, b, o, day);
            && (Names(c.blocked, r) <==> Names(b.blocked, r) || OrderStopped(s, lots0, o, day, r))
            && FlaggedFor(s, lots0, c.lots, day)
  {
    hide FlaggedFor;
    hide OrderStopped;
    hide Names;
    hide BlocksUpTo;
    hide ExecuteOrder;
    hide PretradeGate;
    hide GreedyFill.OnlyStock;
    var last := Executed(s, b, o, day);
    BlocksName(o, b.lots, day, |b.lots|, r);
    StoppedByFlags(s, lots0, b.lots, o, day, r);
    FlagsStay(s, lots0, b.lots, ExecuteOrder(s, b, o, day).lots, day);
    NamesAny(b.blocked, BlocksUpTo(o, b.lots, day, |b.lots|), last, r);
  }

  lemma {:induction false} OrdersName(s: Scenario, lots0: seq<SellerLot>, b: Book, orders: seq<BuyerOrder>, day: int, r: Reason)
    requires Hard(r) && FlaggedFor(s, lots0, b.lots, day)
    ensures var c := ExecuteAll(s, b, orders, day);
            && (Names(c.blocked, r) <==> Names(b.blocked, r) || DayStopped(s, lots0, orders, day, r))
            && SameOffers(lots0, c.lots)
    decreases |orders|
  {
    hide OrderStopped;
    hide Names;
    hide ExecuteOrder;
    hide Hard;
    if orders == [] {
      assert SameOffers(lots0, b.lots);
    } else {
      hide FlaggedFor;
      OrderNames(s, lots0, b, orders[0], day, r);
      OrdersName(s, lots0, ExecuteOrder(s, b, orders[0], day), orders[1..], day, r);
      DaySplits(s, lots0, orders, day, r);
      hide DayStopped;
    }
  }

  lemma DaySplits(s: Scenario, lots0: seq<SellerLot>, orders: seq<BuyerOrder>, day: int, r: Reason)
    requires orders != []
    ensures DayStopped(s, lots0, orders, day, r) <==> OrderStopped(s, lots0, orders[0], day, r) || DayStopped(s, lots0, orders[1..], day, r)
  {
    hide OrderStopped;
    var rest := orders[1..];
    if DayStopped(s, lots0, rest, day, r) {
      var n :| 0 <= n < |rest| && OrderStopped(s, lots0, rest[n], day, r);
      assert rest[n] == orders[n + 1];
    }
    if DayStopped(s, lots0, orders, day, r) {
      var n :| 0 <= n < |orders| && OrderStopped(s, lots0, orders[n], day, r);
      if n > 0 { assert rest[n - 1] == orders[n]; }
    }
  }

  lemma ScenarioFlags(s: Scenario, lots0: seq<SellerLot>, lots: seq<SellerLot>, day: int)
    requires SameOffers(lots0, lots)
    ensures FlaggedFor(s, lots0, ApplyScenario(s, lots, day), day)
  {
  }

  lemma StoppedLater(s: Scenario, lots0: seq<SellerLot>, days: seq<seq<BuyerOrder>>, day: int, r: Reason)
    requires days != [] && RunStopped(s, lots0, days[1..], day + 1, r)
    ensures RunStopped(s, lots0, days, day, r)
  {
    hide DayStopped;
    var rest := days[1..];
    var d :| 0 <= d < |rest| && DayStopped(s, lots0, rest[d], day + 1 + d, r);
    assert rest[d] == days[d + 1] && day + 1 + d == day + (d + 1);
    assert DayStopped(s, lots0, days[d + 1], day + (d + 1), r);
  }

  lemma StoppedSometime(s: Scenario, lots0: seq<SellerLot>, days: seq<seq<BuyerOrder>>, day: int, r: Reason)
    requires days != [] && RunStopped(s, lots0, days, day, r)
    ensures DayStopped(s, lots0, days[0], day, r) || RunStopped(s, lots0, days[1..], day + 1, r)
  {
    hide DayStopped;
    var rest := days[1..];
    var d :| 0 <= d < |days| && DayStopped(s, lots0, days[d], day + d, r);
    if d > 0 {
      assert rest[d - 1] == days[d] && day + 1 + (d - 1) == day + d;
      assert DayStopped(s, lots0, rest[d - 1], day + 1 + (d - 1), r);
    }
  }

  lemma RunStoppedSplits(s: Scenario, lots0: seq<SellerLot>, days: seq<seq<BuyerOrder>>, day: int, r: Reason)
    requires days != []
    ensures RunStopped(s, lots0, days, day, r) <==> DayStopped(s, lots0, days[0], day, r) || RunStopped(s, lots0, days[1..], day + 1, r)
  {
    if RunStopped(s, lots0, days, day, r) { StoppedSometime(s, lots0, days, day, r); }
    if RunStopped(s, lots0, days[1..], day + 1, r) { StoppedLater(s, lots0, days, day, r); }
    hide DayStopped;
    if DayStopped(s, lots0, days[0], day, r) { assert DayStopped(s, lots0, days[0], day + 0, r); }
  }

  lemma {:induction false} DaysName(s: Scenario, lots0: seq<SellerLot>, b: Book, days: seq<seq<BuyerOrder>>, day: int, r: Reason)
    requires Hard(r) && SameOffers(lots0, b.lots)
    ensures Names(RunFrom(s, b, days, day).blocked, r) <==> Names(b.blocked, r) || RunStopped(s, lots0, days, day, r)
    decreases |days|
  {
    hide DayStopped;
    hide Names;
    hide SameOffers;
    hide FlaggedFor;
    hide ApplyScenario;
    hide ExecuteAll;
    if days != [] {
      ScenarioFlags(s, lots0, b.lots, day);
      OrdersName(s, lots0, b.(lots := ApplyScenario(s, b.lots, day)), days[0], day, r);
      DaysName(s, lots0, RunDay(s, b, days[0], day), days[1..], day + 1, r);
      RunStoppedSplits(s, lots0, days, day, r);
      hide RunStopped;
    }
  }

  /** A blocking scenario passes exactly when, read off the lots and orders it starts from, some
      order meets a lot the scenario has flagged that day and some order can trade. */
  lemma BlockingVerdict(s: Scenario, lots: seq<SellerLot>, days: seq<seq<BuyerOrder>>)
    requires LotIdsDiffer(lots) && NoneNegative(lots) && forall d :: 0 <= d < |days| ==> BuyersDiffer(days[d])
    requires BlockReason(s).Some?
    ensures Passed(Evaluate(s, RunAll(s, lots, days), BLOCKED_BEFORE_TRADE))
            <==> RunCanTrade(s, lots, days, 1) && RunStopped(s, lots, days, 1, BlockReason(s).value)
  {
    PilotVerdict(s, lots, days, BLOCKED_BEFORE_TRADE);
    TradesExactlyWhen(s, lots, days);
    DaysName(s, lots, Book(lots, [], []), days, 1, BlockReason(s).value);
    hide Evaluate;
    hide RunFrom;
    hide RunCanTrade;
    hide RunStopped;
  }

  // ---- a run with no trade ----

  const UNVERIFIED_LOT := SellerLot(LotId(4, 1), 0, 100, 21800, 5, true, true, true, true, 100)

  const LATE_ORDER := BuyerOrder(1, 1, 0, 22000, 10, 10)

  function IdleUntil(day: nat, o: BuyerOrder): seq<seq<BuyerOrder>> {
    seq(day, i => if i == day - 1 then [o] else [])
  }

  /** The one lot is seller 4's and the one order comes on day 15: it is blocked as expected, no
      lot of a blocked day is traded, and the pilot still fails, for want of any trade. */
  lemma BlockedWithoutTradeFails()
    ensures var b := RunAll(SELLER_VERIFICATION_FAILURE, [UNVERIFIED_LOT], IdleUntil(15, LATE_ORDER));
            var c := Evaluate(SELLER_VERIFICATION_FAILURE, b, BLOCKED_BEFORE_TRADE);
            b.trades == [] && c.expectedOutcome && !c.pretradeVerificationRate && !Passed(c)
  {
    var s, lots, days := SELLER_VERIFICATION_FAILURE, [UNVERIFIED_LOT], IdleUntil(15, LATE_ORDER);
    var b := RunAll(s, lots, days);
    TradesExactlyWhen(s, lots, days);
    DaysName(s, lots, Book(lots, [], []), days, 1, SUPPLIER_NOT_VERIFIED);
    assert OrderStopped(s, lots, days[14][0], 15, SUPPLIER_NOT_VERIFIED) by {
      assert PretradeGate(LATE_ORDER, Affected(s, lots[0], 15)) == SUPPLIER_NOT_VERIFIED;
    }
    assert DayStopped(s, lots, days[14], 1 + 14, SUPPLIER_NOT_VERIFIED);
    forall d | 0 <= d < |days| ensures !DayCanTrade(s, lots, days[d], 1 + d) {
      if d == 14 { assert !CanTrade(s, lots[0], LATE_ORDER, 15); }
    }
    hide RunFrom;
    CountsSomeEvent(b.blocked, (e: Event) => BlockedFor(s, e));
  }
}
