/** Requests, from the empty ledger on, after which a completed trade has no record of its own or
    a trade has no reservation: the limits of PriceRecords and TradeBacking are reached. */
module DomainExamples {
  import opened Wrappers
  import opened ReserveLot
  import opened DomainLedger
  import opened DomainInvariant
  import opened PriceRecords
  import opened TradeBacking

  const LOT := "LOT-1"
  const SPEC := "GABA-SPEC-001"
  const OTHER_SPEC := "GABA-SPEC-002"

  const DRAFT := LotDraft(LOT, 1, SPEC, 100, 10, 5, seq(5, i requires 0 <= i < 5 => Document(i, REQUIRED[i], None)), true, true)

  function Approval(i: nat): Request { ReviewEvidence(EvidenceReview(i, true, 9, true, 0)) }

  function Order(id: OrderId): Request {
    SubmitOrder(OrderForm(2, SPEC, 12, 30, 10, false, None, None, id, true, true))
  }

  function Accept(id: nat, key: string): Request {
    AcceptOrder(Acceptance(id, LOT, 1, 30, key, id, id, true, true, true, true, true, 0))
  }

  /** A lot with five approved documents and two orders. */
  const OPENING: seq<Request> :=
    [RegisterLotDraft(DRAFT), Approval(0), Approval(1), Approval(2), Approval(3), Approval(4), Order(1), Order(2)]

  lemma RunOne(requests: seq<Request>, r: Request)
    ensures Run(EMPTY, requests + [r]) == After(Run(EMPTY, requests), r)
  {
    assert (requests + [r])[..|requests + [r]| - 1] == requests;
  }

  // ---- the ledger after each step of the opening ----

  /** The documents, the first n of them approved. */
  function Documents(n: nat): map<EvidenceId, EvidenceRow> {
    map i: nat | i < 5 :: EvidenceRow(LOT, REQUIRED[i], if i < n then VALID else PENDING, None, if i < n then 9 else 0)
  }

  function Stocked(n: nat): Domain {
    EMPTY.(lots := map[LOT := LotRow(1, SPEC, if n == 5 then VERIFIED_ELIGIBLE else PENDING_VERIFICATION, 100, 100, 0, 10, 5)],
           evidences := Documents(n))
  }

  function OrderRowOf(s: OrderState): OrderRow { OrderRow(2, SPEC, s, 12, 30, 10, false, None, None) }

  function Opened(): Domain {
    Stocked(5).(orders := map[1 := OrderRowOf(SUBMITTED), 2 := OrderRowOf(SUBMITTED)])
  }

  lemma {:induction false} FiledFirst(n: nat)
    requires n <= 5
    ensures Filed(map[], LOT, DRAFT.documents[..n])
            == map i: nat | i < n :: EvidenceRow(LOT, REQUIRED[i], PENDING, None, 0)
  {
    if n > 0 {
      assert DRAFT.documents[..n][..n - 1] == DRAFT.documents[..n - 1];
      FiledFirst(n - 1);
    }
  }

  lemma RegisteredIs()
    ensures After(EMPTY, RegisterLotDraft(DRAFT)) == Stocked(0)
  {
    FiledFirst(5);
    assert DRAFT.documents[..5] == DRAFT.documents;
    assert Documents(0) == map i: nat | i < 5 :: EvidenceRow(LOT, REQUIRED[i], PENDING, None, 0);
    hide Filed;
  }

  lemma CompleteWhenAll(n: nat)
    requires n <= 5
    ensures EvidenceComplete(Documents(n), LOT, 0) <==> n == 5
  {
    if n < 5 {
      forall e | e in Documents(n) ensures !CurrentEvidence(Documents(n)[e], LOT, REQUIRED[n], 0) { }
      assert !HasCurrent(Documents(n), LOT, REQUIRED[n], 0);
    } else {
      forall i | 0 <= i < |REQUIRED| ensures HasCurrent(Documents(5), LOT, REQUIRED[i], 0) {
        var e: nat := i;
        assert e in Documents(5) && CurrentEvidence(Documents(5)[e], LOT, REQUIRED[i], 0);
      }
    }
  }

  lemma DocumentApproved(n: nat)
    requires n < 5
    ensures n in Documents(n) && Documents(n)[n] == EvidenceRow(LOT, REQUIRED[n], PENDING, None, 0)
    ensures Documents(n)[n := EvidenceRow(LOT, REQUIRED[n], VALID, None, 9)] == Documents(n + 1)
  {
  }

  lemma ApprovedIs(n: nat)
    requires n < 5
    ensures After(Stocked(n), Approval(n)) == Stocked(n + 1)
  {
    DocumentApproved(n);
    CompleteWhenAll(n + 1);
    hide EvidenceComplete;
    hide Documents;
    assert Stocked(n).evidences == Documents(n);
  }

  lemma {:induction false} StockedIs(n: nat)
    requires n <= 5
    ensures Run(EMPTY, OPENING[..n + 1]) == Stocked(n)
  {
    hide Handle;
    hide Stocked;
    if n == 0 {
      assert OPENING[..1] == [] + [RegisterLotDraft(DRAFT)];
      RunOne([], RegisterLotDraft(DRAFT));
      RegisteredIs();
    } else {
      StockedIs(n - 1);
      assert OPENING[..n + 1] == OPENING[..n] + [Approval(n - 1)];
      RunOne(OPENING[..n], Approval(n - 1));
      ApprovedIs(n - 1);
    }
  }

  lemma OrdersIn()
    ensures After(After(Stocked(5), Order(1)), Order(2)) == Opened()
  {
  }

  lemma OpeningIs()
    ensures Run(EMPTY, OPENING) == Opened()
  {
    StockedIs(5);
    OrdersIn();
    hide Handle;
    hide Stocked;
    hide Opened;
    assert OPENING[..7] == OPENING[..6] + [Order(1)] && OPENING == OPENING[..7] + [Order(2)];
    RunOne(OPENING[..6], Order(1));
    RunOne(OPENING[..7], Order(2));
  }

  // ---- two acceptances ----

  /** Order 1 traded under `key`. */
  function OneTraded(key: string): Domain {
    Opened().(
      lots := map[LOT := LotRow(1, SPEC, VERIFIED_ELIGIBLE, 100, 70, 30, 10, 5)],
      reservations := [ReservationRow(1, 1, LOT, 30, ACTIVE, key)],
      orders := map[1 := OrderRowOf(TRADE_CONFIRMED), 2 := OrderRowOf(SUBMITTED)],
      trades := map[1 := TradeRow(1, LOT, 1, 2, CONFIRMED, 12, 30)],
      tradeByPair := map[(1, LOT) := 1])
  }

  /** Then order 2, under the same key or another. */
  function BothTraded(key: string, other: string): Domain {
    OneTraded(key).(
      lots := if other == key then OneTraded(key).lots else map[LOT := LotRow(1, SPEC, VERIFIED_ELIGIBLE, 100, 40, 60, 10, 5)],
      reservations := OneTraded(key).reservations + if other == key then [] else [ReservationRow(2, 2, LOT, 30, ACTIVE, other)],
      orders := map[1 := OrderRowOf(TRADE_CONFIRMED), 2 := OrderRowOf(TRADE_CONFIRMED)],
      trades := map[1 := TradeRow(1, LOT, 1, 2, CONFIRMED, 12, 30), 2 := TradeRow(2, LOT, 1, 2, CONFIRMED, 12, 30)],
      tradeByPair := map[(1, LOT) := 1, (2, LOT) := 2])
  }

  lemma FirstReserved(key: string)
    ensures var d, e := Opened(), OneTraded(key);
            AfterReserve(d, Call(1, LOT, 30, key, 1)) == d.(lots := e.lots, reservations := e.reservations)
    ensures Reserve(TablesOf(Opened()), Opened().orders.Keys, Call(1, LOT, 30, key, 1)).1 == Returned(1)
  {
    hide Documents;
    var d, c := Opened(), Call(1, LOT, 30, key, 1);
    assert d.reservations + [NewRow(c)] == OneTraded(key).reservations;
    assert d.lots[LOT := Subtracted(d.lots[LOT], 30)] == OneTraded(key).lots;
  }

  lemma SecondReserved(key: string, other: string)
    ensures var d, e := OneTraded(key), BothTraded(key, other);
            AfterReserve(d, Call(2, LOT, 30, other, 2)) == d.(lots := e.lots, reservations := e.reservations)
    ensures Reserve(TablesOf(OneTraded(key)), OneTraded(key).orders.Keys, Call(2, LOT, 30, other, 2)).1.Returned?
  {
    hide Documents;
    var d, c := OneTraded(key), Call(2, LOT, 30, other, 2);
    assert d.reservations[0].key == key;
    assert KeyUsed(d.reservations, other) <==> other == key;
    assert d.lots[LOT := Subtracted(d.lots[LOT], 30)] == map[LOT := LotRow(1, SPEC, VERIFIED_ELIGIBLE, 100, 40, 60, 10, 5)];
  }

  /** An acceptance of these forms whose stock is reserved is traded. */
  lemma Traded(d: Domain, id: nat, key: string)
    requires id in d.orders && d.orders[id] == OrderRowOf(SUBMITTED) && (id, LOT) !in d.tradeByPair && id !in d.trades
    requires LOT in d.lots && d.lots[LOT].supplier == 1 && d.lots[LOT].spec == SPEC && d.lots[LOT].state == VERIFIED_ELIGIBLE
    requires EvidenceComplete(d.evidences, LOT, 0)
    requires Reserve(TablesOf(d), d.orders.Keys, Call(id, LOT, 30, key, id)).1.Returned?
    ensures After(d, Accept(id, key))
            == WithTrade(AfterReserve(d, Call(id, LOT, 30, key, id)), id, TradeRow(id, LOT, 1, 2, CONFIRMED, 12, 30))
  {
    hide EvidenceComplete;
    hide Reserve;
  }

  lemma FirstAccepted(key: string)
    ensures After(Opened(), Accept(1, key)) == OneTraded(key)
  {
    CompleteWhenAll(5);
    FirstReserved(key);
    Traded(Opened(), 1, key);
    hide After;
    hide EvidenceComplete;
    hide Reserve;
    hide Documents;
    hide AfterReserve;
    var d, e := Opened(), OneTraded(key);
    assert d.orders[1 := OrderRowOf(TRADE_CONFIRMED)] == e.orders;
    assert d.trades[1 := TradeRow(1, LOT, 1, 2, CONFIRMED, 12, 30)] == e.trades;
    assert d.tradeByPair[(1, LOT) := 1] == e.tradeByPair;
  }

  lemma SecondAccepted(key: string, other: string)
    ensures After(OneTraded(key), Accept(2, other)) == BothTraded(key, other)
  {
    CompleteWhenAll(5);
    SecondReserved(key, other);
    Traded(OneTraded(key), 2, other);
    hide After;
    hide EvidenceComplete;
    hide Reserve;
    hide Documents;
    hide AfterReserve;
    var d, e := OneTraded(key), BothTraded(key, other);
    assert d.orders[2 := OrderRowOf(TRADE_CONFIRMED)] == e.orders;
    assert d.trades[2 := TradeRow(2, LOT, 1, 2, CONFIRMED, 12, 30)] == e.trades;
    assert d.tradeByPair[(2, LOT) := 2] == e.tradeByPair;
  }

  lemma BothIs(key: string, other: string)
    ensures Run(EMPTY, OPENING + [Accept(1, key), Accept(2, other)]) == BothTraded(key, other)
  {
    OpeningIs();
    FirstAccepted(key);
    SecondAccepted(key, other);
    hide Handle;
    hide BothTraded;
    hide OneTraded;
    hide Opened;
    assert OPENING + [Accept(1, key), Accept(2, other)] == (OPENING + [Accept(1, key)]) + [Accept(2, other)];
    RunOne(OPENING, Accept(1, key));
    RunOne(OPENING + [Accept(1, key)], Accept(2, other));
  }

  /** Two orders accepted under one key: the second is traded, closed by its trade, and no
      reservation row names it; the stock is reserved once.  It stays so in every continuation. */
  lemma ReusedKeyRun(key: string, more: seq<Request>)
    ensures var d := Run(EMPTY, OPENING + [Accept(1, key), Accept(2, key)]);
            && 1 in d.trades && 2 in d.trades && 2 in d.orders && LOT in d.lots
            && d.trades[2].order == 2 && d.orders[2].state == TRADE_CONFIRMED
            && (forall i :: 0 <= i < |d.reservations| ==> d.reservations[i].order != 2)
            && d.lots[LOT].reserved == 30 && d.trades[1].quantity + d.trades[2].quantity == 60
    ensures Stranded(Run(EMPTY, OPENING + [Accept(1, key), Accept(2, key)] + more), 2)
  {
    BothIs(key, key);
    hide Run;
    hide Documents;
    StrandedForGood(OPENING + [Accept(1, key), Accept(2, key)], more, 2);
  }

  // ---- the three ways to complete a trade without its record ----

  const DEALT: seq<Request> := OPENING + [Accept(1, "K1"), Accept(2, "K2")]

  const PLAIN := PriceForm(true, None, None, None, None)

  function Pass(id: TradeId): Inspection { Inspection(id, true, true, true) }

  lemma DealtSays(id: TradeId)
    requires id == 1 || id == 2
    ensures var d := Run(EMPTY, DEALT);
            && d.observations == map[] && id in d.trades && d.trades[id] == TradeRow(id, LOT, 1, 2, CONFIRMED, 12, 30)
            && id in d.orders && d.orders[id].spec == SPEC && Joined(d, id)
  {
    BothIs("K1", "K2");
    assert "K1"[1] != "K2"[1];
    hide Run;
    var rows := BothTraded("K1", "K2").reservations;
    assert |rows| == 2 && rows[0].order == 1 && rows[1].order == 2 && rows[0].lot == LOT && rows[1].lot == LOT;
    assert PairAt(rows, id, LOT) < 2 by { assert rows[id - 1].order == id && rows[id - 1].lot == LOT; }
  }

  /** Either inspection, with a passing verdict, completes a trade that is open. */
  lemma PassCompletes(d: Domain, id: TradeId, p: PriceForm)
    requires Joined(d, id) && d.trades[id].state == CONFIRMED && d.trades[id].price > 0 && d.trades[id].quantity > 0
    requires p.termsMatch && p.price.None? && p.quantity.None?
    ensures Completes(d, InspectTrade(Pass(id)), id) && Completes(d, InspectAndRecord(Pass(id), p), id)
  {
    JudgedKeeps(d, id, true, true);
    hide Inspected;
    hide InspectAgain;
  }

  /** The plain inspection writes no observation. */
  lemma PlainInspectionRun()
    ensures var requests := DEALT + [InspectTrade(Pass(1))];
            var d := Run(EMPTY, requests);
            1 in d.trades && d.trades[1].state == COMPLETED && !HasRecord(d, 1)
  {
    DealtSays(1);
    RunOne(DEALT, InspectTrade(Pass(1)));
    hide Run;
    PassCompletes(Run(EMPTY, DEALT), 1, PLAIN);
    CompletionLeavesRecord(DEALT, InspectTrade(Pass(1)), 1);
  }

  /** The combined inspection writes the spec it is given, not the order's. */
  lemma ForeignSpecRun()
    ensures var requests := DEALT + [InspectAndRecord(Pass(1), PLAIN.(spec := Some(OTHER_SPEC)))];
            var d := Run(EMPTY, requests);
            1 in d.trades && d.trades[1].state == COMPLETED && !HasRecord(d, 1)
  {
    var r := InspectAndRecord(Pass(1), PLAIN.(spec := Some(OTHER_SPEC)));
    DealtSays(1);
    RunOne(DEALT, r);
    hide Run;
    assert SPEC[12] != OTHER_SPEC[12];
    PassCompletes(Run(EMPTY, DEALT), 1, PLAIN.(spec := Some(OTHER_SPEC)));
    CompletionLeavesRecord(DEALT, r, 1);
  }

  /** Trade 1 is recorded once more, under trade 2's id. */
  const BORROWED := RecordPrice(PriceRecord(1, SPEC, 12, 30, true, true, Some(OfTrade(2))))

  lemma BorrowingSays()
    ensures var d := Run(EMPTY, DEALT + [InspectAndRecord(Pass(1), PLAIN), BORROWED]);
            && OfTrade(2) in d.observations && d.observations[OfTrade(2)].trade == 1
            && Joined(d, 2) && d.trades[2] == TradeRow(2, LOT, 1, 2, CONFIRMED, 12, 30) && d.orders[2].spec == SPEC
  {
    DealtSays(1);
    DealtSays(2);
    var r := InspectAndRecord(Pass(1), PLAIN);
    var d := Run(EMPTY, DEALT);
    RunOne(DEALT, r);
    RunOne(DEALT + [r], BORROWED);
    assert DEALT + [r, BORROWED] == (DEALT + [r]) + [BORROWED];
    hide Run;
    PassCompletes(d, 1, PLAIN);
    CombinedMoves(d, Pass(1), PLAIN);
    PairAtWithState(d.reservations, ReservationOf(d, 1), CONSUMED, 2, LOT);
    InspectedRows(d, 1);
    BorrowedIsRecorded(After(d, r));
  }

  lemma InspectedRows(d: Domain, id: TradeId)
    requires Joined(d, id) && d.trades[id].state == CONFIRMED && d.trades[id].price > 0 && d.trades[id].quantity > 0
    ensures var d' := After(d, InspectAndRecord(Pass(id), PLAIN));
            d'.reservations == d.reservations[ReservationOf(d, id) := d.reservations[ReservationOf(d, id)].(state := CONSUMED)]
  {
    hide InspectAgain;
  }

  lemma BorrowedIsRecorded(d: Domain)
    requires 1 in d.trades && d.trades[1].order in d.orders && d.trades[1].state == COMPLETED
    requires d.trades[1].price == 12 && d.trades[1].quantity == 30 && d.orders[d.trades[1].order].spec == SPEC
    requires OfTrade(2) !in d.observations
    ensures var d' := After(d, BORROWED);
            d' == d.(observations := d'.observations) && OfTrade(2) in d'.observations && d'.observations[OfTrade(2)].trade == 1
  {
  }

  /** So trade 2, inspected with nothing but defaults, completes without a record, and its
      retries are refused. */
  lemma BorrowedIdRun()
    ensures var requests := DEALT + [InspectAndRecord(Pass(1), PLAIN), BORROWED] + [InspectAndRecord(Pass(2), PLAIN)];
            var d := Run(EMPTY, requests);
            && 2 in d.trades && d.trades[2].state == COMPLETED && !HasRecord(d, 2)
            && Handle(d, InspectAndRecord(Pass(2), PLAIN)) == Refused(PRICE_OBSERVATION_MISSING)
  {
    var pre, r := DEALT + [InspectAndRecord(Pass(1), PLAIN), BORROWED], InspectAndRecord(Pass(2), PLAIN);
    var d := Run(EMPTY, pre);
    BorrowingSays();
    RunOne(pre, r);
    hide Run;
    PassCompletes(d, 2, PLAIN);
    CompletionLeavesRecord(pre, r, 2);
    CombinedMoves(d, Pass(2), PLAIN);
    RetryIsRefused(d);
  }

  lemma PassIsFiled(d: Domain, id: TradeId)
    requires Joined(d, id) && d.trades[id].state == CONFIRMED && d.trades[id].price > 0 && d.trades[id].quantity > 0
    ensures var d' := After(d, InspectAndRecord(Pass(id), PLAIN));
            id in d'.inspections && d'.inspections[id].specMatch && d'.inspections[id].qualityPass
  {
    hide InspectAgain;
  }

  /** A retry that finds another trade's observation under the default id. */
  lemma RetryFindsAnother(d: Domain, id: TradeId)
    requires Joined(d, id) && d.trades[id].state == COMPLETED && d.trades[id].price > 0 && d.trades[id].quantity > 0
    requires id in d.inspections && d.inspections[id].specMatch && d.inspections[id].qualityPass
    requires OfTrade(id) in d.observations && d.observations[OfTrade(id)].trade != id
    ensures InspectAndRecordStep(d, Pass(id), PLAIN) == Refused(PRICE_OBSERVATION_MISSING)
  {
    hide Inspected;
  }

  lemma RetryIsRefused(d: Domain)
    requires Joined(d, 2) && d.trades[2].state == CONFIRMED && d.trades[2].price > 0 && d.trades[2].quantity > 0
    requires OfTrade(2) in d.observations && d.observations[OfTrade(2)].trade != 2
    ensures var d' := After(d, InspectAndRecord(Pass(2), PLAIN));
            InspectAndRecordStep(d', Pass(2), PLAIN) == Refused(PRICE_OBSERVATION_MISSING)
  {
    var d', t := After(d, InspectAndRecord(Pass(2), PLAIN)), d.trades[2];
    PassCompletes(d, 2, PLAIN);
    CombinedMoves(d, Pass(2), PLAIN);
    InspectedRows(d, 2);
    PassIsFiled(d, 2);
    PairAtWithState(d.reservations, ReservationOf(d, 2), CONSUMED, t.order, t.lot);
    hide After;
    hide Handle;
    hide InspectAndRecordStep;
    RetryFindsAnother(d', 2);
  }
}
