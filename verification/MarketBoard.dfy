/** The public board of beta-app/market-board.mjs, and which orders it says the engine would take. */
module MarketBoard {
  import opened Texts
  import opened Wrappers
  import opened InventoryLedger
  import TE = TradeEngine
  import EngineInvariant
  import SnapshotIntegrity
  import SpecAnswers

  predicate IsServerEligibleOffer(lot: Lot, specId: Text, now: Instant) {
    && lot.specId == specId && lot.status == VERIFIED_ELIGIBLE && lot.available > 0 && lot.askPrice > 0
    && EvidenceComplete(lot.evidence) && lot.evidence.expiresAt.Some? && lot.evidence.expiresAt.value >= now
    && lot.terms == CANONICAL
  }

  datatype Offer = Offer(lotId: Text, supplier: Text, specId: Text, available: int, askPrice: int, deliveryDays: int,
                         expiresAt: Instant)

  function PublicOffer(lot: Lot): Offer {
    Offer(lot.lotId, lot.supplier, lot.specId, lot.available, lot.askPrice, lot.deliveryDays,
          if lot.evidence.expiresAt.Some? then lot.evidence.expiresAt.value else 0)
  }

  function Offers(lots: seq<Lot>, specId: Text, now: Instant): seq<Offer> {
    if lots == [] then []
    else (if IsServerEligibleOffer(lots[0], specId, now) then [PublicOffer(lots[0])] else []) + Offers(lots[1..], specId, now)
  }

  /** The collation of the locale: a strict total order on texts. */
  type Collation = (Text, Text) -> bool

  ghost predicate Orders(c: Collation) {
    && (forall a, b :: a == b || c(a, b) || c(b, a)) && (forall a, b :: c(a, b) ==> a != b && !c(b, a))
    && (forall a, b, d :: c(a, b) && c(b, d) ==> c(a, d))
  }

  /** (ask, delivery days, lot id), strictly less. */
  predicate Cheaper(c: Collation, a: Offer, b: Offer) {
    a.askPrice < b.askPrice
    || (a.askPrice == b.askPrice
        && (a.deliveryDays < b.deliveryDays || (a.deliveryDays == b.deliveryDays && c(a.lotId, b.lotId))))
  }

  function InsertOffer(c: Collation, o: Offer, asks: seq<Offer>): (r: seq<Offer>)
    ensures multiset(r) == multiset{o} + multiset(asks)
  {
    if asks == [] || !Cheaper(c, asks[0], o) then [o] + asks
    else
      assert asks == [asks[0]] + asks[1..];
      [asks[0]] + InsertOffer(c, o, asks[1..])
  }

  function SortOffers(c: Collation, offers: seq<Offer>): (r: seq<Offer>)
    ensures multiset(r) == multiset(offers)
  {
    if offers == [] then []
    else
      assert offers == [offers[0]] + offers[1..];
      InsertOffer(c, offers[0], SortOffers(c, offers[1..]))
  }

  function Stock(offers: seq<Offer>): int {
    if offers == [] then 0 else offers[0].available + Stock(offers[1..])
  }

  datatype Board = Board(asks: seq<Offer>, verifiedInventoryQty: int, bestAsk: Option<int>)

  function BuildMarketBoard(c: Collation, lots: seq<Lot>, specId: Text, now: Instant): Board {
    var asks := SortOffers(c, Offers(lots, specId, now));
    Board(asks, Stock(asks), if asks == [] then None else Some(asks[0].askPrice))
  }

  // ---- the asks: sorted, complete, summed ----

  predicate Sorted(c: Collation, asks: seq<Offer>) {
    forall i, j :: 0 <= i < j < |asks| ==> !Cheaper(c, asks[j], asks[i])
  }

  lemma NotCheaperIsTransitive(c: Collation, a: Offer, b: Offer, d: Offer)
    requires Orders(c) && !Cheaper(c, b, a) && !Cheaper(c, d, b)
    ensures !Cheaper(c, d, a)
  {
  }

  lemma CheaperIsStrict(c: Collation, a: Offer, b: Offer)
    requires Orders(c) && Cheaper(c, a, b)
    ensures !Cheaper(c, b, a)
  {
  }

  lemma {:induction false} InsertSorts(c: Collation, o: Offer, asks: seq<Offer>)
    requires Orders(c) && Sorted(c, asks)
    ensures Sorted(c, InsertOffer(c, o, asks))
  {
    if asks != [] {
      if !Cheaper(c, asks[0], o) {
        forall j | 0 <= j < |asks| ensures !Cheaper(c, asks[j], o) {
          if j > 0 { NotCheaperIsTransitive(c, o, asks[0], asks[j]); }
        }
      } else {
        InsertSorts(c, o, asks[1..]);
        var rest := InsertOffer(c, o, asks[1..]);
        CheaperIsStrict(c, asks[0], o);
        forall j | 0 <= j < |rest| ensures !Cheaper(c, rest[j], asks[0]) {
          assert rest[j] in multiset(rest);
          assert rest[j] == o || rest[j] in asks[1..];
        }
      }
    }
  }

  lemma {:induction false} SortSorts(c: Collation, offers: seq<Offer>)
    requires Orders(c)
    ensures Sorted(c, SortOffers(c, offers))
  {
    if offers != [] {
      SortSorts(c, offers[1..]);
      InsertSorts(c, offers[0], SortOffers(c, offers[1..]));
    }
  }

  lemma {:induction false} StockOfInsert(c: Collation, o: Offer, asks: seq<Offer>)
    ensures Stock(InsertOffer(c, o, asks)) == o.available + Stock(asks)
  {
    if asks == [] || !Cheaper(c, asks[0], o) {
      assert ([o] + asks)[1..] == asks;
    } else {
      StockOfInsert(c, o, asks[1..]);
      assert InsertOffer(c, o, asks)[1..] == InsertOffer(c, o, asks[1..]);
    }
  }

  lemma {:induction false} StockOfSort(c: Collation, offers: seq<Offer>)
    ensures Stock(SortOffers(c, offers)) == Stock(offers)
  {
    if offers != [] {
      StockOfSort(c, offers[1..]);
      StockOfInsert(c, offers[0], SortOffers(c, offers[1..]));
    }
  }

  lemma {:induction false} OffersAre(lots: seq<Lot>, specId: Text, now: Instant)
    ensures forall o :: o in Offers(lots, specId, now)
              <==> exists i :: 0 <= i < |lots| && IsServerEligibleOffer(lots[i], specId, now) && o == PublicOffer(lots[i])
  {
    hide IsServerEligibleOffer;
    if lots != [] {
      OffersAre(lots[1..], specId, now);
      var rest := lots[1..];
      forall o ensures o in Offers(lots, specId, now)
                       <==> exists i :: 0 <= i < |lots| && IsServerEligibleOffer(lots[i], specId, now) && o == PublicOffer(lots[i])
      {
        if o in Offers(rest, specId, now) {
          var i :| 0 <= i < |rest| && IsServerEligibleOffer(rest[i], specId, now) && o == PublicOffer(rest[i]);
          assert lots[i + 1] == rest[i];
        }
        if exists i :: 0 <= i < |lots| && IsServerEligibleOffer(lots[i], specId, now) && o == PublicOffer(lots[i]) {
          var i :| 0 <= i < |lots| && IsServerEligibleOffer(lots[i], specId, now) && o == PublicOffer(lots[i]);
          assert i > 0 ==> rest[i - 1] == lots[i];
        }
      }
    }
  }

  lemma AsksAre(c: Collation, lots: seq<Lot>, specId: Text, now: Instant)
    ensures forall o :: o in BuildMarketBoard(c, lots, specId, now).asks
              <==> exists i :: 0 <= i < |lots| && IsServerEligibleOffer(lots[i], specId, now) && o == PublicOffer(lots[i])
  {
    OffersAre(lots, specId, now);
    var offers := Offers(lots, specId, now);
    forall o ensures o in SortOffers(c, offers) <==> o in offers {
      assert o in SortOffers(c, offers) <==> o in multiset(SortOffers(c, offers));
    }
  }

  /** What is reported is what is listed: asks in order, the first the best, their stock summed
      over the eligible lots. */
  lemma BoardIsOrdered(c: Collation, lots: seq<Lot>, specId: Text, now: Instant)
    requires Orders(c)
    ensures var b := BuildMarketBoard(c, lots, specId, now);
            && Sorted(c, b.asks) && b.verifiedInventoryQty == Stock(Offers(lots, specId, now))
            && (b.bestAsk.None? <==> b.asks == [])
            && forall o :: o in b.asks ==> b.bestAsk.Some? && b.bestAsk.value <= o.askPrice
  {
    SortSorts(c, Offers(lots, specId, now));
    StockOfSort(c, Offers(lots, specId, now));
    var asks := BuildMarketBoard(c, lots, specId, now).asks;
    forall o | o in asks ensures asks != [] && asks[0].askPrice <= o.askPrice {
      var i :| 0 <= i < |asks| && asks[i] == o;
      if i > 0 { assert !Cheaper(c, asks[i], asks[0]); }
    }
  }

  // ---- agreement with the engine's gate ----

  function CanonicalNeed(specId: Text, quantity: int, days: int): Need {
    Need(specId, quantity, days, TE.NO_TERMS)
  }

  lemma DefaultsAreCanonical()
    ensures Filled(TE.NO_TERMS) == CANONICAL
  {
  }

  /** For a lot with an id and a price, being eligible for the board is passing the engine's gate
      for every positive quantity up to its stock and every allowance from its own delivery days. */
  lemma GatesAgree(lot: Lot, specId: Text, now: Instant)
    requires lot.lotId != [] && lot.askPrice > 0
    ensures IsServerEligibleOffer(lot, specId, now) ==>
              forall q, days :: 0 < q <= lot.available && days >= lot.deliveryDays ==>
                AllPass(VerifyLot(lot, CanonicalNeed(specId, q, days), now))
    ensures (exists q, days :: q > 0 && AllPass(VerifyLot(lot, CanonicalNeed(specId, q, days), now)))
            <==> IsServerEligibleOffer(lot, specId, now)
  {
    DefaultsAreCanonical();
    if IsServerEligibleOffer(lot, specId, now) {
      assert AllPass(VerifyLot(lot, CanonicalNeed(specId, 1, lot.deliveryDays), now));
    }
  }

  lemma OfferNamesLot(lots: seq<Lot>, i: nat, j: nat)
    requires LotIdsDiffer(lots) && i < |lots| && j < |lots| && PublicOffer(lots[i]) == PublicOffer(lots[j])
    ensures i == j
  {
  }

  /** In every state the engine can reach, a lot is on the board exactly when it passes the lot
      gate for some positive quantity on canonical terms, and then the best ask is no dearer. */
  lemma BoardListsWhatPasses(hash: SnapshotIntegrity.Hash, events: seq<EngineInvariant.Event>, c: Collation,
                            specId: Text, now: Instant, i: nat)
    requires Orders(c) && i < |EngineInvariant.Run(hash, EngineInvariant.START, events).engine.inventory.lots|
    ensures var lots := EngineInvariant.Run(hash, EngineInvariant.START, events).engine.inventory.lots;
            var b := BuildMarketBoard(c, lots, specId, now);
            && (PublicOffer(lots[i]) in b.asks
                <==> exists q, days :: q > 0 && Qualifies(lots[i], CanonicalNeed(specId, q, days), None, now))
            && (PublicOffer(lots[i]) in b.asks ==> b.bestAsk.Some? && b.bestAsk.value <= lots[i].askPrice)
  {
    var e := EngineInvariant.Run(hash, EngineInvariant.START, events).engine;
    var lots := e.inventory.lots;
    LotsAreFine(hash, events);
    hide EngineInvariant.Run;
    assert EngineInvariant.LotFine(lots[i]);
    AsksAre(c, lots, specId, now);
    BoardIsOrdered(c, lots, specId, now);
    GatesAgree(lots[i], specId, now);
    hide IsServerEligibleOffer;
    hide BuildMarketBoard;
    hide VerifyLot;
    forall j | 0 <= j < |lots| && PublicOffer(lots[j]) == PublicOffer(lots[i]) ensures j == i {
      OfferNamesLot(lots, i, j);
    }
    assert forall q, days :: Qualifies(lots[i], CanonicalNeed(specId, q, days), None, now)
                             <==> AllPass(VerifyLot(lots[i], CanonicalNeed(specId, q, days), now));
  }

  lemma LotsAreFine(hash: SnapshotIntegrity.Hash, events: seq<EngineInvariant.Event>)
    ensures EngineInvariant.LotsFine(EngineInvariant.Run(hash, EngineInvariant.START, events).engine.inventory.lots)
  {
    hide EngineInvariant.LotsFine;
    hide EngineInvariant.Run;
    EngineInvariant.LedgerInvariant(hash, events);
  }

  // ---- which orders the engine takes, read off the board ----

  /** The engine takes this order of q at price p. */
  predicate Takes(e: TE.Engine, f: TE.SubmitForm, q: int, p: int, now: Instant) {
    f.common.quantity == Some(q) && f.common.price == Some(p) && f.now == now && TE.SubmitRefusal(e, f) == None
  }

  predicate Covers(o: Offer, q: int, p: int) {
    o.available >= q && o.askPrice <= p
  }

  /** A plain order for the lot: its own delivery days, the approved answers, no deadline. */
  function OrderFor(lot: Lot, q: int, p: int, now: Instant): TE.SubmitForm {
    TE.SubmitForm([], TE.Common(TE.GABA_SPEC_ID, CANONICAL, Some(p), Some(q), Some(SpecAnswers.AnswersOf(SpecAnswers.APPROVED))),
                  Some(lot.deliveryDays), [], [], TE.Never, now)
  }

  lemma OrderForIsValid(lot: Lot, q: int, p: int, now: Instant)
    requires 20 <= q <= 1200 && p >= 1
    ensures TE.CommonRefusal(OrderFor(lot, q, p, now).common) == None
  {
    SpecAnswers.ApprovedAnswersItself();
    EngineInvariant.FilledAgain();
    hide SpecAnswers.AnswerRefusal;
    hide SpecAnswers.AnswersOf;
  }

  lemma TakenFromBoard(e: TE.Engine, f: TE.SubmitForm, q: int, p: int, now: Instant) returns (i: nat)
    requires EngineInvariant.LotsFine(e.inventory.lots) && Takes(e, f, q, p, now)
    ensures 20 <= q <= 1200 && i < |e.inventory.lots|
    ensures IsServerEligibleOffer(e.inventory.lots[i], TE.GABA_SPEC_ID, now) && Covers(PublicOffer(e.inventory.lots[i]), q, p)
  {
    i := TE.Candidate(e, f).value;
    var lot, need := e.inventory.lots[i], TE.SubmitNeed(f);
    assert EngineInvariant.LotFine(lot);
    assert Qualifies(lot, need, Some(p), now);
    assert need == CanonicalNeed(TE.GABA_SPEC_ID, q, need.deliveryDays);
    hide SpecAnswers.AnswerRefusal;
    hide TE.Candidate;
    GatesAgree(lot, TE.GABA_SPEC_ID, now);
    hide IsServerEligibleOffer;
  }

  lemma BoardIsTaken(e: TE.Engine, q: int, p: int, now: Instant, i: nat)
    requires EngineInvariant.LotsFine(e.inventory.lots) && i < |e.inventory.lots| && 20 <= q <= 1200
    requires IsServerEligibleOffer(e.inventory.lots[i], TE.GABA_SPEC_ID, now) && Covers(PublicOffer(e.inventory.lots[i]), q, p)
    ensures Takes(e, OrderFor(e.inventory.lots[i], q, p, now), q, p, now)
  {
    var lot := e.inventory.lots[i];
    var f := OrderFor(lot, q, p, now);
    assert EngineInvariant.LotFine(lot);
    OrderForIsValid(lot, q, p, now);
    GatesAgree(lot, TE.GABA_SPEC_ID, now);
    hide IsServerEligibleOffer;
    hide TE.CommonRefusal;
    assert TE.SubmitNeed(f) == CanonicalNeed(TE.GABA_SPEC_ID, q, lot.deliveryDays);
    assert Qualifies(lot, TE.SubmitNeed(f), f.common.price, now);
  }

  /** In every reachable state: some order of q at price p is taken now exactly when q is in the
      engine's 20..1200 and an ask of the board covers it. */
  lemma BoardShowsWhatSells(hash: SnapshotIntegrity.Hash, events: seq<EngineInvariant.Event>, c: Collation, q: int, p: int, now: Instant)
    ensures var e := EngineInvariant.Run(hash, EngineInvariant.START, events).engine;
            (exists f :: Takes(e, f, q, p, now))
            <==> 20 <= q <= 1200 && exists o :: o in BuildMarketBoard(c, e.inventory.lots, TE.GABA_SPEC_ID, now).asks && Covers(o, q, p)
  {
    var e := EngineInvariant.Run(hash, EngineInvariant.START, events).engine;
    LotsAreFine(hash, events);
    AsksAre(c, e.inventory.lots, TE.GABA_SPEC_ID, now);
    hide EngineInvariant.Run;
    hide EngineInvariant.LotsFine;
    hide IsServerEligibleOffer;
    hide BuildMarketBoard;
    hide Takes;
    hide Covers;
    if f :| Takes(e, f, q, p, now) {
      var i := TakenFromBoard(e, f, q, p, now);
    }
    if 20 <= q <= 1200 {
      if o :| o in BuildMarketBoard(c, e.inventory.lots, TE.GABA_SPEC_ID, now).asks && Covers(o, q, p) {
        var i: nat :| i < |e.inventory.lots| && IsServerEligibleOffer(e.inventory.lots[i], TE.GABA_SPEC_ID, now)
                      && o == PublicOffer(e.inventory.lots[i]);
        BoardIsTaken(e, q, p, now, i);
      }
    }
  }

  // ---- a lot listed that no order can buy ----

  const LARGE: TE.SubmitForm := OrderFor(TE.INITIAL_LOT, 1190, 21800, 0)

  /** The whole order, on its candidate lot. */
  const TAKING: TE.AcceptForm := TE.AcceptForm([], TE.OrderId(1), [], [], [], TE.WholeOrder, [], 0)

  const LEFTOVER: Lot := TE.INITIAL_LOT.(available := 10, reserved := 1190)

  lemma LargeIsCandidate()
    ensures TE.SubmitRefusal(TE.INITIAL, LARGE) == None && TE.Candidate(TE.INITIAL, LARGE) == Some(0)
  {
    OrderForIsValid(TE.INITIAL_LOT, 1190, 21800, 0);
    EngineInvariant.FilledAgain();
    hide TE.CommonRefusal;
    assert TE.INITIAL_LOT.lotId[0] == 71;
    assert Qualifies(TE.INITIAL.inventory.lots[0], TE.SubmitNeed(LARGE), Some(21800), 0);
  }

  /** What acceptance needs to know of the order just submitted. */
  predicate LargeOrder(e: TE.Engine) {
    && e.inventory == TE.INITIAL.inventory && TE.OrderId(1) in e.orders
    && var o := e.orders[TE.OrderId(1)];
       && o.orderId == TE.OrderId(1) && o.specId == TE.GABA_SPEC_ID && o.terms == CANONICAL && o.quantity == 1190 && o.deliveryDays == 10
       && o.candidateLotId == TE.INITIAL_LOT.lotId && o.expiresAt == TE.Never && o.status == TE.SUBMITTED
  }

  lemma LargeIsOrdered()
    ensures LargeOrder(TE.Submit(TE.INITIAL, LARGE).engine)
  {
    LargeIsCandidate();
    EngineInvariant.NewOrderIsFine(TE.INITIAL, LARGE);
    assert TE.INITIAL.orderSequence + 1 == 1;
    hide TE.CommonRefusal;
    hide TE.Candidate;
    hide TE.OrderId;
    hide SpecAnswers.AnswersOf;
    hide SpecAnswers.Normalized;
    hide EngineInvariant.OrderFine;
  }

  lemma LargeIsReserved(e: TE.Engine)
    requires LargeOrder(e)
    ensures TE.Acceptable(e, TAKING) && TE.Reserved(e, TAKING).Ok? && TE.Reserved(e, TAKING).value.lots == [LEFTOVER]
  {
    EngineInvariant.FilledAgain();
    assert TE.INITIAL_LOT.lotId[0] == 71 && TE.OrderId(1)[0] == 79;
    assert LotAt([TE.INITIAL_LOT], TE.INITIAL_LOT.lotId) == 0;
    hide TE.OrderId;
    hide LotAt;
    assert AllPass(VerifyLot(TE.INITIAL_LOT, Need(TE.GABA_SPEC_ID, 1190, 10, CANONICAL), 0));
    assert [TE.INITIAL_LOT][0 := Taken(TE.INITIAL_LOT, 1190)] == [LEFTOVER];
  }

  lemma LargeStarts(hash: SnapshotIntegrity.Hash, e: TE.Engine)
    requires EngineInvariant.Good(hash, e) && LargeOrder(e)
    ensures TE.AcceptStart(e, TAKING) == None
  {
    EngineInvariant.GoodOrders(hash, e);
    EngineInvariant.FineAt(e.orders, TE.OrderId(1));
    hide EngineInvariant.Good;
    hide EngineInvariant.OrdersFine;
    hide TE.CommonRefusal;
    hide TE.OrderId;
  }

  /** An acceptance that reserves leaves the inventory the reservation leaves. */
  lemma TakesStock(hash: SnapshotIntegrity.Hash, e: TE.Engine, f: TE.AcceptForm)
    requires !TE.Replays(e, f.key) && TE.AcceptStart(e, f) == None && TE.Refreshed(e, f) == e
    requires TE.Acceptable(e, f) && TE.Reserved(e, f).Ok?
    ensures TE.Accept(hash, e, f).engine.inventory == TE.Reserved(e, f).value
  {
    hide TE.Refreshed;
    hide TE.AcceptStart;
    hide TE.Reserved;
    hide TE.LateRefusal;
    hide TE.NewTrade;
    hide TE.KeyOf;
    hide TE.QuantityOf;
  }

  lemma LargeIsTaken(hash: SnapshotIntegrity.Hash, e: TE.Engine)
    requires EngineInvariant.Good(hash, e) && LargeOrder(e)
    ensures TE.Accept(hash, e, TAKING).engine.inventory.lots == [LEFTOVER]
  {
    LargeIsReserved(e);
    LargeStarts(hash, e);
    EngineInvariant.RefreshIsIdentity(hash, e, TAKING);
    TakesStock(hash, e, TAKING);
    hide EngineInvariant.Good;
    hide LargeOrder;
    hide TE.Refreshed;
    hide TE.AcceptStart;
    hide TE.Reserved;
    hide TE.LateRefusal;
    hide TE.OrderId;
    hide TE.Accept;
  }

  const SELLING_OUT: seq<EngineInvariant.Event> :=
    [EngineInvariant.Doing(TE.Submitting(LARGE)), EngineInvariant.Doing(TE.Accepting(TAKING))]

  lemma RunOfTwo(hash: SnapshotIntegrity.Hash, a: TE.Step, b: TE.Step)
    ensures EngineInvariant.Run(hash, EngineInvariant.START, [EngineInvariant.Doing(a), EngineInvariant.Doing(b)]).engine
            == TE.Perform(hash, TE.Perform(hash, TE.INITIAL, a).engine, b).engine
  {
    hide TE.Perform;
    var events := [EngineInvariant.Doing(a), EngineInvariant.Doing(b)];
    assert events[1..] == [EngineInvariant.Doing(b)] && events[1..][1..] == [];
    var h := EngineInvariant.Next(hash, EngineInvariant.START, events[0]);
    var last := EngineInvariant.Next(hash, h, events[1..][0]);
    assert EngineInvariant.Run(hash, last, events[1..][1..]) == last;
  }

  lemma SoldOutIs(hash: SnapshotIntegrity.Hash)
    ensures EngineInvariant.Run(hash, EngineInvariant.START, SELLING_OUT).engine.inventory.lots == [LEFTOVER]
  {
    EngineInvariant.InitialIsGood(hash);
    EngineInvariant.SubmitKeeps(hash, TE.INITIAL, LARGE);
    hide EngineInvariant.Good;
    LargeIsOrdered();
    LargeIsTaken(hash, TE.Submit(TE.INITIAL, LARGE).engine);
    RunOfTwo(hash, TE.Submitting(LARGE), TE.Accepting(TAKING));
    hide EngineInvariant.Run;
    hide LargeOrder;
    hide TE.Submit;
    hide TE.Accept;
  }

  /** One order of 1190 leaves 10 of the initial lot: they stay on the board, and no order at all
      is taken any more. */
  lemma LeftoverIsListedButUnsold(hash: SnapshotIntegrity.Hash, c: Collation, now: Instant)
    requires now <= 1_816_992_000_000
    ensures var e := EngineInvariant.Run(hash, EngineInvariant.START, SELLING_OUT).engine;
            && (exists o :: o in BuildMarketBoard(c, e.inventory.lots, TE.GABA_SPEC_ID, now).asks && o.available == 10)
            && forall f :: TE.SubmitRefusal(e, f) != None
  {
    var e := EngineInvariant.Run(hash, EngineInvariant.START, SELLING_OUT).engine;
    SoldOutIs(hash);
    LotsAreFine(hash, SELLING_OUT);
    hide EngineInvariant.Run;
    AsksAre(c, e.inventory.lots, TE.GABA_SPEC_ID, now);
    assert IsServerEligibleOffer(e.inventory.lots[0], TE.GABA_SPEC_ID, now) && PublicOffer(e.inventory.lots[0]).available == 10;
    hide BuildMarketBoard;
    hide EngineInvariant.LotsFine;
    forall f ensures TE.SubmitRefusal(e, f) != None { NoneFits(e, f); }
  }

  lemma NoneFits(e: TE.Engine, f: TE.SubmitForm)
    requires e.inventory.lots == [LEFTOVER]
    ensures TE.SubmitRefusal(e, f) != None
  {
    hide TE.CommonRefusal;
  }
}
