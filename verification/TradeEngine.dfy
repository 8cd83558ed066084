/** The in-memory trade ledger of beta-app/trade-engine.mjs: what each operation does to the
    engine's maps and counters, and the class that does it. */
module TradeEngine {
  import opened Texts
  import opened Wrappers
  import opened InventoryLedger
  import opened SnapshotIntegrity
  import opened SpecAnswers
  import Gate = Evidence

  datatype OrderStatus = SUBMITTED | TRADED | PARTLY_TRADED | COUNTERED | REJECTED | LAPSED

  /** An order's `expiresAt`: absent, a date, or text that is no date. */
  datatype Deadline = Never | At(at: Instant) | Garbled

  datatype Counter = Counter(specId: Text, specAttributes: Spec, price: int, quantity: int, deliveryDays: int, lotId: Text)

  datatype Order = Order(
    orderId: Text, buyerId: Text, specId: Text, terms: Terms, specAttributes: Spec, price: int, quantity: int,
    deliveryDate: Text, deliveryDays: int, candidateLotId: Text, expiresAt: Deadline, status: OrderStatus, accepted: Option<int>,
    tradeId: Option<Text>, counterOffer: Option<Counter>)

  datatype Snapshot = Snapshot(inventory: Inventory, orders: map<Text, Order>, trades: map<Text, Trade>)

  datatype Response = Response(order: Order, trade: Option<Trade>, snapshot: Snapshot)

  datatype Engine = Engine(inventory: Inventory, orders: map<Text, Order>, trades: map<Text, Trade>,
                           idempotency: map<Text, Response>, orderSequence: nat, tradeSequence: nat)

  datatype EngineCode =
    | OfInventory(code: Code)
    | OfSpec(reason: SpecCode)
    | PRETRADE_EVIDENCE_REQUIRED | SPEC_NOT_CONFIRMED | TRADE_TERMS_MISMATCH | INVALID_PRICE | INVENTORY_LIMIT
    | NO_ELIGIBLE_OFFER | TRADE_NOT_FOUND | TRADE_SNAPSHOT_TAMPERED | NOT_DELIVERABLE | NOT_INSPECTABLE
    | ORDER_NOT_FOUND | ORDER_ALREADY_PROCESSED | ORDER_EXPIRED | ORDER_NOT_EXPIRED | NO_SUCH_LOT
    | SUPPLIER_NOT_AUTHORIZED | SUPPLIER_ORGANIZATION_NOT_AUTHORIZED | INVALID_ACCEPTED_QUANTITY
    | NO_ELIGIBLE_COUNTER_OFFER

  datatype Reply =
    | OfOrder(response: Response)
    | OfTrade(trade: Trade, state: Snapshot)
    | OfLot(lot: Lot, state: Snapshot)
    | Thrown(code: EngineCode)

  datatype Outcome = Outcome(engine: Engine, reply: Reply)

  // ---- requests ----

  /** A number that is not finite, a quantity that is not an integer, and answers that are not an
      object are missing. */
  datatype Common = Common(specId: Text, terms: Terms, price: Option<int>, quantity: Option<int>, answers: Option<Answers>)

  datatype SubmitForm = SubmitForm(key: Text, common: Common, deliveryDays: Option<int>, buyerId: Text, deliveryDate: Text,
                                   expiresAt: Deadline, now: Instant)

  datatype Share = WholeOrder | Part(quantity: int) | NotInteger

  datatype AcceptForm = AcceptForm(key: Text, orderId: Text, lotId: Text, supplierId: Text, supplierOrganizationId: Text,
                                   share: Share, confirmedAt: Text, now: Instant)

  /** A field of the counter-offer replaces the order's when it is given. */
  datatype Replacement = Unchanged | Replaced(number: Option<int>)

  datatype NewAnswers = SameAnswers | Given(answers: Option<Answers>)

  datatype CounterForm = CounterForm(key: Text, orderId: Text, supplierId: Text, supplierOrganizationId: Text, specId: Text,
                                     terms: Terms, price: Replacement, quantity: Replacement, answers: NewAnswers,
                                     deliveryDays: Option<int>, now: Instant)

  datatype RegisterForm = RegisterForm(lotId: Text, supplier: Text, supplierId: Text, supplierOrganizationId: Text,
                                       specId: Text, askPrice: Option<int>, terms: Terms, available: Option<int>,
                                       deliveryDays: Option<int>, evidence: seq<Gate.Record>, now: Instant)

  datatype Step =
    | Submitting(submission: SubmitForm)
    | Accepting(acceptance: AcceptForm)
    | Countering(counter: CounterForm)
    | Rejecting(rejectKey: Text, rejectedId: Text, supplierId: Text)
    | Expiring(expiredId: Text, now: Instant)
    | Delivering(deliveredId: Text)
    | Inspecting(inspectedId: Text, specMatch: bool, qualityPass: bool)
    | Registering(form: RegisterForm)

  // ---- constants and ids ----

  const GABA_SPEC_ID: Text := Lit("GABA-SPEC-001")

  const ORDER_PREFIX: Text := Lit("ORDER-")
  const TRADE_PREFIX: Text := Lit("TRADE-")
  const PARTIAL: Text := Lit(":PARTIAL:")

  function OrderId(n: nat): Text { ORDER_PREFIX + PadZero(Decimal(n), 5) }

  function TradeId(n: nat): Text { TRADE_PREFIX + PadZero(Decimal(n), 5) }

  const INITIAL_LOT: Lot :=
    Lot(Lit("GBA-KR-2407"), Lit("한빛바이오"), Lit("SIM-SUPPLIER-001"), Lit("SIM-SUPPLIER-ORG"), GABA_SPEC_ID, 21800, CANONICAL,
        1200, 0, VERIFIED_ELIGIBLE, InventoryLedger.Evidence(VALID, VALID, VALID, VALID, VALID, Some(1_816_992_000_000)), 10)

  const INITIAL: Engine := Engine(Inventory([INITIAL_LOT], map[], map[]), map[], map[], map[], 0, 0)

  // ---- shared checks ----

  function CommonRefusal(c: Common): (r: Option<EngineCode>)
    ensures r == None ==> c.price.Some? && c.quantity.Some? && 20 <= c.quantity.value <= 1200 && c.answers.Some?
  {
    if c.specId != GABA_SPEC_ID then Some(SPEC_NOT_CONFIRMED)
    else if Filled(c.terms) != CANONICAL then Some(TRADE_TERMS_MISMATCH)
    else if c.price.None? || c.price.value < 1 then Some(INVALID_PRICE)
    else if c.quantity.None? || c.quantity.value < 20 || c.quantity.value > 1200 then Some(INVENTORY_LIMIT)
    else
      var refused := AnswerRefusal(c.answers);
      if refused.Some? then Some(OfSpec(refused.value)) else None
  }

  function RestatedOrder(o: Order): Common {
    Common(o.specId, o.terms, Some(o.price), Some(o.quantity), Some(AnswersOf(o.specAttributes)))
  }

  /** Both given, and different. */
  predicate Differs(given: Text, actual: Text) {
    given != [] && actual != [] && given != actual
  }

  function SnapshotOf(e: Engine): Snapshot {
    Snapshot(e.inventory, e.orders, e.trades)
  }

  predicate Replays(e: Engine, key: Text) {
    key != [] && key in e.idempotency
  }

  /** The answer about an order, kept under its idempotency key if it has one. */
  function Answered(e: Engine, key: Text, order: Order, trade: Option<Trade>): Outcome {
    var response := Response(order, trade, SnapshotOf(e));
    Outcome(if key != [] then e.(idempotency := e.idempotency[key := response]) else e, OfOrder(response))
  }

  const NO_TERMS: Terms := Terms([], [], [])

  // ---- orders ----

  function SubmitNeed(f: SubmitForm): Need
    requires CommonRefusal(f.common) == None
  {
    Need(f.common.specId, f.common.quantity.value, if f.deliveryDays.Some? then f.deliveryDays.value else 14, NO_TERMS)
  }

  function Candidate(e: Engine, f: SubmitForm): (i: Option<nat>)
    requires CommonRefusal(f.common) == None
    ensures i.Some? ==> i.value < |e.inventory.lots|
  {
    FindEligible(e.inventory.lots, SubmitNeed(f), f.common.price, f.now)
  }

  function SubmitRefusal(e: Engine, f: SubmitForm): Option<EngineCode> {
    var refused := CommonRefusal(f.common);
    if refused.Some? then refused else if Candidate(e, f).None? then Some(NO_ELIGIBLE_OFFER) else None
  }

  function NewOrder(e: Engine, f: SubmitForm): Order
    requires SubmitRefusal(e, f) == None
  {
    Order(OrderId(e.orderSequence + 1), if f.buyerId == [] then Lit("SIM-BUYER-001") else f.buyerId, f.common.specId, CANONICAL,
          Normalized(f.common.answers.value), f.common.price.value, f.common.quantity.value, f.deliveryDate, SubmitNeed(f).deliveryDays,
          e.inventory.lots[Candidate(e, f).value].lotId, f.expiresAt, SUBMITTED, None, None, None)
  }

  function Submitted(e: Engine, f: SubmitForm): Outcome
    requires SubmitRefusal(e, f) == None
  {
    var order := NewOrder(e, f);
    Answered(e.(orderSequence := e.orderSequence + 1, orders := e.orders[order.orderId := order]), f.key, order, None)
  }

  function Submit(e: Engine, f: SubmitForm): Outcome {
    if Replays(e, f.key) then Outcome(e, OfOrder(e.idempotency[f.key]))
    else
      var refused := SubmitRefusal(e, f);
      if refused.Some? then Outcome(e, Thrown(refused.value)) else Submitted(e, f)
  }

  function ChangeOrder(e: Engine, key: Text, order: Order): Outcome {
    Answered(e.(orders := e.orders[order.orderId := order]), key, order, None)
  }

  function CounterCommon(o: Order, f: CounterForm): Common {
    Common(Default(f.specId, o.specId),
           Terms(Default(f.terms.currency, o.terms.currency), Default(f.terms.priceUnit, o.terms.priceUnit),
                 Default(f.terms.quantityUnit, o.terms.quantityUnit)),
           if f.price.Replaced? then f.price.number else Some(o.price),
           if f.quantity.Replaced? then f.quantity.number else Some(o.quantity),
           if f.answers.Given? then f.answers.answers else Some(AnswersOf(o.specAttributes)))
  }

  function CounterDays(o: Order, f: CounterForm): int {
    if f.deliveryDays.Some? then f.deliveryDays.value else o.deliveryDays
  }

  function CounterLot(e: Engine, o: Order, f: CounterForm): (i: Option<nat>)
    requires CommonRefusal(CounterCommon(o, f)) == None
    ensures i.Some? ==> i.value < |e.inventory.lots|
  {
    var c := CounterCommon(o, f);
    FindEligible(e.inventory.lots, Need(c.specId, c.quantity.value, CounterDays(o, f), NO_TERMS), None, f.now)
  }

  function LotOf(e: Engine, id: Text): (i: nat)
    ensures i <= |e.inventory.lots|
  {
    LotAt(e.inventory.lots, id)
  }

  function CounterRefusal(e: Engine, f: CounterForm): Option<EngineCode> {
    if f.orderId !in e.orders then Some(ORDER_NOT_FOUND)
    else
      var o, i := e.orders[f.orderId], LotOf(e, e.orders[f.orderId].candidateLotId);
      if o.status != SUBMITTED then Some(ORDER_ALREADY_PROCESSED)
      else if i < |e.inventory.lots| && Differs(f.supplierId, e.inventory.lots[i].supplierId) then Some(SUPPLIER_NOT_AUTHORIZED)
      else if i < |e.inventory.lots| && Differs(f.supplierOrganizationId, e.inventory.lots[i].supplierOrganizationId)
      then Some(SUPPLIER_ORGANIZATION_NOT_AUTHORIZED)
      else
        var refused := CommonRefusal(CounterCommon(o, f));
        if refused.Some? then refused else if CounterLot(e, o, f).None? then Some(NO_ELIGIBLE_COUNTER_OFFER) else None
  }

  function Countered(e: Engine, f: CounterForm): Order
    requires CounterRefusal(e, f) == None
  {
    var o := e.orders[f.orderId];
    var c := CounterCommon(o, f);
    var offer := Counter(c.specId, Normalized(c.answers.value), c.price.value, c.quantity.value, CounterDays(o, f),
                         e.inventory.lots[CounterLot(e, o, f).value].lotId);
    o.(status := COUNTERED, counterOffer := Some(offer))
  }

  function CounterOffer(e: Engine, f: CounterForm): Outcome {
    if Replays(e, f.key) then Outcome(e, OfOrder(e.idempotency[f.key]))
    else
      var refused := CounterRefusal(e, f);
      if refused.Some? then Outcome(e, Thrown(refused.value)) else ChangeOrder(e, f.key, Countered(e, f))
  }

  predicate Open(o: Order) {
    o.status == SUBMITTED || o.status == COUNTERED
  }

  function RejectRefusal(e: Engine, id: Text, supplierId: Text): Option<EngineCode> {
    if id !in e.orders then Some(ORDER_NOT_FOUND)
    else if !Open(e.orders[id]) then Some(ORDER_ALREADY_PROCESSED)
    else
      var i := LotOf(e, e.orders[id].candidateLotId);
      if i < |e.inventory.lots| && Differs(supplierId, e.inventory.lots[i].supplierId) then Some(SUPPLIER_NOT_AUTHORIZED) else None
  }

  function Reject(e: Engine, key: Text, id: Text, supplierId: Text): Outcome {
    if Replays(e, key) then Outcome(e, OfOrder(e.idempotency[key]))
    else
      var refused := RejectRefusal(e, id, supplierId);
      if refused.Some? then Outcome(e, Thrown(refused.value)) else ChangeOrder(e, key, e.orders[id].(status := REJECTED))
  }

  /** A garbled date never reads as still ahead, so such an order counts as expired here. */
  predicate StillAhead(d: Deadline, now: Instant) {
    d.Never? || (d.At? && d.at > now)
  }

  function ExpireRefusal(e: Engine, id: Text, now: Instant): Option<EngineCode> {
    if id !in e.orders then Some(ORDER_NOT_FOUND)
    else if StillAhead(e.orders[id].expiresAt, now) then Some(ORDER_NOT_EXPIRED)
    else if !Open(e.orders[id]) then Some(ORDER_ALREADY_PROCESSED)
    else None
  }

  function Expire(e: Engine, id: Text, now: Instant): Outcome {
    var refused := ExpireRefusal(e, id, now);
    if refused.Some? then Outcome(e, Thrown(refused.value)) else ChangeOrder(e, [], e.orders[id].(status := LAPSED))
  }

  // ---- trades ----

  function AcceptedQuantity(o: Order, share: Share): Option<int> {
    match share
    case WholeOrder => Some(o.quantity)
    case Part(q) => if q < 20 || q > o.quantity then None else Some(q)
    case NotInteger => None
  }

  predicate TermsAgree(lot: Terms, order: Terms) {
    Default(lot.currency, order.currency) == order.currency && Default(lot.priceUnit, order.priceUnit) == order.priceUnit
    && Default(lot.quantityUnit, order.quantityUnit) == order.quantityUnit
  }

  /** What is checked before the order's answers are written back. */
  function AcceptStart(e: Engine, f: AcceptForm): (r: Option<EngineCode>)
    ensures r == None ==> f.orderId in e.orders
  {
    if f.orderId !in e.orders then Some(ORDER_NOT_FOUND)
    else if e.orders[f.orderId].status != SUBMITTED then Some(ORDER_ALREADY_PROCESSED)
    else CommonRefusal(RestatedOrder(e.orders[f.orderId]))
  }

  /** `order.specAttributes = validatedOrder.specAttributes`, written while the call can still throw. */
  function Refreshed(e: Engine, f: AcceptForm): Engine
    requires f.orderId in e.orders
  {
    var o := e.orders[f.orderId];
    e.(orders := e.orders[f.orderId := o.(specAttributes := Normalized(AnswersOf(o.specAttributes)))])
  }

  /** What is checked after that. */
  function LateRefusal(e: Engine, f: AcceptForm): (r: Option<EngineCode>)
    requires f.orderId in e.orders
    ensures r == None ==>
      && AcceptedQuantity(e.orders[f.orderId], f.share).Some?
      && LotOf(e, Default(f.lotId, e.orders[f.orderId].candidateLotId)) < |e.inventory.lots|
  {
    var o := e.orders[f.orderId];
    var i := LotOf(e, Default(f.lotId, o.candidateLotId));
    if o.expiresAt.At? && o.expiresAt.at <= f.now then Some(ORDER_EXPIRED)
    else if i == |e.inventory.lots| then Some(NO_SUCH_LOT)
    else if Differs(f.supplierId, e.inventory.lots[i].supplierId) then Some(SUPPLIER_NOT_AUTHORIZED)
    else if Differs(f.supplierOrganizationId, e.inventory.lots[i].supplierOrganizationId)
    then Some(SUPPLIER_ORGANIZATION_NOT_AUTHORIZED)
    else if !TermsAgree(e.inventory.lots[i].terms, Filled(o.terms)) then Some(TRADE_TERMS_MISMATCH)
    else if AcceptedQuantity(o, f.share).None? then Some(INVALID_ACCEPTED_QUANTITY)
    else None
  }

  /** Whether the acceptance gets as far as reserving stock. */
  predicate Acceptable(e: Engine, f: AcceptForm) {
    f.orderId in e.orders && LateRefusal(e, f) == None
  }

  function QuantityOf(e: Engine, f: AcceptForm): int
    requires Acceptable(e, f)
  {
    AcceptedQuantity(e.orders[f.orderId], f.share).value
  }

  function Natural(q: int): nat { if q < 0 then 0 else q }

  function KeyOf(e: Engine, f: AcceptForm): Text
    requires Acceptable(e, f)
  {
    var o := e.orders[f.orderId];
    var q := QuantityOf(e, f);
    if q == o.quantity then o.orderId else o.orderId + PARTIAL + Decimal(Natural(q))
  }

  function Reserved(e: Engine, f: AcceptForm): (r: Result<Inventory>)
    requires Acceptable(e, f)
    ensures r.Ok? ==> KeyOf(e, f) in r.value.reservations
  {
    var o, q := e.orders[f.orderId], QuantityOf(e, f);
    Reserve(e.inventory, Default(f.lotId, o.candidateLotId), Some(q), KeyOf(e, f), Need(o.specId, q, o.deliveryDays, o.terms), f.now)
  }

  /** The lot `reserve` hands back: that of the reservation. */
  function StockLeft(v: Inventory, lotId: Text): int {
    var i := LotAt(v.lots, lotId);
    if i < |v.lots| then v.lots[i].available else 0
  }

  function TradeFor(number: nat, o: Order, lot: Lot, q: int, r: Reservation, left: int, confirmedAt: Text): Trade {
    Trade(TradeId(number), o.orderId, o.buyerId, lot.supplier, lot.supplierId, lot.supplierOrganizationId,
          o.specId, Filled(o.terms), o.specAttributes, LotSnapshot(lot.lotId, lot.supplier, q, left), lot.evidence,
          o.price, q, o.deliveryDate, r.checks, r.reservationId, confirmedAt, CONFIRMED, None, [])
  }

  function DraftTrade(e: Engine, f: AcceptForm, r: Reservation, left: int): Trade
    requires Acceptable(e, f)
  {
    var o := e.orders[f.orderId];
    TradeFor(e.tradeSequence + 1, o, e.inventory.lots[LotOf(e, Default(f.lotId, o.candidateLotId))], QuantityOf(e, f), r, left, f.confirmedAt)
  }

  function NewTrade(hash: Hash, e: Engine, f: AcceptForm, v: Inventory): Trade
    requires Acceptable(e, f) && KeyOf(e, f) in v.reservations
  {
    var r := v.reservations[KeyOf(e, f)];
    Seal(hash, DraftTrade(e, f, r, StockLeft(v, r.lotId)))
  }

  function Accepted(hash: Hash, e: Engine, f: AcceptForm, v: Inventory): Outcome
    requires Acceptable(e, f) && KeyOf(e, f) in v.reservations
  {
    var o, q, trade := e.orders[f.orderId], QuantityOf(e, f), NewTrade(hash, e, f, v);
    var order := o.(status := if q == o.quantity then TRADED else PARTLY_TRADED, accepted := Some(q), tradeId := Some(trade.tradeId));
    Answered(e.(inventory := v, tradeSequence := e.tradeSequence + 1, orders := e.orders[f.orderId := order],
                trades := e.trades[trade.tradeId := trade]), f.key, order, Some(trade))
  }

  function Accept(hash: Hash, e: Engine, f: AcceptForm): Outcome {
    if Replays(e, f.key) then Outcome(e, OfOrder(e.idempotency[f.key]))
    else
      var refused := AcceptStart(e, f);
      if refused.Some? then Outcome(e, Thrown(refused.value)) else Settle(hash, Refreshed(e, f), f)
  }

  /** The rest of an acceptance, once the answers are written back. */
  function Settle(hash: Hash, e: Engine, f: AcceptForm): Outcome
    requires f.orderId in e.orders
  {
    var refused := LateRefusal(e, f);
    if refused.Some? then Outcome(e, Thrown(refused.value))
    else
      var r := Reserved(e, f);
      if r.Err? then Outcome(e, Thrown(OfInventory(r.code))) else Accepted(hash, e, f, r.value)
  }

  function ChangeTrade(e: Engine, trade: Trade, v: Inventory): Outcome {
    var after := e.(inventory := v, trades := e.trades[trade.tradeId := trade]);
    Outcome(after, OfTrade(trade, SnapshotOf(after)))
  }

  function TradeRefusal(hash: Hash, e: Engine, id: Text, statuses: set<TradeStatus>, wrong: EngineCode): Option<EngineCode> {
    if id !in e.trades then Some(TRADE_NOT_FOUND)
    else if !Verify(hash, e.trades[id]) then Some(TRADE_SNAPSHOT_TAMPERED)
    else if e.trades[id].status !in statuses then Some(wrong)
    else None
  }

  function Deliver(hash: Hash, e: Engine, id: Text): Outcome {
    var refused := TradeRefusal(hash, e, id, {CONFIRMED}, NOT_DELIVERABLE);
    if refused.Some? then Outcome(e, Thrown(refused.value))
    else
      var r := MarkDelivered(e.inventory, e.trades[id].reservationId);
      if r.Err? then Outcome(e, Thrown(OfInventory(r.code))) else ChangeTrade(e, e.trades[id].(status := SENT), r.value)
  }

  function InspectionOf(key: Text, specMatch: bool, qualityPass: bool): Inspection {
    Inspection(key, specMatch, qualityPass, if specMatch && qualityPass then PASSED else FAILED)
  }

  function Examine(hash: Hash, e: Engine, id: Text, specMatch: bool, qualityPass: bool): Outcome {
    var refused := TradeRefusal(hash, e, id, {CONFIRMED, SENT}, NOT_INSPECTABLE);
    if refused.Some? then Outcome(e, Thrown(refused.value))
    else
      var key := e.trades[id].reservationId;
      var r := Inspect(e.inventory, key, specMatch, qualityPass);
      if r.Err? then Outcome(e, Thrown(OfInventory(r.code)))
      else
        var found := InspectionOf(e.inventory.reservations[key].reservationId, specMatch, qualityPass);
        ChangeTrade(e, e.trades[id].(status := if found.status == PASSED then FULFILLED else CONTESTED, inspection := Some(found)), r.value)
  }

  // ---- lots ----

  ghost function Register(e: Engine, f: RegisterForm): Outcome {
    if !Gate.Admits(f.evidence, f.lotId, f.now) then Outcome(e, Thrown(PRETRADE_EVIDENCE_REQUIRED))
    else if Filled(f.terms) != CANONICAL then Outcome(e, Thrown(TRADE_TERMS_MISMATCH))
    else
      Gate.AdmittedIsDated(f.evidence, f.lotId, f.now);
      var r := RegisterLot(e.inventory, NewLot(f));
      if r.Err? then Outcome(e, Thrown(OfInventory(r.code)))
      else
        var after := e.(inventory := r.value);
        Outcome(after, OfLot(r.value.lots[|r.value.lots| - 1], SnapshotOf(after)))
  }

  function NewLot(f: RegisterForm): LotForm
    requires exists i :: 0 <= i < |f.evidence| && Gate.Dated(f.evidence[i])
  {
    LotForm(f.lotId, f.supplier, f.supplierId, f.supplierOrganizationId, f.specId, f.askPrice, CANONICAL, f.available, Some(0),
            VERIFIED_ELIGIBLE,
            InventoryLedger.Evidence(VALID, VALID, VALID, VALID, VALID, Some(Gate.LotExpiry(f.evidence))), f.deliveryDays)
  }

  ghost function Perform(hash: Hash, e: Engine, step: Step): Outcome {
    match step
    case Submitting(f) => Submit(e, f)
    case Accepting(f) => Accept(hash, e, f)
    case Countering(f) => CounterOffer(e, f)
    case Rejecting(key, id, supplierId) => Reject(e, key, id, supplierId)
    case Expiring(id, now) => Expire(e, id, now)
    case Delivering(id) => Deliver(hash, e, id)
    case Inspecting(id, specMatch, qualityPass) => Examine(hash, e, id, specMatch, qualityPass)
    case Registering(f) => Register(e, f)
  }

  // ---- restore ----

  /** The number an id ends with. */
  function Suffix(id: Text): nat { Value(DigitTail(id)) }

  ghost function LargestSuffix(ids: set<Text>): (n: nat)
    ensures forall id :: id in ids ==> Suffix(id) <= n
    ensures n == 0 || exists id :: id in ids && Suffix(id) == n
  {
    if ids == {} then 0
    else
      var id :| id in ids;
      var rest := LargestSuffix(ids - {id});
      if Suffix(id) > rest then Suffix(id) else rest
  }

  function Refilled(lots: seq<Lot>): seq<Lot> {
    seq(|lots|, i requires 0 <= i < |lots| => lots[i].(terms := Filled(lots[i].terms)))
  }

  ghost function Restore(s: Snapshot): Engine {
    Engine(s.inventory.(lots := Refilled(s.inventory.lots)), s.orders, s.trades, map[],
           LargestSuffix(s.orders.Keys), LargestSuffix(s.trades.Keys))
  }

  lemma AcceptedInFull(hash: Hash, e: Engine, f: AcceptForm, v: Inventory, trade: Trade)
    requires Acceptable(e, f) && KeyOf(e, f) in v.reservations
    requires trade == DraftTrade(e, f, v.reservations[KeyOf(e, f)], StockLeft(v, v.reservations[KeyOf(e, f)].lotId))
    ensures var o, q, t := e.orders[f.orderId], QuantityOf(e, f), Seal(hash, trade);
            var order := o.(status := if q == o.quantity then TRADED else PARTLY_TRADED, accepted := Some(q), tradeId := Some(trade.tradeId));
            Accepted(hash, e, f, v)
            == Answered(e.(inventory := v, tradeSequence := e.tradeSequence + 1, orders := e.orders[f.orderId := order],
                           trades := e.trades[trade.tradeId := t]), f.key, order, Some(t))
  {
    hide LateRefusal;
    hide KeyOf;
    hide QuantityOf;
    hide DraftTrade;
    hide HashSnapshot;
    hide Answered;
  }

  // ---- the class ----

  class TradeEngine {
    const hash: Hash
    const inventory: EvidenceLockedInventory
    var orders: map<Text, Order>
    var trades: map<Text, Trade>
    var idempotency: map<Text, Response>
    var orderSequence: nat
    var tradeSequence: nat

    constructor (digest: Hash)
      ensures fresh(inventory) && hash == digest && State() == INITIAL
    {
      hash := digest;
      inventory := new EvidenceLockedInventory();
      orders, trades, idempotency, orderSequence, tradeSequence := map[], map[], map[], 0, 0;
      new;
      var l := INITIAL_LOT;
      var refused := inventory.Register(LotForm(l.lotId, l.supplier, l.supplierId, l.supplierOrganizationId, l.specId,
                                                Some(l.askPrice), l.terms, Some(l.available), Some(l.reserved), l.status,
                                                l.evidence, Some(l.deliveryDays)));
      assert Lit("GBA-KR-2407")[0] == 71;
    }

    function State(): Engine
      reads this, inventory
    {
      Engine(inventory.State(), orders, trades, idempotency, orderSequence, tradeSequence)
    }

    /** Builds the answer about an order and keeps it under its key. */
    method Answer(key: Text, order: Order, trade: Option<Trade>) returns (reply: Reply)
      modifies this
      ensures Outcome(State(), reply) == Answered(old(State()), key, order, trade)
    {
      var response := Response(order, trade, SnapshotOf(State()));
      if key != [] { idempotency := idempotency[key := response]; }
      reply := OfOrder(response);
    }

    method SubmitOrder(f: SubmitForm) returns (reply: Reply)
      modifies this
      ensures Outcome(State(), reply) == Submit(old(State()), f)
    {
      hide Normalized;
      hide AnswerRefusal;
      hide Filled;
      hide OrderId;
      hide Answered;
      hide Qualifies;
      if f.key != [] && f.key in idempotency { return OfOrder(idempotency[f.key]); }
      var refused := CommonRefusal(f.common);
      if refused.Some? { return Thrown(refused.value); }
      var need := SubmitNeed(f);
      var found := FindEligible(inventory.lots, need, f.common.price, f.now);
      if found.None? { return Thrown(NO_ELIGIBLE_OFFER); }
      orderSequence := orderSequence + 1;
      var id := OrderId(orderSequence);
      var order := Order(id, if f.buyerId == [] then Lit("SIM-BUYER-001") else f.buyerId, f.common.specId, CANONICAL,
                         Normalized(f.common.answers.value), f.common.price.value, f.common.quantity.value, f.deliveryDate, need.deliveryDays,
                         inventory.lots[found.value].lotId, f.expiresAt, SUBMITTED, None, None, None);
      orders := orders[id := order];
      reply := Answer(f.key, order, None);
    }

    /** Seals a trade and files it with its order. */
    method FileTrade(key: Text, id: Text, order: Order, trade: Trade) returns (reply: Reply)
      modifies this
      ensures var t, e := Seal(hash, trade), old(State());
              Outcome(State(), reply)
              == Answered(e.(tradeSequence := e.tradeSequence + 1, orders := e.orders[id := order],
                             trades := e.trades[trade.tradeId := t]), key, order, Some(t))
    {
      hide HashSnapshot;
      tradeSequence := tradeSequence + 1;
      orders := orders[id := order];
      trades := trades[trade.tradeId := trade];
      var sealedTrade := Seal(hash, trade);
      trades := trades[trade.tradeId := sealedTrade];
      assert trades == old(trades)[trade.tradeId := sealedTrade];
      reply := Answer(key, order, Some(sealedTrade));
    }

    /** Takes the stock under the reservation id of the order. */
    method HoldStock(f: AcceptForm) returns (failed: Option<Code>)
      requires Acceptable(State(), f)
      modifies inventory
      ensures var r := Reserved(old(State()), f);
              if r.Ok? then failed == None && State() == old(State()).(inventory := r.value)
              else failed == Some(r.code) && State() == old(State())
    {
      hide LateRefusal;
      hide Reserve;
      var order := orders[f.orderId];
      var q := AcceptedQuantity(order, f.share).value;
      var key := if q == order.quantity then order.orderId else order.orderId + PARTIAL + Decimal(Natural(q));
      failed := inventory.Hold(Default(f.lotId, order.candidateLotId), Some(q), key, Need(order.specId, q, order.deliveryDays, order.terms), f.now);
    }

    method AcceptOrder(f: AcceptForm) returns (reply: Reply)
      modifies this, inventory
      ensures Outcome(State(), reply) == Accept(hash, old(State()), f)
    {
      hide CommonRefusal;
      hide LateRefusal;
      hide Reserved;
      hide Seal;
      hide NewTrade;
      hide Answered;
      hide Accepted;
      hide KeyOf;
      hide LotAt;
      hide TradeFor;
      hide StockLeft;
      hide Normalized;
      hide AnswersOf;
      if f.key != [] && f.key in idempotency { return OfOrder(idempotency[f.key]); }
      var refused := AcceptStart(State(), f);
      if refused.Some? { return Thrown(refused.value); }
      var order := orders[f.orderId];
      order := order.(specAttributes := Normalized(AnswersOf(order.specAttributes)));
      orders := orders[f.orderId := order];
      ghost var e := State();
      refused := LateRefusal(State(), f);
      if refused.Some? { return Thrown(refused.value); }
      var lot := inventory.lots[LotAt(inventory.lots, Default(f.lotId, order.candidateLotId))];
      var q := AcceptedQuantity(order, f.share).value;
      var key := KeyOf(State(), f);
      var failed := HoldStock(f);
      if failed.Some? { return Thrown(OfInventory(failed.value)); }
      var r := inventory.reservations[key];
      var trade := TradeFor(tradeSequence + 1, order, lot, q, r, StockLeft(inventory.State(), r.lotId), f.confirmedAt);
      AcceptedInFull(hash, e, f, inventory.State(), trade);
      order := order.(status := if q == order.quantity then TRADED else PARTLY_TRADED, accepted := Some(q), tradeId := Some(trade.tradeId));
      reply := FileTrade(f.key, f.orderId, order, trade);
    }

    method CounterOrder(f: CounterForm) returns (reply: Reply)
      modifies this
      ensures Outcome(State(), reply) == CounterOffer(old(State()), f)
    {
      hide Normalized;
      hide AnswerRefusal;
      hide AnswersOf;
      hide Answered;
      hide Qualifies;
      if f.key != [] && f.key in idempotency { return OfOrder(idempotency[f.key]); }
      var refused := CounterRefusal(State(), f);
      if refused.Some? { return Thrown(refused.value); }
      var order := orders[f.orderId];
      var c := CounterCommon(order, f);
      var offer := Counter(c.specId, Normalized(c.answers.value), c.price.value, c.quantity.value, CounterDays(order, f),
                           inventory.lots[CounterLot(State(), order, f).value].lotId);
      order := order.(status := COUNTERED);
      order := order.(counterOffer := Some(offer));
      orders := orders[order.orderId := order];
      reply := Answer(f.key, order, None);
    }

    method RejectOrder(key: Text, id: Text, supplierId: Text) returns (reply: Reply)
      modifies this
      ensures Outcome(State(), reply) == Reject(old(State()), key, id, supplierId)
    {
      if key != [] && key in idempotency { return OfOrder(idempotency[key]); }
      var refused := RejectRefusal(State(), id, supplierId);
      if refused.Some? { return Thrown(refused.value); }
      var order := orders[id].(status := REJECTED);
      orders := orders[order.orderId := order];
      reply := Answer(key, order, None);
    }

    method ExpireOrder(id: Text, now: Instant) returns (reply: Reply)
      modifies this
      ensures Outcome(State(), reply) == Expire(old(State()), id, now)
    {
      if id !in orders { return Thrown(ORDER_NOT_FOUND); }
      if StillAhead(orders[id].expiresAt, now) { return Thrown(ORDER_NOT_EXPIRED); }
      if !Open(orders[id]) { return Thrown(ORDER_ALREADY_PROCESSED); }
      var order := orders[id].(status := LAPSED);
      orders := orders[order.orderId := order];
      reply := Answer([], order, None);
    }

    method MarkTradeDelivered(id: Text) returns (reply: Reply)
      modifies this, inventory
      ensures Outcome(State(), reply) == Deliver(hash, old(State()), id)
    {
      hide Verify;
      if id !in trades { return Thrown(TRADE_NOT_FOUND); }
      var trade := trades[id];
      if !Verify(hash, trade) { return Thrown(TRADE_SNAPSHOT_TAMPERED); }
      if trade.status != CONFIRMED { return Thrown(NOT_DELIVERABLE); }
      var failed := inventory.Deliver(trade.reservationId);
      if failed.Some? { return Thrown(OfInventory(failed.value)); }
      trade := trade.(status := SENT);
      trades := trades[trade.tradeId := trade];
      reply := OfTrade(trade, SnapshotOf(State()));
    }

    method InspectTrade(id: Text, specMatch: bool, qualityPass: bool) returns (reply: Reply)
      modifies this, inventory
      ensures Outcome(State(), reply) == Examine(hash, old(State()), id, specMatch, qualityPass)
    {
      hide Verify;
      if id !in trades { return Thrown(TRADE_NOT_FOUND); }
      var trade := trades[id];
      if !Verify(hash, trade) { return Thrown(TRADE_SNAPSHOT_TAMPERED); }
      if trade.status != CONFIRMED && trade.status != SENT { return Thrown(NOT_INSPECTABLE); }
      var failed := inventory.Examine(trade.reservationId, specMatch, qualityPass);
      if failed.Some? { return Thrown(OfInventory(failed.value)); }
      var found := inventory.inspections[inventory.reservations[trade.reservationId].reservationId];
      trade := trade.(status := if found.status == PASSED then FULFILLED else CONTESTED);
      trade := trade.(inspection := Some(found));
      trades := trades[trade.tradeId := trade];
      reply := OfTrade(trade, SnapshotOf(State()));
    }

    method RegisterVerifiedLot(f: RegisterForm) returns (reply: Reply)
      modifies inventory
      ensures Outcome(State(), reply) == Register(old(State()), f)
    {
      var verdict := Gate.VerifyEvidenceBundle(f.lotId, f.evidence, f.now);
      if !verdict.eligible { return Thrown(PRETRADE_EVIDENCE_REQUIRED); }
      Gate.AdmittedIsDated(f.evidence, f.lotId, f.now);
      if Filled(f.terms) != CANONICAL { return Thrown(TRADE_TERMS_MISMATCH); }
      var failed := inventory.Register(NewLot(f));
      if failed.Some? { return Thrown(OfInventory(failed.value)); }
      reply := OfLot(inventory.lots[|inventory.lots| - 1], SnapshotOf(State()));
    }

    method RestoreFrom(s: Snapshot)
      modifies this, inventory
      ensures State() == Restore(s)
    {
      hide LargestSuffix;
      hide Filled;
      inventory.lots := Refilled(s.inventory.lots);
      inventory.reservations, inventory.inspections := s.inventory.reservations, s.inventory.inspections;
      orders, trades, idempotency := s.orders, s.trades, map[];
      orderSequence := MaxSuffix(orders.Keys);
      tradeSequence := MaxSuffix(trades.Keys);
    }
  }

  /** Math.max(0, ...suffixes). */
  method MaxSuffix(ids: set<Text>) returns (n: nat)
    ensures n == LargestSuffix(ids)
  {
    hide Suffix;
    n := 0;
    var rest := ids;
    while rest != {}
      invariant rest <= ids
      invariant forall id :: id in ids && id !in rest ==> Suffix(id) <= n
      invariant n == 0 || exists id :: id in ids && Suffix(id) == n
      decreases |rest|
    {
      var id :| id in rest;
      if Suffix(id) > n { n := Suffix(id); }
      rest := rest - {id};
    }
  }
}
