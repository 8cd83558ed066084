/** Restoring the engine from its own snapshot between operations, which the server does at
    every restart and after every failed mutation. */
module CrashRecovery {
  import opened Texts
  import opened Wrappers
  import opened InventoryLedger
  import opened SnapshotIntegrity
  import opened SpecAnswers
  import opened TradeEngine
  import opened EngineInvariant

  /** An operation, or a restart from the last snapshot. */
  datatype Move = Call(step: Step) | Restart

  function Erase(moves: seq<Move>): seq<Step> {
    if moves == [] then []
    else (if moves[0].Call? then [moves[0].step] else []) + Erase(moves[1..])
  }

  function IdempotencyKey(step: Step): Text {
    match step
    case Submitting(f) => f.key
    case Accepting(f) => f.key
    case Countering(f) => f.key
    case Rejecting(key, _, _) => key
    case _ => []
  }

  ghost function Recovered(e: Engine): Engine {
    Restore(SnapshotOf(e))
  }

  /** What callers see: the answer to each operation, with the snapshot it carries. */
  ghost function Transcript(hash: Hash, e: Engine, moves: seq<Move>): seq<Reply>
    decreases |moves|
  {
    if moves == [] then []
    else if moves[0].Restart? then Transcript(hash, Recovered(e), moves[1..])
    else
      var o := Perform(hash, e, moves[0].step);
      [o.reply] + Transcript(hash, o.engine, moves[1..])
  }

  ghost function TranscriptOf(hash: Hash, e: Engine, steps: seq<Step>): seq<Reply>
    decreases |steps|
  {
    if steps == [] then []
    else
      var o := Perform(hash, e, steps[0]);
      [o.reply] + TranscriptOf(hash, o.engine, steps[1..])
  }

  ghost function EndOf(hash: Hash, e: Engine, moves: seq<Move>): Engine
    decreases |moves|
  {
    if moves == [] then e
    else EndOf(hash, if moves[0].Restart? then Recovered(e) else Perform(hash, e, moves[0].step).engine, moves[1..])
  }

  ghost function EndOfSteps(hash: Hash, e: Engine, steps: seq<Step>): Engine
    decreases |steps|
  {
    if steps == [] then e else EndOfSteps(hash, Perform(hash, e, steps[0]).engine, steps[1..])
  }

  /** The same ledger, whatever is remembered. */
  predicate SameLedger(e: Engine, f: Engine) {
    f == e.(idempotency := f.idempotency)
  }

  /** The same answer and the same ledger after it, at most one key more remembered. */
  predicate Agree(a: Outcome, b: Outcome, e: Engine, key: Text) {
    a.reply == b.reply && SameLedger(a.engine, b.engine) && a.engine.idempotency.Keys <= e.idempotency.Keys + {key}
  }

  lemma SubmitAgrees(hash: Hash, e: Engine, f: Engine, s: SubmitForm)
    requires SameLedger(e, f)
    requires !Replays(e, s.key) && !Replays(f, s.key)
    ensures Agree(Submit(e, s), Submit(f, s), e, s.key)
  {
    hide CommonRefusal;
    hide OrderId;
    hide VerifyLot;
    hide Qualifies;
  }

  lemma SettleReadsLedger(e: Engine, f: Engine, s: AcceptForm)
    requires SameLedger(e, f) && s.orderId in e.orders
    ensures LateRefusal(e, s) == LateRefusal(f, s)
    ensures LateRefusal(e, s) == None ==>
      && KeyOf(e, s) == KeyOf(f, s) && QuantityOf(e, s) == QuantityOf(f, s) && Reserved(e, s) == Reserved(f, s)
      && forall r, left :: DraftTrade(e, s, r, left) == DraftTrade(f, s, r, left)
  {
    hide Reserve;
    hide LotAt;
    hide Differs;
    hide TermsAgree;
  }

  lemma AcceptedAgrees(hash: Hash, e: Engine, f: Engine, s: AcceptForm, v: Inventory)
    requires SameLedger(e, f) && Acceptable(e, s) && Acceptable(f, s) && KeyOf(e, s) == KeyOf(f, s) && KeyOf(e, s) in v.reservations
    requires QuantityOf(e, s) == QuantityOf(f, s) && forall r, left :: DraftTrade(e, s, r, left) == DraftTrade(f, s, r, left)
    ensures Agree(Accepted(hash, e, s, v), Accepted(hash, f, s, v), e, s.key)
  {
    hide Seal;
    hide DraftTrade;
    hide KeyOf;
    hide QuantityOf;
    hide LateRefusal;
  }

  lemma SettleAgrees(hash: Hash, e: Engine, f: Engine, s: AcceptForm)
    requires SameLedger(e, f) && s.orderId in e.orders
    ensures Agree(Settle(hash, e, s), Settle(hash, f, s), e, s.key)
  {
    SettleReadsLedger(e, f, s);
    hide DraftTrade;
    hide Reserved;
    hide KeyOf;
    hide QuantityOf;
    hide LateRefusal;
    hide Accepted;
    if LateRefusal(e, s) == None && Reserved(e, s).Ok? { AcceptedAgrees(hash, e, f, s, Reserved(e, s).value); }
  }

  lemma AcceptAgrees(hash: Hash, e: Engine, f: Engine, s: AcceptForm)
    requires SameLedger(e, f)
    requires !Replays(e, s.key) && !Replays(f, s.key)
    ensures Agree(Accept(hash, e, s), Accept(hash, f, s), e, s.key)
  {
    hide CommonRefusal;
    hide Settle;
    hide Normalized;
    if AcceptStart(e, s) == None { SettleAgrees(hash, Refreshed(e, s), Refreshed(f, s), s); }
  }

  lemma CounterAgrees(hash: Hash, e: Engine, f: Engine, s: CounterForm)
    requires SameLedger(e, f)
    requires !Replays(e, s.key) && !Replays(f, s.key)
    ensures Agree(CounterOffer(e, s), CounterOffer(f, s), e, s.key)
  {
    CounterReadsLedger(e, f, s);
    hide CounterRefusal;
    hide Countered;
  }

  lemma CounterReadsLedger(e: Engine, f: Engine, s: CounterForm)
    requires SameLedger(e, f)
    ensures CounterRefusal(e, s) == CounterRefusal(f, s)
    ensures CounterRefusal(e, s) == None ==> Countered(e, s) == Countered(f, s)
  {
    hide CommonRefusal;
    hide CounterCommon;
    hide LotAt;
    hide Differs;
    hide Normalized;
  }

  lemma RejectAgrees(hash: Hash, e: Engine, f: Engine, key: Text, id: Text, supplierId: Text)
    requires SameLedger(e, f)
    requires !Replays(e, key) && !Replays(f, key)
    ensures Agree(Reject(e, key, id, supplierId), Reject(f, key, id, supplierId), e, key)
  {
    hide LotAt;
    hide Differs;
  }

  lemma TradeStepsAgree(hash: Hash, e: Engine, f: Engine, step: Step)
    requires SameLedger(e, f) && (step.Expiring? || step.Delivering? || step.Inspecting? || step.Registering?)
    ensures Agree(Perform(hash, e, step), Perform(hash, f, step), e, [])
  {
    hide Verify;
    hide MarkDelivered;
    hide Inspect;
    hide RegisterLot;
    hide NewLot;
    hide Submit;
    hide Accept;
    hide CounterOffer;
    hide Reject;
  }

  /** With a fresh key the remembered answers play no part. */
  lemma FreshStepAgrees(hash: Hash, e: Engine, f: Engine, step: Step)
    requires SameLedger(e, f)
    requires !Replays(e, IdempotencyKey(step)) && !Replays(f, IdempotencyKey(step))
    ensures Agree(Perform(hash, e, step), Perform(hash, f, step), e, IdempotencyKey(step))
  {
    hide Submit;
    hide Accept;
    hide CounterOffer;
    hide Reject;
    hide Agree;
    match step
    case Submitting(s) => SubmitAgrees(hash, e, f, s);
    case Accepting(s) => AcceptAgrees(hash, e, f, s);
    case Countering(s) => CounterAgrees(hash, e, f, s);
    case Rejecting(key, id, supplierId) => RejectAgrees(hash, e, f, key, id, supplierId);
    case _ => TradeStepsAgree(hash, e, f, step);
  }

  // ---- a remembered answer is never given afresh ----

  /** Orders only move on: submitted, countered, closed. */
  function Rank(s: OrderStatus): nat {
    match s
    case SUBMITTED => 0
    case COUNTERED => 1
    case _ => 2
  }

  /** The ledger of a is an earlier one: its orders and trades are all there, no order further on. */
  ghost predicate Precedes(a: map<Text, Order>, b: map<Text, Order>) {
    forall id :: id in a ==> id in b && Rank(a[id].status) <= Rank(b[id].status)
  }

  ghost predicate Earlier(s: Snapshot, e: Engine) {
    Precedes(s.orders, e.orders) && s.trades.Keys <= e.trades.Keys
  }

  /** Every remembered answer carries an earlier snapshot. */
  ghost predicate Remembers(e: Engine) {
    forall k :: k in e.idempotency ==> Earlier(e.idempotency[k].snapshot, e)
  }

  lemma EarlierStill(s: Snapshot, e: Engine, f: Engine)
    requires Earlier(s, e) && Earlier(SnapshotOf(e), f)
    ensures Earlier(s, f)
  {
  }

  /** A step remembers its own fresh answer, under its key if it has one, and nothing else. */
  predicate AnswerKept(e: Engine, o: Outcome, key: Text) {
    if key != [] && !Replays(e, key) && o.reply.OfOrder? then
      o.engine.idempotency == e.idempotency[key := o.reply.response] && o.reply.response.snapshot == SnapshotOf(o.engine)
    else o.engine.idempotency == e.idempotency
  }

  lemma OrderMovesOn(e: Engine, key: Text, o: Order)
    requires o.orderId in e.orders ==> Rank(e.orders[o.orderId].status) <= Rank(o.status)
    ensures Earlier(SnapshotOf(e), ChangeOrder(e, key, o).engine)
    ensures !Replays(e, key) ==> AnswerKept(e, ChangeOrder(e, key, o), key)
  {
  }

  /** A snapshot that no earlier ledger can have taken. */
  ghost predicate News(e: Engine, s: Snapshot) {
    || (exists id :: id in s.orders && (id !in e.orders || Rank(s.orders[id].status) > Rank(e.orders[id].status)))
    || (exists t :: t in s.trades && t !in e.trades)
  }

  lemma NewsIsNotEarlier(e: Engine, s: Snapshot)
    requires News(e, s)
    ensures !Earlier(s, e)
  {
  }

  lemma ChangedIsNews(e: Engine, key: Text, o: Order)
    requires o.orderId in e.orders && Rank(e.orders[o.orderId].status) < Rank(o.status)
    ensures News(e, ChangeOrder(e, key, o).reply.response.snapshot)
  {
    assert o.orderId in ChangeOrder(e, key, o).reply.response.snapshot.orders;
  }

  lemma GoodIsNumbered(hash: Hash, e: Engine)
    requires Good(hash, e)
    ensures OrdersNumbered(e.orders, e.orderSequence)
  {
    hide OrdersNumbered;
  }

  lemma SubmittedIsNew(e: Engine, f: SubmitForm)
    requires OrdersNumbered(e.orders, e.orderSequence) && SubmitRefusal(e, f) == None
    ensures NewOrder(e, f).orderId !in e.orders
  {
    hide SubmitRefusal;
    hide NewOrder;
    hide OrderFine;
    hide OrdersNumbered;
    NewOrderIsFine(e, f);
    OrdersNumberedAdd(e.orders, e.orderSequence, NewOrder(e, f));
  }

  lemma AddedMovesOn(e: Engine, key: Text, o: Order)
    requires o.orderId !in e.orders
    ensures var r := Answered(e.(orderSequence := e.orderSequence + 1, orders := e.orders[o.orderId := o]), key, o, None);
            && Earlier(SnapshotOf(e), r.engine) && News(e, r.reply.response.snapshot)
            && (!Replays(e, key) ==> AnswerKept(e, r, key))
  {
    var r := Answered(e.(orderSequence := e.orderSequence + 1, orders := e.orders[o.orderId := o]), key, o, None);
    assert o.orderId in r.reply.response.snapshot.orders;
  }

  lemma SubmitMovesOn(hash: Hash, e: Engine, f: SubmitForm)
    requires Good(hash, e)
    ensures Earlier(SnapshotOf(e), Submit(e, f).engine) && AnswerKept(e, Submit(e, f), f.key)
    ensures !Replays(e, f.key) && Submit(e, f).reply.OfOrder? ==> News(e, Submit(e, f).reply.response.snapshot)
  {
    GoodIsNumbered(hash, e);
    hide SubmitRefusal;
    hide Good;
    hide NewOrder;
    hide News;
    if !Replays(e, f.key) && SubmitRefusal(e, f) == None {
      SubmittedIsNew(e, f);
      AddedMovesOn(e, f.key, NewOrder(e, f));
      hide Answered;
      hide Earlier;
      hide AnswerKept;
    }
  }

  lemma CounteredSays(e: Engine, f: CounterForm)
    requires CounterRefusal(e, f) == None
    ensures f.orderId in e.orders && e.orders[f.orderId].status == SUBMITTED
    ensures Countered(e, f).orderId == e.orders[f.orderId].orderId && Countered(e, f).status == COUNTERED
  {
    hide CommonRefusal;
    hide CounterCommon;
    hide CounterLot;
    hide LotOf;
    hide Normalized;
  }

  lemma MovedOrderIsNew(e: Engine, key: Text, o: Order)
    requires o.orderId in e.orders && Rank(e.orders[o.orderId].status) < Rank(o.status)
    ensures var r := ChangeOrder(e, key, o);
            && Earlier(SnapshotOf(e), r.engine) && (!Replays(e, key) ==> AnswerKept(e, r, key))
            && r.reply.OfOrder? && News(e, r.reply.response.snapshot)
  {
    OrderMovesOn(e, key, o);
    ChangedIsNews(e, key, o);
    hide News;
    hide Earlier;
    hide AnswerKept;
  }

  lemma CounterMovesOn(hash: Hash, e: Engine, f: CounterForm)
    requires Good(hash, e)
    ensures Earlier(SnapshotOf(e), CounterOffer(e, f).engine) && AnswerKept(e, CounterOffer(e, f), f.key)
    ensures !Replays(e, f.key) && CounterOffer(e, f).reply.OfOrder? ==> News(e, CounterOffer(e, f).reply.response.snapshot)
  {
    hide Good;
    hide CounterRefusal;
    hide Countered;
    hide ChangeOrder;
    hide News;
    if !Replays(e, f.key) && CounterRefusal(e, f) == None {
      hide Earlier;
      hide AnswerKept;
      CounteredSays(e, f);
      KeyedOrder(hash, e, f.orderId);
      MovedOrderIsNew(e, f.key, Countered(e, f));
    }
  }

  lemma RejectMovesOn(hash: Hash, e: Engine, key: Text, id: Text, supplierId: Text)
    requires Good(hash, e)
    ensures Earlier(SnapshotOf(e), Reject(e, key, id, supplierId).engine) && AnswerKept(e, Reject(e, key, id, supplierId), key)
    ensures !Replays(e, key) && Reject(e, key, id, supplierId).reply.OfOrder?
            ==> News(e, Reject(e, key, id, supplierId).reply.response.snapshot)
  {
    hide Good;
    hide LotOf;
    hide ChangeOrder;
    hide News;
    if !Replays(e, key) && RejectRefusal(e, id, supplierId) == None {
      hide Earlier;
      hide AnswerKept;
      KeyedOrder(hash, e, id);
      MovedOrderIsNew(e, key, e.orders[id].(status := REJECTED));
    }
  }

  lemma AcceptedMovesOn(hash: Hash, e: Engine, f: AcceptForm, v: Inventory)
    requires Acceptable(e, f) && KeyOf(e, f) in v.reservations && NewTrade(hash, e, f, v).tradeId !in e.trades
    ensures var o := Accepted(hash, e, f, v);
            && Earlier(SnapshotOf(e), o.engine) && (!Replays(e, f.key) ==> AnswerKept(e, o, f.key))
            && o.reply.OfOrder? && News(e, o.reply.response.snapshot)
  {
    hide LateRefusal;
    hide KeyOf;
    hide QuantityOf;
    hide NewTrade;
    var t, o := NewTrade(hash, e, f, v), Accepted(hash, e, f, v);
    assert t.tradeId in o.reply.response.snapshot.trades;
  }

  lemma AcceptMovesOn(hash: Hash, e: Engine, f: AcceptForm)
    requires Good(hash, e)
    ensures Earlier(SnapshotOf(e), Accept(hash, e, f).engine) && AnswerKept(e, Accept(hash, e, f), f.key)
    ensures !Replays(e, f.key) && Accept(hash, e, f).reply.OfOrder? ==> News(e, Accept(hash, e, f).reply.response.snapshot)
  {
    hide Good;
    hide AcceptStart;
    hide LateRefusal;
    hide Reserved;
    hide Accepted;
    hide Refreshed;
    hide NewTrade;
    if !Replays(e, f.key) && AcceptStart(e, f) == None {
      RefreshIsIdentity(hash, e, f);
      if Acceptable(e, f) && Reserved(e, f).Ok? {
        NewTradeIsNew(hash, e, f);
        AcceptedMovesOn(hash, e, f, Reserved(e, f).value);
      }
    }
    hide News;
  }

  lemma NewTradeIsNew(hash: Hash, e: Engine, f: AcceptForm)
    requires Good(hash, e) && Accepts(e, f) && Reserved(e, f).Ok?
    ensures NewTrade(hash, e, f, Reserved(e, f).value).tradeId !in e.trades
  {
    NewTradeSays(hash, e, f);
    TradeIdEnds(e.tradeSequence + 1);
    hide Verify;
    hide NewTrade;
    hide Reserved;
    hide LateRefusal;
    hide AcceptStart;
    hide TradeId;
    hide Suffix;
  }

  lemma NothingMovesOn(e: Engine, reply: Reply)
    requires reply.Thrown?
    ensures Earlier(SnapshotOf(e), e) && AnswerKept(e, Outcome(e, reply), [])
  {
  }

  lemma ExpireMovesOn(hash: Hash, e: Engine, id: Text, now: Instant)
    requires Good(hash, e)
    ensures Earlier(SnapshotOf(e), Expire(e, id, now).engine) && AnswerKept(e, Expire(e, id, now), [])
  {
    hide Good;
    hide ChangeOrder;
    hide Earlier;
    hide AnswerKept;
    if ExpireRefusal(e, id, now) == None {
      KeyedOrder(hash, e, id);
      OrderMovesOn(e, [], e.orders[id].(status := LAPSED));
    } else {
      NothingMovesOn(e, Expire(e, id, now).reply);
    }
  }

  lemma TradeMovesOn(e: Engine, t: Trade, v: Inventory)
    ensures Earlier(SnapshotOf(e), ChangeTrade(e, t, v).engine) && AnswerKept(e, ChangeTrade(e, t, v), [])
  {
  }

  lemma LotMovesOn(e: Engine, o: Outcome)
    requires o.engine == e.(inventory := o.engine.inventory)
    ensures Earlier(SnapshotOf(e), o.engine) && AnswerKept(e, o, [])
  {
  }

  lemma TradeStepsMoveOn(hash: Hash, e: Engine, step: Step)
    requires step.Delivering? || step.Inspecting? || step.Registering?
    ensures var o := Perform(hash, e, step); Earlier(SnapshotOf(e), o.engine) && AnswerKept(e, o, [])
  {
    hide Verify;
    hide MarkDelivered;
    hide Inspect;
    hide RegisterLot;
    hide NewLot;
    hide ChangeTrade;
    hide Earlier;
    hide AnswerKept;
    LotMovesOn(e, Outcome(e, Perform(hash, e, step).reply));
    match step
    case Delivering(id) =>
      if id in e.trades {
        var r := MarkDelivered(e.inventory, e.trades[id].reservationId);
        if r.Ok? { TradeMovesOn(e, e.trades[id].(status := SENT), r.value); }
      }
    case Inspecting(id, specMatch, qualityPass) =>
      if id in e.trades { forall t, v { TradeMovesOn(e, t, v); } }
    case Registering(f) => LotMovesOn(e, Perform(hash, e, step));
  }

  /** Every operation moves the ledger on; an answer about an order that is not a replay carries
      a snapshot that was never taken before. */
  lemma StepMovesOn(hash: Hash, e: Engine, step: Step)
    requires Good(hash, e)
    ensures var o := Perform(hash, e, step);
            && Earlier(SnapshotOf(e), o.engine) && AnswerKept(e, o, IdempotencyKey(step))
            && (IdempotencyKey(step) != [] && !Replays(e, IdempotencyKey(step)) && o.reply.OfOrder?
                ==> News(e, o.reply.response.snapshot))
  {
    hide Good;
    hide Earlier;
    hide AnswerKept;
    hide News;
    hide Submit;
    hide Accept;
    hide CounterOffer;
    hide Reject;
    hide Expire;
    match step
    case Submitting(f) => SubmitMovesOn(hash, e, f);
    case Accepting(f) => AcceptMovesOn(hash, e, f);
    case Countering(f) => CounterMovesOn(hash, e, f);
    case Rejecting(key, id, supplierId) => RejectMovesOn(hash, e, key, id, supplierId);
    case Expiring(id, now) => ExpireMovesOn(hash, e, id, now);
    case _ => TradeStepsMoveOn(hash, e, step);
  }

  lemma EarlierThanItself(e: Engine)
    ensures Earlier(SnapshotOf(e), e)
  {
  }

  lemma RemembersStill(e: Engine, o: Outcome, key: Text)
    requires Remembers(e) && Earlier(SnapshotOf(e), o.engine) && AnswerKept(e, o, key)
    ensures Remembers(o.engine)
  {
    EarlierThanItself(o.engine);
    forall k | k in e.idempotency ensures Earlier(e.idempotency[k].snapshot, o.engine) {
      EarlierStill(e.idempotency[k].snapshot, e, o.engine);
    }
  }

  // ---- restarts inserted into a run ----

  /** f is the ledger of e, remembering some of what e remembers. */
  predicate Forgot(e: Engine, f: Engine) {
    SameLedger(e, f) && forall k :: k in f.idempotency ==> k in e.idempotency && f.idempotency[k] == e.idempotency[k]
  }

  lemma ReplayIsRemembered(hash: Hash, e: Engine, step: Step)
    requires Replays(e, IdempotencyKey(step))
    ensures Perform(hash, e, step) == Outcome(e, OfOrder(e.idempotency[IdempotencyKey(step)]))
  {
  }

  /** A remembered answer that was forgotten is not given again: the fresh one differs. */
  lemma ForgottenIsSeen(hash: Hash, e: Engine, f: Engine, step: Step)
    requires Good(hash, e) && Remembers(e) && SameLedger(e, f)
    requires Replays(e, IdempotencyKey(step)) && !Replays(f, IdempotencyKey(step))
    ensures Perform(hash, e, step).reply != Perform(hash, f, step).reply
  {
    hide Good;
    hide Perform;
    hide Earlier;
    hide News;
    hide AnswerKept;
    GoodAlike(hash, e, f);
    StepMovesOn(hash, f, step);
    ReplayIsRemembered(hash, e, step);
    var remembered := e.idempotency[IdempotencyKey(step)].snapshot;
    EarlierReadsLedger(remembered, e, f);
    if News(f, remembered) { NewsIsNotEarlier(f, remembered); }
  }

  lemma EarlierReadsLedger(s: Snapshot, e: Engine, f: Engine)
    requires SameLedger(e, f)
    ensures Earlier(s, e) == Earlier(s, f)
  {
  }

  /** A step is answered alike exactly when its remembered answer, if any, was not forgotten. */
  lemma SeenExactlyWhen(hash: Hash, e: Engine, f: Engine, step: Step)
    requires Good(hash, e) && Remembers(e) && Forgot(e, f)
    ensures Perform(hash, e, step).reply == Perform(hash, f, step).reply
            <==> (Replays(e, IdempotencyKey(step)) ==> Replays(f, IdempotencyKey(step)))
    ensures (Replays(e, IdempotencyKey(step)) ==> Replays(f, IdempotencyKey(step)))
            ==> Forgot(Perform(hash, e, step).engine, Perform(hash, f, step).engine)
  {
    hide Good;
    hide Perform;
    hide Remembers;
    hide Earlier;
    hide News;
    var key := IdempotencyKey(step);
    if Replays(e, key) {
      if Replays(f, key) {
        ReplayIsRemembered(hash, e, step);
        ReplayIsRemembered(hash, f, step);
      } else {
        ForgottenIsSeen(hash, e, f, step);
      }
    } else {
      FreshStepAgrees(hash, e, f, step);
      GoodAlike(hash, e, f);
      StepMovesOn(hash, e, step);
      StepMovesOn(hash, f, step);
    }
  }

  /** What the uninterrupted ledger e remembers since the last restart: the keys in `kept`. */
  ghost predicate NothingForgotten(hash: Hash, e: Engine, kept: set<Text>, moves: seq<Move>)
    decreases |moves|
  {
    moves == []
    || if moves[0].Restart? then NothingForgotten(hash, e, {}, moves[1..])
       else
         var step := moves[0].step;
         var key, e' := IdempotencyKey(step), Perform(hash, e, step).engine;
         && (Replays(e, key) ==> key in kept)
         && NothingForgotten(hash, e', if Replays(e', key) then kept + {key} else kept, moves[1..])
  }

  /** f remembers exactly the kept keys of e. */
  predicate Keeps(e: Engine, f: Engine, kept: set<Text>) {
    Forgot(e, f) && f.idempotency.Keys == kept
  }

  lemma StepStillKeeps(hash: Hash, e: Engine, f: Engine, kept: set<Text>, step: Step)
    requires Good(hash, e) && Remembers(e) && Keeps(e, f, kept)
    requires Replays(e, IdempotencyKey(step)) ==> IdempotencyKey(step) in kept
    ensures var key, e' := IdempotencyKey(step), Perform(hash, e, step).engine;
            Keeps(e', Perform(hash, f, step).engine, if Replays(e', key) then kept + {key} else kept)
  {
    hide Good;
    hide Perform;
    hide Remembers;
    hide Earlier;
    hide News;
    SeenExactlyWhen(hash, e, f, step);
    if Replays(e, IdempotencyKey(step)) {
      ReplayIsRemembered(hash, e, step);
      ReplayIsRemembered(hash, f, step);
      assert kept + {IdempotencyKey(step)} == kept;
    } else {
      GoodAlike(hash, e, f);
      StepMovesOn(hash, e, step);
      StepMovesOn(hash, f, step);
    }
  }

  lemma {:induction false} InvisibleFrom(hash: Hash, e: Engine, f: Engine, kept: set<Text>, moves: seq<Move>)
    requires Good(hash, e) && Remembers(e) && Keeps(e, f, kept)
    ensures Transcript(hash, f, moves) == TranscriptOf(hash, e, Erase(moves)) <==> NothingForgotten(hash, e, kept, moves)
    ensures NothingForgotten(hash, e, kept, moves)
            ==> SnapshotOf(EndOf(hash, f, moves)) == SnapshotOf(EndOfSteps(hash, e, Erase(moves)))
    decreases |moves|
  {
    hide Good;
    hide Perform;
    hide Restore;
    hide Remembers;
    if moves != [] {
      if moves[0].Restart? {
        assert Erase(moves) == Erase(moves[1..]);
        GoodAlike(hash, e, f);
        RestoreForgets(hash, f);
        InvisibleFrom(hash, e, Recovered(f), {}, moves[1..]);
      } else {
        InvisibleStep(hash, e, f, kept, moves);
      }
    }
  }

  lemma InvisibleStep(hash: Hash, e: Engine, f: Engine, kept: set<Text>, moves: seq<Move>)
    requires Good(hash, e) && Remembers(e) && Keeps(e, f, kept) && moves != [] && moves[0].Call?
    ensures Transcript(hash, f, moves) == TranscriptOf(hash, e, Erase(moves)) <==> NothingForgotten(hash, e, kept, moves)
    ensures NothingForgotten(hash, e, kept, moves)
            ==> SnapshotOf(EndOf(hash, f, moves)) == SnapshotOf(EndOfSteps(hash, e, Erase(moves)))
    decreases |moves|, 0
  {
    hide Good;
    hide Perform;
    hide Remembers;
    hide Earlier;
    hide AnswerKept;
    hide News;
    var step := moves[0].step;
    var key := IdempotencyKey(step);
    var a, b := Perform(hash, e, step), Perform(hash, f, step);
    assert Erase(moves) == [step] + Erase(moves[1..]);
    assert Erase(moves)[1..] == Erase(moves[1..]);
    SeenExactlyWhen(hash, e, f, step);
    assert Transcript(hash, f, moves) == [b.reply] + Transcript(hash, b.engine, moves[1..]);
    assert TranscriptOf(hash, e, Erase(moves)) == [a.reply] + TranscriptOf(hash, a.engine, Erase(moves[1..]));
    if a.reply == b.reply {
      StepStillKeeps(hash, e, f, kept, step);
      EngineInvariant.StepKeeps(hash, e, step);
      StepMovesOn(hash, e, step);
      RemembersStill(e, a, key);
      InvisibleFrom(hash, a.engine, b.engine, if Replays(a.engine, key) then kept + {key} else kept, moves[1..]);
      HeadsAgree(a.reply, Transcript(hash, b.engine, moves[1..]), TranscriptOf(hash, a.engine, Erase(moves[1..])));
    } else {
      assert Transcript(hash, f, moves)[0] != TranscriptOf(hash, e, Erase(moves))[0];
    }
  }

  lemma HeadsAgree(r: Reply, a: seq<Reply>, b: seq<Reply>)
    ensures [r] + a == [r] + b <==> a == b
  {
    assert ([r] + a)[1..] == a && ([r] + b)[1..] == b;
  }

  // ---- the main results ----

  /** When restarts are invisible: inserted anywhere in any run, they change no answer if and only
      if every key that the uninterrupted run replays was remembered since the last restart; and
      then they change no snapshot either. */
  lemma RestartsAreInvisibleExactlyWhen(hash: Hash, moves: seq<Move>)
    ensures Transcript(hash, INITIAL, moves) == TranscriptOf(hash, INITIAL, Erase(moves))
            <==> NothingForgotten(hash, INITIAL, {}, moves)
    ensures NothingForgotten(hash, INITIAL, {}, moves)
            ==> SnapshotOf(EndOf(hash, INITIAL, moves)) == SnapshotOf(EndOfSteps(hash, INITIAL, Erase(moves)))
  {
    hide Good;
    hide Lit;
    hide Perform;
    hide Restore;
    InitialIsGood(hash);
    InvisibleFrom(hash, INITIAL, INITIAL, {}, moves);
  }

  /** Engines of runs, restarts included. */
  lemma {:induction false} ReachedRemembers(hash: Hash, e: Engine, moves: seq<Move>)
    requires Good(hash, e) && Remembers(e)
    ensures Good(hash, EndOf(hash, e, moves)) && Remembers(EndOf(hash, e, moves))
    decreases |moves|
  {
    hide Good;
    hide Perform;
    hide Restore;
    hide Earlier;
    hide AnswerKept;
    hide News;
    if moves != [] {
      if moves[0].Restart? {
        RestoreForgets(hash, e);
        GoodAlike(hash, e, Recovered(e));
        ReachedRemembers(hash, Recovered(e), moves[1..]);
      } else {
        EngineInvariant.StepKeeps(hash, e, moves[0].step);
        StepMovesOn(hash, e, moves[0].step);
        RemembersStill(e, Perform(hash, e, moves[0].step), IdempotencyKey(moves[0].step));
        ReachedRemembers(hash, Perform(hash, e, moves[0].step).engine, moves[1..]);
      }
    }
  }

  /** One operation: at every engine a run can reach, a restart just before it is seen in its
      answer if and only if it repeats a key the engine remembers. */
  lemma RestartIsSeenExactlyWhen(hash: Hash, moves: seq<Move>, step: Step)
    ensures var e := EndOf(hash, INITIAL, moves);
            Perform(hash, Recovered(e), step).reply == Perform(hash, e, step).reply <==> !Replays(e, IdempotencyKey(step))
  {
    hide Good;
    hide Lit;
    hide Perform;
    hide Restore;
    var e := EndOf(hash, INITIAL, moves);
    InitialIsGood(hash);
    ReachedRemembers(hash, INITIAL, moves);
    hide EndOf;
    hide Remembers;
    RestoreForgets(hash, e);
    SeenExactlyWhen(hash, e, Recovered(e), step);
  }

  predicate KeysDiffer(steps: seq<Step>) {
    forall i, j :: 0 <= i < j < |steps| && IdempotencyKey(steps[i]) != [] ==> IdempotencyKey(steps[i]) != IdempotencyKey(steps[j])
  }

  predicate Unused(steps: seq<Step>, used: set<Text>) {
    forall i :: 0 <= i < |steps| ==> IdempotencyKey(steps[i]) !in used
  }

  lemma RestIsFresh(step: Step, rest: seq<Step>, used: set<Text>, used': set<Text>)
    requires KeysDiffer([step] + rest) && Unused([step] + rest, used)
    requires used' <= used + (if IdempotencyKey(step) == [] then {} else {IdempotencyKey(step)})
    ensures KeysDiffer(rest) && Unused(rest, used') && IdempotencyKey(step) !in used
  {
    var all := [step] + rest;
    assert all[0] == step;
    hide IdempotencyKey;
    forall i | 0 <= i < |rest| ensures IdempotencyKey(rest[i]) !in used' { assert all[i + 1] == rest[i]; }
    forall i, j | 0 <= i < j < |rest| && IdempotencyKey(rest[i]) != [] ensures IdempotencyKey(rest[i]) != IdempotencyKey(rest[j]) {
      assert all[i + 1] == rest[i] && all[j + 1] == rest[j];
    }
  }

  lemma {:induction false} FreshKeysForgetNothing(hash: Hash, e: Engine, kept: set<Text>, moves: seq<Move>)
    requires Good(hash, e) && KeysDiffer(Erase(moves))
    requires Unused(Erase(moves), e.idempotency.Keys)
    ensures NothingForgotten(hash, e, kept, moves)
    decreases |moves|
  {
    hide Good;
    hide Perform;
    hide Earlier;
    hide News;
    if moves != [] {
      var rest := Erase(moves[1..]);
      if moves[0].Restart? {
        assert Erase(moves) == rest;
        FreshKeysForgetNothing(hash, e, {}, moves[1..]);
      } else {
        var step := moves[0].step;
        var key, e' := IdempotencyKey(step), Perform(hash, e, step).engine;
        assert Erase(moves) == [step] + rest;
        EngineInvariant.StepKeeps(hash, e, step);
        StepMovesOn(hash, e, step);
        RestIsFresh(step, rest, e.idempotency.Keys, e'.idempotency.Keys);
        FreshKeysForgetNothing(hash, e', if Replays(e', key) then kept + {key} else kept, moves[1..]);
      }
    }
  }

  /** Crash recovery is invisible: with no idempotency key used twice, restarts inserted anywhere
      in any run change no answer and no snapshot. */
  lemma RestartsAreInvisible(hash: Hash, moves: seq<Move>)
    requires KeysDiffer(Erase(moves))
    ensures Transcript(hash, INITIAL, moves) == TranscriptOf(hash, INITIAL, Erase(moves))
    ensures SnapshotOf(EndOf(hash, INITIAL, moves)) == SnapshotOf(EndOfSteps(hash, INITIAL, Erase(moves)))
  {
    hide Good;
    hide Lit;
    hide Perform;
    hide Restore;
    InitialIsGood(hash);
    FreshKeysForgetNothing(hash, INITIAL, {}, moves);
    RestartsAreInvisibleExactlyWhen(hash, moves);
  }

  // ---- a run in which it shows ----

  /** 20 kg of the initial lot, at its price. */
  function Purchase(key: Text): SubmitForm {
    SubmitForm(key, Common(GABA_SPEC_ID, CANONICAL, Some(21800), Some(20), Some(AnswersOf(APPROVED))), Some(14), [], [], Never, 0)
  }

  lemma PurchaseIsAccepted(key: Text)
    ensures SubmitRefusal(INITIAL, Purchase(key)) == None
  {
    ApprovedAnswersItself();
    FilledAgain();
    hide AnswerRefusal;
    hide AnswersOf;
    assert INITIAL_LOT.lotId[0] == 71;
    assert Filled(NO_TERMS) == CANONICAL;
    assert Qualifies(INITIAL.inventory.lots[0], SubmitNeed(Purchase(key)), Some(21800), 0);
  }

  lemma SubmitReadsLots(e: Engine, g: Engine, f: SubmitForm)
    requires e.inventory == g.inventory
    ensures SubmitRefusal(e, f) == SubmitRefusal(g, f)
  {
  }

  lemma EndAfter(hash: Hash, e: Engine, step: Step, moves: seq<Move>, steps: seq<Step>)
    ensures EndOf(hash, e, [Call(step)] + moves) == EndOf(hash, Perform(hash, e, step).engine, moves)
    ensures EndOf(hash, e, [Restart] + moves) == EndOf(hash, Recovered(e), moves)
    ensures EndOfSteps(hash, e, [step] + steps) == EndOfSteps(hash, Perform(hash, e, step).engine, steps)
    ensures Erase([Call(step)] + moves) == [step] + Erase(moves) && Erase([Restart] + moves) == Erase(moves)
  {
    hide Perform;
    hide Restore;
    assert ([Call(step)] + moves)[1..] == moves && ([Restart] + moves)[1..] == moves && ([step] + steps)[1..] == steps;
  }

  lemma PurchaseCounts(e: Engine, key: Text)
    requires key != [] && e.inventory == INITIAL.inventory && !Replays(e, key)
    ensures var r := Submit(e, Purchase(key)).engine;
            Purchase(key).key == key && r.inventory == INITIAL.inventory && Replays(r, key) && r.orderSequence == e.orderSequence + 1
  {
    PurchaseIsAccepted(key);
    SubmitReadsLots(INITIAL, e, Purchase(key));
    hide SubmitRefusal;
    hide NewOrder;
  }

  /** Submit, restart, submit again under the same key: two orders, where without the restart the
      second submission is the first answer again. */
  lemma RepeatedKeyAfterRestart(hash: Hash, key: Text)
    requires key != []
    ensures var step := Submitting(Purchase(key));
            var again := [Call(step), Restart, Call(step)];
            && Erase(again) == [step, step]
            && EndOfSteps(hash, INITIAL, Erase(again)).orderSequence == 1
            && EndOf(hash, INITIAL, again).orderSequence == 2
            && Transcript(hash, INITIAL, again) != TranscriptOf(hash, INITIAL, Erase(again))
  {
    var f := Purchase(key);
    var step := Submitting(f);
    var again := [Call(step), Restart, Call(step)];
    hide Restore;
    hide Submit;
    hide Purchase;
    InitialIsGood(hash);
    SubmitKeeps(hash, INITIAL, f);
    hide Good;
    PurchaseCounts(INITIAL, key);
    var first := Submit(INITIAL, f).engine;
    RestoreForgets(hash, first);
    PurchaseCounts(Recovered(first), key);
    ReplayIsRemembered(hash, first, step);
    assert again == [Call(step)] + ([Restart] + ([Call(step)] + [])) && [step, step] == [step] + ([step] + []);
    EndAfter(hash, INITIAL, step, [Restart] + ([Call(step)] + []), [step] + []);
    EndAfter(hash, first, step, [Call(step)] + [], []);
    EndAfter(hash, Recovered(first), step, [], []);
    RepeatIsSeen(hash, step, again);
  }

  lemma RepeatIsSeen(hash: Hash, step: Step, again: seq<Move>)
    requires again == [Call(step), Restart, Call(step)] && Replays(Perform(hash, INITIAL, step).engine, IdempotencyKey(step))
    ensures Transcript(hash, INITIAL, again) != TranscriptOf(hash, INITIAL, Erase(again))
  {
    hide Perform;
    hide Restore;
    RestartsAreInvisibleExactlyWhen(hash, again);
    var e := Perform(hash, INITIAL, step).engine;
    assert again[1..] == [Restart, Call(step)] && again[1..][1..] == [Call(step)];
    assert !NothingForgotten(hash, e, {}, [Call(step)]);
    forall kept: set<Text> ensures !NothingForgotten(hash, e, kept, again[1..]) { }
  }
}
