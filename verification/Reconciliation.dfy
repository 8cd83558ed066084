/** The two-way comparison of beta-app/domain-reconciliation.mjs. */
module Reconciliation {
  import opened Texts
  import opened Wrappers

  datatype FieldName =
    LOT_ID | ORDER_ID | TRADE_ID | SPEC_ID | STATUS | AVAILABLE_QTY | RESERVED_QTY | PRICE | QUANTITY | DELIVERY_DATE | SNAPSHOT_HASH

  datatype Value = Null | Num(number: int) | Str(text: Text)

  /** A field that is absent is `undefined`. */
  type Record = map<FieldName, Value>

  datatype Collection = LOTS | ORDERS | TRADES

  datatype Snapshot = Snapshot(lots: seq<Record>, orders: seq<Record>, trades: seq<Record>)

  datatype Issue =
    | IdentifierMissing(collection: Collection)
    | DuplicateIdentifier(collection: Collection, id: Text)
    | DomainRecordMissing(collection: Collection, id: Text)
    | BridgeRecordMissing(collection: Collection, id: Text)
    | FieldMismatch(collection: Collection, id: Text)
    | LotAvailableInvalid(id: Text)
    | LotReservedInvalid(id: Text)
    | TradeOrderMissing(id: Text)
    | TradeLotMissing(id: Text)
    | TradeSnapshotHashMissing(id: Text)

  /** How text reads as a number, if it does. */
  type Reader = Text -> Option<int>

  // ---- reading a record ----

  function AsId(r: Record, f: FieldName): Text {
    if f !in r then []
    else match r[f]
      case Null => []
      case Num(n) => if n >= 0 then Decimal(n) else [45] + Decimal(-n)
      case Str(t) => Trim(t)
  }

  /** Number(value): null reads as 0. */
  function NumberOf(read: Reader, r: Record, f: FieldName): Option<int> {
    if f !in r then None
    else match r[f]
      case Null => Some(0)
      case Num(n) => Some(n)
      case Str(t) => read(t)
  }

  function Comparable(r: Record, fields: seq<FieldName>): seq<Value> {
    seq(|fields|, i requires 0 <= i < |fields| => if fields[i] in r then r[fields[i]] else Null)
  }

  const LOT_FIELDS := [LOT_ID, SPEC_ID, STATUS, AVAILABLE_QTY, RESERVED_QTY]
  const ORDER_FIELDS := [ORDER_ID, SPEC_ID, STATUS, PRICE, QUANTITY, DELIVERY_DATE]
  const TRADE_FIELDS := [TRADE_ID, ORDER_ID, LOT_ID, SPEC_ID, STATUS, PRICE, QUANTITY, DELIVERY_DATE, SNAPSHOT_HASH]

  // ---- indexing a side ----

  /** The place of the last record with an id, which is the one an index keeps, or -1. */
  function LastAt(items: seq<Record>, f: FieldName, id: Text): (i: int)
    ensures -1 <= i < |items|
  {
    if items == [] then -1
    else if AsId(items[|items| - 1], f) == id then |items| - 1
    else LastAt(items[..|items| - 1], f, id)
  }

  predicate HasId(items: seq<Record>, f: FieldName, id: Text) {
    exists i :: 0 <= i < |items| && AsId(items[i], f) == id
  }

  predicate HasTwice(items: seq<Record>, f: FieldName, id: Text) {
    exists i, j :: 0 <= i < j < |items| && AsId(items[i], f) == id && AsId(items[j], f) == id
  }

  /** What is wrong with the ids of one side. */
  predicate IdDue(i: Issue, items: seq<Record>, f: FieldName, c: Collection) {
    match i
    case IdentifierMissing(d) => d == c && HasId(items, f, [])
    case DuplicateIdentifier(d, id) => d == c && id != [] && HasTwice(items, f, id)
    case _ => false
  }

  lemma {:induction false} LastAtHas(items: seq<Record>, f: FieldName, id: Text)
    ensures LastAt(items, f, id) >= 0 <==> HasId(items, f, id)
    ensures LastAt(items, f, id) >= 0 ==> AsId(items[LastAt(items, f, id)], f) == id
  {
    hide AsId;
    if items != [] {
      var init := items[..|items| - 1];
      LastAtHas(init, f, id);
      HasIdStep(init, items[|items| - 1], f, id);
      assert items == init + [items[|items| - 1]];
    }
  }

  lemma HasIdStep(init: seq<Record>, last: Record, f: FieldName, id: Text)
    ensures HasId(init + [last], f, id) <==> HasId(init, f, id) || AsId(last, f) == id
  {
    hide AsId;
    var items := init + [last];
    if HasId(init, f, id) {
      var i :| 0 <= i < |init| && AsId(init[i], f) == id;
      assert items[i] == init[i];
    } else if AsId(last, f) == id {
      assert items[|init|] == last;
    } else {
      forall i | 0 <= i < |items| ensures AsId(items[i], f) != id {
        assert items[i] == if i < |init| then init[i] else last;
      }
    }
  }

  lemma HasTwiceStep(init: seq<Record>, last: Record, f: FieldName, id: Text)
    ensures HasTwice(init + [last], f, id) <==> HasTwice(init, f, id) || (HasId(init, f, id) && AsId(last, f) == id)
  {
    hide AsId;
    var items := init + [last];
    if HasTwice(init, f, id) {
      var i, j :| 0 <= i < j < |init| && AsId(init[i], f) == id && AsId(init[j], f) == id;
      assert items[i] == init[i] && items[j] == init[j];
    } else if HasId(init, f, id) && AsId(last, f) == id {
      var i :| 0 <= i < |init| && AsId(init[i], f) == id;
      assert items[i] == init[i] && items[|init|] == last;
    } else {
      forall i, j | 0 <= i < j < |items| ensures !(AsId(items[i], f) == id && AsId(items[j], f) == id) {
        assert items[i] == init[i] && items[j] == if j < |init| then init[j] else last;
      }
    }
  }

  /** How one more record changes what is known of an id. */
  lemma IdStep(items: seq<Record>, n: nat, f: FieldName, id: Text)
    requires n < |items|
    ensures HasId(items[..n + 1], f, id) <==> HasId(items[..n], f, id) || AsId(items[n], f) == id
    ensures HasTwice(items[..n + 1], f, id) <==> HasTwice(items[..n], f, id) || (HasId(items[..n], f, id) && AsId(items[n], f) == id)
    ensures LastAt(items[..n + 1], f, id) == if AsId(items[n], f) == id then n else LastAt(items[..n], f, id)
  {
    assert items[..n + 1] == items[..n] + [items[n]];
    assert items[..n + 1][..n] == items[..n];
    hide AsId;
    hide HasId;
    hide HasTwice;
    HasIdStep(items[..n], items[n], f, id);
    HasTwiceStep(items[..n], items[n], f, id);
  }

  /** What the index says of one id. */
  predicate IndexesId(items: seq<Record>, f: FieldName, index: map<Text, Record>, id: Text) {
    && (id in index <==> id != [] && HasId(items, f, id))
    && (id in index ==> LastAt(items, f, id) >= 0 && index[id] == items[LastAt(items, f, id)])
  }

  ghost predicate Indexed(items: seq<Record>, f: FieldName, index: map<Text, Record>, keys: seq<Text>) {
    && (forall id :: IndexesId(items, f, index, id))
    && (forall id :: id in keys <==> id in index)
  }

  lemma IndexedAt(items: seq<Record>, n: nat, f: FieldName, index: map<Text, Record>, more: map<Text, Record>, k: Text)
    requires n < |items| && IndexesId(items[..n], f, index, k)
    requires more == if AsId(items[n], f) == [] then index else index[AsId(items[n], f) := items[n]]
    ensures IndexesId(items[..n + 1], f, more, k)
  {
    hide AsId;
    hide HasId;
    hide LastAt;
    IdStep(items, n, f, k);
  }

  lemma IndexedStep(items: seq<Record>, n: nat, f: FieldName, index: map<Text, Record>, keys: seq<Text>)
    requires n < |items| && Indexed(items[..n], f, index, keys)
    ensures var id := AsId(items[n], f);
            if id == [] then Indexed(items[..n + 1], f, index, keys)
            else Indexed(items[..n + 1], f, index[id := items[n]], if id in index then keys else keys + [id])
  {
    hide AsId;
    hide IndexesId;
    var more := if AsId(items[n], f) == [] then index else index[AsId(items[n], f) := items[n]];
    var now := items[..n + 1];
    forall k ensures IndexesId(now, f, more, k) {
      IndexedAt(items, n, f, index, more, k);
      assert now == items[..n + 1];
    }
  }

  lemma IdDueStep(items: seq<Record>, n: nat, f: FieldName, c: Collection, i: Issue)
    requires n < |items|
    ensures var id := AsId(items[n], f);
            IdDue(i, items[..n + 1], f, c)
            <==> IdDue(i, items[..n], f, c) || (id == [] && i == IdentifierMissing(c))
                 || (id != [] && HasId(items[..n], f, id) && i == DuplicateIdentifier(c, id))
  {
    hide AsId;
    hide HasId;
    hide HasTwice;
    hide LastAt;
    IdStep(items, n, f, if i.DuplicateIdentifier? then i.id else []);
  }

  method IndexById(items: seq<Record>, f: FieldName, c: Collection, before: seq<Issue>)
    returns (index: map<Text, Record>, keys: seq<Text>, issues: seq<Issue>)
    ensures Indexed(items, f, index, keys)
    ensures forall i :: i in issues <==> i in before || IdDue(i, items, f, c)
  {
    hide AsId;
    hide HasTwice;
    hide HasId;
    hide LastAt;
    hide IdDue;
    index, keys, issues := map[], [], before;
    NothingYet(f, c);
    assert items[..0] == [];
    for n := 0 to |items|
      invariant Indexed(items[..n], f, index, keys)
      invariant forall i :: i in issues <==> i in before || IdDue(i, items[..n], f, c)
    {
      IndexedStep(items, n, f, index, keys);
      forall i { IdDueStep(items, n, f, c, i); }
      var id := AsId(items[n], f);
      assert IndexesId(items[..n], f, index, id);
      if id == [] {
        issues := issues + [IdentifierMissing(c)];
        continue;
      }
      if id in index { issues := issues + [DuplicateIdentifier(c, id)]; } else { keys := keys + [id]; }
      index := index[id := items[n]];
    }
    assert items[..|items|] == items;
  }

  lemma NothingYet(f: FieldName, c: Collection)
    ensures Indexed([], f, map[], []) && forall i :: !IdDue(i, [], f, c)
  {
  }

  // ---- comparing a collection ----

  /** The index's records of an id on both sides differ in a compared field. */
  predicate Differs(bridge: seq<Record>, domain: seq<Record>, f: FieldName, fields: seq<FieldName>, id: Text) {
    var b, d := LastAt(bridge, f, id), LastAt(domain, f, id);
    b >= 0 && d >= 0 && Comparable(bridge[b], fields) != Comparable(domain[d], fields)
  }

  /** Exactly what is wrong between the two sides of a collection. */
  predicate Due(i: Issue, bridge: seq<Record>, domain: seq<Record>, f: FieldName, fields: seq<FieldName>, c: Collection) {
    IdDue(i, bridge, f, c) || IdDue(i, domain, f, c)
    || match i
       case DomainRecordMissing(d, id) => d == c && id != [] && HasId(bridge, f, id) && !HasId(domain, f, id)
       case BridgeRecordMissing(d, id) => d == c && id != [] && HasId(domain, f, id) && !HasId(bridge, f, id)
       case FieldMismatch(d, id) => d == c && id != [] && Differs(bridge, domain, f, fields, id)
       case _ => false
  }

  method CompareCollection(bridge: seq<Record>, domain: seq<Record>, f: FieldName, fields: seq<FieldName>, c: Collection,
                           before: seq<Issue>) returns (issues: seq<Issue>)
    ensures forall i :: i in issues <==> i in before || Due(i, bridge, domain, f, fields, c)
  {
    hide AsId;
    hide HasId;
    hide LastAt;
    hide Comparable;
    hide IdDue;
    var bridgeIndex, bridgeKeys, found := IndexById(bridge, f, c, before);
    var domainIndex, domainKeys, base := IndexById(domain, f, c, found);
    issues := CompareKeys(bridgeIndex, bridgeKeys, domainIndex, fields, c, base);
    issues := FindExtras(domainKeys, bridgeIndex, c, issues);
    forall i { DueByIndex(i, bridge, domain, f, fields, c, bridgeIndex, bridgeKeys, domainIndex, domainKeys); }
    hide Due;
    hide Indexed;
  }

  /** What is due, read off the two indexes. */
  lemma DueByIndex(i: Issue, bridge: seq<Record>, domain: seq<Record>, f: FieldName, fields: seq<FieldName>, c: Collection,
                   bridgeIndex: map<Text, Record>, bridgeKeys: seq<Text>, domainIndex: map<Text, Record>, domainKeys: seq<Text>)
    requires Indexed(bridge, f, bridgeIndex, bridgeKeys) && Indexed(domain, f, domainIndex, domainKeys)
    ensures Due(i, bridge, domain, f, fields, c) <==>
      || IdDue(i, bridge, f, c) || IdDue(i, domain, f, c)
      || (i.DomainRecordMissing? && i.collection == c && i.id in bridgeIndex && i.id !in domainIndex)
      || (i.FieldMismatch? && i.collection == c && i.id in bridgeIndex && i.id in domainIndex
          && Comparable(bridgeIndex[i.id], fields) != Comparable(domainIndex[i.id], fields))
      || (i.BridgeRecordMissing? && i.collection == c && i.id in domainKeys && i.id !in bridgeIndex)
  {
    hide AsId;
    hide HasId;
    hide LastAt;
    hide Comparable;
    hide IdDue;
    if i.DomainRecordMissing? || i.BridgeRecordMissing? || i.FieldMismatch? {
      assert IndexesId(bridge, f, bridgeIndex, i.id) && IndexesId(domain, f, domainIndex, i.id);
      LastAtHas(bridge, f, i.id);
      LastAtHas(domain, f, i.id);
    }
  }

  method CompareKeys(bridge: map<Text, Record>, keys: seq<Text>, domain: map<Text, Record>, fields: seq<FieldName>, c: Collection,
                     before: seq<Issue>) returns (issues: seq<Issue>)
    requires forall id :: id in keys <==> id in bridge
    ensures forall i :: i in issues <==>
      || i in before
      || (i.DomainRecordMissing? && i.collection == c && i.id in bridge && i.id !in domain)
      || (i.FieldMismatch? && i.collection == c && i.id in bridge && i.id in domain
          && Comparable(bridge[i.id], fields) != Comparable(domain[i.id], fields))
  {
    hide Comparable;
    issues := before;
    for n := 0 to |keys|
      invariant forall i :: i in issues <==>
        || i in before
        || (i.DomainRecordMissing? && i.collection == c && i.id in keys[..n] && i.id !in domain)
        || (i.FieldMismatch? && i.collection == c && i.id in keys[..n] && i.id in domain
            && Comparable(bridge[i.id], fields) != Comparable(domain[i.id], fields))
    {
      var id := keys[n];
      assert keys[..n + 1] == keys[..n] + [id];
      if id !in domain {
        issues := issues + [DomainRecordMissing(c, id)];
        continue;
      }
      if Comparable(bridge[id], fields) != Comparable(domain[id], fields) { issues := issues + [FieldMismatch(c, id)]; }
    }
    assert keys[..|keys|] == keys;
  }

  method FindExtras(keys: seq<Text>, bridge: map<Text, Record>, c: Collection, before: seq<Issue>) returns (issues: seq<Issue>)
    ensures forall i :: i in issues <==> i in before || (i.BridgeRecordMissing? && i.collection == c && i.id in keys && i.id !in bridge)
  {
    issues := before;
    for n := 0 to |keys|
      invariant forall i :: i in issues <==>
        i in before || (i.BridgeRecordMissing? && i.collection == c && i.id in keys[..n] && i.id !in bridge)
    {
      assert keys[..n + 1] == keys[..n] + [keys[n]];
      if keys[n] !in bridge { issues := issues + [BridgeRecordMissing(c, keys[n])]; }
    }
    assert keys[..|keys|] == keys;
  }

  // ---- the domain's own checks ----

  predicate Countable(read: Reader, lot: Record, f: FieldName) {
    NumberOf(read, lot, f).Some? && NumberOf(read, lot, f).value >= 0
  }

  /** Exactly what is wrong within the domain. */
  predicate DomainDue(read: Reader, i: Issue, d: Snapshot) {
    match i
    case LotAvailableInvalid(id) => exists l :: l in d.lots && AsId(l, LOT_ID) == id && !Countable(read, l, AVAILABLE_QTY)
    case LotReservedInvalid(id) => exists l :: l in d.lots && AsId(l, LOT_ID) == id && !Countable(read, l, RESERVED_QTY)
    case TradeOrderMissing(id) =>
      exists t :: t in d.trades && AsId(t, TRADE_ID) == id && !HasId(d.orders, ORDER_ID, AsId(t, ORDER_ID))
    case TradeLotMissing(id) =>
      exists t :: t in d.trades && AsId(t, TRADE_ID) == id && !HasId(d.lots, LOT_ID, AsId(t, LOT_ID))
    case TradeSnapshotHashMissing(id) => exists t :: t in d.trades && AsId(t, TRADE_ID) == id && AsId(t, SNAPSHOT_HASH) == []
    case _ => false
  }

  method CheckLots(read: Reader, lots: seq<Record>, before: seq<Issue>) returns (issues: seq<Issue>)
    ensures forall i :: i in issues <==>
      || i in before
      || (i.LotAvailableInvalid? && exists l :: l in lots && AsId(l, LOT_ID) == i.id && !Countable(read, l, AVAILABLE_QTY))
      || (i.LotReservedInvalid? && exists l :: l in lots && AsId(l, LOT_ID) == i.id && !Countable(read, l, RESERVED_QTY))
  {
    hide AsId;
    hide Countable;
    issues := before;
    for n := 0 to |lots|
      invariant forall i :: i in issues <==>
        || i in before
        || (i.LotAvailableInvalid? && exists l :: l in lots[..n] && AsId(l, LOT_ID) == i.id && !Countable(read, l, AVAILABLE_QTY))
        || (i.LotReservedInvalid? && exists l :: l in lots[..n] && AsId(l, LOT_ID) == i.id && !Countable(read, l, RESERVED_QTY))
    {
      assert lots[..n + 1] == lots[..n] + [lots[n]];
      var id := AsId(lots[n], LOT_ID);
      if !Countable(read, lots[n], AVAILABLE_QTY) { issues := issues + [LotAvailableInvalid(id)]; }
      if !Countable(read, lots[n], RESERVED_QTY) { issues := issues + [LotReservedInvalid(id)]; }
    }
    assert lots[..|lots|] == lots;
  }

  method CheckTrades(trades: seq<Record>, orderIds: set<Text>, lotIds: set<Text>, before: seq<Issue>) returns (issues: seq<Issue>)
    ensures forall i :: i in issues <==>
      || i in before
      || (i.TradeOrderMissing? && exists t :: t in trades && AsId(t, TRADE_ID) == i.id && AsId(t, ORDER_ID) !in orderIds)
      || (i.TradeLotMissing? && exists t :: t in trades && AsId(t, TRADE_ID) == i.id && AsId(t, LOT_ID) !in lotIds)
      || (i.TradeSnapshotHashMissing? && exists t :: t in trades && AsId(t, TRADE_ID) == i.id && AsId(t, SNAPSHOT_HASH) == [])
  {
    hide AsId;
    issues := before;
    for n := 0 to |trades|
      invariant forall i :: i in issues <==>
        || i in before
        || (i.TradeOrderMissing? && exists t :: t in trades[..n] && AsId(t, TRADE_ID) == i.id && AsId(t, ORDER_ID) !in orderIds)
        || (i.TradeLotMissing? && exists t :: t in trades[..n] && AsId(t, TRADE_ID) == i.id && AsId(t, LOT_ID) !in lotIds)
        || (i.TradeSnapshotHashMissing? && exists t :: t in trades[..n] && AsId(t, TRADE_ID) == i.id && AsId(t, SNAPSHOT_HASH) == [])
    {
      var t := trades[n];
      assert trades[..n + 1] == trades[..n] + [t];
      var id := AsId(t, TRADE_ID);
      if AsId(t, ORDER_ID) !in orderIds { issues := issues + [TradeOrderMissing(id)]; }
      if AsId(t, LOT_ID) !in lotIds { issues := issues + [TradeLotMissing(id)]; }
      if AsId(t, SNAPSHOT_HASH) == [] { issues := issues + [TradeSnapshotHashMissing(id)]; }
    }
    assert trades[..|trades|] == trades;
  }

  function Ids(items: seq<Record>, f: FieldName): (ids: set<Text>)
    ensures forall id :: id in ids <==> HasId(items, f, id)
  {
    set i | 0 <= i < |items| :: AsId(items[i], f)
  }

  method CheckDomainInvariants(read: Reader, d: Snapshot, before: seq<Issue>) returns (issues: seq<Issue>)
    ensures forall i :: i in issues <==> i in before || DomainDue(read, i, d)
  {
    hide AsId;
    hide HasId;
    hide Countable;
    issues := CheckLots(read, d.lots, before);
    issues := CheckTrades(d.trades, Ids(d.orders, ORDER_ID), Ids(d.lots, LOT_ID), issues);
  }

  // ---- the whole ----

  datatype Verdict = NO_REFERENCE | MISMATCH | MATCH

  predicate AnyDue(read: Reader, i: Issue, b: Snapshot, d: Snapshot) {
    Due(i, b.lots, d.lots, LOT_ID, LOT_FIELDS, LOTS) || Due(i, b.orders, d.orders, ORDER_ID, ORDER_FIELDS, ORDERS)
    || Due(i, b.trades, d.trades, TRADE_ID, TRADE_FIELDS, TRADES) || DomainDue(read, i, d)
  }

  method ReconcileDomainState(read: Reader, bridge: Option<Snapshot>, domain: Option<Snapshot>)
    returns (verdict: Verdict, issues: seq<Issue>)
    ensures bridge.None? ==> verdict == NO_REFERENCE
    ensures bridge.Some? && domain.None? ==> verdict == MISMATCH
    ensures bridge.Some? && domain.Some? ==>
      && (forall i :: i in issues <==> AnyDue(read, i, bridge.value, domain.value))
      && verdict == if Agree(read, bridge.value, domain.value) then MATCH else MISMATCH
  {
    if bridge.None? { return NO_REFERENCE, []; }
    if domain.None? { return MISMATCH, []; }
    var b, d := bridge.value, domain.value;
    hide Due;
    hide DomainDue;
    issues := CompareCollection(b.lots, d.lots, LOT_ID, LOT_FIELDS, LOTS, []);
    issues := CompareCollection(b.orders, d.orders, ORDER_ID, ORDER_FIELDS, ORDERS, issues);
    issues := CompareCollection(b.trades, d.trades, TRADE_ID, TRADE_FIELDS, TRADES, issues);
    issues := CheckDomainInvariants(read, d, issues);
    hide Agree;
    hide AnyDue;
    assert forall i :: i in issues <==> AnyDue(read, i, b, d);
    AgreeExactlyWhen(read, b, d);
    if issues != [] { assert issues[0] in issues; }
    verdict := if issues == [] then MATCH else MISMATCH;
  }

  // ---- what MATCH means ----

  /** Every record of one side has one of the same id on the other. */
  ghost predicate Covered(from: seq<Record>, to: seq<Record>, f: FieldName) {
    forall r :: r in from ==> exists p :: p in to && AsId(p, f) == AsId(r, f)
  }

  ghost predicate PartnersEqual(bridge: seq<Record>, domain: seq<Record>, f: FieldName, fields: seq<FieldName>) {
    forall b, d :: b in bridge && d in domain && AsId(b, f) == AsId(d, f) ==> Comparable(b, fields) == Comparable(d, fields)
  }

  /** Ids present and unique on each side, the same ids, and equal fields for each. */
  ghost predicate SameCollection(bridge: seq<Record>, domain: seq<Record>, f: FieldName, fields: seq<FieldName>) {
    && IdsSound(bridge, f) && IdsSound(domain, f)
    && Covered(bridge, domain, f) && Covered(domain, bridge, f) && PartnersEqual(bridge, domain, f, fields)
  }

  predicate IdsSound(items: seq<Record>, f: FieldName) {
    (forall i :: 0 <= i < |items| ==> AsId(items[i], f) != [])
    && forall i, j :: 0 <= i < j < |items| ==> AsId(items[i], f) != AsId(items[j], f)
  }

  ghost predicate DomainSound(read: Reader, d: Snapshot) {
    && (forall l :: l in d.lots ==> Countable(read, l, AVAILABLE_QTY) && Countable(read, l, RESERVED_QTY))
    && forall t :: t in d.trades ==>
         && (exists o :: o in d.orders && AsId(o, ORDER_ID) == AsId(t, ORDER_ID))
         && (exists l :: l in d.lots && AsId(l, LOT_ID) == AsId(t, LOT_ID))
         && AsId(t, SNAPSHOT_HASH) != []
  }

  ghost predicate Agree(read: Reader, b: Snapshot, d: Snapshot) {
    && SameCollection(b.lots, d.lots, LOT_ID, LOT_FIELDS) && SameCollection(b.orders, d.orders, ORDER_ID, ORDER_FIELDS)
    && SameCollection(b.trades, d.trades, TRADE_ID, TRADE_FIELDS) && DomainSound(read, d)
  }

  lemma HasIdIsMember(items: seq<Record>, f: FieldName, id: Text)
    ensures HasId(items, f, id) <==> exists r :: r in items && AsId(r, f) == id
  {
    hide AsId;
    if HasId(items, f, id) {
      var i :| 0 <= i < |items| && AsId(items[i], f) == id;
      assert items[i] in items;
    }
  }

  lemma OnlyRecordOfId(items: seq<Record>, f: FieldName, r: Record)
    requires IdsSound(items, f) && r in items
    ensures LastAt(items, f, AsId(r, f)) >= 0 && items[LastAt(items, f, AsId(r, f))] == r
  {
    hide AsId;
    LastAtHas(items, f, AsId(r, f));
    var i :| 0 <= i < |items| && items[i] == r;
    assert HasId(items, f, AsId(r, f));
    assert AsId(items[i], f) == AsId(items[LastAt(items, f, AsId(r, f))], f);
  }

  lemma IdsSoundExactlyWhen(items: seq<Record>, f: FieldName, c: Collection)
    ensures IdsSound(items, f) <==> forall i :: !IdDue(i, items, f, c)
  {
    hide AsId;
    if forall i :: !IdDue(i, items, f, c) {
      assert !IdDue(IdentifierMissing(c), items, f, c);
      forall i, j | 0 <= i < j < |items| ensures AsId(items[i], f) != AsId(items[j], f) {
        assert !IdDue(DuplicateIdentifier(c, AsId(items[i], f)), items, f, c);
      }
    }
  }

  /** Every id of one side is one of the other's. */
  ghost predicate IdsCovered(from: seq<Record>, to: seq<Record>, f: FieldName) {
    forall id :: id != [] && HasId(from, f, id) ==> HasId(to, f, id)
  }

  ghost predicate NoneDiffers(bridge: seq<Record>, domain: seq<Record>, f: FieldName, fields: seq<FieldName>) {
    forall id :: id != [] ==> !Differs(bridge, domain, f, fields, id)
  }

  lemma CoveredExactlyWhen(from: seq<Record>, to: seq<Record>, f: FieldName)
    requires IdsSound(from, f)
    ensures Covered(from, to, f) <==> IdsCovered(from, to, f)
  {
    NonEmptyIds(from, f);
    hide AsId;
    hide HasId;
    if Covered(from, to, f) {
      forall id | id != [] && HasId(from, f, id) ensures HasId(to, f, id) {
        HasIdIsMember(from, f, id);
        HasIdIsMember(to, f, id);
      }
    }
    if IdsCovered(from, to, f) {
      forall r | r in from ensures exists p :: p in to && AsId(p, f) == AsId(r, f) {
        HasIdIsMember(from, f, AsId(r, f));
        HasIdIsMember(to, f, AsId(r, f));
      }
    }
  }

  lemma EqualExactlyWhen(bridge: seq<Record>, domain: seq<Record>, f: FieldName, fields: seq<FieldName>)
    requires IdsSound(bridge, f) && IdsSound(domain, f)
    ensures PartnersEqual(bridge, domain, f, fields) <==> NoneDiffers(bridge, domain, f, fields)
  {
    NonEmptyIds(bridge, f);
    hide AsId;
    hide Comparable;
    hide HasId;
    if PartnersEqual(bridge, domain, f, fields) {
      forall id | id != [] ensures !Differs(bridge, domain, f, fields, id) {
        LastAtHas(bridge, f, id);
        LastAtHas(domain, f, id);
      }
    }
    if NoneDiffers(bridge, domain, f, fields) {
      hide Differs;
      forall b, d | b in bridge && d in domain && AsId(b, f) == AsId(d, f) ensures Comparable(b, fields) == Comparable(d, fields) {
        PartnersAgree(bridge, domain, f, fields, b, d);
      }
    }
  }

  lemma NothingDueExactlyWhen(bridge: seq<Record>, domain: seq<Record>, f: FieldName, fields: seq<FieldName>, c: Collection)
    ensures (forall i :: !Due(i, bridge, domain, f, fields, c))
            <==> (forall i :: !IdDue(i, bridge, f, c)) && (forall i :: !IdDue(i, domain, f, c))
                 && IdsCovered(bridge, domain, f) && IdsCovered(domain, bridge, f) && NoneDiffers(bridge, domain, f, fields)
  {
    hide IdDue;
    hide HasId;
    hide Differs;
    if forall i :: !Due(i, bridge, domain, f, fields, c) {
      forall i ensures !IdDue(i, bridge, f, c) && !IdDue(i, domain, f, c) { assert !Due(i, bridge, domain, f, fields, c); }
      forall id | id != [] ensures HasId(bridge, f, id) <==> HasId(domain, f, id) {
        assert !Due(DomainRecordMissing(c, id), bridge, domain, f, fields, c);
        assert !Due(BridgeRecordMissing(c, id), bridge, domain, f, fields, c);
      }
      forall id | id != [] ensures !Differs(bridge, domain, f, fields, id) {
        assert !Due(FieldMismatch(c, id), bridge, domain, f, fields, c);
      }
    }
  }

  /** A collection has no issue exactly when its two sides are the same. */
  lemma CollectionExactlyWhen(bridge: seq<Record>, domain: seq<Record>, f: FieldName, fields: seq<FieldName>, c: Collection)
    ensures SameCollection(bridge, domain, f, fields) <==> forall i :: !Due(i, bridge, domain, f, fields, c)
  {
    NothingDueExactlyWhen(bridge, domain, f, fields, c);
    IdsSoundExactlyWhen(bridge, f, c);
    IdsSoundExactlyWhen(domain, f, c);
    hide Due;
    hide IdDue;
    hide IdsCovered;
    hide NoneDiffers;
    hide Covered;
    hide PartnersEqual;
    hide IdsSound;
    if IdsSound(bridge, f) && IdsSound(domain, f) {
      CoveredExactlyWhen(bridge, domain, f);
      CoveredExactlyWhen(domain, bridge, f);
      EqualExactlyWhen(bridge, domain, f, fields);
    }
  }

  lemma PartnersAgree(bridge: seq<Record>, domain: seq<Record>, f: FieldName, fields: seq<FieldName>, b: Record, d: Record)
    requires IdsSound(bridge, f) && IdsSound(domain, f) && b in bridge && d in domain && AsId(b, f) == AsId(d, f)
    requires !Differs(bridge, domain, f, fields, AsId(b, f))
    ensures Comparable(b, fields) == Comparable(d, fields)
  {
    hide AsId;
    hide Comparable;
    OnlyRecordOfId(bridge, f, b);
    OnlyRecordOfId(domain, f, d);
  }

  lemma NonEmptyIds(items: seq<Record>, f: FieldName)
    requires IdsSound(items, f)
    ensures forall r :: r in items ==> AsId(r, f) != []
  {
    hide AsId;
  }

  lemma DomainExactlyWhen(read: Reader, d: Snapshot)
    ensures DomainSound(read, d) <==> forall i :: !DomainDue(read, i, d)
  {
    hide AsId;
    hide Countable;
    hide HasId;
    forall t | t in d.trades
      ensures HasId(d.orders, ORDER_ID, AsId(t, ORDER_ID)) <==> exists o :: o in d.orders && AsId(o, ORDER_ID) == AsId(t, ORDER_ID)
      ensures HasId(d.lots, LOT_ID, AsId(t, LOT_ID)) <==> exists l :: l in d.lots && AsId(l, LOT_ID) == AsId(t, LOT_ID)
    {
      HasIdIsMember(d.orders, ORDER_ID, AsId(t, ORDER_ID));
      HasIdIsMember(d.lots, LOT_ID, AsId(t, LOT_ID));
    }
    if forall i :: !DomainDue(read, i, d) {
      forall l | l in d.lots ensures Countable(read, l, AVAILABLE_QTY) && Countable(read, l, RESERVED_QTY) {
        assert !DomainDue(read, LotAvailableInvalid(AsId(l, LOT_ID)), d);
        assert !DomainDue(read, LotReservedInvalid(AsId(l, LOT_ID)), d);
      }
      forall t | t in d.trades
        ensures HasId(d.orders, ORDER_ID, AsId(t, ORDER_ID)) && HasId(d.lots, LOT_ID, AsId(t, LOT_ID)) && AsId(t, SNAPSHOT_HASH) != []
      {
        assert !DomainDue(read, TradeOrderMissing(AsId(t, TRADE_ID)), d);
        assert !DomainDue(read, TradeLotMissing(AsId(t, TRADE_ID)), d);
        assert !DomainDue(read, TradeSnapshotHashMissing(AsId(t, TRADE_ID)), d);
      }
    }
  }

  /** MATCH means agreement: nothing is due exactly when, in every collection, ids are present
      and unique on both sides, the id sets are equal and the compared fields agree, and the
      domain's own checks hold. */
  lemma AgreeExactlyWhen(read: Reader, b: Snapshot, d: Snapshot)
    ensures Agree(read, b, d) <==> forall i :: !AnyDue(read, i, b, d)
  {
    hide SameCollection;
    hide DomainSound;
    hide Due;
    hide DomainDue;
    CollectionExactlyWhen(b.lots, d.lots, LOT_ID, LOT_FIELDS, LOTS);
    CollectionExactlyWhen(b.orders, d.orders, ORDER_ID, ORDER_FIELDS, ORDERS);
    CollectionExactlyWhen(b.trades, d.trades, TRADE_ID, TRADE_FIELDS, TRADES);
    DomainExactlyWhen(read, d);
    if forall i :: !AnyDue(read, i, b, d) {
      forall i
        ensures !Due(i, b.lots, d.lots, LOT_ID, LOT_FIELDS, LOTS) && !Due(i, b.orders, d.orders, ORDER_ID, ORDER_FIELDS, ORDERS)
        ensures !Due(i, b.trades, d.trades, TRADE_ID, TRADE_FIELDS, TRADES) && !DomainDue(read, i, d)
      {
        assert !AnyDue(read, i, b, d);
      }
    }
  }
}
