/** The price feed of beta-app/price-feed.mjs: a store that keeps the first observation of each
    identity, the index over it, and the trend of the index's own sample. */
module PriceFeed {
  import opened Texts
  import opened Wrappers
  import opened PriceIndex

  datatype Code =
    PRICE_SOURCE_NOT_ALLOWED | PRICE_OBSERVATION_REQUIRED | PRICE_OBSERVATION_INVALID | PRICE_OBSERVATION_UNIT_MISMATCH

  // ---- validation ----

  function Identity(o: Observation): Text {
    if o.tradeId != [] then o.tradeId else if o.quoteId != [] then o.quoteId else o.sourceId
  }

  predicate RequiredGiven(source: Source, o: Observation) {
    match source
    case COMPLETED_PHYSICAL_TRADE =>
      o.tradeId != [] && o.specId != [] && o.supplierId != [] && o.price != Absent && o.quantity != Absent
      && o.quantityUnit != [] && o.priceUnit != [] && o.currency != [] && o.fulfilledAt != Absent && o.evidenceStatus != []
    case SUPPLIER_QUOTE =>
      o.quoteId != [] && o.specId != [] && o.supplierId != [] && o.price != Absent && o.quantity != Absent
      && o.quantityUnit != [] && o.priceUnit != [] && o.currency != [] && o.evidenceStatus != [] && o.othersGiven
    case PUBLIC_REFERENCE => o.sourceId != [] && o.othersGiven
    case NOT_ALLOWED => false
  }

  /** An accepted observation always has an identity: each source requires one of its ids. */
  function Refusal(source: Source, o: Observation): (r: Option<Code>)
    ensures r == None ==> Identity(o) != []
  {
    if source == NOT_ALLOWED then Some(PRICE_SOURCE_NOT_ALLOWED)
    else if !RequiredGiven(source, o) then Some(PRICE_OBSERVATION_INVALID)
    else if source != PUBLIC_REFERENCE && (o.currency != KRW || o.priceUnit != KRW_PER_KG || o.quantityUnit != KG)
    then Some(PRICE_OBSERVATION_UNIT_MISMATCH)
    else None
  }

  // ---- the store: a map by identity, in insertion order ----

  predicate Known(store: seq<Observation>, id: Text) {
    exists i :: 0 <= i < |store| && Identity(store[i]) == id
  }

  predicate IdentitiesDiffer(store: seq<Observation>) {
    forall i, j :: 0 <= i < j < |store| ==> Identity(store[i]) != Identity(store[j])
  }

  function Kept(store: seq<Observation>, source: Source, o: Observation): seq<Observation> {
    if Known(store, Identity(o)) then store else store + [o.(source := source)]
  }

  /** The store after a batch: a refused observation stops it, and what came before stays. */
  function Ingested(store: seq<Observation>, source: Source, batch: seq<Observation>): seq<Observation>
    decreases |batch|
  {
    if batch == [] || Refusal(source, batch[0]).Some? then store
    else Ingested(Kept(store, source, batch[0]), source, batch[1..])
  }

  function FirstRefusal(source: Source, batch: seq<Observation>): Option<Code> {
    if batch == [] then None
    else
      var r := Refusal(source, batch[0]);
      if r.Some? then r else FirstRefusal(source, batch[1..])
  }

  class Feed {
    var observations: seq<Observation>
    const publicationApproved: bool

    constructor (approved: bool)
      ensures observations == [] && publicationApproved == approved
    {
      observations, publicationApproved := [], approved;
    }

    method Ingest(source: Source, batch: seq<Observation>) returns (refused: Option<Code>, accepted: nat)
      modifies this
      ensures source == NOT_ALLOWED ==> refused == Some(PRICE_SOURCE_NOT_ALLOWED) && observations == old(observations)
      ensures source != NOT_ALLOWED && batch == [] ==>
        refused == Some(PRICE_OBSERVATION_REQUIRED) && observations == old(observations)
      ensures source != NOT_ALLOWED && batch != [] ==>
        refused == FirstRefusal(source, batch) && observations == Ingested(old(observations), source, batch)
      ensures accepted == |observations| - |old(observations)|
    {
      hide RequiredGiven;
      if source == NOT_ALLOWED { return Some(PRICE_SOURCE_NOT_ALLOWED), 0; }
      if batch == [] { return Some(PRICE_OBSERVATION_REQUIRED), 0; }
      accepted := 0;
      for n := 0 to |batch|
        invariant Ingested(observations, source, batch[n..]) == Ingested(old(observations), source, batch)
        invariant FirstRefusal(source, batch[n..]) == FirstRefusal(source, batch)
        invariant accepted == |observations| - |old(observations)|
      {
        assert batch[n..][0] == batch[n] && batch[n..][1..] == batch[n + 1..];
        var r := Refusal(source, batch[n]);
        if r.Some? { return r, accepted; }
        if !Known(observations, Identity(batch[n])) {
          observations := observations + [batch[n].(source := source)];
          accepted := accepted + 1;
        }
      }
      refused := None;
    }
  }

  lemma {:induction false} IngestedGrows(store: seq<Observation>, source: Source, batch: seq<Observation>)
    requires IdentitiesDiffer(store)
    ensures store <= Ingested(store, source, batch) && IdentitiesDiffer(Ingested(store, source, batch))
    decreases |batch|
  {
    if batch != [] && Refusal(source, batch[0]).None? {
      IngestedGrows(Kept(store, source, batch[0]), source, batch[1..]);
    }
  }

  lemma KnownStays(store: seq<Observation>, more: seq<Observation>, id: Text)
    requires store <= more && Known(store, id)
    ensures Known(more, id)
  {
  }

  /** Every observation of a batch up to the first refused one is known afterwards. */
  lemma {:induction false} BatchKnown(store: seq<Observation>, source: Source, batch: seq<Observation>)
    requires IdentitiesDiffer(store) && FirstRefusal(source, batch) == None
    ensures forall i :: 0 <= i < |batch| ==> Known(Ingested(store, source, batch), Identity(batch[i]))
    decreases |batch|
  {
    if batch != [] {
      var first := Kept(store, source, batch[0]);
      assert Known(first, Identity(batch[0])) by {
        if !Known(store, Identity(batch[0])) { assert Identity(first[|store|]) == Identity(batch[0]); }
      }
      BatchKnown(first, source, batch[1..]);
      IngestedGrows(first, source, batch[1..]);
      KnownStays(first, Ingested(first, source, batch[1..]), Identity(batch[0]));
    }
  }

  lemma {:induction false} KnownIsIgnored(store: seq<Observation>, source: Source, batch: seq<Observation>)
    requires forall i :: 0 <= i < |batch| ==> Known(store, Identity(batch[i]))
    ensures Ingested(store, source, batch) == store
    decreases |batch|
  {
    if batch != [] { KnownIsIgnored(store, source, batch[1..]); }
  }

  /** Whatever is ingested in between, ingesting a batch again, from any source and with any
      other prices under the same identities, changes nothing. */
  lemma ReingestChangesNothing(store: seq<Observation>, source: Source, batch: seq<Observation>, other: Source, middle: seq<Observation>,
                               again: Source, repeated: seq<Observation>)
    requires IdentitiesDiffer(store) && FirstRefusal(source, batch) == None
    requires |repeated| == |batch| && forall i :: 0 <= i < |batch| ==> Identity(repeated[i]) == Identity(batch[i])
    ensures var now := Ingested(Ingested(store, source, batch), other, middle); Ingested(now, again, repeated) == now
  {
    var first := Ingested(store, source, batch);
    IngestedGrows(store, source, batch);
    BatchKnown(store, source, batch);
    IngestedGrows(first, other, middle);
    var now := Ingested(first, other, middle);
    forall i | 0 <= i < |repeated| ensures Known(now, Identity(repeated[i])) {
      KnownStays(first, now, Identity(batch[i]));
    }
    KnownIsIgnored(now, again, repeated);
  }

  /** The store after any number of batches. */
  datatype Batch = Batch(source: Source, observations: seq<Observation>)

  function StoreOf(batches: seq<Batch>): seq<Observation> {
    if batches == [] then []
    else
      var last := batches[|batches| - 1];
      Ingested(StoreOf(batches[..|batches| - 1]), last.source, last.observations)
  }

  lemma {:induction false} StoresAreMaps(batches: seq<Batch>)
    ensures IdentitiesDiffer(StoreOf(batches))
  {
    if batches != [] {
      var last := batches[|batches| - 1];
      StoresAreMaps(batches[..|batches| - 1]);
      IngestedGrows(StoreOf(batches[..|batches| - 1]), last.source, last.observations);
    }
  }

  // ---- the trend ----

  /** The observations whose trade id the index lists. */
  function Sample(store: seq<Observation>, provenance: seq<Text>): (r: seq<Observation>)
    ensures forall o :: o in r <==> o in store && o.tradeId in provenance
  {
    if store == [] then []
    else
      assert store == [store[0]] + store[1..];
      (if store[0].tradeId in provenance then [store[0]] else []) + Sample(store[1..], provenance)
  }

  function DateOf(o: Observation): int {
    if o.fulfilledAt.Is? then o.fulfilledAt.value else 0
  }

  function InsertByDate(o: Observation, sorted: seq<Observation>): (r: seq<Observation>)
    ensures multiset(r) == multiset{o} + multiset(sorted)
  {
    if sorted == [] || DateOf(o) <= DateOf(sorted[0]) then [o] + sorted
    else
      assert sorted == [sorted[0]] + sorted[1..];
      [sorted[0]] + InsertByDate(o, sorted[1..])
  }

  /** Stable: equal dates keep their order. */
  function ByDate(sample: seq<Observation>): (r: seq<Observation>)
    ensures multiset(r) == multiset(sample)
  {
    if sample == [] then []
    else
      assert sample == [sample[0]] + sample[1..];
      InsertByDate(sample[0], ByDate(sample[1..]))
  }

  predicate DatesRise(sorted: seq<Observation>) {
    forall i, j :: 0 <= i < j < |sorted| ==> DateOf(sorted[i]) <= DateOf(sorted[j])
  }

  /** The observations of one date, in their order. */
  function OnDate(sample: seq<Observation>, date: int): seq<Observation> {
    if sample == [] then [] else (if DateOf(sample[0]) == date then [sample[0]] else []) + OnDate(sample[1..], date)
  }

  lemma InsertedIsMember(o: Observation, sorted: seq<Observation>, i: nat)
    requires i < |InsertByDate(o, sorted)|
    ensures InsertByDate(o, sorted)[i] == o || InsertByDate(o, sorted)[i] in sorted
  {
    var r := InsertByDate(o, sorted);
    assert r[i] in multiset(r);
    assert r[i] in multiset{o} || r[i] in multiset(sorted);
  }

  lemma {:induction false} InsertSortsByDate(o: Observation, sorted: seq<Observation>)
    requires DatesRise(sorted)
    ensures DatesRise(InsertByDate(o, sorted))
  {
    if sorted != [] && DateOf(o) > DateOf(sorted[0]) {
      var rest := InsertByDate(o, sorted[1..]);
      InsertSortsByDate(o, sorted[1..]);
      forall i: nat | i < |rest| ensures DateOf(sorted[0]) <= DateOf(rest[i]) { InsertedIsMember(o, sorted[1..], i); }
    }
  }

  /** No observation of a later date comes first, and those of one date keep their order. */
  lemma {:induction false} ByDateSortsStably(sample: seq<Observation>, date: int)
    ensures DatesRise(ByDate(sample)) && OnDate(ByDate(sample), date) == OnDate(sample, date)
  {
    if sample != [] {
      ByDateSortsStably(sample[1..], date);
      InsertSortsByDate(sample[0], ByDate(sample[1..]));
      InsertIsStable(sample[0], ByDate(sample[1..]), date);
    }
  }

  lemma OnDateOf(o: Observation, rest: seq<Observation>, date: int)
    ensures OnDate([o] + rest, date) == (if DateOf(o) == date then [o] else []) + OnDate(rest, date)
  {
    assert ([o] + rest)[1..] == rest;
  }

  lemma {:induction false} InsertIsStable(o: Observation, sorted: seq<Observation>, date: int)
    ensures OnDate(InsertByDate(o, sorted), date) == OnDate([o] + sorted, date)
  {
    hide OnDate;
    if sorted != [] && DateOf(o) > DateOf(sorted[0]) {
      var first, rest := sorted[0], sorted[1..];
      InsertIsStable(o, rest, date);
      OnDateOf(first, InsertByDate(o, rest), date);
      OnDateOf(o, rest, date);
      OnDateOf(first, rest, date);
      OnDateOf(o, sorted, date);
      assert InsertByDate(o, sorted) == [first] + InsertByDate(o, rest) && sorted == [first] + rest;
      hide InsertByDate;
    }
  }

  lemma SameMembers(a: seq<Observation>, b: seq<Observation>)
    requires multiset(a) == multiset(b)
    ensures |a| == |b| && forall o :: o in a <==> o in b
  {
    assert |a| == |multiset(a)| && |b| == |multiset(b)|;
    forall o ensures o in a <==> o in b {
      assert o in a <==> o in multiset(a);
      assert o in b <==> o in multiset(b);
    }
  }

  lemma WeighedIfMembers(a: seq<Observation>, b: seq<Observation>)
    requires Weighed(a) && forall o :: o in b ==> o in a
    ensures Weighed(b)
  {
    forall i | 0 <= i < |b|
      ensures b[i].price.Is? && b[i].price.value > 0 && b[i].quantity.Is? && b[i].quantity.value > 0
    {
      assert b[i] in b;
      var j :| 0 <= j < |a| && a[j] == b[i];
    }
  }

  datatype Direction = UPWARD | STABLE | DOWNWARD

  /** toFixed(2), in hundredths: halves away from zero. */
  function Hundredths(x: real): int {
    if x >= 0.0 then Round(x * 100.0) else -Round(-x * 100.0)
  }

  function ChangePct(first: real, last: real): int
    requires first != 0.0
  {
    Hundredths((last - first) / first * 100.0)
  }

  function DirectionOf(changePct: int): Direction {
    if changePct > 100 then UPWARD else if changePct < -100 then DOWNWARD else STABLE
  }

  function Midpoint(n: nat): (m: nat)
    ensures n >= 2 ==> 1 <= m < n
  {
    if n / 2 < 1 then 1 else n / 2
  }

  function Trend(sample: seq<Observation>): Direction
    requires Weighed(sample) && |sample| >= 2
  {
    var m := Midpoint(|sample|);
    var first, last := Average(sample[..m]), Average(sample[m..]);
    AveragePositive(sample[..m]);
    DirectionOf(ChangePct(first, last))
  }

  lemma AveragePositive(sample: seq<Observation>)
    requires Weighed(sample) && sample != []
    ensures Average(sample) > 0.0
  {
    TurnoverAtLeast(sample);
    DivideBoth(1.0, Turnover(sample) as real, Quantities(sample) as real);
  }

  lemma {:induction false} TurnoverAtLeast(sample: seq<Observation>)
    requires Weighed(sample)
    ensures Turnover(sample) >= Quantities(sample)
  {
    if sample != [] {
      TurnoverAtLeast(sample[1..]);
      assert (sample[0].price.value - 1) * sample[0].quantity.value >= 0;
    }
  }

  datatype Shown =
    | NotAvailable(index: Index)
    | PendingHumanApproval
    | Published(value: int, confidence: int, direction: Direction)

  /** What the public is told. */
  function Calculate(store: seq<Observation>, approved: bool, specId: Text, now: Instant): Shown
    requires IdentitiesDiffer(store)
  {
    var index := CalculatePriceIndex(store, specId, now);
    if !index.Available? then NotAvailable(index)
    else if !approved then PendingHumanApproval
    else
      TrendSampleIsIndexSample(store, specId, now);
      TrendIsDefined(store, specId, now);
      Published(index.value, index.confidence, Trend(ByDate(Sample(store, index.provenance))))
  }

  lemma {:induction false} SampleIsEligible(store: seq<Observation>, whole: seq<Observation>, specId: Text, cutoff: Instant)
    requires IdentitiesDiffer(whole) && forall o :: o in store ==> o in whole
    ensures Sample(store, TradeIds(Eligible(whole, specId, cutoff))) == Eligible(store, specId, cutoff)
  {
    if store != [] {
      var o, sample := store[0], Eligible(whole, specId, cutoff);
      var ids := TradeIds(sample);
      assert o in whole;
      assert forall p :: p in store[1..] ==> p in store;
      SampleIsEligible(store[1..], whole, specId, cutoff);
      if ValidObservation(o, specId, cutoff) {
        assert o in sample;
        var i :| 0 <= i < |sample| && sample[i] == o;
        assert ids[i] == o.tradeId;
      }
      if o.tradeId in ids {
        var i :| 0 <= i < |ids| && ids[i] == o.tradeId;
        assert sample[i] in sample;
        SameIdentity(whole, o, sample[i]);
      }
    }
  }

  lemma SameIdentity(whole: seq<Observation>, o: Observation, p: Observation)
    requires IdentitiesDiffer(whole) && o in whole && p in whole && p.tradeId != [] && o.tradeId == p.tradeId
    ensures o == p
  {
  }

  /** The trend is computed on exactly the observations the index was. */
  lemma TrendSampleIsIndexSample(store: seq<Observation>, specId: Text, now: Instant)
    requires IdentitiesDiffer(store)
    ensures var index := CalculatePriceIndex(store, specId, now);
            index.Available? ==> Sample(store, index.provenance) == Eligible(store, specId, now - LOOKBACK)
  {
    SampleIsEligible(store, store, specId, now - LOOKBACK);
  }

  lemma TrendIsDefined(store: seq<Observation>, specId: Text, now: Instant)
    requires CalculatePriceIndex(store, specId, now).Available?
    ensures Weighed(ByDate(Eligible(store, specId, now - LOOKBACK))) && |ByDate(Eligible(store, specId, now - LOOKBACK))| >= 3
  {
    var sample := Eligible(store, specId, now - LOOKBACK);
    EligibleIsWeighed(store, specId, now - LOOKBACK);
    SameMembers(ByDate(sample), sample);
    WeighedIfMembers(sample, ByDate(sample));
  }

  function PriceOf(o: Observation): int {
    if o.price.Is? then o.price.value else 0
  }

  /** Prices, upside down for a falling market. */
  function Signed(up: bool, o: Observation): int {
    if up then PriceOf(o) else -PriceOf(o)
  }

  predicate PricesMove(up: bool, sample: seq<Observation>) {
    forall i, j :: 0 <= i < j < |sample| ==> Signed(up, sample[i]) <= Signed(up, sample[j])
  }

  lemma RiseIsNotDown(first: real, last: real)
    requires 0.0 < first <= last
    ensures DirectionOf(ChangePct(first, last)) != DOWNWARD
    ensures DirectionOf(ChangePct(last, first)) != UPWARD
  {
  }

  lemma PricesOrdered(up: bool, sample: seq<Observation>)
    requires Weighed(sample) && PricesMove(up, sample)
    ensures forall i, j :: 0 <= i < j < |sample| ==>
      if up then sample[i].price.value <= sample[j].price.value else sample[i].price.value >= sample[j].price.value
  {
    assert forall i :: 0 <= i < |sample| ==> Signed(up, sample[i]) == if up then sample[i].price.value else -sample[i].price.value;
  }

  lemma RisingIsNotDown(sample: seq<Observation>)
    requires Weighed(sample) && |sample| >= 2 && PricesMove(true, sample)
    ensures Trend(sample) != DOWNWARD
  {
    var m := Midpoint(|sample|);
    PricesOrdered(true, sample);
    hide PricesMove;
    AveragePositive(sample[..m]);
    AverageBetween(sample[..m], sample[0].price.value, sample[m - 1].price.value);
    AverageBetween(sample[m..], sample[m].price.value, sample[|sample| - 1].price.value);
    hide Average;
    hide ChangePct;
    RiseIsNotDown(Average(sample[..m]), Average(sample[m..]));
  }

  lemma FallingIsNotUp(sample: seq<Observation>)
    requires Weighed(sample) && |sample| >= 2 && PricesMove(false, sample)
    ensures Trend(sample) != UPWARD
  {
    var m := Midpoint(|sample|);
    PricesOrdered(false, sample);
    hide PricesMove;
    AveragePositive(sample[m..]);
    AverageBetween(sample[..m], sample[m - 1].price.value, sample[0].price.value);
    AverageBetween(sample[m..], sample[|sample| - 1].price.value, sample[m].price.value);
    hide Average;
    hide ChangePct;
    RiseIsNotDown(Average(sample[m..]), Average(sample[..m]));
  }

  // ---- what the public is told when prices move one way ----

  /** Whether the price of p does not turn back after o, whichever of them is dated first; o was
      stored first, so it is the first of two with one date. */
  predicate Onward(up: bool, o: Observation, p: Observation) {
    if DateOf(o) <= DateOf(p) then Signed(up, o) <= Signed(up, p) else Signed(up, p) <= Signed(up, o)
  }

  /** As time goes on prices never fall, or never rise. */
  predicate NeverTurns(up: bool, sample: seq<Observation>) {
    forall i, j :: 0 <= i < j < |sample| ==> Onward(up, sample[i], sample[j])
  }

  lemma {:induction false} InsertKeepsMove(up: bool, o: Observation, sorted: seq<Observation>)
    requires PricesMove(up, sorted) && DatesRise(sorted) && forall p :: p in sorted ==> Onward(up, o, p)
    ensures PricesMove(up, InsertByDate(o, sorted))
  {
    hide Signed;
    if sorted != [] && DateOf(o) > DateOf(sorted[0]) {
      var first, rest := sorted[0], InsertByDate(o, sorted[1..]);
      InsertKeepsMove(up, o, sorted[1..]);
      assert first in sorted && Onward(up, o, first);
      forall i: nat | i < |rest| ensures Signed(up, first) <= Signed(up, rest[i]) { InsertedIsMember(o, sorted[1..], i); }
      assert InsertByDate(o, sorted) == [first] + rest;
      hide InsertByDate;
    } else {
      assert InsertByDate(o, sorted) == [o] + sorted;
      hide InsertByDate;
      forall i: nat | i < |sorted| ensures Signed(up, o) <= Signed(up, sorted[i]) {
        assert sorted[i] in sorted;
        if i > 0 { assert Signed(up, sorted[0]) <= Signed(up, sorted[i]); }
        assert Onward(up, o, sorted[0]) by { assert sorted[0] in sorted; }
      }
    }
  }

  lemma {:induction false} ByDateMoves(up: bool, sample: seq<Observation>)
    requires NeverTurns(up, sample)
    ensures PricesMove(up, ByDate(sample))
  {
    hide Onward;
    hide PricesMove;
    if sample == [] {
      EmptyMoves(up);
    } else {
      var rest := sample[1..];
      ByDateMoves(up, rest);
      ByDateSortsStably(rest, 0);
      SameMembers(ByDate(rest), rest);
      forall p | p in ByDate(rest) ensures Onward(up, sample[0], p) {
        var j :| 0 <= j < |rest| && rest[j] == p;
        assert sample[j + 1] == p;
      }
      InsertKeepsMove(up, sample[0], ByDate(rest));
    }
  }

  lemma EmptyMoves(up: bool)
    ensures PricesMove(up, [])
  {
  }

  /** What the index and the trend are computed on. */
  function Basis(store: seq<Observation>, specId: Text, now: Instant): seq<Observation> {
    Eligible(store, specId, now - LOOKBACK)
  }

  /** Published on prices that never fall with time, the direction is never DOWNWARD; on prices
      that never rise it is never UPWARD. */
  lemma MonotonePricesMonotoneTrend(batches: seq<Batch>, specId: Text, now: Instant)
    ensures var store := StoreOf(batches);
            && IdentitiesDiffer(store)
            && var shown := Calculate(store, true, specId, now);
               shown.Published? ==>
                 && (NeverTurns(true, Basis(store, specId, now)) ==> shown.direction != DOWNWARD)
                 && (NeverTurns(false, Basis(store, specId, now)) ==> shown.direction != UPWARD)
  {
    var store := StoreOf(batches);
    StoresAreMaps(batches);
    var sample := Basis(store, specId, now);
    if Calculate(store, true, specId, now).Published? {
      TrendSampleIsIndexSample(store, specId, now);
      TrendIsDefined(store, specId, now);
      hide Trend;
      hide NeverTurns;
      hide PricesMove;
      if NeverTurns(true, sample) {
        ByDateMoves(true, sample);
        RisingIsNotDown(ByDate(sample));
      }
      if NeverTurns(false, sample) {
        ByDateMoves(false, sample);
        FallingIsNotUp(ByDate(sample));
      }
    }
  }

  // ---- the source is not looked at ----

  function Unsourced(store: seq<Observation>): (r: seq<Observation>)
    ensures |r| == |store|
  {
    seq(|store|, i requires 0 <= i < |store| => store[i].(source := NOT_ALLOWED))
  }

  lemma UnsourcedParts(store: seq<Observation>)
    requires store != []
    ensures Unsourced(store)[0] == store[0].(source := NOT_ALLOWED) && Unsourced(store)[1..] == Unsourced(store[1..])
    ensures Unsourced(store) == [store[0].(source := NOT_ALLOWED)] + Unsourced(store[1..])
  {
  }

  lemma {:induction false} EligibleUnsourced(store: seq<Observation>, specId: Text, cutoff: Instant)
    ensures Eligible(Unsourced(store), specId, cutoff) == Unsourced(Eligible(store, specId, cutoff))
  {
    if store != [] {
      UnsourcedParts(store);
      EligibleUnsourced(store[1..], specId, cutoff);
      var rest := Eligible(store[1..], specId, cutoff);
      if ValidObservation(store[0], specId, cutoff) {
        UnsourcedParts([store[0]] + rest);
        assert ([store[0]] + rest)[1..] == rest;
      }
    }
  }

  lemma {:induction false} SumsUnsourced(sample: seq<Observation>)
    requires Weighed(sample)
    ensures Weighed(Unsourced(sample)) && Turnover(Unsourced(sample)) == Turnover(sample)
    ensures Quantities(Unsourced(sample)) == Quantities(sample)
  {
    if sample != [] {
      UnsourcedParts(sample);
      SumsUnsourced(sample[1..]);
    }
  }

  lemma {:induction false} SampleUnsourced(store: seq<Observation>, provenance: seq<Text>)
    ensures Sample(Unsourced(store), provenance) == Unsourced(Sample(store, provenance))
  {
    if store != [] {
      UnsourcedParts(store);
      SampleUnsourced(store[1..], provenance);
      var rest := Sample(store[1..], provenance);
      if store[0].tradeId in provenance {
        UnsourcedParts([store[0]] + rest);
        assert ([store[0]] + rest)[1..] == rest;
      }
    }
  }

  lemma {:induction false} InsertUnsourced(o: Observation, sorted: seq<Observation>)
    ensures InsertByDate(o.(source := NOT_ALLOWED), Unsourced(sorted)) == Unsourced(InsertByDate(o, sorted))
  {
    if sorted == [] || DateOf(o) <= DateOf(sorted[0]) {
      UnsourcedParts([o] + sorted);
      assert ([o] + sorted)[1..] == sorted;
    } else {
      UnsourcedParts(sorted);
      InsertUnsourced(o, sorted[1..]);
      UnsourcedParts(InsertByDate(o, sorted));
      assert InsertByDate(o, sorted)[1..] == InsertByDate(o, sorted[1..]);
    }
  }

  lemma {:induction false} ByDateUnsourced(sample: seq<Observation>)
    ensures ByDate(Unsourced(sample)) == Unsourced(ByDate(sample))
  {
    if sample != [] {
      UnsourcedParts(sample);
      ByDateUnsourced(sample[1..]);
      InsertUnsourced(sample[0], ByDate(sample[1..]));
    }
  }

  lemma IndexUnsourced(store: seq<Observation>, specId: Text, now: Instant)
    ensures CalculatePriceIndex(Unsourced(store), specId, now) == CalculatePriceIndex(store, specId, now)
  {
    var sample := Eligible(store, specId, now - LOOKBACK);
    EligibleUnsourced(store, specId, now - LOOKBACK);
    EligibleIsWeighed(store, specId, now - LOOKBACK);
    SumsUnsourced(sample);
    assert TradeIds(Unsourced(sample)) == TradeIds(sample);
    assert Suppliers(Unsourced(sample)) == Suppliers(sample) by {
      forall t ensures t in Suppliers(Unsourced(sample)) <==> t in Suppliers(sample) {
        if t in Suppliers(sample) {
          var i :| 0 <= i < |sample| && sample[i].supplierId == t;
          assert Unsourced(sample)[i].supplierId == t;
        }
      }
    }
  }

  lemma TrendUnsourced(sample: seq<Observation>)
    requires Weighed(sample) && |sample| >= 2
    ensures Weighed(Unsourced(sample)) && Trend(Unsourced(sample)) == Trend(sample)
  {
    var m := Midpoint(|sample|);
    SumsUnsourced(sample);
    SumsUnsourced(sample[..m]);
    SumsUnsourced(sample[m..]);
    assert Unsourced(sample)[..m] == Unsourced(sample[..m]) && Unsourced(sample)[m..] == Unsourced(sample[m..]);
    AveragePositive(sample[..m]);
    hide ChangePct;
  }

  lemma UnsourcedIdentities(store: seq<Observation>)
    requires IdentitiesDiffer(store)
    ensures IdentitiesDiffer(Unsourced(store))
  {
    assert forall i :: 0 <= i < |store| ==> Identity(Unsourced(store)[i]) == Identity(store[i]);
  }

  lemma ShownTrend(store: seq<Observation>, specId: Text, now: Instant)
    requires IdentitiesDiffer(store) && CalculatePriceIndex(store, specId, now).Available?
    ensures var sorted := ByDate(Basis(store, specId, now));
            && Weighed(sorted) && |sorted| >= 3
            && var index := CalculatePriceIndex(store, specId, now);
               Calculate(store, true, specId, now) == Published(index.value, index.confidence, Trend(sorted))
  {
    TrendSampleIsIndexSample(store, specId, now);
    TrendIsDefined(store, specId, now);
    hide Trend;
    hide CalculatePriceIndex;
  }

  /** What the public is told does not depend on where any observation came from. */
  lemma SourceIsNotChecked(store: seq<Observation>, approved: bool, specId: Text, now: Instant)
    requires IdentitiesDiffer(store)
    ensures IdentitiesDiffer(Unsourced(store))
    ensures Calculate(Unsourced(store), approved, specId, now) == Calculate(store, approved, specId, now)
  {
    UnsourcedIdentities(store);
    IndexUnsourced(store, specId, now);
    hide CalculatePriceIndex;
    if CalculatePriceIndex(store, specId, now).Available? && approved {
      ShownTrend(store, specId, now);
      ShownTrend(Unsourced(store), specId, now);
      EligibleUnsourced(store, specId, now - LOOKBACK);
      ByDateUnsourced(Basis(store, specId, now));
      TrendUnsourced(ByDate(Basis(store, specId, now)));
      hide Trend;
      hide Calculate;
    }
  }

  /** A supplier's quote that carries a trade id and the marks of a completed trade. */
  function Quote(id: Text, supplier: Text): Observation {
    Observation(SUPPLIER_QUOTE, id, Lit("Q"), [], Lit("S"), supplier, Is(21800), Is(20), KRW, KRW_PER_KG, KG, FULFILLED, VALID, Is(0), true)
  }

  const QUOTES: seq<Observation> := [Quote(Lit("A"), Lit("X")), Quote(Lit("B"), Lit("Y")), Quote(Lit("C"), Lit("X"))]

  lemma QuoteIsEligible(id: Text, supplier: Text)
    requires id != [] && supplier != []
    ensures Refusal(SUPPLIER_QUOTE, Quote(id, supplier)) == None && ValidObservation(Quote(id, supplier), Lit("S"), 0 - LOOKBACK)
    ensures Identity(Quote(id, supplier)) == id
  {
    assert Lit("S")[0] == 83 && Lit("Q")[0] == 81 && KRW[0] == 75 && KRW_PER_KG[0] == 75 && KG[0] == 75 && VALID[0] == 86;
  }

  lemma {:induction false} AllEligible(sample: seq<Observation>, specId: Text, cutoff: Instant)
    requires forall i :: 0 <= i < |sample| ==> ValidObservation(sample[i], specId, cutoff)
    ensures Eligible(sample, specId, cutoff) == sample
  {
    if sample != [] {
      AllEligible(sample[1..], specId, cutoff);
      assert sample == [sample[0]] + sample[1..];
    }
  }

  lemma NamesDiffer()
    ensures Lit("A") != Lit("B") && Lit("A") != Lit("C") && Lit("B") != Lit("C") && Lit("X") != Lit("Y")
    ensures Lit("A") != [] && Lit("B") != [] && Lit("C") != [] && Lit("X") != [] && Lit("Y") != []
  {
    assert Lit("A")[0] == 65 && Lit("B")[0] == 66 && Lit("C")[0] == 67 && Lit("X")[0] == 88 && Lit("Y")[0] == 89;
  }

  lemma QuotesAre()
    ensures forall i :: 0 <= i < |QUOTES| ==>
      && Refusal(SUPPLIER_QUOTE, QUOTES[i]) == None && ValidObservation(QUOTES[i], Lit("S"), 0 - LOOKBACK)
      && Identity(QUOTES[i]) == [Lit("A"), Lit("B"), Lit("C")][i] && QUOTES[i].source == SUPPLIER_QUOTE
      && QUOTES[i].supplierId == [Lit("X"), Lit("Y"), Lit("X")][i]
  {
    NamesDiffer();
    QuoteIsEligible(Lit("A"), Lit("X"));
    QuoteIsEligible(Lit("B"), Lit("Y"));
    QuoteIsEligible(Lit("C"), Lit("X"));
    hide Lit;
    hide ValidObservation;
    hide Refusal;
    hide Identity;
  }

  /** New observations of one source are all stored, as they are. */
  lemma {:induction false} AllStored(store: seq<Observation>, source: Source, batch: seq<Observation>)
    requires IdentitiesDiffer(store + batch)
    requires forall i :: 0 <= i < |batch| ==> Refusal(source, batch[i]) == None && batch[i].source == source
    ensures Ingested(store, source, batch) == store + batch
    decreases |batch|
  {
    hide Refusal;
    if batch == [] {
      assert store + batch == store;
    } else {
      var all := store + batch;
      assert all[|store|] == batch[0];
      forall i | 0 <= i < |store| ensures Identity(store[i]) != Identity(batch[0]) { assert all[i] == store[i]; }
      hide Identity;
      assert Kept(store, source, batch[0]) == store + [batch[0]];
      assert store + [batch[0]] + batch[1..] == all;
      AllStored(store + [batch[0]], source, batch[1..]);
    }
  }

  lemma QuotesAreStored()
    ensures StoreOf([Batch(SUPPLIER_QUOTE, QUOTES)]) == QUOTES && Eligible(QUOTES, Lit("S"), 0 - LOOKBACK) == QUOTES
  {
    NamesDiffer();
    QuotesAre();
    hide Lit;
    hide Identity;
    hide ValidObservation;
    hide Refusal;
    assert [] + QUOTES == QUOTES;
    AllStored([], SUPPLIER_QUOTE, QUOTES);
    AllEligible(QUOTES, Lit("S"), 0 - LOOKBACK);
    hide Ingested;
    hide Eligible;
    var batches := [Batch(SUPPLIER_QUOTE, QUOTES)];
    assert batches[..0] == [];
  }

  /** Three quotes alone, none of them a completed trade, make a published index. */
  lemma QuotesArePublished()
    ensures var store := StoreOf([Batch(SUPPLIER_QUOTE, QUOTES)]);
            && IdentitiesDiffer(store) && (forall o :: o in store ==> o.source == SUPPLIER_QUOTE)
            && Calculate(store, true, Lit("S"), 0).Published?
  {
    NamesDiffer();
    QuotesAre();
    QuotesAreStored();
    StoresAreMaps([Batch(SUPPLIER_QUOTE, QUOTES)]);
    hide Lit;
    hide StoreOf;
    hide Identity;
    hide ValidObservation;
    hide Refusal;
    hide Trend;
    hide Average;
    hide Confidence;
    var two := {QUOTES[0].supplierId, QUOTES[1].supplierId};
    assert two <= Suppliers(QUOTES) && |two| == 2;
    SubsetCounts(two, Suppliers(QUOTES));
  }

  lemma SubsetCounts(a: set<Text>, b: set<Text>)
    requires a <= b
    ensures |a| <= |b|
  {
    assert b == a + (b - a);
  }
}
