/** Filling an order from the cheapest lot up is optimal. */
module GreedyFill {
  import opened Simulator

  // ---- sums ----

  function Sum(s: seq<int>): int {
    if s == [] then 0 else s[0] + Sum(s[1..])
  }

  function Cost(asks: seq<int>, take: seq<int>): int
    requires |asks| == |take|
  {
    if take == [] then 0 else asks[0] * take[0] + Cost(asks[1..], take[1..])
  }

  lemma {:induction false} SumUpdate(s: seq<int>, i: nat, v: int)
    requires i < |s|
    ensures Sum(s[i := v]) == Sum(s) - s[i] + v
  {
    if i > 0 {
      SumUpdate(s[1..], i - 1, v);
      assert s[i := v][1..] == s[1..][i - 1 := v];
    } else {
      assert s[i := v][1..] == s[1..];
    }
  }

  /** A feasible allocation. */
  predicate Within(take: seq<int>, caps: seq<int>) {
    |take| == |caps| && forall i :: 0 <= i < |take| ==> 0 <= take[i] <= caps[i]
  }

  lemma {:induction false} SumWithin(take: seq<int>, caps: seq<int>)
    requires Within(take, caps)
    ensures 0 <= Sum(take) <= Sum(caps)
  {
    if take != [] { SumWithin(take[1..], caps[1..]); }
  }

  // ---- a threshold price certifies an allocation ----

  /** Lots with room left ask at least p, lots used ask at most p. */
  predicate Priced(asks: seq<int>, caps: seq<int>, take: seq<int>, p: int) {
    |asks| == |caps| == |take|
    && forall i :: 0 <= i < |take| ==> (take[i] < caps[i] ==> asks[i] >= p) && (take[i] > 0 ==> asks[i] <= p)
  }

  lemma Gain(ask: int, p: int, x: int, g: int)
    requires (x > g ==> ask >= p) && (x < g ==> ask <= p)
    ensures ask * x - ask * g >= p * x - p * g
  {
  }

  lemma Distribute(p: int, a: int, b: int)
    ensures p * (a + b) == p * a + p * b
  {
  }

  lemma {:induction false} PricedIsCheapest(asks: seq<int>, caps: seq<int>, take: seq<int>, other: seq<int>, p: int)
    requires Within(take, caps) && Within(other, caps) && Priced(asks, caps, take, p)
    ensures Cost(asks, other) - Cost(asks, take) >= p * Sum(other) - p * Sum(take)
  {
    if take != [] {
      Gain(asks[0], p, other[0], take[0]);
      PricedIsCheapest(asks[1..], caps[1..], take[1..], other[1..], p);
      Distribute(p, other[0], Sum(other[1..]));
      Distribute(p, take[0], Sum(take[1..]));
      var a, b, c, d := asks[0] * other[0], asks[0] * take[0], p * Sum(other), p * Sum(take);
      assert Cost(asks, other) == a + Cost(asks[1..], other[1..]);
      assert Cost(asks, take) == b + Cost(asks[1..], take[1..]);
    }
  }

  // ---- the queue ----

  predicate Cheapening(lots: seq<SellerLot>, queue: seq<nat>) {
    Places(queue, lots) && forall j, k :: 0 <= j < k < |queue| ==> lots[queue[j]].askPrice <= lots[queue[k]].askPrice
  }

  predicate AllDiffer(queue: seq<nat>) {
    forall j, k :: 0 <= j < k < |queue| ==> queue[j] != queue[k]
  }

  lemma {:induction false} InsertKeepsOrder(lots: seq<SellerLot>, i: nat, queue: seq<nat>)
    requires i < |lots| && Cheapening(lots, queue)
    ensures Cheapening(lots, Insert(lots, i, queue))
  {
    var r := Insert(lots, i, queue);
    if queue != [] && Precedes(lots[queue[0]], lots[i]) {
      InsertKeepsOrder(lots, i, queue[1..]);
      var rest := Insert(lots, i, queue[1..]);
      forall k | 0 <= k < |rest| ensures lots[queue[0]].askPrice <= lots[rest[k]].askPrice {
        assert rest[k] in multiset(rest);
        assert rest[k] == i || rest[k] in queue[1..];
      }
    }
  }

  lemma {:induction false} InsertDiffers(lots: seq<SellerLot>, i: nat, queue: seq<nat>)
    requires i < |lots| && Places(queue, lots) && AllDiffer(queue) && i !in queue
    ensures AllDiffer(Insert(lots, i, queue)) && forall j :: j in Insert(lots, i, queue) <==> j == i || j in queue
  {
    if queue != [] && Precedes(lots[queue[0]], lots[i]) {
      InsertDiffers(lots, i, queue[1..]);
      assert queue[0] !in queue[1..];
      assert forall j :: j in queue <==> j == queue[0] || j in queue[1..];
    }
  }

  lemma {:induction false} EligibleIsSorted(o: BuyerOrder, lots: seq<SellerLot>, i: nat)
    requires i <= |lots|
    ensures var q := EligibleFrom(o, lots, i);
            Cheapening(lots, q) && AllDiffer(q) && forall j: nat :: j in q <==> i <= j < |lots| && Passes(o, lots[j])
    decreases |lots| - i
  {
    hide PretradeGate;
    if i < |lots| {
      EligibleIsSorted(o, lots, i + 1);
      if Passes(o, lots[i]) {
        InsertKeepsOrder(lots, i, EligibleFrom(o, lots, i + 1));
        InsertDiffers(lots, i, EligibleFrom(o, lots, i + 1));
      }
    }
  }

  // ---- what an order takes ----

  function Cap(o: BuyerOrder, lot: SellerLot): (c: int)
    ensures c >= 0
  {
    if Passes(o, lot) && Min(lot.available, lot.maxDailySupply) > 0 then Min(lot.available, lot.maxDailySupply) else 0
  }

  function Caps(o: BuyerOrder, lots: seq<SellerLot>): (r: seq<int>)
    ensures |r| == |lots|
  {
    seq(|lots|, i requires 0 <= i < |lots| => Cap(o, lots[i]))
  }

  function Asks(lots: seq<SellerLot>): (r: seq<int>)
    ensures |r| == |lots|
  {
    seq(|lots|, i requires 0 <= i < |lots| => lots[i].askPrice)
  }

  /** The stock that left each lot. */
  function Took(before: seq<SellerLot>, after: seq<SellerLot>): (r: seq<int>)
    requires |before| == |after|
    ensures |r| == |before|
  {
    seq(|before|, i requires 0 <= i < |before| => before[i].available - after[i].available)
  }

  predicate OnlyStock(before: seq<SellerLot>, after: seq<SellerLot>) {
    |before| == |after| && forall i :: 0 <= i < |before| ==> after[i] == before[i].(available := after[i].available)
  }

  /** What left the lots is within their caps, and is what the order no longer asks for. */
  predicate Booked(o: BuyerOrder, lots: seq<SellerLot>, f: Fill) {
    && OnlyStock(lots, f.lots) && Within(Took(lots, f.lots), Caps(o, lots))
    && f.remaining == o.requested - Sum(Took(lots, f.lots)) && (o.requested >= 0 ==> f.remaining >= 0)
    && (o.requested < 0 ==> f.remaining == o.requested)
  }

  /** The lots ahead are untouched, cheapest first and no cheaper than p. */
  predicate Queued(o: BuyerOrder, lots: seq<SellerLot>, after: seq<SellerLot>, todo: seq<nat>, p: int)
    requires |lots| == |after|
  {
    && Cheapening(lots, todo) && AllDiffer(todo)
    && (forall k :: 0 <= k < |todo| ==> after[todo[k]] == lots[todo[k]] && Passes(o, lots[todo[k]]) && lots[todo[k]].askPrice >= p)
  }

  ghost predicate PassedDone(o: BuyerOrder, lots: seq<SellerLot>, f: Fill, todo: seq<nat>, p: int)
    requires |lots| == |f.lots|
  {
    forall i: nat :: i < |lots| && i !in todo ==> Done(o, lots, f, i, p)
  }

  /** An order part-way through its queue, `todo` still ahead: p is the price reached. */
  ghost predicate PartWay(o: BuyerOrder, lots: seq<SellerLot>, f: Fill, todo: seq<nat>, p: int) {
    Booked(o, lots, f) && Queued(o, lots, f.lots, todo, p) && PassedDone(o, lots, f, todo, p)
  }

  /** A lot passed over is used up unless nothing remains to fill, and agrees with the price. */
  predicate Done(o: BuyerOrder, lots: seq<SellerLot>, f: Fill, i: nat, p: int)
    requires i < |lots| == |f.lots|
  {
    var t := lots[i].available - f.lots[i].available;
    && (f.remaining > 0 ==> t == Cap(o, lots[i]))
    && (t < Cap(o, lots[i]) ==> lots[i].askPrice >= p) && (t > 0 ==> lots[i].askPrice <= p)
  }

  lemma TookAfter(lots: seq<SellerLot>, f: Fill, i: nat, qty: int)
    requires OnlyStock(lots, f.lots) && i < |lots| && f.lots[i] == lots[i]
    ensures Took(lots, f.lots[i := lots[i].(available := lots[i].available - qty)]) == Took(lots, f.lots)[i := qty]
    ensures Sum(Took(lots, f.lots)[i := qty]) == Sum(Took(lots, f.lots)) + qty
  {
    SumUpdate(Took(lots, f.lots), i, qty);
  }

  lemma BookedStep(s: Scenario, o: BuyerOrder, lots: seq<SellerLot>, f: Fill, day: int, i: nat)
    requires Booked(o, lots, f) && i < |lots| && f.lots[i] == lots[i] && Passes(o, lots[i])
    ensures Booked(o, lots, FillFrom(s, f, o, day, i))
  {
    hide PretradeGate;
    hide NewTrade;
    if f.remaining > 0 && Share(f, i) > 0 { TookAfter(lots, f, i, Share(f, i)); }
    hide Sum;
  }

  lemma DoneStep(s: Scenario, o: BuyerOrder, lots: seq<SellerLot>, f: Fill, day: int, i: nat, j: nat, p: int)
    requires |lots| == |f.lots| && i < |lots| && f.lots[i] == lots[i] && Passes(o, lots[i]) && lots[i].askPrice >= p
    requires j < |lots| && (j != i ==> Done(o, lots, f, j, p))
    ensures Done(o, lots, FillFrom(s, f, o, day, i), j, if f.remaining > 0 then lots[i].askPrice else p)
  {
    hide PretradeGate;
    hide NewTrade;
  }

  lemma FillStep(s: Scenario, o: BuyerOrder, lots: seq<SellerLot>, f: Fill, day: int, todo: seq<nat>, p: int)
    requires PartWay(o, lots, f, todo, p) && todo != []
    ensures PartWay(o, lots, FillFrom(s, f, o, day, todo[0]), todo[1..], if f.remaining > 0 then lots[todo[0]].askPrice else p)
  {
    hide Passes;
    hide NewTrade;
    hide Within;
    hide Sum;
    hide Done;
    hide Share;
    var i, p' := todo[0], if f.remaining > 0 then lots[todo[0]].askPrice else p;
    assert todo == [i] + todo[1..];
    BookedStep(s, o, lots, f, day, i);
    forall j: nat | j < |lots| && j !in todo[1..] ensures Done(o, lots, FillFrom(s, f, o, day, i), j, p') {
      if j != i { assert Done(o, lots, f, j, p); }
      DoneStep(s, o, lots, f, day, i, j, p);
    }
  }

  lemma PartWayPlaces(o: BuyerOrder, lots: seq<SellerLot>, f: Fill, todo: seq<nat>, p: int)
    requires PartWay(o, lots, f, todo, p)
    ensures |f.lots| == |lots| && Places(todo, lots)
  {
  }

  lemma {:induction false} FillFinishes(s: Scenario, o: BuyerOrder, lots: seq<SellerLot>, f: Fill, day: int, todo: seq<nat>, p: int)
    returns (q: int)
    requires PartWay(o, lots, f, todo, p) && Places(todo, f.lots)
    ensures PartWay(o, lots, FillAll(s, f, o, day, todo), [], q)
    decreases |todo|
  {
    PartWayPlaces(o, lots, f, todo, p);
    if todo == [] {
      q := p;
    } else {
      FillStep(s, o, lots, f, day, todo, p);
      hide PartWay;
      q := FillFinishes(s, o, lots, FillFrom(s, f, o, day, todo[0]), day, todo[1..], if f.remaining > 0 then lots[todo[0]].askPrice else p);
    }
  }

  lemma FillStarts(b: Book, o: BuyerOrder) returns (p: int)
    ensures PartWay(o, b.lots, Fill(b.lots, b.trades, o.requested), EligibleFrom(o, b.lots, 0), p)
  {
    var queue := EligibleFrom(o, b.lots, 0);
    EligibleIsSorted(o, b.lots, 0);
    p := if queue == [] then 0 else b.lots[queue[0]].askPrice;
    SumOfNothing(Took(b.lots, b.lots));
    hide PretradeGate;
    hide Insert;
    forall i: nat | i < |b.lots| && i !in queue ensures Cap(o, b.lots[i]) == 0 {
    }
    forall k | 0 <= k < |queue| ensures Passes(o, b.lots[queue[k]]) {
      assert queue[k] in queue;
    }
  }

  lemma {:induction false} SumOfNothing(s: seq<int>)
    requires forall i :: 0 <= i < |s| ==> s[i] == 0
    ensures Sum(s) == 0
  {
    if s != [] { SumOfNothing(s[1..]); }
  }

  lemma DoneIsPriced(o: BuyerOrder, lots: seq<SellerLot>, f: Fill, p: int)
    requires PartWay(o, lots, f, [], p)
    ensures Priced(Asks(lots), Caps(o, lots), Took(lots, f.lots), p)
    ensures f.remaining > 0 ==> Took(lots, f.lots) == Caps(o, lots)
  {
    hide Cap;
    var asks, caps, take := Asks(lots), Caps(o, lots), Took(lots, f.lots);
    forall i | 0 <= i < |lots|
      ensures (take[i] < caps[i] ==> asks[i] >= p) && (take[i] > 0 ==> asks[i] <= p) && (f.remaining > 0 ==> take[i] == caps[i])
    {
      assert Done(o, lots, f, i, p);
    }
  }

  lemma FilledIsPriced(s: Scenario, b: Book, o: BuyerOrder, day: int) returns (p: int)
    ensures var f := Filled(s, b, o, day);
            && OnlyStock(b.lots, f.lots) && Within(Took(b.lots, f.lots), Caps(o, b.lots))
            && Priced(Asks(b.lots), Caps(o, b.lots), Took(b.lots, f.lots), p)
            && f.remaining == o.requested - Sum(Took(b.lots, f.lots))
            && (if o.requested >= 0 then f.remaining >= 0 else f.remaining == o.requested)
            && (f.remaining > 0 ==> Took(b.lots, f.lots) == Caps(o, b.lots))
  {
    hide FillAll;
    hide EligibleFrom;
    hide Caps;
    hide Asks;
    hide Took;
    hide Priced;
    hide Within;
    hide Sum;
    var p0 := FillStarts(b, o);
    p := FillFinishes(s, o, b.lots, Fill(b.lots, b.trades, o.requested), day, EligibleFrom(o, b.lots, 0), p0);
    DoneIsPriced(o, b.lots, Filled(s, b, o, day), p);
  }

  /** Greedy fill is optimal: an order takes min(requested, all it may take), only from lots that
      pass and within their caps, at the least total ask cost of any such allocation. */
  lemma GreedyIsOptimal(s: Scenario, b: Book, o: BuyerOrder, day: int)
    ensures var f := Filled(s, b, o, day);
            var take, caps := Took(b.lots, f.lots), Caps(o, b.lots);
            && OnlyStock(b.lots, f.lots) && Within(take, caps)
            && Sum(take) == (if o.requested < 0 then 0 else Min(o.requested, Sum(caps))) && Sum(take) + f.remaining == o.requested
            && forall other :: Within(other, caps) && Sum(other) == Sum(take)
                 ==> Cost(Asks(b.lots), take) <= Cost(Asks(b.lots), other)
  {
    var p := FilledIsPriced(s, b, o, day);
    hide Filled;
    hide Caps;
    hide Asks;
    hide Took;
    hide Priced;
    hide Cost;
    hide Sum;
    var take, caps := Took(b.lots, Filled(s, b, o, day).lots), Caps(o, b.lots);
    SumWithin(take, caps);
    forall other | Within(other, caps) && Sum(other) == Sum(take) ensures Cost(Asks(b.lots), take) <= Cost(Asks(b.lots), other) {
      PricedIsCheapest(Asks(b.lots), caps, take, other, p);
    }
  }
}
