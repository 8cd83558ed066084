/** The published price index of beta-app/price-index.mjs, over exact rationals. */
module PriceIndex {
  import opened Texts

  /** Milliseconds since the epoch. */
  type Instant = int

  datatype Source = COMPLETED_PHYSICAL_TRADE | SUPPLIER_QUOTE | PUBLIC_REFERENCE | NOT_ALLOWED

  /** A field that should be a number, or a date: not given, given as something else, or read. */
  datatype Reading = Absent | Garbled | Is(value: int)

  /** Missing text is empty.  `othersGiven`: the source's remaining required fields are there. */
  datatype Observation = Observation(
    source: Source, tradeId: Text, quoteId: Text, sourceId: Text, specId: Text, supplierId: Text, price: Reading,
    quantity: Reading, currency: Text, priceUnit: Text, quantityUnit: Text, status: Text, evidenceStatus: Text,
    fulfilledAt: Reading, othersGiven: bool)

  const LOOKBACK: int := 30 * 86_400_000
  const MIN_TRADES := 3
  const MIN_SUPPLIERS := 2

  const KRW := Lit("KRW")
  const KRW_PER_KG := Lit("KRW_PER_KG")
  const KG := Lit("KG")
  const FULFILLED := Lit("FULFILLED")
  const VALID := Lit("VALID")

  predicate ValidObservation(o: Observation, specId: Text, cutoff: Instant) {
    && o.specId == specId && o.status == FULFILLED && o.evidenceStatus == VALID
    && o.currency == KRW && o.priceUnit == KRW_PER_KG && o.quantityUnit == KG
    && o.tradeId != [] && o.supplierId != []
    && o.price.Is? && o.price.value > 0 && o.quantity.Is? && o.quantity.value > 0
    && o.fulfilledAt.Is? && o.fulfilledAt.value >= cutoff
  }

  function Eligible(observations: seq<Observation>, specId: Text, cutoff: Instant): (r: seq<Observation>)
    ensures forall o :: o in r <==> o in observations && ValidObservation(o, specId, cutoff)
  {
    if observations == [] then []
    else
      assert observations == [observations[0]] + observations[1..];
      (if ValidObservation(observations[0], specId, cutoff) then [observations[0]] else [])
      + Eligible(observations[1..], specId, cutoff)
  }

  function Suppliers(sample: seq<Observation>): set<Text> {
    set i | 0 <= i < |sample| :: sample[i].supplierId
  }

  /** Every observation of a sample has a price and a quantity above 0. */
  predicate Weighed(sample: seq<Observation>) {
    forall i :: 0 <= i < |sample| ==>
      sample[i].price.Is? && sample[i].price.value > 0 && sample[i].quantity.Is? && sample[i].quantity.value > 0
  }

  function Quantities(sample: seq<Observation>): (q: int)
    requires Weighed(sample)
    ensures q >= |sample|
  {
    if sample == [] then 0 else sample[0].quantity.value + Quantities(sample[1..])
  }

  function Turnover(sample: seq<Observation>): int
    requires Weighed(sample)
  {
    if sample == [] then 0 else sample[0].price.value * sample[0].quantity.value + Turnover(sample[1..])
  }

  /** The quantity-weighted mean price. */
  function Average(sample: seq<Observation>): real
    requires Weighed(sample) && sample != []
  {
    Turnover(sample) as real / Quantities(sample) as real
  }

  /** Math.round. */
  function Round(x: real): int {
    (x + 0.5).Floor
  }

  function Ratio(n: nat, k: nat): real
    requires k > 0
  {
    n as real / (n + k) as real
  }

  function Confidence(sampleSize: nat, suppliers: nat): int {
    var c := Round(60.0 + Ratio(sampleSize, 3) * 30.0 + Ratio(suppliers, 2) * 10.0);
    if c < 99 then c else 99
  }

  datatype Index =
    | InsufficientTrades(sampleSize: nat)
    | InsufficientSuppliers(sampleSize: nat)
    | Available(sampleSize: nat, value: int, confidence: int, provenance: seq<Text>)

  function TradeIds(sample: seq<Observation>): (r: seq<Text>)
    ensures |r| == |sample|
  {
    seq(|sample|, i requires 0 <= i < |sample| => sample[i].tradeId)
  }

  lemma EligibleIsWeighed(observations: seq<Observation>, specId: Text, cutoff: Instant)
    ensures Weighed(Eligible(observations, specId, cutoff))
  {
  }

  function CalculatePriceIndex(observations: seq<Observation>, specId: Text, now: Instant): Index {
    var sample := Eligible(observations, specId, now - LOOKBACK);
    if |sample| < MIN_TRADES then InsufficientTrades(|sample|)
    else if |Suppliers(sample)| < MIN_SUPPLIERS then InsufficientSuppliers(|sample|)
    else
      EligibleIsWeighed(observations, specId, now - LOOKBACK);
      Available(|sample|, Round(Average(sample)), Confidence(|sample|, |Suppliers(sample)|), TradeIds(sample))
  }

  // ---- bounds ----

  lemma {:induction false} TurnoverBetween(sample: seq<Observation>, lo: int, hi: int)
    requires Weighed(sample) && forall i :: 0 <= i < |sample| ==> lo <= sample[i].price.value <= hi
    ensures lo * Quantities(sample) <= Turnover(sample) <= hi * Quantities(sample)
  {
    if sample != [] {
      TurnoverBetween(sample[1..], lo, hi);
      Widen(lo, sample[0].price.value, hi, sample[0].quantity.value, Quantities(sample[1..]), Turnover(sample[1..]));
    }
  }

  /** One more term of a weighted sum. */
  lemma Widen(lo: int, p: int, hi: int, q: int, rest: int, sum: int)
    requires lo <= p <= hi && q >= 0 && lo * rest <= sum <= hi * rest
    ensures lo * (q + rest) <= p * q + sum <= hi * (q + rest)
  {
  }

  lemma QuotientBetween(lo: int, hi: int, t: int, q: int)
    requires q > 0 && lo * q <= t <= hi * q
    ensures lo as real <= t as real / q as real <= hi as real
  {
  }

  lemma DivideBoth(x: real, t: real, q: real)
    requires q > 0.0 && x * q <= t
    ensures x <= t / q
  {
  }

  /** A weighted mean lies between the smallest and the largest price. */
  lemma AverageBetween(sample: seq<Observation>, lo: int, hi: int)
    requires Weighed(sample) && sample != [] && forall i :: 0 <= i < |sample| ==> lo <= sample[i].price.value <= hi
    ensures lo as real <= Average(sample) <= hi as real
  {
    TurnoverBetween(sample, lo, hi);
    QuotientBetween(lo, hi, Turnover(sample), Quantities(sample));
  }

  /** The published value lies between any bounds on the sample's prices. */
  lemma IndexBetween(observations: seq<Observation>, specId: Text, now: Instant, lo: int, hi: int)
    requires forall o :: o in observations && ValidObservation(o, specId, now - LOOKBACK) ==> lo <= o.price.value <= hi
    ensures var index := CalculatePriceIndex(observations, specId, now);
            index.Available? ==> lo <= index.value <= hi
  {
    var sample := Eligible(observations, specId, now - LOOKBACK);
    EligibleIsWeighed(observations, specId, now - LOOKBACK);
    if CalculatePriceIndex(observations, specId, now).Available? {
      forall i | 0 <= i < |sample| ensures lo <= sample[i].price.value <= hi {
        assert sample[i] in sample;
      }
      AverageBetween(sample, lo, hi);
    }
  }

  /** The part that is missing to 1 is k / (n + k). */
  lemma RatioMisses(n: nat, k: nat)
    requires k > 0
    ensures Ratio(n, k) == 1.0 - k as real / (n + k) as real
  {
    var d, x, y := (n + k) as real, n as real / (n + k) as real, k as real / (n + k) as real;
    assert x * d == n as real && y * d == k as real;
    assert d == n as real + k as real;
    assert (x + y - 1.0) * d == x * d + y * d - d;
    NothingElse(x + y - 1.0, d);
  }

  lemma NothingElse(z: real, d: real)
    requires d > 0.0 && z * d == 0.0
    ensures z == 0.0
  {
  }

  lemma RatioGrows(m: nat, n: nat, k: nat)
    requires m <= n && k > 0
    ensures Ratio(m, k) <= Ratio(n, k) < 1.0
  {
    RatioMisses(m, k);
    RatioMisses(n, k);
    ShareShrinks(k as real, (m + k) as real, (n + k) as real);
  }

  lemma ShareShrinks(k: real, a: real, b: real)
    requires k > 0.0 && 0.0 < a <= b
    ensures 0.0 < k / b <= k / a
  {
  }

  lemma RoundGrows(x: real, y: real)
    requires x <= y
    ensures Round(x) <= Round(y)
  {
  }

  /** Confidence grows with the sample and with the suppliers; when a value is published it
      lies in 80..99. */
  lemma ConfidenceGrows(n: nat, s: nat, n': nat, s': nat)
    requires n <= n' && s <= s'
    ensures Confidence(n, s) <= Confidence(n', s') <= 99
    ensures n >= MIN_TRADES && s >= MIN_SUPPLIERS ==> 80 <= Confidence(n, s)
  {
    RatioGrows(n, n', 3);
    RatioGrows(s, s', 2);
    RoundGrows(60.0 + Ratio(n, 3) * 30.0 + Ratio(s, 2) * 10.0, 60.0 + Ratio(n', 3) * 30.0 + Ratio(s', 2) * 10.0);
    if n >= MIN_TRADES && s >= MIN_SUPPLIERS {
      RatioGrows(3, n, 3);
      RatioGrows(2, s, 2);
    }
  }

  // ---- the weights ----

  lemma {:induction false} SumsOver(pre: seq<Observation>, post: seq<Observation>)
    requires Weighed(pre) && Weighed(post)
    ensures Weighed(pre + post)
    ensures Quantities(pre + post) == Quantities(pre) + Quantities(post)
    ensures Turnover(pre + post) == Turnover(pre) + Turnover(post)
  {
    if pre == [] {
      assert pre + post == post;
    } else {
      SumsOver(pre[1..], post);
      assert (pre + post)[1..] == pre[1..] + post && (pre + post)[0] == pre[0];
    }
  }

  predicate Weighs(o: Observation) {
    o.price.Is? && o.price.value > 0 && o.quantity.Is? && o.quantity.value > 0
  }

  lemma SumsOfOne(o: Observation)
    requires Weighs(o)
    ensures Weighed([o]) && Quantities([o]) == o.quantity.value && Turnover([o]) == o.price.value * o.quantity.value
  {
    assert [o][1..] == [];
  }

  lemma SumsAround(pre: seq<Observation>, middle: seq<Observation>, post: seq<Observation>)
    requires Weighed(pre) && Weighed(middle) && Weighed(post)
    ensures Weighed(pre + middle + post)
    ensures Quantities(pre + middle + post) == Quantities(pre) + Quantities(middle) + Quantities(post)
    ensures Turnover(pre + middle + post) == Turnover(pre) + Turnover(middle) + Turnover(post)
  {
    SumsOver(pre, middle);
    SumsOver(pre + middle, post);
  }

  /** The price is weighted by quantity: one trade counts like any two of the same price that
      it could be split into, wherever they stand in the sample. */
  lemma SplitTradesCountAlike(pre: seq<Observation>, a: Observation, b: Observation, whole: Observation, post: seq<Observation>)
    requires Weighed(pre) && Weighs(a) && Weighs(b) && Weighs(whole) && Weighed(post)
    requires a.price == b.price == whole.price && whole.quantity.value == a.quantity.value + b.quantity.value
    ensures Weighed(pre + ([a] + [b]) + post) && Weighed(pre + [whole] + post)
    ensures Average(pre + ([a] + [b]) + post) == Average(pre + [whole] + post)
  {
    SumsOfOne(a);
    SumsOfOne(b);
    SumsOfOne(whole);
    SumsOver([a], [b]);
    SumsAround(pre, [a] + [b], post);
    SumsAround(pre, [whole], post);
    Distribute(whole.price.value, a.quantity.value, b.quantity.value);
    hide Turnover;
    hide Quantities;
  }

  lemma Distribute(p: int, a: int, b: int)
    ensures p * (a + b) == p * a + p * b
  {
  }

  lemma BelowQuotient(t: real, x: real, q: real)
    requires q > 0.0 && t < x * q
    ensures t / q < x
  {
    var r := t / q;
    assert r * q == t;
    assert (x - r) * q > 0.0;
  }

  lemma FloorIsDivision(n: nat, d: nat)
    requires d > 0
    ensures (n as real / d as real).Floor == n / d
  {
    var q := n / d;
    assert q * d <= n < (q + 1) * d;
    assert (q * d) as real == q as real * d as real;
    assert ((q + 1) * d) as real == (q + 1) as real * d as real;
    DivideBoth(q as real, n as real, d as real);
    BelowQuotient(n as real, (q + 1) as real, d as real);
  }

  lemma RatioTimes(n: nat, k: nat)
    requires k > 0
    ensures Ratio(n, k) * (n + k) as real == n as real
  {
  }

  /** The confidence in whole numbers: 60, 30 n / (n + 3) and 10 s / (s + 2) over their common
      denominator, rounded half up and capped at 99. */
  lemma ConfidenceInIntegers(n: nat, s: nat)
    ensures var d := (n + 3) * (s + 2);
            var c := (2 * (60 * d + 30 * n * (s + 2) + 10 * s * (n + 3)) + d) / (2 * d);
            Confidence(n, s) == if c < 99 then c else 99
  {
    var d := (n + 3) * (s + 2);
    var t := 2 * (60 * d + 30 * n * (s + 2) + 10 * s * (n + 3)) + d;
    var z := 60.0 + Ratio(n, 3) * 30.0 + Ratio(s, 2) * 10.0 + 0.5;
    OverCommonDenominator(n, s);
    Quotient(z, t as real, (2 * d) as real);
    FloorIsDivision(t, 2 * d);
  }

  lemma OverCommonDenominator(n: nat, s: nat)
    ensures var d := (n + 3) * (s + 2);
            (2 * (60 * d + 30 * n * (s + 2) + 10 * s * (n + 3)) + d) as real
            == (60.0 + Ratio(n, 3) * 30.0 + Ratio(s, 2) * 10.0 + 0.5) * (2 * d) as real
  {
    var x, y, a, b := Ratio(n, 3), Ratio(s, 2), (n + 3) as real, (s + 2) as real;
    RatioTimes(n, 3);
    RatioTimes(s, 2);
    assert ((n + 3) * (s + 2)) as real == a * b;
    assert x * (a * b) == (x * a) * b == n as real * b;
    assert y * (a * b) == (y * b) * a == s as real * a;
    assert (30 * n * (s + 2)) as real == 30.0 * (n as real * b);
    assert (10 * s * (n + 3)) as real == 10.0 * (s as real * a);
    hide Ratio;
    assert (60.0 + x * 30.0 + y * 10.0 + 0.5) * (2.0 * (a * b))
           == 120.0 * (a * b) + 60.0 * (x * (a * b)) + 20.0 * (y * (a * b)) + a * b;
  }

  lemma Quotient(z: real, t: real, d: real)
    requires d > 0.0 && t == z * d
    ensures t / d == z
  {
  }
}
