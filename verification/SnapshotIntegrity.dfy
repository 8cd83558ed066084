/** The seal of beta-app/snapshot-integrity.mjs: a digest of the canonical text of sixteen
    fields of a trade. */
module SnapshotIntegrity {
  import opened Texts
  import opened Wrappers
  import opened CanonicalJson
  import opened InventoryLedger
  import opened SpecAnswers

  datatype TradeStatus = CONFIRMED | SENT | FULFILLED | CONTESTED

  datatype LotSnapshot = LotSnapshot(lotId: Text, supplier: Text, quantity: int, remainingQty: int)

  /** A trade of the ledger; `tradeSnapshotHash` is empty until the trade is sealed. */
  datatype Trade = Trade(
    tradeId: Text, orderId: Text, buyerId: Text, supplier: Text, supplierId: Text, supplierOrganizationId: Text,
    specId: Text, terms: Terms, specSnapshot: Spec, lotSnapshot: LotSnapshot, evidence: Evidence, price: int, quantity: int,
    deliveryDate: Text, checks: Checks, reservationId: Text, confirmedAt: Text,
    status: TradeStatus, inspection: Option<Inspection>, tradeSnapshotHash: Text)

  /** SHA-256 in hex. */
  type Digest = t: Text | |t| == 64 witness Zeros(64)

  type Hash = Text -> Digest

  // ---- the payload ----

  const TRADE_KEYS: seq<Text> := [
    Lit("tradeId"), Lit("orderId"), Lit("buyerId"), Lit("supplierId"), Lit("supplierOrganizationId"), Lit("materialId"),
    Lit("specId"), Lit("specSnapshot"), Lit("lotSnapshot"), Lit("evidenceSnapshot"), Lit("price"), Lit("quantity"),
    Lit("deliveryDate"), Lit("preTradeChecks"), Lit("reservationId"), Lit("confirmedAt")]

  const LOT_KEYS: seq<Text> := [Lit("lotId"), Lit("supplier"), Lit("quantity"), Lit("remainingQty")]

  const EVIDENCE_KEYS: seq<Text> := [
    Lit("coa"), Lit("sds"), Lit("tds"), Lit("lotTrace"), Lit("inventoryProof"), Lit("expiresAt")]

  const CHECK_KEYS: seq<Text> := [
    Lit("specMatch"), Lit("evidenceValid"), Lit("lotTraceable"), Lit("inventoryAvailable"), Lit("deliveryFeasible"),
    Lit("termsMatch")]

  function Record(keys: seq<Text>, values: seq<Json>): Json
    requires |keys| == |values|
  {
    Obj(seq(|keys|, i requires 0 <= i < |keys| => Field(keys[i], values[i])))
  }

  function Number(n: int): Json {
    Num(if n >= 0 then Decimal(n) else [45] + Decimal(-n))
  }

  function SpecValues(c: Spec): (r: seq<Json>)
    ensures |r| == 6
  {
    [Str(c.intendedUse), Str(c.purity), Str(c.form), Str(c.origin), Str(c.pack), Str(c.deliveryCondition)]
  }

  function LotValues(s: LotSnapshot): (r: seq<Json>)
    ensures |r| == 4
  {
    [Str(s.lotId), Str(s.supplier), Number(s.quantity), Number(s.remainingQty)]
  }

  /** The expiry date is written as its instant. */
  function EvidenceValues(e: Evidence): (r: seq<Json>)
    ensures |r| == 6
  {
    [Str(e.coa), Str(e.sds), Str(e.tds), Str(e.lotTrace), Str(e.inventoryProof),
     if e.expiresAt.Some? then Number(e.expiresAt.value) else Null]
  }

  function CheckValues(c: Checks): (r: seq<Json>)
    ensures |r| == 6
  {
    [Bool(c.specMatch), Bool(c.evidenceValid), Bool(c.lotTraceable), Bool(c.inventoryAvailable), Bool(c.deliveryFeasible),
     Bool(c.termsMatch)]
  }

  function TradeValues(t: Trade): (r: seq<Json>)
    ensures |r| == 16
  {
    [Str(t.tradeId), Str(t.orderId), Str(t.buyerId), Str(t.supplierId), Str(t.supplierOrganizationId), Str(Lit("GABA")),
     Str(t.specId), Record(SPEC_KEYS, SpecValues(t.specSnapshot)), Record(LOT_KEYS, LotValues(t.lotSnapshot)),
     Record(EVIDENCE_KEYS, EvidenceValues(t.evidence)), Number(t.price), Number(t.quantity), Str(t.deliveryDate),
     Record(CHECK_KEYS, CheckValues(t.checks)), Str(t.reservationId), Str(t.confirmedAt)]
  }

  function TradeIntegrityPayload(t: Trade): Json {
    Record(TRADE_KEYS, TradeValues(t))
  }

  function HashSnapshot(hash: Hash, j: Json): Text {
    hash(StableStringify(j))
  }

  function Seal(hash: Hash, t: Trade): Trade {
    t.(tradeSnapshotHash := HashSnapshot(hash, TradeIntegrityPayload(t)))
  }

  predicate Verify(hash: Hash, t: Trade) {
    t.tradeSnapshotHash != [] && HashSnapshot(hash, TradeIntegrityPayload(t)) == t.tradeSnapshotHash
  }

  // ---- the keys differ: told apart by length and first unit ----

  predicate Marked(keys: seq<Text>, marks: seq<int>) {
    |keys| == |marks| && forall i :: 0 <= i < |keys| ==> |keys[i]| == marks[i] / 1000 && keys[i] != [] && keys[i][0] as int == marks[i] % 1000
  }

  lemma MarksTellApart(keys: seq<Text>, marks: seq<int>)
    requires Marked(keys, marks) && Distinct(marks)
    ensures Distinct(keys)
  {
  }

  /** The length of each trade key, times 1000, plus its first unit. */
  const TRADE_MARKS := [7116, 7111, 7098, 10115, 22115, 10109, 6115, 12115, 11108, 16101, 5112, 8113, 12100, 14112, 13114, 11099]

  lemma TradeKeysMarked()
    ensures Marked(TRADE_KEYS, TRADE_MARKS)
  {
    assert Marked(TRADE_KEYS[..8], TRADE_MARKS[..8]);
    assert Marked(TRADE_KEYS[8..], TRADE_MARKS[8..]);
    hide Lit;
    assert TRADE_KEYS == TRADE_KEYS[..8] + TRADE_KEYS[8..] && TRADE_MARKS == TRADE_MARKS[..8] + TRADE_MARKS[8..];
  }

  lemma TradeMarksDiffer()
    ensures Distinct(TRADE_MARKS)
  {
  }

  lemma TradeKeysDiffer()
    ensures Distinct(TRADE_KEYS)
  {
    TradeKeysMarked();
    TradeMarksDiffer();
    hide Lit;
    hide Marked;
    hide Distinct;
    MarksTellApart(TRADE_KEYS, TRADE_MARKS);
  }

  lemma LotKeysDiffer()
    ensures Distinct(LOT_KEYS)
  {
    MarksTellApart(LOT_KEYS, [5108, 8115, 8113, 12114]);
  }

  lemma EvidenceKeysDiffer()
    ensures Distinct(EVIDENCE_KEYS)
  {
    MarksTellApart(EVIDENCE_KEYS, [3099, 3115, 3116, 8108, 14105, 9101]);
  }

  lemma CheckKeysDiffer()
    ensures Distinct(CHECK_KEYS)
  {
  }

  // ---- records of equal keys compare field by field ----

  lemma RecordWellFormed(keys: seq<Text>, values: seq<Json>)
    requires |keys| == |values| && Distinct(keys) && forall i :: 0 <= i < |values| ==> WellFormed(values[i])
    ensures WellFormed(Record(keys, values))
  {
  }

  lemma RecordsSame(keys: seq<Text>, a: seq<Json>, b: seq<Json>)
    requires |keys| == |a| == |b| && Same(Record(keys, a), Record(keys, b))
    ensures forall i :: 0 <= i < |keys| ==> Same(a[i], b[i])
  {
    var fs, gs := Record(keys, a).fields, Record(keys, b).fields;
    forall i | 0 <= i < |keys| ensures Same(a[i], b[i]) {
      assert fs[i].key == gs[i].key;
    }
  }

  lemma NumberWellFormed(n: int)
    ensures WellFormed(Number(n))
  {
  }

  lemma DecimalsEqual(m: nat, n: nat)
    requires Decimal(m) == Decimal(n)
    ensures m == n
  {
    ValueOfDecimal(m);
    ValueOfDecimal(n);
    hide Decimal;
    hide Value;
  }

  lemma NumbersEqual(m: int, n: int)
    requires Number(m) == Number(n)
    ensures m == n
  {
    hide Decimal;
    var a, b := Decimal(if m >= 0 then m else -m), Decimal(if n >= 0 then n else -n);
    assert ([45] + a)[1..] == a && ([45] + b)[1..] == b;
    assert IsDigit(a[0]) && IsDigit(b[0]);
    assert a == b && (m >= 0 <==> n >= 0);
    DecimalsEqual(if m >= 0 then m else -m, if n >= 0 then n else -n);
  }

  lemma SpecWellFormed(c: Spec)
    ensures WellFormed(Record(SPEC_KEYS, SpecValues(c)))
  {
    SpecKeysDistinct();
    hide Lit;
    RecordWellFormed(SPEC_KEYS, SpecValues(c));
  }

  lemma PartsWellFormed(t: Trade)
    ensures WellFormed(Record(LOT_KEYS, LotValues(t.lotSnapshot)))
    ensures WellFormed(Record(EVIDENCE_KEYS, EvidenceValues(t.evidence)))
    ensures WellFormed(Record(CHECK_KEYS, CheckValues(t.checks)))
  {
    LotKeysDiffer();
    EvidenceKeysDiffer();
    CheckKeysDiffer();
    NumberWellFormed(t.lotSnapshot.quantity);
    NumberWellFormed(t.lotSnapshot.remainingQty);
    if t.evidence.expiresAt.Some? { NumberWellFormed(t.evidence.expiresAt.value); }
    RecordWellFormed(LOT_KEYS, LotValues(t.lotSnapshot));
    RecordWellFormed(EVIDENCE_KEYS, EvidenceValues(t.evidence));
    RecordWellFormed(CHECK_KEYS, CheckValues(t.checks));
  }

  lemma PayloadWellFormed(t: Trade)
    ensures WellFormed(TradeIntegrityPayload(t))
  {
    hide Record;
    hide Lit;
    hide Distinct;
    TradeKeysDiffer();
    SpecWellFormed(t.specSnapshot);
    PartsWellFormed(t);
    NumberWellFormed(t.price);
    NumberWellFormed(t.quantity);
    RecordWellFormed(TRADE_KEYS, TradeValues(t));
  }

  // ---- what the seal covers ----

  /** The sealed part of a trade: the display name, terms, status, inspection and seal aside. */
  function SealedPart(t: Trade): Trade {
    t.(supplier := [], terms := CANONICAL, status := CONFIRMED, inspection := None, tradeSnapshotHash := [])
  }

  lemma LotValuesEqual(a: LotSnapshot, b: LotSnapshot)
    requires Same(Record(LOT_KEYS, LotValues(a)), Record(LOT_KEYS, LotValues(b)))
    ensures a == b
  {
    var x, y := LotValues(a), LotValues(b);
    RecordsSame(LOT_KEYS, x, y);
    assert Same(x[0], y[0]) && Same(x[1], y[1]) && Same(x[2], y[2]) && Same(x[3], y[3]);
    NumbersEqual(a.quantity, b.quantity);
    NumbersEqual(a.remainingQty, b.remainingQty);
  }

  lemma EvidenceValuesEqual(a: Evidence, b: Evidence)
    requires Same(Record(EVIDENCE_KEYS, EvidenceValues(a)), Record(EVIDENCE_KEYS, EvidenceValues(b)))
    ensures a == b
  {
    var x, y := EvidenceValues(a), EvidenceValues(b);
    RecordsSame(EVIDENCE_KEYS, x, y);
    assert Same(x[0], y[0]) && Same(x[1], y[1]) && Same(x[2], y[2]) && Same(x[3], y[3]) && Same(x[4], y[4]) && Same(x[5], y[5]);
    if a.expiresAt.Some? && b.expiresAt.Some? { NumbersEqual(a.expiresAt.value, b.expiresAt.value); }
  }

  lemma SpecValuesEqual(a: Spec, b: Spec)
    requires Same(Record(SPEC_KEYS, SpecValues(a)), Record(SPEC_KEYS, SpecValues(b)))
    ensures a == b
  {
    var x, y := SpecValues(a), SpecValues(b);
    RecordsSame(SPEC_KEYS, x, y);
    assert Same(x[0], y[0]) && Same(x[1], y[1]) && Same(x[2], y[2]) && Same(x[3], y[3]) && Same(x[4], y[4]) && Same(x[5], y[5]);
  }

  lemma CheckValuesEqual(a: Checks, b: Checks)
    requires Same(Record(CHECK_KEYS, CheckValues(a)), Record(CHECK_KEYS, CheckValues(b)))
    ensures a == b
  {
    var x, y := CheckValues(a), CheckValues(b);
    RecordsSame(CHECK_KEYS, x, y);
    assert Same(x[0], y[0]) && Same(x[1], y[1]) && Same(x[2], y[2]) && Same(x[3], y[3]) && Same(x[4], y[4]) && Same(x[5], y[5]);
  }

  lemma PayloadsSame(t: Trade, u: Trade)
    ensures Same(TradeIntegrityPayload(t), TradeIntegrityPayload(u)) ==> SealedPart(t) == SealedPart(u)
    ensures SealedPart(t) == SealedPart(u) ==> TradeIntegrityPayload(t) == TradeIntegrityPayload(u)
  {
    hide Record;
    if Same(TradeIntegrityPayload(t), TradeIntegrityPayload(u)) {
      var x, y := TradeValues(t), TradeValues(u);
      RecordsSame(TRADE_KEYS, x, y);
      assert Same(x[0], y[0]) && Same(x[1], y[1]) && Same(x[2], y[2]) && Same(x[3], y[3]) && Same(x[4], y[4]);
      assert Same(x[6], y[6]) && Same(x[12], y[12]) && Same(x[14], y[14]) && Same(x[15], y[15]);
      assert Same(x[7], y[7]) && Same(x[8], y[8]) && Same(x[9], y[9]) && Same(x[10], y[10]) && Same(x[11], y[11]) && Same(x[13], y[13]);
      SpecValuesEqual(t.specSnapshot, u.specSnapshot);
      LotValuesEqual(t.lotSnapshot, u.lotSnapshot);
      EvidenceValuesEqual(t.evidence, u.evidence);
      CheckValuesEqual(t.checks, u.checks);
      NumbersEqual(t.price, u.price);
      NumbersEqual(t.quantity, u.quantity);
    }
  }

  /** A seal survives every change outside the sealed part. */
  lemma SealSurvives(hash: Hash, t: Trade, u: Trade)
    requires Verify(hash, t) && SealedPart(u) == SealedPart(t) && u.tradeSnapshotHash == t.tradeSnapshotHash
    ensures Verify(hash, u)
  {
  }

  lemma SealVerifies(hash: Hash, t: Trade)
    ensures Verify(hash, Seal(hash, t))
  {
  }

  /** The text the digest is taken of. */
  function SealedText(t: Trade): Text {
    StableStringify(TradeIntegrityPayload(t))
  }

  /** Two different texts with one digest. */
  predicate Collide(hash: Hash, a: Text, b: Text) {
    a != b && hash(a) == hash(b)
  }

  /** Two trades have the same sealed text exactly when no sealed field differs. */
  lemma TextsTellApart(t: Trade, u: Trade)
    ensures SealedText(t) == SealedText(u) <==> SealedPart(t) == SealedPart(u)
  {
    PayloadsSame(t, u);
    PayloadWellFormed(t);
    PayloadWellFormed(u);
    CanonicalForm(TradeIntegrityPayload(t), TradeIntegrityPayload(u));
  }

  /** Whatever the digest: under the seal of a trade that verifies, another verifies exactly
      when no sealed field differs or the digest collides on the two sealed texts. */
  lemma SealDetectsEveryChange(hash: Hash, t: Trade, u: Trade)
    requires Verify(hash, t) && u.tradeSnapshotHash == t.tradeSnapshotHash
    ensures Verify(hash, u) <==> SealedPart(u) == SealedPart(t) || Collide(hash, SealedText(u), SealedText(t))
  {
    hide StableStringify;
    hide TradeIntegrityPayload;
    hide SealedPart;
    TextsTellApart(t, u);
  }

  // ---- both sides of the condition occur ----

  /** A digest that tells one text from all others. */
  function Knowing(text: Text): Hash {
    s => if s == text then Zeros(64) else [49] + Zeros(63)
  }

  /** A digest that tells nothing apart. */
  function Blind(): Hash {
    s => Zeros(64)
  }

  function WithSealOf(u: Trade, sealed: Trade): Trade {
    u.(tradeSnapshotHash := sealed.tradeSnapshotHash)
  }

  /** Whatever sealed fields are changed, on whatever trade: one digest catches it, and under
      another it passes. */
  lemma SomeDigestsCatch(t: Trade, u: Trade)
    requires SealedPart(u) != SealedPart(t)
    ensures var hash := Knowing(SealedText(t));
            && Verify(hash, Seal(hash, t)) && !Verify(hash, WithSealOf(u, Seal(hash, t)))
            && !Collide(hash, SealedText(u), SealedText(t))
    ensures var hash := Blind();
            && Verify(hash, Seal(hash, t)) && Verify(hash, WithSealOf(u, Seal(hash, t)))
            && Collide(hash, SealedText(u), SealedText(t))
  {
    hide StableStringify;
    TextsTellApart(t, u);
    var knowing := Knowing(SealedText(t));
    assert TradeIntegrityPayload(WithSealOf(u, Seal(knowing, t))) == TradeIntegrityPayload(u);
    assert TradeIntegrityPayload(WithSealOf(u, Seal(Blind(), t))) == TradeIntegrityPayload(u);
    SealVerifies(knowing, t);
    SealVerifies(Blind(), t);
    hide TradeIntegrityPayload;
    assert knowing(SealedText(u))[0] == 49;
  }
}
