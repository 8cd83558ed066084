/** The evidence-locked inventory of beta-app/inventory-ledger.mjs: lots in insertion order,
    reservations and inspections by reservation id. */
module InventoryLedger {
  import opened Texts
  import opened Wrappers

  type Instant = int

  datatype LotStatus =
    DRAFT | PENDING_VERIFICATION | VERIFIED_ELIGIBLE | RESERVED | DELIVERED | INSPECTED | DISPUTED | QUARANTINED | EXPIRED

  /** What each document reads, and the date the evidence expires if it has one. */
  datatype Evidence = Evidence(coa: Text, sds: Text, tds: Text, lotTrace: Text, inventoryProof: Text,
                               expiresAt: Option<Instant>)

  /** Empty text stands for a term that was not given. */
  datatype Terms = Terms(currency: Text, priceUnit: Text, quantityUnit: Text)

  datatype Lot = Lot(lotId: Text, supplier: Text, supplierId: Text, supplierOrganizationId: Text, specId: Text, askPrice: int, terms: Terms,
                     available: int, reserved: int, status: LotStatus, evidence: Evidence, deliveryDays: int)

  /** Numbers are missing when they are not finite. */
  datatype LotForm = LotForm(lotId: Text, supplier: Text, supplierId: Text, supplierOrganizationId: Text, specId: Text,
                             askPrice: Option<int>, terms: Terms, available: Option<int>, reserved: Option<int>,
                             status: LotStatus, evidence: Evidence, deliveryDays: Option<int>)

  datatype Need = Need(specId: Text, quantity: int, deliveryDays: int, terms: Terms)

  datatype Checks = Checks(specMatch: bool, evidenceValid: bool, lotTraceable: bool, inventoryAvailable: bool,
                           deliveryFeasible: bool, termsMatch: bool)

  datatype ReservationStatus = HELD | SHIPPED | PASSED | FAILED

  datatype Fingerprint = Fingerprint(lotId: Text, quantity: int, specId: Text, deliveryDays: int)

  datatype Reservation = Reservation(reservationId: Text, lotId: Text, quantity: int, status: ReservationStatus,
                                     checks: Checks, fingerprint: Option<Fingerprint>)

  datatype Inspection = Inspection(reservationId: Text, specMatch: bool, qualityPass: bool, status: ReservationStatus)

  datatype Inventory = Inventory(lots: seq<Lot>, reservations: map<Text, Reservation>, inspections: map<Text, Inspection>)

  datatype Code =
    | LOT_ID_REQUIRED | LOT_ALREADY_EXISTS | INVALID_LOT
    | RESERVATION_ID_REQUIRED | INVALID_RESERVATION_QUANTITY | RESERVATION_ID_REUSE_MISMATCH | LOT_NOT_FOUND
    | SPECMATCH | EVIDENCEVALID | LOTTRACEABLE | INVENTORYAVAILABLE | DELIVERYFEASIBLE | TERMSMATCH
    | RESERVATION_NOT_FOUND | INVALID_DELIVERY_STATE | INVALID_INSPECTION_STATE

  datatype Result<T> = Ok(value: T) | Err(code: Code)

  const CANONICAL: Terms := Terms(Lit("KRW"), Lit("KRW_PER_KG"), Lit("KG"))

  const VALID: Text := Lit("VALID")

  const EMPTY: Inventory := Inventory([], map[], map[])

  // ---- the checks ----

  function Default(given: Text, fallback: Text): Text {
    if given == [] then fallback else given
  }

  function Filled(t: Terms): Terms {
    Terms(Default(t.currency, CANONICAL.currency), Default(t.priceUnit, CANONICAL.priceUnit),
          Default(t.quantityUnit, CANONICAL.quantityUnit))
  }

  predicate EvidenceComplete(e: Evidence) {
    e.coa == VALID && e.sds == VALID && e.tds == VALID && e.lotTrace == VALID && e.inventoryProof == VALID
  }

  predicate IsEvidenceValid(lot: Lot, now: Instant) {
    lot.status == VERIFIED_ELIGIBLE && EvidenceComplete(lot.evidence) && lot.evidence.expiresAt.Some?
    && lot.evidence.expiresAt.value >= now
  }

  function VerifyLot(lot: Lot, need: Need, now: Instant): Checks {
    Checks(lot.specId == need.specId, IsEvidenceValid(lot, now), lot.lotId != [], lot.available >= need.quantity,
           lot.deliveryDays <= need.deliveryDays, lot.terms == Filled(need.terms))
  }

  predicate AllPass(c: Checks) {
    c.specMatch && c.evidenceValid && c.lotTraceable && c.inventoryAvailable && c.deliveryFeasible && c.termsMatch
  }

  function FirstFailed(c: Checks): (code: Option<Code>)
    ensures code == None <==> AllPass(c)
  {
    if !c.specMatch then Some(SPECMATCH)
    else if !c.evidenceValid then Some(EVIDENCEVALID)
    else if !c.lotTraceable then Some(LOTTRACEABLE)
    else if !c.inventoryAvailable then Some(INVENTORYAVAILABLE)
    else if !c.deliveryFeasible then Some(DELIVERYFEASIBLE)
    else if !c.termsMatch then Some(TERMSMATCH)
    else None
  }

  // ---- lots by id ----

  predicate LotIdsDiffer(lots: seq<Lot>) {
    forall i, j :: 0 <= i < j < |lots| ==> lots[i].lotId != lots[j].lotId
  }

  /** The place of a lot, or the number of lots when there is none. */
  function LotAt(lots: seq<Lot>, id: Text): (i: nat)
    ensures i <= |lots|
    ensures i < |lots| ==> lots[i].lotId == id
    ensures forall j :: 0 <= j < i ==> lots[j].lotId != id
  {
    if lots == [] || lots[0].lotId == id then 0 else 1 + LotAt(lots[1..], id)
  }

  function WithStatus(lots: seq<Lot>, id: Text, status: Lot -> LotStatus): seq<Lot> {
    var i := LotAt(lots, id);
    if i < |lots| then lots[i := lots[i].(status := status(lots[i]))] else lots
  }

  // ---- what each operation does ----

  predicate ValidNumbers(f: LotForm) {
    f.askPrice.Some? && f.askPrice.value > 0 && f.available.Some? && f.available.value >= 0
    && f.reserved.Some? && f.reserved.value >= 0 && f.deliveryDays.Some? && f.deliveryDays.value >= 0
  }

  function RegisterLot(v: Inventory, f: LotForm): Result<Inventory> {
    if f.lotId == [] then Err(LOT_ID_REQUIRED)
    else if LotAt(v.lots, f.lotId) < |v.lots| then Err(LOT_ALREADY_EXISTS)
    else if !ValidNumbers(f) then Err(INVALID_LOT)
    else Ok(v.(lots := v.lots + [Lot(f.lotId, f.supplier, f.supplierId, f.supplierOrganizationId, f.specId, f.askPrice.value,
                                     Filled(f.terms), f.available.value, f.reserved.value, f.status, f.evidence,
                                     f.deliveryDays.value)]))
  }

  /** Without a price any ask will do. */
  predicate Qualifies(lot: Lot, need: Need, price: Option<int>, now: Instant) {
    (price.Some? ==> lot.askPrice <= price.value) && AllPass(VerifyLot(lot, need, now))
  }

  /** Whether lot i is the cheapest that qualifies, the earliest registered among equals. */
  ghost predicate IsBest(lots: seq<Lot>, need: Need, price: Option<int>, now: Instant, i: nat) {
    && i < |lots| && Qualifies(lots[i], need, price, now)
    && forall j :: 0 <= j < |lots| && Qualifies(lots[j], need, price, now)
         ==> lots[i].askPrice < lots[j].askPrice || (lots[i].askPrice == lots[j].askPrice && i <= j)
  }

  /** The place `filter(...).sort(by ask)[0]` picks, if any. */
  function FindEligible(lots: seq<Lot>, need: Need, price: Option<int>, now: Instant): (found: Option<nat>)
    ensures found.None? ==> forall i :: 0 <= i < |lots| ==> !Qualifies(lots[i], need, price, now)
    ensures found.Some? ==> IsBest(lots, need, price, now, found.value)
  {
    if lots == [] then None
    else
      var n := |lots| - 1;
      var before := FindEligible(lots[..n], need, price, now);
      if Qualifies(lots[n], need, price, now) && (before.None? || lots[n].askPrice < lots[before.value].askPrice) then Some(n)
      else before
  }

  function FingerprintOf(lotId: Text, quantity: int, need: Need): Fingerprint {
    Fingerprint(lotId, quantity, need.specId, need.deliveryDays)
  }

  predicate Mismatch(existing: Reservation, lotId: Text, quantity: int, need: Need) {
    if existing.fingerprint.Some? then existing.fingerprint.value != FingerprintOf(lotId, quantity, need)
    else existing.lotId != lotId || existing.quantity != quantity
  }

  function Taken(lot: Lot, quantity: int): Lot {
    lot.(available := lot.available - quantity, reserved := lot.reserved + quantity,
         status := if lot.available == quantity then RESERVED else VERIFIED_ELIGIBLE)
  }

  function Reserve(v: Inventory, lotId: Text, quantity: Option<int>, key: Text, need: Need, now: Instant): Result<Inventory> {
    if key == [] then Err(RESERVATION_ID_REQUIRED)
    else if quantity.None? || quantity.value <= 0 then Err(INVALID_RESERVATION_QUANTITY)
    else if key in v.reservations then
      if Mismatch(v.reservations[key], lotId, quantity.value, need) then Err(RESERVATION_ID_REUSE_MISMATCH) else Ok(v)
    else
      var i := LotAt(v.lots, lotId);
      if i == |v.lots| then Err(LOT_NOT_FOUND)
      else
        var checks := VerifyLot(v.lots[i], need.(quantity := quantity.value), now);
        var failed := FirstFailed(checks);
        if failed.Some? then Err(failed.value)
        else
          var r := Reservation(key, lotId, quantity.value, HELD, checks, Some(FingerprintOf(lotId, quantity.value, need)));
          Ok(v.(lots := v.lots[i := Taken(v.lots[i], quantity.value)], reservations := v.reservations[key := r]))
  }

  function MarkDelivered(v: Inventory, key: Text): Result<Inventory> {
    if key !in v.reservations then Err(RESERVATION_NOT_FOUND)
    else
      var r := v.reservations[key];
      if r.status != HELD then Err(INVALID_DELIVERY_STATE)
      else Ok(v.(reservations := v.reservations[key := r.(status := SHIPPED)],
                 lots := WithStatus(v.lots, r.lotId, _ => DELIVERED)))
  }

  function StatusAfter(lot: Lot, passed: bool): LotStatus {
    if !passed then QUARANTINED else if lot.available > 0 then VERIFIED_ELIGIBLE else INSPECTED
  }

  function Inspect(v: Inventory, key: Text, specMatch: bool, qualityPass: bool): Result<Inventory> {
    if key !in v.reservations then Err(RESERVATION_NOT_FOUND)
    else
      var r := v.reservations[key];
      if r.status != HELD && r.status != SHIPPED then Err(INVALID_INSPECTION_STATE)
      else
        var passed := specMatch && qualityPass;
        var status := if passed then PASSED else FAILED;
        Ok(Inventory(WithStatus(v.lots, r.lotId, lot => StatusAfter(lot, passed)),
                     v.reservations[key := r.(status := status)],
                     v.inspections[r.reservationId := Inspection(r.reservationId, specMatch, qualityPass, status)]))
  }

  // ---- the class ----

  class EvidenceLockedInventory {
    var lots: seq<Lot>
    var reservations: map<Text, Reservation>
    var inspections: map<Text, Inspection>

    constructor ()
      ensures State() == EMPTY
    {
      lots, reservations, inspections := [], map[], map[];
    }

    function State(): Inventory
      reads this
    {
      Inventory(lots, reservations, inspections)
    }

    method Register(f: LotForm) returns (refused: Option<Code>)
      modifies this
      ensures var r := RegisterLot(old(State()), f);
              if r.Ok? then refused == None && State() == r.value else refused == Some(r.code) && State() == old(State())
    {
      if f.lotId == [] { return Some(LOT_ID_REQUIRED); }
      if LotAt(lots, f.lotId) < |lots| { return Some(LOT_ALREADY_EXISTS); }
      if !ValidNumbers(f) { return Some(INVALID_LOT); }
      lots := lots + [Lot(f.lotId, f.supplier, f.supplierId, f.supplierOrganizationId, f.specId, f.askPrice.value, Filled(f.terms),
                          f.available.value, f.reserved.value, f.status, f.evidence, f.deliveryDays.value)];
      refused := None;
    }

    method Find(need: Need, price: Option<int>, now: Instant) returns (found: Option<Lot>)
      ensures found.None? ==> forall i :: 0 <= i < |lots| ==> !Qualifies(lots[i], need, price, now)
      ensures found.Some? ==> exists i: nat :: IsBest(lots, need, price, now, i) && found.value == lots[i]
    {
      var i := FindEligible(lots, need, price, now);
      found := if i.Some? then Some(lots[i.value]) else None;
    }

    method Hold(lotId: Text, quantity: Option<int>, key: Text, need: Need, now: Instant) returns (refused: Option<Code>)
      modifies this
      ensures var r := Reserve(old(State()), lotId, quantity, key, need, now);
              if r.Ok? then refused == None && State() == r.value else refused == Some(r.code) && State() == old(State())
    {
      if key == [] { return Some(RESERVATION_ID_REQUIRED); }
      if quantity.None? || quantity.value <= 0 { return Some(INVALID_RESERVATION_QUANTITY); }
      var q := quantity.value;
      if key in reservations {
        return if Mismatch(reservations[key], lotId, q, need) then Some(RESERVATION_ID_REUSE_MISMATCH) else None;
      }
      var i := LotAt(lots, lotId);
      if i == |lots| { return Some(LOT_NOT_FOUND); }
      var lot := lots[i];
      var checks := VerifyLot(lot, need.(quantity := q), now);
      var failed := FirstFailed(checks);
      if failed.Some? { return failed; }
      lot := lot.(available := lot.available - q);
      lot := lot.(reserved := lot.reserved + q);
      lot := lot.(status := if lot.available == 0 then RESERVED else VERIFIED_ELIGIBLE);
      lots := lots[i := lot];
      reservations := reservations[key := Reservation(key, lotId, q, HELD, checks, Some(FingerprintOf(lotId, q, need)))];
      refused := None;
    }

    method Deliver(key: Text) returns (refused: Option<Code>)
      modifies this
      ensures var r := MarkDelivered(old(State()), key);
              if r.Ok? then refused == None && State() == r.value else refused == Some(r.code) && State() == old(State())
    {
      if key !in reservations { return Some(RESERVATION_NOT_FOUND); }
      var r := reservations[key];
      if r.status != HELD { return Some(INVALID_DELIVERY_STATE); }
      reservations := reservations[key := r.(status := SHIPPED)];
      var i := LotAt(lots, r.lotId);
      if i < |lots| { lots := lots[i := lots[i].(status := DELIVERED)]; }
      refused := None;
    }

    method Examine(key: Text, specMatch: bool, qualityPass: bool) returns (refused: Option<Code>)
      modifies this
      ensures var r := Inspect(old(State()), key, specMatch, qualityPass);
              if r.Ok? then refused == None && State() == r.value else refused == Some(r.code) && State() == old(State())
    {
      if key !in reservations { return Some(RESERVATION_NOT_FOUND); }
      var r := reservations[key];
      if r.status != HELD && r.status != SHIPPED { return Some(INVALID_INSPECTION_STATE); }
      var passed := specMatch && qualityPass;
      r := r.(status := if passed then PASSED else FAILED);
      reservations := reservations[key := r];
      inspections := inspections[r.reservationId := Inspection(r.reservationId, specMatch, qualityPass, r.status)];
      var i := LotAt(lots, r.lotId);
      if i < |lots| {
        if !passed { lots := lots[i := lots[i].(status := QUARANTINED)]; }
        else if lots[i].available > 0 { lots := lots[i := lots[i].(status := VERIFIED_ELIGIBLE)]; }
        else { lots := lots[i := lots[i].(status := INSPECTED)]; }
      }
      refused := None;
    }
  }
}
