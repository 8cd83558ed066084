/** Runs of the inventory: what is kept about every lot, and when a quarantine is final. */
module Quarantine {
  import opened Texts
  import opened Wrappers
  import opened InventoryLedger

  datatype Action =
    | Registering(form: LotForm)
    | Reserving(lotId: Text, quantity: Option<int>, key: Text, need: Need, now: Instant)
    | Delivering(key: Text)
    | Inspecting(key: Text, specMatch: bool, qualityPass: bool)

  function Attempt(v: Inventory, a: Action): Result<Inventory> {
    match a
    case Registering(form) => RegisterLot(v, form)
    case Reserving(lotId, quantity, key, need, now) => Reserve(v, lotId, quantity, key, need, now)
    case Delivering(key) => MarkDelivered(v, key)
    case Inspecting(key, specMatch, qualityPass) => Inspect(v, key, specMatch, qualityPass)
  }

  /** A refused operation throws before its first write. */
  function Next(v: Inventory, a: Action): Inventory {
    var r := Attempt(v, a);
    if r.Ok? then r.value else v
  }

  function Run(v: Inventory, actions: seq<Action>): Inventory
    decreases |actions|
  {
    if actions == [] then v else Run(Next(v, actions[0]), actions[1..])
  }

  // ---- what every operation keeps ----

  predicate KeysAgree(reservations: map<Text, Reservation>) {
    forall k :: k in reservations ==> reservations[k].reservationId == k
  }

  predicate Sound(v: Inventory) {
    LotIdsDiffer(v.lots) && KeysAgree(v.reservations)
  }

  /** The lot is the same but for its stock split and status; nothing was created or lost,
      and nothing that was reserved came back. */
  predicate SameLot(a: Lot, b: Lot) {
    && b == a.(available := b.available, reserved := b.reserved, status := b.status)
    && a.available + a.reserved == b.available + b.reserved
    && a.reserved <= b.reserved && (a.available >= 0 ==> b.available >= 0)
  }

  /** Lots are only appended, and each keeps its terms and its total. */
  predicate LotsKept(a: seq<Lot>, b: seq<Lot>) {
    |a| <= |b| && forall i :: 0 <= i < |a| ==> SameLot(a[i], b[i])
  }

  lemma ReserveKeeps(v: Inventory, a: Action)
    requires Sound(v) && a.Reserving?
    ensures Sound(Next(v, a)) && LotsKept(v.lots, Next(v, a).lots)
  {
    hide Filled;
    hide EvidenceComplete;
    hide Mismatch;
  }

  lemma OthersKeep(v: Inventory, a: Action)
    requires Sound(v) && !a.Reserving?
    ensures Sound(Next(v, a)) && LotsKept(v.lots, Next(v, a).lots)
  {
    hide Reserve;
    hide Filled;
  }

  lemma StepKeeps(v: Inventory, a: Action)
    requires Sound(v)
    ensures Sound(Next(v, a)) && LotsKept(v.lots, Next(v, a).lots)
  {
    if a.Reserving? { ReserveKeeps(v, a); } else { OthersKeep(v, a); }
  }

  /** Over every run each lot keeps its terms and its total, and stock moves one way. */
  lemma {:induction false} RunKeepsLots(v: Inventory, actions: seq<Action>)
    requires Sound(v)
    ensures Sound(Run(v, actions)) && LotsKept(v.lots, Run(v, actions).lots)
    decreases |actions|
  {
    if actions != [] {
      StepKeeps(v, actions[0]);
      RunKeepsLots(Next(v, actions[0]), actions[1..]);
    }
  }

  // ---- quarantine ----

  predicate Live(r: Reservation, lot: Text) {
    r.lotId == lot && (r.status == HELD || r.status == SHIPPED)
  }

  predicate NoneLive(v: Inventory, lot: Text) {
    forall k :: k in v.reservations ==> !Live(v.reservations[k], lot)
  }

  predicate Quarantined(v: Inventory, lot: Text) {
    var i := LotAt(v.lots, lot);
    i < |v.lots| && v.lots[i].status == QUARANTINED
  }

  ghost predicate StaysQuarantined(v: Inventory, lot: Text) {
    forall actions :: Quarantined(Run(v, actions), lot)
  }

  lemma LotAtIs(lots: seq<Lot>, i: nat)
    requires LotIdsDiffer(lots) && i < |lots|
    ensures LotAt(lots, lots[i].lotId) == i
  {
  }

  /** Quarantined still, no reservation of the lot live, none added. */
  predicate StaysQuiet(v: Inventory, w: Inventory, lot: Text) {
    && Quarantined(w, lot) && NoneLive(w, lot)
    && forall k :: k in w.reservations && k !in v.reservations ==> w.reservations[k].lotId != lot
  }

  lemma QuietReserve(v: Inventory, a: Action, lot: Text)
    requires Sound(v) && Quarantined(v, lot) && NoneLive(v, lot) && a.Reserving?
    ensures StaysQuiet(v, Next(v, a), lot)
    ensures a.lotId == lot && a.key !in v.reservations ==> Attempt(v, a).Err?
  {
    hide Filled;
    hide EvidenceComplete;
    hide Mismatch;
    StepKeeps(v, a);
    LotAtIs(Next(v, a).lots, LotAt(v.lots, lot));
  }

  lemma QuietOther(v: Inventory, a: Action, lot: Text)
    requires Sound(v) && Quarantined(v, lot) && NoneLive(v, lot) && !a.Reserving?
    ensures StaysQuiet(v, Next(v, a), lot)
  {
    hide Filled;
    hide Reserve;
    StepKeeps(v, a);
    LotAtIs(Next(v, a).lots, LotAt(v.lots, lot));
  }

  lemma QuietStep(v: Inventory, a: Action, lot: Text)
    requires Sound(v) && Quarantined(v, lot) && NoneLive(v, lot)
    ensures StaysQuiet(v, Next(v, a), lot)
    ensures a.Reserving? && a.lotId == lot && a.key !in v.reservations ==> Attempt(v, a).Err?
  {
    hide Attempt;
    hide StaysQuiet;
    hide Quarantined;
    hide NoneLive;
    if a.Reserving? { QuietReserve(v, a, lot); } else { QuietOther(v, a, lot); }
  }

  lemma {:induction false} QuietRun(v: Inventory, actions: seq<Action>, lot: Text)
    requires Sound(v) && Quarantined(v, lot) && NoneLive(v, lot)
    ensures Quarantined(Run(v, actions), lot)
    ensures forall k :: k in Run(v, actions).reservations && k !in v.reservations ==> Run(v, actions).reservations[k].lotId != lot
    decreases |actions|
  {
    if actions != [] {
      var w := Next(v, actions[0]);
      QuietStep(v, actions[0], lot);
      StepKeeps(v, actions[0]);
      QuietRun(w, actions[1..], lot);
      KeptReservations(v, actions[0]);
      LotOfReservation(w, actions[1..]);
    }
  }

  lemma KeptReservations(v: Inventory, a: Action)
    ensures forall k :: k in v.reservations ==> k in Next(v, a).reservations && Next(v, a).reservations[k].lotId == v.reservations[k].lotId
  {
  }

  lemma {:induction false} LotOfReservation(v: Inventory, actions: seq<Action>)
    ensures forall k :: k in v.reservations ==>
      k in Run(v, actions).reservations && Run(v, actions).reservations[k].lotId == v.reservations[k].lotId
    decreases |actions|
  {
    if actions != [] {
      KeptReservations(v, actions[0]);
      LotOfReservation(Next(v, actions[0]), actions[1..]);
    }
  }

  /** A reservation still to be inspected can lift the quarantine of its lot. */
  lemma LiveLifts(v: Inventory, lot: Text, key: Text)
    requires Sound(v) && Quarantined(v, lot) && key in v.reservations && Live(v.reservations[key], lot)
    ensures !Quarantined(Run(v, [Inspecting(key, true, true)]), lot)
  {
  }

  /** A quarantine lasts through every continuation exactly when no reservation of the lot
      is still to be inspected. */
  lemma QuarantineIsFinal(v: Inventory, lot: Text)
    requires Sound(v) && Quarantined(v, lot)
    ensures StaysQuarantined(v, lot) <==> NoneLive(v, lot)
  {
    if NoneLive(v, lot) {
      forall actions ensures Quarantined(Run(v, actions), lot) { QuietRun(v, actions, lot); }
    } else {
      var key :| key in v.reservations && Live(v.reservations[key], lot);
      LiveLifts(v, lot, key);
    }
  }

  /** After a failed inspection the lot stays quarantined for good, whatever is called, exactly
      when no other reservation of it was held or shipped; then none is ever added to it. */
  lemma FailedInspectionIsFinal(v: Inventory, key: Text, specMatch: bool, qualityPass: bool)
    requires Sound(v) && Inspect(v, key, specMatch, qualityPass).Ok? && !(specMatch && qualityPass)
    requires LotAt(v.lots, v.reservations[key].lotId) < |v.lots|
    ensures var lot := v.reservations[key].lotId;
            var after := Inspect(v, key, specMatch, qualityPass).value;
            && Quarantined(after, lot)
            && (StaysQuarantined(after, lot)
                <==> forall k :: k in v.reservations && k != key ==> !Live(v.reservations[k], lot))
  {
    var a := Inspecting(key, specMatch, qualityPass);
    var lot := v.reservations[key].lotId;
    StepKeeps(v, a);
    LotAtIs(Next(v, a).lots, LotAt(v.lots, lot));
    QuarantineIsFinal(Next(v, a), lot);
    var after := Next(v, a);
    forall k | k in v.reservations && k != key ensures after.reservations[k] == v.reservations[k] {}
    assert after.reservations.Keys == v.reservations.Keys;
    assert !Live(after.reservations[key], lot);
  }

  // ---- a run in which a quarantine is lifted ----

  const PAPERS := InventoryLedger.Evidence(VALID, VALID, VALID, VALID, VALID, Some(1))

  function FormOf(lot: Text): LotForm {
    LotForm(lot, [], [], [], [], Some(1), CANONICAL, Some(100), Some(0), VERIFIED_ELIGIBLE, PAPERS, Some(1))
  }

  function LotWith(lot: Text, reserved: int, status: LotStatus): Lot {
    Lot(lot, [], [], [], [], 1, CANONICAL, 100 - reserved, reserved, status, PAPERS, 1)
  }

  const WANTED := Need([], 20, 1, CANONICAL)

  function Two(lot: Text, a: Text, b: Text): seq<Action> {
    [Registering(FormOf(lot)), Reserving(lot, Some(20), a, WANTED, 0), Reserving(lot, Some(20), b, WANTED, 0)]
  }

  lemma TakesFromLot(v: Inventory, lot: Text, reserved: int, key: Text)
    requires lot != [] && key != [] && key !in v.reservations && 0 <= reserved <= 60
    requires v.lots == [LotWith(lot, reserved, VERIFIED_ELIGIBLE)]
    ensures var w := Next(v, Reserving(lot, Some(20), key, WANTED, 0));
            && w.lots == [LotWith(lot, reserved + 20, VERIFIED_ELIGIBLE)]
            && w.reservations.Keys == v.reservations.Keys + {key} && Live(w.reservations[key], lot)
            && forall k :: k in v.reservations ==> w.reservations[k] == v.reservations[k]
  {
    assert Filled(CANONICAL) == CANONICAL;
    hide Filled;
    assert LotAt(v.lots, lot) == 0;
    assert AllPass(VerifyLot(v.lots[0], WANTED, 0));
    assert v.lots[0 := Taken(v.lots[0], 20)] == [LotWith(lot, reserved + 20, VERIFIED_ELIGIBLE)];
  }

  lemma Judges(v: Inventory, lot: Text, reserved: int, key: Text, passed: bool)
    requires key in v.reservations && Live(v.reservations[key], lot) && |v.lots| == 1 && v.lots[0].lotId == lot
    ensures var w := Next(v, Inspecting(key, passed, true));
            && |w.lots| == 1 && w.lots[0] == v.lots[0].(status := StatusAfter(v.lots[0], passed))
            && w.reservations.Keys == v.reservations.Keys
            && forall k :: k in v.reservations && k != key ==> w.reservations[k] == v.reservations[k]
  {
  }

  lemma RunOfFour(v: Inventory, a: Action, b: Action, c: Action, d: Action)
    ensures Run(v, [a, b, c, d]) == Next(Next(Next(Next(v, a), b), c), d)
  {
    hide Next;
    var all := [a, b, c, d];
    assert all[1..] == [b, c, d] && all[1..][1..] == [c, d] && all[1..][1..][1..] == [d];
    assert all[1..][1..][1..][1..] == [];
    var v1 := Next(v, a);
    var v2 := Next(v1, b);
    assert Run(v, all) == Run(v1, all[1..]) && Run(v1, all[1..]) == Run(v2, all[1..][1..]);
    assert Run(v2, all[1..][1..]) == Run(Next(v2, c), all[1..][1..][1..]);
  }

  /** Both are reserved on the one lot. */
  predicate BothHeld(v: Inventory, lot: Text, a: Text, b: Text) {
    && v.lots == [LotWith(lot, 40, VERIFIED_ELIGIBLE)] && a in v.reservations && b in v.reservations
    && Live(v.reservations[a], lot) && Live(v.reservations[b], lot)
  }

  lemma TwoHold(lot: Text, a: Text, b: Text)
    requires lot != [] && a != [] && b != [] && a != b
    ensures var s := Two(lot, a, b); BothHeld(Next(Next(Next(EMPTY, s[0]), s[1]), s[2]), lot, a, b)
  {
    var v1 := Next(EMPTY, Registering(FormOf(lot)));
    assert v1.lots == [LotWith(lot, 0, VERIFIED_ELIGIBLE)] && v1.reservations == map[] by {
      assert Filled(CANONICAL) == CANONICAL;
    }
    hide Next;
    hide LotWith;
    TakesFromLot(v1, lot, 0, a);
    TakesFromLot(Next(v1, Reserving(lot, Some(20), a, WANTED, 0)), lot, 20, b);
  }

  lemma FailThenPass(v: Inventory, lot: Text, a: Text, b: Text)
    requires BothHeld(v, lot, a, b) && a != b
    ensures var failed := Next(v, Inspecting(a, false, true));
            Quarantined(failed, lot) && Next(failed, Inspecting(b, true, true)).lots == [LotWith(lot, 40, VERIFIED_ELIGIBLE)]
  {
    var failed := Next(v, Inspecting(a, false, true));
    Judges(v, lot, 40, a, false);
    Judges(failed, lot, 40, b, true);
    hide Next;
    assert LotAt(failed.lots, lot) == 0;
  }

  /** From nothing: one lot, two reservations of it; the first fails inspection and quarantines
      the lot, the second passes and reopens it. */
  lemma LiftRun(lot: Text, a: Text, b: Text)
    requires lot != [] && a != [] && b != [] && a != b
    ensures var failed := Run(EMPTY, Two(lot, a, b) + [Inspecting(a, false, true)]);
            Quarantined(failed, lot) && Run(failed, [Inspecting(b, true, true)]).lots == [LotWith(lot, 40, VERIFIED_ELIGIBLE)]
  {
    var s := Two(lot, a, b);
    var v := Next(Next(Next(EMPTY, s[0]), s[1]), s[2]);
    TwoHold(lot, a, b);
    FailThenPass(v, lot, a, b);
    hide Next;
    hide BothHeld;
    assert s + [Inspecting(a, false, true)] == [s[0], s[1], s[2], Inspecting(a, false, true)];
    RunOfFour(EMPTY, s[0], s[1], s[2], Inspecting(a, false, true));
    assert [Inspecting(b, true, true)][1..] == [];
  }
}
