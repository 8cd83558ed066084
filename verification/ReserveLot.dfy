/** The `reserve_lot` function of data/postgres-schema.sql, run without interruption:
    the rows it reads and writes, and what one call does to them.  Module
    ReserveProtocol runs many such calls interleaved and shows that they amount to this. */
module ReserveLot {

  // Lot ids and idempotency keys are text columns; uuid columns are numbers.
  type LotId = string
  type OrderId = nat
  type ReservationId = nat

  datatype LotState =
    | DRAFT | PENDING_VERIFICATION | VERIFIED_ELIGIBLE | RESERVED | DELIVERED
    | INSPECTED | DISPUTED | QUARANTINED | EXPIRED

  datatype LotRow = LotRow(supplier: nat, spec: string, state: LotState,
                           total: int, available: int, reserved: int, ask: int, deliveryDays: int)

  datatype ReservationState = ACTIVE | RELEASED | CONSUMED | DISPUTED_RESERVATION

  datatype ReservationRow = ReservationRow(id: ReservationId, order: OrderId, lot: LotId,
                                           quantity: int, state: ReservationState, key: string)

  /** The two tables `reserve_lot` writes; reservations in insertion order. */
  datatype Tables = Tables(lots: map<LotId, LotRow>, reservations: seq<ReservationRow>)

  /** One call.  `freshId` is the uuid the database would generate for an inserted row. */
  datatype Call = Call(order: OrderId, lot: LotId, quantity: int, key: string, freshId: ReservationId)

  datatype Refusal = LotNotEligibleOrInsufficient | CheckViolated | ForeignKeyViolated | UniqueViolated

  datatype Answer = Returned(id: ReservationId) | Raised(refusal: Refusal)

  // ---- reading ----

  predicate KeyUsed(rows: seq<ReservationRow>, key: string) {
    exists i :: 0 <= i < |rows| && rows[i].key == key
  }

  /** The row the idempotency lookup selects. */
  function RowOfKey(rows: seq<ReservationRow>, key: string): (r: ReservationRow)
    requires KeyUsed(rows, key)
    ensures r in rows && r.key == key
  {
    if rows[0].key == key then rows[0] else RowOfKey(rows[1..], key)
  }

  predicate ActivePair(rows: seq<ReservationRow>, order: OrderId, lot: LotId) {
    exists i :: 0 <= i < |rows| && rows[i].order == order && rows[i].lot == lot && rows[i].state == ACTIVE
  }

  /** The quantity reserved on a lot according to the reservation rows. */
  function SumOn(rows: seq<ReservationRow>, lot: LotId): int {
    if rows == [] then 0
    else SumOn(rows[..|rows| - 1], lot) + (if rows[|rows| - 1].lot == lot then rows[|rows| - 1].quantity else 0)
  }

  // ---- the statements of the function body ----

  predicate Eligible(lots: map<LotId, LotRow>, c: Call) {
    c.lot in lots && lots[c.lot].state == VERIFIED_ELIGIBLE && lots[c.lot].available >= c.quantity
  }

  function Subtracted(row: LotRow, quantity: int): LotRow {
    row.(available := row.available - quantity,
         reserved := row.reserved + quantity,
         state := if row.available - quantity == 0 then RESERVED else row.state)
  }

  /** The check constraints of the lots table. */
  predicate LotChecks(row: LotRow) {
    row.total > 0 && row.available >= 0 && row.reserved >= 0 && row.available + row.reserved <= row.total
  }

  function NewRow(c: Call): ReservationRow {
    ReservationRow(c.freshId, c.order, c.lot, c.quantity, ACTIVE, c.key)
  }

  /** What the insert refuses: a check, a foreign key or one of the two unique indexes. */
  function InsertRefusal(rows: seq<ReservationRow>, orders: set<OrderId>, c: Call): (r: seq<Refusal>)
    ensures |r| <= 1
  {
    if c.quantity <= 0 then [CheckViolated]
    else if KeyUsed(rows, c.key) || ActivePair(rows, c.order, c.lot) then [UniqueViolated]
    else if c.order !in orders then [ForeignKeyViolated]
    else []
  }

  /** The whole call on tables nobody else touches. */
  function Reserve(t: Tables, orders: set<OrderId>, c: Call): (r: (Tables, Answer))
    ensures r.1.Raised? ==> r.0 == t
  {
    if KeyUsed(t.reservations, c.key) then (t, Returned(RowOfKey(t.reservations, c.key).id))
    else if !Eligible(t.lots, c) then (t, Raised(LotNotEligibleOrInsufficient))
    else
      var row := Subtracted(t.lots[c.lot], c.quantity);
      if !LotChecks(row) then (t, Raised(CheckViolated))
      else
        var refusal := InsertRefusal(t.reservations, orders, c);
        if refusal != [] then (t, Raised(refusal[0]))
        else (Tables(t.lots[c.lot := row], t.reservations + [NewRow(c)]), Returned(c.freshId))
  }

  /** `reserve_lot` as the procedure it is: lookup, update, insert, in place. */
  class LotLedger {
    var lots: map<LotId, LotRow>
    var reservations: seq<ReservationRow>
    const orders: set<OrderId>

    constructor (lots: map<LotId, LotRow>, reservations: seq<ReservationRow>, orders: set<OrderId>)
      ensures Rows() == Tables(lots, reservations) && this.orders == orders
    {
      this.lots, this.reservations, this.orders := lots, reservations, orders;
    }

    function Rows(): Tables
      reads this
    {
      Tables(lots, reservations)
    }

    /** A raised exception undoes the function's own writes. */
    method ReserveLot(c: Call) returns (a: Answer)
      modifies this
      ensures (Rows(), a) == Reserve(old(Rows()), orders, c)
    {
      if KeyUsed(reservations, c.key) {
        return Returned(RowOfKey(reservations, c.key).id);
      }
      if !Eligible(lots, c) {
        return Raised(LotNotEligibleOrInsufficient);
      }
      var before := lots;
      lots := lots[c.lot := Subtracted(lots[c.lot], c.quantity)];
      if !LotChecks(lots[c.lot]) {
        lots := before;
        return Raised(CheckViolated);
      }
      var refusal := InsertRefusal(reservations, orders, c);
      if refusal != [] {
        lots := before;
        return Raised(refusal[0]);
      }
      reservations := reservations + [NewRow(c)];
      return Returned(c.freshId);
    }
  }

  // ---- what the tables keep ----

  ghost predicate LotConserved(t: Tables, id: LotId)
    requires id in t.lots
  {
    && t.lots[id].available >= 0 && t.lots[id].reserved >= 0
    && t.lots[id].available + t.lots[id].reserved == t.lots[id].total
    && t.lots[id].reserved == SumOn(t.reservations, id)
  }

  ghost predicate KeysUnique(rows: seq<ReservationRow>) {
    forall i, j :: 0 <= i < j < |rows| ==> rows[i].key != rows[j].key
  }

  /** Stock conservation: nothing is negative, nothing is lost, and what is reserved is
      exactly what the reservation rows say, one row per idempotency key. */
  ghost predicate Conserved(t: Tables) {
    && (forall id :: id in t.lots ==> LotConserved(t, id))
    && KeysUnique(t.reservations)
    && (forall i :: 0 <= i < |t.reservations| ==> t.reservations[i].quantity > 0 && t.reservations[i].lot in t.lots)
  }

  lemma SumOnAppend(rows: seq<ReservationRow>, row: ReservationRow, lot: LotId)
    ensures SumOn(rows + [row], lot) == SumOn(rows, lot) + (if row.lot == lot then row.quantity else 0)
  {
  }

  lemma {:induction false} RowOfKeyUnique(rows: seq<ReservationRow>, i: nat)
    requires i < |rows| && KeysUnique(rows)
    ensures KeyUsed(rows, rows[i].key) && RowOfKey(rows, rows[i].key) == rows[i]
  {
  }

  /** A call keeps the tables conserved, and the row behind the id it returns is there
      under the call's key; `total` never changes. */
  lemma ReserveConserves(t: Tables, orders: set<OrderId>, c: Call)
    requires Conserved(t)
    ensures var (t', a) := Reserve(t, orders, c);
            && Conserved(t')
            && t.reservations <= t'.reservations
            && t'.lots.Keys == t.lots.Keys
            && (forall id :: id in t.lots ==> t'.lots[id].total == t.lots[id].total)
            && (a.Returned? ==> exists i :: 0 <= i < |t'.reservations| &&
                                  t'.reservations[i].key == c.key && t'.reservations[i].id == a.id)
  {
    var (t', a) := Reserve(t, orders, c);
    if KeyUsed(t.reservations, c.key) {
      var row := RowOfKey(t.reservations, c.key);
      var i :| 0 <= i < |t.reservations| && t.reservations[i] == row;
    } else if a.Returned? {
      assert t'.reservations[|t.reservations|] == NewRow(c);
      forall id | id in t'.lots ensures LotConserved(t', id) {
        SumOnAppend(t.reservations, NewRow(c), id);
        assert LotConserved(t, id);
      }
    }
  }

  /** The tables after some calls, each with the orders of its moment. */
  function Calls(t: Tables, calls: seq<(Call, set<OrderId>)>): Tables
    decreases |calls|
  {
    if calls == [] then t else Calls(Reserve(t, calls[0].1, calls[0].0).0, calls[1..])
  }

  lemma {:induction false} CallsConserve(t: Tables, calls: seq<(Call, set<OrderId>)>)
    requires Conserved(t)
    ensures Conserved(Calls(t, calls)) && t.reservations <= Calls(t, calls).reservations
    decreases |calls|
  {
    hide Reserve;
    hide Conserved;
    if calls != [] {
      ReserveConserves(t, calls[0].1, calls[0].0);
      CallsConserve(Reserve(t, calls[0].1, calls[0].0).0, calls[1..]);
    }
  }

  /** A repeated key subtracts nothing: whatever calls came between and whatever order, lot or
      quantity the second call names, the tables stand still and the first id comes back. */
  lemma RetryReturnsFirstId(t: Tables, orders: set<OrderId>, first: Call, between: seq<(Call, set<OrderId>)>,
                            orders': set<OrderId>, second: Call)
    requires Conserved(t) && first.key == second.key
    requires Reserve(t, orders, first).1.Returned?
    ensures var (t1, a) := Reserve(t, orders, first);
            var t2 := Calls(t1, between);
            Reserve(t2, orders', second) == (t2, a)
  {
    ReserveConserves(t, orders, first);
    var (t1, a) := Reserve(t, orders, first);
    CallsConserve(t1, between);
    var t2 := Calls(t1, between);
    var i :| 0 <= i < |t1.reservations| && t1.reservations[i].key == first.key && t1.reservations[i].id == a.id;
    assert t2.reservations[i] == t1.reservations[i];
    RowOfKeyUnique(t2.reservations, i);
  }
}
