/** Any number of transactions calling `reserve_lot` at once (data/postgres-schema.sql:321-359).

    Each statement of the function is one step.  A statement reads the committed tables
    plus the transaction's own writes; advisory locks are taken on a hash of the lot id,
    are exclusive, and last until the transaction ends.  A step that would have to wait
    leaves the state alone, and a transaction may be aborted at any point.  The result is
    serializability: the committed tables are always those of the committed calls run one
    after another, in commit order, by `ReserveLot.Reserve`. */
module ReserveProtocol {
  import opened ReserveLot

  type TxnId = nat

  datatype Phase =
    | Ready                       // between two calls, or finished with all of them
    | Called(call: Call)          // waiting for the advisory lock
    | Locked(call: Call)          // lock held, key not looked up yet
    | Missing(call: Call)         // no reservation under the key
    | Taken(call: Call)           // stock subtracted, row not inserted yet

  /** A call together with the id it returned. */
  datatype Answered = Answered(call: Call, id: ReservationId)

  /** An open transaction: where it stands, its locks, and its uncommitted writes. */
  datatype Txn = Txn(phase: Phase, locks: set<int>, lots: map<LotId, LotRow>,
                     rows: seq<ReservationRow>, done: seq<Answered>)

  /** `history` records the answered calls of the committed transactions, in commit order. */
  datatype State = State(committed: Tables, open: map<TxnId, Txn>, history: seq<Answered>)

  datatype Step =
    | Begin(t: TxnId)
    | Invoke(t: TxnId, call: Call)
    | Lock(t: TxnId)
    | Lookup(t: TxnId)
    | Update(t: TxnId)
    | Insert(t: TxnId)
    | Commit(t: TxnId)
    | Abort(t: TxnId)

  /** What does not change during a run: the orders table and the lock hash, which may collide. */
  datatype World = World(orders: set<OrderId>, hash: LotId -> int)

  // ---- steps ----

  /** What a statement of the transaction sees. */
  function View(committed: Tables, x: Txn): Tables {
    Tables(committed.lots + x.lots, committed.reservations + x.rows)
  }

  predicate LockFree(s: State, t: TxnId, lock: int) {
    forall u :: u in s.open && u != t ==> lock !in s.open[u].locks
  }

  /** The row to be inserted may clash with another transaction's uncommitted row; the
      insert then waits for that transaction to end. */
  predicate InsertWaits(s: State, t: TxnId, c: Call) {
    exists u :: u in s.open && u != t
      && (KeyUsed(s.open[u].rows, c.key) || ActivePair(s.open[u].rows, c.order, c.lot))
  }

  /** The update waits while another transaction has written the lot row. */
  predicate UpdateWaits(s: State, t: TxnId, c: Call) {
    exists u :: u in s.open && u != t && c.lot in s.open[u].lots
  }

  function Put(s: State, t: TxnId, x: Txn): State {
    s.(open := s.open[t := x])
  }

  function Drop(s: State, t: TxnId): State {
    s.(open := s.open - {t})
  }

  function LookupStep(s: State, t: TxnId): State
    requires t in s.open && s.open[t].phase.Locked?
  {
    var x := s.open[t];
    var c := x.phase.call;
    var rows := View(s.committed, x).reservations;
    if KeyUsed(rows, c.key) then
      Put(s, t, x.(phase := Ready, done := x.done + [Answered(c, RowOfKey(rows, c.key).id)]))
    else Put(s, t, x.(phase := Missing(c)))
  }

  /** The transaction after its update has subtracted the stock. */
  function WithTaken(committed: Tables, x: Txn): Txn
    requires x.phase.Missing? && Eligible(View(committed, x).lots, x.phase.call)
  {
    var c := x.phase.call;
    x.(phase := Taken(c), lots := x.lots[c.lot := Subtracted(View(committed, x).lots[c.lot], c.quantity)])
  }

  /** The transaction after its insert; the call is answered. */
  function WithRow(x: Txn): Txn
    requires x.phase.Taken?
  {
    var c := x.phase.call;
    x.(phase := Ready, rows := x.rows + [NewRow(c)], done := x.done + [Answered(c, c.freshId)])
  }

  function UpdateStep(s: State, t: TxnId): State
    requires t in s.open && s.open[t].phase.Missing?
  {
    var x := s.open[t];
    var c := x.phase.call;
    var lots := View(s.committed, x).lots;
    if UpdateWaits(s, t, c) then s
    else if !Eligible(lots, c) then Drop(s, t)
    else
      var row := Subtracted(lots[c.lot], c.quantity);
      if !LotChecks(row) then Drop(s, t)
      else Put(s, t, WithTaken(s.committed, x))
  }

  function InsertStep(s: State, w: World, t: TxnId): State
    requires t in s.open && s.open[t].phase.Taken?
  {
    var x := s.open[t];
    var c := x.phase.call;
    if InsertWaits(s, t, c) then s
    else if InsertRefusal(View(s.committed, x).reservations, w.orders, c) != [] then Drop(s, t)
    else Put(s, t, WithRow(x))
  }

  function CommitStep(s: State, t: TxnId): State
    requires t in s.open
  {
    var x := s.open[t];
    State(View(s.committed, x), s.open - {t}, s.history + x.done)
  }

  function Next(s: State, w: World, step: Step): State {
    match step
    case Begin(t) => if t in s.open then s else Put(s, t, Txn(Ready, {}, map[], [], []))
    case Invoke(t, c) =>
      if t in s.open && s.open[t].phase.Ready? then Put(s, t, s.open[t].(phase := Called(c))) else s
    case Lock(t) =>
      if t in s.open && s.open[t].phase.Called? && LockFree(s, t, w.hash(s.open[t].phase.call.lot)) then
        var c := s.open[t].phase.call;
        Put(s, t, s.open[t].(phase := Locked(c), locks := s.open[t].locks + {w.hash(c.lot)}))
      else s
    case Lookup(t) => if t in s.open && s.open[t].phase.Locked? then LookupStep(s, t) else s
    case Update(t) => if t in s.open && s.open[t].phase.Missing? then UpdateStep(s, t) else s
    case Insert(t) => if t in s.open && s.open[t].phase.Taken? then InsertStep(s, w, t) else s
    case Commit(t) => if t in s.open && s.open[t].phase.Ready? then CommitStep(s, t) else s
    case Abort(t) => if t in s.open then Drop(s, t) else s
  }

  function Run(s: State, w: World, steps: seq<Step>): State {
    if steps == [] then s else Next(Run(s, w, steps[..|steps| - 1]), w, steps[|steps| - 1])
  }

  function Start(t: Tables): State {
    State(t, map[], [])
  }

  // ---- the serial meaning of a list of answered calls ----

  datatype Replayed = Agrees(tables: Tables) | Disagrees

  /** Runs the calls one after another; agrees when each returns the recorded id. */
  function Replay(t: Tables, orders: set<OrderId>, calls: seq<Answered>): Replayed {
    if calls == [] then Agrees(t)
    else
      var before := Replay(t, orders, calls[..|calls| - 1]);
      var last := calls[|calls| - 1];
      if before.Disagrees? then Disagrees
      else
        var (t', a) := Reserve(before.tables, orders, last.call);
        if a == Returned(last.id) then Agrees(t') else Disagrees
  }

  lemma {:induction false} ReplayConcat(t: Tables, orders: set<OrderId>, a: seq<Answered>, b: seq<Answered>, mid: Tables)
    requires Replay(t, orders, a) == Agrees(mid)
    ensures Replay(t, orders, a + b) == Replay(mid, orders, b)
  {
    if b == [] {
      assert a + b == a;
    } else {
      assert (a + b)[..|a + b| - 1] == a + b[..|b| - 1];
      ReplayConcat(t, orders, a, b[..|b| - 1], mid);
    }
  }

  // ---- the invariant ----

  ghost predicate LocksCover(w: World, x: Txn) {
    && (forall id :: id in x.lots ==> w.hash(id) in x.locks)
    && (forall i :: 0 <= i < |x.rows| ==> w.hash(x.rows[i].lot) in x.locks)
    && (forall i :: 0 <= i < |x.done| ==> w.hash(x.done[i].call.lot) in x.locks)
    && (x.phase.Locked? || x.phase.Missing? || x.phase.Taken? ==> w.hash(x.phase.call.lot) in x.locks)
  }

  ghost predicate KeysApart(a: seq<ReservationRow>, b: seq<ReservationRow>) {
    forall i, j :: 0 <= i < |a| && 0 <= j < |b| ==> a[i].key != b[j].key
  }

  /** No visible row under the call's key sits on a lot of the same lock. */
  ghost predicate NoRival(w: World, rows: seq<ReservationRow>, c: Call) {
    forall i :: 0 <= i < |rows| && rows[i].key == c.key ==> w.hash(rows[i].lot) != w.hash(c.lot)
  }

  ghost predicate LotsExplained(serial: map<LotId, LotRow>, view: map<LotId, LotRow>, phase: Phase) {
    match phase
    case Taken(c) =>
      && Eligible(serial, c)
      && LotChecks(Subtracted(serial[c.lot], c.quantity))
      && view == serial[c.lot := Subtracted(serial[c.lot], c.quantity)]
    case _ => view == serial
  }

  /** What a transaction has written so far is what its answered calls do when they are run
      on the committed tables, apart from the subtraction of a call in progress. */
  ghost predicate Justified(committed: Tables, w: World, x: Txn) {
    && Replay(committed, w.orders, x.done).Agrees?
    && var serial := Replay(committed, w.orders, x.done).tables;
       var view := View(committed, x);
       && serial.reservations == view.reservations
       && LotsExplained(serial.lots, view.lots, x.phase)
       && (x.phase.Missing? || x.phase.Taken? ==> NoRival(w, view.reservations, x.phase.call))
  }

  ghost predicate TxnOk(s: State, w: World, t: TxnId)
    requires t in s.open
  {
    && LocksCover(w, s.open[t])
    && KeysApart(s.committed.reservations, s.open[t].rows)
    && Justified(s.committed, w, s.open[t])
  }

  ghost predicate Apart(a: Txn, b: Txn) {
    a.locks !! b.locks && KeysApart(a.rows, b.rows)
  }

  ghost predicate Inv(s: State, w: World, start: Tables) {
    && Replay(start, w.orders, s.history) == Agrees(s.committed)
    && (forall t :: t in s.open ==> TxnOk(s, w, t))
    && (forall t, u :: t in s.open && u in s.open && t != u ==> Apart(s.open[t], s.open[u]))
  }

  // ---- each step keeps it ----

  /** A step that replaces or adds one transaction, committing nothing, keeps the
      invariant when that transaction stays in order and apart from the others. */
  lemma PutKeeps(s: State, w: World, start: Tables, t: TxnId, x: Txn)
    requires Inv(s, w, start)
    requires LocksCover(w, x) && KeysApart(s.committed.reservations, x.rows) && Justified(s.committed, w, x)
    requires forall u :: u in s.open && u != t ==> Apart(x, s.open[u]) && Apart(s.open[u], x)
    ensures Inv(Put(s, t, x), w, start)
  {
    var s' := Put(s, t, x);
    forall u | u in s'.open ensures TxnOk(s', w, u) {
      if u != t { assert TxnOk(s, w, u); }
    }
  }

  lemma DropKeeps(s: State, w: World, start: Tables, t: TxnId)
    requires Inv(s, w, start)
    ensures Inv(Drop(s, t), w, start)
  {
  }

  lemma LookupKeeps(s: State, w: World, start: Tables, t: TxnId)
    requires Inv(s, w, start) && t in s.open && s.open[t].phase.Locked?
    ensures Inv(LookupStep(s, t), w, start)
  {
    var x := s.open[t];
    var c := x.phase.call;
    assert TxnOk(s, w, t);
    var rows := View(s.committed, x).reservations;
    if KeyUsed(rows, c.key) {
      var one := Answered(c, RowOfKey(rows, c.key).id);
      var x' := x.(phase := Ready, done := x.done + [one]);
      assert x'.done[..|x'.done| - 1] == x.done;
      PutKeeps(s, w, start, t, x');
    } else {
      PutKeeps(s, w, start, t, x.(phase := Missing(c)));
    }
  }

  lemma JustifiedAfterUpdate(committed: Tables, w: World, x: Txn)
    requires Justified(committed, w, x) && x.phase.Missing?
    requires Eligible(View(committed, x).lots, x.phase.call)
    requires LotChecks(Subtracted(View(committed, x).lots[x.phase.call.lot], x.phase.call.quantity))
    ensures Justified(committed, w, WithTaken(committed, x))
  {
  }

  lemma UpdateKeeps(s: State, w: World, start: Tables, t: TxnId)
    requires Inv(s, w, start) && t in s.open && s.open[t].phase.Missing?
    ensures Inv(UpdateStep(s, t), w, start)
  {
    var x := s.open[t];
    var lots := View(s.committed, x).lots;
    if UpdateWaits(s, t, x.phase.call) {
    } else if !Eligible(lots, x.phase.call) || !LotChecks(Subtracted(lots[x.phase.call.lot], x.phase.call.quantity)) {
      DropKeeps(s, w, start, t);
    } else {
      assert TxnOk(s, w, t);
      JustifiedAfterUpdate(s.committed, w, x);
      PutKeeps(s, w, start, t, WithTaken(s.committed, x));
    }
  }

  lemma JustifiedAfterInsert(committed: Tables, w: World, x: Txn)
    requires Justified(committed, w, x) && x.phase.Taken?
    requires InsertRefusal(View(committed, x).reservations, w.orders, x.phase.call) == []
    ensures Justified(committed, w, WithRow(x))
  {
  }

  lemma InsertKeeps(s: State, w: World, start: Tables, t: TxnId)
    requires Inv(s, w, start) && t in s.open && s.open[t].phase.Taken?
    ensures Inv(InsertStep(s, w, t), w, start)
  {
    var x := s.open[t];
    if InsertWaits(s, t, x.phase.call) {
    } else if InsertRefusal(View(s.committed, x).reservations, w.orders, x.phase.call) != [] {
      DropKeeps(s, w, start, t);
    } else {
      assert TxnOk(s, w, t);
      JustifiedAfterInsert(s.committed, w, x);
      InsertedKeyIsNew(s.committed, x);
      forall u | u in s.open && u != t ensures Apart(WithRow(x), s.open[u]) && Apart(s.open[u], WithRow(x)) {
        assert Apart(x, s.open[u]) && Apart(s.open[u], x);
        InsertedKeyIsApart(x, s.open[u]);
      }
      PutKeeps(s, w, start, t, WithRow(x));
    }
  }

  lemma InsertedKeyIsNew(committed: Tables, x: Txn)
    requires x.phase.Taken? && KeysApart(committed.reservations, x.rows)
    requires !KeyUsed(View(committed, x).reservations, x.phase.call.key)
    ensures KeysApart(committed.reservations, WithRow(x).rows)
  {
    var rows := View(committed, x).reservations;
    assert forall i :: 0 <= i < |committed.reservations| ==> committed.reservations[i] == rows[i];
  }

  lemma InsertedKeyIsApart(x: Txn, y: Txn)
    requires x.phase.Taken? && KeysApart(x.rows, y.rows) && KeysApart(y.rows, x.rows)
    requires !KeyUsed(y.rows, x.phase.call.key)
    ensures KeysApart(WithRow(x).rows, y.rows) && KeysApart(y.rows, WithRow(x).rows)
  {
  }

  // ---- a commit seen by the transactions still open ----

  lemma {:induction false} ReplayGrows(t: Tables, orders: set<OrderId>, calls: seq<Answered>)
    requires Replay(t, orders, calls).Agrees?
    ensures t.reservations <= Replay(t, orders, calls).tables.reservations
  {
    if calls != [] {
      ReplayGrows(t, orders, calls[..|calls| - 1]);
    }
  }

  datatype Cell = Absent | Present(row: LotRow)

  function At(lots: map<LotId, LotRow>, id: LotId): Cell {
    if id in lots then Present(lots[id]) else Absent
  }

  lemma SameLots(a: map<LotId, LotRow>, b: map<LotId, LotRow>)
    requires forall id :: At(a, id) == At(b, id)
    ensures a == b
  {
    assert forall id :: id in a <==> At(a, id).Present?;
    assert forall id :: id in b <==> At(b, id).Present?;
    assert forall id :: id in a ==> At(a, id) == Present(a[id]) && At(b, id) == Present(b[id]);
  }

  /** The two tables differ only by another transaction's commit: its rows `extra`, and
      lots under locks outside `locks`. */
  ghost predicate DiffersOutside(w: World, locks: set<int>, before: Tables, after: Tables, extra: seq<ReservationRow>) {
    && after.reservations == before.reservations + extra
    && (forall i :: 0 <= i < |extra| ==> w.hash(extra[i].lot) !in locks)
    && (forall id :: w.hash(id) in locks ==> At(before.lots, id) == At(after.lots, id))
  }

  /** What replaying calls under `locks` from either table leads to. */
  ghost predicate Parallel(w: World, locks: set<int>, before: Tables, after: Tables, extra: seq<ReservationRow>,
                           before': Tables, after': Tables) {
    && before.reservations <= before'.reservations
    && after'.reservations == after.reservations + before'.reservations[|before.reservations|..]
    && LotsParallel(w, locks, before.lots, after.lots, before'.lots, after'.lots)
  }

  /** Under the locks the two replays agree; outside them each is where it started. */
  ghost predicate LotsParallel(w: World, locks: set<int>, before: map<LotId, LotRow>, after: map<LotId, LotRow>,
                               before': map<LotId, LotRow>, after': map<LotId, LotRow>) {
    && (forall id :: w.hash(id) in locks ==> At(before', id) == At(after', id))
    && (forall id :: w.hash(id) !in locks ==> At(before', id) == At(before, id) && At(after', id) == At(after, id))
  }

  lemma {:induction false} RowOfKeyConcat(a: seq<ReservationRow>, b: seq<ReservationRow>, key: string)
    ensures KeyUsed(a + b, key) <==> KeyUsed(a, key) || KeyUsed(b, key)
    ensures KeyUsed(a, key) ==> RowOfKey(a + b, key) == RowOfKey(a, key)
    ensures !KeyUsed(a, key) && KeyUsed(b, key) ==> RowOfKey(a + b, key) == RowOfKey(b, key)
  {
    if a == [] {
      assert a + b == b;
    } else {
      RowOfKeyConcat(a[1..], b, key);
      assert (a + b)[1..] == a[1..] + b;
      KeyUsedHeadTail(a, key);
      KeyUsedHeadTail(a + b, key);
    }
  }

  lemma KeyUsedHeadTail(rows: seq<ReservationRow>, key: string)
    requires rows != []
    ensures KeyUsed(rows, key) <==> rows[0].key == key || KeyUsed(rows[1..], key)
  {
  }

  /** Another transaction's rows between one's own and the older ones change no lookup. */
  lemma RowOfKeySkips(a: seq<ReservationRow>, extra: seq<ReservationRow>, b: seq<ReservationRow>, key: string)
    requires KeyUsed(a + b, key)
    requires KeyUsed(a, key) || !KeyUsed(extra, key)
    ensures KeyUsed(a + extra + b, key) && RowOfKey(a + extra + b, key) == RowOfKey(a + b, key)
  {
    RowOfKeyConcat(a, b, key);
    RowOfKeyConcat(a, extra, key);
    RowOfKeyConcat(a + extra, b, key);
  }

  lemma ParallelCall(w: World, locks: set<int>, before: Tables, after: Tables, extra: seq<ReservationRow>,
                     b: Tables, a: Tables, c: Call)
    requires DiffersOutside(w, locks, before, after, extra)
    requires Parallel(w, locks, before, after, extra, b, a)
    requires w.hash(c.lot) in locks
    requires Reserve(b, w.orders, c).1.Returned?
    requires KeysApart(extra, Reserve(b, w.orders, c).0.reservations[|before.reservations|..])
    ensures var (b', id) := Reserve(b, w.orders, c);
            var (a', id') := Reserve(a, w.orders, c);
            id' == id && Parallel(w, locks, before, after, extra, b', a')
  {
    var own := b.reservations[|before.reservations|..];
    var (b', _) := Reserve(b, w.orders, c);
    assert b.reservations == before.reservations + own;
    assert a.reservations == before.reservations + extra + own;
    var own' := b'.reservations[|before.reservations|..];
    if KeyUsed(b.reservations, c.key) {
      RowOfKeyConcat(before.reservations, own, c.key);
      if KeyUsed(own, c.key) {
        var k :| 0 <= k < |own| && own[k].key == c.key;
        assert !KeyUsed(extra, c.key);
      }
      RowOfKeySkips(before.reservations, extra, own, c.key);
    } else {
      assert own' == own + [NewRow(c)];
      assert own'[|own|].key == c.key;
      NotInExtra(before.reservations, extra, own, c, w, locks);
      assert a.reservations + [NewRow(c)] == after.reservations + own';
    }
  }

  /** A key and an active pair absent from the transaction's view stay absent when another
      transaction's rows join it. */
  lemma NotInExtra(base: seq<ReservationRow>, extra: seq<ReservationRow>, own: seq<ReservationRow>, c: Call,
                   w: World, locks: set<int>)
    requires w.hash(c.lot) in locks && forall i :: 0 <= i < |extra| ==> w.hash(extra[i].lot) !in locks
    requires forall i :: 0 <= i < |extra| ==> extra[i].key != c.key
    requires !KeyUsed(base + own, c.key) && !ActivePair(base + own, c.order, c.lot)
    ensures !KeyUsed(base + extra + own, c.key) && !ActivePair(base + extra + own, c.order, c.lot)
  {
    var all := base + extra + own;
    forall i | 0 <= i < |all|
      ensures all[i].key != c.key && !(all[i].order == c.order && all[i].lot == c.lot && all[i].state == ACTIVE)
    {
      if i < |base| {
        assert all[i] == (base + own)[i];
      } else if i < |base| + |extra| {
        assert all[i] == extra[i - |base|];
      } else {
        assert all[i] == (base + own)[i - |extra|];
      }
    }
  }

  lemma {:induction false} ReplayParallel(w: World, locks: set<int>, before: Tables, after: Tables,
                                          extra: seq<ReservationRow>, calls: seq<Answered>)
    requires DiffersOutside(w, locks, before, after, extra)
    requires forall i :: 0 <= i < |calls| ==> w.hash(calls[i].call.lot) in locks
    requires Replay(before, w.orders, calls).Agrees?
    requires before.reservations <= Replay(before, w.orders, calls).tables.reservations
    requires KeysApart(extra, Replay(before, w.orders, calls).tables.reservations[|before.reservations|..])
    ensures Replay(after, w.orders, calls).Agrees?
    ensures Parallel(w, locks, before, after, extra,
                     Replay(before, w.orders, calls).tables, Replay(after, w.orders, calls).tables)
  {
    if calls != [] {
      var pre, last := calls[..|calls| - 1], calls[|calls| - 1];
      ReplayGrows(before, w.orders, pre);
      var b := Replay(before, w.orders, pre).tables;
      var b' := Replay(before, w.orders, calls).tables;
      assert KeysApart(extra, b.reservations[|before.reservations|..]) by {
        var rows, rows' := b.reservations[|before.reservations|..], b'.reservations[|before.reservations|..];
        assert forall j :: 0 <= j < |rows| ==> rows[j] == rows'[j];
      }
      ReplayParallel(w, locks, before, after, extra, pre);
      ParallelCall(w, locks, before, after, extra, b, Replay(after, w.orders, pre).tables, last.call);
    }
  }

  lemma CommitKeepsOther(s: State, w: World, start: Tables, t: TxnId, u: TxnId)
    requires Inv(s, w, start) && t in s.open && u in s.open && t != u && s.open[t].phase.Ready?
    ensures TxnOk(CommitStep(s, t), w, u)
  {
    assert TxnOk(s, w, t) && TxnOk(s, w, u) && Apart(s.open[t], s.open[u]);
    JustifiedAfterCommit(s.committed, w, s.open[t], s.open[u]);
    var rows := s.committed.reservations;
    assert KeysApart(rows + s.open[t].rows, s.open[u].rows);
  }

  lemma JustifiedAfterCommit(base: Tables, w: World, x: Txn, y: Txn)
    requires LocksCover(w, x) && LocksCover(w, y) && Apart(x, y) && Justified(base, w, y)
    ensures Justified(View(base, x), w, y)
  {
    SerialAfterCommit(base, w, x, y);
    assert (base.reservations + x.rows) + y.rows == View(View(base, x), y).reservations;
    LotsExplainedAfterCommit(w, y.locks, base.lots, x.lots, y.lots, Replay(base, w.orders, y.done).tables.lots,
                             Replay(View(base, x), w.orders, y.done).tables.lots, y.phase);
    if y.phase.Missing? || y.phase.Taken? {
      NoRivalAfter(w, base.reservations, x, y);
    }
  }

  lemma LotsExplainedAfterCommit(w: World, locks: set<int>, base: map<LotId, LotRow>, x: map<LotId, LotRow>,
                                 y: map<LotId, LotRow>, serial: map<LotId, LotRow>, serial': map<LotId, LotRow>, phase: Phase)
    requires forall id :: id in x ==> w.hash(id) !in locks
    requires forall id :: id in y ==> w.hash(id) in locks
    requires phase.Taken? ==> w.hash(phase.call.lot) in locks
    requires LotsParallel(w, locks, base, base + x, serial, serial')
    requires LotsExplained(serial, base + y, phase)
    ensures LotsExplained(serial', (base + x) + y, phase)
  {
    if phase.Taken? {
      var c := phase.call;
      assert At(serial, c.lot) == At(serial', c.lot);
      var taken := map[c.lot := Subtracted(serial[c.lot], c.quantity)];
      LotsAfterCommit(w, locks, base, x, y, serial, serial', taken);
    } else {
      LotsAfterCommit(w, locks, base, x, y, serial, serial', map[]);
    }
  }

  lemma SerialAfterCommit(base: Tables, w: World, x: Txn, y: Txn)
    requires LocksCover(w, x) && LocksCover(w, y) && Apart(x, y) && Justified(base, w, y)
    ensures Replay(View(base, x), w.orders, y.done).Agrees?
    ensures var serial' := Replay(View(base, x), w.orders, y.done).tables;
            && serial'.reservations == (base.reservations + x.rows) + y.rows
            && LotsParallel(w, y.locks, base.lots, base.lots + x.lots,
                            Replay(base, w.orders, y.done).tables.lots, serial'.lots)
  {
    var after := View(base, x);
    forall id | w.hash(id) in y.locks ensures At(base.lots, id) == At(after.lots, id) {
      assert id !in x.lots;
    }
    var serial := Replay(base, w.orders, y.done).tables;
    assert serial.reservations[|base.reservations|..] == y.rows;
    ReplayParallel(w, y.locks, base, after, x.rows, y.done);
  }

  lemma NoRivalAfter(w: World, base: seq<ReservationRow>, x: Txn, y: Txn)
    requires (y.phase.Missing? || y.phase.Taken?) && LocksCover(w, x) && LocksCover(w, y) && x.locks !! y.locks
    requires NoRival(w, base + y.rows, y.phase.call)
    ensures NoRival(w, base + x.rows + y.rows, y.phase.call)
  {
    var all := base + x.rows + y.rows;
    forall i | 0 <= i < |all| && all[i].key == y.phase.call.key ensures w.hash(all[i].lot) != w.hash(y.phase.call.lot) {
      if i < |base| {
        assert all[i] == (base + y.rows)[i];
      } else if i < |base| + |x.rows| {
        assert all[i] == x.rows[i - |base|];
      } else {
        assert all[i] == (base + y.rows)[i - |x.rows|];
      }
    }
  }

  /** The lots the other transaction sees after the commit are the serial ones again.
      `taken` is the subtraction of its call in progress, if any. */
  lemma LotsAfterCommit(w: World, locks: set<int>, base: map<LotId, LotRow>, x: map<LotId, LotRow>, y: map<LotId, LotRow>,
                        serial: map<LotId, LotRow>, serial': map<LotId, LotRow>, taken: map<LotId, LotRow>)
    requires forall id :: id in x ==> w.hash(id) !in locks
    requires forall id :: id in y ==> w.hash(id) in locks
    requires forall id :: id in taken ==> w.hash(id) in locks
    requires LotsParallel(w, locks, base, base + x, serial, serial')
    requires base + y == serial + taken
    ensures (base + x) + y == serial' + taken
  {
    forall id ensures At((base + x) + y, id) == At(serial' + taken, id) {
      assert At(base + y, id) == At(serial + taken, id);
      assert At(base + x, id) == if id in x then Present(x[id]) else At(base, id);
      if w.hash(id) in locks {
        assert At(base + x + y, id) == At(base + y, id);
        assert At(serial' + taken, id) == At(serial + taken, id);
      } else {
        assert At(base + x + y, id) == At(base + x, id);
        assert At(serial' + taken, id) == At(serial', id);
      }
    }
    SameLots((base + x) + y, serial' + taken);
  }

  lemma CommitKeeps(s: State, w: World, start: Tables, t: TxnId)
    requires Inv(s, w, start) && t in s.open && s.open[t].phase.Ready?
    ensures Inv(CommitStep(s, t), w, start)
  {
    var s' := CommitStep(s, t);
    assert TxnOk(s, w, t);
    ReplayConcat(start, w.orders, s.history, s.open[t].done, s.committed);
    forall u | u in s'.open ensures TxnOk(s', w, u) {
      CommitKeepsOther(s, w, start, t, u);
    }
  }

  /** Begin, invoke and lock write no rows. */
  lemma QuietStepKeeps(s: State, w: World, start: Tables, step: Step)
    requires Inv(s, w, start) && (step.Begin? || step.Invoke? || step.Lock?)
    ensures Inv(Next(s, w, step), w, start)
  {
    if Next(s, w, step) != s {
      var t := step.t;
      if t in s.open {
        assert TxnOk(s, w, t);
      }
      PutKeeps(s, w, start, t, Next(s, w, step).open[t]);
    }
  }

  lemma NextKeeps(s: State, w: World, start: Tables, step: Step)
    requires Inv(s, w, start)
    ensures Inv(Next(s, w, step), w, start)
  {
    if step.Begin? || step.Invoke? || step.Lock? {
      QuietStepKeeps(s, w, start, step);
    } else if Next(s, w, step) != s {
      match step
      case Lookup(t) => LookupKeeps(s, w, start, t);
      case Update(t) => UpdateKeeps(s, w, start, t);
      case Insert(t) => InsertKeeps(s, w, start, t);
      case Commit(t) => CommitKeeps(s, w, start, t);
      case Abort(t) => DropKeeps(s, w, start, t);
    }
  }

  lemma {:induction false} RunKeeps(start: Tables, w: World, steps: seq<Step>)
    ensures Inv(Run(Start(start), w, steps), w, start)
  {
    if steps != [] {
      RunKeeps(start, w, steps[..|steps| - 1]);
      NextKeeps(Run(Start(start), w, steps[..|steps| - 1]), w, start, steps[|steps| - 1]);
    }
  }

  // ---- the main results ----

  /** Serializability.  Whatever the interleaving, with aborts at any point and colliding
      lock hashes, the committed tables are those of the committed calls run one after
      another in commit order, each returning the id it returned. */
  lemma Serializable(start: Tables, w: World, steps: seq<Step>)
    ensures var s := Run(Start(start), w, steps);
            Replay(start, w.orders, s.history) == Agrees(s.committed)
  {
    RunKeeps(start, w, steps);
  }

  lemma {:induction false} ReplayConserves(t: Tables, orders: set<OrderId>, calls: seq<Answered>)
    requires Conserved(t) && Replay(t, orders, calls).Agrees?
    ensures var r := Replay(t, orders, calls).tables;
            && Conserved(r) && r.lots.Keys == t.lots.Keys
            && (forall id :: id in t.lots ==> r.lots[id].total == t.lots[id].total)
  {
    if calls != [] {
      var pre, last := calls[..|calls| - 1], calls[|calls| - 1];
      ReplayConserves(t, orders, pre);
      ReserveConserves(Replay(t, orders, pre).tables, orders, last.call);
    }
  }

  lemma {:induction false} ReplayHasRows(t: Tables, orders: set<OrderId>, calls: seq<Answered>, i: nat)
    requires Conserved(t) && Replay(t, orders, calls).Agrees? && i < |calls|
    ensures HasRow(Replay(t, orders, calls).tables.reservations, calls[i])
  {
    var pre, last := calls[..|calls| - 1], calls[|calls| - 1];
    ReplayConserves(t, orders, pre);
    ReserveConserves(Replay(t, orders, pre).tables, orders, last.call);
    if i < |pre| {
      ReplayHasRows(t, orders, pre, i);
      HasRowKept(Replay(t, orders, pre).tables.reservations, Replay(t, orders, calls).tables.reservations, pre[i]);
    }
  }

  lemma HasRowKept(rows: seq<ReservationRow>, more: seq<ReservationRow>, a: Answered)
    requires rows <= more && HasRow(rows, a)
    ensures HasRow(more, a)
  {
  }

  /** The id a call returned belongs to a row under the call's key. */
  ghost predicate HasRow(rows: seq<ReservationRow>, a: Answered) {
    exists j :: 0 <= j < |rows| && rows[j].key == a.call.key && rows[j].id == a.id
  }

  /** Stock conservation over every interleaving: in every committed state nothing is
      negative, available + reserved is the lot's total, reserved is the sum over the
      reservation rows, and each key has one row, so it was subtracted once. */
  lemma CommittedStockIsConserved(start: Tables, w: World, steps: seq<Step>)
    requires Conserved(start)
    ensures var t := Run(Start(start), w, steps).committed;
            && Conserved(t) && t.lots.Keys == start.lots.Keys
            && (forall id :: id in start.lots ==> t.lots[id].total == start.lots[id].total)
  {
    Serializable(start, w, steps);
    ReplayConserves(start, w.orders, Run(Start(start), w, steps).history);
  }

  /** All committed calls under one key returned the same id, concurrent or not. */
  lemma OneIdPerKey(start: Tables, w: World, steps: seq<Step>, i: nat, j: nat)
    requires Conserved(start)
    requires var h := Run(Start(start), w, steps).history;
             i < |h| && j < |h| && h[i].call.key == h[j].call.key
    ensures var h := Run(Start(start), w, steps).history; h[i].id == h[j].id
  {
    var s := Run(Start(start), w, steps);
    Serializable(start, w, steps);
    ReplayConserves(start, w.orders, s.history);
    ReplayHasRows(start, w.orders, s.history, i);
    ReplayHasRows(start, w.orders, s.history, j);
    var rows := s.committed.reservations;
    var a :| 0 <= a < |rows| && rows[a].key == s.history[i].call.key && rows[a].id == s.history[i].id;
    var b :| 0 <= b < |rows| && rows[b].key == s.history[j].call.key && rows[b].id == s.history[j].id;
    assert a == b;
  }

  /** A retry on the same lot never races into the unique key: when an insert is about to
      run, a row under its key, committed or still uncommitted elsewhere, is on a lot with
      another lock.  (Two lots under one key can collide; see `CrossLotKeyRace`.) */
  lemma RetryOnSameLotNeverCollides(start: Tables, w: World, steps: seq<Step>, t: TxnId, rival: ReservationRow)
    requires var s := Run(Start(start), w, steps);
             && t in s.open && s.open[t].phase.Taken? && s.open[t].phase.call.key == rival.key
             && (rival in View(s.committed, s.open[t]).reservations
                 || exists u :: u in s.open && u != t && rival in s.open[u].rows)
    ensures var s := Run(Start(start), w, steps);
            w.hash(rival.lot) != w.hash(s.open[t].phase.call.lot) && rival.lot != s.open[t].phase.call.lot
  {
    RunKeeps(start, w, steps);
    var s := Run(Start(start), w, steps);
    var x := s.open[t];
    assert TxnOk(s, w, t);
    if rival !in View(s.committed, x).reservations {
      var u :| u in s.open && u != t && rival in s.open[u].rows;
      assert TxnOk(s, w, u) && Apart(x, s.open[u]);
      var i :| 0 <= i < |s.open[u].rows| && s.open[u].rows[i] == rival;
    }
  }

  /** The function compares only the key: when two lots are reserved under one key at the
      same time, both subtract, and the later insert must wait and then fail. */
  lemma CrossLotKeyRace(s: State, w: World, t: TxnId, u: TxnId)
    requires t in s.open && u in s.open && t != u
    requires s.open[t].phase.Taken? && s.open[u].phase.Ready?
    requires KeyUsed(s.open[u].rows, s.open[t].phase.call.key) && s.open[t].phase.call.quantity > 0
    ensures Next(s, w, Insert(t)) == s
    ensures t !in Next(Next(s, w, Commit(u)), w, Insert(t)).open
         || Next(Next(s, w, Commit(u)), w, Insert(t)) == Next(s, w, Commit(u))
  {
    var c := s.open[t].phase.call;
    assert InsertWaits(s, t, c);
    var s' := Next(s, w, Commit(u));
    var rows := View(s'.committed, s'.open[t]).reservations;
    var i :| 0 <= i < |s.open[u].rows| && s.open[u].rows[i].key == c.key;
    assert rows[|s.committed.reservations| + i].key == c.key;
  }

  // ---- a run into that collision ----

  const FULL := LotRow(1, "S", VERIFIED_ELIGIBLE, 100, 100, 0, 10, 5)

  const TWO_LOTS := Tables(map["A" := FULL, "B" := FULL], [])

  function LotIdOf(n: nat): LotId { if n == 1 then "A" else "B" }

  /** Order 1 on lot A and order 2 on lot B, under one key. */
  function CallOf(n: nat): Call { Call(n, LotIdOf(n), 30, "K", n) }

  /** The k-th step of transaction n. */
  function StepOf(k: nat, n: nat): Step {
    match k
    case 0 => Begin(n)
    case 1 => Invoke(n, CallOf(n))
    case 2 => Lock(n)
    case 3 => Lookup(n)
    case _ => Update(n)
  }

  function Rounds(k: nat): seq<Step> {
    if k == 0 then [] else Rounds(k - 1) + [StepOf(k - 1, 1), StepOf(k - 1, 2)]
  }

  /** The two transactions step by step in turn, each up to its subtraction, and then the first insert. */
  const RACE: seq<Step> := Rounds(5) + [Insert(1)]

  lemma RunTwo(s: State, w: World, pre: seq<Step>, a: Step, b: Step)
    ensures Run(s, w, pre + [a]) == Next(Run(s, w, pre), w, a)
    ensures Run(s, w, pre + [a, b]) == Next(Next(Run(s, w, pre), w, a), w, b)
  {
    hide Next;
    assert pre + [a, b] == (pre + [a]) + [b];
    assert (pre + [a])[..|pre + [a]| - 1] == pre && ((pre + [a]) + [b])[..|pre + [a, b]| - 1] == pre + [a];
  }

  /** Transaction n after its first k steps. */
  function After(w: World, k: nat, n: nat): Txn {
    var c := CallOf(n);
    Txn(match k
        case 1 => Ready
        case 2 => Called(c)
        case 3 => Locked(c)
        case 4 => Missing(c)
        case _ => Taken(c),
        if k >= 3 then {w.hash(c.lot)} else {}, if k >= 5 then map[c.lot := Subtracted(FULL, 30)] else map[], [], [])
  }

  /** The two of them, not begun while they have made no step. */
  function Both(w: World, k: nat, j: nat): State {
    State(TWO_LOTS, (if k > 0 then map[1 := After(w, k, 1)] else map[]) + (if j > 0 then map[2 := After(w, j, 2)] else map[]), [])
  }

  /** Before its update a transaction sees the tables as they were. */
  lemma SeesStart(w: World, k: nat, n: nat)
    requires k < 5
    ensures View(TWO_LOTS, After(w, k, n)) == TWO_LOTS
  {
    hide CallOf;
    assert TWO_LOTS.lots + map[] == TWO_LOTS.lots && TWO_LOTS.reservations + [] == TWO_LOTS.reservations;
  }

  predicate OwnLocks(w: World) { w.orders == {1, 2} && w.hash("A") != w.hash("B") }

  lemma LotsDiffer()
    ensures LotIdOf(1) != LotIdOf(2) && LotIdOf(1) in TWO_LOTS.lots && LotIdOf(2) in TWO_LOTS.lots
    ensures TWO_LOTS.lots[LotIdOf(1)] == FULL && TWO_LOTS.lots[LotIdOf(2)] == FULL
  {
    assert "A"[0] != "B"[0];
  }

  /** The step a transaction takes next when nothing is in its way. */
  lemma Moves(s: State, w: World, i: nat, n: nat)
    requires s.committed == TWO_LOTS && i < 5 && (n == 1 || n == 2)
    requires if i == 0 then n !in s.open else n in s.open && s.open[n] == After(w, i, n)
    requires LockFree(s, n, w.hash(LotIdOf(n))) && !UpdateWaits(s, n, CallOf(n))
    ensures Next(s, w, StepOf(i, n)) == Put(s, n, After(w, i + 1, n))
  {
    hide LockFree;
    hide UpdateWaits;
    SeesStart(w, i, n);
    hide View;
    LotsDiffer();
    hide LotIdOf;
    match i
    case 0 =>
    case 1 =>
    case 2 => assert After(w, 2, n).locks + {w.hash(LotIdOf(n))} == After(w, 3, n).locks;
    case 3 => assert !KeyUsed(TWO_LOTS.reservations, "K");
    case _ => assert WithTaken(TWO_LOTS, s.open[n]) == After(w, 5, n);
  }

  lemma NotInTheWay(w: World, k: nat, j: nat)
    requires OwnLocks(w)
    ensures var s := Both(w, k, j);
            && LockFree(s, 1, w.hash(LotIdOf(1))) && !UpdateWaits(s, 1, CallOf(1))
            && LockFree(s, 2, w.hash(LotIdOf(2))) && !UpdateWaits(s, 2, CallOf(2))
  {
    LotsDiffer();
    var s := Both(w, k, j);
    assert forall u :: u in s.open ==> (u == 1 && s.open[1] == After(w, k, 1)) || (u == 2 && s.open[2] == After(w, j, 2));
  }

  lemma PutMoves(w: World, k: nat, j: nat)
    ensures Put(Both(w, k, j), 1, After(w, k + 1, 1)) == Both(w, k + 1, j)
    ensures Put(Both(w, k, j), 2, After(w, j + 1, 2)) == Both(w, k, j + 1)
  {
    hide After;
  }

  lemma BothSay(w: World, k: nat, j: nat)
    ensures var s := Both(w, k, j);
            && s.committed == TWO_LOTS
            && (if k == 0 then 1 !in s.open else 1 in s.open && s.open[1] == After(w, k, 1))
            && (if j == 0 then 2 !in s.open else 2 in s.open && s.open[2] == After(w, j, 2))
  {
    hide After;
  }

  lemma RoundMoves(w: World, k: nat)
    requires OwnLocks(w) && k < 5
    ensures Next(Next(Both(w, k, k), w, StepOf(k, 1)), w, StepOf(k, 2)) == Both(w, k + 1, k + 1)
  {
    hide Next;
    hide Both;
    hide After;
    hide LockFree;
    hide UpdateWaits;
    BothSay(w, k, k);
    NotInTheWay(w, k, k);
    Moves(Both(w, k, k), w, k, 1);
    PutMoves(w, k, k);
    BothSay(w, k + 1, k);
    NotInTheWay(w, k + 1, k);
    Moves(Both(w, k + 1, k), w, k, 2);
    PutMoves(w, k + 1, k);
  }

  lemma {:induction false} RoundsAre(w: World, k: nat)
    requires OwnLocks(w) && k <= 5
    ensures Run(Start(TWO_LOTS), w, Rounds(k)) == Both(w, k, k)
  {
    if k == 0 {
      assert Both(w, 0, 0).open == map[];
    } else {
      hide Next;
      hide Both;
      RoundsAre(w, k - 1);
      RoundMoves(w, k - 1);
      RunTwo(Start(TWO_LOTS), w, Rounds(k - 1), StepOf(k - 1, 1), StepOf(k - 1, 2));
    }
  }

  /** The first has inserted, the second has subtracted. */
  function Raced(w: World): State { Put(Both(w, 5, 5), 1, WithRow(After(w, 5, 1))) }

  lemma RaceIs(w: World)
    requires OwnLocks(w)
    ensures Run(Start(TWO_LOTS), w, RACE) == Raced(w)
  {
    RoundsAre(w, 5);
    RunTwo(Start(TWO_LOTS), w, Rounds(5), Insert(1), Insert(1));
    hide Run;
    hide Rounds;
    var s := Both(w, 5, 5);
    assert s.open[1] == After(w, 5, 1) && s.open[2] == After(w, 5, 2) && s.open.Keys == {1, 2};
    assert !InsertWaits(s, 1, CallOf(1));
    assert InsertRefusal(View(s.committed, s.open[1]).reservations, w.orders, CallOf(1)) == [];
  }

  /** Both have locked and subtracted; the second insert waits, and fails once the first commits,
      although its own lot had stock. */
  lemma CrossLotKeyRaceRun(w: World)
    requires w.orders == {1, 2} && w.hash("A") != w.hash("B")
    ensures var s := Run(Start(TWO_LOTS), w, RACE);
            && 2 in s.open && s.open[2].phase == Taken(CallOf(2)) && Next(s, w, Insert(2)) == s
            && var end := Next(Next(s, w, Commit(1)), w, Insert(2));
               end.open == map[] && end.history == [Answered(CallOf(1), 1)] && "B" in end.committed.lots && end.committed.lots["B"] == FULL
  {
    RaceIs(w);
    hide Run;
    var s := Raced(w);
    assert 1 in s.open && 2 in s.open && s.open[1] == WithRow(After(w, 5, 1)) && s.open[2] == After(w, 5, 2);
    assert s.open[1].rows[0].key == "K";
    CrossLotKeyRace(s, w, 2, 1);
    RaceEnds(w);
  }

  lemma RaceEnds(w: World)
    requires OwnLocks(w)
    ensures var end := Next(Next(Raced(w), w, Commit(1)), w, Insert(2));
            end.open == map[] && end.history == [Answered(CallOf(1), 1)] && "B" in end.committed.lots && end.committed.lots["B"] == FULL
  {
    LotsDiffer();
    var s := Raced(w);
    assert s.open[1] == WithRow(After(w, 5, 1)) && s.open[2] == After(w, 5, 2) && s.open.Keys == {1, 2};
    var mid := Next(s, w, Commit(1));
    assert mid.history == [Answered(CallOf(1), 1)] && mid.open == map[2 := After(w, 5, 2)];
    assert mid.committed.lots[LotIdOf(2)] == FULL;
    assert View(mid.committed, mid.open[2]).reservations[0].key == "K";
  }
}
