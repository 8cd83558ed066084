/** `runAtomic` of beta-app/persistence-store.mjs: many server processes, each with its own
    in-memory engine, and one log of ledger snapshots under one advisory lock. */
module PersistenceStore {
  import opened Texts
  import opened Wrappers
  import opened InventoryLedger
  import opened SnapshotIntegrity
  import TE = TradeEngine
  import EngineInvariant

  type Engine = TE.Engine
  type Snapshot = TE.Snapshot
  type Step = TE.Step

  /** Where a call of `runAtomic` is: waiting for the lock, holding it, holding it with its
      insert done, holding it after its mutation threw, or rolled back. */
  datatype Phase = Waiting | Holding | Written(snapshot: Snapshot) | Threw | RolledBack

  datatype Call = Call(process: nat, step: Step, before: Snapshot, phase: Phase)

  /** `applied` lists the mutations of the log's entries. */
  datatype World = World(log: seq<Snapshot>, applied: seq<Step>, engines: map<nat, Engine>, calls: map<nat, Call>,
                         holder: Option<nat>)

  const START: World := World([], [], map[], map[], None)

  datatype Move =
    | Begin(call: nat, process: nat, step: Step)
    | Lock(call: nat)
    | Mutate(call: nat)
    | Commit(call: nat)
    | Rollback(call: nat)
    | Recover(call: nat)

  function EngineOf(w: World, process: nat): Engine {
    if process in w.engines then w.engines[process] else TE.INITIAL
  }

  /** The engine a mutation starts from: the last snapshot, or what the process has in memory. */
  ghost function Base(w: World, process: nat): Engine {
    if w.log == [] then EngineOf(w, process) else TE.Restore(w.log[|w.log| - 1])
  }

  function InPhase(w: World, call: nat, c: Call): World {
    w.(calls := w.calls[call := c])
  }

  ghost function Mutated(hash: Hash, w: World, call: nat): World
    requires call in w.calls
  {
    var c := w.calls[call];
    var o := TE.Perform(hash, Base(w, c.process), c.step);
    InPhase(w, call, c.(phase := if o.reply.Thrown? then Threw else Written(TE.SnapshotOf(o.engine))))
    .(engines := w.engines[c.process := o.engine])
  }

  function Committed(w: World, call: nat): World
    requires call in w.calls && w.calls[call].phase.Written?
  {
    w.(log := w.log + [w.calls[call].phase.snapshot], applied := w.applied + [w.calls[call].step],
       calls := w.calls - {call}, holder := None)
  }

  ghost function Recovered(w: World, call: nat): World
    requires call in w.calls
  {
    var c := w.calls[call];
    w.(engines := w.engines[c.process := TE.Restore(c.before)], calls := w.calls - {call})
  }

  /** A move that is not enabled waits. */
  ghost function Next(hash: Hash, w: World, m: Move): World {
    match m
    case Begin(call, process, step) =>
      if call in w.calls then w else InPhase(w, call, Call(process, step, TE.SnapshotOf(EngineOf(w, process)), Waiting))
    case Lock(call) =>
      if call in w.calls && w.calls[call].phase == Waiting && w.holder == None
      then InPhase(w, call, w.calls[call].(phase := Holding)).(holder := Some(call))
      else w
    case Mutate(call) => if call in w.calls && w.calls[call].phase == Holding then Mutated(hash, w, call) else w
    case Commit(call) => if call in w.calls && w.calls[call].phase.Written? then Committed(w, call) else w
    case Rollback(call) =>
      if call in w.calls && w.calls[call].phase != RolledBack
      then InPhase(w, call, w.calls[call].(phase := RolledBack)).(holder := if w.holder == Some(call) then None else w.holder)
      else w
    case Recover(call) => if call in w.calls && w.calls[call].phase == RolledBack then Recovered(w, call) else w
  }

  ghost function Run(hash: Hash, w: World, moves: seq<Move>): World
    decreases |moves|
  {
    if moves == [] then w else Run(hash, Next(hash, w, moves[0]), moves[1..])
  }

  // ---- the invariant ----

  ghost function After(hash: Hash, s: Snapshot, step: Step): TE.Outcome {
    TE.Perform(hash, TE.Restore(s), step)
  }

  /** A snapshot that some good engine took. */
  ghost predicate Kept(hash: Hash, s: Snapshot) {
    EngineInvariant.Good(hash, TE.Restore(s)) && TE.SnapshotOf(TE.Restore(s)) == s
  }

  predicate HasLock(p: Phase) {
    p == Holding || p.Written? || p == Threw
  }

  /** Only the holder is past the lock. */
  ghost predicate OneHolder(w: World) {
    forall c :: c in w.calls && HasLock(w.calls[c].phase) ==> w.holder == Some(c)
  }

  /** s is what the step makes of the snapshot before it, and the step did not throw. */
  ghost predicate Follows(hash: Hash, before: Snapshot, step: Step, s: Snapshot) {
    s == TE.SnapshotOf(After(hash, before, step).engine) && !After(hash, before, step).reply.Thrown?
  }

  ghost predicate Chained(hash: Hash, log: seq<Snapshot>, applied: seq<Step>) {
    |log| == |applied| && forall k :: 1 <= k < |log| ==> Follows(hash, log[k - 1], applied[k], log[k])
  }

  ghost predicate Pending(hash: Hash, log: seq<Snapshot>, calls: map<nat, Call>) {
    forall c :: c in calls && calls[c].phase.Written? ==>
      Kept(hash, calls[c].phase.snapshot)
      && (log != [] ==> Follows(hash, log[|log| - 1], calls[c].step, calls[c].phase.snapshot))
  }

  ghost predicate AllKept(hash: Hash, w: World) {
    && (forall k :: 0 <= k < |w.log| ==> Kept(hash, w.log[k]))
    && (forall c :: c in w.calls ==> Kept(hash, w.calls[c].before))
    && (forall p :: p in w.engines ==> EngineInvariant.Good(hash, w.engines[p]))
  }

  ghost predicate Sound(hash: Hash, w: World) {
    AllKept(hash, w) && OneHolder(w) && Chained(hash, w.log, w.applied) && Pending(hash, w.log, w.calls)
  }

  lemma GoodSnapshotIsKept(hash: Hash, e: Engine)
    requires EngineInvariant.Good(hash, e)
    ensures Kept(hash, TE.SnapshotOf(e))
  {
    EngineInvariant.RestoreForgets(hash, e);
    EngineInvariant.GoodWithoutKeys(hash, e);
    hide EngineInvariant.Good;
  }

  lemma EngineIsGood(hash: Hash, w: World, process: nat)
    requires AllKept(hash, w)
    ensures EngineInvariant.Good(hash, EngineOf(w, process)) && EngineInvariant.Good(hash, Base(w, process))
  {
    EngineInvariant.InitialIsGood(hash);
    hide EngineInvariant.Good;
  }

  lemma MutateKeeps(hash: Hash, w: World, call: nat)
    requires Sound(hash, w) && call in w.calls && w.calls[call].phase == Holding
    ensures Sound(hash, Mutated(hash, w, call))
  {
    hide EngineInvariant.Good;
    hide TE.Perform;
    hide TE.Restore;
    hide Kept;
    var c := w.calls[call];
    EngineIsGood(hash, w, c.process);
    EngineInvariant.StepKeeps(hash, Base(w, c.process), c.step);
    GoodSnapshotIsKept(hash, TE.Perform(hash, Base(w, c.process), c.step).engine);
  }

  lemma CommitKeeps(hash: Hash, w: World, call: nat)
    requires Sound(hash, w) && call in w.calls && w.calls[call].phase.Written?
    ensures Sound(hash, Committed(w, call))
  {
    hide EngineInvariant.Good;
    hide Follows;
    hide Kept;
    var after := Committed(w, call);
    forall c | c in after.calls ensures !HasLock(after.calls[c].phase) {
      assert w.holder == Some(call);
    }
    assert Pending(hash, after.log, after.calls);
    assert Chained(hash, after.log, after.applied);
  }

  lemma PhaseKeeps(hash: Hash, w: World, call: nat, c: Call, holder: Option<nat>)
    requires Sound(hash, w) && Kept(hash, c.before) && !c.phase.Written?
    requires HasLock(c.phase) ==> holder == Some(call)
    requires forall d :: d in w.calls && d != call && HasLock(w.calls[d].phase) ==> holder == Some(d)
    ensures Sound(hash, InPhase(w, call, c).(holder := holder))
  {
    hide EngineInvariant.Good;
    hide Follows;
    hide Kept;
  }

  lemma BeginKeeps(hash: Hash, w: World, call: nat, process: nat, step: Step)
    requires Sound(hash, w)
    ensures Sound(hash, Next(hash, w, Begin(call, process, step)))
  {
    hide EngineInvariant.Good;
    hide Kept;
    EngineIsGood(hash, w, process);
    GoodSnapshotIsKept(hash, EngineOf(w, process));
    if call !in w.calls {
      PhaseKeeps(hash, w, call, Call(process, step, TE.SnapshotOf(EngineOf(w, process)), Waiting), w.holder);
    }
  }

  lemma LockKeeps(hash: Hash, w: World, call: nat)
    requires Sound(hash, w)
    ensures Sound(hash, Next(hash, w, Lock(call)))
  {
    hide EngineInvariant.Good;
    hide Kept;
    hide Follows;
    if call in w.calls && w.calls[call].phase == Waiting && w.holder == None {
      PhaseKeeps(hash, w, call, w.calls[call].(phase := Holding), Some(call));
    }
  }

  lemma RollbackKeeps(hash: Hash, w: World, call: nat)
    requires Sound(hash, w)
    ensures Sound(hash, Next(hash, w, Rollback(call)))
  {
    hide EngineInvariant.Good;
    hide Kept;
    hide Follows;
    if call in w.calls && w.calls[call].phase != RolledBack {
      PhaseKeeps(hash, w, call, w.calls[call].(phase := RolledBack), if w.holder == Some(call) then None else w.holder);
    }
  }

  lemma RecoverKeeps(hash: Hash, w: World, call: nat)
    requires Sound(hash, w)
    ensures Sound(hash, Next(hash, w, Recover(call)))
  {
    hide EngineInvariant.Good;
    hide Follows;
    hide TE.Restore;
  }

  lemma NextKeeps(hash: Hash, w: World, m: Move)
    requires Sound(hash, w)
    ensures Sound(hash, Next(hash, w, m))
  {
    hide Sound;
    hide Mutated;
    hide Committed;
    match m
    case Begin(call, process, step) => BeginKeeps(hash, w, call, process, step);
    case Lock(call) => LockKeeps(hash, w, call);
    case Mutate(call) => if call in w.calls && w.calls[call].phase == Holding { MutateKeeps(hash, w, call); }
    case Commit(call) => if call in w.calls && w.calls[call].phase.Written? { CommitKeeps(hash, w, call); }
    case Rollback(call) => RollbackKeeps(hash, w, call);
    case Recover(call) => RecoverKeeps(hash, w, call);
  }

  lemma {:induction false} RunKeeps(hash: Hash, w: World, moves: seq<Move>)
    requires Sound(hash, w)
    ensures Sound(hash, Run(hash, w, moves))
    decreases |moves|
  {
    hide Sound;
    if moves != [] {
      NextKeeps(hash, w, moves[0]);
      RunKeeps(hash, Next(hash, w, moves[0]), moves[1..]);
    }
  }

  lemma StartIsSound(hash: Hash)
    ensures Sound(hash, START)
  {
  }

  /** Many processes, one history: whatever the interleaving, aborts and stale engines
      included, each committed snapshot is its mutation, successful, applied to the snapshot
      before it, and every snapshot is of a sound ledger. */
  lemma LogIsOneHistory(hash: Hash, moves: seq<Move>)
    ensures var w := Run(hash, START, moves);
            && |w.log| == |w.applied|
            && (forall k :: 1 <= k < |w.log| ==> Follows(hash, w.log[k - 1], w.applied[k], w.log[k]))
            && (forall k :: 0 <= k < |w.log| ==> EngineInvariant.Good(hash, TE.Restore(w.log[k])))
  {
    hide EngineInvariant.Good;
    StartIsSound(hash);
    RunKeeps(hash, START, moves);
  }

  lemma {:induction false} RunOver(hash: Hash, w: World, first: seq<Move>, then_: seq<Move>)
    ensures Run(hash, w, first + then_) == Run(hash, Run(hash, w, first), then_)
    decreases |first|
  {
    if first == [] {
      assert first + then_ == then_;
    } else {
      assert (first + then_)[1..] == first[1..] + then_;
      RunOver(hash, Next(hash, w, first[0]), first[1..], then_);
    }
  }

  /** The call neither commits nor recovers in these moves. */
  predicate Unfinished(moves: seq<Move>, call: nat) {
    forall i :: 0 <= i < |moves| ==> moves[i] != Commit(call) && moves[i] != Recover(call)
  }

  lemma {:induction false} CallStays(hash: Hash, w: World, moves: seq<Move>, call: nat)
    requires call in w.calls && Unfinished(moves, call)
    ensures var w' := Run(hash, w, moves);
            call in w'.calls && w'.calls[call].process == w.calls[call].process && w'.calls[call].before == w.calls[call].before
    decreases |moves|
  {
    hide TE.Perform;
    hide TE.Restore;
    if moves != [] {
      assert Unfinished(moves[1..], call);
      CallStays(hash, Next(hash, w, moves[0]), moves[1..], call);
    }
  }

  lemma RecoverGivesBack(hash: Hash, w: World, call: nat)
    requires Sound(hash, w) && call in w.calls && w.calls[call].phase == RolledBack
    ensures var after := Next(hash, w, Recover(call));
            after.log == w.log && TE.SnapshotOf(EngineOf(after, w.calls[call].process)) == w.calls[call].before
  {
    hide EngineInvariant.Good;
    assert Kept(hash, w.calls[call].before);
  }

  /** A call that ends without committing, whatever other calls did since it began: its
      recovery leaves the log alone and gives the process back the ledger it had when the call
      began. */
  lemma FailedCallGivesBack(hash: Hash, pre: seq<Move>, call: nat, process: nat, step: Step, since: seq<Move>)
    requires call !in Run(hash, START, pre).calls && Unfinished(since, call)
    requires var w := Run(hash, START, pre + [Begin(call, process, step)] + since);
             call in w.calls && w.calls[call].phase == RolledBack
    ensures var moves := pre + [Begin(call, process, step)] + since;
            var w, after := Run(hash, START, moves), Run(hash, START, moves + [Recover(call)]);
            && after.log == w.log
            && TE.SnapshotOf(EngineOf(after, process)) == TE.SnapshotOf(EngineOf(Run(hash, START, pre), process))
  {
    hide EngineInvariant.Good;
    hide Sound;
    hide Unfinished;
    hide Recovered;
    var begun := pre + [Begin(call, process, step)];
    var w0, w := Run(hash, START, pre), Run(hash, START, begun + since);
    RunOver(hash, START, pre, [Begin(call, process, step)]);
    RunOver(hash, START, begun, since);
    RunOver(hash, START, begun + since, [Recover(call)]);
    assert Run(hash, w0, [Begin(call, process, step)]) == Next(hash, w0, Begin(call, process, step));
    assert Run(hash, w, [Recover(call)]) == Next(hash, w, Recover(call));
    CallStays(hash, Next(hash, w0, Begin(call, process, step)), since, call);
    StartIsSound(hash);
    RunKeeps(hash, START, begun + since);
    RecoverGivesBack(hash, w, call);
  }

  // ---- the class ----

  class PostgresSnapshotStore {
    var log: seq<Snapshot>

    constructor ()
      ensures log == []
    {
      log := [];
    }

    /** Runs one mutation under the lock; `inserts` says whether the insert and commit work. */
    method RunAtomic(engine: TE.TradeEngine, step: Step, inserts: bool) returns (result: Option<TE.Reply>)
      modifies this, engine, engine.inventory
      ensures var base := if old(log) == [] then old(engine.State()) else TE.Restore(old(log)[|old(log)| - 1]);
              var o := TE.Perform(engine.hash, base, step);
              if inserts && !o.reply.Thrown? then
                result == Some(o.reply) && engine.State() == o.engine && log == old(log) + [TE.SnapshotOf(o.engine)]
              else
                result == None && log == old(log) && engine.State() == TE.Restore(TE.SnapshotOf(old(engine.State())))
    {
      hide TE.Restore;
      var before := TE.SnapshotOf(engine.State());
      if log != [] { engine.RestoreFrom(log[|log| - 1]); }
      var reply := Do(engine, step);
      if reply.Thrown? || !inserts {
        engine.RestoreFrom(before);
        return None;
      }
      log := log + [TE.SnapshotOf(engine.State())];
      result := Some(reply);
    }
  }

  method Do(engine: TE.TradeEngine, step: Step) returns (reply: TE.Reply)
    modifies engine, engine.inventory
    ensures TE.Outcome(engine.State(), reply) == TE.Perform(engine.hash, old(engine.State()), step)
  {
    match step
    case Submitting(f) => reply := engine.SubmitOrder(f);
    case Accepting(f) => reply := engine.AcceptOrder(f);
    case Countering(f) => reply := engine.CounterOrder(f);
    case Rejecting(key, id, supplierId) => reply := engine.RejectOrder(key, id, supplierId);
    case Expiring(id, now) => reply := engine.ExpireOrder(id, now);
    case Delivering(id) => reply := engine.MarkTradeDelivered(id);
    case Inspecting(id, specMatch, qualityPass) => reply := engine.InspectTrade(id, specMatch, qualityPass);
    case Registering(f) => reply := engine.RegisterVerifiedLot(f);
  }
}
