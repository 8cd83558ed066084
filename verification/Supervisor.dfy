/** The restart limiter of ops/company-supervisor.mjs.  Each event is a stretch of code between
    two waits, a child's exit or a stop; any order of events is a run, so every order the
    supervisor's loop and its handlers can produce is covered. */
module Supervisor {
  datatype Config = Config(maxRestarts: nat, restartWindow: nat, startupGrace: nat)

  datatype Child = GONE | RUNNING | KILLED

  datatype Component = SERVER | DAEMON

  /** The supervisor's variables, with `halted` for the status HALTED_REQUIRES_H01, and a record
      of the restarts granted (`grants`, by time), of the spawns that were not a first start
      (`respawns`) and of the servers it killed (`kills`). */
  datatype State = State(
    stopping: bool, halted: bool, server: Child, daemon: Child, serverStarted: bool, daemonStarted: bool,
    startedAt: int, failures: nat, history: seq<int>, serverRestarts: nat, daemonRestarts: nat,
    grants: seq<int>, spawns: nat, respawns: nat, kills: nat)

  const START := State(false, false, GONE, GONE, false, false, 0, 0, [], 0, 0, [], 0, 0, 0)

  /** The two readings of the clock in `reserveRestart`. */
  datatype Clock = Clock(pruned: int, pushed: int)

  datatype Event =
    | EnsuringServer(clock: Clock, now: int)
    | EnsuringDaemon(clock: Clock)
    | Healthy(daemonStale: bool)
    | Unhealthy(now: int)
    | KillingServer(clock: Clock)
    | Exiting(component: Component)
    | Stopping

  // ---- the limiter ----

  function Pruned(history: seq<int>, cutoff: int): seq<int> {
    if history != [] && history[0] < cutoff then Pruned(history[1..], cutoff) else history
  }

  /** Only a prefix goes, all of it before the cutoff. */
  lemma {:induction false} PrunedIs(history: seq<int>, cutoff: int)
    ensures var r := Pruned(history, cutoff);
            && |r| <= |history|
            && (forall i :: 0 <= i < |r| ==> r[i] == history[|history| - |r| + i])
            && (forall i :: 0 <= i < |history| - |r| ==> history[i] < cutoff)
  {
    if history != [] && history[0] < cutoff {
      PrunedIs(history[1..], cutoff);
    }
  }

  predicate Grants(c: Config, s: State, clock: Clock) {
    |Pruned(s.history, clock.pruned - c.restartWindow)| < c.maxRestarts
  }

  function Granted(c: Config, s: State, clock: Clock, component: Component): State {
    s.(history := Pruned(s.history, clock.pruned - c.restartWindow) + [clock.pushed], grants := s.grants + [clock.pushed],
       serverRestarts := s.serverRestarts + (if component == SERVER then 1 else 0),
       daemonRestarts := s.daemonRestarts + (if component == DAEMON then 1 else 0))
  }

  /** A refused restart prunes all the same. */
  function Refused(c: Config, s: State, clock: Clock): State {
    s.(history := Pruned(s.history, clock.pruned - c.restartWindow))
  }

  function Halted(s: State): State {
    s.(stopping := true, halted := true, server := GONE, daemon := GONE)
  }

  // ---- the events ----

  function EnsureServer(c: Config, s: State, clock: Clock, now: int): State {
    if s.stopping || s.server == RUNNING then s
    else if s.serverStarted && !Grants(c, s, clock) then Halted(Refused(c, s, clock))
    else
      var t := if s.serverStarted then Granted(c, s, clock, SERVER) else s;
      t.(serverStarted := true, server := RUNNING, startedAt := now, spawns := t.spawns + 1,
         respawns := t.respawns + if s.serverStarted then 1 else 0)
  }

  function EnsureDaemon(c: Config, s: State, clock: Clock): State {
    if s.stopping || s.daemon == RUNNING then s
    else if s.daemonStarted && !Grants(c, s, clock) then Halted(Refused(c, s, clock))
    else
      var t := if s.daemonStarted then Granted(c, s, clock, DAEMON) else s;
      t.(daemonStarted := true, daemon := RUNNING, spawns := t.spawns + 1,
         respawns := t.respawns + if s.daemonStarted then 1 else 0)
  }

  function KillServer(c: Config, s: State, clock: Clock): State {
    if s.failures < 2 || s.server != RUNNING then s
    else if !Grants(c, s, clock) then Halted(Refused(c, s, clock))
    else
      var t := Granted(c, s, clock, SERVER);
      t.(server := KILLED, kills := t.kills + 1)
  }

  function Next(c: Config, s: State, e: Event): State {
    match e
    case EnsuringServer(clock, now) => EnsureServer(c, s, clock, now)
    case EnsuringDaemon(clock) => EnsureDaemon(c, s, clock)
    case Healthy(stale) =>
      s.(failures := 0, daemon := if stale && s.daemon == RUNNING then KILLED else s.daemon)
    case Unhealthy(now) =>
      if s.server == RUNNING && s.startedAt > 0 && now - s.startedAt < c.startupGrace then s
      else s.(failures := s.failures + 1)
    case KillingServer(clock) => KillServer(c, s, clock)
    case Exiting(component) => if component == SERVER then s.(server := GONE, startedAt := 0) else s.(daemon := GONE)
    case Stopping => if s.stopping then s else s.(stopping := true, server := GONE, daemon := GONE)
  }

  function Run(c: Config, s: State, events: seq<Event>): State
    decreases |events|
  {
    if events == [] then s else Run(c, Next(c, s, events[0]), events[1..])
  }

  // ---- the clock ----

  /** The readings an event makes, in order. */
  function Readings(e: Event): seq<int> {
    match e
    case EnsuringServer(clock, now) => [clock.pruned, clock.pushed, now]
    case EnsuringDaemon(clock) => [clock.pruned, clock.pushed]
    case KillingServer(clock) => [clock.pruned, clock.pushed]
    case Unhealthy(now) => [now]
    case _ => []
  }

  /** Non-decreasing readings, none before `since`. */
  predicate Ticks(since: int, readings: seq<int>) {
    forall i, j :: 0 <= i <= j < |readings| ==> since <= readings[i] <= readings[j]
  }

  function Latest(since: int, readings: seq<int>): int {
    if readings == [] then since else readings[|readings| - 1]
  }

  predicate ClockRuns(since: int, events: seq<Event>)
    decreases |events|
  {
    events == []
    || (Ticks(since, Readings(events[0])) && ClockRuns(Latest(since, Readings(events[0])), events[1..]))
  }

  // ---- invariants ----

  /** Grants in order of time, the last no later than `now`. */
  predicate InOrder(grants: seq<int>, now: int) {
    forall i, j :: 0 <= i <= j < |grants| ==> grants[i] <= grants[j] <= now
  }

  /** The history is the newest grants, and each older one left the window. */
  predicate KeepsNewest(c: Config, s: State, now: int) {
    && |s.history| <= |s.grants|
    && (forall i :: 0 <= i < |s.history| ==> s.history[i] == s.grants[|s.grants| - |s.history| + i])
    && forall i :: 0 <= i < |s.grants| - |s.history| ==> s.grants[i] < now - c.restartWindow
  }

  /** Any maxRestarts + 1 consecutive grants span more than the window. */
  predicate Spaced(c: Config, grants: seq<int>) {
    forall i :: 0 <= i < |grants| - c.maxRestarts ==> grants[i + c.maxRestarts] - grants[i] > c.restartWindow
  }

  predicate Limited(c: Config, s: State, now: int) {
    InOrder(s.grants, now) && KeepsNewest(c, s, now) && Spaced(c, s.grants)
  }

  /** Every restart granted was used once: for a respawn or for killing an unhealthy server. */
  predicate Accounted(s: State) {
    && |s.grants| == s.respawns + s.kills == s.serverRestarts + s.daemonRestarts
    && s.spawns == s.respawns + (if s.serverStarted then 1 else 0) + (if s.daemonStarted then 1 else 0)
  }

  lemma PruneKeeps(c: Config, s: State, now: int, clock: Clock)
    requires Limited(c, s, now) && now <= clock.pruned <= clock.pushed
    ensures Limited(c, Refused(c, s, clock), clock.pushed)
    ensures var t := Refused(c, s, clock);
            forall i :: 0 <= i < |t.grants| - |t.history| ==> t.grants[i] < clock.pruned - c.restartWindow
  {
    var cutoff := clock.pruned - c.restartWindow;
    PrunedIs(s.history, cutoff);
    hide Pruned;
    var n, h, k := |s.grants|, |s.history|, |Pruned(s.history, cutoff)|;
    forall i | 0 <= i < n - k ensures s.grants[i] < cutoff {
      if i >= n - h { assert s.history[i - (n - h)] == s.grants[i]; }
    }
  }

  lemma GrantKeeps(c: Config, s: State, now: int, clock: Clock, component: Component)
    requires Limited(c, s, now) && now <= clock.pruned <= clock.pushed && Grants(c, s, clock)
    ensures Limited(c, Granted(c, s, clock, component), clock.pushed)
  {
    PruneKeeps(c, s, now, clock);
    hide Pruned;
    var t, u := Refused(c, s, clock), Granted(c, s, clock, component);
    NewestWithOne(c, t, u, clock);
    SpacedWithOne(c, t, clock);
    LastGrant(s.grants, clock.pushed, now);
  }

  lemma NewestWithOne(c: Config, t: State, u: State, clock: Clock)
    requires KeepsNewest(c, t, clock.pushed)
    requires u.history == t.history + [clock.pushed] && u.grants == t.grants + [clock.pushed]
    ensures KeepsNewest(c, u, clock.pushed)
  {
  }

  lemma SpacedWithOne(c: Config, t: State, clock: Clock)
    requires Spaced(c, t.grants) && |t.history| < c.maxRestarts && clock.pruned <= clock.pushed
    requires forall i :: 0 <= i < |t.grants| - |t.history| ==> t.grants[i] < clock.pruned - c.restartWindow
    ensures Spaced(c, t.grants + [clock.pushed])
  {
  }

  lemma LastGrant(grants: seq<int>, t: int, now: int)
    requires InOrder(grants, now) && now <= t
    ensures InOrder(grants + [t], t)
  {
  }

  lemma LaterStillLimited(c: Config, s: State, now: int, later: int)
    requires Limited(c, s, now) && now <= later
    ensures Limited(c, s, later)
  {
  }

  lemma OnlyHistoryMatters(c: Config, s: State, t: State, now: int)
    requires Limited(c, s, now) && t.history == s.history && t.grants == s.grants
    ensures Limited(c, t, now)
  {
  }

  /** The events that ask for a restart. */
  predicate Asks(e: Event) { e.EnsuringServer? || e.EnsuringDaemon? || e.KillingServer? }

  function ComponentOf(e: Event): Component { if e.EnsuringDaemon? then DAEMON else SERVER }

  /** An event leaves history and grants, prunes the history, or records one grant as well. */
  lemma StepHistory(c: Config, s: State, e: Event)
    ensures var t := Next(c, s, e);
            || (t.grants == s.grants && t.history == s.history)
            || (Asks(e) && t.grants == Refused(c, s, e.clock).grants && t.history == Refused(c, s, e.clock).history)
            || (Asks(e) && Grants(c, s, e.clock) && t.grants == Granted(c, s, e.clock, ComponentOf(e)).grants
                && t.history == Granted(c, s, e.clock, ComponentOf(e)).history)
  {
    hide Pruned;
  }

  lemma AskLimited(c: Config, s: State, e: Event, now: int, t: State)
    requires Limited(c, s, now) && Ticks(now, Readings(e)) && Asks(e)
    requires if t.grants == s.grants then t.history == Refused(c, s, e.clock).history
             else Grants(c, s, e.clock) && t.grants == Granted(c, s, e.clock, ComponentOf(e)).grants
                  && t.history == Granted(c, s, e.clock, ComponentOf(e)).history
    ensures Limited(c, t, Latest(now, Readings(e)))
  {
    var later := Latest(now, Readings(e));
    hide Pruned;
    hide Limited;
    assert Readings(e)[0] == e.clock.pruned && Readings(e)[1] == e.clock.pushed;
    if t.grants == s.grants {
      PruneKeeps(c, s, now, e.clock);
      LaterStillLimited(c, Refused(c, s, e.clock), e.clock.pushed, later);
      OnlyHistoryMatters(c, Refused(c, s, e.clock), t, later);
    } else {
      GrantKeeps(c, s, now, e.clock, ComponentOf(e));
      LaterStillLimited(c, Granted(c, s, e.clock, ComponentOf(e)), e.clock.pushed, later);
      OnlyHistoryMatters(c, Granted(c, s, e.clock, ComponentOf(e)), t, later);
    }
  }

  lemma StepLimited(c: Config, s: State, e: Event, now: int)
    requires Limited(c, s, now) && Ticks(now, Readings(e))
    ensures Limited(c, Next(c, s, e), Latest(now, Readings(e)))
  {
    var t, later := Next(c, s, e), Latest(now, Readings(e));
    StepHistory(c, s, e);
    hide Next;
    hide Pruned;
    hide Limited;
    hide Readings;
    if t.grants == s.grants && t.history == s.history {
      LaterStillLimited(c, s, now, later);
      OnlyHistoryMatters(c, s, t, later);
    } else {
      AskLimited(c, s, e, now, t);
    }
  }

  lemma {:induction false} RunLimited(c: Config, s: State, events: seq<Event>, now: int) returns (later: int)
    requires Limited(c, s, now) && ClockRuns(now, events)
    ensures Limited(c, Run(c, s, events), later)
    decreases |events|
  {
    hide Limited;
    hide Next;
    if events == [] {
      later := now;
    } else {
      StepLimited(c, s, events[0], now);
      later := RunLimited(c, Next(c, s, events[0]), events[1..], Latest(now, Readings(events[0])));
    }
  }

  lemma ServerAccounted(c: Config, s: State, clock: Clock, now: int)
    requires Accounted(s)
    ensures Accounted(EnsureServer(c, s, clock, now))
  {
    hide Pruned;
    hide Grants;
  }

  lemma DaemonAccounted(c: Config, s: State, clock: Clock)
    requires Accounted(s)
    ensures Accounted(EnsureDaemon(c, s, clock))
  {
    hide Pruned;
    hide Grants;
  }

  lemma KillAccounted(c: Config, s: State, clock: Clock)
    requires Accounted(s)
    ensures Accounted(KillServer(c, s, clock))
  {
    hide Pruned;
    hide Grants;
  }

  lemma StepAccounted(c: Config, s: State, e: Event)
    requires Accounted(s)
    ensures Accounted(Next(c, s, e))
  {
    hide EnsureServer;
    hide EnsureDaemon;
    hide KillServer;
    match e
    case EnsuringServer(clock, now) => ServerAccounted(c, s, clock, now);
    case EnsuringDaemon(clock) => DaemonAccounted(c, s, clock);
    case KillingServer(clock) => KillAccounted(c, s, clock);
    case _ =>
  }

  lemma {:induction false} RunAccounted(c: Config, s: State, events: seq<Event>)
    requires Accounted(s)
    ensures Accounted(Run(c, s, events))
    decreases |events|
  {
    hide Next;
    hide Accounted;
    if events != [] {
      StepAccounted(c, s, events[0]);
      RunAccounted(c, Next(c, s, events[0]), events[1..]);
    }
  }

  lemma StartIsLimited(c: Config, since: int)
    ensures Limited(c, START, since) && Accounted(START)
  {
  }

  /** Over every run with a non-decreasing clock, restarts of server and daemon together never
      come faster than maxRestarts in a window, and each respawn used one. */
  lemma RestartsAreLimited(c: Config, events: seq<Event>, since: int)
    requires ClockRuns(since, events)
    ensures Spaced(c, Run(c, START, events).grants) && Accounted(Run(c, START, events))
  {
    hide Spaced;
    hide Accounted;
    hide Run;
    hide ClockRuns;
    StartIsLimited(c, since);
    var later := RunLimited(c, START, events, since);
    RunAccounted(c, START, events);
  }

  /** Once stopping, for a human or by a signal, nothing is spawned or killed or granted again. */
  lemma {:induction false} StoppedForGood(c: Config, s: State, events: seq<Event>)
    requires s.stopping && s.server == GONE && s.daemon == GONE
    ensures var t := Run(c, s, events);
            && t.stopping && t.server == GONE && t.daemon == GONE && t.halted == s.halted
            && t.spawns == s.spawns && t.kills == s.kills && t.grants == s.grants
    decreases |events|
  {
    hide Pruned;
    if events != [] { StoppedForGood(c, Next(c, s, events[0]), events[1..]); }
  }

  predicate Quiet(s: State) {
    s.stopping ==> s.server == GONE && s.daemon == GONE
  }

  lemma {:induction false} RunQuiet(c: Config, s: State, events: seq<Event>)
    requires Quiet(s)
    ensures Quiet(Run(c, s, events))
    decreases |events|
  {
    hide Pruned;
    if events != [] { RunQuiet(c, Next(c, s, events[0]), events[1..]); }
  }

  /** After HALTED_REQUIRES_H01 no continuation ever spawns anything. */
  lemma HaltIsFinal(c: Config, before: seq<Event>, after: seq<Event>)
    requires Run(c, START, before).halted
    ensures var s := Run(c, START, before);
            Run(c, s, after).spawns == s.spawns && Run(c, s, after).halted
  {
    RunQuiet(c, START, before);
    HaltedStops(c, START, before);
    StoppedForGood(c, Run(c, START, before), after);
  }

  lemma {:induction false} HaltedStops(c: Config, s: State, events: seq<Event>)
    requires s.halted ==> s.stopping
    ensures Run(c, s, events).halted ==> Run(c, s, events).stopping
    decreases |events|
  {
    hide Pruned;
    if events != [] { HaltedStops(c, Next(c, s, events[0]), events[1..]); }
  }

  // ---- the module's variables ----

  class CompanySupervisor {
    const config: Config
    var stopping: bool
    var halted: bool
    var serverChild: Child
    var daemonChild: Child
    var serverStarted: bool
    var daemonStarted: bool
    var serverStartedAt: int
    var consecutiveHealthFailures: nat
    var restartHistory: seq<int>
    var serverRestarts: nat
    var daemonRestarts: nat
    ghost var grants: seq<int>
    ghost var spawns: nat
    ghost var respawns: nat
    ghost var kills: nat

    constructor (c: Config)
      ensures config == c && S() == START
    {
      config, stopping, halted, serverChild, daemonChild := c, false, false, GONE, GONE;
      serverStarted, daemonStarted, serverStartedAt, consecutiveHealthFailures := false, false, 0, 0;
      restartHistory, serverRestarts, daemonRestarts := [], 0, 0;
      grants, spawns, respawns, kills := [], 0, 0, 0;
    }

    ghost function S(): State
      reads this
    {
      State(stopping, halted, serverChild, daemonChild, serverStarted, daemonStarted, serverStartedAt,
            consecutiveHealthFailures, restartHistory, serverRestarts, daemonRestarts, grants, spawns, respawns, kills)
    }

    /** Drops the restarts that left the window. */
    method PruneRestartHistory(now: int)
      modifies this`restartHistory
      ensures restartHistory == Pruned(old(restartHistory), now - config.restartWindow)
    {
      var cutoff := now - config.restartWindow;
      while restartHistory != [] && restartHistory[0] < cutoff
        invariant Pruned(restartHistory, cutoff) == Pruned(old(restartHistory), cutoff)
        decreases |restartHistory|
      {
        restartHistory := restartHistory[1..];
      }
    }

    method ReserveRestart(clock: Clock, component: Component) returns (granted: bool)
      modifies this
      ensures granted == Grants(config, old(S()), clock)
      ensures S() == if granted then Granted(config, old(S()), clock, component) else Refused(config, old(S()), clock)
    {
      hide Pruned;
      PruneRestartHistory(clock.pruned);
      if |restartHistory| >= config.maxRestarts { return false; }
      restartHistory := restartHistory + [clock.pushed];
      grants := grants + [clock.pushed];
      if component == SERVER { serverRestarts := serverRestarts + 1; }
      if component == DAEMON { daemonRestarts := daemonRestarts + 1; }
      granted := true;
    }

    method HaltForHuman()
      modifies this
      ensures S() == Halted(old(S()))
    {
      stopping := true;
      daemonChild, serverChild := GONE, GONE;
      halted := true;
    }

    method CheckServer(clock: Clock, now: int)
      modifies this
      ensures S() == Next(config, old(S()), EnsuringServer(clock, now))
    {
      hide Pruned;
      if stopping || serverChild == RUNNING { return; }
      var isRestart := serverStarted;
      if isRestart {
        var granted := ReserveRestart(clock, SERVER);
        if !granted { HaltForHuman(); return; }
        respawns := respawns + 1;
      }
      serverStarted := true;
      serverChild := RUNNING;
      spawns := spawns + 1;
      serverStartedAt := now;
    }

    method CheckDaemon(clock: Clock)
      modifies this
      ensures S() == Next(config, old(S()), EnsuringDaemon(clock))
    {
      hide Pruned;
      if stopping || daemonChild == RUNNING { return; }
      var isRestart := daemonStarted;
      if isRestart {
        var granted := ReserveRestart(clock, DAEMON);
        if !granted { HaltForHuman(); return; }
        respawns := respawns + 1;
      }
      daemonStarted := true;
      daemonChild := RUNNING;
      spawns := spawns + 1;
    }

    method AfterHealthCheck(daemonStale: bool)
      modifies this
      ensures S() == Next(config, old(S()), Healthy(daemonStale))
    {
      consecutiveHealthFailures := 0;
      if daemonStale && daemonChild == RUNNING { daemonChild := KILLED; }
    }

    method AfterHealthFailure(now: int)
      modifies this
      ensures S() == Next(config, old(S()), Unhealthy(now))
    {
      if serverChild == RUNNING && serverStartedAt > 0 && now - serverStartedAt < config.startupGrace { return; }
      consecutiveHealthFailures := consecutiveHealthFailures + 1;
    }

    method KillUnhealthyServer(clock: Clock)
      modifies this
      ensures S() == Next(config, old(S()), KillingServer(clock))
    {
      hide Pruned;
      if consecutiveHealthFailures >= 2 && serverChild == RUNNING {
        var granted := ReserveRestart(clock, SERVER);
        if !granted { HaltForHuman(); return; }
        serverChild := KILLED;
        kills := kills + 1;
      }
    }

    method Stop()
      modifies this
      ensures S() == Next(config, old(S()), Stopping)
    {
      if stopping { return; }
      stopping := true;
      daemonChild, serverChild := GONE, GONE;
    }
  }
}
