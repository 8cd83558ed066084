/** The append-only incident log of ops/incident-ledger.mjs. */
module IncidentLedger {
  import opened Texts
  import opened Wrappers

  /** The fingerprint of a monitored failure is a digest of all three fields, taken to be free of
      collisions; the heartbeat of a base URL has a fingerprint of its own. */
  datatype Fingerprint = Monitored(baseUrl: Text, error: Option<Text>, check: Text) | Heartbeat(url: Text)

  datatype Kind = OPENED | REOBSERVED | RECOVERED | HEALTHY

  datatype Alert = ESCALATE_H01 | SUPPRESS_DUPLICATE | RETAIN_FOR_REVIEW | NO_ALERT

  datatype Record = Record(kind: Kind, fingerprint: Fingerprint, baseUrl: Text, alert: Alert)

  datatype Observation = Observation(ok: bool, baseUrl: Text, error: Option<Text>, check: Text)

  predicate IsOpen(r: Record) {
    r.kind == OPENED || r.kind == REOBSERVED
  }

  // ---- what the log says now ----

  /** The last record of a fingerprint. */
  function LatestOf(log: seq<Record>, f: Fingerprint): Option<Record> {
    if log == [] then None
    else if log[|log| - 1].fingerprint == f then Some(log[|log| - 1])
    else LatestOf(log[..|log| - 1], f)
  }

  /** Each fingerprint once, by first appearance. */
  function Fingerprints(log: seq<Record>): seq<Fingerprint> {
    if log == [] then []
    else
      var before := Fingerprints(log[..|log| - 1]);
      if log[|log| - 1].fingerprint in before then before else before + [log[|log| - 1].fingerprint]
  }

  predicate OpenAt(log: seq<Record>, f: Fingerprint, baseUrl: Text) {
    var latest := LatestOf(log, f);
    latest.Some? && IsOpen(latest.value) && latest.value.baseUrl == baseUrl
  }

  function OpenAmong(log: seq<Record>, fingerprints: seq<Fingerprint>, baseUrl: Text): seq<Fingerprint> {
    if fingerprints == [] then []
    else (if OpenAt(log, fingerprints[0], baseUrl) then [fingerprints[0]] else []) + OpenAmong(log, fingerprints[1..], baseUrl)
  }

  function Recoveries(fingerprints: seq<Fingerprint>, baseUrl: Text): (r: seq<Record>)
    ensures |r| == |fingerprints|
  {
    seq(|fingerprints|, i requires 0 <= i < |fingerprints| => Record(RECOVERED, fingerprints[i], baseUrl, RETAIN_FOR_REVIEW))
  }

  function Incident(log: seq<Record>, o: Observation): Record {
    var f := Monitored(o.baseUrl, o.error, o.check);
    var prior := LatestOf(log, f);
    if prior.Some? && IsOpen(prior.value) then Record(REOBSERVED, f, o.baseUrl, SUPPRESS_DUPLICATE)
    else Record(OPENED, f, o.baseUrl, ESCALATE_H01)
  }

  function Appended(log: seq<Record>, o: Observation): seq<Record> {
    if !o.ok then [Incident(log, o)]
    else Recoveries(OpenAmong(log, Fingerprints(log), o.baseUrl), o.baseUrl) + [Record(HEALTHY, Heartbeat(o.baseUrl), o.baseUrl, NO_ALERT)]
  }

  function Observed(log: seq<Record>, o: Observation): seq<Record> {
    log + Appended(log, o)
  }

  function Run(log: seq<Record>, observations: seq<Observation>): seq<Record>
    decreases |observations|
  {
    if observations == [] then log else Run(Observed(log, observations[0]), observations[1..])
  }

  class Ledger {
    var log: seq<Record>

    constructor ()
      ensures log == []
    {
      log := [];
    }

    method AppendRecoveries(open: seq<Fingerprint>, baseUrl: Text)
      modifies this
      ensures log == old(log) + Recoveries(open, baseUrl)
    {
      for n := 0 to |open|
        invariant log == old(log) + Recoveries(open[..n], baseUrl)
      {
        log := log + [Record(RECOVERED, open[n], baseUrl, RETAIN_FOR_REVIEW)];
        assert Recoveries(open[..n + 1], baseUrl) == Recoveries(open[..n], baseUrl) + [log[|log| - 1]];
      }
      assert open[..|open|] == open;
    }

    method RecordMonitorObservation(o: Observation) returns (pendingHumanEscalation: bool)
      modifies this
      ensures log == Observed(old(log), o)
      ensures pendingHumanEscalation <==> exists r :: r in Appended(old(log), o) && r.alert == ESCALATE_H01
    {
      hide LatestOf;
      hide Fingerprints;
      var latest, order := FoldLatest(log);
      if !o.ok {
        var f := Monitored(o.baseUrl, o.error, o.check);
        var again := f in latest && IsOpen(latest[f]);
        var r := if again then Record(REOBSERVED, f, o.baseUrl, SUPPRESS_DUPLICATE) else Record(OPENED, f, o.baseUrl, ESCALATE_H01);
        log := log + [r];
        assert Appended(old(log), o) == [r];
        return !again;
      }
      var open := OpenIn(log, latest, order, o.baseUrl);
      AppendRecoveries(open, o.baseUrl);
      hide OpenAmong;
      log := log + [Record(HEALTHY, Heartbeat(o.baseUrl), o.baseUrl, NO_ALERT)];
      pendingHumanEscalation := false;
    }
  }

  /** The latest record of every fingerprint, and their order of first appearance. */
  method FoldLatest(log: seq<Record>) returns (latest: map<Fingerprint, Record>, order: seq<Fingerprint>)
    ensures order == Fingerprints(log)
    ensures forall f :: f in order <==> f in latest
    ensures forall f :: LatestOf(log, f) == if f in latest then Some(latest[f]) else None
  {
    latest, order := map[], [];
    for n := 0 to |log|
      invariant order == Fingerprints(log[..n])
      invariant forall f :: f in order <==> f in latest
      invariant forall f :: LatestOf(log[..n], f) == if f in latest then Some(latest[f]) else None
    {
      assert log[..n + 1][..n] == log[..n];
      var r := log[n];
      if r.fingerprint !in latest { order := order + [r.fingerprint]; }
      latest := latest[r.fingerprint := r];
    }
    assert log[..|log|] == log;
  }

  lemma OpenAtIs(log: seq<Record>, f: Fingerprint, baseUrl: Text, prior: Record)
    requires LatestOf(log, f) == Some(prior)
    ensures OpenAt(log, f, baseUrl) <==> IsOpen(prior) && prior.baseUrl == baseUrl
  {
  }

  method OpenIn(log: seq<Record>, latest: map<Fingerprint, Record>, order: seq<Fingerprint>, baseUrl: Text)
    returns (open: seq<Fingerprint>)
    requires forall f :: f in order <==> f in latest
    requires forall f :: LatestOf(log, f) == if f in latest then Some(latest[f]) else None
    ensures open == OpenAmong(log, order, baseUrl)
  {
    hide LatestOf;
    hide OpenAt;
    hide OpenAmong;
    hide IsOpen;
    open := [];
    assert order[0..] == order;
    for n := 0 to |order|
      invariant open + OpenAmong(log, order[n..], baseUrl) == OpenAmong(log, order, baseUrl)
    {
      AmongStep(log, order, n, baseUrl);
      ghost var rest := OpenAmong(log, order[n + 1..], baseUrl);
      assert open + ([order[n]] + rest) == open + [order[n]] + rest && open + ([] + rest) == open + rest;
      assert order[n] in order;
      var prior := latest[order[n]];
      OpenAtIs(log, order[n], baseUrl, prior);
      if IsOpen(prior) && prior.baseUrl == baseUrl { open := open + [order[n]]; }
    }
    NoneAmong(log, baseUrl);
    assert order[|order|..] == [];
  }

  lemma NoneAmong(log: seq<Record>, baseUrl: Text)
    ensures OpenAmong(log, [], baseUrl) == []
  {
  }

  lemma AmongStep(log: seq<Record>, order: seq<Fingerprint>, n: nat, baseUrl: Text)
    requires n < |order|
    ensures OpenAmong(log, order[n..], baseUrl)
            == (if OpenAt(log, order[n], baseUrl) then [order[n]] else []) + OpenAmong(log, order[n + 1..], baseUrl)
  {
    hide OpenAt;
    assert order[n..][0] == order[n] && order[n..][1..] == order[n + 1..];
  }

  // ---- the automaton (OPENED REOBSERVED* RECOVERED)*, at most one open tail ----

  datatype Phase = CLOSED | OPEN | BROKEN

  function After(p: Phase, k: Kind): Phase {
    match k
    case OPENED => if p == CLOSED then OPEN else BROKEN
    case REOBSERVED => if p == OPEN then OPEN else BROKEN
    case RECOVERED => if p == OPEN then CLOSED else BROKEN
    case HEALTHY => BROKEN
  }

  /** The phase of one fingerprint after a log. */
  function PhaseOf(log: seq<Record>, f: Fingerprint): Phase {
    if log == [] then CLOSED
    else
      var last, before := log[|log| - 1], PhaseOf(log[..|log| - 1], f);
      if last.fingerprint == f then After(before, last.kind) else before
  }

  lemma PhaseOfAppend(log: seq<Record>, r: Record, f: Fingerprint)
    ensures PhaseOf(log + [r], f) == if r.fingerprint == f then After(PhaseOf(log, f), r.kind) else PhaseOf(log, f)
    ensures LatestOf(log + [r], f) == if r.fingerprint == f then Some(r) else LatestOf(log, f)
  {
  }

  /** A fingerprint's phase, and its last record if it is open, agree. */
  predicate Reads(log: seq<Record>, f: Fingerprint) {
    && PhaseOf(log, f) != BROKEN
    && (PhaseOf(log, f) == OPEN <==> LatestOf(log, f).Some? && IsOpen(LatestOf(log, f).value))
    && (PhaseOf(log, f) == OPEN ==> f.Monitored? && LatestOf(log, f).value.baseUrl == f.baseUrl)
  }

  ghost predicate Orderly(log: seq<Record>) {
    && (forall f: Fingerprint :: f.Monitored? ==> Reads(log, f))
    && (forall r :: r in log ==> (r.fingerprint.Heartbeat? <==> r.kind == HEALTHY) && (r.alert == ESCALATE_H01 <==> r.kind == OPENED))
  }

  lemma ReadsAfter(log: seq<Record>, r: Record, f: Fingerprint)
    requires f.Monitored? && Reads(log, f)
    requires r.fingerprint == f ==> r.baseUrl == f.baseUrl && After(PhaseOf(log, f), r.kind) != BROKEN
    ensures Reads(log + [r], f)
  {
  }

  lemma IncidentKeeps(log: seq<Record>, o: Observation)
    requires Orderly(log) && !o.ok
    ensures Orderly(Observed(log, o))
  {
    assert Reads(log, Monitored(o.baseUrl, o.error, o.check));
    hide PhaseOf;
    hide LatestOf;
    hide Orderly;
    AppendKeeps(log, Incident(log, o));
  }

  lemma {:induction false} FingerprintsAre(log: seq<Record>)
    ensures forall f :: f in Fingerprints(log) <==> LatestOf(log, f).Some?
    ensures forall i, j :: 0 <= i < j < |Fingerprints(log)| ==> Fingerprints(log)[i] != Fingerprints(log)[j]
  {
    if log != [] { FingerprintsAre(log[..|log| - 1]); }
  }

  lemma {:induction false} OpenAmongAre(log: seq<Record>, fingerprints: seq<Fingerprint>, baseUrl: Text)
    requires forall i, j :: 0 <= i < j < |fingerprints| ==> fingerprints[i] != fingerprints[j]
    ensures var r := OpenAmong(log, fingerprints, baseUrl);
            && (forall f :: f in r <==> f in fingerprints && OpenAt(log, f, baseUrl))
            && forall i, j :: 0 <= i < j < |r| ==> r[i] != r[j]
  {
    if fingerprints != [] {
      OpenAmongAre(log, fingerprints[1..], baseUrl);
      assert fingerprints == [fingerprints[0]] + fingerprints[1..];
    }
  }

  /** A record of a monitored fingerprint that its phase allows. */
  predicate Fits(log: seq<Record>, r: Record) {
    && (r.fingerprint.Heartbeat? <==> r.kind == HEALTHY) && (r.alert == ESCALATE_H01 <==> r.kind == OPENED)
    && (r.fingerprint.Monitored? ==> r.baseUrl == r.fingerprint.baseUrl && After(PhaseOf(log, r.fingerprint), r.kind) != BROKEN)
  }

  lemma AppendKeeps(log: seq<Record>, r: Record)
    requires Orderly(log) && Fits(log, r)
    ensures Orderly(log + [r])
    ensures forall f: Fingerprint :: f.Monitored? ==>
      PhaseOf(log + [r], f) == if f == r.fingerprint then After(PhaseOf(log, f), r.kind) else PhaseOf(log, f)
  {
    hide PhaseOf;
    hide LatestOf;
    hide Reads;
    forall f: Fingerprint | f.Monitored?
      ensures Reads(log + [r], f)
      ensures PhaseOf(log + [r], f) == if f == r.fingerprint then After(PhaseOf(log, f), r.kind) else PhaseOf(log, f)
    {
      PhaseOfAppend(log, r, f);
      ReadsAfter(log, r, f);
    }
  }

  predicate AllDiffer(open: seq<Fingerprint>) {
    forall i, j :: 0 <= i < j < |open| ==> open[i] != open[j]
  }

  /** Closing open fingerprints one by one. */
  lemma {:induction false} RecoveriesClose(log: seq<Record>, open: seq<Fingerprint>, baseUrl: Text)
    requires Orderly(log) && AllDiffer(open)
    requires forall i :: 0 <= i < |open| ==> open[i].Monitored? && open[i].baseUrl == baseUrl && PhaseOf(log, open[i]) == OPEN
    ensures Orderly(log + Recoveries(open, baseUrl))
    ensures forall f: Fingerprint :: f.Monitored? ==>
      PhaseOf(log + Recoveries(open, baseUrl), f) == if f in open then CLOSED else PhaseOf(log, f)
    decreases |open|
  {
    hide Orderly;
    hide PhaseOf;
    if open == [] {
      assert log + Recoveries(open, baseUrl) == log;
    } else {
      var n := |open| - 1;
      var before, r := log + Recoveries(open[..n], baseUrl), Record(RECOVERED, open[n], baseUrl, RETAIN_FOR_REVIEW);
      RecoveriesClose(log, open[..n], baseUrl);
      assert log + Recoveries(open, baseUrl) == before + [r];
      hide Recoveries;
      assert open == open[..n] + [open[n]] && open[n] !in open[..n];
      AppendKeeps(before, r);
    }
  }

  lemma OpenAreMonitored(log: seq<Record>, baseUrl: Text)
    requires Orderly(log)
    ensures var open := OpenAmong(log, Fingerprints(log), baseUrl);
            && AllDiffer(open)
            && (forall i :: 0 <= i < |open| ==> open[i].Monitored? && open[i].baseUrl == baseUrl && PhaseOf(log, open[i]) == OPEN)
            && forall f: Fingerprint :: f.Monitored? && f.baseUrl == baseUrl && PhaseOf(log, f) == OPEN ==> f in open
  {
    var open := OpenAmong(log, Fingerprints(log), baseUrl);
    FingerprintsAre(log);
    OpenAmongAre(log, Fingerprints(log), baseUrl);
    HeartbeatsAreNotOpen(log);
    hide OpenAmong;
    hide Fingerprints;
    hide PhaseOf;
    hide LatestOf;
    forall i | 0 <= i < |open| ensures open[i].Monitored? && open[i].baseUrl == baseUrl && PhaseOf(log, open[i]) == OPEN {
      assert open[i] in open;
      assert open[i].Monitored? ==> Reads(log, open[i]);
    }
    forall f: Fingerprint | f.Monitored? && f.baseUrl == baseUrl && PhaseOf(log, f) == OPEN ensures f in open {
      assert Reads(log, f);
    }
  }

  lemma {:induction false} HeartbeatsAreNotOpen(log: seq<Record>)
    requires forall r :: r in log ==> (r.fingerprint.Heartbeat? <==> r.kind == HEALTHY)
    ensures forall f: Fingerprint :: f.Heartbeat? && LatestOf(log, f).Some? ==> LatestOf(log, f).value.kind == HEALTHY
  {
    if log != [] {
      assert log == log[..|log| - 1] + [log[|log| - 1]];
      HeartbeatsAreNotOpen(log[..|log| - 1]);
    }
  }

  /** After an OK nothing is open at that base URL, and nothing else moved. */
  lemma OkCloses(log: seq<Record>, o: Observation)
    requires Orderly(log) && o.ok
    ensures Orderly(Observed(log, o))
    ensures forall f: Fingerprint :: f.Monitored? ==>
      PhaseOf(Observed(log, o), f) == if f.baseUrl == o.baseUrl then CLOSED else PhaseOf(log, f)
  {
    var open := OpenAmong(log, Fingerprints(log), o.baseUrl);
    var closed := log + Recoveries(open, o.baseUrl);
    OpenAreMonitored(log, o.baseUrl);
    hide Orderly;
    hide PhaseOf;
    RecoveriesClose(log, open, o.baseUrl);
    var r := Record(HEALTHY, Heartbeat(o.baseUrl), o.baseUrl, NO_ALERT);
    hide OpenAmong;
    hide Recoveries;
    AppendKeeps(closed, r);
    NotBroken(log);
    ObservedOk(log, o);
    hide Observed;
    forall f: Fingerprint | f.Monitored?
      ensures PhaseOf(closed + [r], f) == if f.baseUrl == o.baseUrl then CLOSED else PhaseOf(log, f)
    {
      assert PhaseOf(closed + [r], f) == PhaseOf(closed, f);
    }
  }

  lemma ObservedOk(log: seq<Record>, o: Observation)
    requires o.ok
    ensures Observed(log, o)
            == log + Recoveries(OpenAmong(log, Fingerprints(log), o.baseUrl), o.baseUrl)
               + [Record(HEALTHY, Heartbeat(o.baseUrl), o.baseUrl, NO_ALERT)]
  {
    hide Recoveries;
  }

  lemma NotBroken(log: seq<Record>)
    requires Orderly(log)
    ensures forall f: Fingerprint :: f.Monitored? ==> PhaseOf(log, f) == OPEN || PhaseOf(log, f) == CLOSED
  {
    hide PhaseOf;
    forall f: Fingerprint | f.Monitored? ensures PhaseOf(log, f) == OPEN || PhaseOf(log, f) == CLOSED {
      assert Reads(log, f);
    }
  }

  lemma {:induction false} RunOrderly(log: seq<Record>, observations: seq<Observation>)
    requires Orderly(log)
    ensures Orderly(Run(log, observations))
    decreases |observations|
  {
    hide Orderly;
    hide Observed;
    if observations != [] {
      if observations[0].ok { OkCloses(log, observations[0]); } else { IncidentKeeps(log, observations[0]); }
      RunOrderly(Observed(log, observations[0]), observations[1..]);
    }
  }

  lemma {:induction false} BrokenStays(log: seq<Record>, f: Fingerprint, n: nat)
    requires n <= |log| && PhaseOf(log[..n], f) == BROKEN
    ensures PhaseOf(log, f) == BROKEN
  {
    if n < |log| {
      assert log[..|log| - 1][..n] == log[..n];
      BrokenStays(log[..|log| - 1], f, n);
    } else {
      assert log[..n] == log;
    }
  }

  lemma {:induction false} StaysOpen(log: seq<Record>, f: Fingerprint, n: nat)
    requires n <= |log| && PhaseOf(log[..n], f) == OPEN && PhaseOf(log, f) != BROKEN
    requires forall k :: n <= k < |log| && log[k].fingerprint == f ==> log[k].kind != RECOVERED
    ensures PhaseOf(log, f) == OPEN
  {
    if n < |log| {
      assert log[..|log| - 1][..n] == log[..n];
      StaysOpen(log[..|log| - 1], f, n);
    } else {
      assert log[..n] == log;
    }
  }

  predicate RecoveredBetween(log: seq<Record>, f: Fingerprint, i: nat, j: nat) {
    exists k :: i < k < j && k < |log| && log[k].fingerprint == f && log[k].kind == RECOVERED
  }

  /** In every log a run can produce, each fingerprint reads (OPENED REOBSERVED* RECOVERED)* with
      at most one open tail; humans are called exactly once per opening, and a failure is opened
      again only after it recovered. */
  lemma LogIsOrderly(observations: seq<Observation>, i: nat, j: nat)
    ensures Orderly(Run([], observations))
    ensures var log := Run([], observations);
            i < j < |log| && log[i].alert == ESCALATE_H01 && log[j].alert == ESCALATE_H01 && log[i].fingerprint == log[j].fingerprint
            ==> RecoveredBetween(log, log[i].fingerprint, i, j)
  {
    RunOrderly([], observations);
    var log := Run([], observations);
    hide Run;
    if i < j < |log| && log[i].alert == ESCALATE_H01 && log[j].alert == ESCALATE_H01 && log[i].fingerprint == log[j].fingerprint {
      var f := log[i].fingerprint;
      assert log[i] in log && log[j] in log;
      assert Reads(log, f);
      PrefixPhases(log, f, i);
      PrefixPhases(log, f, j);
      hide PhaseOf;
      if !RecoveredBetween(log, f, i, j) {
        OpenUntil(log, f, i, j);
      }
    }
  }

  /** What a record of the fingerprint did, in a log that never broke. */
  lemma PrefixPhases(log: seq<Record>, f: Fingerprint, n: nat)
    requires n < |log| && log[n].fingerprint == f && PhaseOf(log, f) != BROKEN
    ensures PhaseOf(log[..n], f) != BROKEN && PhaseOf(log[..n + 1], f) == After(PhaseOf(log[..n], f), log[n].kind) != BROKEN
  {
    assert log[..n + 1][..n] == log[..n];
    if PhaseOf(log[..n], f) == BROKEN { BrokenStays(log, f, n); }
    if PhaseOf(log[..n + 1], f) == BROKEN { BrokenStays(log, f, n + 1); }
  }

  lemma OpenUntil(log: seq<Record>, f: Fingerprint, i: nat, j: nat)
    requires i < j < |log| && PhaseOf(log[..i + 1], f) == OPEN && PhaseOf(log[..j], f) != BROKEN
    requires !RecoveredBetween(log, f, i, j)
    ensures PhaseOf(log[..j], f) == OPEN
  {
    assert log[..j][..i + 1] == log[..i + 1];
    assert forall k :: 0 <= k < j ==> log[..j][k] == log[k];
    StaysOpen(log[..j], f, i + 1);
  }
}
