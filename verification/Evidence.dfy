/** The evidence gate: `verifyEvidenceBundle` of beta-app/evidence-verifier.mjs and the class
    of beta-app/evidence-registry.mjs. */
module Evidence {
  import opened Texts

  /** Milliseconds since the epoch. */
  type Instant = int

  datatype DocumentType = COA | SDS | TDS | LOT_TRACE | INVENTORY_PROOF | Unlisted(name: Text)

  const REQUIRED: seq<DocumentType> := [COA, SDS, TDS, LOT_TRACE, INVENTORY_PROOF]

  datatype RecordState = PENDING | VALID | REJECTED | SUPERSEDED

  /** What `new Date(record.expiresAt)` has to read: null, text that is no date, or a date. */
  datatype Expiry = Null | Unreadable | At(at: Instant)

  datatype Record = Record(id: Text, lot: Text, kind: DocumentType, version: Text, sha256: Text, expiresAt: Expiry,
                           state: RecordState, submittedBy: Text, reviewedBy: Text)

  predicate HexUnit(u: CodeUnit) {
    48 <= u <= 57 || 65 <= u <= 70 || 97 <= u <= 102
  }

  predicate IsSha256(t: Text) {
    |t| == 64 && forall i :: 0 <= i < 64 ==> HexUnit(t[i])
  }

  /** Valid, hashed, unexpired and about this lot. */
  predicate Current(r: Record, lot: Text, now: Instant) {
    r.lot == lot && r.state == VALID && IsSha256(r.sha256) && r.expiresAt.At? && r.expiresAt.at >= now
  }

  // ---- verifyEvidenceBundle ----

  datatype Reason = MISSING | LOT_MISMATCH | NOT_VALID | INVALID_HASH | EXPIRED_OR_INVALID_DATE | NOTHING_WRONG

  datatype Check = Check(kind: DocumentType, valid: bool, reason: Reason)

  datatype Verdict = Verdict(eligible: bool, checks: seq<Check>, duplicateTypes: seq<DocumentType>)

  predicate KindsDiffer(evidence: seq<Record>) {
    forall i, j :: 0 <= i < j < |evidence| ==> evidence[i].kind != evidence[j].kind
  }

  /** What the gate is for: one record a type, and each required type's record current. */
  ghost predicate Admits(evidence: seq<Record>, lot: Text, now: Instant) {
    && KindsDiffer(evidence)
    && forall k :: k in REQUIRED ==> exists r :: r in evidence && r.kind == k && Current(r, lot, now)
  }

  datatype Found = Nothing | Last(record: Record)

  /** The last record of a type, which is the one the map keeps. */
  ghost function LastOf(evidence: seq<Record>, kind: DocumentType): Found {
    if evidence == [] then Nothing
    else
      var last := evidence[|evidence| - 1];
      if last.kind == kind then Last(last) else LastOf(evidence[..|evidence| - 1], kind)
  }

  lemma {:induction false} LastOfIsMember(evidence: seq<Record>, kind: DocumentType)
    ensures match LastOf(evidence, kind)
            case Nothing => forall r :: r in evidence ==> r.kind != kind
            case Last(r) => r in evidence && r.kind == kind
  {
    if evidence != [] {
      LastOfIsMember(evidence[..|evidence| - 1], kind);
      assert evidence == evidence[..|evidence| - 1] + [evidence[|evidence| - 1]];
    }
  }

  /** Without repeated types the last record of a type is the only one. */
  lemma LastOfIsOnly(evidence: seq<Record>, r: Record)
    requires KindsDiffer(evidence) && r in evidence
    ensures LastOf(evidence, r.kind) == Last(r)
  {
  }

  function Why(r: Record, lot: Text, now: Instant): (reason: Reason)
    ensures reason == NOTHING_WRONG <==> Current(r, lot, now)
    ensures reason != MISSING
  {
    if r.lot != lot then LOT_MISMATCH
    else if r.state != VALID then NOT_VALID
    else if !IsSha256(r.sha256) then INVALID_HASH
    else if !r.expiresAt.At? || r.expiresAt.at < now then EXPIRED_OR_INVALID_DATE
    else NOTHING_WRONG
  }

  lemma OnePastLast(evidence: seq<Record>, n: nat)
    requires n < |evidence|
    ensures evidence[..n + 1][..n] == evidence[..n] && evidence[..n + 1][n] == evidence[n]
    ensures KindsDiffer(evidence[..n + 1]) <==> KindsDiffer(evidence[..n]) && LastOf(evidence[..n], evidence[n].kind) == Nothing
    ensures forall k :: LastOf(evidence[..n + 1], k) == if k == evidence[n].kind then Last(evidence[n]) else LastOf(evidence[..n], k)
  {
    assert evidence[..n + 1] == evidence[..n] + [evidence[n]];
    KindsDifferStep(evidence[..n], evidence[n]);
    LastOfIsMember(evidence[..n], evidence[n].kind);
  }

  lemma KindsDifferStep(s: seq<Record>, x: Record)
    ensures KindsDiffer(s + [x]) <==> KindsDiffer(s) && forall r :: r in s ==> r.kind != x.kind
  {
    var t := s + [x];
    if KindsDiffer(t) {
      forall i, j | 0 <= i < j < |s| ensures s[i].kind != s[j].kind { assert t[i] == s[i] && t[j] == s[j]; }
      forall r | r in s ensures r.kind != x.kind {
        var i :| 0 <= i < |s| && s[i] == r;
        assert t[i] == r && t[|s|] == x;
      }
    }
  }

  /** The verdict read off the last record of each type is the one the gate is for. */
  lemma LastRecordsDecide(evidence: seq<Record>, lot: Text, now: Instant)
    requires KindsDiffer(evidence)
    ensures Admits(evidence, lot, now) <==> forall k :: k in REQUIRED ==> CurrentLast(evidence, k, lot, now)
  {
    forall k | k in REQUIRED
      ensures CurrentLast(evidence, k, lot, now) <==> exists r :: r in evidence && r.kind == k && Current(r, lot, now)
    {
      LastOfIsMember(evidence, k);
      forall r | r in evidence && r.kind == k ensures LastOf(evidence, k) == Last(r) { LastOfIsOnly(evidence, r); }
    }
  }

  ghost predicate CurrentLast(evidence: seq<Record>, kind: DocumentType, lot: Text, now: Instant) {
    LastOf(evidence, kind).Last? && Current(LastOf(evidence, kind).record, lot, now)
  }

  method VerifyEvidenceBundle(lot: Text, evidence: seq<Record>, now: Instant) returns (verdict: Verdict)
    ensures verdict.eligible <==> Admits(evidence, lot, now)
    ensures verdict.duplicateTypes == [] <==> KindsDiffer(evidence)
    ensures |verdict.checks| == |REQUIRED|
    ensures forall n :: 0 <= n < |REQUIRED| ==>
      var c := verdict.checks[n];
      c.kind == REQUIRED[n]
      && (c.reason == MISSING <==> LastOf(evidence, c.kind) == Nothing)
      && (c.valid <==> CurrentLast(evidence, c.kind, lot, now))
  {
    hide Current;
    hide LastOf;
    hide KindsDiffer;
    hide Admits;
    var recordsByType: map<DocumentType, Record> := map[];
    var duplicateTypes: seq<DocumentType> := [];
    NoneYet();
    assert evidence[..0] == [];
    for n := 0 to |evidence|
      invariant forall k :: k in recordsByType <==> LastOf(evidence[..n], k) != Nothing
      invariant forall k :: k in recordsByType ==> LastOf(evidence[..n], k) == Last(recordsByType[k])
      invariant duplicateTypes == [] <==> KindsDiffer(evidence[..n])
    {
      OnePastLast(evidence, n);
      var record := evidence[n];
      if record.kind in recordsByType { duplicateTypes := duplicateTypes + [record.kind]; }
      recordsByType := recordsByType[record.kind := record];
    }
    assert evidence[..|evidence|] == evidence;
    var checks: seq<Check> := [];
    for n := 0 to |REQUIRED|
      invariant |checks| == n
      invariant forall m :: 0 <= m < n ==>
        checks[m].kind == REQUIRED[m]
        && (checks[m].reason == MISSING <==> LastOf(evidence, REQUIRED[m]) == Nothing)
        && (checks[m].valid <==> CurrentLast(evidence, REQUIRED[m], lot, now))
    {
      var kind := REQUIRED[n];
      var reason := if kind in recordsByType then Why(recordsByType[kind], lot, now) else MISSING;
      checks := checks + [Check(kind, reason == NOTHING_WRONG, reason)];
    }
    var allValid := forall m :: 0 <= m < |checks| ==> checks[m].valid;
    verdict := Verdict(allValid && duplicateTypes == [], checks, duplicateTypes);
    if KindsDiffer(evidence) {
      LastRecordsDecide(evidence, lot, now);
      assert forall m :: 0 <= m < |REQUIRED| ==> REQUIRED[m] in REQUIRED;
    } else {
      RepeatsAreNotAdmitted(evidence, lot, now);
    }
  }

  lemma NoneYet()
    ensures KindsDiffer([]) && forall k :: LastOf([], k) == Nothing
  {
  }

  lemma RepeatsAreNotAdmitted(evidence: seq<Record>, lot: Text, now: Instant)
    ensures Admits(evidence, lot, now) ==> KindsDiffer(evidence)
  {
  }

  // ---- the registry's records: a map by id, in insertion order ----

  predicate IdsDiffer(records: seq<Record>) {
    forall i, j :: 0 <= i < j < |records| ==> records[i].id != records[j].id
  }

  function Place(records: seq<Record>, id: Text): (i: nat)
    ensures i <= |records|
    ensures i < |records| ==> records[i].id == id
    ensures forall j :: 0 <= j < i ==> records[j].id != id
  {
    if records == [] || records[0].id == id then 0 else 1 + Place(records[1..], id)
  }

  /** Map.prototype.set: an existing key keeps its place. */
  function Put(records: seq<Record>, r: Record): seq<Record> {
    var i := Place(records, r.id);
    if i < |records| then records[i := r] else records + [r]
  }

  function PutAll(records: seq<Record>, more: seq<Record>): seq<Record>
    decreases |more|
  {
    if more == [] then records else PutAll(Put(records, more[0]), more[1..])
  }

  predicate Listed(r: Record, lot: Text) {
    lot == [] || r.lot == lot
  }

  function List(records: seq<Record>, lot: Text): seq<Record> {
    if records == [] then []
    else
      var last := records[|records| - 1];
      List(records[..|records| - 1], lot) + if Listed(last, lot) then [last] else []
  }

  datatype Submission = Submission(lot: Text, kind: DocumentType, version: Text, sha256: Text, expiresAt: Expiry,
                                   submittedBy: Text, freshId: Text)

  datatype ReviewerRole = OWNER | OPERATOR | OTHER_ROLE

  datatype Decision = ACCEPT | REJECT | OTHER_DECISION

  datatype Review = Review(id: Text, decision: Decision, role: ReviewerRole, reviewer: Text)

  datatype Code =
    | EVIDENCE_METADATA_REQUIRED | EVIDENCE_TYPE_NOT_ALLOWED | EVIDENCE_ALREADY_SUBMITTED
    | EVIDENCE_NOT_FOUND | HUMAN_REVIEW_REQUIRED | REVIEWER_REQUIRED | INVALID_REVIEW_DECISION

  datatype Answer = Kept(record: Record) | Refused(code: Code)

  predicate AlreadySubmitted(records: seq<Record>, s: Submission) {
    exists i :: 0 <= i < |records| && records[i].lot == s.lot && records[i].kind == s.kind
                && records[i].version == s.version && records[i].state != SUPERSEDED
  }

  function SubmitAnswer(records: seq<Record>, s: Submission): Answer {
    if s.lot == [] || s.version == [] || s.submittedBy == [] then Refused(EVIDENCE_METADATA_REQUIRED)
    else if s.kind !in REQUIRED then Refused(EVIDENCE_TYPE_NOT_ALLOWED)
    else if AlreadySubmitted(records, s) then Refused(EVIDENCE_ALREADY_SUBMITTED)
    else Kept(Record(s.freshId, s.lot, s.kind, s.version, s.sha256, s.expiresAt, PENDING, s.submittedBy, []))
  }

  function ReviewAnswer(records: seq<Record>, v: Review): Answer {
    var i := Place(records, v.id);
    if i == |records| then Refused(EVIDENCE_NOT_FOUND)
    else if v.role == OTHER_ROLE then Refused(HUMAN_REVIEW_REQUIRED)
    else if v.reviewer == [] then Refused(REVIEWER_REQUIRED)
    else if v.decision == OTHER_DECISION then Refused(INVALID_REVIEW_DECISION)
    else Kept(records[i].(state := if v.decision == ACCEPT then VALID else REJECTED, reviewedBy := v.reviewer))
  }

  function Stored(records: seq<Record>, a: Answer): seq<Record> {
    match a
    case Kept(r) => Put(records, r)
    case Refused(_) => records
  }

  class EvidenceRegistry {
    var records: seq<Record>

    constructor ()
      ensures records == []
    {
      records := [];
    }

    method Submit(s: Submission) returns (answer: Answer)
      modifies this
      ensures answer == SubmitAnswer(old(records), s)
      ensures records == Stored(old(records), answer)
    {
      if s.lot == [] || s.version == [] || s.submittedBy == [] { return Refused(EVIDENCE_METADATA_REQUIRED); }
      if s.kind !in REQUIRED { return Refused(EVIDENCE_TYPE_NOT_ALLOWED); }
      for i := 0 to |records|
        invariant records == old(records)
        invariant !AlreadySubmitted(records[..i], s)
      {
        if records[i].lot == s.lot && records[i].kind == s.kind && records[i].version == s.version
           && records[i].state != SUPERSEDED {
          return Refused(EVIDENCE_ALREADY_SUBMITTED);
        }
      }
      assert records[..|records|] == records;
      var r := Record(s.freshId, s.lot, s.kind, s.version, s.sha256, s.expiresAt, PENDING, s.submittedBy, []);
      records := Put(records, r);
      answer := Kept(r);
    }

    method Decide(v: Review) returns (answer: Answer)
      modifies this
      ensures answer == ReviewAnswer(old(records), v)
      ensures records == Stored(old(records), answer)
    {
      var i := Place(records, v.id);
      if i == |records| { return Refused(EVIDENCE_NOT_FOUND); }
      if v.role == OTHER_ROLE { return Refused(HUMAN_REVIEW_REQUIRED); }
      if v.reviewer == [] { return Refused(REVIEWER_REQUIRED); }
      if v.decision == OTHER_DECISION { return Refused(INVALID_REVIEW_DECISION); }
      var r := records[i];
      r := r.(state := if v.decision == ACCEPT then VALID else REJECTED);
      r := r.(reviewedBy := v.reviewer);
      records := records[i := r];
      answer := Kept(r);
    }

    method Eligibility(lot: Text, now: Instant) returns (verdict: Verdict)
      ensures verdict.eligible <==> Admits(List(records, lot), lot, now)
    {
      verdict := VerifyEvidenceBundle(lot, List(records, lot), now);
    }

    method Restore(snapshot: seq<Record>)
      modifies this
      ensures records == PutAll([], snapshot)
    {
      records := [];
      for i := 0 to |snapshot|
        invariant PutAll(records, snapshot[i..]) == PutAll([], snapshot)
      {
        records := Put(records, snapshot[i]);
        assert snapshot[i..][1..] == snapshot[i + 1..];
      }
    }
  }

  // ---- runs: submissions, reviews, saving, and reloading any saved snapshot ----

  datatype Step = Submitting(submission: Submission) | Reviewing(review: Review) | Saving | Reloading(nth: nat)

  datatype World = World(records: seq<Record>, saved: seq<seq<Record>>)

  function Next(w: World, step: Step): World {
    match step
    case Submitting(s) => w.(records := Stored(w.records, SubmitAnswer(w.records, s)))
    case Reviewing(v) => w.(records := Stored(w.records, ReviewAnswer(w.records, v)))
    case Saving => w.(saved := w.saved + [w.records])
    case Reloading(n) => if n < |w.saved| then w.(records := PutAll([], w.saved[n])) else w
  }

  function Run(w: World, steps: seq<Step>): World
    decreases |steps|
  {
    if steps == [] then w else Run(Next(w, steps[0]), steps[1..])
  }

  const START := World([], [])

  /** What every record kept satisfies. */
  predicate Kempt(records: seq<Record>) {
    IdsDiffer(records) && forall i :: 0 <= i < |records| ==> records[i].kind in REQUIRED && records[i].lot != []
  }

  predicate WorldKempt(w: World) {
    Kempt(w.records) && forall n :: 0 <= n < |w.saved| ==> Kempt(w.saved[n])
  }

  lemma PutKeeps(records: seq<Record>, r: Record)
    requires Kempt(records) && r.kind in REQUIRED && r.lot != []
    ensures Kempt(Put(records, r))
  {
  }

  /** `restore(snapshot())` rebuilds the same map in the same order. */
  lemma {:induction false} SnapshotRestores(before: seq<Record>, rest: seq<Record>)
    requires IdsDiffer(before + rest)
    ensures PutAll(before, rest) == before + rest
    decreases |rest|
  {
    if rest == [] {
      assert before + rest == before;
    } else {
      forall j | 0 <= j < |before| ensures before[j].id != rest[0].id {
        assert (before + rest)[j] == before[j] && (before + rest)[|before|] == rest[0];
      }
      assert before + [rest[0]] + rest[1..] == before + rest;
      SnapshotRestores(before + [rest[0]], rest[1..]);
    }
  }

  lemma StoredKeeps(records: seq<Record>, a: Answer)
    requires Kempt(records) && (a.Kept? ==> a.record.kind in REQUIRED && a.record.lot != [])
    ensures Kempt(Stored(records, a))
  {
  }

  lemma StepKempt(w: World, step: Step)
    requires WorldKempt(w)
    ensures WorldKempt(Next(w, step))
  {
    match step
    case Submitting(s) => StoredKeeps(w.records, SubmitAnswer(w.records, s));
    case Reviewing(v) => StoredKeeps(w.records, ReviewAnswer(w.records, v));
    case Saving =>
    case Reloading(n) => if n < |w.saved| { Reloads(w.saved[n]); }
  }

  lemma Reloads(records: seq<Record>)
    requires IdsDiffer(records)
    ensures PutAll([], records) == records
  {
    assert [] + records == records;
    SnapshotRestores([], records);
  }

  lemma {:induction false} RunKempt(w: World, steps: seq<Step>)
    requires WorldKempt(w)
    ensures WorldKempt(Run(w, steps))
    decreases |steps|
  {
    if steps != [] {
      StepKempt(w, steps[0]);
      RunKempt(Next(w, steps[0]), steps[1..]);
    }
  }

  // ---- eligibility, said about the registry instead of the bundle ----

  predicate About(r: Record, lot: Text, kind: DocumentType) {
    r.lot == lot && r.kind == kind
  }

  ghost predicate OnlyOne(records: seq<Record>, r: Record) {
    exists i :: 0 <= i < |records| && records[i] == r
                && forall j :: 0 <= j < |records| && About(records[j], r.lot, r.kind) ==> j == i
  }

  ghost predicate TwoAbout(records: seq<Record>, lot: Text, kind: DocumentType) {
    exists i, j :: 0 <= i < j < |records| && About(records[i], lot, kind) && About(records[j], lot, kind)
  }

  lemma {:induction false} ListHas(records: seq<Record>, lot: Text)
    ensures forall r :: r in List(records, lot) <==> r in records && Listed(r, lot)
  {
    if records != [] {
      ListHas(records[..|records| - 1], lot);
      assert records == records[..|records| - 1] + [records[|records| - 1]];
    }
  }

  /** No two records about the lot have the same type. */
  predicate PairFree(records: seq<Record>, lot: Text) {
    forall i, j :: 0 <= i < j < |records| && records[i].lot == lot && records[j].lot == lot ==> records[i].kind != records[j].kind
  }

  lemma PairFreeStep(init: seq<Record>, last: Record, lot: Text)
    ensures PairFree(init + [last], lot)
            <==> PairFree(init, lot) && (last.lot == lot ==> forall r :: r in init && r.lot == lot ==> r.kind != last.kind)
  {
    var t := init + [last];
    if PairFree(t, lot) {
      forall i, j | 0 <= i < j < |init| && init[i].lot == lot && init[j].lot == lot ensures init[i].kind != init[j].kind {
        assert t[i] == init[i] && t[j] == init[j];
      }
      forall r | last.lot == lot && r in init && r.lot == lot ensures r.kind != last.kind {
        var i :| 0 <= i < |init| && init[i] == r;
        assert t[i] == r && t[|init|] == last;
      }
    }
  }

  /** The bundle of a lot repeats a type exactly when the registry has two such records. */
  lemma {:induction false} ListRepeats(records: seq<Record>, lot: Text)
    requires lot != []
    ensures KindsDiffer(List(records, lot)) <==> PairFree(records, lot)
  {
    if records != [] {
      var init, last := records[..|records| - 1], records[|records| - 1];
      ListRepeats(init, lot);
      ListHas(init, lot);
      assert records == init + [last];
      PairFreeStep(init, last, lot);
      KindsDifferStep(List(init, lot), last);
      assert List(init, lot) + [] == List(init, lot);
    }
  }

  lemma OnlyOneWhenPairFree(records: seq<Record>, r: Record)
    requires r in records && PairFree(records, r.lot)
    ensures OnlyOne(records, r)
  {
  }

  ghost predicate OneCurrentEach(records: seq<Record>, lot: Text, now: Instant) {
    forall k :: k in REQUIRED ==> exists r :: OnlyOne(records, r) && About(r, lot, k) && Current(r, lot, now)
  }

  lemma OneCurrentEachIsPairFree(records: seq<Record>, lot: Text, now: Instant)
    requires Kempt(records) && OneCurrentEach(records, lot, now)
    ensures PairFree(records, lot)
  {
    hide Current;
    forall i, j | 0 <= i < j < |records| && records[i].lot == lot && records[j].lot == lot
      ensures records[i].kind != records[j].kind
    {
      var k := records[i].kind;
      assert k in REQUIRED;
      var r :| OnlyOne(records, r) && About(r, lot, k) && Current(r, lot, now);
      assert About(records[i], lot, k);
      assert About(records[j], lot, k) == (records[j].kind == k);
    }
  }

  lemma AdmitsMeansOneEach(records: seq<Record>, lot: Text, now: Instant)
    requires Kempt(records) && lot != []
    ensures Admits(List(records, lot), lot, now) <==> OneCurrentEach(records, lot, now)
  {
    hide Current;
    var bundle := List(records, lot);
    ListHas(records, lot);
    ListRepeats(records, lot);
    if Admits(bundle, lot, now) {
      forall k | k in REQUIRED ensures exists r :: OnlyOne(records, r) && About(r, lot, k) && Current(r, lot, now) {
        var r :| r in bundle && r.kind == k && Current(r, lot, now);
        CurrentIsAbout(r, lot, now);
        OnlyOneWhenPairFree(records, r);
        assert About(r, lot, k);
      }
    }
    if OneCurrentEach(records, lot, now) {
      OneCurrentEachIsPairFree(records, lot, now);
      forall k | k in REQUIRED ensures exists r :: r in bundle && r.kind == k && Current(r, lot, now) {
        var r :| OnlyOne(records, r) && About(r, lot, k) && Current(r, lot, now);
        assert r in records;
      }
    }
  }

  lemma CurrentIsAbout(r: Record, lot: Text, now: Instant)
    ensures Current(r, lot, now) ==> r.lot == lot
  {
  }

  /** In every registry a run can reach, a lot is eligible exactly when each required type
      has exactly one record about it, and that record is valid, hashed and unexpired. */
  lemma EligibleExactlyWhen(steps: seq<Step>, lot: Text, now: Instant)
    requires lot != []
    ensures var records := Run(START, steps).records;
            Admits(List(records, lot), lot, now) <==> OneCurrentEach(records, lot, now)
  {
    RunKempt(START, steps);
    AdmitsMeansOneEach(Run(START, steps).records, lot, now);
  }

  // ---- once doubled, never eligible again ----

  predicate HasId(records: seq<Record>, id: Text) {
    exists i :: 0 <= i < |records| && records[i].id == id
  }

  /** No submission reuses an id, and a reloaded snapshot was saved since `since` or has two such
      records itself. */
  ghost predicate MovesOn(w: World, step: Step, lot: Text, kind: DocumentType, since: nat) {
    match step
    case Submitting(s) => !HasId(w.records, s.freshId)
    case Reloading(n) => n < |w.saved| ==> n >= since || TwoAbout(w.saved[n], lot, kind)
    case _ => true
  }

  ghost predicate Onward(w: World, steps: seq<Step>, lot: Text, kind: DocumentType, since: nat)
    decreases |steps|
  {
    steps == [] || (MovesOn(w, steps[0], lot, kind, since) && Onward(Next(w, steps[0]), steps[1..], lot, kind, since))
  }

  /** Two records now, and in every snapshot saved since. */
  ghost predicate Doubled(w: World, lot: Text, kind: DocumentType, since: nat) {
    TwoAbout(w.records, lot, kind) && forall n :: since <= n < |w.saved| ==> TwoAbout(w.saved[n], lot, kind)
  }

  /** A kept answer names the same lot and type as the record it replaces. */
  lemma TwoStayStored(records: seq<Record>, a: Answer, lot: Text, kind: DocumentType)
    requires TwoAbout(records, lot, kind)
    requires a.Kept? ==> forall i :: 0 <= i < |records| && records[i].id == a.record.id
                                     ==> records[i].lot == a.record.lot && records[i].kind == a.record.kind
    ensures TwoAbout(Stored(records, a), lot, kind)
  {
    var i, j :| 0 <= i < j < |records| && About(records[i], lot, kind) && About(records[j], lot, kind);
    var after := Stored(records, a);
    assert About(after[i], lot, kind) && About(after[j], lot, kind);
  }

  lemma TwoStay(w: World, step: Step, lot: Text, kind: DocumentType, since: nat)
    requires WorldKempt(w) && MovesOn(w, step, lot, kind, since) && Doubled(w, lot, kind, since)
    ensures Doubled(Next(w, step), lot, kind, since)
  {
    hide TwoAbout;
    match step
    case Submitting(s) => TwoStayStored(w.records, SubmitAnswer(w.records, s), lot, kind);
    case Reviewing(v) => TwoStayStored(w.records, ReviewAnswer(w.records, v), lot, kind);
    case Saving =>
    case Reloading(n) => if n < |w.saved| { Reloads(w.saved[n]); }
  }

  lemma {:induction false} DoubledForGood(w: World, steps: seq<Step>, lot: Text, kind: DocumentType, since: nat, now: Instant)
    requires WorldKempt(w) && lot != [] && Doubled(w, lot, kind, since) && Onward(w, steps, lot, kind, since)
    ensures !Admits(List(Run(w, steps).records, lot), lot, now)
    decreases |steps|
  {
    if steps == [] {
      ListRepeats(w.records, lot);
    } else {
      TwoStay(w, steps[0], lot, kind, since);
      StepKempt(w, steps[0]);
      DoubledForGood(Next(w, steps[0]), steps[1..], lot, kind, since, now);
    }
  }

  /** In every registry a run can reach: two records of a type about a lot, and from there on no
      submission, review, or reload of any snapshot saved since (or of an older one that has two
      such records itself) makes the lot eligible again, at any time. */
  lemma TwoRecordsForGood(before: seq<Step>, after: seq<Step>, lot: Text, kind: DocumentType, now: Instant)
    requires lot != [] && TwoAbout(Run(START, before).records, lot, kind)
    requires Onward(Run(START, before), after, lot, kind, |Run(START, before).saved|)
    ensures !Admits(List(Run(Run(START, before), after).records, lot), lot, now)
  {
    RunKempt(START, before);
    DoubledForGood(Run(START, before), after, lot, kind, |Run(START, before).saved|, now);
  }

  // ---- the step that makes a doubled lot eligible again ----

  lemma OnlyOneAside(a: seq<Record>, x: Record, b: seq<Record>, r: Record)
    requires x.lot != r.lot
    ensures OnlyOne(a + [x] + b, r) <==> OnlyOne(a + b, r)
  {
    var s, t := a + [x] + b, a + b;
    if OnlyOne(s, r) {
      var i :| 0 <= i < |s| && s[i] == r && forall j :: 0 <= j < |s| && About(s[j], r.lot, r.kind) ==> j == i;
      var at := if i < |a| then i else i - 1;
      forall j | 0 <= j < |t| && About(t[j], r.lot, r.kind) ensures j == at {
        assert s[if j < |a| then j else j + 1] == t[j];
      }
      assert t[at] == r;
    }
    if OnlyOne(t, r) {
      var i :| 0 <= i < |t| && t[i] == r && forall j :: 0 <= j < |t| && About(t[j], r.lot, r.kind) ==> j == i;
      var at := if i < |a| then i else i + 1;
      forall j | 0 <= j < |s| && About(s[j], r.lot, r.kind) ensures j == at {
        assert j != |a|;
        assert t[if j < |a| then j else j - 1] == s[j];
      }
      assert s[at] == r;
    }
  }

  /** Records about other lots make no difference. */
  lemma OthersAside(a: seq<Record>, x: Record, b: seq<Record>, lot: Text, now: Instant)
    requires x.lot != lot
    ensures OneCurrentEach(a + [x] + b, lot, now) <==> OneCurrentEach(a + b, lot, now)
  {
    forall r: Record | r.lot == lot ensures OnlyOne(a + [x] + b, r) <==> OnlyOne(a + b, r) {
      OnlyOneAside(a, x, b, r);
    }
    hide OnlyOne;
  }

  lemma TwoAreNotOneEach(records: seq<Record>, lot: Text, kind: DocumentType, now: Instant)
    requires Kempt(records) && TwoAbout(records, lot, kind)
    ensures !OneCurrentEach(records, lot, now)
  {
    hide Current;
    var i, j :| 0 <= i < j < |records| && About(records[i], lot, kind) && About(records[j], lot, kind);
    if OneCurrentEach(records, lot, now) { OneCurrentEachIsPairFree(records, lot, now); }
  }

  function Without(records: seq<Record>, i: nat): seq<Record>
    requires i < |records|
  {
    records[..i] + records[i + 1..]
  }

  /** An undecided record about the lot keeps it from being eligible. */
  lemma UndecidedBlocks(records: seq<Record>, i: nat, lot: Text, now: Instant)
    requires i < |records| && records[i].lot == lot && records[i].kind in REQUIRED && records[i].state != VALID
    ensures !OneCurrentEach(records, lot, now)
  {
    var k := records[i].kind;
    if OneCurrentEach(records, lot, now) {
      var r :| OnlyOne(records, r) && About(r, lot, k) && Current(r, lot, now);
      assert About(records[i], lot, k);
    }
  }

  lemma OverwriteFrees(records: seq<Record>, i: nat, r: Record, lot: Text, kind: DocumentType, now: Instant)
    requires Kempt(records) && TwoAbout(records, lot, kind)
    requires i < |records| && r.kind in REQUIRED && r.state != VALID
    ensures OneCurrentEach(records[i := r], lot, now)
            <==> records[i].lot == lot && r.lot != lot && OneCurrentEach(Without(records, i), lot, now)
  {
    hide OneCurrentEach;
    TwoAreNotOneEach(records, lot, kind, now);
    assert records[i := r] == records[..i] + [r] + records[i + 1..] && records == records[..i] + [records[i]] + records[i + 1..];
    if r.lot == lot {
      UndecidedBlocks(records[i := r], i, lot, now);
    } else {
      OthersAside(records[..i], r, records[i + 1..], lot, now);
      if records[i].lot != lot { OthersAside(records[..i], records[i], records[i + 1..], lot, now); }
    }
  }

  /** A kept submission under the id of a record of this lot, about another lot, whose removal
      leaves one current record of each type; or a reload of a snapshot that has just those. */
  ghost predicate Frees(w: World, step: Step, lot: Text, now: Instant) {
    match step
    case Submitting(s) =>
      var i := Place(w.records, s.freshId);
      && SubmitAnswer(w.records, s).Kept? && i < |w.records| && w.records[i].lot == lot && s.lot != lot
      && OneCurrentEach(Without(w.records, i), lot, now)
    case Reloading(n) => n < |w.saved| && OneCurrentEach(w.saved[n], lot, now)
    case _ => false
  }

  lemma StoredFrees(records: seq<Record>, s: Submission, lot: Text, kind: DocumentType, now: Instant)
    requires Kempt(records) && TwoAbout(records, lot, kind)
    ensures OneCurrentEach(Stored(records, SubmitAnswer(records, s)), lot, now) <==> Frees(World(records, []), Submitting(s), lot, now)
  {
    hide OneCurrentEach;
    hide TwoAbout;
    var a, i := SubmitAnswer(records, s), Place(records, s.freshId);
    TwoAreNotOneEach(records, lot, kind, now);
    if a.Kept? {
      if i < |records| {
        OverwriteFrees(records, i, a.record, lot, kind, now);
      } else {
        TwoStayStored(records, a, lot, kind);
        StoredKeeps(records, a);
        TwoAreNotOneEach(Stored(records, a), lot, kind, now);
      }
    }
  }

  lemma ReviewFreesNothing(records: seq<Record>, v: Review, lot: Text, kind: DocumentType, now: Instant)
    requires Kempt(records) && TwoAbout(records, lot, kind)
    ensures !OneCurrentEach(Stored(records, ReviewAnswer(records, v)), lot, now)
  {
    hide OneCurrentEach;
    hide TwoAbout;
    TwoStayStored(records, ReviewAnswer(records, v), lot, kind);
    StoredKeeps(records, ReviewAnswer(records, v));
    TwoAreNotOneEach(Stored(records, ReviewAnswer(records, v)), lot, kind, now);
  }

  /** In every registry a run can reach: a lot with two records of a type is eligible after one
      more step exactly when the step overwrites one of its records with one of another lot, or
      reloads a snapshot, and that leaves one current record of each type. */
  lemma DoubledIsFreedExactlyWhen(before: seq<Step>, step: Step, lot: Text, kind: DocumentType, now: Instant)
    requires lot != [] && TwoAbout(Run(START, before).records, lot, kind)
    ensures var w := Run(START, before);
            Admits(List(Next(w, step).records, lot), lot, now) <==> Frees(w, step, lot, now)
  {
    hide Run;
    hide OneCurrentEach;
    hide Admits;
    hide TwoAbout;
    var w := Run(START, before);
    RunKempt(START, before);
    StepKempt(w, step);
    AdmitsMeansOneEach(Next(w, step).records, lot, now);
    match step
    case Submitting(s) => StoredFrees(w.records, s, lot, kind, now);
    case Reviewing(v) => ReviewFreesNothing(w.records, v, lot, kind, now);
    case Saving => TwoAreNotOneEach(w.records, lot, kind, now);
    case Reloading(n) =>
      if n < |w.saved| { Reloads(w.saved[n]); } else { TwoAreNotOneEach(w.records, lot, kind, now); }
  }

  // ---- the lot-level expiry computed when a lot is registered ----

  const DAY: int := 86_400_000

  /** Midnight UTC of the day: toISOString().slice(0, 10) read back as a date. */
  function DayOf(t: Instant): (d: Instant)
    ensures d <= t < d + DAY
  {
    t - t % DAY
  }

  /** `new Date(record.expiresAt)`, where null reads as the epoch. */
  predicate Dated(r: Record) { !r.expiresAt.Unreadable? }

  function DateOf(r: Record): Instant
    requires Dated(r)
  {
    if r.expiresAt.At? then r.expiresAt.at else 0
  }

  /** The least date of the records that have one. */
  function Earliest(evidence: seq<Record>): (d: Instant)
    requires exists i :: 0 <= i < |evidence| && Dated(evidence[i])
    ensures forall i :: 0 <= i < |evidence| && Dated(evidence[i]) ==> d <= DateOf(evidence[i])
    ensures exists i :: 0 <= i < |evidence| && Dated(evidence[i]) && DateOf(evidence[i]) == d
  {
    var rest := evidence[1..];
    if !Dated(evidence[0]) then
      assert forall i :: 1 <= i < |evidence| ==> evidence[i] == rest[i - 1];
      Earliest(rest)
    else if exists i :: 0 <= i < |rest| && Dated(rest[i]) then
      var d := Earliest(rest);
      var j :| 0 <= j < |rest| && Dated(rest[j]) && DateOf(rest[j]) == d;
      assert evidence[j + 1] == rest[j];
      assert forall i :: 1 <= i < |evidence| ==> evidence[i] == rest[i - 1];
      if DateOf(evidence[0]) < d then DateOf(evidence[0]) else d
    else
      assert forall i :: 1 <= i < |evidence| ==> evidence[i] == rest[i - 1];
      DateOf(evidence[0])
  }

  function LotExpiry(evidence: seq<Record>): Instant
    requires exists i :: 0 <= i < |evidence| && Dated(evidence[i])
  {
    DayOf(Earliest(evidence))
  }

  lemma AdmittedIsDated(evidence: seq<Record>, lot: Text, now: Instant)
    requires Admits(evidence, lot, now)
    ensures exists i :: 0 <= i < |evidence| && Dated(evidence[i])
  {
    assert COA in REQUIRED;
    var r :| r in evidence && r.kind == COA && Current(r, lot, now);
    var i :| 0 <= i < |evidence| && evidence[i] == r;
    assert Dated(evidence[i]);
  }

  /** The registered expiry is sound and within a day: while it has not passed, every record the
      lot was registered on is unexpired and their bundle is still admitted; it passes less than
      a day before the first record does. */
  lemma LotExpiryIsSound(evidence: seq<Record>, lot: Text, registered: Instant, now: Instant)
    requires Admits(evidence, lot, registered)
    ensures exists i :: 0 <= i < |evidence| && Dated(evidence[i])
    ensures LotExpiry(evidence) >= now ==> forall r :: r in evidence && Dated(r) ==> DateOf(r) >= now
    ensures LotExpiry(evidence) >= now ==> Admits(evidence, lot, now)
    ensures LotExpiry(evidence) < now ==> exists r :: r in evidence && Dated(r) && DateOf(r) < now + DAY
  {
    AdmittedIsDated(evidence, lot, registered);
    var d := Earliest(evidence);
    if LotExpiry(evidence) >= now {
      forall r | r in evidence && Dated(r) ensures DateOf(r) >= now {
        var i :| 0 <= i < |evidence| && evidence[i] == r;
      }
      forall k | k in REQUIRED ensures exists r :: r in evidence && r.kind == k && Current(r, lot, now) {
        var r :| r in evidence && r.kind == k && Current(r, lot, registered);
        var i :| 0 <= i < |evidence| && evidence[i] == r;
        assert Dated(evidence[i]);
      }
    } else {
      var i :| 0 <= i < |evidence| && Dated(evidence[i]) && DateOf(evidence[i]) == d;
      assert evidence[i] in evidence;
    }
  }
}
