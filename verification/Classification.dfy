/** Classifying independent observations against one contract snapshot. */
module Classification {
  import opened Wrappers
  import opened Strings
  import opened Json
  import opened Host
  import opened Contract
  import opened Trust

  /** From best to worst. */
  datatype Verdict = Compliance | Unknown | Violation

  function Rank(v: Verdict): nat { match v case Compliance => 0 case Unknown => 1 case Violation => 2 }
  function Worse(a: Verdict, b: Verdict): Verdict { if Rank(a) < Rank(b) then b else a }

  function OutcomeText(v: Verdict): string {
    match v
    case Compliance => "confirmed_compliance" case Unknown => "unknown" case Violation => "confirmed_violation"
  }
  function StateText(v: Verdict): string {
    match v case Compliance => "conforming" case Unknown => "unknown" case Violation => "violating"
  }

  /** Why an assessment came out as it did. */
  datatype Reason =
    | NoContract | UnusableContract | OtherImage | NoSelector | OutsideSelector | OtherLabels | OtherServiceAccount
    | UnreadableRecord | OtherIdentity | ContradictoryRecords | NoObservations
    | Assessed(verdict: Verdict)
    | NotIndependent | NoReferences | IncompleteClaim | UnattestedContract | ConflictingState | NothingSigned

  function ReasonText(r: Reason): string {
    match r
    case NoContract => "no independently verified contract snapshot is available"
    case UnusableContract => "contract snapshot is not active, signature-verified, or complete"
    case OtherImage => "workload image digest does not match the contract snapshot"
    case NoSelector => "contract workload selector is missing"
    case OutsideSelector => "workload is outside the contract selector"
    case OtherLabels => "workload labels do not satisfy the contract selector"
    case OtherServiceAccount => "workload service account does not satisfy the contract selector"
    case UnreadableRecord => "invalid or non-independent evidence"
    case OtherIdentity => "observation identity does not match the requested run, scenario, or image"
    case ContradictoryRecords => "contradictory records share an event identity"
    case NoObservations => "no independent observations were supplied"
    case Assessed(Violation) => "independent observed behavior violates the applicable contract rule"
    case Assessed(Compliance) => "complete independent observation interval conforms to the contract"
    case Assessed(Unknown) => "evidence is incomplete or at least one observation cannot be assessed"
    case NotIndependent => "signature is authentic but the configured key is not independent of PHANTOM"
    case NoReferences => "signed observation has no independent evidence references"
    case IncompleteClaim => "signed compliance claim lacks complete observation coverage"
    case UnattestedContract => "contract snapshot lacks a separately verified registry signature"
    case ConflictingState => "signed observed state conflicts with deterministic contract evaluation"
    case NothingSigned => "no authenticated independent signed oracle observation was supplied"
  }

  datatype OracleResult = OracleResult(
    runId: string, scenarioId: string, contractId: Json, contractVersion: Json, workload: Fields,
    expectedState: string, verdict: Verdict, assessedAt: string, evidenceReferences: seq<string>,
    reason: Reason, independenceBasis: seq<string>, authenticity: string, independence: string,
    observationIds: seq<string>, signatureKeyIds: seq<string>)

  /** What is being assessed; `assessedAt` is the clock reading put into the result. */
  datatype Question = Question(
    runId: string, scenarioId: string, contract: Option<Fields>, workload: Fields,
    complete: bool, assessedAt: string)

  /** `abstain` with the default statuses. */
  function Abstain(q: Question, reason: Reason, contractId: Json, contractVersion: Json): OracleResult {
    OracleResult(q.runId, q.scenarioId, contractId, contractVersion, q.workload, "contract_state_unavailable",
                 Unknown, q.assessedAt, [], reason, [], "unverified", "unverified", [], [])
  }

  // ---------- Is the contract applicable? ----------

  predicate CompleteContract(h: Host, c: Fields): (complete: bool)
    ensures complete ==>
      && Get(c, "verification_reference").Str? && Get(c, "image_digest").Str?
      && Get(c, "constraints").Obj? && ValidConstraints(h, Get(c, "constraints"))
  {
    && NonemptyText(Get(c, "contract_id")) && NonemptyText(Get(c, "contract_version"))
    && NonemptyText(Get(c, "verification_reference"))
    && Get(c, "image_digest").Str? && IsDigest(Get(c, "image_digest").s)
    && ValidConstraints(h, Get(c, "constraints"))
    && Get(c, "status") == Str("active")
    && Get(c, "signature_verified") == Bool(true)
  }

  predicate LabelsSatisfied(selector: Fields, workload: Fields) {
    var labels := if "labels" in selector then selector["labels"] else Obj(map[]);
    var observed := if "labels" in workload then workload["labels"] else Obj(map[]);
    labels.Obj? && observed.Obj? && forall k :: k in labels.fields ==> Get(observed.fields, k) == labels.fields[k]
  }

  /** The first reason for which the contract cannot be applied to the workload. */
  function ContractFault(h: Host, c: Fields, workload: Fields): Option<Reason> {
    if !CompleteContract(h, c) then Some(UnusableContract)
    else if Get(workload, "image_digest") != Get(c, "image_digest") then
      Some(OtherImage)
    else if !Get(c, "workload_selector").Obj? then Some(NoSelector)
    else
      var selector := Get(c, "workload_selector").fields;
      if Get(selector, "cluster_name") != Get(workload, "cluster")
        || Get(selector, "namespace") != Get(workload, "namespace")
      then Some(OutsideSelector)
      else if !LabelsSatisfied(selector, workload) then Some(OtherLabels)
      else if Get(selector, "service_account") != Null
        && Get(selector, "service_account") != Get(workload, "service_account")
      then Some(OtherServiceAccount)
      else None
  }

  // ---------- Reading observations ----------

  datatype Observation = Observation(
    runId: string, scenarioId: string, workload: Fields, eventId: string, imageDigest: string,
    source: string, evidenceReference: string, behavior: string, details: Fields)

  const TEXT_FIELDS := {"run_id", "scenario_id", "event_id", "observed_at", "image_digest", "source",
                        "evidence_reference", "behavior"}

  /** `OracleObservation.from_mapping`, None when it raises. */
  function ReadObservation(h: Host, raw: Fields): Option<Observation> {
    if !(TEXT_FIELDS + {"workload", "details"} <= raw.Keys) then None
    else if !(forall f :: f in TEXT_FIELDS ==> NonemptyText(raw[f])) then None
    else if !raw["details"].Obj? || !raw["workload"].Obj? then None
    else if !ApprovedSource(raw["source"].s) || !IsDigest(raw["image_digest"].s) then None
    else if h.parseTime(raw["observed_at"].s).None? || !h.parseTime(raw["observed_at"].s).value.Aware() then None
    else Some(Observation(raw["run_id"].s, raw["scenario_id"].s, raw["workload"].fields, raw["event_id"].s,
                          raw["image_digest"].s, raw["source"].s, raw["evidence_reference"].s,
                          raw["behavior"].s, raw["details"].fields))
  }

  /** Every identity field the requested workload carries is the observed one. */
  predicate WorkloadMatches(expected: Fields, observed: Fields) {
    forall f :: f in {"cluster", "namespace", "name"} && Get(expected, f) != Null ==>
      Get(expected, f) == Get(observed, f)
  }

  predicate ForQuestion(q: Question, digest: Json, o: Observation) {
    && o.runId == q.runId && o.scenarioId == q.scenarioId
    && Str(o.imageDigest) == digest && Get(o.workload, "image_digest") == digest
    && WorkloadMatches(q.workload, o.workload)
  }

  /** What is wrong with one record taken alone. */
  function ItemFault(h: Host, q: Question, digest: Json, raw: Fields): Option<Reason> {
    match ReadObservation(h, raw)
    case None => Some(UnreadableRecord)
    case Some(o) => if ForQuestion(q, digest, o) then None else Some(OtherIdentity)
  }

  predicate SameEvent(a: Fields, b: Fields) { Get(a, "event_id") == Get(b, "event_id") }

  /** What is wrong with a record read after others: its own fault, or an earlier record of the
      same event that differs from it. */
  function NextFault(h: Host, q: Question, digest: Json, before: seq<Fields>, raw: Fields): Option<Reason> {
    if ItemFault(h, q, digest, raw).Some? then ItemFault(h, q, digest, raw)
    else if exists i :: 0 <= i < |before| && SameEvent(before[i], raw) && before[i] != raw
      then Some(ContradictoryRecords)
    else None
  }

  /** The first fault met when the records are read in order. */
  function FirstFault(h: Host, q: Question, digest: Json, records: seq<Fields>): Option<Reason> {
    if records == [] then None
    else
      var n := |records| - 1;
      match FirstFault(h, q, digest, records[..n])
      case Some(f) => Some(f)
      case None => NextFault(h, q, digest, records[..n], records[n])
  }

  /** Every record is fit for the question, and records of one event are identical. */
  ghost predicate Admissible(h: Host, q: Question, digest: Json, records: seq<Fields>) {
    && (forall r :: r in records ==> ItemFault(h, q, digest, r).None?)
    && (forall r, s :: r in records && s in records && SameEvent(r, s) ==> r == s)
  }

  lemma AdmissibleStep(h: Host, q: Question, digest: Json, init: seq<Fields>, last: Fields)
    ensures Admissible(h, q, digest, init + [last]) <==>
      && Admissible(h, q, digest, init) && ItemFault(h, q, digest, last).None?
      && !(exists i :: 0 <= i < |init| && SameEvent(init[i], last) && init[i] != last)
  {
    hide ItemFault;
    var records := init + [last];
    assert forall r :: r in records <==> r in init || r == last;
    assert last in records;
    if i :| 0 <= i < |init| && SameEvent(init[i], last) && init[i] != last {
      assert init[i] in records;
    }
  }

  lemma {:induction false} NoFaultIsAdmissible(h: Host, q: Question, digest: Json, records: seq<Fields>)
    ensures FirstFault(h, q, digest, records).None? <==> Admissible(h, q, digest, records)
  {
    hide ItemFault, Admissible;
    if records == [] {
      assert Admissible(h, q, digest, []) by { AdmissibleEmpty(h, q, digest); }
    } else {
      var init, last := records[..|records| - 1], records[|records| - 1];
      NoFaultIsAdmissible(h, q, digest, init);
      AdmissibleStep(h, q, digest, init, last);
      assert records == init + [last];
    }
  }

  lemma AdmissibleEmpty(h: Host, q: Question, digest: Json)
    ensures Admissible(h, q, digest, [])
  {}

  // ---------- The verdict ----------

  function AssessmentOf(h: Host, constraints: Fields, raw: Fields): Assessment {
    match ReadObservation(h, raw)
    case None => NotAssessable
    case Some(o) => Assess(h, o.behavior, o.details, constraints)
  }

  function VerdictOf(h: Host, constraints: Fields, records: seq<Fields>, complete: bool): Verdict {
    if exists r :: r in records && AssessmentOf(h, constraints, r) == Violating then Violation
    else if complete && forall r :: r in records ==> AssessmentOf(h, constraints, r) == Conforming then Compliance
    else Unknown
  }

  function EvidenceReference(h: Host, raw: Fields): string {
    match ReadObservation(h, raw) case None => "" case Some(o) => o.evidenceReference
  }
  function SourceOf(h: Host, raw: Fields): string {
    match ReadObservation(h, raw) case None => "" case Some(o) => o.source
  }

  function Decide(h: Host, q: Question, c: Fields, records: seq<Fields>): OracleResult
    requires CompleteContract(h, c)
  {
    var v := VerdictOf(h, Get(c, "constraints").fields, records, q.complete);
    OracleResult(q.runId, q.scenarioId, Get(c, "contract_id"), Get(c, "contract_version"), q.workload,
                 "conforming", v, q.assessedAt,
                 Sorted({Get(c, "verification_reference").s} + set r | r in records :: EvidenceReference(h, r)),
                 Assessed(v),
                 Sorted({REGISTRY} + set r | r in records :: SourceOf(h, r)),
                 "unverified", "unverified", [], [])
  }

  /** What `_classify_contract_observations` returns when both ids are nonempty. */
  function Classify(h: Host, q: Question, records: seq<Fields>): OracleResult {
    match q.contract
    case None => Abstain(q, NoContract, Null, Null)
    case Some(c) =>
      if !CompleteContract(h, c) then
        Abstain(q, UnusableContract, Null, Null)
      else
        var id, version := Get(c, "contract_id"), Get(c, "contract_version");
        match ContractFault(h, c, q.workload)
        case Some(reason) => Abstain(q, reason, id, version)
        case None =>
          match FirstFault(h, q, Get(c, "image_digest"), records)
          case Some(fault) => Abstain(q, fault, id, version)
          case None =>
            if records == [] then Abstain(q, NoObservations, id, version)
            else Decide(h, q, c, records)
  }

  /** `_classify_contract_observations`: one pass that keeps the fingerprint seen for every event
      and the list of parsed records. None is the ValueError for a missing identity. */
  method ClassifyContractObservations(h: Host, q: Question, records: seq<Fields>) returns (r: Option<OracleResult>)
    requires h.Lawful()
    ensures r == if q.runId == [] || q.scenarioId == [] then None else Some(Classify(h, q, records))
  {
    hide CompleteContract, ContractFault, FirstFault, ReadObservation, Assess, Sorted;
    if q.runId == [] || q.scenarioId == [] { return None; }
    if q.contract.None? {
      return Some(Abstain(q, NoContract, Null, Null));
    }
    var c := q.contract.value;
    if !CompleteContract(h, c) {
      return Some(Abstain(q, UnusableContract, Null, Null));
    }
    var id, version, digest := Get(c, "contract_id"), Get(c, "contract_version"), Get(c, "image_digest");
    var unfit := ContractFault(h, c, q.workload);
    if unfit.Some? { return Some(Abstain(q, unfit.value, id, version)); }
    var fault, parsed := ReadAll(h, q, digest, records);
    if fault.Some? { return Some(Abstain(q, fault.value, id, version)); }
    if parsed == [] { return Some(Abstain(q, NoObservations, id, version)); }
    var verdict := JudgeAll(h, records, parsed, Get(c, "constraints").fields, q.complete);
    ParsedSets(h, records, parsed);
    var references := {Get(c, "verification_reference").s} + set o | o in parsed :: o.evidenceReference;
    var sources := {REGISTRY} + set o | o in parsed :: o.source;
    return Some(OracleResult(q.runId, q.scenarioId, id, version, q.workload, "conforming", verdict, q.assessedAt,
                             Sorted(references), Assessed(verdict), Sorted(sources), "unverified", "unverified", [],
                               []));
  }

  /** The verdict over the parsed records. */
  method JudgeAll(h: Host, ghost records: seq<Fields>, parsed: seq<Observation>, constraints: Fields, complete: bool)
    returns (verdict: Verdict)
    requires ReadsAs(h, records, parsed)
    ensures verdict == VerdictOf(h, constraints, records, complete)
  {
    hide ReadObservation, Assess;
    var assessments := seq(|parsed|, i
      requires 0 <= i < |parsed| => Assess(h, parsed[i].behavior, parsed[i].details, constraints));
    SameVerdict(h, constraints, records, assessments, complete);
    verdict :=
      if Violating in assessments then Violation
      else if complete && forall i :: 0 <= i < |assessments| ==> assessments[i] == Conforming then Compliance
      else Unknown;
  }

  /** `parsed` holds the reading of every record, in order. */
  ghost predicate ReadsAs(h: Host, records: seq<Fields>, parsed: seq<Observation>) {
    && |parsed| == |records|
    && forall i :: 0 <= i < |records| ==> ReadObservation(h, records[i]) == Some(parsed[i])
  }

  /** `seen` maps each event read so far to the fingerprint of its record. */
  ghost predicate Remembers(h: Host, records: seq<Fields>, parsed: seq<Observation>, seen: map<string, string>) {
    && |parsed| == |records|
    && (forall i :: 0 <= i < |records| ==>
          parsed[i].eventId in seen && seen[parsed[i].eventId] == h.CanonicalSha256(Obj(records[i])))
    && (forall e :: e in seen ==> exists i :: 0 <= i < |records| && parsed[i].eventId == e)
  }

  lemma EventIdRead(h: Host, raw: Fields)
    requires ReadObservation(h, raw).Some?
    ensures Get(raw, "event_id") == Str(ReadObservation(h, raw).value.eventId)
  {
    assert "event_id" in TEXT_FIELDS;
  }

  /** Comparing fingerprints with the remembered one finds exactly the contradictions. */
  lemma FingerprintsFindContradictions(
    h: Host, before: seq<Fields>, parsed: seq<Observation>, seen: map<string, string>, raw: Fields)
    requires h.Lawful() && ReadsAs(h, before, parsed) && Remembers(h, before, parsed, seen)
    requires ReadObservation(h, raw).Some?
    ensures var e := ReadObservation(h, raw).value.eventId;
      (e in seen && seen[e] != h.CanonicalSha256(Obj(raw))) <==>
      exists i :: 0 <= i < |before| && SameEvent(before[i], raw) && before[i] != raw
  {
    hide ReadObservation;
    var e, fp := ReadObservation(h, raw).value.eventId, h.CanonicalSha256(Obj(raw));
    EventIdRead(h, raw);
    if e in seen && seen[e] != fp {
      var i :| 0 <= i < |before| && parsed[i].eventId == e;
      EventIdRead(h, before[i]);
      assert SameEvent(before[i], raw) && before[i] != raw;
    }
    if i :| 0 <= i < |before| && SameEvent(before[i], raw) && before[i] != raw {
      EventIdRead(h, before[i]);
      assert parsed[i].eventId == e;
      if seen[e] == fp { EncodeInjective(Obj(before[i]), Obj(raw)); }
    }
  }

  /** Reading one record: parse it, check it answers the question, and compare its fingerprint
      with the one remembered for its event. */
  method ReadOne(h: Host, q: Question, digest: Json, ghost before: seq<Fields>, ghost parsed: seq<Observation>,
                 seen: map<string, string>, raw: Fields)
    returns (fault: Option<Reason>, item: Option<Observation>)
    requires h.Lawful() && ReadsAs(h, before, parsed) && Remembers(h, before, parsed, seen)
    ensures fault == NextFault(h, q, digest, before, raw)
    ensures item == ReadObservation(h, raw) && (fault.None? ==> item.Some?)
    ensures fault.None? ==> item.value.eventId in seen ==> seen[item.value.eventId] == h.CanonicalSha256(Obj(raw))
  {
    hide ReadObservation, ForQuestion, ReadsAs, Remembers;
    item := ReadObservation(h, raw);
    if item.None? { return Some(UnreadableRecord), item; }
    if !ForQuestion(q, digest, item.value) { return Some(OtherIdentity), item; }
    FingerprintsFindContradictions(h, before, parsed, seen, raw);
    if item.value.eventId in seen && seen[item.value.eventId] != h.CanonicalSha256(Obj(raw)) {
      return Some(ContradictoryRecords), item;
    }
    return None, item;
  }

  /** The reading loop. */
  method ReadAll(h: Host, q: Question, digest: Json, records: seq<Fields>)
    returns (fault: Option<Reason>, parsed: seq<Observation>)
    requires h.Lawful()
    ensures fault == FirstFault(h, q, digest, records)
    ensures fault.None? ==> ReadsAs(h, records, parsed)
  {
    hide ReadObservation, FirstFault, ReadsAs, Remembers, NextFault;
    parsed := [];
    var seen: map<string, string> := map[];
    NothingRead(h, q, digest);
    assert records[..0] == [];
    for i := 0 to |records|
      invariant FirstFault(h, q, digest, records[..i]).None?
      invariant ReadsAs(h, records[..i], parsed) && Remembers(h, records[..i], parsed, seen)
    {
      var next, item := ReadOne(h, q, digest, records[..i], parsed, seen, records[i]);
      FaultSoFar(h, q, digest, records, i);
      if next.Some? { return next, parsed; }
      RememberOneMore(h, records[..i], parsed, seen, records[i]);
      seen := seen[item.value.eventId := h.CanonicalSha256(Obj(records[i]))];
      parsed := parsed + [item.value];
      assert records[..i + 1] == records[..i] + [records[i]];
    }
    assert records[..|records|] == records;
    fault := None;
  }

  lemma NothingRead(h: Host, q: Question, digest: Json)
    ensures FirstFault(h, q, digest, []).None? && ReadsAs(h, [], []) && Remembers(h, [], [], map[])
  {}

  lemma RememberOneMore(h: Host, before: seq<Fields>, parsed: seq<Observation>, seen: map<string, string>, raw: Fields)
    requires ReadsAs(h, before, parsed) && Remembers(h, before, parsed, seen) && ReadObservation(h, raw).Some?
    requires var e := ReadObservation(h, raw).value.eventId; e in seen ==> seen[e] == h.CanonicalSha256(Obj(raw))
    ensures var o := ReadObservation(h, raw).value;
      && ReadsAs(h, before + [raw], parsed + [o])
      && Remembers(h, before + [raw], parsed + [o], seen[o.eventId := h.CanonicalSha256(Obj(raw))])
  {
    hide ReadObservation;
    var o := ReadObservation(h, raw).value;
    var seen', parsed' := seen[o.eventId := h.CanonicalSha256(Obj(raw))], parsed + [o];
    forall e | e in seen' ensures exists i :: 0 <= i < |parsed'| && parsed'[i].eventId == e {
      if e == o.eventId {
        assert parsed'[|parsed|].eventId == e;
      } else {
        var i :| 0 <= i < |before| && parsed[i].eventId == e;
        assert parsed'[i].eventId == e;
      }
    }
  }

  /** How the first fault of the whole list relates to the records read so far. */
  lemma FaultSoFar(h: Host, q: Question, digest: Json, records: seq<Fields>, i: nat)
    requires i < |records| && FirstFault(h, q, digest, records[..i]).None?
    ensures var next := NextFault(h, q, digest, records[..i], records[i]);
      && FirstFault(h, q, digest, records[..i + 1]) == next
      && (next.Some? ==> FirstFault(h, q, digest, records) == next)
  {
    hide NextFault;
    assert records[..i + 1][..i] == records[..i];
    if FirstFault(h, q, digest, records[..i + 1]).Some? { FaultPersists(h, q, digest, records, i + 1); }
  }

  lemma {:induction false} FaultPersists(h: Host, q: Question, digest: Json, records: seq<Fields>, i: nat)
    requires i <= |records| && FirstFault(h, q, digest, records[..i]).Some?
    ensures FirstFault(h, q, digest, records) == FirstFault(h, q, digest, records[..i])
  {
    if i < |records| {
      var init := records[..|records| - 1];
      assert init[..i] == records[..i];
      FaultPersists(h, q, digest, init, i);
    } else {
      assert records[..i] == records;
    }
  }

  lemma SameVerdict(h: Host, constraints: Fields, records: seq<Fields>, assessments: seq<Assessment>, complete: bool)
    requires |assessments| == |records|
    requires forall i :: 0 <= i < |records| ==> AssessmentOf(h, constraints, records[i]) == assessments[i]
    ensures VerdictOf(h, constraints, records, complete) ==
      if Violating in assessments then Violation
      else if complete && forall i :: 0 <= i < |assessments| ==> assessments[i] == Conforming then Compliance
      else Unknown
  {
    if Violating in assessments {
      var i :| 0 <= i < |assessments| && assessments[i] == Violating;
      assert records[i] in records;
    }
  }

  lemma ParsedSets(h: Host, records: seq<Fields>, parsed: seq<Observation>)
    requires ReadsAs(h, records, parsed)
    ensures (set o | o in parsed :: o.evidenceReference) == (set r | r in records :: EvidenceReference(h, r))
    ensures (set o | o in parsed :: o.source) == (set r | r in records :: SourceOf(h, r))
  {
    forall o | o in parsed ensures exists r :: r in records && ReadObservation(h, r) == Some(o) {
      var i :| 0 <= i < |parsed| && parsed[i] == o;
      assert records[i] in records;
    }
    forall r | r in records ensures exists o :: o in parsed && ReadObservation(h, r) == Some(o) {
      var i :| 0 <= i < |records| && records[i] == r;
      assert parsed[i] in parsed;
    }
  }

  // ---------- Laws ----------

  /** Same records, in any order and any number of times. */
  predicate SameRecords(a: seq<Fields>, b: seq<Fields>) {
    (forall r :: r in a ==> r in b) && (forall r :: r in b ==> r in a)
  }

  /** The classification depends on the set of records alone; only the wording of a refusal can
      depend on their order. */
  lemma OnlyTheSetMatters(h: Host, q: Question, a: seq<Fields>, b: seq<Fields>)
    requires SameRecords(a, b)
    ensures Classify(h, q, a).(reason := NoContract) == Classify(h, q, b).(reason := NoContract)
  {
    hide CompleteContract, ContractFault, FirstFault, ItemFault, AssessmentOf, EvidenceReference, SourceOf;
    if q.contract.Some? && CompleteContract(h, q.contract.value) {
      var c := q.contract.value;
      NoFaultIsAdmissible(h, q, Get(c, "image_digest"), a);
      NoFaultIsAdmissible(h, q, Get(c, "image_digest"), b);
      assert |a| > 0 ==> a[0] in b;
      assert |b| > 0 ==> b[0] in a;
      VerdictOfSet(h, Get(c, "constraints").fields, a, b, q.complete);
      assert (set r | r in a :: EvidenceReference(h, r)) == (set r | r in b :: EvidenceReference(h, r));
      assert (set r | r in a :: SourceOf(h, r)) == (set r | r in b :: SourceOf(h, r));
    }
  }

  lemma VerdictOfSet(h: Host, constraints: Fields, a: seq<Fields>, b: seq<Fields>, complete: bool)
    requires SameRecords(a, b)
    ensures VerdictOf(h, constraints, a, complete) == VerdictOf(h, constraints, b, complete)
  {}

  lemma ClassifiedVerdict(h: Host, q: Question, c: Fields, records: seq<Fields>)
    requires q.contract == Some(c) && CompleteContract(h, c) && ContractFault(h, c, q.workload).None?
    requires records != [] && Admissible(h, q, Get(c, "image_digest"), records)
    ensures Classify(h, q, records).verdict == VerdictOf(h, Get(c, "constraints").fields, records, q.complete)
  {
    hide CompleteContract, ContractFault, FirstFault, Admissible, VerdictOf;
    NoFaultIsAdmissible(h, q, Get(c, "image_digest"), records);
  }

  lemma VerdictOfUnion(h: Host, constraints: Fields, a: seq<Fields>, b: seq<Fields>, complete: bool)
    requires a != [] && b != []
    ensures VerdictOf(h, constraints, a + b, complete)
         == Worse(VerdictOf(h, constraints, a, complete), VerdictOf(h, constraints, b, complete))
  {
    hide AssessmentOf;
    assert forall r :: r in a + b <==> r in a || r in b;
  }

  lemma PartsAdmissible(h: Host, q: Question, digest: Json, a: seq<Fields>, b: seq<Fields>)
    requires Admissible(h, q, digest, a + b)
    ensures Admissible(h, q, digest, a) && Admissible(h, q, digest, b)
  {
    hide ItemFault;
    assert forall r :: r in a + b <==> r in a || r in b;
  }

  /** Evidence combines by taking the worse verdict. */
  lemma CombinedVerdict(h: Host, q: Question, c: Fields, a: seq<Fields>, b: seq<Fields>)
    requires q.contract == Some(c) && CompleteContract(h, c) && ContractFault(h, c, q.workload).None?
    requires a != [] && b != [] && Admissible(h, q, Get(c, "image_digest"), a + b)
    ensures Classify(h, q, a + b).verdict == Worse(Classify(h, q, a).verdict, Classify(h, q, b).verdict)
  {
    hide CompleteContract, ContractFault, Admissible, VerdictOf, Classify;
    PartsAdmissible(h, q, Get(c, "image_digest"), a, b);
    ClassifiedVerdict(h, q, c, a);
    ClassifiedVerdict(h, q, c, b);
    ClassifiedVerdict(h, q, c, a + b);
    VerdictOfUnion(h, Get(c, "constraints").fields, a, b, q.complete);
  }

  /** A contract with its constraint set replaced. */
  function WithConstraints(c: Fields, constraints: Json): Fields { c["constraints" := constraints] }

  /** Loosening the contract never worsens the verdict. */
  lemma LooseningNeverWorsens(h: Host, q: Question, c: Fields, looser: Json, records: seq<Fields>)
    requires q.contract == Some(c) && CompleteContract(h, c)
    requires ValidConstraints(h, looser) && Loosens(h, Get(c, "constraints"), looser)
    ensures Rank(Classify(h, q.(contract := Some(WithConstraints(c, looser))), records).verdict)
         <= Rank(Classify(h, q, records).verdict)
  {
    hide CompleteContract, ContractFault, FirstFault, ReadObservation, Loosens, ValidConstraints, Assess;
    var c', q' := WithConstraints(c, looser), q.(contract := Some(WithConstraints(c, looser)));
    SameApplicability(h, c, looser, q.workload);
    SameFaults(h, q, q', Get(c, "image_digest"), records);
    forall r | r in records
      ensures AssessmentOf(h, Get(c, "constraints").fields, r) == Conforming ==>
        AssessmentOf(h, looser.fields, r) == Conforming
      ensures AssessmentOf(h, Get(c, "constraints").fields, r) == NotAssessable <==>
        AssessmentOf(h, looser.fields, r) == NotAssessable
    {
      if ReadObservation(h, r).Some? {
        var o := ReadObservation(h, r).value;
        LooseningKeepsConforming(h, o.behavior, o.details, Get(c, "constraints"), looser);
      }
    }
    LooserVerdict(h, Get(c, "constraints").fields, looser.fields, records, q.complete);
  }

  lemma SameApplicability(h: Host, c: Fields, looser: Json, workload: Fields)
    requires CompleteContract(h, c) && ValidConstraints(h, looser)
    ensures CompleteContract(h, WithConstraints(c, looser))
    ensures Get(WithConstraints(c, looser), "image_digest") == Get(c, "image_digest")
    ensures Get(WithConstraints(c, looser), "constraints") == looser
    ensures ContractFault(h, WithConstraints(c, looser), workload) == ContractFault(h, c, workload)
  {
    hide ValidConstraints, IsDigest, LabelsSatisfied;
  }

  lemma {:induction false} SameFaults(h: Host, q: Question, q': Question, digest: Json, records: seq<Fields>)
    requires q'.runId == q.runId && q'.scenarioId == q.scenarioId && q'.workload == q.workload
    ensures FirstFault(h, q', digest, records) == FirstFault(h, q, digest, records)
  {
    if records != [] { SameFaults(h, q, q', digest, records[..|records| - 1]); }
  }

  lemma LooserVerdict(h: Host, c: Fields, c': Fields, records: seq<Fields>, complete: bool)
    requires forall r :: r in records ==>
      && (AssessmentOf(h, c, r) == Conforming ==> AssessmentOf(h, c', r) == Conforming)
      && (AssessmentOf(h, c, r) == NotAssessable <==> AssessmentOf(h, c', r) == NotAssessable)
    ensures Rank(VerdictOf(h, c', records, complete)) <= Rank(VerdictOf(h, c, records, complete))
  {}

  /** The clock reading is copied into the result and decides nothing. */
  lemma ClockIsOnlyRecorded(h: Host, q: Question, at: string, records: seq<Fields>)
    ensures Classify(h, q.(assessedAt := at), records).(assessedAt := []) == Classify(h, q, records).(assessedAt := [])
  {
    hide CompleteContract, ContractFault, FirstFault, Decide, Get, SourceOf, Sorted;
    if q.contract.Some? {
      SameFaults(h, q, q.(assessedAt := at), Get(q.contract.value, "image_digest"), records);
      if CompleteContract(h, q.contract.value) { DecisionRecordsClock(h, q, at, q.contract.value, records); }
    }
  }

  lemma DecisionRecordsClock(h: Host, q: Question, at: string, c: Fields, records: seq<Fields>)
    requires CompleteContract(h, c)
    ensures Decide(h, q.(assessedAt := at), c, records) == Decide(h, q, c, records).(assessedAt := at)
  {
    hide CompleteContract, VerdictOf, EvidenceReference, SourceOf, Sorted;
  }
}
