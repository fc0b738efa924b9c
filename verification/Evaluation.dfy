/** Evaluating one signed observation: from an envelope to a verdict. */
module Evaluation {
  import opened Wrappers
  import opened Strings
  import opened Json
  import opened Host
  import opened Contract
  import opened Trust
  import opened SignedObservation
  import opened Classification

  /** What the caller expects the observation to be about. */
  datatype Request = Request(runId: string, scenarioId: string, workload: Fields)

  datatype Evaluation = Evaluation(result: OracleResult, verified: Verified)

  predicate ForRequest(req: Request, p: Payload) {
    && p.runId == req.runId && p.scenarioId == req.scenarioId
    && Str(p.imageDigest) == Get(req.workload, "image_digest")
    && WorkloadMatches(req.workload, p.workload)
  }

  function IndependenceText(v: Verified): string {
    if v.key.independent then "configured_independent" else "not_established"
  }

  /** An `unknown` result for an authentic observation. */
  function AbstainSigned(req: Request, v: Verified, reason: Reason, id: Json, version: Json,
                         references: seq<string>, assessedAt: string): (r: OracleResult)
    ensures r.verdict == Unknown
  {
    OracleResult(req.runId, req.scenarioId, id, version, req.workload, "contract_state_unavailable", Unknown,
                 assessedAt, references, reason, [], "verified", IndependenceText(v),
                 [v.payload.observationId], [v.key.keyId])
  }

  /** The record handed to the classifier. */
  function RecordOf(p: Payload, source: string, reference: string): Fields {
    map["run_id" := Str(p.runId), "scenario_id" := Str(p.scenarioId), "workload" := Obj(p.workload),
        "event_id" := Str(p.eventId), "observed_at" := Str(p.observedAt), "image_digest" := Str(p.imageDigest),
        "source" := Str(source), "evidence_reference" := Str(reference),
        "behavior" := Str(p.behavior), "details" := Obj(p.details)]
  }

  function QuestionFor(req: Request, p: Payload, assessedAt: string): Question {
    Question(req.runId, req.scenarioId, Some(p.contract), req.workload, p.complete, assessedAt)
  }

  function Classified(h: Host, v: Verified, req: Request, assessedAt: string): OracleResult
    requires v.payload.references != []
  {
    Classify(h, QuestionFor(req, v.payload, assessedAt),
      [RecordOf(v.payload, v.key.sourceType, v.payload.references[0])])
  }

  /** Authentic, but not evidence: the four reasons to abstain before the contract is consulted. */
  predicate Insufficient(v: Verified) {
    || !v.key.independent || v.payload.references == []
    || (v.payload.state == "conforming" && !v.payload.complete) || !v.contractVerified
  }

  function Insufficiency(v: Verified): Reason {
    if !v.key.independent then NotIndependent
    else if v.payload.references == [] then NoReferences
    else if v.payload.state == "conforming" && !v.payload.complete then IncompleteClaim
    else UnattestedContract
  }

  /** Only the last of the four abstentions keeps the references. */
  function InsufficiencyReferences(v: Verified): seq<string> {
    if !v.key.independent || (v.payload.state == "conforming" && !v.payload.complete) then [] else v.payload.references
  }

  /** The part of `evaluate_signed_observation` after authentication and the identity check. */
  function JudgeVerified(h: Host, v: Verified, req: Request, assessedAt: string): OracleResult {
    var p := v.payload;
    if Insufficient(v) then
      AbstainSigned(req, v, Insufficiency(v), Null, Null, InsufficiencyReferences(v), assessedAt)
    else if StateText(Classified(h, v, req, assessedAt).verdict) != p.state then
      AbstainSigned(req, v, ConflictingState,
                    Get(p.contract, "contract_id"), Get(p.contract, "contract_version"), p.references, assessedAt)
    else
      Endorse(Classified(h, v, req, assessedAt), v)
  }

  /** A classification that agrees with the signed state, with the observation's evidence added. */
  function Endorse(c: OracleResult, v: Verified): (r: OracleResult)
    ensures r.verdict == c.verdict
  {
    c.(evidenceReferences := Sorted((set r | r in c.evidenceReferences) + (set r | r in v.payload.references)),
       authenticity := "verified", independence := "configured_independent",
       observationIds := [v.payload.observationId], signatureKeyIds := [v.key.keyId],
       independenceBasis := Sorted((set s | s in c.independenceBasis) + {v.key.sourceType}))
  }

  /** `evaluate_signed_observation` */
  function Evaluate(h: Host, envelope: Json, trust: TrustSet, req: Request, now: Datetime, w: Window,
      assessedAt: string)
    : Result<Evaluation, Refusal>
    requires h.Lawful()
  {
    match VerifySignedObservation(h, envelope, trust, now, w)
    case Err(e) => Err(e)
    case Ok(v) =>
      if !ForRequest(req, v.payload) then Err(Rejected)
      else Ok(Evaluation(JudgeVerified(h, v, req, assessedAt), v))
  }

  // ---------- What the classifier sees ----------

  lemma RecordFields(p: Payload, source: string, reference: string)
    ensures var r := RecordOf(p, source, reference);
      && r.Keys == TEXT_FIELDS + {"workload", "details"}
      && r["run_id"] == Str(p.runId) && r["scenario_id"] == Str(p.scenarioId) && r["workload"] == Obj(p.workload)
      && r["event_id"] == Str(p.eventId) && r["observed_at"] == Str(p.observedAt)
      && r["image_digest"] == Str(p.imageDigest) && r["source"] == Str(source)
      && r["evidence_reference"] == Str(reference) && r["behavior"] == Str(p.behavior) && r["details"] == Obj(p.details)
  {}

  lemma RecordTexts(h: Host, p: Payload, source: string, reference: string)
    requires p.Valid(h) && ApprovedSource(source) && reference != []
    ensures var r := RecordOf(p, source, reference);
      TEXT_FIELDS <= r.Keys && forall f :: f in TEXT_FIELDS ==> NonemptyText(r[f])
  {
    RecordFields(p, source, reference);
    hide RecordOf, Identified;
  }

  /** A verified payload yields a readable record: nothing the verifier accepted is called unreadable. */
  lemma RecordIsReadable(h: Host, p: Payload, source: string, reference: string)
    requires p.Valid(h) && ApprovedSource(source) && reference != []
    ensures ReadObservation(h, RecordOf(p, source, reference)) ==
      Some(Observation(p.runId, p.scenarioId, p.workload, p.eventId, p.imageDigest, source, reference, p.behavior,
        p.details))
  {
    RecordFields(p, source, reference);
    RecordTexts(h, p, source, reference);
    hide RecordOf, Identified, IsDigest, ApprovedSource;
    var r := RecordOf(p, source, reference);
    assert TEXT_FIELDS + {"workload", "details"} <= r.Keys;
    assert forall f :: f in TEXT_FIELDS ==> NonemptyText(r[f]);
  }

  /** The contract applies to the requested workload. */
  predicate Applicable(h: Host, contract: Fields, workload: Fields): (ok: bool)
    ensures ok ==> Get(contract, "constraints").Obj?
  {
    CompleteContract(h, contract) && ContractFault(h, contract, workload).None?
  }

  /** What the contract says about the signed behaviour. */
  function ContractVerdict(h: Host, p: Payload, workload: Fields): Verdict {
    if !Applicable(h, p.contract, workload) then Unknown
    else
      match Assess(h, p.behavior, p.details, Get(p.contract, "constraints").fields)
      case Violating => Violation
      case Conforming => if p.complete then Compliance else Unknown
      case NotAssessable => Unknown
  }

  lemma OneRecord(h: Host, q: Question, c: Fields, r: Fields)
    requires q.contract == Some(c) && Applicable(h, c, q.workload) && ReadObservation(h, r).Some?
    requires var o := ReadObservation(h, r).value;
      && o.runId == q.runId && o.scenarioId == q.scenarioId
      && Str(o.imageDigest) == Get(q.workload, "image_digest") == Get(o.workload, "image_digest")
      && WorkloadMatches(q.workload, o.workload)
    ensures Classify(h, q, [r]).verdict == VerdictOf(h, Get(c, "constraints").fields, [r], q.complete)
  {
    hide CompleteContract, ReadObservation, VerdictOf, LabelsSatisfied, WorkloadMatches, Classify;
    assert Admissible(h, q, Get(c, "image_digest"), [r]);
    ClassifiedVerdict(h, q, c, [r]);
  }

  lemma OneRecordVerdict(h: Host, constraints: Fields, r: Fields, complete: bool)
    ensures VerdictOf(h, constraints, [r], complete) ==
      match AssessmentOf(h, constraints, r)
      case Violating => Violation
      case Conforming => if complete then Compliance else Unknown
      case NotAssessable => Unknown
  {
    hide AssessmentOf;
    assert r in [r];
  }

  lemma NotApplicableAbstains(h: Host, q: Question, c: Fields, records: seq<Fields>)
    requires q.contract == Some(c) && !Applicable(h, c, q.workload)
    ensures Classify(h, q, records).verdict == Unknown
  {
    hide CompleteContract, ContractFault, FirstFault, Decide;
  }

  /** The classifier, on the one record of a verified observation, computes the contract verdict. */
  lemma ClassifiedIsContractVerdict(h: Host, v: Verified, req: Request, assessedAt: string)
    requires v.payload.Valid(h) && ApprovedSource(v.key.sourceType) && ForRequest(req, v.payload)
    requires v.payload.references != []
    ensures Classified(h, v, req, assessedAt).verdict == ContractVerdict(h, v.payload, req.workload)
  {
    hide RecordOf, Assess, Applicable, ReadObservation, Identified, IsDigest, Classify, WorkloadMatches, ApprovedSource,
         VerdictOf;
    var p, q := v.payload, QuestionFor(req, v.payload, assessedAt);
    var r := RecordOf(p, v.key.sourceType, p.references[0]);
    if Applicable(h, p.contract, req.workload) {
      RecordIsReadable(h, p, v.key.sourceType, p.references[0]);
      OneRecord(h, q, p.contract, r);
      OneRecordVerdict(h, Get(p.contract, "constraints").fields, r, q.complete);
    } else {
      NotApplicableAbstains(h, q, p.contract, [r]);
    }
  }

  // ---------- When a verdict is confirmed ----------

  /** Everything that must hold for `verdict` to be confirmed. */
  predicate Confirmable(h: Host, envelope: Json, trust: TrustSet, req: Request, now: Datetime, w: Window,
      verdict: Verdict)
    requires h.Lawful()
  {
    && Authentic(h, envelope, trust)
    && var p := PayloadOf(h, envelope, trust);
    && h.parseTime(p.observedAt).Some? && now.Aware() && Fresh(now, p.Time(h), w)
    && ForRequest(req, p)
    && KeyOf(h, envelope, trust).independent
    && p.references != []
    && VerifyNested(h, p.contract, trust) == Ok(true)
    && p.state == StateText(verdict)
    && ContractVerdict(h, p, req.workload) == verdict
  }

  lemma IncompleteIsNotCompliance(h: Host, p: Payload, workload: Fields)
    requires p.state == "conforming" && !p.complete
    ensures StateText(ContractVerdict(h, p, workload)) != p.state
  {
    hide Applicable, Assess;
  }

  /** A verdict other than `unknown` is the contract's, and only when the signed state is the same. */
  lemma JudgedVerdict(h: Host, v: Verified, req: Request, assessedAt: string)
    requires v.payload.Valid(h) && ApprovedSource(v.key.sourceType) && ForRequest(req, v.payload)
    ensures var c := ContractVerdict(h, v.payload, req.workload);
      JudgeVerified(h, v, req, assessedAt).verdict ==
        if v.key.independent && v.payload.references != [] && v.contractVerified && v.payload.state == StateText(c)
        then c else Unknown
  {
    hide Classified, Endorse, AbstainSigned, Insufficiency, StateText, ContractVerdict, Identified, IsDigest,
         WorkloadMatches, ApprovedSource;
    if v.payload.state == "conforming" && !v.payload.complete { IncompleteIsNotCompliance(h, v.payload, req.workload); }
    if v.payload.references != [] { ClassifiedIsContractVerdict(h, v, req, assessedAt); }
  }

  /** A verdict is confirmed exactly when the envelope is authentic and fresh, signed by an
      unrevoked independent key for the requested identity, with references and an attested
      snapshot, and the recomputed contract verdict is the signed one. */
  lemma ConfirmedExactlyWhen(h: Host, envelope: Json, trust: TrustSet, req: Request, now: Datetime, w: Window,
                             assessedAt: string, verdict: Verdict)
    requires h.Lawful() && verdict != Unknown
    ensures (var e := Evaluate(h, envelope, trust, req, now, w, assessedAt); e.Ok? && e.value.result.verdict == verdict)
       <==> Confirmable(h, envelope, trust, req, now, w, verdict)
  {
    hide Authentic, VerifyNested, JudgeVerified, ForRequest, ContractVerdict, VerifySignedObservation, PayloadOf, KeyOf;
    VerifiedExactlyWhen(h, envelope, trust, now, w);
    if VerifySignedObservation(h, envelope, trust, now, w).Ok? {
      var v := VerifySignedObservation(h, envelope, trust, now, w).value;
      KeyIsApproved(h, envelope, trust);
      if ForRequest(req, v.payload) { JudgedVerdict(h, v, req, assessedAt); }
      StateTextInjective(verdict, ContractVerdict(h, v.payload, req.workload));
    }
  }

  lemma StateTextInjective(a: Verdict, b: Verdict)
    ensures StateText(a) == StateText(b) ==> a == b
  {}

  lemma KeyIsApproved(h: Host, envelope: Json, trust: TrustSet)
    requires Authentic(h, envelope, trust)
    ensures ApprovedSource(KeyOf(h, envelope, trust).sourceType)
  {}

  lemma ClassifiedIgnoresClock(h: Host, v: Verified, req: Request, a: string, b: string)
    requires v.payload.references != []
    ensures Classified(h, v, req, a).(assessedAt := []) == Classified(h, v, req, b).(assessedAt := [])
  {
    hide Classify, RecordOf;
    ClockIsOnlyRecorded(h, QuestionFor(req, v.payload, a), b,
      [RecordOf(v.payload, v.key.sourceType, v.payload.references[0])]);
  }

  lemma JudgementIgnoresClock(h: Host, v: Verified, req: Request, a: string, b: string)
    ensures JudgeVerified(h, v, req, a).(assessedAt := []) == JudgeVerified(h, v, req, b).(assessedAt := [])
  {
    hide Classified, Sorted, StateText, IndependenceText;
    if v.payload.references != [] { ClassifiedIgnoresClock(h, v, req, a, b); }
  }
}
