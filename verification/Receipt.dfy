/** Receipts: what a stored receipt must look like, how one is built from an evaluated
    observation, and the two identities the store derives from it. */
module Receipt {
  import opened Wrappers
  import opened Strings
  import opened Json
  import opened Host
  import opened Contract
  import opened Trust
  import opened SignedObservation
  import opened Classification
  import opened Evaluation

  // ---------- validate_receipt ----------

  const ALLOWED_FIELDS := {
    "schema_version", "receipt_id", "run_id", "scenario_id", "event_id", "created_at", "workload",
    "oracle_result", "evidence_references", "processing_outcome", "provenance", "oracle_observation",
    "oracle_verification"}
  const REQUIRED_FIELDS := {
    "schema_version", "run_id", "scenario_id", "created_at", "workload", "oracle_result",
    "evidence_references", "processing_outcome", "provenance"}
  const ORACLE_FIELDS := {
    "contract_id", "contract_version", "workload", "expected_state", "observed_state", "outcome",
    "assessed_at", "evidence_references", "reasons", "independence_basis"}

  /** Python truth value. */
  predicate Truthy(j: Json) {
    match j
    case Null => false
    case Bool(b) => b
    case Int(n) => n != 0
    case Float(t) => t != "0.0" && t != "-0.0"
    case Str(s) => s != []
    case Arr(items) => items != []
    case Obj(fields) => fields != map[]
  }

  predicate AwareTimestamp(h: Host, j: Json) {
    j.Str? && h.parseTime(j.s).Some? && h.parseTime(j.s).value.Aware()
  }

  predicate UuidOrNull(h: Host, j: Json) { j == Null || Uuid(h, j).Some? }

  function CanonicalOrNull(h: Host, j: Json): Json
    requires UuidOrNull(h, j)
  {
    if j == Null then Null else Str(Uuid(h, j).value)
  }

  predicate OutcomeMatchesState(outcome: Json, state: Json) {
    exists v: Verdict :: outcome == Str(OutcomeText(v)) && state == Str(StateText(v))
  }

  /** No unsupported field, no required one missing. */
  predicate KnownFields(value: Fields) { value.Keys <= ALLOWED_FIELDS && REQUIRED_FIELDS <= value.Keys }
  predicate HasOracleFields(oracle: Fields) { ORACLE_FIELDS <= oracle.Keys }

  /** The fields of `oracle_result` that are looked at, `None` for an absent one. */
  datatype OracleParts = OracleParts(
    runId: Json, scenarioId: Json, contractId: Json, contractVersion: Json, workload: Json, expectedState: Json,
    observedState: Json, outcome: Json, assessedAt: Json, references: Json, reasons: Json, basis: Json)
  {
    predicate Valid(h: Host) {
      && OutcomeMatchesState(outcome, observedState)
      && TextList(references)
      && workload.Obj?
      && reasons.Arr? && reasons.items != []
      && basis.Arr?
      && (forall i :: 0 <= i < |basis.items| ==> basis.items[i].Str? && ApprovedSource(basis.items[i].s))
      && (Confirmed() ==> references.items != [] && basis.items != []
                          && contractId.Str? && contractVersion.Str? && expectedState == Str("conforming"))
      && AwareTimestamp(h, assessedAt)
    }
    predicate Confirmed() { outcome != Str("unknown") }
  }

  function OraclePartsOf(f: Fields): OracleParts {
    OracleParts(Get(f, "run_id"), Get(f, "scenario_id"), Get(f, "contract_id"), Get(f, "contract_version"),
                Get(f, "workload"), Get(f, "expected_state"), Get(f, "observed_state"), Get(f, "outcome"),
                Get(f, "assessed_at"), Get(f, "evidence_references"), Get(f, "reasons"), Get(f, "independence_basis"))
  }

  /** The fields of a receipt that are looked at. */
  datatype Parts = Parts(
    schema: Json, runId: Json, scenarioId: Json, processing: Json, eventId: Json, receiptId: Json, oracle: Json,
    references: Json, verification: Json, provenance: Json, workload: Json, createdAt: Json)
  {
    predicate Valid(h: Host) {
      && schema == Str("1.0")
      && NonblankText(runId) && NonblankText(scenarioId) && NonblankText(processing)
      && UuidOrNull(h, eventId) && UuidOrNull(h, receiptId)
      && oracle.Obj? && HasOracleFields(oracle.fields)
      && var o := OraclePartsOf(oracle.fields);
      && o.Valid(h) && o.runId == runId && o.scenarioId == scenarioId && references == o.references
      && (o.Confirmed() ==> ValidVerification(verification))
      && provenance.Obj? && workload.Obj?
      && AwareTimestamp(h, createdAt)
    }
  }

  function PartsOf(v: Fields): Parts {
    Parts(Get(v, "schema_version"), Get(v, "run_id"), Get(v, "scenario_id"), Get(v, "processing_outcome"),
          Get(v, "event_id"), Get(v, "receipt_id"), Get(v, "oracle_result"), Get(v, "evidence_references"),
          Get(v, "oracle_verification"), Get(v, "provenance"), Get(v, "workload"), Get(v, "created_at"))
  }

  /** A confirmed outcome needs a verified signature of a configured independent key. */
  predicate ValidVerification(verification: Json) {
    && verification.Obj?
    && Get(verification.fields, "authenticity_status") == Str("verified")
    && Get(verification.fields, "independence_status") == Str("configured_independent")
    && Truthy(Get(verification.fields, "key_id")) && Truthy(Get(verification.fields, "observation_id"))
  }

  predicate ValidReceipt(h: Host, value: Fields) {
    KnownFields(value) && PartsOf(value).Valid(h)
  }

  function Normalized(h: Host, value: Fields): Fields
    requires AwareTimestamp(h, Get(value, "created_at"))
    requires UuidOrNull(h, Get(value, "event_id")) && UuidOrNull(h, Get(value, "receipt_id"))
  {
    value["receipt_id" := CanonicalOrNull(h, Get(value, "receipt_id"))]
         ["event_id" := CanonicalOrNull(h, Get(value, "event_id"))]
         ["created_at" := Str(h.isoformat(h.parseTime(Get(value, "created_at").s).value))]
  }

  /** `validate_receipt`: the normalized receipt, None for a ValueError. */
  function ValidateReceipt(h: Host, value: Fields): Option<Fields> {
    if ValidReceipt(h, value) then Some(Normalized(h, value)) else None
  }

  lemma ReplacedFields(v: Fields, receiptId: Json, eventId: Json, createdAt: Json)
    ensures
      var n := v["receipt_id" := receiptId]["event_id" := eventId]["created_at" := createdAt];
      && n.Keys == v.Keys + {"receipt_id", "event_id", "created_at"}
      && (forall k :: k in v && k !in {"receipt_id", "event_id", "created_at"} ==> n[k] == v[k])
      && PartsOf(n) == PartsOf(v).(receiptId := receiptId, eventId := eventId, createdAt := createdAt)
  {}

  lemma NormalizedFields(h: Host, value: Fields)
    requires h.Lawful() && ValidReceipt(h, value)
    ensures var n, p := Normalized(h, value), PartsOf(value);
      && n.Keys == value.Keys + {"receipt_id", "event_id"} && KnownFields(n)
      && (forall k :: k in value && k !in {"receipt_id", "event_id", "created_at"} ==> n[k] == value[k])
      && PartsOf(n) == p.(receiptId := CanonicalOrNull(h, p.receiptId), eventId := CanonicalOrNull(h, p.eventId),
                          createdAt := Str(h.isoformat(h.parseTime(p.createdAt.s).value)))
  {
    ReplacedFields(value, CanonicalOrNull(h, PartsOf(value).receiptId), CanonicalOrNull(h, PartsOf(value).eventId),
      Str(h.isoformat(h.parseTime(PartsOf(value).createdAt.s).value)));
    NormalizedParts(value);
    assert "created_at" in value;
    hide ValidVerification, OraclePartsOf, OracleParts.Valid, PartsOf, Uuid, AwareTimestamp;
  }

  lemma CanonicalIsFixed(h: Host, j: Json)
    requires h.Lawful() && UuidOrNull(h, j)
    ensures UuidOrNull(h, CanonicalOrNull(h, j))
    ensures CanonicalOrNull(h, CanonicalOrNull(h, j)) == CanonicalOrNull(h, j)
  {}

  lemma WithReceiptId(value: Fields, id: Json)
    ensures PartsOf(value["receipt_id" := id]) == PartsOf(value).(receiptId := id)
    ensures KnownFields(value) ==> KnownFields(value["receipt_id" := id])
  {}

  lemma NormalizeAgain(h: Host, n: Fields)
    requires "created_at" in n && "receipt_id" in n && "event_id" in n
    requires AwareTimestamp(h, n["created_at"]) && UuidOrNull(h, n["event_id"]) && UuidOrNull(h, n["receipt_id"])
    requires CanonicalOrNull(h, n["event_id"]) == n["event_id"]
      && CanonicalOrNull(h, n["receipt_id"]) == n["receipt_id"]
    requires h.isoformat(h.parseTime(n["created_at"].s).value) == n["created_at"].s
    ensures Normalized(h, n) == n
  {}

  /** Replacing the receipt id by a canonical UUID or null keeps a normalized receipt valid and
      normalized. */
  lemma StaysValid(h: Host, value: Fields, id: Json)
    requires h.Lawful() && ValidReceipt(h, value)
    requires UuidOrNull(h, id) && CanonicalOrNull(h, id) == id
    ensures ValidateReceipt(h, Normalized(h, value)["receipt_id" := id]) ==
      Some(Normalized(h, value)["receipt_id" := id])
  {
    NormalizedFields(h, value);
    CanonicalIsFixed(h, Get(value, "event_id"));
    var m := Normalized(h, value);
    WithReceiptId(m, id);
    var n := m["receipt_id" := id];
    hide ValidVerification, OraclePartsOf, OracleParts.Valid, Normalized, Uuid, KnownFields, HasOracleFields;
    var p := PartsOf(value);
    assert p.Valid(h);
    assert h.parseTime(h.isoformat(h.parseTime(p.createdAt.s).value)) == h.parseTime(p.createdAt.s);
    assert PartsOf(n).Valid(h);
    hide PartsOf;
    NormalizedParts(n);
    NormalizeAgain(h, n);
  }

  lemma NormalizedParts(n: Fields)
    ensures PartsOf(n).createdAt == Get(n, "created_at") && PartsOf(n).eventId == Get(n, "event_id")
    ensures PartsOf(n).receiptId == Get(n, "receipt_id")
  {}

  /** Validation is idempotent. */
  lemma ValidationIsIdempotent(h: Host, value: Fields)
    requires h.Lawful() && ValidateReceipt(h, value).Some?
    ensures ValidateReceipt(h, ValidateReceipt(h, value).value) == ValidateReceipt(h, value)
  {
    CanonicalIsFixed(h, Get(value, "receipt_id"));
    var n := Normalized(h, value);
    NormalizedId(h, value);
    assert n["receipt_id" := n["receipt_id"]] == n;
    hide Host.Lawful, ValidReceipt, Normalized, UuidOrNull, CanonicalOrNull;
    StaysValid(h, value, n["receipt_id"]);
  }

  lemma NormalizedId(h: Host, value: Fields)
    requires ValidReceipt(h, value)
    ensures "receipt_id" in Normalized(h, value)
    ensures Normalized(h, value)["receipt_id"] == CanonicalOrNull(h, Get(value, "receipt_id"))
    ensures UuidOrNull(h, Get(value, "receipt_id"))
  {
    hide ValidVerification, OraclePartsOf, OracleParts.Valid, Uuid, AwareTimestamp;
  }

  // ---------- Building receipts ----------

  /** `OracleResult.to_dict`, with the given assessment time. */
  function OracleRecord(r: OracleResult, assessedAt: string): Fields {
    map["run_id" := Str(r.runId), "scenario_id" := Str(r.scenarioId), "contract_id" := r.contractId,
        "contract_version" := r.contractVersion, "workload" := Obj(r.workload),
        "expected_state" := Str(r.expectedState), "observed_state" := Str(StateText(r.verdict)),
        "outcome" := Str(OutcomeText(r.verdict)), "assessed_at" := Str(assessedAt),
        "evidence_references" := Arr(Strs(r.evidenceReferences)), "reasons" := Arr([Str(ReasonText(r.reason))]),
        "independence_basis" := Arr(Strs(r.independenceBasis)), "authenticity_status" := Str(r.authenticity),
        "independence_status" := Str(r.independence), "observation_ids" := Arr(Strs(r.observationIds)),
        "signature_key_ids" := Arr(Strs(r.signatureKeyIds))]
  }

  /** What a submitter adds to an assessment. */
  datatype Submission = Submission(request: Request, processingOutcome: string, provenance: Fields)

  /** `receipt_for_run` */
  function ReceiptForRun(s: Submission, oracle: Fields, references: seq<string>, eventId: Json,
      createdAt: string): Fields {
    map["schema_version" := Str("1.0"), "receipt_id" := Null, "run_id" := Str(s.request.runId),
        "scenario_id" := Str(s.request.scenarioId), "event_id" := eventId, "created_at" := Str(createdAt),
        "workload" := Obj(s.request.workload), "oracle_result" := Obj(oracle),
        "evidence_references" := Arr(Strs(references)),
        "processing_outcome" := Str(s.processingOutcome), "provenance" := Obj(s.provenance)]
  }

  function VerificationRecord(e: Evaluation): Fields {
    map["authenticity_status" := Str(e.result.authenticity), "independence_status" := Str(e.result.independence),
        "key_id" := Str(e.verified.key.keyId), "observation_id" := Str(e.verified.payload.observationId),
        "source_id" := Str(e.verified.key.sourceId), "source_type" := Str(e.verified.key.sourceType),
        "payload_sha256" := Str(e.verified.payloadSha256), "signature_sha256" := Str(e.verified.signatureSha256)]
  }

  /** The receipt of a signed observation; both timestamps are the signed one, so that a retry is
      built from the same bytes. */
  function SignedReceipt(s: Submission, envelope: Json, e: Evaluation): Fields {
    var p := e.verified.payload;
    ReceiptForRun(s, OracleRecord(e.result, p.observedAt), e.result.evidenceReferences, Str(p.eventId), p.observedAt)
      ["oracle_observation" := envelope]["oracle_verification" := Obj(VerificationRecord(e))]
  }

  /** The receipt of an attempt without signed evidence. */
  function UnsignedReceipt(s: Submission, eventId: Json, assessedAt: string, createdAt: string): Fields {
    var q := Question(s.request.runId, s.request.scenarioId, None, s.request.workload, false, assessedAt);
    var r := Abstain(q, NothingSigned, Null, Null);
    ReceiptForRun(s, OracleRecord(r, assessedAt), r.evidenceReferences, eventId, createdAt)
  }

  lemma OracleIdentity(r: OracleResult, at: string)
    ensures var f := OracleRecord(r, at);
      && Get(f, "run_id") == Str(r.runId) && Get(f, "scenario_id") == Str(r.scenarioId)
      && Get(f, "contract_id") == r.contractId && Get(f, "contract_version") == r.contractVersion
      && Get(f, "workload") == Obj(r.workload) && Get(f, "assessed_at") == Str(at)
  {
    hide StateText, OutcomeText, ReasonText, Strs;
  }

  lemma OracleFindings(r: OracleResult, at: string)
    ensures var f := OracleRecord(r, at);
      && Get(f, "expected_state") == Str(r.expectedState) && Get(f, "observed_state") == Str(StateText(r.verdict))
      && Get(f, "outcome") == Str(OutcomeText(r.verdict))
        && Get(f, "evidence_references") == Arr(Strs(r.evidenceReferences))
      && Get(f, "reasons") == Arr([Str(ReasonText(r.reason))])
        && Get(f, "independence_basis") == Arr(Strs(r.independenceBasis))
  {
    hide StateText, OutcomeText, ReasonText, Strs;
  }

  lemma OracleKeys(r: OracleResult, at: string)
    ensures HasOracleFields(OracleRecord(r, at))
  {
    hide StateText, OutcomeText, ReasonText, Strs;
  }

  lemma OracleRecordParts(r: OracleResult, at: string)
    ensures HasOracleFields(OracleRecord(r, at))
    ensures OraclePartsOf(OracleRecord(r, at)) ==
      OracleParts(Str(r.runId), Str(r.scenarioId), r.contractId, r.contractVersion, Obj(r.workload),
        Str(r.expectedState),
                  Str(StateText(r.verdict)), Str(OutcomeText(r.verdict)), Str(at), Arr(Strs(r.evidenceReferences)),
                  Arr([Str(ReasonText(r.reason))]), Arr(Strs(r.independenceBasis)))
  {
    hide StateText, OutcomeText, ReasonText, Strs, OracleRecord, HasOracleFields;
    OracleKeys(r, at);
    OracleIdentity(r, at);
    OracleFindings(r, at);
  }

  lemma ReceiptParts(s: Submission, oracle: Fields, references: seq<string>, eventId: Json, createdAt: string)
    ensures var f := ReceiptForRun(s, oracle, references, eventId, createdAt);
      && KnownFields(f) && "oracle_observation" !in f && "oracle_verification" !in f
      && PartsOf(f) == Parts(Str("1.0"), Str(s.request.runId), Str(s.request.scenarioId), Str(s.processingOutcome),
                             eventId, Null, Obj(oracle), Arr(Strs(references)), Null, Obj(s.provenance),
                             Obj(s.request.workload), Str(createdAt))
  {
    hide Strs;
  }

  lemma VerificationFields(e: Evaluation)
    ensures var f := VerificationRecord(e);
      && Get(f, "authenticity_status") == Str(e.result.authenticity)
      && Get(f, "independence_status") == Str(e.result.independence)
      && Get(f, "key_id") == Str(e.verified.key.keyId)
        && Get(f, "observation_id") == Str(e.verified.payload.observationId)
      && Get(f, "payload_sha256") == Str(e.verified.payloadSha256)
      && Get(f, "signature_sha256") == Str(e.verified.signatureSha256)
  {}

  // ---------- Nothing accepted is refused later ----------

  /** What an evaluated result always satisfies. */
  predicate SoundResult(r: OracleResult) {
    && (forall x :: x in r.evidenceReferences ==> x != [])
    && (forall x :: x in r.independenceBasis ==> ApprovedSource(x))
    && (r.verdict != Unknown ==>
          && r.evidenceReferences != [] && r.independenceBasis != []
          && r.contractId.Str? && r.contractVersion.Str? && r.expectedState == "conforming"
          && r.authenticity == "verified" && r.independence == "configured_independent")
  }

  lemma SoundReferences(h: Host, q: Question, c: Fields, records: seq<Fields>, x: string)
    requires CompleteContract(h, c) && forall r :: r in records ==> ReadObservation(h, r).Some?
    requires x in Decide(h, q, c, records).evidenceReferences
    ensures x != []
  {
    hide CompleteContract, ReadObservation, VerdictOf, EvidenceReference, SourceOf, Sorted;
    ContractTexts(h, c);
    assert x in {Get(c, "verification_reference").s} + set r | r in records :: EvidenceReference(h, r);
    if x != Get(c, "verification_reference").s {
      var r :| r in records && EvidenceReference(h, r) == x;
      ReadableTexts(h, r);
    }
  }

  lemma SoundBasis(h: Host, q: Question, c: Fields, records: seq<Fields>, x: string)
    requires CompleteContract(h, c) && forall r :: r in records ==> ReadObservation(h, r).Some?
    requires x in Decide(h, q, c, records).independenceBasis
    ensures ApprovedSource(x)
  {
    hide CompleteContract, ReadObservation, VerdictOf, EvidenceReference, SourceOf, Sorted, ApprovedSource;
    RegistryApproved();
    assert x in {REGISTRY} + set r | r in records :: SourceOf(h, r);
    if x != REGISTRY {
      var r :| r in records && SourceOf(h, r) == x;
      ReadableTexts(h, r);
    }
  }

  lemma SoundDecision(h: Host, q: Question, c: Fields, records: seq<Fields>)
    requires CompleteContract(h, c)
    requires forall r :: r in records ==> ReadObservation(h, r).Some?
    ensures var d := Decide(h, q, c, records);
      && (forall x :: x in d.evidenceReferences ==> x != [])
      && (forall x :: x in d.independenceBasis ==> ApprovedSource(x))
      && d.contractId.Str? && d.contractVersion.Str? && d.expectedState == "conforming"
  {
    DecisionNamesContract(h, q, c, records);
    hide CompleteContract, ReadObservation, Decide, ApprovedSource;
    var d := Decide(h, q, c, records);
    forall x | x in d.evidenceReferences ensures x != [] { SoundReferences(h, q, c, records, x); }
    forall x | x in d.independenceBasis ensures ApprovedSource(x) { SoundBasis(h, q, c, records, x); }
  }

  lemma DecisionNamesContract(h: Host, q: Question, c: Fields, records: seq<Fields>)
    requires CompleteContract(h, c)
    ensures var d := Decide(h, q, c, records);
      d.contractId.Str? && d.contractVersion.Str? && d.expectedState == "conforming"
  {
    ContractTexts(h, c);
    hide CompleteContract, VerdictOf, Sorted;
  }

  lemma DecisionRepeatsQuestion(h: Host, q: Question, c: Fields, records: seq<Fields>)
    requires CompleteContract(h, c)
    ensures var d := Decide(h, q, c, records);
      d.runId == q.runId && d.scenarioId == q.scenarioId && d.workload == q.workload
  {
    hide CompleteContract, VerdictOf, Sorted;
  }

  lemma RegistryApproved()
    ensures ApprovedSource(REGISTRY)
  {}

  lemma SoundClassification(h: Host, q: Question, records: seq<Fields>)
    requires forall r :: r in records ==> ReadObservation(h, r).Some?
    ensures var c := Classify(h, q, records);
      && c.runId == q.runId && c.scenarioId == q.scenarioId && c.workload == q.workload
      && (forall x :: x in c.evidenceReferences ==> x != [])
      && (forall x :: x in c.independenceBasis ==> ApprovedSource(x))
      && (c.verdict != Unknown ==> c.contractId.Str? && c.contractVersion.Str? && c.expectedState == "conforming")
  {
    hide CompleteContract, ContractFault, FirstFault, ReadObservation, ApprovedSource, Decide;
    if q.contract.Some? && CompleteContract(h, q.contract.value) {
      var c := q.contract.value;
      SoundDecision(h, q, c, records);
      DecisionRepeatsQuestion(h, q, c, records);
    }
  }

  lemma ContractTexts(h: Host, c: Fields)
    requires CompleteContract(h, c)
    ensures Get(c, "contract_id").Str? && Get(c, "contract_version").Str? && Get(c, "verification_reference").s != []
  {
    hide ValidConstraints, IsDigest;
  }

  lemma ReadableTexts(h: Host, raw: Fields)
    requires ReadObservation(h, raw).Some?
    ensures EvidenceReference(h, raw) != [] && ApprovedSource(SourceOf(h, raw))
  {
    assert "evidence_reference" in TEXT_FIELDS;
  }

  /** Every accepted evaluation has a sound result about the request it was asked for. */
  lemma EvaluationIsSound(h: Host, envelope: Json, trust: TrustSet, req: Request, now: Datetime, w: Window, at: string)
    requires h.Lawful() && Evaluate(h, envelope, trust, req, now, w, at).Ok?
    ensures var e := Evaluate(h, envelope, trust, req, now, w, at).value;
      && SoundResult(e.result)
      && e.result.runId == req.runId && e.result.scenarioId == req.scenarioId && e.result.workload == req.workload
      && e.verified.payload.Valid(h)
  {
    VerifiedExactlyWhen(h, envelope, trust, now, w);
    KeyIsApproved(h, envelope, trust);
    var v := VerifySignedObservation(h, envelope, trust, now, w).value;
    hide VerifySignedObservation, Authentic;
    JudgementIsSound(h, v, req, at);
  }

  lemma JudgementIsSound(h: Host, v: Verified, req: Request, at: string)
    requires v.payload.Valid(h) && ApprovedSource(v.key.sourceType) && ForRequest(req, v.payload)
    ensures var r := JudgeVerified(h, v, req, at);
      SoundResult(r) && r.runId == req.runId && r.scenarioId == req.scenarioId && r.workload == req.workload
  {
    hide Identified, IsDigest, RecordOf, Classify, ApprovedSource, WorkloadMatches, Endorse, StateText;
    if !Insufficient(v) {
      var p := v.payload;
      RecordIsReadable(h, p, v.key.sourceType, p.references[0]);
      SoundClassification(h, QuestionFor(req, p, at), [RecordOf(p, v.key.sourceType, p.references[0])]);
      EndorsementIsSound(Classified(h, v, req, at), v);
    }
  }

  lemma EndorsementIsSound(c: OracleResult, v: Verified)
    requires forall x :: x in c.evidenceReferences ==> x != []
    requires forall x :: x in c.independenceBasis ==> ApprovedSource(x)
    requires c.verdict != Unknown ==> c.contractId.Str? && c.contractVersion.Str? && c.expectedState == "conforming"
    requires v.payload.references != []
      && (forall i :: 0 <= i < |v.payload.references| ==> v.payload.references[i] != [])
    requires ApprovedSource(v.key.sourceType)
    ensures SoundResult(Endorse(c, v))
    ensures Endorse(c, v).runId == c.runId && Endorse(c, v).scenarioId == c.scenarioId
      && Endorse(c, v).workload == c.workload
  {
    hide Sorted, ApprovedSource;
    var refs := (set r | r in c.evidenceReferences) + (set r | r in v.payload.references);
    assert v.payload.references[0] in refs;
    assert v.payload.references[0] in Sorted(refs);
    assert v.key.sourceType in Sorted((set s | s in c.independenceBasis) + {v.key.sourceType});
  }

  /** The oracle part of a receipt built from a sound result always passes. */
  lemma SoundOracleIsValid(h: Host, r: OracleResult, at: string)
    requires SoundResult(r) && AwareTimestamp(h, Str(at))
    ensures OraclePartsOf(OracleRecord(r, at)).Valid(h)
    ensures OraclePartsOf(OracleRecord(r, at)).Confirmed() <==> r.verdict != Unknown
  {
    OracleRecordParts(r, at);
    hide OracleRecord, ReasonText, ApprovedSource, OraclePartsOf;
    assert TextList(Arr(Strs(r.evidenceReferences))) by {
      assert forall i :: 0 <= i < |r.evidenceReferences| ==> r.evidenceReferences[i] in r.evidenceReferences;
    }
    assert OutcomeMatchesState(Str(OutcomeText(r.verdict)), Str(StateText(r.verdict)));
    assert forall i :: 0 <= i < |r.independenceBasis| ==> r.independenceBasis[i] in r.independenceBasis;
    OutcomeIsUnknown(r.verdict);
  }

  lemma OutcomeIsUnknown(v: Verdict)
    ensures OutcomeText(v) == "unknown" <==> v == Unknown
  {}

  lemma SignedReceiptParts(s: Submission, envelope: Json, e: Evaluation)
    ensures var f, p := SignedReceipt(s, envelope, e), e.verified.payload;
      && KnownFields(f) && Get(f, "oracle_observation") == envelope
      && PartsOf(f) == Parts(Str("1.0"), Str(s.request.runId), Str(s.request.scenarioId), Str(s.processingOutcome),
                             Str(p.eventId), Null, Obj(OracleRecord(e.result, p.observedAt)),
                             Arr(Strs(e.result.evidenceReferences)), Obj(VerificationRecord(e)), Obj(s.provenance),
                             Obj(s.request.workload), Str(p.observedAt))
  {
    var p := e.verified.payload;
    ReceiptParts(s, OracleRecord(e.result, p.observedAt), e.result.evidenceReferences, Str(p.eventId), p.observedAt);
    hide ReceiptForRun, OracleRecord, VerificationRecord, Strs;
  }

  /** Once everything else is in order, validity is down to three texts and the event id. */
  lemma PartsAcceptable(h: Host, p: Parts)
    requires p.schema == Str("1.0") && p.receiptId == Null && p.oracle.Obj? && p.provenance.Obj? && p.workload.Obj?
    requires HasOracleFields(p.oracle.fields) && AwareTimestamp(h, p.createdAt)
    requires var o := OraclePartsOf(p.oracle.fields);
      && o.Valid(h) && o.runId == p.runId && o.scenarioId == p.scenarioId && o.references == p.references
      && (o.Confirmed() ==> ValidVerification(p.verification))
    ensures p.Valid(h) <==>
      NonblankText(p.runId) && NonblankText(p.scenarioId) && NonblankText(p.processing) && UuidOrNull(h, p.eventId)
  {
    hide HasOracleFields, OraclePartsOf, OracleParts.Valid, OracleParts.Confirmed, ValidVerification, Uuid;
  }

  /** The receipt of an accepted observation passes validation exactly when the three texts the
      verifier does not look at closely are not blank. */
  lemma AcceptedReceiptIsValid(h: Host, s: Submission, envelope: Json, e: Evaluation)
    requires h.Lawful() && SoundResult(e.result) && e.verified.payload.Valid(h) && e.verified.key.keyId != []
    requires e.result.runId == s.request.runId && e.result.scenarioId == s.request.scenarioId
    ensures ValidateReceipt(h, SignedReceipt(s, envelope, e)).Some? <==>
      !Blank(s.request.runId) && !Blank(s.request.scenarioId) && !Blank(s.processingOutcome)
  {
    hide OracleRecord, SignedReceipt, VerificationRecord, KnownFields, HasOracleFields, OraclePartsOf, PartsOf,
         Parts.Valid, OracleParts.Valid, OracleParts.Confirmed, Normalized, Identified, IsDigest, ApprovedSource,
         OutcomeText, StateText, ReasonText, ValidVerification, Blank;
    var p := e.verified.payload;
    SoundOracleIsValid(h, e.result, p.observedAt);
    OracleRecordParts(e.result, p.observedAt);
    SignedReceiptParts(s, envelope, e);
    ConfirmedVerification(e);
    PartsAcceptable(h, PartsOf(SignedReceipt(s, envelope, e)));
  }

  /** Nothing the evaluator accepts is refused by the store, except for a blank run id, scenario id or
      processing outcome. */
  lemma EvaluatedReceiptIsValid(h: Host, s: Submission, envelope: Json, trust: TrustSet, now: Datetime, w: Window,
      at: string)
    requires h.Lawful() && trust.Valid() && Evaluate(h, envelope, trust, s.request, now, w, at).Ok?
    ensures var e := Evaluate(h, envelope, trust, s.request, now, w, at).value;
      ValidateReceipt(h, SignedReceipt(s, envelope, e)).Some? <==>
        !Blank(s.request.runId) && !Blank(s.request.scenarioId) && !Blank(s.processingOutcome)
  {
    hide Evaluate, ValidateReceipt, SignedReceipt, SoundResult, Blank;
    EvaluationIsSound(h, envelope, trust, s.request, now, w, at);
    EvaluatedPayloadIsValid(h, envelope, trust, s.request, now, w, at);
    AcceptedReceiptIsValid(h, s, envelope, Evaluate(h, envelope, trust, s.request, now, w, at).value);
  }

  lemma EvaluatedPayloadIsValid(h: Host, envelope: Json, trust: TrustSet, req: Request, now: Datetime, w: Window,
      at: string)
    requires h.Lawful() && trust.Valid() && Evaluate(h, envelope, trust, req, now, w, at).Ok?
    ensures var v := Evaluate(h, envelope, trust, req, now, w, at).value.verified;
      v.payload.Valid(h) && v.key.keyId != []
  {
    hide JudgeVerified, ForRequest, VerifySignedObservation, ReadPayload, Signed, Payload.Valid;
    VerifiedExactlyWhen(h, envelope, trust, now, w);
  }

  lemma ConfirmedVerification(e: Evaluation)
    requires SoundResult(e.result) && e.verified.key.keyId != [] && e.verified.payload.observationId != []
    ensures e.result.verdict != Unknown ==> ValidVerification(Obj(VerificationRecord(e)))
  {
    VerificationFields(e);
    hide VerificationRecord, ApprovedSource;
  }

  /** An unsigned attempt is stored exactly when its texts are not blank and its event id, if any,
      is a UUID; it is never more than `unknown`. */
  lemma UnsignedReceiptIsValid(h: Host, s: Submission, eventId: Json, at: string, createdAt: string)
    requires h.Lawful() && AwareTimestamp(h, Str(at)) && AwareTimestamp(h, Str(createdAt))
    ensures ValidateReceipt(h, UnsignedReceipt(s, eventId, at, createdAt)).Some? <==>
      !Blank(s.request.runId) && !Blank(s.request.scenarioId) && !Blank(s.processingOutcome) && UuidOrNull(h, eventId)
    ensures var o := PartsOf(UnsignedReceipt(s, eventId, at, createdAt)).oracle;
      o.Obj? && !OraclePartsOf(o.fields).Confirmed()
  {
    hide OracleRecord, ReceiptForRun, KnownFields, HasOracleFields, OraclePartsOf, PartsOf, Parts.Valid,
         OracleParts.Valid, OracleParts.Confirmed, Normalized, Uuid, ValidVerification, OutcomeText, StateText,
         ReasonText, Blank;
    var q := Question(s.request.runId, s.request.scenarioId, None, s.request.workload, false, at);
    var r := Abstain(q, NothingSigned, Null, Null);
    SoundOracleIsValid(h, r, at);
    OracleRecordParts(r, at);
    ReceiptParts(s, OracleRecord(r, at), r.evidenceReferences, eventId, createdAt);
    PartsAcceptable(h, PartsOf(UnsignedReceipt(s, eventId, at, createdAt)));
  }

  // ---------- Identities ----------

  /** The logical evidence item a receipt stands for. */
  function Identity(payload: Fields): Fields {
    map["run_id" := Get(payload, "run_id"), "scenario_id" := Get(payload, "scenario_id"),
      "event_id" := Get(payload, "event_id")]
  }

  /** `_key` */
  function IdempotencyKey(h: Host, payload: Fields): string { h.CanonicalSha256(Obj(Identity(payload))) }

  lemma KeyIdentifies(h: Host, a: Fields, b: Fields)
    requires h.Lawful()
    ensures IdempotencyKey(h, a) == IdempotencyKey(h, b) <==>
      Get(a, "run_id") == Get(b, "run_id") && Get(a, "scenario_id") == Get(b, "scenario_id")
        && Get(a, "event_id") == Get(b, "event_id")
  {
    hide Encode;
    IdentityFields(a);
    IdentityFields(b);
    if IdempotencyKey(h, a) == IdempotencyKey(h, b) { EncodeInjective(Obj(Identity(a)), Obj(Identity(b))); }
  }

  lemma IdentityFields(a: Fields)
    ensures Get(Identity(a), "run_id") == Get(a, "run_id")
    ensures Get(Identity(a), "scenario_id") == Get(a, "scenario_id")
    ensures Get(Identity(a), "event_id") == Get(a, "event_id")
  {}

  /** Python `==` on JSON values equates a Boolean with the int of the same value, and a float with the
      int it is exactly equal to. */
  function Comparable(h: Host, j: Json): Json {
    match j
    case Bool(b) => Int(if b then 1 else 0)
    case Float(t) => if h.floatInteger(t).Some? then Int(h.floatInteger(t).value) else j
    case Arr(items) => Arr(seq(|items|, i requires 0 <= i < |items| => Comparable(h, items[i])))
    case Obj(fields) => Obj(map k | k in fields :: Comparable(h, fields[k]))
    case _ => j
  }

  /** `_retry_view`: the receipt without its creation and assessment times. */
  function RetryView(payload: Fields): Fields {
    var rest := payload - {"created_at"};
    if Get(rest, "oracle_result").Obj? then
      rest["oracle_result" := Obj(rest["oracle_result"].fields - {"assessed_at"})]
    else rest
  }

  predicate SameContent(h: Host, a: Fields, b: Fields) {
    Comparable(h, Obj(RetryView(a))) == Comparable(h, Obj(RetryView(b)))
  }

  lemma RetryViewKeeps(payload: Fields, k: string)
    requires k != "created_at" && k != "oracle_result"
    ensures Get(RetryView(payload), k) == Get(payload, k)
  {}

  lemma SameContentAt(h: Host, a: Fields, b: Fields, k: string)
    requires SameContent(h, a, b) && k != "created_at" && k != "oracle_result"
    ensures Comparable(h, Get(a, k)) == Comparable(h, Get(b, k))
  {
    RetryViewKeeps(a, k);
    RetryViewKeeps(b, k);
    var va, vb := RetryView(a), RetryView(b);
    hide RetryView;
    assert Comparable(h, Obj(va)).fields == Comparable(h, Obj(vb)).fields;
    assert k in va <==> k in Comparable(h, Obj(va)).fields;
    assert k in vb <==> k in Comparable(h, Obj(vb)).fields;
  }

  /** A retry with the same content names the same logical item. */
  lemma SameContentSameKey(h: Host, a: Fields, b: Fields)
    requires h.Lawful() && SameContent(h, a, b)
    requires Get(a, "run_id").Str? && Get(a, "scenario_id").Str?
      && (Get(a, "event_id").Str? || Get(a, "event_id").Null?)
    requires Get(b, "run_id").Str? && Get(b, "scenario_id").Str?
      && (Get(b, "event_id").Str? || Get(b, "event_id").Null?)
    ensures IdempotencyKey(h, a) == IdempotencyKey(h, b)
  {
    hide SameContent, IdempotencyKey;
    SameContentAt(h, a, b, "run_id");
    SameContentAt(h, a, b, "scenario_id");
    SameContentAt(h, a, b, "event_id");
    KeyIdentifies(h, a, b);
  }

  lemma WithProvenance(h: Host, f: Fields, p: Fields)
    requires ValidReceipt(h, f)
    ensures ValidReceipt(h, f["provenance" := Obj(p)])
  {
    var g := f["provenance" := Obj(p)];
    assert PartsOf(g) == PartsOf(f).(provenance := Obj(p));
    hide PartsOf, OraclePartsOf, OracleParts.Valid, ValidVerification, HasOracleFields, Uuid;
  }

  lemma ComparableUpdate(h: Host, m: Fields, k: string, v: Json)
    ensures Comparable(h, Obj(m[k := v])).fields == Comparable(h, Obj(m)).fields[k := Comparable(h, v)]
  {}

  lemma ProvenanceInView(f: Fields, p: Fields)
    ensures RetryView(f["provenance" := Obj(p)]) == RetryView(f)["provenance" := Obj(p)]
  {
    var g := f["provenance" := Obj(p)];
    assert g - {"created_at"} == (f - {"created_at"})["provenance" := Obj(p)];
    if Get(g - {"created_at"}, "oracle_result").Obj? {
      assert RetryView(g) == RetryView(f)["provenance" := Obj(p)];
    }
  }

  /** The comparison is coarser than equality: any two provenances equal up to Booleans and numbers make
      two valid receipts with the same content. */
  lemma EqualUpToNumbers(h: Host, f: Fields, p: Fields, q: Fields)
    requires ValidReceipt(h, f) && Comparable(h, Obj(p)) == Comparable(h, Obj(q))
    ensures
      var a, b := f["provenance" := Obj(p)], f["provenance" := Obj(q)];
      ValidReceipt(h, a) && ValidReceipt(h, b) && SameContent(h, a, b)
  {
    WithProvenance(h, f, p);
    WithProvenance(h, f, q);
    ProvenanceInView(f, p);
    ProvenanceInView(f, q);
    hide ValidReceipt, RetryView;
    ComparableUpdate(h, RetryView(f), "provenance", Obj(p));
    ComparableUpdate(h, RetryView(f), "provenance", Obj(q));
    hide Comparable;
    SameObjects(h, RetryView(f)["provenance" := Obj(p)], RetryView(f)["provenance" := Obj(q)]);
  }

  lemma SameObjects(h: Host, a: Fields, b: Fields)
    requires Comparable(h, Obj(a)).Obj? && Comparable(h, Obj(b)).Obj?
    requires Comparable(h, Obj(a)).fields == Comparable(h, Obj(b)).fields
    ensures Comparable(h, Obj(a)) == Comparable(h, Obj(b))
  {}

  lemma ComparableOne(h: Host, k: string, v: Json)
    ensures Comparable(h, Obj(map[k := v])) == Obj(map[k := Comparable(h, v)])
  {
    var c := Comparable(h, Obj(map[k := v]));
    assert c.fields == map[k := Comparable(h, v)];
  }

  /** In particular, a retry of a valid receipt that turned `true` into `1` is the same evidence. */
  lemma TrueAndOneAreTheSameContent(h: Host, f: Fields)
    requires ValidReceipt(h, f)
    ensures
      var a, b := f["provenance" := Obj(map["x" := Bool(true)])], f["provenance" := Obj(map["x" := Int(1)])];
      a != b && ValidReceipt(h, a) && ValidReceipt(h, b) && SameContent(h, a, b)
  {
    hide ValidReceipt, SameContent;
    var p, q := map["x" := Bool(true)], map["x" := Int(1)];
    ComparableOne(h, "x", Bool(true));
    ComparableOne(h, "x", Int(1));
    EqualUpToNumbers(h, f, p, q);
    assert p["x"] != q["x"];
    assert f["provenance" := Obj(p)]["provenance"] != f["provenance" := Obj(q)]["provenance"];
  }
}
