/** The sink service: restarts that load the trust file, submissions through a running process, and
    re-verification of stored receipts. Whole runs interleave any number of processes. */
module SinkRuntime {
  import opened Wrappers
  import opened Strings
  import opened Json
  import opened Host
  import opened Contract
  import opened Trust
  import opened TrustState
  import opened SignedObservation
  import opened Classification
  import opened Evaluation
  import opened Receipt
  import opened EvidenceStore
  import opened StoreInvariant

  // ---------- One process ----------

  /** `SinkRuntime.__init__`: the file is loaded, applied to the store, and the process keeps the
      store's revocations instead of the file's own. */
  function Boot(h: Host, row: Option<TrustRow>, raw: Json): Option<(TrustRow, TrustSet)> {
    if !AcceptableTrustFile(h, raw) then None
    else
      var t := TrustSetOf(h, raw);
      match Apply(row, t)
      case Err(_) => None
      case Ok(a) => Some((a.row, t.(revoked := a.revoked)))
  }

  /** `verify_receipt`: the receipt is evaluated again, with the clock set to the signed time. */
  function Reverify(h: Host, db: Db, receiptId: string, trust: TrustSet, assessedAt: string): Result<string, StoreError>
    requires h.Lawful()
  {
    match Lookup(h, db, receiptId)
    case Err(e) => Err(e)
    case Ok(receipt) =>
      var observation := Get(receipt, "oracle_observation");
      if observation == Null then Ok("unverified") else ReverifyObservation(h, receipt, observation, trust, assessedAt)
  }

  function SignedTime(h: Host, observation: Json): Option<Datetime> {
    if !observation.Obj? || !Get(observation.fields, "payload").Obj? then None
    else
      var at := Get(Get(observation.fields, "payload").fields, "observed_at");
      if at.Str? then h.parseTime(at.s) else None
  }

  function ReverifyObservation(h: Host, receipt: Fields, observation: Json, trust: TrustSet,
      assessedAt: string): Result<string, StoreError>
    requires h.Lawful()
  {
    if SignedTime(h, observation).None? || !Get(receipt, "run_id").Str? || !Get(receipt, "scenario_id").Str?
       || !Get(receipt, "workload").Obj? || !Get(receipt, "oracle_result").Obj?
         || !Get(receipt, "oracle_verification").Obj?
    then Err(IntegrityFailure)
    else
      var req := Request(Get(receipt, "run_id").s, Get(receipt, "scenario_id").s, Get(receipt, "workload").fields);
      match Evaluate(h, observation, trust, req, SignedTime(h, observation).value, DEFAULT_WINDOW, assessedAt)
      case Err(e) => Err(Refused(e))
      case Ok(e) => if MatchesRecord(receipt, e) then Ok("verified") else Err(IntegrityFailure)
  }

  /** The outcome and the verification metadata of the stored receipt are the recomputed ones. */
  predicate MatchesRecord(receipt: Fields, e: Evaluation)
    requires Get(receipt, "oracle_result").Obj? && Get(receipt, "oracle_verification").Obj?
  {
    var v := Get(receipt, "oracle_verification").fields;
    && Str(OutcomeText(e.result.verdict)) == Get(Get(receipt, "oracle_result").fields, "outcome")
    && Str(e.verified.payloadSha256) == Get(v, "payload_sha256")
    && Str(e.verified.signatureSha256) == Get(v, "signature_sha256")
    && Str(e.verified.key.keyId) == Get(v, "key_id")
    && Str(e.verified.payload.observationId) == Get(v, "observation_id")
  }

  function OptionalText(t: Option<string>): Json { if t.Some? then Str(t.value) else Null }

  /** What a request puts before the transaction. */
  function PrepareRequest(h: Host, s: Submission, observation: Option<Json>, eventId: Option<string>, trust: TrustSet,
                          now: Datetime, assessedAt: string, createdAt: string): Result<Prepared, StoreError>
    requires h.Lawful()
  {
    match observation
    case None => PrepareRaw(h, UnsignedReceipt(s, OptionalText(eventId), assessedAt, createdAt))
    case Some(envelope) => PrepareSigned(h, s, envelope, trust, eventId, now, assessedAt)
  }

  /** A running sink process. */
  class Service {
    const store: DurableEvidenceSink
    var trustedKeys: TrustSet

    constructor (s: DurableEvidenceSink, t: TrustSet)
      ensures store == s && trustedKeys == t
    {
      store, trustedKeys := s, t;
    }

    /** Starting a process over an existing database. */
    static method Start(h: Host, s: DurableEvidenceSink, raw: Json) returns (r: Option<Service>)
      modifies s`trust
      ensures match Boot(h, old(s.trust), raw)
        case None => r.None? && s.trust == old(s.trust)
        case Some(b) =>
          r.Some? && fresh(r.value) && s.trust == Some(b.0) && r.value.store == s && r.value.trustedKeys == b.1
    {
      var loaded := LoadTrustedOracleKeys(h, raw);
      if loaded.None? { return None; }
      var revoked := s.ApplyTrustConfiguration(loaded.value);
      if revoked.Err? { return None; }
      var service := new Service(s, loaded.value.(revoked := revoked.value));
      return Some(service);
    }

    /** POST /v1/receipts: a signed observation is evaluated; without one the attempt is recorded as
        unknown. */
    method SubmitReceipt(h: Host, s: Submission, observation: Option<Json>, eventId: Option<string>, now: Datetime,
                         assessedAt: string, createdAt: string)
      returns (r: Result<Fields, StoreError>)
      requires h.Lawful()
      modifies store`receipts, store`keyIndex, store`consumed
      ensures match PrepareRequest(h, s, observation, eventId, trustedKeys, now, assessedAt, createdAt)
        case Err(e) => r == Err(e) && store.Tables() == old(store.Tables())
        case Ok(p) => (store.Tables(), r) == Persist(h, old(store.Tables()), p)
    {
      hide PrepareSigned, PrepareRaw, UnsignedReceipt, Persist;
      if observation.None? {
        r := store.Submit(h, UnsignedReceipt(s, OptionalText(eventId), assessedAt, createdAt));
      } else {
        r := store.SubmitSignedObservation(h, s, observation.value, trustedKeys, eventId, now, assessedAt);
      }
    }

    /** GET /v1/receipts/{id}/verify */
    method VerifyReceipt(h: Host, receiptId: string, assessedAt: string) returns (r: Result<string, StoreError>)
      requires h.Lawful()
      ensures r == Reverify(h, store.Tables(), receiptId, trustedKeys, assessedAt)
    {
      hide ReverifyObservation, Lookup;
      var receipt := store.Fetch(h, receiptId);
      if receipt.Err? { return Err(receipt.error); }
      var observation := Get(receipt.value, "oracle_observation");
      if observation == Null { return Ok("unverified"); }
      return ReverifyObservation(h, receipt.value, observation, trustedKeys, assessedAt);
    }
  }

  // ---------- What a signed preparation cannot contain ----------

  /** The contract snapshot of the observation a receipt carries. */
  function StoredContract(f: Fields): Fields {
    var o := Get(f, "oracle_observation");
    if !o.Obj? || !Get(o.fields, "payload").Obj? then map[]
    else
      var c := Get(Get(o.fields, "payload").fields, "contract_snapshot");
      if c.Obj? then c.fields else map[]
  }

  /** The key that attested the contract of a receipt. */
  function AttestedBy(f: Fields): Json { RegistryKeyId(StoredContract(f)) }

  /** A confirmed receipt that rests on `k`: as the signer, or as the attester of its contract. */
  predicate RestsOn(f: Fields, k: string) {
    Confirmed(f) && ((ClaimedObservation(f).Some? && ClaimedObservation(f).value.0 == k) || AttestedBy(f) == Str(k))
  }

  /** A key a trust set has revoked or does not list. */
  predicate Distrusts(trust: TrustSet, k: string) { LookUp(trust, Str(k)).Err? }

  /** What a signed preparation owes to the trust set it was made under: the keys it rests on are
      trusted there. */
  predicate Vouched(p: Prepared, trust: TrustSet) {
    p.verified.Some? ==>
      && LookUp(trust, Str(p.verified.value.key.keyId)).Ok?
      && (Confirmed(p.payload) ==> LookUp(trust, AttestedBy(p.payload)).Ok?)
  }

  /** A submission signed by `k`, or confirmed with a contract that `k` attested. */
  predicate From(p: Prepared, k: string) {
    p.verified.Some? && (p.verified.value.key.keyId == k || (Confirmed(p.payload) && AttestedBy(p.payload) == Str(k)))
  }

  lemma VouchedIsNotFrom(p: Prepared, trust: TrustSet, k: string)
    requires Vouched(p, trust) && Distrusts(trust, k)
    ensures !From(p, k)
  {
    hide Confirmed, AttestedBy, LookUp;
  }

  lemma ConfirmedMeansVerdict(f: Fields, r: OracleResult, at: string)
    requires Get(f, "oracle_result") == Obj(OracleRecord(r, at))
    ensures Confirmed(f) <==> r.verdict != Unknown
  {
    PartsFields(f);
    OracleRecordParts(r, at);
    OutcomeIsUnknown(r.verdict);
    hide OracleRecord, PartsOf, OraclePartsOf;
  }

  lemma ContractStored(h: Host, envelope: Json, trust: TrustSet, f: Fields)
    requires Authentic(h, envelope, trust) && Get(f, "oracle_observation") == envelope
    ensures StoredContract(f) == PayloadOf(h, envelope, trust).contract
  {
    hide Signed, Identified, IsDigest, Uuid;
  }

  lemma VerifiedNestedKey(h: Host, contract: Fields, trust: TrustSet)
    requires VerifyNested(h, contract, trust) == Ok(true)
    ensures LookUp(trust, RegistryKeyId(contract)).Ok?
  {
    hide Signed, RegistrySigned;
  }

  /** Whatever is prepared under a trust set is signed, and its contract attested, by keys trusted there. */
  lemma SignedIsVouched(h: Host, s: Submission, envelope: Json, trust: TrustSet, expectedEvent: Option<string>,
                        now: Datetime, at: string)
    requires h.Lawful() && trust.Valid() && PrepareSigned(h, s, envelope, trust, expectedEvent, now, at).Ok?
    ensures Vouched(PrepareSigned(h, s, envelope, trust, expectedEvent, now, at).value, trust)
  {
    SignedIsPrepared(h, s, envelope, trust, expectedEvent, now, at);
    hide PrepareSigned, Confirmed, AttestedBy, SignedReceipt, Normalized, ValidReceipt, Evaluate, ValidPrepared, LookUp;
    var e := Evaluate(h, envelope, trust, s.request, now, DEFAULT_WINDOW, at).value;
    var payload := PrepareSigned(h, s, envelope, trust, expectedEvent, now, at).value.payload;
    SignedFields(h, s, envelope, e);
    EvaluatedKey(h, envelope, trust, s.request, now, DEFAULT_WINDOW, at);
    ConfirmedMeansVerdict(payload, e.result, e.verified.payload.observedAt);
    if Confirmed(payload) {
      ConfirmedContract(h, envelope, trust, s.request, now, DEFAULT_WINDOW, at);
      AttestedByStored(h, envelope, trust, payload);
    }
  }

  lemma EvaluatedKey(h: Host, envelope: Json, trust: TrustSet, req: Request, now: Datetime, w: Window, at: string)
    requires h.Lawful() && trust.Valid() && Evaluate(h, envelope, trust, req, now, w, at).Ok?
    ensures var v := Evaluate(h, envelope, trust, req, now, w, at).value.verified;
      LookUp(trust, Str(v.key.keyId)).Ok? && v.key.keyId != [] && Authentic(h, envelope, trust)
  {
    hide JudgeVerified, ForRequest, VerifySignedObservation, ReadPayload, Signed;
    VerifiedExactlyWhen(h, envelope, trust, now, w);
  }

  lemma ConfirmedContract(h: Host, envelope: Json, trust: TrustSet, req: Request, now: Datetime, w: Window, at: string)
    requires h.Lawful() && Evaluate(h, envelope, trust, req, now, w, at).Ok?
    requires Evaluate(h, envelope, trust, req, now, w, at).value.result.verdict != Unknown
    ensures Authentic(h, envelope, trust) && VerifyNested(h, PayloadOf(h, envelope, trust).contract, trust) == Ok(true)
  {
    hide Evaluate, Authentic, PayloadOf, VerifyNested, ContractVerdict, KeyOf, ForRequest;
    ConfirmedExactlyWhen(h, envelope, trust, req, now, w, at,
      Evaluate(h, envelope, trust, req, now, w, at).value.result.verdict);
  }

  lemma AttestedByStored(h: Host, envelope: Json, trust: TrustSet, f: Fields)
    requires Authentic(h, envelope, trust) && Get(f, "oracle_observation") == envelope
    requires VerifyNested(h, PayloadOf(h, envelope, trust).contract, trust) == Ok(true)
    ensures LookUp(trust, AttestedBy(f)).Ok?
  {
    hide Authentic, PayloadOf, VerifyNested, StoredContract, RegistryKeyId, LookUp;
    ContractStored(h, envelope, trust, f);
    VerifiedNestedKey(h, PayloadOf(h, envelope, trust).contract, trust);
  }

  // ---------- Re-verification ----------

  lemma VerdictIgnoresClock(h: Host, v: Verified, req: Request, a: string, b: string)
    requires v.payload.Valid(h) && ApprovedSource(v.key.sourceType) && ForRequest(req, v.payload)
    ensures JudgeVerified(h, v, req, a).verdict == JudgeVerified(h, v, req, b).verdict
  {
    hide JudgeVerified, ContractVerdict, StateText, Identified, IsDigest, ApprovedSource, WorkloadMatches;
    JudgedVerdict(h, v, req, a);
    JudgedVerdict(h, v, req, b);
  }

  /** Evaluating again, at the signed time and under a trust set that binds the same two keys,
      gives the same observation and the same verdict. */
  lemma EvaluationIsStable(h: Host, envelope: Json, trust: TrustSet, other: TrustSet, req: Request,
                           now: Datetime, at: string, at': string)
    requires h.Lawful() && Evaluate(h, envelope, trust, req, now, DEFAULT_WINDOW, at).Ok?
    requires SameBinding(trust, other, envelope.fields["key_id"])
    requires var v := Evaluate(h, envelope, trust, req, now, DEFAULT_WINDOW, at).value.verified;
      SameBinding(trust, other, RegistryKeyId(v.payload.contract))
    ensures var e := Evaluate(h, envelope, trust, req, now, DEFAULT_WINDOW, at).value;
      && SignedTime(h, envelope).Some?
      && var again := Evaluate(h, envelope, other, req, SignedTime(h, envelope).value, DEFAULT_WINDOW, at');
      && again.Ok? && again.value.verified == e.verified && again.value.result.verdict == e.result.verdict
  {
    hide VerifySignedObservation, JudgeVerified, ForRequest, RegistryKeyId, Authentic, PayloadOf, KeyOf, SignedTime;
    var v := VerifySignedObservation(h, envelope, trust, now, DEFAULT_WINDOW).value;
    VerifiedExactlyWhen(h, envelope, trust, now, DEFAULT_WINDOW);
    KeyIsApproved(h, envelope, trust);
    SignedTimeOf(h, envelope, trust);
    VerificationIsLocal(h, envelope, trust, other, now, SignedTime(h, envelope).value, DEFAULT_WINDOW);
    VerdictIgnoresClock(h, v, req, at, at');
  }

  lemma SignedTimeOf(h: Host, envelope: Json, trust: TrustSet)
    requires h.Lawful() && Authentic(h, envelope, trust)
    ensures SignedTime(h, envelope) == h.parseTime(PayloadOf(h, envelope, trust).observedAt)
  {
    hide Signed, Identified, IsDigest, Uuid;
  }

  lemma StoredReceiptFields(h: Host, payload: Fields, id: string, k: string)
    requires k != "receipt_id" && k != "integrity_sha256"
    ensures Get(WithIntegrity(h, WithId(payload, id)), k) == Get(payload, k)
  {
    hide Encode;
  }

  lemma RecordMatches(receipt: Fields, stored: Evaluation, again: Evaluation, at: string)
    requires Get(receipt, "oracle_result") == Obj(OracleRecord(stored.result, at))
    requires Get(receipt, "oracle_verification") == Obj(VerificationRecord(stored))
    requires again.verified == stored.verified && again.result.verdict == stored.result.verdict
    ensures MatchesRecord(receipt, again)
  {
    VerificationFields(stored);
    OracleRecordParts(stored.result, at);
    hide OracleRecord, VerificationRecord, OutcomeText, StateText;
    assert OraclePartsOf(OracleRecord(stored.result, at)).outcome == Get(OracleRecord(stored.result, at), "outcome");
  }

  /** Every receipt stored by a signed submission re-verifies as authentic, at any later time and
      under any trust set that still binds the same signing and registry keys: the freshness
      window is measured from the signed time itself. */
  lemma ReverificationIsStable(h: Host, db: Db, s: Submission, envelope: Json, trust: TrustSet,
      expectedEvent: Option<string>, now: Datetime, at: string, later: Db, other: TrustSet, at': string)
    requires h.Lawful() && Inv(h, db) && PrepareSigned(h, s, envelope, trust, expectedEvent, now, at).Ok?
    requires IsNew(h, db, PrepareSigned(h, s, envelope, trust, expectedEvent, now, at).value)
    requires Inv(h, later)
      && Grows(Persist(h, db, PrepareSigned(h, s, envelope, trust, expectedEvent, now, at).value).0, later)
    requires envelope.Obj? && "key_id" in envelope.fields && SameBinding(trust, other, envelope.fields["key_id"])
    requires var p := PrepareSigned(h, s, envelope, trust, expectedEvent, now, at).value;
      SameBinding(trust, other, AttestedBy(p.payload))
    ensures var p := PrepareSigned(h, s, envelope, trust, expectedEvent, now, at).value;
      Reverify(h, later, h.uuid5(IdempotencyKey(h, p.payload)), other, at') == Ok("verified")
  {
    hide PrepareSigned, Persist, Inv, Evaluate, Normalized, SignedReceipt, ValidReceipt, IdempotencyKey, RowFor, WithId,
         WithIntegrity, StoredFields, ReverifyObservation, Added, AttestedBy, ValidPrepared, SameBinding, IsNew, Read;
    SignedIsPrepared(h, s, envelope, trust, expectedEvent, now, at);
    var p := PrepareSigned(h, s, envelope, trust, expectedEvent, now, at).value;
    var e := Evaluate(h, envelope, trust, s.request, now, DEFAULT_WINDOW, at).value;
    var id := h.uuid5(IdempotencyKey(h, p.payload));
    SignedFields(h, s, envelope, e);
    OneTransaction(h, db, p);
    StoredBody(h, IdempotencyKey(h, p.payload), WithId(p.payload, id));
    AddedReceipt(db, id, RowFor(h, IdempotencyKey(h, p.payload), WithId(p.payload, id)), p.verified);
    ReadBack(h, later, id);
    LookupById(h, later, IdempotencyKey(h, p.payload));
    StoredReceiptFields(h, p.payload, id, "oracle_observation");
    ReverifyStored(h, s, envelope, e, WithIntegrity(h, WithId(p.payload, id)), p.payload, id, trust, other, now, at,
      at');
  }

  lemma ReverifyStored(h: Host, s: Submission, envelope: Json, e: Evaluation, receipt: Fields, payload: Fields,
      id: string, trust: TrustSet, other: TrustSet, now: Datetime, at: string, at': string)
    requires h.Lawful() && Evaluate(h, envelope, trust, s.request, now, DEFAULT_WINDOW, at) == Ok(e)
    requires receipt == WithIntegrity(h, WithId(payload, id))
    requires Get(payload, "oracle_observation") == envelope
      && Get(payload, "oracle_verification") == Obj(VerificationRecord(e))
    requires Get(payload, "run_id") == Str(s.request.runId) && Get(payload, "scenario_id") == Str(s.request.scenarioId)
    requires Get(payload, "workload") == Obj(s.request.workload)
    requires Get(payload, "oracle_result") == Obj(OracleRecord(e.result, e.verified.payload.observedAt))
    requires envelope.Obj? && "key_id" in envelope.fields && SameBinding(trust, other, envelope.fields["key_id"])
    requires SameBinding(trust, other, AttestedBy(payload))
    ensures ReverifyObservation(h, receipt, envelope, other, at') == Ok("verified")
  {
    hide Evaluate, WithIntegrity, WithId, SameBinding, AttestedBy, OracleRecord, VerificationRecord, SignedTime,
         MatchesRecord;
    StoredReceiptFields(h, payload, id, "run_id");
    StoredReceiptFields(h, payload, id, "scenario_id");
    StoredReceiptFields(h, payload, id, "workload");
    StoredReceiptFields(h, payload, id, "oracle_result");
    StoredReceiptFields(h, payload, id, "oracle_verification");
    AttestedByContract(h, envelope, trust, s.request, now, at, payload);
    EvaluationIsStable(h, envelope, trust, other, s.request, now, at, at');
    var again := Evaluate(h, envelope, other, s.request, SignedTime(h, envelope).value, DEFAULT_WINDOW, at').value;
    RecordMatches(receipt, e, again, e.verified.payload.observedAt);
  }

  lemma AttestedByContract(h: Host, envelope: Json, trust: TrustSet, req: Request, now: Datetime, at: string, f: Fields)
    requires h.Lawful() && Evaluate(h, envelope, trust, req, now, DEFAULT_WINDOW, at).Ok?
    requires Get(f, "oracle_observation") == envelope
    ensures AttestedBy(f) ==
      RegistryKeyId(Evaluate(h, envelope, trust, req, now, DEFAULT_WINDOW, at).value.verified.payload.contract)
  {
    hide JudgeVerified, ForRequest, VerifySignedObservation, RegistryKeyId, StoredContract, Authentic, PayloadOf, KeyOf;
    VerifiedExactlyWhen(h, envelope, trust, now, DEFAULT_WINDOW);
    ContractStored(h, envelope, trust, f);
  }
}
