/** From the observer to the store and back: an emitted observation is stored, stays readable, can be
    verified again, and a retry changes nothing. */
module EndToEnd {
  import opened Wrappers
  import opened Strings
  import opened Json
  import opened Host
  import opened Contract
  import opened Trust
  import opened SignedObservation
  import opened Classification
  import opened Evaluation
  import opened Receipt
  import opened EvidenceStore
  import opened StoreInvariant
  import opened ExactlyOnce
  import opened SinkRuntime
  import Obs = Observer

  function SubmissionOf(a: Obs.Assertion, processing: string, provenance: Fields): Submission {
    Submission(Request(a.runId, a.scenarioId, a.workload), processing, provenance)
  }

  /** What the observer emitted, on its way into the store. */
  function Incoming(h: Host, o: Obs.Observer, a: Obs.Assertion, observationId: string, now: Datetime, trust: TrustSet,
                    sinkNow: Datetime, processing: string, provenance: Fields, at: string): Result<Prepared, StoreError>
    requires h.Lawful() && Obs.Observe(h, o, a, observationId, now).Signing?
  {
    PrepareSigned(h, SubmissionOf(a, processing, provenance), Obs.Observe(h, o, a, observationId, now).envelope, trust,
      None,
      sinkNow, at)
  }

  /** An observation the observer signed reaches the store whenever the sink trusts the two keys, the
      clock is inside the window and the processing outcome is not blank; it is confirmed exactly when
      the key is independent and the contract yields the verdict of the policy. */
  lemma EmittedIsPrepared(h: Host, o: Obs.Observer, a: Obs.Assertion, observationId: string, now: Datetime,
      trust: TrustSet, sinkNow: Datetime, processing: string, provenance: Fields, at: string)
    requires h.Lawful() && o.Valid() && trust.Valid() && h.canonicalUuid(observationId) == Some(observationId)
    requires Obs.Observe(h, o, a, observationId, now).Signing? && Obs.Matching(h, o, a, trust)
    requires sinkNow.Aware() && h.parseTime(a.observedAt).Some?
      && Fresh(sinkNow, h.parseTime(a.observedAt).value, DEFAULT_WINDOW)
    requires !Blank(processing)
    ensures a.scenarioId in o.policies && Obs.AssertionFault(h, o, a).None?
    ensures VerifyContractEnvelope(h, a.contractEnvelope, o.contractKeys).Ok? && LookUp(trust, Str(o.keyId)).Ok?
    ensures
      var p := Incoming(h, o, a, observationId, now, trust, sinkNow, processing, provenance, at);
      var contract := VerifyContractEnvelope(h, a.contractEnvelope, o.contractKeys).value;
      && p.Ok? && p.value.verified.Some? && IdAccepted(h, p.value)
      && p.value.verified.value.key == LookUp(trust, Str(o.keyId)).value
      && (Confirmed(p.value.payload) <==>
            LookUp(trust, Str(o.keyId)).value.independent
            && ContractVerdict(h, Obs.SignedPayload(h, o, a, contract, observationId), a.workload)
                 == o.policies[a.scenarioId].Verdict())
  {
    hide Host.Lawful, Obs.Observe, Obs.Matching, Obs.Observer.Valid, TrustSet.Valid, Fresh, Blank, Evaluate,
         SignedReceipt, ValidateReceipt, ContractVerdict, Confirmed, PartsOf, Normalized, ValidReceipt, OracleRecord,
         Obs.Policy.Valid, Obs.AssertionFault, Obs.SignedPayload, VerifySignedObservation, VerifyContractEnvelope,
         LookUp, IdAccepted;
    var s := SubmissionOf(a, processing, provenance);
    var envelope := Obs.Observe(h, o, a, observationId, now).envelope;
    Obs.SignerAndVerifierAgree(h, o, a, observationId, now, trust, sinkNow, DEFAULT_WINDOW, at);
    var e := Evaluate(h, envelope, trust, s.request, sinkNow, DEFAULT_WINDOW, at).value;
    EmittedTexts(h, o, a, observationId, now, trust, sinkNow);
    EvaluatedAsVerified(h, envelope, trust, s.request, sinkNow, at);
    EvaluatedReceiptIsValid(h, s, envelope, trust, sinkNow, DEFAULT_WINDOW, at);
    StoredVerdict(h, s, envelope, trust, None, sinkNow, at);
    PolicyVerdict(o, a.scenarioId);
  }

  lemma PolicyVerdict(o: Obs.Observer, scenarioId: string)
    requires o.Valid() && scenarioId in o.policies
    ensures o.policies[scenarioId].Verdict() != Unknown
  {}

  /** The stored receipt is confirmed exactly when the evaluation reached a verdict. */
  lemma StoredVerdict(h: Host, s: Submission, envelope: Json, trust: TrustSet, expectedEvent: Option<string>,
                      now: Datetime, at: string)
    requires h.Lawful() && PrepareSigned(h, s, envelope, trust, expectedEvent, now, at).Ok?
    ensures
      var p := PrepareSigned(h, s, envelope, trust, expectedEvent, now, at).value;
      var e := Evaluate(h, envelope, trust, s.request, now, DEFAULT_WINDOW, at);
      && e.Ok? && p.verified == Some(e.value.verified)
      && (Confirmed(p.payload) <==> e.value.result.verdict != Unknown)
      && IdAccepted(h, p)
  {
    hide Host.Lawful, Evaluate, SignedReceipt, ValidReceipt, Normalized, PrepareSigned, Confirmed, ValidPrepared,
         OracleRecord;
    SignedIsPrepared(h, s, envelope, trust, expectedEvent, now, at);
    var e := Evaluate(h, envelope, trust, s.request, now, DEFAULT_WINDOW, at).value;
    var payload := PrepareSigned(h, s, envelope, trust, expectedEvent, now, at).value.payload;
    SignedFields(h, s, envelope, e);
    ConfirmedMeansVerdict(payload, e.result, e.verified.payload.observedAt);
    NoIdYet(h, s, envelope, e, payload);
  }

  lemma NoIdYet(h: Host, s: Submission, envelope: Json, e: Evaluation, payload: Fields)
    requires h.Lawful() && ValidReceipt(h, SignedReceipt(s, envelope, e))
      && payload == Normalized(h, SignedReceipt(s, envelope, e))
    ensures Get(payload, "receipt_id") == Null
  {
    SignedReceiptParts(s, envelope, e);
    NormalizedFields(h, SignedReceipt(s, envelope, e));
    PartsFields(payload);
    hide SignedReceipt, ValidReceipt, VerificationRecord, OracleRecord, Normalized, PartsOf, KnownFields;
  }

  lemma EmittedTexts(h: Host, o: Obs.Observer, a: Obs.Assertion, observationId: string, now: Datetime, trust: TrustSet,
                     sinkNow: Datetime)
    requires h.Lawful() && o.Valid() && h.canonicalUuid(observationId) == Some(observationId)
    requires Obs.Observe(h, o, a, observationId, now).Signing? && Obs.Matching(h, o, a, trust)
    requires sinkNow.Aware() && h.parseTime(a.observedAt).Some?
      && Fresh(sinkNow, h.parseTime(a.observedAt).value, DEFAULT_WINDOW)
    ensures !Blank(a.runId) && !Blank(a.scenarioId) && Obs.AssertionFault(h, o, a).None?
    ensures VerifyContractEnvelope(h, a.contractEnvelope, o.contractKeys).Ok? && LookUp(trust, Str(o.keyId)).Ok?
    ensures
      var v := VerifySignedObservation(h, Obs.Observe(h, o, a, observationId, now).envelope, trust, sinkNow,
        DEFAULT_WINDOW);
      var contract := VerifyContractEnvelope(h, a.contractEnvelope, o.contractKeys).value;
      && v.Ok? && v.value.key == LookUp(trust, Str(o.keyId)).value
      && v.value.payload == Obs.SignedPayload(h, o, a, contract, observationId)
  {
    Obs.EmittedIsAccepted(h, o, a, observationId, now, trust, sinkNow, DEFAULT_WINDOW);
    Obs.AssertionIds(h, o, a);
    hide Obs.AssertionFault, Obs.SignedPayload, VerifySignedObservation, VerifyContractEnvelope, Obs.Observe, Blank;
  }

  lemma EvaluatedAsVerified(h: Host, envelope: Json, trust: TrustSet, req: Request, now: Datetime, at: string)
    requires h.Lawful() && Evaluate(h, envelope, trust, req, now, DEFAULT_WINDOW, at).Ok?
    ensures VerifySignedObservation(h, envelope, trust, now, DEFAULT_WINDOW) ==
      Ok(Evaluate(h, envelope, trust, req, now, DEFAULT_WINDOW, at).value.verified)
  {
    hide VerifySignedObservation, ForRequest, JudgeVerified;
  }

  // ---------- The client's retry ----------

  lemma SameReceipt(s: Submission, envelope: Json, a: Evaluation, b: Evaluation)
    requires a.verified == b.verified && a.result.(assessedAt := []) == b.result.(assessedAt := [])
    ensures SignedReceipt(s, envelope, a) == SignedReceipt(s, envelope, b)
  {
    hide ReceiptForRun, Strs, StateText, OutcomeText, ReasonText;
  }

  lemma EvaluatedAgain(h: Host, envelope: Json, trust: TrustSet, other: TrustSet, req: Request,
                       now: Datetime, at: string, now': Datetime, at': string)
    requires h.Lawful() && Evaluate(h, envelope, trust, req, now, DEFAULT_WINDOW, at).Ok? && now'.Aware()
    requires SameBinding(trust, other, envelope.fields["key_id"])
    requires var v := Evaluate(h, envelope, trust, req, now, DEFAULT_WINDOW, at).value.verified;
      SameBinding(trust, other, RegistryKeyId(v.payload.contract))
    ensures SignedTime(h, envelope).Some?
    ensures var e := Evaluate(h, envelope, trust, req, now, DEFAULT_WINDOW, at).value;
      var again := Evaluate(h, envelope, other, req, now', DEFAULT_WINDOW, at');
      if Fresh(now', SignedTime(h, envelope).value, DEFAULT_WINDOW) then
        again.Ok? && again.value.verified == e.verified
          && again.value.result.(assessedAt := []) == e.result.(assessedAt := [])
      else again == Err(Stale)
  {
    hide VerifySignedObservation, JudgeVerified, ForRequest, RegistryKeyId, Authentic, PayloadOf, KeyOf, SignedTime,
         Fresh;
    var v := VerifySignedObservation(h, envelope, trust, now, DEFAULT_WINDOW).value;
    VerifiedExactlyWhen(h, envelope, trust, now, DEFAULT_WINDOW);
    SignedTimeOf(h, envelope, trust);
    if Fresh(now', SignedTime(h, envelope).value, DEFAULT_WINDOW) {
      VerificationIsLocal(h, envelope, trust, other, now, now', DEFAULT_WINDOW);
      JudgementIgnoresClock(h, v, req, at, at');
    } else {
      StaleOutsideTheWindow(h, envelope, trust, other, now, now', DEFAULT_WINDOW);
    }
  }

  /** A client submits the same observation again, perhaps after a restart: it is evaluated again, with
      the clock and the keys of that moment. Inside the window it makes the very same submission; outside
      it is refused as stale. */
  lemma RetriedSubmission(h: Host, s: Submission, envelope: Json, expectedEvent: Option<string>, trust: TrustSet,
      other: TrustSet, now: Datetime, at: string, now': Datetime, at': string)
    requires h.Lawful() && PrepareSigned(h, s, envelope, trust, expectedEvent, now, at).Ok? && now'.Aware()
    requires envelope.Obj? && "key_id" in envelope.fields && SameBinding(trust, other, envelope.fields["key_id"])
    requires SameBinding(trust, other,
      AttestedBy(PrepareSigned(h, s, envelope, trust, expectedEvent, now, at).value.payload))
    ensures SignedTime(h, envelope).Some?
    ensures PrepareSigned(h, s, envelope, other, expectedEvent, now', at') ==
      if Fresh(now', SignedTime(h, envelope).value, DEFAULT_WINDOW)
      then PrepareSigned(h, s, envelope, trust, expectedEvent, now, at) else Err(Refused(Stale))
  {
    hide Host.Lawful, Evaluate, SignedReceipt, ValidReceipt, Normalized, Fresh, SameBinding, AttestedBy, SignedTime,
         OracleRecord, VerificationRecord, ValidPrepared;
    SignedIsPrepared(h, s, envelope, trust, expectedEvent, now, at);
    var e := Evaluate(h, envelope, trust, s.request, now, DEFAULT_WINDOW, at).value;
    SignedFields(h, s, envelope, e);
    AttestedByContract(h, envelope, trust, s.request, now, at,
      PrepareSigned(h, s, envelope, trust, expectedEvent, now, at).value.payload);
    EvaluatedAgain(h, envelope, trust, other, s.request, now, at, now', at');
    if Fresh(now', SignedTime(h, envelope).value, DEFAULT_WINDOW) {
      SameReceipt(s, envelope, e, Evaluate(h, envelope, other, s.request, now', DEFAULT_WINDOW, at').value);
    }
  }

  /** A signed submission whose item and observation are new is acknowledged. In every later good store
      the same receipt is there and re-verifies under any trust set that binds the same two keys. A client
      that submits again is evaluated again: inside the freshness window it gets the same receipt and
      changes nothing, outside it is refused before the store is touched. */
  lemma StoredForGood(h: Host, s: Submission, envelope: Json, expectedEvent: Option<string>, trust: TrustSet,
      now: Datetime, at: string, payload: Fields, v: Verified, db: Db, later: Db, other: TrustSet, now': Datetime,
      at': string)
    requires h.Lawful()
      && PrepareSigned(h, s, envelope, trust, expectedEvent, now, at) == Ok(Prepared(payload, Some(v)))
    requires Inv(h, db) && IdempotencyKey(h, payload) !in db.keyIndex && ObservationId(v) !in db.consumed
    requires Inv(h, later) && Grows(Persist(h, db, Prepared(payload, Some(v))).0, later)
    requires envelope.Obj? && "key_id" in envelope.fields && SameBinding(trust, other, envelope.fields["key_id"])
    requires SameBinding(trust, other, AttestedBy(payload)) && now'.Aware()
    ensures SignedTime(h, envelope).Some?
    ensures
      var id := h.uuid5(IdempotencyKey(h, payload));
      var acknowledged := Persist(h, db, Prepared(payload, Some(v))).1;
      && acknowledged.Ok?
      && Lookup(h, later, id) == acknowledged
      && Reverify(h, later, id, other, at') == Ok("verified")
      && var retry := PrepareSigned(h, s, envelope, other, expectedEvent, now', at');
         if Fresh(now', SignedTime(h, envelope).value, DEFAULT_WINDOW) then
           retry.Ok? && Persist(h, later, retry.value) == (later, acknowledged)
         else retry == Err(Refused(Stale))
  {
    hide Host.Lawful, PrepareSigned, Inv, Persist, IdempotencyKey, Confirmed, AttestedBy, SameBinding, Reverify,
         ValidPrepared, Evaluate, IdAccepted, WithId, RowFor, StoredFields, WithIntegrity, Read, SameContent,
         SignedReceipt, Normalized, ValidReceipt, Lookup, SignedTime, Fresh;
    var p := Prepared(payload, Some(v));
    StoredVerdict(h, s, envelope, trust, expectedEvent, now, at);
    SignedIsPrepared(h, s, envelope, trust, expectedEvent, now, at);
    assert IsNew(h, db, p);
    hide IsNew;
    NewItem(h, db, p);
    OneTransaction(h, db, p);
    ReadBack(h, later, h.uuid5(IdempotencyKey(h, payload)));
    LookupById(h, later, IdempotencyKey(h, payload));
    ReverificationIsStable(h, db, s, envelope, trust, expectedEvent, now, at, later, other, at');
    SameContentReflexive(h, payload);
    RetryIsIdempotent(h, db, p, later, p);
    RetriedSubmission(h, s, envelope, expectedEvent, trust, other, now, at, now', at');
  }

  /** The one thing the evaluator accepts and the store refuses: a signed observation whose run id is made
      of white space. */
  lemma BlankRunIdIsRefusedLate(h: Host, o: Obs.Observer, p: Payload, trust: TrustSet, now: Datetime, at: string,
                                processing: string, provenance: Fields)
    requires h.Lawful() && trust.Valid() && p.Valid(h) && now.Aware() && Fresh(now, p.Time(h), DEFAULT_WINDOW)
    requires VerifyNested(h, p.contract, trust) == Ok(true) && LookUp(trust, Str(o.keyId)).Ok?
    requires var key := LookUp(trust, Str(o.keyId)).value;
      && key.sourceId == o.sourceId != [] && key.publicKey == h.publicKey(o.signingKey)
        && ApprovedSource(key.sourceType)
    requires Blank(p.runId)
    ensures
      var envelope := Obs.Envelope(h, o, Obs.PayloadFields(p, o.sourceId));
      var s := Submission(Request(p.runId, p.scenarioId, p.workload), processing, provenance);
      && Evaluate(h, envelope, trust, s.request, now, DEFAULT_WINDOW, at).Ok?
      && PrepareSigned(h, s, envelope, trust, None, now, at) == Err(InvalidReceipt)
  {
    hide Host.Lawful, TrustSet.Valid, Fresh, VerifyNested, LookUp, ApprovedSource, Blank, Obs.Envelope,
         Obs.PayloadFields, VerifySignedObservation, JudgeVerified, SignedReceipt, ValidateReceipt, Identified,
         IsDigest;
    var envelope := Obs.Envelope(h, o, Obs.PayloadFields(p, o.sourceId));
    var s := Submission(Request(p.runId, p.scenarioId, p.workload), processing, provenance);
    Obs.SignedEnvelopeAccepted(h, o, p, trust, now, DEFAULT_WINDOW);
    assert Evaluate(h, envelope, trust, s.request, now, DEFAULT_WINDOW, at).Ok?;
    hide Evaluate, Payload.Valid;
    EvaluatedReceiptIsValid(h, s, envelope, trust, now, DEFAULT_WINDOW, at);
  }
}
