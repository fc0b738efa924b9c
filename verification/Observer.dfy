/** The scenario observer: it signs a direct assertion that matches its registered policy, and
    what it signs is what the oracle must accept. */
module Observer {
  import opened Wrappers
  import opened Strings
  import opened Json
  import opened Host
  import opened Contract
  import opened Trust
  import opened SignedObservation
  import opened Classification
  import opened Evaluation

  datatype Policy = Policy(targetService: string, expectedState: string, assertionId: string, behavior: string) {
    /** What `load_scenario_policies` lets through. */
    predicate Valid() {
      && targetService != [] && assertionId != []
      && expectedState in {"violating", "conforming"}
      && behavior in {"executable", "file_access", "network_connect", "syscall_class",
                      "privilege_transition", "component_execution"}
    }
    function Verdict(): Verdict { if expectedState == "violating" then Violation else Compliance }
  }

  datatype Assertion = Assertion(
    runId: string, scenarioId: string, eventId: string, workload: Fields, injectionStatus: string,
    assertionId: string, passed: bool, observedState: string, behavior: string, details: Fields,
    references: seq<string>, contractEnvelope: Json, observedAt: string, complete: bool)

  datatype Observer = Observer(
    sourceId: string, keyId: string, signingKey: string, contractKeys: TrustSet,
    policies: map<string, Policy>, policySha256: string, maxAgeSeconds: int)
  {
    predicate Valid() {
      && sourceId != [] && keyId != [] && maxAgeSeconds >= 1
      && forall s :: s in policies ==> policies[s].Valid()
    }
  }

  datatype Objection =
    | NoPolicy | InjectionNotSucceeded | AssertionMissing | NoState | UnexpectedState | NoIdentity | BadEventId
    | IncompleteWorkload | NoImage | OtherTarget | MissingReferences | BadTimestamp | NoTimezone | OutsideWindow
    | ContractRefused | OtherContract | IncompleteInterval | OtherBehavior

  datatype Decision = Undecided(reason: Objection) | Signing(outcome: string, envelope: Json)

  /** The assertion is the one the policy asks for, made on the workload the policy names. */
  function AssertionFault(h: Host, o: Observer, a: Assertion): Option<Objection> {
    if a.scenarioId !in o.policies then Some(NoPolicy)
    else
      var policy := o.policies[a.scenarioId];
      if a.injectionStatus != "succeeded" then Some(InjectionNotSucceeded)
      else if a.assertionId != policy.assertionId || !a.passed then Some(AssertionMissing)
      else if a.observedState !in {"violating", "conforming"} then Some(NoState)
      else if a.observedState != policy.expectedState then
        Some(UnexpectedState)
      else if Blank(a.runId) || Blank(a.scenarioId) then Some(NoIdentity)
      else if h.canonicalUuid(a.eventId).None? then Some(BadEventId)
      else if !Identified(a.workload) then Some(IncompleteWorkload)
      else if !Get(a.workload, "image_digest").Str? || !IsDigest(Get(a.workload, "image_digest").s) then
        Some(NoImage)
      else if Get(a.workload, "deployment") != Str(policy.targetService) then
        Some(OtherTarget)
      else if a.references == [] || exists i :: 0 <= i < |a.references| && Blank(a.references[i]) then
        Some(MissingReferences)
      else if h.parseTime(a.observedAt).None? then Some(BadTimestamp)
      else if !h.parseTime(a.observedAt).value.Aware() then Some(NoTimezone)
      else None
  }

  /** The verified contract is active and names this workload and image. */
  predicate ContractNames(contract: Fields, workload: Fields) {
    var selector := Get(contract, "workload_selector");
    && Get(contract, "status") == Str("active")
    && Get(contract, "image_digest") == Get(workload, "image_digest")
    && selector.Obj?
    && Get(selector.fields, "namespace") == Get(workload, "namespace")
    && Get(selector.fields, "cluster_name") ==
         if "cluster_name" in workload then workload["cluster_name"] else Get(workload, "cluster")
  }

  function DetailsWithPolicy(o: Observer, a: Assertion, policy: Policy): Fields {
    a.details["_scenario_oracle" := Obj(map[
      "assertion_id" := Str(policy.assertionId), "expected_outcome" := Str(policy.expectedState),
      "expected_workload" := Str(policy.targetService), "policy_sha256" := Str(o.policySha256)])]
  }

  /** What is signed, field by field. */
  function SignedPayload(h: Host, o: Observer, a: Assertion, contract: Fields, observationId: string): Payload
    requires AssertionFault(h, o, a).None?
  {
    Payload(observationId, h.canonicalUuid(a.eventId).value, a.runId, a.scenarioId,
            h.isoformat(h.parseTime(a.observedAt).value.ToUtc()), a.workload, Get(a.workload, "image_digest").s,
            a.references, a.behavior, DetailsWithPolicy(o, a, o.policies[a.scenarioId]), contract,
            a.observedState, a.complete)
  }

  function PayloadFields(p: Payload, sourceId: string): Fields {
    map["schema_version" := Str("1.0"), "observation_id" := Str(p.observationId),
        "run_id" := Str(p.runId), "scenario_id" := Str(p.scenarioId), "event_id" := Str(p.eventId),
        "observed_at" := Str(p.observedAt), "workload" := Obj(p.workload), "image_digest" := Str(p.imageDigest),
        "source_id" := Str(sourceId), "evidence_references" := Arr(Strs(p.references)),
        "behavior" := Str(p.behavior), "details" := Obj(p.details), "contract_snapshot" := Obj(p.contract),
        "expected_state" := Str("conforming"), "observed_state" := Str(p.state),
        "interval_complete" := Bool(p.complete)]
  }

  function Envelope(h: Host, o: Observer, payload: Fields): Json {
    Obj(map["key_id" := Str(o.keyId), "algorithm" := Str("Ed25519"),
            "signature" := Str(h.b64encode(h.sign(o.signingKey, Encode(Obj(payload))))),
            "payload" := Obj(payload)])
  }

  /** `ScenarioOracleObserver.observe`; `observationId` is the fresh uuid4. */
  function Observe(h: Host, o: Observer, a: Assertion, observationId: string, now: Datetime): Decision {
    match AssertionFault(h, o, a)
    case Some(reason) => Undecided(reason)
    case None =>
      var policy := o.policies[a.scenarioId];
      if !Fresh(now, h.parseTime(a.observedAt).value, Window(o.maxAgeSeconds, 30)) then
        Undecided(OutsideWindow)
      else
        match VerifyContractEnvelope(h, a.contractEnvelope, o.contractKeys)
        case Err(_) => Undecided(ContractRefused)
        case Ok(contract) =>
          if !ContractNames(contract, a.workload) then Undecided(OtherContract)
          else if policy.expectedState == "conforming" && !a.complete then
            Undecided(IncompleteInterval)
          else if a.behavior != policy.behavior then Undecided(OtherBehavior)
          else
            var snapshot := contract["signature_verified" := Bool(true)];
            Signing(policy.expectedState,
                    Envelope(h, o, PayloadFields(SignedPayload(h, o, a, snapshot, observationId), o.sourceId)))
  }

  // ---------- The signed bytes read back ----------

  lemma EnvelopeFields(h: Host, o: Observer, payload: Fields)
    ensures var f := Envelope(h, o, payload).fields;
      && f.Keys == ENVELOPE_FIELDS && f["key_id"] == Str(o.keyId) && f["algorithm"] == Str("Ed25519")
      && f["signature"] == Str(h.b64encode(h.sign(o.signingKey, Encode(Obj(payload)))))
      && f["payload"] == Obj(payload)
  {}

  lemma PayloadKeys(p: Payload, sourceId: string)
    ensures PayloadFields(p, sourceId).Keys == PAYLOAD_FIELDS
  {}

  lemma IdentityFields(p: Payload, sourceId: string)
    ensures var f := PayloadFields(p, sourceId);
      && PAYLOAD_FIELDS <= f.Keys
      && f["schema_version"] == Str("1.0") && f["observation_id"] == Str(p.observationId)
      && f["run_id"] == Str(p.runId) && f["scenario_id"] == Str(p.scenarioId) && f["event_id"] == Str(p.eventId)
      && f["observed_at"] == Str(p.observedAt) && f["workload"] == Obj(p.workload)
      && f["image_digest"] == Str(p.imageDigest)
  {
    PayloadKeys(p, sourceId);
  }

  lemma EvidenceFields(p: Payload, sourceId: string)
    ensures var f := PayloadFields(p, sourceId);
      && PAYLOAD_FIELDS <= f.Keys
      && f["source_id"] == Str(sourceId) && f["evidence_references"] == Arr(Strs(p.references))
      && f["behavior"] == Str(p.behavior) && f["details"] == Obj(p.details)
      && f["contract_snapshot"] == Obj(p.contract) && f["expected_state"] == Str("conforming")
      && f["observed_state"] == Str(p.state) && f["interval_complete"] == Bool(p.complete)
  {
    PayloadKeys(p, sourceId);
  }

  /** Writing a valid payload and reading it back, under a key of the same source, is the identity. */
  lemma PayloadRoundTrip(h: Host, p: Payload, key: TrustedKey)
    requires p.Valid(h) && key.sourceId != []
    ensures ReadPayload(h, Obj(PayloadFields(p, key.sourceId)), key) == Some(p)
  {
    var f := PayloadFields(p, key.sourceId);
    PayloadKeys(p, key.sourceId);
    IdentityFields(p, key.sourceId);
    EvidenceFields(p, key.sourceId);
    hide PayloadFields, Identified, IsDigest;
    assert TextList(f["evidence_references"]);
    assert Texts(f["evidence_references"]) == p.references;
    assert WellFormedPayload(h, Obj(f), key);
  }

  lemma AssertionIds(h: Host, o: Observer, a: Assertion)
    requires AssertionFault(h, o, a).None?
    ensures !Blank(a.runId) && !Blank(a.scenarioId) && h.canonicalUuid(a.eventId).Some?
    ensures IsDigest(Get(a.workload, "image_digest").s)
    ensures forall i :: 0 <= i < |a.references| ==> !Blank(a.references[i])
    ensures a.observedState in {"violating", "conforming"}
  {
    hide IsDigest, Identified;
  }

  lemma SignedPayloadIsValid(h: Host, o: Observer, a: Assertion, contract: Fields, observationId: string)
    requires h.Lawful() && o.Valid() && AssertionFault(h, o, a).None?
    requires a.behavior == o.policies[a.scenarioId].behavior
    requires h.canonicalUuid(observationId) == Some(observationId)
    ensures SignedPayload(h, o, a, contract, observationId).Valid(h)
  {
    AssertionStates(h, o, a);
    AssertionIds(h, o, a);
    hide AssertionFault, Identified, IsDigest, DetailsWithPolicy;
    assert h.canonicalUuid(a.eventId).Some?;
    assert h.parseTime(a.observedAt).Some?;
    var policy := o.policies[a.scenarioId];
    assert policy.Valid() && a.behavior != [];
    assert forall s: string :: !Blank(s) ==> s != [];
  }

  // ---------- Signer and verifier agree ----------

  /** The sink's trust set binds the observer's own key, and the registry key it used. */
  ghost predicate Matching(h: Host, o: Observer, a: Assertion, trust: TrustSet) {
    && o.contractKeys.Valid()
    && LookUp(trust, Str(o.keyId)).Ok?
    && var key := LookUp(trust, Str(o.keyId)).value;
    && key.sourceId == o.sourceId && key.publicKey == h.publicKey(o.signingKey) && ApprovedSource(key.sourceType)
    && (VerifyContractEnvelope(h, a.contractEnvelope, o.contractKeys).Ok? ==>
          SameBinding(o.contractKeys, trust, a.contractEnvelope.fields["key_id"]))
  }

  lemma SignatureVerifies(h: Host, key: TrustedKey, signingKey: string, payload: Fields)
    requires h.Lawful() && key.publicKey == h.publicKey(signingKey)
    ensures Signed(h, key, h.b64encode(h.sign(signingKey, Encode(Obj(payload)))), payload)
  {
    hide Encode;
  }

  lemma AlreadyMarked(h: Host, envelope: Json, trust: TrustSet)
    requires VerifyContractEnvelope(h, envelope, trust).Ok?
    ensures var c := VerifyContractEnvelope(h, envelope, trust).value; c["signature_verified" := Bool(true)] == c
  {
    hide Signed, RegistryKey, Attestation;
  }

  /** What an emitted envelope is. */
  lemma EmittedEnvelope(h: Host, o: Observer, a: Assertion, observationId: string, now: Datetime)
    returns (contract: Fields)
    requires Observe(h, o, a, observationId, now).Signing?
    ensures AssertionFault(h, o, a).None?
    ensures a.behavior == o.policies[a.scenarioId].behavior
    ensures o.policies[a.scenarioId].expectedState == "conforming" ==> a.complete
    ensures VerifyContractEnvelope(h, a.contractEnvelope, o.contractKeys) == Ok(contract)
    ensures Observe(h, o, a, observationId, now).envelope ==
      Envelope(h, o, PayloadFields(SignedPayload(h, o, a, contract, observationId), o.sourceId))
    ensures a.observedState == o.policies[a.scenarioId].expectedState
  {
    hide AssertionFault, ContractNames, PayloadFields, SignedPayload, Envelope, Fresh, VerifyContractEnvelope,
         Identified;
    contract := VerifyContractEnvelope(h, a.contractEnvelope, o.contractKeys).value;
    AlreadyMarked(h, a.contractEnvelope, o.contractKeys);
    AssertionStates(h, o, a);
  }

  lemma AssertionStates(h: Host, o: Observer, a: Assertion)
    requires AssertionFault(h, o, a).None?
    ensures a.scenarioId in o.policies && a.observedState == o.policies[a.scenarioId].expectedState
    ensures Identified(a.workload) && Get(a.workload, "image_digest").Str? && a.references != []
    ensures h.parseTime(a.observedAt).Some? && h.parseTime(a.observedAt).value.Aware()
  {
    hide IsDigest, Identified, Blank;
  }

  /** An envelope over any valid payload, signed by the observer, is accepted inside the window. */
  lemma SignedEnvelopeAccepted(h: Host, o: Observer, p: Payload, trust: TrustSet, sinkNow: Datetime, w: Window)
    requires h.Lawful() && p.Valid(h) && sinkNow.Aware() && Fresh(sinkNow, p.Time(h), w)
    requires VerifyNested(h, p.contract, trust) == Ok(true)
    requires LookUp(trust, Str(o.keyId)).Ok?
    requires var key := LookUp(trust, Str(o.keyId)).value;
      && key.sourceId == o.sourceId != [] && key.publicKey == h.publicKey(o.signingKey)
        && ApprovedSource(key.sourceType)
    ensures var r := VerifySignedObservation(h, Envelope(h, o, PayloadFields(p, o.sourceId)), trust, sinkNow, w);
      r.Ok? && r.value.contractVerified && r.value.payload == p && r.value.key == LookUp(trust, Str(o.keyId)).value
  {
    var key := LookUp(trust, Str(o.keyId)).value;
    var payload := PayloadFields(p, o.sourceId);
    PayloadRoundTrip(h, p, key);
    EnvelopeFields(h, o, payload);
    SignatureVerifies(h, key, o.signingKey, payload);
    hide PayloadFields, Envelope, Signed, ReadPayload, VerifyNested, VerifySignedObservation, ApprovedSource,
         Identified, IsDigest;
    VerifiedExactlyWhen(h, Envelope(h, o, payload), trust, sinkNow, w);
  }

  /** Every envelope the observer emits is accepted with its contract snapshot verified, by any
      trust set that binds the two keys it used, whenever the clock is inside the window. */
  lemma EmittedIsAccepted(h: Host, o: Observer, a: Assertion, observationId: string, now: Datetime,
                          trust: TrustSet, sinkNow: Datetime, w: Window)
    requires h.Lawful() && o.Valid() && h.canonicalUuid(observationId) == Some(observationId)
    requires Observe(h, o, a, observationId, now).Signing? && Matching(h, o, a, trust)
    requires sinkNow.Aware() && h.parseTime(a.observedAt).Some? && Fresh(sinkNow, h.parseTime(a.observedAt).value, w)
    ensures AssertionFault(h, o, a).None?
    ensures var r := VerifySignedObservation(h, Observe(h, o, a, observationId, now).envelope, trust, sinkNow, w);
      && r.Ok? && r.value.contractVerified
      && r.value.key == LookUp(trust, Str(o.keyId)).value
      && VerifyContractEnvelope(h, a.contractEnvelope, o.contractKeys).Ok?
      && r.value.payload == SignedPayload(h, o, a, VerifyContractEnvelope(h, a.contractEnvelope, o.contractKeys).value,
        observationId)
      && r.value.payload.Valid(h)
  {
    hide Observe, AssertionFault, PayloadFields, Envelope, VerifyNested, VerifyContractEnvelope,
         VerifySignedObservation, Identified, IsDigest, DetailsWithPolicy;
    var contract := EmittedEnvelope(h, o, a, observationId, now);
    SignedPayloadIsValid(h, o, a, contract, observationId);
    EnvelopeThenNested(h, a.contractEnvelope, o.contractKeys, trust);
    AssertionStates(h, o, a);
    SignedEnvelopeAccepted(h, o, SignedPayload(h, o, a, contract, observationId), trust, sinkNow, w);
  }

  /** Signer and verifier agree: evaluated for its own run, scenario and workload, an emitted
      envelope gives the policy's verdict or `unknown`, and the policy's verdict exactly when the
      signing key is independent and the contract itself yields that verdict. */
  lemma SignerAndVerifierAgree(h: Host, o: Observer, a: Assertion, observationId: string, now: Datetime,
                               trust: TrustSet, sinkNow: Datetime, w: Window, assessedAt: string)
    requires h.Lawful() && o.Valid() && h.canonicalUuid(observationId) == Some(observationId)
    requires Observe(h, o, a, observationId, now).Signing? && Matching(h, o, a, trust)
    requires sinkNow.Aware() && h.parseTime(a.observedAt).Some? && Fresh(sinkNow, h.parseTime(a.observedAt).value, w)
    ensures a.scenarioId in o.policies
    ensures var e := Evaluate(h, Observe(h, o, a, observationId, now).envelope, trust,
                              Request(a.runId, a.scenarioId, a.workload), sinkNow, w, assessedAt);
      var policy := o.policies[a.scenarioId].Verdict();
      && e.Ok?
      && e.value.result.verdict in {policy, Unknown}
      && (e.value.result.verdict == policy <==>
            e.value.verified.key.independent && ContractVerdict(h, e.value.verified.payload, a.workload) == policy)
  {
    EmittedIsAccepted(h, o, a, observationId, now, trust, sinkNow, w);
    AssertionStates(h, o, a);
    hide Observe, AssertionFault, PayloadFields, Envelope, VerifyContractEnvelope, VerifySignedObservation,
         ContractVerdict, JudgeVerified, Identified, IsDigest, DetailsWithPolicy, Matching;
    var v := VerifySignedObservation(h, Observe(h, o, a, observationId, now).envelope, trust, sinkNow, w).value;
    var req := Request(a.runId, a.scenarioId, a.workload);
    JudgedVerdict(h, v, req, assessedAt);
    PolicyText(o.policies[a.scenarioId], ContractVerdict(h, v.payload, a.workload));
  }

  lemma PolicyText(policy: Policy, verdict: Verdict)
    requires policy.Valid()
    ensures StateText(verdict) == policy.expectedState <==> verdict == policy.Verdict()
    ensures policy.Verdict() != Unknown
  {}
}
