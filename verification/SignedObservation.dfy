/** Authentication of signed observations and of the contract snapshot nested in them. */
module SignedObservation {
  import opened Wrappers
  import opened Strings
  import opened Json
  import opened Host
  import opened Contract
  import opened Trust

  /** Why an observation is refused: the exception classes of the oracle. `BadInput` stands for
      the plain ValueError and TypeError that are not oracle errors. */
  datatype Refusal =
    | Rejected | UnsupportedAlgorithm | RevokedKey | UnknownKey | InvalidSignature | Stale | BadInput

  const ENVELOPE_FIELDS := {"key_id", "algorithm", "signature", "payload"}
  const ATTESTATION_FIELDS := {"key_id", "algorithm", "signature"}
  const PAYLOAD_FIELDS := {
    "schema_version", "observation_id", "run_id", "scenario_id", "event_id",
    "observed_at", "workload", "image_digest", "source_id", "evidence_references",
    "behavior", "details", "contract_snapshot", "expected_state", "observed_state",
    "interval_complete"}
  const ADDED_FIELDS := {"signature_verified", "registry_attestation"}

  /** The trusted, unrevoked key an id names. */
  function LookUp(trust: TrustSet, keyId: Json): Result<TrustedKey, Refusal> {
    if keyId.Str? && keyId.s in trust.revoked then Err(RevokedKey)
    else if keyId.Str? && keyId.s in trust.keys then Ok(trust.keys[keyId.s])
    else Err(UnknownKey)
  }

  function RegistryKey(trust: TrustSet, keyId: Json): Result<TrustedKey, Refusal> {
    match LookUp(trust, keyId)
    case Err(e) => Err(e)
    case Ok(key) => if key.sourceType == REGISTRY then Ok(key) else Err(UnknownKey)
  }

  /** Ed25519 over the canonical bytes, the signature given as base64 text. */
  predicate Signed(h: Host, key: TrustedKey, signature: string, payload: Fields) {
    && h.b64decode(signature).Some?
    && h.checkSignature(key.publicKey, h.b64decode(signature).value, Encode(Obj(payload)))
  }

  // ---------- Contract snapshots ----------

  /** `verify_contract_snapshot_envelope`: the payload with its attestation added. */
  function VerifyContractEnvelope(h: Host, envelope: Json, trust: TrustSet): Result<Fields, Refusal> {
    if !envelope.Obj? || envelope.fields.Keys != ENVELOPE_FIELDS || envelope.fields["algorithm"] != Str("Ed25519")
    then Err(Rejected)
    else
      var f := envelope.fields;
      match RegistryKey(trust, f["key_id"])
      case Err(e) => Err(e)
      case Ok(key) =>
        if !f["payload"].Obj? || "signature_verified" in f["payload"].fields
           || "registry_attestation" in f["payload"].fields then Err(Rejected)
        else if !f["signature"].Str? then Err(InvalidSignature)
        else if !Signed(h, key, f["signature"].s, f["payload"].fields) then Err(InvalidSignature)
        else Ok(Attested(f["payload"].fields, key.keyId, f["signature"].s))
  }

  function Attestation(keyId: string, signature: string): Fields {
    map["key_id" := Str(keyId), "algorithm" := Str("Ed25519"), "signature" := Str(signature)]
  }

  function Attested(payload: Fields, keyId: string, signature: string): Fields {
    payload["signature_verified" := Bool(true)]["registry_attestation" := Obj(Attestation(keyId, signature))]
  }

  /** The part of a snapshot the registry signed. */
  function RegistrySigned(contract: Fields): Fields { contract - ADDED_FIELDS }

  /** `_verify_nested_contract_attestation` */
  function VerifyNested(h: Host, contract: Fields, trust: TrustSet): Result<bool, Refusal> {
    var att := Get(contract, "registry_attestation");
    if !att.Obj? || att.fields.Keys != ATTESTATION_FIELDS then Ok(false)
    else
      match RegistryKey(trust, att.fields["key_id"])
      case Err(e) => Err(e)
      case Ok(key) =>
        if att.fields["algorithm"] != Str("Ed25519") || Get(contract, "signature_verified") != Bool(true)
          then Err(Rejected)
        else if !att.fields["signature"].Str? then Err(BadInput)
        else if !Signed(h, key, att.fields["signature"].s, RegistrySigned(contract)) then Err(InvalidSignature)
        else Ok(true)
  }

  /** Removing the fields an attestation adds recovers exactly what the registry signed. */
  lemma StrippingRecoversPayload(payload: Fields, keyId: string, signature: string)
    requires "signature_verified" !in payload && "registry_attestation" !in payload
    ensures RegistrySigned(Attested(payload, keyId, signature)) == payload
  {
    var c := Attested(payload, keyId, signature);
    assert forall k :: k in payload ==> k !in ADDED_FIELDS;
    assert forall k :: k in c ==> k in payload || k in ADDED_FIELDS;
  }

  lemma AttestationFields(keyId: string, signature: string)
    ensures Attestation(keyId, signature).Keys == ATTESTATION_FIELDS
    ensures Attestation(keyId, signature)["key_id"] == Str(keyId)
    ensures Attestation(keyId, signature)["algorithm"] == Str("Ed25519")
    ensures Attestation(keyId, signature)["signature"] == Str(signature)
  {}

  /** Two trust sets that bind a key id in the same way. */
  predicate SameBinding(a: TrustSet, b: TrustSet, keyId: Json) { LookUp(a, keyId) == LookUp(b, keyId) }

  /** A snapshot that passed as an envelope passes again where it is nested, under any trust set
      that binds the registry key in the same way. */
  lemma EnvelopeThenNested(h: Host, envelope: Json, trust: TrustSet, other: TrustSet)
    requires VerifyContractEnvelope(h, envelope, trust).Ok?
    requires trust.Valid() && SameBinding(trust, other, envelope.fields["key_id"])
    ensures VerifyNested(h, VerifyContractEnvelope(h, envelope, trust).value, other) == Ok(true)
  {
    var f := envelope.fields;
    var key := RegistryKey(trust, f["key_id"]).value;
    var c := VerifyContractEnvelope(h, envelope, trust).value;
    StrippingRecoversPayload(f["payload"].fields, key.keyId, f["signature"].s);
    AttestationFields(key.keyId, f["signature"].s);
    assert c == Attested(f["payload"].fields, key.keyId, f["signature"].s);
    assert Get(c, "registry_attestation") == Obj(Attestation(key.keyId, f["signature"].s));
    assert Get(c, "signature_verified") == Bool(true);
  }

  // ---------- Observation envelopes ----------

  /** `str(uuid.UUID(str(value)))`; only text and digits can spell a UUID. */
  function Uuid(h: Host, value: Json): Option<string> {
    match value
    case Str(s) => h.canonicalUuid(s)
    case Int(n) => h.canonicalUuid(IntText(n))
    case _ => None
  }

  predicate NonblankText(j: Json) { j.Str? && !Blank(j.s) }

  predicate Identified(workload: Fields) {
    NonblankText(Get(workload, "cluster")) && NonblankText(Get(workload, "namespace"))
      && NonblankText(Get(workload, "name"))
  }

  predicate TextList(j: Json) { j.Arr? && forall i :: 0 <= i < |j.items| ==> NonemptyText(j.items[i]) }

  function Strs(texts: seq<string>): (r: seq<Json>)
    ensures |r| == |texts| && forall i :: 0 <= i < |r| ==> r[i] == Str(texts[i])
  {
    seq(|texts|, i requires 0 <= i < |texts| => Str(texts[i]))
  }

  function Texts(j: Json): (r: seq<string>)
    requires TextList(j)
    ensures |r| == |j.items| && forall i :: 0 <= i < |r| ==> j.items[i] == Str(r[i]) && r[i] != []
  {
    assert forall i :: 0 <= i < |j.items| ==> NonemptyText(j.items[i]);
    seq(|j.items|, i requires 0 <= i < |j.items| => j.items[i].s)
  }

  /** A signed payload once its shape is checked; the two UUIDs are in canonical form. */
  datatype Payload = Payload(
    observationId: string, eventId: string, runId: string, scenarioId: string, observedAt: string,
    workload: Fields, imageDigest: string, references: seq<string>, behavior: string, details: Fields,
    contract: Fields, state: string, complete: bool)
  {
    predicate Valid(h: Host) {
      && observationId != [] && h.canonicalUuid(observationId) == Some(observationId)
      && eventId != [] && h.canonicalUuid(eventId) == Some(eventId)
      && runId != [] && scenarioId != [] && behavior != [] && observedAt != []
      && Identified(workload) && IsDigest(imageDigest) && Get(workload, "image_digest") == Str(imageDigest)
      && (forall i :: 0 <= i < |references| ==> references[i] != [])
      && state in {"violating", "conforming", "unknown"}
      && h.parseTime(observedAt).Some? && h.parseTime(observedAt).value.Aware()
    }
    function Time(h: Host): Datetime requires h.parseTime(observedAt).Some? { h.parseTime(observedAt).value }
  }

  /** Every check on the payload that is made before the clock is looked at. */
  predicate WellFormedPayload(h: Host, payload: Json, key: TrustedKey) {
    && payload.Obj? && payload.fields.Keys == PAYLOAD_FIELDS
    && var p := payload.fields;
    && p["schema_version"] == Str("1.0")
    && p["source_id"] == Str(key.sourceId) && key.sourceId != []
    && Uuid(h, p["observation_id"]).Some? && Uuid(h, p["event_id"]).Some?
    && NonemptyText(p["run_id"]) && NonemptyText(p["scenario_id"]) && NonemptyText(p["behavior"])
    && p["workload"].Obj? && p["details"].Obj? && p["contract_snapshot"].Obj?
    && Identified(p["workload"].fields)
    && p["image_digest"].Str? && IsDigest(p["image_digest"].s)
    && Get(p["workload"].fields, "image_digest") == p["image_digest"]
    && TextList(p["evidence_references"])
    && p["expected_state"] == Str("conforming")
    && p["observed_state"].Str? && p["observed_state"].s in {"violating", "conforming", "unknown"}
    && p["interval_complete"].Bool?
    && NonemptyText(p["observed_at"]) && h.parseTime(p["observed_at"].s).Some?
    && h.parseTime(p["observed_at"].s).value.Aware()
  }

  function ReadPayload(h: Host, payload: Json, key: TrustedKey): Option<Payload> {
    if !WellFormedPayload(h, payload, key) then None
    else
      var p := payload.fields;
      Some(Payload(
        Uuid(h, p["observation_id"]).value, Uuid(h, p["event_id"]).value, p["run_id"].s, p["scenario_id"].s,
        p["observed_at"].s, p["workload"].fields, p["image_digest"].s, Texts(p["evidence_references"]),
        p["behavior"].s, p["details"].fields, p["contract_snapshot"].fields, p["observed_state"].s,
        p["interval_complete"].b))
  }

  lemma ReadPayloadIsValid(h: Host, payload: Json, key: TrustedKey)
    requires h.Lawful() && ReadPayload(h, payload, key).Some?
    ensures ReadPayload(h, payload, key).value.Valid(h)
  {
    hide Identified, IsDigest;
  }

  datatype Window = Window(maxAgeSeconds: int, futureSkewSeconds: int)

  const DEFAULT_WINDOW := Window(300, 30)

  predicate Fresh(now: Datetime, observed: Datetime, w: Window) {
    -w.futureSkewSeconds * 1_000_000 <= now.micros - observed.micros <= w.maxAgeSeconds * 1_000_000
  }

  datatype Verified = Verified(
    payload: Payload, key: TrustedKey, signatureSha256: string, payloadSha256: string, contractVerified: bool)

  /** `verify_signed_observation` */
  function VerifySignedObservation(h: Host, envelope: Json, trust: TrustSet, now: Datetime, w: Window): Result<Verified,
      Refusal>
    requires h.Lawful()
  {
    if !envelope.Obj? || envelope.fields.Keys != ENVELOPE_FIELDS then Err(Rejected)
    else
      var f := envelope.fields;
      if f["algorithm"] != Str("Ed25519") then Err(UnsupportedAlgorithm)
      else
        match LookUp(trust, f["key_id"])
        case Err(e) => Err(e)
        case Ok(key) =>
          if !ApprovedSource(key.sourceType) then Err(Rejected)
          else
            match ReadPayload(h, f["payload"], key)
            case None => Err(Rejected)
            case Some(p) =>
              ReadPayloadIsValid(h, f["payload"], key);
              if !now.Aware() then Err(BadInput)
              else if !Fresh(now, p.Time(h), w) then Err(Stale)
              else if !f["signature"].Str? || !Signed(h, key, f["signature"].s, f["payload"].fields)
                then Err(InvalidSignature)
              else
                match VerifyNested(h, p.contract, trust)
                case Err(e) => Err(e)
                case Ok(attested) =>
                  Ok(Verified(p, key, h.sha256(h.b64decode(f["signature"].s).value), h.CanonicalSha256(f["payload"]),
                    attested))
  }

  // ---------- What verification establishes ----------

  /** An envelope whose well-formed payload is signed by the approved key its `key_id` names. */
  predicate Authentic(h: Host, envelope: Json, trust: TrustSet) {
    && envelope.Obj? && envelope.fields.Keys == ENVELOPE_FIELDS
    && envelope.fields["algorithm"] == Str("Ed25519")
    && LookUp(trust, envelope.fields["key_id"]).Ok?
    && var key := LookUp(trust, envelope.fields["key_id"]).value;
    && ApprovedSource(key.sourceType)
    && ReadPayload(h, envelope.fields["payload"], key).Some?
    && envelope.fields["signature"].Str?
    && Signed(h, key, envelope.fields["signature"].s, envelope.fields["payload"].fields)
  }

  function KeyOf(h: Host, envelope: Json, trust: TrustSet): TrustedKey
    requires Authentic(h, envelope, trust)
  {
    LookUp(trust, envelope.fields["key_id"]).value
  }

  function PayloadOf(h: Host, envelope: Json, trust: TrustSet): Payload
    requires Authentic(h, envelope, trust)
  {
    ReadPayload(h, envelope.fields["payload"], KeyOf(h, envelope, trust)).value
  }

  /** Acceptance, condition by condition: an authentic payload, a timezone-aware clock inside the
      window, and a nested snapshot that is not wrongly attested. */
  lemma VerifiedExactlyWhen(h: Host, envelope: Json, trust: TrustSet, now: Datetime, w: Window)
    requires h.Lawful()
    ensures Authentic(h, envelope, trust) ==> PayloadOf(h, envelope, trust).Valid(h)
    ensures VerifySignedObservation(h, envelope, trust, now, w).Ok? <==>
      && Authentic(h, envelope, trust)
      && now.Aware() && Fresh(now, PayloadOf(h, envelope, trust).Time(h), w)
      && VerifyNested(h, PayloadOf(h, envelope, trust).contract, trust).Ok?
    ensures VerifySignedObservation(h, envelope, trust, now, w).Ok? ==>
      var v := VerifySignedObservation(h, envelope, trust, now, w).value;
      && v.payload == PayloadOf(h, envelope, trust) && v.key == KeyOf(h, envelope, trust)
      && v.contractVerified == VerifyNested(h, v.payload.contract, trust).value
      && v.payloadSha256 == h.CanonicalSha256(envelope.fields["payload"])
      && h.b64decode(envelope.fields["signature"].s).Some?
      && v.signatureSha256 == h.sha256(h.b64decode(envelope.fields["signature"].s).value)
  {
    hide ReadPayload, VerifyNested;
    if Authentic(h, envelope, trust) { ReadPayloadIsValid(h, envelope.fields["payload"], KeyOf(h, envelope, trust)); }
  }

  /** The id of the key that attested a snapshot. */
  function RegistryKeyId(contract: Fields): Json {
    var att := Get(contract, "registry_attestation");
    if att.Obj? then Get(att.fields, "key_id") else Null
  }

  lemma NestedDependsOnRegistryKey(h: Host, contract: Fields, a: TrustSet, b: TrustSet)
    requires SameBinding(a, b, RegistryKeyId(contract))
    ensures VerifyNested(h, contract, a) == VerifyNested(h, contract, b)
  {}

  /** Verification depends on the trust set only through the signing key and the registry key, and
      on the clock only through freshness. */
  lemma VerificationIsLocal(h: Host, envelope: Json, a: TrustSet, b: TrustSet, t: Datetime, u: Datetime, w: Window)
    requires h.Lawful() && VerifySignedObservation(h, envelope, a, t, w).Ok?
    requires SameBinding(a, b, envelope.fields["key_id"])
    requires var p := VerifySignedObservation(h, envelope, a, t, w).value.payload;
      && SameBinding(a, b, RegistryKeyId(p.contract))
      && u.Aware() && (h.parseTime(p.observedAt).Some? ==> Fresh(u, p.Time(h), w))
    ensures VerifySignedObservation(h, envelope, b, u, w) == VerifySignedObservation(h, envelope, a, t, w)
  {
    hide ReadPayload, VerifyNested, VerifySignedObservation;
    VerifiedExactlyWhen(h, envelope, a, t, w);
    VerifiedExactlyWhen(h, envelope, b, u, w);
    NestedDependsOnRegistryKey(h, PayloadOf(h, envelope, a).contract, a, b);
  }

  /** Outside the window, the same observation is refused as stale under the same key binding. */
  lemma StaleOutsideTheWindow(h: Host, envelope: Json, a: TrustSet, b: TrustSet, t: Datetime, u: Datetime, w: Window)
    requires h.Lawful() && VerifySignedObservation(h, envelope, a, t, w).Ok?
    requires SameBinding(a, b, envelope.fields["key_id"]) && u.Aware()
    requires var p := VerifySignedObservation(h, envelope, a, t, w).value.payload;
      h.parseTime(p.observedAt).Some? && !Fresh(u, p.Time(h), w)
    ensures VerifySignedObservation(h, envelope, b, u, w) == Err(Stale)
  {
    hide ReadPayload, VerifyNested, Signed, ApprovedSource, Fresh;
  }
}
