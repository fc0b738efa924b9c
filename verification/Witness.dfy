/** A concrete case of the whole path, in the toy environment: its hypotheses can all be met together,
    and an outcome can be confirmed. */
module Witness {
  import opened Wrappers
  import opened Strings
  import opened Json
  import opened Host
  import opened Contract
  import opened Trust
  import opened TrustState
  import opened SignedObservation
  import opened Classification
  import opened Evaluation
  import opened EvidenceStore
  import opened Receipt
  import opened StoreInvariant
  import opened SinkRuntime
  import Runs
  import EndToEnd
  import Obs = Observer

  function Digest(): string { "sha256:" + seq(64, i => 'a') }

  function Workload(): Fields {
    map["cluster" := Str("c"), "namespace" := Str("n"), "name" := Str("w"), "deployment" := Str("d"),
        "image_digest" := Str(Digest())]
  }

  function Selector(): Fields { map["cluster_name" := Str("c"), "namespace" := Str("n")] }

  function Constraints(): Fields {
    map["allowed_executables" := Arr([Str("sh")]), "allowed_file_path_prefixes" := Arr([]),
        "allowed_syscall_classes" := Arr([Str("io")]), "allowed_purls" := Arr([]),
        "allowed_network_destinations" := Arr([]), "allowed_parent_child_pairs" := Arr([]),
        "allow_privilege_transition" := Bool(false), "max_new_processes_per_5m" := Int(0)]
  }

  function Snapshot(): Fields {
    map["contract_id" := Str("i"), "contract_version" := Str("1"), "verification_reference" := Str("v"),
        "image_digest" := Str(Digest()), "constraints" := Obj(Constraints()), "status" := Str("active"),
        "workload_selector" := Obj(Selector())]
  }

  function Signature(): string { Encode(Obj(Snapshot())) }

  function SnapshotEnvelope(): Json {
    Obj(map["key_id" := Str("r"), "algorithm" := Str("Ed25519"), "signature" := Str(Signature()),
      "payload" := Obj(Snapshot())])
  }

  function Keys(): TrustSet {
    TrustSet(map["r" := TrustedKey("r", "registry", REGISTRY, "r", true),
                 "k" := TrustedKey("k", "observer", "host_audit", "k", true)], {}, "store", 1, "sha256:x")
  }

  function Policies(): map<string, Obs.Policy> { map["s" := Obs.Policy("d", "conforming", "a", "executable")] }

  function TheObserver(): Obs.Observer { Obs.Observer("observer", "k", "k", Keys(), Policies(), "p", 300) }

  function TheAssertion(): Obs.Assertion {
    Obs.Assertion("run", "s", "e", Workload(), "succeeded", "a", true, "conforming", "executable",
      map["path" := Str("sh")], ["ref"], SnapshotEnvelope(), "t", true)
  }

  lemma DigestIsDigest()
    ensures IsDigest(Digest())
  {
    assert Digest()[..7] == "sha256:";
  }

  lemma EnvelopeFields()
    ensures var f := SnapshotEnvelope().fields;
      && SnapshotEnvelope().Obj? && f.Keys == ENVELOPE_FIELDS && f["algorithm"] == Str("Ed25519")
        && f["key_id"] == Str("r")
      && f["signature"] == Str(Signature()) && f["payload"] == Obj(Snapshot())
  {
    hide Signature, Snapshot;
  }

  lemma KeysBound()
    ensures LookUp(Keys(), Str("r")) == Ok(TrustedKey("r", "registry", REGISTRY, "r", true))
    ensures LookUp(Keys(), Str("k")) == Ok(TrustedKey("k", "observer", "host_audit", "k", true))
    ensures Keys().Valid()
  {}

  lemma NothingAdded()
    ensures "signature_verified" !in Snapshot() && "registry_attestation" !in Snapshot()
  {
    hide Constraints, Selector, Digest;
  }

  lemma SignedBySample(key: TrustedKey, f: Fields)
    ensures Signed(SAMPLE, key, Encode(Obj(f)), f)
  {
    hide Encode;
  }

  lemma SnapshotVerifies()
    ensures VerifyContractEnvelope(SAMPLE, SnapshotEnvelope(), Keys()) == Ok(Attested(Snapshot(), "r", Signature()))
  {
    hide Encode, Attested, Signed, SnapshotEnvelope, Snapshot, Keys, LookUp;
    EnvelopeFields();
    KeysBound();
    NothingAdded();
    SignedBySample(TrustedKey("r", "registry", REGISTRY, "r", true), Snapshot());
  }

  lemma Text(c: char)
    requires !IsSpace(c)
    ensures !Blank([c])
  {
    assert [c][0] == c;
  }

  lemma WorkloadFields()
    ensures Get(Workload(), "cluster") == Str("c") && Get(Workload(), "namespace") == Str("n")
    ensures Get(Workload(), "name") == Str("w") && Get(Workload(), "deployment") == Str("d")
    ensures Get(Workload(), "image_digest") == Str(Digest()) && "cluster_name" !in Workload()
  {
    hide Digest;
  }

  lemma WorkloadIdentified()
    ensures Identified(Workload())
  {
    WorkloadFields();
    Text('c');
    Text('n');
    Text('w');
    hide Workload, Blank;
  }

  lemma PolicyFound()
    ensures Policies().Keys == {"s"} && Policies()["s"] == Obs.Policy("d", "conforming", "a", "executable")
  {}

  lemma NoBlankTexts()
    ensures !Blank("run") && !Blank("ref") && !Blank("s")
  {
    assert "run"[0] == 'r' && "ref"[0] == 'r' && "s"[0] == 's';
  }

  lemma AssertionIsInOrder()
    ensures Obs.AssertionFault(SAMPLE, TheObserver(), TheAssertion()).None?
  {
    WorkloadFields();
    WorkloadIdentified();
    DigestIsDigest();
    NoBlankTexts();
    PolicyFound();
    hide Blank, Workload, IsDigest, Identified, SnapshotEnvelope, Keys, Digest, Policies;
  }

  function VerifiedSnapshot(): Fields { Attested(Snapshot(), "r", Signature()) }

  lemma SnapshotFields()
    ensures var c := VerifiedSnapshot();
      && Get(c, "contract_id") == Str("i") && Get(c, "contract_version") == Str("1")
      && Get(c, "verification_reference") == Str("v") && Get(c, "image_digest") == Str(Digest())
      && Get(c, "constraints") == Obj(Constraints()) && Get(c, "status") == Str("active")
      && Get(c, "workload_selector") == Obj(Selector()) && Get(c, "signature_verified") == Bool(true)
  {
    hide Digest, Constraints, Selector, Signature, Attestation;
  }

  lemma SelectorFields()
    ensures Get(Selector(), "cluster_name") == Str("c") && Get(Selector(), "namespace") == Str("n")
    ensures Get(Selector(), "service_account") == Null && "labels" !in Selector()
  {}

  lemma ConstraintsAreValid()
    ensures ValidConstraints(SAMPLE, Obj(Constraints()))
    ensures Get(Constraints(), "allowed_executables") == Arr([Str("sh")])
  {}

  lemma ContractApplies()
    ensures Applicable(SAMPLE, VerifiedSnapshot(), Workload())
  {
    SnapshotFields();
    SelectorFields();
    ConstraintsAreValid();
    WorkloadFields();
    DigestIsDigest();
    NoLabels();
    hide VerifiedSnapshot, Selector, Constraints, Workload, Digest, IsDigest, ValidConstraints;
  }

  lemma NoLabels()
    ensures "labels" !in Workload()
  {
    hide Digest;
  }

  lemma ObserverSigns()
    ensures Obs.Observe(SAMPLE, TheObserver(), TheAssertion(), "o", Datetime(0, Some(0))).Signing?
  {
    AssertionIsInOrder();
    SnapshotVerifies();
    SnapshotFields();
    SelectorFields();
    WorkloadFields();
    PolicyFound();
    hide Obs.AssertionFault, VerifyContractEnvelope, Workload, Selector, Attested, Snapshot, SnapshotEnvelope, Keys,
         Policies, Obs.PayloadFields, Obs.Envelope, Obs.SignedPayload, Digest;
  }

  /** A trust set that binds the two keys of the case. */
  predicate BindsBoth(trust: TrustSet) {
    && LookUp(trust, Str("r")) == Ok(TrustedKey("r", "registry", REGISTRY, "r", true))
    && LookUp(trust, Str("k")) == Ok(TrustedKey("k", "observer", "host_audit", "k", true))
  }

  lemma SinkMatches(trust: TrustSet)
    requires BindsBoth(trust)
    ensures Obs.Matching(SAMPLE, TheObserver(), TheAssertion(), trust) && TheObserver().Valid()
  {
    KeysBound();
    PolicyFound();
    EnvelopeFields();
    hide Keys, LookUp, Policies, VerifyContractEnvelope, Workload, SnapshotEnvelope;
  }

  lemma DetailsPath()
    ensures Get(Obs.DetailsWithPolicy(TheObserver(), TheAssertion(), Policies()["s"]), "path") == Str("sh")
  {
    hide Keys, Workload, SnapshotEnvelope;
  }

  lemma ContractSaysCompliance(p: Payload)
    requires p.contract == VerifiedSnapshot() && p.behavior == "executable" && p.complete
      && Get(p.details, "path") == Str("sh")
    ensures ContractVerdict(SAMPLE, p, Workload()) == Compliance
  {
    ContractApplies();
    SnapshotFields();
    ConstraintsAreValid();
    hide VerifiedSnapshot, Workload, Constraints, Applicable, Selector, Digest, FileAdmits, NetworkAdmits;
  }

  function Emitted(): Payload
    requires Obs.AssertionFault(SAMPLE, TheObserver(), TheAssertion()).None?
  {
    Obs.SignedPayload(SAMPLE, TheObserver(), TheAssertion(), VerifiedSnapshot(), "o")
  }

  lemma EmittedVerdict()
    ensures Obs.AssertionFault(SAMPLE, TheObserver(), TheAssertion()).None?
    ensures ContractVerdict(SAMPLE, Emitted(), Workload()) == Compliance
  {
    AssertionIsInOrder();
    DetailsPath();
    hide Obs.AssertionFault, ContractVerdict, Obs.DetailsWithPolicy, VerifiedSnapshot, Workload, SnapshotEnvelope, Keys;
    ContractSaysCompliance(Emitted());
  }

  lemma Clock()
    ensures Fresh(Datetime(0, Some(0)), SAMPLE.parseTime("t").value, DEFAULT_WINDOW) && SAMPLE.parseTime("t").Some?
    ensures SAMPLE.canonicalUuid("o") == Some("o")
  {}

  function TheSubmission(): Submission { EndToEnd.SubmissionOf(TheAssertion(), "done", map[]) }

  const NOW := Datetime(0, Some(0))

  /** In this case the observer signs, the sink accepts, and the stored outcome is a confirmed one, signed by
      the observer's key. */
  lemma AnOutcomeIsConfirmed(trust: TrustSet)
    requires BindsBoth(trust) && trust.Valid()
    ensures SAMPLE.Lawful() && Obs.Observe(SAMPLE, TheObserver(), TheAssertion(), "o", NOW).Signing?
    ensures
      var envelope := Obs.Observe(SAMPLE, TheObserver(), TheAssertion(), "o", NOW).envelope;
      var p := PrepareSigned(SAMPLE, TheSubmission(), envelope, trust, None, NOW, "t");
      p.Ok? && Confirmed(p.value.payload) && From(p.value, "k") && IdAccepted(SAMPLE, p.value)
  {
    hide Host.Lawful, Obs.Observe, Obs.Matching, Obs.Observer.Valid, TrustSet.Valid, Fresh, Blank, Keys, Workload,
         SnapshotEnvelope, Snapshot, Signature, Policies, LookUp, VerifyContractEnvelope, Attested, Obs.AssertionFault,
         Obs.SignedPayload, ContractVerdict, PrepareSigned, Confirmed, IdAccepted, AttestedBy;
    SampleIsLawful();
    PolicyFound();
    ObserverSigns();
    SinkMatches(trust);
    Clock();
    SnapshotVerifies();
    EmittedVerdict();
    NotBlank();
    EndToEnd.EmittedIsPrepared(SAMPLE, TheObserver(), TheAssertion(), "o", NOW, trust, NOW, "done", map[], "t");
  }

  lemma NotBlank() ensures !Blank("done") { assert "done"[0] == 'd'; }

  // ---------- A revoked key ----------

  function KeyEntry(id: string, source: string, sourceType: string): Json {
    Obj(map["key_id" := Str(id), "source_id" := Str(source), "source_type" := Str(sourceType),
      "public_key_pem" := Str(id),
            "independent_of_phantom" := Bool(true)])
  }

  function TrustFile(generation: int, keys: seq<Json>, revoked: seq<Json>): Json {
    Obj(map["schema_version" := Str("1.0"), "trust_store_id" := Str("store"), "generation" := Int(generation),
            "keys" := Arr(keys), "revoked_key_ids" := Arr(revoked)])
  }

  function RegistryEntry(): Json { KeyEntry("r", "registry", REGISTRY) }
  function ObserverEntry(): Json { KeyEntry("k", "observer", "host_audit") }

  function FirstFile(): Json { TrustFile(1, [RegistryEntry(), ObserverEntry()], []) }
  function SecondFile(): Json { TrustFile(2, [RegistryEntry()], [Str("k")]) }

  lemma EntryIsRead(id: string, source: string, sourceType: string)
    requires id != [] && source != [] && ApprovedSource(sourceType) && !Contains(id, "PRIVATE KEY")
    ensures ReadKey(SAMPLE, KeyEntry(id, source, sourceType)) == Some(TrustedKey(id, source, sourceType, id, true))
  {
    hide Contains, ApprovedSource;
    assert KeyEntry(id, source, sourceType).fields.Keys ==
      {"key_id", "source_id", "source_type", "public_key_pem", "independent_of_phantom"};
  }

  lemma EntriesAreRead()
    ensures ReadKey(SAMPLE, RegistryEntry()) == Some(TrustedKey("r", "registry", REGISTRY, "r", true))
    ensures ReadKey(SAMPLE, ObserverEntry()) == Some(TrustedKey("k", "observer", "host_audit", "k", true))
  {
    hide KeyEntry, ReadKey;
    EntryIsRead("r", "registry", REGISTRY);
    EntryIsRead("k", "observer", "host_audit");
  }

  lemma FileFields(generation: int, keys: seq<Json>, revoked: seq<Json>)
    ensures var f := TrustFile(generation, keys, revoked).fields;
      && f.Keys == {"schema_version", "trust_store_id", "generation", "keys", "revoked_key_ids"}
      && f["schema_version"] == Str("1.0") && f["trust_store_id"] == Str("store") && f["generation"] == Int(generation)
      && f["keys"] == Arr(keys) && f["revoked_key_ids"] == Arr(revoked)
  {}

  lemma HeaderIsValid(generation: int, keys: seq<Json>, revoked: seq<Json>)
    requires generation >= 1 && ValidRevokedList(Arr(revoked))
    ensures ValidHeader(TrustFile(generation, keys, revoked))
    ensures Entries(SAMPLE, TrustFile(generation, keys, revoked)) == seq(|keys|, i
      requires 0 <= i < |keys| => ReadKey(SAMPLE, keys[i]))
  {
    FileFields(generation, keys, revoked);
    assert !Blank("store") by { assert "store"[0] == 's'; }
    hide TrustFile, ReadKey, Blank, ValidRevokedList;
  }

  lemma FirstFileIsAccepted()
    ensures AcceptableTrustFile(SAMPLE, FirstFile())
    ensures var t := TrustSetOf(SAMPLE, FirstFile());
      && t.keys == map["r" := TrustedKey("r", "registry", REGISTRY, "r", true),
        "k" := TrustedKey("k", "observer", "host_audit", "k", true)]
      && t.revoked == {} && t.storeId == "store" && t.generation == 1
        && t.configSha256 == SAMPLE.CanonicalSha256(FirstFile())
  {
    hide TrustFile, ReadKey, RegistryEntry, ObserverEntry, Encode;
    EntriesAreRead();
    FileFields(1, [RegistryEntry(), ObserverEntry()], []);
    HeaderIsValid(1, [RegistryEntry(), ObserverEntry()], []);
    var r, k := TrustedKey("r", "registry", REGISTRY, "r", true), TrustedKey("k", "observer", "host_audit", "k", true);
    assert Entries(SAMPLE, FirstFile()) == [Some(r), Some(k)];
    TableOfTwo(r, k);
  }

  lemma TableOfTwo(a: TrustedKey, b: TrustedKey)
    ensures KeyTable([Some(a)]) == map[a.keyId := a] && KeyTable([Some(a), Some(b)]) == map[a.keyId := a, b.keyId := b]
  {
    assert [Some(a)][..0] == [] && [Some(a), Some(b)][..1] == [Some(a)];
  }

  lemma SecondFileIsAccepted()
    ensures AcceptableTrustFile(SAMPLE, SecondFile())
    ensures var t := TrustSetOf(SAMPLE, SecondFile());
      && t.keys == map["r" := TrustedKey("r", "registry", REGISTRY, "r", true)]
      && t.revoked == {"k"} && t.storeId == "store" && t.generation == 2
        && t.configSha256 == SAMPLE.CanonicalSha256(SecondFile())
  {
    hide TrustFile, ReadKey, RegistryEntry, ObserverEntry, Encode;
    EntriesAreRead();
    Text('k');
    FileFields(2, [RegistryEntry()], [Str("k")]);
    HeaderIsValid(2, [RegistryEntry()], [Str("k")]);
    var r := TrustedKey("r", "registry", REGISTRY, "r", true);
    assert Entries(SAMPLE, SecondFile()) == [Some(r)];
    TableOfTwo(r, r);
    assert [Str("k")][0] == Str("k");
  }

  function FirstRow(): TrustRow { TrustRow("store", 1, SAMPLE.CanonicalSha256(FirstFile()), {"r", "k"}, {}) }

  function FirstTrust(): TrustSet
    requires AcceptableTrustFile(SAMPLE, FirstFile())
  {
    TrustSetOf(SAMPLE, FirstFile())
  }

  lemma FirstFileBoots()
    ensures AcceptableTrustFile(SAMPLE, FirstFile())
    ensures Boot(SAMPLE, None, FirstFile()) == Some((FirstRow(), FirstTrust()))
    ensures BindsBoth(FirstTrust()) && FirstTrust().Valid()
  {
    hide AcceptableTrustFile, TrustSetOf, FirstFile, Host.CanonicalSha256;
    FirstFileIsAccepted();
    LoadedTrustIsValid(SAMPLE, FirstFile());
    HashIsTagged(FirstFile());
    var t := FirstTrust();
    assert t.keys.Keys == {"r", "k"};
    assert t.(revoked := {}) == t;
  }

  lemma SecondFileBoots()
    ensures Boot(SAMPLE, Some(FirstRow()), SecondFile()).Some?
    ensures "k" in Boot(SAMPLE, Some(FirstRow()), SecondFile()).value.0.revoked
  {
    hide AcceptableTrustFile, TrustSetOf, FirstFile, SecondFile, Host.CanonicalSha256;
    SecondFileIsAccepted();
    HashIsTagged(SecondFile());
    var t := TrustSetOf(SAMPLE, SecondFile());
    assert t.keys.Keys == {"r"};
    assert {"r", "k"} <= {"r"} + {"k"};
  }

  lemma HashIsTagged(file: Json)
    ensures |SAMPLE.CanonicalSha256(file)| >= 7 && SAMPLE.CanonicalSha256(file)[..7] == "sha256:"
  {
    hide Encode;
  }

  ghost predicate Emits(outcome: string, envelope: Json) {
    Obs.Observe(SAMPLE, TheObserver(), TheAssertion(), "o", NOW) == Obs.Signing(outcome, envelope)
  }

  /** A run from the empty database: a process starts and receives the observation, a second process starts
      with a file that revokes the observer's key, and then the first one commits. The run ends with a
      confirmed receipt of a key that was already revoked. */
  lemma ARevokedKeyIsStillCommitted() returns (outcome: string, envelope: Json)
    ensures Emits(outcome, envelope)
    ensures SAMPLE.Lawful() && Runs.EndsWithRevokedKey(SAMPLE,
      Runs.LateCommit(FirstFile(), TheSubmission(), envelope, NOW, "t", SecondFile()), "k")
  {
    hide Host.Lawful, Obs.Observe, Boot, PrepareSigned, Confirmed, From, IdAccepted, BindsBoth, TrustSet.Valid,
         FirstFile, SecondFile, FirstRow, FirstTrust, TheSubmission, Runs.EndsWithRevokedKey, Runs.LateCommit;
    FirstFileBoots();
    SecondFileBoots();
    AnOutcomeIsConfirmed(FirstTrust());
    var decision := Obs.Observe(SAMPLE, TheObserver(), TheAssertion(), "o", NOW);
    outcome, envelope := decision.outcome, decision.envelope;
    Runs.RevokedKeyStillCommitted(SAMPLE, FirstFile(), TheSubmission(), envelope, NOW, "t", SecondFile(), "k");
  }

  // ---------- A blank run id ----------

  lemma SameKeys(trust: TrustSet)
    ensures SameBinding(trust, trust, Str("r"))
  {}

  lemma NestedVerifies()
    ensures VerifyNested(SAMPLE, VerifiedSnapshot(), Keys()) == Ok(true)
  {
    hide Signed, VerifyContractEnvelope, VerifyNested, SnapshotEnvelope, Snapshot, Signature, Attested, Keys;
    SampleIsLawful();
    SnapshotVerifies();
    EnvelopeFields();
    KeysBound();
    SameKeys(Keys());
    EnvelopeThenNested(SAMPLE, SnapshotEnvelope(), Keys(), Keys());
  }

  lemma EmittedIsValid()
    ensures Obs.AssertionFault(SAMPLE, TheObserver(), TheAssertion()).None? && Emitted().Valid(SAMPLE)
    ensures Emitted().observedAt == "t" && Emitted().contract == VerifiedSnapshot()
  {
    hide Host.Lawful, Obs.AssertionFault, Workload, SnapshotEnvelope, Keys, Policies, VerifiedSnapshot,
         Obs.DetailsWithPolicy, Identified, IsDigest;
    SampleIsLawful();
    PolicyFound();
    Clock();
    AssertionIsInOrder();
    Obs.SignedPayloadIsValid(SAMPLE, TheObserver(), TheAssertion(), VerifiedSnapshot(), "o");
  }

  /** The evaluator accepts an observation whose run id is one space; the store then refuses the receipt. */
  lemma ABlankRunIdIsRefusedLate()
    ensures Obs.AssertionFault(SAMPLE, TheObserver(), TheAssertion()).None? && SAMPLE.Lawful()
    ensures
      var p := Emitted().(runId := " ");
      var envelope := Obs.Envelope(SAMPLE, TheObserver(), Obs.PayloadFields(p, "observer"));
      var s := Submission(Request(" ", "s", p.workload), "done", map[]);
      && Evaluate(SAMPLE, envelope, Keys(), s.request, NOW, DEFAULT_WINDOW, "t").Ok?
      && PrepareSigned(SAMPLE, s, envelope, Keys(), None, NOW, "t") == Err(InvalidReceipt)
  {
    hide Host.Lawful, Obs.AssertionFault, VerifyNested, VerifiedSnapshot, Keys, LookUp, Obs.Envelope, Obs.PayloadFields,
         Evaluate, PrepareSigned, Identified, IsDigest, Workload, TrustSet.Valid, Emitted, Policies;
    SampleIsLawful();
    EmittedIsValid();
    EmittedScenario();
    NestedVerifies();
    KeysBound();
    Clock();
    assert Blank(" ");
    EndToEnd.BlankRunIdIsRefusedLate(SAMPLE, TheObserver(), Emitted().(runId := " "), Keys(), NOW, "t", "done", map[]);
  }

  lemma EmittedScenario()
    requires Obs.AssertionFault(SAMPLE, TheObserver(), TheAssertion()).None?
    ensures Emitted().scenarioId == "s"
  {
    hide Obs.AssertionFault, Workload, SnapshotEnvelope, Keys, Policies, VerifiedSnapshot, Obs.DetailsWithPolicy;
  }
}
