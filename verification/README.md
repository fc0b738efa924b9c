# Evidence sink, contract oracle and evaluation arithmetic, in Dafny

A model of the evidence path of the evaluation harness and of the arithmetic of its reports, with proofs.
`dafny verify dfyconfig.toml` checks all of it.

**The evidence path.** A scenario observer signs what it saw (`Observer`). The oracle authenticates the
signed observation and the contract snapshot nested in it (`SignedObservation`), classifies observed
behaviour against the contract (`Contract`, `Classification`), and confirms a verdict only when it
agrees with the signed state (`Evaluation`). The sink turns the result into a receipt (`Receipt`), stores it
exactly once in an append-only database (`EvidenceStore`, `StoreInvariant`, `ExactlyOnce`), and keeps a trust
row that only ever gains revocations (`Trust`, `TrustState`). `EndToEnd` joins these parts, and `Witness`
holds concrete cases. `SinkRuntime` is one process of the service; `Runs` is the whole system: any number of
processes that start, stop, crash before a commit, evaluate submissions and commit them over one database,
in any order. `Backup` is the publish protocol of backup and restore as steps of racing writers on a file
system, where each step may crash or fail; `BackupRaces` says who wins, and `BackupPowerLoss` adds power
losses that take away what has not been flushed.

**The report arithmetic.** `Wilson` is the score interval, `Statistics` the latency statistics with their
bootstrap, `Baseline` and `Confusion` the classification of detections, `Report` the rates, and `Split` the
train/validation/test split. `Documented` compares the reported attack counts with their documentation,
`DocumentedBenign` the benign ones by way of `Coverage`, and `DocumentedCases` has runs where they differ.

The classes of the source are classes here (`DurableEvidenceSink`, the sink process), its loops are loops, and
each method is tied by its contract to a function on values; the theorems are about those functions.

## Modelling decisions

- The library calls are one record of functions, `Host`. Its laws: SHA-256 and uuid5 are injective, a
  signature made with a key verifies under it, timestamps and UUIDs are stable under reformatting. Nothing
  is assumed about signatures nobody made. `SampleIsLawful` shows that the laws are consistent, and
  `Witness` plays one whole case in that sample environment.
- JSON is a datatype with string keys and floats kept as their text. The canonical writer and a reader are
  modelled character by character, not assumed to be inverse.
- A transaction is atomic, as `BEGIN IMMEDIATE` makes it; a crash before commit loses only what the process
  had pending. The two tables are modelled with their PRIMARY KEY and UNIQUE constraints, and an insert can fail.
- Time is a parameter. Random numbers are a parameter: the bootstrap theorems hold for every stream.
- The report arithmetic is over exact reals. A square root is any nonnegative number with the right square;
  rounding is to nearest with ties to even, as a function.

## Where the code and its documentation differ

The model follows the code.

- evaluator.py documents a true positive as a detection inside the detection window after the injection. The
  code also asks for the attack phase, which starts later, and credits a detection to the first matching
  window only. The two agree on all streams of detections exactly when every detection window lies inside
  its attack phase and no two overlap (`Documented.CountsAsDocumentedExactlyWhen`, and for the reported counts
  `Documented.AttacksAsDocumentedExactlyWhen`); `DocumentedCases.EarlyDetectionIsMissed` is a case where they do
  not.
- evaluator.py documents a false positive as a detection during a benign run. The code looks for it in three of
  the phases and outside attack windows. The two agree on all nonempty streams exactly when each benign run is
  covered by its observed phases, end by end, and meets no attack window, which a test on the times of phases
  decides (`DocumentedBenign.FalsePositivesAsDocumentedExactlyWhen`, `Coverage.AlarmSpanExactlyWhen`).
- evaluator.py documents a true negative as a benign run without detection. The code subtracts the number of
  false alarms from the number of benign runs, so each repeated alarm in one run costs a true negative and each
  noisy run it overlooks gains one (`DocumentedBenign.TrueNegativesAsDocumented`). On all nonempty streams the
  two agree exactly when benign runs take no time, or there is one benign run and the same test holds
  (`DocumentedBenign.AlwaysAsDocumentedExactlyWhen`). `RepeatedAlarmsHideAQuietRun`, `RecoveryIsNotObserved` and
  `AttackTakesTheAlarm` are cases where they do not.
- Without any detection no count is reported at all, although by the documentation every benign run is then a
  true negative and every valid attack run a false negative (`DocumentedBenign.SilenceIsNotReported`).
- `verify_signed_observation` accepts ids made of white space and `validate_receipt` does not, so "nothing
  accepted is refused later" holds exactly for nonblank texts (`Receipt.EvaluatedReceiptIsValid`, with the
  case `Witness.ABlankRunIdIsRefusedLate`).
- `backup_database` can report an error after it has published the file: exactly when the removal of the
  temporary name or the directory sync fails (`BackupRaces.FailurePublishedExactlyWhenLate`). What it published
  without the directory sync may be lost in a power loss (`BackupPowerLoss.PublishedCanDisappear`); what it
  reported as a success may not (`BackupPowerLoss.AcknowledgedBackupSurvives`).
- A transaction does not look at the trust row, so a process that started before a revocation can still
  commit a confirmed receipt of the revoked key (`Witness.ARevokedKeyIsStillCommitted`). A commit does so
  exactly when the submission is new and from that key (`Runs.CommitStepAddsExactly`); once every live
  process distrusts the key and has nothing of it pending, it never happens again
  (`Runs.RunRespectsRevocation`).
- `submit` accepts an unknown-outcome receipt that carries verification metadata and consumes nothing
  (`ExactlyOnce.ClaimWithoutConsuming`); exactly the items submitted with a verified observation have one
  consumed (`ExactlyOnce.ConsumedExactlyForSigned`).
- A byte-identical retry is idempotent only inside the freshness window, since it is evaluated again
  (`EndToEnd.RetriedSubmission`).
- F1 goes unreported for some positive counts (`Report.F1ReportedExactlyWhen`).

## Model

| member | source | states |
|---|---|---|
| `Json.RoundTrip` | research/evaluation/oracle.py:158-165 | canonical JSON text of any value (sorted keys, minimal separators, escapes, ints and float text) parses back to exactly that value |
| `Json.EncodeInjective` | research/evaluation/oracle.py:401-403 | equal canonical texts carry equal values, so a hash or signature over the text binds the value |
| `Host.SampleIsLawful` | research/evaluation/evidence_store.py:353-354 | the assumptions about SHA-256, uuid5, timestamps, base64 and Ed25519 are consistent: a sample environment meets them all |
| `Contract.FileRuleIsComponentPrefix` | research/evaluation/oracle.py:415-421 | the file rule, over all strings, admits a path exactly when the directory, without trailing slashes, is a prefix of it by path components |
| `Contract.ComponentPrefix` | research/evaluation/oracle.py:415-421 | "equal, or extended by a slash" is component prefixing, for any two strings |
| `Contract.MembershipIsLeadingBits` | research/evaluation/oracle.py:433-441 | an address is in a CIDR block exactly when it has the same version and agrees with the block on every leading bit (section 3.1 of RFC 4632) |
| `Contract.WideningKeepsMembers` | research/evaluation/oracle.py:433-441 | a block with a shorter prefix that contains the narrower block keeps all its addresses |
| `Contract.LooseningKeepsConforming` | research/evaluation/oracle.py:406-460 | longer allow-lists, an ancestor directory, a wider block or port range, or permitted privilege transition keep every conforming record conforming, and never change whether a record can be assessed |
| `Contract.UnenforcedConstraints` | research/evaluation/oracle.py:463-498 | two constraint fields that are validated take no part in any verdict: the process rate and the parent/child pairs |
| `Trust.FillKeyTable` | research/evaluation/oracle.py:127-155 | the loop over key entries accepts exactly lists that are all readable, name no key twice and none revoked, and returns the table of those entries |
| `Trust.LoadTrustedOracleKeys` | research/evaluation/oracle.py:102-155 | a trust file is accepted exactly when header, revocation list and entries are acceptable, and gives the key set it describes |
| `Trust.LoadedTrustIsValid` | research/evaluation/oracle.py:102-155 | every loaded key is listed under its own nonempty id with an approved source type, and none is revoked |
| `Trust.SameHashSameTrust` | research/evaluation/oracle.py:119-126 | two trust files with one configuration hash are the same document and load the same key set |
| `SignedObservation.StrippingRecoversPayload` | research/evaluation/oracle.py:206-230 | removing the fields an attestation adds recovers exactly the payload the registry signed |
| `SignedObservation.EnvelopeThenNested` | research/evaluation/oracle.py:168-230 | a snapshot accepted as an envelope is accepted again where it is nested, under any trust set that binds its registry key the same way |
| `SignedObservation.ReadPayloadIsValid` | research/evaluation/oracle.py:233-324 | a payload that passes the shape checks has canonical identifiers, an aware timestamp, an immutable digest and consistent states |
| `SignedObservation.VerifiedExactlyWhen` | research/evaluation/oracle.py:233-324 | verification succeeds exactly for an authentic payload, an aware clock inside the freshness window, and then returns that payload, its key, its hashes and whether the nested contract verified |
| `SignedObservation.VerificationIsLocal` | research/evaluation/oracle.py:233-324 | the result depends on the trust set only through the signing key and the registry key, and on the clock only through the window |
| `SignedObservation.StaleOutsideTheWindow` | research/evaluation/oracle.py:233-324 | outside the freshness window the same observation is refused as stale |
| `Classification.ClassifyContractObservations` | research/evaluation/oracle.py:519-627 | the one-pass loop that remembers a fingerprint for each event computes the order-free classification, and refuses empty ids |
| `Classification.ReadAll` | research/evaluation/oracle.py:575-602 | the reading loop, which remembers a fingerprint for each event, returns the first fault of the list, or every record parsed in order |
| `Classification.ReadOne` | research/evaluation/oracle.py:577-602 | one iteration reads a record and finds its fault, alone or against the records before it, by comparing its fingerprint with the one remembered for its event |
| `Classification.JudgeAll` | research/evaluation/oracle.py:608-617 | the loop over parsed records returns the verdict: violation if any record violates, compliance only if all conform and the interval is complete, else unknown |
| `Classification.NoFaultIsAdmissible` | research/evaluation/oracle.py:575-602 | reading meets no fault exactly when every record answers the question and records of one event are identical |
| `Classification.FingerprintsFindContradictions` | research/evaluation/oracle.py:595-601 | comparing hashes with the remembered one finds exactly the contradictory records of an event |
| `Classification.OnlyTheSetMatters` | research/evaluation/oracle.py:575-627 | outcome, references, basis and identities are unchanged by reordering or repeating records; only the wording of a refusal can differ |
| `Classification.CombinedVerdict` | research/evaluation/oracle.py:608-617 | the verdict of two jointly admissible lists together is the worse of their verdicts, in the order compliance, unknown, violation |
| `Classification.LooseningNeverWorsens` | research/evaluation/oracle.py:519-627 | replacing the constraints of a contract by looser ones never worsens the verdict |
| `Classification.ClockIsOnlyRecorded` | research/evaluation/oracle.py:519-627 | the assessment time is copied into the result and decides nothing |
| `Evaluation.RecordIsReadable` | research/evaluation/oracle.py:712-723 | whatever the verifier accepted is readable by the classifier: no authentic observation is called malformed later |
| `Evaluation.ClassifiedIsContractVerdict` | research/evaluation/oracle.py:519-742 | on the single record of a verified observation the classifier computes what the contract says about the signed behaviour |
| `Evaluation.JudgedVerdict` | research/evaluation/oracle.py:643-742 | after authentication the verdict is that of the contract when the key is independent, references exist, the snapshot is attested and the signed state agrees; otherwise unknown |
| `Evaluation.ConfirmedExactlyWhen` | research/evaluation/oracle.py:643-742 | an outcome other than unknown is returned exactly when the envelope is authentic and fresh, its key unrevoked and independent, identity matches, references and an attested snapshot are present, and the recomputed verdict is the signed state |
| `Observer.PayloadRoundTrip` | research/evaluation/scenario_observer.py:195-213 | the payload fields the observer writes are read back by the verifier as the same payload |
| `Observer.EmittedIsAccepted` | research/evaluation/scenario_observer.py:137-221 | every emitted envelope verifies, with its contract snapshot verified, under any trust set that binds the two keys, inside the freshness window |
| `Observer.SignerAndVerifierAgree` | research/evaluation/scenario_observer.py:137-221 | evaluating an emitted envelope gives the state of the policy or unknown, and the state of the policy exactly when the key is independent and the contract itself yields it |
| `Receipt.ValidationIsIdempotent` | research/evaluation/evidence_store.py:53-147 | validating a validated receipt returns it unchanged |
| `Receipt.StaysValid` | research/evaluation/evidence_store.py:355-362 | putting the derived receipt id into a validated receipt leaves it valid and normalized |
| `Receipt.AcceptedReceiptIsValid` | research/evaluation/evidence_store.py:53-147 | the receipt of a sound result passes validation exactly when run id, scenario id and processing outcome are not blank |
| `Receipt.EvaluatedReceiptIsValid` | research/evaluation/evidence_store.py:310-349 | nothing the evaluator accepts is refused by validation, except for a blank run id, scenario id or processing outcome (the verifier lets blank ids through, validation does not) |
| `Receipt.UnsignedReceiptIsValid` | research/evaluation/evidence_store.py:505-535 | an attempt without signed evidence is storable exactly when its texts are not blank and its event id is absent or a UUID, and is never confirmed |
| `Receipt.EvaluationIsSound` | research/evaluation/oracle.py:643-742 | every accepted evaluation names the requested run, scenario and workload, and a confirmed one has references, basis, contract identity and verified statuses |
| `Receipt.KeyIdentifies` | research/evaluation/evidence_store.py:223-229 | the idempotency key identifies run, scenario and event: equal keys exactly for equal triples |
| `Receipt.SameContentSameKey` | research/evaluation/evidence_store.py:231-239 | receipts with the same retry view have the same idempotency key |
| `Receipt.EqualUpToNumbers` | research/evaluation/evidence_store.py:231-239 | the retry comparison is coarser than equality: for every valid receipt, two provenances equal up to Booleans, ints and integral floats give two valid receipts with the same retry view |
| `Receipt.TrueAndOneAreTheSameContent` | research/evaluation/evidence_store.py:231-239 | in particular every valid receipt has two different valid variants, one with true and one with 1 in its provenance, that count as the same content |
| `TrustState.ApplyEvolves` | research/evaluation/evidence_store.py:241-302 | one accepted configuration keeps active and revoked disjoint, only adds revocations, never lowers the generation, keeps the store id, and keeps every active key active or revoked |
| `TrustState.TrustHistory` | research/evaluation/evidence_store.py:251-302 | the same between any two points of any sequence of configurations |
| `TrustState.RevokedNeverReactivated` | research/evaluation/evidence_store.py:251-302 | no sequence of later configurations makes a revoked key active again |
| `EvidenceStore.DurableEvidenceSink.constructor` | research/evaluation/evidence_store.py:153-202 | opening an existing database keeps its tables; a new one has no rows |
| `EvidenceStore.DurableEvidenceSink.ApplyTrustConfiguration` | research/evaluation/evidence_store.py:241-302 | the trust row changes as the configuration rules say, nothing else changes, and a refused configuration changes nothing |
| `EvidenceStore.DurableEvidenceSink.Fetch` | research/evaluation/evidence_store.py:408-422 | the requested id is normalized as a UUID; the stored receipt comes back with its hash, or the reason it cannot be read |
| `EvidenceStore.DurableEvidenceSink.Commit` | research/evaluation/evidence_store.py:351-406 | one transaction: all tables change together as specified, or none does |
| `EvidenceStore.DurableEvidenceSink.Submit` | research/evaluation/evidence_store.py:304-308 | a raw receipt is validated and committed |
| `EvidenceStore.DurableEvidenceSink.SubmitSignedObservation` | research/evaluation/evidence_store.py:310-349 | a signed observation is evaluated, its receipt validated and committed with the observation it consumes |
| `StoreInvariant.InsertNeverFails` | research/evaluation/evidence_store.py:390-405 | in a good store the inserts of a new item hit no primary key or UNIQUE constraint: the IntegrityError branch is unreachable |
| `StoreInvariant.KnownItem` | research/evaluation/evidence_store.py:351-380 | an item whose key is stored changes nothing: the stored receipt when the content is the same, a conflict otherwise, never a replay |
| `StoreInvariant.NewItem` | research/evaluation/evidence_store.py:381-406 | a new item is added with its observation, returned with its hash, and leaves a good store |
| `StoreInvariant.OneTransaction` | research/evaluation/evidence_store.py:351-406 | every transaction keeps the invariant, removes nothing, changes the tables exactly when the item is new, and acknowledges exactly what is stored |
| `StoreInvariant.SignedIsPrepared` | research/evaluation/evidence_store.py:310-349 | what a signed submission hands to the transaction is a normalized valid receipt that rests on the observation it consumes |
| `StoreInvariant.RawIsPrepared` | research/evaluation/evidence_store.py:304-308 | what a raw submission hands to the transaction is a normalized valid receipt that is not confirmed |
| `StoreInvariant.ReadBack` | research/evaluation/evidence_store.py:408-422 | every receipt of a good store is read back as stored |
| `StoreInvariant.ConfirmedReceiptsAreInjective` | research/evaluation/evidence_store.py:304-405 | no two confirmed receipts rest on one signed observation, and no two consumed rows point to one receipt |
| `ExactlyOnce.RunKeepsInv` | research/evaluation/evidence_store.py:351-406 | any sequence of transactions keeps the store good and only adds to it |
| `ExactlyOnce.RetryIsIdempotent` | research/evaluation/evidence_store.py:351-380 | after an acknowledgement, a retry with the same content gets the same receipt and changes nothing, in every later store |
| `ExactlyOnce.StoreIsFirstItems` | research/evaluation/evidence_store.py:351-406 | the store after any sequence of committed transactions is the store after each first-accepted item once |
| `ExactlyOnce.OneReceiptPerItem` | research/evaluation/evidence_store.py:351-406 | after distinct new items the store holds exactly one receipt for each, and no two items share a key or an observation |
| `ExactlyOnce.ConsumedExactlyForSigned` | research/evaluation/evidence_store.py:304-349 | among the items of a run exactly those submitted with a verified observation have one consumed and pointing to them; confirmed receipts always do |
| `ExactlyOnce.ClaimWithoutConsuming` | research/evaluation/evidence_store.py:304-308 | any valid unconfirmed receipt may carry verification metadata naming any key and observation: it is accepted, claims that observation, and consumes nothing |
| `ExactlyOnce.UnsignedMayClaim` | research/evaluation/evidence_store.py:304-308 | such receipts exist: every attempt recorded without a signature can be given such metadata |
| `SinkRuntime.Service.Start` | research/evaluation/evidence_sink_service.py:66-73 | a restart loads the trust file, applies it, and keeps the accumulated revocations; a refused file leaves the database unchanged |
| `SinkRuntime.Service.SubmitReceipt` | research/evaluation/evidence_sink_service.py:148-179 | a request with a signed observation is submitted under the key set of the process; one without is recorded as an unknown attempt; a refused one changes nothing |
| `SinkRuntime.Service.VerifyReceipt` | research/evaluation/evidence_sink_service.py:190-229 | re-verification reads the receipt and evaluates it again with the clock at the signed time, and changes nothing |
| `SinkRuntime.SignedIsVouched` | research/evaluation/evidence_sink_service.py:148-179 | whatever is prepared under a key set is signed by a key trusted there, and if confirmed, with a contract attested by a key trusted there |
| `SinkRuntime.EvaluationIsStable` | research/evaluation/evidence_sink_service.py:190-229 | evaluating again at the signed time, under a trust set that binds the same two keys, gives the same verdict and hashes |
| `SinkRuntime.ReverificationIsStable` | research/evaluation/evidence_sink_service.py:190-229 | every receipt stored from a signed submission re-verifies at any later time, in any later store, under any trust set that binds the same two keys |
| `EndToEnd.EmittedIsPrepared` | research/evaluation/evidence_sink_service.py:148-179 | an observation the observer signed reaches the store whenever the sink trusts the two keys, the clock is inside the window and the processing outcome is not blank, and is confirmed exactly when the key is independent and the contract yields the state of the policy |
| `EndToEnd.RetriedSubmission` | research/evaluation/evidence_store.py:310-349 | a client that submits the same observation again, under any trust set that binds the same keys, makes the very same submission inside the freshness window and is refused as stale outside it |
| `EndToEnd.StoredForGood` | research/evaluation/evidence_store.py:310-406 | a signed submission whose item and observation are new is acknowledged; in every later good store the same receipt is there and re-verifies; a client retry is evaluated again and gets the same receipt inside the window, and is refused before the store is touched outside it |
| `EndToEnd.BlankRunIdIsRefusedLate` | research/evaluation/evidence_store.py:53-147 | an observation whose run id is white space is accepted by the evaluator, and its receipt is refused by validation |
| `EndToEnd.StoredVerdict` | research/evaluation/evidence_store.py:310-349 | the stored receipt is confirmed exactly when the evaluation reached a verdict |
| `Witness.AnOutcomeIsConfirmed` | research/evaluation/oracle.py:643-742 | the hypotheses of these theorems can be met together: in a concrete case the observer signs, the sink accepts and the stored outcome is confirmed |
| `Witness.ARevokedKeyIsStillCommitted` | research/evaluation/evidence_store.py:351-406 | a concrete run from the empty database with two processes that ends with a confirmed receipt of a key that was already recorded as revoked |
| `Witness.ABlankRunIdIsRefusedLate` | research/evaluation/evidence_store.py:53-147 | a concrete observation with a blank run id that is accepted and whose receipt is refused |
| `Runs.BootAgrees` | research/evaluation/evidence_sink_service.py:66-73 | a process that comes up has exactly the active keys and revocations of the row it leaves, also when the generation did not change |
| `Runs.StepKeepsInv` | research/evaluation/evidence_sink_service.py:66-179 | every step of the system (start, stop, receive, commit) keeps the invariant of store, trust row and running processes |
| `Runs.RunKeepsInv` | research/evaluation/evidence_sink_service.py:66-179 | so does every run, and an acknowledged receipt is unchanged in every later state |
| `Runs.ReachableStoresAreGood` | research/evaluation/evidence_store.py:304-405 | every reachable store is good: valid rows, one consumed row for each confirmed receipt, each consumed row pointing to its receipt |
| `Runs.RetryInAnyRun` | research/evaluation/evidence_store.py:351-380 | a retry after any run of any processes gets the acknowledged receipt |
| `Runs.RunIsItsCommits` | research/evaluation/evidence_store.py:351-406 | the tables after any run of any processes, with crashes and restarts, are those of committing one submission after another |
| `Runs.ExactlyOnceInEveryRun` | research/evaluation/evidence_store.py:351-406 | exactly once: after any run the tables are those of each first-accepted item once, with one receipt for each and no shared key or observation |
| `Runs.CommitAddsExactly` | research/evaluation/evidence_store.py:351-406 | a commit adds something that rests on a key exactly when the submission is new and is signed by that key, or confirmed with a contract it attested, whatever the trust row says |
| `Runs.CommitStepAddsExactly` | research/evaluation/evidence_store.py:351-406 | the same for a commit step of a running system |
| `Runs.RunRespectsRevocation` | research/evaluation/evidence_store.py:241-302 | once a key is recorded as revoked, and every live process distrusts it and has nothing of it pending, no later run adds anything that rests on it, whatever files follow |
| `Runs.RevocationIsPermanent` | research/evaluation/evidence_store.py:241-302 | in particular after a restart that leaves the key revoked in the row, whether by its own file or an earlier one, when it is the only process or the others are harmless |
| `Runs.FileRevocations` | research/evaluation/evidence_store.py:241-302 | a key that the loaded file lists as revoked is revoked in the row the process leaves |
| `Runs.RevokedKeyStillCommitted` | research/evaluation/evidence_store.py:351-406 | otherwise it can fail: a process prepares a submission, another one records the revocation, and the first commits a confirmed receipt of the revoked key |
| `Runs.TrustOverRuns` | research/evaluation/evidence_store.py:241-302 | the trust row evolves monotonically over every run |
| `Backup.VerifyDatabase` | research/evaluation/evidence_backup.py:29-56 | the loop returns the number of receipts exactly when every row verifies |
| `Backup.GoodStoresVerify` | research/evaluation/evidence_backup.py:29-56 | every good store verifies and every receipt in it can be read |
| `Backup.StepKeepsFsInv` | research/evaluation/evidence_backup.py:85-132 | every step of any racer, and a crash after any step, keeps the file-system invariant |
| `Backup.StepNeverOverwrites` | research/evaluation/evidence_backup.py:118-119 | a published file keeps its name and bytes, and only a complete verified snapshot is ever given the name |
| `Backup.DestinationIsSafe` | research/evaluation/evidence_backup.py:85-132 | over every run, without power losses, of any number of racers the destination is absent or a complete verified snapshot, and is never overwritten |
| `BackupRaces.OneLink` | research/evaluation/evidence_backup.py:118-119 | over a whole run the destination is linked at most once, whoever crashes or fails afterwards |
| `BackupRaces.OneWinner` | research/evaluation/evidence_backup.py:85-132 | the published file belongs to at most one racer, whatever became of it, and a racer that reports success published the very file at the destination |
| `BackupRaces.ExactlyOneSucceeds` | research/evaluation/evidence_backup.py:85-132 | on a free destination with verifying sources, when all racers finish without a crash or a failing call, exactly one succeeds and the others fail |
| `BackupRaces.ARacerSucceeds` | research/evaluation/evidence_backup.py:85-132 | and it can happen: a racer left to itself succeeds and publishes the newest source version |
| `BackupRaces.NobodyWinsOverAnExistingFile` | research/evaluation/evidence_backup.py:94-95 | no racer wins when the destination existed |
| `BackupRaces.FailurePublishedExactlyWhenLate` | research/evaluation/evidence_backup.py:118-132 | over every run, a racer that reports a failure has its file at the destination exactly when the call that failed was the removal of the temporary name or the directory sync |
| `BackupRaces.LateFailuresHappen` | research/evaluation/evidence_backup.py:120-132 | both of those failures occur in a run from a free destination: the racer reports a failure, the handler has removed the temporary name, and the newest snapshot stays published |
| `Backup.RestorePreserves` | research/evaluation/evidence_backup.py:135-138 | what a restore publishes from a published backup is the image of that backup |
| `BackupPowerLoss.PowerLossIsSafe` | research/evaluation/evidence_backup.py:116-128 | a power loss, which damages any files not flushed and brings back any directory entries not flushed as they were, leaves the destination absent or a verified snapshot, and keeps its name and bytes once the name is on disk |
| `BackupPowerLoss.PowerLossesAreSafe` | research/evaluation/evidence_backup.py:85-132 | the same over any number of power losses with racers at work in between |
| `BackupPowerLoss.DestinationSurvives` | research/evaluation/evidence_backup.py:85-132 | from a settled start, after any power losses and steps, the destination is absent or a verified snapshot, and at most one racer has ever reported success |
| `BackupPowerLoss.AcknowledgedBackupSurvives` | research/evaluation/evidence_backup.py:121-128 | a backup reported as a success is at the destination after any further power losses, with the same bytes, verified |
| `BackupPowerLoss.BytesSurviveExactlyWhenFlushed` | research/evaluation/evidence_backup.py:116-117 | the bytes of a published file survive every power loss exactly when the file was flushed |
| `BackupPowerLoss.NameSurvivesExactlyWhenFlushed` | research/evaluation/evidence_backup.py:121-126 | its name survives every power loss exactly when the directory was flushed |
| `BackupPowerLoss.PublishedCanDisappear` | research/evaluation/evidence_backup.py:118-126 | a run in which a backup is published and a power loss before the directory flush removes it |
| `Wilson.EndsAreRoots` | research/evaluation/metrics/wilson_score.py:79-93 | both ends solve n(p-t)^2 = z^2 t(1-t) |
| `Wilson.InsideExactlyWhenAccepted` | research/evaluation/metrics/wilson_score.py:79-93 | the interval is exactly the set of proportions the score test accepts |
| `Wilson.Encloses` | research/evaluation/metrics/wilson_score.py:79-93 | the unclipped ends lie in [0, 1] and enclose the observed proportion, so the clipping changes nothing |
| `Wilson.Symmetry` | research/evaluation/metrics/wilson_score.py:79-93 | swapping successes and failures mirrors the interval, as scripts/verify_challenger_m1.py:93-98 intends |
| `Wilson.EndsIncrease` | research/evaluation/metrics/wilson_score.py:79-93 | more successes move both ends strictly up |
| `Statistics.PercentileMonotone` | research/evaluation/metrics/evaluator.py:715-735 | the interpolated percentile rises with the percentile asked for, for every list |
| `Statistics.PercentileBounds` | research/evaluation/metrics/evaluator.py:715-735 | it stays within any bounds of the values |
| `Statistics.PercentileIgnoresOrder` | research/evaluation/metrics/evaluator.py:715-735 | it does not depend on the order of the values |
| `Statistics.MedianIsPercentile50` | research/evaluation/metrics/evaluator.py:754 | the 50th percentile is the median, for odd and even lengths |
| `Statistics.MeanOfSorted` | research/evaluation/metrics/evaluator.py:751-753 | sorting first does not change the mean |
| `Statistics.BootstrapBounds` | research/evaluation/metrics/evaluator.py:764-772 | for every random stream the two bootstrap ends are ordered and lie within the values |
| `Statistics.Bootstrap` | research/evaluation/metrics/evaluator.py:764-772 | the resampling loop returns the two order statistics of the resampled means |
| `Statistics.StatsInOrder` | research/evaluation/metrics/evaluator.py:738-780 | the interquartile range is nonnegative, the median is at most the 95th percentile, all within the rounded extremes |
| `Statistics.IntervalInOrder` | research/evaluation/metrics/evaluator.py:761-772 | an interval is reported exactly for two values or more, and is ordered within the rounded extremes |
| `Statistics.StatsIgnoreOrder` | research/evaluation/metrics/evaluator.py:738-780 | all statistics depend only on the multiset of values |
| `Statistics.ComputeMttdStats` | research/evaluation/metrics/evaluator.py:738-780 | the method, which sorts first and takes the library median, computes the statistics of the unsorted values; none for an empty list |
| `Statistics.RoundNear` | research/evaluation/metrics/evaluator.py:774-780 | rounding moves a number by at most half a unit of the last place kept |
| `Statistics.RoundMonotone` | research/evaluation/metrics/evaluator.py:774-780 | rounding keeps order |
| `Report.RateWithinInterval` | research/evaluation/metrics/evaluator.py:824-829 | the reported detection rate lies within its reported interval, within [0, 1] |
| `Report.HarmonicError` | research/evaluation/metrics/evaluator.py:841-842 | the harmonic mean moves by at most 2e when precision and recall move by at most e |
| `Report.F1Error` | research/evaluation/metrics/evaluator.py:824-844 | a reported F1 differs from 2 TP / (2 TP + FP + FN) by at most 1.5e-4, although it is computed from rounded rates |
| `Report.F1ReportedExactlyWhen` | research/evaluation/metrics/evaluator.py:841-844 | F1 is reported exactly when benign runs exist, TP > 0, and precision or recall does not round to zero |
| `Baseline.ClassifyOne` | research/evaluation/metrics/evaluator.py:531-551 | one detection goes to the first attack window it hits, else counts one false alarm if it is in a benign window |
| `Baseline.Classify` | research/evaluation/metrics/evaluator.py:526-551 | the loop computes the credited runs and the number of false alarms |
| `Baseline.EachDetectionCountsOnce` | research/evaluation/metrics/evaluator.py:530-551 | credited runs and false alarms together are at most the detections |
| `Baseline.CreditedExactlyWhen` | research/evaluation/metrics/evaluator.py:532-543 | a run is a true positive exactly when some detection hits its window and no earlier window |
| `Baseline.LeastDelay` | research/evaluation/metrics/evaluator.py:558-569 | the delay of the earliest detection in a window, absent when there is none |
| `Baseline.CollectDelays` | research/evaluation/metrics/evaluator.py:553-570 | the loop appends the least delay of each credited window that has a detection |
| `Baseline.OneDelayPerTruePositive` | research/evaluation/metrics/evaluator.py:553-570 | with distinct run ids there is exactly one delay for each true-positive run |
| `Baseline.OrderIsIrrelevant` | research/evaluation/metrics/evaluator.py:526-570 | credits, false alarms and delays do not depend on the order of detections |
| `Confusion.BuildAttackWindows` | research/evaluation/metrics/evaluator.py:505-517 | the loop builds one window for each valid attack run whose first attack phase has both times |
| `Confusion.BuildBenignWindows` | research/evaluation/metrics/evaluator.py:519-524 | the nested loops build the windows of the observed phases of benign runs |
| `Confusion.EvaluateBaseline` | research/evaluation/metrics/evaluator.py:461-601 | no counts without detections (telemetry unavailable); otherwise the counts, delays and benign time of the specification |
| `Confusion.CountsAddUp` | research/evaluation/metrics/evaluator.py:572-575 | with distinct run ids true positives and false negatives make up the valid attack runs, with one delay for each true positive, and credits and false alarms share out the detections |
| `Confusion.TrueNegativesExactlyWhen` | research/evaluation/metrics/evaluator.py:575 | with detections at hand, reported true negatives never exceed the benign runs without a false alarm, and equal them exactly when no run is charged twice or all are charged |
| `Documented.CountsAsDocumentedExactlyWhen` | research/evaluation/metrics/evaluator.py:8 | the credited runs are the documented true positives (a detection within the detection window after the injection) on every stream exactly when every detection window lies inside its attack phase and no two overlap |
| `Documented.CreditedAreDetected` | research/evaluation/metrics/evaluator.py:8 | the code never counts a true positive that the documentation does not |
| `Documented.UncoveredIsMissed` | research/evaluation/metrics/evaluator.py:533-543 | a run whose detection window reaches outside its attack phase has a detection that is documented and not counted |
| `Documented.OverlapIsMissed` | research/evaluation/metrics/evaluator.py:533-543 | two runs whose detection windows overlap have a detection that is documented for both and counted for one |
| `DocumentedCases.EarlyDetectionIsMissed` | research/evaluation/metrics/evaluator.py:533-543 | the case of a detection after the injection and before the attack phase starts: one true positive documented, none reported |
| `Documented.AttacksAsDocumentedExactlyWhen` | research/evaluation/metrics/evaluator.py:572-573 | with detections at hand, the reported true positives and false negatives are the documented numbers on every stream exactly under that condition |
| `Coverage.CoversExactlyWhen` | research/evaluation/metrics/evaluator.py:519-524 | every instant of a span is in some observed phase exactly when the span begins in one and each one that ends inside the span is continued by another |
| `Coverage.AlarmSpanExactlyWhen` | research/evaluation/metrics/evaluator.py:530-551 | every instant of a span is a false alarm exactly when it is so covered and the span meets no attack window within its detection window: a finite test on the times |
| `DocumentedBenign.AllAlarmsExactlyWhen` | research/evaluation/metrics/evaluator.py:519-551 | that test, from each start to each end of a phase of each benign run, decides whether every instant of a benign run is a false alarm |
| `DocumentedBenign.FalsePositivesAsDocumentedExactlyWhen` | research/evaluation/metrics/evaluator.py:9 | with detections at hand, the reported false positives are the detections during benign runs on every stream exactly when the test succeeds |
| `DocumentedBenign.TrueNegativesAsDocumented` | research/evaluation/metrics/evaluator.py:11 | on a given nonempty stream the reported true negatives are the benign runs in which no detection occurs, plus the noisy runs no alarm is charged to, minus the repeated alarms, down to zero; so they are as documented exactly when the last two are equal, or no run is quiet and the alarms are no fewer |
| `DocumentedBenign.AlwaysAsDocumentedExactlyWhen` | research/evaluation/metrics/evaluator.py:11 | with detections at hand, they are as documented on every stream exactly when benign runs take no time, or there is one benign run and the test succeeds |
| `DocumentedBenign.TimelessExactlyWhen` | research/evaluation/metrics/evaluator.py:11 | runs take no time exactly when each of their phases starts after every phase of the run has ended |
| `DocumentedBenign.ChargedAreNoisy` | research/evaluation/metrics/evaluator.py:545-551 | a run that a false alarm is charged to has a detection while it lasts |
| `DocumentedBenign.SilenceIsNotReported` | research/evaluation/metrics/evaluator.py:472-503 | counts are reported exactly when there are detections, and the two benign ones when there are benign runs too; without detections every benign run is a documented true negative and every valid attack run a documented false negative |
| `DocumentedCases.RepeatedAlarmsHideAQuietRun` | research/evaluation/metrics/evaluator.py:575 | the case of two alarms in one benign run and none in another: one true negative documented, none reported |
| `DocumentedCases.RecoveryIsNotObserved` | research/evaluation/metrics/evaluator.py:519-524 | the case of a detection while a benign run recovers: no true negative documented, one reported |
| `DocumentedCases.AttackTakesTheAlarm` | research/evaluation/metrics/evaluator.py:545-551 | the case of a detection in a benign run that an attack window also covers: no true negative documented, one reported |
| `Split.GroupByFamily` | research/evaluation/dataset/packager.py:801-804 | the dictionary holds each family once, in order of first appearance, with its runs in order |
| `Split.AssignFamily` | research/evaluation/dataset/packager.py:810-829 | the branches give the train, validation and test shares of one family |
| `Split.SplitScenarioIds` | research/evaluation/dataset/packager.py:779-831 | the loops return the run ids of the specified split, and the three lists together hold exactly the given ids |
| `Split.SplitIsPartition` | research/evaluation/dataset/packager.py:779-831 | the three parts together hold exactly the given runs, as often as they were given |
| `Split.SplitIdsArePartition` | research/evaluation/dataset/packager.py:779-831 | the same for the run ids |
| `Split.HeldOutRepetitions` | research/evaluation/dataset/packager.py:810-829 | control and unknown families go wholly to train; a held-out family gives one test run and, from two runs on, one validation run, with test after validation after train by repetition |

## Left out

- The journal that SQLite keeps while it copies, and partial writes: a file that was not flushed comes back whole or damaged.
- The TCP listener and its receipt table, `list_run`, the HTTP layer, request models and the S3 client: input and output around the steps modelled here.
- Signature forgery and hash collisions: a signature check is an arbitrary predicate and hashes are injective.
- Which int a float text is exactly equal to, as Python compares them: a function of the environment, of which nothing is assumed.
- The JSON reader takes no insignificant white space and no surrogate escapes: it reads what the canonical writer emits.
- The order of the stored active and revoked key lists: they are sets here.
- Exception texts, and the difference between a malformed base64 signature and a wrong one.
- Foreign keys: the connection does not enforce them, and neither does the model; that consumed rows point to receipts is proved instead.
- Type checks of observer arguments that the dataclass types already give.
- Backup.VerifyDatabase: does not check the TCP receipt rows or hash the file, since the TCP receipts are not part of this model.
- `verify_database` on a file without the receipt table: one of the forms of a file that does not verify.
- The first verification inside `restore_database`: a published backup always passes it, since only verified snapshots are published.
- `load_scenario_policies`: its conditions are `Policy.Valid`.
- `_evaluate_phantom`, attribution credit, the Brier score and the overhead figures: counts and means read from one body; the rates they feed are in `Report`.
- The `None` counts that `_evaluate_phantom` reports when no run is eligible: `Report` takes TP and FN as numbers.
- Floating-point rounding of the report arithmetic, and the normal quantile: any z > 0.
- The detection loop of the scenario runner, attack and baseline drivers, the frontend and the other services.
- Split.HeldOutRepetitions: orders runs by repetition only, since the code does not look at their times although its documentation speaks of time.
