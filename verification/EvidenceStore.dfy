/** The durable evidence sink: append-only receipts, consumed observations and the trust row. */
module EvidenceStore {
  import opened Wrappers
  import opened Json
  import opened Host
  import opened Contract
  import opened Trust
  import opened TrustState
  import opened SignedObservation
  import opened Evaluation
  import opened Receipt

  datatype ReceiptRow = ReceiptRow(idempotencyKey: string, payloadJson: string, payloadSha256: string,
      createdAt: string)
  datatype ConsumedRow = ConsumedRow(payloadSha256: string, receiptId: string)

  /** The tables. `keyIndex` is the UNIQUE index on the idempotency key. */
  datatype Db = Db(
    receipts: map<string, ReceiptRow>, keyIndex: map<string, string>,
    consumed: map<(string, string), ConsumedRow>, trust: Option<TrustRow>)

  datatype StoreError =
    | InvalidReceipt | NeedsSignedObservation | Refused(refusal: Refusal) | EventMismatch
    | ReceiptIdMismatch | Conflict | Replay | IntegrityFailure | NotFound | BadId

  const EMPTY := Db(map[], map[], map[], None)

  // ---------- Reading ----------

  function StoredFields(row: ReceiptRow): Option<Fields> {
    match Parse(row.payloadJson)
    case Some(Obj(f)) => Some(f)
    case _ => None
  }

  function WithIntegrity(h: Host, f: Fields): Fields { f["integrity_sha256" := Str(h.CanonicalSha256(Obj(f)))] }

  /** The stored receipt, after its hash is checked. */
  function Read(h: Host, db: Db, receiptId: string): Result<Fields, StoreError> {
    if receiptId !in db.receipts then Err(NotFound)
    else
      var row := db.receipts[receiptId];
      match StoredFields(row)
      case None => Err(IntegrityFailure)
      case Some(f) => if h.CanonicalSha256(Obj(f)) != row.payloadSha256 then Err(IntegrityFailure)
        else Ok(WithIntegrity(h, f))
  }

  /** `get`: a receipt id is any spelling of its UUID. */
  function Lookup(h: Host, db: Db, text: string): Result<Fields, StoreError> {
    match h.canonicalUuid(text)
    case None => Err(BadId)
    case Some(receiptId) => Read(h, db, receiptId)
  }

  // ---------- Before the transaction ----------

  /** A validated receipt on its way into the store, with the observation it consumes. */
  datatype Prepared = Prepared(payload: Fields, verified: Option<Verified>)

  /** `submit` up to `_persist`. */
  function PrepareRaw(h: Host, receipt: Fields): Result<Prepared, StoreError> {
    match ValidateReceipt(h, receipt)
    case None => Err(InvalidReceipt)
    case Some(payload) =>
      if OraclePartsOf(PartsOf(payload).oracle.fields).Confirmed() then Err(NeedsSignedObservation)
      else Ok(Prepared(payload, None))
  }

  /** `submit_signed_observation` up to `_persist`. */
  function PrepareSigned(h: Host, s: Submission, envelope: Json, trust: TrustSet, expectedEvent: Option<string>,
                         now: Datetime, assessedAt: string): Result<Prepared, StoreError>
    requires h.Lawful()
  {
    match Evaluate(h, envelope, trust, s.request, now, DEFAULT_WINDOW, assessedAt)
    case Err(e) => Err(Refused(e))
    case Ok(e) =>
      if expectedEvent.Some? && expectedEvent.value != e.verified.payload.eventId then Err(EventMismatch)
      else match ValidateReceipt(h, SignedReceipt(s, envelope, e))
        case None => Err(InvalidReceipt)
        case Some(payload) => Ok(Prepared(payload, Some(e.verified)))
  }

  // ---------- The transaction ----------

  /** INSERT INTO evidence_receipts; None is an IntegrityError (primary key or UNIQUE key). */
  function InsertReceipt(db: Db, receiptId: string, row: ReceiptRow): Option<Db> {
    if receiptId in db.receipts || row.idempotencyKey in db.keyIndex then None
    else Some(db.(receipts := db.receipts[receiptId := row], keyIndex := db.keyIndex[row.idempotencyKey := receiptId]))
  }

  /** INSERT INTO consumed_oracle_observations; foreign keys are not enforced by the connection. */
  function InsertConsumed(db: Db, id: (string, string), row: ConsumedRow): Option<Db> {
    if id in db.consumed then None else Some(db.(consumed := db.consumed[id := row]))
  }

  function ObservationId(v: Verified): (string, string) { (v.key.keyId, v.payload.observationId) }

  function WithId(payload: Fields, receiptId: string): Fields { payload["receipt_id" := Str(receiptId)] }

  function RowFor(h: Host, key: string, body: Fields): ReceiptRow {
    ReceiptRow(key, Encode(Obj(body)), h.CanonicalSha256(Obj(body)),
               if Get(body, "created_at").Str? then Get(body, "created_at").s else "")
  }

  /** The two inserts of one transaction. */
  function InsertAll(h: Host, db: Db, key: string, body: Fields, receiptId: string,
      verified: Option<Verified>): Option<Db> {
    match InsertReceipt(db, receiptId, RowFor(h, key, body))
    case None => None
    case Some(db') =>
      match verified
      case None => Some(db')
      case Some(v) => InsertConsumed(db', ObservationId(v), ConsumedRow(v.payloadSha256, receiptId))
  }

  /** `_persist`: the committed tables and what the caller is told. */
  function Persist(h: Host, db: Db, p: Prepared): (Db, Result<Fields, StoreError>) {
    var key := IdempotencyKey(h, p.payload);
    var receiptId := h.uuid5(key);
    if Get(p.payload, "receipt_id") != Null && Get(p.payload, "receipt_id") != Str(receiptId)
      then (db, Err(ReceiptIdMismatch))
    else
      var body := WithId(p.payload, receiptId);
      if key in db.keyIndex then
        if db.keyIndex[key] !in db.receipts then (db, Err(NotFound))
        else match StoredFields(db.receipts[db.keyIndex[key]])
          case None => (db, Err(IntegrityFailure))
          case Some(existing) =>
            if SameContent(h, existing, body) then (db, Lookup(h, db, db.keyIndex[key])) else (db, Err(Conflict))
      else if p.verified.Some? && ObservationId(p.verified.value) in db.consumed then (db, Err(Replay))
      else match InsertAll(h, db, key, body, receiptId, p.verified)
        case None => (db, Err(Conflict))
        case Some(db') => (db', Lookup(h, db', receiptId))
  }

  /** The sink object over one database file. */
  class DurableEvidenceSink {
    var receipts: map<string, ReceiptRow>
    var keyIndex: map<string, string>
    var consumed: map<(string, string), ConsumedRow>
    var trust: Option<TrustRow>

    function Tables(): Db reads this { Db(receipts, keyIndex, consumed, trust) }

    /** Opening a database file: the tables of an existing one are kept, a new one has no rows. */
    constructor (file: Option<Db>)
      ensures Tables() == if file.Some? then file.value else EMPTY
    {
      var db := if file.Some? then file.value else EMPTY;
      receipts, keyIndex, consumed, trust := db.receipts, db.keyIndex, db.consumed, db.trust;
    }

    /** `apply_trust_configuration`: one transaction over the trust row. */
    method ApplyTrustConfiguration(t: TrustSet) returns (r: Result<set<string>, TrustError>)
      modifies this`trust
      ensures match Apply(old(trust), t)
        case Ok(a) => r == Ok(a.revoked) && trust == Some(a.row)
        case Err(e) => r == Err(e) && trust == old(trust)
    {
      var active := t.keys.Keys;
      if !HasMetadata(t) { return Err(NoMetadata); }
      if trust.None? {
        if !(active !! t.revoked) { return Err(RevokedActive); }
        trust := Some(TrustRow(t.storeId, t.generation, t.configSha256, active, t.revoked));
        return Ok(t.revoked);
      }
      var row := trust.value;
      if row.storeId != t.storeId { return Err(OtherStore); }
      if t.generation < row.generation { return Err(Rollback); }
      if t.generation == row.generation {
        if t.configSha256 != row.configSha256 { return Err(ChangedInPlace); }
        return Ok(row.revoked + t.revoked);
      }
      if !(row.active <= active + t.revoked) { return Err(RemovedUnrevoked); }
      var revoked := row.revoked + t.revoked;
      if !(active !! revoked) { return Err(Reactivated); }
      trust := Some(row.(generation := t.generation, configSha256 := t.configSha256, active := active,
        revoked := revoked));
      return Ok(revoked);
    }

    /** `get` */
    method Fetch(h: Host, text: string) returns (r: Result<Fields, StoreError>)
      ensures r == Lookup(h, Tables(), text)
    {
      var normalized := h.canonicalUuid(text);
      if normalized.None? { return Err(BadId); }
      var receiptId := normalized.value;
      if receiptId !in receipts { return Err(NotFound); }
      var row := receipts[receiptId];
      var stored := StoredFields(row);
      if stored.None? { return Err(IntegrityFailure); }
      var actual := h.CanonicalSha256(Obj(stored.value));
      if actual != row.payloadSha256 { return Err(IntegrityFailure); }
      return Ok(stored.value["integrity_sha256" := Str(actual)]);
    }

    /** `_persist`: the tables change together or not at all. */
    method Commit(h: Host, p: Prepared) returns (r: Result<Fields, StoreError>)
      modifies this`receipts, this`keyIndex, this`consumed
      ensures (Tables(), r) == Persist(h, old(Tables()), p)
    {
      hide RetryView, SameContent, IdempotencyKey, Encode, StoredFields;
      var key := IdempotencyKey(h, p.payload);
      var expectedId := h.uuid5(key);
      var given := Get(p.payload, "receipt_id");
      if given != Null && given != Str(expectedId) { return Err(ReceiptIdMismatch); }
      var body := WithId(p.payload, expectedId);
      if key in keyIndex {
        if keyIndex[key] !in receipts { return Err(NotFound); }
        var existing := StoredFields(receipts[keyIndex[key]]);
        if existing.None? { return Err(IntegrityFailure); }
        if !SameContent(h, existing.value, body) { return Err(Conflict); }
        r := Fetch(h, keyIndex[key]);
        return;
      }
      if p.verified.Some? && ObservationId(p.verified.value) in consumed { return Err(Replay); }
      var receipts', keyIndex', consumed' := receipts, keyIndex, consumed;
      var row := RowFor(h, key, body);
      if expectedId in receipts' || row.idempotencyKey in keyIndex' { return Err(Conflict); }
      receipts' := receipts'[expectedId := row];
      keyIndex' := keyIndex'[row.idempotencyKey := expectedId];
      if p.verified.Some? {
        if ObservationId(p.verified.value) in consumed' { return Err(Conflict); }
        consumed' := consumed'[ObservationId(p.verified.value) := ConsumedRow(p.verified.value.payloadSha256,
          expectedId)];
      }
      receipts, keyIndex, consumed := receipts', keyIndex', consumed';
      r := Fetch(h, expectedId);
    }

    /** `submit` */
    method Submit(h: Host, receipt: Fields) returns (r: Result<Fields, StoreError>)
      modifies this`receipts, this`keyIndex, this`consumed
      ensures match PrepareRaw(h, receipt)
        case Err(e) => r == Err(e) && Tables() == old(Tables())
        case Ok(p) => (Tables(), r) == Persist(h, old(Tables()), p)
    {
      hide Persist, PrepareRaw;
      var p := PrepareRaw(h, receipt);
      if p.Err? { return Err(p.error); }
      r := Commit(h, p.value);
    }

    /** `submit_signed_observation` */
    method SubmitSignedObservation(h: Host, s: Submission, envelope: Json, trusted: TrustSet,
        expectedEvent: Option<string>, now: Datetime, assessedAt: string) returns (r: Result<Fields, StoreError>)
      requires h.Lawful()
      modifies this`receipts, this`keyIndex, this`consumed
      ensures match PrepareSigned(h, s, envelope, trusted, expectedEvent, now, assessedAt)
        case Err(e) => r == Err(e) && Tables() == old(Tables())
        case Ok(p) => (Tables(), r) == Persist(h, old(Tables()), p)
    {
      hide Persist, PrepareSigned;
      var p := PrepareSigned(h, s, envelope, trusted, expectedEvent, now, assessedAt);
      if p.Err? { return Err(p.error); }
      r := Commit(h, p.value);
    }
  }
}
