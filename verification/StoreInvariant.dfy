/** What every reachable store satisfies, and what one transaction can do to it. */
module StoreInvariant {
  import opened Wrappers
  import opened Json
  import opened Host
  import opened Contract
  import opened SignedObservation
  import opened Evaluation
  import opened Receipt
  import opened EvidenceStore

  // ---------- The invariant ----------

  predicate Confirmed(f: Fields) {
    PartsOf(f).oracle.Obj? && OraclePartsOf(PartsOf(f).oracle.fields).Confirmed()
  }

  /** The signed observation a receipt says it rests on. */
  function ClaimedObservation(f: Fields): Option<(string, string)> {
    var v := Get(f, "oracle_verification");
    if v.Obj? && Get(v.fields, "key_id").Str? && Get(v.fields, "observation_id").Str?
    then Some((Get(v.fields, "key_id").s, Get(v.fields, "observation_id").s))
    else None
  }

  function ClaimedHash(f: Fields): Json {
    var v := Get(f, "oracle_verification");
    if v.Obj? then Get(v.fields, "payload_sha256") else Null
  }

  predicate Consumes(f: Fields, id: (string, string), payloadSha256: string) {
    ClaimedObservation(f) == Some(id) && ClaimedHash(f) == Str(payloadSha256)
  }

  /** A stored row: canonical text of a valid receipt, its hash, and the two derived identities. */
  predicate RowOk(h: Host, receiptId: string, row: ReceiptRow) {
    && StoredFields(row).Some?
    && var f := StoredFields(row).value;
    && row.payloadJson == Encode(Obj(f)) && row.payloadSha256 == h.CanonicalSha256(Obj(f))
    && row.idempotencyKey == IdempotencyKey(h, f) && receiptId == h.uuid5(row.idempotencyKey)
    && Get(f, "receipt_id") == Str(receiptId)
    && ValidateReceipt(h, f) == Some(f)
  }

  ghost predicate RowsOk(h: Host, db: Db) { forall id :: id in db.receipts ==> RowOk(h, id, db.receipts[id]) }

  ghost predicate IndexOk(db: Db) {
    && (forall k :: k in db.keyIndex ==>
          db.keyIndex[k] in db.receipts && db.receipts[db.keyIndex[k]].idempotencyKey == k)
    && (forall id :: id in db.receipts ==>
          db.receipts[id].idempotencyKey in db.keyIndex && db.keyIndex[db.receipts[id].idempotencyKey] == id)
  }

  /** Every consumed row points to an existing receipt that rests on that very observation. */
  ghost predicate ConsumedOk(db: Db) {
    forall c :: c in db.consumed ==>
      && db.consumed[c].receiptId in db.receipts
      && StoredFields(db.receipts[db.consumed[c].receiptId]).Some?
      && Consumes(StoredFields(db.receipts[db.consumed[c].receiptId]).value, c, db.consumed[c].payloadSha256)
  }

  /** Every confirmed receipt has its observation consumed, by itself. */
  ghost predicate ConfirmedOk(db: Db) {
    forall id ::
      id in db.receipts && StoredFields(db.receipts[id]).Some? && Confirmed(StoredFields(db.receipts[id]).value) ==>
      var c := ClaimedObservation(StoredFields(db.receipts[id]).value);
      c.Some? && c.value in db.consumed && db.consumed[c.value].receiptId == id
  }

  ghost predicate Inv(h: Host, db: Db) { RowsOk(h, db) && IndexOk(db) && ConsumedOk(db) && ConfirmedOk(db) }

  /** What preparation guarantees: a normalized valid receipt that rests on the observation it
      carries, or is unconfirmed when it carries none. */
  predicate ValidPrepared(h: Host, p: Prepared) {
    && ValidateReceipt(h, p.payload) == Some(p.payload)
    && (match p.verified
        case Some(v) => Consumes(p.payload, ObservationId(v), v.payloadSha256)
        case None => !Confirmed(p.payload))
  }

  /** Nothing is removed or changed. */
  ghost predicate Grows(a: Db, b: Db) {
    && (forall id :: id in a.receipts ==> id in b.receipts && b.receipts[id] == a.receipts[id])
    && (forall k :: k in a.keyIndex ==> k in b.keyIndex && b.keyIndex[k] == a.keyIndex[k])
    && (forall c :: c in a.consumed ==> c in b.consumed && b.consumed[c] == a.consumed[c])
  }

  lemma EmptyStore(h: Host) ensures Inv(h, EMPTY) {}

  // ---------- Preparation ----------

  lemma RawIsPrepared(h: Host, receipt: Fields)
    requires h.Lawful() && PrepareRaw(h, receipt).Ok?
    ensures ValidPrepared(h, PrepareRaw(h, receipt).value)
  {
    ValidationIsIdempotent(h, receipt);
    var payload := ValidateReceipt(h, receipt).value;
    hide ValidateReceipt, OraclePartsOf;
  }

  lemma PreparedKeeps(h: Host, f: Fields, k: string)
    requires ValidReceipt(h, f) && k != "receipt_id" && k != "event_id" && k != "created_at"
    ensures Get(Normalized(h, f), k) == Get(f, k)
  {
    hide Parts.Valid, PartsOf;
  }

  lemma PartsKept(h: Host, f: Fields)
    requires ValidReceipt(h, f)
    ensures var n := Normalized(h, f);
      && Get(n, "oracle_observation") == Get(f, "oracle_observation")
      && Get(n, "oracle_verification") == PartsOf(f).verification && Get(n, "run_id") == PartsOf(f).runId
      && Get(n, "scenario_id") == PartsOf(f).scenarioId && Get(n, "workload") == PartsOf(f).workload
      && Get(n, "oracle_result") == PartsOf(f).oracle
  {
    PreparedKeeps(h, f, "oracle_observation");
    PreparedKeeps(h, f, "oracle_verification");
    PreparedKeeps(h, f, "run_id");
    PreparedKeeps(h, f, "scenario_id");
    PreparedKeeps(h, f, "workload");
    PreparedKeeps(h, f, "oracle_result");
    hide Normalized, ValidReceipt;
  }

  /** The fields a signed preparation puts into the store. */
  lemma SignedFields(h: Host, s: Submission, envelope: Json, e: Evaluation)
    requires h.Lawful() && ValidReceipt(h, SignedReceipt(s, envelope, e))
    ensures var n := Normalized(h, SignedReceipt(s, envelope, e));
      && Get(n, "oracle_observation") == envelope
      && Get(n, "oracle_verification") == Obj(VerificationRecord(e))
      && Get(n, "run_id") == Str(s.request.runId) && Get(n, "scenario_id") == Str(s.request.scenarioId)
      && Get(n, "workload") == Obj(s.request.workload)
      && Get(n, "oracle_result") == Obj(OracleRecord(e.result, e.verified.payload.observedAt))
  {
    hide SignedReceipt, VerificationRecord, OracleRecord, ValidReceipt, PartsOf, Normalized;
    PartsKept(h, SignedReceipt(s, envelope, e));
    SignedReceiptParts(s, envelope, e);
  }

  lemma RestsOnObservation(n: Fields, e: Evaluation)
    requires Get(n, "oracle_verification") == Obj(VerificationRecord(e))
    ensures Consumes(n, ObservationId(e.verified), e.verified.payloadSha256)
  {
    VerificationFields(e);
    hide VerificationRecord;
  }

  /** A signed preparation carries the observation it was evaluated from. */
  lemma SignedIsPrepared(h: Host, s: Submission, envelope: Json, trust: Trust.TrustSet, expectedEvent: Option<string>,
                         now: Datetime, at: string)
    requires h.Lawful() && PrepareSigned(h, s, envelope, trust, expectedEvent, now, at).Ok?
    ensures var p := PrepareSigned(h, s, envelope, trust, expectedEvent, now, at).value;
      var e := Evaluate(h, envelope, trust, s.request, now, DEFAULT_WINDOW, at);
      && ValidPrepared(h, p) && e.Ok?
      && ValidReceipt(h, SignedReceipt(s, envelope, e.value))
      && p == Prepared(Normalized(h, SignedReceipt(s, envelope, e.value)), Some(e.value.verified))
  {
    var e := Evaluate(h, envelope, trust, s.request, now, DEFAULT_WINDOW, at).value;
    hide Host.Lawful, Evaluate, SignedReceipt, VerificationRecord, OracleRecord, ValidReceipt, Consumes, Normalized;
    ValidationIsIdempotent(h, SignedReceipt(s, envelope, e));
    SignedFields(h, s, envelope, e);
    RestsOnObservation(Normalized(h, SignedReceipt(s, envelope, e)), e);
  }

  lemma PartsFields(f: Fields)
    ensures PartsOf(f).verification == Get(f, "oracle_verification") && PartsOf(f).runId == Get(f, "run_id")
    ensures PartsOf(f).scenarioId == Get(f, "scenario_id") && PartsOf(f).workload == Get(f, "workload")
    ensures PartsOf(f).oracle == Get(f, "oracle_result") && PartsOf(f).receiptId == Get(f, "receipt_id")
    ensures PartsOf(f).eventId == Get(f, "event_id")
  {}

  // ---------- One transaction ----------

  lemma StoredBody(h: Host, key: string, body: Fields)
    ensures StoredFields(RowFor(h, key, body)) == Some(body)
  {
    hide Encode, Parse;
    RoundTrip(Obj(body));
  }

  lemma ReadBack(h: Host, db: Db, id: string)
    requires Inv(h, db) && id in db.receipts
    ensures Read(h, db, id) == Ok(WithIntegrity(h, StoredFields(db.receipts[id]).value))
  {
    hide StoredFields, Encode, ValidateReceipt, IdempotencyKey;
    assert RowOk(h, id, db.receipts[id]);
  }

  lemma KeyIgnoresId(h: Host, payload: Fields, id: string)
    ensures IdempotencyKey(h, WithId(payload, id)) == IdempotencyKey(h, payload)
  {
    var body := WithId(payload, id);
    assert Get(body, "run_id") == Get(payload, "run_id") && Get(body, "scenario_id") == Get(payload, "scenario_id")
        && Get(body, "event_id") == Get(payload, "event_id");
  }

  lemma BodyKeeps(payload: Fields, id: string)
    ensures Confirmed(WithId(payload, id)) <==> Confirmed(payload)
    ensures ClaimedObservation(WithId(payload, id)) == ClaimedObservation(payload)
    ensures ClaimedHash(WithId(payload, id)) == ClaimedHash(payload)
  {
    var body := WithId(payload, id);
    assert Get(body, "oracle_result") == Get(payload, "oracle_result");
    assert Get(body, "oracle_verification") == Get(payload, "oracle_verification");
    hide OraclePartsOf, OracleParts.Confirmed;
  }

  lemma BodyIsValid(h: Host, payload: Fields, id: string)
    requires h.Lawful() && ValidateReceipt(h, payload) == Some(payload) && h.canonicalUuid(id) == Some(id)
    ensures ValidateReceipt(h, WithId(payload, id)) == Some(WithId(payload, id))
  {
    hide Parts.Valid, PartsOf;
    StaysValid(h, payload, Str(id));
  }

  /** A receipt id that is taken belongs to a key that is taken. */
  lemma FreshKeyFreshId(h: Host, db: Db, key: string)
    requires h.Lawful() && Inv(h, db) && key !in db.keyIndex
    ensures h.uuid5(key) !in db.receipts
  {
    hide StoredFields, ValidateReceipt, IdempotencyKey, Encode;
    var id := h.uuid5(key);
    assert id in db.receipts ==> RowOk(h, id, db.receipts[id]);
  }

  lemma NewRowOk(h: Host, p: Prepared)
    requires h.Lawful() && ValidPrepared(h, p)
    ensures var key := IdempotencyKey(h, p.payload);
      RowOk(h, h.uuid5(key), RowFor(h, key, WithId(p.payload, h.uuid5(key))))
  {
    var key := IdempotencyKey(h, p.payload);
    var id := h.uuid5(key);
    hide ValidateReceipt, IdempotencyKey, Encode, StoredFields;
    BodyIsValid(h, p.payload, id);
    KeyIgnoresId(h, p.payload, id);
    StoredBody(h, key, WithId(p.payload, id));
  }

  /** The tables with one more receipt and the observation it consumes. */
  function Added(db: Db, id: string, row: ReceiptRow, verified: Option<Verified>): Db {
    Db(db.receipts[id := row], db.keyIndex[row.idempotencyKey := id],
       match verified case None => db.consumed
         case Some(v) => db.consumed[ObservationId(v) := ConsumedRow(v.payloadSha256, id)],
       db.trust)
  }

  lemma AddedReceipt(db: Db, id: string, row: ReceiptRow, verified: Option<Verified>)
    ensures id in Added(db, id, row, verified).receipts && Added(db, id, row, verified).receipts[id] == row
  {}

  lemma AddedRows(h: Host, db: Db, id: string, row: ReceiptRow, verified: Option<Verified>)
    requires Inv(h, db) && id !in db.receipts && row.idempotencyKey !in db.keyIndex && RowOk(h, id, row)
    ensures RowsOk(h, Added(db, id, row, verified)) && IndexOk(Added(db, id, row, verified))
  {
    hide RowOk, ConsumedOk, ConfirmedOk;
    AddedIndex(db, id, row, verified);
    hide IndexOk;
  }

  lemma AddedIndex(db: Db, id: string, row: ReceiptRow, verified: Option<Verified>)
    requires IndexOk(db) && id !in db.receipts && row.idempotencyKey !in db.keyIndex
    ensures IndexOk(Added(db, id, row, verified))
  {}

  lemma AddedObservation(h: Host, db: Db, id: string, row: ReceiptRow, verified: Option<Verified>)
    requires Inv(h, db) && id !in db.receipts && StoredFields(row).Some?
    requires match verified
      case None => !Confirmed(StoredFields(row).value)
      case Some(v) =>
        ObservationId(v) !in db.consumed && Consumes(StoredFields(row).value, ObservationId(v), v.payloadSha256)
    ensures ConsumedOk(Added(db, id, row, verified)) && ConfirmedOk(Added(db, id, row, verified))
  {
    hide RowsOk, IndexOk, StoredFields, Confirmed, ClaimedObservation, ClaimedHash;
  }

  /** The two inserts of a new logical item never hit a constraint, and keep the invariant. */
  lemma InsertNeverFails(h: Host, db: Db, p: Prepared)
    requires h.Lawful() && Inv(h, db) && ValidPrepared(h, p) && IdempotencyKey(h, p.payload) !in db.keyIndex
    requires p.verified.Some? ==> ObservationId(p.verified.value) !in db.consumed
    ensures var key := IdempotencyKey(h, p.payload); var id := h.uuid5(key);
      var body := WithId(p.payload, id); var after := Added(db, id, RowFor(h, key, body), p.verified);
      && InsertAll(h, db, key, body, id, p.verified) == Some(after)
      && Inv(h, after) && Grows(db, after) && id !in db.receipts
  {
    var key := IdempotencyKey(h, p.payload);
    var id := h.uuid5(key);
    var body := WithId(p.payload, id);
    hide ValidateReceipt, IdempotencyKey, StoredFields, RowOk, RowFor, Confirmed, ClaimedObservation, ClaimedHash,
         WithId, Inv;
    FreshKeyFreshId(h, db, key);
    NewRowOk(h, p);
    StoredBody(h, key, body);
    BodyKeeps(p.payload, id);
    RowKey(h, key, body);
    AddedRows(h, db, id, RowFor(h, key, body), p.verified);
    AddedObservation(h, db, id, RowFor(h, key, body), p.verified);
    InvParts(h, Added(db, id, RowFor(h, key, body), p.verified));
  }

  lemma InvParts(h: Host, db: Db)
    ensures Inv(h, db) <==> RowsOk(h, db) && IndexOk(db) && ConsumedOk(db) && ConfirmedOk(db)
  {}

  lemma RowKey(h: Host, key: string, body: Fields)
    ensures RowFor(h, key, body).idempotencyKey == key
  {
    hide Encode;
  }

  predicate IdAccepted(h: Host, p: Prepared) {
    Get(p.payload, "receipt_id") in {Null, Str(h.uuid5(IdempotencyKey(h, p.payload)))}
  }

  lemma LookupById(h: Host, db: Db, key: string)
    requires h.Lawful()
    ensures Lookup(h, db, h.uuid5(key)) == Read(h, db, h.uuid5(key))
  {
    hide Read;
  }

  /** Submitting an item that is already stored changes nothing: the stored receipt comes back when
      the content is the same, a conflict otherwise. It is never a replay. */
  lemma KnownItem(h: Host, db: Db, p: Prepared)
    requires h.Lawful() && Inv(h, db) && IdempotencyKey(h, p.payload) in db.keyIndex && IdAccepted(h, p)
    ensures var id := h.uuid5(IdempotencyKey(h, p.payload));
      && id in db.receipts && StoredFields(db.receipts[id]).Some?
      && Persist(h, db, p) == (db,
           if SameContent(h, StoredFields(db.receipts[id]).value, WithId(p.payload, id))
           then Ok(WithIntegrity(h, StoredFields(db.receipts[id]).value)) else Err(Conflict))
  {
    hide IdempotencyKey, StoredFields, WithId, SameContent, Read, WithIntegrity, Inv;
    LookupById(h, db, IdempotencyKey(h, p.payload));
    StoredUnderKey(h, db, IdempotencyKey(h, p.payload));
    ReadBack(h, db, db.keyIndex[IdempotencyKey(h, p.payload)]);
  }

  /** Submitting a new item adds it, with its observation, and returns it. */
  lemma NewItem(h: Host, db: Db, p: Prepared)
    requires h.Lawful() && Inv(h, db) && ValidPrepared(h, p) && IdempotencyKey(h, p.payload) !in db.keyIndex
      && IdAccepted(h, p)
    requires p.verified.Some? ==> ObservationId(p.verified.value) !in db.consumed
    ensures var key := IdempotencyKey(h, p.payload); var id := h.uuid5(key);
      var after := Added(db, id, RowFor(h, key, WithId(p.payload, id)), p.verified);
      && id !in db.receipts && Inv(h, after) && Grows(db, after)
      && Persist(h, db, p) == (after, Ok(WithIntegrity(h, WithId(p.payload, id))))
  {
    var key := IdempotencyKey(h, p.payload);
    var id := h.uuid5(key);
    hide IdempotencyKey, StoredFields, RowFor, WithId, InsertAll, SameContent, Read, WithIntegrity, ValidPrepared, Inv;
    InsertNeverFails(h, db, p);
    LookupById(h, Added(db, id, RowFor(h, key, WithId(p.payload, id)), p.verified), key);
    ReadBack(h, Added(db, id, RowFor(h, key, WithId(p.payload, id)), p.verified), id);
    StoredBody(h, key, WithId(p.payload, id));
  }

  predicate IsNew(h: Host, db: Db, p: Prepared) {
    && IdAccepted(h, p) && IdempotencyKey(h, p.payload) !in db.keyIndex
    && (p.verified.Some? ==> ObservationId(p.verified.value) !in db.consumed)
  }

  /** What one transaction does to a good store: it keeps the invariant, removes nothing, and
      changes the tables exactly when the item is new. */
  lemma OneTransaction(h: Host, db: Db, p: Prepared)
    requires h.Lawful() && Inv(h, db) && ValidPrepared(h, p)
    ensures var key := IdempotencyKey(h, p.payload); var id := h.uuid5(key);
      var after := Persist(h, db, p).0;
      && Inv(h, after) && Grows(db, after) && after.trust == db.trust
      && (IsNew(h, db, p) ==>
            id !in db.receipts && after == Added(db, id, RowFor(h, key, WithId(p.payload, id)), p.verified))
      && (!IsNew(h, db, p) ==> after == db)
      && (Persist(h, db, p).1.Ok? ==> (
            && id in after.receipts && StoredFields(after.receipts[id]).Some?
            && Persist(h, db, p).1 == Ok(WithIntegrity(h, StoredFields(after.receipts[id]).value))))
  {
    var key := IdempotencyKey(h, p.payload);
    hide IdempotencyKey, StoredFields, RowFor, WithId, SameContent, WithIntegrity, ValidPrepared, Inv, InsertAll, Read;
    if IdAccepted(h, p) && key in db.keyIndex {
      KnownItem(h, db, p);
    } else if IsNew(h, db, p) {
      NewItem(h, db, p);
      StoredBody(h, key, WithId(p.payload, h.uuid5(key)));
    }
  }

  lemma StoredUnderKey(h: Host, db: Db, key: string)
    requires Inv(h, db) && key in db.keyIndex
    ensures db.keyIndex[key] == h.uuid5(key) && db.keyIndex[key] in db.receipts
    ensures StoredFields(db.receipts[db.keyIndex[key]]).Some?
  {
    hide StoredFields, ValidateReceipt, IdempotencyKey;
    assert RowOk(h, db.keyIndex[key], db.receipts[db.keyIndex[key]]);
  }

  // ---------- Consequences for any good store ----------

  /** Confirmed receipts and consumed observations correspond one to one. */
  lemma ConfirmedReceiptsAreInjective(h: Host, db: Db, a: string, b: string)
    requires Inv(h, db) && a in db.receipts && b in db.receipts
    requires Confirmed(StoredFields(db.receipts[a]).value) && Confirmed(StoredFields(db.receipts[b]).value)
    ensures var f, g := StoredFields(db.receipts[a]).value, StoredFields(db.receipts[b]).value;
      ClaimedObservation(f) == ClaimedObservation(g) ==> a == b
    ensures forall c, d ::
      c in db.consumed && d in db.consumed && db.consumed[c].receiptId == db.consumed[d].receiptId ==> c == d
  {
    hide StoredFields, Confirmed, ClaimedObservation, ClaimedHash, ValidateReceipt, IdempotencyKey;
    assert RowOk(h, a, db.receipts[a]) && RowOk(h, b, db.receipts[b]);
  }
}
