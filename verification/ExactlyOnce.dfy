/** Exactly-once effect for a sequence of committed transactions: it leaves the store that applying each
    first-accepted item once would leave. `Runs` applies this to whole runs of processes. */
module ExactlyOnce {
  import opened Wrappers
  import opened Strings
  import opened Json
  import opened Host
  import opened Contract
  import opened SignedObservation
  import opened Receipt
  import opened EvidenceStore
  import opened StoreInvariant

  /** The store after a sequence of committed transactions. */
  function Run(h: Host, db: Db, ps: seq<Prepared>): Db {
    if ps == [] then db else Persist(h, Run(h, db, ps[..|ps| - 1]), ps[|ps| - 1]).0
  }

  ghost predicate AllValid(h: Host, ps: seq<Prepared>) { forall p :: p in ps ==> ValidPrepared(h, p) }

  lemma {:induction false} RunKeepsInv(h: Host, db: Db, ps: seq<Prepared>)
    requires h.Lawful() && Inv(h, db) && AllValid(h, ps)
    ensures Inv(h, Run(h, db, ps)) && Grows(db, Run(h, db, ps))
  {
    hide Host.Lawful, Inv, Persist, ValidPrepared;
    if ps != [] {
      var init := ps[..|ps| - 1];
      RunKeepsInv(h, db, init);
      OneTransaction(h, Run(h, db, init), ps[|ps| - 1]);
    }
  }

  // ---------- Retries ----------

  lemma RetryViewWithId(a: Fields, id: string)
    ensures RetryView(WithId(a, id)) == RetryView(a)["receipt_id" := Str(id)]
  {
    var b := WithId(a, id);
    assert b - {"created_at"} == (a - {"created_at"})["receipt_id" := Str(id)];
  }

  lemma SameContentWithId(h: Host, a: Fields, b: Fields, id: string)
    requires SameContent(h, a, b)
    ensures SameContent(h, WithId(a, id), WithId(b, id))
  {
    RetryViewWithId(a, id);
    RetryViewWithId(b, id);
    hide RetryView, WithId;
    ComparableUpdate(h, RetryView(a), "receipt_id", Str(id));
    ComparableUpdate(h, RetryView(b), "receipt_id", Str(id));
  }

  lemma ValidIds(h: Host, f: Fields)
    requires h.Lawful() && ValidateReceipt(h, f) == Some(f)
    ensures Get(f, "run_id").Str? && Get(f, "scenario_id").Str?
    ensures Get(f, "event_id").Str? || Get(f, "event_id").Null?
    ensures Get(f, "receipt_id").Str? || Get(f, "receipt_id").Null?
  {
    PartsFields(f);
    NormalizedFields(h, f);
    hide OraclePartsOf, OracleParts.Valid, OracleParts.Confirmed, ValidVerification, PartsOf, Normalized, Uuid;
  }

  /** A retry with the same content is for the same item, and its receipt id is acceptable too. */
  lemma RetryNamesSameItem(h: Host, p: Prepared, retry: Prepared)
    requires h.Lawful() && ValidPrepared(h, p) && ValidPrepared(h, retry) && SameContent(h, p.payload, retry.payload)
    ensures IdempotencyKey(h, retry.payload) == IdempotencyKey(h, p.payload)
    ensures IdAccepted(h, retry) <==> IdAccepted(h, p)
  {
    hide SameContent, IdempotencyKey, ValidateReceipt, Consumes, Confirmed;
    ValidIds(h, p.payload);
    ValidIds(h, retry.payload);
    SameContentSameKey(h, p.payload, retry.payload);
    SameContentAt(h, p.payload, retry.payload, "receipt_id");
  }

  /** Once a submission has been acknowledged, a retry with the same content returns the very same
      receipt and changes nothing, in every good store that has grown from there. */
  lemma RetryIsIdempotent(h: Host, db: Db, p: Prepared, later: Db, retry: Prepared)
    requires h.Lawful() && Inv(h, db) && ValidPrepared(h, p) && ValidPrepared(h, retry)
    requires Persist(h, db, p).1.Ok? && SameContent(h, p.payload, retry.payload)
    requires Inv(h, later) && Grows(Persist(h, db, p).0, later)
    ensures Persist(h, later, retry) == (later, Persist(h, db, p).1)
  {
    hide Host.Lawful, Inv, ValidPrepared, Persist, SameContent, IdempotencyKey, StoredFields, WithId, WithIntegrity,
         IdAccepted;
    var key := IdempotencyKey(h, p.payload);
    var id := h.uuid5(key);
    var acked := Persist(h, db, p).0;
    OneTransaction(h, db, p);
    Acknowledged(h, db, p);
    RetryNamesSameItem(h, p, retry);
    KnownItem(h, later, retry);
    SameContentWithId(h, p.payload, retry.payload, id);
    SameContentTransitive(h, StoredFields(acked.receipts[id]).value, WithId(p.payload, id), WithId(retry.payload, id));
  }

  lemma SameContentTransitive(h: Host, a: Fields, b: Fields, c: Fields)
    requires SameContent(h, a, b) && SameContent(h, b, c)
    ensures SameContent(h, a, c)
  {
    hide RetryView;
  }

  lemma AddedKey(db: Db, id: string, row: ReceiptRow, verified: Option<Verified>)
    ensures row.idempotencyKey in Added(db, id, row, verified).keyIndex
  {}

  /** An acknowledged submission is stored under its key, with its content. */
  lemma Acknowledged(h: Host, db: Db, p: Prepared)
    requires h.Lawful() && Inv(h, db) && ValidPrepared(h, p) && Persist(h, db, p).1.Ok?
    ensures var key := IdempotencyKey(h, p.payload); var id := h.uuid5(key); var after := Persist(h, db, p).0;
      && IdAccepted(h, p) && key in after.keyIndex && id in after.receipts && StoredFields(after.receipts[id]).Some?
      && SameContent(h, StoredFields(after.receipts[id]).value, WithId(p.payload, id))
  {
    hide Host.Lawful, Inv, ValidPrepared, SameContent, IdempotencyKey, StoredFields, WithId, WithIntegrity, RowFor,
         InsertAll, Read, Added;
    var key := IdempotencyKey(h, p.payload);
    var id := h.uuid5(key);
    if key in db.keyIndex {
      KnownItem(h, db, p);
    } else {
      NewItem(h, db, p);
      StoredBody(h, key, WithId(p.payload, id));
      RowKey(h, key, WithId(p.payload, id));
      AddedKey(db, id, RowFor(h, key, WithId(p.payload, id)), p.verified);
      AddedReceipt(db, id, RowFor(h, key, WithId(p.payload, id)), p.verified);
      SameContentReflexive(h, WithId(p.payload, id));
    }
  }

  lemma SameContentReflexive(h: Host, a: Fields) ensures SameContent(h, a, a) {}

  // ---------- First accepted, once each ----------

  /** The submissions that were new when they committed. */
  function Firsts(h: Host, db: Db, ps: seq<Prepared>): (fs: seq<Prepared>)
    ensures forall p :: p in fs ==> p in ps
  {
    if ps == [] then []
    else
      var init, last := ps[..|ps| - 1], ps[|ps| - 1];
      Firsts(h, db, init) + (if IsNew(h, Run(h, db, init), last) then [last] else [])
  }

  ghost predicate EachIsNew(h: Host, db: Db, fs: seq<Prepared>) {
    forall i :: 0 <= i < |fs| ==> IsNew(h, Run(h, db, fs[..i]), fs[i])
  }

  /** Leaving out every submission that was not new leaves the same store, and each of the others is
      still new in its turn. */
  lemma {:induction false} StoreIsFirstItems(h: Host, db: Db, ps: seq<Prepared>)
    requires h.Lawful() && Inv(h, db) && AllValid(h, ps)
    ensures Run(h, db, Firsts(h, db, ps)) == Run(h, db, ps) && EachIsNew(h, db, Firsts(h, db, ps))
  {
    hide Host.Lawful, Inv, Persist, ValidPrepared, IsNew, Added, Run, EachIsNew;
    if ps == [] {
      NoneIsNew(h, db);
    } else {
      var init, last := ps[..|ps| - 1], ps[|ps| - 1];
      StoreIsFirstItems(h, db, init);
      var before := Firsts(h, db, init);
      RunKeepsInv(h, db, init);
      OneTransaction(h, Run(h, db, init), last);
      RunNext(h, db, init, last);
      RunNext(h, db, before, last);
      assert ps == init + [last] && before + [] == before;
      if IsNew(h, Run(h, db, init), last) { OneMoreIsNew(h, db, before, last); }
    }
  }

  lemma NoneIsNew(h: Host, db: Db)
    ensures EachIsNew(h, db, [])
  {}

  lemma OneMoreIsNew(h: Host, db: Db, before: seq<Prepared>, p: Prepared)
    requires EachIsNew(h, db, before) && IsNew(h, Run(h, db, before), p)
    ensures EachIsNew(h, db, before + [p])
  {
    hide Run, IsNew;
    var fs := before + [p];
    assert fs[..|before|] == before;
    forall i | 0 <= i < |fs| ensures IsNew(h, Run(h, db, fs[..i]), fs[i]) {
      if i < |before| { assert fs[..i] == before[..i] && fs[i] == before[i]; }
    }
  }

  /** The ids of the items, in the order they were accepted. */
  function ItemIds(h: Host, fs: seq<Prepared>): set<string> {
    set p | p in fs :: h.uuid5(IdempotencyKey(h, p.payload))
  }

  /** The store knows the key and the observation of each item. */
  ghost predicate Recorded(h: Host, db: Db, fs: seq<Prepared>) {
    forall p :: p in fs ==>
      && IdempotencyKey(h, p.payload) in db.keyIndex
      && (p.verified.Some? ==> ObservationId(p.verified.value) in db.consumed)
  }

  predicate Unrelated(h: Host, p: Prepared, q: Prepared) {
    && IdempotencyKey(h, p.payload) != IdempotencyKey(h, q.payload)
    && (p.verified.Some? && q.verified.Some? ==> ObservationId(p.verified.value) != ObservationId(q.verified.value))
  }

  lemma NewIsUnrelated(h: Host, db: Db, before: seq<Prepared>, p: Prepared)
    requires Recorded(h, db, before) && IsNew(h, db, p)
    ensures forall q :: q in before ==> Unrelated(h, q, p)
  {
    hide IdempotencyKey, IdAccepted;
  }

  lemma NewIsRecorded(h: Host, db: Db, before: seq<Prepared>, p: Prepared)
    requires h.Lawful() && Inv(h, db) && ValidPrepared(h, p) && Recorded(h, db, before) && IsNew(h, db, p)
    ensures var after := Persist(h, db, p).0;
      && Recorded(h, after, before + [p])
      && after.receipts.Keys == db.receipts.Keys + {h.uuid5(IdempotencyKey(h, p.payload))}
  {
    hide Host.Lawful, Inv, Persist, ValidPrepared, IdempotencyKey, IdAccepted, RowFor, WithId, StoredFields;
    OneTransaction(h, db, p);
    var key := IdempotencyKey(h, p.payload);
    RowKey(h, key, WithId(p.payload, h.uuid5(key)));
  }

  ghost predicate AllUnrelated(h: Host, fs: seq<Prepared>) {
    forall i, j :: 0 <= i < j < |fs| ==> Unrelated(h, fs[i], fs[j])
  }

  lemma DistinctNext(h: Host, before: seq<Prepared>, p: Prepared)
    requires AllUnrelated(h, before) && forall q :: q in before ==> Unrelated(h, q, p)
    ensures AllUnrelated(h, before + [p])
  {
    hide Unrelated;
  }

  lemma ItemIdsNext(h: Host, before: seq<Prepared>, p: Prepared)
    ensures ItemIds(h, before + [p]) == ItemIds(h, before) + {h.uuid5(IdempotencyKey(h, p.payload))}
  {
    hide IdempotencyKey;
  }

  lemma NewInTurn(h: Host, db: Db, before: seq<Prepared>, p: Prepared)
    requires EachIsNew(h, db, before + [p])
    ensures EachIsNew(h, db, before) && IsNew(h, Run(h, db, before), p)
  {
    hide IsNew, Run;
    var fs := before + [p];
    assert fs[..|before|] == before && fs[|before|] == p;
    forall i | 0 <= i < |before| ensures IsNew(h, Run(h, db, before[..i]), before[i]) {
      assert before[i] == fs[i] && before[..i] == fs[..i];
    }
  }

  /** Unrelated items: the store holds exactly one receipt for each accepted submission, no two of
      them share an idempotency key, and no two consume one signed observation. */
  lemma {:induction false} OneReceiptPerItem(h: Host, db: Db, fs: seq<Prepared>)
    requires h.Lawful() && Inv(h, db) && AllValid(h, fs) && EachIsNew(h, db, fs)
    ensures Run(h, db, fs).receipts.Keys == db.receipts.Keys + ItemIds(h, fs)
    ensures Recorded(h, Run(h, db, fs), fs) && AllUnrelated(h, fs)
  {
    hide Host.Lawful, Inv, Persist, ValidPrepared, IdempotencyKey, IsNew, Unrelated, Recorded, ItemIds, AllUnrelated,
         EachIsNew, Run;
    if fs == [] {
      NothingRecorded(h, db);
    } else {
      var init, last := fs[..|fs| - 1], fs[|fs| - 1];
      assert fs == init + [last];
      NewInTurn(h, db, init, last);
      OneReceiptPerItem(h, db, init);
      RunKeepsInv(h, db, init);
      NewIsUnrelated(h, Run(h, db, init), init, last);
      NewIsRecorded(h, Run(h, db, init), init, last);
      RunNext(h, db, init, last);
      DistinctNext(h, init, last);
      ItemIdsNext(h, init, last);
    }
  }

  lemma RunNext(h: Host, db: Db, before: seq<Prepared>, p: Prepared)
    ensures Run(h, db, before + [p]) == Persist(h, Run(h, db, before), p).0
  {
    hide Persist;
    assert (before + [p])[..|before|] == before;
  }

  lemma NothingRecorded(h: Host, db: Db)
    ensures Run(h, db, []) == db && Recorded(h, db, []) && AllUnrelated(h, []) && ItemIds(h, []) == {}
  {
    hide IdempotencyKey;
  }

  // ---------- Which receipts consume an observation ----------

  /** Some consumed observation points to the receipt. */
  ghost predicate PointedAt(db: Db, id: string) {
    exists c :: c in db.consumed && db.consumed[c].receiptId == id
  }

  lemma AddedPointer(db: Db, id: string, row: ReceiptRow, verified: Option<Verified>, other: string)
    requires verified.Some? ==> ObservationId(verified.value) !in db.consumed
    ensures var after := Added(db, id, row, verified);
      PointedAt(after, other) <==> PointedAt(db, other) || (verified.Some? && other == id)
  {
    var after := Added(db, id, row, verified);
    forall c | c in db.consumed ensures c in after.consumed && after.consumed[c] == db.consumed[c] {}
    if verified.Some? { assert after.consumed[ObservationId(verified.value)].receiptId == id; }
  }

  lemma PointersHit(h: Host, db: Db, id: string)
    requires Inv(h, db) && PointedAt(db, id)
    ensures id in db.receipts
  {
    hide RowOk, StoredFields, Consumes, Confirmed, ClaimedObservation, ClaimedHash;
  }

  function ItemId(h: Host, p: Prepared): string { h.uuid5(IdempotencyKey(h, p.payload)) }

  /** Among the items of a run, exactly those that came with a verified observation have one consumed:
      every confirmed receipt does, and an unconfirmed one submitted without a signature never does,
      whatever verification metadata it carries. */
  lemma {:induction false} ConsumedExactlyForSigned(h: Host, db: Db, fs: seq<Prepared>, i: nat)
    requires h.Lawful() && Inv(h, db) && AllValid(h, fs) && EachIsNew(h, db, fs) && i < |fs|
    ensures ItemId(h, fs[i]) in Run(h, db, fs).receipts
    ensures PointedAt(Run(h, db, fs), ItemId(h, fs[i])) <==> fs[i].verified.Some?
  {
    hide Host.Lawful, Inv, Persist, ValidPrepared, IdempotencyKey, IdAccepted, EachIsNew, Run, PointedAt, RowFor,
         WithId, Added;
    var init, last := fs[..|fs| - 1], fs[|fs| - 1];
    assert fs == init + [last];
    NewInTurn(h, db, init, last);
    RunKeepsInv(h, db, init);
    RunNext(h, db, init, last);
    var before := Run(h, db, init);
    var row := RowFor(h, IdempotencyKey(h, last.payload), WithId(last.payload, ItemId(h, last)));
    OneTransaction(h, before, last);
    AddedReceipt(before, ItemId(h, last), row, last.verified);
    AddedPointer(before, ItemId(h, last), row, last.verified, ItemId(h, fs[i]));
    if i < |init| {
      ConsumedExactlyForSigned(h, db, init, i);
    } else if PointedAt(before, ItemId(h, last)) {
      PointersHit(h, before, ItemId(h, last));
    }
  }

  /** The raw receipt that shows it: any valid unconfirmed receipt may be given verification metadata that
      names any key and observation. It is still accepted, it claims that observation, and storing it
      consumes nothing. */
  lemma ClaimWithoutConsuming(h: Host, db: Db, f: Fields, keyId: string, observationId: string)
    requires h.Lawful() && Inv(h, db) && ValidReceipt(h, f) && !Confirmed(f)
    ensures var claim := f["oracle_verification" := Obj(map["key_id" := Str(keyId),
      "observation_id" := Str(observationId)])];
      var p := PrepareRaw(h, claim);
      && p.Ok? && p.value.verified.None?
      && ClaimedObservation(p.value.payload) == Some((keyId, observationId))
      && Persist(h, db, p.value).0.consumed == db.consumed
  {
    hide Host.Lawful, Inv, Persist, ValidateReceipt, ValidReceipt, Normalized, PartsOf, OraclePartsOf, IdAccepted,
         IdempotencyKey, RowFor, WithId, PrepareRaw;
    var v := map["key_id" := Str(keyId), "observation_id" := Str(observationId)];
    var claim := f["oracle_verification" := Obj(v)];
    ClaimIsAccepted(h, f, v);
    var p := PrepareRaw(h, claim).value;
    RawIsPrepared(h, claim);
    OneTransaction(h, db, p);
    assert Get(v, "key_id") == Str(keyId) && Get(v, "observation_id") == Str(observationId);
  }

  lemma ClaimIsAccepted(h: Host, f: Fields, v: Fields)
    requires h.Lawful() && ValidReceipt(h, f) && !Confirmed(f)
    ensures var claim := f["oracle_verification" := Obj(v)];
      && PrepareRaw(h, claim).Ok? && PrepareRaw(h, claim).value.verified.None?
      && Get(PrepareRaw(h, claim).value.payload, "oracle_verification") == Obj(v)
  {
    var claim := f["oracle_verification" := Obj(v)];
    assert PartsOf(claim) == PartsOf(f).(verification := Obj(v));
    assert ValidReceipt(h, claim) by {
      hide PartsOf, OraclePartsOf, OracleParts.Valid, ValidVerification, HasOracleFields, Uuid;
    }
    NormalizedFields(h, claim);
    PreparedKeeps(h, claim, "oracle_verification");
    hide ValidReceipt, OraclePartsOf, OracleParts.Valid, OracleParts.Confirmed, ValidVerification, Normalized, PartsOf,
         HasOracleFields, Uuid;
  }

  /** Every attempt recorded without a signature can be turned into such a receipt. */
  lemma UnsignedMayClaim(h: Host, db: Db, s: Submission, at: string, keyId: string, observationId: string)
    requires h.Lawful() && Inv(h, db) && AwareTimestamp(h, Str(at))
    requires !Blank(s.request.runId) && !Blank(s.request.scenarioId) && !Blank(s.processingOutcome)
    ensures
      var v := map["key_id" := Str(keyId), "observation_id" := Str(observationId)];
      var p := PrepareRaw(h, UnsignedReceipt(s, Null, at, at)["oracle_verification" := Obj(v)]);
      && p.Ok? && ClaimedObservation(p.value.payload) == Some((keyId, observationId))
      && Persist(h, db, p.value).0.consumed == db.consumed
  {
    hide Host.Lawful, Inv, Persist, UnsignedReceipt, ValidReceipt, PrepareRaw, ClaimedObservation, Blank,
         AwareTimestamp;
    UnsignedReceiptIsValid(h, s, Null, at, at);
    hide PartsOf, OraclePartsOf, OracleParts.Confirmed;
    ClaimWithoutConsuming(h, db, UnsignedReceipt(s, Null, at, at), keyId, observationId);
  }
}
