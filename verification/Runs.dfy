/** Whole runs of the sink: any number of processes start, stop, receive submissions and commit
    transactions over one database, in any order. */
module Runs {
  import opened Wrappers
  import opened Json
  import opened Host
  import opened Contract
  import opened Trust
  import opened TrustState
  import opened SignedObservation
  import opened Evaluation
  import opened Receipt
  import opened EvidenceStore
  import opened StoreInvariant
  import opened ExactlyOnce
  import opened SinkRuntime

  /** A live process: the key set it loaded, and submissions it has evaluated but not committed. */
  datatype Process = Process(trust: TrustSet, pending: seq<Prepared>)

  datatype Sys = Sys(db: Db, running: map<nat, Process>)

  const INITIAL := Sys(EMPTY, map[])

  /** One atomic step. Stopping a process, for whatever reason, loses what it had not committed;
      a client whose acknowledgement was lost simply submits again. */
  datatype Event =
    | Start(id: nat, file: Json)
    | Stop(id: nat)
    | ReceiveSigned(id: nat, s: Submission, envelope: Json, expectedEvent: Option<string>, now: Datetime, at: string)
    | ReceiveUnsigned(id: nat, s: Submission, eventId: Json, at: string, createdAt: string)
    | Deposit(id: nat, receipt: Fields)
    | Commit(id: nat, n: nat)

  function Queue(sys: Sys, id: nat, p: Result<Prepared, StoreError>): Sys
    requires id in sys.running
  {
    match p
    case Err(_) => sys
    case Ok(q) => sys.(running := sys.running[id := sys.running[id].(pending := sys.running[id].pending + [q])])
  }

  /** A process loads the trust file, or does not come up. */
  function StartProcess(h: Host, sys: Sys, id: nat, file: Json): Sys
    requires h.Lawful()
  {
    match Boot(h, sys.db.trust, file)
    case None => sys.(running := sys.running - {id})
    case Some((row, trust)) => Sys(sys.db.(trust := Some(row)), sys.running[id := Process(trust, [])])
  }

  /** A process commits one of its pending submissions. */
  function CommitPending(h: Host, sys: Sys, id: nat, n: nat): Sys {
    if id !in sys.running || n >= |sys.running[id].pending| then sys
    else
      var p := sys.running[id];
      Sys(Persist(h, sys.db, p.pending[n]).0, sys.running[id := p.(pending := p.pending[..n] + p.pending[n + 1..])])
  }

  function Step(h: Host, sys: Sys, e: Event): Sys
    requires h.Lawful()
  {
    match e
    case Start(id, file) => StartProcess(h, sys, id, file)
    case Stop(id) => sys.(running := sys.running - {id})
    case ReceiveSigned(id, s, envelope, expectedEvent, now, at) =>
      if id !in sys.running then sys
      else Queue(sys, id, PrepareSigned(h, s, envelope, sys.running[id].trust, expectedEvent, now, at))
    case ReceiveUnsigned(id, s, eventId, at, createdAt) =>
      if id !in sys.running then sys else Queue(sys, id, PrepareRaw(h, UnsignedReceipt(s, eventId, at, createdAt)))
    case Deposit(id, receipt) =>
      if id !in sys.running then sys else Queue(sys, id, PrepareRaw(h, receipt))
    case Commit(id, n) => CommitPending(h, sys, id, n)
  }

  function Exec(h: Host, sys: Sys, es: seq<Event>): Sys
    requires h.Lawful()
  {
    if es == [] then sys else Step(h, Exec(h, sys, es[..|es| - 1]), es[|es| - 1])
  }

  // ---------- The invariant of all runs ----------

  /** The row was written by a trust file: same key ids, same hash, and at least its revocations. */
  ghost predicate WrittenBy(h: Host, row: TrustRow, file: Json) {
    && AcceptableTrustFile(h, file)
    && var t := TrustSetOf(h, file);
    && t.configSha256 == row.configSha256 && t.keys.Keys == row.active && t.revoked <= row.revoked
  }

  ghost predicate TrustOk(h: Host, row: Option<TrustRow>) {
    row.Some? ==> row.value.active !! row.value.revoked && exists file :: WrittenBy(h, row.value, file)
  }

  ghost predicate ProcessOk(h: Host, row: Option<TrustRow>, p: Process) {
    && row.Some? && p.trust.Valid() && p.trust.revoked <= row.value.revoked
    && forall q :: q in p.pending ==> ValidPrepared(h, q) && Vouched(q, p.trust)
  }

  ghost predicate SysInv(h: Host, sys: Sys) {
    && Inv(h, sys.db) && TrustOk(h, sys.db.trust)
    && forall id :: id in sys.running ==> ProcessOk(h, sys.db.trust, sys.running[id])
  }

  /** A process that starts agrees with the row it leaves: the same active keys, the same
      revocations. With an unchanged generation this rests on the configuration hash. */
  lemma BootAgrees(h: Host, row: Option<TrustRow>, file: Json)
    requires h.Lawful() && TrustOk(h, row) && Boot(h, row, file).Some?
    ensures var (row', trust) := Boot(h, row, file).value;
      && trust.Valid() && trust.keys.Keys == row'.active && trust.revoked == row'.revoked
      && TrustOk(h, Some(row')) && (row.Some? ==> Evolves(row.value, row'))
      && TrustSetOf(h, file).revoked <= row'.revoked
  {
    hide Host.Lawful, AcceptableTrustFile, TrustSetOf, TrustSet.Valid, Apply, Evolves;
    var t := TrustSetOf(h, file);
    LoadedTrustIsValid(h, file);
    ApplyEvolves(row, t);
    if row.Some? && t.configSha256 == row.value.configSha256 {
      var prior :| WrittenBy(h, row.value, prior);
      SameHashSameTrust(h, prior, file);
      assert t.keys.Keys == row.value.active && t.revoked <= row.value.revoked;
    }
    ApplyAgrees(row, t);
    var (row', trust) := Boot(h, row, file).value;
    assert WrittenBy(h, row', file);
    WithRevocations(t, row'.revoked);
    assert trust == t.(revoked := row'.revoked);
  }

  lemma WithRevocations(t: TrustSet, revoked: set<string>)
    requires t.Valid() && t.keys.Keys !! revoked
    ensures t.(revoked := revoked).Valid()
  {}

  lemma PersistIgnoresTrust(h: Host, db: Db, p: Prepared)
    requires h.Lawful() && Inv(h, db) && ValidPrepared(h, p)
    ensures Persist(h, db, p).0.trust == db.trust
  {
    hide Host.Lawful, Inv, ValidPrepared, Persist;
    OneTransaction(h, db, p);
  }

  lemma InvIgnoresTrust(h: Host, db: Db, row: Option<TrustRow>)
    requires Inv(h, db)
    ensures Inv(h, db.(trust := row)) && Grows(db, db.(trust := row))
  {
    hide RowOk, StoredFields, Confirmed, ClaimedObservation, ClaimedHash;
  }

  lemma OlderProcesses(h: Host, row: Option<TrustRow>, row': Option<TrustRow>, p: Process)
    requires ProcessOk(h, row, p) && row'.Some? && Evolves(row.value, row'.value)
    ensures ProcessOk(h, row', p)
  {
    hide ValidPrepared, Vouched;
  }

  lemma StartKeepsInv(h: Host, sys: Sys, id: nat, file: Json)
    requires h.Lawful() && SysInv(h, sys)
    ensures SysInv(h, StartProcess(h, sys, id, file)) && Grows(sys.db, StartProcess(h, sys, id, file).db)
  {
    hide Host.Lawful, Inv, Boot, ProcessOk, TrustOk;
    if Boot(h, sys.db.trust, file).Some? {
      var row := Boot(h, sys.db.trust, file).value.0;
      BootAgrees(h, sys.db.trust, file);
      InvIgnoresTrust(h, sys.db, Some(row));
      forall i | i in sys.running ensures ProcessOk(h, Some(row), sys.running[i]) {
        RunningHasRow(h, sys, i);
        OlderProcesses(h, sys.db.trust, Some(row), sys.running[i]);
      }
      FreshProcess(h, row, Boot(h, sys.db.trust, file).value.1);
    }
  }

  lemma RunningHasRow(h: Host, sys: Sys, id: nat)
    requires SysInv(h, sys) && id in sys.running
    ensures sys.db.trust.Some?
  {}

  lemma FreshProcess(h: Host, row: TrustRow, trust: TrustSet)
    requires trust.Valid() && trust.revoked <= row.revoked
    ensures ProcessOk(h, Some(row), Process(trust, []))
  {}

  lemma QueueKeepsInv(h: Host, sys: Sys, id: nat, p: Result<Prepared, StoreError>)
    requires SysInv(h, sys) && id in sys.running
    requires p.Ok? ==> ValidPrepared(h, p.value) && Vouched(p.value, sys.running[id].trust)
    ensures SysInv(h, Queue(sys, id, p)) && Queue(sys, id, p).db == sys.db
  {
    hide Host.Lawful, Inv, TrustOk, ValidPrepared, Vouched;
  }

  lemma CommitKeepsInv(h: Host, sys: Sys, id: nat, n: nat)
    requires h.Lawful() && SysInv(h, sys)
    ensures SysInv(h, CommitPending(h, sys, id, n)) && Grows(sys.db, CommitPending(h, sys, id, n).db)
  {
    hide Host.Lawful, Inv, TrustOk, ValidPrepared, Vouched, Persist;
    if id in sys.running && n < |sys.running[id].pending| {
      var p := sys.running[id];
      OneTransaction(h, sys.db, p.pending[n]);
      assert forall q :: q in p.pending[..n] + p.pending[n + 1..] ==> q in p.pending;
    }
  }

  lemma SignedQueued(h: Host, s: Submission, envelope: Json, trust: TrustSet, expectedEvent: Option<string>,
                     now: Datetime, at: string)
    requires h.Lawful() && trust.Valid()
    ensures var p := PrepareSigned(h, s, envelope, trust, expectedEvent, now, at);
      p.Ok? ==> ValidPrepared(h, p.value) && Vouched(p.value, trust)
  {
    hide Host.Lawful, PrepareSigned, ValidPrepared, Vouched, Evaluate, SignedReceipt, ValidReceipt, Normalized;
    if PrepareSigned(h, s, envelope, trust, expectedEvent, now, at).Ok? {
      SignedIsPrepared(h, s, envelope, trust, expectedEvent, now, at);
      SignedIsVouched(h, s, envelope, trust, expectedEvent, now, at);
    }
  }

  lemma StepKeepsInv(h: Host, sys: Sys, e: Event)
    requires h.Lawful() && SysInv(h, sys)
    ensures SysInv(h, Step(h, sys, e)) && Grows(sys.db, Step(h, sys, e).db)
  {
    hide Host.Lawful, SysInv, StartProcess, CommitPending, PrepareSigned, PrepareRaw, Queue, UnsignedReceipt,
         ValidPrepared, Vouched;
    match e
    case Start(id, file) => StartKeepsInv(h, sys, id, file);
    case Stop(id) => StopKeepsInv(h, sys, id);
    case ReceiveSigned(id, s, envelope, expectedEvent, now, at) =>
      if id in sys.running {
        ProcessTrust(h, sys, id);
        SignedQueued(h, s, envelope, sys.running[id].trust, expectedEvent, now, at);
        QueueKeepsInv(h, sys, id, PrepareSigned(h, s, envelope, sys.running[id].trust, expectedEvent, now, at));
      }
    case ReceiveUnsigned(id, s, eventId, at, createdAt) =>
      if id in sys.running { RawQueued(h, sys, id, UnsignedReceipt(s, eventId, at, createdAt)); }
    case Deposit(id, receipt) =>
      if id in sys.running { RawQueued(h, sys, id, receipt); }
    case Commit(id, n) => CommitKeepsInv(h, sys, id, n);
  }

  lemma StopKeepsInv(h: Host, sys: Sys, id: nat)
    requires SysInv(h, sys)
    ensures SysInv(h, sys.(running := sys.running - {id}))
  {
    hide Host.Lawful, Inv, TrustOk, ProcessOk;
  }

  lemma ProcessTrust(h: Host, sys: Sys, id: nat)
    requires SysInv(h, sys) && id in sys.running
    ensures sys.running[id].trust.Valid()
  {}

  lemma RawQueued(h: Host, sys: Sys, id: nat, receipt: Fields)
    requires h.Lawful() && SysInv(h, sys) && id in sys.running
    ensures SysInv(h, Queue(sys, id, PrepareRaw(h, receipt))) && Queue(sys, id, PrepareRaw(h, receipt)).db == sys.db
  {
    hide Host.Lawful, SysInv, ValidPrepared, Queue;
    var p := PrepareRaw(h, receipt);
    if p.Ok? { RawIsPrepared(h, receipt); }
    hide PrepareRaw;
    assert p.Ok? ==> p.value.verified.None? by { RawCarriesNone(h, receipt); }
    QueueKeepsInv(h, sys, id, p);
  }

  lemma RawCarriesNone(h: Host, receipt: Fields)
    ensures PrepareRaw(h, receipt).Ok? ==> PrepareRaw(h, receipt).value.verified.None?
  {
    hide ValidateReceipt, OraclePartsOf;
  }

  /** In every run from a good state, the store stays good and only ever grows: a receipt, once
      stored, is there unchanged in every later state. */
  lemma {:induction false} RunKeepsInv(h: Host, sys: Sys, es: seq<Event>)
    requires h.Lawful() && SysInv(h, sys)
    ensures SysInv(h, Exec(h, sys, es)) && Grows(sys.db, Exec(h, sys, es).db)
  {
    hide Host.Lawful, SysInv, Step;
    if es != [] {
      RunKeepsInv(h, sys, es[..|es| - 1]);
      StepKeepsInv(h, Exec(h, sys, es[..|es| - 1]), es[|es| - 1]);
    }
  }

  /** Every reachable store satisfies the store invariant: valid rows, one consumed observation for
      each confirmed receipt, and every consumed observation pointing at its receipt. */
  lemma ReachableStoresAreGood(h: Host, es: seq<Event>)
    requires h.Lawful()
    ensures SysInv(h, Exec(h, INITIAL, es)) && Inv(h, Exec(h, INITIAL, es).db)
  {
    EmptyStore(h);
    RunKeepsInv(h, INITIAL, es);
  }

  /** A retry of an acknowledged submission, after any run of any processes, gets the same receipt. */
  lemma RetryInAnyRun(h: Host, sys: Sys, p: Prepared, es: seq<Event>, after: Sys, retry: Prepared)
    requires h.Lawful() && SysInv(h, sys) && ValidPrepared(h, p) && ValidPrepared(h, retry)
    requires Persist(h, sys.db, p).1.Ok? && SameContent(h, p.payload, retry.payload)
    requires SysInv(h, after) && after.db == Persist(h, sys.db, p).0
    ensures var later := Exec(h, after, es).db; Persist(h, later, retry) == (later, Persist(h, sys.db, p).1)
  {
    hide Host.Lawful, Inv, Persist, ValidPrepared, SameContent, TrustOk, ProcessOk, Step;
    RunKeepsInv(h, after, es);
    RetryIsIdempotent(h, sys.db, p, Exec(h, after, es).db, retry);
  }

  // ---------- Exactly once, in every run ----------

  /** The submission a step commits. */
  function CommittedBy(sys: Sys, e: Event): seq<Prepared> {
    match e
    case Commit(id, n) => if id in sys.running && n < |sys.running[id].pending| then [sys.running[id].pending[n]]
      else []
    case _ => []
  }

  /** What a run commits, in order, whichever process commits it. Pending work lost in a crash never
      appears; a client that submits again appears again. */
  function Committed(h: Host, sys: Sys, es: seq<Event>): seq<Prepared>
    requires h.Lawful()
  {
    if es == [] then []
    else
      var init := es[..|es| - 1];
      Committed(h, sys, init) + CommittedBy(Exec(h, sys, init), es[|es| - 1])
  }

  /** The receipt tables, without the trust row. */
  function Receipts(db: Db): Db { db.(trust := None) }

  lemma PersistKeepsTrust(h: Host, db: Db, p: Prepared)
    ensures Receipts(Persist(h, db, p).0) == Persist(h, Receipts(db), p).0
  {
    var key := IdempotencyKey(h, p.payload);
    var id := h.uuid5(key);
    InsertKeepsTrust(h, db, key, WithId(p.payload, id), id, p.verified);
    hide SameContent, StoredFields, IdempotencyKey, WithId, RowFor, Lookup, InsertAll, Get;
  }

  lemma InsertKeepsTrust(h: Host, db: Db, key: string, body: Fields, id: string, verified: Option<Verified>)
    ensures InsertAll(h, db, key, body, id, verified).Some? <==>
      InsertAll(h, Receipts(db), key, body, id, verified).Some?
    ensures InsertAll(h, db, key, body, id, verified).Some? ==>
      Receipts(InsertAll(h, db, key, body, id, verified).value)
        == InsertAll(h, Receipts(db), key, body, id, verified).value
  {
    hide RowFor;
  }

  lemma PersistAgain(h: Host, db: Db, before: seq<Prepared>, p: Prepared)
    ensures ExactlyOnce.Run(h, db, before + [p]) == Persist(h, ExactlyOnce.Run(h, db, before), p).0
    ensures ExactlyOnce.Run(h, db, before + []) == ExactlyOnce.Run(h, db, before)
  {
    RunNext(h, db, before, p);
    assert before + [] == before;
  }

  lemma CommittedIsPending(h: Host, sys: Sys, e: Event)
    requires h.Lawful() && SysInv(h, sys)
    ensures forall p :: p in CommittedBy(sys, e) ==> ValidPrepared(h, p)
    ensures CommittedBy(sys, e) == [] ==> Receipts(Step(h, sys, e).db) == Receipts(sys.db)
    ensures |CommittedBy(sys, e)| <= 1
    ensures forall p :: p in CommittedBy(sys, e) ==> Step(h, sys, e).db == Persist(h, sys.db, p).0
  {
    hide Host.Lawful, Inv, TrustOk, ValidPrepared, Vouched, Persist, Boot, PrepareSigned, PrepareRaw, UnsignedReceipt;
  }

  /** The tables after any run of any processes are those of committing one submission after another. */
  lemma {:induction false} RunIsItsCommits(h: Host, sys: Sys, es: seq<Event>)
    requires h.Lawful() && SysInv(h, sys)
    ensures Receipts(Exec(h, sys, es).db) == ExactlyOnce.Run(h, Receipts(sys.db), Committed(h, sys, es))
    ensures AllValid(h, Committed(h, sys, es))
  {
    hide Host.Lawful, SysInv, Step, CommittedBy, Persist, ExactlyOnce.Run, Receipts, ValidPrepared;
    if es == [] {
      NoCommits(h, Receipts(sys.db));
    } else {
      var init, last := es[..|es| - 1], es[|es| - 1];
      RunIsItsCommits(h, sys, init);
      RunKeepsInv(h, sys, init);
      var before := Exec(h, sys, init);
      CommittedIsPending(h, before, last);
      var ps := CommittedBy(before, last);
      if ps == [] {
        assert Committed(h, sys, es) == Committed(h, sys, init);
      } else {
        assert ps == [ps[0]];
        PersistKeepsTrust(h, before.db, ps[0]);
        PersistAgain(h, Receipts(sys.db), Committed(h, sys, init), ps[0]);
      }
    }
  }

  lemma NoCommits(h: Host, db: Db)
    ensures ExactlyOnce.Run(h, db, []) == db
  {}

  lemma ReceiptsInv(h: Host, db: Db)
    requires Inv(h, db)
    ensures Inv(h, Receipts(db))
  {
    InvIgnoresTrust(h, db, None);
  }

  /** Exactly once: after any run, with any interleaving of processes, retries and crashes, the tables are
      those of applying each first-accepted item once. There is one receipt for each of those items, and
      no two of them share an idempotency key or a signed observation. */
  lemma ExactlyOnceInEveryRun(h: Host, sys: Sys, es: seq<Event>)
    requires h.Lawful() && SysInv(h, sys)
    ensures var db := Receipts(sys.db);
      var firsts := Firsts(h, db, Committed(h, sys, es));
      && EachIsNew(h, db, firsts)
      && Receipts(Exec(h, sys, es).db) == ExactlyOnce.Run(h, db, firsts)
      && Exec(h, sys, es).db.receipts.Keys == sys.db.receipts.Keys + ItemIds(h, firsts)
      && AllUnrelated(h, firsts)
  {
    hide Host.Lawful, Inv, Exec, Committed, Firsts, EachIsNew, ExactlyOnce.Run, ItemIds, AllUnrelated, TrustOk,
         ProcessOk, Recorded, ValidPrepared;
    var db, ps := Receipts(sys.db), Committed(h, sys, es);
    ReceiptsInv(h, sys.db);
    RunIsItsCommits(h, sys, es);
    StoreIsFirstItems(h, db, ps);
    assert AllValid(h, Firsts(h, db, ps));
    OneReceiptPerItem(h, db, Firsts(h, db, ps));
  }

  // ---------- Revocation is permanent ----------

  /** A process that can no longer bring in anything from `k`: it does not trust the key, and has
      nothing of it pending. */
  ghost predicate Harmless(p: Process, k: string) {
    Distrusts(p.trust, k) && forall q :: q in p.pending ==> !From(q, k)
  }

  /** `k` is recorded as revoked, and every live process is harmless. */
  ghost predicate Revoked(sys: Sys, k: string) {
    && sys.db.trust.Some? && k in sys.db.trust.value.revoked
    && forall id :: id in sys.running ==> Harmless(sys.running[id], k)
  }

  /** Nothing added between two states rests on `k`: no confirmed receipt signed by it or with a
      contract it attested, and no observation signed by it consumed. */
  ghost predicate NothingFrom(a: Db, b: Db, k: string) {
    && (forall id :: id in b.receipts && id !in a.receipts ==>
          StoredFields(b.receipts[id]).Some? && !RestsOn(StoredFields(b.receipts[id]).value, k))
    && (forall c :: c in b.consumed && c !in a.consumed ==> c.0 != k)
  }

  lemma NothingFromTransitive(a: Db, b: Db, c: Db, k: string)
    requires NothingFrom(a, b, k) && NothingFrom(b, c, k) && Grows(a, b) && Grows(b, c)
    ensures NothingFrom(a, c, k)
  {
    hide StoredFields, RestsOn;
  }

  lemma SameAttester(payload: Fields, id: string)
    ensures AttestedBy(WithId(payload, id)) == AttestedBy(payload)
  {
    assert Get(WithId(payload, id), "oracle_observation") == Get(payload, "oracle_observation");
  }

  /** The stored form of a submission rests on `k` only when the submission is from `k`. */
  lemma RestsOnWhatItIsFrom(h: Host, p: Prepared, id: string, k: string)
    requires ValidPrepared(h, p)
    ensures RestsOn(WithId(p.payload, id), k) ==> From(p, k)
    ensures From(p, k) && Confirmed(p.payload) ==> RestsOn(WithId(p.payload, id), k)
  {
    hide ValidateReceipt, Confirmed, ClaimedObservation, ClaimedHash;
    BodyKeeps(p.payload, id);
    SameAttester(p.payload, id);
    hide WithId, AttestedBy;
  }

  lemma AddedObservations(db: Db, id: string, row: ReceiptRow, verified: Option<Verified>)
    ensures var after := Added(db, id, row, verified);
      && after.receipts == db.receipts[id := row]
      && (verified.None? ==> after.consumed == db.consumed)
      && (verified.Some? ==> after.consumed.Keys == db.consumed.Keys + {ObservationId(verified.value)})
  {}

  /** A commit adds something that rests on `k` exactly when the submission is new and from `k`,
      whatever the trust row says. */
  lemma CommitAddsExactly(h: Host, db: Db, p: Prepared, k: string)
    requires h.Lawful() && Inv(h, db) && ValidPrepared(h, p)
    ensures NothingFrom(db, Persist(h, db, p).0, k) <==> !IsNew(h, db, p) || !From(p, k)
  {
    hide Host.Lawful, Inv, Persist, ValidPrepared, IdempotencyKey, RowFor, WithId, StoredFields, RestsOn, IdAccepted,
         From, Added;
    var key := IdempotencyKey(h, p.payload);
    var id := h.uuid5(key);
    var row := RowFor(h, key, WithId(p.payload, id));
    OneTransaction(h, db, p);
    RestsOnWhatItIsFrom(h, p, id, k);
    StoredBody(h, key, WithId(p.payload, id));
    AddedObservations(db, id, row, p.verified);
    FromSigner(p, k);
    var after := Persist(h, db, p).0;
    if IsNew(h, db, p) && From(p, k) {
      assert id in after.receipts && id !in db.receipts;
      var c := ObservationId(p.verified.value);
      assert c in after.consumed && c !in db.consumed;
    }
  }

  lemma FromSigner(p: Prepared, k: string)
    ensures From(p, k) ==> p.verified.Some?
    ensures p.verified.Some? && !From(p, k) ==> p.verified.value.key.keyId != k
    ensures From(p, k) && p.verified.value.key.keyId != k ==> Confirmed(p.payload)
  {
    hide Confirmed, AttestedBy;
  }

  /** The same for a commit in a running system. */
  lemma CommitStepAddsExactly(h: Host, sys: Sys, id: nat, n: nat, k: string)
    requires h.Lawful() && SysInv(h, sys) && id in sys.running && n < |sys.running[id].pending|
    ensures var p := sys.running[id].pending[n];
      NothingFrom(sys.db, CommitPending(h, sys, id, n).db, k) <==> !IsNew(h, sys.db, p) || !From(p, k)
  {
    hide Host.Lawful, Inv, TrustOk, ValidPrepared, Vouched, Persist, IsNew, From, NothingFrom;
    CommitAddsExactly(h, sys.db, sys.running[id].pending[n], k);
  }

  lemma QueueIsHarmless(sys: Sys, id: nat, p: Result<Prepared, StoreError>, k: string)
    requires id in sys.running && Revoked(sys, k)
    requires p.Ok? ==> !From(p.value, k)
    ensures Revoked(Queue(sys, id, p), k) && Queue(sys, id, p).db == sys.db
  {
    hide From, Distrusts;
  }

  lemma SignedIsHarmless(h: Host, s: Submission, envelope: Json, trust: TrustSet, expectedEvent: Option<string>,
                         now: Datetime, at: string, k: string)
    requires h.Lawful() && trust.Valid() && Distrusts(trust, k)
    ensures var p := PrepareSigned(h, s, envelope, trust, expectedEvent, now, at); p.Ok? ==> !From(p.value, k)
  {
    hide Host.Lawful, PrepareSigned, ValidPrepared, Vouched, From, Distrusts;
    SignedQueued(h, s, envelope, trust, expectedEvent, now, at);
    var p := PrepareSigned(h, s, envelope, trust, expectedEvent, now, at);
    if p.Ok? { VouchedIsNotFrom(p.value, trust, k); }
  }

  lemma RawIsHarmless(h: Host, receipt: Fields, k: string)
    ensures PrepareRaw(h, receipt).Ok? ==> !From(PrepareRaw(h, receipt).value, k)
  {
    hide PrepareRaw, Confirmed, AttestedBy;
    RawCarriesNone(h, receipt);
  }

  lemma StartRespectsRevocation(h: Host, sys: Sys, id: nat, file: Json, k: string)
    requires h.Lawful() && SysInv(h, sys) && Revoked(sys, k)
    ensures Revoked(StartProcess(h, sys, id, file), k) && NothingFrom(sys.db, StartProcess(h, sys, id, file).db, k)
  {
    hide Host.Lawful, Inv, TrustOk, ProcessOk, Boot, From, StoredFields, RestsOn;
    if Boot(h, sys.db.trust, file).Some? { BootAgrees(h, sys.db.trust, file); }
  }

  lemma CommitRespectsRevocation(h: Host, sys: Sys, id: nat, n: nat, k: string)
    requires h.Lawful() && SysInv(h, sys) && Revoked(sys, k)
    ensures Revoked(CommitPending(h, sys, id, n), k) && NothingFrom(sys.db, CommitPending(h, sys, id, n).db, k)
  {
    hide Host.Lawful, Inv, TrustOk, ValidPrepared, Vouched, Persist, From, Distrusts, NothingFrom;
    if id in sys.running && n < |sys.running[id].pending| {
      var p := sys.running[id];
      CommitAddsExactly(h, sys.db, p.pending[n], k);
      PersistIgnoresTrust(h, sys.db, p.pending[n]);
      assert forall q :: q in p.pending[..n] + p.pending[n + 1..] ==> q in p.pending;
    } else {
      NothingFromSelf(sys.db, k);
    }
  }

  lemma StepRespectsRevocation(h: Host, sys: Sys, e: Event, k: string)
    requires h.Lawful() && SysInv(h, sys) && Revoked(sys, k)
    ensures Revoked(Step(h, sys, e), k) && NothingFrom(sys.db, Step(h, sys, e).db, k)
  {
    hide Host.Lawful, SysInv, StartProcess, CommitPending, PrepareSigned, PrepareRaw, Queue, UnsignedReceipt, From,
         Distrusts, NothingFrom;
    NothingFromSelf(sys.db, k);
    match e
    case Start(id, file) => StartRespectsRevocation(h, sys, id, file, k);
    case Stop(id) =>
    case ReceiveSigned(id, s, envelope, expectedEvent, now, at) =>
      if id in sys.running {
        ProcessTrust(h, sys, id);
        SignedIsHarmless(h, s, envelope, sys.running[id].trust, expectedEvent, now, at, k);
        QueueIsHarmless(sys, id, PrepareSigned(h, s, envelope, sys.running[id].trust, expectedEvent, now, at), k);
      }
    case ReceiveUnsigned(id, s, eventId, at, createdAt) =>
      if id in sys.running {
        RawIsHarmless(h, UnsignedReceipt(s, eventId, at, createdAt), k);
        QueueIsHarmless(sys, id, PrepareRaw(h, UnsignedReceipt(s, eventId, at, createdAt)), k);
      }
    case Deposit(id, receipt) =>
      if id in sys.running {
        RawIsHarmless(h, receipt, k);
        QueueIsHarmless(sys, id, PrepareRaw(h, receipt), k);
      }
    case Commit(id, n) => CommitRespectsRevocation(h, sys, id, n, k);
  }

  /** Once a key is recorded as revoked and every live process is harmless, no later step of any run
      adds anything that rests on it, whatever files are loaded. */
  lemma {:induction false} RunRespectsRevocation(h: Host, sys: Sys, es: seq<Event>, k: string)
    requires h.Lawful() && SysInv(h, sys) && Revoked(sys, k)
    ensures Revoked(Exec(h, sys, es), k) && NothingFrom(sys.db, Exec(h, sys, es).db, k)
  {
    hide Host.Lawful, SysInv, Step, NothingFrom, Revoked;
    if es == [] {
      NothingFromSelf(sys.db, k);
    } else {
      var init, last := es[..|es| - 1], es[|es| - 1];
      RunRespectsRevocation(h, sys, init, k);
      RunKeepsInv(h, sys, init);
      StepKeepsInv(h, Exec(h, sys, init), last);
      StepRespectsRevocation(h, Exec(h, sys, init), last, k);
      NothingFromTransitive(sys.db, Exec(h, sys, init).db, Exec(h, sys, es).db, k);
    }
  }

  lemma NothingFromSelf(db: Db, k: string) ensures NothingFrom(db, db, k) {}

  /** Revocation is permanent. Let a process restart and leave `k` revoked in the trust row, whether its
      file lists the key or an earlier one did, and let the other live processes be harmless (there
      are none when one runs at a time). Whatever happens afterwards, no confirmed receipt signed by
      `k` or with a contract attested by `k` is ever added, and none of its observations is
      consumed. */
  lemma RevocationIsPermanent(h: Host, sys: Sys, id: nat, file: Json, es: seq<Event>, k: string)
    requires h.Lawful() && SysInv(h, sys)
    requires forall other :: other in sys.running && other != id ==> Harmless(sys.running[other], k)
    requires Boot(h, sys.db.trust, file).Some? && k in Boot(h, sys.db.trust, file).value.0.revoked
    ensures var restarted := StartProcess(h, sys, id, file);
      && Revoked(restarted, k)
      && NothingFrom(restarted.db, Exec(h, restarted, es).db, k)
      && Revoked(Exec(h, restarted, es), k)
  {
    hide Host.Lawful, Inv, TrustOk, ProcessOk, Boot, Exec, NothingFrom, AcceptableTrustFile, From;
    var restarted := StartProcess(h, sys, id, file);
    BootAgrees(h, sys.db.trust, file);
    StartKeepsInv(h, sys, id, file);
    RunRespectsRevocation(h, restarted, es, k);
  }

  /** A key that the loaded file lists as revoked is revoked in the row the process leaves. */
  lemma FileRevocations(h: Host, row: Option<TrustRow>, file: Json, k: string)
    requires h.Lawful() && TrustOk(h, row) && Boot(h, row, file).Some?
    requires k in RevokedIds(file.fields["revoked_key_ids"])
    ensures k in Boot(h, row, file).value.0.revoked
  {
    BootAgrees(h, row, file);
    hide AcceptableEntries, Entries, KeyTable, Apply, TrustOk;
  }

  lemma ExecNext(h: Host, sys: Sys, es: seq<Event>, e: Event)
    requires h.Lawful()
    ensures Exec(h, sys, es + [e]) == Step(h, Exec(h, sys, es), e)
  {
    hide Step;
    assert (es + [e])[..|es|] == es;
  }

  /** Why the other processes must be harmless. A process starts, receives an observation signed by `k`,
      a second process starts with a file that revokes `k`, and the first one commits. */
  function LateCommit(file: Json, s: Submission, envelope: Json, now: Datetime, at: string,
      file': Json): (es: seq<Event>)
    ensures |es| == 4
  {
    [Start(0, file)] + [ReceiveSigned(0, s, envelope, None, now, at)] + [Start(1, file')] + [Commit(0, 0)]
  }

  lemma FirstStart(h: Host, file: Json)
    requires h.Lawful() && Boot(h, None, file).Some?
    ensures var (row, trust) := Boot(h, None, file).value;
      Step(h, INITIAL, Start(0, file)) == Sys(EMPTY.(trust := Some(row)), map[0 := Process(trust, [])])
  {
    hide Boot;
  }

  lemma ThenReceives(h: Host, db: Db, trust: TrustSet, s: Submission, envelope: Json, now: Datetime, at: string)
    requires h.Lawful() && PrepareSigned(h, s, envelope, trust, None, now, at).Ok?
    ensures Step(h, Sys(db, map[0 := Process(trust, [])]), ReceiveSigned(0, s, envelope, None, now, at))
      == Sys(db, map[0 := Process(trust, [PrepareSigned(h, s, envelope, trust, None, now, at).value])])
  {
    hide PrepareSigned;
    var p := PrepareSigned(h, s, envelope, trust, None, now, at).value;
    assert [] + [p] == [p];
    assert map[0 := Process(trust, [])][0 := Process(trust, [p])] == map[0 := Process(trust, [p])];
  }

  lemma SecondStart(h: Host, db: Db, p: Process, file: Json)
    requires h.Lawful() && Boot(h, db.trust, file).Some?
    ensures var (row, trust) := Boot(h, db.trust, file).value;
      Step(h, Sys(db, map[0 := p]), Start(1, file)) == Sys(db.(trust := Some(row)),
        map[0 := p, 1 := Process(trust, [])])
  {
    hide Boot;
  }

  lemma LateStates(h: Host, file: Json, s: Submission, envelope: Json, now: Datetime, at: string, file': Json)
    requires h.Lawful() && Boot(h, None, file).Some?
    requires var (row, trust) := Boot(h, None, file).value;
      && PrepareSigned(h, s, envelope, trust, None, now, at).Ok? && Boot(h, Some(row), file').Some?
    ensures var es := LateCommit(file, s, envelope, now, at, file');
      var (row, trust) := Boot(h, None, file).value;
      var (row', trust') := Boot(h, Some(row), file').value;
      && Exec(h, INITIAL, es[..3]) == Sys(EMPTY.(trust := Some(row')),
           map[0 := Process(trust, [PrepareSigned(h, s, envelope, trust, None, now, at).value]),
             1 := Process(trust', [])])
      && Exec(h, INITIAL, es) == Step(h, Exec(h, INITIAL, es[..3]), Commit(0, 0))
  {
    var (row, trust) := Boot(h, None, file).value;
    var p := PrepareSigned(h, s, envelope, trust, None, now, at).value;
    FirstStart(h, file);
    ThenReceives(h, EMPTY.(trust := Some(row)), trust, s, envelope, now, at);
    SecondStart(h, EMPTY.(trust := Some(row)), Process(trust, [p]), file');
    hide Host.Lawful, Boot, PrepareSigned, Step;
    var es := LateCommit(file, s, envelope, now, at, file');
    var one, two := [Start(0, file)], [Start(0, file)] + [ReceiveSigned(0, s, envelope, None, now, at)];
    assert [] + one == one && es[..3] == two + [Start(1, file')] && es == es[..3] + [Commit(0, 0)];
    ExecNext(h, INITIAL, [], Start(0, file));
    ExecNext(h, INITIAL, one, ReceiveSigned(0, s, envelope, None, now, at));
    ExecNext(h, INITIAL, two, Start(1, file'));
    ExecNext(h, INITIAL, es[..3], Commit(0, 0));
  }

  /** A receipt added between two states is confirmed and rests on `k`. */
  ghost predicate ConfirmedFrom(a: Db, b: Db, k: string) {
    exists id :: id in b.receipts && id !in a.receipts
      && StoredFields(b.receipts[id]).Some? && RestsOn(StoredFields(b.receipts[id]).value, k)
  }

  /** The last step of a run adds a confirmed receipt of `k`, although `k` was revoked in the row before it. */
  ghost predicate EndsWithRevokedKey(h: Host, es: seq<Event>, k: string)
    requires h.Lawful() && es != []
  {
    var before, after := Exec(h, INITIAL, es[..|es| - 1]), Exec(h, INITIAL, es);
    && before.db.trust.Some? && k in before.db.trust.value.revoked && before.db.trust == after.db.trust
    && ConfirmedFrom(before.db, after.db, k)
  }

  /** That happens when the submission is from `k` and the second file revokes it. */
  lemma RevokedKeyStillCommitted(h: Host, file: Json, s: Submission, envelope: Json, now: Datetime, at: string,
      file': Json, k: string)
    requires h.Lawful() && Boot(h, None, file).Some?
    requires var (row, trust) := Boot(h, None, file).value;
      var p := PrepareSigned(h, s, envelope, trust, None, now, at);
      && p.Ok? && From(p.value, k) && Confirmed(p.value.payload) && IdAccepted(h, p.value)
      && Boot(h, Some(row), file').Some? && k in Boot(h, Some(row), file').value.0.revoked
    ensures EndsWithRevokedKey(h, LateCommit(file, s, envelope, now, at, file'), k)
  {
    hide Host.Lawful, Boot, PrepareSigned, Persist, ConfirmedFrom, From, Confirmed, IdempotencyKey, IdAccepted, Exec,
         LateCommit, SysInv, Step;
    LateStates(h, file, s, envelope, now, at, file');
    InitiallyGood(h);
    var es := LateCommit(file, s, envelope, now, at, file');
    RunKeepsInv(h, INITIAL, es[..3]);
    var (row, trust) := Boot(h, None, file).value;
    LateCommitAdds(h, Exec(h, INITIAL, es[..3]), PrepareSigned(h, s, envelope, trust, None, now, at).value, k);
  }

  lemma InitiallyGood(h: Host)
    ensures SysInv(h, INITIAL)
  {
    EmptyStore(h);
  }

  lemma LateCommitAdds(h: Host, sys: Sys, p: Prepared, k: string)
    requires h.Lawful() && SysInv(h, sys) && 0 in sys.running && sys.running[0].pending == [p]
    requires sys.db.receipts == map[] && sys.db.keyIndex == map[] && sys.db.consumed == map[]
    requires From(p, k) && Confirmed(p.payload) && IdAccepted(h, p)
    ensures ConfirmedFrom(sys.db, Step(h, sys, Commit(0, 0)).db, k)
      && Step(h, sys, Commit(0, 0)).db.trust == sys.db.trust
  {
    hide Host.Lawful, Inv, TrustOk, ValidPrepared, Vouched, Persist, From, Confirmed, IdAccepted, IdempotencyKey,
         RowFor, WithId, StoredFields, RestsOn, Added;
    var key := IdempotencyKey(h, p.payload);
    var id := h.uuid5(key);
    OneTransaction(h, sys.db, p);
    RestsOnWhatItIsFrom(h, p, id, k);
    StoredBody(h, key, WithId(p.payload, id));
    AddedObservations(sys.db, id, RowFor(h, key, WithId(p.payload, id)), p.verified);
    assert id in Step(h, sys, Commit(0, 0)).db.receipts;
  }

  /** The trust row over whole runs evolves monotonically. */
  lemma {:induction false} TrustOverRuns(h: Host, sys: Sys, es: seq<Event>)
    requires h.Lawful() && SysInv(h, sys) && sys.db.trust.Some?
    ensures Exec(h, sys, es).db.trust.Some? && Evolves(sys.db.trust.value, Exec(h, sys, es).db.trust.value)
  {
    hide Host.Lawful, SysInv, Step;
    if es != [] {
      var init, last := es[..|es| - 1], es[|es| - 1];
      TrustOverRuns(h, sys, init);
      RunKeepsInv(h, sys, init);
      StepEvolves(h, Exec(h, sys, init), last);
    }
  }

  lemma StepEvolves(h: Host, sys: Sys, e: Event)
    requires h.Lawful() && SysInv(h, sys) && sys.db.trust.Some?
    ensures Step(h, sys, e).db.trust.Some? && Evolves(sys.db.trust.value, Step(h, sys, e).db.trust.value)
  {
    hide Host.Lawful, Inv, TrustOk, ValidPrepared, Vouched, Persist, Boot, PrepareSigned, PrepareRaw, UnsignedReceipt;
    match e
    case Start(id, file) => if Boot(h, sys.db.trust, file).Some? { BootAgrees(h, sys.db.trust, file); }
    case Commit(id, n) =>
      if id in sys.running
        && n < |sys.running[id].pending| { PersistIgnoresTrust(h, sys.db, sys.running[id].pending[n]); }
    case _ =>
  }
}
