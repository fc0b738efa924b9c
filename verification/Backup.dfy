/** Backup and restore: verifying a database file, and the crash-safe way a verified copy is
    published under its final name. */
module Backup {
  import opened Wrappers
  import opened Json
  import opened Host
  import opened Contract
  import opened Receipt
  import opened EvidenceStore
  import opened StoreInvariant

  /** The bytes of a file: a whole database image, or anything SQLite's integrity check rejects. */
  datatype Content = Torn | Image(db: Db)

  // ---------- verify_database ----------

  predicate RowVerifies(h: Host, receiptId: string, row: ReceiptRow) {
    match StoredFields(row)
    case None => false
    case Some(f) =>
      ValidateReceipt(h, f).Some? && Get(f, "receipt_id") == Str(receiptId)
        && h.CanonicalSha256(Obj(f)) == row.payloadSha256
  }

  predicate Verifies(h: Host, c: Content) {
    c.Image? && forall id :: id in c.db.receipts ==> RowVerifies(h, id, c.db.receipts[id])
  }

  /** `verify_database`: the number of receipts, None when some row does not verify. */
  method VerifyDatabase(h: Host, c: Content) returns (count: Option<nat>)
    ensures count == if Verifies(h, c) then Some(|c.db.receipts|) else None
  {
    if c.Torn? { return None; }
    hide RowVerifies;
    var remaining := c.db.receipts.Keys;
    var receiptCount: nat := 0;
    while remaining != {}
      invariant remaining <= c.db.receipts.Keys
      invariant receiptCount + |remaining| == |c.db.receipts|
      invariant forall id :: id in c.db.receipts && id !in remaining ==> RowVerifies(h, id, c.db.receipts[id])
      decreases |remaining|
    {
      var id :| id in remaining;
      if !RowVerifies(h, id, c.db.receipts[id]) { return None; }
      remaining := remaining - {id};
      receiptCount := receiptCount + 1;
    }
    return Some(receiptCount);
  }

  lemma GoodRowVerifies(h: Host, id: string, row: ReceiptRow)
    requires RowOk(h, id, row)
    ensures RowVerifies(h, id, row)
  {
    hide StoredFields, ValidateReceipt, IdempotencyKey, Encode;
  }

  /** Every good store verifies, and every receipt in it can be read back. */
  lemma GoodStoresVerify(h: Host, db: Db)
    requires Inv(h, db)
    ensures Verifies(h, Image(db))
    ensures forall id :: id in db.receipts ==> Read(h, db, id).Ok?
  {
    hide RowOk, RowVerifies, StoredFields, Read;
    forall id | id in db.receipts ensures RowVerifies(h, id, db.receipts[id]) && Read(h, db, id).Ok? {
      GoodRowVerifies(h, id, db.receipts[id]);
      ReadBack(h, db, id);
    }
  }

  // ---------- The publish protocol ----------

  /** One call of `backup_database`, by how far it has come. An `inode` is the file it created. */
  datatype Racer =
    | Ready
    | Checked
    | Copying(inode: nat)
    | Copied(inode: nat)
    | Approved(inode: nat)
    | Flushed(inode: nat)
    | Linked(inode: nat)
    | Published(inode: nat)
    | Aborting(inode: nat)
    | Succeeded(inode: nat)
    | Failed(file: Option<nat>)
    | Crashed(file: Option<nat>)
  {
    function File(): Option<nat> {
      match this
      case Ready => None
      case Checked => None
      case Failed(f) => f
      case Crashed(f) => f
      case _ => Some(inode)
    }
    /** Still working on a temporary file that has not been published. */
    predicate Private() { Copying? || Copied? || Approved? || Flushed? }
    /** Its file has the destination name, and nothing has gone wrong since. */
    predicate Won() { Linked? || Published? || Succeeded? }
    predicate Finished() { Succeeded? || Failed? || Crashed? }
  }

  /** The destination, and the temporary name of each racer, which carries a fresh uuid4. */
  datatype Name = Destination | Temporary(racer: nat)

  /** Directory entries and file contents as the processes see them, with the entries and the files that are
      safe on disk; the racers; and every source version there has been. */
  datatype Fs = Fs(names: map<Name, nat>, disk: map<Name, nat>, files: map<nat, Content>, synced: set<nat>, next: nat,
      racers: map<nat, Racer>, sources: seq<Db>)

  /** `Fails(r)`: the call that racer `r` makes next raises, whichever it is: the copy, the check, the
      flush, the link, the removal of the temporary name or the directory sync. `CleanUp` is the handler,
      which may or may not manage to remove the temporary name. */
  datatype Event =
    | Check(r: nat)
    | Create(r: nat)
    | CopyPart(r: nat)
    | CopyRest(r: nat)
    | Verify(r: nat)
    | Sync(r: nat)
    | Link(r: nat)
    | Unlink(r: nat)
    | SyncDirectory(r: nat)
    | Fails(r: nat)
    | CleanUp(r: nat, removed: bool)
    | Crash(r: nat)
    | SourceCommits(db: Db)

  function Move(fs: Fs, r: nat, to: Racer): Fs { fs.(racers := fs.racers[r := to]) }

  function Without(fs: Fs, r: nat): Fs { fs.(names := fs.names - {Temporary(r)}) }

  function CreateTemporary(fs: Fs, r: nat): Fs {
    if Temporary(r) in fs.names then Move(fs, r, Failed(None))
    else
      var created := fs.(names := fs.names[Temporary(r) := fs.next], files := fs.files[fs.next := Torn],
        next := fs.next + 1);
      Move(created, r, Copying(fs.next))
  }

  /** New bytes in a file are not on disk until it is flushed. */
  function Write(fs: Fs, i: nat, c: Content): Fs { fs.(files := fs.files[i := c], synced := fs.synced - {i}) }

  function CopyAll(fs: Fs, r: nat, i: nat): Fs {
    if fs.sources == [] then fs else Move(Write(fs, i, Image(fs.sources[|fs.sources| - 1])), r, Copied(i))
  }

  function CheckCopy(h: Host, fs: Fs, r: nat, i: nat): Fs {
    Move(fs, r, if i in fs.files && Verifies(h, fs.files[i]) then Approved(i) else Aborting(i))
  }

  /** A hard link fails when the name exists. */
  function LinkDestination(fs: Fs, r: nat, i: nat): Fs {
    if Destination in fs.names then Move(fs, r, Aborting(i))
    else Move(fs.(names := fs.names[Destination := i]), r, Linked(i))
  }

  function Phase(fs: Fs, r: nat): Racer { if r in fs.racers then fs.racers[r] else Crashed(None) }

  /** One step; a racer that is not at the right point does nothing. */
  function Step(h: Host, fs: Fs, e: Event): Fs {
    match e
    case SourceCommits(db) => fs.(sources := fs.sources + [db])
    case Check(r) => if Phase(fs, r).Ready? then Move(fs, r, if Destination in fs.names then Failed(None) else Checked)
      else fs
    case Create(r) => if Phase(fs, r).Checked? then CreateTemporary(fs, r) else fs
    case CopyPart(r) => if Phase(fs, r).Copying? then Write(fs, Phase(fs, r).inode, Torn) else fs
    case CopyRest(r) => if Phase(fs, r).Copying? then CopyAll(fs, r, Phase(fs, r).inode) else fs
    case Verify(r) => if Phase(fs, r).Copied? then CheckCopy(h, fs, r, Phase(fs, r).inode) else fs
    case Sync(r) =>
      var p := Phase(fs, r);
      if p.Approved? then Move(fs.(synced := fs.synced + {p.inode}), r, Flushed(p.inode)) else fs
    case Link(r) => if Phase(fs, r).Flushed? then LinkDestination(fs, r, Phase(fs, r).inode) else fs
    case Unlink(r) => if Phase(fs, r).Linked? then Move(Without(fs, r), r, Published(Phase(fs, r).inode)) else fs
    case SyncDirectory(r) =>
      var p := Phase(fs, r);
      if p.Published? then Move(fs.(disk := fs.names), r, Succeeded(p.inode)) else fs
    case Fails(r) =>
      var p := Phase(fs, r);
      if p.Private() || p.Linked? || p.Published? then Move(fs, r, Aborting(p.inode)) else fs
    case CleanUp(r, removed) =>
      var p := Phase(fs, r);
      if p.Aborting? then Move(if removed then Without(fs, r) else fs, r, Failed(Some(p.inode))) else fs
    case Crash(r) => if Phase(fs, r).Finished() then fs else Move(fs, r, Crashed(Phase(fs, r).File()))
  }

  function Exec(h: Host, fs: Fs, es: seq<Event>): Fs {
    if es == [] then fs else Step(h, Exec(h, fs, es[..|es| - 1]), es[|es| - 1])
  }

  /** A complete snapshot of some source version, and a verified one. */
  predicate GoodCopy(h: Host, fs: Fs, i: nat) {
    i in fs.files && fs.files[i].Image? && fs.files[i].db in fs.sources && Verifies(h, fs.files[i])
  }

  predicate HasFile(p: Racer) { p.File().Some? }

  /** What holds of a racer, from where it has come to. */
  ghost predicate RacerOk(h: Host, fs: Fs, p: Racer) {
    && (HasFile(p) ==> p.File().value in fs.files)
    && (p.Private() && Destination in fs.names ==> p.inode != fs.names[Destination])
    && (p.Won() ==> Destination in fs.names && fs.names[Destination] == p.inode)
    && (p.Copied? ==> fs.files[p.inode].Image? && fs.files[p.inode].db in fs.sources)
    && (p.Approved? || p.Flushed? ==> GoodCopy(h, fs, p.inode))
  }

  ghost predicate OwnFiles(fs: Fs) {
    forall r, s :: r in fs.racers && s in fs.racers && r != s && HasFile(fs.racers[r]) && HasFile(fs.racers[s]) ==>
      fs.racers[r].File() != fs.racers[s].File()
  }

  ghost predicate FsInv(h: Host, fs: Fs) {
    && (forall i :: i in fs.files ==> i < fs.next)
    && (Destination in fs.names ==> fs.names[Destination] in fs.files)
    && (forall r :: r in fs.racers ==> RacerOk(h, fs, fs.racers[r]))
    && OwnFiles(fs)
  }

  /** Before anyone has started: every racer is ready, and existing files are somebody else's. */
  ghost predicate Fresh(fs: Fs) {
    && (forall i :: i in fs.files ==> i < fs.next)
    && (Destination in fs.names ==> fs.names[Destination] in fs.files)
    && (forall r :: r in fs.racers ==> fs.racers[r].Ready?)
  }

  /** The destination is absent, or a complete verified snapshot of some source version. */
  ghost predicate PublishedOk(h: Host, fs: Fs) {
    Destination in fs.names ==> GoodCopy(h, fs, fs.names[Destination])
  }

  lemma SourcesGrow(h: Host, fs: Fs, e: Event)
    ensures forall db :: db in fs.sources ==> db in Step(h, fs, e).sources
  {}

  /** Only racer `r` acts: it touches no file but its own, and gives the destination a name only with its own
      flushed file. */
  ghost predicate OnlyMoves(fs: Fs, to: Fs, r: nat) {
    && r in fs.racers && to.racers.Keys == fs.racers.Keys
    && (forall q :: q in fs.racers && q != r ==> to.racers[q] == fs.racers[q])
    && to.sources == fs.sources
    && (forall i :: i in fs.files ==> i in to.files && (fs.racers[r].File() == Some(i) || to.files[i] == fs.files[i]))
    && (forall i :: i in to.files ==> i < to.next)
    && (if Destination in fs.names then Destination in to.names && to.names[Destination] == fs.names[Destination]
        else Destination in to.names ==>
          fs.racers[r].Flushed? && to.names[Destination] == fs.racers[r].inode && fs.racers[r].inode in fs.files)
    && (to.racers[r].File() == fs.racers[r].File() || to.racers[r].File().None? ||
        (fs.racers[r].File().None? && to.racers[r].File().value >= fs.next))
  }

  lemma OthersStayOk(h: Host, fs: Fs, to: Fs, r: nat, q: nat)
    requires FsInv(h, fs) && OnlyMoves(fs, to, r) && q in fs.racers && q != r
    ensures RacerOk(h, to, fs.racers[q])
  {
    hide Verifies;
    var p := fs.racers[q];
    assert RacerOk(h, fs, p);
    if HasFile(p) { assert fs.racers[r].File() != p.File(); }
  }

  lemma FilesStayOwn(h: Host, fs: Fs, to: Fs, r: nat, q: nat)
    requires FsInv(h, fs) && OnlyMoves(fs, to, r) && q in fs.racers && q != r
    requires HasFile(to.racers[r]) && HasFile(fs.racers[q])
    ensures to.racers[r].File() != fs.racers[q].File()
  {
    hide Verifies;
    assert RacerOk(h, fs, fs.racers[q]);
  }

  lemma MoveKeepsFsInv(h: Host, fs: Fs, to: Fs, r: nat)
    requires FsInv(h, fs) && OnlyMoves(fs, to, r) && RacerOk(h, to, to.racers[r])
    ensures FsInv(h, to)
  {
    hide RacerOk, Verifies;
    forall q | q in to.racers ensures RacerOk(h, to, to.racers[q]) {
      if q != r { OthersStayOk(h, fs, to, r, q); }
    }
    forall q, s | q in to.racers && s in to.racers && q != s && HasFile(to.racers[q]) && HasFile(to.racers[s])
      ensures to.racers[q].File() != to.racers[s].File()
    {
      if q == r { FilesStayOwn(h, fs, to, r, s); }
      else if s == r { FilesStayOwn(h, fs, to, r, q); }
    }
  }

  lemma SourceKeepsFsInv(h: Host, fs: Fs, db: Db)
    requires FsInv(h, fs)
    ensures FsInv(h, fs.(sources := fs.sources + [db]))
  {
    hide Verifies;
    var to := fs.(sources := fs.sources + [db]);
    forall r | r in fs.racers ensures RacerOk(h, to, fs.racers[r]) { assert RacerOk(h, fs, fs.racers[r]); }
  }

  /** Only racer `r` moved, and it is where what is asked of it holds. */
  ghost predicate MovesWell(h: Host, fs: Fs, to: Fs, r: nat) {
    OnlyMoves(fs, to, r) && RacerOk(h, to, to.racers[r])
  }

  lemma CreateMovesWell(h: Host, fs: Fs, r: nat)
    requires FsInv(h, fs) && Phase(fs, r).Checked? && Temporary(r) !in fs.names
    ensures MovesWell(h, fs, CreateTemporary(fs, r), r)
  {
    hide Verifies, OwnFiles, GoodCopy;
    assert RacerOk(h, fs, fs.racers[r]);
  }

  lemma WriteMovesWell(h: Host, fs: Fs, r: nat, c: Content)
    requires FsInv(h, fs) && Phase(fs, r).Copying?
    ensures var i := Phase(fs, r).inode;
      && MovesWell(h, fs, Write(fs, i, c), r)
      && (c.Image? && c.db in fs.sources ==> MovesWell(h, fs, Move(Write(fs, i, c), r, Copied(i)), r))
  {
    hide Verifies, OwnFiles;
    assert RacerOk(h, fs, fs.racers[r]);
  }

  lemma CheckMovesWell(h: Host, fs: Fs, r: nat)
    requires FsInv(h, fs) && Phase(fs, r).Copied?
    ensures MovesWell(h, fs, CheckCopy(h, fs, r, Phase(fs, r).inode), r)
  {
    hide Verifies, OwnFiles;
    assert RacerOk(h, fs, fs.racers[r]);
  }

  lemma SyncMovesWell(h: Host, fs: Fs, r: nat, synced: set<nat>)
    requires FsInv(h, fs) && Phase(fs, r).Approved?
    ensures MovesWell(h, fs, Move(fs.(synced := synced), r, Flushed(Phase(fs, r).inode)), r)
  {
    hide Verifies, OwnFiles;
    assert RacerOk(h, fs, fs.racers[r]);
  }

  lemma LinkMovesWell(h: Host, fs: Fs, r: nat)
    requires FsInv(h, fs) && Phase(fs, r).Flushed?
    ensures MovesWell(h, fs, LinkDestination(fs, r, Phase(fs, r).inode), r)
  {
    hide Verifies, OwnFiles;
    assert RacerOk(h, fs, fs.racers[r]);
  }

  /** A racer may move on with its own file or without one, as long as it claims no more than before, and
      may flush the directory. */
  lemma ClaimNoMore(h: Host, fs: Fs, r: nat, to: Racer, disk: map<Name, nat>)
    requires FsInv(h, fs) && r in fs.racers && !to.Private() && (to.Won() ==> fs.racers[r].Won())
    requires HasFile(to) ==> to.File() == fs.racers[r].File()
    ensures MovesWell(h, fs, Move(fs.(disk := disk), r, to), r)
  {
    hide Verifies, OwnFiles, GoodCopy;
    assert RacerOk(h, fs, fs.racers[r]);
  }

  /** It may also remove its temporary name. */
  lemma RemoveAndMove(h: Host, fs: Fs, r: nat, to: Racer)
    requires FsInv(h, fs) && r in fs.racers && !to.Private() && (to.Won() ==> fs.racers[r].Won())
    requires to.File() == fs.racers[r].File()
    ensures MovesWell(h, fs, Move(Without(fs, r), r, to), r)
  {
    hide Verifies, OwnFiles, GoodCopy;
    assert RacerOk(h, fs, fs.racers[r]);
  }

  lemma FailsToCreate(h: Host, fs: Fs, r: nat)
    requires FsInv(h, fs) && Phase(fs, r).Checked? && Temporary(r) in fs.names
    ensures MovesWell(h, fs, CreateTemporary(fs, r), r)
  {
    hide FsInv, MovesWell;
    assert fs.(disk := fs.disk) == fs;
    ClaimNoMore(h, fs, r, Failed(None), fs.disk);
  }

  lemma StepMovesWell(h: Host, fs: Fs, e: Event)
    requires FsInv(h, fs) && !e.SourceCommits? && e.r in fs.racers && Step(h, fs, e) != fs
    ensures MovesWell(h, fs, Step(h, fs, e), e.r)
  {
    hide FsInv, MovesWell, CreateTemporary, CheckCopy, LinkDestination, Verifies;
    var r, p := e.r, fs.racers[e.r];
    assert fs.(disk := fs.disk) == fs;
    match e
    case Check(r) => ClaimNoMore(h, fs, r, if Destination in fs.names then Failed(None) else Checked, fs.disk);
    case Create(r) =>
      if Temporary(r) in fs.names { FailsToCreate(h, fs, r); } else { CreateMovesWell(h, fs, r); }
    case CopyPart(r) => WriteMovesWell(h, fs, r, Torn);
    case CopyRest(r) => WriteMovesWell(h, fs, r, Image(fs.sources[|fs.sources| - 1]));
    case Verify(r) => CheckMovesWell(h, fs, r);
    case Sync(r) => SyncMovesWell(h, fs, r, fs.synced + {p.inode});
    case Link(r) => LinkMovesWell(h, fs, r);
    case Unlink(r) => RemoveAndMove(h, fs, r, Published(p.inode));
    case SyncDirectory(r) => ClaimNoMore(h, fs, r, Succeeded(p.inode), fs.names);
    case Fails(r) => ClaimNoMore(h, fs, r, Aborting(p.inode), fs.disk);
    case CleanUp(r, removed) =>
      ClaimNoMore(h, fs, r, Failed(Some(p.inode)), fs.disk);
      RemoveAndMove(h, fs, r, Failed(Some(p.inode)));
    case Crash(r) => ClaimNoMore(h, fs, r, Crashed(p.File()), fs.disk);
  }

  lemma StepKeepsFsInv(h: Host, fs: Fs, e: Event)
    requires FsInv(h, fs)
    ensures FsInv(h, Step(h, fs, e))
  {
    if e.SourceCommits? {
      SourceKeepsFsInv(h, fs, e.db);
    } else if e.r in fs.racers && Step(h, fs, e) != fs {
      hide Step, FsInv;
      StepMovesWell(h, fs, e);
      MoveKeepsFsInv(h, fs, Step(h, fs, e), e.r);
    }
  }

  /** A published file keeps its name and its bytes, and only a verified snapshot is ever given
      the name. */
  lemma StepNeverOverwrites(h: Host, fs: Fs, e: Event)
    requires FsInv(h, fs)
    ensures Destination in fs.names ==>
      && Destination in Step(h, fs, e).names && Step(h, fs, e).names[Destination] == fs.names[Destination]
      && Step(h, fs, e).files[fs.names[Destination]] == fs.files[fs.names[Destination]]
    ensures Destination !in fs.names && Destination in Step(h, fs, e).names ==>
      GoodCopy(h, Step(h, fs, e), Step(h, fs, e).names[Destination])
  {
    hide Verifies;
    SourcesGrow(h, fs, e);
  }

  /** However many racers there are and wherever they fail or crash, the destination stays absent or a
      complete verified snapshot, and is never overwritten. */
  lemma {:induction false} DestinationIsSafe(h: Host, fs: Fs, es: seq<Event>)
    requires FsInv(h, fs)
    ensures FsInv(h, Exec(h, fs, es))
    ensures PublishedOk(h, fs) ==> PublishedOk(h, Exec(h, fs, es))
    ensures Destination in fs.names ==>
      && Destination in Exec(h, fs, es).names && Exec(h, fs, es).names[Destination] == fs.names[Destination]
      && Exec(h, fs, es).files[fs.names[Destination]] == fs.files[fs.names[Destination]]
  {
    hide Verifies, Step;
    if es != [] {
      var init, last := es[..|es| - 1], es[|es| - 1];
      DestinationIsSafe(h, fs, init);
      var before := Exec(h, fs, init);
      StepKeepsFsInv(h, before, last);
      StepNeverOverwrites(h, before, last);
      SourcesGrow(h, before, last);
    }
  }

  lemma FreshIsGood(h: Host, fs: Fs)
    requires Fresh(fs)
    ensures FsInv(h, fs)
  {}

  // ---------- Backup, then restore ----------

  predicate OnlySource(es: seq<Event>, db: Db) { forall e :: e in es && e.SourceCommits? ==> e.db == db }

  lemma StepSources(h: Host, fs: Fs, e: Event)
    ensures Step(h, fs, e).sources == if e.SourceCommits? then fs.sources + [e.db] else fs.sources
  {}

  lemma {:induction false} SourceNeverChanges(h: Host, fs: Fs, es: seq<Event>, db: Db)
    requires (forall d :: d in fs.sources ==> d == db) && OnlySource(es, db)
    ensures forall d :: d in Exec(h, fs, es).sources ==> d == db
  {
    hide Step;
    if es != [] {
      SourceNeverChanges(h, fs, es[..|es| - 1], db);
      StepSources(h, Exec(h, fs, es[..|es| - 1]), es[|es| - 1]);
    }
  }

  /** Backup followed by restore preserves the receipts: what `restore_database` publishes, reading
      from a published backup, is that backup's image. */
  lemma RestorePreserves(h: Host, backup: Fs, restore: Fs, es: seq<Event>)
    requires PublishedOk(h, backup) && Destination in backup.names
    requires var db := backup.files[backup.names[Destination]].db;
      Fresh(restore) && Destination !in restore.names && restore.sources == [db] && OnlySource(es, db)
    ensures var end := Exec(h, restore, es);
      Destination in end.names ==>
        end.names[Destination] in end.files
          && end.files[end.names[Destination]] == backup.files[backup.names[Destination]]
  {
    hide Verifies, Exec;
    FreshIsGood(h, restore);
    DestinationIsSafe(h, restore, es);
    SourceNeverChanges(h, restore, es, backup.files[backup.names[Destination]].db);
  }
}
