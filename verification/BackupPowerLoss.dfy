/** Power losses during backups: what is not yet on disk may be gone after a reboot. The flush of the file and the
    flush of the directory decide what is not. */
module BackupPowerLoss {
  import opened Wrappers
  import opened Host
  import opened EvidenceStore
  import opened Backup
  import opened BackupRaces

  /** A call that had begun and not finished is lost. */
  function Interrupted(p: Racer): Racer { if p.Ready? || p.Finished() then p else Crashed(p.File()) }

  /** The entry a name has after a reboot: the one on disk for a name in `stale`, else the latest. */
  predicate HasEntry(fs: Fs, stale: set<Name>, n: Name) { if n in stale then n in fs.disk else n in fs.names }

  function Entries(fs: Fs, stale: set<Name>): map<Name, nat> {
    map n | n in fs.names.Keys + fs.disk.Keys && HasEntry(fs, stale, n) ::
      if n in stale then fs.disk[n] else fs.names[n]
  }

  /** The machine stops and starts again. Each file in `torn` that was not flushed comes back damaged, and each
      name in `stale` comes back as it was when the directory was last flushed: a new name is gone, a removed
      one is there again. */
  function PowerLoss(fs: Fs, torn: set<nat>, stale: set<Name>): Fs {
    var found := Entries(fs, stale);
    Fs(found, found, map i | i in fs.files :: if i in torn && i !in fs.synced then Torn else fs.files[i],
       fs.files.Keys, fs.next, map r | r in fs.racers :: Interrupted(fs.racers[r]), fs.sources)
  }

  // ---------- What is on disk ----------

  ghost predicate DurableRacer(fs: Fs, p: Racer) {
    && (p.Flushed? || p.Won() ==> p.inode in fs.synced)
    && (p.Succeeded? ==> Destination in fs.disk)
  }

  /** A published file has been flushed, and the destination on disk, if there is one, is the current one. */
  ghost predicate DurableInv(fs: Fs) {
    && (forall r :: r in fs.racers ==> DurableRacer(fs, fs.racers[r]))
    && (Destination in fs.names ==> fs.names[Destination] in fs.synced)
    && (Destination in fs.disk ==> Destination in fs.names && fs.names[Destination] == fs.disk[Destination])
  }

  /** Nothing is waiting to be written, as after a reboot. */
  ghost predicate Settled(fs: Fs) { fs.disk == fs.names && fs.synced == fs.files.Keys }

  lemma FreshIsDurable(fs: Fs)
    requires Fresh(fs) && Settled(fs)
    ensures DurableInv(fs)
  {}

  /** What a step does to the disk: only bytes being copied stop being safe, and the directory is left alone
      or flushed. */
  lemma StepOnDisk(h: Host, fs: Fs, e: Event)
    requires !e.SourceCommits? && e.r in fs.racers
    ensures var to, p := Step(h, fs, e), fs.racers[e.r];
      && (forall i :: i in fs.synced && (p.Copying? ==> i != p.inode) ==> i in to.synced)
      && (to.disk == fs.disk || to.disk == to.names)
  {
    hide Verifies;
  }

  /** The racer that acts: its file is flushed by `Sync`, and the directory on the way to success. */
  lemma ActorFileOnDisk(h: Host, fs: Fs, e: Event)
    requires !e.SourceCommits? && e.r in fs.racers && DurableRacer(fs, fs.racers[e.r])
    ensures var to := Step(h, fs, e);
      && e.r in to.racers
      && (to.racers[e.r].Flushed? || to.racers[e.r].Won() ==> to.racers[e.r].inode in to.synced)
  {
    hide Verifies;
  }

  lemma ActorNameOnDisk(h: Host, fs: Fs, e: Event)
    requires !e.SourceCommits? && e.r in fs.racers && DurableRacer(fs, fs.racers[e.r])
    ensures var to := Step(h, fs, e);
      e.r in to.racers && (to.racers[e.r].Succeeded? ==> to.disk == to.names || Destination in fs.disk)
  {
    hide Verifies;
  }

  lemma OthersStayDurable(h: Host, fs: Fs, e: Event, q: nat)
    requires FsInv(h, fs) && DurableInv(fs) && !e.SourceCommits? && q in fs.racers && q != e.r
    requires e.r in fs.racers && Step(h, fs, e) != fs
    ensures q in Step(h, fs, e).racers && DurableRacer(Step(h, fs, e), Step(h, fs, e).racers[q])
  {
    StepOnDisk(h, fs, e);
    StepMovesWell(h, fs, e);
    assert DurableRacer(fs, fs.racers[q]);
    OthersFile(h, fs, e.r, q);
    hide Step, RacerOk, OwnFiles, FsInv;
  }

  lemma ActorStaysDurable(h: Host, fs: Fs, e: Event)
    requires FsInv(h, fs) && DurableInv(fs) && !e.SourceCommits? && e.r in fs.racers && Step(h, fs, e) != fs
    ensures e.r in Step(h, fs, e).racers && DurableRacer(Step(h, fs, e), Step(h, fs, e).racers[e.r])
  {
    StepOnDisk(h, fs, e);
    ActorFileOnDisk(h, fs, e);
    ActorNameOnDisk(h, fs, e);
    StepMovesWell(h, fs, e);
    hide Step, OwnFiles, FsInv, GoodCopy;
  }

  lemma DestinationStaysDurable(h: Host, fs: Fs, e: Event)
    requires FsInv(h, fs) && DurableInv(fs) && !e.SourceCommits? && e.r in fs.racers && Step(h, fs, e) != fs
    ensures var to := Step(h, fs, e);
      && to.racers.Keys == fs.racers.Keys
      && (Destination in to.names ==> to.names[Destination] in to.synced)
      && (Destination in to.disk ==> Destination in to.names && to.names[Destination] == to.disk[Destination])
  {
    StepOnDisk(h, fs, e);
    StepMovesWell(h, fs, e);
    assert RacerOk(h, fs, fs.racers[e.r]) && DurableRacer(fs, fs.racers[e.r]);
    hide Step, OwnFiles, GoodCopy;
  }

  lemma StepKeepsDurableInv(h: Host, fs: Fs, e: Event)
    requires FsInv(h, fs) && DurableInv(fs)
    ensures DurableInv(Step(h, fs, e))
  {
    if !e.SourceCommits? && Step(h, fs, e) != fs {
      MovesOnlyItsRacer(h, fs, e);
      DestinationStaysDurable(h, fs, e);
      ActorStaysDurable(h, fs, e);
      forall r | r in fs.racers && r != e.r ensures DurableRacer(Step(h, fs, e), Step(h, fs, e).racers[r]) {
        OthersStayDurable(h, fs, e, r);
      }
      hide Step, DurableRacer;
    }
  }

  lemma {:induction false} RunKeepsDurableInv(h: Host, fs: Fs, es: seq<Event>)
    requires FsInv(h, fs) && DurableInv(fs)
    ensures FsInv(h, Exec(h, fs, es)) && DurableInv(Exec(h, fs, es))
  {
    hide Step, FsInv, DurableInv;
    if es != [] {
      var init := es[..|es| - 1];
      RunKeepsDurableInv(h, fs, init);
      StepKeepsDurableInv(h, Exec(h, fs, init), es[|es| - 1]);
      StepKeepsFsInv(h, Exec(h, fs, init), es[|es| - 1]);
    }
  }

  lemma DestinationEntry(fs: Fs, torn: set<nat>, stale: set<Name>)
    requires DurableInv(fs)
    ensures var after := PowerLoss(fs, torn, stale);
      && (Destination in after.names ==> Destination in fs.names && after.names[Destination] == fs.names[Destination])
      && (Destination in fs.disk ==> Destination in after.names)
      && (Destination in fs.names && Destination !in stale ==> Destination in after.names)
      && (Destination in stale && Destination !in fs.disk ==> Destination !in after.names)
  {
    hide DurableRacer;
  }

  lemma RacersAfter(h: Host, fs: Fs, torn: set<nat>, stale: set<Name>, r: nat)
    requires FsInv(h, fs) && DurableInv(fs) && r in fs.racers
    ensures var after := PowerLoss(fs, torn, stale);
      RacerOk(h, after, after.racers[r]) && DurableRacer(after, after.racers[r])
  {
    assert RacerOk(h, fs, fs.racers[r]) && DurableRacer(fs, fs.racers[r]);
    DestinationEntry(fs, torn, stale);
    hide OwnFiles, GoodCopy, DurableInv, Entries;
  }

  lemma FilesAfter(fs: Fs, torn: set<nat>, stale: set<Name>)
    requires OwnFiles(fs)
    ensures OwnFiles(PowerLoss(fs, torn, stale))
  {
    hide Entries;
    forall r | r in fs.racers ensures HasFile(Interrupted(fs.racers[r])) ==>
      Interrupted(fs.racers[r]).File() == fs.racers[r].File() {}
  }

  /** A power loss keeps both invariants; it leaves the destination absent or a verified snapshot, keeps an
      entry that was on disk, and keeps the bytes of a published file. */
  lemma PowerLossIsSafe(h: Host, fs: Fs, torn: set<nat>, stale: set<Name>)
    requires FsInv(h, fs) && DurableInv(fs)
    ensures var after := PowerLoss(fs, torn, stale);
      && FsInv(h, after) && DurableInv(after) && Settled(after)
      && (PublishedOk(h, fs) ==> PublishedOk(h, after))
      && (Destination in fs.disk ==> Kept(fs, after))
      && forall r :: r in fs.racers && fs.racers[r].Succeeded? ==> r in after.racers && after.racers[r] == fs.racers[r]
  {
    var after := PowerLoss(fs, torn, stale);
    DestinationEntry(fs, torn, stale);
    FilesAfter(fs, torn, stale);
    forall r | r in after.racers ensures RacerOk(h, after, after.racers[r]) && DurableRacer(after, after.racers[r]) {
      RacersAfter(h, fs, torn, stale, r);
    }
    hide OwnFiles, RacerOk, DurableRacer, Entries, Verifies;
  }

  /** The destination has the name and the bytes it had, and is still on disk. */
  ghost predicate Kept(fs: Fs, after: Fs) {
    Destination in fs.names ==>
      && Destination in after.names && after.names[Destination] == fs.names[Destination]
      && fs.names[Destination] in fs.files && fs.names[Destination] in after.files
      && after.files[fs.names[Destination]] == fs.files[fs.names[Destination]]
      && Destination in after.disk
  }

  // ---------- Any number of power losses ----------

  /** Steps of the racers between two boots, and what the power loss that ends them takes away. */
  datatype Life = Life(events: seq<Event>, torn: set<nat>, stale: set<Name>)

  function Lives(h: Host, fs: Fs, ls: seq<Life>): Fs {
    if ls == [] then fs
    else
      var k := |ls| - 1;
      PowerLoss(Exec(h, Lives(h, fs, ls[..k]), ls[k].events), ls[k].torn, ls[k].stale)
  }

  lemma StepKeepsDisk(h: Host, fs: Fs, e: Event)
    requires DurableInv(fs)
    ensures Destination in fs.disk ==> Destination in Step(h, fs, e).disk
  {
    if !e.SourceCommits? && e.r in fs.racers {
      StepOnDisk(h, fs, e);
      StepNeverOverwritesName(h, fs, e);
      hide Step, DurableRacer;
    }
  }

  lemma SuccessStays(h: Host, fs: Fs, e: Event)
    ensures forall r :: r in fs.racers && fs.racers[r].Succeeded? ==>
      r in Step(h, fs, e).racers && Step(h, fs, e).racers[r] == fs.racers[r]
  {
    hide Verifies;
  }

  lemma {:induction false} RunKeepsDisk(h: Host, fs: Fs, es: seq<Event>)
    requires FsInv(h, fs) && DurableInv(fs)
    ensures Destination in fs.disk ==> Kept(fs, Exec(h, fs, es))
    ensures forall r :: r in fs.racers && fs.racers[r].Succeeded? ==>
      r in Exec(h, fs, es).racers && Exec(h, fs, es).racers[r] == fs.racers[r]
  {
    hide Step, RacerOk, OwnFiles, DurableRacer;
    if es != [] {
      var init := es[..|es| - 1];
      RunKeepsDisk(h, fs, init);
      RunKeepsDurableInv(h, fs, init);
      StepKeepsDisk(h, Exec(h, fs, init), es[|es| - 1]);
      SuccessStays(h, Exec(h, fs, init), es[|es| - 1]);
    }
    DestinationIsSafe(h, fs, es);
  }

  /** Over any number of power losses, with racers working in between: the destination is absent or a complete
      verified snapshot; once its name is on disk it keeps the name and the bytes; and a racer that has
      reported success has published the file that is at the destination. */
  lemma {:induction false} PowerLossesAreSafe(h: Host, fs: Fs, ls: seq<Life>)
    requires FsInv(h, fs) && DurableInv(fs)
    ensures var end := Lives(h, fs, ls);
      && FsInv(h, end) && DurableInv(end)
      && (PublishedOk(h, fs) ==> PublishedOk(h, end))
      && (Destination in fs.disk ==> Kept(fs, end))
      && forall r :: r in fs.racers && fs.racers[r].Succeeded? ==> r in end.racers && end.racers[r] == fs.racers[r]
  {
    hide Exec, PowerLoss, FsInv, DurableInv, Verifies;
    if ls == [] {
      OnDisk(h, fs);
    } else {
      var k := |ls| - 1;
      PowerLossesAreSafe(h, fs, ls[..k]);
      var before := Lives(h, fs, ls[..k]);
      RunKeepsDurableInv(h, before, ls[k].events);
      DestinationIsSafe(h, before, ls[k].events);
      RunKeepsDisk(h, before, ls[k].events);
      OnDisk(h, fs);
      PowerLossIsSafe(h, Exec(h, before, ls[k].events), ls[k].torn, ls[k].stale);
    }
  }

  lemma OnDisk(h: Host, fs: Fs)
    requires FsInv(h, fs) && DurableInv(fs)
    ensures Destination in fs.disk ==> Destination in fs.names && Kept(fs, fs)
  {}

  /** After any number of power losses and any steps, the destination is absent or a complete verified
      snapshot, and no two racers have ever reported success. */
  lemma DestinationSurvives(h: Host, fs: Fs, ls: seq<Life>, es: seq<Event>)
    requires Fresh(fs) && Settled(fs) && PublishedOk(h, fs)
    ensures var end := Exec(h, Lives(h, fs, ls), es);
      && FsInv(h, end) && DurableInv(end) && PublishedOk(h, end)
      && forall r, s :: r in end.racers && end.racers[r].Succeeded? && s in end.racers && end.racers[s].Succeeded? ==>
           r == s && AtDestination(end, r)
  {
    FreshIsGood(h, fs);
    FreshIsDurable(fs);
    hide Exec, Lives, FsInv, DurableInv, Settled, Fresh, PublishedOk, AtDestination;
    PowerLossesAreSafe(h, fs, ls);
    RunKeepsDurableInv(h, Lives(h, fs, ls), es);
    DestinationIsSafe(h, Lives(h, fs, ls), es);
    SuccessIsPublished(h, Exec(h, Lives(h, fs, ls), es));
  }

  lemma SuccessIsOnDisk(h: Host, fs: Fs, r: nat)
    requires FsInv(h, fs) && DurableInv(fs) && r in fs.racers && fs.racers[r].Succeeded?
    ensures Destination in fs.disk && AtDestination(fs, r)
  {
    assert RacerOk(h, fs, fs.racers[r]) && DurableRacer(fs, fs.racers[r]);
    hide GoodCopy, OwnFiles;
  }

  /** A backup that was reported as a success is there after any further power losses, with the same bytes, a
      complete verified snapshot. */
  lemma AcknowledgedBackupSurvives(h: Host, fs: Fs, ls: seq<Life>, es: seq<Event>, r: nat, later: seq<Life>)
    requires Fresh(fs) && Settled(fs) && PublishedOk(h, fs)
    requires var mid := Exec(h, Lives(h, fs, ls), es); r in mid.racers && mid.racers[r].Succeeded?
    ensures var mid := Exec(h, Lives(h, fs, ls), es);
      var end := Lives(h, mid, later);
      && AtDestination(end, r) && AtDestination(mid, r)
      && GoodCopy(h, end, end.names[Destination])
      && end.names[Destination] == mid.names[Destination]
      && mid.names[Destination] in mid.files
      && end.files[end.names[Destination]] == mid.files[mid.names[Destination]]
  {
    var mid := Exec(h, Lives(h, fs, ls), es);
    DestinationSurvives(h, fs, ls, es);
    SuccessIsOnDisk(h, mid, r);
    hide Exec, Lives, FsInv, DurableInv, Settled, Fresh, GoodCopy;
    PowerLossesAreSafe(h, mid, later);
  }

  // ---------- What the two flushes are for ----------

  /** The bytes of a published file survive every power loss exactly when they were flushed. */
  lemma BytesSurviveExactlyWhenFlushed(h: Host, fs: Fs)
    requires FsInv(h, fs) && Destination in fs.names && PublishedOk(h, fs)
    requires Destination in fs.disk ==> fs.disk[Destination] == fs.names[Destination]
    ensures (forall torn: set<nat>, stale: set<Name> :: PublishedOk(h, PowerLoss(fs, torn, stale))) <==>
      fs.names[Destination] in fs.synced
  {
    hide Verifies;
    var i := fs.names[Destination];
    if i in fs.synced {
      forall torn: set<nat>, stale: set<Name> ensures PublishedOk(h, PowerLoss(fs, torn, stale)) {}
    } else {
      var after := PowerLoss(fs, {i}, {});
      assert Destination in after.names && after.files[i] == Torn;
      assert !PublishedOk(h, after);
    }
  }

  /** The name of a published file survives every power loss exactly when the directory was flushed. */
  lemma NameSurvivesExactlyWhenFlushed(fs: Fs)
    requires DurableInv(fs)
    ensures (forall torn: set<nat>, stale: set<Name> :: Destination in PowerLoss(fs, torn, stale).names) <==>
      Destination in fs.disk
  {
    hide DurableInv, PowerLoss;
    forall torn: set<nat>, stale: set<Name>
      ensures Destination in fs.disk ==> Destination in PowerLoss(fs, torn, stale).names {
      DestinationEntry(fs, torn, stale);
    }
    DestinationEntry(fs, {}, {Destination});
  }

  lemma KeepsDisk(h: Host, fs: Fs, e: Event)
    ensures !e.SyncDirectory? ==> Step(h, fs, e).disk == fs.disk
  {
    hide Verifies;
  }

  lemma {:induction false} NoFlushNoChange(h: Host, fs: Fs, es: seq<Event>)
    requires forall e :: e in es ==> !e.SyncDirectory?
    ensures Exec(h, fs, es).disk == fs.disk
  {
    hide Step;
    if es != [] {
      NoFlushNoChange(h, fs, es[..|es| - 1]);
      KeepsDisk(h, Exec(h, fs, es[..|es| - 1]), es[|es| - 1]);
    }
  }

  /** Before the directory is flushed, a published backup can still disappear. */
  lemma PublishedCanDisappear(h: Host, fs: Fs, r: nat)
    requires GoodStart(h, fs) && Settled(fs) && r in fs.racers && fs.sources != []
    ensures var published := Exec(h, fs, UpToLink(r));
      AtDestination(published, r) && Destination !in PowerLoss(published, {}, {Destination}).names
  {
    FreshIsGood(h, fs);
    FreshIsDurable(fs);
    ReachesLink(h, fs, r);
    NoFlushNoChange(h, fs, UpToLink(r));
    hide Exec, Step, FsInv, DurableInv, Verifies, UpToLink;
    RunKeepsDurableInv(h, fs, UpToLink(r));
    DestinationEntry(Exec(h, fs, UpToLink(r)), {}, {Destination});
  }
}
