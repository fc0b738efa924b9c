/** Racing backups to one destination: how many publish, how many succeed, and what a reported failure leaves
    behind. */
module BackupRaces {
  import opened Wrappers
  import opened Host
  import opened EvidenceStore
  import opened Backup

  // ---------- At most one, and exactly one ----------

  /** The event at position `i` gives the destination its name. */
  ghost predicate LinksAt(h: Host, fs: Fs, es: seq<Event>, i: nat) {
    && i < |es| && es[i].Link?
    && Phase(Exec(h, fs, es[..i]), es[i].r).Flushed? && Destination !in Exec(h, fs, es[..i]).names
  }

  lemma {:induction false} ExecSplit(h: Host, fs: Fs, a: seq<Event>, b: seq<Event>)
    ensures Exec(h, fs, a + b) == Exec(h, Exec(h, fs, a), b)
  {
    hide Step;
    if b == [] {
      assert a + b == a;
    } else {
      ExecSplit(h, fs, a, b[..|b| - 1]);
      assert (a + b)[..|a + b| - 1] == a + b[..|b| - 1];
    }
  }

  lemma LinkedForGood(h: Host, fs: Fs, es: seq<Event>, i: nat, j: nat)
    requires FsInv(h, fs) && LinksAt(h, fs, es, i) && i < j <= |es|
    ensures Destination in Exec(h, fs, es[..j]).names
  {
    hide Verifies, FsInv;
    DestinationIsSafe(h, fs, es[..i]);
    StepKeepsFsInv(h, Exec(h, fs, es[..i]), es[i]);
    assert es[..i + 1][..i] == es[..i];
    assert es[..j] == es[..i + 1] + es[i + 1..j];
    ExecSplit(h, fs, es[..i + 1], es[i + 1..j]);
    DestinationIsSafe(h, Exec(h, fs, es[..i + 1]), es[i + 1..j]);
  }

  /** Over a whole run the destination is linked at most once, whoever crashes or fails afterwards. */
  lemma OneLink(h: Host, fs: Fs, es: seq<Event>, i: nat, j: nat)
    requires Fresh(fs) && LinksAt(h, fs, es, i) && LinksAt(h, fs, es, j)
    ensures i == j
  {
    hide Verifies, Exec, Phase;
    FreshIsGood(h, fs);
    if i < j { LinkedForGood(h, fs, es, i, j); }
    if j < i { LinkedForGood(h, fs, es, j, i); }
  }

  ghost predicate AtDestination(fs: Fs, r: nat) {
    r in fs.racers && HasFile(fs.racers[r]) && Destination in fs.names
      && fs.names[Destination] == fs.racers[r].File().value
  }

  /** The published file belongs to at most one racer, whatever has become of that racer, and a racer that
      reports success published the very file that has the destination name. */
  lemma OneWinner(h: Host, fs: Fs, es: seq<Event>, r: nat, s: nat)
    requires Fresh(fs)
    ensures var end := Exec(h, fs, es);
      && (AtDestination(end, r) && AtDestination(end, s) ==> r == s)
      && (r in end.racers && end.racers[r].Succeeded? ==> AtDestination(end, r))
  {
    hide Exec;
    FreshIsGood(h, fs);
    DestinationIsSafe(h, fs, es);
  }

  /** No crash, no failing call, and only verifying sources. */
  ghost predicate Smooth(h: Host, es: seq<Event>) {
    forall e :: e in es ==> !e.Crash? && !e.Fails? && (e.SourceCommits? ==> Verifies(h, Image(e.db)))
  }

  ghost predicate SourcesVerify(h: Host, fs: Fs) { forall db :: db in fs.sources ==> Verifies(h, Image(db)) }

  ghost predicate SomeWinner(fs: Fs) { exists r :: r in fs.racers && fs.racers[r].Won() }

  /** While nothing goes wrong, a racer gives up only because another one has won. */
  ghost predicate Undisturbed(fs: Fs, r: nat) {
    Phase(fs, r).Aborting? || Phase(fs, r).Failed? ==> Destination in fs.names
  }

  ghost predicate NameFree(fs: Fs, r: nat) {
    Phase(fs, r).Ready? || Phase(fs, r).Checked? ==> Temporary(r) !in fs.names
  }

  ghost predicate SmoothInv(h: Host, fs: Fs) {
    && SourcesVerify(h, fs)
    && (forall r :: r in fs.racers ==> !fs.racers[r].Crashed? && NameFree(fs, r) && Undisturbed(fs, r))
    && (Destination in fs.names ==> SomeWinner(fs))
  }

  lemma WinnerStays(h: Host, fs: Fs, e: Event)
    requires SomeWinner(fs) && !e.Crash? && !e.Fails?
    ensures SomeWinner(Step(h, fs, e))
  {
    hide Verifies;
    var r :| r in fs.racers && fs.racers[r].Won();
    assert r in Step(h, fs, e).racers && Step(h, fs, e).racers[r].Won();
  }

  lemma LinkMakesWinner(h: Host, fs: Fs, e: Event)
    requires Destination !in fs.names && Destination in Step(h, fs, e).names
    ensures SomeWinner(Step(h, fs, e))
  {
    hide Verifies;
    assert e.Link? && Step(h, fs, e).racers[e.r].Linked?;
  }

  lemma CopiedVerifies(h: Host, fs: Fs, r: nat)
    requires FsInv(h, fs) && SourcesVerify(h, fs) && Phase(fs, r).Copied?
    ensures Phase(fs, r).inode in fs.files && Verifies(h, fs.files[Phase(fs, r).inode])
  {
    hide Verifies;
  }

  lemma SmoothRacer(h: Host, fs: Fs, e: Event, r: nat)
    requires FsInv(h, fs) && SourcesVerify(h, fs) && !e.Crash? && !e.Fails?
    requires r in fs.racers && !fs.racers[r].Crashed? && NameFree(fs, r) && Undisturbed(fs, r)
    ensures var after := Step(h, fs, e);
      r in after.racers && !after.racers[r].Crashed? && NameFree(after, r) && Undisturbed(after, r)
  {
    hide FsInv, Verifies, SourcesVerify;
    if e.Verify? && Phase(fs, e.r).Copied? { CopiedVerifies(h, fs, e.r); }
  }

  lemma SmoothStep(h: Host, fs: Fs, e: Event)
    requires SourcesVerify(h, fs) && (e.SourceCommits? ==> Verifies(h, Image(e.db)))
    ensures SourcesVerify(h, Step(h, fs, e)) && Step(h, fs, e).racers.Keys == fs.racers.Keys
  {
    hide Verifies;
  }

  lemma SmoothRacers(h: Host, fs: Fs, e: Event)
    requires FsInv(h, fs) && SmoothInv(h, fs) && !e.Crash? && !e.Fails?
      && (e.SourceCommits? ==> Verifies(h, Image(e.db)))
    ensures var after := Step(h, fs, e);
      && SourcesVerify(h, after) && after.racers.Keys == fs.racers.Keys
      && forall r :: r in after.racers ==> !after.racers[r].Crashed? && NameFree(after, r) && Undisturbed(after, r)
  {
    hide FsInv, Verifies, SourcesVerify, Step, NameFree, Undisturbed, SomeWinner;
    SmoothStep(h, fs, e);
    forall r | r in fs.racers
      ensures var after := Step(h, fs, e);
        r in after.racers && !after.racers[r].Crashed? && NameFree(after, r) && Undisturbed(after, r)
    {
      SmoothRacer(h, fs, e, r);
    }
  }

  lemma {:induction false} SmoothRun(h: Host, fs: Fs, es: seq<Event>)
    requires FsInv(h, fs) && SmoothInv(h, fs) && Smooth(h, es)
    ensures SmoothInv(h, Exec(h, fs, es)) && Exec(h, fs, es).racers.Keys == fs.racers.Keys
  {
    hide Verifies, Step, FsInv, SomeWinner, NameFree, Undisturbed, SourcesVerify;
    if es != [] {
      var init, last := es[..|es| - 1], es[|es| - 1];
      SmoothRun(h, fs, init);
      DestinationIsSafe(h, fs, init);
      var before := Exec(h, fs, init);
      SmoothRacers(h, before, last);
      StepNeverOverwritesName(h, before, last);
      if Destination in before.names { WinnerStays(h, before, last); }
      else if Destination in Step(h, before, last).names { LinkMakesWinner(h, before, last); }
    }
  }

  lemma StepNeverOverwritesName(h: Host, fs: Fs, e: Event)
    ensures Destination in fs.names ==> Destination in Step(h, fs, e).names
  {}

  /** Racers on a free destination, with sources that verify, and no temporary file left over. */
  ghost predicate GoodStart(h: Host, fs: Fs) {
    && Fresh(fs) && Destination !in fs.names && SourcesVerify(h, fs)
    && forall r :: r in fs.racers ==> Temporary(r) !in fs.names
  }

  lemma GoodStartIsSmooth(h: Host, fs: Fs)
    requires GoodStart(h, fs)
    ensures SmoothInv(h, fs)
  {
    hide Verifies;
  }

  lemma SuccessIsPublished(h: Host, fs: Fs)
    requires FsInv(h, fs)
    ensures forall r :: r in fs.racers && fs.racers[r].Won() ==> AtDestination(fs, r)
    ensures forall r, s :: AtDestination(fs, r) && AtDestination(fs, s) ==> r == s
  {
    hide Verifies, GoodCopy;
    forall r | r in fs.racers ensures RacerOk(h, fs, fs.racers[r]) {}
  }

  lemma SmoothEnd(h: Host, end: Fs) returns (winner: nat)
    requires FsInv(h, end) && SmoothInv(h, end) && end.racers != map[]
    requires forall r :: r in end.racers ==> end.racers[r].Finished()
    ensures winner in end.racers && end.racers[winner].Succeeded? && AtDestination(end, winner)
    ensures forall r :: r in end.racers && r != winner ==> end.racers[r].Failed?
  {
    hide SourcesVerify;
    SuccessIsPublished(h, end);
    hide FsInv, NameFree, AtDestination;
    var r :| r in end.racers;
    assert end.racers[r].Succeeded? || Undisturbed(end, r);
    winner :| winner in end.racers && end.racers[winner].Won();
  }

  /** When all racers finish without a crash or a failing call, exactly one of them succeeds. */
  lemma ExactlyOneSucceeds(h: Host, fs: Fs, es: seq<Event>) returns (winner: nat)
    requires GoodStart(h, fs) && fs.racers != map[] && Smooth(h, es)
    requires var end := Exec(h, fs, es); forall r :: r in end.racers ==> end.racers[r].Finished()
    ensures var end := Exec(h, fs, es);
      && winner in end.racers && end.racers[winner].Succeeded? && AtDestination(end, winner)
      && forall r :: r in end.racers && r != winner ==> end.racers[r].Failed?
  {
    FreshIsGood(h, fs);
    GoodStartIsSmooth(h, fs);
    hide Exec, FsInv, Fresh, SmoothInv, PublishedOk, AtDestination, Smooth;
    SmoothRun(h, fs, es);
    DestinationIsSafe(h, fs, es);
    assert Exec(h, fs, es).racers != map[] by {
      var r :| r in fs.racers;
      assert r in Exec(h, fs, es).racers;
    }
    winner := SmoothEnd(h, Exec(h, fs, es));
  }

  lemma ExecNext(h: Host, fs: Fs, es: seq<Event>, e: Event)
    ensures Exec(h, fs, es + [e]) == Step(h, Exec(h, fs, es), e) && Exec(h, fs, []) == fs
  {
    hide Step;
    assert (es + [e])[..|es|] == es;
  }

  /** The first calls of a racer, in order. */
  function UpToLink(r: nat): seq<Event> {
    [Check(r)] + [Create(r)] + [CopyRest(r)] + [Verify(r)] + [Sync(r)] + [Link(r)]
  }

  lemma ExecUpToLink(h: Host, fs: Fs, r: nat)
    ensures Exec(h, fs, UpToLink(r)) == Step(h, Step(h, Step(h, Step(h, Step(h, Step(h, fs, Check(r)), Create(r)),
      CopyRest(r)), Verify(r)), Sync(r)), Link(r))
  {
    hide Step;
    var a, b, c := [Check(r)], [Check(r)] + [Create(r)], [Check(r)] + [Create(r)] + [CopyRest(r)];
    ExecNext(h, fs, [], Check(r));
    ExecNext(h, fs, a, Create(r));
    ExecNext(h, fs, b, CopyRest(r));
    ExecNext(h, fs, c, Verify(r));
    ExecNext(h, fs, c + [Verify(r)], Sync(r));
    ExecNext(h, fs, c + [Verify(r)] + [Sync(r)], Link(r));
    assert [] + a == a;
  }

  /** Racer `r` has given its file, an image of `db`, the destination name. */
  ghost predicate HasLinked(fs: Fs, r: nat, db: Db) {
    && AtDestination(fs, r) && fs.racers[r].Linked? && fs.racers[r].inode in fs.files
    && fs.files[fs.racers[r].inode] == Image(db)
  }

  lemma Copies(h: Host, fs: Fs, r: nat)
    requires GoodStart(h, fs) && r in fs.racers && fs.sources != []
    ensures var copied := Step(h, Step(h, Step(h, fs, Check(r)), Create(r)), CopyRest(r));
      && Phase(copied, r).Copied? && Phase(copied, r).inode in copied.files && Destination !in copied.names
      && copied.files[Phase(copied, r).inode] == Image(fs.sources[|fs.sources| - 1])
      && Verifies(h, copied.files[Phase(copied, r).inode])
  {
    hide Verifies;
  }

  lemma ThenLinks(h: Host, fs: Fs, r: nat, db: Db)
    requires r in fs.racers && fs.racers[r].Copied? && fs.racers[r].inode in fs.files && Destination !in fs.names
    requires fs.files[fs.racers[r].inode] == Image(db) && Verifies(h, Image(db))
    ensures HasLinked(Step(h, Step(h, Step(h, fs, Verify(r)), Sync(r)), Link(r)), r, db)
  {
    hide Verifies;
  }

  /** On a free destination, a racer left to itself publishes the newest source version. */
  lemma ReachesLink(h: Host, fs: Fs, r: nat)
    requires GoodStart(h, fs) && r in fs.racers && fs.sources != []
    ensures HasLinked(Exec(h, fs, UpToLink(r)), r, fs.sources[|fs.sources| - 1])
  {
    hide Step, Exec, GoodStart, HasLinked, Verifies;
    ExecUpToLink(h, fs, r);
    Copies(h, fs, r);
    ThenLinks(h, Step(h, Step(h, Step(h, fs, Check(r)), Create(r)), CopyRest(r)), r, fs.sources[|fs.sources| - 1]);
  }

  lemma ThenSucceeds(h: Host, fs: Fs, r: nat, db: Db)
    requires HasLinked(fs, r, db)
    ensures var end := Step(h, Step(h, fs, Unlink(r)), SyncDirectory(r));
      && AtDestination(end, r) && end.racers[r] == Succeeded(fs.racers[r].inode) && end.files == fs.files
  {
    hide Verifies;
  }

  /** And it can happen: a racer left to itself on a free destination succeeds, and publishes the newest
      source version. */
  lemma ARacerSucceeds(h: Host, fs: Fs, r: nat)
    requires GoodStart(h, fs) && r in fs.racers && fs.sources != []
    ensures var end := Exec(h, fs, UpToLink(r) + [Unlink(r)] + [SyncDirectory(r)]);
      && AtDestination(end, r) && end.racers[r].Succeeded? && end.racers[r].inode in end.files
      && end.files[end.racers[r].inode] == Image(fs.sources[|fs.sources| - 1])
  {
    hide Step, Exec, GoodStart, UpToLink;
    ReachesLink(h, fs, r);
    ExecNext(h, fs, UpToLink(r), Unlink(r));
    ExecNext(h, fs, UpToLink(r) + [Unlink(r)], SyncDirectory(r));
    ThenSucceeds(h, Exec(h, fs, UpToLink(r)), r, fs.sources[|fs.sources| - 1]);
  }

  // ---------- What a reported failure leaves behind ----------

  /** Racer `r` failed after its file had been published: its temporary name could not be removed, or the
      directory could not be synced. */
  ghost predicate FailedLate(h: Host, fs: Fs, es: seq<Event>, r: nat) {
    exists i :: 0 <= i < |es| && LateFailure(h, fs, es, r, i)
  }

  ghost predicate LateFailure(h: Host, fs: Fs, es: seq<Event>, r: nat, i: nat) requires i < |es| {
    var p := Phase(Exec(h, fs, es[..i]), r);
    es[i] == Fails(r) && (p.Linked? || p.Published?)
  }

  lemma FailedLateNext(h: Host, fs: Fs, es: seq<Event>, e: Event, r: nat)
    ensures FailedLate(h, fs, es + [e], r) <==>
      var p := Phase(Exec(h, fs, es), r);
      FailedLate(h, fs, es, r) || (e == Fails(r) && (p.Linked? || p.Published?))
  {
    hide Exec;
    var all := es + [e];
    assert all[..|es|] == es && all[|es|] == e;
    forall i | 0 <= i < |es| ensures all[..i] == es[..i] && all[i] == es[i] {}
    if FailedLate(h, fs, es, r) {
      var i :| 0 <= i < |es| && LateFailure(h, fs, es, r, i);
      assert LateFailure(h, fs, all, r, i);
    }
    if FailedLate(h, fs, all, r) {
      var i :| 0 <= i < |all| && LateFailure(h, fs, all, r, i);
      if i < |es| { assert LateFailure(h, fs, es, r, i); }
    }
    if e == Fails(r) && (Phase(Exec(h, fs, es), r).Linked? || Phase(Exec(h, fs, es), r).Published?) {
      assert LateFailure(h, fs, all, r, |es|);
    }
  }

  /** What one step does to the claim that racer `r` failed late. */
  ghost predicate LateInv(fs: Fs, r: nat, late: bool) {
    var p := Phase(fs, r);
    if p.Aborting? || p.Failed? then late <==> AtDestination(fs, r) else p.Crashed? || !late
  }

  lemma OthersDoNotMatter(h: Host, fs: Fs, e: Event, r: nat)
    requires FsInv(h, fs) && (e.SourceCommits? || e.r != r)
    ensures Phase(Step(h, fs, e), r) == Phase(fs, r)
    ensures AtDestination(Step(h, fs, e), r) <==> AtDestination(fs, r)
  {
    if !e.SourceCommits? && Step(h, fs, e) != fs {
      MovesOnlyItsRacer(h, fs, e);
      hide Step, FsInv;
      StepMovesWell(h, fs, e);
      OthersFile(h, fs, e.r, r);
    }
  }

  lemma MovesOnlyItsRacer(h: Host, fs: Fs, e: Event)
    requires !e.SourceCommits? && Step(h, fs, e) != fs
    ensures e.r in fs.racers
  {}

  lemma OthersFile(h: Host, fs: Fs, r: nat, q: nat)
    requires FsInv(h, fs) && r != q
    ensures r in fs.racers && q in fs.racers && HasFile(fs.racers[r]) && HasFile(fs.racers[q]) ==>
      fs.racers[r].File() != fs.racers[q].File()
  {}

  lemma WhereItsFileIs(h: Host, fs: Fs, r: nat)
    requires FsInv(h, fs)
    ensures Phase(fs, r).Private() ==> !AtDestination(fs, r)
    ensures Phase(fs, r).Won() ==> AtDestination(fs, r)
  {
    hide Verifies, GoodCopy;
  }

  lemma StepKeepsLateInv(h: Host, fs: Fs, e: Event, r: nat, late: bool)
    requires FsInv(h, fs) && LateInv(fs, r, late)
    ensures LateInv(Step(h, fs, e), r, late || (e == Fails(r) && (Phase(fs, r).Linked? || Phase(fs, r).Published?)))
  {
    hide FsInv, Verifies;
    WhereItsFileIs(h, fs, r);
    if e.SourceCommits? || e.r != r {
      OthersDoNotMatter(h, fs, e, r);
      hide Step, AtDestination;
    }
  }

  lemma {:induction false} LateInvOverRun(h: Host, fs: Fs, es: seq<Event>, r: nat)
    requires Fresh(fs)
    ensures LateInv(Exec(h, fs, es), r, FailedLate(h, fs, es, r))
  {
    hide Verifies, Step, FailedLate, LateInv;
    if es == [] {
      NobodyHasFailed(h, fs, r);
    } else {
      var init, last := es[..|es| - 1], es[|es| - 1];
      LateInvOverRun(h, fs, init, r);
      FreshIsGood(h, fs);
      DestinationIsSafe(h, fs, init);
      StepKeepsLateInv(h, Exec(h, fs, init), last, r, FailedLate(h, fs, init, r));
      FailedLateNext(h, fs, init, last, r);
      assert es == init + [last];
    }
  }

  lemma NobodyHasFailed(h: Host, fs: Fs, r: nat)
    requires Fresh(fs)
    ensures LateInv(Exec(h, fs, []), r, FailedLate(h, fs, [], r))
  {
    hide Verifies;
  }

  /** A racer that reports a failure has published its file exactly when the call that failed was the
      removal of the temporary name or the directory sync, which come after the link. */
  lemma FailurePublishedExactlyWhenLate(h: Host, fs: Fs, es: seq<Event>, r: nat)
    requires Fresh(fs) && r in Exec(h, fs, es).racers && Exec(h, fs, es).racers[r].Failed?
    ensures AtDestination(Exec(h, fs, es), r) <==> FailedLate(h, fs, es, r)
  {
    hide Exec, FailedLate, AtDestination;
    LateInvOverRun(h, fs, es, r);
  }

  /** Both ways of failing late do occur, in a run from a free destination: the racer reports a failure
      and the newest source version stays published. */
  lemma LateFailuresHappen(h: Host, fs: Fs, r: nat, unlinked: bool)
    requires GoodStart(h, fs) && r in fs.racers && fs.sources != []
    ensures
      var es := (if unlinked then UpToLink(r) + [Unlink(r)] else UpToLink(r)) + [Fails(r)] + [CleanUp(r, true)];
      var end := Exec(h, fs, es);
      && AtDestination(end, r) && end.racers[r].Failed? && Temporary(r) !in end.names
      && PublishedOk(h, end) && end.files[end.names[Destination]] == Image(fs.sources[|fs.sources| - 1])
  {
    var before := if unlinked then UpToLink(r) + [Unlink(r)] else UpToLink(r);
    FreshIsGood(h, fs);
    hide Step, Exec, UpToLink, Verifies, FsInv, Fresh;
    ReachesLink(h, fs, r);
    ExecNext(h, fs, UpToLink(r), Unlink(r));
    ExecNext(h, fs, before, Fails(r));
    ExecNext(h, fs, before + [Fails(r)], CleanUp(r, true));
    DestinationIsSafe(h, fs, before + [Fails(r)] + [CleanUp(r, true)]);
    FailsLate(h, Exec(h, fs, UpToLink(r)), r, fs.sources[|fs.sources| - 1], unlinked);
  }

  lemma FailsLate(h: Host, fs: Fs, r: nat, db: Db, unlinked: bool)
    requires HasLinked(fs, r, db)
    ensures var before := if unlinked then Step(h, fs, Unlink(r)) else fs;
      var end := Step(h, Step(h, before, Fails(r)), CleanUp(r, true));
      && AtDestination(end, r) && end.racers[r].Failed? && end.names[Destination] in end.files
      && end.files[end.names[Destination]] == Image(db) && Temporary(r) !in end.names
  {
    hide Verifies;
  }

  ghost predicate NoWinner(fs: Fs) { forall r :: r in fs.racers ==> !fs.racers[r].Won() }

  lemma StepMakesNoWinner(h: Host, fs: Fs, e: Event)
    requires NoWinner(fs) && Destination in fs.names
    ensures NoWinner(Step(h, fs, e))
  {
    hide Verifies;
  }

  /** Nobody wins when the destination already exists. */
  lemma {:induction false} NobodyWinsOverAnExistingFile(h: Host, fs: Fs, es: seq<Event>)
    requires Fresh(fs) && Destination in fs.names
    ensures NoWinner(Exec(h, fs, es))
  {
    hide Verifies, Step;
    if es != [] {
      NobodyWinsOverAnExistingFile(h, fs, es[..|es| - 1]);
      FreshIsGood(h, fs);
      DestinationIsSafe(h, fs, es[..|es| - 1]);
      StepMakesNoWinner(h, Exec(h, fs, es[..|es| - 1]), es[|es| - 1]);
    }
  }
}
