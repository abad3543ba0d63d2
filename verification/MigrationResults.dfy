/** What a migration session guarantees, over all its runs. */
module MigrationResults {
  import opened MigrationModel
  import opened MigrationSession
  import opened MigrationInvariant
  import opened MigrationSteps

  /** The status startSource reports. */
  function Status(s: Src): string {
    if |s.warnings| > 0 then "completed_with_warnings" else "completed"
  }

  function TotalSize(files: seq<Entry>): nat {
    if files == [] then 0 else TotalSize(files[..|files| - 1]) + files[|files| - 1].size
  }

  lemma {:induction false} NoWarningsMeansAll(files: seq<Entry>, outcomes: seq<Outcome>)
    requires |outcomes| <= |files| && WarnedRels(files, outcomes) == []
    ensures SizesDone(files, outcomes) == TotalSize(files[..|outcomes|])
    ensures forall k :: 0 <= k < |outcomes| ==> !outcomes[k].Warned?
  {
    if outcomes != [] {
      var n := |outcomes| - 1;
      assert files[..n + 1][..n] == files[..n];
      NoWarningsMeansAll(files, outcomes[..n]);
      assert outcomes[..n] + [outcomes[n]] == outcomes;
    }
  }

  lemma {:induction false} WarnedMeansListed(j: Job, outcomes: seq<Outcome>, k: nat)
    requires |outcomes| <= |j.files| && k < |j.files|
    requires forall a, b :: 0 <= a < b < |j.files| ==> j.files[a].rel != j.files[b].rel
    ensures j.files[k].rel in WarnedRels(j.files, outcomes) <==> k < |outcomes| && outcomes[k].Warned?
    decreases |outcomes|
  {
    if outcomes != [] {
      var n := |outcomes| - 1;
      WarnedMeansListed(j, outcomes[..n], k);
    }
  }

  lemma {:induction false} WarnedIsListed(files: seq<Entry>, outcomes: seq<Outcome>, rel: string)
    requires |outcomes| <= |files| && rel in WarnedRels(files, outcomes)
    ensures exists k :: 0 <= k < |outcomes| && files[k].rel == rel
    decreases |outcomes|
  {
    var n := |outcomes| - 1;
    if rel in WarnedRels(files, outcomes[..n]) {
      WarnedIsListed(files, outcomes[..n], rel);
    }
  }

  /** The destination file of entry k holds `content`. */
  predicate OnDisk(j: Job, s: Session, k: nat, content: Content)
    requires k < |j.files|
  {
    var path := Target(j, s.dst.destPath, k);
    path in s.store.disk && s.store.disk[path] == content
  }

  predicate HasWarning(s: Src, rel: string) {
    rel in FilesOf(s.warnings)
  }

  /** Transfer correctness: when migration_done is emitted, every listed file was skipped,
      exactly when the completed set has it with its size and modification time, or has a
      warning, or is on the destination's disk exactly as it was hashed on its accepted attempt,
      with the announced size; retries, damaged chunks and later files do not disturb it. The
      totals add up, and the status tells whether there are warnings. */
  lemma DoneMeansTransferred(j: Job, destPath: string, completed: map<string, FileInfo>, store: Store, run: seq<Action>)
    requires ValidJob(j, destPath) && Feasible(j, StartSession(destPath, completed, store), run)
    requires After(j, StartSession(destPath, completed, store), run).src.phase.Finished?
    ensures var s := After(j, StartSession(destPath, completed, store), run);
            && |s.src.outcomes| == |j.files|
            && (forall k :: 0 <= k < |j.files| ==>
                  var e := j.files[k];
                  s.src.outcomes[k].Skipped? <==>
                    e.rel in j.completed && j.completed[e.rel].size == e.size && j.completed[e.rel].mtime == e.mtime)
            && (forall k :: 0 <= k < |j.files| && s.src.outcomes[k].Accepted? ==>
                  var content := s.src.outcomes[k].content;
                  OnDisk(j, s, k, content) && |content| == j.files[k].size)
            && (forall k :: 0 <= k < |j.files| ==> (s.src.outcomes[k].Warned? <==> HasWarning(s.src, j.files[k].rel)))
            && s.src.filesCompleted + |s.src.warnings| == |j.files|
            && s.src.bytesTransferred == SizesDone(j.files, s.src.outcomes)
            && (Status(s.src) == "completed" <==> forall k :: 0 <= k < |j.files| ==> !HasWarning(s.src, j.files[k].rel))
            && (Status(s.src) != "completed" ==> Status(s.src) == "completed_with_warnings")
            && (Status(s.src) == "completed" ==> s.src.bytesTransferred == TotalSize(j.files))
  {
    StartIsInv(j, destPath, completed, store);
    RunKeepsInv(j, StartSession(destPath, completed, store), run);
    var s := After(j, StartSession(destPath, completed, store), run);
    forall k | 0 <= k < |j.files|
      ensures HasWarning(s.src, j.files[k].rel) <==> s.src.outcomes[k].Warned?
    {
      WarnedMeansListed(j, s.src.outcomes, k);
    }
    if |s.src.warnings| > 0 {
      WarnedIsListed(j.files, s.src.outcomes, FilesOf(s.src.warnings)[0]);
    } else {
      assert FilesOf(s.src.warnings) == [];
      NoWarningsMeansAll(j.files, s.src.outcomes);
      assert j.files[..|j.files|] == j.files;
    }
  }

  /** At any moment, what has already been accepted is on the disk, no file has been announced
      more than three times, and between files the byte counter is the size of what is done. */
  lemma ProgressIsKept(j: Job, destPath: string, completed: map<string, FileInfo>, store: Store, run: seq<Action>)
    requires ValidJob(j, destPath) && Feasible(j, StartSession(destPath, completed, store), run)
    ensures var s := After(j, StartSession(destPath, completed, store), run);
            && s.src.headers <= 3
            && |s.src.outcomes| <= |j.files|
            && (forall k :: 0 <= k < |s.src.outcomes| && s.src.outcomes[k].Accepted? ==>
                  OnDisk(j, s, k, s.src.outcomes[k].content))
            && (s.src.phase.Listing? ==> s.src.bytesTransferred == SizesDone(j.files, s.src.outcomes))
  {
    StartIsInv(j, destPath, completed, store);
    RunKeepsInv(j, StartSession(destPath, completed, store), run);
  }

  // ─── Acks ────────────────────────────────────────────────────────────────────

  /** The ack belongs to the attempt in progress and confirms no more than was sent. */
  predicate Current(s: Session, m: ToSrc) {
    && m.fileID == s.src.fileID && m.epoch == s.src.epoch
    && (m.WindowAck? ==> s.src.acked < m.acked <= |s.src.sent| && (s.dst.curFileID == s.src.fileID ==> m.acked <= s.dst.curWritten))
  }

  lemma AcksAreCurrent(j: Job, s: Session, acks: seq<ToSrc>, k: nat)
    requires AckInv(s.src, acks, s.dst, s.dropped) && k < |acks| && s.dst.curWritten <= |s.src.sent|
    ensures Current(s, acks[k])
  {
    SpacedTops(s.src.acked, acks, k);
    assert (k + 1) * WINDOW_ACK_EVERY >= WINDOW_ACK_EVERY;
  }

  /** While chunks are streamed, every window ack in transit or queued is the current
      attempt's; a verdict that can be taken is the verdict on the attempt that waits for it;
      and what counts as acked was written at the destination for this attempt. */
  lemma AcksNeverStale(j: Job, destPath: string, completed: map<string, FileInfo>, store: Store, run: seq<Action>)
    requires ValidJob(j, destPath) && Feasible(j, StartSession(destPath, completed, store), run)
    ensures var s := After(j, StartSession(destPath, completed, store), run);
            && (s.src.phase.Streaming? ==>
                  && s.chan.fileAck == []
                  && (forall m :: m in s.chan.windowAck || m in s.toSrc ==> m.WindowAck? && Current(s, m))
                  && s.src.acked <= |s.src.sent|
                  && (s.dst.curFileID == s.src.fileID ==> s.src.acked <= s.dst.curWritten <= |s.src.sent|))
            && (s.src.phase.Awaiting? && s.chan.fileAck != [] ==>
                  && |s.chan.fileAck| == 1 && s.chan.fileAck[0].FileAck? && Current(s, s.chan.fileAck[0])
                  && (s.chan.fileAck[0].ok ==> s.src.next < |j.files| && OnDisk(j, s, s.src.next, s.src.hashed)))
  {
    StartIsInv(j, destPath, completed, store);
    RunKeepsInv(j, StartSession(destPath, completed, store), run);
    var s := After(j, StartSession(destPath, completed, store), run);
    if s.src.phase.Streaming? {
      if Receiving(j, s, false) {
        var acks := s.chan.windowAck + s.toSrc;
        forall m | m in s.chan.windowAck || m in s.toSrc
          ensures m.WindowAck? && Current(s, m)
        {
          assert m in acks;
          var k :| 0 <= k < |acks| && acks[k] == m;
          AcksAreCurrent(j, s, acks, k);
        }
        if acks != [] {
          SpacedTops(s.src.acked, acks, 0);
        }
      }
    }
    if s.src.phase.Awaiting? && s.chan.fileAck != [] {
      VerdictIsAnswered(j, s);
    }
  }
}
