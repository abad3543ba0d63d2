/** Every job whose window holds an ack, or each of its files, can be carried out. */
module MigrationCompletion {
  import opened MigrationModel
  import opened MigrationSession
  import opened MigrationInvariant
  import opened MigrationSteps
  import opened MigrationResults
  import opened MigrationReads
  import opened MigrationAttempts

  /** The files are there with their listed sizes, and they fit. */
  predicate Readable(j: Job, tree: seq<Content>) {
    && |tree| == |j.files|
    && forall k :: 0 <= k < |tree| ==> |tree[k]| == j.files[k].size && FitsWindow(j, k)
  }

  /** The session is between files, and those before the next one are done as they are found. */
  predicate DoneSoFar(j: Job, tree: seq<Content>, s: Session) {
    && Inv(j, s) && |tree| == |j.files| && s.src.phase.Listing?
    && forall k :: 0 <= k < s.src.next ==> s.src.outcomes[k].Skipped? || s.src.outcomes[k] == Accepted(tree[k])
  }

  lemma ReachedKeepsInv(j: Job, s: Session, t: Session)
    requires Inv(j, s) && CanReach(j, s, t, Full)
    ensures Inv(j, t)
  {
    var run: seq<Action> :| Leads(j, s, run, t, Full);
    RunKeepsInv(j, s, run);
  }

  lemma BeginFile(j: Job, s: Session)
    requires Inv(j, s) && Enabled(j, s, Source(Begin))
    ensures var b := Apply(j, s, Source(Begin));
            && b.src.outcomes == s.src.outcomes
            && Enabled(j, b, Source(Drain)) && MayAnnounce(j, Apply(j, b, Source(Drain)), s.src.next)
  {
  }

  lemma SkipFile(j: Job, s: Session) returns (t: Session)
    requires Inv(j, s) && Enabled(j, s, Source(Skip))
    ensures CanReach(j, s, t, Full) && t.src.phase.Listing? && t.src.next == s.src.next + 1
    ensures t.src.outcomes == s.src.outcomes + [Skipped]
  {
    t := Apply(j, s, Source(Skip));
    ReachByOne(j, s, Source(Skip), Full);
  }

  lemma SendFile(j: Job, s: Session, content: Content) returns (t: Session)
    requires Inv(j, s) && Enabled(j, s, Source(Begin))
    requires |content| == j.files[s.src.next].size && FitsWindow(j, s.src.next)
    ensures CanReach(j, s, t, Full) && t.src.phase.Listing? && t.src.next == s.src.next + 1
    ensures t.src.outcomes == s.src.outcomes + [Accepted(content)]
  {
    BeginFile(j, s);
    var b := Apply(j, s, Source(Begin));
    ReachByOne(j, s, Source(Begin), Full);
    t := TryAgain(j, b, s.src.next, content);
    ReachTrans(j, s, b, t, Full);
  }

  lemma NextFile(j: Job, tree: seq<Content>, s: Session) returns (t: Session)
    requires DoneSoFar(j, tree, s) && Readable(j, tree) && s.src.next < |j.files|
    ensures CanReach(j, s, t, Full) && DoneSoFar(j, tree, t) && t.src.next == s.src.next + 1
  {
    if Covered(j, j.files[s.src.next]) {
      t := SkipFile(j, s);
    } else {
      t := SendFile(j, s, tree[s.src.next]);
    }
    ReachedKeepsInv(j, s, t);
  }

  lemma {:induction false} AllFiles(j: Job, tree: seq<Content>, s: Session) returns (t: Session)
    requires DoneSoFar(j, tree, s) && Readable(j, tree)
    ensures CanReach(j, s, t, Full) && DoneSoFar(j, tree, t) && t.src.next == |j.files|
    decreases |j.files| - s.src.next
  {
    if s.src.next == |j.files| {
      t := s;
      ReachNothing(j, s, Full);
    } else {
      var n := NextFile(j, tree, s);
      t := AllFiles(j, tree, n);
      ReachTrans(j, s, n, t, Full);
    }
  }

  lemma EndOfList(j: Job, s: Session) returns (t: Session)
    requires s.src.phase.Listing? && s.src.next == |j.files|
    ensures CanReach(j, s, t, Full) && t.src.phase.Finished? && t.src.outcomes == s.src.outcomes
  {
    t := Apply(j, s, Source(Finish));
    ReachByOne(j, s, Source(Finish), Full);
  }

  lemma FinishedRun(j: Job, tree: seq<Content>, start: Session) returns (run: seq<Action>)
    requires DoneSoFar(j, tree, start) && Readable(j, tree)
    ensures Feasible(j, start, run)
    ensures var s := After(j, start, run);
            && s.src.phase.Finished? && |s.src.outcomes| == |j.files|
            && forall k :: 0 <= k < |j.files| ==> s.src.outcomes[k].Skipped? || s.src.outcomes[k] == Accepted(tree[k])
  {
    var listed := AllFiles(j, tree, start);
    var finished := EndOfList(j, listed);
    ReachTrans(j, start, listed, finished, Full);
    run :| Leads(j, start, run, finished, Full);
  }

  /** From any state of the store there is a run that finishes with the status completed: it skips
      what the completed set has, and every other file is on the disk as the source has it. */
  lemma SessionsComplete(j: Job, destPath: string, completed: map<string, FileInfo>, store: Store, tree: seq<Content>)
      returns (run: seq<Action>)
    requires ValidJob(j, destPath) && Readable(j, tree)
    ensures Feasible(j, StartSession(destPath, completed, store), run)
    ensures var s := After(j, StartSession(destPath, completed, store), run);
            && s.src.phase.Finished? && Status(s.src) == "completed"
            && |s.src.outcomes| == |j.files|
            && forall k :: 0 <= k < |j.files| ==> s.src.outcomes[k].Skipped? || OnDisk(j, s, k, tree[k])
  {
    StartIsInv(j, destPath, completed, store);
    run := FinishedRun(j, tree, StartSession(destPath, completed, store));
    DoneMeansTransferred(j, destPath, completed, store, run);
  }
}
