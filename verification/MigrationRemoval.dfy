/** Nothing is left at the destination of a file that was refused. */
module MigrationRemoval {
  import opened Basics
  import opened MigrationModel
  import opened MigrationSession
  import opened MigrationInvariant
  import opened MigrationSteps
  import opened MigrationAttempts

  predicate IsRefusal(m: ToSrc) {
    m.FileAck? && !m.ok
  }

  /** A refusal is in transit or waits to be taken. */
  predicate RefusalUnderWay(s: Session) {
    (exists m :: m in s.toSrc && IsRefusal(m)) || (exists m :: m in s.chan.fileAck && IsRefusal(m))
  }

  predicate Absent(j: Job, s: Session, k: nat)
    requires k < |j.files|
  {
    Target(j, s.dst.destPath, k) !in s.store.disk
  }

  predicate RemovedInv(j: Job, s: Session) {
    && (RefusalUnderWay(s) && s.src.next < |j.files| ==> Absent(j, s, s.src.next))
    && forall k :: 0 <= k < |j.files| && GivenUp(s.src, j.files[k].rel) ==> Absent(j, s, k)
  }

  /** While the attempt is on its way there is no refusal. */
  lemma NoRefusalYet(j: Job, s: Session, done: bool)
    requires Carry(j, s, done)
    ensures !RefusalUnderWay(s)
  {
    if Receiving(j, s, done) {
      assert forall m :: m in s.toSrc ==> m in s.chan.windowAck + s.toSrc;
    }
  }

  /** Only file_done is answered by a refusal, and it removes the file it is about. */
  lemma HandleRefuses(d: Dst, store: Store, m: ToDst, openOk: bool, landed: nat)
    requires m.Chunk? ==> landed <= |m.data|
    ensures var (d', store', out) := Handle(d, store, m, openOk, landed);
            (exists r :: r in out && IsRefusal(r)) ==>
              m.FileDone? && m.fileID == d.curFileID && (d.curPath != "" ==> d.curPath !in store'.disk)
  {
  }

  lemma NewRefusal(j: Job, s: Session, done: bool, openOk: bool, landed: nat)
    requires Carry(j, s, done) && Enabled(j, s, DeliverDst(openOk, landed))
    requires RefusalUnderWay(Apply(j, s, DeliverDst(openOk, landed)))
    ensures exists r :: r in Handle(s.dst, s.store, s.toDst[0], openOk, landed).2 && IsRefusal(r)
  {
    NoRefusalYet(j, s, done);
    var out := Handle(s.dst, s.store, s.toDst[0], openOk, landed).2;
    var r :| (r in s.toSrc + out || r in s.chan.fileAck) && IsRefusal(r);
    assert r in out;
  }

  /** The message that makes a refusal is the file_done of the open file. */
  lemma RefusingRemoves(j: Job, s: Session, done: bool, openOk: bool, landed: nat)
    requires ValidJob(j, s.dst.destPath) && Carry(j, s, done) && Enabled(j, s, DeliverDst(openOk, landed))
    requires RefusalUnderWay(Apply(j, s, DeliverDst(openOk, landed)))
    ensures Absent(j, Apply(j, s, DeliverDst(openOk, landed)), s.src.next)
  {
    NewRefusal(j, s, done, openOk, landed);
    HandleRefuses(s.dst, s.store, s.toDst[0], openOk, landed);
    CarryHead(j, s, done);
    KeepsDestPath(j, s, DeliverDst(openOk, landed));
    TargetsAreDistinct(j, s.dst.destPath, s.src.next, s.src.next);
    assert Receiving(j, s, done);
  }

  /** A message creates no file but the one it announces or the open one. */
  lemma HandleCreates(d: Dst, store: Store, m: ToDst, openOk: bool, landed: nat, path: string)
    requires m.Chunk? ==> landed <= |m.data|
    requires path !in store.disk
    requires m.Header? ==> TargetOf(d.destPath, m.info.path) != Some(path)
    requires m.Chunk? && d.curOpen ==> path != d.curPath
    ensures path !in Handle(d, store, m, openOk, landed).1.disk
  {
  }

  /** A message changes on the disk no file but the one in progress. */
  lemma OthersStayAbsent(j: Job, s: Session, openOk: bool, landed: nat, k: nat)
    requires Inv(j, s) && Enabled(j, s, DeliverDst(openOk, landed)) && InFile(j, s)
    requires Carry(j, s, false) || Carry(j, s, true)
    requires k < |j.files| && k != s.src.next && Absent(j, s, k)
    ensures Absent(j, Apply(j, s, DeliverDst(openOk, landed)), k)
  {
    CarryHead(j, s, !Carry(j, s, false));
    TargetsAreDistinct(j, s.dst.destPath, s.src.next, k);
    TargetsAreDistinct(j, s.dst.destPath, s.src.next, s.src.next);
    HandleCreates(s.dst, s.store, s.toDst[0], openOk, landed, Target(j, s.dst.destPath, k));
    assert Apply(j, s, DeliverDst(openOk, landed)).dst.destPath == s.dst.destPath by {
      KeepsDestPath(j, s, DeliverDst(openOk, landed));
    }
  }

  lemma DeliverKeepsRemoved(j: Job, s: Session, openOk: bool, landed: nat)
    requires Inv(j, s) && Enabled(j, s, DeliverDst(openOk, landed)) && RemovedInv(j, s)
    ensures RemovedInv(j, Apply(j, s, DeliverDst(openOk, landed)))
  {
    var s' := Apply(j, s, DeliverDst(openOk, landed));
    assert Carry(j, s, false) || Carry(j, s, true);
    if RefusalUnderWay(s') {
      RefusingRemoves(j, s, !Carry(j, s, false), openOk, landed);
    }
    forall k | 0 <= k < |j.files| && GivenUp(s'.src, j.files[k].rel) ensures Absent(j, s', k) {
      if k == s.src.next {
        NotYetWarned(j, s, k);
      } else {
        OthersStayAbsent(j, s, openOk, landed, k);
      }
    }
  }

  /** A file is given up by the refusal that is taken, and it is the file in progress. */
  lemma GivingUpTakesRefusal(j: Job, s: Session, a: SrcStep, k: nat)
    requires Inv(j, s) && Enabled(j, s, Source(a)) && k < |j.files|
    requires !GivenUp(s.src, j.files[k].rel) && GivenUp(Apply(j, s, Source(a)).src, j.files[k].rel)
    ensures a.TakeFileAck? && !s.chan.fileAck[0].ok && k == s.src.next
  {
    CodesDiffer();
    if k != s.src.next && s.src.next < |j.files| {
      OtherFiles(j, s.dst.destPath, k, s.src.next);
    }
  }

  lemma SourceKeepsDst(j: Job, s: Session, a: SrcStep)
    requires Enabled(j, s, Source(a)) && Inv(j, s)
    ensures var s' := Apply(j, s, Source(a));
            && s'.dst == s.dst && s'.store == s.store
            && (RefusalUnderWay(s') ==> RefusalUnderWay(s) && s'.src.next == s.src.next)
  {
    var s' := Apply(j, s, Source(a));
    if RefusalUnderWay(s') {
      assert s'.toSrc == s.toSrc && forall m :: m in s'.chan.fileAck ==> m in s.chan.fileAck;
    }
  }

  lemma SourceKeepsRemoved(j: Job, s: Session, a: SrcStep)
    requires Inv(j, s) && Enabled(j, s, Source(a)) && RemovedInv(j, s)
    ensures RemovedInv(j, Apply(j, s, Source(a)))
  {
    var s' := Apply(j, s, Source(a));
    SourceKeepsDst(j, s, a);
    forall k | 0 <= k < |j.files| && GivenUp(s'.src, j.files[k].rel) ensures Absent(j, s', k) {
      if !GivenUp(s.src, j.files[k].rel) {
        GivingUpTakesRefusal(j, s, a, k);
        assert s.chan.fileAck[0] in s.chan.fileAck;
      }
    }
  }

  lemma StepKeepsRemoved(j: Job, s: Session, a: Action)
    requires Inv(j, s) && Enabled(j, s, a) && RemovedInv(j, s)
    ensures RemovedInv(j, Apply(j, s, a))
  {
    match a
    case Source(step) => SourceKeepsRemoved(j, s, step);
    case DeliverDst(openOk, landed) => DeliverKeepsRemoved(j, s, openOk, landed);
    case DeliverSrc =>
      if RefusalUnderWay(Apply(j, s, a)) {
        assert s.toSrc[0] in s.toSrc;
        assert RefusalUnderWay(s);
      }
    case Corrupt(_, _, _) =>
  }

  lemma {:induction false} RunKeepsRemoved(j: Job, s: Session, run: seq<Action>)
    requires Inv(j, s) && Feasible(j, s, run) && RemovedInv(j, s)
    ensures Inv(j, After(j, s, run)) && RemovedInv(j, After(j, s, run))
    decreases |run|
  {
    if run != [] {
      StepKeepsInv(j, s, run[0]);
      StepKeepsRemoved(j, s, run[0]);
      RunKeepsRemoved(j, Apply(j, s, run[0]), run[1..]);
    }
  }

  /** Over all runs: when a refusal is taken, nothing is left at the path of its file, so that the
      next attempt starts clean; and nothing is there at any later time if it was the third. */
  lemma RefusedIsRemoved(j: Job, destPath: string, completed: map<string, FileInfo>, store: Store, run: seq<Action>)
    requires ValidJob(j, destPath) && Feasible(j, StartSession(destPath, completed, store), run)
    ensures var s := After(j, StartSession(destPath, completed, store), run);
            && (Enabled(j, s, Source(TakeFileAck)) && !s.chan.fileAck[0].ok ==>
                  TargetOf(destPath, j.files[s.src.next].rel).Some?
                  && TargetOf(destPath, j.files[s.src.next].rel).value !in s.store.disk)
            && forall k :: 0 <= k < |j.files| && Warning("TRANSFER_CHUNK_MAX_RETRIES", j.files[k].rel) in s.src.warnings ==>
                 TargetOf(destPath, j.files[k].rel).Some? && TargetOf(destPath, j.files[k].rel).value !in s.store.disk
  {
    var start := StartSession(destPath, completed, store);
    StartIsInv(j, destPath, completed, store);
    RunKeepsRemoved(j, start, run);
    RunKeepsInv(j, start, run);
    var s := After(j, start, run);
    forall k | 0 <= k < |j.files| ensures TargetOf(destPath, j.files[k].rel) == Some(Target(j, destPath, k)) {
      TargetsAreDistinct(j, destPath, k, k);
    }
    if Enabled(j, s, Source(TakeFileAck)) && !s.chan.fileAck[0].ok {
      assert s.chan.fileAck[0] in s.chan.fileAck;
    }
  }
}
