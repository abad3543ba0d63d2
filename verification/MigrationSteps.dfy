/** The source's steps keep the session's invariant; with it, what a finished session means. */
module MigrationSteps {
  import opened MigrationModel
  import opened MigrationSession
  import opened MigrationInvariant

  lemma OutcomeAdds(files: seq<Entry>, outcomes: seq<Outcome>, o: Outcome)
    requires |outcomes| < |files|
    ensures SizesDone(files, outcomes + [o]) == SizesDone(files, outcomes) + (if o.Warned? then 0 else files[|outcomes|].size)
    ensures WarnedRels(files, outcomes + [o])
            == WarnedRels(files, outcomes) + (if o.Warned? then [files[|outcomes|].rel] else [])
  {
    assert (outcomes + [o])[..|outcomes|] == outcomes;
  }

  lemma SkipKeepsInv(j: Job, s: Session)
    requires Inv(j, s) && Enabled(j, s, Source(Skip))
    ensures Inv(j, Apply(j, s, Source(Skip)))
  {
    SkipKeepsBooks(j, s.src, s.chan);
    assert s.toDst + [] == s.toDst;
  }

  lemma SkipKeepsBooks(j: Job, s: Src, c: Channels)
    requires Books(j, s) && CanStep(j, s, c, Skip)
    ensures Books(j, StepSrc(j, s, c, Skip).0)
  {
    OutcomeAdds(j.files, s.outcomes, Skipped);
    assert WarnedRels(j.files, s.outcomes) + [] == WarnedRels(j.files, s.outcomes);
  }

  lemma GiveUpKeepsBooks(j: Job, s: Src, code: string)
    requires Books(j, s) && s.next < |j.files| && s.bytesTransferred == SizesDone(j.files, s.outcomes)
    requires s.headers <= MAX_FILE_RETRIES && !s.phase.Listing? && !s.phase.Finished? && !s.phase.Failed?
    ensures Books(j, GiveUp(s, code, j.files[s.next].rel))
  {
    OutcomeAdds(j.files, s.outcomes, Warned);
    var s' := GiveUp(s, code, j.files[s.next].rel);
    assert FilesOf(s'.warnings) == FilesOf(s.warnings) + [j.files[s.next].rel];
  }

  lemma BetweenKeepsInv(j: Job, s: Session, a: SrcStep)
    requires Inv(j, s) && Enabled(j, s, Source(a)) && (a.Begin? || a.Drain? || a.Vanish? || a.Finish? || a.Fail?)
    ensures Inv(j, Apply(j, s, Source(a)))
  {
    assert s.toDst + [] == s.toDst;
    if a.Vanish? {
      GiveUpKeepsBooks(j, s.src, FILE_MISSING);
    }
    var s' := Apply(j, s, Source(a));
    if a.Fail? {
      FailKeepsWire(j, s);
    }
  }

  lemma FailKeepsWire(j: Job, s: Session)
    requires Inv(j, s)
    ensures Wire(j, s.(src := s.src.(phase := Failed)))
  {
    forall done | Carry(j, s, done) ensures Carry(j, s.(src := s.src.(phase := Failed)), done) {
      FailKeepsCarry(j, s, done);
    }
    forall ok | Answered(j, s, ok) ensures Answered(j, s.(src := s.src.(phase := Failed)), ok) {
      FailKeepsAnswered(j, s, ok);
    }
  }

  lemma FailKeepsCarry(j: Job, s: Session, done: bool)
    requires Carry(j, s, done)
    ensures Carry(j, s.(src := s.src.(phase := Failed)), done)
  {
    assert Info(j, s.(src := s.src.(phase := Failed))) == Info(j, s);
  }

  lemma FailKeepsAnswered(j: Job, s: Session, ok: bool)
    requires Answered(j, s, ok)
    ensures Answered(j, s.(src := s.src.(phase := Failed)), ok)
  {
  }

  lemma HeaderKeepsInv(j: Job, s: Session, content: Content)
    requires Inv(j, s) && Enabled(j, s, Source(SendHeader(content)))
    ensures Inv(j, Apply(j, s, Source(SendHeader(content))))
  {
    var s' := Apply(j, s, Source(SendHeader(content)));
    assert s'.toDst == [s'.toDst[0]] && s'.toDst[1..] == [];
    assert HeaderOut(j, s', false);
  }

  lemma TakeAckKeepsInv(j: Job, s: Session)
    requires Inv(j, s) && Enabled(j, s, Source(TakeWindowAck))
    ensures Inv(j, Apply(j, s, Source(TakeWindowAck)))
  {
    var s' := Apply(j, s, Source(TakeWindowAck));
    assert s.toDst + [] == s.toDst;
    assert Receiving(j, s, false);
    AckTaken(s.src, s.chan.windowAck, s.toSrc, s.dst, s.dropped);
    assert OpenFile(j, s');
    assert Receiving(j, s', false);
  }

  lemma ReadOnKeepsInv(j: Job, s: Session)
    requires Inv(j, s) && Enabled(j, s, Source(ReadOn))
    ensures Inv(j, Apply(j, s, Source(ReadOn)))
  {
    var s' := Apply(j, s, Source(ReadOn));
    assert s.toDst + [] == s.toDst;
    assert Info(j, s') == Info(j, s);
    assert Carry(j, s', false);
  }

  lemma AckTaken(s: Src, queued: seq<ToSrc>, q: seq<ToSrc>, d: Dst, dropped: bool)
    requires AckInv(s, queued + q, d, dropped) && queued != []
    ensures queued[0].WindowAck? && queued[0].acked > s.acked
    ensures AckInv(s.(acked := queued[0].acked), queued[1..] + q, d, dropped)
  {
    var before, after := queued + q, queued[1..] + q;
    assert before[0] == queued[0];
    assert after == before[1..];
    if after != [] {
      assert AckedBy(before[1]) >= AckedBy(before[0]) + WINDOW_ACK_EVERY;
    }
  }

  lemma BodyGrows(q: seq<ToDst>, fileID: nat, epoch: nat, m: ToDst)
    requires Body(q, fileID, epoch, false)
    ensures m.Chunk? && m.fileID == fileID && m.epoch == epoch ==> Body(q + [m], fileID, epoch, false)
    ensures m == FileDone(fileID, epoch) ==> Body(q + [m], fileID, epoch, true)
  {
    assert (q + [m])[..|q|] == q;
  }

  /** Emitting the next message of the attempt. */
  lemma CarryEmits(j: Job, s: Session, s': Session, m: ToDst)
    requires Carry(j, s, false) && (m == FileDone(s.src.fileID, s.src.epoch)
             || (m.Chunk? && m.fileID == s.src.fileID && m.epoch == s.src.epoch))
    requires s' == s.(src := s'.src, toDst := s.toDst + [m])
    requires s'.src.next == s.src.next && s'.src.fileID == s.src.fileID && s'.src.epoch == s.src.epoch
    requires s'.src.hashed == s.src.hashed && s'.src.acked == s.src.acked
    requires |s'.src.sent| == |s.src.sent| + (if m.Chunk? then |m.data| else 0)
    ensures Carry(j, s', m.FileDone?)
  {
    LenAppend(s.toDst, m);
    assert Info(j, s') == Info(j, s);
    if HeaderOut(j, s, false) {
      BodyGrows(s.toDst[1..], s.src.fileID, s.src.epoch, m);
      assert s'.toDst[1..] == s.toDst[1..] + [m];
      assert HeaderOut(j, s', m.FileDone?);
    } else {
      BodyGrows(s.toDst, s.src.fileID, s.src.epoch, m);
      if Receiving(j, s, false) {
        assert OpenFile(j, s');
        assert Receiving(j, s', m.FileDone?);
      } else {
        assert Refused(j, s', m.FileDone?);
      }
    }
  }

  lemma EmitKeepsInv(j: Job, s: Session, a: SrcStep)
    requires Inv(j, s) && Enabled(j, s, Source(a)) && (a.SendChunk? || a.EndOfFile?)
    ensures Inv(j, Apply(j, s, Source(a)))
  {
    var s' := Apply(j, s, Source(a));
    CarryEmits(j, s, s', StepSrc(j, s.src, s.chan, a).2[0]);
  }

  lemma VerdictIsAnswered(j: Job, s: Session)
    requires Inv(j, s) && s.src.phase.Awaiting? && s.chan.fileAck != []
    ensures s.chan.fileAck == [FileAck(s.src.fileID, s.chan.fileAck[0].ok, s.src.epoch)]
    ensures Answered(j, s, s.chan.fileAck[0].ok) && s.toSrc == []
  {
    if Answered(j, s, true) {
      assert s.chan.fileAck == [FileAck(s.src.fileID, true, s.src.epoch)];
    } else {
      assert Answered(j, s, false);
      assert s.chan.fileAck == [FileAck(s.src.fileID, false, s.src.epoch)];
    }
  }

  lemma AcceptKeepsInv(j: Job, s: Session)
    requires Inv(j, s) && Enabled(j, s, Source(TakeFileAck)) && s.chan.fileAck[0].ok
    ensures Inv(j, Apply(j, s, Source(TakeFileAck)))
  {
    var s' := Apply(j, s, Source(TakeFileAck));
    VerdictIsAnswered(j, s);
    OutcomeAdds(j.files, s.src.outcomes, Accepted(s.src.hashed));
    assert WarnedRels(j.files, s.src.outcomes) + [] == WarnedRels(j.files, s.src.outcomes);
    assert s'.toDst == [] by { assert s.toDst + [] == s.toDst; }
    assert Books(j, s'.src);
    assert Files(j, s');
  }

  lemma RejectKeepsInv(j: Job, s: Session)
    requires Inv(j, s) && Enabled(j, s, Source(TakeFileAck)) && !s.chan.fileAck[0].ok
    ensures Inv(j, Apply(j, s, Source(TakeFileAck)))
  {
    var s' := Apply(j, s, Source(TakeFileAck));
    VerdictIsAnswered(j, s);
    OutcomeAdds(j.files, s.src.outcomes, Warned);
    assert s'.toDst == [] by { assert s.toDst + [] == s.toDst; }
    assert FilesOf(s.src.warnings + [Warning(MAX_RETRIES, j.files[s.src.next].rel)])
        == FilesOf(s.src.warnings) + [j.files[s.src.next].rel];
    assert Books(j, s'.src);
    assert Files(j, s');
  }

  lemma StepKeepsInv(j: Job, s: Session, a: Action)
    requires Inv(j, s) && Enabled(j, s, a)
    ensures Inv(j, Apply(j, s, a))
  {
    match a {
      case Source(step) =>
        match step {
          case Skip => SkipKeepsInv(j, s);
          case SendHeader(content) => HeaderKeepsInv(j, s, content);
          case TakeWindowAck => TakeAckKeepsInv(j, s);
          case ReadOn => ReadOnKeepsInv(j, s);
          case SendChunk(_) => EmitKeepsInv(j, s, step);
          case EndOfFile => EmitKeepsInv(j, s, step);
          case TakeFileAck =>
            if s.chan.fileAck[0].ok {
              AcceptKeepsInv(j, s);
            } else {
              RejectKeepsInv(j, s);
            }
          case _ => BetweenKeepsInv(j, s, step);
        }
      case DeliverDst(openOk, landed) => DeliverDstKeepsInv(j, s, openOk, landed);
      case DeliverSrc => DeliverSrcKeepsInv(j, s);
      case Corrupt(k, data, crcOk) => CorruptKeepsInv(j, s, k, data, crcOk);
    }
  }

  lemma {:induction false} RunKeepsInv(j: Job, s: Session, run: seq<Action>)
    requires Inv(j, s) && Feasible(j, s, run)
    ensures Inv(j, After(j, s, run)) && After(j, s, run).dst.destPath == s.dst.destPath
    decreases |run|
  {
    if run != [] {
      StepKeepsInv(j, s, run[0]);
      KeepsDestPath(j, s, run[0]);
      RunKeepsInv(j, Apply(j, s, run[0]), run[1..]);
    }
  }

  lemma KeepsDestPath(j: Job, s: Session, a: Action)
    requires Enabled(j, s, a)
    ensures Apply(j, s, a).dst.destPath == s.dst.destPath
  {
  }

  lemma StartIsInv(j: Job, destPath: string, completed: map<string, FileInfo>, store: Store)
    requires ValidJob(j, destPath)
    ensures Inv(j, StartSession(destPath, completed, store))
  {
  }
}
