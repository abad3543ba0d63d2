/** When a migration session gets stuck, and so when a damaged file is answered and retried. */
module MigrationRetry {
  import opened MigrationModel
  import opened MigrationSession
  import opened MigrationInvariant
  import opened MigrationSteps
  import opened MigrationFlow
  import opened MigrationReads
  import opened MigrationLimits

  predicate Ended(s: Session) {
    s.src.phase.Finished? || s.src.phase.Failed?
  }

  /** Nothing can follow but giving up. */
  ghost predicate Stuck(j: Job, s: Session) {
    forall a: Action :: Enabled(j, s, a) ==> a == Source(Fail)
  }

  /** The destination has given the file up, the window is full, and nothing is under way. */
  predicate Abandoned(j: Job, s: Session) {
    Blocked(j, s) && Idle(s) && s.dst.curBroken
  }

  /** The source waits for a verdict on a file that the destination could not create. */
  predicate RefusedHeader(s: Session) {
    s.src.phase.Awaiting? && Idle(s) && s.dst.curBroken && !s.dst.curOpen && s.dst.curFileID == 0
  }

  lemma BetweenFilesIsNotStuck(j: Job, s: Session)
    requires Inv(j, s) && (s.src.phase.Listing? || s.src.phase.Attempting? || s.src.phase.Drained?)
    ensures !Stuck(j, s)
  {
    var step := match s.src.phase
                case Listing =>
                  if s.src.next == |j.files| then Finish
                  else if Covered(j, j.files[s.src.next]) then Skip else Begin
                case Attempting(_) => Drain
                case _ => Vanish;
    assert Enabled(j, s, Source(step));
  }

  lemma QueuesAreHandled(j: Job, s: Session)
    requires Stuck(j, s)
    ensures s.toDst == [] && s.toSrc == []
  {
    if s.toDst != [] {
      assert Enabled(j, s, DeliverDst(true, 0));
    }
    if s.toSrc != [] {
      assert Enabled(j, s, DeliverSrc);
    }
  }

  lemma QueuedIsWindow(j: Job, s: Session)
    requires Carry(j, s, false) && s.chan.windowAck != []
    ensures s.chan.windowAck[0].WindowAck? && s.chan.fileAck == []
  {
    assert Receiving(j, s, false);
    assert (s.chan.windowAck + s.toSrc)[0] == s.chan.windowAck[0];
  }

  /** With empty queues, a streaming source that is not held back for good has a step. */
  lemma StreamingMoves(j: Job, s: Session) returns (step: SrcStep)
    requires Inv(j, s) && s.src.phase.Streaming? && s.toDst == [] && s.toSrc == []
    requires !(Blocked(j, s) && Idle(s))
    ensures Enabled(j, s, Source(step)) && step != Fail
  {
    if s.chan.windowAck != [] {
      QueuedIsWindow(j, s);
    }
    step := StreamStep(j, s);
  }

  lemma StreamStep(j: Job, s: Session) returns (step: SrcStep)
    requires s.src.phase.Streaming? && s.toDst == [] && s.toSrc == [] && s.chan.fileAck == []
    requires s.chan.windowAck != [] ==> s.chan.windowAck[0].WindowAck?
    requires !(Blocked(j, s) && Idle(s))
    ensures Enabled(j, s, Source(step)) && step != Fail
  {
    step := if s.chan.windowAck != [] && (s.src.phase.draining || !WindowOpen(j, s.src)) then TakeWindowAck
            else if s.src.phase.draining then ReadOn
            else EndOfFile;
  }

  /** With empty queues, a source that waits for a verdict has it, or will never get it. */
  lemma AwaitingMoves(j: Job, s: Session)
    requires Inv(j, s) && s.src.phase.Awaiting? && s.toDst == [] && s.toSrc == []
    ensures RefusedHeader(s) || Enabled(j, s, Source(TakeFileAck))
  {
    if s.chan.fileAck != [] {
      VerdictIsAnswered(j, s);
    } else {
      assert Unanswered(j, s);
    }
  }

  /** The ways to get stuck, over all runs: a file that could not be created, a broken file with
      a full window, or parameters outside the limits of the window. */
  lemma StuckSessions(j: Job, destPath: string, store: Store, run: seq<Action>)
    requires ValidJob(j, destPath) && Feasible(j, StartSession(destPath, j.completed, store), run)
    requires Stuck(j, After(j, StartSession(destPath, j.completed, store), run))
    ensures var s := After(j, StartSession(destPath, j.completed, store), run);
            Ended(s) || RefusedHeader(s) || Abandoned(j, s) || (Blocked(j, s) && Idle(s) && !NeverStalls(j))
  {
    var start := StartSession(destPath, j.completed, store);
    var s := After(j, start, run);
    StartIsInv(j, destPath, j.completed, store);
    RunKeepsInv(j, start, run);
    match s.src.phase {
      case Streaming(_, _) =>
        QueuesAreHandled(j, s);
        if !(Blocked(j, s) && Idle(s)) {
          var step := StreamingMoves(j, s);
        } else if NeverStalls(j) {
          WindowMakesProgress(j, destPath, j.completed, store, run);
        }
      case Awaiting(_) =>
        QueuesAreHandled(j, s);
        AwaitingMoves(j, s);
      case Finished =>
      case Failed =>
      case _ => BetweenFilesIsNotStuck(j, s);
    }
  }

  // ─── Files shorter than the window ───────────────────────────────────────────

  /** Every file to be sent is shorter than the window. */
  predicate ShortFiles(j: Job) {
    forall k :: 0 <= k < |j.files| && !Covered(j, j.files[k]) ==> j.files[k].size < j.window
  }

  predicate WithinSize(j: Job, s: Session) {
    s.src.phase.Streaming? ==> s.src.next < |j.files| && |s.src.sent| <= j.files[s.src.next].size
  }

  lemma {:induction false} SizedRunKeepsSize(j: Job, s: Session, run: seq<Action>)
    requires Feasible(j, s, run) && RunReads(j, s, run, Sized) && WithinSize(j, s)
    ensures WithinSize(j, After(j, s, run))
    decreases |run|
  {
    if run != [] {
      SizedRunKeepsSize(j, Apply(j, s, run[0]), run[1..]);
    }
  }

  lemma ShortFilesNeverBlock(j: Job, s: Session)
    requires Inv(j, s) && ShortFiles(j) && WithinSize(j, s)
    ensures !Blocked(j, s)
  {
  }

  /** The file of the attempt is open at the destination, or will be, or has its verdict. */
  predicate Answerable(s: Session) {
    s.src.phase.Streaming? || s.src.phase.Awaiting? ==>
      || (s.toDst != [] && s.toDst[0].Header?)
      || s.dst.curFileID == s.src.fileID
      || s.chan.fileAck != []
      || (s.toSrc != [] && s.toSrc[|s.toSrc| - 1].FileAck?)
  }

  lemma HeaderOpensFile(j: Job, s: Session, done: bool)
    requires ValidJob(j, s.dst.destPath) && Carry(j, s, done) && s.toDst != [] && s.toDst[0].Header?
    ensures Apply(j, s, DeliverDst(true, 0)).dst.curFileID == s.src.fileID
  {
    CarryHead(j, s, done);
    TargetsAreDistinct(j, s.dst.destPath, s.src.next, s.src.next);
  }

  lemma HandlingIsAnswer(s: Session, openOk: bool, landed: nat)
    requires s.toDst != [] && (s.toDst[0].Chunk? ==> landed <= |s.toDst[0].data|) && !s.toDst[0].Header?
    requires s.dst.curFileID == s.toDst[0].fileID
    ensures var (d', _, out) := Handle(s.dst, s.store, s.toDst[0], openOk, landed);
            d'.curFileID == s.dst.curFileID || (out != [] && out[|out| - 1].FileAck?)
  {
  }

  lemma DeliveryKeepsAnswerable(j: Job, s: Session, landed: nat)
    requires Inv(j, s) && Answerable(s) && Enabled(j, s, DeliverDst(true, landed))
    ensures Answerable(Apply(j, s, DeliverDst(true, landed)))
  {
    if s.src.phase.Streaming? || s.src.phase.Awaiting? {
      var done := s.src.phase.Awaiting?;
      assert Carry(j, s, done);
      if s.toDst[0].Header? {
        HeaderOpensFile(j, s, done);
      } else {
        InBody(j, s, done);
        HandlingIsAnswer(s, true, landed);
      }
    }
  }

  /** Past the header, an answerable file is open, and all messages are about it. */
  lemma InBody(j: Job, s: Session, done: bool)
    requires Carry(j, s, done) && Answerable(s) && s.toDst != [] && !s.toDst[0].Header?
    requires s.src.phase.Streaming? || s.src.phase.Awaiting?
    ensures s.dst.curFileID == s.src.fileID == s.toDst[0].fileID && s.chan.fileAck == []
  {
    CarryHead(j, s, done);
    if Receiving(j, s, done) {
      assert Body(s.toDst, s.src.fileID, s.src.epoch, done);
      if done && |s.toDst| > 1 {
        assert s.toDst[..|s.toDst| - 1][0] == s.toDst[0];
      }
    }
  }

  lemma SourceKeepsAnswerable(j: Job, s: Session, step: SrcStep)
    requires Inv(j, s) && Answerable(s) && Enabled(j, s, Source(step))
    ensures Answerable(Apply(j, s, Source(step)))
  {
  }

  lemma PostingKeepsAnswerable(j: Job, s: Session)
    requires Answerable(s) && s.toSrc != []
    ensures Answerable(Apply(j, s, DeliverSrc))
  {
    if |s.toSrc| > 1 {
      assert s.toSrc[1..][|s.toSrc| - 2] == s.toSrc[|s.toSrc| - 1];
    }
  }

  lemma {:induction false} OpeningRunKeepsAnswerable(j: Job, s: Session, run: seq<Action>)
    requires Inv(j, s) && Answerable(s) && Feasible(j, s, run) && Opens(run)
    ensures Answerable(After(j, s, run))
    decreases |run|
  {
    if run != [] {
      StepKeepsInv(j, s, run[0]);
      match run[0] {
        case Source(step) => SourceKeepsAnswerable(j, s, step);
        case DeliverDst(_, landed) =>
          assert run[0].openOk;
          DeliveryKeepsAnswerable(j, s, landed);
        case DeliverSrc => PostingKeepsAnswerable(j, s);
        case Corrupt(_, _, _) =>
      }
      assert forall k :: 0 <= k < |run[1..]| ==> run[1..][k] == run[k + 1];
      OpeningRunKeepsAnswerable(j, Apply(j, s, run[0]), run[1..]);
    }
  }

  // ─── A damaged chunk of a longer file ────────────────────────────────────────

  /** As Fed, but the first chunk was damaged: nothing has been written since. */
  function Ruined(j: Job, b: Session, k: nat, last: nat, n: nat): Session
    requires k < |j.files|
  {
    var s := Fed(j, b, k, last, n, [], 0);
    s.(dst := s.dst.(curHash := [], curWritten := 0, curBroken := true),
       store := b.store.(disk := b.store.disk[Target(j, b.dst.destPath, k) := []]))
  }

  lemma RuinFirst(j: Job, b: Session, destPath: string, store: Store, k: nat)
    requires AtFile(j, b, destPath, store, k) && j.window > 0 && SizeOf(j, k) > 0
    ensures CanReach(j, Fed(j, b, k, 0, 0, [], 0), Ruined(j, b, k, 0, Least(j.chunkSize, SizeOf(j, k))), Full)
  {
    var r := Least(j.chunkSize, SizeOf(j, k));
    var s := Fed(j, b, k, 0, 0, [], 0);
    SendOne(j, b, destPath, store, k, 0, 0, [], 0, r, Full);
    var s1 := Sent(j, b, k, 0, [], 0, r);
    var s2 := Apply(j, s1, Corrupt(0, Zeros(r), false));
    ReachMore(j, s, s1, Corrupt(0, Zeros(r), false), Full);
    var s3 := Apply(j, s2, DeliverDst(true, r));
    ReachMore(j, s, s2, DeliverDst(true, r), Full);
    ReachMore(j, s, s3, Source(ReadOn), Full);
    assert Zeros(0) == [];
    assert Apply(j, s3, Source(ReadOn)) == Ruined(j, b, k, 0, r);
  }

  /** Ruined, with a further chunk of r bytes under way. */
  function RuinSent(j: Job, b: Session, k: nat, n: nat, r: nat): Session
    requires k < |j.files|
  {
    var s := Sent(j, b, k, n, [], 0, r);
    s.(dst := Ruined(j, b, k, n, n).dst, store := Ruined(j, b, k, n, n).store)
  }

  lemma RuinSend(j: Job, b: Session, destPath: string, store: Store, k: nat, last: nat, n: nat, r: nat)
    requires AtFile(j, b, destPath, store, k) && MayRead(j, k, n, r, Full)
    ensures CanReach(j, Ruined(j, b, k, last, n), RuinSent(j, b, k, n, r), Full)
  {
    ZerosJoin(n, r);
    ReachByOne(j, Ruined(j, b, k, last, n), Source(SendChunk(Zeros(r))), Full);
    assert Apply(j, Ruined(j, b, k, last, n), Source(SendChunk(Zeros(r)))) == RuinSent(j, b, k, n, r);
  }

  lemma RuinIgnore(j: Job, b: Session, destPath: string, store: Store, k: nat, n: nat, r: nat)
    requires AtFile(j, b, destPath, store, k)
    ensures CanReach(j, RuinSent(j, b, k, n, r), Ruined(j, b, k, n, n + r), Full)
  {
    var s := RuinSent(j, b, k, n, r);
    var t := Apply(j, s, DeliverDst(true, r));
    ReachByOne(j, s, DeliverDst(true, r), Full);
    ReachMore(j, s, t, Source(ReadOn), Full);
    assert Apply(j, t, Source(ReadOn)) == Ruined(j, b, k, n, n + r);
  }

  lemma RuinOn(j: Job, b: Session, destPath: string, store: Store, k: nat, last: nat, n: nat, r: nat)
    requires AtFile(j, b, destPath, store, k) && MayRead(j, k, n, r, Full)
    ensures CanReach(j, Ruined(j, b, k, last, n), Ruined(j, b, k, n, n + r), Full)
  {
    RuinSend(j, b, destPath, store, k, last, n, r);
    RuinIgnore(j, b, destPath, store, k, n, r);
    ReachTrans(j, Ruined(j, b, k, last, n), RuinSent(j, b, k, n, r), Ruined(j, b, k, n, n + r), Full);
  }

  lemma {:induction false} RuinRest(j: Job, b: Session, destPath: string, store: Store, k: nat, last: nat, n: nat)
      returns (last': nat, stop: nat)
    requires AtFile(j, b, destPath, store, k) && n <= SizeOf(j, k) && j.window <= SizeOf(j, k)
    ensures j.window <= stop <= SizeOf(j, k)
    ensures CanReach(j, Ruined(j, b, k, last, n), Ruined(j, b, k, last', stop), Full)
    decreases SizeOf(j, k) - n
  {
    if n >= j.window {
      last', stop := last, n;
      ReachNothing(j, Ruined(j, b, k, last, n), Full);
    } else {
      var r := Least(j.chunkSize, SizeOf(j, k) - n);
      RuinOn(j, b, destPath, store, k, last, n, r);
      last', stop := RuinRest(j, b, destPath, store, k, n, n + r);
      ReachTrans(j, Ruined(j, b, k, last, n), Ruined(j, b, k, n, n + r), Ruined(j, b, k, last', stop), Full);
    }
  }

  lemma RuinedIsStuck(j: Job, b: Session, destPath: string, store: Store, k: nat, last: nat, n: nat)
    requires AtFile(j, b, destPath, store, k) && j.window <= n <= SizeOf(j, k)
    ensures var s := Ruined(j, b, k, last, n);
            && Abandoned(j, s) && Stuck(j, s) && s.src.next == k && s.src.headers == 1
            && s.src.sent <= s.src.hashed && |s.src.hashed| == j.files[k].size
  {
    ZerosGrow(n, SizeOf(j, k));
  }

  /** Whatever the window, one damaged chunk in a file that is at least a window long can leave
      the session where nothing but the timeout can follow: the three attempts are not made. */
  lemma DamageCanPreventRetry(j: Job, destPath: string, store: Store, k: nat) returns (run: seq<Action>)
    requires ValidJob(j, destPath) && k < |j.files| && !Covered(j, j.files[k]) && j.window <= j.files[k].size
    ensures Feasible(j, StartSession(destPath, j.completed, store), run) && Opens(run)
    ensures RunReads(j, StartSession(destPath, j.completed, store), run, Full)
    ensures var s := After(j, StartSession(destPath, j.completed, store), run);
            && Abandoned(j, s) && Stuck(j, s) && s.src.next == k && s.src.headers == 1
            && s.src.sent <= s.src.hashed && |s.src.hashed| == j.files[k].size
  {
    var start := StartSession(destPath, j.completed, store);
    var b := OpenedFile(j, destPath, store, k);
    var r := Least(j.chunkSize, SizeOf(j, k));
    RuinFirst(j, b, destPath, store, k);
    var last, n := RuinRest(j, b, destPath, store, k, 0, r);
    ReachTrans(j, start, Fed(j, b, k, 0, 0, [], 0), Ruined(j, b, k, 0, r), Full);
    ReachTrans(j, start, Ruined(j, b, k, 0, r), Ruined(j, b, k, last, n), Full);
    run :| Leads(j, start, run, Ruined(j, b, k, last, n), Full);
    RuinedIsStuck(j, b, destPath, store, k, last, n);
  }

  // ─── The exact condition ─────────────────────────────────────────────────────

  /** A run with such reads, in which every file is created, does not get stuck before its end. */
  ghost predicate RunsOn(j: Job, destPath: string, store: Store, run: seq<Action>, how: Reads) {
    var start := StartSession(destPath, j.completed, store);
    Feasible(j, start, run) && RunReads(j, start, run, how) && Opens(run) ==>
      (Stuck(j, After(j, start, run)) ==> Ended(After(j, start, run)))
  }

  /** A run with such reads, whatever is created, does not come to an abandoned file. */
  ghost predicate NeverAbandons(j: Job, destPath: string, store: Store, run: seq<Action>, how: Reads) {
    var start := StartSession(destPath, j.completed, store);
    Feasible(j, start, run) && RunReads(j, start, run, how) ==> !Abandoned(j, After(j, start, run))
  }

  lemma ShortFilesRunOn(j: Job, destPath: string, store: Store, run: seq<Action>, how: Reads)
    requires ValidJob(j, destPath) && ShortFiles(j) && !how.Free?
    ensures RunsOn(j, destPath, store, run, how) && NeverAbandons(j, destPath, store, run, how)
  {
    var start := StartSession(destPath, j.completed, store);
    if Feasible(j, start, run) && RunReads(j, start, run, how) {
      var s := After(j, start, run);
      if how.Full? {
        FullIsSized(j, start, run);
      }
      StartIsInv(j, destPath, j.completed, store);
      RunKeepsInv(j, start, run);
      SizedRunKeepsSize(j, start, run);
      ShortFilesNeverBlock(j, s);
      if Opens(run) && Stuck(j, s) {
        StuckSessions(j, destPath, store, run);
        OpeningRunKeepsAnswerable(j, start, run);
      }
    }
  }

  /** Whatever chunks are damaged, every session of the job, with reads within the listed sizes
      and every file created, goes on until it has finished or failed, if and only if every
      file to be sent is shorter than the window; and exactly then no file is abandoned. */
  lemma RetryLimit(j: Job, destPath: string, store: Store, how: Reads)
    requires ValidJob(j, destPath) && !how.Free?
    ensures (forall run: seq<Action> :: RunsOn(j, destPath, store, run, how)) <==> ShortFiles(j)
    ensures (forall run: seq<Action> :: NeverAbandons(j, destPath, store, run, how)) <==> ShortFiles(j)
  {
    if ShortFiles(j) {
      forall run: seq<Action>
        ensures RunsOn(j, destPath, store, run, how) && NeverAbandons(j, destPath, store, run, how)
      {
        ShortFilesRunOn(j, destPath, store, run, how);
      }
    } else {
      var k :| 0 <= k < |j.files| && !Covered(j, j.files[k]) && j.files[k].size >= j.window;
      var run := DamageCanPreventRetry(j, destPath, store, k);
      FullIsSized(j, StartSession(destPath, j.completed, store), run);
      assert !RunsOn(j, destPath, store, run, how) && !NeverAbandons(j, destPath, store, run, how);
    }
  }
}
